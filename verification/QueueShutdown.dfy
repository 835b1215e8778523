/**
 Shutting the dispatch queue down: exactly when Stop can make the program panic, exactly when Stop
 returns, and what it has run when it does.
 */
module QueueShutdown {
  import opened Prelude
  import opened QueueProtocol

  // ---- The panic ------------------------------------------------------------------------------

  ghost predicate NoLookups(evs: seq<Event>) {
    forall n :: 0 <= n < |evs| ==> !evs[n].Lookup?
  }

  /** A continuation without new Enqueue calls that ends in a panic. */
  ghost predicate Panics(s: State, rest: seq<Event>) {
    NoLookups(rest) && Exec(s, rest).Some? && Exec(s, rest).value.panicked
  }

  predicate ClosingOver(s: State) { s.stop.Waiting? || s.stop.Stopped? }

  /** A call between its unlock and its select, whose channel is closed or still to be closed. */
  predicate Endangered(s: State, i: CallId) {
    i in s.calls && s.calls[i].Selecting? && (SelectsClosed(s, i) || !ClosingOver(s))
  }

  lemma ExecCons(s: State, e: Event, m: State, rest: seq<Event>)
    requires Step(s, e) == Some(m)
    ensures Exec(s, [e] + rest) == Exec(m, rest)
  {
    assert [e][..0] == [];
    ExecConcat(s, [e], rest);
  }

  /** Stop can always overtake an endangered call. */
  lemma {:induction false} PanicRun(s: State, i: CallId) returns (rest: seq<Event>)
    requires Inv(s) && !s.panicked && Endangered(s, i)
    ensures Panics(s, rest)
    decreases if s.stop.NotStopped? then 3 else if s.stop.DoneClosed? then 2 else if SelectsClosed(s, i) then 0 else 1
  {
    var e := if SelectsClosed(s, i) then SendOnClosed(i) else if s.stop.NotStopped? then CloseDone
             else if s.stop.DoneClosed? then LockForClose else CloseChan(s.calls[i].chat);
    assert s.chans[s.calls[i].chan].owner == s.calls[i].chat;
    var m := Step(s, e).value;
    if SelectsClosed(s, i) {
      rest := [e];
      ExecCons(s, e, m, []);
      assert [e] + [] == [e];
    } else {
      StepInv(s, e, m);
      if e.CloseChan? { CloseInv(s, e.chat, m); }
      var more := PanicRun(m, i);
      rest := [e] + more;
      ExecCons(s, e, m, more);
    }
  }

  lemma StaysSafe(s: State, e: Event, s': State, i: CallId)
    requires Inv(s) && !s.panicked && !e.Lookup? && Step(s, e) == Some(s') && !s'.panicked
    requires !Endangered(s, i)
    ensures !Endangered(s', i)
  {
  }

  /** With nobody endangered, no event but a new Enqueue endangers anybody, and none panics. */
  lemma NobodyEndangered(s: State, e: Event, s': State)
    requires Inv(s) && !s.panicked && !e.Lookup? && Step(s, e) == Some(s')
    requires forall i :: !Endangered(s, i)
    ensures !s'.panicked && forall i :: !Endangered(s', i)
  {
    if e.CloseChan? {
      CloseInv(s, e.chat, s');
    } else if e.SendOnClosed? {
      assert Endangered(s, e.call);
    }
    forall i ensures !Endangered(s', i) {
      StaysSafe(s, e, s', i);
    }
  }

  lemma {:induction false} NobodyPanics(s: State, rest: seq<Event>)
    requires Inv(s) && !s.panicked && (forall i :: !Endangered(s, i)) && NoLookups(rest) && Exec(s, rest).Some?
    ensures var s' := Exec(s, rest).value; Inv(s') && !s'.panicked && forall i :: !Endangered(s', i)
  {
    if rest == [] {
    } else {
      var n := |rest| - 1;
      NobodyPanics(s, rest[..n]);
      StepInv(Exec(s, rest[..n]).value, rest[n], Exec(s, rest).value);
      NobodyEndangered(Exec(s, rest[..n]).value, rest[n], Exec(s, rest).value);
    }
  }

  /**
   Exactly when the calls that are inside Enqueue now can still make the program panic: one of them
   stands between unlock and select, and its channel is closed or Stop has not finished closing.
   Before Stop is called that is any call between unlock and select.
   */
  lemma PanicExactly(slots: nat, evs: seq<Event>, s: State)
    requires Exec(Init(slots), evs) == Some(s) && !s.panicked
    ensures (exists rest :: Panics(s, rest)) <==> (exists i :: Endangered(s, i))
    ensures s.stop.NotStopped? ==> forall i :: Endangered(s, i) <==> i in s.calls && s.calls[i].Selecting?
  {
    ExecInv(slots, evs);
    if i :| Endangered(s, i) {
      var rest := PanicRun(s, i);
    } else {
      forall rest | NoLookups(rest) && Exec(s, rest).Some? ensures !Panics(s, rest) {
        NobodyPanics(s, rest);
      }
    }
  }

  /** One Enqueue call for "chat" between Unlock and select. */
  function Overtaken(chan: Chan, stop: StopPhase): State {
    State(1, 0, map["chat" := 0], [chan], map[0 := Selecting("chat", 0, 7)], 1, stop, false)
  }

  lemma OvertakenBegins(ch: Chan)
    requires ch == FreshChan("chat")
    ensures Step(Init(1), Lookup(0, "chat", 7)) == Some(Overtaken(ch, NotStopped))
    ensures Step(Overtaken(ch, NotStopped), CloseDone) == Some(Overtaken(ch, DoneClosed))
  {
    assert [] + [ch] == [ch];
    AllSelecting(Overtaken(ch, NotStopped).calls);
    assert DoCloseDone(Overtaken(ch, NotStopped)).value.calls == Overtaken(ch, NotStopped).calls;
  }

  lemma OvertakenCloses(ch: Chan, closed: Chan)
    requires ch == FreshChan("chat") && closed == ch.(closed := true)
    ensures Step(Overtaken(ch, DoneClosed), LockForClose) == Some(Overtaken(ch, Closing({"chat"})))
    ensures Step(Overtaken(ch, Closing({"chat"})), CloseChan("chat")) == Some(Overtaken(closed, Closing({})))
  {
    assert [ch][0 := closed] == [closed] && {"chat"} - {"chat"} == {};
    assert map["chat" := 0].Keys == {"chat"};
  }

  /** The shortest run that panics: Stop overtakes an Enqueue between Unlock and select. */
  lemma EnqueueOvertakenByStop()
    ensures
      var evs := [Lookup(0, "chat", 7), CloseDone, LockForClose, CloseChan("chat"), SendOnClosed(0)];
      Exec(Init(1), evs).Some? && Exec(Init(1), evs).value.panicked
  {
    var evs := [Lookup(0, "chat", 7), CloseDone, LockForClose, CloseChan("chat"), SendOnClosed(0)];
    var ch := FreshChan("chat");
    var closed := ch.(closed := true);
    OvertakenBegins(ch);
    OvertakenCloses(ch, closed);
    ExecNext(Init(1), evs, 0, Init(1));
    ExecNext(Init(1), evs, 1, Overtaken(ch, NotStopped));
    ExecNext(Init(1), evs, 2, Overtaken(ch, DoneClosed));
    ExecNext(Init(1), evs, 3, Overtaken(ch, Closing({"chat"})));
    assert SelectsClosed(Overtaken(closed, Closing({})), 0);
    ExecNext(Init(1), evs, 4, Overtaken(closed, Closing({})));
    assert evs[..5] == evs;
  }

  // ---- When Stop returns --------------------------------------------------------------------------

  ghost predicate AllClosed(s: State) {
    forall k :: 0 <= k < |s.chans| ==> s.chans[k].closed
  }

  /** A continuation in which Stop returns. */
  ghost predicate Returns(s: State, rest: seq<Event>) {
    Exec(s, rest).Some? && Exec(s, rest).value.stop.Stopped?
  }

  /** When Stop unlocks `mu` every channel is closed, whoever is inside Enqueue. */
  lemma UnlockDrains(slots: nat, evs: seq<Event>, s: State, s': State)
    requires Exec(Init(slots), evs) == Some(s) && Step(s, Unlock) == Some(s')
    ensures s'.stop.Waiting? && AllClosed(s')
  {
    ExecInv(slots, evs);
  }

  /** While Stop waits, an open channel stays open, its worker stays, and Stop goes on waiting. */
  lemma OpenStep(s: State, e: Event, s': State, k: ChanId)
    requires Inv(s) && s.stop.Waiting? && k < |s.chans| && !s.chans[k].closed && Step(s, e) == Some(s')
    ensures s'.stop.Waiting? && k < |s'.chans| && !s'.chans[k].closed
  {
    SumUpdate(s.chans, k, s.chans[k], Live);
    assert !e.Return?;
  }

  lemma {:induction false} OpenForever(s: State, k: ChanId, rest: seq<Event>)
    requires Inv(s) && s.stop.Waiting? && k < |s.chans| && !s.chans[k].closed && Exec(s, rest).Some?
    ensures var s' := Exec(s, rest).value; Inv(s') && s'.stop.Waiting? && k < |s'.chans| && !s'.chans[k].closed
  {
    if rest == [] {
    } else {
      var n := |rest| - 1;
      OpenForever(s, k, rest[..n]);
      StepInv(Exec(s, rest[..n]).value, rest[n], Exec(s, rest).value);
      OpenStep(Exec(s, rest[..n]).value, rest[n], Exec(s, rest).value, k);
    }
  }

  /** An Enqueue for a chat without a channel, made while Stop waits, keeps Stop waiting in every continuation. */
  lemma NewChatHangsStop(slots: nat, evs: seq<Event>, s: State, i: CallId, c: ChatId, t: Task)
    requires Exec(Init(slots), evs) == Some(s) && !s.panicked && s.stop.Waiting? && c !in s.chats && i !in s.calls
    ensures Step(s, Lookup(i, c, t)).Some?
    ensures forall rest :: Exec(Step(s, Lookup(i, c, t)).value, rest).Some? ==>
      Exec(Step(s, Lookup(i, c, t)).value, rest).value.stop.Waiting?
  {
    ExecInv(slots, evs);
    var m := Step(s, Lookup(i, c, t)).value;
    StepInv(s, Lookup(i, c, t), m);
    forall rest | Exec(m, rest).Some? ensures Exec(m, rest).value.stop.Waiting? {
      OpenForever(m, |s.chans|, rest);
    }
  }

  lemma AllSelecting(calls: map<CallId, Call>)
    requires forall i :: i in calls ==> calls[i].Selecting?
    ensures NotParked(calls) == calls
  {
  }

  /** The shortest run after which Stop never returns: nobody is inside Enqueue when it unlocks, then one call comes. */
  lemma StopHangs()
    ensures var evs := [CloseDone, LockForClose, Unlock, Lookup(0, "chat", 7)];
      Exec(Init(1), evs).Some? && forall rest :: Exec(Exec(Init(1), evs).value, rest).Some? ==>
        Exec(Exec(Init(1), evs).value, rest).value.stop.Waiting?
  {
    var evs := [CloseDone, LockForClose, Unlock, Lookup(0, "chat", 7)];
    var empty := State(1, 0, map[], [], map[], 0, Waiting, false);
    var chats: map<ChatId, ChanId> := map[];
    assert chats.Keys == {};
    AllSelecting(map[]);
    assert Step(Init(1).(stop := DoneClosed), LockForClose) == Some(Init(1).(stop := Closing({})));
    ExecNext(Init(1), evs, 0, Init(1));
    ExecNext(Init(1), evs, 1, Init(1).(stop := DoneClosed));
    ExecNext(Init(1), evs, 2, Init(1).(stop := Closing({})));
    ExecNext(Init(1), evs, 3, empty);
    assert evs[..4] == evs;
    NewChatHangsStop(1, evs[..3], empty, 0, "chat", 7);
  }

  /** Work left in one channel: four moves a buffered closure, and what the worker still has to do. */
  function Weight(ch: Chan): nat {
    4 * |ch.buffer| + match ch.phase
                      case Ranging => 1
                      case Acquiring(_) => 4
                      case Running(_) => 3
                      case Releasing => 2
                      case Exited => 0
  }

  function Measure(s: State): nat {
    Sum(s.chans, Weight) + if s.stop.Waiting? then 1 else 0
  }

  lemma WorkerMoveShrinks(ch: Chan, e: Event, slots: nat, sem: nat, wg: nat)
    requires WorkerMove(ch, e, slots, sem, wg).Some?
    ensures Weight(WorkerMove(ch, e, slots, sem, wg).value.0) < Weight(ch)
    ensures WorkerMove(ch, e, slots, sem, wg).value.0.closed == ch.closed
  {
  }

  /** An event that takes a worker or Stop further. */
  predicate Moves(e: Event) { IsWork(e) || e.Return? }

  function CountMoves(evs: seq<Event>): nat {
    if evs == [] then 0 else CountMoves(evs[..|evs| - 1]) + if Moves(evs[|evs| - 1]) then 1 else 0
  }

  lemma WorkShrinks(s: State, e: Event, s': State)
    requires IsWork(e) && DoWork(s, e.chan, e) == Some(s')
    ensures Measure(s') < Measure(s) && s'.chats == s.chats && s'.stop == s.stop && |s'.chans| == |s.chans|
    ensures AllClosed(s) ==> AllClosed(s')
  {
    WorkerMoveShrinks(s.chans[e.chan], e, s.slots, s.sem, s.wg);
    SumUpdate(s.chans, e.chan, s'.chans[e.chan], Weight);
  }

  /**
   With every channel closed, an event accepts nothing and opens nothing unless it looks up a new
   chat, and each move of a worker or of Stop lowers the measure.
   */
  lemma DrainStep(s: State, e: Event, s': State)
    requires Inv(s) && ClosingOver(s) && AllClosed(s) && Step(s, e) == Some(s') && (e.Lookup? ==> e.chat in s.chats)
    ensures ClosingOver(s') && AllClosed(s') && !e.Send? && s'.chats == s.chats && s'.slots == s.slots
    ensures Measure(s') + (if Moves(e) then 1 else 0) <= Measure(s)
  {
    if IsWork(e) {
      WorkShrinks(s, e, s');
    } else {
      assert s'.chans == s.chans;
    }
  }

  /** While Stop waits for closed channels, some move of a worker or of Stop is possible. */
  lemma DrainProgress(s: State) returns (e: Event)
    requires Inv(s) && !s.panicked && s.stop.Waiting? && AllClosed(s) && s.slots >= 1
    ensures Moves(e) && Step(s, e).Some?
  {
    if s.wg == 0 {
      e := Return;
    } else {
      var k := SumPositive(s.chans, Live);
      var ch := s.chans[k];
      match ch.phase
      case Ranging => e := if ch.buffer != [] then Receive(k) else Exit(k);
      case Acquiring(t) =>
        if s.sem < s.slots {
          e := Start(k, t);
        } else {
          var j := SumPositive(s.chans, HoldsSlot);
          e := if s.chans[j].phase.Running? then Finish(j, s.chans[j].phase.task) else Release(j);
        }
      case Running(t) => e := Finish(k, t);
      case Releasing =>
        SumUpdate(s.chans, k, ch, HoldsSlot);
        e := Release(k);
    }
  }

  lemma {:induction false} FinishDrain(s: State) returns (rest: seq<Event>)
    requires Inv(s) && !s.panicked && s.stop.Waiting? && AllClosed(s) && s.slots >= 1
    ensures Returns(s, rest)
    decreases Measure(s)
  {
    var e := DrainProgress(s);
    var m := Step(s, e).value;
    DrainStep(s, e, m);
    StepInv(s, e, m);
    var more := [];
    if e.Return? {
    } else {
      more := FinishDrain(m);
    }
    rest := [e] + more;
    ExecCons(s, e, m, more);
  }

  /** While Stop waits, it can still return if and only if every channel is closed. */
  lemma StopReturnsExactly(slots: nat, evs: seq<Event>, s: State)
    requires slots >= 1 && Exec(Init(slots), evs) == Some(s) && !s.panicked && s.stop.Waiting?
    ensures (exists rest :: Returns(s, rest)) <==> AllClosed(s)
  {
    ExecInv(slots, evs);
    if AllClosed(s) {
      var rest := FinishDrain(s);
    } else {
      var k :| 0 <= k < |s.chans| && !s.chans[k].closed;
      forall rest | Exec(s, rest).Some? ensures !Returns(s, rest) {
        OpenForever(s, k, rest);
      }
    }
  }

  // ---- What a return of Stop means, for every continuation -----------------------------------------

  lemma AcceptedStep(evs: seq<Event>, e: Event, c: ChatId)
    ensures Accepted(evs + [e], c) == Accepted(evs, c) + if e.Send? && e.chat == c then [e.task] else []
  {
    assert (evs + [e])[..|evs|] == evs;
  }

  /** The first n channels are closed, and their workers are gone once Stop has returned. */
  ghost predicate Sealed(s: State, n: nat) {
    && ClosingOver(s) && n <= |s.chans|
    && (forall k :: 0 <= k < n ==> s.chans[k].closed)
    && (s.stop.Stopped? ==> forall k :: 0 <= k < n ==> s.chans[k].phase.Exited? && s.chans[k].buffer == [])
  }

  lemma SealedStep(s: State, e: Event, s': State, n: nat)
    requires Inv(s) && Sealed(s, n) && Step(s, e) == Some(s')
    ensures Sealed(s', n)
    ensures e.Send? ==> e.chat in s.chats && s.chats[e.chat] >= n
  {
    if e.Return? {
      forall k | 0 <= k < n ensures s'.chans[k].phase.Exited? && s'.chans[k].buffer == [] {
        SumUpdate(s.chans, k, s.chans[k], Live);
      }
    }
  }

  lemma {:induction false} SealedForever(slots: nat, evs: seq<Event>, s: State, rest: seq<Event>, c: ChatId)
    requires Exec(Init(slots), evs) == Some(s) && s.stop.Waiting? && AllClosed(s) && c in s.chats
    requires Exec(s, rest).Some?
    ensures var s' := Exec(s, rest).value;
      Sealed(s', |s.chans|) && c in s'.chats && s'.chats[c] == s.chats[c] < |s.chans|
    ensures Accepted(evs + rest, c) == Accepted(evs, c)
  {
    ExecInv(slots, evs);
    if rest == [] {
      assert evs + rest == evs;
    } else {
      var n := |rest| - 1;
      SealedForever(slots, evs, s, rest[..n], c);
      ExecConcat(Init(slots), evs, rest[..n]);
      ExecInv(slots, evs + rest[..n]);
      SealedStep(Exec(s, rest[..n]).value, rest[n], Exec(s, rest).value, |s.chans|);
      ChatsGrow(s, rest, c);
      AcceptedStep(evs + rest[..n], rest[n], c);
      assert evs + rest == (evs + rest[..n]) + [rest[n]];
    }
  }

  lemma {:induction false} MovesBounded(s: State, rest: seq<Event>)
    requires Inv(s) && ClosingOver(s) && AllClosed(s) && Exec(s, rest).Some?
    requires KnownChats(s, rest)
    ensures var s' := Exec(s, rest).value;
      && Inv(s') && ClosingOver(s') && AllClosed(s') && s'.chats == s.chats && s'.slots == s.slots
      && CountMoves(rest) + Measure(s') <= Measure(s)
  {
    if rest == [] {
    } else {
      var n := |rest| - 1;
      MovesBounded(s, rest[..n]);
      StepInv(Exec(s, rest[..n]).value, rest[n], Exec(s, rest).value);
      DrainStep(Exec(s, rest[..n]).value, rest[n], Exec(s, rest).value);
    }
  }

  lemma RanAccepted(slots: nat, evs: seq<Event>, s: State, rest: seq<Event>, c: ChatId)
    requires Exec(Init(slots), evs) == Some(s) && s.stop.Waiting? && AllClosed(s) && c in s.chats
    requires Returns(s, rest)
    ensures var s', k := Exec(s, rest).value, s.chats[c];
      k < |s'.chans| && s'.chans[k].phase.Exited? && Finished(evs + rest, k) == Accepted(evs, c)
  {
    SealedForever(slots, evs, s, rest, c);
    ExecConcat(Init(slots), evs, rest);
    FifoRefinement(slots, evs + rest, c);
    var k := s.chats[c];
    NothingLeft(Exec(s, rest).value.chans[k], Accepted(evs, c), Started(evs + rest, k), Finished(evs + rest, k));
  }

  lemma NothingLeft(ch: Chan, accepted: seq<Task>, started: seq<Task>, finished: seq<Task>)
    requires InOrder(ch, accepted, started, finished) && ch.phase.Exited? && ch.buffer == []
    ensures finished == accepted
  {
  }

  /** The continuation enqueues only for chats that have a channel. */
  ghost predicate KnownChats(s: State, rest: seq<Event>) {
    forall n :: 0 <= n < |rest| && rest[n].Lookup? ==> rest[n].chat in s.chats
  }

  ghost predicate CanMove(s: State) {
    exists e :: Moves(e) && Step(s, e).Some?
  }

  /**
   From the moment Stop has unlocked `mu`, whatever is enqueued afterwards: when Stop has returned, the
   worker of each chat known by then is gone and ran exactly the closures accepted for the chat before,
   each once and in order.  As long as nothing is enqueued for a new chat, the moves of workers and of
   Stop are bounded, and until Stop returns or the program panics one more of them is possible.
   */
  lemma StopCompletes(slots: nat, evs: seq<Event>, s: State, rest: seq<Event>)
    requires slots >= 1 && Exec(Init(slots), evs) == Some(s) && s.stop.Waiting? && AllClosed(s)
    requires Exec(s, rest).Some?
    ensures var s' := Exec(s, rest).value;
      && (s'.stop.Stopped? ==> forall c :: c in s.chats ==>
           var k := s.chats[c];
           k < |s'.chans| && s'.chans[k].phase.Exited? && Finished(evs + rest, k) == Accepted(evs, c))
      && (KnownChats(s, rest) ==> CountMoves(rest) <= Measure(s) && (s'.stop.Stopped? || s'.panicked || CanMove(s')))
  {
    ExecInv(slots, evs);
    var s' := Exec(s, rest).value;
    if s'.stop.Stopped? {
      forall c | c in s.chats
        ensures var k := s.chats[c];
          k < |s'.chans| && s'.chans[k].phase.Exited? && Finished(evs + rest, k) == Accepted(evs, c)
      {
        RanAccepted(slots, evs, s, rest, c);
      }
    }
    if KnownChats(s, rest) {
      BoundedAndLive(s, rest);
    }
  }

  lemma BoundedAndLive(s: State, rest: seq<Event>)
    requires s.slots >= 1 && Inv(s) && s.stop.Waiting? && AllClosed(s) && Exec(s, rest).Some? && KnownChats(s, rest)
    ensures var s' := Exec(s, rest).value;
      CountMoves(rest) <= Measure(s) && (s'.stop.Stopped? || s'.panicked || CanMove(s'))
  {
    MovesBounded(s, rest);
    var s' := Exec(s, rest).value;
    if s'.stop.Waiting? && !s'.panicked {
      var e := DrainProgress(s');
    }
  }
}
