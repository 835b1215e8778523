/**
 internal/queue/queue.go as an object.  Each method is one goroutine's stretch of code.  The ghost
 field `history` records the protocol events it stands for, and `Valid` says that the fields are
 what the protocol makes of that history, so every result about runs holds of every Queue object.
 */
module Queue {
  import opened Prelude
  import opened QueueProtocol

  class Queue {
    const slots: nat
    var sem: nat
    var chats: map<ChatId, ChanId>
    var chans: seq<Chan>
    var wg: nat
    var done: bool

    // Where the goroutines inside Enqueue and Stop stand, and what has happened so far.
    ghost var calls: map<CallId, Call>
    ghost var stop: StopPhase
    ghost var history: seq<Event>

    ghost function View(): State
      reads this
    {
      State(slots, sem, chats, chans, calls, wg, stop, false)
    }

    ghost predicate Valid()
      reads this
    {
      Exec(Init(slots), history) == Some(View()) && (done <==> !stop.NotStopped?)
    }

    constructor (maxConcurrent: nat)
      ensures Valid() && View() == Init(maxConcurrent) && history == []
    {
      slots, sem, chats, chans, wg, done := maxConcurrent, 0, map[], [], 0, false;
      calls, stop, history := map[], NotStopped, [];
    }

    /** Enqueue up to `mu.Unlock`: the channel of the chat, made together with its worker when it is missing. */
    method Lookup(ghost i: CallId, chat: ChatId, task: Task) returns (ch: ChanId)
      requires Valid() && !stop.Closing? && i !in calls
      modifies this`chats, this`chans, this`wg, this`calls, this`history
      ensures Valid() && history == old(history) + [Event.Lookup(i, chat, task)]
      ensures chat in chats && ch == chats[chat] && calls == old(calls)[i := Selecting(chat, ch, task)]
      ensures chat in old(chats) ==> chats == old(chats) && chans == old(chans) && wg == old(wg)
    {
      ghost var s := View();
      if chat in chats {
        ch := chats[chat];
      } else {
        ch := |chans|;
        chans := chans + [FreshChan(chat)];
        chats := chats[chat := ch];
        wg := wg + 1;
      }
      calls := calls[i := Selecting(chat, ch, task)];
      history := Extend(slots, history, Event.Lookup(i, chat, task), s, View());
    }

    /** Enqueue's select when a case is ready; `pickSend` stands for Go's choice when both are. */
    method Select(ghost i: CallId, ch: ChanId, ghost chat: ChatId, task: Task, pickSend: bool) returns (sent: bool)
      requires Valid() && i in calls && calls[i] == Selecting(chat, ch, task)
      requires ch < |chans| && !chans[ch].closed
      requires |chans[ch].buffer| < BUFFER_SIZE || done
      modifies this`chans, this`calls, this`history
      ensures Valid() && history == old(history) + [if sent then Send(i, chat, task) else Drop(i)]
      ensures sent <==> old(|chans[ch].buffer|) < BUFFER_SIZE && (pickSend || !done)
    {
      ghost var s := View();
      sent := |chans[ch].buffer| < BUFFER_SIZE && (pickSend || !done);
      if sent {
        chans := chans[ch := chans[ch].(buffer := chans[ch].buffer + [task])];
      }
      calls := calls - {i};
      history := Extend(slots, history, if sent then Send(i, chat, task) else Drop(i), s, View());
    }

    /** The worker receives the next closure of its channel. */
    method ReceiveNext(k: ChanId) returns (fn: Task)
      requires Valid() && k < |chans| && chans[k].phase.Ranging? && chans[k].buffer != []
      modifies this`chans, this`history
      ensures Valid() && history == old(history) + [Receive(k)]
      ensures [fn] + chans[k].buffer == old(chans[k].buffer) && chans[k].phase == Acquiring(fn)
      ensures chans == old(chans)[k := old(chans[k]).(buffer := chans[k].buffer, phase := Acquiring(fn))]
    {
      ghost var s := View();
      fn := chans[k].buffer[0];
      chans := chans[k := chans[k].(buffer := chans[k].buffer[1..], phase := Acquiring(fn))];
      history := Extend(slots, history, Receive(k), s, View());
    }

    /** It takes a slot and calls the closure. */
    method AcquireSlot(k: ChanId, fn: Task)
      requires Valid() && k < |chans| && chans[k].phase == Acquiring(fn) && sem < slots
      modifies this`chans, this`sem, this`history
      ensures Valid() && history == old(history) + [Start(k, fn)] && sem == old(sem) + 1
      ensures chans == old(chans)[k := old(chans[k]).(phase := Running(fn))]
    {
      ghost var s := View();
      sem := sem + 1;
      chans := chans[k := chans[k].(phase := Running(fn))];
      history := Extend(slots, history, Start(k, fn), s, View());
    }

    /** The closure returns. */
    method ReturnFrom(k: ChanId, fn: Task)
      requires Valid() && k < |chans| && chans[k].phase == Running(fn)
      modifies this`chans, this`history
      ensures Valid() && history == old(history) + [Finish(k, fn)]
      ensures chans == old(chans)[k := old(chans[k]).(phase := Releasing)]
    {
      ghost var s := View();
      chans := chans[k := chans[k].(phase := Releasing)];
      history := Extend(slots, history, Finish(k, fn), s, View());
    }

    /** The worker gives the slot back, which it holds. */
    method ReleaseSlot(k: ChanId)
      requires Valid() && k < |chans| && chans[k].phase.Releasing?
      modifies this`chans, this`sem, this`history
      ensures Valid() && history == old(history) + [Release(k)] && old(sem) > 0 && sem == old(sem) - 1
      ensures chans == old(chans)[k := old(chans[k]).(phase := Ranging)]
    {
      SlotHeld(slots, history, View(), k);
      ghost var s := View();
      sem := sem - 1;
      chans := chans[k := chans[k].(phase := Ranging)];
      WorkerSteps(s, k, Release(k), s.chans[k].(phase := Ranging), s.sem - 1, s.wg);
      history := Extend(slots, history, Release(k), s, View());
    }

    /** One turn of the worker's loop: receive, acquire a slot, run, release. */
    method RunNext(k: ChanId)
      requires Valid() && k < |chans| && chans[k].phase.Ranging? && chans[k].buffer != [] && sem < slots
      modifies this`chans, this`sem, this`history
      ensures Valid() && sem == old(sem)
      ensures chans == old(chans[k := chans[k].(buffer := chans[k].buffer[1..])])
      ensures Finished(history, k) == old(Finished(history, k) + [chans[k].buffer[0]])
      ensures forall j :: j != k ==> Finished(history, j) == old(Finished(history, j))
    {
      ghost var h, rest := history, chans[k].buffer[1..];
      var fn := ReceiveNext(k);
      assert chans[k].buffer == rest;
      RunReceived(k, fn);
      forall j ensures Finished(history, j) == Finished(h, j) + if j == k then [fn] else [] {
        TurnFinishes(h, history, k, fn, j);
      }
    }

    method RunReceived(k: ChanId, fn: Task)
      requires Valid() && k < |chans| && chans[k].phase == Acquiring(fn) && sem < slots
      modifies this`chans, this`sem, this`history
      ensures Valid() && sem == old(sem) && chans == old(chans)[k := old(chans[k]).(phase := Ranging)]
      ensures history == old(history) + [Start(k, fn)] + [Finish(k, fn)] + [Release(k)]
    {
      AcquireSlot(k, fn);
      ReturnFrom(k, fn);
      ReleaseSlot(k);
    }

    /** The worker's range loop over a closed channel, when a slot is free and nobody else moves. */
    method Worker(k: ChanId)
      requires Valid() && k < |chans| && chans[k].closed && chans[k].phase.Ranging? && sem < slots
      modifies this`chans, this`sem, this`wg, this`history
      ensures Valid() && sem == old(sem) && wg == old(wg) - 1
      ensures chans == old(chans[k := chans[k].(buffer := [], phase := Exited)])
      ensures Finished(history, k) == old(Finished(history, k) + chans[k].buffer)
      ensures forall j :: j != k ==> Finished(history, j) == old(Finished(history, j))
    {
      ghost var all, was, total := chans, chans[k], Finished(history, k) + chans[k].buffer;
      while chans[k].buffer != []
        invariant Valid() && sem == old(sem) && wg == old(wg) && |chans| == |all|
        invariant chans == all[k := was.(buffer := chans[k].buffer)]
        invariant Finished(history, k) + chans[k].buffer == total
        invariant forall j :: j != k ==> Finished(history, j) == old(Finished(history, j))
        decreases |chans[k].buffer|
      {
        HeadMoves(Finished(history, k), chans[k].buffer);
        RunNext(k);
      }
      ghost var h := history;
      ExitRange(k);
      forall j ensures Finished(history, j) == Finished(h, j) { FinishedStep(h, Exit(k), j); }
    }

    /** The end of the worker's range: the channel is empty and closed. */
    method ExitRange(k: ChanId)
      requires Valid() && k < |chans| && chans[k].closed && chans[k].phase.Ranging? && chans[k].buffer == []
      modifies this`chans, this`wg, this`history
      ensures Valid() && history == old(history) + [Exit(k)]
      ensures old(wg) > 0 && wg == old(wg) - 1
      ensures chans == old(chans[k := chans[k].(phase := Exited)])
    {
      WorkerCounted(slots, history, View(), k);
      ghost var s := View();
      wg := wg - 1;
      chans := chans[k := chans[k].(phase := Exited)];
      WorkerSteps(s, k, Exit(k), s.chans[k].(phase := Exited), s.sem, s.wg - 1);
      history := Extend(slots, history, Exit(k), s, View());
    }

    /** `close(ch)` for one chat of the range in Stop. */
    method CloseOne(c: ChatId)
      requires Valid() && stop.Closing? && c in stop.todo && c in chats
      modifies this`chans, this`stop, this`history
      ensures Valid() && stop == Closing(old(stop.todo) - {c}) && history == old(history) + [CloseChan(c)]
      ensures chans == old(chans[chats[c] := chans[chats[c]].(closed := true)])
    {
      ExecInv(slots, history);
      ghost var s := View();
      var k := chats[c];
      assert chans[k].owner == c;
      chans := chans[k := chans[k].(closed := true)];
      stop := Closing(stop.todo - {c});
      history := Extend(slots, history, CloseChan(c), s, View());
    }

    /** Stop closes `done`, which wakes every parked Enqueue. */
    method SignalDone()
      requires Valid() && stop.NotStopped?
      modifies this`done, this`stop, this`calls, this`history
      ensures Valid() && done && stop.DoneClosed? && history == old(history) + [CloseDone]
      ensures forall i :: i in calls <==> i in old(calls) && old(calls)[i].Selecting?
    {
      ghost var s := View();
      done := true;
      stop, calls := DoneClosed, NotParked(calls);
      DoneSteps(s);
      history := Extend(slots, history, CloseDone, s, View());
    }

    /** Stop locks `mu` and begins to range over the channels. */
    method LockForClosing()
      requires Valid() && stop.DoneClosed?
      modifies this`stop, this`history
      ensures Valid() && stop == Closing(chats.Keys) && history == old(history) + [LockForClose]
    {
      ghost var s := View();
      stop := Closing(chats.Keys);
      history := Extend(slots, history, LockForClose, s, View());
    }

    /** The range loop of Stop, which closes every channel, and the unlock after it. */
    method CloseChannels()
      requires Valid() && stop == Closing(chats.Keys)
      modifies this`chans, this`stop, this`history
      ensures Valid() && stop.Waiting? && |chans| == |old(chans)|
      ensures forall k :: 0 <= k < |chans| ==> chans[k] == old(chans)[k].(closed := true)
      ensures forall j :: Finished(history, j) == old(Finished(history, j))
    {
      ChannelsOwned(slots, history, View());
      var todo := chats.Keys;
      while todo != {}
        invariant Valid() && stop == Closing(todo) && |chans| == |old(chans)|
        invariant forall k :: 0 <= k < |chans| ==>
          chans[k] == if old(chans)[k].owner in todo then old(chans)[k] else old(chans)[k].(closed := true)
        invariant forall j :: Finished(history, j) == old(Finished(history, j))
        decreases todo
      {
        var c :| c in todo;
        ghost var h := history;
        ChannelsOwned(slots, history, View());
        CloseOne(c);
        NothingFinishes(h, CloseChan(c));
        todo := todo - {c};
      }
      ghost var h := history;
      UnlockAfterClosing();
      NothingFinishes(h, Unlock);
    }

    method UnlockAfterClosing()
      requires Valid() && stop == Closing({})
      modifies this`stop, this`history
      ensures Valid() && stop.Waiting? && history == old(history) + [Unlock]
    {
      ghost var s := View();
      stop := Waiting;
      history := Extend(slots, history, Unlock, s, View());
    }

    /** `wg.Wait` returns when no worker is left. */
    method Wait()
      requires Valid() && stop.Waiting? && wg == 0
      modifies this`stop, this`history
      ensures Valid() && history == old(history) + [Return]
      ensures forall k :: 0 <= k < |chans| ==> chans[k].phase.Exited? && chans[k].buffer == []
    {
      ExecInv(slots, history);
      forall k | 0 <= k < |chans| ensures chans[k].phase.Exited? {
        SumUpdate(chans, k, chans[k], Live);
      }
      ghost var s := View();
      stop := Stopped;
      history := Extend(slots, history, Return, s, View());
    }

    /** Stop up to `wg.Wait`: `done` is closed, and then every channel. */
    method CloseAll()
      requires Valid() && stop.NotStopped?
      modifies this`done, this`chans, this`stop, this`calls, this`history
      ensures Valid() && done && stop.Waiting? && |chans| == |old(chans)|
      ensures forall k :: 0 <= k < |chans| ==> chans[k] == old(chans)[k].(closed := true)
      ensures forall j :: Finished(history, j) == old(Finished(history, j))
    {
      ghost var h := history;
      SignalDone();
      NothingFinishes(h, CloseDone);
      h := history;
      LockForClosing();
      NothingFinishes(h, LockForClose);
      CloseChannels();
    }

    /** The workers, one after the other, range over what is left in their channels. */
    method DrainAll()
      requires Valid() && stop.Waiting? && slots > 0
      requires forall k :: 0 <= k < |chans| ==> chans[k].closed && chans[k].phase.Ranging?
      modifies this`chans, this`sem, this`wg, this`history
      ensures Valid() && |chans| == |old(chans)| && forall k :: 0 <= k < |chans| ==> chans[k].phase.Exited?
      ensures forall k :: 0 <= k < |chans| ==> Finished(history, k) == old(Finished(history, k) + chans[k].buffer)
    {
      AllIdle(slots, history, View());
      for i := 0 to |chans|
        invariant Valid() && sem == 0 && |chans| == |old(chans)|
        invariant forall k :: 0 <= k < i ==> chans[k].phase.Exited?
        invariant forall k :: i <= k < |chans| ==> chans[k] == old(chans)[k]
        invariant forall k :: 0 <= k < |chans| ==>
          Finished(history, k) == old(Finished(history, k)) + if k < i then old(chans)[k].buffer else []
      {
        Worker(i);
      }
    }

    /**
     Stop, when the workers are idle and nobody else moves: it returns, every worker has exited, and each has
     finished exactly what was in its channel, in order.
     */
    method Stop()
      requires Valid() && stop.NotStopped? && slots > 0
      requires forall k :: 0 <= k < |chans| ==> chans[k].phase.Ranging?
      modifies this`done, this`chans, this`sem, this`wg, this`stop, this`calls, this`history
      ensures Valid() && done && stop.Stopped? && |chans| == |old(chans)|
      ensures forall k :: 0 <= k < |chans| ==> chans[k].phase.Exited? && chans[k].buffer == []
      ensures forall k :: 0 <= k < |chans| ==> Finished(history, k) == old(Finished(history, k) + chans[k].buffer)
    {
      CloseAll();
      DrainAll();
      AllGone(slots, history, View());
      ghost var h := history;
      Wait();
      NothingFinishes(h, Return);
    }
  }

  /** One move of a worker as a step of the protocol. */
  lemma WorkerSteps(s: State, k: ChanId, e: Event, ch: Chan, sem: nat, wg: nat)
    requires k < |s.chans| && IsWork(e) && e.chan == k && !s.panicked
    requires WorkerMove(s.chans[k], e, s.slots, s.sem, s.wg) == Some((ch, sem, wg))
    ensures Step(s, e) == Some(s.(chans := s.chans[k := ch], sem := sem, wg := wg))
  {
  }

  /** A run extended by one possible event. */
  ghost function Extend(slots: nat, trace: seq<Event>, e: Event, s: State, now: State): (t: seq<Event>)
    requires Exec(Init(slots), trace) == Some(s) && Step(s, e) == Some(now)
    ensures t == trace + [e] && Exec(Init(slots), t) == Some(now)
  {
    ExecStep(Init(slots), trace, e);
    trace + [e]
  }

  lemma HeadMoves(done: seq<Task>, buffer: seq<Task>)
    requires buffer != []
    ensures done + buffer == done + [buffer[0]] + buffer[1..]
  {
    assert buffer == [buffer[0]] + buffer[1..];
  }

  lemma ChannelsOwned(slots: nat, trace: seq<Event>, s: State)
    requires Exec(Init(slots), trace) == Some(s)
    ensures forall c :: c in s.chats ==> s.chats[c] < |s.chans| && s.chans[s.chats[c]].owner == c
    ensures forall k :: 0 <= k < |s.chans| ==> s.chans[k].owner in s.chats && s.chats[s.chans[k].owner] == k
  {
    ExecInv(slots, trace);
  }

  lemma SlotHeld(slots: nat, trace: seq<Event>, s: State, k: ChanId)
    requires Exec(Init(slots), trace) == Some(s) && k < |s.chans| && s.chans[k].phase.Releasing?
    ensures s.sem > 0
  {
    ExecInv(slots, trace);
    SumUpdate(s.chans, k, s.chans[k], HoldsSlot);
  }

  lemma WorkerCounted(slots: nat, trace: seq<Event>, s: State, k: ChanId)
    requires Exec(Init(slots), trace) == Some(s) && k < |s.chans| && !s.chans[k].phase.Exited?
    ensures s.wg > 0
  {
    ExecInv(slots, trace);
    SumUpdate(s.chans, k, s.chans[k], Live);
  }

  lemma TurnFinishes(h: seq<Event>, h': seq<Event>, k: ChanId, fn: Task, j: ChanId)
    requires h' == h + [Receive(k)] + [Start(k, fn)] + [Finish(k, fn)] + [Release(k)]
    ensures Finished(h', j) == Finished(h, j) + if j == k then [fn] else []
  {
    FinishedStep(h, Receive(k), j);
    FinishedStep(h + [Receive(k)], Start(k, fn), j);
    FinishedStep(h + [Receive(k)] + [Start(k, fn)], Finish(k, fn), j);
    FinishedStep(h + [Receive(k)] + [Start(k, fn)] + [Finish(k, fn)], Release(k), j);
  }

  lemma DoneSteps(s: State)
    requires s.stop.NotStopped? && !s.panicked
    ensures Step(s, CloseDone) == Some(s.(stop := DoneClosed, calls := NotParked(s.calls)))
    ensures forall i :: i in NotParked(s.calls) <==> i in s.calls && s.calls[i].Selecting?
  {
  }

  lemma NothingFinishes(h: seq<Event>, e: Event)
    requires !e.Finish?
    ensures forall j :: Finished(h + [e], j) == Finished(h, j)
  {
    forall j ensures Finished(h + [e], j) == Finished(h, j) { FinishedStep(h, e, j); }
  }

  lemma AllGone(slots: nat, trace: seq<Event>, s: State)
    requires Exec(Init(slots), trace) == Some(s) && forall k :: 0 <= k < |s.chans| ==> s.chans[k].phase.Exited?
    ensures s.wg == 0
  {
    ExecInv(slots, trace);
    if s.wg > 0 {
      var k := SumPositive(s.chans, Live);
    }
  }

  lemma AllIdle(slots: nat, trace: seq<Event>, s: State)
    requires Exec(Init(slots), trace) == Some(s) && forall k :: 0 <= k < |s.chans| ==> s.chans[k].phase.Ranging?
    ensures s.sem == 0
  {
    ExecInv(slots, trace);
    if s.sem > 0 {
      var k := SumPositive(s.chans, HoldsSlot);
    }
  }

  lemma FinishedStep(h: seq<Event>, e: Event, k: ChanId)
    ensures Finished(h + [e], k) == Finished(h, k) + if e.Finish? && e.chan == k then [e.task] else []
  {
    assert (h + [e])[..|h|] == h;
  }
}
