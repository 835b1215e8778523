/**
 The dispatch queue of internal/queue/queue.go as a transition system.  One event is one
 atomic section of a goroutine: a region under `mu`, one channel operation, or one call of
 a queued closure.  `Step` returns None when Go would block (or the goroutine is elsewhere).
 */
module QueueProtocol {
  import opened Prelude

  type ChatId = string
  type ChanId = nat
  type CallId = nat
  type Task = nat

  /** Capacity of every per-chat channel. */
  const BUFFER_SIZE: nat := 256

  /** Where the worker goroutine of a channel stands in its `range` loop. */
  datatype Phase = Ranging | Acquiring(task: Task) | Running(task: Task) | Releasing | Exited

  /** A per-chat channel together with the worker that ranges over it; `owner` is the chat it was made for. */
  datatype Chan = Chan(owner: ChatId, buffer: seq<Task>, closed: bool, phase: Phase)

  /** An Enqueue call after it released `mu`: about to evaluate its select, or parked inside it. */
  datatype Call = Selecting(chat: ChatId, chan: ChanId, task: Task)
                | Parked(chat: ChatId, chan: ChanId, task: Task)

  /** Progress of the body of Stop; `done` is closed in every phase but the first. */
  datatype StopPhase = NotStopped | DoneClosed | Closing(todo: set<ChatId>) | Waiting | Stopped

  datatype State = State(
    slots: nat,                   // capacity of the semaphore channel
    sem: nat,                     // tokens in the semaphore channel
    chats: map<ChatId, ChanId>,
    chans: seq<Chan>,
    calls: map<CallId, Call>,
    wg: nat,
    stop: StopPhase,
    panicked: bool)

  datatype Event =
    | Lookup(call: CallId, chat: ChatId, task: Task)   // find or make the channel, under mu
    | Send(call: CallId, chat: ChatId, task: Task)     // select: ch <- fn
    | Park(call: CallId)                               // select: no case is ready
    | Drop(call: CallId)                               // select: <-done
    | SendOnClosed(call: CallId)                       // select: ch <- fn on a closed channel
    | Receive(chan: ChanId)
    | Start(chan: ChanId, task: Task)                  // acquire a slot, call fn
    | Finish(chan: ChanId, task: Task)                 // fn returns
    | Release(chan: ChanId)
    | Exit(chan: ChanId)                               // range ends, wg.Done
    | CloseDone
    | LockForClose
    | CloseChan(chat: ChatId)
    | Unlock
    | Return

  function Init(slots: nat): State {
    State(slots, 0, map[], [], map[], 0, NotStopped, false)
  }

  // ---- Enqueue ------------------------------------------------------------------------------

  function DoLookup(s: State, i: CallId, c: ChatId, t: Task): Option<State> {
    if s.stop.Closing? || i in s.calls then None
    else if c in s.chats then Some(s.(calls := s.calls[i := Selecting(c, s.chats[c], t)]))
    else
      var k := |s.chans|;
      Some(s.(chats := s.chats[c := k],
              chans := s.chans + [Chan(c, [], false, Ranging)],
              wg := s.wg + 1,
              calls := s.calls[i := Selecting(c, k, t)]))
  }

  function DoSend(s: State, i: CallId, c: ChatId, t: Task): Option<State> {
    if i in s.calls && s.calls[i].chat == c && s.calls[i].task == t && s.calls[i].chan < |s.chans| then
      var k := s.calls[i].chan;
      var ch := s.chans[k];
      if ch.closed || |ch.buffer| >= BUFFER_SIZE then None
      else Some(s.(calls := s.calls - {i}, chans := s.chans[k := ch.(buffer := ch.buffer + [t])]))
    else None
  }

  function DoPark(s: State, i: CallId): Option<State> {
    if i in s.calls && s.calls[i].Selecting? && s.calls[i].chan < |s.chans|
       && !s.chans[s.calls[i].chan].closed && |s.chans[s.calls[i].chan].buffer| >= BUFFER_SIZE
       && s.stop.NotStopped?
    then Some(s.(calls := s.calls[i := Parked(s.calls[i].chat, s.calls[i].chan, s.calls[i].task)]))
    else None
  }

  function DoDrop(s: State, i: CallId): Option<State> {
    if i in s.calls && !s.stop.NotStopped? then Some(s.(calls := s.calls - {i})) else None
  }

  predicate SelectsClosed(s: State, i: CallId) {
    i in s.calls && s.calls[i].Selecting? && s.calls[i].chan < |s.chans| && s.chans[s.calls[i].chan].closed
  }

  // ---- The worker of one channel ------------------------------------------------------------

  /** One move of the worker of a channel, as a change of the channel and of the two counters. */
  function WorkerMove(ch: Chan, e: Event, slots: nat, sem: nat, wg: nat): Option<(Chan, nat, nat)> {
    match e
    case Receive(_) =>
      if ch.phase.Ranging? && ch.buffer != []
      then Some((ch.(buffer := ch.buffer[1..], phase := Acquiring(ch.buffer[0])), sem, wg)) else None
    case Start(_, t) =>
      if ch.phase == Acquiring(t) && sem < slots then Some((ch.(phase := Running(t)), sem + 1, wg)) else None
    case Finish(_, t) =>
      if ch.phase == Running(t) then Some((ch.(phase := Releasing), sem, wg)) else None
    case Release(_) =>
      if ch.phase.Releasing? && sem > 0 then Some((ch.(phase := Ranging), sem - 1, wg)) else None
    case Exit(_) =>
      if ch.phase.Ranging? && ch.buffer == [] && ch.closed && wg > 0
      then Some((ch.(phase := Exited), sem, wg - 1)) else None
    case _ => None
  }

  function DoWork(s: State, k: ChanId, e: Event): Option<State> {
    if k < |s.chans| then
      match WorkerMove(s.chans[k], e, s.slots, s.sem, s.wg)
      case None => None
      case Some(r) => Some(s.(chans := s.chans[k := r.0], sem := r.1, wg := r.2))
    else None
  }

  // ---- Stop ---------------------------------------------------------------------------------

  function NotParked(calls: map<CallId, Call>): map<CallId, Call> {
    map i | i in calls && calls[i].Selecting? :: calls[i]
  }

  /** Closing `done` wakes every parked select with the done case. */
  function DoCloseDone(s: State): Option<State> {
    if s.stop.NotStopped?
    then Some(s.(stop := DoneClosed, calls := NotParked(s.calls)))
    else None
  }

  /** Closing a channel a second time panics. */
  function DoCloseChan(s: State, c: ChatId): Option<State> {
    if s.stop.Closing? && c in s.stop.todo && c in s.chats && s.chats[c] < |s.chans| then
      var k := s.chats[c];
      if s.chans[k].closed then Some(s.(panicked := true))
      else Some(s.(stop := Closing(s.stop.todo - {c}), chans := s.chans[k := s.chans[k].(closed := true)]))
    else None
  }

  function Step(s: State, e: Event): Option<State> {
    if s.panicked then None else
    match e
    case Lookup(i, c, t) => DoLookup(s, i, c, t)
    case Send(i, c, t) => DoSend(s, i, c, t)
    case Park(i) => DoPark(s, i)
    case Drop(i) => DoDrop(s, i)
    case SendOnClosed(i) => if SelectsClosed(s, i) then Some(s.(panicked := true)) else None
    case Receive(k) => DoWork(s, k, e)
    case Start(k, _) => DoWork(s, k, e)
    case Finish(k, _) => DoWork(s, k, e)
    case Release(k) => DoWork(s, k, e)
    case Exit(k) => DoWork(s, k, e)
    case CloseDone => DoCloseDone(s)
    case LockForClose => if s.stop.DoneClosed? then Some(s.(stop := Closing(s.chats.Keys))) else None
    case CloseChan(c) => DoCloseChan(s, c)
    case Unlock => if s.stop.Closing? && s.stop.todo == {} then Some(s.(stop := Waiting)) else None
    case Return => if s.stop.Waiting? && s.wg == 0 then Some(s.(stop := Stopped)) else None
  }

  predicate IsWork(e: Event) { e.Receive? || e.Start? || e.Finish? || e.Release? || e.Exit? }

  /** The state after a run, or None when some event of it was not possible. */
  function Exec(s: State, evs: seq<Event>): Option<State> {
    if evs == [] then Some(s)
    else match Exec(s, evs[..|evs| - 1])
         case None => None
         case Some(m) => Step(m, evs[|evs| - 1])
  }

  lemma ExecStep(s: State, evs: seq<Event>, e: Event)
    ensures Exec(s, evs + [e]) == match Exec(s, evs) case None => None case Some(m) => Step(m, e)
  {
    assert (evs + [e])[..|evs|] == evs;
  }

  lemma ExecNext(s: State, evs: seq<Event>, n: nat, m: State)
    requires n < |evs| && Exec(s, evs[..n]) == Some(m)
    ensures Exec(s, evs[..n + 1]) == Step(m, evs[n])
  {
    assert evs[..n + 1] == evs[..n] + [evs[n]];
    ExecStep(s, evs[..n], evs[n]);
  }

  lemma {:induction false} ExecConcat(s: State, xs: seq<Event>, ys: seq<Event>)
    requires Exec(s, xs).Some?
    ensures Exec(s, xs + ys) == Exec(Exec(s, xs).value, ys)
  {
    if ys == [] {
      assert xs + ys == xs;
    } else {
      var n := |ys| - 1;
      ExecConcat(s, xs, ys[..n]);
      assert xs + ys == (xs + ys[..n]) + [ys[n]];
      ExecStep(s, xs + ys[..n], ys[n]);
    }
  }

  // ---- What an observer of the queue sees of a run --------------------------------------

  /** The closures the queue accepted for a chat, in the order the sends happened. */
  function Accepted(evs: seq<Event>, c: ChatId): seq<Task> {
    if evs == [] then []
    else
      var e := evs[|evs| - 1];
      Accepted(evs[..|evs| - 1], c) + if e.Send? && e.chat == c then [e.task] else []
  }

  /** The closures a worker began to run, in order. */
  function Started(evs: seq<Event>, k: ChanId): seq<Task> {
    if evs == [] then []
    else
      var e := evs[|evs| - 1];
      Started(evs[..|evs| - 1], k) + if e.Start? && e.chan == k then [e.task] else []
  }

  /** The closures a worker ran to the end, in order. */
  function Finished(evs: seq<Event>, k: ChanId): seq<Task> {
    if evs == [] then []
    else
      var e := evs[|evs| - 1];
      Finished(evs[..|evs| - 1], k) + if e.Finish? && e.chan == k then [e.task] else []
  }

  function InHand(ch: Chan): seq<Task> {
    match ch.phase
    case Acquiring(t) => [t]
    case Running(t) => [t]
    case _ => []
  }

  function RunningNow(ch: Chan): seq<Task> {
    if ch.phase.Running? then [ch.phase.task] else []
  }

  // ---- Invariant of every reachable state ------------------------------------------------

  function HoldsSlot(ch: Chan): nat { if ch.phase.Running? || ch.phase.Releasing? then 1 else 0 }

  function Live(ch: Chan): nat { if ch.phase.Exited? then 0 else 1 }

  /** The chats map and the channels are in bijection, and Enqueue calls hold the channel of their chat. */
  ghost predicate Registered(s: State) {
    && (forall c :: c in s.chats ==> s.chats[c] < |s.chans| && s.chans[s.chats[c]].owner == c)
    && (forall k :: 0 <= k < |s.chans| ==> s.chans[k].owner in s.chats && s.chats[s.chans[k].owner] == k)
    && (forall i :: i in s.calls ==> s.calls[i].chat in s.chats && s.chats[s.calls[i].chat] == s.calls[i].chan)
  }

  ghost predicate Counted(s: State) {
    s.sem == Sum(s.chans, HoldsSlot) && s.sem <= s.slots && s.wg == Sum(s.chans, Live)
  }

  /** Channels are closed by Stop only, each once, and a worker leaves only an empty closed channel. */
  ghost predicate ClosedInOrder(s: State) {
    && (s.stop.NotStopped? || s.stop.DoneClosed? ==> forall k :: 0 <= k < |s.chans| ==> !s.chans[k].closed)
    && (s.stop.Closing? ==> s.stop.todo <= s.chats.Keys)
    && (s.stop.Closing? ==>
          forall k :: 0 <= k < |s.chans| ==> (s.chans[k].owner in s.stop.todo <==> !s.chans[k].closed))
    && (!s.stop.NotStopped? ==> forall i :: i in s.calls ==> s.calls[i].Selecting?)
    && (forall k :: 0 <= k < |s.chans| && s.chans[k].phase.Exited? ==> s.chans[k].closed && s.chans[k].buffer == [])
  }

  ghost predicate Inv(s: State) {
    Registered(s) && Counted(s) && (!s.panicked ==> ClosedInOrder(s))
  }

  lemma ReplaceChan(s: State, k: ChanId, ch: Chan)
    requires k < |s.chans|
    ensures Sum(s.chans, HoldsSlot) >= HoldsSlot(s.chans[k]) && Sum(s.chans, Live) >= Live(s.chans[k])
    ensures Sum(s.chans[k := ch], HoldsSlot) == Sum(s.chans, HoldsSlot) - HoldsSlot(s.chans[k]) + HoldsSlot(ch)
    ensures Sum(s.chans[k := ch], Live) == Sum(s.chans, Live) - Live(s.chans[k]) + Live(ch)
  {
    SumUpdate(s.chans, k, ch, HoldsSlot);
    SumUpdate(s.chans, k, ch, Live);
  }

  function FreshChan(c: ChatId): Chan { Chan(c, [], false, Ranging) }

  /** Enqueue for a new chat keeps chats and channels in bijection. */
  lemma NewChatRegistered(s: State, c: ChatId, s': State)
    requires Registered(s) && c !in s.chats
    requires s'.chats == s.chats[c := |s.chans|] && s'.chans == s.chans + [FreshChan(c)] && s'.calls == s.calls
    ensures Registered(s')
  {
  }

  lemma NewChatCounted(s: State, c: ChatId, s': State)
    requires Counted(s)
    requires s'.chans == s.chans + [FreshChan(c)] && s'.sem == s.sem && s'.slots == s.slots && s'.wg == s.wg + 1
    ensures Counted(s')
  {
    SumAppend(s.chans, FreshChan(c), HoldsSlot);
    SumAppend(s.chans, FreshChan(c), Live);
  }

  lemma NewChatClosedInOrder(s: State, c: ChatId, s': State)
    requires ClosedInOrder(s) && !s.stop.Closing?
    requires s'.chans == s.chans + [FreshChan(c)] && s'.stop == s.stop && s'.calls == s.calls
    ensures ClosedInOrder(s')
  {
  }

  lemma NewCallInv(s: State, i: CallId, c: ChatId, t: Task)
    requires Inv(s) && !s.panicked && c in s.chats
    ensures Inv(s.(calls := s.calls[i := Selecting(c, s.chats[c], t)]))
  {
  }

  lemma LookupInv(s: State, i: CallId, c: ChatId, t: Task, s': State)
    requires Inv(s) && !s.panicked && DoLookup(s, i, c, t) == Some(s')
    ensures Inv(s')
  {
    if c in s.chats {
      NewCallInv(s, i, c, t);
    } else {
      var m := s.(chats := s.chats[c := |s.chans|], chans := s.chans + [FreshChan(c)], wg := s.wg + 1);
      NewChatRegistered(s, c, m);
      NewChatCounted(s, c, m);
      NewChatClosedInOrder(s, c, m);
      NewCallInv(m, i, c, t);
    }
  }

  lemma SendInv(s: State, i: CallId, c: ChatId, t: Task, s': State)
    requires Inv(s) && !s.panicked && DoSend(s, i, c, t) == Some(s')
    ensures Inv(s')
  {
    ReplaceChan(s, s.calls[i].chan, s'.chans[s.calls[i].chan]);
  }

  lemma ParkDropInv(s: State, i: CallId, s': State)
    requires Inv(s) && !s.panicked && (DoPark(s, i) == Some(s') || DoDrop(s, i) == Some(s'))
    ensures Inv(s')
  {
  }

  lemma WorkRegistered(s: State, k: ChanId, e: Event)
    requires Registered(s) && DoWork(s, k, e).Some?
    ensures Registered(DoWork(s, k, e).value)
  {
  }

  lemma WorkCounted(s: State, k: ChanId, e: Event)
    requires Counted(s) && DoWork(s, k, e).Some?
    ensures Counted(DoWork(s, k, e).value)
  {
    ReplaceChan(s, k, DoWork(s, k, e).value.chans[k]);
  }

  lemma WorkClosedInOrder(s: State, k: ChanId, e: Event)
    requires ClosedInOrder(s) && DoWork(s, k, e).Some?
    ensures ClosedInOrder(DoWork(s, k, e).value)
  {
  }

  lemma WorkInv(s: State, e: Event, s': State)
    requires Inv(s) && !s.panicked && IsWork(e) && DoWork(s, e.chan, e) == Some(s')
    ensures Inv(s') && s'.slots == s.slots
  {
    WorkRegistered(s, e.chan, e);
    WorkCounted(s, e.chan, e);
    WorkClosedInOrder(s, e.chan, e);
  }

  lemma CloseInv(s: State, c: ChatId, s': State)
    requires Inv(s) && !s.panicked && DoCloseChan(s, c) == Some(s')
    ensures Inv(s') && !s'.panicked
  {
    assert s.chans[s.chats[c]].owner == c;
    ReplaceChan(s, s.chats[c], s'.chans[s.chats[c]]);
  }

  lemma CloseDoneInv(s: State, s': State)
    requires Inv(s) && !s.panicked && DoCloseDone(s) == Some(s')
    ensures Inv(s')
  {
  }

  lemma StepInv(s: State, e: Event, s': State)
    requires Inv(s) && Step(s, e) == Some(s')
    ensures Inv(s') && s'.slots == s.slots
  {
    if IsWork(e) {
      WorkInv(s, e, s');
      return;
    }
    match e
    case Lookup(i, c, t) => LookupInv(s, i, c, t, s');
    case Send(i, c, t) => SendInv(s, i, c, t, s');
    case Park(i) => ParkDropInv(s, i, s');
    case Drop(i) => ParkDropInv(s, i, s');
    case CloseDone => CloseDoneInv(s, s');
    case CloseChan(c) => CloseInv(s, c, s');
    case _ =>
  }

  lemma {:induction false} ExecInv(slots: nat, evs: seq<Event>)
    requires Exec(Init(slots), evs).Some?
    ensures Inv(Exec(Init(slots), evs).value)
    ensures Exec(Init(slots), evs).value.slots == slots
  {
    if evs == [] {
    } else {
      var n := |evs| - 1;
      ExecInv(slots, evs[..n]);
      StepInv(Exec(Init(slots), evs[..n]).value, evs[n], Exec(Init(slots), evs).value);
    }
  }

  // ---- Main results: order, exclusion --------------------------------------------------------

  /** What the worker and the buffer of a channel hold, against the history of the channel. */
  ghost predicate InOrder(ch: Chan, accepted: seq<Task>, started: seq<Task>, finished: seq<Task>) {
    finished + InHand(ch) + ch.buffer == accepted && started == finished + RunningNow(ch)
  }

  lemma WorkerKeepsOrder(ch: Chan, e: Event, slots: nat, sem: nat, wg: nat,
                         acc: seq<Task>, st: seq<Task>, fin: seq<Task>)
    requires InOrder(ch, acc, st, fin) && WorkerMove(ch, e, slots, sem, wg).Some?
    ensures InOrder(WorkerMove(ch, e, slots, sem, wg).value.0, acc,
                    st + (if e.Start? then [e.task] else []), fin + if e.Finish? then [e.task] else [])
  {
    if e.Receive? {
      assert fin + [ch.buffer[0]] + ch.buffer[1..] == fin + ch.buffer;
    }
  }

  /** The queue state and the run so far agree on a chat. */
  ghost predicate FifoHolds(s: State, evs: seq<Event>, c: ChatId) {
    if c in s.chats then
      s.chats[c] < |s.chans|
      && InOrder(s.chans[s.chats[c]], Accepted(evs, c), Started(evs, s.chats[c]), Finished(evs, s.chats[c]))
    else Accepted(evs, c) == []
  }

  /**
   In every reachable state, each chat's finished closures, then the one its worker holds, then
   its buffer, are exactly the closures accepted for the chat, in the order of acceptance; and the
   worker has begun exactly the finished ones and the running one.
   */
  lemma {:induction false} FifoRefinement(slots: nat, evs: seq<Event>, c: ChatId)
    requires Exec(Init(slots), evs).Some?
    ensures FifoHolds(Exec(Init(slots), evs).value, evs, c)
  {
    if evs == [] {
    } else {
      var n := |evs| - 1;
      FifoRefinement(slots, evs[..n], c);
      FifoStep(slots, evs[..n], evs[n], c);
      assert evs == evs[..n] + [evs[n]];
    }
  }

  /** `s'` has the buffers and workers of `s`, and at most one new, empty channel, made for a new chat. */
  ghost predicate SameWork(s: State, s': State) {
    && |s.chans| <= |s'.chans|
    && (forall k :: 0 <= k < |s.chans| ==>
          s'.chans[k].buffer == s.chans[k].buffer && s'.chans[k].phase == s.chans[k].phase)
    && (s'.chats != s.chats ==>
          && |s'.chans| == |s.chans| + 1
          && s'.chans == s.chans + [FreshChan(s'.chans[|s'.chans| - 1].owner)]
          && s'.chans[|s'.chans| - 1].owner !in s.chats
          && s'.chats == s.chats[s'.chans[|s'.chans| - 1].owner := |s.chans|])
  }

  lemma OtherStep(s: State, e: Event, s': State)
    requires Step(s, e) == Some(s') && !IsWork(e) && !e.Send?
    ensures SameWork(s, s')
  {
  }

  lemma NothingSeen(evs: seq<Event>, e: Event, c: ChatId, k: ChanId)
    requires !IsWork(e) && !e.Send?
    ensures Accepted(evs + [e], c) == Accepted(evs, c)
    ensures Started(evs + [e], k) == Started(evs, k) && Finished(evs + [e], k) == Finished(evs, k)
  {
    assert (evs + [e])[..|evs|] == evs;
  }

  lemma FifoOther(m: State, s: State, evs: seq<Event>, e: Event, c: ChatId)
    requires SameWork(m, s) && !IsWork(e) && !e.Send? && FifoHolds(m, evs, c)
    requires Started(evs, |m.chans|) == [] && Finished(evs, |m.chans|) == []
    ensures FifoHolds(s, evs + [e], c)
  {
    if c in m.chats {
      var k := m.chats[c];
      NothingSeen(evs, e, c, k);
      assert c in s.chats && s.chats[c] == k;
    } else {
      NothingSeen(evs, e, c, |m.chans|);
      if c in s.chats { assert s.chats[c] == |m.chans| && s.chans[|m.chans|] == FreshChan(c); }
    }
  }

  lemma WorkSeen(evs: seq<Event>, e: Event, c: ChatId, k: ChanId)
    requires IsWork(e)
    ensures Accepted(evs + [e], c) == Accepted(evs, c)
    ensures Started(evs + [e], k) == Started(evs, k) + if e.Start? && e.chan == k then [e.task] else []
    ensures Finished(evs + [e], k) == Finished(evs, k) + if e.Finish? && e.chan == k then [e.task] else []
  {
    assert (evs + [e])[..|evs|] == evs;
  }

  lemma FifoWork(m: State, s: State, evs: seq<Event>, e: Event, c: ChatId)
    requires IsWork(e) && FifoHolds(m, evs, c) && e.chan < |m.chans| && s.chats == m.chats
    requires WorkerMove(m.chans[e.chan], e, m.slots, m.sem, m.wg).Some?
    requires s.chans == m.chans[e.chan := WorkerMove(m.chans[e.chan], e, m.slots, m.sem, m.wg).value.0]
    ensures FifoHolds(s, evs + [e], c)
  {
    var k := if c in m.chats then m.chats[c] else e.chan;
    WorkSeen(evs, e, c, k);
    if c in m.chats && k == e.chan {
      WorkerKeepsOrder(m.chans[k], e, m.slots, m.sem, m.wg, Accepted(evs, c), Started(evs, k), Finished(evs, k));
    }
  }

  lemma SendSeen(evs: seq<Event>, e: Event, c: ChatId, k: ChanId)
    requires e.Send?
    ensures Accepted(evs + [e], c) == Accepted(evs, c) + if e.chat == c then [e.task] else []
    ensures Started(evs + [e], k) == Started(evs, k) && Finished(evs + [e], k) == Finished(evs, k)
  {
    assert (evs + [e])[..|evs|] == evs;
  }

  lemma SendKeepsOrder(ch: Chan, t: Task, acc: seq<Task>, st: seq<Task>, fin: seq<Task>)
    requires InOrder(ch, acc, st, fin)
    ensures InOrder(ch.(buffer := ch.buffer + [t]), acc + [t], st, fin)
  {
    assert fin + InHand(ch) + (ch.buffer + [t]) == acc + [t];
  }

  lemma FifoSend(m: State, s: State, evs: seq<Event>, e: Event, c: ChatId)
    requires e.Send? && FifoHolds(m, evs, c) && e.chat in m.chats && m.chats[e.chat] < |m.chans| && s.chats == m.chats
    requires
      var k := m.chats[e.chat];
      s.chans == m.chans[k := m.chans[k].(buffer := m.chans[k].buffer + [e.task])]
    requires c in m.chats && c != e.chat ==> m.chats[c] != m.chats[e.chat]
    ensures FifoHolds(s, evs + [e], c)
  {
    var k := if c in m.chats then m.chats[c] else 0;
    SendSeen(evs, e, c, k);
    if c == e.chat {
      SendKeepsOrder(m.chans[k], e.task, Accepted(evs, c), Started(evs, k), Finished(evs, k));
    }
  }

  lemma FifoStep(slots: nat, evs: seq<Event>, e: Event, c: ChatId)
    requires Exec(Init(slots), evs).Some? && Step(Exec(Init(slots), evs).value, e).Some?
    requires FifoHolds(Exec(Init(slots), evs).value, evs, c)
    ensures FifoHolds(Step(Exec(Init(slots), evs).value, e).value, evs + [e], c)
  {
    var m := Exec(Init(slots), evs).value;
    var s := Step(m, e).value;
    ExecInv(slots, evs);
    if IsWork(e) {
      FifoWork(m, s, evs, e, c);
    } else if e.Send? {
      FifoSend(m, s, evs, e, c);
    } else {
      NoWorkYet(slots, evs, |m.chans|);
      OtherStep(m, e, s);
      FifoOther(m, s, evs, e, c);
    }
  }

  /** Nothing ran on a channel that does not exist yet. */
  lemma {:induction false} NoWorkYet(slots: nat, evs: seq<Event>, k: ChanId)
    requires Exec(Init(slots), evs).Some? && k >= |Exec(Init(slots), evs).value.chans|
    ensures Started(evs, k) == [] && Finished(evs, k) == []
  {
    if evs == [] {
    } else {
      NoWorkYet(slots, evs[..|evs| - 1], k);
    }
  }

  lemma OrderedPrefixes(ch: Chan, acc: seq<Task>, st: seq<Task>, fin: seq<Task>)
    requires InOrder(ch, acc, st, fin)
    ensures fin <= st <= acc && |st| <= |fin| + 1
  {
    assert acc == fin + (InHand(ch) + ch.buffer);
    if ch.phase.Running? { assert acc == st + ch.buffer; }
  }

  /** What a caller of Enqueue can rely on: a chat's closures start in the order they were accepted, none twice. */
  lemma StartsFollowAcceptance(slots: nat, evs: seq<Event>, c: ChatId)
    requires Exec(Init(slots), evs).Some? && c in Exec(Init(slots), evs).value.chats
    ensures
      var k := Exec(Init(slots), evs).value.chats[c];
      Finished(evs, k) <= Started(evs, k) <= Accepted(evs, c) && |Started(evs, k)| <= |Finished(evs, k)| + 1
  {
    FifoRefinement(slots, evs, c);
    var s := Exec(Init(slots), evs).value;
    var k := s.chats[c];
    OrderedPrefixes(s.chans[k], Accepted(evs, c), Started(evs, k), Finished(evs, k));
  }

  /** The semaphore counts the workers between acquire and release, which never exceed the slots. */
  lemma SlotsBoundRunning(slots: nat, evs: seq<Event>)
    requires Exec(Init(slots), evs).Some?
    ensures
      var s := Exec(Init(slots), evs).value;
      s.sem == |set k | 0 <= k < |s.chans| && HoldsSlot(s.chans[k]) == 1| && s.sem <= slots
  {
    ExecInv(slots, evs);
    SumIsCount(Exec(Init(slots), evs).value.chans);
  }

  lemma {:induction false} SumIsCount(chans: seq<Chan>)
    ensures Sum(chans, HoldsSlot) == |set k | 0 <= k < |chans| && HoldsSlot(chans[k]) == 1|
  {
    if chans == [] {
    } else {
      var n := |chans| - 1;
      SumIsCount(chans[..n]);
      var before := set k | 0 <= k < n && HoldsSlot(chans[..n][k]) == 1;
      var after := set k | 0 <= k < |chans| && HoldsSlot(chans[k]) == 1;
      assert after == before + if HoldsSlot(chans[n]) == 1 then {n} else {};
    }
  }

  /** At most one closure of a chat runs: a chat has one channel for its whole life, and one worker ranges over it. */
  lemma ChannelsStay(slots: nat, xs: seq<Event>, ys: seq<Event>, c: ChatId, d: ChatId)
    requires Exec(Init(slots), xs + ys).Some? && Exec(Init(slots), xs).Some?
    requires c in Exec(Init(slots), xs).value.chats
    ensures
      var s := Exec(Init(slots), xs).value;
      var s' := Exec(Init(slots), xs + ys).value;
      c in s'.chats && s'.chats[c] == s.chats[c] && (d in s'.chats && s'.chats[d] == s'.chats[c] ==> d == c)
  {
    ExecInv(slots, xs + ys);
    ExecConcat(Init(slots), xs, ys);
    ChatsGrow(Exec(Init(slots), xs).value, ys, c);
  }

  lemma {:induction false} ChatsGrow(s: State, evs: seq<Event>, c: ChatId)
    requires Exec(s, evs).Some? && c in s.chats
    ensures c in Exec(s, evs).value.chats && Exec(s, evs).value.chats[c] == s.chats[c]
  {
    if evs == [] {
    } else {
      ChatsGrow(s, evs[..|evs| - 1], c);
    }
  }
}
