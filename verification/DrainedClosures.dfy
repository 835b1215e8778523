/**
 main.go calls StopAll before it drains the queue.  A closure that waits then, of the scheduler or of a
 sub-agent's message, can start a container afterwards, which nobody stops, even when StopAll has left nothing.
 */
module DrainedClosures {
  import opened Prelude
  import opened Sessions
  import Q = QueueProtocol
  import QS = QueueShutdown
  import P = PoolProtocol
  import PS = PoolStopSafety
  import R = PoolRuns

  /** An accepted closure that its worker has not finished. */
  predicate Pending(q: Q.State, k: nat, t: Q.Task) {
    k < |q.chans| && t in Q.InHand(q.chans[k]) + q.chans[k].buffer
  }

  /** It can still dispatch, with a context that StopAll's caller has not cancelled. */
  predicate WillDispatch(s: State, k: nat, t: Q.Task) {
    Pending(s.queue, k, t) && t in s.names.background && t !in s.pool.threads
  }

  /** StopAll has returned, the pools are empty, nothing runs and no dispatch is in progress. */
  ghost predicate CleanlyStopped(p: P.State) {
    && p.stopAll.Returned? && p.pool == map[] && p.running == {}
    && (forall i :: i in p.threads && p.threads[i].key.Main? ==> P.Over(p.threads[i].phase))
  }

  lemma PendingOnlyShrinks(q: Q.State, e: Q.Event, q': Q.State, k: nat, t: Q.Task)
    requires Q.Step(q, e) == Some(q') && !e.Lookup? && !e.Send? && Pending(q', k, t)
    ensures Pending(q, k, t)
  {
    if Q.IsWork(e) {
    } else {
      Q.OtherStep(q, e, q');
    }
  }

  // ---- Runs in which the workers and the pool go on -----------------------------------------------------

  /** Spawning goroutines and closures have different numbers. */
  ghost predicate Named(s: State) {
    && (forall i :: i in s.pool.threads && s.pool.threads[i].key.Sub? ==> i in s.names.spawners)
    && (forall k: nat, t :: Pending(s.queue, k, t) ==> t !in s.names.spawners)
    && (forall c :: c in s.queue.calls ==> s.queue.calls[c].task !in s.names.spawners)
  }

  ghost predicate Ready(s: State) {
    && Q.Inv(s.queue) && !s.queue.panicked && s.queue.slots >= 1 && !s.main.Exited?
    && PS.LockOwned(s.pool) && Named(s) && CleanlyStopped(s.pool)
  }

  /** A move of the pool, with podman stop working, or of a worker. */
  predicate Works(e: Event) {
    (e.OnPool? && (e.p.PodmanStop? ==> e.p.ok)) || (e.OnQueue? && Q.IsWork(e.q))
  }

  ghost predicate AllWork(evs: seq<Event>) {
    forall n :: 0 <= n < |evs| ==> Works(evs[n])
  }

  /** A run of such moves from one state to another. */
  ghost predicate Leads(s: State, evs: seq<Event>, t: State) {
    AllWork(evs) && Exec(s, evs) == Some(t)
  }

  ghost predicate StartsContainer(s: State, rest: seq<Event>) {
    AllWork(rest) && Exec(s, rest).Some? && Exec(s, rest).value.pool.running != {}
  }

  /** Such moves leave calls of Enqueue, Stop, the context and the main goroutine alone. */
  lemma {:induction false} OnlyWorked(s: State, evs: seq<Event>, t: State)
    requires Leads(s, evs, t)
    ensures t.queue.calls == s.queue.calls && t.queue.stop == s.queue.stop && t.queue.panicked == s.queue.panicked
    ensures t.names == s.names && t.cancelled == s.cancelled && t.main == s.main
  {
    if evs == [] {
    } else {
      var n := |evs| - 1;
      OnlyWorked(s, evs[..n], Exec(s, evs[..n]).value);
    }
  }

  lemma ExecStep(s: State, evs: seq<Event>, e: Event)
    ensures Exec(s, evs + [e]) == match Exec(s, evs) case None => None case Some(m) => Step(m, e)
  {
    assert (evs + [e])[..|evs|] == evs;
  }

  lemma {:induction false} Concat(s: State, xs: seq<Event>, m: State, ys: seq<Event>)
    requires Exec(s, xs) == Some(m)
    ensures Exec(s, xs + ys) == Exec(m, ys)
  {
    if ys == [] {
      assert xs + ys == xs;
    } else {
      var n := |ys| - 1;
      Concat(s, xs, m, ys[..n]);
      LastOfConcat(xs, ys);
    }
  }

  lemma LastOfConcat(xs: seq<Event>, ys: seq<Event>)
    requires ys != []
    ensures (xs + ys)[..|xs + ys| - 1] == xs + ys[..|ys| - 1] && (xs + ys)[|xs + ys| - 1] == ys[|ys| - 1]
  {
  }

  lemma LeadsBoth(s: State, xs: seq<Event>, m: State, ys: seq<Event>, t: State)
    requires Leads(s, xs, m) && Leads(m, ys, t)
    ensures Leads(s, xs + ys, t)
  {
    Concat(s, xs, m, ys);
  }

  lemma LeadsFirst(s: State, e: Event, m: State, rest: seq<Event>, t: State)
    requires Step(s, e) == Some(m) && Works(e) && Leads(m, rest, t)
    ensures Leads(s, [e] + rest, t)
  {
    ExecStep(s, [], e);
    assert [] + [e] == [e];
    LeadsBoth(s, [e], m, rest, t);
  }

  /** A move of the pool that the composition allows while the queue stands still. */
  predicate AllowedEvent(s: State, e: P.Event) {
    && !e.Spawn? && (e.Call? ==> RunsTask(s.queue, e.chat, e.thread))
    && (e.StopAllBegin? ==> s.cancelled) && (e.PodmanStop? ==> e.ok)
    && (e.PodmanRun? ==> e.key.Main? && e.thread in s.names.background)
  }

  ghost predicate Allowed(s: State, evs: seq<P.Event>) {
    forall n :: 0 <= n < |evs| ==> AllowedEvent(s, evs[n])
  }

  function Lift(evs: seq<P.Event>): seq<Event> {
    seq(|evs|, n requires 0 <= n < |evs| => OnPool(evs[n]))
  }

  lemma PoolMoves(s: State, m: P.State, e: P.Event, p: P.State)
    requires !s.queue.panicked && !s.main.Exited? && AllowedEvent(s, e) && P.Step(m, e) == Some(p)
    ensures Step(s.(pool := m), OnPool(e)) == Some(s.(pool := p))
  {
  }

  lemma {:induction false} PoolRuns(s: State, evs: seq<P.Event>, p: P.State)
    requires !s.queue.panicked && !s.main.Exited? && Allowed(s, evs) && P.Exec(s.pool, evs) == Some(p)
    ensures Leads(s, Lift(evs), s.(pool := p))
  {
    if evs == [] {
    } else {
      var n := |evs| - 1;
      var m := P.Exec(s.pool, evs[..n]).value;
      PoolRuns(s, evs[..n], m);
      PoolMoves(s, m, evs[n], p);
      OneMore(s, Lift(evs[..n]), s.(pool := m), OnPool(evs[n]), s.(pool := p));
      assert Lift(evs) == Lift(evs[..n]) + [OnPool(evs[n])];
    }
  }

  lemma OneMore(s: State, evs: seq<Event>, m: State, e: Event, t: State)
    requires Leads(s, evs, m) && Works(e) && Step(m, e) == Some(t)
    ensures Leads(s, evs + [e], t)
  {
    ExecStep(s, evs, e);
  }

  /** The closure's dispatch starts a container. */
  lemma DispatchStarts(s: State, c: Q.ChatId, t: Q.Task) returns (rest: seq<Event>)
    requires Ready(s) && RunsTask(s.queue, c, t) && t in s.names.background && t !in s.pool.threads
    ensures StartsContainer(s, rest)
  {
    var id := PS.UnusedFrom(s.pool.keyOf.Keys, 0);
    var evs := R.MissEvents(t, c) + R.RunEvents(t, P.Main(c), id);
    R.MissThenRun(s.pool, t, c, id);
    var p := P.Exec(s.pool, evs).value;
    PoolRuns(s, evs, p);
    rest := Lift(evs);
    assert id in p.running;
  }

  /** A dispatch whose context is cancelled, or whose podman run fails, returns. */
  lemma DispatchFails(s: State, c: Q.ChatId, t: Q.Task) returns (rest: seq<Event>, m: State)
    requires Ready(s) && RunsTask(s.queue, c, t) && t !in s.pool.threads
    ensures Leads(s, rest, m) && Ready(m) && m == s.(pool := m.pool)
    ensures m.pool.threads == s.pool.threads[t := P.Thread(P.Main(c), P.Failed)]
  {
    var evs := R.MissEvents(t, c) + R.FailEvents(t);
    R.MissThenFail(s.pool, t, c);
    m := s.(pool := R.WithThread(s.pool, t, P.Main(c), P.Failed));
    PoolRuns(s, evs, m.pool);
    rest := Lift(evs);
    FailedIsReady(s, c, t, m);
  }

  lemma FailedIsReady(s: State, c: Q.ChatId, t: Q.Task, m: State)
    requires Ready(s) && m == s.(pool := R.WithThread(s.pool, t, P.Main(c), P.Failed))
    ensures Ready(m)
  {
  }

  /** A queue event that keeps the closure waiting, and takes the queue further. */
  ghost predicate Advances(s: State, e: Q.Event, m: State) {
    Q.IsWork(e) && Step(s, OnQueue(e)) == Some(m) && m == s.(queue := m.queue)
  }

  lemma AdvanceReady(s: State, e: Q.Event, m: State)
    requires Ready(s) && Advances(s, e, m)
    ensures Ready(m) && QS.Measure(m.queue) < QS.Measure(s.queue)
  {
    Q.StepInv(s.queue, e, m.queue);
    QS.WorkShrinks(s.queue, e, m.queue);
    forall k: nat, t | Pending(m.queue, k, t) ensures t !in s.names.spawners {
      PendingOnlyShrinks(s.queue, e, m.queue, k, t);
    }
  }

  lemma StaysPending(q: Q.State, e: Q.Event, q': Q.State, k: nat, t: Q.Task)
    requires Q.IsWork(e) && Q.Step(q, e) == Some(q') && Pending(q, k, t) && !(e.Finish? && e.task == t)
    requires Q.Inv(q) && !q.panicked
    ensures Pending(q', k, t)
  {
  }

  /** The next move of the queue towards the closure: of its own worker, or of one that holds a slot. */
  lemma NextMove(q: Q.State, k: nat, t: Q.Task) returns (e: Q.Event)
    requires Q.Inv(q) && !q.panicked && q.slots >= 1 && Pending(q, k, t)
    ensures Q.IsWork(e) && Q.Step(q, e).Some?
    ensures e.Finish? ==> e.chan < |q.chans| && q.chans[e.chan].phase == Q.Running(e.task)
  {
    var ch := q.chans[k];
    match ch.phase
    case Ranging => e := Q.Receive(k);
    case Running(g) => e := Q.Finish(k, g);
    case Releasing =>
      SumUpdate(q.chans, k, ch, Q.HoldsSlot);
      e := Q.Release(k);
    case Acquiring(g) =>
      if q.sem < q.slots {
        e := Q.Start(k, g);
      } else {
        var j := SumPositive(q.chans, Q.HoldsSlot);
        e := if q.chans[j].phase.Running? then Q.Finish(j, q.chans[j].phase.task) else Q.Release(j);
      }
    case Exited =>
  }

  /** A waiting closure gets to its dispatch: the queue runs what is before it, and nothing else stands in its way. */
  lemma {:induction false} DrainStarts(s: State, k: nat, t: Q.Task) returns (rest: seq<Event>)
    requires Ready(s) && WillDispatch(s, k, t)
    ensures StartsContainer(s, rest)
    decreases QS.Measure(s.queue)
  {
    var e := NextMove(s.queue, k, t);
    if e.Finish? && e.task in s.names.background && e.task !in s.pool.threads {
      RunsOnItsChat(s.queue, e.chan, e.task);
      rest := DispatchStarts(s, s.queue.chans[e.chan].owner, e.task);
    } else {
      var first, m := [], s;
      if e.Finish? && e.task !in s.pool.threads {
        RunsOnItsChat(s.queue, e.chan, e.task);
        first, m := DispatchFails(s, s.queue.chans[e.chan].owner, e.task);
      }
      if e.Finish? { ReturnedClosure(m, e.chan, e.task); }
      var next := m.(queue := Q.Step(s.queue, e).value);
      StaysPending(s.queue, e, next.queue, k, t);
      AdvanceReady(m, e, next);
      rest := DrainStarts(next, k, t);
      var last := Exec(next, rest).value;
      LeadsFirst(m, OnQueue(e), next, rest, last);
      LeadsBoth(s, first, m, [OnQueue(e)] + rest, last);
      rest := first + ([OnQueue(e)] + rest);
    }
  }

  lemma RunsOnItsChat(q: Q.State, k: nat, t: Q.Task)
    requires Q.Inv(q) && k < |q.chans| && q.chans[k].phase == Q.Running(t)
    ensures RunsTask(q, q.chans[k].owner, t)
  {
  }

  lemma ReturnedClosure(s: State, k: nat, t: Q.Task)
    requires Ready(s) && k < |s.queue.chans| && s.queue.chans[k].phase == Q.Running(t) && t in s.pool.threads
    ensures DispatchReturned(s.pool, t)
  {
    assert Pending(s.queue, k, t);
  }

  // ---- Reachable states are well named -----------------------------------------------------------------

  lemma NamedQueue(s: State, e: Q.Event, s': State)
    requires Named(s) && Step(s, OnQueue(e)) == Some(s')
    ensures Named(s')
  {
    forall k: nat, t | Pending(s'.queue, k, t) ensures t !in s'.names.spawners {
      if e.Send? {
        if !Pending(s.queue, k, t) { assert t == e.task; }
      } else if e.Lookup? {
        assert k < |s.queue.chans| ==> Pending(s.queue, k, t);
      } else {
        PendingOnlyShrinks(s.queue, e, s'.queue, k, t);
      }
    }
    CallsNamed(s, e, s');
  }

  lemma CallsNamed(s: State, e: Q.Event, s': State)
    requires Named(s) && Step(s, OnQueue(e)) == Some(s')
    ensures forall c :: c in s'.queue.calls ==> s'.queue.calls[c].task !in s'.names.spawners
  {
  }

  lemma NamedPool(s: State, e: P.Event, s': State)
    requires Named(s) && Step(s, OnPool(e)) == Some(s')
    ensures Named(s')
  {
    forall i | i in s'.pool.threads && s'.pool.threads[i].key.Sub? ensures i in s'.names.spawners {
      if i in s.pool.threads {
        P.ThreadStays(s.pool, e, s'.pool, i);
      } else {
        P.ThreadBegins(s.pool, e, s'.pool, i);
      }
    }
  }

  lemma {:induction false} ExecNamed(slots: nat, names: Names, evs: seq<Event>)
    requires Exec(Init(slots, names), evs).Some?
    ensures Named(Exec(Init(slots, names), evs).value) && Exec(Init(slots, names), evs).value.names == names
  {
    if evs == [] {
    } else {
      var n := |evs| - 1;
      ExecNamed(slots, names, evs[..n]);
      var s, s' := Exec(Init(slots, names), evs[..n]).value, Exec(Init(slots, names), evs).value;
      match evs[n]
      case OnQueue(q) => NamedQueue(s, q, s');
      case OnPool(p) => NamedPool(s, p, s');
      case _ =>
    }
  }

  lemma ReadyToDrain(slots: nat, names: Names, evs: seq<Event>, s: State)
    requires slots >= 1 && Exec(Init(slots, names), evs) == Some(s) && !s.queue.panicked && !s.main.Exited?
    requires CleanlyStopped(s.pool)
    ensures Ready(s)
  {
    Projections(slots, names, evs);
    Q.ExecInv(slots, QueueEvents(evs));
    PS.ExecSound(PoolEvents(evs));
    ExecNamed(slots, names, evs);
  }

  /** A closure of the scheduler waits, and a signal arrives. */
  function WaitingRun(chat: Q.ChatId): seq<Event> {
    [OnQueue(Q.Lookup(0, chat, 7)), OnQueue(Q.Send(0, chat, 7)), Cancel]
  }

  const NAMES: Names := Names({7}, {})

  function WaitingState(chat: Q.ChatId): State {
    State(Q.State(1, 0, map[chat := 0], [Q.Chan(chat, [7], false, Q.Ranging)], map[], 1, Q.NotStopped, false),
          P.INIT, NAMES, true, Polling)
  }

  lemma WaitingRuns(chat: Q.ChatId)
    ensures Exec(Init(1, NAMES), WaitingRun(chat)) == Some(WaitingState(chat))
  {
    var s, waiting := Init(1, NAMES), WaitingState(chat).(cancelled := false);
    var a, b := OnQueue(Q.Lookup(0, chat, 7)), OnQueue(Q.Send(0, chat, 7));
    var calls := map[0 := Q.Selecting(chat, 0, 7)];
    var m := s.(queue := Q.State(1, 0, map[chat := 0], [Q.FreshChan(chat)], calls, 1, Q.NotStopped, false));
    assert Step(s, a) == Some(m) by { assert [] + [Q.FreshChan(chat)] == [Q.FreshChan(chat)]; }
    assert Step(m, b) == Some(waiting) by {
      assert m.queue.calls - {0} == map[];
      assert [] + [7] == [7] && m.queue.chans[0 := waiting.queue.chans[0]] == waiting.queue.chans;
    }
    ExecStep(s, [], a);
    ExecStep(s, [a], b);
    ExecStep(s, [a, b], Cancel);
    assert [] + [a] == [a] && [a] + [b] == [a, b] && [a, b] + [Cancel] == WaitingRun(chat);
  }

  function StoppedState(chat: Q.ChatId): State {
    WaitingState(chat).(pool := P.INIT.(stopAll := P.Returned({})))
  }

  lemma StoppedRuns(chat: Q.ChatId)
    ensures Exec(Init(1, NAMES), WaitingRun(chat) + Lift(R.EmptyStopAll())) == Some(StoppedState(chat))
  {
    WaitingRuns(chat);
    R.EmptyStopAllRuns(P.INIT);
    PoolRuns(WaitingState(chat), R.EmptyStopAll(), StoppedState(chat).pool);
    Concat(Init(1, NAMES), WaitingRun(chat), WaitingState(chat), Lift(R.EmptyStopAll()));
  }

  /** One message of the scheduler waits in the queue, StopAll finds nothing, and a container is started afterwards. */
  lemma WaitingClosureStarts(chat: Q.ChatId) returns (rest: seq<Event>)
    ensures var evs := WaitingRun(chat) + Lift(R.EmptyStopAll());
      && Exec(Init(1, NAMES), evs).Some? && CleanlyStopped(Exec(Init(1, NAMES), evs).value.pool)
      && StartsContainer(Exec(Init(1, NAMES), evs).value, rest)
  {
    StoppedRuns(chat);
    assert WillDispatch(StoppedState(chat), 0, 7);
    ReadyToDrain(1, NAMES, WaitingRun(chat) + Lift(R.EmptyStopAll()), StoppedState(chat));
    rest := DrainStarts(StoppedState(chat), 0, 7);
  }
}
