/**
 What the whole shutdown leaves running.  The signal goroutine cancels the context, calls StopAll, and then
 stops the queue; meanwhile accepted closures dispatch, and the main goroutine, whose poll loop the cancelled
 context ends, can end the process at any time.
 */
module ShutdownSafety {
  import opened Prelude
  import opened Sessions
  import opened DrainedClosures
  import opened PendingCalls
  import Q = QueueProtocol
  import P = PoolProtocol
  import PR = PoolResults
  import PS = PoolStopSafety
  import PP = PoolPlacement
  import PSh = PoolShutdown

  /** Something runs when StopAll returns, or later. */
  ghost predicate LeavesRunning(s: State, rest: seq<Event>) {
    && AllCalm(s.names, rest) && Exec(s, rest).Some?
    && Exec(s, rest).value.pool.stopAll.Returned? && Exec(s, rest).value.pool.running != {}
  }

  /** A call inside Enqueue brings a closure that can still dispatch with the background context. */
  predicate WillEnqueue(s: State, c: Q.CallId) {
    c in s.queue.calls && s.queue.calls[c].task in s.names.background && s.queue.calls[c].task !in s.pool.threads
  }

  /**
   Every running container is safely in the pool; no dispatch with the background context may still start
   one; and no closure that was accepted, or that a call inside Enqueue brings, will dispatch with that context.
   */
  ghost predicate Safe(s: State) {
    && PS.AllSafe(s.pool)
    && (forall i :: i in s.pool.threads && InBackground(s, i) ==> !PS.MayStart(s.pool.threads[i].phase))
    && NoneWillDispatch(s)
    && (forall c :: !WillEnqueue(s, c))
  }

  predicate InBackground(s: State, i: P.ThreadId) {
    i in s.pool.threads && s.pool.threads[i].key.Main? && i in s.names.background
  }

  // ---- The condition is sufficient --------------------------------------------------------------------

  ghost predicate SafeSoFar(s: State) { Safe(s) && PS.EarlyRun(s.pool) && s.cancelled }

  lemma NoStart(s: State, e: P.Event, s': State)
    requires SafeSoFar(s) && Step(s, OnPool(e)) == Some(s')
    ensures !e.PodmanRun?
  {
    if P.IsThread(e) {
      P.ThreadFrame(s.pool, e.thread, e);
    }
  }

  lemma StillNoStarter(p: P.State, e: P.Event, p': P.State, i: P.ThreadId)
    requires P.Step(p, e) == Some(p') && i in p.threads && !PS.MayStart(p.threads[i].phase)
    ensures i in p'.threads && !PS.MayStart(p'.threads[i].phase)
  {
    P.ThreadStays(p, e, p', i);
  }

  lemma BackgroundThreads(s: State, e: P.Event, s': State, i: P.ThreadId)
    requires SafeSoFar(s) && Step(s, OnPool(e)) == Some(s') && InBackground(s', i)
    ensures !PS.MayStart(s'.pool.threads[i].phase)
  {
    PoolKeepsThread(s.pool, e, s'.pool, i);
    if i in s.pool.threads {
      P.ThreadStays(s.pool, e, s'.pool, i);
      StillNoStarter(s.pool, e, s'.pool, i);
    } else {
      P.ThreadBegins(s.pool, e, s'.pool, i);
      assert WillDispatch(s, s.queue.chats[e.chat], i);
    }
  }

  lemma SafePoolStep(s: State, e: P.Event, s': State)
    requires P.Inv(s.pool) && PR.HandlesKeyed(s.pool) && PP.JobsOk(s.pool)
    requires SafeSoFar(s) && Calm(s.names, OnPool(e)) && Step(s, OnPool(e)) == Some(s')
    ensures SafeSoFar(s')
  {
    NoStart(s, e, s');
    PS.AllStaySafe(s.pool, e, s'.pool);
    forall i | InBackground(s', i) ensures !PS.MayStart(s'.pool.threads[i].phase) {
      BackgroundThreads(s, e, s', i);
    }
    NobodyNew(s, e, s');
  }

  lemma NobodyNew(s: State, e: P.Event, s': State)
    requires Safe(s) && Step(s, OnPool(e)) == Some(s')
    ensures NoneWillDispatch(s') && forall c :: !WillEnqueue(s', c)
  {
    forall t | t in s.pool.threads ensures t in s'.pool.threads {
      P.ThreadStays(s.pool, e, s'.pool, t);
    }
    forall k: nat, t ensures !WillDispatch(s', k, t) {
      assert !WillDispatch(s, k, t);
    }
    forall c ensures !WillEnqueue(s', c) {
      assert !WillEnqueue(s, c);
    }
  }

  lemma SafeQueueStep(s: State, e: Q.Event, s': State)
    requires SafeSoFar(s) && Calm(s.names, OnQueue(e)) && Step(s, OnQueue(e)) == Some(s')
    ensures SafeSoFar(s')
  {
    SameElsewhere(s, s');
    forall c ensures !WillEnqueue(s', c) {
      assert !WillEnqueue(s, c);
    }
    forall k: nat, t ensures !WillDispatch(s', k, t) {
      assert !WillDispatch(s, k, t);
      NotEnqueued(s, e, s', k, t);
    }
  }

  lemma NotEnqueued(s: State, e: Q.Event, s': State, k: nat, t: Q.Task)
    requires SafeSoFar(s) && Calm(s.names, OnQueue(e)) && Step(s, OnQueue(e)) == Some(s') && !WillDispatch(s, k, t)
    ensures !WillDispatch(s', k, t)
  {
    if e.Send? {
      assert !WillEnqueue(s, e.call);
      SentIsPending(s.queue, e, s'.queue, k, t);
    } else if e.Lookup? {
      NewIsEmpty(s.queue, e, s'.queue, k, t);
    } else if Pending(s'.queue, k, t) {
      PendingOnlyShrinks(s.queue, e, s'.queue, k, t);
    }
  }

  lemma SentIsPending(q: Q.State, e: Q.Event, q': Q.State, k: nat, t: Q.Task)
    requires e.Send? && Q.Step(q, e) == Some(q')
    ensures Pending(q', k, t) ==> Pending(q, k, t) || t == e.task
    ensures e.call in q.calls && q.calls[e.call].task == e.task
  {
  }

  lemma NewIsEmpty(q: Q.State, e: Q.Event, q': Q.State, k: nat, t: Q.Task)
    requires e.Lookup? && Q.Step(q, e) == Some(q')
    ensures Pending(q', k, t) ==> Pending(q, k, t)
  {
  }

  lemma SafeStep(s: State, e: Event, s': State)
    requires P.Inv(s.pool) && PR.HandlesKeyed(s.pool) && PP.JobsOk(s.pool)
    requires SafeSoFar(s) && Calm(s.names, e) && Step(s, e) == Some(s')
    ensures SafeSoFar(s')
  {
    match e
    case OnPool(p) => SafePoolStep(s, p, s');
    case OnQueue(q) => SafeQueueStep(s, q, s');
    case Cancel =>
    case PollReturns => SamePending(s, s');
    case Exit => SamePending(s, s');
  }

  lemma SamePending(s: State, s': State)
    requires SafeSoFar(s) && s' == s.(main := s'.main)
    ensures SafeSoFar(s')
  {
    SameElsewhere(s, s');
    forall k: nat, t ensures WillDispatch(s', k, t) <==> WillDispatch(s, k, t) {}
    forall c ensures WillEnqueue(s', c) <==> WillEnqueue(s, c) {}
  }

  lemma SameElsewhere(s: State, s': State)
    requires SafeSoFar(s) && s'.pool == s.pool && s'.names == s.names && (s.cancelled ==> s'.cancelled)
    ensures PS.AllSafe(s'.pool) && PS.EarlyRun(s'.pool) && s'.cancelled
    ensures forall i :: InBackground(s', i) ==> !PS.MayStart(s'.pool.threads[i].phase)
  {
    forall i ensures InBackground(s', i) <==> InBackground(s, i) {}
  }

  lemma {:induction false} SafeForever(slots: nat, names: Names, evs: seq<Event>, s: State, rest: seq<Event>)
    requires Exec(Init(slots, names), evs) == Some(s) && SafeSoFar(s) && AllCalm(s.names, rest)
    requires Exec(s, rest).Some?
    ensures SafeSoFar(Exec(s, rest).value)
  {
    if rest == [] {
    } else {
      var n := |rest| - 1;
      var m := Exec(s, rest[..n]).value;
      SafeForever(slots, names, evs, s, rest[..n]);
      SameNames(s, rest[..n], m);
      Concat(Init(slots, names), evs, s, rest[..n]);
      Projections(slots, names, evs + rest[..n]);
      PS.ExecSound(PoolEvents(evs + rest[..n]));
      SafeStep(m, rest[n], Exec(s, rest).value);
    }
  }

  lemma SafeReturned(slots: nat, names: Names, evs: seq<Event>, s: State)
    requires Exec(Init(slots, names), evs) == Some(s) && SafeSoFar(s) && s.pool.stopAll.Returned?
    ensures s.pool.running == {}
  {
    Projections(slots, names, evs);
    PSh.EarlyAhead(PoolEvents(evs));
    PS.NothingEarlyRuns(s.pool);
  }

  lemma SafeLeavesNothing(slots: nat, names: Names, evs: seq<Event>, s: State, rest: seq<Event>)
    requires Exec(Init(slots, names), evs) == Some(s) && SafeSoFar(s)
    ensures !LeavesRunning(s, rest)
  {
    if AllCalm(s.names, rest) && Exec(s, rest).Some? && Exec(s, rest).value.pool.stopAll.Returned? {
      SafeForever(slots, names, evs, s, rest);
      Concat(Init(slots, names), evs, s, rest);
      SafeReturned(slots, names, evs + rest, Exec(s, rest).value);
    }
  }

  // ---- The condition is necessary ---------------------------------------------------------------------

  /** StopAll has not begun. */
  ghost predicate Reached(s: State) { Live(s) && s.pool.stopAll.NotCalled? }

  /** A run of StopAll, with workers and dispatches going on, after which something runs. */
  ghost predicate WorksAndLeaves(s: State, rest: seq<Event>, t: State) {
    Leads(s, rest, t) && t.pool.stopAll.Returned? && t.pool.running != {}
  }

  /** Moves of the pool between the begin of StopAll and its return. */
  lemma Embed(s: State, who: set<(P.ThreadId, P.Key)>, m: P.State, evs: seq<P.Event>, p: P.State)
    returns (rest: seq<Event>, t: State)
    requires Reached(s) && P.Step(s.pool, P.StopAllBegin) == Some(m) && PS.Leads(who, m, evs, p)
    requires forall w :: w in who ==> w.0 in s.names.background && w.1.Main?
    requires PS.Sweeping(p, true) && p.stopAll.todo == {}
    ensures Leads(s, rest, t) && t == s.(pool := PS.AfterReturn(p))
  {
    PS.WholeRun(who, s.pool, m, evs, p);
    MovesAllowed(s, who, PS.WholeStopAll(evs), PS.AfterReturn(p));
    t := s.(pool := PS.AfterReturn(p));
    PoolRuns(s, PS.WholeStopAll(evs), t.pool);
    rest := Lift(PS.WholeStopAll(evs));
  }

  /** A running container that is not safe in the pool. */
  lemma UnsafeEntry(s: State, id: P.ContainerId) returns (rest: seq<Event>, t: State)
    requires Reached(s) && id in s.pool.running && !PS.EntrySafe(s.pool, id)
    ensures WorksAndLeaves(s, rest, t)
  {
    var m := P.Step(s.pool, P.StopAllBegin).value;
    PS.SoundStep(s.pool, P.StopAllBegin, m);
    PS.SameSafety(s.pool, m, id);
    var evs, p := PS.LeaveUnsafe(m, id);
    rest, t := Embed(s, {}, m, evs, p);
  }

  /** A dispatch with the background context that may still start a container. */
  lemma LateDispatch(s: State, i: P.ThreadId) returns (rest: seq<Event>, t: State)
    requires Reached(s) && InBackground(s, i) && PS.MayStart(s.pool.threads[i].phase)
    ensures WorksAndLeaves(s, rest, t)
  {
    var m := P.Step(s.pool, P.StopAllBegin).value;
    PS.SoundStep(s.pool, P.StopAllBegin, m);
    var evs, p := PS.StartLate(m, i);
    rest, t := Embed(s, {(i, m.threads[i].key)}, m, evs, p);
  }

  /** StopAll with every dispatch coming to its end before the ranges. */
  lemma FinishAndStop(s: P.State, m: P.State) returns (evs: seq<P.Event>, p: P.State)
    requires PS.Sound(s) && s.stopAll.NotCalled? && P.Step(s, P.StopAllBegin) == Some(m)
    ensures PS.Leads({}, m, evs, p) && PS.Sweeping(p, true) && p.stopAll.todo == {} && PS.Sound(p)
    ensures p.pool == map[] && PS.InProgress(p) == {} && p.threads.Keys == s.threads.Keys
  {
    PS.SoundStep(s, P.StopAllBegin, m);
    var finish, done := PS.FinishAll(m);
    var sweep;
    sweep, p := PS.SweepAll(done);
    PS.LeadsBoth({}, m, finish, done, sweep, p);
    evs := finish + sweep;
  }

  lemma StopEverything(s: State) returns (rest: seq<Event>, t: State)
    requires Reached(s)
    ensures Leads(s, rest, t) && t == s.(pool := t.pool) && t.pool.stopAll.Returned? && t.pool.pool == map[]
    ensures PS.InProgress(t.pool) == {} && PS.LockOwned(t.pool) && t.pool.threads.Keys == s.pool.threads.Keys
    ensures Named(t)
  {
    var m := P.Step(s.pool, P.StopAllBegin).value;
    var evs, p := FinishAndStop(s.pool, m);
    rest, t := Embed(s, {}, m, evs, p);
    assert PS.InProgress(t.pool) == PS.InProgress(p);
    OwnedStays(p, t.pool);
    NamedForever(s, rest, t);
  }

  /** A closure that will dispatch: StopAll stops everything, and then the queue comes to the closure. */
  lemma LateClosure(s: State, k: nat, c: Q.Task) returns (rest: seq<Event>, t: State)
    requires Reached(s) && WillDispatch(s, k, c)
    ensures WorksAndLeaves(s, rest, t)
  {
    rest, t := StopEverything(s);
    if t.pool.running == {} {
      NoneInProgress(t.pool, t.pool);
      var first := rest;
      var more := DrainStarts(t, k, c);
      var last := Exec(t, more).value;
      LeadsBoth(s, first, t, more, last);
      StaysReturned(t, more, last);
      rest, t := first + more, last;
    }
  }

  lemma NoneInProgress(p: P.State, p': P.State)
    requires PS.InProgress(p) == {} && p'.threads == p.threads
    ensures forall i :: i in p'.threads && p'.threads[i].key.Main? ==> P.Over(p'.threads[i].phase)
  {
    forall i | i in p'.threads && p'.threads[i].key.Main? ensures P.Over(p'.threads[i].phase) {
      assert i !in PS.InProgress(p);
    }
  }

  lemma OwnedStays(p: P.State, p': P.State)
    requires PS.LockOwned(p) && p' == p.(stopAll := p'.stopAll)
    ensures PS.LockOwned(p')
  {
  }

  lemma {:induction false} StaysReturned(s: State, rest: seq<Event>, t: State)
    requires Exec(s, rest) == Some(t) && s.pool.stopAll.Returned?
    ensures t.pool.stopAll.Returned?
  {
    if rest == [] {
    } else {
      var n := |rest| - 1;
      var m := Exec(s, rest[..n]).value;
      StaysReturned(s, rest[..n], m);
      ReturnedStep(m, rest[n], t);
    }
  }

  lemma ReturnedStep(s: State, e: Event, t: State)
    requires Step(s, e) == Some(t) && s.pool.stopAll.Returned?
    ensures t.pool.stopAll.Returned?
  {
    StepProjects(s, e, t);
    if e.OnPool? && P.IsThread(e.p) {
      P.ThreadFrame(s.pool, e.p.thread, e.p);
    }
  }

  /** The state at the end of such a run, as far as the rest of the process is concerned. */
  ghost predicate Left(s: State, rest: seq<Event>, t: State) {
    && CalmRun(s, rest, t) && t.pool.stopAll.Returned? && t.pool.running != {}
    && !t.queue.panicked && t.queue.stop == s.queue.stop && t.main == s.main && t.cancelled == s.cancelled
  }

  lemma WorkLeft(s: State, rest: seq<Event>, t: State)
    requires WorksAndLeaves(s, rest, t) && !s.queue.panicked
    ensures Left(s, rest, t)
  {
    OnlyWorked(s, rest, t);
    WorkIsCalm(s, rest, t);
  }

  /** A call inside Enqueue sends its closure, which then dispatches. */
  lemma LateCall(s: State, c: Q.CallId) returns (rest: seq<Event>, t: State)
    requires Reached(s) && s.queue.stop.NotStopped? && NoneWillDispatch(s) && WillEnqueue(s, c)
    ensures Left(s, rest, t)
  {
    var call := s.queue.calls[c];
    var first, m := SendCall(s, c);
    assert !BackgroundBegan(m, call.task);
    assert WillDispatch(m, call.chan, call.task);
    rest, t := LateClosure(m, call.chan, call.task);
    WorkLeft(m, rest, t);
    CalmBoth(s, first, m, rest, t);
    rest := first + rest;
  }

  lemma UnsafeLeaves(s: State) returns (rest: seq<Event>, t: State)
    requires Reached(s) && s.queue.stop.NotStopped? && !Safe(s)
    ensures Left(s, rest, t)
  {
    if c :| WillEnqueue(s, c) && NoneWillDispatch(s) {
      rest, t := LateCall(s, c);
    } else {
      if id :| id in s.pool.running && !PS.EntrySafe(s.pool, id) {
        rest, t := UnsafeEntry(s, id);
      } else if i :| InBackground(s, i) && PS.MayStart(s.pool.threads[i].phase) {
        rest, t := LateDispatch(s, i);
      } else {
        var k: nat, x :| WillDispatch(s, k, x);
        rest, t := LateClosure(s, k, x);
      }
      WorkLeft(s, rest, t);
    }
  }

  // ---- Stop is called after StopAll ------------------------------------------------------------------------

  ghost predicate InTurn(s: State) { s.queue.stop.NotStopped? || s.pool.stopAll.Returned? }

  lemma InTurnStep(s: State, e: Event, s': State)
    requires InTurn(s) && Step(s, e) == Some(s')
    ensures InTurn(s')
  {
    StepProjects(s, e, s');
    if s.pool.stopAll.Returned? {
      ReturnedStep(s, e, s');
    }
  }

  lemma {:induction false} ExecInTurn(slots: nat, names: Names, evs: seq<Event>)
    requires Exec(Init(slots, names), evs).Some?
    ensures InTurn(Exec(Init(slots, names), evs).value)
  {
    if evs == [] {
    } else {
      var n := |evs| - 1;
      ExecInTurn(slots, names, evs[..n]);
      InTurnStep(Exec(Init(slots, names), evs[..n]).value, evs[n], Exec(Init(slots, names), evs).value);
    }
  }

  /**
   The shutdown, from any state in which the context is cancelled and StopAll has not begun, with dispatches,
   workers and the calls inside Enqueue going on, the poll handler enqueueing more, and no further background
   closure enqueued: it is sure that nothing runs when StopAll returns and later if and only if the state is
   safe.
   */
  lemma ShutdownLeavesNothingExactly(slots: nat, names: Names, evs: seq<Event>, s: State)
    requires slots >= 1 && Exec(Init(slots, names), evs) == Some(s) && !s.queue.panicked && !s.main.Exited?
    requires s.cancelled && s.pool.stopAll.NotCalled?
    ensures (forall rest :: !LeavesRunning(s, rest)) <==> Safe(s)
  {
    if Safe(s) {
      forall rest ensures !LeavesRunning(s, rest) {
        SafeLeavesNothing(slots, names, evs, s, rest);
      }
    } else {
      IsLive(slots, names, evs, s);
      ExecInTurn(slots, names, evs);
      var rest, t := UnsafeLeaves(s);
      assert LeavesRunning(s, rest);
    }
  }
}
