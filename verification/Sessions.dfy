/**
 The queue and the container pool together, with the goroutine that waits for a signal and the main
 goroutine.  Every closure that main.go enqueues for a chat calls Dispatch once, for that chat; the task
 number of the closure names the dispatching thread.
 */
module Sessions {
  import opened Prelude
  import Q = QueueProtocol
  import QO = QueueOffers
  import P = PoolProtocol
  import PR = PoolResults

  /**
   The closures of the scheduler and of sub-agents' messages dispatch with the background context; those of
   the poll handler use the context that main.go cancels before it calls StopAll.  Goroutines that spawn
   sub-agents, with that context too, have numbers of their own.
   */
  datatype Names = Names(background: set<Q.Task>, spawners: set<P.ThreadId>)

  /** The main goroutine: in poller.Poll, which is its last statement, after it, or gone with the process. */
  datatype Main = Polling | PollReturned | Exited

  datatype State = State(queue: Q.State, pool: P.State, names: Names, cancelled: bool, main: Main)

  datatype Event =
    | OnQueue(q: Q.Event)
    | OnPool(p: P.Event)
    | Cancel           // the signal goroutine cancels the context, and goes on to StopAll and Stop
    | PollReturns
    | Exit             // main returns: the process ends, and the containers do not

  function Init(slots: nat, names: Names): State { State(Q.Init(slots), P.INIT, names, false, Polling) }

  /** The worker of the chat is inside closure `t`. */
  predicate RunsTask(q: Q.State, c: Q.ChatId, t: Q.Task) {
    c in q.chats && q.chats[c] < |q.chans| && q.chans[q.chats[c]].phase == Q.Running(t)
  }

  predicate DispatchReturned(p: P.State, t: Q.Task) { t in p.threads && P.Over(p.threads[t].phase) }

  predicate FromPoller(s: State, c: Q.CallId) {
    c in s.queue.calls && s.queue.calls[c].task !in s.names.background
  }

  /** The poll handler is inside Enqueue. */
  predicate PollerBusy(s: State) { exists c :: c in s.queue.calls && FromPoller(s, c) }

  /**
   A closure returns after its dispatch, closures and spawning goroutines have different numbers, the poll
   loop enqueues one message at a time, and Stop is called after StopAll.
   */
  predicate MayHappen(s: State, q: Q.Event) {
    && (q.Finish? ==> DispatchReturned(s.pool, q.task))
    && (q.Lookup? ==> q.task !in s.names.spawners)
    && (q.Lookup? && q.task !in s.names.background ==> s.main.Polling? && !PollerBusy(s))
    && (q.CloseDone? ==> s.pool.stopAll.Returned?)
  }

  /** Dispatch is called by the running closure of its chat; a cancelled context starts no container. */
  predicate MayMove(s: State, p: P.Event) {
    && (p.Call? ==> RunsTask(s.queue, p.chat, p.thread))
    && (p.Spawn? ==> p.thread in s.names.spawners)
    && (p.PodmanRun? && s.cancelled ==> p.key.Main? && p.thread in s.names.background)
    && (p.StopAllBegin? ==> s.cancelled)
  }

  /** Without the process, a container can only end by itself. */
  predicate Alive(s: State, e: Event) { !s.queue.panicked && (s.main.Exited? ==> e.OnPool? && e.p.Die?) }

  function Step(s: State, e: Event): Option<State> {
    if !Alive(s, e) then None
    else match e
      case OnQueue(q) =>
        if !MayHappen(s, q) then None
        else (match Q.Step(s.queue, q)
              case None => None
              case Some(m) => Some(s.(queue := m)))
      case OnPool(p) =>
        if !MayMove(s, p) then None
        else (match P.Step(s.pool, p)
              case None => None
              case Some(m) => Some(s.(pool := m)))
      case Cancel => if s.cancelled then None else Some(s.(cancelled := true))
      case PollReturns =>
        if s.cancelled && s.main.Polling? && !PollerBusy(s) then Some(s.(main := PollReturned)) else None
      case Exit => if s.main.PollReturned? then Some(s.(main := Exited)) else None
  }

  function Exec(s: State, evs: seq<Event>): Option<State> {
    if evs == [] then Some(s)
    else match Exec(s, evs[..|evs| - 1])
         case None => None
         case Some(m) => Step(m, evs[|evs| - 1])
  }

  function QueueEvents(evs: seq<Event>): seq<Q.Event> {
    if evs == [] then []
    else QueueEvents(evs[..|evs| - 1]) + if evs[|evs| - 1].OnQueue? then [evs[|evs| - 1].q] else []
  }

  function PoolEvents(evs: seq<Event>): seq<P.Event> {
    if evs == [] then []
    else PoolEvents(evs[..|evs| - 1]) + if evs[|evs| - 1].OnPool? then [evs[|evs| - 1].p] else []
  }

  /** A run of the whole is a run of the queue and a run of the pool, so their results carry over. */
  lemma {:induction false} Projections(slots: nat, names: Names, evs: seq<Event>)
    requires Exec(Init(slots, names), evs).Some?
    ensures Q.Exec(Q.Init(slots), QueueEvents(evs)) == Some(Exec(Init(slots, names), evs).value.queue)
    ensures P.Exec(P.INIT, PoolEvents(evs)) == Some(Exec(Init(slots, names), evs).value.pool)
  {
    if evs == [] {
    } else {
      var n := |evs| - 1;
      Projections(slots, names, evs[..n]);
      var s, e := Exec(Init(slots, names), evs[..n]).value, evs[n];
      if e.OnQueue? {
        Q.ExecStep(Q.Init(slots), QueueEvents(evs[..n]), e.q);
      } else if e.OnPool? {
        P.ExecStep(P.INIT, PoolEvents(evs[..n]), e.p);
      }
      assert !e.OnQueue? ==> QueueEvents(evs) == QueueEvents(evs[..n]);
      assert !e.OnPool? ==> PoolEvents(evs) == PoolEvents(evs[..n]);
      StepProjects(s, e, Exec(Init(slots, names), evs).value);
    }
  }

  lemma StepProjects(s: State, e: Event, s': State)
    requires Step(s, e) == Some(s')
    ensures s'.names == s.names
    ensures if e.OnQueue? then Q.Step(s.queue, e.q) == Some(s'.queue) else s'.queue == s.queue
    ensures if e.OnPool? then P.Step(s.pool, e.p) == Some(s'.pool) else s'.pool == s.pool
  {
  }

  // ---- The order of the shutdown -----------------------------------------------------------------------

  /**
   StopAll comes after the cancellation and Stop after StopAll; main leaves its poll loop only after the
   cancellation and when its handler is not inside Enqueue, which is where it can be once at a time.
   */
  ghost predicate InOrder(s: State) {
    && (!s.pool.stopAll.NotCalled? ==> s.cancelled)
    && (!s.queue.stop.NotStopped? ==> s.pool.stopAll.Returned?)
    && (!s.main.Polling? ==> s.cancelled && !PollerBusy(s))
    && (forall a, b :: FromPoller(s, a) && FromPoller(s, b) ==> a == b)
  }

  lemma StopAllFrame(p: P.State, e: P.Event, p': P.State)
    requires P.Step(p, e) == Some(p')
    ensures p'.stopAll.NotCalled? <==> p.stopAll.NotCalled? && !e.StopAllBegin?
    ensures p.stopAll.Returned? ==> p'.stopAll.Returned?
  {
    if P.IsThread(e) {
      P.ThreadFrame(p, e.thread, e);
    }
  }

  /** Over every run the shutdown keeps this order. */
  lemma {:induction false} ShutdownInOrder(slots: nat, names: Names, evs: seq<Event>)
    requires Exec(Init(slots, names), evs).Some?
    ensures InOrder(Exec(Init(slots, names), evs).value)
  {
    if evs == [] {
    } else {
      var n := |evs| - 1;
      ShutdownInOrder(slots, names, evs[..n]);
      OrderStep(Exec(Init(slots, names), evs[..n]).value, evs[n], Exec(Init(slots, names), evs).value);
    }
  }

  lemma PollerCall(s: State, q: Q.Event, s': State, c: Q.CallId)
    requires Step(s, OnQueue(q)) == Some(s') && FromPoller(s', c)
    ensures FromPoller(s, c) || (q.Lookup? && q.call == c && !PollerBusy(s))
  {
    QO.CallStays(s.queue, q, s'.queue, c);
  }

  lemma OrderStep(s: State, e: Event, s': State)
    requires InOrder(s) && Step(s, e) == Some(s')
    ensures InOrder(s')
  {
    match e
    case OnPool(p) =>
      StopAllFrame(s.pool, p, s'.pool);
      SamePollers(s, s');
    case OnQueue(q) => QueueOrder(s, q, s');
    case _ => SamePollers(s, s');
  }

  lemma SamePollers(s: State, s': State)
    requires s'.queue == s.queue && s'.names == s.names
    ensures forall c :: FromPoller(s', c) <==> FromPoller(s, c)
    ensures PollerBusy(s') <==> PollerBusy(s)
  {
  }

  lemma QueueOrder(s: State, q: Q.Event, s': State)
    requires InOrder(s) && Step(s, OnQueue(q)) == Some(s')
    ensures InOrder(s')
  {
    QO.StopOnlyGoesOn(s.queue, q, s'.queue);
    if c :| c in s'.queue.calls && FromPoller(s', c) && !s.main.Polling? {
      PollerCall(s, q, s', c);
    }
    forall a, b | FromPoller(s', a) && FromPoller(s', b) ensures a == b {
      PollerCall(s, q, s', a);
      PollerCall(s, q, s', b);
      assert FromPoller(s, a) || FromPoller(s, b) ==> PollerBusy(s);
    }
  }

  /** After the end of the process nothing happens but that containers end by themselves. */
  lemma {:induction false} ExitIsFinal(s: State, rest: seq<Event>)
    requires s.main.Exited? && Exec(s, rest).Some?
    ensures var t := Exec(s, rest).value;
      t == s.(pool := s.pool.(running := t.pool.running)) && t.pool.running <= s.pool.running
  {
    if rest == [] {
    } else {
      ExitIsFinal(s, rest[..|rest| - 1]);
    }
  }

  /** A worker inside a closure stays inside it until that closure returns. */
  lemma RunningStays(q: Q.State, e: Q.Event, q': Q.State, c: Q.ChatId, t: Q.Task)
    requires Q.Inv(q) && Q.Step(q, e) == Some(q') && RunsTask(q, c, t)
    ensures RunsTask(q', c, t) || (e.Finish? && e.task == t)
  {
    if Q.IsWork(e) {
    } else if e.Send? {
    } else {
      Q.OtherStep(q, e, q');
    }
  }

  /** A dispatch in progress is the closure its chat's worker is running. */
  ghost predicate DispatchesInWorkers(s: State) {
    forall i :: i in s.pool.threads && s.pool.threads[i].key.Main? && !P.Over(s.pool.threads[i].phase) ==>
      RunsTask(s.queue, s.pool.threads[i].key.chat, i)
  }

  lemma {:induction false} ExecDispatches(slots: nat, names: Names, evs: seq<Event>)
    requires Exec(Init(slots, names), evs).Some?
    ensures DispatchesInWorkers(Exec(Init(slots, names), evs).value)
  {
    if evs == [] {
    } else {
      var n := |evs| - 1;
      ExecDispatches(slots, names, evs[..n]);
      Projections(slots, names, evs[..n]);
      Q.ExecInv(slots, QueueEvents(evs[..n]));
      DispatchesStep(Exec(Init(slots, names), evs[..n]).value, evs[n], Exec(Init(slots, names), evs).value);
    }
  }

  lemma DispatchesStep(s: State, e: Event, s': State)
    requires Q.Inv(s.queue) && DispatchesInWorkers(s) && Step(s, e) == Some(s')
    ensures DispatchesInWorkers(s')
  {
    match e
    case OnQueue(q) =>
      forall i | i in s.pool.threads && s.pool.threads[i].key.Main? && !P.Over(s.pool.threads[i].phase)
        ensures RunsTask(s'.queue, s.pool.threads[i].key.chat, i)
      {
        RunningStays(s.queue, q, s'.queue, s.pool.threads[i].key.chat, i);
      }
    case OnPool(p) =>
      forall i | i in s'.pool.threads && s'.pool.threads[i].key.Main? && !P.Over(s'.pool.threads[i].phase)
        ensures RunsTask(s'.queue, s'.pool.threads[i].key.chat, i)
      {
        PoolKeepsThread(s.pool, p, s'.pool, i);
      }
    case _ =>
  }

  lemma PoolKeepsThread(p: P.State, e: P.Event, p': P.State, i: P.ThreadId)
    requires P.Step(p, e) == Some(p') && i in p'.threads && p'.threads[i].key.Main?
    ensures (e.Call? && e.thread == i && p'.threads[i].key == P.Main(e.chat))
         || (i in p.threads && p'.threads[i].key == p.threads[i].key
             && (P.Over(p.threads[i].phase) ==> P.Over(p'.threads[i].phase)))
  {
    if i in p.threads {
      P.ThreadStays(p, e, p', i);
    } else {
      P.ThreadBegins(p, e, p', i);
    }
  }

  /** No two dispatches of a chat are in progress at the same time, so no two OpenCode runs of it overlap. */
  lemma RunsOfAChatNeverOverlap(slots: nat, names: Names, evs: seq<Event>, i: P.ThreadId, j: P.ThreadId)
    requires Exec(Init(slots, names), evs).Some?
    requires var ts := Exec(Init(slots, names), evs).value.pool.threads;
      && i in ts && j in ts && ts[i].key.Main? && ts[i].key == ts[j].key
      && !P.Over(ts[i].phase) && !P.Over(ts[j].phase)
    ensures i == j
  {
    ExecDispatches(slots, names, evs);
  }

  /**
   An OpenCode run starts with the continue flag exactly when an earlier run on the same handle
   succeeded, and at that moment every earlier run on that handle is over.
   */
  lemma SessionContinuity(slots: nat, names: Names, evs: seq<Event>, i: P.ThreadId, id: P.ContainerId, continued: bool)
    requires Exec(Init(slots, names), evs + [OnPool(P.ExecBegin(i, id, continued))]).Some?
    ensures continued <==> PR.Succeeded(PoolEvents(evs), id)
    ensures Exec(Init(slots, names), evs).Some?
    ensures forall j :: j in Exec(Init(slots, names), evs).value.pool.threads ==>
      !(Exec(Init(slots, names), evs).value.pool.threads[j].phase.Executing?
        && Exec(Init(slots, names), evs).value.pool.threads[j].phase.id == id)
  {
    var e := P.ExecBegin(i, id, continued);
    assert (evs + [OnPool(e)])[..|evs|] == evs;
    var s := Exec(Init(slots, names), evs).value;
    StepProjects(s, OnPool(e), Exec(Init(slots, names), evs + [OnPool(e)]).value);
    BeginsTouched(s.pool, e);
    Projections(slots, names, evs);
    PR.SessionIffSucceeded(PoolEvents(evs), id);
    NobodyExecutes(slots, names, evs, s, i, id);
  }

  lemma BeginsTouched(p: P.State, e: P.Event)
    requires e.ExecBegin? && P.Step(p, e).Some?
    ensures e.thread in p.threads && p.threads[e.thread].phase == P.Touched(e.id)
    ensures e.continued <==> e.id in p.sessions
  {
  }

  /** While a dispatch stands before its run, nobody else runs OpenCode on its container. */
  lemma NobodyExecutes(slots: nat, names: Names, evs: seq<Event>, s: State, i: P.ThreadId, id: P.ContainerId)
    requires Exec(Init(slots, names), evs) == Some(s) && i in s.pool.threads && s.pool.threads[i].phase == P.Touched(id)
    ensures forall j :: j in s.pool.threads ==>
      !(s.pool.threads[j].phase.Executing? && s.pool.threads[j].phase.id == id)
  {
    Projections(slots, names, evs);
    PR.HandleBelongsToKey(PoolEvents(evs));
    ExecDispatches(slots, names, evs);
    forall j | j in s.pool.threads && s.pool.threads[j].phase.Executing? ensures s.pool.threads[j].phase.id != id {
      OnlyMainsExecute(PoolEvents(evs), j);
      OtherContainer(s, i, id, j);
    }
  }

  lemma OtherContainer(s: State, i: P.ThreadId, id: P.ContainerId, j: P.ThreadId)
    requires DispatchesInWorkers(s) && PR.HandlesKeyed(s.pool) && i in s.pool.threads && j in s.pool.threads
    requires s.pool.threads[i].phase == P.Touched(id) && s.pool.threads[j].phase.Executing?
    requires s.pool.threads[j].key.Main?
    ensures s.pool.threads[j].phase.id != id
  {
    assert PR.ThreadKeyed(s.pool, i) && PR.ThreadKeyed(s.pool, j);
  }

  /** Only dispatches of a chat touch the timer and run OpenCode with a session. */
  lemma {:induction false} OnlyMainsExecute(evs: seq<P.Event>, i: P.ThreadId)
    requires P.Exec(P.INIT, evs).Some? && i in P.Exec(P.INIT, evs).value.threads
    requires var p := P.Exec(P.INIT, evs).value.threads[i].phase; p.Touched? || p.Executing?
    ensures P.Exec(P.INIT, evs).value.threads[i].key.Main?
  {
    var n := |evs| - 1;
    var s, s' := P.Exec(P.INIT, evs[..n]).value, P.Exec(P.INIT, evs).value;
    MainStep(s, evs[n], s', i);
    if !s.threads[i].phase.Touched? && !s.threads[i].phase.Executing? {
      assert s.threads[i].key.Main?;
    } else {
      OnlyMainsExecute(evs[..n], i);
    }
  }

  lemma MainStep(s: P.State, e: P.Event, s': P.State, i: P.ThreadId)
    requires P.Step(s, e) == Some(s') && i in s'.threads
    requires s'.threads[i].phase.Touched? || s'.threads[i].phase.Executing?
    ensures i in s.threads && s'.threads[i].key == s.threads[i].key
    ensures s.threads[i].phase.Touched? || s.threads[i].phase.Executing? || s.threads[i].key.Main?
  {
    if i in s.threads {
      P.ThreadStays(s, e, s', i);
    } else {
      P.ThreadBegins(s, e, s', i);
    }
  }
}
