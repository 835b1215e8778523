/**
 The warm container pool of internal/container/manager.go as a transition system.  Threads are
 calls of Dispatch and goroutines of SpawnSubAgent; jobs are goroutines that stop a container,
 either from a TTL timer or from StopAll.  Podman is the set of running container IDs.
 Both pools are one map: a main container is keyed by its chat, a sub-agent by its own ID.
 */
module PoolProtocol {
  import opened Prelude

  type ChatId = string
  type AgentId = string
  type ContainerId = nat
  type ThreadId = nat
  type JobId = nat

  datatype Key = Main(chat: ChatId) | Sub(agent: AgentId)

  datatype Phase =
    | Calling                         // before the fast-path load
    | Missed                          // fast path missed, waits for startMu
    | Checking                        // holds startMu, before the second load
    | Preparing                       // before podman run
    | Up(id: ContainerId)             // podman run succeeded
    | Watched(id: ContainerId)        // RegisterDir returned
    | Timed(id: ContainerId)          // time.AfterFunc armed the timer
    | Leaving(got: Option<ContainerId>)  // result fixed, deferred Unlock not run yet
    | Ready(id: ContainerId)          // ensureContainer returned the handle
    | Touched(id: ContainerId)        // Dispatch reset the timer
    | Executing(id: ContainerId, continued: bool)
    | Ended
    | Failed

  datatype Thread = Thread(key: Key, phase: Phase)

  datatype JobPhase = Disarming | Stopping | Deleting

  datatype Job = Job(key: Key, id: ContainerId, phase: JobPhase)

  /**
   StopAll ranges over the main pool and then over the sub-agents.  A range visits no key twice and every
   key that stays in its map while it runs (`todo`); a key stored meanwhile may or may not be visited.
   `early` are the containers that were in the pools when StopAll was called.
   */
  datatype StopAll =
    | NotCalled
    | Ranging(early: set<ContainerId>, subs: bool, todo: set<Key>, seen: set<Key>, job: Option<JobId>)
    | Returned(early: set<ContainerId>)

  datatype State = State(
    pool: map<Key, ContainerId>,
    lock: Option<ThreadId>,            // startMu
    threads: map<ThreadId, Thread>,
    jobs: map<JobId, Job>,
    armed: set<ContainerId>,           // containers whose TTL timer is armed
    sessions: set<ContainerId>,        // handles with hasSession set
    keyOf: map<ContainerId, Key>,      // every container podman ever started
    agents: set<AgentId>,              // sub-agent IDs issued so far
    running: set<ContainerId>,
    failedStops: set<ContainerId>,     // containers for which podman stop failed
    stopAll: StopAll)

  const INIT: State := State(map[], None, map[], map[], {}, {}, map[], {}, {}, {}, NotCalled)

  datatype Event =
    | Call(thread: ThreadId, chat: ChatId)
    | FastHit(thread: ThreadId)
    | FastMiss(thread: ThreadId)
    | Lock(thread: ThreadId)
    | RecheckHit(thread: ThreadId)
    | RecheckMiss(thread: ThreadId)
    | Spawn(thread: ThreadId, agent: AgentId)
    | StartFail(thread: ThreadId)                       // any error up to and including podman run
    | PodmanRun(thread: ThreadId, key: Key, id: ContainerId)
    | Register(thread: ThreadId)
    | Arm(thread: ThreadId)
    | Store(thread: ThreadId)
    | Return(thread: ThreadId)
    | Touch(thread: ThreadId)
    | InputFail(thread: ThreadId)
    | ExecBegin(thread: ThreadId, id: ContainerId, continued: bool)
    | ExecEnd(thread: ThreadId, id: ContainerId, ok: bool)
    | Fire(id: ContainerId, job: JobId)
    | StopAllBegin
    | Visit(job: JobId, key: Key)                       // StopAll's range reaches an entry
    | RangeSubs                                         // the first range ends, the second begins
    | StopAllReturn
    | Disarm(job: JobId)
    | PodmanStop(job: JobId, id: ContainerId, ok: bool)
    | Delete(job: JobId, key: Key, hit: bool)           // `hit`: an entry was there
    | Die(id: ContainerId)                              // a container ends by itself

  predicate HoldsLock(p: Phase) { p.Checking? || p.Preparing? || p.Up? || p.Watched? || p.Timed? || p.Leaving? }

  /** Between podman run and pool.Store. */
  predicate MidStart(p: Phase) { p.Up? || p.Watched? || p.Timed? }

  /** Dispatch has returned. */
  predicate Over(p: Phase) { p.Ended? || p.Failed? }

  predicate BeforeStore(p: Phase) { p.Preparing? || MidStart(p) }

  /** The phases of a thread's own code: what it moves to, when it can. */
  function NextPhase(s: State, t: Thread, e: Event): Option<Phase> {
    match (e, t.phase)
    case (FastHit(_), Calling) => if t.key in s.pool then Some(Ready(s.pool[t.key])) else None
    case (FastMiss(_), Calling) => if t.key in s.pool then None else Some(Missed)
    case (Lock(_), Missed) => if s.lock.None? then Some(Checking) else None
    case (RecheckHit(_), Checking) => if t.key in s.pool then Some(Leaving(Some(s.pool[t.key]))) else None
    case (RecheckMiss(_), Checking) => if t.key in s.pool then None else Some(Preparing)
    case (StartFail(_), Preparing) => Some(Leaving(None))
    case (PodmanRun(_, key, id), Preparing) => if key == t.key && id !in s.keyOf then Some(Up(id)) else None
    case (Register(_), Up(id)) => Some(Watched(id))
    case (Arm(_), Watched(id)) => Some(Timed(id))
    case (Store(_), Timed(id)) => Some(Leaving(Some(id)))
    case (Return(_), Leaving(Some(id))) => Some(Ready(id))
    case (Return(_), Leaving(None)) => Some(Failed)
    case (Touch(_), Ready(id)) => if t.key.Main? then Some(Touched(id)) else None
    case (InputFail(_), Touched(_)) => Some(Ended)
    case (ExecBegin(_, id, c), Touched(h)) =>
      if id == h && c == (id in s.sessions) then Some(Executing(id, c)) else None
    case (ExecEnd(_, id, _), Executing(h, _)) => if id == h then Some(Ended) else None
    case _ => None
  }

  /** What a thread's move does besides changing its own phase. */
  function Effect(s: State, t: Thread, e: Event): State {
    match e
    case Lock(i) => s.(lock := Some(i))
    case PodmanRun(_, key, id) => s.(keyOf := s.keyOf[id := key], running := s.running + {id})
    case Arm(_) => if t.phase.Watched? then s.(armed := s.armed + {t.phase.id}) else s
    case Store(_) => if t.phase.Timed? then s.(pool := s.pool[t.key := t.phase.id]) else s
    case Return(_) => if t.key.Main? then s.(lock := None) else s
    case Touch(_) => if t.phase.Ready? then s.(armed := s.armed + {t.phase.id}) else s
    case ExecEnd(_, id, ok) => if ok then s.(sessions := s.sessions + {id}) else s
    case _ => s
  }

  function DoThread(s: State, i: ThreadId, e: Event): Option<State> {
    if i !in s.threads then None
    else match NextPhase(s, s.threads[i], e)
         case None => None
         case Some(p) =>
           Some(Effect(s, s.threads[i], e).(threads := s.threads[i := Thread(s.threads[i].key, p)]))
  }

  function KeysOf(pool: map<Key, ContainerId>, subs: bool): set<Key> { set k | k in pool && k.Sub? == subs }

  /** StopAll's own steps. */
  function DoStopAll(s: State, e: Event): Option<State> {
    match (e, s.stopAll)
    case (StopAllBegin, NotCalled) =>
      Some(s.(stopAll := Ranging(s.pool.Values, false, KeysOf(s.pool, false), {}, None)))
    case (Visit(j, key), Ranging(early, subs, todo, seen, None)) =>
      if key in s.pool && key.Sub? == subs && key !in seen && j !in s.jobs
      then Some(s.(jobs := s.jobs[j := Job(key, s.pool[key], Disarming)],
                   stopAll := Ranging(early, subs, todo - {key}, seen + {key}, Some(j))))
      else None
    case (RangeSubs, Ranging(early, false, todo, _, None)) =>
      if todo == {} then Some(s.(stopAll := Ranging(early, true, KeysOf(s.pool, true), {}, None))) else None
    case (StopAllReturn, Ranging(early, true, todo, _, None)) =>
      if todo == {} then Some(s.(stopAll := Returned(early))) else None
    case _ => None
  }

  /** A deleted key need not be visited any more, and StopAll goes on after its own deletion. */
  function AfterDelete(a: StopAll, j: JobId, key: Key): StopAll {
    if a.Ranging? then a.(todo := a.todo - {key}, job := if a.job == Some(j) then None else a.job) else a
  }

  function DoJob(s: State, e: Event): Option<State> {
    match e
    case Fire(id, j) =>
      if id in s.armed && id in s.keyOf && j !in s.jobs
      then Some(s.(armed := s.armed - {id}, jobs := s.jobs[j := Job(s.keyOf[id], id, Stopping)])) else None
    case Disarm(j) =>
      if j in s.jobs && s.jobs[j].phase.Disarming?
      then Some(s.(armed := s.armed - {s.jobs[j].id}, jobs := s.jobs[j := s.jobs[j].(phase := Stopping)])) else None
    case PodmanStop(j, id, ok) =>
      if j in s.jobs && s.jobs[j].phase.Stopping? && s.jobs[j].id == id
      then Some(s.(running := if ok then s.running - {id} else s.running,
                   failedStops := if ok then s.failedStops else s.failedStops + {id},
                   jobs := s.jobs[j := s.jobs[j].(phase := Deleting)]))
      else None
    case Delete(j, key, hit) =>
      if j in s.jobs && s.jobs[j].phase.Deleting? && s.jobs[j].key == key && hit == (key in s.pool)
      then Some(s.(pool := s.pool - {key}, jobs := s.jobs - {j}, stopAll := AfterDelete(s.stopAll, j, key))) else None
    case _ => DoStopAll(s, e)
  }

  predicate IsJob(e: Event) {
    || e.Fire? || e.Disarm? || e.PodmanStop? || e.Delete?
    || e.StopAllBegin? || e.Visit? || e.RangeSubs? || e.StopAllReturn?
  }

  /** A move of a dispatching or spawning thread after its first event. */
  predicate IsThread(e: Event) { !IsJob(e) && !e.Call? && !e.Spawn? && !e.Die? }

  function Step(s: State, e: Event): Option<State> {
    if IsJob(e) then DoJob(s, e)
    else if e.Call? then
      if e.thread in s.threads then None
      else Some(s.(threads := s.threads[e.thread := Thread(Main(e.chat), Calling)]))
    else if e.Spawn? then
      if e.thread in s.threads || e.agent in s.agents then None
      else Some(s.(agents := s.agents + {e.agent},
                   threads := s.threads[e.thread := Thread(Sub(e.agent), Preparing)]))
    else if e.Die? then if e.id in s.running then Some(s.(running := s.running - {e.id})) else None
    else DoThread(s, e.thread, e)
  }

  function Exec(s: State, evs: seq<Event>): Option<State> {
    if evs == [] then Some(s)
    else match Exec(s, evs[..|evs| - 1])
         case None => None
         case Some(m) => Step(m, evs[|evs| - 1])
  }

  lemma ExecStep(s: State, evs: seq<Event>, e: Event)
    ensures Exec(s, evs + [e]) == match Exec(s, evs) case None => None case Some(m) => Step(m, e)
  {
    assert (evs + [e])[..|evs|] == evs;
  }

  lemma {:induction false} ExecConcat(s: State, xs: seq<Event>, ys: seq<Event>)
    requires Exec(s, xs).Some?
    ensures Exec(s, xs + ys) == Exec(Exec(s, xs).value, ys)
  {
    if ys == [] {
      assert xs + ys == xs;
    } else {
      var n := |ys| - 1;
      ExecConcat(s, xs, ys[..n]);
      LastOfConcat(xs, ys);
    }
  }

  lemma LastOfConcat(xs: seq<Event>, ys: seq<Event>)
    requires ys != []
    ensures (xs + ys)[..|xs + ys| - 1] == xs + ys[..|ys| - 1] && (xs + ys)[|xs + ys| - 1] == ys[|ys| - 1]
  {
  }

  /** A run begins with a run. */
  lemma {:induction false} ExecPrefix(s: State, xs: seq<Event>, ys: seq<Event>)
    requires Exec(s, xs + ys).Some?
    ensures Exec(s, xs).Some? && Exec(s, xs + ys) == Exec(Exec(s, xs).value, ys)
  {
    if ys == [] {
      assert xs + ys == xs;
    } else {
      var n := |ys| - 1;
      assert (xs + ys)[..|xs + ys| - 1] == xs + ys[..n];
      ExecPrefix(s, xs, ys[..n]);
      ExecConcat(s, xs, ys);
    }
  }

  /** A run takes its first event and goes on from there. */
  lemma ExecFirst(s: State, e: Event, rest: seq<Event>)
    requires Exec(s, [e] + rest).Some?
    ensures Step(s, e).Some? && Exec(s, [e] + rest) == Exec(Step(s, e).value, rest)
  {
    ExecPrefix(s, [e], rest);
    ExecStep(s, [], e);
    assert [] + [e] == [e];
  }

  // ---- Invariant of every reachable state -----------------------------------------------------

  /** Only the holder of startMu is between Lock and Unlock. */
  ghost predicate LockHeld(s: State) {
    forall i :: i in s.threads && s.threads[i].key.Main? && HoldsLock(s.threads[i].phase) ==> s.lock == Some(i)
  }

  /** Each sub-agent ID belongs to one thread. */
  ghost predicate AgentsUnique(s: State) {
    && (forall i :: i in s.threads && s.threads[i].key.Sub? ==> s.threads[i].key.agent in s.agents)
    && (forall i, j :: (i in s.threads && j in s.threads && s.threads[i].key.Sub?
                        && s.threads[i].key == s.threads[j].key) ==> i == j)
    && (forall k :: k in s.pool && k.Sub? ==> k.agent in s.agents)
  }

  /** A container being started is for a key that has no entry. */
  ghost predicate StartsWhenAbsent(s: State) {
    forall i :: i in s.threads && BeforeStore(s.threads[i].phase) ==> s.threads[i].key !in s.pool
  }

  ghost predicate Inv(s: State) {
    LockHeld(s) && AgentsUnique(s) && StartsWhenAbsent(s)
  }

  lemma SameStarter(s: State, i: ThreadId, j: ThreadId)
    requires LockHeld(s) && AgentsUnique(s) && i in s.threads && j in s.threads && s.threads[i].key == s.threads[j].key
    requires BeforeStore(s.threads[i].phase) && BeforeStore(s.threads[j].phase)
    ensures i == j
  {
  }

  lemma ThreadLockHeld(s: State, i: ThreadId, e: Event)
    requires LockHeld(s) && DoThread(s, i, e).Some? && (e.Lock? ==> e.thread == i)
    ensures LockHeld(DoThread(s, i, e).value)
  {
  }

  lemma ThreadAgentsUnique(s: State, i: ThreadId, e: Event)
    requires AgentsUnique(s) && DoThread(s, i, e).Some?
    ensures AgentsUnique(DoThread(s, i, e).value)
  {
  }

  /** What a thread's move leaves alone: other threads, and the pool except for a store. */
  lemma ThreadFrame(s: State, i: ThreadId, e: Event)
    requires DoThread(s, i, e).Some?
    ensures var s' := DoThread(s, i, e).value;
      && i in s.threads && s'.threads == s.threads[i := s'.threads[i]] && s'.threads[i].key == s.threads[i].key
      && s'.jobs == s.jobs && s'.stopAll == s.stopAll && s'.agents == s.agents && s'.failedStops == s.failedStops
      && (if e.Store? then s.threads[i].phase.Timed? && s'.pool == s.pool[s.threads[i].key := s.threads[i].phase.id]
                           && s'.threads[i].phase == Leaving(Some(s.threads[i].phase.id))
          else s'.pool == s.pool)
      && (if e.PodmanRun?
          then e.key == s.threads[i].key && e.id !in s.keyOf && s'.threads[i].phase == Up(e.id)
               && s.threads[i].phase.Preparing?
               && s'.keyOf == s.keyOf[e.id := e.key] && s'.running == s.running + {e.id}
          else s'.keyOf == s.keyOf && s'.running == s.running)
      && (BeforeStore(s'.threads[i].phase) ==> BeforeStore(s.threads[i].phase) || s.threads[i].key !in s.pool)
  {
  }

  /** What a move of a timer's goroutine or of StopAll leaves alone: threads, and the pool except for a deletion. */
  lemma JobFrame(s: State, e: Event)
    requires IsJob(e) && DoJob(s, e).Some?
    ensures var s' := DoJob(s, e).value;
      && s'.threads == s.threads && s'.lock == s.lock && s'.agents == s.agents
      && s'.keyOf == s.keyOf && s'.sessions == s.sessions && s'.running <= s.running
      && (if e.Delete? then s'.pool == s.pool - {e.key} && e.hit == (e.key in s.pool) else s'.pool == s.pool)
  {
  }

  /** A thread keeps its key, and only its own moves change its phase. */
  lemma ThreadStays(s: State, e: Event, s': State, i: ThreadId)
    requires Step(s, e) == Some(s') && i in s.threads
    ensures i in s'.threads && s'.threads[i].key == s.threads[i].key
    ensures s'.threads[i] == s.threads[i] || (IsThread(e) && e.thread == i && DoThread(s, i, e) == Some(s'))
  {
    if IsJob(e) {
      JobFrame(s, e);
    } else if IsThread(e) {
      ThreadFrame(s, e.thread, e);
    }
  }

  /** New threads are dispatches of a chat and goroutines that spawn a sub-agent. */
  lemma ThreadBegins(s: State, e: Event, s': State, i: ThreadId)
    requires Step(s, e) == Some(s') && i in s'.threads && i !in s.threads
    ensures (e.Call? && e.thread == i && s'.threads[i] == Thread(Main(e.chat), Calling))
         || (e.Spawn? && e.thread == i && s'.threads[i] == Thread(Sub(e.agent), Preparing))
  {
    if !e.Call? && !e.Spawn? { SameThreads(s, e, s'); }
  }

  lemma SameThreads(s: State, e: Event, s': State)
    requires Step(s, e) == Some(s') && !e.Call? && !e.Spawn?
    ensures s'.threads.Keys == s.threads.Keys
  {
    if IsJob(e) {
      JobFrame(s, e);
    } else if IsThread(e) {
      ThreadFrame(s, e.thread, e);
    }
  }

  lemma ThreadStartsWhenAbsent(s: State, i: ThreadId, e: Event)
    requires Inv(s) && DoThread(s, i, e).Some?
    ensures StartsWhenAbsent(DoThread(s, i, e).value)
  {
    ThreadFrame(s, i, e);
    KeyAbsent(s, DoThread(s, i, e).value, i, e.Store?);
  }

  lemma KeyAbsent(s: State, s': State, i: ThreadId, stores: bool)
    requires Inv(s) && i in s.threads && i in s'.threads
    requires s'.threads == s.threads[i := s'.threads[i]] && s'.threads[i].key == s.threads[i].key
    requires if stores then s'.pool.Keys == s.pool.Keys + {s.threads[i].key} else s'.pool == s.pool
    requires stores ==> BeforeStore(s.threads[i].phase) && !BeforeStore(s'.threads[i].phase)
    requires BeforeStore(s'.threads[i].phase) ==> BeforeStore(s.threads[i].phase) || s.threads[i].key !in s.pool
    ensures StartsWhenAbsent(s')
  {
    forall j | j in s'.threads && BeforeStore(s'.threads[j].phase) ensures s'.threads[j].key !in s'.pool {
      if stores && s.threads[j].key == s.threads[i].key {
        SameStarter(s, i, j);
      }
    }
  }

  lemma JobInv(s: State, e: Event)
    requires Inv(s) && IsJob(e) && DoJob(s, e).Some?
    ensures Inv(DoJob(s, e).value)
  {
    JobFrame(s, e);
  }

  lemma StepInv(s: State, e: Event, s': State)
    requires Inv(s) && Step(s, e) == Some(s')
    ensures Inv(s')
  {
    if IsJob(e) {
      JobInv(s, e);
    } else if IsThread(e) {
      ThreadLockHeld(s, e.thread, e);
      ThreadAgentsUnique(s, e.thread, e);
      ThreadStartsWhenAbsent(s, e.thread, e);
    }
  }

  lemma {:induction false} ExecInv(evs: seq<Event>)
    requires Exec(INIT, evs).Some?
    ensures Inv(Exec(INIT, evs).value)
  {
    if evs == [] {
    } else {
      var n := |evs| - 1;
      ExecInv(evs[..n]);
      StepInv(Exec(INIT, evs[..n]).value, evs[n], Exec(INIT, evs).value);
    }
  }

  /** In every reachable state at most one thread is about to start, or starts, a container for a key. */
  lemma OneStarter(evs: seq<Event>, i: ThreadId, j: ThreadId)
    requires Exec(INIT, evs).Some?
    requires var ts := Exec(INIT, evs).value.threads;
      && i in ts && j in ts && ts[i].key == ts[j].key && BeforeStore(ts[i].phase) && BeforeStore(ts[j].phase)
    ensures i == j
  {
    ExecInv(evs);
    SameStarter(Exec(INIT, evs).value, i, j);
  }
}
