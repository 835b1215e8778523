/**
 StopAll by itself: when it is sure to leave nothing running, as long as nobody dispatches or spawns
 meanwhile and podman stop works.  ShutdownSafety says when the whole shutdown leaves nothing.
 */
module PoolStopSafety {
  import opened Prelude
  import opened PoolProtocol
  import opened PoolResults
  import opened PoolPlacement
  import opened PoolShutdown

  /** No new dispatch, no spawn, no failing podman stop. */
  ghost predicate Quiet(evs: seq<Event>) {
    forall n :: 0 <= n < |evs| ==> QuietEvent(evs[n])
  }

  predicate QuietEvent(e: Event) { !e.Call? && !e.Spawn? && (e.PodmanStop? ==> e.ok) }

  /** A run of StopAll from the state in which it is called, after which something runs. */
  ghost predicate LeavesRunning(s: State, during: seq<Event>) {
    && Quiet(during) && Exec(s, [StopAllBegin] + (during + [StopAllReturn])).Some?
    && Exec(s, [StopAllBegin] + (during + [StopAllReturn])).value.running != {}
  }

  // ---- The condition ----------------------------------------------------------------------------------

  /** The thread may still get to podman run. */
  predicate MayStart(p: Phase) { p.Calling? || p.Missed? || p.Checking? || p.Preparing? }

  /** Another container of the same key. */
  predicate Rival(s: State, id: ContainerId, o: ContainerId) {
    o != id && id in s.keyOf && o in s.keyOf && s.keyOf[o] == s.keyOf[id]
  }

  predicate StoppedByJob(s: State, o: ContainerId, j: JobId) { j in s.jobs && s.jobs[j].id == o }

  /** A dispatch that holds the handle and has not reset its timer yet. */
  predicate HeldUntouched(s: State, o: ContainerId, i: ThreadId) {
    && i in s.threads && s.threads[i].key.Main?
    && (s.threads[i].phase == Ready(o) || s.threads[i].phase == Leaving(Some(o)))
  }

  /** A stop of `o` is pending, or can still be brought about by its timer. */
  ghost predicate StopComing(s: State, o: ContainerId) {
    o in s.armed || (exists j :: StoppedByJob(s, o, j)) || (exists i :: HeldUntouched(s, o, i))
  }

  ghost predicate Threatened(s: State, id: ContainerId) {
    exists o :: Rival(s, id, o) && StopComing(s, o)
  }

  /** Podman stop failed on the container in a stop that is about to delete the entry. */
  ghost predicate Doomed(s: State, id: ContainerId) {
    exists j :: StoppedByJob(s, id, j) && s.jobs[j].phase.Deleting?
  }

  /** The container is in the pool, and it will be there as long as it runs. */
  ghost predicate EntrySafe(s: State, id: ContainerId) {
    InPool(s, id) && !Threatened(s, id) && !Doomed(s, id)
  }

  ghost predicate AllSafe(s: State) {
    forall id :: id in s.running ==> EntrySafe(s, id)
  }

  /** Every running container is safely in the pool, and no thread may still start one. */
  ghost predicate SafeToStop(s: State) {
    AllSafe(s) && forall i :: i in s.threads ==> !MayStart(s.threads[i].phase)
  }

  // ---- Safe entries stay safe -------------------------------------------------------------------------

  /** No start, and no failing podman stop. */
  predicate CalmEvent(e: Event) { !e.PodmanRun? && (e.PodmanStop? ==> e.ok) }

  lemma RunningShrinks(s: State, e: Event, s': State)
    requires !e.PodmanRun? && Step(s, e) == Some(s')
    ensures s'.running <= s.running && s'.keyOf == s.keyOf
  {
    if IsJob(e) {
      JobFrame(s, e);
    } else if IsThread(e) {
      ThreadFrame(s, e.thread, e);
    }
  }

  lemma ThreatFromThread(s: State, e: Event, s': State, id: ContainerId, o: ContainerId)
    requires Inv(s) && HandlesKeyed(s) && InPool(s, id) && Rival(s, id, o) && !StopComing(s, o)
    requires IsThread(e) && !e.PodmanRun? && DoThread(s, e.thread, e) == Some(s')
    ensures !StopComing(s', o)
  {
    var i := e.thread;
    ThreadFrame(s, i, e);
    assert ThreadKeyed(s, i) && !HeldUntouched(s, o, i);
    assert o !in s'.armed && !HeldUntouched(s', o, i);
    forall k | k != i ensures !HeldUntouched(s', o, k) {
      assert !HeldUntouched(s, o, k);
    }
    forall j ensures !StoppedByJob(s', o, j) {
      assert !StoppedByJob(s, o, j);
    }
  }

  lemma ThreatFromJob(s: State, e: Event, s': State, id: ContainerId, o: ContainerId)
    requires HandlesKeyed(s) && InPool(s, id) && Rival(s, id, o) && !StopComing(s, o)
    requires IsJob(e) && DoJob(s, e) == Some(s') && s'.threads == s.threads
    ensures !StopComing(s', o)
  {
    forall j ensures !StoppedByJob(s', o, j) {
      assert !StoppedByJob(s, o, j);
    }
    forall i ensures !HeldUntouched(s', o, i) {
      assert !HeldUntouched(s, o, i);
    }
  }

  lemma NoNewThreat(s: State, e: Event, s': State, id: ContainerId, o: ContainerId)
    requires Inv(s) && HandlesKeyed(s) && InPool(s, id) && Rival(s, id, o) && !StopComing(s, o)
    requires !e.PodmanRun? && Step(s, e) == Some(s')
    ensures !StopComing(s', o)
  {
    if IsThread(e) {
      ThreatFromThread(s, e, s', id, o);
    } else if IsJob(e) {
      JobFrame(s, e);
      ThreatFromJob(s, e, s', id, o);
    } else {
      forall i ensures HeldUntouched(s', o, i) <==> HeldUntouched(s, o, i) {}
      forall j ensures StoppedByJob(s', o, j) <==> StoppedByJob(s, o, j) {}
    }
  }

  lemma EntryKept(s: State, e: Event, s': State, id: ContainerId)
    requires Inv(s) && HandlesKeyed(s) && JobsOk(s) && EntrySafe(s, id) && Step(s, e) == Some(s')
    ensures InPool(s', id)
  {
    var key := s.keyOf[id];
    if IsThread(e) {
      ThreadFrame(s, e.thread, e);
      if e.Store? { assert s.threads[e.thread].key != key; }
    } else if IsJob(e) {
      JobFrame(s, e);
      if e.Delete? { NotItsDeletion(s, e, s', id); }
    }
  }

  lemma NotItsDeletion(s: State, e: Event, s': State, id: ContainerId)
    requires JobsOk(s) && EntrySafe(s, id) && e.Delete? && DoJob(s, e) == Some(s')
    ensures e.key != s.keyOf[id]
  {
    var o := s.jobs[e.job].id;
    assert JobOk(s, e.job) && StoppedByJob(s, o, e.job);
    assert o != id && e.key == s.keyOf[id] ==> Rival(s, id, o);
  }

  lemma NotDoomed(s: State, e: Event, s': State, id: ContainerId)
    requires !Doomed(s, id) && CalmEvent(e) && Step(s, e) == Some(s') && id in s'.running
    ensures !Doomed(s', id)
  {
    forall j ensures !(StoppedByJob(s', id, j) && s'.jobs[j].phase.Deleting?) {
      assert !(StoppedByJob(s, id, j) && s.jobs[j].phase.Deleting?);
      if IsThread(e) { ThreadFrame(s, e.thread, e); }
    }
  }

  lemma EntryStaysSafe(s: State, e: Event, s': State, id: ContainerId)
    requires Inv(s) && HandlesKeyed(s) && JobsOk(s) && EntrySafe(s, id)
    requires CalmEvent(e) && Step(s, e) == Some(s') && id in s'.running
    ensures EntrySafe(s', id)
  {
    EntryKept(s, e, s', id);
    NotDoomed(s, e, s', id);
    RunningShrinks(s, e, s');
    forall o | Rival(s', id, o) ensures !StopComing(s', o) {
      assert Rival(s, id, o);
      NoNewThreat(s, e, s', id, o);
    }
  }

  /** Once StopAll has begun, only containers that were in the pool then are running. */
  ghost predicate EarlyRun(s: State) { s.stopAll.NotCalled? || s.running <= Early(s) }

  lemma AllStaySafe(s: State, e: Event, s': State)
    requires Inv(s) && HandlesKeyed(s) && JobsOk(s) && AllSafe(s) && EarlyRun(s)
    requires CalmEvent(e) && Step(s, e) == Some(s')
    ensures AllSafe(s') && EarlyRun(s') && s'.running <= s.running
  {
    RunningShrinks(s, e, s');
    forall id | id in s'.running ensures EntrySafe(s', id) {
      EntryStaysSafe(s, e, s', id);
    }
    if s.stopAll.NotCalled? {
      BeginsWithPool(s, e, s');
    } else {
      EarlyKept(s, e, s');
    }
  }

  lemma BeginsWithPool(s: State, e: Event, s': State)
    requires s.stopAll.NotCalled? && AllSafe(s) && CalmEvent(e) && Step(s, e) == Some(s')
    ensures EarlyRun(s')
  {
    if e.StopAllBegin? {
      forall id | id in s'.running ensures id in s.pool.Values {
        assert EntrySafe(s, id);
      }
    } else if IsThread(e) {
      ThreadFrame(s, e.thread, e);
    }
  }

  lemma NothingEarlyRuns(s: State)
    requires AllSafe(s) && EarlyRun(s) && AllEarlyOk(s) && s.stopAll.Returned?
    ensures s.running == {}
  {
    forall id ensures id !in s.running {
      assert EarlyOk(s, id);
    }
  }

  // ---- The condition is sufficient for StopAll alone -------------------------------------------------

  lemma NobodyStarts(s: State, e: Event, s': State)
    requires forall i :: i in s.threads ==> !MayStart(s.threads[i].phase)
    requires QuietEvent(e) && Step(s, e) == Some(s')
    ensures !e.PodmanRun? && forall i :: i in s'.threads ==> !MayStart(s'.threads[i].phase)
  {
    if IsJob(e) {
      JobFrame(s, e);
    } else if IsThread(e) {
      ThreadFrame(s, e.thread, e);
    }
  }

  lemma {:induction false} SafeForever(evs: seq<Event>, s: State, rest: seq<Event>)
    requires Exec(INIT, evs) == Some(s) && s.stopAll.NotCalled? && SafeToStop(s)
    requires Quiet(rest) && Exec(s, rest).Some?
    ensures SafeToStop(Exec(s, rest).value) && EarlyRun(Exec(s, rest).value)
  {
    if rest == [] {
    } else {
      var n := |rest| - 1;
      SafeForever(evs, s, rest[..n]);
      ExecConcat(INIT, evs, rest[..n]);
      ExecSound(evs + rest[..n]);
      NobodyStarts(Exec(s, rest[..n]).value, rest[n], Exec(s, rest).value);
      AllStaySafe(Exec(s, rest[..n]).value, rest[n], Exec(s, rest).value);
    }
  }

  lemma SafeLeavesNothing(evs: seq<Event>, s: State, during: seq<Event>)
    requires Exec(INIT, evs) == Some(s) && s.stopAll.NotCalled? && SafeToStop(s)
    ensures !LeavesRunning(s, during)
  {
    var rest := [StopAllBegin] + (during + [StopAllReturn]);
    if Quiet(during) && Exec(s, rest).Some? {
      SafeForever(evs, s, rest);
      assert rest == ([StopAllBegin] + during) + [StopAllReturn];
      EndsReturned(s, [StopAllBegin] + during);
      ExecConcat(INIT, evs, rest);
      EarlyAhead(evs + rest);
      NothingEarlyRuns(Exec(s, rest).value);
    }
  }

  // ---- The condition is necessary: pieces of runs ---------------------------------------------------

  /** The lock is held by a thread inside ensureContainer, and StopAll has to visit only keys that are there. */
  ghost predicate Sound(s: State) {
    && Inv(s) && HandlesKeyed(s) && JobsOk(s)
    && LockOwned(s)
    && (s.stopAll.Ranging? ==> s.stopAll.todo <= KeysOf(s.pool, s.stopAll.subs))
  }

  /** The lock is held by a thread inside ensureContainer, where only dispatches of a chat are. */
  ghost predicate LockOwned(s: State) {
    && (s.lock.Some? ==> s.lock.value in s.threads && s.threads[s.lock.value].key.Main?
                         && HoldsLock(s.threads[s.lock.value].phase))
    && (forall i :: i in s.threads && s.threads[i].key.Sub? ==> !WaitsForLock(s.threads[i].phase))
  }

  predicate WaitsForLock(p: Phase) { p.Calling? || p.Missed? || p.Checking? }

  lemma LockStep(s: State, e: Event, s': State)
    requires LockOwned(s) && Step(s, e) == Some(s')
    ensures LockOwned(s')
  {
    if IsJob(e) {
      JobFrame(s, e);
    } else if IsThread(e) {
      ThreadFrame(s, e.thread, e);
      LockThread(s, e, s');
    }
  }

  lemma LockThread(s: State, e: Event, s': State)
    requires LockOwned(s) && IsThread(e) && DoThread(s, e.thread, e) == Some(s')
    ensures s'.lock.Some? && s'.lock.value == e.thread ==>
      HoldsLock(s'.threads[e.thread].phase) && s'.threads[e.thread].key.Main?
    ensures s'.lock.Some? && s'.lock.value != e.thread ==> s'.lock == s.lock
    ensures s'.threads[e.thread].key.Sub? ==> !WaitsForLock(s'.threads[e.thread].phase)
  {
  }

  lemma TodoStep(s: State, e: Event, s': State)
    requires Step(s, e) == Some(s') && (s.stopAll.Ranging? ==> s.stopAll.todo <= KeysOf(s.pool, s.stopAll.subs))
    ensures s'.stopAll.Ranging? ==> s'.stopAll.todo <= KeysOf(s'.pool, s'.stopAll.subs)
  {
    if IsThread(e) {
      ThreadFrame(s, e.thread, e);
    }
  }

  lemma SoundStep(s: State, e: Event, s': State)
    requires Sound(s) && Step(s, e) == Some(s')
    ensures Sound(s')
  {
    StepInv(s, e, s');
    HandlesKeyedStep(s, e, s');
    JobsStep(s, e, s');
    LockStep(s, e, s');
    TodoStep(s, e, s');
  }

  lemma {:induction false} ExecSound(evs: seq<Event>)
    requires Exec(INIT, evs).Some?
    ensures Sound(Exec(INIT, evs).value)
  {
    if evs == [] {
    } else {
      var n := |evs| - 1;
      ExecSound(evs[..n]);
      SoundStep(Exec(INIT, evs[..n]).value, evs[n], Exec(INIT, evs).value);
    }
  }

  /**
   A quiet run from one state to another, in which only the given threads start containers, for the given
   keys.
   */
  ghost predicate Leads(who: set<(ThreadId, Key)>, s: State, evs: seq<Event>, t: State) {
    && Exec(s, evs) == Some(t)
    && forall n :: 0 <= n < |evs| ==> QuietEvent(evs[n]) && (evs[n].PodmanRun? ==> (evs[n].thread, evs[n].key) in who)
  }

  lemma LeadsFirst(who: set<(ThreadId, Key)>, s: State, e: Event, m: State, rest: seq<Event>, t: State)
    requires Step(s, e) == Some(m) && QuietEvent(e) && (e.PodmanRun? ==> (e.thread, e.key) in who)
    requires Leads(who, m, rest, t)
    ensures Leads(who, s, [e] + rest, t)
  {
    ExecStep(s, [], e);
    assert [] + [e] == [e];
    ExecConcat(s, [e], rest);
  }

  lemma LeadsBoth(who: set<(ThreadId, Key)>, s: State, xs: seq<Event>, m: State, ys: seq<Event>, t: State)
    requires Leads({}, s, xs, m) && Leads(who, m, ys, t)
    ensures Leads(who, s, xs + ys, t)
  {
    ExecConcat(s, xs, ys);
  }

  lemma {:induction false} UnusedFrom(used: set<nat>, k: nat) returns (n: nat)
    ensures n >= k && n !in used
  {
    if k !in used {
      n := k;
    } else {
      n := UnusedFrom(used - {k}, k + 1);
    }
  }

  // ---- Stops that run to their end --------------------------------------------------------------------

  /** What a stop of one container leaves alone. */
  ghost predicate OnlyStopped(s: State, key: Key, o: ContainerId, t: State) {
    && t.threads == s.threads && t.lock == s.lock && t.keyOf == s.keyOf
    && t.pool == s.pool - {key} && s.running - {o} <= t.running
  }

  function NextOfStop(s: State, j: JobId, job: Job): Event {
    match job.phase
    case Disarming => Disarm(j)
    case Stopping => PodmanStop(j, job.id, true)
    case Deleting => Delete(j, job.key, job.key in s.pool)
  }

  function StepsToDelete(p: JobPhase): nat {
    match p
    case Disarming => 2
    case Stopping => 1
    case Deleting => 0
  }

  lemma DeletionMoves(s: State, j: JobId) returns (m: State)
    requires j in s.jobs && s.jobs[j].phase.Deleting?
    ensures Step(s, NextOfStop(s, j, s.jobs[j])) == Some(m) && OnlyStopped(s, s.jobs[j].key, s.jobs[j].id, m)
    ensures m.jobs == s.jobs - {j} && m.stopAll == AfterDelete(s.stopAll, j, s.jobs[j].key) && m.running == s.running
  {
    m := Step(s, NextOfStop(s, j, s.jobs[j])).value;
  }

  lemma StopMoves(s: State, j: JobId) returns (m: State)
    requires j in s.jobs && !s.jobs[j].phase.Deleting?
    ensures Step(s, NextOfStop(s, j, s.jobs[j])) == Some(m)
    ensures m.threads == s.threads && m.lock == s.lock && m.keyOf == s.keyOf
    ensures m.pool == s.pool && m.stopAll == s.stopAll
    ensures s.running - {s.jobs[j].id} <= m.running
    ensures j in m.jobs && m.jobs[j].id == s.jobs[j].id && m.jobs[j].key == s.jobs[j].key
    ensures m.jobs - {j} == s.jobs - {j}
    ensures StepsToDelete(m.jobs[j].phase) < StepsToDelete(s.jobs[j].phase)
  {
    m := Step(s, NextOfStop(s, j, s.jobs[j])).value;
  }

  /** A pending stop that runs to its end. */
  lemma {:induction false} FinishStop(s: State, j: JobId) returns (rest: seq<Event>, t: State)
    requires Sound(s) && j in s.jobs
    ensures Leads({}, s, rest, t) && Sound(t) && OnlyStopped(s, s.jobs[j].key, s.jobs[j].id, t)
    ensures t.jobs == s.jobs - {j} && t.stopAll == AfterDelete(s.stopAll, j, s.jobs[j].key)
    ensures s.jobs[j].phase.Deleting? ==> t.running == s.running
    decreases StepsToDelete(s.jobs[j].phase)
  {
    var e, m := NextOfStop(s, j, s.jobs[j]), s;
    if s.jobs[j].phase.Deleting? {
      m := DeletionMoves(s, j);
      SoundStep(s, e, m);
      rest, t := [], m;
    } else {
      m := StopMoves(s, j);
      SoundStep(s, e, m);
      rest, t := FinishStop(m, j);
    }
    LeadsFirst({}, s, e, m, rest, t);
    rest := [e] + rest;
  }

  // ---- StopAll on its own ------------------------------------------------------------------------------

  ghost predicate Sweeping(s: State, subs: bool) {
    s.stopAll.Ranging? && s.stopAll.subs == subs && s.stopAll.job.None? && KeysOf(s.pool, subs) !! s.stopAll.seen
  }

  /** Threads stay, and running containers that are in no pool go on running. */
  ghost predicate SweptTo(s: State, t: State) {
    && t.threads == s.threads && t.lock == s.lock && t.keyOf == s.keyOf && t.pool.Values <= s.pool.Values
    && s.running - s.pool.Values <= t.running
  }

  lemma VisitOne(s: State, subs: bool, key: Key) returns (rest: seq<Event>, t: State)
    requires Sound(s) && Sweeping(s, subs) && key in KeysOf(s.pool, subs)
    ensures Leads({}, s, rest, t) && Sound(t) && Sweeping(t, subs) && SweptTo(s, t) && t.pool == s.pool - {key}
  {
    var j := UnusedFrom(s.jobs.Keys, 0);
    var m := Step(s, Visit(j, key)).value;
    SoundStep(s, Visit(j, key), m);
    rest, t := FinishStop(m, j);
    LeadsFirst({}, s, Visit(j, key), m, rest, t);
    rest := [Visit(j, key)] + rest;
  }

  lemma {:induction false} Sweep(s: State, subs: bool) returns (rest: seq<Event>, t: State)
    requires Sound(s) && Sweeping(s, subs)
    ensures Leads({}, s, rest, t) && Sound(t) && Sweeping(t, subs) && SweptTo(s, t)
    ensures KeysOf(t.pool, subs) == {} && KeysOf(t.pool, !subs) == KeysOf(s.pool, !subs) && t.stopAll.todo == {}
    decreases KeysOf(s.pool, subs)
  {
    if KeysOf(s.pool, subs) == {} {
      rest, t := [], s;
    } else {
      var key :| key in KeysOf(s.pool, subs);
      var first, m := VisitOne(s, subs, key);
      assert KeysOf(m.pool, subs) == KeysOf(s.pool, subs) - {key};
      rest, t := Sweep(m, subs);
      LeadsBoth({}, s, first, m, rest, t);
      rest := first + rest;
    }
  }

  /** Both ranges, up to the return. */
  lemma SweepAll(s: State) returns (rest: seq<Event>, t: State)
    requires Sound(s) && Sweeping(s, false)
    ensures Leads({}, s, rest, t) && Sound(t) && SweptTo(s, t) && t.pool == map[]
    ensures Sweeping(t, true) && t.stopAll.todo == {}
  {
    var first, m := Sweep(s, false);
    var next := Step(m, RangeSubs).value;
    SoundStep(m, RangeSubs, next);
    var second;
    second, t := Sweep(next, true);
    LeadsFirst({}, m, RangeSubs, next, second, t);
    LeadsBoth({}, s, first, m, [RangeSubs] + second, t);
    rest := first + ([RangeSubs] + second);
    assert t.pool == map[] by {
      forall k | k in t.pool ensures k in KeysOf(t.pool, k.Sub?) {}
    }
  }

  // ---- The three ways to leave something running ----------------------------------------------------

  /** A running container without an entry is not visited. */
  lemma LeaveOrphan(s: State, id: ContainerId) returns (rest: seq<Event>, t: State)
    requires Sound(s) && Sweeping(s, false) && id in s.running && !InPool(s, id)
    ensures Leads({}, s, rest, t) && Sweeping(t, true) && t.stopAll.todo == {} && t.running != {}
  {
    rest, t := SweepAll(s);
    assert id !in s.pool.Values;
    assert id in t.running;
  }

  /** The timer of another container of the key fires first and deletes the entry. */
  lemma RobByTimer(s: State, id: ContainerId, o: ContainerId) returns (rest: seq<Event>, t: State)
    requires Sound(s) && Sweeping(s, false) && id in s.running && Rival(s, id, o) && o in s.armed
    ensures Leads({}, s, rest, t) && Sound(t) && Sweeping(t, false) && id in t.running && !InPool(t, id)
  {
    var j := UnusedFrom(s.jobs.Keys, 0);
    var m := Step(s, Fire(o, j)).value;
    SoundStep(s, Fire(o, j), m);
    rest, t := FinishStop(m, j);
    LeadsFirst({}, s, Fire(o, j), m, rest, t);
    rest := [Fire(o, j)] + rest;
  }

  lemma RobByTouch(s: State, id: ContainerId, o: ContainerId, i: ThreadId) returns (rest: seq<Event>, t: State)
    requires Sound(s) && Sweeping(s, false) && id in s.running && Rival(s, id, o) && HeldUntouched(s, o, i)
    requires s.threads[i].phase == Ready(o)
    ensures Leads({}, s, rest, t) && Sound(t) && Sweeping(t, false) && id in t.running && !InPool(t, id)
  {
    var m := Step(s, Touch(i)).value;
    SoundStep(s, Touch(i), m);
    ThreadFrame(s, i, Touch(i));
    rest, t := RobByTimer(m, id, o);
    LeadsFirst({}, s, Touch(i), m, rest, t);
    rest := [Touch(i)] + rest;
  }

  lemma Rob(s: State, id: ContainerId, o: ContainerId) returns (rest: seq<Event>, t: State)
    requires Sound(s) && Sweeping(s, false) && id in s.running && Rival(s, id, o) && StopComing(s, o)
    ensures Leads({}, s, rest, t) && Sound(t) && Sweeping(t, false) && id in t.running && !InPool(t, id)
  {
    if o in s.armed {
      rest, t := RobByTimer(s, id, o);
    } else if j :| StoppedByJob(s, o, j) {
      assert JobOk(s, j);
      rest, t := FinishStop(s, j);
    } else {
      var i :| HeldUntouched(s, o, i);
      if s.threads[i].phase == Ready(o) {
        rest, t := RobByTouch(s, id, o, i);
      } else {
        var m := Step(s, Return(i)).value;
        SoundStep(s, Return(i), m);
        ThreadFrame(s, i, Return(i));
        rest, t := RobByTouch(m, id, o, i);
        LeadsFirst({}, s, Return(i), m, rest, t);
        rest := [Return(i)] + rest;
      }
    }
  }

  // ---- Dispatches that run to their end without starting a container --------------------------------

  /** The next event of a dispatch that gives up before podman run, before its input file or in its run. */
  function NextOfThread(s: State, i: ThreadId, t: Thread): Event {
    match t.phase
    case Calling => if t.key in s.pool then FastHit(i) else FastMiss(i)
    case Missed => Lock(i)
    case Checking => if t.key in s.pool then RecheckHit(i) else RecheckMiss(i)
    case Preparing => StartFail(i)
    case Up(_) => Register(i)
    case Watched(_) => Arm(i)
    case Timed(_) => Store(i)
    case Leaving(_) => Return(i)
    case Ready(_) => Touch(i)
    case Touched(_) => InputFail(i)
    case Executing(id, _) => ExecEnd(i, id, false)
    case _ => Return(i)
  }

  function StepsToOver(p: Phase): nat {
    match p
    case Calling => 11
    case Missed => 10
    case Checking => 9
    case Preparing => 8
    case Up(_) => 7
    case Watched(_) => 6
    case Timed(_) => 5
    case Leaving(_) => 4
    case Ready(_) => 3
    case Touched(_) => 2
    case Executing(_, _) => 1
    case _ => 0
  }

  /** Nobody else holds the lock. */
  predicate LockFreeFor(s: State, i: ThreadId) { s.lock.None? || s.lock == Some(i) }

  lemma ThreadCanMove(s: State, i: ThreadId)
    requires LockHeld(s) && LockOwned(s) && i in s.threads && s.threads[i].key.Main? && !Over(s.threads[i].phase)
    requires LockFreeFor(s, i)
    ensures var p := NextPhase(s, s.threads[i], NextOfThread(s, i, s.threads[i]));
      p.Some? && StepsToOver(p.value) < StepsToOver(s.threads[i].phase)
  {
  }

  lemma ThreadMoves(s: State, i: ThreadId) returns (m: State)
    requires Sound(s) && i in s.threads && s.threads[i].key.Main? && !Over(s.threads[i].phase) && LockFreeFor(s, i)
    ensures i in m.threads && m.threads == s.threads[i := m.threads[i]] && m.threads[i].key == s.threads[i].key
    ensures m.stopAll == s.stopAll && m.running == s.running && LockFreeFor(m, i)
    ensures Step(s, NextOfThread(s, i, s.threads[i])) == Some(m)
    ensures StepsToOver(m.threads[i].phase) < StepsToOver(s.threads[i].phase)
  {
    ThreadCanMove(s, i);
    var e := NextOfThread(s, i, s.threads[i]);
    m := DoThread(s, i, e).value;
    ThreadFrame(s, i, e);
    LockMoves(s, i, e, m);
  }

  lemma LockMoves(s: State, i: ThreadId, e: Event, m: State)
    requires IsThread(e) && e.thread == i && DoThread(s, i, e) == Some(m) && LockFreeFor(s, i)
    ensures LockFreeFor(m, i)
  {
  }

  lemma ThreadGoesOn(s: State, i: ThreadId) returns (rest: seq<Event>, m: State)
    requires Sound(s) && i in s.threads && s.threads[i].key.Main? && !Over(s.threads[i].phase) && LockFreeFor(s, i)
    ensures Leads({}, s, rest, m) && Sound(m) && LockFreeFor(m, i) && m.stopAll == s.stopAll && m.running == s.running
    ensures i in m.threads && m.threads == s.threads[i := m.threads[i]] && m.threads[i].key == s.threads[i].key
    ensures StepsToOver(m.threads[i].phase) < StepsToOver(s.threads[i].phase)
  {
    var e := NextOfThread(s, i, s.threads[i]);
    m := ThreadMoves(s, i);
    SoundStep(s, e, m);
    LeadsFirst({}, s, e, m, [], m);
    rest := [e] + [];
  }

  /** A dispatch comes to its end; no container is started or stopped. */
  lemma {:induction false} FinishThread(s: State, i: ThreadId) returns (rest: seq<Event>, t: State)
    requires Sound(s) && i in s.threads && s.threads[i].key.Main? && LockFreeFor(s, i)
    ensures Leads({}, s, rest, t) && Sound(t) && t.lock.None? && t.stopAll == s.stopAll && t.running == s.running
    ensures i in t.threads && t.threads == s.threads[i := t.threads[i]] && t.threads[i].key == s.threads[i].key
    ensures Over(t.threads[i].phase)
    decreases StepsToOver(s.threads[i].phase)
  {
    if Over(s.threads[i].phase) {
      rest, t := [], s;
      assert s.threads[i := s.threads[i]] == s.threads;
    } else {
      var first, m := ThreadGoesOn(s, i);
      rest, t := FinishThread(m, i);
      LeadsBoth({}, s, first, m, rest, t);
      rest := first + rest;
    }
  }

  /** The holder of the lock first, if it is not `i`. */
  lemma FreeLock(s: State, i: ThreadId) returns (rest: seq<Event>, t: State)
    requires Sound(s) && i in s.threads
    ensures Leads({}, s, rest, t) && Sound(t) && LockFreeFor(t, i) && t.stopAll == s.stopAll && t.running == s.running
    ensures i in t.threads && t.threads[i] == s.threads[i] && t.threads.Keys == s.threads.Keys
    ensures forall k :: k in s.threads ==> t.threads[k] == s.threads[k]
                                           || (t.threads[k].key == s.threads[k].key && Over(t.threads[k].phase))
  {
    if LockFreeFor(s, i) {
      rest, t := [], s;
    } else {
      rest, t := FinishThread(s, s.lock.value);
    }
  }

  /** StopAll has only begun. */
  ghost predicate Begun(s: State) { Sweeping(s, false) && s.stopAll.seen == {} }

  function InProgress(s: State): set<ThreadId> {
    set i | i in s.threads && s.threads[i].key.Main? && !Over(s.threads[i].phase)
  }

  /** Every dispatch in progress comes to its end. */
  lemma {:induction false} FinishAll(s: State) returns (rest: seq<Event>, t: State)
    requires Sound(s)
    ensures Leads({}, s, rest, t) && Sound(t) && InProgress(t) == {} && t.threads.Keys == s.threads.Keys
    ensures t.stopAll == s.stopAll && t.running == s.running
    decreases InProgress(s)
  {
    if InProgress(s) == {} {
      rest, t := [], s;
    } else {
      var i :| i in InProgress(s);
      var free, m := FreeLock(s, i);
      var first, next := FinishThread(m, i);
      assert i !in InProgress(next);
      assert InProgress(next) <= InProgress(m) <= InProgress(s);
      rest, t := FinishAll(next);
      LeadsBoth({}, s, free, m, first, next);
      LeadsBoth({}, s, free + first, next, rest, t);
      rest := free + first + rest;
    }
  }

  // ---- Starts ---------------------------------------------------------------------------------------------

  function NextOfStarter(p: Phase, i: ThreadId, key: Key, id: ContainerId): Event {
    match p
    case Calling => FastMiss(i)
    case Missed => Lock(i)
    case Checking => RecheckMiss(i)
    case _ => PodmanRun(i, key, id)
  }

  function StepsToStart(p: Phase): nat {
    match p
    case Calling => 3
    case Missed => 2
    case Checking => 1
    case _ => 0
  }

  /** A thread that may start a container starts one, once StopAll has emptied the pools. */
  lemma {:induction false} StartAnyway(s: State, i: ThreadId) returns (rest: seq<Event>, t: State)
    requires i in s.threads && MayStart(s.threads[i].phase) && s.pool == map[]
    requires HoldsLock(s.threads[i].phase) || s.lock.None?
    ensures Leads({(i, s.threads[i].key)}, s, rest, t) && t.stopAll == s.stopAll && t.pool == map[] && t.running != {}
    decreases StepsToStart(s.threads[i].phase)
  {
    var id := UnusedFrom(s.keyOf.Keys, 0);
    var e := NextOfStarter(s.threads[i].phase, i, s.threads[i].key, id);
    assert DoThread(s, i, e).Some?;
    var m := Step(s, e).value;
    ThreadFrame(s, i, e);
    if e.PodmanRun? {
      rest, t := [], m;
      assert id in t.running;
    } else {
      rest, t := StartAnyway(m, i);
    }
    LeadsFirst({(i, s.threads[i].key)}, s, e, m, rest, t);
    rest := [e] + rest;
  }

  lemma StartLate(s: State, i: ThreadId) returns (rest: seq<Event>, t: State)
    requires Sound(s) && Begun(s) && i in s.threads && MayStart(s.threads[i].phase)
    ensures Leads({(i, s.threads[i].key)}, s, rest, t)
    ensures Sweeping(t, true) && t.stopAll.todo == {} && t.running != {}
  {
    var first, m := FreeLock(s, i);
    var sweep, swept := SweepAll(m);
    var start;
    start, t := StartAnyway(swept, i);
    LeadsBoth({}, s, first, m, sweep, swept);
    LeadsBoth({(i, s.threads[i].key)}, s, first + sweep, swept, start, t);
    rest := first + sweep + start;
  }

  // ---- From a state that is not safe ----------------------------------------------------------------

  /** A running container that is not safe in the pool can still be running when StopAll is through. */
  lemma LeaveUnsafe(s: State, id: ContainerId) returns (rest: seq<Event>, t: State)
    requires Sound(s) && Begun(s) && id in s.running && !EntrySafe(s, id)
    ensures Leads({}, s, rest, t) && Sweeping(t, true) && t.stopAll.todo == {} && t.running != {}
  {
    if InPool(s, id) {
      var first, m;
      if o :| Rival(s, id, o) && StopComing(s, o) {
        first, m := Rob(s, id, o);
      } else {
        var j :| StoppedByJob(s, id, j) && s.jobs[j].phase.Deleting?;
        assert JobOk(s, j);
        first, m := FinishStop(s, j);
      }
      rest, t := LeaveOrphan(m, id);
      LeadsBoth({}, s, first, m, rest, t);
      rest := first + rest;
    } else {
      rest, t := LeaveOrphan(s, id);
    }
  }

  lemma SameSafety(s: State, m: State, id: ContainerId)
    requires Step(s, StopAllBegin) == Some(m)
    ensures EntrySafe(m, id) <==> EntrySafe(s, id)
  {
    forall o ensures StopComing(m, o) <==> StopComing(s, o) {
      SameThreats(s, m, o);
      SameThreats(m, s, o);
    }
    forall o ensures Rival(m, id, o) <==> Rival(s, id, o) {}
    forall j ensures StoppedByJob(m, id, j) <==> StoppedByJob(s, id, j) {}
  }

  lemma SameThreats(s: State, m: State, o: ContainerId)
    requires m.armed == s.armed && m.jobs == s.jobs && m.threads == s.threads
    ensures StopComing(s, o) ==> StopComing(m, o)
  {
    if j :| StoppedByJob(s, o, j) {
      assert StoppedByJob(m, o, j);
    }
    if i :| HeldUntouched(s, o, i) {
      assert HeldUntouched(m, o, i);
    }
  }

  /** From a state that is not safe, StopAll can return with something running. */
  lemma UnsafeLeaves(s: State) returns (during: seq<Event>)
    requires Sound(s) && s.stopAll.NotCalled? && !SafeToStop(s)
    ensures LeavesRunning(s, during)
  {
    var m := Step(s, StopAllBegin).value;
    SoundStep(s, StopAllBegin, m);
    var who, t := {}, m;
    if i :| i in s.threads && MayStart(s.threads[i].phase) {
      during, t := StartLate(m, i);
      who := {(i, m.threads[i].key)};
    } else {
      var id :| id in s.running && !EntrySafe(s, id);
      SameSafety(s, m, id);
      during, t := LeaveUnsafe(m, id);
    }
    ReturnsThen(who, s, m, during, t);
  }

  /** StopAll from its begin to its return. */
  function WholeStopAll(during: seq<Event>): seq<Event> { [StopAllBegin] + (during + [StopAllReturn]) }

  function AfterReturn(t: State): State
    requires t.stopAll.Ranging?
  {
    t.(stopAll := Returned(t.stopAll.early))
  }

  lemma WholeRun(who: set<(ThreadId, Key)>, s: State, m: State, during: seq<Event>, t: State)
    requires Step(s, StopAllBegin) == Some(m) && Leads(who, m, during, t)
    requires Sweeping(t, true) && t.stopAll.todo == {}
    ensures Leads(who, s, WholeStopAll(during), AfterReturn(t))
  {
    ExecStep(m, during, StopAllReturn);
    assert Leads(who, m, during + [StopAllReturn], AfterReturn(t));
    LeadsFirst(who, s, StopAllBegin, m, during + [StopAllReturn], AfterReturn(t));
  }

  lemma ReturnsThen(who: set<(ThreadId, Key)>, s: State, m: State, during: seq<Event>, t: State)
    requires Step(s, StopAllBegin) == Some(m) && Leads(who, m, during, t)
    requires Sweeping(t, true) && t.stopAll.todo == {} && t.running != {}
    ensures LeavesRunning(s, during)
  {
    WholeRun(who, s, m, during, t);
  }

  /**
   StopAll by itself, that is, when nobody dispatches or spawns meanwhile and its podman stops work: it is
   sure to leave nothing running if and only if every running container is safely in the pool (no stop of
   another container of its key is pending or can come from a timer, and no stop of its own has failed and is
   about to delete the entry), and no thread may still start one.
   */
  lemma StopAllLeavesNothingExactly(evs: seq<Event>, s: State)
    requires Exec(INIT, evs) == Some(s) && s.stopAll.NotCalled?
    ensures (forall during :: !LeavesRunning(s, during)) <==> SafeToStop(s)
  {
    if SafeToStop(s) {
      forall during ensures !LeavesRunning(s, during) {
        SafeLeavesNothing(evs, s, during);
      }
    } else {
      ExecSound(evs);
      var during := UnsafeLeaves(s);
    }
  }
}
