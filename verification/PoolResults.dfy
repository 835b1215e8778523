/** What every run of the container pool guarantees. */
module PoolResults {
  import opened Prelude
  import opened PoolProtocol

  // ---- Conservation: starts, entries and deletions --------------------------------------------

  /** Successful podman runs for a key. */
  function Starts(evs: seq<Event>, key: Key): nat {
    if evs == [] then 0
    else
      var e := evs[|evs| - 1];
      Starts(evs[..|evs| - 1], key) + if e.PodmanRun? && e.key == key then 1 else 0
  }

  /** Deletions that found an entry of a key. */
  function Deletions(evs: seq<Event>, key: Key): nat {
    if evs == [] then 0
    else
      var e := evs[|evs| - 1];
      Deletions(evs[..|evs| - 1], key) + if e.Delete? && e.key == key && e.hit then 1 else 0
  }

  ghost predicate IsStarting(s: State, key: Key, i: ThreadId) {
    i in s.threads && s.threads[i].key == key && MidStart(s.threads[i].phase)
  }

  /** 1 when a started container of the key has not reached the pool yet. */
  ghost function Starting(s: State, key: Key): nat {
    if exists i :: IsStarting(s, key, i) then 1 else 0
  }

  function Pooled(s: State, key: Key): nat { if key in s.pool then 1 else 0 }

  /**
   Under every interleaving of dispatches, timers, timer resets and StopAll: the containers started
   for a key are its effective pool deletions, plus its entry, plus the one being started.  No start
   is lost and no entry is overwritten.
   */
  lemma {:induction false} PoolConservation(evs: seq<Event>, key: Key)
    requires Exec(INIT, evs).Some?
    ensures
      var s := Exec(INIT, evs).value;
      Starts(evs, key) == Deletions(evs, key) + Pooled(s, key) + Starting(s, key)
  {
    if evs == [] {
    } else {
      var n := |evs| - 1;
      PoolConservation(evs[..n], key);
      ExecInv(evs[..n]);
      ConservationStep(Exec(INIT, evs[..n]).value, evs[n], Exec(INIT, evs).value, key);
    }
  }

  lemma ConservationStep(s: State, e: Event, s': State, key: Key)
    requires Inv(s) && Step(s, e) == Some(s')
    ensures
      Pooled(s', key) + Starting(s', key) + (if e.Delete? && e.key == key && e.hit then 1 else 0)
      == Pooled(s, key) + Starting(s, key) + if e.PodmanRun? && e.key == key then 1 else 0
  {
    if IsThread(e) {
      StartingStep(s, e, s', key);
    } else {
      if IsJob(e) { JobFrame(s, e); }
      NoThreadMoves(s, e, s', key);
    }
  }

  lemma NoThreadMoves(s: State, e: Event, s': State, key: Key)
    requires Step(s, e) == Some(s') && !IsThread(e)
    ensures Starting(s', key) == Starting(s, key)
  {
    assert forall i :: IsStarting(s', key, i) <==> IsStarting(s, key, i) by {
      if IsJob(e) { JobFrame(s, e); }
    }
  }

  lemma StartingStep(s: State, e: Event, s': State, key: Key)
    requires Inv(s) && IsThread(e) && DoThread(s, e.thread, e) == Some(s')
    ensures Pooled(s', key) + Starting(s', key)
         == Pooled(s, key) + Starting(s, key) + if e.PodmanRun? && e.key == key then 1 else 0
  {
    var i := e.thread;
    ThreadFrame(s, i, e);
    EntersAndLeaves(s, e, s');
    assert forall j :: j != i ==> (IsStarting(s', key, j) <==> IsStarting(s, key, j));
    if s.threads[i].key == key && e.PodmanRun? {
      EnterStart(s, s', key, i);
    } else if s.threads[i].key == key && e.Store? {
      LeaveStart(s, s', key, i);
    } else {
      assert IsStarting(s', key, i) <==> IsStarting(s, key, i);
    }
  }

  /** A thread enters the start with podman run and leaves it with the store. */
  lemma EntersAndLeaves(s: State, e: Event, s': State)
    requires IsThread(e) && DoThread(s, e.thread, e) == Some(s')
    ensures var i := e.thread;
      && i in s.threads && i in s'.threads
      && (MidStart(s'.threads[i].phase) && !MidStart(s.threads[i].phase) <==> e.PodmanRun?)
      && (MidStart(s.threads[i].phase) && !MidStart(s'.threads[i].phase) <==> e.Store?)
  {
  }

  lemma EnterStart(s: State, s': State, key: Key, i: ThreadId)
    requires Inv(s) && i in s.threads && s.threads[i].key == key && s.threads[i].phase.Preparing?
    requires forall j :: j != i ==> (IsStarting(s', key, j) <==> IsStarting(s, key, j))
    requires IsStarting(s', key, i)
    ensures Starting(s, key) == 0 && Starting(s', key) == 1
  {
    OnlyStarter(s, key, i);
  }

  lemma LeaveStart(s: State, s': State, key: Key, i: ThreadId)
    requires Inv(s) && IsStarting(s, key, i) && !IsStarting(s', key, i)
    requires forall j :: j != i ==> (IsStarting(s', key, j) <==> IsStarting(s, key, j))
    ensures Starting(s, key) == 1 && Starting(s', key) == 0 && key !in s.pool
  {
    OnlyStarter(s, key, i);
  }

  lemma OnlyStarter(s: State, key: Key, i: ThreadId)
    requires Inv(s) && i in s.threads && s.threads[i].key == key && BeforeStore(s.threads[i].phase)
    ensures key !in s.pool && forall j :: IsStarting(s, key, j) ==> j == i
  {
    forall j | IsStarting(s, key, j) ensures j == i {
      SameStarter(s, i, j);
    }
  }

  // ---- The handle a caller gets -----------------------------------------------------------------

  function GotHandle(p: Phase): Option<ContainerId> {
    match p
    case Leaving(got) => got
    case Ready(id) => Some(id)
    case Touched(id) => Some(id)
    case Executing(id, _) => Some(id)
    case _ => None
  }

  /** Inside ensureContainer, or a start of a sub-agent. */
  predicate InCall(p: Phase) { p.Calling? || p.Missed? || HoldsLock(p) }

  /** After the events of `evs`, thread `i` was inside its call and the pool entry of `key` was `id`. */
  ghost predicate EntryDuringCall(evs: seq<Event>, i: ThreadId, key: Key, id: ContainerId) {
    && Exec(INIT, evs).Some?
    && var s := Exec(INIT, evs).value;
    && i in s.threads && s.threads[i].key == key && InCall(s.threads[i].phase)
    && key in s.pool && s.pool[key] == id
  }

  /** A handle that ensureContainer returns was the pool entry of its chat at some moment of that call. */
  lemma {:induction false} ReturnedHandleWasPooled(evs: seq<Event>, i: ThreadId, id: ContainerId) returns (m: nat)
    requires Exec(INIT, evs).Some? && i in Exec(INIT, evs).value.threads
    requires GotHandle(Exec(INIT, evs).value.threads[i].phase) == Some(id)
    ensures m <= |evs| && EntryDuringCall(evs[..m], i, Exec(INIT, evs).value.threads[i].key, id)
  {
    var n := |evs| - 1;
    var before, after, e := Exec(INIT, evs[..n]).value, Exec(INIT, evs).value, evs[n];
    assert evs[..|evs|] == evs;
    if i in before.threads && GotHandle(before.threads[i].phase) == Some(id) {
      m := ReturnedHandleWasPooled(evs[..n], i, id);
      ThreadStays(before, e, after, i);
      assert evs[..n][..m] == evs[..m];
    } else {
      HandleComesFromPool(before, e, after, i, id);
      m := if e.Store? then |evs| else n;
    }
  }

  lemma HandleComesFromPool(s: State, e: Event, s': State, i: ThreadId, id: ContainerId)
    requires Step(s, e) == Some(s') && i in s'.threads && GotHandle(s'.threads[i].phase) == Some(id)
    requires i in s.threads ==> GotHandle(s.threads[i].phase) != Some(id)
    ensures i in s.threads && s.threads[i].key == s'.threads[i].key
    ensures InCall(if e.Store? then s'.threads[i].phase else s.threads[i].phase)
    ensures var key := s.threads[i].key;
            if e.Store? then key in s'.pool && s'.pool[key] == id else key in s.pool && s.pool[key] == id
  {
    assert i in s.threads && IsThread(e) && e.thread == i by {
      if i in s.threads { ThreadStays(s, e, s', i); }
    }
    ComesFromPool(s, e, s', id);
  }

  lemma ComesFromPool(s: State, e: Event, s': State, id: ContainerId)
    requires IsThread(e) && DoThread(s, e.thread, e) == Some(s') && GotHandle(s'.threads[e.thread].phase) == Some(id)
    requires GotHandle(s.threads[e.thread].phase) != Some(id)
    ensures InCall(if e.Store? then s'.threads[e.thread].phase else s.threads[e.thread].phase)
    ensures s'.threads[e.thread].key == s.threads[e.thread].key
    ensures var key := s.threads[e.thread].key;
            if e.Store? then key in s'.pool && s'.pool[key] == id else key in s.pool && s.pool[key] == id
  {
  }

  /** After the events of `evs`, thread `i` was before its first load and there was no entry for its key. */
  ghost predicate AbsentAtCall(evs: seq<Event>, i: ThreadId) {
    && Exec(INIT, evs).Some? && i in Exec(INIT, evs).value.threads
    && var s := Exec(INIT, evs).value;
    s.threads[i].phase.Calling? && s.threads[i].key !in s.pool
  }

  /** A dispatch that waits for startMu or holds it found no entry on the fast path: a warm chat takes no lock. */
  lemma {:induction false} LockedCallMissed(evs: seq<Event>, i: ThreadId) returns (m: nat)
    requires Exec(INIT, evs).Some? && i in Exec(INIT, evs).value.threads
    requires var t := Exec(INIT, evs).value.threads[i]; t.key.Main? && (t.phase.Missed? || HoldsLock(t.phase))
    ensures m <= |evs| && AbsentAtCall(evs[..m], i)
  {
    var n := |evs| - 1;
    var before, after := Exec(INIT, evs[..n]).value, Exec(INIT, evs).value;
    if i in before.threads && (before.threads[i].phase.Missed? || HoldsLock(before.threads[i].phase)) {
      ThreadStays(before, evs[n], after, i);
      m := LockedCallMissed(evs[..n], i);
      assert evs[..n][..m] == evs[..m];
    } else {
      LocksAfterMiss(before, evs[n], after, i);
      m := n;
    }
  }

  lemma LocksAfterMiss(s: State, e: Event, s': State, i: ThreadId)
    requires Step(s, e) == Some(s') && i in s'.threads && s'.threads[i].key.Main?
    requires s'.threads[i].phase.Missed? || HoldsLock(s'.threads[i].phase)
    requires i in s.threads ==> !s.threads[i].phase.Missed? && !HoldsLock(s.threads[i].phase)
    ensures i in s.threads && s.threads[i].phase.Calling? && s.threads[i].key !in s.pool
  {
    if i in s.threads {
      ThreadStays(s, e, s', i);
    } else {
      ThreadBegins(s, e, s', i);
    }
  }

  // ---- No container without a stopper ---------------------------------------------------------

  ghost predicate HeldByStarter(s: State, id: ContainerId, i: ThreadId) {
    i in s.threads && (s.threads[i].phase == Up(id) || s.threads[i].phase == Watched(id))
  }

  ghost predicate PendingStop(s: State, id: ContainerId, j: JobId) {
    j in s.jobs && s.jobs[j].id == id && !s.jobs[j].phase.Deleting?
  }

  /** Somebody will still stop this container, unless podman already failed to. */
  ghost predicate Covered(s: State, id: ContainerId) {
    || (exists i :: HeldByStarter(s, id, i))
    || id in s.armed
    || (exists j :: PendingStop(s, id, j))
    || id in s.failedStops
  }

  /**
   In every reachable state each running container is held by the call that starts it, or its own
   timer is armed, or a stop of that same container is pending, or podman stop has failed on it.
   */
  lemma {:induction false} NoContainerWithoutStopper(evs: seq<Event>)
    requires Exec(INIT, evs).Some?
    ensures forall id :: id in Exec(INIT, evs).value.running ==> Covered(Exec(INIT, evs).value, id)
  {
    if evs == [] {
    } else {
      var n := |evs| - 1;
      NoContainerWithoutStopper(evs[..n]);
      var s, s' := Exec(INIT, evs[..n]).value, Exec(INIT, evs).value;
      forall id | id in s'.running ensures Covered(s', id) {
        if evs[n].PodmanRun? && evs[n].id == id {
          assert HeldByStarter(s', id, evs[n].thread);
        } else {
          StaysCovered(s, evs[n], s', id);
        }
      }
    }
  }

  lemma StaysCovered(s: State, e: Event, s': State, id: ContainerId)
    requires Step(s, e) == Some(s') && id in s'.running && Covered(s, id)
    ensures Covered(s', id)
  {
    if id in s.failedStops {
      assert id in s'.failedStops;
    } else if i :| HeldByStarter(s, id, i) {
      StarterStaysCovered(s, e, s', id, i);
    } else if id in s.armed {
      ArmedStaysCovered(s, e, s', id);
    } else {
      var j :| PendingStop(s, id, j);
      PendingStaysCovered(s, e, s', id, j);
    }
  }

  lemma StarterStaysCovered(s: State, e: Event, s': State, id: ContainerId, i: ThreadId)
    requires Step(s, e) == Some(s') && HeldByStarter(s, id, i)
    ensures Covered(s', id)
  {
    ThreadStays(s, e, s', i);
    if s'.threads[i] == s.threads[i] || s.threads[i].phase.Up? {
      assert HeldByStarter(s', id, i);
    } else {
      assert e.Arm? && id in s'.armed;
    }
  }

  lemma ArmedStaysCovered(s: State, e: Event, s': State, id: ContainerId)
    requires Step(s, e) == Some(s') && id in s.armed
    ensures Covered(s', id)
  {
    if e.Fire? && e.id == id {
      assert PendingStop(s', id, e.job);
    } else if e.Disarm? && s.jobs[e.job].id == id {
      assert PendingStop(s', id, e.job);
    } else {
      assert id in s'.armed;
    }
  }

  lemma PendingStaysCovered(s: State, e: Event, s': State, id: ContainerId, j: JobId)
    requires Step(s, e) == Some(s') && PendingStop(s, id, j) && id in s'.running
    ensures Covered(s', id)
  {
    if e.PodmanStop? && e.job == j {
      assert id in s'.failedStops;
    } else {
      if IsThread(e) { ThreadFrame(s, e.thread, e); }
      assert PendingStop(s', id, j);
    }
  }

  // ---- A handle belongs to one key ---------------------------------------------------------------

  function IdIn(p: Phase): Option<ContainerId> {
    match p
    case Up(id) => Some(id)
    case Watched(id) => Some(id)
    case Timed(id) => Some(id)
    case _ => GotHandle(p)
  }

  ghost predicate HandlesKeyed(s: State) {
    && (forall i :: ThreadKeyed(s, i))
    && (forall k :: k in s.pool ==> s.pool[k] in s.keyOf && s.keyOf[s.pool[k]] == k)
  }

  /** The container a thread works with was started for that thread's key. */
  lemma {:induction false} HandleBelongsToKey(evs: seq<Event>)
    requires Exec(INIT, evs).Some?
    ensures HandlesKeyed(Exec(INIT, evs).value)
  {
    if evs == [] {
    } else {
      var n := |evs| - 1;
      HandleBelongsToKey(evs[..n]);
      HandlesKeyedStep(Exec(INIT, evs[..n]).value, evs[n], Exec(INIT, evs).value);
    }
  }

  ghost predicate ThreadKeyed(s: State, i: ThreadId) {
    i in s.threads && IdIn(s.threads[i].phase).Some? ==>
      IdIn(s.threads[i].phase).value in s.keyOf && s.keyOf[IdIn(s.threads[i].phase).value] == s.threads[i].key
  }

  /** The containers known so far keep their key, and an entry is old or was just stored. */
  lemma KeysStay(s: State, e: Event, s': State)
    requires Step(s, e) == Some(s')
    ensures forall id :: id in s.keyOf ==> id in s'.keyOf && s'.keyOf[id] == s.keyOf[id]
    ensures forall k :: k in s'.pool ==>
      (k in s.pool && s'.pool[k] == s.pool[k])
      || (e.Store? && e.thread in s.threads
          && k == s.threads[e.thread].key && s.threads[e.thread].phase == Timed(s'.pool[k]))
  {
    if IsJob(e) {
      JobFrame(s, e);
    } else if IsThread(e) {
      ThreadFrame(s, e.thread, e);
    }
  }

  lemma MoverKeyed(s: State, e: Event, s': State)
    requires IsThread(e) && DoThread(s, e.thread, e) == Some(s')
    requires ThreadKeyed(s, e.thread) && e.thread in s.threads
    requires s.threads[e.thread].key in s.pool ==>
      var id := s.pool[s.threads[e.thread].key]; id in s.keyOf && s.keyOf[id] == s.threads[e.thread].key
    ensures ThreadKeyed(s', e.thread)
  {
  }

  lemma ThreadKeyedStep(s: State, e: Event, s': State, i: ThreadId)
    requires HandlesKeyed(s) && Step(s, e) == Some(s')
    ensures ThreadKeyed(s', i)
  {
    assert ThreadKeyed(s, i);
    KeysStay(s, e, s');
    if IsJob(e) {
      JobFrame(s, e);
    } else if IsThread(e) && e.thread == i {
      MoverKeyed(s, e, s');
    } else if i in s.threads {
      assert s'.threads[i] == s.threads[i];
    }
  }

  lemma HandlesKeyedStep(s: State, e: Event, s': State)
    requires HandlesKeyed(s) && Step(s, e) == Some(s')
    ensures HandlesKeyed(s')
  {
    KeysStay(s, e, s');
    forall i ensures ThreadKeyed(s', i) {
      ThreadKeyedStep(s, e, s', i);
    }
    forall k | k in s'.pool ensures s'.pool[k] in s'.keyOf && s'.keyOf[s'.pool[k]] == k {
      if e.Store? && e.thread in s.threads && s.threads[e.thread].phase == Timed(s'.pool[k]) {
        assert ThreadKeyed(s, e.thread);
      }
    }
  }

  // ---- The continue flag -------------------------------------------------------------------------

  /** Some OpenCode run on this handle has succeeded. */
  ghost predicate Succeeded(evs: seq<Event>, id: ContainerId) {
    exists m :: 0 <= m < |evs| && evs[m].ExecEnd? && evs[m].id == id && evs[m].ok
  }

  lemma OneMoreEvent(evs: seq<Event>, id: ContainerId)
    requires evs != []
    ensures var n := |evs| - 1;
      Succeeded(evs, id) <==> Succeeded(evs[..n], id) || (evs[n].ExecEnd? && evs[n].id == id && evs[n].ok)
  {
    var n := |evs| - 1;
    forall m | 0 <= m < n ensures evs[..n][m] == evs[m] {}
    if Succeeded(evs[..n], id) {
      var m :| 0 <= m < n && evs[..n][m].ExecEnd? && evs[..n][m].id == id && evs[..n][m].ok;
      assert evs[m] == evs[..n][m];
    }
  }

  lemma {:induction false} SessionIffSucceeded(evs: seq<Event>, id: ContainerId)
    requires Exec(INIT, evs).Some?
    ensures id in Exec(INIT, evs).value.sessions <==> Succeeded(evs, id)
  {
    if evs == [] {
    } else {
      var n := |evs| - 1;
      SessionIffSucceeded(evs[..n], id);
      OneMoreEvent(evs, id);
      SessionStep(Exec(INIT, evs[..n]).value, evs[n], Exec(INIT, evs).value, id);
    }
  }

  lemma SessionStep(s: State, e: Event, s': State, id: ContainerId)
    requires Step(s, e) == Some(s')
    ensures id in s'.sessions <==> id in s.sessions || (e.ExecEnd? && e.id == id && e.ok)
  {
    if IsJob(e) { JobFrame(s, e); }
  }
}
