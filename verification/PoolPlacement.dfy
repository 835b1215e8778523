/**
 Where the running containers of a key are: in the pool, on their way into it, or deprived of their
 entry by the stop of another container.  `stopContainer` deletes by key alone, so this can happen,
 and it is the only way to two running containers of one chat when podman stop works.
 */
module PoolPlacement {
  import opened Prelude
  import opened PoolProtocol
  import opened PoolResults

  // ---- Entries deleted by the stop of another container -------------------------------------------

  /** The deletion hits the entry of a container other than the one that was stopped. */
  predicate Robs(s: State, e: Event) {
    e.Delete? && e.job in s.jobs && e.key in s.pool && s.pool[e.key] != s.jobs[e.job].id
  }

  /** The containers that lost their entry in this way. */
  function Robbed(evs: seq<Event>): set<ContainerId> {
    if evs == [] then {}
    else
      var before, e := Exec(INIT, evs[..|evs| - 1]), evs[|evs| - 1];
      Robbed(evs[..|evs| - 1]) + if before.Some? && Robs(before.value, e) then {before.value.pool[e.key]} else {}
  }

  lemma RobbedStep(evs: seq<Event>, e: Event)
    requires Exec(INIT, evs).Some?
    ensures Robbed(evs + [e]) == Robbed(evs) +
      if Robs(Exec(INIT, evs).value, e) then {Exec(INIT, evs).value.pool[e.key]} else {}
  {
    assert (evs + [e])[..|evs|] == evs;
  }

  lemma {:induction false} RobbedGrows(evs: seq<Event>, rest: seq<Event>)
    ensures Robbed(evs) <= Robbed(evs + rest)
  {
    if rest == [] {
      assert evs + rest == evs;
    } else {
      var n := |rest| - 1;
      RobbedGrows(evs, rest[..n]);
      assert (evs + rest)[..|evs + rest| - 1] == evs + rest[..n];
    }
  }

  // ---- Placement ------------------------------------------------------------------------------------

  ghost predicate InPool(s: State, id: ContainerId) {
    id in s.keyOf && s.keyOf[id] in s.pool && s.pool[s.keyOf[id]] == id
  }

  /** The thread has run podman for the container and not stored its handle yet. */
  ghost predicate StartedBy(s: State, id: ContainerId, i: ThreadId) {
    i in s.threads && MidStart(s.threads[i].phase) && IdIn(s.threads[i].phase) == Some(id)
  }

  ghost predicate BeingStarted(s: State, id: ContainerId) {
    exists i :: StartedBy(s, id, i)
  }

  ghost predicate Placed(s: State, robbed: set<ContainerId>, id: ContainerId) {
    InPool(s, id) || BeingStarted(s, id) || id in robbed || id in s.failedStops
  }

  /** A stop is for the container's own key, and it deletes the entry only after podman stop. */
  ghost predicate JobOk(s: State, j: JobId) {
    j in s.jobs ==>
      && s.jobs[j].id in s.keyOf && s.keyOf[s.jobs[j].id] == s.jobs[j].key
      && (s.jobs[j].phase.Deleting? ==> s.jobs[j].id !in s.running || s.jobs[j].id in s.failedStops)
  }

  ghost predicate JobsOk(s: State) { forall j :: JobOk(s, j) }

  lemma JobsStep(s: State, e: Event, s': State)
    requires HandlesKeyed(s) && JobsOk(s) && Step(s, e) == Some(s')
    ensures JobsOk(s')
  {
    forall j ensures JobOk(s', j) {
      assert JobOk(s, j);
      if IsThread(e) {
        ThreadFrame(s, e.thread, e);
      } else if IsJob(e) {
        JobFrame(s, e);
        JobStays(s, e, j);
      }
    }
  }

  lemma JobStays(s: State, e: Event, j: JobId)
    requires HandlesKeyed(s) && JobOk(s, j) && IsJob(e) && DoJob(s, e).Some?
    ensures JobOk(DoJob(s, e).value, j)
  {
    if e.Fire? || e.Visit? {
      JobBegins(s, e, j);
    } else {
      JobGoesOn(s, e, j);
    }
  }

  lemma JobBegins(s: State, e: Event, j: JobId)
    requires HandlesKeyed(s) && JobOk(s, j) && (e.Fire? || e.Visit?) && DoJob(s, e).Some?
    ensures JobOk(DoJob(s, e).value, j)
  {
  }

  lemma JobGoesOn(s: State, e: Event, j: JobId)
    requires JobOk(s, j) && IsJob(e) && !e.Fire? && !e.Visit? && DoJob(s, e).Some?
    ensures JobOk(DoJob(s, e).value, j)
  {
  }

  lemma PlacedStep(evs: seq<Event>, e: Event, s: State, s': State, id: ContainerId)
    requires Exec(INIT, evs) == Some(s) && Step(s, e) == Some(s') && id in s'.running
    requires Inv(s) && HandlesKeyed(s) && JobsOk(s)
    requires id in s.running ==> Placed(s, Robbed(evs), id)
    ensures Placed(s', Robbed(evs + [e]), id)
  {
    RobbedStep(evs, e);
    if id !in s.running {
      FreshIsStarting(s, e, s', id);
    } else if id in s.failedStops || id in Robbed(evs) {
      FailedStays(s, e, s', id);
    } else if i :| StartedBy(s, id, i) {
      StarterStays(s, e, s', id, i);
    } else {
      EntryStays(s, e, s', id);
    }
  }

  lemma FreshIsStarting(s: State, e: Event, s': State, id: ContainerId)
    requires Step(s, e) == Some(s') && id in s'.running && id !in s.running
    ensures BeingStarted(s', id)
  {
    assert !IsJob(e) by {
      if IsJob(e) { JobFrame(s, e); }
    }
    assert IsThread(e);
    ThreadFrame(s, e.thread, e);
    assert StartedBy(s', id, e.thread);
  }

  lemma FailedStays(s: State, e: Event, s': State, id: ContainerId)
    requires Step(s, e) == Some(s')
    ensures id in s.failedStops ==> id in s'.failedStops
  {
    if IsThread(e) { ThreadFrame(s, e.thread, e); }
  }

  lemma StarterStays(s: State, e: Event, s': State, id: ContainerId, i: ThreadId)
    requires HandlesKeyed(s) && Step(s, e) == Some(s') && StartedBy(s, id, i)
    ensures StartedBy(s', id, i) || InPool(s', id)
  {
    assert ThreadKeyed(s, i);
    ThreadStays(s, e, s', i);
    if s'.threads[i] != s.threads[i] {
      ThreadFrame(s, i, e);
    }
  }

  lemma EntryStays(s: State, e: Event, s': State, id: ContainerId)
    requires Inv(s) && JobsOk(s) && Step(s, e) == Some(s') && InPool(s, id) && id in s'.running
    ensures InPool(s', id) || id in s'.failedStops || (Robs(s, e) && s.pool[e.key] == id)
  {
    var key := s.keyOf[id];
    if IsThread(e) {
      ThreadFrame(s, e.thread, e);
      if e.Store? { assert s.threads[e.thread].key != key; }
    } else if IsJob(e) {
      JobFrame(s, e);
      if e.Delete? && e.key == key {
        assert JobOk(s, e.job);
      }
    }
  }

  /**
   In every reachable state a running container is the pool entry of its key, or mid-start, or it lost
   its entry to the stop of another container, or podman stop failed on it.
   */
  lemma {:induction false} RunningIsPlaced(evs: seq<Event>)
    requires Exec(INIT, evs).Some?
    ensures forall id :: id in Exec(INIT, evs).value.running ==> Placed(Exec(INIT, evs).value, Robbed(evs), id)
    ensures JobsOk(Exec(INIT, evs).value)
  {
    if evs == [] {
    } else {
      var n := |evs| - 1;
      var s, s' := Exec(INIT, evs[..n]).value, Exec(INIT, evs).value;
      RunningIsPlaced(evs[..n]);
      ExecInv(evs[..n]);
      HandleBelongsToKey(evs[..n]);
      JobsStep(s, evs[n], s');
      forall id | id in s'.running ensures Placed(s', Robbed(evs), id) {
        PlacedStep(evs[..n], evs[n], s, s', id);
        assert evs == evs[..n] + [evs[n]];
      }
    }
  }

  // ---- How many containers of a key run ------------------------------------------------------------

  /**
   At most one container of a chat or sub-agent runs, not counting those whose entry was deleted by the
   stop of another container and those on which podman stop failed.
   */
  lemma AtMostOneRuns(evs: seq<Event>, a: ContainerId, b: ContainerId)
    requires Exec(INIT, evs).Some?
    requires var s := Exec(INIT, evs).value;
      && a in s.running && b in s.running && a in s.keyOf && b in s.keyOf && s.keyOf[a] == s.keyOf[b]
      && a !in Robbed(evs) + s.failedStops && b !in Robbed(evs) + s.failedStops
    ensures a == b
  {
    var s := Exec(INIT, evs).value;
    RunningIsPlaced(evs);
    ExecInv(evs);
    HandleBelongsToKey(evs);
    if i :| StartedBy(s, a, i) {
      NoOtherPlace(s, a, i, b);
    } else if j :| StartedBy(s, b, j) {
      NoOtherPlace(s, b, j, a);
    }
  }

  lemma NoOtherPlace(s: State, a: ContainerId, i: ThreadId, b: ContainerId)
    requires Inv(s) && HandlesKeyed(s) && StartedBy(s, a, i) && a in s.keyOf && b in s.keyOf && s.keyOf[a] == s.keyOf[b]
    requires InPool(s, b) || BeingStarted(s, b)
    ensures a == b
  {
    assert ThreadKeyed(s, i);
    if j :| StartedBy(s, b, j) {
      assert ThreadKeyed(s, j);
      SameStarter(s, i, j);
    }
  }

  /**
   While no entry of the key was deleted by the stop of another container and no podman stop failed on one of
   its containers, at most one runs.
   */
  lemma AtMostOneOfKey(evs: seq<Event>, key: Key)
    requires Exec(INIT, evs).Some?
    requires var s := Exec(INIT, evs).value;
      forall id :: id in Robbed(evs) + s.failedStops ==> !(id in s.keyOf && s.keyOf[id] == key)
    ensures var s := Exec(INIT, evs).value;
      |set id | id in s.running && id in s.keyOf && s.keyOf[id] == key| <= 1
  {
    var s := Exec(INIT, evs).value;
    var here := set id | id in s.running && id in s.keyOf && s.keyOf[id] == key;
    if here != {} {
      var a :| a in here;
      forall b | b in here ensures b == a {
        AtMostOneRuns(evs, a, b);
      }
      assert here == {a};
    }
  }
}
