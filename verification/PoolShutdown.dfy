/**
 What StopAll leaves running.  A container that was in the pool when StopAll was called runs when it
 returns only if the stop of another container deleted its entry, or podman stop failed on it.
 */
module PoolShutdown {
  import opened Prelude
  import opened PoolProtocol
  import opened PoolResults
  import opened PoolPlacement

  // ---- A container that has ended stays ended ----------------------------------------------------------

  lemma RunningStep(s: State, e: Event, s': State)
    requires JobsOk(s) && Step(s, e) == Some(s')
    ensures s'.running == s.running + (if e.PodmanRun? then {e.id} else {})
                          - if (e.PodmanStop? && e.ok) || e.Die? then {e.id} else {}
    ensures s'.keyOf.Keys == s.keyOf.Keys + if e.PodmanRun? then {e.id} else {}
    ensures e.PodmanRun? ==> e.id !in s.keyOf
    ensures e.PodmanStop? ==> e.id in s.keyOf
    ensures e.Die? ==> e.id in s.running
  {
    if IsThread(e) {
      ThreadFrame(s, e.thread, e);
    } else if e.PodmanStop? {
      assert JobOk(s, e.job);
    } else if IsJob(e) {
      JobFrame(s, e);
    }
  }

  /** A container that is known stays known, and once it has ended it does not run again. */
  lemma {:induction false} EndedStays(evs: seq<Event>, s: State, rest: seq<Event>, id: ContainerId)
    requires Exec(INIT, evs) == Some(s) && Exec(s, rest).Some? && id in s.keyOf
    ensures var s' := Exec(s, rest).value; id in s'.keyOf && (id in s'.running ==> id in s.running)
  {
    if rest == [] {
    } else {
      var n := |rest| - 1;
      EndedStays(evs, s, rest[..n], id);
      ExecConcat(INIT, evs, rest[..n]);
      RunningIsPlaced(evs + rest[..n]);
      RunningStep(Exec(s, rest[..n]).value, rest[n], Exec(s, rest).value);
    }
  }

  // ---- The two ranges of StopAll --------------------------------------------------------------------

  /** StopAll has not passed the key yet. */
  predicate Ahead(s: State, key: Key) {
    s.stopAll.Ranging?
    && ((!s.stopAll.subs && key.Sub?)
        || (s.stopAll.subs == key.Sub?
            && (key in s.stopAll.todo
                || (s.stopAll.job.Some? && s.stopAll.job.value in s.jobs && s.jobs[s.stopAll.job.value].key == key))))
  }

  function Early(s: State): set<ContainerId> { if s.stopAll.NotCalled? then {} else s.stopAll.early }

  /** A container pooled when StopAll began is not being started, and while it is pooled StopAll has not passed it. */
  ghost predicate EarlyOk(s: State, id: ContainerId) {
    id in Early(s) ==> id in s.keyOf && !BeingStarted(s, id) && (InPool(s, id) ==> Ahead(s, s.keyOf[id]))
  }

  ghost predicate AllEarlyOk(s: State) { forall id :: EarlyOk(s, id) }

  lemma EarlyThread(s: State, e: Event, s': State, id: ContainerId)
    requires HandlesKeyed(s) && EarlyOk(s, id) && IsThread(e) && DoThread(s, e.thread, e) == Some(s')
    ensures EarlyOk(s', id)
  {
    ThreadFrame(s, e.thread, e);
    forall i | StartedBy(s', id, i) ensures StartedBy(s, id, i) || id !in s.keyOf {
      StartComesFrom(s, e, s', id, i);
    }
    if e.Store? {
      assert StartedBy(s, s.threads[e.thread].phase.id, e.thread);
    }
  }

  lemma StartComesFrom(s: State, e: Event, s': State, id: ContainerId, i: ThreadId)
    requires IsThread(e) && DoThread(s, e.thread, e) == Some(s') && StartedBy(s', id, i)
    ensures StartedBy(s, id, i) || (e.PodmanRun? && e.id == id && id !in s.keyOf)
  {
    ThreadFrame(s, e.thread, e);
  }

  lemma EarlyJob(s: State, e: Event, s': State, id: ContainerId)
    requires Inv(s) && HandlesKeyed(s) && EarlyOk(s, id) && IsJob(e) && DoJob(s, e) == Some(s')
    ensures EarlyOk(s', id)
  {
    JobFrame(s, e);
    assert BeingStarted(s', id) <==> BeingStarted(s, id) by {
      assert forall i :: StartedBy(s', id, i) <==> StartedBy(s, id, i);
    }
    if e.StopAllBegin? {
      EarlyBegin(s, s', id);
    } else {
      EarlyRange(s, e, s', id);
    }
  }

  lemma EarlyBegin(s: State, s': State, id: ContainerId)
    requires Inv(s) && HandlesKeyed(s) && DoStopAll(s, StopAllBegin) == Some(s')
    ensures EarlyOk(s', id)
  {
    if id in s.pool.Values {
      var key :| key in s.pool && s.pool[key] == id;
      forall i ensures !StartedBy(s', id, i) {
        PooledIsStored(s, key, i);
      }
    }
  }

  lemma PooledIsStored(s: State, key: Key, i: ThreadId)
    requires Inv(s) && HandlesKeyed(s) && key in s.pool
    ensures !StartedBy(s, s.pool[key], i)
  {
    assert ThreadKeyed(s, i);
  }

  lemma EarlyRange(s: State, e: Event, s': State, id: ContainerId)
    requires EarlyOk(s, id) && IsJob(e) && !e.StopAllBegin? && DoJob(s, e) == Some(s')
    requires BeingStarted(s', id) <==> BeingStarted(s, id)
    ensures EarlyOk(s', id)
  {
  }

  lemma {:induction false} EarlyAhead(evs: seq<Event>)
    requires Exec(INIT, evs).Some?
    ensures AllEarlyOk(Exec(INIT, evs).value)
  {
    if evs == [] {
    } else {
      var n := |evs| - 1;
      var s, e, s' := Exec(INIT, evs[..n]).value, evs[n], Exec(INIT, evs).value;
      EarlyAhead(evs[..n]);
      ExecInv(evs[..n]);
      HandleBelongsToKey(evs[..n]);
      forall id ensures EarlyOk(s', id) {
        assert EarlyOk(s, id);
        if IsThread(e) {
          EarlyThread(s, e, s', id);
        } else if IsJob(e) {
          EarlyJob(s, e, s', id);
        } else {
          assert forall i :: StartedBy(s', id, i) ==> StartedBy(s, id, i);
        }
      }
    }
  }

  /** A container pooled when StopAll began that runs after it returned lost its entry or resisted podman stop. */
  lemma EarlyLeftBehind(evs: seq<Event>, id: ContainerId)
    requires Exec(INIT, evs).Some? && Exec(INIT, evs).value.stopAll.Returned?
    requires var s := Exec(INIT, evs).value; id in s.running && id in Early(s)
    ensures id in Robbed(evs) || id in Exec(INIT, evs).value.failedStops
  {
    EarlyAhead(evs);
    RunningIsPlaced(evs);
    assert EarlyOk(Exec(INIT, evs).value, id);
  }

  lemma {:induction false} EarlyStays(s: State, rest: seq<Event>)
    requires Exec(s, rest).Some? && !s.stopAll.NotCalled?
    ensures var s' := Exec(s, rest).value;
      !s'.stopAll.NotCalled? && Early(s') == Early(s) && s.failedStops <= s'.failedStops
  {
    if rest == [] {
    } else {
      var n := |rest| - 1;
      EarlyStays(s, rest[..n]);
      EarlyKept(Exec(s, rest[..n]).value, rest[n], Exec(s, rest).value);
    }
  }

  lemma EarlyKept(s: State, e: Event, s': State)
    requires Step(s, e) == Some(s') && !s.stopAll.NotCalled?
    ensures !s'.stopAll.NotCalled? && Early(s') == Early(s) && s.failedStops <= s'.failedStops
  {
    if IsThread(e) { ThreadFrame(s, e.thread, e); }
  }

  /** A run that ends with the return of StopAll. */
  function Shutdown(before: seq<Event>, during: seq<Event>): seq<Event> {
    before + ([StopAllBegin] + during + [StopAllReturn])
  }

  lemma EndsReturned(s: State, evs: seq<Event>)
    requires Exec(s, evs + [StopAllReturn]).Some?
    ensures Exec(s, evs + [StopAllReturn]).value.stopAll.Returned?
  {
    ExecPrefix(s, evs, [StopAllReturn]);
    ExecStep(s, evs, StopAllReturn);
  }

  lemma BeginsEarly(s: State, rest: seq<Event>)
    requires Exec(s, [StopAllBegin] + rest).Some?
    ensures var s' := Exec(s, [StopAllBegin] + rest).value;
      !s'.stopAll.NotCalled? && Early(s') == s.pool.Values && s.failedStops <= s'.failedStops
  {
    ExecFirst(s, StopAllBegin, rest);
    EarlyStays(Step(s, StopAllBegin).value, rest);
  }

  lemma ShutdownBegins(s: State, evs: seq<Event>, during: seq<Event>)
    requires evs == [StopAllBegin] + during + [StopAllReturn] && Exec(s, evs).Some?
    ensures var s' := Exec(s, evs).value;
      s'.stopAll.Returned? && Early(s') == s.pool.Values && s.failedStops <= s'.failedStops
  {
    EndsReturned(s, [StopAllBegin] + during);
    assert evs == [StopAllBegin] + (during + [StopAllReturn]);
    BeginsEarly(s, during + [StopAllReturn]);
  }

  lemma OldLeftBehind(before: seq<Event>, begin: State, rest: seq<Event>, id: ContainerId)
    requires Exec(INIT, before) == Some(begin) && Exec(begin, rest).Some? && id in begin.keyOf
    requires var s := Exec(begin, rest).value;
      && s.stopAll.Returned? && Early(s) == begin.pool.Values && begin.failedStops <= s.failedStops
      && id in s.running && id !in s.failedStops
    ensures BeingStarted(begin, id) || id in Robbed(before + rest)
  {
    EndedStays(before, begin, rest, id);
    RunningIsPlaced(before);
    RobbedGrows(before, rest);
    ExecConcat(INIT, before, rest);
    assert Placed(begin, Robbed(before), id);
    if InPool(begin, id) {
      EarlyLeftBehind(before + rest, id);
    }
  }

  /**
   Which containers can run when StopAll returns, over every run: those that were mid-start when it began or
   started later, those that lost their entry to the stop of another container, and those on which podman
   stop failed.
   */
  lemma OnlyTheseAreLeft(before: seq<Event>, during: seq<Event>, id: ContainerId)
    requires Exec(INIT, Shutdown(before, during)).Some?
    ensures Exec(INIT, before).Some?
    ensures var evs, begin := Shutdown(before, during), Exec(INIT, before).value;
      id in Exec(INIT, evs).value.running ==>
        || id !in begin.keyOf || BeingStarted(begin, id)
        || id in Robbed(evs) || id in Exec(INIT, evs).value.failedStops
  {
    var rest := [StopAllBegin] + during + [StopAllReturn];
    ExecPrefix(INIT, before, rest);
    var begin, s := Exec(INIT, before).value, Exec(INIT, before + rest).value;
    ShutdownBegins(begin, rest, during);
    if id in s.running && id in begin.keyOf && id !in s.failedStops {
      OldLeftBehind(before, begin, rest, id);
    }
  }

  // ---- How often StopAll visits an entry -------------------------------------------------------------------

  function Visits(evs: seq<Event>, key: Key): nat {
    if evs == [] then 0
    else Visits(evs[..|evs| - 1], key) + if evs[|evs| - 1].Visit? && evs[|evs| - 1].key == key then 1 else 0
  }

  /** The visits so far: none before the range of the key's kind, and then one when the key has been seen. */
  ghost predicate VisitsOk(a: StopAll, key: Key, visits: nat) {
    match a
    case NotCalled => visits == 0
    case Ranging(_, subs, _, seen, _) =>
      if subs == key.Sub? then visits == (if key in seen then 1 else 0)
      else if subs then visits <= 1 else visits == 0
    case Returned(_) => visits <= 1
  }

  lemma VisitStep(s: State, e: Event, s': State, key: Key, visits: nat)
    requires Step(s, e) == Some(s') && VisitsOk(s.stopAll, key, visits)
    ensures VisitsOk(s'.stopAll, key, visits + if e.Visit? && e.key == key then 1 else 0)
  {
    if IsThread(e) {
      ThreadFrame(s, e.thread, e);
    }
  }

  lemma {:induction false} VisitsFollow(evs: seq<Event>, key: Key)
    requires Exec(INIT, evs).Some?
    ensures VisitsOk(Exec(INIT, evs).value.stopAll, key, Visits(evs, key))
  {
    if evs == [] {
    } else {
      var n := |evs| - 1;
      VisitsFollow(evs[..n], key);
      VisitStep(Exec(INIT, evs[..n]).value, evs[n], Exec(INIT, evs).value, key, Visits(evs[..n], key));
    }
  }

  /** StopAll visits no key twice, whatever is stored and deleted meanwhile. */
  lemma VisitedOnce(evs: seq<Event>, key: Key)
    requires Exec(INIT, evs).Some?
    ensures Visits(evs, key) <= 1
  {
    VisitsFollow(evs, key);
  }
}
