/**
 internal/container/manager.go as an object.  As in Queue, the ghost field `history` records the
 protocol events a method stands for and `Valid` ties the fields to it.  What podman answers is a
 parameter of the methods that run it.
 */
module Manager {
  import opened Prelude
  import opened PoolProtocol

  class Manager {
    var pool: map<Key, ContainerId>
    var armed: set<ContainerId>       // handles whose ttlTimer is armed
    var sessions: set<ContainerId>    // handles with hasSession

    ghost var lock: Option<ThreadId>
    ghost var threads: map<ThreadId, Thread>
    ghost var jobs: map<JobId, Job>
    ghost var keyOf: map<ContainerId, Key>
    ghost var agents: set<AgentId>
    ghost var running: set<ContainerId>
    ghost var failedStops: set<ContainerId>
    ghost var stopAll: StopAll
    ghost var history: seq<Event>

    ghost function View(): State
      reads this
    {
      State(pool, lock, threads, jobs, armed, sessions, keyOf, agents, running, failedStops, stopAll)
    }

    ghost predicate Valid()
      reads this
    {
      Exec(INIT, history) == Some(View())
    }

    ghost predicate At(i: ThreadId, key: Key, p: Phase)
      reads this
    {
      i in threads && threads[i] == Thread(key, p)
    }

    constructor ()
      ensures Valid() && View() == INIT && history == []
    {
      pool, armed, sessions := map[], {}, {};
      lock, threads, jobs, keyOf, agents, running, failedStops := None, map[], map[], map[], {}, {}, {};
      stopAll := NotCalled;
      history := [];
    }

    /** ensureContainer's load without the lock. */
    method FastPath(ghost i: ThreadId, key: Key) returns (h: Option<ContainerId>)
      requires Valid() && At(i, key, Calling)
      modifies this`threads, this`history
      ensures Valid() && history == old(history) + [if key in pool then FastHit(i) else FastMiss(i)]
      ensures h == if key in pool then Some(pool[key]) else None
      ensures threads == old(threads)[i := Thread(key, if key in pool then Ready(pool[key]) else Missed)]
    {
      ghost var s := View();
      h := if key in pool then Some(pool[key]) else None;
      threads := threads[i := Thread(key, if h.Some? then Ready(h.value) else Missed)];
      history := Extend(history, if key in pool then FastHit(i) else FastMiss(i), s, View());
    }

    method LockStart(ghost i: ThreadId, ghost key: Key)
      requires Valid() && At(i, key, Missed) && lock.None?
      modifies this`threads, this`lock, this`history
      ensures Valid() && lock == Some(i) && history == old(history) + [Lock(i)]
      ensures threads == old(threads)[i := Thread(key, Checking)]
    {
      ghost var s := View();
      lock, threads := Some(i), threads[i := Thread(key, Checking)];
      Moves(s, i, key, Missed, Lock(i), Checking);
      history := Extend(history, Lock(i), s, View());
    }

    /** ensureContainer's second load, with the lock held. */
    method Recheck(ghost i: ThreadId, key: Key) returns (h: Option<ContainerId>)
      requires Valid() && At(i, key, Checking)
      modifies this`threads, this`history
      ensures Valid() && history == old(history) + [if key in pool then RecheckHit(i) else RecheckMiss(i)]
      ensures h == if key in pool then Some(pool[key]) else None
      ensures threads == old(threads)[i := Thread(key, if key in pool then Leaving(Some(pool[key])) else Preparing)]
    {
      ghost var s := View();
      h := if key in pool then Some(pool[key]) else None;
      threads := threads[i := Thread(key, if h.Some? then Leaving(h) else Preparing)];
      history := Extend(history, if key in pool then RecheckHit(i) else RecheckMiss(i), s, View());
    }

    /** startContainer and startSubAgentContainer up to a successful podman run. */
    method RunPodman(ghost i: ThreadId, key: Key, id: ContainerId)
      requires Valid() && At(i, key, Preparing) && id !in keyOf
      modifies this`threads, this`keyOf, this`running, this`history
      ensures Valid() && history == old(history) + [PodmanRun(i, key, id)]
      ensures threads == old(threads)[i := Thread(key, Up(id))] && running == old(running) + {id}
    {
      ghost var s := View();
      threads, keyOf, running := threads[i := Thread(key, Up(id))], keyOf[id := key], running + {id};
      Moves(s, i, key, Preparing, PodmanRun(i, key, id), Up(id));
      history := Extend(history, PodmanRun(i, key, id), s, View());
    }

    method RegisterDirs(ghost i: ThreadId, ghost key: Key, ghost id: ContainerId)
      requires Valid() && At(i, key, Up(id))
      modifies this`threads, this`history
      ensures Valid() && history == old(history) + [Register(i)]
      ensures threads == old(threads)[i := Thread(key, Watched(id))]
    {
      ghost var s := View();
      threads := threads[i := Thread(key, Watched(id))];
      Moves(s, i, key, Up(id), Register(i), Watched(id));
      history := Extend(history, Register(i), s, View());
    }

    /** time.AfterFunc for a new handle. */
    method ArmTimer(ghost i: ThreadId, ghost key: Key, id: ContainerId)
      requires Valid() && At(i, key, Watched(id))
      modifies this`threads, this`armed, this`history
      ensures Valid() && history == old(history) + [Arm(i)]
      ensures threads == old(threads)[i := Thread(key, Timed(id))] && armed == old(armed) + {id}
    {
      ghost var s := View();
      armed, threads := armed + {id}, threads[i := Thread(key, Timed(id))];
      Moves(s, i, key, Watched(id), Arm(i), Timed(id));
      history := Extend(history, Arm(i), s, View());
    }

    /** pool.Store of a new handle. */
    method StoreHandle(ghost i: ThreadId, key: Key, id: ContainerId)
      requires Valid() && At(i, key, Timed(id))
      modifies this`threads, this`pool, this`history
      ensures Valid() && history == old(history) + [Store(i)]
      ensures threads == old(threads)[i := Thread(key, Leaving(Some(id)))]
      ensures pool == old(pool)[key := id]
    {
      ghost var s := View();
      pool, threads := pool[key := id], threads[i := Thread(key, Leaving(Some(id)))];
      Moves(s, i, key, Timed(id), Store(i), Leaving(Some(id)));
      history := Extend(history, Store(i), s, View());
    }

    /** The deferred unlock of ensureContainer, after its result is fixed. */
    method Unlock(ghost i: ThreadId, key: Key, got: Option<ContainerId>)
      requires Valid() && At(i, key, Leaving(got)) && key.Main?
      modifies this`threads, this`lock, this`history
      ensures Valid() && lock.None? && history == old(history) + [Return(i)]
      ensures threads == old(threads)[i := Thread(key, if got.Some? then Ready(got.value) else Failed)]
    {
      ghost var s := View();
      lock, threads := None, threads[i := Thread(key, if got.Some? then Ready(got.value) else Failed)];
      Moves(s, i, key, Leaving(got), Return(i), if got.Some? then Ready(got.value) else Failed);
      history := Extend(history, Return(i), s, View());
    }

    /** An error before or in podman run. */
    method GiveUp(ghost i: ThreadId, key: Key)
      requires Valid() && At(i, key, Preparing)
      modifies this`threads, this`history
      ensures Valid() && history == old(history) + [StartFail(i)]
      ensures threads == old(threads)[i := Thread(key, Leaving(None))]
    {
      ghost var s := View();
      threads := threads[i := Thread(key, Leaving(None))];
      Moves(s, i, key, Preparing, StartFail(i), Leaving(None));
      history := Extend(history, StartFail(i), s, View());
    }

    /** startContainer after podman run: register, arm, store. */
    method KeepContainer(ghost i: ThreadId, key: Key, id: ContainerId)
      requires Valid() && At(i, key, Up(id))
      modifies this`threads, this`armed, this`pool, this`history
      ensures Valid() && threads == old(threads)[i := Thread(key, Leaving(Some(id)))]
      ensures pool == old(pool)[key := id] && armed == old(armed) + {id}
    {
      RegisterDirs(i, key, id);
      ArmTimer(i, key, id);
      StoreHandle(i, key, id);
    }

    /** startContainer: run, register, arm, store; `podman` is the new container, or None for an error. */
    method StartContainer(ghost i: ThreadId, key: Key, podman: Option<ContainerId>)
      requires Valid() && At(i, key, Preparing) && (podman.Some? ==> podman.value !in keyOf)
      modifies this`threads, this`keyOf, this`running, this`armed, this`pool, this`history
      ensures Valid() && threads == old(threads)[i := Thread(key, Leaving(podman))]
      ensures pool == if podman.Some? then old(pool)[key := podman.value] else old(pool)
      ensures armed == if podman.Some? then old(armed) + {podman.value} else old(armed)
      ensures running == if podman.Some? then old(running) + {podman.value} else old(running)
    {
      if podman.Some? {
        RunPodman(i, key, podman.value);
        KeepContainer(i, key, podman.value);
      } else {
        GiveUp(i, key);
      }
    }

    /** ensureContainer with the lock held: the second load, and a start when it finds nothing. */
    method LoadOrStart(ghost i: ThreadId, key: Key, podman: Option<ContainerId>) returns (h: Option<ContainerId>)
      requires Valid() && At(i, key, Checking) && (podman.Some? ==> podman.value !in keyOf)
      modifies this`threads, this`keyOf, this`running, this`armed, this`pool, this`history
      ensures Valid() && threads == old(threads)[i := Thread(key, Leaving(h))]
      ensures h == if key in old(pool) then Some(old(pool)[key]) else podman
      ensures pool == if h.Some? then old(pool)[key := h.value] else old(pool)
      ensures running == if key in old(pool) || h.None? then old(running) else old(running) + {h.value}
      ensures armed == if key in old(pool) || h.None? then old(armed) else old(armed) + {h.value}
    {
      h := Recheck(i, key);
      if h.None? {
        StartContainer(i, key, podman);
        h := podman;
      }
    }

    /**
     ensureContainer after a missed fast path, when nobody holds startMu: the entry of the chat when
     another call stored one meanwhile, otherwise a new container with an armed timer, or an error.  No
     other thread moves and no other container is touched.
     */
    method SlowPath(ghost i: ThreadId, chat: ChatId, podman: Option<ContainerId>) returns (h: Option<ContainerId>)
      requires Valid() && At(i, Main(chat), Missed) && lock.None?
      requires podman.Some? ==> podman.value !in keyOf
      modifies this`threads, this`lock, this`keyOf, this`running, this`armed, this`pool, this`history
      ensures Valid() && lock.None?
      ensures h == if Main(chat) in old(pool) then Some(old(pool)[Main(chat)]) else podman
      ensures pool == if h.Some? then old(pool)[Main(chat) := h.value] else old(pool)
      ensures running == if Main(chat) in old(pool) || h.None? then old(running) else old(running) + {h.value}
      ensures armed == if Main(chat) in old(pool) || h.None? then old(armed) else old(armed) + {h.value}
      ensures threads == old(threads)[i := Thread(Main(chat), if h.Some? then Ready(h.value) else Failed)]
    {
      ghost var before := threads;
      LockStart(i, Main(chat));
      h := LoadOrStart(i, Main(chat), podman);
      Overwrite(before, i, Thread(Main(chat), Checking), Thread(Main(chat), Leaving(h)));
      Unlock(i, Main(chat), h);
      Overwrite(before, i, Thread(Main(chat), Leaving(h)), threads[i]);
    }

    /** Dispatch resets the timer of its handle, whether or not it has fired. */
    method ResetTimer(ghost i: ThreadId, key: Key, id: ContainerId)
      requires Valid() && At(i, key, Ready(id)) && key.Main?
      modifies this`threads, this`armed, this`history
      ensures Valid() && history == old(history) + [Touch(i)]
      ensures armed == old(armed) + {id} && threads == old(threads)[i := Thread(key, Touched(id))]
    {
      ghost var s := View();
      armed, threads := armed + {id}, threads[i := Thread(key, Touched(id))];
      Moves(s, i, key, Ready(id), Touch(i), Touched(id));
      history := Extend(history, Touch(i), s, View());
    }

    /** execOpenCode up to podman exec: the run is told to continue when the handle has a session. */
    method BeginExec(ghost i: ThreadId, key: Key, id: ContainerId) returns (continued: bool)
      requires Valid() && At(i, key, Touched(id))
      modifies this`threads, this`history
      ensures Valid() && history == old(history) + [ExecBegin(i, id, continued)]
      ensures threads == old(threads)[i := Thread(key, Executing(id, continued))] && (continued <==> id in sessions)
    {
      ghost var s := View();
      continued := id in sessions;
      threads := threads[i := Thread(key, Executing(id, continued))];
      Moves(s, i, key, Touched(id), ExecBegin(i, id, continued), Executing(id, continued));
      history := Extend(history, ExecBegin(i, id, continued), s, View());
    }

    /** execOpenCode after podman exec: a successful run gives the handle a session. */
    method EndExec(ghost i: ThreadId, key: Key, id: ContainerId, ghost continued: bool, succeeded: bool)
      requires Valid() && At(i, key, Executing(id, continued))
      modifies this`threads, this`sessions, this`history
      ensures Valid() && history == old(history) + [ExecEnd(i, id, succeeded)]
      ensures threads == old(threads)[i := Thread(key, Ended)]
      ensures sessions == if succeeded then old(sessions) + {id} else old(sessions)
    {
      ghost var s := View();
      if succeeded {
        sessions := sessions + {id};
      }
      threads := threads[i := Thread(key, Ended)];
      Moves(s, i, key, Executing(id, continued), ExecEnd(i, id, succeeded), Ended);
      history := Extend(history, ExecEnd(i, id, succeeded), s, View());
    }

    method StopContainer(ghost j: JobId, ghost key: Key, ghost id: ContainerId, ghost stops: bool)
      requires Valid() && j in jobs && jobs[j] == Job(key, id, Stopping)
      modifies this`jobs, this`running, this`failedStops, this`history
      ensures Valid() && history == old(history) + [PodmanStop(j, id, stops)]
      ensures jobs == old(jobs)[j := Job(key, id, Deleting)]
      ensures running == if stops then old(running) - {id} else old(running)
    {
      ghost var s := View();
      running := if stops then running - {id} else running;
      failedStops := if stops then failedStops else failedStops + {id};
      jobs := jobs[j := Job(key, id, Deleting)];
      StopMoves(s, j, Job(key, id, Stopping), stops);
      history := Extend(history, PodmanStop(j, id, stops), s, View());
    }

    /** The deletion by key alone, whoever's entry it is by now. */
    method DeleteEntry(ghost j: JobId, key: Key, ghost id: ContainerId)
      requires Valid() && j in jobs && jobs[j] == Job(key, id, Deleting)
      modifies this`jobs, this`pool, this`stopAll, this`history
      ensures Valid() && history == old(history) + [Delete(j, key, key in old(pool))]
      ensures pool == old(pool) - {key} && jobs == old(jobs) - {j} && stopAll == AfterDelete(old(stopAll), j, key)
    {
      ghost var s := View();
      ghost var hit := key in pool;
      pool, jobs, stopAll := pool - {key}, jobs - {j}, AfterDelete(stopAll, j, key);
      DeleteMoves(s, j, key, id);
      history := Extend(history, Delete(j, key, hit), s, View());
    }

    /** stopContainer and stopSubAgentContainer. */
    method StopAndDelete(ghost j: JobId, key: Key, ghost id: ContainerId, ghost stops: bool)
      requires Valid() && j in jobs && jobs[j] == Job(key, id, Stopping)
      modifies this`jobs, this`running, this`failedStops, this`pool, this`stopAll, this`history
      ensures Valid() && pool == old(pool) - {key} && jobs == old(jobs) - {j}
      ensures running == if stops then old(running) - {id} else old(running)
      ensures stopAll == AfterDelete(old(stopAll), j, key)
    {
      StopContainer(j, key, id, stops);
      DeleteEntry(j, key, id);
    }

    /** A TTL timer fires and starts the goroutine of its callback. */
    method FireTimer(ghost j: JobId, id: ContainerId)
      requires Valid() && id in armed && id in keyOf && j !in jobs
      modifies this`jobs, this`armed, this`history
      ensures Valid() && armed == old(armed) - {id} && history == old(history) + [Fire(id, j)]
      ensures jobs == old(jobs)[j := Job(keyOf[id], id, Stopping)]
    {
      ghost var s := View();
      armed, jobs := armed - {id}, jobs[j := Job(keyOf[id], id, Stopping)];
      history := Extend(history, Fire(id, j), s, View());
    }

    /** A TTL timer's callback run at once: stop the handle's container, delete the entry of its key. */
    method Expire(ghost j: JobId, id: ContainerId, key: Key, ghost stops: bool)
      requires Valid() && id in armed && id in keyOf && keyOf[id] == key && j !in jobs
      modifies this`jobs, this`armed, this`running, this`failedStops, this`pool, this`stopAll, this`history
      ensures Valid() && armed == old(armed) - {id} && pool == old(pool) - {key} && jobs == old(jobs)
      ensures running == if stops then old(running) - {id} else old(running)
    {
      FireTimer(j, id);
      StopAndDelete(j, key, id, stops);
    }

    // ---- StopAll ------------------------------------------------------------------------------------

    ghost predicate MayVisit(key: Key)
      reads this
    {
      && stopAll.Ranging? && stopAll.job.None? && key in pool && key.Sub? == stopAll.subs && key !in stopAll.seen
    }

    method VisitEntry(ghost j: JobId, key: Key) returns (id: ContainerId)
      requires Valid() && MayVisit(key) && j !in jobs
      modifies this`jobs, this`stopAll, this`history
      ensures Valid() && history == old(history) + [Visit(j, key)]
      ensures id == pool[key] && jobs == old(jobs)[j := Job(key, id, Disarming)]
      ensures stopAll ==
        old(stopAll).(todo := old(stopAll).todo - {key}, seen := old(stopAll).seen + {key}, job := Some(j))
    {
      id := pool[key];
      ghost var s := View();
      jobs := jobs[j := Job(key, id, Disarming)];
      stopAll := stopAll.(todo := stopAll.todo - {key}, seen := stopAll.seen + {key}, job := Some(j));
      history := Extend(history, Visit(j, key), s, View());
    }

    method DisarmTimer(ghost j: JobId, ghost key: Key, id: ContainerId)
      requires Valid() && j in jobs && jobs[j] == Job(key, id, Disarming)
      modifies this`jobs, this`armed, this`history
      ensures Valid() && history == old(history) + [Event.Disarm(j)]
      ensures armed == old(armed) - {id} && jobs == old(jobs)[j := Job(key, id, Stopping)]
    {
      ghost var s := View();
      armed, jobs := armed - {id}, jobs[j := Job(key, id, Stopping)];
      history := Extend(history, Event.Disarm(j), s, View());
    }

    /** StopAll's callback up to `ttlTimer.Stop`. */
    method StopTimer(ghost j: JobId, key: Key) returns (id: ContainerId)
      requires Valid() && MayVisit(key) && j !in jobs
      modifies this`jobs, this`armed, this`stopAll, this`history
      ensures Valid() && id == pool[key] && armed == old(armed) - {id} && jobs == old(jobs)[j := Job(key, id, Stopping)]
      ensures stopAll ==
        old(stopAll).(todo := old(stopAll).todo - {key}, seen := old(stopAll).seen + {key}, job := Some(j))
    {
      id := VisitEntry(j, key);
      DisarmTimer(j, key, id);
    }

    /** StopAll's callback for one entry: stop the timer, stop the container, delete the entry. */
    method StopEntry(ghost j: JobId, key: Key, ghost stops: bool)
      requires Valid() && MayVisit(key) && j !in jobs
      modifies this`jobs, this`armed, this`running, this`failedStops, this`pool, this`stopAll, this`history
      ensures Valid() && armed == old(armed) - {old(pool)[key]} && pool == old(pool) - {key} && jobs == old(jobs)
      ensures running == if stops then old(running) - {old(pool)[key]} else old(running)
      ensures stopAll == old(stopAll).(todo := old(stopAll).todo - {key}, seen := old(stopAll).seen + {key})
    {
      var id := StopTimer(j, key);
      StopAndDelete(j, key, id, stops);
    }

    /** One of the two ranges of StopAll, when nothing else moves; podman stop fails on `stubborn`. */
    method StopEntries(ghost j: JobId, subs: bool, ghost stubborn: set<ContainerId>)
      requires Valid() && j !in jobs
      requires stopAll.Ranging? && stopAll.subs == subs && stopAll.job.None? && stopAll.seen == {}
      requires stopAll.todo == KeysOf(pool, subs)
      modifies this`jobs, this`armed, this`running, this`failedStops, this`pool, this`stopAll, this`history
      ensures Valid() && jobs == old(jobs) && pool == old(pool) - KeysOf(old(pool), subs)
      ensures var stopped := ContainersAt(old(pool), KeysOf(old(pool), subs));
        running == old(running) - (stopped - stubborn) && armed == old(armed) - stopped
      ensures stopAll.Ranging? && stopAll.early == old(stopAll).early && stopAll.subs == subs && stopAll.job.None?
      ensures stopAll.todo == {}
    {
      var todo := KeysOf(pool, subs);
      ghost var keys, s := todo, View();
      while todo != {}
        invariant Valid() && todo <= keys && Swept(s, keys, todo, stubborn, View())
        decreases todo
      {
        var key :| key in todo;
        ghost var now := View();
        StopEntry(j, key, pool[key] !in stubborn);
        SweptStep(s, keys, todo, stubborn, now, key, View());
        todo := todo - {key};
      }
    }

    method BeginStopAll()
      requires Valid() && stopAll.NotCalled?
      modifies this`stopAll, this`history
      ensures Valid() && history == old(history) + [StopAllBegin]
      ensures stopAll == Ranging(pool.Values, false, KeysOf(pool, false), {}, None)
    {
      ghost var s := View();
      stopAll := Ranging(pool.Values, false, KeysOf(pool, false), {}, None);
      history := Extend(history, StopAllBegin, s, View());
    }

    method BeginSubs()
      requires Valid() && stopAll.Ranging? && !stopAll.subs && stopAll.todo == {} && stopAll.job.None?
      modifies this`stopAll, this`history
      ensures Valid() && history == old(history) + [RangeSubs]
      ensures stopAll == Ranging(old(stopAll).early, true, KeysOf(pool, true), {}, None)
    {
      ghost var s := View();
      stopAll := Ranging(stopAll.early, true, KeysOf(pool, true), {}, None);
      history := Extend(history, RangeSubs, s, View());
    }

    method EndStopAll()
      requires Valid() && stopAll.Ranging? && stopAll.subs && stopAll.todo == {} && stopAll.job.None?
      modifies this`stopAll, this`history
      ensures Valid() && history == old(history) + [StopAllReturn] && stopAll == Returned(old(stopAll).early)
    {
      ghost var s := View();
      stopAll := Returned(stopAll.early);
      history := Extend(history, StopAllReturn, s, View());
    }

    /**
     StopAll when nothing else moves: the pools end empty, and of the containers that were in them only
     those run on which podman stop failed; no timer of theirs is armed.
     */
    method StopAll(ghost j: JobId, ghost stubborn: set<ContainerId>)
      requires Valid() && j !in jobs && stopAll.NotCalled?
      modifies this`jobs, this`armed, this`running, this`failedStops, this`pool, this`stopAll, this`history
      ensures Valid() && pool == map[] && stopAll.Returned?
      ensures running == old(running) - (old(pool).Values - stubborn) && armed == old(armed) - old(pool).Values
    {
      BeginStopAll();
      StopEntries(j, false, stubborn);
      BeginSubs();
      StopEntries(j, true, stubborn);
      EndStopAll();
      BothKinds(old(pool));
    }
  }

  function ContainersAt(pool: map<Key, ContainerId>, keys: set<Key>): set<ContainerId> {
    set k | k in keys && k in pool :: pool[k]
  }

  /** StopAll has stopped and deleted the entries of `keys` but for those of `todo`. */
  ghost predicate Swept(s: State, keys: set<Key>, todo: set<Key>, stubborn: set<ContainerId>, now: State) {
    && s.stopAll.Ranging? && now.jobs == s.jobs && now.pool == s.pool - (keys - todo)
    && now.running == s.running - (ContainersAt(s.pool, keys - todo) - stubborn)
    && now.armed == s.armed - ContainersAt(s.pool, keys - todo)
    && now.stopAll == s.stopAll.(todo := todo, seen := keys - todo)
  }

  lemma SweptStep(s: State, keys: set<Key>, todo: set<Key>, stubborn: set<ContainerId>,
                  now: State, key: Key, next: State)
    requires Swept(s, keys, todo, stubborn, now) && todo <= keys && key in todo && key in now.pool
    requires next.jobs == now.jobs && next.pool == now.pool - {key} && next.armed == now.armed - {now.pool[key]}
    requires next.running == if now.pool[key] in stubborn then now.running else now.running - {now.pool[key]}
    requires next.stopAll == now.stopAll.(todo := now.stopAll.todo - {key}, seen := now.stopAll.seen + {key})
    ensures Swept(s, keys, todo - {key}, stubborn, next)
  {
    assert keys - (todo - {key}) == keys - todo + {key};
    OneMoreKey(s.pool, keys - todo, key);
  }

  lemma OneMoreKey(pool: map<Key, ContainerId>, keys: set<Key>, key: Key)
    requires key in pool
    ensures ContainersAt(pool, keys + {key}) == ContainersAt(pool, keys) + {pool[key]}
    ensures pool - keys - {key} == pool - (keys + {key})
  {
  }

  /** The two ranges together empty the pools and meet every container in them. */
  lemma BothKinds(pool: map<Key, ContainerId>)
    ensures var mains, rest := KeysOf(pool, false), pool - KeysOf(pool, false);
      && rest - KeysOf(rest, true) == map[]
      && ContainersAt(pool, mains) + ContainersAt(rest, KeysOf(rest, true)) == pool.Values
  {
    var mains, rest := KeysOf(pool, false), pool - KeysOf(pool, false);
    forall id | id in pool.Values ensures id in ContainersAt(pool, mains) + ContainersAt(rest, KeysOf(rest, true)) {
      var k :| k in pool && pool[k] == id;
      assert k in mains || (k in rest && k in KeysOf(rest, true));
    }
  }

  /** One move of a thread from a known phase. */
  lemma Moves(s: State, i: ThreadId, key: Key, p: Phase, e: Event, next: Phase)
    requires i in s.threads && s.threads[i] == Thread(key, p) && IsThread(e) && e.thread == i
    requires NextPhase(s, Thread(key, p), e) == Some(next)
    ensures Step(s, e) == Some(Effect(s, Thread(key, p), e).(threads := s.threads[i := Thread(key, next)]))
  {
  }

  lemma Overwrite(threads: map<ThreadId, Thread>, i: ThreadId, a: Thread, b: Thread)
    ensures threads[i := a][i := b] == threads[i := b]
  {
  }

  lemma StopMoves(s: State, j: JobId, job: Job, stops: bool)
    requires j in s.jobs && s.jobs[j] == job && job.phase.Stopping?
    ensures Step(s, PodmanStop(j, job.id, stops)) == Some(s.(
      running := if stops then s.running - {job.id} else s.running,
      failedStops := if stops then s.failedStops else s.failedStops + {job.id},
      jobs := s.jobs[j := job.(phase := Deleting)]))
  {
  }

  lemma DeleteMoves(s: State, j: JobId, key: Key, id: ContainerId)
    requires j in s.jobs && s.jobs[j] == Job(key, id, Deleting)
    ensures Step(s, Delete(j, key, key in s.pool)) ==
      Some(s.(pool := s.pool - {key}, jobs := s.jobs - {j}, stopAll := AfterDelete(s.stopAll, j, key)))
  {
  }

  /** A run extended by one possible event. */
  ghost function Extend(trace: seq<Event>, e: Event, s: State, now: State): (t: seq<Event>)
    requires Exec(INIT, trace) == Some(s) && Step(s, e) == Some(now)
    ensures t == trace + [e] && Exec(INIT, t) == Some(now)
  {
    ExecStep(INIT, trace, e);
    trace + [e]
  }
}
