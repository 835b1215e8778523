/** Runs of the container pool that end with a container nobody holds, or with two containers of one chat. */
module PoolRuns {
  import opened Prelude
  import opened PoolProtocol
  import opened PoolResults
  import opened PoolPlacement

  // ---- Pieces of runs ---------------------------------------------------------------------------------

  lemma Then(s: State, evs: seq<Event>, m: State, e: Event, next: State)
    requires Exec(s, evs) == Some(m) && Step(m, e) == Some(next)
    ensures Exec(s, evs + [e]) == Some(next)
  {
    ExecStep(s, evs, e);
  }

  /** Three events in a row. */
  lemma Chain(s: State, a: Event, b: Event, c: Event, s1: State, s2: State, s3: State)
    requires Step(s, a) == Some(s1) && Step(s1, b) == Some(s2) && Step(s2, c) == Some(s3)
    ensures Exec(s, [a, b, c]) == Some(s3)
  {
    Then(s, [], s, a, s1);
    Then(s, [] + [a], s1, b, s2);
    Then(s, [] + [a] + [b], s2, c, s3);
    assert [] + [a] + [b] + [c] == [a, b, c];
  }

  /** A dispatch that finds no container and starts one. */
  function StartEvents(i: ThreadId, chat: ChatId, id: ContainerId): seq<Event> {
    MissEvents(i, chat) + RunEvents(i, Main(chat), id) + [Arm(i), Store(i), Return(i)]
  }

  function MissEvents(i: ThreadId, chat: ChatId): seq<Event> { [Call(i, chat), FastMiss(i), Lock(i)] }

  function WithThread(s: State, i: ThreadId, key: Key, p: Phase): State {
    s.(threads := s.threads[i := Thread(key, p)])
  }

  function WithContainer(s: State, key: Key, id: ContainerId): State {
    s.(keyOf := s.keyOf[id := key], running := s.running + {id})
  }

  /** The state after StartEvents. */
  function AfterStart(s: State, i: ThreadId, chat: ChatId, id: ContainerId): State {
    WithThread(WithContainer(s, Main(chat), id), i, Main(chat), Ready(id))
      .(armed := s.armed + {id}, pool := s.pool[Main(chat) := id])
  }

  lemma MoveCommutes(m: State, i: ThreadId, key: Key, p: Phase, e: Event, next: Phase)
    requires IsThread(e) && e.thread == i && NextPhase(m, Thread(key, p), e) == Some(next)
    ensures Step(WithThread(m, i, key, p), e) == Some(WithThread(Effect(m, Thread(key, p), e), i, key, next))
  {
    var t := Thread(key, p);
    assert NextPhase(WithThread(m, i, key, p), t, e) == NextPhase(m, t, e);
    assert Effect(WithThread(m, i, key, p), t, e) == WithThread(Effect(m, t, e), i, key, p);
    assert m.threads[i := t][i := Thread(key, next)] == m.threads[i := Thread(key, next)];
  }

  lemma MissRuns(s: State, i: ThreadId, chat: ChatId)
    requires i !in s.threads && s.lock.None? && Main(chat) !in s.pool
    ensures Exec(s, MissEvents(i, chat)) == Some(WithThread(s.(lock := Some(i)), i, Main(chat), Checking))
  {
    var key := Main(chat);
    MoveCommutes(s, i, key, Calling, FastMiss(i), Missed);
    MoveCommutes(s, i, key, Missed, Lock(i), Checking);
    Chain(s, Call(i, chat), FastMiss(i), Lock(i), WithThread(s, i, key, Calling), WithThread(s, i, key, Missed),
          WithThread(s.(lock := Some(i)), i, key, Checking));
  }

  lemma PodmanRuns(s: State, i: ThreadId, key: Key, id: ContainerId)
    requires key !in s.pool && id !in s.keyOf
    ensures Exec(WithThread(s, i, key, Checking), RunEvents(i, key, id)) ==
      Some(WithThread(WithContainer(s, key, id), i, key, Watched(id)))
  {
    var up := WithContainer(s, key, id);
    MoveCommutes(s, i, key, Checking, RecheckMiss(i), Preparing);
    MoveCommutes(s, i, key, Preparing, PodmanRun(i, key, id), Up(id));
    MoveCommutes(up, i, key, Up(id), Register(i), Watched(id));
    Chain(WithThread(s, i, key, Checking), RecheckMiss(i), PodmanRun(i, key, id), Register(i),
          WithThread(s, i, key, Preparing), WithThread(up, i, key, Up(id)), WithThread(up, i, key, Watched(id)));
  }

  /** An error before or in podman run. */
  lemma FailRuns(s: State, i: ThreadId, key: Key)
    requires key !in s.pool && key.Main?
    ensures Exec(WithThread(s, i, key, Checking), FailEvents(i)) ==
      Some(WithThread(s.(lock := None), i, key, Failed))
  {
    MoveCommutes(s, i, key, Checking, RecheckMiss(i), Preparing);
    MoveCommutes(s, i, key, Preparing, StartFail(i), Leaving(None));
    MoveCommutes(s, i, key, Leaving(None), Return(i), Failed);
    Chain(WithThread(s, i, key, Checking), RecheckMiss(i), StartFail(i), Return(i), WithThread(s, i, key, Preparing),
          WithThread(s, i, key, Leaving(None)), WithThread(s.(lock := None), i, key, Failed));
  }

  function RunEvents(i: ThreadId, key: Key, id: ContainerId): seq<Event> {
    [RecheckMiss(i), PodmanRun(i, key, id), Register(i)]
  }

  function FailEvents(i: ThreadId): seq<Event> { [RecheckMiss(i), StartFail(i), Return(i)] }

  lemma MissThenRun(s: State, i: ThreadId, chat: ChatId, id: ContainerId)
    requires i !in s.threads && s.lock.None? && Main(chat) !in s.pool && id !in s.keyOf
    ensures Exec(s, MissEvents(i, chat) + RunEvents(i, Main(chat), id)) ==
      Some(WithThread(WithContainer(s.(lock := Some(i)), Main(chat), id), i, Main(chat), Watched(id)))
  {
    MissRuns(s, i, chat);
    PodmanRuns(s.(lock := Some(i)), i, Main(chat), id);
    ExecConcat(s, MissEvents(i, chat), RunEvents(i, Main(chat), id));
  }

  lemma MissThenFail(s: State, i: ThreadId, chat: ChatId)
    requires i !in s.threads && s.lock.None? && Main(chat) !in s.pool
    ensures Exec(s, MissEvents(i, chat) + FailEvents(i)) == Some(WithThread(s, i, Main(chat), Failed))
  {
    MissRuns(s, i, chat);
    FailRuns(s.(lock := Some(i)), i, Main(chat));
    ExecConcat(s, MissEvents(i, chat), FailEvents(i));
  }

  lemma StoreSteps(s: State, i: ThreadId, key: Key, id: ContainerId)
    ensures var armed := s.(armed := s.armed + {id});
      && Step(WithThread(s, i, key, Watched(id)), Arm(i)) == Some(WithThread(armed, i, key, Timed(id)))
      && Step(WithThread(armed, i, key, Timed(id)), Store(i)) ==
           Some(WithThread(armed.(pool := s.pool[key := id]), i, key, Leaving(Some(id))))
  {
    MoveCommutes(s, i, key, Watched(id), Arm(i), Timed(id));
    MoveCommutes(s.(armed := s.armed + {id}), i, key, Timed(id), Store(i), Leaving(Some(id)));
  }

  lemma StoreRuns(s: State, i: ThreadId, key: Key, id: ContainerId)
    requires key.Main?
    ensures Exec(WithThread(s, i, key, Watched(id)), [Arm(i), Store(i), Return(i)]) ==
      Some(WithThread(s.(armed := s.armed + {id}, pool := s.pool[key := id], lock := None), i, key, Ready(id)))
  {
    var armed := s.(armed := s.armed + {id});
    var stored := armed.(pool := s.pool[key := id]);
    StoreSteps(s, i, key, id);
    MoveCommutes(stored, i, key, Leaving(Some(id)), Return(i), Ready(id));
    Chain(WithThread(s, i, key, Watched(id)), Arm(i), Store(i), Return(i), WithThread(armed, i, key, Timed(id)),
          WithThread(stored, i, key, Leaving(Some(id))), WithThread(stored.(lock := None), i, key, Ready(id)));
  }

  lemma StartRuns(s: State, i: ThreadId, chat: ChatId, id: ContainerId)
    requires i !in s.threads && s.lock.None? && Main(chat) !in s.pool && id !in s.keyOf
    ensures Exec(s, StartEvents(i, chat, id)) == Some(AfterStart(s, i, chat, id))
  {
    var key, locked := Main(chat), s.(lock := Some(i));
    MissThenRun(s, i, chat, id);
    StoreRuns(WithContainer(locked, key, id), i, key, id);
    ExecConcat(s, MissEvents(i, chat) + RunEvents(i, key, id), [Arm(i), Store(i), Return(i)]);
  }

  /** A timer that fires, and its callback. */
  function ExpireEvents(j: JobId, id: ContainerId, key: Key, hit: bool): seq<Event> {
    [Fire(id, j), PodmanStop(j, id, true), Delete(j, key, hit)]
  }

  function AfterExpire(s: State, j: JobId, id: ContainerId, key: Key): State {
    s.(armed := s.armed - {id}, running := s.running - {id}, pool := s.pool - {key},
       stopAll := AfterDelete(s.stopAll, j, key))
  }

  function Fired(s: State, j: JobId, id: ContainerId, key: Key): State {
    s.(armed := s.armed - {id}, jobs := s.jobs[j := Job(key, id, Stopping)])
  }

  function StoppedBy(s: State, j: JobId, id: ContainerId, key: Key): State {
    s.(armed := s.armed - {id}, jobs := s.jobs[j := Job(key, id, Deleting)], running := s.running - {id})
  }

  lemma ExpireSteps(s: State, j: JobId, id: ContainerId, key: Key, hit: bool)
    requires id in s.armed && id in s.keyOf && s.keyOf[id] == key && j !in s.jobs && hit == (key in s.pool)
    ensures Step(s, Fire(id, j)) == Some(Fired(s, j, id, key))
    ensures Step(Fired(s, j, id, key), PodmanStop(j, id, true)) == Some(StoppedBy(s, j, id, key))
    ensures Step(StoppedBy(s, j, id, key), Delete(j, key, hit)) == Some(AfterExpire(s, j, id, key))
  {
    assert Fired(s, j, id, key).jobs[j := Job(key, id, Deleting)] == s.jobs[j := Job(key, id, Deleting)];
    assert s.jobs[j := Job(key, id, Deleting)] - {j} == s.jobs;
  }

  lemma ExpireRuns(s: State, j: JobId, id: ContainerId, key: Key, hit: bool)
    requires id in s.armed && id in s.keyOf && s.keyOf[id] == key && j !in s.jobs && hit == (key in s.pool)
    ensures Exec(s, ExpireEvents(j, id, key, hit)) == Some(AfterExpire(s, j, id, key))
  {
    ExpireSteps(s, j, id, key, hit);
    Chain(s, Fire(id, j), PodmanStop(j, id, true), Delete(j, key, hit),
          Fired(s, j, id, key), StoppedBy(s, j, id, key), AfterExpire(s, j, id, key));
  }

  // ---- A re-armed timer -----------------------------------------------------------------------------

  /** Dispatch goes on with a handle whose container was stopped meanwhile: it re-arms the timer, and the run fails. */
  function LateTouchEvents(i: ThreadId, id: ContainerId): seq<Event> {
    [Touch(i), ExecBegin(i, id, false), ExecEnd(i, id, false)]
  }

  lemma TouchStep(s: State, i: ThreadId, key: Key, id: ContainerId)
    requires key.Main?
    ensures Step(WithThread(s, i, key, Ready(id)), Touch(i)) ==
      Some(WithThread(s.(armed := s.armed + {id}), i, key, Touched(id)))
  {
    MoveCommutes(s, i, key, Ready(id), Touch(i), Touched(id));
  }

  lemma FailedRunSteps(s: State, i: ThreadId, key: Key, id: ContainerId)
    requires id !in s.sessions
    ensures Step(WithThread(s, i, key, Touched(id)), ExecBegin(i, id, false)) ==
      Some(WithThread(s, i, key, Executing(id, false)))
    ensures Step(WithThread(s, i, key, Executing(id, false)), ExecEnd(i, id, false)) ==
      Some(WithThread(s, i, key, Ended))
  {
    MoveCommutes(s, i, key, Touched(id), ExecBegin(i, id, false), Executing(id, false));
    MoveCommutes(s, i, key, Executing(id, false), ExecEnd(i, id, false), Ended);
  }

  lemma LateTouchRuns(s: State, i: ThreadId, key: Key, id: ContainerId)
    requires key.Main? && id !in s.sessions
    ensures Exec(WithThread(s, i, key, Ready(id)), LateTouchEvents(i, id)) ==
      Some(WithThread(s.(armed := s.armed + {id}), i, key, Ended))
  {
    var armed := s.(armed := s.armed + {id});
    TouchStep(s, i, key, id);
    FailedRunSteps(armed, i, key, id);
    Chain(WithThread(s, i, key, Ready(id)), Touch(i), ExecBegin(i, id, false), ExecEnd(i, id, false),
          WithThread(armed, i, key, Touched(id)), WithThread(armed, i, key, Executing(id, false)),
          WithThread(armed, i, key, Ended));
  }

  /** A dispatch starts container `id`, and a timer fires: its own, or that of a container stopped before. */
  lemma StartThenExpire(s: State, i: ThreadId, chat: ChatId, id: ContainerId, j: JobId, timer: ContainerId)
    requires i !in s.threads && s.lock.None? && Main(chat) !in s.pool && id !in s.keyOf && j !in s.jobs
    requires timer == id || (timer in s.armed && timer in s.keyOf && s.keyOf[timer] == Main(chat))
    ensures Exec(s, StartEvents(i, chat, id) + ExpireEvents(j, timer, Main(chat), true)) ==
      Some(AfterExpire(AfterStart(s, i, chat, id), j, timer, Main(chat)))
  {
    StartRuns(s, i, chat, id);
    ExpireRuns(AfterStart(s, i, chat, id), j, timer, Main(chat), true);
    ExecConcat(s, StartEvents(i, chat, id), ExpireEvents(j, timer, Main(chat), true));
  }

  /** Container 1 expires between the end of ensureContainer and the reset of its timer. */
  function LateTouchRun(chat: ChatId): seq<Event> {
    (StartEvents(0, chat, 1) + ExpireEvents(0, 1, Main(chat), true)) + LateTouchEvents(0, 1)
  }

  function Expired(chat: ChatId): State { INIT.(keyOf := map[1 := Main(chat)]) }

  /** The container is stopped, and its timer is armed. */
  function LateTouched(chat: ChatId): State { WithThread(Expired(chat).(armed := {1}), 0, Main(chat), Ended) }

  lemma ExpiredIsLeft(chat: ChatId)
    ensures AfterExpire(AfterStart(INIT, 0, chat, 1), 0, 1, Main(chat)) ==
      WithThread(Expired(chat), 0, Main(chat), Ready(1))
    ensures WithThread(Expired(chat).(armed := {} + {1}), 0, Main(chat), Ended) == LateTouched(chat)
  {
  }

  lemma LateTouchLeaves(chat: ChatId)
    ensures Exec(INIT, LateTouchRun(chat)) == Some(LateTouched(chat))
  {
    StartThenExpire(INIT, 0, chat, 1, 0, 1);
    ExpiredIsLeft(chat);
    LateTouchRuns(Expired(chat), 0, Main(chat), 1);
    ExecConcat(INIT, StartEvents(0, chat, 1) + ExpireEvents(0, 1, Main(chat), true), LateTouchEvents(0, 1));
  }

  /**
   After the late reset the next dispatch starts container 2, and the timer of the stopped container 1
   deletes its entry.
   */
  function RobbedRun(chat: ChatId): seq<Event> {
    LateTouchRun(chat) + (StartEvents(1, chat, 2) + ExpireEvents(0, 1, Main(chat), true))
  }

  function RobbedState(chat: ChatId): State {
    INIT.(keyOf := map[1 := Main(chat), 2 := Main(chat)], armed := {2}, running := {2},
          threads := map[0 := Thread(Main(chat), Ended), 1 := Thread(Main(chat), Ready(2))])
  }

  lemma RobbedIsLeft(chat: ChatId)
    ensures AfterExpire(AfterStart(LateTouched(chat), 1, chat, 2), 0, 1, Main(chat)) == RobbedState(chat)
  {
    var s := AfterExpire(AfterStart(LateTouched(chat), 1, chat, 2), 0, 1, Main(chat));
    assert s.pool == map[] && s.running == {2} && s.armed == {2};
    assert s.threads == RobbedState(chat).threads && s.keyOf == RobbedState(chat).keyOf;
  }

  lemma RobbedRuns(chat: ChatId)
    ensures Exec(INIT, RobbedRun(chat)) == Some(RobbedState(chat))
  {
    LateTouchLeaves(chat);
    StartThenExpire(LateTouched(chat), 1, chat, 2, 0, 1);
    RobbedIsLeft(chat);
    ExecConcat(INIT, LateTouchRun(chat), StartEvents(1, chat, 2) + ExpireEvents(0, 1, Main(chat), true));
  }

  /** A third dispatch then starts a second running container of the chat. */
  lemma TwoContainersOfOneChat(chat: ChatId)
    ensures var evs := RobbedRun(chat) + StartEvents(2, chat, 3);
      && Exec(INIT, evs).Some?
      && var s := Exec(INIT, evs).value;
      && s.running == {2, 3} && 2 in s.keyOf && s.keyOf[2] == Main(chat) && 3 in s.keyOf && s.keyOf[3] == Main(chat)
      && s.failedStops == {}
  {
    RobbedRuns(chat);
    StartRuns(RobbedState(chat), 2, chat, 3);
    ExecConcat(INIT, RobbedRun(chat), StartEvents(2, chat, 3));
  }

  /**
   Wherever a running container of a chat has lost its entry and nobody holds the start lock, the next
   dispatch makes it two: the exception in AtMostOneOfKey is needed.
   */
  lemma RobbedThenTwo(s: State, a: ContainerId, i: ThreadId, b: ContainerId, chat: ChatId)
    requires a in s.running && a in s.keyOf && s.keyOf[a] == Main(chat) && Main(chat) !in s.pool && s.lock.None?
    requires i !in s.threads && b !in s.keyOf
    ensures Exec(s, StartEvents(i, chat, b)).Some?
    ensures var s' := Exec(s, StartEvents(i, chat, b)).value;
      && a != b && {a, b} <= s'.running && a in s'.keyOf && b in s'.keyOf && s'.keyOf[a] == s'.keyOf[b] == Main(chat)
  {
    StartRuns(s, i, chat, b);
  }

  // ---- StopAll ----------------------------------------------------------------------------------------

  /** StopAll over empty pools. */
  function EmptyStopAll(): seq<Event> { [StopAllBegin, RangeSubs, StopAllReturn] }

  lemma EmptyStopAllRuns(s: State)
    requires s.stopAll.NotCalled? && s.pool == map[]
    ensures Exec(s, EmptyStopAll()) == Some(s.(stopAll := Returned({})))
  {
    assert s.pool.Values == {} && KeysOf(s.pool, false) == {} && KeysOf(s.pool, true) == {};
    Chain(s, StopAllBegin, RangeSubs, StopAllReturn, s.(stopAll := Ranging({}, false, {}, {}, None)),
          s.(stopAll := Ranging({}, true, {}, {}, None)), s.(stopAll := Returned({})));
  }

  /** A container whose entry was deleted by a re-armed timer is not visited: it runs on. */
  lemma StopAllMissesRobbed(chat: ChatId)
    ensures var evs := RobbedRun(chat) + EmptyStopAll();
      && Exec(INIT, evs).Some?
      && var s := Exec(INIT, evs).value;
      && s.stopAll.Returned? && s.running == {2} && s.pool == map[] && s.jobs == map[] && s.failedStops == {}
  {
    RobbedRuns(chat);
    EmptyStopAllRuns(RobbedState(chat));
    ExecConcat(INIT, RobbedRun(chat), EmptyStopAll());
  }

  /** StopAll during a start: the container is running and not stored yet. */
  function StopAllDuringStart(chat: ChatId): seq<Event> {
    MissEvents(0, chat) + RunEvents(0, Main(chat), 1) + EmptyStopAll()
  }

  lemma StopAllMissesStart(chat: ChatId)
    ensures Exec(INIT, StopAllDuringStart(chat)).Some?
    ensures var s := Exec(INIT, StopAllDuringStart(chat)).value;
      s.stopAll.Returned? && s.running == {1} && s.failedStops == {}
  {
    MissThenRun(INIT, 0, chat, 1);
    EmptyStopAllRuns(WithThread(WithContainer(INIT.(lock := Some(0)), Main(chat), 1), 0, Main(chat), Watched(1)));
    ExecConcat(INIT, MissEvents(0, chat) + RunEvents(0, Main(chat), 1), EmptyStopAll());
  }
}
