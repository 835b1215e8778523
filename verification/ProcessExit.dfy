/**
 The end of the process.  poller.Poll is the last statement of main.go, and it returns once the signal
 goroutine has cancelled its context, so the process can end while StopAll runs, or before.
 */
module ProcessExit {
  import opened Prelude
  import opened Sessions
  import opened DrainedClosures
  import opened PendingCalls
  import opened ShutdownSafety
  import Q = QueueProtocol
  import P = PoolProtocol
  import PS = PoolStopSafety
  import R = PoolRuns

  /** Something runs when the process has ended. */
  ghost predicate OutlivesProcess(s: State, rest: seq<Event>) {
    && AllCalm(s.names, rest) && Exec(s, rest).Some?
    && Exec(s, rest).value.main.Exited? && Exec(s, rest).value.pool.running != {}
  }

  // ---- The condition is sufficient --------------------------------------------------------------------

  lemma {:induction false} RunningOnlyShrinks(slots: nat, names: Names, evs: seq<Event>, s: State, rest: seq<Event>)
    requires Exec(Init(slots, names), evs) == Some(s) && SafeSoFar(s) && AllCalm(s.names, rest)
    requires Exec(s, rest).Some?
    ensures Exec(s, rest).value.pool.running <= s.pool.running
  {
    if rest == [] {
    } else {
      var n := |rest| - 1;
      var m := Exec(s, rest[..n]).value;
      RunningOnlyShrinks(slots, names, evs, s, rest[..n]);
      SafeForever(slots, names, evs, s, rest[..n]);
      SameNames(s, rest[..n], m);
      StepProjects(m, rest[n], Exec(s, rest).value);
      if rest[n].OnPool? {
        NoStart(m, rest[n].p, Exec(s, rest).value);
        PS.RunningShrinks(m.pool, rest[n].p, Exec(s, rest).value.pool);
      }
    }
  }

  lemma NothingOutlives(slots: nat, names: Names, evs: seq<Event>, s: State, rest: seq<Event>)
    requires Exec(Init(slots, names), evs) == Some(s) && Safe(s) && s.pool.running == {} && s.cancelled
    requires s.pool.stopAll.NotCalled?
    ensures !OutlivesProcess(s, rest)
  {
    if AllCalm(s.names, rest) && Exec(s, rest).Some? {
      RunningOnlyShrinks(slots, names, evs, s, rest);
    }
  }

  // ---- The condition is necessary ---------------------------------------------------------------------

  function ExitEvents(): seq<Event> { [] + [PollReturns] + [Exit] }

  /** With the poll handler outside Enqueue, main can return at once. */
  lemma ExitRuns(s: State)
    requires !s.queue.panicked && s.cancelled && s.main.Polling? && !PollerBusy(s)
    ensures CalmRun(s, ExitEvents(), s.(main := Exited))
  {
    CalmThen(s, [], s, PollReturns, s.(main := PollReturned));
    CalmThen(s, [] + [PollReturns], s.(main := PollReturned), Exit, s.(main := Exited));
  }

  /** The poll handler gets its message accepted, and what runs goes on running. */
  lemma {:induction false} FreePoller(s: State) returns (rest: seq<Event>, t: State)
    requires Live(s) && s.queue.stop.NotStopped?
    ensures CalmRun(s, rest, t) && Live(t) && !PollerBusy(t)
    ensures t.pool.running == s.pool.running && t.main == s.main
    decreases s.queue.calls.Keys
  {
    if !PollerBusy(s) {
      rest, t := [], s;
    } else {
      var c :| c in s.queue.calls && FromPoller(s, c);
      var first, m := SendCall(s, c);
      rest, t := FreePoller(m);
      CalmBoth(s, first, m, rest, t);
      rest := first + rest;
    }
  }

  lemma ExitWithContainer(s: State) returns (rest: seq<Event>)
    requires Live(s) && s.queue.stop.NotStopped? && s.main.Polling? && s.pool.running != {}
    ensures OutlivesProcess(s, rest)
  {
    var first, m := FreePoller(s);
    ExitRuns(m);
    CalmBoth(s, first, m, ExitEvents(), m.(main := Exited));
    rest := first + ExitEvents();
  }

  lemma SomethingOutlives(slots: nat, names: Names, evs: seq<Event>, s: State) returns (rest: seq<Event>)
    requires slots >= 1 && Exec(Init(slots, names), evs) == Some(s) && Reached(s) && s.queue.stop.NotStopped?
    requires s.main.Polling? && !(Safe(s) && s.pool.running == {})
    ensures OutlivesProcess(s, rest)
  {
    if s.pool.running != {} {
      rest := ExitWithContainer(s);
    } else {
      var first, m := UnsafeLeaves(s);
      Concat(Init(slots, names), evs, s, first);
      IsLive(slots, names, evs + first, m);
      rest := ExitWithContainer(m);
      SameNames(s, first, m);
      CalmBoth(s, first, m, rest, Exec(m, rest).value);
      rest := first + rest;
    }
  }

  /**
   The end of the process, from any state in which the context is cancelled, StopAll has not begun and main is
   in its poll loop: it is sure that nothing outlives the process if and only if the state is safe and nothing
   runs yet.
   */
  lemma NothingOutlivesExactly(slots: nat, names: Names, evs: seq<Event>, s: State)
    requires slots >= 1 && Exec(Init(slots, names), evs) == Some(s) && !s.queue.panicked && s.main.Polling?
    requires s.cancelled && s.pool.stopAll.NotCalled?
    ensures (forall rest :: !OutlivesProcess(s, rest)) <==> Safe(s) && s.pool.running == {}
  {
    if Safe(s) && s.pool.running == {} {
      forall rest ensures !OutlivesProcess(s, rest) {
        NothingOutlives(slots, names, evs, s, rest);
      }
    } else {
      IsLive(slots, names, evs, s);
      ExecInTurn(slots, names, evs);
      var rest := SomethingOutlives(slots, names, evs, s);
    }
  }

  // ---- Runs ---------------------------------------------------------------------------------------------------

  /** The closure that waits is received and called. */
  function CalledState(chat: Q.ChatId, p: P.State): State {
    WaitingState(chat).(
      queue := Q.State(1, 1, map[chat := 0], [Q.Chan(chat, [], false, Q.Running(7))], map[], 1, Q.NotStopped, false),
      pool := p)
  }

  function CallEvents(): seq<Event> { [] + [OnQueue(Q.Receive(0))] + [OnQueue(Q.Start(0, 7))] }

  function ReceivedState(chat: Q.ChatId, p: P.State): State {
    WaitingState(chat).(
      queue := Q.State(1, 0, map[chat := 0], [Q.Chan(chat, [], false, Q.Acquiring(7))], map[], 1, Q.NotStopped, false),
      pool := p)
  }

  lemma ReceiveStep(chat: Q.ChatId, p: P.State)
    ensures Step(WaitingState(chat).(pool := p), OnQueue(Q.Receive(0))) == Some(ReceivedState(chat, p))
  {
    var before, after := Q.Chan(chat, [7], false, Q.Ranging), Q.Chan(chat, [], false, Q.Acquiring(7));
    assert [7][1..] == [] && [before][0 := after] == [after];
  }

  lemma StartStep(chat: Q.ChatId, p: P.State)
    ensures Step(ReceivedState(chat, p), OnQueue(Q.Start(0, 7))) == Some(CalledState(chat, p))
  {
    var before, after := Q.Chan(chat, [], false, Q.Acquiring(7)), Q.Chan(chat, [], false, Q.Running(7));
    assert [before][0 := after] == [after];
  }

  lemma ClosureIsCalled(chat: Q.ChatId, p: P.State)
    ensures CalmRun(WaitingState(chat).(pool := p), CallEvents(), CalledState(chat, p))
  {
    var s := WaitingState(chat).(pool := p);
    ReceiveStep(chat, p);
    StartStep(chat, p);
    CalmThen(s, [], s, OnQueue(Q.Receive(0)), ReceivedState(chat, p));
    CalmThen(s, [] + [OnQueue(Q.Receive(0))], ReceivedState(chat, p), OnQueue(Q.Start(0, 7)), CalledState(chat, p));
  }

  const BEGUN: P.State := P.INIT.(stopAll := P.Ranging({}, false, {}, {}, None))

  function StartEvents(chat: Q.ChatId): seq<P.Event> {
    R.MissEvents(7, chat) + R.RunEvents(7, P.Main(chat), 1)
  }

  function ReturnEvents(): seq<P.Event> { [] + [P.RangeSubs] + [P.StopAllReturn] }

  function StartedLate(chat: Q.ChatId): P.State {
    R.WithThread(R.WithContainer(P.INIT.(lock := Some(7)), P.Main(chat), 1), 7, P.Main(chat), P.Watched(1))
  }

  lemma ReturnRuns(s: P.State)
    requires s.stopAll == BEGUN.stopAll && s.pool == map[]
    ensures P.Exec(s, ReturnEvents()) == Some(s.(stopAll := P.Returned({})))
  {
    var subs := s.(stopAll := P.Ranging({}, true, {}, {}, None));
    assert P.KeysOf(s.pool, true) == {};
    R.Then(s, [], s, P.RangeSubs, subs);
    R.Then(s, [] + [P.RangeSubs], subs, P.StopAllReturn, s.(stopAll := P.Returned({})));
  }

  /** StopAll, begun before the dispatch of the chat started container 1, returns. */
  lemma StartAndReturnRuns(chat: Q.ChatId)
    ensures P.Exec(BEGUN, StartEvents(chat) + ReturnEvents()) == Some(StartedLate(chat).(stopAll := P.Returned({})))
  {
    R.MissThenRun(BEGUN, 7, chat, 1);
    ReturnRuns(StartedLate(chat).(stopAll := BEGUN.stopAll));
    P.ExecConcat(BEGUN, StartEvents(chat), ReturnEvents());
  }

  lemma BegunAndCalled(chat: Q.ChatId)
    ensures CalmRun(WaitingState(chat), [] + [OnPool(P.StopAllBegin)] + CallEvents(), CalledState(chat, BEGUN))
  {
    var s, begun := WaitingState(chat), WaitingState(chat).(pool := BEGUN);
    assert P.INIT.pool.Values == {} && P.KeysOf(P.INIT.pool, false) == {};
    CalmThen(s, [], s, OnPool(P.StopAllBegin), begun);
    ClosureIsCalled(chat, BEGUN);
    CalmBoth(s, [] + [OnPool(P.StopAllBegin)], begun, CallEvents(), CalledState(chat, BEGUN));
  }

  function DuringRun(chat: Q.ChatId): seq<Event> {
    ([] + [OnPool(P.StopAllBegin)] + CallEvents()) + Lift(StartEvents(chat) + ReturnEvents())
  }

  function StartedDuring(chat: Q.ChatId): State {
    CalledState(chat, StartedLate(chat).(stopAll := P.Returned({})))
  }

  lemma DuringRuns(chat: Q.ChatId)
    ensures CalmRun(WaitingState(chat), DuringRun(chat), StartedDuring(chat))
  {
    BegunAndCalled(chat);
    StartAndReturnRuns(chat);
    LiftedRun(CalledState(chat, BEGUN), StartEvents(chat) + ReturnEvents(), StartedDuring(chat).pool);
    CalmBoth(WaitingState(chat), [] + [OnPool(P.StopAllBegin)] + CallEvents(), CalledState(chat, BEGUN),
             Lift(StartEvents(chat) + ReturnEvents()), StartedDuring(chat));
  }

  lemma LiftedRun(s: State, evs: seq<P.Event>, p: P.State)
    requires !s.queue.panicked && !s.main.Exited? && Allowed(s, evs) && P.Exec(s.pool, evs) == Some(p)
    ensures CalmRun(s, Lift(evs), s.(pool := p))
  {
    PoolRuns(s, evs, p);
    WorkIsCalm(s, Lift(evs), s.(pool := p));
  }

  /**
   A closure of the scheduler waits when StopAll is called, in a state that is safe for StopAll by itself; it
   dispatches while StopAll runs, and StopAll returns with its container running.
   */
  lemma ClosureDuringStopAll(chat: Q.ChatId)
    ensures Exec(Init(1, NAMES), WaitingRun(chat)) == Some(WaitingState(chat)) && PS.SafeToStop(WaitingState(chat).pool)
    ensures LeavesRunning(WaitingState(chat), DuringRun(chat))
    ensures Exec(WaitingState(chat), DuringRun(chat)).value.pool.running == {1}
  {
    WaitingRuns(chat);
    DuringRuns(chat);
  }

  /** A dispatch starts the container of a chat, a signal arrives, and main returns before StopAll is called. */
  function ExitRun(chat: Q.ChatId): seq<Event> { WarmRun(chat) + ExitEvents() }

  function WarmRun(chat: Q.ChatId): seq<Event> { CallEvents() + Lift(R.StartEvents(7, chat, 1)) }

  function WarmState(chat: Q.ChatId): State { CalledState(chat, R.AfterStart(P.INIT, 7, chat, 1)) }

  /** The warm container is safe for StopAll, which the process does not live to call. */
  lemma WarmIsSafe(chat: Q.ChatId)
    ensures PS.SafeToStop(WarmState(chat).pool) && Safe(WarmState(chat))
  {
    var p := WarmState(chat).pool;
    forall o ensures !PS.Rival(p, 1, o) {}
    forall k: nat, t ensures !WillDispatch(WarmState(chat), k, t) {}
  }

  lemma WarmRuns(chat: Q.ChatId)
    ensures CalmRun(WaitingState(chat), WarmRun(chat), WarmState(chat))
  {
    ClosureIsCalled(chat, P.INIT);
    R.StartRuns(P.INIT, 7, chat, 1);
    LiftedRun(CalledState(chat, P.INIT), R.StartEvents(7, chat, 1), WarmState(chat).pool);
    CalmBoth(WaitingState(chat), CallEvents(), CalledState(chat, P.INIT), Lift(R.StartEvents(7, chat, 1)),
             WarmState(chat));
  }

  lemma MainExitsFirst(chat: Q.ChatId)
    ensures Exec(Init(1, NAMES), WaitingRun(chat)) == Some(WaitingState(chat))
    ensures PS.SafeToStop(WarmState(chat).pool) && Safe(WarmState(chat))
    ensures OutlivesProcess(WaitingState(chat), ExitRun(chat))
    ensures Exec(WaitingState(chat), ExitRun(chat)) == Some(WarmState(chat).(main := Exited))
  {
    WaitingRuns(chat);
    WarmIsSafe(chat);
    WarmRuns(chat);
    ExitRuns(WarmState(chat));
    CalmBoth(WaitingState(chat), WarmRun(chat), WarmState(chat), ExitEvents(), WarmState(chat).(main := Exited));
  }

  // ---- A message accepted after the signal -------------------------------------------------------------

  /** The poll handler is inside Enqueue, between unlock and select, and container 1 is warm. */
  function BusyState(chat: Q.ChatId): State {
    WarmState(chat).(queue := WarmState(chat).queue.(calls := map[9 := Q.Selecting(chat, 0, 8)]))
  }

  function SentState(chat: Q.ChatId): State {
    WarmState(chat).(queue := WarmState(chat).queue.(chans := [Q.Chan(chat, [8], false, Q.Running(7))]))
  }

  lemma BusySteps(chat: Q.ChatId)
    ensures Step(WarmState(chat), OnQueue(Q.Lookup(9, chat, 8))) == Some(BusyState(chat))
    ensures Step(BusyState(chat), OnQueue(Q.Send(9, chat, 8))) == Some(SentState(chat))
  {
    var before, after := Q.Chan(chat, [], false, Q.Running(7)), Q.Chan(chat, [8], false, Q.Running(7));
    assert [] + [8] == [8] && [before][0 := after] == [after];
    assert BusyState(chat).queue.calls - {9} == map[];
  }

  lemma BusyIsSafe(chat: Q.ChatId)
    ensures Safe(BusyState(chat)) && PollerBusy(BusyState(chat))
  {
    WarmIsSafe(chat);
    assert FromPoller(BusyState(chat), 9);
    forall i ensures InBackground(BusyState(chat), i) <==> InBackground(WarmState(chat), i) {}
    forall k: nat, t ensures WillDispatch(BusyState(chat), k, t) <==> WillDispatch(WarmState(chat), k, t) {}
  }

  /**
   The poll handler is inside Enqueue when the signal has arrived, with a warm container in a safe state: its
   message is accepted, main returns before StopAll is called, and the container outlives the process.
   */
  lemma PollerSendsAndMainExits(chat: Q.ChatId)
    ensures Exec(Init(1, NAMES), WaitingRun(chat) + WarmRun(chat) + [OnQueue(Q.Lookup(9, chat, 8))])
            == Some(BusyState(chat))
    ensures Safe(BusyState(chat)) && PollerBusy(BusyState(chat)) && BusyState(chat).pool.stopAll.NotCalled?
    ensures OutlivesProcess(BusyState(chat), [] + [OnQueue(Q.Send(9, chat, 8))] + ExitEvents())
  {
    var busy, sent := BusyState(chat), SentState(chat);
    WaitingRuns(chat);
    WarmRuns(chat);
    Concat(Init(1, NAMES), WaitingRun(chat), WaitingState(chat), WarmRun(chat));
    BusySteps(chat);
    ExecStep(Init(1, NAMES), WaitingRun(chat) + WarmRun(chat), OnQueue(Q.Lookup(9, chat, 8)));
    BusyIsSafe(chat);
    CalmThen(busy, [], busy, OnQueue(Q.Send(9, chat, 8)), sent);
    ExitRuns(sent);
    CalmBoth(busy, [] + [OnQueue(Q.Send(9, chat, 8))], sent, ExitEvents(), sent.(main := Exited));
  }
}
