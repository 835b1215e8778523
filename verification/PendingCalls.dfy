/**
 Calls of Enqueue that are under way when the context is cancelled.  Workers and dispatches can always go on
 until there is room for what such a call brings, without any container being started or stopped.
 */
module PendingCalls {
  import opened Prelude
  import opened Sessions
  import opened DrainedClosures
  import Q = QueueProtocol
  import QS = QueueShutdown
  import P = PoolProtocol
  import PS = PoolStopSafety

  /** No new call of Enqueue brings a closure with the background context, and no podman stop fails. */
  predicate Calm(names: Names, e: Event) {
    && !(e.OnQueue? && e.q.Lookup? && e.q.task in names.background)
    && (e.OnPool? && e.p.PodmanStop? ==> e.p.ok)
  }

  ghost predicate AllCalm(names: Names, evs: seq<Event>) {
    forall n :: 0 <= n < |evs| ==> Calm(names, evs[n])
  }

  ghost predicate CalmRun(s: State, rest: seq<Event>, t: State) { AllCalm(s.names, rest) && Exec(s, rest) == Some(t) }

  lemma {:induction false} SameNames(s: State, rest: seq<Event>, t: State)
    requires Exec(s, rest) == Some(t)
    ensures t.names == s.names
  {
    if rest == [] {
    } else {
      SameNames(s, rest[..|rest| - 1], Exec(s, rest[..|rest| - 1]).value);
    }
  }

  lemma CalmThen(s: State, rest: seq<Event>, m: State, e: Event, t: State)
    requires CalmRun(s, rest, m) && Calm(s.names, e) && Step(m, e) == Some(t)
    ensures CalmRun(s, rest + [e], t)
  {
    ExecStep(s, rest, e);
  }

  lemma CalmBoth(s: State, xs: seq<Event>, m: State, ys: seq<Event>, t: State)
    requires CalmRun(s, xs, m) && CalmRun(m, ys, t)
    ensures CalmRun(s, xs + ys, t)
  {
    SameNames(s, xs, m);
    Concat(s, xs, m, ys);
  }

  lemma WorkIsCalm(s: State, rest: seq<Event>, t: State)
    requires Leads(s, rest, t)
    ensures CalmRun(s, rest, t)
  {
    forall n | 0 <= n < |rest| ensures Calm(s.names, rest[n]) {
      assert Works(rest[n]);
    }
  }

  // ---- Dispatches that come to their end ------------------------------------------------------------------

  /** What the constructions of runs rely on. */
  ghost predicate Live(s: State) {
    && Q.Inv(s.queue) && !s.queue.panicked && s.queue.slots >= 1 && !s.main.Exited? && s.cancelled
    && PS.Sound(s.pool) && Named(s)
  }

  lemma IsLive(slots: nat, names: Names, evs: seq<Event>, s: State)
    requires slots >= 1 && Exec(Init(slots, names), evs) == Some(s)
    requires !s.queue.panicked && !s.main.Exited? && s.cancelled
    ensures Live(s)
  {
    Projections(slots, names, evs);
    Q.ExecInv(slots, QueueEvents(evs));
    PS.ExecSound(PoolEvents(evs));
    ExecNamed(slots, names, evs);
  }

  lemma {:induction false} NamedForever(s: State, rest: seq<Event>, t: State)
    requires Named(s) && Exec(s, rest) == Some(t)
    ensures Named(t)
  {
    if rest == [] {
    } else {
      var n := |rest| - 1;
      var m := Exec(s, rest[..n]).value;
      NamedForever(s, rest[..n], m);
      match rest[n]
      case OnQueue(q) => NamedQueue(m, q, t);
      case OnPool(p) => NamedPool(m, p, t);
      case _ =>
    }
  }

  lemma MovesAllowed(s: State, who: set<(P.ThreadId, P.Key)>, evs: seq<P.Event>, p: P.State)
    requires PS.Leads(who, s.pool, evs, p) && s.cancelled
    requires forall w :: w in who ==> w.0 in s.names.background && w.1.Main?
    ensures Allowed(s, evs)
  {
    forall n | 0 <= n < |evs| ensures AllowedEvent(s, evs[n]) {
      assert PS.QuietEvent(evs[n]) && (evs[n].PodmanRun? ==> (evs[n].thread, evs[n].key) in who);
    }
  }

  lemma MovePool(s: State, evs: seq<P.Event>, p: P.State) returns (rest: seq<Event>, t: State)
    requires Live(s) && PS.Leads({}, s.pool, evs, p) && PS.Sound(p)
    ensures Leads(s, rest, t) && Live(t) && t == s.(pool := p)
  {
    MovesAllowed(s, {}, evs, p);
    PoolRuns(s, evs, p);
    rest, t := Lift(evs), s.(pool := p);
    NamedForever(s, rest, t);
  }

  /** A dispatch that has begun comes to its end. */
  lemma FinishKnown(s: State, g: Q.Task) returns (rest: seq<Event>, t: State)
    requires Live(s) && g in s.pool.threads && s.pool.threads[g].key.Main?
    ensures Leads(s, rest, t) && Live(t) && t == s.(pool := t.pool) && DispatchReturned(t.pool, g)
    ensures t.pool.running == s.pool.running && t.pool.stopAll == s.pool.stopAll
    ensures t.pool.threads.Keys == s.pool.threads.Keys
  {
    var free, m := PS.FreeLock(s.pool, g);
    var finish, p := PS.FinishThread(m, g);
    PS.LeadsBoth({}, s.pool, free, m, finish, p);
    rest, t := MovePool(s, free + finish, p);
  }

  /** A closure that has been called dispatches. */
  lemma Dispatches(s: State, k: nat, g: Q.Task) returns (t: State)
    requires Live(s) && k < |s.queue.chans| && s.queue.chans[k].phase == Q.Running(g) && g !in s.pool.threads
    ensures var e := OnPool(P.Call(g, s.queue.chans[k].owner)); Works(e) && Step(s, e) == Some(t)
    ensures Live(t) && t == s.(pool := t.pool)
    ensures t.pool.threads == s.pool.threads[g := P.Thread(P.Main(s.queue.chans[k].owner), P.Calling)]
    ensures t.pool.running == s.pool.running && t.pool.stopAll == s.pool.stopAll
  {
    var e := P.Call(g, s.queue.chans[k].owner);
    RunsOnItsChat(s.queue, k, g);
    var p := P.Step(s.pool, e).value;
    t := s.(pool := p);
    PS.SoundStep(s.pool, e, p);
    NamedPool(s, e, t);
  }

  /** The closure a worker has called gets to the end of its dispatch. */
  lemma FinishTask(s: State, k: nat, g: Q.Task) returns (rest: seq<Event>, t: State)
    requires Live(s) && k < |s.queue.chans| && s.queue.chans[k].phase == Q.Running(g)
    ensures Leads(s, rest, t) && Live(t) && t == s.(pool := t.pool) && DispatchReturned(t.pool, g)
    ensures t.pool.running == s.pool.running && t.pool.stopAll == s.pool.stopAll
    ensures t.pool.threads.Keys == s.pool.threads.Keys + {g}
  {
    assert Pending(s.queue, k, g);
    if g in s.pool.threads {
      rest, t := FinishKnown(s, g);
    } else {
      var m := Dispatches(s, k, g);
      rest, t := FinishKnown(m, g);
      LeadsFirst(s, OnPool(P.Call(g, s.queue.chans[k].owner)), m, rest, t);
      rest := [OnPool(P.Call(g, s.queue.chans[k].owner))] + rest;
    }
  }

  // ---- Room in a channel ---------------------------------------------------------------------------------

  ghost predicate NoneWillDispatch(s: State) {
    forall k: nat, t :: !WillDispatch(s, k, t)
  }

  predicate BackgroundBegan(s: State, x: Q.Task) { x in s.names.background && x in s.pool.threads }

  /** No container, no call, no channel and no background dispatch comes or goes. */
  ghost predicate OnlyDrained(s: State, t: State) {
    && t.pool.running == s.pool.running && t.pool.stopAll == s.pool.stopAll && |t.queue.chans| == |s.queue.chans|
    && (NoneWillDispatch(s) ==> NoneWillDispatch(t) && forall x :: BackgroundBegan(t, x) ==> BackgroundBegan(s, x))
  }

  lemma WorkerMoves(s: State, e: Q.Event) returns (t: State)
    requires Live(s) && Q.IsWork(e) && Q.Step(s.queue, e).Some? && (e.Finish? ==> DispatchReturned(s.pool, e.task))
    ensures Step(s, OnQueue(e)) == Some(t) && Live(t) && OnlyDrained(s, t)
    ensures QS.Measure(t.queue) < QS.Measure(s.queue)
  {
    var q := Q.Step(s.queue, e).value;
    t := s.(queue := q);
    Q.StepInv(s.queue, e, q);
    QS.WorkShrinks(s.queue, e, q);
    NamedQueue(s, e, t);
    forall k: nat, x ensures WillDispatch(t, k, x) ==> WillDispatch(s, k, x) {
      if Pending(q, k, x) { PendingOnlyShrinks(s.queue, e, q, k, x); }
    }
  }

  /** Before a worker moves on from a closure, the closure's dispatch comes to its end. */
  lemma MoveOn(s: State, k: nat, x: Q.Task) returns (rest: seq<Event>, t: State)
    requires Live(s) && Pending(s.queue, k, x)
    ensures Leads(s, rest, t) && Live(t) && OnlyDrained(s, t) && QS.Measure(t.queue) < QS.Measure(s.queue)
  {
    var e := NextMove(s.queue, k, x);
    var first, m := [], s;
    if e.Finish? {
      first, m := FinishTask(s, e.chan, e.task);
      FinishDrains(s, e.chan, e.task, m);
    }
    t := WorkerMoves(m, e);
    LeadsFirst(m, OnQueue(e), t, [], t);
    LeadsBoth(s, first, m, [OnQueue(e)] + [], t);
    rest := first + ([OnQueue(e)] + []);
  }

  lemma FinishDrains(s: State, k: nat, g: Q.Task, t: State)
    requires Pending(s.queue, k, g) && t == s.(pool := t.pool)
    requires t.pool.running == s.pool.running && t.pool.stopAll == s.pool.stopAll
    requires t.pool.threads.Keys == s.pool.threads.Keys + {g}
    ensures OnlyDrained(s, t)
  {
    if NoneWillDispatch(s) {
      assert !WillDispatch(s, k, g);
      forall j: nat, x ensures !WillDispatch(t, j, x) { assert !WillDispatch(s, j, x); }
    }
  }

  /** Workers go on until a channel has room. */
  lemma {:induction false} MakeRoom(s: State, k: nat) returns (rest: seq<Event>, t: State)
    requires Live(s) && k < |s.queue.chans|
    ensures Leads(s, rest, t) && Live(t) && OnlyDrained(s, t)
    ensures k < |t.queue.chans| && |t.queue.chans[k].buffer| < Q.BUFFER_SIZE
    decreases QS.Measure(s.queue)
  {
    if |s.queue.chans[k].buffer| < Q.BUFFER_SIZE {
      rest, t := [], s;
    } else {
      var x := s.queue.chans[k].buffer[0];
      assert x in Q.InHand(s.queue.chans[k]) + s.queue.chans[k].buffer;
      var first, m := MoveOn(s, k, x);
      rest, t := MakeRoom(m, k);
      LeadsBoth(s, first, m, rest, t);
      rest := first + rest;
    }
  }

  // ---- The send -------------------------------------------------------------------------------------------

  /** What a send by a call under way changes. */
  ghost predicate Sent(s: State, c: Q.CallId, t: State) {
    && c in s.queue.calls && t.queue.calls == s.queue.calls - {c} && t.queue.stop == s.queue.stop
    && !t.queue.panicked && t.main == s.main && t.cancelled == s.cancelled && t.names == s.names
    && t.pool.running == s.pool.running && t.pool.stopAll == s.pool.stopAll
    && Pending(t.queue, s.queue.calls[c].chan, s.queue.calls[c].task)
    && (NoneWillDispatch(s) ==> forall x :: BackgroundBegan(t, x) ==> BackgroundBegan(s, x))
  }

  lemma SendNow(s: State, c: Q.CallId) returns (t: State)
    requires Live(s) && c in s.queue.calls && s.queue.stop.NotStopped?
    requires s.queue.calls[c].chan < |s.queue.chans|
    requires |s.queue.chans[s.queue.calls[c].chan].buffer| < Q.BUFFER_SIZE
    ensures Step(s, OnQueue(Q.Send(c, s.queue.calls[c].chat, s.queue.calls[c].task))) == Some(t)
    ensures Live(t) && t == s.(queue := t.queue) && t.queue.calls == s.queue.calls - {c} && t.queue.stop == s.queue.stop
    ensures Pending(t.queue, s.queue.calls[c].chan, s.queue.calls[c].task)
  {
    var call := s.queue.calls[c];
    var e := Q.Send(c, call.chat, call.task);
    var q := Q.Step(s.queue, e).value;
    t := s.(queue := q);
    Q.StepInv(s.queue, e, q);
    NamedQueue(s, e, t);
    var ch := q.chans[call.chan];
    assert ch.buffer[|ch.buffer| - 1] == call.task;
    assert (Q.InHand(ch) + ch.buffer)[|Q.InHand(ch)| + |ch.buffer| - 1] == call.task;
  }

  /** Before Stop, a call inside Enqueue can always send, however full its channel is. */
  lemma SendCall(s: State, c: Q.CallId) returns (rest: seq<Event>, t: State)
    requires Live(s) && c in s.queue.calls && s.queue.stop.NotStopped?
    ensures CalmRun(s, rest, t) && Live(t) && Sent(s, c, t)
  {
    var first, m := MakeRoom(s, s.queue.calls[c].chan);
    OnlyWorked(s, first, m);
    WorkIsCalm(s, first, m);
    t := SendNow(m, c);
    var e := OnQueue(Q.Send(c, s.queue.calls[c].chat, s.queue.calls[c].task));
    CalmThen(s, first, m, e, t);
    rest := first + [e];
  }
}
