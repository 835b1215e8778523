/** What becomes of the closures handed to Enqueue. */
module QueueOffers {
  import opened Prelude
  import opened QueueProtocol

  // ---- Nothing is lost before Stop -----------------------------------------------------------------------

  /** How many closures were handed to Enqueue for a chat. */
  function Offered(evs: seq<Event>, c: ChatId): nat {
    if evs == [] then 0
    else
      var e := evs[|evs| - 1];
      Offered(evs[..|evs| - 1], c) + if e.Lookup? && e.chat == c then 1 else 0
  }

  /** The calls of Enqueue for a chat that have not returned. */
  function CallsOf(s: State, c: ChatId): set<CallId> { set i | i in s.calls && s.calls[i].chat == c }

  lemma OneCallMore(s: State, i: CallId, call: Call, s': State, c: ChatId)
    requires i !in s.calls && s'.calls == s.calls[i := call]
    ensures |CallsOf(s', c)| == |CallsOf(s, c)| + if call.chat == c then 1 else 0
  {
    assert CallsOf(s', c) == CallsOf(s, c) + if call.chat == c then {i} else {};
  }

  lemma OneCallLess(s: State, i: CallId, s': State, c: ChatId)
    requires i in s.calls && s'.calls == s.calls - {i}
    ensures |CallsOf(s', c)| == |CallsOf(s, c)| - if s.calls[i].chat == c then 1 else 0
  {
    assert CallsOf(s', c) == CallsOf(s, c) - if s.calls[i].chat == c then {i} else {};
  }

  lemma CallParks(s: State, i: CallId, s': State, c: ChatId)
    requires i in s.calls && i in s'.calls && s'.calls == s.calls[i := s'.calls[i]]
    requires s'.calls[i].chat == s.calls[i].chat
    ensures CallsOf(s', c) == CallsOf(s, c)
  {
  }

  lemma CallsStep(s: State, e: Event, s': State, c: ChatId)
    requires Step(s, e) == Some(s') && s'.stop.NotStopped?
    ensures |CallsOf(s', c)| + (if e.Send? && e.chat == c then 1 else 0)
         == |CallsOf(s, c)| + if e.Lookup? && e.chat == c then 1 else 0
  {
    match e
    case Lookup(i, _, _) => OneCallMore(s, i, s'.calls[i], s', c);
    case Send(i, _, _) => OneCallLess(s, i, s', c);
    case Park(i) => CallParks(s, i, s', c);
    case _ =>
  }

  /**
   Until Stop is called, the closures handed to Enqueue for a chat are the accepted ones and those of the
   calls that have not returned: none is lost.
   */
  lemma {:induction false} NothingIsLost(slots: nat, evs: seq<Event>, c: ChatId)
    requires Exec(Init(slots), evs).Some? && Exec(Init(slots), evs).value.stop.NotStopped?
    ensures Offered(evs, c) == |Accepted(evs, c)| + |CallsOf(Exec(Init(slots), evs).value, c)|
  {
    if evs == [] {
      assert CallsOf(Init(slots), c) == {};
    } else {
      var n := |evs| - 1;
      var s, s' := Exec(Init(slots), evs[..n]).value, Exec(Init(slots), evs).value;
      StopOnlyGoesOn(s, evs[n], s');
      NothingIsLost(slots, evs[..n], c);
      CallsStep(s, evs[n], s', c);
    }
  }

  lemma StopOnlyGoesOn(s: State, e: Event, s': State)
    requires Step(s, e) == Some(s')
    ensures s'.stop.NotStopped? <==> s.stop.NotStopped? && !e.CloseDone?
  {
  }

  /** Stop has been called exactly when it has closed `done`. */
  lemma {:induction false} StopCalled(slots: nat, evs: seq<Event>)
    requires Exec(Init(slots), evs).Some?
    ensures Exec(Init(slots), evs).value.stop.NotStopped? <==> CloseDone !in evs
  {
    if evs == [] {
    } else {
      var n := |evs| - 1;
      StopCalled(slots, evs[..n]);
      StopOnlyGoesOn(Exec(Init(slots), evs[..n]).value, evs[n], Exec(Init(slots), evs).value);
      assert evs == evs[..n] + [evs[n]];
    }
  }

  // ---- How a call ends -----------------------------------------------------------------------------------

  /** Call `i` of Enqueue returns with the last event of the run. */
  ghost predicate Returns(slots: nat, evs: seq<Event>, i: CallId) {
    && evs != [] && Exec(Init(slots), evs).Some?
    && i in Exec(Init(slots), evs[..|evs| - 1]).value.calls && i !in Exec(Init(slots), evs).value.calls
  }

  /** A call returns by sending the closure it was given, for the chat it was given, or after Stop was called. */
  lemma ReturnsBySending(slots: nat, evs: seq<Event>, i: CallId)
    requires Returns(slots, evs, i)
    ensures var call := Exec(Init(slots), evs[..|evs| - 1]).value.calls[i];
      evs[|evs| - 1] == Send(i, call.chat, call.task) || CloseDone in evs
  {
    StopCalled(slots, evs);
  }

  /** A call that has not returned brings the closure, and stands for the chat, of the last Lookup of its number. */
  lemma {:induction false} CallBringsItsClosure(slots: nat, evs: seq<Event>, i: CallId) returns (n: nat)
    requires Exec(Init(slots), evs).Some? && i in Exec(Init(slots), evs).value.calls
    ensures var call := Exec(Init(slots), evs).value.calls[i];
      n < |evs| && evs[n] == Lookup(i, call.chat, call.task)
  {
    n := |evs| - 1;
    var s, s' := Exec(Init(slots), evs[..n]).value, Exec(Init(slots), evs).value;
    CallStays(s, evs[n], s', i);
    if evs[n] != Lookup(i, s'.calls[i].chat, s'.calls[i].task) {
      n := CallBringsItsClosure(slots, evs[..n], i);
    }
  }

  lemma CallStays(s: State, e: Event, s': State, i: CallId)
    requires Step(s, e) == Some(s') && i in s'.calls
    ensures e == Lookup(i, s'.calls[i].chat, s'.calls[i].task)
         || (i in s.calls && s.calls[i].chat == s'.calls[i].chat && s.calls[i].task == s'.calls[i].task)
  {
  }

  // ---- The select of Enqueue -----------------------------------------------------------------------------

  /** A channel never holds more than 256 closures. */
  lemma {:induction false} BuffersAreBounded(slots: nat, evs: seq<Event>, k: ChanId)
    requires Exec(Init(slots), evs).Some? && k < |Exec(Init(slots), evs).value.chans|
    ensures |Exec(Init(slots), evs).value.chans[k].buffer| <= 256
  {
    var n := |evs| - 1;
    var s, s' := Exec(Init(slots), evs[..n]).value, Exec(Init(slots), evs).value;
    if k < |s.chans| {
      BuffersAreBounded(slots, evs[..n], k);
    }
    BufferStep(s, evs[n], s', k);
  }

  lemma BufferStep(s: State, e: Event, s': State, k: ChanId)
    requires Step(s, e) == Some(s') && k < |s'.chans| && (k < |s.chans| ==> |s.chans[k].buffer| <= 256)
    ensures |s'.chans[k].buffer| <= 256
  {
  }

  /**
   What the select of a call can do, in every reachable state.  Before Stop it sends when the channel has
   room and waits when it is full; it never returns without sending.  After Stop was called it can always
   give up, and it panics exactly when its channel has been closed.
   */
  lemma SelectExactly(slots: nat, evs: seq<Event>, i: CallId)
    requires Exec(Init(slots), evs).Some? && !Exec(Init(slots), evs).value.panicked
    requires i in Exec(Init(slots), evs).value.calls
    ensures
      var s := Exec(Init(slots), evs).value;
      var call := s.calls[i];
      && call.chat in s.chats && s.chats[call.chat] < |s.chans|
      && var ch := s.chans[s.chats[call.chat]];
        && (Step(s, Send(i, call.chat, call.task)).Some? <==> |ch.buffer| < 256 && !ch.closed)
        && (Step(s, Park(i)).Some? <==> call.Selecting? && CloseDone !in evs && |ch.buffer| == 256)
        && (Step(s, Drop(i)).Some? <==> CloseDone in evs)
        && (Step(s, SendOnClosed(i)).Some? <==> ch.closed)
        && (call.Parked? ==> CloseDone !in evs)
        && (ch.closed ==> CloseDone in evs)
  {
    ExecInv(slots, evs);
    StopCalled(slots, evs);
    BuffersAreBounded(slots, evs, Exec(Init(slots), evs).value.calls[i].chan);
  }
}
