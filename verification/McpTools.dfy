/**
 pitu-mcp's tool handlers (cmd/pitu-mcp/tools.go and dispatch.go): the latch that lets one message
 through per process, publishing into the IPC directory, and the polling loop for a response.
 */
module McpTools {
  import opened Prelude
  import opened AtomicFile

  // ---- sendMessage, called any number of times, concurrently ------------------------------------

  type CallId = nat

  datatype Phase = Writing | Rejected | Sent | NotSent

  datatype Event =
    | Call(id: CallId)                  // the compare-and-swap at the start of the handler
    | Finish(id: CallId, ok: bool)      // writeIPC returns

  datatype State = State(called: bool, calls: map<CallId, Phase>)

  const INIT: State := State(false, map[])

  function Step(s: State, e: Event): Option<State> {
    match e
    case Call(i) =>
      if i in s.calls then None else Some(State(true, s.calls[i := if s.called then Rejected else Writing]))
    case Finish(i, ok) =>
      if i in s.calls && s.calls[i].Writing?
      then Some(s.(calls := s.calls[i := if ok then Sent else NotSent])) else None
  }

  function Exec(evs: seq<Event>): Option<State> {
    if evs == [] then Some(INIT)
    else match Exec(evs[..|evs| - 1])
         case None => None
         case Some(m) => Step(m, evs[|evs| - 1])
  }

  /** The call whose compare-and-swap comes first. */
  function First(evs: seq<Event>): Option<CallId> {
    if evs == [] then None
    else if First(evs[..|evs| - 1]).Some? then First(evs[..|evs| - 1])
    else if evs[|evs| - 1].Call? then Some(evs[|evs| - 1].id) else None
  }

  /** The message files published. */
  function Published(evs: seq<Event>): seq<CallId> {
    if evs == [] then []
    else
      var e := evs[|evs| - 1];
      Published(evs[..|evs| - 1]) + if e.Finish? && e.ok then [e.id] else []
  }

  /**
   Of all calls to sendMessage in one process, in any interleaving, only the first is not rejected:
   one message file is published when it succeeded and none otherwise, whatever the others do.
   */
  lemma {:induction false} OnlyTheFirstIsSent(evs: seq<Event>)
    requires Exec(evs).Some?
    ensures var s := Exec(evs).value;
      && (s.called <==> First(evs).Some?)
      && (forall i :: i in s.calls && !s.calls[i].Rejected? ==> First(evs) == Some(i))
      && (First(evs).Some? ==> First(evs).value in s.calls && !s.calls[First(evs).value].Rejected?)
      && Published(evs) == if First(evs).Some? && s.calls[First(evs).value].Sent? then [First(evs).value] else []
  {
    if evs == [] {
    } else {
      var n := |evs| - 1;
      OnlyTheFirstIsSent(evs[..n]);
      var s, e, s' := Exec(evs[..n]).value, evs[n], Exec(evs).value;
      assert Step(s, e) == Some(s');
      if e.Call? {
        assert Published(evs) == Published(evs[..n]);
      } else {
        assert First(evs) == First(evs[..n]) == Some(e.id);
        assert Published(evs[..n]) == [];
      }
    }
  }

  // ---- The handlers ---------------------------------------------------------------------------------

  /** What a select of dispatchCapability's loop can give. */
  datatype Tick = Deadline | NotThere | There(data: Data)

  datatype Response = Response(result: string, error: string, errorCode: string)

  datatype Answer =
    WriteError | TimedOut | Unreadable | Refused(error: string, errorCode: string) | Returned(result: string)

  /** What dispatchCapability makes of the response file's content: an error wins over a result. */
  ghost predicate AnswersWith(decoded: Option<Response>, answer: Answer) {
    && (answer.Unreadable? <==> decoded.None?)
    && (answer.Refused? <==> decoded.Some? && decoded.value.error != "")
    && (answer.Refused? ==> answer.error == decoded.value.error && answer.errorCode == decoded.value.errorCode)
    && (answer.Returned? <==> decoded.Some? && decoded.value.error == "")
    && (answer.Returned? ==> answer.result == decoded.value.result)
  }

  /** A sendMessage call: the published content, the names its file gets, and what fails in publishing. */
  datatype Sending = Sending(data: Data, tmp: Path, dest: Path, fault: Fault)

  class ToolHandlers {
    const ipcDir: Directory
    var sendMessageCalled: bool

    constructor (ipcDir: Directory)
      ensures this.ipcDir == ipcDir && !sendMessageCalled
    {
      this.ipcDir := ipcDir;
      sendMessageCalled := false;
    }

    method HandleSendMessage(m: Sending) returns (ok: bool)
      requires m.tmp !in ipcDir.files && m.tmp != m.dest
      modifies this`sendMessageCalled, ipcDir
      ensures sendMessageCalled
      ensures ok <==> !old(sendMessageCalled) && m.fault.NoFault?
      ensures ipcDir.files == if ok then old(ipcDir.files)[m.dest := m.data] else old(ipcDir.files)
    {
      if sendMessageCalled {
        return false;
      }
      sendMessageCalled := true;
      ghost var seen;
      ok, seen := ipcDir.Publish(m.tmp, m.dest, m.data, m.fault);
    }

    /** One turn of an agent: however often it sends, at most its first message is published. */
    method SendAll(ms: seq<Sending>) returns (oks: seq<bool>)
      requires !sendMessageCalled
      requires forall i, j :: 0 <= i < |ms| && 0 <= j < |ms| ==> ms[i].tmp != ms[j].dest
      requires forall i :: 0 <= i < |ms| ==> ms[i].tmp !in ipcDir.files
      modifies this`sendMessageCalled, ipcDir
      ensures |oks| == |ms| && forall i :: 0 <= i < |ms| ==> (oks[i] <==> i == 0 && ms[0].fault.NoFault?)
      ensures ipcDir.files ==
        if ms != [] && ms[0].fault.NoFault? then old(ipcDir.files)[ms[0].dest := ms[0].data] else old(ipcDir.files)
    {
      oks := [];
      for i := 0 to |ms|
        invariant sendMessageCalled <==> i > 0
        invariant |oks| == i && forall j :: 0 <= j < i ==> (oks[j] <==> j == 0 && ms[0].fault.NoFault?)
        invariant ipcDir.files ==
          if i > 0 && ms[0].fault.NoFault? then old(ipcDir.files)[ms[0].dest := ms[0].data] else old(ipcDir.files)
      {
        var ok := HandleSendMessage(ms[i]);
        oks := oks + [ok];
      }
    }
  }

  /**
   dispatchCapability's polling loop, over what its selects give until one of them decides; when none
   of them does, the deadline comes next.  The first deciding select fixes the answer, and the
   response file is removed exactly when it was read.
   */
  method AwaitResponse(ticks: seq<Tick>, decode: Data -> Option<Response>)
    returns (answer: Answer, removed: bool, decidedAt: nat)
    ensures decidedAt <= |ticks| && forall i :: 0 <= i < decidedAt ==> ticks[i].NotThere?
    ensures removed <==> decidedAt < |ticks| && ticks[decidedAt].There?
    ensures !removed ==> answer == TimedOut
    ensures removed ==> AnswersWith(decode(ticks[decidedAt].data), answer)
    ensures !removed ==> decidedAt == |ticks| || ticks[decidedAt].Deadline?
  {
    decidedAt := 0;
    while decidedAt < |ticks|
      invariant decidedAt <= |ticks| && forall i :: 0 <= i < decidedAt ==> ticks[i].NotThere?
    {
      match ticks[decidedAt] {
        case Deadline => return TimedOut, false, decidedAt;
        case NotThere =>
        case There(data) =>
          removed := true;
          var decoded := decode(data);
          if decoded.None? { return Unreadable, removed, decidedAt; }
          var resp := decoded.value;
          if resp.error != "" { return Refused(resp.error, resp.errorCode), removed, decidedAt; }
          return Returned(resp.result), removed, decidedAt;
      }
      decidedAt := decidedAt + 1;
    }
    return TimedOut, false, decidedAt;
  }

  /** dispatchCapability: publish the request, then wait for the response; a failed publication ends the call. */
  method DispatchCapability(requests: Directory, request: Sending, ticks: seq<Tick>, decode: Data -> Option<Response>)
    returns (answer: Answer, removed: bool, decidedAt: nat)
    requires request.tmp !in requests.files && request.tmp != request.dest
    modifies requests
    ensures requests.files ==
      if request.fault.NoFault? then old(requests.files)[request.dest := request.data] else old(requests.files)
    ensures !request.fault.NoFault? ==> answer.WriteError? && !removed
    ensures request.fault.NoFault? ==>
      && decidedAt <= |ticks| && (forall i :: 0 <= i < decidedAt ==> ticks[i].NotThere?)
      && (removed <==> decidedAt < |ticks| && ticks[decidedAt].There?)
      && (if removed then AnswersWith(decode(ticks[decidedAt].data), answer) else answer == TimedOut)
  {
    var ok;
    ghost var seen;
    ok, seen := requests.Publish(request.tmp, request.dest, request.data, request.fault);
    if !ok { return WriteError, false, 0; }
    answer, removed, decidedAt := AwaitResponse(ticks, decode);
  }
}
