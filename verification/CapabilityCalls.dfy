/**
 Capability calls from main agents: dispatchCapability in pitu-mcp, the routed request, the goroutine
 of handleCapabilityRequest, and WriteResponse.  A call is named by its fresh request ID.  The file
 system keeps requests by IPC root and file name and responses by IPC root and request ID.
 */
module CapabilityCalls {
  import opened Prelude

  type ChatId = string
  type RequestId = nat
  type FileName = nat
  type JobId = nat

  datatype Outcome = Echo(msg: Option<string>) | Failure(code: string)

  /** handleCapabilityRequest: the one implemented capability, and the error for any other. */
  function Compute(capability: string, params: map<string, string>): Outcome {
    if capability == "noop" then Echo(if "msg" in params then Some(params["msg"]) else None)
    else Failure("capability_disabled")
  }

  /** The content of a response file: not completely written, or a whole response. */
  datatype Data = Torn | Whole(outcome: Outcome)

  datatype Request = Request(id: RequestId, capability: string, params: map<string, string>, chat: ChatId)

  datatype CallPhase =
    | Publishing                 // before writeIPC returns
    | Waiting                    // in the polling loop
    | HasRead(data: Data)        // read the response, not yet removed it
    | Returned(outcome: Outcome)
    | Unreadable                 // the response did not unmarshal
    | TimedOut
    | WriteFailed

  datatype Call = Call(chat: ChatId, capability: string, params: map<string, string>, phase: CallPhase)

  /** The goroutine that answers one routed request; `temp` is its temp file. */
  datatype Job = Job(request: Request, temp: Option<Data>)

  datatype State = State(
    calls: map<RequestId, Call>,
    requests: map<(ChatId, FileName), Request>,
    jobs: map<JobId, Job>,
    responses: map<(ChatId, RequestId), Data>)

  const INIT: State := State(map[], map[], map[], map[])

  datatype Event =
    | Issue(id: RequestId, chat: ChatId, capability: string, params: map<string, string>)
    | WriteFail(id: RequestId)
    | Publish(id: RequestId, name: FileName)            // rename into requests/, over a file of the same name
    | Route(root: ChatId, name: FileName, job: JobId)   // the watcher routes the file, once or more often
    | RemoveRequest(root: ChatId, name: FileName)
    | CreateTemp(job: JobId)
    | WriteTemp(job: JobId)
    | Rename(job: JobId)                                // into responses/, under the request ID
    | Abandon(job: JobId)                               // WriteResponse fails and removes its temp file
    | Poll(id: RequestId)                               // a tick that finds the response file
    | Consume(id: RequestId)                            // remove the file, return
    | Timeout(id: RequestId)

  /** The phases of a call's own code in dispatchCapability. */
  function NextPhase(s: State, r: RequestId, c: Call, e: Event): Option<CallPhase> {
    match (e, c.phase)
    case (WriteFail(_), Publishing) => Some(WriteFailed)
    case (Publish(_, _), Publishing) => Some(Waiting)
    case (Poll(_), Waiting) => if (c.chat, r) in s.responses then Some(HasRead(s.responses[(c.chat, r)])) else None
    case (Consume(_), HasRead(Whole(outcome))) => Some(Returned(outcome))
    case (Consume(_), HasRead(Torn)) => Some(Unreadable)
    case (Timeout(_), Waiting) => Some(TimedOut)
    case _ => None
  }

  predicate IsCall(e: Event) { e.WriteFail? || e.Publish? || e.Poll? || e.Consume? || e.Timeout? }

  function DoCall(s: State, e: Event): Option<State>
    requires IsCall(e)
  {
    var r := e.id;
    if r !in s.calls then None
    else
      var c := s.calls[r];
      match NextPhase(s, r, c, e)
      case None => None
      case Some(p) =>
        var m := s.(calls := s.calls[r := c.(phase := p)]);
        Some(match e
             case Publish(_, name) =>
               m.(requests := s.requests[(c.chat, name) := Request(r, c.capability, c.params, c.chat)])
             case Consume(_) => m.(responses := s.responses - {(c.chat, r)})
             case _ => m)
  }

  predicate IsJob(e: Event) { e.CreateTemp? || e.WriteTemp? || e.Rename? || e.Abandon? }

  /** One operation of the goroutine that computes and writes a response. */
  function DoJob(s: State, e: Event): Option<State>
    requires IsJob(e)
  {
    var j := e.job;
    if j !in s.jobs then None
    else
      var q := s.jobs[j].request;
      match (e, s.jobs[j].temp)
      case (CreateTemp(_), None) => Some(s.(jobs := s.jobs[j := Job(q, Some(Torn))]))
      case (WriteTemp(_), Some(Torn)) =>
        Some(s.(jobs := s.jobs[j := Job(q, Some(Whole(Compute(q.capability, q.params))))]))
      case (Rename(_), Some(Whole(o))) =>
        Some(s.(jobs := s.jobs - {j}, responses := s.responses[(q.chat, q.id) := Whole(o)]))
      case (Abandon(_), _) => Some(s.(jobs := s.jobs - {j}))
      case _ => None
  }

  function Step(s: State, e: Event): Option<State> {
    if IsCall(e) then DoCall(s, e)
    else if IsJob(e) then DoJob(s, e)
    else match e
      case Issue(r, chat, cap, params) =>
        if r in s.calls then None else Some(s.(calls := s.calls[r := Call(chat, cap, params, Publishing)]))
      case Route(root, name, j) =>
        // The router overwrites the chat of the payload with the one of the directory.
        if (root, name) in s.requests && j !in s.jobs
        then Some(s.(jobs := s.jobs[j := Job(s.requests[(root, name)].(chat := root), None)])) else None
      case RemoveRequest(root, name) => Some(s.(requests := s.requests - {(root, name)}))
      case _ => None
  }

  function Exec(evs: seq<Event>): Option<State> {
    if evs == [] then Some(INIT)
    else match Exec(evs[..|evs| - 1])
         case None => None
         case Some(m) => Step(m, evs[|evs| - 1])
  }

  // ---- Correlation ----------------------------------------------------------------------------

  /** A request says what its call asked for. */
  ghost predicate Matches(s: State, q: Request, root: ChatId) {
    q.id in s.calls && s.calls[q.id].capability == q.capability && s.calls[q.id].params == q.params
    && s.calls[q.id].chat == root
  }

  function Answer(c: Call): Outcome { Compute(c.capability, c.params) }

  ghost predicate CallOk(c: Call) {
    && (c.phase.HasRead? ==> c.phase.data == Whole(Answer(c)))
    && (c.phase.Returned? ==> c.phase.outcome == Answer(c))
    && !c.phase.Unreadable?
  }

  ghost predicate JobOk(s: State, job: Job) {
    && Matches(s, job.request, job.request.chat)
    && (job.temp.Some? && job.temp.value.Whole? ==> job.temp.value.outcome == Answer(s.calls[job.request.id]))
  }

  ghost predicate CallsOk(s: State) { forall r :: r in s.calls ==> CallOk(s.calls[r]) }

  ghost predicate RequestsOk(s: State) { forall k :: k in s.requests ==> Matches(s, s.requests[k], k.0) }

  ghost predicate JobsOk(s: State) { forall j :: j in s.jobs ==> JobOk(s, s.jobs[j]) }

  ghost predicate ResponsesOk(s: State) {
    forall k :: k in s.responses ==>
      k.1 in s.calls && s.calls[k.1].chat == k.0 && s.responses[k] == Whole(Answer(s.calls[k.1]))
  }

  ghost predicate Inv(s: State) { CallsOk(s) && RequestsOk(s) && JobsOk(s) && ResponsesOk(s) }

  /** Calls are never forgotten, and what they ask for never changes. */
  ghost predicate KeepsCalls(s: State, s': State) {
    forall r :: r in s.calls ==> r in s'.calls && s'.calls[r].chat == s.calls[r].chat
                                 && s'.calls[r].capability == s.calls[r].capability
                                 && s'.calls[r].params == s.calls[r].params
  }

  lemma CallKeepsCalls(s: State, e: Event)
    requires IsCall(e) && DoCall(s, e).Some?
    ensures KeepsCalls(s, DoCall(s, e).value)
  {
  }

  lemma CallPhaseOk(s: State, e: Event)
    requires Inv(s) && IsCall(e) && DoCall(s, e).Some?
    ensures CallOk(DoCall(s, e).value.calls[e.id])
  {
  }

  lemma CallStepInv(s: State, e: Event)
    requires Inv(s) && IsCall(e) && DoCall(s, e).Some?
    ensures Inv(DoCall(s, e).value)
  {
    var s' := DoCall(s, e).value;
    CallKeepsCalls(s, e);
    CallPhaseOk(s, e);
    forall r | r in s'.calls ensures CallOk(s'.calls[r]) {
      if r != e.id { assert s'.calls[r] == s.calls[r]; }
    }
    assert s'.jobs == s.jobs;
    forall j | j in s'.jobs ensures JobOk(s', s'.jobs[j]) { assert JobOk(s, s.jobs[j]); }
    forall k | k in s'.requests ensures Matches(s', s'.requests[k], k.0) {
      if k in s.requests && s'.requests[k] == s.requests[k] { assert Matches(s, s.requests[k], k.0); }
    }
  }

  lemma JobStepInv(s: State, e: Event)
    requires Inv(s) && IsJob(e) && DoJob(s, e).Some?
    ensures Inv(DoJob(s, e).value)
  {
    var s' := DoJob(s, e).value;
    assert JobOk(s, s.jobs[e.job]);
    forall j | j in s'.jobs ensures JobOk(s', s'.jobs[j]) {
      if j != e.job { assert JobOk(s, s.jobs[j]); }
    }
  }

  lemma StepInv(s: State, e: Event, s': State)
    requires Inv(s) && Step(s, e) == Some(s')
    ensures Inv(s')
  {
    if IsCall(e) {
      CallStepInv(s, e);
    } else if IsJob(e) {
      JobStepInv(s, e);
    } else {
      forall j | j in s'.jobs ensures JobOk(s', s'.jobs[j]) {
        if j in s.jobs { assert JobOk(s, s.jobs[j]); }
      }
      forall k | k in s'.requests ensures Matches(s', s'.requests[k], k.0) {
        assert Matches(s, s.requests[k], k.0);
      }
    }
  }

  lemma {:induction false} ExecInv(evs: seq<Event>)
    requires Exec(evs).Some?
    ensures Inv(Exec(evs).value)
  {
    if evs == [] {
    } else {
      var n := |evs| - 1;
      ExecInv(evs[..n]);
      StepInv(Exec(evs[..n]).value, evs[n], Exec(evs).value);
    }
  }

  lemma CallBegins(s: State, e: Event, s': State, r: RequestId)
    requires Step(s, e) == Some(s') && r in s'.calls
    ensures var c := s'.calls[r];
      e == Issue(r, c.chat, c.capability, c.params)
      || (r in s.calls && s.calls[r].(phase := c.phase) == c)
  {
  }

  /** A call asks for what it was issued with. */
  lemma {:induction false} CallsAsIssued(evs: seq<Event>, r: RequestId)
    requires Exec(evs).Some? && r in Exec(evs).value.calls
    ensures var c := Exec(evs).value.calls[r]; Issue(r, c.chat, c.capability, c.params) in evs
  {
    var n := |evs| - 1;
    CallBegins(Exec(evs[..n]).value, evs[n], Exec(evs).value, r);
    if r in Exec(evs[..n]).value.calls {
      CallsAsIssued(evs[..n], r);
    }
  }

  /** The outcome a call asks for: "noop" echoes its message, and there is no other capability. */
  ghost predicate Answers(o: Outcome, capability: string, params: map<string, string>) {
    && (capability == "noop" && "msg" in params ==> o == Echo(Some(params["msg"])))
    && (capability == "noop" && "msg" !in params ==> o == Echo(None))
    && (capability != "noop" ==> o == Failure("capability_disabled"))
  }

  /**
   With any number of concurrent calls, routed any number of times and answered in any order: a call
   that returns was issued with a capability and parameters and has the outcome these ask for, and no call
   reads half a response.
   */
  lemma Correlation(evs: seq<Event>, r: RequestId)
    requires Exec(evs).Some? && r in Exec(evs).value.calls
    ensures var c := Exec(evs).value.calls[r];
      && Issue(r, c.chat, c.capability, c.params) in evs && !c.phase.Unreadable?
      && (c.phase.Returned? ==> Answers(c.phase.outcome, c.capability, c.params))
  {
    ExecInv(evs);
    CallsAsIssued(evs, r);
  }

  // ---- A call can return ------------------------------------------------------------------------------

  lemma Then(evs: seq<Event>, s: State, e: Event, s': State)
    requires Exec(evs) == Some(s) && Step(s, e) == Some(s')
    ensures Exec(evs + [e]) == Some(s')
  {
    assert (evs + [e])[..|evs|] == evs;
  }

  /** The way of a request from its file to the response and back to the call. */
  function RoundTrip(r: RequestId, chat: ChatId, name: FileName, j: JobId): seq<Event> {
    [] + [Publish(r, name)] + [Route(chat, name, j)] + [CreateTemp(j)] + [WriteTemp(j)] + [Rename(j)] + [Poll(r)]
      + [Consume(r)]
  }

  lemma SameRun(evs: seq<Event>, r: RequestId, chat: ChatId, name: FileName, j: JobId)
    ensures evs + [Publish(r, name)] + [Route(chat, name, j)] + [CreateTemp(j)] + [WriteTemp(j)]
              + [Rename(j)] + [Poll(r)] + [Consume(r)]
         == evs + RoundTrip(r, chat, name, j)
  {
  }

  /** The request is published under some name, and a goroutine has written its response to a temp file. */
  lemma RequestToTemp(evs: seq<Event>, s: State, r: RequestId, name: FileName, j: JobId) returns (s': State)
    requires Exec(evs) == Some(s) && r in s.calls && s.calls[r].phase.Publishing? && j !in s.jobs
    ensures var c := s.calls[r];
      && Exec(evs + [Publish(r, name)] + [Route(c.chat, name, j)] + [CreateTemp(j)] + [WriteTemp(j)]) == Some(s')
      && s'.calls == s.calls[r := c.(phase := Waiting)] && j in s'.jobs
      && s'.jobs[j].request == Request(r, c.capability, c.params, c.chat)
      && s'.jobs[j].temp.Some? && s'.jobs[j].temp.value.Whole?
  {
    var c := s.calls[r];
    var q := Request(r, c.capability, c.params, c.chat);
    var s1 := s.(calls := s.calls[r := c.(phase := Waiting)], requests := s.requests[(c.chat, name) := q]);
    var s2 := s1.(jobs := s1.jobs[j := Job(q, None)]);
    var s3 := s2.(jobs := s2.jobs[j := Job(q, Some(Torn))]);
    s' := Step(s3, WriteTemp(j)).value;
    Then(evs, s, Publish(r, name), s1);
    Then(evs + [Publish(r, name)], s1, Route(c.chat, name, j), s2);
    Then(evs + [Publish(r, name)] + [Route(c.chat, name, j)], s2, CreateTemp(j), s3);
    Then(evs + [Publish(r, name)] + [Route(c.chat, name, j)] + [CreateTemp(j)], s3, WriteTemp(j), s');
  }

  lemma TempToReturn(evs: seq<Event>, s: State, r: RequestId, j: JobId)
    requires Exec(evs) == Some(s) && r in s.calls && s.calls[r].phase.Waiting?
    requires j in s.jobs && s.jobs[j].request.id == r && s.jobs[j].request.chat == s.calls[r].chat
    requires s.jobs[j].temp.Some? && s.jobs[j].temp.value.Whole?
    ensures var t := Exec(evs + [Rename(j)] + [Poll(r)] + [Consume(r)]);
      && t.Some? && r in t.value.calls && t.value.calls[r].phase.Returned?
      && t.value.calls[r].(phase := Waiting) == s.calls[r] && (s.calls[r].chat, r) !in t.value.responses
  {
    var c, data := s.calls[r], s.jobs[j].temp.value;
    var s1 := s.(jobs := s.jobs - {j}, responses := s.responses[(c.chat, r) := data]);
    var s2 := s1.(calls := s1.calls[r := c.(phase := HasRead(data))]);
    var s3 := s2.(calls := s2.calls[r := c.(phase := Returned(data.outcome))],
                  responses := s2.responses - {(c.chat, r)});
    Then(evs, s, Rename(j), s1);
    Then(evs + [Rename(j)], s1, Poll(r), s2);
    Then(evs + [Rename(j)] + [Poll(r)], s2, Consume(r), s3);
  }

  /**
   Whatever else is going on, a call that publishes its request can return: with the outcome it asks for, and
   with its response file removed.
   */
  lemma CallCanReturn(evs: seq<Event>, r: RequestId, name: FileName, j: JobId)
    requires Exec(evs).Some? && r in Exec(evs).value.calls && Exec(evs).value.calls[r].phase.Publishing?
    requires j !in Exec(evs).value.jobs
    ensures var c := Exec(evs).value.calls[r];
      var t := Exec(evs + RoundTrip(r, c.chat, name, j));
      && t.Some? && r in t.value.calls && t.value.calls[r].phase.Returned?
      && Answers(t.value.calls[r].phase.outcome, c.capability, c.params) && (c.chat, r) !in t.value.responses
  {
    var s := Exec(evs).value;
    var c := s.calls[r];
    var s' := RequestToTemp(evs, s, r, name, j);
    var first := evs + [Publish(r, name)] + [Route(c.chat, name, j)] + [CreateTemp(j)] + [WriteTemp(j)];
    TempToReturn(first, s', r, j);
    SameRun(evs, r, c.chat, name, j);
    Correlation(evs + RoundTrip(r, c.chat, name, j), r);
  }

  // ---- Which responses are there ------------------------------------------------------------------------

  /** The n-th event puts a response for the request in place. */
  ghost predicate Responds(evs: seq<Event>, k: (ChatId, RequestId), n: nat) {
    && n < |evs| && evs[n].Rename? && Exec(evs[..n]).Some? && evs[n].job in Exec(evs[..n]).value.jobs
    && var q := Exec(evs[..n]).value.jobs[evs[n].job].request; (q.chat, q.id) == k
  }

  /** It has not been consumed since. */
  ghost predicate StillThere(evs: seq<Event>, k: (ChatId, RequestId), n: nat) {
    Responds(evs, k, n) && forall m :: n < m < |evs| ==> evs[m] != Consume(k.1)
  }

  lemma ResponseStep(s: State, e: Event, s': State, k: (ChatId, RequestId))
    requires Inv(s) && Step(s, e) == Some(s')
    ensures k in s'.responses <==>
      (e.Rename? && e.job in s.jobs && (s.jobs[e.job].request.chat, s.jobs[e.job].request.id) == k)
      || (k in s.responses && e != Consume(k.1))
  {
    if IsCall(e) {
      CallResponses(s, e, s', k);
    } else if !IsJob(e) {
      assert s'.responses == s.responses;
    }
  }

  lemma CallResponses(s: State, e: Event, s': State, k: (ChatId, RequestId))
    requires Inv(s) && IsCall(e) && Step(s, e) == Some(s')
    ensures k in s'.responses <==> k in s.responses && e != Consume(k.1)
  {
  }

  lemma StaysThere(evs: seq<Event>, k: (ChatId, RequestId), n: nat)
    requires evs != []
    ensures n < |evs| - 1 ==>
      (StillThere(evs, k, n) <==> StillThere(evs[..|evs| - 1], k, n) && evs[|evs| - 1] != Consume(k.1))
  {
    var ys := evs[..|evs| - 1];
    if n < |ys| {
      assert ys[..n] == evs[..n] && ys[n] == evs[n];
      assert forall m :: 0 <= m < |ys| ==> ys[m] == evs[m];
    }
  }

  /** A response file is there exactly when some goroutine put it there and its call has not consumed it since. */
  lemma {:induction false} ResponsesExactly(evs: seq<Event>, k: (ChatId, RequestId))
    requires Exec(evs).Some?
    ensures k in Exec(evs).value.responses <==> exists n: nat :: StillThere(evs, k, n)
  {
    if evs == [] {
    } else {
      var last := |evs| - 1;
      ExecInv(evs[..last]);
      ResponsesExactly(evs[..last], k);
      ResponseStep(Exec(evs[..last]).value, evs[last], Exec(evs).value, k);
      if n: nat :| StillThere(evs[..last], k, n) {
        StaysThere(evs, k, n);
      }
      if n: nat :| StillThere(evs, k, n) && n < last {
        StaysThere(evs, k, n);
      }
      if Responds(evs, k, last) {
        assert StillThere(evs, k, last);
      }
    }
  }

  // ---- Which requests are there, and who works on them ----------------------------------------------------

  /** The n-th event publishes a request under this name in this root. */
  ghost predicate Publishes(evs: seq<Event>, k: (ChatId, FileName), n: nat) {
    && n < |evs| && evs[n].Publish? && evs[n].name == k.1 && Exec(evs[..n]).Some?
    && evs[n].id in Exec(evs[..n]).value.calls && Exec(evs[..n]).value.calls[evs[n].id].chat == k.0
  }

  /** It has not been removed since. */
  ghost predicate StillPublished(evs: seq<Event>, k: (ChatId, FileName), n: nat) {
    Publishes(evs, k, n) && forall m :: n < m < |evs| ==> evs[m] != RemoveRequest(k.0, k.1)
  }

  lemma RequestStep(s: State, e: Event, s': State, k: (ChatId, FileName))
    requires Step(s, e) == Some(s')
    ensures k in s'.requests <==>
      (e.Publish? && e.id in s.calls && (s.calls[e.id].chat, e.name) == k)
      || (k in s.requests && e != RemoveRequest(k.0, k.1))
  {
  }

  lemma StaysPublished(evs: seq<Event>, k: (ChatId, FileName), n: nat)
    requires evs != []
    ensures n < |evs| - 1 ==>
      (StillPublished(evs, k, n) <==>
       StillPublished(evs[..|evs| - 1], k, n) && evs[|evs| - 1] != RemoveRequest(k.0, k.1))
  {
    var ys := evs[..|evs| - 1];
    if n < |ys| {
      assert ys[..n] == evs[..n] && ys[n] == evs[n];
      assert forall m :: 0 <= m < |ys| ==> ys[m] == evs[m];
    }
  }

  /** A request file is there exactly when some call of its chat published it and it was not removed since. */
  lemma {:induction false} RequestsExactly(evs: seq<Event>, k: (ChatId, FileName))
    requires Exec(evs).Some?
    ensures k in Exec(evs).value.requests <==> exists n: nat :: StillPublished(evs, k, n)
  {
    if evs == [] {
    } else {
      var last := |evs| - 1;
      RequestsExactly(evs[..last], k);
      RequestStep(Exec(evs[..last]).value, evs[last], Exec(evs).value, k);
      if n: nat :| StillPublished(evs[..last], k, n) {
        StaysPublished(evs, k, n);
      }
      if n: nat :| StillPublished(evs, k, n) && n < last {
        StaysPublished(evs, k, n);
      }
      if Publishes(evs, k, last) {
        assert StillPublished(evs, k, last);
      }
    }
  }

  /** How many goroutines were begun, and how many have ended. */
  function Routed(evs: seq<Event>): nat {
    if evs == [] then 0 else Routed(evs[..|evs| - 1]) + if evs[|evs| - 1].Route? then 1 else 0
  }

  function Written(evs: seq<Event>): nat {
    if evs == [] then 0
    else
      var e := evs[|evs| - 1];
      Written(evs[..|evs| - 1]) + if e.Rename? || e.Abandon? then 1 else 0
  }

  /** One goroutine for each routed request, until it has put its response in place or given up. */
  lemma {:induction false} JobsAccounted(evs: seq<Event>)
    requires Exec(evs).Some?
    ensures Routed(evs) == Written(evs) + |Exec(evs).value.jobs|
  {
    if evs == [] {
    } else {
      var n := |evs| - 1;
      JobsAccounted(evs[..n]);
      JobsStep(Exec(evs[..n]).value, evs[n], Exec(evs).value);
    }
  }

  lemma JobsMove(s: State, e: Event, s': State)
    requires Step(s, e) == Some(s')
    ensures if e.Rename? || e.Abandon? then e.job in s.jobs && s'.jobs == s.jobs - {e.job}
            else if e.Route? then e.job !in s.jobs && e.job in s'.jobs && s'.jobs == s.jobs[e.job := s'.jobs[e.job]]
            else s'.jobs.Keys == s.jobs.Keys
  {
    if IsCall(e) {
      assert s'.jobs == s.jobs;
    }
  }

  lemma JobsStep(s: State, e: Event, s': State)
    requires Step(s, e) == Some(s')
    ensures |s'.jobs| == |s.jobs| + (if e.Route? then 1 else 0) - if e.Rename? || e.Abandon? then 1 else 0
  {
    JobsMove(s, e, s');
    if e.Rename? || e.Abandon? {
      assert s'.jobs.Keys == s.jobs.Keys - {e.job};
    } else if e.Route? {
      assert s'.jobs.Keys == s.jobs.Keys + {e.job};
    } else {
      SameSize(s.jobs, s'.jobs);
    }
  }

  lemma SameSize(m: map<JobId, Job>, m': map<JobId, Job>)
    requires m'.Keys == m.Keys
    ensures |m'| == |m|
  {
    assert |m'| == |m'.Keys| && |m| == |m.Keys|;
  }

  /**
   What the code of a call can do next: publish or fail to; while it waits, time out at any moment, or read its
   response when that is there; and return when it has read one.
   */
  lemma NextMoves(evs: seq<Event>, r: RequestId, name: FileName)
    requires Exec(evs).Some? && r in Exec(evs).value.calls
    ensures var s := Exec(evs).value;
      var c := s.calls[r];
      && (Step(s, Publish(r, name)).Some? <==> c.phase.Publishing?)
      && (Step(s, WriteFail(r)).Some? <==> c.phase.Publishing?)
      && (Step(s, Timeout(r)).Some? <==> c.phase.Waiting?)
      && (Step(s, Poll(r)).Some? <==> c.phase.Waiting? && (c.chat, r) in s.responses)
      && (Step(s, Consume(r)).Some? <==> c.phase.HasRead?)
  {
  }

  /** A call that has read a response has read the one it asks for, and returns it. */
  lemma ReadIsReturned(evs: seq<Event>, r: RequestId)
    requires Exec(evs).Some? && r in Exec(evs).value.calls && Exec(evs).value.calls[r].phase.HasRead?
    ensures var c, t := Exec(evs).value.calls[r], Exec(evs + [Consume(r)]);
      && c.phase.data.Whole? && Answers(c.phase.data.outcome, c.capability, c.params)
      && t.Some? && r in t.value.calls && t.value.calls[r].phase == Returned(c.phase.data.outcome)
  {
    ExecInv(evs);
    var s := Exec(evs).value;
    assert CallOk(s.calls[r]);
    Then(evs, s, Consume(r), Step(s, Consume(r)).value);
  }

  // ---- Each call ends once, each response is consumed at most once ----------------------------

  function Consumed(evs: seq<Event>, r: RequestId): nat {
    if evs == [] then 0
    else Consumed(evs[..|evs| - 1], r) + if evs[|evs| - 1] == Consume(r) then 1 else 0
  }

  predicate Over(p: CallPhase) { p.Returned? || p.Unreadable? || p.TimedOut? || p.WriteFailed? }

  /**
   The responses of a request are consumed once when its call returned and never when it did not:
   not before, and not after it timed out, by this call or by any other.
   */
  lemma {:induction false} ConsumedExactly(evs: seq<Event>, r: RequestId)
    requires Exec(evs).Some?
    ensures
      var s := Exec(evs).value;
      Consumed(evs, r) == if r in s.calls && (s.calls[r].phase.Returned? || s.calls[r].phase.Unreadable?) then 1 else 0
  {
    if evs == [] {
    } else {
      var n := |evs| - 1;
      ConsumedExactly(evs[..n], r);
      ConsumeStep(Exec(evs[..n]).value, evs[n], Exec(evs).value, r);
    }
  }

  predicate Answered(s: State, r: RequestId) {
    r in s.calls && (s.calls[r].phase.Returned? || s.calls[r].phase.Unreadable?)
  }

  lemma ConsumeStep(s: State, e: Event, s': State, r: RequestId)
    requires Step(s, e) == Some(s')
    ensures Answered(s', r) <==> Answered(s, r) || e == Consume(r)
    ensures e == Consume(r) ==> !Answered(s, r)
  {
  }

  /** How many calls were issued, and how many ended in each way, as seen from outside. */
  function Issued(evs: seq<Event>): nat {
    if evs == [] then 0 else Issued(evs[..|evs| - 1]) + if evs[|evs| - 1].Issue? then 1 else 0
  }

  function Ended(evs: seq<Event>): nat {
    if evs == [] then 0
    else
      var e := evs[|evs| - 1];
      Ended(evs[..|evs| - 1]) + if e.Consume? || e.Timeout? || e.WriteFail? then 1 else 0
  }

  function InFlight(calls: map<RequestId, Call>): set<RequestId> { set r | r in calls && !Over(calls[r].phase) }

  /** Issued calls are the returned, the timed out and the failed ones, and those in flight. */
  lemma {:induction false} CallsAccounted(evs: seq<Event>)
    requires Exec(evs).Some?
    ensures Issued(evs) == Ended(evs) + |InFlight(Exec(evs).value.calls)|
  {
    if evs == [] {
      assert InFlight(INIT.calls) == {};
    } else {
      var n := |evs| - 1;
      CallsAccounted(evs[..n]);
      InFlightStep(Exec(evs[..n]).value, evs[n], Exec(evs).value);
    }
  }

  lemma CallEnds(s: State, e: Event)
    requires IsCall(e) && DoCall(s, e).Some?
    ensures e.id in s.calls && !Over(s.calls[e.id].phase)
    ensures DoCall(s, e).value.calls == s.calls[e.id := DoCall(s, e).value.calls[e.id]]
    ensures Over(DoCall(s, e).value.calls[e.id].phase) <==> e.Consume? || e.Timeout? || e.WriteFail?
  {
  }

  /** One call changes: the number in flight follows its phase. */
  lemma AddOrRemove(calls: map<RequestId, Call>, r: RequestId, c: Call)
    requires r !in calls || r in InFlight(calls)
    ensures |InFlight(calls[r := c])|
         == |InFlight(calls)| - (if r in calls then 1 else 0) + if Over(c.phase) then 0 else 1
  {
    InFlightAfter(calls, r, c);
  }

  lemma InFlightAfter(calls: map<RequestId, Call>, r: RequestId, c: Call)
    ensures InFlight(calls[r := c]) == InFlight(calls) - {r} + if Over(c.phase) then {} else {r}
  {
  }

  lemma InFlightStep(s: State, e: Event, s': State)
    requires Step(s, e) == Some(s')
    ensures |InFlight(s'.calls)| + (if e.Consume? || e.Timeout? || e.WriteFail? then 1 else 0)
         == |InFlight(s.calls)| + if e.Issue? then 1 else 0
  {
    if IsCall(e) {
      CallEnds(s, e);
      AddOrRemove(s.calls, e.id, s'.calls[e.id]);
    } else if e.Issue? {
      AddOrRemove(s.calls, e.id, s'.calls[e.id]);
    } else {
      assert s'.calls == s.calls;
    }
  }
}
