/**
 internal/ipc/router.go and the message handler of cmd/pitu/main.go.  A JSON decoder is a parameter:
 for each payload type, a function from bytes to a value or an error.
 */
module IpcRouter {
  import opened Prelude

  type Data = seq<nat>

  datatype OutboundMessage = OutboundMessage(chat: string, text: string, kind: string, role: string, subAgent: string)
  datatype TaskFile = TaskFile(action: string, id: string, name: string, schedule: string, prompt: string, chat: string)
  datatype GroupFile = GroupFile(name: string, description: string, chat: string)
  datatype AgentFile = AgentFile(action: string, subAgent: string, role: string, prompt: string, chat: string)
  datatype ReactionFile = ReactionFile(chat: string, messageId: int, emoji: string)
  datatype CapabilityRequest =
    CapabilityRequest(id: string, capability: string, tool: string, params: map<string, string>, chat: string)

  datatype Codec = Codec(
    message: Data -> Option<OutboundMessage>,
    task: Data -> Option<TaskFile>,
    group: Data -> Option<GroupFile>,
    agent: Data -> Option<AgentFile>,
    reaction: Data -> Option<ReactionFile>,
    request: Data -> Option<CapabilityRequest>)

  /** The identity the watcher knows a directory by; the zero value for an unknown directory. */
  datatype Meta = Meta(chat: string, role: string, subAgent: string)

  const NO_META: Meta := Meta("", "", "")

  /** A handler call. */
  datatype Dispatch =
    | OnMessage(message: OutboundMessage)
    | OnTask(task: TaskFile)
    | OnGroup(group: GroupFile)
    | OnAgent(agent: AgentFile)
    | OnReaction(reaction: ReactionFile)
    | OnCapability(request: CapabilityRequest)

  const MAX_FILE_SIZE: nat := 0x10_0000

  const WATCHED_SUBDIRS: seq<string> := ["messages", "tasks", "groups", "agents", "reactions", "requests"]

  /** The payload of a file as the container wrote it. */
  function Payload(codec: Codec, subdir: string, data: Data, hasCapability: bool): Result<Dispatch> {
    match subdir
    case "messages" =>
      (match codec.message(data) case None => Err("unmarshal message") case Some(m) => Ok(OnMessage(m)))
    case "tasks" => (match codec.task(data) case None => Err("unmarshal task") case Some(t) => Ok(OnTask(t)))
    case "groups" => (match codec.group(data) case None => Err("unmarshal group") case Some(g) => Ok(OnGroup(g)))
    case "agents" => (match codec.agent(data) case None => Err("unmarshal agent") case Some(a) => Ok(OnAgent(a)))
    case "reactions" =>
      (match codec.reaction(data) case None => Err("unmarshal reaction") case Some(r) => Ok(OnReaction(r)))
    case "requests" =>
      if !hasCapability then Err("no capability handler")
      else (match codec.request(data)
            case None => Err("unmarshal capability request")
            case Some(c) => Ok(OnCapability(c)))
    case _ => Err("unknown subdir")
  }

  /** A handler call on behalf of the agent that a directory belongs to. */
  function Signed(d: Dispatch, meta: Meta): Dispatch {
    match d
    case OnMessage(m) => OnMessage(m.(chat := meta.chat, role := meta.role, subAgent := meta.subAgent))
    case OnTask(t) => OnTask(t.(chat := meta.chat))
    case OnGroup(g) => OnGroup(g.(chat := meta.chat))
    case OnAgent(a) => OnAgent(a.(chat := meta.chat))
    case OnReaction(r) => OnReaction(r.(chat := meta.chat))
    case OnCapability(c) => OnCapability(c.(chat := meta.chat))
  }

  /** Route, for the file at the path if there is one: the handler call it makes, or its error. */
  function Routed(codec: Codec, subdir: string, file: Option<Data>, meta: Meta, hasCapability: bool): Result<Dispatch> {
    if file.None? then Err("stat")
    else if |file.value| > MAX_FILE_SIZE then Err("too large")
    else match Payload(codec, subdir, file.value, hasCapability)
         case Err(e) => Err(e)
         case Ok(d) => Ok(Signed(d, meta))
  }

  function ChatOf(d: Dispatch): string {
    match d
    case OnMessage(m) => m.chat
    case OnTask(t) => t.chat
    case OnGroup(g) => g.chat
    case OnAgent(a) => a.chat
    case OnReaction(r) => r.chat
    case OnCapability(c) => c.chat
  }

  /** Two payloads that differ at most in whom they claim to come from. */
  ghost predicate SameButIdentity(d: Dispatch, d': Dispatch) {
    Signed(d, NO_META) == Signed(d', NO_META)
  }

  ghost predicate SameResult(p: Result<Dispatch>, p': Result<Dispatch>) {
    if p.Ok? && p'.Ok? then SameButIdentity(p.value, p'.value) else p == p'
  }

  /**
   Nothing a payload says about its chat, role or sub-agent changes what the router does: it calls
   handlers with the chat of the directory, and files that differ only in these fields alike.
   */
  lemma PayloadIdentityIsIgnored(codec: Codec, codec': Codec, subdir: string, data: Data, data': Data,
                                 meta: Meta, hasCapability: bool)
    requires |data| <= MAX_FILE_SIZE && |data'| <= MAX_FILE_SIZE
    requires SameResult(Payload(codec, subdir, data, hasCapability), Payload(codec', subdir, data', hasCapability))
    ensures Routed(codec, subdir, Some(data), meta, hasCapability) ==
      Routed(codec', subdir, Some(data'), meta, hasCapability)
    ensures Routed(codec, subdir, Some(data), meta, hasCapability).Ok? ==>
      ChatOf(Routed(codec, subdir, Some(data), meta, hasCapability).value) == meta.chat
  {
    var p, p' := Payload(codec, subdir, data, hasCapability), Payload(codec', subdir, data', hasCapability);
    if p.Ok? {
      SignatureHidesIdentity(p.value, p'.value, meta);
    }
  }

  lemma SignatureHidesIdentity(d: Dispatch, d': Dispatch, meta: Meta)
    requires SameButIdentity(d, d')
    ensures Signed(d, meta) == Signed(d', meta) && ChatOf(Signed(d, meta)) == meta.chat
  {
    assert Signed(Signed(d, NO_META), meta) == Signed(d, meta);
    assert Signed(Signed(d', NO_META), meta) == Signed(d', meta);
  }

  lemma RouteSigns(codec: Codec, subdir: string, file: Option<Data>, meta: Meta, hasCapability: bool)
    requires Routed(codec, subdir, file, meta, hasCapability).Ok?
    ensures var d := Routed(codec, subdir, file, meta, hasCapability).value;
      && ChatOf(d) == meta.chat
      && (d.OnMessage? <==> subdir == "messages")
      && (d.OnMessage? ==> d.message.role == meta.role && d.message.subAgent == meta.subAgent)
    ensures subdir in WATCHED_SUBDIRS
  {
  }

  /**
   The handler call a file's payload stands for: the handler of its subdirectory, every field as the container
   wrote it but for the identity, which is the directory's.
   */
  ghost predicate StandsFor(codec: Codec, subdir: string, data: Data, meta: Meta, d: Dispatch) {
    || (subdir == "messages" && codec.message(data).Some? && d.OnMessage? && var m := codec.message(data).value;
        d.message == OutboundMessage(meta.chat, m.text, m.kind, meta.role, meta.subAgent))
    || (subdir == "tasks" && codec.task(data).Some? && d.OnTask? && var t := codec.task(data).value;
        d.task == TaskFile(t.action, t.id, t.name, t.schedule, t.prompt, meta.chat))
    || (subdir == "groups" && codec.group(data).Some? && d.OnGroup? && var g := codec.group(data).value;
        d.group == GroupFile(g.name, g.description, meta.chat))
    || (subdir == "agents" && codec.agent(data).Some? && d.OnAgent? && var a := codec.agent(data).value;
        d.agent == AgentFile(a.action, a.subAgent, a.role, a.prompt, meta.chat))
    || (subdir == "reactions" && codec.reaction(data).Some? && d.OnReaction? && var r := codec.reaction(data).value;
        d.reaction == ReactionFile(meta.chat, r.messageId, r.emoji))
    || (subdir == "requests" && codec.request(data).Some? && d.OnCapability? && var c := codec.request(data).value;
        d.request == CapabilityRequest(c.id, c.capability, c.tool, c.params, meta.chat))
  }

  /** When a file is handed to a handler, to which one, and with what; in every other case Route returns an error. */
  lemma RoutedExactly(codec: Codec, subdir: string, file: Option<Data>, meta: Meta, hasCapability: bool, d: Dispatch)
    ensures Routed(codec, subdir, file, meta, hasCapability) == Ok(d) <==>
      && file.Some? && |file.value| <= 1024 * 1024 && (subdir == "requests" ==> hasCapability)
      && StandsFor(codec, subdir, file.value, meta, d)
  {
  }

  /** The watched subdirectories are exactly those with a handler. */
  lemma WatchedExactly(subdir: string)
    ensures subdir in WATCHED_SUBDIRS <==>
      exists codec, data, meta :: Routed(codec, subdir, Some(data), meta, true).Ok?
    ensures |WATCHED_SUBDIRS| == 6
  {
    var codec := Codec(
      _ => Some(OutboundMessage("", "", "", "", "")), _ => Some(TaskFile("", "", "", "", "", "")),
      _ => Some(GroupFile("", "", "")), _ => Some(AgentFile("", "", "", "", "")),
      _ => Some(ReactionFile("", 0, "")), _ => Some(CapabilityRequest("", "", "", map[], "")));
    if subdir in WATCHED_SUBDIRS {
      assert Routed(codec, subdir, Some([]), NO_META, true).Ok?;
    }
  }

  // ---- The message handler --------------------------------------------------------------------

  /** What the handler of main.go does with a message: a Telegram message, or a dispatch in a chat's queue. */
  datatype Delivery = Telegram(chat: string, text: string) | Enqueue(chat: string, from: string, text: string)

  function Deliver(m: OutboundMessage): Delivery {
    if m.subAgent != ""
    then Enqueue(m.chat, "Agent: " + m.role, "[Agent: " + m.role + " (" + m.subAgent + ")] " + m.text)
    else Telegram(m.chat, m.text)
  }

  /** The router with the calls it made so far. */
  class Router {
    const codec: Codec
    var hasCapability: bool
    var calls: seq<Dispatch>

    constructor (codec: Codec)
      ensures this.codec == codec && !hasCapability && calls == []
    {
      this.codec := codec;
      hasCapability, calls := false, [];
    }

    method SetCapabilityHandler()
      modifies this`hasCapability
      ensures hasCapability
    {
      hasCapability := true;
    }

    /** Route: read the file, decode it, overwrite who it is from, call the handler of its subdirectory. */
    method Route(subdir: string, file: Option<Data>, meta: Meta) returns (error: Option<string>)
      modifies this`calls
      ensures match Routed(codec, subdir, file, meta, hasCapability)
              case Ok(d) => error.None? && calls == old(calls) + [d]
              case Err(e) => error == Some(e) && calls == old(calls)
    {
      if file.None? { return Some("stat"); }
      var data := file.value;
      if |data| > MAX_FILE_SIZE { return Some("too large"); }
      match subdir {
        case "messages" =>
          var decoded := codec.message(data);
          if decoded.None? { return Some("unmarshal message"); }
          var m := decoded.value;
          m := m.(chat := meta.chat);
          m := m.(role := meta.role);
          m := m.(subAgent := meta.subAgent);
          calls := calls + [OnMessage(m)];
        case "tasks" =>
          var decoded := codec.task(data);
          if decoded.None? { return Some("unmarshal task"); }
          calls := calls + [OnTask(decoded.value.(chat := meta.chat))];
        case "groups" =>
          var decoded := codec.group(data);
          if decoded.None? { return Some("unmarshal group"); }
          calls := calls + [OnGroup(decoded.value.(chat := meta.chat))];
        case "agents" =>
          var decoded := codec.agent(data);
          if decoded.None? { return Some("unmarshal agent"); }
          calls := calls + [OnAgent(decoded.value.(chat := meta.chat))];
        case "reactions" =>
          var decoded := codec.reaction(data);
          if decoded.None? { return Some("unmarshal reaction"); }
          calls := calls + [OnReaction(decoded.value.(chat := meta.chat))];
        case "requests" =>
          if !hasCapability { return Some("no capability handler"); }
          var decoded := codec.request(data);
          if decoded.None? { return Some("unmarshal capability request"); }
          calls := calls + [OnCapability(decoded.value.(chat := meta.chat))];
        case _ =>
          return Some("unknown subdir");
      }
      return None;
    }
  }
}
