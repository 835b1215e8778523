/**
 The file channel from the agents' containers to the handlers: RegisterDir and Watch of
 internal/ipc/watcher.go, publishing by temp file and rename, and the spawning of sub-agents by
 routed files, as a transition system.  An agent publishes only after its directories are
 registered, because podman exec comes after RegisterDir.
 */
module IpcDelivery {
  import opened Prelude
  import opened IpcPaths
  import opened IpcRouter

  /** Surroundings that no step changes. */
  datatype Env = Env(dataDir: Path, codec: Codec, sanitize: string -> string, hasCapability: bool)

  /** An agent whose container was started; a sub-agent remembers who asked for it. */
  datatype Node = MainNode(chat: string) | SubNode(parent: nat, chat: string, role: string, agent: string)

  datatype Writer = Agent(node: nat) | Harness(chat: string)

  datatype Phase =
    | Temp(written: nat)               // so many bytes are in the temp file
    | Published(notice: Option<nat>)   // renamed, and the Create event this raised
    | Abandoned

  datatype Publication = Publication(writer: Writer, sub: string, tmp: Path, dest: Path, data: Data, phase: Phase)

  /** A Create event; the watcher sees its path. */
  datatype Notice = Notice(path: Path, pub: nat)

  /** One turn of Watch's loop: what it read and what Route returned. */
  datatype Turn = Turn(file: Option<Data>, meta: Meta, result: Result<Dispatch>)

  datatype State = State(
    nodes: seq<Node>,
    regs: seq<nat>,                    // per node, half-steps of RegisterDir done
    watched: set<Path>,
    metas: map<Path, Meta>,
    pubs: seq<Publication>,
    used: set<Path>,                   // temp and destination paths so far
    files: map<Path, Data>,
    notices: seq<Notice>,              // every Create event so far, in order
    turns: seq<Turn>)                  // the turns of Watch, for the first |turns| notices

  const INIT: State := State([], [], {}, map[], [], {}, map[], [], [])

  datatype Event =
    | StartMain(chat: string)
    | Register(node: nat)
    | Open(writer: Writer, sub: string, name: string, tmpName: string, data: Data)
    | Write(pub: nat, upTo: nat)
    | Rename(pub: nat)
    | Abandon(pub: nat)
    | Consume(pub: nat)                // pitu-mcp removes a response
    | Watch(uuid: string)             // one turn; `uuid` is the UUID of a sub-agent it may spawn

  const HALF_STEPS: nat := 2 * |WATCHED_SUBDIRS|

  function OwnerOf(n: Node): Owner { if n.MainNode? then Main(n.chat) else Sub(n.chat, n.agent) }

  function MetaOf(n: Node): Meta { if n.MainNode? then Meta(n.chat, "", "") else Meta(n.chat, n.role, n.agent) }

  function RootOf(env: Env, nodes: seq<Node>, w: Writer): Path {
    match w
    case Harness(chat) => IpcRoot(env.dataDir, Main(chat))
    case Agent(k) => if k < |nodes| then IpcRoot(env.dataDir, OwnerOf(nodes[k])) else ""
  }

  function SubDir(env: Env, n: Node, sub: string): Path { Under(IpcRoot(env.dataDir, OwnerOf(n)), sub) }

  predicate AgentIdFresh(nodes: seq<Node>, id: string) {
    Component(id) && forall k :: 0 <= k < |nodes| && nodes[k].SubNode? ==> nodes[k].agent != id
  }

  /** RegisterDir's loop body in two halves: first the watch is added, then the identity is stored. */
  function DoRegister(env: Env, s: State, k: nat): Option<State> {
    if k >= |s.nodes| || k >= |s.regs| || s.regs[k] >= HALF_STEPS then None
    else
      var dir := SubDir(env, s.nodes[k], WATCHED_SUBDIRS[s.regs[k] / 2]);
      var m := s.(regs := s.regs[k := s.regs[k] + 1]);
      Some(if s.regs[k] % 2 == 0 then m.(watched := s.watched + {dir})
           else m.(metas := s.metas[dir := MetaOf(s.nodes[k])]))
  }

  predicate MayOpen(s: State, w: Writer, sub: string) {
    match w
    case Harness(chat) => Component(chat) && sub == "responses"
    case Agent(k) => k < |s.nodes| && k < |s.regs| && s.regs[k] == HALF_STEPS && Component(sub)
  }

  /** os.CreateTemp in the IPC root, which raises a Create event if that directory is watched. */
  function DoOpen(env: Env, s: State, w: Writer, sub: string, name: string, tmpName: string, data: Data): Option<State>
  {
    var root := RootOf(env, s.nodes, w);
    var tmp, dest := Under(root, tmpName), Under(Under(root, sub), name);
    if !MayOpen(s, w, sub) || !Component(name) || !Component(tmpName) then None
    else if tmp in s.used || dest in s.used || tmp == dest then None
    else Some(s.(pubs := s.pubs + [Publication(w, sub, tmp, dest, data, Temp(0))],
                 used := s.used + {tmp, dest},
                 files := s.files[tmp := []],
                 notices := if Dir(tmp) in s.watched then s.notices + [Notice(tmp, |s.pubs|)] else s.notices))
  }

  /** The operations of a writer on its own publication. */
  function DoWrite(s: State, e: Event): Option<State>
    requires e.Write? || e.Rename? || e.Abandon? || e.Consume?
  {
    if e.pub >= |s.pubs| then None
    else
      var p := s.pubs[e.pub];
      match (e, p.phase)
      case (Write(k, n), Temp(m)) =>
        if m < n <= |p.data|
        then Some(s.(pubs := s.pubs[k := p.(phase := Temp(n))], files := s.files[p.tmp := p.data[..n]])) else None
      case (Rename(k), Temp(m)) =>
        if m < |p.data| || p.tmp !in s.files then None
        else
          var raises := Dir(p.dest) in s.watched;
          Some(s.(pubs := s.pubs[k := p.(phase := Published(if raises then Some(|s.notices|) else None))],
                  files := s.files[p.dest := s.files[p.tmp]] - {p.tmp},
                  notices := if raises then s.notices + [Notice(p.dest, k)] else s.notices))
      case (Abandon(k), Temp(_)) =>
        Some(s.(pubs := s.pubs[k := p.(phase := Abandoned)], files := s.files - {p.tmp}))
      case (Consume(_), Published(_)) =>
        if p.sub == "responses" then Some(s.(files := s.files - {p.dest})) else None
      case _ => None
  }

  /** What Watch makes of the next event: look the directory up, route the file. */
  function NextTurn(env: Env, metas: map<Path, Meta>, files: map<Path, Data>, path: Path): Turn {
    var meta := if Dir(path) in metas then metas[Dir(path)] else NO_META;
    var file := if path in files then Some(files[path]) else None;
    Turn(file, meta, Routed(env.codec, Base(Dir(path)), file, meta, env.hasCapability))
  }

  predicate Spawns(t: Turn) { t.result.Ok? && t.result.value.OnAgent? && t.result.value.agent.action == "spawn" }

  /** The writer of a publication; only agents are ever asked for. */
  function NodeOf(p: Publication): nat { if p.writer.Agent? then p.writer.node else 0 }

  /** One turn of Watch: route, remove the file unless Route failed, and spawn what was asked for. */
  function DoWatch(env: Env, s: State, uuid: string): Option<State> {
    if |s.turns| >= |s.notices| || s.notices[|s.turns|].pub >= |s.pubs| || !AgentIdFresh(s.nodes, uuid) then None
    else
      var notice := s.notices[|s.turns|];
      var turn := NextTurn(env, s.metas, s.files, notice.path);
      var m := s.(turns := s.turns + [turn], files := if turn.result.Ok? then s.files - {notice.path} else s.files);
      if !Spawns(turn) then Some(m)
      else
        var a := turn.result.value.agent;
        Some(m.(nodes := s.nodes + [SubNode(NodeOf(s.pubs[notice.pub]), a.chat, env.sanitize(a.role), uuid)],
                regs := s.regs + [0]))
  }

  function Step(env: Env, s: State, e: Event): Option<State> {
    match e
    case StartMain(chat) =>
      if Component(chat) then Some(s.(nodes := s.nodes + [MainNode(chat)], regs := s.regs + [0])) else None
    case Register(k) => DoRegister(env, s, k)
    case Open(w, sub, name, tmpName, data) => DoOpen(env, s, w, sub, name, tmpName, data)
    case Watch(uuid) => DoWatch(env, s, uuid)
    case _ => DoWrite(s, e)
  }

  function Exec(env: Env, evs: seq<Event>): Option<State> {
    if evs == [] then Some(INIT)
    else match Exec(env, evs[..|evs| - 1])
         case None => None
         case Some(m) => Step(env, m, evs[|evs| - 1])
  }

  /** The chat a node descends from, found by asking each node who asked for it. */
  function RootChat(nodes: seq<Node>, k: nat): string
    requires k < |nodes|
    decreases k
  {
    match nodes[k]
    case MainNode(chat) => chat
    case SubNode(parent, _, _, _) => if parent < k then RootChat(nodes, parent) else ""
  }

  // ---- Invariant: agents and registrations ------------------------------------------------------

  ghost predicate NodeOk(nodes: seq<Node>, k: nat)
    requires k < |nodes|
  {
    && WellNamed(OwnerOf(nodes[k]))
    && nodes[k].chat == RootChat(nodes, k)
    && (nodes[k].SubNode? ==> nodes[k].parent < k)
  }

  ghost predicate NodesOk(nodes: seq<Node>) {
    && (forall k :: 0 <= k < |nodes| ==> NodeOk(nodes, k))
    && (forall j, k :: 0 <= j < k < |nodes| && nodes[j].SubNode? && nodes[k].SubNode? ==>
          nodes[j].agent != nodes[k].agent)
  }

  /** Half-step i of node k is done, and its effect is there. */
  ghost predicate HalfDone(env: Env, s: State, k: nat, i: nat)
    requires k < |s.nodes| && i < HALF_STEPS
  {
    var dir := SubDir(env, s.nodes[k], WATCHED_SUBDIRS[i / 2]);
    if i % 2 == 0 then dir in s.watched else dir in s.metas && s.metas[dir] == MetaOf(s.nodes[k])
  }

  ghost predicate RegsOk(env: Env, s: State) {
    && |s.regs| == |s.nodes|
    && (forall k :: 0 <= k < |s.regs| ==> s.regs[k] <= HALF_STEPS)
    && (forall k, i :: 0 <= k < |s.regs| && 0 <= i < s.regs[k] ==> HalfDone(env, s, k, i))
  }

  ghost predicate WatchedOk(s: State) { forall d :: d in s.watched ==> Base(d) in WATCHED_SUBDIRS }

  // ---- Invariant: publications -------------------------------------------------------------------

  ghost predicate PubOk(env: Env, s: State, p: Publication) {
    && p.tmp in s.used && p.dest in s.used && p.tmp != p.dest
    && MayOpen(s, p.writer, p.sub)
    && Dir(p.dest) == Under(RootOf(env, s.nodes, p.writer), p.sub)
    && Base(Dir(p.dest)) == p.sub
  }

  ghost predicate Disjoint(p: Publication, q: Publication) {
    p.tmp != q.tmp && p.tmp != q.dest && p.dest != q.tmp && p.dest != q.dest
  }

  ghost predicate PubsOk(env: Env, s: State) {
    && (forall k :: 0 <= k < |s.pubs| ==> PubOk(env, s, s.pubs[k]))
    && (forall j, k :: 0 <= j < k < |s.pubs| ==> Disjoint(s.pubs[j], s.pubs[k]))
  }

  /** Notice n was raised by a publication in a watched subdirectory and is the only one of it. */
  ghost predicate NoticeOk(s: State, n: nat)
    requires n < |s.notices|
  {
    var k := s.notices[n].pub;
    && k < |s.pubs| && s.pubs[k].phase == Published(Some(n)) && s.notices[n].path == s.pubs[k].dest
    && s.pubs[k].sub in WATCHED_SUBDIRS && s.pubs[k].writer.Agent?
  }

  predicate RoutedAway(s: State, n: nat) { n < |s.turns| && s.turns[n].result.Ok? }

  /** The files of publication k. */
  ghost predicate FilesOk(s: State, k: nat)
    requires k < |s.pubs|
  {
    var p := s.pubs[k];
    match p.phase
    case Temp(n) => n <= |p.data| && p.tmp in s.files && s.files[p.tmp] == p.data[..n] && p.dest !in s.files
    case Abandoned => p.tmp !in s.files && p.dest !in s.files
    case Published(n) =>
      && p.tmp !in s.files
      && (p.dest in s.files ==> s.files[p.dest] == p.data)
      && (n.Some? ==> n.value < |s.notices| && s.notices[n.value].pub == k)
      && (n.Some? ==> (p.dest in s.files <==> !RoutedAway(s, n.value)))
      && (n.None? ==> p.sub !in WATCHED_SUBDIRS)
  }

  /** Turn n of Watch routed the whole file, for the agent that published it. */
  ghost predicate TurnOk(env: Env, s: State, n: nat)
    requires n < |s.turns|
  {
    && n < |s.notices| && s.notices[n].pub < |s.pubs|
    && var p := s.pubs[s.notices[n].pub];
      && NodeOf(p) < |s.nodes|
      && var meta := MetaOf(s.nodes[NodeOf(p)]);
        s.turns[n] == Turn(Some(p.data), meta, Routed(env.codec, p.sub, Some(p.data), meta, env.hasCapability))
  }

  ghost predicate DeliveryOk(env: Env, s: State) {
    && |s.turns| <= |s.notices|
    && (forall n :: 0 <= n < |s.notices| ==> NoticeOk(s, n))
    && (forall k :: 0 <= k < |s.pubs| ==> FilesOk(s, k))
    && (forall n :: 0 <= n < |s.turns| ==> TurnOk(env, s, n))
  }

  ghost predicate FilesUsed(s: State) { forall f :: f in s.files ==> f in s.used }

  ghost predicate Inv(env: Env, s: State) {
    NodesOk(s.nodes) && RegsOk(env, s) && WatchedOk(s) && PubsOk(env, s) && DeliveryOk(env, s) && FilesUsed(s)
  }

  // ---- Agents and registrations are kept ---------------------------------------------------------

  lemma {:induction false} RootChatStays(nodes: seq<Node>, more: seq<Node>, k: nat)
    requires k < |nodes|
    ensures RootChat(nodes + more, k) == RootChat(nodes, k)
    decreases k
  {
    if nodes[k].MainNode? || nodes[k].parent >= k {
    } else {
      RootChatStays(nodes, more, nodes[k].parent);
    }
  }

  lemma NodesGrow(nodes: seq<Node>, n: Node)
    requires NodesOk(nodes) && WellNamed(OwnerOf(n))
    requires n.SubNode? ==> AgentIdFresh(nodes, n.agent) && n.parent < |nodes| && n.chat == nodes[n.parent].chat
    ensures NodesOk(nodes + [n])
  {
    forall k | 0 <= k < |nodes + [n]| ensures NodeOk(nodes + [n], k) {
      if k < |nodes| {
        assert NodeOk(nodes, k);
        RootChatStays(nodes, [n], k);
      } else if n.SubNode? {
        assert NodeOk(nodes, n.parent);
        RootChatStays(nodes, [n], n.parent);
      }
    }
  }

  /** A new agent's registration has not begun; everything else stays. */
  lemma RegsGrow(env: Env, s: State, n: Node, s': State)
    requires RegsOk(env, s) && s'.nodes == s.nodes + [n] && s'.regs == s.regs + [0]
    requires s'.watched == s.watched && s'.metas == s.metas
    ensures RegsOk(env, s')
  {
    forall k, i | 0 <= k < |s'.regs| && 0 <= i < s'.regs[k] ensures HalfDone(env, s', k, i) {
      assert HalfDone(env, s, k, i);
    }
  }

  /** Two agents that share a directory have the same identity. */
  lemma SharedDirectory(env: Env, nodes: seq<Node>, j: nat, sub: string, k: nat, sub': string)
    requires NodesOk(nodes) && j < |nodes| && k < |nodes| && SEP !in sub && SEP !in sub'
    requires SubDir(env, nodes[j], sub) == SubDir(env, nodes[k], sub')
    ensures MetaOf(nodes[j]) == MetaOf(nodes[k])
  {
    assert NodeOk(nodes, j) && NodeOk(nodes, k);
    DirectoriesAreDistinct(env.dataDir, OwnerOf(nodes[j]), sub, OwnerOf(nodes[k]), sub');
  }

  lemma RegisterKeeps(env: Env, s: State, k: nat, s': State)
    requires NodesOk(s.nodes) && RegsOk(env, s) && WatchedOk(s) && DoRegister(env, s, k) == Some(s')
    ensures RegsOk(env, s') && WatchedOk(s')
  {
    var sub := WATCHED_SUBDIRS[s.regs[k] / 2];
    var dir := SubDir(env, s.nodes[k], sub);
    DirAndBase(IpcRoot(env.dataDir, OwnerOf(s.nodes[k])), sub);
    forall j, i | 0 <= j < |s'.regs| && 0 <= i < s'.regs[j] ensures HalfDone(env, s', j, i) {
      if j != k || i < s.regs[k] {
        HalfStays(env, s, k, s', j, i);
      }
    }
  }

  lemma HalfStays(env: Env, s: State, k: nat, s': State, j: nat, i: nat)
    requires NodesOk(s.nodes) && RegsOk(env, s) && DoRegister(env, s, k) == Some(s')
    requires j < |s.regs| && i < s.regs[j]
    ensures HalfDone(env, s', j, i)
  {
    var sub := WATCHED_SUBDIRS[s.regs[k] / 2];
    assert HalfDone(env, s, j, i);
    if SubDir(env, s.nodes[j], WATCHED_SUBDIRS[i / 2]) == SubDir(env, s.nodes[k], sub) {
      SharedDirectory(env, s.nodes, j, WATCHED_SUBDIRS[i / 2], k, sub);
    }
  }

  /** All twelve half-steps done: each subdirectory is watched and knows its agent. */
  lemma Registered(env: Env, s: State, k: nat, sub: string)
    requires RegsOk(env, s) && k < |s.regs| && s.regs[k] == HALF_STEPS && sub in WATCHED_SUBDIRS
    ensures SubDir(env, s.nodes[k], sub) in s.watched
    ensures SubDir(env, s.nodes[k], sub) in s.metas && s.metas[SubDir(env, s.nodes[k], sub)] == MetaOf(s.nodes[k])
  {
    var i :| 0 <= i < |WATCHED_SUBDIRS| && WATCHED_SUBDIRS[i] == sub;
    assert HalfDone(env, s, k, 2 * i) && HalfDone(env, s, k, 2 * i + 1);
  }

  // ---- Publications are kept ---------------------------------------------------------------------

  /** What a publication relies on stays when nodes, registrations and used paths only grow. */
  lemma PubsStay(env: Env, s: State, s': State)
    requires PubsOk(env, s) && s'.pubs == s.pubs && s.used <= s'.used
    requires |s.nodes| <= |s'.nodes| && s'.nodes[..|s.nodes|] == s.nodes && |s.regs| <= |s'.regs|
    requires forall k :: 0 <= k < |s.regs| && s.regs[k] == HALF_STEPS ==> s'.regs[k] == HALF_STEPS
    ensures PubsOk(env, s')
  {
    forall k | 0 <= k < |s'.pubs| ensures PubOk(env, s', s'.pubs[k]) {
      assert PubOk(env, s, s.pubs[k]);
      if s.pubs[k].writer.Agent? {
        var j := s.pubs[k].writer.node;
        assert s'.nodes[..|s.nodes|][j] == s'.nodes[j];
      }
    }
  }

  lemma DeliveryStays(env: Env, s: State, s': State)
    requires DeliveryOk(env, s) && |s.nodes| <= |s'.nodes| && s'.nodes[..|s.nodes|] == s.nodes
    requires s'.pubs == s.pubs && s'.files == s.files && s'.notices == s.notices && s'.turns == s.turns
    ensures DeliveryOk(env, s')
  {
    forall n | 0 <= n < |s'.notices| ensures NoticeOk(s', n) { assert NoticeOk(s, n); }
    forall k | 0 <= k < |s'.pubs| ensures FilesOk(s', k) { assert FilesOk(s, k); }
    forall n | 0 <= n < |s'.turns| ensures TurnOk(env, s', n) {
      assert TurnOk(env, s, n);
      assert s'.nodes[..|s.nodes|][NodeOf(s.pubs[s.notices[n].pub])] == s'.nodes[NodeOf(s.pubs[s.notices[n].pub])];
    }
  }

  lemma StartInv(env: Env, s: State, chat: string)
    requires Inv(env, s) && Component(chat)
    ensures Inv(env, s.(nodes := s.nodes + [MainNode(chat)], regs := s.regs + [0]))
  {
    var s' := s.(nodes := s.nodes + [MainNode(chat)], regs := s.regs + [0]);
    NodesGrow(s.nodes, MainNode(chat));
    RegsGrow(env, s, MainNode(chat), s');
    PubsStay(env, s, s');
    DeliveryStays(env, s, s');
  }

  lemma RegisterInv(env: Env, s: State, k: nat, s': State)
    requires Inv(env, s) && DoRegister(env, s, k) == Some(s')
    ensures Inv(env, s')
  {
    RegisterKeeps(env, s, k, s');
    PubsStay(env, s, s');
    DeliveryStays(env, s, s');
  }

  /** No Create event for a temp file: the IPC root is not watched. */
  lemma TempUnwatched(env: Env, s: State, w: Writer, sub: string, tmpName: string)
    requires NodesOk(s.nodes) && WatchedOk(s) && MayOpen(s, w, sub) && Component(tmpName)
    ensures Dir(Under(RootOf(env, s.nodes, w), tmpName)) !in s.watched
  {
    var o := match w case Harness(chat) => Main(chat) case Agent(k) => OwnerOf(s.nodes[k]);
    if w.Agent? { assert NodeOk(s.nodes, w.node); }
    PartsOfRoot(env.dataDir, o);
    DirAndBase(RootOf(env, s.nodes, w), tmpName);
  }

  lemma OpenedPub(env: Env, s: State, w: Writer, sub: string, name: string)
    requires MayOpen(s, w, sub) && Component(name)
    ensures var root := RootOf(env, s.nodes, w);
      Dir(Under(Under(root, sub), name)) == Under(root, sub) && Base(Under(root, sub)) == sub
  {
    var root := RootOf(env, s.nodes, w);
    assert SEP !in sub;
    DirAndBase(Under(root, sub), name);
    DirAndBase(root, sub);
  }

  /** A new publication: its temp file appears, everything else stays. */
  ghost predicate Opened(s: State, p: Publication, s': State) {
    && p.tmp !in s.used && p.dest !in s.used && p.tmp != p.dest && p.phase == Temp(0)
    && s' == s.(pubs := s.pubs + [p], used := s.used + {p.tmp, p.dest}, files := s.files[p.tmp := []])
  }

  lemma OpenKeepsPubs(env: Env, s: State, p: Publication, s': State)
    requires PubsOk(env, s) && Opened(s, p, s') && PubOk(env, s', p)
    ensures PubsOk(env, s')
  {
    forall k | 0 <= k < |s'.pubs| ensures PubOk(env, s', s'.pubs[k]) {
      if k < |s.pubs| { assert PubOk(env, s, s.pubs[k]); }
    }
    forall j, k | 0 <= j < k < |s'.pubs| ensures Disjoint(s'.pubs[j], s'.pubs[k]) {
      assert PubOk(env, s, s.pubs[j]);
      if k < |s.pubs| { assert Disjoint(s.pubs[j], s.pubs[k]); }
    }
  }

  lemma OpenKeepsDelivery(env: Env, s: State, p: Publication, s': State)
    requires PubsOk(env, s) && DeliveryOk(env, s) && FilesUsed(s) && Opened(s, p, s')
    ensures DeliveryOk(env, s') && FilesUsed(s')
  {
    forall n | 0 <= n < |s'.notices| ensures NoticeOk(s', n) { assert NoticeOk(s, n); }
    forall k | 0 <= k < |s'.pubs| ensures FilesOk(s', k) {
      if k < |s.pubs| {
        assert FilesOk(s, k) && PubOk(env, s, s.pubs[k]);
      }
    }
    forall n | 0 <= n < |s'.turns| ensures TurnOk(env, s', n) { assert TurnOk(env, s, n); }
  }

  lemma OpenInv(env: Env, s: State, e: Event, s': State)
    requires Inv(env, s) && e.Open? && Step(env, s, e) == Some(s')
    ensures Inv(env, s')
  {
    var root := RootOf(env, s.nodes, e.writer);
    TempUnwatched(env, s, e.writer, e.sub, e.tmpName);
    OpenedPub(env, s, e.writer, e.sub, e.name);
    var p := Publication(e.writer, e.sub, Under(root, e.tmpName), Under(Under(root, e.sub), e.name), e.data, Temp(0));
    OpenKeepsPubs(env, s, p, s');
    OpenKeepsDelivery(env, s, p, s');
    assert RegsOk(env, s') by {
      forall k, i | 0 <= k < |s'.regs| && 0 <= i < s'.regs[k] ensures HalfDone(env, s', k, i) {
        assert HalfDone(env, s, k, i);
      }
    }
  }

  /** Publication k moves on; only its files change, and at most one notice is added, for it. */
  ghost predicate Moves(s: State, k: nat, phase: Phase, s': State) {
    && k < |s.pubs| && s'.nodes == s.nodes && s'.regs == s.regs && s'.watched == s.watched && s'.metas == s.metas
    && s'.used == s.used && s'.turns == s.turns && s'.pubs == s.pubs[k := s.pubs[k].(phase := phase)]
    && (s.pubs[k].phase.Temp? || phase == s.pubs[k].phase)
    && (forall f :: f != s.pubs[k].tmp && f != s.pubs[k].dest ==>
          (f in s'.files <==> f in s.files) && (f in s.files ==> s'.files[f] == s.files[f]))
    && (s'.notices == s.notices
        || (s'.notices == s.notices + [Notice(s.pubs[k].dest, k)] && phase == Published(Some(|s.notices|))))
  }

  lemma MoveKeepsPubs(env: Env, s: State, k: nat, phase: Phase, s': State)
    requires PubsOk(env, s) && Moves(s, k, phase, s')
    ensures PubsOk(env, s')
  {
    forall j | 0 <= j < |s'.pubs| ensures PubOk(env, s', s'.pubs[j]) { assert PubOk(env, s, s.pubs[j]); }
    forall i, j | 0 <= i < j < |s'.pubs| ensures Disjoint(s'.pubs[i], s'.pubs[j]) {
      assert Disjoint(s.pubs[i], s.pubs[j]);
    }
  }

  lemma OtherFilesStay(env: Env, s: State, k: nat, phase: Phase, s': State, j: nat)
    requires PubsOk(env, s) && DeliveryOk(env, s) && Moves(s, k, phase, s') && j < |s.pubs| && j != k
    ensures FilesOk(s', j)
  {
    assert FilesOk(s, j) && (if j < k then Disjoint(s.pubs[j], s.pubs[k]) else Disjoint(s.pubs[k], s.pubs[j]));
  }

  lemma MoveKeepsDelivery(env: Env, s: State, k: nat, phase: Phase, s': State)
    requires PubsOk(env, s) && DeliveryOk(env, s) && FilesUsed(s) && Moves(s, k, phase, s') && FilesOk(s', k)
    requires s'.notices != s.notices ==> s.pubs[k].sub in WATCHED_SUBDIRS && s.pubs[k].writer.Agent?
    ensures DeliveryOk(env, s') && FilesUsed(s')
  {
    forall n | 0 <= n < |s'.notices| ensures NoticeOk(s', n) {
      if n < |s.notices| { assert NoticeOk(s, n); }
    }
    forall j | 0 <= j < |s'.pubs| ensures FilesOk(s', j) {
      if j != k { OtherFilesStay(env, s, k, phase, s', j); }
    }
    forall n | 0 <= n < |s'.turns| ensures TurnOk(env, s', n) { assert TurnOk(env, s, n); }
    assert PubOk(env, s, s.pubs[k]);
  }

  /** Renaming raises a Create event exactly in the six watched subdirectories, and only for agents. */
  lemma RaisesExactly(env: Env, s: State, k: nat)
    requires RegsOk(env, s) && WatchedOk(s) && PubsOk(env, s) && k < |s.pubs|
    ensures Dir(s.pubs[k].dest) in s.watched <==> s.pubs[k].sub in WATCHED_SUBDIRS
    ensures s.pubs[k].sub in WATCHED_SUBDIRS ==> s.pubs[k].writer.Agent?
  {
    var p := s.pubs[k];
    assert PubOk(env, s, p);
    if p.sub in WATCHED_SUBDIRS {
      Registered(env, s, p.writer.node, p.sub);
    }
  }

  function PhaseAfter(s: State, e: Event): Phase
    requires (e.Write? || e.Rename? || e.Abandon? || e.Consume?) && e.pub < |s.pubs|
  {
    match e
    case Write(_, n) => Temp(n)
    case Rename(k) => Published(if Dir(s.pubs[k].dest) in s.watched then Some(|s.notices|) else None)
    case Abandon(_) => Phase.Abandoned
    case Consume(k) => s.pubs[k].phase
  }

  lemma WriteMoves(s: State, e: Event, s': State)
    requires (e.Write? || e.Rename? || e.Abandon? || e.Consume?) && DoWrite(s, e) == Some(s')
    ensures e.pub < |s.pubs| && Moves(s, e.pub, PhaseAfter(s, e), s')
    ensures s'.notices != s.notices ==> e.Rename? && Dir(s.pubs[e.pub].dest) in s.watched
  {
  }

  lemma RaisedInWatched(s: State, k: nat)
    requires k < |s.pubs| && FilesOk(s, k) && s.pubs[k].phase.Published?
    requires forall n :: 0 <= n < |s.notices| ==> NoticeOk(s, n)
    ensures s.pubs[k].phase.notice.Some? ==> s.pubs[k].sub in WATCHED_SUBDIRS
  {
    if s.pubs[k].phase.notice.Some? {
      assert NoticeOk(s, s.pubs[k].phase.notice.value);
    }
  }

  lemma WriteFiles(env: Env, s: State, e: Event, s': State)
    requires Inv(env, s) && (e.Write? || e.Rename? || e.Abandon? || e.Consume?) && DoWrite(s, e) == Some(s')
    ensures FilesOk(s', e.pub)
  {
    assert FilesOk(s, e.pub) && PubOk(env, s, s.pubs[e.pub]);
    RaisesExactly(env, s, e.pub);
    if e.Rename? {
      var p := s.pubs[e.pub];
      assert p.data[..|p.data|] == p.data;
    } else if e.Consume? {
      RaisedInWatched(s, e.pub);
    }
  }

  lemma WriteInv(env: Env, s: State, e: Event, s': State)
    requires Inv(env, s) && (e.Write? || e.Rename? || e.Abandon? || e.Consume?) && DoWrite(s, e) == Some(s')
    ensures Inv(env, s')
  {
    WriteMoves(s, e, s');
    WriteFiles(env, s, e, s');
    RaisesExactly(env, s, e.pub);
    MoveKeepsPubs(env, s, e.pub, PhaseAfter(s, e), s');
    MoveKeepsDelivery(env, s, e.pub, PhaseAfter(s, e), s');
    assert RegsOk(env, s') by {
      forall k, i | 0 <= k < |s'.regs| && 0 <= i < s'.regs[k] ensures HalfDone(env, s', k, i) {
        assert HalfDone(env, s, k, i);
      }
    }
  }

  // ---- One turn of Watch --------------------------------------------------------------------------

  /** What the next turn reads and routes: the whole file, for the agent that published it. */
  lemma NextTurnOk(env: Env, s: State)
    requires Inv(env, s) && |s.turns| < |s.notices|
    ensures NoticeOk(s, |s.turns|) && var p := s.pubs[s.notices[|s.turns|].pub];
      && NodeOf(p) < |s.nodes|
      && var meta := MetaOf(s.nodes[NodeOf(p)]);
        NextTurn(env, s.metas, s.files, p.dest) ==
          Turn(Some(p.data), meta, Routed(env.codec, p.sub, Some(p.data), meta, env.hasCapability))
  {
    var n := |s.turns|;
    assert NoticeOk(s, n);
    var k := s.notices[n].pub;
    assert FilesOk(s, k) && PubOk(env, s, s.pubs[k]);
    Registered(env, s, s.pubs[k].writer.node, s.pubs[k].sub);
  }

  /** The effect of a turn before it spawns anything. */
  function Turned(s: State, turn: Turn): State
    requires |s.turns| < |s.notices|
  {
    s.(turns := s.turns + [turn], files := if turn.result.Ok? then s.files - {s.notices[|s.turns|].path} else s.files)
  }

  lemma TurnFiles(env: Env, s: State, turn: Turn, k: nat)
    requires Inv(env, s) && |s.turns| < |s.notices| && k < |s.pubs|
    ensures FilesOk(Turned(s, turn), k)
  {
    var n := |s.turns|;
    assert NoticeOk(s, n) && FilesOk(s, k);
    var j := s.notices[n].pub;
    if j != k {
      assert if j < k then Disjoint(s.pubs[j], s.pubs[k]) else Disjoint(s.pubs[k], s.pubs[j]);
    } else {
      assert PubOk(env, s, s.pubs[k]);
    }
  }

  lemma TurnDelivery(env: Env, s: State)
    requires Inv(env, s) && |s.turns| < |s.notices|
    ensures Inv(env, Turned(s, NextTurn(env, s.metas, s.files, s.notices[|s.turns|].path)))
  {
    NextTurnOk(env, s);
    var turn := NextTurn(env, s.metas, s.files, s.notices[|s.turns|].path);
    var s' := Turned(s, turn);
    forall n | 0 <= n < |s'.notices| ensures NoticeOk(s', n) { assert NoticeOk(s, n); }
    forall k | 0 <= k < |s'.pubs| ensures FilesOk(s', k) { TurnFiles(env, s, turn, k); }
    forall n | 0 <= n < |s'.turns| ensures TurnOk(env, s', n) {
      if n < |s.turns| { assert TurnOk(env, s, n); }
    }
    PubsStay(env, s, s');
    assert RegsOk(env, s') by {
      forall k, i | 0 <= k < |s'.regs| && 0 <= i < s'.regs[k] ensures HalfDone(env, s', k, i) {
        assert HalfDone(env, s, k, i);
      }
    }
  }

  lemma SpawnInv(env: Env, s: State, n: Node, s': State)
    requires Inv(env, s) && n.SubNode? && AgentIdFresh(s.nodes, n.agent)
    requires n.parent < |s.nodes| && n.chat == s.nodes[n.parent].chat
    requires s' == s.(nodes := s.nodes + [n], regs := s.regs + [0])
    ensures Inv(env, s')
  {
    assert NodeOk(s.nodes, n.parent);
    NodesGrow(s.nodes, n);
    RegsGrow(env, s, n, s');
    PubsStay(env, s, s');
    DeliveryStays(env, s, s');
  }

  lemma WatchInv(env: Env, s: State, uuid: string, s': State)
    requires Inv(env, s) && DoWatch(env, s, uuid) == Some(s')
    ensures Inv(env, s')
  {
    TurnDelivery(env, s);
    NextTurnOk(env, s);
    var notice := s.notices[|s.turns|];
    var turn := NextTurn(env, s.metas, s.files, notice.path);
    if Spawns(turn) {
      var a := turn.result.value.agent;
      var parent := NodeOf(s.pubs[notice.pub]);
      RouteSigns(env.codec, s.pubs[notice.pub].sub, turn.file, turn.meta, env.hasCapability);
      SpawnInv(env, Turned(s, turn), SubNode(parent, a.chat, env.sanitize(a.role), uuid), s');
    }
  }

  lemma StepInv(env: Env, s: State, e: Event, s': State)
    requires Inv(env, s) && Step(env, s, e) == Some(s')
    ensures Inv(env, s')
  {
    match e
    case StartMain(chat) => StartInv(env, s, chat);
    case Register(k) => RegisterInv(env, s, k, s');
    case Open(_, _, _, _, _) => OpenInv(env, s, e, s');
    case Watch(uuid) => WatchInv(env, s, uuid, s');
    case _ => WriteInv(env, s, e, s');
  }

  lemma {:induction false} ExecInv(env: Env, evs: seq<Event>)
    requires Exec(env, evs).Some?
    ensures Inv(env, Exec(env, evs).value)
  {
    if evs == [] {
    } else {
      var n := |evs| - 1;
      ExecInv(env, evs[..n]);
      StepInv(env, Exec(env, evs[..n]).value, evs[n], Exec(env, evs).value);
    }
  }

  // ---- Identity ------------------------------------------------------------------------------------

  /** The publication behind a turn of Watch. */
  function PubOfTurn(s: State, n: nat): Publication
    requires n < |s.turns| && n < |s.notices| && s.notices[n].pub < |s.pubs|
  {
    s.pubs[s.notices[n].pub]
  }

  /**
   In a spawn tree of any depth, whatever an agent writes is dispatched for the chat its tree is
   rooted in, whatever the payload says; a message of a main agent goes to that chat on Telegram, and
   one of a sub-agent goes only into that chat's queue, under the sub-agent's own identity.
   */
  lemma SpawnTreeIdentity(env: Env, evs: seq<Event>, n: nat)
    requires Exec(env, evs).Some? && n < |Exec(env, evs).value.turns|
    ensures var s := Exec(env, evs).value;
      && n < |s.notices| && s.notices[n].pub < |s.pubs| && PubOfTurn(s, n).writer.Agent?
      && PubOfTurn(s, n).writer.node < |s.nodes|
      && var k := PubOfTurn(s, n).writer.node;
        s.turns[n].result.Ok? ==>
          && ChatOf(s.turns[n].result.value) == RootChat(s.nodes, k)
          && (s.turns[n].result.value.OnMessage? ==>
            var m := s.turns[n].result.value.message;
            match s.nodes[k]
            case MainNode(_) => Deliver(m) == Telegram(RootChat(s.nodes, k), m.text)
            case SubNode(_, _, role, agent) =>
              var text := "[Agent: " + role + " (" + agent + ")] " + m.text;
              Deliver(m) == Enqueue(RootChat(s.nodes, k), "Agent: " + role, text))
  {
    ExecInv(env, evs);
    var s := Exec(env, evs).value;
    assert TurnOk(env, s, n) && NoticeOk(s, n);
    var p := PubOfTurn(s, n);
    assert NodeOk(s.nodes, p.writer.node);
    if s.turns[n].result.Ok? {
      RouteSigns(env.codec, p.sub, Some(p.data), MetaOf(s.nodes[p.writer.node]), env.hasCapability);
    }
  }

  // ---- Delivery ------------------------------------------------------------------------------------

  /**
   Every file renamed into a watched subdirectory raises exactly one Create event, so Watch takes at
   most one turn for it; that turn reads the whole file, never a temp file and never a response.
   */
  lemma DeliveredOnceAndWhole(env: Env, evs: seq<Event>)
    requires Exec(env, evs).Some?
    ensures var s := Exec(env, evs).value;
      && (forall n :: 0 <= n < |s.turns| ==>
        && n < |s.notices| && s.notices[n].pub < |s.pubs| && s.notices[n].path == PubOfTurn(s, n).dest
        && s.turns[n].file == Some(PubOfTurn(s, n).data)
        && PubOfTurn(s, n).sub in WATCHED_SUBDIRS && PubOfTurn(s, n).sub != "responses")
      && (forall m, n :: 0 <= m < n < |s.notices| ==> s.notices[m].pub != s.notices[n].pub)
      && (forall k :: 0 <= k < |s.pubs| && s.pubs[k].phase.Published? && s.pubs[k].sub in WATCHED_SUBDIRS ==>
        exists n :: 0 <= n < |s.notices| && s.notices[n].pub == k)
  {
    ExecInv(env, evs);
    var s := Exec(env, evs).value;
    forall n | 0 <= n < |s.turns|
      ensures n < |s.notices| && s.notices[n].pub < |s.pubs| && s.notices[n].path == PubOfTurn(s, n).dest
      ensures s.turns[n].file == Some(PubOfTurn(s, n).data) && PubOfTurn(s, n).sub in WATCHED_SUBDIRS
      ensures PubOfTurn(s, n).sub != "responses"
    {
      assert TurnOk(env, s, n) && NoticeOk(s, n);
    }
    forall m, n | 0 <= m < n < |s.notices| ensures s.notices[m].pub != s.notices[n].pub {
      assert NoticeOk(s, m) && NoticeOk(s, n);
    }
    forall k | 0 <= k < |s.pubs| && s.pubs[k].phase.Published? && s.pubs[k].sub in WATCHED_SUBDIRS
      ensures exists n :: 0 <= n < |s.notices| && s.notices[n].pub == k
    {
      assert FilesOk(s, k);
      assert s.notices[s.pubs[k].phase.notice.value].pub == k;
    }
  }

  /** Publication k was routed, and Route succeeded. */
  ghost predicate WasRouted(s: State, k: nat) {
    exists n :: 0 <= n < |s.turns| && n < |s.notices| && s.notices[n].pub == k && s.turns[n].result.Ok?
  }

  /** A file published in a watched subdirectory is there, whole, until Route succeeded for it, and then it is gone. */
  lemma RemovedExactlyWhenRouted(env: Env, evs: seq<Event>, k: nat)
    requires Exec(env, evs).Some?
    requires var s := Exec(env, evs).value;
      k < |s.pubs| && s.pubs[k].phase.Published? && s.pubs[k].sub in WATCHED_SUBDIRS
    ensures var s := Exec(env, evs).value;
      && (s.pubs[k].dest in s.files <==> !WasRouted(s, k))
      && (s.pubs[k].dest in s.files ==> s.files[s.pubs[k].dest] == s.pubs[k].data)
  {
    ExecInv(env, evs);
    var s := Exec(env, evs).value;
    assert FilesOk(s, k);
    var i := s.pubs[k].phase.notice.value;
    if n :| 0 <= n < |s.turns| && n < |s.notices| && s.notices[n].pub == k && s.turns[n].result.Ok? {
      assert NoticeOk(s, n);
    }
    if RoutedAway(s, i) {
      assert s.notices[i].pub == k;
    }
  }

  /** Watch is never stuck: while a Create event waits, a turn is possible with any fresh UUID. */
  lemma WatchProceeds(env: Env, evs: seq<Event>, uuid: string)
    requires Exec(env, evs).Some?
    requires var s := Exec(env, evs).value; |s.turns| < |s.notices| && AgentIdFresh(s.nodes, uuid)
    ensures Exec(env, evs + [Watch(uuid)]).Some?
    ensures |Exec(env, evs + [Watch(uuid)]).value.turns| == |Exec(env, evs).value.turns| + 1
  {
    ExecInv(env, evs);
    var s := Exec(env, evs).value;
    assert (evs + [Watch(uuid)])[..|evs|] == evs;
    NextTurnOk(env, s);
  }
}
