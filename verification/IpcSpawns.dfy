/** Which files make Watch spawn a sub-agent, and who that sub-agent is. */
module IpcSpawns {
  import opened Prelude
  import opened IpcPaths
  import opened IpcRouter
  import opened IpcDelivery

  /** The turns of Watch that handed over an agent file with the action "spawn", in order. */
  function SpawnTurns(turns: seq<Turn>): seq<nat> {
    if turns == [] then []
    else
      var n := |turns| - 1;
      SpawnTurns(turns[..n]) +
        match turns[n].result
        case Ok(OnAgent(a)) => if a.action == "spawn" then [n] else []
        case _ => []
  }

  /** The sub-agents, in the order they were spawned. */
  function SubAgents(nodes: seq<Node>): seq<nat> {
    if nodes == [] then []
    else
      var n := |nodes| - 1;
      SubAgents(nodes[..n]) + if nodes[n].SubNode? then [n] else []
  }

  lemma OneMoreTurn(turns: seq<Turn>, t: Turn)
    ensures SpawnTurns(turns + [t]) == SpawnTurns(turns) +
      match t.result
      case Ok(OnAgent(a)) => if a.action == "spawn" then [|turns|] else []
      case _ => []
  {
    assert (turns + [t])[..|turns|] == turns;
  }

  lemma OneMoreNode(nodes: seq<Node>, n: Node)
    ensures SubAgents(nodes + [n]) == SubAgents(nodes) + if n.SubNode? then [|nodes|] else []
  {
    assert (nodes + [n])[..|nodes|] == nodes;
  }

  /** Node k was spawned for turn n: by the agent that wrote the file, for its chat, in the role the file asks for. */
  ghost predicate SpawnedFor(env: Env, s: State, k: nat, n: nat) {
    && k < |s.nodes| && n < |s.turns| && n < |s.notices| && s.notices[n].pub < |s.pubs|
    && s.pubs[s.notices[n].pub].writer.Agent?
    && var writer := s.pubs[s.notices[n].pub].writer.node;
      && writer < k && s.turns[n].result.Ok? && s.turns[n].result.value.OnAgent?
      && s.nodes[k].SubNode? && s.nodes[k].parent == writer && s.nodes[k].chat == s.nodes[writer].chat
      && s.nodes[k].role == env.sanitize(s.turns[n].result.value.agent.role)
  }

  ghost predicate AllSpawned(env: Env, s: State) {
    && |SubAgents(s.nodes)| == |SpawnTurns(s.turns)|
    && forall i :: 0 <= i < |SubAgents(s.nodes)| ==> SpawnedFor(env, s, SubAgents(s.nodes)[i], SpawnTurns(s.turns)[i])
  }

  /** Nodes, turns, notices and the writers of publications stay. */
  ghost predicate Grows(s: State, s': State) {
    && s.nodes <= s'.nodes && s.turns <= s'.turns && s.notices <= s'.notices && |s.pubs| <= |s'.pubs|
    && forall k :: 0 <= k < |s.pubs| ==> s'.pubs[k].writer == s.pubs[k].writer
  }

  lemma StepGrows(env: Env, s: State, e: Event, s': State)
    requires Step(env, s, e) == Some(s')
    ensures Grows(s, s') && (!e.StartMain? && !e.Watch? ==> s'.nodes == s.nodes)
    ensures !e.Watch? ==> s'.turns == s.turns
  {
    if e.Write? || e.Rename? || e.Abandon? || e.Consume? {
      WriteMoves(s, e, s');
    }
  }

  lemma SpawnedStays(env: Env, s: State, s': State, k: nat, n: nat)
    requires Grows(s, s') && SpawnedFor(env, s, k, n)
    ensures SpawnedFor(env, s', k, n)
  {
    var writer := s.pubs[s.notices[n].pub].writer.node;
    assert s'.nodes[k] == s.nodes[k] && s'.nodes[writer] == s.nodes[writer];
    assert s'.turns[n] == s.turns[n] && s'.notices[n] == s.notices[n];
  }

  lemma AllStaySpawned(env: Env, s: State, s': State)
    requires Grows(s, s') && AllSpawned(env, s)
    requires SubAgents(s'.nodes) == SubAgents(s.nodes) && SpawnTurns(s'.turns) == SpawnTurns(s.turns)
    ensures AllSpawned(env, s')
  {
    forall i | 0 <= i < |SubAgents(s.nodes)|
      ensures SpawnedFor(env, s', SubAgents(s.nodes)[i], SpawnTurns(s.turns)[i])
    {
      SpawnedStays(env, s, s', SubAgents(s.nodes)[i], SpawnTurns(s.turns)[i]);
    }
  }

  lemma OneMoreSpawned(env: Env, s: State, s': State, k: nat, n: nat)
    requires Grows(s, s') && AllSpawned(env, s) && SpawnedFor(env, s', k, n)
    requires SubAgents(s'.nodes) == SubAgents(s.nodes) + [k] && SpawnTurns(s'.turns) == SpawnTurns(s.turns) + [n]
    ensures AllSpawned(env, s')
  {
    forall i | 0 <= i < |SubAgents(s'.nodes)|
      ensures SpawnedFor(env, s', SubAgents(s'.nodes)[i], SpawnTurns(s'.turns)[i])
    {
      if i < |SubAgents(s.nodes)| {
        SpawnedStays(env, s, s', SubAgents(s.nodes)[i], SpawnTurns(s.turns)[i]);
      }
    }
  }

  /** What a turn adds: itself, and a sub-agent of the file's writer exactly for a file that asks for one. */
  lemma TurnSpawns(env: Env, s: State, uuid: string, s': State)
    requires Inv(env, s) && DoWatch(env, s, uuid) == Some(s')
    ensures var n := |s.turns|;
      && |s'.turns| == n + 1 && s'.turns == s.turns + [s'.turns[n]]
      && match s'.turns[n].result
         case Ok(OnAgent(a)) =>
           if a.action == "spawn"
           then |s'.nodes| == |s.nodes| + 1 && s'.nodes == s.nodes + [s'.nodes[|s.nodes|]]
                && SpawnedFor(env, s', |s.nodes|, n)
           else s'.nodes == s.nodes
         case _ => s'.nodes == s.nodes
  {
    NextTurnOk(env, s);
    var n := |s.turns|;
    var turn := NextTurn(env, s.metas, s.files, s.notices[n].path);
    var p := s.pubs[s.notices[n].pub];
    if Spawns(turn) {
      RouteSigns(env.codec, p.sub, turn.file, turn.meta, env.hasCapability);
      assert turn.meta.chat == s.nodes[p.writer.node].chat;
    }
  }

  lemma SpawnStep(env: Env, s: State, e: Event, s': State)
    requires Inv(env, s) && AllSpawned(env, s) && Step(env, s, e) == Some(s')
    ensures AllSpawned(env, s')
  {
    StepGrows(env, s, e, s');
    if e.StartMain? {
      OneMoreNode(s.nodes, MainNode(e.chat));
      AllStaySpawned(env, s, s');
    } else if e.Watch? {
      var n := |s.turns|;
      TurnSpawns(env, s, e.uuid, s');
      OneMoreTurn(s.turns, s'.turns[n]);
      if |s'.nodes| > |s.nodes| {
        OneMoreNode(s.nodes, s'.nodes[|s.nodes|]);
        OneMoreSpawned(env, s, s', |s.nodes|, n);
      } else {
        AllStaySpawned(env, s, s');
      }
    } else {
      AllStaySpawned(env, s, s');
    }
  }

  /**
   Over every run the sub-agents are, in order, those that routed agent files with the action "spawn" asked
   for, one for each such file and none for any other: each is a child of the agent that wrote the file, for
   that agent's chat, in the role of the file.
   */
  lemma {:induction false} SpawnsExactly(env: Env, evs: seq<Event>)
    requires Exec(env, evs).Some?
    ensures AllSpawned(env, Exec(env, evs).value)
  {
    if evs == [] {
    } else {
      var n := |evs| - 1;
      SpawnsExactly(env, evs[..n]);
      ExecInv(env, evs[..n]);
      SpawnStep(env, Exec(env, evs[..n]).value, evs[n], Exec(env, evs).value);
    }
  }
}
