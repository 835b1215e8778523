/** The IPC directories of main agents and sub-agents, and filepath.Dir and filepath.Base on them. */
module IpcPaths {
  import opened Strings

  type Path = string

  const SEP: char := '/'

  /** The agent whose container a directory is mounted into. */
  datatype Owner = Main(chat: string) | Sub(chat: string, agent: string)

  /** The names and IDs that paths are made of. */
  predicate Component(s: string) { s != "" && SEP !in s && s != "." && s != ".." }

  predicate WellNamed(o: Owner) { Component(o.chat) && (o.Sub? ==> Component(o.agent)) }

  function Under(dir: Path, name: string): Path { dir + [SEP] + name }

  /** The ipcDir of startContainer and of startSubAgentContainer. */
  function IpcRoot(dataDir: Path, o: Owner): Path {
    match o
    case Main(chat) => Under(Under(dataDir, chat), "ipc")
    case Sub(chat, agent) => Under(Under(Under(Under(dataDir, chat), "agents"), agent), "ipc")
  }

  /** Where the IPC directories of a main agent and of a sub-agent are. */
  lemma RootsSpelledOut(dataDir: Path, chat: string, agent: string)
    ensures IpcRoot(dataDir, Main(chat)) == dataDir + "/" + chat + "/ipc"
    ensures IpcRoot(dataDir, Sub(chat, agent)) == dataDir + "/" + chat + "/agents/" + agent + "/ipc"
  {
    assert Under(Under(dataDir, chat), "ipc") == dataDir + "/" + chat + "/ipc";
    assert Under(Under(Under(Under(dataDir, chat), "agents"), agent), "ipc")
        == dataDir + "/" + chat + "/agents/" + agent + "/ipc";
  }

  function Parts(p: Path): (r: seq<string>)
    ensures r != []
  {
    Split(p, SEP)
  }

  /** filepath.Base of a cleaned path. */
  function Base(p: Path): string { Parts(p)[|Parts(p)| - 1] }

  /** filepath.Dir of a cleaned path that names a file in a directory. */
  function Dir(p: Path): Path { Join(Parts(p)[..|Parts(p)| - 1], SEP) }

  lemma PartsUnder(dir: Path, name: string)
    requires SEP !in name
    ensures Parts(Under(dir, name)) == Parts(dir) + [name]
  {
    SplitConcat(dir, name, SEP);
    SplitWithout(name, SEP);
  }

  lemma DirAndBase(dir: Path, name: string)
    requires SEP !in name
    ensures Dir(Under(dir, name)) == dir && Base(Under(dir, name)) == name
  {
    PartsUnder(dir, name);
    assert (Parts(dir) + [name])[..|Parts(dir)|] == Parts(dir);
    JoinOfSplit(dir, SEP);
  }

  function Segments(o: Owner): seq<string> {
    match o
    case Main(chat) => [chat, "ipc"]
    case Sub(chat, agent) => [chat, "agents", agent, "ipc"]
  }

  lemma PartsOfRoot(dataDir: Path, o: Owner)
    requires WellNamed(o)
    ensures Parts(IpcRoot(dataDir, o)) == Parts(dataDir) + Segments(o)
    ensures Base(IpcRoot(dataDir, o)) == "ipc"
  {
    PartsUnder(dataDir, o.chat);
    match o
    case Main(chat) =>
      PartsUnder(Under(dataDir, chat), "ipc");
      assert Parts(dataDir) + [chat] + ["ipc"] == Parts(dataDir) + Segments(o);
    case Sub(chat, agent) =>
      var agents := Under(Under(dataDir, chat), "agents");
      PartsUnder(Under(dataDir, chat), "agents");
      PartsUnder(agents, agent);
      PartsUnder(Under(agents, agent), "ipc");
      assert Parts(dataDir) + [chat] + ["agents"] + [agent] + ["ipc"] == Parts(dataDir) + Segments(o);
  }

  /** A directory below an IPC root names its agent and its subdirectory: no two agents share one. */
  lemma DirectoriesAreDistinct(dataDir: Path, o: Owner, sub: string, o': Owner, sub': string)
    requires WellNamed(o) && WellNamed(o') && SEP !in sub && SEP !in sub'
    requires Under(IpcRoot(dataDir, o), sub) == Under(IpcRoot(dataDir, o'), sub')
    ensures o == o' && sub == sub'
  {
    PartsOfRoot(dataDir, o);
    PartsOfRoot(dataDir, o');
    PartsUnder(IpcRoot(dataDir, o), sub);
    PartsUnder(IpcRoot(dataDir, o'), sub');
    var d := Parts(dataDir);
    var p, p' := d + Segments(o) + [sub], d + Segments(o') + [sub'];
    assert p == p';
    assert p[|d|..] == Segments(o) + [sub] && p'[|d|..] == Segments(o') + [sub'];
    var t, t' := Segments(o) + [sub], Segments(o') + [sub'];
    assert t == t' && t[|t| - 1] == sub && t[0] == o.chat && (o.Sub? ==> t[2] == o.agent);
  }
}
