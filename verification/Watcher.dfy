/**
 internal/ipc/watcher.go as an object: the directories inotify watches, the `metas` map, the router,
 and the file system Watch reads from and removes files from.
 */
module Watcher {
  import opened Prelude
  import opened IpcPaths
  import opened IpcRouter
  import D = IpcDelivery

  /** An fsnotify event; only Create events are routed. */
  datatype FsEvent = FsEvent(create: bool, path: Path)

  /** The directories RegisterDir has added, and the identities it has stored, after n of the subdirectories. */
  function WatchedAfter(watched: set<Path>, root: Path, n: nat): set<Path>
    requires n <= |WATCHED_SUBDIRS|
  {
    if n == 0 then watched else WatchedAfter(watched, root, n - 1) + {Under(root, WATCHED_SUBDIRS[n - 1])}
  }

  function MetasAfter(metas: map<Path, Meta>, root: Path, meta: Meta, n: nat): map<Path, Meta>
    requires n <= |WATCHED_SUBDIRS|
  {
    if n == 0 then metas else MetasAfter(metas, root, meta, n - 1)[Under(root, WATCHED_SUBDIRS[n - 1]) := meta]
  }

  /** What Watch has done with a sequence of events: the calls made and the files left. */
  datatype Outcome = Outcome(calls: seq<Dispatch>, files: map<Path, Data>)

  /** One event, given the environment the turn is taken in. */
  function AfterEvent(env: D.Env, metas: map<Path, Meta>, o: Outcome, e: FsEvent): Outcome {
    if !e.create then o
    else match D.NextTurn(env, metas, o.files, e.path).result
         case Err(_) => o
         case Ok(d) => Outcome(o.calls + [d], o.files - {e.path})
  }

  function AfterEvents(env: D.Env, metas: map<Path, Meta>, o: Outcome, events: seq<FsEvent>): Outcome {
    if events == [] then o
    else AfterEvent(env, metas, AfterEvents(env, metas, o, events[..|events| - 1]), events[|events| - 1])
  }

  class Watcher {
    const env: D.Env
    const router: Router
    var watched: set<Path>
    var metas: map<Path, Meta>
    var files: map<Path, Data>

    ghost predicate Valid()
      reads this, router
    {
      router.codec == env.codec && router.hasCapability == env.hasCapability
    }

    constructor (env: D.Env, router: Router)
      requires router.codec == env.codec && router.hasCapability == env.hasCapability
      ensures Valid() && this.env == env && this.router == router
      ensures watched == {} && metas == map[] && files == map[]
    {
      this.env, this.router := env, router;
      watched, metas, files := {}, map[], map[];
    }

    /**
     RegisterDir: the six subdirectories are watched and know their agent, then responses/ is made but
     not watched.  `usable` is how many of these seven directories can be made ready; the first one that
     cannot ends the call with an error, and the registrations before it stay.
     */
    method RegisterDir(root: Path, chat: string, role: string, subAgent: string, usable: nat)
      returns (error: Option<string>)
      modifies this`watched, this`metas
      ensures error.Some? <==> chat == "" || usable <= |WATCHED_SUBDIRS|
      ensures var n := if chat == "" then 0 else if usable < |WATCHED_SUBDIRS| then usable else |WATCHED_SUBDIRS|;
        && watched == WatchedAfter(old(watched), root, n)
        && metas == MetasAfter(old(metas), root, Meta(chat, role, subAgent), n)
    {
      if chat == "" {
        return Some("empty chatID");
      }
      for i := 0 to |WATCHED_SUBDIRS|
        invariant i <= usable
        invariant watched == WatchedAfter(old(watched), root, i)
        invariant metas == MetasAfter(old(metas), root, Meta(chat, role, subAgent), i)
      {
        if i == usable {
          return Some("mkdir, chmod or watch");
        }
        var dir := Under(root, WATCHED_SUBDIRS[i]);
        watched := watched + {dir};
        metas := metas[dir := Meta(chat, role, subAgent)];
      }
      if usable == |WATCHED_SUBDIRS| {
        return Some("responses");
      }
      return None;
    }

    /** Watch's reaction to one event. */
    method HandleEvent(e: FsEvent)
      requires Valid()
      modifies this`files, router`calls
      ensures Valid()
      ensures Outcome(router.calls, files) == AfterEvent(env, metas, Outcome(old(router.calls), old(files)), e)
    {
      if !e.create { return; }
      var parent := Dir(e.path);
      var meta := if parent in metas then metas[parent] else NO_META;
      var file := if e.path in files then Some(files[e.path]) else None;
      var error := router.Route(Base(parent), file, meta);
      if error.Some? { return; }
      files := files - {e.path};
    }

    /** Watch's loop over the events that arrive before its context ends. */
    method Watch(events: seq<FsEvent>)
      requires Valid()
      modifies this`files, router`calls
      ensures Valid()
      ensures Outcome(router.calls, files) == AfterEvents(env, metas, Outcome(old(router.calls), old(files)), events)
    {
      for i := 0 to |events|
        invariant Valid()
        invariant Outcome(router.calls, files) ==
          AfterEvents(env, metas, Outcome(old(router.calls), old(files)), events[..i])
      {
        assert events[..i + 1][..i] == events[..i];
        HandleEvent(events[i]);
      }
      assert events[..|events|] == events;
    }
  }

  /** The paths of the Create events among them, in order. */
  function Creates(events: seq<FsEvent>): seq<FsEvent> {
    if events == [] then []
    else
      var n := |events| - 1;
      Creates(events[..n]) + if events[n].create then [events[n]] else []
  }

  /** Writes, renames away, removals and mode changes lead to nothing, wherever they stand among the Create events. */
  lemma {:induction false} OnlyCreatesMatter(env: D.Env, metas: map<Path, Meta>, o: Outcome, events: seq<FsEvent>)
    ensures AfterEvents(env, metas, o, events) == AfterEvents(env, metas, o, Creates(events))
  {
    if events == [] {
    } else {
      var n := |events| - 1;
      OnlyCreatesMatter(env, metas, o, events[..n]);
      if events[n].create {
        assert (Creates(events[..n]) + [events[n]])[..|Creates(events[..n])|] == Creates(events[..n]);
      } else {
        assert Creates(events) == Creates(events[..n]);
      }
    }
  }

  // ---- The object and the transition system ------------------------------------------------------

  /** One pass of RegisterDir's loop for node k: both half-steps. */
  function RegisterOne(env: D.Env, s: D.State, k: nat): Option<D.State> {
    match D.DoRegister(env, s, k)
    case None => None
    case Some(m) => D.DoRegister(env, m, k)
  }

  /** n passes. */
  function RegisterRun(env: D.Env, s: D.State, k: nat, n: nat): Option<D.State> {
    if n == 0 then Some(s)
    else match RegisterRun(env, s, k, n - 1)
         case None => None
         case Some(m) => RegisterOne(env, m, k)
  }

  /** Node k with its first n subdirectories registered, as the method RegisterDir leaves them. */
  function RegisteredTo(env: D.Env, s: D.State, k: nat, n: nat): D.State
    requires k < |s.nodes| && k < |s.regs| && n <= |WATCHED_SUBDIRS|
  {
    var root := IpcRoot(env.dataDir, D.OwnerOf(s.nodes[k]));
    s.(regs := s.regs[k := 2 * n],
       watched := WatchedAfter(s.watched, root, n),
       metas := MetasAfter(s.metas, root, D.MetaOf(s.nodes[k]), n))
  }

  /** Half-steps with nothing between them do what the method RegisterDir does. */
  lemma {:induction false} RegisterRunIsRegisterDir(env: D.Env, s: D.State, k: nat, n: nat)
    requires k < |s.nodes| == |s.regs| && s.regs[k] == 0 && n <= |WATCHED_SUBDIRS|
    ensures RegisterRun(env, s, k, n) == Some(RegisteredTo(env, s, k, n))
  {
    if n == 0 {
      assert s.regs[k := 0] == s.regs;
    } else {
      RegisterRunIsRegisterDir(env, s, k, n - 1);
      TwoHalves(env, s, k, n - 1);
    }
  }

  lemma TwoHalves(env: D.Env, s: D.State, k: nat, i: nat)
    requires k < |s.nodes| == |s.regs| && i < |WATCHED_SUBDIRS|
    ensures RegisterOne(env, RegisteredTo(env, s, k, i), k) == Some(RegisteredTo(env, s, k, i + 1))
  {
    assert s.regs[k := 2 * i][k := 2 * i + 1][k := 2 * i + 2] == s.regs[k := 2 * i + 2];
  }

  /** One of the first n subdirectories below the root. */
  ghost predicate IsSubdir(root: Path, n: nat, dir: Path)
    requires n <= |WATCHED_SUBDIRS|
  {
    exists i :: 0 <= i < n && dir == Under(root, WATCHED_SUBDIRS[i])
  }

  /** RegisterDir: the six subdirectories below the root and no other directory, in particular not responses/. */
  lemma {:induction false} RegistersExactly(watched: set<Path>, metas: map<Path, Meta>, root: Path, meta: Meta,
                                            n: nat, dir: Path)
    requires n <= |WATCHED_SUBDIRS|
    ensures dir in WatchedAfter(watched, root, n) <==> dir in watched || IsSubdir(root, n, dir)
    ensures var after := MetasAfter(metas, root, meta, n);
      if IsSubdir(root, n, dir) then dir in after && after[dir] == meta
      else (dir in after <==> dir in metas) && (dir in after ==> after[dir] == metas[dir])
    ensures dir == Under(root, "responses") ==> !IsSubdir(root, n, dir)
  {
    if n == 0 {
    } else {
      RegistersExactly(watched, metas, root, meta, n - 1, dir);
      OneMoreSubdir(root, n, dir);
      DirAndBase(root, "responses");
      DirAndBase(root, WATCHED_SUBDIRS[n - 1]);
    }
  }

  lemma OneMoreSubdir(root: Path, n: nat, dir: Path)
    requires 0 < n <= |WATCHED_SUBDIRS|
    ensures IsSubdir(root, n, dir) <==> IsSubdir(root, n - 1, dir) || dir == Under(root, WATCHED_SUBDIRS[n - 1])
  {
  }

  /** One turn of the transition system that spawns nothing is one Create event of the object. */
  lemma TurnIsHandleEvent(env: D.Env, s: D.State, uuid: string, calls: seq<Dispatch>)
    requires D.DoWatch(env, s, uuid).Some?
    ensures |s.turns| < |s.notices|
    ensures var s' := D.DoWatch(env, s, uuid).value;
      && |s'.turns| == |s.turns| + 1
      && AfterEvent(env, s.metas, Outcome(calls, s.files), FsEvent(true, s.notices[|s.turns|].path)) ==
         Outcome(if s'.turns[|s.turns|].result.Ok? then calls + [s'.turns[|s.turns|].result.value] else calls, s'.files)
  {
  }
}
