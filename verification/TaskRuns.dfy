/** The task registry over whole runs: any sequence of task files, crashes and restarts, with any failures. */
module TaskRuns {
  import opened Prelude
  import opened TaskRegistry

  /**
   A handled file, or a crash after the first `effects` effects of handling one (none for a crash or
   a shutdown between files), followed by a startup whose query returns `loaded`, all unpaused rows or,
   when it fails, some of them.
   */
  datatype Event =
    | Handled(file: TaskFile)
    | Restarted(file: TaskFile, effects: nat, loaded: seq<Task>, unwritable: set<ChatId>)

  const EMPTY: State := State(map[], NO_ENTRIES, map[])

  ghost function Step(parses: string -> bool, s: State, e: Event): Option<State> {
    match e
    case Handled(f) => Some(Handle(parses, s, f))
    case Restarted(f, n, loaded, unwritable) =>
      if n < |HandlerStates(parses, s, f)| && Loads(loaded, HandlerStates(parses, s, f)[n].rows)
      then Some(Restart(parses, HandlerStates(parses, s, f)[n], loaded, unwritable))
      else None
  }

  ghost function Exec(parses: string -> bool, evs: seq<Event>): Option<State> {
    if evs == [] then Some(EMPTY)
    else match Exec(parses, evs[..|evs| - 1])
         case None => None
         case Some(m) => Step(parses, m, evs[|evs| - 1])
  }

  /** The unpaused rows that startup did not load and nothing has settled since. */
  ghost function Missing(parses: string -> bool, evs: seq<Event>): set<TaskId> {
    if evs == [] then {}
    else
      var n := |evs| - 1;
      match evs[n]
      case Handled(f) => StillMissing(parses, f, Missing(parses, evs[..n]))
      case Restarted(f, k, loaded, _) =>
        var before := Exec(parses, evs[..n]);
        if before.Some? && k < |HandlerStates(parses, before.value, f)|
        then NotLoaded(HandlerStates(parses, before.value, f)[k].rows, loaded) else {}
  }

  /** The IDs that appear in create files. */
  function Created(evs: seq<Event>): set<TaskId> {
    if evs == [] then {}
    else Created(evs[..|evs| - 1]) + if evs[|evs| - 1].file.Create? then {evs[|evs| - 1].file.task.id} else {}
  }

  /** No ID is created twice. */
  ghost predicate FreshIds(evs: seq<Event>) {
    forall n :: 0 <= n < |evs| && evs[n].file.Create? ==> evs[n].file.task.id !in Created(evs[..n])
  }

  lemma HandlerRows(parses: string -> bool, s: State, f: TaskFile, n: nat)
    requires n < |HandlerStates(parses, s, f)|
    ensures HandlerStates(parses, s, f)[n].rows.Keys <= s.rows.Keys + if f.Create? then {f.task.id} else {}
  {
  }

  lemma StepRows(parses: string -> bool, s: State, e: Event)
    requires Step(parses, s, e).Some?
    ensures Step(parses, s, e).value.rows.Keys <= s.rows.Keys + if e.file.Create? then {e.file.task.id} else {}
  {
    match e
    case Handled(f) => HandlerRows(parses, s, f, |HandlerStates(parses, s, f)| - 1);
    case Restarted(f, n, _, _) => HandlerRows(parses, s, f, n);
  }

  /**
   Over every run, with any IDs and any failures, of startup's query too: entry IDs and live cron entries
   are in bijection, only rows have entries, and an unpaused row has one unless it is missing.
   */
  lemma {:induction false} RegistryInvariant(parses: string -> bool, evs: seq<Event>)
    requires Exec(parses, evs).Some?
    ensures Inv(parses, Exec(parses, evs).value, Missing(parses, evs))
    ensures Exec(parses, evs).value.rows.Keys <= Created(evs)
  {
    if evs == [] {
    } else {
      var n := |evs| - 1;
      var s := Exec(parses, evs[..n]).value;
      RegistryInvariant(parses, evs[..n]);
      StepRows(parses, s, evs[n]);
      HandleInv(parses, s, evs[n].file, Missing(parses, evs[..n]));
      match evs[n]
      case Handled(f) =>
      case Restarted(f, k, loaded, unwritable) =>
        RestartInv(parses, HandlerStates(parses, s, f)[k], loaded, unwritable);
    }
  }

  lemma FreshPrefix(evs: seq<Event>)
    requires FreshIds(evs) && evs != []
    ensures FreshIds(evs[..|evs| - 1])
  {
    var ys := evs[..|evs| - 1];
    forall n | 0 <= n < |ys| && ys[n].file.Create? ensures ys[n].file.task.id !in Created(ys[..n]) {
      assert ys[..n] == evs[..n] && ys[n] == evs[n];
    }
  }

  /** Over every run that creates no ID twice, the scheduler holds exactly the unpaused rows that are not missing. */
  lemma {:induction false} RegistryAgreesBut(parses: string -> bool, evs: seq<Event>)
    requires Exec(parses, evs).Some? && FreshIds(evs)
    ensures AgreesBut(Exec(parses, evs).value.rows, Exec(parses, evs).value.sched, Missing(parses, evs))
  {
    if evs == [] {
    } else {
      var n := |evs| - 1;
      var s := Exec(parses, evs[..n]).value;
      FreshPrefix(evs);
      RegistryAgreesBut(parses, evs[..n]);
      RegistryInvariant(parses, evs[..n]);
      match evs[n]
      case Handled(f) => HandleAgrees(parses, s, f, Missing(parses, evs[..n]));
      case Restarted(f, k, loaded, unwritable) =>
        HandleInv(parses, s, f, Missing(parses, evs[..n]));
        RestartInv(parses, HandlerStates(parses, s, f)[k], loaded, unwritable);
    }
  }

  /**
   Over every run that creates no ID twice, the scheduler holds exactly the unpaused rows if and only if
   no row is missing; every unpaused row has an entry if and only if no row is missing, for any IDs.
   */
  lemma RegistryAgreement(parses: string -> bool, evs: seq<Event>)
    requires Exec(parses, evs).Some?
    ensures var s := Exec(parses, evs).value;
      && (Covered(s.rows, s.sched, {}) <==> Missing(parses, evs) == {})
      && (FreshIds(evs) ==> (Agrees(s.rows, s.sched) <==> Missing(parses, evs) == {}))
  {
    var s := Exec(parses, evs).value;
    RegistryInvariant(parses, evs);
    if id :| id in Missing(parses, evs) {
      assert id !in s.sched.entryIDs;
    }
    if FreshIds(evs) {
      RegistryAgreesBut(parses, evs);
      AgreeMissing(s.rows, s.sched, Missing(parses, evs));
    }
  }

  /** After a startup, exactly the rows that its query did not return are missing: none when it was complete. */
  lemma RestartMisses(parses: string -> bool, evs: seq<Event>)
    requires evs != [] && evs[|evs| - 1].Restarted? && Exec(parses, evs).Some?
    ensures var loaded, rows := evs[|evs| - 1].loaded, Exec(parses, evs).value.rows;
      Missing(parses, evs) == NotLoaded(rows, loaded) && (Missing(parses, evs) == {} <==> Complete(loaded, rows))
  {
    CompleteMisses(Exec(parses, evs).value.rows, evs[|evs| - 1].loaded);
  }

  /** Files handled later only shrink what is missing. */
  lemma {:induction false} MissingShrinks(parses: string -> bool, evs: seq<Event>, files: seq<Event>)
    requires forall n :: 0 <= n < |files| ==> files[n].Handled?
    ensures Missing(parses, evs + files) <= Missing(parses, evs)
  {
    if files == [] {
      assert evs + files == evs;
    } else {
      var n := |files| - 1;
      MissingShrinks(parses, evs, files[..n]);
      assert (evs + files)[..|evs + files| - 1] == evs + files[..n];
    }
  }

  // ---- Snapshots ---------------------------------------------------------------------------------------

  /** Every chat with a row has a snapshot of exactly its rows, and every snapshot is of that kind. */
  ghost predicate AllCurrent(s: State) {
    forall c :: if c in s.snaps then ListsChat(s.snaps[c], s.rows, c) else ListsChat({}, s.rows, c)
  }

  ghost predicate AllByChat(s: State) {
    forall c :: if c in s.snaps then s.snaps[c] == ByChat(s.rows, c) else ByChat(s.rows, c) == {}
  }

  lemma AllCurrentIsByChat(s: State)
    ensures AllCurrent(s) <==> AllByChat(s)
  {
    forall c ensures (if c in s.snaps then s.snaps[c] == ByChat(s.rows, c) else ByChat(s.rows, c) == {})
      <==> if c in s.snaps then ListsChat(s.snaps[c], s.rows, c) else ListsChat({}, s.rows, c)
    {
      ListsExactly(s.rows, c, if c in s.snaps then s.snaps[c] else {});
    }
  }

  lemma OtherChats(rows: Rows, rows': Rows, id: TaskId, c: ChatId)
    requires rows'.Keys == rows.Keys + {id} && forall a :: a in rows && a != id ==> rows'[a] == rows[a]
    requires rows'[id].chat != c && (id in rows ==> rows[id].chat != c)
    ensures ByChat(rows', c) == ByChat(rows, c)
  {
    forall t | t in ByChat(rows, c) ensures t in ByChat(rows', c) {
      var a :| a in rows && rows[a].chat == c && rows[a] == t;
      assert rows'[a] == t;
    }
    forall t | t in ByChat(rows', c) ensures t in ByChat(rows, c) {
      var a :| a in rows' && rows'[a].chat == c && rows'[a] == t;
      assert a in rows && rows[a] == t;
    }
  }

  lemma PauseByChat(parses: string -> bool, s: State, id: TaskId, chat: ChatId, faults: Faults)
    requires RowsValid(parses, s.rows) && AllByChat(s) && !faults.pause && !faults.snapshot
    ensures AllByChat(Handle(parses, s, Pause(id, chat, faults))) <==>
      id !in s.rows || s.rows[id].paused || s.rows[id].chat == chat
  {
    var s' := Handle(parses, s, Pause(id, chat, faults));
    if id !in s.rows || s.rows[id].paused {
      assert s'.rows == s.rows;
    } else if s.rows[id].chat == chat {
      forall c | c != chat ensures ByChat(s'.rows, c) == ByChat(s.rows, c) {
        OtherChats(s.rows, s'.rows, id, c);
      }
    } else {
      var c := s.rows[id].chat;
      assert s.rows[id] in ByChat(s.rows, c);
      assert s'.rows[id] in ByChat(s'.rows, c) && s'.rows[id] !in ByChat(s.rows, c);
      assert s'.snaps == s.snaps[chat := ByChat(s'.rows, chat)] && c in s'.snaps;
    }
  }

  /**
   When a pause keeps all snapshots current: it names the chat of the row, or the row is missing or
   already paused.  A pause file from another chat rewrites the wrong snapshot.
   */
  lemma PauseSnapshotsExactly(parses: string -> bool, s: State, id: TaskId, chat: ChatId, faults: Faults)
    requires RowsValid(parses, s.rows) && AllCurrent(s) && !faults.pause && !faults.snapshot
    ensures AllCurrent(Handle(parses, s, Pause(id, chat, faults))) <==>
      id !in s.rows || s.rows[id].paused || s.rows[id].chat == chat
  {
    AllCurrentIsByChat(s);
    AllCurrentIsByChat(Handle(parses, s, Pause(id, chat, faults)));
    PauseByChat(parses, s, id, chat, faults);
  }

  lemma CreateByChat(parses: string -> bool, s: State, task: Task, faults: Faults)
    requires AllByChat(s) && task.id !in s.rows && !faults.snapshot
    ensures AllByChat(Handle(parses, s, Create(task, faults)))
  {
    var s' := Handle(parses, s, Create(task, faults));
    if parses(task.schedule) && !faults.save {
      CompensationUnreachable(parses, s, task, faults);
      forall c | c != task.chat ensures ByChat(s'.rows, c) == ByChat(s.rows, c) {
        OtherChats(s.rows, s'.rows, task.id, c);
      }
    }
  }

  lemma CreateSnapshots(parses: string -> bool, s: State, task: Task, faults: Faults)
    requires AllCurrent(s) && task.id !in s.rows && !faults.snapshot
    ensures AllCurrent(Handle(parses, s, Create(task, faults)))
  {
    AllCurrentIsByChat(s);
    AllCurrentIsByChat(Handle(parses, s, Create(task, faults)));
    CreateByChat(parses, s, task, faults);
  }

  /** A restart between files keeps current snapshots current, whatever its query returns and whatever it can write. */
  lemma RestartKeepsCurrent(parses: string -> bool, s: State, loaded: seq<Task>, unwritable: set<ChatId>)
    requires AllCurrent(s)
    ensures AllCurrent(Restart(parses, s, loaded, unwritable))
  {
    AllCurrentIsByChat(s);
    AllCurrentIsByChat(Restart(parses, s, loaded, unwritable));
  }

  /** The file creates a new ID or pauses a task of its own chat, and its snapshot is written. */
  ghost predicate OwnFile(s: State, f: TaskFile) {
    match f
    case Create(t, faults) => t.id !in s.rows && !faults.snapshot
    case Pause(id, chat, faults) => (id in s.rows ==> s.rows[id].chat == chat) && !faults.snapshot
    case Unknown => true
  }

  /** A restart between files, or a file about a chat's own tasks. */
  ghost predicate OwnEvent(s: State, e: Event) {
    match e
    case Handled(f) => OwnFile(s, f)
    case Restarted(_, n, _, _) => n == 0
  }

  /** Files about a chat's own tasks, and restarts between them, keep every snapshot equal to the rows of its chat. */
  lemma {:induction false} SnapshotsStayCurrent(parses: string -> bool, evs: seq<Event>)
    requires Exec(parses, evs).Some? && forall n :: 0 <= n < |evs| ==>
      Exec(parses, evs[..n]).Some? && OwnEvent(Exec(parses, evs[..n]).value, evs[n])
    ensures AllCurrent(Exec(parses, evs).value)
  {
    if evs == [] {
    } else {
      var k := |evs| - 1;
      var ys, s := evs[..k], Exec(parses, evs[..k]).value;
      forall n | 0 <= n < |ys|
        ensures Exec(parses, ys[..n]).Some? && OwnEvent(Exec(parses, ys[..n]).value, ys[n])
      {
        assert ys[..n] == evs[..n] && ys[n] == evs[n];
      }
      SnapshotsStayCurrent(parses, ys);
      RegistryInvariant(parses, ys);
      match evs[k]
      case Handled(Create(task, faults)) => CreateSnapshots(parses, s, task, faults);
      case Handled(Pause(id, chat, faults)) =>
        if !faults.pause { PauseSnapshotsExactly(parses, s, id, chat, faults); }
      case Handled(Unknown) =>
      case Restarted(_, _, loaded, unwritable) => RestartKeepsCurrent(parses, s, loaded, unwritable);
    }
  }
}
