/**
 The task registry: rows in SQLite, the scheduler's entry map, live cron entries and the tasks.json
 snapshots, as updated by the task handler of cmd/pitu/main.go and rebuilt at startup.  `parses`
 stands for the one cron parser that Validate and AddFunc share.
 */
module TaskRegistry {
  import opened Prelude

  type TaskId = string
  type ChatId = string
  type EntryId = nat

  datatype Task = Task(id: TaskId, chat: ChatId, name: string, schedule: string, prompt: string, paused: bool)

  // ---- internal/store/tasks.go -----------------------------------------------------------------

  type Rows = map<TaskId, Task>

  /** SaveTask: an existing row keeps its chat and its paused flag. */
  function Upsert(rows: Rows, t: Task): Rows {
    if t.id in rows then rows[t.id := rows[t.id].(name := t.name, schedule := t.schedule, prompt := t.prompt)]
    else rows[t.id := t]
  }

  /** PauseTask. */
  function SetPaused(rows: Rows, id: TaskId): Rows {
    if id in rows then rows[id := rows[id].(paused := true)] else rows
  }

  /** GetTasksByChatID. */
  function ByChat(rows: Rows, c: ChatId): set<Task> { set id | id in rows && rows[id].chat == c :: rows[id] }

  /** GetAllActiveTasks. */
  function Active(rows: Rows): set<Task> { set id | id in rows && !rows[id].paused :: rows[id] }

  // ---- internal/scheduler/scheduler.go -----------------------------------------------------------

  /** What a cron entry was added with. */
  datatype Job = Job(schedule: string, chat: ChatId, prompt: string)

  datatype Sched = Sched(entryIDs: map<TaskId, EntryId>, cron: map<EntryId, Job>, next: EntryId)

  const NO_ENTRIES: Sched := Sched(map[], map[], 1)

  function JobOf(t: Task): Job { Job(t.schedule, t.chat, t.prompt) }

  /** Add; None is the error of AddFunc. */
  function AddEntry(parses: string -> bool, s: Sched, t: Task): Option<Sched> {
    if t.paused || t.id in s.entryIDs then Some(s)
    else if !parses(t.schedule) then None
    else Some(Sched(s.entryIDs[t.id := s.next], s.cron[s.next := JobOf(t)], s.next + 1))
  }

  /** Pause: LoadAndDelete, then remove the cron entry. */
  function RemoveEntry(s: Sched, id: TaskId): Sched {
    if id in s.entryIDs then s.(entryIDs := s.entryIDs - {id}, cron := s.cron - {s.entryIDs[id]}) else s
  }

  // ---- The handler ---------------------------------------------------------------------------------

  datatype State = State(rows: Rows, sched: Sched, snaps: map<ChatId, set<Task>>)

  /** The operations that fail while one file is handled. */
  datatype Faults = Faults(save: bool, pause: bool, delete: bool, snapshot: bool)

  datatype TaskFile = Create(task: Task, faults: Faults) | Pause(id: TaskId, chat: ChatId, faults: Faults) | Unknown

  function WriteSnapshot(s: State, c: ChatId, fails: bool): State {
    if fails then s else s.(snaps := s.snaps[c := ByChat(s.rows, c)])
  }

  /** A created task starts unpaused, whatever the file says. */
  function NewTask(t: Task): Task { t.(paused := false) }

  /** The states the handler goes through, one after each of its effects. */
  function HandlerStates(parses: string -> bool, s: State, f: TaskFile): (r: seq<State>)
    ensures r != [] && r[0] == s
  {
    match f
    case Create(task, faults) =>
      var t := NewTask(task);
      if !parses(t.schedule) || faults.save then [s]
      else
        var saved := s.(rows := Upsert(s.rows, t));
        (match AddEntry(parses, saved.sched, t)
         case None =>
           var deleted := if faults.delete then saved else saved.(rows := saved.rows - {t.id});
           [s, saved, deleted, WriteSnapshot(deleted, t.chat, faults.snapshot)]
         case Some(sched) =>
           var added := saved.(sched := sched);
           [s, saved, added, WriteSnapshot(added, t.chat, faults.snapshot)])
    case Pause(id, chat, faults) =>
      if faults.pause then [s]
      else
        var paused := s.(rows := SetPaused(s.rows, id));
        var removed := paused.(sched := RemoveEntry(s.sched, id));
        [s, paused, removed, WriteSnapshot(removed, chat, faults.snapshot)]
    case Unknown => [s]
  }

  function Handle(parses: string -> bool, s: State, f: TaskFile): State {
    var r := HandlerStates(parses, s, f); r[|r| - 1]
  }

  // ---- Startup ---------------------------------------------------------------------------------------

  /** The startup loop over the loaded rows; a row that Add rejects is logged and skipped. */
  function AddAll(parses: string -> bool, tasks: seq<Task>): Sched {
    if tasks == [] then NO_ENTRIES
    else
      var s := AddAll(parses, tasks[..|tasks| - 1]);
      match AddEntry(parses, s, tasks[|tasks| - 1])
      case None => s
      case Some(s') => s'
  }

  function Chats(tasks: seq<Task>): set<ChatId> { set t | t in tasks :: t.chat }

  /** What is left of the process is the database and the snapshot files. */
  function Restart(parses: string -> bool, s: State, loaded: seq<Task>, unwritable: set<ChatId>): State {
    var renewed := Chats(loaded) - unwritable;
    State(s.rows, AddAll(parses, loaded),
          map c | c in s.snaps.Keys + renewed :: if c in renewed then ByChat(s.rows, c) else s.snaps[c])
  }

  /** What the query for unpaused rows returned: some of them, in whatever order; all of them unless it failed. */
  ghost predicate Loads(loaded: seq<Task>, rows: Rows) {
    forall t :: t in loaded ==> t in Active(rows)
  }

  ghost predicate Complete(loaded: seq<Task>, rows: Rows) {
    forall t :: t in loaded <==> t in Active(rows)
  }

  /** The unpaused rows that startup did not get to see. */
  function NotLoaded(rows: Rows, loaded: seq<Task>): set<TaskId> {
    set id | id in rows && !rows[id].paused && rows[id] !in loaded
  }

  /** Of the rows without an entry, those a file leaves so: a saved create adds the entry, a pause settles the row. */
  function StillMissing(parses: string -> bool, f: TaskFile, missing: set<TaskId>): set<TaskId> {
    match f
    case Create(t, faults) => if !parses(t.schedule) || faults.save then missing else missing - {t.id}
    case Pause(id, _, faults) => if faults.pause then missing else missing - {id}
    case Unknown => missing
  }

  // ---- Invariants over every sequence of files and restarts -----------------------------------------

  ghost predicate RowsValid(parses: string -> bool, rows: Rows) {
    forall id :: id in rows ==> rows[id].id == id && parses(rows[id].schedule)
  }

  ghost predicate Holds(s: Sched, id: TaskId, e: EntryId) { id in s.entryIDs && s.entryIDs[id] == e }

  /** Entry IDs and live cron entries are in bijection. */
  ghost predicate Bijective(s: Sched) {
    && (forall id :: id in s.entryIDs ==> s.entryIDs[id] in s.cron && s.entryIDs[id] < s.next)
    && (forall a, b, e :: Holds(s, a, e) && Holds(s, b, e) ==> a == b)
    && (forall e :: e in s.cron ==> exists id :: Holds(s, id, e))
  }

  /** Every unpaused row has an entry unless it is missing, and only rows have entries. */
  ghost predicate Covered(rows: Rows, s: Sched, missing: set<TaskId>) {
    && (forall id :: id in rows && !rows[id].paused ==> (id in s.entryIDs <==> id !in missing))
    && (forall id :: id in missing ==> id in rows && !rows[id].paused)
    && s.entryIDs.Keys <= rows.Keys
  }

  ghost predicate Inv(parses: string -> bool, s: State, missing: set<TaskId>) {
    RowsValid(parses, s.rows) && Bijective(s.sched) && Covered(s.rows, s.sched, missing)
  }

  /** The entry runs the row's prompt for the row's chat on the row's schedule. */
  ghost predicate RunsRow(job: Job, t: Task) {
    job.schedule == t.schedule && job.chat == t.chat && job.prompt == t.prompt
  }

  /** The scheduler holds exactly the unpaused rows but the missing ones, with their schedule, chat and prompt. */
  ghost predicate AgreesBut(rows: Rows, s: Sched, missing: set<TaskId>) {
    && (forall id :: id in s.entryIDs <==> id in rows && !rows[id].paused && id !in missing)
    && (forall id :: id in s.entryIDs ==> s.entryIDs[id] in s.cron && RunsRow(s.cron[s.entryIDs[id]], rows[id]))
  }

  /** The scheduler holds exactly the unpaused rows. */
  ghost predicate Agrees(rows: Rows, s: Sched) { AgreesBut(rows, s, {}) }

  lemma AddBijective(parses: string -> bool, s: Sched, t: Task)
    requires Bijective(s) && AddEntry(parses, s, t).Some?
    ensures Bijective(AddEntry(parses, s, t).value)
  {
    var s' := AddEntry(parses, s, t).value;
    if s' != s {
      forall e | e in s'.cron ensures exists id :: Holds(s', id, e) {
        if e == s.next {
          assert Holds(s', t.id, e);
        } else {
          var id :| Holds(s, id, e);
          assert Holds(s', id, e);
        }
      }
      forall a, b, e | Holds(s', a, e) && Holds(s', b, e) ensures a == b {
        if a != t.id && b != t.id { assert Holds(s, a, e) && Holds(s, b, e); }
      }
    }
  }

  lemma RemoveBijective(s: Sched, id: TaskId)
    requires Bijective(s)
    ensures Bijective(RemoveEntry(s, id))
  {
    var s' := RemoveEntry(s, id);
    if id in s.entryIDs {
      forall a | a in s'.entryIDs ensures s'.entryIDs[a] in s'.cron {
        assert Holds(s, a, s.entryIDs[a]) && Holds(s, id, s.entryIDs[id]);
      }
      forall e | e in s'.cron ensures exists a :: Holds(s', a, e) {
        var a :| Holds(s, a, e);
        assert Holds(s', a, e);
      }
      forall a, b, e | Holds(s', a, e) && Holds(s', b, e) ensures a == b {
        assert Holds(s, a, e) && Holds(s, b, e);
      }
    }
  }

  /** Add cannot fail in the handler: Validate has asked the same parser before. */
  lemma CompensationUnreachable(parses: string -> bool, s: State, task: Task, faults: Faults)
    requires |HandlerStates(parses, s, Create(task, faults))| > 1
    ensures AddEntry(parses, s.sched, NewTask(task)).Some?
    ensures task.id in Handle(parses, s, Create(task, faults)).rows
    ensures task.id in Handle(parses, s, Create(task, faults)).sched.entryIDs
  {
  }

  lemma UpsertCovered(parses: string -> bool, rows: Rows, s: Sched, t: Task, missing: set<TaskId>)
    requires RowsValid(parses, rows) && Covered(rows, s, missing) && parses(t.schedule)
    ensures RowsValid(parses, Upsert(rows, t)) && AddEntry(parses, s, t).Some?
    ensures !t.paused ==> Covered(Upsert(rows, t), AddEntry(parses, s, t).value, missing - {t.id})
  {
  }

  lemma PauseCovered(parses: string -> bool, rows: Rows, s: Sched, id: TaskId, missing: set<TaskId>)
    requires RowsValid(parses, rows) && Covered(rows, s, missing)
    ensures RowsValid(parses, SetPaused(rows, id)) && Covered(SetPaused(rows, id), RemoveEntry(s, id), missing - {id})
  {
  }

  /** Whatever fails, handling a file keeps the entries and the rows consistent. */
  lemma HandleInv(parses: string -> bool, s: State, f: TaskFile, missing: set<TaskId>)
    requires Inv(parses, s, missing)
    ensures Inv(parses, Handle(parses, s, f), StillMissing(parses, f, missing))
    ensures forall n :: 0 <= n < |HandlerStates(parses, s, f)| ==>
      RowsValid(parses, HandlerStates(parses, s, f)[n].rows)
  {
    match f
    case Create(task, faults) =>
      if parses(task.schedule) && !faults.save {
        UpsertCovered(parses, s.rows, s.sched, NewTask(task), missing);
        AddBijective(parses, s.sched, NewTask(task));
      }
    case Pause(id, chat, faults) =>
      PauseCovered(parses, s.rows, s.sched, id, missing);
      RemoveBijective(s.sched, id);
    case Unknown =>
  }

  // ---- What the store's and the scheduler's operations mean ------------------------------------------

  /** SaveTask: an existing row keeps its chat and its paused flag, and every other row stays. */
  lemma UpsertKeeps(rows: Rows, t: Task, id: TaskId)
    ensures id in Upsert(rows, t) <==> id in rows || id == t.id
    ensures id in rows ==> Upsert(rows, t)[id].chat == rows[id].chat && Upsert(rows, t)[id].paused == rows[id].paused
    ensures id in rows && id != t.id ==> Upsert(rows, t)[id] == rows[id]
    ensures var saved := Upsert(rows, t)[t.id];
      saved.name == t.name && saved.schedule == t.schedule && saved.prompt == t.prompt
  {
  }

  /** What the scheduler runs: the job of every entry. */
  function Jobs(s: Sched): map<TaskId, Job> {
    map id | id in s.entryIDs && s.entryIDs[id] in s.cron :: s.cron[s.entryIDs[id]]
  }

  /**
   Add fails exactly for an unpaused, unknown task with a bad schedule; otherwise a task that is unpaused
   and unknown gets its job, and no other job changes.
   */
  lemma AddAddsOneJob(parses: string -> bool, s: Sched, t: Task)
    requires Bijective(s)
    ensures AddEntry(parses, s, t).None? <==> !t.paused && t.id !in Jobs(s) && !parses(t.schedule)
    ensures AddEntry(parses, s, t).Some? ==>
      Jobs(AddEntry(parses, s, t).value) ==
        if t.paused || t.id in Jobs(s) then Jobs(s) else Jobs(s)[t.id := Job(t.schedule, t.chat, t.prompt)]
  {
    forall id | id in s.entryIDs ensures s.entryIDs[id] != s.next {}
  }

  /** Pause takes away the job of the task and no other, and its cron entry is gone. */
  lemma PauseRemovesOneJob(s: Sched, id: TaskId)
    requires Bijective(s)
    ensures Jobs(RemoveEntry(s, id)) == Jobs(s) - {id}
    ensures id in s.entryIDs ==> s.entryIDs[id] !in RemoveEntry(s, id).cron
    ensures id in s.entryIDs ==> RemoveEntry(s, id).cron.Keys == s.cron.Keys - {s.entryIDs[id]}
  {
    if id in s.entryIDs {
      forall a | a in s.entryIDs && a != id ensures s.entryIDs[a] != s.entryIDs[id] {
        assert Holds(s, a, s.entryIDs[a]) && Holds(s, id, s.entryIDs[id]);
      }
    }
  }

  /** The rows of a chat, paused or not. */
  ghost predicate ListsChat(snap: set<Task>, rows: Rows, c: ChatId) {
    forall t: Task :: t in snap <==> exists id :: id in rows && rows[id] == t && t.chat == c
  }

  lemma ListsExactly(rows: Rows, c: ChatId, snap: set<Task>)
    ensures ListsChat(snap, rows, c) <==> snap == ByChat(rows, c)
  {
    assert ListsChat(ByChat(rows, c), rows, c);
  }

  /** A saved file: what its row holds afterwards, what the scheduler runs, and the snapshot of its chat. */
  lemma CreateExactly(parses: string -> bool, s: State, task: Task, faults: Faults)
    requires Bijective(s.sched)
    ensures var s', id := Handle(parses, s, Create(task, faults)), task.id;
      if !parses(task.schedule) || faults.save then s' == s
      else
        && s'.rows.Keys == s.rows.Keys + {id} && (forall a :: a in s.rows && a != id ==> s'.rows[a] == s.rows[a])
        && (id !in s.rows ==> s'.rows[id] == Task(id, task.chat, task.name, task.schedule, task.prompt, false))
        && (id in s.rows ==> var was := s.rows[id];
              s'.rows[id] == Task(was.id, was.chat, task.name, task.schedule, task.prompt, was.paused))
        && Jobs(s'.sched) == (if id in Jobs(s.sched) then Jobs(s.sched)
                              else Jobs(s.sched)[id := Job(task.schedule, task.chat, task.prompt)])
        && (if faults.snapshot then s'.snaps == s.snaps else OnlyRewrites(s, s', task.chat))
  {
    if parses(task.schedule) && !faults.save {
      AddAddsOneJob(parses, s.sched, NewTask(task));
      ListsExactly(Upsert(s.rows, NewTask(task)), task.chat, ByChat(Upsert(s.rows, NewTask(task)), task.chat));
    }
  }

  lemma PauseExactly(parses: string -> bool, s: State, id: TaskId, chat: ChatId, faults: Faults)
    requires Bijective(s.sched)
    ensures var s' := Handle(parses, s, Pause(id, chat, faults));
      if faults.pause then s' == s
      else
        && s'.rows.Keys == s.rows.Keys && (forall a :: a in s.rows && a != id ==> s'.rows[a] == s.rows[a])
        && (id in s.rows ==> var was := s.rows[id];
              s'.rows[id] == Task(was.id, was.chat, was.name, was.schedule, was.prompt, true))
        && Jobs(s'.sched) == Jobs(s.sched) - {id}
        && (if faults.snapshot then s'.snaps == s.snaps else OnlyRewrites(s, s', chat))
  {
    PauseRemovesOneJob(s.sched, id);
    ListsExactly(SetPaused(s.rows, id), chat, ByChat(SetPaused(s.rows, id), chat));
  }

  /** The snapshot of the chat lists its rows, and every other snapshot is as it was. */
  ghost predicate OnlyRewrites(s: State, s': State, c: ChatId) {
    && c in s'.snaps && ListsChat(s'.snaps[c], s'.rows, c)
    && s'.snaps.Keys == s.snaps.Keys + {c} && forall d :: d in s.snaps && d != c ==> s'.snaps[d] == s.snaps[d]
  }

  // ---- Exact agreement --------------------------------------------------------------------------------

  /**
   When a saved create keeps rows and scheduler in agreement: the ID is new, or its row is unpaused
   and has the same schedule and prompt.  Otherwise the upsert keeps a paused flag that the new
   entry ignores, or Add keeps the old entry of the changed row.
   */
  lemma CreateAgreesExactly(parses: string -> bool, rows: Rows, s: Sched, t: Task)
    requires Agrees(rows, s) && Bijective(s) && !t.paused && parses(t.schedule)
    ensures Agrees(Upsert(rows, t), AddEntry(parses, s, t).value) <==>
      t.id !in rows || (!rows[t.id].paused && rows[t.id].schedule == t.schedule && rows[t.id].prompt == t.prompt)
  {
    var rows', s' := Upsert(rows, t), AddEntry(parses, s, t).value;
    if t.id !in rows {
      CreateAgrees(parses, rows, s, t, {});
    } else if rows[t.id].paused {
      assert t.id in s'.entryIDs && rows'[t.id].paused;
    } else {
      assert s' == s;
      RecreateAgrees(rows, s, t);
    }
  }

  /** An unpaused row that is created again keeps its entry. */
  lemma RecreateAgrees(rows: Rows, s: Sched, t: Task)
    requires Agrees(rows, s) && t.id in rows && !rows[t.id].paused
    ensures Agrees(Upsert(rows, t), s) <==> rows[t.id].schedule == t.schedule && rows[t.id].prompt == t.prompt
  {
    assert RunsRow(s.cron[s.entryIDs[t.id]], rows[t.id]);
    if rows[t.id].schedule == t.schedule && rows[t.id].prompt == t.prompt {
      forall id | id in s.entryIDs ensures RunsRow(s.cron[s.entryIDs[id]], Upsert(rows, t)[id]) {
        assert RunsRow(s.cron[s.entryIDs[id]], rows[id]);
      }
    }
  }

  lemma PauseAgrees(rows: Rows, s: Sched, id: TaskId, missing: set<TaskId>)
    requires AgreesBut(rows, s, missing) && Bijective(s)
    ensures AgreesBut(SetPaused(rows, id), RemoveEntry(s, id), missing - {id})
  {
    forall a | a in RemoveEntry(s, id).entryIDs
      ensures RemoveEntry(s, id).entryIDs[a] in RemoveEntry(s, id).cron
    {
      if id in s.entryIDs {
        assert Holds(s, a, s.entryIDs[a]) && Holds(s, id, s.entryIDs[id]);
      }
    }
  }

  /** A new ID that is saved and added joins the agreement. */
  lemma CreateAgrees(parses: string -> bool, rows: Rows, s: Sched, t: Task, missing: set<TaskId>)
    requires AgreesBut(rows, s, missing) && Bijective(s) && !t.paused && parses(t.schedule) && t.id !in rows
    requires missing <= rows.Keys
    ensures AgreesBut(Upsert(rows, t), AddEntry(parses, s, t).value, missing - {t.id})
  {
  }

  /** A file that creates no existing ID keeps the agreement, whatever fails. */
  lemma HandleAgrees(parses: string -> bool, s: State, f: TaskFile, missing: set<TaskId>)
    requires Inv(parses, s, missing) && AgreesBut(s.rows, s.sched, missing)
    requires f.Create? ==> f.task.id !in s.rows
    ensures AgreesBut(Handle(parses, s, f).rows, Handle(parses, s, f).sched, StillMissing(parses, f, missing))
  {
    match f
    case Create(task, faults) =>
      if parses(task.schedule) && !faults.save {
        CreateAgrees(parses, s.rows, s.sched, NewTask(task), missing);
      }
    case Pause(id, chat, faults) => PauseAgrees(s.rows, s.sched, id, missing);
    case Unknown =>
  }

  // ---- Restart ---------------------------------------------------------------------------------------

  /** The scheduler holds exactly the given unpaused rows. */
  ghost predicate HoldsTasks(s: Sched, tasks: seq<Task>, rows: Rows) {
    && (forall id :: id in s.entryIDs <==> id in rows && rows[id] in tasks)
    && (forall id :: id in s.entryIDs ==> s.entryIDs[id] in s.cron && RunsRow(s.cron[s.entryIDs[id]], rows[id]))
  }

  lemma AddHolds(parses: string -> bool, s: Sched, tasks: seq<Task>, t: Task, rows: Rows)
    requires RowsValid(parses, rows) && Bijective(s) && HoldsTasks(s, tasks, rows) && t in Active(rows)
    ensures AddEntry(parses, s, t).Some? && HoldsTasks(AddEntry(parses, s, t).value, tasks + [t], rows)
  {
    assert t.id in rows && rows[t.id] == t && !t.paused;
    assert forall u :: u in tasks + [t] <==> u in tasks || u == t;
  }

  lemma {:induction false} AddAllHolds(parses: string -> bool, tasks: seq<Task>, rows: Rows)
    requires RowsValid(parses, rows) && forall t :: t in tasks ==> t in Active(rows)
    ensures Bijective(AddAll(parses, tasks)) && HoldsTasks(AddAll(parses, tasks), tasks, rows)
  {
    if tasks == [] {
    } else {
      var n := |tasks| - 1;
      AddAllHolds(parses, tasks[..n], rows);
      assert tasks[n] in tasks;
      AddHolds(parses, AddAll(parses, tasks[..n]), tasks[..n], tasks[n], rows);
      AddBijective(parses, AddAll(parses, tasks[..n]), tasks[n]);
      assert tasks == tasks[..n] + [tasks[n]];
    }
  }

  /** Whatever the query returned, startup builds a consistent scheduler, which lacks exactly the rows not loaded. */
  lemma RestartInv(parses: string -> bool, s: State, loaded: seq<Task>, unwritable: set<ChatId>)
    requires RowsValid(parses, s.rows) && Loads(loaded, s.rows)
    ensures Inv(parses, Restart(parses, s, loaded, unwritable), NotLoaded(s.rows, loaded))
    ensures AgreesBut(s.rows, Restart(parses, s, loaded, unwritable).sched, NotLoaded(s.rows, loaded))
  {
    AddAllHolds(parses, loaded, s.rows);
    forall id | id in s.rows && s.rows[id] in loaded ensures !s.rows[id].paused {
      assert s.rows[id] in Active(s.rows);
    }
  }

  lemma CompleteMisses(rows: Rows, loaded: seq<Task>)
    requires Loads(loaded, rows)
    ensures NotLoaded(rows, loaded) == {} <==> Complete(loaded, rows)
  {
    forall t | t in Active(rows) && NotLoaded(rows, loaded) == {} ensures t in loaded {
      var id :| id in rows && !rows[id].paused && rows[id] == t;
      assert id !in NotLoaded(rows, loaded);
    }
    forall id | id in rows && !rows[id].paused ensures rows[id] in Active(rows) {}
  }

  /**
   The scheduler that startup builds agrees with the database exactly when the query for the unpaused
   rows returned all of them; startup ignores an error of that query.
   */
  lemma RestartAgreesExactly(parses: string -> bool, s: State, loaded: seq<Task>, unwritable: set<ChatId>)
    requires RowsValid(parses, s.rows) && Loads(loaded, s.rows)
    ensures Agrees(s.rows, Restart(parses, s, loaded, unwritable).sched) <==> Complete(loaded, s.rows)
  {
    RestartInv(parses, s, loaded, unwritable);
    CompleteMisses(s.rows, loaded);
    AgreeMissing(s.rows, Restart(parses, s, loaded, unwritable).sched, NotLoaded(s.rows, loaded));
  }

  /** Agreement but for some unpaused rows is agreement exactly when there are none. */
  lemma AgreeMissing(rows: Rows, s: Sched, missing: set<TaskId>)
    requires AgreesBut(rows, s, missing) && forall id :: id in missing ==> id in rows && !rows[id].paused
    ensures Agrees(rows, s) <==> missing == {}
  {
    if missing != {} {
      var id :| id in missing;
      assert id !in s.entryIDs;
    }
  }

  /** A restart between two files gives back the same jobs, when rows and scheduler agreed. */
  lemma CleanRestartIsIdentity(parses: string -> bool, s: State, loaded: seq<Task>, unwritable: set<ChatId>)
    requires RowsValid(parses, s.rows) && Agrees(s.rows, s.sched) && Complete(loaded, s.rows)
    ensures Jobs(Restart(parses, s, loaded, unwritable).sched) == Jobs(s.sched)
  {
    RestartAgreesExactly(parses, s, loaded, unwritable);
  }

  ghost predicate Current(s: State, c: ChatId) {
    c in s.snaps && ListsChat(s.snaps[c], s.rows, c)
  }

  /**
   After a restart the snapshot of a chat is current exactly when startup rewrote it, which it does
   for chats with a loaded row, or when it already was current on disk.
   */
  lemma RestartSnapshotsExactly(parses: string -> bool, s: State, loaded: seq<Task>, unwritable: set<ChatId>, c: ChatId)
    ensures Current(Restart(parses, s, loaded, unwritable), c) <==>
      (c in Chats(loaded) && c !in unwritable) || Current(s, c)
    ensures Complete(loaded, s.rows) ==>
      (c in Chats(loaded) <==> exists id :: id in s.rows && !s.rows[id].paused && s.rows[id].chat == c)
  {
    if Complete(loaded, s.rows) {
      if id :| id in s.rows && !s.rows[id].paused && s.rows[id].chat == c {
        assert s.rows[id] in loaded;
      }
      if c in Chats(loaded) {
        var t :| t in loaded && t.chat == c;
        assert t in Active(s.rows);
      }
    }
  }

  /** A crash after any effect of the handler, then a complete restart: nothing of the scheduler is lost. */
  lemma CrashRecovers(parses: string -> bool, s: State, f: TaskFile, n: nat, missing: set<TaskId>,
                      loaded: seq<Task>, unwritable: set<ChatId>)
    requires Inv(parses, s, missing) && n < |HandlerStates(parses, s, f)|
    requires Complete(loaded, HandlerStates(parses, s, f)[n].rows)
    ensures
      var at := HandlerStates(parses, s, f)[n];
      var up := Restart(parses, at, loaded, unwritable);
      && Inv(parses, up, {}) && Agrees(up.rows, up.sched)
      && forall id :: id in up.rows && !up.rows[id].paused && up.rows[id].chat !in unwritable ==>
           Current(up, up.rows[id].chat)
  {
    HandleInv(parses, s, f, missing);
    var at := HandlerStates(parses, s, f)[n];
    RestartInv(parses, at, loaded, unwritable);
    CompleteMisses(at.rows, loaded);
    forall id | id in at.rows && !at.rows[id].paused && at.rows[id].chat !in unwritable
      ensures Current(Restart(parses, at, loaded, unwritable), at.rows[id].chat)
    {
      RestartSnapshotsExactly(parses, at, loaded, unwritable, at.rows[id].chat);
    }
  }
}
