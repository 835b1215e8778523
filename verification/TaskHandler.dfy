/**
 The code of the task registry: the store, the scheduler, the snapshot writer, the task handler and
 the startup loops, as methods over the fields they change.
 */
module TaskHandler {
  import opened TaskRegistry
  import opened Prelude

  /** What goes wrong with a query: everything at once, or after some rows. */
  datatype QueryFault = Works | Fails | BreaksOff(rows: nat)

  class Harness {
    const parses: string -> bool
    var rows: Rows
    var entryIDs: map<TaskId, EntryId>
    var cron: map<EntryId, Job>
    var next: EntryId
    var snaps: map<ChatId, set<Task>>

    ghost function View(): State
      reads this
    {
      State(rows, Sched(entryIDs, cron, next), snaps)
    }

    /** A process that has just opened an existing database. */
    constructor (parses: string -> bool, rows: Rows, snaps: map<ChatId, set<Task>>)
      ensures this.parses == parses && View() == State(rows, NO_ENTRIES, snaps)
    {
      this.parses, this.rows, this.snaps := parses, rows, snaps;
      entryIDs, cron, next := map[], map[], 1;
    }

    /** SaveTask: an existing row keeps its chat and its paused flag, and no other row changes. */
    method SaveTask(t: Task, fails: bool) returns (ok: bool)
      modifies this`rows
      ensures ok == !fails && (fails ==> rows == old(rows))
      ensures ok ==> rows.Keys == old(rows).Keys + {t.id}
      ensures forall id :: id in old(rows) && id != t.id ==> rows[id] == old(rows)[id]
      ensures ok ==> rows[t.id].name == t.name && rows[t.id].schedule == t.schedule && rows[t.id].prompt == t.prompt
      ensures var was := if t.id in old(rows) then old(rows)[t.id] else t;
        ok ==> rows[t.id].id == was.id && rows[t.id].chat == was.chat && rows[t.id].paused == was.paused
    {
      if fails { return false; }
      if t.id in rows {
        rows := rows[t.id := rows[t.id].(name := t.name, schedule := t.schedule, prompt := t.prompt)];
      } else {
        rows := rows[t.id := t];
      }
      return true;
    }

    method PauseTask(id: TaskId, fails: bool) returns (ok: bool)
      modifies this`rows
      ensures ok == !fails && rows == if ok then SetPaused(old(rows), id) else old(rows)
    {
      if fails { return false; }
      if id in rows {
        rows := rows[id := rows[id].(paused := true)];
      }
      return true;
    }

    /**
     queryTasks: the rows that satisfy the WHERE clause, each once, in the order the database yields them.
     A failing query or scan returns none, and iteration that breaks off returns the rows so far.
     */
    method QueryTasks(where: Task -> bool, fault: QueryFault) returns (tasks: seq<Task>, ok: bool)
      requires forall id :: id in rows ==> rows[id].id == id
      ensures ok == fault.Works?
      ensures forall t :: t in tasks ==> t.id in rows && rows[t.id] == t && where(t)
      ensures fault.Works? ==> forall t: Task :: t.id in rows && rows[t.id] == t && where(t) ==> t in tasks
      ensures fault.Fails? ==> tasks == []
      ensures forall i, j :: 0 <= i < j < |tasks| ==> tasks[i].id != tasks[j].id
    {
      tasks, ok := [], fault.Works?;
      if fault.Fails? { return; }
      var todo := rows.Keys;
      while todo != {}
        invariant todo <= rows.Keys
        invariant forall t :: t in tasks <==> t.id in rows && t.id !in todo && rows[t.id] == t && where(t)
        invariant forall i, j :: 0 <= i < j < |tasks| ==> tasks[i].id != tasks[j].id
        decreases todo
      {
        if fault.BreaksOff? && |tasks| == fault.rows { return; }
        var id :| id in todo;
        if where(rows[id]) {
          assert forall t :: t in tasks ==> t.id != id;
          tasks := tasks + [rows[id]];
        }
        todo := todo - {id};
      }
    }

    method Add(t: Task) returns (ok: bool)
      modifies this`entryIDs, this`cron, this`next
      ensures match AddEntry(parses, old(View()).sched, t)
              case None => !ok && View() == old(View())
              case Some(s) => ok && View() == old(View()).(sched := s)
    {
      if t.paused { return true; }
      if t.id in entryIDs { return true; }
      if !parses(t.schedule) { return false; }
      cron := cron[next := JobOf(t)];
      entryIDs := entryIDs[t.id := next];
      next := next + 1;
      return true;
    }

    method PauseEntry(id: TaskId)
      modifies this`entryIDs, this`cron
      ensures View() == old(View()).(sched := RemoveEntry(old(View()).sched, id))
    {
      if id in entryIDs {
        var e := entryIDs[id];
        entryIDs := entryIDs - {id};
        cron := cron - {e};
      }
    }

    /** writeTasksSnapshot: query the chat, then replace its file; when either fails the old file stays. */
    method WriteTasksSnapshot(chat: ChatId, fails: bool)
      requires forall id :: id in rows ==> rows[id].id == id
      modifies this`snaps
      ensures View() == WriteSnapshot(old(View()), chat, fails)
    {
      var tasks, ok := QueryTasks((t: Task) => t.chat == chat, Works);
      var content := set t | t in tasks;
      assert content == ByChat(rows, chat) by {
        forall t | t in ByChat(rows, chat) ensures t in content {
          var id :| id in rows && rows[id].chat == chat && rows[id] == t;
          assert t.id == id;
        }
      }
      if !fails {
        snaps := snaps[chat := content];
      }
    }

    /** The task handler of main.go; `seen` are the states it goes through, which a crash can leave behind. */
    method OnTask(f: TaskFile) returns (ghost seen: seq<State>)
      requires forall id :: id in rows ==> rows[id].id == id
      modifies this
      ensures seen == HandlerStates(parses, old(View()), f)
      ensures View() == Handle(parses, old(View()), f)
      ensures forall id :: id in rows ==> rows[id].id == id
    {
      seen := [View()];
      match f
      case Create(task, faults) =>
        var t := NewTask(task);
        if !parses(t.schedule) { return; }
        var saved := SaveTask(t, faults.save);
        if !saved { return; }
        assert rows == Upsert(old(rows), t);
        seen := seen + [View()];
        var added := Add(t);
        if added {
          seen := seen + [View()];
          WriteTasksSnapshot(t.chat, faults.snapshot);
          seen := seen + [View()];
        } else {
          assert false;  // the compensating delete is dead code: Validate asked the same parser
        }
      case Pause(id, chat, faults) =>
        var paused := PauseTask(id, faults.pause);
        if !paused { return; }
        seen := seen + [View()];
        PauseEntry(id);
        seen := seen + [View()];
        WriteTasksSnapshot(chat, faults.snapshot);
        seen := seen + [View()];
      case Unknown =>
    }

    method GetAllActiveTasks(fault: QueryFault) returns (loaded: seq<Task>)
      requires forall id :: id in rows ==> rows[id].id == id
      ensures Loads(loaded, rows) && (fault.Works? ==> Complete(loaded, rows))
    {
      var ok;
      loaded, ok := QueryTasks((t: Task) => !t.paused, fault);
      forall t | t in loaded ensures t in Active(rows) {
        assert rows[t.id] == t;
      }
      forall t | t in Active(rows) && fault.Works? ensures t in loaded {
        var id :| id in rows && !rows[id].paused && rows[id] == t;
      }
    }

    /** Startup's first loop: every loaded row into the scheduler. */
    method AddLoaded(loaded: seq<Task>)
      requires View().sched == NO_ENTRIES
      modifies this`entryIDs, this`cron, this`next
      ensures View().sched == AddAll(parses, loaded)
    {
      var i := 0;
      while i < |loaded|
        invariant 0 <= i <= |loaded|
        invariant View().sched == AddAll(parses, loaded[..i])
      {
        assert loaded[..i + 1][..i] == loaded[..i];
        var _ := Add(loaded[i]);
        i := i + 1;
      }
      assert loaded[..i] == loaded;
    }

    /** Startup's second loop: a snapshot for every chat of a loaded row. */
    method WriteStartupSnapshots(loaded: seq<Task>, unwritable: set<ChatId>)
      requires forall id :: id in rows ==> rows[id].id == id
      modifies this`snaps
      ensures snaps.Keys == old(snaps).Keys + (Chats(loaded) - unwritable)
      ensures forall c :: c in snaps ==>
        snaps[c] == if c in Chats(loaded) - unwritable then ByChat(rows, c) else old(snaps)[c]
    {
      var todo := set t | t in loaded :: t.chat;
      ghost var all := todo;
      while todo != {}
        invariant todo <= all
        invariant snaps.Keys == old(snaps).Keys + (all - unwritable - todo)
        invariant forall c :: c in snaps ==>
          snaps[c] == if c in all - unwritable - todo then ByChat(rows, c) else old(snaps)[c]
        decreases todo
      {
        var c :| c in todo;
        ghost var s := View();
        WriteTasksSnapshot(c, c in unwritable);
        assert snaps == WriteSnapshot(s, c, c in unwritable).snaps;
        todo := todo - {c};
      }
    }

    /** The startup of main.go, in a process that holds no entries yet; it ignores an error of its query. */
    method Startup(unwritable: set<ChatId>, fault: QueryFault) returns (loaded: seq<Task>)
      requires RowsValid(parses, rows) && View().sched == NO_ENTRIES
      modifies this
      ensures Loads(loaded, rows) && (fault.Works? ==> Complete(loaded, rows))
      ensures View() == Restart(parses, old(View()), loaded, unwritable)
    {
      loaded := GetAllActiveTasks(fault);
      AddLoaded(loaded);
      WriteStartupSnapshots(loaded, unwritable);
      assert snaps == Restart(parses, old(View()), loaded, unwritable).snaps;
    }
  }
}
