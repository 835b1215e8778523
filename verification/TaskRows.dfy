/** What rows and scheduler hold over whole runs, in terms of the task files alone. */
module TaskRows {
  import opened Prelude
  import opened TaskRegistry
  import opened TaskRuns

  /** The event handled a create file for the ID at least as far as saving it. */
  predicate Saves(parses: string -> bool, e: Event, id: TaskId) {
    && e.file.Create? && e.file.task.id == id && parses(e.file.task.schedule) && !e.file.faults.save
    && (e.Restarted? ==> e.effects > 0)
  }

  /** The event handled a pause file for the ID at least as far as the row. */
  predicate Pauses(e: Event, id: TaskId) {
    e.file.Pause? && e.file.id == id && !e.file.faults.pause && (e.Restarted? ==> e.effects > 0)
  }

  ghost predicate Saved(parses: string -> bool, evs: seq<Event>, id: TaskId) {
    exists n :: 0 <= n < |evs| && Saves(parses, evs[n], id)
  }

  ghost predicate FirstSave(parses: string -> bool, evs: seq<Event>, id: TaskId, n: nat) {
    n < |evs| && Saves(parses, evs[n], id) && forall m :: 0 <= m < n ==> !Saves(parses, evs[m], id)
  }

  ghost predicate LastSave(parses: string -> bool, evs: seq<Event>, id: TaskId, n: nat) {
    n < |evs| && Saves(parses, evs[n], id) && forall m :: n < m < |evs| ==> !Saves(parses, evs[m], id)
  }

  ghost predicate PausedSince(evs: seq<Event>, id: TaskId, n: nat) {
    exists m :: n < m < |evs| && Pauses(evs[m], id)
  }

  /** The row, paused if the event pauses it. */
  function After(was: Task, pauses: bool): Task {
    Task(was.id, was.chat, was.name, was.schedule, was.prompt, was.paused || pauses)
  }

  /** The row of an ID before and after one event. */
  ghost predicate RowMoves(parses: string -> bool, e: Event, rows: Rows, rows': Rows, id: TaskId) {
    if Saves(parses, e, id) then
      && id in rows' && rows'[id].id == id
      && rows'[id].name == e.file.task.name && rows'[id].schedule == e.file.task.schedule
      && rows'[id].prompt == e.file.task.prompt
      && rows'[id].chat == (if id in rows then rows[id].chat else e.file.task.chat)
      && rows'[id].paused == (id in rows && rows[id].paused)
    else
      (id in rows' <==> id in rows) && (id in rows ==> rows'[id] == After(rows[id], Pauses(e, id)))
  }

  /** An effect of the handler, as far as the row of an ID goes. */
  lemma HandledRow(parses: string -> bool, s: State, f: TaskFile, k: nat, e: Event, id: TaskId)
    requires RowsValid(parses, s.rows) && k < |HandlerStates(parses, s, f)| && e.file == f
    requires if e.Restarted? then k == e.effects else k == |HandlerStates(parses, s, f)| - 1
    ensures RowMoves(parses, e, s.rows, HandlerStates(parses, s, f)[k].rows, id)
  {
    match f
    case Create(task, faults) => CreateRows(parses, s, task, faults, k);
    case Pause(_, _, _) => PauseRows(parses, s, f, k);
    case Unknown =>
  }

  lemma CreateRows(parses: string -> bool, s: State, task: Task, faults: Faults, k: nat)
    requires k < |HandlerStates(parses, s, Create(task, faults))|
    ensures parses(task.schedule) && !faults.save <==> |HandlerStates(parses, s, Create(task, faults))| > 1
    ensures HandlerStates(parses, s, Create(task, faults))[k].rows == if k == 0 then s.rows else
      s.rows[task.id := Task(
        if task.id in s.rows then s.rows[task.id].id else task.id,
        if task.id in s.rows then s.rows[task.id].chat else task.chat,
        task.name, task.schedule, task.prompt, task.id in s.rows && s.rows[task.id].paused)]
  {
    if parses(task.schedule) && !faults.save {
      CompensationUnreachable(parses, s, task, faults);
    }
  }

  lemma PauseRows(parses: string -> bool, s: State, f: TaskFile, k: nat)
    requires f.Pause? && k < |HandlerStates(parses, s, f)|
    ensures !f.faults.pause <==> |HandlerStates(parses, s, f)| > 1
    ensures HandlerStates(parses, s, f)[k].rows ==
      if k == 0 || f.id !in s.rows then s.rows else s.rows[f.id := After(s.rows[f.id], true)]
  {
  }

  lemma RowStep(parses: string -> bool, s: State, e: Event, id: TaskId)
    requires RowsValid(parses, s.rows) && Step(parses, s, e).Some?
    ensures RowMoves(parses, e, s.rows, Step(parses, s, e).value.rows, id)
  {
    HandledRow(parses, s, e.file, if e.Restarted? then e.effects else |HandlerStates(parses, s, e.file)| - 1, e, id);
  }

  /** Who a row belongs to and whether it is paused goes back to the first save of its ID. */
  ghost predicate KeepsFirst(parses: string -> bool, evs: seq<Event>, rows: Rows, id: TaskId) {
    forall n: nat :: FirstSave(parses, evs, id, n) ==>
      id in rows && rows[id].chat == evs[n].file.task.chat && (rows[id].paused <==> PausedSince(evs, id, n))
  }

  /** What is to be run and when comes from the last save. */
  ghost predicate TakesLast(parses: string -> bool, evs: seq<Event>, rows: Rows, id: TaskId) {
    forall n: nat :: LastSave(parses, evs, id, n) ==>
      && id in rows && rows[id].id == id && rows[id].name == evs[n].file.task.name
      && rows[id].schedule == evs[n].file.task.schedule && rows[id].prompt == evs[n].file.task.prompt
  }

  lemma SavedStep(parses: string -> bool, evs: seq<Event>, e: Event, id: TaskId)
    ensures Saved(parses, evs + [e], id) <==> Saved(parses, evs, id) || Saves(parses, e, id)
  {
    var all := evs + [e];
    if n :| 0 <= n < |evs| && Saves(parses, evs[n], id) { assert all[n] == evs[n]; }
    if Saves(parses, e, id) { assert all[|evs|] == e; }
  }

  lemma FirstStep(parses: string -> bool, evs: seq<Event>, e: Event, rows: Rows, rows': Rows, id: TaskId, n: nat)
    requires id in rows <==> Saved(parses, evs, id)
    requires KeepsFirst(parses, evs, rows, id) && FirstSave(parses, evs + [e], id, n) && id in rows'
    requires rows'[id].chat == if id in rows then rows[id].chat else e.file.task.chat
    requires rows'[id].paused == (id in rows && (rows[id].paused || Pauses(e, id)))
    ensures rows'[id].chat == (evs + [e])[n].file.task.chat && (rows'[id].paused <==> PausedSince(evs + [e], id, n))
  {
    var all := evs + [e];
    assert forall m :: 0 <= m < |evs| ==> all[m] == evs[m];
    if n < |evs| {
      assert FirstSave(parses, evs, id, n) && id in rows;
      if m :| n < m < |evs| && Pauses(evs[m], id) { assert Pauses(all[m], id); }
      if Pauses(e, id) { assert Pauses(all[|evs|], id); }
    } else {
      assert id !in rows;
    }
  }

  lemma LastStep(parses: string -> bool, evs: seq<Event>, e: Event, id: TaskId, n: nat)
    requires LastSave(parses, evs + [e], id, n)
    ensures if Saves(parses, e, id) then n == |evs| else LastSave(parses, evs, id, n) && (evs + [e])[n] == evs[n]
  {
    var all := evs + [e];
    assert all[|evs|] == e;
    assert forall m :: 0 <= m < |evs| ==> all[m] == evs[m];
  }

  lemma RowsStep(parses: string -> bool, evs: seq<Event>, e: Event, s: State, s': State, id: TaskId)
    requires RowsValid(parses, s.rows) && Step(parses, s, e) == Some(s')
    requires id in s.rows <==> Saved(parses, evs, id)
    requires KeepsFirst(parses, evs, s.rows, id) && TakesLast(parses, evs, s.rows, id)
    ensures id in s'.rows <==> Saved(parses, evs + [e], id)
    ensures KeepsFirst(parses, evs + [e], s'.rows, id) && TakesLast(parses, evs + [e], s'.rows, id)
  {
    RowStep(parses, s, e, id);
    SavedStep(parses, evs, e, id);
    forall n: nat | FirstSave(parses, evs + [e], id, n)
      ensures id in s'.rows && s'.rows[id].chat == (evs + [e])[n].file.task.chat
      ensures s'.rows[id].paused <==> PausedSince(evs + [e], id, n)
    {
      FirstStep(parses, evs, e, s.rows, s'.rows, id, n);
    }
    forall n: nat | LastSave(parses, evs + [e], id, n)
      ensures id in s'.rows && s'.rows[id].id == id
      ensures var t := (evs + [e])[n].file.task;
        s'.rows[id].name == t.name && s'.rows[id].schedule == t.schedule && s'.rows[id].prompt == t.prompt
    {
      LastStep(parses, evs, e, id, n);
    }
  }

  /**
   Over every run, with any IDs, failures, crashes and restarts: the rows are those of the saved create files;
   a row has the chat of the first of them and name, schedule and prompt of the last, and it is paused exactly
   when a pause has come since the first.
   */
  lemma {:induction false} RowsFollowFiles(parses: string -> bool, evs: seq<Event>, id: TaskId)
    requires Exec(parses, evs).Some?
    ensures var rows := Exec(parses, evs).value.rows;
      && (id in rows <==> Saved(parses, evs, id))
      && KeepsFirst(parses, evs, rows, id) && TakesLast(parses, evs, rows, id)
  {
    if evs == [] {
      forall n: nat ensures !FirstSave(parses, evs, id, n) && !LastSave(parses, evs, id, n) {}
    } else {
      var n := |evs| - 1;
      RowsFollowFiles(parses, evs[..n], id);
      RegistryInvariant(parses, evs[..n]);
      RowsStep(parses, evs[..n], evs[n], Exec(parses, evs[..n]).value, Exec(parses, evs).value, id);
      assert evs[..n] + [evs[n]] == evs;
    }
  }

  lemma {:induction false} CreatedBefore(evs: seq<Event>, m: nat)
    requires m < |evs| && evs[m].file.Create?
    ensures evs[m].file.task.id in Created(evs)
  {
    if m < |evs| - 1 {
      CreatedBefore(evs[..|evs| - 1], m);
    }
  }

  /** With fresh IDs a file that was saved is the only one of its ID. */
  lemma OnlySave(parses: string -> bool, evs: seq<Event>, id: TaskId, n: nat)
    requires FreshIds(evs) && n < |evs| && Saves(parses, evs[n], id)
    ensures FirstSave(parses, evs, id, n) && LastSave(parses, evs, id, n)
  {
    forall m | 0 <= m < |evs| && m != n ensures !Saves(parses, evs[m], id) {
      if Saves(parses, evs[m], id) {
        var a, b := if m < n then m else n, if m < n then n else m;
        CreatedBefore(evs[..b], a);
      }
    }
  }

  /**
   Over every run that creates no ID twice, a saved create file is what the database holds and what the
   scheduler runs: its row is the file, paused exactly when a pause came later; and unless it is paused or
   missing, its prompt runs for its chat on its schedule.
   */
  lemma FilesAreRun(parses: string -> bool, evs: seq<Event>, n: nat)
    requires Exec(parses, evs).Some? && FreshIds(evs)
    requires n < |evs| && evs[n].file.Create? && Saves(parses, evs[n], evs[n].file.task.id)
    ensures var s, t := Exec(parses, evs).value, evs[n].file.task;
      var paused := PausedSince(evs, t.id, n);
      && t.id in s.rows && s.rows[t.id] == Task(t.id, t.chat, t.name, t.schedule, t.prompt, paused)
      && (t.id in Jobs(s.sched) <==> !paused && t.id !in Missing(parses, evs))
      && (t.id in Jobs(s.sched) ==> Jobs(s.sched)[t.id] == Job(t.schedule, t.chat, t.prompt))
  {
    var t := evs[n].file.task;
    OnlySave(parses, evs, t.id, n);
    RowsFollowFiles(parses, evs, t.id);
    RegistryAgreesBut(parses, evs);
  }
}
