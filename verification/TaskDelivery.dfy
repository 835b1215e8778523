/** Task files from the router to the registry: the switch on the action in the task handler of cmd/pitu/main.go. */
module TaskDelivery {
  import opened Prelude
  import I = IpcRouter
  import opened TaskRegistry

  /** What the handler makes of a file's action. */
  function FileOf(tf: I.TaskFile, faults: Faults): TaskFile {
    if tf.action == "create" then Create(Task(tf.id, tf.chat, tf.name, tf.schedule, tf.prompt, false), faults)
    else if tf.action == "pause" then Pause(tf.id, tf.chat, faults)
    else Unknown
  }

  /** The state after a file in the tasks directory of an agent has been routed, when Route succeeds. */
  function AfterFile(codec: I.Codec, data: I.Data, meta: I.Meta, parses: string -> bool, s: State, faults: Faults)
    : Option<State>
  {
    match I.Routed(codec, "tasks", Some(data), meta, true)
    case Ok(OnTask(tf)) => Some(Handle(parses, s, FileOf(tf, faults)))
    case _ => None
  }

  /**
   A file in a tasks directory, from its bytes to the registry: what it creates is a task of the directory's
   chat, whatever the file says; a pause only pauses; any other action does nothing; no other row changes, and
   no row changes hands.
   */
  lemma FilesActForTheirDirectory(codec: I.Codec, data: I.Data, meta: I.Meta, parses: string -> bool, s: State,
                                  faults: Faults)
    requires Bijective(s.sched) && |data| <= I.MAX_FILE_SIZE && codec.task(data).Some?
    ensures AfterFile(codec, data, meta, parses, s, faults).Some?
    ensures
      var f, s' := codec.task(data).value, AfterFile(codec, data, meta, parses, s, faults).value;
      && (f.action == "create" && f.id !in s.rows && f.id !in s.sched.entryIDs && parses(f.schedule) && !faults.save ==>
            && f.id in s'.rows
            && s'.rows[f.id] == Task(f.id, meta.chat, f.name, f.schedule, f.prompt, false)
            && Jobs(s'.sched) == Jobs(s.sched)[f.id := Job(f.schedule, meta.chat, f.prompt)])
      && (f.action == "pause" && !faults.pause ==>
            s'.rows.Keys == s.rows.Keys && (f.id in s.rows ==> s'.rows[f.id] == s.rows[f.id].(paused := true))
            && Jobs(s'.sched) == Jobs(s.sched) - {f.id})
      && (f.action != "create" && f.action != "pause" ==> s' == s)
      && forall id :: id in s.rows ==>
           id in s'.rows && s'.rows[id].chat == s.rows[id].chat && (id != f.id ==> s'.rows[id] == s.rows[id])
  {
    var f := codec.task(data).value;
    var tf := I.TaskFile(f.action, f.id, f.name, f.schedule, f.prompt, meta.chat);
    I.RoutedExactly(codec, "tasks", Some(data), meta, true, I.OnTask(tf));
    if f.action == "create" {
      CreateExactly(parses, s, Task(f.id, meta.chat, f.name, f.schedule, f.prompt, false), faults);
    } else if f.action == "pause" {
      PauseExactly(parses, s, f.id, meta.chat, faults);
    }
  }
}
