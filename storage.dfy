/**
 * The persistence mapping (src/infrastructure/storage.rs): each task becomes
 * a string-typed record, the list of records travels in a versioned
 * envelope, and loading maps the records back to tasks.
 *
 * The JSON file itself is abstracted to what the loader can find there
 * (`File`), and the ways a save can fail are a parameter (`IoFault`).
 */
module Storage {
  import opened Wrappers
  import opened Domain

  /** The schema version every saved envelope carries. */
  const SchemaVersion: nat := 1

  /** The persisted form of one task: state and priority as strings. */
  datatype TaskData = TaskData(
    id: nat,
    content: string,
    notes: Option<string>,
    state: string,
    priority: string,
    dueDate: Option<Date>)

  /** The whole persisted document. */
  datatype StorageData = StorageData(version: nat, tasks: seq<TaskData>)

  /** What the loader finds at the storage path. */
  datatype File =
    | Absent                     // first run: nothing saved yet
    | Unreadable                 // the file exists but cannot be read
    | Malformed                  // the text is not a valid envelope
    | Stored(data: StorageData)  // the text parses to this envelope

  /** How a save attempt goes. */
  datatype IoFault = NoFault | DirectoryFault | SerializeFault | WriteFault

  /** The descriptive errors `load` and `save` report to their caller. */
  datatype StorageError =
    | CreateDirectoryFailed
    | ReadFailed
    | ParseFailed
    | SerializeFailed
    | WriteFailed

  /** The state that survives a save: the transient Completing is not durable. */
  function Durable(s: TaskState): TaskState {
    if s == Completing then Pending else s
  }

  /** The state strings `load` recognises; `save` writes no others. */
  predicate IsStateText(r: string) {
    r == "pending" || r == "done"
  }

  /** The priority strings `load` recognises; `save` writes no others. */
  predicate IsPriorityText(r: string) {
    r == "low" || r == "medium" || r == "high"
  }

  function EncodeState(s: TaskState): (r: string)
    ensures IsStateText(r)
    ensures r == "done" <==> s == Done
    ensures DecodeState(r) == Durable(s)
  {
    match s
    case Pending => "pending"
    case Completing => "pending"
    case Done => "done"
  }

  /** Lenient: every string other than "done" reads as Pending; nothing fails. */
  function DecodeState(r: string): (s: TaskState)
    ensures s == Done <==> r == "done"
    ensures s != Completing
  {
    if r == "done" then Done else Pending
  }

  function EncodePriority(p: TaskPriority): (r: string)
    ensures IsPriorityText(r)
    ensures DecodePriority(r) == p
  {
    match p
    case Low => "low"
    case Medium => "medium"
    case High => "high"
  }

  /** Lenient: every string other than "high" and "medium" reads as Low. */
  function DecodePriority(r: string): (p: TaskPriority)
    ensures p == High <==> r == "high"
    ensures p == Medium <==> r == "medium"
    ensures p == Low <==> r != "high" && r != "medium"
  {
    if r == "high" then High
    else if r == "medium" then Medium
    else Low
  }

  /** A record in the exact form `save` writes. */
  predicate Canonical(d: TaskData) {
    IsStateText(d.state) && IsPriorityText(d.priority)
  }

  /** `From<&Task> for TaskData`. */
  function FromTask(t: Task): (d: TaskData)
    ensures Canonical(d)
    ensures d.id == t.id && d.content == t.content && d.notes == t.notes && d.dueDate == t.dueDate
  {
    TaskData(t.id, t.content, t.notes, EncodeState(t.state), EncodePriority(t.priority), t.dueDate)
  }

  /**
   * `TaskData::into_task`: both stamps are the load time; "done" is the only text
   * read as Done (anything else is Pending), and "high" and "medium" the only
   * texts read as those priorities (anything else is Low).
   */
  function IntoTask(d: TaskData, now: Time): (t: Task)
    ensures t.id == d.id && t.content == d.content && t.notes == d.notes && t.dueDate == d.dueDate
    ensures t.createdAt == t.updatedAt == now
    ensures t.state == Done <==> d.state == "done"
    ensures t.state != Done ==> t.state == Pending
    ensures t.priority == High <==> d.priority == "high"
    ensures t.priority == Medium <==> d.priority == "medium"
  {
    Task(d.id, d.content, d.notes, DecodeState(d.state), DecodePriority(d.priority), d.dueDate, now, now)
  }

  /** A task as it reads back after a save: Completing collapsed, both stamps the load time. */
  function Reloaded(t: Task, now: Time): Task {
    t.(state := Durable(t.state), createdAt := now, updatedAt := now)
  }

  /** Loading a saved task keeps everything but the stamps, and collapses Completing to Pending. */
  lemma TaskRoundTrip(t: Task, now: Time)
    ensures IntoTask(FromTask(t), now) == Reloaded(t, now)
    ensures t.state != Completing ==> IntoTask(FromTask(t), now).state == t.state
  {
  }

  /** A record survives a load followed by a save exactly when it is in the form `save` writes. */
  lemma RecordRoundTrip(d: TaskData, now: Time)
    ensures FromTask(IntoTask(d, now)) == d <==> Canonical(d)
  {
  }

  /** `tasks.iter().map(TaskData::from)`: one record per task, in order. */
  function EncodeAll(ts: seq<Task>): (ds: seq<TaskData>)
    ensures |ds| == |ts|
    ensures forall i :: 0 <= i < |ts| ==> ds[i] == FromTask(ts[i])
  {
    if ts == [] then [] else [FromTask(ts[0])] + EncodeAll(ts[1..])
  }

  /** `data.tasks.into_iter().map(into_task)`: one task per record, in order. */
  function DecodeAll(ds: seq<TaskData>, now: Time): (ts: seq<Task>)
    ensures |ts| == |ds|
    ensures forall i :: 0 <= i < |ds| ==> ts[i] == IntoTask(ds[i], now)
  {
    if ds == [] then [] else [IntoTask(ds[0], now)] + DecodeAll(ds[1..], now)
  }

  /** The envelope `save` writes for a list of tasks. */
  function Envelope(ts: seq<Task>): (e: StorageData)
    ensures e.version == SchemaVersion
    ensures |e.tasks| == |ts| && forall i :: 0 <= i < |ts| ==> e.tasks[i] == FromTask(ts[i])
  {
    StorageData(SchemaVersion, EncodeAll(ts))
  }

  /** `StorageData::new`: the envelope that saving an empty list writes. */
  function EmptyEnvelope(): (e: StorageData)
    ensures e == Envelope([])
  {
    StorageData(SchemaVersion, [])
  }

  /** What `load` returns for each file the loader can find. */
  function Loaded(file: File, now: Time): Result<seq<Task>, StorageError> {
    match file
    case Absent => Ok([])
    case Unreadable => Err(ReadFailed)
    case Malformed => Err(ParseFailed)
    case Stored(data) => Ok(DecodeAll(data.tasks, now))
  }

  /** The file after a save attempt: replaced by the full snapshot, or untouched on failure. */
  function Saved(file: File, ts: seq<Task>, fault: IoFault): File {
    if fault == NoFault then Stored(Envelope(ts)) else file
  }

  /**
   * Each save writes a full snapshot: a successful save stores the envelope of
   * its own tasks whatever the file held before, and of two saves under the
   * same fault only the second one's effect remains.
   */
  lemma SaveOverwrites(file: File, earlier: seq<Task>, later: seq<Task>, fault: IoFault)
    ensures Saved(Saved(file, earlier, fault), later, NoFault) == Stored(Envelope(later))
    ensures Saved(Saved(file, earlier, fault), later, fault) == Saved(file, later, fault)
  {
  }

  /** A missing file and a freshly made envelope both load as the empty list. */
  lemma EmptyLoads(now: Time)
    ensures Loaded(Absent, now) == Ok([])
    ensures Loaded(Stored(EmptyEnvelope()), now) == Ok([])
  {
  }

  /**
   * Save then load: the same number of tasks in the same order, each keeping
   * its id, content, notes, priority and due date, with Completing collapsed.
   */
  lemma SaveThenLoad(file: File, ts: seq<Task>, now: Time)
    ensures Loaded(Saved(file, ts, NoFault), now).Ok?
    ensures var back := Loaded(Saved(file, ts, NoFault), now).value;
      |back| == |ts| && forall i :: 0 <= i < |ts| ==> back[i] == Reloaded(ts[i], now)
  {
    var back := DecodeAll(EncodeAll(ts), now);
    forall i | 0 <= i < |ts|
      ensures back[i] == Reloaded(ts[i], now)
    {
      TaskRoundTrip(ts[i], now);
    }
  }

  /** Loading a saved list and saving it again writes the same records. */
  lemma {:induction false} ResaveIsStable(ts: seq<Task>, now: Time)
    ensures EncodeAll(DecodeAll(EncodeAll(ts), now)) == EncodeAll(ts)
  {
    var ds := EncodeAll(ts);
    var again := EncodeAll(DecodeAll(ds, now));
    assert |again| == |ds|;
    forall i | 0 <= i < |ds|
      ensures again[i] == ds[i]
    {
      RecordRoundTrip(ds[i], now);
    }
  }

  /** The JSON file at the storage path. */
  class TaskStorage {
    var file: File

    constructor (file: File)
      ensures this.file == file
    {
      this.file := file;
    }

    /**
     * `load`: an absent file is the empty list (first run), a read or parse
     * failure is an error, otherwise one task per stored record, in order.
     */
    method Load(now: Time) returns (r: Result<seq<Task>, StorageError>)
      ensures r == Loaded(file, now)
    {
      if file == Absent {
        return Ok([]);
      }
      if file == Unreadable {
        return Err(ReadFailed);
      }
      if file == Malformed {
        return Err(ParseFailed);
      }
      return Ok(DecodeAll(file.data.tasks, now));
    }

    /**
     * `save`: create the directory, build a version-1 envelope holding every
     * task in order, serialize and write it; each step can fail, and a
     * failure leaves the file as it was.
     */
    method Save(ts: seq<Task>, fault: IoFault) returns (r: Result<(), StorageError>)
      modifies this
      ensures file == Saved(old(file), ts, fault)
      ensures r.Ok? <==> fault == NoFault
      ensures fault == DirectoryFault ==> r == Err(CreateDirectoryFailed)
      ensures fault == SerializeFault ==> r == Err(SerializeFailed)
      ensures fault == WriteFault ==> r == Err(WriteFailed)
    {
      if fault == DirectoryFault {
        return Err(CreateDirectoryFailed);
      }
      var data := Envelope(ts);
      if fault == SerializeFault {
        return Err(SerializeFailed);
      }
      if fault == WriteFault {
        return Err(WriteFailed);
      }
      file := Stored(data);
      return Ok(());
    }
  }
}
