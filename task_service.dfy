/**
 * The task service (src/application/task_service.rs): an ordered list of
 * tasks that is changed in place, saved to storage after every completed
 * mutation, and queried for the counts that drive the "clear sky" view.
 */
module Service {
  import opened Wrappers
  import opened Domain
  import opened Storage

  /** The sample tasks a first run starts with, in order. */
  const DemoContents: seq<string> := [
    "Learn GPUI fundamentals",
    "Build Waloyo task manager",
    "Implement rain drop animation",
    "Add wind swaying effect",
    "Create clear sky celebration"
  ]

  /** The sample tasks as `add_task` creates them, numbered from `first`. */
  function Seeded(first: TaskId, now: Time): seq<Task> {
    [Created(first, DemoContents[0], now),
     Created(first + 1, DemoContents[1], now),
     Created(first + 2, DemoContents[2], now),
     Created(first + 3, DemoContents[3], now),
     Created(first + 4, DemoContents[4], now)]
  }

  /** `storage.load().unwrap_or_default()`: a failed load reads as no tasks. */
  function LoadedOrEmpty(file: File, now: Time): seq<Task> {
    match Loaded(file, now)
    case Ok(ts) => ts
    case Err(_) => []
  }

  /** The position of the first task with this id (`iter().position`, `iter_mut().find`). */
  function IndexOf(ts: seq<Task>, id: TaskId): (r: Option<nat>)
    ensures r.Some? ==> r.value < |ts| && ts[r.value].id == id
    ensures r.Some? ==> forall j :: 0 <= j < r.value ==> ts[j].id != id
    ensures r.None? <==> forall j :: 0 <= j < |ts| ==> ts[j].id != id
  {
    if ts == [] then None
    else if ts[0].id == id then Some(0)
    else match IndexOf(ts[1..], id)
      case None => None
      case Some(k) => Some(k + 1)
  }

  /** `iter().filter(|t| t.state == s)`: the tasks in state `s`, in list order. */
  function WithState(ts: seq<Task>, s: TaskState): (r: seq<Task>)
    ensures |r| <= |ts|
    ensures forall v :: v in r <==> v in ts && v.state == s
  {
    if ts == [] then []
    else if ts[0].state == s then [ts[0]] + WithState(ts[1..], s)
    else WithState(ts[1..], s)
  }

  /** The largest id in a non-empty list. */
  function MaxId(ts: seq<Task>): (m: TaskId)
    requires ts != []
    ensures forall i :: 0 <= i < |ts| ==> ts[i].id <= m
    ensures exists i :: 0 <= i < |ts| && ts[i].id == m
  {
    if |ts| == 1 then ts[0].id
    else
      var rest := MaxId(ts[1..]);
      assert forall i :: 1 <= i < |ts| ==> ts[i] == ts[1..][i - 1];
      if ts[0].id < rest then rest else ts[0].id
  }

  /** The filter keeps relative order: filtering a concatenation concatenates the filtered parts. */
  lemma {:induction false} WithStateAppend(a: seq<Task>, b: seq<Task>, s: TaskState)
    ensures WithState(a + b, s) == WithState(a, s) + WithState(b, s)
    decreases |a|
  {
    if a == [] {
      assert a + b == b;
    } else {
      assert (a + b)[1..] == a[1..] + b;
      WithStateAppend(a[1..], b, s);
    }
  }

  /** Every task is in exactly one state, so the three filters partition the list. */
  lemma {:induction false} StatesPartition(ts: seq<Task>)
    ensures |WithState(ts, Pending)| + |WithState(ts, Completing)| + |WithState(ts, Done)| == |ts|
    decreases |ts|
  {
    if ts != [] {
      StatesPartition(ts[1..]);
    }
  }

  /** The filter keeps every task exactly when every task is in that state. */
  lemma {:induction false} FilterKeepsAll(ts: seq<Task>, s: TaskState)
    ensures |WithState(ts, s)| == |ts| <==> forall i :: 0 <= i < |ts| ==> ts[i].state == s
    decreases |ts|
  {
    if ts != [] {
      FilterKeepsAll(ts[1..], s);
      assert forall i :: 1 <= i < |ts| ==> ts[i] == ts[1..][i - 1];
      if ts[0].state != s {
        assert |WithState(ts, s)| <= |ts[1..]|;
      }
    }
  }

  /** Pending plus done is at most the length; equal exactly when no task is mid-completion. */
  lemma CountsBounded(ts: seq<Task>)
    ensures |WithState(ts, Pending)| + |WithState(ts, Done)| <= |ts|
    ensures |WithState(ts, Pending)| + |WithState(ts, Done)| == |ts| <==> WithState(ts, Completing) == []
  {
    StatesPartition(ts);
  }

  /** Replacing the task at `k` moves it from the count of its old state to that of its new one. */
  lemma ReplaceCounts(ts: seq<Task>, k: nat, w: Task, s: TaskState)
    requires k < |ts|
    ensures |WithState(ts[k := w], s)|
            == |WithState(ts, s)| - (if ts[k].state == s then 1 else 0) + (if w.state == s then 1 else 0)
  {
    var before, after := ts[..k], ts[k + 1..];
    assert ts == before + [ts[k]] + after;
    assert ts[k := w] == before + [w] + after;
    WithStateAppend(before + [ts[k]], after, s);
    WithStateAppend(before, [ts[k]], s);
    WithStateAppend(before + [w], after, s);
    WithStateAppend(before, [w], s);
  }

  /** Removing the task at `k` takes it out of the count of its state and no other. */
  lemma RemoveCounts(ts: seq<Task>, k: nat, s: TaskState)
    requires k < |ts|
    ensures |WithState(ts[..k] + ts[k + 1..], s)| == |WithState(ts, s)| - (if ts[k].state == s then 1 else 0)
  {
    var before, after := ts[..k], ts[k + 1..];
    assert ts == before + [ts[k]] + after;
    WithStateAppend(before + [ts[k]], after, s);
    WithStateAppend(before, [ts[k]], s);
    WithStateAppend(before, after, s);
  }

  /**
   * A task whose id is larger than every id in the list is found at the end
   * once appended: `begin_completing` and `finish_completing` on the id
   * `add_task` returned reach the task it just added.
   */
  lemma {:induction false} FreshIdFindsNewTask(ts: seq<Task>, t: Task)
    requires forall i :: 0 <= i < |ts| ==> ts[i].id < t.id
    ensures IndexOf(ts + [t], t.id) == Some(|ts|)
    decreases |ts|
  {
    if ts != [] {
      assert (ts + [t])[1..] == ts[1..] + [t];
      FreshIdFindsNewTask(ts[1..], t);
    }
  }

  /**
   * As written, startup loads the saved tasks with their saved ids but the
   * id counter starts again at `FirstId`; this is the list after the first
   * `add_task` of such a session.
   */
  function FirstAddAfterLoadAsWritten(loaded: seq<Task>, content: string, now: Time): (r: seq<Task>)
    ensures |r| == |loaded| + 1 && r[..|loaded|] == loaded
    ensures r[|loaded|].id == FirstId && r[|loaded|].content == content && r[|loaded|].state == Pending
  {
    loaded + [Created(FirstId, content, now)]
  }

  /**
   * The id collision that follows: after a restart over a file holding the
   * first sample task, the new task gets the same id, and looking that id up
   * finds the old task, so completing the new task completes the old one.
   */
  lemma AsWrittenIdCollides()
    ensures var saved := Seeded(FirstId, 0);
      var loaded := LoadedOrEmpty(Saved(Absent, saved, NoFault), 7);
      var after := FirstAddAfterLoadAsWritten(loaded, "Buy milk", 7);
      |after| == 6 && after[5].id == after[0].id && after[5].content == "Buy milk"
      && IndexOf(after, after[5].id) == Some(0)
  {
    var saved := Seeded(FirstId, 0);
    SaveThenLoad(Absent, saved, 7);
  }

  /** Completing the one task that was not yet Done leaves every task Done. */
  lemma LastCompletionClearsSky(ts: seq<Task>, k: nat, now: Time)
    requires k < |ts|
    requires forall i :: 0 <= i < |ts| && i != k ==> ts[i].state == Done
    ensures |WithState(ts[k := Complete(ts[k], now)], Done)| == |ts|
  {
    FilterKeepsAll(ts[k := Complete(ts[k], now)], Done);
  }

  /** The counter after a load: past the largest loaded id, and never moved back. */
  function NextAfterLoad(loaded: seq<Task>, next: TaskId): TaskId {
    if loaded == [] || MaxId(loaded) < next then next else MaxId(loaded) + 1
  }

  /** The ids five consecutive `TaskId::new` calls hand out, starting at `first`. */
  function FiveIds(first: TaskId): set<TaskId> {
    {first, first + 1, first + 2, first + 3, first + 4}
  }

  /**
   * A first run: a new process over no saved file, whose first `add_task`
   * receives id 1, the value the counter starts at.
   */
  method FirstRunFirstId(content: string, now: Time, fault: IoFault) returns (id: TaskId)
    ensures id == FirstId
  {
    var ids := new IdGenerator();
    var storage := new TaskStorage(Absent);
    var service := new TaskService.New(ids, storage, now);
    id := service.AddTask(content, now, fault);
  }

  class TaskService {
    var tasks: seq<Task>
    const ids: IdGenerator
    const storage: TaskStorage

    /** The id counter is ahead of every id in the list. */
    ghost predicate Valid()
      reads this, ids
    {
      ids.Valid() && forall i :: 0 <= i < |tasks| ==> tasks[i].id < ids.next
    }

    /** `all_tasks`: the whole list, read-only, in insertion order. */
    function AllTasks(): seq<Task>
      reads this
    {
      tasks
    }

    /** `pending_tasks`: exactly the Pending tasks, in list order. */
    function PendingTasks(): (r: seq<Task>)
      reads this
      ensures forall t :: t in r <==> t in tasks && t.state == Pending
    {
      WithState(tasks, Pending)
    }

    /** `completed_tasks`: exactly the Done tasks, in list order. */
    function CompletedTasks(): (r: seq<Task>)
      reads this
      ensures forall t :: t in r <==> t in tasks && t.state == Done
    {
      WithState(tasks, Done)
    }

    /** `pending_count`: how many tasks `pending_tasks` yields; Completing tasks are not counted. */
    function PendingCount(): (n: nat)
      reads this
      ensures n == |PendingTasks()|
      ensures n + |WithState(tasks, Completing)| + |CompletedTasks()| == |tasks|
    {
      StatesPartition(tasks);
      |WithState(tasks, Pending)|
    }

    /** `completed_count`: how many tasks `completed_tasks` yields. */
    function CompletedCount(): (n: nat)
      reads this
      ensures n == |CompletedTasks()|
      ensures PendingCount() + n <= |tasks|
    {
      |WithState(tasks, Done)|
    }

    /** `all_overcome`: the list is not empty and every task in it is Done. */
    function AllOvercome(): (b: bool)
      reads this
      ensures b <==> |tasks| > 0 && CompletedCount() == |tasks|
      ensures b ==> PendingCount() == 0 && WithState(tasks, Completing) == []
    {
      FilterKeepsAll(tasks, Done);
      StatesPartition(tasks);
      |tasks| > 0 && forall i :: 0 <= i < |tasks| ==> tasks[i].IsDone()
    }

    /** The search behind `iter().position` and `iter_mut().find`: the first task with this id. */
    method Position(id: TaskId) returns (r: Option<nat>)
      ensures r == IndexOf(tasks, id)
    {
      var i := 0;
      while i < |tasks|
        invariant 0 <= i <= |tasks|
        invariant forall j :: 0 <= j < i ==> tasks[j].id != id
      {
        if tasks[i].id == id {
          return Some(i);
        }
        i := i + 1;
      }
      return None;
    }

    /** The private `save`: a failure is only logged, and the list stays as it is either way. */
    method Persist(fault: IoFault)
      modifies storage
      ensures storage.file == Saved(old(storage.file), tasks, fault)
    {
      var _ := storage.Save(tasks, fault);
    }

    /** Loads the saved tasks, reading a failed load as none, and moves the counter past their ids. */
    static method LoadAndReserve(ids: IdGenerator, storage: TaskStorage, now: Time) returns (loaded: seq<Task>)
      requires ids.Valid()
      modifies ids
      ensures ids.Valid() && ids.issued == old(ids.issued)
      ensures loaded == LoadedOrEmpty(storage.file, now)
      ensures forall i :: 0 <= i < |loaded| ==> loaded[i].id < ids.next
      ensures ids.next == NextAfterLoad(loaded, old(ids.next)) && old(ids.next) <= ids.next
    {
      var r := storage.Load(now);
      loaded := if r.Ok? then r.value else [];
      if loaded != [] {
        ids.SkipPast(MaxId(loaded));
      }
    }

    /** `new`: the loaded tasks, or none when the load fails. */
    constructor New(ids: IdGenerator, storage: TaskStorage, now: Time)
      requires ids.Valid()
      modifies ids
      ensures Valid() && this.ids == ids && this.storage == storage
      ensures tasks == LoadedOrEmpty(storage.file, now)
      ensures ids.next == NextAfterLoad(tasks, old(ids.next)) && ids.issued == old(ids.issued)
    {
      this.ids := ids;
      this.storage := storage;
      var loaded := LoadAndReserve(ids, storage, now);
      tasks := loaded;
    }

    /**
     * `new_with_defaults`: as `new`, but an empty load is replaced by the five
     * sample tasks, each added (and saved) with `add_task`; a non-empty load
     * is kept as it is and nothing is saved.
     */
    constructor NewWithDefaults(ids: IdGenerator, storage: TaskStorage, now: Time, fault: IoFault)
      requires ids.Valid()
      modifies ids, storage
      ensures Valid() && this.ids == ids && this.storage == storage
      ensures var loaded := LoadedOrEmpty(old(storage.file), now);
        if loaded == [] then
          tasks == Seeded(old(ids.next), now) && storage.file == Saved(old(storage.file), tasks, fault)
          && ids.next == old(ids.next) + 5 && ids.issued == old(ids.issued) + FiveIds(old(ids.next))
        else
          tasks == loaded && storage.file == old(storage.file)
          && ids.next == NextAfterLoad(loaded, old(ids.next)) && ids.issued == old(ids.issued)
    {
      this.ids := ids;
      this.storage := storage;
      var loaded := LoadAndReserve(ids, storage, now);
      tasks := loaded;
      new;
      if |tasks| == 0 {
        SeedSamples(now, fault);
      }
    }

    /** The five `add_task` calls of a first run. */
    method SeedSamples(now: Time, fault: IoFault)
      requires Valid() && tasks == []
      modifies this, ids, storage
      ensures Valid()
      ensures tasks == Seeded(old(ids.next), now)
      ensures storage.file == Saved(old(storage.file), tasks, fault)
      ensures ids.next == old(ids.next) + 5 && ids.issued == old(ids.issued) + FiveIds(old(ids.next))
    {
      ghost var first := ids.next;
      ghost var file := storage.file;
      ghost var issued := ids.issued;
      ghost var seeds := Seeded(first, now);
      var _ := AddTask(DemoContents[0], now, fault);
      assert tasks == seeds[..1] && storage.file == Saved(file, tasks, fault);
      assert ids.next == first + 1 && ids.issued == issued + {first};
      var _ := AddTask(DemoContents[1], now, fault);
      assert tasks == seeds[..2] && storage.file == Saved(file, tasks, fault);
      assert ids.next == first + 2 && ids.issued == issued + {first, first + 1};
      var _ := AddTask(DemoContents[2], now, fault);
      assert tasks == seeds[..3] && storage.file == Saved(file, tasks, fault);
      assert ids.next == first + 3 && ids.issued == issued + {first, first + 1, first + 2};
      var _ := AddTask(DemoContents[3], now, fault);
      assert tasks == seeds[..4] && storage.file == Saved(file, tasks, fault);
      assert ids.next == first + 4 && ids.issued == issued + {first, first + 1, first + 2, first + 3};
      var _ := AddTask(DemoContents[4], now, fault);
      assert tasks == seeds;
    }

    /**
     * `add_task`: exactly one new Pending task at the end, the earlier tasks
     * untouched; then save. The returned id is the counter's old value, which
     * `Valid` puts above every id already in the list, so looking it up finds
     * the new task (`FreshIdFindsNewTask`).
     */
    method AddTask(content: string, now: Time, fault: IoFault) returns (id: TaskId)
      requires Valid()
      modifies this, ids, storage
      ensures Valid()
      ensures id == old(ids.next) && ids.next == id + 1 && ids.issued == old(ids.issued) + {id}
      ensures tasks == old(tasks) + [Created(id, content, now)]
      ensures storage.file == Saved(old(storage.file), tasks, fault)
    {
      var task := NewTask(ids, content, now);
      tasks := tasks + [task];
      Persist(fault);
      id := task.id;
    }

    /**
     * `begin_completing`: true exactly when some task has this id; the first
     * such task takes the guarded transition, nothing else changes, and
     * nothing is saved.
     */
    method BeginCompleting(id: TaskId, now: Time) returns (found: bool)
      requires Valid()
      modifies this
      ensures Valid()
      ensures found <==> IndexOf(old(tasks), id).Some?
      ensures match IndexOf(old(tasks), id)
        case None => tasks == old(tasks)
        case Some(k) => tasks == old(tasks)[k := Domain.BeginCompleting(old(tasks)[k], now)]
    {
      var pos := Position(id);
      match pos {
        case None =>
          found := false;
        case Some(k) =>
          tasks := tasks[k := Domain.BeginCompleting(tasks[k], now)];
          found := true;
      }
    }

    /**
     * `finish_completing`: true exactly when some task has this id; the first
     * such task becomes Done, every other task is unchanged, and the list is
     * saved; an unknown id changes and saves nothing.
     */
    method FinishCompleting(id: TaskId, now: Time, fault: IoFault) returns (found: bool)
      requires Valid()
      modifies this, storage
      ensures Valid()
      ensures found <==> IndexOf(old(tasks), id).Some?
      ensures match IndexOf(old(tasks), id)
        case None => tasks == old(tasks) && storage.file == old(storage.file)
        case Some(k) =>
          tasks == old(tasks)[k := Complete(old(tasks)[k], now)] &&
          storage.file == Saved(old(storage.file), tasks, fault)
    {
      var pos := Position(id);
      match pos {
        case None =>
          found := false;
        case Some(k) =>
          tasks := tasks[k := Complete(tasks[k], now)];
          Persist(fault);
          found := true;
      }
    }

    /**
     * `remove_task`: when some task has this id, the first such task is taken
     * out and returned, the others keep their order, and the list is saved;
     * otherwise nothing changes and nothing is saved.
     */
    method RemoveTask(id: TaskId, fault: IoFault) returns (r: Option<Task>)
      requires Valid()
      modifies this, storage
      ensures Valid()
      ensures r.Some? <==> IndexOf(old(tasks), id).Some?
      ensures r.Some? ==> r.value.id == id
      ensures match IndexOf(old(tasks), id)
        case None => tasks == old(tasks) && storage.file == old(storage.file)
        case Some(k) =>
          r == Some(old(tasks)[k]) && tasks == old(tasks)[..k] + old(tasks)[k + 1..] &&
          storage.file == Saved(old(storage.file), tasks, fault)
    {
      var pos := Position(id);
      match pos {
        case None =>
          r := None;
        case Some(k) =>
          r := Some(tasks[k]);
          tasks := tasks[..k] + tasks[k + 1..];
          Persist(fault);
      }
    }
  }
}
