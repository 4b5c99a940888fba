/**
 * The task entity and its lifecycle state machine (src/domain/task.rs).
 *
 * A task is a plain value owned by the list that holds it: its two
 * transitions, which update the state and the `updatedAt` stamp in place,
 * are functions from the task before to the task after, and the owner
 * writes the result back.
 */
module Domain {
  import opened Wrappers

  /** Where a task is in its lifecycle: unsettled, being washed away, or overcome. */
  datatype TaskState = Pending | Completing | Done

  /** How pressing a task is. */
  datatype TaskPriority = Low | Medium | High

  /** The `#[default]` variants of the two enums. */
  const DefaultState: TaskState := Pending
  const DefaultPriority: TaskPriority := Low

  type TaskId = nat

  /** A monotonic clock reading (an `Instant`); only stored, never inspected. */
  type Time = nat

  /** A calendar due date; carried along, never inspected. */
  datatype Date = Date(stamp: int)

  /** The first value the process-wide id counter hands out. */
  const FirstId: TaskId := 1

  /**
   * The process-wide counter behind `TaskId::new`: every call returns the
   * current value and bumps it by one.
   */
  class IdGenerator {
    var next: TaskId
    /** Every id handed out so far. */
    ghost var issued: set<TaskId>

    ghost predicate Valid()
      reads this
    {
      FirstId <= next && forall i :: i in issued ==> FirstId <= i < next
    }

    constructor ()
      ensures Valid() && next == FirstId && issued == {}
    {
      next := FirstId;
      issued := {};
    }

    /** `TaskId::new`: a value strictly greater than every id issued before. */
    method Fresh() returns (id: TaskId)
      requires Valid()
      modifies this
      ensures Valid()
      ensures id == old(next) && next == id + 1
      ensures id !in old(issued) && forall i :: i in old(issued) ==> i < id
      ensures issued == old(issued) + {id}
    {
      id := next;
      next := next + 1;
      issued := issued + {id};
    }

    /** Moves the counter past `seen`, so that `seen` is never handed out again. */
    method SkipPast(seen: TaskId)
      requires Valid()
      modifies this
      ensures Valid() && seen < next && old(next) <= next && issued == old(issued)
      ensures next == if seen < old(next) then old(next) else seen + 1
    {
      if next <= seen {
        next := seen + 1;
      }
    }
  }

  /** A to-do item. */
  datatype Task = Task(
    id: TaskId,
    content: string,
    notes: Option<string>,
    state: TaskState,
    priority: TaskPriority,
    dueDate: Option<Date>,
    createdAt: Time,
    updatedAt: Time)
  {
    /** `is_pending`: the task is neither completing nor done. */
    predicate IsPending()
      ensures IsPending() <==> state != Completing && state != Done
    {
      state == Pending
    }

    /** `is_completing`: the completion animation is playing; the task is neither pending nor done. */
    predicate IsCompleting()
      ensures IsCompleting() <==> state != Pending && state != Done
    {
      state == Completing
    }

    /** `is_done`: the task is neither pending nor completing. */
    predicate IsDone()
      ensures IsDone() <==> state != Pending && state != Completing
    {
      state == Done
    }
  }

  /** Exactly one of the three state queries holds of any task. */
  lemma ExactlyOneState(t: Task)
    ensures (if t.IsPending() then 1 else 0) + (if t.IsCompleting() then 1 else 0)
            + (if t.IsDone() then 1 else 0) == 1
  {
  }

  /** Everything a lifecycle transition leaves alone. */
  predicate SameIdentity(a: Task, b: Task) {
    a.id == b.id && a.content == b.content && a.notes == b.notes &&
    a.priority == b.priority && a.dueDate == b.dueDate && a.createdAt == b.createdAt
  }

  /** The task `Task::new` builds around an id the counter handed out: default state and priority, no due date. */
  function Created(id: TaskId, content: string, now: Time): Task {
    Task(id, content, None, DefaultState, DefaultPriority, None, now, now)
  }

  /** `Task::new`: draws the next id from the counter and builds a Pending task around it. */
  method NewTask(ids: IdGenerator, content: string, now: Time) returns (t: Task)
    requires ids.Valid()
    modifies ids
    ensures ids.Valid()
    ensures t == Created(old(ids.next), content, now) && ids.next == t.id + 1
    ensures t.content == content && t.state == Pending && t.priority == Low
    ensures t.notes == None && t.dueDate == None && t.createdAt == t.updatedAt == now
    ensures t.id !in old(ids.issued) && ids.issued == old(ids.issued) + {t.id}
  {
    var id := ids.Fresh();
    t := Created(id, content, now);
  }

  /** `begin_completing`: only a Pending task moves (to Completing); any other is left as it is. */
  function BeginCompleting(t: Task, now: Time): (u: Task)
    ensures SameIdentity(t, u)
    ensures t.state == Pending ==> u.state == Completing && u.updatedAt == now
    ensures t.state != Pending ==> u == t
  {
    if t.state == Pending then t.(state := Completing, updatedAt := now) else t
  }

  /** `complete`: whatever the state was, the task is now Done and freshly stamped. */
  function Complete(t: Task, now: Time): (u: Task)
    ensures SameIdentity(t, u)
    ensures u.state == Done && u.updatedAt == now
  {
    t.(state := Done, updatedAt := now)
  }

  /** One call into the state machine, with the clock reading it sees. */
  datatype Step = Begin(at: Time) | Finish(at: Time)

  /** The task after one call. */
  function Apply(t: Task, step: Step): Task {
    match step
    case Begin(at) => BeginCompleting(t, at)
    case Finish(at) => Complete(t, at)
  }

  /** The task after a sequence of calls, oldest first. */
  function Replay(t: Task, steps: seq<Step>): Task
    decreases |steps|
  {
    if steps == [] then t else Replay(Apply(t, steps[0]), steps[1..])
  }

  /** No sequence of transitions changes a task's id, content, notes, priority, due date or creation stamp. */
  lemma {:induction false} ReplayKeepsIdentity(t: Task, steps: seq<Step>)
    ensures SameIdentity(t, Replay(t, steps))
    decreases |steps|
  {
    if steps != [] {
      ReplayKeepsIdentity(Apply(t, steps[0]), steps[1..]);
    }
  }

  /**
   * The state machine never goes back: a task that has left Pending never
   * returns to it, a Done task stays Done, and once a completion has run the
   * task is Done for good.
   */
  lemma {:induction false} ReplayNeverReopens(t: Task, steps: seq<Step>)
    ensures t.state != Pending ==> Replay(t, steps).state != Pending
    ensures t.state == Done ==> Replay(t, steps).state == Done
    ensures (exists i :: 0 <= i < |steps| && steps[i].Finish?) ==> Replay(t, steps).state == Done
    decreases |steps|
  {
    if steps != [] {
      ReplayNeverReopens(Apply(t, steps[0]), steps[1..]);
      if exists i :: 0 <= i < |steps| && steps[i].Finish? {
        var i :| 0 <= i < |steps| && steps[i].Finish?;
        if i > 0 {
          assert steps[1..][i - 1].Finish?;
        }
      }
    }
  }

  /** Starting the animation a second time is a no-op. */
  lemma BeginIsIdempotent(t: Task, first: Time, second: Time)
    ensures BeginCompleting(BeginCompleting(t, first), second) == BeginCompleting(t, first)
  {
  }

  /** A completion overwrites whatever an earlier `begin_completing` did. */
  lemma CompleteAfterBegin(t: Task, first: Time, second: Time)
    ensures Complete(BeginCompleting(t, first), second) == Complete(t, second)
  {
  }
}
