# Waloyo task core in Dafny

This is a model of the core of Waloyo, a desktop to-do app whose tasks "fall
like rain" until they are completed. It covers three layers:

- **The task entity** (`src/domain/task.rs`) is modelled by the `Domain` module in `task.dfy`:
  - a task's lifecycle `Pending → Completing → Done`;
  - its priority;
  - the process-wide counter that hands out task ids.
- **The task service** (`src/application/task_service.rs`) is modelled by the `Service` module in `task_service.dfy`:
  - the ordered list of tasks it owns;
  - the queries behind the "clear sky" view;
  - the mutations, each followed by a save.
- **Storage** (`src/infrastructure/storage.rs`) is modelled by the `Storage` module in `storage.dfy`:
  - the JSON file envelope `{ version: 1, tasks: [...] }`;
  - the record form of a task (state and priority as text);
  - the load and save operations and their error paths.

`wrappers.dfy` holds the `Option` and `Result` types.

### How the model is shaped

- **Tasks are values.** A task is owned by the service's `Vec<Task>` and
  changed only through `&mut` into that vector, so `Task` is a datatype.
  - `begin_completing` and `complete` are the functions `Domain.BeginCompleting` and `Domain.Complete`.
  - The service methods write the result back into `tasks` at the task's position.
  - Nothing else can observe a task, so this is the same as the in-place update.
- **The id counter is a class.** `Domain.IdGenerator` models the global atomic
  counter behind `TaskId::new`. Its field `next` starts at 1 and goes up by one per id.
  - A ghost set `issued` records every id handed out. `Fresh` proves that a new id is above all of them.
  - The service receives the counter as a parameter, so the process-wide static becomes an explicit object.
- **The file is a field.** The storage file is the field `file` of
  `Storage.TaskStorage`. It is one of:
  - absent;
  - unreadable;
  - malformed (not parseable as the envelope);
  - stored with a parsed envelope.

  Faults the filesystem or the serializer may raise on save are a parameter, `IoFault`.
- **Notes are a field of the task.** The `Task` struct (src/domain/task.rs:52-67) has no `notes` field, although `From<&Task>` and `into_task` read and write `task.notes` (src/infrastructure/storage.rs:25 and :47). The model gives `Task` a `notes: Option<string>` field, which `Task::new` (`Domain.Created`) sets to none and the transitions leave alone.
- **Time is a parameter.** The clock is a `now: Time` parameter; `Instant`
  values are stored and never compared.

### What is proved

- **Task lifecycle.**
  - `begin_completing` moves only a pending task.
  - `complete` always ends in Done.
  - No sequence of lifecycle steps changes a task's identity, content, priority or creation time.
  - Once a task leaves Pending it never returns there.
- **Id counter.** Every id is fresh: above every id issued before it.
- **State and priority text.** Round-trips between the enums and their text:
  - `Completing` is persisted as `"pending"`;
  - unknown text decodes to Pending and Low.
- **Task records.**
  - A task and its record round-trip up to that state collapse and the fresh timestamps.
  - A record round-trips exactly when its text is canonical.
- **Save and load.**
  - A successful save followed by a load gives back the saved list, in order, with each task's fields kept, except that Completing comes back as Pending and both timestamps are the load time.
  - Loading a file that a save wrote and saving the result again writes the same records. A file whose state or priority text is not canonical is rewritten in canonical form.
  - A missing file loads as an empty list.
  - Each I/O fault produces its own error and leaves the file untouched.
- **Service queries.**
  - The pending and completed filters keep exactly the tasks in that state, in order.
  - The two counts never exceed the list length and fall short of it exactly by the tasks mid-completion.
  - `all_overcome` holds exactly when the list is non-empty and every task is Done.
- **Service mutations.** Each mutation's effect on the list and on the file is stated in full.
  - Completing the last open task clears the sky.
  - A task added with a fresh id is the one its id looks up.

## Model

| member | source | states |
|---|---|---|
| Domain.IdGenerator.constructor | src/domain/task.rs:25-29 | the process counter starts at 1 with nothing issued |
| Domain.IdGenerator.Fresh | src/domain/task.rs:25-29 | returns the counter's value and bumps it by one; the id is not among, and is larger than, every id issued before |
| Domain.IdGenerator.SkipPast | src/application/task_service.rs:20-22 | (correction, see Findings) moves the counter strictly past a given id and never backwards, leaving it alone when it is already past |
| Domain.Task.IsPending | src/domain/task.rs:99-102 | true exactly when the task is neither completing nor done, that is, when its state is Pending |
| Domain.Task.IsCompleting | src/domain/task.rs:104-107 | true exactly when the task is neither pending nor done, that is, when its state is Completing |
| Domain.Task.IsDone | src/domain/task.rs:109-112 | true exactly when the task is neither pending nor completing, that is, when its state is Done |
| Domain.ExactlyOneState | src/domain/task.rs:99-111 | exactly one of `is_pending`, `is_completing`, `is_done` holds for any task |
| Domain.NewTask | src/domain/task.rs:71-82 | a new task takes the next fresh id, has the given content, is Pending with Low priority, no notes, no due date, and equal creation and update times |
| Domain.BeginCompleting | src/domain/task.rs:85-90 | a Pending task becomes Completing with its update time set; a task in any other state is returned unchanged; identity fields never change |
| Domain.Complete | src/domain/task.rs:93-96 | any task becomes Done with its update time set; identity fields never change |
| Domain.ReplayKeepsIdentity | src/domain/task.rs:85-96 | no sequence of begin/complete steps changes a task's id, content, notes, priority, due date or creation time |
| Domain.ReplayNeverReopens | src/domain/task.rs:85-96 | after any sequence of steps a task that was not Pending is still not Pending, a Done task stays Done, and any sequence containing a complete step ends in Done |
| Domain.BeginIsIdempotent | src/domain/task.rs:85-90 | beginning completion a second time leaves the task as the first call left it |
| Domain.CompleteAfterBegin | src/domain/task.rs:85-96 | begin then complete gives the same task as complete alone at the same instant |
| Storage.EncodeState | src/infrastructure/storage.rs:26-30 | the text is "pending" or "done"; it is "done" exactly for Done; decoding it gives back the state with Completing collapsed to Pending |
| Storage.DecodeState | src/infrastructure/storage.rs:48-51 | "done" decodes to Done and every other text to Pending; never Completing |
| Storage.EncodePriority | src/infrastructure/storage.rs:31-35 | the text is "low", "medium" or "high" and decodes back to the same priority |
| Storage.DecodePriority | src/infrastructure/storage.rs:52-56 | High exactly for "high", Medium exactly for "medium", Low for every other text |
| Storage.FromTask | src/infrastructure/storage.rs:20-39 | the record keeps id, content, notes and due date, and its state and priority are canonical text |
| Storage.IntoTask | src/infrastructure/storage.rs:41-61 | the task keeps id, content, notes and due date; it is Done exactly when the state text is "done" and Pending otherwise; its priority is High exactly for "high", Medium exactly for "medium" and Low otherwise; both times are the load instant |
| Storage.TaskRoundTrip | src/infrastructure/storage.rs:20-61 | record then task gives the task back with Completing collapsed to Pending and timestamps reset; every other state survives |
| Storage.RecordRoundTrip | src/infrastructure/storage.rs:20-61 | task then record gives the record back if and only if its state and priority texts are canonical |
| Storage.EncodeAll | src/infrastructure/storage.rs:127-130 | one record per task, in order, each the record of the task at the same position |
| Storage.DecodeAll | src/infrastructure/storage.rs:119 | one task per record, in order, each the task of the record at the same position |
| Storage.Envelope | src/infrastructure/storage.rs:127-130 | the saved envelope has version 1 and the records of the tasks in order |
| Storage.EmptyEnvelope | src/infrastructure/storage.rs:72-77 | the fresh envelope is the version-1 envelope of no tasks |
| Storage.EmptyLoads | src/infrastructure/storage.rs:109-111 | a missing file loads as no tasks, and so does a file holding the fresh envelope |
| Storage.SaveOverwrites | src/infrastructure/storage.rs:123-139 | a successful save leaves the file holding exactly the version-1 envelope of its tasks, whatever an earlier save (successful or failed) left; of two saves under the same fault only the second one's effect remains |
| Storage.SaveThenLoad | src/infrastructure/storage.rs:108-139 | after a successful save a load succeeds with the same number of tasks, each the reloaded form of the saved one |
| Storage.ResaveIsStable | src/infrastructure/storage.rs:20-61 | loading what a save wrote and saving it again writes the same records |
| Storage.TaskStorage.constructor | src/infrastructure/storage.rs:86-89 | the storage handle over the file at the storage path, whatever state that file is in |
| Storage.TaskStorage.Load | src/infrastructure/storage.rs:108-120 | missing file gives no tasks; unreadable gives a read error; unparseable gives a parse error; otherwise the decoded tasks |
| Storage.TaskStorage.Save | src/infrastructure/storage.rs:123-139 | succeeds exactly without an I/O fault, then stores the version-1 envelope of the tasks; each fault gives its own error and leaves the file as it was |
| Service.IndexOf | src/application/task_service.rs:72 | the first position whose task has the id, or none exactly when no task has it |
| Service.WithState | src/application/task_service.rs:55-63 | a task is kept exactly when it is in the list with the given state; never longer than the list |
| Service.WithStateAppend | src/application/task_service.rs:55-63 | filtering distributes over appending, so the filter keeps list order |
| Service.StatesPartition | src/application/task_service.rs:103-110 | the Pending, Completing and Done filters together count every task exactly once |
| Service.CountsBounded | src/application/task_service.rs:103-110 | pending plus completed count never exceeds the number of tasks, and equals it exactly when no task is Completing |
| Service.FilterKeepsAll | src/application/task_service.rs:113-115 | the filter keeps the whole list exactly when every task has that state |
| Service.ReplaceCounts | src/application/task_service.rs:81-89 | replacing one task changes a state's count by at most the two tasks involved: minus the old one if it had the state, plus the new one if it has it |
| Service.RemoveCounts | src/application/task_service.rs:92-100 | removing one task lowers a state's count by one exactly when the removed task had that state |
| Service.LastCompletionClearsSky | src/application/task_service.rs:113-115 | completing the only task not yet Done leaves every task Done |
| Service.FreshIdFindsNewTask | src/application/task_service.rs:45-51 | a task appended with an id above every id in the list is the one its id finds |
| Service.MaxId | src/application/task_service.rs:20-22 | (correction, see Findings) the largest id in a non-empty list: bounds every id and belongs to some task |
| Service.FirstAddAfterLoadAsWritten | src/application/task_service.rs:45-51 | (as written, see Findings) the first `add_task` after a restart: the loaded tasks unchanged, then one Pending task with the given content and id 1, because the counter of src/domain/task.rs:25-29 restarts at 1 |
| Service.AsWrittenIdCollides | src/application/task_service.rs:20-22 | (as written, see Findings) after a restart over saved tasks, the first added task gets id 1 again and looking it up finds the old task |
| Service.TaskService.PendingTasks | src/application/task_service.rs:55-57 | exactly the Pending tasks; a Completing task is in neither query |
| Service.TaskService.CompletedTasks | src/application/task_service.rs:61-63 | exactly the Done tasks |
| Service.TaskService.PendingCount | src/application/task_service.rs:103-105 | the number of pending tasks, which with the Completing and Done counts makes up the whole list |
| Service.TaskService.CompletedCount | src/application/task_service.rs:108-110 | the number of Done tasks; with the pending count never more than the list length |
| Service.TaskService.AllOvercome | src/application/task_service.rs:113-115 | true exactly when there is at least one task and every task is Done; then nothing is pending and nothing is completing |
| Service.TaskService.Position | src/application/task_service.rs:93 | the loop finds the first position holding the id, or none |
| Service.TaskService.Persist | src/application/task_service.rs:38-42 | the file afterwards is what a save of the current list leaves, successful or not; the list is untouched |
| Service.TaskService.LoadAndReserve | src/application/task_service.rs:13-14 | the list loaded, or no tasks when the load fails; the counter moves to one past the largest loaded id unless it is already past it, never moves back, and issues nothing |
| Service.TaskService.New | src/application/task_service.rs:12-17 | the service holds the loaded tasks, or none when the load fails; the counter is left as the load moves it and no id is issued |
| Service.TaskService.NewWithDefaults | src/application/task_service.rs:20-36 | an empty or failed load is replaced by the five sample tasks with consecutive fresh ids, each save attempted, and the counter has issued exactly those five ids; a non-empty load is kept, nothing is saved, and the counter only moves past the loaded ids |
| Service.TaskService.SeedSamples | src/application/task_service.rs:26-31 | the five sample tasks in order, numbered from the counter, with the file as five saves leave it; the counter advances by five and has issued exactly those ids |
| Service.TaskService.AddTask | src/application/task_service.rs:45-51 | appends a Pending task with the next id and the given content, saves, and returns that id, which the counter records as issued |
| Service.FirstRunFirstId | src/domain/task.rs:25-29 | in a new process over no saved file, the first `add_task` returns id 1 |
| Service.TaskService.BeginCompleting | src/application/task_service.rs:71-78 | true exactly when a task has the id; the first such task goes through `begin_completing`, no other task changes, and nothing is saved |
| Service.TaskService.FinishCompleting | src/application/task_service.rs:81-89 | true exactly when a task has the id; the first such task becomes Done, no other task changes, and the list is saved; otherwise nothing changes |
| Service.TaskService.RemoveTask | src/application/task_service.rs:92-100 | returns the first task with the id and removes exactly that position, then saves; none and no change when no task has it |

## Left out

- **The JSON format.** `serde_json`'s text format is not modelled: a file is either a parsed envelope or `Malformed`.
  - A record missing `id`, `content`, `state` or `priority` fails to parse and is part of `Malformed`. `TaskData.priority` has no `#[serde(default)]` (src/infrastructure/storage.rs:16), so a record without it fails to parse.
  - A missing `notes` (which has `#[serde(default)]`) or `due_date` (an `Option`) reads as none; the model's records always carry both fields, so this case is not separate.
  - `load` does not check the `version` field, and neither does the model.
- **The storage location.** The filesystem, the home directory lookup and the path `~/.waloyo/tasks.json` are out.
  - `ensure_directory`, serialization and write failures are modelled as an `IoFault` parameter.
  - Partial writes are not modelled.
  - A single fault value applies to every save made within one service call.
- **Startup errors.** A failed load is discarded silently by `unwrap_or_default` (src/application/task_service.rs:14, :22) and reads as no tasks. A failed save is written to standard error by `eprintln!` (src/application/task_service.rs:40) and otherwise ignored; the message is left out and only the ignoring is modelled.
  - A corrupt file therefore starts `new_with_defaults` with the samples, and the first successful sample save overwrites it.
- **Clocks.** `Instant::now()` and `chrono` dates are a `Time` parameter and an uninterpreted `Date`.
  - Each service call and each load takes one reading `now`. The source reads the clock once per `Task::new` (five times in `new_with_defaults`, src/application/task_service.rs:27-31) and once per record in `into_task` (src/infrastructure/storage.rs:43, mapped at :119). So `Service.Seeded` and `Storage.DecodeAll` give every task the same instant, which the source does not promise; no contract here depends on the stamps being equal or distinct.
- Domain.IdGenerator.Fresh: does not model the 64-bit wrap-around of the atomic counter nor the `u64` width of stored ids, because ids are unbounded `nat` here; no run reaches 2^64 ids.
- **Concurrency.** The counter's atomic ordering is not modelled; the model is single-threaded.
- **`all_tasks`.** It returns the `tasks` field itself, which the model exposes directly (`AllTasks` has no contract of its own).
- **Everything else.** The presentation layer (views, animations, theme) and `main.rs` are not part of this model. Neither are the `Default` impls: `TaskStorage::default` and `TaskId::default` call `new`, and `TaskService::default` calls `new_with_defaults` (src/application/task_service.rs:118-122), which is modelled as `Service.TaskService.NewWithDefaults`.
- Service.TaskService.New: follows the corrected startup (the counter is moved past the loaded ids) rather than the code as written; the as-written behaviour is `Service.FirstAddAfterLoadAsWritten`.
- Service.TaskService.NewWithDefaults: follows the corrected startup in the same way.

## Findings

| source | as written | input that shows it | evidently intended | confidence | as-written member | corrected member |
|---|---|---|---|---|---|---|
| src/application/task_service.rs:20-22 | startup loads saved tasks with their saved ids, but the id counter of `TaskId::new` restarts at 1 in every process, so new ids repeat saved ones | save the five sample tasks (ids 1-5), restart, `add_task("Buy milk")`: it gets id 1, and `finish_completing(1)` or `remove_task(1)` acts on "Learn GPUI fundamentals" instead | ids handed out after a load are above every loaded id, so each id names one task | not executed | Service.AsWrittenIdCollides | Service.TaskService.LoadAndReserve |
