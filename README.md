# TaskWarrior Stickies: a Dafny model of the non-UI core

TaskWarrior Stickies is a macOS app. It shows TaskWarrior tasks in sticky-note windows. This project models the logic behind the windows and states properties of it as Dafny contracts and lemmas:

- **Task service** (`task_service.dfy`). It covers:
  - the argument vector each verb (`getTasks`, `getTask`, `createTask`, `updateTask`, `deleteTask`) passes to the `task` command;
  - the sequence of executor calls each verb makes;
  - the defensive parse of the JSON listing that `task export` prints.
- **Scripted executor** (`executor.dfy`). `MockTaskCommandExecutor` is a class with its three list fields. It records every call, then answers from its scripts by call number. The pure function `Step` specifies one call.
- **Value types** (`task_model.dfy`, `sticky_model.dfy`): `TWTask`, `TaskInput`, `TaskUpdate`, `Sticky`, `StickySettings`.
- **Filter and sort** (`filter_sort.dfy`). This is the client-side view `filteredTasks`:
  - the filter is a case-insensitive substring match on title, project and tags;
  - the sort is a stable sort keyed by title, project, age or priority, ascending unless the order is exactly `"descending"`.
- **View model** (`sticky_view.dfy`). `StickyViewModel` is a class with the `tasks` field, `loadTasks` and `updateTaskTitle`.
- **Sticky store** (`data_manager.dfy`). `DataManager` is a class over the stored list of stickies. `saveSticky` is an upsert by id. Each update reads a sticky, changes its fields and saves it back.
- **Persisted entity** (`sticky_entity.dfy`). `StickyEntity` is a class with flat geometry fields, the `position`/`size` accessors and the `toSticky`/`fromSticky` conversions.

Supporting modules:

- `wrappers.dfy`: `Option`, `Result`.
- `failures.dfy`: the errors that can be thrown.
- `json.dfy`: the decoded JSON that the service reads.
- `timestamps.dfy`: calendar dates and the two date text formats.

Each class method is proved against a pure function of the old state. The properties the source promises are then proved as lemmas about those functions:

- `MockTaskCommandExecutor.Execute` is proved against `Executor.Step`.
- The service methods are proved against `GetTasksCall`, `CreateTaskCall` and the other call functions.
- The view methods are proved against `LoadTasksStep` and `UpdateTitleStep`.
- The store updates are proved against `Lookup`, `Upsert` and `PatchSettings`.

Modelling choices:

- **Executor output.** It is modelled as its decoded JSON (`Json.Payload`):
  - an array of objects;
  - a top-level array or object that is not an array of objects, on which `as! [[String: Any]]` traps;
  - text that `JSONSerialization` rejects. The call passes no `.fragmentsAllowed`, so a top-level string, number, boolean or null is rejected too. It is modelled as `Unparseable` and gives `JsonSyntaxError`.
- **Traps.** Swift traps (`as!`, `tasks.last!`) become `Trap` errors, so the model can state when they happen. A scripted executor error is a `Thrown`, an error that is not a trap. The view model's `do/catch` catches only thrown errors. A trap passes through it and is reported in the view state's `aborted` field, after which the list is no longer observed.
- **Dates.** A date is a record of calendar fields in UTC:
  - `yyyyMMdd'T'HHmmss'Z'` (the compact form in `task export`) has a parser and a formatter that round-trip both ways;
  - `ISO8601DateFormatter`'s `yyyy-MM-ddTHH:mm:ssZ` has a formatter with a parser that reads it back.
- **Ordering.** `String <` is modelled as lexicographic order on character codes. `Date <` is modelled as lexicographic order on (year, month, day, hour, minute, second).
- **Case folding.** `localizedCaseInsensitiveContains` is modelled with ASCII case folding.
- **Non-deterministic inputs.** `UUID()` in `createSticky` becomes the `id` parameter of `DataManager.CreateSticky`.
- **Persistence.** The `UserDefaults` entry is the `stored` field. `None` means nothing was ever saved. A manager is constructed over the entry as it currently is. JSON encoding and decoding of the list is the identity.
- **Geometry and transparency.** These are `real` values. They are only copied, never computed with.

The model follows the code in these places, where a reader of the tests or the type declarations might expect otherwise:

- **`uuid:` prefix.** Modify and delete address a task as `uuid:<id>`, and get uses `export uuid:<id>`, as `Sources/services/TaskService.swift` does.
- **Default columns.** A new sticky's default columns are the four `title`, `project`, `age`, `id`.
- **Task identifier field.** `Sources/models/Task.swift` declares the task struct as `Task` with the field `id`. The service constructs `TWTask(uuid: ...)`, and the declaration it compiles against is not part of this model. `TaskModel.TWTask` takes the service's name. Its `uuid` field is `Task.id`.
- **Settings update.** `updateStickySettings` overwrites `filter`, `sortBy` and `sortOrder` unconditionally, so a patch without them clears them (`DataManager.EmptyPatchClears`).

## Model

| member | source | states |
|---|---|---|
| Json.AsString | Sources/services/TaskService.swift:91-99 | `dict[key] as? String` is present iff the key holds a string, and then it is that string |
| Json.Strings | Sources/services/TaskService.swift:100 | an array converts to `[String]` iff every item is a string; the result has the same length and holds the items' strings in order |
| Json.AsStringArray | Sources/services/TaskService.swift:100 | `dict[key] as? [String]` is present iff the key holds an array of strings only, and then it has the array's length and holds the items' strings in order |
| Timestamps.FormatCompact | Sources/services/TaskService.swift:103-104 | the compact form `yyyyMMdd'T'HHmmss'Z'` is 16 characters |
| Timestamps.ParseCompact | Sources/services/TaskService.swift:103-113 | the date `yyyyMMdd'T'HHmmss'Z'` reads from a 16-character text, when its fields are digits and form a real date |
| Timestamps.CompactRoundTrip | Sources/services/TaskService.swift:103-113 | every real date is read back unchanged from its compact form |
| Timestamps.CompactAcceptsOnlyFormatted | Sources/services/TaskService.swift:103-113 | a text the compact pattern accepts is a real date, and it is exactly that date's compact form |
| Timestamps.FormatIso8601 | Sources/services/TaskService.swift:40-42 | the ISO 8601 text of a date is 20 characters |
| Timestamps.Iso8601RoundTrip | Sources/services/TaskService.swift:40-42 | the `due:` date text names the date it was written from |
| TaskModel.NewTaskInput | Sources/models/Task.swift:29-35 | `TaskInput.init` stores title, project, due and priority unchanged, and stores `tags ?? []`: present tags kept, absent ones empty |
| TaskModel.TitleInput | Sources/models/Task.swift:29-35 | `TaskInput(title:)` has only the title, with no project, due or priority, and empty tags |
| TaskModel.TitleUpdate | Sources/models/Task.swift:45-51 | `TaskUpdate(title: t)` sets the title to t and every other field to nil |
| Executor.Reply | Sources/services/TaskCommandExecutor.swift:98-124 | the answer to call k: a non-nil scripted error, else a scripted output, else the canned listing for `export`, else the empty text |
| Executor.Step | Sources/services/TaskCommandExecutor.swift:95-125 | one call: append the arguments to the log, then answer with `Reply` on the call number before the append |
| Executor.StepRecords | Sources/services/TaskCommandExecutor.swift:95-96 | every call is appended to the log exactly once, whatever it returns, and the scripts are left unchanged |
| Executor.ScriptedErrorWins | Sources/services/TaskCommandExecutor.swift:98-102 | a non-nil error scripted for call k is thrown, even when an output is scripted for the same call |
| Executor.ScriptedOutputReturned | Sources/services/TaskCommandExecutor.swift:98-106 | with no error for call k, a scripted output for call k is returned |
| Executor.UnscriptedReply | Sources/services/TaskCommandExecutor.swift:108-124 | with no script for call k, `export` gets the canned listing and any other command the empty text |
| Executor.Run | Sources/services/TaskCommandExecutor.swift:95-96 | a run of calls leaves the old log extended by exactly those calls, in order, with one answer per call |
| Executor.RunAnswersByCallNumber | Sources/services/TaskCommandExecutor.swift:95-106 | after a run of calls the log is the old log plus those calls in order, and the i-th call is answered by the scripts at its overall call number |
| Executor.MockTaskCommandExecutor.constructor | Sources/services/TaskCommandExecutor.swift:91-93 | a new mock has an empty log and empty scripts |
| Executor.MockTaskCommandExecutor.Execute | Sources/services/TaskCommandExecutor.swift:95-125 | changes only the log, which it extends by the call, and answers as `Step` specifies |
| Executor.MockTaskCommandExecutor.Reset | Sources/services/TaskCommandExecutor.swift:127-131 | leaves all three lists empty |
| TaskService.IsTaskRecord | Sources/services/TaskService.swift:91-97 | the `guard`s of the `compactMap` closure: a record is kept iff `uuid`, `description` and `status` all hold strings |
| TaskService.DateField | Sources/services/TaskService.swift:106-114 | a date is read only from a string field, through the compact pattern; nil otherwise |
| TaskService.ParseRecord | Sources/services/TaskService.swift:89-119 | the closure given to `compactMap`: the task of a kept record, nil for any other |
| TaskService.ParseRecords | Sources/services/TaskService.swift:89 | `compactMap`: the tasks of the kept records, in order |
| TaskService.ExtractTask | Sources/services/TaskService.swift:99-119 | the task built from a kept record: uuid, title and status from their strings, optional project and priority, `tags ?? []`, dates parsed with the compact pattern, no comment |
| TaskService.ParsePayload | Sources/services/TaskService.swift:85-97 | `parseTasks`: a record listing becomes the tasks of its kept records; other JSON traps on `as!`; text that is not JSON throws a syntax error |
| TaskService.ExtractedFields | Sources/services/TaskService.swift:99-119 | a kept task draws each field from its record: the title from `description`; project and priority only when they are strings; the tags are the string array's value, else `[]`; `age` and `due` are exactly the compact-pattern reading of `entry` and `due` when those are strings, else nil; never a comment |
| TaskService.ParseRecordsAppend | Sources/services/TaskService.swift:89-120 | parsing works record by record: the listing of a concatenation is the concatenation of the listings, so input order is kept |
| TaskService.ParseSingleRecord | Sources/services/TaskService.swift:89-97 | one record yields its task iff `uuid`, `description` and `status` are strings, and otherwise nothing |
| TaskService.ParseRecordsCount | Sources/services/TaskService.swift:89-97 | the number of parsed tasks equals the number of records that are kept |
| TaskService.ParsedTaskOrigin | Sources/services/TaskService.swift:89-120 | a task is in the listing iff some kept record yields it |
| TaskService.FirstParsedTask | Sources/services/TaskService.swift:89-97 | the first task of a non-empty listing comes from the first kept record |
| TaskService.EmptyListing | Sources/services/TaskService.swift:89-97 | the listing is empty iff no record is kept |
| TaskService.CannedExportIsDropped | Sources/services/TaskCommandExecutor.swift:109-121 | the canned record has `id` but no `uuid`, so the default listing parses to no tasks |
| TaskService.ParseTaskRecord | Sources/services/TaskService.swift:85-120 | the record the tool exports for a task with real dates and no comment parses back to that task |
| TaskService.ParseExportedListing | Sources/services/TaskService.swift:85-120 | a whole exported listing parses back to the listed tasks, in order |
| TaskService.ListArgs | Sources/services/TaskService.swift:18-21 | `["export"]`, with the filter appended when there is one |
| TaskService.GetArgs | Sources/services/TaskService.swift:27 | `["export", "uuid:<id>"]` |
| TaskService.AddArgs | Sources/services/TaskService.swift:36-49 | `add`, the title, then `project:`, `due:` (ISO 8601) and `priority:` when present, then one `+tag` per tag |
| TaskService.ModifyArgs | Sources/services/TaskService.swift:60-75 | `uuid:<id> modify`, the bare title when present, then `project:`, `status:`, `priority:` and `annotate:` when present |
| TaskService.DeleteArgs | Sources/services/TaskService.swift:82 | `uuid:<id> delete --yes` |
| TaskService.TagTokens | Sources/services/TaskService.swift:47-49 | one `+tag` token per tag, in input order |
| TaskService.ListArgsShape | Sources/services/TaskService.swift:17-21 | the list vector is `export`, followed by the filter only when there is one |
| TaskService.AddArgsShape | Sources/services/TaskService.swift:36-49 | the add vector starts with `add` and the title and ends with the tag tokens |
| TaskService.AddArgsRoundTrip | Sources/services/TaskService.swift:35-49 | the add vector determines its input: `project:`, `due:` and `priority:` each appear iff present, in that order, then the tags in order (absent tags read as empty) |
| TaskService.ModifierTokensRoundTrip | Sources/services/TaskService.swift:64-75 | the modifier tokens determine the patch: `project:`, `status:`, `priority:` and `annotate:` each appear iff present, in that order |
| TaskService.ModifyArgsRoundTrip | Sources/services/TaskService.swift:59-75 | the modify vector `uuid:<id> modify [title] modifiers` determines the id and the patch, unless the new title itself looks like a modifier token |
| TaskService.ModifierShapedTitle | Sources/services/TaskService.swift:61-63 | the title is a bare token, so the title `status:completed` gives the same vector as a status change |
| TaskService.ParseReply | Sources/services/TaskService.swift:22-23 | `try` on the executor's answer, then `parseTasks`: a thrown error passes through, an answer is parsed |
| TaskService.ParseReplyTraps | Sources/services/TaskService.swift:85-89 | a reply ends in a trap iff it is valid JSON that is not an array of objects; the executor never throws a trap |
| TaskService.GetTasksCall | Sources/services/TaskService.swift:17-24 | one executor step with the list vector; a thrown call is passed through, otherwise the reply is parsed |
| TaskService.GetTaskCall | Sources/services/TaskService.swift:26-33 | one step with the get vector; the first parsed task, or not-found (code 2) on an empty listing |
| TaskService.CreateTaskCall | Sources/services/TaskService.swift:35-57 | the add step; if it succeeds, a `getTasks` with no filter and the last task of its listing, or the `last!` trap when it is empty |
| TaskService.UpdateTaskCall | Sources/services/TaskService.swift:59-79 | the modify step; if it succeeds, a `getTask` of the same id |
| TaskService.DeleteTaskCall | Sources/services/TaskService.swift:81-83 | the delete step; success iff the step does not throw |
| TaskService.GetTasksOneCall | Sources/services/TaskService.swift:17-24 | `getTasks` makes exactly one call, the list vector, and the sort argument changes nothing |
| TaskService.GetTaskOneCall | Sources/services/TaskService.swift:26-33 | `getTask` makes one call, `export uuid:<id>`. A thrown call is passed through. On a record listing it fails with not-found iff no record is kept, and whenever one is kept it returns `Success` of the first kept record's task. Any other answer fails as `parseTasks` does |
| TaskService.CreateTaskCalls | Sources/services/TaskService.swift:51-56 | `createTask` makes the add call and then one plain `export`, but makes no second call when the add fails. After a successful add the listing decides: a failure is passed through, an empty listing is the `tasks.last!` trap, and otherwise the result is `Success` of the last task |
| TaskService.UpdateTaskCalls | Sources/services/TaskService.swift:77-78 | `updateTask` makes the modify call and then the read-back `export uuid:<id>`, but makes no read-back when the modify fails; it returns what the read-back returns |
| TaskService.DeleteTaskOneCall | Sources/services/TaskService.swift:81-83 | `deleteTask` makes one call, `uuid:<id> delete --yes`, and succeeds iff that call does |
| TaskService.UnscriptedListingIsEmpty | Sources/services/TaskService.swift:17-24 | against an unscripted mock every listing is empty |
| TaskService.CreateOnEmptyListingTraps | Sources/services/TaskService.swift:55-56 | when the read-back listing is empty, `tasks.last!` traps after both calls have been made |
| TaskService.CreateReturnsListedTask | Sources/services/TaskService.swift:35-56 | creating "Test Task" sends `add "Test Task"`, then `export`, and returns the listed pending task |
| TaskService.TaskService.constructor | Sources/services/TaskService.swift:13-15 | the service keeps the executor it is given |
| TaskService.TaskService.GetTasks | Sources/services/TaskService.swift:17-24 | builds the vector by appends and changes the executor's log and result as `GetTasksCall` specifies |
| TaskService.TaskService.GetTask | Sources/services/TaskService.swift:26-33 | as `GetTaskCall` specifies |
| TaskService.TaskService.CreateTask | Sources/services/TaskService.swift:35-57 | builds the add vector by appends, with a loop over the tags, and behaves as `CreateTaskCall` specifies |
| TaskService.TaskService.UpdateTask | Sources/services/TaskService.swift:59-79 | builds the modify vector by appends and behaves as `UpdateTaskCall` specifies |
| TaskService.TaskService.DeleteTask | Sources/services/TaskService.swift:81-83 | as `DeleteTaskCall` specifies |
| FilterSort.ContainsIgnoringCase | Sources/views/StickyView.swift:114-116 | `localizedCaseInsensitiveContains`: the folded needle occurs in the folded text |
| FilterSort.Matches | Sources/views/StickyView.swift:113-117 | the filter occurs, ignoring case, in the title, in the project when there is one, or in some tag |
| FilterSort.FilterTasks | Sources/views/StickyView.swift:113-117 | the matching tasks, in order |
| FilterSort.FieldNamed | Sources/views/StickyView.swift:124-140 | the `switch sortBy`: the four field names, and any other text as the `default` case |
| FilterSort.SortKey | Sources/views/StickyView.swift:125-138 | the value compared for each field: the title; the project or `""`; the entry date or the earliest date; the priority or `""` |
| FilterSort.Precedes | Sources/views/StickyView.swift:121-141 | the sort closure: the key order, flipped unless ascending; always false for an unrecognised field |
| FilterSort.Sort | Sources/views/StickyView.swift:121-142 | `filtered.sort` with that closure, as a stable insertion sort |
| FilterSort.IsAscending | Sources/views/StickyView.swift:122 | ascending iff the sort order is not exactly `"descending"`, a nil order included |
| FilterSort.Filtered | Sources/views/StickyView.swift:110-118 | the filter runs only when it is present and not empty; otherwise every task passes |
| FilterSort.Apply | Sources/views/StickyView.swift:109-146 | `filteredTasks`: filter when the filter is non-empty, then sort when `sortBy` is set, ascending unless the order is `"descending"` |
| FilterSort.IsInfixAt | Sources/views/StickyView.swift:114-116 | the substring test holds iff the needle occurs at some position of the text |
| FilterSort.FilterIsSubsequence | Sources/views/StickyView.swift:112-118 | the filtered list is a subsequence of the tasks |
| FilterSort.FilterKeepsExactlyMatches | Sources/views/StickyView.swift:113-117 | a task is kept, as many times as it occurs, iff the filter occurs case-insensitively in its title, its project or one of its tags |
| FilterSort.EqualKeysTie | Sources/views/StickyView.swift:121-141 | tasks whose sort keys are equal never precede one another |
| FilterSort.PrecedesAsymmetric | Sources/views/StickyView.swift:121-141 | the comparator is asymmetric |
| FilterSort.NotPrecedesTransitive | Sources/views/StickyView.swift:121-141 | "not after" is transitive, so the comparator is a strict weak order, as `sort` requires |
| FilterSort.SortPermutes | Sources/views/StickyView.swift:120-143 | sorting permutes the list |
| FilterSort.SortSorted | Sources/views/StickyView.swift:120-143 | after sorting, no task precedes an earlier one under the comparator |
| FilterSort.SortStable | Sources/views/StickyView.swift:120-143 | the tasks sharing a key keep their input order |
| FilterSort.UnrecognisedKeepsOrder | Sources/views/StickyView.swift:139-140 | with an unrecognised field the comparator is always false and the order is unchanged |
| FilterSort.DescendingReversesAscending | Sources/views/StickyView.swift:122-138 | when keys are distinct, the descending result is the ascending one reversed |
| FilterSort.ApplyFilters | Sources/views/StickyView.swift:109-118 | a non-empty filter keeps exactly the matching tasks, each with its multiplicity; a nil or empty filter keeps all |
| FilterSort.ApplyUnsorted | Sources/views/StickyView.swift:110-120 | without `sortBy` the result is a subsequence of the tasks, and with no filter as well it is the task list itself |
| FilterSort.ApplySorted | Sources/views/StickyView.swift:120-143 | with `sortBy` the result permutes the filtered tasks, is sorted by the field's key in the chosen direction, and keeps ties in input order |
| FilterSort.OnlyDescendingFlips | Sources/views/StickyView.swift:122 | any order other than exactly `"descending"`, nil and `"desc"` included, sorts as ascending |
| FilterSort.UnrecognisedFieldFiltersOnly | Sources/views/StickyView.swift:139-140 | an unrecognised `sortBy` leaves the filtered order unchanged |
| FilterSort.ApplyDescending | Sources/views/StickyView.swift:122-138 | for filtered tasks with distinct keys, `"descending"` gives the ascending result reversed |
| StickyView.Failed | Sources/views/StickyView.swift:155-159 | the `catch`: a thrown error keeps the list, and a trap is never caught and aborts |
| StickyView.LoadTasksStep | Sources/views/StickyView.swift:154-160 | `getTasks(nil, nil)`; the list becomes its result on success, is kept when an error is thrown, and a trap aborts |
| StickyView.UpdateTitleStep | Sources/views/StickyView.swift:166-173 | `updateTask` with a title-only patch, followed by a load only when it succeeds; a thrown error keeps the list, and a trap aborts |
| StickyView.LoadTasksReplaces | Sources/views/StickyView.swift:154-160 | a load makes one plain `export` call. The list is replaced by the fetched tasks when the answer parses, and kept when a thrown error is caught. The load aborts iff the answer is JSON that is not an array of objects |
| StickyView.LoadAbortsOnNonArray | Sources/services/TaskService.swift:87 | a listing scripted as non-array JSON ends the load at the `as!` trap instead of in its `catch` |
| StickyView.UpdateTitleCalls | Sources/views/StickyView.swift:166-173 | a title edit sends `uuid:<id> modify <title>` with no other modifier, then the read-back. It reloads only when the update succeeded, and then the outcome is that of a load. A thrown failure keeps the list, and a trap in the update or the reload aborts |
| StickyView.UnscriptedTitleEditKeepsList | Sources/views/StickyView.swift:166-173 | against an unscripted mock the read-back finds nothing, so a title edit ends in a caught not-found, without a reload and without aborting |
| StickyView.StickyViewModel.constructor | Sources/views/StickyView.swift:148-152 | keeps the sticky and the service, with an empty task list |
| StickyView.StickyViewModel.FilteredTasks | Sources/views/StickyView.swift:109-146 | exactly the tasks matching a non-empty filter, or all; in input order without `sortBy`; otherwise sorted stably by its key |
| StickyView.StickyViewModel.LoadTasks | Sources/views/StickyView.swift:154-160 | changes the task list and the executor log as `LoadTasksStep` specifies, and reports its trap, if any |
| StickyView.StickyViewModel.UpdateTaskTitle | Sources/views/StickyView.swift:166-173 | changes the task list and the executor log as `UpdateTitleStep` specifies, and reports its trap, if any |
| DataManager.FirstIndex | Sources/services/DataManager.swift:95 | the index found holds the id and no earlier index does; there is none iff no sticky has the id |
| DataManager.Lookup | Sources/services/DataManager.swift:37 | the sticky at the first index holding the id, if any |
| DataManager.Upsert | Sources/services/DataManager.swift:95-99 | the sticky replaces the element at the first index with its id, or is appended |
| DataManager.LookupFinds | Sources/services/DataManager.swift:35-41 | a sticky is found iff one has the id, and the one found has the id and is stored |
| DataManager.UpsertShape | Sources/services/DataManager.swift:92-99 | a present id is replaced at its first index, with the same length and every other element unchanged; an absent id is appended at the end |
| DataManager.LookupAfterUpsert | Sources/services/DataManager.swift:92-99 | after saving, the saved id yields the saved sticky and every other id yields what it yielded before |
| DataManager.UpsertKeepsIdsUnique | Sources/services/DataManager.swift:95-98 | saving never creates a duplicate id |
| DataManager.UpsertIdempotent | Sources/services/DataManager.swift:92-99 | saving the same sticky twice has the effect of saving it once |
| DataManager.NewSticky | Sources/services/DataManager.swift:16-29 | a new sticky has the given id and title, position (100,100) and size (300,400) |
| DataManager.NewIsPatchedBlank | Sources/services/DataManager.swift:16-29 | creating with settings equals taking the default sticky (transparency 0.5, on top, no filter or sort, the four default columns) and applying the settings as `updateStickySettings` does |
| DataManager.PatchSettings | Sources/services/DataManager.swift:65-81 | a settings patch keeps the id, title, position and size |
| DataManager.PatchIdempotent | Sources/services/DataManager.swift:65-81 | applying a settings patch twice has the effect of applying it once |
| DataManager.EmptyPatchClears | Sources/services/DataManager.swift:67-78 | the empty patch keeps transparency, on-top and columns, and clears filter, sortBy and sortOrder |
| DataManager.UpdatePresent | Sources/services/DataManager.swift:43-63 | storing a changed sticky under a present id keeps the length and every id, makes the id yield the change, and leaves every other id unaffected |
| DataManager.DataManager.constructor | Sources/services/DataManager.swift:13-14 | a manager over the `UserDefaults` entry as it currently is |
| DataManager.DataManager.LoadStickies | Sources/services/DataManager.swift:83-90 | `[]` when nothing is stored, or else the stored list |
| DataManager.DataManager.SaveSticky | Sources/services/DataManager.swift:92-104 | stores the upsert of the sticky into the loaded list, and keeps ids unique |
| DataManager.DataManager.CreateSticky | Sources/services/DataManager.swift:16-33 | stores and returns the new sticky, so the id now yields it; with a fresh id the sticky is appended |
| DataManager.DataManager.GetSticky | Sources/services/DataManager.swift:35-41 | returns the first stored sticky with the id, or fails with not-found (code 2) |
| DataManager.DataManager.UpdateStickyTransparency | Sources/services/DataManager.swift:43-48 | an unknown id fails with not-found and leaves the store untouched; otherwise it stores and returns the sticky with only the transparency changed, without a range check |
| DataManager.DataManager.UpdateStickyAlwaysOnTop | Sources/services/DataManager.swift:50-55 | as for transparency, changing only the on-top flag |
| DataManager.DataManager.UpdateStickyWindowFrame | Sources/services/DataManager.swift:57-63 | as for transparency, changing only position and size |
| DataManager.DataManager.UpdateStickySettings | Sources/services/DataManager.swift:65-81 | an unknown id fails with not-found and leaves the store untouched; otherwise it stores and returns the sticky with the patch applied |
| StickyEntityModel.StickyEntity.constructor | Sources/models/CoreData/StickyEntity+CoreDataClass.swift:61 | in a newly inserted entity, position, size and transparency read as zero, the on-top flag as false, and filter, sortBy and sortOrder as nil |
| StickyEntityModel.StickyEntity.Position | Sources/models/CoreData/StickyEntity+CoreDataClass.swift:29-30 | the position is (positionX, positionY) |
| StickyEntityModel.StickyEntity.Size | Sources/models/CoreData/StickyEntity+CoreDataClass.swift:37-38 | the size is (width, height) |
| StickyEntityModel.StickyEntity.SetPosition | Sources/models/CoreData/StickyEntity+CoreDataClass.swift:31-34 | writes only positionX and positionY, after which the position reads back as set |
| StickyEntityModel.StickyEntity.SetSize | Sources/models/CoreData/StickyEntity+CoreDataClass.swift:39-42 | writes only width and height, after which the size reads back as set |
| StickyEntityModel.StickyEntity.ToSticky | Sources/models/CoreData/StickyEntity+CoreDataClass.swift:45-58 | the sticky carries every attribute, with position and size from the accessors; it only reads the entity |
| StickyEntityModel.StickyEntity.FromSticky | Sources/models/CoreData/StickyEntity+CoreDataClass.swift:60-73 | a new entity holding every field of the sticky, and `toSticky` of it is the sticky again |
| StickyEntityModel.EntityRoundTrip | Sources/models/CoreData/StickyEntity+CoreDataClass.swift:45-73 | converting an entity to a sticky and back reproduces every attribute |

## Left out

- `RealTaskCommandExecutor` and its output collector (Sources/services/TaskCommandExecutor.swift:15-88) are left out. They spawn a process, read pipes and hop between tasks concurrently. The service is bound to the scripted executor instead, and the `TaskCommandExecutor` protocol is not modelled as an abstraction.
- `JSONSerialization` is not modelled. The payload is given already decoded. `jsonString.data(using: .utf8)!` cannot fail on a Swift string and is not modelled.
- `JSONEncoder`/`JSONDecoder` are not modelled either: encoding and decoding the sticky list is the identity. So `loadStickies` never fails to decode.
- Timestamps.ParseCompact models `DateFormatter` with a fixed pattern as a strict reader of UTC dates. The formatter's locale, time-zone default and leniency are not modelled. Its date validity check uses proleptic Gregorian leap rules and accepts year 0. Foundation's Gregorian calendar has no year 0 and uses Julian dates before 1582-10-15, so the two differ only for such old dates.
- FilterSort.ContainsIgnoringCase folds ASCII letters only. Locale-aware case folding, as in `localizedCaseInsensitiveContains`, is not modelled.
- FilterSort.SortKey compares strings by character code. Swift's `String <` compares by Unicode canonical ordering, which is not modelled.
- FilterSort.Sort is a stable insertion sort. Swift's `sort(by:)` does not document that it is stable. The model's tie order is therefore one result the library may produce, not the only one.
- `Double`, `CGPoint`, `CGSize` and `Date` are modelled as `real` values or calendar records. Floating-point rounding is not modelled, since these values are only copied or compared.
- `async`, `@MainActor` and `ObservableObject`/`@Published` notifications are not modelled. Every call is sequential.
- `StickyViewModel.selectedTaskIds`, `dataManager` and `refreshTasks` are not modelled. `refreshTasks` only calls `loadTasks`. The `print` of a failed load or update becomes "nothing changes".
- `CoreDataStack.swift`, the managed-object context and saving are not modelled. A new entity is a fresh object.
- `StickyView.body`, `StickyWindow`, `PreferencesView` and the app entry point are UI only and are left out.
- Some test expectations are not implemented by the code and are not modelled:
  - validation errors for empty titles, bad statuses and out-of-range transparency or bounds;
  - concurrency control;
  - a delete of a missing task failing.
- DataManager.DataManager.constructor: each manager owns its store, initialised from the given entry. In the source every `DataManager` shares `UserDefaults.standard`, which outlives the process. Two managers seeing each other's saves (aliasing of the shared store) is not modelled.
- StickyEntityModel.StickyEntity.constructor: the source's new entity has nil `id`, `title` and `visibleColumns`, since the Core Data model sets no defaults, and reading them traps. The model gives them placeholder values and promises nothing about them. `fromSticky` overwrites them at once.
- TaskService.ModifyArgsRoundTrip needs a precondition: the new title must not start with a modifier prefix. The code passes the title as a bare token, so for such a title the round trip does not hold (`TaskService.ModifierShapedTitle`).
- TaskService.AddArgsRoundTrip needs a precondition: the due date must be a real calendar date. The formatter is only modelled on real dates.
