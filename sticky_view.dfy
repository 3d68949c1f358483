/** The view model behind one sticky window: its task list, the filtered
    and sorted view of it, and the two actions that refresh it. */
module StickyView {
  import opened Wrappers
  import opened Failures
  import opened Json
  import opened TaskModel
  import opened Executor
  import opened TaskService
  import opened FilterSort
  import opened StickyModel

  /** The executor state and the task list after an action, and the trap
      that ended the process, if one did; the list is then no longer
      observed. */
  datatype ViewState = ViewState(after: ExecState, tasks: seq<TWTask>, aborted: Option<Error>)

  /** A failure reaching a `do/catch`: a thrown error is caught and the list
      kept; a trap passes every `catch` and aborts. */
  function Failed(after: ExecState, tasks: seq<TWTask>, e: Error): ViewState {
    ViewState(after, tasks, if e.Trap? then Some(e) else None)
  }

  /** `loadTasks`: fetch every task; keep the old list when the fetch throws. */
  function LoadTasksStep(st: ExecState, tasks: seq<TWTask>): ViewState {
    var fetched := GetTasksCall(st, None, None);
    match fetched.result
    case Success(ts) => ViewState(fetched.after, ts, None)
    case Failure(e) => Failed(fetched.after, tasks, e)
  }

  /** `updateTaskTitle`: update the title only, then reload if that worked. */
  function UpdateTitleStep(st: ExecState, tasks: seq<TWTask>, uuid: string, title: string): ViewState {
    var updated := UpdateTaskCall(st, uuid, TitleUpdate(title));
    match updated.result
    case Success(_) => LoadTasksStep(updated.after, tasks)
    case Failure(e) => Failed(updated.after, tasks, e)
  }

  /** A load makes one plain `export` call. It replaces the list when the
      answer parses, keeps it when a thrown error is caught, and aborts
      exactly when the answer is JSON that is not an array of objects. */
  lemma LoadTasksReplaces(st: ExecState, tasks: seq<TWTask>)
    ensures LoadTasksStep(st, tasks).after == Logged(st, [["export"]])
    ensures var r := LoadTasksStep(st, tasks);
      var listed := ParseReply(Reply(st, ["export"]));
      && (listed.Success? ==> r.tasks == listed.value && r.aborted.None?)
      && (listed.Failure? && !listed.error.Trap? ==> r.tasks == tasks && r.aborted.None?)
      && (listed.Failure? && listed.error.Trap? ==> r.aborted == Some(listed.error))
    ensures LoadTasksStep(st, tasks).aborted.Some? <==> Reply(st, ["export"]) == Success(NotRecordArray)
  {
    GetTasksOneCall(st, None, None, None);
    assert ListArgs(None) == ["export"];
    ParseReplyTraps(Reply(st, ["export"]));
  }

  /** A listing scripted as `{}` or `[1]` ends the process at the `as!`
      cast instead of reaching `loadTasks`' `catch`. */
  lemma LoadAbortsOnNonArray(tasks: seq<TWTask>)
    ensures LoadTasksStep(ExecState([], [NotRecordArray], []), tasks).aborted == Some(Trap("as! [[String: Any]]"))
  {
  }

  /** A title edit sends `uuid:<id> modify <title>` and nothing else to
      change, reads the task back, and reloads only after both succeed. A
      thrown failure keeps the list, a trap aborts, and after a reload the
      outcome is that of a load. */
  lemma UpdateTitleCalls(st: ExecState, tasks: seq<TWTask>, uuid: string, title: string)
    ensures ModifyArgs(uuid, TitleUpdate(title)) == ["uuid:" + uuid, "modify", title]
    ensures var r := UpdateTitleStep(st, tasks, uuid, title);
      var update := UpdateTaskCall(st, uuid, TitleUpdate(title));
      && (update.result.Failure? ==> r.after == update.after)
      && (update.result.Failure? && !update.result.error.Trap? ==> r.tasks == tasks && r.aborted.None?)
      && (update.result.Failure? && update.result.error.Trap? ==> r.aborted == Some(update.result.error))
      && (update.result.Success? ==>
            && r == LoadTasksStep(update.after, tasks)
            && r.after == Logged(st, [ModifyArgs(uuid, TitleUpdate(title)), ["export", "uuid:" + uuid], ["export"]])
            && var listed := ParseReply(Reply(update.after, ["export"]));
               && (listed.Success? ==> r.tasks == listed.value && r.aborted.None?)
               && (listed.Failure? && !listed.error.Trap? ==> r.tasks == tasks && r.aborted.None?)
               && (listed.Failure? && listed.error.Trap? ==> r.aborted == Some(listed.error)))
  {
    var upd := TitleUpdate(title);
    assert ModifierTokens(upd) == [];
    assert Present(upd.title) == [title];
    UpdateTaskCalls(st, uuid, upd);
    var update := UpdateTaskCall(st, uuid, upd);
    if update.result.Success? {
      LoadTasksReplaces(update.after, tasks);
      var calls := [ModifyArgs(uuid, upd), ["export", "uuid:" + uuid]];
      assert st.commands + calls + [["export"]] == st.commands + (calls + [["export"]]);
    }
  }

  /** Against the unscripted mock a title edit never reloads: the read-back
      lists only the canned record, which has no uuid, so the update fails
      with not-found and the list stays as it was. */
  lemma UnscriptedTitleEditKeepsList(tasks: seq<TWTask>, uuid: string, title: string)
    ensures var r := UpdateTitleStep(ExecState([], [], []), tasks, uuid, title);
      && r.tasks == tasks && r.aborted.None?
      && r.after.commands == [["uuid:" + uuid, "modify", title], ["export", "uuid:" + uuid]]
  {
    var st := ExecState([], [], []);
    UpdateTitleCalls(st, tasks, uuid, title);
    var upd := TitleUpdate(title);
    UpdateTaskCalls(st, uuid, upd);
    var mid := Logged(st, [ModifyArgs(uuid, upd)]);
    assert Reply(mid, GetArgs(uuid)) == Success(CannedExport);
    CannedExportIsDropped();
  }

  class StickyViewModel {
    var sticky: Sticky
    var tasks: seq<TWTask>
    const taskService: TaskService

    constructor (sticky: Sticky, taskService: TaskService)
      ensures this.sticky == sticky && this.taskService == taskService && tasks == []
    {
      this.sticky := sticky;
      this.taskService := taskService;
      tasks := [];
    }

    /** `filteredTasks`: with a non-empty filter exactly the matching tasks,
        otherwise all of them; left in order without a sort field, otherwise
        sorted stably by it. */
    function FilteredTasks(): (r: seq<TWTask>)
      reads this
      ensures forall x :: multiset(r)[x] ==
                          (if sticky.filter.Some? && sticky.filter.value != "" && !Matches(x, sticky.filter.value)
                           then 0 else multiset(tasks)[x])
      ensures sticky.sortBy.None? ==> IsSubsequence(r, tasks)
      ensures sticky.sortBy.None? && (sticky.filter.None? || sticky.filter == Some("")) ==> r == tasks
      ensures sticky.sortBy.Some? ==>
        var field := FieldNamed(sticky.sortBy.value);
        && Sorted(field, IsAscending(sticky.sortOrder), r)
        && forall k :: WithKey(field, k, r) == WithKey(field, k, Filtered(tasks, sticky.filter))
    {
      ApplyFilters(tasks, sticky.filter, sticky.sortBy, sticky.sortOrder);
      ApplyUnsorted(tasks, sticky.filter, sticky.sortOrder);
      if sticky.sortBy.Some? then
        ApplySorted(tasks, sticky.filter, sticky.sortBy.value, sticky.sortOrder);
        Apply(tasks, sticky.filter, sticky.sortBy, sticky.sortOrder)
      else
        Apply(tasks, sticky.filter, sticky.sortBy, sticky.sortOrder)
    }

    /** Refreshes the list; `aborted` reports a trap, after which the
        source's process has ended. */
    method LoadTasks() returns (aborted: Option<Error>)
      modifies this`tasks, taskService.executor`executedCommands
      ensures var s := LoadTasksStep(old(taskService.executor.State()), old(tasks));
        taskService.executor.State() == s.after && tasks == s.tasks && aborted == s.aborted
    {
      var fetched := taskService.GetTasks(None, None);
      match fetched
      case Success(ts) =>
        tasks := ts;
        aborted := None;
      case Failure(e) =>
        aborted := if e.Trap? then Some(e) else None;
    }

    /** Edits a title and reloads; `aborted` reports a trap in either step. */
    method UpdateTaskTitle(taskUuid: string, newTitle: string) returns (aborted: Option<Error>)
      modifies this`tasks, taskService.executor`executedCommands
      ensures var s := UpdateTitleStep(old(taskService.executor.State()), old(tasks), taskUuid, newTitle);
        taskService.executor.State() == s.after && tasks == s.tasks && aborted == s.aborted
    {
      var updated := taskService.UpdateTask(taskUuid, TitleUpdate(newTitle));
      match updated
      case Success(_) =>
        aborted := LoadTasks();
      case Failure(e) =>
        aborted := if e.Trap? then Some(e) else None;
    }
  }
}
