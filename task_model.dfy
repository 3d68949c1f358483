/** The task value types: the parsed task, the create payload and the sparse update patch. */
module TaskModel {
  import opened Wrappers
  import opened Timestamps

  /** A task as the service parses it from the tool's export. All fields are
      immutable: a task is never changed in place, only re-read. */
  datatype TWTask = TWTask(
    uuid: string,
    title: string,
    project: Option<string>,
    age: Option<Timestamp>,
    due: Option<Timestamp>,
    priority: Option<string>,
    status: string,
    tags: seq<string>,
    comment: Option<string>)

  /** What `createTask` turns into an `add` command. */
  datatype TaskInput = TaskInput(
    title: string,
    project: Option<string>,
    due: Option<Timestamp>,
    priority: Option<string>,
    tags: Option<seq<string>>)

  /** `TaskInput.init`: absent tags are stored as the empty list, all other
      arguments unchanged. */
  function NewTaskInput(title: string, project: Option<string>, due: Option<Timestamp>,
                        priority: Option<string>, tags: Option<seq<string>>): (r: TaskInput)
    ensures r.tags.Some?
    ensures tags.Some? ==> r.tags == tags
    ensures tags.None? ==> r.tags == Some([])
    ensures r.title == title && r.project == project && r.due == due && r.priority == priority
  {
    TaskInput(title, project, due, priority, Some(tags.GetOr([])))
  }

  /** `TaskInput(title:)`, every optional argument left at its default. */
  function TitleInput(title: string): (r: TaskInput)
    ensures r.title == title && r.project.None? && r.due.None? && r.priority.None?
    ensures r.tags == Some([])
  {
    NewTaskInput(title, None, None, None, None)
  }

  /** A sparse patch; a field that is None is left unchanged. The datatype's
      constructor is `TaskUpdate.init`: it stores each argument unchanged. */
  datatype TaskUpdate = TaskUpdate(
    title: Option<string>,
    project: Option<string>,
    status: Option<string>,
    priority: Option<string>,
    comment: Option<string>)

  /** `TaskUpdate()` with no arguments. */
  const EmptyUpdate: TaskUpdate := TaskUpdate(None, None, None, None, None)

  /** `TaskUpdate(title: t)`: a patch that sets the title and nothing else. */
  function TitleUpdate(title: string): (r: TaskUpdate)
    ensures r.title == Some(title)
    ensures r.(title := None) == EmptyUpdate
  {
    EmptyUpdate.(title := Some(title))
  }
}
