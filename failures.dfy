/** The errors the core throws, or the traps it can hit. */
module Failures {

  datatype Error =
      /** An `NSError` with its domain, code and localized description. */
    | NSError(domain: string, code: int, description: string)
      /** Thrown by the JSON decoder when the output is not valid JSON. */
    | JsonSyntaxError
      /** A runtime trap (a failed `as!` cast or a `!` unwrap of nil); the
          source aborts the process here, the model returns it as a value. */
    | Trap(reason: string)

  /** An error a `throw` can carry. A trap is not one: it ends the process
      and no `catch` sees it. */
  type Thrown = e: Error | !e.Trap? witness JsonSyntaxError

  /** Thrown by `TaskService.getTask` when the listing holds no task. */
  const TaskNotFound: Error := NSError("TaskService", 2, "Task not found")

  /** Thrown by `DataManager.getSticky` when no stored sticky has the id. */
  const StickyNotFound: Error := NSError("DataManager", 2, "Sticky not found")
}
