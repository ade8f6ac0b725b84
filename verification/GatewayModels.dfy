/** Source-neutral gateway responses (gateway/models.py). */
module GatewayModels {
  import opened Wrappers
  import Lifecycle

  datatype Code =
    | CodeOk | Accepted | DuplicateRequest | Unauthorized | InvalidRequest | CodeNotFound
    | CodeConflict | CodeUnavailable | InternalError

  datatype TaskView = TaskView(
    taskId: Lifecycle.TaskId, project: Lifecycle.Identifier, team: Lifecycle.Identifier,
    status: Lifecycle.Status, agents: seq<Lifecycle.Identifier>)

  datatype Response = Response(
    success: bool, code: Code, message: string, task: Option<TaskView>, tasks: seq<TaskView>, replayed: bool)

  function ViewOf(t: Lifecycle.Task): TaskView {
    TaskView(t.taskId, t.project, t.team, t.status, t.agents)
  }

  /** Outcomes after which the reservation is given up so that the source may retry. */
  predicate IsTransient(c: Code) {
    c.CodeUnavailable? || c.InternalError?
  }
}
