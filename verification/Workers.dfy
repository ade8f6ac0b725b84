/** One orchestration worker: process_task cut at its awaits (orchestrator/service.py). Between two of
    its steps anything else may happen to the store. */
module Workers {
  import opened Wrappers
  import opened Lifecycle
  import opened Events
  import opened StoreModel
  import Runs

  /** Resolves the one eligible developer of a project and team, if there is one. */
  type Chooser = (Identifier, Identifier) -> Option<Identifier>

  datatype Preparation = Ready | NeedsOperator | Refused | Broken

  datatype RuntimeStatus = Succeeded | Failed | TimedOut | Cancelled

  datatype Execution = Ended(status: RuntimeStatus, exitCode: Option<int>) | Raised

  /** What the outside decides at one step: the clock, the minted ids, and how each port behaves. */
  datatype Choice = Choice(
    at: Time, eventId: EventId, runId: Runs.RunId, storageFails: bool,
    preparation: Preparation, execution: Execution, exitFails: bool, body: string)

  datatype Pc =
    | Start
    | Claim(task: Task)
    | Assign(task: Task, agent: Identifier)
    | Open(task: Task, agent: Identifier)
    | ToRunning(task: Task, agent: Identifier)
    | OpenRun(task: Task, agent: Identifier)
    | BeginRun(task: Task, run: Runs.RunId)
    | Execute(task: Task, run: Runs.RunId)
    | CloseRun(task: Task, run: Runs.RunId, result: RuntimeStatus, exitCode: Option<int>)
    | ReadBack(task: Task, result: RuntimeStatus)
    | Conclude(task: Task, result: RuntimeStatus)
    | Leave(task: Task, status: Status)
    | Recover(task: Task, run: Runs.RunId)
    | RecoverRead(task: Task)
    | SettleRead(task: Task, target: Status)
    | Settle(task: Task, target: Status)
    | Returned(status: Status)
    | Failing

  datatype Worker = Worker(id: TaskId, pc: Pc, stamp: Time)

  predicate Finished(w: Worker) {
    w.pc.Returned? || w.pc.Failing?
  }

  function RunStatusOf(s: RuntimeStatus): Runs.Status {
    match s
    case Succeeded => Runs.Succeeded
    case Failed => Runs.Failed
    case TimedOut => Runs.TimedOut
    case Cancelled => Runs.Cancelled
  }

  function RunError(s: RuntimeStatus): Option<string> {
    match s
    case Succeeded => None
    case Failed => Some("runtime-failed")
    case TimedOut => Some("runtime-timed-out")
    case Cancelled => Some("runtime-cancelled")
  }

  /** The status a finished execution asks for. */
  function TaskStatusOf(s: RuntimeStatus): Status {
    match s
    case Succeeded => Completed
    case Cancelled => Lifecycle.Cancelled
    case _ => Lifecycle.Failed
  }

  function LifecycleEvent(task: Task, target: Status, c: Choice): Event {
    Event(c.eventId, EventFor(target), c.at, Some(task.taskId), Some(task.project), Some(task.team),
          None, Some(target), c.body)
  }

  function AssignmentEvent(task: Task, agent: Identifier, c: Choice): Event {
    Event(c.eventId, AgentAssigned, c.at, Some(task.taskId), Some(task.project), Some(task.team),
          Some(agent), Some(task.status), c.body)
  }

  function TryMove(db: Db, task: Task, target: Status, c: Choice): Outcome<Task> {
    if c.storageFails then Outcome(db, Err(Unavailable))
    else MoveTask(db, task.taskId, target, LifecycleEvent(task, target, c))
  }

  function TryAssign(db: Db, task: Task, agent: Identifier, c: Choice): Outcome<Task> {
    if c.storageFails then Outcome(db, Err(Unavailable))
    else AssignTask(db, task.taskId, agent, AssignmentEvent(task, agent, c))
  }

  function TryRead(db: Db, id: TaskId, c: Choice): Result<Task> {
    if c.storageFails then Err(Unavailable)
    else if id !in db.tasks then Err(NotFound)
    else Ok(db.tasks[id].doc)
  }

  function NewRun(task: Task, agent: Identifier, c: Choice): Runs.Run {
    Runs.Run(c.runId, task.taskId, agent, "codex", Runs.Queued, c.at, None, None, None, None)
  }

  function TryCreateRun(db: Db, task: Task, agent: Identifier, c: Choice): Outcome<Runs.Run> {
    if c.storageFails then Outcome(db, Err(Unavailable)) else CreateRun(db, NewRun(task, agent, c))
  }

  function TryStartRun(db: Db, run: Runs.RunId, c: Choice): Outcome<Runs.Run> {
    if c.storageFails then Outcome(db, Err(Unavailable)) else StartRun(db, run, c.at)
  }

  function TryFinishRun(db: Db, run: Runs.RunId, status: Runs.Status, exitCode: Option<int>, error: Option<string>,
      c: Choice): Outcome<Runs.Run> {
    if c.storageFails then Outcome(db, Err(Unavailable)) else FinishRun(db, run, status, c.at, exitCode, error)
  }

  function Next(db: Db, developer: Chooser, id: TaskId, pc: Pc, c: Choice): (Db, Pc) {
    match pc
    case Start =>
      (match TryRead(db, id, c)
       case Err(_) => (db, Failing)
       case Ok(task) => (db, if task.status.Queued? then Claim(task) else Returned(task.status)))
    case Claim(task) =>
      var o := TryMove(db, task, Planning, c);
      (match o.result
       case Err(_) => (o.db, Failing)
       case Ok(claimed) =>
         var chosen := developer(claimed.project, claimed.team);
         (o.db, if chosen.Some? then Assign(claimed, chosen.value) else SettleRead(claimed, Lifecycle.Failed)))
    case Assign(task, agent) =>
      var o := TryAssign(db, task, agent, c);
      (match o.result
       case Err(_) => (o.db, Failing)
       case Ok(after) => (o.db, Open(after, agent)))
    case Open(task, agent) =>
      (match c.preparation
       case Ready => (db, ToRunning(task, agent))
       case NeedsOperator => (db, SettleRead(task, Blocked))
       case Refused => (db, SettleRead(task, Lifecycle.Failed))
       case Broken => (db, RecoverRead(task)))
    case ToRunning(task, agent) =>
      var o := TryMove(db, task, Running, c);
      (match o.result
       case Err(_) => (o.db, RecoverRead(task))
       case Ok(after) => (o.db, OpenRun(after, agent)))
    case OpenRun(task, agent) =>
      var o := TryCreateRun(db, task, agent, c);
      (match o.result
       case Err(_) => (o.db, RecoverRead(task))
       case Ok(run) => (o.db, BeginRun(task, run.runId)))
    case BeginRun(task, run) =>
      var o := TryStartRun(db, run, c);
      (match o.result
       case Err(_) => (o.db, Recover(task, run))
       case Ok(_) => (o.db, Execute(task, run)))
    case Execute(task, run) =>
      (match c.execution
       case Raised => (db, Recover(task, run))
       case Ended(status, exitCode) => (db, CloseRun(task, run, status, exitCode)))
    case CloseRun(task, run, result, exitCode) =>
      var o := TryFinishRun(db, run, RunStatusOf(result), exitCode, RunError(result), c);
      (match o.result
       case Err(_) => (o.db, Recover(task, run))
       case Ok(_) => (o.db, ReadBack(task, result)))
    case ReadBack(task, result) =>
      (match TryRead(db, task.taskId, c)
       case Err(_) => (db, RecoverRead(task))
       case Ok(current) =>
         (db, if current.status.Cancelled? then Leave(current, current.status) else Conclude(current, result)))
    case Conclude(task, result) =>
      var o := TryMove(db, task, TaskStatusOf(result), c);
      (match o.result
       case Err(_) => (o.db, RecoverRead(task))
       case Ok(final) => (o.db, Leave(final, final.status)))
    case Leave(task, status) =>
      (db, if c.exitFails then RecoverRead(task) else Returned(status))
    case Recover(task, run) =>
      (TryFinishRun(db, run, Runs.Failed, None, Some("runtime-exception"), c).db, RecoverRead(task))
    case RecoverRead(task) =>
      (match TryRead(db, task.taskId, c)
       case Err(_) => (db, Failing)
       case Ok(current) =>
         (db, if IsTerminal(current.status) then Returned(current.status) else SettleRead(current, Lifecycle.Failed)))
    case SettleRead(task, target) =>
      (match TryRead(db, task.taskId, c)
       case Err(_) => (db, Failing)
       case Ok(current) => (db, Settle(current, target)))
    case Settle(task, target) =>
      var o := TryMove(db, task, target, c);
      (match o.result
       case Err(_) => (o.db, Failing)
       case Ok(settled) => (o.db, Returned(settled.status)))
    case _ => (db, pc)
  }

  function WorkerStep(db: Db, developer: Chooser, w: Worker, c: Choice): (Db, Worker) {
    var n := Next(db, developer, w.id, w.pc, c);
    (n.0, w.(pc := n.1, stamp := if w.stamp < c.at then c.at else w.stamp))
  }

  /** Steps a worker still has before it: every step of an unfinished worker uses one. */
  function Remaining(pc: Pc): nat {
    match pc
    case Start => 20
    case Claim(_) => 19
    case Assign(_, _) => 18
    case Open(_, _) => 17
    case ToRunning(_, _) => 16
    case OpenRun(_, _) => 15
    case BeginRun(_, _) => 14
    case Execute(_, _) => 13
    case CloseRun(_, _, _, _) => 12
    case ReadBack(_, _) => 8
    case Conclude(_, _) => 7
    case Leave(_, _) => 6
    case Recover(_, _) => 5
    case RecoverRead(_) => 4
    case SettleRead(_, _) => 2
    case Settle(_, _) => 1
    case _ => 0
  }

  lemma EveryStepAdvances(db: Db, developer: Chooser, w: Worker, c: Choice)
    requires !Finished(w)
    ensures Remaining(WorkerStep(db, developer, w, c).1.pc) < Remaining(w.pc)
    ensures Finished(w) <==> Remaining(w.pc) == 0
  {
  }
}
