/** One gateway request being handled, cut at its awaits (gateway/service.py, application/adapters.py). */
module Gateway {
  import opened Wrappers
  import opened Lifecycle
  import opened Events
  import opened GatewayModels
  import opened StoreModel

  datatype Command =
    | Dev(project: Identifier, instruction: string, replyTarget: Option<string>)
    | Stop(id: TaskId)
    | Ask

  datatype Request = Request(key: RequestKey, source: Identifier, command: Command)

  /** The task a request asks for: everything a replayed request is compared by. */
  datatype Submission = Submission(
    id: TaskId, source: Identifier, project: Identifier, team: Identifier, request: string, route: Option<Route>)

  datatype Verdict = Admitted | Denied | Sensitive | AuthorizerFails

  datatype Choice = Choice(
    at: Time, createdAt: Time, queuedAt: Time, createdId: EventId, queuedId: EventId, body: string,
    storageFails: bool, verdict: Verdict, answer: Response)

  datatype Pc =
    | Arriving
    | Checking
    | Reserving
    | Dispatching
    | Submitting(sub: Submission)
    | ComparingTask(sub: Submission)
    | ComparingRoute(sub: Submission, existing: Task)
    | Enqueueing(view: TaskView)
    | EnqueueMove(task: Task)
    | StopRead(id: TaskId)
    | StopMove(task: Task)
    | Remembering(response: Response)
    | Releasing(response: Response)
    | Answered(response: Response)

  datatype Handler = Handler(request: Request, pc: Pc)

  /** The handler holds the key's reservation. */
  predicate Owns(pc: Pc) {
    !pc.Arriving? && !pc.Checking? && !pc.Reserving? && !pc.Answered?
  }

  /** The handler is inside the dispatched command. */
  predicate InDispatch(pc: Pc) {
    Owns(pc) && !pc.Remembering? && !pc.Releasing?
  }

  function Plain(code: Code): Response {
    Response(code.CodeOk? || code.Accepted? || code.DuplicateRequest?, code, "", None, [], code.DuplicateRequest?)
  }

  function AcceptedAs(task: Task): Response {
    Response(true, Accepted, "", Some(ViewOf(task)), [], false)
  }

  function SavedButNotQueued(view: TaskView): Response {
    Response(false, CodeUnavailable, "", Some(view), [], false)
  }

  /** Where a dispatched command's response goes next. */
  function Deliver(response: Response): Pc {
    if IsTransient(response.code) then Releasing(response) else Remembering(response)
  }

  function PendingTask(sub: Submission, c: Choice): Task {
    Task(sub.id, sub.source, sub.project, sub.team, sub.request, Pending, [], c.at, None, None)
  }

  function CreatedEvent(sub: Submission, c: Choice): Event {
    Event(c.createdId, TaskCreated, c.createdAt, Some(sub.id), Some(sub.project), Some(sub.team), None, Some(Pending), c.body)
  }

  function QueuedEvent(sub: Submission, c: Choice): Event {
    Event(c.queuedId, TaskQueued, c.queuedAt, Some(sub.id), Some(sub.project), Some(sub.team), None, Some(Queued), c.body)
  }

  function CommandEvent(task: Task, target: Status, c: Choice): Event {
    Event(c.createdId, EventFor(target), c.at, Some(task.taskId), Some(task.project), Some(task.team), None, Some(target), c.body)
  }

  function Submit(db: Db, sub: Submission, c: Choice): Outcome<Task> {
    if c.storageFails then Outcome(db, Err(Unavailable))
    else CreateQueuedTask(db, PendingTask(sub, c), CreatedEvent(sub, c), QueuedEvent(sub, c), sub.route)
  }

  function Read(db: Db, id: TaskId, c: Choice): Result<Task> {
    if c.storageFails then Err(Unavailable)
    else if id !in db.tasks then Err(NotFound)
    else Ok(db.tasks[id].doc)
  }

  function Move(db: Db, task: Task, target: Status, c: Choice): Outcome<Task> {
    if c.storageFails then Outcome(db, Err(Unavailable))
    else MoveTask(db, task.taskId, target, CommandEvent(task, target, c))
  }

  /** The replayed request asks for the task that exists. */
  predicate Matches(existing: Task, sub: Submission) {
    && existing.taskId == sub.id && existing.source == sub.source && existing.project == sub.project
    && existing.team == sub.team && existing.request == sub.request
  }

  function RouteOf(db: Db, id: TaskId): Option<Route> {
    if id in db.routes then Some(db.routes[id]) else None
  }

  /** The store's errors as the task port reports them for a cancellation. */
  function StopFailure(e: Error): Code {
    match e
    case NotFound => CodeNotFound
    case Unavailable => CodeUnavailable
    case _ => CodeConflict
  }

  function SubmissionOf(r: Request, id: TaskId, team: Identifier): Submission
    requires r.command.Dev?
  {
    Submission(id, r.source, r.command.project, team, r.command.instruction,
               if r.command.replyTarget.Some? then Some(Route(id, r.source, r.command.replyTarget.value)) else None)
  }

  function Next(db: Db, teams: map<Identifier, Identifier>, taskIds: RequestKey -> TaskId, r: Request, pc: Pc,
      c: Choice): (Db, Pc) {
    match pc
    case Arriving =>
      (match c.verdict
       case AuthorizerFails => (db, Answered(Plain(CodeUnavailable)))
       case Denied => (db, Answered(Plain(Unauthorized)))
       case Sensitive => (db, Answered(Plain(InvalidRequest)))
       case Admitted => (db, Checking))
    case Checking =>
      if c.storageFails then (db, Answered(Plain(CodeUnavailable)))
      else if r.key in db.requests && db.requests[r.key].response.Some?
      then (db, Answered(db.requests[r.key].response.value.(replayed := true)))
      else (db, Reserving)
    case Reserving =>
      if c.storageFails then (db, Answered(Plain(CodeUnavailable)))
      else
        var o := ReserveRequest(db, r.key, c.at);
        (o.db, if o.result == Ok(true) then Dispatching else Answered(Plain(DuplicateRequest)))
    case Dispatching =>
      (match r.command
       case Dev(project, _, _) =>
         (db, if project in teams then Submitting(SubmissionOf(r, taskIds(r.key), teams[project]))
              else Deliver(Plain(CodeNotFound)))
       case Stop(id) => (db, StopRead(id))
       case Ask => (db, Deliver(c.answer)))
    case Submitting(sub) =>
      var o := Submit(db, sub, c);
      (match o.result
       case Ok(task) => (o.db, Enqueueing(ViewOf(task)))
       case Err(Duplicate) => (o.db, ComparingTask(sub))
       case Err(IllegalTransition) => (o.db, Deliver(Plain(InternalError)))
       case Err(BadTime) => (o.db, Deliver(Plain(InternalError)))
       case Err(Invalid) => (o.db, Deliver(Plain(InternalError)))
       case Err(_) => (o.db, Deliver(Plain(CodeUnavailable))))
    case ComparingTask(sub) =>
      (match Read(db, sub.id, c)
       case Err(_) => (db, Deliver(Plain(InternalError)))
       case Ok(existing) => (db, ComparingRoute(sub, existing)))
    case ComparingRoute(sub, existing) =>
      if c.storageFails then (db, Deliver(Plain(InternalError)))
      else if !Matches(existing, sub) || RouteOf(db, sub.id) != sub.route then (db, Deliver(Plain(CodeConflict)))
      else (db, Enqueueing(ViewOf(existing)))
    case Enqueueing(view) =>
      (match Read(db, view.taskId, c)
       case Err(_) => (db, Deliver(SavedButNotQueued(view)))
       case Ok(task) => (db, if task.status.Pending? then EnqueueMove(task) else Deliver(AcceptedAs(task))))
    case EnqueueMove(task) =>
      var o := Move(db, task, Queued, c);
      (match o.result
       case Err(_) => (o.db, Deliver(SavedButNotQueued(ViewOf(task))))
       case Ok(queued) => (o.db, Deliver(AcceptedAs(queued))))
    case StopRead(id) =>
      (match Read(db, id, c)
       case Err(e) => (db, Deliver(Plain(StopFailure(e))))
       case Ok(task) =>
         (db, if IsTerminal(task.status)
              then Deliver(Response(true, CodeOk, "", Some(ViewOf(task)), [], false)) else StopMove(task)))
    case StopMove(task) =>
      var o := Move(db, task, Cancelled, c);
      (match o.result
       case Err(e) => (o.db, Deliver(Plain(StopFailure(e))))
       case Ok(stopped) => (o.db, Deliver(Response(true, CodeOk, "", Some(ViewOf(stopped)), [], false))))
    case Remembering(response) =>
      if c.storageFails then (db, Answered(Response(false, CodeUnavailable, "", response.task, response.tasks, false)))
      else
        var o := RememberResponse(db, r.key, response);
        (o.db, if o.result.Ok? then Answered(response)
               else Answered(Response(false, CodeUnavailable, "", response.task, response.tasks, false)))
    case Releasing(response) =>
      if c.storageFails then (db, Answered(response))
      else (ReleaseRequest(db, r.key).db, Answered(response))
    case Answered(_) => (db, pc)
  }
}
