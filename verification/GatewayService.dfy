/** The gateway's handle as straight-line code over the mutable store, with anything happening to the
    store at every await (gateway/service.py, application/adapters.py). */
module GatewayService {
  import opened Wrappers
  import opened Lifecycle
  import opened GatewayModels
  import opened StoreModel
  import opened StoreRuns
  import opened SQLiteStores
  import opened Interference
  import opened Gateway
  import Engine

  /** Steps a request still has before it: every step of an unanswered request uses one. */
  function Remaining(pc: Pc): nat {
    match pc
    case Arriving => 12
    case Checking => 11
    case Reserving => 10
    case Dispatching => 9
    case Submitting(_) => 8
    case ComparingTask(_) => 7
    case ComparingRoute(_, _) => 6
    case Enqueueing(_) => 5
    case EnqueueMove(_) => 4
    case StopRead(_) => 4
    case StopMove(_) => 3
    case Remembering(_) => 1
    case Releasing(_) => 1
    case Answered(_) => 0
  }

  lemma EveryStepAdvances(db: Db, teams: map<Identifier, Identifier>, taskIds: Engine.IdFactory, r: Request, pc: Pc,
      g: Choice)
    requires !pc.Answered?
    ensures Remaining(Next(db, teams, taskIds, r, pc, g).1) < Remaining(pc)
  {
    hide Submit, Move, ReserveRequest, RememberResponse, ReleaseRequest;
  }

  lemma DeliverIsLast()
    ensures forall response :: Remaining(Deliver(response)) == 1
  {
  }

  /** Let the request run to its answer, or to the end of the script. */
  ghost function Drive(db: Db, teams: map<Identifier, Identifier>, taskIds: Engine.IdFactory, r: Request, pc: Pc,
      script: seq<Await<Choice>>): (Db, Pc)
    decreases |script|
  {
    if script == [] || pc.Answered? then (db, pc)
    else
      var n := Next(Final(db, script[0].beside), teams, taskIds, r, pc, script[0].choice);
      Drive(n.0, teams, taskIds, r, n.1, script[1..])
  }

  /** Every transaction run beside the request carries validated records. */
  ghost predicate Playable(db: Db, teams: map<Identifier, Identifier>, taskIds: Engine.IdFactory, r: Request, pc: Pc,
      script: seq<Await<Choice>>)
    decreases |script|
  {
    script == [] || pc.Answered? ||
    (&& WellFormedRun(db, script[0].beside)
     && var n := Next(Final(db, script[0].beside), teams, taskIds, r, pc, script[0].choice);
        Playable(n.0, teams, taskIds, r, n.1, script[1..]))
  }

  lemma DriveStep(db: Db, teams: map<Identifier, Identifier>, taskIds: Engine.IdFactory, r: Request, pc: Pc,
      script: seq<Await<Choice>>)
    requires script != [] && !pc.Answered? && Playable(db, teams, taskIds, r, pc, script)
    ensures WellFormedRun(db, script[0].beside)
    ensures var n := Next(Final(db, script[0].beside), teams, taskIds, r, pc, script[0].choice);
            && Drive(db, teams, taskIds, r, pc, script) == Drive(n.0, teams, taskIds, r, n.1, script[1..])
            && Playable(n.0, teams, taskIds, r, n.1, script[1..])
  {
    hide Next, Final, WellFormedRun;
  }

  /** Every request is answered, within a bounded number of awaits. */
  lemma {:induction false} DriveAnswers(db: Db, teams: map<Identifier, Identifier>, taskIds: Engine.IdFactory,
      r: Request, pc: Pc, script: seq<Await<Choice>>)
    requires Remaining(pc) <= |script|
    ensures Drive(db, teams, taskIds, r, pc, script).1.Answered?
    decreases |script|
  {
    hide Next, Final;
    if !pc.Answered? {
      var n := Next(Final(db, script[0].beside), teams, taskIds, r, pc, script[0].choice);
      EveryStepAdvances(Final(db, script[0].beside), teams, taskIds, r, pc, script[0].choice);
      DriveAnswers(n.0, teams, taskIds, r, n.1, script[1..]);
    }
  }

  class AgentGateway {
    const store: SQLiteStore
    const teams: map<Identifier, Identifier>
    const taskIds: Engine.IdFactory

    constructor (store: SQLiteStore, teams: map<Identifier, Identifier>, taskIds: Engine.IdFactory)
      ensures this.store == store && this.teams == teams && this.taskIds == taskIds
    {
      this.store, this.teams, this.taskIds := store, teams, taskIds;
    }

    ghost predicate Ready(r: Request, pc: Pc, script: seq<Await<Choice>>)
      reads store
    {
      store.Valid() && Remaining(pc) <= |script| && Playable(store.Contents(), teams, taskIds, r, pc, script)
    }

    /** Authorize, look the key up, reserve it, dispatch, then record the response or give the key up. */
    method Handle(r: Request, script: seq<Await<Choice>>) returns (response: Response)
      requires Ready(r, Arriving, script)
      modifies store
      ensures store.Valid()
      ensures Drive(old(store.Contents()), teams, taskIds, r, Arriving, script) == (store.Contents(), Answered(response))
    {
      hide Sound, Final, Playable, WellFormedRun, ReserveRequest;
      DriveStep(store.Contents(), teams, taskIds, r, Arriving, script);
      Interfere(store, script[0].beside);
      match script[0].choice.verdict {
        case AuthorizerFails => return Plain(CodeUnavailable);
        case Denied => return Plain(Unauthorized);
        case Sensitive => return Plain(InvalidRequest);
        case Admitted =>
      }
      var rest := script[1..];
      DriveStep(store.Contents(), teams, taskIds, r, Checking, rest);
      Interfere(store, rest[0].beside);
      if rest[0].choice.storageFails { return Plain(CodeUnavailable); }
      var row := store.GetGatewayRequest(r.key);
      if row.Some? && row.value.response.Some? { return row.value.response.value.(replayed := true); }
      rest := rest[1..];
      DriveStep(store.Contents(), teams, taskIds, r, Reserving, rest);
      Interfere(store, rest[0].beside);
      if rest[0].choice.storageFails { return Plain(CodeUnavailable); }
      var reserved := store.ReserveGatewayRequest(r.key, rest[0].choice.at);
      if reserved != Ok(true) { return Plain(DuplicateRequest); }
      response := Dispatch(r, rest[1..]);
    }

    method Dispatch(r: Request, script: seq<Await<Choice>>) returns (response: Response)
      requires Ready(r, Dispatching, script)
      modifies store
      ensures store.Valid()
      ensures Drive(old(store.Contents()), teams, taskIds, r, Dispatching, script) == (store.Contents(), Answered(response))
    {
      hide Sound, Final, Drive, Playable, WellFormedRun;
      DriveStep(store.Contents(), teams, taskIds, r, Dispatching, script);
      Interfere(store, script[0].beside);
      match r.command
      case Dev(project, _, _) =>
        if project in teams {
          response := CreateTask(r, SubmissionOf(r, taskIds(r.key), teams[project]), script[1..]);
        } else {
          response := Finish(r, Plain(CodeNotFound), script[1..]);
        }
      case Stop(id) => response := Cancel(r, id, script[1..]);
      case Ask => response := Finish(r, script[0].choice.answer, script[1..]);
    }

    /** Remember the response for good, or release the key so that the source may retry. */
    method Finish(r: Request, dispatched: Response, script: seq<Await<Choice>>) returns (response: Response)
      requires Ready(r, Deliver(dispatched), script)
      modifies store
      ensures store.Valid()
      ensures Drive(old(store.Contents()), teams, taskIds, r, Deliver(dispatched), script) == (store.Contents(), Answered(response))
    {
      hide Sound, Final, Playable, WellFormedRun, RememberResponse, ReleaseRequest;
      DriveStep(store.Contents(), teams, taskIds, r, Deliver(dispatched), script);
      Interfere(store, script[0].beside);
      if IsTransient(dispatched.code) {
        if !script[0].choice.storageFails {
          var _ := store.ReleaseGatewayRequest(r.key);
        }
        return dispatched;
      }
      var unrecorded := Response(false, CodeUnavailable, "", dispatched.task, dispatched.tasks, false);
      if script[0].choice.storageFails { return unrecorded; }
      var remembered := store.RememberGatewayResponse(r.key, dispatched);
      return if remembered.Ok? then dispatched else unrecorded;
    }

    /** Create the task with its queue entry and route, or recognise the one a retry made before. */
    method CreateTask(r: Request, sub: Submission, script: seq<Await<Choice>>) returns (response: Response)
      requires Ready(r, Submitting(sub), script)
      modifies store
      ensures store.Valid()
      ensures Drive(old(store.Contents()), teams, taskIds, r, Submitting(sub), script) == (store.Contents(), Answered(response))
    {
      hide Sound, Final, Drive, Playable, WellFormedRun, CreateQueuedTask, Deliver;
      DeliverIsLast();
      DriveStep(store.Contents(), teams, taskIds, r, Submitting(sub), script);
      Interfere(store, script[0].beside);
      var rest := script[1..];
      var g := script[0].choice;
      var created: Result<Task>;
      if g.storageFails {
        created := Err(Unavailable);
      } else {
        created := store.CreateQueuedTask(PendingTask(sub, g), CreatedEvent(sub, g), QueuedEvent(sub, g), sub.route);
      }
      match created
      case Ok(task) => response := Enqueue(r, ViewOf(task), rest);
      case Err(Duplicate) => response := CompareReplay(r, sub, rest);
      case Err(IllegalTransition) => response := Finish(r, Plain(InternalError), rest);
      case Err(BadTime) => response := Finish(r, Plain(InternalError), rest);
      case Err(Invalid) => response := Finish(r, Plain(InternalError), rest);
      case Err(_) => response := Finish(r, Plain(CodeUnavailable), rest);
    }

    method CompareReplay(r: Request, sub: Submission, script: seq<Await<Choice>>) returns (response: Response)
      requires Ready(r, ComparingTask(sub), script)
      modifies store
      ensures store.Valid()
      ensures Drive(old(store.Contents()), teams, taskIds, r, ComparingTask(sub), script) == (store.Contents(), Answered(response))
    {
      hide Sound, Final, Drive, Playable, WellFormedRun, Deliver;
      DeliverIsLast();
      DriveStep(store.Contents(), teams, taskIds, r, ComparingTask(sub), script);
      Interfere(store, script[0].beside);
      var rest := script[1..];
      if script[0].choice.storageFails {
        response := Finish(r, Plain(InternalError), rest);
        return;
      }
      var existing := store.GetTask(sub.id);
      if existing.Err? {
        response := Finish(r, Plain(InternalError), rest);
        return;
      }
      DriveStep(store.Contents(), teams, taskIds, r, ComparingRoute(sub, existing.value), rest);
      Interfere(store, rest[0].beside);
      if rest[0].choice.storageFails {
        response := Finish(r, Plain(InternalError), rest[1..]);
        return;
      }
      var route := store.GetTaskRoute(sub.id);
      if !Matches(existing.value, sub) || route != sub.route {
        response := Finish(r, Plain(CodeConflict), rest[1..]);
        return;
      }
      response := Enqueue(r, ViewOf(existing.value), rest[1..]);
    }

    /** Queue the task if it is still pending, and answer with its present state. */
    method Enqueue(r: Request, view: TaskView, script: seq<Await<Choice>>) returns (response: Response)
      requires Ready(r, Enqueueing(view), script)
      modifies store
      ensures store.Valid()
      ensures Drive(old(store.Contents()), teams, taskIds, r, Enqueueing(view), script) == (store.Contents(), Answered(response))
    {
      hide Sound, Final, Drive, Playable, WellFormedRun, MoveTask, Deliver;
      DeliverIsLast();
      DriveStep(store.Contents(), teams, taskIds, r, Enqueueing(view), script);
      Interfere(store, script[0].beside);
      var rest := script[1..];
      if script[0].choice.storageFails {
        response := Finish(r, SavedButNotQueued(view), rest);
        return;
      }
      var task := store.GetTask(view.taskId);
      if task.Err? {
        response := Finish(r, SavedButNotQueued(view), rest);
        return;
      }
      if !task.value.status.Pending? {
        response := Finish(r, AcceptedAs(task.value), rest);
        return;
      }
      DriveStep(store.Contents(), teams, taskIds, r, EnqueueMove(task.value), rest);
      var queued := Transition(task.value, Queued, rest[0]);
      if queued.Err? {
        response := Finish(r, SavedButNotQueued(ViewOf(task.value)), rest[1..]);
        return;
      }
      response := Finish(r, AcceptedAs(queued.value), rest[1..]);
    }

    method Transition(task: Task, target: Status, a: Await<Choice>) returns (moved: Result<Task>)
      requires store.Valid() && WellFormedRun(store.Contents(), a.beside)
      modifies store
      ensures store.Valid()
      ensures Outcome(store.Contents(), moved) == Move(Final(old(store.Contents()), a.beside), task, target, a.choice)
    {
      hide Sound, MoveTask, WellFormedRun;
      Interfere(store, a.beside);
      if a.choice.storageFails { return Err(Unavailable); }
      moved := store.TransitionTask(task.taskId, target, CommandEvent(task, target, a.choice));
    }

    /** Cancel the task unless it is already over. */
    method Cancel(r: Request, id: TaskId, script: seq<Await<Choice>>) returns (response: Response)
      requires Ready(r, StopRead(id), script)
      modifies store
      ensures store.Valid()
      ensures Drive(old(store.Contents()), teams, taskIds, r, StopRead(id), script) == (store.Contents(), Answered(response))
    {
      hide Sound, Final, Drive, Playable, WellFormedRun, MoveTask, Deliver;
      DeliverIsLast();
      DriveStep(store.Contents(), teams, taskIds, r, StopRead(id), script);
      Interfere(store, script[0].beside);
      var rest := script[1..];
      if script[0].choice.storageFails {
        response := Finish(r, Plain(StopFailure(Unavailable)), rest);
        return;
      }
      var task := store.GetTask(id);
      if task.Err? {
        response := Finish(r, Plain(StopFailure(NotFound)), rest);
        return;
      }
      if IsTerminal(task.value.status) {
        response := Finish(r, Response(true, CodeOk, "", Some(ViewOf(task.value)), [], false), rest);
        return;
      }
      DriveStep(store.Contents(), teams, taskIds, r, StopMove(task.value), rest);
      var stopped := Transition(task.value, Cancelled, rest[0]);
      if stopped.Err? {
        response := Finish(r, Plain(StopFailure(stopped.error)), rest[1..]);
        return;
      }
      response := Finish(r, Response(true, CodeOk, "", Some(ViewOf(stopped.value)), [], false), rest[1..]);
    }
  }
}
