/** The whole hub as one step system: workers, gateway requests, restart reconciliation and crashes over
    one durable store. A crash keeps the tables and kills everything in flight. */
module Engine {
  import opened Wrappers
  import opened Lifecycle
  import opened Events
  import opened StoreModel
  import opened StoreRuns
  import opened StoreHistory
  import Workers
  import Settlement
  import Gateway

  /** A request's creation that outlived its interrupted handler: its thread may still commit. */
  datatype Orphan = Orphan(key: RequestKey, sub: Gateway.Submission)

  datatype State = State(
    db: Db,
    workers: map<nat, Workers.Worker>,
    handlers: map<nat, Gateway.Handler>,
    orphans: set<Orphan>,
    developer: Workers.Chooser,
    teams: map<Identifier, Identifier>,
    /** History: the creations that committed, in order, with the key each was made for. */
    accepted: seq<Orphan>)

  datatype Action =
    | Poll(worker: nat, task: TaskId)
    | Work(worker: nat, c: Workers.Choice)
    | Kill(worker: nat)
    | Arrive(handler: nat, request: Gateway.Request)
    | Handle(handler: nat, g: Gateway.Choice)
    | Interrupt(handler: nat, leavesOrphan: bool)
    | Drop(handler: nat)
    | OrphanCommits(orphan: Orphan, g: Gateway.Choice)
    | Delivery(op: Op)
    | Reconcile(at: Time, ids: TaskId -> EventId)
    | ReconcileAnswers
    | ReconcileReceipts
    | Crash(newDeveloper: Workers.Chooser, newTeams: map<Identifier, Identifier>)

  type IdFactory = RequestKey -> TaskId

  function Boot(developer: Workers.Chooser, teams: map<Identifier, Identifier>): State {
    State(EMPTY_DB, map[], map[], {}, developer, teams, [])
  }

  predicate FreshPair(db: Db, g: Gateway.Choice) {
    Lookup(db.events, g.createdId).None? && Lookup(db.events, g.queuedId).None? && g.createdId != g.queuedId
  }

  /** A read-only command's answer; only a creation is ever answered as accepted. */
  predicate AnswersQuery(r: Gateway.GatewayModels.Response) {
    r.code.CodeOk? || r.code.CodeNotFound? || r.code.CodeUnavailable? || r.code.InternalError?
  }

  predicate IsReceiptOp(op: Op) {
    op.OpReserveDelivery? || op.OpMarkDelivered? || op.OpReleaseDelivery?
  }

  /** Ids are new when minted; restart steps run only while nothing they could disturb is in flight. */
  ghost predicate Enabled(s: State, a: Action) {
    match a
    case Poll(w, _) => w !in s.workers
    case Work(w, c) => w in s.workers && Lookup(s.db.events, c.eventId).None?
    case Kill(w) => w in s.workers
    case Arrive(h, _) => h !in s.handlers
    case Handle(h, g) => h in s.handlers && FreshPair(s.db, g) && AnswersQuery(g.answer)
    case Interrupt(h, _) => h in s.handlers
    case Drop(h) => h in s.handlers
    case OrphanCommits(o, g) => o in s.orphans && FreshPair(s.db, g)
    case Delivery(op) => IsReceiptOp(op)
    case Reconcile(_, ids) => s.workers == map[] && FreshIds(s.db, ids)
    case ReconcileAnswers => s.handlers == map[] && s.orphans == {}
    case ReconcileReceipts => s.workers == map[] && s.handlers == map[]
    case Crash(_, _) => true
  }

  /** A committed creation is entered in the history. */
  function Accept(s: State, after: Db, o: Orphan): seq<Orphan> {
    if o.sub.id !in s.db.tasks && o.sub.id in after.tasks then s.accepted + [o] else s.accepted
  }

  function HandlerNext(s: State, taskIds: IdFactory, h: nat, g: Gateway.Choice): State
    requires h in s.handlers
  {
    var handler := s.handlers[h];
    var n := Gateway.Next(s.db, s.teams, taskIds, handler.request, handler.pc, g);
    s.(db := n.0, handlers := s.handlers[h := handler.(pc := n.1)],
       accepted := if handler.pc.Submitting? then Accept(s, n.0, Orphan(handler.request.key, handler.pc.sub)) else s.accepted)
  }

  /** A cancelled handler gives its reservation up if it was dispatching; a creation already handed to its
      thread may still commit. */
  function Interrupted(s: State, h: nat, leavesOrphan: bool): State
    requires h in s.handlers
  {
    var handler := s.handlers[h];
    if Gateway.InDispatch(handler.pc) then
      s.(handlers := s.handlers[h := handler.(pc := Gateway.Releasing(Gateway.Plain(Gateway.GatewayModels.InternalError)))],
         orphans := if leavesOrphan && handler.pc.Submitting?
                    then s.orphans + {Orphan(handler.request.key, handler.pc.sub)} else s.orphans)
    else s.(handlers := s.handlers - {h})
  }

  ghost function Step(s: State, taskIds: IdFactory, a: Action): State {
    match a
    case Poll(w, id) => s.(workers := s.workers[w := Workers.Worker(id, Workers.Start, 0)])
    case Work(w, c) =>
      if w !in s.workers then s
      else
        var n := Workers.WorkerStep(s.db, s.developer, s.workers[w], c);
        s.(db := n.0, workers := s.workers[w := n.1])
    case Kill(w) => s.(workers := s.workers - {w})
    case Arrive(h, request) => s.(handlers := s.handlers[h := Gateway.Handler(request, Gateway.Arriving)])
    case Handle(h, g) => if h !in s.handlers then s else HandlerNext(s, taskIds, h, g)
    case Interrupt(h, leavesOrphan) => if h !in s.handlers then s else Interrupted(s, h, leavesOrphan)
    case Drop(h) => s.(handlers := s.handlers - {h})
    case OrphanCommits(o, g) =>
      var after := Gateway.Submit(s.db, o.sub, g).db;
      s.(db := after, orphans := s.orphans - {o}, accepted := Accept(s, after, o))
    case Delivery(op) => s.(db := After(s.db, op))
    case Reconcile(at, ids) => s.(db := ReconcileInterrupted(s.db, at, ids).db)
    case ReconcileAnswers => s.(db := ReconcileRequests(s.db).db)
    case ReconcileReceipts => s.(db := ReconcileDeliveries(s.db).db)
    case Crash(developer, teams) => State(s.db, map[], map[], {}, developer, teams, s.accepted)
  }

  ghost function Run(s: State, taskIds: IdFactory, actions: seq<Action>): State
    decreases |actions|
  {
    if actions == [] then s else Run(Step(s, taskIds, actions[0]), taskIds, actions[1..])
  }

  ghost predicate Legal(s: State, taskIds: IdFactory, actions: seq<Action>)
    decreases |actions|
  {
    actions == [] ||
    (Enabled(s, actions[0]) && Legal(Step(s, taskIds, actions[0]), taskIds, actions[1..]))
  }

  // ---------------------------------------------------------------- every step is one transaction or none

  function HandlerOp(pc: Gateway.Pc, r: Gateway.Request, g: Gateway.Choice): Option<Op> {
    if g.storageFails then None
    else match pc
      case Reserving => Some(OpReserveRequest(r.key, g.at))
      case Submitting(sub) =>
        Some(OpCreateQueued(Gateway.PendingTask(sub, g), Gateway.CreatedEvent(sub, g), Gateway.QueuedEvent(sub, g), sub.route))
      case EnqueueMove(task) => Some(OpMove(task.taskId, Queued, Gateway.CommandEvent(task, Queued, g)))
      case StopMove(task) => Some(OpMove(task.taskId, Cancelled, Gateway.CommandEvent(task, Cancelled, g)))
      case Remembering(response) => Some(OpRemember(r.key, response))
      case Releasing(_) => Some(OpReleaseRequest(r.key))
      case _ => None
  }

  ghost function ActionOp(s: State, a: Action): Option<Op> {
    match a
    case Work(w, c) => if w in s.workers then Settlement.OpOf(s.workers[w].pc, c) else None
    case Handle(h, g) => if h in s.handlers then HandlerOp(s.handlers[h].pc, s.handlers[h].request, g) else None
    case OrphanCommits(o, g) =>
      if g.storageFails then None
      else Some(OpCreateQueued(Gateway.PendingTask(o.sub, g), Gateway.CreatedEvent(o.sub, g), Gateway.QueuedEvent(o.sub, g), o.sub.route))
    case Delivery(op) => Some(op)
    case Reconcile(at, ids) => Some(OpReconcile(at, ids))
    case ReconcileAnswers => Some(OpReconcileRequests)
    case ReconcileReceipts => Some(OpReconcileDeliveries)
    case _ => None
  }

  lemma HandlerUsesTransactions(db: Db, teams: map<Identifier, Identifier>, taskIds: IdFactory, r: Gateway.Request,
      pc: Gateway.Pc, g: Gateway.Choice)
    ensures Gateway.Next(db, teams, taskIds, r, pc, g).0 == Settlement.AfterOption(db, HandlerOp(pc, r, g))
    ensures HandlerOp(pc, r, g).Some? ==> WellFormed(db, HandlerOp(pc, r, g).value)
  {
    hide MoveTask, CreateQueuedTask, ReserveRequest, RememberResponse, ReleaseRequest;
  }

  lemma WorkUsesTransactions(s: State, taskIds: IdFactory, w: nat, c: Workers.Choice)
    requires w in s.workers
    ensures Step(s, taskIds, Work(w, c)).db == Settlement.AfterOption(s.db, ActionOp(s, Work(w, c)))
    ensures ActionOp(s, Work(w, c)).Some? ==> WellFormed(s.db, ActionOp(s, Work(w, c)).value)
  {
    hide Settlement.OpOf, Settlement.AfterOption, Workers.Next, WellFormed;
    Settlement.WorkerUsesTransactions(s.db, s.developer, s.workers[w].id, s.workers[w].pc, c);
  }

  lemma HandleUsesTransactions(s: State, taskIds: IdFactory, h: nat, g: Gateway.Choice)
    requires h in s.handlers
    ensures Step(s, taskIds, Handle(h, g)).db == Settlement.AfterOption(s.db, ActionOp(s, Handle(h, g)))
    ensures ActionOp(s, Handle(h, g)).Some? ==> WellFormed(s.db, ActionOp(s, Handle(h, g)).value)
  {
    hide Settlement.AfterOption, Gateway.Next, HandlerOp, WellFormed;
    HandlerUsesTransactions(s.db, s.teams, taskIds, s.handlers[h].request, s.handlers[h].pc, g);
  }

  lemma OthersUseTransactions(s: State, taskIds: IdFactory, a: Action)
    requires Enabled(s, a) && !a.Work? && !a.Handle?
    ensures Step(s, taskIds, a).db == Settlement.AfterOption(s.db, ActionOp(s, a))
    ensures ActionOp(s, a).Some? ==> WellFormed(s.db, ActionOp(s, a).value)
  {
    hide CreateQueuedTask, ReconcileInterrupted, ReconcileRequests, ReconcileDeliveries, FreshIds, Lookup, ValidTask,
         Settlement.OpOf, Workers.Next, Gateway.Next, HandlerOp;
    if a.OrphanCommits? {
      assert ValidTask(Gateway.PendingTask(a.orphan.sub, a.g)) by { PendingIsValid(a.orphan.sub, a.g); }
    }
  }

  lemma PendingIsValid(sub: Gateway.Submission, g: Gateway.Choice)
    ensures ValidTask(Gateway.PendingTask(sub, g))
  {
  }

  /** The engine changes the store only by running one of its transactions on validated records. */
  lemma EngineUsesTransactions(s: State, taskIds: IdFactory, a: Action)
    requires Enabled(s, a)
    ensures Step(s, taskIds, a).db == Settlement.AfterOption(s.db, ActionOp(s, a))
    ensures ActionOp(s, a).Some? ==> WellFormed(s.db, ActionOp(s, a).value)
  {
    hide Step, ActionOp, WellFormed, Settlement.AfterOption, FreshIds, Lookup;
    match a
    case Work(w, c) => WorkUsesTransactions(s, taskIds, w, c);
    case Handle(h, g) => HandleUsesTransactions(s, taskIds, h, g);
    case _ => OthersUseTransactions(s, taskIds, a);
  }

  lemma StepKeepsStore(s: State, taskIds: IdFactory, a: Action)
    requires Sound(s.db) && Enabled(s, a)
    ensures Sound(Step(s, taskIds, a).db) && Follows(s.db, Step(s, taskIds, a).db)
  {
    hide Sound, Follows, Step, ActionOp, Enabled, After, WellFormed;
    EngineUsesTransactions(s, taskIds, a);
    var op := ActionOp(s, a);
    if op.Some? {
      StepSound(s.db, op.value);
      StepFollows(s.db, op.value);
    } else {
      FollowsItself(s.db);
    }
  }

  /** Over every run of the engine the store stays sound and forgets nothing settled: a terminal status,
      a finished run, a remembered response and a delivered receipt survive every step and every crash. */
  lemma {:induction false} RunKeepsStore(s: State, taskIds: IdFactory, actions: seq<Action>)
    requires Sound(s.db) && Legal(s, taskIds, actions)
    ensures Sound(Run(s, taskIds, actions).db) && Follows(s.db, Run(s, taskIds, actions).db)
    decreases |actions|
  {
    hide Sound, Follows, Step, Enabled;
    if actions == [] {
      FollowsItself(s.db);
    } else {
      var next := Step(s, taskIds, actions[0]);
      StepKeepsStore(s, taskIds, actions[0]);
      RunKeepsStore(next, taskIds, actions[1..]);
      FollowsTransitive(s.db, next.db, Run(s, taskIds, actions).db);
    }
  }
}
