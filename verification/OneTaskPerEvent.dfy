/** One source event makes at most one task, and every answer it gets names that task
    (gateway/service.py, application/adapters.py). */
module OneTaskPerEvent {
  import opened Wrappers
  import opened Lifecycle
  import opened Events
  import opened GatewayModels
  import opened StoreModel
  import opened StoreRuns
  import opened StoreHistory
  import opened Gateway
  import opened Engine
  import AtMostOnce
  import Settlement
  import Workers
  import Runs

  // ---------------------------------------------------------------- accepted creations

  /** The stored task and route are what the submission asked for. */
  predicate Fulfils(db: Db, sub: Submission) {
    sub.id in db.tasks && Matches(db.tasks[sub.id].doc, sub) && RouteOf(db, sub.id) == sub.route
  }

  predicate SubmissionFits(taskIds: IdFactory, key: RequestKey, sub: Submission) {
    sub.id == taskIds(key) && (sub.route.Some? ==> sub.route.value.taskId == sub.id)
  }

  /** The history explains the task table: each task by exactly one accepted creation. */
  predicate AcceptedFits(db: Db, taskIds: IdFactory, accepted: seq<Orphan>) {
    && (forall i :: 0 <= i < |accepted| ==>
          SubmissionFits(taskIds, accepted[i].key, accepted[i].sub) && Fulfils(db, accepted[i].sub))
    && (forall i, j :: 0 <= i < j < |accepted| ==> accepted[i].sub.id != accepted[j].sub.id)
    && (forall t :: t in db.tasks ==> exists i :: 0 <= i < |accepted| && accepted[i].sub.id == t)
  }

  /** `b` has the tasks and routes of `a`, whatever else happened. */
  predicate SameTasks(a: Db, b: Db) {
    b.tasks.Keys == a.tasks.Keys && b.routes == a.routes && forall t :: t in a.tasks ==> SameIdentity(a.tasks[t].doc, b.tasks[t].doc)
  }

  lemma AcceptedStays(a: Db, b: Db, taskIds: IdFactory, accepted: seq<Orphan>)
    requires AcceptedFits(a, taskIds, accepted) && SameTasks(a, b)
    ensures AcceptedFits(b, taskIds, accepted)
  {
    forall i | 0 <= i < |accepted| ensures Fulfils(b, accepted[i].sub) {
      assert Fulfils(a, accepted[i].sub);
    }
  }

  /** `b` has one task more than `a`: the one submitted. */
  predicate AddsSubmitted(a: Db, b: Db, sub: Submission) {
    && sub.id !in a.tasks && b.tasks.Keys == a.tasks.Keys + {sub.id}
    && (forall t :: t in a.tasks ==> SameIdentity(a.tasks[t].doc, b.tasks[t].doc))
    && Matches(b.tasks[sub.id].doc, sub)
    && b.routes == (if sub.route.Some? then a.routes[sub.id := sub.route.value] else a.routes)
  }

  lemma FulfilledStays(a: Db, b: Db, sub: Submission, added: Submission)
    requires Fulfils(a, sub) && AddsSubmitted(a, b, added)
    ensures Fulfils(b, sub) && sub.id != added.id
  {
  }

  lemma NewlyFulfilled(a: Db, b: Db, sub: Submission)
    requires AddsSubmitted(a, b, sub) && sub.id !in a.routes
    requires sub.route.Some? ==> sub.route.value.taskId == sub.id
    ensures Fulfils(b, sub)
  {
  }

  lemma AcceptedGrows(a: Db, b: Db, taskIds: IdFactory, accepted: seq<Orphan>, o: Orphan)
    requires AcceptedFits(a, taskIds, accepted) && AddsSubmitted(a, b, o.sub) && SubmissionFits(taskIds, o.key, o.sub)
    requires forall t :: t in a.routes ==> t in a.tasks
    ensures AcceptedFits(b, taskIds, accepted + [o])
  {
    NewlyFulfilled(a, b, o.sub);
    assert b.tasks.Keys == a.tasks.Keys + {o.sub.id};
    hide Fulfils, AddsSubmitted, SubmissionFits;
    var after := accepted + [o];
    forall i | 0 <= i < |accepted| ensures Fulfils(b, accepted[i].sub) && accepted[i].sub.id != o.sub.id {
      FulfilledStays(a, b, accepted[i].sub, o.sub);
    }
    forall t | t in b.tasks ensures exists i :: 0 <= i < |after| && after[i].sub.id == t {
      if t in a.tasks {
        var i :| 0 <= i < |accepted| && accepted[i].sub.id == t;
        assert after[i].sub.id == t;
      } else {
        assert after[|accepted|].sub.id == t;
      }
    }
  }

  predicate Creates(op: Op) {
    op.OpCreate? || op.OpCreateQueued? || op.OpSaveRoute?
  }

  predicate SameTables(a: Db, b: Db) {
    b.tasks.Keys == a.tasks.Keys && b.routes == a.routes
  }

  lemma MoveSameTables(db: Db, id: TaskId, target: Status, e: Event)
    ensures SameTables(db, MoveTask(db, id, target, e).db)
  {
    hide TransitionTask, Lookup, LifecycleEventMatches;
  }

  lemma AssignSameTables(db: Db, id: TaskId, agent: Identifier, e: Event)
    ensures SameTables(db, AssignTask(db, id, agent, e).db)
  {
    hide ValidTask, Lookup;
  }

  lemma ObservationSameTables(db: Db, e: Event)
    ensures SameTables(db, AppendEvent(db, e).db)
  {
    hide Lookup;
  }

  lemma ReconcileSameTables(db: Db, at: Time, ids: TaskId -> EventId)
    ensures SameTables(db, ReconcileInterrupted(db, at, ids).db)
  {
    hide CanReconcile, InOrder, BlockedRow;
  }

  lemma QuietSameTables(db: Db, op: Op)
    requires Quiet(op) && !op.OpSaveRoute?
    ensures SameTables(db, After(db, op))
  {
    hide InOrder, Runs.ValidRun;
  }

  lemma SameKeys(db: Db, op: Op)
    requires !Creates(op)
    ensures SameTables(db, After(db, op))
  {
    hide MoveTask, AssignTask, AppendEvent, ReconcileInterrupted, SameTables;
    match op
    case OpMove(id, target, e) => MoveSameTables(db, id, target, e);
    case OpAssign(id, agent, e) => AssignSameTables(db, id, agent, e);
    case OpAppend(e) => ObservationSameTables(db, e);
    case OpReconcile(at, ids) => ReconcileSameTables(db, at, ids);
    case _ => QuietSameTables(db, op);
  }

  lemma OnlyCreationsAddTasks(db: Db, op: Op)
    requires Sound(db) && WellFormed(db, op) && !Creates(op)
    ensures SameTasks(db, After(db, op))
  {
    StepFollows(db, op);
    IdentityFollows(db, After(db, op));
    SameKeys(db, op);
    hide After, Follows, Sound, WellFormed;
  }

  lemma IdentityFollows(a: Db, b: Db)
    requires Follows(a, b)
    ensures forall t :: t in a.tasks ==> t in b.tasks && SameIdentity(a.tasks[t].doc, b.tasks[t].doc)
  {
    assert forall t :: t in a.tasks ==> TaskSettles(a.tasks[t].doc, b.tasks[t].doc);
  }

  /** A submission either changes nothing or adds exactly the task it asks for. */
  lemma SubmitAdds(db: Db, sub: Submission, g: Choice)
    requires Sound(db)
    ensures var o := Submit(db, sub, g);
            if o.result.Ok? then AddsSubmitted(db, o.db, sub) && o.result.value == o.db.tasks[sub.id].doc
            else o.db == db
  {
    hide Sound, Lookup, AppendLocked, LifecycleEventMatches, TransitionTask, ValidTask;
    if !g.storageFails {
      var task, created, queued := PendingTask(sub, g), CreatedEvent(sub, g), QueuedEvent(sub, g);
      var o := CreateQueuedTask(db, task, created, queued, sub.route);
      if o.result.Ok? {
        PendingIsValid(sub, g);
        CreateQueuedShape(db, task, created, queued, sub.route);
        TransitionKeepsAgents(task, Queued, queued.timestamp);
        SubmitFollows(db, sub, g);
        IdentityFollows(db, o.db);
      }
    }
  }

  lemma SubmitFollows(db: Db, sub: Submission, g: Choice)
    requires Sound(db)
    ensures Sound(Submit(db, sub, g).db) && Follows(db, Submit(db, sub, g).db)
  {
    hide Sound, Follows, CreateQueuedTask, ValidTask;
    PendingIsValid(sub, g);
    FollowsItself(db);
    var op := OpCreateQueued(PendingTask(sub, g), CreatedEvent(sub, g), QueuedEvent(sub, g), sub.route);
    StepSound(db, op);
    StepFollows(db, op);
  }

  /** With working storage and a clock that does not go back, a submission is refused exactly when its
      task exists. */
  lemma SubmitVerdict(db: Db, sub: Submission, g: Choice)
    requires Sound(db) && FreshPair(db, g) && !g.storageFails && g.at <= g.createdAt <= g.queuedAt
    requires sub.route.Some? ==> sub.route.value.taskId == sub.id
    ensures Submit(db, sub, g).result == Err(Duplicate) <==> sub.id in db.tasks
    ensures Submit(db, sub, g).result.Ok? <==> sub.id !in db.tasks
  {
    hide Lookup, LogOf, RowFits, UniqueIds, RunFits, ValidReceipt;
    var task, created, queued := PendingTask(sub, g), CreatedEvent(sub, g), QueuedEvent(sub, g);
    TransitionAcceptance(task, Queued, queued.timestamp);
    if sub.id !in db.tasks {
      var doc := TransitionTask(task, Queued, queued.timestamp).value;
      var first := db.(tasks := db.tasks[sub.id := NewRow(task, created)]);
      assert AppendLocked(first, created) == Ok(first.(events := db.events + [created]));
      StillFresh(db.events, created, queued.id);
      assert sub.id !in db.routes;
    }
  }

  // ---------------------------------------------------------------- requests in flight

  /** The response names the task of this key. */
  predicate NamesTask(db: Db, id: TaskId, response: Response) {
    response.code.Accepted? ==> response.task.Some? && response.task.value.taskId == id && id in db.tasks
  }

  predicate HandlerFits(db: Db, taskIds: IdFactory, h: Handler) {
    var id := taskIds(h.request.key);
    match h.pc
    case Submitting(sub) => SubmissionFits(taskIds, h.request.key, sub)
    case ComparingTask(sub) => SubmissionFits(taskIds, h.request.key, sub) && id in db.tasks
    case ComparingRoute(sub, existing) =>
      SubmissionFits(taskIds, h.request.key, sub) && id in db.tasks && SameIdentity(existing, db.tasks[id].doc)
    case Enqueueing(view) => view.taskId == id && id in db.tasks
    case EnqueueMove(task) => task.taskId == id && id in db.tasks
    case Remembering(response) => NamesTask(db, id, response)
    case _ => true
  }

  predicate AnswersFit(db: Db, taskIds: IdFactory) {
    forall k :: k in db.requests && db.requests[k].response.Some? ==>
      NamesTask(db, taskIds(k), db.requests[k].response.value)
  }

  lemma HandlerStays(a: Db, b: Db, taskIds: IdFactory, h: Handler)
    requires HandlerFits(a, taskIds, h) && Follows(a, b)
    ensures HandlerFits(b, taskIds, h)
  {
    IdentityFollows(a, b);
    hide Follows;
  }

  lemma AnswersStay(a: Db, b: Db, taskIds: IdFactory)
    requires AnswersFit(a, taskIds) && Follows(a, b) && b.requests == a.requests
    ensures AnswersFit(b, taskIds)
  {
    IdentityFollows(a, b);
    hide Follows;
  }

  lemma SubmitterAdvances(db: Db, teams: map<Identifier, Identifier>, taskIds: IdFactory, h: Handler, g: Choice)
    requires Sound(db) && HandlerFits(db, taskIds, h) && h.pc.Submitting?
    ensures var n := Gateway.Next(db, teams, taskIds, h.request, h.pc, g);
            HandlerFits(n.0, taskIds, h.(pc := n.1))
  {
    hide Sound, CreateQueuedTask;
    SubmitAdds(db, h.pc.sub, g);
    if !g.storageFails {
      DuplicateMeansKnown(db, PendingTask(h.pc.sub, g), CreatedEvent(h.pc.sub, g), QueuedEvent(h.pc.sub, g), h.pc.sub.route);
    }
  }

  lemma DuplicateMeansKnown(db: Db, task: Task, created: Event, queued: Event, route: Option<Route>)
    ensures CreateQueuedTask(db, task, created, queued, route).result == Err(Duplicate) ==> task.taskId in db.tasks
  {
    hide Lookup, LifecycleEventMatches, ValidTask;
  }

  lemma EnqueueMoves(db: Db, id: TaskId, e: Event)
    requires Sound(db) && id in db.tasks && Lookup(db.events, e.id).None?
    ensures var after := MoveTask(db, id, Queued, e);
            id in after.db.tasks && (after.result.Ok? ==> after.result.value.taskId == id)
  {
    hide Sound, MoveTask, Lookup, Follows;
    AtMostOnce.FreshMoveResult(db, id, Queued, e);
    StepSound(db, OpMove(id, Queued, e));
    StepFollows(db, OpMove(id, Queued, e));
    var after := MoveTask(db, id, Queued, e);
    IdentityFollows(db, after.db);
    TaskIdIsKey(after.db, id);
  }

  lemma EnqueuerAdvances(db: Db, teams: map<Identifier, Identifier>, taskIds: IdFactory, h: Handler, g: Choice)
    requires Sound(db) && HandlerFits(db, taskIds, h) && h.pc.EnqueueMove? && FreshPair(db, g)
    ensures var n := Gateway.Next(db, teams, taskIds, h.request, h.pc, g);
            HandlerFits(n.0, taskIds, h.(pc := n.1))
  {
    hide Sound, MoveTask, Lookup;
    EnqueueMoves(db, h.pc.task.taskId, CommandEvent(h.pc.task, Queued, g));
  }

  lemma OthersAdvance(db: Db, teams: map<Identifier, Identifier>, taskIds: IdFactory, h: Handler, g: Choice)
    requires HandlerFits(db, taskIds, h) && !h.pc.Submitting? && !h.pc.EnqueueMove? && AnswersQuery(g.answer)
    requires forall t :: t in db.tasks ==> db.tasks[t].doc.taskId == t
    ensures HandlerFits(db, taskIds, h.(pc := Gateway.Next(db, teams, taskIds, h.request, h.pc, g).1))
  {
    hide Move, ReserveRequest, RememberResponse, ReleaseRequest;
  }

  lemma RequestStepFollows(db: Db, teams: map<Identifier, Identifier>, taskIds: IdFactory, r: Request,
      pc: Gateway.Pc, g: Choice)
    requires Sound(db)
    ensures Follows(db, Gateway.Next(db, teams, taskIds, r, pc, g).0)
  {
    hide Sound, Gateway.Next, HandlerOp, After, Follows, WellFormed;
    HandlerUsesTransactions(db, teams, taskIds, r, pc, g);
    FollowsItself(db);
    var op := HandlerOp(pc, r, g);
    if op.Some? {
      StepFollows(db, op.value);
    }
  }

  lemma HandlerAdvances(db: Db, teams: map<Identifier, Identifier>, taskIds: IdFactory, h: Handler, g: Choice)
    requires Sound(db) && HandlerFits(db, taskIds, h) && FreshPair(db, g) && AnswersQuery(g.answer)
    ensures var n := Gateway.Next(db, teams, taskIds, h.request, h.pc, g);
            HandlerFits(n.0, taskIds, h.(pc := n.1))
  {
    hide HandlerFits, Sound, Lookup, Gateway.Next, Follows;
    if h.pc.Submitting? {
      SubmitterAdvances(db, teams, taskIds, h, g);
    } else if h.pc.EnqueueMove? {
      EnqueuerAdvances(db, teams, taskIds, h, g);
    } else {
      TaskIdsAreKeys(db);
      OthersAdvance(db, teams, taskIds, h, g);
      RequestStepFollows(db, teams, taskIds, h.request, h.pc, g);
      var n := Gateway.Next(db, teams, taskIds, h.request, h.pc, g);
      HandlerStays(db, n.0, taskIds, h.(pc := n.1));
    }
  }

  // ---------------------------------------------------------------- reservations

  predicate OpenFor(db: Db, key: RequestKey) {
    key in db.requests && db.requests[key].response.None?
  }

  predicate SameClaim(a: Handler, b: Handler) {
    Owns(a.pc) && Owns(b.pc) && a.request.key == b.request.key
  }

  /** Every request being served owns the open reservation of its key, alone. */
  predicate Reservations(db: Db, handlers: map<nat, Handler>) {
    && (forall h :: h in handlers && Owns(handlers[h].pc) ==> OpenFor(db, handlers[h].request.key))
    && (forall a, b :: a in handlers && b in handlers && SameClaim(handlers[a], handlers[b]) ==> a == b)
  }

  predicate WritesRequests(pc: Gateway.Pc) {
    pc.Reserving? || pc.Remembering? || pc.Releasing?
  }

  lemma OtherStepsKeepRequests(db: Db, teams: map<Identifier, Identifier>, taskIds: IdFactory, r: Request,
      pc: Gateway.Pc, g: Choice)
    requires !WritesRequests(pc)
    ensures var n := Gateway.Next(db, teams, taskIds, r, pc, g);
            n.0.requests == db.requests && (Owns(n.1) ==> Owns(pc))
  {
    hide CreateQueuedTask, MoveTask, ReserveRequest, RememberResponse, ReleaseRequest, PendingTask, CreatedEvent, QueuedEvent, CommandEvent;
    match pc
    case Submitting(sub) =>
      CreateQueuedAdds(db, PendingTask(sub, g), CreatedEvent(sub, g), QueuedEvent(sub, g), sub.route);
    case EnqueueMove(task) => MoveAdds(db, task.taskId, Queued, CommandEvent(task, Queued, g));
    case StopMove(task) => MoveAdds(db, task.taskId, Cancelled, CommandEvent(task, Cancelled, g));
    case _ =>
  }

  /** How the request table may change in a request's own step. */
  ghost predicate OwnRowOnly(db: Db, b: Db, h: Handler) {
    var k := h.request.key;
    || b.requests == db.requests
    || (h.pc.Reserving? && k !in db.requests && exists at :: b.requests == db.requests[k := RequestRow(None, at)])
    || (h.pc.Releasing? && b.requests == db.requests - {k})
    || (h.pc.Remembering? && OpenFor(db, k) && b.requests == db.requests[k := db.requests[k].(response := Some(h.pc.response))])
  }

  /** A request's step touches the reservation of its own key only, and afterwards serves that key only
      while the reservation is open. */
  lemma OwnReservation(db: Db, teams: map<Identifier, Identifier>, taskIds: IdFactory, h: Handler, g: Choice)
    requires Owns(h.pc) ==> OpenFor(db, h.request.key)
    ensures var n := Gateway.Next(db, teams, taskIds, h.request, h.pc, g);
            && OwnRowOnly(db, n.0, h)
            && (Owns(n.1) ==> OpenFor(n.0, h.request.key))
            && (Owns(n.1) && !Owns(h.pc) ==> h.request.key !in db.requests)
  {
    if WritesRequests(h.pc) {
      hide CreateQueuedTask, MoveTask, Submit, Move;
    } else {
      OtherStepsKeepRequests(db, teams, taskIds, h.request, h.pc, g);
      hide Gateway.Next;
    }
  }

  lemma ReservationsAdvance(db: Db, teams: map<Identifier, Identifier>, taskIds: IdFactory, handlers: map<nat,
      Handler>, h: nat, g: Choice)
    requires Reservations(db, handlers) && h in handlers
    ensures var n := Gateway.Next(db, teams, taskIds, handlers[h].request, handlers[h].pc, g);
            Reservations(n.0, handlers[h := handlers[h].(pc := n.1)])
  {
    hide Gateway.Next;
    OwnReservation(db, teams, taskIds, handlers[h], g);
    var n := Gateway.Next(db, teams, taskIds, handlers[h].request, handlers[h].pc, g);
    var after := handlers[h := handlers[h].(pc := n.1)];
    forall a | a in handlers && a != h && Owns(handlers[a].pc) && Owns(n.1)
      ensures handlers[a].request.key != handlers[h].request.key
    {
      assert !SameClaim(handlers[a], handlers[h]);
    }
    forall a | a in handlers && a != h && Owns(handlers[a].pc) ensures OpenFor(n.0, handlers[a].request.key) {
      assert !SameClaim(handlers[a], handlers[h]);
    }
    forall a, b | a in after && b in after && SameClaim(after[a], after[b]) ensures a == b {
      assert a != h && b != h ==> SameClaim(handlers[a], handlers[b]);
    }
  }

  lemma AnswersAdvance(db: Db, teams: map<Identifier, Identifier>, taskIds: IdFactory, h: Handler, g: Choice)
    requires AnswersFit(db, taskIds) && HandlerFits(db, taskIds, h) && (Owns(h.pc) ==> OpenFor(db, h.request.key))
    requires Follows(db, Gateway.Next(db, teams, taskIds, h.request, h.pc, g).0)
    ensures AnswersFit(Gateway.Next(db, teams, taskIds, h.request, h.pc, g).0, taskIds)
  {
    hide Gateway.Next, Follows;
    var after := Gateway.Next(db, teams, taskIds, h.request, h.pc, g).0;
    OwnReservation(db, teams, taskIds, h, g);
    IdentityFollows(db, after);
    assert h.pc.Remembering? ==> NamesTask(db, taskIds(h.request.key), h.pc.response);
  }

  // ---------------------------------------------------------------- every step of the engine

  predicate OrphansFit(taskIds: IdFactory, orphans: set<Orphan>) {
    forall o :: o in orphans ==> SubmissionFits(taskIds, o.key, o.sub)
  }

  predicate HandlersFit(db: Db, taskIds: IdFactory, handlers: map<nat, Handler>) {
    forall h :: h in handlers ==> HandlerFits(db, taskIds, handlers[h])
  }

  ghost predicate Inv(s: State, taskIds: IdFactory) {
    && Sound(s.db)
    && AcceptedFits(s.db, taskIds, s.accepted)
    && HandlersFit(s.db, taskIds, s.handlers) && OrphansFit(taskIds, s.orphans)
    && AnswersFit(s.db, taskIds)
    && Reservations(s.db, s.handlers)
  }

  lemma HandlersStay(a: Db, b: Db, taskIds: IdFactory, handlers: map<nat, Handler>)
    requires HandlersFit(a, taskIds, handlers) && Follows(a, b)
    ensures HandlersFit(b, taskIds, handlers)
  {
    hide HandlerFits, Follows;
    forall h | h in handlers ensures HandlerFits(b, taskIds, handlers[h]) {
      HandlerStays(a, b, taskIds, handlers[h]);
    }
  }

  /** A creation, by a live request or by an orphaned thread, keeps the history exact. */
  lemma CreationAccepted(s: State, taskIds: IdFactory, o: Orphan, g: Choice)
    requires Sound(s.db) && AcceptedFits(s.db, taskIds, s.accepted) && SubmissionFits(taskIds, o.key, o.sub)
    ensures var after := Submit(s.db, o.sub, g).db; AcceptedFits(after, taskIds, Accept(s, after, o))
  {
    hide AcceptedFits, SubmissionFits, Submit, LogOf, RowFits, UniqueIds, RunFits, ValidReceipt;
    SubmitAdds(s.db, o.sub, g);
    var after := Submit(s.db, o.sub, g).db;
    if after != s.db {
      AcceptedGrows(s.db, after, taskIds, s.accepted, o);
    }
  }

  lemma OtherRequestsAddNothing(db: Db, teams: map<Identifier, Identifier>, taskIds: IdFactory, r: Request,
      pc: Gateway.Pc, g: Choice)
    requires Sound(db) && !pc.Submitting?
    ensures SameTasks(db, Gateway.Next(db, teams, taskIds, r, pc, g).0)
  {
    HandlerUsesTransactions(db, teams, taskIds, r, pc, g);
    SameTasksItself(db);
    var op := HandlerOp(pc, r, g);
    hide Gateway.Next, SameTasks, After, WellFormed, Sound;
    if op.Some? {
      OnlyCreationsAddTasks(db, op.value);
    }
  }

  lemma SubmitterCommits(db: Db, teams: map<Identifier, Identifier>, taskIds: IdFactory, r: Request, sub: Submission,
      g: Choice)
    ensures Gateway.Next(db, teams, taskIds, r, Gateway.Submitting(sub), g).0 == Submit(db, sub, g).db
  {
    hide Submit;
  }

  lemma HandlerAccepted(s: State, taskIds: IdFactory, h: nat, g: Choice)
    requires Inv(s, taskIds) && Enabled(s, Handle(h, g))
    ensures var n := HandlerNext(s, taskIds, h, g); AcceptedFits(n.db, taskIds, n.accepted)
  {
    var handler := s.handlers[h];
    assert HandlerFits(s.db, taskIds, handler);
    assert handler.pc.Submitting? ==> SubmissionFits(taskIds, handler.request.key, handler.pc.sub);
    hide Sound, AcceptedFits, Reservations, AnswersFit, HandlersFit, HandlerFits, SubmissionFits, Lookup, Gateway.Next, SameTasks, Submit;
    if handler.pc.Submitting? {
      SubmitterCommits(s.db, s.teams, taskIds, handler.request, handler.pc.sub, g);
      CreationAccepted(s, taskIds, Orphan(handler.request.key, handler.pc.sub), g);
    } else {
      OtherRequestsAddNothing(s.db, s.teams, taskIds, handler.request, handler.pc, g);
      AcceptedStays(s.db, HandlerNext(s, taskIds, h, g).db, taskIds, s.accepted);
    }
  }

  lemma SameTasksItself(db: Db)
    ensures SameTasks(db, db)
  {
  }

  lemma HandleKeepsInv(s: State, taskIds: IdFactory, h: nat, g: Choice)
    requires Inv(s, taskIds) && Enabled(s, Handle(h, g))
    ensures Inv(Step(s, taskIds, Handle(h, g)), taskIds)
  {
    hide Sound, AcceptedFits, AnswersFit, Reservations, HandlerFits, Gateway.Next, Lookup, Follows;
    var handler := s.handlers[h];
    StepKeepsStore(s, taskIds, Handle(h, g));
    HandlerAccepted(s, taskIds, h, g);
    HandlerAdvances(s.db, s.teams, taskIds, handler, g);
    ReservationsAdvance(s.db, s.teams, taskIds, s.handlers, h, g);
    OwnerIsOpen(s, taskIds, h);
    AnswersAdvance(s.db, s.teams, taskIds, handler, g);
    HandlersStay(s.db, Step(s, taskIds, Handle(h, g)).db, taskIds, s.handlers);
  }

  lemma OwnerIsOpen(s: State, taskIds: IdFactory, h: nat)
    requires Inv(s, taskIds) && h in s.handlers
    ensures Owns(s.handlers[h].pc) ==> OpenFor(s.db, s.handlers[h].request.key)
  {
    hide Sound, AcceptedFits, AnswersFit, HandlerFits;
  }

  lemma OrphanKeepsInv(s: State, taskIds: IdFactory, o: Orphan, g: Choice)
    requires Inv(s, taskIds) && Enabled(s, OrphanCommits(o, g))
    ensures Inv(Step(s, taskIds, OrphanCommits(o, g)), taskIds)
  {
    hide Sound, AcceptedFits, AnswersFit, HandlerFits, CreateQueuedTask, Lookup, Follows, SubmissionFits;
    CreationAccepted(s, taskIds, o, g);
    StepKeepsStore(s, taskIds, OrphanCommits(o, g));
    var after := Submit(s.db, o.sub, g).db;
    HandlersStay(s.db, after, taskIds, s.handlers);
    CreateQueuedAdds(s.db, PendingTask(o.sub, g), CreatedEvent(o.sub, g), QueuedEvent(o.sub, g), o.sub.route);
    AnswersStay(s.db, after, taskIds);
  }

  /** The flight list loses requests, gains a fresh one, or sends one to give its reservation up. */
  lemma InterruptKeepsInv(s: State, taskIds: IdFactory, a: Action)
    requires Inv(s, taskIds) && Enabled(s, a) && (a.Interrupt? || a.Drop? || a.Arrive? || a.Crash? || a.Poll? || a.Kill?)
    ensures Inv(Step(s, taskIds, a), taskIds)
  {
    hide Sound, AcceptedFits, AnswersFit;
    if a.Interrupt? {
      hide Reservations, OpenFor, HandlerFits, HandlersFit, OrphansFit;
      InterruptedReservations(s, a.handler, a.leavesOrphan);
      InterruptedFits(s, taskIds, a.handler, a.leavesOrphan);
    }
  }

  lemma InterruptedReservations(s: State, h: nat, leavesOrphan: bool)
    requires Reservations(s.db, s.handlers) && h in s.handlers
    ensures Reservations(s.db, Interrupted(s, h, leavesOrphan).handlers)
  {
    var after := Interrupted(s, h, leavesOrphan).handlers;
    forall a, b | a in after && b in after && SameClaim(after[a], after[b]) ensures a == b {
      assert SameClaim(s.handlers[a], s.handlers[b]);
    }
  }

  lemma InterruptedFits(s: State, taskIds: IdFactory, h: nat, leavesOrphan: bool)
    requires HandlersFit(s.db, taskIds, s.handlers) && OrphansFit(taskIds, s.orphans) && h in s.handlers
    ensures var n := Interrupted(s, h, leavesOrphan);
            HandlersFit(n.db, taskIds, n.handlers) && OrphansFit(taskIds, n.orphans)
  {
    assert HandlerFits(s.db, taskIds, s.handlers[h]);
  }

  lemma DeliveryKeeps(db: Db, op: Op)
    requires IsReceiptOp(op)
    ensures After(db, op).requests == db.requests
  {
  }

  lemma ElsewhereKeepsInv(s: State, taskIds: IdFactory, a: Action)
    requires Inv(s, taskIds) && Enabled(s, a)
    requires a.Work? || a.Delivery? || a.Reconcile? || a.ReconcileAnswers? || a.ReconcileReceipts?
    ensures Inv(Step(s, taskIds, a), taskIds)
  {
    var after := Step(s, taskIds, a);
    EngineUsesTransactions(s, taskIds, a);
    StepKeepsStore(s, taskIds, a);
    NoCreationElsewhere(s, a);
    RequestsElsewhere(s, taskIds, a);
    hide Sound, Follows, ActionOp, After, WellFormed, SameTasks, AcceptedFits, HandlersFit, AnswersFit, Reservations, Enabled, Step;
    var op := ActionOp(s, a);
    if op.Some? {
      OnlyCreationsAddTasks(s.db, op.value);
    } else {
      SameTasksItself(s.db);
    }
    AcceptedStays(s.db, after.db, taskIds, s.accepted);
    HandlersStay(s.db, after.db, taskIds, s.handlers);
    RestStays(s, after, taskIds);
  }

  /** Away from the requests the flight list and the history stand still, and the request table loses
      open reservations at most, while nobody owns one. */
  ghost predicate RequestsStay(s: State, after: State) {
    && after.handlers == s.handlers && after.orphans == s.orphans && after.accepted == s.accepted
    && (after.db.requests == s.db.requests ||
        (s.handlers == map[] && after.db.requests == s.db.requests - OpenRequests(s.db)))
  }

  lemma NoCreationElsewhere(s: State, a: Action)
    requires a.Work? || (a.Delivery? && IsReceiptOp(a.op)) || a.Reconcile? || a.ReconcileAnswers? || a.ReconcileReceipts?
    ensures ActionOp(s, a).Some? ==> !Creates(ActionOp(s, a).value)
  {
  }

  lemma RequestsElsewhere(s: State, taskIds: IdFactory, a: Action)
    requires Enabled(s, a)
    requires a.Work? || a.Delivery? || a.Reconcile? || a.ReconcileAnswers? || a.ReconcileReceipts?
    ensures RequestsStay(s, Step(s, taskIds, a))
  {
    hide Workers.Next, InOrder, ReconcileInterrupted, Settlement.OpOf, Settlement.AfterOption, OpenRequests, FreshIds, Lookup, After;
    match a
    case Work(w, c) =>
      Settlement.WorkerUsesTransactions(s.db, s.developer, s.workers[w].id, s.workers[w].pc, c);
      WorkersKeepRequests(s.db, s.workers[w].pc, c);
    case Reconcile(at, ids) => ReconcileKeepsRequests(s.db, at, ids);
    case Delivery(op) => DeliveryKeeps(s.db, op);
    case _ =>
  }

  lemma ReconcileKeepsRequests(db: Db, at: Time, ids: TaskId -> EventId)
    ensures ReconcileInterrupted(db, at, ids).db.requests == db.requests
  {
    LoudKeeps(db, OpReconcile(at, ids));
    hide ReconcileInterrupted;
  }

  lemma WorkersKeepRequests(db: Db, pc: Workers.Pc, c: Workers.Choice)
    ensures Settlement.AfterOption(db, Settlement.OpOf(pc, c)).requests == db.requests
  {
    var op := Settlement.OpOf(pc, c);
    if op.Some? && !Quiet(op.value) {
      LoudKeeps(db, op.value);
      hide After;
    } else {
      hide Runs.ValidRun;
    }
  }

  lemma RestStays(s: State, after: State, taskIds: IdFactory)
    requires Reservations(s.db, s.handlers) && AnswersFit(s.db, taskIds) && RequestsStay(s, after) && Follows(s.db, after.db)
    ensures Reservations(after.db, after.handlers) && AnswersFit(after.db, taskIds)
  {
    IdentityFollows(s.db, after.db);
    hide Follows;
  }

  lemma StepKeepsInv(s: State, taskIds: IdFactory, a: Action)
    requires Inv(s, taskIds) && Enabled(s, a)
    ensures Inv(Step(s, taskIds, a), taskIds)
  {
    hide Inv, Step, Enabled;
    match a
    case Handle(h, g) => HandleKeepsInv(s, taskIds, h, g);
    case OrphanCommits(o, g) => OrphanKeepsInv(s, taskIds, o, g);
    case Work(_, _) => ElsewhereKeepsInv(s, taskIds, a);
    case Delivery(_) => ElsewhereKeepsInv(s, taskIds, a);
    case Reconcile(_, _) => ElsewhereKeepsInv(s, taskIds, a);
    case ReconcileAnswers => ElsewhereKeepsInv(s, taskIds, a);
    case ReconcileReceipts => ElsewhereKeepsInv(s, taskIds, a);
    case _ => InterruptKeepsInv(s, taskIds, a);
  }

  lemma {:induction false} RunKeepsInv(s: State, taskIds: IdFactory, actions: seq<Action>)
    requires Inv(s, taskIds) && Legal(s, taskIds, actions)
    ensures Inv(Run(s, taskIds, actions), taskIds)
    decreases |actions|
  {
    hide Inv, Step, Enabled;
    if actions != [] {
      StepKeepsInv(s, taskIds, actions[0]);
      RunKeepsInv(Step(s, taskIds, actions[0]), taskIds, actions[1..]);
    }
  }

  // ---------------------------------------------------------------- main results

  lemma BootIsFit(developer: Workers.Chooser, teams: map<Identifier, Identifier>, taskIds: IdFactory)
    ensures Inv(Boot(developer, teams), taskIds)
  {
    EmptyStoreIsSound();
    hide Sound;
  }

  lemma KeysOnce(db: Db, taskIds: IdFactory, accepted: seq<Orphan>)
    requires AcceptedFits(db, taskIds, accepted)
    ensures forall i, j :: 0 <= i < j < |accepted| ==> accepted[i].key != accepted[j].key
  {
    forall i, j | 0 <= i < j < |accepted| ensures accepted[i].key != accepted[j].key {
      assert accepted[i].sub.id == taskIds(accepted[i].key) && accepted[j].sub.id == taskIds(accepted[j].key);
    }
  }

  /** From an empty store, over every interleaving of duplicate deliveries, interruptions, storage
      failures, crashes and restarts: each key has at most one accepted creation, every task is the one
      its key was accepted for and was announced as created exactly once, every answer that says
      accepted names its key's task, and no two requests ever serve one key together. */
  lemma OneTaskPerKey(developer: Workers.Chooser, teams: map<Identifier, Identifier>, taskIds: IdFactory,
      actions: seq<Action>)
    requires Legal(Boot(developer, teams), taskIds, actions)
    ensures var s := Run(Boot(developer, teams), taskIds, actions);
            && AcceptedFits(s.db, taskIds, s.accepted)
            && (forall i, j :: 0 <= i < j < |s.accepted| ==> s.accepted[i].key != s.accepted[j].key)
            && (forall t :: t in s.db.tasks ==> CreatedCount(LogOf(s.db.events, t)) == 1)
            && AnswersFit(s.db, taskIds)
            && Reservations(s.db, s.handlers)
  {
    BootIsFit(developer, teams, taskIds);
    hide Run, Legal, AcceptedFits, AnswersFit, Reservations, HandlersFit, OrphansFit, LogOf, CreatedCount;
    RunKeepsInv(Boot(developer, teams), taskIds, actions);
    var s := Run(Boot(developer, teams), taskIds, actions);
    KeysOnce(s.db, taskIds, s.accepted);
    hide UniqueIds, ForeignKeys, RunFits;
    forall t | t in s.db.tasks ensures CreatedCount(LogOf(s.db.events, t)) == 1 {
      assert RowFits(t, s.db.tasks[t], LogOf(s.db.events, t));
      OneCreation(OwnerOf(s.db.tasks[t].doc), LogOf(s.db.events, t));
    }
  }

  /** The creation accepted for this key. */
  predicate IsAccepted(s: State, key: RequestKey, sub: Submission) {
    exists i :: 0 <= i < |s.accepted| && s.accepted[i].key == key && s.accepted[i].sub == sub
  }

  /** A key no creation was accepted for collides with none of the accepted ones. */
  predicate NoCollision(s: State, taskIds: IdFactory, key: RequestKey) {
    forall i :: 0 <= i < |s.accepted| && taskIds(s.accepted[i].key) == taskIds(key) ==> s.accepted[i].key == key
  }

  /** Submitting with working storage and clock: the first submission of a key makes its task, any later
      one, by a duplicate, a retry after a crash or beside an orphaned thread, goes on to compare. */
  lemma SubmissionOutcome(s: State, taskIds: IdFactory, h: nat, g: Choice)
    requires Inv(s, taskIds) && h in s.handlers && s.handlers[h].pc.Submitting? && FreshPair(s.db, g)
    requires NoCollision(s, taskIds, s.handlers[h].request.key)
    requires !g.storageFails && g.at <= g.createdAt <= g.queuedAt
    ensures var r := s.handlers[h].request;
            var sub := s.handlers[h].pc.sub;
            var n := Gateway.Next(s.db, s.teams, taskIds, r, s.handlers[h].pc, g);
            if exists i :: 0 <= i < |s.accepted| && s.accepted[i].key == r.key
            then n == (s.db, ComparingTask(sub))
            else n.1.Enqueueing? && n.1.view.taskId == sub.id && AddsSubmitted(s.db, n.0, sub)
  {
    hide Sound, Lookup, CreateQueuedTask, Reservations, AnswersFit, Fulfils;
    var handler := s.handlers[h];
    var sub := handler.pc.sub;
    assert HandlerFits(s.db, taskIds, handler);
    SubmitVerdict(s.db, sub, g);
    SubmitAdds(s.db, sub, g);
    if sub.id in s.db.tasks {
      var i :| 0 <= i < |s.accepted| && s.accepted[i].sub.id == sub.id;
      assert s.accepted[i].key == handler.request.key;
    } else {
      forall i | 0 <= i < |s.accepted| ensures s.accepted[i].key != handler.request.key {
        assert Fulfils(s.db, s.accepted[i].sub);
        TaskOfFulfilled(s.db, s.accepted[i].sub);
      }
    }
  }

  lemma TaskOfFulfilled(db: Db, sub: Submission)
    requires Fulfils(db, sub)
    ensures sub.id in db.tasks
  {
  }

  /** The comparison then lets through exactly the request that was accepted before, field for field and
      with the same route, with that task's view; any other request under the key becomes a conflict. */
  lemma RetryVerdict(s: State, taskIds: IdFactory, h: nat, g: Choice)
    requires Inv(s, taskIds) && h in s.handlers && s.handlers[h].pc.ComparingRoute? && !g.storageFails
    requires NoCollision(s, taskIds, s.handlers[h].request.key)
    ensures var r := s.handlers[h].request;
            var sub := s.handlers[h].pc.sub;
            var next := Gateway.Next(s.db, s.teams, taskIds, r, s.handlers[h].pc, g).1;
            if IsAccepted(s, r.key, sub) then next.Enqueueing? && next.view.taskId == taskIds(r.key)
            else next == Remembering(Plain(CodeConflict))
  {
    hide Sound, Reservations, AnswersFit;
    var handler := s.handlers[h];
    var sub, existing := handler.pc.sub, handler.pc.existing;
    assert HandlerFits(s.db, taskIds, handler);
    var i :| 0 <= i < |s.accepted| && s.accepted[i].sub.id == sub.id;
    assert s.accepted[i].key == handler.request.key;
    var was := s.accepted[i].sub;
    assert Fulfils(s.db, was);
    assert Matches(existing, sub) && RouteOf(s.db, sub.id) == sub.route <==> was == sub;
    if IsAccepted(s, handler.request.key, sub) {
      var j :| 0 <= j < |s.accepted| && s.accepted[j].key == handler.request.key && s.accepted[j].sub == sub;
      assert i == j;
    }
  }

  /** An owner can always record its answer: with working storage the answer is stored as given. */
  lemma OwnerRecordsItsAnswer(s: State, taskIds: IdFactory, h: nat, g: Choice)
    requires Inv(s, taskIds) && h in s.handlers && s.handlers[h].pc.Remembering? && !g.storageFails
    ensures var r := s.handlers[h].request;
            var response := s.handlers[h].pc.response;
            var n := Gateway.Next(s.db, s.teams, taskIds, r, s.handlers[h].pc, g);
            n.1 == Answered(response) && r.key in n.0.requests && n.0.requests[r.key].response == Some(response)
  {
    hide Sound, AcceptedFits, AnswersFit, HandlersFit;
    assert OpenFor(s.db, s.handlers[h].request.key);
  }
}
