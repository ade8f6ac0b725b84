/** What holds in every reachable store, and exactly when replaying the log agrees with it. */
module StoreRuns {
  import opened Wrappers
  import opened Lifecycle
  import opened Events
  import opened Projections
  import opened GatewayModels
  import opened StoreModel
  import Runs

  /** One transaction of the store with its arguments. */
  datatype Op =
    | OpCreate(task: Task, created: Event)
    | OpCreateQueued(task: Task, created: Event, queued: Event, route: Option<Route>)
    | OpMove(id: TaskId, target: Status, e: Event)
    | OpAssign(id: TaskId, agent: Identifier, e: Event)
    | OpAppend(e: Event)
    | OpCreateRun(run: Runs.Run)
    | OpStartRun(runId: Runs.RunId, at: Time)
    | OpFinishRun(runId: Runs.RunId, outcome: Runs.Status, at: Time, exitCode: Option<int>, errorCode: Option<string>)
    | OpReserveRequest(key: RequestKey, at: Time)
    | OpRemember(key: RequestKey, response: Response)
    | OpReleaseRequest(key: RequestKey)
    | OpReconcileRequests
    | OpSaveRoute(newRoute: Route)
    | OpReserveDelivery(delivery: DeliveryId, at: Time)
    | OpMarkDelivered(delivery: DeliveryId, at: Time)
    | OpReleaseDelivery(delivery: DeliveryId)
    | OpReconcileDeliveries
    | OpReconcile(at: Time, ids: TaskId -> EventId)

  ghost function After(db: Db, op: Op): Db {
    match op
    case OpCreate(task, e) => CreateTask(db, task, e).db
    case OpCreateQueued(task, c, q, route) => CreateQueuedTask(db, task, c, q, route).db
    case OpMove(id, target, e) => MoveTask(db, id, target, e).db
    case OpAssign(id, agent, e) => AssignTask(db, id, agent, e).db
    case OpAppend(e) => AppendEvent(db, e).db
    case OpCreateRun(run) => CreateRun(db, run).db
    case OpStartRun(id, at) => StartRun(db, id, at).db
    case OpFinishRun(id, status, at, exit, error) => FinishRun(db, id, status, at, exit, error).db
    case OpReserveRequest(key, at) => ReserveRequest(db, key, at).db
    case OpRemember(key, response) => RememberResponse(db, key, response).db
    case OpReleaseRequest(key) => ReleaseRequest(db, key).db
    case OpReconcileRequests => ReconcileRequests(db).db
    case OpSaveRoute(route) => SaveRoute(db, route).db
    case OpReserveDelivery(id, at) => ReserveDelivery(db, id, at).db
    case OpMarkDelivered(id, at) => MarkDelivered(db, id, at).db
    case OpReleaseDelivery(id) => ReleaseDelivery(db, id).db
    case OpReconcileDeliveries => ReconcileDeliveries(db).db
    case OpReconcile(at, ids) => ReconcileInterrupted(db, at, ids).db
  }

  /** Records are validated when they are built, and the ids minted inside a transaction are new. */
  ghost predicate WellFormed(db: Db, op: Op) {
    match op
    case OpCreate(task, _) => ValidTask(task)
    case OpCreateQueued(task, _, _, _) => ValidTask(task)
    case OpCreateRun(run) => Runs.ValidRun(run)
    case OpReconcile(_, ids) => FreshIds(db, ids)
    case _ => true
  }

  ghost function Final(db: Db, ops: seq<Op>): Db
    decreases |ops|
  {
    if ops == [] then db else Final(After(db, ops[0]), ops[1..])
  }

  ghost predicate WellFormedRun(db: Db, ops: seq<Op>)
    decreases |ops|
  {
    ops == [] || (WellFormed(db, ops[0]) && WellFormedRun(After(db, ops[0]), ops[1..]))
  }

  // ---------------------------------------------------------------- invariant

  predicate AgentsTail(all: seq<Identifier>, logged: seq<Identifier>) {
    |logged| <= |all| && all[|all| - |logged|..] == logged
  }

  /** The columns repeat the document, and document, version and update time repeat the log. */
  predicate RowFits(id: TaskId, row: TaskRow, log: seq<Event>) {
    && row.doc.taskId == id && ValidTask(row.doc)
    && row.status == row.doc.status && row.project == row.doc.project && row.team == row.doc.team
    && row.createdAt == row.doc.createdAt
    && Story(OwnerOf(row.doc), log)
    && row.status == LogStatus(log)
    && row.version == AtomicCount(log)
    && row.updatedAt == LastAtomicTime(log)
    && AgentsTail(row.doc.agents, Assigned(log))
  }

  predicate ForeignKeys(db: Db) {
    && (forall e :: e in db.events && e.taskId.Some? ==> e.taskId.value in db.tasks)
    && (forall r :: r in db.runs ==> db.runs[r].doc.taskId in db.tasks)
    && (forall t :: t in db.routes ==> t in db.tasks && db.routes[t].taskId == t)
  }

  predicate RunFits(id: Runs.RunId, row: RunRow) {
    row.doc.runId == id && row.status == row.doc.status && Runs.ValidRun(row.doc)
  }

  predicate Sound(db: Db) {
    && UniqueIds(db.events)
    && ForeignKeys(db)
    && (forall t :: t in db.tasks ==> RowFits(t, db.tasks[t], LogOf(db.events, t)))
    && (forall r :: r in db.runs ==> RunFits(r, db.runs[r]))
    && (forall d :: d in db.receipts ==> ValidReceipt(db.receipts[d]))
  }

  /** Replaying the task's stored events gives its stored status and agents. */
  predicate Agrees(db: Db, id: TaskId)
    requires id in db.tasks
  {
    var doc := db.tasks[id].doc;
    match Replay(LogOf(db.events, id))
    case Err(_) => false
    case Ok(p) =>
      p.taskId == id && p.project == doc.project && p.team == doc.team && p.status == doc.status && p.agents == doc.agents
  }

  predicate AllAgree(db: Db) {
    forall t :: t in db.tasks ==> Agrees(db, t)
  }

  predicate Faithful(db: Db, id: TaskId)
    requires id in db.tasks
  {
    var log, doc := LogOf(db.events, id), db.tasks[id].doc;
    Monotone(log) && AllInContext(OwnerOf(doc), log) && doc.agents == Assigned(log)
  }

  /** In a sound store a task and its replay agree exactly when its log never goes back in time, its
      observations stay in context, and every agent it lists was assigned through the log. */
  lemma AgreementExact(db: Db, id: TaskId)
    requires Sound(db) && id in db.tasks
    ensures Agrees(db, id) <==> Faithful(db, id)
  {
    var log := LogOf(db.events, id);
    LogOfUnique(db.events, id);
    assert RowFits(id, db.tasks[id], log);
    ReplayExact(OwnerOf(db.tasks[id].doc), log);
  }

  lemma AllAgreementExact(db: Db)
    requires Sound(db)
    ensures AllAgree(db) <==> forall t :: t in db.tasks ==> Faithful(db, t)
  {
    forall t | t in db.tasks ensures Agrees(db, t) <==> Faithful(db, t) {
      AgreementExact(db, t);
    }
  }

  // ---------------------------------------------------------------- discipline

  predicate NotBefore(db: Db, id: TaskId, at: Time) {
    var log := LogOf(db.events, id);
    log == [] || Last(log).timestamp <= at
  }

  /** What a caller can check before the call: the event is not older than the task's last one, a new
      task carries no agents, an observation names its task's own project and team or none. */
  ghost predicate Disciplined(db: Db, op: Op) {
    match op
    case OpCreate(task, _) => task.agents == []
    case OpCreateQueued(task, _, _, _) => task.agents == []
    case OpMove(id, _, e) => NotBefore(db, id, e.timestamp)
    case OpAssign(id, _, e) => NotBefore(db, id, e.timestamp)
    case OpAppend(e) =>
      e.taskId.Some? && e.taskId.value in db.tasks ==>
        && NotBefore(db, e.taskId.value, e.timestamp)
        && InContext(OwnerOf(db.tasks[e.taskId.value].doc), e)
    case OpReconcile(at, _) => forall t :: t in StuckTasks(db) ==> NotBefore(db, t, at)
    case _ => true
  }

  /** The transaction appended to the log. */
  ghost predicate Commits(db: Db, op: Op) {
    |After(db, op).events| > |db.events|
  }

  ghost predicate DisciplinedRun(db: Db, ops: seq<Op>)
    decreases |ops|
  {
    ops == [] ||
    ((Commits(db, ops[0]) ==> Disciplined(db, ops[0])) && DisciplinedRun(After(db, ops[0]), ops[1..]))
  }

  // ---------------------------------------------------------------- one commit

  lemma FreshAppend(events: seq<Event>, e: Event)
    requires UniqueIds(events) && Lookup(events, e.id).None?
    ensures UniqueIds(events + [e])
  {
    forall i | 0 <= i < |events| ensures events[i].id != e.id {
      assert events[i] in events;
    }
  }

  lemma {:induction false} LogOfAbsent(events: seq<Event>, id: TaskId)
    requires forall e :: e in events ==> e.taskId != Some(id)
    ensures LogOf(events, id) == []
  {
    if events != [] {
      LogOfAbsent(Init(events), id);
    }
  }

  lemma FitBasics(id: TaskId, row: TaskRow, log: seq<Event>)
    requires RowFits(id, row, log)
    ensures log != [] && row.doc.taskId == id && row.status == row.doc.status && ValidTask(row.doc)
  {
  }

  /** An event not filed under a task leaves that task's row fitting its log. */
  lemma OtherRowsFit(db: Db, id: TaskId, row: TaskRow, e: Event)
    requires Sound(db) && Lookup(db.events, e.id).None? && e.taskId == Some(id)
    requires id in db.tasks ==> OwnerOf(row.doc) == OwnerOf(db.tasks[id].doc)
    requires RowFits(id, row, LogOf(db.events, id) + [e])
    ensures Sound(db.(tasks := db.tasks[id := row], events := db.events + [e]))
  {
    hide RowFits, RunFits, ValidReceipt, LogOf, UniqueIds;
    var after := db.(tasks := db.tasks[id := row], events := db.events + [e]);
    FreshAppend(db.events, e);
    forall t | t in after.tasks ensures RowFits(t, after.tasks[t], LogOf(after.events, t)) {
      LogOfAppend(db.events, e, t);
    }
  }

  lemma MonotoneSnoc(log: seq<Event>, e: Event)
    requires log != []
    ensures Monotone(log + [e]) <==> Monotone(log) && Last(log).timestamp <= e.timestamp
  {
    SnocParts(log, e);
  }

  lemma ContextSnoc(o: Owner, log: seq<Event>, e: Event)
    ensures AllInContext(o, log + [e]) <==> AllInContext(o, log) && InContext(o, e)
  {
    SnocParts(log, e);
  }

  /** Committing a row with its event keeps the store sound, and keeps agreement exactly when the event
      is not older than the task's last one and names its own project and team or none. */
  lemma CommitExact(db: Db, id: TaskId, row: TaskRow, e: Event)
    requires Sound(db) && id in db.tasks && Lookup(db.events, e.id).None? && e.taskId == Some(id)
    requires OwnerOf(row.doc) == OwnerOf(db.tasks[id].doc)
    requires RowFits(id, row, LogOf(db.events, id) + [e])
    requires row.doc.agents == Assigned(LogOf(db.events, id) + [e]) <==> db.tasks[id].doc.agents == Assigned(LogOf(db.events, id))
    ensures var after := db.(tasks := db.tasks[id := row], events := db.events + [e]);
            && Sound(after)
            && (AllAgree(after) <==> AllAgree(db) && NotBefore(db, id, e.timestamp) && InContext(OwnerOf(row.doc), e))
  {
    hide RowFits, RunFits, ValidReceipt, LogOf, UniqueIds, Monotone, AllInContext, Assigned, AllAgree, Agrees;
    var after := db.(tasks := db.tasks[id := row], events := db.events + [e]);
    OtherRowsFit(db, id, row, e);
    AllAgreementExact(db);
    AllAgreementExact(after);
    var log := LogOf(db.events, id);
    FitBasics(id, db.tasks[id], log);
    LogOfAppend(db.events, e, id);
    MonotoneSnoc(log, e);
    ContextSnoc(OwnerOf(row.doc), log, e);
    assert Faithful(after, id) <==> Faithful(db, id) && NotBefore(db, id, e.timestamp) && InContext(OwnerOf(row.doc), e);
    forall t | t in db.tasks && t != id ensures Faithful(after, t) <==> Faithful(db, t) {
      LogOfAppend(db.events, e, t);
    }
    assert forall t :: t in after.tasks <==> t in db.tasks;
  }

  // ---------------------------------------------------------------- the transactions

  /** `after` is a sound store, and agreement survives exactly under `disciplined`. */
  predicate Exact(db: Db, after: Db, disciplined: bool) {
    && Sound(after)
    && (AllAgree(after) <==> AllAgree(db) && (|after.events| > |db.events| ==> disciplined))
  }

  /** The row of a new task fits the one-event log that announces it. */
  lemma NewRowFits(task: Task, e: Event)
    requires ValidTask(task) && task.status.Pending? && LifecycleEventMatches(task, Pending, e)
    ensures RowFits(task.taskId, NewRow(task, e), [e])
    ensures Assigned([e]) == [] && Monotone([e]) && AllInContext(OwnerOf(task), [e])
  {
    var log := [e];
    assert Init(log) == [] && Last(log) == e;
    assert AllInContext(OwnerOf(task), Init(log));
  }

  lemma OpeningExact(db: Db, task: Task, e: Event)
    requires Sound(db) && ValidTask(task) && task.status.Pending? && task.taskId !in db.tasks
    requires LifecycleEventMatches(task, Pending, e)
    requires AppendLocked(db.(tasks := db.tasks[task.taskId := NewRow(task, e)]), e).Ok?
    ensures Lookup(db.events, e.id).None?
    ensures var after := db.(tasks := db.tasks[task.taskId := NewRow(task, e)], events := db.events + [e]);
            && AppendLocked(db.(tasks := db.tasks[task.taskId := NewRow(task, e)]), e) == Ok(after)
            && LogOf(after.events, task.taskId) == [e]
            && Sound(after)
            && (AllAgree(after) <==> AllAgree(db) && task.agents == [])
  {
    hide LogOf, RowFits, RunFits, UniqueIds, ValidReceipt, Agrees, AllAgree, Assigned, Monotone, AllInContext, ValidTask;
    var id := task.taskId;
    var row := NewRow(task, e);
    LogOfAbsent(db.events, id);
    assert Lookup(db.events, e.id).None?;
    var after := db.(tasks := db.tasks[id := row], events := db.events + [e]);
    LogOfAppend(db.events, e, id);
    assert [] + [e] == [e];
    NewRowFits(task, e);
    OtherRowsFit(db, id, row, e);
    AllAgreementExact(db);
    AllAgreementExact(after);
    assert Faithful(after, id) <==> task.agents == [];
    forall t | t in db.tasks ensures Faithful(after, t) <==> Faithful(db, t) {
      LogOfAppend(db.events, e, t);
    }
  }

  lemma CreateExact(db: Db, task: Task, e: Event)
    requires Sound(db) && ValidTask(task)
    ensures Exact(db, CreateTask(db, task, e).db, task.agents == [])
  {
    if CreateTask(db, task, e).result.Ok? {
      OpeningExact(db, task, e);
    }
  }

  /** A row moved by an accepted transition fits the log that announces the move. */
  lemma MovedRowFits(id: TaskId, row: TaskRow, log: seq<Event>, target: Status, e: Event)
    requires RowFits(id, row, log) && LifecycleEventMatches(row.doc, target, e)
    requires TransitionTask(row.doc, target, e.timestamp).Ok?
    ensures var doc := TransitionTask(row.doc, target, e.timestamp).value;
            && RowFits(id, MovedRow(row, doc, e.timestamp), log + [e])
            && OwnerOf(doc) == OwnerOf(row.doc)
            && Assigned(log + [e]) == Assigned(log)
  {
    TransitionAcceptance(row.doc, target, e.timestamp);
    SnocParts(log, e);
    assert !e.etype.AgentAssigned?;
    assert Continues(OwnerOf(row.doc), log, e);
  }

  lemma MoveExact(db: Db, id: TaskId, target: Status, e: Event)
    requires Sound(db)
    ensures Exact(db, MoveTask(db, id, target, e).db, NotBefore(db, id, e.timestamp))
  {
    hide LogOf, RowFits, RunFits, UniqueIds, ValidReceipt, AllAgree, Assigned, ValidTask, TransitionTask;
    var after := MoveTask(db, id, target, e);
    if after.db != db {
      var row, log := db.tasks[id], LogOf(db.events, id);
      FitBasics(id, row, log);
      MovedRowFits(id, row, log, target, e);
      TransitionKeepsAgents(row.doc, target, e.timestamp);
      CommitExact(db, id, MovedRow(row, TransitionTask(row.doc, target, e.timestamp).value, e.timestamp), e);
    }
  }

  lemma TransitionKeepsAgents(task: Task, target: Status, at: Time)
    ensures TransitionTask(task, target, at).Ok? ==>
              var t := TransitionTask(task, target, at).value;
              t.agents == task.agents && SameIdentity(task, t) && t.status == target
  {
  }

  /** A row that gained an agent fits the log that announces the assignment. */
  lemma AssignedRowFits(id: TaskId, row: TaskRow, log: seq<Event>, agent: Identifier, e: Event)
    requires RowFits(id, row, log) && OwnEvent(OwnerOf(row.doc), e)
    requires e.etype.AgentAssigned? && e.agent == Some(agent) && agent !in row.doc.agents
    requires ValidTask(row.doc.(agents := row.doc.agents + [agent]))
    ensures RowFits(id, AssignedRow(row, row.doc.(agents := row.doc.agents + [agent]), e.timestamp), log + [e])
    ensures Assigned(log + [e]) == Assigned(log) + [agent]
  {
    SnocParts(log, e);
    forall a | a in Assigned(log) ensures a in row.doc.agents {
      var i :| 0 <= i < |Assigned(log)| && Assigned(log)[i] == a;
      assert row.doc.agents[|row.doc.agents| - |Assigned(log)| + i] == a;
    }
    assert Continues(OwnerOf(row.doc), log, e);
  }

  lemma AssignExact(db: Db, id: TaskId, agent: Identifier, e: Event)
    requires Sound(db)
    ensures Exact(db, AssignTask(db, id, agent, e).db, NotBefore(db, id, e.timestamp))
  {
    hide LogOf, RowFits, RunFits, UniqueIds, ValidReceipt, AllAgree, Assigned, ValidTask;
    var after := AssignTask(db, id, agent, e);
    if after.db != db {
      var row, log := db.tasks[id], LogOf(db.events, id);
      FitBasics(id, row, log);
      AssignedRowFits(id, row, log, agent, e);
      SameTails(row.doc.agents, Assigned(log), agent);
      CommitExact(db, id, AssignedRow(row, row.doc.(agents := row.doc.agents + [agent]), e.timestamp), e);
    }
  }

  lemma SameTails(a: seq<Identifier>, b: seq<Identifier>, x: Identifier)
    ensures a + [x] == b + [x] <==> a == b
  {
    if a + [x] == b + [x] {
      assert a == (a + [x])[..|a|] && b == (b + [x])[..|b|];
    }
  }

  lemma ObservedRowFits(id: TaskId, row: TaskRow, log: seq<Event>, e: Event)
    requires RowFits(id, row, log) && e.taskId == Some(id) && !IsAtomic(e.etype)
    ensures RowFits(id, row, log + [e]) && Assigned(log + [e]) == Assigned(log)
  {
    SnocParts(log, e);
  }

  lemma AppendExact(db: Db, e: Event)
    requires Sound(db)
    ensures Exact(db, AppendEvent(db, e).db, Disciplined(db, OpAppend(e)))
  {
    hide LogOf, RowFits, RunFits, UniqueIds, ValidReceipt, Assigned, AllAgree;
    var after := AppendEvent(db, e).db;
    if after != db {
      if e.taskId.Some? {
        var id := e.taskId.value;
        var row, log := db.tasks[id], LogOf(db.events, id);
        FitBasics(id, row, log);
        ObservedRowFits(id, row, log, e);
        CommitExact(db, id, row, e);
        assert db.tasks[id := row] == db.tasks;
      } else {
        UnfiledExact(db, e);
      }
    }
  }

  /** An event filed under no task changes no task's log. */
  lemma UnfiledExact(db: Db, e: Event)
    requires Sound(db) && Lookup(db.events, e.id).None? && e.taskId.None?
    ensures Exact(db, db.(events := db.events + [e]), true)
  {
    hide LogOf, RowFits, RunFits, UniqueIds, ValidReceipt, Replay;
    var after := db.(events := db.events + [e]);
    FreshAppend(db.events, e);
    forall t | t in db.tasks ensures LogOf(after.events, t) == LogOf(db.events, t) {
      LogOfAppend(db.events, e, t);
    }
    assert forall t :: t in db.tasks ==> (Agrees(after, t) <==> Agrees(db, t));
  }

  /** The tables midway through a queued creation: the pending row, its event, the route. */
  function Begun(db: Db, task: Task, created: Event, route: Option<Route>): Db {
    Db(db.tasks[task.taskId := NewRow(task, created)], db.events + [created], db.runs,
       if route.Some? then db.routes[route.value.taskId := route.value] else db.routes, db.requests, db.receipts)
  }

  lemma CreateQueuedShape(db: Db, task: Task, created: Event, queued: Event, route: Option<Route>)
    requires Sound(db) && ValidTask(task)
    requires CreateQueuedTask(db, task, created, queued, route).result.Ok?
    ensures task.status.Pending? && task.taskId !in db.tasks && created.timestamp <= queued.timestamp
    ensures LifecycleEventMatches(task, Pending, created) && LifecycleEventMatches(task, Queued, queued)
    ensures TransitionTask(task, Queued, queued.timestamp).Ok?
    ensures AppendLocked(db.(tasks := db.tasks[task.taskId := NewRow(task, created)]), created).Ok?
    ensures Lookup(Begun(db, task, created, route).events, queued.id).None?
    ensures route.Some? ==> route.value.taskId == task.taskId
    ensures CreateQueuedTask(db, task, created, queued, route).db ==
            var begun := Begun(db, task, created, route);
            var doc := TransitionTask(task, Queued, queued.timestamp).value;
            begun.(tasks := begun.tasks[task.taskId := MovedRow(NewRow(task, created), doc, queued.timestamp)],
                   events := begun.events + [queued])
  {
    hide LogOf, RowFits, RunFits, UniqueIds, ValidReceipt, ValidTask, TransitionTask;
    var begun := Begun(db, task, created, route);
    QueuedIsFresh(db, begun, created, queued);
    assert Lookup(db.events, created.id).None?;
  }

  lemma CreateQueuedExact(db: Db, task: Task, created: Event, queued: Event, route: Option<Route>)
    requires Sound(db) && ValidTask(task)
    ensures Exact(db, CreateQueuedTask(db, task, created, queued, route).db, task.agents == [])
  {
    hide LogOf, RowFits, RunFits, UniqueIds, ValidReceipt, Assigned, AllAgree, ValidTask, TransitionTask, Lookup, AppendLocked;
    var outcome := CreateQueuedTask(db, task, created, queued, route);
    if outcome.result.Ok? {
      hide CreateQueuedTask;
      var id := task.taskId;
      CreateQueuedShape(db, task, created, queued, route);
      OpeningExact(db, task, created);
      var begun := Begun(db, task, created, route);
      SameTasksSameAgreement(db.(tasks := begun.tasks, events := begun.events), begun);
      var row := NewRow(task, created);
      MovedRowFits(id, row, LogOf(begun.events, id), Queued, queued);
      TransitionKeepsAgents(task, Queued, queued.timestamp);
      CommitExact(begun, id, outcome.db.tasks[id], queued);
    }
  }

  lemma SameTasksSameAgreement(a: Db, b: Db)
    requires a.tasks == b.tasks && a.events == b.events
    ensures AllAgree(a) <==> AllAgree(b)
  {
    hide Replay, LogOf;
    assert forall t :: t in a.tasks ==> (Agrees(a, t) <==> Agrees(b, t));
  }

  /** The queued event of a brand-new task cannot already be stored: its task was not. */
  lemma QueuedIsFresh(db: Db, begun: Db, created: Event, queued: Event)
    requires Sound(db) && created.taskId.Some? && created.taskId.value !in db.tasks
    requires queued.taskId == created.taskId && queued.etype != created.etype
    requires begun.events == db.events + [created]
    ensures Lookup(begun.events, queued.id).Some? ==> Lookup(begun.events, queued.id).value != queued
  {
    var known := Lookup(begun.events, queued.id);
    assert known.Some? ==> known.value in db.events || known.value == created;
  }

  predicate Quiet(op: Op) {
    !op.OpCreate? && !op.OpCreateQueued? && !op.OpMove? && !op.OpAssign? && !op.OpAppend? && !op.OpReconcile?
  }

  predicate RunsFit(db: Db) {
    forall r :: r in db.runs ==> RunFits(r, db.runs[r]) && db.runs[r].doc.taskId in db.tasks
  }

  lemma PutRunFits(db: Db, run: Runs.Run)
    requires RunsFit(db) && run.taskId in db.tasks
    ensures RunsFit(PutRun(db, run).db)
  {
  }

  lemma RunOpsFit(db: Db, op: Op)
    requires RunsFit(db) && WellFormed(db, op) && (op.OpCreateRun? || op.OpStartRun? || op.OpFinishRun?)
    ensures RunsFit(After(db, op))
  {
    match op
    case OpCreateRun(run) =>
    case OpStartRun(id, at) =>
      if id in db.runs {
        PutRunFits(db, Runs.Started(db.runs[id].doc, at));
      }
    case OpFinishRun(id, status, at, exit, error) =>
      if id in db.runs {
        PutRunFits(db, Runs.Finished(db.runs[id].doc, status, at, exit, error));
      }
  }

  lemma QuietKeeps(db: Db, op: Op)
    requires Quiet(op)
    ensures After(db, op).tasks == db.tasks && After(db, op).events == db.events
    ensures op.OpCreateRun? || op.OpStartRun? || op.OpFinishRun? || After(db, op).runs == db.runs
  {
    hide ReconcileInterrupted, InOrder;
  }

  lemma SoundTables(db: Db)
    requires Sound(db)
    ensures ForeignKeys(db) && RunsFit(db) && forall d :: d in db.receipts ==> ValidReceipt(db.receipts[d])
  {
    hide LogOf, RowFits, UniqueIds, RunFits, ValidReceipt;
  }

  predicate OtherTablesFit(db: Db) {
    && RunsFit(db)
    && (forall d :: d in db.receipts ==> ValidReceipt(db.receipts[d]))
    && (forall t :: t in db.routes ==> t in db.tasks && db.routes[t].taskId == t)
  }

  lemma SoundElsewhere(db: Db, after: Db)
    requires Sound(db) && after.tasks == db.tasks && after.events == db.events && OtherTablesFit(after)
    ensures Exact(db, after, true)
  {
    hide LogOf, RowFits, UniqueIds, RunFits, ValidReceipt, AllAgree;
    SameTasksSameAgreement(db, after);
  }

  /** Transactions that touch neither tasks nor events cannot affect agreement. */
  lemma QuietExact(db: Db, op: Op)
    requires Sound(db) && WellFormed(db, op) && Quiet(op)
    ensures Exact(db, After(db, op), true)
  {
    hide Sound, After, ForeignKeys, RunsFit, ValidReceipt, Exact, WellFormed;
    SoundTables(db);
    QuietKeeps(db, op);
    QuietTables(db, op);
    if op.OpCreateRun? || op.OpStartRun? || op.OpFinishRun? {
      RunOpsFit(db, op);
    } else {
      SameRunsFit(db, After(db, op));
    }
    SoundElsewhere(db, After(db, op));
  }

  lemma SameRunsFit(db: Db, after: Db)
    requires RunsFit(db) && after.runs == db.runs && after.tasks == db.tasks
    ensures RunsFit(after)
  {
  }

  lemma QuietTables(db: Db, op: Op)
    requires ForeignKeys(db) && (forall d :: d in db.receipts ==> ValidReceipt(db.receipts[d]))
    requires Quiet(op)
    ensures forall d :: d in After(db, op).receipts ==> ValidReceipt(After(db, op).receipts[d])
    ensures forall t :: t in After(db, op).routes ==> t in db.tasks && After(db, op).routes[t].taskId == t
  {
    hide ReconcileInterrupted, InOrder;
  }

  // ---------------------------------------------------------------- reconciliation

  lemma {:induction false} LogAfterBlocks(db: Db, order: seq<TaskId>, at: Time, ids: TaskId -> EventId, id: TaskId)
    requires Distinct(order)
    requires forall i :: 0 <= i < |order| ==> order[i] in db.tasks && db.tasks[order[i]].doc.taskId == order[i]
    ensures LogOf(db.events + BlockEvents(db, order, at, ids), id) ==
            if id in order then LogOf(db.events, id) + [BlockEventOf(db, id, at, ids)] else LogOf(db.events, id)
    decreases |order|
  {
    hide LogOf;
    if order == [] {
      assert db.events + BlockEvents(db, order, at, ids) == db.events;
    } else {
      var before, last := Init(order), Last(order);
      LogAfterBlocks(db, before, at, ids, id);
      var e := BlockEventOf(db, last, at, ids);
      assert db.events + BlockEvents(db, order, at, ids) == (db.events + BlockEvents(db, before, at, ids)) + [e];
      LogOfAppend(db.events + BlockEvents(db, before, at, ids), e, id);
      assert last !in before;
      assert order == before + [last];
    }
  }

  lemma BlocksUnique(db: Db, order: seq<TaskId>, at: Time, ids: TaskId -> EventId)
    requires UniqueIds(db.events) && FreshIds(db, ids) && Distinct(order)
    requires forall i :: 0 <= i < |order| ==> order[i] in StuckTasks(db)
    ensures UniqueIds(db.events + BlockEvents(db, order, at, ids))
  {
    var emitted := BlockEvents(db, order, at, ids);
    var all := db.events + emitted;
    forall i, j | 0 <= i < j < |all| ensures all[i].id != all[j].id {
      if j >= |db.events| {
        assert all[j].id == ids(order[j - |db.events|]);
        if i < |db.events| {
          assert all[i] in db.events;
        } else {
          assert all[i].id == ids(order[i - |db.events|]);
        }
      }
    }
  }

  lemma RowAfterReconcile(db: Db, at: Time, ids: TaskId -> EventId, t: TaskId)
    requires Sound(db) && CanReconcile(db, at) && t in db.tasks
    ensures var log := LogOf(db.events + Emitted(db, at, ids), t);
            && log == (if t in StuckTasks(db) then LogOf(db.events, t) + [BlockEventOf(db, t, at, ids)] else LogOf(db.events, t))
            && RowFits(t, TasksAfter(db, at)[t], log)
  {
    hide LogOf, UniqueIds, ValidReceipt, RowFits, RunFits;
    forall u | u in db.tasks ensures db.tasks[u].doc.taskId == u && db.tasks[u].status == db.tasks[u].doc.status {
      FitBasics(u, db.tasks[u], LogOf(db.events, u));
    }
    LogAfterBlocks(db, StuckOrder(db), at, ids, t);
    if t in StuckTasks(db) {
      MovedRowFits(t, db.tasks[t], LogOf(db.events, t), Blocked, BlockEventOf(db, t, at, ids));
    }
  }

  lemma ReconcileSound(db: Db, at: Time, ids: TaskId -> EventId)
    requires Sound(db) && FreshIds(db, ids) && CanReconcile(db, at)
    ensures Sound(ReconcileInterrupted(db, at, ids).db)
  {
    hide LogOf, UniqueIds, ValidReceipt, RowFits, CanReconcile;
    var after := ReconcileInterrupted(db, at, ids).db;
    BlocksUnique(db, StuckOrder(db), at, ids);
    forall t | t in db.tasks ensures RowFits(t, after.tasks[t], LogOf(after.events, t)) {
      RowAfterReconcile(db, at, ids, t);
    }
    RunsAfterFit(db, at);
    forall e | e in after.events && e.taskId.Some? ensures e.taskId.value in after.tasks {
      if e !in db.events {
        var k :| 0 <= k < |Emitted(db, at, ids)| && Emitted(db, at, ids)[k] == e;
        var t := StuckOrder(db)[k];
        FitBasics(t, db.tasks[t], LogOf(db.events, t));
      }
    }
  }

  lemma RunsAfterFit(db: Db, at: Time)
    requires Sound(db) && CanReconcile(db, at)
    ensures forall r :: r in RunsAfter(db, at) ==>
              RunFits(r, RunsAfter(db, at)[r]) && RunsAfter(db, at)[r].doc.taskId in db.tasks
  {
    hide LogOf, UniqueIds, ValidReceipt, RowFits;
    forall r | r in db.runs ensures RunFits(r, RunsAfter(db, at)[r]) {
      assert RunFits(r, db.runs[r]);
    }
  }

  lemma RowOfSound(db: Db, t: TaskId)
    requires Sound(db) && t in db.tasks
    ensures RowFits(t, db.tasks[t], LogOf(db.events, t)) && LogOf(db.events, t) != []
  {
    hide LogOf;
  }

  lemma TaskIdIsKey(db: Db, id: TaskId)
    requires Sound(db) && id in db.tasks
    ensures db.tasks[id].doc.taskId == id && ValidTask(db.tasks[id].doc)
  {
    hide LogOf, UniqueIds, RunFits, ForeignKeys, ValidTask;
    assert RowFits(id, db.tasks[id], LogOf(db.events, id));
  }

  lemma TaskIdsAreKeys(db: Db)
    requires Sound(db)
    ensures forall t :: t in db.tasks ==> db.tasks[t].doc.taskId == t
  {
    hide Sound;
    forall t | t in db.tasks ensures db.tasks[t].doc.taskId == t {
      TaskIdIsKey(db, t);
    }
  }

  lemma FaithfulAfterReconcile(db: Db, at: Time, ids: TaskId -> EventId, t: TaskId)
    requires Sound(db) && CanReconcile(db, at) && t in db.tasks
    ensures Faithful(ReconcileInterrupted(db, at, ids).db, t) <==>
            Faithful(db, t) && (t in StuckTasks(db) ==> NotBefore(db, t, at))
  {
    hide LogOf, RowFits, Assigned, Monotone, AllInContext, Sound;
    RowAfterReconcile(db, at, ids, t);
    RowOfSound(db, t);
    if t in StuckTasks(db) {
      var row, log, e := db.tasks[t], LogOf(db.events, t), BlockEventOf(db, t, at, ids);
      FitBasics(t, row, log);
      MovedRowFits(t, row, log, Blocked, e);
      MonotoneSnoc(log, e);
      ContextSnoc(OwnerOf(row.doc), log, e);
    }
  }

  lemma AgreementAfterReconcile(db: Db, at: Time, ids: TaskId -> EventId)
    requires Sound(db) && FreshIds(db, ids) && CanReconcile(db, at)
    ensures AllAgree(ReconcileInterrupted(db, at, ids).db) <==>
            AllAgree(db) && forall t :: t in StuckTasks(db) ==> NotBefore(db, t, at)
  {
    var after := ReconcileInterrupted(db, at, ids).db;
    ReconcileSound(db, at, ids);
    AllAgreementExact(db);
    AllAgreementExact(after);
    assert forall t :: t in after.tasks <==> t in db.tasks;
    hide *;
    forall t | t in db.tasks
      ensures Faithful(after, t) <==> Faithful(db, t) && (t in StuckTasks(db) ==> NotBefore(db, t, at))
    {
      FaithfulAfterReconcile(db, at, ids, t);
    }
    StuckAreTasks(db);
  }

  lemma StuckAreTasks(db: Db)
    ensures forall t :: t in StuckTasks(db) ==> t in db.tasks
    ensures StuckOrder(db) == [] <==> StuckTasks(db) == {}
  {
  }

  lemma ReconcileExact(db: Db, at: Time, ids: TaskId -> EventId)
    requires Sound(db) && FreshIds(db, ids)
    ensures Exact(db, ReconcileInterrupted(db, at, ids).db, Disciplined(db, OpReconcile(at, ids)))
  {
    hide Sound, AllAgree, CanReconcile, NotBefore, StuckTasks, BlockedRow, TasksAfter, RunsAfter;
    if CanReconcile(db, at) {
      ReconcileSound(db, at, ids);
      AgreementAfterReconcile(db, at, ids);
      StuckAreTasks(db);
      assert |Emitted(db, at, ids)| == |StuckOrder(db)|;
    }
  }

  // ---------------------------------------------------------------- every run

  lemma StepExact(db: Db, op: Op)
    requires Sound(db) && WellFormed(db, op)
    ensures Sound(After(db, op))
    ensures AllAgree(After(db, op)) <==> AllAgree(db) && (Commits(db, op) ==> Disciplined(db, op))
  {
    hide LogOf, UniqueIds, ValidReceipt, RowFits, RunFits, AllAgree, Sound;
    match op
    case OpCreate(task, e) => CreateExact(db, task, e);
    case OpCreateQueued(task, c, q, route) => CreateQueuedExact(db, task, c, q, route);
    case OpMove(id, target, e) => MoveExact(db, id, target, e);
    case OpAssign(id, agent, e) => AssignExact(db, id, agent, e);
    case OpAppend(e) => AppendExact(db, e);
    case OpReconcile(at, ids) => ReconcileExact(db, at, ids);
    case _ => QuietExact(db, op);
  }

  lemma StepSound(db: Db, op: Op)
    requires Sound(db) && WellFormed(db, op)
    ensures Sound(After(db, op))
  {
    StepExact(db, op);
  }

  /** Every reachable store is sound: index, counter and log agree, over every run. */
  lemma {:induction false} EveryRunIsSound(db: Db, ops: seq<Op>)
    requires Sound(db) && WellFormedRun(db, ops)
    ensures Sound(Final(db, ops))
    decreases |ops|
  {
    if ops != [] {
      StepExact(db, ops[0]);
      EveryRunIsSound(After(db, ops[0]), ops[1..]);
    }
  }

  /** Over every run, from any sound store whose tasks agree with their replays, they still all agree at
      the end exactly when every step that committed an event was disciplined. */
  lemma {:induction false} ReplayRefinesStore(db: Db, ops: seq<Op>)
    requires Sound(db) && WellFormedRun(db, ops)
    ensures AllAgree(Final(db, ops)) <==> AllAgree(db) && DisciplinedRun(db, ops)
    decreases |ops|
  {
    if ops != [] {
      StepExact(db, ops[0]);
      ReplayRefinesStore(After(db, ops[0]), ops[1..]);
    }
  }

  lemma EmptyStoreIsSound()
    ensures Sound(EMPTY_DB) && AllAgree(EMPTY_DB)
  {
  }

  lemma ReplayRefinesStoreFromScratch(ops: seq<Op>)
    requires WellFormedRun(EMPTY_DB, ops)
    ensures Sound(Final(EMPTY_DB, ops))
    ensures AllAgree(Final(EMPTY_DB, ops)) <==> DisciplinedRun(EMPTY_DB, ops)
  {
    EmptyStoreIsSound();
    EveryRunIsSound(EMPTY_DB, ops);
    ReplayRefinesStore(EMPTY_DB, ops);
  }
}
