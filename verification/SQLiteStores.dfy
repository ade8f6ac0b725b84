/** The durable store as an object whose methods update its tables in place, each inside a transaction
    that is rolled back when it fails (storage/sqlite.py). */
module SQLiteStores {
  import opened Wrappers
  import opened Lifecycle
  import opened Events
  import opened GatewayModels
  import opened Ordering
  import opened StoreModel
  import opened StoreRuns
  import opened StoreHistory
  import Runs

  /** The run and task tables part way through a reconciliation. */
  function RunsPartly(db: Db, handled: seq<Runs.RunId>, at: Time): map<Runs.RunId, RunRow> {
    map r | r in db.runs :: if r in handled then InterruptedRow(db.runs[r], at) else db.runs[r]
  }

  function TasksPartly(db: Db, handled: seq<TaskId>, at: Time): map<TaskId, TaskRow> {
    map t | t in db.tasks :: if t in handled then BlockedRow(db.tasks[t], at) else db.tasks[t]
  }

  lemma RunsPartlyStep(db: Db, handled: seq<Runs.RunId>, id: Runs.RunId, at: Time)
    requires id in db.runs && id !in handled
    ensures RunsPartly(db, handled, at)[id := InterruptedRow(db.runs[id], at)] == RunsPartly(db, handled + [id], at)
  {
  }

  lemma TasksPartlyStep(db: Db, handled: seq<TaskId>, id: TaskId, at: Time)
    requires id in db.tasks && id !in handled
    ensures TasksPartly(db, handled, at)[id := BlockedRow(db.tasks[id], at)] == TasksPartly(db, handled + [id], at)
  {
  }

  lemma RunsPartlyAll(db: Db, at: Time)
    ensures RunsPartly(db, OpenOrder(db), at) == RunsAfter(db, at)
    ensures RunsPartly(db, [], at) == db.runs
    ensures TasksPartly(db, StuckOrder(db), at) == TasksAfter(db, at)
    ensures TasksPartly(db, [], at) == db.tasks
  {
    hide InOrder;
  }

  /** The next blocked event is new to the log, wherever the loop stands. */
  lemma NextBlockIsNew(db: Db, order: seq<TaskId>, i: nat, at: Time, ids: TaskId -> EventId)
    requires FreshIds(db, ids) && Distinct(order) && i < |order|
    requires forall j :: 0 <= j < |order| ==> order[j] in StuckTasks(db)
    ensures Lookup(db.events + BlockEvents(db, order[..i], at, ids), ids(order[i])).None?
  {
    var all := db.events + BlockEvents(db, order[..i], at, ids);
    forall e | e in all ensures e.id != ids(order[i]) {
      if e !in db.events {
        var k :| 0 <= k < i && e == BlockEventOf(db, order[k], at, ids);
        assert order[k] != order[i];
      }
    }
  }

  /** The first `limit` routes in task-id order. */
  predicate ListsRoutes(db: Db, listed: seq<Route>, limit: nat) {
    && |listed| <= limit
    && (forall i :: 0 <= i < |listed| ==> listed[i].taskId in db.routes && db.routes[listed[i].taskId] == listed[i])
    && (forall i, j :: 0 <= i < j < |listed| ==> listed[i].taskId != listed[j].taskId && TextLe(listed[i].taskId, listed[j].taskId))
    && (forall t :: t in db.routes && db.routes[t] !in listed ==>
          |listed| == limit && forall i :: 0 <= i < |listed| ==> TextLe(listed[i].taskId, t))
  }

  function RoutesAt(db: Db, ids: seq<TaskId>): seq<Route>
    requires forall i :: 0 <= i < |ids| ==> ids[i] in db.routes
  {
    seq(|ids|, i requires 0 <= i < |ids| => db.routes[ids[i]])
  }

  lemma FirstRoutesAreListed(db: Db, ids: seq<TaskId>, limit: nat)
    requires Distinct(ids) && (forall t :: t in ids <==> t in db.routes)
    requires forall i, j :: 0 <= i < j < |ids| ==> TextLe(ids[i], ids[j])
    requires forall t :: t in db.routes ==> db.routes[t].taskId == t
    ensures forall i :: 0 <= i < |Take(ids, limit)| ==> Take(ids, limit)[i] in db.routes
    ensures ListsRoutes(db, RoutesAt(db, Take(ids, limit)), limit)
  {
    hide TextLe;
    var first := Take(ids, limit);
    assert forall i :: 0 <= i < |first| ==> first[i] == ids[i] && ids[i] in ids;
    var listed := RoutesAt(db, first);
    assert forall i :: 0 <= i < |first| ==> listed[i] == db.routes[ids[i]];
    forall t | t in db.routes && db.routes[t] !in listed
      ensures |listed| == limit && forall i :: 0 <= i < |listed| ==> TextLe(listed[i].taskId, t)
    {
      var i :| 0 <= i < |ids| && ids[i] == t;
    }
  }

  class SQLiteStore {
    var tasks: map<TaskId, TaskRow>
    var events: seq<Event>
    var runs: map<Runs.RunId, RunRow>
    var routes: map<TaskId, Route>
    var requests: map<RequestKey, RequestRow>
    var receipts: map<DeliveryId, Receipt>

    function Contents(): Db
      reads this
    {
      Db(tasks, events, runs, routes, requests, receipts)
    }

    ghost predicate Valid()
      reads this
    {
      Sound(Contents())
    }

    constructor ()
      ensures Valid() && Contents() == EMPTY_DB
    {
      tasks, events, runs, routes, requests, receipts := map[], [], map[], map[], map[], map[];
      new;
      EmptyStoreIsSound();
    }

    method Rollback(saved: Db)
      modifies this
      ensures Contents() == saved
    {
      tasks, events, runs := saved.tasks, saved.events, saved.runs;
      routes, requests, receipts := saved.routes, saved.requests, saved.receipts;
    }

    method AppendEventLocked(event: Event) returns (r: Result<bool>)
      modifies this`events
      ensures var appended := AppendLocked(old(Contents()), event);
              if appended.Ok? then r == Ok(Lookup(old(events), event.id).None?) && Contents() == appended.value
              else r == Err(appended.error) && Contents() == old(Contents())
    {
      var existing := Lookup(events, event.id);
      if existing.Some? {
        if existing.value == event { return Ok(false); }
        return Err(Conflict);
      }
      if event.taskId.Some? && event.taskId.value !in tasks { return Err(Integrity); }
      events := events + [event];
      return Ok(true);
    }

    method CreateTask(task: Task, event: Event) returns (r: Result<Task>)
      requires Valid() && ValidTask(task)
      modifies this
      ensures Valid() && Outcome(Contents(), r) == StoreModel.CreateTask(old(Contents()), task, event)
    {
      var saved := Contents();
      hide Sound, ValidTask;
      StepSound(saved, OpCreate(task, event));
      if !task.status.Pending? || !LifecycleEventMatches(task, Pending, event) { return Err(Integrity); }
      if task.taskId in tasks { return Err(Duplicate); }
      tasks := tasks[task.taskId := NewRow(task, event)];
      var appended := AppendEventLocked(event);
      if appended.Err? {
        Rollback(saved);
        return Err(appended.error);
      }
      return Ok(task);
    }

    method CreateQueuedTask(task: Task, created: Event, queued: Event, route: Option<Route>) returns (r: Result<Task>)
      requires Valid() && ValidTask(task)
      modifies this
      ensures Valid() && Outcome(Contents(), r) == StoreModel.CreateQueuedTask(old(Contents()), task, created, queued, route)
    {
      var saved := Contents();
      hide Sound, ValidTask, Lifecycle.TransitionTask;
      StepSound(saved, OpCreateQueued(task, created, queued, route));
      if !task.status.Pending? { return Err(Integrity); }
      if !LifecycleEventMatches(task, Pending, created) { return Err(Integrity); }
      if !LifecycleEventMatches(task, Queued, queued) { return Err(Integrity); }
      if queued.timestamp < created.timestamp { return Err(Integrity); }
      if route.Some? && route.value.taskId != task.taskId { return Err(Integrity); }
      var doc := Lifecycle.TransitionTask(task, Queued, queued.timestamp);
      if doc.Err? { return Err(doc.error); }
      if task.taskId in tasks { return Err(Duplicate); }
      var row := NewRow(task, created);
      tasks := tasks[task.taskId := row];
      var first := AppendEventLocked(created);
      if first.Err? {
        Rollback(saved);
        return Err(first.error);
      }
      if route.Some? {
        if route.value.taskId in routes {
          Rollback(saved);
          return Err(Integrity);
        }
        routes := routes[route.value.taskId := route.value];
      }
      tasks := tasks[task.taskId := MovedRow(row, doc.value, queued.timestamp)];
      var second := AppendEventLocked(queued);
      if second.Err? {
        Rollback(saved);
        return Err(second.error);
      }
      return doc;
    }

    method GetTask(id: TaskId) returns (r: Result<Task>)
      ensures r == if id in tasks then Ok(tasks[id].doc) else Err(NotFound)
    {
      if id !in tasks { return Err(NotFound); }
      return Ok(tasks[id].doc);
    }

    method ListQueuedTasks(limit: int) returns (r: Result<seq<Task>>)
      requires Valid()
      ensures if 1 <= limit <= 1_000 then r.Ok? && ServesOldestQueued(Contents(), r.value, limit) else r == Err(Invalid)
    {
      if !(1 <= limit <= 1_000) { return Err(Invalid); }
      var keys := OrderBy(QueueKeys(Contents()));
      ListingUnique(keys, Listing(QueueKeys(Contents())), QueueKeys(Contents()));
      var rows := Take(keys, limit);
      assert forall i :: 0 <= i < |rows| ==> rows[i] in keys;
      ListingServesOldestQueued(Contents(), limit);
      return Ok(DocsOf(Contents(), rows));
    }

    method GetTaskRoute(id: TaskId) returns (route: Option<Route>)
      ensures route == if id in routes then Some(routes[id]) else None
    {
      return if id in routes then Some(routes[id]) else None;
    }

    method ListTaskRoutes(limit: int) returns (r: Result<seq<Route>>)
      requires Valid()
      ensures if 1 <= limit <= 1_000 then r.Ok? && ListsRoutes(Contents(), r.value, limit) else r == Err(Invalid)
    {
      if !(1 <= limit <= 1_000) { return Err(Invalid); }
      var ids := SelectOrdered(routes.Keys);
      InOrderLists(routes.Keys);
      SoundTables(Contents());
      hide Sound, InOrder, ListsRoutes;
      var first := Take(ids, limit);
      FirstRoutesAreListed(Contents(), ids, limit);
      return Ok(RoutesAt(Contents(), first));
    }

    method IsDeliveryDelivered(id: DeliveryId) returns (delivered: bool)
      ensures delivered == IsDelivered(Contents(), id)
    {
      return id in receipts && receipts[id].state.Delivered?;
    }

    method TransitionTask(id: TaskId, target: Status, event: Event) returns (r: Result<Task>)
      requires Valid()
      modifies this
      ensures Valid() && Outcome(Contents(), r) == MoveTask(old(Contents()), id, target, event)
    {
      var saved := Contents();
      hide Sound, ValidTask, Lifecycle.TransitionTask;
      StepSound(saved, OpMove(id, target, event));
      if id !in tasks { return Err(NotFound); }
      var row := tasks[id];
      if !LifecycleEventMatches(row.doc, target, event) { return Err(Integrity); }
      var existing := Lookup(events, event.id);
      if existing.Some? {
        if existing.value != event { return Err(Conflict); }
        return Ok(row.doc);
      }
      var updated := Lifecycle.TransitionTask(row.doc, target, event.timestamp);
      if updated.Err? { return Err(updated.error); }
      tasks := tasks[id := MovedRow(row, updated.value, event.timestamp)];
      var appended := AppendEventLocked(event);
      if appended.Err? {
        Rollback(saved);
        return Err(appended.error);
      }
      return updated;
    }

    method AssignTask(id: TaskId, agent: Identifier, event: Event) returns (r: Result<Task>)
      requires Valid()
      modifies this
      ensures Valid() && Outcome(Contents(), r) == StoreModel.AssignTask(old(Contents()), id, agent, event)
    {
      var saved := Contents();
      hide Sound, ValidTask;
      StepSound(saved, OpAssign(id, agent, event));
      if id !in tasks { return Err(NotFound); }
      var row := tasks[id];
      if !event.etype.AgentAssigned? { return Err(Integrity); }
      if event.taskId != Some(row.doc.taskId) || event.agent != Some(agent) { return Err(Integrity); }
      if event.project != Some(row.doc.project) || event.team != Some(row.doc.team) { return Err(Integrity); }
      var existing := Lookup(events, event.id);
      if existing.Some? {
        if existing.value != event { return Err(Conflict); }
        return Ok(row.doc);
      }
      if event.status != Some(row.doc.status) { return Err(Integrity); }
      if agent in row.doc.agents { return Err(Integrity); }
      var updated := row.doc.(agents := row.doc.agents + [agent]);
      if !ValidTask(updated) { return Err(Invalid); }
      tasks := tasks[id := AssignedRow(row, updated, event.timestamp)];
      var appended := AppendEventLocked(event);
      if appended.Err? {
        Rollback(saved);
        return Err(appended.error);
      }
      return Ok(updated);
    }

    method AppendEvent(event: Event) returns (r: Result<bool>)
      requires Valid()
      modifies this
      ensures Valid() && Outcome(Contents(), r) == StoreModel.AppendEvent(old(Contents()), event)
    {
      hide Sound;
      StepSound(Contents(), OpAppend(event));
      if IsAtomic(event.etype) { return Err(Integrity); }
      r := AppendEventLocked(event);
    }

    method CreateRun(run: Runs.Run) returns (r: Result<Runs.Run>)
      requires Valid() && Runs.ValidRun(run)
      modifies this
      ensures Valid() && Outcome(Contents(), r) == StoreModel.CreateRun(old(Contents()), run)
    {
      hide Sound;
      StepSound(Contents(), OpCreateRun(run));
      if run.runId in runs { return Err(Duplicate); }
      if run.taskId !in tasks { return Err(NotFound); }
      runs := runs[run.runId := RunRow(run.status, run)];
      return Ok(run);
    }

    method StartRun(id: Runs.RunId, at: Time) returns (r: Result<Runs.Run>)
      requires Valid()
      modifies this
      ensures Valid() && Outcome(Contents(), r) == StoreModel.StartRun(old(Contents()), id, at)
    {
      hide Sound;
      StepSound(Contents(), OpStartRun(id, at));
      if id !in runs { return Err(NotFound); }
      var current := runs[id].doc;
      if !current.status.Queued? { return Err(Integrity); }
      r := WriteRunLocked(Runs.Started(current, at));
    }

    method FinishRun(id: Runs.RunId, status: Runs.Status, at: Time, exitCode: Option<int>, errorCode: Option<string>)
      returns (r: Result<Runs.Run>)
      requires Valid()
      modifies this
      ensures Valid() && Outcome(Contents(), r) == StoreModel.FinishRun(old(Contents()), id, status, at, exitCode, errorCode)
    {
      hide Sound;
      StepSound(Contents(), OpFinishRun(id, status, at, exitCode, errorCode));
      if !Runs.IsTerminal(status) { return Err(Invalid); }
      if id !in runs { return Err(NotFound); }
      var current := runs[id].doc;
      if Runs.IsTerminal(current.status) { return Err(Integrity); }
      r := WriteRunLocked(Runs.Finished(current, status, at, exitCode, errorCode));
    }

    method WriteRunLocked(run: Runs.Run) returns (r: Result<Runs.Run>)
      modifies this`runs
      ensures Outcome(Contents(), r) == PutRun(old(Contents()), run)
    {
      if !Runs.ValidRun(run) { return Err(Invalid); }
      runs := runs[run.runId := RunRow(run.status, run)];
      return Ok(run);
    }

    method GetGatewayRequest(key: RequestKey) returns (row: Option<RequestRow>)
      ensures row == if key in requests then Some(requests[key]) else None
    {
      return if key in requests then Some(requests[key]) else None;
    }

    method ReserveGatewayRequest(key: RequestKey, at: Time) returns (r: Result<bool>)
      requires Valid()
      modifies this
      ensures Valid() && Outcome(Contents(), r) == ReserveRequest(old(Contents()), key, at)
    {
      hide Sound;
      StepSound(Contents(), OpReserveRequest(key, at));
      if key in requests { return Ok(false); }
      requests := requests[key := RequestRow(None, at)];
      return Ok(true);
    }

    method RememberGatewayResponse(key: RequestKey, response: Response) returns (r: Result<Response>)
      requires Valid()
      modifies this
      ensures Valid() && Outcome(Contents(), r) == RememberResponse(old(Contents()), key, response)
    {
      hide Sound;
      StepSound(Contents(), OpRemember(key, response));
      if key !in requests { return Err(NotFound); }
      var row := requests[key];
      if row.response.Some? && row.response.value != response { return Err(Conflict); }
      if row.response.None? {
        requests := requests[key := row.(response := Some(response))];
      }
      return Ok(response);
    }

    method ReleaseGatewayRequest(key: RequestKey) returns (r: Result<bool>)
      requires Valid()
      modifies this
      ensures Valid() && Outcome(Contents(), r) == ReleaseRequest(old(Contents()), key)
    {
      hide Sound;
      StepSound(Contents(), OpReleaseRequest(key));
      if key !in requests { return Ok(false); }
      if requests[key].response.Some? { return Err(Integrity); }
      requests := requests - {key};
      return Ok(true);
    }

    method ReconcileIncompleteGatewayRequests() returns (keys: seq<RequestKey>)
      requires Valid()
      modifies this
      ensures Valid() && Outcome(Contents(), Ok(keys)) == ReconcileRequests(old(Contents()))
    {
      hide Sound;
      StepSound(Contents(), OpReconcileRequests);
      keys := SelectOrdered(OpenRequests(Contents()));
      requests := requests - OpenRequests(Contents());
    }

    method SaveTaskRoute(route: Route) returns (r: Result<Route>)
      requires Valid()
      modifies this
      ensures Valid() && Outcome(Contents(), r) == SaveRoute(old(Contents()), route)
    {
      hide Sound;
      StepSound(Contents(), OpSaveRoute(route));
      if route.taskId !in tasks { return Err(NotFound); }
      if route.taskId in routes {
        if routes[route.taskId] == route { return Ok(route); }
        return Err(Conflict);
      }
      routes := routes[route.taskId := route];
      return Ok(route);
    }

    method ReserveDelivery(id: DeliveryId, at: Time) returns (r: Result<bool>)
      requires Valid()
      modifies this
      ensures Valid() && Outcome(Contents(), r) == StoreModel.ReserveDelivery(old(Contents()), id, at)
    {
      hide Sound;
      StepSound(Contents(), OpReserveDelivery(id, at));
      if id in receipts { return Ok(false); }
      receipts := receipts[id := Receipt(Reserved, at, None)];
      return Ok(true);
    }

    method MarkDeliveryDelivered(id: DeliveryId, at: Time) returns (r: Result<Receipt>)
      requires Valid()
      modifies this
      ensures Valid() && Outcome(Contents(), r) == MarkDelivered(old(Contents()), id, at)
    {
      hide Sound;
      StepSound(Contents(), OpMarkDelivered(id, at));
      if id !in receipts { return Err(NotFound); }
      var row := receipts[id];
      if row.state.Delivered? { return Ok(row); }
      var receipt := Receipt(Delivered, row.createdAt, Some(at));
      if !ValidReceipt(receipt) { return Err(Invalid); }
      receipts := receipts[id := receipt];
      return Ok(receipt);
    }

    method ReleaseDelivery(id: DeliveryId) returns (r: Result<bool>)
      requires Valid()
      modifies this
      ensures Valid() && Outcome(Contents(), r) == StoreModel.ReleaseDelivery(old(Contents()), id)
    {
      hide Sound;
      StepSound(Contents(), OpReleaseDelivery(id));
      if id !in receipts { return Ok(false); }
      if receipts[id].state.Delivered? { return Err(Integrity); }
      receipts := receipts - {id};
      return Ok(true);
    }

    method ReconcileReservedDeliveries() returns (ids: seq<DeliveryId>)
      requires Valid()
      modifies this
      ensures Valid() && Outcome(Contents(), Ok(ids)) == ReconcileDeliveries(old(Contents()))
    {
      hide Sound;
      StepSound(Contents(), OpReconcileDeliveries);
      ids := SelectOrdered(OpenDeliveries(Contents()));
      receipts := receipts - OpenDeliveries(Contents());
    }

    /** The first loop of a reconciliation; false when a run record refuses the clock. */
    method InterruptOpenRuns(at: Time, ghost saved: Db) returns (ok: bool, interrupted: seq<Runs.Run>)
      requires Contents() == saved
      modifies this`runs
      ensures ok <==> forall r :: r in OpenRuns(saved) ==> Runs.ValidRun(Runs.InterruptedBy(saved.runs[r].doc, at))
      ensures ok ==> runs == RunsAfter(saved, at) && interrupted == InterruptedDocs(saved, OpenOrder(saved), at)
    {
      hide InOrder, Runs.ValidRun, RunsPartly, RunsAfter, StuckTasks, Distinct, InterruptedDocs;
      var open := SelectOrdered(OpenRuns(Contents()));
      assert open == OpenOrder(saved);
      NothingInterrupted(saved, at);
      RunsPartlyAll(saved, at);
      interrupted := [];
      for i := 0 to |open|
        invariant runs == RunsPartly(saved, open[..i], at)
        invariant interrupted == InterruptedDocs(saved, open[..i], at)
        invariant forall j :: 0 <= j < i ==> Runs.ValidRun(Runs.InterruptedBy(saved.runs[open[j]].doc, at))
        modifies this`runs
      {
        var id := open[i];
        assert id in OpenRuns(saved);
        NotRepeated(open, i);
        RunsPartlyKeeps(saved, open[..i], id, at);
        var run := Runs.InterruptedBy(runs[id].doc, at);
        if !Runs.ValidRun(run) { return false, []; }
        RunsPartlyStep(saved, open[..i], id, at);
        runs := runs[id := RunRow(Runs.Interrupted, run)];
        interrupted := interrupted + [run];
        InterruptedStep(saved, open, i, at);
      }
      assert open[..|open|] == open;
      ok := true;
    }

    /** The second loop: block each stuck task with its event; false when a task refuses the clock. */
    method BlockStuckTasks(at: Time, ids: TaskId -> EventId, ghost saved: Db)
      returns (ok: bool, blocked: seq<Task>, emitted: seq<(nat, Event)>)
      requires Sound(saved) && FreshIds(saved, ids)
      requires tasks == saved.tasks && events == saved.events
      modifies this`tasks, this`events
      ensures ok <==> forall t :: t in StuckTasks(saved) ==> Lifecycle.TransitionTask(saved.tasks[t].doc, Blocked, at).Ok?
      ensures ok ==> tasks == TasksAfter(saved, at) && events == saved.events + Emitted(saved, at, ids)
      ensures ok ==> blocked == BlockedDocs(saved, StuckOrder(saved), at)
      ensures ok ==> emitted == Numbered(|saved.events|, Emitted(saved, at, ids))
    {
      hide Sound, FreshIds, Lifecycle.TransitionTask, ValidTask, InOrder, TasksPartly, TasksAfter, Distinct, BlockEvents, BlockedDocs, Numbered;
      var stuck := SelectOrdered(StuckTasks(Contents()));
      assert stuck == StuckOrder(saved);
      RunsPartlyAll(saved, at);
      TaskIdsAreKeys(saved);
      NothingEmitted(saved, at, ids);
      blocked, emitted := [], [];
      assert stuck[..0] == [];
      for i := 0 to |stuck|
        invariant tasks == TasksPartly(saved, stuck[..i], at)
        invariant events == saved.events + BlockEvents(saved, stuck[..i], at, ids)
        invariant blocked == BlockedDocs(saved, stuck[..i], at)
        invariant emitted == Numbered(|saved.events|, BlockEvents(saved, stuck[..i], at, ids))
        invariant forall j :: 0 <= j < i ==> Lifecycle.TransitionTask(saved.tasks[stuck[j]].doc, Blocked, at).Ok?
        modifies this`tasks, this`events
      {
        var id := stuck[i];
        assert id in StuckTasks(saved);
        NotRepeated(stuck, i);
        TasksPartlyKeeps(saved, stuck[..i], id, at);
        var row := tasks[id];
        var event := BlockEvent(row.doc, at, ids(id));
        var doc := Lifecycle.TransitionTask(row.doc, Blocked, at);
        if doc.Err? { return false, [], []; }
        BlockedIsMoved(row.doc, at);
        TasksPartlyStep(saved, stuck[..i], id, at);
        NextBlockIsNew(saved, stuck, i, at, ids);
        tasks := tasks[id := MovedRow(row, doc.value, at)];
        var appended := AppendEventLocked(event);
        assert appended == Ok(true);
        blocked := blocked + [doc.value];
        emitted := emitted + [(|events|, event)];
        EmittedStep(saved, stuck, i, at, ids);
      }
      assert stuck[..|stuck|] == stuck;
      ok := true;
    }

    method ReconcileInterruptedRunning(at: Time, ids: TaskId -> EventId) returns (r: Result<Reconciled>)
      requires Valid() && FreshIds(Contents(), ids)
      modifies this
      ensures Valid() && Outcome(Contents(), r) == ReconcileInterrupted(old(Contents()), at, ids)
    {
      var saved := Contents();
      hide Sound, FreshIds, OpenRuns, StuckTasks;
      StepSound(saved, OpReconcile(at, ids));
      var interruptedAll, interrupted := InterruptOpenRuns(at, saved);
      if !interruptedAll {
        Rollback(saved);
        return Err(Invalid);
      }
      var blockedAll, blocked, emitted := BlockStuckTasks(at, ids, saved);
      if !blockedAll {
        Rollback(saved);
        return Err(Invalid);
      }
      return Ok(Reconciled(interrupted, blocked, emitted));
    }
  }

  lemma NothingEmitted(db: Db, at: Time, ids: TaskId -> EventId)
    ensures db.events + BlockEvents(db, [], at, ids) == db.events
    ensures BlockedDocs(db, [], at) == [] && Numbered(|db.events|, BlockEvents(db, [], at, ids)) == []
  {
    assert BlockEvents(db, [], at, ids) == [];
  }

  lemma EmittedStep(db: Db, order: seq<TaskId>, i: nat, at: Time, ids: TaskId -> EventId)
    requires i < |order| && forall j :: 0 <= j < |order| ==> order[j] in db.tasks
    ensures order[..i + 1] == order[..i] + [order[i]]
    ensures var e := BlockEventOf(db, order[i], at, ids);
            && db.events + BlockEvents(db, order[..i + 1], at, ids) == db.events + BlockEvents(db, order[..i], at, ids) + [e]
            && BlockedDocs(db, order[..i + 1], at) == BlockedDocs(db, order[..i], at) + [Moved(db.tasks[order[i]].doc, Blocked, at)]
            && Numbered(|db.events|, BlockEvents(db, order[..i + 1], at, ids)) ==
               Numbered(|db.events|, BlockEvents(db, order[..i], at, ids)) + [(|db.events| + i + 1, e)]
            && |BlockEvents(db, order[..i], at, ids)| == i
  {
    assert BlockEvents(db, order[..i + 1], at, ids) == BlockEvents(db, order[..i], at, ids) + [BlockEventOf(db, order[i], at, ids)];
  }

  lemma NothingInterrupted(db: Db, at: Time)
    ensures InterruptedDocs(db, [], at) == []
  {
  }

  lemma InterruptedStep(db: Db, order: seq<Runs.RunId>, i: nat, at: Time)
    requires i < |order| && forall j :: 0 <= j < |order| ==> order[j] in db.runs
    ensures order[..i + 1] == order[..i] + [order[i]]
    ensures InterruptedDocs(db, order[..i + 1], at) ==
            InterruptedDocs(db, order[..i], at) + [Runs.InterruptedBy(db.runs[order[i]].doc, at)]
  {
  }

  lemma RunsPartlyKeeps(db: Db, handled: seq<Runs.RunId>, id: Runs.RunId, at: Time)
    requires id in db.runs && id !in handled
    ensures id in RunsPartly(db, handled, at) && RunsPartly(db, handled, at)[id] == db.runs[id]
  {
  }

  lemma TasksPartlyKeeps(db: Db, handled: seq<TaskId>, id: TaskId, at: Time)
    requires id in db.tasks && id !in handled
    ensures id in TasksPartly(db, handled, at) && TasksPartly(db, handled, at)[id] == db.tasks[id]
    ensures TasksPartly(db, handled, at).Keys == db.tasks.Keys
  {
  }
}
