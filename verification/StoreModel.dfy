/** The durable tables as a value, and what each transaction of the store does to them
    (storage/sqlite.py). A refused transaction leaves the tables as they were. */
module StoreModel {
  import opened Wrappers
  import opened Lifecycle
  import opened Events
  import opened GatewayModels
  import opened Ordering
  import Runs

  type RequestKey = string
  type DeliveryId = string

  /** The JSON document of a task together with the columns that repeat parts of it. */
  datatype TaskRow = TaskRow(
    status: Status, project: Identifier, team: Identifier, createdAt: Time, updatedAt: Time,
    version: nat, doc: Task)

  datatype RunRow = RunRow(status: Runs.Status, doc: Runs.Run)

  datatype Route = Route(taskId: TaskId, source: string, target: string)

  datatype RequestRow = RequestRow(response: Option<Response>, createdAt: Time)

  datatype DeliveryState = Reserved | Delivered

  datatype Receipt = Receipt(state: DeliveryState, createdAt: Time, deliveredAt: Option<Time>)

  predicate ValidReceipt(r: Receipt) {
    && (r.state.Delivered? <==> r.deliveredAt.Some?)
    && (r.deliveredAt.Some? ==> r.createdAt <= r.deliveredAt.value)
  }

  datatype Db = Db(
    tasks: map<TaskId, TaskRow>, events: seq<Event>, runs: map<Runs.RunId, RunRow>,
    routes: map<TaskId, Route>, requests: map<RequestKey, RequestRow>, receipts: map<DeliveryId, Receipt>)

  const EMPTY_DB := Db(map[], [], map[], map[], map[], map[])

  datatype Outcome<T> = Outcome(db: Db, result: Result<T>)

  /** The stored event with this id, if any. */
  function Lookup(events: seq<Event>, id: EventId): (r: Option<Event>)
    ensures r.Some? ==> r.value in events && r.value.id == id
    ensures r.None? ==> forall e :: e in events ==> e.id != id
  {
    if events == [] then None
    else if Last(events).id == id then Some(Last(events))
    else Lookup(Init(events), id)
  }

  lemma StillFresh(events: seq<Event>, e: Event, id: EventId)
    requires Lookup(events, id).None? && e.id != id
    ensures Lookup(events + [e], id).None?
  {
    assert forall x :: x in events + [e] ==> x in events || x == e;
  }

  predicate LifecycleEventMatches(task: Task, target: Status, e: Event) {
    && e.etype == EventFor(target)
    && e.taskId == Some(task.taskId)
    && e.project == Some(task.project) && e.team == Some(task.team)
    && e.status == Some(target)
  }

  function NewRow(task: Task, e: Event): TaskRow {
    TaskRow(task.status, task.project, task.team, task.createdAt, e.timestamp, 1, task)
  }

  function MovedRow(row: TaskRow, doc: Task, at: Time): TaskRow {
    row.(status := doc.status, updatedAt := at, version := row.version + 1, doc := doc)
  }

  function AssignedRow(row: TaskRow, doc: Task, at: Time): TaskRow {
    row.(updatedAt := at, version := row.version + 1, doc := doc)
  }

  /** The append inside a transaction: a known id with the same envelope is skipped, with another one
      refused; an event of an unknown task breaks the foreign key. */
  function AppendLocked(db: Db, e: Event): Result<Db> {
    match Lookup(db.events, e.id)
    case Some(known) => if known == e then Ok(db) else Err(Conflict)
    case None =>
      if e.taskId.Some? && e.taskId.value !in db.tasks then Err(Integrity)
      else Ok(db.(events := db.events + [e]))
  }

  function CreateTask(db: Db, task: Task, e: Event): Outcome<Task> {
    if !task.status.Pending? || !LifecycleEventMatches(task, Pending, e) then Outcome(db, Err(Integrity))
    else if task.taskId in db.tasks then Outcome(db, Err(Duplicate))
    else match AppendLocked(db.(tasks := db.tasks[task.taskId := NewRow(task, e)]), e)
      case Err(x) => Outcome(db, Err(x))
      case Ok(after) => Outcome(after, Ok(task))
  }

  function WithRoute(db: Db, route: Option<Route>): Result<Db> {
    if route.None? then Ok(db)
    else if route.value.taskId in db.routes then Err(Integrity)
    else Ok(db.(routes := db.routes[route.value.taskId := route.value]))
  }

  function CreateQueuedTask(db: Db, task: Task, created: Event, queued: Event, route: Option<Route>): Outcome<Task> {
    if !task.status.Pending?
       || !LifecycleEventMatches(task, Pending, created) || !LifecycleEventMatches(task, Queued, queued)
       || queued.timestamp < created.timestamp
       || (route.Some? && route.value.taskId != task.taskId) then Outcome(db, Err(Integrity))
    else match TransitionTask(task, Queued, queued.timestamp)
      case Err(x) => Outcome(db, Err(x))
      case Ok(doc) =>
        if task.taskId in db.tasks then Outcome(db, Err(Duplicate))
        else
          var row := NewRow(task, created);
          match AppendLocked(db.(tasks := db.tasks[task.taskId := row]), created)
          case Err(x) => Outcome(db, Err(x))
          case Ok(first) =>
            match WithRoute(first, route)
            case Err(x) => Outcome(db, Err(x))
            case Ok(routed) =>
              match AppendLocked(routed.(tasks := routed.tasks[task.taskId := MovedRow(row, doc, queued.timestamp)]), queued)
              case Err(x) => Outcome(db, Err(x))
              case Ok(after) => Outcome(after, Ok(doc))
  }

  /** Conclude an update of a row together with its event, or roll both back. */
  function Commit(db: Db, id: TaskId, row: TaskRow, e: Event): Outcome<Task> {
    match AppendLocked(db.(tasks := db.tasks[id := row]), e)
    case Err(x) => Outcome(db, Err(x))
    case Ok(after) => Outcome(after, Ok(row.doc))
  }

  function MoveTask(db: Db, id: TaskId, target: Status, e: Event): Outcome<Task> {
    if id !in db.tasks then Outcome(db, Err(NotFound))
    else
      var row := db.tasks[id];
      if !LifecycleEventMatches(row.doc, target, e) then Outcome(db, Err(Integrity))
      else match Lookup(db.events, e.id)
        case Some(known) => if known != e then Outcome(db, Err(Conflict)) else Outcome(db, Ok(row.doc))
        case None =>
          match TransitionTask(row.doc, target, e.timestamp)
          case Err(x) => Outcome(db, Err(x))
          case Ok(doc) => Commit(db, id, MovedRow(row, doc, e.timestamp), e)
  }

  function AssignTask(db: Db, id: TaskId, agent: Identifier, e: Event): Outcome<Task> {
    if id !in db.tasks then Outcome(db, Err(NotFound))
    else
      var row := db.tasks[id];
      if !e.etype.AgentAssigned? || e.taskId != Some(row.doc.taskId) || e.agent != Some(agent)
         || e.project != Some(row.doc.project) || e.team != Some(row.doc.team) then Outcome(db, Err(Integrity))
      else match Lookup(db.events, e.id)
        case Some(known) => if known != e then Outcome(db, Err(Conflict)) else Outcome(db, Ok(row.doc))
        case None =>
          if e.status != Some(row.doc.status) || agent in row.doc.agents then Outcome(db, Err(Integrity))
          else
            var doc := row.doc.(agents := row.doc.agents + [agent]);
            if !ValidTask(doc) then Outcome(db, Err(Invalid))
            else Commit(db, id, AssignedRow(row, doc, e.timestamp), e)
  }

  function AppendEvent(db: Db, e: Event): Outcome<bool> {
    if IsAtomic(e.etype) then Outcome(db, Err(Integrity))
    else match AppendLocked(db, e)
      case Err(x) => Outcome(db, Err(x))
      case Ok(after) => Outcome(after, Ok(Lookup(db.events, e.id).None?))
  }

  function CreateRun(db: Db, run: Runs.Run): Outcome<Runs.Run> {
    if run.runId in db.runs then Outcome(db, Err(Duplicate))
    else if run.taskId !in db.tasks then Outcome(db, Err(NotFound))
    else Outcome(db.(runs := db.runs[run.runId := RunRow(run.status, run)]), Ok(run))
  }

  /** Write back a re-validated run, or refuse. */
  function PutRun(db: Db, run: Runs.Run): Outcome<Runs.Run> {
    if !Runs.ValidRun(run) then Outcome(db, Err(Invalid))
    else Outcome(db.(runs := db.runs[run.runId := RunRow(run.status, run)]), Ok(run))
  }

  function StartRun(db: Db, id: Runs.RunId, at: Time): Outcome<Runs.Run> {
    if id !in db.runs then Outcome(db, Err(NotFound))
    else if !db.runs[id].doc.status.Queued? then Outcome(db, Err(Integrity))
    else PutRun(db, Runs.Started(db.runs[id].doc, at))
  }

  function FinishRun(db: Db, id: Runs.RunId, status: Runs.Status, at: Time, exitCode: Option<int>,
      errorCode: Option<string>): Outcome<Runs.Run> {
    if !Runs.IsTerminal(status) then Outcome(db, Err(Invalid))
    else if id !in db.runs then Outcome(db, Err(NotFound))
    else if Runs.IsTerminal(db.runs[id].doc.status) then Outcome(db, Err(Integrity))
    else PutRun(db, Runs.Finished(db.runs[id].doc, status, at, exitCode, errorCode))
  }

  function ReserveRequest(db: Db, key: RequestKey, at: Time): Outcome<bool> {
    if key in db.requests then Outcome(db, Ok(false))
    else Outcome(db.(requests := db.requests[key := RequestRow(None, at)]), Ok(true))
  }

  function RememberResponse(db: Db, key: RequestKey, response: Response): Outcome<Response> {
    if key !in db.requests then Outcome(db, Err(NotFound))
    else match db.requests[key].response
      case Some(known) => if known != response then Outcome(db, Err(Conflict)) else Outcome(db, Ok(response))
      case None =>
        Outcome(db.(requests := db.requests[key := db.requests[key].(response := Some(response))]), Ok(response))
  }

  function ReleaseRequest(db: Db, key: RequestKey): Outcome<bool> {
    if key !in db.requests then Outcome(db, Ok(false))
    else if db.requests[key].response.Some? then Outcome(db, Err(Integrity))
    else Outcome(db.(requests := db.requests - {key}), Ok(true))
  }

  function OpenRequests(db: Db): set<RequestKey> {
    set k | k in db.requests && db.requests[k].response.None?
  }

  function Tagged(ids: set<string>): set<Key> {
    set i | i in ids :: (0, i)
  }

  function Names(keys: seq<Key>): seq<string> {
    seq(|keys|, i requires 0 <= i < |keys| => keys[i].1)
  }

  /** The identifiers in the order the database returns them. */
  ghost function InOrder(ids: set<string>): seq<string> {
    Names(Listing(Tagged(ids)))
  }

  lemma InOrderLists(ids: set<string>)
    ensures Distinct(InOrder(ids))
    ensures forall x :: x in InOrder(ids) <==> x in ids
    ensures forall i, j :: 0 <= i < j < |InOrder(ids)| ==> TextLe(InOrder(ids)[i], InOrder(ids)[j])
    ensures InOrder(ids) == [] <==> ids == {}
  {
    var keys := Listing(Tagged(ids));
    EmptyListing(keys, Tagged(ids));
    assert forall x :: x in ids <==> (0, x) in Tagged(ids);
    forall i | 0 <= i < |keys| ensures keys[i].0 == 0 && keys[i].1 in ids {
      assert keys[i] in keys;
    }
    forall i, j | 0 <= i < j < |keys| ensures keys[i].1 != keys[j].1 && TextLe(keys[i].1, keys[j].1) {
      assert keys[i] != keys[j];
    }
    forall x | x in ids ensures x in InOrder(ids) {
      assert (0, x) in Tagged(ids);
      var i :| 0 <= i < |keys| && keys[i] == (0, x);
      assert InOrder(ids)[i] == x;
    }
  }

  /** The rows an ordered SELECT of identifiers returns. */
  method SelectOrdered(ids: set<string>) returns (names: seq<string>)
    ensures names == InOrder(ids)
  {
    var keys := OrderBy(Tagged(ids));
    ListingUnique(keys, Listing(Tagged(ids)), Tagged(ids));
    names := Names(keys);
  }

  ghost function ReconcileRequests(db: Db): Outcome<seq<RequestKey>> {
    Outcome(db.(requests := db.requests - OpenRequests(db)), Ok(InOrder(OpenRequests(db))))
  }

  function SaveRoute(db: Db, route: Route): Outcome<Route> {
    if route.taskId !in db.tasks then Outcome(db, Err(NotFound))
    else if route.taskId in db.routes then
      if db.routes[route.taskId] == route then Outcome(db, Ok(route)) else Outcome(db, Err(Conflict))
    else Outcome(db.(routes := db.routes[route.taskId := route]), Ok(route))
  }

  function ReserveDelivery(db: Db, id: DeliveryId, at: Time): Outcome<bool> {
    if id in db.receipts then Outcome(db, Ok(false))
    else Outcome(db.(receipts := db.receipts[id := Receipt(Reserved, at, None)]), Ok(true))
  }

  predicate IsDelivered(db: Db, id: DeliveryId) {
    id in db.receipts && db.receipts[id].state.Delivered?
  }

  function MarkDelivered(db: Db, id: DeliveryId, at: Time): Outcome<Receipt> {
    if id !in db.receipts then Outcome(db, Err(NotFound))
    else if db.receipts[id].state.Delivered? then Outcome(db, Ok(db.receipts[id]))
    else
      var receipt := Receipt(Delivered, db.receipts[id].createdAt, Some(at));
      if !ValidReceipt(receipt) then Outcome(db, Err(Invalid))
      else Outcome(db.(receipts := db.receipts[id := receipt]), Ok(receipt))
  }

  function ReleaseDelivery(db: Db, id: DeliveryId): Outcome<bool> {
    if id !in db.receipts then Outcome(db, Ok(false))
    else if db.receipts[id].state.Delivered? then Outcome(db, Err(Integrity))
    else Outcome(db.(receipts := db.receipts - {id}), Ok(true))
  }

  function OpenDeliveries(db: Db): set<DeliveryId> {
    set d | d in db.receipts && db.receipts[d].state.Reserved?
  }

  ghost function ReconcileDeliveries(db: Db): Outcome<seq<DeliveryId>> {
    Outcome(db.(receipts := db.receipts - OpenDeliveries(db)), Ok(InOrder(OpenDeliveries(db))))
  }

  /** Work a dead process left behind. */
  function OpenRuns(db: Db): set<Runs.RunId> {
    set r | r in db.runs && !Runs.IsTerminal(db.runs[r].status)
  }

  function StuckTasks(db: Db): set<TaskId> {
    set t | t in db.tasks && (db.tasks[t].status.Planning? || db.tasks[t].status.Running?)
  }

  function BlockEvent(task: Task, at: Time, id: EventId): Event {
    Event(id, TaskBlocked, at, Some(task.taskId), Some(task.project), Some(task.team), None,
          Some(Blocked), "process-restart")
  }

  datatype Reconciled = Reconciled(runs: seq<Runs.Run>, tasks: seq<Task>, events: seq<(nat, Event)>)

  /** The ids minted for the emitted events are new to the log and differ from one another. */
  ghost predicate FreshIds(db: Db, ids: TaskId -> EventId) {
    && (forall t :: t in StuckTasks(db) ==> Lookup(db.events, ids(t)).None?)
    && (forall t, u :: t in StuckTasks(db) && u in StuckTasks(db) && t != u ==> ids(t) != ids(u))
  }

  ghost predicate CanReconcile(db: Db, at: Time) {
    && (forall r :: r in OpenRuns(db) ==> Runs.ValidRun(Runs.InterruptedBy(db.runs[r].doc, at)))
    && (forall t :: t in StuckTasks(db) ==> TransitionTask(db.tasks[t].doc, Blocked, at).Ok?)
  }

  function BlockedRow(row: TaskRow, at: Time): TaskRow {
    MovedRow(row, Moved(row.doc, Blocked, at), at)
  }

  function InterruptedRow(row: RunRow, at: Time): RunRow {
    RunRow(Runs.Interrupted, Runs.InterruptedBy(row.doc, at))
  }

  ghost function StuckOrder(db: Db): (order: seq<TaskId>)
    ensures Distinct(order)
    ensures forall t :: t in order <==> t in StuckTasks(db)
    ensures forall i :: 0 <= i < |order| ==> order[i] in StuckTasks(db)
    ensures order == [] <==> StuckTasks(db) == {}
  {
    InOrderLists(StuckTasks(db));
    InOrder(StuckTasks(db))
  }

  ghost function OpenOrder(db: Db): (order: seq<Runs.RunId>)
    ensures Distinct(order)
    ensures forall r :: r in order <==> r in OpenRuns(db)
    ensures forall i :: 0 <= i < |order| ==> order[i] in OpenRuns(db)
    ensures order == [] <==> OpenRuns(db) == {}
  {
    InOrderLists(OpenRuns(db));
    InOrder(OpenRuns(db))
  }

  function BlockEventOf(db: Db, id: TaskId, at: Time, ids: TaskId -> EventId): Event
    requires id in db.tasks
  {
    BlockEvent(db.tasks[id].doc, at, ids(id))
  }

  function BlockEvents(db: Db, order: seq<TaskId>, at: Time, ids: TaskId -> EventId): seq<Event>
    requires forall i :: 0 <= i < |order| ==> order[i] in db.tasks
  {
    seq(|order|, i requires 0 <= i < |order| => BlockEventOf(db, order[i], at, ids))
  }

  function InterruptedDocs(db: Db, order: seq<Runs.RunId>, at: Time): seq<Runs.Run>
    requires forall i :: 0 <= i < |order| ==> order[i] in db.runs
  {
    seq(|order|, i requires 0 <= i < |order| => Runs.InterruptedBy(db.runs[order[i]].doc, at))
  }

  function BlockedDocs(db: Db, order: seq<TaskId>, at: Time): seq<Task>
    requires forall i :: 0 <= i < |order| ==> order[i] in db.tasks
  {
    seq(|order|, i requires 0 <= i < |order| => Moved(db.tasks[order[i]].doc, Blocked, at))
  }

  /** The emitted events with the sequence numbers the log gave them. */
  function Numbered(before: nat, emitted: seq<Event>): seq<(nat, Event)> {
    seq(|emitted|, i requires 0 <= i < |emitted| => (before + i + 1, emitted[i]))
  }

  function TasksAfter(db: Db, at: Time): map<TaskId, TaskRow> {
    map t | t in db.tasks :: if t in StuckTasks(db) then BlockedRow(db.tasks[t], at) else db.tasks[t]
  }

  function RunsAfter(db: Db, at: Time): map<Runs.RunId, RunRow> {
    map r | r in db.runs :: if r in OpenRuns(db) then InterruptedRow(db.runs[r], at) else db.runs[r]
  }

  ghost function Emitted(db: Db, at: Time, ids: TaskId -> EventId): seq<Event> {
    BlockEvents(db, StuckOrder(db), at, ids)
  }

  /** Restart reconciliation, stated all at once: every open run is interrupted, every stuck task is
      blocked with one event, and one record the clock refuses refuses the whole transaction. */
  ghost function ReconcileInterrupted(db: Db, at: Time, ids: TaskId -> EventId): Outcome<Reconciled> {
    if !CanReconcile(db, at) then Outcome(db, Err(Invalid))
    else
      Outcome(
        db.(tasks := TasksAfter(db, at), runs := RunsAfter(db, at), events := db.events + Emitted(db, at, ids)),
        Ok(Reconciled(InterruptedDocs(db, OpenOrder(db), at), BlockedDocs(db, StuckOrder(db), at),
                      Numbered(|db.events|, Emitted(db, at, ids)))))
  }
}
