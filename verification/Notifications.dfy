/** Replay of task notifications at startup (application/notifications.py). */
module Notifications {
  import opened Lifecycle
  import opened StoreModel
  import opened StoreRuns
  import opened SQLiteStores
  import opened Delivery
  import SlackRoutes

  predicate Replayable(s: Status) {
    s.Running? || s.Blocked? || s.Completed? || s.Failed? || s.Cancelled?
  }

  function StatusText(s: Status): string {
    match s
    case Pending => "pending"
    case Queued => "queued"
    case Planning => "planning"
    case Running => "running"
    case Review => "review"
    case Qa => "qa"
    case Blocked => "blocked"
    case Completed => "completed"
    case Failed => "failed"
    case Cancelled => "cancelled"
  }

  const UPDATE_PREFIX := "task-update:"

  function UpdateId(task: Task): DeliveryId {
    UPDATE_PREFIX + (task.taskId + ":" + StatusText(task.status))
  }

  lemma StatusTextPlain(s: Status)
    ensures ':' !in StatusText(s)
  {
  }

  lemma StatusTextsDiffer(s: Status, t: Status)
    ensures StatusText(s) == StatusText(t) <==> s == t
  {
  }

  /** Updates of different tasks, or of one task in different statuses, never share a receipt. */
  lemma UpdateIdsAreUnique(a: Task, b: Task)
    ensures UpdateId(a) == UpdateId(b) <==> a.taskId == b.taskId && a.status == b.status
  {
    var s, t := StatusText(a.status), StatusText(b.status);
    var x, y := UpdateId(a)[|UPDATE_PREFIX|..], UpdateId(b)[|UPDATE_PREFIX|..];
    assert x == a.taskId + ":" + s && y == b.taskId + ":" + t;
    StatusTextPlain(a.status);
    StatusTextPlain(b.status);
    StatusTextsDiffer(a.status, b.status);
    if UpdateId(a) == UpdateId(b) {
      SplitIsUnique(a.taskId, s, b.taskId, t);
    }
  }

  lemma SplitIsUnique(a: string, s: string, b: string, t: string)
    requires a + ":" + s == b + ":" + t && ':' !in s && ':' !in t
    ensures a == b && s == t
  {
    var x, y := a + ":" + s, b + ":" + t;
    assert x[|a|] == ':' && y[|b|] == ':';
    assert forall i :: |a| < i < |x| ==> x[i] == s[i - |a| - 1];
    assert forall i :: |b| < i < |y| ==> y[i] == t[i - |b| - 1];
    assert |a| == |b|;
    assert a == x[..|a|] && b == y[..|b|];
    assert s == x[|a| + 1..] && t == y[|b| + 1..];
  }

  // ---------------------------------------------------------------- the startup loop

  const SLACK := "slack"

  /** How the outside treats one route: failing reads, failing preparation of the message, the delivery. */
  datatype Turn = Turn(readFails: bool, checkFails: bool, prepareFails: bool, fate: Fate)

  /** The route's task has a status Slack is told about. */
  predicate Due(db: Db, route: Route) {
    route.source == SLACK && route.taskId in db.tasks && Replayable(db.tasks[route.taskId].doc.status)
  }

  function UpdateIdOf(db: Db, route: Route): DeliveryId
    requires route.taskId in db.tasks
  {
    UpdateId(db.tasks[route.taskId].doc)
  }

  predicate SameReceipt(a: Db, b: Db, id: DeliveryId) {
    (id in a.receipts <==> id in b.receipts) && (id in a.receipts ==> b.receipts[id] == a.receipts[id])
  }

  /** Delivered, or named as failed. */
  predicate Handled(before: Db, db: Db, route: Route, failed: seq<TaskId>) {
    Due(before, route) ==> IsDelivered(db, UpdateIdOf(before, route)) || route.taskId in failed
  }

  /** The routes are those of different stored tasks. */
  predicate Known(db: Db, routes: seq<Route>) {
    && (forall i :: 0 <= i < |routes| ==>
          && routes[i].taskId in db.tasks && db.tasks[routes[i].taskId].doc.taskId == routes[i].taskId
          && routes[i].taskId in db.routes && db.routes[routes[i].taskId] == routes[i])
    && (forall i, j :: 0 <= i < j < |routes| ==> routes[i].taskId != routes[j].taskId)
  }

  /** Where the loop stands after the first `n` routes. */
  ghost predicate Progress(before: Db, db: Db, routes: seq<Route>, n: nat, failed: seq<TaskId>, sent: seq<DeliveryId>)
    requires Known(before, routes) && n <= |routes|
  {
    && db.(receipts := before.receipts) == before
    && (forall j :: 0 <= j < n ==> Handled(before, db, routes[j], failed))
    && (forall j :: n <= j < |routes| ==> SameReceipt(before, db, UpdateIdOf(before, routes[j])))
    && (forall id :: IsDelivered(before, id) ==> SameReceipt(before, db, id))
    && Distinct(sent)
    && (forall id :: id in sent ==> !IsDelivered(before, id) && exists j :: 0 <= j < n && UpdateIdOf(before, routes[j]) == id)
  }

  lemma OthersDiffer(db: Db, routes: seq<Route>, i: nat)
    requires Known(db, routes) && i < |routes|
    ensures forall j :: 0 <= j < |routes| && j != i ==> UpdateIdOf(db, routes[j]) != UpdateIdOf(db, routes[i])
  {
    hide UpdateId;
    forall j | 0 <= j < |routes| && j != i ensures UpdateIdOf(db, routes[j]) != UpdateIdOf(db, routes[i]) {
      UpdateIdsAreUnique(db.tasks[routes[j].taskId].doc, db.tasks[routes[i].taskId].doc);
    }
  }

  lemma NoneReserved(db: Db)
    requires OpenDeliveries(db) == {}
    ensures forall d :: d in db.receipts ==> IsDelivered(db, d)
  {
    forall d | d in db.receipts ensures IsDelivered(db, d) {
      assert d !in OpenDeliveries(db);
    }
  }

  lemma ProgressStep(before: Db, now: Db, db: Db, routes: seq<Route>, n: nat, failed: seq<TaskId>,
      sent: seq<DeliveryId>, failure: bool, accepted: bool)
    requires Known(before, routes) && n < |routes| && OpenDeliveries(before) == {}
    requires Progress(before, now, routes, n, failed, sent)
    requires OnlyReceipt(now, db, UpdateIdOf(before, routes[n]))
    requires !Due(before, routes[n]) || IsDelivered(now, UpdateIdOf(before, routes[n])) ==> db == now && !accepted
    requires Due(before, routes[n]) ==>
               failure || IsDelivered(db, UpdateIdOf(before, routes[n])) || UpdateIdOf(before, routes[n]) in now.receipts
    requires accepted ==> UpdateIdOf(before, routes[n]) !in now.receipts
    ensures Progress(before, db, routes, n + 1,
                     if failure then failed + [routes[n].taskId] else failed,
                     if accepted then sent + [UpdateIdOf(before, routes[n])] else sent)
  {
    hide UpdateIdOf, Due;
    var id := UpdateIdOf(before, routes[n]);
    OthersDiffer(before, routes, n);
    assert SameReceipt(before, now, id);
    NoneReserved(before);
    var more := if failure then failed + [routes[n].taskId] else failed;
    forall j | 0 <= j < n ensures Handled(before, db, routes[j], more) {
      assert Handled(before, now, routes[j], failed);
    }
    assert id !in sent;
  }

  lemma ListedTasksExist(db: Db, routes: seq<Route>)
    requires Sound(db) && ListsRoutes(db, routes, 1_000)
    ensures Known(db, routes)
  {
    SoundTables(db);
    hide Sound;
    forall i | 0 <= i < |routes|
      ensures routes[i].taskId in db.tasks && db.tasks[routes[i].taskId].doc.taskId == routes[i].taskId
    {
      assert routes[i].taskId in db.routes;
      TaskIdIsKey(db, routes[i].taskId);
    }
  }

  class StoredRouteResultNotifier {
    const store: SQLiteStore
    const slack: RetryingSlackDelivery

    ghost predicate Valid()
      reads store
    {
      slack.store == store && ValidSettings(slack.cfg) && store.Valid()
    }

    constructor (store: SQLiteStore, slack: RetryingSlackDelivery)
      requires slack.store == store && ValidSettings(slack.cfg)
      ensures this.store == store && this.slack == slack
    {
      this.store, this.slack := store, slack;
    }

    /** Tell Slack about the task's status, if the task came from there. */
    method NotifyTask(task: Task, turn: Turn) returns (raised: bool, accepted: bool)
      requires Valid() && |turn.fate.responses| >= slack.cfg.maxAttempts
      modifies store
      ensures Valid() && OnlyReceipt(old(store.Contents()), store.Contents(), UpdateId(task))
      ensures accepted ==> UpdateId(task) !in old(store.Contents()).receipts
      ensures old(task.taskId in store.routes && store.routes[task.taskId].source == SLACK) ==>
                raised || UpdateId(task) in old(store.Contents()).receipts || IsDelivered(store.Contents(), UpdateId(task))
    {
      var route := store.GetTaskRoute(task.taskId);
      if route.None? || route.value.source != SLACK { return false, false; }
      if turn.prepareFails || SlackRoutes.Decode(route.value.target).Err? { return true, false; }
      var outcome, sends, slept, sent := slack.Deliver(UpdateId(task), turn.fate);
      return outcome.Raised?, sent;
    }

    /** One round of the loop; every exception is caught and reported as a failure of this task. */
    method ReplayRoute(route: Route, turn: Turn) returns (failed: bool, accepted: bool)
      requires Valid() && |turn.fate.responses| >= slack.cfg.maxAttempts
      requires route.taskId in store.routes && store.routes[route.taskId] == route && route.taskId in store.tasks
      modifies store
      ensures Valid() && OnlyReceipt(old(store.Contents()), store.Contents(), UpdateIdOf(old(store.Contents()), route))
      ensures !Due(old(store.Contents()), route) || IsDelivered(old(store.Contents()), UpdateIdOf(old(store.Contents()), route)) ==>
                store.Contents() == old(store.Contents()) && !accepted
      ensures Due(old(store.Contents()), route) ==>
                var id := UpdateIdOf(old(store.Contents()), route);
                failed || IsDelivered(store.Contents(), id) || id in old(store.Contents()).receipts
      ensures accepted ==> UpdateIdOf(old(store.Contents()), route) !in old(store.Contents()).receipts
      ensures failed ==> route.source == SLACK
    {
      hide Sound;
      if route.source != SLACK { return false, false; }
      if turn.readFails { return true, false; }
      var found := store.GetTask(route.taskId);
      if found.Err? { return true, false; }
      var task := found.value;
      TaskIdIsKey(store.Contents(), route.taskId);
      if !Replayable(task.status) { return false, false; }
      if turn.checkFails { return true, false; }
      var delivered := store.IsDeliveryDelivered(UpdateId(task));
      if delivered { return false, false; }
      failed, accepted := NotifyTask(task, turn);
    }

    /** Tell Slack what it has not been told: afterwards every listed task that is due has been told of its
        present status or is named as failed, and nothing it had been told is told again. */
    method ReconcilePending(turns: TaskId -> Turn) returns (failed: seq<TaskId>, ghost sent: seq<DeliveryId>,
        ghost listed: seq<Route>)
      requires Valid() && OpenDeliveries(store.Contents()) == {}
      requires forall t :: |turns(t).fate.responses| >= slack.cfg.maxAttempts
      modifies store
      ensures Valid() && store.Contents().(receipts := old(store.Contents()).receipts) == old(store.Contents())
      ensures ListsRoutes(old(store.Contents()), listed, 1_000)
      ensures forall i :: 0 <= i < |listed| ==> Handled(old(store.Contents()), store.Contents(), listed[i], failed)
      ensures forall t :: t in failed ==> exists i :: 0 <= i < |listed| && listed[i].taskId == t && listed[i].source == SLACK
      ensures Distinct(sent)
      ensures forall id :: id in sent ==> !IsDelivered(old(store.Contents()), id)
      ensures forall id :: IsDelivered(old(store.Contents()), id) ==> SameReceipt(old(store.Contents()), store.Contents(), id)
    {
      hide Sound;
      ghost var before := store.Contents();
      var rows := store.ListTaskRoutes(1_000);
      var routes := rows.value;
      failed, sent, listed := [], [], routes;
      ListedTasksExist(before, routes);
      for i := 0 to |routes|
        invariant Valid() && Progress(before, store.Contents(), routes, i, failed, sent)
        invariant forall t :: t in failed ==> exists j :: 0 <= j < |routes| && routes[j].taskId == t && routes[j].source == SLACK
      {
        ghost var now := store.Contents();
        hide UpdateId;
        var failure, accepted := ReplayRoute(routes[i], turns(routes[i].taskId));
        ProgressStep(before, now, store.Contents(), routes, i, failed, sent, failure, accepted);
        failed := if failure then failed + [routes[i].taskId] else failed;
        sent := if accepted then sent + [UpdateIdOf(before, routes[i])] else sent;
      }
    }
  }
}
