/** What no transaction undoes, what a restart repairs, and what a queue listing returns. */
module StoreHistory {
  import opened Wrappers
  import opened Lifecycle
  import opened Events
  import opened Ordering
  import opened StoreModel
  import opened StoreRuns
  import Runs

  // ---------------------------------------------------------------- permanence

  /** A task row of `a` as it may look in a later store `b`. */
  predicate TaskSettles(a: Task, b: Task) {
    && SameIdentity(a, b)
    && (IsTerminal(a.status) ==> b.status == a.status && b.completedAt == a.completedAt)
    && |a.agents| <= |b.agents| && b.agents[..|a.agents|] == a.agents
  }

  predicate TasksSettle(a: Db, b: Db) {
    forall t :: t in a.tasks ==> t in b.tasks && TaskSettles(a.tasks[t].doc, b.tasks[t].doc)
  }

  predicate RunsSettle(a: Db, b: Db) {
    forall r :: r in a.runs ==>
      r in b.runs && a.runs[r].doc.taskId == b.runs[r].doc.taskId
      && (Runs.IsTerminal(a.runs[r].doc.status) ==> b.runs[r] == a.runs[r])
  }

  predicate AnswersSettle(a: Db, b: Db) {
    && (forall k :: k in a.requests && a.requests[k].response.Some? ==> k in b.requests && b.requests[k] == a.requests[k])
    && (forall d :: d in a.receipts && a.receipts[d].state.Delivered? ==> d in b.receipts && b.receipts[d] == a.receipts[d])
    && (forall t :: t in a.routes ==> t in b.routes && b.routes[t] == a.routes[t])
  }

  /** `b` may follow `a`: the log only grows, tasks keep their identity and their first terminal state,
      finished runs, remembered responses, delivered receipts and routes never change. */
  predicate Follows(a: Db, b: Db) {
    && a.events <= b.events
    && TasksSettle(a, b) && RunsSettle(a, b) && AnswersSettle(a, b)
  }

  lemma FollowsTransitive(a: Db, b: Db, c: Db)
    requires Follows(a, b) && Follows(b, c)
    ensures Follows(a, c)
  {
    forall t | t in a.tasks ensures t in c.tasks && TaskSettles(a.tasks[t].doc, c.tasks[t].doc) {
      var x, y, z := a.tasks[t].doc, b.tasks[t].doc, c.tasks[t].doc;
      assert TaskSettles(x, y) && TaskSettles(y, z);
      assert z.agents[..|x.agents|] == z.agents[..|y.agents|][..|x.agents|];
    }
  }

  lemma TransitionSettles(task: Task, target: Status, at: Time)
    requires TransitionTask(task, target, at).Ok?
    ensures TaskSettles(task, TransitionTask(task, target, at).value)
  {
    assert task.agents[..|task.agents|] == task.agents;
  }

  lemma SameTaskSettles(task: Task)
    ensures TaskSettles(task, task)
  {
    assert task.agents[..|task.agents|] == task.agents;
  }

  lemma TasksFollow(db: Db, op: Op)
    ensures TasksSettle(db, After(db, op))
  {
    hide CreateQueuedTask, MoveTask, AssignTask, CanReconcile, ReconcileInterrupted, TaskSettles, LifecycleEventMatches;
    forall t | t in db.tasks ensures TaskSettles(db.tasks[t].doc, db.tasks[t].doc) {
      SameTaskSettles(db.tasks[t].doc);
    }
    match op
    case OpCreate(task, e) => AppendAdds(db.(tasks := db.tasks[task.taskId := NewRow(task, e)]), e);
    case OpCreateQueued(task, c, q, route) => CreateQueuedAdds(db, task, c, q, route);
    case OpMove(id, target, e) => MoveAdds(db, id, target, e);
    case OpAssign(id, agent, e) => AssignAdds(db, id, agent, e);
    case OpAppend(e) => AppendAdds(db, e);
    case OpReconcile(at, ids) => ReconciledTasksFollow(db, at, ids);
    case _ =>
      hide After;
      QuietKeeps(db, op);
  }

  lemma ReconciledTasksFollow(db: Db, at: Time, ids: TaskId -> EventId)
    ensures TasksSettle(db, ReconcileInterrupted(db, at, ids).db)
  {
    hide InOrder, TaskSettles, TransitionTask, Runs.ValidRun;
    forall t | t in db.tasks ensures TaskSettles(db.tasks[t].doc, db.tasks[t].doc) {
      SameTaskSettles(db.tasks[t].doc);
    }
    if CanReconcile(db, at) {
      forall t | t in StuckTasks(db) ensures TaskSettles(db.tasks[t].doc, TasksAfter(db, at)[t].doc) {
        TransitionSettles(db.tasks[t].doc, Blocked, at);
        BlockedIsMoved(db.tasks[t].doc, at);
      }
    }
  }

  lemma AssignmentSettles(task: Task, agent: Identifier)
    ensures TaskSettles(task, task.(agents := task.agents + [agent]))
  {
    assert (task.agents + [agent])[..|task.agents|] == task.agents;
  }

  lemma BlockedIsMoved(task: Task, at: Time)
    requires TransitionTask(task, Blocked, at).Ok?
    ensures TransitionTask(task, Blocked, at).value == Moved(task, Blocked, at)
  {
  }

  /** `b` adds events and routes to `a` and touches neither runs nor answers. */
  predicate Adds(a: Db, b: Db) {
    && a.events <= b.events && b.requests == a.requests && b.receipts == a.receipts && b.runs == a.runs
    && (forall t :: t in a.routes ==> t in b.routes && b.routes[t] == a.routes[t])
  }

  lemma AppendAdds(db: Db, e: Event)
    ensures AppendLocked(db, e).Ok? ==> Adds(db, AppendLocked(db, e).value) && AppendLocked(db, e).value.tasks == db.tasks
  {
  }

  lemma CreateAdds(db: Db, task: Task, e: Event)
    ensures Adds(db, CreateTask(db, task, e).db)
  {
    hide AppendLocked, LifecycleEventMatches;
    AppendAdds(db.(tasks := db.tasks[task.taskId := NewRow(task, e)]), e);
  }

  lemma RouteAdds(db: Db, route: Option<Route>)
    ensures WithRoute(db, route).Ok? ==> Adds(db, WithRoute(db, route).value) && WithRoute(db, route).value.tasks == db.tasks
  {
  }

  lemma CreateQueuedAdds(db: Db, task: Task, created: Event, queued: Event, route: Option<Route>)
    ensures Adds(db, CreateQueuedTask(db, task, created, queued, route).db)
    ensures TasksSettle(db, CreateQueuedTask(db, task, created, queued, route).db)
  {
    hide AppendLocked, LifecycleEventMatches, TransitionTask, TaskSettles, WithRoute;
    forall t | t in db.tasks ensures TaskSettles(db.tasks[t].doc, db.tasks[t].doc) {
      SameTaskSettles(db.tasks[t].doc);
    }
    var outcome := CreateQueuedTask(db, task, created, queued, route);
    if outcome.result.Ok? {
      var doc := TransitionTask(task, Queued, queued.timestamp).value;
      var row := NewRow(task, created);
      var first := db.(tasks := db.tasks[task.taskId := row]);
      AppendAdds(first, created);
      var opening := AppendLocked(first, created).value;
      RouteAdds(opening, route);
      var routed := WithRoute(opening, route).value;
      var second := routed.(tasks := routed.tasks[task.taskId := MovedRow(row, doc, queued.timestamp)]);
      AppendAdds(second, queued);
      assert outcome.db == AppendLocked(second, queued).value;
      hide CreateQueuedTask;
    }
  }

  lemma CommitAdds(db: Db, id: TaskId, row: TaskRow, e: Event)
    ensures Adds(db, Commit(db, id, row, e).db)
    ensures Commit(db, id, row, e).db.tasks == db.tasks || Commit(db, id, row, e).db.tasks == db.tasks[id := row]
  {
    hide AppendLocked;
    AppendAdds(db.(tasks := db.tasks[id := row]), e);
  }

  lemma MoveAdds(db: Db, id: TaskId, target: Status, e: Event)
    ensures Adds(db, MoveTask(db, id, target, e).db) && TasksSettle(db, MoveTask(db, id, target, e).db)
  {
    hide Commit, LifecycleEventMatches, TransitionTask, TaskSettles, Lookup;
    forall t | t in db.tasks ensures TaskSettles(db.tasks[t].doc, db.tasks[t].doc) {
      SameTaskSettles(db.tasks[t].doc);
    }
    if id in db.tasks && TransitionTask(db.tasks[id].doc, target, e.timestamp).Ok? {
      var doc := TransitionTask(db.tasks[id].doc, target, e.timestamp).value;
      TransitionSettles(db.tasks[id].doc, target, e.timestamp);
      CommitAdds(db, id, MovedRow(db.tasks[id], doc, e.timestamp), e);
    }
  }

  lemma AssignAdds(db: Db, id: TaskId, agent: Identifier, e: Event)
    ensures Adds(db, AssignTask(db, id, agent, e).db) && TasksSettle(db, AssignTask(db, id, agent, e).db)
  {
    hide Commit, TaskSettles, Lookup, ValidTask;
    forall t | t in db.tasks ensures TaskSettles(db.tasks[t].doc, db.tasks[t].doc) {
      SameTaskSettles(db.tasks[t].doc);
    }
    if id in db.tasks {
      AssignmentSettles(db.tasks[id].doc, agent);
      CommitAdds(db, id, AssignedRow(db.tasks[id], db.tasks[id].doc.(agents := db.tasks[id].doc.agents + [agent]), e.timestamp), e);
    }
  }

  lemma ReconcileAdds(db: Db, at: Time, ids: TaskId -> EventId)
    ensures Adds(db, ReconcileInterrupted(db, at, ids).db.(runs := db.runs))
  {
    hide CanReconcile, InOrder, TasksAfter, RunsAfter, InterruptedDocs, BlockedDocs, Numbered;
  }

  lemma ObservationAdds(db: Db, e: Event)
    ensures Adds(db, AppendEvent(db, e).db)
  {
    hide AppendLocked;
    AppendAdds(db, e);
  }

  /** What a task operation leaves alone. */
  lemma LoudKeeps(db: Db, op: Op)
    requires !Quiet(op)
    ensures db.events <= After(db, op).events
    ensures After(db, op).requests == db.requests && After(db, op).receipts == db.receipts
    ensures op.OpReconcile? || After(db, op).runs == db.runs
    ensures forall t :: t in db.routes ==> t in After(db, op).routes && After(db, op).routes[t] == db.routes[t]
  {
    hide CreateTask, CreateQueuedTask, MoveTask, AssignTask, AppendEvent, ReconcileInterrupted;
    match op
    case OpCreate(task, e) => CreateAdds(db, task, e);
    case OpCreateQueued(task, c, q, route) => CreateQueuedAdds(db, task, c, q, route);
    case OpMove(id, target, e) => MoveAdds(db, id, target, e);
    case OpAssign(id, agent, e) => AssignAdds(db, id, agent, e);
    case OpAppend(e) => ObservationAdds(db, e);
    case OpReconcile(at, ids) => ReconcileAdds(db, at, ids);
  }

  lemma SameRunsSettle(a: Db, b: Db)
    requires b.runs == a.runs
    ensures RunsSettle(a, b)
  {
  }

  lemma PutRunSettles(db: Db, id: Runs.RunId, run: Runs.Run)
    requires id in db.runs && run.runId == id && run.taskId == db.runs[id].doc.taskId
    requires !Runs.IsTerminal(db.runs[id].doc.status)
    ensures RunsSettle(db, PutRun(db, run).db)
  {
    hide Runs.ValidRun;
  }

  lemma NewRunSettles(db: Db, run: Runs.Run)
    ensures RunsSettle(db, CreateRun(db, run).db)
  {
  }

  lemma RunsFollow(db: Db, op: Op)
    requires RunsFit(db)
    ensures RunsSettle(db, After(db, op))
  {
    hide RunsSettle, PutRun, CreateRun, ReconcileInterrupted;
    SameRunsSettle(db, db);
    match op
    case OpCreateRun(run) => NewRunSettles(db, run);
    case OpStartRun(id, at) =>
      if id in db.runs && db.runs[id].doc.status.Queued? {
        assert RunFits(id, db.runs[id]);
        PutRunSettles(db, id, Runs.Started(db.runs[id].doc, at));
      }
    case OpFinishRun(id, status, at, exit, error) =>
      if id in db.runs && !Runs.IsTerminal(db.runs[id].doc.status) {
        assert RunFits(id, db.runs[id]);
        PutRunSettles(db, id, Runs.Finished(db.runs[id].doc, status, at, exit, error));
      }
    case OpReconcile(at, ids) => ReconciledRunsFollow(db, at, ids);
    case _ =>
      hide After;
      if Quiet(op) { QuietKeeps(db, op); } else { LoudKeeps(db, op); }
      SameRunsSettle(db, After(db, op));
  }

  lemma ReconciledRunsFollow(db: Db, at: Time, ids: TaskId -> EventId)
    requires RunsFit(db)
    ensures RunsSettle(db, ReconcileInterrupted(db, at, ids).db)
  {
    hide CanReconcile, InOrder, Runs.ValidRun;
    assert forall r :: r in db.runs ==> RunFits(r, db.runs[r]);
  }

  lemma AnswersFollow(db: Db, op: Op)
    ensures AnswersSettle(db, After(db, op))
  {
    if Quiet(op) {
      hide InOrder, ReconcileInterrupted;
    } else {
      LoudKeeps(db, op);
      hide After;
    }
  }

  /** No run of transactions undoes a settled fact. In particular the first terminal status a task
      commits is its status for good, and a remembered response is never changed, released or
      reconciled away. */
  lemma {:induction false} SettledForGood(db: Db, ops: seq<Op>)
    requires Sound(db) && WellFormedRun(db, ops)
    ensures Follows(db, Final(db, ops))
    decreases |ops|
  {
    hide Sound, TaskSettles, Follows, After, WellFormed;
    if ops == [] {
      FollowsItself(db);
    } else {
      StepFollows(db, ops[0]);
      StepExact(db, ops[0]);
      SettledForGood(After(db, ops[0]), ops[1..]);
      FollowsTransitive(db, After(db, ops[0]), Final(db, ops));
    }
  }

  lemma StepFollows(db: Db, op: Op)
    requires Sound(db) && WellFormed(db, op)
    ensures Follows(db, After(db, op))
  {
    hide Sound, TasksSettle, RunsSettle, AnswersSettle, After, WellFormed, RunsFit;
    TasksFollow(db, op);
    SoundTables(db);
    RunsFollow(db, op);
    AnswersFollow(db, op);
    if Quiet(op) { QuietKeeps(db, op); } else { LoudKeeps(db, op); }
  }

  lemma FollowsItself(db: Db)
    ensures Follows(db, db)
  {
    forall t | t in db.tasks ensures TaskSettles(db.tasks[t].doc, db.tasks[t].doc) {
      SameTaskSettles(db.tasks[t].doc);
    }
  }

  // ---------------------------------------------------------------- restart

  /** Reconciliation repairs everything a dead process left and nothing else: no run stays open, no task
      stays in planning or running, each such task gains one version and one blocked event, every other
      row and table is as it was. */
  lemma ReconcileCompleteAndMinimal(db: Db, at: Time, ids: TaskId -> EventId)
    requires Sound(db) && FreshIds(db, ids) && CanReconcile(db, at)
    ensures var after := ReconcileInterrupted(db, at, ids).db;
            && OpenRuns(after) == {} && StuckTasks(after) == {}
            && after.tasks.Keys == db.tasks.Keys && after.runs.Keys == db.runs.Keys
            && after.routes == db.routes && after.requests == db.requests && after.receipts == db.receipts
            && (forall t :: t in db.tasks && t !in StuckTasks(db) ==>
                  after.tasks[t] == db.tasks[t] && LogOf(after.events, t) == LogOf(db.events, t))
            && (forall t :: t in StuckTasks(db) ==>
                  && after.tasks[t].doc.status == Blocked && after.tasks[t].version == db.tasks[t].version + 1
                  && LogOf(after.events, t) == LogOf(db.events, t) + [BlockEventOf(db, t, at, ids)])
            && (forall r :: r in db.runs && r !in OpenRuns(db) ==> after.runs[r] == db.runs[r])
            && |after.events| == |db.events| + |StuckOrder(db)|
  {
    hide LogOf, RowFits, UniqueIds, RunFits, InOrder;
    forall t | t in db.tasks
      ensures LogOf(ReconcileInterrupted(db, at, ids).db.events, t) ==
              if t in StuckTasks(db) then LogOf(db.events, t) + [BlockEventOf(db, t, at, ids)] else LogOf(db.events, t)
    {
      RowAfterReconcile(db, at, ids, t);
    }
  }

  /** A second reconciliation, at any time, finds nothing and changes nothing. */
  lemma ReconcileIdempotent(db: Db, at: Time, ids: TaskId -> EventId, later: Time, more: TaskId -> EventId)
    requires Sound(db) && FreshIds(db, ids) && CanReconcile(db, at)
    ensures var after := ReconcileInterrupted(db, at, ids).db;
            ReconcileInterrupted(after, later, more) == Outcome(after, Ok(Reconciled([], [], [])))
  {
    var after := ReconcileInterrupted(db, at, ids).db;
    ReconcileCompleteAndMinimal(db, at, ids);
    hide ReconcileInterrupted;
    NothingToReconcile(after, later, more);
  }

  lemma NothingToReconcile(db: Db, at: Time, ids: TaskId -> EventId)
    requires OpenRuns(db) == {} && StuckTasks(db) == {}
    ensures ReconcileInterrupted(db, at, ids) == Outcome(db, Ok(Reconciled([], [], [])))
  {
    hide InOrder;
    StuckAreTasks(db);
    assert TasksAfter(db, at) == db.tasks && RunsAfter(db, at) == db.runs;
    assert OpenOrder(db) == [] && CanReconcile(db, at);
    assert db.events + Emitted(db, at, ids) == db.events;
    assert InterruptedDocs(db, OpenOrder(db), at) == [] && BlockedDocs(db, StuckOrder(db), at) == [];
    assert Numbered(|db.events|, Emitted(db, at, ids)) == [];
    assert db.(tasks := TasksAfter(db, at), runs := RunsAfter(db, at), events := db.events + Emitted(db, at, ids)) == db;
  }

  // ---------------------------------------------------------------- queue listing

  function QueueKeys(db: Db): set<Key> {
    set t | t in db.tasks && db.tasks[t].status.Queued? :: (db.tasks[t].createdAt, t)
  }

  function DocsOf(db: Db, keys: seq<Key>): seq<Task>
    requires forall i :: 0 <= i < |keys| ==> keys[i].1 in db.tasks
  {
    seq(|keys|, i requires 0 <= i < |keys| => db.tasks[keys[i].1].doc)
  }

  function Take<T>(s: seq<T>, limit: nat): seq<T> {
    if |s| <= limit then s else s[..limit]
  }

  /** The rows of a limited listing over the status column, oldest first. */
  ghost function QueuedTasks(db: Db, limit: nat): seq<Task> {
    var keys := Take(Listing(QueueKeys(db)), limit);
    assert forall i :: 0 <= i < |keys| ==> keys[i] in Listing(QueueKeys(db));
    DocsOf(db, keys)
  }

  function AgeKey(t: Task): Key {
    (t.createdAt, t.taskId)
  }

  /** `listed` is exactly the first `limit` tasks whose document is queued, in (creation time, id) order. */
  predicate ServesOldestQueued(db: Db, listed: seq<Task>, limit: nat) {
    && |listed| <= limit
    && (forall i :: 0 <= i < |listed| ==>
          listed[i].status == Queued && listed[i].taskId in db.tasks && db.tasks[listed[i].taskId].doc == listed[i])
    && (forall i, j :: 0 <= i < j < |listed| ==>
          KeyLe(AgeKey(listed[i]), AgeKey(listed[j])) && listed[i].taskId != listed[j].taskId)
    && (forall t :: t in db.tasks && db.tasks[t].doc.status == Queued && db.tasks[t].doc !in listed ==>
          && |listed| == limit
          && forall i :: 0 <= i < |listed| ==> KeyLe(AgeKey(listed[i]), AgeKey(db.tasks[t].doc)))
  }

  /** In a sound store the listing over the columns serves the queue the documents describe. */
  lemma ListingServesOldestQueued(db: Db, limit: nat)
    requires Sound(db)
    ensures ServesOldestQueued(db, QueuedTasks(db, limit), limit)
  {
    hide LogOf, UniqueIds, RunFits, QueuedTasks, ServesOldestQueued;
    forall t | t in db.tasks ensures ColumnsRepeat(t, db.tasks[t]) {
      assert RowFits(t, db.tasks[t], LogOf(db.events, t));
    }
    hide Sound, RowFits;
    ListingOverColumns(db, limit);
  }

  predicate ColumnsRepeat(id: TaskId, row: TaskRow) {
    row.doc.taskId == id && row.status == row.doc.status && row.createdAt == row.doc.createdAt
  }

  lemma ListingOverColumns(db: Db, limit: nat)
    requires forall t :: t in db.tasks ==> ColumnsRepeat(t, db.tasks[t])
    ensures ServesOldestQueued(db, QueuedTasks(db, limit), limit)
  {
    var all := Listing(QueueKeys(db));
    var listed := QueuedTasks(db, limit);
    forall i | 0 <= i < |all|
      ensures all[i].1 in db.tasks && db.tasks[all[i].1].doc.status == Queued && AgeKey(db.tasks[all[i].1].doc) == all[i]
    {
      assert all[i] in QueueKeys(db);
    }
    forall t | t in db.tasks && db.tasks[t].doc.status == Queued
      ensures db.tasks[t].doc in listed ||
              (|listed| == limit && forall i :: 0 <= i < |listed| ==> KeyLe(AgeKey(listed[i]), AgeKey(db.tasks[t].doc)))
    {
      var k := AgeKey(db.tasks[t].doc);
      assert k in QueueKeys(db);
      var i :| 0 <= i < |all| && all[i] == k;
      if i < |listed| {
        assert listed[i] == db.tasks[t].doc;
      }
    }
  }
}
