/** A task is executed at most once, and completed only by a run that succeeded, however the hub is
    interrupted (orchestrator/service.py). */
module AtMostOnce {
  import opened Wrappers
  import opened Lifecycle
  import opened Events
  import opened StoreModel
  import opened StoreRuns
  import opened StoreHistory
  import opened Engine
  import Workers
  import Settlement
  import Gateway
  import Runs

  // ---------------------------------------------------------------- invariant

  predicate RanWell(db: Db, id: TaskId) {
    exists r :: r in db.runs && db.runs[r].doc.taskId == id && db.runs[r].doc.status.Succeeded?
  }

  predicate NoRunOf(db: Db, id: TaskId) {
    forall r :: r in db.runs ==> db.runs[r].doc.taskId != id
  }

  predicate OneRunEach(db: Db) {
    forall r, q :: r in db.runs && q in db.runs && db.runs[r].doc.taskId == db.runs[q].doc.taskId ==> r == q
  }

  /** A waiting task has not been given out, a task with a run has, and a completed one ran well. */
  predicate TablesFit(db: Db) {
    && (forall t :: t in db.tasks ==> !db.tasks[t].doc.status.Pending?)
    && (forall t :: t in db.tasks && db.tasks[t].doc.status.Queued? ==> db.tasks[t].doc.agents == [])
    && (forall t :: t in db.tasks && db.tasks[t].doc.status.Completed? ==> RanWell(db, t))
    && (forall r :: r in db.runs ==> db.runs[r].doc.taskId in db.tasks && db.tasks[db.runs[r].doc.taskId].doc.agents != [])
    && OneRunEach(db)
  }

  /** The task was never given out, or was given to the very developer a claim would choose again. */
  predicate MayClaim(db: Db, developer: Workers.Chooser, id: TaskId) {
    && id in db.tasks
    && var doc := db.tasks[id].doc;
       doc.agents == [] ||
       (developer(doc.project, doc.team).Some? && developer(doc.project, doc.team).value in doc.agents)
  }

  /** The one worker that may still create the task's run stands at one of these points. */
  predicate HoldsPermit(pc: Workers.Pc) {
    pc.Open? || pc.ToRunning? || pc.OpenRun?
  }

  predicate RunOf(db: Db, run: Runs.RunId, id: TaskId) {
    run in db.runs && db.runs[run].doc.taskId == id
  }

  predicate WorkerFits(db: Db, developer: Workers.Chooser, w: Workers.Worker) {
    match w.pc
    case Claim(task) => task.taskId == w.id && MayClaim(db, developer, w.id)
    case Assign(task, agent) =>
      && task.taskId == w.id && task.status.Planning? && MayClaim(db, developer, w.id)
      && developer(db.tasks[w.id].doc.project, db.tasks[w.id].doc.team) == Some(agent)
    case Open(task, _) => task.taskId == w.id && Permitted(db, w.id)
    case ToRunning(task, _) => task.taskId == w.id && Permitted(db, w.id)
    case OpenRun(task, _) => task.taskId == w.id && Permitted(db, w.id)
    case BeginRun(task, run) => task.taskId == w.id && RunOf(db, run, w.id)
    case Execute(task, run) => task.taskId == w.id && RunOf(db, run, w.id)
    case CloseRun(task, run, _, _) => task.taskId == w.id && RunOf(db, run, w.id)
    case Recover(task, run) => task.taskId == w.id && RunOf(db, run, w.id)
    case ReadBack(task, result) => task.taskId == w.id && (result.Succeeded? ==> RanWell(db, w.id))
    case Conclude(task, result) => task.taskId == w.id && (result.Succeeded? ==> RanWell(db, w.id))
    case SettleRead(_, target) => target.Blocked? || target.Failed?
    case Settle(_, target) => target.Blocked? || target.Failed?
    case _ => true
  }

  predicate Permitted(db: Db, id: TaskId) {
    id in db.tasks && db.tasks[id].doc.agents != [] && NoRunOf(db, id)
  }

  predicate SharePermit(v: Workers.Worker, w: Workers.Worker) {
    HoldsPermit(v.pc) && HoldsPermit(w.pc) && v.id == w.id
  }

  predicate OnePermitEach(workers: map<nat, Workers.Worker>) {
    forall v, w :: v in workers && w in workers && SharePermit(workers[v], workers[w]) ==> v == w
  }

  predicate AllFit(db: Db, developer: Workers.Chooser, workers: map<nat, Workers.Worker>) {
    forall w :: w in workers ==> WorkerFits(db, developer, workers[w])
  }

  predicate NothingToEnqueue(handlers: map<nat, Gateway.Handler>) {
    forall h :: h in handlers ==> !handlers[h].pc.EnqueueMove?
  }

  ghost predicate Inv(s: State) {
    && Sound(s.db) && TablesFit(s.db)
    && AllFit(s.db, s.developer, s.workers) && OnePermitEach(s.workers)
    && NothingToEnqueue(s.handlers)
  }

  // ---------------------------------------------------------------- steps that give nothing out

  predicate TaskKept(a: Task, b: Task) {
    && b.agents == a.agents && b.project == a.project && b.team == a.team
    && (b.status == a.status || (!b.status.Pending? && !b.status.Queued?))
  }

  /** `b` hands out no task, opens no run, re-queues nothing, and completes only what ran well. */
  predicate Kept(a: Db, b: Db) {
    && (forall t :: t in a.tasks ==> t in b.tasks && TaskKept(a.tasks[t].doc, b.tasks[t].doc))
    && (forall t :: t in b.tasks && t !in a.tasks ==> b.tasks[t].doc.agents == [] && b.tasks[t].doc.status.Queued?)
    && (forall t :: t in b.tasks && b.tasks[t].doc.status.Completed? ==>
          t in a.tasks && (a.tasks[t].doc.status.Completed? || RanWell(a, t)))
    && (forall r :: r in b.runs ==> r in a.runs)
    && (forall r :: r in a.runs ==> r in b.runs && RunKept(a.runs[r].doc, b.runs[r].doc))
  }

  predicate RunKept(a: Runs.Run, b: Runs.Run) {
    b.taskId == a.taskId && (a.status.Succeeded? ==> b.status.Succeeded?)
  }

  lemma RanWellKept(a: Db, b: Db, id: TaskId)
    requires Kept(a, b) && RanWell(a, id)
    ensures RanWell(b, id)
  {
    var r :| r in a.runs && a.runs[r].doc.taskId == id && a.runs[r].doc.status.Succeeded?;
    assert r in b.runs && RunKept(a.runs[r].doc, b.runs[r].doc);
  }

  lemma TablesKept(a: Db, b: Db)
    requires TablesFit(a) && Kept(a, b)
    ensures TablesFit(b)
  {
    hide RanWell;
    forall t | t in b.tasks && b.tasks[t].doc.status.Completed? ensures RanWell(b, t) {
      RanWellKept(a, b, t);
    }
    assert OneRunEach(b) by {
      forall r, q | r in b.runs && q in b.runs && b.runs[r].doc.taskId == b.runs[q].doc.taskId ensures r == q {
        assert RunKept(a.runs[r].doc, b.runs[r].doc) && RunKept(a.runs[q].doc, b.runs[q].doc);
      }
    }
    forall r | r in b.runs ensures b.runs[r].doc.taskId in b.tasks && b.tasks[b.runs[r].doc.taskId].doc.agents != [] {
      assert RunKept(a.runs[r].doc, b.runs[r].doc);
    }
  }

  lemma WorkerKept(a: Db, b: Db, developer: Workers.Chooser, w: Workers.Worker)
    requires Kept(a, b) && WorkerFits(a, developer, w)
    ensures WorkerFits(b, developer, w)
  {
    hide RanWell;
    if RanWell(a, w.id) {
      RanWellKept(a, b, w.id);
    }
    if NoRunOf(a, w.id) {
      forall r | r in b.runs ensures b.runs[r].doc.taskId != w.id {
        assert RunKept(a.runs[r].doc, b.runs[r].doc);
      }
    }
  }

  lemma WorkersKept(a: Db, b: Db, developer: Workers.Chooser, workers: map<nat, Workers.Worker>)
    requires Kept(a, b) && AllFit(a, developer, workers)
    ensures AllFit(b, developer, workers)
  {
    hide Kept, WorkerFits;
    forall w | w in workers ensures WorkerFits(b, developer, workers[w]) {
      WorkerKept(a, b, developer, workers[w]);
    }
  }

  /** The transactions that give nothing out. */
  predicate GivesNothing(db: Db, op: Op) {
    match op
    case OpMove(id, target, _) => !target.Pending? && !target.Queued? && (target.Completed? ==> RanWell(db, id))
    case OpCreateQueued(task, _, _, _) => task.agents == []
    case OpCreate(_, _) => false
    case OpAssign(_, _, _) => false
    case OpCreateRun(_) => false
    case OpAppend(_) => false
    case _ => true
  }

  lemma SameTablesKept(a: Db, b: Db)
    requires b.tasks == a.tasks && b.runs == a.runs
    ensures Kept(a, b)
  {
    hide RanWell;
  }

  lemma RewrittenRowKept(db: Db, id: TaskId, doc: Task, b: Db)
    requires id in db.tasks && TaskKept(db.tasks[id].doc, doc)
    requires doc.status.Completed? ==> db.tasks[id].doc.status.Completed? || RanWell(db, id)
    requires b.tasks.Keys == db.tasks.Keys && b.runs == db.runs && b.tasks[id].doc == doc
    requires forall t :: t in db.tasks && t != id ==> b.tasks[t].doc == db.tasks[t].doc
    ensures Kept(db, b)
  {
    hide RanWell;
  }

  lemma MoveKept(db: Db, id: TaskId, target: Status, e: Event)
    requires GivesNothing(db, OpMove(id, target, e))
    ensures Kept(db, MoveTask(db, id, target, e).db)
  {
    hide RanWell, Lookup, LifecycleEventMatches, TransitionTask, Kept;
    var after := MoveTask(db, id, target, e).db;
    if id !in db.tasks || after == db {
      SameTablesKept(db, after);
    } else {
      TransitionKeepsAgents(db.tasks[id].doc, target, e.timestamp);
      RewrittenRowKept(db, id, after.tasks[id].doc, after);
    }
  }

  lemma CreationKept(db: Db, task: Task, created: Event, queued: Event, route: Option<Route>)
    requires Sound(db) && ValidTask(task) && task.agents == []
    ensures Kept(db, CreateQueuedTask(db, task, created, queued, route).db)
  {
    hide RanWell, Sound, TransitionTask, LifecycleEventMatches, AppendLocked, Lookup, ValidTask;
    var o := CreateQueuedTask(db, task, created, queued, route);
    if o.result.Ok? {
      CreateQueuedShape(db, task, created, queued, route);
      TransitionKeepsAgents(task, Queued, queued.timestamp);
    }
    hide CreateQueuedTask;
  }

  lemma PutRunKept(db: Db, id: Runs.RunId, run: Runs.Run)
    requires id in db.runs && run.runId == id && RunKept(db.runs[id].doc, run)
    ensures Kept(db, PutRun(db, run).db)
  {
    hide RanWell, Runs.ValidRun;
  }

  lemma RunStepKept(db: Db, op: Op)
    requires RunsFit(db) && (op.OpStartRun? || op.OpFinishRun?)
    ensures Kept(db, After(db, op))
  {
    hide RanWell, Runs.ValidRun, Kept, PutRun;
    if op.runId in db.runs {
      assert RunFits(op.runId, db.runs[op.runId]);
    }
    SameTablesKept(db, db);
    match op
    case OpStartRun(id, at) =>
      if id in db.runs && db.runs[id].doc.status.Queued? {
        PutRunKept(db, id, Runs.Started(db.runs[id].doc, at));
      }
    case OpFinishRun(id, status, at, exit, error) =>
      if id in db.runs && !Runs.IsTerminal(db.runs[id].doc.status) {
        PutRunKept(db, id, Runs.Finished(db.runs[id].doc, status, at, exit, error));
      }
  }

  lemma ReconcileKept(db: Db, at: Time, ids: TaskId -> EventId)
    requires RunsFit(db)
    ensures Kept(db, ReconcileInterrupted(db, at, ids).db)
  {
    hide RanWell, InOrder, TransitionTask, Runs.ValidRun, CanReconcile;
    if CanReconcile(db, at) {
      var after := ReconcileInterrupted(db, at, ids).db;
      assert after.tasks == TasksAfter(db, at) && after.runs == RunsAfter(db, at);
      forall r | r in db.runs ensures RunKept(db.runs[r].doc, after.runs[r].doc) {
        assert RunFits(r, db.runs[r]);
      }
    } else {
      SameTablesKept(db, db);
    }
  }

  lemma GivesNothingKept(db: Db, op: Op)
    requires Sound(db) && WellFormed(db, op) && GivesNothing(db, op)
    ensures Kept(db, After(db, op))
  {
    hide RanWell, Kept, ValidTask, Sound;
    match op
    case OpMove(id, target, e) => MoveKept(db, id, target, e);
    case OpCreateQueued(task, c, q, route) => CreationKept(db, task, c, q, route);
    case OpStartRun(_, _) => SoundTables(db); RunStepKept(db, op);
    case OpFinishRun(_, _, _, _, _) => SoundTables(db); RunStepKept(db, op);
    case OpReconcile(at, ids) => SoundTables(db); ReconcileKept(db, at, ids);
    case _ =>
      hide After;
      QuietKeeps(db, op);
      SameTablesKept(db, After(db, op));
  }

  // ---------------------------------------------------------------- the two steps that do

  /** `b` is `a` with the task given to its first agent. */
  predicate GaveOut(a: Db, b: Db, id: TaskId, agent: Identifier) {
    && id in a.tasks && a.tasks[id].doc.agents == [] && a.tasks[id].doc.status.Planning?
    && b.runs == a.runs && b.tasks.Keys == a.tasks.Keys
    && (forall t :: t in a.tasks && t != id ==> b.tasks[t].doc == a.tasks[t].doc)
    && b.tasks[id].doc == a.tasks[id].doc.(agents := [agent])
  }

  lemma TablesAfterGift(a: Db, b: Db, id: TaskId, agent: Identifier)
    requires TablesFit(a) && GaveOut(a, b, id, agent)
    ensures TablesFit(b) && Permitted(b, id)
  {
    hide RanWell, OneRunEach;
    SameOneRunEach(a, b);
    forall t ensures RanWell(a, t) <==> RanWell(b, t) {
      SameRunsRanWell(a, b, t);
    }
  }

  lemma SameOneRunEach(a: Db, b: Db)
    requires a.runs == b.runs && OneRunEach(a)
    ensures OneRunEach(b)
  {
  }

  lemma SameRunsRanWell(a: Db, b: Db, id: TaskId)
    requires a.runs == b.runs
    ensures RanWell(a, id) <==> RanWell(b, id)
  {
  }

  /** Another worker still fits after the gift, and holds no permit for that task. */
  lemma WorkerAfterGift(a: Db, b: Db, developer: Workers.Chooser, id: TaskId, agent: Identifier, v: Workers.Worker)
    requires GaveOut(a, b, id, agent) && WorkerFits(a, developer, v)
    requires developer(a.tasks[id].doc.project, a.tasks[id].doc.team) == Some(agent)
    ensures WorkerFits(b, developer, v) && (HoldsPermit(v.pc) ==> v.id != id)
  {
    hide RanWell;
    SameRunsRanWell(a, b, v.id);
  }

  lemma AssignGivesOut(db: Db, developer: Workers.Chooser, id: TaskId, task: Task, agent: Identifier, c: Workers.Choice)
    requires TablesFit(db) && Lookup(db.events, c.eventId).None?
    requires WorkerFits(db, developer, Workers.Worker(id, Workers.Assign(task, agent), 0))
    ensures var o := Workers.TryAssign(db, task, agent, c);
            if o.result.Ok? then GaveOut(db, o.db, id, agent) && o.result.value == o.db.tasks[id].doc else o.db == db
  {
    hide Lookup, ValidTask, RanWell, OneRunEach;
    if id in db.tasks && db.tasks[id].doc.agents == [] {
      assert db.tasks[id].doc.agents + [agent] == [agent];
    }
  }

  /** `b` is `a` with the task's run created. */
  predicate OpensRun(a: Db, b: Db, id: TaskId, run: Runs.Run) {
    && run.taskId == id && run.runId !in a.runs && run.status.Queued?
    && b.tasks == a.tasks && b.runs == a.runs[run.runId := RunRow(run.status, run)]
  }

  lemma TablesAfterRun(a: Db, b: Db, id: TaskId, run: Runs.Run)
    requires TablesFit(a) && OpensRun(a, b, id, run) && Permitted(a, id)
    ensures TablesFit(b) && RunOf(b, run.runId, id)
  {
    hide RanWell;
    forall t | t in a.tasks && RanWell(a, t) ensures RanWell(b, t) {
      MoreRunsRanWell(a, b, t);
    }
  }

  lemma MoreRunsRanWell(a: Db, b: Db, id: TaskId)
    requires forall r :: r in a.runs ==> r in b.runs && b.runs[r] == a.runs[r]
    requires RanWell(a, id)
    ensures RanWell(b, id)
  {
  }

  lemma WorkerAfterRun(a: Db, b: Db, developer: Workers.Chooser, id: TaskId, run: Runs.Run, v: Workers.Worker)
    requires OpensRun(a, b, id, run) && WorkerFits(a, developer, v) && !(HoldsPermit(v.pc) && v.id == id)
    ensures WorkerFits(b, developer, v)
  {
    hide RanWell;
    if RanWell(a, v.id) {
      MoreRunsRanWell(a, b, v.id);
    }
  }

  // ---------------------------------------------------------------- a worker's own step

  lemma FreshMoveResult(db: Db, id: TaskId, target: Status, e: Event)
    requires Lookup(db.events, e.id).None?
    ensures var o := MoveTask(db, id, target, e);
            o.result.Ok? ==> id in o.db.tasks && o.db.tasks[id].doc == o.result.value && o.result.value.status == target
  {
    hide Lookup, ValidTask, LifecycleEventMatches;
  }

  /** Closing the worker's run as succeeded is what makes a completion legitimate. */
  lemma ClosedWell(db: Db, id: TaskId, run: Runs.RunId, at: Time, exit: Option<int>, error: Option<string>)
    requires RunsFit(db) && RunOf(db, run, id) && FinishRun(db, run, Runs.Succeeded, at, exit, error).result.Ok?
    ensures RanWell(FinishRun(db, run, Runs.Succeeded, at, exit, error).db, id)
  {
    hide Runs.ValidRun;
    assert RunFits(run, db.runs[run]);
    var after := FinishRun(db, run, Runs.Succeeded, at, exit, error).db;
    assert run in after.runs && after.runs[run].doc.taskId == id && after.runs[run].doc.status.Succeeded?;
  }

  /** The step keeps what is given out, and the worker fits its new place. */
  predicate CarriesOn(db: Db, developer: Workers.Chooser, w: Workers.Worker, after: Db, n: Workers.Worker) {
    && Kept(db, after) && WorkerFits(after, developer, n) && n.id == w.id && (HoldsPermit(n.pc) ==> HoldsPermit(w.pc))
  }

  lemma WorkerGivesNothing(db: Db, developer: Workers.Chooser, w: Workers.Worker, c: Workers.Choice)
    requires WorkerFits(db, developer, w) && !w.pc.Assign? && !w.pc.OpenRun?
    ensures var op := Settlement.OpOf(w.pc, c); op.Some? ==> GivesNothing(db, op.value)
  {
    hide RanWell;
  }

  lemma WorkerKeeps(db: Db, developer: Workers.Chooser, w: Workers.Worker, c: Workers.Choice)
    requires Sound(db) && WorkerFits(db, developer, w) && !w.pc.Assign? && !w.pc.OpenRun?
    ensures Kept(db, Workers.WorkerStep(db, developer, w, c).0) && Sound(Workers.WorkerStep(db, developer, w, c).0)
  {
    hide Sound, Kept, WorkerFits, Settlement.OpOf, Workers.Next, After, GivesNothing, WellFormed;
    Settlement.WorkerUsesTransactions(db, developer, w.id, w.pc, c);
    WorkerGivesNothing(db, developer, w, c);
    SameTablesKept(db, db);
    var op := Settlement.OpOf(w.pc, c);
    if op.Some? {
      GivesNothingKept(db, op.value);
      StepSound(db, op.value);
    }
  }

  lemma ReadersCarryOn(db: Db, developer: Workers.Chooser, w: Workers.Worker, c: Workers.Choice)
    requires TablesFit(db) && WorkerFits(db, developer, w)
    requires forall t :: t in db.tasks ==> db.tasks[t].doc.taskId == t
    requires w.pc.Start? || w.pc.Open? || w.pc.Execute? || w.pc.ReadBack? || w.pc.Leave? || w.pc.RecoverRead? || w.pc.SettleRead?
             || Workers.Finished(w)
    ensures CarriesOn(db, developer, w, Workers.WorkerStep(db, developer, w, c).0, Workers.WorkerStep(db, developer, w, c).1)
  {
    hide RanWell, Kept, OneRunEach;
    SameTablesKept(db, db);
  }

  lemma MoversCarryOn(db: Db, developer: Workers.Chooser, w: Workers.Worker, c: Workers.Choice)
    requires Sound(db) && WorkerFits(db, developer, w) && Lookup(db.events, c.eventId).None?
    requires w.pc.Claim? || w.pc.ToRunning? || w.pc.Conclude? || w.pc.Settle?
    ensures CarriesOn(db, developer, w, Workers.WorkerStep(db, developer, w, c).0, Workers.WorkerStep(db, developer, w, c).1)
  {
    hide Sound, Lookup, RanWell, Kept, MoveTask, Permitted, MayClaim;
    var n := Workers.WorkerStep(db, developer, w, c);
    WorkerKeeps(db, developer, w, c);
    WorkerKept(db, n.0, developer, w);
    var target := match w.pc case Claim(_) => Planning case ToRunning(_, _) => Running
                  case Conclude(_, result) => Workers.TaskStatusOf(result) case Settle(_, t) => t case _ => Planning;
    FreshMoveResult(db, w.pc.task.taskId, target, Workers.LifecycleEvent(w.pc.task, target, c));
    if w.id in n.0.tasks {
      TaskIdIsKey(n.0, w.id);
    }
  }

  lemma RunnersCarryOn(db: Db, developer: Workers.Chooser, w: Workers.Worker, c: Workers.Choice)
    requires Sound(db) && WorkerFits(db, developer, w)
    requires w.pc.BeginRun? || w.pc.CloseRun? || w.pc.Recover?
    ensures CarriesOn(db, developer, w, Workers.WorkerStep(db, developer, w, c).0, Workers.WorkerStep(db, developer, w, c).1)
  {
    hide Sound, RanWell, Kept, StartRun, FinishRun, RunsFit;
    var n := Workers.WorkerStep(db, developer, w, c);
    WorkerKeeps(db, developer, w, c);
    WorkerKept(db, n.0, developer, w);
    SoundTables(db);
    if n.1.pc.ReadBack? && w.pc.CloseRun? && w.pc.result.Succeeded? {
      ClosedWell(db, w.id, w.pc.run, c.at, w.pc.exitCode, None);
    }
  }

  lemma OthersCarryOn(db: Db, developer: Workers.Chooser, w: Workers.Worker, c: Workers.Choice)
    requires Sound(db) && TablesFit(db) && WorkerFits(db, developer, w) && Lookup(db.events, c.eventId).None?
    requires !w.pc.Assign? && !w.pc.OpenRun?
    ensures CarriesOn(db, developer, w, Workers.WorkerStep(db, developer, w, c).0, Workers.WorkerStep(db, developer, w, c).1)
  {
    hide Sound, TablesFit, WorkerFits, Lookup, CarriesOn, Workers.WorkerStep;
    match w.pc
    case Claim(_) => MoversCarryOn(db, developer, w, c);
    case ToRunning(_, _) => MoversCarryOn(db, developer, w, c);
    case Conclude(_, _) => MoversCarryOn(db, developer, w, c);
    case Settle(_, _) => MoversCarryOn(db, developer, w, c);
    case BeginRun(_, _) => RunnersCarryOn(db, developer, w, c);
    case CloseRun(_, _, _, _) => RunnersCarryOn(db, developer, w, c);
    case Recover(_, _) => RunnersCarryOn(db, developer, w, c);
    case _ =>
      TaskIdsAreKeys(db);
      ReadersCarryOn(db, developer, w, c);
  }

  // ---------------------------------------------------------------- every step of the engine

  lemma PermitsCarryOn(workers: map<nat, Workers.Worker>, w: nat, n: Workers.Worker)
    requires OnePermitEach(workers) && w in workers && n.id == workers[w].id
    requires HoldsPermit(n.pc) ==> HoldsPermit(workers[w].pc) || forall v :: v in workers && HoldsPermit(workers[v].pc) ==> workers[v].id != n.id
    ensures OnePermitEach(workers[w := n])
  {
    var after := workers[w := n];
    forall u, v | u in after && v in after && SharePermit(after[u], after[v]) ensures u == v {
      if u != w && v != w {
        assert SharePermit(workers[u], workers[v]);
      } else if HoldsPermit(workers[w].pc) {
        assert SharePermit(workers[u], workers[v]);
      }
    }
  }

  lemma CarriedWork(s: State, taskIds: IdFactory, w: nat, c: Workers.Choice)
    requires Inv(s) && Enabled(s, Work(w, c)) && !s.workers[w].pc.Assign? && !s.workers[w].pc.OpenRun?
    ensures Inv(Step(s, taskIds, Work(w, c)))
  {
    hide Sound, TablesFit, WorkerFits, Lookup, Kept, Workers.WorkerStep, OnePermitEach, HoldsPermit;
    var n := Workers.WorkerStep(s.db, s.developer, s.workers[w], c);
    OthersCarryOn(s.db, s.developer, s.workers[w], c);
    StepKeepsStore(s, taskIds, Work(w, c));
    TablesKept(s.db, n.0);
    WorkersKept(s.db, n.0, s.developer, s.workers);
    PermitsCarryOn(s.workers, w, n.1);
  }

  /** An accepted assignment gives the task out and the permit with it. */
  lemma AssigningStep(db: Db, developer: Workers.Chooser, w: Workers.Worker, c: Workers.Choice)
    requires Sound(db) && TablesFit(db) && WorkerFits(db, developer, w) && w.pc.Assign? && Lookup(db.events, c.eventId).None?
    ensures developer(db.tasks[w.id].doc.project, db.tasks[w.id].doc.team) == Some(w.pc.agent)
    ensures var n := Workers.WorkerStep(db, developer, w, c);
            && n.1.id == w.id
            && if n.1.pc.Open? then TablesFit(n.0) && GaveOut(db, n.0, w.id, w.pc.agent) && WorkerFits(n.0, developer, n.1)
               else n.0 == db && n.1.pc.Failing?
  {
    hide Sound, Lookup, TablesFit, GaveOut, Permitted, MayClaim, Workers.TryAssign, RanWell;
    var n := Workers.WorkerStep(db, developer, w, c);
    AssignGivesOut(db, developer, w.id, w.pc.task, w.pc.agent, c);
    Settlement.NextKeepsSound(db, developer, w.id, w.pc, c);
    if n.1.pc.Open? {
      TablesAfterGift(db, n.0, w.id, w.pc.agent);
      TaskOfPermit(n.0, w.id);
    }
  }

  lemma TaskOfPermit(db: Db, id: TaskId)
    requires Sound(db) && Permitted(db, id)
    ensures id in db.tasks && db.tasks[id].doc.taskId == id
  {
    hide Sound;
    TaskIdIsKey(db, id);
  }

  lemma WorkersAfterGift(a: Db, b: Db, developer: Workers.Chooser, id: TaskId, agent: Identifier, workers: map<nat,
      Workers.Worker>)
    requires GaveOut(a, b, id, agent) && AllFit(a, developer, workers)
    requires developer(a.tasks[id].doc.project, a.tasks[id].doc.team) == Some(agent)
    ensures AllFit(b, developer, workers)
    ensures forall v :: v in workers && HoldsPermit(workers[v].pc) ==> workers[v].id != id
  {
    hide WorkerFits, GaveOut;
    forall v | v in workers
      ensures WorkerFits(b, developer, workers[v]) && (HoldsPermit(workers[v].pc) ==> workers[v].id != id)
    {
      WorkerAfterGift(a, b, developer, id, agent, workers[v]);
    }
  }

  lemma AssigningWork(s: State, taskIds: IdFactory, w: nat, c: Workers.Choice)
    requires Inv(s) && Enabled(s, Work(w, c)) && s.workers[w].pc.Assign?
    ensures Inv(Step(s, taskIds, Work(w, c)))
  {
    hide Sound, Lookup, TablesFit, WorkerFits, GaveOut, OnePermitEach, Workers.WorkerStep;
    AssigningStep(s.db, s.developer, s.workers[w], c);
    StepKeepsStore(s, taskIds, Work(w, c));
    var n := Workers.WorkerStep(s.db, s.developer, s.workers[w], c);
    if n.1.pc.Open? {
      WorkersAfterGift(s.db, n.0, s.developer, n.1.id, s.workers[w].pc.agent, s.workers);
    } else {
      FinishedFits(n.0, s.developer, n.1);
    }
    PermitsCarryOn(s.workers, w, n.1);
  }

  lemma FinishedFits(db: Db, developer: Workers.Chooser, w: Workers.Worker)
    requires w.pc.Failing? || w.pc.RecoverRead?
    ensures WorkerFits(db, developer, w)
  {
  }

  /** An accepted creation opens the task's run and uses the permit up. */
  lemma OpeningStep(db: Db, developer: Workers.Chooser, w: Workers.Worker, c: Workers.Choice)
    requires TablesFit(db) && WorkerFits(db, developer, w) && w.pc.OpenRun?
    ensures var n := Workers.WorkerStep(db, developer, w, c);
            && n.1.id == w.id
            && if n.1.pc.BeginRun?
               then && OpensRun(db, n.0, w.id, Workers.NewRun(w.pc.task, w.pc.agent, c))
                    && TablesFit(n.0) && WorkerFits(n.0, developer, n.1)
               else n.0 == db && n.1.pc.RecoverRead?
  {
    hide TablesFit, RanWell;
    var n := Workers.WorkerStep(db, developer, w, c);
    if n.1.pc.BeginRun? {
      TablesAfterRun(db, n.0, w.id, Workers.NewRun(w.pc.task, w.pc.agent, c));
    }
  }

  lemma WorkersAfterRun(a: Db, b: Db, developer: Workers.Chooser, run: Runs.Run, w: nat, workers: map<nat,
      Workers.Worker>)
    requires w in workers && OpensRun(a, b, workers[w].id, run) && AllFit(a, developer, workers)
    requires OnePermitEach(workers) && HoldsPermit(workers[w].pc)
    ensures forall v :: v in workers && v != w ==> WorkerFits(b, developer, workers[v])
  {
    hide WorkerFits, OpensRun;
    forall v | v in workers && v != w ensures WorkerFits(b, developer, workers[v]) {
      assert !SharePermit(workers[v], workers[w]);
      WorkerAfterRun(a, b, developer, workers[w].id, run, workers[v]);
    }
  }

  lemma OpeningWork(s: State, taskIds: IdFactory, w: nat, c: Workers.Choice)
    requires Inv(s) && Enabled(s, Work(w, c)) && s.workers[w].pc.OpenRun?
    ensures Inv(Step(s, taskIds, Work(w, c)))
  {
    hide Sound, Lookup, TablesFit, WorkerFits, OpensRun, OnePermitEach, Workers.WorkerStep;
    OpeningStep(s.db, s.developer, s.workers[w], c);
    StepKeepsStore(s, taskIds, Work(w, c));
    var n := Workers.WorkerStep(s.db, s.developer, s.workers[w], c);
    if n.1.pc.BeginRun? {
      WorkersAfterRun(s.db, n.0, s.developer, Workers.NewRun(s.workers[w].pc.task, s.workers[w].pc.agent, c), w, s.workers);
    } else {
      FinishedFits(n.0, s.developer, n.1);
    }
    PermitsCarryOn(s.workers, w, n.1);
  }

  /** Only a pending task would be queued by a request, and there is none. */
  lemma HandlersNeverEnqueue(db: Db, teams: map<Identifier, Identifier>, taskIds: IdFactory, r: Gateway.Request,
      pc: Gateway.Pc, g: Gateway.Choice)
    requires TablesFit(db) && !pc.EnqueueMove?
    ensures !Gateway.Next(db, teams, taskIds, r, pc, g).1.EnqueueMove?
    ensures HandlerOp(pc, r, g).Some? ==> GivesNothing(db, HandlerOp(pc, r, g).value)
  {
    hide RanWell, OneRunEach, CreateQueuedTask, MoveTask, ReserveRequest, RememberResponse, ReleaseRequest;
  }

  ghost predicate OtherActionGivesNothing(s: State, a: Action) {
    ActionOp(s, a).Some? ==> GivesNothing(s.db, ActionOp(s, a).value)
  }

  /** No worker moves: some may be gone, and one may have just been polled in. */
  ghost predicate WorkersStay(s: State, after: State) {
    || after.workers == map[]
    || (&& after.developer == s.developer
        && (|| after.workers == s.workers
            || (exists w: nat :: w in s.workers && after.workers == s.workers - {w})
            || (exists w: nat, id: TaskId :: w !in s.workers && after.workers == s.workers[w := Workers.Worker(id, Workers.Start, 0)])))
  }

  lemma OtherActions(s: State, taskIds: IdFactory, a: Action)
    requires Inv(s) && Enabled(s, a) && !a.Work?
    ensures OtherActionGivesNothing(s, a)
    ensures NothingToEnqueue(Step(s, taskIds, a).handlers)
    ensures WorkersStay(s, Step(s, taskIds, a))
  {
    hide Sound, TablesFit, WorkerFits, Lookup, OnePermitEach, Gateway.Next, HandlerOp, ReconcileInterrupted,
         ReconcileRequests, ReconcileDeliveries, CreateQueuedTask, FreshIds, RanWell;
    match a
    case Handle(h, g) =>
      HandlersNeverEnqueue(s.db, s.teams, taskIds, s.handlers[h].request, s.handlers[h].pc, g);
    case _ =>
  }

  lemma StayingWorkersFit(s: State, after: State)
    requires AllFit(after.db, s.developer, s.workers) && OnePermitEach(s.workers) && WorkersStay(s, after)
    ensures AllFit(after.db, after.developer, after.workers) && OnePermitEach(after.workers)
  {
    hide WorkerFits;
    NewcomersFit(after.db, s.developer);
  }

  lemma OtherStep(s: State, taskIds: IdFactory, a: Action)
    requires Inv(s) && Enabled(s, a) && !a.Work?
    ensures Inv(Step(s, taskIds, a))
  {
    var after := Step(s, taskIds, a);
    OtherActions(s, taskIds, a);
    EngineUsesTransactions(s, taskIds, a);
    StepKeepsStore(s, taskIds, a);
    SameTablesKept(s.db, s.db);
    hide Sound, TablesFit, AllFit, OnePermitEach, WorkersStay, Kept, Step, Enabled, ActionOp, GivesNothing, WellFormed, After, Follows;
    if ActionOp(s, a).Some? {
      GivesNothingKept(s.db, ActionOp(s, a).value);
    }
    TablesKept(s.db, after.db);
    WorkersKept(s.db, after.db, s.developer, s.workers);
    StayingWorkersFit(s, after);
  }

  lemma NewcomersFit(db: Db, developer: Workers.Chooser)
    ensures forall id :: WorkerFits(db, developer, Workers.Worker(id, Workers.Start, 0))
  {
  }

  lemma StepKeepsInv(s: State, taskIds: IdFactory, a: Action)
    requires Inv(s) && Enabled(s, a)
    ensures Inv(Step(s, taskIds, a))
  {
    if a.Work? {
      var pc := s.workers[a.worker].pc;
      hide Inv, Step;
      if pc.Assign? { AssigningWork(s, taskIds, a.worker, a.c); }
      else if pc.OpenRun? { OpeningWork(s, taskIds, a.worker, a.c); }
      else { CarriedWork(s, taskIds, a.worker, a.c); }
    } else {
      OtherStep(s, taskIds, a);
    }
  }

  lemma {:induction false} RunKeepsInv(s: State, taskIds: IdFactory, actions: seq<Action>)
    requires Inv(s) && Legal(s, taskIds, actions)
    ensures Inv(Run(s, taskIds, actions))
    decreases |actions|
  {
    hide Inv, Step, Enabled;
    if actions != [] {
      StepKeepsInv(s, taskIds, actions[0]);
      RunKeepsInv(Step(s, taskIds, actions[0]), taskIds, actions[1..]);
    }
  }

  /** From an empty store, over every interleaving of workers, requests, cancellations, storage failures,
      crashes and restarts (even with another configuration): no task ever has two run records, a waiting
      task has neither agents nor runs (so a worker may take it up), and a completed task has a run that
      succeeded. */
  lemma AtMostOneRunPerTask(developer: Workers.Chooser, teams: map<Identifier, Identifier>, taskIds: IdFactory,
      actions: seq<Action>)
    requires Legal(Boot(developer, teams), taskIds, actions)
    ensures var db := Run(Boot(developer, teams), taskIds, actions).db;
            && OneRunEach(db)
            && (forall t :: t in db.tasks && db.tasks[t].doc.status.Queued? ==>
                  db.tasks[t].doc.agents == [] && Settlement.RunsOf(db, t) == map[])
            && (forall t :: t in db.tasks && db.tasks[t].doc.status.Completed? ==> RanWell(db, t))
  {
    EmptyStoreIsSound();
    hide Sound, Run, Legal;
    RunKeepsInv(Boot(developer, teams), taskIds, actions);
    WaitingHasNoRuns(Run(Boot(developer, teams), taskIds, actions).db);
  }

  lemma WaitingHasNoRuns(db: Db)
    requires TablesFit(db)
    ensures forall t :: t in db.tasks && db.tasks[t].doc.status.Queued? ==> Settlement.RunsOf(db, t) == map[]
  {
    hide RanWell, OneRunEach;
  }
}
