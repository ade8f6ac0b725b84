/** What becomes of a task that two overlapping calls of process_task took up (orchestrator/service.py). */
module StaleClaims {
  import opened Wrappers
  import opened Lifecycle
  import opened Events
  import opened StoreModel
  import opened StoreRuns
  import opened StoreHistory
  import opened Workers
  import opened Settlement
  import opened Engine
  import Gateway

  // ---------------------------------------------------------------- workers keep their task in mind

  predicate HasTask(pc: Pc) {
    !pc.Start? && !pc.Returned? && !pc.Failing?
  }

  /** The task a worker carries is the one it was started on, but for what may change. */
  predicate Minds(db: Db, w: Worker) {
    HasTask(w.pc) ==> w.id in db.tasks && SameIdentity(w.pc.task, db.tasks[w.id].doc)
  }

  predicate AllMind(db: Db, workers: map<nat, Worker>) {
    forall w :: w in workers ==> Minds(db, workers[w])
  }

  lemma MoveResult(db: Db, id: TaskId, target: Status, e: Event)
    ensures var o := MoveTask(db, id, target, e);
            o.result.Ok? ==> id in o.db.tasks && o.db.tasks[id].doc == o.result.value
  {
    hide Lookup, LifecycleEventMatches, Lifecycle.TransitionTask;
  }

  lemma AssignResult(db: Db, id: TaskId, agent: Identifier, e: Event)
    ensures var o := AssignTask(db, id, agent, e);
            o.result.Ok? ==> id in o.db.tasks && o.db.tasks[id].doc == o.result.value
  {
    hide Lookup, ValidTask;
  }

  /** Wherever a worker's new task comes from, it is the document stored under the old one's id. */
  lemma NextTaskIsStored(db: Db, developer: Chooser, id: TaskId, pc: Pc, c: Choice)
    requires HasTask(pc) || pc.Start?
    ensures var n := Next(db, developer, id, pc, c);
            var key := if pc.Start? then id else pc.task.taskId;
            HasTask(n.1) ==> (HasTask(pc) && n.1.task == pc.task) || (key in n.0.tasks && n.1.task == n.0.tasks[key].doc)
  {
    hide MoveTask, AssignTask, CreateRun, StartRun, FinishRun;
    match pc
    case Claim(task) => MoveResult(db, task.taskId, Planning, LifecycleEvent(task, Planning, c));
    case Assign(task, agent) => AssignResult(db, task.taskId, agent, AssignmentEvent(task, agent, c));
    case ToRunning(task, _) => MoveResult(db, task.taskId, Running, LifecycleEvent(task, Running, c));
    case Conclude(task, result) =>
      MoveResult(db, task.taskId, TaskStatusOf(result), LifecycleEvent(task, TaskStatusOf(result), c));
    case _ =>
  }

  lemma NextFollows(db: Db, developer: Chooser, id: TaskId, pc: Pc, c: Choice)
    requires Sound(db)
    ensures Sound(Next(db, developer, id, pc, c).0) && Follows(db, Next(db, developer, id, pc, c).0)
  {
    hide Sound, Next, OpOf, After, Follows, WellFormed;
    WorkerUsesTransactions(db, developer, id, pc, c);
    FollowsItself(db);
    if OpOf(pc, c).Some? {
      StepSound(db, OpOf(pc, c).value);
      StepFollows(db, OpOf(pc, c).value);
    }
  }

  lemma IdentityStays(a: Db, b: Db, id: TaskId)
    requires Follows(a, b) && id in a.tasks
    ensures id in b.tasks && SameIdentity(a.tasks[id].doc, b.tasks[id].doc)
  {
    assert TaskSettles(a.tasks[id].doc, b.tasks[id].doc);
  }

  lemma MindsStays(a: Db, b: Db, w: Worker)
    requires Minds(a, w) && Follows(a, b)
    ensures Minds(b, w)
  {
    if HasTask(w.pc) {
      IdentityStays(a, b, w.id);
    }
  }

  lemma MindsNext(db: Db, developer: Chooser, w: Worker, c: Choice)
    requires Sound(db) && Minds(db, w)
    ensures Minds(WorkerStep(db, developer, w, c).0, WorkerStep(db, developer, w, c).1)
  {
    hide Sound, Follows, Next;
    var n := Next(db, developer, w.id, w.pc, c);
    NextFollows(db, developer, w.id, w.pc, c);
    MindsStays(db, n.0, w);
    if HasTask(w.pc) {
      TaskIdIsKey(db, w.id);
    }
    if HasTask(w.pc) || w.pc.Start? {
      NextTaskIsStored(db, developer, w.id, w.pc, c);
    } else {
      FinishedStays(db, developer, w, c);
    }
  }

  lemma FinishedStays(db: Db, developer: Chooser, w: Worker, c: Choice)
    requires Workers.Finished(w)
    ensures Next(db, developer, w.id, w.pc, c) == (db, w.pc)
  {
  }

  lemma StepKeepsMind(s: State, taskIds: IdFactory, a: Action)
    requires Sound(s.db) && AllMind(s.db, s.workers) && Enabled(s, a)
    ensures AllMind(Step(s, taskIds, a).db, Step(s, taskIds, a).workers)
  {
    hide Sound, Minds, Follows, WorkerStep;
    StepKeepsStore(s, taskIds, a);
    var after := Step(s, taskIds, a);
    forall w | w in s.workers ensures Minds(after.db, s.workers[w]) {
      MindsStays(s.db, after.db, s.workers[w]);
    }
    WorkersMove(s, taskIds, a);
    hide Step, Enabled;
    if a.Work? {
      MindsNext(s.db, s.developer, s.workers[a.worker], a.c);
    }
    NewcomerMinds(after.db);
  }

  lemma NewcomerMinds(db: Db)
    ensures forall id, stamp :: Minds(db, Worker(id, Start, stamp))
  {
  }

  /** A step changes at most one worker: it moves it, starts it, or removes it; a crash removes all. */
  lemma WorkersMove(s: State, taskIds: IdFactory, a: Action)
    requires Enabled(s, a)
    ensures Step(s, taskIds, a).workers ==
            match a
            case Work(w, c) => s.workers[w := WorkerStep(s.db, s.developer, s.workers[w], c).1]
            case Poll(w, id) => s.workers[w := Worker(id, Start, 0)]
            case Kill(w) => s.workers - {w}
            case Crash(_, _) => map[]
            case _ => s.workers
    ensures a.Work? ==> Step(s, taskIds, a).db == WorkerStep(s.db, s.developer, s.workers[a.worker], a.c).0
    ensures !a.Crash? ==> Step(s, taskIds, a).developer == s.developer
  {
    hide WorkerStep, Gateway.Next, ReconcileInterrupted, Gateway.Submit, Lookup, FreshIds;
  }

  // ---------------------------------------------------------------- when a claim is accepted, and what it leaves

  /** With working storage and a new event id, a claim is accepted exactly when the stored task is queued
      or blocked and the clock is not behind it. */
  lemma ClaimAcceptance(db: Db, id: TaskId, task: Task, c: Choice)
    requires Sound(db) && id in db.tasks && SameIdentity(task, db.tasks[id].doc)
    requires !c.storageFails && Lookup(db.events, c.eventId).None?
    ensures var doc, o := db.tasks[id].doc, TryMove(db, task, Planning, c);
            && (o.result.Ok? <==> (doc.status.Queued? || doc.status.Blocked?) && TimelyFor(doc, c.at))
            && (if o.result.Ok?
                then && o.result.value == Moved(doc, Planning, c.at) && id in o.db.tasks
                     && o.db.tasks[id].doc == Moved(doc, Planning, c.at) && RunsOf(o.db, id) == RunsOf(db, id)
                else o.db == db)
  {
    hide Sound, Lookup, ValidTask, MoveTask;
    TaskIdIsKey(db, id);
    FreshMove(db, id, Planning, LifecycleEvent(task, Planning, c));
    TransitionAcceptance(db.tasks[id].doc, Planning, c.at);
  }

  /** With working storage and a new event id, a cancellation is accepted exactly when the stored task is
      not over and the clock is not behind it. */
  lemma CancellationAcceptance(db: Db, id: TaskId, task: Task, g: Gateway.Choice)
    requires Sound(db) && id in db.tasks && SameIdentity(task, db.tasks[id].doc)
    requires !g.storageFails && Lookup(db.events, g.createdId).None?
    ensures var doc := db.tasks[id].doc;
            Gateway.Move(db, task, Lifecycle.Cancelled, g).result.Ok? <==> !IsTerminal(doc.status) && TimelyFor(doc, g.at)
  {
    hide Sound, Lookup, ValidTask, MoveTask;
    TaskIdIsKey(db, id);
    FreshMove(db, id, Lifecycle.Cancelled, Gateway.CommandEvent(task, Lifecycle.Cancelled, g));
    TransitionAcceptance(db.tasks[id].doc, Lifecycle.Cancelled, g.at);
  }

  /** The worker gave up and its task is left in planning. */
  predicate LeftInPlanning(db: Db, w: Worker) {
    w.pc.Failing? && w.id in db.tasks && db.tasks[w.id].doc.status.Planning?
  }

  predicate Refusable(db: Db, w: Worker, c: Choice) {
    Minds(db, w) && !c.storageFails && Lookup(db.events, c.eventId).None?
  }

  /** An assignment, whatever happened since the claim, leaves its task in planning exactly when the task is
      still in planning and already lists the agent. */
  lemma AssignmentStrands(db: Db, developer: Chooser, w: Worker, c: Choice)
    requires Sound(db) && w.pc.Assign? && w.pc.task.status.Planning? && Refusable(db, w, c)
    ensures var n, doc := WorkerStep(db, developer, w, c), db.tasks[w.id].doc;
            && (LeftInPlanning(n.0, n.1) <==> doc.status.Planning? && w.pc.agent in doc.agents)
            && (w.pc.agent in doc.agents || !doc.status.Planning? ==> n.1.pc.Failing? && n.0 == db)
  {
    hide Sound, Lookup, LogOf;
    TaskIdIsKey(db, w.id);
    var doc := db.tasks[w.id].doc;
    if w.pc.agent !in doc.agents {
      AnotherAgentIsValid(doc, w.pc.agent);
    }
    hide ValidTask;
  }

  lemma AnotherAgentIsValid(doc: Task, agent: Identifier)
    requires ValidTask(doc) && agent !in doc.agents
    ensures ValidTask(doc.(agents := doc.agents + [agent]))
  {
  }

  /** A claim that is accepted, followed at once by its assignment, leaves the task in planning with nobody
      at work exactly when the task already lists the developer that is chosen again. */
  lemma StrandingExact(db: Db, developer: Chooser, w: Worker, first: Choice, second: Choice)
    requires Sound(db) && w.pc.Claim? && Refusable(db, w, first)
    requires var n := WorkerStep(db, developer, w, first);
             n.1.pc.Assign? && !second.storageFails && Lookup(n.0.events, second.eventId).None?
    ensures var doc, n := db.tasks[w.id].doc, WorkerStep(db, developer, w, first);
            var end := WorkerStep(n.0, developer, n.1, second);
            && developer(doc.project, doc.team) == Some(n.1.pc.agent)
            && (LeftInPlanning(end.0, end.1) <==> n.1.pc.agent in doc.agents)
  {
    hide Sound, Lookup, TryMove, TryAssign, ValidTask, RunsOf;
    ClaimAcceptance(db, w.id, w.pc.task, first);
    var n := WorkerStep(db, developer, w, first);
    MindsNext(db, developer, w, first);
    NextFollows(db, developer, w.id, w.pc, first);
    hide Next;
    AssignmentStrands(n.0, developer, n.1, second);
  }
}
