/** A worker settles the task it took up, whatever runs beside it (orchestrator/service.py). */
module Settlement {
  import opened Wrappers
  import opened Lifecycle
  import opened Events
  import opened StoreModel
  import opened StoreRuns
  import opened StoreHistory
  import opened Workers
  import Runs

  // ---------------------------------------------------------------- one task seen alone

  /** All a worker's fate depends on: the task document and the task's runs. */
  datatype Glimpse = Glimpse(doc: Task, runs: map<Runs.RunId, Runs.Run>)

  function RunsOf(db: Db, id: TaskId): map<Runs.RunId, Runs.Run> {
    map r | r in db.runs && db.runs[r].doc.taskId == id :: db.runs[r].doc
  }

  function Look(db: Db, id: TaskId): Glimpse
    requires id in db.tasks
  {
    Glimpse(db.tasks[id].doc, RunsOf(db, id))
  }

  predicate RunsTerminal(g: Glimpse) {
    forall r :: r in g.runs ==> Runs.IsTerminal(g.runs[r].status)
  }

  predicate SomeRunSucceeded(g: Glimpse) {
    exists r :: r in g.runs && g.runs[r].status.Succeeded?
  }

  /** What is promised of a task a worker has let go of. */
  predicate Settled(g: Glimpse) {
    && (g.doc.status.Blocked? || IsTerminal(g.doc.status))
    && RunsTerminal(g) && |g.runs| <= 1
    && (g.doc.status.Completed? ==> SomeRunSucceeded(g))
  }

  predicate OnlyRun(g: Glimpse, r: Runs.RunId) {
    g.runs.Keys == {r}
  }

  predicate Live(g: Glimpse, s: Status) {
    g.doc.status == s || g.doc.status.Cancelled?
  }

  /** The task document is the one the worker remembers, but for what may change. */
  predicate Remembers(g: Glimpse, task: Task) {
    SameIdentity(task, g.doc)
  }

  predicate ClosedRuns(g: Glimpse) {
    RunsTerminal(g) && |g.runs| <= 1
  }

  /** Where the task stands when the worker stands at `pc`. */
  predicate Phase(g: Glimpse, pc: Pc, stamp: Time) {
    && TimelyFor(g.doc, stamp) && ValidTask(g.doc)
    && (match pc
        case Start => Live(g, Queued) && g.doc.agents == [] && g.runs == map[]
        case Claim(task) => Live(g, Queued) && g.doc.agents == [] && g.runs == map[] && Remembers(g, task)
        case Assign(task, agent) =>
          Live(g, Planning) && g.doc.agents == [] && g.runs == map[] && Remembers(g, task) && task.status.Planning?
        case Open(task, _) => Live(g, Planning) && g.runs == map[] && Remembers(g, task)
        case ToRunning(task, _) => Live(g, Planning) && g.runs == map[] && Remembers(g, task)
        case OpenRun(task, _) => Live(g, Running) && g.runs == map[] && Remembers(g, task)
        case BeginRun(task, run) =>
          Live(g, Running) && OnlyRun(g, run) && Remembers(g, task)
          && g.runs[run].status.Queued? && g.runs[run].createdAt <= stamp && Runs.ValidRun(g.runs[run])
        case Execute(task, run) =>
          Live(g, Running) && OnlyRun(g, run) && Remembers(g, task)
          && g.runs[run].status.Running? && Runs.StartOf(g.runs[run]) <= stamp && Runs.ValidRun(g.runs[run])
        case CloseRun(task, run, result, _) =>
          Live(g, Running) && OnlyRun(g, run) && Remembers(g, task)
          && g.runs[run].status.Running? && Runs.StartOf(g.runs[run]) <= stamp && Runs.ValidRun(g.runs[run])
        case ReadBack(task, result) =>
          Live(g, Running) && ClosedRuns(g) && Remembers(g, task) && (result.Succeeded? ==> SomeRunSucceeded(g))
        case Conclude(task, result) =>
          Live(g, Running) && ClosedRuns(g) && Remembers(g, task) && (result.Succeeded? ==> SomeRunSucceeded(g))
        case Leave(task, status) => Settled(g) && IsTerminal(g.doc.status) && status == g.doc.status && Remembers(g, task)
        case Recover(task, run) =>
          Live(g, Running) && OnlyRun(g, run) && Remembers(g, task)
          && !Runs.IsTerminal(g.runs[run].status) && Runs.StartOf(g.runs[run]) <= stamp && Runs.ValidRun(g.runs[run])
        case RecoverRead(task) =>
          Remembers(g, task) && ClosedRuns(g) &&
          (Live(g, Planning) || Live(g, Running) || (IsTerminal(g.doc.status) && Settled(g)))
        case SettleRead(task, target) =>
          Remembers(g, task) && ClosedRuns(g) && (Live(g, Planning) || Live(g, Running))
          && (target.Blocked? || target.Failed?)
        case Settle(task, target) =>
          Remembers(g, task) && ClosedRuns(g) && (Live(g, Planning) || Live(g, Running))
          && (target.Blocked? || target.Failed?)
        case Returned(status) => Settled(g) && status == g.doc.status
        case Failing => Settled(g))
  }

  // ---------------------------------------------------------------- interference

  /** What may happen to the store beside the worker: anything, except that the task itself is touched
      only by a cancellation, and its runs and the restart reconciliation are left to others. */
  ghost predicate Beside(db: Db, op: Op, id: TaskId) {
    && WellFormed(db, op)
    && (match op
        case OpMove(t, target, _) => t == id ==> target.Cancelled?
        case OpAssign(t, _, _) => t != id
        case OpCreateRun(run) => run.taskId != id
        case OpStartRun(r, _) => r in db.runs ==> db.runs[r].doc.taskId != id
        case OpFinishRun(r, _, _, _, _) => r in db.runs ==> db.runs[r].doc.taskId != id
        case OpReconcile(_, _) => false
        case _ => true)
  }

  ghost predicate AllBeside(db: Db, ops: seq<Op>, id: TaskId)
    decreases |ops|
  {
    ops == [] || (Beside(db, ops[0], id) && AllBeside(After(db, ops[0]), ops[1..], id))
  }

  /** The task is as before, or has been cancelled since. */
  ghost predicate OnlyCancelled(a: Glimpse, b: Glimpse) {
    && b.runs == a.runs
    && (b.doc == a.doc ||
        (!IsTerminal(a.doc.status) && ValidTask(b.doc) && exists at :: b.doc == Moved(a.doc, Lifecycle.Cancelled, at)))
  }

  lemma MoveLook(db: Db, t: TaskId, target: Status, e: Event, id: TaskId)
    requires Sound(db) && id in db.tasks
    ensures var o := MoveTask(db, t, target, e);
            && id in o.db.tasks && RunsOf(o.db, id) == RunsOf(db, id)
            && (if t != id || o.db == db then o.db.tasks[id].doc == db.tasks[id].doc
                else && Lifecycle.TransitionTask(db.tasks[id].doc, target, e.timestamp) == Ok(o.db.tasks[id].doc)
                     && o.result == Ok(o.db.tasks[id].doc))
  {
    hide Sound, Lookup, ValidTask, LifecycleEventMatches, Lifecycle.TransitionTask;
  }

  lemma SameLook(db: Db, after: Db, id: TaskId)
    requires id in db.tasks && id in after.tasks && after.tasks[id].doc == db.tasks[id].doc && after.runs == db.runs
    ensures Look(after, id) == Look(db, id) && OnlyCancelled(Look(db, id), Look(after, id))
  {
  }

  lemma AppendLook(db: Db, e: Event, id: TaskId)
    requires id in db.tasks
    ensures var after := AppendEvent(db, e).db; after.tasks == db.tasks && after.runs == db.runs
  {
    hide Lookup;
  }

  lemma NewRunLook(db: Db, run: Runs.Run, id: TaskId)
    requires id in db.tasks && run.taskId != id
    ensures id in CreateRun(db, run).db.tasks && Look(CreateRun(db, run).db, id) == Look(db, id)
  {
  }

  lemma CancelledLook(db: Db, t: TaskId, e: Event, id: TaskId)
    requires Sound(db) && id in db.tasks
    ensures var after := MoveTask(db, t, Lifecycle.Cancelled, e).db;
            id in after.tasks && OnlyCancelled(Look(db, id), Look(after, id))
  {
    MoveLook(db, t, Lifecycle.Cancelled, e, id);
    hide Sound, MoveTask, ValidTask, Lifecycle.TransitionTask, RunsOf;
    CancelledIsMoved(db.tasks[id].doc, e.timestamp);
    ValidAfter(db.tasks[id].doc, e.timestamp);
  }

  lemma OtherMoveLook(db: Db, t: TaskId, target: Status, e: Event, id: TaskId)
    requires Sound(db) && id in db.tasks && t != id
    ensures var after := MoveTask(db, t, target, e).db; id in after.tasks && Look(after, id) == Look(db, id)
  {
    MoveLook(db, t, target, e, id);
    hide Sound, MoveTask;
  }

  lemma BesideLook(db: Db, op: Op, id: TaskId)
    requires Sound(db) && id in db.tasks && Beside(db, op, id)
    ensures id in After(db, op).tasks && OnlyCancelled(Look(db, id), Look(After(db, op), id))
  {
    hide Sound, Look, MoveTask, AssignTask, AppendEvent, CreateTask, CreateQueuedTask, CreateRun, StartRun, FinishRun, RunsFit;
    SameLook(db, db, id);
    match op
    case OpMove(t, target, e) =>
      if target.Cancelled? { CancelledLook(db, t, e, id); } else { OtherMoveLook(db, t, target, e, id); }
    case OpCreate(task, e) => NewTaskLook(db, op, id);
    case OpCreateQueued(task, c, q, route) => NewTaskLook(db, op, id);
    case OpAssign(t, agent, e) => AssignLook(db, t, agent, e, id);
    case OpAppend(e) => AppendLook(db, e, id); SameLook(db, After(db, op), id);
    case OpCreateRun(run) => NewRunLook(db, run, id);
    case OpStartRun(r, at) => SoundTables(db); RunStepLook(db, op, id);
    case OpFinishRun(r, s, at, x, y) => SoundTables(db); RunStepLook(db, op, id);
    case _ =>
      hide After;
      QuietKeeps(db, op);
      SameLook(db, After(db, op), id);
  }

  lemma CancelledIsMoved(task: Task, at: Time)
    ensures Lifecycle.TransitionTask(task, Lifecycle.Cancelled, at).Ok? ==>
              Lifecycle.TransitionTask(task, Lifecycle.Cancelled, at).value == Moved(task, Lifecycle.Cancelled, at) && !IsTerminal(task.status)
  {
  }

  lemma ValidAfter(task: Task, at: Time)
    ensures Lifecycle.TransitionTask(task, Lifecycle.Cancelled, at).Ok? ==>
              ValidTask(Lifecycle.TransitionTask(task, Lifecycle.Cancelled, at).value)
  {
  }

  lemma NewTaskLeaves(db: Db, op: Op, id: TaskId)
    requires id in db.tasks && (op.OpCreate? || op.OpCreateQueued?)
    ensures id in After(db, op).tasks && After(db, op).tasks[id] == db.tasks[id]
  {
    hide AppendLocked, ValidTask, LifecycleEventMatches, Lifecycle.TransitionTask;
    match op
    case OpCreate(task, e) =>
      AppendAdds(db.(tasks := db.tasks[task.taskId := NewRow(task, e)]), e);
    case OpCreateQueued(task, created, queued, route) =>
      var outcome := CreateQueuedTask(db, task, created, queued, route);
      if outcome.result.Ok? {
        var doc := Lifecycle.TransitionTask(task, Queued, queued.timestamp).value;
        var row := NewRow(task, created);
        var first := db.(tasks := db.tasks[task.taskId := row]);
        AppendAdds(first, created);
        var routed := WithRoute(AppendLocked(first, created).value, route).value;
        var second := routed.(tasks := routed.tasks[task.taskId := MovedRow(row, doc, queued.timestamp)]);
        AppendAdds(second, queued);
        assert outcome.db == AppendLocked(second, queued).value;
      }
  }

  lemma NewTaskLook(db: Db, op: Op, id: TaskId)
    requires id in db.tasks && (op.OpCreate? || op.OpCreateQueued?)
    ensures id in After(db, op).tasks && Look(After(db, op), id) == Look(db, id)
  {
    NewTaskLeaves(db, op, id);
    LoudKeeps(db, op);
    hide After;
  }

  lemma AssignLook(db: Db, t: TaskId, agent: Identifier, e: Event, id: TaskId)
    requires id in db.tasks && t != id
    ensures var after := AssignTask(db, t, agent, e).db; id in after.tasks && Look(after, id) == Look(db, id)
  {
    hide Lookup, ValidTask;
  }

  lemma PutRunLook(db: Db, r: Runs.RunId, run: Runs.Run, id: TaskId)
    requires id in db.tasks && r in db.runs && run.runId == r
    requires db.runs[r].doc.taskId != id && run.taskId == db.runs[r].doc.taskId
    ensures id in PutRun(db, run).db.tasks && Look(PutRun(db, run).db, id) == Look(db, id)
  {
    hide Runs.ValidRun;
  }

  lemma RunStepLook(db: Db, op: Op, id: TaskId)
    requires RunsFit(db) && id in db.tasks && Beside(db, op, id) && (op.OpStartRun? || op.OpFinishRun?)
    ensures id in After(db, op).tasks && Look(After(db, op), id) == Look(db, id)
  {
    hide PutRun, Look;
    var r := op.runId;
    if r in db.runs {
      assert RunFits(r, db.runs[r]);
      match op
      case OpStartRun(_, at) => PutRunLook(db, r, Runs.Started(db.runs[r].doc, at), id);
      case OpFinishRun(_, status, at, x, y) => PutRunLook(db, r, Runs.Finished(db.runs[r].doc, status, at, x, y), id);
    }
  }

  /** No phase is disturbed by what may happen beside the worker. */
  lemma PhaseIsStable(a: Glimpse, b: Glimpse, pc: Pc, stamp: Time)
    requires Phase(a, pc, stamp) && OnlyCancelled(a, b) && !pc.Returned? && !pc.Failing?
    ensures Phase(b, pc, stamp)
  {
  }

  lemma {:induction false} StableUnderAll(db: Db, ops: seq<Op>, id: TaskId, pc: Pc, stamp: Time)
    requires Sound(db) && id in db.tasks && AllBeside(db, ops, id)
    requires Phase(Look(db, id), pc, stamp) && !pc.Returned? && !pc.Failing?
    ensures Sound(Final(db, ops)) && id in Final(db, ops).tasks
    ensures Phase(Look(Final(db, ops), id), pc, stamp)
    decreases |ops|
  {
    hide Sound, Phase, After, OnlyCancelled;
    if ops != [] {
      StepSound(db, ops[0]);
      BesideLook(db, ops[0], id);
      PhaseIsStable(Look(db, id), Look(After(db, ops[0]), id), pc, stamp);
      StableUnderAll(After(db, ops[0]), ops[1..], id, pc, stamp);
    }
  }

  // ---------------------------------------------------------------- the worker's own steps

  /** A step with working storage, a clock that has not gone back, and newly minted ids. */
  predicate Calm(db: Db, w: Worker, c: Choice) {
    !c.storageFails && w.stamp <= c.at && Lookup(db.events, c.eventId).None? && c.runId !in db.runs
  }

  /** A move with a new event is accepted exactly when the lifecycle rules accept it. */
  lemma FreshMove(db: Db, id: TaskId, target: Status, e: Event)
    requires id in db.tasks && db.tasks[id].doc.taskId == id
    requires LifecycleEventMatches(db.tasks[id].doc, target, e) && Lookup(db.events, e.id).None?
    ensures var o, moved := MoveTask(db, id, target, e), Lifecycle.TransitionTask(db.tasks[id].doc, target, e.timestamp);
            && o.result == moved && id in o.db.tasks && o.db.runs == db.runs
            && (if moved.Ok? then o.db.tasks[id].doc == moved.value else o.db == db)
  {
    hide Lookup, ValidTask, Lifecycle.TransitionTask;
  }

  /** A timely lifecycle move of the worker's own task succeeds exactly when the table allows it. */
  lemma OwnMove(db: Db, id: TaskId, task: Task, target: Status, c: Choice)
    requires Sound(db) && id in db.tasks && SameIdentity(task, db.tasks[id].doc)
    requires !c.storageFails && Lookup(db.events, c.eventId).None? && TimelyFor(db.tasks[id].doc, c.at)
    ensures var doc, o := db.tasks[id].doc, TryMove(db, task, target, c);
            && id in o.db.tasks && RunsOf(o.db, id) == RunsOf(db, id)
            && (if CanTransition(doc.status, target)
                then && o.result == Ok(Moved(doc, target, c.at)) && o.db.tasks[id].doc == Moved(doc, target, c.at)
                     && ValidTask(Moved(doc, target, c.at))
                else o.result.Err? && o.db == db)
  {
    hide Sound, Lookup, ValidTask, MoveTask;
    TaskIdIsKey(db, id);
    FreshMove(db, id, target, LifecycleEvent(task, target, c));
    TransitionAcceptance(db.tasks[id].doc, target, c.at);
  }

  lemma FirstAgentIsValid(doc: Task, agent: Identifier)
    requires ValidTask(doc) && doc.agents == []
    ensures doc.agents + [agent] == [agent] && ValidTask(doc.(agents := [agent]))
  {
  }

  /** Assigning the first agent succeeds exactly when the status is still the one the event names. */
  lemma OwnAssign(db: Db, id: TaskId, task: Task, agent: Identifier, c: Choice)
    requires Sound(db) && id in db.tasks && SameIdentity(task, db.tasks[id].doc) && db.tasks[id].doc.agents == []
    requires !c.storageFails && Lookup(db.events, c.eventId).None?
    ensures var doc, o := db.tasks[id].doc, TryAssign(db, task, agent, c);
            && id in o.db.tasks && RunsOf(o.db, id) == RunsOf(db, id)
            && (if task.status == doc.status
                then o.result == Ok(doc.(agents := [agent])) && o.db.tasks[id].doc == doc.(agents := [agent])
                else o.result.Err? && o.db == db)
  {
    hide Sound, Lookup, ValidTask;
    TaskIdIsKey(db, id);
    FirstAgentIsValid(db.tasks[id].doc, agent);
  }

  /** The four run operations on a run of the worker's own task. */
  lemma OwnRunStep(db: Db, id: TaskId, run: Runs.Run)
    requires RunsFit(db) && id in db.tasks && run.taskId == id
    ensures var o := PutRun(db, run);
            && id in o.db.tasks && o.db.tasks == db.tasks && (o.result.Ok? <==> Runs.ValidRun(run))
            && RunsOf(o.db, id) == if Runs.ValidRun(run) then RunsOf(db, id)[run.runId := run] else RunsOf(db, id)
  {
    hide Runs.ValidRun;
  }

  /** The one transaction a worker step runs, if it runs any. */
  function OpOf(pc: Pc, c: Choice): Option<Op> {
    if c.storageFails then None
    else match pc
      case Claim(task) => Some(OpMove(task.taskId, Planning, LifecycleEvent(task, Planning, c)))
      case Assign(task, agent) => Some(OpAssign(task.taskId, agent, AssignmentEvent(task, agent, c)))
      case ToRunning(task, _) => Some(OpMove(task.taskId, Running, LifecycleEvent(task, Running, c)))
      case OpenRun(task, agent) => Some(OpCreateRun(NewRun(task, agent, c)))
      case BeginRun(_, run) => Some(OpStartRun(run, c.at))
      case CloseRun(_, run, result, exit) => Some(OpFinishRun(run, RunStatusOf(result), c.at, exit, RunError(result)))
      case Conclude(task, result) =>
        Some(OpMove(task.taskId, TaskStatusOf(result), LifecycleEvent(task, TaskStatusOf(result), c)))
      case Recover(_, run) => Some(OpFinishRun(run, Runs.Failed, c.at, None, Some("runtime-exception")))
      case Settle(task, target) => Some(OpMove(task.taskId, target, LifecycleEvent(task, target, c)))
      case _ => None
  }

  ghost function AfterOption(db: Db, op: Option<Op>): Db {
    if op.Some? then After(db, op.value) else db
  }

  /** A worker touches the store only through the store's own transactions. */
  lemma WorkerUsesTransactions(db: Db, developer: Chooser, id: TaskId, pc: Pc, c: Choice)
    ensures Next(db, developer, id, pc, c).0 == AfterOption(db, OpOf(pc, c))
    ensures OpOf(pc, c).Some? ==> WellFormed(db, OpOf(pc, c).value)
  {
    hide MoveTask, AssignTask, CreateRun, StartRun, FinishRun;
  }

  lemma NextKeepsSound(db: Db, developer: Chooser, id: TaskId, pc: Pc, c: Choice)
    requires Sound(db)
    ensures Sound(Next(db, developer, id, pc, c).0)
  {
    hide Sound, Next, OpOf;
    WorkerUsesTransactions(db, developer, id, pc, c);
    if OpOf(pc, c).Some? {
      StepSound(db, OpOf(pc, c).value);
    }
  }

  predicate StepKeepsPhase(db: Db, developer: Chooser, id: TaskId, pc: Pc, c: Choice) {
    var n := Next(db, developer, id, pc, c);
    id in n.0.tasks && Phase(Look(n.0, id), n.1, c.at)
  }

  lemma PhaseRemembers(g: Glimpse, pc: Pc, stamp: Time)
    requires Phase(g, pc, stamp)
    ensures TimelyFor(g.doc, stamp)
    ensures pc.Claim? || pc.ToRunning? || pc.Conclude? || pc.Settle? ==> Remembers(g, pc.task)
    ensures pc.CloseRun? || pc.Recover? || pc.BeginRun? ==> OnlyRun(g, pc.run)
  {
  }

  /** Whichever way the developer is resolved, a claimed task is in the phase that follows. */
  lemma ClaimGlimpse(g: Glimpse, pc: Pc, stamp: Time, at: Time, agent: Identifier)
    requires pc.Claim? && Phase(g, pc, stamp) && stamp <= at
    ensures CanTransition(g.doc.status, Planning) <==> !g.doc.status.Cancelled?
    ensures if g.doc.status.Cancelled? then Phase(g, Failing, at)
            else var doc := Moved(g.doc, Planning, at);
              && Phase(Glimpse(doc, g.runs), Assign(doc, agent), at)
              && Phase(Glimpse(doc, g.runs), SettleRead(doc, Lifecycle.Failed), at)
  {
    TransitionAcceptance(g.doc, Planning, at);
    hide ValidTask;
  }

  lemma ClaimKeepsPhase(db: Db, developer: Chooser, id: TaskId, pc: Pc, stamp: Time, c: Choice)
    requires Sound(db) && id in db.tasks && pc.Claim? && Phase(Look(db, id), pc, stamp)
    requires !c.storageFails && stamp <= c.at && Lookup(db.events, c.eventId).None?
    ensures StepKeepsPhase(db, developer, id, pc, c)
  {
    hide Sound, ValidTask, TryMove, Lookup, RunsOf;
    var claimed := Moved(db.tasks[id].doc, Planning, c.at);
    var chosen := developer(claimed.project, claimed.team);
    ClaimGlimpse(Look(db, id), pc, stamp, c.at, if chosen.Some? then chosen.value else "");
    PhaseRemembers(Look(db, id), pc, stamp);
    hide Phase, CanTransition;
    OwnMove(db, id, pc.task, Planning, c);
  }

  lemma ToRunningGlimpse(g: Glimpse, pc: Pc, stamp: Time, at: Time)
    requires pc.ToRunning? && Phase(g, pc, stamp) && stamp <= at
    ensures CanTransition(g.doc.status, Running) <==> !g.doc.status.Cancelled?
    ensures if g.doc.status.Cancelled? then Phase(g, RecoverRead(pc.task), at)
            else Phase(Glimpse(Moved(g.doc, Running, at), g.runs), OpenRun(Moved(g.doc, Running, at), pc.agent), at)
  {
    TransitionAcceptance(g.doc, Running, at);
    hide ValidTask;
  }

  lemma ToRunningKeepsPhase(db: Db, developer: Chooser, id: TaskId, pc: Pc, stamp: Time, c: Choice)
    requires Sound(db) && id in db.tasks && pc.ToRunning? && Phase(Look(db, id), pc, stamp)
    requires !c.storageFails && stamp <= c.at && Lookup(db.events, c.eventId).None?
    ensures StepKeepsPhase(db, developer, id, pc, c)
  {
    hide Sound, ValidTask, TryMove, Lookup, RunsOf;
    ToRunningGlimpse(Look(db, id), pc, stamp, c.at);
    PhaseRemembers(Look(db, id), pc, stamp);
    hide Phase, CanTransition;
    OwnMove(db, id, pc.task, Running, c);
  }

  lemma ConcludeGlimpse(g: Glimpse, pc: Pc, stamp: Time, at: Time)
    requires pc.Conclude? && Phase(g, pc, stamp) && stamp <= at
    ensures CanTransition(g.doc.status, TaskStatusOf(pc.result)) <==> !g.doc.status.Cancelled?
    ensures if g.doc.status.Cancelled? then Phase(g, RecoverRead(pc.task), at)
            else Phase(Glimpse(Moved(g.doc, TaskStatusOf(pc.result), at), g.runs), Leave(Moved(g.doc, TaskStatusOf(pc.result), at), TaskStatusOf(pc.result)), at)
  {
    TransitionAcceptance(g.doc, TaskStatusOf(pc.result), at);
    hide ValidTask;
  }

  lemma ConcludeKeepsPhase(db: Db, developer: Chooser, id: TaskId, pc: Pc, stamp: Time, c: Choice)
    requires Sound(db) && id in db.tasks && pc.Conclude? && Phase(Look(db, id), pc, stamp)
    requires !c.storageFails && stamp <= c.at && Lookup(db.events, c.eventId).None?
    ensures StepKeepsPhase(db, developer, id, pc, c)
  {
    hide Sound, ValidTask, TryMove, Lookup, RunsOf;
    ConcludeGlimpse(Look(db, id), pc, stamp, c.at);
    PhaseRemembers(Look(db, id), pc, stamp);
    hide Phase, CanTransition;
    OwnMove(db, id, pc.task, TaskStatusOf(pc.result), c);
  }

  lemma SettleGlimpse(g: Glimpse, pc: Pc, stamp: Time, at: Time)
    requires pc.Settle? && Phase(g, pc, stamp) && stamp <= at
    ensures CanTransition(g.doc.status, pc.target) <==> !g.doc.status.Cancelled?
    ensures if g.doc.status.Cancelled? then Phase(g, Failing, at)
            else Phase(Glimpse(Moved(g.doc, pc.target, at), g.runs), Returned(pc.target), at)
  {
    TransitionAcceptance(g.doc, pc.target, at);
    hide ValidTask;
  }

  lemma SettleKeepsPhase(db: Db, developer: Chooser, id: TaskId, pc: Pc, stamp: Time, c: Choice)
    requires Sound(db) && id in db.tasks && pc.Settle? && Phase(Look(db, id), pc, stamp)
    requires !c.storageFails && stamp <= c.at && Lookup(db.events, c.eventId).None?
    ensures StepKeepsPhase(db, developer, id, pc, c)
  {
    hide Sound, ValidTask, TryMove, Lookup, RunsOf;
    SettleGlimpse(Look(db, id), pc, stamp, c.at);
    PhaseRemembers(Look(db, id), pc, stamp);
    hide Phase, CanTransition;
    OwnMove(db, id, pc.task, pc.target, c);
  }

  lemma RunIdIsKey(db: Db, run: Runs.RunId)
    requires RunsFit(db) && run in db.runs
    ensures db.runs[run].doc.runId == run
  {
    assert RunFits(run, db.runs[run]);
  }

  lemma OpenRunKeepsPhase(db: Db, developer: Chooser, id: TaskId, pc: Pc, stamp: Time, c: Choice)
    requires RunsFit(db) && id in db.tasks && db.tasks[id].doc.taskId == id
    requires pc.OpenRun? && Phase(Look(db, id), pc, stamp)
    requires !c.storageFails && stamp <= c.at && c.runId !in db.runs
    ensures StepKeepsPhase(db, developer, id, pc, c)
  {
    hide ValidTask, RunsFit;
    OwnRunStep(db, id, NewRun(pc.task, pc.agent, c));
  }

  lemma BeginRunKeepsPhase(db: Db, developer: Chooser, id: TaskId, pc: Pc, stamp: Time, c: Choice)
    requires RunsFit(db) && id in db.tasks && db.tasks[id].doc.taskId == id
    requires pc.BeginRun? && Phase(Look(db, id), pc, stamp)
    requires !c.storageFails && stamp <= c.at && c.runId !in db.runs
    ensures StepKeepsPhase(db, developer, id, pc, c)
  {
    hide ValidTask, RunsFit;
    assert pc.run in RunsOf(db, id);
    RunIdIsKey(db, pc.run);
    OwnRunStep(db, id, Runs.Started(db.runs[pc.run].doc, c.at));
  }

  lemma CloseRunGlimpse(g: Glimpse, pc: Pc, stamp: Time, at: Time)
    requires pc.CloseRun? && Phase(g, pc, stamp) && stamp <= at
    ensures var run := Runs.Finished(g.runs[pc.run], RunStatusOf(pc.result), at, pc.exitCode, RunError(pc.result));
            Runs.ValidRun(run) && Phase(Glimpse(g.doc, g.runs[pc.run := run]), ReadBack(pc.task, pc.result), at)
    ensures !Runs.IsTerminal(g.runs[pc.run].status)
  {
    hide ValidTask;
    var run := Runs.Finished(g.runs[pc.run], RunStatusOf(pc.result), at, pc.exitCode, RunError(pc.result));
    Runs.FinishAcceptance(g.runs[pc.run], RunStatusOf(pc.result), at, pc.exitCode, RunError(pc.result));
    assert g.runs[pc.run := run].Keys == {pc.run};
  }

  lemma CloseRunKeepsPhase(db: Db, developer: Chooser, id: TaskId, pc: Pc, stamp: Time, c: Choice)
    requires RunsFit(db) && id in db.tasks && db.tasks[id].doc.taskId == id
    requires pc.CloseRun? && Phase(Look(db, id), pc, stamp)
    requires !c.storageFails && stamp <= c.at && c.runId !in db.runs
    ensures StepKeepsPhase(db, developer, id, pc, c)
  {
    hide ValidTask, RunsFit, Runs.ValidRun;
    PhaseRemembers(Look(db, id), pc, stamp);
    CloseRunGlimpse(Look(db, id), pc, stamp, c.at);
    hide Phase;
    assert pc.run in RunsOf(db, id);
    RunIdIsKey(db, pc.run);
    OwnRunStep(db, id, Runs.Finished(db.runs[pc.run].doc, RunStatusOf(pc.result), c.at, pc.exitCode, RunError(pc.result)));
  }

  lemma RecoverGlimpse(g: Glimpse, pc: Pc, stamp: Time, at: Time)
    requires pc.Recover? && Phase(g, pc, stamp) && stamp <= at
    ensures var run := Runs.Finished(g.runs[pc.run], Runs.Failed, at, None, Some("runtime-exception"));
            Runs.ValidRun(run) && Phase(Glimpse(g.doc, g.runs[pc.run := run]), RecoverRead(pc.task), at)
    ensures !Runs.IsTerminal(g.runs[pc.run].status)
  {
    hide ValidTask;
    var run := Runs.Finished(g.runs[pc.run], Runs.Failed, at, None, Some("runtime-exception"));
    Runs.FinishAcceptance(g.runs[pc.run], Runs.Failed, at, None, Some("runtime-exception"));
    assert g.runs[pc.run := run].Keys == {pc.run};
  }

  lemma RecoverKeepsPhase(db: Db, developer: Chooser, id: TaskId, pc: Pc, stamp: Time, c: Choice)
    requires RunsFit(db) && id in db.tasks && db.tasks[id].doc.taskId == id
    requires pc.Recover? && Phase(Look(db, id), pc, stamp)
    requires !c.storageFails && stamp <= c.at && c.runId !in db.runs
    ensures StepKeepsPhase(db, developer, id, pc, c)
  {
    hide ValidTask, RunsFit, Runs.ValidRun;
    PhaseRemembers(Look(db, id), pc, stamp);
    RecoverGlimpse(Look(db, id), pc, stamp, c.at);
    hide Phase;
    assert pc.run in RunsOf(db, id);
    RunIdIsKey(db, pc.run);
    OwnRunStep(db, id, Runs.Finished(db.runs[pc.run].doc, Runs.Failed, c.at, None, Some("runtime-exception")));
  }

  /** Where a step that only meets a port leads. */
  lemma PortGlimpse(g: Glimpse, pc: Pc, stamp: Time, c: Choice, next: Pc)
    requires Phase(g, pc, stamp) && stamp <= c.at
    requires match pc
             case Open(task, agent) => next in {ToRunning(task, agent), SettleRead(task, Blocked), SettleRead(task, Lifecycle.Failed), RecoverRead(task)}
             case Execute(task, run) => next == Recover(task, run) || exists s, x :: next == CloseRun(task, run, s, x)
             case Leave(task, status) => next in {RecoverRead(task), Returned(status)}
             case _ => false
    ensures Phase(g, next, c.at)
  {
    hide ValidTask, Runs.ValidRun;
  }

  lemma PortsKeepPhase(db: Db, developer: Chooser, id: TaskId, pc: Pc, stamp: Time, c: Choice)
    requires id in db.tasks && db.tasks[id].doc.taskId == id && Phase(Look(db, id), pc, stamp)
    requires !c.storageFails && stamp <= c.at
    requires pc.Open? || pc.Execute? || pc.Leave?
    ensures StepKeepsPhase(db, developer, id, pc, c)
  {
    hide Phase, Look;
    PortGlimpse(Look(db, id), pc, stamp, c, Next(db, developer, id, pc, c).1);
  }

  lemma ReadsKeepPhase(db: Db, developer: Chooser, id: TaskId, pc: Pc, stamp: Time, c: Choice)
    requires id in db.tasks && db.tasks[id].doc.taskId == id && Phase(Look(db, id), pc, stamp)
    requires !c.storageFails && stamp <= c.at
    requires pc.Start? || pc.ReadBack? || pc.RecoverRead? || pc.SettleRead?
    ensures StepKeepsPhase(db, developer, id, pc, c)
  {
    hide ValidTask, RunsOf;
  }

  /** Every calm step takes the task from one phase to the next. */
  lemma CalmStep(db: Db, developer: Chooser, w: Worker, c: Choice)
    requires Sound(db) && w.id in db.tasks && Calm(db, w, c) && !Finished(w)
    requires Phase(Look(db, w.id), w.pc, w.stamp)
    ensures var n := WorkerStep(db, developer, w, c);
            && Sound(n.0) && n.1.id == w.id && w.id in n.0.tasks && Phase(Look(n.0, w.id), n.1.pc, n.1.stamp)
  {
    hide Sound, Phase, Look, Lookup, ValidTask;
    NextKeepsSound(db, developer, w.id, w.pc, c);
    TaskIdIsKey(db, w.id);
    SoundTables(db);
    match w.pc
    case Claim(_) => ClaimKeepsPhase(db, developer, w.id, w.pc, w.stamp, c);
    case Assign(_, _) => AssignKeepsPhase(db, developer, w.id, w.pc, w.stamp, c);
    case ToRunning(_, _) => ToRunningKeepsPhase(db, developer, w.id, w.pc, w.stamp, c);
    case OpenRun(_, _) => OpenRunKeepsPhase(db, developer, w.id, w.pc, w.stamp, c);
    case BeginRun(_, _) => BeginRunKeepsPhase(db, developer, w.id, w.pc, w.stamp, c);
    case CloseRun(_, _, _, _) => CloseRunKeepsPhase(db, developer, w.id, w.pc, w.stamp, c);
    case Conclude(_, _) => ConcludeKeepsPhase(db, developer, w.id, w.pc, w.stamp, c);
    case Recover(_, _) => RecoverKeepsPhase(db, developer, w.id, w.pc, w.stamp, c);
    case Settle(_, _) => SettleKeepsPhase(db, developer, w.id, w.pc, w.stamp, c);
    case Open(_, _) => PortsKeepPhase(db, developer, w.id, w.pc, w.stamp, c);
    case Execute(_, _) => PortsKeepPhase(db, developer, w.id, w.pc, w.stamp, c);
    case Leave(_, _) => PortsKeepPhase(db, developer, w.id, w.pc, w.stamp, c);
    case _ => ReadsKeepPhase(db, developer, w.id, w.pc, w.stamp, c);
  }

  lemma AssignKeepsPhase(db: Db, developer: Chooser, id: TaskId, pc: Pc, stamp: Time, c: Choice)
    requires Sound(db) && id in db.tasks && pc.Assign? && Phase(Look(db, id), pc, stamp)
    requires !c.storageFails && stamp <= c.at && Lookup(db.events, c.eventId).None?
    ensures StepKeepsPhase(db, developer, id, pc, c)
  {
    hide Sound, TryAssign, Lookup, Moved;
    OwnAssign(db, id, pc.task, pc.agent, c);
    FirstAgentIsValid(db.tasks[id].doc, pc.agent);
  }
}
