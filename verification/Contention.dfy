/** A task several workers compete for is settled, unless a stale worker claims it a second time
    (orchestrator/service.py). */
module Contention {
  import opened Wrappers
  import opened Lifecycle
  import opened StoreModel
  import opened StoreRuns
  import opened StoreHistory
  import opened Workers
  import opened Settlement
  import opened Engine
  import opened StaleClaims
  import AtMostOnce
  import Gateway

  // ---------------------------------------------------------------- calm runs

  /** Nothing is interrupted; storage works and the clock is not behind for the workers on this task. */
  ghost predicate CalmAction(s: State, id: TaskId, a: Action) {
    && Enabled(s, a)
    && (match a
        case Work(w, c) =>
          s.workers[w].id == id ==> Calm(s.db, s.workers[w], c) && id in s.db.tasks && TimelyFor(s.db.tasks[id].doc, c.at)
        case Kill(w) => s.workers[w].id != id
        case Reconcile(_, _) => false
        case Crash(_, _) => false
        case _ => true)
  }

  ghost predicate CalmRun(s: State, taskIds: IdFactory, id: TaskId, actions: seq<Action>)
    decreases |actions|
  {
    actions == [] ||
    (CalmAction(s, id, actions[0]) && CalmRun(Step(s, taskIds, actions[0]), taskIds, id, actions[1..]))
  }

  /** A worker claims the task although it already lists the developer it will choose. */
  predicate ClaimsAgain(s: State, id: TaskId, a: Action) {
    && a.Work? && a.worker in s.workers && s.workers[a.worker].id == id && s.workers[a.worker].pc.Claim?
    && id in s.db.tasks
    && var doc := s.db.tasks[id].doc;
       && (doc.status.Queued? || doc.status.Blocked?)
       && s.developer(doc.project, doc.team).Some? && s.developer(doc.project, doc.team).value in doc.agents
  }

  ghost predicate ClaimedAgain(s: State, taskIds: IdFactory, id: TaskId, actions: seq<Action>)
    decreases |actions|
  {
    actions != [] &&
    (ClaimsAgain(s, id, actions[0]) || ClaimedAgain(Step(s, taskIds, actions[0]), taskIds, id, actions[1..]))
  }

  // ---------------------------------------------------------------- invariants

  /** The worker has claimed its task and not let go of it. */
  predicate Engaged(pc: Pc) {
    HasTask(pc) && !pc.Claim?
  }

  predicate Waiting(g: Glimpse) {
    g.doc.status.Queued? && g.doc.agents == [] && g.runs == map[]
  }

  predicate EngagedOn(workers: map<nat, Worker>, w: nat, id: TaskId) {
    w in workers && workers[w].id == id && Engaged(workers[w].pc)
  }

  predicate DoneOn(workers: map<nat, Worker>, w: nat, id: TaskId) {
    w in workers && workers[w].id == id && Workers.Finished(workers[w])
  }

  /** At most one worker has the task in hand and stands in its phase; in nobody's hand it waits or is
      settled; whoever is done with it did not leave it waiting. */
  ghost predicate InOrderly(g: Glimpse, workers: map<nat, Worker>, id: TaskId) {
    && (forall v, w :: EngagedOn(workers, v, id) && EngagedOn(workers, w, id) ==> v == w)
    && (forall w :: EngagedOn(workers, w, id) ==> Phase(g, workers[w].pc, workers[w].stamp))
    && ((forall w :: !EngagedOn(workers, w, id)) ==> Waiting(g) || Settled(g))
    && (forall w :: DoneOn(workers, w, id) ==> !g.doc.status.Queued?)
  }

  /** The task was claimed a second time: only its refused assignment, or a cancellation, can still happen. */
  ghost predicate Lost(g: Glimpse, workers: map<nat, Worker>, id: TaskId) {
    && (g.doc.status.Planning? || g.doc.status.Cancelled?) && ClosedRuns(g)
    && (forall w :: EngagedOn(workers, w, id) ==> Doomed(g, workers[w].pc))
  }

  predicate Doomed(g: Glimpse, pc: Pc) {
    pc.Assign? && pc.task.status.Planning? && pc.agent in g.doc.agents
  }

  // ---------------------------------------------------------------- what one glimpse allows

  lemma EngagedTasksAreTaken(g: Glimpse, pc: Pc, stamp: Time)
    requires Phase(g, pc, stamp) && Engaged(pc)
    ensures !g.doc.status.Queued? && !g.doc.status.Blocked?
  {
  }

  lemma FinishedIsSettled(g: Glimpse, pc: Pc, stamp: Time)
    requires Phase(g, pc, stamp) && (pc.Returned? || pc.Failing?)
    ensures Settled(g) && !g.doc.status.Queued?
  {
  }

  lemma CancelledIdleStays(a: Glimpse, b: Glimpse)
    requires OnlyCancelled(a, b)
    ensures Waiting(a) || Settled(a) ==> Waiting(b) || Settled(b)
    ensures !a.doc.status.Queued? ==> !b.doc.status.Queued?
    ensures b.doc.agents == a.doc.agents
    ensures (a.doc.status.Planning? || a.doc.status.Cancelled?) && ClosedRuns(a) ==>
              (b.doc.status.Planning? || b.doc.status.Cancelled?) && ClosedRuns(b)
  {
  }

  /** What anybody but the workers on the task may do leaves the order, and the loss, as they are. */
  lemma OrderStays(a: Glimpse, b: Glimpse, workers: map<nat, Worker>, id: TaskId)
    requires OnlyCancelled(a, b)
    ensures InOrderly(a, workers, id) ==> InOrderly(b, workers, id)
    ensures Lost(a, workers, id) ==> Lost(b, workers, id)
  {
    CancelledIdleStays(a, b);
    forall w | EngagedOn(workers, w, id) && Phase(a, workers[w].pc, workers[w].stamp)
      ensures Phase(b, workers[w].pc, workers[w].stamp)
    {
      PhaseIsStable(a, b, workers[w].pc, workers[w].stamp);
    }
    hide Phase, OnlyCancelled, Settled, Waiting, ClosedRuns;
  }

  // ---------------------------------------------------------------- the others

  lemma OtherWorkIsBeside(db: Db, developer: Chooser, w: Worker, c: Choice, id: TaskId)
    requires Sound(db) && Minds(db, w) && AtMostOnce.WorkerFits(db, developer, w) && w.id != id
    ensures OpOf(w.pc, c).Some? ==> Beside(db, OpOf(w.pc, c).value, id)
  {
    hide Sound, AtMostOnce.RanWell, AtMostOnce.MayClaim, AtMostOnce.Permitted;
    if HasTask(w.pc) {
      TaskIdIsKey(db, w.id);
    }
  }

  lemma RequestIsBeside(db: Db, pc: Gateway.Pc, r: Gateway.Request, g: Gateway.Choice, id: TaskId)
    requires !pc.EnqueueMove? && HandlerOp(pc, r, g).Some? && WellFormed(db, HandlerOp(pc, r, g).value)
    ensures Beside(db, HandlerOp(pc, r, g).value, id)
  {
    hide WellFormed;
  }

  lemma RestIsBeside(s: State, id: TaskId, a: Action)
    requires CalmAction(s, id, a) && !a.Work? && !a.Handle?
    requires ActionOp(s, a).Some? && WellFormed(s.db, ActionOp(s, a).value)
    ensures Beside(s.db, ActionOp(s, a).value, id)
  {
    hide WellFormed, Lookup;
  }

  lemma OthersAreBeside(s: State, taskIds: IdFactory, id: TaskId, a: Action)
    requires AtMostOnce.Inv(s) && AllMind(s.db, s.workers) && CalmAction(s, id, a)
    requires !(a.Work? && s.workers[a.worker].id == id)
    ensures ActionOp(s, a).Some? ==> Beside(s.db, ActionOp(s, a).value, id)
  {
    EngineUsesTransactions(s, taskIds, a);
    hide Sound, AtMostOnce.TablesFit, AtMostOnce.WorkerFits, AtMostOnce.OnePermitEach, Minds, WellFormed, Lookup, OpOf,
         HandlerOp, Step, Settlement.AfterOption, Beside;
    if a.Work? {
      OtherWorkIsBeside(s.db, s.developer, s.workers[a.worker], a.c, id);
    } else if ActionOp(s, a).Some? {
      if a.Handle? {
        RequestIsBeside(s.db, s.handlers[a.handler].pc, s.handlers[a.handler].request, a.g, id);
      } else {
        RestIsBeside(s, id, a);
      }
    }
  }

  lemma OthersOnlyCancel(s: State, taskIds: IdFactory, id: TaskId, a: Action)
    requires AtMostOnce.Inv(s) && AllMind(s.db, s.workers) && CalmAction(s, id, a) && id in s.db.tasks
    requires !(a.Work? && s.workers[a.worker].id == id)
    ensures id in Step(s, taskIds, a).db.tasks
    ensures OnlyCancelled(Look(s.db, id), Look(Step(s, taskIds, a).db, id))
  {
    OthersAreBeside(s, taskIds, id, a);
    EngineUsesTransactions(s, taskIds, a);
    hide AtMostOnce.TablesFit, AtMostOnce.AllFit, ActionOp, Beside, After, Step, Look, OnlyCancelled, CalmAction, Sound;
    if ActionOp(s, a).Some? {
      BesideLook(s.db, ActionOp(s, a).value, id);
    } else {
      NothingCancelled(s.db, id);
    }
  }

  lemma NothingCancelled(db: Db, id: TaskId)
    requires id in db.tasks
    ensures OnlyCancelled(Look(db, id), Look(db, id))
  {
  }

  /** Seen from the task, other people's steps add newcomers and remove strangers at most. */
  lemma StrangersDoNotMatter(s: State, taskIds: IdFactory, id: TaskId, a: Action, g: Glimpse)
    requires CalmAction(s, id, a) && !(a.Work? && s.workers[a.worker].id == id)
    ensures InOrderly(g, s.workers, id) ==> InOrderly(g, Step(s, taskIds, a).workers, id)
    ensures Lost(g, s.workers, id) ==> Lost(g, Step(s, taskIds, a).workers, id)
  {
    WorkersMove(s, taskIds, a);
    var after := Step(s, taskIds, a).workers;
    hide Step, Phase, Settled, Waiting, ClosedRuns, WorkerStep;
    if a.Work? {
      IdentityOfWorker(s.db, s.developer, s.workers[a.worker], a.c);
    }
    assert forall w :: EngagedOn(after, w, id) <==> EngagedOn(s.workers, w, id);
    assert forall w :: DoneOn(after, w, id) <==> DoneOn(s.workers, w, id);
    assert forall w :: EngagedOn(after, w, id) ==> after[w] == s.workers[w];
  }

  lemma IdentityOfWorker(db: Db, developer: Chooser, w: Worker, c: Choice)
    ensures WorkerStep(db, developer, w, c).1.id == w.id
    ensures WorkerStep(db, developer, w, c).1.stamp >= c.at && WorkerStep(db, developer, w, c).1.stamp >= w.stamp
  {
    hide Next;
  }

  // ---------------------------------------------------------------- the workers on the task

  /** Where a worker's own step leaves the order, told by what it was and what it becomes. */
  lemma OrderAfter(a: Glimpse, b: Glimpse, workers: map<nat, Worker>, w: nat, next: Worker, id: TaskId)
    requires InOrderly(a, workers, id) && w in workers && workers[w].id == id && next.id == id
    requires forall v :: v != w ==> !EngagedOn(workers, v, id)
    requires if Engaged(next.pc) then Phase(b, next.pc, next.stamp) else Waiting(b) || Settled(b)
    requires !a.doc.status.Queued? ==> !b.doc.status.Queued?
    requires Workers.Finished(next) ==> !b.doc.status.Queued?
    ensures InOrderly(b, workers[w := next], id)
  {
    hide Phase, Settled, Waiting;
    var after := workers[w := next];
    assert forall v :: v != w ==> (EngagedOn(after, v, id) <==> EngagedOn(workers, v, id));
    assert forall v :: v != w ==> (DoneOn(after, v, id) <==> DoneOn(workers, v, id));
    assert EngagedOn(after, w, id) <==> Engaged(next.pc);
  }

  /** A worker that only looks on leaves the order alone. */
  lemma OrderOfOnlooker(g: Glimpse, workers: map<nat, Worker>, w: nat, next: Worker, id: TaskId)
    requires w in workers && workers[w].id == id && next.id == id && !Engaged(workers[w].pc) && !Engaged(next.pc)
    requires Workers.Finished(next) ==> !g.doc.status.Queued?
    ensures InOrderly(g, workers, id) ==> InOrderly(g, workers[w := next], id)
    ensures Lost(g, workers, id) ==> Lost(g, workers[w := next], id)
  {
    hide Phase, Settled, Waiting, ClosedRuns;
    var after := workers[w := next];
    assert forall v :: EngagedOn(after, v, id) <==> EngagedOn(workers, v, id);
    assert forall v :: EngagedOn(after, v, id) ==> after[v] == workers[v];
    assert forall v :: v != w ==> (DoneOn(after, v, id) <==> DoneOn(workers, v, id));
  }

  lemma EngagedStep(db: Db, developer: Chooser, workers: map<nat, Worker>, w: nat, c: Choice, id: TaskId)
    requires Sound(db) && id in db.tasks && EngagedOn(workers, w, id) && Calm(db, workers[w], c)
    requires InOrderly(Look(db, id), workers, id)
    ensures var n := WorkerStep(db, developer, workers[w], c);
            id in n.0.tasks && InOrderly(Look(n.0, id), workers[w := n.1], id)
  {
    hide Sound, Look, Phase, Settled, WorkerStep, Lookup;
    var g, n := Look(db, id), WorkerStep(db, developer, workers[w], c);
    CalmStep(db, developer, workers[w], c);
    EngagedTasksAreTaken(g, workers[w].pc, workers[w].stamp);
    var h := Look(n.0, id);
    EngagedNeverStartsOver(db, developer, workers[w], c);
    if Engaged(n.1.pc) {
      EngagedTasksAreTaken(h, n.1.pc, n.1.stamp);
    } else {
      FinishedIsSettled(h, n.1.pc, n.1.stamp);
    }
    OrderAfter(g, h, workers, w, n.1, id);
  }

  lemma EngagedNeverStartsOver(db: Db, developer: Chooser, w: Worker, c: Choice)
    requires Engaged(w.pc)
    ensures var pc := WorkerStep(db, developer, w, c).1.pc; Engaged(pc) || pc.Returned? || pc.Failing?
  {
    hide TryMove, TryAssign, TryCreateRun, TryStartRun, TryFinishRun;
  }

  lemma StartingStep(db: Db, developer: Chooser, w: Worker, c: Choice)
    requires w.pc.Start? && !c.storageFails && w.id in db.tasks
    ensures var n := WorkerStep(db, developer, w, c);
            && n.0 == db && (n.1.pc.Claim? || n.1.pc.Returned?)
            && (n.1.pc.Returned? <==> !db.tasks[w.id].doc.status.Queued?)
  {
  }

  /** A calm claim is accepted exactly from queued or blocked, and then leads on to the assignment of the
      chosen developer, or to failing the task if there is none. */
  lemma ClaimingStep(db: Db, developer: Chooser, w: Worker, c: Choice)
    requires Sound(db) && w.pc.Claim? && Refusable(db, w, c) && TimelyFor(db.tasks[w.id].doc, c.at)
    ensures var n, doc := WorkerStep(db, developer, w, c), db.tasks[w.id].doc;
            var chosen, moved := developer(doc.project, doc.team), Moved(doc, Planning, c.at);
            && w.id in n.0.tasks && n.1.id == w.id
            && (if doc.status.Queued? || doc.status.Blocked?
                then && Look(n.0, w.id) == Glimpse(moved, Look(db, w.id).runs)
                     && n.1.pc == (if chosen.Some? then Assign(moved, chosen.value) else SettleRead(moved, Lifecycle.Failed))
                else n.0 == db && n.1.pc.Failing?)
  {
    hide Sound, Lookup, TryMove, ValidTask, RunsOf;
    ClaimAcceptance(db, w.id, w.pc.task, c);
  }

  /** The first claim of an unassigned, never-run task puts it in the phase that follows. */
  lemma FirstClaimGlimpse(g: Glimpse, at: Time, chosen: Option<Identifier>)
    requires (g.doc.status.Queued? || g.doc.status.Blocked?) && g.doc.agents == [] && g.runs == map[]
    requires ValidTask(g.doc) && TimelyFor(g.doc, at)
    ensures var moved := Moved(g.doc, Planning, at);
            Phase(Glimpse(moved, g.runs), if chosen.Some? then Assign(moved, chosen.value) else SettleRead(moved, Lifecycle.Failed), at)
  {
    TransitionAcceptance(g.doc, Planning, at);
    hide ValidTask;
  }

  lemma UnassignedHasNoRuns(db: Db, id: TaskId)
    requires AtMostOnce.TablesFit(db) && id in db.tasks && db.tasks[id].doc.agents == []
    ensures RunsOf(db, id) == map[]
  {
    hide AtMostOnce.RanWell, AtMostOnce.OneRunEach;
  }

  ghost predicate StepIs(s: State, taskIds: IdFactory, id: TaskId, w: nat, c: Choice) {
    && AtMostOnce.Inv(s) && AllMind(s.db, s.workers) && CalmAction(s, id, Work(w, c))
    && s.workers[w].id == id && id in s.db.tasks
  }

  lemma NobodyElse(g: Glimpse, workers: map<nat, Worker>, id: TaskId)
    requires InOrderly(g, workers, id) && (g.doc.status.Queued? || g.doc.status.Blocked?)
    ensures forall v :: !EngagedOn(workers, v, id)
    ensures Waiting(g) || Settled(g)
  {
    hide Phase, Settled, Waiting;
    forall v | EngagedOn(workers, v, id) ensures false {
      EngagedTasksAreTaken(g, workers[v].pc, workers[v].stamp);
    }
  }

  lemma ClaimInOrder(s: State, taskIds: IdFactory, id: TaskId, w: nat, c: Choice)
    requires StepIs(s, taskIds, id, w, c) && s.workers[w].pc.Claim? && InOrderly(Look(s.db, id), s.workers, id)
    ensures var n := WorkerStep(s.db, s.developer, s.workers[w], c);
            && id in n.0.tasks
            && (if ClaimsAgain(s, id, Work(w, c)) then Lost(Look(n.0, id), s.workers[w := n.1], id)
                else InOrderly(Look(n.0, id), s.workers[w := n.1], id))
  {
    var worker := s.workers[w];
    assert Minds(s.db, worker) && AtMostOnce.WorkerFits(s.db, s.developer, worker);
    assert AtMostOnce.MayClaim(s.db, s.developer, id);
    var n := WorkerStep(s.db, s.developer, worker, c);
    var g := Look(s.db, id);
    assert g.doc == s.db.tasks[id].doc && g.runs == RunsOf(s.db, id);
    hide Sound, AtMostOnce.TablesFit, AtMostOnce.AllFit, AtMostOnce.WorkerFits, WorkerStep, Lookup, Phase, Settled, RunsOf;
    ClaimingStep(s.db, s.developer, worker, c);
    if g.doc.status.Queued? || g.doc.status.Blocked? {
      NobodyElse(g, s.workers, id);
      IdentityOfWorker(s.db, s.developer, worker, c);
      TaskIdIsKey(s.db, id);
      StampOf(s.db, s.developer, worker, c);
      AcceptedInOrder(s, id, w, c);
    } else {
      OrderOfOnlooker(g, s.workers, w, n.1, id);
    }
  }

  lemma StampOf(db: Db, developer: Chooser, w: Worker, c: Choice)
    requires w.stamp <= c.at
    ensures WorkerStep(db, developer, w, c).1.stamp == c.at
  {
    hide Next;
  }

  lemma AcceptedInOrder(s: State, id: TaskId, w: nat, c: Choice)
    requires AtMostOnce.TablesFit(s.db) && w in s.workers && s.workers[w].id == id && id in s.db.tasks
    requires AtMostOnce.MayClaim(s.db, s.developer, id) && ValidTask(s.db.tasks[id].doc) && TimelyFor(s.db.tasks[id].doc, c.at)
    requires s.workers[w].pc.Claim? && (s.db.tasks[id].doc.status.Queued? || s.db.tasks[id].doc.status.Blocked?)
    requires InOrderly(Look(s.db, id), s.workers, id) && (forall v :: !EngagedOn(s.workers, v, id))
    requires Waiting(Look(s.db, id)) || Settled(Look(s.db, id))
    ensures var doc := s.db.tasks[id].doc;
            var chosen, moved := s.developer(doc.project, doc.team), Moved(doc, Planning, c.at);
            var h := Glimpse(moved, Look(s.db, id).runs);
            var next := Worker(id, if chosen.Some? then Assign(moved, chosen.value) else SettleRead(moved, Lifecycle.Failed), c.at);
            if ClaimsAgain(s, id, Work(w, c)) then Lost(h, s.workers[w := next], id)
            else InOrderly(h, s.workers[w := next], id)
  {
    var g, doc := Look(s.db, id), s.db.tasks[id].doc;
    var chosen, moved := s.developer(doc.project, doc.team), Moved(doc, Planning, c.at);
    var h := Glimpse(moved, g.runs);
    var next := Worker(id, if chosen.Some? then Assign(moved, chosen.value) else SettleRead(moved, Lifecycle.Failed), c.at);
    if ClaimsAgain(s, id, Work(w, c)) {
      hide AtMostOnce.TablesFit, ValidTask, Phase, RunsOf;
      var after := s.workers[w := next];
      assert forall v :: EngagedOn(after, v, id) ==> after[v] == next || EngagedOn(s.workers, v, id);
    } else {
      assert doc.agents == [];
      UnassignedHasNoRuns(s.db, id);
      FirstClaimGlimpse(g, c.at, chosen);
      hide AtMostOnce.TablesFit, ValidTask, Phase, RunsOf, Settled, Waiting;
      OrderAfter(g, h, s.workers, w, next, id);
    }
  }

  lemma WorkInOrder(s: State, taskIds: IdFactory, id: TaskId, w: nat, c: Choice)
    requires StepIs(s, taskIds, id, w, c) && InOrderly(Look(s.db, id), s.workers, id)
    ensures var n := WorkerStep(s.db, s.developer, s.workers[w], c);
            && id in n.0.tasks
            && (if ClaimsAgain(s, id, Work(w, c)) then Lost(Look(n.0, id), s.workers[w := n.1], id)
                else InOrderly(Look(n.0, id), s.workers[w := n.1], id))
  {
    var worker := s.workers[w];
    var g := Look(s.db, id);
    assert g.doc == s.db.tasks[id].doc;
    if worker.pc.Claim? {
      hide AtMostOnce.Inv, AllMind, WorkerStep, Look, InOrderly, Lost, Lookup;
      ClaimInOrder(s, taskIds, id, w, c);
    } else {
      hide AtMostOnce.TablesFit, AtMostOnce.AllFit, AllMind, Look, WorkerStep, Lookup, InOrderly, Lost, Sound;
      IdentityOfWorker(s.db, s.developer, worker, c);
      if Engaged(worker.pc) {
        EngagedStep(s.db, s.developer, s.workers, w, c, id);
      } else if worker.pc.Start? {
        StartingStep(s.db, s.developer, worker, c);
        OrderOfOnlooker(g, s.workers, w, WorkerStep(s.db, s.developer, worker, c).1, id);
      } else {
        DoneStep(s.db, s.developer, worker, c);
        DoneIsNotQueued(g, s.workers, w, id);
        OrderOfOnlooker(g, s.workers, w, WorkerStep(s.db, s.developer, worker, c).1, id);
      }
    }
  }

  lemma DoneStep(db: Db, developer: Chooser, w: Worker, c: Choice)
    requires Workers.Finished(w)
    ensures WorkerStep(db, developer, w, c).0 == db && WorkerStep(db, developer, w, c).1.pc == w.pc
  {
  }

  lemma DoneIsNotQueued(g: Glimpse, workers: map<nat, Worker>, w: nat, id: TaskId)
    requires InOrderly(g, workers, id) && DoneOn(workers, w, id)
    ensures !g.doc.status.Queued?
  {
  }

  /** In a lost task's store every worker on it only looks on: a claim is refused, and so is an assignment. */
  lemma OnlyLooksOn(db: Db, developer: Chooser, w: Worker, c: Choice)
    requires Sound(db) && w.id in db.tasks && Refusable(db, w, c) && TimelyFor(db.tasks[w.id].doc, c.at)
    requires db.tasks[w.id].doc.status.Planning? || db.tasks[w.id].doc.status.Cancelled?
    requires Engaged(w.pc) ==> Doomed(Look(db, w.id), w.pc)
    ensures var n := WorkerStep(db, developer, w, c); n.0 == db && n.1.id == w.id && !Engaged(n.1.pc)
  {
    IdentityOfWorker(db, developer, w, c);
    assert Look(db, w.id).doc == db.tasks[w.id].doc;
    hide Sound, Lookup, WorkerStep, Look, Refusable;
    if Engaged(w.pc) {
      DoomedStep(db, developer, w, c);
    } else if w.pc.Start? {
      RefusableIsCalm(db, w, c);
      StartingStep(db, developer, w, c);
    } else if w.pc.Claim? {
      ClaimingStep(db, developer, w, c);
    } else {
      DoneStep(db, developer, w, c);
    }
  }

  lemma RefusableIsCalm(db: Db, w: Worker, c: Choice)
    requires Refusable(db, w, c)
    ensures !c.storageFails && Minds(db, w)
  {
  }

  lemma DoomedStep(db: Db, developer: Chooser, w: Worker, c: Choice)
    requires Sound(db) && Refusable(db, w, c) && w.pc.Assign? && w.pc.task.status.Planning?
    requires w.id in db.tasks && w.pc.agent in db.tasks[w.id].doc.agents
    ensures WorkerStep(db, developer, w, c).0 == db && WorkerStep(db, developer, w, c).1.pc.Failing?
  {
    hide Sound, Lookup, WorkerStep;
    AssignmentStrands(db, developer, w, c);
  }

  lemma LostAfter(g: Glimpse, workers: map<nat, Worker>, w: nat, next: Worker, id: TaskId)
    requires Lost(g, workers, id) && w in workers && workers[w].id == id && next.id == id && !Engaged(next.pc)
    ensures Lost(g, workers[w := next], id)
  {
    hide ClosedRuns, Doomed;
    var after := workers[w := next];
    assert forall v :: EngagedOn(after, v, id) ==> EngagedOn(workers, v, id) && after[v] == workers[v];
  }

  lemma StepIsRefusable(s: State, taskIds: IdFactory, id: TaskId, w: nat, c: Choice)
    requires StepIs(s, taskIds, id, w, c)
    ensures w in s.workers && s.workers[w].id == id && id in s.db.tasks && Sound(s.db)
    ensures Refusable(s.db, s.workers[w], c) && TimelyFor(s.db.tasks[id].doc, c.at)
  {
    hide Sound, AtMostOnce.TablesFit, AtMostOnce.AllFit, AtMostOnce.OnePermitEach, AtMostOnce.NothingToEnqueue, Lookup;
    assert Minds(s.db, s.workers[w]);
  }

  lemma LostWorker(db: Db, workers: map<nat, Worker>, w: nat, id: TaskId)
    requires id in db.tasks && Lost(Look(db, id), workers, id) && w in workers && workers[w].id == id
    ensures db.tasks[id].doc.status.Planning? || db.tasks[id].doc.status.Cancelled?
    ensures Engaged(workers[w].pc) ==> Doomed(Look(db, id), workers[w].pc)
  {
    hide ClosedRuns, RunsOf;
    assert Engaged(workers[w].pc) ==> EngagedOn(workers, w, id);
  }

  /** Once lost, lost until cancelled. */
  lemma WorkWhenLost(s: State, taskIds: IdFactory, id: TaskId, w: nat, c: Choice)
    requires StepIs(s, taskIds, id, w, c) && id in s.db.tasks && w in s.workers && Lost(Look(s.db, id), s.workers, id)
    ensures var n := WorkerStep(s.db, s.developer, s.workers[w], c);
            id in n.0.tasks && Lost(Look(n.0, id), s.workers[w := n.1], id)
  {
    hide StepIs, WorkerStep, Look, Lost, Sound, Refusable, Doomed;
    StepIsRefusable(s, taskIds, id, w, c);
    LostWorker(s.db, s.workers, w, id);
    OnlyLooksOn(s.db, s.developer, s.workers[w], c);
    LostAfter(Look(s.db, id), s.workers, w, WorkerStep(s.db, s.developer, s.workers[w], c).1, id);
  }

  // ---------------------------------------------------------------- every calm run

  /** The step keeps the order unless it is a second claim, and a loss stays a loss. */
  ghost predicate StepOrders(s: State, taskIds: IdFactory, id: TaskId, a: Action)
    requires id in s.db.tasks
  {
    var after := Step(s, taskIds, a);
    && id in after.db.tasks
    && (InOrderly(Look(s.db, id), s.workers, id) ==>
          if ClaimsAgain(s, id, a) then Lost(Look(after.db, id), after.workers, id)
          else InOrderly(Look(after.db, id), after.workers, id))
    && (Lost(Look(s.db, id), s.workers, id) ==> Lost(Look(after.db, id), after.workers, id))
  }

  lemma WorkMoves(s: State, taskIds: IdFactory, w: nat, c: Choice)
    requires w in s.workers
    ensures var n, after := WorkerStep(s.db, s.developer, s.workers[w], c), Step(s, taskIds, Work(w, c));
            after.db == n.0 && after.workers == s.workers[w := n.1]
  {
    hide WorkerStep;
  }

  lemma TaskStays(s: State, taskIds: IdFactory, id: TaskId, w: nat, c: Choice)
    requires StepIs(s, taskIds, id, w, c)
    ensures id in WorkerStep(s.db, s.developer, s.workers[w], c).0.tasks
  {
    hide Sound, AtMostOnce.TablesFit, AtMostOnce.AllFit, Next, Follows, Lookup, Minds;
    NextFollows(s.db, s.developer, id, s.workers[w].pc, c);
    IdentityStays(s.db, Next(s.db, s.developer, id, s.workers[w].pc, c).0, id);
  }

  lemma OwnWorkOrders(s: State, taskIds: IdFactory, id: TaskId, w: nat, c: Choice)
    requires StepIs(s, taskIds, id, w, c) && id in s.db.tasks && w in s.workers
    ensures StepOrders(s, taskIds, id, Work(w, c))
  {
    TaskStays(s, taskIds, id, w, c);
    hide StepIs, Step, WorkerStep, Look, InOrderly, Lost, ClaimsAgain;
    WorkMoves(s, taskIds, w, c);
    if InOrderly(Look(s.db, id), s.workers, id) { WorkInOrder(s, taskIds, id, w, c); }
    if Lost(Look(s.db, id), s.workers, id) { WorkWhenLost(s, taskIds, id, w, c); }
  }

  lemma OthersOrder(s: State, taskIds: IdFactory, id: TaskId, a: Action)
    requires AtMostOnce.Inv(s) && AllMind(s.db, s.workers) && CalmAction(s, id, a) && id in s.db.tasks
    requires !(a.Work? && s.workers[a.worker].id == id)
    ensures StepOrders(s, taskIds, id, a)
  {
    var after := Step(s, taskIds, a);
    hide AtMostOnce.Inv, AllMind, Step, Look, InOrderly, Lost, OnlyCancelled, Lookup, Calm, FreshIds;
    OthersOnlyCancel(s, taskIds, id, a);
    OrderStays(Look(s.db, id), Look(after.db, id), s.workers, id);
    StrangersDoNotMatter(s, taskIds, id, a, Look(after.db, id));
  }

  lemma CalmStepOrders(s: State, taskIds: IdFactory, id: TaskId, a: Action)
    requires AtMostOnce.Inv(s) && AllMind(s.db, s.workers) && CalmAction(s, id, a) && id in s.db.tasks
    ensures StepOrders(s, taskIds, id, a)
  {
    hide AtMostOnce.Inv, AllMind, StepOrders, Lookup, Calm, FreshIds;
    if a.Work? && s.workers[a.worker].id == id {
      OwnWorkOrders(s, taskIds, id, a.worker, a.c);
    } else {
      OthersOrder(s, taskIds, id, a);
    }
  }

  lemma {:induction false} CalmRunOrders(s: State, taskIds: IdFactory, id: TaskId, actions: seq<Action>)
    requires AtMostOnce.Inv(s) && AllMind(s.db, s.workers) && id in s.db.tasks && CalmRun(s, taskIds, id, actions)
    ensures var end := Run(s, taskIds, actions);
            && id in end.db.tasks
            && (Lost(Look(s.db, id), s.workers, id) ==> Lost(Look(end.db, id), end.workers, id))
            && (InOrderly(Look(s.db, id), s.workers, id) ==>
                  if ClaimedAgain(s, taskIds, id, actions) then Lost(Look(end.db, id), end.workers, id)
                  else InOrderly(Look(end.db, id), end.workers, id))
    decreases |actions|
  {
    hide AllMind, Step, Look, InOrderly, Lost, ClaimsAgain, Enabled, Sound;
    if actions != [] {
      var next := Step(s, taskIds, actions[0]);
      CalmStepOrders(s, taskIds, id, actions[0]);
      AtMostOnce.StepKeepsInv(s, taskIds, actions[0]);
      StepKeepsMind(s, taskIds, actions[0]);
      hide AtMostOnce.Inv;
      CalmRunOrders(next, taskIds, id, actions[1..]);
    }
  }

  /** Every worker on the task is done, and there was one. */
  ghost predicate AllDone(workers: map<nat, Worker>, id: TaskId) {
    && (exists w :: DoneOn(workers, w, id))
    && (forall w :: w in workers && workers[w].id == id ==> Workers.Finished(workers[w]))
  }

  lemma DoneMeans(g: Glimpse, workers: map<nat, Worker>, id: TaskId)
    requires AllDone(workers, id)
    ensures InOrderly(g, workers, id) ==> Settled(g)
    ensures Lost(g, workers, id) ==> (Settled(g) <==> g.doc.status.Cancelled?)
    ensures Lost(g, workers, id) ==> g.doc.status.Planning? || g.doc.status.Cancelled?
  {
    assert forall w :: !EngagedOn(workers, w, id);
    var w :| DoneOn(workers, w, id);
  }

  /** From any reachable state in which the task is queued and no worker is on it: let any number of
      workers take it up, beside anything else the hub does, without interruption and with working storage
      and clock for them. When they are all done, the task is settled exactly when nobody claimed it while
      it already listed the developer chosen again, or it was cancelled after that; otherwise it is left
      in planning with nobody at work. */
  lemma SettledUnlessClaimedAgain(developer: Chooser, teams: map<Identifier, Identifier>, taskIds: IdFactory,
      before: seq<Action>, id: TaskId, actions: seq<Action>)
    requires Legal(Boot(developer, teams), taskIds, before)
    requires var s := Run(Boot(developer, teams), taskIds, before);
             && id in s.db.tasks && s.db.tasks[id].doc.status.Queued? && (forall w :: w in s.workers ==> s.workers[w].id != id)
             && CalmRun(s, taskIds, id, actions) && AllDone(Run(s, taskIds, actions).workers, id)
    ensures var s := Run(Boot(developer, teams), taskIds, before);
            var end := Run(s, taskIds, actions);
            && id in end.db.tasks
            && (Settled(Look(end.db, id)) <==> !ClaimedAgain(s, taskIds, id, actions) || end.db.tasks[id].doc.status.Cancelled?)
            && (!Settled(Look(end.db, id)) ==> end.db.tasks[id].doc.status.Planning?)
  {
    var s := Run(Boot(developer, teams), taskIds, before);
    ReachableIsFit(developer, teams, taskIds, before);
    QueuedIsInOrder(s, id);
    hide Legal, AllDone, CalmRun, ClaimedAgain, Run, InOrderly, Lost, Settled, AtMostOnce.Inv, AllMind;
    CalmRunOrders(s, taskIds, id, actions);
    var end := Run(s, taskIds, actions);
    DoneMeans(Look(end.db, id), end.workers, id);
  }

  lemma {:induction false} RunKeepsMind(s: State, taskIds: IdFactory, actions: seq<Action>)
    requires Sound(s.db) && AllMind(s.db, s.workers) && Legal(s, taskIds, actions)
    ensures AllMind(Run(s, taskIds, actions).db, Run(s, taskIds, actions).workers)
    decreases |actions|
  {
    hide Sound, AllMind, Step, Enabled;
    if actions != [] {
      StepKeepsMind(s, taskIds, actions[0]);
      StepKeepsStore(s, taskIds, actions[0]);
      RunKeepsMind(Step(s, taskIds, actions[0]), taskIds, actions[1..]);
    }
  }

  lemma ReachableIsFit(developer: Chooser, teams: map<Identifier, Identifier>, taskIds: IdFactory, actions: seq<Action>)
    requires Legal(Boot(developer, teams), taskIds, actions)
    ensures var s := Run(Boot(developer, teams), taskIds, actions); AtMostOnce.Inv(s) && AllMind(s.db, s.workers)
  {
    EmptyStoreIsSound();
    hide Sound;
    assert AtMostOnce.Inv(Boot(developer, teams));
    AtMostOnce.RunKeepsInv(Boot(developer, teams), taskIds, actions);
    RunKeepsMind(Boot(developer, teams), taskIds, actions);
  }

  lemma QueuedIsInOrder(s: State, id: TaskId)
    requires AtMostOnce.Inv(s) && id in s.db.tasks && s.db.tasks[id].doc.status.Queued?
    requires forall w :: w in s.workers ==> s.workers[w].id != id
    ensures InOrderly(Look(s.db, id), s.workers, id)
  {
    hide Sound, AtMostOnce.AllFit;
    UnassignedHasNoRuns(s.db, id);
    assert Waiting(Look(s.db, id));
    hide RunsOf, Settled, Phase;
  }
}
