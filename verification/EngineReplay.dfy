/** When the running hub keeps its log replayable: exactly while no event is committed behind a later
    one of its task (orchestrator/service.py, observability/projections.py). */
module EngineReplay {
  import opened Wrappers
  import opened Lifecycle
  import opened Events
  import opened StoreModel
  import opened StoreRuns
  import opened Engine
  import Workers

  /** The stamp of the event a transaction commits is not behind the last stamp in its task's log. */
  ghost predicate Punctual(db: Db, op: Op) {
    match op
    case OpMove(id, _, e) => NotBefore(db, id, e.timestamp)
    case OpAssign(id, _, e) => NotBefore(db, id, e.timestamp)
    case OpReconcile(at, _) => forall t :: t in StuckTasks(db) ==> NotBefore(db, t, at)
    case _ => true
  }

  ghost predicate PunctualStep(s: State, a: Action) {
    ActionOp(s, a).Some? && Commits(s.db, ActionOp(s, a).value) ==> Punctual(s.db, ActionOp(s, a).value)
  }

  ghost predicate PunctualRun(s: State, taskIds: IdFactory, actions: seq<Action>)
    decreases |actions|
  {
    actions == [] ||
    (PunctualStep(s, actions[0]) && PunctualRun(Step(s, taskIds, actions[0]), taskIds, actions[1..]))
  }

  /** In the engine only the clock can break a replay: it creates tasks without agents and appends no
      observations. */
  lemma OnlyTheClock(s: State, a: Action)
    requires Enabled(s, a) && ActionOp(s, a).Some?
    ensures Disciplined(s.db, ActionOp(s, a).value) <==> Punctual(s.db, ActionOp(s, a).value)
  {
    hide NotBefore, StuckTasks, FreshIds, Lookup;
  }

  lemma StepReplay(s: State, taskIds: IdFactory, a: Action)
    requires Sound(s.db) && Enabled(s, a)
    ensures Sound(Step(s, taskIds, a).db)
    ensures AllAgree(Step(s, taskIds, a).db) <==> AllAgree(s.db) && PunctualStep(s, a)
  {
    hide Sound, AllAgree, Step, ActionOp, Enabled, After, WellFormed, Commits, Disciplined, Punctual;
    EngineUsesTransactions(s, taskIds, a);
    var op := ActionOp(s, a);
    if op.Some? {
      StepExact(s.db, op.value);
      OnlyTheClock(s, a);
    }
  }

  lemma {:induction false} RunReplay(s: State, taskIds: IdFactory, actions: seq<Action>)
    requires Sound(s.db) && Legal(s, taskIds, actions)
    ensures AllAgree(Run(s, taskIds, actions).db) <==> AllAgree(s.db) && PunctualRun(s, taskIds, actions)
    decreases |actions|
  {
    hide Sound, AllAgree, Step, Enabled, PunctualStep;
    if actions != [] {
      StepReplay(s, taskIds, actions[0]);
      RunReplay(Step(s, taskIds, actions[0]), taskIds, actions[1..]);
    }
  }

  /** Over every run of the hub, every task still replays to its stored status and agents exactly when
      each event was committed no earlier in time than the one before it in its task's log. */
  lemma EngineReplayExact(developer: Workers.Chooser, teams: map<Identifier, Identifier>, taskIds: IdFactory,
      actions: seq<Action>)
    requires Legal(Boot(developer, teams), taskIds, actions)
    ensures AllAgree(Run(Boot(developer, teams), taskIds, actions).db) <==>
            PunctualRun(Boot(developer, teams), taskIds, actions)
  {
    EmptyStoreIsSound();
    hide Sound, AllAgree;
    RunReplay(Boot(developer, teams), taskIds, actions);
  }

  // ---------------------------------------------------------------- the race that breaks it

  const RACED := Task("task", "slack", "project", "team", "request", Pending, [], 0, None, None)

  function Stamped(id: EventId, status: Status, at: Time): Event {
    Event(id, EventFor(status), at, Some("task"), Some("project"), Some("team"), None, Some(status), "")
  }

  /** A cancellation is stamped at 2, then the worker's move to running is stamped at 3 and committed,
      then the cancellation is committed. */
  const RACE := [
    OpCreateQueued(RACED, Stamped("a", Pending, 0), Stamped("b", Queued, 0), None),
    OpMove("task", Planning, Stamped("c", Planning, 1)),
    OpMove("task", Running, Stamped("d", Running, 3)),
    OpMove("task", Cancelled, Stamped("e", Cancelled, 2))]

  predicate Holds(db: Db, doc: Task, events: seq<Event>) {
    "task" in db.tasks && db.tasks["task"].doc == doc && db.events == events
  }

  lemma LookupMisses(events: seq<Event>, id: EventId)
    requires forall e :: e in events ==> e.id != id
    ensures Lookup(events, id).None?
  {
  }

  lemma MoveOfRaced(db: Db, doc: Task, events: seq<Event>, target: Status, e: Event)
    requires Holds(db, doc, events) && SameIdentity(RACED, doc) && ValidTask(doc)
    requires e.etype == EventFor(target) && OwnEvent(OwnerOf(RACED), e) && e.status == Some(target)
    requires Lookup(events, e.id).None? && CanTransition(doc.status, target) && TimelyFor(doc, e.timestamp)
    ensures Holds(MoveTask(db, "task", target, e).db, Moved(doc, target, e.timestamp), events + [e])
    ensures SameIdentity(RACED, Moved(doc, target, e.timestamp)) && ValidTask(Moved(doc, target, e.timestamp))
  {
    hide Lookup;
    TransitionAcceptance(doc, target, e.timestamp);
  }

  lemma RaceOpens()
    ensures ValidTask(RACED) && ValidTask(Moved(RACED, Queued, 0)) && SameIdentity(RACED, Moved(RACED, Queued, 0))
    ensures Holds(After(EMPTY_DB, RACE[0]), Moved(RACED, Queued, 0), [Stamped("a", Pending, 0), Stamped("b", Queued, 0)])
  {
    var created, queued := Stamped("a", Pending, 0), Stamped("b", Queued, 0);
    TransitionAcceptance(RACED, Queued, 0);
    LookupMisses([], "a");
    assert [] + [created] == [created];
    LookupMisses([created], "b");
    assert [created] + [queued] == [created, queued];
  }

  lemma FinalStep(db: Db, op: Op, rest: seq<Op>)
    ensures Final(db, [op] + rest) == Final(After(db, op), rest)
    ensures WellFormedRun(db, [op] + rest) <==> WellFormed(db, op) && WellFormedRun(After(db, op), rest)
  {
    hide After, WellFormed;
    assert ([op] + rest)[0] == op && ([op] + rest)[1..] == rest;
  }

  lemma FinalOfFour(db: Db, a: Op, b: Op, c: Op, d: Op)
    ensures Final(db, [a, b, c, d]) == After(After(After(After(db, a), b), c), d)
    ensures WellFormedRun(db, [a, b, c, d]) <==>
            && WellFormed(db, a) && WellFormed(After(db, a), b)
            && WellFormed(After(After(db, a), b), c) && WellFormed(After(After(After(db, a), b), c), d)
  {
    hide After, WellFormed;
    var x, y, z := After(db, a), After(After(db, a), b), After(After(After(db, a), b), c);
    FinalStep(z, d, []);
    FinalStep(y, c, [d] + []);
    FinalStep(x, b, [c] + ([d] + []));
    FinalStep(db, a, [b] + ([c] + ([d] + [])));
    assert [a] + ([b] + ([c] + ([d] + []))) == [a, b, c, d];
    assert Final(After(z, d), []) == After(z, d) && WellFormedRun(After(z, d), []);
  }

  lemma BackwardsLog(events: seq<Event>, e: Event, f: Event)
    requires e.taskId == Some("task") && f.taskId == Some("task") && f.timestamp < e.timestamp
    ensures !Monotone(LogOf(events + [e] + [f], "task"))
  {
    hide LogOf;
    LogOfAppend(events + [e], f, "task");
    LogOfAppend(events, e, "task");
    MonotoneSnoc(LogOf(events, "task") + [e], f);
    SnocParts(LogOf(events, "task"), e);
  }

  const OPENING := [Stamped("a", Pending, 0), Stamped("b", Queued, 0)]
  const CLAIMED := Stamped("c", Planning, 1)
  const STARTED := Stamped("d", Running, 3)
  const STOPPED := Stamped("e", Cancelled, 2)

  function Raced(db: Db): Db {
    var claimed := MoveTask(db, "task", Planning, CLAIMED).db;
    MoveTask(MoveTask(claimed, "task", Running, STARTED).db, "task", Cancelled, STOPPED).db
  }

  lemma MovesAreAccepted(db: Db)
    requires Holds(db, Moved(RACED, Queued, 0), OPENING)
    requires ValidTask(Moved(RACED, Queued, 0))
    ensures Raced(db).events == OPENING + [CLAIMED] + [STARTED] + [STOPPED]
    ensures "task" in Raced(db).tasks && Raced(db).tasks["task"].doc.status == Cancelled
  {
    hide Lookup, ValidTask, MoveTask;
    var queued := Moved(RACED, Queued, 0);
    var db2 := MoveTask(db, "task", Planning, CLAIMED).db;
    LookupMisses(OPENING, "c");
    MoveOfRaced(db, queued, OPENING, Planning, CLAIMED);
    LookupMisses(OPENING + [CLAIMED], "d");
    MoveOfRaced(db2, Moved(queued, Planning, 1), OPENING + [CLAIMED], Running, STARTED);
    var db3 := MoveTask(db2, "task", Running, STARTED).db;
    LookupMisses(OPENING + [CLAIMED] + [STARTED], "e");
    MoveOfRaced(db3, Moved(Moved(queued, Planning, 1), Running, 3), OPENING + [CLAIMED] + [STARTED], Cancelled, STOPPED);
  }

  /** All four transactions are accepted. */
  lemma RaceIsAccepted()
    ensures WellFormedRun(EMPTY_DB, RACE)
    ensures var db := Final(EMPTY_DB, RACE);
            && db.events == OPENING + [CLAIMED] + [STARTED] + [STOPPED]
            && "task" in db.tasks && db.tasks["task"].doc.status == Cancelled
  {
    hide ValidTask, MoveTask, CreateQueuedTask, Holds, Final, WellFormedRun;
    RaceOpens();
    MovesAreAccepted(After(EMPTY_DB, RACE[0]));
    FinalOfFour(EMPTY_DB, RACE[0], RACE[1], RACE[2], RACE[3]);
  }

  /** The race is a run of accepted transactions after which the log cannot be replayed: the projector
      refuses the cancellation as a step back in time, though the task row shows it. */
  lemma CancellationRaceBreaksReplay()
    ensures WellFormedRun(EMPTY_DB, RACE)
    ensures var db := Final(EMPTY_DB, RACE);
            && "task" in db.tasks && db.tasks["task"].doc.status == Cancelled
            && !Agrees(db, "task")
  {
    hide LogOf, Sound, Agrees, Final, WellFormedRun;
    RaceIsAccepted();
    EmptyStoreIsSound();
    EveryRunIsSound(EMPTY_DB, RACE);
    BackwardsLog(OPENING + [CLAIMED], STARTED, STOPPED);
    AgreementExact(Final(EMPTY_DB, RACE), "task");
  }
}
