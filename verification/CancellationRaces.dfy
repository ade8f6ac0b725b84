/** A cancellation that crosses the worker's claim of the same task: it may be accepted and break the
    replay of the log, or be refused because the worker concluded first (orchestrator/service.py). */
module CancellationRaces {
  import opened Wrappers
  import opened Lifecycle
  import opened Events
  import opened StoreModel
  import opened StoreRuns
  import opened Workers
  import opened Settlement
  import opened Engine
  import opened StrandedTask
  import Gateway

  /** A worker has read the queued task and is to claim it; a request has read it and is to cancel it. */
  ghost predicate Racing(s: State, w: nat, h: nat, id: TaskId) {
    && Sound(s.db) && id in s.db.tasks && s.db.tasks[id].doc.status.Queued? && s.db.tasks[id].doc.agents == []
    && w in s.workers && s.workers[w].id == id && s.workers[w].pc == Claim(s.db.tasks[id].doc)
    && h in s.handlers && s.handlers[h].pc == Gateway.StopMove(s.db.tasks[id].doc)
  }

  // ---------------------------------------------------------------- moves of one task, one after another

  lemma LastStamp(events: seq<Event>, id: TaskId, e: Event)
    requires e.taskId == Some(id)
    ensures LogOf(events + [e], id) != [] && Last(LogOf(events + [e], id)) == e
  {
    LogOfAppend(events, e, id);
    SnocParts(LogOf(events, id), e);
  }

  /** An accepted move: what it leaves, whether the replay still agrees, and the stamp it puts last. */
  lemma AcceptedMove(db: Db, id: TaskId, target: Status, e: Event)
    requires Sound(db) && id in db.tasks && LifecycleEventMatches(db.tasks[id].doc, target, e)
    requires Lookup(db.events, e.id).None? && CanTransition(db.tasks[id].doc.status, target)
    requires TimelyFor(db.tasks[id].doc, e.timestamp)
    ensures var o, moved := MoveTask(db, id, target, e), Moved(db.tasks[id].doc, target, e.timestamp);
            && o.result == Ok(moved) && Sound(o.db) && id in o.db.tasks && o.db.tasks[id].doc == moved
            && o.db.events == db.events + [e]
            && (AllAgree(o.db) <==> AllAgree(db) && NotBefore(db, id, e.timestamp))
            && (forall at :: NotBefore(o.db, id, at) <==> e.timestamp <= at)
  {
    hide Sound, Lookup, AllAgree, LogOf, ValidTask;
    TaskIdIsKey(db, id);
    FreshMove(db, id, target, e);
    TransitionAcceptance(db.tasks[id].doc, target, e.timestamp);
    MoveExact(db, id, target, e);
    LastStamp(db.events, id, e);
  }

  /** The event an assignment of the task is announced by. */
  predicate Announces(doc: Task, agent: Identifier, e: Event) {
    && e.etype.AgentAssigned? && e.taskId == Some(doc.taskId) && e.agent == Some(agent)
    && e.project == Some(doc.project) && e.team == Some(doc.team) && e.status == Some(doc.status)
  }

  lemma AcceptedAssign(db: Db, id: TaskId, agent: Identifier, e: Event)
    requires Sound(db) && id in db.tasks && Announces(db.tasks[id].doc, agent, e) && db.tasks[id].doc.agents == []
    requires Lookup(db.events, e.id).None?
    ensures var o, given := AssignTask(db, id, agent, e), db.tasks[id].doc.(agents := [agent]);
            && o.result == Ok(given) && Sound(o.db) && id in o.db.tasks && o.db.tasks[id].doc == given
            && o.db.events == db.events + [e]
            && (AllAgree(o.db) <==> AllAgree(db) && NotBefore(db, id, e.timestamp))
            && (forall at :: NotBefore(o.db, id, at) <==> e.timestamp <= at)
  {
    hide Sound, Lookup, AllAgree, LogOf, ValidTask;
    TaskIdIsKey(db, id);
    FirstAgentIsValid(db.tasks[id].doc, agent);
    AssignExact(db, id, agent, e);
    LastStamp(db.events, id, e);
  }

  // ---------------------------------------------------------------- the hub's steps

  /** A choice that commits, with a new event id and a clock that is not behind the task. */
  predicate WillCommit(db: Db, doc: Task, at: Time, eventId: EventId, fails: bool) {
    !fails && Lookup(db.events, eventId).None? && TimelyFor(doc, at)
  }

  lemma WorkDoes(s: State, taskIds: IdFactory, w: nat, c: Choice)
    requires w in s.workers && Lookup(s.db.events, c.eventId).None?
    ensures var n, e := Next(s.db, s.developer, s.workers[w].id, s.workers[w].pc, c), Step(s, taskIds, Work(w, c));
            && Enabled(s, Work(w, c)) && e.db == n.0 && w in e.workers && e.workers[w].pc == n.1
            && e.workers[w].id == s.workers[w].id && e.handlers == s.handlers && e.developer == s.developer
  {
    hide Next, Lookup;
  }

  /** The claim that the cancellation crosses. */
  lemma ClaimDoes(s: State, taskIds: IdFactory, w: nat, id: TaskId, doc: Task, c: Choice)
    requires Sound(s.db) && id in s.db.tasks && s.db.tasks[id].doc == doc && doc.status.Queued?
    requires w in s.workers && s.workers[w].id == id && s.workers[w].pc == Claim(doc)
    requires WillCommit(s.db, doc, c.at, c.eventId, c.storageFails)
    ensures var e, claimed := Step(s, taskIds, Work(w, c)), Moved(doc, Planning, c.at);
            && Enabled(s, Work(w, c)) && e.db == MoveTask(s.db, id, Planning, LifecycleEvent(doc, Planning, c)).db
            && e.handlers == s.handlers && e.developer == s.developer && w in e.workers && e.workers[w].id == id
            && e.workers[w].pc == (match s.developer(doc.project, doc.team)
                                   case None => SettleRead(claimed, Lifecycle.Failed)
                                   case Some(agent) => Assign(claimed, agent))
  {
    hide Sound, Lookup, AllAgree, NotBefore, MoveTask, ValidTask;
    TaskIdIsKey(s.db, id);
    AcceptedMove(s.db, id, Planning, LifecycleEvent(doc, Planning, c));
    WorkDoes(s, taskIds, w, c);
  }

  lemma AssignDoes(s: State, taskIds: IdFactory, w: nat, id: TaskId, doc: Task, agent: Identifier, d: Choice)
    requires Sound(s.db) && id in s.db.tasks && s.db.tasks[id].doc == doc && doc.agents == []
    requires w in s.workers && s.workers[w].id == id && s.workers[w].pc == Assign(doc, agent)
    requires !d.storageFails && Lookup(s.db.events, d.eventId).None?
    ensures var e := Step(s, taskIds, Work(w, d));
            && Enabled(s, Work(w, d)) && e.handlers == s.handlers && Announces(doc, agent, AssignmentEvent(doc, agent, d))
            && e.db == AssignTask(s.db, id, agent, AssignmentEvent(doc, agent, d)).db
  {
    hide Sound, Lookup, AllAgree, NotBefore, AssignTask, ValidTask, Step, Enabled;
    TaskIdIsKey(s.db, id);
    WorkDoes(s, taskIds, w, d);
  }

  predicate MayHandle(s: State, h: nat, g: Gateway.Choice) {
    h in s.handlers && FreshPair(s.db, g) && AnswersQuery(g.answer)
  }

  lemma HandleDoes(s: State, taskIds: IdFactory, h: nat, g: Gateway.Choice)
    requires MayHandle(s, h, g) && !s.handlers[h].pc.Submitting?
    ensures var n, e := Gateway.Next(s.db, s.teams, taskIds, s.handlers[h].request, s.handlers[h].pc, g), Step(s, taskIds, Handle(h, g));
            && Enabled(s, Handle(h, g)) && e == s.(db := n.0, handlers := s.handlers[h := s.handlers[h].(pc := n.1)])
  {
    hide Gateway.Next, Lookup;
  }

  /** The cancellation, whatever became of the task since it was read. */
  lemma CancelDoes(s: State, taskIds: IdFactory, h: nat, id: TaskId, task: Task, g: Gateway.Choice)
    requires Sound(s.db) && id in s.db.tasks && SameIdentity(task, s.db.tasks[id].doc)
    requires MayHandle(s, h, g) && s.handlers[h].pc == Gateway.StopMove(task)
    requires WillCommit(s.db, s.db.tasks[id].doc, g.at, g.createdId, g.storageFails)
    ensures var e, doc := Step(s, taskIds, Handle(h, g)), s.db.tasks[id].doc;
            && Enabled(s, Handle(h, g)) && h in e.handlers
            && (if IsTerminal(doc.status)
                then e.db == s.db && e.handlers[h].pc == Gateway.Deliver(Gateway.Plain(Gateway.GatewayModels.CodeConflict))
                else && e.db == MoveTask(s.db, id, Lifecycle.Cancelled, Gateway.CommandEvent(task, Lifecycle.Cancelled, g)).db
                     && LifecycleEventMatches(doc, Lifecycle.Cancelled, Gateway.CommandEvent(task, Lifecycle.Cancelled, g))
                     && CanTransition(doc.status, Lifecycle.Cancelled))
  {
    hide Sound, Lookup, MoveTask, ValidTask, FreshPair;
    var doc := s.db.tasks[id].doc;
    TaskIdIsKey(s.db, id);
    FreshMove(s.db, id, Lifecycle.Cancelled, Gateway.CommandEvent(task, Lifecycle.Cancelled, g));
    TransitionAcceptance(doc, Lifecycle.Cancelled, g.at);
    HandleDoes(s, taskIds, h, g);
  }

  // ---------------------------------------------------------------- accepted, and the replay broken

  /** The claim and the assignment commit, then the cancellation that was read before them. */
  function Crossing(w: nat, c: Choice, d: Choice, h: nat, g: Gateway.Choice): seq<Action> {
    [Work(w, c)] + ([Work(w, d)] + ([Handle(h, g)] + []))
  }

  lemma TwoSteps(s: State, taskIds: IdFactory, a: Action, b: Action)
    requires Enabled(s, a) && Enabled(Step(s, taskIds, a), b)
    ensures Legal(s, taskIds, [a] + ([b] + []))
    ensures Run(s, taskIds, [a] + ([b] + [])) == Step(Step(s, taskIds, a), taskIds, b)
  {
    hide Step, Enabled, Run, Legal;
    var m := Step(s, taskIds, a);
    Then(s, taskIds, a, [b] + []);
    Then(m, taskIds, b, []);
    NothingMore(Step(m, taskIds, b), taskIds);
  }

  lemma PairStaysFresh(db: Db, g: Gateway.Choice, e: Event, after: Db)
    requires FreshPair(db, g) && g.createdId != e.id && g.queuedId != e.id && after.events == db.events + [e]
    ensures FreshPair(after, g) && Lookup(after.events, g.createdId).None?
  {
    StillFresh(db.events, e, g.createdId);
    StillFresh(db.events, e, g.queuedId);
    hide Lookup;
  }

  predicate NewPair(db: Db, g: Gateway.Choice, c: EventId, d: EventId) {
    FreshPair(db, g) && c != d && g.createdId != c && g.createdId != d && g.queuedId != c && g.queuedId != d
  }

  /** In every such state of the hub whose project has an eligible developer: a cancellation not stamped before
      the claim is accepted after the assignment, and the hub's log replays to its store exactly when it did
      before and no stamp of the three is behind the one before it. */
  lemma CrossingExact(s: State, taskIds: IdFactory, w: nat, h: nat, id: TaskId, c: Choice, d: Choice, g: Gateway.Choice)
    requires Racing(s, w, h, id) && WillCommit(s.db, s.db.tasks[id].doc, c.at, c.eventId, c.storageFails)
    requires s.developer(s.db.tasks[id].doc.project, s.db.tasks[id].doc.team).Some?
    requires !d.storageFails && Lookup(s.db.events, d.eventId).None?
    requires MayHandle(s, h, g) && NewPair(s.db, g, c.eventId, d.eventId) && !g.storageFails
    requires TimelyFor(Moved(s.db.tasks[id].doc, Planning, c.at), g.at)
    ensures Legal(s, taskIds, Crossing(w, c, d, h, g))
    ensures var e := Run(s, taskIds, Crossing(w, c, d, h, g));
            && id in e.db.tasks && e.db.tasks[id].doc.status.Cancelled?
            && (AllAgree(e.db) <==> AllAgree(s.db) && NotBefore(s.db, id, c.at) && c.at <= d.at <= g.at)
  {
    hide Sound, Lookup, AllAgree, NotBefore, MoveTask, AssignTask, ValidTask, Run, Legal, Step, Enabled, LifecycleEventMatches,
         Announces, AssignmentEvent;
    var doc := s.db.tasks[id].doc;
    var agent := s.developer(doc.project, doc.team).value;
    var claimed := Moved(doc, Planning, c.at);
    var claim, given := LifecycleEvent(doc, Planning, c), AssignmentEvent(claimed, agent, d);
    EventsMatch(s.db, id, c, d);
    ClaimDoes(s, taskIds, w, id, doc, c);
    AcceptedMove(s.db, id, Planning, claim);
    var m := Step(s, taskIds, Work(w, c));
    StillFresh(s.db.events, claim, d.eventId);
    AssignDoes(m, taskIds, w, id, claimed, agent, d);
    StampOf(claimed, agent, d);
    AcceptedAssign(m.db, id, agent, given);
    var n := Step(m, taskIds, Work(w, d));
    PairStaysFresh(s.db, g, claim, m.db);
    PairStaysFresh(m.db, g, given, n.db);
    CancelDoes(n, taskIds, h, id, doc, g);
    AcceptedMove(n.db, id, Lifecycle.Cancelled, Gateway.CommandEvent(doc, Lifecycle.Cancelled, g));
    TwoSteps(m, taskIds, Work(w, d), Handle(h, g));
    Then(s, taskIds, Work(w, c), [Work(w, d)] + ([Handle(h, g)] + []));
  }

  lemma StampOf(task: Task, agent: Identifier, d: Choice)
    ensures AssignmentEvent(task, agent, d).id == d.eventId && AssignmentEvent(task, agent, d).timestamp == d.at
  {
  }

  // ---------------------------------------------------------------- refused, because the worker concluded first

  /** Without a developer the worker fails the task it claimed. */
  lemma FailureDoes(s: State, taskIds: IdFactory, w: nat, id: TaskId, doc: Task, d: Choice)
    requires Sound(s.db) && id in s.db.tasks && s.db.tasks[id].doc == doc && doc.status.Planning?
    requires w in s.workers && s.workers[w].id == id && s.workers[w].pc == SettleRead(doc, Lifecycle.Failed)
    requires WillCommit(s.db, doc, d.at, d.eventId, d.storageFails)
    ensures var m := Step(s, taskIds, Work(w, d)); var e := Step(m, taskIds, Work(w, d));
            && Enabled(s, Work(w, d)) && Enabled(m, Work(w, d)) && e.handlers == s.handlers
            && e.db == MoveTask(s.db, id, Lifecycle.Failed, LifecycleEvent(doc, Lifecycle.Failed, d)).db
  {
    hide Sound, Lookup, AllAgree, NotBefore, MoveTask, ValidTask, Step, Enabled;
    TaskIdIsKey(s.db, id);
    var m := Step(s, taskIds, Work(w, d));
    WorkDoes(s, taskIds, w, d);
    WorkDoes(m, taskIds, w, d);
  }

  /** The worker claims and fails the task, then the cancellation that was read before comes. */
  function Concluding(w: nat, c: Choice, d: Choice, h: nat, g: Gateway.Choice): seq<Action> {
    [Work(w, c)] + ([Work(w, d)] + ([Work(w, d)] + ([Handle(h, g)] + [])))
  }

  /** In every such state of the hub whose project has no eligible developer: the worker may conclude between
      the read and the move; the cancellation is then refused as a conflict and the task stays failed. */
  lemma ConcludedFirst(s: State, taskIds: IdFactory, w: nat, h: nat, id: TaskId, c: Choice, d: Choice, g: Gateway.Choice)
    requires Racing(s, w, h, id) && WillCommit(s.db, s.db.tasks[id].doc, c.at, c.eventId, c.storageFails)
    requires s.developer(s.db.tasks[id].doc.project, s.db.tasks[id].doc.team).None?
    requires WillCommit(s.db, Moved(s.db.tasks[id].doc, Planning, c.at), d.at, d.eventId, d.storageFails)
    requires MayHandle(s, h, g) && NewPair(s.db, g, c.eventId, d.eventId) && !g.storageFails
    requires TimelyFor(Moved(Moved(s.db.tasks[id].doc, Planning, c.at), Lifecycle.Failed, d.at), g.at)
    ensures Legal(s, taskIds, Concluding(w, c, d, h, g))
    ensures var e := Run(s, taskIds, Concluding(w, c, d, h, g));
            && id in e.db.tasks && e.db.tasks[id].doc.status.Failed? && h in e.handlers
            && e.handlers[h].pc == Gateway.Deliver(Gateway.Plain(Gateway.GatewayModels.CodeConflict))
  {
    hide Sound, Lookup, AllAgree, NotBefore, MoveTask, ValidTask, Run, Legal, Step, Enabled, LifecycleEventMatches;
    var doc := s.db.tasks[id].doc;
    var claimed := Moved(doc, Planning, c.at);
    var claim, fail := LifecycleEvent(doc, Planning, c), LifecycleEvent(claimed, Lifecycle.Failed, d);
    EventsMatch(s.db, id, c, d);
    ClaimDoes(s, taskIds, w, id, doc, c);
    AcceptedMove(s.db, id, Planning, claim);
    var m := Step(s, taskIds, Work(w, c));
    StillFresh(s.db.events, claim, d.eventId);
    FailureDoes(m, taskIds, w, id, claimed, d);
    AcceptedMove(m.db, id, Lifecycle.Failed, fail);
    var n := Step(m, taskIds, Work(w, d));
    var f := Step(n, taskIds, Work(w, d));
    PairStaysFresh(s.db, g, claim, m.db);
    PairStaysFresh(m.db, g, fail, f.db);
    CancelDoes(f, taskIds, h, id, doc, g);
    TwoSteps(n, taskIds, Work(w, d), Handle(h, g));
    Then(m, taskIds, Work(w, d), [Work(w, d)] + ([Handle(h, g)] + []));
    Then(s, taskIds, Work(w, c), [Work(w, d)] + ([Work(w, d)] + ([Handle(h, g)] + [])));
  }

  lemma EventsMatch(db: Db, id: TaskId, c: Choice, d: Choice)
    requires Sound(db) && id in db.tasks
    ensures var doc := db.tasks[id].doc; var claimed := Moved(doc, Planning, c.at);
            && LifecycleEventMatches(doc, Planning, LifecycleEvent(doc, Planning, c))
            && LifecycleEventMatches(claimed, Lifecycle.Failed, LifecycleEvent(claimed, Lifecycle.Failed, d))
            && SameIdentity(doc, Moved(claimed, Lifecycle.Failed, d.at))
  {
    TaskIdIsKey(db, id);
    hide Sound, ValidTask;
  }

  // ---------------------------------------------------------------- such states are reached

  function StopRequest(key: RequestKey, id: TaskId): Gateway.Request {
    Gateway.Request(key, "slack", Gateway.Stop(id))
  }

  /** A call reads the queued task, then a request to stop it is handled up to its move. */
  function Meeting(w: nat, c: Choice, h: nat, key: RequestKey, id: TaskId, g: Gateway.Choice): seq<Action> {
    [Poll(w, id)] + ([Work(w, c)] + ([Arrive(h, StopRequest(key, id))] + ([Handle(h, g)] + ([Handle(h, g)] +
    ([Handle(h, g)] + ([Handle(h, g)] + ([Handle(h, g)] + [])))))))
  }

  predicate Admits(db: Db, g: Gateway.Choice) {
    FreshPair(db, g) && AnswersQuery(g.answer) && g.verdict.Admitted? && !g.storageFails
  }

  function Reserving(db: Db, key: RequestKey, g: Gateway.Choice): Db {
    ReserveRequest(db, key, g.at).db
  }

  /** What the request does up to its move. */
  lemma UpToMove(db: Db, teams: map<Identifier, Identifier>, taskIds: IdFactory, key: RequestKey, id: TaskId, g: Gateway.Choice)
    requires id in db.tasks && !IsTerminal(db.tasks[id].doc.status) && key !in db.requests && Admits(db, g)
    ensures var r, reserved := StopRequest(key, id), Reserving(db, key, g);
            && Gateway.Next(db, teams, taskIds, r, Gateway.Arriving, g) == (db, Gateway.Checking)
            && Gateway.Next(db, teams, taskIds, r, Gateway.Checking, g) == (db, Gateway.Reserving)
            && Gateway.Next(db, teams, taskIds, r, Gateway.Reserving, g) == (reserved, Gateway.Dispatching)
            && Gateway.Next(reserved, teams, taskIds, r, Gateway.Dispatching, g) == (reserved, Gateway.StopRead(id))
            && Gateway.Next(reserved, teams, taskIds, r, Gateway.StopRead(id), g) == (reserved, Gateway.StopMove(db.tasks[id].doc))
            && Admits(reserved, g) && reserved.tasks == db.tasks && reserved.events == db.events
  {
    hide Lookup;
  }

  /** The hub with this request at this place. */
  function At(s: State, db: Db, h: nat, r: Gateway.Request, pc: Gateway.Pc): State {
    s.(db := db, handlers := s.handlers[h := Gateway.Handler(r, pc)])
  }

  lemma HandlerMoves(s: State, taskIds: IdFactory, db: Db, h: nat, r: Gateway.Request, pc: Gateway.Pc, g: Gateway.Choice,
      rest: seq<Action>)
    requires Admits(db, g) && !pc.Submitting?
    ensures var n := Gateway.Next(db, s.teams, taskIds, r, pc, g);
            && Run(At(s, db, h, r, pc), taskIds, [Handle(h, g)] + rest) == Run(At(s, n.0, h, r, n.1), taskIds, rest)
            && (Legal(At(s, db, h, r, pc), taskIds, [Handle(h, g)] + rest) <==> Legal(At(s, n.0, h, r, n.1), taskIds, rest))
  {
    hide Gateway.Next, Lookup, Run, Legal;
    var n := Gateway.Next(db, s.teams, taskIds, r, pc, g);
    var here, there := At(s, db, h, r, pc), At(s, n.0, h, r, n.1);
    HandleDoes(here, taskIds, h, g);
    Then(here, taskIds, Handle(h, g), rest);
    hide Step;
    assert here.handlers[h := Gateway.Handler(r, n.1)] == there.handlers;
  }

  lemma RequestRuns(s: State, taskIds: IdFactory, h: nat, key: RequestKey, id: TaskId, g: Gateway.Choice)
    requires id in s.db.tasks && !IsTerminal(s.db.tasks[id].doc.status) && key !in s.db.requests && Admits(s.db, g)
    requires h !in s.handlers
    ensures var actions := [Arrive(h, StopRequest(key, id))] + ([Handle(h, g)] + ([Handle(h, g)] + ([Handle(h, g)] +
                           ([Handle(h, g)] + ([Handle(h, g)] + [])))));
            && Legal(s, taskIds, actions)
            && Run(s, taskIds, actions)
               == At(s, Reserving(s.db, key, g), h, StopRequest(key, id), Gateway.StopMove(s.db.tasks[id].doc))
  {
    var r, reserved, doc := StopRequest(key, id), Reserving(s.db, key, g), s.db.tasks[id].doc;
    UpToMove(s.db, s.teams, taskIds, key, id, g);
    var a5: seq<Action> := [Handle(h, g)] + [];
    var a4 := [Handle(h, g)] + a5;
    var a3 := [Handle(h, g)] + a4;
    var a2 := [Handle(h, g)] + a3;
    Then(s, taskIds, Arrive(h, r), [Handle(h, g)] + a2);
    assert Step(s, taskIds, Arrive(h, r)) == At(s, s.db, h, r, Gateway.Arriving);
    hide Run, Legal, Gateway.Next, Reserving, StopRequest, Admits, Step, Enabled, At;
    HandlerMoves(s, taskIds, s.db, h, r, Gateway.Arriving, g, a2);
    HandlerMoves(s, taskIds, s.db, h, r, Gateway.Checking, g, a3);
    HandlerMoves(s, taskIds, s.db, h, r, Gateway.Reserving, g, a4);
    HandlerMoves(s, taskIds, reserved, h, r, Gateway.Dispatching, g, a5);
    HandlerMoves(s, taskIds, reserved, h, r, Gateway.StopRead(id), g, []);
    NothingMore(At(s, reserved, h, r, Gateway.StopMove(doc)), taskIds);
  }

  /** The hub with a call on the task that is to claim it. */
  function Reading(s: State, w: nat, id: TaskId, doc: Task, stamp: Time): State {
    s.(workers := s.workers[w := Worker(id, Claim(doc), stamp)])
  }

  lemma CallRuns(s: State, taskIds: IdFactory, w: nat, id: TaskId, c: Choice, rest: seq<Action>)
    requires w !in s.workers && id in s.db.tasks && s.db.tasks[id].doc.status.Queued?
    requires Lookup(s.db.events, c.eventId).None? && !c.storageFails
    ensures var there := Reading(s, w, id, s.db.tasks[id].doc, if c.at < 0 then 0 else c.at);
            && Run(s, taskIds, [Poll(w, id)] + ([Work(w, c)] + rest)) == Run(there, taskIds, rest)
            && (Legal(s, taskIds, [Poll(w, id)] + ([Work(w, c)] + rest)) <==> Legal(there, taskIds, rest))
  {
    hide Run, Legal, Lookup;
    var polled := s.(workers := s.workers[w := Worker(id, Start, 0)]);
    Then(s, taskIds, Poll(w, id), [Work(w, c)] + rest);
    assert Step(s, taskIds, Poll(w, id)) == polled;
    hide Step, Enabled, Next;
    StartReads(polled, taskIds, w, id, c, rest);
    var there := Reading(s, w, id, s.db.tasks[id].doc, if c.at < 0 then 0 else c.at);
    assert polled.workers[w := there.workers[w]] == there.workers;
  }

  /** The hub when both have read the queued task. */
  function Met(s: State, w: nat, c: Choice, h: nat, key: RequestKey, id: TaskId, doc: Task, g: Gateway.Choice): State {
    At(Reading(s, w, id, doc, if c.at < 0 then 0 else c.at), Reserving(s.db, key, g), h, StopRequest(key, id), Gateway.StopMove(doc))
  }

  lemma MetRaces(s: State, w: nat, c: Choice, h: nat, key: RequestKey, id: TaskId, g: Gateway.Choice)
    requires Sound(s.db) && id in s.db.tasks && s.db.tasks[id].doc.status.Queued? && s.db.tasks[id].doc.agents == []
    requires key !in s.db.requests && Admits(s.db, g)
    ensures var e := Met(s, w, c, h, key, id, s.db.tasks[id].doc, g);
            Racing(e, w, h, id) && e.db.events == s.db.events && e.db.tasks == s.db.tasks && e.developer == s.developer
  {
    hide Sound, Admits, Lookup, StopRequest;
    ReservationKeepsSound(s.db, key, g);
  }

  lemma MeetingRuns(s: State, taskIds: IdFactory, w: nat, c: Choice, h: nat, key: RequestKey, id: TaskId, g: Gateway.Choice)
    requires id in s.db.tasks && s.db.tasks[id].doc.status.Queued?
    requires w !in s.workers && h !in s.handlers && key !in s.db.requests && Admits(s.db, g)
    requires Lookup(s.db.events, c.eventId).None? && !c.storageFails
    ensures Legal(s, taskIds, Meeting(w, c, h, key, id, g))
    ensures Run(s, taskIds, Meeting(w, c, h, key, id, g)) == Met(s, w, c, h, key, id, s.db.tasks[id].doc, g)
  {
    hide Run, Legal, Lookup, Reserving, Admits, StopRequest, At, Step, Enabled;
    var tail: seq<Action> := [Arrive(h, StopRequest(key, id))] + ([Handle(h, g)] + ([Handle(h, g)] + ([Handle(h, g)] +
                             ([Handle(h, g)] + ([Handle(h, g)] + [])))));
    CallRuns(s, taskIds, w, id, c, tail);
    RequestRuns(Reading(s, w, id, s.db.tasks[id].doc, if c.at < 0 then 0 else c.at), taskIds, h, key, id, g);
  }

  /** From any hub state with a queued task, a call and a request to stop the task may meet so. */
  lemma RacesMeet(s: State, taskIds: IdFactory, w: nat, c: Choice, h: nat, key: RequestKey, id: TaskId, g: Gateway.Choice)
    requires Sound(s.db) && id in s.db.tasks && s.db.tasks[id].doc.status.Queued? && s.db.tasks[id].doc.agents == []
    requires w !in s.workers && h !in s.handlers && key !in s.db.requests && Admits(s.db, g)
    requires Lookup(s.db.events, c.eventId).None? && !c.storageFails
    ensures Legal(s, taskIds, Meeting(w, c, h, key, id, g))
    ensures var e := Run(s, taskIds, Meeting(w, c, h, key, id, g));
            && Racing(e, w, h, id) && e.db.events == s.db.events && e.db.tasks == s.db.tasks && e.developer == s.developer
  {
    hide Run, Legal, Meeting, Lookup, Sound, Admits, Met, Racing;
    MeetingRuns(s, taskIds, w, c, h, key, id, g);
    MetRaces(s, w, c, h, key, id, g);
  }

  lemma ReservationKeepsSound(db: Db, key: RequestKey, g: Gateway.Choice)
    requires Sound(db)
    ensures Sound(Reserving(db, key, g))
  {
    StepSound(db, OpReserveRequest(key, g.at));
    hide Sound;
  }

  // ---------------------------------------------------------------- from an empty store

  function Stopping(at: Time): Gateway.Choice {
    Gateway.Choice(at, at, at, "e0", "e1", "", false, Gateway.Admitted, Gateway.Plain(Gateway.GatewayModels.CodeOk))
  }

  /** The task as the first request leaves it. */
  function Made(id: TaskId): Task {
    Moved(Gateway.PendingTask(Asked(id), ADMITTED), Queued, 0)
  }

  function Prelude(id: TaskId): seq<Action> {
    CREATION + Meeting(0, Calmly(0, "e2"), 1, "stop", id, Stopping(0))
  }

  lemma SubmitKeepsRequests(db: Db, sub: Gateway.Submission, g: Gateway.Choice)
    ensures Gateway.Submit(db, sub, g).db.requests == db.requests
  {
    hide Lookup, ValidTask, Lifecycle.TransitionTask, LifecycleEventMatches;
  }

  lemma PreludeRuns(developer: Chooser, taskIds: IdFactory)
    ensures var id, e := taskIds("key"), Run(Boot(developer, TEAMS), taskIds, Prelude(taskIds("key")));
            && Legal(Boot(developer, TEAMS), taskIds, Prelude(id))
            && Racing(e, 0, 1, id) && NewIds(e.db, NEW_IDS) && e.developer == developer
            && e.db.tasks[id].doc == Made(id)
  {
    var id := taskIds("key");
    CreationRuns(developer, taskIds);
    CreatedTask(id);
    SubmitKeepsRequests(StrandedTask.Reserved(), Asked(id), ADMITTED);
    var made := Run(Boot(developer, TEAMS), taskIds, CREATION);
    hide Run, Legal, Sound, Gateway.Submit, Meeting, CREATION, Racing, Lookup, ValidTask;
    assert forall i :: 0 <= i < 5 ==> Lookup(made.db.events, NEW_IDS[i]).None?;
    assert NEW_IDS[0] == "e0" && NEW_IDS[1] == "e1" && NEW_IDS[2] == "e2";
    assert Admits(made.db, Stopping(0));
    RacesMeet(made, taskIds, 0, Calmly(0, "e2"), 1, "stop", id, Stopping(0));
    RunInTwo(Boot(developer, TEAMS), taskIds, CREATION, Meeting(0, Calmly(0, "e2"), 1, "stop", id, Stopping(0)));
  }

  lemma MadeFits(id: TaskId)
    ensures TimelyFor(Made(id), 0) && TimelyFor(Made(id), 1) && TimelyFor(Moved(Made(id), Planning, 0), 0)
    ensures TimelyFor(Moved(Made(id), Planning, 1), 2) && TimelyFor(Moved(Moved(Made(id), Planning, 0), Lifecycle.Failed, 0), 0)
    ensures Made(id).project == "project" && Made(id).team == "team"
  {
  }

  lemma IdsAreNew(db: Db, g: Time)
    requires NewIds(db, NEW_IDS)
    ensures NewPair(db, Stopping(g), "e2", "e3") && Lookup(db.events, "e2").None? && Lookup(db.events, "e3").None?
    ensures FreshPair(db, Stopping(g))
  {
    hide Lookup;
    assert forall i :: 0 <= i < 5 ==> Lookup(db.events, NEW_IDS[i]).None?;
    assert NEW_IDS[0] == "e0" && NEW_IDS[1] == "e1" && NEW_IDS[2] == "e2" && NEW_IDS[3] == "e3";
    assert "e0"[1] == '0' && "e1"[1] == '1' && "e2"[1] == '2' && "e3"[1] == '3';
  }

  lemma StopFits(s: State, id: TaskId, g: Time)
    requires Racing(s, 0, 1, id) && NewIds(s.db, NEW_IDS)
    ensures MayHandle(s, 1, Stopping(g)) && NewPair(s.db, Stopping(g), "e2", "e3")
    ensures Lookup(s.db.events, "e2").None? && Lookup(s.db.events, "e3").None?
  {
    hide Sound, Lookup, NewIds, NewPair, FreshPair;
    IdsAreNew(s.db, g);
  }

  /** The claim is stamped 1, the assignment 3, the cancellation 2. */
  function Race(): seq<Action> {
    Crossing(0, Calmly(1, "e2"), Calmly(3, "e3"), 1, Stopping(2))
  }

  function Defeat(): seq<Action> {
    Concluding(0, Calmly(0, "e2"), Calmly(0, "e3"), 1, Stopping(0))
  }

  lemma MetCrosses(s: State, taskIds: IdFactory, id: TaskId)
    requires Racing(s, 0, 1, id) && NewIds(s.db, NEW_IDS) && s.db.tasks[id].doc == Made(id)
    requires s.developer("project", "team").Some?
    ensures Legal(s, taskIds, Race()) && id in Run(s, taskIds, Race()).db.tasks
    ensures Run(s, taskIds, Race()).db.tasks[id].doc.status.Cancelled? && !AllAgree(Run(s, taskIds, Race()).db)
  {
    hide Run, Legal, Sound, Lookup, ValidTask, Crossing, AllAgree, NotBefore, NewIds, NewPair, TimelyFor, Moved, Made, MayHandle;
    StopFits(s, id, 2);
    MadeFits(id);
    CrossingExact(s, taskIds, 0, 1, id, Calmly(1, "e2"), Calmly(3, "e3"), Stopping(2));
  }

  lemma MetConcludes(s: State, taskIds: IdFactory, id: TaskId)
    requires Racing(s, 0, 1, id) && NewIds(s.db, NEW_IDS) && s.db.tasks[id].doc == Made(id)
    requires s.developer("project", "team").None?
    ensures Legal(s, taskIds, Defeat()) && id in Run(s, taskIds, Defeat()).db.tasks
    ensures Run(s, taskIds, Defeat()).db.tasks[id].doc.status.Failed? && 1 in Run(s, taskIds, Defeat()).handlers
    ensures Run(s, taskIds, Defeat()).handlers[1].pc == Gateway.Remembering(Gateway.Plain(Gateway.GatewayModels.CodeConflict))
  {
    hide Run, Legal, Sound, Lookup, ValidTask, Concluding, NewIds, NewPair, TimelyFor, Moved, Made, MayHandle;
    StopFits(s, id, 0);
    MadeFits(id);
    ConcludedFirst(s, taskIds, 0, 1, id, Calmly(0, "e2"), Calmly(0, "e3"), Stopping(0));
  }

  /** The whole hub, from an empty store: a request creates its task, a call and a request to stop it read it
      queued; the claim commits with stamp 1, the assignment with stamp 3, then the cancellation, stamped 2, is
      accepted, and the log no longer replays to the store. */
  lemma BrokenReplayIsReachable(developer: Chooser, taskIds: IdFactory)
    requires developer("project", "team").Some?
    ensures var id, start := taskIds("key"), Boot(developer, TEAMS);
            var e := Run(start, taskIds, Prelude(id) + Race());
            && Legal(start, taskIds, Prelude(id) + Race())
            && id in e.db.tasks && e.db.tasks[id].doc.status.Cancelled? && !AllAgree(e.db)
  {
    hide Run, Legal, Race, Prelude, AllAgree, NewIds, Racing, Boot, Made;
    var id, start := taskIds("key"), Boot(developer, TEAMS);
    PreludeRuns(developer, taskIds);
    MetCrosses(Run(start, taskIds, Prelude(id)), taskIds, id);
    RunInTwo(start, taskIds, Prelude(id), Race());
  }

  /** From the same start, without an eligible developer: the call fails the task before the cancellation
      commits, which is refused as a conflict. */
  lemma RefusedCancellationIsReachable(developer: Chooser, taskIds: IdFactory)
    requires developer("project", "team").None?
    ensures var id, start := taskIds("key"), Boot(developer, TEAMS);
            var e := Run(start, taskIds, Prelude(id) + Defeat());
            && Legal(start, taskIds, Prelude(id) + Defeat())
            && id in e.db.tasks && e.db.tasks[id].doc.status.Failed? && 1 in e.handlers
            && e.handlers[1].pc == Gateway.Remembering(Gateway.Plain(Gateway.GatewayModels.CodeConflict))
  {
    hide Run, Legal, Defeat, Prelude, NewIds, Racing, Boot, Made;
    var id, start := taskIds("key"), Boot(developer, TEAMS);
    PreludeRuns(developer, taskIds);
    MetConcludes(Run(start, taskIds, Prelude(id)), taskIds, id);
    RunInTwo(start, taskIds, Prelude(id), Defeat());
  }
}
