/** Two overlapping calls of process_task that leave their task in planning with nobody at work
    (orchestrator/service.py). */
module StrandedTask {
  import opened Wrappers
  import opened Lifecycle
  import opened Events
  import opened StoreModel
  import opened StoreRuns
  import opened StoreHistory
  import opened Workers
  import opened Settlement
  import opened Engine
  import opened StaleClaims
  import Gateway
  import OneTaskPerEvent

  /** A calm step at a time, with a new event id; preparation, if it is reached, asks for the operator. */
  function Calmly(at: Time, eventId: EventId): Choice {
    Choice(at, eventId, "run", false, NeedsOperator, Raised, false, "")
  }

  /** Both calls read the queued task; the first claims it, is given it, and blocks it on preparation; the
      second then claims it again and has its assignment refused. */
  function TwoCalls(v: nat, w: nat, id: TaskId, at: Time, e: seq<EventId>): seq<Action>
    requires |e| == 5
  {
    [Poll(v, id)] + ([Poll(w, id)] + ([Work(v, Calmly(at, e[4]))] + ([Work(w, Calmly(at, e[4]))] +
    ([Work(v, Calmly(at, e[0]))] + ([Work(v, Calmly(at, e[1]))] + ([Work(v, Calmly(at, e[4]))] + ([Work(v, Calmly(at, e[4]))] +
    ([Work(v, Calmly(at, e[2]))] + ([Work(w, Calmly(at, e[3]))] + ([Work(w, Calmly(at, e[4]))] + []))))))))))
  }

  predicate NewIds(db: Db, ids: seq<EventId>) {
    Distinct(ids) && forall i :: 0 <= i < |ids| ==> Lookup(db.events, ids[i]).None?
  }

  // ---------------------------------------------------------------- the store along the way

  /** The store shows the task so, and these ids are still new to it. */
  ghost predicate Shows(db: Db, id: TaskId, doc: Task, ids: set<EventId>) {
    && Sound(db) && id in db.tasks && db.tasks[id].doc == doc
    && forall i :: i in ids ==> Lookup(db.events, i).None?
  }

  lemma OneEventMore(db: Db, id: TaskId, target: Status, e: Event, other: EventId)
    requires Lookup(db.events, other).None? && other != e.id
    ensures Lookup(MoveTask(db, id, target, e).db.events, other).None?
  {
    StillFresh(db.events, e, other);
    hide Lookup, LifecycleEventMatches, Lifecycle.TransitionTask;
  }

  lemma OneAssignmentMore(db: Db, id: TaskId, agent: Identifier, e: Event, other: EventId)
    requires Lookup(db.events, other).None? && other != e.id
    ensures Lookup(AssignTask(db, id, agent, e).db.events, other).None?
  {
    StillFresh(db.events, e, other);
    hide Lookup, ValidTask;
  }

  lemma MoveShows(db: Db, developer: Chooser, id: TaskId, pc: Pc, doc: Task, target: Status, c: Choice, ids: set<EventId>)
    requires Shows(db, id, doc, ids) && c.eventId in ids && !c.storageFails && TimelyFor(doc, c.at)
    requires (pc.Claim? && target.Planning?) || (pc.Settle? && target == pc.target)
    requires SameIdentity(pc.task, doc) && CanTransition(doc.status, target)
    ensures var n := Next(db, developer, id, pc, c);
            && Shows(n.0, id, Moved(doc, target, c.at), ids - {c.eventId})
            && TryMove(db, pc.task, target, c) == Outcome(n.0, Ok(Moved(doc, target, c.at)))
  {
    hide Sound, Lookup, ValidTask, MoveTask, RunsOf;
    OwnMove(db, id, pc.task, target, c);
    NextFollows(db, developer, id, pc, c);
    forall i | i in ids - {c.eventId} ensures Lookup(Next(db, developer, id, pc, c).0.events, i).None? {
      OneEventMore(db, pc.task.taskId, target, LifecycleEvent(pc.task, target, c), i);
    }
  }

  lemma AssignShows(db: Db, developer: Chooser, id: TaskId, pc: Pc, doc: Task, c: Choice, ids: set<EventId>)
    requires Shows(db, id, doc, ids) && c.eventId in ids && !c.storageFails && pc.Assign?
    requires SameIdentity(pc.task, doc) && pc.task.status == doc.status && doc.agents == []
    ensures var n, given := Next(db, developer, id, pc, c), doc.(agents := [pc.agent]);
            && Shows(n.0, id, given, ids - {c.eventId})
            && n.1 == Open(given, pc.agent)
  {
    hide Sound, Lookup, ValidTask, AssignTask, RunsOf;
    OwnAssign(db, id, pc.task, pc.agent, c);
    NextFollows(db, developer, id, pc, c);
    forall i | i in ids - {c.eventId} ensures Lookup(Next(db, developer, id, pc, c).0.events, i).None? {
      OneAssignmentMore(db, pc.task.taskId, pc.agent, AssignmentEvent(pc.task, pc.agent, c), i);
    }
  }

  // ---------------------------------------------------------------- the hub along the way

  /** The hub `s` with this store and the two workers at these places. */
  function With(s: State, db: Db, v: nat, pv: Pc, w: nat, pw: Pc, id: TaskId, at: Time): State {
    var stamp := if at < 0 then 0 else at;
    s.(db := db, workers := s.workers[v := Worker(id, pv, stamp)][w := Worker(id, pw, stamp)])
  }

  lemma Then(s: State, taskIds: IdFactory, a: Action, rest: seq<Action>)
    requires Enabled(s, a)
    ensures Run(s, taskIds, [a] + rest) == Run(Step(s, taskIds, a), taskIds, rest)
    ensures Legal(s, taskIds, [a] + rest) <==> Legal(Step(s, taskIds, a), taskIds, rest)
  {
    hide Step, Enabled;
    assert ([a] + rest)[0] == a && ([a] + rest)[1..] == rest;
  }

  lemma FirstMoves(s: State, taskIds: IdFactory, db: Db, v: nat, pv: Pc, w: nat, pw: Pc, id: TaskId, c: Choice, rest: seq<Action>)
    requires v != w && Lookup(db.events, c.eventId).None?
    ensures var n := Next(db, s.developer, id, pv, c);
            && Run(With(s, db, v, pv, w, pw, id, c.at), taskIds, [Work(v, c)] + rest)
               == Run(With(s, n.0, v, n.1, w, pw, id, c.at), taskIds, rest)
            && (Legal(With(s, db, v, pv, w, pw, id, c.at), taskIds, [Work(v, c)] + rest)
                <==> Legal(With(s, n.0, v, n.1, w, pw, id, c.at), taskIds, rest))
  {
    hide Next, Lookup, Run, Legal;
    var n := Next(db, s.developer, id, pv, c);
    var here, there := With(s, db, v, pv, w, pw, id, c.at), With(s, n.0, v, n.1, w, pw, id, c.at);
    Then(here, taskIds, Work(v, c), rest);
    assert Step(here, taskIds, Work(v, c)).workers == there.workers;
  }

  lemma SecondMoves(s: State, taskIds: IdFactory, db: Db, v: nat, pv: Pc, w: nat, pw: Pc, id: TaskId, c: Choice, rest: seq<Action>)
    requires v != w && Lookup(db.events, c.eventId).None?
    ensures var n := Next(db, s.developer, id, pw, c);
            && Run(With(s, db, v, pv, w, pw, id, c.at), taskIds, [Work(w, c)] + rest)
               == Run(With(s, n.0, v, pv, w, n.1, id, c.at), taskIds, rest)
            && (Legal(With(s, db, v, pv, w, pw, id, c.at), taskIds, [Work(w, c)] + rest)
                <==> Legal(With(s, n.0, v, pv, w, n.1, id, c.at), taskIds, rest))
  {
    hide Next, Lookup, Run, Legal;
    var n := Next(db, s.developer, id, pw, c);
    var here, there := With(s, db, v, pv, w, pw, id, c.at), With(s, n.0, v, pv, w, n.1, id, c.at);
    Then(here, taskIds, Work(w, c), rest);
    assert Step(here, taskIds, Work(w, c)).workers == there.workers;
  }

  /** The hub after both calls have been started. */
  function Polled(s: State, v: nat, w: nat, id: TaskId): State {
    s.(workers := s.workers[v := Worker(id, Start, 0)][w := Worker(id, Start, 0)])
  }

  lemma BothStart(s: State, taskIds: IdFactory, v: nat, w: nat, id: TaskId, rest: seq<Action>)
    requires v != w && v !in s.workers && w !in s.workers
    ensures Run(s, taskIds, [Poll(v, id)] + ([Poll(w, id)] + rest)) == Run(Polled(s, v, w, id), taskIds, rest)
    ensures Legal(s, taskIds, [Poll(v, id)] + ([Poll(w, id)] + rest)) <==> Legal(Polled(s, v, w, id), taskIds, rest)
  {
    hide Run, Legal;
    var first := s.(workers := s.workers[v := Worker(id, Start, 0)]);
    Then(s, taskIds, Poll(v, id), [Poll(w, id)] + rest);
    Then(first, taskIds, Poll(w, id), rest);
  }

  /** A started call that reads its queued task goes on to claim it. */
  lemma StartReads(s: State, taskIds: IdFactory, v: nat, id: TaskId, c: Choice, rest: seq<Action>)
    requires v in s.workers && s.workers[v] == Worker(id, Start, 0) && id in s.db.tasks && s.db.tasks[id].doc.status.Queued?
    requires Lookup(s.db.events, c.eventId).None? && !c.storageFails
    ensures var next := Worker(id, Claim(s.db.tasks[id].doc), if c.at < 0 then 0 else c.at);
            && Run(s, taskIds, [Work(v, c)] + rest) == Run(s.(workers := s.workers[v := next]), taskIds, rest)
            && (Legal(s, taskIds, [Work(v, c)] + rest) <==> Legal(s.(workers := s.workers[v := next]), taskIds, rest))
  {
    hide Run, Legal, Lookup;
    Then(s, taskIds, Work(v, c), rest);
  }

  /** Both calls start and read the queued task. */
  lemma BothRead(s: State, taskIds: IdFactory, v: nat, w: nat, id: TaskId, c: Choice, rest: seq<Action>)
    requires v != w && v !in s.workers && w !in s.workers && id in s.db.tasks && s.db.tasks[id].doc.status.Queued?
    requires Lookup(s.db.events, c.eventId).None? && !c.storageFails
    ensures var read := Claim(s.db.tasks[id].doc);
            var there := With(s, s.db, v, read, w, read, id, c.at);
            var actions := [Poll(v, id)] + ([Poll(w, id)] + ([Work(v, c)] + ([Work(w, c)] + rest)));
            Run(s, taskIds, actions) == Run(there, taskIds, rest) && (Legal(s, taskIds, actions) <==> Legal(there, taskIds, rest))
  {
    hide Run, Legal, Lookup, Step, Enabled, Next;
    var read := Claim(s.db.tasks[id].doc);
    var stamp := if c.at < 0 then 0 else c.at;
    var started := Polled(s, v, w, id);
    BothStart(s, taskIds, v, w, id, [Work(v, c)] + ([Work(w, c)] + rest));
    StartReads(started, taskIds, v, id, c, [Work(w, c)] + rest);
    var reading := started.(workers := started.workers[v := Worker(id, read, stamp)]);
    StartReads(reading, taskIds, w, id, c, rest);
    assert reading.workers[w := Worker(id, read, stamp)] == With(s, s.db, v, read, w, read, id, c.at).workers;
  }

  predicate NewTo(db: Db, c: Choice) {
    Lookup(db.events, c.eventId).None?
  }

  lemma ReadsBack(db: Db, developer: Chooser, id: TaskId, doc: Task, agent: Identifier, c: Choice)
    requires id in db.tasks && db.tasks[id].doc == doc && doc.taskId == id && !c.storageFails && c.preparation.NeedsOperator?
    ensures Next(db, developer, id, Open(doc, agent), c) == (db, SettleRead(doc, Blocked))
    ensures Next(db, developer, id, SettleRead(doc, Blocked), c) == (db, Settle(doc, Blocked))
  {
  }

  lemma ClaimShows(db: Db, developer: Chooser, id: TaskId, seen: Task, doc: Task, agent: Identifier, c: Choice, ids: set<EventId>)
    requires Shows(db, id, doc, ids) && c.eventId in ids && !c.storageFails && TimelyFor(doc, c.at)
    requires SameIdentity(seen, doc) && CanTransition(doc.status, Planning) && developer(doc.project, doc.team) == Some(agent)
    ensures var n, planned := Next(db, developer, id, Claim(seen), c), Moved(doc, Planning, c.at);
            Shows(n.0, id, planned, ids - {c.eventId}) && n.1 == Assign(planned, agent)
  {
    hide Shows, TryMove;
    MoveShows(db, developer, id, Claim(seen), doc, Planning, c, ids);
  }

  lemma SettleShows(db: Db, developer: Chooser, id: TaskId, doc: Task, target: Status, c: Choice, ids: set<EventId>)
    requires Shows(db, id, doc, ids) && c.eventId in ids && !c.storageFails && TimelyFor(doc, c.at)
    requires CanTransition(doc.status, target)
    ensures var n := Next(db, developer, id, Settle(doc, target), c);
            Shows(n.0, id, Moved(doc, target, c.at), ids - {c.eventId}) && n.1 == Returned(target)
  {
    hide Shows, TryMove;
    MoveShows(db, developer, id, Settle(doc, target), doc, target, c, ids);
  }

  /** What the first call does to the store, step by step: the task ends blocked and lists the developer. */
  lemma FirstCallStore(db: Db, developer: Chooser, id: TaskId, doc: Task, agent: Identifier, at: Time, e: seq<EventId>)
    returns (db1: Db, db2: Db, db3: Db)
    requires |e| == 5 && Distinct(e) && Shows(db, id, doc, set x | x in e)
    requires doc.status.Queued? && doc.agents == [] && TimelyFor(doc, at)
    requires developer(doc.project, doc.team) == Some(agent)
    ensures var planned := Moved(doc, Planning, at);
            var given := planned.(agents := [agent]);
            && Next(db, developer, id, Claim(doc), Calmly(at, e[0])) == (db1, Assign(planned, agent)) && NewTo(db, Calmly(at, e[0]))
            && Next(db1, developer, id, Assign(planned, agent), Calmly(at, e[1])) == (db2, Open(given, agent)) && NewTo(db1, Calmly(at, e[1]))
            && Next(db2, developer, id, Open(given, agent), Calmly(at, e[4])) == (db2, SettleRead(given, Blocked)) && NewTo(db2, Calmly(at, e[4]))
            && Next(db2, developer, id, SettleRead(given, Blocked), Calmly(at, e[4])) == (db2, Settle(given, Blocked))
            && Next(db2, developer, id, Settle(given, Blocked), Calmly(at, e[2])) == (db3, Returned(Blocked)) && NewTo(db2, Calmly(at, e[2]))
            && Shows(db3, id, Moved(given, Blocked, at), {e[3], e[4]})
  {
    hide Sound, Lookup, ValidTask, Next;
    var ids := set x | x in e;
    assert forall i :: 0 <= i < 5 ==> e[i] in ids;
    var planned := Moved(doc, Planning, at);
    var given := planned.(agents := [agent]);
    var c0, c1, c2 := Calmly(at, e[0]), Calmly(at, e[1]), Calmly(at, e[2]);
    ClaimShows(db, developer, id, doc, doc, agent, c0, ids);
    db1 := Next(db, developer, id, Claim(doc), c0).0;
    AssignShows(db1, developer, id, Assign(planned, agent), planned, c1, ids - {e[0]});
    db2 := Next(db1, developer, id, Assign(planned, agent), c1).0;
    TaskIdIsKey(db2, id);
    ReadsBack(db2, developer, id, given, agent, Calmly(at, e[4]));
    SettleShows(db2, developer, id, given, Blocked, c2, ids - {e[0]} - {e[1]});
    db3 := Next(db2, developer, id, Settle(given, Blocked), c2).0;
  }

  /** The second call claims the blocked task and has its assignment refused. */
  lemma SecondCallStore(db: Db, developer: Chooser, id: TaskId, seen: Task, doc: Task, agent: Identifier, first: Choice, second: Choice)
    returns (end: Db)
    requires Shows(db, id, doc, {first.eventId, second.eventId}) && first.eventId != second.eventId
    requires doc.status.Blocked? && agent in doc.agents && TimelyFor(doc, first.at) && SameIdentity(seen, doc)
    requires developer(doc.project, doc.team) == Some(agent) && !first.storageFails && !second.storageFails
    ensures var planned := Moved(doc, Planning, first.at);
            && Next(db, developer, id, Claim(seen), first) == (end, Assign(planned, agent)) && NewTo(db, first)
            && Next(end, developer, id, Assign(planned, agent), second) == (end, Failing) && NewTo(end, second)
            && Shows(end, id, planned, {second.eventId})
  {
    hide Sound, Lookup, ValidTask, TryMove, TryAssign;
    var planned := Moved(doc, Planning, first.at);
    ClaimShows(db, developer, id, seen, doc, agent, first, {first.eventId, second.eventId});
    end := Next(db, developer, id, Claim(seen), first).0;
    assert second.eventId in {first.eventId, second.eventId} - {first.eventId};
    AssignmentStrands(end, developer, Worker(id, Assign(planned, agent), first.at), second);
  }

  lemma TwoCallsRun(s: State, taskIds: IdFactory, v: nat, w: nat, id: TaskId, at: Time, e: seq<EventId>,
      doc: Task, agent: Identifier, db1: Db, db2: Db, db3: Db, db4: Db)
    requires v != w && v !in s.workers && w !in s.workers && |e| == 5
    requires id in s.db.tasks && s.db.tasks[id].doc == doc && doc.status.Queued? && NewTo(s.db, Calmly(at, e[4]))
    requires var planned := Moved(doc, Planning, at);
             var given := planned.(agents := [agent]);
             var again := Moved(Moved(given, Blocked, at), Planning, at);
             && Next(s.db, s.developer, id, Claim(doc), Calmly(at, e[0])) == (db1, Assign(planned, agent)) && NewTo(s.db, Calmly(at, e[0]))
             && Next(db1, s.developer, id, Assign(planned, agent), Calmly(at, e[1])) == (db2, Open(given, agent)) && NewTo(db1, Calmly(at, e[1]))
             && Next(db2, s.developer, id, Open(given, agent), Calmly(at, e[4])) == (db2, SettleRead(given, Blocked)) && NewTo(db2, Calmly(at, e[4]))
             && Next(db2, s.developer, id, SettleRead(given, Blocked), Calmly(at, e[4])) == (db2, Settle(given, Blocked))
             && Next(db2, s.developer, id, Settle(given, Blocked), Calmly(at, e[2])) == (db3, Returned(Blocked)) && NewTo(db2, Calmly(at, e[2]))
             && Next(db3, s.developer, id, Claim(doc), Calmly(at, e[3])) == (db4, Assign(again, agent)) && NewTo(db3, Calmly(at, e[3]))
             && Next(db4, s.developer, id, Assign(again, agent), Calmly(at, e[4])) == (db4, Failing) && NewTo(db4, Calmly(at, e[4]))
    ensures Legal(s, taskIds, TwoCalls(v, w, id, at, e))
    ensures Run(s, taskIds, TwoCalls(v, w, id, at, e)) == With(s, db4, v, Returned(Blocked), w, Failing, id, at)
  {
    hide Next, Lookup, With, Moved, Run, Legal;
    var planned := Moved(doc, Planning, at);
    var given := planned.(agents := [agent]);
    var again := Moved(Moved(given, Blocked, at), Planning, at);
    var read := Claim(doc);
    var c0, c1, c2, c3, c4 := Calmly(at, e[0]), Calmly(at, e[1]), Calmly(at, e[2]), Calmly(at, e[3]), Calmly(at, e[4]);
    var a6: seq<Action> := [Work(w, c4)] + [];
    var a5 := [Work(w, c3)] + a6;
    var a4 := [Work(v, c2)] + a5;
    var a3 := [Work(v, c4)] + a4;
    var a2 := [Work(v, c4)] + a3;
    var a1 := [Work(v, c1)] + a2;
    BothRead(s, taskIds, v, w, id, c4, [Work(v, c0)] + a1);
    FirstMoves(s, taskIds, s.db, v, read, w, read, id, c0, a1);
    FirstMoves(s, taskIds, db1, v, Assign(planned, agent), w, read, id, c1, a2);
    FirstMoves(s, taskIds, db2, v, Open(given, agent), w, read, id, c4, a3);
    FirstMoves(s, taskIds, db2, v, SettleRead(given, Blocked), w, read, id, c4, a4);
    FirstMoves(s, taskIds, db2, v, Settle(given, Blocked), w, read, id, c2, a5);
    SecondMoves(s, taskIds, db3, v, Returned(Blocked), w, read, id, c3, a6);
    SecondMoves(s, taskIds, db4, v, Returned(Blocked), w, Assign(again, agent), id, c4, []);
    NothingMore(With(s, db4, v, Returned(Blocked), w, Failing, id, at), taskIds);
  }

  lemma NothingMore(s: State, taskIds: IdFactory)
    ensures Run(s, taskIds, []) == s && Legal(s, taskIds, [])
  {
  }

  /** In any hub state with a queued task and two workers to spare, two overlapping calls can strand it: the
      run is allowed, and ends with the task in planning, the first call done, the second failed. */
  lemma TwoCallsStrand(s: State, taskIds: IdFactory, v: nat, w: nat, id: TaskId, at: Time, e: seq<EventId>)
    requires Sound(s.db) && id in s.db.tasks && s.db.tasks[id].doc.status.Queued? && s.db.tasks[id].doc.agents == []
    requires TimelyFor(s.db.tasks[id].doc, at) && s.developer(s.db.tasks[id].doc.project, s.db.tasks[id].doc.team).Some?
    requires v != w && v !in s.workers && w !in s.workers && |e| == 5 && NewIds(s.db, e)
    ensures Legal(s, taskIds, TwoCalls(v, w, id, at, e))
    ensures var end := Run(s, taskIds, TwoCalls(v, w, id, at, e));
            && v in end.workers && end.workers[v].pc == Returned(Blocked)
            && w in end.workers && LeftInPlanning(end.db, end.workers[w]) && end.workers[w].id == id
  {
    hide Sound, Lookup, Next, Run, Legal, ValidTask;
    var doc := s.db.tasks[id].doc;
    var agent := s.developer(doc.project, doc.team).value;
    forall x | x in e ensures Lookup(s.db.events, x).None? {
      var i :| 0 <= i < |e| && e[i] == x;
    }
    var db1, db2, db3 := FirstCallStore(s.db, s.developer, id, doc, agent, at, e);
    var blocked := Moved(Moved(doc, Planning, at).(agents := [agent]), Blocked, at);
    var db4 := SecondCallStore(db3, s.developer, id, doc, blocked, agent, Calmly(at, e[3]), Calmly(at, e[4]));
    TwoCallsRun(s, taskIds, v, w, id, at, e, doc, agent, db1, db2, db3, db4);
  }

  // ---------------------------------------------------------------- from an empty store

  const REQUEST := Gateway.Request("key", "slack", Gateway.Dev("project", "work", None))
  const TEAMS := map["project" := "team"]
  const ADMITTED := Gateway.Choice(0, 0, 0, "created", "queued", "", false, Gateway.Admitted,
                                   Gateway.Plain(Gateway.GatewayModels.CodeOk))

  /** One request arrives and is handled until its task is created. */
  const CREATION: seq<Action> :=
    [Arrive(0, REQUEST)] + ([Handle(0, ADMITTED)] + ([Handle(0, ADMITTED)] + ([Handle(0, ADMITTED)] +
    ([Handle(0, ADMITTED)] + ([Handle(0, ADMITTED)] + [])))))

  const NEW_IDS := ["e0", "e1", "e2", "e3", "e4"]

  function Asked(id: TaskId): Gateway.Submission {
    Gateway.Submission(id, "slack", "project", "team", "work", None)
  }

  /** The task a submission makes. */
  lemma SubmittedTask(db: Db, sub: Gateway.Submission, g: Gateway.Choice)
    requires Sound(db) && Gateway.Submit(db, sub, g).result.Ok?
    ensures var o := Gateway.Submit(db, sub, g);
            && sub.id in o.db.tasks && o.db.tasks[sub.id].doc == Moved(Gateway.PendingTask(sub, g), Queued, g.queuedAt)
            && o.result.value == o.db.tasks[sub.id].doc
            && o.db.events == db.events + [Gateway.CreatedEvent(sub, g)] + [Gateway.QueuedEvent(sub, g)]
  {
    hide Sound, Lookup, AppendLocked, LifecycleEventMatches, ValidTask, Lifecycle.TransitionTask;
    var task, created, queued := Gateway.PendingTask(sub, g), Gateway.CreatedEvent(sub, g), Gateway.QueuedEvent(sub, g);
    PendingIsValid(sub, g);
    OneTaskPerEvent.SubmitAdds(db, sub, g);
    CreateQueuedShape(db, task, created, queued, sub.route);
    QueuedIsMoved(task, queued.timestamp);
  }

  lemma QueuedIsMoved(task: Task, at: Time)
    ensures Lifecycle.TransitionTask(task, Queued, at).Ok? ==>
              Lifecycle.TransitionTask(task, Queued, at).value == Moved(task, Queued, at)
  {
  }

  /** The hub with nothing but this request in flight. */
  function Serving(developer: Chooser, db: Db, pc: Gateway.Pc): State {
    State(db, map[], map[0 := Gateway.Handler(REQUEST, pc)], {}, developer, TEAMS, [])
  }

  lemma HandleMoves(developer: Chooser, taskIds: IdFactory, db: Db, pc: Gateway.Pc, rest: seq<Action>)
    requires FreshPair(db, ADMITTED) && !pc.Submitting?
    ensures var n := Gateway.Next(db, TEAMS, taskIds, REQUEST, pc, ADMITTED);
            var here, there := Serving(developer, db, pc), Serving(developer, n.0, n.1);
            && Run(here, taskIds, [Handle(0, ADMITTED)] + rest) == Run(there, taskIds, rest)
            && (Legal(here, taskIds, [Handle(0, ADMITTED)] + rest) <==> Legal(there, taskIds, rest))
  {
    hide Run, Legal, Lookup, Gateway.Next;
    var here := Serving(developer, db, pc);
    Then(here, taskIds, Handle(0, ADMITTED), rest);
    var n := Gateway.Next(db, TEAMS, taskIds, REQUEST, pc, ADMITTED);
    assert here.handlers[0 := Gateway.Handler(REQUEST, n.1)] == Serving(developer, n.0, n.1).handlers;
  }

  function Reserved(): Db {
    ReserveRequest(EMPTY_DB, "key", 0).db
  }

  /** What the request does up to its submission. */
  lemma UpToSubmission(taskIds: IdFactory)
    ensures Gateway.Next(EMPTY_DB, TEAMS, taskIds, REQUEST, Gateway.Arriving, ADMITTED) == (EMPTY_DB, Gateway.Checking)
    ensures Gateway.Next(EMPTY_DB, TEAMS, taskIds, REQUEST, Gateway.Checking, ADMITTED) == (EMPTY_DB, Gateway.Reserving)
    ensures Gateway.Next(EMPTY_DB, TEAMS, taskIds, REQUEST, Gateway.Reserving, ADMITTED) == (Reserved(), Gateway.Dispatching)
    ensures Gateway.Next(Reserved(), TEAMS, taskIds, REQUEST, Gateway.Dispatching, ADMITTED)
            == (Reserved(), Gateway.Submitting(Asked(taskIds("key"))))
    ensures FreshPair(EMPTY_DB, ADMITTED) && FreshPair(Reserved(), ADMITTED) && Reserved().events == []
  {
    hide Gateway.Submit, Gateway.Move;
  }

  lemma ReservedIsSound()
    ensures Sound(Reserved()) && Reserved().tasks == map[]
  {
    EmptyStoreIsSound();
    StepSound(EMPTY_DB, OpReserveRequest("key", 0));
    hide Sound;
  }

  lemma SubmissionRuns(developer: Chooser, taskIds: IdFactory)
    ensures var id := taskIds("key");
            var here := Serving(developer, Reserved(), Gateway.Submitting(Asked(id)));
            var end := Run(here, taskIds, [Handle(0, ADMITTED)] + []);
            && Legal(here, taskIds, [Handle(0, ADMITTED)] + [])
            && end.db == Gateway.Submit(Reserved(), Asked(id), ADMITTED).db
            && end.workers == map[] && end.developer == developer && end.handlers.Keys == {0}
  {
    UpToSubmission(taskIds);
    hide Run, Legal, Lookup, Gateway.Submit, Reserved;
    var here := Serving(developer, Reserved(), Gateway.Submitting(Asked(taskIds("key"))));
    Then(here, taskIds, Handle(0, ADMITTED), []);
    NothingMore(Step(here, taskIds, Handle(0, ADMITTED)), taskIds);
  }

  lemma ArrivalRuns(developer: Chooser, taskIds: IdFactory, rest: seq<Action>)
    ensures var s, there := Boot(developer, TEAMS), Serving(developer, EMPTY_DB, Gateway.Arriving);
            && Run(s, taskIds, [Arrive(0, REQUEST)] + rest) == Run(there, taskIds, rest)
            && (Legal(s, taskIds, [Arrive(0, REQUEST)] + rest) <==> Legal(there, taskIds, rest))
  {
    hide Run, Legal;
    Then(Boot(developer, TEAMS), taskIds, Arrive(0, REQUEST), rest);
    assert map[][0 := Gateway.Handler(REQUEST, Gateway.Arriving)] == Serving(developer, EMPTY_DB, Gateway.Arriving).handlers;
  }

  lemma CreationRuns(developer: Chooser, taskIds: IdFactory)
    ensures var id := taskIds("key");
            var end := Run(Boot(developer, TEAMS), taskIds, CREATION);
            && Legal(Boot(developer, TEAMS), taskIds, CREATION)
            && end.db == Gateway.Submit(Reserved(), Asked(id), ADMITTED).db
            && end.workers == map[] && end.developer == developer && end.handlers.Keys == {0}
  {
    UpToSubmission(taskIds);
    hide Run, Legal, Gateway.Next, Gateway.Submit, Reserved, FreshPair, Serving;
    var a4: seq<Action> := [Handle(0, ADMITTED)] + [];
    var a3 := [Handle(0, ADMITTED)] + a4;
    var a2 := [Handle(0, ADMITTED)] + a3;
    var a1 := [Handle(0, ADMITTED)] + a2;
    ArrivalRuns(developer, taskIds, [Handle(0, ADMITTED)] + a1);
    HandleMoves(developer, taskIds, EMPTY_DB, Gateway.Arriving, a1);
    HandleMoves(developer, taskIds, EMPTY_DB, Gateway.Checking, a2);
    HandleMoves(developer, taskIds, EMPTY_DB, Gateway.Reserving, a3);
    HandleMoves(developer, taskIds, Reserved(), Gateway.Dispatching, a4);
    SubmissionRuns(developer, taskIds);
  }

  lemma CreatedTask(id: TaskId)
    ensures var o := Gateway.Submit(Reserved(), Asked(id), ADMITTED);
            && Sound(o.db) && id in o.db.tasks
            && o.db.tasks[id].doc == Moved(Gateway.PendingTask(Asked(id), ADMITTED), Queued, 0)
            && NewIds(o.db, NEW_IDS)
  {
    ReservedIsSound();
    UpToSubmission(_ => id);
    hide Sound, Reserved, Gateway.Submit, Gateway.Next;
    OneTaskPerEvent.SubmitVerdict(Reserved(), Asked(id), ADMITTED);
    SubmittedTask(Reserved(), Asked(id), ADMITTED);
    OneTaskPerEvent.SubmitFollows(Reserved(), Asked(id), ADMITTED);
    var created, queued := Gateway.CreatedEvent(Asked(id), ADMITTED), Gateway.QueuedEvent(Asked(id), ADMITTED);
    hide Follows;
    forall i | 0 <= i < 5 ensures Lookup([] + [created] + [queued], NEW_IDS[i]).None? {
      StillFresh([], created, NEW_IDS[i]);
      StillFresh([] + [created], queued, NEW_IDS[i]);
    }
  }

  lemma {:induction false} RunInTwo(s: State, taskIds: IdFactory, a: seq<Action>, b: seq<Action>)
    ensures Run(s, taskIds, a + b) == Run(Run(s, taskIds, a), taskIds, b)
    ensures Legal(s, taskIds, a + b) <==> Legal(s, taskIds, a) && Legal(Run(s, taskIds, a), taskIds, b)
    decreases |a|
  {
    hide Step, Enabled;
    if a == [] {
      assert a + b == b;
    } else {
      assert (a + b)[0] == a[0] && (a + b)[1..] == a[1..] + b;
      RunInTwo(Step(s, taskIds, a[0]), taskIds, a[1..], b);
    }
  }

  /** The whole hub, from an empty store: a request creates its task, two calls read it queued, one blocks
      it, the other claims it again and fails; the task is left in planning with nobody at work. */
  lemma StrandingIsReachable(taskIds: IdFactory)
    ensures var developer: Chooser := (project, team) => Some("developer");
            var actions := CREATION + TwoCalls(0, 1, taskIds("key"), 0, NEW_IDS);
            var end := Run(Boot(developer, TEAMS), taskIds, actions);
            && Legal(Boot(developer, TEAMS), taskIds, actions)
            && 0 in end.workers && end.workers[0].pc == Returned(Blocked)
            && 1 in end.workers && end.workers[1].id == taskIds("key") && LeftInPlanning(end.db, end.workers[1])
  {
    var developer: Chooser := (project, team) => Some("developer");
    var start, id := Boot(developer, TEAMS), taskIds("key");
    CreationRuns(developer, taskIds);
    CreatedTask(id);
    var made := Run(start, taskIds, CREATION);
    hide Run, Legal, Sound, Lookup, ValidTask, Gateway.Submit, TwoCalls, CREATION, LeftInPlanning, NewIds;
    TwoCallsStrand(made, taskIds, 0, 1, id, 0, NEW_IDS);
    RunInTwo(start, taskIds, CREATION, TwoCalls(0, 1, id, 0, NEW_IDS));
  }
}
