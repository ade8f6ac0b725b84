/** A request repeated under its key, from its dispatch to its answer (gateway/service.py,
    application/adapters.py). */
module Retries {
  import opened Wrappers
  import opened Lifecycle
  import opened GatewayModels
  import opened StoreModel
  import opened StoreRuns
  import opened StoreHistory
  import opened Gateway
  import opened Engine
  import opened OneTaskPerEvent
  import AtMostOnce
  import GatewayService
  import Workers

  // ---------------------------------------------------------------- calm runs

  /** The request is not interrupted, and its own steps find storage and clock working; everything else in
      the hub is free. */
  ghost predicate CalmFor(s: State, h: nat, a: Action) {
    && Enabled(s, a)
    && (match a
        case Handle(k, g) =>
          k == h ==> !g.storageFails && (s.handlers[h].pc.Submitting? ==> g.at <= g.createdAt <= g.queuedAt)
        case Interrupt(k, _) => k != h
        case Drop(k) => k != h
        case Crash(_, _) => false
        case _ => true)
  }

  ghost predicate CalmRunFor(s: State, taskIds: IdFactory, h: nat, actions: seq<Action>)
    decreases |actions|
  {
    actions == [] ||
    (CalmFor(s, h, actions[0]) && CalmRunFor(Step(s, taskIds, actions[0]), taskIds, h, actions[1..]))
  }

  /** How often the request itself moves. */
  function OwnSteps(actions: seq<Action>, h: nat): nat {
    if actions == [] then 0
    else (if actions[0].Handle? && actions[0].handler == h then 1 else 0) + OwnSteps(actions[1..], h)
  }

  // ---------------------------------------------------------------- what a repeated request gets

  /** The request asks for this submission, and has just been dispatched or handed to the task port. */
  predicate AsksFor(s: State, taskIds: IdFactory, h: Handler, sub: Submission) {
    match h.pc
    case Dispatching =>
      && h.request.command.Dev? && h.request.command.project in s.teams
      && SubmissionOf(h.request, taskIds(h.request.key), s.teams[h.request.command.project]) == sub
    case Submitting(x) => x == sub
    case _ => false
  }

  /** The task of the key for the request that was accepted, a conflict for any other. */
  predicate Due(response: Response, id: TaskId, same: bool) {
    if same then response.code.Accepted? && response.task.Some? && response.task.value.taskId == id
    else response == Plain(CodeConflict)
  }

  predicate Recorded(db: Db, key: RequestKey, response: Response) {
    key in db.requests && db.requests[key].response == Some(response)
  }

  /** Where a repeated request may stand. */
  predicate OnItsWay(s: State, taskIds: IdFactory, h: Handler, sub: Submission, was: Submission) {
    && SubmissionFits(taskIds, h.request.key, sub)
    && (match h.pc
        case ComparingTask(x) => x == sub
        case ComparingRoute(x, _) => x == sub
        case Enqueueing(view) => sub == was
        case Remembering(response) => Due(response, taskIds(h.request.key), sub == was)
        case Answered(response) =>
          Due(response, taskIds(h.request.key), sub == was) && Recorded(s.db, h.request.key, response)
        case _ => AsksFor(s, taskIds, h, sub))
  }

  /** The invariants of the hub that a retry rests on. */
  ghost predicate Fit(s: State, taskIds: IdFactory) {
    OneTaskPerEvent.Inv(s, taskIds) && AtMostOnce.Inv(s)
  }

  lemma AcceptedKeyIsItsOwn(s: State, taskIds: IdFactory, key: RequestKey, was: Submission)
    requires AcceptedFits(s.db, taskIds, s.accepted) && IsAccepted(s, key, was)
    ensures NoCollision(s, taskIds, key) && was.id == taskIds(key) && was.id in s.db.tasks
    ensures forall sub :: IsAccepted(s, key, sub) <==> sub == was
  {
    hide Fulfils;
    var j :| 0 <= j < |s.accepted| && s.accepted[j].key == key && s.accepted[j].sub == was;
    TaskOfFulfilled(s.db, was);
    forall i | 0 <= i < |s.accepted| && taskIds(s.accepted[i].key) == taskIds(key) ensures i == j {
      assert s.accepted[i].sub.id == s.accepted[j].sub.id;
    }
  }

  // ---------------------------------------------------------------- the request's own steps

  lemma SubmittingRetry(s: State, taskIds: IdFactory, h: nat, g: Choice, was: Submission)
    requires Fit(s, taskIds) && CalmFor(s, h, Handle(h, g)) && h in s.handlers && s.handlers[h].pc.Submitting?
    requires IsAccepted(s, s.handlers[h].request.key, was)
    ensures Gateway.Next(s.db, s.teams, taskIds, s.handlers[h].request, s.handlers[h].pc, g)
            == (s.db, ComparingTask(s.handlers[h].pc.sub))
  {
    hide Sound, AtMostOnce.Inv, AcceptedFits, HandlersFit, AnswersFit, Reservations, Lookup, Gateway.Next, Fulfils;
    AcceptedKeyIsItsOwn(s, taskIds, s.handlers[h].request.key, was);
    SubmissionOutcome(s, taskIds, h, g);
  }

  lemma ComparedTask(s: State, taskIds: IdFactory, h: nat, g: Choice)
    requires OneTaskPerEvent.Inv(s, taskIds) && h in s.handlers && s.handlers[h].pc.ComparingTask? && !g.storageFails
    ensures var n := Gateway.Next(s.db, s.teams, taskIds, s.handlers[h].request, s.handlers[h].pc, g);
            n.0 == s.db && n.1.ComparingRoute? && n.1.sub == s.handlers[h].pc.sub
  {
    hide Sound, AcceptedFits, AnswersFit, Reservations;
    assert HandlerFits(s.db, taskIds, s.handlers[h]);
  }

  /** No task is ever pending here, so the answer is the task as it stands. */
  lemma EnqueuedTask(s: State, taskIds: IdFactory, h: nat, g: Choice)
    requires Fit(s, taskIds) && h in s.handlers && s.handlers[h].pc.Enqueueing? && !g.storageFails
    ensures var key := s.handlers[h].request.key;
            var n := Gateway.Next(s.db, s.teams, taskIds, s.handlers[h].request, s.handlers[h].pc, g);
            && taskIds(key) in s.db.tasks && s.db.tasks[taskIds(key)].doc.taskId == taskIds(key)
            && n == (s.db, Remembering(AcceptedAs(s.db.tasks[taskIds(key)].doc)))
  {
    hide Sound, AcceptedFits, AnswersFit, Reservations, AtMostOnce.AllFit, AtMostOnce.OnePermitEach, AtMostOnce.RanWell;
    assert HandlerFits(s.db, taskIds, s.handlers[h]);
    hide HandlersFit;
    TaskIdIsKey(s.db, taskIds(s.handlers[h].request.key));
  }

  predicate NextOnItsWay(s: State, taskIds: IdFactory, h: nat, g: Choice, sub: Submission, was: Submission)
    requires h in s.handlers
  {
    var n := Gateway.Next(s.db, s.teams, taskIds, s.handlers[h].request, s.handlers[h].pc, g);
    OnItsWay(s.(db := n.0), taskIds, s.handlers[h].(pc := n.1), sub, was)
  }

  lemma ComparedStep(s: State, taskIds: IdFactory, h: nat, g: Choice, sub: Submission, was: Submission)
    requires Fit(s, taskIds) && CalmFor(s, h, Handle(h, g)) && h in s.handlers
    requires IsAccepted(s, s.handlers[h].request.key, was) && OnItsWay(s, taskIds, s.handlers[h], sub, was)
    requires s.handlers[h].pc.ComparingTask? || s.handlers[h].pc.ComparingRoute?
    ensures NextOnItsWay(s, taskIds, h, g, sub, was)
  {
    hide AtMostOnce.Inv, Sound, AcceptedFits, HandlersFit, AnswersFit, Reservations, Lookup, Gateway.Next, IsAccepted, NoCollision;
    if s.handlers[h].pc.ComparingTask? {
      ComparedTask(s, taskIds, h, g);
    } else {
      AcceptedKeyIsItsOwn(s, taskIds, s.handlers[h].request.key, was);
      RetryVerdict(s, taskIds, h, g);
    }
  }

  lemma LastSteps(s: State, taskIds: IdFactory, h: nat, g: Choice, sub: Submission, was: Submission)
    requires Fit(s, taskIds) && CalmFor(s, h, Handle(h, g)) && h in s.handlers
    requires OnItsWay(s, taskIds, s.handlers[h], sub, was)
    requires s.handlers[h].pc.Enqueueing? || s.handlers[h].pc.Remembering?
    ensures NextOnItsWay(s, taskIds, h, g, sub, was)
  {
    hide AtMostOnce.Inv, OneTaskPerEvent.Inv, Lookup, Gateway.Next;
    if s.handlers[h].pc.Enqueueing? {
      EnqueuedTask(s, taskIds, h, g);
    } else {
      OwnerRecordsItsAnswer(s, taskIds, h, g);
    }
  }

  lemma FirstSteps(s: State, taskIds: IdFactory, h: nat, g: Choice, sub: Submission, was: Submission)
    requires Fit(s, taskIds) && CalmFor(s, h, Handle(h, g)) && h in s.handlers
    requires IsAccepted(s, s.handlers[h].request.key, was) && OnItsWay(s, taskIds, s.handlers[h], sub, was)
    requires s.handlers[h].pc.Dispatching? || s.handlers[h].pc.Submitting? || s.handlers[h].pc.Answered?
    ensures NextOnItsWay(s, taskIds, h, g, sub, was)
  {
    hide Fit, CalmFor, IsAccepted, Submit, Move, SubmissionFits;
    if s.handlers[h].pc.Submitting? {
      SubmittingRetry(s, taskIds, h, g, was);
      hide Gateway.Next;
    }
  }

  lemma SameWay(a: State, b: State, taskIds: IdFactory, h: Handler, sub: Submission, was: Submission)
    requires a.db == b.db && a.teams == b.teams
    ensures OnItsWay(a, taskIds, h, sub, was) <==> OnItsWay(b, taskIds, h, sub, was)
  {
  }

  lemma OwnStepStaysOnItsWay(s: State, taskIds: IdFactory, h: nat, g: Choice, sub: Submission, was: Submission)
    requires Fit(s, taskIds) && CalmFor(s, h, Handle(h, g)) && h in s.handlers
    requires IsAccepted(s, s.handlers[h].request.key, was) && OnItsWay(s, taskIds, s.handlers[h], sub, was)
    ensures NextOnItsWay(s, taskIds, h, g, sub, was)
  {
    var pc := s.handlers[h].pc;
    PlacesOnTheWay(s, taskIds, s.handlers[h], sub, was);
    hide Fit, CalmFor, IsAccepted, OnItsWay, NextOnItsWay;
    if pc.ComparingTask? || pc.ComparingRoute? {
      ComparedStep(s, taskIds, h, g, sub, was);
    } else if pc.Enqueueing? || pc.Remembering? {
      LastSteps(s, taskIds, h, g, sub, was);
    } else {
      FirstSteps(s, taskIds, h, g, sub, was);
    }
  }

  /** What holds of the request after its own step holds of it in the hub. */
  lemma OnItsWayAfter(s: State, after: State, taskIds: IdFactory, h: nat, g: Choice, sub: Submission, was: Submission)
    requires h in s.handlers && NextOnItsWay(s, taskIds, h, g, sub, was)
    requires var n := Gateway.Next(s.db, s.teams, taskIds, s.handlers[h].request, s.handlers[h].pc, g);
             after.db == n.0 && after.teams == s.teams && h in after.handlers && after.handlers[h] == s.handlers[h].(pc := n.1)
    ensures OnItsWay(after, taskIds, after.handlers[h], sub, was)
  {
    hide Gateway.Next, OnItsWay;
    var n := Gateway.Next(s.db, s.teams, taskIds, s.handlers[h].request, s.handlers[h].pc, g);
    SameWay(s.(db := n.0), after, taskIds, s.handlers[h].(pc := n.1), sub, was);
  }

  lemma PlacesOnTheWay(s: State, taskIds: IdFactory, h: Handler, sub: Submission, was: Submission)
    requires OnItsWay(s, taskIds, h, sub, was)
    ensures h.pc.Dispatching? || h.pc.Submitting? || h.pc.ComparingTask? || h.pc.ComparingRoute? || h.pc.Enqueueing?
            || h.pc.Remembering? || h.pc.Answered?
    ensures h.pc.Answered? ==>
              Due(h.pc.response, taskIds(h.request.key), sub == was) && Recorded(s.db, h.request.key, h.pc.response)
  {
  }

  /** What a request's own step changes in the hub. */
  lemma HandleMoves(s: State, taskIds: IdFactory, h: nat, g: Choice)
    requires h in s.handlers
    ensures var n, after := Gateway.Next(s.db, s.teams, taskIds, s.handlers[h].request, s.handlers[h].pc, g), Step(s, taskIds, Handle(h, g));
            after.db == n.0 && after.handlers == s.handlers[h := s.handlers[h].(pc := n.1)] && after.teams == s.teams
  {
    hide Gateway.Next;
  }

  // ---------------------------------------------------------------- everybody else's steps

  /** Nobody else moves the request, changes the teams, or takes an accepted creation back. */
  lemma OthersKeep(s: State, taskIds: IdFactory, h: nat, a: Action)
    requires CalmFor(s, h, a) && h in s.handlers
    ensures var after := Step(s, taskIds, a);
            && after.teams == s.teams && s.accepted <= after.accepted && h in after.handlers
            && (!(a.Handle? && a.handler == h) ==> after.handlers[h] == s.handlers[h])
            && after.handlers[h].request == s.handlers[h].request
  {
    hide Gateway.Next, Workers.Next, Submit, ReconcileInterrupted, InOrder, Lookup, FreshIds;
  }

  lemma StillAccepted(s: State, after: State, key: RequestKey, was: Submission)
    requires IsAccepted(s, key, was) && s.accepted <= after.accepted
    ensures IsAccepted(after, key, was)
  {
    var j :| 0 <= j < |s.accepted| && s.accepted[j].key == key && s.accepted[j].sub == was;
    assert after.accepted[j] == s.accepted[j];
  }

  lemma StaysOnItsWay(s: State, after: State, taskIds: IdFactory, h: Handler, sub: Submission, was: Submission)
    requires OnItsWay(s, taskIds, h, sub, was) && after.teams == s.teams && Follows(s.db, after.db)
    ensures OnItsWay(after, taskIds, h, sub, was)
  {
    hide TasksSettle, RunsSettle;
  }

  lemma StepStaysOnItsWay(s: State, taskIds: IdFactory, h: nat, a: Action, sub: Submission, was: Submission)
    requires Fit(s, taskIds) && CalmFor(s, h, a) && h in s.handlers
    requires IsAccepted(s, s.handlers[h].request.key, was) && OnItsWay(s, taskIds, s.handlers[h], sub, was)
    ensures var after := Step(s, taskIds, a);
            && Fit(after, taskIds) && h in after.handlers
            && IsAccepted(after, after.handlers[h].request.key, was) && OnItsWay(after, taskIds, after.handlers[h], sub, was)
  {
    var after := Step(s, taskIds, a);
    OthersKeep(s, taskIds, h, a);
    FitStays(s, taskIds, a);
    if a.Handle? && a.handler == h {
      HandleMoves(s, taskIds, h, a.g);
    }
    hide Step, OnItsWay, NextOnItsWay, IsAccepted, Fit, Enabled, CalmFor, Follows, Gateway.Next;
    StillAccepted(s, after, s.handlers[h].request.key, was);
    if a.Handle? && a.handler == h {
      OwnStepStaysOnItsWay(s, taskIds, h, a.g, sub, was);
      OnItsWayAfter(s, after, taskIds, h, a.g, sub, was);
    } else {
      StaysOnItsWay(s, after, taskIds, s.handlers[h], sub, was);
    }
  }

  lemma FitStays(s: State, taskIds: IdFactory, a: Action)
    requires Fit(s, taskIds) && Enabled(s, a)
    ensures Fit(Step(s, taskIds, a), taskIds) && Follows(s.db, Step(s, taskIds, a).db)
  {
    hide Step, Enabled, Follows, Sound, AtMostOnce.TablesFit, AtMostOnce.AllFit, AcceptedFits, HandlersFit, AnswersFit, Reservations;
    OneTaskPerEvent.StepKeepsInv(s, taskIds, a);
    AtMostOnce.StepKeepsInv(s, taskIds, a);
    StepKeepsStore(s, taskIds, a);
  }

  // ---------------------------------------------------------------- every calm run

  /** A step that is not the request's own leaves its distance; an own step uses one up. */
  lemma {:induction false} CalmRunAnswers(s: State, taskIds: IdFactory, h: nat, actions: seq<Action>, sub: Submission, was: Submission)
    requires Fit(s, taskIds) && h in s.handlers && CalmRunFor(s, taskIds, h, actions)
    requires IsAccepted(s, s.handlers[h].request.key, was) && OnItsWay(s, taskIds, s.handlers[h], sub, was)
    ensures var end := Run(s, taskIds, actions);
            && h in end.handlers && end.handlers[h].request == s.handlers[h].request
            && OnItsWay(end, taskIds, end.handlers[h], sub, was)
            && (GatewayService.Remaining(s.handlers[h].pc) <= OwnSteps(actions, h) ==> end.handlers[h].pc.Answered?)
    decreases |actions|
  {
    hide Fit, Step, OnItsWay, IsAccepted, Enabled, GatewayService.Remaining;
    if actions != [] {
      var a, next := actions[0], Step(s, taskIds, actions[0]);
      OthersKeep(s, taskIds, h, a);
      StepStaysOnItsWay(s, taskIds, h, a, sub, was);
      DistanceShrinks(s, taskIds, h, a);
      CalmRunAnswers(next, taskIds, h, actions[1..], sub, was);
    } else {
      NoDistance(s.handlers[h].pc);
    }
  }

  lemma NoDistance(pc: Gateway.Pc)
    ensures GatewayService.Remaining(pc) == 0 <==> pc.Answered?
  {
  }

  lemma DistanceShrinks(s: State, taskIds: IdFactory, h: nat, a: Action)
    requires CalmFor(s, h, a) && h in s.handlers
    ensures var before, after := GatewayService.Remaining(s.handlers[h].pc), GatewayService.Remaining(Step(s, taskIds, a).handlers[h].pc);
            if a.Handle? && a.handler == h then after < before || (before == 0 && after == 0) else after == before
  {
    OthersKeep(s, taskIds, h, a);
    if a.Handle? && a.handler == h {
      var handler := s.handlers[h];
      HandleMoves(s, taskIds, h, a.g);
      hide Step, CalmFor, Enabled;
      if handler.pc.Answered? {
        AnsweredStays(s, taskIds, h, a.g);
      } else {
        GatewayService.EveryStepAdvances(s.db, s.teams, taskIds, handler.request, handler.pc, a.g);
      }
      hide Gateway.Next;
    } else {
      hide Step, CalmFor, Enabled;
    }
  }

  lemma AnsweredStays(s: State, taskIds: IdFactory, h: nat, g: Choice)
    requires h in s.handlers && s.handlers[h].pc.Answered?
    ensures Gateway.Next(s.db, s.teams, taskIds, s.handlers[h].request, s.handlers[h].pc, g) == (s.db, s.handlers[h].pc)
  {
  }

  /** In every reachable state of the hub: a dispatched request under a key whose creation was accepted
      before, by itself, by a duplicate or ahead of a crash, is answered once it has moved nine times, with
      anything else going on in between. If it asks for what was accepted, field for field and with the same
      route, the answer is accepted and names the key's task; otherwise it is a conflict. Either way the
      answer given is the one recorded under the key. */
  lemma RepeatedRequestIsAnswered(developer: Workers.Chooser, teams: map<Identifier, Identifier>, taskIds: IdFactory,
      before: seq<Action>, h: nat, sub: Submission, was: Submission, actions: seq<Action>)
    requires Legal(Boot(developer, teams), taskIds, before)
    requires var s := Run(Boot(developer, teams), taskIds, before);
             && h in s.handlers && AsksFor(s, taskIds, s.handlers[h], sub)
             && IsAccepted(s, s.handlers[h].request.key, was)
             && CalmRunFor(s, taskIds, h, actions) && OwnSteps(actions, h) >= 9
    ensures var s := Run(Boot(developer, teams), taskIds, before);
            var end, key := Run(s, taskIds, actions), s.handlers[h].request.key;
            && h in end.handlers && end.handlers[h].pc.Answered?
            && Due(end.handlers[h].pc.response, taskIds(key), sub == was)
            && Recorded(end.db, key, end.handlers[h].pc.response)
  {
    var s := Run(Boot(developer, teams), taskIds, before);
    ReachableIsFit(developer, teams, taskIds, before);
    AskingIsOnItsWay(s, taskIds, h, sub, was);
    hide Run, Legal, Fit, CalmRunFor, IsAccepted, OwnSteps, OnItsWay, AsksFor, Due, Recorded, GatewayService.Remaining;
    CalmRunAnswers(s, taskIds, h, actions, sub, was);
    var end := Run(s, taskIds, actions);
    PlacesOnTheWay(end, taskIds, end.handlers[h], sub, was);
  }

  lemma AskingIsOnItsWay(s: State, taskIds: IdFactory, h: nat, sub: Submission, was: Submission)
    requires Fit(s, taskIds) && h in s.handlers && AsksFor(s, taskIds, s.handlers[h], sub)
    ensures OnItsWay(s, taskIds, s.handlers[h], sub, was)
    ensures GatewayService.Remaining(s.handlers[h].pc) <= 9
  {
    hide AtMostOnce.Inv, Sound, AcceptedFits, AnswersFit, Reservations;
    assert HandlerFits(s.db, taskIds, s.handlers[h]);
  }

  lemma ReachableIsFit(developer: Workers.Chooser, teams: map<Identifier, Identifier>, taskIds: IdFactory, actions: seq<Action>)
    requires Legal(Boot(developer, teams), taskIds, actions)
    ensures Fit(Run(Boot(developer, teams), taskIds, actions), taskIds)
  {
    EmptyStoreIsSound();
    hide Sound, Run, Legal;
    BootIsFit(developer, teams, taskIds);
    OneTaskPerEvent.RunKeepsInv(Boot(developer, teams), taskIds, actions);
    AtMostOnce.RunKeepsInv(Boot(developer, teams), taskIds, actions);
  }
}
