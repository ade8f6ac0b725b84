/** The idempotent task projection rebuilt from events alone (observability/projections.py). */
module Projections {
  import opened Wrappers
  import opened Lifecycle
  import opened Events

  datatype Projection = Projection(
    taskId: TaskId, project: Identifier, team: Identifier, status: Status, agents: seq<Identifier>,
    createdAt: Time, updatedAt: Time, lastEventId: EventId, lastEventType: EventType, eventCount: nat)

  datatype State = State(current: Option<Projection>, seen: map<EventId, Event>)

  const EMPTY := State(None, map[])

  function FixedStatus(t: EventType): Option<Status> {
    match t
    case TaskCreated => Some(Pending)
    case TaskQueued => Some(Queued)
    case TaskBlocked => Some(Blocked)
    case TaskCompleted => Some(Completed)
    case TaskFailed => Some(Failed)
    case TaskCancelled => Some(Cancelled)
    case ReviewStarted => Some(Review)
    case QaStarted => Some(Qa)
    case _ => None
  }

  function StatusFor(e: Event): Result<Option<Status>> {
    if e.etype.TaskStarted? then
      if e.status == Some(Planning) || e.status == Some(Running) then Ok(e.status) else Err(Invalid)
    else
      var fixed := FixedStatus(e.etype);
      if fixed.Some? && e.status != fixed then Err(Invalid) else Ok(fixed)
  }

  function Create(e: Event): Result<Projection> {
    if e.etype != TaskCreated then Err(Invalid)
    else if e.taskId.None? || e.project.None? || e.team.None? then Err(Invalid)
    else if e.status != Some(Pending) then Err(Invalid)
    else Ok(Projection(e.taskId.value, e.project.value, e.team.value, Pending, [],
                       e.timestamp, e.timestamp, e.id, e.etype, 1))
  }

  function Apply(p: Projection, e: Event): Result<Projection> {
    if e.taskId != Some(p.taskId) then Err(Invalid)
    else if e.project.Some? && e.project.value != p.project then Err(Invalid)
    else if e.team.Some? && e.team.value != p.team then Err(Invalid)
    else if e.timestamp < p.updatedAt then Err(Invalid)
    else if e.etype.TaskCreated? then Err(Invalid)
    else match StatusFor(e)
      case Err(x) => Err(x)
      case Ok(s) =>
        if s.Some? && !CanTransition(p.status, s.value) then Err(Invalid)
        else if e.etype.AgentAssigned? && e.agent.None? then Err(Invalid)
        else
          var agents := if e.etype.AgentAssigned? && e.agent.value !in p.agents then p.agents + [e.agent.value] else p.agents;
          Ok(p.(status := if s.Some? then s.value else p.status, agents := agents,
                updatedAt := e.timestamp, lastEventId := e.id, lastEventType := e.etype,
                eventCount := p.eventCount + 1))
  }

  function Consume(st: State, e: Event): Result<State> {
    if e.id in st.seen then
      if st.seen[e.id] != e then Err(Invalid)
      else if st.current.None? then Err(Invalid)
      else Ok(st)
    else
      match (if st.current.None? then Create(e) else Apply(st.current.value, e))
      case Err(x) => Err(x)
      case Ok(p) => Ok(State(Some(p), st.seen[e.id := e]))
  }

  function Fold(events: seq<Event>): Result<State> {
    if events == [] then Ok(EMPTY)
    else match Fold(Init(events))
      case Err(x) => Err(x)
      case Ok(st) => Consume(st, Last(events))
  }

  function Replay(events: seq<Event>): Result<Projection> {
    match Fold(events)
    case Err(x) => Err(x)
    case Ok(st) => if st.current.None? then Err(Invalid) else Ok(st.current.value)
  }

  /** Stateful consumer; one instance per replay. */
  class TaskProjector {
    var projection: Option<Projection>
    var seenEvents: map<EventId, Event>

    function Contents(): State
      reads this
    {
      State(projection, seenEvents)
    }

    constructor ()
      ensures Contents() == EMPTY
    {
      projection, seenEvents := None, map[];
    }

    method Receive(event: Event) returns (r: Result<Projection>)
      modifies this
      ensures var next := Consume(old(Contents()), event);
              if next.Ok? then Contents() == next.value && r == Ok(projection.value) && projection.Some?
              else Contents() == old(Contents()) && r == Err(next.error)
    {
      if event.id in seenEvents {
        if seenEvents[event.id] != event { return Err(Invalid); }
        if projection.None? { return Err(Invalid); }
        return Ok(projection.value);
      }
      var p := if projection.None? then Create(event) else Apply(projection.value, event);
      if p.Err? { return Err(p.error); }
      seenEvents := seenEvents[event.id := event];
      projection := Some(p.value);
      return p;
    }
  }

  method ReplayTask(events: seq<Event>) returns (r: Result<Projection>)
    ensures r == Replay(events)
  {
    var projector := new TaskProjector();
    for i := 0 to |events|
      invariant Fold(events[..i]) == Ok(projector.Contents())
      invariant fresh(projector)
    {
      assert Init(events[..i + 1]) == events[..i];
      var step := projector.Receive(events[i]);
      if step.Err? {
        FailureIsFinal(events[..i + 1], events[i + 1..]);
        assert events[..i + 1] + events[i + 1..] == events;
        return Err(step.error);
      }
    }
    assert events[..|events|] == events;
    return if projector.projection.None? then Err(Invalid) else Ok(projector.projection.value);
  }

  /** A stream that has failed stays failed, with the same error. */
  lemma {:induction false} FailureIsFinal(a: seq<Event>, b: seq<Event>)
    requires Fold(a).Err?
    ensures Fold(a + b) == Fold(a)
    decreases |b|
  {
    hide Consume;
    if b == [] {
      assert a + b == a;
    } else {
      assert Init(a + b) == a + Init(b);
      FailureIsFinal(a, Init(b));
    }
  }

  /** The seen-events table is exactly the events consumed. */
  lemma {:induction false} SeenIsLog(events: seq<Event>)
    requires Fold(events).Ok?
    ensures var st := Fold(events).value;
            && (forall i :: 0 <= i < |events| ==> events[i].id in st.seen && st.seen[events[i].id] == events[i])
            && (forall x :: x in st.seen ==> exists i :: 0 <= i < |events| && events[i].id == x)
            && (st.current.Some? <==> events != [])
  {
    if events != [] {
      SeenIsLog(Init(events));
      var st, before := Fold(events).value, Fold(Init(events)).value;
      forall i | 0 <= i < |events| ensures events[i].id in st.seen && st.seen[events[i].id] == events[i] {
        if i < |events| - 1 { assert events[i] == Init(events)[i]; }
      }
      forall x | x in st.seen ensures exists i :: 0 <= i < |events| && events[i].id == x {
        if x in before.seen {
          var i :| 0 <= i < |Init(events)| && Init(events)[i].id == x;
          assert events[i].id == x;
        } else {
          assert events[|events| - 1].id == x;
        }
      }
    }
  }

  lemma {:induction false} SamePrefixSameFold(a: seq<Event>, b: seq<Event>, c: seq<Event>)
    requires Fold(a) == Fold(b)
    ensures Fold(a + c) == Fold(b + c)
    decreases |c|
  {
    hide Consume;
    if c == [] {
      assert a + c == a && b + c == b;
    } else {
      assert Init(a + c) == a + Init(c) && Init(b + c) == b + Init(c);
      SamePrefixSameFold(a, b, Init(c));
    }
  }

  /** At-least-once delivery is harmless: delivering any event again, at any later point of any stream,
      changes neither the projection nor the error. */
  lemma RedeliveryIsHarmless(events: seq<Event>, i: nat, k: nat)
    requires i < k <= |events|
    ensures Replay(events[..k] + [events[i]] + events[k..]) == Replay(events)
  {
    var a := events[..k];
    var again := a + [events[i]];
    if Fold(a).Err? {
      FailureIsFinal(a, [events[i]]);
    } else {
      SeenIsLog(a);
      assert a[i] == events[i];
      assert Init(again) == a && Last(again) == events[i];
    }
    SamePrefixSameFold(again, a, events[k..]);
    assert a + events[k..] == events;
  }

  /** What the projector computes on a well-formed log with distinct event ids. */
  predicate Tells(p: Projection, o: Owner, log: seq<Event>)
    requires log != []
  {
    && p.taskId == o.taskId && p.project == o.project && p.team == o.team
    && p.status == LogStatus(log) && p.agents == Assigned(log)
    && p.createdAt == log[0].timestamp && p.updatedAt == Last(log).timestamp
    && p.lastEventId == Last(log).id && p.lastEventType == Last(log).etype
    && p.eventCount == |log|
  }

  /** Replaying a well-formed log succeeds exactly when time never goes back and no observation names a
      foreign project or team; and then it tells what the log says. */
  lemma {:induction false} ReplayExact(o: Owner, log: seq<Event>)
    requires Story(o, log) && UniqueIds(log)
    ensures Replay(log).Ok? <==> Monotone(log) && AllInContext(o, log)
    ensures Fold(log).Ok? <==> Replay(log).Ok?
    ensures Replay(log).Ok? ==> Tells(Replay(log).value, o, log)
  {
    if |log| == 1 {
      assert Fold(Init(log)) == Ok(EMPTY);
      assert AllInContext(o, Init(log)) && Assigned(Init(log)) == [] && ChangesStatus(Last(log));
    } else {
      var before := Init(log);
      ReplayExact(o, before);
      if Fold(before).Ok? {
        SeenIsLog(before);
        var st := Fold(before).value;
        assert Last(log).id !in st.seen;
        NextStep(o, before, Last(log), st.current.value);
      }
    }
  }

  lemma NextStep(o: Owner, log: seq<Event>, e: Event, p: Projection)
    requires log != [] && Tells(p, o, log) && Continues(o, log, e)
    ensures Apply(p, e).Ok? <==> Last(log).timestamp <= e.timestamp && InContext(o, e)
    ensures Apply(p, e).Ok? ==> Tells(Apply(p, e).value, o, log + [e])
  {
    SnocParts(log, e);
  }
}
