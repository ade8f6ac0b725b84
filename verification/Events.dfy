/** Observable event envelopes (domain/events.py) and the story a task's own log tells. */
module Events {
  import opened Wrappers
  import opened Lifecycle

  type EventId = string

  /** The ten types that record a change of a task, and the remaining types, which neither the store
      nor the projector interprets. */
  datatype EventType =
    | TaskCreated | TaskQueued | TaskStarted | TaskBlocked | TaskCompleted | TaskFailed | TaskCancelled
    | ReviewStarted | QaStarted | AgentAssigned
    | Observation(name: string)

  /** `status` is the payload's status field when it names a task status; `body` is everything else in
      the envelope (level, message, correlation, causation, the rest of the payload). */
  datatype Event = Event(
    id: EventId, etype: EventType, timestamp: Time,
    taskId: Option<TaskId>, project: Option<Identifier>, team: Option<Identifier>,
    agent: Option<Identifier>, status: Option<Status>, body: string)

  function EventFor(s: Status): EventType {
    match s
    case Pending => TaskCreated
    case Queued => TaskQueued
    case Planning => TaskStarted
    case Running => TaskStarted
    case Review => ReviewStarted
    case Qa => QaStarted
    case Blocked => TaskBlocked
    case Completed => TaskCompleted
    case Failed => TaskFailed
    case Cancelled => TaskCancelled
  }

  /** Types that only an atomic task operation may append. */
  predicate IsAtomic(t: EventType) {
    !t.Observation?
  }

  predicate ChangesStatus(e: Event) {
    IsAtomic(e.etype) && !e.etype.AgentAssigned? && e.status.Some?
  }

  predicate UniqueIds(events: seq<Event>) {
    forall i, j :: 0 <= i < j < |events| ==> events[i].id != events[j].id
  }

  function Init<T>(s: seq<T>): seq<T>
    requires s != []
  {
    s[..|s| - 1]
  }

  function Last<T>(s: seq<T>): T
    requires s != []
  {
    s[|s| - 1]
  }

  lemma SnocParts<T>(s: seq<T>, x: T)
    ensures Init(s + [x]) == s && Last(s + [x]) == x
  {
  }

  /** The stored events of one task, in append order. */
  function LogOf(events: seq<Event>, id: TaskId): (log: seq<Event>)
    ensures |log| <= |events|
    ensures forall e :: e in log ==> e in events && e.taskId == Some(id)
  {
    if events == [] then []
    else if Last(events).taskId == Some(id) then LogOf(Init(events), id) + [Last(events)]
    else LogOf(Init(events), id)
  }

  lemma LogOfAppend(events: seq<Event>, e: Event, id: TaskId)
    ensures LogOf(events + [e], id) == if e.taskId == Some(id) then LogOf(events, id) + [e] else LogOf(events, id)
  {
    SnocParts(events, e);
  }

  lemma {:induction false} LogOfUnique(events: seq<Event>, id: TaskId)
    requires UniqueIds(events)
    ensures UniqueIds(LogOf(events, id))
  {
    if events != [] {
      LogOfUnique(Init(events), id);
      forall e | e in LogOf(Init(events), id) ensures e.id != Last(events).id {
        assert e in Init(events);
      }
    }
  }

  /** The status the log last announced. */
  function LogStatus(log: seq<Event>): Status {
    if log == [] then Pending
    else if ChangesStatus(Last(log)) then Last(log).status.value
    else LogStatus(Init(log))
  }

  /** The agents the log assigned, in order. */
  function Assigned(log: seq<Event>): seq<Identifier> {
    if log == [] then []
    else if Last(log).etype.AgentAssigned? && Last(log).agent.Some? then Assigned(Init(log)) + [Last(log).agent.value]
    else Assigned(Init(log))
  }

  function AtomicCount(log: seq<Event>): nat {
    if log == [] then 0
    else AtomicCount(Init(log)) + if IsAtomic(Last(log).etype) then 1 else 0
  }

  function LastAtomicTime(log: seq<Event>): Time {
    if log == [] then 0
    else if IsAtomic(Last(log).etype) then Last(log).timestamp
    else LastAtomicTime(Init(log))
  }

  function CreatedCount(log: seq<Event>): nat {
    if log == [] then 0
    else CreatedCount(Init(log)) + if Last(log).etype.TaskCreated? then 1 else 0
  }

  datatype Owner = Owner(taskId: TaskId, project: Identifier, team: Identifier)

  function OwnerOf(t: Task): Owner {
    Owner(t.taskId, t.project, t.team)
  }

  predicate OwnEvent(o: Owner, e: Event) {
    e.taskId == Some(o.taskId) && e.project == Some(o.project) && e.team == Some(o.team)
  }

  predicate OpensStory(o: Owner, e: Event) {
    OwnEvent(o, e) && e.etype == TaskCreated && e.status == Some(Pending)
  }

  /** What may follow `log` in a task's stored log. */
  predicate Continues(o: Owner, log: seq<Event>, e: Event) {
    match e.etype
    case Observation(_) => e.taskId == Some(o.taskId)
    case AgentAssigned => OwnEvent(o, e) && e.agent.Some? && e.agent.value !in Assigned(log)
    case _ =>
      && OwnEvent(o, e) && e.status.Some? && e.etype == EventFor(e.status.value)
      && CanTransition(LogStatus(log), e.status.value)
  }

  /** A well-formed task log: one creation, then legal changes and uninterpreted observations. Time and
      the context of observations are free. */
  predicate Story(o: Owner, log: seq<Event>) {
    if log == [] then false
    else if |log| == 1 then OpensStory(o, log[0])
    else Story(o, Init(log)) && Continues(o, Init(log), Last(log))
  }

  predicate Monotone(log: seq<Event>) {
    |log| <= 1 || (Monotone(Init(log)) && Last(Init(log)).timestamp <= Last(log).timestamp)
  }

  /** The event names the owner's project and team, or none. */
  predicate InContext(o: Owner, e: Event) {
    && (e.project.None? || e.project.value == o.project)
    && (e.team.None? || e.team.value == o.team)
  }

  predicate AllInContext(o: Owner, log: seq<Event>) {
    log == [] || (AllInContext(o, Init(log)) && InContext(o, Last(log)))
  }

  /** A well-formed log announces its creation exactly once, and first. */
  lemma {:induction false} OneCreation(o: Owner, log: seq<Event>)
    requires Story(o, log)
    ensures CreatedCount(log) == 1 && log[0].etype.TaskCreated?
  {
    if |log| > 1 {
      OneCreation(o, Init(log));
    } else {
      assert CreatedCount(Init(log)) == 0;
    }
  }

  /** A story is closed once a terminal status is announced: only observations and assignments follow. */
  lemma {:induction false} TerminalClosesStory(o: Owner, log: seq<Event>, k: nat)
    requires Story(o, log) && 0 < k <= |log|
    requires IsTerminal(LogStatus(log[..k]))
    ensures LogStatus(log) == LogStatus(log[..k])
    ensures forall i :: k <= i < |log| ==> !ChangesStatus(log[i])
  {
    if k < |log| {
      assert log[..k] == Init(log)[..k];
      TerminalClosesStory(o, Init(log), k);
      assert LegalTransitions(LogStatus(Init(log))) == {};
      assert forall i :: k <= i < |log| - 1 ==> log[i] == Init(log)[i];
    } else {
      assert log[..k] == log;
    }
  }
}
