/** Task snapshots and the lifecycle table (domain/tasks.py). */
module Lifecycle {
  import opened Wrappers

  type TaskId = string
  type Identifier = string
  type Time = int

  datatype Status =
    | Pending | Queued | Planning | Running | Review | Qa | Blocked | Completed | Failed | Cancelled

  predicate IsTerminal(s: Status) {
    s.Completed? || s.Failed? || s.Cancelled?
  }

  predicate IsActive(s: Status) {
    s.Planning? || s.Running? || s.Review? || s.Qa? || s.Blocked?
  }

  function LegalTransitions(s: Status): set<Status> {
    match s
    case Pending => {Queued, Cancelled}
    case Queued => {Planning, Running, Failed, Cancelled}
    case Planning => {Running, Blocked, Failed, Cancelled}
    case Running => {Review, Qa, Blocked, Completed, Failed, Cancelled}
    case Review => {Running, Qa, Blocked, Completed, Failed, Cancelled}
    case Qa => {Running, Review, Blocked, Completed, Failed, Cancelled}
    case Blocked => {Queued, Planning, Running, Review, Qa, Failed, Cancelled}
    case Completed => {}
    case Failed => {}
    case Cancelled => {}
  }

  predicate CanTransition(current: Status, target: Status) {
    target in LegalTransitions(current)
  }

  datatype Task = Task(
    taskId: TaskId, source: Identifier, project: Identifier, team: Identifier, request: string,
    status: Status, agents: seq<Identifier>,
    createdAt: Time, startedAt: Option<Time>, completedAt: Option<Time>)

  predicate Distinct<T(==)>(s: seq<T>) {
    forall i, j :: 0 <= i < j < |s| ==> s[i] != s[j]
  }

  lemma NotRepeated<T>(s: seq<T>, i: nat)
    requires Distinct(s) && i < |s|
    ensures s[i] !in s[..i]
  {
  }

  /** What the snapshot's own validators accept. */
  predicate ValidTask(t: Task) {
    && Distinct(t.agents)
    && (t.startedAt.Some? ==> t.createdAt <= t.startedAt.value)
    && (t.completedAt.Some? ==>
          && t.createdAt <= t.completedAt.value
          && (t.startedAt.Some? ==> t.startedAt.value <= t.completedAt.value))
    && (IsTerminal(t.status) <==> t.completedAt.Some?)
  }

  /** Everything about a task that no operation may change. */
  predicate SameIdentity(a: Task, b: Task) {
    && a.taskId == b.taskId && a.source == b.source && a.project == b.project
    && a.team == b.team && a.request == b.request && a.createdAt == b.createdAt
  }

  predicate TimelyFor(task: Task, at: Time) {
    task.createdAt <= at && (task.startedAt.Some? ==> task.startedAt.value <= at)
  }

  /** The snapshot a transition writes, before it is validated again. */
  function Moved(task: Task, target: Status, at: Time): Task {
    task.(status := target,
          startedAt := if IsActive(target) && task.startedAt.None? then Some(at) else task.startedAt,
          completedAt := if IsTerminal(target) then Some(at) else task.completedAt)
  }

  function TransitionTask(task: Task, target: Status, at: Time): Result<Task> {
    if !CanTransition(task.status, target) then Err(IllegalTransition)
    else if !TimelyFor(task, at) then Err(BadTime)
    else if !ValidTask(Moved(task, target, at)) then Err(Invalid)
    else Ok(Moved(task, target, at))
  }

  /** A transition of a valid snapshot is accepted exactly when the table allows it and the clock has
      not gone behind the snapshot: re-validation never adds a refusal. */
  lemma TransitionAcceptance(task: Task, target: Status, at: Time)
    requires ValidTask(task)
    ensures TransitionTask(task, target, at).Ok? <==> CanTransition(task.status, target) && TimelyFor(task, at)
    ensures TransitionTask(task, target, at) != Err(Invalid)
    ensures TransitionTask(task, target, at).Ok? ==>
              var t := TransitionTask(task, target, at).value;
              ValidTask(t) && SameIdentity(task, t) && t.status == target && t.agents == task.agents
    ensures TransitionTask(task, target, at).Ok? && task.startedAt.Some? ==>
              TransitionTask(task, target, at).value.startedAt == task.startedAt
  {
    if CanTransition(task.status, target) && TimelyFor(task, at) {
      assert !IsTerminal(task.status);
      var m := Moved(task, target, at);
      assert m.agents == task.agents;
      assert ValidTask(m);
    }
  }

  /** The statuses a task can pass through, first to last. */
  predicate Path(p: seq<Status>) {
    && |p| > 0
    && forall i :: 0 <= i < |p| - 1 ==> CanTransition(p[i], p[i + 1])
  }

  /** Once a status path reaches a terminal status it has ended there. */
  lemma TerminalEndsPath(p: seq<Status>, i: nat)
    requires Path(p) && i < |p| && IsTerminal(p[i])
    ensures i == |p| - 1
  {
    assert i < |p| - 1 ==> p[i + 1] in LegalTransitions(p[i]);
  }
}
