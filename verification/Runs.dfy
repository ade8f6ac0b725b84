/** Run records and their own validation (storage/models.py). */
module Runs {
  import opened Wrappers
  import Lifecycle

  type RunId = string

  datatype Status = Queued | Running | Succeeded | Failed | TimedOut | Cancelled | Interrupted

  predicate IsTerminal(s: Status) {
    !s.Queued? && !s.Running?
  }

  datatype Run = Run(
    runId: RunId, taskId: Lifecycle.TaskId, agent: Lifecycle.Identifier, runtime: Lifecycle.Identifier,
    status: Status, createdAt: Lifecycle.Time,
    startedAt: Option<Lifecycle.Time>, completedAt: Option<Lifecycle.Time>,
    exitCode: Option<int>, errorCode: Option<string>)

  predicate ValidRun(r: Run) {
    && (r.startedAt.Some? ==> r.createdAt <= r.startedAt.value)
    && (match r.status
        case Queued => r.startedAt.None? && r.completedAt.None?
        case Running => r.startedAt.Some? && r.completedAt.None?
        case _ => r.startedAt.Some? && r.completedAt.Some?)
    && (r.startedAt.Some? && r.completedAt.Some? ==> r.startedAt.value <= r.completedAt.value)
    && (r.status.Succeeded? ==> r.errorCode.None?)
  }

  function Started(r: Run, at: Lifecycle.Time): Run {
    r.(status := Running, startedAt := Some(at))
  }

  function StartOf(r: Run): Lifecycle.Time {
    if r.startedAt.Some? then r.startedAt.value else r.createdAt
  }

  function Finished(r: Run, status: Status, at: Lifecycle.Time, exitCode: Option<int>, errorCode: Option<string>): Run {
    r.(status := status, startedAt := Some(StartOf(r)), completedAt := Some(at),
       exitCode := exitCode, errorCode := errorCode)
  }

  function InterruptedBy(r: Run, at: Lifecycle.Time): Run {
    r.(status := Interrupted, startedAt := Some(StartOf(r)), completedAt := Some(at),
       errorCode := Some("process-restart"))
  }

  /** Closing an active valid run is refused only for a clock behind its start, or for a success that
      carries an error code. */
  lemma FinishAcceptance(r: Run, status: Status, at: Lifecycle.Time, exitCode: Option<int>, errorCode: Option<string>)
    requires ValidRun(r) && !IsTerminal(r.status) && IsTerminal(status)
    ensures ValidRun(Finished(r, status, at, exitCode, errorCode)) <==>
            StartOf(r) <= at && (status.Succeeded? ==> errorCode.None?)
  {
    assert r.createdAt <= StartOf(r);
  }
}
