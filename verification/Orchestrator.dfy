/** process_task as straight-line code over the mutable store, with anything happening to the store at
    every await (orchestrator/service.py). */
module Orchestrator {
  import opened Wrappers
  import opened Lifecycle
  import opened StoreModel
  import opened StoreRuns
  import opened SQLiteStores
  import opened Interference
  import opened Workers
  import opened Settlement
  import Runs

  /** Let the worker run to its end, or to the end of the script, through the given awaits. */
  ghost function Drive(db: Db, developer: Chooser, id: TaskId, pc: Pc, script: seq<Await<Choice>>): (Db, Pc)
    decreases |script|
  {
    if script == [] || Remaining(pc) == 0 then (db, pc)
    else
      var n := Next(Final(db, script[0].beside), developer, id, pc, script[0].choice);
      Drive(n.0, developer, id, n.1, script[1..])
  }

  /** Every transaction run beside the worker carries validated records. */
  ghost predicate Playable(db: Db, developer: Chooser, id: TaskId, pc: Pc, script: seq<Await<Choice>>)
    decreases |script|
  {
    script == [] || Remaining(pc) == 0 ||
    (&& WellFormedRun(db, script[0].beside)
     && var n := Next(Final(db, script[0].beside), developer, id, pc, script[0].choice);
        Playable(n.0, developer, id, n.1, script[1..]))
  }

  /** Working storage, a clock that never goes back, new ids, and only cancellations of this task. */
  ghost predicate CalmScript(db: Db, developer: Chooser, w: Worker, script: seq<Await<Choice>>)
    decreases |script|
  {
    script == [] || Finished(w) ||
    (&& AllBeside(db, script[0].beside, w.id)
     && var mid := Final(db, script[0].beside);
        && Calm(mid, w, script[0].choice)
        && var n := WorkerStep(mid, developer, w, script[0].choice);
           CalmScript(n.0, developer, n.1, script[1..]))
  }

  lemma {:induction false} BesideIsWellFormed(db: Db, ops: seq<Op>, id: TaskId)
    requires AllBeside(db, ops, id)
    ensures WellFormedRun(db, ops)
    decreases |ops|
  {
    if ops != [] {
      BesideIsWellFormed(After(db, ops[0]), ops[1..], id);
    }
  }

  lemma {:induction false} CalmIsPlayable(db: Db, developer: Chooser, w: Worker, script: seq<Await<Choice>>)
    requires CalmScript(db, developer, w, script)
    ensures Playable(db, developer, w.id, w.pc, script)
    decreases |script|
  {
    hide Next, AllBeside, Final, WellFormedRun, Calm;
    if script != [] && !Finished(w) {
      BesideIsWellFormed(db, script[0].beside, w.id);
      var n := WorkerStep(Final(db, script[0].beside), developer, w, script[0].choice);
      CalmIsPlayable(n.0, developer, n.1, script[1..]);
    }
  }

  lemma {:induction false} DriveSettles(db: Db, developer: Chooser, w: Worker, script: seq<Await<Choice>>)
    requires Sound(db) && w.id in db.tasks && Phase(Look(db, w.id), w.pc, w.stamp)
    requires CalmScript(db, developer, w, script) && Remaining(w.pc) <= |script|
    ensures var end := Drive(db, developer, w.id, w.pc, script);
            && (end.1.Returned? || end.1.Failing?) && w.id in end.0.tasks
            && Settled(Look(end.0, w.id)) && (end.1.Returned? ==> end.1.status == end.0.tasks[w.id].doc.status)
    decreases |script|
  {
    hide Sound, Next, AllBeside, Final, Calm, Look, Settled;
    if !Finished(w) {
      var mid := Final(db, script[0].beside);
      StableUnderAll(db, script[0].beside, w.id, w.pc, w.stamp);
      var n := WorkerStep(mid, developer, w, script[0].choice);
      hide Phase;
      CalmStep(mid, developer, w, script[0].choice);
      EveryStepAdvances(mid, developer, w, script[0].choice);
      DriveSettles(n.0, developer, n.1, script[1..]);
    } else {
      LookedAt(db, w.id);
    }
  }

  lemma LookedAt(db: Db, id: TaskId)
    requires id in db.tasks
    ensures Look(db, id).doc == db.tasks[id].doc
  {
  }

  /** Starting from a queued, unassigned, never-run task, with working storage and a clock that never goes
      back, whatever the workspace, the runtime and concurrent cancellations do: when the worker returns
      or raises, the task is blocked or terminal, every run of it is closed, a completed task has a
      successful run, and a returned status is the task's. */
  lemma WorkerSettlesItsTask(db: Db, developer: Chooser, id: TaskId, stamp: Time, script: seq<Await<Choice>>)
    requires Sound(db) && id in db.tasks && TimelyFor(db.tasks[id].doc, stamp)
    requires db.tasks[id].doc.status.Queued? && db.tasks[id].doc.agents == [] && RunsOf(db, id) == map[]
    requires CalmScript(db, developer, Worker(id, Start, stamp), script) && Remaining(Start) <= |script|
    ensures var end := Drive(db, developer, id, Start, script);
            && (end.1.Returned? || end.1.Failing?) && id in end.0.tasks
            && Settled(Look(end.0, id)) && (end.1.Returned? ==> end.1.status == end.0.tasks[id].doc.status)
  {
    TaskIdIsKey(db, id);
    hide Sound, Drive, CalmScript, ValidTask;
    DriveSettles(db, developer, Worker(id, Start, stamp), script);
  }

  lemma DriveStep(db: Db, developer: Chooser, id: TaskId, pc: Pc, script: seq<Await<Choice>>)
    requires script != [] && Remaining(pc) > 0 && Playable(db, developer, id, pc, script)
    ensures WellFormedRun(db, script[0].beside)
    ensures var n := Next(Final(db, script[0].beside), developer, id, pc, script[0].choice);
            && Drive(db, developer, id, pc, script) == Drive(n.0, developer, id, n.1, script[1..])
            && Playable(n.0, developer, id, n.1, script[1..])
  {
  }

  class SingleDeveloperOrchestrator {
    const store: SQLiteStore
    const developer: Chooser

    constructor (store: SQLiteStore, developer: Chooser)
      ensures this.store == store && this.developer == developer
    {
      this.store := store;
      this.developer := developer;
    }

    method Read(id: TaskId, a: Await<Choice>) returns (r: Result<Task>)
      requires store.Valid() && WellFormedRun(store.Contents(), a.beside)
      modifies store
      ensures store.Valid() && store.Contents() == Final(old(store.Contents()), a.beside)
      ensures r == TryRead(store.Contents(), id, a.choice)
    {
      hide Sound;
      Interfere(store, a.beside);
      if a.choice.storageFails { return Err(Unavailable); }
      r := store.GetTask(id);
    }

    method Transition(task: Task, target: Status, a: Await<Choice>) returns (r: Result<Task>)
      requires store.Valid() && WellFormedRun(store.Contents(), a.beside)
      modifies store
      ensures store.Valid()
      ensures Outcome(store.Contents(), r) == TryMove(Final(old(store.Contents()), a.beside), task, target, a.choice)
    {
      hide Sound, MoveTask;
      Interfere(store, a.beside);
      if a.choice.storageFails { return Err(Unavailable); }
      r := store.TransitionTask(task.taskId, target, LifecycleEvent(task, target, a.choice));
    }

    method CloseRun(run: Runs.RunId, status: Runs.Status, exitCode: Option<int>, error: Option<string>, a: Await<Choice>)
      returns (r: Result<Runs.Run>)
      requires store.Valid() && WellFormedRun(store.Contents(), a.beside)
      modifies store
      ensures store.Valid()
      ensures Outcome(store.Contents(), r) ==
              TryFinishRun(Final(old(store.Contents()), a.beside), run, status, exitCode, error, a.choice)
    {
      hide Sound, StoreModel.FinishRun;
      Interfere(store, a.beside);
      if a.choice.storageFails { return Err(Unavailable); }
      r := store.FinishRun(run, status, a.choice.at, exitCode, error);
    }

    /** `_block` and `_fail`: read the task again, then move it. */
    method SettleTask(id: TaskId, task: Task, target: Status, script: seq<Await<Choice>>) returns (end: Pc)
      requires store.Valid() && Remaining(SettleRead(task, target)) <= |script|
      requires Playable(store.Contents(), developer, id, SettleRead(task, target), script)
      modifies store
      ensures store.Valid()
      ensures Drive(old(store.Contents()), developer, id, SettleRead(task, target), script) == (store.Contents(), end)
    {
      hide Sound, Final, Playable, WellFormedRun, TryMove;
      DriveStep(store.Contents(), developer, id, SettleRead(task, target), script);
      var current := Read(task.taskId, script[0]);
      if current.Err? { return Failing; }
      DriveStep(store.Contents(), developer, id, Settle(current.value, target), script[1..]);
      var settled := Transition(current.value, target, script[1]);
      if settled.Err? { return Failing; }
      return Returned(settled.value.status);
    }

    /** The generic exception handler, once any open run has been closed. */
    method HandleFailure(id: TaskId, task: Task, script: seq<Await<Choice>>) returns (end: Pc)
      requires store.Valid() && Remaining(RecoverRead(task)) <= |script|
      requires Playable(store.Contents(), developer, id, RecoverRead(task), script)
      modifies store
      ensures store.Valid()
      ensures Drive(old(store.Contents()), developer, id, RecoverRead(task), script) == (store.Contents(), end)
    {
      hide Sound, Final, Playable, WellFormedRun;
      DriveStep(store.Contents(), developer, id, RecoverRead(task), script);
      var current := Read(task.taskId, script[0]);
      if current.Err? { return Failing; }
      if IsTerminal(current.value.status) { return Returned(current.value.status); }
      end := SettleTask(id, current.value, Lifecycle.Failed, script[1..]);
    }

    /** The handler's first half: close the run that was left open, whatever that attempt gives. */
    method HandleOpenRun(id: TaskId, task: Task, run: Runs.RunId, script: seq<Await<Choice>>) returns (end: Pc)
      requires store.Valid() && Remaining(Recover(task, run)) <= |script|
      requires Playable(store.Contents(), developer, id, Recover(task, run), script)
      modifies store
      ensures store.Valid()
      ensures Drive(old(store.Contents()), developer, id, Recover(task, run), script) == (store.Contents(), end)
    {
      hide Sound, Final, Playable, WellFormedRun, TryFinishRun;
      DriveStep(store.Contents(), developer, id, Recover(task, run), script);
      var _ := CloseRun(run, Runs.Failed, None, Some("runtime-exception"), script[0]);
      end := HandleFailure(id, task, script[1..]);
    }

    /** After the runtime ended: close the run, then conclude the task. */
    method ConcludeRun(id: TaskId, task: Task, run: Runs.RunId, result: RuntimeStatus, exitCode: Option<int>,
        script: seq<Await<Choice>>)
      returns (end: Pc)
      requires store.Valid() && Remaining(Pc.CloseRun(task, run, result, exitCode)) <= |script|
      requires Playable(store.Contents(), developer, id, Pc.CloseRun(task, run, result, exitCode), script)
      modifies store
      ensures store.Valid()
      ensures Drive(old(store.Contents()), developer, id, Pc.CloseRun(task, run, result, exitCode), script) == (store.Contents(), end)
    {
      hide Sound, Final, Playable, WellFormedRun, TryFinishRun;
      DriveStep(store.Contents(), developer, id, Pc.CloseRun(task, run, result, exitCode), script);
      var closed := CloseRun(run, RunStatusOf(result), exitCode, RunError(result), script[0]);
      if closed.Err? {
        end := HandleOpenRun(id, task, run, script[1..]);
        return;
      }
      end := ConcludeTask(id, task, result, script[1..]);
    }

    /** The run is closed: re-read the task, unless it was cancelled conclude it, leave the workspace. */
    method ConcludeTask(id: TaskId, task: Task, result: RuntimeStatus, script: seq<Await<Choice>>) returns (end: Pc)
      requires store.Valid() && Remaining(ReadBack(task, result)) <= |script|
      requires Playable(store.Contents(), developer, id, ReadBack(task, result), script)
      modifies store
      ensures store.Valid()
      ensures Drive(old(store.Contents()), developer, id, ReadBack(task, result), script) == (store.Contents(), end)
    {
      hide Sound, Final, Playable, WellFormedRun, TryMove;
      DriveStep(store.Contents(), developer, id, ReadBack(task, result), script);
      var current := Read(task.taskId, script[0]);
      var rest := script[1..];
      if current.Err? {
        end := HandleFailure(id, task, rest);
        return;
      }
      if current.value.status.Cancelled? {
        end := LeaveWorkspace(id, current.value, current.value.status, rest);
        return;
      }
      DriveStep(store.Contents(), developer, id, Conclude(current.value, result), rest);
      var final := Transition(current.value, TaskStatusOf(result), rest[0]);
      if final.Err? {
        end := HandleFailure(id, current.value, rest[1..]);
        return;
      }
      end := LeaveWorkspace(id, final.value, final.value.status, rest[1..]);
    }

    /** Leaving the workspace releases the project lock, which may itself fail. */
    method LeaveWorkspace(id: TaskId, task: Task, status: Status, script: seq<Await<Choice>>) returns (end: Pc)
      requires store.Valid() && Remaining(Leave(task, status)) <= |script|
      requires Playable(store.Contents(), developer, id, Leave(task, status), script)
      modifies store
      ensures store.Valid()
      ensures Drive(old(store.Contents()), developer, id, Leave(task, status), script) == (store.Contents(), end)
    {
      hide Sound, Final, Playable, WellFormedRun;
      DriveStep(store.Contents(), developer, id, Leave(task, status), script);
      Interfere(store, script[0].beside);
      if script[0].choice.exitFails {
        end := HandleFailure(id, task, script[1..]);
        return;
      }
      return Returned(status);
    }

    /** The body of the workspace block. */
    method RunInWorkspace(id: TaskId, task: Task, agent: Identifier, script: seq<Await<Choice>>) returns (end: Pc)
      requires store.Valid() && Remaining(ToRunning(task, agent)) <= |script|
      requires Playable(store.Contents(), developer, id, ToRunning(task, agent), script)
      modifies store
      ensures store.Valid()
      ensures Drive(old(store.Contents()), developer, id, ToRunning(task, agent), script) == (store.Contents(), end)
    {
      hide Sound, Final, Playable, WellFormedRun, TryMove, TryCreateRun, TryStartRun;
      DriveStep(store.Contents(), developer, id, ToRunning(task, agent), script);
      var running := Transition(task, Running, script[0]);
      if running.Err? {
        end := HandleFailure(id, task, script[1..]);
        return;
      }
      var rest := script[1..];
      DriveStep(store.Contents(), developer, id, OpenRun(running.value, agent), rest);
      var run := CreateRun(running.value, agent, rest[0]);
      if run.Err? {
        end := HandleFailure(id, running.value, rest[1..]);
        return;
      }
      end := ExecuteRun(id, running.value, run.value.runId, rest[1..]);
    }

    /** Start the new run and execute the runtime. */
    method ExecuteRun(id: TaskId, task: Task, run: Runs.RunId, script: seq<Await<Choice>>) returns (end: Pc)
      requires store.Valid() && Remaining(BeginRun(task, run)) <= |script|
      requires Playable(store.Contents(), developer, id, BeginRun(task, run), script)
      modifies store
      ensures store.Valid()
      ensures Drive(old(store.Contents()), developer, id, BeginRun(task, run), script) == (store.Contents(), end)
    {
      hide Sound, Final, Playable, WellFormedRun, TryStartRun;
      DriveStep(store.Contents(), developer, id, BeginRun(task, run), script);
      var begun := StartRun(run, script[0]);
      var rest := script[1..];
      if begun.Err? {
        end := HandleOpenRun(id, task, run, rest);
        return;
      }
      DriveStep(store.Contents(), developer, id, Execute(task, run), rest);
      Interfere(store, rest[0].beside);
      match rest[0].choice.execution
      case Raised => end := HandleOpenRun(id, task, run, rest[1..]);
      case Ended(status, exitCode) => end := ConcludeRun(id, task, run, status, exitCode, rest[1..]);
    }

    method CreateRun(task: Task, agent: Identifier, a: Await<Choice>) returns (r: Result<Runs.Run>)
      requires store.Valid() && WellFormedRun(store.Contents(), a.beside)
      modifies store
      ensures store.Valid()
      ensures Outcome(store.Contents(), r) == TryCreateRun(Final(old(store.Contents()), a.beside), task, agent, a.choice)
    {
      hide Sound, StoreModel.CreateRun;
      Interfere(store, a.beside);
      if a.choice.storageFails { return Err(Unavailable); }
      r := store.CreateRun(NewRun(task, agent, a.choice));
    }

    method StartRun(run: Runs.RunId, a: Await<Choice>) returns (r: Result<Runs.Run>)
      requires store.Valid() && WellFormedRun(store.Contents(), a.beside)
      modifies store
      ensures store.Valid()
      ensures Outcome(store.Contents(), r) == TryStartRun(Final(old(store.Contents()), a.beside), run, a.choice)
    {
      hide Sound, StoreModel.StartRun;
      Interfere(store, a.beside);
      if a.choice.storageFails { return Err(Unavailable); }
      r := store.StartRun(run, a.choice.at);
    }

    /** process_task: every await is one entry of the script, and the store ends where the worker machine
        ends. */
    method ProcessTask(id: TaskId, script: seq<Await<Choice>>) returns (end: Pc)
      requires store.Valid() && Remaining(Start) <= |script|
      requires Playable(store.Contents(), developer, id, Start, script)
      modifies store
      ensures store.Valid()
      ensures Drive(old(store.Contents()), developer, id, Start, script) == (store.Contents(), end)
    {
      hide Sound, Final, Playable, WellFormedRun, TryMove, TryAssign;
      DriveStep(store.Contents(), developer, id, Start, script);
      var task := Read(id, script[0]);
      if task.Err? { return Failing; }
      if !task.value.status.Queued? { return Returned(task.value.status); }
      var rest := script[1..];
      DriveStep(store.Contents(), developer, id, Claim(task.value), rest);
      var claimed := Transition(task.value, Planning, rest[0]);
      if claimed.Err? { return Failing; }
      rest := rest[1..];
      var chosen := developer(claimed.value.project, claimed.value.team);
      if chosen.None? {
        end := SettleTask(id, claimed.value, Lifecycle.Failed, rest);
        return;
      }
      end := AssignAndOpen(id, claimed.value, chosen.value, rest);
    }

    /** Give the claimed task to its developer, then go on to the workspace. */
    method AssignAndOpen(id: TaskId, task: Task, agent: Identifier, script: seq<Await<Choice>>) returns (end: Pc)
      requires store.Valid() && Remaining(Assign(task, agent)) <= |script|
      requires Playable(store.Contents(), developer, id, Assign(task, agent), script)
      modifies store
      ensures store.Valid()
      ensures Drive(old(store.Contents()), developer, id, Assign(task, agent), script) == (store.Contents(), end)
    {
      hide Sound, Final, Playable, WellFormedRun, TryAssign;
      DriveStep(store.Contents(), developer, id, Assign(task, agent), script);
      var assignee := AssignDeveloper(task, agent, script[0]);
      if assignee.Err? { return Failing; }
      end := OpenWorkspace(id, assignee.value, agent, script[1..]);
    }

    /** Take the project lock and prepare the branch, then work in it; or settle what went wrong. */
    method OpenWorkspace(id: TaskId, task: Task, agent: Identifier, script: seq<Await<Choice>>) returns (end: Pc)
      requires store.Valid() && Remaining(Open(task, agent)) <= |script|
      requires Playable(store.Contents(), developer, id, Open(task, agent), script)
      modifies store
      ensures store.Valid()
      ensures Drive(old(store.Contents()), developer, id, Open(task, agent), script) == (store.Contents(), end)
    {
      hide Sound, Final, Playable, WellFormedRun;
      DriveStep(store.Contents(), developer, id, Open(task, agent), script);
      Interfere(store, script[0].beside);
      match script[0].choice.preparation
      case Ready => end := RunInWorkspace(id, task, agent, script[1..]);
      case NeedsOperator => end := SettleTask(id, task, Blocked, script[1..]);
      case Refused => end := SettleTask(id, task, Lifecycle.Failed, script[1..]);
      case Broken => end := HandleFailure(id, task, script[1..]);
    }

    method AssignDeveloper(task: Task, agent: Identifier, a: Await<Choice>) returns (r: Result<Task>)
      requires store.Valid() && WellFormedRun(store.Contents(), a.beside)
      modifies store
      ensures store.Valid()
      ensures Outcome(store.Contents(), r) == TryAssign(Final(old(store.Contents()), a.beside), task, agent, a.choice)
    {
      hide Sound, StoreModel.AssignTask;
      Interfere(store, a.beside);
      if a.choice.storageFails { return Err(Unavailable); }
      r := store.AssignTask(task.taskId, agent, AssignmentEvent(task, agent, a.choice));
    }

    /** What a caller gets: processing a queued task, whatever happens beside it, settles it. */
    method ProcessQueuedTask(id: TaskId, stamp: Time, script: seq<Await<Choice>>) returns (end: Pc)
      requires store.Valid() && id in store.tasks && TimelyFor(store.tasks[id].doc, stamp)
      requires store.tasks[id].doc.status.Queued? && store.tasks[id].doc.agents == []
      requires RunsOf(store.Contents(), id) == map[]
      requires CalmScript(store.Contents(), developer, Worker(id, Start, stamp), script)
      requires Remaining(Start) <= |script|
      modifies store
      ensures store.Valid() && id in store.tasks && Settled(Look(store.Contents(), id))
      ensures end.Returned? ==> end.status == store.tasks[id].doc.status
    {
      CalmIsPlayable(store.Contents(), developer, Worker(id, Start, stamp), script);
      WorkerSettlesItsTask(store.Contents(), developer, id, stamp, script);
      hide Sound, Playable, CalmScript, Drive, Settled, Look;
      end := ProcessTask(id, script);
    }
  }
}
