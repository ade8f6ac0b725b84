/** Workers of one project under its lock: the workspace scope of the execution adapter around the worker
    (application/adapters.py, orchestrator/service.py, locks/file_lock.py). */
module ProjectExecution {
  import opened Lifecycle
  import opened StoreModel
  import opened StoreRuns
  import opened StoreHistory
  import opened Workers
  import opened StaleClaims
  import Engine
  import FileLock

  /** The worker is inside the workspace block. */
  predicate HoldsWorkspace(pc: Pc) {
    || pc.ToRunning? || pc.OpenRun? || pc.BeginRun? || pc.Execute? || pc.CloseRun? || pc.ReadBack? || pc.Conclude?
    || pc.Leave?
  }

  /** The worker's workspace block is being entered or is entered. */
  predicate InScope(pc: Pc) {
    pc.Open? || HoldsWorkspace(pc)
  }

  /** The lock instance of one workspace block, whether its acquire was seen to return, and whether the
      thread that prepares the branch is at work. */
  datatype Scope = Scope(lock: nat, acquired: bool, preparing: bool)

  /** The hub process and the lock of one project. `abandoned` are the instances whose worker was interrupted
      inside the awaited acquire: nobody will release them. `orphans` are the preparation threads whose
      worker was interrupted; their lock is released while they go on. */
  datatype Site = Site(
    hub: Engine.State, pid: FileLock.Pid, locks: FileLock.State,
    scopes: map<nat, Scope>, abandoned: set<nat>, orphans: set<nat>)

  datatype Setting = Setting(project: Identifier, lock: FileLock.Settings, taskIds: Engine.IdFactory)

  /** `Outside` is what other processes do with the same lock. */
  datatype Action =
    | Hub(a: Engine.Action)
    | Enter(worker: nat, lock: nat)
    | Acquired(worker: nat)
    | Prepared(worker: nat)
    | OrphanEnds(lock: nat)
    | LockStep(lock: nat, m: FileLock.Moment)
    | Outside(b: FileLock.Action)
    | ProcessDies(a: Engine.Action, next: FileLock.Pid)

  predicate OpensHere(s: Site, cfg: Setting, w: nat) {
    w in s.hub.workers && s.hub.workers[w].pc.Open? && s.hub.workers[w].pc.task.project == cfg.project
  }

  predicate Inside(s: Site, cfg: Setting, w: nat) {
    w in s.hub.workers && HoldsWorkspace(s.hub.workers[w].pc) && s.hub.workers[w].pc.task.project == cfg.project
  }

  predicate Awaits(s: Site, w: nat) {
    w in s.scopes && w in s.hub.workers && InScope(s.hub.workers[w].pc)
  }

  /** A worker goes on from opening once its preparation has ended, or its acquire has given up; the
      workspace is ready only in the first case. */
  predicate MayGoOn(s: Site, w: nat, ready: bool) {
    && w in s.scopes && !s.scopes[w].preparing && s.scopes[w].lock in s.locks.locks
    && (s.scopes[w].acquired || (!ready && s.locks.locks[s.scopes[w].lock].pc.Over?))
  }

  /** A held lock is given up only by the block that took it, when its worker has left or was interrupted
      after its acquire was seen to return. */
  ghost predicate Enabled(s: Site, cfg: Setting, act: Action) {
    match act
    case Hub(a) =>
      && Engine.Enabled(s.hub, a) && !a.Crash?
      && (a.Work? && OpensHere(s, cfg, a.worker) ==> MayGoOn(s, a.worker, a.c.preparation.Ready?))
    case Enter(w, l) => OpensHere(s, cfg, w) && w !in s.scopes && l !in s.locks.locks && s.pid !in s.locks.dead
    case Acquired(w) =>
      && OpensHere(s, cfg, w) && w in s.scopes && !s.scopes[w].acquired
      && s.scopes[w].lock in s.locks.locks && s.locks.locks[s.scopes[w].lock].pc.Held?
    case Prepared(w) => w in s.scopes && s.scopes[w].preparing
    case OrphanEnds(l) => l in s.orphans
    case LockStep(l, m) =>
      && FileLock.Enabled(s.locks, FileLock.Advance(l, m))
      && (s.locks.locks[l].pc.Held? ==> l !in s.abandoned && forall w :: Awaits(s, w) ==> s.scopes[w].lock != l)
    case Outside(b) =>
      && FileLock.Enabled(s.locks, b)
      && (match b
          case Open(_, pid, _) => pid != s.pid
          case Die(pid) => pid != s.pid
          case _ => false)
    case ProcessDies(a, next) => a.Crash? && next != s.pid && next !in s.locks.dead
  }

  /** What an interrupted worker leaves behind. */
  function Interrupted(s: Site, w: nat): Site {
    var open := w in s.scopes && w in s.hub.workers && s.hub.workers[w].pc.Open?;
    s.(scopes := s.scopes - {w},
       abandoned := if open && !s.scopes[w].acquired then s.abandoned + {s.scopes[w].lock} else s.abandoned,
       orphans := if open && s.scopes[w].preparing then s.orphans + {s.scopes[w].lock} else s.orphans)
  }

  ghost function Step(s: Site, cfg: Setting, act: Action): Site {
    match act
    case Hub(a) => (if a.Kill? then Interrupted(s, a.worker) else s).(hub := Engine.Step(s.hub, cfg.taskIds, a))
    case Enter(w, l) =>
      if w !in s.hub.workers then s
      else s.(locks := FileLock.Step(s.locks, cfg.lock, FileLock.Open(l, s.pid, s.hub.workers[w].id)),
              scopes := s.scopes[w := Scope(l, false, false)])
    case Acquired(w) => if w !in s.scopes then s else s.(scopes := s.scopes[w := Scope(s.scopes[w].lock, true, true)])
    case Prepared(w) => if w !in s.scopes then s else s.(scopes := s.scopes[w := s.scopes[w].(preparing := false)])
    case OrphanEnds(l) => s.(orphans := s.orphans - {l})
    case LockStep(l, m) => s.(locks := FileLock.Step(s.locks, cfg.lock, FileLock.Advance(l, m)))
    case Outside(b) => s.(locks := FileLock.Step(s.locks, cfg.lock, b))
    case ProcessDies(a, next) =>
      Site(Engine.Step(s.hub, cfg.taskIds, a), next, FileLock.Step(s.locks, cfg.lock, FileLock.Die(s.pid)), map[], {}, {})
  }

  ghost function Run(s: Site, cfg: Setting, actions: seq<Action>): Site
    decreases |actions|
  {
    if actions == [] then s else Run(Step(s, cfg, actions[0]), cfg, actions[1..])
  }

  ghost predicate Legal(s: Site, cfg: Setting, actions: seq<Action>)
    decreases |actions|
  {
    actions == [] || (Enabled(s, cfg, actions[0]) && Legal(Step(s, cfg, actions[0]), cfg, actions[1..]))
  }

  // ---------------------------------------------------------------- invariant

  predicate OwnLock(s: Site, l: nat) {
    l in s.locks.locks && s.locks.locks[l].pid == s.pid
  }

  /** A block whose acquire was seen to return holds its lock until its worker leaves; before that the lock
      is not on its way out. It prepares while opening only. */
  predicate ScopeFits(s: Site, w: nat)
    requires w in s.scopes
  {
    var scope := s.scopes[w];
    && w in s.hub.workers && OwnLock(s, scope.lock) && scope.lock !in s.abandoned
    && (scope.acquired && InScope(s.hub.workers[w].pc) ==> s.locks.locks[scope.lock].pc.Held?)
    && (!scope.acquired && s.hub.workers[w].pc.Open? ==> Staying(s.locks.locks[scope.lock].pc))
    && (scope.preparing ==> scope.acquired && s.hub.workers[w].pc.Open?)
  }

  predicate ScopesFit(s: Site) {
    && (forall w :: w in s.scopes ==> ScopeFits(s, w))
    && (forall v, w :: v in s.scopes && w in s.scopes && s.scopes[v].lock == s.scopes[w].lock ==> v == w)
  }

  /** An abandoned instance is never on its way out of the lock. */
  predicate AbandonedFit(s: Site) {
    forall l :: l in s.abandoned ==> OwnLock(s, l) && Staying(s.locks.locks[l].pc)
  }

  /** The worker has not come to open a workspace yet. */
  predicate Before(pc: Pc) {
    pc.Start? || pc.Claim? || pc.Assign?
  }

  /** A worker with a block has come to open this project's workspace, once. */
  ghost predicate AllEnterOnce(s: Site, cfg: Setting) {
    forall w :: w in s.scopes && w in s.hub.workers ==>
      !Before(s.hub.workers[w].pc) && (s.hub.workers[w].pc.Open? ==> s.hub.workers[w].pc.task.project == cfg.project)
  }

  predicate Staying(pc: FileLock.Pc) {
    !pc.Checking? && !pc.CheckLoading? && !pc.Releasing?
  }

  /** The worker's acquire was seen to return and its preparation has ended. */
  predicate Cleared(s: Site, w: nat) {
    w in s.scopes && s.scopes[w].acquired && !s.scopes[w].preparing
  }

  ghost predicate AllCleared(s: Site, cfg: Setting) {
    forall w :: Inside(s, cfg, w) ==> Cleared(s, w)
  }

  ghost predicate LockFits(locks: FileLock.State, cfg: FileLock.Settings) {
    FileLock.Inv(locks, cfg) && FileLock.Exclusive(locks)
  }

  ghost predicate HubFits(hub: Engine.State) {
    Sound(hub.db) && AllMind(hub.db, hub.workers)
  }

  /** All that ties the blocks to their workers and locks. */
  ghost predicate BlocksFit(s: Site, cfg: Setting) {
    ScopesFit(s) && AbandonedFit(s) && AllCleared(s, cfg) && AllEnterOnce(s, cfg)
  }

  ghost predicate Inv(s: Site, cfg: Setting) {
    HubFits(s.hub) && LockFits(s.locks, cfg.lock) && BlocksFit(s, cfg)
  }

  // ---------------------------------------------------------------- the hub's steps

  /** A worker comes into the block only from a prepared workspace, and keeps its project there. */
  lemma ComesFromOpen(db: Db, developer: Chooser, w: Worker, c: Choice)
    requires Sound(db) && Minds(db, w)
    ensures var n := WorkerStep(db, developer, w, c);
            && (n.1.pc.Open? ==> w.pc.Assign?) && (Before(n.1.pc) ==> Before(w.pc))
            && (HoldsWorkspace(n.1.pc) ==>
                  && (HoldsWorkspace(w.pc) || (w.pc.Open? && c.preparation.Ready?))
                  && n.1.pc.task.project == w.pc.task.project)
  {
    var n := WorkerStep(db, developer, w, c);
    hide Sound, TryMove, TryAssign, TryCreateRun, TryStartRun, TryFinishRun;
    if HoldsWorkspace(w.pc) && HoldsWorkspace(n.1.pc) {
      MindsNext(db, developer, w, c);
      NextFollows(db, developer, w.id, w.pc, c);
      hide Follows;
      IdentityStays(db, n.0, w.id);
      hide Next;
    }
  }

  predicate SameLockSide(a: Site, b: Site) {
    b.locks == a.locks && b.pid == a.pid
  }

  /** The worker moved, with leave to go on if it was opening the workspace. */
  predicate MovesOn(s: Site, cfg: Setting, w: nat, next: Worker)
    requires w in s.hub.workers
  {
    var pc := s.hub.workers[w].pc;
    && (next.pc.Open? ==> pc.Assign?) && (Before(next.pc) ==> Before(pc))
    && (HoldsWorkspace(next.pc) ==>
          (HoldsWorkspace(pc) || pc.Open?) && next.pc.task.project == pc.task.project)
    && (OpensHere(s, cfg, w) ==> MayGoOn(s, w, HoldsWorkspace(next.pc)))
  }

  lemma MovedScopes(s: Site, cfg: Setting, w: nat, next: Worker, after: Site)
    requires BlocksFit(s, cfg) && w in s.hub.workers && MovesOn(s, cfg, w, next)
    requires after == s.(hub := after.hub) && after.hub.workers == s.hub.workers[w := next]
    ensures BlocksFit(after, cfg)
  {
    forall v | v in s.scopes ensures ScopeFits(after, v) {
      assert ScopeFits(s, v);
    }
    forall v | Inside(after, cfg, v) ensures Cleared(after, v) {
      assert v != w || HoldsWorkspace(s.hub.workers[w].pc) ==> Inside(s, cfg, v);
    }
  }

  /** A worker that comes new has no block. */
  lemma NewcomerScopes(s: Site, cfg: Setting, w: nat, id: TaskId, after: Site)
    requires BlocksFit(s, cfg) && w !in s.hub.workers
    requires after == s.(hub := after.hub) && after.hub.workers == s.hub.workers[w := Worker(id, Start, 0)]
    ensures BlocksFit(after, cfg)
  {
    forall v | v in s.scopes ensures v != w && ScopeFits(after, v) {
      assert ScopeFits(s, v);
    }
    forall v | Inside(after, cfg, v) ensures Cleared(after, v) {
      assert Inside(s, cfg, v);
    }
  }

  lemma SameWorkers(s: Site, cfg: Setting, after: Site)
    requires BlocksFit(s, cfg) && after == s.(hub := after.hub) && after.hub.workers == s.hub.workers
    ensures BlocksFit(after, cfg)
  {
    forall v | v in s.scopes ensures ScopeFits(after, v) {
      assert ScopeFits(s, v);
    }
    forall v | Inside(after, cfg, v) ensures Cleared(after, v) {
      assert Inside(s, cfg, v);
    }
  }

  /** An interrupted worker's block is gone. */
  lemma InterruptedScopes(s: Site, cfg: Setting, w: nat, after: Site)
    requires BlocksFit(s, cfg) && w in s.hub.workers
    requires after == Interrupted(s, w).(hub := after.hub) && after.hub.workers == s.hub.workers - {w}
    ensures BlocksFit(after, cfg)
  {
    if w in s.scopes {
      assert ScopeFits(s, w);
    }
    forall v | v in after.scopes ensures ScopeFits(after, v) {
      assert ScopeFits(s, v);
    }
    forall v | Inside(after, cfg, v) ensures Cleared(after, v) {
      assert Inside(s, cfg, v);
    }
  }

  lemma WorkMoves(s: Site, cfg: Setting, w: nat, c: Choice)
    requires HubFits(s.hub) && Enabled(s, cfg, Hub(Engine.Work(w, c)))
    ensures MovesOn(s, cfg, w, WorkerStep(s.hub.db, s.hub.developer, s.hub.workers[w], c).1)
  {
    hide Sound, WorkerStep, Minds;
    assert Minds(s.hub.db, s.hub.workers[w]);
    ComesFromOpen(s.hub.db, s.hub.developer, s.hub.workers[w], c);
  }

  lemma HubStep(s: Site, cfg: Setting, a: Engine.Action)
    requires HubFits(s.hub) && BlocksFit(s, cfg) && Enabled(s, cfg, Hub(a))
    ensures HubFits(Step(s, cfg, Hub(a)).hub) && BlocksFit(Step(s, cfg, Hub(a)), cfg)
  {
    var after := Step(s, cfg, Hub(a));
    Engine.StepKeepsStore(s.hub, cfg.taskIds, a);
    StepKeepsMind(s.hub, cfg.taskIds, a);
    WorkersMove(s.hub, cfg.taskIds, a);
    if a.Work? {
      WorkMoves(s, cfg, a.worker, a.c);
    }
    hide Engine.Step, Sound, AllMind, Follows, BlocksFit, WorkerStep, MovesOn, Interrupted, MayGoOn;
    match a
    case Work(w, c) =>
      MovedScopes(s, cfg, w, WorkerStep(s.hub.db, s.hub.developer, s.hub.workers[w], c).1, after);
    case Poll(w, id) => NewcomerScopes(s, cfg, w, id, after);
    case Kill(w) => InterruptedScopes(s, cfg, w, after);
    case _ => SameWorkers(s, cfg, after);
  }

  // ---------------------------------------------------------------- the locks' steps

  lemma LocksMove(locks: FileLock.State, cfg: FileLock.Settings, b: FileLock.Action)
    requires LockFits(locks, cfg) && FileLock.Enabled(locks, b) && !b.Meddle?
    ensures LockFits(FileLock.Step(locks, cfg, b), cfg)
  {
    hide FileLock.Inv, FileLock.Exclusive, FileLock.Step, FileLock.Enabled;
    FileLock.StepKeepsInv(locks, cfg, b);
    FileLock.StepExclusive(locks, cfg, b);
  }

  /** Every instance of this process that the step touched stayed as its block needs it. */
  ghost predicate KeepsOwn(s: Site, after: Site) {
    && (forall l :: OwnLock(s, l) ==> OwnLock(after, l))
    && (forall l :: OwnLock(s, l) && after.locks.locks[l].pc != s.locks.locks[l].pc ==>
          && (l in s.abandoned || (Staying(s.locks.locks[l].pc) && !s.locks.locks[l].pc.Held?) ==> Staying(after.locks.locks[l].pc))
          && (s.locks.locks[l].pc.Held? ==> forall w :: Awaits(s, w) ==> s.scopes[w].lock != l))
  }

  lemma OnlyLocksMoved(s: Site, cfg: Setting, after: Site)
    requires BlocksFit(s, cfg) && after == s.(locks := after.locks) && KeepsOwn(s, after)
    ensures BlocksFit(after, cfg)
  {
    forall w | w in s.scopes ensures ScopeFits(after, w) {
      assert ScopeFits(s, w);
      assert Awaits(s, w) || !InScope(s.hub.workers[w].pc);
    }
    forall w | Inside(after, cfg, w) ensures Cleared(after, w) {
      assert Inside(s, cfg, w);
    }
  }

  lemma AdvanceKeeps(d: FileLock.Disk, cfg: FileLock.Settings, l: FileLock.Lock, m: FileLock.Moment)
    ensures FileLock.Next(d, cfg, l, m).1.pid == l.pid
    ensures Staying(l.pc) && !l.pc.Held? ==> Staying(FileLock.Next(d, cfg, l, m).1.pc)
  {
  }

  lemma LockStepKeeps(s: Site, cfg: Setting, l: nat, m: FileLock.Moment)
    requires AbandonedFit(s) && Enabled(s, cfg, LockStep(l, m))
    ensures KeepsOwn(s, Step(s, cfg, LockStep(l, m)))
  {
    AdvanceKeeps(s.locks.disk, cfg.lock, s.locks.locks[l], m);
    hide FileLock.Next;
  }

  lemma OutsideKeeps(s: Site, cfg: Setting, b: FileLock.Action)
    requires Enabled(s, cfg, Outside(b))
    ensures KeepsOwn(s, Step(s, cfg, Outside(b)))
  {
  }

  /** A lock instance that is in no block and not abandoned starts a block. */
  lemma BlockOpens(s: Site, cfg: Setting, w: nat, l: nat)
    requires BlocksFit(s, cfg) && OpensHere(s, cfg, w) && w !in s.scopes
    requires OwnLock(s, l) && s.locks.locks[l].pc.Idle? && l !in s.abandoned
    requires forall v :: v in s.scopes ==> s.scopes[v].lock != l
    ensures BlocksFit(s.(scopes := s.scopes[w := Scope(l, false, false)]), cfg)
  {
    var after := s.(scopes := s.scopes[w := Scope(l, false, false)]);
    forall v | v in after.scopes ensures ScopeFits(after, v) {
      assert v == w || ScopeFits(s, v);
    }
    forall v | Inside(after, cfg, v) ensures Cleared(after, v) {
      assert Inside(s, cfg, v);
    }
  }

  lemma EnterKeeps(s: Site, cfg: Setting, w: nat, l: nat)
    requires BlocksFit(s, cfg) && Enabled(s, cfg, Enter(w, l))
    ensures BlocksFit(Step(s, cfg, Enter(w, l)), cfg)
  {
    var between := s.(locks := Step(s, cfg, Enter(w, l)).locks);
    assert forall v :: v in s.scopes ==> ScopeFits(s, v);
    assert forall k :: k in s.abandoned ==> OwnLock(s, k);
    hide AllCleared, AllEnterOnce, ScopesFit, AbandonedFit;
    OnlyLocksMoved(s, cfg, between);
    BlockOpens(between, cfg, w, l);
  }

  // ---------------------------------------------------------------- the blocks' own steps

  lemma BlockMoves(s: Site, cfg: Setting, w: nat, next: Scope)
    requires BlocksFit(s, cfg) && w in s.scopes && next.lock == s.scopes[w].lock && next.acquired
    requires OwnLock(s, next.lock) && s.locks.locks[next.lock].pc.Held? && OpensHere(s, cfg, w)
    ensures BlocksFit(s.(scopes := s.scopes[w := next]), cfg)
  {
    var after := s.(scopes := s.scopes[w := next]);
    forall v | v in s.scopes ensures ScopeFits(after, v) {
      assert ScopeFits(s, v);
    }
    forall v | Inside(after, cfg, v) ensures Cleared(after, v) {
      assert Inside(s, cfg, v);
    }
  }

  /** A block's acquire is seen to return, or its preparation ends. */
  lemma BlockStep(s: Site, cfg: Setting, act: Action)
    requires BlocksFit(s, cfg) && Enabled(s, cfg, act) && (act.Acquired? || act.Prepared?)
    ensures BlocksFit(Step(s, cfg, act), cfg)
  {
    assert forall v :: v in s.scopes ==> ScopeFits(s, v);
    hide ScopesFit, AbandonedFit, AllCleared;
    match act
    case Acquired(w) => BlockMoves(s, cfg, w, Scope(s.scopes[w].lock, true, true));
    case Prepared(w) => BlockMoves(s, cfg, w, s.scopes[w].(preparing := false));
  }

  lemma OrphanMoves(s: Site, cfg: Setting, l: nat)
    requires BlocksFit(s, cfg)
    ensures BlocksFit(Step(s, cfg, OrphanEnds(l)), cfg)
  {
    var after := Step(s, cfg, OrphanEnds(l));
    forall v | v in s.scopes ensures ScopeFits(after, v) {
      assert ScopeFits(s, v);
    }
    forall v | Inside(after, cfg, v) ensures Cleared(after, v) {
      assert Inside(s, cfg, v);
    }
  }

  lemma ProcessDeath(s: Site, cfg: Setting, a: Engine.Action, next: FileLock.Pid)
    requires Inv(s, cfg) && Enabled(s, cfg, ProcessDies(a, next))
    ensures Inv(Step(s, cfg, ProcessDies(a, next)), cfg)
  {
    hide Sound, AllMind, FileLock.Inv, FileLock.Exclusive, FileLock.Step;
    LocksMove(s.locks, cfg.lock, FileLock.Die(s.pid));
    Engine.StepKeepsStore(s.hub, cfg.taskIds, a);
    StepKeepsMind(s.hub, cfg.taskIds, a);
    WorkersMove(s.hub, cfg.taskIds, a);
  }

  lemma StepKeepsInv(s: Site, cfg: Setting, act: Action)
    requires Inv(s, cfg) && Enabled(s, cfg, act)
    ensures Inv(Step(s, cfg, act), cfg)
  {
    hide HubFits, LockFits, ScopesFit, AbandonedFit, AllCleared, AllEnterOnce, FileLock.Step, Engine.Step, Engine.Enabled,
         KeepsOwn, MayGoOn;
    match act
    case Hub(a) => HubStep(s, cfg, a);
    case Enter(w, l) =>
      EnterKeeps(s, cfg, w, l);
      LocksMove(s.locks, cfg.lock, FileLock.Open(l, s.pid, s.hub.workers[w].id));
    case Acquired(w) => BlockStep(s, cfg, act);
    case Prepared(w) => BlockStep(s, cfg, act);
    case OrphanEnds(l) => OrphanMoves(s, cfg, l);
    case LockStep(l, m) =>
      LockStepKeeps(s, cfg, l, m);
      LocksMove(s.locks, cfg.lock, FileLock.Advance(l, m));
      OnlyLocksMoved(s, cfg, Step(s, cfg, act));
    case Outside(b) =>
      OutsideKeeps(s, cfg, b);
      LocksMove(s.locks, cfg.lock, b);
      OnlyLocksMoved(s, cfg, Step(s, cfg, act));
    case ProcessDies(a, next) => ProcessDeath(s, cfg, a, next);
  }

  lemma {:induction false} RunKeepsInv(s: Site, cfg: Setting, actions: seq<Action>)
    requires Inv(s, cfg) && Legal(s, cfg, actions)
    ensures Inv(Run(s, cfg, actions), cfg)
    decreases |actions|
  {
    hide Inv, Step, Enabled;
    if actions != [] {
      StepKeepsInv(s, cfg, actions[0]);
      RunKeepsInv(Step(s, cfg, actions[0]), cfg, actions[1..]);
    }
  }

  // ---------------------------------------------------------------- one worker at a time

  lemma HoldersMeet(locks: FileLock.State, cfg: FileLock.Settings, a: nat, b: nat)
    requires LockFits(locks, cfg) && a in locks.locks && b in locks.locks
    requires FileLock.Holds(locks.locks[a].pc) && FileLock.Holds(locks.locks[b].pc)
    ensures a == b
  {
    hide FileLock.Inv;
    assert FileLock.BothOwn(locks.locks[a], locks.locks[b]);
  }

  /** The lock instance of the worker that is inside: the one that holds the lock. */
  lemma InsideHolds(s: Site, cfg: Setting, w: nat)
    requires BlocksFit(s, cfg) && Inside(s, cfg, w)
    ensures w in s.scopes && OwnLock(s, s.scopes[w].lock) && s.locks.locks[s.scopes[w].lock].pc.Held?
    ensures s.scopes[w].lock !in s.abandoned && !s.scopes[w].preparing
  {
    assert ScopeFits(s, w) && Cleared(s, w);
  }

  function Begin(developer: Chooser, teams: map<Identifier, Identifier>, pid: FileLock.Pid, disk: FileLock.Disk): Site {
    Site(Engine.Boot(developer, teams), pid, FileLock.Start(disk), map[], {}, {})
  }

  lemma BeginFits(developer: Chooser, teams: map<Identifier, Identifier>, pid: FileLock.Pid, disk: FileLock.Disk, cfg: Setting)
    requires FileLock.ValidDisk(disk)
    ensures Inv(Begin(developer, teams, pid, disk), cfg)
  {
    EmptyStoreIsSound();
    hide Sound;
  }

  /** Over every interleaving of the hub, the lock instances, interruptions, preparation threads, other
      processes, crashes and restarts: at most one worker is inside the project's workspace block, and
      while it is, nobody holds the lock but the instance it acquired. */
  lemma OneWorkerPerProject(developer: Chooser, teams: map<Identifier, Identifier>, pid: FileLock.Pid,
      disk: FileLock.Disk, cfg: Setting, actions: seq<Action>)
    requires FileLock.ValidDisk(disk) && Legal(Begin(developer, teams, pid, disk), cfg, actions)
    ensures var s := Run(Begin(developer, teams, pid, disk), cfg, actions);
            && (forall v, w :: Inside(s, cfg, v) && Inside(s, cfg, w) ==> v == w)
            && (forall w, l :: Inside(s, cfg, w) && l in s.locks.locks && FileLock.Holds(s.locks.locks[l].pc) ==>
                  w in s.scopes && s.scopes[w].lock == l)
            && (forall w :: Inside(s, cfg, w) ==>
                  w in s.scopes && s.scopes[w].lock in s.locks.locks && FileLock.Holds(s.locks.locks[s.scopes[w].lock].pc))
  {
    var s := Run(Begin(developer, teams, pid, disk), cfg, actions);
    BeginFits(developer, teams, pid, disk, cfg);
    RunKeepsInv(Begin(developer, teams, pid, disk), cfg, actions);
    hide Run, Legal, HubFits, LockFits, Inside;
    forall w, l | Inside(s, cfg, w) && l in s.locks.locks && FileLock.Holds(s.locks.locks[l].pc)
      ensures w in s.scopes && s.scopes[w].lock == l
    {
      InsideHolds(s, cfg, w);
      HoldersMeet(s.locks, cfg.lock, s.scopes[w].lock, l);
    }
    forall v, w | Inside(s, cfg, v) && Inside(s, cfg, w) ensures v == w {
      InsideHolds(s, cfg, v);
      InsideHolds(s, cfg, w);
      HoldersMeet(s.locks, cfg.lock, s.scopes[w].lock, s.scopes[v].lock);
    }
    forall w | Inside(s, cfg, w)
      ensures w in s.scopes && s.scopes[w].lock in s.locks.locks && FileLock.Holds(s.locks.locks[s.scopes[w].lock].pc)
    {
      InsideHolds(s, cfg, w);
    }
  }
}
