/** What an interruption while a workspace is being opened leaves behind: a lock nobody releases, or a
    preparation thread beside the next worker (application/adapters.py). */
module WorkspaceInterruptions {
  import opened Lifecycle
  import opened StoreModel
  import opened Workers
  import opened ProjectExecution
  import Engine
  import FileLock

  // ---------------------------------------------------------------- a lock that is left behind

  /** A held lock whose worker was interrupted inside the awaited acquire. */
  predicate Leaked(s: Site, l: nat) {
    l in s.abandoned && l in s.locks.locks && s.locks.locks[l].pc.Held?
  }

  predicate ProcessLives(actions: seq<Action>) {
    forall i :: 0 <= i < |actions| ==> !actions[i].ProcessDies?
  }

  lemma StepKeepsLeak(s: Site, cfg: Setting, act: Action, l: nat)
    requires AbandonedFit(s) && Leaked(s, l) && Enabled(s, cfg, act) && !act.ProcessDies?
    ensures Leaked(Step(s, cfg, act), l)
  {
    hide FileLock.Next, Engine.Step, Engine.Enabled;
  }

  lemma {:induction false} RunKeepsLeak(s: Site, cfg: Setting, actions: seq<Action>, l: nat)
    requires Inv(s, cfg) && Leaked(s, l) && Legal(s, cfg, actions) && ProcessLives(actions)
    ensures Inv(Run(s, cfg, actions), cfg) && Leaked(Run(s, cfg, actions), l)
    decreases |actions|
  {
    hide HubFits, LockFits, ScopesFit, AllCleared, AllEnterOnce, AbandonedFit, Step, Enabled, Leaked;
    if actions != [] {
      StepKeepsInv(s, cfg, actions[0]);
      StepKeepsLeak(s, cfg, actions[0], l);
      assert forall i :: 0 <= i < |actions| - 1 ==> actions[1..][i] == actions[i + 1];
      RunKeepsLeak(Step(s, cfg, actions[0]), cfg, actions[1..], l);
    }
  }

  lemma LeakShutsOut(s: Site, cfg: Setting, l: nat)
    requires Inv(s, cfg) && Leaked(s, l)
    ensures forall w :: !Inside(s, cfg, w)
    ensures forall k :: k in s.locks.locks && FileLock.Holds(s.locks.locks[k].pc) ==> k == l
  {
    hide HubFits, LockFits, Inside, BlocksFit;
    forall w ensures !Inside(s, cfg, w) {
      if Inside(s, cfg, w) {
        InsideHolds(s, cfg, w);
        HoldersMeet(s.locks, cfg.lock, l, s.scopes[w].lock);
      }
    }
    forall k | k in s.locks.locks && FileLock.Holds(s.locks.locks[k].pc) ensures k == l {
      HoldersMeet(s.locks, cfg.lock, l, k);
    }
  }

  /** While the process lives, a leaked lock is never given up: whatever happens, no worker of the project
      comes inside, and no other instance, in this process or another, holds the lock. */
  lemma LeakedLockBlocks(s: Site, cfg: Setting, actions: seq<Action>, l: nat)
    requires Inv(s, cfg) && Leaked(s, l) && Legal(s, cfg, actions) && ProcessLives(actions)
    ensures var e := Run(s, cfg, actions);
            && Leaked(e, l) && (forall w :: !Inside(e, cfg, w))
            && (forall k :: k in e.locks.locks && FileLock.Holds(e.locks.locks[k].pc) ==> k == l)
  {
    hide Inv, Leaked, Run, Legal, Inside;
    RunKeepsLeak(s, cfg, actions, l);
    LeakShutsOut(Run(s, cfg, actions), cfg, l);
  }

  // ---------------------------------------------------------------- runs of one lock instance

  lemma Then(s: Site, cfg: Setting, act: Action, rest: seq<Action>)
    requires Enabled(s, cfg, act) && Legal(Step(s, cfg, act), cfg, rest)
    ensures Legal(s, cfg, [act] + rest) && Run(s, cfg, [act] + rest) == Run(Step(s, cfg, act), cfg, rest)
  {
    hide Step, Enabled;
    assert ([act] + rest)[1..] == rest;
  }

  lemma NoRun(s: Site, cfg: Setting)
    ensures Legal(s, cfg, []) && Run(s, cfg, []) == s
  {
  }

  /** Nothing but this lock instance and the disk differ. */
  ghost predicate OnlyLock(s: Site, e: Site, l: nat) {
    && e == s.(locks := e.locks) && e.locks.dead == s.locks.dead
    && l in e.locks.locks && e.locks.locks == s.locks.locks[l := e.locks.locks[l]]
  }

  function Smoothly(lock: FileLock.Lock, inode: FileLock.Inode): FileLock.Moment {
    FileLock.Moment(0, lock.clock, inode, "", false, false, true)
  }

  /** Nobody waits for this held lock, so that it may be released. */
  ghost predicate MayRelease(s: Site, l: nat) {
    l !in s.abandoned && forall w :: Awaits(s, w) ==> s.scopes[w].lock != l
  }

  function StepsToRelease(pc: FileLock.Pc): nat {
    match pc
    case Held(_, _) => 4
    case Checking(_, _) => 3
    case CheckLoading(_, _, _, _) => 2
    case _ => 1
  }

  lemma ReleaseStep(s: Site, cfg: Setting, l: nat, inode: FileLock.Inode)
    requires LockFits(s.locks, cfg.lock) && l in s.locks.locks && inode !in s.locks.disk.files
    requires FileLock.Holds(s.locks.locks[l].pc) && MayRelease(s, l)
    ensures var act := LockStep(l, Smoothly(s.locks.locks[l], inode)); var e := Step(s, cfg, act);
            && Enabled(s, cfg, act) && OnlyLock(s, e, l) && LockFits(e.locks, cfg.lock)
            && e.locks.disk.files == s.locks.disk.files && MayRelease(e, l)
            && (if s.locks.locks[l].pc.Releasing? then e.locks.locks[l].pc.Over? && e.locks.disk.path.None?
                else FileLock.Holds(e.locks.locks[l].pc)
                     && StepsToRelease(e.locks.locks[l].pc) < StepsToRelease(s.locks.locks[l].pc))
  {
    hide FileLock.Inv, FileLock.Exclusive;
    var m := Smoothly(s.locks.locks[l], inode);
    LocksMove(s.locks, cfg.lock, FileLock.Advance(l, m));
    FileLock.ReleaseGoesThrough(s.locks, cfg.lock, l, m);
    hide LockFits;
  }

  lemma OnlyLockTwice(s: Site, m: Site, e: Site, l: nat)
    requires OnlyLock(s, m, l) && OnlyLock(m, e, l)
    ensures OnlyLock(s, e, l)
  {
  }

  /** Left alone, a holder gets through its release. */
  lemma {:induction false} ReleaseRuns(s: Site, cfg: Setting, l: nat, inode: FileLock.Inode) returns (actions: seq<Action>)
    requires LockFits(s.locks, cfg.lock) && l in s.locks.locks && inode !in s.locks.disk.files
    requires FileLock.Holds(s.locks.locks[l].pc) && MayRelease(s, l)
    ensures Legal(s, cfg, actions) && ProcessLives(actions)
    ensures var e := Run(s, cfg, actions); OnlyLock(s, e, l) && e.locks.locks[l].pc.Over? && e.locks.disk.path.None?
    decreases StepsToRelease(s.locks.locks[l].pc)
  {
    var act := LockStep(l, Smoothly(s.locks.locks[l], inode));
    var next := Step(s, cfg, act);
    ReleaseStep(s, cfg, l, inode);
    assert l in next.locks.locks;
    hide LockFits, Step, Enabled, MayRelease, OnlyLock, Legal, Run, Smoothly, StepsToRelease, FileLock.Holds;
    var rest := [];
    if s.locks.locks[l].pc.Releasing? {
      NoRun(next, cfg);
    } else {
      rest := ReleaseRuns(next, cfg, l, inode);
      OnlyLockTwice(s, next, Run(next, cfg, rest), l);
    }
    Then(s, cfg, act, rest);
    actions := [act] + rest;
  }

  lemma {:induction false} RunInTwo(s: Site, cfg: Setting, first: seq<Action>, second: seq<Action>)
    requires Legal(s, cfg, first) && Legal(Run(s, cfg, first), cfg, second)
    ensures Legal(s, cfg, first + second)
    ensures Run(s, cfg, first + second) == Run(Run(s, cfg, first), cfg, second)
    decreases |first|
  {
    hide Step, Enabled;
    if first == [] {
      assert first + second == second;
    } else {
      assert (first + second)[1..] == first[1..] + second;
      RunInTwo(Step(s, cfg, first[0]), cfg, first[1..], second);
    }
  }

  lemma {:induction false} FreshNat(keys: set<nat>) returns (n: nat)
    ensures forall k :: k in keys ==> k < n
    decreases keys
  {
    n := 0;
    if keys != {} {
      var k :| k in keys;
      var m := FreshNat(keys - {k});
      assert forall j :: j in keys ==> j == k || j in keys - {k};
      n := if m <= k then k + 1 else m;
    }
  }

  // ---------------------------------------------------------------- when a lock is left behind

  /** A run in which the process lives on and the instance ends its work. */
  ghost predicate GivesUp(s: Site, cfg: Setting, actions: seq<Action>, l: nat) {
    && Legal(s, cfg, actions) && ProcessLives(actions)
    && l in Run(s, cfg, actions).locks.locks && Run(s, cfg, actions).locks.locks[l].pc.Over?
  }

  /** Some run in which the process lives on ends the work of the instance. */
  ghost predicate MayEnd(s: Site, cfg: Setting, l: nat) {
    exists actions :: GivesUp(s, cfg, actions, l)
  }

  function Unfinished(s: Site, w: nat): seq<Action> {
    if w in s.scopes && w in s.hub.workers && s.hub.workers[w].pc.Open? && !s.scopes[w].acquired
    then [Acquired(w), Hub(Engine.Kill(w))] else [Hub(Engine.Kill(w))]
  }

  /** The worker that waits for the lock may be interrupted after its acquire was seen to return. */
  lemma WaiterGoes(s: Site, cfg: Setting, w: nat)
    requires BlocksFit(s, cfg) && Awaits(s, w) && s.locks.locks[s.scopes[w].lock].pc.Held?
    ensures Legal(s, cfg, Unfinished(s, w))
    ensures var e := Run(s, cfg, Unfinished(s, w));
            e.locks == s.locks && e.abandoned == s.abandoned && e.scopes == s.scopes - {w}
  {
    assert ScopeFits(s, w);
    var kill := Hub(Engine.Kill(w));
    assert [kill] + [] == [kill];
    if s.hub.workers[w].pc.Open? && !s.scopes[w].acquired {
      var next := Step(s, cfg, Acquired(w));
      Then(next, cfg, kill, []);
      Then(s, cfg, Acquired(w), [kill]);
      assert [Acquired(w)] + [kill] == Unfinished(s, w);
    } else {
      Then(s, cfg, kill, []);
    }
  }

  /** While the process lives, a lock it holds can still be given up exactly when its worker was not
      interrupted inside the awaited acquire. */
  lemma LeftBehindExactly(s: Site, cfg: Setting, l: nat)
    requires Inv(s, cfg) && OwnLock(s, l) && s.locks.locks[l].pc.Held?
    ensures MayEnd(s, cfg, l) <==> l !in s.abandoned
  {
    hide HubFits, LockFits, BlocksFit, Run, Legal;
    if l in s.abandoned {
      forall actions ensures !GivesUp(s, cfg, actions, l) {
        if GivesUp(s, cfg, actions, l) {
          RunKeepsLeak(s, cfg, actions, l);
        }
      }
    } else {
      var actions := WayOut(s, cfg, l);
      assert GivesUp(s, cfg, actions, l);
    }
  }

  lemma WayOut(s: Site, cfg: Setting, l: nat) returns (actions: seq<Action>)
    requires Inv(s, cfg) && OwnLock(s, l) && s.locks.locks[l].pc.Held? && l !in s.abandoned
    ensures GivesUp(s, cfg, actions, l)
  {
    var inode := FreshNat(s.locks.disk.files.Keys);
    hide HubFits, LockFits, AllCleared, AllEnterOnce, AbandonedFit, Legal, Run;
    if w :| Awaits(s, w) && s.scopes[w].lock == l {
      WaiterGoes(s, cfg, w);
      var next := Run(s, cfg, Unfinished(s, w));
      var rest := ReleaseRuns(next, cfg, l, inode);
      RunInTwo(s, cfg, Unfinished(s, w), rest);
      actions := Unfinished(s, w) + rest;
    } else {
      actions := ReleaseRuns(s, cfg, l, inode);
    }
  }

  lemma KillAbandons(s: Site, cfg: Setting, w: nat)
    requires BlocksFit(s, cfg) && OpensHere(s, cfg, w) && w in s.scopes
    ensures var e := Step(s, cfg, Hub(Engine.Kill(w)));
            && Enabled(s, cfg, Hub(Engine.Kill(w))) && e.locks == s.locks && OwnLock(e, s.scopes[w].lock)
            && (s.scopes[w].lock in e.abandoned <==> !s.scopes[w].acquired)
  {
    assert ScopeFits(s, w);
    hide Engine.Step;
  }

  /** A worker interrupted while it opens the workspace, with the lock taken, leaves the lock behind for as
      long as the process lives exactly when its acquire had not been seen to return. */
  lemma InterruptionLeavesTheLock(s: Site, cfg: Setting, w: nat)
    requires Inv(s, cfg) && OpensHere(s, cfg, w) && w in s.scopes && s.scopes[w].lock in s.locks.locks
    requires s.locks.locks[s.scopes[w].lock].pc.Held?
    ensures MayEnd(Step(s, cfg, Hub(Engine.Kill(w))), cfg, s.scopes[w].lock) <==> s.scopes[w].acquired
  {
    hide Step, Enabled, MayEnd, OpensHere, HubFits, LockFits, BlocksFit;
    KillAbandons(s, cfg, w);
    hide Inv;
    StepKeepsInv(s, cfg, Hub(Engine.Kill(w)));
    LeftBehindExactly(Step(s, cfg, Hub(Engine.Kill(w))), cfg, s.scopes[w].lock);
  }

  // ---------------------------------------------------------------- an acquire on a free lock path

  predicate Acquires(s: Site, l: nat, first: FileLock.Inode, second: FileLock.Inode) {
    && l in s.locks.locks && first != second && second !in s.locks.disk.files
    && (match s.locks.locks[l].pc
        case Idle => s.locks.disk.path.None? && first !in s.locks.disk.files
        case Creating => s.locks.disk.path.None? && first !in s.locks.disk.files
        case Writing(own, _) => own == first
        case Flushing(own, _) => true
        case _ => false)
  }

  function InodeAt(pc: FileLock.Pc, first: FileLock.Inode, second: FileLock.Inode): FileLock.Inode {
    if pc.Idle? || pc.Creating? then first else second
  }

  function StepsToAcquire(pc: FileLock.Pc): nat {
    match pc
    case Idle => 4
    case Creating => 3
    case Writing(_, _) => 2
    case _ => 1
  }

  lemma AcquireStep(s: Site, cfg: Setting, l: nat, first: FileLock.Inode, second: FileLock.Inode)
    requires Acquires(s, l, first, second)
    ensures var pc := s.locks.locks[l].pc;
            var act := LockStep(l, Smoothly(s.locks.locks[l], InodeAt(pc, first, second))); var e := Step(s, cfg, act);
            && Enabled(s, cfg, act) && OnlyLock(s, e, l)
            && (if pc.Flushing? then e.locks.locks[l].pc.Held?
                else Acquires(e, l, first, second) && StepsToAcquire(e.locks.locks[l].pc) < StepsToAcquire(pc))
  {
  }

  /** Left alone on a free lock path, an acquire succeeds. */
  lemma {:induction false} AcquireRuns(s: Site, cfg: Setting, l: nat, first: FileLock.Inode, second: FileLock.Inode)
      returns (actions: seq<Action>)
    requires Acquires(s, l, first, second)
    ensures Legal(s, cfg, actions) && ProcessLives(actions)
    ensures OnlyLock(s, Run(s, cfg, actions), l) && Run(s, cfg, actions).locks.locks[l].pc.Held?
    decreases StepsToAcquire(s.locks.locks[l].pc)
  {
    var act := LockStep(l, Smoothly(s.locks.locks[l], InodeAt(s.locks.locks[l].pc, first, second)));
    var next := Step(s, cfg, act);
    AcquireStep(s, cfg, l, first, second);
    hide Acquires, Step, Enabled, Smoothly, InodeAt, StepsToAcquire;
    var rest := [];
    if !next.locks.locks[l].pc.Held? {
      rest := AcquireRuns(next, cfg, l, first, second);
    }
    Then(s, cfg, act, rest);
    actions := [act] + rest;
  }

  /** A lock instance that has just entered on a free lock path. */
  lemma EnteredRuns(s: Site, cfg: Setting, l: nat) returns (actions: seq<Action>)
    requires l in s.locks.locks && s.locks.locks[l].pc.Idle? && s.locks.disk.path.None?
    ensures Legal(s, cfg, actions) && ProcessLives(actions)
    ensures OnlyLock(s, Run(s, cfg, actions), l) && Run(s, cfg, actions).locks.locks[l].pc.Held?
  {
    var inode := FreshNat(s.locks.disk.files.Keys);
    hide Run, Legal, OnlyLock;
    actions := AcquireRuns(s, cfg, l, inode, inode + 1);
  }

  predicate MayEnter(s: Site, cfg: Setting, w: nat, l: nat) {
    && OpensHere(s, cfg, w) && w !in s.scopes && l !in s.locks.locks
    && s.pid !in s.locks.dead && s.locks.disk.path.None?
  }

  /** Any worker that comes to open the workspace while the lock is free may be interrupted so that the
      lock leaks. */
  lemma LeakIsReachable(s: Site, cfg: Setting, w: nat, l: nat) returns (actions: seq<Action>)
    requires MayEnter(s, cfg, w, l)
    ensures Legal(s, cfg, actions) && ProcessLives(actions) && Leaked(Run(s, cfg, actions), l)
  {
    var entered := Step(s, cfg, Enter(w, l));
    var interrupted := Step(entered, cfg, Hub(Engine.Kill(w)));
    assert l in interrupted.abandoned && interrupted.locks == entered.locks;
    assert Enabled(s, cfg, Enter(w, l)) && Enabled(entered, cfg, Hub(Engine.Kill(w)));
    hide Step, Enabled, Run, Legal;
    var rest := EnteredRuns(interrupted, cfg, l);
    Then(entered, cfg, Hub(Engine.Kill(w)), rest);
    Then(s, cfg, Enter(w, l), [Hub(Engine.Kill(w))] + rest);
    actions := [Enter(w, l)] + ([Hub(Engine.Kill(w))] + rest);
  }

  // ---------------------------------------------------------------- preparations that overlap

  /** Something of this lock instance's block is at work in the project's workspace: the thread that
      prepares it, though its worker may be gone, or a worker inside. */
  ghost predicate AtWork(s: Site, cfg: Setting, l: nat) {
    || l in s.orphans
    || (exists w :: w in s.scopes && s.scopes[w].lock == l && (s.scopes[w].preparing || Inside(s, cfg, w)))
  }

  predicate IsInterruptedPreparation(s: Site, act: Action) {
    act.Hub? && act.a.Kill? && act.a.worker in s.scopes && s.scopes[act.a.worker].preparing
  }

  /** No interruption falls inside a preparation. */
  ghost predicate PreparationsEnd(s: Site, cfg: Setting, actions: seq<Action>)
    decreases |actions|
  {
    actions == [] ||
    (!IsInterruptedPreparation(s, actions[0]) && PreparationsEnd(Step(s, cfg, actions[0]), cfg, actions[1..]))
  }

  lemma NoNewOrphan(s: Site, cfg: Setting, act: Action)
    requires s.orphans == {} && !IsInterruptedPreparation(s, act)
    ensures Step(s, cfg, act).orphans == {}
  {
    hide Engine.Step, FileLock.Step;
  }

  lemma {:induction false} NoOrphans(s: Site, cfg: Setting, actions: seq<Action>)
    requires s.orphans == {} && PreparationsEnd(s, cfg, actions)
    ensures Run(s, cfg, actions).orphans == {}
    decreases |actions|
  {
    hide Step;
    if actions != [] {
      NoNewOrphan(s, cfg, actions[0]);
      NoOrphans(Step(s, cfg, actions[0]), cfg, actions[1..]);
    }
  }

  lemma AtWorkHolds(s: Site, cfg: Setting, l: nat)
    requires BlocksFit(s, cfg) && s.orphans == {} && AtWork(s, cfg, l)
    ensures l in s.locks.locks && FileLock.Holds(s.locks.locks[l].pc)
  {
    var w :| w in s.scopes && s.scopes[w].lock == l && (s.scopes[w].preparing || Inside(s, cfg, w));
    assert ScopeFits(s, w) && (Inside(s, cfg, w) ==> Cleared(s, w));
  }

  /** Over every run in which no interruption falls inside a preparation, at most one block of the project is
      at work: no preparation beside another, and none beside a worker that is inside. */
  lemma OneBlockAtWork(developer: Chooser, teams: map<Identifier, Identifier>, pid: FileLock.Pid,
      disk: FileLock.Disk, cfg: Setting, actions: seq<Action>)
    requires FileLock.ValidDisk(disk) && Legal(Begin(developer, teams, pid, disk), cfg, actions)
    requires PreparationsEnd(Begin(developer, teams, pid, disk), cfg, actions)
    ensures var s := Run(Begin(developer, teams, pid, disk), cfg, actions);
            forall k, l :: AtWork(s, cfg, k) && AtWork(s, cfg, l) ==> k == l
  {
    var begin := Begin(developer, teams, pid, disk);
    var s := Run(begin, cfg, actions);
    BeginFits(developer, teams, pid, disk, cfg);
    RunKeepsInv(begin, cfg, actions);
    NoOrphans(begin, cfg, actions);
    hide Run, Legal, HubFits, LockFits, BlocksFit, AtWork, PreparationsEnd;
    forall k, l | AtWork(s, cfg, k) && AtWork(s, cfg, l) ensures k == l {
      AtWorkHolds(s, cfg, k);
      AtWorkHolds(s, cfg, l);
      HoldersMeet(s.locks, cfg.lock, k, l);
    }
  }

  /** A block that finds the lock free gets its worker inside. */
  lemma BlockRuns(s: Site, cfg: Setting, w: nat, l: nat, c: Choice) returns (actions: seq<Action>)
    requires MayEnter(s, cfg, w, l) && c.preparation.Ready? && Lookup(s.hub.db.events, c.eventId).None?
    ensures Legal(s, cfg, actions) && ProcessLives(actions)
    ensures var e := Run(s, cfg, actions); Inside(e, cfg, w) && AtWork(e, cfg, l) && e.orphans == s.orphans
  {
    var entered := Step(s, cfg, Enter(w, l));
    var rest := EnteredRuns(entered, cfg, l);
    var held := Run(entered, cfg, rest);
    var tail := PreparedRuns(held, cfg, w, c);
    assert Enabled(s, cfg, Enter(w, l));
    hide Step, Enabled, Run, Legal;
    RunInTwo(entered, cfg, rest, tail);
    Then(s, cfg, Enter(w, l), rest + tail);
    actions := [Enter(w, l)] + (rest + tail);
  }

  lemma PreparedRuns(s: Site, cfg: Setting, w: nat, c: Choice) returns (actions: seq<Action>)
    requires OpensHere(s, cfg, w) && w in s.scopes && s.scopes[w] == Scope(s.scopes[w].lock, false, false)
    requires s.scopes[w].lock in s.locks.locks && s.locks.locks[s.scopes[w].lock].pc.Held?
    requires c.preparation.Ready? && Lookup(s.hub.db.events, c.eventId).None?
    ensures Legal(s, cfg, actions) && ProcessLives(actions)
    ensures var e := Run(s, cfg, actions);
            Inside(e, cfg, w) && AtWork(e, cfg, s.scopes[w].lock) && e.orphans == s.orphans
  {
    var acquired := Step(s, cfg, Acquired(w));
    var prepared := Step(acquired, cfg, Prepared(w));
    var work := Hub(Engine.Work(w, c));
    var e := Step(prepared, cfg, work);
    assert Enabled(s, cfg, Acquired(w)) && Enabled(acquired, cfg, Prepared(w)) && Enabled(prepared, cfg, work);
    assert Inside(e, cfg, w) && AtWork(e, cfg, s.scopes[w].lock) && e.orphans == s.orphans;
    hide Step, Enabled, AtWork, Inside, OpensHere;
    Then(prepared, cfg, work, []);
    Then(acquired, cfg, Prepared(w), [work]);
    Then(s, cfg, Acquired(w), [Prepared(w), work]);
    assert [Prepared(w)] + [work] == [Prepared(w), work] && [work] + [] == [work];
    actions := [Acquired(w)] + [Prepared(w), work];
  }

  lemma OwnersLive(s: Site, cfg: Setting, l: nat)
    requires LockFits(s.locks, cfg.lock) && OwnLock(s, l)
    ensures s.pid !in s.locks.dead
  {
    assert FileLock.LockFits(s.locks.disk, cfg.lock, s.locks.dead, s.locks.locks[l]);
    hide FileLock.Exclusive, FileLock.WaitFits;
  }

  lemma PreparerGoes(s: Site, cfg: Setting, v: nat)
    requires BlocksFit(s, cfg) && v in s.scopes && s.scopes[v].preparing
    ensures var e := Step(s, cfg, Hub(Engine.Kill(v)));
            && Enabled(s, cfg, Hub(Engine.Kill(v))) && e.hub == s.hub.(workers := s.hub.workers - {v})
            && e.locks == s.locks && e.pid == s.pid && e.scopes == s.scopes - {v}
            && s.scopes[v].lock in e.orphans && OwnLock(s, s.scopes[v].lock)
            && s.locks.locks[s.scopes[v].lock].pc.Held? && MayRelease(e, s.scopes[v].lock)
  {
    assert ScopeFits(s, v);
  }

  lemma EntersFreed(s: Site, cfg: Setting, v: nat, w: nat, l: nat, k: nat, interrupted: Site, e: Site)
    requires OpensHere(s, cfg, w) && v != w && w !in s.scopes && l !in s.locks.locks && k in s.locks.locks
    requires interrupted.hub == s.hub.(workers := s.hub.workers - {v}) && interrupted.locks == s.locks
    requires interrupted.pid == s.pid && interrupted.scopes == s.scopes - {v} && s.pid !in s.locks.dead
    requires OnlyLock(interrupted, e, k) && e.locks.disk.path.None?
    ensures MayEnter(e, cfg, w, l) && e.orphans == interrupted.orphans && e.hub.db == s.hub.db
  {
  }

  /** The interrupted worker's lock is released while its preparation thread goes on. */
  lemma PreparerLeaves(s: Site, cfg: Setting, v: nat, w: nat, l: nat) returns (actions: seq<Action>)
    requires Inv(s, cfg) && v != w && v in s.scopes && s.scopes[v].preparing
    requires OpensHere(s, cfg, w) && w !in s.scopes && l !in s.locks.locks
    ensures Legal(Step(s, cfg, Hub(Engine.Kill(v))), cfg, actions) && ProcessLives(actions)
    ensures var e := Run(Step(s, cfg, Hub(Engine.Kill(v))), cfg, actions);
            MayEnter(e, cfg, w, l) && s.scopes[v].lock in e.orphans && e.hub.db == s.hub.db
  {
    var interrupted, k := Step(s, cfg, Hub(Engine.Kill(v))), s.scopes[v].lock;
    PreparerGoes(s, cfg, v);
    OwnersLive(s, cfg, k);
    var inode := FreshNat(interrupted.locks.disk.files.Keys);
    hide LockFits, BlocksFit, HubFits, Step, Enabled, Run, Legal, MayRelease, MayEnter, OpensHere, OnlyLock;
    actions := ReleaseRuns(interrupted, cfg, k, inode);
    EntersFreed(s, cfg, v, w, l, k, interrupted, Run(interrupted, cfg, actions));
  }

  lemma OrphanWorks(s: Site, cfg: Setting, l: nat)
    requires l in s.orphans
    ensures AtWork(s, cfg, l)
  {
  }

  /** A preparation that is interrupted while another worker comes to open the workspace: its thread may go
      on while that worker is inside. */
  lemma InterruptedPreparationOverlaps(s: Site, cfg: Setting, v: nat, w: nat, l: nat, c: Choice)
      returns (actions: seq<Action>)
    requires Inv(s, cfg) && v != w && v in s.scopes && s.scopes[v].preparing
    requires OpensHere(s, cfg, w) && w !in s.scopes && l !in s.locks.locks
    requires c.preparation.Ready? && Lookup(s.hub.db.events, c.eventId).None?
    ensures Legal(s, cfg, [Hub(Engine.Kill(v))] + actions) && ProcessLives(actions)
    ensures var e := Run(s, cfg, [Hub(Engine.Kill(v))] + actions);
            Inside(e, cfg, w) && AtWork(e, cfg, l) && AtWork(e, cfg, s.scopes[v].lock) && s.scopes[v].lock != l
  {
    hide Step, Enabled, Run, Legal, MayEnter, OpensHere, MayRelease, Inside, AtWork, HubFits, LockFits, BlocksFit;
    var kill := Hub(Engine.Kill(v));
    var interrupted := Step(s, cfg, kill);
    PreparerGoes(s, cfg, v);
    hide Inv;
    var first := PreparerLeaves(s, cfg, v, w, l);
    var free := Run(interrupted, cfg, first);
    var second := BlockRuns(free, cfg, w, l, c);
    RunInTwo(interrupted, cfg, first, second);
    OrphanWorks(Run(free, cfg, second), cfg, s.scopes[v].lock);
    Then(s, cfg, kill, first + second);
    actions := first + second;
  }
}
