/** One exclusive lock file per project, shared by several processes (locks/file_lock.py). */
module FileLock {
  import opened Wrappers

  type Pid = nat
  type Inode = nat
  type Time = int

  datatype Metadata = Metadata(project: string, task: string, createdAt: Time, pid: Pid, token: string)

  /** Anything the metadata parser refuses is malformed: an empty or half-written file, foreign content. */
  datatype Content = Malformed | Recorded(metadata: Metadata)

  /** Every write changes the version; inode and version together are the file's signature. */
  datatype File = File(version: nat, content: Content)

  /** All files ever created (an unlinked one can still be read through an open descriptor), and which
      of them is at the lock path. */
  datatype Disk = Disk(files: map<Inode, File>, path: Option<Inode>)

  datatype Settings = Settings(project: string, waitTimeout: nat, pollInterval: nat, staleAfter: nat)

  datatype Outcome = TimedOut | Failed | Released

  datatype Pc =
    | Idle
    | Creating
    | Writing(own: Inode, metadata: Metadata)
    | Flushing(own: Inode, metadata: Metadata)
    | Inspecting
    | Loading(at: Inode, version: nat)
    | Judging(seen: Metadata)
    | Rereading(seen: Metadata, judgedAt: Time)
    | Reloading(seen: Metadata, judgedAt: Time, at: Inode, version: nat)
    | Recovering(seen: Metadata, judgedAt: Time, at: Inode, version: nat)
    | Waiting
    | Held(own: Inode, metadata: Metadata)
    | Checking(own: Inode, metadata: Metadata)
    | CheckLoading(own: Inode, metadata: Metadata, at: Inode, version: nat)
    | Releasing(own: Inode, metadata: Metadata, at: Inode, version: nat)
    | Over(outcome: Outcome)

  /** `clock` is the earliest reading the instance's monotonic clock may give next; `slept` and `naps`
      count the sleeping it asked for; `own` in the states above is history only. */
  datatype Lock = Lock(
    pid: Pid, task: string, pc: Pc, started: Time, clock: Time, slept: int, naps: nat, recovered: Option<Metadata>)

  /** What the outside decides at one step. A failed write may come at any point of the writing. */
  datatype Moment = Moment(
    now: Time, clock: Time, inode: Inode, token: string, partial: bool, ioFails: bool, alive: bool)

  predicate ValidDisk(d: Disk) {
    d.path.Some? ==> d.path.value in d.files
  }

  function Put(d: Disk, i: Inode, content: Content): Disk {
    d.(files := d.files[i := File(VersionOf(d, i) + 1, content)])
  }

  predicate Unchanged(d: Disk, at: Inode, version: nat) {
    d.path == Some(at) && at in d.files && d.files[at].version == version
  }

  function ContentOf(d: Disk, at: Inode): Content {
    if at in d.files then d.files[at].content else Malformed
  }

  function VersionOf(d: Disk, at: Inode): nat {
    if at in d.files then d.files[at].version else 0
  }

  predicate Stale(cfg: Settings, m: Metadata, now: Time, alive: bool) {
    now - m.createdAt >= cfg.staleAfter && !alive
  }

  function Min(a: int, b: int): int {
    if a < b then a else b
  }

  function Deadline(cfg: Settings, l: Lock): Time {
    l.started + cfg.waitTimeout
  }

  /** One step of one lock instance. */
  function Next(d: Disk, cfg: Settings, l: Lock, m: Moment): (Disk, Lock) {
    match l.pc
    case Idle => (d, l.(pc := Creating, started := m.clock, clock := m.clock, slept := 0, naps := 0, recovered := None))
    case Creating =>
      if m.ioFails then (d, l.(pc := Over(Failed)))
      else if d.path.Some? then (d, l.(pc := Inspecting))
      else
        var metadata := Metadata(cfg.project, l.task, m.now, l.pid, m.token);
        (Disk(d.files[m.inode := File(0, Malformed)], Some(m.inode)), l.(pc := Writing(m.inode, metadata)))
    case Writing(own, metadata) =>
      if m.ioFails then (d.(path := None), l.(pc := Over(Failed)))
      else if m.partial then (Put(d, own, Malformed), l)
      else (Put(d, own, Recorded(metadata)), l.(pc := Flushing(own, metadata)))
    case Flushing(own, metadata) =>
      if m.ioFails then (d.(path := None), l.(pc := Over(Failed)))
      else (d, l.(pc := Held(own, metadata)))
    case Inspecting =>
      if m.ioFails || d.path.None? then (d, l.(pc := Waiting))
      else (d, l.(pc := Loading(d.path.value, VersionOf(d, d.path.value))))
    case Loading(at, version) =>
      (match ContentOf(d, at)
       case Malformed => (d, l.(pc := Waiting))
       case Recorded(seen) => (d, l.(pc := if m.ioFails then Waiting else Judging(seen))))
    case Judging(seen) =>
      (d, l.(pc := if Stale(cfg, seen, m.now, m.alive) then Rereading(seen, m.now) else Waiting))
    case Rereading(seen, judgedAt) =>
      if m.ioFails || d.path.None? then (d, l.(pc := Waiting))
      else (d, l.(pc := Reloading(seen, judgedAt, d.path.value, VersionOf(d, d.path.value))))
    case Reloading(seen, judgedAt, at, version) =>
      (d, l.(pc := if !m.ioFails && ContentOf(d, at) == Recorded(seen) then Recovering(seen, judgedAt, at, version) else Waiting))
    case Recovering(seen, _, at, version) =>
      if !Unchanged(d, at, version) then (d, l.(pc := Waiting))
      else if m.ioFails then (d, l.(pc := Over(Failed)))
      else (d.(path := None), l.(pc := Creating, recovered := Some(seen)))
    case Waiting =>
      var remaining := Deadline(cfg, l) - m.clock;
      if remaining <= 0 then (d, l.(pc := Over(TimedOut), clock := m.clock))
      else
        var nap := Min(cfg.pollInterval, remaining);
        (d, l.(pc := Creating, clock := m.clock + nap, slept := l.slept + nap, naps := l.naps + 1))
    case Held(own, metadata) => (d, l.(pc := Checking(own, metadata)))
    case Checking(own, metadata) =>
      if m.ioFails || d.path.None? then (d, l.(pc := Held(own, metadata)))
      else (d, l.(pc := CheckLoading(own, metadata, d.path.value, VersionOf(d, d.path.value))))
    case CheckLoading(own, metadata, at, version) =>
      (match ContentOf(d, at)
       case Malformed => (d, l.(pc := Held(own, metadata)))
       case Recorded(found) =>
         (d, l.(pc := if !m.ioFails && found.token == metadata.token then Releasing(own, metadata, at, version) else Held(own, metadata))))
    case Releasing(own, metadata, at, version) =>
      if !Unchanged(d, at, version) || m.ioFails then (d, l.(pc := Held(own, metadata)))
      else (d.(path := None), l.(pc := Over(Released)))
    case Over(_) => (d, l)
  }

  // ---------------------------------------------------------------- several processes

  datatype State = State(disk: Disk, locks: map<nat, Lock>, dead: set<Pid>)

  datatype Action =
    | Open(lock: nat, pid: Pid, task: string)
    | Advance(lock: nat, m: Moment)
    | Die(pid: Pid)
    | Meddle(disk: Disk)

  /** Whatever an operator does by hand, a signature still stands for one content. */
  predicate KeepsSignatures(d: Disk, e: Disk) {
    forall i :: i in d.files ==>
      && i in e.files && d.files[i].version <= e.files[i].version
      && (d.files[i].version == e.files[i].version ==> e.files[i].content == d.files[i].content)
  }

  /** New files have new inodes, the clock does not go back, and the probe never denies a live owner. */
  predicate Enabled(s: State, a: Action) {
    match a
    case Open(l, pid, _) => l !in s.locks && pid !in s.dead
    case Advance(l, m) =>
      && l in s.locks && m.inode !in s.disk.files && s.locks[l].clock <= m.clock
      && (s.locks[l].pc.Judging? && !m.alive ==> s.locks[l].pc.seen.pid in s.dead)
    case Die(_) => true
    case Meddle(disk) => ValidDisk(disk) && KeepsSignatures(s.disk, disk)
  }

  function Step(s: State, cfg: Settings, a: Action): State {
    match a
    case Open(l, pid, task) => s.(locks := s.locks[l := Lock(pid, task, Idle, 0, 0, 0, 0, None)])
    case Advance(l, m) =>
      if l !in s.locks then s
      else
        var n := Next(s.disk, cfg, s.locks[l], m);
        s.(disk := n.0, locks := s.locks[l := n.1])
    case Die(pid) => State(s.disk, map l | l in s.locks && s.locks[l].pid != pid :: s.locks[l], s.dead + {pid})
    case Meddle(disk) => s.(disk := disk)
  }

  function Run(s: State, cfg: Settings, actions: seq<Action>): State
    decreases |actions|
  {
    if actions == [] then s else Run(Step(s, cfg, actions[0]), cfg, actions[1..])
  }

  predicate Legal(s: State, cfg: Settings, actions: seq<Action>)
    decreases |actions|
  {
    actions == [] || (Enabled(s, actions[0]) && Legal(Step(s, cfg, actions[0]), cfg, actions[1..]))
  }

  /** Nobody edits the lock directory by hand. */
  predicate Unattended(actions: seq<Action>) {
    forall i :: 0 <= i < |actions| ==> !actions[i].Meddle?
  }

  function Start(disk: Disk): State {
    State(disk, map[], {})
  }

  // ---------------------------------------------------------------- what a lock instance knows

  /** The version is one the file has had. */
  predicate Read(d: Disk, at: Inode, version: nat) {
    at in d.files && version <= d.files[at].version
  }

  /** While the file still has that version, this metadata is its content. */
  predicate ReadAs(d: Disk, at: Inode, version: nat, found: Metadata) {
    Read(d, at, version) && (d.files[at].version == version ==> d.files[at].content == Recorded(found))
  }

  predicate TokenReadAs(d: Disk, at: Inode, version: nat, token: string) {
    && Read(d, at, version)
    && (d.files[at].version == version ==>
          d.files[at].content.Recorded? && d.files[at].content.metadata.token == token)
  }

  predicate Judged(cfg: Settings, dead: set<Pid>, seen: Metadata, judgedAt: Time) {
    seen.pid in dead && judgedAt - seen.createdAt >= cfg.staleAfter
  }

  /** All sleeping so far fits the timeout, and only the last nap may have been cut short. */
  predicate WaitFits(cfg: Settings, l: Lock) {
    && 0 <= l.slept <= l.clock - l.started && l.slept <= cfg.waitTimeout
    && (l.naps * cfg.pollInterval == l.slept || Deadline(cfg, l) <= l.clock)
    && (l.naps == 0 || (l.naps - 1) * cfg.pollInterval < cfg.waitTimeout)
  }

  predicate LockFits(d: Disk, cfg: Settings, dead: set<Pid>, l: Lock) {
    && l.pid !in dead && WaitFits(cfg, l)
    && (match l.pc
        case Writing(own, _) => own in d.files
        case Loading(at, version) => Read(d, at, version)
        case Rereading(seen, judgedAt) => Judged(cfg, dead, seen, judgedAt)
        case Reloading(seen, judgedAt, at, version) => Judged(cfg, dead, seen, judgedAt) && Read(d, at, version)
        case Recovering(seen, judgedAt, at, version) => Judged(cfg, dead, seen, judgedAt) && ReadAs(d, at, version, seen)
        case CheckLoading(_, _, at, version) => Read(d, at, version)
        case Releasing(_, metadata, at, version) => TokenReadAs(d, at, version, metadata.token)
        case Over(outcome) => outcome.TimedOut? ==> Deadline(cfg, l) <= l.clock
        case _ => true)
  }

  predicate Inv(s: State, cfg: Settings) {
    ValidDisk(s.disk) && forall l :: l in s.locks ==> LockFits(s.disk, cfg, s.dead, s.locks[l])
  }

  lemma FitsLater(d: Disk, e: Disk, cfg: Settings, dead: set<Pid>, more: set<Pid>, l: Lock)
    requires LockFits(d, cfg, dead, l) && KeepsSignatures(d, e) && dead <= more && l.pid !in more
    ensures LockFits(e, cfg, more, l)
  {
    hide WaitFits;
  }

  lemma SignaturesKept(d: Disk, cfg: Settings, l: Lock, m: Moment)
    requires ValidDisk(d) && m.inode !in d.files && (l.pc.Writing? ==> l.pc.own in d.files)
    ensures KeepsSignatures(d, Next(d, cfg, l, m).0) && ValidDisk(Next(d, cfg, l, m).0)
  {
  }

  lemma NextWaits(d: Disk, cfg: Settings, l: Lock, m: Moment)
    requires WaitFits(cfg, l) && l.clock <= m.clock
    ensures WaitFits(cfg, Next(d, cfg, l, m).1)
  {
    if l.pc.Waiting? && l.naps * cfg.pollInterval == l.slept {
      assert (l.naps + 1) * cfg.pollInterval == l.slept + cfg.pollInterval;
    }
  }

  lemma NextFits(d: Disk, cfg: Settings, dead: set<Pid>, l: Lock, m: Moment)
    requires ValidDisk(d) && LockFits(d, cfg, dead, l) && m.inode !in d.files && l.clock <= m.clock
    requires l.pc.Judging? && !m.alive ==> l.pc.seen.pid in dead
    ensures LockFits(Next(d, cfg, l, m).0, cfg, dead, Next(d, cfg, l, m).1)
  {
    NextWaits(d, cfg, l, m);
    hide WaitFits;
  }

  lemma StepKeepsInv(s: State, cfg: Settings, a: Action)
    requires Inv(s, cfg) && Enabled(s, a)
    ensures Inv(Step(s, cfg, a), cfg)
  {
    hide LockFits, KeepsSignatures;
    match a
    case Advance(l, m) =>
      FitsKnown(s, cfg, l);
      SignaturesKept(s.disk, cfg, s.locks[l], m);
      NextFits(s.disk, cfg, s.dead, s.locks[l], m);
      hide Next;
      forall k | k in s.locks && k != l ensures LockFits(Step(s, cfg, a).disk, cfg, s.dead, s.locks[k]) {
        FitsKnown(s, cfg, k);
        FitsLater(s.disk, Step(s, cfg, a).disk, cfg, s.dead, s.dead, s.locks[k]);
      }
    case Open(l, pid, task) => NewLockFits(s.disk, cfg, s.dead, pid, task);
    case Die(pid) =>
      SameSignatures(s.disk);
      forall k | k in s.locks && s.locks[k].pid != pid ensures LockFits(s.disk, cfg, s.dead + {pid}, s.locks[k]) {
        FitsKnown(s, cfg, k);
        FitsLater(s.disk, s.disk, cfg, s.dead, s.dead + {pid}, s.locks[k]);
      }
    case Meddle(disk) =>
      forall k | k in s.locks ensures LockFits(disk, cfg, s.dead, s.locks[k]) {
        FitsKnown(s, cfg, k);
        FitsLater(s.disk, disk, cfg, s.dead, s.dead, s.locks[k]);
      }
  }

  lemma SameSignatures(d: Disk)
    ensures KeepsSignatures(d, d)
  {
  }

  lemma NewLockFits(d: Disk, cfg: Settings, dead: set<Pid>, pid: Pid, task: string)
    requires pid !in dead
    ensures LockFits(d, cfg, dead, Lock(pid, task, Idle, 0, 0, 0, 0, None))
  {
  }

  lemma FitsKnown(s: State, cfg: Settings, l: nat)
    requires Inv(s, cfg) && l in s.locks
    ensures s.locks[l].pid !in s.dead && WaitFits(cfg, s.locks[l])
    ensures s.locks[l].pc.Writing? ==> s.locks[l].pc.own in s.disk.files
    ensures LockFits(s.disk, cfg, s.dead, s.locks[l])
  {
    assert LockFits(s.disk, cfg, s.dead, s.locks[l]);
    hide WaitFits;
  }

  lemma {:induction false} RunKeepsInv(s: State, cfg: Settings, actions: seq<Action>)
    requires Inv(s, cfg) && Legal(s, cfg, actions)
    ensures Inv(Run(s, cfg, actions), cfg)
    decreases |actions|
  {
    hide Inv, Step, Enabled;
    if actions != [] {
      StepKeepsInv(s, cfg, actions[0]);
      RunKeepsInv(Step(s, cfg, actions[0]), cfg, actions[1..]);
    }
  }

  // ---------------------------------------------------------------- what is removed, and why

  /** The only ways an instance takes a file off the lock path: it cleans up its own failed write; it
      recovers a file that still holds the metadata of a dead owner, read twice and old enough when
      judged; it releases a file that still carries its own token. */
  predicate MayRemove(s: State, cfg: Settings, l: Lock, m: Moment)
    requires s.disk.path.Some?
  {
    var content := ContentOf(s.disk, s.disk.path.value);
    || ((l.pc.Writing? || l.pc.Flushing?) && m.ioFails)
    || (l.pc.Recovering? && content == Recorded(l.pc.seen) && Judged(cfg, s.dead, l.pc.seen, l.pc.judgedAt))
    || (l.pc.Releasing? && content.Recorded? && content.metadata.token == l.pc.metadata.token)
  }

  /** In every run, with any meddling: an instance takes a file off the lock path only in those ways. So
      recovery and release never remove a malformed, half-written or replaced file. */
  lemma RemovalsAreSafe(disk: Disk, cfg: Settings, actions: seq<Action>, l: nat, m: Moment)
    requires ValidDisk(disk) && Legal(Start(disk), cfg, actions)
    requires var s := Run(Start(disk), cfg, actions); Enabled(s, Advance(l, m)) && s.disk.path.Some?
    ensures var s := Run(Start(disk), cfg, actions);
            Step(s, cfg, Advance(l, m)).disk.path != s.disk.path ==>
              && Step(s, cfg, Advance(l, m)).disk.path.None?
              && MayRemove(s, cfg, s.locks[l], m)
  {
    RunKeepsInv(Start(disk), cfg, actions);
    var s := Run(Start(disk), cfg, actions);
    FitsKnown(s, cfg, l);
    hide Run, Legal, WaitFits;
  }

  /** In every run, however recoveries and meddling interleave: an instance has asked for at most the wait
      timeout of sleep, in fewer than timeout / interval + 1 naps, and gives up only at its deadline. */
  lemma WaitingIsBounded(disk: Disk, cfg: Settings, actions: seq<Action>, l: nat)
    requires ValidDisk(disk) && Legal(Start(disk), cfg, actions) && l in Run(Start(disk), cfg, actions).locks
    ensures var lock := Run(Start(disk), cfg, actions).locks[l];
            && 0 <= lock.slept <= cfg.waitTimeout
            && (lock.naps > 0 ==> (lock.naps - 1) * cfg.pollInterval < cfg.waitTimeout)
            && (lock.pc == Over(TimedOut) ==> lock.started + cfg.waitTimeout <= lock.clock)
  {
    RunKeepsInv(Start(disk), cfg, actions);
    FitsKnown(Run(Start(disk), cfg, actions), cfg, l);
    hide Run, Legal;
  }

  // ---------------------------------------------------------------- mutual exclusion

  /** The instance created the file and has not let it go. */
  predicate Owns(pc: Pc) {
    pc.Writing? || pc.Flushing? || pc.Held? || pc.Checking? || pc.CheckLoading? || pc.Releasing?
  }

  /** Acquire has returned to this instance and it has not released. */
  predicate Holds(pc: Pc) {
    pc.Held? || pc.Checking? || pc.CheckLoading? || pc.Releasing?
  }

  predicate OwnerFits(d: Disk, l: Lock) {
    Owns(l.pc) ==>
      && d.path == Some(l.pc.own) && l.pc.own in d.files && l.pc.metadata.pid == l.pid
      && d.files[l.pc.own].content == (if l.pc.Writing? then Malformed else Recorded(l.pc.metadata))
      && (l.pc.CheckLoading? || l.pc.Releasing? ==> l.pc.at == l.pc.own && l.pc.version == d.files[l.pc.own].version)
  }

  predicate BothOwn(a: Lock, b: Lock) {
    Owns(a.pc) && Owns(b.pc)
  }

  predicate Exclusive(s: State) {
    && (forall l :: l in s.locks ==> OwnerFits(s.disk, s.locks[l]))
    && (forall a, b :: a in s.locks && b in s.locks && BothOwn(s.locks[a], s.locks[b]) ==> a == b)
  }

  /** Nobody but its owner changes or removes a live owner's file: a recovery would need the owner dead, a
      release the same file held. */
  lemma OthersLeaveTheFile(d: Disk, cfg: Settings, dead: set<Pid>, l: Lock, m: Moment, owner: Lock)
    requires LockFits(d, cfg, dead, l) && OwnerFits(d, owner) && Owns(owner.pc) && owner.pid !in dead
    requires !Owns(l.pc) && m.inode !in d.files
    ensures Next(d, cfg, l, m).0 == d
    ensures !Owns(Next(d, cfg, l, m).1.pc)
  {
    hide WaitFits;
  }

  lemma OwnStep(d: Disk, cfg: Settings, dead: set<Pid>, l: Lock, m: Moment)
    requires LockFits(d, cfg, dead, l) && OwnerFits(d, l) && m.inode !in d.files
    ensures OwnerFits(Next(d, cfg, l, m).0, Next(d, cfg, l, m).1)
    ensures Owns(Next(d, cfg, l, m).1.pc) && !Owns(l.pc) ==> d.path.None?
  {
    hide WaitFits;
  }

  lemma AdvanceExclusive(s: State, cfg: Settings, l: nat, m: Moment)
    requires Inv(s, cfg) && Exclusive(s) && Enabled(s, Advance(l, m))
    ensures Exclusive(Step(s, cfg, Advance(l, m)))
  {
    var n := Next(s.disk, cfg, s.locks[l], m);
    FitsKnown(s, cfg, l);
    OwnStep(s.disk, cfg, s.dead, s.locks[l], m);
    hide Next, LockFits, OwnerFits, WaitFits;
    forall k | k in s.locks && k != l && Owns(s.locks[k].pc)
      ensures !Owns(n.1.pc) && OwnerFits(n.0, s.locks[k])
    {
      FitsKnown(s, cfg, k);
      assert !BothOwn(s.locks[k], s.locks[l]);
      OthersLeaveTheFile(s.disk, cfg, s.dead, s.locks[l], m, s.locks[k]);
    }
    forall k | k in s.locks && k != l ensures OwnerFits(n.0, s.locks[k]) {
      if !Owns(s.locks[k].pc) {
        NonOwnerFits(n.0, s.locks[k]);
      }
    }
    var after := s.locks[l := n.1];
    forall a, b | a in after && b in after && BothOwn(after[a], after[b]) ensures a == b {
      if a != l && b != l {
        assert BothOwn(s.locks[a], s.locks[b]);
      }
    }
  }

  lemma NonOwnerFits(d: Disk, l: Lock)
    requires !Owns(l.pc)
    ensures OwnerFits(d, l)
  {
  }

  lemma StepExclusive(s: State, cfg: Settings, a: Action)
    requires Inv(s, cfg) && Exclusive(s) && Enabled(s, a) && !a.Meddle?
    ensures Exclusive(Step(s, cfg, a))
  {
    match a
    case Advance(l, m) => AdvanceExclusive(s, cfg, l, m);
    case Open(l, pid, task) =>
      hide OwnerFits;
      NonOwnerFits(s.disk, Lock(pid, task, Idle, 0, 0, 0, 0, None));
      var after := Step(s, cfg, a).locks;
      forall x, y | x in after && y in after && BothOwn(after[x], after[y]) ensures x == y {
        assert BothOwn(s.locks[x], s.locks[y]);
      }
    case Die(pid) =>
      hide OwnerFits;
      var after := Step(s, cfg, a).locks;
      forall x, y | x in after && y in after && BothOwn(after[x], after[y]) ensures x == y {
        assert BothOwn(s.locks[x], s.locks[y]);
      }
  }

  lemma {:induction false} RunExclusive(s: State, cfg: Settings, actions: seq<Action>)
    requires Inv(s, cfg) && Exclusive(s) && Legal(s, cfg, actions) && Unattended(actions)
    ensures Exclusive(Run(s, cfg, actions)) && Inv(Run(s, cfg, actions), cfg)
    decreases |actions|
  {
    hide Inv, Step, Enabled, Exclusive;
    if actions != [] {
      StepKeepsInv(s, cfg, actions[0]);
      StepExclusive(s, cfg, actions[0]);
      assert Unattended(actions[1..]) by {
        assert forall i :: 0 <= i < |actions| - 1 ==> actions[1..][i] == actions[i + 1];
      }
      RunExclusive(Step(s, cfg, actions[0]), cfg, actions[1..]);
    }
  }

  /** Over every interleaving of acquires, recoveries, releases, failed writes and crashes, from any
      leftover lock directory: at most one live instance holds the lock, and while one does the lock path
      carries exactly the metadata its acquire returned. */
  lemma AtMostOneHolder(disk: Disk, cfg: Settings, actions: seq<Action>)
    requires ValidDisk(disk) && Legal(Start(disk), cfg, actions) && Unattended(actions)
    ensures var s := Run(Start(disk), cfg, actions);
            && (forall a, b :: a in s.locks && b in s.locks && Holds(s.locks[a].pc) && Holds(s.locks[b].pc) ==> a == b)
            && (forall a :: a in s.locks && Holds(s.locks[a].pc) ==>
                  s.disk.path == Some(s.locks[a].pc.own) && ContentOf(s.disk, s.locks[a].pc.own) == Recorded(s.locks[a].pc.metadata))
  {
    RunExclusive(Start(disk), cfg, actions);
    var s := Run(Start(disk), cfg, actions);
    hide Run, Legal, Inv;
    forall a, b | a in s.locks && b in s.locks && Holds(s.locks[a].pc) && Holds(s.locks[b].pc) ensures a == b {
      assert BothOwn(s.locks[a], s.locks[b]);
    }
    forall a | a in s.locks && Holds(s.locks[a].pc)
      ensures s.disk.path == Some(s.locks[a].pc.own) && ContentOf(s.disk, s.locks[a].pc.own) == Recorded(s.locks[a].pc.metadata)
    {
      assert OwnerFits(s.disk, s.locks[a]);
    }
  }

  /** A holder's release goes through: short of an I/O error it never finds its file missing or changed. */
  lemma ReleaseGoesThrough(s: State, cfg: Settings, l: nat, m: Moment)
    requires Exclusive(s) && Enabled(s, Advance(l, m)) && !m.ioFails
    ensures var next := Next(s.disk, cfg, s.locks[l], m);
            && (s.locks[l].pc.Checking? ==> next.1.pc.CheckLoading?)
            && (s.locks[l].pc.CheckLoading? ==> next.1.pc.Releasing?)
            && (s.locks[l].pc.Releasing? ==> next.1.pc == Over(Released) && next.0.path.None?)
  {
    assert OwnerFits(s.disk, s.locks[l]);
  }
}
