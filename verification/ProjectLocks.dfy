/** Acquire and release as the code that runs them, against the shared lock directory
    (locks/file_lock.py). */
module ProjectLocks {
  import opened Wrappers
  import opened FileLock

  /** One step of the code: the lock directory as others have left it, then what the step meets. */
  datatype Scene = Scene(disk: Disk, m: Moment)

  predicate Settled(pc: Pc) {
    pc.Held? || pc.Over?
  }

  /** Let one instance run until it holds the lock or has given up. */
  function Play(d: Disk, cfg: Settings, l: Lock, scenes: seq<Scene>): (Disk, Lock)
    decreases |scenes|
  {
    if scenes == [] || Settled(l.pc) then (d, l)
    else
      var n := Next(scenes[0].disk, cfg, l, scenes[0].m);
      Play(n.0, cfg, n.1, scenes[1..])
  }

  /** The scenes suffice for the instance to settle. */
  predicate Suffices(d: Disk, cfg: Settings, l: Lock, scenes: seq<Scene>) {
    Settled(Play(d, cfg, l, scenes).1.pc)
  }

  lemma PlayStep(d: Disk, cfg: Settings, l: Lock, scenes: seq<Scene>)
    requires Suffices(d, cfg, l, scenes) && !Settled(l.pc)
    ensures scenes != []
    ensures var n := Next(scenes[0].disk, cfg, l, scenes[0].m);
            && Play(d, cfg, l, scenes) == Play(n.0, cfg, n.1, scenes[1..])
            && Suffices(n.0, cfg, n.1, scenes[1..])
  {
    hide Next;
  }

  /** The directory that holds the lock files, as the file system shows it to every process. */
  class LockDirectory {
    var disk: Disk

    constructor (initial: Disk)
      ensures disk == initial
    {
      disk := initial;
    }
  }

  function Fresh(pid: Pid, task: string): Lock {
    Lock(pid, task, Idle, 0, 0, 0, 0, None)
  }

  /** How a look at somebody else's lock file ended. */
  datatype Recovery = Recovered(owner: Metadata) | Refused | Broken

  function AfterRecovery(l: Lock, r: Recovery): Lock {
    match r
    case Recovered(owner) => l.(pc := Creating, recovered := Some(owner))
    case Refused => l.(pc := Waiting)
    case Broken => l.(pc := Over(Failed))
  }

  class ProjectFileLock {
    const cfg: Settings
    const pid: Pid
    const task: string
    const directory: LockDirectory
    var metadata: Option<Metadata>
    var recoveredMetadata: Option<Metadata>

    constructor (cfg: Settings, pid: Pid, task: string, directory: LockDirectory)
      ensures this.cfg == cfg && this.pid == pid && this.task == task && this.directory == directory
      ensures metadata.None? && recoveredMetadata.None?
    {
      this.cfg, this.pid, this.task, this.directory := cfg, pid, task, directory;
      metadata, recoveredMetadata := None, None;
    }

    /** Try, recover a dead owner's file, wait, and try again, until the file is ours or time is up. */
    method Acquire(scenes: seq<Scene>) returns (r: Result<Metadata>)
      requires metadata.None? ==> Suffices(directory.disk, cfg, Fresh(pid, task), scenes)
      modifies this, directory
      ensures old(metadata).Some? ==> r == Err(Conflict) && directory.disk == old(directory.disk) && metadata == old(metadata)
      ensures old(metadata).None? ==>
                var end := Play(old(directory.disk), cfg, Fresh(pid, task), scenes);
                && directory.disk == end.0 && recoveredMetadata == end.1.recovered
                && (match end.1.pc
                    case Held(_, mine) => r == Ok(mine) && metadata == Some(mine)
                    case _ => r.Err? && metadata.None?)
    {
      if metadata.Some? { return Err(Conflict); }
      ghost var lock := Fresh(pid, task);
      ghost var play := Play(directory.disk, cfg, lock, scenes);
      PlayStep(directory.disk, cfg, lock, scenes);
      var rest := scenes[1..];
      directory.disk := scenes[0].disk;
      var deadline := scenes[0].m.clock + cfg.waitTimeout;
      recoveredMetadata := None;
      lock := Next(scenes[0].disk, cfg, lock, scenes[0].m).1;
      while true
        invariant lock.pc.Creating? && lock.pid == pid && lock.task == task && lock.recovered == recoveredMetadata
        invariant metadata.None? && Deadline(cfg, lock) == deadline
        invariant Suffices(directory.disk, cfg, lock, rest)
        invariant Play(directory.disk, cfg, lock, rest) == play
        decreases |rest|
      {
        PlayStep(directory.disk, cfg, lock, rest);
        var scene := rest[0];
        directory.disk := scene.disk;
        if scene.m.ioFails { return Err(Unavailable); }
        if scene.disk.path.None? {
          var mine := Metadata(cfg.project, task, scene.m.now, pid, scene.m.token);
          directory.disk := Disk(scene.disk.files[scene.m.inode := File(0, Malformed)], Some(scene.m.inode));
          lock := lock.(pc := Writing(scene.m.inode, mine));
          var written := WriteMetadata(scene.m.inode, mine, lock, rest[1..]);
          if !written { return Err(Unavailable); }
          metadata := Some(mine);
          return Ok(mine);
        }
        lock := lock.(pc := Inspecting);
        var recovery;
        recovery, rest := TryRecover(lock, rest[1..]);
        lock := AfterRecovery(lock, recovery);
        match recovery
        case Recovered(owner) => recoveredMetadata := Some(owner);
        case Broken => return Err(Unavailable);
        case Refused =>
          PlayStep(directory.disk, cfg, lock, rest);
          directory.disk := rest[0].disk;
          var remaining := deadline - rest[0].m.clock;
          if remaining <= 0 { return Err(Conflict); }
          lock := Next(rest[0].disk, cfg, lock, rest[0].m).1;
          rest := rest[1..];
      }
    }

    /** Write the metadata into the file just created, in any number of partial writes; clean up if a
        write fails. */
    method WriteMetadata(inode: Inode, mine: Metadata, ghost lock: Lock, scenes: seq<Scene>) returns (written: bool)
      requires lock.pc == Writing(inode, mine)
      requires Suffices(directory.disk, cfg, lock, scenes)
      modifies directory
      ensures Play(old(directory.disk), cfg, lock, scenes) ==
              (directory.disk, lock.(pc := if written then Held(inode, mine) else Over(Failed)))
    {
      var rest := scenes;
      ghost var play := Play(directory.disk, cfg, lock, scenes);
      PlayStep(directory.disk, cfg, lock, rest);
      while rest[0].m.partial && !rest[0].m.ioFails
        invariant Suffices(directory.disk, cfg, lock, rest) && Play(directory.disk, cfg, lock, rest) == play && rest != []
        decreases |rest|
      {
        PlayStep(directory.disk, cfg, lock, rest);
        directory.disk := Put(rest[0].disk, inode, Malformed);
        rest := rest[1..];
        PlayStep(directory.disk, cfg, lock, rest);
      }
      PlayStep(directory.disk, cfg, lock, rest);
      if rest[0].m.ioFails {
        directory.disk := rest[0].disk.(path := None);
        return false;
      }
      directory.disk := Put(rest[0].disk, inode, Recorded(mine));
      rest := rest[1..];
      PlayStep(directory.disk, cfg, lock.(pc := Flushing(inode, mine)), rest);
      if rest[0].m.ioFails {
        directory.disk := rest[0].disk.(path := None);
        return false;
      }
      directory.disk := rest[0].disk;
      return true;
    }

    /** Inspect the file in the way; if its owner is dead and it is old enough, read it again and remove it
        provided it is still the file that was read. */
    method TryRecover(ghost lock: Lock, scenes: seq<Scene>) returns (recovery: Recovery, rest: seq<Scene>)
      requires lock.pc.Inspecting? && Suffices(directory.disk, cfg, lock, scenes)
      modifies directory
      ensures |rest| < |scenes|
      ensures Suffices(directory.disk, cfg, AfterRecovery(lock, recovery), rest)
      ensures Play(old(directory.disk), cfg, lock, scenes) == Play(directory.disk, cfg, AfterRecovery(lock, recovery), rest)
    {
      hide Play, Suffices;
      PlayStep(directory.disk, cfg, lock, scenes);
      var d := scenes[0].disk;
      directory.disk := d;
      rest := scenes[1..];
      if scenes[0].m.ioFails || d.path.None? { return Refused, rest; }
      var at, version := d.path.value, VersionOf(d, d.path.value);

      PlayStep(directory.disk, cfg, lock.(pc := Loading(at, version)), rest);
      directory.disk := rest[0].disk;
      var content := ContentOf(rest[0].disk, at);
      var failed := rest[0].m.ioFails;
      rest := rest[1..];
      if content.Malformed? || failed { return Refused, rest; }
      var seen := content.metadata;

      PlayStep(directory.disk, cfg, lock.(pc := Judging(seen)), rest);
      directory.disk := rest[0].disk;
      var judgedAt := rest[0].m.now;
      var stale := Stale(cfg, seen, judgedAt, rest[0].m.alive);
      rest := rest[1..];
      if !stale { return Refused, rest; }
      recovery, rest := RemoveStale(seen, judgedAt, lock.(pc := Rereading(seen, judgedAt)), rest);
    }

    method RemoveStale(seen: Metadata, judgedAt: Time, ghost lock: Lock, scenes: seq<Scene>)
      returns (recovery: Recovery, rest: seq<Scene>)
      requires lock.pc == Rereading(seen, judgedAt) && Suffices(directory.disk, cfg, lock, scenes)
      modifies directory
      ensures |rest| < |scenes|
      ensures Suffices(directory.disk, cfg, AfterRecovery(lock, recovery), rest)
      ensures Play(old(directory.disk), cfg, lock, scenes) == Play(directory.disk, cfg, AfterRecovery(lock, recovery), rest)
    {
      hide Play, Suffices;
      PlayStep(directory.disk, cfg, lock, scenes);
      var d := scenes[0].disk;
      directory.disk := d;
      rest := scenes[1..];
      if scenes[0].m.ioFails || d.path.None? { return Refused, rest; }
      var at, version := d.path.value, VersionOf(d, d.path.value);

      PlayStep(directory.disk, cfg, lock.(pc := Reloading(seen, judgedAt, at, version)), rest);
      directory.disk := rest[0].disk;
      var same := !rest[0].m.ioFails && ContentOf(rest[0].disk, at) == Recorded(seen);
      rest := rest[1..];
      if !same { return Refused, rest; }

      PlayStep(directory.disk, cfg, lock.(pc := FileLock.Recovering(seen, judgedAt, at, version)), rest);
      d := rest[0].disk;
      directory.disk := d;
      var failed := rest[0].m.ioFails;
      rest := rest[1..];
      if !Unchanged(d, at, version) { return Refused, rest; }
      if failed { return Broken, rest; }
      directory.disk := d.(path := None);
      return Recovered(seen), rest;
    }

    /** Give the lock up, provided the file at the path still carries our token. */
    method Release(ghost own: Inode, scenes: seq<Scene>) returns (r: Result<()>)
      requires metadata.Some? ==>
                 Suffices(directory.disk, cfg, Fresh(pid, task).(pc := FileLock.Checking(own, metadata.value)), scenes)
      modifies this, directory
      ensures old(metadata).None? ==> r == Ok(()) && directory.disk == old(directory.disk) && metadata.None?
      ensures old(metadata).Some? ==>
                var end := Play(old(directory.disk), cfg, Fresh(pid, task).(pc := FileLock.Checking(own, old(metadata).value)), scenes);
                && directory.disk == end.0 && (r.Ok? <==> end.1.pc == Over(FileLock.Released))
                && metadata == if r.Ok? then None else old(metadata)
    {
      if metadata.None? { return Ok(()); }
      var mine := metadata.value;
      ghost var lock := Fresh(pid, task).(pc := FileLock.Checking(own, mine));
      PlayStep(directory.disk, cfg, lock, scenes);
      var d := scenes[0].disk;
      directory.disk := d;
      var rest := scenes[1..];
      if scenes[0].m.ioFails || d.path.None? { return Err(Conflict); }
      var at, version := d.path.value, VersionOf(d, d.path.value);

      PlayStep(directory.disk, cfg, lock.(pc := CheckLoading(own, mine, at, version)), rest);
      directory.disk := rest[0].disk;
      var content := ContentOf(rest[0].disk, at);
      if content.Malformed? || rest[0].m.ioFails || content.metadata.token != mine.token { return Err(Conflict); }
      rest := rest[1..];

      PlayStep(directory.disk, cfg, lock.(pc := FileLock.Releasing(own, mine, at, version)), rest);
      d := rest[0].disk;
      directory.disk := d;
      if !Unchanged(d, at, version) || rest[0].m.ioFails { return Err(Conflict); }
      directory.disk := d.(path := None);
      metadata := None;
      return Ok(());
    }
  }

  // ---------------------------------------------------------------- a dead owner does not block for ever

  /** Nobody else touches the directory, no write or read fails, and the file in the way reads as stale. */
  predicate Undisturbed(d: Disk, cfg: Settings, l: Lock, scenes: seq<Scene>, seen: Metadata)
    decreases |scenes|
  {
    scenes == [] || Settled(l.pc) ||
    (&& scenes[0].disk == d && !scenes[0].m.ioFails && !scenes[0].m.partial && scenes[0].m.inode !in d.files
     && Stale(cfg, seen, scenes[0].m.now, scenes[0].m.alive)
     && Undisturbed(Next(d, cfg, l, scenes[0].m).0, cfg, Next(d, cfg, l, scenes[0].m).1, scenes[1..], seen))
  }

  lemma AloneStep(d: Disk, cfg: Settings, l: Lock, scenes: seq<Scene>, seen: Metadata)
    requires Undisturbed(d, cfg, l, scenes, seen) && scenes != [] && !Settled(l.pc)
    ensures var m := scenes[0].m;
            var n := Next(d, cfg, l, m);
            && !m.ioFails && !m.partial && m.inode !in d.files && Stale(cfg, seen, m.now, m.alive)
            && Play(d, cfg, l, scenes) == Play(n.0, cfg, n.1, scenes[1..])
            && Undisturbed(n.0, cfg, n.1, scenes[1..], seen)
  {
    hide Next;
  }

  lemma LookAndJudge(d: Disk, cfg: Settings, l: Lock, scenes: seq<Scene>, seen: Metadata)
    requires l.pc.Creating? && |scenes| >= 7 && Undisturbed(d, cfg, l, scenes, seen)
    requires d.path.Some? && d.path.value in d.files && d.files[d.path.value].content == Recorded(seen)
    ensures var free := d.(path := None);
            var again := l.(recovered := Some(seen));
            Play(d, cfg, l, scenes) == Play(free, cfg, again, scenes[7..]) && Undisturbed(free, cfg, again, scenes[7..], seen)
  {
    hide Play, Undisturbed;
    var at, version := d.path.value, VersionOf(d, d.path.value);
    var now := scenes[3].m.now;
    AloneStep(d, cfg, l, scenes, seen);
    AloneStep(d, cfg, l.(pc := Inspecting), scenes[1..], seen);
    AloneStep(d, cfg, l.(pc := Loading(at, version)), scenes[1..][1..], seen);
    assert scenes[1..][1..][1..] == scenes[3..];
    AloneStep(d, cfg, l.(pc := Judging(seen)), scenes[3..], seen);
    AloneStep(d, cfg, l.(pc := Rereading(seen, now)), scenes[3..][1..], seen);
    assert scenes[3..][1..][1..] == scenes[5..];
    AloneStep(d, cfg, l.(pc := Reloading(seen, now, at, version)), scenes[5..], seen);
    AloneStep(d, cfg, l.(pc := FileLock.Recovering(seen, now, at, version)), scenes[5..][1..], seen);
    assert scenes[5..][1..][1..] == scenes[7..];
  }

  lemma CreateAndHold(d: Disk, cfg: Settings, l: Lock, scenes: seq<Scene>, seen: Metadata)
    requires l.pc.Creating? && |scenes| >= 3 && Undisturbed(d, cfg, l, scenes, seen) && d.path.None?
    ensures var m := scenes[0].m;
            var mine := Metadata(cfg.project, l.task, m.now, l.pid, m.token);
            var end := Play(d, cfg, l, scenes);
            && end.1 == l.(pc := Held(m.inode, mine)) && end.0.path == Some(m.inode)
            && ContentOf(end.0, m.inode) == Recorded(mine)
  {
    hide Play, Undisturbed;
    AloneStep(d, cfg, l, scenes, seen);
    var m := scenes[0].m;
    var mine := Metadata(cfg.project, l.task, m.now, l.pid, m.token);
    var made := Disk(d.files[m.inode := File(0, Malformed)], Some(m.inode));
    AloneStep(made, cfg, l.(pc := Writing(m.inode, mine)), scenes[1..], seen);
    var full := Put(made, m.inode, Recorded(mine));
    AloneStep(full, cfg, l.(pc := Flushing(m.inode, mine)), scenes[1..][1..], seen);
    assert Play(full, cfg, l.(pc := Held(m.inode, mine)), scenes[1..][1..][1..]) == (full, l.(pc := Held(m.inode, mine))) by {
      PlayOfSettled(full, cfg, l.(pc := Held(m.inode, mine)), scenes[1..][1..][1..]);
    }
  }

  lemma PlayOfSettled(d: Disk, cfg: Settings, l: Lock, scenes: seq<Scene>)
    requires Settled(l.pc)
    ensures Play(d, cfg, l, scenes) == (d, l)
  {
  }

  /** A dead owner's old lock never blocks an acquire that is left alone: it is recovered, reported as
      recovered, and replaced by the acquirer's own file, without any sleep. */
  lemma StaleLockIsTakenOver(d: Disk, cfg: Settings, pid: Pid, task: string, scenes: seq<Scene>, seen: Metadata)
    requires |scenes| >= 11 && Undisturbed(d, cfg, Fresh(pid, task), scenes, seen)
    requires d.path.Some? && d.path.value in d.files && d.files[d.path.value].content == Recorded(seen)
    ensures var end := Play(d, cfg, Fresh(pid, task), scenes);
            && end.1.pc.Held? && end.1.recovered == Some(seen) && end.1.naps == 0
            && end.1.pc.metadata.pid == pid && end.1.pc.metadata.task == task
            && end.0.path == Some(end.1.pc.own) && ContentOf(end.0, end.1.pc.own) == Recorded(end.1.pc.metadata)
  {
    hide Play, Undisturbed;
    AloneStep(d, cfg, Fresh(pid, task), scenes, seen);
    var l := Next(d, cfg, Fresh(pid, task), scenes[0].m).1;
    LookAndJudge(d, cfg, l, scenes[1..], seen);
    CreateAndHold(d.(path := None), cfg, l.(recovered := Some(seen)), scenes[1..][7..], seen);
  }
}
