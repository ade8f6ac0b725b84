/** Applying an ordered list of schema migrations (storage/migrations.py). */
module Migrations {
  import opened Wrappers

  datatype Migration = Migration(version: int, name: string, statements: seq<string>)

  datatype Row = Row(version: int, name: string)

  datatype Refusal = NewerThanSupported | VersionGap | NameMismatch | StepFailed(version: int)

  datatype Verdict = Done | Refused(why: Refusal)

  /** The application's list: consecutive versions from one. */
  predicate Ordered(list: seq<Migration>) {
    forall i :: 0 <= i < |list| ==> list[i].version == i + 1
  }

  /** The rows of a table keyed by version, read in key order. */
  predicate Increasing(rows: seq<Row>) {
    forall i, j :: 0 <= i < j < |rows| ==> rows[i].version < rows[j].version
  }

  /** The history of a database that has exactly the first `n` migrations. */
  function HistoryOf(list: seq<Migration>, n: nat): seq<Row>
    requires n <= |list|
  {
    seq(n, i requires 0 <= i < n => Row(list[i].version, list[i].name))
  }

  /** All statements of the migrations from `m` up to `n`, in order. */
  function StatementsOf(list: seq<Migration>, m: nat, n: nat): seq<string>
    requires m <= n <= |list|
    decreases n - m
  {
    if m == n then [] else StatementsOf(list, m, n - 1) + list[n - 1].statements
  }

  /** The history is a prefix of the application's own. */
  ghost predicate Matches(list: seq<Migration>, rows: seq<Row>) {
    |rows| <= |list| && rows == HistoryOf(list, |rows|)
  }

  /** What a database file holds: the recorded history, the executed schema statements, the version tag. */
  datatype Contents = Contents(history: seq<Row>, schema: seq<string>, userVersion: int)

  /** `c` with the migrations from its own history up to `n` applied. */
  function Migrated(list: seq<Migration>, c: Contents, n: nat): Contents
    requires |c.history| <= n <= |list|
  {
    if n == |c.history| then c
    else Contents(HistoryOf(list, n), c.schema + StatementsOf(list, |c.history|, n), n)
  }

  /** The refusals that happen before any migration runs. */
  function Precheck(list: seq<Migration>, rows: seq<Row>): Option<Refusal> {
    if rows != [] && rows[|rows| - 1].version > |list| then Some(NewerThanSupported)
    else if exists i :: 0 <= i < |rows| && rows[i].version != i + 1 then Some(VersionGap)
    else if exists i :: 0 <= i < |rows| && (i >= |list| || rows[i].name != list[i].name) then Some(NameMismatch)
    else None
  }

  /** A database passes exactly when its history is a prefix of the application's. */
  lemma PrecheckExact(list: seq<Migration>, rows: seq<Row>)
    requires Ordered(list) && Increasing(rows)
    ensures Precheck(list, rows).None? <==> Matches(list, rows)
  {
    if Precheck(list, rows).None? {
      assert rows != [] ==> rows[|rows| - 1].version == |rows|;
      assert forall i :: 0 <= i < |rows| ==> rows[i] == Row(list[i].version, list[i].name);
    }
  }

  class Connection {
    var contents: Contents

    constructor (contents: Contents)
      ensures this.contents == contents
    {
      this.contents := contents;
    }

    /** One migration in one transaction: all its statements, the history row and the version tag, or
        nothing. `failsAt` is the step that fails, if one does. */
    method ApplyOne(migration: Migration, failsAt: Option<nat>) returns (committed: bool)
      modifies this
      ensures committed <==> failsAt.None? || failsAt.value > |migration.statements| + 2
      ensures contents == if committed
                then Contents(old(contents).history + [Row(migration.version, migration.name)],
                              old(contents).schema + migration.statements, migration.version)
                else old(contents)
    {
      var saved := contents;
      for i := 0 to |migration.statements|
        invariant contents == saved.(schema := saved.schema + migration.statements[..i])
        invariant failsAt.Some? ==> failsAt.value >= i
      {
        if failsAt == Some(i) {
          contents := saved;
          return false;
        }
        assert migration.statements[..i + 1] == migration.statements[..i] + [migration.statements[i]];
        contents := contents.(schema := contents.schema + [migration.statements[i]]);
      }
      assert migration.statements[..|migration.statements|] == migration.statements;
      contents := contents.(history := contents.history + [Row(migration.version, migration.name)],
                            userVersion := migration.version);
      if failsAt.Some? && failsAt.value <= |migration.statements| + 2 {
        contents := saved;
        return false;
      }
      return true;
    }

    /** From any database: refuse it untouched, or move it along the list, stopping for good at the first
        failing migration with everything before it in place. */
    method ApplyMigrations(list: seq<Migration>, failsAt: int -> Option<nat>) returns (verdict: Verdict)
      requires Ordered(list) && Increasing(contents.history)
      modifies this
      ensures !Matches(list, old(contents).history) ==>
                && contents == old(contents)
                && verdict.Refused? && Some(verdict.why) == Precheck(list, old(contents).history)
      ensures Matches(list, old(contents).history) && verdict.Done? ==>
                contents == Migrated(list, old(contents), |list|)
      ensures Matches(list, old(contents).history) && verdict.Refused? ==>
                exists n :: |old(contents).history| <= n < |list|
                  && contents == Migrated(list, old(contents), n) && verdict == Refused(StepFailed(n + 1))
                  && failsAt(n + 1).Some?
      ensures Matches(list, old(contents).history) && (forall v :: failsAt(v).None?) ==> verdict.Done?
    {
      ghost var before := contents;
      var rows := contents.history;
      PrecheckExact(list, rows);
      if rows != [] && rows[|rows| - 1].version > |list| { return Refused(NewerThanSupported); }
      if exists i :: 0 <= i < |rows| && rows[i].version != i + 1 { return Refused(VersionGap); }
      if exists i :: 0 <= i < |rows| && (i >= |list| || rows[i].name != list[i].name) { return Refused(NameMismatch); }
      for n := 0 to |list|
        invariant Matches(list, before.history)
        invariant contents == Migrated(list, before, if n < |before.history| then |before.history| else n)
      {
        var applied := exists i :: 0 <= i < |rows| && rows[i].version == list[n].version;
        assert applied <==> n < |before.history|;
        if !applied {
          var committed := ApplyOne(list[n], failsAt(n + 1));
          if !committed { return Refused(StepFailed(list[n].version)); }
          NextMigrated(list, before, n);
        }
      }
      return Done;
    }
  }

  lemma NextMigrated(list: seq<Migration>, c: Contents, n: nat)
    requires Ordered(list) && Matches(list, c.history) && |c.history| <= n < |list|
    ensures Migrated(list, c, n + 1) ==
            var d := Migrated(list, c, n);
            Contents(d.history + [Row(list[n].version, list[n].name)], d.schema + list[n].statements, list[n].version)
  {
    assert HistoryOf(list, n + 1) == HistoryOf(list, n) + [Row(list[n].version, list[n].name)];
    var m := |c.history|;
    assert c.schema + (StatementsOf(list, m, n) + list[n].statements) == (c.schema + StatementsOf(list, m, n)) + list[n].statements;
    assert n == m ==> c.schema + StatementsOf(list, m, n) == c.schema;
  }

  lemma {:induction false} StatementsSplit(list: seq<Migration>, a: nat, b: nat, c: nat)
    requires a <= b <= c <= |list|
    ensures StatementsOf(list, a, c) == StatementsOf(list, a, b) + StatementsOf(list, b, c)
    decreases c
  {
    if b < c {
      StatementsSplit(list, a, b, c - 1);
    } else {
      assert StatementsOf(list, b, c) == [];
    }
  }

  /** Resuming is seamless: stopping anywhere on the way and starting again leads to the very database an
      uninterrupted run would have made, and a finished database is left alone. */
  lemma ResumeIsSeamless(list: seq<Migration>, c: Contents, n: nat, m: nat)
    requires Ordered(list) && Matches(list, c.history) && |c.history| <= n <= m <= |list|
    ensures Matches(list, Migrated(list, c, n).history) && |Migrated(list, c, n).history| == n
    ensures Migrated(list, Migrated(list, c, n), m) == Migrated(list, c, m)
    ensures n == m ==> Migrated(list, Migrated(list, c, n), m) == Migrated(list, c, n)
  {
    StatementsSplit(list, |c.history|, n, m);
    assert |c.history| < n < m ==>
      (c.schema + StatementsOf(list, |c.history|, n)) + StatementsOf(list, n, m) == c.schema + StatementsOf(list, |c.history|, m);
  }
}
