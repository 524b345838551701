/** The migration runner. A row is committed as dirty before its script runs and cleared
    after it, so that a run that dies anywhere leaves a trace which stops the next one. */
module Migrations {
  import opened Text

  type Version = string

  /** A script on disk: its version and the checksum of its text. */
  datatype Migration = Migration(version: Version, checksum: string)

  datatype Row = Row(version: Version, checksum: string, dirty: bool)

  /** The table schema_migrations in insertion order, and the scripts ever started. */
  datatype Db = Db(rows: seq<Row>, started: seq<Version>)

  const FRESH := Db([], [])

  /** Where a run meets its end, if it does, while it handles one migration. */
  datatype Fate =
    | Survives
    | DiesBeforeInsertCommits
    | DiesBeforeScript
    | FailsInScript
    | DiesBeforeClearCommits

  datatype Outcome = Applied | DirtyGuard | ChecksumMismatch | Died

  function VersionsOf(list: seq<Migration>): seq<Version> {
    seq(|list|, i requires 0 <= i < |list| => list[i].version)
  }

  predicate HasDirty(rows: seq<Row>) {
    exists i :: 0 <= i < |rows| && rows[i].dirty
  }

  /** The row of a version, by its place; the number of rows when there is none. */
  function Find(rows: seq<Row>, version: Version): (n: nat)
    ensures n <= |rows|
    ensures n < |rows| ==> rows[n].version == version
    ensures forall i | 0 <= i < n :: rows[i].version != version
  {
    if rows == [] || rows[0].version == version then 0 else 1 + Find(rows[1..], version)
  }

  function Cleared(rows: seq<Row>, version: Version): seq<Row> {
    var n := Find(rows, version);
    if n < |rows| then rows[n := rows[n].(dirty := false)] else rows
  }

  /** One migration without a row: insert, run, clear, each as far as fate lets it. */
  function RunScript(db: Db, m: Migration, fate: Fate): (Db, Option<Outcome>) {
    if fate.DiesBeforeInsertCommits? then (db, Some(Died))
    else
      var db1 := db.(rows := db.rows + [Row(m.version, m.checksum, true)]);
      if fate.DiesBeforeScript? then (db1, Some(Died))
      else
        var db2 := db1.(started := db1.started + [m.version]);
        if fate.Survives? then (db2.(rows := Cleared(db2.rows, m.version)), None) else (db2, Some(Died))
  }

  /** None lets the loop go on. */
  function ApplyOne(db: Db, m: Migration, fate: Fate): (Db, Option<Outcome>) {
    var n := Find(db.rows, m.version);
    if n < |db.rows| then
      if db.rows[n].dirty then (db, Some(DirtyGuard))
      else if db.rows[n].checksum != m.checksum then (db, Some(ChecksumMismatch))
      else (db, None)
    else RunScript(db, m, fate)
  }

  function ApplyEach(db: Db, list: seq<Migration>, fates: Version -> Fate): (Db, Option<Outcome>)
    decreases |list|
  {
    if list == [] then (db, None)
    else
      var (db1, outcome) := ApplyEach(db, list[..|list| - 1], fates);
      var last := list[|list| - 1];
      if outcome.Some? then (db1, outcome) else ApplyOne(db1, last, fates(last.version))
  }

  /** Some recorded script has another checksum now. */
  predicate HasMismatch(rows: seq<Row>, list: seq<Migration>) {
    exists i, j :: 0 <= i < |rows| && 0 <= j < |list| && rows[i].version == list[j].version
        && rows[i].checksum != list[j].checksum
  }

  /** The check after the loop. */
  function Verify(rows: seq<Row>, list: seq<Migration>): Outcome {
    if HasDirty(rows) then DirtyGuard else if HasMismatch(rows, list) then ChecksumMismatch else Applied
  }

  function Apply(db: Db, list: seq<Migration>, fates: Version -> Fate): (Db, Outcome) {
    if HasDirty(db.rows) then (db, DirtyGuard)
    else
      var (db1, outcome) := ApplyEach(db, list, fates);
      (db1, if outcome.Some? then outcome.value else Verify(db1.rows, list))
  }

  // ---------- What every run keeps ----------

  ghost predicate AreDistinct(versions: seq<Version>) {
    forall i, j | 0 <= i < j < |versions| :: versions[i] != versions[j]
  }

  /** The rows are the first versions of the list, all clean except at most the last one. */
  ghost predicate IsPrefix(rows: seq<Row>, versions: seq<Version>) {
    && |rows| <= |versions|
    && (forall i | 0 <= i < |rows| :: rows[i].version == versions[i])
    && (forall i | 0 <= i < |rows| - 1 :: !rows[i].dirty)
  }

  /** Every row's script was started once, in order; that of a last dirty row perhaps not yet. */
  ghost predicate StartedOnce(db: Db, versions: seq<Version>)
    requires |db.rows| <= |versions|
  {
    || db.started == versions[..|db.rows|]
    || (db.rows != [] && db.rows[|db.rows| - 1].dirty && db.started == versions[..|db.rows| - 1])
  }

  ghost predicate Orderly(db: Db, versions: seq<Version>) {
    IsPrefix(db.rows, versions) && StartedOnce(db, versions)
  }

  lemma FindInPrefix(rows: seq<Row>, versions: seq<Version>, i: nat)
    requires AreDistinct(versions) && IsPrefix(rows, versions) && i < |versions|
    ensures Find(rows, versions[i]) == (if i < |rows| then i else |rows|)
  {
  }

  /** A clean, orderly table to which the next version of the list is added, as far as fate lets it. */
  lemma RunScriptOrderly(db: Db, versions: seq<Version>, m: Migration, fate: Fate)
    requires AreDistinct(versions) && Orderly(db, versions) && !HasDirty(db.rows)
    requires |db.rows| < |versions| && m.version == versions[|db.rows|]
    ensures var (db', outcome) := RunScript(db, m, fate);
            && Orderly(db', versions) && db.rows <= db'.rows
            && (if fate.Survives? then outcome.None? && db'.rows == db.rows + [Row(m.version, m.checksum, false)]
                else outcome == Some(Died))
  {
    var n := |db.rows|;
    var added := db.rows + [Row(m.version, m.checksum, true)];
    assert db.started == versions[..n];
    assert versions[..n] + [m.version] == versions[..n + 1];
    FindInPrefix(added, versions, n);
    assert added[n := added[n].(dirty := false)] == db.rows + [Row(m.version, m.checksum, false)];
  }

  predicate SameChecksums(rows: seq<Row>, list: seq<Migration>, n: nat) {
    n <= |rows| && n <= |list| && forall i | 0 <= i < n :: rows[i].checksum == list[i].checksum
  }

  /** What the loop has done to a clean table after the first k migrations. */
  ghost predicate LoopKeeps(db: Db, list: seq<Migration>, fates: Version -> Fate, k: nat, db': Db,
                            outcome: Option<Outcome>)
    requires k <= |list|
  {
    && Orderly(db', VersionsOf(list)) && db.rows <= db'.rows
    && (k <= |db.rows| ==> db' == db && (outcome.None? <==> SameChecksums(db.rows, list, k)))
    && (outcome.None? ==> !HasDirty(db'.rows) && |db'.rows| == (if k <= |db.rows| then |db.rows| else k)
                          && SameChecksums(db'.rows, list, k))
    && (outcome.Some? ==> outcome.value == (if SameChecksums(db.rows, list, |db.rows|) then Died else ChecksumMismatch))
    && (outcome == Some(ChecksumMismatch) ==> db' == db)
    && (SameChecksums(db.rows, list, |db.rows|) ==>
          (outcome.None? <==> forall i | |db.rows| <= i < k :: fates(list[i].version).Survives?))
  }

  lemma LoopStep(db: Db, list: seq<Migration>, fates: Version -> Fate, k: nat, mid: Db)
    returns (db': Db, outcome: Option<Outcome>)
    requires AreDistinct(VersionsOf(list)) && 0 < k <= |list|
    requires LoopKeeps(db, list, fates, k - 1, mid, None)
    ensures (db', outcome) == ApplyOne(mid, list[k - 1], fates(list[k - 1].version))
    ensures LoopKeeps(db, list, fates, k, db', outcome)
  {
    var versions, last := VersionsOf(list), list[k - 1];
    var next := ApplyOne(mid, last, fates(last.version));
    db', outcome := next.0, next.1;
    FindInPrefix(mid.rows, versions, k - 1);
    assert last.version == versions[k - 1];
    if k > |db.rows| {
      RunScriptOrderly(mid, versions, last, fates(last.version));
    }
  }

  lemma {:induction false} LoopRuns(db: Db, list: seq<Migration>, fates: Version -> Fate, k: nat)
    returns (db': Db, outcome: Option<Outcome>)
    requires AreDistinct(VersionsOf(list)) && k <= |list|
    requires Orderly(db, VersionsOf(list)) && !HasDirty(db.rows)
    ensures (db', outcome) == ApplyEach(db, list[..k], fates)
    ensures LoopKeeps(db, list, fates, k, db', outcome)
  {
    hide ApplyOne, Orderly, HasDirty;
    db', outcome := db, None;
    if k > 0 {
      assert list[..k][..k - 1] == list[..k - 1];
      db', outcome := LoopRuns(db, list, fates, k - 1);
      if outcome.None? {
        db', outcome := LoopStep(db, list, fates, k, db');
      }
    }
  }

  lemma MismatchInPrefix(rows: seq<Row>, list: seq<Migration>)
    requires AreDistinct(VersionsOf(list)) && IsPrefix(rows, VersionsOf(list))
    ensures HasMismatch(rows, list) <==> !SameChecksums(rows, list, |rows|)
  {
    var versions := VersionsOf(list);
    assert forall i | 0 <= i < |list| :: versions[i] == list[i].version;
    if !SameChecksums(rows, list, |rows|) {
      var i :| 0 <= i < |rows| && rows[i].checksum != list[i].checksum;
      assert rows[i].version == list[i].version;
    }
  }

  /** One run over an orderly table. A dirty row stops it, and so does a changed script,
      before any script is started; otherwise it succeeds exactly when every script that is
      still to run survives, and then every migration is recorded clean with its checksum. */
  lemma RunIsExact(db: Db, list: seq<Migration>, fates: Version -> Fate)
    requires AreDistinct(VersionsOf(list)) && Orderly(db, VersionsOf(list))
    ensures var (db', outcome) := Apply(db, list, fates);
            && Orderly(db', VersionsOf(list))
            && (HasDirty(db.rows) ==> db' == db && outcome.DirtyGuard?)
            && (!HasDirty(db.rows) && HasMismatch(db.rows, list) ==> db' == db && outcome.ChecksumMismatch?)
            && (!HasDirty(db.rows) && !HasMismatch(db.rows, list) ==>
                  if forall i | |db.rows| <= i < |list| :: fates(list[i].version).Survives?
                  then outcome.Applied? && db'.rows == Recorded(list) && db'.started == VersionsOf(list)
                  else outcome.Died?)
  {
    MismatchInPrefix(db.rows, list);
    if !HasDirty(db.rows) {
      assert list[..|list|] == list;
      var db', outcome := LoopRuns(db, list, fates, |list|);
      if outcome.None? {
        MismatchInPrefix(db'.rows, list);
        assert db'.rows == Recorded(list);
        assert VersionsOf(list)[..|list|] == VersionsOf(list);
      }
    }
  }

  function Recorded(list: seq<Migration>): seq<Row> {
    seq(|list|, i requires 0 <= i < |list| => Row(list[i].version, list[i].checksum, false))
  }

  /** What a run leaves behind when it dies at its k-th migration: the ones before recorded and
      run; of this one nothing, a dirty row, or a dirty row and a script that was started. */
  ghost predicate DiesAt(db': Db, list: seq<Migration>, k: nat, fate: Fate)
    requires k < |list|
  {
    && db'.rows == Recorded(list[..k])
                   + (if fate.DiesBeforeInsertCommits? then [] else [Row(list[k].version, list[k].checksum, true)])
    && db'.started == VersionsOf(list[..k])
                      + (if fate.FailsInScript? || fate.DiesBeforeClearCommits? then [list[k].version] else [])
  }

  lemma DeathLeaves(db: Db, m: Migration, fate: Fate, list: seq<Migration>, k: nat)
    requires AreDistinct(VersionsOf(list)) && k < |list| && m == list[k] && !fate.Survives?
    requires db == Db(Recorded(list[..k]), VersionsOf(list[..k]))
    ensures var (db', outcome) := ApplyOne(db, m, fate); outcome == Some(Died) && DiesAt(db', list, k, fate)
  {
    var versions := VersionsOf(list);
    assert versions[k] == m.version;
    assert IsPrefix(db.rows, versions);
    FindInPrefix(db.rows, versions, k);
  }

  /** A run that dies, dies at the first migration still to run whose fate it is. */
  lemma DeathIsExact(db: Db, list: seq<Migration>, fates: Version -> Fate, k: nat)
    requires AreDistinct(VersionsOf(list)) && Orderly(db, VersionsOf(list))
    requires !HasDirty(db.rows) && !HasMismatch(db.rows, list)
    requires |db.rows| <= k < |list| && !fates(list[k].version).Survives?
    requires forall i | |db.rows| <= i < k :: fates(list[i].version).Survives?
    ensures var (db', outcome) := Apply(db, list, fates);
            outcome.Died? && DiesAt(db', list, k, fates(list[k].version))
  {
    MismatchInPrefix(db.rows, list);
    var mid, none := LoopRuns(db, list, fates, k);
    CleanIsRecorded(mid, list, k);
    DeathLeaves(mid, list[k], fates(list[k].version), list, k);
    assert list[..k + 1][..k] == list[..k];
    assert ApplyEach(db, list[..k + 1], fates) == ApplyOne(mid, list[k], fates(list[k].version));
    StoppedStays(db, list, fates, k + 1);
  }

  lemma CleanIsRecorded(db: Db, list: seq<Migration>, k: nat)
    requires Orderly(db, VersionsOf(list)) && !HasDirty(db.rows) && |db.rows| == k <= |list|
    requires SameChecksums(db.rows, list, k)
    ensures db == Db(Recorded(list[..k]), VersionsOf(list[..k]))
  {
    assert forall i | 0 <= i < k :: VersionsOf(list)[i] == list[i].version == list[..k][i].version;
    assert VersionsOf(list)[..k] == VersionsOf(list[..k]);
    assert forall i | 0 <= i < k :: db.rows[i] == Recorded(list[..k])[i];
  }

  // ---------- Any number of runs ----------

  datatype Start = Start(list: seq<Migration>, fates: Version -> Fate)

  function After(starts: seq<Start>): Db
    decreases |starts|
  {
    if starts == [] then FRESH
    else
      var last := starts[|starts| - 1];
      Apply(After(starts[..|starts| - 1]), last.list, last.fates).0
  }

  /** Migrations are only ever added, behind the ones that are there; their scripts may change. */
  ghost predicate Growing(starts: seq<Start>) {
    && (forall i | 0 <= i < |starts| :: AreDistinct(VersionsOf(starts[i].list)))
    && (forall i | 0 < i < |starts| :: VersionsOf(starts[i - 1].list) <= VersionsOf(starts[i].list))
  }

  lemma LongerListIsOrderly(db: Db, a: seq<Version>, b: seq<Version>)
    requires Orderly(db, a) && a <= b
    ensures Orderly(db, b)
  {
    assert forall n | 0 <= n <= |a| :: a[..n] == b[..n];
  }

  /** Whatever runs were started and wherever they died: the table is a prefix of the list,
      clean except at most its last row, and no script was ever started twice. */
  lemma {:induction false} RunsStayOrderly(starts: seq<Start>)
    requires starts != [] && Growing(starts)
    ensures Orderly(After(starts), VersionsOf(starts[|starts| - 1].list))
    ensures AreDistinct(After(starts).started)
    decreases |starts|
  {
    var rest, last := starts[..|starts| - 1], starts[|starts| - 1];
    var versions := VersionsOf(last.list);
    if rest == [] {
      assert Orderly(FRESH, versions);
    } else {
      RunsStayOrderly(rest);
      LongerListIsOrderly(After(rest), VersionsOf(rest[|rest| - 1].list), versions);
    }
    RunIsExact(After(rest), last.list, last.fates);
  }

  /** Once a row is dirty, no later run starts a script or changes the table, whatever its list. */
  lemma {:induction false} DirtyStopsEveryRun(starts: seq<Start>, later: seq<Start>)
    requires HasDirty(After(starts).rows)
    ensures After(starts + later) == After(starts)
    ensures forall start: Start :: Apply(After(starts + later), start.list, start.fates).1.DirtyGuard?
    decreases |later|
  {
    if later == [] {
      assert starts + later == starts;
    } else {
      DirtyStopsEveryRun(starts, later[..|later| - 1]);
      assert (starts + later)[..|starts + later| - 1] == starts + later[..|later| - 1];
    }
  }

  /** A script that changed after it was recorded stops the next run before any new script. */
  lemma ChangedScriptIsDetected(starts: seq<Start>, next: Start, i: nat)
    requires starts != [] && Growing(starts + [next]) && !HasDirty(After(starts).rows)
    requires i < |After(starts).rows| && i < |next.list| && After(starts).rows[i].checksum != next.list[i].checksum
    ensures Apply(After(starts), next.list, next.fates) == (After(starts), ChecksumMismatch)
  {
    var all := starts + [next];
    assert all[..|starts|] == starts && all[|starts|] == next && all[|starts| - 1] == starts[|starts| - 1];
    assert Growing(starts) by {
      assert forall j | 0 <= j < |starts| :: starts[j] == all[j];
    }
    RunsStayOrderly(starts);
    LongerListIsOrderly(After(starts), VersionsOf(starts[|starts| - 1].list), VersionsOf(next.list));
    assert After(starts).rows[i].version == next.list[i].version;
    RunIsExact(After(starts), next.list, next.fates);
  }

  // ---------- The runner ----------

  class Database {
    var schemaMigrations: seq<Row>
    var scriptsStarted: seq<Version>

    ghost function View(): Db
      reads this
    {
      Db(schemaMigrations, scriptsStarted)
    }

    constructor ()
      ensures View() == FRESH
    {
      schemaMigrations, scriptsStarted := [], [];
    }

    /** Handles one migration; false when the run ends here. */
    method ApplyMigration(m: Migration, fate: Fate) returns (outcome: Option<Outcome>)
      modifies this
      ensures (View(), outcome) == ApplyOne(old(View()), m, fate)
    {
      var n := Find(schemaMigrations, m.version);
      if n < |schemaMigrations| {
        var existing := schemaMigrations[n];
        if existing.dirty {
          return Some(DirtyGuard);
        }
        if existing.checksum != m.checksum {
          return Some(ChecksumMismatch);
        }
        return None;
      }
      if fate.DiesBeforeInsertCommits? {
        return Some(Died);
      }
      schemaMigrations := schemaMigrations + [Row(m.version, m.checksum, true)];
      if fate.DiesBeforeScript? {
        return Some(Died);
      }
      scriptsStarted := scriptsStarted + [m.version];
      if !fate.Survives? {
        return Some(Died);
      }
      schemaMigrations := Cleared(schemaMigrations, m.version);
      return None;
    }

    method ApplyMigrations(list: seq<Migration>, fates: Version -> Fate) returns (outcome: Outcome)
      modifies this
      ensures (View(), outcome) == Apply(old(View()), list, fates)
    {
      if HasDirty(schemaMigrations) {
        return DirtyGuard;
      }
      var stopped: Option<Outcome> := None;
      var k := 0;
      while k < |list| && stopped.None?
        invariant 0 <= k <= |list|
        invariant (View(), stopped) == ApplyEach(old(View()), list[..k], fates)
      {
        assert list[..k + 1][..k] == list[..k];
        stopped := ApplyMigration(list[k], fates(list[k].version));
        k := k + 1;
      }
      StoppedStays(old(View()), list, fates, k);
      if stopped.Some? {
        return stopped.value;
      }
      outcome := Verify(schemaMigrations, list);
    }
  }

  lemma {:induction false} StoppedStays(db: Db, list: seq<Migration>, fates: Version -> Fate, k: nat)
    requires k <= |list|
    ensures k == |list| || ApplyEach(db, list[..k], fates).1.Some? ==>
              ApplyEach(db, list, fates) == ApplyEach(db, list[..k], fates)
    decreases |list|
  {
    if k == |list| {
      assert list[..k] == list;
    } else {
      var rest := list[..|list| - 1];
      assert rest[..k] == list[..k];
      StoppedStays(db, rest, fates, k);
    }
  }
}
