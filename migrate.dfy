/** The schema migration runner (tools/migrate/migrate.go). Migration files named
    `NNNN_name.sql` are applied in version order, each recorded in the `schema_migrations` table
    after its body has run. The database is the list of recorded (version, name) rows and the
    list of bodies executed; statement failures are parameters. */
module Migrate {
  import opened Wrappers
  import opened GoText

  /** A file of the embedded `sql` directory. */
  datatype Entry = Entry(name: string, isDir: bool, body: string)

  datatype Migration = Migration(version: string, name: string, body: string)

  datatype MigrateError =
    | EnsureFailed(error: string)
    | ListFailed(error: string)
    | ReadFailed(file: string, error: string)
    | ApplyFailed(file: string, error: string)

  /** SQLite's error for a second row with the same primary key. */
  const DuplicateVersion := "UNIQUE constraint failed: schema_migrations.version"

  // ---------------------------------------------------------------- file names

  /** The file name regular expression ^(\d{4})_(.+)\.sql$ spelled out: four ASCII digits, an
      underscore, a non-empty name without a line feed (RE2's `.`), and ".sql" at the very end. */
  predicate WellFormed(version: string, name: string) {
    |version| == 4 && AllDigits(version) && name != [] && '\n' !in name
  }

  function FileName(version: string, name: string): string {
    version + "_" + name + ".sql"
  }

  /** parseMigrationFilename */
  function ParseMigrationFilename(f: string): (r: Option<(string, string)>)
    ensures r.Some? ==> WellFormed(r.value.0, r.value.1) && f == FileName(r.value.0, r.value.1)
  {
    if |f| >= 10 && AllDigits(f[..4]) && f[4] == '_' && f[|f| - 4..] == ".sql" && '\n' !in f[5..|f| - 4] then
      var r := (f[..4], f[5..|f| - 4]);
      assert f == FileName(r.0, r.1);
      Some(r)
    else None
  }

  /** Every well-formed name is accepted and split back into its version and name: with the
      ensures of ParseMigrationFilename, the parser accepts exactly the file names the
      expression matches. */
  lemma ParseFileName(version: string, name: string)
    requires WellFormed(version, name)
    ensures ParseMigrationFilename(FileName(version, name)) == Some((version, name))
  {
    var f := FileName(version, name);
    assert f[..4] == version;
    assert f[5..|f| - 4] == name;
    assert f[|f| - 4..] == ".sql";
  }

  lemma RejectedNames()
    ensures ParseMigrationFilename("001_init.sql") == None
    ensures ParseMigrationFilename("0001_.sql") == None
    ensures ParseMigrationFilename("0001_init.sql.bak") == None
    ensures ParseMigrationFilename("0001_init.sql") == Some(("0001", "init"))
  {
    assert "001_init.sql"[..4][3] == '_';
    assert "0001_init.sql.bak"[13..] != ".sql" by {
      assert "0001_init.sql.bak"[13..][0] == '.' && "0001_init.sql.bak"[13..][1] == 'b';
    }
    ParseFileName("0001", "init");
    assert FileName("0001", "init") == "0001_init.sql";
  }

  // ---------------------------------------------------------------- version order

  /** Go's string comparison, character by character (for UTF-8 the same as byte order). */
  predicate LexLess(a: string, b: string) {
    if a == [] then b != []
    else if b == [] then false
    else a[0] < b[0] || (a[0] == b[0] && LexLess(a[1..], b[1..]))
  }

  lemma {:induction false} LexLessIrreflexive(a: string)
    ensures !LexLess(a, a)
  {
    if a != [] {
      LexLessIrreflexive(a[1..]);
    }
  }

  lemma {:induction false} LexLessTrichotomy(a: string, b: string)
    ensures a == b || LexLess(a, b) || LexLess(b, a)
  {
    if a != [] && b != [] && a[0] == b[0] {
      LexLessTrichotomy(a[1..], b[1..]);
      if a[1..] == b[1..] {
        assert a == [a[0]] + a[1..] && b == [b[0]] + b[1..];
      }
    }
  }

  lemma {:induction false} LexLessAsymmetric(a: string, b: string)
    ensures !(LexLess(a, b) && LexLess(b, a))
  {
    if a != [] && b != [] && a[0] == b[0] {
      LexLessAsymmetric(a[1..], b[1..]);
    }
  }

  lemma {:induction false} LexLessTransitive(a: string, b: string, c: string)
    requires LexLess(a, b) && LexLess(b, c)
    ensures LexLess(a, c)
  {
    if a != [] && a[0] == b[0] && b[0] == c[0] {
      LexLessTransitive(a[1..], b[1..], c[1..]);
    }
  }

  /** "a sorts no later than b" is transitive. */
  lemma NotLaterTransitive(a: string, b: string, c: string)
    requires !LexLess(b, a) && !LexLess(c, b)
    ensures !LexLess(c, a)
  {
    if LexLess(c, a) {
      LexLessTrichotomy(a, b);
      if a == b {
      } else if LexLess(a, b) {
        LexLessTransitive(c, a, b);
        assert false;
      }
    }
  }

  predicate ByVersion(s: seq<Migration>) {
    forall i, j :: 0 <= i < j < |s| ==> !LexLess(s[j].version, s[i].version)
  }

  function InsertByVersion(m: Migration, s: seq<Migration>): (r: seq<Migration>)
    ensures multiset(r) == multiset(s) + multiset{m}
  {
    if s == [] then [m]
    else if LexLess(s[0].version, m.version) then
      assert s == [s[0]] + s[1..];
      [s[0]] + InsertByVersion(m, s[1..])
    else [m] + s
  }

  lemma {:induction false} InsertByVersionSorted(m: Migration, s: seq<Migration>)
    requires ByVersion(s)
    ensures ByVersion(InsertByVersion(m, s))
  {
    if s == [] {
    } else if LexLess(s[0].version, m.version) {
      var tail := InsertByVersion(m, s[1..]);
      assert ByVersion(s[1..]) by {
        forall i, j | 0 <= i < j < |s[1..]| ensures !LexLess(s[1..][j].version, s[1..][i].version) {
          assert s[1..][i] == s[i + 1] && s[1..][j] == s[j + 1];
        }
      }
      InsertByVersionSorted(m, s[1..]);
      InsertedAfterHead(m, s);
      assert InsertByVersion(m, s) == [s[0]] + tail;
      ConsSorted(s[0], tail);
    } else {
      forall j | 0 <= j < |s| ensures !LexLess(s[j].version, m.version) {
        if j > 0 {
          NotLaterTransitive(m.version, s[0].version, s[j].version);
        }
      }
      ConsSorted(m, s);
    }
  }

  /** When m sorts after the head, nothing inserted into the rest sorts before the head. */
  lemma InsertedAfterHead(m: Migration, s: seq<Migration>)
    requires s != [] && ByVersion(s) && LexLess(s[0].version, m.version)
    ensures forall j :: 0 <= j < |InsertByVersion(m, s[1..])| ==>
      !LexLess(InsertByVersion(m, s[1..])[j].version, s[0].version)
  {
    var tail := InsertByVersion(m, s[1..]);
    forall j | 0 <= j < |tail| ensures !LexLess(tail[j].version, s[0].version) {
      assert tail[j] in multiset(tail);
      if tail[j] == m {
        LexLessAsymmetric(s[0].version, m.version);
      } else {
        assert tail[j] in multiset(s[1..]);
        var k :| 0 <= k < |s[1..]| && s[1..][k] == tail[j];
        assert s[k + 1] == tail[j];
      }
    }
  }

  /** A sorted sequence stays sorted with an element in front that sorts no later than any of it. */
  lemma ConsSorted(x: Migration, t: seq<Migration>)
    requires ByVersion(t)
    requires forall j :: 0 <= j < |t| ==> !LexLess(t[j].version, x.version)
    ensures ByVersion([x] + t)
  {
    var r := [x] + t;
    forall i, j | 0 <= i < j < |r| ensures !LexLess(r[j].version, r[i].version) {
      assert r[j] == t[j - 1];
      if i > 0 {
        assert r[i] == t[i - 1];
      }
    }
  }

  /** sort.Slice by version: the pending migrations in ascending version order. */
  function SortByVersion(s: seq<Migration>): (r: seq<Migration>)
    ensures multiset(r) == multiset(s)
  {
    if s == [] then []
    else
      assert s == [s[0]] + s[1..];
      InsertByVersion(s[0], SortByVersion(s[1..]))
  }

  /** The sort yields ascending versions and a permutation of its input. */
  lemma {:induction false} SortByVersionSorted(s: seq<Migration>)
    ensures ByVersion(SortByVersion(s))
    ensures multiset(SortByVersion(s)) == multiset(s)
  {
    if s != [] {
      SortByVersionSorted(s[1..]);
      InsertByVersionSorted(s[0], SortByVersion(s[1..]));
    }
  }

  // ---------------------------------------------------------------- pending selection

  predicate Applied(applied: map<string, bool>, version: string) {
    version in applied && applied[version]
  }

  /** The pending list of Run, or the first file that could not be read. */
  function Collect(entries: seq<Entry>, applied: map<string, bool>, readErr: string -> Option<string>): (r: (seq<Migration>, Option<MigrateError>))
    ensures r.1.Some? ==> r.0 == []
    ensures r.1.None? ==> |r.0| <= |entries|
  {
    if entries == [] then ([], None)
    else
      var e := entries[0];
      var rest := Collect(entries[1..], applied, readErr);
      var parsed := ParseMigrationFilename(e.name);
      if e.isDir || parsed.None? || Applied(applied, parsed.value.0) then rest
      else if readErr(e.name).Some? then ([], Some(ReadFailed(e.name, readErr(e.name).value)))
      else if rest.1.Some? then rest
      else ([Migration(parsed.value.0, parsed.value.1, e.body)] + rest.0, None)
  }

  /** Which entries become pending: exactly the files whose names parse and whose versions are
      not yet applied, each carrying its parsed version, name and body. */
  lemma {:induction false} CollectFacts(entries: seq<Entry>, applied: map<string, bool>, readErr: string -> Option<string>)
    requires Collect(entries, applied, readErr).1.None?
    ensures forall m :: m in Collect(entries, applied, readErr).0 ==>
      !Applied(applied, m.version) &&
      exists e :: e in entries && !e.isDir && ParseMigrationFilename(e.name) == Some((m.version, m.name)) && e.body == m.body
    ensures forall e :: e in entries && !e.isDir && ParseMigrationFilename(e.name).Some? && !Applied(applied, ParseMigrationFilename(e.name).value.0) ==>
      Migration(ParseMigrationFilename(e.name).value.0, ParseMigrationFilename(e.name).value.1, e.body) in Collect(entries, applied, readErr).0
  {
    if entries != [] {
      CollectFacts(entries[1..], applied, readErr);
      var rest := entries[1..];
      assert forall e :: e in entries ==> e == entries[0] || e in rest;
      forall m | m in Collect(entries, applied, readErr).0
        ensures exists e :: e in entries && !e.isDir && ParseMigrationFilename(e.name) == Some((m.version, m.name)) && e.body == m.body
      {
        if m !in Collect(rest, applied, readErr).0 {
          assert entries[0] in entries;
        } else {
          var e :| e in rest && !e.isDir && ParseMigrationFilename(e.name) == Some((m.version, m.name)) && e.body == m.body;
          assert e in entries;
        }
      }
    }
  }

  /** Run's file loop. */
  method CollectPending(entries: seq<Entry>, applied: map<string, bool>, readErr: string -> Option<string>)
    returns (pending: seq<Migration>, err: Option<MigrateError>)
    ensures (pending, err) == Collect(entries, applied, readErr)
  {
    pending := [];
    var i := 0;
    assert entries[0..] == entries;
    assert pending + Collect(entries, applied, readErr).0 == Collect(entries, applied, readErr).0;
    while i < |entries|
      invariant 0 <= i <= |entries|
      invariant Collect(entries, applied, readErr) ==
        var tail := Collect(entries[i..], applied, readErr);
        if tail.1.Some? then tail else (pending + tail.0, None)
    {
      var e := entries[i];
      assert entries[i..][1..] == entries[i + 1..];
      ghost var tail := Collect(entries[i + 1..], applied, readErr);
      var parsed := ParseMigrationFilename(e.name);
      if e.isDir || parsed.None? || Applied(applied, parsed.value.0) {
        assert Collect(entries[i..], applied, readErr) == tail;
      } else {
        if readErr(e.name).Some? {
          return [], Some(ReadFailed(e.name, readErr(e.name).value));
        }
        var m := Migration(parsed.value.0, parsed.value.1, e.body);
        if tail.1.None? {
          assert Collect(entries[i..], applied, readErr) == ([m] + tail.0, None);
          assert pending + ([m] + tail.0) == (pending + [m]) + tail.0;
        } else {
          assert Collect(entries[i..], applied, readErr) == tail;
        }
        pending := pending + [m];
      }
      i := i + 1;
    }
    assert entries[i..] == [];
    assert pending + [] == pending;
    return pending, None;
  }

  // ---------------------------------------------------------------- applying

  /** The migrations table and what has been executed against the database. */
  datatype Db = Db(recorded: seq<(string, string)>, executed: seq<string>)

  function Versions(recorded: seq<(string, string)>): set<string> {
    set i | 0 <= i < |recorded| :: recorded[i].0
  }

  /** apply: run the body, then insert the (version, name) row; a version already in the table
      violates its primary key. */
  function ApplyOne(db: Db, m: Migration, bodyErr: string -> Option<string>, recordErr: string -> Option<string>): (r: (Db, Option<string>))
    ensures r.1.None? ==> r.0 == Db(db.recorded + [(m.version, m.name)], db.executed + [m.body])
    ensures r.1.Some? ==> r.0.recorded == db.recorded
  {
    if bodyErr(m.body).Some? then (db, bodyErr(m.body))
    else
      var ran := db.(executed := db.executed + [m.body]);
      if m.version in Versions(db.recorded) then (ran, Some(DuplicateVersion))
      else if recordErr(m.version).Some? then (ran, recordErr(m.version))
      else (ran.(recorded := db.recorded + [(m.version, m.name)]), None)
  }

  /** Run's apply loop: in order, stopping at the first failure. */
  function ApplyAll(db: Db, ms: seq<Migration>, bodyErr: string -> Option<string>, recordErr: string -> Option<string>): (r: (Db, Option<MigrateError>))
    decreases |ms|
  {
    if ms == [] then (db, None)
    else
      var one := ApplyOne(db, ms[0], bodyErr, recordErr);
      if one.1.Some? then (one.0, Some(ApplyFailed(FileName(ms[0].version, ms[0].name), one.1.value)))
      else ApplyAll(one.0, ms[1..], bodyErr, recordErr)
  }

  /** The apply loop records the migrations it completes, in order, each after its body; it stops
      at the first failure, whose body may have run but whose version is not recorded, and
      nothing after it runs. */
  /** The database after the first k migrations of ms have completed. */
  function After(db: Db, ms: seq<Migration>, k: nat): Db
    requires k <= |ms|
  {
    Db(db.recorded + Rows(ms[..k]), db.executed + Bodies(ms[..k]))
  }

  /** r is the outcome of completing the first k migrations and then, if k < |ms|, failing on
      migration k. */
  predicate StopsAt(db: Db, ms: seq<Migration>, k: nat, r: (Db, Option<MigrateError>),
                    bodyErr: string -> Option<string>, recordErr: string -> Option<string>)
  {
    && k <= |ms|
    && r.0.recorded == After(db, ms, k).recorded
    && (r.1.None? ==> k == |ms| && r.0 == After(db, ms, k))
    && (r.1.Some? ==>
          && k < |ms|
          && var failed := ApplyOne(After(db, ms, k), ms[k], bodyErr, recordErr);
          && failed.1.Some?
          && r.0 == failed.0
          && r.1 == Some(ApplyFailed(FileName(ms[k].version, ms[k].name), failed.1.value)))
  }

  /** The apply loop records the migrations it completes, in order, each after its body; it stops
      at the first failure, whose body may have run but whose version is not recorded, and
      nothing after it runs. */
  lemma {:induction false} ApplyAllFacts(db: Db, ms: seq<Migration>, bodyErr: string -> Option<string>, recordErr: string -> Option<string>)
      returns (k: nat)
    decreases |ms|
    ensures StopsAt(db, ms, k, ApplyAll(db, ms, bodyErr, recordErr), bodyErr, recordErr)
  {
    var r := ApplyAll(db, ms, bodyErr, recordErr);
    assert ms[..0] == [];
    assert After(db, ms, 0) == db;
    k := 0;
    if ms != [] {
      var one := ApplyOne(db, ms[0], bodyErr, recordErr);
      if one.1.None? {
        var tail := ms[1..];
        var j := ApplyAllFacts(one.0, tail, bodyErr, recordErr);
        assert ms[..j + 1] == [ms[0]] + tail[..j];
        RowsAppend([ms[0]], tail[..j]);
        BodiesAppend([ms[0]], tail[..j]);
        assert After(one.0, tail, j) == After(db, ms, j + 1);
        assert j < |tail| ==> tail[j] == ms[j + 1];
        k := j + 1;
      }
    }
  }

  function Rows(ms: seq<Migration>): seq<(string, string)> {
    if ms == [] then [] else [(ms[0].version, ms[0].name)] + Rows(ms[1..])
  }

  function Bodies(ms: seq<Migration>): seq<string> {
    if ms == [] then [] else [ms[0].body] + Bodies(ms[1..])
  }

  lemma {:induction false} RowsAppend(a: seq<Migration>, b: seq<Migration>)
    ensures Rows(a + b) == Rows(a) + Rows(b)
  {
    if a != [] {
      assert (a + b)[1..] == a[1..] + b;
      RowsAppend(a[1..], b);
    } else {
      assert a + b == b;
    }
  }

  lemma {:induction false} BodiesAppend(a: seq<Migration>, b: seq<Migration>)
    ensures Bodies(a + b) == Bodies(a) + Bodies(b)
  {
    if a != [] {
      assert (a + b)[1..] == a[1..] + b;
      BodiesAppend(a[1..], b);
    } else {
      assert a + b == b;
    }
  }

  /** The applied-version set that appliedVersions reads from the table. */
  function AppliedOf(recorded: seq<(string, string)>): map<string, bool> {
    map v | v in Versions(recorded) :: true
  }

  /** Run as a function of the database and the failures along the way. */
  function RunOutcome(db: Db, entries: seq<Entry>, ensureErr: Option<string>, queryErr: Option<string>,
                      readErr: string -> Option<string>, bodyErr: string -> Option<string>,
                      recordErr: string -> Option<string>): (r: (Db, Option<MigrateError>))
  {
    if ensureErr.Some? then (db, Some(EnsureFailed(ensureErr.value)))
    else if queryErr.Some? then (db, Some(ListFailed(queryErr.value)))
    else
      var collected := Collect(entries, AppliedOf(db.recorded), readErr);
      if collected.1.Some? then (db, collected.1)
      else ApplyAll(db, SortByVersion(collected.0), bodyErr, recordErr)
  }

  /** A version already in the table is never applied again: a later Run over any files
      executes only bodies of migrations whose versions were not yet recorded. */
  lemma NeverReapplied(db: Db, entries: seq<Entry>, readErr: string -> Option<string>, m: Migration)
    requires Collect(entries, AppliedOf(db.recorded), readErr).1.None?
    requires m in SortByVersion(Collect(entries, AppliedOf(db.recorded), readErr).0)
    ensures m.version !in Versions(db.recorded)
  {
    var pending := Collect(entries, AppliedOf(db.recorded), readErr).0;
    CollectFacts(entries, AppliedOf(db.recorded), readErr);
    SortByVersionSorted(pending);
    assert m in multiset(SortByVersion(pending));
    assert m in pending;
  }

  /** The migration runner over one database handle. */
  class Migrator {
    var recorded: seq<(string, string)>
    var executed: seq<string>

    constructor(recorded: seq<(string, string)>)
      ensures this.recorded == recorded && executed == []
    {
      this.recorded := recorded;
      executed := [];
    }

    /** appliedVersions: the table's versions as a set. */
    method AppliedVersions() returns (out: map<string, bool>)
      ensures out == AppliedOf(recorded)
    {
      out := map[];
      var i := 0;
      while i < |recorded|
        invariant 0 <= i <= |recorded|
        invariant out == AppliedOf(recorded[..i])
      {
        assert recorded[..i + 1] == recorded[..i] + [recorded[i]];
        assert Versions(recorded[..i + 1]) == Versions(recorded[..i]) + {recorded[i].0} by {
          forall v | v in Versions(recorded[..i + 1]) ensures v in Versions(recorded[..i]) + {recorded[i].0} {
            var j :| 0 <= j < i + 1 && recorded[..i + 1][j].0 == v;
            if j < i {
              assert recorded[..i][j].0 == v;
            }
          }
          forall v | v in Versions(recorded[..i]) ensures v in Versions(recorded[..i + 1]) {
            var j :| 0 <= j < i && recorded[..i][j].0 == v;
            assert recorded[..i + 1][j].0 == v;
          }
          assert recorded[..i + 1][i].0 == recorded[i].0;
        }
        out := out[recorded[i].0 := true];
        i := i + 1;
      }
      assert recorded[..i] == recorded;
    }

    /** apply */
    method Apply(m: Migration, bodyErr: string -> Option<string>, recordErr: string -> Option<string>) returns (err: Option<string>)
      modifies this
      ensures (Db(recorded, executed), err) == ApplyOne(old(Db(recorded, executed)), m, bodyErr, recordErr)
    {
      if bodyErr(m.body).Some? {
        return bodyErr(m.body);
      }
      executed := executed + [m.body];
      if m.version in Versions(recorded) {
        return Some(DuplicateVersion);
      }
      if recordErr(m.version).Some? {
        return recordErr(m.version);
      }
      recorded := recorded + [(m.version, m.name)];
      return None;
    }

    /** Run */
    method Run(entries: seq<Entry>, ensureErr: Option<string>, queryErr: Option<string>,
               readErr: string -> Option<string>, bodyErr: string -> Option<string>,
               recordErr: string -> Option<string>) returns (err: Option<MigrateError>)
      modifies this
      ensures (Db(recorded, executed), err)
        == RunOutcome(old(Db(recorded, executed)), entries, ensureErr, queryErr, readErr, bodyErr, recordErr)
    {
      if ensureErr.Some? {
        return Some(EnsureFailed(ensureErr.value));
      }
      if queryErr.Some? {
        return Some(ListFailed(queryErr.value));
      }
      var applied := AppliedVersions();
      var pending, readFailure := CollectPending(entries, applied, readErr);
      if readFailure.Some? {
        return readFailure;
      }
      pending := SortByVersion(pending);
      var i := 0;
      while i < |pending|
        invariant 0 <= i <= |pending|
        invariant ApplyAll(old(Db(recorded, executed)), pending, bodyErr, recordErr)
          == ApplyAll(Db(recorded, executed), pending[i..], bodyErr, recordErr)
      {
        assert pending[i..][1..] == pending[i + 1..];
        var m := pending[i];
        var e := Apply(m, bodyErr, recordErr);
        if e.Some? {
          return Some(ApplyFailed(FileName(m.version, m.name), e.value));
        }
        i := i + 1;
      }
      assert pending[i..] == [];
      return None;
    }
  }
}
