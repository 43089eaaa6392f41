/** The SQLite data source name built from a database path, shared by the migration tool
    (tools/main.go) and the server (server/internal/db/db.go): the fixed connection parameters
    are appended to a "file:" URI, starting its query string or extending the one it has. */
module Dsn {
  /** strings.Join of the three parameters _foreign_keys=on, _busy_timeout=5000 and
      _journal_mode=WAL with "&". */
  const Params := "_foreign_keys=on&_busy_timeout=5000&_journal_mode=WAL"

  const FileScheme := "file:"

  predicate HasFileScheme(path: string) {
    |path| >= |FileScheme| && path[..|FileScheme|] == FileScheme
  }

  /** buildDSN for a path: a "file:" path keeps its form and gets the parameters after "?", or
      after "&" when it already has a query; any other path is wrapped as "file:<path>?". */
  function FileDsn(path: string): (dsn: string)
  {
    if HasFileScheme(path) then
      var sep := if '?' in path then "&" else "?";
      path + sep + Params
    else FileScheme + path + "?" + Params
  }

  /** Taking a DSN apart: it is a "file:" URI whose last characters are the parameters, preceded
      by one separator, and in front of that is the path itself, with "file:" added only when the
      path lacked it. The separator is "&" exactly when the path already carried a query. */
  lemma FileDsnParts(path: string)
    ensures var dsn := FileDsn(path);
      var n := |dsn| - |Params| - 1;
      && 0 <= n
      && HasFileScheme(dsn)
      && dsn[n + 1..] == Params
      && dsn[..n] == (if HasFileScheme(path) then path else FileScheme + path)
      && (dsn[n] == '&' <==> HasFileScheme(path) && '?' in path)
      && (dsn[n] != '&' ==> dsn[n] == '?')
  {
    var dsn := FileDsn(path);
    var n := |dsn| - |Params| - 1;
    if HasFileScheme(path) {
      var sep := if '?' in path then "&" else "?";
      assert dsn == path + sep + Params;
      assert dsn[..n] == path;
      assert dsn[n] == sep[0];
      assert dsn[..|FileScheme|] == path[..|FileScheme|];
    } else {
      assert dsn == (FileScheme + path) + "?" + Params;
      assert dsn[..n] == FileScheme + path;
      assert dsn[n] == '?';
      assert dsn[..|FileScheme|] == FileScheme;
    }
  }

  /** "file:" in front of a plain path without a query makes no difference: both spellings
      name the same database with the same parameters. */
  lemma {:induction false} SchemeOptional(path: string)
    requires !HasFileScheme(path) && '?' !in path
    ensures FileDsn(FileScheme + path) == FileDsn(path)
  {
    var p := FileScheme + path;
    assert p[..|FileScheme|] == FileScheme;
    assert '?' !in p by {
      forall i | 0 <= i < |p| ensures p[i] != '?' {
        if i >= |FileScheme| {
          assert p[i] == path[i - |FileScheme|];
        }
      }
    }
  }

  /** The default database path of the migration tool and the server. */
  lemma DefaultPathDsn()
    ensures FileDsn("../dev/sqlite/app.db") == "file:../dev/sqlite/app.db?" + Params
  {
    var p := "../dev/sqlite/app.db";
    assert !HasFileScheme(p) by {
      assert p[..|FileScheme|][0] == '.' != FileScheme[0];
    }
    assert FileDsn(p) == FileScheme + p + "?" + Params;
    assert FileScheme + p + "?" == "file:../dev/sqlite/app.db?";
  }
}
