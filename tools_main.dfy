/** The command-line entry of the migration tool (tools/main.go): choose the database path, open
    it through the DSN of module Dsn, then dispatch on the command word. The path cleaning,
    the driver and the migration run itself are parameters. */
module ToolsMain {
  import opened Wrappers
  import opened EnvConfig
  import opened Dsn

  const DefaultDbPath := "../dev/sqlite/app.db"
  const MigrateCommand := "migrate"

  /** How the tool ends: every outcome but MigrationsApplied exits with status 1. */
  datatype Outcome =
    | DbOpenFailed(cause: OpenError)
    | Usage(program: string)
    | MigrateFailed(error: string)
    | MigrationsApplied
    | UnknownCommand(command: string)

  datatype OpenError = SqlOpenFailed(error: string) | PingFailed(error: string)

  function ExitStatus(o: Outcome): int {
    if o.MigrationsApplied? then 0 else 1
  }

  /** SQLITE_PATH as given (not trimmed), defaulted when empty, then cleaned. */
  function DbPath(env: Env, clean: string -> string): (path: string)
    ensures Getenv(env, "SQLITE_PATH") == "" ==> path == clean(DefaultDbPath)
    ensures Getenv(env, "SQLITE_PATH") != "" ==> path == clean(env["SQLITE_PATH"])
  {
    var p := Getenv(env, "SQLITE_PATH");
    clean(if p == "" then DefaultDbPath else p)
  }

  /** Open: the DSN is built (it cannot fail), opened and pinged; the handle is the DSN. */
  function Open(dbPath: string, openErr: Option<string>, pingErr: Option<string>): (r: (Option<string>, Option<OpenError>))
    ensures r.0.Some? <==> openErr.None? && pingErr.None?
    ensures r.0.Some? ==> r.0.value == FileDsn(dbPath) && r.1.None?
    ensures openErr.Some? ==> r.1 == Some(SqlOpenFailed(openErr.value))
    ensures openErr.None? && pingErr.Some? ==> r.1 == Some(PingFailed(pingErr.value))
  {
    var dsn := FileDsn(dbPath);
    if openErr.Some? then (None, Some(SqlOpenFailed(openErr.value)))
    else if pingErr.Some? then (None, Some(PingFailed(pingErr.value)))
    else (Some(dsn), None)
  }

  /** main. `openErr` and `pingErr` are the driver's answers for the chosen DSN and
      `migrateErr` the result of migrate.Run on the opened database. The tool succeeds exactly
      when the database opens, the command is "migrate" and the migrations apply; a missing or
      unknown command exits with status 1, and the database is opened before the command is
      looked at, so an open failure wins over a bad command. */
  function ToolMain(env: Env, args: seq<string>, clean: string -> string, openErr: Option<string>,
                    pingErr: Option<string>, migrateErr: Option<string>): (o: Outcome)
    requires args != []
    ensures ExitStatus(o) == 0 <==> openErr.None? && pingErr.None? && |args| >= 2 && args[1] == MigrateCommand && migrateErr.None?
    ensures openErr.Some? || pingErr.Some? ==> o.DbOpenFailed?
    ensures openErr.None? && pingErr.None? && |args| < 2 ==> o == Usage(args[0])
    ensures openErr.None? && pingErr.None? && |args| >= 2 && args[1] != MigrateCommand ==> o == UnknownCommand(args[1])
  {
    var handle := Open(DbPath(env, clean), openErr, pingErr);
    if handle.1.Some? then DbOpenFailed(handle.1.value)
    else if |args| < 2 then Usage(args[0])
    else if args[1] == MigrateCommand then
      if migrateErr.Some? then MigrateFailed(migrateErr.value) else MigrationsApplied
    else UnknownCommand(args[1])
  }

  /** With no SQLITE_PATH the tool opens the default database, wrapped as a "file:" URI. */
  lemma DefaultDatabase(env: Env, openErr: Option<string>, pingErr: Option<string>)
    requires "SQLITE_PATH" !in env && openErr.None? && pingErr.None?
    ensures Open(DbPath(env, p => p), openErr, pingErr).0 == Some("file:../dev/sqlite/app.db?" + Params)
  {
    DefaultPathDsn();
  }
}
