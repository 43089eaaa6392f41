/** Opening the server's SQLite database (server/internal/db/db.go): the DSN is taken verbatim
    or built from the path, creating the path's directory first; the pool limits are applied
    only when meaningful; a failed ping closes the handle. `filepath.Dir`, `os.MkdirAll` and
    the driver's open, ping and close are parameters. */
module ServerDb {
  import opened Wrappers
  import opened Dsn

  /** The database settings db.go reads from its configuration. */
  datatype DbConfig = DbConfig(driver: string, dsn: string, path: string, maxOpenConns: int,
                               maxIdleConns: int, connMaxLifetime: int)

  datatype DbError = MkdirFailed(dir: string, error: string) | OpenFailed(error: string) | PingFailed(error: string)

  /** What buildDSN does: the directory it asks MkdirAll for, and the DSN or the error. */
  datatype DsnOutcome = DsnOutcome(mkdir: Option<string>, dsn: string, err: Option<DbError>)

  /** buildDSN */
  function BuildDsn(cfg: DbConfig, dir: string -> string, mkdirErr: string -> Option<string>): (r: DsnOutcome)
    ensures cfg.dsn != "" ==> r == DsnOutcome(None, cfg.dsn, None)
    ensures cfg.dsn == "" ==> (r.mkdir.Some? <==> dir(cfg.path) != ".")
    ensures r.mkdir.Some? ==> r.mkdir.value == dir(cfg.path)
    ensures r.err.Some? <==> r.mkdir.Some? && mkdirErr(r.mkdir.value).Some?
    ensures r.err.None? ==> r.dsn == if cfg.dsn != "" then cfg.dsn else FileDsn(cfg.path)
  {
    if cfg.dsn != "" then DsnOutcome(None, cfg.dsn, None)
    else
      var d := dir(cfg.path);
      var mkdir := if d != "." then Some(d) else None;
      if d != "." && mkdirErr(d).Some? then DsnOutcome(mkdir, "", Some(MkdirFailed(d, mkdirErr(d).value)))
      else DsnOutcome(mkdir, FileDsn(cfg.path), None)
  }

  /** An open database handle and the pool settings applied to it; None is a setting left at
      database/sql's default. */
  class Handle {
    const driver: string
    const dsn: string
    var maxOpenConns: Option<int>
    var maxIdleConns: Option<int>
    var connMaxLifetime: Option<int>
    var closed: bool

    constructor(driver: string, dsn: string)
      ensures this.driver == driver && this.dsn == dsn
      ensures maxOpenConns.None? && maxIdleConns.None? && connMaxLifetime.None? && !closed
    {
      this.driver := driver;
      this.dsn := dsn;
      maxOpenConns := None;
      maxIdleConns := None;
      connMaxLifetime := None;
      closed := false;
    }

    method SetMaxOpenConns(n: int)
      modifies this
      ensures maxOpenConns == Some(n)
      ensures maxIdleConns == old(maxIdleConns) && connMaxLifetime == old(connMaxLifetime) && closed == old(closed)
    {
      maxOpenConns := Some(n);
    }

    method SetMaxIdleConns(n: int)
      modifies this
      ensures maxIdleConns == Some(n)
      ensures maxOpenConns == old(maxOpenConns) && connMaxLifetime == old(connMaxLifetime) && closed == old(closed)
    {
      maxIdleConns := Some(n);
    }

    method SetConnMaxLifetime(d: int)
      modifies this
      ensures connMaxLifetime == Some(d)
      ensures maxOpenConns == old(maxOpenConns) && maxIdleConns == old(maxIdleConns) && closed == old(closed)
    {
      connMaxLifetime := Some(d);
    }

    method Close()
      modifies this
      ensures closed
      ensures maxOpenConns == old(maxOpenConns) && maxIdleConns == old(maxIdleConns) && connMaxLifetime == old(connMaxLifetime)
    {
      closed := true;
    }
  }

  /** The pool settings Open applies: a limit on open connections only when positive, on idle
      connections when not negative, and on connection lifetime when positive. */
  function PoolSettings(cfg: DbConfig): (r: (Option<int>, Option<int>, Option<int>))
    ensures r.0.Some? <==> cfg.maxOpenConns > 0
    ensures r.1.Some? <==> cfg.maxIdleConns >= 0
    ensures r.2.Some? <==> cfg.connMaxLifetime > 0
    ensures r.0.Some? ==> r.0.value == cfg.maxOpenConns
    ensures r.1.Some? ==> r.1.value == cfg.maxIdleConns
    ensures r.2.Some? ==> r.2.value == cfg.connMaxLifetime
  {
    (if cfg.maxOpenConns > 0 then Some(cfg.maxOpenConns) else None,
     if cfg.maxIdleConns >= 0 then Some(cfg.maxIdleConns) else None,
     if cfg.connMaxLifetime > 0 then Some(cfg.connMaxLifetime) else None)
  }

  /** Open. `openErr` is sql.Open's answer for the driver and `pingErr` the ping's; `dropped` is
      the handle a failed ping closes. */
  method Open(cfg: DbConfig, dir: string -> string, mkdirErr: string -> Option<string>,
              openErr: Option<string>, pingErr: Option<string>)
      returns (h: Handle?, err: Option<DbError>, ghost dropped: Handle?)
    ensures h == null <==> err.Some?
    ensures BuildDsn(cfg, dir, mkdirErr).err.Some? ==> err == BuildDsn(cfg, dir, mkdirErr).err && dropped == null
    ensures BuildDsn(cfg, dir, mkdirErr).err.None? && openErr.Some? ==> err == Some(OpenFailed(openErr.value)) && dropped == null
    ensures BuildDsn(cfg, dir, mkdirErr).err.None? && openErr.None? && pingErr.Some? ==>
      && err == Some(PingFailed(pingErr.value))
      && dropped != null && fresh(dropped) && dropped.closed
    ensures h != null ==>
      && fresh(h) && !h.closed
      && BuildDsn(cfg, dir, mkdirErr).err.None? && openErr.None? && pingErr.None?
      && h.driver == cfg.driver && h.dsn == BuildDsn(cfg, dir, mkdirErr).dsn
      && (h.maxOpenConns, h.maxIdleConns, h.connMaxLifetime) == PoolSettings(cfg)
  {
    dropped := null;
    var built := BuildDsn(cfg, dir, mkdirErr);
    if built.err.Some? {
      return null, built.err, null;
    }
    if openErr.Some? {
      return null, Some(OpenFailed(openErr.value)), null;
    }
    var db := new Handle(cfg.driver, built.dsn);
    if cfg.maxOpenConns > 0 {
      db.SetMaxOpenConns(cfg.maxOpenConns);
    }
    if cfg.maxIdleConns >= 0 {
      db.SetMaxIdleConns(cfg.maxIdleConns);
    }
    if cfg.connMaxLifetime > 0 {
      db.SetConnMaxLifetime(cfg.connMaxLifetime);
    }
    if pingErr.Some? {
      db.Close();
      return null, Some(PingFailed(pingErr.value)), db;
    }
    return db, None, null;
  }

  /** Close: a nil handle is not an error; otherwise the handle is closed and the driver's
      answer returned. */
  method Close(db: Handle?, closeErr: Option<string>) returns (err: Option<string>)
    modifies db
    ensures db == null ==> err.None?
    ensures db != null ==> db.closed && err == closeErr
  {
    if db == null {
      return None;
    }
    db.Close();
    return closeErr;
  }
}
