/** What the four configuration loaders share: reading a trimmed environment variable with a
    default, the APP_ENV check and parseLogLevel, which appears verbatim in
    gateway/internal/config, server/internal/config, server/pkg/config and server/cmd. */
module EnvConfig {
  import opened Wrappers
  import opened GoText

  /** The process environment; os.Getenv gives "" for a variable that is not set. */
  type Env = map<string, string>

  function Getenv(env: Env, key: string): string {
    if key in env then env[key] else ""
  }

  /** strings.TrimSpace(os.Getenv(key)), replaced by `default` when empty. */
  function Setting(env: Env, key: string, default: string): (v: string)
    ensures v == default || v == TrimSpace(Getenv(env, key))
    ensures TrimSpace(Getenv(env, key)) == "" ==> v == default
    ensures TrimSpace(Getenv(env, key)) != "" ==> v == TrimSpace(Getenv(env, key))
  {
    var v := TrimSpace(Getenv(env, key));
    if v == "" then default else v
  }

  /** slog levels; Info is the zero value (slog.Level 0). */
  datatype Level = Debug | Info | Warn | Error

  function SlogValue(l: Level): int {
    match l
    case Debug => -4
    case Info => 0
    case Warn => 4
    case Error => 8
  }

  /** The errors the loaders return; each names the variable and the offending text. */
  datatype EnvError =
    | InvalidAppEnv(value: string)
    | InvalidLogLevel(value: string)
    | InvalidValue(variable: string, value: string)
    | NotPositive(variable: string, duration: int)
    | PathError(variable: string, value: string)

  /** APP_ENV: trimmed, "dev" by default, and exactly "dev" or "prod". */
  function AppEnv(env: Env): (r: (string, Option<EnvError>))
    ensures r.1.None? <==> r.0 == "dev" || r.0 == "prod"
    ensures r.1.Some? ==> r.1 == Some(InvalidAppEnv(Setting(env, "APP_ENV", "dev")))
    ensures r.0 == Setting(env, "APP_ENV", "dev")
  {
    var appEnv := Setting(env, "APP_ENV", "dev");
    if appEnv == "dev" || appEnv == "prod" then (appEnv, None) else (appEnv, Some(InvalidAppEnv(appEnv)))
  }

  /** The switch of parseLogLevel on the normalised name. */
  function LevelOfKey(key: string): (l: Option<Level>)
    ensures l.Some? <==> key in {"debug", "info", "warn", "warning", "error"}
  {
    match key
    case "debug" => Some(Debug)
    case "info" => Some(Info)
    case "warn" => Some(Warn)
    case "warning" => Some(Warn)
    case "error" => Some(Error)
    case _ => None
  }

  /** The name parseLogLevel switches on. */
  function LevelKey(s: string): string {
    ToLower(TrimSpace(s))
  }

  /** parseLogLevel: the trimmed, lower-cased name; an unknown one gives Info and an error naming
      the argument as given. */
  function ParseLogLevel(s: string): (r: (Level, Option<EnvError>))
    ensures r.1.Some? ==> r == (Info, Some(InvalidLogLevel(s)))
    ensures r.1.None? <==> LevelKey(s) in {"debug", "info", "warn", "warning", "error"}
  {
    match LevelOfKey(LevelKey(s))
    case Some(l) => (l, None)
    case None => (Info, Some(InvalidLogLevel(s)))
  }

  /** A lower-case ASCII word is its own key. */
  lemma KeyOfWord(w: string)
    requires forall i :: 0 <= i < |w| ==> 'a' <= w[i] <= 'z'
    ensures LevelKey(w) == w
  {
    TrimSpaceFixed(w);
  }

  /** "warn" and "warning" are the same level, and the only names of it. */
  lemma WarnAliases(s: string)
    ensures ParseLogLevel(s) == (Warn, None) <==> LevelKey(s) == "warn" || LevelKey(s) == "warning"
  {
    var key := LevelKey(s);
    if key != "warn" && key != "warning" {
      assert LevelOfKey(key) != Some(Warn);
    }
  }

  /** The level does not depend on case or on surrounding white space. */
  lemma ParseLogLevelNormalises(s: string)
    ensures ParseLogLevel(ToLower(s)).0 == ParseLogLevel(s).0
    ensures ParseLogLevel(TrimSpace(s)).0 == ParseLogLevel(s).0
    ensures ParseLogLevel(ToLower(s)).1.None? == ParseLogLevel(s).1.None?
    ensures ParseLogLevel(TrimSpace(s)).1.None? == ParseLogLevel(s).1.None?
  {
    ToLowerTrimSpace(s);
    ToLowerIdempotent(TrimSpace(s));
    TrimSpaceIdempotent(s);
    assert LevelKey(ToLower(s)) == LevelKey(s);
    assert LevelKey(TrimSpace(s)) == LevelKey(s);
  }

  /** LOG_LEVEL: trimmed, "info" by default, then parseLogLevel. */
  function LogLevel(env: Env): (r: (Level, Option<EnvError>))
    ensures r == ParseLogLevel(Setting(env, "LOG_LEVEL", "info"))
  {
    ParseLogLevel(Setting(env, "LOG_LEVEL", "info"))
  }

  lemma ParseInfo()
    ensures ParseLogLevel("info") == (Info, None)
  {
    KeyOfWord("info");
  }

  /** An unset or blank LOG_LEVEL gives Info. */
  lemma DefaultLogLevel(env: Env)
    requires TrimSpace(Getenv(env, "LOG_LEVEL")) == ""
    ensures LogLevel(env) == (Info, None)
  {
    assert Setting(env, "LOG_LEVEL", "info") == "info";
    ParseInfo();
  }

  /** The database settings read identically by server/internal/config and server/pkg/config. */
  datatype DbSettings = DbSettings(
    driver: string, dsn: string, path: string, maxOpenConns: int, maxIdleConns: int, connMaxLifetime: int)

  const ZeroDbSettings := DbSettings("", "", "", 0, 0, 0)

  /** DB_DRIVER ("sqlite3"), DB_DSN (no default), SQLITE_PATH ("../dev/sqlite/app.db"), the two
      connection counts (default "1", must be integers) and DB_CONN_MAX_LIFETIME (default "0s",
      must parse; its error quotes the variable as set, not the default). */
  function DbSettingsFromEnv(env: Env, parseDuration: string -> Option<int>): (r: (DbSettings, Option<EnvError>))
    ensures r.1.Some? ==> r.0 == ZeroDbSettings
    ensures r.1.None? ==> r.0.driver == Setting(env, "DB_DRIVER", "sqlite3")
    ensures r.1.None? ==> r.0.dsn == TrimSpace(Getenv(env, "DB_DSN"))
    ensures r.1.None? ==> r.0.path == Setting(env, "SQLITE_PATH", "../dev/sqlite/app.db")
    ensures r.1.None? ==> Atoi(Setting(env, "DB_MAX_OPEN_CONNS", "1")) == Some(r.0.maxOpenConns)
    ensures r.1.None? ==> Atoi(Setting(env, "DB_MAX_IDLE_CONNS", "1")) == Some(r.0.maxIdleConns)
    ensures r.1.None? ==> parseDuration(Setting(env, "DB_CONN_MAX_LIFETIME", "0s")) == Some(r.0.connMaxLifetime)
  {
    var driver := Setting(env, "DB_DRIVER", "sqlite3");
    var dsn := TrimSpace(Getenv(env, "DB_DSN"));
    var path := Setting(env, "SQLITE_PATH", "../dev/sqlite/app.db");
    var maxOpenStr := Setting(env, "DB_MAX_OPEN_CONNS", "1");
    match Atoi(maxOpenStr)
    case None => (ZeroDbSettings, Some(InvalidValue("DB_MAX_OPEN_CONNS", maxOpenStr)))
    case Some(maxOpen) =>
      var maxIdleStr := Setting(env, "DB_MAX_IDLE_CONNS", "1");
      match Atoi(maxIdleStr)
      case None => (ZeroDbSettings, Some(InvalidValue("DB_MAX_IDLE_CONNS", maxIdleStr)))
      case Some(maxIdle) =>
        var lifetimeStr := Setting(env, "DB_CONN_MAX_LIFETIME", "0s");
        match parseDuration(lifetimeStr)
        case None =>
          (ZeroDbSettings, Some(InvalidValue("DB_CONN_MAX_LIFETIME", TrimSpace(Getenv(env, "DB_CONN_MAX_LIFETIME")))))
        case Some(lifetime) => (DbSettings(driver, dsn, path, maxOpen, maxIdle, lifetime), None)
  }

  /** The default count text reads as 1. */
  lemma DefaultCountParses()
    ensures Atoi("1") == Some(1)
  {
    assert "1"[..0] == "";
  }

  /** With nothing set: sqlite3, no DSN, the development database path, one connection of each
      kind and no lifetime limit. */
  lemma DbSettingsDefaults(parseDuration: string -> Option<int>)
    requires parseDuration("0s") == Some(0)
    ensures DbSettingsFromEnv(map[], parseDuration) == (DbSettings("sqlite3", "", "../dev/sqlite/app.db", 1, 1, 0), None)
  {
    var env: Env := map[];
    assert forall key :: Getenv(env, key) == "";
    DefaultCountParses();
  }
}
