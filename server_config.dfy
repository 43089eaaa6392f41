/** The server's configuration loader (server/internal/config/config.go). filepath.Abs is the
    parameter `abs` (None when it fails), time.ParseDuration is `parseDuration`; durations are
    nanoseconds. */
module ServerConfig {
  import opened Wrappers
  import opened GoText
  import opened EnvConfig

  datatype Config = Config(
    appEnv: string,
    logLevel: Level,
    httpAddr: string,
    staticDir: string,
    db: DbSettings)

  /** Config{}: the value every error path returns. */
  const ZeroConfig := Config("", Info, "", "", ZeroDbSettings)

  type Loaded = (Config, Option<EnvError>)

  /** LoadFromEnv: APP_ENV, then LOG_LEVEL, then the HTTP and static-directory settings, then the
      database settings; the first failing check decides the error. */
  function LoadFromEnv(env: Env, parseDuration: string -> Option<int>, abs: string -> Option<string>): (r: Loaded)
    ensures r.1.Some? ==> r.0 == ZeroConfig
    ensures AppEnv(env).1.Some? ==> r.1 == AppEnv(env).1
    ensures AppEnv(env).1.None? && LogLevel(env).1.Some? ==> r.1 == LogLevel(env).1
    ensures r.1.None? ==> r.0.appEnv == AppEnv(env).0 && (r.0.appEnv == "dev" || r.0.appEnv == "prod")
    ensures r.1.None? ==> r.0.logLevel == LogLevel(env).0
  {
    var appEnv := AppEnv(env);
    if appEnv.1.Some? then (ZeroConfig, appEnv.1)
    else
      var level := LogLevel(env);
      if level.1.Some? then (ZeroConfig, level.1)
      else LoadHttp(env, parseDuration, abs, appEnv.0, level.0)
  }

  /** HTTP_ADDR (default ":8080"), STATIC_DIR (default "static", made absolute), then the
      database settings. When filepath.Abs fails it has already replaced the directory by "",
      so the error quotes "". */
  function LoadHttp(env: Env, parseDuration: string -> Option<int>, abs: string -> Option<string>,
                    appEnv: string, level: Level): (r: Loaded)
    ensures r.1.Some? ==> r.0 == ZeroConfig
    ensures abs(Setting(env, "STATIC_DIR", "static")).None? ==> r.1 == Some(PathError("STATIC_DIR", ""))
    ensures r.1.None? ==> r.0.appEnv == appEnv && r.0.logLevel == level
    ensures r.1.None? ==> r.0.httpAddr == Setting(env, "HTTP_ADDR", ":8080")
    ensures r.1.None? ==> abs(Setting(env, "STATIC_DIR", "static")) == Some(r.0.staticDir)
    ensures r.1.None? ==> DbSettingsFromEnv(env, parseDuration) == (r.0.db, None)
    ensures abs(Setting(env, "STATIC_DIR", "static")).Some? ==> r.1 == DbSettingsFromEnv(env, parseDuration).1
  {
    var httpAddr := Setting(env, "HTTP_ADDR", ":8080");
    match abs(Setting(env, "STATIC_DIR", "static"))
    case None => (ZeroConfig, Some(PathError("STATIC_DIR", "")))
    case Some(staticDir) =>
      var db := DbSettingsFromEnv(env, parseDuration);
      if db.1.Some? then (ZeroConfig, db.1)
      else (Config(appEnv, level, httpAddr, staticDir, db.0), None)
  }

  /** With nothing set: dev, Info, ":8080", the absolute form of "static" and the database
      defaults. */
  lemma EmptyEnvDefaults(parseDuration: string -> Option<int>, abs: string -> Option<string>, dir: string)
    requires parseDuration("0s") == Some(0) && abs("static") == Some(dir)
    ensures LoadFromEnv(map[], parseDuration, abs)
      == (Config("dev", Info, ":8080", dir, DbSettings("sqlite3", "", "../dev/sqlite/app.db", 1, 1, 0)), None)
  {
    var env: Env := map[];
    assert forall key :: Getenv(env, key) == "";
    DefaultLogLevel(env);
    DbSettingsDefaults(parseDuration);
  }
}
