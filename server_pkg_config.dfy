/** The configuration loader of the server's public package (server/pkg/config/config.go): the
    same checks as the internal one, without a static directory. */
module ServerPkgConfig {
  import opened Wrappers
  import opened GoText
  import opened EnvConfig

  datatype Config = Config(appEnv: string, logLevel: Level, httpAddr: string, db: DbSettings)

  /** Config{}: the value every error path returns. */
  const ZeroConfig := Config("", Info, "", ZeroDbSettings)

  type Loaded = (Config, Option<EnvError>)

  function LoadFromEnv(env: Env, parseDuration: string -> Option<int>): (r: Loaded)
    ensures r.1.Some? ==> r.0 == ZeroConfig
    ensures AppEnv(env).1.Some? ==> r.1 == AppEnv(env).1
    ensures AppEnv(env).1.None? && LogLevel(env).1.Some? ==> r.1 == LogLevel(env).1
    ensures AppEnv(env).1.None? && LogLevel(env).1.None? ==> r.1 == DbSettingsFromEnv(env, parseDuration).1
    ensures r.1.None? ==> r.0.appEnv == AppEnv(env).0 && (r.0.appEnv == "dev" || r.0.appEnv == "prod")
    ensures r.1.None? ==> r.0.logLevel == LogLevel(env).0
    ensures r.1.None? ==> r.0.httpAddr == Setting(env, "HTTP_ADDR", ":8080")
    ensures r.1.None? ==> DbSettingsFromEnv(env, parseDuration) == (r.0.db, None)
  {
    var appEnv := AppEnv(env);
    if appEnv.1.Some? then (ZeroConfig, appEnv.1)
    else
      var level := LogLevel(env);
      if level.1.Some? then (ZeroConfig, level.1)
      else
        var httpAddr := Setting(env, "HTTP_ADDR", ":8080");
        var db := DbSettingsFromEnv(env, parseDuration);
        if db.1.Some? then (ZeroConfig, db.1)
        else (Config(appEnv.0, level.0, httpAddr, db.0), None)
  }

  /** With nothing set: dev, Info and ":8080". */
  lemma EmptyEnvDefaults(parseDuration: string -> Option<int>)
    requires parseDuration("0s") == Some(0)
    ensures var r := LoadFromEnv(map[], parseDuration);
      r.1.None? && r.0.appEnv == "dev" && r.0.logLevel == Info && r.0.httpAddr == ":8080"
  {
    var env: Env := map[];
    assert forall key :: Getenv(env, key) == "";
    DefaultLogLevel(env);
    DbSettingsDefaults(parseDuration);
  }

  /** "staging", "qa" and the upper-case "DEV" are not environments: loading fails on APP_ENV
      with the zero Config. */
  lemma OtherEnvsRejected(parseDuration: string -> Option<int>, value: string)
    requires value == "staging" || value == "qa" || value == "DEV"
    ensures LoadFromEnv(map["APP_ENV" := value], parseDuration) == (ZeroConfig, Some(InvalidAppEnv(value)))
  {
    var env := map["APP_ENV" := value];
    TrimSpaceFixed(value);
  }
}
