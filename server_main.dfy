/** The server binary's own configuration (loadConfigFromEnv in server/cmd/main.go). */
module ServerMain {
  import opened Wrappers
  import opened EnvConfig

  datatype Config = Config(appEnv: string, logLevel: Level)

  const ZeroConfig := Config("", Info)

  /** APP_ENV first, then LOG_LEVEL; either error comes with the zero Config. */
  function LoadConfigFromEnv(env: Env): (r: (Config, Option<EnvError>))
    ensures r.1.Some? ==> r.0 == ZeroConfig
    ensures AppEnv(env).1.Some? ==> r.1 == AppEnv(env).1
    ensures AppEnv(env).1.None? ==> r.1 == LogLevel(env).1
    ensures r.1.None? ==> r.0 == Config(AppEnv(env).0, LogLevel(env).0)
    ensures r.1.None? ==> r.0.appEnv == "dev" || r.0.appEnv == "prod"
  {
    var appEnv := AppEnv(env);
    if appEnv.1.Some? then (ZeroConfig, appEnv.1)
    else
      var level := LogLevel(env);
      if level.1.Some? then (ZeroConfig, level.1)
      else (Config(appEnv.0, level.0), None)
  }

  /** An unknown LOG_LEVEL in a valid environment gives the zero Config and the level error. */
  lemma InvalidLevelFails(env: Env)
    requires AppEnv(env).1.None?
    requires LevelOfKey(LevelKey(Setting(env, "LOG_LEVEL", "info"))).None?
    ensures LoadConfigFromEnv(env) == (ZeroConfig, Some(InvalidLogLevel(Setting(env, "LOG_LEVEL", "info"))))
  {
  }
}
