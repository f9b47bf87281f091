/**
 * The environment helper: configuration accessors for the selected
 * environment, the level-filtered console log, per-environment dispatch, and
 * build-variable lookup with defaults.
 */
module EnvUtils {
  import opened Wrappers
  import opened EnvConfig

  /** `getApiBaseUrl`: the selected configuration's API base URL. */
  function ApiBaseUrl(vars: EnvVars): (r: string)
    ensures IsProduction(vars) ==> r == "https://api.producthot.top"
    ensures IsStaging(vars) ==> r == "https://staging-api.producthot.top"
    ensures IsDevelopment(vars) ==> r == "http://api.producthot.top:8030"
  {
    CurrentConfig(vars).api.baseUrl
  }

  /** The position of a level in `['debug', 'info', 'warn', 'error']`. */
  function LevelIndex(l: LogLevel): nat
  {
    match l
    case Debug => 0
    case Info => 1
    case Warn => 2
    case Error => 3
  }

  /** `getCurrentEnv().toUpperCase()`. */
  function UpperName(e: Environment): string
  {
    match e
    case Development => "DEVELOPMENT"
    case Production => "PRODUCTION"
    case Staging => "STAGING"
  }

  /** One console line, written through the console method of its level. */
  datatype LogLine = LogLine(level: LogLevel, text: string)

  /** Whether `log` writes a message of `level` under the configuration `config`. */
  predicate Emits(config: EnvironmentConfig, level: LogLevel)
  {
    config.logging.enableConsole && LevelIndex(level) >= LevelIndex(config.logging.level)
  }

  /** `log(level, message)`: the line written, or `None` when it is filtered out. */
  function Log(vars: EnvVars, level: LogLevel, message: string): (r: Option<LogLine>)
    ensures r.Some? <==> Emits(CurrentConfig(vars), level)
    ensures r.Some? ==> r.value.level == level
    ensures r.Some? ==> r.value.text == "[" + UpperName(CurrentEnvironment(vars)) + "] " + message
  {
    var config := CurrentConfig(vars);
    if !config.logging.enableConsole then None
    else if LevelIndex(level) >= LevelIndex(config.logging.level) then
      Some(LogLine(level, "[" + UpperName(CurrentEnvironment(vars)) + "] " + message))
    else None
  }

  /**
   * `debug`, `info`, `warn` and `error`: `log` at their own fixed level. With
   * the shipped configurations debug lines appear only in development, and
   * the other three everywhere but production.
   */
  function LogDebug(vars: EnvVars, message: string): (r: Option<LogLine>)
    ensures r.Some? <==> IsDevelopment(vars)
    ensures r.Some? ==> r.value.level == Debug
  {
    Log(vars, Debug, message)
  }

  function LogInfo(vars: EnvVars, message: string): (r: Option<LogLine>)
    ensures r.Some? <==> !IsProduction(vars)
    ensures r.Some? ==> r.value.level == Info
  {
    Log(vars, Info, message)
  }

  function LogWarn(vars: EnvVars, message: string): (r: Option<LogLine>)
    ensures r.Some? <==> !IsProduction(vars)
    ensures r.Some? ==> r.value.level == Warn
  {
    Log(vars, Warn, message)
  }

  function LogError(vars: EnvVars, message: string): (r: Option<LogLine>)
    ensures r.Some? <==> !IsProduction(vars)
    ensures r.Some? ==> r.value.level == Error
  {
    Log(vars, Error, message)
  }

  /**
   * The filter in each environment: nothing at all in production; in staging
   * everything from info up; in development everything. Whenever the console
   * is on, errors always pass, and the filter is monotone in the level.
   */
  lemma LogFilter(vars: EnvVars, level: LogLevel, higher: LogLevel, message: string)
    ensures IsProduction(vars) ==> Log(vars, level, message).None?
    ensures IsStaging(vars) ==> (Log(vars, level, message).Some? <==> level != Debug)
    ensures IsDevelopment(vars) ==> Log(vars, level, message).Some?
    ensures CurrentConfig(vars).logging.enableConsole ==> Log(vars, Error, message).Some?
    ensures LevelIndex(level) <= LevelIndex(higher) && Log(vars, level, message).Some? ==> Log(vars, higher, message).Some?
  {
  }

  /** The handlers passed to `runByEnvironment`, each as the value it would produce. */
  datatype Handlers<T> = Handlers(development: Option<T>, production: Option<T>, staging: Option<T>, default: Option<T>)

  function HandlerFor<T>(h: Handlers<T>, e: Environment): Option<T>
  {
    match e
    case Development => h.development
    case Production => h.production
    case Staging => h.staging
  }

  /** `runByEnvironment`: the current environment's handler, else the default one, else `undefined`. */
  function RunByEnvironment<T>(vars: EnvVars, h: Handlers<T>): (r: Option<T>)
    ensures HandlerFor(h, CurrentEnvironment(vars)).Some? ==> r == HandlerFor(h, CurrentEnvironment(vars))
    ensures HandlerFor(h, CurrentEnvironment(vars)).None? ==> r == h.default
    ensures r.None? <==> HandlerFor(h, CurrentEnvironment(vars)).None? && h.default.None?
  {
    var own := HandlerFor(h, CurrentEnvironment(vars));
    if own.Some? then own else h.default
  }

  /** An unrecognised mode dispatches to the development handler. */
  lemma UnknownModeRunsDevelopment<T>(vars: EnvVars, h: Handlers<T>)
    requires Lookup(vars, MODE_KEY) !in {Some("development"), Some("production"), Some("staging")}
    requires h.development.Some?
    ensures RunByEnvironment(vars, h) == h.development
  {
  }

  /** `getEnvVar(key, defaultValue)`: the variable when truthy, else the default (`||`). */
  function GetEnvVar(vars: EnvVars, key: string, defaultValue: Option<string>): (r: Option<string>)
    ensures Truthy(Lookup(vars, key)) ==> r == Some(vars[key])
    ensures !Truthy(Lookup(vars, key)) ==> r == defaultValue
  {
    var v := Lookup(vars, key);
    if Truthy(v) then v else defaultValue
  }

  datatype AppInfo = AppInfo(name: string, version: string, description: string, environment: Environment)

  const DEFAULT_APP_NAME: string := "ProductHot"
  const DEFAULT_APP_VERSION: string := "1.0.0"
  const DEFAULT_APP_DESCRIPTION: string := "AI-powered product insights platform"

  /** `getAppInfo`. */
  function GetAppInfo(vars: EnvVars): (r: AppInfo)
    ensures Truthy(Lookup(vars, "VITE_APP_NAME")) ==> r.name == vars["VITE_APP_NAME"]
    ensures !Truthy(Lookup(vars, "VITE_APP_NAME")) ==> r.name == "ProductHot"
    ensures Truthy(Lookup(vars, "VITE_APP_VERSION")) ==> r.version == vars["VITE_APP_VERSION"]
    ensures !Truthy(Lookup(vars, "VITE_APP_VERSION")) ==> r.version == "1.0.0"
    ensures Truthy(Lookup(vars, "VITE_APP_DESCRIPTION")) ==> r.description == vars["VITE_APP_DESCRIPTION"]
    ensures !Truthy(Lookup(vars, "VITE_APP_DESCRIPTION")) ==> r.description == DEFAULT_APP_DESCRIPTION
    ensures r.environment == CurrentEnvironment(vars)
  {
    AppInfo(
      GetEnvVar(vars, "VITE_APP_NAME", Some(DEFAULT_APP_NAME)).value,
      GetEnvVar(vars, "VITE_APP_VERSION", Some(DEFAULT_APP_VERSION)).value,
      GetEnvVar(vars, "VITE_APP_DESCRIPTION", Some(DEFAULT_APP_DESCRIPTION)).value,
      CurrentEnvironment(vars))
  }

  /** An empty variable counts as unset. */
  lemma EmptyVarFallsBack(vars: EnvVars, key: string, defaultValue: Option<string>)
    requires key in vars && vars[key] == ""
    ensures GetEnvVar(vars, key, defaultValue) == defaultValue
  {
  }
}
