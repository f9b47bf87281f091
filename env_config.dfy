/**
 * Environment selection: the build mode picks one of three environments, and
 * each environment has a fixed configuration record.
 */
module EnvConfig {
  import opened Wrappers

  datatype Environment = Development | Production | Staging

  function EnvName(e: Environment): string
  {
    match e
    case Development => "development"
    case Production => "production"
    case Staging => "staging"
  }

  datatype LogLevel = Debug | Info | Warn | Error

  /** The build-time variables (`import.meta.env`); `MODE` holds the build mode. */
  type EnvVars = map<string, string>

  const MODE_KEY: string := "MODE"

  function Lookup(vars: EnvVars, key: string): (r: Option<string>)
    ensures r.Some? <==> key in vars
    ensures r.Some? ==> r.value == vars[key]
  {
    if key in vars then Some(vars[key]) else None
  }

  /** `getCurrentEnvironment`: the mode when it names an environment, else development. */
  function CurrentEnvironment(vars: EnvVars): Environment
  {
    var mode := Lookup(vars, MODE_KEY);
    if mode == Some("production") then Production
    else if mode == Some("staging") then Staging
    else Development
  }

  /** The mode is taken as is exactly when it is one of the three names. */
  lemma CurrentEnvironmentChoice(vars: EnvVars)
    ensures var mode := Lookup(vars, MODE_KEY);
            var e := CurrentEnvironment(vars);
            (mode.Some? && mode.value in {"development", "production", "staging"} ==> EnvName(e) == mode.value)
            && (!(mode.Some? && mode.value in {"development", "production", "staging"}) ==> e == Development)
  {
  }

  predicate IsDevelopment(vars: EnvVars)
  {
    CurrentEnvironment(vars) == Development
  }

  predicate IsProduction(vars: EnvVars)
  {
    CurrentEnvironment(vars) == Production
  }

  predicate IsStaging(vars: EnvVars)
  {
    CurrentEnvironment(vars) == Staging
  }

  /** Exactly one of the three checks holds, whatever the mode. */
  lemma ExactlyOneEnvironment(vars: EnvVars)
    ensures IsDevelopment(vars) || IsProduction(vars) || IsStaging(vars)
    ensures !(IsDevelopment(vars) && IsProduction(vars))
    ensures !(IsDevelopment(vars) && IsStaging(vars))
    ensures !(IsProduction(vars) && IsStaging(vars))
  {
  }

  datatype ApiSettings = ApiSettings(baseUrl: string, timeout: nat, retryAttempts: nat, retryDelay: nat)
  datatype Features = Features(enableDebugMode: bool, enableAnalytics: bool, enableErrorReporting: bool, enableMockData: bool)
  datatype Logging = Logging(level: LogLevel, enableConsole: bool, enableRemote: bool)
  datatype Performance = Performance(enableCaching: bool, cacheTimeout: nat, enableLazyLoading: bool)
  datatype Security = Security(enableCSP: bool, enableHTTPS: bool, tokenExpiry: nat)

  datatype EnvironmentConfig = EnvironmentConfig(
    api: ApiSettings,
    features: Features,
    logging: Logging,
    performance: Performance,
    security: Security)

  const DEVELOPMENT_CONFIG: EnvironmentConfig := EnvironmentConfig(
    ApiSettings("http://api.producthot.top:8030", 15000, 2, 1000),
    Features(true, false, false, false),
    Logging(Debug, true, false),
    Performance(false, 5 * 60 * 1000, false),
    Security(false, false, 24 * 60 * 60 * 1000))

  const STAGING_CONFIG: EnvironmentConfig := EnvironmentConfig(
    ApiSettings("https://staging-api.producthot.top", 12000, 3, 1500),
    Features(true, true, true, false),
    Logging(Info, true, true),
    Performance(true, 10 * 60 * 1000, true),
    Security(true, true, 12 * 60 * 60 * 1000))

  const PRODUCTION_CONFIG: EnvironmentConfig := EnvironmentConfig(
    ApiSettings("https://api.producthot.top", 10000, 3, 2000),
    Features(false, true, true, false),
    Logging(Error, false, true),
    Performance(true, 30 * 60 * 1000, true),
    Security(true, true, 8 * 60 * 60 * 1000))

  /** The configuration record of an environment (the `switch` of `getEnvironmentConfig`). */
  function ConfigFor(e: Environment): EnvironmentConfig
  {
    match e
    case Production => PRODUCTION_CONFIG
    case Staging => STAGING_CONFIG
    case Development => DEVELOPMENT_CONFIG
  }

  /** `getEnvironmentConfig`. */
  function CurrentConfig(vars: EnvVars): EnvironmentConfig
  {
    ConfigFor(CurrentEnvironment(vars))
  }

  /** Production and staging get their own records; every other mode gets the development one. */
  lemma ConfigChoice(vars: EnvVars)
    ensures Lookup(vars, MODE_KEY) == Some("production") <==> CurrentConfig(vars) == PRODUCTION_CONFIG
    ensures Lookup(vars, MODE_KEY) == Some("staging") <==> CurrentConfig(vars) == STAGING_CONFIG
    ensures Lookup(vars, MODE_KEY) != Some("production") && Lookup(vars, MODE_KEY) != Some("staging")
            <==> CurrentConfig(vars) == DEVELOPMENT_CONFIG
  {
  }

  /**
   * The three records: mock data is off everywhere; the log level is debug,
   * info and error for development, staging and production, with console
   * logging off only in production; retries are 2 after 1000 ms, 3 after
   * 1500 ms and 3 after 2000 ms.
   */
  lemma ConfigTable(e: Environment)
    ensures !ConfigFor(e).features.enableMockData
    ensures ConfigFor(e).logging.level == (match e case Development => Debug case Staging => Info case Production => Error)
    ensures ConfigFor(e).logging.enableConsole <==> e != Production
    ensures (ConfigFor(e).api.retryAttempts, ConfigFor(e).api.retryDelay)
            == (match e case Development => (2, 1000) case Staging => (3, 1500) case Production => (3, 2000))
    ensures ConfigFor(e).features.enableDebugMode <==> e != Production
  {
  }
}
