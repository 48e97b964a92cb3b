/**
 * Start-up configuration read from the process environment. Every setting
 * has a default except the API key, whose absence aborts the process.
 */
module Config {
  import opened Wrappers

  /** The process environment: the variables that are set, with their values. */
  type Env = map<string, string>

  const ApiKeyVar: string := "API_KEY"
  const LogLevelVar: string := "LOG_LEVEL"
  const DefaultLanguageVar: string := "DEFAULT_LANGUAGE"
  const ServerHostVar: string := "SERVER_HOST"
  const ServerPortVar: string := "SERVER_PORT"

  /** The message `log.Fatal` prints before exiting when no API key is configured. */
  const MissingApiKey: string := "API_KEY is not set in environment"

  /** The value of `key`, or `default` when it is unset or set to the empty string. */
  function GetEnv(env: Env, key: string, default: string): (v: string)
    ensures key in env && env[key] != "" ==> v == env[key]
    ensures key !in env || env[key] == "" ==> v == default
    ensures v == "" ==> default == ""
  {
    if key in env && env[key] != "" then env[key] else default
  }

  /** A variable set to `""` reads exactly as an unset one. */
  lemma EmptyIsUnset(env: Env, key: string, default: string)
    ensures GetEnv(env[key := ""], key, default) == GetEnv(env - {key}, key, default) == default
  {
  }

  /** Setting or clearing another variable does not change what `key` reads as. */
  lemma OtherKeyIrrelevant(env: Env, key: string, other: string, value: string, default: string)
    requires other != key
    ensures GetEnv(env[other := value], key, default) == GetEnv(env, key, default)
    ensures GetEnv(env - {other}, key, default) == GetEnv(env, key, default)
  {
  }

  datatype Config = Config(
    apiKey: string,
    logLevel: string,
    defaultLanguage: string,
    serverHost: string,
    serverPort: string)
  {
    /** The listen address `host:port`. */
    function Address(): (a: string)
      ensures |a| == |serverHost| + 1 + |serverPort|
      ensures a[..|serverHost|] == serverHost && a[|serverHost|] == ':' && a[|serverHost| + 1..] == serverPort
    {
      serverHost + ":" + serverPort
    }
  }

  /** `Load`: the configuration, or the fatal message when the API key is missing or empty. */
  function Load(env: Env): (r: Result<Config, string>)
    ensures r.Ok? <==> ApiKeyVar in env && env[ApiKeyVar] != ""
    ensures r.Ok? ==> r.value == Config(env[ApiKeyVar],
      GetEnv(env, LogLevelVar, "info"), GetEnv(env, DefaultLanguageVar, "en"),
      GetEnv(env, ServerHostVar, "localhost"), GetEnv(env, ServerPortVar, "8080"))
    ensures r.Err? ==> r.error == MissingApiKey
  {
    var cfg := Config(
      GetEnv(env, ApiKeyVar, ""),
      GetEnv(env, LogLevelVar, "info"),
      GetEnv(env, DefaultLanguageVar, "en"),
      GetEnv(env, ServerHostVar, "localhost"),
      GetEnv(env, ServerPortVar, "8080"));
    if cfg.apiKey == "" then Err(MissingApiKey) else Ok(cfg)
  }

  /** A loaded configuration never has an empty key, and no other setting is empty either. */
  lemma LoadedIsComplete(env: Env)
    requires Load(env).Ok?
    ensures var c := Load(env).value;
      c.apiKey != "" && c.logLevel != "" && c.defaultLanguage != "" && c.serverHost != "" && c.serverPort != ""
  {
  }

  /** With only the API key set, every other setting takes its default and the address is `localhost:8080`. */
  lemma LoadDefaults(key: string)
    requires key != ""
    ensures Load(map[ApiKeyVar := key]) == Ok(Config(key, "info", "en", "localhost", "8080"))
    ensures Load(map[ApiKeyVar := key]).value.Address() == "localhost:8080"
  {
  }

  /** A non-empty variable overrides its default. */
  lemma LoadOverrides(env: Env)
    requires Load(env).Ok?
    ensures var c := Load(env).value;
      && (LogLevelVar in env && env[LogLevelVar] != "" ==> c.logLevel == env[LogLevelVar])
      && (DefaultLanguageVar in env && env[DefaultLanguageVar] != "" ==> c.defaultLanguage == env[DefaultLanguageVar])
      && (ServerHostVar in env && env[ServerHostVar] != "" ==> c.serverHost == env[ServerHostVar])
      && (ServerPortVar in env && env[ServerPortVar] != "" ==> c.serverPort == env[ServerPortVar])
  {
  }

  /** Each setting depends on its own variable only: changing any other variable leaves it as it was. */
  lemma LoadFieldsIndependent(env: Env, other: string, value: string)
    requires Load(env).Ok? && Load(env[other := value]).Ok?
    ensures var c, d := Load(env).value, Load(env[other := value]).value;
      && (other != ApiKeyVar ==> d.apiKey == c.apiKey)
      && (other != LogLevelVar ==> d.logLevel == c.logLevel)
      && (other != DefaultLanguageVar ==> d.defaultLanguage == c.defaultLanguage)
      && (other != ServerHostVar ==> d.serverHost == c.serverHost)
      && (other != ServerPortVar ==> d.serverPort == c.serverPort)
  {
  }
}
