/** The computer-use assistant's configuration (cua/config.py): field values given at
    construction, completed from the environment, then validated. */
module CuaConfig {
  import opened Wrappers
  import opened Text
  import opened Computer

  /** The process environment, as `os.getenv` reads it. */
  type Env = map<string, string>

  function GetEnv(env: Env, name: string): (r: Option<string>)
    ensures r.Some? <==> name in env
    ensures r.Some? ==> r.value == env[name]
  {
    if name in env then Some(env[name]) else None
  }

  /** The log levels `_validate_configuration` accepts, in upper case. */
  const ValidLevels: seq<string> := ["DEBUG", "INFO", "WARNING", "ERROR", "CRITICAL"]

  /** A value of CUA_AUTOPLAY that switches autoplay on: "true", "1" or "yes" in any case. */
  predicate AutoplayFlag(value: string)
  {
    var v := Lower(value);
    v == "true" || v == "1" || v == "yes"
  }

  /** The ValueError `_validate_configuration` raises. */
  datatype ConfigError =
    | MissingAzureEndpoint
    | MissingAzureKey
    | MissingOpenaiKey
    | UnsupportedEndpoint(endpoint: string)
    | InvalidLogLevel(level: string)

  class Config {
    var model: string
    var endpoint: string
    var temperature: Option<real>
    var autoplay: bool
    var maxActions: int
    /** Seconds slept between actions. */
    var actionDelay: real
    var logLevel: string
    var azureEndpoint: Option<string>
    var azureApiKey: Option<string>
    var azureApiVersion: string
    var openaiApiKey: Option<string>
    var requireConsent: bool
    var safetyChecksEnabled: bool
    var scaleDimensions: Option<Size>

    /** The dataclass defaults. */
    constructor ()
      ensures model == "computer-use-preview" && endpoint == "azure" && temperature == None
      ensures !autoplay && maxActions == 50 && actionDelay == 2.0 && logLevel == "INFO"
      ensures azureEndpoint == None && azureApiKey == None && azureApiVersion == "2025-03-01-preview"
      ensures openaiApiKey == None && requireConsent && safetyChecksEnabled
      ensures scaleDimensions == Some(Size(1024, 768))
    {
      model := "computer-use-preview";
      endpoint := "azure";
      temperature := None;
      autoplay := false;
      maxActions := 50;
      actionDelay := 2.0;
      logLevel := "INFO";
      azureEndpoint := None;
      azureApiKey := None;
      azureApiVersion := "2025-03-01-preview";
      openaiApiKey := None;
      requireConsent := true;
      safetyChecksEnabled := true;
      scaleDimensions := Some(Size(1024, 768));
    }

    /** `is_azure_endpoint` */
    predicate IsAzureEndpoint()
      reads this
    {
      endpoint == "azure"
    }

    /** `is_openai_endpoint` */
    predicate IsOpenaiEndpoint()
      reads this
    {
      endpoint == "openai"
    }

    /** The credentials the chosen endpoint needs are present. */
    predicate HasCredentials()
      reads this
    {
      (IsAzureEndpoint() && Truthy(azureEndpoint) && Truthy(azureApiKey))
      || (IsOpenaiEndpoint() && Truthy(openaiApiKey))
    }

    /** `_load_environment_variables`: the credentials left unset are read from the
        environment; CUA_AUTOPLAY can only switch autoplay on; a non-empty CUA_LOG_LEVEL
        replaces the log level, upper-cased. */
    method LoadEnvironmentVariables(env: Env)
      modifies this`azureEndpoint, this`azureApiKey, this`openaiApiKey, this`autoplay, this`logLevel
      ensures azureEndpoint == if Truthy(old(azureEndpoint)) then old(azureEndpoint) else GetEnv(env, "AZURE_OPENAI_ENDPOINT")
      ensures azureApiKey == if Truthy(old(azureApiKey)) then old(azureApiKey) else GetEnv(env, "AZURE_OPENAI_API_KEY")
      ensures openaiApiKey == if Truthy(old(openaiApiKey)) then old(openaiApiKey) else GetEnv(env, "OPENAI_API_KEY")
      ensures autoplay <==> old(autoplay) || ("CUA_AUTOPLAY" in env && AutoplayFlag(env["CUA_AUTOPLAY"]))
      ensures logLevel == if Truthy(GetEnv(env, "CUA_LOG_LEVEL")) then Upper(env["CUA_LOG_LEVEL"]) else old(logLevel)
    {
      if !Truthy(azureEndpoint) {
        azureEndpoint := GetEnv(env, "AZURE_OPENAI_ENDPOINT");
      }
      if !Truthy(azureApiKey) {
        azureApiKey := GetEnv(env, "AZURE_OPENAI_API_KEY");
      }
      if !Truthy(openaiApiKey) {
        openaiApiKey := GetEnv(env, "OPENAI_API_KEY");
      }
      var flag := if "CUA_AUTOPLAY" in env then env["CUA_AUTOPLAY"] else "";
      if AutoplayFlag(flag) {
        autoplay := true;
      }
      var level := GetEnv(env, "CUA_LOG_LEVEL");
      if Truthy(level) {
        logLevel := Upper(level.value);
      }
    }

    /** `_validate_configuration`: the endpoint's credentials are checked first, in order,
        then the log level; the first failing check is raised. */
    method ValidateConfiguration() returns (r: Result<(), ConfigError>)
      ensures IsAzureEndpoint() && !Truthy(azureEndpoint) ==> r == Err(MissingAzureEndpoint)
      ensures IsAzureEndpoint() && Truthy(azureEndpoint) && !Truthy(azureApiKey) ==> r == Err(MissingAzureKey)
      ensures IsOpenaiEndpoint() && !Truthy(openaiApiKey) ==> r == Err(MissingOpenaiKey)
      ensures !IsAzureEndpoint() && !IsOpenaiEndpoint() ==> r == Err(UnsupportedEndpoint(endpoint))
      ensures HasCredentials() && Upper(logLevel) !in ValidLevels ==> r == Err(InvalidLogLevel(logLevel))
      ensures r.Ok? <==> HasCredentials() && Upper(logLevel) in ValidLevels
    {
      if endpoint == "azure" {
        if !Truthy(azureEndpoint) {
          return Err(MissingAzureEndpoint);
        }
        if !Truthy(azureApiKey) {
          return Err(MissingAzureKey);
        }
      } else if endpoint == "openai" {
        if !Truthy(openaiApiKey) {
          return Err(MissingOpenaiKey);
        }
      } else {
        return Err(UnsupportedEndpoint(endpoint));
      }
      if Upper(logLevel) !in ValidLevels {
        return Err(InvalidLogLevel(logLevel));
      }
      return Ok(());
    }

    /** `__post_init__`: load the environment, then validate. */
    method PostInit(env: Env) returns (r: Result<(), ConfigError>)
      modifies this`azureEndpoint, this`azureApiKey, this`openaiApiKey, this`autoplay, this`logLevel
      ensures azureEndpoint == if Truthy(old(azureEndpoint)) then old(azureEndpoint) else GetEnv(env, "AZURE_OPENAI_ENDPOINT")
      ensures azureApiKey == if Truthy(old(azureApiKey)) then old(azureApiKey) else GetEnv(env, "AZURE_OPENAI_API_KEY")
      ensures openaiApiKey == if Truthy(old(openaiApiKey)) then old(openaiApiKey) else GetEnv(env, "OPENAI_API_KEY")
      ensures autoplay <==> old(autoplay) || ("CUA_AUTOPLAY" in env && AutoplayFlag(env["CUA_AUTOPLAY"]))
      ensures logLevel == if Truthy(GetEnv(env, "CUA_LOG_LEVEL")) then Upper(env["CUA_LOG_LEVEL"]) else old(logLevel)
      ensures r.Ok? <==> HasCredentials() && Upper(logLevel) in ValidLevels
      ensures r.Ok? ==> IsAzureEndpoint() != IsOpenaiEndpoint()
    {
      LoadEnvironmentVariables(env);
      r := ValidateConfiguration();
    }
  }

  /** Upper-casing makes the log-level check case-insensitive: a level differing only in
      case from a valid one is accepted. */
  lemma LevelCheckIgnoresCase(level: string)
    ensures Upper(Lower(level)) in ValidLevels <==> Upper(level) in ValidLevels
  {
    UpperOfLower(level);
  }
}
