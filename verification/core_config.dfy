/** The test agent's configuration (src/core/config_manager.py): the dataclass with its
    defaults, the checks made when one is built, and the list of problems
    `validate_config` reports. Directory creation and YAML file I/O are not modelled. */
module CoreSettings {
  import opened Wrappers

  /** The `Config` dataclass. Paths are kept as strings; seconds and thresholds as reals. */
  datatype Config = Config(
    scenario: string,
    iterationCount: int,
    targetControllers: string,
    targetNetwork: string,
    targetNetworkNode: string,
    azureEndpoint: string,
    azureApiKey: string,
    azureApiVersion: string,
    azureDeploymentName: string,
    appWindowTitle: string,
    appExecutablePath: Option<string>,
    actionDelay: real,
    interIterationDelay: real,
    screenChangeTimeout: real,
    swapCompletionTimeout: real,
    screenPollInterval: real,
    statusPollInterval: real,
    dryRun: bool,
    stopOnError: bool,
    maxRetries: int,
    outputDir: string,
    screenshotDir: string,
    saveScreenshots: bool,
    aiConfidenceThreshold: real,
    maxContextHistory: int,
    enableRecovery: bool)

  /** The field values of a `Config` built with only the two credentials given. */
  function Defaults(azureEndpoint: string, azureApiKey: string): Config
  {
    Config("swap_test", 1, "17 HPM 18", "UCN 07", "NM 44",
           azureEndpoint, azureApiKey, "2024-02-01", "gpt-4-vision",
           "HPS Test Application", None,
           1.0, 2.0, 30.0, 120.0, 2.0, 5.0,
           false, true, 3,
           "logs", "screenshots", true,
           0.8, 10, true)
  }

  /** The key the default configuration file is written with. */
  const PlaceholderKey := "your-api-key-here"

  /** The values `_create_default_config` writes to a new configuration file. */
  function DefaultFileConfig(): Config
  {
    Defaults("https://your-azure-endpoint.openai.azure.com/", PlaceholderKey)
  }

  /** The ValueError `__post_init__` raises, and the AttributeError of `mkdir` on a
      directory field that holds a `str` rather than a `Path`. */
  datatype ConstructionError = EndpointRequired | ApiKeyRequired | NotAPath(field: string)

  /** `Config(...)`: the endpoint is checked first, then the key; a configuration with
      both is built unchanged. */
  function NewConfig(fields: Config): (r: Result<Config, ConstructionError>)
    ensures r.Ok? <==> fields.azureEndpoint != "" && fields.azureApiKey != ""
    ensures r.Ok? ==> r.value == fields
    ensures fields.azureEndpoint == "" ==> r == Err(EndpointRequired)
    ensures fields.azureEndpoint != "" && fields.azureApiKey == "" ==> r == Err(ApiKeyRequired)
  {
    if fields.azureEndpoint == "" then Err(EndpointRequired)
    else if fields.azureApiKey == "" then Err(ApiKeyRequired)
    else Ok(fields)
  }

  /** `load_config` of a file with these values. The dataclass keeps the `str` that a file
      gives for `output_dir` or `screenshot_dir`, and `__post_init__` calls `mkdir` on it
      after the credential checks: the output directory always, the screenshot directory
      when screenshots are saved. `outputDirGiven` and `screenshotDirGiven` say whether the
      file sets them; the dataclass defaults are `Path`s. */
  function LoadConfigAsWritten(fields: Config, outputDirGiven: bool, screenshotDirGiven: bool)
    : (r: Result<Config, ConstructionError>)
    ensures r.Ok? <==> NewConfig(fields).Ok? && !outputDirGiven && !(fields.saveScreenshots && screenshotDirGiven)
    ensures r.Ok? ==> r.value == fields
    ensures NewConfig(fields).Err? ==> r == NewConfig(fields)
    ensures NewConfig(fields).Ok? && outputDirGiven ==> r == Err(NotAPath("output_dir"))
  {
    var c := NewConfig(fields);
    if c.Err? then c
    else if outputDirGiven then Err(NotAPath("output_dir"))
    else if fields.saveScreenshots && screenshotDirGiven then Err(NotAPath("screenshot_dir"))
    else c
  }

  /** `load_config` as evidently intended: the directories a file gives are taken as paths,
      so a file loads exactly when the credential checks pass, whatever it sets. */
  function LoadConfig(fields: Config, outputDirGiven: bool, screenshotDirGiven: bool)
    : (r: Result<Config, ConstructionError>)
    ensures r.Ok? <==> fields.azureEndpoint != "" && fields.azureApiKey != ""
    ensures r.Ok? ==> r.value == fields
    ensures r.Err? ==> r.error != NotAPath("output_dir") && r.error != NotAPath("screenshot_dir")
  {
    LoadConfigAsWritten(fields, false, false)
  }

  /** One problem `validate_config` reports. */
  datatype Issue =
    | MissingEndpoint
    | MissingApiKey
    | IterationCountTooSmall
    | NegativeActionDelay
    | ThresholdOutOfRange
    | ExecutableNotFound(path: string)
    | PollIntervalNotPositive

  /** The message the source reports for an issue. */
  function Message(issue: Issue): string
  {
    match issue
    case MissingEndpoint => "Azure endpoint is required"
    case MissingApiKey => "Valid Azure API key is required"
    case IterationCountTooSmall => "Iteration count must be at least 1"
    case NegativeActionDelay => "Action delay cannot be negative"
    case ThresholdOutOfRange => "AI confidence threshold must be between 0 and 1"
    case ExecutableNotFound(path) => "Application executable not found: " + path
    case PollIntervalNotPositive => "Poll intervals must be positive"
  }

  /** The position of an issue in the order the checks are made. */
  function Rank(issue: Issue): nat
  {
    match issue
    case MissingEndpoint => 0
    case MissingApiKey => 1
    case IterationCountTooSmall => 2
    case NegativeActionDelay => 3
    case ThresholdOutOfRange => 4
    case ExecutableNotFound(_) => 5
    case PollIntervalNotPositive => 6
  }

  /** The issues are listed in the order the checks are made. */
  predicate InCheckOrder(r: seq<Issue>)
  {
    forall i, j :: 0 <= i < j < |r| ==> Rank(r[i]) < Rank(r[j])
  }

  /** The issue a check reports: `issue` when it failed, nothing otherwise. */
  function IssueIf(failed: bool, issue: Issue): (s: seq<Issue>)
    ensures forall x :: x in s <==> failed && x == issue
  {
    if failed then [issue] else []
  }

  /** One check of `validate_config`: append `issue` when `failed`. */
  function Check(r: seq<Issue>, failed: bool, issue: Issue): (s: seq<Issue>)
    requires InCheckOrder(r) && forall x :: x in r ==> Rank(x) < Rank(issue)
    ensures InCheckOrder(s)
    ensures forall x :: x in s ==> Rank(x) <= Rank(issue)
    ensures forall x :: x in s <==> x in r || (failed && x == issue)
  {
    r + IssueIf(failed, issue)
  }

  /** The executable check of `validate_config` fails. */
  predicate ExecutableMissing(config: Config, executableExists: bool)
  {
    config.appExecutablePath.Some? && config.appExecutablePath.value != "" && !executableExists
  }

  /** The checks of `validate_config` that need only the configuration, in order. */
  function Checked(config: Config): (r: seq<Issue>)
    ensures InCheckOrder(r) && forall x :: x in r ==> Rank(x) <= 4
  {
    var r0 := Check([], config.azureEndpoint == "", MissingEndpoint);
    var r1 := Check(r0, config.azureApiKey == "" || config.azureApiKey == PlaceholderKey, MissingApiKey);
    var r2 := Check(r1, config.iterationCount < 1, IterationCountTooSmall);
    var r3 := Check(r2, config.actionDelay < 0.0, NegativeActionDelay);
    Check(r3, config.aiConfidenceThreshold < 0.0 || config.aiConfidenceThreshold > 1.0, ThresholdOutOfRange)
  }

  /** Each of those checks reports its issue exactly when it fails. */
  lemma CheckedReports(config: Config)
    ensures var r := Checked(config);
            && (MissingEndpoint in r <==> config.azureEndpoint == "")
            && (MissingApiKey in r <==> config.azureApiKey == "" || config.azureApiKey == PlaceholderKey)
            && (IterationCountTooSmall in r <==> config.iterationCount < 1)
            && (NegativeActionDelay in r <==> config.actionDelay < 0.0)
            && (ThresholdOutOfRange in r <==>
                  config.aiConfidenceThreshold < 0.0 || config.aiConfidenceThreshold > 1.0)
  {
    var r0 := Check([], config.azureEndpoint == "", MissingEndpoint);
    var r1 := Check(r0, config.azureApiKey == "" || config.azureApiKey == PlaceholderKey, MissingApiKey);
    var r2 := Check(r1, config.iterationCount < 1, IterationCountTooSmall);
    var r3 := Check(r2, config.actionDelay < 0.0, NegativeActionDelay);
    assert Checked(config) ==
      Check(r3, config.aiConfidenceThreshold < 0.0 || config.aiConfidenceThreshold > 1.0, ThresholdOutOfRange);
  }

  /** `validate_config`. `executableExists` is the file system's answer for the configured
      executable path. The issues are listed in the order the checks are made. */
  function ValidateConfig(config: Config, executableExists: bool): (r: seq<Issue>)
    ensures InCheckOrder(r) && forall x :: x in r ==> Rank(x) <= 5
  {
    var r4 := Checked(config);
    if ExecutableMissing(config, executableExists) then
      Check(r4, true, ExecutableNotFound(config.appExecutablePath.value))
    else
      r4
  }

  /** Each issue is reported exactly when its check fails. */
  lemma ValidateConfigReports(config: Config, executableExists: bool)
    ensures var r := ValidateConfig(config, executableExists);
            && (MissingEndpoint in r <==> config.azureEndpoint == "")
            && (MissingApiKey in r <==> config.azureApiKey == "" || config.azureApiKey == PlaceholderKey)
            && (IterationCountTooSmall in r <==> config.iterationCount < 1)
            && (NegativeActionDelay in r <==> config.actionDelay < 0.0)
            && (ThresholdOutOfRange in r <==>
                  config.aiConfidenceThreshold < 0.0 || config.aiConfidenceThreshold > 1.0)
            && (forall path :: ExecutableNotFound(path) in r <==>
                  config.appExecutablePath == Some(path) && ExecutableMissing(config, executableExists))
  {
    var r4 := Checked(config);
    CheckedReports(config);
    var r := ValidateConfig(config, executableExists);
    assert r == if ExecutableMissing(config, executableExists)
                then r4 + [ExecutableNotFound(config.appExecutablePath.value)] else r4;
  }

  /** The list is empty exactly when every check passes. */
  lemma ValidateConfigEmpty(config: Config, executableExists: bool)
    ensures ValidateConfig(config, executableExists) == [] <==>
              config.azureEndpoint != "" && config.azureApiKey != "" && config.azureApiKey != PlaceholderKey
              && config.iterationCount >= 1 && config.actionDelay >= 0.0
              && 0.0 <= config.aiConfidenceThreshold <= 1.0
              && !ExecutableMissing(config, executableExists)
  {
    var r := ValidateConfig(config, executableExists);
    ValidateConfigReports(config, executableExists);
    if r != [] {
      assert r[0] in r;
    }
  }

  /** A configuration built from the defaults with real credentials passes validation. */
  lemma DefaultsValidate(azureEndpoint: string, azureApiKey: string, executableExists: bool)
    requires NewConfig(Defaults(azureEndpoint, azureApiKey)).Ok? && azureApiKey != PlaceholderKey
    ensures ValidateConfig(Defaults(azureEndpoint, azureApiKey), executableExists) == []
  {
    ValidateConfigEmpty(Defaults(azureEndpoint, azureApiKey), executableExists);
  }

  /** As written, the default configuration file `_create_default_config` writes sets
      `output_dir`, so loading it fails on `mkdir` of a `str`. */
  lemma DefaultFileFailsToLoad()
    ensures LoadConfigAsWritten(DefaultFileConfig(), true, true) == Err(NotAPath("output_dir"))
  {
  }

  /** Loaded as intended, the default configuration file gives its own values, and
      validation then reports its placeholder key, and only that. */
  lemma DefaultFileNeedsKey(executableExists: bool)
    ensures LoadConfig(DefaultFileConfig(), true, true) == Ok(DefaultFileConfig())
    ensures ValidateConfig(DefaultFileConfig(), executableExists) == [MissingApiKey]
  {
  }

  /** `validate_config` does not check the poll intervals: an interval of zero passes,
      though a wait then counts no time. */
  lemma ZeroPollIntervalPasses(executableExists: bool)
    ensures ValidateConfig(Defaults("https://example.net/", "key").(screenPollInterval := 0.0,
                                                                     statusPollInterval := 0.0),
                           executableExists) == []
  {
    ValidateConfigEmpty(Defaults("https://example.net/", "key").(screenPollInterval := 0.0,
                                                                  statusPollInterval := 0.0),
                        executableExists);
  }

  /** `validate_config` as evidently intended: the checks as written, then one that both
      poll intervals are positive. */
  function ValidateConfigIntended(config: Config, executableExists: bool): (r: seq<Issue>)
    ensures InCheckOrder(r)
    ensures (PollIntervalNotPositive in r <==> config.screenPollInterval <= 0.0 || config.statusPollInterval <= 0.0)
    ensures r == [] ==> ValidateConfig(config, executableExists) == []
  {
    var r := ValidateConfig(config, executableExists);
    Check(r, config.screenPollInterval <= 0.0 || config.statusPollInterval <= 0.0, PollIntervalNotPositive)
  }

  /** The intended validation admits only positive poll intervals. */
  lemma IntendedRejectsStalledPolls(config: Config, executableExists: bool)
    requires ValidateConfigIntended(config, executableExists) == []
    ensures config.screenPollInterval > 0.0 && config.statusPollInterval > 0.0
  {
    assert PollIntervalNotPositive !in ValidateConfigIntended(config, executableExists);
  }
}
