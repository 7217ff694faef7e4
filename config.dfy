/** Configuration validation and normalisation of NewFixture (main.go:110-144). */
module Config {

  import opened Wrappers
  import opened Types

  /** What `os.Stat` reports about a path: it exists, it does not exist, or
      another error with its text. */
  datatype StatResult = Found | NotExist | StatFailed(detail: string)

  /** The filesystem queries NewFixture makes: `filepath.IsAbs` and `os.Stat`. */
  datatype FileSystem = FileSystem(isAbs: string -> bool, stat: string -> StatResult)

  /** The configuration errors, one per guard of NewFixture. */
  datatype ConfigError =
    | AppRootMissing
    | AppRootNotAbsolute
    | AppRootNotFound
    | AppRootUnreadable(detail: string)
    | WaitForOutputLineMissing

  const AbsolutePathAdvice := "Please use an absolute path"

  /** The text each error carries (main.go:115, 120, 126, 128, 133). */
  function Message(e: ConfigError): string {
    match e
    case AppRootMissing => "AppRoot is missing"
    case AppRootNotAbsolute => AbsolutePathAdvice + ", or try using something like filepath.Abs(\"./../\")"
    case AppRootNotFound => "AppRoot directory does not exist"
    case AppRootUnreadable(d) => "Error determining if AppRoot exists: " + d
    case WaitForOutputLineMissing => "AppSetup.WaitForOutputLine has not been set"
  }

  /** One second and the default wait timeout, as `time.Duration` nanoseconds. */
  const Second := 1_000_000_000
  const DefaultWaitTimeout := 10 * Second

  /** All guards of NewFixture pass. */
  predicate Acceptable(config: FixtureConfig, fs: FileSystem) {
    && config.appRoot != ""
    && fs.isAbs(config.appRoot)
    && fs.stat(config.appRoot) == Found
    && config.appSetup.waitForOutputLine != ""
  }

  /** NewFixture's validation: the guards run in order and the first that
      fails decides the error; a configuration that passes is returned with
      a non-positive wait timeout replaced by ten seconds and every other
      field as given. */
  function Validate(config: FixtureConfig, fs: FileSystem): (r: Result<FixtureConfig, ConfigError>)
    ensures config.appRoot == "" ==> r == Failure(AppRootMissing)
    ensures config.appRoot != "" && !fs.isAbs(config.appRoot) ==> r == Failure(AppRootNotAbsolute)
    ensures config.appRoot != "" && fs.isAbs(config.appRoot) ==>
      (fs.stat(config.appRoot) == NotExist ==> r == Failure(AppRootNotFound)) &&
      (fs.stat(config.appRoot).StatFailed? ==> r == Failure(AppRootUnreadable(fs.stat(config.appRoot).detail)))
    ensures r == Failure(WaitForOutputLineMissing) <==>
      config.appRoot != "" && fs.isAbs(config.appRoot) && fs.stat(config.appRoot) == Found &&
      config.appSetup.waitForOutputLine == ""
    ensures r.Success? <==> Acceptable(config, fs)
    ensures r.Success? ==>
      && r.value.appRoot == config.appRoot
      && r.value.databaseSetups == config.databaseSetups
      && r.value.databaseTeardowns == config.databaseTeardowns
      && r.value.appSetup.buildArguments == config.appSetup.buildArguments
      && r.value.appSetup.runArguments == config.appSetup.runArguments
      && r.value.appSetup.waitForOutputLine == config.appSetup.waitForOutputLine
      && r.value.appSetup.waitTimeout > 0
      && (config.appSetup.waitTimeout > 0 ==> r.value.appSetup.waitTimeout == config.appSetup.waitTimeout)
      && (config.appSetup.waitTimeout <= 0 ==> r.value.appSetup.waitTimeout == DefaultWaitTimeout)
  {
    if |config.appRoot| == 0 then Failure(AppRootMissing)
    else if !fs.isAbs(config.appRoot) then Failure(AppRootNotAbsolute)
    else match fs.stat(config.appRoot)
      case NotExist => Failure(AppRootNotFound)
      case StatFailed(d) => Failure(AppRootUnreadable(d))
      case Found =>
        if config.appSetup.waitForOutputLine == "" then Failure(WaitForOutputLineMissing)
        else if config.appSetup.waitTimeout <= 0 then
          Success(config.(appSetup := config.appSetup.(waitTimeout := 10 * Second)))
        else Success(config)
  }

  /** Validation is idempotent: a configuration it accepted is accepted
      again unchanged. */
  lemma ValidateIdempotent(config: FixtureConfig, fs: FileSystem)
    requires Validate(config, fs).Success?
    ensures Validate(Validate(config, fs).value, fs) == Validate(config, fs)
  {
  }

  /** The error texts the test suite compares against (tests/fixture_test.go:23-46). */
  lemma ConfigMessages(config: FixtureConfig, fs: FileSystem)
    ensures config.appRoot == "" ==> Message(Validate(config, fs).error) == "AppRoot is missing"
    ensures config.appRoot != "" && !fs.isAbs(config.appRoot) ==>
      AbsolutePathAdvice <= Message(Validate(config, fs).error)
    ensures config.appRoot != "" && fs.isAbs(config.appRoot) && fs.stat(config.appRoot) == NotExist ==>
      Message(Validate(config, fs).error) == "AppRoot directory does not exist"
    ensures Acceptable(config.(appSetup := config.appSetup.(waitForOutputLine := "x")), fs) ==>
      Message(Validate(config.(appSetup := config.appSetup.(waitForOutputLine := "")), fs).error)
        == "AppSetup.WaitForOutputLine has not been set"
  {
  }
}
