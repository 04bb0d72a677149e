/**
 * The `package:sync` console command: it resolves each setting from its
 * command-line option, else its environment variable, configures a fresh
 * service, tries an update and, only when the registry says the package does
 * not exist, creates it.
 */
module Command {
  import opened Wrappers
  import opened PhpStrings
  import opened Registry
  import opened Service

  /** How an optional flag appeared on the command line: absent, without a value, or with one. */
  datatype Flag = Omitted | Bare | Given(value: string)

  datatype CliInput = CliInput(
    apiToken: string,
    packagistUsername: Flag,
    packageName: Flag,
    packagistDomain: Flag,
    githubRepositoryUrl: Flag,
    composerJsonPath: Flag)

  /** The variables `getenv` sees, and what `getcwd` returns (None for its `false`). */
  datatype Environment = Environment(vars: map<string, string>, cwd: Option<string>)

  /** The values the command passes to the service's setters. */
  datatype Settings = Settings(
    apiToken: string,
    packagistUsername: Option<string>,
    packageName: Option<string>,
    packagistDomain: Option<string>,
    githubRepositoryUrl: Option<string>,
    composerJsonPath: string)

  const DefaultDomain: string := "packagist.org"
  const ExitSuccess: int := 0
  const ExitFailure: int := 1

  /** What the console input reports for an option: the default when the flag is absent, null when it has no value. */
  function GetOption(flag: Flag, default: Option<string>): (r: Option<string>)
    ensures flag.Omitted? ==> r == default
    ensures flag.Bare? ==> r.None?
    ensures flag.Given? ==> r == Some(flag.value)
  {
    match flag
    case Omitted => default
    case Bare => None
    case Given(v) => Some(v)
  }

  /** The flag carries a value that PHP treats as true. */
  predicate GivenTruthy(flag: Flag) {
    flag.Given? && Truthy(flag.value)
  }

  /** `getenv` of a name, with None for its `false`. */
  function Getenv(env: Environment, name: string): Option<string> {
    if name in env.vars then Some(env.vars[name]) else None
  }

  /** PHP's `?:` operator: the left operand when it is truthy, otherwise the right one as it is. */
  function Elvis(a: Option<string>, b: Option<string>): (r: Option<string>)
    ensures a.Some? && Truthy(a.value) ==> r == a
    ensures !(a.Some? && Truthy(a.value)) ==> r == b
  {
    if a.Some? && Truthy(a.value) then a else b
  }

  /** PHP's conversion of a string, `false` or null to a string. */
  function AsString(a: Option<string>): string {
    if a.Some? then a.value else ""
  }

  /**
   * An option chained through `?:` to its environment variable and then to
   * null: the option if truthy, else the variable if truthy, else null; "" and
   * "0" count as absent.
   */
  function OptionOrEnv(option: Option<string>, variable: Option<string>): (r: Option<string>)
    ensures r.Some? <==> (option.Some? && Truthy(option.value)) || (variable.Some? && Truthy(variable.value))
    ensures r.Some? ==> Truthy(r.value) && (r == option || r == variable)
    ensures option.Some? && Truthy(option.value) ==> r == option
  {
    Elvis(Elvis(option, variable), None)
  }

  /**
   * The manifest directory handed to `setComposerJsonPath`: the workspace
   * variable if truthy, else the working directory, followed by the option if
   * truthy, else the raw path variable (with no final `?: null`, so "0" is kept).
   */
  function ManifestDir(env: Environment, option: Option<string>): (dir: string)
    ensures var ws := Getenv(env, "GITHUB_WORKSPACE");
      var path := Getenv(env, "INPUT_COMPOSER-JSON-PATH");
      var base := if ws.Some? && Truthy(ws.value) then ws.value else if env.cwd.Some? then env.cwd.value else "";
      var suffix := if option.Some? && Truthy(option.value) then option.value else if path.Some? then path.value else "";
      dir == base + suffix
    ensures var ws := Getenv(env, "GITHUB_WORKSPACE");
      ws.Some? && Truthy(ws.value) ==> |dir| >= |ws.value| && dir[..|ws.value|] == ws.value
    ensures option.Some? && Truthy(option.value) ==>
      |dir| >= |option.value| && dir[|dir| - |option.value|..] == option.value
  {
    var base := AsString(Elvis(Getenv(env, "GITHUB_WORKSPACE"), env.cwd));
    var suffix := AsString(Elvis(option, Getenv(env, "INPUT_COMPOSER-JSON-PATH")));
    assert (base + suffix)[..|base|] == base && (base + suffix)[|base|..] == suffix;
    base + suffix
  }

  /**
   * The values the setter chain at the top of `execute` passes on: the token
   * argument as it is, each optional setting from its flag or variable, and
   * the manifest directory.
   */
  function ResolveSettings(input: CliInput, env: Environment): (s: Settings)
    ensures s.apiToken == input.apiToken
    // A flag given with a truthy value wins for its setting.
    ensures GivenTruthy(input.packagistUsername) ==> s.packagistUsername == Some(input.packagistUsername.value)
    ensures GivenTruthy(input.packageName) ==> s.packageName == Some(input.packageName.value)
    ensures GivenTruthy(input.packagistDomain) ==> s.packagistDomain == Some(input.packagistDomain.value)
    ensures GivenTruthy(input.githubRepositoryUrl) ==> s.githubRepositoryUrl == Some(input.githubRepositoryUrl.value)
    // An omitted domain flag takes the option's default, so its variable is not consulted.
    ensures input.packagistDomain.Omitted? ==> s.packagistDomain == Some(DefaultDomain)
    // Otherwise the setting's own variable if it is truthy, else null.
    ensures var e := Getenv(env, "INPUT_PACKAGIST-USERNAME");
      !GivenTruthy(input.packagistUsername) ==>
        s.packagistUsername == if e.Some? && Truthy(e.value) then e else None
    ensures var e := Getenv(env, "INPUT_PACKAGE-NAME");
      !GivenTruthy(input.packageName) ==>
        s.packageName == if e.Some? && Truthy(e.value) then e else None
    ensures var e := Getenv(env, "INPUT_PACKAGIST-DOMAIN");
      !GivenTruthy(input.packagistDomain) && !input.packagistDomain.Omitted? ==>
        s.packagistDomain == if e.Some? && Truthy(e.value) then e else None
    ensures var e := Getenv(env, "INPUT_GITHUB-REPOSITORY-URL");
      !GivenTruthy(input.githubRepositoryUrl) ==>
        s.githubRepositoryUrl == if e.Some? && Truthy(e.value) then e else None
    ensures s.packageName.Some? ==> Truthy(s.packageName.value)
    ensures s.packagistUsername.Some? ==> Truthy(s.packagistUsername.value)
    ensures s.packagistDomain.Some? ==> Truthy(s.packagistDomain.value)
    ensures s.githubRepositoryUrl.Some? ==> Truthy(s.githubRepositoryUrl.value)
    ensures s.composerJsonPath == ManifestDir(env, GetOption(input.composerJsonPath, None))
  {
    Settings(
      input.apiToken,
      OptionOrEnv(GetOption(input.packagistUsername, None), Getenv(env, "INPUT_PACKAGIST-USERNAME")),
      OptionOrEnv(GetOption(input.packageName, None), Getenv(env, "INPUT_PACKAGE-NAME")),
      OptionOrEnv(GetOption(input.packagistDomain, Some(DefaultDomain)), Getenv(env, "INPUT_PACKAGIST-DOMAIN")),
      OptionOrEnv(GetOption(input.githubRepositoryUrl, None), Getenv(env, "INPUT_GITHUB-REPOSITORY-URL")),
      ManifestDir(env, GetOption(input.composerJsonPath, None)))
  }

  /** The domain option defaults to packagist.org, so without the flag the domain variable is never read. */
  lemma DomainDefaultsToPackagist(input: CliInput, env: Environment)
    requires input.packagistDomain == Omitted
    ensures ResolveSettings(input, env).packagistDomain == Some(DefaultDomain)
  {
  }

  /** A flag given as "" or "0" counts as absent: the variable decides. */
  lemma FalsyOptionFallsBack(value: string, variable: Option<string>)
    requires !Truthy(value)
    ensures OptionOrEnv(Some(value), variable) == OptionOrEnv(None, variable)
    ensures OptionOrEnv(Some(value), variable) == if variable.Some? && Truthy(variable.value) then variable else None
  {
  }

  /** The view of a fresh service after the setter chain. */
  function InitialView(s: Settings, disk: Disk): View {
    ViewOf(disk, Some(s.apiToken), s.packagistDomain, Some(NormalizeDir(s.composerJsonPath)),
           s.githubRepositoryUrl, s.packageName, None, s.packagistUsername, None)
  }

  /** The end of a run and the requests it sent. */
  datatype Run = Run(outcome: Outcome, sent: seq<Request>)

  /**
   * `execute`'s try/catch around the service: update; on NotFound, and only
   * then, create once. Any other error ends the run.
   */
  function SyncRun(v: View, transport: Transport): (run: Run)
    ensures !run.outcome.NotFound?
    ensures !UpdateOutcome(v, transport).NotFound? ==> run.outcome == UpdateOutcome(v, transport)
    ensures UpdateOutcome(v, transport).NotFound? ==> run.outcome == CreateOutcome(v, transport)
    ensures |run.sent| <= 2
  {
    var update := UpdateOutcome(v, transport);
    if update.NotFound? then Run(CreateOutcome(v, transport), Requests(UpdatePlan(v)) + Requests(CreatePlan(v)))
    else Run(update, Requests(UpdatePlan(v)))
  }

  function ExitCode(o: Outcome): (code: int)
    ensures code == ExitSuccess <==> o.Success?
    ensures code == ExitSuccess || code == ExitFailure
  {
    if o.Success? then ExitSuccess else ExitFailure
  }

  /** A successful update ends the run: success, one request, create never called. */
  lemma UpdateSuccessSkipsCreate(v: View, transport: Transport)
    requires UpdateOutcome(v, transport).Success?
    ensures SyncRun(v, transport) == Run(Success, [UpdatePlan(v).value])
  {
  }

  /**
   * After a 404 on update, create runs exactly once, and the run succeeds
   * exactly when create does.
   */
  lemma NotFoundFallsBackToCreate(v: View, transport: Transport)
    requires UpdateOutcome(v, transport).NotFound?
    ensures var run := SyncRun(v, transport);
      && run.sent == [UpdatePlan(v).value] + Requests(CreatePlan(v))
      && transport(run.sent[0]).Delivered? && transport(run.sent[0]).response.code == NotFoundCode
      && run.outcome == CreateOutcome(v, transport)
      && (run.outcome.Success? <==> CreateOutcome(v, transport).Success?)
  {
    UpdateNotFoundOnlyOn404(v, transport);
  }

  /** Any other failure of update, configuration errors included, ends the run without create. */
  lemma OtherUpdateErrorsAbort(v: View, transport: Transport)
    requires UpdateOutcome(v, transport).Error?
    ensures SyncRun(v, transport) == Run(UpdateOutcome(v, transport), Requests(UpdatePlan(v)))
  {
  }

  /**
   * No retries: the first request, if any, is the update, a second is the
   * create and comes only after a 404; the run never ends in NotFound.
   */
  lemma AtMostOneUpdateAndOneCreate(v: View, transport: Transport)
    ensures var run := SyncRun(v, transport);
      && |run.sent| <= 2
      && (|run.sent| >= 1 ==> run.sent[0] == UpdatePlan(v).value)
      && (|run.sent| == 2 ==>
            (run.sent[1] == CreatePlan(v).value
             && transport(run.sent[0]).Delivered? && transport(run.sent[0]).response.code == NotFoundCode))
      && !run.outcome.NotFound?
      && (run.outcome.Success? <==>
            (UpdateOutcome(v, transport).Success?
             || (UpdateOutcome(v, transport).NotFound? && CreateOutcome(v, transport).Success?)))
  {
    UpdateNotFoundOnlyOn404(v, transport);
    if UpdateOutcome(v, transport).NotFound? {
      NotFoundFallsBackToCreate(v, transport);
    }
  }

  /** The setter chain: a fresh service holding the settings, nothing cached and nothing sent. */
  method Configure(settings: Settings, disk: Disk) returns (service: SyncPackageService)
    ensures fresh(service) && service.Valid() && service.sent == []
    ensures service.vendorName.None? && service.composerJsonData.None? && service.manifestLoads == 0
    ensures service.Resolved() == InitialView(settings, disk)
  {
    service := new SyncPackageService(disk);
    service.SetApiToken(settings.apiToken);
    service.SetPackagistUsername(settings.packagistUsername);
    service.SetPackageName(settings.packageName);
    service.SetPackagistDomain(settings.packagistDomain);
    service.SetGithubRepositoryUrl(settings.githubRepositoryUrl);
    service.SetComposerJsonPath(settings.composerJsonPath);
  }

  /**
   * `execute`: configure a fresh service, update, fall back to create on
   * NotFound, and map the end of the run to an exit code.
   */
  method Execute(input: CliInput, env: Environment, disk: Disk, transport: Transport)
    returns (exitCode: int, ghost sent: seq<Request>, ghost manifestLoads: nat)
    ensures exitCode == ExitCode(SyncRun(InitialView(ResolveSettings(input, env), disk), transport).outcome)
    ensures sent == SyncRun(InitialView(ResolveSettings(input, env), disk), transport).sent
    ensures manifestLoads <= 1
  {
    var settings := ResolveSettings(input, env);
    var service := Configure(settings, disk);
    ghost var v := service.Resolved();
    var outcome := service.UpdatePackage(transport);
    assert outcome == UpdateOutcome(v, transport) && service.sent == Requests(UpdatePlan(v));
    if outcome.NotFound? {
      outcome := service.CreatePackage(transport);
      assert outcome == CreateOutcome(v, transport);
    }
    exitCode := if outcome.Success? then ExitSuccess else ExitFailure;
    sent := service.sent;
    manifestLoads := service.manifestLoads;
  }
}
