/** The command-line driver (`command_line.py`): the autopkgtest command
    line for one suite, and the loop in `main` that decides, suite by
    suite, whether to use an existing backend, provision one or skip the
    suite.

    Everything `main` does through other objects is a parameter: the
    outcome of `definition_reader`, and per suite the backend's
    availability, the outcome of `create` (given the verbosity it was
    set to), the return code or exception of the autopkgtest run, and the
    outcome of `close`. */
module CommandLine {
  import opened Errors
  import opened Strings
  import ConfigSpec

  /** The `TestrunTempFiles` fields the command line reads. */
  datatype TestrunFiles = TestrunFiles(
    adtCmd: string,
    unbuiltDir: string,
    scripts: string,
    runConfigFile: string,
    testrunTmpDir: string,
    adtBasePath: string)

  /** `get_adt_run_command`: the fixed head, the words of `adt_args`, the
      two copies into the testbed, `--`, then the provisioning arguments
      followed by the extra backend arguments.  `provArgs` is what the
      provisioning's `get_adt_run_args` returned for the run's temporary
      directory and overlay choice; `testbedLocation` is the value of
      `get_testbed_storage_location()`. */
  method GetAdtRunCommand(provArgs: seq<string>, files: TestrunFiles, resultsDir: string,
                          backendArgs: seq<string>, adtArgs: string, testbedLocation: string)
    returns (r: seq<string>)
    ensures var w := |Words(adtArgs)|;
            && |r| == 7 + w + 2 + 1 + |provArgs| + |backendArgs|
            && r[..7] == [files.adtCmd, "-B", "-U", "-d", "--user=root", files.unbuiltDir,
                          "--output-dir=" + resultsDir]
            && r[7..7 + w] == Words(adtArgs)
            && r[7 + w] == "--copy=" + files.scripts + ":" + testbedLocation + "/scripts/"
            && r[8 + w] == "--copy=" + files.runConfigFile + ":" + testbedLocation + "/auto_upgrade_test_settings"
            && r[9 + w] == "--"
            && r[10 + w..] == provArgs + backendArgs
    ensures adtArgs == "" ==> |r| == 10 + |provArgs| + |backendArgs|
  {
    var cmd := [files.adtCmd, "-B", "-U", "-d", "--user=root", files.unbuiltDir,
                "--output-dir=" + resultsDir] + Words(adtArgs);
    var scriptsDest := testbedLocation + "/scripts/";
    cmd := cmd + ["--copy=" + files.scripts + ":" + scriptsDest];
    cmd := cmd + ["--copy=" + files.runConfigFile + ":" + testbedLocation + "/auto_upgrade_test_settings"];
    var backend := provArgs + backendArgs;
    r := cmd + ["--"] + backend;
    if adtArgs == "" {
      NoWordsInEmpty();
    }
  }

  // ---------------------------------------------------------------------
  // main

  /** The parsed command line, as far as `main` uses it. */
  datatype Args = Args(
    config: string,
    provision: bool,
    forceProvision: bool,
    verboseProvision: bool,
    adtArgs: string,
    keepOverlay: bool)

  /** How `main` ends: `sys.exit(code)`, an exception escaping, or
      returning after the last suite. */
  datatype MainExit = Exit(code: int) | Raised(error: Exc) | Returned

  /** What happens to one suite's backend. */
  datatype Decision = UseExisting | ProvisionBackend | SkipSuite

  /** What one suite's backend and run do; `available` is the answer of
      `backend_available()`, or the exception it raised. */
  datatype SuiteWorld = SuiteWorld(
    available: Result<bool>,
    create: bool -> Outcome,
    run: Result<int>,
    close: Outcome)

  /** The test in `main`: a forced provision or an unavailable backend
      calls for provisioning, which happens only with `--provision`;
      otherwise the suite is skipped. */
  function Decide(force: bool, available: bool, provision: bool): (d: Decision)
    ensures d == ProvisionBackend <==> (force || !available) && provision
    ensures d == SkipSuite <==> (force || !available) && !provision
    ensures d == UseExisting <==> !force && available
  {
    if force || !available then
      if provision then ProvisionBackend else SkipSuite
    else UseExisting
  }

  /** The decision for a suite; availability is asked only when the
      provision is not forced, and an exception from that question ends
      `main`. */
  function SuiteDecision(args: Args, s: SuiteWorld): (r: Result<Decision>)
    ensures args.forceProvision ==> r == Ok(if args.provision then ProvisionBackend else SkipSuite)
    ensures !args.forceProvision && s.available.Err? ==> r == Err(s.available.error)
    ensures !args.forceProvision && s.available.Ok? ==> r == Ok(Decide(false, s.available.value, args.provision))
  {
    if args.forceProvision then Ok(Decide(true, false, args.provision))
    else if s.available.Err? then Err(s.available.error)
    else Ok(Decide(false, s.available.value, args.provision))
  }

  /** An existing backend is used: the run, `close`, then `sys.exit`
      with the run's return code. */
  function RunAndClose(s: SuiteWorld): (r: MainExit)
    ensures r.Exit? <==> s.run.Ok? && s.close == Pass
    ensures r.Exit? ==> r.code == s.run.value
  {
    if s.run.Err? then Raised(s.run.error)
    else if s.close.Fail? then Raised(s.close.error)
    else Exit(s.run.value)
  }

  /** One suite as the source has it, `name` being the suite's `name`
      attribute (None when its definition had no `testname`): None when
      the suite is skipped.  Skipping logs the name, raising
      AttributeError when it was never set; provisioning first calls
      `set_verbose` on the provisioning specification, which has no such
      method; and the run reads `testsuite.backend_args`, which no
      `TestSpecification` sets, so it raises before autopkgtest starts. */
  function SuiteAsWritten(args: Args, name: Option<string>, s: SuiteWorld): Option<MainExit> {
    var d := SuiteDecision(args, s);
    if d.Err? then Some(Raised(d.error)) else
    match d.value
    case SkipSuite => if name.None? then Some(Raised(AttributeError)) else None
    case ProvisionBackend => Some(Raised(AttributeError))
    case UseExisting => Some(Raised(AttributeError))
  }

  /** As written, asking for a provision can never create a backend. */
  lemma ProvisionAsWrittenRaises(args: Args, name: Option<string>, s: SuiteWorld)
    requires args.provision && (args.forceProvision || s.available == Ok(false))
    ensures SuiteAsWritten(args, name, s) == Some(Raised(AttributeError))
  {
  }

  /** As written, an available backend is never run: reading
      `backend_args` raises first. */
  lemma RunAsWrittenRaises(args: Args, name: Option<string>, s: SuiteWorld)
    requires !args.forceProvision && s.available == Ok(true)
    ensures SuiteAsWritten(args, name, s) == Some(Raised(AttributeError))
  {
  }

  /** As written, a suite to skip is skipped only when it has a name. */
  lemma SkipAsWrittenNeedsName(args: Args, name: Option<string>, s: SuiteWorld)
    requires !args.provision && (args.forceProvision || s.available == Ok(false))
    ensures SuiteAsWritten(args, name, s).None? <==> name.Some?
    ensures name.None? ==> SuiteAsWritten(args, name, s) == Some(Raised(AttributeError))
  {
  }

  /** As written, no suite ever ends `main` with autopkgtest's return
      code: a suite that is not skipped raises. */
  lemma AsWrittenNeverExits(args: Args, name: Option<string>, s: SuiteWorld)
    ensures SuiteAsWritten(args, name, s).Some? ==> SuiteAsWritten(args, name, s).value.Raised?
  {
  }

  /** One suite as intended: a skipped suite is only logged; the
      verbosity is set on the backend, which does have `set_verbose`,
      before it is created; and the run uses the default of
      `get_adt_run_command`, no extra backend arguments. */
  function Suite(args: Args, s: SuiteWorld): Option<MainExit> {
    var d := SuiteDecision(args, s);
    if d.Err? then Some(Raised(d.error)) else
    match d.value
    case SkipSuite => None
    case ProvisionBackend =>
      var created := s.create(args.verboseProvision);
      if created.Fail? then Some(Raised(created.error)) else Some(RunAndClose(s))
    case UseExisting => Some(RunAndClose(s))
  }

  /** The intended suite differs from the written one exactly where the
      written one raises AttributeError. */
  lemma SuiteCorrectsAsWritten(args: Args, name: Option<string>, s: SuiteWorld)
    ensures SuiteAsWritten(args, name, s) != Suite(args, s) ==>
              SuiteAsWritten(args, name, s) == Some(Raised(AttributeError))
    ensures !args.forceProvision && s.available == Ok(true) && s.run.Ok? && s.close == Pass ==>
              Suite(args, s) == Some(Exit(s.run.value))
  {
  }

  /** A suite is skipped exactly when its backend is needed and
      `--provision` is not given; a created backend is run and closed. */
  lemma SuiteCases(args: Args, s: SuiteWorld)
    ensures Suite(args, s).None? <==> !args.provision && (args.forceProvision || s.available == Ok(false))
    ensures (args.provision && (args.forceProvision || s.available == Ok(false))
             && s.create(args.verboseProvision) == Pass) ==> Suite(args, s) == Some(RunAndClose(s))
    ensures (args.provision && (args.forceProvision || s.available == Ok(false))
             && s.create(args.verboseProvision).Fail?) ==>
              Suite(args, s) == Some(Raised(s.create(args.verboseProvision).error))
    ensures !args.forceProvision && s.available.Err? ==> Suite(args, s) == Some(Raised(s.available.error))
  {
  }

  /** An available backend that is not forced is never created: the
      outcome does not depend on what `create` would do. */
  lemma AvailableNeverCreated(args: Args, s: SuiteWorld, create: bool -> Outcome)
    requires !args.forceProvision && s.available == Ok(true)
    ensures Suite(args, s) == Suite(args, s.(create := create))
    ensures Suite(args, s) == Some(RunAndClose(s))
  {
  }

  /** A forced provision never asks whether the backend is available. */
  lemma ForcedIgnoresAvailability(args: Args, s: SuiteWorld, available: Result<bool>)
    requires args.forceProvision
    ensures Suite(args, s) == Suite(args, s.(available := available))
  {
  }

  /** The suites from the `i`-th on: skipped suites are passed over and
      the first one that is not ends `main`. */
  function MainFrom(args: Args, suites: nat -> SuiteWorld, i: nat, n: nat): MainExit
    decreases n - i
  {
    if i >= n then Returned
    else
      var o := Suite(args, suites(i));
      if o.None? then MainFrom(args, suites, i + 1, n) else o.value
  }

  /** Errors `main` turns into exit status 1 when reading the definition. */
  predicate ConfigError(e: Exc) {
    e == KeyError || e == ValueError
  }

  /** `main` with each suite handled as intended (`Suite`): read the
      definitions, then go through the suites until one is not skipped;
      that suite ends the program.  `ran` is the suite that did. */
  method RunMain(args: Args, definitions: Result<seq<ConfigSpec.TestSpecification>>,
              suites: nat -> SuiteWorld)
    returns (r: MainExit, ran: Option<nat>)
    ensures definitions.Err? && ConfigError(definitions.error) ==> r == Exit(1) && ran.None?
    ensures definitions.Err? && !ConfigError(definitions.error) ==>
              r == Raised(definitions.error) && ran.None?
    ensures definitions.Ok? ==> r == MainFrom(args, suites, 0, |definitions.value|)
    ensures ran.Some? ==>
              && definitions.Ok? && ran.value < |definitions.value|
              && Suite(args, suites(ran.value)) == Some(r)
              && forall k :: 0 <= k < ran.value ==> Suite(args, suites(k)).None?
    ensures definitions.Ok? && ran.None? ==>
              r == Returned && forall k :: 0 <= k < |definitions.value| ==> Suite(args, suites(k)).None?
  {
    if definitions.Err? {
      if ConfigError(definitions.error) {
        return Exit(1), None;
      }
      return Raised(definitions.error), None;
    }
    var n := |definitions.value|;
    var i := 0;
    while i < n
      invariant 0 <= i <= n
      invariant MainFrom(args, suites, i, n) == MainFrom(args, suites, 0, n)
      invariant forall k :: 0 <= k < i ==> Suite(args, suites(k)).None?
    {
      var o := Suite(args, suites(i));
      if o.Some? {
        return o.value, Some(i);
      }
      i := i + 1;
    }
    return Returned, None;
  }
}
