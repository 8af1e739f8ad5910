/** The test-definition reader (`configspec/_config.py`): where a test's
    scripts live, which scripts a suite runs, the file-name check on
    configuration files, and the loop that turns every entry of a test
    definition into a `TestSpecification`.

    The file system and the YAML parser are parameters: `ConfigWorld`
    answers whether a path is a directory, which executables a directory
    holds (or the error `os.listdir` raises on it), and what a
    configuration file parses to.  `cwd` is the current
    directory that `os.path.abspath` resolves against. */
module ConfigSpec {
  import opened Errors
  import opened Strings
  import opened Paths
  import ProvisionConfig

  const FileScheme := "file://"

  /** `ScriptStore`: the executables to run and where they live. */
  datatype ScriptStore = ScriptStore(executables: seq<string>, location: Option<string>)

  /** The value under `pre_upgrade_scripts` / `post_upgrade_tests`: a YAML
      list of script names, or a path to a directory of executables. */
  datatype ScriptSource = ScriptNames(names: seq<string>) | ScriptPath(path: string)

  /** One entry of a test definition file; None is a missing key. */
  datatype TestDefinition = TestDefinition(
    provisioning: Option<ProvisionConfig.ProvisionConfig>,
    testname: Option<string>,
    scriptLocation: Option<string>,
    preUpgradeScripts: Option<ScriptSource>,
    postUpgradeTests: Option<ScriptSource>)

  /** A `TestSpecification`; an attribute that was never assigned because
      its key was missing is None. */
  datatype TestSpecification = TestSpecification(
    provisioning: ProvisionConfig.Specification,
    name: Option<string>,
    preUpgradeScripts: Option<ScriptStore>,
    postUpgradeTests: Option<ScriptStore>)

  /** What the reader asks of the file system and the YAML parser. */
  datatype ConfigWorld = ConfigWorld(
    readTests: string -> Result<seq<TestDefinition>>,
    readProvision: string -> Result<ProvisionConfig.ProvisionConfig>,
    isDir: string -> bool,
    executablesIn: string -> Result<seq<string>>)

  /** Whether listing some directory fails with `e`. */
  ghost predicate ListingFails(w: ConfigWorld, e: Exc) {
    exists p :: w.executablesIn(p) == Err(e)
  }

  // ---------------------------------------------------------------------
  // Script locations

  /** True for a location relative to the provision file. */
  predicate RelativeLocation(location: string) {
    StartsWith(location, "file://.")
  }

  /** `_get_script_location_path`: a missing location stays missing, a
      `file://.` location is resolved against the provision file's
      directory, and any other location is returned as it is. */
  function ScriptLocationPath(location: Option<string>, provisionFilePath: string, cwd: string)
    : (r: Option<string>)
    ensures location.None? ==> r.None?
    ensures location.Some? && !RelativeLocation(location.value) ==> r == location
    ensures location.Some? && RelativeLocation(location.value) ==>
              r == Some(FileScheme + AbsPath(cwd, PathJoin(DirName(provisionFilePath),
                                                           ReplaceAll(location.value, FileScheme, ""))))
  {
    if location.None? then None
    else if RelativeLocation(location.value) then
      var dir := DirName(provisionFilePath);
      Some(FileScheme + AbsPath(cwd, PathJoin(dir, ReplaceAll(location.value, FileScheme, ""))))
    else location
  }

  /** A resolved location names a rooted path with no `.`, `..` or empty
      component after the scheme. */
  lemma ResolvedLocationIsAbsolute(location: string, provisionFilePath: string, cwd: string)
    requires StartsWith(cwd, "/") && RelativeLocation(location)
    ensures var r := ScriptLocationPath(Some(location), provisionFilePath, cwd);
            && r.Some? && StartsWith(r.value, FileScheme + "/")
            && var q := r.value[|FileScheme|..];
               q == AbsPath(cwd, PathJoin(DirName(provisionFilePath), ReplaceAll(location, FileScheme, "")))
  {
    var p := PathJoin(DirName(provisionFilePath), ReplaceAll(location, FileScheme, ""));
    AbsPathClean(cwd, p);
    var a := AbsPath(cwd, p);
    var r := FileScheme + a;
    assert r[..|FileScheme| + 1] == FileScheme + a[..1];
    assert r[|FileScheme|..] == a;
  }

  /** Resolving twice changes nothing: a resolved location is absolute and
      so no longer starts with `file://.`. */
  lemma ScriptLocationIdempotent(location: Option<string>, provisionFilePath: string, cwd: string)
    requires StartsWith(cwd, "/")
    ensures var r := ScriptLocationPath(location, provisionFilePath, cwd);
            ScriptLocationPath(r, provisionFilePath, cwd) == r
  {
    if location.Some? && RelativeLocation(location.value) {
      ResolvedLocationIsAbsolute(location.value, provisionFilePath, cwd);
      var r := ScriptLocationPath(location, provisionFilePath, cwd).value;
      assert r[7] == '/';
      assert !RelativeLocation(r) by {
        assert "file://."[7] == '.';
      }
    }
  }

  // ---------------------------------------------------------------------
  // Script lists

  /** The directory `_generate_script_list` lists: the path below the
      location when there is one, the path as given otherwise. */
  function ListedPath(path: string, location: Option<string>, cwd: string): string {
    if location.Some? then AbsPath(cwd, PathJoin(ReplaceAll(location.value, FileScheme, ""), path))
    else path
  }

  /** `_generate_script_list`: a list is taken as it is but needs a
      location; a directory is listed for executables, below the location
      when there is one.  The directory test is made on the value as given,
      while the listing uses the path joined to the location, so the
      listing can still fail. */
  function GenerateScriptList(source: ScriptSource, location: Option<string>, w: ConfigWorld, cwd: string)
    : (r: Result<ScriptStore>)
    ensures r.Err? && r.error != ValueError ==>
              source.ScriptPath? && w.isDir(source.path)
              && w.executablesIn(ListedPath(source.path, location, cwd)) == Err(r.error)
    ensures r.Ok? ==> r.value.location == location
    ensures source.ScriptNames? ==> (r.Ok? <==> location.Some?)
    ensures source.ScriptNames? && r.Err? ==> r.error == ValueError
    ensures source.ScriptNames? && r.Ok? ==> r.value.executables == source.names
    ensures source.ScriptPath? && !w.isDir(source.path) ==> r == Err(ValueError)
    ensures source.ScriptPath? ==>
              (r.Ok? <==> w.isDir(source.path) && w.executablesIn(ListedPath(source.path, location, cwd)).Ok?)
    ensures source.ScriptPath? && r.Ok? && location.None? ==>
              w.executablesIn(source.path) == Ok(r.value.executables)
    ensures source.ScriptPath? && r.Ok? && location.Some? ==>
              w.executablesIn(AbsPath(cwd, PathJoin(ReplaceAll(location.value, FileScheme, ""), source.path)))
                == Ok(r.value.executables)
  {
    match source
    case ScriptNames(names) =>
      if location.None? then Err(ValueError) else Ok(ScriptStore(names, location))
    case ScriptPath(path) =>
      if w.isDir(path) then
        var listing := w.executablesIn(ListedPath(path, location, cwd));
        if listing.Err? then Err(listing.error) else Ok(ScriptStore(listing.value, location))
      else Err(ValueError)
  }

  // ---------------------------------------------------------------------
  // Configuration files

  /** `_load_configdef`: only a `.yaml` file name is read; any other raises
      ValueError before the file is opened. */
  function LoadConfigdef<T>(path: string, read: string -> Result<T>): (r: Result<T>)
    ensures !EndsWith(path, ".yaml") ==> r == Err(ValueError)
    ensures EndsWith(path, ".yaml") ==> r == read(path)
  {
    if EndsWith(path, ".yaml") then read(path) else Err(ValueError)
  }

  /** A `.txt` file name is refused whatever the file holds. */
  lemma LoadConfigdefRefusesText<T>(read: string -> Result<T>)
    ensures LoadConfigdef("test.txt", read) == Err(ValueError)
  {
    assert "test.txt"[3..] != ".yaml";
  }

  // ---------------------------------------------------------------------
  // Test specifications

  /** `TestSpecification.__init__`: the name, the location, then the pre-
      and post-upgrade script lists are read in that order.  A missing key
      stops the reading and is only logged, leaving the later attributes
      unset; a ValueError from a script list, or the error of listing its
      directory, propagates. */
  function NewTestSpecification(details: TestDefinition, provisioning: ProvisionConfig.Specification,
                                w: ConfigWorld, cwd: string): (r: Result<TestSpecification>)
    ensures r.Err? ==> r.error == ValueError || ListingFails(w, r.error)
    ensures r.Ok? ==> r.value.provisioning == provisioning && r.value.name == details.testname
    ensures details.testname.None? ==> r == Ok(TestSpecification(provisioning, None, None, None))
    ensures r.Ok? && r.value.preUpgradeScripts.None? ==> r.value.postUpgradeTests.None?
    ensures details.testname.Some? && details.preUpgradeScripts.None? ==>
              r == Ok(TestSpecification(provisioning, details.testname, None, None))
    ensures r.Ok? && details.postUpgradeTests.None? ==> r.value.postUpgradeTests.None?
    ensures r.Ok? && details.testname.Some? && details.preUpgradeScripts.Some? ==>
              var location := ScriptLocationPath(details.scriptLocation, provisioning.path, cwd);
              && r.value.preUpgradeScripts.Some?
              && GenerateScriptList(details.preUpgradeScripts.value, location, w, cwd) == Ok(r.value.preUpgradeScripts.value)
    ensures r.Ok? && details.testname.Some? && details.preUpgradeScripts.Some?
            && details.postUpgradeTests.Some? ==>
              var location := ScriptLocationPath(details.scriptLocation, provisioning.path, cwd);
              && r.value.postUpgradeTests.Some?
              && GenerateScriptList(details.postUpgradeTests.value, location, w, cwd) == Ok(r.value.postUpgradeTests.value)
    ensures r.Err? <==>
              var location := ScriptLocationPath(details.scriptLocation, provisioning.path, cwd);
              && details.testname.Some? && details.preUpgradeScripts.Some?
              && (|| GenerateScriptList(details.preUpgradeScripts.value, location, w, cwd).Err?
                  || (details.postUpgradeTests.Some?
                      && GenerateScriptList(details.postUpgradeTests.value, location, w, cwd).Err?))
  {
    if details.testname.None? then Ok(TestSpecification(provisioning, None, None, None))
    else
      var location := ScriptLocationPath(details.scriptLocation, provisioning.path, cwd);
      var named := TestSpecification(provisioning, details.testname, None, None);
      if details.preUpgradeScripts.None? then Ok(named)
      else
        var pre := GenerateScriptList(details.preUpgradeScripts.value, location, w, cwd);
        if pre.Err? then Err(pre.error)
        else if details.postUpgradeTests.None? then Ok(named.(preUpgradeScripts := Some(pre.value)))
        else
          var post := GenerateScriptList(details.postUpgradeTests.value, location, w, cwd);
          if post.Err? then Err(post.error)
          else Ok(named.(preUpgradeScripts := Some(pre.value), postUpgradeTests := Some(post.value)))
  }

  /** The provisioning of one entry in `definition_reader`: the entry's own
      `provisioning` stanza, or, when a provision file is given, that
      file, loaded again for the entry. */
  function EntryProvisioning(details: TestDefinition, testdefPath: string, provisiondefPath: Option<string>,
                             w: ConfigWorld, cwd: string): (r: Result<ProvisionConfig.Specification>)
    ensures provisiondefPath.None? ==> r == ProvisionConfig.FromTestSpec(details.provisioning, testdefPath, cwd)
    ensures provisiondefPath.Some? && LoadConfigdef(provisiondefPath.value, w.readProvision).Err? ==>
              r == Err(LoadConfigdef(provisiondefPath.value, w.readProvision).error)
    ensures provisiondefPath.Some? && LoadConfigdef(provisiondefPath.value, w.readProvision).Ok? ==>
              r == ProvisionConfig.FromProvisionSpec(LoadConfigdef(provisiondefPath.value, w.readProvision).value,
                                                     provisiondefPath.value, cwd)
    ensures r.Ok? ==> ProvisionConfig.ValidSpecification(r.value)
                      && r.value.path == (if provisiondefPath.None? then testdefPath else provisiondefPath.value)
  {
    if provisiondefPath.None? then ProvisionConfig.FromTestSpec(details.provisioning, testdefPath, cwd)
    else
      var config := LoadConfigdef(provisiondefPath.value, w.readProvision);
      if config.Err? then Err(config.error)
      else ProvisionConfig.FromProvisionSpec(config.value, provisiondefPath.value, cwd)
  }

  /** One iteration of `definition_reader`: the provisioning, then the
      `TestSpecification` built on it; the first error is the entry's. */
  function EntrySpecification(details: TestDefinition, testdefPath: string, provisiondefPath: Option<string>,
                              w: ConfigWorld, cwd: string): (r: Result<TestSpecification>)
    ensures var p := EntryProvisioning(details, testdefPath, provisiondefPath, w, cwd);
            && (p.Err? ==> r == Err(p.error))
            && (p.Ok? ==> r == NewTestSpecification(details, p.value, w, cwd))
    ensures r.Ok? ==>
              var p := EntryProvisioning(details, testdefPath, provisiondefPath, w, cwd);
              p.Ok? && r.value.provisioning == p.value && r.value.name == details.testname
  {
    var p := EntryProvisioning(details, testdefPath, provisiondefPath, w, cwd);
    if p.Err? then Err(p.error) else NewTestSpecification(details, p.value, w, cwd)
  }

  /** Specifications built entry by entry carry a release and the path
      their provisioning was read from. */
  lemma EntriesValid(tests: seq<TestDefinition>, specs: seq<TestSpecification>, testdefPath: string,
                     provisiondefPath: Option<string>, w: ConfigWorld, cwd: string)
    requires |specs| == |tests|
    requires forall k :: 0 <= k < |tests| ==>
               EntrySpecification(tests[k], testdefPath, provisiondefPath, w, cwd) == Ok(specs[k])
    ensures forall k :: 0 <= k < |tests| ==>
              && specs[k].provisioning.path == (if provisiondefPath.None? then testdefPath else provisiondefPath.value)
              && ProvisionConfig.ValidSpecification(specs[k].provisioning)
  {
    forall k | 0 <= k < |tests|
      ensures specs[k].provisioning.path == (if provisiondefPath.None? then testdefPath else provisiondefPath.value)
      ensures ProvisionConfig.ValidSpecification(specs[k].provisioning)
    {
      assert EntrySpecification(tests[k], testdefPath, provisiondefPath, w, cwd).Ok?;
    }
  }

  /** `definition_reader`: loads the test definition and builds one
      specification per entry, in order.  The provisioning comes from
      each entry's own `provisioning` stanza, or, when a provision file
      is given, from that file, loaded again for every entry.  The first
      error raised stops the loop; it succeeds exactly when every entry
      does. */
  method DefinitionReader(testdefPath: string, provisiondefPath: Option<string>, w: ConfigWorld, cwd: string)
    returns (r: Result<seq<TestSpecification>>)
    ensures LoadConfigdef(testdefPath, w.readTests).Err? ==> r == Err(LoadConfigdef(testdefPath, w.readTests).error)
    ensures LoadConfigdef(testdefPath, w.readTests) == Ok([]) ==> r == Ok([])
    ensures LoadConfigdef(testdefPath, w.readTests).Ok? ==>
              var tests := LoadConfigdef(testdefPath, w.readTests).value;
              (r.Ok? <==> forall i :: 0 <= i < |tests| ==>
                            EntrySpecification(tests[i], testdefPath, provisiondefPath, w, cwd).Ok?)
    ensures r.Ok? ==>
              var tests := LoadConfigdef(testdefPath, w.readTests).value;
              var specPath := if provisiondefPath.None? then testdefPath else provisiondefPath.value;
              && LoadConfigdef(testdefPath, w.readTests).Ok?
              && |r.value| == |tests|
              && forall i :: 0 <= i < |tests| ==>
                   && EntrySpecification(tests[i], testdefPath, provisiondefPath, w, cwd) == Ok(r.value[i])
                   && r.value[i].provisioning.path == specPath
                   && ProvisionConfig.ValidSpecification(r.value[i].provisioning)
    ensures r.Err? && LoadConfigdef(testdefPath, w.readTests).Ok? ==>
              var tests := LoadConfigdef(testdefPath, w.readTests).value;
              exists i :: 0 <= i < |tests|
                          && EntrySpecification(tests[i], testdefPath, provisiondefPath, w, cwd) == Err(r.error)
                          && forall k :: 0 <= k < i ==>
                               EntrySpecification(tests[k], testdefPath, provisiondefPath, w, cwd).Ok?
  {
    var testdef := LoadConfigdef(testdefPath, w.readTests);
    if testdef.Err? {
      return Err(testdef.error);
    }
    var tests := testdef.value;
    var specPath := if provisiondefPath.None? then testdefPath else provisiondefPath.value;
    var specs: seq<TestSpecification> := [];
    var i := 0;
    while i < |tests|
      invariant 0 <= i <= |tests| && |specs| == i
      invariant forall k :: 0 <= k < i ==>
                  EntrySpecification(tests[k], testdefPath, provisiondefPath, w, cwd) == Ok(specs[k])
    {
      var spec := EntrySpecification(tests[i], testdefPath, provisiondefPath, w, cwd);
      if spec.Err? {
        return Err(spec.error);
      }
      specs := specs + [spec.value];
      i := i + 1;
    }
    EntriesValid(tests, specs, testdefPath, provisiondefPath, w, cwd);
    return Ok(specs);
  }
}
