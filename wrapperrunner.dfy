/** The legacy runner script (`wrapper_runner.py`): the `adt-run` command
    line, the hard-coded backend arguments, the settings file sourced on
    the testbed, and the backend check over all definitions.

    A test suite is the parsed YAML mapping; a key it lacks is None. */
module WrapperRunner {
  import opened Errors
  import opened Strings

  /** The `test-details` mapping of a suite. */
  datatype TestDetails = TestDetails(
    preUpgradeTests: Option<seq<string>>,
    postUpgradeTests: Option<seq<string>>)

  /** One entry of the definition file. */
  datatype TestSuite = TestSuite(
    testname: Option<string>,
    backend: Option<string>,
    testDetails: Option<TestDetails>)

  const PreScriptsDir := "/tmp/pre_scripts/"
  const PostScriptsDir := "/tmp/post_scripts/"
  const SettingsDest := "/tmp/auto_upgrade_test_settings"

  /** `suite['test-details']['pre_upgrade_tests']` and the post-upgrade
      list, or the KeyError raised by the first missing key. */
  function ScriptLists(suite: TestSuite): (r: Result<(seq<string>, seq<string>)>)
    ensures r.Err? ==> r.error == KeyError
    ensures r.Ok? <==> (suite.testDetails.Some? && suite.testDetails.value.preUpgradeTests.Some?
                        && suite.testDetails.value.postUpgradeTests.Some?)
  {
    if suite.testDetails.None? then Err(KeyError)
    else
      var d := suite.testDetails.value;
      if d.preUpgradeTests.None? || d.postUpgradeTests.None? then Err(KeyError)
      else Ok((d.preUpgradeTests.value, d.postUpgradeTests.value))
  }

  // ---------------------------------------------------------------------
  // The adt-run command

  /** An `adt-run` copy option: `--copy=<source>:<destination>`. */
  function CopyArg(src: string, dest: string): string {
    "--copy=" + src + ":" + dest
  }

  /** The copy option can be taken apart again: for colon-free paths the
      text after `--copy=` splits at `:` into the source and the
      destination. */
  lemma CopyArgRoundTrip(src: string, dest: string)
    requires ':' !in src && ':' !in dest
    ensures var a := CopyArg(src, dest);
            StartsWith(a, "--copy=") && Split(a[7..], ':') == [src, dest]
  {
    var a := CopyArg(src, dest);
    assert a[..7] == "--copy=";
    assert a[7..] == src + [':'] + dest;
    SplitAfterPiece(src, ':', dest);
    SplitNoSep(dest, ':');
  }

  /** One copy option per script, into `dir` under the script's own name. */
  function CopyArgs(scripts: seq<string>, dir: string): (r: seq<string>)
    ensures |r| == |scripts|
    ensures forall i :: 0 <= i < |scripts| ==> r[i] == CopyArg(scripts[i], dir + scripts[i])
  {
    seq(|scripts|, i requires 0 <= i < |scripts| => CopyArg(scripts[i], dir + scripts[i]))
  }

  /** `get_backend_run_args`: hard-coded to an LXC `adt-precise`
      container, whatever the suite and backend. */
  function GetBackendRunArgs(suite: TestSuite, backend: string): (r: seq<string>)
    ensures r == ["lxc", "-s", "adt-precise"]
  {
    ["lxc", "-s", "adt-precise"]
  }

  /** `get_adt_run_command`: the fixed head, one copy per pre-upgrade
      script and then per post-upgrade test, in order, the settings file,
      `---` and the backend arguments. */
  method GetAdtRunCommand(suite: TestSuite, backend: string, tempFileName: string)
    returns (r: Result<seq<string>>)
    ensures r.Err? <==> ScriptLists(suite).Err?
    ensures r.Err? ==> r.error == KeyError
    ensures r.Ok? ==>
              var (pre, post) := ScriptLists(suite).value;
              var n := 4 + |pre| + |post|;
              && |r.value| == 4 + |pre| + |post| + 5
              && r.value[..4] == ["adt-run", "-B", "--user=root", "--unbuilt-tree=."]
              && r.value[4..4 + |pre|] == CopyArgs(pre, PreScriptsDir)
              && r.value[4 + |pre|..n] == CopyArgs(post, PostScriptsDir)
              && r.value[n] == CopyArg(tempFileName, SettingsDest)
              && r.value[n + 1..] == ["---", "lxc", "-s", "adt-precise"]
  {
    var head := ["adt-run", "-B", "--user=root", "--unbuilt-tree=."];
    var cmd := head;
    if suite.testDetails.None? || suite.testDetails.value.preUpgradeTests.None? {
      return Err(KeyError);
    }
    var pre := suite.testDetails.value.preUpgradeTests.value;
    var i := 0;
    while i < |pre|
      invariant 0 <= i <= |pre|
      invariant cmd == head + CopyArgs(pre[..i], PreScriptsDir)
    {
      cmd := cmd + [CopyArg(pre[i], PreScriptsDir + pre[i])];
      assert pre[..i + 1] == pre[..i] + [pre[i]];
      i := i + 1;
    }
    assert pre[..i] == pre;
    if suite.testDetails.value.postUpgradeTests.None? {
      return Err(KeyError);
    }
    var post := suite.testDetails.value.postUpgradeTests.value;
    var withPre := cmd;
    var j := 0;
    while j < |post|
      invariant 0 <= j <= |post|
      invariant cmd == withPre + CopyArgs(post[..j], PostScriptsDir)
    {
      cmd := cmd + [CopyArg(post[j], PostScriptsDir + post[j])];
      assert post[..j + 1] == post[..j] + [post[j]];
      j := j + 1;
    }
    assert post[..j] == post;
    cmd := cmd + [CopyArg(tempFileName, SettingsDest)];
    var backendArgs := GetBackendRunArgs(suite, backend);
    r := Ok(cmd + ["---"] + backendArgs);
    assert r.value[4..4 + |pre|] == CopyArgs(pre, PreScriptsDir);
    assert r.value[4 + |pre|..4 + |pre| + |post|] == CopyArgs(post, PostScriptsDir);
  }

  // ---------------------------------------------------------------------
  // The settings file

  /** A text file opened for writing. */
  class TextFile {
    var contents: string

    constructor ()
      ensures contents == ""
    {
      contents := "";
    }

    /** `write(s)`: appends `s`. */
    method Write(s: string)
      modifies this
      ensures contents == old(contents) + s
    {
      contents := contents + s;
    }
  }

  /** `"s"`. */
  function Quoted(s: string): string {
    "\"" + s + "\""
  }

  /** The fixed first lines of the settings file. */
  const HeaderLines := ["# Auto Upgrade Test Configuration",
                        "export PRE_TEST_LOCATION=" + Quoted("/tmp/pre_scripts"),
                        "export POST_TEST_LOCATION=" + Quoted("/tmp/post_scripts")]

  /** The header text: each of its lines ended by a line break. */
  const SettingsHeader := HeaderLines[0] + "\n" + HeaderLines[1] + "\n" + HeaderLines[2] + "\n"

  /** `NAME="a,b,c"`. */
  function AssignmentLine(name: string, values: seq<string>): string {
    name + "=" + Quoted(Join(",", values))
  }

  /** An assignment line and its line break. */
  function Assignment(name: string, values: seq<string>): string {
    AssignmentLine(name, values) + "\n"
  }

  /** The value between the quotes of an assignment is the comma-joined
      list. */
  lemma AssignmentValue(name: string, values: seq<string>)
    ensures var l := AssignmentLine(name, values);
            && l[..|name| + 2] == name + "=\""
            && l[|name| + 2..|l| - 1] == Join(",", values)
            && l[|l| - 1] == '"'
  {
  }

  /** The whole settings text for the two script lists. */
  function SettingsText(pre: seq<string>, post: seq<string>): string {
    SettingsHeader + Assignment("PRE_TESTS_TO_RUN", pre) + Assignment("POST_TESTS_TO_RUN", post)
  }

  /** `prepare_environment`: the header, then the pre- and the post-upgrade
      assignments.  A missing key raises KeyError after whatever was
      already written. */
  method PrepareEnvironment(suite: TestSuite, f: TextFile) returns (r: Outcome)
    modifies f
    ensures r == Pass <==> ScriptLists(suite).Ok?
    ensures r.Fail? ==> r.error == KeyError
    ensures r == Pass ==>
              var (pre, post) := ScriptLists(suite).value;
              f.contents == old(f.contents) + SettingsText(pre, post)
    ensures (suite.testDetails.None? || suite.testDetails.value.preUpgradeTests.None?) ==>
              f.contents == old(f.contents) + SettingsHeader
    ensures (suite.testDetails.Some? && suite.testDetails.value.preUpgradeTests.Some?
             && suite.testDetails.value.postUpgradeTests.None?) ==>
              f.contents == old(f.contents) + SettingsHeader
                            + Assignment("PRE_TESTS_TO_RUN", suite.testDetails.value.preUpgradeTests.value)
  {
    var start := f.contents;
    f.Write(SettingsHeader);
    if suite.testDetails.None? || suite.testDetails.value.preUpgradeTests.None? {
      return Fail(KeyError);
    }
    var preText := Assignment("PRE_TESTS_TO_RUN", suite.testDetails.value.preUpgradeTests.value);
    f.Write(preText);
    if suite.testDetails.value.postUpgradeTests.None? {
      return Fail(KeyError);
    }
    var postText := Assignment("POST_TESTS_TO_RUN", suite.testDetails.value.postUpgradeTests.value);
    f.Write(postText);
    AppendThree(start, SettingsHeader, preText, postText);
    return Pass;
  }

  lemma AppendThree(s: string, a: string, b: string, c: string)
    ensures s + a + b + c == s + (a + b + c)
  {
  }

  /** A character that is in neither the members nor the separator is not
      in the joined text. */
  lemma {:induction false} JoinKeepsOut(sep: string, xs: seq<string>, c: char)
    requires c !in sep && forall k :: 0 <= k < |xs| ==> c !in xs[k]
    ensures c !in Join(sep, xs)
    decreases |xs|
  {
    if |xs| > 1 {
      JoinKeepsOut(sep, xs[1..], c);
    }
  }

  lemma JoinThree(a: string, b: string, c: string)
    ensures Join("\n", [a, b, c]) == a + "\n" + b + "\n" + c
  {
    assert [a, b, c][1..] == [b, c];
    assert [b, c][1..] == [c];
    assert Join("\n", [b, c]) == b + "\n" + c;
    assert Join("\n", [a, b, c]) == a + "\n" + (b + "\n" + c);
  }

  /** The header is its three lines, each ended by a line break. */
  lemma HeaderIsLines()
    ensures SettingsHeader == Join("\n", HeaderLines) + "\n"
    ensures forall k :: 0 <= k < |HeaderLines| ==> '\n' !in HeaderLines[k]
  {
    JoinThree(HeaderLines[0], HeaderLines[1], HeaderLines[2]);
    assert HeaderLines == [HeaderLines[0], HeaderLines[1], HeaderLines[2]];
    QuotedNoBreak("/tmp/pre_scripts");
    QuotedNoBreak("/tmp/post_scripts");
    NoBreakConcat("export PRE_TEST_LOCATION=", Quoted("/tmp/pre_scripts"));
    NoBreakConcat("export POST_TEST_LOCATION=", Quoted("/tmp/post_scripts"));
  }

  lemma NoBreakConcat(a: string, b: string)
    requires '\n' !in a && '\n' !in b
    ensures '\n' !in a + b
  {
    assert forall k :: 0 <= k < |a + b| ==> (a + b)[k] == if k < |a| then a[k] else b[k - |a|];
  }

  lemma QuotedNoBreak(s: string)
    requires '\n' !in s
    ensures '\n' !in Quoted(s)
  {
    NoBreakConcat("\"", s);
    NoBreakConcat("\"" + s, "\"");
  }

  /** Lines ended by line breaks split back into those lines and a final
      empty piece. */
  lemma LinesRoundTrip(head: seq<string>, a: string, b: string)
    requires |head| > 0 && forall k :: 0 <= k < |head| ==> '\n' !in head[k]
    requires '\n' !in a && '\n' !in b
    ensures Split(Join("\n", head) + "\n" + a + "\n" + b + "\n", '\n') == head + [a, b, ""]
  {
    var lines := head + [a, b, ""];
    JoinThree(a, b, "");
    JoinAppend(head, [a, b, ""]);
    assert Join("\n", lines) == Join("\n", head) + "\n" + a + "\n" + b + "\n";
    SplitJoin(lines, '\n');
  }

  /** An assignment has no line break when neither the name nor the
      values have one. */
  lemma AssignmentLineOneLine(name: string, values: seq<string>)
    requires '\n' !in name && forall k :: 0 <= k < |values| ==> '\n' !in values[k]
    ensures '\n' !in AssignmentLine(name, values)
  {
    JoinKeepsOut(",", values, '\n');
    QuotedNoBreak(Join(",", values));
    NoBreakConcat(name, "=");
    NoBreakConcat(name + "=", Quoted(Join(",", values)));
  }

  /** Read back line by line, the settings text gives the header lines and
      the two assignments, and the quoted values split at commas give the
      script lists back, when no name holds a comma or a line break. */
  lemma SettingsRoundTrip(pre: seq<string>, post: seq<string>)
    requires |pre| > 0 && |post| > 0
    requires forall k :: 0 <= k < |pre| ==> ',' !in pre[k] && '\n' !in pre[k]
    requires forall k :: 0 <= k < |post| ==> ',' !in post[k] && '\n' !in post[k]
    ensures Split(SettingsText(pre, post), '\n') ==
              HeaderLines + [AssignmentLine("PRE_TESTS_TO_RUN", pre),
                             AssignmentLine("POST_TESTS_TO_RUN", post), ""]
    ensures Split(Join(",", pre), ',') == pre && Split(Join(",", post), ',') == post
  {
    var preLine := AssignmentLine("PRE_TESTS_TO_RUN", pre);
    var postLine := AssignmentLine("POST_TESTS_TO_RUN", post);
    AssignmentLineOneLine("PRE_TESTS_TO_RUN", pre);
    AssignmentLineOneLine("POST_TESTS_TO_RUN", post);
    HeaderIsLines();
    assert SettingsText(pre, post) == Join("\n", HeaderLines) + "\n" + preLine + "\n" + postLine + "\n";
    LinesRoundTrip(HeaderLines, preLine, postLine);
    SplitJoin(pre, ',');
    SplitJoin(post, ',');
  }

  /** Joining two non-empty lists puts one separator between them. */
  lemma {:induction false} JoinAppend(xs: seq<string>, ys: seq<string>)
    requires |xs| > 0 && |ys| > 0
    ensures Join("\n", xs + ys) == Join("\n", xs) + "\n" + Join("\n", ys)
    decreases |xs|
  {
    if |xs| == 1 {
      assert (xs + ys)[1..] == ys;
    } else {
      assert (xs + ys)[1..] == xs[1..] + ys;
      JoinAppend(xs[1..], ys);
    }
  }

  // ---------------------------------------------------------------------
  // Backend check

  /** The issues one definition adds.  `error_if_backend_unavailable`
      always returns True, so only a missing `backend` key is reported,
      preceded by a note when the test name is missing too. */
  function DefinitionIssues(suite: TestSuite): seq<string> {
    if suite.backend.Some? then []
    else
      (if suite.testname.None? then ["Test definition requires a 'testname'."] else [])
      + ["Test " + FormatOption(suite.testname) + " does not define a 'backend'"]
  }

  /** All issues, definition by definition. */
  function Issues(defs: seq<TestSuite>): seq<string>
    decreases |defs|
  {
    if defs == [] then [] else Issues(defs[..|defs| - 1]) + DefinitionIssues(defs[|defs| - 1])
  }

  /** No issue is recorded exactly when every definition names a backend. */
  lemma {:induction false} IssuesEmpty(defs: seq<TestSuite>)
    ensures Issues(defs) == [] <==> forall k :: 0 <= k < |defs| ==> defs[k].backend.Some?
    decreases |defs|
  {
    if defs != [] {
      var init := defs[..|defs| - 1];
      IssuesEmpty(init);
      assert forall k :: 0 <= k < |init| ==> init[k] == defs[k];
    }
  }

  /** `ensure_backends_available`: never raises, since the KeyError of a
      missing backend is caught.  The source keeps the issues in a local
      list and returns None; here the list is the result. */
  method EnsureBackendsAvailable(configDetails: seq<TestSuite>) returns (issues: seq<string>)
    ensures issues == Issues(configDetails)
    ensures issues == [] <==> forall k :: 0 <= k < |configDetails| ==> configDetails[k].backend.Some?
  {
    issues := [];
    var i := 0;
    while i < |configDetails|
      invariant 0 <= i <= |configDetails|
      invariant issues == Issues(configDetails[..i])
    {
      assert configDetails[..i + 1][..i] == configDetails[..i];
      issues := issues + DefinitionIssues(configDetails[i]);
      i := i + 1;
    }
    assert configDetails[..i] == configDetails;
    IssuesEmpty(configDetails);
  }
}
