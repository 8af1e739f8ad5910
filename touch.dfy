/** The Ubuntu Touch provisioning backend (`backends/_touch.py`): the
    `channel:revision` state string, the parsing of `adb devices` and of
    the `system-image-cli -i` detail listing, the readiness decision, the
    create flow and the argument vectors it runs.

    Each external command is replaced by its outcome: `Ok(text)` for the
    standard output of `subprocess.check_output`, `Err(e)` for the
    exception it raised (CalledProcessError on a nonzero exit). */
module Touch {
  import opened Errors
  import opened Strings
  import opened Paths

  /** A touch backend.  All fields are set once by the constructor; the
      recovery file is always None there. */
  datatype TouchBackend = TouchBackend(
    channel: string,
    revision: string,
    serial: Option<string>,
    password: string,
    recoveryFile: Option<string>)

  // ---------------------------------------------------------------------
  // The device state string and the constructor

  /** `format_device_state_string`: the channel, a colon, the revision. */
  function FormatDeviceState(channel: string, revision: string): (r: string)
    ensures |r| == |channel| + 1 + |revision|
    ensures r[..|channel|] == channel && r[|channel|] == ':' && r[|channel| + 1..] == revision
  {
    channel + ":" + revision
  }

  /** Two colon-free channels give the same state string only together
      with the same revision. */
  lemma FormatInjective(c1: string, r1: string, c2: string, r2: string)
    requires ':' !in c1 && ':' !in c2
    ensures FormatDeviceState(c1, r1) == FormatDeviceState(c2, r2) <==> c1 == c2 && r1 == r2
  {
    var s := FormatDeviceState(c1, r1);
    if s == FormatDeviceState(c2, r2) {
      SplitAfterPiece(c1, ':', r1);
      SplitAfterPiece(c2, ':', r2);
      assert s == c1 + [':'] + r1 && s == c2 + [':'] + r2;
      assert Split(s, ':')[0] == c1 && Split(s, ':')[0] == c2;
      assert r1 == s[|c1| + 1..] == r2;
    }
  }

  /** `TouchBackend(initial_state, password, serial)`: `initial_state` is
      unpacked into channel and revision at its colons, which fails with
      ValueError unless there is exactly one. */
  function NewTouchBackend(initialState: string, password: string, serial: Option<string>): (r: Result<TouchBackend>)
    ensures r.Ok? <==> Count(initialState, ':') == 1
    ensures r.Err? ==> r.error == ValueError
    ensures r.Ok? ==> && FormatDeviceState(r.value.channel, r.value.revision) == initialState
                      && ':' !in r.value.channel && ':' !in r.value.revision
                      && r.value.serial == serial && r.value.password == password
                      && r.value.recoveryFile.None?
  {
    var parts := Split(initialState, ':');
    if |parts| != 2 then Err(ValueError)
    else
      JoinSplit(initialState, ':');
      assert parts[1..] == [parts[1]];
      Ok(TouchBackend(parts[0], parts[1], serial, password, None))
  }

  /** Splitting inverts formatting for colon-free channel and revision. */
  lemma FormatThenConstruct(channel: string, revision: string, password: string, serial: Option<string>)
    requires ':' !in channel && ':' !in revision
    ensures NewTouchBackend(FormatDeviceState(channel, revision), password, serial)
            == Ok(TouchBackend(channel, revision, serial, password, None))
  {
    var s := FormatDeviceState(channel, revision);
    assert s == channel + [':'] + revision;
    SplitAfterPiece(channel, ':', revision);
    SplitNoSep(revision, ':');
    assert Split(s, ':') == [channel, revision];
  }

  // ---------------------------------------------------------------------
  // `adb devices`

  /** The lines of `adb devices` output after the title line. */
  function ListedLines(output: string): (r: seq<string>)
    ensures |r| == Count(output, '\n')
  {
    Split(output, '\n')[1..]
  }

  /** `_get_connected_serials`: the listed lines that are not empty, in
      order. */
  function ConnectedSerials(output: string): (r: seq<string>)
    ensures |r| <= |ListedLines(output)|
    ensures forall k :: 0 <= k < |r| ==> r[k] != "" && '\n' !in r[k]
  {
    var lines := ListedLines(output);
    assert forall k :: 0 <= k < |lines| ==> '\n' !in lines[k] by {
      forall k | 0 <= k < |lines| ensures '\n' !in lines[k] {
        assert lines[k] == Split(output, '\n')[k + 1];
      }
    }
    NonEmptyNoNewline(lines);
    NonEmpty(lines)
  }

  lemma {:induction false} NonEmptyNoNewline(xs: seq<string>)
    requires forall k :: 0 <= k < |xs| ==> '\n' !in xs[k]
    ensures forall k :: 0 <= k < |NonEmpty(xs)| ==> '\n' !in NonEmpty(xs)[k]
  {
    forall k | 0 <= k < |NonEmpty(xs)| ensures '\n' !in NonEmpty(xs)[k] {
      NonEmptyMembers(xs, NonEmpty(xs)[k]);
    }
  }

  /** A serial is connected exactly when it is a non-empty listed line. */
  lemma ConnectedSerialsMembers(output: string, x: string)
    ensures x in ConnectedSerials(output) <==> x in ListedLines(output) && x != ""
  {
    NonEmptyMembers(ListedLines(output), x);
  }

  /** Output made of a title line and then lines `xs` lists exactly the
      non-empty members of `xs`; the serials come back unchanged when
      there is no empty one. */
  lemma ConnectedSerialsOf(title: string, xs: seq<string>)
    requires '\n' !in title
    requires forall k :: 0 <= k < |xs| ==> '\n' !in xs[k]
    ensures ConnectedSerials(Join("\n", [title] + xs)) == NonEmpty(xs)
    ensures (forall k :: 0 <= k < |xs| ==> xs[k] != "") ==> ConnectedSerials(Join("\n", [title] + xs)) == xs
  {
    var all := [title] + xs;
    assert all[1..] == xs;
    assert forall k :: 0 <= k < |all| ==> '\n' !in all[k] by {
      forall k | 0 <= k < |all| ensures '\n' !in all[k] {
        if k > 0 { assert all[k] == xs[k - 1]; }
      }
    }
    SplitJoin(all, '\n');
    if forall k :: 0 <= k < |xs| ==> xs[k] != "" {
      NonEmptyKeepsAll(xs);
    }
  }

  lemma NoSerialsIff(output: string)
    ensures ConnectedSerials(output) == [] <==>
            forall k :: 0 <= k < |ListedLines(output)| ==> ListedLines(output)[k] == ""
  {
    var lines := ListedLines(output);
    var serials := ConnectedSerials(output);
    if serials != [] {
      ConnectedSerialsMembers(output, serials[0]);
      var k :| 0 <= k < |lines| && lines[k] == serials[0];
    }
    if exists k :: 0 <= k < |lines| && lines[k] != "" {
      var k :| 0 <= k < |lines| && lines[k] != "";
      ConnectedSerialsMembers(output, lines[k]);
    }
  }

  /** `_device_connected(serial)` on the outcome of `adb devices`:
      RuntimeError when no device is listed; with a serial, whether that
      serial is listed; without one, RuntimeError when more than one
      device is listed, and True otherwise. */
  function DeviceConnected(adbOutput: Result<string>, serial: Option<string>): (r: Result<bool>)
    ensures adbOutput.Err? ==> r == Err(adbOutput.error)
    ensures adbOutput.Ok? ==>
              var lines := ListedLines(adbOutput.value);
              && ((forall k :: 0 <= k < |lines| ==> lines[k] == "") ==> r == Err(RuntimeError))
              && (serial.Some? && (exists k :: 0 <= k < |lines| && lines[k] != "") ==>
                    r == Ok(serial.value != "" && serial.value in lines))
              && (serial.None? ==> (r == Ok(true) <==> |ConnectedSerials(adbOutput.value)| == 1))
              && (serial.None? && |ConnectedSerials(adbOutput.value)| != 1 ==> r == Err(RuntimeError))
              && (r.Err? ==> r.error == RuntimeError)
  {
    if adbOutput.Err? then Err(adbOutput.error)
    else
      var serials := ConnectedSerials(adbOutput.value);
      NoSerialsIff(adbOutput.value);
      ConnectedSerialsMembers(adbOutput.value, if serial.Some? then serial.value else "");
      if serials == [] then Err(RuntimeError)
      else if serial.Some? then Ok(serial.value in serials)
      else if |serials| > 1 then Err(RuntimeError)
      else Ok(true)
  }

  // ---------------------------------------------------------------------
  // `system-image-cli -i`

  /** The command `_get_current_device_details` runs. */
  function DetailCommand(serial: Option<string>): (r: seq<string>)
    ensures |r| == if serial.Some? then 6 else 4
    ensures r[0] == "adb" && r[|r| - 3..] == ["shell", "system-image-cli", "-i"]
    ensures serial.Some? ==> r[1..3] == ["-s", serial.value]
  {
    if serial.Some? then ["adb", "-s", serial.value, "shell", "system-image-cli", "-i"]
    else ["adb", "shell", "system-image-cli", "-i"]
  }

  /** The key of a detail line: its first colon-separated field with
      spaces turned into underscores. */
  function DetailKey(line: string): (r: string)
    ensures ' ' !in r
  {
    var k := ReplaceAll(Split(line, ':')[0], " ", "_");
    ReplaceCharRemoves(Split(line, ':')[0], ' ', "_");
    k
  }

  /** The value of a detail line: exactly its second field, so a leading
      space is kept and text after a second colon is dropped. */
  function DetailValue(line: string): (r: string)
    requires ':' in line
    ensures ':' !in r
  {
    CountPositive(line, ':');
    Split(line, ':')[1]
  }

  /** A line `key:value` with a colon-free value has that value, and a
      line with no space before its colon has its own key. */
  lemma DetailLineFields(key: string, value: string, rest: string)
    requires ':' !in key && ':' !in value && ' ' !in key
    ensures var line := key + ":" + value + rest;
            ':' in line && DetailKey(line) == key
            && (rest == "" || rest[0] == ':' ==> DetailValue(line) == value)
  {
    var line := key + ":" + value + rest;
    assert line == key + [':'] + (value + rest);
    assert line[|key|] == ':';
    SplitAfterPiece(key, ':', value + rest);
    ReplaceUntouched(key, " ", "_");
    if rest == "" {
      assert value + rest == value;
      SplitNoSep(value, ':');
    } else if rest[0] == ':' {
      assert value + rest == value + [':'] + rest[1..];
      SplitAfterPiece(value, ':', rest[1..]);
    }
  }

  /** The dictionary comprehension of `_get_current_device_details` over
      the output lines: empty lines are skipped, a non-empty line without
      a colon raises IndexError, and a later line overwrites an earlier
      line with the same key. */
  function DetailsOf(lines: seq<string>): Result<map<string, string>>
    decreases |lines|
  {
    if lines == [] then Ok(map[])
    else
      var prev := DetailsOf(lines[..|lines| - 1]);
      var line := lines[|lines| - 1];
      if prev.Err? || line == "" then prev
      else if ':' !in line then Err(IndexError)
      else Ok(prev.value[DetailKey(line) := DetailValue(line)])
  }

  /** A detail line that counts: non-empty. */
  predicate DetailLine(lines: seq<string>, i: int) {
    0 <= i < |lines| && lines[i] != ""
  }

  /** Parsing fails exactly when some non-empty line has no colon, and then
      with IndexError. */
  lemma {:induction false} DetailsError(lines: seq<string>)
    ensures DetailsOf(lines).Err? <==> exists i :: DetailLine(lines, i) && ':' !in lines[i]
    ensures DetailsOf(lines).Err? ==> DetailsOf(lines).error == IndexError
    decreases |lines|
  {
    if lines != [] {
      var init := lines[..|lines| - 1];
      DetailsError(init);
      if exists i :: DetailLine(init, i) && ':' !in init[i] {
        var i :| DetailLine(init, i) && ':' !in init[i];
        assert DetailLine(lines, i) && lines[i] == init[i];
      }
      if exists i :: DetailLine(lines, i) && ':' !in lines[i] {
        var i :| DetailLine(lines, i) && ':' !in lines[i];
        if i < |lines| - 1 {
          assert DetailLine(init, i) && init[i] == lines[i];
        }
      }
    }
  }

  /** The line whose entry survives for key `k`: the last counted line
      with that key. */
  predicate LastLineFor(lines: seq<string>, k: string, i: int) {
    DetailLine(lines, i) && DetailKey(lines[i]) == k
    && forall j :: i < j < |lines| && lines[j] != "" ==> DetailKey(lines[j]) != k
  }

  /** One step of the comprehension: a successful parse extends the
      parse of all lines but the last. */
  lemma DetailsStep(lines: seq<string>)
    requires |lines| > 0 && DetailsOf(lines).Ok?
    ensures var init := lines[..|lines| - 1];
            var line := lines[|lines| - 1];
            && DetailsOf(init).Ok?
            && (line == "" ==> DetailsOf(lines).value == DetailsOf(init).value)
            && (line != "" ==>
                  (':' in line && DetailsOf(lines).value == DetailsOf(init).value[DetailKey(line) := DetailValue(line)]))
  {
  }

  /** A parsed dictionary holds exactly the keys of the counted lines. */
  lemma {:induction false} DetailsKeys(lines: seq<string>, k: string)
    requires DetailsOf(lines).Ok?
    ensures k in DetailsOf(lines).value <==> exists i :: DetailLine(lines, i) && DetailKey(lines[i]) == k
    decreases |lines|
  {
    if lines != [] {
      var n := |lines| - 1;
      var init := lines[..n];
      DetailsStep(lines);
      DetailsKeys(init, k);
      if exists i :: DetailLine(init, i) && DetailKey(init[i]) == k {
        var i :| DetailLine(init, i) && DetailKey(init[i]) == k;
        assert DetailLine(lines, i) && lines[i] == init[i];
      }
      if exists i :: DetailLine(lines, i) && DetailKey(lines[i]) == k {
        var i :| DetailLine(lines, i) && DetailKey(lines[i]) == k;
        if i < n {
          assert DetailLine(init, i) && init[i] == lines[i];
        }
      }
    }
  }

  /** Each key of a parsed dictionary is bound to the value of the last
      counted line with that key. */
  lemma {:induction false} DetailsLastWins(lines: seq<string>, k: string)
    requires DetailsOf(lines).Ok? && k in DetailsOf(lines).value
    ensures exists i :: LastLineFor(lines, k, i) && ':' in lines[i] && DetailsOf(lines).value[k] == DetailValue(lines[i])
    decreases |lines|
  {
    var n := |lines| - 1;
    var init := lines[..n];
    var line := lines[n];
    DetailsStep(lines);
    if line != "" && DetailKey(line) == k {
      assert LastLineFor(lines, k, n);
    } else {
      var m0 := DetailsOf(init).value;
      var m := DetailsOf(lines).value;
      assert k in m0 && m[k] == m0[k] by {
        if line == "" {
          assert m == m0;
        } else {
          assert DetailKey(line) != k;
          var key, value := DetailKey(line), DetailValue(line);
          assert m == m0[key := value];
        }
      }
      DetailsLastWins(init, k);
      var i :| LastLineFor(init, k, i) && ':' in init[i] && m0[k] == DetailValue(init[i]);
      assert lines[i] == init[i];
      forall j | i < j < |lines| && lines[j] != "" ensures DetailKey(lines[j]) != k {
        if j < n { assert lines[j] == init[j]; }
      }
      assert LastLineFor(lines, k, i);
    }
  }

  /** Every value of a parsed dictionary is colon-free. */
  lemma {:induction false} DetailsValuesColonFree(lines: seq<string>, k: string)
    requires DetailsOf(lines).Ok? && k in DetailsOf(lines).value
    ensures ':' !in DetailsOf(lines).value[k]
  {
    DetailsLastWins(lines, k);
    var i :| LastLineFor(lines, k, i) && ':' in lines[i] && DetailsOf(lines).value[k] == DetailValue(lines[i]);
  }

  /** `_get_current_device_details` on the outcome of the detail command:
      None when the command failed with CalledProcessError, any other
      exception propagated. */
  function CurrentDeviceDetails(detailOutput: Result<string>): (r: Result<Option<map<string, string>>>)
    ensures detailOutput == Err(CalledProcessError) ==> r == Ok(None)
    ensures detailOutput.Err? && detailOutput.error != CalledProcessError ==> r == Err(detailOutput.error)
    ensures detailOutput.Ok? ==>
              var p := DetailsOf(Split(detailOutput.value, '\n'));
              (r.Err? <==> p.Err?) && (r.Ok? ==> r.value == Some(p.value))
  {
    if detailOutput.Err? then
      if detailOutput.error == CalledProcessError then Ok(None) else Err(detailOutput.error)
    else
      var p := DetailsOf(Split(detailOutput.value, '\n'));
      if p.Err? then Err(p.error) else Ok(Some(p.value))
  }

  /** `_get_device_current_state` as written: the revision is passed under
      the misspelt keyword `revison`, so once both dictionary lookups
      succeed the call itself raises TypeError.  A failed detail command
      (None) is not subscriptable: TypeError as well. */
  function DeviceCurrentStateAsWritten(details: Result<Option<map<string, string>>>): (r: Result<string>)
    ensures r.Err?
    ensures (details.Ok? && details.value.Some? && "channel" in details.value.value
             && "version_version" in details.value.value) ==> r == Err(TypeError)
  {
    if details.Err? then Err(details.error)
    else if details.value.None? then Err(TypeError)
    else if "channel" !in details.value.value then Err(KeyError)
    else if "version_version" !in details.value.value then Err(KeyError)
    else Err(TypeError)
  }

  /** The state the call is evidently meant to compute: the `channel` and
      `version_version` details joined as a device state string. */
  function DeviceCurrentState(details: Result<Option<map<string, string>>>): (r: Result<string>)
    ensures r.Ok? <==> details.Ok? && details.value.Some? && "channel" in details.value.value
                       && "version_version" in details.value.value
    ensures r.Ok? ==> r.value == FormatDeviceState(details.value.value["channel"], details.value.value["version_version"])
    ensures details.Ok? && details.value.None? ==> r == Err(TypeError)
    ensures details.Ok? && details.value.Some? && !r.Ok? ==> r == Err(KeyError)
  {
    if details.Err? then Err(details.error)
    else if details.value.None? then Err(TypeError)
    else
      var m := details.value.value;
      if "channel" !in m || "version_version" !in m then Err(KeyError)
      else Ok(FormatDeviceState(m["channel"], m["version_version"]))
  }

  /** Two detail lines `k1:v1` and `k2:v2` with distinct keys parse into
      the dictionary binding both. */
  lemma TwoDetailLines(k1: string, v1: string, k2: string, v2: string)
    requires ':' !in k1 && ' ' !in k1 && '\n' !in k1 && ':' !in v1 && '\n' !in v1
    requires ':' !in k2 && ' ' !in k2 && '\n' !in k2 && ':' !in v2 && '\n' !in v2
    ensures var text := k1 + ":" + v1 + "\n" + k2 + ":" + v2 + "\n";
            DetailsOf(Split(text, '\n')) == Ok(map[k1 := v1, k2 := v2])
  {
    var l1 := k1 + ":" + v1;
    var l2 := k2 + ":" + v2;
    assert '\n' !in l1 && '\n' !in l2;
    var text := k1 + ":" + v1 + "\n" + k2 + ":" + v2 + "\n";
    assert text == l1 + ['\n'] + (l2 + ['\n'] + "");
    SplitAfterPiece(l1, '\n', l2 + ['\n'] + "");
    SplitAfterPiece(l2, '\n', "");
    var lines := Split(text, '\n');
    assert lines == [l1, l2, ""];
    assert l1 == k1 + ":" + v1 + "";
    assert l2 == k2 + ":" + v2 + "";
    DetailLineFields(k1, v1, "");
    DetailLineFields(k2, v2, "");
    var none: seq<string> := [];
    assert [l1][..0] == none;
    assert DetailsOf([l1]) == Ok(map[k1 := v1]);
    assert [l1, l2][..1] == [l1];
    assert DetailsOf([l1, l2]) == Ok(map[k1 := v1, k2 := v2]);
    assert lines[..2] == [l1, l2];
  }

  /** A device reporting channel `c` and version `v`: the corrected lookup
      finds the state `c:v`, the lookup as written raises TypeError. */
  lemma ReportedStateLookup(c: string, v: string, text: string)
    requires ':' !in c && '\n' !in c && ':' !in v && '\n' !in v
    requires text == "channel" + ":" + c + "\n" + "version_version" + ":" + v + "\n"
    ensures DeviceCurrentState(CurrentDeviceDetails(Ok(text))) == Ok(FormatDeviceState(c, v))
    ensures DeviceCurrentStateAsWritten(CurrentDeviceDetails(Ok(text))) == Err(TypeError)
  {
    DetailKeyNames();
    TwoDetailLines("channel", c, "version_version", v);
  }

  lemma DetailKeyNames()
    ensures ':' !in "channel" && ' ' !in "channel" && '\n' !in "channel"
    ensures ':' !in "version_version" && ' ' !in "version_version" && '\n' !in "version_version"
  {
  }

  /** `_device_in_required_state`, with the state read as intended
      (`DeviceCurrentState`); as written the lookup always raises, see
      `DeviceCurrentStateAsWritten`. */
  function DeviceInRequiredState(b: TouchBackend, detailOutput: Result<string>): (r: Result<bool>)
    ensures r.Err? <==> DeviceCurrentState(CurrentDeviceDetails(detailOutput)).Err?
    ensures r.Ok? ==> (r.value <==> DeviceCurrentState(CurrentDeviceDetails(detailOutput)).value
                                    == FormatDeviceState(b.channel, b.revision))
  {
    var actual := DeviceCurrentState(CurrentDeviceDetails(detailOutput));
    if actual.Err? then Err(actual.error)
    else Ok(FormatDeviceState(b.channel, b.revision) == actual.value)
  }

  /** A backend built from a state string is ready exactly when the device
      reports its channel and its revision. */
  lemma ReadyIffReported(b: TouchBackend, detailOutput: Result<string>, m: map<string, string>)
    requires ':' !in b.channel
    requires detailOutput.Ok? && DetailsOf(Split(detailOutput.value, '\n')) == Ok(m)
    requires "channel" in m && "version_version" in m
    ensures DeviceInRequiredState(b, detailOutput) == Ok(m["channel"] == b.channel && m["version_version"] == b.revision)
  {
    DetailsValuesColonFree(Split(detailOutput.value, '\n'), "channel");
    FormatInjective(m["channel"], m["version_version"], b.channel, b.revision);
  }

  // ---------------------------------------------------------------------
  // Argument vectors

  /** `_put_device_in_bootloader`'s command; `-s serial` only with a
      serial. */
  function BootloaderCommand(serial: Option<string>): (r: seq<string>)
    ensures |r| == if serial.Some? then 5 else 3
    ensures r[0] == "adt" && r[|r| - 2..] == ["reboot", "bootloader"]
    ensures serial.Some? ==> r[1..3] == ["-s", serial.value]
    ensures "-s" in r <==> serial.Some?
  {
    if serial.Some? then ["adt", "-s", serial.value, "reboot", "bootloader"]
    else ["adt", "reboot", "bootloader"]
  }

  /** What `_get_flash_command` builds for `b`: the fixed flash prefix,
      then `--serial` with a serial, then `--recovery-image` with a
      recovery file. */
  predicate IsFlashCommand(cmd: seq<string>, b: TouchBackend) {
    && |cmd| == 10 + (if b.serial.Some? then 2 else 0) + (if b.recoveryFile.Some? then 2 else 0)
    && cmd[..10] == ["ubuntu-device-flash", "--revision", b.revision, "touch", "--bootstrap",
                     "--developer-mode", "--password", b.password, "--channel", b.channel]
    && (b.serial.Some? ==> cmd[10..12] == ["--serial", b.serial.value])
    && (b.recoveryFile.Some? ==> cmd[|cmd| - 2..] == ["--recovery-image", b.recoveryFile.value])
  }

  /** `_get_flash_command`. */
  method FlashCommand(b: TouchBackend) returns (cmd: seq<string>)
    ensures IsFlashCommand(cmd, b)
  {
    cmd := ["ubuntu-device-flash", "--revision", b.revision, "touch", "--bootstrap",
            "--developer-mode", "--password", b.password, "--channel", b.channel];
    if b.serial.Some? {
      cmd := cmd + ["--serial", b.serial.value];
    }
    if b.recoveryFile.Some? {
      cmd := cmd + ["--recovery-image", b.recoveryFile.value];
    }
  }

  /** The flash command names the backend's channel and revision, whose
      state string is the one it was built from; it carries `--serial`
      exactly when a serial is set, as long as no value is itself the text
      `--serial`. */
  lemma FlashCommandTargets(cmd: seq<string>, b: TouchBackend, initialState: string, password: string, serial: Option<string>)
    requires NewTouchBackend(initialState, password, serial) == Ok(b)
    requires IsFlashCommand(cmd, b)
    requires b.revision != "--serial" && b.password != "--serial" && b.channel != "--serial"
    ensures FormatDeviceState(cmd[9], cmd[2]) == initialState
    ensures "--serial" in cmd <==> serial.Some?
  {
    assert cmd[2] == cmd[..10][2] && cmd[9] == cmd[..10][9];
    if serial.Some? {
      assert cmd[10] == cmd[10..12][0];
    } else {
      assert forall i :: 0 <= i < 10 ==> cmd[i] == cmd[..10][i];
      assert forall i :: 0 <= i < |cmd| ==> cmd[i] != "--serial";
    }
  }

  /** `_get_adb_script_location`: the shipped `adb` script when it exists,
      else plain `adb`. */
  function AdbScriptLocation(dataLocation: string, scriptExists: bool): (r: string)
    ensures scriptExists ==> r == PathJoin(dataLocation, "adb")
    ensures !scriptExists ==> r == "adb"
  {
    if scriptExists then PathJoin(dataLocation, "adb") else "adb"
  }

  /** `get_adt_run_args(**kwargs)`.  `tmpDir` is the `tmp_dir` keyword
      (None when absent), `makeDirs` the outcome of creating its
      `identity` directory, `dataLocation` the data directory of the
      package and `scriptExists` whether the `adb` script is there. */
  method GetAdtRunArgs(b: TouchBackend, tmpDir: Option<string>, makeDirs: Outcome,
                       dataLocation: string, scriptExists: bool)
    returns (r: Result<seq<string>>)
    ensures tmpDir.None? ==> r == Err(KeyError)
    ensures tmpDir.Some? && makeDirs.Fail? ==> r == Err(makeDirs.error)
    ensures r.Ok? <==> tmpDir.Some? && makeDirs.Pass?
    ensures r.Ok? ==>
              && |r.value| == (if b.serial.Some? then 10 else 8)
              && r.value[..8] == ["ssh", "-s", AdbScriptLocation(dataLocation, scriptExists), "--",
                                  "-p", b.password, "--identity", PathJoin(tmpDir.value, "identity")]
              && (b.serial.Some? ==> r.value[8..] == ["-s", b.serial.value])
  {
    if tmpDir.None? {
      return Err(KeyError);
    }
    var identity := PathJoin(tmpDir.value, "identity");
    if makeDirs.Fail? {
      return Err(makeDirs.error);
    }
    var adbScript := AdbScriptLocation(dataLocation, scriptExists);
    var cmd := ["ssh", "-s", adbScript, "--", "-p", b.password, "--identity", identity];
    if b.serial.Some? {
      cmd := cmd + ["-s", b.serial.value];
    }
    return Ok(cmd);
  }

  /** The identity directory is `tmp_dir/identity`. */
  lemma IdentityPath(tmpDir: string)
    requires tmpDir != "" && tmpDir[|tmpDir| - 1] != '/'
    ensures PathJoin(tmpDir, "identity") == tmpDir + "/identity"
  {
    assert !StartsWith("identity", "/") by {
      assert "identity"[..1][0] != "/"[0];
    }
  }

  // ---------------------------------------------------------------------
  // The create flow

  /** `create()`, given the outcome of the detail command and of `adb
      devices`, with the device state read as intended
      (`DeviceInRequiredState`).  `commands` lists the commands handed to
      `run_command_with_logged_output`, in order; `launch` says whether
      each could be started (their exit codes are ignored by the source).
      A device already in the required state is left alone; otherwise a
      missing device is a RuntimeError, and an available one is put in
      the bootloader and then flashed; a command that cannot be started
      raises, and nothing after it runs. */
  method Create(b: TouchBackend, detailOutput: Result<string>, adbOutput: Result<string>,
                launch: seq<string> -> Outcome)
    returns (r: Outcome, commands: seq<seq<string>>)
    ensures var ready := DeviceInRequiredState(b, detailOutput);
            && (ready == Ok(true) ==> r == Pass && commands == [])
            && (ready.Err? ==> r == Fail(ready.error) && commands == [])
    ensures var available := DeviceConnected(adbOutput, b.serial);
            DeviceInRequiredState(b, detailOutput) == Ok(false) ==>
              && (available.Err? ==> r == Fail(available.error) && commands == [])
              && (available == Ok(false) ==> r == Fail(RuntimeError) && commands == [])
              && (available == Ok(true) ==>
                    var boot := BootloaderCommand(b.serial);
                    && commands != [] && commands[0] == boot
                    && (launch(boot).Fail? ==> r == launch(boot) && commands == [boot])
                    && (launch(boot).Pass? ==>
                          |commands| == 2 && IsFlashCommand(commands[1], b) && r == launch(commands[1])))
    ensures commands != [] ==> DeviceConnected(adbOutput, b.serial) == Ok(true)
    ensures r.Pass? && commands != [] ==> forall k :: 0 <= k < |commands| ==> launch(commands[k]).Pass?
  {
    var ready := DeviceInRequiredState(b, detailOutput);
    if ready.Err? {
      return Fail(ready.error), [];
    }
    if ready.value {
      return Pass, [];
    }
    var available := DeviceConnected(adbOutput, b.serial);
    if available.Err? {
      return Fail(available.error), [];
    }
    if !available.value {
      return Fail(RuntimeError), [];
    }
    r, commands := Reflash(b, launch);
  }

  /** Reboots the connected device into its bootloader and, once that command has started, flashes it. */
  method Reflash(b: TouchBackend, launch: seq<string> -> Outcome)
    returns (r: Outcome, commands: seq<seq<string>>)
    ensures var boot := BootloaderCommand(b.serial);
            && commands != [] && commands[0] == boot
            && (launch(boot).Fail? ==> r == launch(boot) && commands == [boot])
            && (launch(boot).Pass? ==>
                  |commands| == 2 && IsFlashCommand(commands[1], b) && r == launch(commands[1]))
    ensures r.Pass? ==> forall k :: 0 <= k < |commands| ==> launch(commands[k]).Pass?
  {
    var bootloader := BootloaderCommand(b.serial);
    commands := [bootloader];
    r := launch(bootloader);
    if r.Fail? {
      return;
    }
    var flash := FlashCommand(b);
    commands := commands + [flash];
    r := launch(flash);
  }
}
