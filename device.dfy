/** The generic device backend (`backends/_device.py`): availability from
    the `adb devices` listing and the autopkgtest run arguments.  Its
    `create` only logs, so it changes nothing: the backend is a value. */
module Device {
  import opened Errors
  import opened Strings

  /** A device backend; the constructor stores its arguments unchanged. */
  datatype DeviceBackend = DeviceBackend(
    channel: string,
    revision: string,
    password: string,
    serial: Option<string>)

  /** Python `any(xs)` over strings: some member is non-empty. */
  function AnyNonEmpty(xs: seq<string>): (r: bool)
    ensures r <==> exists k :: 0 <= k < |xs| && xs[k] != ""
    decreases |xs|
  {
    if xs == [] then false
    else if xs[0] != "" then true
    else
      assert forall k :: 1 <= k < |xs| ==> xs[k] == xs[1..][k - 1];
      AnyNonEmpty(xs[1..])
  }

  /** `available()`, given the outcome of `adb devices`: a truthy serial
      must be one of the lines after the title line; without one, any
      non-empty line after the title will do.  A failing command raises. */
  function Available(b: DeviceBackend, adbOutput: Result<string>): (r: Result<bool>)
    ensures adbOutput.Err? <==> r.Err?
    ensures r.Err? ==> r.error == adbOutput.error
    ensures r.Ok? && Truthy(b.serial) ==>
              var lines := Split(adbOutput.value, '\n');
              (r.value <==> exists k :: 1 <= k < |lines| && lines[k] == b.serial.value)
    ensures r.Ok? && !Truthy(b.serial) ==>
              var lines := Split(adbOutput.value, '\n');
              (r.value <==> exists k :: 1 <= k < |lines| && lines[k] != "")
  {
    if adbOutput.Err? then Err(adbOutput.error)
    else
      var lines := Split(adbOutput.value, '\n');
      var listed := lines[1..];
      assert forall k :: 1 <= k < |lines| ==> lines[k] == listed[k - 1];
      if Truthy(b.serial) then
        assert b.serial.value in listed <==> exists k :: 1 <= k < |lines| && lines[k] == b.serial.value by {
          if b.serial.value in listed {
            var k :| 0 <= k < |listed| && listed[k] == b.serial.value;
            assert lines[k + 1] == b.serial.value;
          }
          if exists k :: 1 <= k < |lines| && lines[k] == b.serial.value {
            var k :| 1 <= k < |lines| && lines[k] == b.serial.value;
            assert listed[k - 1] == b.serial.value;
          }
        }
        Ok(b.serial.value in listed)
      else
        Ok(AnyNonEmpty(listed))
  }

  /** `get_adt_run_args()`: `ssh -s adb -- -p <password>`, then `-s
      <serial>` when the serial is not None. */
  function GetAdtRunArgs(b: DeviceBackend): (r: seq<string>)
    ensures |r| == if b.serial.Some? then 8 else 6
    ensures r[..6] == ["ssh", "-s", "adb", "--", "-p", b.password]
    ensures b.serial.Some? ==> r[6..] == ["-s", b.serial.value]
  {
    var cmd := ["ssh", "-s", "adb", "--", "-p", b.password];
    if b.serial.Some? then cmd + ["-s", b.serial.value] else cmd
  }

  /** The two tests of the serial disagree on the empty string: for
      `available` it counts as no serial (falsy), so any listed device
      makes the backend available, yet the run arguments still pass
      `-s ''` (it is not None). */
  lemma EmptySerialQuirk(b: DeviceBackend, adbOutput: Result<string>)
    requires b.serial == Some("")
    ensures Available(b, adbOutput) == Available(b.(serial := None), adbOutput)
    ensures GetAdtRunArgs(b) == GetAdtRunArgs(b.(serial := None)) + ["-s", ""]
  {
    var c := b.(serial := None);
    if adbOutput.Ok? {
      assert Available(b, adbOutput).value == Available(c, adbOutput).value;
    }
  }
}
