/** The QEMU provisioning backend (`backends/_qemu.py`): an SSH backend
    whose device is a local virtual machine.  It builds the image with the
    autopkgtest cloud builder, prepares a copy-on-write overlay, launches
    `qemu-system` with a forwarded SSH port, and tears the machine down
    again on close.

    The launch thread, `which`/`dpkg`, the filesystem and signals are
    replaced by oracles and parameters. */
module Qemu {
  import opened Errors
  import opened Strings
  import opened Paths
  import Ssh
  import Executors

  const OverlayDir: string := Ssh.CacheDir + "/overlay"
  const DefaultRam: string := "3072"
  const DefaultCpu: string := "2"
  const TimeoutReboot: string := "300"
  const Headless: bool := true

  // ---------------------------------------------------------------------
  // The option groups of the launch command, as text

  /** `QEMU_LAUNCH_OPTS` filled in: each field followed by one space. */
  function LaunchOpts(qemu: string, ram: string, cpu: string, workDir: string): string {
    Spaced(BaseGroup(qemu, ram, cpu, workDir))
  }

  const DisplayOpts: string := "-display sdl "
  const DisplayVgaOpts: string := "-vga qxl "
  const SoundOpts: string := "-soundhw all "
  const DisplayHeadless: string := "-display none "
  const NetOpts: string := "-net nic,model=virtio -net user"

  /** `QEMU_PORT_OPTS`: the forwarding rule glued to the `user` network,
      then a space. */
  function PortOpts(port: int): string {
    PortForward(port) + " "
  }

  function PortForward(port: int): string {
    ",hostfwd=tcp::" + IntToString(port) + "-:22"
  }

  /** `QEMU_DISK_IMAGE_OPTS`. */
  function DiskImageOpts(diskImg: string): string {
    "-drive" + " " + "file=" + diskImg + ",if=virtio" + " "
  }

  /** `QEMU_DISK_IMAGE_OVERLAY_OPTS`. */
  function DiskImageOverlayOpts(overlayImg: string): string {
    "-drive" + " " + "file=" + overlayImg + ",cache=unsafe,if=virtio,index=0" + " "
  }

  // ---------------------------------------------------------------------
  // The option groups as argument vectors

  function BaseGroup(qemu: string, ram: string, cpu: string, workDir: string): (r: seq<string>)
    ensures |r| == 12
  {
    [qemu, "-m", ram, "-smp", cpu, "-pidfile", workDir + "/qemu.pid",
     "-rtc", "base=localtime", "-cpu", "core2duo", "-enable-kvm"]
  }

  function DiskGroup(overlay: Option<string>, imageName: string): seq<string> {
    if Truthy(overlay) then ["-drive", "file=" + overlay.value + ",cache=unsafe,if=virtio,index=0"]
    else ["-drive", "file=" + imageName + ",if=virtio"]
  }

  function DisplayGroup(headless: bool): seq<string> {
    if headless then ["-display", "none", "-vga", "qxl"]
    else ["-display", "sdl", "-vga", "qxl", "-soundhw", "all"]
  }

  /** Python truthiness of an optional port. */
  predicate PortTruthy(port: Option<int>) {
    port.Some? && port.value != 0
  }

  function NetGroup(port: Option<int>): seq<string> {
    ["-net", "nic,model=virtio", "-net",
     if PortTruthy(port) then "user" + PortForward(port.value) else "user"]
  }

  /** The launch argument vector: base, disk, display and network groups,
      in that order. */
  function LaunchArgv(qemu: string, workDir: string, imageName: string, ram: string, cpu: string,
                      headless: bool, port: Option<int>, overlay: Option<string>): seq<string> {
    BaseGroup(qemu, ram, cpu, workDir) + DiskGroup(overlay, imageName)
      + DisplayGroup(headless) + NetGroup(port)
  }

  /** The launch text: the base, disk, display and network option texts
      appended in that order (the network text ends in the forwarding rule
      or a space). */
  function LaunchText(qemu: string, workDir: string, imageName: string, ram: string, cpu: string,
                      headless: bool, port: Option<int>, overlay: Option<string>): string {
    LaunchOpts(qemu, ram, cpu, workDir)
      + (if Truthy(overlay) then DiskImageOverlayOpts(overlay.value) else DiskImageOpts(imageName))
      + (if headless then DisplayHeadless + DisplayVgaOpts else DisplayOpts + DisplayVgaOpts + SoundOpts)
      + (NetOpts + (if PortTruthy(port) then PortOpts(port.value) else " "))
  }

  /** Parts with no whitespace, no quote and no backslash: every token of
      the launch text is then a plain word, and `shlex.split` recovers
      them. */
  predicate PlainLaunchParts(qemu: string, workDir: string, imageName: string, ram: string,
                             cpu: string, overlay: Option<string>) {
    IsWord(qemu) && IsWord(ram) && IsWord(cpu) && NoSpace(workDir)
    && (if Truthy(overlay) then NoSpace(overlay.value) else NoSpace(imageName))
    && NoShellMeta(qemu) && NoShellMeta(ram) && NoShellMeta(cpu) && NoShellMeta(workDir)
    && (if Truthy(overlay) then NoShellMeta(overlay.value) else NoShellMeta(imageName))
  }

  // ---------------------------------------------------------------------
  // Text and tokens agree

  lemma DisplayTexts()
    ensures DisplayHeadless + DisplayVgaOpts == Spaced(["-display", "none", "-vga", "qxl"])
    ensures DisplayOpts + DisplayVgaOpts + SoundOpts == Spaced(["-display", "sdl", "-vga", "qxl", "-soundhw", "all"])
  {
    assert DisplayHeadless == Spaced(["-display", "none"]);
    assert DisplayVgaOpts == Spaced(["-vga", "qxl"]);
    assert DisplayOpts == Spaced(["-display", "sdl"]);
    assert SoundOpts == Spaced(["-soundhw", "all"]);
    SpacedAppend(["-display", "none"], ["-vga", "qxl"]);
    SpacedAppend(["-display", "sdl"], ["-vga", "qxl"]);
    SpacedAppend(["-display", "sdl", "-vga", "qxl"], ["-soundhw", "all"]);
    assert ["-display", "sdl"] + ["-vga", "qxl"] == ["-display", "sdl", "-vga", "qxl"];
    assert ["-display", "sdl", "-vga", "qxl"] + ["-soundhw", "all"] == ["-display", "sdl", "-vga", "qxl", "-soundhw", "all"];
  }

  lemma DisplayWords()
    ensures forall k :: 0 <= k < |DisplayGroup(true)| ==> IsWord(DisplayGroup(true)[k])
    ensures forall k :: 0 <= k < |DisplayGroup(false)| ==> IsWord(DisplayGroup(false)[k])
  {
    assert IsWord("-display") && IsWord("none") && IsWord("sdl");
    assert IsWord("-vga") && IsWord("qxl") && IsWord("-soundhw") && IsWord("all");
  }

  lemma BaseWords(qemu: string, ram: string, cpu: string, workDir: string)
    requires IsWord(qemu) && IsWord(ram) && IsWord(cpu) && NoSpace(workDir)
    ensures var g := BaseGroup(qemu, ram, cpu, workDir);
            forall k :: 0 <= k < |g| ==> IsWord(g[k])
  {
    BaseLiteralWords();
    NoSpaceAppend(workDir, "/qemu.pid");
  }

  lemma BaseLiteralWords()
    ensures IsWord("-m") && IsWord("-smp") && IsWord("-pidfile") && IsWord("-rtc")
    ensures IsWord("base=localtime") && IsWord("-cpu") && IsWord("core2duo") && IsWord("-enable-kvm")
    ensures NoSpace("/qemu.pid")
  {
  }

  /** A field between two literal parts of a word. */
  lemma FieldWord(pre: string, x: string, post: string)
    requires pre != "" && NoSpace(pre) && NoSpace(x) && NoSpace(post)
    ensures IsWord(pre + x + post)
  {
    NoSpaceAppend(pre, x);
    NoSpaceAppend(pre + x, post);
  }

  /** Two words, the second a field between two fixed parts. */
  lemma SpacedField(w: string, pre: string, x: string, post: string)
    ensures Spaced([w, pre + x + post]) == w + " " + pre + x + post + " "
  {
    SpacedAppend([w], [pre + x + post]);
    assert [w] + [pre + x + post] == [w, pre + x + post];
    SpacedOne(w);
    SpacedOne(pre + x + post);
  }

  lemma DiskText(overlay: Option<string>, imageName: string)
    ensures (if Truthy(overlay) then DiskImageOverlayOpts(overlay.value) else DiskImageOpts(imageName))
            == Spaced(DiskGroup(overlay, imageName))
  {
    if Truthy(overlay) {
      SpacedField("-drive", "file=", overlay.value, ",cache=unsafe,if=virtio,index=0");
    } else {
      SpacedField("-drive", "file=", imageName, ",if=virtio");
    }
  }

  lemma DiskWords(overlay: Option<string>, imageName: string)
    requires if Truthy(overlay) then NoSpace(overlay.value) else NoSpace(imageName)
    ensures var g := DiskGroup(overlay, imageName);
            forall k :: 0 <= k < |g| ==> IsWord(g[k])
  {
    assert IsWord("-drive");
    if Truthy(overlay) {
      assert NoSpace(",cache=unsafe,if=virtio,index=0");
      FieldWord("file=", overlay.value, ",cache=unsafe,if=virtio,index=0");
    } else {
      assert NoSpace(",if=virtio");
      FieldWord("file=", imageName, ",if=virtio");
    }
  }

  /** Gluing a tail to the last word of a text written one space
      apart. */
  lemma GlueLast(head: string, words: seq<string>, last: string, tail: string)
    requires Spaced(words) == head
    ensures (head + last) + (tail + " ") == Spaced(words + [last + tail])
  {
    SpacedAppend(words, [last + tail]);
    SpacedOne(last + tail);
  }

  lemma NetHead()
    ensures Spaced(["-net", "nic,model=virtio", "-net"]) == "-net nic,model=virtio -net "
    ensures NetOpts == "-net nic,model=virtio -net " + "user"
  {
  }

  lemma NetText(port: Option<int>)
    ensures NetOpts + (if PortTruthy(port) then PortOpts(port.value) else " ") == Spaced(NetGroup(port))
  {
    NetHead();
    var head := "-net nic,model=virtio -net ";
    var words := ["-net", "nic,model=virtio", "-net"];
    if PortTruthy(port) {
      GlueLast(head, words, "user", PortForward(port.value));
    } else {
      GlueLast(head, words, "user", "");
      assert "user" + "" == "user";
      assert "" + " " == " ";
    }
    assert words + [NetGroup(port)[3]] == NetGroup(port);
  }

  lemma NetLiteralWords()
    ensures IsWord("-net") && IsWord("nic,model=virtio") && IsWord("user")
    ensures NoSpace("user") && NoSpace(",hostfwd=tcp::") && NoSpace("-:22")
  {
  }

  lemma NetWords(port: Option<int>)
    ensures var g := NetGroup(port);
            forall k :: 0 <= k < |g| ==> IsWord(g[k])
  {
    NetLiteralWords();
    if PortTruthy(port) {
      var p := IntToString(port.value);
      IntToStringNoSpace(port.value);
      NoSpaceAppend(",hostfwd=tcp::", p);
      NoSpaceAppend(",hostfwd=tcp::" + p, "-:22");
      NoSpaceAppend("user", PortForward(port.value));
    }
  }

  /** Splitting the launch text, its four groups appended in order,
      gives the launch vector. */
  lemma LaunchSplit(qemu: string, workDir: string, imageName: string, ram: string, cpu: string,
                    headless: bool, port: Option<int>, overlay: Option<string>,
                    disk: string, display: string, net: string)
    requires disk == (if Truthy(overlay) then DiskImageOverlayOpts(overlay.value) else DiskImageOpts(imageName))
    requires display == (if headless then DisplayHeadless + DisplayVgaOpts else DisplayOpts + DisplayVgaOpts + SoundOpts)
    requires net == NetOpts + (if PortTruthy(port) then PortOpts(port.value) else " ")
    requires PlainLaunchParts(qemu, workDir, imageName, ram, cpu, overlay)
    ensures Words(LaunchOpts(qemu, ram, cpu, workDir) + disk + display + net)
            == LaunchArgv(qemu, workDir, imageName, ram, cpu, headless, port, overlay)
  {
    DiskText(overlay, imageName);
    DisplayTexts();
    NetText(port);
    LaunchWords(qemu, workDir, imageName, ram, cpu, headless, port, overlay);
    SplitGroups(BaseGroup(qemu, ram, cpu, workDir), DiskGroup(overlay, imageName),
                DisplayGroup(headless), NetGroup(port),
                LaunchArgv(qemu, workDir, imageName, ram, cpu, headless, port, overlay),
                LaunchOpts(qemu, ram, cpu, workDir), disk, display, net);
  }

  /** Four texts, each its words written one space apart, split back
      into all the words in order. */
  lemma SplitGroups(b: seq<string>, d: seq<string>, s: seq<string>, n: seq<string>, all: seq<string>,
                    tb: string, td: string, ts: string, tn: string)
    requires tb == Spaced(b) && td == Spaced(d) && ts == Spaced(s) && tn == Spaced(n)
    requires all == b + d + s + n
    requires forall k :: 0 <= k < |all| ==> IsWord(all[k])
    ensures Words(tb + td + ts + tn) == all
  {
    SpacedAppend(b, d);
    SpacedAppend(b + d, s);
    SpacedAppend(b + d + s, n);
    WordsOfSpaced(b + d + s + n);
  }

  lemma LaunchWords(qemu: string, workDir: string, imageName: string, ram: string, cpu: string,
                    headless: bool, port: Option<int>, overlay: Option<string>)
    requires PlainLaunchParts(qemu, workDir, imageName, ram, cpu, overlay)
    ensures var argv := LaunchArgv(qemu, workDir, imageName, ram, cpu, headless, port, overlay);
            forall k :: 0 <= k < |argv| ==> IsWord(argv[k])
  {
    BaseWords(qemu, ram, cpu, workDir);
    DiskWords(overlay, imageName);
    DisplayWords();
    NetWords(port);
    var b := BaseGroup(qemu, ram, cpu, workDir);
    var d := DiskGroup(overlay, imageName);
    var s := DisplayGroup(headless);
    var n := NetGroup(port);
    var argv := b + d + s + n;
    forall k | 0 <= k < |argv|
      ensures IsWord(argv[k])
    {
      if k < |b| {
        assert argv[k] == b[k];
      } else if k < |b| + |d| {
        assert argv[k] == d[k - |b|];
      } else if k < |b| + |d| + |s| {
        assert argv[k] == s[k - |b| - |d|];
      } else {
        assert argv[k] == n[k - |b| - |d| - |s|];
      }
    }
  }

  /** No launch word holds a quote or a backslash. */
  lemma LaunchMetaFree(qemu: string, workDir: string, imageName: string, ram: string, cpu: string,
                       headless: bool, port: Option<int>, overlay: Option<string>)
    requires PlainLaunchParts(qemu, workDir, imageName, ram, cpu, overlay)
    ensures var argv := LaunchArgv(qemu, workDir, imageName, ram, cpu, headless, port, overlay);
            forall k :: 0 <= k < |argv| ==> NoShellMeta(argv[k])
  {
    BaseMetaFree(qemu, ram, cpu, workDir);
    DiskMetaFree(overlay, imageName);
    DisplayMetaFree(headless);
    NetMetaFree(port);
    var b := BaseGroup(qemu, ram, cpu, workDir);
    var d := DiskGroup(overlay, imageName);
    var s := DisplayGroup(headless);
    var n := NetGroup(port);
    var argv := b + d + s + n;
    forall k | 0 <= k < |argv|
      ensures NoShellMeta(argv[k])
    {
      if k < |b| {
        assert argv[k] == b[k];
      } else if k < |b| + |d| {
        assert argv[k] == d[k - |b|];
      } else if k < |b| + |d| + |s| {
        assert argv[k] == s[k - |b| - |d|];
      } else {
        assert argv[k] == n[k - |b| - |d| - |s|];
      }
    }
  }

  lemma BaseMetaFree(qemu: string, ram: string, cpu: string, workDir: string)
    requires NoShellMeta(qemu) && NoShellMeta(ram) && NoShellMeta(cpu) && NoShellMeta(workDir)
    ensures var g := BaseGroup(qemu, ram, cpu, workDir);
            forall k :: 0 <= k < |g| ==> NoShellMeta(g[k])
  {
    assert NoShellMeta("-m") && NoShellMeta("-smp") && NoShellMeta("-pidfile") && NoShellMeta("-rtc");
    assert NoShellMeta("base=localtime") && NoShellMeta("-cpu") && NoShellMeta("core2duo");
    assert NoShellMeta("-enable-kvm") && NoShellMeta("/qemu.pid");
    NoShellMetaAppend(workDir, "/qemu.pid");
  }

  lemma DiskMetaFree(overlay: Option<string>, imageName: string)
    requires if Truthy(overlay) then NoShellMeta(overlay.value) else NoShellMeta(imageName)
    ensures var g := DiskGroup(overlay, imageName);
            forall k :: 0 <= k < |g| ==> NoShellMeta(g[k])
  {
    assert NoShellMeta("-drive") && NoShellMeta("file=");
    if Truthy(overlay) {
      assert NoShellMeta(",cache=unsafe,if=virtio,index=0");
      NoShellMetaAppend("file=", overlay.value);
      NoShellMetaAppend("file=" + overlay.value, ",cache=unsafe,if=virtio,index=0");
    } else {
      assert NoShellMeta(",if=virtio");
      NoShellMetaAppend("file=", imageName);
      NoShellMetaAppend("file=" + imageName, ",if=virtio");
    }
  }

  lemma DisplayMetaFree(headless: bool)
    ensures var g := DisplayGroup(headless);
            forall k :: 0 <= k < |g| ==> NoShellMeta(g[k])
  {
    assert NoShellMeta("-display") && NoShellMeta("none") && NoShellMeta("sdl") && NoShellMeta("-vga");
    assert NoShellMeta("qxl") && NoShellMeta("-soundhw") && NoShellMeta("all");
  }

  lemma NetMetaFree(port: Option<int>)
    ensures var g := NetGroup(port);
            forall k :: 0 <= k < |g| ==> NoShellMeta(g[k])
  {
    assert NoShellMeta("-net") && NoShellMeta("nic,model=virtio") && NoShellMeta("user");
    if PortTruthy(port) {
      var p := IntToString(port.value);
      IntToStringNoShellMeta(port.value);
      assert NoShellMeta(",hostfwd=tcp::") && NoShellMeta("-:22");
      NoShellMetaAppend(",hostfwd=tcp::", p);
      NoShellMetaAppend(",hostfwd=tcp::" + p, "-:22");
      NoShellMetaAppend("user", PortForward(port.value));
    }
  }

  /** The launch text is the launch words written one space apart. */
  lemma LaunchTextSpaced(qemu: string, workDir: string, imageName: string, ram: string, cpu: string,
                         headless: bool, port: Option<int>, overlay: Option<string>)
    ensures LaunchText(qemu, workDir, imageName, ram, cpu, headless, port, overlay)
            == Spaced(LaunchArgv(qemu, workDir, imageName, ram, cpu, headless, port, overlay))
  {
    DiskText(overlay, imageName);
    DisplayTexts();
    NetText(port);
    var b := BaseGroup(qemu, ram, cpu, workDir);
    var d := DiskGroup(overlay, imageName);
    var s := DisplayGroup(headless);
    var n := NetGroup(port);
    SpacedAppend(b, d);
    SpacedAppend(b + d, s);
    SpacedAppend(b + d + s, n);
  }

  /** `shlex.split` of the launch text of plain parts is the launch
      vector. */
  lemma LaunchShlex(qemu: string, workDir: string, imageName: string, ram: string, cpu: string,
                    headless: bool, port: Option<int>, overlay: Option<string>)
    requires PlainLaunchParts(qemu, workDir, imageName, ram, cpu, overlay)
    ensures ShlexSplit(LaunchText(qemu, workDir, imageName, ram, cpu, headless, port, overlay))
            == Ok(LaunchArgv(qemu, workDir, imageName, ram, cpu, headless, port, overlay))
  {
    var argv := LaunchArgv(qemu, workDir, imageName, ram, cpu, headless, port, overlay);
    LaunchTextSpaced(qemu, workDir, imageName, ram, cpu, headless, port, overlay);
    LaunchWords(qemu, workDir, imageName, ram, cpu, headless, port, overlay);
    LaunchMetaFree(qemu, workDir, imageName, ram, cpu, headless, port, overlay);
    SpacedShellPlain(argv);
    WordsOfSpaced(argv);
    ShlexSplitPlain(Spaced(argv));
  }

  // ---------------------------------------------------------------------
  // Overlay preparation

  /** A filesystem or subprocess action taken while preparing. */
  datatype FsStep = Remove(path: string) | MakeDirs(path: string) | Call(argv: seq<string>)

  /** What preparing an overlay observes and how each action ends. */
  datatype OverlayWorld = OverlayWorld(
    isFile: bool,
    isDir: bool,
    remove: Outcome,
    makeDirs: Outcome,
    qemuImg: Outcome,
    chmod: Outcome)

  function QemuImgCommand(imageName: string, overlayImg: string): seq<string> {
    ["qemu-img", "create", "-f", "qcow2", "-b", PathJoin(Ssh.CacheDir, imageName),
     "-F", "qcow2", overlayImg]
  }

  function ChmodCommand(overlayImg: string): seq<string> {
    ["sudo", "chmod", "777", overlayImg]
  }

  /** The outcome and the actions of preparing an overlay: removing an
      existing file or else creating a missing directory, then the two
      commands; the first failure ends it. */
  function PrepareOutcome(imageName: string, overlayImg: string, w: OverlayWorld): (Outcome, seq<FsStep>) {
    var first := if w.isFile then [Remove(overlayImg)]
                 else if !w.isDir then [MakeDirs(DirName(overlayImg))] else [];
    var firstOutcome := if w.isFile then w.remove else if !w.isDir then w.makeDirs else Pass;
    if firstOutcome.Fail? then (firstOutcome, first)
    else if w.qemuImg.Fail? then (w.qemuImg, first + [Call(QemuImgCommand(imageName, overlayImg))])
    else (w.chmod, first + [Call(QemuImgCommand(imageName, overlayImg)), Call(ChmodCommand(overlayImg))])
  }

  /** `create_overlay_image(overlay_img)`: an existing file at the path is
      removed, or else a missing parent directory is created; then the
      qcow2 overlay backed by the cached image is created and opened to
      everyone.  The first failing action ends the preparation. */
  method CreateOverlayImage(imageName: string, overlayImg: string, w: OverlayWorld)
    returns (r: Outcome, steps: seq<FsStep>)
    ensures (r, steps) == PrepareOutcome(imageName, overlayImg, w)
  {
    var overlayDir := DirName(overlayImg);
    if w.isFile {
      steps := [Remove(overlayImg)];
      if w.remove.Fail? {
        return w.remove, steps;
      }
    } else if !w.isDir {
      steps := [MakeDirs(overlayDir)];
      if w.makeDirs.Fail? {
        return w.makeDirs, steps;
      }
    } else {
      steps := [];
    }
    if w.qemuImg.Fail? {
      return w.qemuImg, steps + [Call(QemuImgCommand(imageName, overlayImg))];
    }
    steps := steps + [Call(QemuImgCommand(imageName, overlayImg)), Call(ChmodCommand(overlayImg))];
    r := w.chmod;
  }

  /** The non-overlay `get_adt_run_args()`: fixed cpu, ram and reboot
      timeout, whatever the caller asked for, and the cached image. */
  function PlainRunArgs(imageName: string): (r: seq<string>)
    ensures |r| == 8 && r[7] == PathJoin(Ssh.CacheDir, imageName)
    ensures r[..7] == ["qemu", "-c", DefaultCpu, "--ram-size", DefaultRam, "--timeout-reboot", TimeoutReboot]
  {
    ["qemu", "-c", DefaultCpu, "--ram-size", DefaultRam, "--timeout-reboot", TimeoutReboot,
     PathJoin(Ssh.CacheDir, imageName)]
  }

  /** The cached image sits directly in the cache directory unless its
      name is itself absolute. */
  lemma PlainRunArgsImage(imageName: string)
    requires !StartsWith(imageName, "/")
    ensures PlainRunArgs(imageName)[7] == Ssh.CacheDir + "/" + imageName
  {
  }

  /** The image file the cloud builder writes. */
  function BuiltImageName(release: string, arch: string): string {
    "autopkgtest-" + release + "-" + arch + ".img"
  }

  /** The builder command of `create`, as one shell string. */
  function BuildCommand(adtBasePath: string, arch: string, release: string, verbose: bool,
                        buildArgs: seq<string>): string {
    PathJoin(adtBasePath, "autopkgtest-buildvm-ubuntu-cloud") + " -a " + arch + " -r " + release
      + " -o " + Ssh.CacheDir + " " + (if verbose then "-v" else "") + " " + Join(" ", buildArgs)
  }

  /** What closing the machine observes: how the SSH shutdown ended, the
      pid file's contents by path, how the signal and the directory
      removal ended. */
  datatype CloseWorld = CloseWorld(
    shutdown: Outcome,
    readFile: string -> Result<string>,
    kill: int -> Outcome,
    rmtree: Outcome)

  /** The shutdown errors after which the machine is killed instead. */
  predicate FallsBackToKill(shutdown: Outcome) {
    shutdown == Fail(PermissionError) || shutdown == Fail(SSHException)
  }

  /** The pid `stop_qemu` signals: the integer in `qemu.pid` inside the
      working directory, when there is one and it parses. */
  function PidTarget(workingDir: Option<string>, readFile: string -> Result<string>): (r: Option<int>)
    ensures r.Some? ==> workingDir.Some? && readFile(PathJoin(workingDir.value, "qemu.pid")).Ok?
    ensures r.Some? ==> r == ParseInt(readFile(PathJoin(workingDir.value, "qemu.pid")).value)
  {
    if workingDir.None? then None
    else
      var text := readFile(PathJoin(workingDir.value, "qemu.pid"));
      if text.Err? then None else ParseInt(text.value)
  }

  /** The outcome of `stop_qemu`: TypeError without a working directory,
      the read error, ValueError for a pid that does not parse, otherwise
      that of the signal. */
  function StopOutcome(workingDir: Option<string>, readFile: string -> Result<string>, kill: int -> Outcome)
    : (r: Outcome)
    ensures PidTarget(workingDir, readFile).Some? ==> r == kill(PidTarget(workingDir, readFile).value)
    ensures workingDir.None? ==> r == Fail(TypeError)
  {
    if workingDir.None? then Fail(TypeError)
    else
      var text := readFile(PathJoin(workingDir.value, "qemu.pid"));
      if text.Err? then Fail(text.error)
      else if ParseInt(text.value).None? then Fail(ValueError)
      else kill(ParseInt(text.value).value)
  }

  /** The outcome of `close` with a launch thread: a shutdown that fails
      on a refused password or an SSH error is replaced by `stop_qemu`;
      any failure so far propagates, then a missing working directory is
      a TypeError and the removal's failure propagates. */
  function CloseOutcome(w: CloseWorld, workingDir: Option<string>): (r: Outcome)
    ensures r.Pass? <==>
              && (w.shutdown.Pass? || (FallsBackToKill(w.shutdown) && StopOutcome(workingDir, w.readFile, w.kill).Pass?))
              && workingDir.Some? && w.rmtree.Pass?
    ensures w.shutdown.Fail? && !FallsBackToKill(w.shutdown) ==> r == w.shutdown
    ensures w.shutdown.Pass? && workingDir.Some? ==> r == w.rmtree
  {
    var first := if FallsBackToKill(w.shutdown) then StopOutcome(workingDir, w.readFile, w.kill) else w.shutdown;
    if first.Fail? then first
    else if workingDir.None? then Fail(TypeError)
    else w.rmtree
  }

  /** `QemuBackend`: the SSH backend it extends is `ssh`; `runnerActive`
      says whether a launch thread is recorded (`qemu_runner`);
      `verbose` is None until `set_verbose` is called. */
  class QemuBackend {
    const ssh: Ssh.SshBackend
    var workingDir: Option<string>
    var runnerActive: bool
    var verbose: Option<bool>

    predicate Valid()
      reads this, ssh
    {
      ssh.Valid()
    }

    /** The constructor proper, before `find_free_port`. */
    constructor Init(release: string, arch: string, imageName: string, buildArgs: seq<string>)
      ensures fresh(ssh) && fresh(ssh.executor) && fresh(ssh.executor.client)
      ensures ssh.release == release && ssh.arch == arch && ssh.imageName == imageName
      ensures ssh.buildArgs == buildArgs
      ensures ssh.username == "ubuntu" && ssh.password == "ubuntu" && ssh.deviceIp == "localhost"
      ensures ssh.port == -1 && !ssh.connected && ssh.keyFile.None?
      ensures workingDir.None? && !runnerActive && verbose.None?
      ensures Valid()
    {
      ssh := new Ssh.SshBackend(release, arch, imageName, buildArgs, None, None, None);
      workingDir := None;
      runnerActive := false;
      verbose := None;
    }

    /** `QemuBackend(release, arch, image_name, build_args)`: the SSH
        backend with default credentials, no machine yet, and the first
        free local port; RuntimeError when there is none. */
    static method New(release: string, arch: string, imageName: string, buildArgs: seq<string>,
                      probe: int -> Ssh.Probe)
      returns (r: Outcome, q: QemuBackend)
      ensures fresh(q) && fresh(q.ssh) && fresh(q.ssh.executor) && fresh(q.ssh.executor.client)
      ensures q.ssh.release == release && q.ssh.arch == arch && q.ssh.imageName == imageName
      ensures q.ssh.buildArgs == buildArgs
      ensures q.ssh.username == "ubuntu" && q.ssh.password == "ubuntu" && q.ssh.deviceIp == "localhost"
      ensures !q.ssh.connected && q.ssh.keyFile.None?
      ensures q.workingDir.None? && !q.runnerActive && q.verbose.None?
      ensures var free := Ssh.FirstFreePort(probe, Ssh.PortFrom, Ssh.PortTo);
              && (r.Pass? <==> free.Some?)
              && (r.Pass? ==> q.ssh.port == free.value)
              && (r.Fail? ==> r == Fail(RuntimeError))
      ensures q.Valid()
    {
      q := new QemuBackend.Init(release, arch, imageName, buildArgs);
      r := q.ssh.FindFreePort(probe);
    }

    /** `set_verbose(v)`, inherited from the backend base class. */
    method SetVerbose(v: bool)
      modifies this`verbose
      ensures verbose == Some(v)
    {
      verbose := Some(v);
    }

    /** `available()`: the same check as the SSH backend's, on the cache
        directory's listing, for this backend's image. */
    method Available(cacheListing: Result<seq<string>>) returns (r: Result<bool>)
      ensures cacheListing.Err? ==> r == Err(cacheListing.error)
      ensures cacheListing.Ok? ==> r.Ok? && (r.value <==> ssh.imageName in cacheListing.value)
    {
      r := ssh.Available(cacheListing);
    }

    /** `get_display_args(headless)`. */
    static function GetDisplayArgs(headless: bool): (r: string)
      ensures Words(r) == DisplayGroup(headless)
    {
      DisplayTexts();
      DisplayWords();
      WordsOfSpaced(DisplayGroup(headless));
      if headless then DisplayHeadless + DisplayVgaOpts
      else DisplayOpts + DisplayVgaOpts + SoundOpts
    }

    /** `get_disk_args(overlay)`: a truthy overlay is prepared and named
        with unsafe caching at index 0; otherwise the bare image name is
        used. */
    method GetDiskArgs(overlay: Option<string>, w: OverlayWorld) returns (r: Result<string>, steps: seq<FsStep>)
      ensures !Truthy(overlay) ==> r == Ok(DiskImageOpts(ssh.imageName)) && steps == []
      ensures Truthy(overlay) ==>
                var (prepared, prepSteps) := PrepareOutcome(ssh.imageName, overlay.value, w);
                && steps == prepSteps
                && (prepared.Fail? ==> r == Err(prepared.error))
                && (prepared.Pass? ==> r == Ok(DiskImageOverlayOpts(overlay.value)))
    {
      if Truthy(overlay) {
        var prepared;
        prepared, steps := CreateOverlayImage(ssh.imageName, overlay.value, w);
        if prepared.Fail? {
          return Err(prepared.error), steps;
        }
        return Ok(DiskImageOverlayOpts(overlay.value)), steps;
      }
      return Ok(DiskImageOpts(ssh.imageName)), [];
    }

    /** `get_qemu_launch_command(...)`: the option groups are appended to
        one string and the string is split into the argument vector.  The
        `disk_img` argument takes no part. */
    method GetQemuLaunchCommand(qemuPath: string, workDir: string, diskImg: string, ram: string,
                                cpu: string, headless: bool, port: Option<int>, overlay: Option<string>,
                                w: OverlayWorld)
      returns (r: Result<seq<string>>, steps: seq<FsStep>)
      ensures Truthy(overlay) ==>
                var (prepared, prepSteps) := PrepareOutcome(ssh.imageName, overlay.value, w);
                && steps == prepSteps
                && (prepared.Fail? ==> r == Err(prepared.error))
                && (prepared.Pass? ==>
                      r == ShlexSplit(LaunchText(qemuPath, workDir, ssh.imageName, ram, cpu, headless, port, overlay)))
      ensures !Truthy(overlay) ==>
                && steps == []
                && r == ShlexSplit(LaunchText(qemuPath, workDir, ssh.imageName, ram, cpu, headless, port, overlay))
      ensures PlainLaunchParts(qemuPath, workDir, ssh.imageName, ram, cpu, overlay) ==>
                (r.Err? <==> Truthy(overlay) && PrepareOutcome(ssh.imageName, overlay.value, w).0.Fail?)
      ensures r.Ok? && PlainLaunchParts(qemuPath, workDir, ssh.imageName, ram, cpu, overlay) ==>
                r.value == LaunchArgv(qemuPath, workDir, ssh.imageName, ram, cpu, headless, port, overlay)
    {
      var cmd := LaunchOpts(qemuPath, ram, cpu, workDir);
      var disk;
      disk, steps := GetDiskArgs(overlay, w);
      if disk.Err? {
        return Err(disk.error), steps;
      }
      ghost var base := cmd;
      cmd := cmd + disk.value;
      var display := GetDisplayArgs(headless);
      cmd := cmd + display;
      ghost var upToDisplay := cmd;
      cmd := cmd + NetOpts;
      var portText := if PortTruthy(port) then PortOpts(port.value) else " ";
      cmd := cmd + portText;
      assert cmd == base + disk.value + display + (NetOpts + portText);
      assert cmd == LaunchText(qemuPath, workDir, ssh.imageName, ram, cpu, headless, port, overlay);
      if PlainLaunchParts(qemuPath, workDir, ssh.imageName, ram, cpu, overlay) {
        LaunchShlex(qemuPath, workDir, ssh.imageName, ram, cpu, headless, port, overlay);
      }
      r := ShlexSplit(cmd);
    }

    /** `get_adt_run_args(keep_overlay)`: without `keep_overlay`, the fixed
        vector for autopkgtest's own qemu runner; with it, the machine is
        launched on an overlay in a new working directory (the launch
        itself runs on another thread), the SSH backend connects, and its
        arguments are returned. */
    method GetAdtRunArgs(keepOverlay: bool, tmpDir: string, world: Ssh.World)
      returns (r: Result<seq<string>>)
      requires Valid()
      requires Ssh.WorldDecides(world)
      modifies this, ssh, ssh.executor, ssh.executor.client
      ensures Valid()
      ensures !keepOverlay ==> r == Ok(PlainRunArgs(ssh.imageName)) && unchanged(this) && unchanged(ssh)
      ensures keepOverlay ==> workingDir == Some(tmpDir) && runnerActive && verbose == old(verbose)
      ensures keepOverlay && old(ssh.connected) ==> r.Ok?
      ensures keepOverlay && !old(ssh.connected) ==>
                var c := Ssh.ConnectionOutcome(world, Executors.TimeoutConnect);
                && (r.Ok? <==> c.Pass?)
                && (r.Err? ==> c == Fail(r.error))
      ensures keepOverlay && r.Ok? ==>
                (ssh.connected && ssh.keyFile.Some?
                 && r.value == Ssh.SshRunArgs(ssh.port, ssh.username, ssh.password, ssh.keyFile.value, ssh.deviceIp))
      ensures keepOverlay && !old(ssh.connected) && r.Ok? ==>
                ssh.keyFile == Some(Ssh.SelectedKey(world.home, world.idExists))
      ensures keepOverlay && old(ssh.connected) ==> ssh.keyFile == old(ssh.keyFile)
      ensures ssh.imageName == old(ssh.imageName) && ssh.port == old(ssh.port)
      ensures ssh.username == old(ssh.username) && ssh.password == old(ssh.password)
      ensures ssh.deviceIp == old(ssh.deviceIp)
    {
      if !keepOverlay {
        return Ok(PlainRunArgs(ssh.imageName));
      }
      workingDir := Some(tmpDir);
      runnerActive := true;
      var c := ssh.Connect(world, Executors.TimeoutConnect);
      if c.Fail? {
        return Err(c.error);
      }
      var args := ssh.GetAdtRunArgs();
      r := Ok(args);
    }

    /** `stop_qemu()`: SIGTERM to the pid read from `qemu.pid` in the
        working directory.  `target` is the pid the signal was sent to. */
    method StopQemu(readFile: string -> Result<string>, kill: int -> Outcome)
      returns (r: Outcome, target: Option<int>)
      ensures workingDir.None? ==> r == Fail(TypeError) && target.None?
      ensures workingDir.Some? ==>
                var text := readFile(PathJoin(workingDir.value, "qemu.pid"));
                && (text.Err? ==> r == Fail(text.error) && target.None?)
                && (text.Ok? && ParseInt(text.value).None? ==> r == Fail(ValueError) && target.None?)
                && (text.Ok? && ParseInt(text.value).Some? ==>
                      target == ParseInt(text.value) && r == kill(target.value))
      ensures r == StopOutcome(workingDir, readFile, kill) && target == PidTarget(workingDir, readFile)
    {
      if workingDir.None? {
        return Fail(TypeError), None;
      }
      var pidFile := PathJoin(workingDir.value, "qemu.pid");
      var text := readFile(pidFile);
      if text.Err? {
        return Fail(text.error), None;
      }
      var pid := ParseInt(text.value);
      if pid.None? {
        return Fail(ValueError), None;
      }
      target := pid;
      r := kill(pid.value);
    }

    /** `close()`: nothing without a launch thread.  Otherwise the machine
        is shut down over SSH, killed through its pid file when that fails
        on a refused password or an SSH error, and the thread is joined
        whatever happened; then the working directory is removed, both
        fields are reset and the SSH backend is closed.  Any other failure
        propagates after the join with the fields left as they were. */
    method Close(w: CloseWorld) returns (r: Outcome, killed: Option<int>, joined: bool, removed: bool)
      requires Valid()
      modifies this`workingDir, this`runnerActive, ssh`connected, ssh.executor.client
      ensures Valid()
      ensures !old(runnerActive) ==>
                r == Pass && killed.None? && !joined && !removed
                && workingDir == old(workingDir) && !runnerActive
                && ssh.connected == old(ssh.connected) && unchanged(ssh.executor.client)
      ensures old(runnerActive) ==> joined
      ensures old(runnerActive) && w.shutdown.Fail? && !FallsBackToKill(w.shutdown) ==>
                r == w.shutdown && killed.None? && !removed && runnerActive && workingDir == old(workingDir)
      ensures killed.Some? ==> old(runnerActive) && FallsBackToKill(w.shutdown)
      ensures old(runnerActive) ==> r == CloseOutcome(w, old(workingDir))
      ensures old(runnerActive) && FallsBackToKill(w.shutdown) ==> killed == PidTarget(old(workingDir), w.readFile)
      ensures r.Pass? && old(runnerActive) ==>
                removed && workingDir.None? && !runnerActive && !ssh.connected
      ensures r.Fail? ==> workingDir == old(workingDir) && runnerActive == old(runnerActive)
    {
      killed, joined, removed := None, false, false;
      if !runnerActive {
        return Pass, killed, joined, removed;
      }
      if FallsBackToKill(w.shutdown) {
        var stopped;
        stopped, killed := StopQemu(w.readFile, w.kill);
        joined := true;
        if stopped.Fail? {
          return stopped, killed, joined, removed;
        }
      } else if w.shutdown.Fail? {
        joined := true;
        return w.shutdown, killed, joined, removed;
      }
      joined := true;
      if workingDir.None? {
        return Fail(TypeError), killed, joined, removed;
      }
      if w.rmtree.Fail? {
        return w.rmtree, killed, joined, removed;
      }
      removed := true;
      workingDir := None;
      runnerActive := false;
      ssh.Close();
      r := Pass;
    }

    /** `create(adt_base_path)` as written: the command line reads
        `self.verbose` (AttributeError unless `set_verbose` was called)
        and then passes `shell=True` to a helper that takes no such
        argument, so it always raises and the image is never renamed. */
    method CreateAsWritten(adtBasePath: string) returns (r: Outcome, renamed: bool)
      ensures r.Fail? && !renamed
      ensures verbose.None? ==> r == Fail(AttributeError)
      ensures verbose.Some? ==> r == Fail(TypeError)
    {
      renamed := false;
      if verbose.None? {
        return Fail(AttributeError), renamed;
      }
      var cmd := BuildCommand(adtBasePath, ssh.arch, ssh.release, verbose.value, ssh.buildArgs);
      r := Fail(TypeError);
    }

    /** `create(adt_base_path)` as intended: the builder command is run
        through the shell (its exit code, like the helper's return value,
        is not looked at; `build` says whether it could be started) and
        the built image is renamed to the backend's image name inside the
        cache directory. */
    method Create(adtBasePath: string, build: Outcome, rename: Outcome)
      returns (r: Outcome, command: Option<string>, renamedFrom: Option<string>, renamedTo: Option<string>)
      ensures verbose.None? ==> r == Fail(AttributeError) && command.None? && renamedFrom.None?
      ensures verbose.Some? ==>
                command == Some(BuildCommand(adtBasePath, ssh.arch, ssh.release, verbose.value, ssh.buildArgs))
      ensures verbose.Some? && build.Fail? ==> r == build && renamedFrom.None?
      ensures verbose.Some? && build.Pass? ==>
                r == rename
                && renamedFrom == Some(Ssh.CacheDir + "/" + BuiltImageName(ssh.release, ssh.arch))
                && renamedTo == Some(PathJoin(Ssh.CacheDir, ssh.imageName))
    {
      command, renamedFrom, renamedTo := None, None, None;
      if verbose.None? {
        return Fail(AttributeError), command, renamedFrom, renamedTo;
      }
      command := Some(BuildCommand(adtBasePath, ssh.arch, ssh.release, verbose.value, ssh.buildArgs));
      if build.Fail? {
        return build, command, renamedFrom, renamedTo;
      }
      assert BuiltImageName(ssh.release, ssh.arch)[..1] == "a";
      renamedFrom := Some(PathJoin(Ssh.CacheDir, BuiltImageName(ssh.release, ssh.arch)));
      renamedTo := Some(PathJoin(Ssh.CacheDir, ssh.imageName));
      r := rename;
    }
  }

  /** The overlay is always created after the old file is gone or its
      directory exists, and opened to everyone only once created. */
  lemma PrepareOrder(imageName: string, overlayImg: string, w: OverlayWorld)
    ensures var (r, steps) := PrepareOutcome(imageName, overlayImg, w);
            && (r.Pass? ==> |steps| >= 2
                            && steps[|steps| - 2] == Call(QemuImgCommand(imageName, overlayImg))
                            && steps[|steps| - 1] == Call(ChmodCommand(overlayImg)))
            && (w.isFile ==> steps[0] == Remove(overlayImg))
            && (!w.isFile && w.isDir ==> steps[0] == Call(QemuImgCommand(imageName, overlayImg)))
  {
  }
}
