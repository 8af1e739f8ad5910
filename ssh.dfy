/** The SSH provisioning backend (`backends/_ssh.py`): a connection
    manager over an `SSHExecutor` that finds a free local port, waits for
    the device, selects or generates a key, installs it on the device with
    password-prompted `ssh`/`scp` runs, and hands autopkgtest its `ssh`
    arguments.

    Sockets, pexpect sessions and subprocesses are replaced by oracles:
    the probe outcome of each local port, the timed connection attempts
    of the wait loop, which key files exist, the pattern each `expect`
    matched, and the outcome of each attempt of a retried step. */
module Ssh {
  import opened Errors
  import opened Strings
  import opened Paths
  import Executors

  const CacheDir: string := "/var/cache/auto-upgrade-testing"

  /** The local ports scanned for a free one: 22220 up to, not including,
      23000. */
  const PortFrom: int := 22220
  const PortTo: int := 23000

  /** Attempts of the verify loop and of the retried key copy. */
  const VerifyTries: nat := 20
  const CopyTries: nat := 20

  /** What `socket.create_connection(('127.0.0.1', port))` did: refused
      (the port is free), connected (the port is taken), or another
      socket error. */
  datatype Probe = Refused | Taken | OtherSocketError

  /** `find_free_port`'s search: the first port of `[lo, hi)`, ascending,
      whose probe is refused. */
  function FirstFreePort(probe: int -> Probe, lo: int, hi: int): (r: Option<int>)
    ensures r.Some? ==> lo <= r.value < hi && probe(r.value) == Refused
                        && forall q :: lo <= q < r.value ==> probe(q) != Refused
    ensures r.None? <==> forall q :: lo <= q < hi ==> probe(q) != Refused
    decreases hi - lo
  {
    if lo >= hi then None
    else if probe(lo) == Refused then Some(lo)
    else FirstFreePort(probe, lo + 1, hi)
  }

  // ---------------------------------------------------------------------
  // Waiting for the device

  /** A connection attempt of `_wait_for_device` to the device's port. */
  datatype DeviceConnect = Connected | ConnectRefused | ConnectRaised(error: Exc)

  /** One pass of the wait loop: the clock checked against the deadline
      and, when still before it, the connection attempt made. */
  datatype WaitPass = WaitPass(clock: int, attempt: DeviceConnect)

  /** The wait loop ends at a pass past the deadline or whose attempt is
      not refused. */
  predicate Decisive(p: WaitPass, deadline: int) {
    p.clock >= deadline || !p.attempt.ConnectRefused?
  }

  predicate WaitDecides(passes: seq<WaitPass>, deadline: int) {
    exists j :: 0 <= j < |passes| && Decisive(passes[j], deadline)
  }

  lemma WaitDecidesTail(passes: seq<WaitPass>, deadline: int)
    requires WaitDecides(passes, deadline) && !Decisive(passes[0], deadline)
    ensures WaitDecides(passes[1..], deadline)
  {
    var j :| 0 <= j < |passes| && Decisive(passes[j], deadline);
    assert passes[1..][j - 1] == passes[j];
  }

  function FirstDecisive(passes: seq<WaitPass>, deadline: int): (j: nat)
    requires WaitDecides(passes, deadline)
    ensures j < |passes| && Decisive(passes[j], deadline)
    ensures forall k :: 0 <= k < j ==> !Decisive(passes[k], deadline)
    decreases |passes|
  {
    if Decisive(passes[0], deadline) then 0
    else
      WaitDecidesTail(passes, deadline);
      var j := FirstDecisive(passes[1..], deadline);
      assert forall k :: 1 <= k < j + 1 ==> passes[k] == passes[1..][k - 1];
      1 + j
  }

  /** How the wait ends: TimeoutError past the deadline, success on the
      first connection, and any error other than a refusal propagated. */
  function WaitOutcome(passes: seq<WaitPass>, deadline: int): (r: Outcome)
    requires WaitDecides(passes, deadline)
    ensures var p := passes[FirstDecisive(passes, deadline)];
            && (p.clock >= deadline ==> r == Fail(TimeoutError))
            && (p.clock < deadline && p.attempt.Connected? ==> r == Pass)
            && (p.clock < deadline && p.attempt.ConnectRaised? ==> r == Fail(p.attempt.error))
    ensures r.Pass? ==> exists k :: 0 <= k < |passes| && passes[k].clock < deadline && passes[k].attempt.Connected?
  {
    var p := passes[FirstDecisive(passes, deadline)];
    if p.clock >= deadline then Fail(TimeoutError)
    else if p.attempt.Connected? then Pass
    else Fail(p.attempt.error)
  }

  // ---------------------------------------------------------------------
  // Logging in with the key

  /** What `child.expect([...])` did: matched the pattern at an index,
      timed out, or hit end of file. */
  datatype Expect = Matched(index: nat) | ExpectTimeout | ExpectEof

  /** `_try_public_key_login`'s verdict: the first pattern (`$`, the shell
      prompt) matched; a timeout or end of file counts as failure. */
  predicate LoginSucceeded(e: Expect) {
    e == Matched(0)
  }

  /** The command line of the public-key login; `' '.join` raises
      TypeError when there is no key file yet. */
  function PublicKeyLoginCommand(port: int, keyFile: Option<string>, username: string, deviceIp: string)
    : (r: Result<string>)
    ensures r.Err? <==> keyFile.None?
    ensures r.Err? ==> r.error == TypeError
    ensures r.Ok? ==> r.value == Join(" ", ["ssh", "-p", IntToString(port),
                                            "-o", "UserKnownHostsFile=/dev/null",
                                            "-o", "StrictHostKeyChecking=no",
                                            "-i", keyFile.value, "-l", username, deviceIp])
  {
    if keyFile.None? then Err(TypeError)
    else Ok(Join(" ", ["ssh", "-p", IntToString(port), "-o", "UserKnownHostsFile=/dev/null",
                       "-o", "StrictHostKeyChecking=no", "-i", keyFile.value, "-l", username, deviceIp]))
  }

  /** The first login, among the first `n`, that succeeds; `n` when none
      does. */
  function FirstLogin(login: nat -> Expect, n: nat): (i: nat)
    ensures i <= n
    ensures i < n ==> LoginSucceeded(login(i))
    ensures forall k :: 0 <= k < i ==> !LoginSucceeded(login(k))
    decreases n
  {
    if n == 0 then 0
    else
      var i := FirstLogin(login, n - 1);
      if i < n - 1 then i
      else if LoginSucceeded(login(n - 1)) then n - 1
      else n
  }

  // ---------------------------------------------------------------------
  // Password-prompted commands

  /** What the first `expect('password')` did. */
  datatype Prompt = PromptShown | PromptEof | PromptTimeout

  /** What `expect([EOF, 'denied'])` after the password did. */
  datatype Reply = ReplyEof | ReplyDenied | ReplyTimeout

  /** Python truthiness of `child.exitstatus` (None when the child was
      killed by a signal). */
  predicate FailedExit(exitStatus: Option<int>) {
    exitStatus.Some? && exitStatus.value != 0
  }

  /** `_run_with_password`'s outcome: no prompt before end of file sends
      nothing; after the password, `denied` is a PermissionError; a
      pexpect timeout propagates; and a nonzero exit status is a
      RuntimeError. */
  function RunWithPassword(prompt: Prompt, reply: Reply, exitStatus: Option<int>): (r: Outcome)
    ensures prompt == PromptTimeout ==> r == Fail(PexpectTimeout)
    ensures prompt == PromptShown && reply == ReplyDenied ==> r == Fail(PermissionError)
    ensures prompt == PromptShown && reply == ReplyTimeout ==> r == Fail(PexpectTimeout)
    ensures (prompt == PromptEof || (prompt == PromptShown && reply == ReplyEof)) ==>
              (r == Fail(RuntimeError) <==> FailedExit(exitStatus)) && (r.Pass? <==> !FailedExit(exitStatus))
  {
    if prompt == PromptTimeout then Fail(PexpectTimeout)
    else if prompt == PromptShown && reply == ReplyDenied then Fail(PermissionError)
    else if prompt == PromptShown && reply == ReplyTimeout then Fail(PexpectTimeout)
    else if FailedExit(exitStatus) then Fail(RuntimeError)
    else Pass
  }

  /** Whether `_run_with_password` sends the password: only once the
      prompt is shown. */
  predicate PasswordSent(prompt: Prompt) {
    prompt == PromptShown
  }

  /** A password-prompted command that ends in PermissionError is never
      worth retrying: the key copy retries RuntimeError only. */
  lemma DeniedIsNotRetried(prompt: Prompt, reply: Reply, exitStatus: Option<int>)
    requires RunWithPassword(prompt, reply, exitStatus) == Fail(PermissionError)
    ensures PasswordSent(prompt) && reply == ReplyDenied
    ensures !RetriedError(RunWithPassword(prompt, reply, exitStatus))
  {
  }

  /** The `ssh` command of `_run`. */
  function RunCommand(port: int, username: string, deviceIp: string, commands: seq<string>): (r: seq<string>)
    ensures |r| == 6 + |commands| && r[6..] == commands
    ensures r[..6] == ["ssh", "-o", "StrictHostKeyChecking=no", "-p", IntToString(port), username + "@" + deviceIp]
  {
    ["ssh", "-o", "StrictHostKeyChecking=no", "-p", IntToString(port), username + "@" + deviceIp] + commands
  }

  /** The `scp` command of `_put`. */
  function PutCommand(port: int, username: string, deviceIp: string, src: string, dst: string): (r: seq<string>)
    ensures |r| == 7
    ensures r == ["scp", "-o", "StrictHostKeyChecking=no", "-P", IntToString(port), src,
                  username + "@" + deviceIp + ":" + dst]
  {
    ["scp", "-o", "StrictHostKeyChecking=no", "-P", IntToString(port), src, username + "@" + deviceIp + ":" + dst]
  }

  /** The home `.ssh` directory of `username` on the device. */
  function HomeSsh(username: string): (r: string)
    ensures r != "" && r[|r| - 1] != '/'
  {
    "/home/" + username + "/.ssh"
  }

  /** The five password-prompted commands of one key-copy attempt, in
      order: create the directory, copy the public key to
      `authorized_keys`, hand the directory to the user, and restrict
      both modes. */
  function CopyIdCommands(port: int, username: string, deviceIp: string, keyFile: Option<string>)
    : (r: seq<seq<string>>)
    ensures |r| == 5
    ensures var home := HomeSsh(username);
            var keys := home + "/authorized_keys";
            && r[0] == RunCommand(port, username, deviceIp, ["mkdir", "-p", home])
            && r[1] == PutCommand(port, username, deviceIp, FormatOption(keyFile) + ".pub", keys)
            && r[2] == RunCommand(port, username, deviceIp, ["chown", username + ":" + username, "-R", home])
            && r[3] == RunCommand(port, username, deviceIp, ["chmod", "700", home])
            && r[4] == RunCommand(port, username, deviceIp, ["chmod", "600", keys])
  {
    var home := HomeSsh(username);
    var keys := PathJoin(home, "authorized_keys");
    assert keys == home + "/authorized_keys" by {
      assert "authorized_keys"[..1] == "a";
    }
    [RunCommand(port, username, deviceIp, ["mkdir", "-p", home]),
     PutCommand(port, username, deviceIp, FormatOption(keyFile) + ".pub", keys),
     RunCommand(port, username, deviceIp, ["chown", username + ":" + username, "-R", home]),
     RunCommand(port, username, deviceIp, ["chmod", "700", home]),
     RunCommand(port, username, deviceIp, ["chmod", "600", keys])]
  }

  /** The outcome of one key-copy attempt, from the outcomes of its
      commands: the first failure ends it. */
  function AttemptOutcome(steps: seq<Outcome>): (r: Outcome)
    ensures r.Pass? <==> forall k :: 0 <= k < |steps| ==> steps[k].Pass?
    ensures r.Fail? ==> exists k :: 0 <= k < |steps| && steps[k] == r
    decreases |steps|
  {
    if steps == [] then Pass
    else if steps[0].Fail? then steps[0]
    else
      var r := AttemptOutcome(steps[1..]);
      assert forall k :: 1 <= k < |steps| ==> steps[k] == steps[1..][k - 1];
      r
  }

  /** The number of commands in one key-copy attempt. */
  const CopyIdSteps: nat := 5

  /** The outcomes of the first `n` commands of an attempt, `step(j)`
      being the outcome of its j-th command. */
  function StepsOf(step: nat -> Outcome, n: nat): (r: seq<Outcome>)
    ensures |r| == n
    ensures forall j :: 0 <= j < n ==> r[j] == step(j)
  {
    seq(n, (j: int) requires 0 <= j => step(j))
  }

  /** The outcome of each key-copy attempt, `copySteps(k)(j)` being that
      of the j-th command of the k-th attempt. */
  function AttemptOf(copySteps: nat -> nat -> Outcome, k: nat): Outcome {
    AttemptOutcome(StepsOf(copySteps(k), CopyIdSteps))
  }

  /** When every step before `j` passes and step `j` fails, the attempt
      fails with step `j`'s error. */
  lemma {:induction false} FirstFailureDecides(steps: seq<Outcome>, j: nat)
    requires j < |steps| && steps[j].Fail?
    requires forall q :: 0 <= q < j ==> steps[q].Pass?
    ensures AttemptOutcome(steps) == steps[j]
    decreases j
  {
    if j > 0 {
      assert steps[0].Pass?;
      assert forall q :: 0 <= q < j - 1 ==> steps[1..][q] == steps[q + 1];
      FirstFailureDecides(steps[1..], j - 1);
    }
  }

  /** Runs `cmds` in order, `step(j)` being the outcome of the j-th; the
      first failure ends the run.  `ran` lists the commands started. */
  method RunInOrder(cmds: seq<seq<string>>, step: nat -> Outcome) returns (r: Outcome, ran: seq<seq<string>>)
    requires cmds != []
    ensures r == AttemptOutcome(StepsOf(step, |cmds|))
    ensures 1 <= |ran| <= |cmds| && ran == cmds[..|ran|]
    ensures r.Pass? ==> ran == cmds
    ensures r.Fail? ==> r == step(|ran| - 1)
    ensures forall j :: 0 <= j < |ran| - 1 ==> step(j).Pass?
  {
    ran := [];
    var j := 0;
    while j < |cmds|
      invariant 0 <= j <= |cmds| && ran == cmds[..j]
      invariant forall q :: 0 <= q < j ==> step(q).Pass?
    {
      ran := ran + [cmds[j]];
      if step(j).Fail? {
        FirstFailureDecides(StepsOf(step, |cmds|), j);
        return step(j), ran;
      }
      j := j + 1;
    }
    r := Pass;
  }

  /** The errors the key-copy retry policy retries on. */
  predicate RetriedError(r: Outcome) {
    r == Fail(RuntimeError)
  }

  /** The first attempt, among the first `n`, whose outcome is not
      retried; `n` when every one is. */
  function FirstSettledCopy(copySteps: nat -> nat -> Outcome, n: nat): (i: nat)
    ensures i <= n
    ensures i < n ==> !RetriedError(AttemptOf(copySteps, i))
    ensures forall k :: 0 <= k < i ==> RetriedError(AttemptOf(copySteps, k))
    decreases n
  {
    if n == 0 then 0
    else
      var i := FirstSettledCopy(copySteps, n - 1);
      if i < n - 1 then i
      else if !RetriedError(AttemptOf(copySteps, n - 1)) then n - 1
      else n
  }

  /** `_get_ssh_id_path`'s candidates, `~` being `home`. */
  function IdCandidates(home: string): (r: seq<string>)
    ensures |r| == 2
  {
    [home + "/.ssh/id_rsa", home + "/.ssh/id_autopkgtest"]
  }

  /** The `ssh-keygen` call that generates a key at `path`. */
  function KeygenCommand(path: string): seq<string> {
    ["ssh-keygen", "-q", "-t", "rsa", "-f", path, "-N", ""]
  }

  /** `_update_device_host_key`'s command, `~` being `home`. */
  function HostKeyCommand(home: string, deviceIp: string, port: int): seq<string> {
    ["ssh-keygen", "-f", home + "/.ssh/known_hosts", "-R", "[" + deviceIp + "]:" + IntToString(port)]
  }

  /** `get_adt_run_args()` once a key file is set. */
  function SshRunArgs(port: int, username: string, password: string, keyFile: string, deviceIp: string)
    : (r: seq<string>)
    ensures |r| == 12
    ensures r[0] == "ssh" && r[11] == "--reboot"
    ensures r[1] == "--port" && r[2] == IntToString(port)
    ensures r[3..9] == ["--login", username, "--password", password, "--identity", keyFile]
    ensures r[9] == "--hostname" && r[10] == deviceIp
  {
    var r := ["ssh", "--port", IntToString(port), "--login", username, "--password", password,
              "--identity", keyFile, "--hostname", deviceIp, "--reboot"];
    assert r[3..9] == ["--login", username, "--password", password, "--identity", keyFile];
    r
  }

  /** The port autopkgtest is given reads back as the backend's port. */
  lemma SshRunArgsPort(port: int, username: string, password: string, keyFile: string, deviceIp: string)
    ensures ParseInt(SshRunArgs(port, username, password, keyFile, deviceIp)[2]) == Some(port)
  {
    IntRoundTrip(port);
  }

  /** The outcome of `_get_ssh_id_path`: an existing candidate, or the
      `ssh-keygen` run when there is none. */
  function KeyOutcome(home: string, idExists: string -> bool, keygen: Outcome): (r: Outcome)
    ensures idExists(IdCandidates(home)[0]) || idExists(IdCandidates(home)[1]) ==> r == Pass
    ensures !idExists(IdCandidates(home)[0]) && !idExists(IdCandidates(home)[1]) ==> r == keygen
  {
    var ids := IdCandidates(home);
    if idExists(ids[0]) || idExists(ids[1]) then Pass else keygen
  }

  /** The key file `_get_ssh_id_path` settles on: the first candidate
      that exists, otherwise the second, which `ssh-keygen` creates. */
  function SelectedKey(home: string, idExists: string -> bool): (r: string)
    ensures r in IdCandidates(home)
    ensures r == IdCandidates(home)[0] <==> idExists(IdCandidates(home)[0])
    ensures r != IdCandidates(home)[0] ==> r == IdCandidates(home)[1]
  {
    var ids := IdCandidates(home);
    if idExists(ids[0]) then ids[0] else ids[1]
  }

  /** The outcome of the retried key copy: the first attempt that does not
      fail with RuntimeError decides, RuntimeError after 20 that do. */
  function CopyOutcome(copySteps: nat -> nat -> Outcome): (r: Outcome)
    ensures r.Pass? ==> exists k :: 0 <= k < CopyTries && AttemptOf(copySteps, k).Pass?
    ensures (forall k :: 0 <= k < CopyTries ==> RetriedError(AttemptOf(copySteps, k))) ==> r == Fail(RuntimeError)
  {
    var i := FirstSettledCopy(copySteps, CopyTries);
    if i < CopyTries then AttemptOf(copySteps, i) else Fail(RuntimeError)
  }

  /** The outcome of `_verify_ssh_connect` once a key file is set. */
  function VerifyOutcome(login: nat -> Expect): (r: Outcome)
    ensures r.Pass? <==> exists k :: 0 <= k < VerifyTries && LoginSucceeded(login(k))
    ensures r.Fail? ==> r == Fail(RuntimeError)
  {
    var i := FirstLogin(login, VerifyTries);
    if i < VerifyTries then
      Pass
    else
      NoLoginFound(login, VerifyTries);
      Fail(RuntimeError)
  }

  /** The oracles of one `connect`: everything `enable_ssh` and the
      executor's connect observe. */
  datatype World = World(
    waitStart: int,
    waitPasses: seq<WaitPass>,
    home: string,
    idExists: string -> bool,
    keygen: Outcome,
    firstLogin: Expect,
    copySteps: nat -> nat -> Outcome,
    verifyLogin: nat -> Expect,
    executorConnect: nat -> Outcome)

  predicate WorldDecides(w: World) {
    WaitDecides(w.waitPasses, w.waitStart + Executors.TimeoutConnect)
  }

  /** The outcome of `enable_ssh`: the steps in order, the first failure
      ending it; a key that already logs in ends it with success. */
  function EnableSshOutcome(w: World): (r: Outcome)
    requires WorldDecides(w)
    ensures WaitOutcome(w.waitPasses, w.waitStart + Executors.TimeoutConnect).Fail? ==>
              r == WaitOutcome(w.waitPasses, w.waitStart + Executors.TimeoutConnect)
    ensures r.Fail? && LoginSucceeded(w.firstLogin) ==>
              WaitOutcome(w.waitPasses, w.waitStart + Executors.TimeoutConnect).Fail?
              || KeyOutcome(w.home, w.idExists, w.keygen).Fail?
  {
    var wait := WaitOutcome(w.waitPasses, w.waitStart + Executors.TimeoutConnect);
    var key := KeyOutcome(w.home, w.idExists, w.keygen);
    if wait.Fail? then wait
    else if key.Fail? then key
    else if LoginSucceeded(w.firstLogin) then Pass
    else RepairOutcome(w)
  }

  /** The outcome of the repair after a failed first login: the copy's
      failure, or else the verification's outcome. */
  function RepairOutcome(w: World): (r: Outcome)
    ensures r.Pass? <==> CopyOutcome(w.copySteps).Pass? && VerifyOutcome(w.verifyLogin).Pass?
    ensures CopyOutcome(w.copySteps).Fail? ==> r == CopyOutcome(w.copySteps)
  {
    if CopyOutcome(w.copySteps).Fail? then CopyOutcome(w.copySteps)
    else VerifyOutcome(w.verifyLogin)
  }

  /** The repair's success in detail: an attempt within the 20 copy
      tries was the first that did not fail with RuntimeError, and it
      passed; and a login within the verification tries succeeded. */
  predicate CopiedAndVerified(w: World) {
    && FirstSettledCopy(w.copySteps, CopyTries) < CopyTries
    && AttemptOf(w.copySteps, FirstSettledCopy(w.copySteps, CopyTries)) == Pass
    && FirstLogin(w.verifyLogin, VerifyTries) < VerifyTries
  }

  /** `enable_ssh` succeeds exactly when the wait and the key selection
      succeed and either the first login does or both the copy and the
      verification do. */
  lemma EnableSshSucceeds(w: World)
    requires WorldDecides(w)
    ensures EnableSshOutcome(w).Pass? <==>
              && WaitOutcome(w.waitPasses, w.waitStart + Executors.TimeoutConnect).Pass?
              && KeyOutcome(w.home, w.idExists, w.keygen).Pass?
              && (LoginSucceeded(w.firstLogin)
                  || (CopyOutcome(w.copySteps).Pass? && VerifyOutcome(w.verifyLogin).Pass?))
  {
    if && WaitOutcome(w.waitPasses, w.waitStart + Executors.TimeoutConnect).Pass?
       && KeyOutcome(w.home, w.idExists, w.keygen).Pass?
       && !LoginSucceeded(w.firstLogin)
    {
      assert EnableSshOutcome(w) == RepairOutcome(w);
    }
  }

  /** The outcome of `connect` on a backend not yet connected: that of
      `enable_ssh`, then that of the executor's connect. */
  function ConnectionOutcome(w: World, timeout: int): (r: Outcome)
    requires WorldDecides(w)
    ensures r.Pass? <==> EnableSshOutcome(w).Pass? && Executors.ConnectOutcome(w.executorConnect, timeout).Pass?
    ensures EnableSshOutcome(w).Fail? ==> r == EnableSshOutcome(w)
  {
    if EnableSshOutcome(w).Fail? then EnableSshOutcome(w)
    else Executors.ConnectOutcome(w.executorConnect, timeout)
  }

  /** `SshBackend`.  The executor is created with the backend and never
      replaced. */
  class SshBackend {
    var release: string
    var arch: string
    var imageName: string
    var buildArgs: seq<string>
    const executor: Executors.SshExecutor
    var username: string
    var password: string
    var connected: bool
    var keyFile: Option<string>
    var deviceIp: string
    var port: int

    /** A connected backend has a key file. */
    predicate Valid()
      reads this
    {
      connected ==> keyFile.Some?
    }

    /** The constructor: falsy credentials and address take the defaults
        `ubuntu`, `ubuntu` and `localhost`; the port starts at -1, the
        backend is not connected and has no key file. */
    constructor (release: string, arch: string, imageName: string, buildArgs: seq<string>,
                 username: Option<string>, password: Option<string>, deviceIp: Option<string>)
      ensures this.release == release && this.arch == arch && this.imageName == imageName
      ensures this.buildArgs == buildArgs
      ensures this.username == (if Truthy(username) then username.value else "ubuntu")
      ensures this.password == (if Truthy(password) then password.value else "ubuntu")
      ensures this.deviceIp == (if Truthy(deviceIp) then deviceIp.value else "localhost")
      ensures port == -1 && !connected && keyFile.None?
      ensures fresh(executor) && fresh(executor.client)
      ensures !executor.client.connected && executor.client.commands == [] && !executor.passwordSet
      ensures Valid()
    {
      this.release := release;
      this.arch := arch;
      this.imageName := imageName;
      this.buildArgs := buildArgs;
      executor := new Executors.SshExecutor();
      this.username := if Truthy(username) then username.value else "ubuntu";
      this.password := if Truthy(password) then password.value else "ubuntu";
      connected := false;
      keyFile := None;
      this.deviceIp := if Truthy(deviceIp) then deviceIp.value else "localhost";
      port := -1;
    }

    /** `available()`: whether the image is in the listing of the cache
        directory; an error from listing it propagates. */
    method Available(cacheListing: Result<seq<string>>) returns (r: Result<bool>)
      ensures cacheListing.Err? ==> r == Err(cacheListing.error)
      ensures cacheListing.Ok? ==> r.Ok? && (r.value <==> imageName in cacheListing.value)
    {
      if cacheListing.Err? {
        return Err(cacheListing.error);
      }
      r := Ok(imageName in cacheListing.value);
    }

    /** `get_adt_run_args()`; the key file is set by `connect`. */
    method GetAdtRunArgs() returns (r: seq<string>)
      requires keyFile.Some?
      ensures r == SshRunArgs(port, username, password, keyFile.value, deviceIp)
    {
      r := SshRunArgs(port, username, password, keyFile.value, deviceIp);
    }

    /** `find_free_port()`: ascending from 22220, the first refused port
        becomes the backend's port; taken ports and other socket errors
        are skipped; RuntimeError, port unchanged, when none is free. */
    method FindFreePort(probe: int -> Probe) returns (r: Outcome)
      modifies this`port
      ensures var free := FirstFreePort(probe, PortFrom, PortTo);
              && (r.Pass? <==> free.Some?)
              && (r.Pass? ==> port == free.value)
              && (r.Fail? ==> r == Fail(RuntimeError) && port == old(port))
    {
      var p := PortFrom;
      while p < PortTo
        invariant PortFrom <= p <= PortTo
        invariant FirstFreePort(probe, p, PortTo) == FirstFreePort(probe, PortFrom, PortTo)
        invariant port == old(port)
      {
        if probe(p) == Refused {
          port := p;
          return Pass;
        }
        p := p + 1;
      }
      return Fail(RuntimeError);
    }

    /** `_wait_for_device()` started at clock `start`: connection attempts
        while the clock is before the deadline; only a refusal is retried
        (after a one-second sleep); TimeoutError once the deadline has
        passed. */
    method WaitForDevice(start: int, passes: seq<WaitPass>) returns (r: Outcome)
      requires WaitDecides(passes, start + Executors.TimeoutConnect)
      ensures r == WaitOutcome(passes, start + Executors.TimeoutConnect)
    {
      var deadline := start + Executors.TimeoutConnect;
      ghost var j := FirstDecisive(passes, deadline);
      var i := 0;
      while passes[i].clock < deadline
        invariant 0 <= i <= j
        decreases j - i
      {
        var attempt := passes[i].attempt;
        if attempt.Connected? {
          return Pass;
        } else if attempt.ConnectRaised? {
          return Fail(attempt.error);
        }
        i := i + 1;
      }
      return Fail(TimeoutError);
    }

    /** `_get_ssh_id_path()`: the first existing candidate key; when
        neither exists, a key is generated at the last one (a failing
        `ssh-keygen` raises and leaves the key file unset). */
    method GetSshIdPath(home: string, idExists: string -> bool, keygen: Outcome)
      returns (r: Outcome, generated: bool)
      modifies this`keyFile
      ensures var ids := IdCandidates(home);
              && (idExists(ids[0]) ==> r == Pass && keyFile == Some(ids[0]) && !generated)
              && (!idExists(ids[0]) && idExists(ids[1]) ==> r == Pass && keyFile == Some(ids[1]) && !generated)
              && (!idExists(ids[0]) && !idExists(ids[1]) ==>
                    (generated && r == keygen
                     && keyFile == (if keygen.Pass? then Some(ids[1]) else old(keyFile))))
    {
      var ids := IdCandidates(home);
      var k := 0;
      while k < |ids| && !idExists(ids[k])
        invariant 0 <= k <= |ids|
        invariant forall q :: 0 <= q < k ==> !idExists(ids[q])
      {
        k := k + 1;
      }
      var matched := k < |ids|;
      var path := if matched then ids[k] else ids[|ids| - 1];
      generated := !matched;
      if !matched {
        if keygen.Fail? {
          return keygen, generated;
        }
      }
      keyFile := Some(path);
      r := Pass;
    }

    /** `_try_public_key_login()`, given what its `expect` did. */
    method TryPublicKeyLogin(e: Expect) returns (r: Result<bool>)
      ensures r.Err? <==> keyFile.None?
      ensures r.Err? ==> r.error == TypeError
      ensures r.Ok? ==> (r.value <==> LoginSucceeded(e))
    {
      var cmd := PublicKeyLoginCommand(port, keyFile, username, deviceIp);
      if cmd.Err? {
        return Err(cmd.error);
      }
      return Ok(e == Matched(0));
    }

    /** `_verify_ssh_connect()`: up to 20 public-key logins, stopping at
        the first success; RuntimeError when none succeeds. */
    method VerifySshConnect(login: nat -> Expect) returns (r: Outcome, tries: nat)
      ensures keyFile.None? ==> r == Fail(TypeError) && tries == 1
      ensures keyFile.Some? ==>
                var i := FirstLogin(login, VerifyTries);
                && tries == (if i < VerifyTries then i + 1 else VerifyTries)
                && (r.Pass? <==> i < VerifyTries)
                && (r.Fail? ==> r == Fail(RuntimeError))
    {
      var count := 0;
      while count < VerifyTries
        invariant 0 <= count <= VerifyTries
        invariant keyFile.None? ==> count == 0
        invariant forall k :: 0 <= k < count ==> !LoginSucceeded(login(k))
      {
        var ok := TryPublicKeyLogin(login(count));
        if ok.Err? {
          return Fail(ok.error), count + 1;
        }
        if ok.value {
          LoginAt(login, VerifyTries, count);
          return Pass, count + 1;
        }
        count := count + 1;
      }
      NoLogin(login, VerifyTries);
      return Fail(RuntimeError), VerifyTries;
    }

    /** `_copy_ssh_id_to_device()` under its retry policy: at most 20
        attempts, a new attempt only after RuntimeError; any other error,
        PermissionError included, propagates at once; after the last
        attempt its RuntimeError propagates.  `copySteps(k)` gives the
        outcomes of the k-th attempt's commands. */
    method CopySshIdToDevice(copySteps: nat -> nat -> Outcome) returns (r: Outcome, attempts: nat)
      ensures var i := FirstSettledCopy(copySteps, CopyTries);
              && attempts == (if i < CopyTries then i + 1 else CopyTries)
              && (i < CopyTries ==> r == AttemptOf(copySteps, i))
              && (i == CopyTries ==> r == Fail(RuntimeError))
    {
      var k := 0;
      while k < CopyTries
        invariant 0 <= k <= CopyTries
        invariant forall q :: 0 <= q < k ==> RetriedError(AttemptOf(copySteps, q))
      {
        var outcome, ran := CopyIdAttempt(copySteps(k));
        assert outcome == AttemptOf(copySteps, k);
        if !RetriedError(outcome) {
          CopySettledAt(copySteps, CopyTries, k);
          return outcome, k + 1;
        }
        k := k + 1;
      }
      CopyNeverSettled(copySteps, CopyTries);
      return Fail(RuntimeError), CopyTries;
    }

    /** One attempt of `_copy_ssh_id_to_device()`: its five commands in
        order, the first that fails ending the attempt with its failure.
        `step(j)` is the outcome of running the j-th command; `ran` lists
        the commands started. */
    method CopyIdAttempt(step: nat -> Outcome) returns (r: Outcome, ran: seq<seq<string>>)
      ensures r == AttemptOutcome(StepsOf(step, CopyIdSteps))
      ensures var cmds := CopyIdCommands(port, username, deviceIp, keyFile);
              && 1 <= |ran| <= |cmds| && ran == cmds[..|ran|]
              && (r.Pass? ==> ran == cmds)
              && (r.Fail? ==> r == step(|ran| - 1))
              && (forall j :: 0 <= j < |ran| - 1 ==> step(j).Pass?)
    {
      r, ran := RunInOrder(CopyIdCommands(port, username, deviceIp, keyFile), step);
    }

    /** `enable_ssh()`: wait for the device and select a key; when the
        key already logs in, stop there; otherwise update the host key
        (whose `ssh-keygen -R` status is not checked), copy the key over
        and verify.  `hostKeyUpdate` is the host-key command, when it
        ran. */
    method EnableSsh(w: World) returns (r: Outcome, hostKeyUpdate: Option<seq<string>>)
      requires WorldDecides(w)
      modifies this`keyFile
      ensures r == EnableSshOutcome(w)
      ensures WaitOutcome(w.waitPasses, w.waitStart + Executors.TimeoutConnect).Fail? ==>
                hostKeyUpdate.None? && keyFile == old(keyFile)
      ensures hostKeyUpdate.Some? <==>
                && WaitOutcome(w.waitPasses, w.waitStart + Executors.TimeoutConnect).Pass?
                && KeyOutcome(w.home, w.idExists, w.keygen).Pass?
                && !LoginSucceeded(w.firstLogin)
      ensures hostKeyUpdate.Some? ==> hostKeyUpdate.value == HostKeyCommand(w.home, deviceIp, port)
      ensures WaitOutcome(w.waitPasses, w.waitStart + Executors.TimeoutConnect).Pass?
              && KeyOutcome(w.home, w.idExists, w.keygen).Pass? ==>
                keyFile == Some(SelectedKey(w.home, w.idExists))
      ensures KeyOutcome(w.home, w.idExists, w.keygen).Fail? ==> keyFile == old(keyFile)
      ensures r.Pass? ==> keyFile.Some?
      ensures r.Pass? && hostKeyUpdate.None? ==> LoginSucceeded(w.firstLogin)
      ensures r.Pass? && hostKeyUpdate.Some? ==>
                (!LoginSucceeded(w.firstLogin)
                 && CopiedAndVerified(w))
    {
      hostKeyUpdate := None;
      r := PrepareLogin(w);
      if r.Fail? {
        return;
      }
      r, hostKeyUpdate := FinishLogin(w);
    }

    /** Once a key file is selected: the key login, and the repair when
        it fails. */
    method FinishLogin(w: World) returns (r: Outcome, hostKeyUpdate: Option<seq<string>>)
      requires keyFile.Some?
      ensures r == if LoginSucceeded(w.firstLogin) then Pass else RepairOutcome(w)
      ensures hostKeyUpdate.Some? <==> !LoginSucceeded(w.firstLogin)
      ensures hostKeyUpdate.Some? ==> hostKeyUpdate.value == HostKeyCommand(w.home, deviceIp, port)
      ensures r.Pass? && hostKeyUpdate.Some? ==> CopiedAndVerified(w)
    {
      hostKeyUpdate := None;
      r := Pass;
      var ok := TryPublicKeyLogin(w.firstLogin);
      assert ok.Ok?;
      if !ok.value {
        r, hostKeyUpdate := RepairLogin(w);
      }
    }

    /** The first half of `enable_ssh()`: wait for the device, then
        select the key file. */
    method PrepareLogin(w: World) returns (r: Outcome)
      requires WorldDecides(w)
      modifies this`keyFile
      ensures var wait := WaitOutcome(w.waitPasses, w.waitStart + Executors.TimeoutConnect);
              r == if wait.Fail? then wait else KeyOutcome(w.home, w.idExists, w.keygen)
      ensures r.Pass? ==> keyFile == Some(SelectedKey(w.home, w.idExists))
      ensures r.Fail? ==> keyFile == old(keyFile)
    {
      r := WaitForDevice(w.waitStart, w.waitPasses);
      if r.Fail? {
        return;
      }
      var generated;
      r, generated := GetSshIdPath(w.home, w.idExists, w.keygen);
    }

    /** The second half of `enable_ssh()`: the host key is updated, the
        key copied over and the login verified. */
    method RepairLogin(w: World) returns (r: Outcome, hostKeyUpdate: Option<seq<string>>)
      requires keyFile.Some?
      ensures r == RepairOutcome(w)
      ensures hostKeyUpdate == Some(HostKeyCommand(w.home, deviceIp, port))
      ensures r.Pass? ==> CopiedAndVerified(w)
    {
      hostKeyUpdate := Some(HostKeyCommand(w.home, deviceIp, port));
      var copyTries, verifyTries;
      r, copyTries := CopySshIdToDevice(w.copySteps);
      assert r == CopyOutcome(w.copySteps);
      if r.Fail? {
        return;
      }
      r, verifyTries := VerifySshConnect(w.verifyLogin);
      assert r == VerifyOutcome(w.verifyLogin) by {
        if FirstLogin(w.verifyLogin, VerifyTries) == VerifyTries {
          assert r == Fail(RuntimeError);
        }
      }
    }

    /** `connect(timeout)`: a no-op when connected; otherwise `enable_ssh`
        and then the executor's connect, whose first failure is the
        outcome; the backend counts as connected only when both
        succeed. */
    method Connect(w: World, timeout: int) returns (r: Outcome)
      requires Valid() && WorldDecides(w)
      modifies this, executor, executor.client
      ensures Valid()
      ensures old(connected) ==> r == Pass && connected && keyFile == old(keyFile)
                                 && executor.client.connected == old(executor.client.connected)
                                 && executor.client.commands == old(executor.client.commands)
      ensures !old(connected) ==> r == ConnectionOutcome(w, timeout)
      ensures !old(connected) ==> (connected <==> r.Pass?)
      ensures !old(connected) && r.Pass? ==> executor.client.connected && keyFile.Some?
                                             && executor.password == Some(password)
      ensures !old(connected) && r.Pass? ==> keyFile == Some(SelectedKey(w.home, w.idExists))
      ensures !old(connected) && WaitOutcome(w.waitPasses, w.waitStart + Executors.TimeoutConnect).Pass?
              && KeyOutcome(w.home, w.idExists, w.keygen).Pass? ==>
                keyFile == Some(SelectedKey(w.home, w.idExists))
      ensures port == old(port) && username == old(username) && password == old(password)
      ensures deviceIp == old(deviceIp) && imageName == old(imageName)
      ensures release == old(release) && arch == old(arch) && buildArgs == old(buildArgs)
    {
      if connected {
        return Pass;
      }
      var hostKeyUpdate;
      r, hostKeyUpdate := EnableSsh(w);
      if r.Fail? {
        return;
      }
      var attempts;
      r, attempts := executor.Connect(username, Some(password), port, deviceIp, timeout, w.executorConnect);
      if r.Fail? {
        return;
      }
      connected := true;
    }

    /** `close()`: acts only when connected, then clears the flag; so a
        second close changes nothing. */
    method Close()
      modifies this`connected, executor.client
      ensures !connected && Valid()
      ensures old(connected) ==> !executor.client.connected
                                 && executor.client.commands == old(executor.client.commands)
      ensures !old(connected) ==> unchanged(executor.client)
    {
      if connected {
        executor.Close();
        connected := false;
      }
    }
  }

  lemma LoginAt(login: nat -> Expect, n: nat, i: nat)
    requires i < n && LoginSucceeded(login(i))
    requires forall k :: 0 <= k < i ==> !LoginSucceeded(login(k))
    ensures FirstLogin(login, n) == i
  {
  }

  lemma LoginFound(login: nat -> Expect, n: nat)
    requires FirstLogin(login, n) < n
    ensures exists k :: 0 <= k < n && LoginSucceeded(login(k))
  {
    assert LoginSucceeded(login(FirstLogin(login, n)));
  }

  lemma NoLoginFound(login: nat -> Expect, n: nat)
    requires FirstLogin(login, n) == n
    ensures forall k :: 0 <= k < n ==> !LoginSucceeded(login(k))
  {
  }

  lemma NoLogin(login: nat -> Expect, n: nat)
    requires forall k :: 0 <= k < n ==> !LoginSucceeded(login(k))
    ensures FirstLogin(login, n) == n
  {
  }

  lemma CopySettledAt(copySteps: nat -> nat -> Outcome, n: nat, i: nat)
    requires i < n && !RetriedError(AttemptOf(copySteps, i))
    requires forall k :: 0 <= k < i ==> RetriedError(AttemptOf(copySteps, k))
    ensures FirstSettledCopy(copySteps, n) == i
  {
  }

  lemma CopyNeverSettled(copySteps: nat -> nat -> Outcome, n: nat)
    requires forall k :: 0 <= k < n ==> RetriedError(AttemptOf(copySteps, k))
    ensures FirstSettledCopy(copySteps, n) == n
  {
  }

  /** An attempt whose copy command is refused its password fails with
      PermissionError, which ends the retries at that attempt. */
  lemma PermissionErrorStopsRetries(copySteps: nat -> nat -> Outcome, i: nat)
    requires i < CopyTries && AttemptOf(copySteps, i) == Fail(PermissionError)
    requires forall k :: 0 <= k < i ==> AttemptOf(copySteps, k) == Fail(RuntimeError)
    ensures FirstSettledCopy(copySteps, CopyTries) == i
  {
    CopySettledAt(copySteps, CopyTries, i);
  }
}
