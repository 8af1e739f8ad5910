/** Remote command execution over SSH (`provisioning/executors.py`): the
    `Result` record, the SSH client's polling `run` loop and its file
    transfers, and the executor that wraps commands for sudo, retries the
    connection and turns a failed reboot or shutdown into PermissionError.

    The paramiko transport is replaced by oracles: the outcome of each
    connection attempt, the sequence of observations the `run` loop makes
    of its channel, the channel's exit status, and the outcome of each
    SFTP transfer.  Time is an integer clock read at each observation. */
module Executors {
  import opened Errors
  import opened Strings

  /** Default limits, in seconds. */
  const TimeoutCmd: int := 60
  const TimeoutConnect: int := 120

  function Max(a: int, b: int): int {
    if a >= b then a else b
  }

  /** `Result`: the status and the accumulated output of a command. */
  class CommandResult {
    var status: Option<int>
    var output: string

    constructor ()
      ensures status == None && output == ""
    {
      status := None;
      output := "";
    }
  }

  // ---------------------------------------------------------------------
  // What the `run` loop observes of its channel

  /** One pass of the loop: whether the exit status is ready, the data
      received when some was ready, and the clock. */
  datatype Poll = Poll(exitReady: bool, chunk: Option<string>, clock: int)

  /** The loop ends at a pass with no data ready: normally when the exit
      status is ready, with TimeoutError when the deadline has passed. */
  predicate Stops(p: Poll, deadline: int) {
    p.chunk.None? && (p.exitReady || p.clock > deadline)
  }

  /** The observations reach a pass where the loop ends. */
  predicate Decides(polls: seq<Poll>, deadline: int) {
    exists j :: 0 <= j < |polls| && Stops(polls[j], deadline)
  }

  lemma DecidesTail(polls: seq<Poll>, deadline: int)
    requires Decides(polls, deadline) && !Stops(polls[0], deadline)
    ensures Decides(polls[1..], deadline)
  {
    var j :| 0 <= j < |polls| && Stops(polls[j], deadline);
    assert polls[1..][j - 1] == polls[j];
  }

  /** The pass at which the loop ends. */
  function FirstStop(polls: seq<Poll>, deadline: int): (j: nat)
    requires Decides(polls, deadline)
    ensures j < |polls| && Stops(polls[j], deadline)
    ensures forall k :: 0 <= k < j ==> !Stops(polls[k], deadline)
    decreases |polls|
  {
    if Stops(polls[0], deadline) then 0
    else
      DecidesTail(polls, deadline);
      var j := FirstStop(polls[1..], deadline);
      assert forall k :: 1 <= k < j + 1 ==> polls[k] == polls[1..][k - 1];
      1 + j
  }

  function ChunkText(p: Poll): string {
    if p.chunk.Some? then p.chunk.value else ""
  }

  /** All data received over the passes `ps`, in order. */
  function Received(ps: seq<Poll>): string
    decreases |ps|
  {
    if ps == [] then "" else Received(ps[..|ps| - 1]) + ChunkText(ps[|ps| - 1])
  }

  /** Data received over a prefix of the passes is a prefix of the data
      received over a longer one. */
  lemma {:induction false} ReceivedPrefix(ps: seq<Poll>, a: nat, b: nat)
    requires a <= b <= |ps|
    ensures var x, y := Received(ps[..a]), Received(ps[..b]);
            |x| <= |y| && y[..|x|] == x
    decreases b - a
  {
    if a < b {
      ReceivedPrefix(ps, a, b - 1);
      assert ps[..b][..b - 1] == ps[..b - 1];
    }
  }

  /** Every chunk received before the loop ends appears in the output, at
      the position where the earlier chunks end. */
  lemma ChunkKept(polls: seq<Poll>, deadline: int, k: nat)
    requires Decides(polls, deadline)
    requires k < FirstStop(polls, deadline) && polls[k].chunk.Some?
    ensures var out := Received(polls[..FirstStop(polls, deadline)]);
            var at := |Received(polls[..k])|;
            var c := polls[k].chunk.value;
            at + |c| <= |out| && out[at..at + |c|] == c
  {
    var j := FirstStop(polls, deadline);
    ReceivedPrefix(polls, k + 1, j);
    assert polls[..k + 1][..k] == polls[..k];
  }

  /** The command's exit status, or TimeoutError when the loop ends at
      the deadline. */
  function CommandStatus(polls: seq<Poll>, deadline: int, exitStatus: int): (r: Result<int>)
    requires Decides(polls, deadline)
    ensures r.Err? ==> r.error == TimeoutError
    ensures r.Err? <==> var p := polls[FirstStop(polls, deadline)];
                        p.chunk.None? && !p.exitReady && p.clock > deadline
  {
    if polls[FirstStop(polls, deadline)].exitReady then Ok(exitStatus) else Err(TimeoutError)
  }

  /** The output `run` reports: everything received, then a newline. */
  function CommandOutput(polls: seq<Poll>, deadline: int): (r: string)
    requires Decides(polls, deadline)
    ensures |r| > 0 && r[|r| - 1] == '\n'
  {
    Received(polls[..FirstStop(polls, deadline)]) + "\n"
  }

  /** `SSHClient`: `connected` says whether the underlying paramiko client
      has a transport; `commands` records the commands executed on it. */
  class SshClient {
    var connected: bool
    var commands: seq<string>

    constructor ()
      ensures !connected && commands == []
    {
      connected := false;
      commands := [];
    }

    /** `connect(...)`, with `outcome` what the paramiko connect did. */
    method Connect(outcome: Outcome) returns (r: Outcome)
      modifies this
      ensures r == outcome
      ensures connected == (outcome.Pass? || old(connected))
      ensures commands == old(commands)
    {
      if outcome.Pass? {
        connected := true;
      }
      r := outcome;
    }

    method Close()
      modifies this
      ensures !connected && commands == old(commands)
    {
      connected := false;
    }

    /** `run(cmd, timeout)` started at clock `start`: the loop goes on while
        the exit status is not ready or data is still ready, appending
        each chunk; without data and past the deadline it raises
        TimeoutError.  Without a transport, opening the session fails. */
    method Run(cmd: string, timeout: int, start: int, polls: seq<Poll>, exitStatus: int)
      returns (r: Outcome, result: CommandResult)
      requires Decides(polls, start + timeout)
      modifies this
      ensures fresh(result)
      ensures connected == old(connected)
      ensures !old(connected) ==> r == Fail(AttributeError) && commands == old(commands)
      ensures old(connected) ==> commands == old(commands) + [cmd]
      ensures old(connected) ==>
                var status := CommandStatus(polls, start + timeout, exitStatus);
                && (r.Fail? <==> status.Err?)
                && (r.Fail? ==> r.error == TimeoutError)
                && (r.Pass? ==> result.status == Some(status.value)
                                && result.output == CommandOutput(polls, start + timeout))
    {
      var deadline := start + timeout;
      result := new CommandResult();
      if !connected {
        return Fail(AttributeError), result;
      }
      commands := commands + [cmd];
      ghost var j := FirstStop(polls, deadline);
      var i := 0;
      while !polls[i].exitReady || polls[i].chunk.Some?
        invariant 0 <= i <= j
        invariant result.output == Received(polls[..i])
        invariant connected == old(connected) && commands == old(commands) + [cmd]
        decreases j - i
      {
        if polls[i].chunk.Some? {
          result.output := result.output + polls[i].chunk.value;
        } else if polls[i].clock > deadline {
          assert Stops(polls[i], deadline) && i == j;
          return Fail(TimeoutError), result;
        }
        assert polls[..i + 1][..i] == polls[..i];
        i := i + 1;
      }
      assert Stops(polls[i], deadline) && i == j;
      result.output := result.output + "\n";
      result.status := Some(exitStatus);
      r := Pass;
    }

    /** `put(local_path, remote_path)`: a missing local file is a
        RuntimeError before any transfer is attempted. */
    method Put(localExists: bool, transfer: Outcome) returns (r: Outcome, attempted: bool)
      ensures !localExists ==> r == Fail(RuntimeError) && !attempted
      ensures localExists && !connected ==> r == Fail(AttributeError) && !attempted
      ensures localExists && connected ==> r == transfer && attempted
    {
      if !localExists {
        return Fail(RuntimeError), false;
      }
      if !connected {
        return Fail(AttributeError), false;
      }
      return transfer, true;
    }

    /** `get(remote_path, local_path)`: the transfer comes first, and only
        then is a missing local file a RuntimeError. */
    method Get(transfer: Outcome, localExistsAfter: bool) returns (r: Outcome, attempted: bool)
      ensures !connected ==> r == Fail(AttributeError) && !attempted
      ensures connected ==> attempted
      ensures connected && transfer.Fail? ==> r == transfer
      ensures connected && transfer.Pass? ==> (r == Pass <==> localExistsAfter)
      ensures connected && transfer.Pass? && !localExistsAfter ==> r == Fail(RuntimeError)
    {
      if !connected {
        return Fail(AttributeError), false;
      }
      if transfer.Fail? {
        return transfer, true;
      }
      if !localExistsAfter {
        return Fail(RuntimeError), true;
      }
      return Pass, true;
    }
  }

  // ---------------------------------------------------------------------
  // The executor

  /** `_get_sudo_command(cmd)`: the password is piped to `sudo -S` when it
      is truthy, otherwise plain `sudo`. */
  function SudoCommand(password: Option<string>, cmd: string): (r: string)
    ensures EndsWith(r, cmd)
    ensures Truthy(password) ==> r == "echo " + password.value + " | sudo -S " + cmd
    ensures !Truthy(password) ==> r == "sudo " + cmd
    ensures StartsWith(r, if Truthy(password) then "echo " else "sudo ")
  {
    var command := "sudo " + cmd;
    if Truthy(password) then "echo " + password.value + " | sudo -S " + cmd else command
  }

  /** The check `reboot` and `shutdown` apply to the command's status. */
  function StatusCheck(status: int): (r: Outcome)
    ensures r == Fail(PermissionError) <==> status > 0
    ensures r.Pass? <==> status <= 0
  {
    if status > 0 then Fail(PermissionError) else Pass
  }

  /** The first connection attempt, among the first `count`, that does not
      fail with TypeError; `count` when every one does. */
  function FirstSettled(outcome: nat -> Outcome, count: nat): (i: nat)
    ensures i <= count
    ensures i < count ==> outcome(i) != Fail(TypeError)
    ensures forall k :: 0 <= k < i ==> outcome(k) == Fail(TypeError)
    decreases count
  {
    if count == 0 then 0
    else
      var i := FirstSettled(outcome, count - 1);
      if i < count - 1 then i
      else if outcome(count - 1) != Fail(TypeError) then count - 1
      else count
  }

  /** How `connect`'s retries end: the first attempt that does not fail
      with TypeError decides, and RuntimeError once `max(1, timeout)`
      attempts have all failed with it. */
  function ConnectOutcome(outcome: nat -> Outcome, timeout: int): (r: Outcome)
    ensures r.Pass? ==> exists k :: 0 <= k < Max(1, timeout) && outcome(k).Pass?
    ensures (forall k :: 0 <= k < Max(1, timeout) ==> outcome(k) == Fail(TypeError)) ==> r == Fail(RuntimeError)
    ensures r != Fail(TypeError)
  {
    var count := Max(1, timeout);
    var i := FirstSettled(outcome, count);
    if i < count then outcome(i) else Fail(RuntimeError)
  }

  /** `SSHExecutor`.  `passwordSet` says whether `connect` has stored a
      password; before that, wrapping a command for sudo raises
      AttributeError. */
  class SshExecutor {
    const client: SshClient
    var password: Option<string>
    var passwordSet: bool

    constructor ()
      ensures fresh(client) && !client.connected && client.commands == []
      ensures !passwordSet
    {
      client := new SshClient();
      password := None;
      passwordSet := false;
    }

    /** `connect(username, password, port, host, timeout)`: stores the
        password, then makes at most `max(1, timeout)` attempts.  A
        TypeError means the target is not up yet and the next attempt
        follows; success returns; any other exception, authentication
        failure included, propagates at once.  RuntimeError when every
        attempt failed with TypeError.  `outcome(k)` is what the k-th
        attempt did. */
    method Connect(username: string, password: Option<string>, port: int, host: string,
                   timeout: int, outcome: nat -> Outcome)
      returns (r: Outcome, attempts: nat)
      modifies this, client
      ensures this.password == password && passwordSet
      ensures var count := Max(1, timeout);
              var i := FirstSettled(outcome, count);
              && attempts == (if i < count then i + 1 else count)
              && (i < count ==> r == outcome(i))
              && (i == count ==> r == Fail(RuntimeError))
      ensures r == ConnectOutcome(outcome, timeout)
      ensures client.connected == (r.Pass? || old(client.connected))
      ensures client.commands == old(client.commands)
    {
      this.password := password;
      passwordSet := true;
      var count := Max(1, timeout);
      var attempt := 0;
      while attempt < count
        invariant 0 <= attempt <= count
        invariant forall k :: 0 <= k < attempt ==> outcome(k) == Fail(TypeError)
        invariant client.connected == old(client.connected)
        invariant client.commands == old(client.commands)
        invariant this.password == password && passwordSet
      {
        var result := client.Connect(outcome(attempt));
        if result != Fail(TypeError) {
          SettledAt(outcome, count, attempt);
          return result, attempt + 1;
        }
        attempt := attempt + 1;
      }
      SettledNever(outcome, count);
      r, attempts := Fail(RuntimeError), count;
    }

    method Close()
      modifies client
      ensures !client.connected && client.commands == old(client.commands)
    {
      client.Close();
    }

    /** `run(cmd, timeout)`: the command runs unchanged. */
    method Run(cmd: string, timeout: int, start: int, polls: seq<Poll>, exitStatus: int)
      returns (r: Outcome, result: CommandResult)
      requires Decides(polls, start + timeout)
      modifies client
      ensures fresh(result)
      ensures client.connected == old(client.connected)
      ensures old(client.connected) ==> client.commands == old(client.commands) + [cmd]
      ensures !old(client.connected) ==> r == Fail(AttributeError) && client.commands == old(client.commands)
      ensures old(client.connected) ==>
                var status := CommandStatus(polls, start + timeout, exitStatus);
                && (r.Fail? <==> status.Err?)
                && (r.Fail? ==> r.error == TimeoutError)
                && (r.Pass? ==> result.status == Some(status.value)
                                && result.output == CommandOutput(polls, start + timeout))
    {
      r, result := client.Run(cmd, timeout, start, polls, exitStatus);
    }

    /** `run_sudo(cmd, timeout)`: the command runs wrapped for sudo. */
    method RunSudo(cmd: string, timeout: int, start: int, polls: seq<Poll>, exitStatus: int)
      returns (r: Outcome, result: CommandResult)
      requires Decides(polls, start + timeout)
      modifies client
      ensures fresh(result)
      ensures client.connected == old(client.connected)
      ensures !passwordSet ==> r == Fail(AttributeError) && client.commands == old(client.commands)
      ensures passwordSet && !old(client.connected) ==>
                r == Fail(AttributeError) && client.commands == old(client.commands)
      ensures passwordSet && old(client.connected) ==>
                client.commands == old(client.commands) + [SudoCommand(password, cmd)]
      ensures passwordSet && old(client.connected) ==>
                var status := CommandStatus(polls, start + timeout, exitStatus);
                && (r.Fail? <==> status.Err?)
                && (r.Fail? ==> r.error == TimeoutError)
                && (r.Pass? ==> result.status == Some(status.value)
                                && result.output == CommandOutput(polls, start + timeout))
    {
      if !passwordSet {
        result := new CommandResult();
        return Fail(AttributeError), result;
      }
      r, result := client.Run(SudoCommand(password, cmd), timeout, start, polls, exitStatus);
    }

    /** `reboot()`: `shutdown -r now` through sudo; a positive status means
        the password was refused. */
    method Reboot(start: int, polls: seq<Poll>, exitStatus: int) returns (r: Outcome)
      requires Decides(polls, start + TimeoutCmd)
      modifies client
      ensures client.connected == old(client.connected)
      ensures passwordSet && old(client.connected) ==>
                && client.commands == old(client.commands) + [SudoCommand(password, "shutdown -r now")]
                && r == ShutdownOutcome(CommandStatus(polls, start + TimeoutCmd, exitStatus))
      ensures !(passwordSet && old(client.connected)) ==> r == Fail(AttributeError)
    {
      var run, result := RunSudo("shutdown -r now", TimeoutCmd, start, polls, exitStatus);
      if run.Fail? {
        return run;
      }
      r := StatusCheck(result.status.value);
    }

    /** `shutdown()`: `shutdown now` through sudo, checked like `reboot`. */
    method Shutdown(start: int, polls: seq<Poll>, exitStatus: int) returns (r: Outcome)
      requires Decides(polls, start + TimeoutCmd)
      modifies client
      ensures client.connected == old(client.connected)
      ensures passwordSet && old(client.connected) ==>
                && client.commands == old(client.commands) + [SudoCommand(password, "shutdown now")]
                && r == ShutdownOutcome(CommandStatus(polls, start + TimeoutCmd, exitStatus))
      ensures !(passwordSet && old(client.connected)) ==> r == Fail(AttributeError)
    {
      var run, result := RunSudo("shutdown now", TimeoutCmd, start, polls, exitStatus);
      if run.Fail? {
        return run;
      }
      r := StatusCheck(result.status.value);
    }
  }

  /** What `reboot`/`shutdown` report for a command that ran: the timeout
      propagates, and a positive status is a PermissionError. */
  function ShutdownOutcome(status: Result<int>): (r: Outcome)
    ensures status.Err? ==> r == Fail(status.error)
    ensures status.Ok? ==> (r == Fail(PermissionError) <==> status.value > 0)
    ensures status.Ok? ==> (r.Pass? <==> status.value <= 0)
  {
    if status.Err? then Fail(status.error) else StatusCheck(status.value)
  }

  lemma SettledAt(outcome: nat -> Outcome, count: nat, attempt: nat)
    requires attempt < count && outcome(attempt) != Fail(TypeError)
    requires forall k :: 0 <= k < attempt ==> outcome(k) == Fail(TypeError)
    ensures FirstSettled(outcome, count) == attempt
  {
  }

  lemma SettledNever(outcome: nat -> Outcome, count: nat)
    requires forall k :: 0 <= k < count ==> outcome(k) == Fail(TypeError)
    ensures FirstSettled(outcome, count) == count
  {
  }
}
