# auto-upgrade-testing, modelled in Dafny

auto-upgrade-testing runs upgrade tests for Ubuntu systems. It reads a
YAML test definition. It provisions a testbed backend: an LXC container,
a QEMU virtual machine, an SSH-reachable machine, a generic device
or an Ubuntu Touch phone. It then builds an `autopkgtest` (formerly
`adt-run`) command line that copies the pre- and post-upgrade scripts into
the testbed and runs them.

This project models the decision logic, the string work and the
argument vectors of that system, and proves properties about them:

- `$TOKEN` placeholder rendering of QEMU build arguments, and the
  provisioning-specification defaults (`ProvisionConfig`);
- the Touch backend: the `channel:revision` state string, parsing of the
  `adb devices` listing and of `system-image-cli -i` details, the
  connected-device rule, and the create flow with its bootloader and flash
  commands (`Touch`);
- the generic device backend (`Device`);
- the SSH backend: the free-port scan, the wait, login and key-copy loops
  and their retry policy, the password-prompted command outcomes, the
  key-file choice, and the `connected` flag (`Ssh`);
- the paramiko executor: the output accumulation of `run`, sudo wrapping,
  the `reboot`/`shutdown` status check, the connect retry loop, and
  `put`/`get` checks (`Executors`);
- the QEMU backend: the launch argument vector, the disk, display and
  network groups, the fixed run arguments, overlay preparation, `close`
  and `stop_qemu` (`Qemu`);
- the test-definition reader: script locations, script lists, the `.yaml`
  check, and `definition_reader` (`ConfigSpec`);
- the command line: `get_adt_run_command` and the provision-or-skip
  decision of `main` (`CommandLine`);
- the legacy `wrapper_runner.py`: its `adt-run` command, its settings
  file, and its backend check (`WrapperRunner`).

Everything outside the process is a parameter of the model, and the
contracts are stated over those parameters. This covers sockets, pexpect
sessions, paramiko channels, subprocesses, the clock, file-system queries
and the YAML parser. A socket probe is a function from port to outcome,
an expect match is a value, and a channel is a sequence of polls. A
command's exit code or exception is an `Outcome`. Python exceptions are
the `Errors.Exc` kinds, without messages.

Helper modules:

- `Errors`: `Option`, `Result`, `Outcome` and the exception kinds.
- `Strings`: Python's `split(sep)`, `split()` and `strip()` (on the
  whitespace of `str.isspace`), `join`, `replace`, `startswith`/`endswith`,
  `int()` and `str()` on integers, and `shlex.split` in POSIX mode.
  `ShlexSplitPlain` proves that `shlex.split` and `split()` agree on text
  with no quote, no backslash and only the whitespace `shlex` knows.
- `Paths`: `posixpath.join`, `dirname`, `normpath` and `abspath`.

The SSH, QEMU and executor objects update their fields in place, so they
are classes with `modifies` frames. The Touch and device backends set
their fields once, so they are datatypes.

## Model

| member | source | states |
|---|---|---|
| ProvisionConfig.ReplacePlaceholders | upgrade_testing/provisioning/_provisionconfig.py:212-226 | the loop's result is `Render` (passes in descending token order); an empty lookup or text without `$` is returned unchanged |
| ProvisionConfig.UntouchedWithoutDollar | upgrade_testing/selftests/test_provisionconfig.py:27-61 | any sequence of passes leaves text without `$` exactly as it was |
| ProvisionConfig.SortDescending | upgrade_testing/provisioning/_provisionconfig.py:213-216 | the sorted token list is a permutation of the keys |
| ProvisionConfig.SortDescendingSorted | upgrade_testing/provisioning/_provisionconfig.py:216 | the token list is in descending Python string order |
| ProvisionConfig.Insert | upgrade_testing/provisioning/_provisionconfig.py:216 | inserting a token adds exactly that token to the multiset |
| ProvisionConfig.InsertDescending | upgrade_testing/provisioning/_provisionconfig.py:216 | inserting into a descending list keeps it descending |
| ProvisionConfig.LessAsymmetric | upgrade_testing/provisioning/_provisionconfig.py:216 | Python string order is asymmetric |
| ProvisionConfig.LessTransitive | upgrade_testing/provisioning/_provisionconfig.py:216 | Python string order is transitive |
| ProvisionConfig.LessTotal | upgrade_testing/provisioning/_provisionconfig.py:216 | two different strings are ordered one way or the other |
| ProvisionConfig.PrefixLess | upgrade_testing/provisioning/_provisionconfig.py:214-215 | a token sorts before every proper extension of it, so in reverse order the extension comes first |
| ProvisionConfig.ReplaceOnParts | upgrade_testing/provisioning/_provisionconfig.py:219-223 | one replace-all pass for `$t` rewrites exactly the references whose name starts with `t`, leaving literal text alone |
| ProvisionConfig.ApplyOnParts | upgrade_testing/provisioning/_provisionconfig.py:218-224 | all passes act piece by piece on a text cut into literal pieces and references |
| ProvisionConfig.ResolveSeqIsExpand | upgrade_testing/provisioning/_provisionconfig.py:218-224 | each reference ends up as the value of the first token in the visiting order that begins its name, followed by the rest of the name |
| ProvisionConfig.RenderParts | upgrade_testing/provisioning/_provisionconfig.py:212-226 | rendering a text replaces each of its references independently of the others |
| ProvisionConfig.FirstPrefixIsLongest | upgrade_testing/provisioning/_provisionconfig.py:214-216 | in descending order the first token that begins a name is the longest such token |
| ProvisionConfig.FirstPrefix | upgrade_testing/provisioning/_provisionconfig.py:218-224 | the token found begins the name and is in the order; none is found exactly when no token begins it |
| ProvisionConfig.KnownReference | upgrade_testing/provisioning/_provisionconfig.py:218-224 | a reference whose whole name is a key becomes that key's value |
| ProvisionConfig.UnknownReference | upgrade_testing/selftests/test_provisionconfig.py:72-78 | a reference that no key begins stays in the text |
| ProvisionConfig.ValueHasNoDollar | upgrade_testing/provisioning/_provisionconfig.py:219-223 | a substituted value brings no new `$`, so no later pass touches it |
| ProvisionConfig.RenderTwoKnown | upgrade_testing/selftests/test_provisionconfig.py:63-70 | `$a<text>$b` with both tokens known renders as value(a), the text, then value(b) |
| ProvisionConfig.RenderKnownUnknown | upgrade_testing/selftests/test_provisionconfig.py:72-78 | `$a<text>$b` with only `a` known renders as value(a), the text, then `$b` |
| ProvisionConfig.RenderThreeKnown | upgrade_testing/selftests/test_provisionconfig.py:80-94 | three known references render as their three values around the literal text |
| ProvisionConfig.RenderRefTextRef | upgrade_testing/provisioning/_provisionconfig.py:218-224 | two references separated by literal text expand independently |
| ProvisionConfig.RenderThreeRefs | upgrade_testing/provisioning/_provisionconfig.py:218-224 | three references separated by literal text expand independently |
| ProvisionConfig.ExampleMultipleTokens | upgrade_testing/selftests/test_provisionconfig.py:63-70 | `$FOO and $BAR` with FOO=123, BAR=abc renders `123 and abc` |
| ProvisionConfig.ExampleUnknownToken | upgrade_testing/selftests/test_provisionconfig.py:72-78 | `$FOO and $BAR` with only FOO=123 renders `123 and $BAR` |
| ProvisionConfig.ExampleSuperstringFirst | upgrade_testing/selftests/test_provisionconfig.py:80-94 | `$FOOBAR and $FOO and $BAR` renders `baz and foo and bar`: the longer token wins |
| ProvisionConfig.ExampleFullTokenWord | upgrade_testing/selftests/test_provisionconfig.py:96-109 | `$FOOA and $FOOB` with FOO also defined renders `A and B` |
| ProvisionConfig.Keys | upgrade_testing/provisioning/_provisionconfig.py:213 | the key list holds the lookup's keys in insertion order |
| ProvisionConfig.ResolveAll | upgrade_testing/provisioning/_provisionconfig.py:219-223 | one pass acts on every piece and keeps the number of pieces |
| ProvisionConfig.ResolveSeq | upgrade_testing/provisioning/_provisionconfig.py:218-224 | the passes keep the number of pieces |
| ProvisionConfig.ExpandAll | upgrade_testing/provisioning/_provisionconfig.py:218-224 | every piece is expanded and the number of pieces is kept |
| ProvisionConfig.ProfileLookup | upgrade_testing/provisioning/_provisionconfig.py:199 | the lookup holds the single token PROFILE_PATH, bound to the profile path |
| ProvisionConfig.RenderBuildArgs | upgrade_testing/provisioning/_provisionconfig.py:189-209 | the loop returns `BuildArgsRendered`: TypeError exactly for a non-list; ValueError exactly for a list with a non-string; Ok exactly for a list of strings, of the same length, element i the rendering of input i |
| ProvisionConfig.EmptyBuildArgs | upgrade_testing/selftests/test_provisionconfig.py:120-121 | an empty argument list renders to an empty list |
| ProvisionConfig.RenderProfilePath | upgrade_testing/provisioning/_provisionconfig.py:199-208 | `$PROFILE_PATH` followed by a non-word character becomes the profile path, and the rest is kept |
| ProvisionConfig.ExampleProfilePathArgs | upgrade_testing/selftests/test_provisionconfig.py:127-132 | `$PROFILE_PATH here` and `$PROFILE_PATH there` with `/tmp` become `/tmp here` and `/tmp there` |
| ProvisionConfig.SpecificationType | upgrade_testing/provisioning/_provisionconfig.py:82-91 | `lxc` and `qemu` map to their classes, each iff the name is that one; any other name is KeyError |
| ProvisionConfig.InitialState | upgrade_testing/provisioning/_provisionconfig.py:113-116 | the first release |
| ProvisionConfig.FinalState | upgrade_testing/provisioning/_provisionconfig.py:118-121 | the last release |
| ProvisionConfig.SingleReleaseStates | upgrade_testing/provisioning/_provisionconfig.py:113-121 | with one release the initial and the final state agree |
| ProvisionConfig.DefaultImageName | upgrade_testing/provisioning/_provisionconfig.py:142-144 | `autopkgtest-`, the initial release, `-`, the architecture, then `-cloud.img` |
| ProvisionConfig.DirectoryOfAbsolutePath | upgrade_testing/provisioning/_provisionconfig.py:145-147 | for an absolute path of proper names, the profile directory is the path without its last name |
| ProvisionConfig.ExampleSpecDirectory | upgrade_testing/selftests/test_provisionconfig.py:144-163 | the spec at `/test/path/test.yaml` gives `/test/path`, and `$PROFILE_PATH` renders to it |
| ProvisionConfig.NewLxcSpecification | upgrade_testing/provisioning/_provisionconfig.py:94-106 | KeyError without releases or arch; IndexError for no releases; Ok exactly otherwise, with distribution defaulting to `ubuntu` |
| ProvisionConfig.NewQemuSpecification | upgrade_testing/provisioning/_provisionconfig.py:137-159 | KeyError without releases; IndexError for none; TypeError/ValueError from the build arguments; Ok exactly when releases are given and the build arguments are a list of strings; arch defaults to `amd64`, image name to the cloud-image name, build arguments rendered against the spec's directory |
| ProvisionConfig.FromProvisionSpec | upgrade_testing/provisioning/_provisionconfig.py:73-79 | KeyError without a backend or for an unknown one; `lxc` gives exactly the LXC constructor's result and `qemu` exactly the QEMU constructor's; a success is valid, of the named class, for that path |
| ProvisionConfig.FromTestSpec | upgrade_testing/provisioning/_provisionconfig.py:67-71 | KeyError without a `provisioning` stanza; otherwise exactly `from_provisionspec` of the stanza |
| Touch.FormatDeviceState | upgrade_testing/provisioning/backends/_touch.py:137-142 | the channel, one colon, then the revision |
| Touch.FormatInjective | upgrade_testing/provisioning/backends/_touch.py:137-142 | for colon-free channels, equal state strings mean equal channels and revisions (both directions) |
| Touch.NewTouchBackend | upgrade_testing/provisioning/backends/_touch.py:32-44 | Ok exactly when the state has one colon, else ValueError; the fields format back to the state string |
| Touch.FormatThenConstruct | upgrade_testing/provisioning/backends/_touch.py:39 | splitting inverts formatting for a colon-free channel and revision |
| Touch.ListedLines | upgrade_testing/provisioning/backends/_touch.py:190 | the lines after the title: one per line break in the output |
| Touch.ConnectedSerials | upgrade_testing/provisioning/backends/_touch.py:187-191 | the non-empty listed lines, none longer than a line |
| Touch.ConnectedSerialsMembers | upgrade_testing/provisioning/backends/_touch.py:191 | a serial is connected iff it is a non-empty listed line |
| Touch.ConnectedSerialsOf | upgrade_testing/provisioning/backends/_touch.py:187-191 | a title then lines `xs` yields the non-empty `xs` in order, and all of `xs` when none is empty |
| Touch.NoSerialsIff | upgrade_testing/provisioning/backends/_touch.py:191 | no serial is connected iff every listed line is empty |
| Touch.DeviceConnected | upgrade_testing/provisioning/backends/_touch.py:152-170 | RuntimeError when nothing is listed; with a serial, whether it is listed; without one, True iff exactly one device is listed, else RuntimeError |
| Touch.DetailCommand | upgrade_testing/provisioning/backends/_touch.py:195-198 | `adb [-s serial] shell system-image-cli -i` |
| Touch.DetailKey | upgrade_testing/provisioning/backends/_touch.py:203 | the key of a detail line has no spaces |
| Touch.DetailValue | upgrade_testing/provisioning/backends/_touch.py:203-204 | the value of a detail line is a single colon-free field |
| Touch.DetailLineFields | upgrade_testing/provisioning/backends/_touch.py:202-205 | `key:value…` gives that key and exactly that value, with any leading space kept and text after a second colon dropped |
| Touch.DetailsError | upgrade_testing/provisioning/backends/_touch.py:202-205 | parsing raises IndexError exactly when a non-empty line has no colon |
| Touch.DetailsStep | upgrade_testing/provisioning/backends/_touch.py:202-205 | each counted line adds or overwrites its key |
| Touch.DetailsKeys | upgrade_testing/provisioning/backends/_touch.py:202-205 | the parsed keys are exactly the keys of the non-empty lines |
| Touch.DetailsLastWins | upgrade_testing/provisioning/backends/_touch.py:202-205 | each key holds the value of the last line with that key |
| Touch.DetailsValuesColonFree | upgrade_testing/provisioning/backends/_touch.py:203 | every parsed value is colon-free |
| Touch.CurrentDeviceDetails | upgrade_testing/provisioning/backends/_touch.py:194-207 | None on CalledProcessError; other errors propagate; otherwise the parsed dictionary |
| Touch.DeviceCurrentStateAsWritten | upgrade_testing/provisioning/backends/_touch.py:210-216 | always raises: TypeError for the misspelt keyword, or the lookup's error before it |
| Touch.DeviceCurrentState | upgrade_testing/provisioning/backends/_touch.py:210-216 | Ok iff both `channel` and `version_version` are present, giving their state string; TypeError for missing details; KeyError for a missing entry |
| Touch.TwoDetailLines | upgrade_testing/provisioning/backends/_touch.py:202-205 | two `key:value` lines with distinct keys parse into that two-entry dictionary |
| Touch.ReportedStateLookup | upgrade_testing/provisioning/backends/_touch.py:210-216 | a device reporting channel c and version v: the corrected state is `c:v`, the written one TypeError |
| Touch.DeviceInRequiredState | upgrade_testing/provisioning/backends/_touch.py:52-58 | with the state read as intended (`DeviceCurrentState`, see Findings): errors propagate; otherwise whether the reported state equals the backend's state string |
| Touch.ReadyIffReported | upgrade_testing/provisioning/backends/_touch.py:52-58 | ready iff the reported channel and version are the backend's channel and revision |
| Touch.BootloaderCommand | upgrade_testing/provisioning/backends/_touch.py:88-95 | `adt [-s serial] reboot bootloader`, with `-s` present iff a serial is set |
| Touch.FlashCommand | upgrade_testing/provisioning/backends/_touch.py:97-111 | the fixed flash prefix with revision, password and channel, then `--serial s` only with a serial |
| Touch.FlashCommandTargets | upgrade_testing/provisioning/backends/_touch.py:97-111 | the flash command's channel and revision format back to the initial state; `--serial` appears iff a serial is set |
| Touch.AdbScriptLocation | upgrade_testing/provisioning/backends/_touch.py:173-184 | the shipped script when it exists, else `adb` |
| Touch.GetAdtRunArgs | upgrade_testing/provisioning/backends/_touch.py:113-131 | KeyError without `tmp_dir`; a directory error propagates; otherwise `ssh -s adb -- -p pw --identity tmp/identity`, then `-s serial` when set |
| Touch.IdentityPath | upgrade_testing/provisioning/backends/_touch.py:115 | the identity directory is `tmp_dir/identity` |
| Touch.Create | upgrade_testing/provisioning/backends/_touch.py:60-112 | with the state read as intended: ready: nothing runs; not ready and unavailable: RuntimeError; otherwise the bootloader command, then, if it could be started, the flash command, whose start decides the outcome; a command runs only for a connected device |
| Touch.Reflash | upgrade_testing/provisioning/backends/_touch.py:80-111 | the bootloader command is started first; if it cannot be started that is the outcome and nothing else runs, otherwise the flash command follows and its start decides the outcome; success means every command started |
| Device.AnyNonEmpty | upgrade_testing/provisioning/backends/_device.py:52 | true iff some string is non-empty |
| Device.Available | upgrade_testing/provisioning/backends/_device.py:41-52 | errors propagate; with a truthy serial, whether a line after the title is that serial; otherwise whether a line after the title is non-empty |
| Device.GetAdtRunArgs | upgrade_testing/provisioning/backends/_device.py:61-65 | `ssh -s adb -- -p password`, then `-s serial` when it is not None |
| Device.EmptySerialQuirk | upgrade_testing/provisioning/backends/_device.py:48-65 | an empty serial counts as none for availability yet still adds `-s ''` to the run arguments |
| Ssh.FirstFreePort | upgrade_testing/provisioning/backends/_ssh.py:126-140 | the first refused port of the range, ascending; none iff no port of the range is refused |
| Ssh.SshBackend.constructor | upgrade_testing/provisioning/backends/_ssh.py:45-63 | falsy username, password and address default to `ubuntu`, `ubuntu` and `localhost`; port -1, not connected, no key file |
| Ssh.SshBackend.Available | upgrade_testing/provisioning/backends/_ssh.py:65-71 | a listing error of the cache directory propagates; otherwise true iff the image is listed |
| Ssh.SshBackend.GetAdtRunArgs | upgrade_testing/provisioning/backends/_ssh.py:76-83 | exactly the twelve-word `ssh` run-argument vector |
| Ssh.SshRunArgs | upgrade_testing/provisioning/backends/_ssh.py:76-83 | `ssh --port p --login u --password pw --identity key --hostname ip --reboot` |
| Ssh.SshRunArgsPort | upgrade_testing/provisioning/backends/_ssh.py:78 | the port given to autopkgtest parses back to the backend's port |
| Ssh.SshBackend.FindFreePort | upgrade_testing/provisioning/backends/_ssh.py:95-96 | the port becomes the first free one in 22220..22999; when none is free, RuntimeError and the port is unchanged |
| Ssh.WaitDecidesTail | upgrade_testing/provisioning/backends/_ssh.py:151-164 | the undecided wait passes after a non-deciding one still decide |
| Ssh.FirstDecisive | upgrade_testing/provisioning/backends/_ssh.py:154-164 | the first pass that is past the deadline or not refused |
| Ssh.WaitOutcome | upgrade_testing/provisioning/backends/_ssh.py:151-164 | TimeoutError past the deadline, success on the first connection, other errors raised; success only after a connection in time |
| Ssh.SshBackend.WaitForDevice | upgrade_testing/provisioning/backends/_ssh.py:151-164 | the connection loop ends as `WaitOutcome` says |
| Ssh.IdCandidates | upgrade_testing/provisioning/backends/_ssh.py:188-191 | `~/.ssh/id_rsa` then `~/.ssh/id_autopkgtest` |
| Ssh.SshBackend.GetSshIdPath | upgrade_testing/provisioning/backends/_ssh.py:186-196 | the first existing candidate, or a key generated at the last one |
| Ssh.SelectedKey | upgrade_testing/provisioning/backends/_ssh.py:186-196 | the key file chosen: the first candidate exactly when it exists, otherwise the second |
| Ssh.PublicKeyLoginCommand | upgrade_testing/provisioning/backends/_ssh.py:198-207 | TypeError iff no key file is set; otherwise the space-joined `ssh -p … -i key …` command |
| Ssh.SshBackend.TryPublicKeyLogin | upgrade_testing/provisioning/backends/_ssh.py:198-216 | TypeError iff no key file; otherwise success iff the shell prompt matched first |
| Ssh.FirstLogin | upgrade_testing/provisioning/backends/_ssh.py:218-227 | the first successful login of the first n, or n |
| Ssh.SshBackend.VerifySshConnect | upgrade_testing/provisioning/backends/_ssh.py:218-227 | tries up to 20 logins, stops at the first success, RuntimeError after 20 failures |
| Ssh.LoginAt | upgrade_testing/provisioning/backends/_ssh.py:220-225 | the verify loop stops at the first successful login |
| Ssh.NoLogin | upgrade_testing/provisioning/backends/_ssh.py:218-227 | without a successful login the loop runs out |
| Ssh.RunWithPassword | upgrade_testing/provisioning/backends/_ssh.py:243-260 | no prompt before EOF sends nothing; `denied` after the password is PermissionError; a nonzero exit is RuntimeError; timeouts propagate |
| Ssh.DeniedIsNotRetried | upgrade_testing/provisioning/backends/_ssh.py:172-184 | a PermissionError comes only after the password was sent and refused, and it is never retried |
| Ssh.RunCommand | upgrade_testing/provisioning/backends/_ssh.py:229-234 | `ssh -o StrictHostKeyChecking=no -p port user@ip` then the commands |
| Ssh.PutCommand | upgrade_testing/provisioning/backends/_ssh.py:236-241 | the `scp -P port src user@ip:dst` command |
| Ssh.HomeSsh | upgrade_testing/provisioning/backends/_ssh.py:172-184 | the device's `.ssh` directory, without a trailing slash |
| Ssh.CopyIdCommands | upgrade_testing/provisioning/backends/_ssh.py:172-184 | the five password-prompted commands of one key copy, in order |
| Ssh.AttemptOutcome | upgrade_testing/provisioning/backends/_ssh.py:172-184 | an attempt passes iff every step passes, and fails with its first failing step's error |
| Ssh.FirstFailureDecides | upgrade_testing/provisioning/backends/_ssh.py:175-184 | when the steps before `j` pass and step `j` fails, the attempt fails with step `j`'s error |
| Ssh.RunInOrder | upgrade_testing/provisioning/backends/_ssh.py:179-184 | the commands are started in order up to the first failure, which is the outcome; the outcome is `AttemptOutcome` of the step outcomes; all commands start when it passes |
| Ssh.SshBackend.CopyIdAttempt | upgrade_testing/provisioning/backends/_ssh.py:175-184 | one attempt runs a prefix of `CopyIdCommands` in order, the first failing command deciding; its outcome is `AttemptOutcome` of the command outcomes |
| Ssh.FirstSettledCopy | upgrade_testing/provisioning/backends/_ssh.py:172 | the first attempt whose outcome is not a RuntimeError, or n |
| Ssh.SshBackend.CopySshIdToDevice | upgrade_testing/provisioning/backends/_ssh.py:172-184 | at most 20 attempts, each running the five copy commands in order (`CopyIdAttempt`); only RuntimeError is retried; the settled attempt's outcome is the result |
| Ssh.CopySettledAt | upgrade_testing/provisioning/backends/_ssh.py:172 | the retry stops at the first attempt that is not a RuntimeError |
| Ssh.CopyNeverSettled | upgrade_testing/provisioning/backends/_ssh.py:172 | when every attempt is a RuntimeError, all are used |
| Ssh.PermissionErrorStopsRetries | upgrade_testing/provisioning/backends/_ssh.py:172-184 | a refused password ends the retries at that attempt |
| Ssh.SshBackend.EnableSsh | upgrade_testing/provisioning/backends/_ssh.py:142-170 | the outcome is `EnableSshOutcome`; once the wait and key selection pass, `keyFile` is the selected candidate (`SelectedKey`), and a failed key selection leaves it as it was; the host-key command `ssh-keygen -f ~/.ssh/known_hosts -R [ip]:port` runs iff the wait and key selection pass and the first login fails; a failed wait changes nothing; success means either the first login or a settled copy and a verified login |
| Ssh.KeyOutcome | upgrade_testing/provisioning/backends/_ssh.py:186-196 | an existing candidate key passes; without one, the outcome of `ssh-keygen` |
| Ssh.CopyOutcome | upgrade_testing/provisioning/backends/_ssh.py:172-184 | a success comes from some attempt that passed; twenty RuntimeErrors give RuntimeError |
| Ssh.RepairOutcome | upgrade_testing/provisioning/backends/_ssh.py:146-149 | passes iff the copy and the verification both pass; a failed copy is the outcome |
| Ssh.VerifyOutcome | upgrade_testing/provisioning/backends/_ssh.py:218-227 | passes iff one of the twenty logins succeeds; otherwise RuntimeError |
| Ssh.EnableSshOutcome | upgrade_testing/provisioning/backends/_ssh.py:142-149 | passes iff the wait and key selection pass and either the first login succeeds or both the copy and the verification pass; a failed wait is the outcome |
| Ssh.EnableSshSucceeds | upgrade_testing/provisioning/backends/_ssh.py:142-149 | `enable_ssh` passes exactly when the wait and key selection pass and either the first key login succeeds or both the id copy and the login verification pass |
| Ssh.SshBackend.RepairLogin | upgrade_testing/provisioning/backends/_ssh.py:146-149 | after a failed first login: records the host-key command for `[ip]:port`; a failed copy is the outcome, otherwise the verification decides; success means a copy attempt within the 20 tries passed and a login within the verification tries was found |
| Ssh.SshBackend.PrepareLogin | upgrade_testing/provisioning/backends/_ssh.py:144-145 | the wait's failure, or else the key selection's outcome; on success `keyFile` is the selected candidate, on failure unchanged |
| Ssh.SshBackend.FinishLogin | upgrade_testing/provisioning/backends/_ssh.py:146-149 | Pass when the key logs in at once, with no host-key update; otherwise the repair, with the host-key command recorded |
| Ssh.ConnectionOutcome | upgrade_testing/provisioning/backends/_ssh.py:98-104 | passes iff `enable_ssh` and the executor connect both pass; a failed `enable_ssh` is the outcome |
| Ssh.SshBackend.Connect | upgrade_testing/provisioning/backends/_ssh.py:98-104 | a no-op when connected; otherwise the outcome is `ConnectionOutcome` (that of `enable_ssh`, then of the executor's connect), the backend is connected iff it passes, and after a successful wait and key selection `keyFile` is the selected candidate; port, credentials, device address, image and build settings do not change |
| Ssh.SshBackend.Close | upgrade_testing/provisioning/backends/_ssh.py:106-109 | closes the executor only when connected and clears the flag, so a second close does nothing |
| Executors.CommandResult.constructor | upgrade_testing/provisioning/executors.py:32-37 | a fresh result has no status and empty output |
| Executors.DecidesTail | upgrade_testing/provisioning/executors.py:80-96 | channel polls that decide still decide after a non-stopping pass |
| Executors.FirstStop | upgrade_testing/provisioning/executors.py:80-96 | the first pass with no data ready where the status is ready or the deadline has passed |
| Executors.ReceivedPrefix | upgrade_testing/provisioning/executors.py:83-101 | data received over fewer passes is a prefix of the data received over more |
| Executors.ChunkKept | upgrade_testing/provisioning/executors.py:83-101 | every chunk received before the loop ends is in the output, in order |
| Executors.CommandStatus | upgrade_testing/provisioning/executors.py:80-101 | TimeoutError exactly when the loop stops past the deadline with no status ready; otherwise the exit status |
| Executors.CommandOutput | upgrade_testing/provisioning/executors.py:103-108 | the output ends in a line break |
| Executors.SshClient.constructor | upgrade_testing/provisioning/executors.py:43-53 | not connected, nothing run |
| Executors.SshClient.Connect | upgrade_testing/provisioning/executors.py:55-65 | the connect outcome is returned; connected after a success |
| Executors.SshClient.Close | upgrade_testing/provisioning/executors.py:67-69 | no longer connected |
| Executors.SshClient.Run | upgrade_testing/provisioning/executors.py:71-108 | AttributeError when not connected; otherwise the command is run, and the output is all received chunks in order plus a line break |
| Executors.SshClient.Put | upgrade_testing/provisioning/executors.py:110-116 | a missing local file is RuntimeError before any transfer |
| Executors.SshClient.Get | upgrade_testing/provisioning/executors.py:118-124 | the transfer comes first; a local file still absent after it is RuntimeError |
| Executors.SudoCommand | upgrade_testing/provisioning/executors.py:169-173 | `echo pw \| sudo -S cmd` for a truthy password, else `sudo cmd` |
| Executors.StatusCheck | upgrade_testing/provisioning/executors.py:147-155 | PermissionError exactly when the status is positive |
| Executors.ShutdownOutcome | upgrade_testing/provisioning/executors.py:147-155 | command errors propagate; otherwise PermissionError iff the status is positive |
| Executors.FirstSettled | upgrade_testing/provisioning/executors.py:186-202 | the first connect attempt that is not a TypeError |
| Executors.SettledAt | upgrade_testing/provisioning/executors.py:186-202 | the retry stops at the first attempt that is not a TypeError |
| Executors.SettledNever | upgrade_testing/provisioning/executors.py:186-202 | when every attempt is a TypeError, all attempts are used |
| Executors.SshExecutor.constructor | upgrade_testing/provisioning/executors.py:177-178 | a fresh client that is not connected; no password stored |
| Executors.SshExecutor.Connect | upgrade_testing/provisioning/executors.py:180-202 | stores the password; at most max(1, timeout) attempts; TypeError is retried, other errors raised, running out is RuntimeError |
| Executors.ConnectOutcome | upgrade_testing/provisioning/executors.py:186-202 | a success comes from some attempt that passed; max(1, timeout) TypeErrors give RuntimeError; never TypeError |
| Executors.SshExecutor.Close | upgrade_testing/provisioning/executors.py:204-205 | the client is no longer connected |
| Executors.SshExecutor.Run | upgrade_testing/provisioning/executors.py:210-211 | the command runs unchanged |
| Executors.SshExecutor.RunSudo | upgrade_testing/provisioning/executors.py:213-214 | the command runs wrapped by `_get_sudo_command`; AttributeError before `connect` |
| Executors.SshExecutor.Reboot | upgrade_testing/provisioning/executors.py:147-150 | runs `shutdown -r now` through sudo; PermissionError iff the status is positive |
| Executors.SshExecutor.Shutdown | upgrade_testing/provisioning/executors.py:152-155 | runs `shutdown now` through sudo; PermissionError iff the status is positive |
| Qemu.BaseGroup | upgrade_testing/provisioning/backends/_qemu.py:35-38 | the twelve resource words of the launch command |
| Qemu.LaunchWords | upgrade_testing/provisioning/backends/_qemu.py:289-309 | every word of the launch vector of plain parts is non-empty and free of whitespace |
| Qemu.LaunchSplit | upgrade_testing/provisioning/backends/_qemu.py:290-309 | `str.split()` of the appended option texts of plain parts gives their groups in order |
| Qemu.SplitGroups | upgrade_testing/provisioning/backends/_qemu.py:309 | four texts, each its words one space apart, split back into all the words |
| Qemu.DisplayTexts | upgrade_testing/provisioning/backends/_qemu.py:43-46 | the headless and windowed display texts are those word lists |
| Qemu.DisplayWords | upgrade_testing/provisioning/backends/_qemu.py:228-236 | the display words are whitespace-free |
| Qemu.BaseWords | upgrade_testing/provisioning/backends/_qemu.py:35-38 | the base words of whitespace-free parts are non-empty and whitespace-free |
| Qemu.DiskText | upgrade_testing/provisioning/backends/_qemu.py:49-52 | the disk text is `-drive file=<overlay>,cache=unsafe,if=virtio,index=0` or `-drive file=<image_name>,if=virtio` |
| Qemu.DiskWords | upgrade_testing/provisioning/backends/_qemu.py:212-225 | the disk group is two whitespace-free words |
| Qemu.NetText | upgrade_testing/provisioning/backends/_qemu.py:47-48 | the network text is `-net nic,model=virtio -net user`, then the forwarding glued on for a truthy port |
| Qemu.NetWords | upgrade_testing/provisioning/backends/_qemu.py:302-308 | the last network word is `user` or `user,hostfwd=tcp::<port>-:22` |
| Qemu.QemuBackend.GetDisplayArgs | upgrade_testing/provisioning/backends/_qemu.py:227-236 | the words are `-display none -vga qxl` headless, else `-display sdl -vga qxl -soundhw all` |
| Qemu.QemuBackend.GetDiskArgs | upgrade_testing/provisioning/backends/_qemu.py:212-225 | without an overlay the image-name text and no action; with one, the overlay is prepared first and its errors propagate |
| Qemu.QemuBackend.GetQemuLaunchCommand | upgrade_testing/provisioning/backends/_qemu.py:276-309 | the result is `shlex.split` of the launch text, or the overlay's error; for plain parts it fails exactly when the overlay fails and is the four groups in order; the `disk_img` parameter is unused |
| Qemu.LaunchShlex | upgrade_testing/provisioning/backends/_qemu.py:289-309 | `shlex.split` of the launch text of plain parts is the base, disk, display and network groups, in order |
| Qemu.LaunchTextSpaced | upgrade_testing/provisioning/backends/_qemu.py:289-308 | the launch text is the launch words written one space apart |
| Qemu.LaunchMetaFree | upgrade_testing/provisioning/backends/_qemu.py:35-52 | no launch word of plain parts holds a quote or a backslash |
| Strings.ShlexSplitPlain | upgrade_testing/provisioning/backends/_qemu.py:309 | `shlex.split` and `str.split()` give the same tokens on text with no quote, no backslash and only `shlex` whitespace |
| Strings.ShlexRemovesQuotes | upgrade_testing/provisioning/backends/_qemu.py:309 | `shlex.split` removes quotes and keeps the quoted space inside one token |
| Strings.WordsKeepQuotes | upgrade_testing/provisioning/backends/_qemu.py:309 | `str.split()` keeps the quotes and splits at that space, so the two differ on quoted text |
| Strings.ShlexUnclosedQuote | upgrade_testing/provisioning/backends/_qemu.py:309 | an unclosed quote makes `shlex.split` raise ValueError |
| Qemu.CreateOverlayImage | upgrade_testing/provisioning/backends/_qemu.py:164-184 | an existing file is removed, or a missing directory created, then `qemu-img create` backed by the cached image, then `chmod 777`; a failing step stops the rest |
| Qemu.PrepareOrder | upgrade_testing/provisioning/backends/_qemu.py:166-184 | the overlay is created only after the old file is gone or the directory exists, and chmod comes last |
| Qemu.PlainRunArgs | upgrade_testing/provisioning/backends/_qemu.py:153-162 | `qemu -c 2 --ram-size 3072 --timeout-reboot 300 <cache>/<image>` |
| Qemu.PlainRunArgsImage | upgrade_testing/provisioning/backends/_qemu.py:161 | for a relative image name the last word is `CACHE_DIR/image_name` |
| Qemu.QemuBackend.Init | upgrade_testing/provisioning/backends/_qemu.py:65-78 | the SSH defaults, with no working directory, runner or verbosity |
| Qemu.QemuBackend.New | upgrade_testing/provisioning/backends/_qemu.py:65-79 | as the constructor, then the free-port scan |
| Qemu.QemuBackend.SetVerbose | upgrade_testing/provisioning/backends/_base.py:48-49 | the verbosity is set |
| Qemu.QemuBackend.GetAdtRunArgs | upgrade_testing/provisioning/backends/_qemu.py:141-162 | without `keep_overlay` the fixed run arguments and no change; with it, a launched runner and working directory, then Ok iff the SSH connect (`ConnectionOutcome`) passes, its error otherwise, and then the SSH run arguments over the unchanged port, user name, password and device address and the key file the connect selected (or the one already set when connected) |
| Qemu.QemuBackend.StopQemu | upgrade_testing/provisioning/backends/_qemu.py:135-139 | TypeError without a working directory; a read error propagates; ValueError for a non-integer pid; otherwise SIGTERM to the parsed pid, whose outcome is returned (`StopOutcome`, `PidTarget`) |
| Qemu.PidTarget | upgrade_testing/provisioning/backends/_qemu.py:135-139 | a pid only with a working directory whose `qemu.pid` reads, and it is the integer parsed from it |
| Qemu.StopOutcome | upgrade_testing/provisioning/backends/_qemu.py:135-139 | TypeError without a working directory; with a parsed pid, the outcome of the signal to it |
| Qemu.CloseOutcome | upgrade_testing/provisioning/backends/_qemu.py:112-129 | passes iff (the shutdown passes, or it falls back and `stop_qemu` passes) and the working directory is set and removed; a shutdown failure that does not fall back is the outcome |
| Qemu.QemuBackend.Available | upgrade_testing/provisioning/backends/_qemu.py:81-85 | a listing error of the cache directory propagates; otherwise true iff the image is listed |
| Qemu.QemuBackend.Close | upgrade_testing/provisioning/backends/_qemu.py:112-129 | nothing without a runner; otherwise the outcome is `CloseOutcome`, the killed pid is `PidTarget` of the working directory when the shutdown falls back to SIGTERM, the join always happens; on success the working directory is removed, both fields are reset and SSH is closed; a failure leaves the fields as they were |
| Qemu.QemuBackend.CreateAsWritten | upgrade_testing/provisioning/backends/_qemu.py:87-109 | always fails: AttributeError without `set_verbose`, TypeError for the `shell` keyword |
| Qemu.QemuBackend.Create | upgrade_testing/provisioning/backends/_qemu.py:87-109 | after `set_verbose`, the builder command is run, then `autopkgtest-<release>-<arch>.img` is renamed to the image name inside the cache directory; a failed build renames nothing |
| ConfigSpec.ScriptLocationPath | upgrade_testing/configspec/_config.py:86-103 | None stays None; a non-`file://.` location is unchanged; a relative one becomes `file://` plus the absolute path of the provision file's directory joined with it |
| ConfigSpec.ResolvedLocationIsAbsolute | upgrade_testing/configspec/_config.py:93-101 | a resolved location starts with `file:///` |
| ConfigSpec.ScriptLocationIdempotent | upgrade_testing/configspec/_config.py:86-103 | resolving a resolved location changes nothing |
| ConfigSpec.GenerateScriptList | upgrade_testing/configspec/_config.py:106-142 | a list is Ok iff a location is given, and is returned unchanged; a path that is not a directory is ValueError; a directory is Ok iff listing the (location-joined) path succeeds, and its executables are that listing; any non-ValueError is the listing's error |
| ConfigSpec.LoadConfigdef | upgrade_testing/configspec/_config.py:177-186 | ValueError unless the name ends in `.yaml` |
| ConfigSpec.LoadConfigdefRefusesText | upgrade_testing/selftests/test_configspec.py:26-27 | `test.txt` is refused with ValueError |
| ConfigSpec.NewTestSpecification | upgrade_testing/configspec/_config.py:40-69 | a missing key is logged, not raised: without `testname` or `pre_upgrade_scripts` the later attributes stay unset, without `post_upgrade_tests` the post list stays unset; script-list and listing errors propagate, and the result fails exactly when one of the read lists fails |
| ConfigSpec.EntryProvisioning | upgrade_testing/configspec/_config.py:157-167 | without a provision file, `from_testspec` of the entry; with one, its load error or `from_provisionspec` of it; a success is valid and carries that path |
| ConfigSpec.EntrySpecification | upgrade_testing/configspec/_config.py:157-172 | the provisioning's error, or the `TestSpecification` built on it, which carries it |
| ConfigSpec.EntriesValid | upgrade_testing/configspec/_config.py:157-174 | specifications built entry by entry are valid and carry the path they were read from |
| ConfigSpec.DefinitionReader | upgrade_testing/configspec/_config.py:145-174 | load errors propagate; otherwise Ok iff every entry's `EntrySpecification` succeeds, then one specification per entry, in order, equal to it; a failure is the first failing entry's error |
| CommandLine.GetAdtRunCommand | upgrade_testing/command_line.py:191-246 | the head, the words of `adt_args`, the two copies, `--`, then the provisioning and backend arguments; total length 10 + words + both lists |
| CommandLine.Decide | upgrade_testing/command_line.py:277-293 | provision iff (forced or unavailable) and `--provision`; skip iff (forced or unavailable) without it; use the existing backend iff unforced and available |
| CommandLine.RunAndClose | upgrade_testing/command_line.py:298-310 | exits with the run's return code iff the run and `close` succeed |
| CommandLine.SuiteDecision | upgrade_testing/command_line.py:277-293 | a forced provision is decided without asking availability; otherwise an exception from `backend_available` propagates, and its answer decides |
| CommandLine.SuiteAsWritten | upgrade_testing/command_line.py:273-310 | the suite as written: a skip without a name, a provision request and a run all raise AttributeError |
| CommandLine.ProvisionAsWrittenRaises | upgrade_testing/command_line.py:283 | as written, asking for a provision can never create a backend |
| CommandLine.RunAsWrittenRaises | upgrade_testing/command_line.py:181-188 | as written, an available backend is never run: reading `backend_args` raises AttributeError |
| CommandLine.SkipAsWrittenNeedsName | upgrade_testing/command_line.py:286-290 | as written, a suite to skip is skipped iff it has a name; without one it raises AttributeError |
| CommandLine.AsWrittenNeverExits | upgrade_testing/command_line.py:249-310 | as written, a suite that is not skipped always raises |
| CommandLine.SuiteCorrectsAsWritten | upgrade_testing/command_line.py:249-310 | the intended suite differs from the written one only where that raises AttributeError; an available backend exits with the run's code |
| CommandLine.SuiteCases | upgrade_testing/command_line.py:277-310 | skipped iff a backend is needed without `--provision`; a created backend is run and closed; a failed create raises; an exception from `backend_available` ends `main` |
| CommandLine.AvailableNeverCreated | upgrade_testing/command_line.py:277-293 | an available, unforced backend is never created |
| CommandLine.ForcedIgnoresAvailability | upgrade_testing/command_line.py:277-280 | a forced provision does not depend on availability |
| CommandLine.RunMain | upgrade_testing/command_line.py:249-310 | with each suite as intended (`Suite`): a KeyError or ValueError from the reader exits 1, another error escapes; otherwise the first suite not skipped ends `main`, and every earlier suite was skipped |
| WrapperRunner.ScriptLists | wrapper_runner.py:101-103 | KeyError iff `test-details` or one of its two lists is missing |
| WrapperRunner.CopyArgRoundTrip | wrapper_runner.py:130-131 | a copy option splits back into its source and destination |
| WrapperRunner.CopyArgs | wrapper_runner.py:127-139 | one `--copy=s:<dir>s` per script, in order |
| WrapperRunner.GetBackendRunArgs | wrapper_runner.py:152-154 | always `lxc -s adt-precise` |
| WrapperRunner.GetAdtRunCommand | wrapper_runner.py:120-149 | `adt-run -B --user=root --unbuilt-tree=.`, a copy per pre and per post test, the settings copy, `---`, `lxc -s adt-precise`; length 4 + pre + post + 5 |
| WrapperRunner.TextFile.constructor | wrapper_runner.py:95 | a new file is empty |
| WrapperRunner.TextFile.Write | wrapper_runner.py:96-103 | a write appends its text |
| WrapperRunner.AssignmentValue | wrapper_runner.py:100-103 | the quoted value of an assignment is the comma-joined list |
| WrapperRunner.PrepareEnvironment | wrapper_runner.py:95-103 | the header, then `PRE_TESTS_TO_RUN="…"` and `POST_TESTS_TO_RUN="…"`; a missing key stops it with what was already written |
| WrapperRunner.HeaderIsLines | wrapper_runner.py:96-99 | the header is its three lines, each followed by a line break |
| WrapperRunner.SettingsRoundTrip | wrapper_runner.py:95-103 | read back line by line, the settings text gives the header, the two assignments, and the comma-split lists give the scripts back |
| WrapperRunner.LinesRoundTrip | wrapper_runner.py:95-103 | lines each ended by a line break split back into those lines |
| WrapperRunner.AssignmentLineOneLine | wrapper_runner.py:100-103 | an assignment is one line when no script name holds a line break |
| WrapperRunner.IssuesEmpty | wrapper_runner.py:72-86 | no issue is recorded iff every definition names a backend |
| WrapperRunner.EnsureBackendsAvailable | wrapper_runner.py:54-92 | never raises; the recorded issues are empty iff every definition has a backend |

## Left out

- I/O is not modelled. This covers sockets, pexpect sessions, paramiko transports and SFTP, subprocesses, `os.kill`, `shutil.rmtree`, `tempfile`, logging and `print`. Each appears only as a parameter that gives the outcome.
- Time is not modelled. `time.time`, `time.sleep` and the `retrying` decorator's delays become a clock value per pass or an attempt count.
- The QEMU launch thread (`launch_qemu`, `_launch_qemu`) is concurrency. The model records only the working directory and that a runner is active.
- `get_qemu_path` and `get_architecture` call `which` and `dpkg`. The qemu path is a parameter.
- `_util.py`, `_hostprep.py`, `_filecopy.py`, `_lxc.py`, `_base.py` and `backends/__init__.py` are not part of this model. The exception is `set_verbose` from `_base.py`.
- `backends/__init__.py:19` imports `_lxc`, and `_lxc.py:57` (`return return [...]`) is a SyntaxError. So the import of `backends` at `_provisionconfig.py:23` already fails, before the AttributeError that `backends.QemuBackend` (`_provisionconfig.py:154`) would raise, since `backends/__init__.py` exports only `LXCBackend`. The model follows the unit tests (`test_provisionconfig.py:144-163`), which expect construction to succeed. It does not build a backend object inside a specification.
- `display_results`, `get_output_dir`, `setup_logging` and `parse_args` of `command_line.py` are left out. So are the `prepare_test_environment` context manager and `execute_adt_run`'s subprocess.
- `get_testbed_storage_location` is not part of this model, so its value is a parameter of `CommandLine.GetAdtRunCommand`.
- YAML loading is left out; the parsed value is a parameter. `_get_executable_files` is an oracle that gives the executables of a directory, or the error `os.listdir` raises on it; the `isfile`/`access` test of each entry is inside the oracle.
- Only strings and lists are modelled for the script fields of a test definition.
- `wrapper_runner.py`'s `main`, `get_test_def_file` and `execute_adt_run` are left out. So is its undefined `logger`.
- `WrapperRunner.EnsureBackendsAvailable`: the source returns None and discards its issue list. The model returns that list so that a contract can describe it.
- `ProvisionConfig.ReplacePlaceholders`: `re.sub` is modelled as literal replacement. That matches `re.sub` only when token names are word characters and values contain no backslash. The lemmas require word-character tokens and `$`-free values (`PlainLookup`) but do not exclude backslashes, so for a value with a backslash they describe literal replacement, where `re.sub` would interpret the escape.
- `ProvisionConfig.SortDescending`: Python sorts by code point; the model compares `char` values, which agree on that order.
- `Qemu.QemuBackend.StopQemu`: the pid text is parsed as ASCII decimal digits with an optional sign, after stripping the whitespace of `str.isspace`. Python's `int()` also accepts underscore digit groups and non-ASCII digits; the model does not.
- `Ssh.SshBackend.GetAdtRunArgs` requires the key file to be set. In the source a None key file would appear in the list as `None`.
- `Qemu.QemuBackend.Close`: the outcome of the SSH `shutdown` is a parameter. The model does not run `Executors.SshExecutor.Shutdown` from inside `close`.
- `ProvisionConfig.RenderParts` and the lemmas built on it are proved for texts whose every reference is followed by the end or by literal text starting with a non-word character. Adjacent references such as `$A$B` are outside them; `Render` itself is defined on every text.
- `Touch.Create`: `run_command_with_logged_output` is not part of this model. Whether each command could be started is a parameter; the command's exit code is ignored, as in the source.
- `Ssh.SshBackend.EnableSsh`: the host-key command is run with `subprocess.call`, whose status the source ignores; the model records the command, not its outcome.
- `Qemu.QemuBackend.GetQemuLaunchCommand`: its result is `shlex.split` of the launch text for every input, but the launch vector is proved only for parts with no whitespace, quote (`'`, `"`) or backslash (`PlainLaunchParts`). On such parts `shlex.split` and `str.split` agree. Other parts can merge or split tokens, or raise ValueError.
- The printing of the password in `close` and of the launch command is left out.
- Python exception messages are not modelled, only their kinds.

## Findings

| source | as written | input that shows it | evidently intended | confidence | as-written member | corrected member |
|---|---|---|---|---|---|---|
| upgrade_testing/provisioning/backends/_touch.py:213-216 | the revision is passed as keyword `revison`, which `format_device_state_string` does not take | a device reporting `channel:c` and `version_version:v` | keyword `revision`, giving state `c:v` | high; not executed | Touch.DeviceCurrentStateAsWritten (shown by Touch.ReportedStateLookup) | Touch.DeviceCurrentState |
| upgrade_testing/command_line.py:283 | `set_verbose` is called on the provisioning specification, which has no such method, so AttributeError is raised | `--provision` with an unavailable or forced backend | verbosity set on the backend, then `create` | high; not executed | CommandLine.SuiteAsWritten (shown by CommandLine.ProvisionAsWrittenRaises) | CommandLine.Suite |
| upgrade_testing/provisioning/backends/_qemu.py:98-102 | `self.verbose` is read even when `set_verbose` was never called, and `shell=True` is passed to `run_command_with_logged_output`, which takes only `command` (`_util.py:25`) | any `create` call | after `set_verbose`, the build runs through a shell and the built image is renamed | high; not executed | Qemu.QemuBackend.CreateAsWritten | Qemu.QemuBackend.Create |
| upgrade_testing/command_line.py:185 | `execute_adt_run` reads `testsuite.backend_args`, which `TestSpecification` never sets (`_config.py:40-69`), so AttributeError is raised before autopkgtest starts | any suite whose backend is available and not forced | the default of `get_adt_run_command`, no extra backend arguments, then the run and `close` | high; not executed | CommandLine.SuiteAsWritten (shown by CommandLine.RunAsWrittenRaises and CommandLine.AsWrittenNeverExits) | CommandLine.Suite |
| upgrade_testing/command_line.py:288 | the skip message reads `testsuite.name`, which is unset when the definition had no `testname` (`_config.py:44-51`), so AttributeError escapes instead of the suite being skipped | a definition without `testname` whose backend is unavailable, without `--provision` | the suite is skipped and the loop goes on | high; not executed | CommandLine.SuiteAsWritten (shown by CommandLine.SkipAsWrittenNeedsName) | CommandLine.Suite |
