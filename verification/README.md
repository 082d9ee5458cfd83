# local-ssh-action, modelled in Dafny

local-ssh-action is a GitHub Action that runs commands on a remote host over
`ssh`. Its logic is Rust compiled to WebAssembly (src/lib.rs). The Rust code
calls back into JavaScript for everything it does to the outside world. Those
helpers live in js/ffi.cjs: spawning a child process, busy-waiting, retrying a
probe command until it succeeds or a timeout passes, and ending the process.

One run of the action does four things in order:
1. Optionally changes the local working directory (`pre-local-workdir`).
2. Optionally runs a local command (`pre-local-cmd`) and reports `pre-local-cmd-success`.
3. Reads the remaining inputs into an `InputConfig`.
4. Runs the remote stages: an optional sleep, an optional connectivity probe, the main command (`run`) and an optional `post-run` command.

The remote stages report `main-run-success` and `post-run-success`. A failure
that is not allowed ends the process with code 1. An older JavaScript entry
point, lib/index.js, builds a plain `ssh` command line from `host`, a
multi-line `args` input and `run`.

The project is eight modules, one file each:

| file | module | what it models |
|---|---|---|
| wrappers.dfy | `Wrappers` | `Option` and `Outcome` |
| strings.dfy | `Strings` | `str::trim`, `String.prototype.trim`, `to_ascii_lowercase` and `u32::from_str`, used throughout |
| ffi.dfy | `Ffi` | js/ffi.cjs: the `spawnCmd` success rule, the `sleep` busy-wait and the `retryCommandWithinTime` loop |
| host.dfy | `HostEnv` | The functions src/lib.rs imports, as a `Host` class that appends one `Event` to its `trace` per call. Child exit statuses and probe results come from an oracle, `World`, indexed by trace position. |
| config.dfy | `Config` | `not_empty_or`, `parse_gh_bool`, `parse_gh_num` and `get_main_input_config` |
| connection.dfy | `Connection` | `ssh_connection`. Each stage is a method; `SshConnection` is proved to make exactly the requests `ConnectionEvents` describes, and lemmas state the failure policy. |
| pre_stage.dfy | `PreStage` | `split_shell_cmd`, `run_pre_local_cmd` in both of its copies, and `set_pre_local_workdir` |
| legacy.dfy | `Legacy` | lib/index.js: the host fallback, the line pipeline over `args`, the final argument order and the close handler |

The shell tokenizer (the `shlex` crate) is a parameter, `Tokenizer`, which the model leaves uninterpreted. The action's inputs are a map from input name to the string `getInput` returns.

Where the code and the expected behaviour disagree, the model follows the code:
- `not_empty_or` (src/lib.rs:158-163) returns the input untrimmed when it is not blank, not trimmed.
- When a main or post run fails and failure is not allowed, `node_exit(Some(1))` is called inside the error handler. The process ends before the stage's status output is written, so that output is never reported.
- `pre-exit-cmd` can resolve to an empty token list if the tokenizer yields none. Only the exact text `exit` skips the tokenizer; ` exit` with surrounding blanks goes through it, because `not_empty_or` does not trim.
- Both copies of `run_pre_local_cmd` pass the `pre-local-cmd-async` flag to `spawnCmd` as its `sync` parameter. With the default, `true`, the local command therefore runs synchronously, and `false` makes it asynchronous. `PreStage.AsyncFlagIsSync` states this.
- src/lib.rs declares only `mod wasm;`. Nothing in the crate includes src/pre_stage.rs, so the copy that is built is the one in src/lib.rs. Both copies are modelled.

## Model

| member | source | states |
|---|---|---|
| Strings.Trim | src/lib.rs:159 | The trimmed text is the slice of the input between a prefix and a suffix made only of dropped characters. When non-empty, it starts and ends with a character that is kept. A text that already starts and ends with such characters is returned unchanged. |
| Strings.RustTrim | src/lib.rs:159 | `str::trim` returns the slice of the input between a prefix and a suffix of Unicode white space, and a non-empty result neither starts nor ends with white space. |
| Strings.TrimEmptyIffAll | src/lib.rs:159 | Trimming leaves nothing exactly when every character is white space. |
| Strings.TrimEmptyIffBlank | src/lib.rs:166-167 | `s.trim()` is `""` exactly when `s` is blank. This is the test every input reader makes. |
| Strings.JsTrim | lib/index.js:12 | `String.prototype.trim` returns the slice of the input between a prefix and a suffix of JavaScript white space and line terminators, and a non-empty result neither starts nor ends with one. |
| Strings.LowerChar | src/lib.rs:170 | `A`..`Z` move to `a`..`z` by the ASCII offset; every other character is unchanged. |
| Strings.AsciiLower | src/lib.rs:170 | Lowering keeps the length and lowers each character in place. |
| Strings.AsciiLowerOfLower | src/lib.rs:170 | A text without upper-case ASCII letters is its own lower-case form. |
| Strings.ParseU32 | src/lib.rs:182 | Parsing succeeds exactly for an optional `+` followed by at least one digit whose value fits in 32 bits. The result is that value. |
| Strings.Decimal | src/lib.rs:182 | The decimal text of a number is non-empty and made of digits. |
| Strings.DecimalValue | src/lib.rs:182 | Reading back the decimal text of a number gives that number. |
| Strings.ParseDecimal | src/lib.rs:182 | `u32::from_str` inverts the decimal text of every `u32`, with or without a leading `+`. |
| Strings.ParseOverflow | src/lib.rs:182 | The decimal text of 2^32 is rejected. |
| Ffi.SpawnCmd | js/ffi.cjs:12-36 | Asynchronous mode never throws at the call. In synchronous mode it returns normally exactly when the status is 0, so a null status throws. The error carries the command, arguments, status and mode. |
| Ffi.Sleep | js/ffi.cjs:51-54 | Returns at the first clock reading that is at or past the start reading plus `time * 1000` ms. Every reading before that one was earlier than the end time. |
| Ffi.AttemptCode | js/ffi.cjs:72-79 | A thrown spawn error leaves `code` at 2, and a returned `spawnSync` gives its status. So only a child that ended with status 0 gives code 0. |
| Ffi.RetryCommandWithinTime | js/ffi.cjs:68-90 | The loop keeps retrying while it may. The ghost `guards` lists the guard readings, the first one right after the start reading. One `sleep(1)` separates each guard from the next. There is one guard before every attempt, and each of those was within the timeout. The result is true exactly when the last attempt succeeded, after which nothing more is read. Every earlier attempt failed. False means there is one guard more than attempts, and that last guard is past the timeout. So there is at least one attempt exactly when the first guard is within the timeout, and at most `timeout + 1` attempts. |
| Ffi.Backoff | js/ffi.cjs:71-84 | After a failed attempt, `sleep(1)` and the next guard reading extend the guard chain. The new guard is at least one second after the one that started the round. |
| Ffi.NextGuardIsUnique | js/ffi.cjs:51-54 | Where one `sleep(1)` ends is fixed by the clock, so each guard reading determines the next, and the clock fixes the whole sequence of guards. |
| HostEnv.GetInput | src/lib.rs:34-35 | An input that was not given reads as the empty string; a given one reads as its value. |
| HostEnv.Host.SetOutput | src/lib.rs:40-41 | Appends the output event and nothing else; the host stays live. |
| HostEnv.Host.Sleep | src/lib.rs:58-59 | Appends the sleep event and nothing else. |
| HostEnv.Host.Chdir | src/lib.rs:49-50 | Appends the change of directory and nothing else. |
| HostEnv.Host.SpawnCmd | src/lib.rs:55-56 | Appends the spawn event. The result is `Ffi.SpawnCmd`'s outcome for the status the world gives that position, with a thrown error caught as `Err`. |
| HostEnv.Host.RetryCommandWithinTime | src/lib.rs:64-66 | Appends the probe event; the result is the world's answer for that position. |
| HostEnv.Host.NodeExit | src/lib.rs:61-62 | Appends the exit event and nothing else. |
| Config.NotEmptyOr | src/lib.rs:158-163 | Returns the default exactly when the input is blank, otherwise the input unchanged and untrimmed. A non-blank default gives a non-blank result. |
| Config.WrapOpt | src/lib.rs:188-191 | Absent exactly when the input is blank; otherwise the untrimmed input. |
| Config.ParseBool | src/lib.rs:168-169 | `bool::from_str` accepts exactly `true` and `false`, case-sensitive. |
| Config.StrictParseAgreesWithTable | src/lib.rs:168-172 | The two texts `bool::from_str` accepts are already lower case and sit in the matching keyword set, so trying the strict parse first never changes the answer. |
| Config.ReadBool | src/lib.rs:166-176 | Empty text gives the default. A false keyword, in any ASCII case, gives false and a true keyword gives true. Anything else gives the default. |
| Config.ParseGhBool | src/lib.rs:165-177 | The same decision, stated on the trimmed input. |
| Config.GhBoolIgnoresCase | src/lib.rs:170-172 | Two inputs that agree after trimming and ASCII lowering read as the same boolean. |
| Config.ParseGhNum | src/lib.rs:179-184 | 0 for a blank input or one `u32::from_str` rejects; otherwise the parsed value. |
| Config.GhNumReadsDecimal | src/lib.rs:179-184 | A number written in decimal, with or without surrounding blanks, reads back as itself. |
| Config.GetMainInputConfig | src/lib.rs:187-226 | Each field is resolved from its input. `ssh-bin` and `host` are `not_empty_or` of their inputs with defaults `ssh` and `127.0.0.1`, so they are never blank. `args` is present exactly when its input is not blank, and is then the tokens of that input. `pre-exit-cmd` is `["exit"]` when it resolves to `exit`, otherwise the tokens of the input. The numbers and flags come from their readers, with defaults false and true for the two failure flags. |
| Config.ExitDefaultBypassesTokenizer | src/lib.rs:201-204 | When `pre-exit-cmd` resolves to `exit`, the probe command is `["exit"]` whatever the tokenizer does. |
| Config.DefaultConfig | src/lib.rs:187-226 | With no inputs at all, every setting takes its default. |
| Connection.BaseArgs | src/lib.rs:251-257 | The base argument list ends with the host. |
| Connection.ProbeArgs | src/lib.rs:259-261 | The probe list is the base followed by exactly the `pre_exit_cmd` tokens. |
| Connection.MainArgs | src/lib.rs:273-278 | The main list is the base alone when `run` is blank; otherwise the base followed by one more argument, `run` as given. |
| Connection.PostArgs | src/lib.rs:291-293 | The post list is the base followed by one more argument, the post command. |
| Connection.SleepStage | src/lib.rs:246-249 | Sleeps `pre_sleep` seconds exactly when it is positive. |
| Connection.ProbeStage | src/lib.rs:259-271 | Probes with the base plus `pre_exit_cmd` exactly when `pre_timeout` is positive. A failed probe appends an exit with code 1 and stops the run. |
| Connection.MainStage | src/lib.rs:273-289 | Spawns the main list. Carries on exactly when the run succeeded or its failure is allowed. A failure that is not allowed exits before any status output. |
| Connection.PostStage | src/lib.rs:291-306 | With a post-run command, spawns the base plus that command and then reports or exits as the main stage does. Without one, does nothing. |
| Connection.SshConnection | src/lib.rs:229-307 | Builds the base list by `extend` and `push` and runs the stages in order. The requests it makes are exactly `ConnectionEvents`. |
| Connection.ConnectionEvents | src/lib.rs:229-307 | A run makes the sleep and probe requests first and always at least one request after them. Its last request is either an exit with code 1 or a status output. |
| Connection.StageArgsShareBase | src/lib.rs:251-294 | The probe, main and post lists all start with the same base. The post list never holds the main command, provided the two commands differ and the main command is not in the base. Likewise the main list never holds the post command, provided they differ and the post command is not in the base. |
| Connection.PreStagesOnly | src/lib.rs:246-271 | The only sleep is `pre_sleep` seconds, present exactly when that is positive and then first. The only probe is the probe command with `pre_timeout`, present exactly when that is positive. |
| Connection.PreQuiet | src/lib.rs:246-271 | The sleep and probe stages make no request of any other kind. |
| Connection.PreSilent | src/lib.rs:246-271 | The sleep and probe stages write no output. |
| Connection.PreIsQuiet | src/lib.rs:246-271 | Before the main run nothing is spawned, nothing exits and no status is written. |
| Connection.ProbeFailureAborts | src/lib.rs:265-270 | A failed probe exits with code 1 as the last request. Nothing is spawned and no status output is written. |
| Connection.MainFailureAborts | src/lib.rs:281-287 | A failed main run whose failure is not allowed is the only spawn. It is followed by an exit with code 1 as the last request, and neither status output is written. |
| Connection.MainOnly | src/lib.rs:273-289 | Without a post run, a main run that does not abort is the only spawn. `main-run-success` is written once, `true` exactly when the run succeeded, and there is no exit. |
| Connection.PostFailureAborts | src/lib.rs:291-306 | The post run is spawned second with the post list. If it fails and failure is not allowed, the run exits with code 1 as the last request and `post-run-success` is never written. |
| Connection.BothReported | src/lib.rs:273-306 | Otherwise both status outputs are written once, each `true` exactly when its run succeeded, and there is no exit. |
| Connection.ExitOnlyLast | src/lib.rs:229-307 | A run exits at most once, always with code 1, and the exit is its last request. |
| Connection.WorkedExample | src/lib.rs:229-307 | With `args` `-p 2222`, host `example.com` and `run` `uptime`, the run spawns `ssh -p 2222 example.com uptime` and reports `true`. |
| Connection.WorkedExampleFromInputs | src/lib.rs:187-226 | The same run, starting from the action's inputs. |
| PreStage.SplitShellCmd | src/pre_stage.rs:13-25 | Nothing for a blank command, or for one whose trimmed text has no tokens. Otherwise the first token and the remaining tokens, in order, which together are exactly the tokens. |
| PreStage.BlankEvents | src/pre_stage.rs:37-39 | An empty command writes `false` in src/pre_stage.rs and nothing in src/lib.rs. |
| PreStage.NoTokenEvents | src/pre_stage.rs:49-51 | A command with no tokens writes `false` and spawns nothing, in both copies. |
| PreStage.RanEvents | src/pre_stage.rs:53-63 | A command with tokens is spawned with the async flag as `sync`, and both copies continue from the spawn's outcome. |
| PreStage.AfterSpawn | src/pre_stage.rs:55-63 | After the spawn, src/pre_stage.rs first writes the spawn's outcome as the status. It makes at most one more request, and ends with an exit with code 1 exactly for a failure that is not allowed. |
| PreStage.AfterSpawnLib | src/lib.rs:128-135 | After the spawn, src/lib.rs also first writes the spawn's outcome and makes at most one more request. It ends with an exit with code 1 exactly for a failure that is not allowed. |
| PreStage.PreLocalEvents | src/pre_stage.rs:28-64 | src/pre_stage.rs makes one to three requests. The first is a spawn exactly when the input splits into a command. The last is an exit with code 1 exactly when that command failed and failure is not allowed. |
| PreStage.PreLocalEventsLib | src/lib.rs:101-136 | src/lib.rs makes no request exactly when the input is blank, and at most three otherwise. The first is a spawn exactly when there is a command. The last is an exit with code 1 exactly when that command failed and failure is not allowed. |
| PreStage.SpawnAndReport | src/pre_stage.rs:55-63 | A failure writes `false`, exits with code 1 unless allowed, and returns; a success writes `true`. |
| PreStage.SpawnAndReportLib | src/lib.rs:128-135 | A failure writes `false` and exits with code 1 unless allowed; otherwise control reaches the final `true`. |
| PreStage.RunPreLocalCmd | src/pre_stage.rs:28-64 | Makes exactly the requests `PreLocalEvents` describes. |
| PreStage.RunPreLocalCmdLib | src/lib.rs:101-136 | Makes exactly the requests `PreLocalEventsLib` describes. |
| PreStage.SetPreLocalWorkdir | src/pre_stage.rs:67-84 | Changes directory to the untrimmed input unless it is blank, and leaves the host live. |
| PreStage.WorkdirEvents | src/pre_stage.rs:67-84 | At most one directory change, made exactly when the input is not blank, to the input as given. |
| PreStage.AfterSpawnFacts | src/pre_stage.rs:55-63 | After a spawn, src/pre_stage.rs writes one status, the spawn's outcome, and exits only for a failure that is not allowed. src/lib.rs writes `false` then `true` for a tolerated failure. |
| PreStage.PreLocalReportsOnce | src/pre_stage.rs:28-64 | `pre-local-cmd-success` is written exactly once on every path, `true` exactly when the command ran and `spawnCmd` did not throw. Only the split command is spawned. The run exits with code 1 exactly when that command failed and failure is not allowed. |
| PreStage.LibDiffersOnlyInOutputs | src/lib.rs:101-136 | The src/lib.rs copy spawns and exits exactly as src/pre_stage.rs does. It writes nothing for an empty command and `false` then `true` after a tolerated failure; otherwise it writes the same. |
| PreStage.LibReportsTrueAfterFailure | src/lib.rs:128-135 | After a tolerated failure, src/lib.rs writes `false` then `true`, while src/pre_stage.rs writes `false` once. |
| PreStage.LocalFlagDefaults | src/pre_stage.rs:46-47 | Both local flags are true when not given. |
| PreStage.AsyncFlagIsSync | src/pre_stage.rs:46-55 | With the flag true, the status is `true` exactly when the command exits with 0. With it false, `true` is written whatever the command later does. |
| PreStage.WorkdirOnlyWhenGiven | src/pre_stage.rs:73-82 | The directory changes exactly when the trimmed input is non-empty, and then to the input as given. |
| Legacy.NextBreak | lib/index.js:11 | The first CR or LF at or after a position, or the end of the text. |
| Legacy.SkipBreaks | lib/index.js:11 | The end of the maximal run of CR and LF starting at a position. A run that starts with a break advances. |
| Legacy.SplitLines | lib/index.js:11 | Splitting on runs of CR/LF gives at least one piece. No piece holds a break, and every piece except the first and the last is non-empty. A text without a break, the empty text included, is a single piece. |
| Legacy.SplitLinesStep | lib/index.js:11 | A text with a break splits into the text before it and the pieces after the whole run. |
| Legacy.RemoveBreaksAround | lib/index.js:11 | Removing the breaks keeps the break-free part before a run of breaks and continues after the run. |
| Legacy.SplitLinesKeepsText | lib/index.js:11 | Splitting loses exactly the line breaks: the pieces, joined, are the input without its CR and LF. |
| Legacy.TrimEach | lib/index.js:12 | Each line is replaced by its trimmed form, in place. |
| Legacy.KeepLines | lib/index.js:13 | The filter keeps at most as many lines as it is given, and no kept line matches the pattern. |
| Legacy.KeepLinesMembers | lib/index.js:13 | A line is kept exactly when it was given and does not start with white space or `#` and is not empty. |
| Legacy.KeepLinesAppend | lib/index.js:13 | The filter keeps the relative order of the lines it keeps. |
| Legacy.LeadingSpaceAlternativeIsRedundant | lib/index.js:12-13 | After trimming, a line is dropped exactly when it is empty or starts with `#`. |
| Legacy.LineArgs | lib/index.js:10-13 | There are at most as many arguments as lines, and each is non-empty and does not start with `#`. |
| Legacy.LineArgsAreCleanLines | lib/index.js:10-13 | Every argument taken from `args` is a whole trimmed line of the input. It is non-empty, does not start with `#` and neither starts nor ends with white space. |
| Legacy.LegacyHost | lib/index.js:6 | `127.0.0.1` exactly when the `host` input is empty; otherwise the input itself. |
| Legacy.LegacyCommand | lib/index.js:4-18 | Spawns `ssh` with the kept lines, then the host, then `run`, which is appended even when empty. |
| Legacy.OnClose | lib/index.js:28-33 | Exits normally, with 0, exactly when the close code is 0; any other code, null included, throws. |

## Left out

- The bodies of the imported host functions (`getInput`, `setOutput`, `cwd`, `chdir`) are events in a trace. `chdir`'s resolution of a relative path is not modelled, nor is a `chdir` that throws.
- The `shlex` tokenizer is an uninterpreted parameter.
- The logger (`init_logger`, the `log` macros, `test_sleep_2s`) is diagnostic only.
- The `cfg!(debug_assertions)` demo literals are left out; only the release path is modelled.
- The asynchronous branch of `spawnCmd` is left out. Its failure is thrown later, from a `close` callback, which is concurrency. The model treats that call as returning normally.
- Real time is left out. `Date.now()` and `new Date()` are readings of an abstract monotone clock that eventually passes every instant. Whether a probe gets through is an oracle, `World.probe`, not derived from `Ffi.RetryCommandWithinTime`.
- The standard output and error piping in lib/index.js is I/O.
- js/index.js only calls the entry points in order (`set_pre_local_workdir`, `run_pre_local_cmd`, `get_main_input_config`, `ssh_connection`); that wiring is not composed into one trace.
- `getInput` trims its result by default. The model reads inputs as `getInput` returns them, so the Rust `trim()` calls are modelled on whatever text arrives.
- The Rust code tests `x.trim() == ""`. The model tests the predicate `Strings.Blank`, and `Strings.TrimEmptyIffBlank` proves the two agree.
- `node_exit` takes an `Option<u8>`; the model only ever passes 1, as the source does.
- The `ssh` child that lib/index.js spawns is not run: `Legacy.LegacyCommand` yields the program and its argument list.

## Findings

| source | as written | input that shows it | evidently intended | confidence | as-written member | corrected member |
|---|---|---|---|---|---|---|
| src/lib.rs:128-135 | A failure of `pre-local-cmd` that is allowed writes `pre-local-cmd-success=false`. The error closure then returns, and control falls through to `set_output(true)`, so the last value written is `true`. | `pre-local-cmd` = `false` (a command that exits with 1), `allow-pre-local-cmd-failure` and `pre-local-cmd-async` left empty (both default to true) | Write `false` once and return, as the copy in src/pre_stage.rs:55-62 does | not executed | PreStage.LibReportsTrueAfterFailure | PreStage.PreLocalReportsOnce |
