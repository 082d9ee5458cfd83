/**
 * The local pre-stage: `split_shell_cmd`, `run_pre_local_cmd` and
 * `set_pre_local_workdir`. The repository holds two copies of the first two,
 * one in src/lib.rs and one in src/pre_stage.rs, and they differ in two places:
 * what an empty `pre-local-cmd` writes, and what a tolerated spawn failure
 * writes. Both copies are modelled; each method is proved to make exactly the
 * requests its event function describes, and the lemmas compare the two.
 */
module PreStage {
  import opened Wrappers
  import opened Strings
  import opened HostEnv
  import opened Config
  import Ffi

  const PreLocalKey := "pre-local-cmd-success"

  /**
   * `split_shell_cmd`: nothing for a blank command; otherwise the tokens of the
   * trimmed text, the first as the program and the rest as its arguments, or
   * nothing when there are no tokens.
   */
  function SplitShellCmd(raw: string, shlex: Tokenizer): (r: Option<(string, seq<string>)>)
    ensures Blank(raw) ==> r.None?
    ensures !Blank(raw) ==> (r.None? <==> shlex(RustTrim(raw)) == [])
    ensures r.Some? ==> [r.value.0] + r.value.1 == shlex(RustTrim(raw))
  {
    TrimEmptyIffBlank(raw);
    var trimmed := RustTrim(raw);
    if trimmed == "" then None
    else
      var tokens := shlex(trimmed);
      if tokens == [] then None
      else
        assert [tokens[0]] + tokens[1..] == tokens;
        Some((tokens[0], tokens[1..]))
  }

  /** The command `run_pre_local_cmd` runs, if any. */
  function LocalCmd(inputs: Inputs, shlex: Tokenizer): Option<(string, seq<string>)> {
    SplitShellCmd(GetInput(inputs, "pre-local-cmd"), shlex)
  }

  /** `allow-pre-local-cmd-failure`, true when not given. */
  function LocalAllow(inputs: Inputs): bool {
    ParseGhBool(inputs, "allow-pre-local-cmd-failure", true)
  }

  /** `pre-local-cmd-async`, true when not given; both copies hand it to `spawnCmd` as `sync`. */
  function LocalSync(inputs: Inputs): bool {
    ParseGhBool(inputs, "pre-local-cmd-async", true)
  }

  /** Whether the local command was run and `spawnCmd` returned without throwing. */
  predicate LocalOk(inputs: Inputs, shlex: Tokenizer, w: World, pos: nat) {
    match LocalCmd(inputs, shlex)
    case None => false
    case Some((cmd, args)) => Ffi.SpawnCmd(cmd, args, LocalSync(inputs), w.status(pos)).Pass?
  }

  /** The requests after the spawn in src/pre_stage.rs: the status, then an exit
      with code 1 for a failure that is not allowed. */
  function AfterSpawn(ok: bool, allow: bool): (r: seq<Event>)
    ensures 1 <= |r| <= 2 && r[0] == Output(PreLocalKey, BoolText(ok))
    ensures r[|r| - 1] == Exited(1) <==> !ok && !allow
  {
    if ok then [Output(PreLocalKey, "true")]
    else if allow then [Output(PreLocalKey, "false")]
    else [Output(PreLocalKey, "false"), Exited(1)]
  }

  /** The requests after the spawn in src/lib.rs: the error handler writes `false` and,
      when the failure is allowed, control falls through to the final `true`. */
  function AfterSpawnLib(ok: bool, allow: bool): (r: seq<Event>)
    ensures 1 <= |r| <= 2 && r[0] == Output(PreLocalKey, BoolText(ok))
    ensures r[|r| - 1] == Exited(1) <==> !ok && !allow
  {
    if ok then [Output(PreLocalKey, "true")]
    else if allow then [Output(PreLocalKey, "false"), Output(PreLocalKey, "true")]
    else [Output(PreLocalKey, "false"), Exited(1)]
  }

  /** What `run_pre_local_cmd` of src/pre_stage.rs asks of the host, starting at trace position `pos`. */
  function PreLocalEvents(inputs: Inputs, shlex: Tokenizer, w: World, pos: nat): (r: seq<Event>)
    ensures 1 <= |r| <= 3
    ensures r[0].Spawned? <==> LocalCmd(inputs, shlex).Some?
    ensures r[|r| - 1] == Exited(1)
      <==> LocalCmd(inputs, shlex).Some? && !LocalOk(inputs, shlex, w, pos) && !LocalAllow(inputs)
  {
    if Blank(GetInput(inputs, "pre-local-cmd")) then [Output(PreLocalKey, "false")]
    else match LocalCmd(inputs, shlex)
      case None => [Output(PreLocalKey, "false")]
      case Some((cmd, args)) =>
        [Spawned(cmd, args, LocalSync(inputs))] + AfterSpawn(LocalOk(inputs, shlex, w, pos), LocalAllow(inputs))
  }

  /** What `run_pre_local_cmd` of src/lib.rs asks of the host: nothing at all for an empty command. */
  function PreLocalEventsLib(inputs: Inputs, shlex: Tokenizer, w: World, pos: nat): (r: seq<Event>)
    ensures |r| <= 3
    ensures r == [] <==> Blank(GetInput(inputs, "pre-local-cmd"))
    ensures r != [] ==> (r[0].Spawned? <==> LocalCmd(inputs, shlex).Some?)
    ensures r != [] && r[|r| - 1] == Exited(1)
      <==> LocalCmd(inputs, shlex).Some? && !LocalOk(inputs, shlex, w, pos) && !LocalAllow(inputs)
  {
    if Blank(GetInput(inputs, "pre-local-cmd")) then []
    else match LocalCmd(inputs, shlex)
      case None => [Output(PreLocalKey, "false")]
      case Some((cmd, args)) =>
        [Spawned(cmd, args, LocalSync(inputs))] + AfterSpawnLib(LocalOk(inputs, shlex, w, pos), LocalAllow(inputs))
  }

  lemma BlankEvents(inputs: Inputs, shlex: Tokenizer, w: World, pos: nat)
    requires Blank(GetInput(inputs, "pre-local-cmd"))
    ensures PreLocalEvents(inputs, shlex, w, pos) == [Output(PreLocalKey, "false")]
    ensures PreLocalEventsLib(inputs, shlex, w, pos) == []
  {
  }

  lemma NoTokenEvents(inputs: Inputs, shlex: Tokenizer, w: World, pos: nat)
    requires !Blank(GetInput(inputs, "pre-local-cmd"))
    requires shlex(RustTrim(GetInput(inputs, "pre-local-cmd"))) == []
    ensures PreLocalEvents(inputs, shlex, w, pos) == [Output(PreLocalKey, "false")]
    ensures PreLocalEventsLib(inputs, shlex, w, pos) == [Output(PreLocalKey, "false")]
  {
  }

  lemma RanEvents(inputs: Inputs, shlex: Tokenizer, w: World, pos: nat, cmd: string, args: seq<string>)
    requires !Blank(GetInput(inputs, "pre-local-cmd")) && LocalCmd(inputs, shlex) == Some((cmd, args))
    ensures LocalOk(inputs, shlex, w, pos) <==> Ffi.SpawnCmd(cmd, args, LocalSync(inputs), w.status(pos)).Pass?
    ensures PreLocalEvents(inputs, shlex, w, pos)
      == [Spawned(cmd, args, LocalSync(inputs))] + AfterSpawn(LocalOk(inputs, shlex, w, pos), LocalAllow(inputs))
    ensures PreLocalEventsLib(inputs, shlex, w, pos)
      == [Spawned(cmd, args, LocalSync(inputs))] + AfterSpawnLib(LocalOk(inputs, shlex, w, pos), LocalAllow(inputs))
  {
  }

  /** The spawn and what follows it in src/pre_stage.rs: a failure writes `false`,
      exits with code 1 unless allowed, and returns without writing `true`. */
  method SpawnAndReport(h: Host, cmd: string, args: seq<string>, sync: bool, allow: bool)
    requires h.Live()
    modifies h
    ensures h.trace == old(h.trace) + [Spawned(cmd, args, sync)]
      + AfterSpawn(Ffi.SpawnCmd(cmd, args, sync, h.world.status(|old(h.trace)|)).Pass?, allow)
  {
    var r := h.SpawnCmd(cmd, args, sync);
    if r.Fail? {
      h.SetOutput(PreLocalKey, BoolText(false));
      if !allow {
        h.NodeExit(1);
      }
      return;
    }
    h.SetOutput(PreLocalKey, BoolText(true));
  }

  /** The spawn and what follows it in src/lib.rs: the error handler writes `false` and
      exits unless allowed; otherwise control reaches the final `true`. */
  method SpawnAndReportLib(h: Host, cmd: string, args: seq<string>, sync: bool, allow: bool)
    requires h.Live()
    modifies h
    ensures h.trace == old(h.trace) + [Spawned(cmd, args, sync)]
      + AfterSpawnLib(Ffi.SpawnCmd(cmd, args, sync, h.world.status(|old(h.trace)|)).Pass?, allow)
  {
    var r := h.SpawnCmd(cmd, args, sync);
    if r.Fail? {
      h.SetOutput(PreLocalKey, BoolText(false));
      if !allow {
        h.NodeExit(1);
        return;
      }
    }
    h.SetOutput(PreLocalKey, BoolText(true));
  }

  /** `run_pre_local_cmd` in src/pre_stage.rs: every path writes the status once and returns. */
  method RunPreLocalCmd(h: Host, shlex: Tokenizer)
    requires h.Live()
    modifies h
    ensures h.trace == old(h.trace) + PreLocalEvents(h.inputs, shlex, h.world, |old(h.trace)|)
  {
    ghost var t0, pos := h.trace, |h.trace|;
    var s := GetInput(h.inputs, "pre-local-cmd");
    TrimEmptyIffBlank(s);
    if RustTrim(s) == "" {
      BlankEvents(h.inputs, shlex, h.world, pos);
      h.SetOutput(PreLocalKey, BoolText(false));
      return;
    }
    var allowFailure := ParseGhBool(h.inputs, "allow-pre-local-cmd-failure", true);
    var taskAsync := ParseGhBool(h.inputs, "pre-local-cmd-async", true);
    var split := SplitShellCmd(s, shlex);
    if split.None? {
      assert shlex(RustTrim(s)) == [];
      NoTokenEvents(h.inputs, shlex, h.world, pos);
      h.SetOutput(PreLocalKey, BoolText(false));
      return;
    }
    var (cmd, args) := split.value;
    RanEvents(h.inputs, shlex, h.world, pos, cmd, args);
    SpawnAndReport(h, cmd, args, taskAsync, allowFailure);
    AppendAssoc(t0, [Spawned(cmd, args, taskAsync)], AfterSpawn(LocalOk(h.inputs, shlex, h.world, pos), allowFailure));
  }

  /** `run_pre_local_cmd` in src/lib.rs: an empty command returns silently, and the
      error handler of a tolerated failure falls through to the final `true`. */
  method RunPreLocalCmdLib(h: Host, shlex: Tokenizer)
    requires h.Live()
    modifies h
    ensures h.trace == old(h.trace) + PreLocalEventsLib(h.inputs, shlex, h.world, |old(h.trace)|)
  {
    ghost var t0, pos := h.trace, |h.trace|;
    var s := GetInput(h.inputs, "pre-local-cmd");
    TrimEmptyIffBlank(s);
    if RustTrim(s) == "" {
      BlankEvents(h.inputs, shlex, h.world, pos);
      return;
    }
    var allowFailure := ParseGhBool(h.inputs, "allow-pre-local-cmd-failure", true);
    var taskAsync := ParseGhBool(h.inputs, "pre-local-cmd-async", true);
    var split := SplitShellCmd(s, shlex);
    if split.None? {
      assert shlex(RustTrim(s)) == [];
      NoTokenEvents(h.inputs, shlex, h.world, pos);
      h.SetOutput(PreLocalKey, BoolText(false));
      return;
    }
    var (cmd, args) := split.value;
    RanEvents(h.inputs, shlex, h.world, pos, cmd, args);
    SpawnAndReportLib(h, cmd, args, taskAsync, allowFailure);
    AppendAssoc(t0, [Spawned(cmd, args, taskAsync)], AfterSpawnLib(LocalOk(h.inputs, shlex, h.world, pos), allowFailure));
  }

  /** The requests of `set_pre_local_workdir`: a change of directory to the input,
      untrimmed, unless it is blank. */
  function WorkdirEvents(inputs: Inputs): (r: seq<Event>)
    ensures |r| <= 1
    ensures r == [] <==> Blank(GetInput(inputs, "pre-local-workdir"))
    ensures r != [] ==> r[0] == ChangedDir(GetInput(inputs, "pre-local-workdir"))
  {
    var raw := GetInput(inputs, "pre-local-workdir");
    if Blank(raw) then [] else [ChangedDir(raw)]
  }

  /** `set_pre_local_workdir`. */
  method SetPreLocalWorkdir(h: Host)
    requires h.Live()
    modifies h
    ensures h.trace == old(h.trace) + WorkdirEvents(h.inputs)
    ensures h.Live()
  {
    var s := GetInput(h.inputs, "pre-local-workdir");
    TrimEmptyIffBlank(s);
    if RustTrim(s) == "" {
      return;
    }
    h.Chdir(s);
  }

  /** Whether the command ran, failed and its failure is not allowed: the one case that exits. */
  predicate LocalFatal(inputs: Inputs, shlex: Tokenizer, w: World, pos: nat) {
    LocalCmd(inputs, shlex).Some? && !LocalOk(inputs, shlex, w, pos) && !LocalAllow(inputs)
  }

  /** The requests after a spawn: the outputs, spawns and exits they contain. */
  lemma AfterSpawnFacts(sp: Event, ok: bool, allow: bool)
    requires sp.Spawned?
    ensures var ev := [sp] + AfterSpawn(ok, allow);
      && OutputsOf(ev, PreLocalKey) == [BoolText(ok)]
      && Select(ev, SpawnKind) == [sp]
      && Select(ev, ExitKind) == (if !ok && !allow then [Exited(1)] else [])
    ensures var ev := [sp] + AfterSpawnLib(ok, allow);
      && OutputsOf(ev, PreLocalKey) == (if !ok && allow then ["false", "true"] else [BoolText(ok)])
      && Select(ev, SpawnKind) == [sp]
      && Select(ev, ExitKind) == (if !ok && !allow then [Exited(1)] else [])
  {
    var o := Output(PreLocalKey, BoolText(ok));
    var f, t := Output(PreLocalKey, "false"), Output(PreLocalKey, "true");
    if ok {
      assert [sp] + AfterSpawn(ok, allow) == [sp, t] == [sp] + AfterSpawnLib(ok, allow);
      OutputsOfTwo(sp, t, PreLocalKey);
      SelectTwo(sp, t, SpawnKind);
      SelectTwo(sp, t, ExitKind);
    } else if allow {
      assert [sp] + AfterSpawn(ok, allow) == [sp, f];
      assert [sp] + AfterSpawnLib(ok, allow) == [sp, f, t];
      OutputsOfTwo(sp, f, PreLocalKey);
      SelectTwo(sp, f, SpawnKind);
      SelectTwo(sp, f, ExitKind);
      OutputsOfThree(sp, f, t, PreLocalKey);
      SelectThree(sp, f, t, SpawnKind);
      SelectThree(sp, f, t, ExitKind);
    } else {
      assert [sp] + AfterSpawn(ok, allow) == [sp, f, Exited(1)] == [sp] + AfterSpawnLib(ok, allow);
      OutputsOfThree(sp, f, Exited(1), PreLocalKey);
      SelectThree(sp, f, Exited(1), SpawnKind);
      SelectThree(sp, f, Exited(1), ExitKind);
    }
  }

  /** `PreLocalReportsOnce` for a command that splits into `cmd` and `args`. */
  lemma RanReportsOnce(inputs: Inputs, shlex: Tokenizer, w: World, pos: nat, cmd: string, args: seq<string>)
    requires LocalCmd(inputs, shlex) == Some((cmd, args))
    ensures var ev := PreLocalEvents(inputs, shlex, w, pos);
      && OutputsOf(ev, PreLocalKey) == [BoolText(LocalOk(inputs, shlex, w, pos))]
      && Select(ev, SpawnKind) == [Spawned(cmd, args, LocalSync(inputs))]
      && Select(ev, ExitKind) == (if LocalFatal(inputs, shlex, w, pos) then [Exited(1)] else [])
  {
    var ok, allow := LocalOk(inputs, shlex, w, pos), LocalAllow(inputs);
    RanEvents(inputs, shlex, w, pos, cmd, args);
    assert LocalFatal(inputs, shlex, w, pos) <==> !ok && !allow;
    AfterSpawnFacts(Spawned(cmd, args, LocalSync(inputs)), ok, allow);
  }

  /**
   * src/pre_stage.rs writes `pre-local-cmd-success` exactly once on every path,
   * `true` exactly when the command ran and `spawnCmd` did not throw; it spawns the
   * split command and nothing else; and it exits with code 1 exactly when the
   * command failed and failure is not allowed.
   */
  lemma PreLocalReportsOnce(inputs: Inputs, shlex: Tokenizer, w: World, pos: nat)
    ensures var ev := PreLocalEvents(inputs, shlex, w, pos);
      && OutputsOf(ev, PreLocalKey) == [BoolText(LocalOk(inputs, shlex, w, pos))]
      && Select(ev, SpawnKind) == (match LocalCmd(inputs, shlex)
                                   case None => []
                                   case Some((cmd, args)) => [Spawned(cmd, args, LocalSync(inputs))])
      && Select(ev, ExitKind) == (if LocalFatal(inputs, shlex, w, pos) then [Exited(1)] else [])
  {
    var f := Output(PreLocalKey, "false");
    match LocalCmd(inputs, shlex)
    case None =>
      assert PreLocalEvents(inputs, shlex, w, pos) == [f];
      OutputsOfOne(f, PreLocalKey);
      SelectOne(f, SpawnKind);
      SelectOne(f, ExitKind);
    case Some((cmd, args)) =>
      RanReportsOnce(inputs, shlex, w, pos, cmd, args);
  }

  /**
   * src/lib.rs spawns and exits exactly as src/pre_stage.rs does; only the status
   * outputs differ: nothing for an empty command, and `false` then `true` after a
   * tolerated failure.
   */
  lemma LibDiffersOnlyInOutputs(inputs: Inputs, shlex: Tokenizer, w: World, pos: nat)
    ensures var ev := PreLocalEvents(inputs, shlex, w, pos);
      var lib := PreLocalEventsLib(inputs, shlex, w, pos);
      && Select(lib, SpawnKind) == Select(ev, SpawnKind)
      && Select(lib, ExitKind) == Select(ev, ExitKind)
      && OutputsOf(lib, PreLocalKey) ==
           (if Blank(GetInput(inputs, "pre-local-cmd")) then []
            else if LocalCmd(inputs, shlex).Some? && !LocalOk(inputs, shlex, w, pos) && LocalAllow(inputs)
            then ["false", "true"]
            else OutputsOf(ev, PreLocalKey))
  {
    var f := Output(PreLocalKey, "false");
    PreLocalReportsOnce(inputs, shlex, w, pos);
    if Blank(GetInput(inputs, "pre-local-cmd")) {
      BlankEvents(inputs, shlex, w, pos);
      OutputsOfOne(f, PreLocalKey);
      SelectOne(f, SpawnKind);
      SelectOne(f, ExitKind);
    } else {
      match LocalCmd(inputs, shlex)
      case None =>
        assert PreLocalEventsLib(inputs, shlex, w, pos) == [f] == PreLocalEvents(inputs, shlex, w, pos);
      case Some((cmd, args)) =>
        RanEvents(inputs, shlex, w, pos, cmd, args);
        AfterSpawnFacts(Spawned(cmd, args, LocalSync(inputs)), LocalOk(inputs, shlex, w, pos), LocalAllow(inputs));
    }
  }

  /** The src/lib.rs copy, as written: when the command runs and fails and the failure
      is allowed, the last status it writes is `true`. The src/pre_stage.rs copy
      writes `false` once. */
  lemma LibReportsTrueAfterFailure(inputs: Inputs, shlex: Tokenizer, w: World, pos: nat)
    requires LocalCmd(inputs, shlex).Some? && !LocalOk(inputs, shlex, w, pos) && LocalAllow(inputs)
    ensures OutputsOf(PreLocalEventsLib(inputs, shlex, w, pos), PreLocalKey) == ["false", "true"]
    ensures OutputsOf(PreLocalEvents(inputs, shlex, w, pos), PreLocalKey) == ["false"]
  {
    LibDiffersOnlyInOutputs(inputs, shlex, w, pos);
    PreLocalReportsOnce(inputs, shlex, w, pos);
  }

  /** Both flags are true when not given. */
  lemma LocalFlagDefaults(inputs: Inputs)
    requires GetInput(inputs, "allow-pre-local-cmd-failure") == ""
    requires GetInput(inputs, "pre-local-cmd-async") == ""
    ensures LocalAllow(inputs) && LocalSync(inputs)
  {
  }

  /**
   * The `pre-local-cmd-async` flag goes to `spawnCmd` as its `sync` parameter. When
   * it is true (the default) the command runs synchronously and its exit status
   * decides the output; when it is false `spawnCmd` returns at once, so `true` is
   * written whatever the command later does.
   */
  lemma AsyncFlagIsSync(inputs: Inputs, shlex: Tokenizer, w: World, pos: nat)
    requires LocalCmd(inputs, shlex).Some?
    ensures LocalSync(inputs) ==> (LocalOk(inputs, shlex, w, pos) <==> w.status(pos) == Some(0))
    ensures !LocalSync(inputs) ==> OutputsOf(PreLocalEvents(inputs, shlex, w, pos), PreLocalKey) == ["true"]
  {
    PreLocalReportsOnce(inputs, shlex, w, pos);
  }

  /** The working directory changes only for a non-blank `pre-local-workdir`, and then
      to the input exactly as given, untrimmed. */
  lemma WorkdirOnlyWhenGiven(inputs: Inputs)
    ensures WorkdirEvents(inputs) == [] <==> RustTrim(GetInput(inputs, "pre-local-workdir")) == ""
    ensures WorkdirEvents(inputs) != [] ==> WorkdirEvents(inputs) == [ChangedDir(GetInput(inputs, "pre-local-workdir"))]
  {
    TrimEmptyIffBlank(GetInput(inputs, "pre-local-workdir"));
  }
}
