/**
 * `ssh_connection` in src/lib.rs: the fixed sequence of stages run against the
 * remote host. Optional sleep, optional connectivity probe, the main run, then an
 * optional post run. Every stage's argument list starts with the configured
 * `args` followed by the host. A failed probe always ends the process with code
 * 1. A failed main or post run ends it with code 1 unless its failure is
 * allowed, and in that case the exit happens inside the error handler, before
 * the stage's status output is written.
 *
 * `ConnectionEvents` describes the requests one run makes of the host; the method
 * `SshConnection` builds the argument lists the way the source does and is
 * proved to make exactly those requests; the lemmas state what the description
 * guarantees.
 */
module Connection {
  import opened Wrappers
  import opened Strings
  import opened HostEnv
  import opened Config
  import Ffi

  const MainRunKey := "main-run-success"
  const PostRunKey := "post-run-success"

  lemma KeysDiffer()
    ensures MainRunKey != PostRunKey
  {
    assert MainRunKey[0] != PostRunKey[0];
  }

  /** `real_args` before any stage adds to it: the extra arguments, then the host. */
  function BaseArgs(cfg: InputConfig): (r: seq<string>)
    ensures |r| >= 1 && r[|r| - 1] == cfg.host
  {
    (if cfg.args.Some? then cfg.args.value else []) + [cfg.host]
  }

  /** The probe's arguments: the base, then the `pre-exit-cmd` tokens. */
  function ProbeArgs(cfg: InputConfig): (r: seq<string>)
    ensures |r| == |BaseArgs(cfg)| + |cfg.preExitCmd|
    ensures r[..|BaseArgs(cfg)|] == BaseArgs(cfg) && r[|BaseArgs(cfg)|..] == cfg.preExitCmd
  {
    BaseArgs(cfg) + cfg.preExitCmd
  }

  /** The main run's arguments: the base, then `run` itself (untrimmed) unless it is blank. */
  function MainArgs(cfg: InputConfig): (r: seq<string>)
    ensures Blank(cfg.run) ==> r == BaseArgs(cfg)
    ensures !Blank(cfg.run) ==> |r| == |BaseArgs(cfg)| + 1 && r[..|BaseArgs(cfg)|] == BaseArgs(cfg) && r[|r| - 1] == cfg.run
  {
    BaseArgs(cfg) + (if Blank(cfg.run) then [] else [cfg.run])
  }

  /** The post run's arguments: the base, then the post-run command. */
  function PostArgs(cfg: InputConfig, post: string): (r: seq<string>)
    ensures |r| == |BaseArgs(cfg)| + 1
    ensures r[..|BaseArgs(cfg)|] == BaseArgs(cfg) && r[|r| - 1] == post
  {
    BaseArgs(cfg) + [post]
  }

  /** Whether a synchronous run that ends with this status succeeds: the rule of
      `Ffi.SpawnCmd` in synchronous mode, where only status 0 does not throw. */
  predicate RunOk(status: Ffi.ExitStatus) {
    status == Some(0)
  }

  /** The sleep stage's requests. */
  function SleepEvents(cfg: InputConfig): seq<Event> {
    if cfg.preSleep > 0 then [Slept(cfg.preSleep)] else []
  }

  /** The probe's request, when a timeout is configured. */
  function ProbeEvents(cfg: InputConfig): seq<Event> {
    if cfg.preTimeout > 0 then [Probed(cfg.sshBin, ProbeArgs(cfg), cfg.preTimeout)] else []
  }

  /** Trace position of the probe request, for a run starting at position `pos`. */
  function ProbePos(cfg: InputConfig, pos: nat): nat {
    pos + |SleepEvents(cfg)|
  }

  /** Trace position of the main run's spawn request. */
  function MainPos(cfg: InputConfig, pos: nat): nat {
    ProbePos(cfg, pos) + |ProbeEvents(cfg)|
  }

  /** Trace position of the post run's spawn request (after the main spawn and its output). */
  function PostPos(cfg: InputConfig, pos: nat): nat {
    MainPos(cfg, pos) + 2
  }

  predicate ProbeFails(cfg: InputConfig, w: World, pos: nat) {
    cfg.preTimeout > 0 && !w.probe(ProbePos(cfg, pos))
  }

  predicate MainOk(cfg: InputConfig, w: World, pos: nat) {
    RunOk(w.status(MainPos(cfg, pos)))
  }

  predicate PostOk(cfg: InputConfig, w: World, pos: nat) {
    RunOk(w.status(PostPos(cfg, pos)))
  }

  /** The requests before the main run: the sleep, then the probe. */
  function PreEvents(cfg: InputConfig): seq<Event> {
    SleepEvents(cfg) + ProbeEvents(cfg)
  }

  /** The main run's requests, given whether it succeeds: the spawn, then either the
      exit (a failure that is not allowed) or the status output. */
  function MainEvents(cfg: InputConfig, ok: bool): seq<Event> {
    [Spawned(cfg.sshBin, MainArgs(cfg), true),
     if !ok && !cfg.allowRunFailure then Exited(1) else Output(MainRunKey, BoolText(ok))]
  }

  /** The post run's requests, given whether it succeeds. */
  function PostEvents(cfg: InputConfig, ok: bool): seq<Event> {
    match cfg.postRun
    case None => []
    case Some(post) =>
      [Spawned(cfg.sshBin, PostArgs(cfg, post), true),
       if !ok && !cfg.allowPostRunFailure then Exited(1) else Output(PostRunKey, BoolText(ok))]
  }

  /** The main and post runs' requests, given whether each succeeds. */
  function RunTail(cfg: InputConfig, ok: bool, postOk: bool): seq<Event> {
    MainEvents(cfg, ok) + if !ok && !cfg.allowRunFailure then [] else PostEvents(cfg, postOk)
  }

  /** The main and post runs' requests. */
  function RunEvents(cfg: InputConfig, w: World, pos: nat): seq<Event> {
    RunTail(cfg, MainOk(cfg, w, pos), PostOk(cfg, w, pos))
  }

  /** What follows the probe: an exit with code 1 when the probe failed, otherwise the runs. */
  function AfterProbe(cfg: InputConfig, w: World, pos: nat): seq<Event> {
    if ProbeFails(cfg, w, pos) then [Exited(1)] else RunEvents(cfg, w, pos)
  }

  /** Everything one run of `ssh_connection` that starts at trace position `pos` asks of the host. */
  function ConnectionEvents(cfg: InputConfig, w: World, pos: nat): (r: seq<Event>)
    ensures |r| > |PreEvents(cfg)| && r[..|PreEvents(cfg)|] == PreEvents(cfg)
    ensures r[|r| - 1] == Exited(1) || r[|r| - 1].Output?
  {
    PreEvents(cfg) + AfterProbe(cfg, w, pos)
  }

  /** The sleep stage. */
  method SleepStage(h: Host, cfg: InputConfig)
    requires h.Live()
    modifies h
    ensures h.trace == old(h.trace) + SleepEvents(cfg)
    ensures h.Live()
  {
    if cfg.preSleep > 0 {
      h.Sleep(cfg.preSleep);
    }
  }

  /** The probe stage: `go` is false exactly when a probe was requested and did not get through,
      and then the process has been told to exit with code 1. */
  method ProbeStage(h: Host, cfg: InputConfig, realArgs: seq<string>) returns (go: bool)
    requires h.Live() && realArgs == BaseArgs(cfg)
    modifies h
    ensures go <==> !(cfg.preTimeout > 0 && !h.world.probe(|old(h.trace)|))
    ensures h.trace == old(h.trace) + ProbeEvents(cfg) + (if go then [] else [Exited(1)])
    ensures go ==> h.Live()
  {
    go := true;
    if cfg.preTimeout > 0 {
      var preArgs := realArgs;
      preArgs := preArgs + cfg.preExitCmd;
      var preStatus := h.RetryCommandWithinTime(cfg.sshBin, preArgs, cfg.preTimeout);
      if !preStatus {
        h.NodeExit(1);
        go := false;
      }
    }
  }

  /** The main-run stage: `go` is false exactly when the run failed and failure is not allowed,
      and then the process has been told to exit with code 1. */
  method MainStage(h: Host, cfg: InputConfig, realArgs: seq<string>) returns (go: bool)
    requires h.Live() && realArgs == BaseArgs(cfg)
    modifies h
    ensures var ok := RunOk(h.world.status(|old(h.trace)|));
      && (go <==> ok || cfg.allowRunFailure)
      && h.trace == old(h.trace) + MainEvents(cfg, ok)
    ensures go ==> h.Live()
  {
    var mainArgs := realArgs;
    if !Blank(cfg.run) {
      mainArgs := mainArgs + [cfg.run];
    }
    assert mainArgs == MainArgs(cfg);
    var status := true;
    var r := h.SpawnCmd(cfg.sshBin, mainArgs, true);
    go := true;
    if r.Fail? {
      status := false;
      if !cfg.allowRunFailure {
        h.NodeExit(1);
        go := false;
        return;
      }
    }
    h.SetOutput(MainRunKey, BoolText(status));
  }

  /** The post-run stage. */
  method PostStage(h: Host, cfg: InputConfig, realArgs: seq<string>)
    requires h.Live() && realArgs == BaseArgs(cfg)
    modifies h
    ensures h.trace == old(h.trace) + PostEvents(cfg, RunOk(h.world.status(|old(h.trace)|)))
  {
    var realArgs := realArgs;
    if cfg.postRun.Some? {
      realArgs := realArgs + [cfg.postRun.value];
      var status := true;
      var r := h.SpawnCmd(cfg.sshBin, realArgs, true);
      if r.Fail? {
        status := false;
        if !cfg.allowPostRunFailure {
          h.NodeExit(1);
          return;
        }
      }
      h.SetOutput(PostRunKey, BoolText(status));
    }
  }

  /** `ssh_connection`: the stages in order, each building its arguments from the same base. */
  method SshConnection(h: Host, cfg: InputConfig)
    requires h.Live()
    modifies h
    ensures h.trace == old(h.trace) + ConnectionEvents(cfg, h.world, |old(h.trace)|)
  {
    ghost var t0 := h.trace;
    ghost var pos := |h.trace|;
    SleepStage(h, cfg);
    ghost var t1 := h.trace;

    var realArgs: seq<string> := [];
    if cfg.args.Some? {
      realArgs := realArgs + cfg.args.value;
    }
    realArgs := realArgs + [cfg.host];

    assert |t1| == ProbePos(cfg, pos);
    var go := ProbeStage(h, cfg, realArgs);
    AppendAssoc(t0, SleepEvents(cfg), ProbeEvents(cfg));
    if !go {
      AppendAssoc(t0, PreEvents(cfg), [Exited(1)]);
      return;
    }
    assert h.trace == t0 + PreEvents(cfg);
    ghost var t2 := h.trace;
    assert |t2| == MainPos(cfg, pos);

    go := MainStage(h, cfg, realArgs);
    AppendAssoc(t0, PreEvents(cfg), MainEvents(cfg, MainOk(cfg, h.world, pos)));
    if !go {
      assert MainEvents(cfg, MainOk(cfg, h.world, pos)) + [] == MainEvents(cfg, MainOk(cfg, h.world, pos));
      return;
    }
    ghost var t3 := h.trace;
    assert |t3| == PostPos(cfg, pos);

    PostStage(h, cfg, realArgs);
    AppendAssoc(t2, MainEvents(cfg, MainOk(cfg, h.world, pos)), PostEvents(cfg, PostOk(cfg, h.world, pos)));
    AppendAssoc(t0, PreEvents(cfg), RunEvents(cfg, h.world, pos));
  }

  /** Each stage's list is its own extension of the base; the post-run list never
      picks up the main run's command, nor the main-run list the post run's. */
  lemma StageArgsShareBase(cfg: InputConfig, post: string)
    ensures var n := |BaseArgs(cfg)|;
      ProbeArgs(cfg)[..n] == MainArgs(cfg)[..n] == PostArgs(cfg, post)[..n] == BaseArgs(cfg)
    ensures cfg.run !in BaseArgs(cfg) && cfg.run != post ==> cfg.run !in PostArgs(cfg, post)
    ensures post !in BaseArgs(cfg) && post != cfg.run ==> post !in MainArgs(cfg)
  {
  }

  /** No sleep and no probe request among `events`. */
  predicate NoPre(events: seq<Event>) {
    Select(events, SleepKind) == [] && Select(events, ProbeKind) == []
  }

  lemma MainNoPre(cfg: InputConfig, ok: bool)
    ensures NoPre(MainEvents(cfg, ok))
  {
    var e := MainEvents(cfg, ok);
    SelectTwo(e[0], e[1], SleepKind);
    SelectTwo(e[0], e[1], ProbeKind);
    assert e == [e[0], e[1]];
  }

  lemma PostNoPre(cfg: InputConfig, ok: bool)
    ensures NoPre(PostEvents(cfg, ok))
  {
    var e := PostEvents(cfg, ok);
    if e != [] {
      SelectTwo(e[0], e[1], SleepKind);
      SelectTwo(e[0], e[1], ProbeKind);
      assert e == [e[0], e[1]];
    }
  }

  /** Everything after the probe stage spawns, writes outputs or exits: it never sleeps or probes. */
  lemma AfterProbeNoPre(cfg: InputConfig, w: World, pos: nat)
    ensures NoPre(AfterProbe(cfg, w, pos))
  {
    if ProbeFails(cfg, w, pos) {
      SelectOne(Exited(1), SleepKind);
      SelectOne(Exited(1), ProbeKind);
    } else {
      var ok, postOk := MainOk(cfg, w, pos), PostOk(cfg, w, pos);
      MainNoPre(cfg, ok);
      if ok || cfg.allowRunFailure {
        PostNoPre(cfg, postOk);
        SelectAppend(MainEvents(cfg, ok), PostEvents(cfg, postOk), SleepKind);
        SelectAppend(MainEvents(cfg, ok), PostEvents(cfg, postOk), ProbeKind);
      } else {
        assert RunEvents(cfg, w, pos) == MainEvents(cfg, ok);
      }
    }
  }

  lemma SleepSelects(cfg: InputConfig)
    ensures Select(SleepEvents(cfg), SleepKind) == SleepEvents(cfg)
    ensures Select(SleepEvents(cfg), ProbeKind) == []
  {
    if cfg.preSleep > 0 {
      SelectOne(Slept(cfg.preSleep), SleepKind);
      SelectOne(Slept(cfg.preSleep), ProbeKind);
    }
  }

  lemma ProbeSelects(cfg: InputConfig)
    ensures Select(ProbeEvents(cfg), ProbeKind) == ProbeEvents(cfg)
    ensures Select(ProbeEvents(cfg), SleepKind) == []
  {
    if cfg.preTimeout > 0 {
      SelectOne(Probed(cfg.sshBin, ProbeArgs(cfg), cfg.preTimeout), ProbeKind);
      SelectOne(Probed(cfg.sshBin, ProbeArgs(cfg), cfg.preTimeout), SleepKind);
    }
  }

  /** The sleeps and probes of `a + b + rest`, when `a` only sleeps, `b` only probes and `rest` does neither. */
  lemma SleepsThenProbes(a: seq<Event>, b: seq<Event>, rest: seq<Event>)
    requires Select(a, ProbeKind) == [] && Select(b, SleepKind) == [] && NoPre(rest)
    ensures Select(a + b + rest, SleepKind) == Select(a, SleepKind)
    ensures Select(a + b + rest, ProbeKind) == Select(b, ProbeKind)
  {
    SelectAppend(a, b, SleepKind);
    SelectAppend(a, b, ProbeKind);
    SelectAppend(a + b, rest, SleepKind);
    SelectAppend(a + b, rest, ProbeKind);
  }

  /**
   * A run sleeps exactly when `pre-sleep` is positive, and then before anything
   * else; it probes exactly when `pre-timeout` is positive, with the probe command
   * and the configured timeout; no other request is a sleep or a probe.
   */
  lemma PreStagesOnly(cfg: InputConfig, w: World, pos: nat)
    ensures Select(ConnectionEvents(cfg, w, pos), SleepKind) == SleepEvents(cfg)
    ensures Select(ConnectionEvents(cfg, w, pos), ProbeKind) == ProbeEvents(cfg)
    ensures cfg.preSleep > 0 ==> ConnectionEvents(cfg, w, pos)[0] == Slept(cfg.preSleep)
  {
    AfterProbeNoPre(cfg, w, pos);
    SleepSelects(cfg);
    ProbeSelects(cfg);
    SleepsThenProbes(SleepEvents(cfg), ProbeEvents(cfg), AfterProbe(cfg, w, pos));
  }

  /** The sleep and probe stages request nothing of any other kind. */
  lemma PreQuiet(cfg: InputConfig, kind: Kind)
    requires kind != SleepKind && kind != ProbeKind
    ensures Select(PreEvents(cfg), kind) == []
  {
    if cfg.preSleep > 0 {
      SelectOne(Slept(cfg.preSleep), kind);
    }
    if cfg.preTimeout > 0 {
      SelectOne(Probed(cfg.sshBin, ProbeArgs(cfg), cfg.preTimeout), kind);
    }
    SelectAppend(SleepEvents(cfg), ProbeEvents(cfg), kind);
  }

  /** Nor do they write outputs. */
  lemma PreSilent(cfg: InputConfig, key: string)
    ensures OutputsOf(PreEvents(cfg), key) == []
  {
    if cfg.preSleep > 0 {
      OutputsOfOne(Slept(cfg.preSleep), key);
    }
    if cfg.preTimeout > 0 {
      OutputsOfOne(Probed(cfg.sshBin, ProbeArgs(cfg), cfg.preTimeout), key);
    }
    OutputsOfAppend(SleepEvents(cfg), ProbeEvents(cfg), key);
  }

  /** A prefix that spawns nothing, never exits and writes no output. */
  predicate Quiet(pre: seq<Event>) {
    && Select(pre, SpawnKind) == [] && Select(pre, ExitKind) == []
    && OutputsOf(pre, MainRunKey) == [] && OutputsOf(pre, PostRunKey) == []
  }

  lemma PreIsQuiet(cfg: InputConfig)
    ensures Quiet(PreEvents(cfg))
  {
    PreQuiet(cfg, SpawnKind);
    PreQuiet(cfg, ExitKind);
    PreSilent(cfg, MainRunKey);
    PreSilent(cfg, PostRunKey);
  }

  /** The spawns, exits and status outputs of a quiet prefix followed by two requests. */
  lemma QuietThenTwo(pre: seq<Event>, a: Event, b: Event)
    requires Quiet(pre)
    ensures var ev := pre + [a, b];
      && Select(ev, SpawnKind) == Pick(a, SpawnKind) + Pick(b, SpawnKind)
      && Select(ev, ExitKind) == Pick(a, ExitKind) + Pick(b, ExitKind)
      && OutputsOf(ev, MainRunKey) == ValueFor(a, MainRunKey) + ValueFor(b, MainRunKey)
      && OutputsOf(ev, PostRunKey) == ValueFor(a, PostRunKey) + ValueFor(b, PostRunKey)
  {
    SelectAppend(pre, [a, b], SpawnKind);
    SelectAppend(pre, [a, b], ExitKind);
    OutputsOfAppend(pre, [a, b], MainRunKey);
    OutputsOfAppend(pre, [a, b], PostRunKey);
    SelectTwo(a, b, SpawnKind);
    SelectTwo(a, b, ExitKind);
    OutputsOfTwo(a, b, MainRunKey);
    OutputsOfTwo(a, b, PostRunKey);
  }

  /** The same for a quiet prefix followed by four requests. */
  lemma QuietThenFour(pre: seq<Event>, a: Event, b: Event, c: Event, d: Event)
    requires Quiet(pre)
    ensures var ev := pre + [a, b, c, d];
      && Select(ev, SpawnKind) == Pick(a, SpawnKind) + (Pick(b, SpawnKind) + (Pick(c, SpawnKind) + Pick(d, SpawnKind)))
      && Select(ev, ExitKind) == Pick(a, ExitKind) + (Pick(b, ExitKind) + (Pick(c, ExitKind) + Pick(d, ExitKind)))
      && OutputsOf(ev, MainRunKey) == ValueFor(a, MainRunKey) + (ValueFor(b, MainRunKey) + (ValueFor(c, MainRunKey) + ValueFor(d, MainRunKey)))
      && OutputsOf(ev, PostRunKey) == ValueFor(a, PostRunKey) + (ValueFor(b, PostRunKey) + (ValueFor(c, PostRunKey) + ValueFor(d, PostRunKey)))
  {
    SelectAppend(pre, [a, b, c, d], SpawnKind);
    SelectAppend(pre, [a, b, c, d], ExitKind);
    OutputsOfAppend(pre, [a, b, c, d], MainRunKey);
    OutputsOfAppend(pre, [a, b, c, d], PostRunKey);
    SelectFour(a, b, c, d, SpawnKind);
    SelectFour(a, b, c, d, ExitKind);
    OutputsOfFour(a, b, c, d, MainRunKey);
    OutputsOfFour(a, b, c, d, PostRunKey);
  }

  /** A quiet prefix, then an exit with code 1. */
  lemma QuietThenExit(pre: seq<Event>)
    requires Quiet(pre)
    ensures var ev := pre + [Exited(1)];
      && Select(ev, SpawnKind) == [] && Select(ev, ExitKind) == [Exited(1)]
      && OutputsOf(ev, MainRunKey) == [] && OutputsOf(ev, PostRunKey) == []
      && ev[|ev| - 1] == Exited(1)
  {
    SelectAppend(pre, [Exited(1)], SpawnKind);
    SelectAppend(pre, [Exited(1)], ExitKind);
    OutputsOfAppend(pre, [Exited(1)], MainRunKey);
    OutputsOfAppend(pre, [Exited(1)], PostRunKey);
    SelectOne(Exited(1), SpawnKind);
    SelectOne(Exited(1), ExitKind);
    OutputsOfOne(Exited(1), MainRunKey);
    OutputsOfOne(Exited(1), PostRunKey);
  }

  /** A quiet prefix, a spawn, then an exit with code 1. */
  lemma SpawnThenExit(pre: seq<Event>, main: Event)
    requires Quiet(pre) && main.Spawned?
    ensures var ev := pre + [main, Exited(1)];
      && Select(ev, SpawnKind) == [main] && Select(ev, ExitKind) == [Exited(1)]
      && OutputsOf(ev, MainRunKey) == [] && OutputsOf(ev, PostRunKey) == []
      && ev[|ev| - 1] == Exited(1)
  {
    QuietThenTwo(pre, main, Exited(1));
  }

  /** A quiet prefix, a spawn, then its status output. */
  lemma SpawnThenOutput(pre: seq<Event>, main: Event, v: string)
    requires Quiet(pre) && main.Spawned?
    ensures var ev := pre + [main, Output(MainRunKey, v)];
      && Select(ev, SpawnKind) == [main] && Select(ev, ExitKind) == []
      && OutputsOf(ev, MainRunKey) == [v] && OutputsOf(ev, PostRunKey) == []
  {
    KeysDiffer();
    QuietThenTwo(pre, main, Output(MainRunKey, v));
  }

  /** A quiet prefix, a spawn and its status output, a second spawn, then an exit with code 1. */
  lemma TwoSpawnsThenExit(pre: seq<Event>, main: Event, v: string, post: Event)
    requires Quiet(pre) && main.Spawned? && post.Spawned?
    ensures var ev := pre + [main, Output(MainRunKey, v), post, Exited(1)];
      && Select(ev, SpawnKind) == [main, post] && Select(ev, ExitKind) == [Exited(1)]
      && OutputsOf(ev, MainRunKey) == [v] && OutputsOf(ev, PostRunKey) == []
      && ev[|ev| - 1] == Exited(1)
  {
    KeysDiffer();
    QuietThenFour(pre, main, Output(MainRunKey, v), post, Exited(1));
  }

  /** A quiet prefix, then two spawns each followed by its status output. */
  lemma TwoSpawnsReported(pre: seq<Event>, main: Event, v: string, post: Event, u: string)
    requires Quiet(pre) && main.Spawned? && post.Spawned?
    ensures var ev := pre + [main, Output(MainRunKey, v), post, Output(PostRunKey, u)];
      && Select(ev, SpawnKind) == [main, post] && Select(ev, ExitKind) == []
      && OutputsOf(ev, MainRunKey) == [v] && OutputsOf(ev, PostRunKey) == [u]
  {
    KeysDiffer();
    QuietThenFour(pre, main, Output(MainRunKey, v), post, Output(PostRunKey, u));
  }

  /** A failed probe ends the process with code 1 before anything is spawned or reported. */
  lemma ProbeFailureAborts(cfg: InputConfig, w: World, pos: nat)
    requires ProbeFails(cfg, w, pos)
    ensures var ev := ConnectionEvents(cfg, w, pos);
      && Select(ev, SpawnKind) == []
      && OutputsOf(ev, MainRunKey) == [] && OutputsOf(ev, PostRunKey) == []
      && Select(ev, ExitKind) == [Exited(1)] && ev[|ev| - 1] == Exited(1)
  {
    PreIsQuiet(cfg);
    QuietThenExit(PreEvents(cfg));
  }

  /**
   * After a successful probe (or none) the main command is the first thing
   * spawned, with the main-run arguments. If it fails and failure is not allowed,
   * the process exits with code 1, nothing else is spawned and neither status
   * output is written.
   */
  lemma MainFailureAborts(cfg: InputConfig, w: World, pos: nat)
    requires !ProbeFails(cfg, w, pos)
    requires !MainOk(cfg, w, pos) && !cfg.allowRunFailure
    ensures var ev := ConnectionEvents(cfg, w, pos);
      && Select(ev, SpawnKind) == [Spawned(cfg.sshBin, MainArgs(cfg), true)]
      && OutputsOf(ev, MainRunKey) == [] && OutputsOf(ev, PostRunKey) == []
      && Select(ev, ExitKind) == [Exited(1)] && ev[|ev| - 1] == Exited(1)
  {
    var main := Spawned(cfg.sshBin, MainArgs(cfg), true);
    assert AfterProbe(cfg, w, pos) == [main, Exited(1)];
    PreIsQuiet(cfg);
    SpawnThenExit(PreEvents(cfg), main);
  }

  /** Without a post-run command, a main run that does not end the process is the
      only spawn; `main-run-success` is written exactly once, `true` exactly when
      the run succeeded; and the process is never told to exit. */
  lemma MainOnly(cfg: InputConfig, w: World, pos: nat)
    requires !ProbeFails(cfg, w, pos)
    requires MainOk(cfg, w, pos) || cfg.allowRunFailure
    requires cfg.postRun.None?
    ensures var ev := ConnectionEvents(cfg, w, pos);
      && Select(ev, SpawnKind) == [Spawned(cfg.sshBin, MainArgs(cfg), true)]
      && OutputsOf(ev, MainRunKey) == [BoolText(MainOk(cfg, w, pos))] && OutputsOf(ev, PostRunKey) == []
      && Select(ev, ExitKind) == []
  {
    var main := Spawned(cfg.sshBin, MainArgs(cfg), true);
    var v := BoolText(MainOk(cfg, w, pos));
    assert AfterProbe(cfg, w, pos) == [main, Output(MainRunKey, v)];
    PreIsQuiet(cfg);
    SpawnThenOutput(PreEvents(cfg), main, v);
  }

  /** With a post-run command, after a main run that does not end the process, the
      post run is spawned second, with the post-run arguments; if it fails and
      failure is not allowed, the process exits with code 1 as the last request and
      `post-run-success` is never written. */
  lemma PostFailureAborts(cfg: InputConfig, w: World, pos: nat)
    requires !ProbeFails(cfg, w, pos)
    requires MainOk(cfg, w, pos) || cfg.allowRunFailure
    requires cfg.postRun.Some? && !PostOk(cfg, w, pos) && !cfg.allowPostRunFailure
    ensures var ev := ConnectionEvents(cfg, w, pos);
      && Select(ev, SpawnKind) == [Spawned(cfg.sshBin, MainArgs(cfg), true),
                                   Spawned(cfg.sshBin, PostArgs(cfg, cfg.postRun.value), true)]
      && OutputsOf(ev, MainRunKey) == [BoolText(MainOk(cfg, w, pos))] && OutputsOf(ev, PostRunKey) == []
      && Select(ev, ExitKind) == [Exited(1)] && ev[|ev| - 1] == Exited(1)
  {
    var main := Spawned(cfg.sshBin, MainArgs(cfg), true);
    var v := BoolText(MainOk(cfg, w, pos));
    var post := Spawned(cfg.sshBin, PostArgs(cfg, cfg.postRun.value), true);
    assert AfterProbe(cfg, w, pos) == [main, Output(MainRunKey, v), post, Exited(1)];
    PreIsQuiet(cfg);
    TwoSpawnsThenExit(PreEvents(cfg), main, v, post);
  }

  /** Otherwise both status outputs are written exactly once, each `true` exactly
      when its run succeeded, and the process is never told to exit. */
  lemma BothReported(cfg: InputConfig, w: World, pos: nat)
    requires !ProbeFails(cfg, w, pos)
    requires MainOk(cfg, w, pos) || cfg.allowRunFailure
    requires cfg.postRun.Some? && (PostOk(cfg, w, pos) || cfg.allowPostRunFailure)
    ensures var ev := ConnectionEvents(cfg, w, pos);
      && Select(ev, SpawnKind) == [Spawned(cfg.sshBin, MainArgs(cfg), true),
                                   Spawned(cfg.sshBin, PostArgs(cfg, cfg.postRun.value), true)]
      && OutputsOf(ev, MainRunKey) == [BoolText(MainOk(cfg, w, pos))]
      && OutputsOf(ev, PostRunKey) == [BoolText(PostOk(cfg, w, pos))]
      && Select(ev, ExitKind) == []
  {
    var main := Spawned(cfg.sshBin, MainArgs(cfg), true);
    var v := BoolText(MainOk(cfg, w, pos));
    var post := Spawned(cfg.sshBin, PostArgs(cfg, cfg.postRun.value), true);
    var u := BoolText(PostOk(cfg, w, pos));
    assert AfterProbe(cfg, w, pos) == [main, Output(MainRunKey, v), post, Output(PostRunKey, u)];
    PreIsQuiet(cfg);
    TwoSpawnsReported(PreEvents(cfg), main, v, post, u);
  }

  /** Exit ends the run: there is at most one exit request, its code is 1, and it is
      the last request. */
  lemma ExitOnlyLast(cfg: InputConfig, w: World, pos: nat)
    ensures var ev := ConnectionEvents(cfg, w, pos);
      Select(ev, ExitKind) == [] || (Select(ev, ExitKind) == [Exited(1)] && ev[|ev| - 1] == Exited(1))
  {
    if ProbeFails(cfg, w, pos) {
      ProbeFailureAborts(cfg, w, pos);
    } else if !MainOk(cfg, w, pos) && !cfg.allowRunFailure {
      MainFailureAborts(cfg, w, pos);
    } else if cfg.postRun.None? {
      MainOnly(cfg, w, pos);
    } else if !PostOk(cfg, w, pos) && !cfg.allowPostRunFailure {
      PostFailureAborts(cfg, w, pos);
    } else {
      BothReported(cfg, w, pos);
    }
  }

  /**
   * The worked example: extra arguments `-p 2222`, host `example.com`, no probe,
   * main command `uptime`. The main run gets `["-p", "2222", "example.com", "uptime"]`,
   * and when it succeeds the run reports `main-run-success=true` and ends normally.
   */
  lemma WorkedExample(w: World, pos: nat)
    requires w.status(pos) == Some(0)
    ensures var cfg := InputConfig("ssh", Some(["-p", "2222"]), "example.com", ["exit"], 0, 0, "uptime", false, None, true);
      ConnectionEvents(cfg, w, pos)
        == [Spawned("ssh", ["-p", "2222", "example.com", "uptime"], true), Output(MainRunKey, "true")]
  {
    var cfg := InputConfig("ssh", Some(["-p", "2222"]), "example.com", ["exit"], 0, 0, "uptime", false, None, true);
    assert !IsRustWhitespace("uptime"[0]);
    assert MainArgs(cfg) == ["-p", "2222", "example.com", "uptime"];
  }

  /** The same example read from the action's inputs: `host`, `args` and `run` given,
      every other input left empty, and a tokenizer that splits `-p 2222` into its
      two words. */
  lemma WorkedExampleFromInputs(inputs: Inputs, shlex: Tokenizer, w: World, pos: nat)
    requires GetInput(inputs, "host") == "example.com"
    requires GetInput(inputs, "args") == "-p 2222"
    requires GetInput(inputs, "run") == "uptime"
    requires GetInput(inputs, "ssh-bin") == "" && GetInput(inputs, "pre-exit-cmd") == ""
    requires GetInput(inputs, "pre-sleep") == "" && GetInput(inputs, "pre-timeout") == ""
    requires GetInput(inputs, "allow-run-failure") == "" && GetInput(inputs, "post-run") == ""
    requires GetInput(inputs, "allow-post-run-failure") == ""
    requires shlex("-p 2222") == ["-p", "2222"]
    requires w.status(pos) == Some(0)
    ensures ConnectionEvents(GetMainInputConfig(inputs, shlex), w, pos)
      == [Spawned("ssh", ["-p", "2222", "example.com", "uptime"], true), Output(MainRunKey, "true")]
  {
    var cfg := GetMainInputConfig(inputs, shlex);
    assert !IsRustWhitespace("example.com"[0]);
    assert !IsRustWhitespace("-p 2222"[0]);
    assert cfg == InputConfig("ssh", Some(["-p", "2222"]), "example.com", ["exit"], 0, 0, "uptime", false, None, true);
    WorkedExample(w, pos);
  }
}
