/**
 * The host the Rust code runs in, as a fake that records what the code asks of
 * it. These are the functions src/lib.rs imports through `wasm_bindgen`:
 * `getInput` and `setOutput` from the Actions toolkit, `chdir` from Node's
 * `process`, and `spawnCmd`, `sleep`, `nodeExit` and `retryCommandWithinTime`
 * from js/ffi.cjs. Every request becomes an `Event` appended to `trace`; the
 * outcome of a child process or of the probe is read from an oracle, `World`,
 * indexed by the position of the request in the trace.
 */
module HostEnv {
  import opened Wrappers
  import opened Strings
  import Ffi

  /** The action's inputs by name, as `getInput` delivers them. */
  type Inputs = map<string, string>

  /** `getInput(key)`: an input that was not given reads as the empty string. */
  function GetInput(inputs: Inputs, key: string): (r: string)
    ensures key !in inputs ==> r == ""
    ensures key in inputs ==> r == inputs[key]
  {
    if key in inputs then inputs[key] else ""
  }

  /** Rust's `bool::to_string`, the text every status output carries. */
  function BoolText(b: bool): string {
    if b then "true" else "false"
  }

  /** One request made of the host, in the order made. */
  datatype Event =
    | Slept(seconds: U32)                                    // sleep(seconds)
    | Probed(bin: string, args: seq<string>, timeout: U32)   // retryCommandWithinTime(bin, args, timeout)
    | Spawned(bin: string, args: seq<string>, sync: bool)    // spawnCmd(bin, args, sync)
    | Output(key: string, value: string)                     // setOutput(key, value)
    | ChangedDir(dir: string)                                // chdir(dir)
    | Exited(code: int)                                      // nodeExit(code)

  /**
   * What the outside world answers: `status(p)` is the exit status of the child
   * spawned by the request at trace position `p`, and `probe(p)` is whether the
   * probe requested at position `p` got through before its timeout.
   */
  datatype World = World(status: nat -> Ffi.ExitStatus, probe: nat -> bool)

  /** The host function an event records a call to. */
  datatype Kind = SleepKind | ProbeKind | SpawnKind | OutputKind | ChdirKind | ExitKind

  function KindOf(e: Event): Kind {
    match e
    case Slept(_) => SleepKind
    case Probed(_, _, _) => ProbeKind
    case Spawned(_, _, _) => SpawnKind
    case Output(_, _) => OutputKind
    case ChangedDir(_) => ChdirKind
    case Exited(_) => ExitKind
  }

  /** The event itself if it is of this kind, otherwise nothing. */
  function Pick(e: Event, kind: Kind): seq<Event> {
    if KindOf(e) == kind then [e] else []
  }

  /** The requests of one kind, in order. */
  function Select(events: seq<Event>, kind: Kind): (r: seq<Event>)
    ensures |r| <= |events|
  {
    if events == [] then [] else Pick(events[0], kind) + Select(events[1..], kind)
  }

  /** The value the event writes to output `key`, if it writes one. */
  function ValueFor(e: Event, key: string): seq<string> {
    if e.Output? && e.key == key then [e.value] else []
  }

  /** The values written to output `key`, in order. */
  function OutputsOf(events: seq<Event>, key: string): (r: seq<string>)
    ensures |r| <= |events|
  {
    if events == [] then [] else ValueFor(events[0], key) + OutputsOf(events[1..], key)
  }

  lemma {:induction false} OutputsOfAppend(a: seq<Event>, b: seq<Event>, key: string)
    ensures OutputsOf(a + b, key) == OutputsOf(a, key) + OutputsOf(b, key)
  {
    if a != [] {
      assert (a + b)[0] == a[0] && (a + b)[1..] == a[1..] + b;
      OutputsOfAppend(a[1..], b, key);
    } else {
      assert a + b == b;
    }
  }

  lemma {:induction false} SelectAppend(a: seq<Event>, b: seq<Event>, kind: Kind)
    ensures Select(a + b, kind) == Select(a, kind) + Select(b, kind)
  {
    if a != [] {
      assert (a + b)[0] == a[0] && (a + b)[1..] == a[1..] + b;
      SelectAppend(a[1..], b, kind);
    } else {
      assert a + b == b;
    }
  }

  /** Traces grow by appending: appending in two steps is appending the two parts at once. */
  lemma AppendAssoc(a: seq<Event>, b: seq<Event>, c: seq<Event>)
    ensures a + b + c == a + (b + c)
  {
  }

  /** Selecting from a one-request list. */
  lemma SelectOne(a: Event, kind: Kind)
    ensures Select([a], kind) == Pick(a, kind)
  {
    assert [a][1..] == [];
  }

  lemma SelectTwo(a: Event, b: Event, kind: Kind)
    ensures Select([a, b], kind) == Pick(a, kind) + Pick(b, kind)
  {
    assert [a, b][1..] == [b];
    SelectOne(b, kind);
  }

  lemma SelectThree(a: Event, b: Event, c: Event, kind: Kind)
    ensures Select([a, b, c], kind) == Pick(a, kind) + (Pick(b, kind) + Pick(c, kind))
  {
    assert [a, b, c][1..] == [b, c];
    SelectTwo(b, c, kind);
  }

  lemma SelectFour(a: Event, b: Event, c: Event, d: Event, kind: Kind)
    ensures Select([a, b, c, d], kind) == Pick(a, kind) + (Pick(b, kind) + (Pick(c, kind) + Pick(d, kind)))
  {
    assert [a, b, c, d][1..] == [b, c, d];
    assert [b, c, d][1..] == [c, d];
    SelectTwo(c, d, kind);
    assert Select([b, c, d], kind) == Pick(b, kind) + Select([c, d], kind);
  }

  lemma OutputsOfOne(a: Event, key: string)
    ensures OutputsOf([a], key) == ValueFor(a, key)
  {
    assert [a][1..] == [];
  }

  lemma OutputsOfTwo(a: Event, b: Event, key: string)
    ensures OutputsOf([a, b], key) == ValueFor(a, key) + ValueFor(b, key)
  {
    assert [a, b][1..] == [b];
    OutputsOfOne(b, key);
  }

  lemma OutputsOfThree(a: Event, b: Event, c: Event, key: string)
    ensures OutputsOf([a, b, c], key) == ValueFor(a, key) + (ValueFor(b, key) + ValueFor(c, key))
  {
    assert [a, b, c][1..] == [b, c];
    OutputsOfTwo(b, c, key);
  }

  lemma OutputsOfFour(a: Event, b: Event, c: Event, d: Event, key: string)
    ensures OutputsOf([a, b, c, d], key) == ValueFor(a, key) + (ValueFor(b, key) + (ValueFor(c, key) + ValueFor(d, key)))
  {
    assert [a, b, c, d][1..] == [b, c, d];
    assert [b, c, d][1..] == [c, d];
    OutputsOfTwo(c, d, key);
    assert OutputsOf([b, c, d], key) == ValueFor(b, key) + OutputsOf([c, d], key);
  }

  /** No exit has been requested: `process.exit` does not return, so nothing can follow one. */
  ghost predicate Running(trace: seq<Event>) {
    forall i :: 0 <= i < |trace| ==> !trace[i].Exited?
  }

  class Host {
    const inputs: Inputs
    const world: World
    var trace: seq<Event>

    constructor (inputs: Inputs, world: World)
      ensures this.inputs == inputs && this.world == world && trace == []
    {
      this.inputs := inputs;
      this.world := world;
      trace := [];
    }

    /** The host has not been told to exit. */
    ghost predicate Live()
      reads this
    {
      Running(trace)
    }

    method SetOutput(key: string, value: string)
      requires Live()
      modifies this
      ensures trace == old(trace) + [Output(key, value)]
      ensures Live()
    {
      trace := trace + [Output(key, value)];
    }

    method Sleep(seconds: U32)
      requires Live()
      modifies this
      ensures trace == old(trace) + [Slept(seconds)]
      ensures Live()
    {
      trace := trace + [Slept(seconds)];
    }

    method Chdir(dir: string)
      requires Live()
      modifies this
      ensures trace == old(trace) + [ChangedDir(dir)]
      ensures Live()
    {
      trace := trace + [ChangedDir(dir)];
    }

    /** `spawn_cmd`, imported with `catch`: a thrown error becomes `Err`. */
    method SpawnCmd(cmd: string, args: seq<string>, sync: bool) returns (r: Outcome<Ffi.SpawnError>)
      requires Live()
      modifies this
      ensures trace == old(trace) + [Spawned(cmd, args, sync)]
      ensures r == Ffi.SpawnCmd(cmd, args, sync, world.status(|old(trace)|))
      ensures Live()
    {
      r := Ffi.SpawnCmd(cmd, args, sync, world.status(|trace|));
      trace := trace + [Spawned(cmd, args, sync)];
    }

    method RetryCommandWithinTime(cmd: string, args: seq<string>, timeout: U32) returns (ok: bool)
      requires Live()
      modifies this
      ensures trace == old(trace) + [Probed(cmd, args, timeout)]
      ensures ok == world.probe(|old(trace)|)
      ensures Live()
    {
      ok := world.probe(|trace|);
      trace := trace + [Probed(cmd, args, timeout)];
    }

    method NodeExit(code: int)
      requires Live()
      modifies this
      ensures trace == old(trace) + [Exited(code)]
    {
      trace := trace + [Exited(code)];
    }
  }
}
