/**
 * The JavaScript helpers in js/ffi.cjs that the Rust side imports: the rule by
 * which `spawnCmd` turns a child's exit status into success or a thrown error,
 * the busy-waiting `sleep`, and `retryCommandWithinTime`, the connectivity probe.
 *
 * Time is an abstract clock: `clock(k)` is the value, in milliseconds, that the
 * k-th reading of `Date.now()` (or `new Date()`) returns. Methods take the index
 * of the next reading and return the index after the last reading they made.
 */
module Ffi {
  import opened Wrappers

  /** The `status` field of `child.spawnSync(...)`: an exit code, or null (`None`)
      when the child was ended by a signal or could not be started. */
  type ExitStatus = Option<int>

  /** The error `spawnCmd` throws. */
  datatype SpawnError = SpawnError(cmd: string, args: seq<string>, exitCode: ExitStatus, sync: bool)

  /**
   * `spawnCmd(cmd, args, sync)`, given the status the child ends with. In
   * synchronous mode `handleErr` returns only for a status of exactly 0 and throws
   * for anything else, a null status included. In asynchronous mode the call
   * returns as soon as the child is started; the status reaches `handleErr` later,
   * in a `close` callback.
   */
  function SpawnCmd(cmd: string, args: seq<string>, sync: bool, status: ExitStatus): (r: Outcome<SpawnError>)
    ensures !sync ==> r == Pass
    ensures sync ==> (r == Pass <==> status == Some(0))
    ensures r.Fail? ==> r.error == SpawnError(cmd, args, status, sync)
  {
    if sync && status != Some(0) then Fail(SpawnError(cmd, args, status, sync)) else Pass
  }

  /** Successive readings of the wall clock, in milliseconds. */
  type Clock = nat -> int

  /** Later readings are never earlier. */
  ghost predicate Monotone(clock: Clock) {
    forall i: nat, j: nat :: i <= j ==> clock(i) <= clock(j)
  }

  /** Some reading is later than `t`. */
  ghost predicate Reaches(clock: Clock, t: int) {
    exists k: nat :: clock(k) > t
  }

  /** Time does not stand still for ever: every instant is eventually passed. */
  ghost predicate Advances(clock: Clock) {
    forall t :: Reaches(clock, t)
  }

  /**
   * `sleep(time)`: one reading fixes the end time `time * 1000` ms later, then the
   * loop reads the clock until a reading is no longer before the end time. It
   * returns only once that instant is reached, and at the first reading that
   * reaches it.
   */
  method Sleep(clock: Clock, time: nat, from: nat) returns (next: nat)
    requires Monotone(clock) && Advances(clock)
    ensures from + 1 < next
    ensures clock(next - 1) >= clock(from) + time * 1000
    ensures forall k :: from < k < next - 1 ==> clock(k) < clock(from) + time * 1000
  {
    var endTime := clock(from) + time * 1000;
    assert Reaches(clock, endTime - 1);
    ghost var late: nat :| clock(late) > endTime - 1;
    next := from + 1;
    var now := clock(next);
    next := next + 1;
    while endTime > now
      invariant from + 1 < next
      invariant now == clock(next - 1)
      invariant forall k :: from < k < next - 1 ==> clock(k) < endTime
      decreases late - next
    {
      now := clock(next);
      next := next + 1;
    }
  }

  /** What one attempt of the probe produced: the child's status, or a thrown error. */
  datatype Attempt = Status(status: ExitStatus) | Threw

  /** The value of `code` after one attempt: it starts at 2 and is overwritten only when
      `spawnSync` returns, so a thrown error leaves it at 2. */
  function AttemptCode(a: Attempt): (r: ExitStatus)
    ensures r == Some(0) ==> a == Status(Some(0))
    ensures a.Status? ==> r == a.status
    ensures a.Threw? ==> r == Some(2)
  {
    match a
    case Status(s) => s
    case Threw => Some(2)
  }

  /** `code === 0`: strict equality, so a null status is a failure. */
  predicate Succeeded(a: Attempt) {
    AttemptCode(a) == Some(0)
  }

  /**
   * Between two guard readings of the retry loop at indices `g` and `h` lies one
   * `sleep(1)`: it reads its start at `g + 1` and returns at the first reading, `h - 1`,
   * that is at least 1000 ms later, so the next guard reading is `h`.
   */
  ghost predicate SleepsOneSecond(clock: Clock, g: nat, h: nat) {
    && g + 2 < h
    && clock(h - 1) >= clock(g + 1) + 1000
    && (forall k :: g + 1 < k < h - 1 ==> clock(k) < clock(g + 1) + 1000)
  }

  /** The clock alone fixes where one `sleep(1)` ends, so each guard reading determines the next. */
  lemma NextGuardIsUnique(clock: Clock, g: nat, h: nat, h': nat)
    requires SleepsOneSecond(clock, g, h) && SleepsOneSecond(clock, g, h')
    ensures h == h'
  {
  }

  /** The guard reading at index `g` lets the loop run: it is within the timeout. */
  ghost predicate Within(clock: Clock, timeout: nat, from: nat, g: nat) {
    clock(g) - clock(from) <= timeout * 1000
  }

  /**
   * The guard readings of the first `n` rounds: the first is the reading right after
   * the start, each of them was within the timeout, and one `sleep(1)` separates each
   * from the next.
   */
  ghost predicate Guarded(clock: Clock, timeout: nat, from: nat, guards: seq<nat>, n: nat) {
    && |guards| == n + 1 && guards[0] == from + 1
    && (forall j :: 0 <= j < n ==> Within(clock, timeout, from, guards[j]))
    && (forall j :: 0 <= j < n ==> SleepsOneSecond(clock, guards[j], guards[j + 1]))
  }

  /** A round whose guard held and whose attempt failed, followed by `sleep(1)`, adds a guard reading. */
  lemma ExtendGuards(clock: Clock, timeout: nat, from: nat, guards: seq<nat>, n: nat, h: nat)
    requires Guarded(clock, timeout, from, guards, n)
    requires Within(clock, timeout, from, guards[n]) && SleepsOneSecond(clock, guards[n], h)
    ensures Guarded(clock, timeout, from, guards + [h], n + 1)
  {
    var gs := guards + [h];
    forall j | 0 <= j < n + 1
      ensures Within(clock, timeout, from, gs[j]) && SleepsOneSecond(clock, gs[j], gs[j + 1])
    {
      assert gs[j] == guards[j];
      if j < n {
        assert gs[j + 1] == guards[j + 1];
      }
    }
  }

  /** The end of a failed round of the retry loop: `sleep(1)`, then the next guard
      reading, at least one second after the guard that started the round. */
  method Backoff(clock: Clock, timeout: nat, from: nat, ghost guards: seq<nat>, n: nat, next: nat)
    returns (now: int, next': nat, ghost guards': seq<nat>)
    requires Monotone(clock) && Advances(clock)
    requires Guarded(clock, timeout, from, guards, n) && guards[n] == next - 1
    requires Within(clock, timeout, from, guards[n])
    ensures next + 1 < next'
    ensures now == clock(next' - 1) && now >= clock(next - 1) + 1000
    ensures Guarded(clock, timeout, from, guards', n + 1) && guards'[n + 1] == next' - 1
  {
    var before := next;
    next' := Sleep(clock, 1, next);
    assert clock(before) >= clock(before - 1);
    ExtendGuards(clock, timeout, from, guards, n, next');
    guards' := guards + [next'];
    now := clock(next');
    next' := next' + 1;
  }

  /**
   * `retryCommandWithinTime(cmd, args, timeout)`: `attempt(j)` is what the j-th
   * `spawnSync` of the command produces. The loop stops at the first attempt whose
   * code is 0; after every failed attempt it sleeps one second; it gives up once a
   * guard reading is more than `timeout * 1000` ms after the start reading.
   * `guards` are the indices of the guard readings, one before each attempt and,
   * when the loop gives up, the final one that ends it.
   */
  method RetryCommandWithinTime(clock: Clock, attempt: nat -> Attempt, timeout: nat, from: nat)
    returns (ok: bool, attempts: nat, next: nat, ghost guards: seq<nat>)
    requires Monotone(clock) && Advances(clock)
    ensures from + 1 < next
    ensures attempts >= 1 <==> clock(from + 1) - clock(from) <= timeout * 1000
    ensures attempts <= timeout + 1
    ensures forall j :: 0 <= j < attempts - 1 ==> !Succeeded(attempt(j))
    ensures ok <==> attempts >= 1 && Succeeded(attempt(attempts - 1))
    ensures !ok ==> clock(next - 1) - clock(from) > timeout * 1000
    ensures |guards| == (if ok then attempts else attempts + 1) && guards[|guards| - 1] == next - 1
    ensures Guarded(clock, timeout, from, guards, |guards| - 1)
    ensures ok ==> Within(clock, timeout, from, guards[|guards| - 1])
  {
    var startTime := clock(from);
    next := from + 1;
    attempts := 0;
    assert Reaches(clock, startTime + timeout * 1000);
    ghost var late: nat :| clock(late) > startTime + timeout * 1000;
    var now := clock(next);
    guards := [next];
    next := next + 1;
    while now - startTime <= timeout * 1000
      invariant from + 1 < next
      invariant now == clock(next - 1)
      invariant now >= startTime + 1000 * attempts
      invariant attempts <= timeout + 1
      invariant forall j :: 0 <= j < attempts ==> !Succeeded(attempt(j))
      invariant Guarded(clock, timeout, from, guards, attempts) && guards[attempts] == next - 1
      invariant attempts == 0 ==> next == from + 2
      invariant attempts >= 1 ==> Within(clock, timeout, from, from + 1)
      decreases late - next
    {
      var code: ExitStatus := Some(2);
      match attempt(attempts) {
        case Status(s) => code := s;
        case Threw =>
      }
      assert Within(clock, timeout, from, guards[attempts]);
      if code == Some(0) {
        attempts := attempts + 1;
        ok := true;
        return;
      }
      now, next, guards := Backoff(clock, timeout, from, guards, attempts, next);
      attempts := attempts + 1;
    }
    ok := false;
  }
}
