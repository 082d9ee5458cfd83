/**
 * lib/index.js, the earlier JavaScript entry point: it reads `host`, `args` and
 * `run`, turns the multi-line `args` input into one argument per kept line,
 * appends the host and the command, runs `ssh` with that list and turns a
 * non-zero close code into a thrown error.
 *
 * The line pipeline is `split(/[\r\n]+/)`, then `trim()` on every piece, then a
 * filter that drops what matches `/^\s|^#|^$/`.
 */
module Legacy {
  import opened Wrappers
  import opened Strings
  import opened HostEnv

  /** The characters of the class `[\r\n]`. */
  predicate IsBreak(c: char) {
    c == '\r' || c == '\n'
  }

  predicate NoBreak(s: string) {
    forall k :: 0 <= k < |s| ==> !IsBreak(s[k])
  }

  /** The first line break at or after `i`, or `|s|` when there is none. */
  function NextBreak(s: string, i: nat): (r: nat)
    requires i <= |s|
    ensures i <= r <= |s|
    ensures forall k :: i <= k < r ==> !IsBreak(s[k])
    ensures r < |s| ==> IsBreak(s[r])
    decreases |s| - i
  {
    if i == |s| || IsBreak(s[i]) then i else NextBreak(s, i + 1)
  }

  /** The end of the run of line breaks that starts at `i`: the greedy match of `[\r\n]+`. */
  function SkipBreaks(s: string, i: nat): (r: nat)
    requires i <= |s|
    ensures i <= r <= |s|
    ensures forall k :: i <= k < r ==> IsBreak(s[k])
    ensures r < |s| ==> !IsBreak(s[r])
    ensures i < |s| && IsBreak(s[i]) ==> i < r
    decreases |s| - i
  {
    if i == |s| || !IsBreak(s[i]) then i else SkipBreaks(s, i + 1)
  }

  /**
   * `s.split(/[\r\n]+/)`: the pieces between maximal runs of CR and LF. A leading
   * run gives an empty first piece and a trailing run an empty last piece; every
   * other piece is non-empty, and none contains a line break.
   */
  function SplitLines(s: string): (r: seq<string>)
    ensures |r| >= 1
    ensures forall k :: 0 <= k < |r| ==> NoBreak(r[k])
    ensures s == [] ==> r == [""]
    ensures NoBreak(s) ==> r == [s]
    ensures s != [] && !IsBreak(s[0]) ==> r[0] != []
    ensures forall k :: 0 < k < |r| - 1 ==> r[k] != []
    decreases |s|
  {
    var i := NextBreak(s, 0);
    if i == |s| then [s]
    else
      var rest := s[SkipBreaks(s, i)..];
      var tail := SplitLines(rest);
      assert rest == [] ==> tail == [""];
      [s[..i]] + tail
  }

  /** The characters of `s` that are not line breaks, in order. */
  function RemoveBreaks(s: string): string {
    if s == [] then [] else (if IsBreak(s[0]) then [] else [s[0]]) + RemoveBreaks(s[1..])
  }

  /** The pieces written one after the other. */
  function Concat(pieces: seq<string>): string {
    if pieces == [] then [] else pieces[0] + Concat(pieces[1..])
  }

  /** A text that has a line break splits into the text before it and the pieces after the run. */
  lemma SplitLinesStep(s: string, i: nat, j: nat)
    requires i == NextBreak(s, 0) < |s| && j == SkipBreaks(s, i)
    ensures SplitLines(s) == [s[..i]] + SplitLines(s[j..])
  {
  }

  lemma ConcatCons(p: string, ps: seq<string>)
    ensures Concat([p] + ps) == p + Concat(ps)
  {
    assert ([p] + ps)[1..] == ps;
  }

  /** Removing the breaks from a text that has no break before `i` and only breaks
      from `i` to `j` keeps the part before `i` and continues after `j`. */
  lemma {:induction false} RemoveBreaksAround(s: string, i: nat, j: nat)
    requires i <= j <= |s|
    requires forall k :: 0 <= k < i ==> !IsBreak(s[k])
    requires forall k :: i <= k < j ==> IsBreak(s[k])
    ensures RemoveBreaks(s) == s[..i] + RemoveBreaks(s[j..])
    decreases j
  {
    if j == 0 {
      assert s[j..] == s;
    } else {
      var t := s[1..];
      forall k | 0 <= k < i - 1
        ensures !IsBreak(t[k])
      {
        assert t[k] == s[k + 1];
      }
      if i > 0 {
        forall k | i - 1 <= k < j - 1
          ensures IsBreak(t[k])
        {
          assert t[k] == s[k + 1];
        }
        RemoveBreaksAround(t, i - 1, j - 1);
        assert t[j - 1..] == s[j..];
        assert [s[0]] + t[..i - 1] == s[..i];
      } else {
        forall k | 0 <= k < j - 1
          ensures IsBreak(t[k])
        {
          assert t[k] == s[k + 1];
        }
        RemoveBreaksAround(t, 0, j - 1);
        assert t[j - 1..] == s[j..];
      }
    }
  }

  /** Splitting loses exactly the line breaks: the pieces, written one after the
      other, are the input without its CR and LF characters. */
  lemma {:induction false} SplitLinesKeepsText(s: string)
    ensures Concat(SplitLines(s)) == RemoveBreaks(s)
    decreases |s|
  {
    var i := NextBreak(s, 0);
    if i == |s| {
      ConcatCons(s, []);
      RemoveBreaksAround(s, |s|, |s|);
    } else {
      var j := SkipBreaks(s, i);
      SplitLinesKeepsText(s[j..]);
      SplitLinesStep(s, i, j);
      ConcatCons(s[..i], SplitLines(s[j..]));
      RemoveBreaksAround(s, i, j);
    }
  }

  /** `map((x) => x.trim())`. */
  function TrimEach(lines: seq<string>): (r: seq<string>)
    ensures |r| == |lines|
    ensures forall k :: 0 <= k < |lines| ==> r[k] == JsTrim(lines[k])
  {
    seq(|lines|, k requires 0 <= k < |lines| => JsTrim(lines[k]))
  }

  /** A line `/^\s|^#|^$/` matches: it starts with white space or `#`, or is empty. */
  predicate Dropped(x: string) {
    (x != [] && IsJsWhitespace(x[0])) || (x != [] && x[0] == '#') || x == []
  }

  /** `filter((x) => !x.match(/^\s|^#|^$/))`: the lines that do not match, in order. */
  function KeepLines(lines: seq<string>): (r: seq<string>)
    ensures |r| <= |lines|
    ensures forall k :: 0 <= k < |r| ==> !Dropped(r[k])
  {
    if lines == [] then []
    else (if Dropped(lines[0]) then [] else [lines[0]]) + KeepLines(lines[1..])
  }

  /** The filter keeps exactly the lines the pattern does not match. */
  lemma {:induction false} KeepLinesMembers(lines: seq<string>)
    ensures forall x :: x in KeepLines(lines) <==> x in lines && !Dropped(x)
  {
    if lines != [] {
      KeepLinesMembers(lines[1..]);
      assert lines == [lines[0]] + lines[1..];
    }
  }

  /** Filtering keeps the relative order of the lines it keeps. */
  lemma {:induction false} KeepLinesAppend(a: seq<string>, b: seq<string>)
    ensures KeepLines(a + b) == KeepLines(a) + KeepLines(b)
  {
    if a != [] {
      assert (a + b)[0] == a[0] && (a + b)[1..] == a[1..] + b;
      KeepLinesAppend(a[1..], b);
    } else {
      assert a + b == b;
    }
  }

  /** After `trim()`, the `^\s` alternative never matches: a trimmed line is dropped
      exactly when it is empty or starts with `#`. */
  lemma LeadingSpaceAlternativeIsRedundant(line: string)
    ensures Dropped(JsTrim(line)) <==> JsTrim(line) == [] || JsTrim(line)[0] == '#'
  {
  }

  /** The extra arguments lib/index.js builds from the `args` input. */
  function LineArgs(raw: string): (r: seq<string>)
    ensures |r| <= |SplitLines(raw)|
    ensures forall k :: 0 <= k < |r| ==> r[k] != [] && r[k][0] != '#'
  {
    KeepLines(TrimEach(SplitLines(raw)))
  }

  /** Every argument taken from `args` is a whole line, trimmed, non-empty and not a comment. */
  lemma LineArgsAreCleanLines(raw: string)
    ensures forall x :: x in LineArgs(raw) ==>
      && x != [] && x[0] != '#' && !IsJsWhitespace(x[0]) && !IsJsWhitespace(x[|x| - 1])
      && exists line :: line in SplitLines(raw) && x == JsTrim(line)
  {
    var lines := SplitLines(raw);
    var trimmed := TrimEach(lines);
    KeepLinesMembers(trimmed);
    forall x | x in LineArgs(raw)
      ensures exists line :: line in lines && x == JsTrim(line)
    {
      assert x in trimmed;
      var k :| 0 <= k < |trimmed| && trimmed[k] == x;
      assert lines[k] in lines;
    }
  }

  /** `get("host") || "127.0.0.1"`: only the empty string falls back; a blank host is kept. */
  function LegacyHost(inputs: Inputs): (r: string)
    ensures GetInput(inputs, "host") == "" ==> r == "127.0.0.1"
    ensures GetInput(inputs, "host") != "" ==> r == GetInput(inputs, "host")
  {
    var host := GetInput(inputs, "host");
    if host == "" then "127.0.0.1" else host
  }

  /**
   * The program and argument list lib/index.js spawns: `ssh` with the kept lines of
   * `args`, then the host, then `run`, which is appended even when empty.
   */
  method LegacyCommand(inputs: Inputs) returns (bin: string, args: seq<string>)
    ensures bin == "ssh"
    ensures args == LineArgs(GetInput(inputs, "args")) + [LegacyHost(inputs)] + [GetInput(inputs, "run")]
  {
    var host := LegacyHost(inputs);
    var cmd := GetInput(inputs, "run");
    args := LineArgs(GetInput(inputs, "args"));
    args := args + [host];
    args := args + [cmd];
    bin := "ssh";
  }

  /** What the `close` handler does with the child's exit code (null for a signal). */
  datatype CloseAction = Throws(code: Option<int>) | ExitsWith(status: int)

  /** `code !== 0` throws; otherwise `process.exit(code)`, which is `process.exit(0)`. */
  function OnClose(code: Option<int>): (r: CloseAction)
    ensures r.ExitsWith? <==> code == Some(0)
    ensures r.ExitsWith? ==> r.status == 0
    ensures r.Throws? ==> r.code == code
  {
    if code != Some(0) then Throws(code) else ExitsWith(0)
  }
}
