/**
 * Input coercion in src/lib.rs: the lenient readers `not_empty_or`,
 * `parse_gh_bool` and `parse_gh_num`, and `get_main_input_config`, which turns
 * the action's string inputs into the immutable `InputConfig`. None of them can
 * fail: an empty or unreadable input becomes the default.
 *
 * Quote-aware splitting (the `shlex` crate) is a parameter, `Tokenizer`: what it
 * does with a string is not modelled, only where its result goes.
 */
module Config {
  import opened Wrappers
  import opened Strings
  import opened HostEnv

  /** `Shlex::new(s).collect()`: the tokens of a shell-style command line. */
  type Tokenizer = string -> seq<string>

  /** `not_empty_or`: the default when `raw` is blank, otherwise `raw` itself, untrimmed. */
  function NotEmptyOr(raw: string, dft: string): (r: string)
    ensures Blank(raw) ==> r == dft
    ensures !Blank(raw) ==> r == raw
    ensures !Blank(dft) ==> !Blank(r)
  {
    if Blank(raw) then dft else raw
  }

  /** The closure `wrap_opt` in `get_main_input_config`: absent when blank, otherwise `raw`, untrimmed. */
  function WrapOpt(raw: string): (r: Option<string>)
    ensures r.None? <==> Blank(raw)
    ensures r.Some? ==> r.value == raw && !Blank(r.value)
  {
    if Blank(raw) then None else Some(raw)
  }

  const FalseWords: set<string> := {"false", "n", "no", "off", "err"}
  const TrueWords: set<string> := {"true", "y", "yes", "on", "ok"}

  /** Rust's `bool::from_str`: exactly `true` or `false`, case-sensitive. */
  function ParseBool(s: string): (r: Option<bool>)
    ensures r.Some? <==> s in {"true", "false"}
    ensures r.Some? ==> (r.value <==> s == "true")
  {
    if s == "true" then Some(true) else if s == "false" then Some(false) else None
  }

  /** The two texts `bool::from_str` accepts are themselves keywords of the table. */
  lemma StrictParseAgreesWithTable(x: string)
    requires ParseBool(x).Some?
    ensures AsciiLower(x) == x
    ensures ParseBool(x).value ==> x in TrueWords && x !in FalseWords
    ensures !ParseBool(x).value ==> x in FalseWords && x !in TrueWords
  {
    AsciiLowerOfLower(x);
  }

  /** The decision `parse_gh_bool` makes on the trimmed input text `x`. */
  function ReadBool(x: string, dft: bool): (r: bool)
    ensures x == "" ==> r == dft
    ensures AsciiLower(x) in FalseWords ==> !r
    ensures AsciiLower(x) in TrueWords ==> r
    ensures AsciiLower(x) !in FalseWords + TrueWords ==> r == dft
  {
    if x == "" then dft
    else match ParseBool(x)
      case Some(b) => StrictParseAgreesWithTable(x); b
      case None =>
        var lower := AsciiLower(x);
        if lower in FalseWords then false
        else if lower in TrueWords then true
        else dft
  }

  /**
   * `parse_gh_bool(key, dft)`: the default for a blank input; `bool::from_str` if
   * that accepts the trimmed text; otherwise an ASCII-case-insensitive keyword
   * match; the default for anything else.
   */
  function ParseGhBool(inputs: Inputs, key: string, dft: bool): (r: bool)
    ensures var x := RustTrim(GetInput(inputs, key));
      && (x == "" ==> r == dft)
      && (AsciiLower(x) in FalseWords ==> !r)
      && (AsciiLower(x) in TrueWords ==> r)
      && (AsciiLower(x) !in FalseWords + TrueWords ==> r == dft)
  {
    ReadBool(RustTrim(GetInput(inputs, key)), dft)
  }

  /** Two inputs that differ only in the case of ASCII letters read as the same boolean. */
  lemma GhBoolIgnoresCase(inputs: Inputs, other: Inputs, key: string, dft: bool)
    requires AsciiLower(RustTrim(GetInput(inputs, key))) == AsciiLower(RustTrim(GetInput(other, key)))
    ensures ParseGhBool(inputs, key, dft) == ParseGhBool(other, key, dft)
  {
  }

  /** `parse_gh_num(key)`: 0 for a blank input and for text `u32::from_str` rejects. */
  function ParseGhNum(inputs: Inputs, key: string): (r: U32)
    ensures var x := RustTrim(GetInput(inputs, key));
      && (x == "" ==> r == 0)
      && (ParseU32(x).None? ==> r == 0)
      && (ParseU32(x).Some? ==> r == ParseU32(x).value)
  {
    var x := RustTrim(GetInput(inputs, key));
    if x == "" then 0
    else match ParseU32(x)
      case Some(n) => n
      case None => 0
  }

  /** A number written in decimal, with or without surrounding blanks, is read back as itself. */
  lemma GhNumReadsDecimal(inputs: Inputs, key: string, n: U32)
    requires RustTrim(GetInput(inputs, key)) == Decimal(n)
    ensures ParseGhNum(inputs, key) == n
  {
    ParseDecimal(n);
  }

  /** `InputConfig`: the resolved settings of one run. */
  datatype InputConfig = InputConfig(
    sshBin: string,
    args: Option<seq<string>>,
    host: string,
    preExitCmd: seq<string>,
    preSleep: U32,
    preTimeout: U32,
    run: string,
    allowRunFailure: bool,
    postRun: Option<string>,
    allowPostRunFailure: bool)

  /**
   * The text `pre-exit-cmd` resolves to. The literal `exit` is used as the token
   * list `["exit"]` directly; anything else goes through the tokenizer.
   */
  function PreExitText(inputs: Inputs): string {
    NotEmptyOr(GetInput(inputs, "pre-exit-cmd"), "exit")
  }

  lemma DefaultsAreNotBlank()
    ensures !Blank("ssh") && !Blank("127.0.0.1")
  {
    assert !IsRustWhitespace("ssh"[0]);
    assert !IsRustWhitespace("127.0.0.1"[0]);
  }

  /** `get_main_input_config`. */
  function GetMainInputConfig(inputs: Inputs, shlex: Tokenizer): (cfg: InputConfig)
    ensures cfg.sshBin == NotEmptyOr(GetInput(inputs, "ssh-bin"), "ssh")
    ensures cfg.host == NotEmptyOr(GetInput(inputs, "host"), "127.0.0.1")
    ensures !Blank(cfg.sshBin) && !Blank(cfg.host)
    ensures Blank(GetInput(inputs, "ssh-bin")) ==> cfg.sshBin == "ssh"
    ensures Blank(GetInput(inputs, "host")) ==> cfg.host == "127.0.0.1"
    ensures cfg.args.None? <==> Blank(GetInput(inputs, "args"))
    ensures cfg.args.Some? ==> cfg.args.value == shlex(GetInput(inputs, "args"))
    ensures PreExitText(inputs) == "exit" ==> cfg.preExitCmd == ["exit"]
    ensures PreExitText(inputs) != "exit" ==> cfg.preExitCmd == shlex(GetInput(inputs, "pre-exit-cmd"))
    ensures cfg.preSleep == ParseGhNum(inputs, "pre-sleep")
    ensures cfg.preTimeout == ParseGhNum(inputs, "pre-timeout")
    ensures cfg.run == GetInput(inputs, "run")
    ensures cfg.allowRunFailure == ParseGhBool(inputs, "allow-run-failure", false)
    ensures cfg.postRun == WrapOpt(GetInput(inputs, "post-run"))
    ensures cfg.allowPostRunFailure == ParseGhBool(inputs, "allow-post-run-failure", true)
  {
    DefaultsAreNotBlank();
    var args := match WrapOpt(GetInput(inputs, "args"))
      case None => None
      case Some(raw) => Some(shlex(raw));
    var preExit := PreExitText(inputs);
    InputConfig(
      sshBin := NotEmptyOr(GetInput(inputs, "ssh-bin"), "ssh"),
      args := args,
      host := NotEmptyOr(GetInput(inputs, "host"), "127.0.0.1"),
      preExitCmd := if preExit == "exit" then ["exit"] else shlex(preExit),
      preSleep := ParseGhNum(inputs, "pre-sleep"),
      preTimeout := ParseGhNum(inputs, "pre-timeout"),
      run := GetInput(inputs, "run"),
      allowRunFailure := ParseGhBool(inputs, "allow-run-failure", false),
      postRun := WrapOpt(GetInput(inputs, "post-run")),
      allowPostRunFailure := ParseGhBool(inputs, "allow-post-run-failure", true))
  }

  /** When `pre-exit-cmd` resolves to `exit`, the tokenizer is not consulted: any two
      tokenizers give the same single-token probe command. */
  lemma ExitDefaultBypassesTokenizer(inputs: Inputs, shlex: Tokenizer, other: Tokenizer)
    requires PreExitText(inputs) == "exit"
    ensures GetMainInputConfig(inputs, shlex).preExitCmd == ["exit"]
    ensures GetMainInputConfig(inputs, shlex).preExitCmd == GetMainInputConfig(inputs, other).preExitCmd
  {
  }

  /** With no inputs at all, every setting takes its default. */
  lemma DefaultConfig(shlex: Tokenizer)
    ensures GetMainInputConfig(map[], shlex)
      == InputConfig("ssh", None, "127.0.0.1", ["exit"], 0, 0, "", false, None, true)
  {
  }
}
