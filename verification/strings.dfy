/**
 * The pieces of the Rust and JavaScript standard libraries that the action's
 * input handling relies on: whitespace trimming (`str::trim`,
 * `String.prototype.trim`), `str::to_ascii_lowercase` and `u32::from_str`.
 */
module Strings {
  import opened Wrappers

  /** Rust's `u32`. */
  type U32 = x: int | 0 <= x < 0x1_0000_0000

  /** Rust's `char::is_whitespace`: the characters with the Unicode White_Space property. */
  predicate IsRustWhitespace(c: char) {
    ('\t' <= c <= '\r') || c == ' ' || c == '\U{85}' || c == '\U{A0}' || c == '\U{1680}'
    || ('\U{2000}' <= c <= '\U{200A}') || c == '\U{2028}' || c == '\U{2029}'
    || c == '\U{202F}' || c == '\U{205F}' || c == '\U{3000}'
  }

  /**
   * What ECMAScript's `String.prototype.trim` and the regular-expression class `\s`
   * treat as white space: WhiteSpace (tab, VT, FF, ZWNBSP and the Zs category) and
   * LineTerminator. Unlike Rust it includes U+FEFF and excludes U+0085.
   */
  predicate IsJsWhitespace(c: char) {
    c == '\t' || c == '\U{B}' || c == '\U{C}' || c == ' ' || c == '\U{A0}' || c == '\U{FEFF}'
    || c == '\U{1680}' || ('\U{2000}' <= c <= '\U{200A}') || c == '\U{202F}'
    || c == '\U{205F}' || c == '\U{3000}'
    || c == '\n' || c == '\r' || c == '\U{2028}' || c == '\U{2029}'
  }

  /** Drops the leading characters that satisfy `ws`. */
  function TrimStart(s: string, ws: char -> bool): (r: string)
    ensures |r| <= |s| && r == s[|s| - |r|..]
    ensures forall i :: 0 <= i < |s| - |r| ==> ws(s[i])
    ensures r == [] || !ws(r[0])
  {
    if s == [] || !ws(s[0]) then s else TrimStart(s[1..], ws)
  }

  /** Drops the trailing characters that satisfy `ws`. */
  function TrimEnd(s: string, ws: char -> bool): (r: string)
    ensures |r| <= |s| && r == s[..|r|]
    ensures forall i :: |r| <= i < |s| ==> ws(s[i])
    ensures r == [] || !ws(r[|r| - 1])
  {
    if s == [] || !ws(s[|s| - 1]) then s else TrimEnd(s[..|s| - 1], ws)
  }

  /** What is left after trimming both ends begins and ends with a character that is kept. */
  lemma TrimBothEnds(s: string, ws: char -> bool)
    ensures var r := TrimEnd(TrimStart(s, ws), ws);
      r != [] ==> !ws(r[0]) && !ws(r[|r| - 1])
  {
    var t := TrimStart(s, ws);
    var r := TrimEnd(t, ws);
    if r != [] {
      assert r[0] == t[0];
    }
  }

  /** A text that already begins and ends with kept characters is left unchanged. */
  lemma TrimBothKeeps(s: string, ws: char -> bool)
    ensures s == [] || (!ws(s[0]) && !ws(s[|s| - 1])) ==> TrimEnd(TrimStart(s, ws), ws) == s
  {
    if s == [] || (!ws(s[0]) && !ws(s[|s| - 1])) {
      assert TrimStart(s, ws) == s;
    }
  }

  /** Every character of `s` before `a` and from `b` on satisfies `ws`. */
  predicate OnlyOutside(s: string, ws: char -> bool, a: nat, b: nat)
    requires a <= b <= |s|
  {
    (forall i :: 0 <= i < a ==> ws(s[i])) && (forall i :: b <= i < |s| ==> ws(s[i]))
  }

  /** What is left is the slice of `s` between a prefix and a suffix of characters that satisfy `ws`. */
  lemma TrimIsSlice(s: string, ws: char -> bool)
    ensures exists a: nat, b: nat :: a <= b <= |s| && TrimEnd(TrimStart(s, ws), ws) == s[a..b] && OnlyOutside(s, ws, a, b)
  {
    var t := TrimStart(s, ws);
    var r := TrimEnd(t, ws);
    var a := |s| - |t|;
    var b := a + |r|;
    assert r == s[a..b] by {
      assert t == s[a..] && r == t[..|r|];
    }
    forall i | b <= i < |s|
      ensures ws(s[i])
    {
      assert s[i] == t[i - a];
    }
    assert OnlyOutside(s, ws, a, b);
  }

  /** Drops leading and trailing characters that satisfy `ws`. */
  function Trim(s: string, ws: char -> bool): (r: string)
    ensures exists a: nat, b: nat :: a <= b <= |s| && r == s[a..b] && OnlyOutside(s, ws, a, b)
    ensures r != [] ==> !ws(r[0]) && !ws(r[|r| - 1])
    ensures s == [] || (!ws(s[0]) && !ws(s[|s| - 1])) ==> r == s
  {
    TrimIsSlice(s, ws);
    TrimBothEnds(s, ws);
    TrimBothKeeps(s, ws);
    TrimEnd(TrimStart(s, ws), ws)
  }

  /** Trimming leaves nothing exactly when every character satisfies `ws`. */
  lemma TrimEmptyIffAll(s: string, ws: char -> bool)
    ensures Trim(s, ws) == [] <==> forall i :: 0 <= i < |s| ==> ws(s[i])
  {
    var r := Trim(s, ws);
    var a: nat, b: nat :| a <= b <= |s| && r == s[a..b] && OnlyOutside(s, ws, a, b);
    if r != [] {
      assert r[0] == s[a];
    }
  }

  /** Rust's `str::trim`. */
  function RustTrim(s: string): (r: string)
    ensures exists a: nat, b: nat :: a <= b <= |s| && r == s[a..b] && OnlyOutside(s, IsRustWhitespace, a, b)
    ensures r != [] ==> !IsRustWhitespace(r[0]) && !IsRustWhitespace(r[|r| - 1])
  {
    Trim(s, IsRustWhitespace)
  }

  /** Every character is white space: what `s.trim().is_empty()` tests. */
  predicate Blank(s: string) {
    forall i :: 0 <= i < |s| ==> IsRustWhitespace(s[i])
  }

  /** `str::trim` leaves nothing exactly when the text is blank. */
  lemma TrimEmptyIffBlank(s: string)
    ensures RustTrim(s) == "" <==> Blank(s)
  {
    TrimEmptyIffAll(s, IsRustWhitespace);
  }

  /** JavaScript's `String.prototype.trim`. */
  function JsTrim(s: string): (r: string)
    ensures exists a: nat, b: nat :: a <= b <= |s| && r == s[a..b] && OnlyOutside(s, IsJsWhitespace, a, b)
    ensures r != [] ==> !IsJsWhitespace(r[0]) && !IsJsWhitespace(r[|r| - 1])
  {
    Trim(s, IsJsWhitespace)
  }

  /** `char::to_ascii_lowercase`: only `A`..`Z` change. */
  function LowerChar(c: char): (r: char)
    ensures 'A' <= c <= 'Z' ==> 'a' <= r <= 'z' && r as int - c as int == 32
    ensures !('A' <= c <= 'Z') ==> r == c
  {
    if 'A' <= c <= 'Z' then (c as int + 32) as char else c
  }

  /** `str::to_ascii_lowercase`. */
  function AsciiLower(s: string): (r: string)
    ensures |r| == |s|
    ensures forall i :: 0 <= i < |s| ==> r[i] == LowerChar(s[i])
  {
    seq(|s|, i requires 0 <= i < |s| => LowerChar(s[i]))
  }

  /** A string without upper-case ASCII letters is its own lower-case form. */
  lemma AsciiLowerOfLower(s: string)
    requires forall i :: 0 <= i < |s| ==> !('A' <= s[i] <= 'Z')
    ensures AsciiLower(s) == s
  {
  }

  predicate IsDigit(c: char) {
    '0' <= c <= '9'
  }

  predicate AllDigits(s: string) {
    forall i :: 0 <= i < |s| ==> IsDigit(s[i])
  }

  /** The number written by a string of decimal digits, most significant first. */
  function DigitsValue(ds: string): nat
    requires AllDigits(ds)
  {
    if ds == [] then 0 else DigitsValue(ds[..|ds| - 1]) * 10 + (ds[|ds| - 1] as int - '0' as int)
  }

  /**
   * Rust's `u32::from_str`: an optional `+` followed by at least one ASCII digit
   * (leading zeros allowed, no `-` for an unsigned type), rejected when the value
   * does not fit in 32 bits.
   */
  function ParseU32(s: string): (r: Option<U32>)
    ensures r.Some? <==>
      var ds := if |s| > 0 && s[0] == '+' then s[1..] else s;
      ds != [] && AllDigits(ds) && DigitsValue(ds) < 0x1_0000_0000
    ensures r.Some? ==> r.value == DigitsValue(if s[0] == '+' then s[1..] else s)
  {
    var ds := if |s| > 0 && s[0] == '+' then s[1..] else s;
    if ds == [] || !AllDigits(ds) then None
    else if DigitsValue(ds) < 0x1_0000_0000 then Some(DigitsValue(ds))
    else None
  }

  /** The decimal text of `n` without leading zeros, as `u32`'s `Display` writes it. */
  function Decimal(n: nat): (r: string)
    ensures r != [] && AllDigits(r)
  {
    if n < 10 then [('0' as int + n) as char]
    else Decimal(n / 10) + [('0' as int + n % 10) as char]
  }

  /** Reading back the decimal text of a number gives that number. */
  lemma {:induction false} DecimalValue(n: nat)
    ensures DigitsValue(Decimal(n)) == n
  {
    if n >= 10 {
      DecimalValue(n / 10);
      var d := Decimal(n);
      assert d[..|d| - 1] == Decimal(n / 10);
    }
  }

  /** `u32::from_str` inverts `Display` on every `u32`, with or without a leading `+`. */
  lemma ParseDecimal(n: U32)
    ensures ParseU32(Decimal(n)) == Some(n)
    ensures ParseU32("+" + Decimal(n)) == Some(n)
  {
    DecimalValue(n);
    var d := Decimal(n);
    assert ("+" + d)[1..] == d;
  }

  /** One past `u32::MAX` is rejected as an overflow. */
  lemma ParseOverflow()
    ensures ParseU32(Decimal(0x1_0000_0000)) == None
  {
    DecimalValue(0x1_0000_0000);
  }
}
