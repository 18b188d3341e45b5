/** Character classes, decimal numerals and the error-or-value result that both
    lexers of the robot assembly toolchain share. These stand for the parts of
    Rust's standard library the lexers call: char::is_whitespace, char::is_digit(10),
    str::parse::<i32>() and the Display format of integers. */
module Text {

  /** An operation that either yields a value or stops with a message. The
      source stops with panic!(...) or unwrap(); the model carries that exact
      message in Err. */
  datatype Result<+T> = Ok(value: T) | Err(error: string) {
    predicate IsFailure() { Err? }
    function PropagateFailure<U>(): Result<U> requires Err? { Err(error) }
    function Extract(): T requires Ok? { value }
  }

  /** Rust's i32. */
  newtype i32 = x: int | -0x8000_0000 <= x < 0x8000_0000

  const I32Max: int := 0x7fff_ffff

  /** The message of `.parse::<i32>().unwrap()` when the digits exceed i32::MAX. */
  const OverflowPanic: string :=
    "called `Result::unwrap()` on an `Err` value: ParseIntError { kind: PosOverflow }"

  /** char::is_whitespace: the characters with the Unicode White_Space property. */
  predicate IsWhitespace(c: char) { c in WhitespaceChars }

  const WhitespaceChars: set<char> := {
    '\t', '\n', '\U{000B}', '\U{000C}', '\r', ' ', '\U{0085}', '\U{00A0}', '\U{1680}',
    '\U{2000}', '\U{2001}', '\U{2002}', '\U{2003}', '\U{2004}', '\U{2005}', '\U{2006}',
    '\U{2007}', '\U{2008}', '\U{2009}', '\U{200A}', '\U{2028}', '\U{2029}', '\U{202F}',
    '\U{205F}', '\U{3000}'
  }

  /** The punctuation and digits the lexers dispatch on are not whitespace. */
  lemma PunctuationIsNotWhitespace()
    ensures !IsWhitespace(':') && !IsWhitespace(',')
    ensures forall c | '0' <= c <= '9' :: !IsWhitespace(c)
  {
  }

  /** No printable ASCII character other than the space is whitespace. */
  lemma GraphicIsNotWhitespace()
    ensures forall c | '!' <= c <= '~' :: !IsWhitespace(c)
  {
  }

  /** char::is_digit(10), which is also the `'0'..='9'` pattern. */
  predicate IsDigit(c: char) { '0' <= c <= '9' }

  predicate AllWhitespace(s: seq<char>) { forall i | 0 <= i < |s| :: IsWhitespace(s[i]) }

  predicate AllDigits(s: seq<char>) { forall i | 0 <= i < |s| :: IsDigit(s[i]) }

  function DigitValue(c: char): (d: nat)
    requires IsDigit(c)
    ensures d < 10
  {
    (c as int) - ('0' as int)
  }

  function DigitChar(d: nat): (c: char)
    requires d < 10
    ensures IsDigit(c) && DigitValue(c) == d
  {
    (('0' as int) + d) as char
  }

  /** Drops the leading whitespace of `s` (the effect of skip_whitespace on the
      input still ahead of the cursor). */
  function SkipWs(s: seq<char>): (r: seq<char>)
    ensures |r| <= |s|
    ensures r == [] || !IsWhitespace(r[0])
  {
    if s != [] && IsWhitespace(s[0]) then SkipWs(s[1..]) else s
  }

  /** What SkipWs drops is a whitespace prefix; what it keeps is the rest. */
  lemma {:induction false} SkipWsSuffix(s: seq<char>)
    ensures SkipWs(s) == s[|s| - |SkipWs(s)|..]
    ensures AllWhitespace(s[..|s| - |SkipWs(s)|])
  {
    if s != [] && IsWhitespace(s[0]) {
      SkipWsSuffix(s[1..]);
      var k := |s| - |SkipWs(s)|;
      assert s[1..][k - 1..] == s[k..];
      assert forall i | 1 <= i < k :: s[i] == s[1..][..k - 1][i - 1];
    } else {
      assert s[..0] == [];
    }
  }

  /** Length of the longest prefix of `s` whose characters all satisfy `p`
      (the extent of a `while ... { position += 1 }` scan). */
  function Run(s: seq<char>, p: char -> bool): (n: nat)
    ensures n <= |s|
    ensures forall i | 0 <= i < n :: p(s[i])
    ensures n == |s| || !p(s[n])
  {
    if s != [] && p(s[0]) then 1 + Run(s[1..], p) else 0
  }

  /** The value of a decimal numeral, read left to right as str::parse does. */
  function DigitsValue(s: seq<char>): nat
    requires AllDigits(s)
  {
    if s == [] then 0 else DigitsValue(s[..|s| - 1]) * 10 + DigitValue(s[|s| - 1])
  }

  /** `s.parse::<i32>().unwrap()` for a non-empty run of ASCII digits: a plain
      digit run can only fail by exceeding i32::MAX. */
  function ParseDigits(s: seq<char>): (r: Result<i32>)
    requires AllDigits(s)
    ensures r.Ok? <==> DigitsValue(s) <= I32Max
    ensures r.Ok? ==> r.value as int == DigitsValue(s) && r.value >= 0
    ensures r.Err? ==> r.error == OverflowPanic
  {
    var v := DigitsValue(s);
    if v <= I32Max then Ok(v as i32) else Err(OverflowPanic)
  }

  /** The decimal text of a natural number, without leading zeros. */
  function NatToString(n: nat): (s: string)
    ensures |s| > 0 && AllDigits(s)
  {
    if n < 10 then [DigitChar(n)] else NatToString(n / 10) + [DigitChar(n % 10)]
  }

  /** format!("{}", x) for an integer. */
  function IntToString(x: int): (s: string)
    ensures |s| > 0
    ensures x >= 0 ==> AllDigits(s)
    ensures x < 0 ==> s[0] == '-' && AllDigits(s[1..])
  {
    if x < 0 then "-" + NatToString(-x) else NatToString(x)
  }

  /** Printing a number and reading it back gives the number. */
  lemma {:induction false} DigitsValueOfNatToString(n: nat)
    ensures DigitsValue(NatToString(n)) == n
  {
    if n >= 10 {
      var s := NatToString(n);
      assert s[..|s| - 1] == NatToString(n / 10);
      DigitsValueOfNatToString(n / 10);
    }
  }

  /** Leading whitespace makes no difference once it is skipped. */
  lemma {:induction false} SkipWsPrefix(w: seq<char>, s: seq<char>)
    requires AllWhitespace(w)
    ensures SkipWs(w + s) == SkipWs(s)
  {
    if w == [] {
      assert w + s == s;
    } else {
      assert (w + s)[0] == w[0] && (w + s)[1..] == w[1..] + s;
      SkipWsPrefix(w[1..], s);
    }
  }

  /** A run of `p` characters followed by one that is not `p` (or by nothing)
      is exactly the run the scan finds. */
  lemma {:induction false} RunOfPrefix(w: seq<char>, rest: seq<char>, p: char -> bool)
    requires forall i | 0 <= i < |w| :: p(w[i])
    requires rest == [] || !p(rest[0])
    ensures Run(w + rest, p) == |w|
  {
    if w == [] {
      assert w + rest == rest;
    } else {
      assert (w + rest)[0] == w[0] && (w + rest)[1..] == w[1..] + rest;
      RunOfPrefix(w[1..], rest, p);
    }
  }
}
