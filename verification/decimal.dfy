/** Decimal text for 16-bit unsigned integers, as the configuration loader
    uses it: `str::parse::<u16>` reads a port from an environment value and
    `u16::to_string` renders a default port as text before that same parse.

    The parser follows Rust's `from_str_radix` for an unsigned type with
    radix 10: the empty string and a lone sign are rejected, one leading `+`
    is skipped (a `-` never is), every remaining character must be an ASCII
    digit, leading zeros are allowed, and the value may not exceed 65535.
    Nothing is trimmed.
 */
module Decimal {
  import opened Wrappers

  const U16Max: nat := 65535

  /** Rust's `u16`. */
  type uint16 = n: nat | n <= U16Max

  predicate IsDigit(c: char) {
    '0' <= c <= '9'
  }

  predicate AllDigits(s: string) {
    forall i :: 0 <= i < |s| ==> IsDigit(s[i])
  }

  function DigitValue(c: char): (d: nat)
    requires IsDigit(c)
    ensures d < 10
  {
    (c as int) - ('0' as int)
  }

  function DigitChar(d: nat): (c: char)
    requires d < 10
    ensures IsDigit(c) && DigitValue(c) == d
  {
    (('0' as int) + d) as char
  }

  /** The positional value of a digit string, most significant digit first;
      the empty string has value 0. This is the reference meaning of decimal
      text, with no bound. */
  function Value(s: string): nat
    requires AllDigits(s)
  {
    if |s| == 0 then 0 else Value(s[..|s| - 1]) * 10 + DigitValue(s[|s| - 1])
  }

  /** The text after an optional single leading `+`. */
  function Unsigned(s: string): (body: string)
    ensures |body| <= |s|
  {
    if |s| > 0 && s[0] == '+' then s[1..] else s
  }

  /** Exactly the strings that `str::parse::<u16>` accepts: an optional `+`,
      then at least one ASCII digit, with a value of at most 65535. */
  predicate IsU16Literal(s: string) {
    var body := Unsigned(s);
    |body| > 0 && AllDigits(body) && Value(body) <= U16Max
  }

  /** Canonical rendering: no leading zero, except for the number 0 itself. */
  predicate IsCanonical(s: string) {
    |s| > 0 && AllDigits(s) && (s[0] == '0' ==> |s| == 1)
  }

  /** Extending a digit string never lowers its value, so once a prefix is
      above a bound the whole string is too. */
  lemma {:induction false} PrefixValueBounded(s: string, j: nat)
    requires AllDigits(s) && j <= |s|
    ensures AllDigits(s[..j]) && Value(s[..j]) <= Value(s)
    decreases |s|
  {
    if j < |s| {
      var front := s[..|s| - 1];
      assert front[..j] == s[..j];
      PrefixValueBounded(front, j);
    } else {
      assert s[..j] == s;
    }
  }

  /** A prefix above the bound puts every all-digit extension above it. */
  lemma PrefixOverflow(s: string, j: nat)
    requires j <= |s| && AllDigits(s[..j]) && Value(s[..j]) > U16Max
    ensures AllDigits(s) ==> Value(s) > U16Max
  {
    if AllDigits(s) {
      PrefixValueBounded(s, j);
    }
  }

  /** The digit loop of `from_str_radix`: `acc` is the value of the digits
      consumed so far. Each step rejects a non-digit, then multiplies by ten
      and adds the digit with overflow checks. Rust's `from_str_radix`
      checks the multiplication and the addition separately; since `acc * 10` above the
      bound implies `acc * 10 + d` above it, one test covers both. */
  function Scan(s: string, i: nat, acc: uint16): (r: Option<uint16>)
    requires i <= |s|
    requires AllDigits(s[..i])
    requires acc == Value(s[..i])
    ensures r.Some? <==> AllDigits(s) && Value(s) <= U16Max
    ensures r.Some? ==> r.value == Value(s)
    decreases |s| - i
  {
    if i == |s| then
      assert s[..i] == s;
      Some(acc)
    else if !IsDigit(s[i]) then
      None
    else
      var next := acc * 10 + DigitValue(s[i]);
      assert s[..i + 1][..i] == s[..i];
      assert AllDigits(s[..i + 1]);
      assert next == Value(s[..i + 1]);
      if next > U16Max then
        PrefixOverflow(s, i + 1);
        None
      else
        Scan(s, i + 1, next)
  }

  /** `str::parse::<u16>`: the number a literal denotes, or `None` for any
      text that is not a literal. */
  function ParseU16(s: string): (r: Option<uint16>)
    ensures r.Some? <==> IsU16Literal(s)
    ensures r.Some? ==> r.value == Value(Unsigned(s))
  {
    if |s| == 0 then
      None
    else if s == "+" || s == "-" then
      None
    else
      var body := Unsigned(s);
      assert body[..0] == "";
      Scan(body, 0, 0)
  }

  /** `u16::to_string` (Rust's `Display` for integers): the canonical digits
      of `n`. */
  function ToDecimal(n: nat): (s: string)
    ensures IsCanonical(s)
    ensures Value(s) == n
    ensures n == 0 <==> s == "0"
  {
    if n < 10 then
      [DigitChar(n)]
    else
      var front := ToDecimal(n / 10);
      var s := front + [DigitChar(n % 10)];
      assert s[..|s| - 1] == front;
      s
  }

  /** Round trip: the rendering of every `u16` parses back to it, so a
      default port can never fail to parse. */
  lemma {:induction false} ParseToDecimal(n: uint16)
    ensures ParseU16(ToDecimal(n)) == Some(n)
  {
    var s := ToDecimal(n);
    assert Unsigned(s) == s;
  }

  /** The other direction: every canonical digit string is the rendering of
      its own value, so rendering is onto the canonical strings and distinct
      numbers have distinct renderings. */
  lemma {:induction false} ToDecimalValue(s: string)
    requires IsCanonical(s)
    ensures ToDecimal(Value(s)) == s
    decreases |s|
  {
    if |s| > 1 {
      var front := s[..|s| - 1];
      assert front[0] == s[0];
      assert IsCanonical(front);
      PrefixValueBounded(front, 1);
      assert front[..1] == [s[0]];
      assert Value(front) >= 1;
      ToDecimalValue(front);
      var n := Value(s);
      assert n / 10 == Value(front);
      assert n % 10 == DigitValue(s[|s| - 1]);
      assert DigitChar(n % 10) == s[|s| - 1];
      assert s == front + [s[|s| - 1]];
    } else {
      assert s[..0] == [];
      assert Value(s) == DigitValue(s[0]);
      assert s == [DigitChar(Value(s))];
    }
  }

  /** Inputs the parser accepts and rejects, one per rule. */
  lemma ParseExamples()
    ensures ParseU16("8080") == Some(8080)
    ensures ParseU16("+80") == Some(80)
    ensures ParseU16("0080") == Some(80)
    ensures ParseU16("0") == Some(0)
    ensures ParseU16("65535") == Some(65535)
    ensures ParseU16("65536") == None
    ensures ParseU16("") == None
    ensures ParseU16("+") == None
    ensures ParseU16("-1") == None
    ensures ParseU16("++1") == None
    ensures ParseU16(" 80") == None
    ensures ParseU16("80x") == None
  {
  }
}
