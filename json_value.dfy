/**
 * The JavaScript view of a decoded JSON request field: its truthiness (what
 * `!value` tests) and its conversion by `Number(value)`.
 */
module JsonValue {
  import opened Wrappers
  import opened Decimal

  /** A request-body value; `Undefined` is a field the body does not carry. */
  datatype Value = Undefined | Null | Bool(b: bool) | Num(x: real) | Str(s: string)

  /** JavaScript truthiness. JSON numbers are finite, so NaN does not arise here. */
  predicate Truthy(v: Value)
    ensures Truthy(v) <==> v !in {Undefined, Null, Bool(false), Num(0.0), Str("")}
  {
    match v
    case Undefined => false
    case Null => false
    case Bool(b) => b
    case Num(x) => x != 0.0
    case Str(s) => s != ""
  }

  /** The largest integer below which every integer is exactly a JavaScript number (2^53). */
  const MaxExactInteger: nat := 9007199254740992

  /**
   * `Number(v)`; `None` stands for NaN. A value that converts to a non-zero
   * number is truthy; text converts as `StringToNumber` says.
   */
  function ToNumber(v: Value): (r: Option<real>)
    ensures r.Some? && r.value != 0.0 ==> Truthy(v)
  {
    match v
    case Undefined => None
    case Null => Some(0.0)
    case Bool(b) => Some(if b then 1.0 else 0.0)
    case Num(x) => Some(x)
    case Str(s) => StringToNumber(s)
  }

  /** The white space `Number` strips from both ends of a text, as far as ASCII goes. */
  predicate IsSpace(c: char) {
    c == ' ' || c == '\t' || c == '\n' || c == '\r' || c == '\U{000B}' || c == '\U{000C}'
  }

  /** Every character of s from position lo up to, not including, hi is white space. */
  predicate SpacesBetween(s: string, lo: nat, hi: nat)
    requires lo <= hi <= |s|
  {
    forall j :: lo <= j < hi ==> IsSpace(s[j])
  }

  /** The number of white-space characters s starts with. */
  function LeadingSpaces(s: string): (n: nat)
    ensures n <= |s| && SpacesBetween(s, 0, n)
    ensures n == |s| || !IsSpace(s[n])
    decreases |s|
  {
    if s != "" && IsSpace(s[0]) then
      var m := LeadingSpaces(s[1..]);
      assert forall j :: 1 <= j < 1 + m ==> s[j] == s[1..][j - 1];
      1 + m
    else 0
  }

  /** The number of white-space characters s ends with. */
  function TrailingSpaces(s: string): (n: nat)
    ensures n <= |s| && SpacesBetween(s, |s| - n, |s|)
    ensures n == |s| || !IsSpace(s[|s| - n - 1])
    decreases |s|
  {
    if s != "" && IsSpace(s[|s| - 1]) then
      var m := TrailingSpaces(s[..|s| - 1]);
      assert forall j :: |s| - 1 - m <= j < |s| - 1 ==> s[j] == s[..|s| - 1][j];
      1 + m
    else 0
  }

  /**
   * s without white space at either end: the piece of s left once only white
   * space is removed from its ends, and s itself when neither end is a space.
   */
  function Trim(s: string): (t: string)
    ensures var i := LeadingSpaces(s);
      i + |t| <= |s| && t == s[i..i + |t|]
      && SpacesBetween(s, 0, i) && SpacesBetween(s, i + |t|, |s|)
    ensures t == "" || (!IsSpace(t[0]) && !IsSpace(t[|t| - 1]))
    ensures s != "" && !IsSpace(s[0]) && !IsSpace(s[|s| - 1]) ==> t == s
  {
    TrimEnds(s);
    var i := LeadingSpaces(s);
    s[i..|s| - TrailingSpaces(s[i..])]
  }

  /** The trailing spaces of what follows the leading ones are trailing spaces of s itself. */
  lemma TrimEnds(s: string)
    ensures var i := LeadingSpaces(s); var k := TrailingSpaces(s[i..]);
      && i + k <= |s| && SpacesBetween(s, |s| - k, |s|)
      && (i + k < |s| ==> !IsSpace(s[|s| - k - 1]))
      && (s != "" && !IsSpace(s[0]) && !IsSpace(s[|s| - 1]) ==> i == 0 && k == 0)
  {
    var i := LeadingSpaces(s);
    TrailingSpacesOfSuffix(s, i);
    if s != "" && !IsSpace(s[0]) {
      assert i == 0 && s[i..] == s;
    }
  }

  /** The trailing spaces of s[i..] are trailing spaces of s, and the character before them is not one. */
  lemma TrailingSpacesOfSuffix(s: string, i: nat)
    requires i <= |s|
    ensures var k := TrailingSpaces(s[i..]);
      && i + k <= |s| && SpacesBetween(s, |s| - k, |s|)
      && (i + k < |s| ==> !IsSpace(s[|s| - k - 1]))
  {
    var u := s[i..];
    var k := TrailingSpaces(u);
    forall j | |s| - k <= j < |s|
      ensures IsSpace(s[j])
    {
      assert s[j] == u[j - i];
    }
    if i + k < |s| {
      assert s[|s| - k - 1] == u[|u| - k - 1];
    }
  }

  /** Position of the first c in s, or |s| when there is none. */
  function IndexOf(s: string, c: char): (i: nat)
    ensures i <= |s|
    ensures i < |s| ==> s[i] == c
    ensures forall j :: 0 <= j < i ==> s[j] != c
    decreases |s|
  {
    if s == "" then 0 else if s[0] == c then 0 else 1 + IndexOf(s[1..], c)
  }

  function Pow10(k: nat): (p: nat)
    ensures p > 0
  {
    if k == 0 then 1 else 10 * Pow10(k - 1)
  }

  /** An unsigned decimal literal: digits, optionally a '.' and more digits, not both parts empty. */
  function UnsignedDecimal(s: string): (r: Option<real>)
    ensures r.Some? ==> r.value >= 0.0
    ensures s != "" && AllDigits(s) ==> r == Some(DigitsValue(s) as real)
  {
    var dot := IndexOf(s, '.');
    var whole := s[..dot];
    var fraction := if dot < |s| then s[dot + 1..] else "";
    assert AllDigits(s) ==> dot == |s| && whole == s by {
      assert dot < |s| ==> s[dot] == '.';
    }
    if AllDigits(whole) && AllDigits(fraction) && (whole != "" || fraction != "") then
      Some(DigitsValue(whole) as real + DigitsValue(fraction) as real / Pow10(|fraction|) as real)
    else
      None
  }

  /**
   * JavaScript's string-to-number conversion for decimal literals: blank text
   * is 0 and only a leading minus sign gives a negative number.
   */
  function StringToNumber(s: string): (r: Option<real>)
    ensures r.Some? && r.value < 0.0 ==> '-' in s
    ensures SpacesBetween(s, 0, |s|) ==> r == Some(0.0)
  {
    var t := Trim(s);
    if t == "" then Some(0.0)
    else if t[0] == '-' then
      match UnsignedDecimal(t[1..])
      case Some(x) => Some(-x)
      case None => None
    else if t[0] == '+' then UnsignedDecimal(t[1..])
    else UnsignedDecimal(t)
  }

  /** Text that starts with a digit and does not end in white space is read as an unsigned literal. */
  lemma UnsignedTextToNumber(s: string)
    requires s != "" && IsDigit(s[0]) && !IsSpace(s[|s| - 1])
    ensures StringToNumber(s) == UnsignedDecimal(s)
  {
    assert !IsSpace(s[0]);
    var t := Trim(s);
    assert t == s;
    assert t[0] != '-' && t[0] != '+';
  }

  /** Digit text within the exact range converts to the value of its digits. */
  lemma DigitTextToNumber(s: string)
    requires s != "" && AllDigits(s) && DigitsValue(s) <= MaxExactInteger
    ensures StringToNumber(s) == Some(DigitsValue(s) as real)
  {
    assert IsDigit(s[0]) && IsDigit(s[|s| - 1]);
    UnsignedTextToNumber(s);
  }

  /** The decimal text of a number in the exact range converts to that number. */
  lemma DecimalTextToNumber(n: nat)
    requires n <= MaxExactInteger
    ensures StringToNumber(DecimalText(n)) == Some(n as real)
  {
    DecimalTextValue(n);
    DigitTextToNumber(DecimalText(n));
  }
}
