/** The parts of Kotlin's standard library the app's string handling relies on:
    `Char.isWhitespace`, `String.trim`, `String.contains`,
    `Int.toString` (string templates) and `String.toInt`. `String.startsWith` is
    Dafny's sequence-prefix test `p <= s`. */
module KotlinText {

  /** A Kotlin nullable value. */
  datatype Option<T> = None | Some(value: T) {
    function GetOr(default: T): T {
      match this
      case Some(v) => v
      case None => default
    }
  }

  const IntMin: int := -0x8000_0000
  const IntMax: int := 0x7FFF_FFFF

  /** The range of Kotlin's 32-bit `Int`. */
  predicate IsInt(n: int) {
    IntMin <= n <= IntMax
  }

  /** `Char.isWhitespace` on the JVM: `Character.isWhitespace(c) || Character.isSpaceChar(c)`. */
  function IsWhitespace(c: char): (b: bool)
    ensures c == ' ' || c == '\t' || c == '\n' || c == '\r' ==> b
    ensures b ==> !IsDigit(c) && c != '-' && c != '+'
  {
    || c == ' '
    || '\t' <= c <= '\r'
    || '\U{1C}' <= c <= '\U{1F}'
    || c == '\U{A0}' || c == '\U{1680}'
    || '\U{2000}' <= c <= '\U{200A}'
    || c == '\U{2028}' || c == '\U{2029}' || c == '\U{202F}' || c == '\U{205F}' || c == '\U{3000}'
  }

  predicate AllWhitespace(s: string) {
    forall k :: 0 <= k < |s| ==> IsWhitespace(s[k])
  }

  /** Number of whitespace characters at the start of `s`. */
  function LeadingSpace(s: string): (n: nat)
    ensures n <= |s|
    ensures AllWhitespace(s[..n])
    ensures n < |s| ==> !IsWhitespace(s[n])
  {
    if |s| > 0 && IsWhitespace(s[0]) then 1 + LeadingSpace(s[1..]) else 0
  }

  /** Number of whitespace characters at the end of `s`. */
  function TrailingSpace(s: string): (n: nat)
    ensures n <= |s|
    ensures AllWhitespace(s[|s| - n..])
    ensures n < |s| ==> !IsWhitespace(s[|s| - 1 - n])
  {
    if |s| > 0 && IsWhitespace(s[|s| - 1]) then 1 + TrailingSpace(s[..|s| - 1]) else 0
  }

  /** `String.trim()`: drops leading and trailing whitespace. */
  function Trim(s: string): (r: string)
    ensures r == [] || (!IsWhitespace(r[0]) && !IsWhitespace(r[|r| - 1]))
    ensures exists i :: 0 <= i <= |s| - |r| && r == s[i..i + |r|]
                        && AllWhitespace(s[..i]) && AllWhitespace(s[i + |r|..])
  {
    var a := LeadingSpace(s);
    var t := s[a..];
    var b := TrailingSpace(t);
    var r := t[..|t| - b];
    assert r == s[a..a + |r|];
    assert s[a + |r|..] == t[|t| - b..];
    assert r != [] ==> r[0] == s[a] && r[|r| - 1] == t[|t| - 1 - b];
    r
  }

  lemma {:induction false} LeadingSpaceOfPadded(a: string, t: string)
    requires AllWhitespace(a)
    requires t == [] || !IsWhitespace(t[0])
    ensures LeadingSpace(a + t) == |a|
  {
    if a != [] {
      assert (a + t)[1..] == a[1..] + t;
      LeadingSpaceOfPadded(a[1..], t);
    } else {
      assert a + t == t;
    }
  }

  lemma {:induction false} TrailingSpaceOfPadded(t: string, b: string)
    requires AllWhitespace(b)
    requires t == [] || !IsWhitespace(t[|t| - 1])
    ensures TrailingSpace(t + b) == |b|
  {
    if b != [] {
      assert (t + b)[..|t + b| - 1] == t + b[..|b| - 1];
      TrailingSpaceOfPadded(t, b[..|b| - 1]);
    } else {
      assert t + b == t;
    }
  }

  /** Trimming strips exactly the whitespace padding around a text that
      neither starts nor ends with whitespace. */
  lemma TrimPadded(a: string, t: string, b: string)
    requires AllWhitespace(a) && AllWhitespace(b)
    requires t == [] || (!IsWhitespace(t[0]) && !IsWhitespace(t[|t| - 1]))
    ensures Trim(a + t + b) == t
  {
    var s := a + t + b;
    if t == [] {
      assert s == a + b;
      assert AllWhitespace(s);
      AllWhitespaceHasNoLead(s);
    } else {
      assert s == a + (t + b);
      LeadingSpaceOfPadded(a, t + b);
      assert s[|a|..] == t + b;
      TrailingSpaceOfPadded(t, b);
    }
  }

  lemma AllWhitespaceHasNoLead(s: string)
    requires AllWhitespace(s)
    ensures Trim(s) == []
  {
    assert LeadingSpace(s) == |s|;
  }

  /** Trimming twice is the same as trimming once. */
  lemma TrimIdempotent(s: string)
    ensures Trim(Trim(s)) == Trim(s)
  {
    TrimPadded([], Trim(s), []);
    assert [] + Trim(s) + [] == Trim(s);
  }

  /** `t` occurs in `s` starting at index `i`. */
  predicate OccursAt(s: string, t: string, i: int) {
    0 <= i <= |s| - |t| && s[i..i + |t|] == t
  }

  lemma SliceOfTail(s: string, t: string, i: int)
    requires 1 <= i <= |s| - |t|
    ensures s[i..i + |t|] == s[1..][i - 1..i - 1 + |t|]
  {
    var u := s[1..];
    var x, y := s[i..i + |t|], u[i - 1..i - 1 + |t|];
    assert forall k :: 0 <= k < |t| ==> x[k] == s[i + k] && y[k] == u[i - 1 + k];
  }

  /** `String.contains(t)`: `t` occurs somewhere in `s`. */
  function Contains(s: string, t: string): (b: bool)
    ensures b <==> exists i :: OccursAt(s, t, i)
    decreases |s|
  {
    if t <= s then
      assert OccursAt(s, t, 0);
      true
    else if |s| == 0 then
      false
    else
      var rest := Contains(s[1..], t);
      assert forall i :: OccursAt(s, t, i) <==> i >= 1 && OccursAt(s[1..], t, i - 1) by {
        forall i ensures OccursAt(s, t, i) <==> i >= 1 && OccursAt(s[1..], t, i - 1) {
          if i >= 1 && i <= |s| - |t| {
            SliceOfTail(s, t, i);
          }
        }
      }
      assert rest ==> OccursAt(s, t, (var j :| OccursAt(s[1..], t, j); j + 1));
      rest
  }

  predicate IsDigit(c: char) {
    '0' <= c <= '9'
  }

  predicate AllDigits(s: string) {
    forall k :: 0 <= k < |s| ==> IsDigit(s[k])
  }

  function DigitChar(d: nat): (c: char)
    requires d < 10
    ensures IsDigit(c) && c as int - '0' as int == d
  {
    ('0' as int + d) as char
  }

  /** Value of a string of decimal digits, most significant first. */
  function DigitsValue(s: string): nat
    requires AllDigits(s)
  {
    if s == [] then 0 else DigitsValue(s[..|s| - 1]) * 10 + (s[|s| - 1] as int - '0' as int)
  }

  /** Decimal text of a natural number, without leading zeros. */
  function NatToDecimal(n: nat): (s: string)
    ensures |s| >= 1 && AllDigits(s)
    ensures s[0] == '0' ==> n == 0 && |s| == 1
    ensures DigitsValue(s) == n
  {
    if n < 10 then
      [DigitChar(n)]
    else
      var s := NatToDecimal(n / 10) + [DigitChar(n % 10)];
      assert s[..|s| - 1] == NatToDecimal(n / 10);
      s
  }

  /** `Int.toString()`, as used by string templates. */
  function IntToString(n: int): (s: string)
    ensures |s| >= 1
    ensures n >= 0 ==> AllDigits(s)
    ensures n < 0 <==> s[0] == '-'
    ensures IsDigit(s[|s| - 1])
    ensures var d := if n < 0 then s[1..] else s;
      && |d| >= 1 && AllDigits(d) && DigitsValue(d) == (if n < 0 then -n else n)
      && (d[0] == '0' ==> n == 0 && |d| == 1)
  {
    if n < 0 then
      var s := "-" + NatToDecimal(-n);
      assert s[1..] == NatToDecimal(-n);
      s
    else
      NatToDecimal(n)
  }

  function SignedValue(digits: string, negative: bool): (r: Option<int>)
    requires AllDigits(digits)
    ensures r.Some? <==> IsInt(Denoted(digits, negative))
    ensures r.Some? ==> r.value == Denoted(digits, negative)
  {
    var v := Denoted(digits, negative);
    if IsInt(v) then Some(v) else None
  }

  /** The text after an optional leading `-` or `+`. */
  function DigitsPart(s: string): string {
    if |s| > 0 && (s[0] == '-' || s[0] == '+') then s[1..] else s
  }

  /** The text carries a leading minus sign. */
  predicate Negative(s: string) {
    |s| > 0 && s[0] == '-'
  }

  /** What a sign and a string of digits denote. */
  function Denoted(digits: string, negative: bool): int
    requires AllDigits(digits)
  {
    if negative then -(DigitsValue(digits) as int) else DigitsValue(digits)
  }

  /** `String.toIntOrNull()` (and so `String.toInt()`, which throws where this is null):
      an optional `-` or `+` sign followed by at least one decimal digit, whose value
      fits in an `Int`. */
  function ToIntOrNull(s: string): (r: Option<int>)
    ensures r.Some? <==> var d := DigitsPart(s);
      d != [] && AllDigits(d) && IsInt(Denoted(d, Negative(s)))
    ensures r.Some? ==> r.value == Denoted(DigitsPart(s), Negative(s))
    ensures r.Some? ==> IsInt(r.value)
    ensures r.Some? ==> |s| > 0 && IsDigit(s[|s| - 1])
    ensures |s| > 0 && !IsDigit(s[0]) && s[0] != '-' && s[0] != '+' ==> r == None
  {
    if |s| == 0 then
      None
    else if s[0] < '0' then
      if |s| == 1 || (s[0] != '-' && s[0] != '+') then None
      else if AllDigits(s[1..]) then SignedValue(s[1..], s[0] == '-')
      else None
    else if AllDigits(s) then
      SignedValue(s, false)
    else
      None
  }

  /** Signs, leading zeros and stray characters, on sample texts. */
  lemma ParseSamples()
    ensures ToIntOrNull("+7") == Some(7) && ToIntOrNull("007") == Some(7)
    ensures ToIntOrNull("-0") == Some(0)
    ensures ToIntOrNull("-") == None
    ensures ToIntOrNull("12a") == None && ToIntOrNull(" 1") == None && ToIntOrNull("") == None
  {
    assert DigitsPart("+7") == "7" && DigitsPart("-0") == "0";
    assert DigitsValue("7") == 7 && DigitsValue("0") == 0;
    assert "007"[..2] == "00" && "00"[..1] == "0";
    assert DigitsValue("007") == 7;
    assert DigitsPart("12a") == "12a" && !IsDigit("12a"[2]);
    assert DigitsPart(" 1") == " 1" && !IsDigit(" 1"[0]);
  }

  /** Formatting an `Int` and parsing it back gives the same `Int`. */
  lemma ParseFormatted(n: int)
    requires IsInt(n)
    ensures ToIntOrNull(IntToString(n)) == Some(n)
  {
    var s := IntToString(n);
    if n < 0 {
      assert s[1..] == NatToDecimal(-n);
    } else {
      assert s == NatToDecimal(n);
    }
  }
}
