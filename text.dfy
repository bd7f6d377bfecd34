/**
 * The string handling the widgets rely on: `String.prototype.trim`,
 * `Number.prototype.toString` for non-negative integers, and `parseFloat`
 * restricted to integer text.
 */
module Text {
  import opened Options

  /** The white-space characters this model strips: space, tab, line feed and carriage return. */
  predicate IsSpace(c: char) {
    c == ' ' || c == '\t' || c == '\n' || c == '\r'
  }

  predicate IsSign(c: char) {
    c == '+' || c == '-'
  }

  predicate IsDigit(c: char) {
    '0' <= c <= '9'
  }

  /** Number of white-space characters at the start of `s`. */
  function LeadingSpaces(s: string): (k: nat)
    ensures k <= |s|
    ensures forall i :: 0 <= i < k ==> IsSpace(s[i])
    ensures k == |s| || !IsSpace(s[k])
  {
    if s == [] || !IsSpace(s[0]) then 0 else 1 + LeadingSpaces(s[1..])
  }

  /** Length of `s` once its trailing white space is dropped. */
  function TrimmedEnd(s: string): (k: nat)
    ensures k <= |s|
    ensures forall i :: k <= i < |s| ==> IsSpace(s[i])
    ensures k == 0 || !IsSpace(s[k - 1])
  {
    if s == [] || !IsSpace(s[|s| - 1]) then |s| else TrimmedEnd(s[..|s| - 1])
  }

  /** `s.trim()`: the longest slice of `s` that neither starts nor ends with white space. */
  function Trim(s: string): (r: string)
    ensures |r| <= |s|
    ensures r == [] || (!IsSpace(r[0]) && !IsSpace(r[|r| - 1]))
    ensures (s == [] || (!IsSpace(s[0]) && !IsSpace(s[|s| - 1]))) ==> r == s
    ensures (forall i :: 0 <= i < |s| ==> IsSpace(s[i])) ==> r == []
    ensures exists a, b ::
              && 0 <= a <= b <= |s| && r == s[a..b]
              && (forall i :: 0 <= i < a ==> IsSpace(s[i]))
              && (forall i :: b <= i < |s| ==> IsSpace(s[i]))
  {
    var a := LeadingSpaces(s);
    var t := s[a..];
    TrimWitness(s, a, TrimmedEnd(t));
    t[..TrimmedEnd(t)]
  }

  /** The end of `s[a..]` seen as positions in `s`. */
  lemma TrimWitness(s: string, a: int, e: int)
    requires 0 <= a <= |s| && 0 <= e <= |s| - a
    requires forall i :: e <= i < |s| - a ==> IsSpace(s[a..][i])
    ensures s[a..][..e] == s[a..a + e]
    ensures forall i :: a + e <= i < |s| ==> IsSpace(s[i])
  {
    assert forall i :: a + e <= i < |s| ==> s[i] == s[a..][i - a];
  }

  function DigitChar(d: nat): (c: char)
    requires d < 10
    ensures IsDigit(c)
  {
    ['0', '1', '2', '3', '4', '5', '6', '7', '8', '9'][d]
  }

  function DigitValue(c: char): (d: nat)
    requires IsDigit(c)
    ensures d < 10 && DigitChar(d) == c
  {
    (c as int - '0' as int) as nat
  }

  /** `n.toString()` for a non-negative integer: its decimal digits, without leading zeros. */
  function DecimalString(n: nat): (s: string)
    ensures s != [] && (forall i :: 0 <= i < |s| ==> IsDigit(s[i]))
    ensures s[0] != '0' || n == 0
  {
    if n < 10 then [DigitChar(n)] else DecimalString(n / 10) + [DigitChar(n % 10)]
  }

  /** Number of decimal digits at the start of `s`. */
  function DigitRun(s: string): (k: nat)
    ensures k <= |s|
    ensures forall i :: 0 <= i < k ==> IsDigit(s[i])
    ensures k == |s| || !IsDigit(s[k])
  {
    if s == [] || !IsDigit(s[0]) then 0 else 1 + DigitRun(s[1..])
  }

  /** The value of a string of decimal digits. */
  function DigitsValue(s: string): nat
    requires forall i :: 0 <= i < |s| ==> IsDigit(s[i])
  {
    if s == [] then 0 else 10 * DigitsValue(s[..|s| - 1]) + DigitValue(s[|s| - 1])
  }

  /**
   * `parseFloat(s)` on integer text: leading white space is skipped, a sign is
   * read, then the longest run of digits; no digit at all gives NaN (`None`).
   */
  function ParseNumber(s: string): (r: Option<int>)
    ensures r.Some? ==> exists i :: 0 <= i < |s| && IsDigit(s[i])
  {
    var k := LeadingSpaces(s);
    var r := ParseSigned(s[k..]);
    if r.Some? then
      var i :| 0 <= i < |s| - k && IsDigit(s[k..][i]);
      assert s[k + i] == s[k..][i];
      r
    else r
  }

  /** The part of `parseFloat` after the white space: an optional sign, then the longest run of digits. */
  function ParseSigned(t: string): (r: Option<int>)
    ensures r.Some? ==> exists i :: 0 <= i < |t| && IsDigit(t[i])
  {
    var signed := t != [] && IsSign(t[0]);
    var body := if signed then t[1..] else t;
    var k := DigitRun(body);
    if k == 0 then None
    else
      assert body[0] == t[|t| - |body|];
      var v: int := DigitsValue(body[..k]);
      Some(if signed && t[0] == '-' then -v else v)
  }

  lemma {:induction false} DigitsValueOfDecimal(n: nat)
    ensures DigitsValue(DecimalString(n)) == n
  {
    var s := DecimalString(n);
    if n >= 10 {
      DigitsValueOfDecimal(n / 10);
      assert s[..|s| - 1] == DecimalString(n / 10);
    }
  }

  /** Printing a total and parsing the text back gives the same total. */
  lemma ParseDecimalString(n: nat)
    ensures ParseNumber(DecimalString(n)) == Some(n)
  {
    var s := DecimalString(n);
    assert !IsSpace(s[0]) && s[0] != '-' && s[0] != '+';
    assert LeadingSpaces(s) == 0;
    assert s[0..] == s;
    assert DigitRun(s) == |s|;
    assert s[..|s|] == s;
    DigitsValueOfDecimal(n);
  }

  /** What `parseFloat` reads before the first digit: white space, then at most one sign. */
  predicate NumberPrefix(u: string) {
    forall i :: 0 <= i < |u| ==> IsSpace(u[i]) || (i == |u| - 1 && IsSign(u[i]))
  }

  /** The white space at the start of `s` ends at the first character that is not white space. */
  lemma LeadingSpacesAt(s: string, p: int)
    requires 0 <= p <= |s| && (p == |s| || !IsSpace(s[p]))
    requires forall i :: 0 <= i < p ==> IsSpace(s[i])
    ensures LeadingSpaces(s) == p
  {
  }

  /** The run of digits at the start of `s` ends at the first character that is not a digit. */
  lemma DigitRunAt(s: string, p: int)
    requires 0 <= p <= |s| && (p == |s| || !IsDigit(s[p]))
    requires forall i :: 0 <= i < p ==> IsDigit(s[i])
    ensures DigitRun(s) == p
  {
  }

  /** A result exists exactly when a digit follows leading white space and an optional sign. */
  lemma ParseNumberDefined(s: string)
    ensures ParseNumber(s).Some? <==> exists p :: 0 <= p < |s| && IsDigit(s[p]) && NumberPrefix(s[..p])
  {
    if ParseNumber(s).Some? {
      var k := LeadingSpaces(s);
      var p := if s[k] == '-' || s[k] == '+' then k + 1 else k;
      assert IsDigit(s[p]);
      assert NumberPrefix(s[..p]);
    }
    forall p | 0 <= p < |s| && IsDigit(s[p]) && NumberPrefix(s[..p])
      ensures ParseNumber(s).Some?
    {
      DigitAfterPrefix(s, p);
    }
  }

  /** A digit after white space and an optional sign is read. */
  lemma DigitAfterPrefix(s: string, p: int)
    requires 0 <= p < |s| && IsDigit(s[p]) && NumberPrefix(s[..p])
    ensures ParseNumber(s).Some?
  {
    assert forall i :: 0 <= i < p ==> s[..p][i] == s[i];
    var q := if p > 0 && IsSign(s[p - 1]) then p - 1 else p;
    LeadingSpacesAt(s, q);
    var t := s[q..];
    if q < p {
      assert t[1..][0] == s[p];
    } else {
      assert t[0] == s[p];
    }
  }

  /**
   * The value read from white space, an optional sign, a run of digits and a
   * rest that does not continue the run: the run's value, negated after `-`.
   */
  lemma {:induction false} ParseNumberValue(ws: string, sign: string, digits: string, rest: string)
    requires forall i :: 0 <= i < |ws| ==> IsSpace(ws[i])
    requires |sign| <= 1 && (|sign| == 1 ==> IsSign(sign[0]))
    requires digits != [] && forall i :: 0 <= i < |digits| ==> IsDigit(digits[i])
    requires rest == [] || !IsDigit(rest[0])
    ensures ParseNumber(ws + sign + digits + rest) ==
      Some(if sign != [] && sign[0] == '-' then 0 - DigitsValue(digits) as int else DigitsValue(digits) as int)
  {
    var tail := sign + digits + rest;
    var s := ws + tail;
    assert ws + sign + digits + rest == s;
    assert tail[0] == if sign == "" then digits[0] else sign[0];
    assert forall i :: 0 <= i < |ws| ==> s[i] == ws[i];
    LeadingSpacesAt(s, |ws|);
    assert s[|ws|..] == tail;
    ParseSignedValue(sign, digits, rest);
  }

  /** The part after the white space: the sign applies to the value of the run of digits. */
  lemma {:induction false} ParseSignedValue(sign: string, digits: string, rest: string)
    requires |sign| <= 1 && (|sign| == 1 ==> IsSign(sign[0]))
    requires digits != [] && forall i :: 0 <= i < |digits| ==> IsDigit(digits[i])
    requires rest == [] || !IsDigit(rest[0])
    ensures ParseSigned(sign + digits + rest) ==
      Some(if sign != [] && sign[0] == '-' then 0 - DigitsValue(digits) as int else DigitsValue(digits) as int)
  {
    var body := digits + rest;
    DigitRunAppend(digits, rest);
    var t := sign + body;
    assert sign + digits + rest == t;
    if sign == [] {
      assert t == body;
      UnsignedValue(t);
    } else {
      assert t[1..] == body;
      SignedValue(t);
    }
  }

  /** A run of digits followed by a non-digit is read up to its end. */
  lemma DigitRunAppend(digits: string, rest: string)
    requires forall i :: 0 <= i < |digits| ==> IsDigit(digits[i])
    requires rest == [] || !IsDigit(rest[0])
    ensures DigitRun(digits + rest) == |digits| && (digits + rest)[..|digits|] == digits
  {
    var body := digits + rest;
    assert forall i :: 0 <= i < |digits| ==> body[i] == digits[i];
    DigitRunAt(body, |digits|);
  }

  /** Text that starts with a digit reads as its run of digits. */
  lemma UnsignedValue(t: string)
    requires t != [] && !IsSign(t[0]) && DigitRun(t) > 0
    ensures ParseSigned(t) == Some(DigitsValue(t[..DigitRun(t)]) as int)
  {
  }

  /** Text that starts with a sign reads as the run of digits after it, negated after `-`. */
  lemma SignedValue(t: string)
    requires t != [] && IsSign(t[0]) && DigitRun(t[1..]) > 0
    ensures var v := DigitsValue(t[1..][..DigitRun(t[1..])]) as int;
      ParseSigned(t) == Some(if t[0] == '-' then -v else v)
  {
  }
}
