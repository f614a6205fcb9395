/**
 * The few java.lang operations the sandbox code relies on: Integer.parseInt (radix 10),
 * the decimal rendering of an int used by string concatenation, and String.indexOf.
 */
module JavaLang {
  import opened Wrappers

  const MIN_VALUE: int := -0x8000_0000
  const MAX_VALUE: int := 0x7fff_ffff

  /** A Java `int`. */
  type Int32 = x: int | MIN_VALUE <= x <= MAX_VALUE

  // ---------------------------------------------------------------------------
  // Decimal digits

  predicate IsDigit(c: char) {
    '0' <= c <= '9'
  }

  /** Character.digit(c, 10) restricted to ASCII: the digit's value, or -1. */
  function Digit(c: char): int {
    if IsDigit(c) then c as int - '0' as int else -1
  }

  function DigitChar(d: nat): char
    requires d < 10
  {
    ('0' as int + d) as char
  }

  predicate AllDigits(s: string) {
    forall i :: 0 <= i < |s| ==> IsDigit(s[i])
  }

  /** The number a string of decimal digits denotes, most significant digit first. */
  function Value(s: string): (v: nat)
    requires AllDigits(s)
  {
    if s == [] then 0 else Value(s[..|s| - 1]) * 10 + Digit(s[|s| - 1])
  }

  /** What Integer.parseInt accepts syntactically: an optional sign followed by at least one digit. */
  predicate IsDecimal(s: string) {
    |s| > 0 &&
    if s[0] == '-' || s[0] == '+' then |s| > 1 && AllDigits(s[1..]) else AllDigits(s)
  }

  /** The mathematical value of a decimal numeral, sign included. */
  function SignedValue(s: string): int
    requires IsDecimal(s)
  {
    if s[0] == '-' then -(Value(s[1..]) as int)
    else if s[0] == '+' then Value(s[1..])
    else Value(s)
  }

  // ---------------------------------------------------------------------------
  // Integer.parseInt(s, 10)

  /** Java's `/` on int: truncates toward zero. */
  function Quot(a: int, b: int): int
    requires b > 0
  {
    if a >= 0 then a / b else -((-a) / b)
  }

  /**
   * The digit loop of Integer.parseInt: it accumulates the NEGATED value and throws as soon
   * as one more digit would pass `limit` (the checks against `multmin` and `limit + digit`).
   * None stands for NumberFormatException. No intermediate Java int overflows, because the
   * multiplication happens only once `result >= multmin`.
   */
  function Accumulate(digits: string, result: int, limit: int, multmin: int): (r: Option<int>)
    ensures r.Some? ==> AllDigits(digits)
    ensures r.Some? && limit <= result <= 0 ==> limit <= r.value <= 0
    decreases |digits|
  {
    if digits == [] then Some(result)
    else
      var digit := Digit(digits[0]);
      if digit < 0 || result < multmin then None
      else if result * 10 < limit + digit then None
      else Accumulate(digits[1..], result * 10 - digit, limit, multmin)
  }

  /**
   * Integer.parseInt(s): the value of an optionally signed decimal numeral when it fits in
   * an int, None (NumberFormatException) otherwise.
   */
  function ParseInt(s: string): (r: Option<Int32>)
    ensures r.Some? <==> IsDecimal(s) && MIN_VALUE <= SignedValue(s) <= MAX_VALUE
    ensures r.Some? ==> r.value == SignedValue(s)
  {
    if |s| == 0 then None
    else if s[0] < '0' then
      if s[0] != '-' && s[0] != '+' then None
      else if |s| == 1 then None
      else
        var negative := s[0] == '-';
        var limit := if negative then MIN_VALUE else -MAX_VALUE;
        AccumulateMeansValue([], s[1..], limit);
        assert [] + s[1..] == s[1..];
        match Accumulate(s[1..], 0, limit, Quot(limit, 10))
        case None => None
        case Some(result) => Some(if negative then result else -result)
    else
      AccumulateMeansValue([], s, -MAX_VALUE);
      assert [] + s == s;
      assert !AllDigits(s) ==> !IsDecimal(s);
      match Accumulate(s, 0, -MAX_VALUE, Quot(-MAX_VALUE, 10))
      case None => None
      case Some(result) => Some(-result)
  }

  /** Appending digits never makes a numeral smaller. */
  lemma {:induction false} ValueGrows(p: string, q: string)
    requires AllDigits(p + q)
    ensures AllDigits(p) && Value(p + q) >= Value(p)
  {
    assert forall i :: 0 <= i < |p| ==> (p + q)[i] == p[i];
    if q != [] {
      var q' := q[..|q| - 1];
      assert (p + q)[..|p + q| - 1] == p + q';
      assert forall i :: 0 <= i < |p + q'| ==> (p + q')[i] == (p + q)[i];
      ValueGrows(p, q');
    } else {
      assert p + q == p;
    }
  }

  lemma ValueSnoc(p: string, c: char)
    requires AllDigits(p) && IsDigit(c)
    ensures AllDigits(p + [c]) && Value(p + [c]) == Value(p) * 10 + Digit(c)
  {
    assert (p + [c])[..|p|] == p;
  }

  /**
   * The accumulation loop, started after `prefix` has been consumed, succeeds exactly when the
   * rest is all digits and the whole numeral stays within -limit; it then yields minus the value.
   */
  lemma {:induction false} AccumulateMeansValue(prefix: string, digits: string, limit: int)
    requires limit == MIN_VALUE || limit == -MAX_VALUE
    requires AllDigits(prefix) && Value(prefix) <= -limit
    ensures Accumulate(digits, -(Value(prefix) as int), limit, Quot(limit, 10)) ==
            if AllDigits(prefix + digits) && Value(prefix + digits) <= -limit
            then Some(-(Value(prefix + digits) as int)) else None
    decreases |digits|
  {
    assert Quot(limit, 10) == -214748364;
    if digits == [] {
      assert prefix + digits == prefix;
    } else {
      var c := digits[0];
      assert prefix + digits == (prefix + [c]) + digits[1..];
      if !IsDigit(c) {
        assert (prefix + digits)[|prefix|] == c;
      } else {
        ValueSnoc(prefix, c);
        var p' := prefix + [c];
        if AllDigits(prefix + digits) {
          ValueGrows(p', digits[1..]);
        }
        if Value(p') <= -limit {
          AccumulateMeansValue(p', digits[1..], limit);
        }
      }
    }
  }

  // ---------------------------------------------------------------------------
  // Decimal rendering of an int, as string concatenation (`"" + port`) produces it

  function NatToString(n: nat): (s: string)
    ensures |s| > 0 && AllDigits(s) && Value(s) == n
  {
    if n < 10 then
      assert Value([DigitChar(n)]) == Value([]) * 10 + n;
      [DigitChar(n)]
    else
      var t := NatToString(n / 10);
      ValueSnoc(t, DigitChar(n % 10));
      t + [DigitChar(n % 10)]
  }

  /** Integer.toString(n): a decimal numeral of value n, signed exactly when n is negative. */
  function IntToString(n: int): (s: string)
    ensures IsDecimal(s) && SignedValue(s) == n
    ensures s[0] == '-' <==> n < 0
    ensures s[0] != '+'
  {
    if n < 0 then
      var t := NatToString(-n);
      assert ("-" + t)[1..] == t;
      "-" + t
    else
      var t := NatToString(n);
      assert IsDigit(t[0]);
      t
  }

  /** Integer.parseInt reads back every int that Integer.toString writes. */
  lemma ParseIntToString(n: Int32)
    ensures ParseInt(IntToString(n)) == Some(n)
  {
  }

  // ---------------------------------------------------------------------------
  // String.indexOf

  predicate OccursAt(s: string, pat: string, i: int) {
    0 <= i && i + |pat| <= |s| && s[i..i + |pat|] == pat
  }

  /** String.indexOf(pat): the first index at which `pat` occurs in `s`, or -1. */
  function IndexOf(s: string, pat: string): (r: int)
    ensures -1 <= r <= |s|
    ensures r >= 0 ==> OccursAt(s, pat, r)
    ensures forall i :: 0 <= i < (if r < 0 then |s| + 1 else r) ==> !OccursAt(s, pat, i)
    decreases |s|
  {
    if |s| < |pat| then -1
    else if s[..|pat|] == pat then 0
    else
      var k := IndexOf(s[1..], pat);
      assert forall i :: 1 <= i <= |s| ==> (OccursAt(s, pat, i) <==> OccursAt(s[1..], pat, i - 1));
      if k < 0 then -1 else k + 1
  }

  /** The index of a first occurrence is what IndexOf returns. */
  lemma IndexOfIs(s: string, pat: string, k: int)
    requires OccursAt(s, pat, k)
    requires forall i :: 0 <= i < k ==> !OccursAt(s, pat, i)
    ensures IndexOf(s, pat) == k
  {
  }

  /** indexOf(c) for a single character: the position of its first occurrence. */
  lemma IndexOfCharIs(s: string, c: char, k: nat)
    requires k < |s| && s[k] == c && c !in s[..k]
    ensures IndexOf(s, [c]) == k
  {
    assert s[k..k + 1] == [c];
    forall i | 0 <= i < k
      ensures !OccursAt(s, [c], i)
    {
      assert s[..k][i] == s[i];
      assert s[i..i + 1] == [s[i]];
    }
    IndexOfIs(s, [c], k);
  }

  /** indexOf(c) of a character the string does not hold is -1. */
  lemma IndexOfCharAbsent(s: string, c: char)
    requires c !in s
    ensures IndexOf(s, [c]) == -1
  {
    forall i | 0 <= i <= |s|
      ensures !OccursAt(s, [c], i)
    {
      if i < |s| {
        assert s[i..i + 1] == [s[i]];
      }
    }
    IndexOfAbsent(s, [c]);
  }

  /** The text before indexOf(c) does not hold c; when indexOf(c) is -1, no text does. */
  lemma IndexOfCharFirst(s: string, c: char)
    ensures var k := IndexOf(s, [c]);
            (k >= 0 ==> k < |s| && s[k] == c && c !in s[..k]) && (k < 0 ==> c !in s)
  {
    var k := IndexOf(s, [c]);
    if k >= 0 {
      assert s[k..k + 1] == [c];
    }
    var bound := if k < 0 then |s| else k;
    forall i | 0 <= i < bound
      ensures s[i] != c
    {
      assert s[i..i + 1] == [s[i]];
    }
  }

  /** A pattern that occurs nowhere gives -1. */
  lemma IndexOfAbsent(s: string, pat: string)
    requires forall i :: 0 <= i <= |s| ==> !OccursAt(s, pat, i)
    ensures IndexOf(s, pat) == -1
  {
  }
}
