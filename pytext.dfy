/**
 The handful of Python string and integer operations that lash.py relies on,
 written out over unbounded integers and `seq<char>`: `len(range(n))`,
 `s * n`, `"".join(ss)`, `str(n)` for an int and floor division `//`.
 A small decimal decoder is the reference against which `Str` is checked.
 */
module PyText {

  datatype Option<+T> = None | Some(value: T)

  /** The number of iterations of `for _ in range(n)`: zero when n <= 0. */
  function RangeLen(n: int): nat
  {
    if n > 0 then n else 0
  }

  /** Python's `s * n` for a string and an int: n copies of s, the empty string when n <= 0. */
  function Times(s: string, n: int): (r: string)
    ensures |r| == |s| * RangeLen(n)
    ensures |s| == 1 ==> forall i | 0 <= i < |r| :: r[i] == s[0]
    decreases RangeLen(n)
  {
    if n <= 0 then [] else Times(s, n - 1) + s
  }

  /** Copy k of s in `s * n` sits at offset k * len(s): the result is n copies of s end to end. */
  lemma {:induction false} TimesAt(s: string, n: int, k: nat, j: nat)
    requires k < RangeLen(n) && j < |s|
    ensures k * |s| + j < |Times(s, n)| && Times(s, n)[k * |s| + j] == s[j]
    decreases RangeLen(n)
  {
    var front := Times(s, n - 1);
    if k < n - 1 {
      TimesAt(s, n - 1, k, j);
    } else {
      assert k * |s| == |front|;
    }
  }

  /** `s * (a + b)` is `s * a` followed by `s * b` for non-negative counts. */
  lemma {:induction false} TimesAdd(s: string, a: nat, b: nat)
    ensures Times(s, a + b) == Times(s, a) + Times(s, b)
    decreases b
  {
    if b > 0 {
      TimesAdd(s, a, b - 1);
      AppendAssoc(Times(s, a), Times(s, b - 1), s);
    }
  }

  /** Python's `"".join(ss)`. */
  function Join(ss: seq<string>): string
  {
    if ss == [] then [] else Join(ss[..|ss| - 1]) + ss[|ss| - 1]
  }

  lemma {:induction false} JoinAppend(a: seq<string>, b: seq<string>)
    ensures Join(a + b) == Join(a) + Join(b)
    decreases |b|
  {
    if b == [] {
      assert a + b == a;
    } else {
      var b' := b[..|b| - 1];
      assert (a + b)[..|a + b| - 1] == a + b';
      JoinAppend(a, b');
    }
  }

  /**
   `"".join(f(i) for i in range(lo, lo + n))`, read one element at a time from
   the front: f(lo), then the n - 1 elements from lo + 1.
   */
  function JoinRange(f: int -> string, lo: int, n: nat): string
    decreases n
  {
    if n == 0 then [] else f(lo) + JoinRange(f, lo + 1, n - 1)
  }

  /** The front-first reading agrees with `Join` of the list of elements. */
  lemma {:induction false} JoinRangeIsJoin(f: int -> string, lo: int, n: nat)
    ensures JoinRange(f, lo, n) == Join(seq(n, i => f(lo + i)))
    decreases n
  {
    if n > 0 {
      var all := seq(n, i => f(lo + i));
      var rest := seq(n - 1, i => f(lo + 1 + i));
      assert all == [f(lo)] + rest;
      JoinAppend([f(lo)], rest);
      assert [f(lo)][..0] == [];
      JoinRangeIsJoin(f, lo + 1, n - 1);
      assert rest == seq(n - 1, i => f((lo + 1) + i));
    }
  }

  /** Joining one more element of a list appends that element. */
  lemma JoinPrefixStep(ss: seq<string>, i: nat)
    requires i < |ss|
    ensures Join(ss[..i + 1]) == Join(ss[..i]) + ss[i]
  {
    assert ss[..i + 1][..i] == ss[..i];
  }

  lemma AppendAssoc(a: string, b: string, c: string)
    ensures (a + b) + c == a + (b + c)
  {
  }

  /** Python's `a // b` for a positive divisor: the quotient rounded towards minus infinity. */
  function FloorDiv(a: int, b: int): (q: int)
    requires b > 0
    ensures b * q <= a < b * q + b
  {
    a / b
  }

  predicate IsDigit(c: char)
  {
    '0' <= c <= '9'
  }

  predicate AllDigits(s: string)
  {
    forall i | 0 <= i < |s| :: IsDigit(s[i])
  }

  function DigitChar(d: int): (c: char)
    requires 0 <= d < 10
    ensures IsDigit(c) && c as int - '0' as int == d
  {
    ('0' as int + d) as char
  }

  /** The decimal digits of n, most significant first, with no leading zero. */
  function NatToString(n: nat): (s: string)
    ensures |s| > 0 && AllDigits(s)
    ensures |s| > 1 ==> s[0] != '0'
  {
    if n < 10 then [DigitChar(n)] else NatToString(n / 10) + [DigitChar(n % 10)]
  }

  /**
   The form `str` gives an int: an optional '-', then at least one digit, with
   no leading zero, and no "-0".
   */
  predicate CanonicalDecimal(d: string)
  {
    if |d| > 0 && d[0] == '-' then |d| > 1 && AllDigits(d[1..]) && d[1] != '0'
    else |d| > 0 && AllDigits(d) && (|d| > 1 ==> d[0] != '0')
  }

  /** Python's `str(n)` (and an f-string's `{n}`) for an int n. */
  function Str(n: int): (s: string)
    ensures |s| > 0
    ensures n >= 0 ==> AllDigits(s)
    ensures n < 0 ==> s[0] == '-' && |s| > 1 && AllDigits(s[1..])
  {
    if n < 0 then "-" + NatToString(-n) else NatToString(n)
  }

  /** `str(n)` has no leading zero, and a negative n gives no "-0": the digits are canonical. */
  lemma StrCanonical(n: int)
    ensures n >= 0 ==> |Str(n)| > 1 ==> Str(n)[0] != '0'
    ensures n < 0 ==> Str(n)[1] != '0'
    ensures CanonicalDecimal(Str(n))
  {
  }

  /** The value of a string of decimal digits. */
  function DigitsValue(s: string): nat
    requires AllDigits(s)
  {
    if s == [] then 0 else DigitsValue(s[..|s| - 1]) * 10 + (s[|s| - 1] as int - '0' as int)
  }

  /** Reference decoder for a decimal integer literal: an optional '-', then at least one digit. */
  function ParseDecimal(s: string): Option<int>
  {
    if |s| > 0 && AllDigits(s) then Some(DigitsValue(s) as int)
    else if |s| > 1 && s[0] == '-' && AllDigits(s[1..]) then Some(-(DigitsValue(s[1..]) as int))
    else None
  }

  lemma {:induction false} NatToStringValue(n: nat)
    ensures DigitsValue(NatToString(n)) == n
  {
    if n >= 10 {
      var s := NatToString(n);
      assert s[..|s| - 1] == NatToString(n / 10);
      NatToStringValue(n / 10);
    }
  }

  /** `str(n)` is decoded back to n: the digits an f-string prints determine the int. */
  lemma StrRoundTrip(n: int)
    ensures ParseDecimal(Str(n)) == Some(n)
  {
    if n < 0 {
      NatToStringValue(-n);
      assert Str(n)[1..] == NatToString(-n);
    } else {
      NatToStringValue(n);
    }
  }

  /** A string of digits with a non-zero first digit has a positive value. */
  lemma {:induction false} LeadingDigitPositive(s: string)
    requires |s| > 0 && AllDigits(s) && s[0] != '0'
    ensures DigitsValue(s) > 0
    decreases |s|
  {
    if |s| > 1 {
      LeadingDigitPositive(s[..|s| - 1]);
    }
  }

  /** Digits without a leading zero are exactly the digits NatToString writes for their value. */
  lemma {:induction false} NatToStringOfDigits(d: string)
    requires |d| > 0 && AllDigits(d) && (|d| > 1 ==> d[0] != '0')
    ensures NatToString(DigitsValue(d)) == d
    decreases |d|
  {
    var v := DigitsValue(d);
    if |d| == 1 {
      assert d[..|d| - 1] == [];
      assert DigitsValue(d[..|d| - 1]) == 0;
      assert v == d[0] as int - '0' as int;
    } else {
      var front := d[..|d| - 1];
      LeadingDigitPositive(front);
      NatToStringOfDigits(front);
      var last := d[|d| - 1] as int - '0' as int;
      assert v == DigitsValue(front) * 10 + last;
      assert v / 10 == DigitsValue(front) && v % 10 == last;
      assert d == front + [d[|d| - 1]];
    }
  }

  /**
   A canonical decimal is determined by the value it decodes to: it is `str` of
   that value, so no other spelling (a leading zero, "-0") qualifies.
   */
  lemma CanonicalDecimalIsStr(d: string, n: int)
    requires CanonicalDecimal(d) && ParseDecimal(d) == Some(n)
    ensures d == Str(n)
  {
    if d[0] == '-' {
      var digits := d[1..];
      LeadingDigitPositive(digits);
      NatToStringOfDigits(digits);
      assert d == "-" + digits;
    } else {
      NatToStringOfDigits(d);
    }
  }

  lemma StrInjective(a: int, b: int)
    requires Str(a) == Str(b)
    ensures a == b
  {
    StrRoundTrip(a);
    StrRoundTrip(b);
  }
}
