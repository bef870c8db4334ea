/**
 * String helpers the source takes from JavaScript: number-to-text conversion
 * (template literals, `toFixed(2)`, `padStart`), `toLowerCase`, `includes`
 * and the ordering behind `localeCompare`.
 */
module Text {

  predicate IsDigit(c: char) {
    '0' <= c <= '9'
  }

  predicate AllDigits(s: string) {
    forall i :: 0 <= i < |s| ==> IsDigit(s[i])
  }

  function DigitChar(d: nat): (c: char)
    requires d < 10
    ensures IsDigit(c) && c as int - '0' as int == d
  {
    ('0' as int + d) as char
  }

  function DigitValue(c: char): nat
    requires IsDigit(c)
  {
    c as int - '0' as int
  }

  /** The decimal numeral of `n`, as `${n}` prints it. */
  function NatToString(n: nat): (s: string)
    ensures |s| > 0 && AllDigits(s)
    decreases n
  {
    if n < 10 then [DigitChar(n)] else NatToString(n / 10) + [DigitChar(n % 10)]
  }

  /** `${i}` for an integer: a minus sign before the numeral of a negative value; the digits read back as the magnitude. */
  function IntToString(i: int): (r: string)
    ensures |r| > 0 && (r[0] == '-' <==> i < 0)
    ensures i >= 0 ==> AllDigits(r) && ParseDigits(r) == i
    ensures i < 0 ==> AllDigits(r[1..]) && ParseDigits(r[1..]) == -i
  {
    if i < 0 then
      var m := NatToString(-i);
      NatToStringRoundTrip(-i);
      assert ("-" + m)[1..] == m;
      "-" + m
    else
      NatToStringRoundTrip(i);
      NatToString(i)
  }

  /** Reads a string of digits back as a number. */
  function ParseDigits(s: string): nat
    requires AllDigits(s)
    decreases |s|
  {
    if |s| == 0 then 0 else 10 * ParseDigits(s[..|s| - 1]) + DigitValue(s[|s| - 1])
  }

  /** The numeral reads back as the number, and has no leading zero. */
  lemma {:induction false} NatToStringRoundTrip(n: nat)
    ensures ParseDigits(NatToString(n)) == n
    ensures NatToString(n)[0] == '0' ==> n == 0
    decreases n
  {
    if n >= 10 {
      NatToStringRoundTrip(n / 10);
      var s := NatToString(n);
      assert s[..|s| - 1] == NatToString(n / 10);
    }
  }

  function Pow10(k: nat): (r: nat)
    ensures r >= 1
  {
    if k == 0 then 1 else 10 * Pow10(k - 1)
  }

  /** A number below `10^k` has at most `k` digits. */
  lemma {:induction false} NatToStringLength(n: nat, k: nat)
    requires k >= 1 && n < Pow10(k)
    ensures |NatToString(n)| <= k
    decreases n
  {
    if n >= 10 {
      assert n / 10 < Pow10(k - 1);
      NatToStringLength(n / 10, k - 1);
    }
  }

  /** `s.padStart(width, c)`. */
  function PadStart(s: string, width: nat, c: char): (r: string)
    ensures |r| == if |s| >= width then |s| else width
    ensures r[|r| - |s|..] == s
    ensures forall i :: 0 <= i < |r| - |s| ==> r[i] == c
  {
    if |s| >= width then s else seq(width - |s|, _ => c) + s
  }

  lemma {:induction false} ZerosParseToZero(z: string)
    requires forall i :: 0 <= i < |z| ==> z[i] == '0'
    ensures AllDigits(z) && ParseDigits(z) == 0
    decreases |z|
  {
    if |z| > 0 {
      ZerosParseToZero(z[..|z| - 1]);
    }
  }

  /** Leading zeros do not change the value read back. */
  lemma {:induction false} LeadingZerosParse(z: string, s: string)
    requires forall i :: 0 <= i < |z| ==> z[i] == '0'
    requires AllDigits(s)
    ensures AllDigits(z + s) && ParseDigits(z + s) == ParseDigits(s)
    decreases |s|
  {
    if |s| == 0 {
      assert z + s == z;
      ZerosParseToZero(z);
    } else {
      assert (z + s)[..|z + s| - 1] == z + s[..|s| - 1];
      LeadingZerosParse(z, s[..|s| - 1]);
    }
  }

  /** `a` is whole digits, a point and two digits that read back as `n` hundredths. */
  predicate Fixed2Digits(a: string, n: nat) {
    && |a| >= 4 && a[|a| - 3] == '.'
    && AllDigits(a[..|a| - 3]) && AllDigits(a[|a| - 2..])
    && 100 * ParseDigits(a[..|a| - 3]) + ParseDigits(a[|a| - 2..]) == n
  }

  /** `a` shows `x` to two decimals: a leading `-` exactly for a negative value, then the magnitude's hundredths rounded half up. */
  predicate ShowsFixed2(a: string, x: real) {
    if x < 0.0 then |a| >= 1 && a[0] == '-' && Fixed2Digits(a[1..], Hundredths(-x))
    else Fixed2Digits(a, Hundredths(x))
  }

  /** `x.toFixed(2)` for a value below 1e21: the nearest hundredth (ties upwards), with two decimals. */
  function ToFixed2(x: real): (r: string)
    ensures ShowsFixed2(r, x)
  {
    if x < 0.0 then
      var m := Fixed2Magnitude(-x);
      assert Fixed2Digits(m, Hundredths(-x));
      assert ("-" + m)[1..] == m;
      "-" + m
    else
      assert Fixed2Digits(Fixed2Magnitude(x), Hundredths(x));
      Fixed2Magnitude(x)
  }

  /** The hundredths count `toFixed(2)` prints for a non-negative value. */
  function Hundredths(x: real): nat
    requires x >= 0.0
  {
    (100.0 * x + 0.5).Floor
  }

  function Fixed2Magnitude(x: real): (s: string)
    requires x >= 0.0
    ensures |s| >= 4 && s[|s| - 3] == '.'
    ensures AllDigits(s[..|s| - 3]) && AllDigits(s[|s| - 2..])
    ensures 100 * ParseDigits(s[..|s| - 3]) + ParseDigits(s[|s| - 2..]) == Hundredths(x)
  {
    HundredthsNumeral(Hundredths(x))
  }

  /** The numeral of `n` hundredths: the whole part as `${}` prints it, a point, and exactly two digits. */
  function HundredthsNumeral(n: nat): (s: string)
    ensures |s| >= 4 && s[|s| - 3] == '.'
    ensures AllDigits(s[..|s| - 3]) && AllDigits(s[|s| - 2..])
    ensures 100 * ParseDigits(s[..|s| - 3]) + ParseDigits(s[|s| - 2..]) == n
  {
    var whole := NatToString(n / 100);
    var cents := [DigitChar(n % 100 / 10), DigitChar(n % 10)];
    var s := whole + "." + cents;
    assert s[..|s| - 3] == whole;
    assert s[|s| - 2..] == cents;
    NatToStringRoundTrip(n / 100);
    var tens, units := n % 100 / 10, n % 10;
    TwoDigitsValue(tens, units);
    assert 100 * (n / 100) + 10 * tens + units == n;
    s
  }

  lemma TwoDigitsValue(a: nat, b: nat)
    requires a < 10 && b < 10
    ensures ParseDigits([DigitChar(a), DigitChar(b)]) == 10 * a + b
  {
    var s := [DigitChar(a), DigitChar(b)];
    assert s[..1] == [DigitChar(a)];
    assert [DigitChar(a)][..0] == [];
    assert ParseDigits([DigitChar(a)]) == a;
  }

  /** ASCII `toLowerCase` of one character. */
  function LowerChar(c: char): char {
    if 'A' <= c <= 'Z' then (c as int + 32) as char else c
  }

  function ToLower(s: string): (r: string)
    ensures |r| == |s|
    ensures forall i :: 0 <= i < |s| ==> r[i] == LowerChar(s[i])
  {
    seq(|s|, i requires 0 <= i < |s| => LowerChar(s[i]))
  }

  /** `t` occurs in `s` at position `i`. */
  ghost predicate OccursAt(t: string, s: string, i: int) {
    0 <= i && i + |t| <= |s| && s[i..i + |t|] == t
  }

  /** `s.includes(t)`, scanning from the left: only a needle no longer than the text can occur, and every text includes itself. */
  function Includes(s: string, t: string): (r: bool)
    ensures r ==> |t| <= |s|
    ensures s == t ==> r
    decreases |s|
  {
    if |t| > |s| then false
    else if s[..|t|] == t then true
    else Includes(s[1..], t)
  }

  /** `includes` holds exactly when the needle occurs at some position. */
  lemma {:induction false} IncludesIff(s: string, t: string)
    ensures Includes(s, t) <==> exists i :: OccursAt(t, s, i)
    decreases |s|
  {
    if |t| > |s| {
    } else if s[..|t|] == t {
      assert OccursAt(t, s, 0);
    } else {
      IncludesIff(s[1..], t);
      if Includes(s, t) {
        var i :| OccursAt(t, s[1..], i);
        assert s[1..][i..i + |t|] == s[i + 1..i + 1 + |t|];
        assert OccursAt(t, s, i + 1);
      } else {
        forall i | OccursAt(t, s, i)
          ensures false
        {
          assert i != 0;
          assert s[1..][i - 1..i - 1 + |t|] == s[i..i + |t|];
          assert OccursAt(t, s[1..], i - 1);
        }
      }
    }
  }

  lemma IncludesEmpty(s: string)
    ensures Includes(s, "")
  {
    assert s[..0] == "";
  }

  /** Code-point lexicographic order: `a.localeCompare(b) <= 0` for the plain identifiers and names modelled. */
  predicate LexLe(a: string, b: string)
    decreases |a|
  {
    if |a| == 0 then true
    else if |b| == 0 then false
    else if a[0] != b[0] then a[0] < b[0]
    else LexLe(a[1..], b[1..])
  }

  lemma {:induction false} LexLeTotal(a: string, b: string)
    ensures LexLe(a, b) || LexLe(b, a)
    decreases |a|
  {
    if |a| > 0 && |b| > 0 && a[0] == b[0] {
      LexLeTotal(a[1..], b[1..]);
    }
  }

  lemma {:induction false} LexLeTransitive(a: string, b: string, c: string)
    requires LexLe(a, b) && LexLe(b, c)
    ensures LexLe(a, c)
    decreases |a|
  {
    if |a| > 0 && |b| > 0 && |c| > 0 && a[0] == b[0] && b[0] == c[0] {
      LexLeTransitive(a[1..], b[1..], c[1..]);
    }
  }
}
