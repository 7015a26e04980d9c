/** Decimal text of counters: `String(n)`, `padStart(6, '0')`, `parseInt`
    and `split('-').pop()`, as the return-number hook uses them. */
module Decimal {
  import opened Common
  import opened Text

  predicate IsDigit(c: char) { '0' <= c <= '9' }

  predicate AllDigits(s: string) { forall i :: 0 <= i < |s| ==> IsDigit(s[i]) }

  function DigitChar(d: nat): (c: char)
    requires d < 10
    ensures IsDigit(c)
  {
    ('0' as int + d) as char
  }

  function DigitValue(c: char): (d: nat)
    requires IsDigit(c)
    ensures d < 10
  {
    c as int - '0' as int
  }

  /** `String(n)`: decimal digits, no leading zero except for 0 itself. */
  function NatToString(n: nat): (s: string)
    ensures |s| > 0 && AllDigits(s)
    ensures |s| == 1 || s[0] != '0'
    decreases n
  {
    if n < 10 then [DigitChar(n)] else NatToString(n / 10) + [DigitChar(n % 10)]
  }

  /** The number a string of digits denotes. */
  function Value(s: string): nat
    requires AllDigits(s)
  {
    if |s| == 0 then 0 else Value(s[..|s| - 1]) * 10 + DigitValue(s[|s| - 1])
  }

  /** `d` followed by `k` zeros, that is d * 10^k, built by repeated
      multiplication by ten so that proofs stay linear. */
  function Scaled(d: nat, k: nat): nat
  {
    if k == 0 then d else 10 * Scaled(d, k - 1)
  }

  function Zeros(k: nat): (z: string)
    ensures |z| == k && AllDigits(z)
    ensures forall i :: 0 <= i < k ==> z[i] == '0'
  {
    if k == 0 then "" else "0" + Zeros(k - 1)
  }

  /** `s.padStart(width, '0')` */
  function PadStart(s: string, width: nat): (r: string)
    ensures |r| == if |s| >= width then |s| else width
  {
    if |s| >= width then s else Zeros(width - |s|) + s
  }

  /** `String(n).padStart(6, '0')` */
  function Pad6(n: nat): (r: string)
    ensures AllDigits(r) && |r| >= 6
  {
    PadStart(NatToString(n), 6)
  }

  /** The leading run of digits. */
  function LeadingDigits(s: string): (r: string)
    ensures |r| <= |s| && r == s[..|r|] && AllDigits(r)
    ensures |r| < |s| ==> !IsDigit(s[|r|])
  {
    if |s| == 0 || !IsDigit(s[0]) then "" else [s[0]] + LeadingDigits(s[1..])
  }

  /** `parseInt(s)` on text that starts with a digit or with no number at
      all: the value of the leading digits, `None` standing for NaN. */
  function ParseInt(s: string): (r: Option<nat>)
    ensures r.None? <==> (|s| == 0 || !IsDigit(s[0]))
  {
    var d := LeadingDigits(s);
    if |d| == 0 then None else Some(Value(d))
  }

  /** `s.split('-').pop()`: the text after the last '-', or all of `s`. */
  function LastSegment(s: string): (r: string)
    ensures |r| <= |s| && r == s[|s| - |r|..]
    ensures forall i :: 0 <= i < |r| ==> r[i] != '-'
    ensures |r| < |s| ==> s[|s| - |r| - 1] == '-'
  {
    if |s| == 0 then ""
    else if s[|s| - 1] == '-' then ""
    else LastSegment(s[..|s| - 1]) + [s[|s| - 1]]
  }

  // ---------------------------------------------------------------------

  lemma {:induction false} ValueAppendDigit(s: string, c: char)
    requires AllDigits(s) && IsDigit(c)
    ensures Value(s + [c]) == Value(s) * 10 + DigitValue(c)
  {
    assert (s + [c])[..|s|] == s;
  }

  /** `parseInt` reads back what `String` wrote. */
  lemma {:induction false} ValueOfNatToString(n: nat)
    ensures Value(NatToString(n)) == n
    decreases n
  {
    if n < 10 {
      assert NatToString(n)[..0] == "";
    } else {
      ValueOfNatToString(n / 10);
      ValueAppendDigit(NatToString(n / 10), DigitChar(n % 10));
    }
  }

  lemma {:induction false} ScaledAdd(x: nat, y: nat, k: nat)
    ensures Scaled(x + y, k) == Scaled(x, k) + Scaled(y, k)
  {
    if k > 0 { ScaledAdd(x, y, k - 1); }
  }

  lemma {:induction false} ScaledZero(k: nat)
    ensures Scaled(0, k) == 0
  {
    if k > 0 { ScaledZero(k - 1); }
  }

  /** A digit string evaluated from its first digit. */
  lemma ValueFront(s: string)
    requires |s| > 0 && AllDigits(s)
    ensures Value(s) == Scaled(DigitValue(s[0]), |s| - 1) + Value(s[1..])
  {
    var head, rest := [s[0]], s[1..];
    assert head[..0] == "";
    assert Value(head) == DigitValue(s[0]);
    ValueAppend(head, rest);
    assert head + rest == s;
  }

  /** The value of a concatenation: the first part shifted by the length of
      the second. */
  lemma {:induction false} ValueAppend(a: string, b: string)
    requires AllDigits(a) && AllDigits(b)
    ensures Value(a + b) == Scaled(Value(a), |b|) + Value(b)
    decreases |b|
  {
    if |b| == 0 {
      assert a + b == a;
    } else {
      var n := |b| - 1;
      var init := b[..n];
      var ab := a + b;
      assert ab[..|ab| - 1] == a + init;
      assert ab[|ab| - 1] == b[n];
      ValueAppend(a, init);
    }
  }

  lemma {:induction false} ValueBound(s: string)
    requires AllDigits(s)
    ensures Value(s) < Scaled(1, |s|)
  {
    if |s| > 0 { ValueBound(s[..|s| - 1]); }
  }

  /** Leading zeros do not change the value. */
  lemma {:induction false} ValueZeros(k: nat, s: string)
    requires AllDigits(s)
    ensures Value(Zeros(k) + s) == Value(s)
    decreases k
  {
    if k > 0 {
      var t := Zeros(k) + s;
      assert t[0] == '0';
      ValueFront(t);
      ScaledZero(|t| - 1);
      assert t[1..] == Zeros(k - 1) + s;
      ValueZeros(k - 1, s);
    } else {
      assert Zeros(k) + s == s;
    }
  }

  lemma {:induction false} LeadingDigitsAll(s: string)
    requires AllDigits(s)
    ensures LeadingDigits(s) == s
  {
    if |s| > 0 { LeadingDigitsAll(s[1..]); assert [s[0]] + s[1..] == s; }
  }

  /** The padded counter parses back to the counter. */
  lemma Pad6Parses(n: nat)
    ensures ParseInt(Pad6(n)) == Some(n)
  {
    var s := NatToString(n);
    LeadingDigitsAll(Pad6(n));
    ValueOfNatToString(n);
    if |s| < 6 { ValueZeros(6 - |s|, s); }
  }

  /** The last '-' segment of `p + "-" + x` is `x` when `x` holds no '-'. */
  lemma {:induction false} LastSegmentAfterDash(p: string, x: string)
    requires forall i :: 0 <= i < |x| ==> x[i] != '-'
    ensures LastSegment(p + "-" + x) == x
    decreases |x|
  {
    var s := p + "-" + x;
    if |x| == 0 {
      assert s[|s| - 1] == '-';
    } else {
      var x' := x[..|x| - 1];
      assert s[..|s| - 1] == p + "-" + x';
      LastSegmentAfterDash(p, x');
      assert x' + [x[|x| - 1]] == x;
    }
  }

  /** Numbers below 10^6 pad to exactly six characters. */
  lemma Pad6Length(n: nat)
    requires n < 1000000
    ensures |Pad6(n)| == 6
  {
    NatToStringLength(n, 6);
  }

  lemma {:induction false} NatToStringLength(n: nat, k: nat)
    requires n < Scaled(1, k)
    ensures |NatToString(n)| <= k || k == 0
    decreases n
  {
    if n >= 10 && k > 0 {
      NatToStringLength(n / 10, k - 1);
    }
  }

  lemma DigitDominates(da: nat, db: nat, k: nat, x: nat, y: nat)
    requires da < db && x < Scaled(1, k)
    ensures Scaled(da, k) + x < Scaled(db, k) + y
  {
    ScaledAdd(da + 1, db - da - 1, k);
    ScaledAdd(da, 1, k);
  }

  /** On digit strings of equal length, the database's string order is the
      numeric order. */
  lemma {:induction false} LexLessIsNumeric(a: string, b: string)
    requires |a| == |b| && AllDigits(a) && AllDigits(b)
    ensures LexLess(a, b) <==> Value(a) < Value(b)
    decreases |a|
  {
    if |a| > 0 {
      ValueFront(a);
      ValueFront(b);
      ValueBound(a[1..]);
      ValueBound(b[1..]);
      LexLessIsNumeric(a[1..], b[1..]);
      var k := |a| - 1;
      var da, db := DigitValue(a[0]), DigitValue(b[0]);
      if da < db {
        DigitDominates(da, db, k, Value(a[1..]), Value(b[1..]));
      } else if db < da {
        DigitDominates(db, da, k, Value(b[1..]), Value(a[1..]));
      } else {
        assert a[0] == b[0];
      }
    }
  }

  /** Below one million the padded counters sort as their numbers. */
  lemma Pad6Ordered(n: nat, m: nat)
    requires n < 1000000 && m < 1000000
    ensures LexLess(Pad6(n), Pad6(m)) <==> n < m
  {
    Pad6Length(n);
    Pad6Length(m);
    Pad6Parses(n);
    Pad6Parses(m);
    LeadingDigitsAll(Pad6(n));
    LeadingDigitsAll(Pad6(m));
    LexLessIsNumeric(Pad6(n), Pad6(m));
  }

  /** At one million the order breaks: the seven-digit counter sorts below
      the six-digit one. */
  lemma Pad6OrderBreaks()
    ensures Pad6(1000000) == "1000000" && Pad6(999999) == "999999"
    ensures LexLess(Pad6(1000000), Pad6(999999))
  {
    assert NatToString(1) == "1";
    assert NatToString(10) == "10";
    assert NatToString(100) == "100";
    assert NatToString(1000) == "1000";
    assert NatToString(10000) == "10000";
    assert NatToString(100000) == "100000";
    assert NatToString(1000000) == "1000000";
    assert NatToString(9) == "9";
    assert NatToString(99) == "99";
    assert NatToString(999) == "999";
    assert NatToString(9999) == "9999";
    assert NatToString(99999) == "99999";
    assert NatToString(999999) == "999999";
  }
}
