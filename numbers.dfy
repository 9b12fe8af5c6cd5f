/** Number-to-text conversions the messages use: `toFixed(d)`, the
    `.replace(/\.?0+$/, '')` that trims a fixed-point text, and their values,
    all evaluated on exact reals. */
module Numbers {
  import opened Wrappers
  import opened Text

  function Abs(x: real): (a: real)
    ensures a >= 0.0 && (a == x || a == -x)
  {
    if x < 0.0 then -x else x
  }

  /** The integer nearest to `x`, a tie going to the larger one. */
  function RoundHalfUp(x: real): (n: int)
    ensures n as real - 0.5 <= x < n as real + 0.5
  {
    (x + 0.5).Floor
  }

  /** |x| scaled by 10^d and rounded: the digits `toFixed(d)` prints. */
  function Scaled(x: real, d: nat): nat {
    ClampedRound(Abs(x) * Pow10(d) as real)
  }

  /** The nearest whole number to `y`, and 0 when that is negative. */
  function ClampedRound(y: real): nat {
    var n := RoundHalfUp(y);
    if n < 0 then 0 else n
  }

  function Zeros(k: nat): (r: string)
    ensures |r| == k && AllDigits(r)
    ensures forall i :: 0 <= i < k ==> r[i] == '0'
  {
    seq(k, _ => '0')
  }

  /** The digits of `n` padded with zeros on the left to at least `width`. */
  function PadLeft(n: nat, width: nat): (r: string)
    ensures AllDigits(r) && |r| >= width && |r| >= 1
  {
    var s := NatToString(n);
    if |s| < width then Zeros(width - |s|) + s else s
  }

  /** The text of `n / 10^d` with exactly `d` digits after the point. */
  function FixedBody(n: nat, d: nat): string {
    var p := PadLeft(n, d + 1);
    if d == 0 then p else WithPoint(p, d)
  }

  /** The digits `p` with a point before the last `d` of them. */
  function WithPoint(p: string, d: nat): string
    requires |p| >= d
  {
    p[..|p| - d] + "." + p[|p| - d..]
  }

  /** `x.toFixed(d)`: a '-' for a negative `x`, then |x| rounded to `d` places. */
  function Fixed(x: real, d: nat): string {
    SignedFixed(x < 0.0, Scaled(x, d), d)
  }

  function SignedFixed(negative: bool, n: nat, d: nat): string {
    (if negative then "-" else "") + FixedBody(n, d)
  }

  /** The length of the run of '0' that ends `s`. */
  function TrailingZeros(s: string): (k: nat)
    ensures k <= |s|
    ensures forall i :: |s| - k <= i < |s| ==> s[i] == '0'
    ensures k == |s| || s[|s| - k - 1] != '0'
    decreases |s|
  {
    if |s| == 0 || s[|s| - 1] != '0' then 0 else 1 + TrailingZeros(s[..|s| - 1])
  }

  /** `s.replace(/\.?0+$/, '')`: the trailing zeros go, and so does a point just
      before them. */
  function StripZeros(s: string): string {
    var k := TrailingZeros(s);
    if k == 0 then s
    else if k < |s| && s[|s| - k - 1] == '.' then s[..|s| - k - 1]
    else s[..|s| - k]
  }

  /** `parseFloat(x).toFixed(8).replace(/\.?0+$/, '')`, the amount text of the
      balance and history messages. */
  function AmountText(x: real): string {
    StripZeros(Fixed(x, 8))
  }

  /** `String(x)` for the decimals the bot reads: the shortest decimal text,
      taken here as 20 fractional places with the trailing zeros removed. */
  function NumberText(x: real): string {
    StripZeros(Fixed(x, 20))
  }

  /** `ethers.formatUnits` (and `formatEther`) of a balance worth `x`: the
      decimal text without trailing zeros, keeping at least one fractional
      digit, so 5 shows as "5.0". */
  function UnitsText(x: real): (r: string)
    ensures '.' in r
  {
    var t := NumberText(x);
    if '.' in t then t else t + ".0"
  }

  // ---------------------------------------------------------------------------
  // Values of the texts

  lemma Pow10Add(a: nat, b: nat)
    ensures Pow10(a + b) == Pow10(a) * Pow10(b)
  {
    if a > 0 {
      Pow10Add(a - 1, b);
    }
  }

  lemma {:induction false} DigitsValueConcat(a: string, b: string)
    requires AllDigits(a) && AllDigits(b)
    ensures AllDigits(a + b)
    ensures DigitsValue(a + b) == DigitsValue(a) * Pow10(|b|) + DigitsValue(b)
    decreases |b|
  {
    if |b| == 0 {
      assert a + b == a;
    } else {
      var b' := b[..|b| - 1];
      var c := b[|b| - 1];
      var s := a + b;
      assert s[..|s| - 1] == a + b';
      assert s[|s| - 1] == c;
      DigitsValueConcat(a, b');
      assert b[..|b| - 1] == b';
      var x, y, p := DigitsValue(a), DigitsValue(b'), Pow10(|b'|);
      assert DigitsValue(s) == 10 * DigitsValue(a + b') + DigitValue(c);
      assert DigitsValue(b) == 10 * y + DigitValue(c);
      assert Pow10(|b|) == 10 * p;
      ShiftDigit(x, p, y, DigitValue(c));
    }
  }

  lemma ShiftDigit(x: int, p: int, y: int, c: int)
    ensures 10 * (x * p + y) + c == x * (10 * p) + (10 * y + c)
  {
  }

  lemma {:induction false} ZerosValue(k: nat)
    ensures DigitsValue(Zeros(k)) == 0
    decreases k
  {
    if k > 0 {
      assert Zeros(k)[..k - 1] == Zeros(k - 1);
      ZerosValue(k - 1);
    }
  }

  lemma {:induction false} PadLeftValue(n: nat, width: nat)
    ensures DigitsValue(PadLeft(n, width)) == n
  {
    var s := NatToString(n);
    NatToStringRoundTrip(n);
    if |s| < width {
      ZeroPadded(Zeros(width - |s|), s);
    }
  }

  /** Zeros in front do not change the value of a digit run. */
  lemma {:induction false} ZeroPadded(z: string, s: string)
    requires AllDigits(s) && forall i :: 0 <= i < |z| ==> z[i] == '0'
    ensures AllDigits(z + s) && DigitsValue(z + s) == DigitsValue(s)
  {
    AllZerosValue(z);
    DigitsValueConcat(z, s);
  }

  lemma {:induction false} DotAt(a: string, b: string)
    requires '.' !in a
    ensures IndexOfChar(a + "." + b, '.') == Some(|a|)
  {
    var s := a + "." + b;
    var r := IndexOfChar(s, '.');
    assert s[|a|] == '.';
    assert s[..|a|] == a;
  }

  lemma {:induction false} DigitsHaveNoDot(a: string)
    requires AllDigits(a)
    ensures '.' !in a
  {
  }

  lemma {:induction false} DecimalOfSplitIs(a: string, b: string)
    requires IsDigits(a) && IsDigits(b)
    ensures IsDecimal(a + "." + b)
  {
    var s := a + "." + b;
    DigitsHaveNoDot(a);
    DotAt(a, b);
    assert s[..|a|] == a;
    assert s[|a| + 1..] == b;
  }

  lemma {:induction false} DecimalValueAt(s: string, i: nat)
    requires IsDecimal(s) && IndexOfChar(s, '.') == Some(i)
    ensures i < |s|
    ensures DecimalValue(s) == DigitsValue(s[..i]) as real + DigitsValue(s[i + 1..]) as real / Pow10(|s| - i - 1) as real
  {
    FractionValueIs(s[i + 1..]);
  }

  /** `0.f` is the whole number `f` over 10^|f|. */
  lemma {:induction false} FractionValueIs(f: string)
    requires AllDigits(f)
    ensures FractionValue(f) == DigitsValue(f) as real / Pow10(|f|) as real
    decreases |f|
  {
    if |f| > 0 {
      var r := f[1..];
      FractionValueIs(r);
      assert [f[0]] + r == f;
      DigitsValueConcat([f[0]], r);
      assert DigitsValue([f[0]]) == DigitValue(f[0]) by {
        assert [f[0]][..0] == [];
      }
      FractionStep(DigitValue(f[0]), DigitsValue(r), Pow10(|r|), FractionValue(r));
    }
  }

  /** One more leading digit: `(d + y / p) / 10 == (d * p + y) / (10 * p)`. */
  lemma {:induction false} FractionStep(d: nat, y: nat, p: nat, v: real)
    requires p > 0 && v == y as real / p as real
    ensures (d as real + v) / 10.0 == (d * p + y) as real / (10 * p) as real
  {
    var pr := p as real;
    assert (d * p + y) as real == d as real * pr + y as real;
    assert (10 * p) as real == 10.0 * pr;
    calc {
      (d as real * pr + y as real) / (10.0 * pr);
      (d as real * pr) / (10.0 * pr) + y as real / (10.0 * pr);
      d as real / 10.0 + y as real / (10.0 * pr);
      { assert y as real / (10.0 * pr) == (y as real / pr) / 10.0; }
      d as real / 10.0 + v / 10.0;
      (d as real + v) / 10.0;
    }
  }

  /** A point between two digit runs reads as the integer part plus the fraction. */
  lemma {:induction false} DecimalOfSplit(a: string, b: string)
    requires IsDigits(a) && IsDigits(b)
    ensures IsDecimal(a + "." + b)
    ensures DecimalValue(a + "." + b) == DigitsValue(a) as real + DigitsValue(b) as real / Pow10(|b|) as real
  {
    var s := a + "." + b;
    DecimalOfSplitIs(a, b);
    DigitsHaveNoDot(a);
    DotAt(a, b);
    DecimalValueAt(s, |a|);
    assert s[..|a|] == a;
    assert s[|a| + 1..] == b;
  }

  lemma {:induction false} SplitValue(q: nat, r: nat, p: nat)
    requires p > 0
    ensures (q * p + r) as real / p as real == q as real + r as real / p as real
  {
  }

  lemma {:induction false} OverPower(v: real, w: nat, n: nat, p: nat)
    requires p > 0 && v == w as real / p as real && w == n
    ensures v == n as real / p as real
  {
  }

  /** A value read as `q + r / p` is the whole number `q * p + r` over `p`. */
  lemma {:induction false} SplitOverPower(v: real, w: nat, q: nat, r: nat, p: nat)
    requires p > 0 && v == q as real + r as real / p as real && w == q * p + r
    ensures v == w as real / p as real
  {
    SplitValue(q, r, p);
  }

  /** Putting a point before the last `d` digits divides the value by 10^d. */
  lemma {:induction false} PointValue(p: string, d: nat)
    requires AllDigits(p) && d >= 1 && |p| >= d + 1
    ensures IsDecimal(WithPoint(p, d))
    ensures DecimalValue(WithPoint(p, d)) == DigitsValue(p) as real / Pow10(d) as real
  {
    var a := p[..|p| - d];
    var b := p[|p| - d..];
    assert p == a + b;
    DigitsValueConcat(a, b);
    DecimalOfSplit(a, b);
    SplitOverPower(DecimalValue(a + "." + b), DigitsValue(p), DigitsValue(a), DigitsValue(b), Pow10(d));
  }

  /** `FixedBody(n, d)` is a decimal worth n / 10^d. */
  lemma {:induction false} FixedBodyValue(n: nat, d: nat)
    ensures IsDecimal(FixedBody(n, d))
    ensures DecimalValue(FixedBody(n, d)) == n as real / Pow10(d) as real
  {
    if d == 0 {
      FixedBodyWhole(n);
    } else {
      FixedBodyPoint(n, d);
    }
  }

  lemma {:induction false} FixedBodyWhole(n: nat)
    ensures IsDecimal(FixedBody(n, 0)) && DecimalValue(FixedBody(n, 0)) == n as real
  {
    var p := PadLeft(n, 1);
    PadLeftValue(n, 1);
    assert FixedBody(n, 0) == p;
    WholeValue(p);
  }

  lemma {:induction false} FixedBodyPoint(n: nat, d: nat)
    requires d >= 1
    ensures IsDecimal(FixedBody(n, d)) && DecimalValue(FixedBody(n, d)) == n as real / Pow10(d) as real
  {
    var p := PadLeft(n, d + 1);
    PadLeftValue(n, d + 1);
    PointValueOf(p, d, n);
  }

  /** `PointValue` for digits worth `n`. */
  lemma {:induction false} PointValueOf(p: string, d: nat, n: nat)
    requires AllDigits(p) && d >= 1 && |p| >= d + 1 && DigitsValue(p) == n
    ensures IsDecimal(WithPoint(p, d))
    ensures DecimalValue(WithPoint(p, d)) == n as real / Pow10(d) as real
  {
    PointValue(p, d);
    OverPower(DecimalValue(WithPoint(p, d)), DigitsValue(p), n, Pow10(d));
  }

  lemma {:induction false} WholeValue(p: string)
    requires IsDigits(p)
    ensures IsDecimal(p) && DecimalValue(p) == DigitsValue(p) as real
  {
    DigitsHaveNoDot(p);
    IndexOfAbsentChar(p, '.');
  }

  /** The trailing zeros of a decimal with a point all lie after the point. */
  lemma {:induction false} TrailingZerosAfterPoint(a: string, b: string)
    requires IsDigits(a) && IsDigits(b)
    ensures TrailingZeros(a + "." + b) <= |b|
  {
    var s := a + "." + b;
    assert s[|s| - |b| - 1] == '.';
  }

  lemma {:induction false} ScaleFraction(y: nat, p: nat, m: nat)
    requires p > 0 && m > 0
    ensures (y * m) as real / (p * m) as real == y as real / p as real
  {
  }

  /** `q + (y * m) / (p * m)` and `q + y / p` are the same value. */
  lemma {:induction false} SameFraction(v: real, w: real, q: nat, y: nat, z: nat, p: nat, pz: nat, m: nat)
    requires p > 0 && m > 0 && z == y * m && pz == p * m
    requires v == q as real + z as real / pz as real && w == q as real + y as real / p as real
    ensures v == w
  {
    ScaleFraction(y, p, m);
  }

  lemma {:induction false} AllZerosValue(z: string)
    requires forall i :: 0 <= i < |z| ==> z[i] == '0'
    ensures AllDigits(z) && DigitsValue(z) == 0
  {
    assert z == Zeros(|z|);
    ZerosValue(|z|);
  }

  /** The fraction of `a.b` split into kept digits and its `k` trailing zeros. */
  lemma {:induction false} FractionZeros(a: string, b: string)
    requires IsDigits(a) && IsDigits(b)
    ensures TrailingZeros(a + "." + b) <= |b|
    ensures var k := TrailingZeros(a + "." + b);
      DigitsValue(b) == DigitsValue(b[..|b| - k]) * Pow10(k)
  {
    var s := a + "." + b;
    TrailingZerosAfterPoint(a, b);
    var k := TrailingZeros(s);
    var b' := b[..|b| - k];
    var z := b[|b| - k..];
    assert b == b' + z;
    assert forall i :: 0 <= i < |z| ==> z[i] == '0' by {
      forall i | 0 <= i < |z| ensures z[i] == '0' {
        assert z[i] == s[|s| - k + i];
      }
    }
    AllZerosValue(z);
    DigitsValueConcat(b', z);
  }

  lemma {:induction false} StripWholeFraction(a: string, b: string)
    requires IsDigits(a) && IsDigits(b)
    requires TrailingZeros(a + "." + b) == |b|
    ensures IsDecimal(a + "." + b)
    ensures IsDecimal(StripZeros(a + "." + b))
    ensures DecimalValue(StripZeros(a + "." + b)) == DecimalValue(a + "." + b)
  {
    var s := a + "." + b;
    AllZerosFraction(a, b);
    StripWholeText(a, b);
    WholeValue(a);
    DecimalOfSplit(a, b);
    NoFraction(DecimalValue(s), DigitsValue(a), DigitsValue(b), Pow10(|b|));
  }

  /** When every fractional digit is a trailing zero, the point goes too. */
  lemma {:induction false} StripWholeText(a: string, b: string)
    requires |b| > 0 && TrailingZeros(a + "." + b) == |b|
    ensures StripZeros(a + "." + b) == a
  {
    var s := a + "." + b;
    assert s[|s| - |b| - 1] == '.';
    assert s[..|s| - |b| - 1] == a;
  }

  /** A fraction made only of trailing zeros is worth nothing. */
  lemma {:induction false} AllZerosFraction(a: string, b: string)
    requires IsDigits(a) && IsDigits(b) && TrailingZeros(a + "." + b) == |b|
    ensures DigitsValue(b) == 0
  {
    FractionZeros(a, b);
    assert b[..0] == "";
  }

  lemma {:induction false} NoFraction(v: real, q: nat, z: nat, p: nat)
    requires p > 0 && z == 0 && v == q as real + z as real / p as real
    ensures v == q as real
  {
  }

  lemma {:induction false} StripPartOfFraction(a: string, b: string)
    requires IsDigits(a) && IsDigits(b)
    requires 0 < TrailingZeros(a + "." + b) < |b|
    ensures IsDecimal(a + "." + b)
    ensures IsDecimal(StripZeros(a + "." + b))
    ensures DecimalValue(StripZeros(a + "." + b)) == DecimalValue(a + "." + b)
  {
    var s := a + "." + b;
    var k := TrailingZeros(s);
    FractionZeros(a, b);
    var b' := b[..|b| - k];
    StripPartText(a, b);
    DecimalOfSplit(a, b);
    DecimalOfSplit(a, b');
    assert |b'| == |b| - k;
    Pow10Split(|b|, k);
    SameFraction(DecimalValue(s), DecimalValue(a + "." + b'), DigitsValue(a), DigitsValue(b'), DigitsValue(b),
      Pow10(|b'|), Pow10(|b|), Pow10(k));
  }

  /** When some but not all fractional digits are trailing zeros, the point
      stays and only the zeros go. */
  lemma {:induction false} StripPartText(a: string, b: string)
    requires IsDigits(b) && 0 < TrailingZeros(a + "." + b) < |b|
    ensures StripZeros(a + "." + b) == a + "." + b[..|b| - TrailingZeros(a + "." + b)]
  {
    var s := a + "." + b;
    var k := TrailingZeros(s);
    assert s[|s| - k - 1] == b[|b| - k - 1];
    assert s[..|s| - k] == a + "." + b[..|b| - k];
  }

  lemma {:induction false} Pow10Split(n: nat, k: nat)
    requires k <= n
    ensures Pow10(n) == Pow10(n - k) * Pow10(k)
  {
    Pow10Add(n - k, k);
  }

  /** Removing trailing fractional zeros keeps the value. */
  lemma {:induction false} StripZerosValue(a: string, b: string)
    requires IsDigits(a) && IsDigits(b)
    ensures IsDecimal(a + "." + b)
    ensures IsDecimal(StripZeros(a + "." + b))
    ensures DecimalValue(StripZeros(a + "." + b)) == DecimalValue(a + "." + b)
  {
    var k := TrailingZeros(a + "." + b);
    FractionZeros(a, b);
    if k == 0 {
      DecimalOfSplit(a, b);
    } else if k == |b| {
      StripWholeFraction(a, b);
    } else {
      StripPartOfFraction(a, b);
    }
  }

  /** With `d` >= 1 places the trimmed text is a decimal worth n / 10^d. */
  lemma {:induction false} TrimmedBodyValue(n: nat, d: nat)
    requires d >= 1
    ensures TrailingZeros(FixedBody(n, d)) < |FixedBody(n, d)|
    ensures IsDecimal(StripZeros(FixedBody(n, d)))
    ensures DecimalValue(StripZeros(FixedBody(n, d))) == n as real / Pow10(d) as real
  {
    var p := PadLeft(n, d + 1);
    PadLeftValue(n, d + 1);
    PointValueOf(p, d, n);
    TrimmedPointValue(p, d);
  }

  /** Trimming the zeros of `WithPoint(p, d)` keeps its value. */
  lemma {:induction false} TrimmedPointValue(p: string, d: nat)
    requires AllDigits(p) && d >= 1 && |p| >= d + 1
    ensures TrailingZeros(WithPoint(p, d)) < |WithPoint(p, d)|
    ensures IsDecimal(WithPoint(p, d)) && IsDecimal(StripZeros(WithPoint(p, d)))
    ensures DecimalValue(StripZeros(WithPoint(p, d))) == DecimalValue(WithPoint(p, d))
  {
    var a := p[..|p| - d];
    var b := p[|p| - d..];
    TrailingZerosAfterPoint(a, b);
    StripZerosValue(a, b);
  }

  lemma {:induction false} TrailingZerosOfPrefixed(s: string)
    requires TrailingZeros(s) < |s|
    ensures TrailingZeros("-" + s) == TrailingZeros(s)
    decreases |s|
  {
    var t := "-" + s;
    assert t[|t| - 1] == s[|s| - 1];
    if s[|s| - 1] == '0' {
      assert t[..|t| - 1] == "-" + s[..|s| - 1];
      TrailingZerosOfPrefixed(s[..|s| - 1]);
    }
  }

  /** A sign in front does not change what the trimming removes. */
  lemma {:induction false} StripZerosOfSigned(s: string)
    requires TrailingZeros(s) < |s|
    ensures StripZeros("-" + s) == "-" + StripZeros(s)
  {
    TrailingZerosOfPrefixed(s);
    var k := TrailingZeros(s);
    var t := "-" + s;
    if k > 0 {
      assert t[|t| - k - 1] == s[|s| - k - 1];
      if s[|s| - k - 1] == '.' {
        assert t[..|t| - k - 1] == "-" + s[..|s| - k - 1];
      } else {
        assert t[..|t| - k] == "-" + s[..|s| - k];
      }
    }
  }

  /** A sign in front of a decimal negates the value of its trimmed text. */
  lemma {:induction false} NegatedTrimValue(body: string)
    requires TrailingZeros(body) < |body| && IsDecimal(StripZeros(body))
    ensures ParseFloat(StripZeros("-" + body)) == Some(-DecimalValue(StripZeros(body)))
  {
    StripZerosOfSigned(body);
    ParseNegative(StripZeros(body));
  }

  lemma {:induction false} ParseNegative(t: string)
    requires IsDecimal(t)
    ensures ParseFloat("-" + t) == Some(-DecimalValue(t))
  {
    assert ("-" + t)[1..] == t;
  }

  lemma {:induction false} QuotientSign(n: nat, p: nat)
    requires p > 0
    ensures n as real / p as real >= 0.0
    ensures n as real / p as real > 0.0 <==> n > 0
  {
  }

  /** An amount is printed as positive exactly when it is positive and rounds to
      a positive number of 10^-8 units. */
  lemma {:induction false} AmountTextPositive(x: real)
    ensures ParseFloat(AmountText(x)).GetOr(0.0) > 0.0 <==> x > 0.0 && Scaled(x, 8) > 0
  {
    if x < 0.0 {
      AmountTextOfNegative(x);
    } else {
      AmountTextOfNonNegative(x);
      if x == 0.0 {
        ZeroScaled(8);
      }
    }
  }

  lemma {:induction false} ZeroScaled(d: nat)
    ensures Scaled(0.0, d) == 0
  {
    assert Abs(0.0) * Pow10(d) as real == 0.0;
    assert RoundHalfUp(0.0) == 0;
  }

  /** A negative amount never prints as a positive one. */
  lemma {:induction false} AmountTextOfNegative(x: real)
    requires x < 0.0
    ensures ParseFloat(AmountText(x)).Some? && ParseFloat(AmountText(x)).value <= 0.0
  {
    var body := FixedBody(Scaled(x, 8), 8);
    assert Fixed(x, 8) == SignedFixed(true, Scaled(x, 8), 8) == "-" + body;
    assert TrailingZeros(body) < |body| && IsDecimal(StripZeros(body)) by {
      TrimmedBodyValue(Scaled(x, 8), 8);
    }
    NegatedTrimValue(body);
  }

  /** An amount that is not negative prints as a positive one exactly when it
      rounds to a positive number of 10^-8 units. */
  lemma {:induction false} AmountTextOfNonNegative(x: real)
    requires x >= 0.0
    ensures ParseFloat(AmountText(x)).Some?
    ensures ParseFloat(AmountText(x)).value > 0.0 <==> Scaled(x, 8) > 0
  {
    var n := Scaled(x, 8);
    var body := FixedBody(n, 8);
    assert Fixed(x, 8) == SignedFixed(false, n, 8) == "" + body == body;
    TrimmedBodyValue(n, 8);
    QuotientSign(n, Pow10(8));
  }
}
