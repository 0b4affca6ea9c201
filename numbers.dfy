/** JavaScript numbers as the report prints them. A finite JavaScript number
    prints as the shortest decimal that reads back as it, so it is modelled as that
    finite decimal: `mantissa / 10^scale`. `Math.round` and the `${x}` rendering of
    a template literal are defined on it exactly. */
module Numbers {
  import opened Strings

  datatype Num = Num(mantissa: int, scale: nat)

  function Pow10(k: nat): (p: nat)
    ensures p >= 1
  {
    if k == 0 then 1 else 10 * Pow10(k - 1)
  }

  /** The real number the decimal stands for. */
  ghost function Value(n: Num): real {
    n.mantissa as real / Pow10(n.scale) as real
  }

  /** The whole number `k` as a decimal. */
  function FromInt(k: int): (n: Num)
    ensures Value(n) == k as real
  {
    Num(k, 0)
  }

  /** `n === k` for a whole number `k`, decided on the digits. */
  predicate IsInt(n: Num, k: int) {
    n.mantissa == k * Pow10(n.scale)
  }

  lemma IsIntMeansValue(n: Num, k: int)
    ensures IsInt(n, k) <==> Value(n) == k as real
  {
    var p := Pow10(n.scale) as real;
    assert Value(n) * p == n.mantissa as real;
  }

  /** `n * k` for a whole factor `k` (the 255 of a colour channel, the 100 of a
      percentage). Exact: the floating-point error of the product is not modelled. */
  function Times(n: Num, k: int): (r: Num)
    ensures Value(r) == Value(n) * k as real
  {
    var r := Num(n.mantissa * k, n.scale);
    assert Value(r) == (n.mantissa as real * k as real) / Pow10(n.scale) as real;
    r
  }

  /** `Math.round(n)`: the whole number nearest to `n`, a half rounded up
      (towards positive infinity). */
  function Round(n: Num): (r: int)
    ensures r as real - 0.5 <= Value(n) < r as real + 0.5
  {
    var p := Pow10(n.scale);
    var r := (2 * n.mantissa + p) / (2 * p);
    RoundBounds(n.mantissa, p, r);
    r
  }

  lemma RoundBounds(m: int, p: int, r: int)
    requires p >= 1 && r == (2 * m + p) / (2 * p)
    ensures r as real - 0.5 <= m as real / p as real < r as real + 0.5
  {
    var q, d := 2 * m + p, 2 * p;
    assert q == d * r + q % d && 0 <= q % d < d;
    var lo, hi := 2 * m - (2 * r - 1) * p, (2 * r + 1) * p - 2 * m;
    assert lo >= 0 && hi > 0;
    var v := m as real / p as real;
    assert v * p as real == m as real;
    assert (v - (r as real - 0.5)) * (2 * p) as real == lo as real;
    assert ((r as real + 0.5) - v) * (2 * p) as real == hi as real;
    FactorSign(v - (r as real - 0.5), (2 * p) as real);
    FactorSign((r as real + 0.5) - v, (2 * p) as real);
  }

  lemma FactorSign(x: real, y: real)
    requires y > 0.0 && x * y >= 0.0
    ensures x >= 0.0
    ensures x * y > 0.0 ==> x > 0.0
  {
  }

  /** A whole number rounds to itself. */
  lemma RoundWhole(n: Num, k: int)
    requires IsInt(n, k)
    ensures Round(n) == k
  {
    IsIntMeansValue(n, k);
  }

  /** A colour channel in [0, 1] scaled by 255 rounds to a byte. */
  lemma ChannelInRange(c: Num)
    requires 0.0 <= Value(c) <= 1.0
    ensures 0 <= Round(Times(c, 255)) <= 255
  {
  }

  /** The decimal with its trailing fractional zeros removed; same value. */
  function Normalize(n: Num): (r: Num)
    ensures r.scale <= n.scale
    ensures n.mantissa == r.mantissa * Pow10(n.scale - r.scale)
    ensures r.scale == 0 || r.mantissa % 10 != 0
    ensures r.mantissa < 0 <==> n.mantissa < 0
    decreases n.scale
  {
    if n.scale > 0 && n.mantissa % 10 == 0 then
      var r := Normalize(Num(n.mantissa / 10, n.scale - 1));
      assert Pow10(n.scale - r.scale) == 10 * Pow10(n.scale - 1 - r.scale);
      r
    else n
  }

  /** A whole number normalises to itself with no fractional digits. */
  lemma {:induction false} NormalizeWhole(n: Num, k: int)
    requires IsInt(n, k)
    ensures Normalize(n) == Num(k, 0)
    decreases n.scale
  {
    if n.scale > 0 {
      var q := k * Pow10(n.scale - 1);
      assert n.mantissa == 10 * q;
      assert n.mantissa % 10 == 0 && n.mantissa / 10 == q;
      NormalizeWhole(Num(q, n.scale - 1), k);
    }
  }

  /** Exactly `k` decimal digits of `v`, with leading zeros. */
  function Digits(v: nat, k: nat): (r: string)
    ensures |r| == k
    ensures forall i :: 0 <= i < |r| ==> IsDigit(r[i])
  {
    if k == 0 then "" else Digits(v / 10, k - 1) + [DigitChar(v % 10)]
  }

  function Abs(i: int): (a: nat)
    ensures a == i || a == -i
  {
    if i < 0 then -i else i
  }

  /** `${n}`: an optional minus sign, the integer part, and, when the value is not
      whole, a point followed by the fractional digits without trailing zeros.
      (JavaScript switches to exponent notation at 1e21 and below 1e-6; that is not
      modelled.) The text begins with a minus sign exactly for a negative value. */
  function ShowNum(n: Num): (r: string)
    ensures |r| > 0
    ensures r[0] == '-' <==> n.mantissa < 0
  {
    var c := Normalize(n);
    (if c.mantissa < 0 then "-" else "") + ShowMagnitude(Abs(c.mantissa), c.scale)
  }

  /** `a / 10^k` rounded down: `a` with its last `k` decimal digits dropped. */
  function DropDigits(a: nat, k: nat): nat
  {
    if k == 0 then a else DropDigits(a / 10, k - 1)
  }

  /** `a / 10^k` printed with `k` fractional digits (the last `k` digits of `a`),
      none when `k` is 0. */
  function ShowMagnitude(a: nat, k: nat): (r: string)
    ensures |r| > 0 && IsDigit(r[0])
  {
    if k == 0 then ShowNat(a) else ShowNat(DropDigits(a, k)) + "." + Digits(a, k)
  }

  /** A whole number prints as that integer, with no decimal point. */
  lemma ShowWhole(n: Num, k: int)
    requires IsInt(n, k)
    ensures ShowNum(n) == ShowInt(k)
  {
    NormalizeWhole(n, k);
  }

  /** A value that is not whole prints with a decimal point. */
  lemma ShowFraction(n: Num)
    requires forall k: int {:trigger IsInt(n, k)} :: !IsInt(n, k)
    ensures exists i :: 0 <= i < |ShowNum(n)| && ShowNum(n)[i] == '.'
  {
    var c := Normalize(n);
    if c.scale == 0 {
      assert IsInt(n, c.mantissa);
    } else {
      var a := Abs(c.mantissa);
      var sign := if c.mantissa < 0 then "-" else "";
      var m := ShowMagnitude(a, c.scale);
      var i := |ShowNat(DropDigits(a, c.scale))|;
      assert m[i] == '.';
      assert ShowNum(n) == sign + m;
      assert ShowNum(n)[|sign| + i] == '.';
    }
  }
}
