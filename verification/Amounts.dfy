/** Decimals and the capacity guard of app/core/amounts.py, for every decimal and every column. */
module Amounts {

  /** A decimal as parsed: a finite one is (-1)^negative * coef * 10^exp. */
  datatype Decimal = Finite(negative: bool, coef: nat, exp: int) | NaN | Infinite(negative: bool)
  {
    predicate IsZero() { Finite? && coef == 0 }

    function Adjusted(): int
      requires Finite?
    {
      exp + NumDigits(coef) - 1
    }
  }

  function Pow10(n: nat): (r: nat)
    ensures r >= 1
  {
    if n == 0 then 1 else 10 * Pow10(n - 1)
  }

  /** Whole-number division. */
  function Quot(n: nat, d: nat): (q: nat)
    requires d >= 1
    ensures d * q <= n < d * q + d
  {
    n / d
  }

  /** The length of the decimal text of `n`. */
  function NumDigits(n: nat): (r: nat)
    ensures r >= 1
  {
    if n < 10 then 1 else 1 + NumDigits(n / 10)
  }

  // ---- the code -----------------------------------------------------------------------------

  /** Drop the last `k` digits, looking at the first dropped one as ROUND_HALF_UP does. */
  function DropHalfUp(coef: nat, k: nat): nat
    requires k >= 1
  {
    Quot(coef, Pow10(k)) + if Quot(coef, Pow10(k - 1)) % 10 >= 5 then 1 else 0
  }

  /** The coefficient of the value at exponent `target`: padded with zeros, or rounded; a value far
      below the last place is replaced by one unit just under it first. */
  function Rescale(coef: nat, exp: int, target: int): nat {
    if exp >= target then coef * Pow10(exp - target)
    else if NumDigits(coef) + exp - target < 0 then DropHalfUp(1, 1)
    else DropHalfUp(coef, target - exp)
  }

  datatype Quantized = Value(coef: nat) | InvalidOperation

  /** `Decimal.quantize` of a nonzero finite value under a context of `prec` digits. */
  function Quantize(v: Decimal, target: int, prec: nat): Quantized
    requires v.Finite? && v.coef > 0
  {
    if v.Adjusted() - target + 1 > prec then InvalidOperation
    else
      var q := Rescale(v.coef, v.exp, target);
      if NumDigits(q) > prec then InvalidOperation else Value(q)
  }

  datatype Parsed = Unparseable | Number(value: Decimal)

  datatype Guarded = Accepted(value: Decimal) | UnparseableAmount | NonFinite | OverCapacity | Escaped

  /** `parse_guarded_decimal`; `Escaped` is an exception that is not an AmountGuardError. */
  function ParseGuarded(raw: Parsed, maxIntegerDigits: nat, columnScale: nat): Guarded {
    match raw
    case Unparseable => UnparseableAmount
    case Number(v) =>
      if !v.Finite? then NonFinite
      else if v.IsZero() then Accepted(v)
      else if v.Adjusted() >= maxIntegerDigits then OverCapacity
      else
        match Quantize(v, -(columnScale as int), maxIntegerDigits + columnScale + 1)
        case InvalidOperation => Escaped
        case Value(q) =>
          if q != 0 && NumDigits(q) - 1 - columnScale >= maxIntegerDigits then OverCapacity else Accepted(v)
  }

  // ---- the specification --------------------------------------------------------------------

  /** `coef * 10^shift` rounded to the nearest integer, halves away from zero. */
  function HalfUp(coef: nat, shift: int): nat {
    if shift >= 0 then coef * Pow10(shift) else Quot(2 * coef + Pow10(-shift), 2 * Pow10(-shift))
  }

  /** The value as a column of `scale` decimals stores it has at most `digits` integer digits. */
  predicate Fits(v: Decimal, digits: nat, scale: nat)
    requires v.Finite?
  {
    HalfUp(v.coef, v.exp + scale) < Pow10(digits + scale)
  }

  // ---- arithmetic ---------------------------------------------------------------------------

  lemma {:induction false} PowAdd(a: nat, b: nat)
    ensures Pow10(a + b) == Pow10(a) * Pow10(b)
  {
    if a > 0 {
      PowAdd(a - 1, b);
      assert 10 * Pow10(a - 1) * Pow10(b) == 10 * (Pow10(a - 1) * Pow10(b));
    }
  }

  lemma PowMono(a: nat, b: nat)
    requires a <= b
    ensures Pow10(a) <= Pow10(b)
  {
    PowAdd(a, b - a);
    assert Pow10(a) * Pow10(b - a) >= Pow10(a) * 1;
  }

  lemma PowStrict(a: nat, b: nat)
    requires a < b
    ensures Pow10(a) < Pow10(b)
  {
    PowMono(a + 1, b);
  }

  lemma {:induction false} DigitsBound(n: nat)
    requires n > 0
    ensures Pow10(NumDigits(n) - 1) <= n < Pow10(NumDigits(n))
  {
    if n >= 10 {
      DigitsBound(n / 10);
    }
  }

  /** More than `m` digits means at least 10^m. */
  lemma DigitsAtLeast(n: nat, m: nat)
    requires n > 0
    ensures NumDigits(n) > m <==> n >= Pow10(m)
  {
    DigitsBound(n);
    if NumDigits(n) > m {
      PowMono(m, NumDigits(n) - 1);
    } else {
      PowMono(NumDigits(n), m);
    }
  }

  lemma QuotUnique(n: nat, d: nat, q: nat)
    requires d >= 1
    requires d * q <= n < d * q + d
    ensures Quot(n, d) == q
  {
    var r := Quot(n, d);
    if r < q {
      MulMono(d, r + 1, q);
    } else if q < r {
      MulMono(d, q + 1, r);
    }
  }

  lemma MulMono(p: nat, a: nat, b: nat)
    requires a <= b
    ensures p * a <= p * b
  {
  }

  /** Dropping digits one at a time or all at once. */
  lemma QuotTen(n: nat, p: nat)
    requires p >= 1
    ensures Quot(n, 10 * p) == Quot(n, p) / 10
  {
    var a := Quot(n, p);
    var q, d := a / 10, a % 10;
    assert p * a == 10 * p * q + p * d by {
      assert p * (10 * q + d) == p * (10 * q) + p * d;
    }
    MulMono(p, d, 9);
    QuotUnique(n, 10 * p, q);
  }

  /** Looking at one digit is rounding half up. */
  lemma DropIsHalfUp(coef: nat, k: nat)
    requires k >= 1
    ensures DropHalfUp(coef, k) == HalfUp(coef, -(k as int))
  {
    var p := Pow10(k - 1);
    assert Pow10(k) == 10 * p;
    hide Pow10;
    QuotTen(coef, p);
    NextDigit(coef, p);
  }

  lemma NextDigit(n: nat, p: nat)
    requires p >= 1
    ensures Quot(2 * n + 10 * p, 2 * (10 * p)) == Quot(n, p) / 10 + if Quot(n, p) % 10 >= 5 then 1 else 0
  {
    var a := Quot(n, p);
    var q, d := a / 10, a % 10;
    var up := if d >= 5 then 1 else 0;
    SplitTen(p, q, d);
    DigitBounds(p, d, up);
    Twenty(p, q + up);
    SplitSum(p, q, up);
    QuotUnique(2 * n + 10 * p, 2 * (10 * p), q + up);
  }

  lemma SplitTen(p: nat, q: nat, d: nat)
    ensures p * (10 * q + d) == 10 * (p * q) + p * d
  {
  }

  lemma SplitSum(p: nat, a: nat, b: nat)
    ensures p * (a + b) == p * a + p * b
  {
  }

  lemma Twenty(p: nat, r: nat)
    ensures 2 * (10 * p) * r == 20 * (p * r)
  {
  }

  lemma DigitBounds(p: nat, d: nat, up: nat)
    requires d < 10 && up == if d >= 5 then 1 else 0
    ensures 5 * (p * up) <= p * d <= 5 * (p * up) + 4 * p
  {
    if d >= 5 {
      MulMono(p, 5, d);
      MulMono(p, d, 9);
    } else {
      MulMono(p, d, 4);
    }
  }

  lemma QuotMono(n: nat, d: nat, q: nat)
    requires d >= 1
    ensures d * q <= n ==> Quot(n, d) >= q
    ensures n < d * q ==> Quot(n, d) < q
  {
    var r := Quot(n, d);
    if r < q { MulMono(d, r + 1, q); }
    if q <= r { MulMono(d, q, r); }
  }

  lemma RescaleIsHalfUp(coef: nat, exp: int, target: int)
    requires coef > 0
    ensures Rescale(coef, exp, target) == HalfUp(coef, exp - target)
  {
    if exp < target {
      var k := target - exp;
      if NumDigits(coef) < k {
        DigitsAtLeast(coef, k - 1);
        QuotMono(2 * coef + Pow10(k), 2 * Pow10(k), 1);
        QuotUnique(1, Pow10(1), 0);
        QuotUnique(1, Pow10(0), 1);
      } else {
        DropIsHalfUp(coef, k);
      }
    }
  }

  lemma HalfUpBetween(c: nat, p: nat, r: nat)
    requires p >= 1
    ensures r * p <= c ==> Quot(2 * c + p, 2 * p) >= r
    ensures c < r * p ==> Quot(2 * c + p, 2 * p) <= r
  {
    assert 2 * p * r == 2 * (r * p);
    assert 2 * p * (r + 1) == 2 * (r * p) + 2 * p;
    QuotMono(2 * c + p, 2 * p, r);
    QuotMono(2 * c + p, 2 * p, r + 1);
  }

  /** The leading digit bounds the rounded value. */
  lemma HalfUpBounds(coef: nat, shift: int, m: nat)
    requires coef > 0
    ensures NumDigits(coef) + shift > m ==> HalfUp(coef, shift) >= Pow10(m)
    ensures NumDigits(coef) + shift <= m ==> HalfUp(coef, shift) <= Pow10(m)
  {
    if shift < 0 {
      var k := -shift;
      DigitsAtLeast(coef, m + k);
      PowAdd(m, k);
      HalfUpBetween(coef, Pow10(k), Pow10(m));
    } else {
      PaddedBounds(coef, shift, m);
    }
  }

  lemma PaddedBounds(coef: nat, shift: nat, m: nat)
    requires coef > 0
    ensures NumDigits(coef) + shift > m ==> coef * Pow10(shift) >= Pow10(m)
    ensures NumDigits(coef) + shift <= m ==> coef * Pow10(shift) <= Pow10(m)
  {
    hide Pow10, NumDigits;
    if m >= shift {
      DigitsAtLeast(coef, m - shift);
      PowAdd(m - shift, shift);
      Scaled(coef, Pow10(m - shift), Pow10(shift));
    } else {
      PowMono(m, shift);
      Scaled(coef, 1, Pow10(shift));
    }
  }

  lemma Scaled(a: nat, b: nat, p: nat)
    ensures a >= b ==> a * p >= b * p
    ensures a <= b ==> a * p <= b * p
  {
  }

  // ---- the guard ----------------------------------------------------------------------------

  lemma ZeroFits(v: Decimal, digits: nat, scale: nat)
    requires v.IsZero()
    ensures Fits(v, digits, scale)
  {
    var shift := v.exp + scale;
    if shift < 0 {
      QuotUnique(Pow10(-shift), 2 * Pow10(-shift), 0);
    }
  }

  /** For every decimal and every column the two-stage guard accepts exactly the finite values whose
      half-up rounding to the column's scale fits it, gives back the value unchanged, and never lets
      an exception of `quantize` escape. */
  lemma GuardMeetsSpec(v: Decimal, digits: nat, scale: nat)
    ensures ParseGuarded(Number(v), digits, scale) ==
            if !v.Finite? then NonFinite else if Fits(v, digits, scale) then Accepted(v) else OverCapacity
  {
    hide Rescale, HalfUp;
    if v.Finite? && v.coef == 0 {
      ZeroFits(v, digits, scale);
    } else if v.Finite? {
      var m := digits + scale;
      var q := HalfUp(v.coef, v.exp + scale);
      HalfUpBounds(v.coef, v.exp + scale, m);
      if v.Adjusted() < digits {
        RescaleIsHalfUp(v.coef, v.exp, -(scale as int));
        if q > 0 {
          DigitsAtLeast(q, m);
          DigitsAtLeast(q, m + 1);
        }
        assert Pow10(m) < Pow10(m + 1);
      }
    }
  }

  /** Trailing zeros make no difference: two texts of one number are accepted or rejected alike. */
  lemma TrailingZeros(v: Decimal, j: nat, digits: nat, scale: nat)
    requires v.Finite?
    ensures Fits(Finite(v.negative, v.coef * Pow10(j), v.exp - j), digits, scale) <==> Fits(v, digits, scale)
  {
    HalfUpOfPadded(v.coef, v.exp + scale, j);
  }

  lemma HalfUpOfPadded(coef: nat, shift: int, j: nat)
    ensures HalfUp(coef * Pow10(j), shift - j) == HalfUp(coef, shift)
  {
    if shift >= j {
      PowAdd(j, shift - j);
      MulAssoc(coef, Pow10(j), Pow10(shift - j));
    } else if shift >= 0 {
      PowAdd(shift, j - shift);
      MulAssoc(coef, Pow10(shift), Pow10(j - shift));
      HalfUpOfWhole(coef * Pow10(shift), Pow10(j - shift));
    } else {
      PowAdd(j, -shift);
      HalfUpScaled(coef, Pow10(-shift), Pow10(j));
    }
  }

  lemma MulAssoc(a: nat, b: nat, c: nat)
    ensures a * (b * c) == a * b * c
  {
  }

  lemma HalfUpOfWhole(q: nat, p: nat)
    requires p >= 1
    ensures Quot(2 * (q * p) + p, 2 * p) == q
  {
    assert 2 * p * q == 2 * (q * p);
    QuotUnique(2 * (q * p) + p, 2 * p, q);
  }

  lemma HalfUpScaled(c: nat, g: nat, f: nat)
    requires g >= 1 && f >= 1
    ensures Quot(2 * (c * f) + f * g, 2 * (f * g)) == Quot(2 * c + g, 2 * g)
  {
    SplitSum(f, 2 * c, g);
    assert f * (2 * c) == 2 * (c * f) && f * (2 * g) == 2 * (f * g);
    QuotScaled(2 * c + g, 2 * g, f);
  }

  lemma QuotScaled(n: nat, d: nat, f: nat)
    requires d >= 1 && f >= 1
    ensures Quot(f * n, f * d) == Quot(n, d)
  {
    var q := Quot(n, d);
    MulAssoc(f, d, q);
    MulMono(f, d * q, n);
    MulMono(f, n + 1, d * q + d);
    SplitSum(f, d * q, d);
    QuotUnique(f * n, f * d, q);
  }
}
