/** Amount scale checks and detail sums of app/api/deps.py, in Python's default decimal arithmetic. */
module DetailSum {
  import opened Prelude
  import opened States
  import opened Amounts

  /** The default context: 28 digits, and the least exponent it can hold. */
  const PREC: nat := 28
  const ETINY: int := -1000026

  /** 10^28 and 10^21: the least numbers the context and the column cannot hold. */
  const CONTEXT_LIMIT: nat := 10000000000000000000000000000
  const COLUMN_LIMIT: nat := 1000000000000000000000

  const COLUMN_DIGITS: nat := 17
  const COLUMN_SCALE: nat := 4

  // ---- default-context arithmetic -----------------------------------------------------------

  /** Drop the last `k` digits, halves to even. */
  function DropHalfEven(coef: nat, k: nat): nat {
    var q := Quot(coef, Pow10(k));
    var r := coef - Pow10(k) * q;
    if 2 * r > Pow10(k) || (2 * r == Pow10(k) && q % 2 == 1) then q + 1 else q
  }

  function Max(a: int, b: int): int { if a >= b then a else b }

  function Min(a: int, b: int): int { if a <= b then a else b }

  /** A nonnegative number in the default context: what every operation does to its exact result. */
  function Fix(v: Decimal): (r: Decimal)
    requires v.Finite?
    ensures r.Finite? && r.negative == v.negative
  {
    if v.coef == 0 then v.(exp := Max(v.exp, ETINY))
    else
      var k := Max(NumDigits(v.coef) - PREC, ETINY - v.exp);
      if k <= 0 then v
      else
        var q := if k > NumDigits(v.coef) then DropHalfEven(1, 1) else DropHalfEven(v.coef, k);
        if NumDigits(q) > PREC then Finite(v.negative, q / 10, v.exp + k + 1)
        else Finite(v.negative, q, v.exp + k)
  }

  /** Numbers the default context holds as they are. */
  predicate Exact(v: Decimal) {
    v.Finite? && NumDigits(v.coef) <= PREC && v.exp >= ETINY
  }

  /** The digits of `v` padded with zeros to the exponent `e`. */
  function Units(v: Decimal, e: int): nat
    requires v.Finite? && e <= v.exp
  {
    v.coef * Pow10(v.exp - e)
  }

  /** Addition of nonnegative numbers. */
  function Add(a: Decimal, b: Decimal): (r: Decimal)
    requires a.Finite? && b.Finite?
    ensures r.Finite? && !r.negative
  {
    var e := Min(a.exp, b.exp);
    Fix(Finite(false, Units(a, e) + Units(b, e), e))
  }

  /** Comparison is exact. */
  predicate SameValue(a: Decimal, b: Decimal) {
    && a.Finite? && b.Finite?
    && (a.negative == b.negative || a.coef == 0)
    && var e := Min(a.exp, b.exp); Units(a, e) == Units(b, e)
  }

  /** The exponent after trailing zeros are stripped, 0 for zero. */
  function StrippedExp(coef: nat, exp: int): int {
    if coef == 0 then 0 else if coef % 10 == 0 then StrippedExp(coef / 10, exp + 1) else exp
  }

  // ---- the code -----------------------------------------------------------------------------

  /** ISO 4217 minor units that differ from two. */
  function CurrencyScale(ccy: string): (s: nat)
    ensures s <= COLUMN_SCALE
  {
    if ccy in {"BIF", "CLP", "DJF", "GNF", "ISK", "JPY", "KMF", "KRW", "PYG", "RWF", "UGX", "UYI", "VND", "VUV",
               "XAF", "XOF", "XPF"} then 0
    else if ccy in {"BHD", "IQD", "JOD", "KWD", "LYD", "OMR", "TND"} then 3
    else if ccy in {"CLF", "UYW"} then 4
    else 2
  }

  datatype Reason =
    | BadAmount | NotFinite | TooLarge | NotPositive | TooPrecise | InternalError
    | MissingDetail | NotAList | EmptyDetail | FeeNotAList | CurrencyMismatch | InvalidItem | InvalidAmount
    | SumMismatch

  datatype Result<T> = Ok(value: T) | Err(reason: Reason)

  /** Decimal places as the check counts them. */
  function ActualScale(v: Decimal, hasCurrency: bool): int
    requires v.Finite?
  {
    if hasCurrency then
      var n := Fix(v);
      Max(0, -StrippedExp(n.coef, n.exp))
    else -v.exp
  }

  function ScaleLimit(currency: string): nat {
    var ccy := Upper(Strip(currency));
    if ccy != "" then CurrencyScale(ccy) else COLUMN_SCALE
  }

  /** `parse_amount`, for a currency text that may be empty */
  function ParseAmount(raw: Parsed, currency: string): Result<Decimal> {
    match ParseGuarded(raw, COLUMN_DIGITS, COLUMN_SCALE)
    case UnparseableAmount => Err(BadAmount)
    case NonFinite => Err(NotFinite)
    case OverCapacity => Err(TooLarge)
    case Escaped => Err(InternalError)
    case Accepted(v) =>
      if v.negative || v.coef == 0 then Err(NotPositive)
      else if ActualScale(v, Upper(Strip(currency)) != "") > ScaleLimit(currency) then Err(TooPrecise)
      else Ok(v)
  }

  // ---- minor units --------------------------------------------------------------------------

  /** `v` is exactly `n` units of 10^-scale. */
  predicate IsMinor(v: Decimal, scale: nat, n: nat) {
    && v.Finite? && (!v.negative || v.coef == 0)
    && if v.exp + scale >= 0 then n == v.coef * Pow10(v.exp + scale) else v.coef == n * Pow10(-(v.exp + scale))
  }

  ghost predicate WithinScale(v: Decimal, scale: nat) {
    exists n: nat :: IsMinor(v, scale, n)
  }

  lemma Cancel(a: nat, b: nat, p: nat)
    requires p >= 1
    ensures a * p == b * p <==> a == b
  {
    if a < b { Scaled(a + 1, b, p); }
    if b < a { Scaled(b + 1, a, p); }
  }

  /** The same relation at any finer exponent. */
  lemma MinorAt(v: Decimal, scale: nat, n: nat, e: int)
    requires v.Finite? && (!v.negative || v.coef == 0)
    requires e <= v.exp && e <= -(scale as int)
    ensures IsMinor(v, scale, n) <==> Units(v, e) == n * Pow10(-(scale as int) - e)
  {
    var c, s := v.coef, -(scale as int);
    if v.exp >= s {
      PowAdd(v.exp - s, s - e);
      MulAssoc(c, Pow10(v.exp - s), Pow10(s - e));
      Cancel(c * Pow10(v.exp - s), n, Pow10(s - e));
    } else {
      PowAdd(s - v.exp, v.exp - e);
      MulAssoc(n, Pow10(s - v.exp), Pow10(v.exp - e));
      Cancel(c, n * Pow10(s - v.exp), Pow10(v.exp - e));
    }
  }

  lemma Refine(v: Decimal, e: int, f: int)
    requires v.Finite? && f <= e <= v.exp
    ensures Units(v, f) == Units(v, e) * Pow10(e - f)
  {
    PowAdd(v.exp - e, e - f);
    MulAssoc(v.coef, Pow10(v.exp - e), Pow10(e - f));
  }

  lemma Distribute(a: nat, b: nat, p: nat)
    ensures (a + b) * p == a * p + b * p
  {
  }

  /** Stripping zeros finds the scale. */
  lemma {:induction false} StrippedIsScale(v: Decimal, scale: nat)
    requires v.Finite? && !v.negative && v.coef > 0
    ensures -StrippedExp(v.coef, v.exp) <= scale <==> WithinScale(v, scale)
    decreases v.coef
  {
    var e := v.exp + scale;
    if v.coef % 10 == 0 {
      var v' := Finite(false, v.coef / 10, v.exp + 1);
      StrippedIsScale(v', scale);
      forall n: nat ensures IsMinor(v', scale, n) <==> IsMinor(v, scale, n) {
        ShiftOne(v, scale, n);
      }
    } else if e >= 0 {
      assert IsMinor(v, scale, v.coef * Pow10(e));
    } else if WithinScale(v, scale) {
      var n: nat :| IsMinor(v, scale, n);
      MultipleOfTen(n, Pow10(-e - 1));
    }
  }

  lemma MultipleOfTen(n: nat, p: nat)
    ensures n * (10 * p) % 10 == 0
  {
    assert n * (10 * p) == 10 * (n * p);
  }

  lemma ShiftOne(v: Decimal, scale: nat, n: nat)
    requires v.Finite? && !v.negative && v.coef % 10 == 0
    ensures IsMinor(Finite(false, v.coef / 10, v.exp + 1), scale, n) <==> IsMinor(v, scale, n)
  {
    var v' := Finite(false, v.coef / 10, v.exp + 1);
    var e := Min(v.exp, -(scale as int));
    MinorAt(v, scale, n, e);
    MinorAt(v', scale, n, e);
    MulAssoc(v'.coef, 10, Pow10(v.exp - e));
    assert Pow10(v.exp + 1 - e) == 10 * Pow10(v.exp - e);
  }

  // ---- sums ---------------------------------------------------------------------------------

  lemma UnitsHaveDigits(coef: nat, shift: nat, n: nat, prec: nat)
    requires coef > 0 && n == coef * Pow10(shift) && n < Pow10(prec)
    ensures NumDigits(coef) <= prec
  {
    hide Pow10, NumDigits;
    MulMono(coef, 1, Pow10(shift));
    DigitsAtLeast(coef, prec);
  }

  lemma PaddingHasDigits(coef: nat, j: nat, n: nat, prec: nat)
    requires coef > 0 && coef == n * Pow10(j) && n < Pow10(prec)
    ensures NumDigits(coef) <= prec + j
  {
    hide NumDigits;
    PowAdd(prec, j);
    Scaled(n + 1, Pow10(prec), Pow10(j));
    Distribute(n, 1, Pow10(j));
    DigitsAtLeast(coef, prec + j);
  }

  lemma Limits()
    ensures Pow10(COLUMN_DIGITS + COLUMN_SCALE) == COLUMN_LIMIT
    ensures Pow10(PREC) == CONTEXT_LIMIT
  {
    PowAdd(7, 7);
    PowAdd(14, 7);
    PowAdd(21, 7);
    assert Pow10(7) == 10000000;
  }

  /** Rounding to the context does not change a number of minor units that fits it, however many zeros it
      is padded with. */
  lemma FixKeepsMinor(v: Decimal, n: nat)
    requires IsMinor(v, COLUMN_SCALE, n) && n < CONTEXT_LIMIT && !v.negative
    ensures IsMinor(Fix(v), COLUMN_SCALE, n)
  {
    var j := -(v.exp + COLUMN_SCALE);
    Limits();
    if v.coef > 0 {
      if j <= 0 {
        UnitsHaveDigits(v.coef, -j, n, PREC);
      } else {
        FixKeepsPadded(v, n, j);
      }
    }
  }

  lemma FixKeepsPadded(v: Decimal, n: nat, j: nat)
    requires v.Finite? && !v.negative && v.coef > 0 && v.coef == n * Pow10(j) && n < Pow10(PREC)
    requires v.exp == -(COLUMN_SCALE as int) - j
    ensures IsMinor(Fix(v), COLUMN_SCALE, n)
  {
    var k := Max(NumDigits(v.coef) - PREC, ETINY - v.exp);
    PaddingHasDigits(v.coef, j, n, PREC);
    hide NumDigits, Pow10, DropHalfEven;
    if k > 0 {
      PaddedDigits(n, j);
      assert k <= j < NumDigits(v.coef);
      DropZeros(v.coef, n, j, k, PREC);
    }
  }

  /** Padding with zeros adds that many digits. */
  lemma {:induction false} PaddedDigits(coef: nat, j: nat)
    requires coef > 0
    ensures coef * Pow10(j) > 0 && NumDigits(coef * Pow10(j)) == NumDigits(coef) + j
  {
    if j > 0 {
      PaddedDigits(coef, j - 1);
      var c := coef * Pow10(j - 1);
      MulAssoc(10, coef, Pow10(j - 1));
      assert coef * Pow10(j) == 10 * c by {
        MulAssoc(coef, 10, Pow10(j - 1));
      }
      assert (10 * c) / 10 == c;
    }
  }

  /** `coef` is `n` followed by `j` zeros: dropping `k` of them loses nothing. */
  lemma DropZeros(coef: nat, n: nat, j: nat, k: nat, prec: nat)
    requires coef > 0 && coef == n * Pow10(j)
    requires k <= j && NumDigits(coef) <= prec + k
    ensures DropHalfEven(coef, k) == n * Pow10(j - k)
    ensures NumDigits(n * Pow10(j - k)) <= prec
  {
    hide Pow10, NumDigits, DropHalfEven;
    var q := n * Pow10(j - k);
    PowAdd(j - k, k);
    MulAssoc(n, Pow10(j - k), Pow10(k));
    DropExact(coef, k, q);
    FewerDigits(q, k, prec);
  }

  lemma FewerDigits(q: nat, k: nat, prec: nat)
    requires q > 0 && NumDigits(q * Pow10(k)) <= prec + k && q * Pow10(k) > 0
    ensures NumDigits(q) <= prec
  {
    hide NumDigits, Pow10;
    DigitsAtLeast(q * Pow10(k), prec + k);
    PowAdd(prec, k);
    if q >= Pow10(prec) {
      Scaled(Pow10(prec), q, Pow10(k));
    }
    DigitsAtLeast(q, prec);
  }

  lemma DropExact(coef: nat, k: nat, q: nat)
    requires coef == q * Pow10(k)
    ensures DropHalfEven(coef, k) == q
  {
    hide Pow10;
    QuotUnique(coef, Pow10(k), q);
  }

  /** The sum before it is rounded. */
  function RawSum(a: Decimal, b: Decimal): (c: Decimal)
    requires a.Finite? && b.Finite?
    ensures c.Finite? && !c.negative
  {
    var e := Min(a.exp, b.exp);
    Finite(false, Units(a, e) + Units(b, e), e)
  }

  lemma RawSumMinor(a: Decimal, b: Decimal, m: nat, n: nat)
    requires IsMinor(a, COLUMN_SCALE, m) && IsMinor(b, COLUMN_SCALE, n)
    ensures IsMinor(RawSum(a, b), COLUMN_SCALE, m + n)
  {
    var e := Min(a.exp, b.exp);
    var f := Min(e, -(COLUMN_SCALE as int));
    var c := RawSum(a, b);
    MinorAt(a, COLUMN_SCALE, m, f);
    MinorAt(b, COLUMN_SCALE, n, f);
    MinorAt(c, COLUMN_SCALE, m + n, f);
    Refine(a, e, f);
    Refine(b, e, f);
    Refine(c, e, f);
    assert Units(c, e) == Units(a, e) + Units(b, e);
    Distribute(Units(a, e), Units(b, e), Pow10(e - f));
    hide Pow10, Units, IsMinor, Fix;
    Distribute(m, n, Pow10(-(COLUMN_SCALE as int) - f));
  }

  // ---- sums beyond the context --------------------------------------------------------------

  /** At least 10^24, which is 10^28 units of the column and more than any column amount. */
  predicate Huge(v: Decimal) {
    v.Finite? && !v.negative && v.coef > 0 && NumDigits(v.coef) + v.exp >= 25
  }

  lemma MinorHasDigits(v: Decimal, n: nat)
    requires IsMinor(v, COLUMN_SCALE, n) && !v.negative && v.coef > 0
    ensures Huge(v) <==> n >= CONTEXT_LIMIT
  {
    var s := v.exp + COLUMN_SCALE;
    hide Pow10, NumDigits;
    Limits();
    if s >= 0 {
      PaddedDigits(v.coef, s);
    } else {
      PaddedDigits(n, -s);
    }
    DigitsAtLeast(n, PREC);
  }

  lemma DropKeepsDigits(coef: nat, k: nat, m: nat)
    requires coef > 0 && NumDigits(coef) == m + k + 1
    ensures DropHalfEven(coef, k) > 0 && NumDigits(DropHalfEven(coef, k)) > m
  {
    hide NumDigits, Pow10;
    DigitsAtLeast(coef, m + k);
    PowAdd(m, k);
    QuotMono(coef, Pow10(k), Pow10(m));
    DigitsAtLeast(DropHalfEven(coef, k), m);
  }

  /** What is beyond the context stays there when it is rounded. */
  lemma FixKeepsHuge(v: Decimal)
    requires Huge(v)
    ensures Huge(Fix(v))
  {
    var k := NumDigits(v.coef) - PREC;
    if k > 0 {
      DropKeepsDigits(v.coef, k, PREC - 1);
      var q := DropHalfEven(v.coef, k);
      hide DropHalfEven;
      assert NumDigits(q) > PREC ==> NumDigits(q / 10) == NumDigits(q) - 1;
    }
  }

  lemma MoreDigits(x: nat, y: nat)
    requires 0 < x <= y
    ensures NumDigits(x) <= NumDigits(y)
  {
    hide NumDigits;
    DigitsAtLeast(x, NumDigits(x) - 1);
    DigitsAtLeast(y, NumDigits(x) - 1);
  }

  lemma RawSumHuge(a: Decimal, b: Decimal)
    requires a.Finite? && b.Finite? && (Huge(a) || Huge(b))
    ensures Huge(RawSum(a, b))
  {
    hide NumDigits, Pow10;
    var e := Min(a.exp, b.exp);
    var v := if Huge(a) then a else b;
    PaddedDigits(v.coef, v.exp - e);
    MoreDigits(Units(v, e), Units(a, e) + Units(b, e));
  }

  lemma SameValueHuge(a: Decimal, b: Decimal)
    requires Huge(a) && SameValue(a, b)
    ensures Huge(b)
  {
    hide NumDigits, Pow10;
    var e := Min(a.exp, b.exp);
    PaddedDigits(a.coef, a.exp - e);
    assert b.coef > 0;
    PaddedDigits(b.coef, b.exp - e);
  }

  /** `v` is exactly `n` units of the column, or both are beyond what the context can hold. */
  predicate Means(v: Decimal, n: nat) {
    v.Finite? && !v.negative && if n < CONTEXT_LIMIT then IsMinor(v, COLUMN_SCALE, n) else Huge(v)
  }

  lemma AddMeans(a: Decimal, b: Decimal, m: nat, n: nat)
    requires Means(a, m) && Means(b, n)
    ensures Means(Add(a, b), m + n)
  {
    hide IsMinor, Huge, Fix, Units;
    var c := RawSum(a, b);
    if m >= CONTEXT_LIMIT || n >= CONTEXT_LIMIT {
      RawSumHuge(a, b);
      FixKeepsHuge(c);
    } else {
      RawSumMinor(a, b, m, n);
      RoundedMeans(c, m + n);
    }
  }

  lemma RoundedMeans(c: Decimal, n: nat)
    requires IsMinor(c, COLUMN_SCALE, n) && !c.negative
    ensures Means(Fix(c), n)
  {
    if n < CONTEXT_LIMIT {
      FixKeepsMinor(c, n);
    } else {
      assert c.coef > 0;
      MinorHasDigits(c, n);
      FixKeepsHuge(c);
    }
  }

  /** Comparing with a number of minor units is comparing the numbers of units. */
  lemma SameMinor(a: Decimal, b: Decimal, n: nat)
    requires IsMinor(a, COLUMN_SCALE, n) && !a.negative
    ensures SameValue(a, b) <==> IsMinor(b, COLUMN_SCALE, n)
  {
    if b.Finite? {
      var e := Min(a.exp, b.exp);
      var f := Min(e, -(COLUMN_SCALE as int));
      MinorAt(a, COLUMN_SCALE, n, f);
      if !b.negative || b.coef == 0 {
        MinorAt(b, COLUMN_SCALE, n, f);
      }
      Refine(a, e, f);
      Refine(b, e, f);
      if b.coef > 0 { UnitsPositive(b, e); }
      if b.negative && b.coef > 0 { assert !SameValue(a, b) || a.coef == 0; }
      hide Pow10, Units;
      Cancel(Units(a, e), Units(b, e), Pow10(e - f));
    }
  }

  lemma UnitsPositive(v: Decimal, e: int)
    requires v.Finite? && e <= v.exp && v.coef > 0
    ensures Units(v, e) > 0
  {
    Scaled(1, v.coef, Pow10(v.exp - e));
  }

  predicate AllFinite(values: seq<Decimal>) {
    forall i :: 0 <= i < |values| ==> values[i].Finite?
  }

  /** `sum(values, start)` */
  function Sum(start: Decimal, values: seq<Decimal>): (r: Decimal)
    requires start.Finite? && AllFinite(values)
    ensures r.Finite?
  {
    if values == [] then start else Add(Sum(start, values[..|values| - 1]), values[|values| - 1])
  }

  const ZERO := Finite(false, 0, 0)

  /** How many 10^-4 an amount is, when it is a whole number of them. */
  function MinorUnits(v: Decimal): nat
    requires v.Finite?
  {
    if v.exp + COLUMN_SCALE >= 0 then v.coef * Pow10(v.exp + COLUMN_SCALE) else Quot(v.coef, Pow10(-(v.exp + COLUMN_SCALE)))
  }

  function TotalUnits(values: seq<Decimal>): nat
    requires AllFinite(values)
  {
    if values == [] then 0 else TotalUnits(values[..|values| - 1]) + MinorUnits(values[|values| - 1])
  }

  /** An amount the column holds as it is. */
  predicate InColumn(v: Decimal) {
    v.Finite? && !v.negative && IsMinor(v, COLUMN_SCALE, MinorUnits(v)) &&
    MinorUnits(v) < COLUMN_LIMIT
  }

  predicate AllInColumn(values: seq<Decimal>) {
    forall i :: 0 <= i < |values| ==> InColumn(values[i])
  }

  lemma {:induction false} SumMeans(start: Decimal, base: nat, values: seq<Decimal>)
    requires Means(start, base) && AllInColumn(values)
    ensures start.Finite? && AllFinite(values) && Means(Sum(start, values), base + TotalUnits(values))
  {
    hide IsMinor, MinorUnits, Add, Pow10, Huge;
    if values != [] {
      var n := |values| - 1;
      SumMeans(start, base, values[..n]);
      AddMeans(Sum(start, values[..n]), values[n], base + TotalUnits(values[..n]), MinorUnits(values[n]));
    }
  }

  lemma SumFromZero(values: seq<Decimal>)
    requires AllInColumn(values)
    ensures AllFinite(values) && Means(Sum(ZERO, values), TotalUnits(values))
  {
    assert IsMinor(ZERO, COLUMN_SCALE, 0);
    SumMeans(ZERO, 0, values);
    hide IsMinor, InColumn, Huge, Sum, TotalUnits;
  }

  /** A sum of column amounts is exact up to the limit of the context; beyond it, it is beyond every column
      amount. */
  lemma SumExact(values: seq<Decimal>)
    requires AllInColumn(values)
    ensures AllFinite(values)
    ensures if TotalUnits(values) < CONTEXT_LIMIT then IsMinor(Sum(ZERO, values), COLUMN_SCALE, TotalUnits(values))
            else Huge(Sum(ZERO, values))
  {
    hide IsMinor, InColumn, Huge, Sum, TotalUnits;
    SumFromZero(values);
  }

  // ---- one amount ---------------------------------------------------------------------------

  /** What an amount of a currency should be: positive, a whole number of its minor units, and
      within the column. */
  ghost predicate GoodAmount(raw: Parsed, currency: string) {
    raw.Number? && raw.value.Finite? && !raw.value.negative && raw.value.coef > 0 &&
    Fits(raw.value, COLUMN_DIGITS, COLUMN_SCALE) && WithinScale(raw.value, ScaleLimit(currency))
  }

  predicate Named(currency: string) {
    Upper(Strip(currency)) != ""
  }

  /** In general what is checked is the amount rounded to the context. */
  lemma ChecksRounded(v: Decimal, currency: string)
    requires v.Finite? && !v.negative && v.coef > 0 && Named(currency)
    ensures ParseAmount(Number(v), currency) == Ok(v) <==>
            Fits(v, COLUMN_DIGITS, COLUMN_SCALE) && (Fix(v).coef == 0 || WithinScale(Fix(v), ScaleLimit(currency)))
  {
    GuardMeetsSpec(v, COLUMN_DIGITS, COLUMN_SCALE);
    if Fix(v).coef > 0 {
      StrippedIsScale(Fix(v), ScaleLimit(currency));
    }
  }

  /** The amounts the check is wrong about: they have more decimals than the currency, and no longer do
      when they are rounded to the context. */
  ghost predicate Slips(raw: Parsed, currency: string) {
    raw.Number? && raw.value.Finite? && !raw.value.negative && raw.value.coef > 0 &&
    Fits(raw.value, COLUMN_DIGITS, COLUMN_SCALE) && !WithinScale(raw.value, ScaleLimit(currency)) &&
    (Fix(raw.value).coef == 0 || WithinScale(Fix(raw.value), ScaleLimit(currency)))
  }

  /** Exactly: every good amount is accepted, however it is padded with zeros, and of the others those
      that slip. So the check is right about an amount if and only if that does not slip. */
  lemma AcceptsGoodAmounts(raw: Parsed, currency: string)
    requires Named(currency)
    ensures ParseAmount(raw, currency).Ok? <==> GoodAmount(raw, currency) || Slips(raw, currency)
    ensures (ParseAmount(raw, currency).Ok? <==> GoodAmount(raw, currency)) <==> !Slips(raw, currency)
    ensures ParseAmount(raw, currency).Ok? ==> raw == Number(ParseAmount(raw, currency).value)
  {
    if raw.Number? {
      var v := raw.value;
      GuardMeetsSpec(v, COLUMN_DIGITS, COLUMN_SCALE);
      if v.Finite? && !v.negative && v.coef > 0 {
        ChecksRounded(v, currency);
        if GoodAmount(raw, currency) {
          FixKeepsScale(v, ScaleLimit(currency));
        }
      }
    }
  }

  /** What a refused amount is refused for, in this order: it is no number, not finite, beyond the column, not
      positive, or too precise; and never by an exception that nobody expects. */
  lemma RefusedFor(raw: Parsed, currency: string)
    ensures match raw
            case Unparseable => ParseAmount(raw, currency) == Err(BadAmount)
            case Number(v) =>
              if v == NaN || v.Infinite? then ParseAmount(raw, currency) == Err(NotFinite)
              else if !Fits(v, 17, 4) then ParseAmount(raw, currency) == Err(TooLarge)
              else if v.negative || v.coef == 0 then ParseAmount(raw, currency) == Err(NotPositive)
              else ParseAmount(raw, currency) in {Ok(v), Err(TooPrecise)}
  {
    if raw.Number? {
      GuardMeetsSpec(raw.value, COLUMN_DIGITS, COLUMN_SCALE);
    }
    hide Fits, ParseGuarded;
  }

  /** Without a currency the decimals are counted as written, and four are allowed. */
  lemma UnnamedScale(v: Decimal, currency: string)
    requires v.Finite? && !v.negative && v.coef > 0 && Fits(v, COLUMN_DIGITS, COLUMN_SCALE) && !Named(currency)
    ensures ParseAmount(Number(v), currency) == if v.exp >= -4 then Ok(v) else Err(TooPrecise)
  {
    GuardMeetsSpec(v, COLUMN_DIGITS, COLUMN_SCALE);
    hide Fits, ParseGuarded;
  }

  /** The decimals of a currency, whatever its case and the spaces around it. */
  lemma CurrencyDecimals(currency: string)
    requires Named(currency)
    ensures var c := Upper(Strip(currency));
            var none := {"BIF", "CLP", "DJF", "GNF", "ISK", "JPY", "KMF", "KRW", "PYG", "RWF", "UGX", "UYI", "VND", "VUV",
                         "XAF", "XOF", "XPF"};
            var three := {"BHD", "IQD", "JOD", "KWD", "LYD", "OMR", "TND"};
            && (ScaleLimit(currency) == 0 <==> c in none)
            && (ScaleLimit(currency) == 3 <==> c in three)
            && (ScaleLimit(currency) == 4 <==> c in {"CLF", "UYW"})
            && (ScaleLimit(currency) == 2 <==> c !in none && c !in three && c !in {"CLF", "UYW"})
  {
  }

  /** Dropping digits rounds to the nearest, and halves to the even neighbour. */
  lemma DropIsNearestEven(coef: nat, k: nat)
    requires k >= 1
    ensures var q, p := DropHalfEven(coef, k), Pow10(k);
            && 2 * (q * p - coef) <= p && 2 * (coef - q * p) <= p
            && (2 * (q * p - coef) == p || 2 * (coef - q * p) == p ==> q % 2 == 0)
  {
    var p := Pow10(k);
    hide Pow10;
    var q := Quot(coef, p);
    assert p * q == q * p && (q + 1) * p == q * p + p;
  }

  /** `r` is the number nearest to `v` at its exponent. */
  predicate Nearest(r: Decimal, v: Decimal)
    requires r.Finite? && v.Finite?
  {
    r.exp >= v.exp &&
    var p := Pow10(r.exp - v.exp);
    2 * (r.coef * p - v.coef) <= p && 2 * (v.coef - r.coef * p) <= p
  }

  /** Rounding to the context: what fits it stays; anything else becomes the nearest number of 28 digits, or
      of as many as the least exponent leaves. */
  lemma FixIsNearest(v: Decimal)
    requires v.Finite? && v.coef > 0
    ensures var r := Fix(v);
            && NumDigits(r.coef) <= 28 && r.exp >= -1000026
            && (Exact(v) ==> r == v)
            && Nearest(r, v)
            && (!Exact(v) ==> NumDigits(r.coef) == 28 || r.exp == -1000026)
  {
    var k := Max(NumDigits(v.coef) - PREC, ETINY - v.exp);
    if k > 0 {
      DigitsBound(v.coef);
      if k > NumDigits(v.coef) {
        PowMono(NumDigits(v.coef), k - 1);
        QuotUnique(1, 10, 0);
        assert Pow10(1) == 10 && DropHalfEven(1, 1) == 0;
      } else {
        FixDrops(v, k);
      }
    }
  }

  lemma FixDrops(v: Decimal, k: nat)
    requires v.Finite? && v.coef > 0 && k == Max(NumDigits(v.coef) - PREC, ETINY - v.exp) && 0 < k <= NumDigits(v.coef)
    ensures var r := Fix(v);
            NumDigits(r.coef) <= 28 && r.exp >= -1000026 && Nearest(r, v) && (NumDigits(r.coef) == 28 || r.exp == -1000026)
  {
    var q := DropHalfEven(v.coef, k);
    assert Fix(v) == if NumDigits(q) > PREC then Finite(v.negative, q / 10, v.exp + k + 1) else Finite(v.negative, q, v.exp + k);
    hide Fix;
    DropIsNearestEven(v.coef, k);
    if NumDigits(v.coef) - PREC == k {
      DropKeepsDigits(v.coef, k, PREC - 1);
    }
    hide DropHalfEven, NumDigits, Pow10;
    if NumDigits(q) > PREC {
      DropCarries(v.coef, k);
      Carried(v.coef, q, k);
    }
  }

  /** A carry to 10^28 gives up one more zero. */
  lemma Carried(coef: nat, q: nat, k: nat)
    requires q == Pow10(PREC)
    requires 2 * (q * Pow10(k) - coef) <= Pow10(k) && 2 * (coef - q * Pow10(k)) <= Pow10(k)
    ensures NumDigits(q / 10) == PREC
    ensures var p := Pow10(k + 1); 2 * ((q / 10) * p - coef) <= p && 2 * (coef - (q / 10) * p) <= p
  {
    var p, t := Pow10(k), Pow10(PREC - 1);
    assert Pow10(PREC) == 10 * t && Pow10(k + 1) == 10 * p;
    hide Pow10, NumDigits;
    assert q / 10 == t;
    MulAssoc(t, 10, p);
    assert 10 * t * p == t * 10 * p;
    DigitsAtLeast(t, PREC - 1);
    DigitsAtLeast(t, PREC);
  }

  lemma DropAtMost(coef: nat, k: nat)
    ensures DropHalfEven(coef, k) <= Quot(coef, Pow10(k)) + 1
  {
  }

  /** Rounding carries at most to the next power of ten. */
  lemma DropBelow(coef: nat, k: nat, m: nat)
    requires coef > 0 && NumDigits(coef) == k + m
    ensures DropHalfEven(coef, k) <= Pow10(m)
  {
    DropAtMost(coef, k);
    hide DropHalfEven, NumDigits, Pow10, Quot;
    DigitsAtLeast(coef, k + m);
    PowAdd(k, m);
    QuotMono(coef, Pow10(k), Pow10(m));
  }

  lemma DropCarries(coef: nat, k: nat)
    requires coef > 0 && k <= NumDigits(coef) <= k + PREC && NumDigits(DropHalfEven(coef, k)) > PREC
    ensures DropHalfEven(coef, k) == Pow10(PREC)
  {
    var m, q := NumDigits(coef) - k, DropHalfEven(coef, k);
    DropBelow(coef, k, m);
    DigitsOfZero();
    hide DropHalfEven, NumDigits, Pow10;
    PowMono(m, PREC);
    DigitsAtLeast(q, PREC);
  }

  lemma DigitsOfZero()
    ensures NumDigits(0) == 1
  {
  }

  /** A good amount keeps its scale when it is rounded to the context. */
  lemma FixKeepsScale(v: Decimal, scale: nat)
    requires v.Finite? && !v.negative && scale <= COLUMN_SCALE
    requires WithinScale(v, scale) && Fits(v, COLUMN_DIGITS, COLUMN_SCALE)
    ensures WithinScale(Fix(v), scale)
  {
    GoodIsInColumn(v, scale);
    var n, m: nat := MinorUnits(v), 0;
    m :| IsMinor(v, scale, m);
    hide Fix;
    assert n < CONTEXT_LIMIT;
    FixKeepsMinor(v, n);
    var e := Min(Min(v.exp, Fix(v).exp), -(COLUMN_SCALE as int));
    MinorAt(v, COLUMN_SCALE, n, e);
    MinorAt(v, scale, m, e);
    MinorAt(Fix(v), COLUMN_SCALE, n, e);
    MinorAt(Fix(v), scale, m, e);
  }

  /** The same number with `j` more zeros. */
  function Padded(v: Decimal, j: nat): Decimal
    requires v.Finite?
  {
    Finite(v.negative, v.coef * Pow10(j), v.exp - j)
  }

  lemma PaddedScale(v: Decimal, j: nat, scale: nat)
    requires v.Finite? && !v.negative
    ensures WithinScale(Padded(v, j), scale) <==> WithinScale(v, scale)
  {
    var u := Padded(v, j);
    var e := Min(u.exp, -(scale as int));
    PowAdd(j, u.exp - e);
    MulAssoc(v.coef, Pow10(j), Pow10(u.exp - e));
    assert Units(u, e) == Units(v, e);
    forall n: nat ensures IsMinor(u, scale, n) <==> IsMinor(v, scale, n) {
      MinorAt(u, scale, n, e);
      MinorAt(v, scale, n, e);
    }
  }

  /** Rounding an amount of at most 28 significant digits to the context takes at most its padding. */
  lemma FixTakesZeros(v: Decimal, j: nat) returns (i: nat)
    requires Exact(v) && !v.negative && v.coef > 0
    ensures Fix(Padded(v, j)) == Padded(v, i)
  {
    var u := Padded(v, j);
    PaddedDigits(v.coef, j);
    var k := Max(NumDigits(u.coef) - PREC, ETINY - u.exp);
    hide NumDigits, DropHalfEven, Pow10;
    i := j;
    if k > 0 {
      DropZeros(u.coef, v.coef, j, k, PREC);
      i := j - k;
    }
  }

  /** No amount of at most 28 significant digits slips, whatever zeros follow them. */
  lemma ShortNeverSlips(v: Decimal, j: nat, currency: string)
    requires Exact(v)
    ensures !Slips(Number(Padded(v, j)), currency)
  {
    if !v.negative && v.coef > 0 {
      var s := ScaleLimit(currency);
      var i := FixTakesZeros(v, j);
      PaddedDigits(v.coef, i);
      PaddedScale(v, j, s);
      PaddedScale(v, i, s);
      hide NumDigits, Fix, WithinScale, ScaleLimit, Fits, Pow10;
    } else {
      assert v.coef == 0 ==> Padded(v, j).coef == 0;
      hide Fix, WithinScale, ScaleLimit, Fits, Pow10;
    }
  }

  lemma DigitsOfOneAndABit(j: nat)
    requires j >= 1
    ensures NumDigits(Pow10(j) + 1) == j + 1
    ensures NumDigits(Pow10(j)) == j + 1
  {
    hide NumDigits;
    DigitsAtLeast(Pow10(j) + 1, j);
    DigitsAtLeast(Pow10(j) + 1, j + 1);
    DigitsAtLeast(Pow10(j), j);
    DigitsAtLeast(Pow10(j), j + 1);
  }

  lemma DropOneAndABit(m: nat, k: nat)
    requires k >= 1
    ensures DropHalfEven(Pow10(m + k) + 1, k) == Pow10(m)
  {
    PowAdd(m, k);
    assert Pow10(k) >= 10;
    hide Pow10;
    QuotUnique(Pow10(m + k) + 1, Pow10(k), Pow10(m));
  }

  lemma FixOneAndABit(k: nat, m: nat)
    requires m == PREC - 1 && k >= 1
    ensures Fix(Finite(false, Pow10(m + k) + 1, -(m + k))) == Finite(false, Pow10(m), -(m as int))
  {
    hide NumDigits, Pow10, DropHalfEven;
    DigitsOfOneAndABit(m + k);
    DigitsOfOneAndABit(m);
    DropOneAndABit(m, k);
  }

  lemma FitsOneAndABit(j: nat)
    requires j >= COLUMN_SCALE
    ensures Fits(Finite(false, Pow10(j) + 1, -(j as int)), COLUMN_DIGITS, COLUMN_SCALE)
  {
    hide NumDigits, Pow10, HalfUp;
    DigitsOfOneAndABit(j);
    PowStrict(COLUMN_SCALE + 1, COLUMN_DIGITS + COLUMN_SCALE);
    HalfUpBounds(Pow10(j) + 1, COLUMN_SCALE - j, COLUMN_SCALE + 1);
  }

  lemma OneAndABitHasDecimals(j: nat, s: nat)
    requires j > s
    ensures !WithinScale(Finite(false, Pow10(j) + 1, -(j as int)), s)
  {
    StrippedIsScale(Finite(false, Pow10(j) + 1, -(j as int)), s);
    assert Pow10(j) == 10 * Pow10(j - 1);
  }

  lemma PowerWithinScale(m: nat, s: nat)
    requires s <= m
    ensures WithinScale(Finite(false, Pow10(m), -(m as int)), s)
  {
    PowAdd(s, m - s);
    assert IsMinor(Finite(false, Pow10(m), -(m as int)), s, Pow10(s));
  }

  /** So 1 followed by zeros and a one at the `j`th decimal passes in every currency, for every `j`
      from 28 on, although no currency has that many decimals. */
  lemma LongAmountSlips(j: nat, currency: string)
    requires j >= PREC && Named(currency)
    ensures var v := Finite(false, Pow10(j) + 1, -(j as int));
            ParseAmount(Number(v), currency) == Ok(v) && !GoodAmount(Number(v), currency)
  {
    hide Pow10, Fix, Fits, ParseAmount, WithinScale;
    var v := Finite(false, Pow10(j) + 1, -(j as int));
    var s := ScaleLimit(currency);
    FixOneAndABit(j - PREC + 1, PREC - 1);
    FitsOneAndABit(j);
    ChecksRounded(v, currency);
    PowerWithinScale(PREC - 1, s);
    OneAndABitHasDecimals(j, s);
  }

  /** And so does an amount too small for the context: it rounds to zero, which has no decimals. */
  lemma TinyAmountSlips(exp: int, currency: string)
    requires exp < ETINY && Named(currency)
    ensures var v := Finite(false, 1, exp);
            ParseAmount(Number(v), currency) == Ok(v) && !GoodAmount(Number(v), currency)
  {
    var v := Finite(false, 1, exp);
    var s := ScaleLimit(currency);
    HalfUpBounds(1, exp + COLUMN_SCALE, 0);
    PowStrict(0, COLUMN_DIGITS + COLUMN_SCALE);
    QuotUnique(1, Pow10(1), 0);
    ChecksRounded(v, currency);
    StrippedIsScale(v, s);
  }

  /** A good amount is a whole number of the column's units, and below its capacity. */
  lemma GoodIsInColumn(v: Decimal, scale: nat)
    requires v.Finite? && !v.negative && scale <= COLUMN_SCALE
    requires WithinScale(v, scale) && Fits(v, COLUMN_DIGITS, COLUMN_SCALE)
    ensures InColumn(v)
  {
    var n: nat :| IsMinor(v, scale, n);
    var m := n * Pow10(COLUMN_SCALE - scale);
    FinerScale(v, scale, n);
    Limits();
    if v.exp + COLUMN_SCALE < 0 {
      var p := Pow10(-(v.exp + COLUMN_SCALE));
      HalfUpOfWhole(m, p);
      QuotUnique(v.coef, p, m);
    }
  }

  lemma FinerScale(v: Decimal, scale: nat, n: nat)
    requires IsMinor(v, scale, n) && scale <= COLUMN_SCALE
    ensures IsMinor(v, COLUMN_SCALE, n * Pow10(COLUMN_SCALE - scale))
  {
    var s, c := -(scale as int), -(COLUMN_SCALE as int);
    var e := Min(v.exp, c);
    MinorAt(v, scale, n, e);
    MinorAt(v, COLUMN_SCALE, n * Pow10(COLUMN_SCALE - scale), e);
    PowAdd(COLUMN_SCALE - scale, c - e);
    MulAssoc(n, Pow10(COLUMN_SCALE - scale), Pow10(c - e));
  }

  // ---- detail lists -------------------------------------------------------------------------

  /** One entry of a detail list: its currencyCode and the text under the amount field, if any. */
  datatype Item = NotADict | Dict(currencyCode: Option<string>, amount: Option<Parsed>)

  datatype DetailField = Absent | Scalar | List(items: seq<Item>)

  datatype Collected = Amounts(values: seq<Decimal>) | Skipped | Refused(reason: Reason)

  function AmountOf(item: Item, currency: string, strict: bool): Collected {
    if item.NotADict? || item.amount.None? then (if strict then Refused(InvalidItem) else Skipped)
    else
      match ParseAmount(item.amount.value, currency)
      case Err(_) => Refused(InvalidAmount)
      case Ok(v) => Amounts([v])
  }

  /** The amounts in order, or what the first item that has none brings about. */
  function Collect(items: seq<Item>, currency: string, strict: bool): Collected {
    if items == [] then Amounts([])
    else Prepend(AmountOf(items[0], currency, strict), Collect(items[1..], currency, strict))
  }

  function Prepend(first: Collected, rest: Collected): Collected {
    if !first.Amounts? then first
    else if !rest.Amounts? then rest
    else Amounts(first.values + rest.values)
  }

  /** `_collect_detail_amounts` */
  method CollectDetailAmounts(items: seq<Item>, currency: string, strict: bool) returns (r: Collected)
    ensures r == Collect(items, currency, strict)
  {
    hide ParseAmount;
    var amounts: seq<Decimal> := [];
    var i := 0;
    while i < |items|
      invariant 0 <= i <= |items|
      invariant Collect(items, currency, strict) == Prepend(Amounts(amounts), Collect(items[i..], currency, strict))
    {
      var item := items[i];
      assert items[i..][1..] == items[i + 1..];
      if item.NotADict? || item.amount.None? {
        return if strict then Refused(InvalidItem) else Skipped;
      }
      match ParseAmount(item.amount.value, currency) {
        case Err(_) => return Refused(InvalidAmount);
        case Ok(v) =>
          ghost var rest := Collect(items[i + 1..], currency, strict);
          assert rest.Amounts? ==> amounts + ([v] + rest.values) == amounts + [v] + rest.values;
          amounts := amounts + [v];
      }
      i := i + 1;
    }
    r := Amounts(amounts);
  }

  predicate SameCurrency(item: Item, currency: string) {
    item.Dict? && item.currencyCode.Some? ==> item.currencyCode.value == currency
  }

  predicate OneCurrency(items: seq<Item>, currency: string) {
    forall i :: 0 <= i < |items| ==> SameCurrency(items[i], currency)
  }

  datatype Check = Passed | Rejected(reason: Reason)

  /** The comparison at the end, given both lists of amounts. */
  function CompareTotal(main: Collected, fees: seq<Decimal>, total: Decimal): Check
    requires main.Amounts? ==> AllFinite(main.values)
    requires AllFinite(fees)
  {
    match main
    case Refused(reason) => Rejected(reason)
    case Skipped => Passed
    case Amounts(values) =>
      if SameValue(Add(Sum(ZERO, values), Sum(ZERO, fees)), total) then Passed else Rejected(SumMismatch)
  }

  lemma {:induction false} CollectedAreFinite(items: seq<Item>, currency: string, strict: bool)
    ensures var c := Collect(items, currency, strict);
            c.Amounts? ==> |c.values| == |items| && AllFinite(c.values)
  {
    if items != [] {
      CollectedAreFinite(items[1..], currency, strict);
    }
  }

  function Fees(fee: DetailField): seq<Item> {
    if fee.List? then fee.items else []
  }

  function CheckDetail(detail: DetailField, fee: DetailField, total: Option<Decimal>, currency: string,
                       mainStrict: bool, requireDetail: bool): Check
  {
    match detail
    case Absent => if requireDetail then Rejected(MissingDetail) else Passed
    case Scalar => Rejected(NotAList)
    case List(items) =>
      if items == [] then Rejected(EmptyDetail)
      else if fee.Scalar? then Rejected(FeeNotAList)
      else if !OneCurrency(items + Fees(fee), currency) then
        Rejected(CurrencyMismatch)
      else if total.None? then Passed
      else
        CollectedAreFinite(items, currency, mainStrict);
        CollectedAreFinite(Fees(fee), currency, true);
        match Collect(Fees(fee), currency, true)
        case Refused(reason) => Rejected(reason)
        case Skipped => Passed
        case Amounts(fees) => CompareTotal(Collect(items, currency, mainStrict), fees, total.value)
  }

  /** `validate_detail_consistency` */
  method ValidateDetailConsistency(detail: DetailField, fee: DetailField, total: Option<Decimal>, currency: string,
                                   mainStrict: bool, requireDetail: bool) returns (r: Check)
    ensures r == CheckDetail(detail, fee, total, currency, mainStrict, requireDetail)
  {
    if detail.Absent? {
      return if requireDetail then Rejected(MissingDetail) else Passed;
    }
    if detail.Scalar? {
      return Rejected(NotAList);
    }
    var items := detail.items;
    if items == [] {
      return Rejected(EmptyDetail);
    }
    if fee.Scalar? {
      return Rejected(FeeNotAList);
    }
    var feeItems := Fees(fee);
    var both := items + feeItems;
    var i := 0;
    while i < |both|
      invariant 0 <= i <= |both|
      invariant forall j :: 0 <= j < i ==> SameCurrency(both[j], currency)
    {
      if !SameCurrency(both[i], currency) {
        return Rejected(CurrencyMismatch);
      }
      i := i + 1;
    }
    if total.None? {
      return Passed;
    }
    hide Add, SameValue, AmountOf, Collect;
    CollectedAreFinite(items, currency, mainStrict);
    CollectedAreFinite(feeItems, currency, true);
    var feeAmounts := CollectDetailAmounts(feeItems, currency, true);
    match feeAmounts {
      case Refused(reason) => return Rejected(reason);
      case Skipped => return Passed;
      case Amounts(fees) =>
        var mainAmounts := CollectDetailAmounts(items, currency, mainStrict);
        match mainAmounts {
          case Refused(reason) => return Rejected(reason);
          case Skipped => return Passed;
          case Amounts(values) =>
            var sum := Add(Sum(ZERO, values), Sum(ZERO, fees));
            r := if SameValue(sum, total.value) then Passed else Rejected(SumMismatch);
        }
    }
  }

  // ---- what a passed check means ------------------------------------------------------------

  ghost predicate GoodItem(item: Item, currency: string) {
    item.Dict? && item.amount.Some? && GoodAmount(item.amount.value, currency)
  }

  /** The amount an item names. */
  function ValueOf(item: Item): (v: Decimal)
    ensures v.Finite?
  {
    if item.Dict? && item.amount.Some? && item.amount.value.Number? && item.amount.value.value.Finite?
    then item.amount.value.value
    else ZERO
  }

  function Values(items: seq<Item>): (vs: seq<Decimal>)
    ensures AllFinite(vs)
    ensures |vs| == |items| && forall i :: 0 <= i < |vs| ==> vs[i] == ValueOf(items[i])
  {
    seq(|items|, i requires 0 <= i < |items| => ValueOf(items[i]))
  }

  /** No amount is one the scale check is wrong about. */
  ghost predicate NoneSlips(items: seq<Item>, currency: string) {
    forall i :: 0 <= i < |items| ==> !ItemSlips(items[i], currency)
  }

  ghost predicate ItemSlips(item: Item, currency: string) {
    item.Dict? && item.amount.Some? && Slips(item.amount.value, currency)
  }

  ghost predicate AllGood(items: seq<Item>, currency: string) {
    forall i :: 0 <= i < |items| ==> GoodItem(items[i], currency)
  }

  lemma ItemCollected(item: Item, currency: string)
    requires Named(currency)
    ensures var c := AmountOf(item, currency, true);
            && !c.Skipped?
            && (c.Amounts? <==> GoodItem(item, currency) || ItemSlips(item, currency))
            && (c.Amounts? ==> c == Amounts([ValueOf(item)]))
  {
    if item.Dict? && item.amount.Some? {
      AcceptsGoodAmounts(item.amount.value, currency);
      AcceptedIsFinite(item.amount.value, currency);
    }
    hide ParseAmount, GoodAmount, Slips;
  }

  lemma AcceptedIsFinite(raw: Parsed, currency: string)
    ensures ParseAmount(raw, currency).Ok? ==> raw.Number? && raw.value.Finite?
  {
  }

  /** A strict list is collected exactly when all its items are good, and then as it stands. */
  lemma {:induction false} CollectsGoodLists(items: seq<Item>, currency: string)
    requires NoneSlips(items, currency) && Named(currency)
    ensures var c := Collect(items, currency, true);
            && !c.Skipped?
            && (c.Amounts? <==> AllGood(items, currency))
            && (c.Amounts? ==> c.values == Values(items))
  {
    if items != [] {
      ItemCollected(items[0], currency);
      CollectsGoodLists(items[1..], currency);
      assert Values(items) == [ValueOf(items[0])] + Values(items[1..]);
      hide GoodItem, ItemSlips, AmountOf;
      assert AllGood(items, currency) <==> GoodItem(items[0], currency) && AllGood(items[1..], currency);
    }
  }

  lemma GoodListInColumn(items: seq<Item>, currency: string)
    requires AllGood(items, currency)
    ensures AllInColumn(Values(items))
  {
    forall i | 0 <= i < |items| ensures InColumn(ValueOf(items[i])) {
      assert GoodItem(items[i], currency);
      GoodIsInColumn(ValueOf(items[i]), ScaleLimit(currency));
    }
  }

  /** `total` is, to the unit, what the amounts add up to. */
  predicate IsExactTotal(total: Decimal, main: seq<Decimal>, fees: seq<Decimal>)
    requires AllFinite(main) && AllFinite(fees)
  {
    IsMinor(total, COLUMN_SCALE, TotalUnits(main) + TotalUnits(fees))
  }

  lemma SumMatches(sum: Decimal, n: nat, total: Decimal)
    requires Means(sum, n) && !Huge(total)
    ensures SameValue(sum, total) <==> IsMinor(total, COLUMN_SCALE, n)
  {
    if n < CONTEXT_LIMIT {
      SameMinor(sum, total, n);
    } else {
      if SameValue(sum, total) {
        SameValueHuge(sum, total);
      }
      if IsMinor(total, COLUMN_SCALE, n) && !total.negative {
        MinorHasDigits(total, n);
      }
    }
  }

  lemma BothSums(main: seq<Decimal>, fees: seq<Decimal>)
    requires AllInColumn(main) && AllInColumn(fees)
    ensures AllFinite(main) && AllFinite(fees)
    ensures Means(Add(Sum(ZERO, main), Sum(ZERO, fees)), TotalUnits(main) + TotalUnits(fees))
  {
    hide AllInColumn, AllFinite, Add, Sum, TotalUnits, Means;
    SumFromZero(main);
    SumFromZero(fees);
    AddMeans(Sum(ZERO, main), Sum(ZERO, fees), TotalUnits(main), TotalUnits(fees));
  }

  /** The decimal comparison decides exactness, however long the lists are. */
  lemma SumsMatch(main: seq<Decimal>, fees: seq<Decimal>, total: Decimal)
    requires AllInColumn(main) && AllInColumn(fees) && !Huge(total)
    ensures AllFinite(main) && AllFinite(fees)
    ensures SameValue(Add(Sum(ZERO, main), Sum(ZERO, fees)), total) <==> IsExactTotal(total, main, fees)
  {
    hide AllInColumn, AllFinite, IsMinor, SameValue, Add, Sum, Huge, TotalUnits, Means;
    BothSums(main, fees);
    SumMatches(Add(Sum(ZERO, main), Sum(ZERO, fees)), TotalUnits(main) + TotalUnits(fees), total);
  }

  /** A total that passed the capacity guard is not beyond the context. */
  lemma GuardedTotal(total: Decimal)
    requires total.Finite? && Fits(total, COLUMN_DIGITS, COLUMN_SCALE)
    ensures !Huge(total)
  {
    if total.coef > 0 {
      HalfUpBounds(total.coef, total.exp + COLUMN_SCALE, COLUMN_DIGITS + COLUMN_SCALE);
      PowStrict(COLUMN_DIGITS + COLUMN_SCALE, PREC);
    }
  }

  /** The strict check, read off the code. */
  lemma StrictCheck(items: seq<Item>, fee: DetailField, total: Decimal, currency: string, requireDetail: bool)
    requires items != [] && !fee.Scalar?
    requires var c := Collect(items, currency, true); !c.Skipped? && (c.Amounts? ==> c.values == Values(items))
    requires var c := Collect(Fees(fee), currency, true); !c.Skipped? && (c.Amounts? ==> c.values == Values(Fees(fee)))
    ensures CheckDetail(List(items), fee, Some(total), currency, true, requireDetail) == Passed <==>
            && OneCurrency(items + Fees(fee), currency)
            && Collect(items, currency, true).Amounts? && Collect(Fees(fee), currency, true).Amounts?
            && SameValue(Add(Sum(ZERO, Values(items)), Sum(ZERO, Values(Fees(fee)))), total)
  {
    hide Collect, SameValue, Add, Sum, SameCurrency;
  }

  /** No item names another currency. */
  predicate NamesOnly(items: seq<Item>, currency: string) {
    forall i :: 0 <= i < |items| && items[i].Dict? && items[i].currencyCode != None ==> items[i].currencyCode == Some(currency)
  }

  lemma CurrencyReads(items: seq<Item>, fee: DetailField, currency: string)
    ensures OneCurrency(items + Fees(fee), currency) <==>
            NamesOnly(items, currency) && (fee.List? ==> NamesOnly(fee.items, currency))
  {
    var fees := Fees(fee);
    assert forall i :: 0 <= i < |items| ==> (items + fees)[i] == items[i];
    assert forall i :: 0 <= i < |fees| ==> (items + fees)[|items| + i] == fees[i];
    if OneCurrency(items + fees, currency) {
      forall i | 0 <= i < |items| ensures SameCurrency(items[i], currency) {
        assert SameCurrency((items + fees)[i], currency);
      }
      forall i | 0 <= i < |fees| ensures SameCurrency(fees[i], currency) {
        assert SameCurrency((items + fees)[|items| + i], currency);
      }
    }
  }

  /** The strict check against a total that passed the capacity guard, over lists of any length none of
      whose amounts slips: it passes exactly when no item is in another currency, every main and fee item
      is a positive amount within its currency's scale, and the total is the exact sum of them all. */
  lemma PassedIffExact(items: seq<Item>, fee: DetailField, total: Decimal, currency: string, requireDetail: bool)
    requires items != [] && !fee.Scalar? && Named(currency)
    requires NoneSlips(items, currency) && NoneSlips(Fees(fee), currency)
    requires total.Finite? && Fits(total, COLUMN_DIGITS, COLUMN_SCALE)
    ensures CheckDetail(List(items), fee, Some(total), currency, true, requireDetail) == Passed <==>
            && NamesOnly(items, currency) && (fee.List? ==> NamesOnly(fee.items, currency))
            && AllGood(items, currency) && (fee.List? ==> AllGood(fee.items, currency))
            && IsExactTotal(total, Values(items), if fee.List? then Values(fee.items) else [])
  {
    var fees := Fees(fee);
    CurrencyReads(items, fee, currency);
    assert Values([]) == [];
    GuardedTotal(total);
    CollectsGoodLists(items, currency);
    CollectsGoodLists(fees, currency);
    StrictCheck(items, fee, total, currency, requireDetail);
    hide CheckDetail, OneCurrency, NamesOnly, NoneSlips, AllGood, Collect, IsExactTotal, SameValue, Add, Sum, Values, AllInColumn, AllFinite,
      Named, Fits, Huge;
    if AllGood(items, currency) && AllGood(fees, currency) {
      GoodListInColumn(items, currency);
      GoodListInColumn(fees, currency);
      SumsMatch(Values(items), Values(fees), total);
    }
  }

  /** Good lists need no such condition: they pass exactly against their exact total. */
  lemma GoodListsPass(items: seq<Item>, fee: DetailField, total: Decimal, currency: string, requireDetail: bool)
    requires items != [] && !fee.Scalar? && Named(currency)
    requires AllGood(items, currency) && AllGood(Fees(fee), currency)
    requires total.Finite? && Fits(total, COLUMN_DIGITS, COLUMN_SCALE)
    ensures CheckDetail(List(items), fee, Some(total), currency, true, requireDetail) == Passed <==>
            && NamesOnly(items, currency) && (fee.List? ==> NamesOnly(fee.items, currency))
            && IsExactTotal(total, Values(items), if fee.List? then Values(fee.items) else [])
  {
    GoodNeverSlip(items, currency);
    GoodNeverSlip(Fees(fee), currency);
    PassedIffExact(items, fee, total, currency, requireDetail);
    hide CheckDetail, NamesOnly, IsExactTotal, Fits, Named;
  }

  lemma GoodNeverSlip(items: seq<Item>, currency: string)
    requires AllGood(items, currency)
    ensures NoneSlips(items, currency)
  {
    forall i | 0 <= i < |items| ensures !ItemSlips(items[i], currency) {
      assert GoodItem(items[i], currency);
    }
  }

  /** And lists whose amounts slip do need it: each such amount, alone in a list, passes against a total. */
  lemma SlippedListPasses(item: Item, currency: string, requireDetail: bool) returns (total: Decimal)
    requires ItemSlips(item, currency) && SameCurrency(item, currency) && Named(currency)
    ensures CheckDetail(List([item]), Absent, Some(total), currency, true, requireDetail) == Passed
    ensures !AllGood([item], currency)
  {
    ItemCollected(item, currency);
    assert !GoodItem(item, currency);
    hide AmountOf, CheckDetail, ItemSlips, GoodItem;
    total := CollectedPasses(item, currency, requireDetail);
    assert !GoodItem([item][0], currency);
  }

  lemma CollectedPasses(item: Item, currency: string, requireDetail: bool) returns (total: Decimal)
    requires AmountOf(item, currency, true) == Amounts([ValueOf(item)]) && SameCurrency(item, currency)
    ensures CheckDetail(List([item]), Absent, Some(total), currency, true, requireDetail) == Passed
  {
    OneCollected(item, currency);
    assert OneCurrency([item] + Fees(Absent), currency);
    hide AmountOf, Add, Sum, Collect, SameValue, SameCurrency, OneCurrency, Values;
    total := Add(Sum(ZERO, Values([item])), Sum(ZERO, Values([])));
    assert Fees(Absent) == [];
    hide CheckDetail, Fees;
    StrictCheck([item], Absent, total, currency, requireDetail);
    SameAsItself(total);
  }

  lemma SameAsItself(v: Decimal)
    requires v.Finite?
    ensures SameValue(v, v)
  {
  }

  lemma OneCollected(item: Item, currency: string)
    requires AmountOf(item, currency, true) == Amounts([ValueOf(item)])
    ensures Collect([item], currency, true) == Amounts(Values([item]))
    ensures Collect([], currency, true) == Amounts(Values([]))
  {
    hide AmountOf;
    assert [item][1..] == [];
    assert Collect([], currency, true) == Amounts([]);
    assert [ValueOf(item)] + [] == Values([item]) && Values([]) == [];
  }
}
