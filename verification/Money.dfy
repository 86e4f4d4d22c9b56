/** Exact integer money: three rounding modes, unit pricing and invoice reconciliation. */
module Money {

  import opened Common

  /** The string-typed mode of the source; `OtherRounding` stands for every unrecognised value. */
  datatype RoundingMode = HalfUp | Down | Up | OtherRounding

  datatype BillingError =
    InvalidAmount | InvalidScale | InvalidRounding | Overflow | InvoiceMismatch |
    InvalidInvoice | InvoiceIssued | RateNotFound

  datatype Result<T> = Ok(value: T) | Err(error: BillingError)

  /** Quotient, remainder, adjustment by mode, range check: the order of the checks is the source's. */
  function RoundedInt64(numerator: int, denominator: int, mode: RoundingMode): (r: Result<int>)
    ensures r.Ok? ==> 0 <= r.value <= MAX_INT64
  {
    if numerator < 0 || denominator <= 0 then Err(InvalidAmount)
    else if mode.OtherRounding? then Err(InvalidRounding)
    else
      var quotient, remainder := numerator / denominator, numerator % denominator;
      var rounded :=
        if remainder == 0 || mode.Down? then quotient
        else if mode.Up? then quotient + 1
        else if 2 * remainder >= denominator then quotient + 1
        else quotient;
      if IsInt64(rounded) then Ok(rounded) else Err(Overflow)
  }

  /** What rounding means, stated by multiplication instead of division. */
  ghost predicate RoundsTo(numerator: int, denominator: int, mode: RoundingMode, q: int)
    requires denominator > 0
  {
    match mode
    case Down => q * denominator <= numerator < (q + 1) * denominator
    case Up => (q - 1) * denominator < numerator <= q * denominator
    case HalfUp => (2 * q - 1) * denominator <= 2 * numerator < (2 * q + 1) * denominator
    case OtherRounding => false
  }

  /** Rounding succeeds with q exactly when q is the multiplicative meaning of the mode and fits. */
  lemma RoundedInt64IsExact(n: int, d: int, mode: RoundingMode, q: int)
    requires d > 0 && n >= 0
    ensures RoundedInt64(n, d, mode) == Ok(q) <==> RoundsTo(n, d, mode, q) && IsInt64(q)
  {
    var k, r := n / d, n % d;
    assert n == k * d + r && 0 <= r < d;
    if RoundsTo(n, d, mode, q) {
      QuotientUnique(d, k, r, mode, q);
    }
    assert (k + 1) * d == k * d + d;
    assert (2 * k - 1) * d == 2 * (k * d) - d;
    assert (2 * k + 1) * d == 2 * (k * d) + d;
    assert (2 * (k + 1) - 1) * d == 2 * (k * d) + d;
    assert (2 * (k + 1) + 1) * d == 2 * (k * d) + 3 * d;
  }

  lemma QuotientUnique(d: int, k: int, r: int, mode: RoundingMode, q: int)
    requires 0 <= r < d
    requires RoundsTo(k * d + r, d, mode, q)
    ensures mode.Down? ==> q == k
    ensures mode.Up? ==> q == if r == 0 then k else k + 1
    ensures mode.HalfUp? ==> q == if 2 * r >= d then k + 1 else k
  {
    var e := q - k;
    Scale(d, e, -1);
    Scale(d, 1, e);
    Scale(d, 2, e);
    assert q * d == k * d + e * d;
    match mode
    case Down =>
      assert (q + 1) * d == k * d + e * d + d;
    case Up =>
      assert (q - 1) * d == k * d + e * d - d;
    case HalfUp =>
      assert (2 * q - 1) * d == 2 * (k * d) + 2 * (e * d) - d;
      assert (2 * q + 1) * d == 2 * (k * d) + 2 * (e * d) + d;
  }

  lemma Scale(d: int, a: int, b: int)
    requires d > 0
    ensures a <= b ==> a * d <= b * d
  {
  }

  /** Rounding a larger numerator never yields a smaller amount. */
  lemma RoundedMonotone(n: int, n': int, d: int, mode: RoundingMode, q: int, q': int)
    requires d > 0 && 0 <= n <= n'
    requires RoundedInt64(n, d, mode) == Ok(q) && RoundedInt64(n', d, mode) == Ok(q')
    ensures q <= q'
  {
    RoundedInt64IsExact(n, d, mode, q);
    RoundedInt64IsExact(n', d, mode, q');
    Scale(d, q' + 1, q);
    Scale(d, q', q - 1);
    Scale(d, 2 * q' + 1, 2 * q - 1);
  }

  function Pow10(scale: nat): (p: int)
    ensures p > 0
  {
    if scale == 0 then 1 else 10 * Pow10(scale - 1)
  }

  datatype Rate = Rate(
    serviceCode: string, metricCode: string, unit: string, description: string,
    unitPriceMinor: int, unitPriceScale: int, quantityScale: Option<int>,
    roundingMode: RoundingMode, taxCategory: Option<string>, taxRateBasisPoints: int)

  function PriceSubtotal(rate: Rate, quantity: int, quantityScale: int): (r: Result<int>)
    ensures r.Ok? ==> 0 <= r.value <= MAX_INT64
  {
    if quantity < 0 || rate.unitPriceMinor < 0 then Err(InvalidAmount)
    else if quantityScale < 0 || quantityScale > 9 || rate.unitPriceScale < 0 || rate.unitPriceScale > 9
            || (rate.quantityScale.Some? && rate.quantityScale.value != quantityScale) then Err(InvalidScale)
    else RoundedInt64(quantity * rate.unitPriceMinor, Pow10(quantityScale + rate.unitPriceScale), rate.roundingMode)
  }

  datatype Price = Price(subtotal: int, tax: int, total: int)

  function PriceUsage(rate: Rate, quantity: int, quantityScale: int): (r: Result<Price>)
    ensures r.Ok? ==> 0 <= r.value.subtotal <= r.value.total && 0 <= r.value.tax
                      && r.value.total == r.value.subtotal + r.value.tax <= MAX_INT64
  {
    if rate.taxRateBasisPoints < 0 || rate.taxRateBasisPoints > 10000 then Err(InvalidAmount)
    else
      var subtotal := PriceSubtotal(rate, quantity, quantityScale);
      if subtotal.Err? then Err(subtotal.error)
      else
        var tax := RoundedInt64(subtotal.value * rate.taxRateBasisPoints, 10000, rate.roundingMode);
        if tax.Err? then Err(tax.error)
        else if !IsInt64(subtotal.value + tax.value) then Err(Overflow)
        else
          Ok(Price(subtotal.value, tax.value, subtotal.value + tax.value))
  }

  /** What a rate and a quantity must satisfy to be priced at all. */
  predicate Priceable(rate: Rate, quantity: int, quantityScale: int) {
    && quantity >= 0 && rate.unitPriceMinor >= 0 && 0 <= quantityScale <= 9 && 0 <= rate.unitPriceScale <= 9
    && (rate.quantityScale.Some? ==> rate.quantityScale.value == quantityScale) && 0 <= rate.taxRateBasisPoints <= 10000
  }

  /** A price is right exactly when its subtotal is the rounded quantity times unit price, its tax the rounded
      share of that subtotal, both by the rate's mode, and the total adds up within int64. */
  lemma PriceUsageIsExact(rate: Rate, quantity: int, quantityScale: int, p: Price)
    ensures PriceUsage(rate, quantity, quantityScale) == Ok(p) <==>
            && Priceable(rate, quantity, quantityScale)
            && RoundsTo(quantity * rate.unitPriceMinor, Pow10(quantityScale + rate.unitPriceScale), rate.roundingMode,
                        p.subtotal)
            && RoundsTo(p.subtotal * rate.taxRateBasisPoints, 10000, rate.roundingMode, p.tax)
            && p.total == p.subtotal + p.tax && p.subtotal >= 0 && p.tax >= 0 && IsInt64(p.total)
  {
    if Priceable(rate, quantity, quantityScale) {
      var n, d := quantity * rate.unitPriceMinor, Pow10(quantityScale + rate.unitPriceScale);
      NonNegative(quantity, rate.unitPriceMinor);
      RoundedInt64IsExact(n, d, rate.roundingMode, p.subtotal);
      if p.subtotal >= 0 {
        NonNegative(p.subtotal, rate.taxRateBasisPoints);
        RoundedInt64IsExact(p.subtotal * rate.taxRateBasisPoints, 10000, rate.roundingMode, p.tax);
      }
      hide RoundedInt64;
      hide RoundsTo;
      hide Pow10;
    }
  }

  lemma NonNegative(a: int, b: int)
    requires a >= 0 && b >= 0
    ensures a * b >= 0
  { }

  // ---------------------------------------------------------------- the decimal point

  /** Powers of ten: one for no digits, ten for one, and digits add. */
  lemma {:induction false} Pow10Adds(a: nat, b: nat)
    ensures Pow10(0) == 1 && Pow10(1) == 10 && Pow10(a + b) == Pow10(a) * Pow10(b)
  {
    if b > 0 {
      Pow10Adds(a, b - 1);
      assert Pow10(a + b) == 10 * Pow10(a + b - 1) == 10 * (Pow10(a) * Pow10(b - 1));
    }
  }

  /** Scaling numerator and denominator by ten does not change a rounded quotient, in any mode. */
  lemma RoundedScales(n: int, d: int, mode: RoundingMode)
    requires d > 0
    ensures RoundedInt64(10 * n, 10 * d, mode) == RoundedInt64(n, d, mode)
  {
    if n >= 0 && !mode.OtherRounding? {
      var q, r := n / d, n % d;
      assert n == q * d + r;
      assert 10 * n == q * (10 * d) + 10 * r && 0 <= 10 * r < 10 * d;
      DivModUnique(10 * n, 10 * d, q, 10 * r);
    }
  }

  lemma DivModUnique(n: int, d: int, q: int, r: int)
    requires d > 0 && n == q * d + r && 0 <= r < d
    ensures n / d == q && n % d == r
  {
    var e := n / d - q;
    assert n == (n / d) * d + n % d;
    assert e * d == r - n % d;
    Scale(d, e, -1);
    Scale(d, 1, e);
  }

  /** Writing a quantity with one more decimal digit changes no price. */
  lemma ShiftQuantity(rate: Rate, quantity: int, scale: nat)
    requires scale < 9 && rate.quantityScale.None?
    ensures PriceSubtotal(rate, 10 * quantity, scale + 1) == PriceSubtotal(rate, quantity, scale)
    ensures PriceUsage(rate, 10 * quantity, scale + 1) == PriceUsage(rate, quantity, scale)
  {
    if quantity >= 0 && rate.unitPriceMinor >= 0 && 0 <= rate.unitPriceScale <= 9 {
      var n, d := quantity * rate.unitPriceMinor, Pow10(scale + rate.unitPriceScale);
      assert 10 * quantity * rate.unitPriceMinor == 10 * n;
      assert Pow10(scale + 1 + rate.unitPriceScale) == 10 * d;
      RoundedScales(n, d, rate.roundingMode);
    }
    hide RoundedInt64;
    hide Pow10;
  }

  /** Nor does writing the unit price with one more. */
  lemma ShiftPrice(rate: Rate, quantity: int, scale: int)
    requires 0 <= rate.unitPriceScale < 9
    ensures var finer := rate.(unitPriceMinor := 10 * rate.unitPriceMinor, unitPriceScale := rate.unitPriceScale + 1);
            && PriceSubtotal(finer, quantity, scale) == PriceSubtotal(rate, quantity, scale)
            && PriceUsage(finer, quantity, scale) == PriceUsage(rate, quantity, scale)
  {
    if quantity >= 0 && rate.unitPriceMinor >= 0 && 0 <= scale <= 9 {
      var n, d := quantity * rate.unitPriceMinor, Pow10(scale + rate.unitPriceScale);
      assert quantity * (10 * rate.unitPriceMinor) == 10 * n;
      assert Pow10(scale + (rate.unitPriceScale + 1)) == 10 * d;
      RoundedScales(n, d, rate.roundingMode);
    }
    hide RoundedInt64;
    hide Pow10;
  }

  /** Without decimals a subtotal is quantity times unit price. */
  lemma WholeUnits(rate: Rate, quantity: int)
    requires quantity >= 0 && rate.unitPriceMinor >= 0 && rate.unitPriceScale == 0 && !rate.roundingMode.OtherRounding?
    requires rate.quantityScale.None? || rate.quantityScale == Some(0)
    ensures var n := quantity * rate.unitPriceMinor;
            PriceSubtotal(rate, quantity, 0) == if n <= MAX_INT64 then Ok(n) else Err(Overflow)
  {
    NonNegative(quantity, rate.unitPriceMinor);
    var n := quantity * rate.unitPriceMinor;
    assert Pow10(0) == 1;
    DivModUnique(n, 1, n, 0);
  }

  /** A fixed quantity scale only refuses other scales. */
  lemma FixedScale(rate: Rate, quantity: int, scale: int)
    ensures var free := rate.(quantityScale := None);
            if rate.quantityScale == None || rate.quantityScale == Some(scale) then
              && PriceSubtotal(rate, quantity, scale) == PriceSubtotal(free, quantity, scale)
              && PriceUsage(rate, quantity, scale) == PriceUsage(free, quantity, scale)
            else PriceSubtotal(rate, quantity, scale).Err? && PriceUsage(rate, quantity, scale).Err?
  {
    hide RoundedInt64;
  }
}
