/** Line discounts, the global discount and the document totals. Quantities,
    prices and percentages are exact reals; amounts are whole pesos. */
module DiscountEngine {
  import opened Wrappers
  import opened Rounding

  datatype LineItem = LineItem(name: string, quantity: real, price: real, exempt: bool,
                               discountPercentage: Option<real>, discountAmount: Option<real>)

  datatype LineResult = LineResult(grossAmount: int, discountAmount: int, netAmount: int,
                                   isPercentage: bool, percentage: Option<real>)

  datatype PricingMode = Gross | Net

  datatype Totals = Totals(netAmount: int, exemptAmount: int, ivaAmount: int, totalAmount: int,
                           globalDiscountAmount: Option<int>, retentionAmount: Option<int>)

  datatype EngineError = BothDiscounts | PercentageOutOfRange | TooManyDecimals | DiscountAboveGross | UnsupportedType

  const IVA_RATE: real := 0.19

  predicate Given(x: Option<real>) {
    x.Some? && x.value != 0.0
  }

  /** At most two decimals, up to the tolerance of 1e-8 on the scaled value. */
  predicate TwoDecimals(pct: real) {
    var scaled := pct * 100.0;
    var gap := scaled - Round(scaled) as real;
    -0.00000001 <= gap <= 0.00000001
  }

  function PercentOf(amount: int, pct: real): int {
    Round(amount as real * pct / 100.0)
  }

  function ApplyItemDiscount(item: LineItem): Result<LineResult, EngineError> {
    DiscountLine(Round(item.quantity * item.price), item.discountPercentage, item.discountAmount)
  }

  function DiscountLine(gross: int, percentage: Option<real>, amount: Option<real>): Result<LineResult, EngineError> {
    if Given(percentage) && Given(amount) then Err(BothDiscounts)
    else if Given(percentage) then
      var pct := percentage.value;
      if pct < 0.0 || pct > 100.0 then Err(PercentageOutOfRange)
      else if !TwoDecimals(pct) then Err(TooManyDecimals)
      else
        var d := PercentOf(gross, pct);
        Ok(LineResult(gross, d, gross - d, true, Some(pct)))
    else if Given(amount) then
      var d := Round(amount.value);
      if d > gross then Err(DiscountAboveGross)
      else Ok(LineResult(gross, d, gross - d, false, None))
    else Ok(LineResult(gross, 0, gross, false, None))
  }

  /** Discount taken off the affected net amount, and what is left. */
  function ApplyGlobalDiscount(net: int, pct: real): Result<(int, int), EngineError> {
    if pct < 0.0 || pct > 100.0 then Err(PercentageOutOfRange)
    else if !TwoDecimals(pct) then Err(TooManyDecimals)
    else if pct == 0.0 then Ok((0, net))
    else
      var d := PercentOf(net, pct);
      Ok((d, net - d))
  }

  predicate ExemptOnly(typ: int) { typ == 34 || typ == 41 }

  /** Net part of an amount that includes the tax. */
  function NetOfGross(amount: int): int {
    Round(amount as real / (1.0 + IVA_RATE))
  }

  function CalculateVat(net: int): int {
    Round(net as real * IVA_RATE)
  }

  /** Affected and exempt contribution of one line. */
  function LineShares(typ: int, mode: Option<PricingMode>, item: LineItem): Result<(int, int), EngineError> {
    match ApplyItemDiscount(item)
    case Err(e) => Err(e)
    case Ok(line) =>
      if ExemptOnly(typ) || item.exempt then Ok((0, line.netAmount))
      else if mode == Some(Gross) then Ok((NetOfGross(line.netAmount), 0))
      else Ok((line.netAmount, 0))
  }

  /** Sums of both categories over all lines; the first failing line decides the error. */
  function Shares(typ: int, mode: Option<PricingMode>, items: seq<LineItem>): Result<(int, int), EngineError> {
    if items == [] then Ok((0, 0))
    else
      match Shares(typ, mode, items[..|items| - 1])
      case Err(e) => Err(e)
      case Ok(sum) =>
        match LineShares(typ, mode, items[|items| - 1])
        case Err(e) => Err(e)
        case Ok(share) => Ok((sum.0 + share.0, sum.1 + share.1))
  }

  function WithTax(net: int, exempt: int, discount: int): Totals {
    var iva := CalculateVat(net);
    Totals(net, exempt, iva, net + exempt + iva, if discount > 0 then Some(discount) else None, None)
  }

  function TotalsOf(typ: int, items: seq<LineItem>, pct: Option<real>, mode: Option<PricingMode>)
    : Result<Totals, EngineError>
  {
    match Shares(typ, mode, items)
    case Err(e) => Err(e)
    case Ok((net, exempt)) =>
      if pct.Some? && pct.value > 0.0 && net > 0 then
        match ApplyGlobalDiscount(net, pct.value)
        case Err(e) => Err(e)
        case Ok((discount, left)) => Ok(WithTax(left, exempt, discount))
      else Ok(WithTax(net, exempt, 0))
  }

  method CalculateTotals(typ: int, items: seq<LineItem>, pct: Option<real>, mode: Option<PricingMode>)
    returns (r: Result<Totals, EngineError>)
    ensures r == TotalsOf(typ, items, pct, mode)
  {
    hide Shares, ApplyItemDiscount, ApplyGlobalDiscount, NetOfGross, CalculateVat;
    NoShares(typ, mode, items);
    var netAmount, exemptAmount := 0, 0;
    var i := 0;
    while i < |items|
      invariant 0 <= i <= |items|
      invariant Shares(typ, mode, items[..i]) == Ok((netAmount, exemptAmount))
    {
      var item := items[i];
      SharesNext(typ, mode, items, i);
      var line := ApplyItemDiscount(item);
      if line.Err? {
        SharesFail(typ, mode, items, i, line.error);
        return Err(line.error);
      }
      if ExemptOnly(typ) || item.exempt {
        exemptAmount := exemptAmount + line.value.netAmount;
      } else if mode == Some(Gross) {
        netAmount := netAmount + NetOfGross(line.value.netAmount);
      } else {
        netAmount := netAmount + line.value.netAmount;
      }
      i := i + 1;
    }
    assert items[..|items|] == items;
    var globalDiscountAmount := 0;
    if pct.Some? && pct.value > 0.0 && netAmount > 0 {
      var g := ApplyGlobalDiscount(netAmount, pct.value);
      if g.Err? {
        return Err(g.error);
      }
      globalDiscountAmount, netAmount := g.value.0, g.value.1;
    }
    var ivaAmount := CalculateVat(netAmount);
    var totalAmount := netAmount + exemptAmount + ivaAmount;
    r := Ok(Totals(netAmount, exemptAmount, ivaAmount, totalAmount,
                   if globalDiscountAmount > 0 then Some(globalDiscountAmount) else None, None));
  }

  lemma NoShares(typ: int, mode: Option<PricingMode>, items: seq<LineItem>)
    ensures Shares(typ, mode, items[..0]) == Ok((0, 0))
  {}

  lemma SharesNext(typ: int, mode: Option<PricingMode>, items: seq<LineItem>, i: nat)
    requires i < |items| && Shares(typ, mode, items[..i]).Ok?
    ensures Shares(typ, mode, items[..i + 1]) ==
            match LineShares(typ, mode, items[i])
            case Err(e) => Err(e)
            case Ok(share) =>
              Ok((Shares(typ, mode, items[..i]).value.0 + share.0, Shares(typ, mode, items[..i]).value.1 + share.1))
  {
    assert items[..i + 1][..i] == items[..i];
  }

  lemma {:induction false} SharesFail(typ: int, mode: Option<PricingMode>, items: seq<LineItem>, i: nat, e: EngineError)
    requires i < |items| && Shares(typ, mode, items[..i]).Ok? && ApplyItemDiscount(items[i]) == Err(e)
    ensures Shares(typ, mode, items) == Err(e)
    decreases |items|
  {
    if i < |items| - 1 {
      var init := items[..|items| - 1];
      assert init[..i] == items[..i];
      SharesFail(typ, mode, init, i, e);
    }
  }

  // ------------------------------------------------------------ line bounds

  /** What the payload validation and the API's DTO guarantee of a line. */
  predicate Sane(item: LineItem) {
    && item.quantity >= 0.0 && item.price >= 0.0
    && (item.discountAmount.Some? ==> item.discountAmount.value >= 0.0)
  }

  lemma ProductMonotone(x: real, p: real, q: real)
    requires x >= 0.0 && p <= q
    ensures x * p <= x * q
  {}

  lemma PercentMonotone(amount: int, p: real, q: real)
    requires amount >= 0 && p <= q
    ensures PercentOf(amount, p) <= PercentOf(amount, q)
  {
    ProductMonotone(amount as real, p, q);
    RoundMonotone(amount as real * p / 100.0, amount as real * q / 100.0);
  }

  lemma DiscountBounds(amount: int, pct: real)
    requires amount >= 0 && 0.0 <= pct <= 100.0
    ensures 0 <= PercentOf(amount, pct) <= amount && PercentOf(amount, 0.0) == 0
  {
    PercentMonotone(amount, 0.0, pct);
    PercentMonotone(amount, pct, 100.0);
    assert amount as real * 100.0 / 100.0 == amount as real;
    RoundInt(amount);
  }

  lemma DiscountedBetween(gross: int, percentage: Option<real>, amount: Option<real>)
    requires gross >= 0 && DiscountLine(gross, percentage, amount).Ok?
    requires amount.Some? ==> amount.value >= 0.0
    ensures var line := DiscountLine(gross, percentage, amount).value;
            0 <= line.netAmount <= line.grossAmount == gross && line.netAmount + line.discountAmount == gross
  {
    if Given(percentage) {
      DiscountBounds(gross, percentage.value);
    } else if Given(amount) {
      RoundMonotone(0.0, amount.value);
    }
  }

  lemma GrossNonNegative(quantity: real, price: real)
    requires quantity >= 0.0 && price >= 0.0
    ensures Round(quantity * price) >= 0
  {
    assert quantity * price >= 0.0;
  }

  /** The discounted amount of a valid line lies between zero and its gross. */
  lemma LineBetweenZeroAndGross(item: LineItem)
    requires Sane(item) && ApplyItemDiscount(item).Ok?
    ensures var line := ApplyItemDiscount(item).value;
            0 <= line.netAmount <= line.grossAmount && line.netAmount + line.discountAmount == line.grossAmount
  {
    GrossNonNegative(item.quantity, item.price);
    DiscountedBetween(Round(item.quantity * item.price), item.discountPercentage, item.discountAmount);
  }

  lemma PartsNonNegative(amount: int)
    requires amount >= 0
    ensures NetOfGross(amount) >= 0 && CalculateVat(amount) >= 0 && CalculateVat(0) == 0
  {
    assert amount as real / 1.19 >= 0.0;
    RoundMonotone(0.0, amount as real / (1.0 + IVA_RATE));
    RoundMonotone(0.0, amount as real * IVA_RATE);
  }

  lemma {:induction false} SharesNonNegative(typ: int, mode: Option<PricingMode>, items: seq<LineItem>)
    requires forall i :: 0 <= i < |items| ==> Sane(items[i])
    requires Shares(typ, mode, items).Ok?
    ensures Shares(typ, mode, items).value.0 >= 0 && Shares(typ, mode, items).value.1 >= 0
  {
    if items != [] {
      SharesNonNegative(typ, mode, items[..|items| - 1]);
      var last := items[|items| - 1];
      LineBetweenZeroAndGross(last);
      PartsNonNegative(ApplyItemDiscount(last).value.netAmount);
    }
  }

  lemma TotalsNonNegative(typ: int, items: seq<LineItem>, pct: Option<real>, mode: Option<PricingMode>)
    requires forall i :: 0 <= i < |items| ==> Sane(items[i])
    requires TotalsOf(typ, items, pct, mode).Ok?
    ensures var t := TotalsOf(typ, items, pct, mode).value;
            t.netAmount >= 0 && t.exemptAmount >= 0 && t.ivaAmount >= 0 && (t.netAmount == 0 ==> t.ivaAmount == 0)
  {
    SharesNonNegative(typ, mode, items);
    var net := Shares(typ, mode, items).value.0;
    if pct.Some? && pct.value > 0.0 && net > 0 {
      DiscountBounds(net, pct.value);
    }
    PartsNonNegative(TotalsOf(typ, items, pct, mode).value.netAmount);
  }

  // ------------------------------------------------------- order of the lines

  lemma {:induction false} SharesWithout(typ: int, mode: Option<PricingMode>, items: seq<LineItem>, k: nat)
    requires k < |items|
    ensures var rest := items[..k] + items[k + 1..];
            && (Shares(typ, mode, items).Ok? <==> Shares(typ, mode, rest).Ok? && LineShares(typ, mode, items[k]).Ok?)
            && (Shares(typ, mode, items).Ok? ==>
                && Shares(typ, mode, items).value.0
                     == Shares(typ, mode, rest).value.0 + LineShares(typ, mode, items[k]).value.0
                && Shares(typ, mode, items).value.1
                     == Shares(typ, mode, rest).value.1 + LineShares(typ, mode, items[k]).value.1)
    decreases |items|
  {
    hide LineShares;
    var rest := items[..k] + items[k + 1..];
    if k == |items| - 1 {
      assert rest == items[..|items| - 1];
    } else {
      var init := items[..|items| - 1];
      SharesWithout(typ, mode, init, k);
      assert rest[..|rest| - 1] == init[..k] + init[k + 1..];
      assert rest[|rest| - 1] == items[|items| - 1];
    }
  }

  lemma MatchLast(a: seq<LineItem>, b: seq<LineItem>) returns (k: nat)
    requires a != [] && multiset(a) == multiset(b)
    ensures k < |b| && b[k] == a[|a| - 1]
    ensures multiset(b[..k] + b[k + 1..]) == multiset(a[..|a| - 1])
  {
    var x, init := a[|a| - 1], a[..|a| - 1];
    assert a == init + [x];
    assert x in multiset(b);
    k :| 0 <= k < |b| && b[k] == x;
    assert b == b[..k] + [x] + b[k + 1..];
    assert multiset(b) == multiset(b[..k]) + multiset{x} + multiset(b[k + 1..]);
    assert multiset(a) == multiset(init) + multiset{x};
    assert multiset(b[..k] + b[k + 1..]) == multiset(b) - multiset{x};
  }

  lemma {:induction false} SharesPermuted(typ: int, mode: Option<PricingMode>, a: seq<LineItem>, b: seq<LineItem>)
    requires multiset(a) == multiset(b)
    requires Shares(typ, mode, a).Ok?
    ensures Shares(typ, mode, b) == Shares(typ, mode, a)
    decreases |a|
  {
    if a == [] {
      assert |multiset(b)| == 0;
    } else {
      var k := MatchLast(a, b);
      SharesPermuted(typ, mode, a[..|a| - 1], b[..k] + b[k + 1..]);
      SharesWithout(typ, mode, b, k);
    }
  }

  /** Reordering the lines changes no total. */
  lemma TotalsPermuted(typ: int, a: seq<LineItem>, b: seq<LineItem>, pct: Option<real>, mode: Option<PricingMode>)
    requires multiset(a) == multiset(b)
    ensures TotalsOf(typ, a, pct, mode).Ok? ==> TotalsOf(typ, b, pct, mode) == TotalsOf(typ, a, pct, mode)
  {
    if Shares(typ, mode, a).Ok? { SharesPermuted(typ, mode, a, b); }
  }

  // --------------------------------------------------------- global discount

  function Percent(pct: Option<real>): real {
    if pct.Some? && pct.value > 0.0 then pct.value else 0.0
  }

  lemma TaxMonotone(n: int, m: int)
    requires n <= m
    ensures CalculateVat(n) <= CalculateVat(m)
  {
    RoundMonotone(n as real * IVA_RATE, m as real * IVA_RATE);
  }

  /** A larger global discount never raises net, IVA or total, and leaves the exempt amount alone. */
  lemma DiscountNeverRaises(typ: int, items: seq<LineItem>, p: Option<real>, q: Option<real>, mode: Option<PricingMode>)
    requires forall i :: 0 <= i < |items| ==> Sane(items[i])
    requires Percent(p) <= Percent(q)
    requires TotalsOf(typ, items, p, mode).Ok? && TotalsOf(typ, items, q, mode).Ok?
    ensures var a, b := TotalsOf(typ, items, p, mode).value, TotalsOf(typ, items, q, mode).value;
            && b.netAmount <= a.netAmount && b.ivaAmount <= a.ivaAmount && b.totalAmount <= a.totalAmount
            && b.exemptAmount == a.exemptAmount
  {
    SharesNonNegative(typ, mode, items);
    var net := Shares(typ, mode, items).value.0;
    PercentMonotone(net, Percent(p), Percent(q));
    DiscountBounds(net, 0.0);
    var a, b := TotalsOf(typ, items, p, mode).value, TotalsOf(typ, items, q, mode).value;
    TaxMonotone(b.netAmount, a.netAmount);
  }

  // ---------------------------------------------------------- gross pricing

  /** Sum of the discounted line amounts. */
  function LineSum(items: seq<LineItem>): int {
    if items == [] then 0
    else LineSum(items[..|items| - 1])
         + (match ApplyItemDiscount(items[|items| - 1]) case Ok(line) => line.netAmount case Err(_) => 0)
  }

  function AffectedCount(items: seq<LineItem>): nat {
    if items == [] then 0
    else AffectedCount(items[..|items| - 1]) + (if items[|items| - 1].exempt then 0 else 1)
  }

  lemma GrossLineError(amount: int)
    ensures var n := NetOfGross(amount); -59 <= 119 * n - 100 * amount <= 59
  {
    var x := amount as real / (1.0 + IVA_RATE);
    var n := Round(x);
    RoundNear(x);
    assert 1.19 * x == amount as real;
    assert 119.0 * x == 100.0 * amount as real;
    assert 119.0 * (x - 0.5) < 119.0 * n as real <= 119.0 * (x + 0.5);
    assert (119 * n) as real == 119.0 * n as real;
    assert (119 * n - 100 * amount) as real <= 59.5;
    assert (119 * n - 100 * amount) as real > -59.5;
  }

  lemma {:induction false} GrossSharesError(typ: int, items: seq<LineItem>)
    requires !ExemptOnly(typ) && Shares(typ, Some(Gross), items).Ok?
    ensures var (net, exempt) := Shares(typ, Some(Gross), items).value;
            Abs(119 * net + 100 * exempt - 100 * LineSum(items)) <= 59 * AffectedCount(items)
  {
    if items != [] {
      var last := items[|items| - 1];
      GrossSharesError(typ, items[..|items| - 1]);
      GrossLineError(ApplyItemDiscount(last).value.netAmount);
    }
  }

  lemma TaxError(net: int)
    ensures -50 <= 100 * CalculateVat(net) - 19 * net <= 50
  {
    RoundNear(net as real * IVA_RATE);
    var r := Round(net as real * IVA_RATE);
    assert (100 * r - 19 * net) as real == 100.0 * r as real - 19.0 * net as real;
  }

  /** Prices with tax included, no global discount: the total misses the sum of
      the discounted lines by d with 100·|d| <= 59·n + 50, n the affected lines. */
  lemma GrossTotalError(typ: int, items: seq<LineItem>, pct: Option<real>)
    requires !ExemptOnly(typ) && Percent(pct) == 0.0
    requires TotalsOf(typ, items, pct, Some(Gross)).Ok?
    ensures var d := TotalsOf(typ, items, pct, Some(Gross)).value.totalAmount - LineSum(items);
            && 100 * Abs(d) <= 59 * AffectedCount(items) + 50
            && (AffectedCount(items) <= 1 ==> Abs(d) <= 1)
            && (AffectedCount(items) == 0 ==> d == 0)
  {
    GrossSharesError(typ, items);
    TaxError(Shares(typ, Some(Gross), items).value.0);
  }

  /** One peso off is possible with a single line, so the bound for one line is tight. */
  lemma GrossOffByOne()
    ensures exists item: LineItem ::
      TotalsOf(39, [item], None, Some(Gross)).Ok? &&
      Abs(TotalsOf(39, [item], None, Some(Gross)).value.totalAmount - LineSum([item])) == 1
  {
    var item := LineItem("x", 1.0, 3.0, false, None, None);
    assert Round(1.0 * 3.0) == 3;
    assert ApplyItemDiscount(item) == Ok(LineResult(3, 0, 3, false, None));
    assert Round(3.0 / 1.19) == 3;
    assert Round(3.0 * 0.19) == 1;
    assert [item][..0] == [];
    assert Shares(39, Some(Gross), [item]) == Ok((3, 0));
    assert LineSum([item]) == 3;
  }
}
