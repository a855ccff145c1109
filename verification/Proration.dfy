/** Money arithmetic of the billing engine (internal/billing/engine.go): rounding, proration, tax and
    the mid-cycle plan-change quote. Amounts are whole rupiah; percentages are exact fractions. */
module Proration {

  /** `num / den` percent. */
  datatype Rate = Rate(num: nat, den: nat)

  predicate IsRate(r: Rate) {
    0 < r.den
  }

  /** `math.Round(num / den)`: nearest integer, halves away from zero. */
  function Round(num: int, den: int): int
    requires 0 < den
  {
    if 0 <= num then (2 * num + den) / (2 * den) else -((den - 2 * num) / (2 * den))
  }

  function PercentOf(amount: int, rate: Rate): int
    requires IsRate(rate)
  {
    Round(amount * rate.num, 100 * rate.den)
  }

  function ProrateAmount(fullPrice: int, daysUsed: int, daysInPeriod: int): int {
    if daysInPeriod <= 0 then fullPrice else Round(fullPrice * daysUsed, daysInPeriod)
  }

  function ApplyLateFee(amount: int, rate: Rate): int
    requires IsRate(rate)
  {
    if amount <= 0 || rate.num == 0 then 0 else PercentOf(amount, rate)
  }

  /** Subtotal and tax of a routine invoice. */
  function CalculateInvoiceAmount(price: int, tax: Rate, prorateDays: int, totalDays: int): (int, int)
    requires IsRate(tax)
  {
    var subtotal := if 0 < prorateDays < totalDays then Round(price * prorateDays, totalDays) else price;
    (subtotal, PercentOf(subtotal, tax))
  }

  // ----- What rounding is -----

  lemma Factor(x: int, den: int)
    requires 0 < den
    ensures x * den < den <==> x <= 0
    ensures -den < x * den <==> 0 <= x
    ensures x * den <= den <==> x <= 1
  {
    if x < 0 {
      assert (-x - 1) * den >= 0;
    } else if 0 < x {
      assert (x - 1) * den >= 0;
      if 1 < x {
        assert (x - 2) * den >= 0;
      }
    }
  }

  /** The result is within one half of the quotient, and exact halves go away from zero. */
  lemma RoundIsNearest(num: int, den: int)
    requires 0 < den
    ensures var r := Round(num, den);
            && -den <= 2 * (r * den - num) <= den
            && (2 * (r * den - num) == -den ==> num < 0)
            && (2 * (r * den - num) == den ==> 0 < num)
  {
    if 0 <= num {
      HalvesUp(num, den);
    } else {
      HalvesUp(-num, den);
      var q := (den - 2 * num) / (2 * den);
      assert (-q) * den == -(q * den);
    }
  }

  lemma HalvesUp(num: int, den: int)
    requires 0 <= num && 0 < den
    ensures var q := (2 * num + den) / (2 * den);
            -den < 2 * (q * den - num) <= den && (2 * (q * den - num) == den ==> 0 < num)
  {
    var top, unit := 2 * num + den, 2 * den;
    var q := top / unit;
    assert q * unit <= top < q * unit + unit;
    assert q * unit == 2 * (q * den);
    if num == 0 {
      assert q == 0;
    }
  }

  lemma RoundUnique(num: int, den: int, r: int)
    requires 0 < den
    requires -den < 2 * (r * den - num) < den
    ensures Round(num, den) == r
  {
    RoundIsNearest(num, den);
    var s := Round(num, den);
    assert (s - r) * den == s * den - r * den;
    Factor(s - r, den);
  }

  lemma RoundMonotone(a: int, b: int, den: int)
    requires 0 < den && a <= b
    ensures Round(a, den) <= Round(b, den)
  {
    if a < b {
      RoundIsNearest(a, den);
      RoundIsNearest(b, den);
      var r, s := Round(a, den), Round(b, den);
      assert (r - s) * den == r * den - s * den;
      Factor(r - s, den);
    }
  }

  lemma RoundExact(k: int, den: int)
    requires 0 < den
    ensures Round(k * den, den) == k
  {
    RoundUnique(k * den, den, k);
  }

  lemma TaxMonotone(a: int, b: int, rate: Rate)
    requires IsRate(rate) && a <= b
    ensures PercentOf(a, rate) <= PercentOf(b, rate)
    ensures PercentOf(0, rate) == 0
  {
    assert (b - a) * rate.num >= 0;
    assert b * rate.num - a * rate.num == (b - a) * rate.num;
    RoundMonotone(a * rate.num, b * rate.num, 100 * rate.den);
    RoundExact(0, 100 * rate.den);
  }

  // ----- Proration -----

  /** A prorated price and a percentage are right to the nearest rupiah; without a period the price is full. */
  lemma NearestRupiah(price: int, days: int, period: int, rate: Rate)
    requires IsRate(rate)
    ensures 0 < period ==> -period <= 2 * (ProrateAmount(price, days, period) * period - price * days) <= period
    ensures period <= 0 ==> ProrateAmount(price, days, period) == price
    ensures var unit := 100 * rate.den;
            -unit <= 2 * (PercentOf(price, rate) * unit - price * rate.num) <= unit
    ensures ApplyLateFee(price, rate) == if 0 < price then PercentOf(price, rate) else 0
  {
    if 0 < period {
      RoundIsNearest(price * days, period);
    }
    RoundIsNearest(price * rate.num, 100 * rate.den);
    RoundExact(0, 100 * rate.den);
    hide Round;
  }

  /** A part of a period costs between nothing and the full price, and never less than a smaller
      part or a cheaper plan. */
  lemma ProrationIsMonotone(price: int, price': int, days: int, days': int, period: int)
    requires 0 < period && 0 <= price <= price' && 0 <= days <= days' <= period
    ensures 0 <= ProrateAmount(price, days, period) <= ProrateAmount(price', days', period) <= price'
  {
    hide Round;
    ProductGrows(0, price, days, days);
    ProductGrows(price, price', days, days');
    ProductGrows(price', price', days', period);
    RoundExact(0, period);
    RoundExact(price', period);
    RoundMonotone(0, price * days, period);
    RoundMonotone(price * days, price' * days', period);
    RoundMonotone(price' * days', price' * period, period);
  }

  lemma ProductGrows(a: int, b: int, x: int, y: int)
    requires 0 <= a <= b && 0 <= x <= y
    ensures 0 <= a * x <= b * y
  {
    assert a * (y - x) >= 0 && (b - a) * y >= 0 && a * x >= 0;
    assert b * y - a * x == (b - a) * y + a * (y - x);
  }

  /** Splitting a period charges the price, or one rupiah more when both halves round up. */
  lemma PartsMakeTheWhole(price: int, days: int, period: int)
    requires 0 < period && 0 <= price && 0 <= days <= period
    ensures var sum := ProrateAmount(price, days, period) + ProrateAmount(price, period - days, period);
            sum == if 2 * ((price * days) % period) == period then price + 1 else price
  {
    var a, b := price * days, price * (period - days);
    var q, rem := a / period, a % period;
    ProductSigns(price, days, period);
    assert a == q * period + rem;
    assert (q + 1) * period == q * period + period;
    assert (price - q) * period == price * period - q * period;
    assert (price - q - 1) * period == price * period - q * period - period;
    RoundNonNegative(a, period, q);
    if rem == 0 {
      RoundNonNegative(b, period, price - q);
    } else {
      RoundNonNegative(b, period, price - q - 1);
    }
  }

  lemma ProductSigns(price: int, days: int, period: int)
    requires 0 <= price && 0 <= days <= period
    ensures 0 <= price * days && 0 <= price * (period - days)
    ensures price * (period - days) == price * period - price * days
  {
  }

  /** Rounding a non-negative quotient of which the integer part is known. */
  lemma RoundNonNegative(num: int, den: int, floor: int)
    requires 0 < den && 0 <= num && floor * den <= num < floor * den + den
    ensures Round(num, den) == if 2 * (num - floor * den) < den then floor else floor + 1
  {
    assert (floor + 1) * den == floor * den + den;
    if 2 * (num - floor * den) < den {
      RoundUnique(num, den, floor);
    } else if 2 * (num - floor * den) > den {
      RoundUnique(num, den, floor + 1);
    } else {
      var r := Round(num, den);
      RoundIsNearest(num, den);
      assert (r - floor) * den == r * den - floor * den;
      Factor(r - floor, den);
    }
  }

  /** Invoicing `days` of `period` charges exactly the prorated amount, and the full price otherwise. */
  lemma InvoiceAmountIsProration(price: int, tax: Rate, days: int, period: int)
    requires IsRate(tax)
    ensures var (subtotal, _) := CalculateInvoiceAmount(price, tax, days, period);
            subtotal == if 1 <= days <= period then ProrateAmount(price, days, period) else price
  {
    if 1 <= days == period {
      RoundExact(price, period);
    }
  }

  // ----- Mid-cycle plan changes -----

  const SECONDS_PER_DAY: int := 86400

  datatype Speed = Speed(download: int, upload: int)

  datatype Direction = Upgrade | Downgrade | Same

  datatype Quote = Quote(remaining: int, oldCredit: int, newCharge: int, delta: int, tax: int, total: int,
                         requiresCharge: bool, direction: Direction)

  function DaysInBillingCycle(cycle: string): int {
    if cycle == "daily" then 1 else if cycle == "weekly" then 7 else if cycle == "yearly" then 365 else 30
  }

  /** Download decides, upload breaks ties; the price plays no part. */
  function PlanChangeDirection(current: Speed, wanted: Speed): Direction {
    if wanted.download > current.download then Upgrade
    else if wanted.download < current.download then Downgrade
    else if wanted.upload > current.upload then Upgrade
    else if wanted.upload < current.upload then Downgrade
    else Same
  }

  /** Started days between two instants given in seconds, capped at the cycle. */
  function RemainingDaysUntil(now: int, until: int, cycleDays: int): int {
    if until <= now then 0
    else
      var days := (until - now + SECONDS_PER_DAY - 1) / SECONDS_PER_DAY;
      if 0 < cycleDays < days then cycleDays else days
  }

  function QuotePlanChange(oldPrice: int, newPrice: int, remaining: int, cycleDays: int, tax: Rate,
                           oldSpeed: Speed, newSpeed: Speed): Quote
    requires IsRate(tax)
  {
    var direction := PlanChangeDirection(oldSpeed, newSpeed);
    if remaining <= 0 then Quote(remaining, 0, 0, 0, 0, 0, false, direction)
    else
      var oldCredit := ProrateAmount(oldPrice, remaining, cycleDays);
      var newCharge := ProrateAmount(newPrice, remaining, cycleDays);
      var delta := newCharge - oldCredit;
      if delta <= 0 then Quote(remaining, oldCredit, newCharge, delta, 0, 0, false, direction)
      else
        var taxAmount := PercentOf(delta, tax);
        Quote(remaining, oldCredit, newCharge, delta, taxAmount, delta + taxAmount, true, direction)
  }

  /** Up is more download, or as much download and more upload. */
  lemma WhichWayIsUp(p: int, q: int, remaining: int, cycleDays: int, tax: Rate, from: Speed, to: Speed)
    requires IsRate(tax)
    ensures var faster := from.download < to.download || (from.download == to.download && from.upload < to.upload);
            var slower := to.download < from.download || (from.download == to.download && to.upload < from.upload);
            QuotePlanChange(p, q, remaining, cycleDays, tax, from, to).direction
            == if faster then Upgrade else if slower then Downgrade else Same
  {
  }

  /** What a quote charges, to the nearest rupiah: for the remaining part of the cycle, the new price less the
      old one, and the tax on that when it is positive; nothing once no day remains. */
  lemma WhatAQuoteCharges(p: int, q: int, remaining: int, cycleDays: int, tax: Rate, from: Speed, to: Speed)
    requires IsRate(tax) && 0 < cycleDays
    ensures var quote := QuotePlanChange(p, q, remaining, cycleDays, tax, from, to);
            && quote.remaining == remaining
            && (remaining <= 0 ==> quote.oldCredit == 0 && quote.newCharge == 0 && quote.delta == 0)
            && (remaining <= 0 || quote.delta <= 0 ==> quote.tax == 0 && quote.total == 0 && !quote.requiresCharge)
            && (0 < remaining ==>
                  && -cycleDays <= 2 * (quote.oldCredit * cycleDays - p * remaining) <= cycleDays
                  && -cycleDays <= 2 * (quote.newCharge * cycleDays - q * remaining) <= cycleDays
                  && quote.delta == quote.newCharge - quote.oldCredit
                  && (quote.requiresCharge <==> 0 < quote.delta)
                  && (0 < quote.delta ==>
                        && quote.total == quote.delta + quote.tax
                        && var unit := 100 * tax.den;
                           -unit <= 2 * (quote.tax * unit - quote.delta * tax.num) <= unit))
  {
    RoundIsNearest(p * remaining, cycleDays);
    RoundIsNearest(q * remaining, cycleDays);
    var quote := QuotePlanChange(p, q, remaining, cycleDays, tax, from, to);
    RoundIsNearest(quote.delta * tax.num, 100 * tax.den);
    hide Round;
  }

  /** The lengths of the cycles, in days. */
  lemma CycleLengths(cycle: string)
    ensures cycle == "daily" ==> DaysInBillingCycle(cycle) == 1
    ensures cycle == "weekly" ==> DaysInBillingCycle(cycle) == 7
    ensures cycle == "yearly" ==> DaysInBillingCycle(cycle) == 365
    ensures cycle !in {"daily", "weekly", "yearly"} ==> DaysInBillingCycle(cycle) == 30
  {
    assert "daily" != "weekly" && "daily" != "yearly";
    assert "weekly"[0] != "yearly"[0];
  }

  /** The day count is the least whole number of days that reaches `until`, within the cycle. */
  lemma RemainingDaysCover(now: int, until: int, cycleDays: int)
    requires 0 < cycleDays
    ensures var days := RemainingDaysUntil(now, until, cycleDays);
            && 0 <= days <= cycleDays
            && (days == 0 <==> until <= now)
            && (days < cycleDays ==> until <= now + days * 86400)
            && (0 < days ==> now + (days - 1) * 86400 < until)
  {
  }

  /** A charge is asked exactly when the prorated prices differ upwards; it covers the difference
      and its tax, and swapping the plans swaps credit and charge and reverses the direction. */
  lemma QuoteIsAntisymmetric(p: int, q: int, remaining: int, cycleDays: int, tax: Rate, a: Speed, b: Speed)
    requires IsRate(tax)
    ensures var there := QuotePlanChange(p, q, remaining, cycleDays, tax, a, b);
            var back := QuotePlanChange(q, p, remaining, cycleDays, tax, b, a);
            && there.delta == there.newCharge - there.oldCredit == -back.delta
            && (there.requiresCharge <==> 0 < there.delta)
            && there.total == (if 0 < there.delta then there.delta + there.tax else 0)
            && (0 < there.delta ==> there.delta <= there.total && !back.requiresCharge)
            && (there.direction == Upgrade <==> back.direction == Downgrade)
  {
    var there := QuotePlanChange(p, q, remaining, cycleDays, tax, a, b);
    if 0 < there.delta {
      TaxMonotone(0, there.delta, tax);
    }
  }

  /** What a chain of changes through the listed prices charges before tax: no refunds. */
  function ChainSubtotal(prices: seq<int>, remaining: int, cycleDays: int): int {
    if |prices| < 2 then 0
    else
      var delta := ProrateAmount(prices[1], remaining, cycleDays) - ProrateAmount(prices[0], remaining, cycleDays);
      (if delta > 0 then delta else 0) + ChainSubtotal(prices[1..], remaining, cycleDays)
  }

  function ChainTotal(prices: seq<int>, remaining: int, cycleDays: int, tax: Rate): int
    requires IsRate(tax)
  {
    if |prices| < 2 then 0
    else
      var zero := Speed(0, 0);
      QuotePlanChange(prices[0], prices[1], remaining, cycleDays, tax, zero, zero).total
      + ChainTotal(prices[1..], remaining, cycleDays, tax)
  }

  /** Before tax, no chain of changes at one moment is cheaper than the direct change. */
  lemma {:induction false} ChainIsNeverCheaper(prices: seq<int>, remaining: int, cycleDays: int)
    requires |prices| >= 2
    ensures ProrateAmount(prices[|prices| - 1], remaining, cycleDays) - ProrateAmount(prices[0], remaining, cycleDays)
         <= ChainSubtotal(prices, remaining, cycleDays)
    ensures 0 <= ChainSubtotal(prices, remaining, cycleDays)
  {
    if |prices| > 2 {
      ChainIsNeverCheaper(prices[1..], remaining, cycleDays);
    } else {
      assert ChainSubtotal(prices[1..], remaining, cycleDays) == 0;
    }
  }

  /** With tax, each separate rounding may lose half a rupiah: the direct change costs at most
      (steps + 1) / 2 more than the chain. */
  lemma ChainTotalWithinRounding(prices: seq<int>, remaining: int, cycleDays: int, tax: Rate)
    requires |prices| >= 2 && 0 < remaining && IsRate(tax)
    ensures var zero := Speed(0, 0);
            var direct := QuotePlanChange(prices[0], prices[|prices| - 1], remaining, cycleDays, tax, zero, zero).total;
            2 * (direct - ChainTotal(prices, remaining, cycleDays, tax)) <= |prices|
  {
    var zero := Speed(0, 0);
    var q := QuotePlanChange(prices[0], prices[|prices| - 1], remaining, cycleDays, tax, zero, zero);
    var unit := 100 * tax.den;
    var chain := ChainTotal(prices, remaining, cycleDays, tax);
    var subtotal := ChainSubtotal(prices, remaining, cycleDays);
    ChainIsNeverCheaper(prices, remaining, cycleDays);
    ChainLosesHalvesOnly(prices, remaining, cycleDays, tax);
    var d := if q.delta > 0 then q.delta else 0;
    RoundIsNearest(d * tax.num, unit);
    RoundExact(0, unit);
    assert q.total == d + PercentOf(d, tax);
    DirectScaled(unit, tax.num, d, PercentOf(d, tax), subtotal, chain, |prices|);
  }

  lemma DirectScaled(unit: int, num: nat, d: int, t: int, subtotal: int, chain: int, k: int)
    requires 0 < unit && d <= subtotal
    requires 2 * (t * unit - d * num) <= unit
    requires 2 * ((unit + num) * subtotal) - (k - 1) * unit <= 2 * (unit * chain)
    ensures 2 * (d + t - chain) <= k
  {
    var x := 2 * (d + t - chain) - k;
    assert (unit + num) * (subtotal - d) >= 0;
    assert (unit + num) * (subtotal - d) == (unit + num) * subtotal - unit * d - d * num;
    assert (k - 1) * unit == k * unit - unit;
    assert x * unit == 2 * (unit * d) + 2 * (t * unit) - 2 * (unit * chain) - k * unit;
    Factor(x, unit);
  }

  lemma {:induction false} ChainLosesHalvesOnly(prices: seq<int>, remaining: int, cycleDays: int, tax: Rate)
    requires |prices| >= 1 && 0 < remaining && IsRate(tax)
    ensures var unit := 100 * tax.den;
            2 * ((unit + tax.num) * ChainSubtotal(prices, remaining, cycleDays)) - (|prices| - 1) * unit
              <= 2 * (unit * ChainTotal(prices, remaining, cycleDays, tax))
  {
    var unit := 100 * tax.den;
    if |prices| >= 2 {
      ChainLosesHalvesOnly(prices[1..], remaining, cycleDays, tax);
      var rest := ChainTotal(prices[1..], remaining, cycleDays, tax);
      var restSubtotal := ChainSubtotal(prices[1..], remaining, cycleDays);
      var step := ProrateAmount(prices[1], remaining, cycleDays) - ProrateAmount(prices[0], remaining, cycleDays);
      var d := if step > 0 then step else 0;
      RoundIsNearest(d * tax.num, unit);
      RoundExact(0, unit);
      var t := PercentOf(d, tax);
      assert ChainTotal(prices, remaining, cycleDays, tax) == d + t + rest;
      StepScaled(unit, tax.num, d, t, rest, restSubtotal, |prices| - 1);
    }
  }

  lemma StepScaled(unit: int, num: int, d: int, t: int, rest: int, restSubtotal: int, k: int)
    requires -unit <= 2 * (t * unit - d * num)
    requires 2 * ((unit + num) * restSubtotal) - (k - 1) * unit <= 2 * (unit * rest)
    ensures 2 * ((unit + num) * (d + restSubtotal)) - k * unit <= 2 * (unit * (d + t + rest))
  {
    assert (unit + num) * (d + restSubtotal) == unit * d + d * num + (unit + num) * restSubtotal;
    assert unit * (d + t + rest) == unit * d + t * unit + unit * rest;
    assert k * unit == (k - 1) * unit + unit;
  }

  // ----- When a chain is cheaper than the direct change -----

  /** What a taxed amount leaves over a whole rupiah of tax, in units of 1 / (100 * den). */
  function TaxRest(amount: int, tax: Rate): (rest: int)
    requires IsRate(tax)
    ensures 0 <= rest < 100 * tax.den
  {
    (amount * tax.num) % (100 * tax.den)
  }

  function Step(prices: seq<int>, remaining: int, cycleDays: int): int
    requires |prices| >= 2
  {
    ProrateAmount(prices[1], remaining, cycleDays) - ProrateAmount(prices[0], remaining, cycleDays)
  }

  /** The credit of the downward steps, which is not paid back. */
  function Forfeited(prices: seq<int>, remaining: int, cycleDays: int): nat {
    if |prices| < 2 then 0
    else
      var d := Step(prices, remaining, cycleDays);
      (if d < 0 then -d else 0) + Forfeited(prices[1..], remaining, cycleDays)
  }

  /** The tax rests of the upward steps. */
  function TaxRests(prices: seq<int>, remaining: int, cycleDays: int, tax: Rate): nat
    requires IsRate(tax)
  {
    if |prices| < 2 then 0
    else
      var d := Step(prices, remaining, cycleDays);
      (if d > 0 then TaxRest(d, tax) else 0) + TaxRests(prices[1..], remaining, cycleDays, tax)
  }

  /** How many upward steps have their tax rounded up. */
  function RoundedUp(prices: seq<int>, remaining: int, cycleDays: int, tax: Rate): nat
    requires IsRate(tax)
  {
    if |prices| < 2 then 0
    else
      var d := Step(prices, remaining, cycleDays);
      (if d > 0 && 100 * tax.den <= 2 * TaxRest(d, tax) then 1 else 0)
      + RoundedUp(prices[1..], remaining, cycleDays, tax)
  }

  lemma TaxExact(amount: int, tax: Rate)
    requires IsRate(tax) && 0 <= amount
    ensures var unit := 100 * tax.den;
            var up := if unit <= 2 * TaxRest(amount, tax) then unit else 0;
            unit * PercentOf(amount, tax) == amount * tax.num - TaxRest(amount, tax) + up
    ensures TaxRest(amount, tax) <= amount * tax.num
  {
    var unit, n := 100 * tax.den, amount * tax.num;
    assert 0 <= n;
    RoundedWhole(n, unit, n / unit, n % unit);
  }

  lemma RoundedWhole(n: int, unit: int, floor: int, rest: int)
    requires 0 < unit && 0 <= n && n == floor * unit + rest && 0 <= rest < unit
    ensures unit * Round(n, unit) == n - rest + if unit <= 2 * rest then unit else 0
    ensures rest <= n
  {
    Factor(floor, unit);
    assert 0 <= floor * unit;
    RoundNonNegative(n, unit, floor);
    assert unit * floor == floor * unit && unit * (floor + 1) == floor * unit + unit;
  }

  /** The chain in terms of its upward steps: subtotal, exact tax, minus the rests, plus the roundings. */
  lemma {:induction false} ChainExact(prices: seq<int>, remaining: int, cycleDays: int, tax: Rate)
    requires |prices| >= 1 && 0 < remaining && IsRate(tax)
    ensures var unit := 100 * tax.den;
            var subtotal := ChainSubtotal(prices, remaining, cycleDays);
            && 0 <= subtotal
            && unit * ChainTotal(prices, remaining, cycleDays, tax)
               == unit * subtotal + subtotal * tax.num - TaxRests(prices, remaining, cycleDays, tax)
                  + unit * RoundedUp(prices, remaining, cycleDays, tax)
            && TaxRests(prices, remaining, cycleDays, tax) <= subtotal * tax.num
            && ProrateAmount(prices[|prices| - 1], remaining, cycleDays)
               - ProrateAmount(prices[0], remaining, cycleDays)
               == subtotal - Forfeited(prices, remaining, cycleDays)
  {
    if |prices| >= 2 {
      ChainExact(prices[1..], remaining, cycleDays, tax);
      var d := Step(prices, remaining, cycleDays);
      var up := if d > 0 then d else 0;
      var t := if d > 0 then PercentOf(d, tax) else 0;
      if d > 0 {
        TaxExact(d, tax);
      }
      var rest := ChainTotal(prices[1..], remaining, cycleDays, tax);
      assert ChainTotal(prices, remaining, cycleDays, tax) == up + t + rest;
      AddStep(100 * tax.den, tax.num, up, ChainSubtotal(prices[1..], remaining, cycleDays), t, rest,
              if d > 0 && 100 * tax.den <= 2 * TaxRest(d, tax) then 1 else 0,
              RoundedUp(prices[1..], remaining, cycleDays, tax));
    }
  }

  lemma AddStep(unit: int, num: int, up: int, subtotal: int, t: int, rest: int, r: int, rounded: int)
    ensures unit * (up + t + rest) == unit * up + unit * t + unit * rest
    ensures unit * (up + subtotal) == unit * up + unit * subtotal
    ensures (up + subtotal) * num == up * num + subtotal * num
    ensures unit * (r + rounded) == unit * r + unit * rounded
  {
  }

  lemma RoundAtLeast(num: int, den: int, k: int)
    requires 0 <= num && 0 < den
    ensures k <= Round(num, den) <==> 2 * (k * den) <= 2 * num + den
  {
    var r := Round(num, den);
    var top := 2 * num + den;
    assert r * (2 * den) <= top < r * (2 * den) + 2 * den;
    assert (r - k) * (2 * den) == r * (2 * den) - 2 * (k * den);
    Factor(k - r, 2 * den);
    assert (k - r) * (2 * den) == -((r - k) * (2 * den));
  }

  /** The direct change costs more than the chain exactly when the chain's tax rests, less the tax on what
      its downward steps forfeit, exceed by half a rupiah what it forfeits and rounds up. */
  lemma DirectCostsMoreIff(prices: seq<int>, remaining: int, cycleDays: int, tax: Rate)
    requires |prices| >= 2 && 0 < remaining && IsRate(tax)
    ensures var zero := Speed(0, 0);
            var direct := QuotePlanChange(prices[0], prices[|prices| - 1], remaining, cycleDays, tax, zero, zero).total;
            var lost := Forfeited(prices, remaining, cycleDays);
            ChainTotal(prices, remaining, cycleDays, tax) < direct
            <==> 100 * tax.den * (2 * (lost + RoundedUp(prices, remaining, cycleDays, tax)) + 1)
                 <= 2 * (TaxRests(prices, remaining, cycleDays, tax) - lost * tax.num)
  {
    var unit, num := 100 * tax.den, tax.num;
    var chain, subtotal := ChainTotal(prices, remaining, cycleDays, tax), ChainSubtotal(prices, remaining, cycleDays);
    var lost, up := Forfeited(prices, remaining, cycleDays), RoundedUp(prices, remaining, cycleDays, tax);
    var rests := TaxRests(prices, remaining, cycleDays, tax);
    var d := subtotal - lost;
    ChainExact(prices, remaining, cycleDays, tax);
    DirectTotal(prices[0], prices[|prices| - 1], remaining, cycleDays, tax, d);
    MoreIff(unit, num, d, lost, up, rests, subtotal, chain);
  }

  lemma DirectTotal(p: int, q: int, remaining: int, cycleDays: int, tax: Rate, d: int)
    requires 0 < remaining && IsRate(tax)
    requires ProrateAmount(q, remaining, cycleDays) - ProrateAmount(p, remaining, cycleDays) == d
    ensures var zero := Speed(0, 0);
            QuotePlanChange(p, q, remaining, cycleDays, tax, zero, zero).total
            == if 0 < d then d + Round(d * tax.num, 100 * tax.den) else 0
  {
  }

  lemma MoreIff(unit: int, num: nat, d: int, lost: nat, up: nat, rests: nat, subtotal: int, chain: int)
    requires 0 < unit && d == subtotal - lost && 0 <= subtotal && rests <= subtotal * num
    requires unit * chain == unit * subtotal + subtotal * num - rests + unit * up
    ensures chain < (if 0 < d then d + Round(d * num, unit) else 0)
            <==> unit * (2 * (lost + up) + 1) <= 2 * (rests - lost * num)
  {
    assert d * num == subtotal * num - lost * num;
    hide Round;
    if 0 < d {
      assert 0 <= d * num;
      RoundAtLeast(d * num, unit, chain - d + 1);
      Compared(unit, num, d, lost, up, rests, subtotal, chain);
    } else {
      NothingDirect(unit, num, d, lost, up, rests, subtotal, chain);
    }
  }

  lemma NothingDirect(unit: int, num: nat, d: int, lost: nat, up: nat, rests: nat, subtotal: int, chain: int)
    requires 0 < unit && d <= 0 && d * num == subtotal * num - lost * num && 0 <= subtotal && rests <= subtotal * num
    requires unit * chain == unit * subtotal + subtotal * num - rests + unit * up
    ensures 0 <= chain && 2 * (rests - lost * num) < unit * (2 * (lost + up) + 1)
  {
    assert (-d) * num >= 0 && (-d) * num == -(d * num) && (lost + up) * unit >= 0;
    assert unit * (2 * (lost + up) + 1) == 2 * ((lost + up) * unit) + unit;
    assert 0 <= unit * subtotal && 0 <= unit * up;
    Factor(chain, unit);
    assert chain * unit == unit * chain;
  }

  lemma Compared(unit: int, num: int, d: int, lost: int, up: int, rests: int, subtotal: int, chain: int)
    requires d == subtotal - lost && d * num == subtotal * num - lost * num
    requires unit * chain == unit * subtotal + subtotal * num - rests + unit * up
    ensures 2 * ((chain - d + 1) * unit) <= 2 * (d * num) + unit
            <==> unit * (2 * (lost + up) + 1) <= 2 * (rests - lost * num)
  {
    assert (chain - d + 1) * unit == unit * chain - unit * d + unit;
    assert unit * d == unit * subtotal - unit * lost;
    assert unit * (2 * (lost + up) + 1) == 2 * (unit * lost) + 2 * (unit * up) + unit;
  }

  /** Through one plan in between: both steps go up, neither tax is rounded up, and together they are. */
  lemma OneStopIsCheaperIff(p: int, q: int, r: int, remaining: int, cycleDays: int, tax: Rate)
    requires 0 < remaining && IsRate(tax)
    ensures var zero := Speed(0, 0);
            var d1 := ProrateAmount(q, remaining, cycleDays) - ProrateAmount(p, remaining, cycleDays);
            var d2 := ProrateAmount(r, remaining, cycleDays) - ProrateAmount(q, remaining, cycleDays);
            var unit := 100 * tax.den;
            ChainTotal([p, q, r], remaining, cycleDays, tax)
              < QuotePlanChange(p, r, remaining, cycleDays, tax, zero, zero).total
            <==> && 0 < d1 && 0 < d2
                 && 2 * TaxRest(d1, tax) < unit && 2 * TaxRest(d2, tax) < unit
                 && unit <= 2 * (TaxRest(d1, tax) + TaxRest(d2, tax))
  {
    var three, two, one := [p, q, r], [q, r], [r];
    assert three[1..] == two && two[1..] == one;
    var d1, d2 := Step(three, remaining, cycleDays), Step(two, remaining, cycleDays);
    DirectCostsMoreIff(three, remaining, cycleDays, tax);
    var lost := Forfeited(three, remaining, cycleDays);
    assert lost == (if d1 < 0 then -d1 else 0) + if d2 < 0 then -d2 else 0 by {
      assert Forfeited(one, remaining, cycleDays) == 0;
      assert Forfeited(two, remaining, cycleDays) == if d2 < 0 then -d2 else 0;
    }
    var rest1, rest2 := if d1 > 0 then TaxRest(d1, tax) else 0, if d2 > 0 then TaxRest(d2, tax) else 0;
    assert TaxRests(three, remaining, cycleDays, tax) == rest1 + rest2 by {
      assert TaxRests(one, remaining, cycleDays, tax) == 0;
      assert TaxRests(two, remaining, cycleDays, tax) == rest2;
    }
    var unit := 100 * tax.den;
    var up1, up2 := if unit <= 2 * rest1 then 1 else 0, if unit <= 2 * rest2 then 1 else 0;
    var up := RoundedUp(three, remaining, cycleDays, tax);
    assert up == up1 + up2 by {
      assert RoundedUp(one, remaining, cycleDays, tax) == 0;
      assert RoundedUp(two, remaining, cycleDays, tax) == up2;
    }
    TwoRests(unit, tax.num, lost, up, rest1, rest2);
  }

  lemma TwoRests(unit: int, num: nat, lost: nat, up: nat, rest1: nat, rest2: nat)
    requires 0 < unit && rest1 < unit && rest2 < unit
    requires up == (if unit <= 2 * rest1 then 1 else 0) + if unit <= 2 * rest2 then 1 else 0
    requires 0 < lost ==> rest1 == 0 || rest2 == 0
    ensures unit * (2 * (lost + up) + 1) <= 2 * (rest1 + rest2 - lost * num)
            <==> lost == 0 && 2 * rest1 < unit && 2 * rest2 < unit && unit <= 2 * (rest1 + rest2)
  {
    assert unit * (2 * (lost + up) + 1) == 2 * (unit * lost) + 2 * (unit * up) + unit;
    assert 0 <= lost * num;
    if 0 < lost {
      assert unit <= unit * lost;
    }
    assert up == 0 || up == 1 || up == 2;
  }

  /** Witness: at 10%, two steps of 4 carry no tax, one step of 8 carries 1. */
  lemma ChainWithTaxCanBeCheaper()
    ensures var tax := Rate(10, 1);
            ChainTotal([0, 4, 8], 30, 30, tax) < QuotePlanChange(0, 8, 30, 30, tax, Speed(0, 0), Speed(0, 0)).total
  {
    RoundExact(0, 30);
    RoundExact(4, 30);
    RoundExact(8, 30);
    OneStopIsCheaperIff(0, 4, 8, 30, 30, Rate(10, 1));
    assert TaxRest(4, Rate(10, 1)) == 40;
  }
}
