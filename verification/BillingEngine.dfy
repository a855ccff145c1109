/** Routine billing (internal/billing/engine.go): the first prorated invoice, the billing clock and
    the pass over due subscriptions. */
module BillingEngine {
  import opened Options
  import opened Calendar
  import opened Proration
  import opened Invoices

  type Id = nat

  const NOON: nat := 43200

  datatype Instant = Instant(date: Date, second: nat)

  predicate IsInstant(t: Instant) {
    IsDate(t.date) && t.second < SECONDS_PER_DAY
  }

  function Seconds(t: Instant): int
    requires IsInstant(t)
  {
    Ordinal(t.date) * SECONDS_PER_DAY + t.second
  }

  /** `!a.After(b)`. */
  predicate NotAfter(a: Instant, b: Instant) {
    Before(a.date, b.date) || (a.date == b.date && a.second <= b.second)
  }

  function NextBill(t: Instant, cycle: string): (n: Instant)
    requires IsInstant(t)
    ensures IsInstant(n)
  {
    t.(date := NextBillDate(t.date, cycle))
  }

  datatype Subscription = Subscription(active: bool, startedAt: Option<Instant>, nextBillAt: Option<Instant>)

  /** A subscription row with its invoices, oldest first. */
  datatype Account = Account(sub: Subscription, invoices: seq<Invoice>)

  /** What the rest of the store answers during one billing attempt: resolved prices and settings, the
      database's current date, whether the prior invoices could be counted, and whether the two writes
      succeed. */
  datatype Terms = Terms(free: bool, price: int, tax: Rate, marked: bool, lateRate: Rate, dueDay: int, cycle: string,
                         today: Date, counted: bool, created: bool, clockSaved: bool)

  predicate IsTerms(t: Terms) {
    IsRate(t.tax) && IsRate(t.lateRate) && IsDate(t.today)
  }

  predicate IsSubscription(s: Subscription) {
    && (s.startedAt.Some? ==> IsInstant(s.startedAt.value))
    && (s.nextBillAt.Some? ==> IsInstant(s.nextBillAt.value))
  }

  predicate IsAccount(a: Account) {
    IsSubscription(a.sub)
  }

  // ----- One billing attempt -----

  /** `priorCount == 0`: every invoice of the subscription is in the trash, or there is none. */
  predicate NoPrior(invoices: seq<Invoice>) {
    forall i :: 0 <= i < |invoices| ==> invoices[i].trashed
  }

  /** The attempt takes the invoice for the first one: a count that fails reads as zero. */
  predicate TakenAsFirst(a: Account, t: Terms) {
    !t.counted || NoPrior(a.invoices)
  }

  function OverdueUnpaid(invoices: seq<Invoice>, today: Date): int {
    if invoices == [] then 0
    else
      var inv := invoices[0];
      var open := !inv.trashed && (inv.status == Issued || inv.status == Partial || inv.status == Overdue);
      (if open && Before(inv.due, today) && inv.total > inv.paid then inv.total - inv.paid else 0)
      + OverdueUnpaid(invoices[1..], today)
  }

  /** Days charged on the first invoice after activation. */
  function FirstDays(sub: Subscription, cycle: string): int
    requires IsSubscription(sub) && sub.startedAt.Some?
  {
    var start := sub.startedAt.value;
    var until := if sub.nextBillAt.Some? then sub.nextBillAt.value else NextBill(start, cycle);
    var days := (Seconds(until) - Seconds(start) + SECONDS_PER_DAY - 1) / SECONDS_PER_DAY;
    var period := DaysInBillingCycle(cycle);
    if days < 1 then 1 else if days > period then period else days
  }

  function NewInvoice(a: Account, now: Instant, t: Terms): Invoice
    requires IsAccount(a) && IsInstant(now) && IsTerms(t)
  {
    var first := TakenAsFirst(a, t);
    var prorated := first && a.sub.startedAt.Some?;
    var days := if prorated then FirstDays(a.sub, t.cycle) else 0;
    var period := if prorated then DaysInBillingCycle(t.cycle) else 0;
    var (subtotal, tax) := CalculateInvoiceAmount(t.price, t.tax, days, period);
    var fee := ApplyLateFee(OverdueUnpaid(a.invoices, t.today), t.lateRate);
    Routine(subtotal, tax, fee, t.marked, if first then now.date else NextDueDate(now.date, t.dueDay))
  }

  function NextClock(a: Account, now: Instant, t: Terms): Instant
    requires IsAccount(a) && IsInstant(now)
  {
    if a.sub.nextBillAt.None? then NextBill(now, t.cycle)
    else if TakenAsFirst(a, t) && !t.free then a.sub.nextBillAt.value
    else NextBill(a.sub.nextBillAt.value, t.cycle)
  }

  predicate Reached(clock: Option<Instant>, now: Instant) {
    clock.None? || NotAfter(clock.value, now)
  }

  /** The account after one attempt. */
  function Bill(a: Account, now: Instant, t: Terms): (r: Account)
    requires IsAccount(a) && IsInstant(now) && IsTerms(t)
    ensures IsAccount(r)
  {
    var moved := if t.clockSaved then a.sub.(nextBillAt := Some(NextClock(a, now, t))) else a.sub;
    if t.free then (if Reached(a.sub.nextBillAt, now) then a.(sub := moved) else a)
    else if !t.created then a
    else Account(moved, a.invoices + [NewInvoice(a, now, t)])
  }

  predicate Due(s: Subscription, now: Instant) {
    s.active && s.nextBillAt.Some? && Reached(s.nextBillAt, now)
  }

  function DuePass(a: Account, now: Instant, t: Terms): (r: Account)
    requires IsAccount(a) && IsInstant(now) && IsTerms(t)
    ensures IsAccount(r)
  {
    if Due(a.sub, now) then Bill(a, now, t) else a
  }

  /** The amounts and due date of the next invoice, step by step. */
  method Assemble(a: Account, now: Instant, t: Terms) returns (inv: Invoice)
    requires IsAccount(a) && IsInstant(now) && IsTerms(t)
    ensures inv == NewInvoice(a, now, t)
  {
    var first := TakenAsFirst(a, t);
    var prorateDays, periodDays := 0, 0;
    if first && a.sub.startedAt.Some? {
      periodDays := DaysInBillingCycle(t.cycle);
      prorateDays := FirstDays(a.sub, t.cycle);
    }
    var (subtotal, tax) := CalculateInvoiceAmount(t.price, t.tax, prorateDays, periodDays);
    var lateFee := 0;
    var overdue := OverdueUnpaid(a.invoices, t.today);
    if overdue > 0 {
      lateFee := ApplyLateFee(overdue, t.lateRate);
    }
    var due := NextDueDate(now.date, t.dueDay);
    if first {
      due := now.date;
    }
    inv := Routine(subtotal, tax, lateFee, t.marked, due);
  }

  predicate IsOverdue(inv: Invoice, today: Date) {
    && !inv.trashed && (inv.status == Issued || inv.status == Partial || inv.status == Overdue)
    && Before(inv.due, today) && inv.total > inv.paid
  }

  /** A late fee needs an overdue invoice with something left to pay. */
  lemma {:induction false} OverdueNeedsAnInvoice(invoices: seq<Invoice>, today: Date)
    ensures 0 <= OverdueUnpaid(invoices, today)
    ensures 0 < OverdueUnpaid(invoices, today) <==> exists i :: 0 <= i < |invoices| && IsOverdue(invoices[i], today)
  {
    if invoices != [] {
      OverdueNeedsAnInvoice(invoices[1..], today);
      if 0 < OverdueUnpaid(invoices[1..], today) {
        var i :| 0 <= i < |invoices[1..]| && IsOverdue(invoices[1..][i], today);
        assert invoices[i + 1] == invoices[1..][i];
      } else {
        assert forall i :: 0 < i < |invoices| ==> invoices[i] == invoices[1..][i - 1];
      }
    }
  }

  /** The overdue sum is what is left of the overdue invoices, one by one. */
  lemma {:induction false} OverdueSumAdds(invoices: seq<Invoice>, inv: Invoice, today: Date)
    ensures OverdueUnpaid([], today) == 0
    ensures OverdueUnpaid(invoices + [inv], today)
            == OverdueUnpaid(invoices, today)
               + if !inv.trashed && inv.status in {Issued, Partial, Overdue} && Before(inv.due, today)
                    && inv.paid < inv.total
                 then inv.total - inv.paid else 0
  {
    if invoices == [] {
      assert (invoices + [inv])[1..] == [];
    } else {
      assert (invoices + [inv])[1..] == invoices[1..] + [inv];
      OverdueSumAdds(invoices[1..], inv, today);
    }
  }

  /** The days of the first invoice are the fewest whole days that reach the anchor, or one cycle after the
      start without one; at least one and at most a period. */
  lemma FirstDaysReachTheAnchor(sub: Subscription, cycle: string)
    requires IsSubscription(sub) && sub.startedAt.Some?
    ensures var from := sub.startedAt.value;
            var anchor := if sub.nextBillAt.Some? then sub.nextBillAt.value
                          else Instant(NextBillDate(from.date, cycle), from.second);
            var start := Ordinal(from.date) * 86400 + from.second;
            var until := Ordinal(anchor.date) * 86400 + anchor.second;
            var days := FirstDays(sub, cycle);
            && 1 <= days <= DaysInBillingCycle(cycle)
            && (days < DaysInBillingCycle(cycle) ==> until <= start + days * 86400)
            && (1 < days ==> start + (days - 1) * 86400 < until)
  {
  }

  /** What one cycle charges: the full price, or on the very first invoice the part of it for the days
      up to the anchor; a late fee, untaxed, only for what is overdue; due today on the first invoice and
      else on the next due day. */
  lemma InvoiceOfOneCycle(a: Account, now: Instant, t: Terms)
    requires IsAccount(a) && IsInstant(now) && IsTerms(t)
    ensures var inv := NewInvoice(a, now, t);
            var first := TakenAsFirst(a, t);
            && Balanced(inv) && TaxedAt(inv, t.tax) && inv.paid == 0 && inv.discount == 0
            && !Before(inv.due, now.date) && (if first then inv.due == now.date else inv.due.day == ClampDay(t.dueDay))
            && PlanPart(inv.items)
               == (if first && a.sub.startedAt.Some?
                   then ProrateAmount(t.price, FirstDays(a.sub, t.cycle), DaysInBillingCycle(t.cycle)) else t.price)
            && 0 <= SumLateFees(inv.items)
            && (0 < SumLateFees(inv.items) ==> exists i :: 0 <= i < |a.invoices| && IsOverdue(a.invoices[i], t.today))
  {
    var prorated := TakenAsFirst(a, t) && a.sub.startedAt.Some?;
    var days := if prorated then FirstDays(a.sub, t.cycle) else 0;
    var period := if prorated then DaysInBillingCycle(t.cycle) else 0;
    var due := if TakenAsFirst(a, t) then now.date else NextDueDate(now.date, t.dueDay);
    IssuedInvoicesBalance(t.price, days, period, OverdueUnpaid(a.invoices, t.today), t.lateRate, t.marked, due, t.tax);
    InvoiceAmountIsProration(t.price, t.tax, days, period);
    OverdueNeedsAnInvoice(a.invoices, t.today);
    NextDueDateIsLeast(now.date, t.dueDay);
  }

  /** The late fee is the rate's share of the overdue sum, to the nearest rupiah, on a line of its own; the
      invoice is open, and its plan line tells of a built-in discount. */
  lemma LateFeeOfOneCycle(a: Account, now: Instant, t: Terms)
    requires IsAccount(a) && IsInstant(now) && IsTerms(t)
    ensures var inv := NewInvoice(a, now, t);
            var fee := if |inv.items| == 2 then inv.items[1].amount else 0;
            var overdue, unit := OverdueUnpaid(a.invoices, t.today), 100 * t.lateRate.den;
            && -unit <= 2 * (fee * unit - overdue * t.lateRate.num) <= unit
            && (if fee == 0 then |inv.items| == 1 else inv.items == [inv.items[0], Item(true, false, 1, fee, fee)])
            && inv.items[0].marked == t.marked && !inv.items[0].lateFee
            && inv.status == Issued && !inv.trashed && inv.forSubscription && !inv.lateFeeApplied
  {
    var overdue := OverdueUnpaid(a.invoices, t.today);
    OverdueNeedsAnInvoice(a.invoices, t.today);
    NearestRupiah(overdue, 0, 0, t.lateRate);
    TaxMonotone(0, overdue, t.lateRate);
    hide PercentOf, CalculateInvoiceAmount, NextDueDate, FirstDays, OverdueUnpaid, NoPrior, ApplyLateFee;
  }

  /** A pass touches exactly the active subscriptions whose clock has been reached, to the second. */
  lemma WhatAPassTouches(a: Account, now: Instant, t: Terms)
    requires IsAccount(a) && IsInstant(now) && IsTerms(t)
    ensures var due := a.sub.active && a.sub.nextBillAt.Some?
                       && Ordinal(a.sub.nextBillAt.value.date) * 86400 + a.sub.nextBillAt.value.second
                          <= Ordinal(now.date) * 86400 + now.second;
            DuePass(a, now, t) == if due then Bill(a, now, t) else a
  {
    if a.sub.nextBillAt.Some? {
      OrdinalOrder(a.sub.nextBillAt.value.date, now.date);
      OrdinalOrder(now.date, a.sub.nextBillAt.value.date);
    }
    hide Bill;
  }

  /** An attempt without a clock starts it one cycle from now, free plan or not. */
  lemma ClockStartsFromNow(a: Account, now: Instant, t: Terms)
    requires IsAccount(a) && IsInstant(now) && IsTerms(t) && a.sub.nextBillAt.None?
    ensures Bill(a, now, t).sub.nextBillAt
            == if t.clockSaved && (t.free || t.created) then Some(now.(date := NextBillDate(now.date, t.cycle)))
               else None
  {
    hide NewInvoice, NextBillDate;
  }

  /** Subscription rows and invoice rows, grouped by subscription. */
  class BillingStore {
    var accounts: map<Id, Account>

    ghost predicate Valid()
      reads this
    {
      forall id :: id in accounts ==> IsAccount(accounts[id])
    }

    /** `was` with the account of `id` replaced. */
    ghost predicate Changed(was: map<Id, Account>, id: Id, a: Account)
      reads this
    {
      && accounts.Keys == was.Keys
      && (id in accounts ==> accounts[id] == a)
      && forall k :: k in accounts && k != id ==> accounts[k] == was[k]
    }

    /** Writes the invoice first and the clock second; either write may fail. */
    method GenerateInvoiceForSubscription(id: Id, now: Instant, t: Terms) returns (issued: bool)
      requires Valid() && IsInstant(now) && IsTerms(t)
      modifies this
      ensures Valid()
      ensures issued <==> id in accounts && !t.free && t.created
      ensures id !in old(accounts) ==> accounts == old(accounts)
      ensures id in old(accounts) ==> Changed(old(accounts), id, Bill(old(accounts)[id], now, t))
    {
      if id !in accounts {
        return false;
      }
      var a := accounts[id];
      var clock := a.sub.nextBillAt;
      if t.free {
        if clock.None? || NotAfter(clock.value, now) {
          SaveClock(id, if clock.Some? then NextBill(clock.value, t.cycle) else NextBill(now, t.cycle), t.clockSaved);
        }
        return false;
      }
      var inv := Assemble(a, now, t);
      if !t.created {
        return false;
      }
      accounts := accounts[id := a.(invoices := a.invoices + [inv])];
      var nextBill: Instant;
      if TakenAsFirst(a, t) && clock.Some? {
        nextBill := clock.value;
      } else if clock.Some? {
        nextBill := NextBill(clock.value, t.cycle);
      } else {
        nextBill := NextBill(now, t.cycle);
      }
      SaveClock(id, nextBill, t.clockSaved);
      issued := true;
    }

    /** The clock update, whose failure is ignored by the callers. */
    method SaveClock(id: Id, clock: Instant, saved: bool)
      requires Valid() && id in accounts && IsInstant(clock)
      modifies this
      ensures Valid()
      ensures var a := old(accounts)[id];
              Changed(old(accounts), id, if saved then a.(sub := a.sub.(nextBillAt := Some(clock))) else a)
    {
      if saved {
        var a := accounts[id];
        accounts := accounts[id := a.(sub := a.sub.(nextBillAt := Some(clock)))];
      }
    }

    /** One pass: every subscription due at `now` is billed once, in any order, the others not at all. */
    method ProcessDueBilling(now: Instant, terms: map<Id, Terms>) returns (created: set<Id>)
      requires Valid() && IsInstant(now)
      requires accounts.Keys <= terms.Keys && forall id :: id in terms ==> IsTerms(terms[id])
      modifies this
      ensures Valid() && accounts.Keys == old(accounts).Keys
      ensures forall id :: id in accounts ==> accounts[id] == DuePass(old(accounts)[id], now, terms[id])
      ensures forall id :: id in created <==>
                id in accounts && Due(old(accounts)[id].sub, now) && !terms[id].free && terms[id].created
    {
      hide Bill, Reached;
      var due := set id | id in accounts && Due(accounts[id].sub, now);
      var todo := due;
      created := {};
      while todo != {}
        invariant todo <= due && Valid() && accounts.Keys == old(accounts).Keys
        invariant forall id :: id in accounts && id in todo ==> accounts[id] == old(accounts)[id]
        invariant forall id :: id in accounts && id !in todo ==>
                    accounts[id] == DuePass(old(accounts)[id], now, terms[id])
        invariant forall id :: id in created <==> id in due && id !in todo && !terms[id].free && terms[id].created
      {
        var id :| id in todo;
        var issued := GenerateInvoiceForSubscription(id, now, terms[id]);
        if issued {
          created := created + {id};
        }
        todo := todo - {id};
      }
    }
  }
}
