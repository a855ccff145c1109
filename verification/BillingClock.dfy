/** The billing clock over whole runs: what passes, failed writes and trashed invoices do to
    `next_bill_at` and to the number of invoices (internal/billing/engine.go,
    internal/handlers/handlers.go activation handler). */
module BillingClock {
  import opened Options
  import opened Calendar
  import opened Proration
  import opened Invoices
  import opened BillingEngine

  /** The k-th anchor counted from a clock reading. */
  function Anchor(clock: Instant, cycle: string, k: nat): (t: Instant)
    requires IsInstant(clock)
    ensures IsInstant(t)
  {
    clock.(date := Ticks(clock.date, cycle, k))
  }

  lemma {:induction false} TicksFromNext(from: Date, cycle: string, k: nat)
    requires IsDate(from)
    ensures Ticks(NextBillDate(from, cycle), cycle, k) == Ticks(from, cycle, k + 1)
  {
    if k > 0 {
      TicksFromNext(from, cycle, k - 1);
    }
  }

  // ----- Conservation over every run -----

  /** What may happen to one account between two looks at it. */
  datatype Event = Pass(now: Instant, terms: Terms)
                 | Trash(index: nat)
                 | Restore(index: nat)
                 | Pay(index: nat, amount: int)

  predicate IsEvent(e: Event, cycle: string) {
    e.Pass? ==> IsInstant(e.now) && IsTerms(e.terms) && e.terms.cycle == cycle
  }

  predicate IsHistory(events: seq<Event>, cycle: string) {
    forall i :: 0 <= i < |events| ==> IsEvent(events[i], cycle)
  }

  function WithInvoice(a: Account, index: nat, inv: Invoice): Account
    requires index < |a.invoices|
  {
    a.(invoices := a.invoices[index := inv])
  }

  function Apply(a: Account, e: Event): (r: Account)
    requires IsAccount(a) && (e.Pass? ==> IsInstant(e.now) && IsTerms(e.terms))
    ensures IsAccount(r)
  {
    match e
    case Pass(now, t) => DuePass(a, now, t)
    case Trash(i) => if i < |a.invoices| then WithInvoice(a, i, a.invoices[i].(trashed := true)) else a
    case Restore(i) => if i < |a.invoices| then WithInvoice(a, i, a.invoices[i].(trashed := false)) else a
    case Pay(i, amount) => if i < |a.invoices| then WithInvoice(a, i, AddPayment(a.invoices[i], amount)) else a
  }

  /** How many passes did what: advanced the clock with an invoice, advanced a free clock, issued what they
      took for the first invoice, issued but lost the clock update. */
  datatype Tally = Tally(routine: nat, free: nat, first: nat, lost: nat)

  function Count(a: Account, e: Event): Tally
    requires IsAccount(a) && (e.Pass? ==> IsInstant(e.now) && IsTerms(e.terms))
  {
    if !e.Pass? || !Due(a.sub, e.now) then Tally(0, 0, 0, 0)
    else if e.terms.free then (if e.terms.clockSaved then Tally(0, 1, 0, 0) else Tally(0, 0, 0, 0))
    else if !e.terms.created then Tally(0, 0, 0, 0)
    else if TakenAsFirst(a, e.terms) then Tally(0, 0, 1, 0)
    else if e.terms.clockSaved then Tally(1, 0, 0, 0)
    else Tally(0, 0, 0, 1)
  }

  function Plus(m: Tally, n: Tally): Tally {
    Tally(m.routine + n.routine, m.free + n.free, m.first + n.first, m.lost + n.lost)
  }

  function Run(a: Account, events: seq<Event>, cycle: string): (Account, Tally)
    requires IsAccount(a) && IsHistory(events, cycle)
    decreases |events|
  {
    if events == [] then (a, Tally(0, 0, 0, 0))
    else
      assert IsEvent(events[0], cycle);
      var (end, n) := Run(Apply(a, events[0]), events[1..], cycle);
      (end, Plus(Count(a, events[0]), n))
  }

  /** One event moves the clock by at most one cycle; it adds at most one invoice. */
  lemma EventCounted(a: Account, e: Event, cycle: string)
    requires IsAccount(a) && IsEvent(e, cycle) && a.sub.nextBillAt.Some?
    ensures var b, m := Apply(a, e), Count(a, e);
            Moved(a, b, m, cycle) && m.routine + m.free <= 1
  {
    var clock := a.sub.nextBillAt.value;
    assert Anchor(clock, cycle, 0) == clock && Anchor(clock, cycle, 1) == NextBill(clock, cycle);
    if e.Pass? && Due(a.sub, e.now) && !e.terms.free && e.terms.created {
      assert |DuePass(a, e.now, e.terms).invoices| == |a.invoices| + 1;
    }
  }

  ghost predicate Moved(a: Account, b: Account, n: Tally, cycle: string)
    requires a.sub.nextBillAt.Some? && IsAccount(a)
  {
    && b.sub.nextBillAt == Some(Anchor(a.sub.nextBillAt.value, cycle, n.routine + n.free))
    && |b.invoices| - |a.invoices| == n.routine + n.first + n.lost
  }

  lemma Chain(a: Account, b: Account, c: Account, m: Tally, n: Tally, cycle: string)
    requires IsAccount(a) && IsAccount(b) && a.sub.nextBillAt.Some? && b.sub.nextBillAt.Some?
    requires m.routine + m.free <= 1
    requires Moved(a, b, m, cycle) && Moved(b, c, n, cycle)
    ensures Moved(a, c, Plus(m, n), cycle)
  {
    AnchorsAdd(a.sub.nextBillAt.value, cycle, m.routine + m.free, n.routine + n.free);
  }

  lemma AnchorsAdd(clock: Instant, cycle: string, step: nat, k: nat)
    requires IsInstant(clock) && step <= 1
    ensures Anchor(Anchor(clock, cycle, step), cycle, k) == Anchor(clock, cycle, step + k)
  {
    TicksAdd(clock.date, cycle, step, k);
  }

  lemma TicksAdd(from: Date, cycle: string, step: nat, k: nat)
    requires IsDate(from) && step <= 1
    ensures Ticks(Ticks(from, cycle, step), cycle, k) == Ticks(from, cycle, step + k)
  {
    TicksFromNext(from, cycle, k);
    assert Ticks(from, cycle, 1) == NextBillDate(Ticks(from, cycle, 0), cycle);
  }

  /** After any run the clock has moved one cycle per routine or free pass and not otherwise, and every
      invoice is a clock step, a first issue or a lost clock update. */
  lemma {:induction false} ClockAndInvoicesConserved(a: Account, events: seq<Event>, cycle: string)
    requires IsAccount(a) && IsHistory(events, cycle) && a.sub.nextBillAt.Some?
    ensures Moved(a, Run(a, events, cycle).0, Run(a, events, cycle).1, cycle)
    decreases |events|
  {
    if events != [] {
      assert IsEvent(events[0], cycle);
      EventCounted(a, events[0], cycle);
      ClockAndInvoicesConserved(Apply(a, events[0]), events[1..], cycle);
      var (end, n) := Run(Apply(a, events[0]), events[1..], cycle);
      Chain(a, Apply(a, events[0]), end, Count(a, events[0]), n, cycle);
    }
  }

  /** A due pass of a paying subscription whose writes succeed issues an invoice; it moves the clock
      exactly when the prior invoices are counted and one of them is not in the trash. Otherwise the
      subscription is still due, and the next pass bills it again. */
  lemma ClockMovesIffHistory(a: Account, now: Instant, t: Terms)
    requires IsAccount(a) && IsInstant(now) && IsTerms(t)
    requires Due(a.sub, now) && !t.free && t.created && t.clockSaved
    ensures var r := DuePass(a, now, t);
            && |r.invoices| == |a.invoices| + 1
            && (r.sub.nextBillAt != a.sub.nextBillAt
                <==> t.counted && exists i :: 0 <= i < |a.invoices| && !a.invoices[i].trashed)
            && (r.sub.nextBillAt == a.sub.nextBillAt ==> Due(r.sub, now))
  {
    TickAdvances(a.sub.nextBillAt.value.date, t.cycle);
  }

  /** Trashing the only live invoice makes the next pass bill the subscription as if it were new: due that day,
      clock unmoved. Restoring the invoice undoes the trashing. */
  lemma TrashingForgetsTheHistory(a: Account, i: nat, now: Instant, t: Terms)
    requires IsAccount(a) && IsInstant(now) && IsTerms(t) && i < |a.invoices|
    requires !a.invoices[i].trashed && forall j :: 0 <= j < |a.invoices| && j != i ==> a.invoices[j].trashed
    requires Due(a.sub, now) && !t.free && t.created && t.clockSaved && t.counted
    ensures var b := Apply(a, Event.Trash(i));
            && Apply(b, Event.Restore(i)) == a
            && DuePass(b, now, t).sub == a.sub && DuePass(b, now, t).invoices[|a.invoices|].due == now.date
            && DuePass(a, now, t).sub.nextBillAt != a.sub.nextBillAt
  {
    assert a.invoices[i := a.invoices[i]] == a.invoices;
    var b := Apply(a, Event.Trash(i));
    ClockMovesIffHistory(a, now, t);
    ClockMovesIffHistory(b, now, t);
    hide AddPayment;
    assert Apply(b, Event.Restore(i)) == a;
  }

  // ----- Catching up at one instant -----

  predicate Reliable(t: Terms) {
    IsTerms(t) && t.counted && t.created && t.clockSaved
  }

  lemma NotAfterInSeconds(a: Instant, b: Instant)
    requires IsInstant(a) && IsInstant(b)
    ensures NotAfter(a, b) <==> Seconds(a) <= Seconds(b)
  {
    OrdinalOrder(a.date, b.date);
    OrdinalOrder(b.date, a.date);
  }

  lemma NextBillIsLater(t: Instant, cycle: string)
    requires IsInstant(t)
    ensures !NotAfter(NextBill(t, cycle), t)
    ensures Seconds(t) < Seconds(NextBill(t, cycle))
  {
    TickAdvances(t.date, cycle);
    NotAfterInSeconds(NextBill(t, cycle), t);
  }

  /** Seconds the clock is behind; bounds the passes that are still due. */
  ghost function Backlog(s: Subscription, now: Instant): nat
    requires IsSubscription(s) && IsInstant(now)
  {
    if !Due(s, now) || Seconds(now) < Seconds(s.nextBillAt.value) then 0
    else Seconds(now) - Seconds(s.nextBillAt.value) + 1
  }

  lemma BacklogShrinks(s: Subscription, next: Subscription, now: Instant, cycle: string)
    requires IsSubscription(s) && IsInstant(now) && Due(s, now)
    requires next == s.(nextBillAt := Some(NextBill(s.nextBillAt.value, cycle)))
    ensures Backlog(next, now) < Backlog(s, now)
  {
    NextBillIsLater(s.nextBillAt.value, cycle);
    NotAfterInSeconds(s.nextBillAt.value, now);
  }

  /** Repeated passes at one instant, until nothing is due. */
  ghost function CatchUp(a: Account, now: Instant, t: Terms): (r: Account)
    requires IsAccount(a) && IsInstant(now) && Reliable(t)
    requires t.free || !NoPrior(a.invoices)
    decreases Backlog(a.sub, now)
  {
    if !Due(a.sub, now) then a
    else
      PassIsOneTick(a, now, t);
      CatchUp(DuePass(a, now, t), now, t)
  }

  lemma PassIsOneTick(a: Account, now: Instant, t: Terms)
    requires IsAccount(a) && IsInstant(now) && Reliable(t) && Due(a.sub, now)
    requires t.free || !NoPrior(a.invoices)
    ensures var r := DuePass(a, now, t);
            && r.sub == a.sub.(nextBillAt := Some(NextBill(a.sub.nextBillAt.value, t.cycle)))
            && r.invoices == (if t.free then a.invoices else a.invoices + [NewInvoice(a, now, t)])
            && (t.free || !NoPrior(r.invoices))
            && Backlog(r.sub, now) < Backlog(a.sub, now)
  {
    if !t.free {
      assert !DuePass(a, now, t).invoices[|a.invoices|].trashed;
    }
    BacklogShrinks(a.sub, DuePass(a, now, t).sub, now, t.cycle);
  }

  lemma {:induction false} AnchorsIncrease(clock: Instant, cycle: string, k: nat, now: Instant)
    requires IsInstant(clock) && !NotAfter(clock, now)
    ensures !NotAfter(Anchor(clock, cycle, k), now)
  {
    if k > 0 {
      AnchorsIncrease(clock, cycle, k - 1, now);
      TickAdvances(Ticks(clock.date, cycle, k - 1), cycle);
    }
  }

  /** The anchors up to `now` are the first `k`. */
  ghost predicate Cuts(clock: Instant, cycle: string, now: Instant, k: nat)
    requires IsInstant(clock)
  {
    forall i: nat :: NotAfter(Anchor(clock, cycle, i), now) <==> i < k
  }

  lemma NothingDue(clock: Instant, cycle: string, now: Instant)
    requires IsInstant(clock) && !NotAfter(clock, now)
    ensures Cuts(clock, cycle, now, 0)
  {
    forall i: nat
      ensures !NotAfter(Anchor(clock, cycle, i), now)
    {
      AnchorsIncrease(clock, cycle, i, now);
    }
  }

  lemma OneMoreDue(clock: Instant, cycle: string, now: Instant, k: nat)
    requires IsInstant(clock) && NotAfter(clock, now)
    requires Cuts(NextBill(clock, cycle), cycle, now, k)
    ensures Cuts(clock, cycle, now, k + 1)
    ensures Anchor(NextBill(clock, cycle), cycle, k) == Anchor(clock, cycle, k + 1)
  {
    TicksFromNext(clock.date, cycle, k);
    forall i: nat
      ensures NotAfter(Anchor(clock, cycle, i), now) <==> i < k + 1
    {
      if i > 0 {
        TicksFromNext(clock.date, cycle, i - 1);
        assert Anchor(clock, cycle, i) == Anchor(NextBill(clock, cycle), cycle, i - 1);
      }
    }
  }

  lemma CutsUnique(clock: Instant, cycle: string, now: Instant, j: nat, k: nat)
    requires IsInstant(clock)
    requires Cuts(clock, cycle, now, j) && Cuts(clock, cycle, now, k)
    ensures j == k
  {
    var atJ, atK := Anchor(clock, cycle, j), Anchor(clock, cycle, k);
    assert !NotAfter(atJ, now) && !NotAfter(atK, now);
  }

  /** Catching up stops at the first anchor after `now`, with exactly one invoice per anchor up to
      `now` (none when the plan is free): nothing skipped, nothing billed twice. */
  lemma {:induction false} CatchUpBillsEveryAnchorOnce(a: Account, now: Instant, t: Terms) returns (k: nat)
    requires IsAccount(a) && IsInstant(now) && Reliable(t) && a.sub.active && a.sub.nextBillAt.Some?
    requires t.free || !NoPrior(a.invoices)
    ensures var r := CatchUp(a, now, t);
            var clock := a.sub.nextBillAt.value;
            && Cuts(clock, t.cycle, now, k)
            && r.sub == a.sub.(nextBillAt := Some(Anchor(clock, t.cycle, k)))
            && |r.invoices| == |a.invoices| + (if t.free then 0 else k)
            && a.invoices <= r.invoices
    decreases Backlog(a.sub, now)
  {
    var clock := a.sub.nextBillAt.value;
    assert Anchor(clock, t.cycle, 0) == clock;
    hide Anchor, Ticks, NextBillDate, NewInvoice, DuePass, Cuts, NoPrior, Backlog;
    if Due(a.sub, now) {
      var b := DuePass(a, now, t);
      PassIsOneTick(a, now, t);
      var j := CatchUpBillsEveryAnchorOnce(b, now, t);
      assert CatchUp(a, now, t) == CatchUp(b, now, t) && a.invoices <= b.invoices;
      OneMoreDue(clock, t.cycle, now, j);
      k := j + 1;
    } else {
      NothingDue(clock, t.cycle, now);
      k := 0;
    }
  }

  /** Caught up at one instant, a free account and a paying one with the same clock stand alike. */
  lemma FreeClockIsTheSame(free: Account, paying: Account, now: Instant, t: Terms)
    requires IsAccount(free) && IsAccount(paying) && free.sub == paying.sub
    requires IsInstant(now) && Reliable(t) && paying.sub.active && paying.sub.nextBillAt.Some?
    requires !NoPrior(paying.invoices)
    ensures CatchUp(free, now, t.(free := true)).sub == CatchUp(paying, now, t.(free := false)).sub
    ensures CatchUp(free, now, t.(free := true)).invoices == free.invoices
  {
    var k := CatchUpBillsEveryAnchorOnce(free, now, t.(free := true));
    var m := CatchUpBillsEveryAnchorOnce(paying, now, t.(free := false));
    CutsUnique(free.sub.nextBillAt.value, t.cycle, now, k, m);
  }

  // ----- Activation -----

  function Noon(d: Date): Instant {
    Instant(d, NOON)
  }

  /** The activation handler: sets status, start and anchor, then bills at once. */
  function Activate(a: Account, start: Date, anchor: Date, now: Instant, t: Terms): (r: Account)
    requires IsAccount(a) && IsDate(start) && IsDate(anchor) && IsInstant(now) && IsTerms(t)
    ensures IsAccount(r)
  {
    Bill(Account(Subscription(true, Some(Noon(start)), Some(Noon(anchor))), a.invoices), now, t)
  }

  /** The first invoice of a paying subscription: issued at activation, due the same day, for the days from
      the start to the anchor (1 to one period), and leaving the clock on the anchor. The anchor is the next
      cycle anchor, an explicit later date or one cycle after the start. */
  lemma ActivationIssuesTheFirstInvoice(a: Account, start: Date, anchor: Date, now: Instant, t: Terms)
    requires IsAccount(a) && IsDate(start) && IsDate(anchor) && Before(start, anchor)
    requires IsInstant(now) && Reliable(t) && !t.free && NoPrior(a.invoices)
    ensures var r := Activate(a, start, anchor, now, t);
            var gap, period := Ordinal(anchor) - Ordinal(start), DaysInBillingCycle(t.cycle);
            var inv := r.invoices[|a.invoices|];
            && r.invoices == a.invoices + [inv]
            && r.sub == Subscription(true, Some(Instant(start, 43200)), Some(Instant(anchor, 43200)))
            && inv.due == now.date && 1 <= gap
            && PlanPart(inv.items) == ProrateAmount(t.price, if gap > period then period else gap, period)
  {
    hide NewInvoice, PlanPart, ProrateAmount, Before, Ordinal, Balanced, TaxedAt, SumLateFees;
    var sub := Subscription(true, Some(Noon(start)), Some(Noon(anchor)));
    InvoiceOfOneCycle(Account(sub, a.invoices), now, t);
    OrdinalOrder(start, anchor);
    WholeDays(Noon(start), Noon(anchor));
  }

  /** Reactivating a subscription that still has live invoices charges a full cycle and moves the clock past
      the anchor. */
  lemma ReactivationChargesACycle(a: Account, start: Date, anchor: Date, now: Instant, t: Terms)
    requires IsAccount(a) && IsDate(start) && IsDate(anchor)
    requires IsInstant(now) && Reliable(t) && !t.free && !NoPrior(a.invoices)
    ensures var r := Activate(a, start, anchor, now, t);
            && r.invoices == a.invoices + [r.invoices[|a.invoices|]]
            && r.sub.nextBillAt == Some(NextBill(Noon(anchor), t.cycle)) && r.sub.nextBillAt != Some(Noon(anchor))
            && PlanPart(r.invoices[|a.invoices|].items) == t.price
  {
    InvoiceOfOneCycle(Account(Subscription(true, Some(Noon(start)), Some(Noon(anchor))), a.invoices), now, t);
    TickAdvances(anchor, t.cycle);
  }

  /** Activation treats the clock of a free plan like that of a paying one exactly when either the
      subscription is new and its anchor lies ahead, or it is not new and its anchor is reached. */
  lemma ActivationClockIsTheSameIff(a: Account, start: Date, anchor: Date, now: Instant, t: Terms)
    requires IsAccount(a) && IsDate(start) && IsDate(anchor) && IsInstant(now) && Reliable(t)
    ensures Activate(a, start, anchor, now, t.(free := true)).sub
            == Activate(a, start, anchor, now, t.(free := false)).sub
            <==> ((forall i :: 0 <= i < |a.invoices| ==> a.invoices[i].trashed)
                  <==> !NotAfter(Instant(anchor, 43200), now))
    ensures Activate(a, start, anchor, now, t.(free := true)).invoices == a.invoices
  {
    TickAdvances(anchor, t.cycle);
  }

  /** Where clocks change, the days up to the anchor are the difference of the dates exactly when the UTC offset
      at noon has not become smaller in between (`shift` is by how much it has); else they are one more. */
  lemma ElapsedDaysIff(gap: int, shift: int)
    requires -SECONDS_PER_DAY < shift < SECONDS_PER_DAY
    ensures var days := (gap * SECONDS_PER_DAY + shift + SECONDS_PER_DAY - 1) / SECONDS_PER_DAY;
            days == if shift <= 0 then gap else gap + 1
  {
  }

  lemma WholeDays(from: Instant, until: Instant)
    requires IsInstant(from) && IsInstant(until) && from.second == until.second
    ensures (Seconds(until) - Seconds(from) + SECONDS_PER_DAY - 1) / SECONDS_PER_DAY
            == Ordinal(until.date) - Ordinal(from.date)
  {
  }

  /** From activation on, a monthly clock caught up at any later instant stands at the anchor plus k
      months, same day, with the first invoice and exactly k routine ones. */
  lemma ActivationThenMonthly(a: Account, start: Date, cycleDay: int, now: Instant, later: Instant, t: Terms)
    returns (k: nat)
    requires IsAccount(a) && a.invoices == [] && IsDate(start) && IsInstant(now) && IsInstant(later)
    requires Reliable(t) && !t.free && Monthly(t.cycle)
    ensures var anchor := NextCycleAnchor(start, cycleDay);
            var first := Activate(a, start, anchor, now, t);
            !NoPrior(first.invoices) &&
            var r := CatchUp(first, later, t);
            && r.sub.nextBillAt == Some(Noon(PlusMonths(anchor, k)))
            && |r.invoices| == 1 + k
            && forall i: nat :: NotAfter(Noon(PlusMonths(anchor, i)), later) <==> i < k
  {
    var anchor := NextCycleAnchor(start, cycleDay);
    var first := Activate(a, start, anchor, now, t);
    NextCycleAnchorIsLeast(start, cycleDay);
    ActivationIssuesTheFirstInvoice(a, start, anchor, now, t);
    assert !first.invoices[0].trashed;
    k := CatchUpBillsEveryAnchorOnce(first, later, t);
    forall i: nat
      ensures Anchor(Noon(anchor), t.cycle, i) == Noon(PlusMonths(anchor, i))
    {
      MonthlyTicksKeepTheDay(anchor, t.cycle, i);
    }
    forall i: nat
      ensures NotAfter(Noon(PlusMonths(anchor, i)), later) <==> i < k
    {
      assert Anchor(Noon(anchor), t.cycle, i) == Noon(PlusMonths(anchor, i));
    }
  }

  /** Passes whose writes go through, payments, and nothing put in the trash. */
  predicate Smooth(events: seq<Event>) {
    forall i :: 0 <= i < |events| ==>
      events[i].Pay? || (events[i].Pass? && Reliable(events[i].terms) && !events[i].terms.free)
  }

  lemma {:induction false} SmoothRunsOnlyTick(a: Account, events: seq<Event>, cycle: string)
    requires IsAccount(a) && IsHistory(events, cycle) && Smooth(events) && !NoPrior(a.invoices)
    ensures var n := Run(a, events, cycle).1; n.free == 0 && n.first == 0 && n.lost == 0
    decreases |events|
  {
    if events != [] {
      assert IsEvent(events[0], cycle);
      LiveInvoiceStays(a, events[0]);
      SmoothRunsOnlyTick(Apply(a, events[0]), events[1..], cycle);
    }
  }

  lemma LiveInvoiceStays(a: Account, e: Event)
    requires IsAccount(a) && !NoPrior(a.invoices) && (e.Pass? ==> IsInstant(e.now) && IsTerms(e.terms))
    requires e.Pass? || e.Pay?
    ensures !NoPrior(Apply(a, e).invoices)
  {
    var i :| 0 <= i < |a.invoices| && !a.invoices[i].trashed;
    assert !Apply(a, e).invoices[i].trashed;
  }

  lemma FirstInvoiceIsLive(a: Account, start: Date, anchor: Date, now: Instant, t: Terms)
    requires IsAccount(a) && a.invoices == [] && IsDate(start) && IsDate(anchor) && Before(start, anchor)
    requires IsInstant(now) && Reliable(t) && !t.free
    ensures var first := Activate(a, start, anchor, now, t);
            !NoPrior(first.invoices) && |first.invoices| == 1 && first.sub.nextBillAt == Some(Noon(anchor))
  {
    ActivationIssuesTheFirstInvoice(a, start, anchor, now, t);
    assert !Activate(a, start, anchor, now, t).invoices[0].trashed;
  }

  lemma SmoothRunFrom(first: Account, clock: Instant, events: seq<Event>, cycle: string) returns (k: nat)
    requires IsAccount(first) && IsInstant(clock) && first.sub.nextBillAt == Some(clock) && !NoPrior(first.invoices)
    requires IsHistory(events, cycle) && Smooth(events)
    ensures var r := Run(first, events, cycle).0;
            r.sub.nextBillAt == Some(Anchor(clock, cycle, k)) && |r.invoices| == |first.invoices| + k
  {
    ClockAndInvoicesConserved(first, events, cycle);
    SmoothRunsOnlyTick(first, events, cycle);
    k := Run(first, events, cycle).1.routine;
  }

  /** Any sequence of due passes and payments after activation leaves a monthly clock k months after the
      anchor, on the anchor's day, with the first invoice and exactly k routine ones. */
  lemma AnyRunAfterActivation(a: Account, start: Date, cycleDay: int, now: Instant, t: Terms, events: seq<Event>)
    returns (k: nat)
    requires IsAccount(a) && a.invoices == [] && IsDate(start) && IsInstant(now)
    requires Reliable(t) && !t.free && Monthly(t.cycle)
    requires IsHistory(events, t.cycle) && Smooth(events)
    ensures var anchor := NextCycleAnchor(start, cycleDay);
            var r := Run(Activate(a, start, anchor, now, t), events, t.cycle).0;
            && r.sub.nextBillAt == Some(Noon(PlusMonths(anchor, k)))
            && |r.invoices| == 1 + k
  {
    hide Run, Activate, Smooth, IsHistory, NewInvoice, NoPrior;
    var anchor := NextCycleAnchor(start, cycleDay);
    NextCycleAnchorIsLeast(start, cycleDay);
    FirstInvoiceIsLive(a, start, anchor, now, t);
    k := SmoothRunFrom(Activate(a, start, anchor, now, t), Noon(anchor), events, t.cycle);
    MonthlyTicksKeepTheDay(anchor, t.cycle, k);
  }

  // ----- Free plans -----

  /** The same events as a free plan lives them. */
  function AsFree(e: Event): Event {
    if e.Pass? then e.(terms := e.terms.(free := true)) else e
  }

  function AllAsFree(events: seq<Event>): (r: seq<Event>)
    ensures |r| == |events|
  {
    if events == [] then [] else [AsFree(events[0])] + AllAsFree(events[1..])
  }

  lemma {:induction false} FreeHistory(events: seq<Event>, cycle: string)
    requires IsHistory(events, cycle)
    ensures IsHistory(AllAsFree(events), cycle)
  {
    if events != [] {
      assert IsEvent(events[0], cycle);
      FreeHistory(events[1..], cycle);
    }
  }

  /** A free account that starts with the clock of a paying one keeps its clock through any run of reliable
      passes and payments, whenever the passes come, and gets no invoice. */
  lemma {:induction false} FreeRunKeepsTheClock(free: Account, paying: Account, events: seq<Event>, cycle: string)
    requires IsAccount(free) && IsAccount(paying) && free.sub == paying.sub
    requires free.invoices == [] && !NoPrior(paying.invoices)
    requires IsHistory(events, cycle) && Smooth(events)
    ensures IsHistory(AllAsFree(events), cycle)
    ensures var end := Run(free, AllAsFree(events), cycle).0;
            end.sub == Run(paying, events, cycle).0.sub && end.invoices == []
    decreases |events|
  {
    FreeHistory(events, cycle);
    if events != [] {
      var e := events[0];
      assert IsEvent(e, cycle) && AllAsFree(events)[1..] == AllAsFree(events[1..]);
      LiveInvoiceStays(paying, e);
      FreeRunKeepsTheClock(Apply(free, AsFree(e)), Apply(paying, e), events[1..], cycle);
    }
  }

  /** From activation of a new subscription on, a free plan has the paying plan's clock after every run and
      never an invoice, provided its anchor lies ahead at activation. */
  lemma FreePlanFromActivation(a: Account, start: Date, anchor: Date, now: Instant, t: Terms, events: seq<Event>)
    requires IsAccount(a) && a.invoices == [] && IsDate(start) && IsDate(anchor) && Before(start, anchor)
    requires IsInstant(now) && Reliable(t) && !NotAfter(Noon(anchor), now)
    requires IsHistory(events, t.cycle) && Smooth(events)
    ensures IsHistory(AllAsFree(events), t.cycle)
    ensures var free := Run(Activate(a, start, anchor, now, t.(free := true)), AllAsFree(events), t.cycle).0;
            var paying := Run(Activate(a, start, anchor, now, t.(free := false)), events, t.cycle).0;
            free.sub == paying.sub && free.invoices == []
  {
    var free := Activate(a, start, anchor, now, t.(free := true));
    var paying := Activate(a, start, anchor, now, t.(free := false));
    ActivationClockIsTheSameIff(a, start, anchor, now, t);
    ActivationIssuesTheFirstInvoice(a, start, anchor, now, t.(free := false));
    assert !paying.invoices[0].trashed;
    FreeRunKeepsTheClock(free, paying, events, t.cycle);
  }

  lemma OneTickAheadCaughtUp(free: Account, paying: Account, later: Instant, t: Terms)
    requires IsAccount(free) && IsAccount(paying) && paying.sub.active && paying.sub.nextBillAt.Some?
    requires free.sub == paying.sub.(nextBillAt := Some(NextBill(paying.sub.nextBillAt.value, t.cycle)))
    requires IsInstant(later) && Reliable(t) && !NoPrior(paying.invoices)
    requires NotAfter(paying.sub.nextBillAt.value, later)
    ensures CatchUp(free, later, t.(free := true)).sub == CatchUp(paying, later, t.(free := false)).sub
    ensures CatchUp(free, later, t.(free := true)).invoices == free.invoices
  {
    hide CatchUp, NextBillDate, Cuts, NotAfter, Ticks;
    var clock := paying.sub.nextBillAt.value;
    var k := CatchUpBillsEveryAnchorOnce(free, later, t.(free := true));
    var m := CatchUpBillsEveryAnchorOnce(paying, later, t.(free := false));
    OneMoreDue(clock, t.cycle, later, k);
    CutsUnique(clock, t.cycle, later, k + 1, m);
  }

  /** A backdated activation puts the free clock one cycle ahead; catching up at any later instant closes
      the gap, so once caught up the two clocks are the same in every case. */
  lemma FreePlanCaughtUp(a: Account, start: Date, anchor: Date, now: Instant, later: Instant, t: Terms)
    requires IsAccount(a) && a.invoices == [] && IsDate(start) && IsDate(anchor) && Before(start, anchor)
    requires IsInstant(now) && IsInstant(later) && NotAfter(now, later) && Reliable(t)
    ensures var free := Activate(a, start, anchor, now, t.(free := true));
            var paying := Activate(a, start, anchor, now, t.(free := false));
            && !NoPrior(paying.invoices)
            && CatchUp(free, later, t.(free := true)).sub == CatchUp(paying, later, t.(free := false)).sub
            && CatchUp(free, later, t.(free := true)).invoices == []
  {
    var free := Activate(a, start, anchor, now, t.(free := true));
    var paying := Activate(a, start, anchor, now, t.(free := false));
    ActivationClockIsTheSameIff(a, start, anchor, now, t);
    ActivationIssuesTheFirstInvoice(a, start, anchor, now, t.(free := false));
    assert !paying.invoices[0].trashed;
    hide NewInvoice, CatchUp, NextBillDate, Due;
    if NotAfter(Noon(anchor), now) {
      OneTickAheadCaughtUp(free, paying, later, t);
    } else {
      FreeClockIsTheSame(free, paying, later, t);
    }
  }
}
