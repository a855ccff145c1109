/** The plan-change protocol: quote, deferred upgrade behind a marker, payment, and the switch once the
    delta invoice is paid (internal/billing/engine.go, internal/handlers/handlers.go,
    internal/store/subscription_pending.go). One subscription; the store writes are separate steps. */
module PlanChange {
  import opened Options
  import opened Calendar
  import opened Proration
  import opened Invoices

  type PlanId = nat
  type InvoiceId = nat

  datatype ServiceStatus = Active | Suspended | PastDue | Other

  /** The marker kept in the subscription's metadata. */
  datatype Pending = Pending(oldPlan: PlanId, newPlan: PlanId, invoice: InvoiceId)

  /** Billing rows and the router profile. `upgrades` collects the invoices issued for deferred upgrades
      and `switched` the invoices whose marker switched the plan, in order: both are history only. */
  datatype State = State(plan: PlanId, status: ServiceStatus, pending: Option<Pending>, invoices: seq<Invoice>,
                         router: PlanId, upgrades: set<InvoiceId>, switched: seq<InvoiceId>)

  /** A change request with its quote, and which of its reads and writes go through. */
  datatype Request = Request(plan: PlanId, quote: Quote, due: Date, markerRead: bool, invoiceRead: bool,
                             clearSaved: bool, invoiceSaved: bool, markerSaved: bool, planSaved: bool, synced: bool)

  /** What happens to one apply step: whether its reads and its plan write go through, whether the process
      goes on after that write, whether the marker is then cleared and the router reached. */
  datatype Writes = Writes(readOk: bool, planSaved: bool, goesOn: bool, cleared: bool, synced: bool)

  datatype Outcome = SamePlan | WrongStatus | AwaitingPayment | Deferred(invoice: InvoiceId) | Changed | Failed

  /** `PendingPlanInvoicePaid`; a trashed invoice is not found, hence not paid. */
  predicate InvoicePaid(s: State, p: Pending) {
    p.invoice < |s.invoices| &&
    var inv := s.invoices[p.invoice];
    !inv.trashed && ((inv.paid >= inv.total && inv.total > 0) || inv.status == Paid)
  }

  // ----- Specification of the steps -----

  predicate Refused(s: State, r: Request) {
    || s.plan == r.plan
    || s.status == Other
    || (r.markerRead && s.pending.Some? && !(r.invoiceRead && InvoicePaid(s, s.pending.value)))
  }

  predicate Charges(r: Request) {
    r.quote.requiresCharge && r.quote.delta > 0
  }

  predicate IsDeferred(r: Request) {
    r.quote.direction == Upgrade && Charges(r)
  }

  function Change(s: State, r: Request): State {
    if Refused(s, r) then s
    else
      var cleared := if r.markerRead && r.clearSaved then s.(pending := None) else s;
      var id := |s.invoices|;
      if IsDeferred(r) then
        var marker := Some(Pending(s.plan, r.plan, id));
        if !r.invoiceSaved then cleared
        else cleared.(invoices := s.invoices + [Delta(r.quote, r.due)], upgrades := s.upgrades + {id},
                      pending := if r.markerSaved then marker else cleared.pending)
      else if !r.planSaved then cleared
      else if Charges(r) && !r.invoiceSaved then cleared.(plan := r.plan)
      else
        cleared.(plan := r.plan, router := if r.synced then r.plan else s.router,
                 invoices := if Charges(r) then s.invoices + [Delta(r.quote, r.due)] else s.invoices)
  }

  function Refusal(s: State, r: Request): Outcome {
    if s.plan == r.plan then SamePlan else if s.status == Other then WrongStatus else AwaitingPayment
  }

  function OutcomeOf(s: State, r: Request): Outcome {
    if Refused(s, r) then Refusal(s, r)
    else if IsDeferred(r) then (if r.invoiceSaved then Deferred(|s.invoices|) else Failed)
    else if r.planSaved && (Charges(r) ==> r.invoiceSaved) then Changed
    else Failed
  }

  /** The apply step. */
  function ApplyPending(s: State, w: Writes): State {
    if s.pending.None? || !w.readOk || !InvoicePaid(s, s.pending.value) then s
    else
      var p := s.pending.value;
      var left := if w.goesOn && w.cleared then None else s.pending;
      if s.plan == p.newPlan then s.(pending := left)
      else if !w.planSaved then s
      else s.(plan := p.newPlan, pending := left, router := if w.goesOn && w.synced then p.newPlan else s.router,
              switched := s.switched + [p.invoice])
  }

  function Pay(s: State, id: InvoiceId, amount: nat): State {
    if id < |s.invoices| then s.(invoices := s.invoices[id := AddPayment(s.invoices[id], amount)]) else s
  }

  function SetTrashed(s: State, id: InvoiceId, trashed: bool): State {
    if id < |s.invoices| then s.(invoices := s.invoices[id := s.invoices[id].(trashed := trashed)]) else s
  }

  /** The discount handler on one of the invoices; refused discounts change nothing. */
  function Reprice(s: State, id: InvoiceId, rule: Rule, rate: Rate): State
    requires IsRate(rate)
  {
    if id < |s.invoices| then s.(invoices := s.invoices[id := Invoices.Step(s.invoices[id], Discounting(rule, rate))])
    else s
  }

  // ----- The code, write by write -----

  class SubscriptionStore {
    var plan: PlanId
    var status: ServiceStatus
    var pending: Option<Pending>
    var invoices: seq<Invoice>
    var router: PlanId
    ghost var upgrades: set<InvoiceId>
    ghost var switched: seq<InvoiceId>

    ghost function Abs(): State
      reads this
    {
      State(plan, status, pending, invoices, router, upgrades, switched)
    }

    method PendingInvoicePaid(p: Pending) returns (paid: bool)
      ensures paid == InvoicePaid(Abs(), p)
    {
      if p.invoice >= |invoices| || invoices[p.invoice].trashed {
        return false;
      }
      var inv := invoices[p.invoice];
      if inv.paid >= inv.total && inv.total > 0 {
        return true;
      }
      return inv.status == Paid;
    }

    /** The guards: same plan, wrong status, an upgrade that waits for its payment; a stale marker goes. */
    method Admit(r: Request) returns (refusal: Option<Outcome>)
      modifies this`pending
      ensures refusal == if Refused(old(Abs()), r) then Some(Refusal(old(Abs()), r)) else None
      ensures pending == if refusal.None? && r.markerRead && r.clearSaved then None else old(pending)
    {
      if plan == r.plan {
        return Some(SamePlan);
      }
      if status != Active && status != Suspended && status != PastDue {
        return Some(WrongStatus);
      }
      if r.markerRead && pending.Some? {
        var paid := false;
        if r.invoiceRead {
          paid := PendingInvoicePaid(pending.value);
        }
        if !paid {
          return Some(AwaitingPayment);
        }
        if r.clearSaved {
          pending := None;
        }
      }
      return None;
    }

    /** The engine's part: billing rows only. */
    method ApplyPlanChange(r: Request) returns (outcome: Outcome)
      modifies this`plan, this`pending, this`invoices, this`upgrades
      ensures Abs() == Change(old(Abs()), r.(synced := false))
      ensures outcome == OutcomeOf(old(Abs()), r)
    {
      assert Refused(Abs(), r.(synced := false)) == Refused(Abs(), r);
      hide Delta, Refused, Refusal;
      var refusal := Admit(r);
      if refusal.Some? {
        return refusal.value;
      }
      if r.quote.direction == Upgrade && r.quote.requiresCharge && r.quote.delta > 0 {
        if !r.invoiceSaved {
          return Failed;
        }
        var id := |invoices|;
        invoices := invoices + [Delta(r.quote, r.due)];
        upgrades := upgrades + {id};
        if r.markerSaved {
          pending := Some(Pending(plan, r.plan, id));
        }
        return Deferred(id);
      }
      if !r.planSaved {
        return Failed;
      }
      plan := r.plan;
      if r.quote.requiresCharge && r.quote.delta > 0 {
        if !r.invoiceSaved {
          return Failed;
        }
        invoices := invoices + [Delta(r.quote, r.due)];
      }
      outcome := Changed;
    }

    /** The handler: pushes the router only after an immediate change without an error. */
    method ApplyPlanChangeToRouter(r: Request) returns (outcome: Outcome)
      modifies this
      ensures Abs() == Change(old(Abs()), r)
      ensures outcome == OutcomeOf(old(Abs()), r)
    {
      outcome := ApplyPlanChange(r);
      if outcome == Changed && r.synced {
        router := plan;
      }
    }

    method ApplyPendingUpgradeIfPaid(w: Writes) returns (applied: bool)
      modifies this
      ensures Abs() == ApplyPending(old(Abs()), w)
      ensures applied <==> old(pending).Some? && w.readOk && InvoicePaid(old(Abs()), old(pending).value)
                           && (w.planSaved || old(plan) == old(pending).value.newPlan)
    {
      if !w.readOk || pending.None? {
        return false;
      }
      var p := pending.value;
      var paid := PendingInvoicePaid(p);
      if !paid {
        return false;
      }
      applied := true;
      if plan == p.newPlan {
        if w.goesOn && w.cleared {
          pending := None;
        }
        return;
      }
      if !w.planSaved {
        return false;
      }
      plan := p.newPlan;
      switched := switched + [p.invoice];
      if !w.goesOn {
        return;
      }
      if w.cleared {
        pending := None;
      }
      if w.synced {
        router := p.newPlan;
      }
    }
  }

  // ----- Runs -----

  datatype Step = Requesting(request: Request)
                | Paying(id: InvoiceId, amount: nat)
                | Applying(writes: Writes)
                | Trashing(id: InvoiceId)
                | Restoring(id: InvoiceId)
                | Restatus(status: ServiceStatus)
                | Repricing(id: InvoiceId, rule: Rule, rate: Rate)

  function Next(s: State, step: Step): State {
    match step
    case Requesting(r) => Change(s, r)
    case Paying(id, amount) => Pay(s, id, amount)
    case Applying(w) => ApplyPending(s, w)
    case Trashing(id) => SetTrashed(s, id, true)
    case Restoring(id) => SetTrashed(s, id, false)
    case Restatus(status) => s.(status := status)
    case Repricing(id, rule, rate) => if IsRate(rate) then Reprice(s, id, rule, rate) else s
  }

  function Run(s: State, steps: seq<Step>): State
    decreases |steps|
  {
    if steps == [] then s else Run(Next(s, steps[0]), steps[1..])
  }

  /** The quote is one the engine can produce. */
  predicate RealQuote(r: Request) {
    IsDeferred(r) ==> r.quote.total > 0
  }

  function Times(log: seq<InvoiceId>, id: InvoiceId): nat {
    multiset(log)[id]
  }

  predicate PaidUp(inv: Invoice) {
    inv.paid >= inv.total
  }

  /** What every step keeps. The marker names an upgrade invoice; the plan is the old one and that
      invoice has switched nothing, or it is the new one and that invoice switched it once and is paid.
      No invoice ever switches the plan twice, and none does unpaid. */
  ghost predicate Inv(s: State) {
    && (forall id :: id in s.upgrades ==> id < |s.invoices| && Charged(s.invoices[id]))
    && (forall id :: Times(s.switched, id) <= 1)
    && (forall id :: id in s.switched ==> id in s.upgrades && PaidUp(s.invoices[id]))
    && (s.pending.Some? ==> MarkerFits(s, s.pending.value))
  }

  /** The status says paid only of a paid invoice, and of each one that was not discounted down to it. */
  predicate Charged(inv: Invoice) {
    inv.total > 0 && (inv.status == Paid ==> PaidUp(inv)) && (PaidUp(inv) ==> inv.status == Paid || inv.discount > 0)
  }

  predicate MarkerFits(s: State, p: Pending) {
    && p.invoice in s.upgrades && p.oldPlan != p.newPlan
    && ((s.plan == p.oldPlan && p.invoice !in s.switched) || (s.plan == p.newPlan && p.invoice in s.switched))
  }

  predicate Start(s: State) {
    s.pending.None? && s.upgrades == {} && s.switched == []
  }

  lemma SwitchedSnoc(log: seq<InvoiceId>, id: InvoiceId)
    ensures forall k :: Times(log + [id], k) == Times(log, k) + if k == id then 1 else 0
    ensures forall k :: k in log + [id] <==> k in log || k == id
    ensures forall k :: Times(log, k) == 0 <==> k !in log
  {
  }

  lemma StartIsSettled(s: State)
    requires Start(s)
    ensures Inv(s) && OneOpen(s) && Prompt(s)
  {
  }

  /** No accepted, immediate change leaves a marker behind it. */
  predicate Tidy(s: State, r: Request) {
    Refused(s, r) || IsDeferred(r) || !r.planSaved || s.pending.None? || (r.markerRead && r.clearSaved)
  }

  /** A request keeps the invariant exactly when it is tidy: a marker that could not be read or cleared is
      harmless unless the plan is changed at once. */
  lemma RequestKeepsInvIff(s: State, r: Request)
    requires Inv(s) && RealQuote(r)
    ensures Inv(Change(s, r)) <==> Tidy(s, r)
  {
  }

  predicate Sound(s: State, step: Step) {
    step.Requesting? ==> RealQuote(step.request) && Tidy(s, step.request)
  }

  predicate AllSound(s: State, steps: seq<Step>)
    decreases |steps|
  {
    steps == [] || (Sound(s, steps[0]) && AllSound(Next(s, steps[0]), steps[1..]))
  }

  lemma StepKeepsInv(s: State, step: Step)
    requires Inv(s) && Sound(s, step)
    ensures Inv(Next(s, step))
  {
    if step.Applying? && s.pending.Some? {
      SwitchedSnoc(s.switched, s.pending.value.invoice);
    } else if step.Requesting? {
      RequestKeepsInvIff(s, step.request);
    } else if step.Repricing? && IsRate(step.rate) && step.id < |s.invoices| {
      RepricedStaysPaid(s.invoices[step.id], step.rule, step.rate);
    }
  }

  /** Safety over every run: requests, payments, applies (with failed writes and a stop after the plan
      write), lost markers, discounts, trashing, restoring and status changes in any order. */
  lemma {:induction false} RunKeepsInv(s: State, steps: seq<Step>)
    requires Inv(s) && AllSound(s, steps)
    ensures Inv(Run(s, steps))
    decreases |steps|
  {
    if steps != [] {
      StepKeepsInv(s, steps[0]);
      RunKeepsInv(Next(s, steps[0]), steps[1..]);
    }
  }

  /** What a request does that no guard stops and in which nothing fails, from prices and speeds. A faster plan
      that costs more for the rest of the cycle waits: plan and router stay, the delta invoice stands unpaid
      and the marker names it. Every other plan is in force at once, with an invoice if it costs more. */
  lemma ChangeOfPlan(s: State, r: Request, p: int, q: int, remaining: int, cycleDays: int, tax: Rate,
                     from: Speed, to: Speed)
    requires IsRate(tax) && 0 < cycleDays
    requires r.quote == QuotePlanChange(p, q, remaining, cycleDays, tax, from, to)
    requires s.plan != r.plan && s.status in {Active, Suspended, PastDue}
    requires s.pending.Some? ==> r.markerRead && r.invoiceRead && r.clearSaved && InvoicePaid(s, s.pending.value)
    requires r.invoiceSaved && r.markerSaved && r.planSaved && r.synced
    ensures var t, id := Change(s, r), |s.invoices|;
            var faster := from.download < to.download || (from.download == to.download && from.upload < to.upload);
            var dearer :=
              0 < remaining && ProrateAmount(p, remaining, cycleDays) < ProrateAmount(q, remaining, cycleDays);
            && (dearer ==>
                  && |t.invoices| == id + 1 && s.invoices <= t.invoices
                  && var inv := t.invoices[id];
                     && inv.forSubscription && inv.paid == 0 && inv.status == Issued && !inv.trashed
                     && inv.items == [Item(false, false, 1, r.quote.delta, r.quote.delta)] && inv.discount == 0
                     && !inv.lateFeeApplied
                     && inv.total == r.quote.total && 0 < inv.total && inv.due == r.due)
            && (!dearer ==> t.invoices == s.invoices)
            && (if faster && dearer then
                  t.plan == s.plan && t.router == s.router && t.pending == Some(Pending(s.plan, r.plan, id))
                  && t.upgrades == s.upgrades + {id}
                else
                  t.plan == r.plan && t.router == r.plan && t.pending == None && t.upgrades == s.upgrades)
            && t.status == s.status && t.switched == s.switched
  {
    WhichWayIsUp(p, q, remaining, cycleDays, tax, from, to);
    QuoteIsAntisymmetric(p, q, remaining, cycleDays, tax, from, to);
    hide ProrateAmount, PlanChangeDirection, PercentOf, InvoicePaid;
  }

  /** Which requests change nothing, and what they are answered: the same plan, a subscription that is not
      active, suspended or overdue, or an upgrade whose invoice is not seen paid. */
  lemma RefusalsIff(s: State, r: Request)
    ensures var waiting := s.pending.Some? && r.markerRead &&
              !(r.invoiceRead && s.pending.value.invoice < |s.invoices| &&
                var inv := s.invoices[s.pending.value.invoice];
                !inv.trashed && (inv.status == Paid || (0 < inv.total <= inv.paid)));
            var refused := s.plan == r.plan || s.status !in {Active, Suspended, PastDue} || waiting;
            && (OutcomeOf(s, r) in {SamePlan, WrongStatus, AwaitingPayment} <==> refused)
            && (refused ==> Change(s, r) == s)
            && (OutcomeOf(s, r) == SamePlan <==> s.plan == r.plan)
            && (OutcomeOf(s, r) == WrongStatus <==> s.plan != r.plan && s.status !in {Active, Suspended, PastDue})
  {
    var st := s.status;
    assert st.Active? || st.Suspended? || st.PastDue? || st.Other?;
  }

  /** An upgrade whose invoice goes to the trash waits, even a paid one, until the invoice is restored. */
  lemma UpgradeInTheTrashWaits(s: State, w: Writes)
    requires s.pending.Some? && s.pending.value.invoice < |s.invoices|
    ensures var id := s.pending.value.invoice;
            var t := Next(s, Trashing(id));
            && Next(t, Applying(w)) == t && t.plan == s.plan && t.pending == s.pending
            && (!s.invoices[id].trashed ==> Next(t, Restoring(id)) == s)
  {
    assert s.invoices[s.pending.value.invoice := s.invoices[s.pending.value.invoice]] == s.invoices;
  }

  /** The router follows the plan of an applied upgrade if the process goes on and the router is reached, and
      only then; a paid marker that is already in force only goes. */
  lemma RouterFollowsTheUpgrade(s: State, w: Writes)
    requires s.pending.Some? && InvoicePaid(s, s.pending.value) && w.readOk
    ensures var t, p := ApplyPending(s, w), s.pending.value;
            && (s.plan == p.newPlan ==> t.plan == s.plan && t.router == s.router)
            && (s.plan != p.newPlan && w.planSaved ==>
                  t.plan == p.newPlan && t.router == if w.goesOn && w.synced then p.newPlan else s.router)
            && (s.plan != p.newPlan && !w.planSaved ==> t == s)
            && ((s.plan == p.newPlan || w.planSaved) ==> (t.pending == None <==> w.goesOn && w.cleared))
  {
  }

  /** While the delta invoice is unpaid (or in the trash) no apply changes anything, and a request changes
      something exactly when it is otherwise valid, its marker read fails and its own first write does not. */
  lemma UnpaidUpgradeBlocks(s: State, r: Request)
    requires Inv(s) && s.pending.Some?
    requires !PaidUp(s.invoices[s.pending.value.invoice]) || s.invoices[s.pending.value.invoice].trashed
    ensures Change(s, r) == s <==> || r.markerRead || s.plan == r.plan || s.status == Other
                                   || !(if IsDeferred(r) then r.invoiceSaved else r.planSaved)
    ensures forall w :: ApplyPending(s, w) == s
  {
  }

  /** Applying again, after a clean apply or after one that failed or stopped halfway, ends where one clean
      apply ends, up to the router, which is pushed by the switching call or not at all. */
  lemma ApplyIsIdempotent(s: State, w: Writes, synced: bool, synced': bool)
    requires Inv(s)
    ensures var once := ApplyPending(s, Clean(synced));
            && ApplyPending(once, Clean(synced')) == once
            && ApplyPending(ApplyPending(s, w), Clean(synced')).(router := s.router) == once.(router := s.router)
  {
  }

  function Clean(synced: bool): Writes {
    Writes(true, true, true, true, synced)
  }

  // ----- At most one upgrade is open -----

  /** Every unpaid upgrade invoice is the one the marker names. */
  ghost predicate OneOpen(s: State) {
    forall id :: id in s.upgrades && id < |s.invoices| && !PaidUp(s.invoices[id]) ==>
      s.pending.Some? && s.pending.value.invoice == id
  }

  /** A new upgrade gets its marker, and takes it from no unpaid one. */
  predicate Marked(s: State, r: Request) {
    Refused(s, r) || !IsDeferred(r) || !r.invoiceSaved
    || (r.markerSaved && (s.pending.Some? && s.pending.value.invoice < |s.invoices|
                          ==> PaidUp(s.invoices[s.pending.value.invoice])))
  }

  /** A request leaves a second, unmarked upgrade open exactly when a marker is lost or overwritten. */
  lemma RequestKeepsOneOpenIff(s: State, r: Request)
    requires Inv(s) && OneOpen(s) && RealQuote(r)
    ensures OneOpen(Change(s, r)) <==> Marked(s, r)
  {
    var t, id := Change(s, r), |s.invoices|;
    if !Refused(s, r) && IsDeferred(r) && r.invoiceSaved {
      assert id in t.upgrades && !PaidUp(t.invoices[id]);
      if s.pending.Some? {
        assert t.invoices[s.pending.value.invoice] == s.invoices[s.pending.value.invoice];
      }
    }
  }

  predicate AllMarked(s: State, steps: seq<Step>)
    decreases |steps|
  {
    steps == [] || ((steps[0].Requesting? ==> Marked(s, steps[0].request)) && AllMarked(Next(s, steps[0]), steps[1..]))
  }

  lemma {:induction false} AtMostOneUpgradeOpen(s: State, steps: seq<Step>)
    requires Inv(s) && OneOpen(s) && AllSound(s, steps) && AllMarked(s, steps)
    ensures OneOpen(Run(s, steps))
    decreases |steps|
  {
    if steps != [] {
      var t := Next(s, steps[0]);
      StepKeepsInv(s, steps[0]);
      if steps[0].Requesting? {
        RequestKeepsOneOpenIff(s, steps[0].request);
      }
      assert OneOpen(t);
      AtMostOneUpgradeOpen(t, steps[1..]);
    }
  }

  // ----- Exactly once, and when not -----

  /** Settled books: an upgrade invoice is paid exactly when it has switched the plan. */
  ghost predicate Prompt(s: State) {
    && OneOpen(s)
    && forall id :: id in s.upgrades && id < |s.invoices| ==> (PaidUp(s.invoices[id]) <==> Times(s.switched, id) == 1)
  }

  /** Requests, status changes, discounts and payments, each payment directly followed by an apply step, which
      may stop after its plan write or fail to clear the marker. */
  datatype Round = Ask(request: Request)
                 | Settle(id: InvoiceId, amount: nat, writes: Writes)
                 | Relabel(status: ServiceStatus)
                 | Discount(id: InvoiceId, rule: Rule, rate: Rate)

  function StepsOf(rounds: seq<Round>): seq<Step> {
    if rounds == [] then []
    else match rounds[0]
      case Ask(r) => [Requesting(r)] + StepsOf(rounds[1..])
      case Settle(id, amount, w) => [Paying(id, amount), Applying(w)] + StepsOf(rounds[1..])
      case Relabel(status) => [Restatus(status)] + StepsOf(rounds[1..])
      case Discount(id, rule, rate) => [Repricing(id, rule, rate)] + StepsOf(rounds[1..])
  }

  predicate Trusty(r: Request) {
    RealQuote(r) && r.markerRead && r.clearSaved && r.markerSaved
  }

  /** The state after a round. */
  function After(s: State, round: Round): State {
    match round
    case Ask(r) => Change(s, r)
    case Settle(id, amount, w) => ApplyPending(Pay(s, id, amount), w)
    case Relabel(status) => s.(status := status)
    case Discount(id, rule, rate) => Next(s, Repricing(id, rule, rate))
  }

  /** Marker reads and writes and the plan write go through, and no discount pays an upgrade. */
  predicate Orderly(s: State, round: Round) {
    match round
    case Ask(r) => Trusty(r)
    case Settle(_, _, w) => w.readOk && w.planSaved
    case Relabel(_) => true
    case Discount(id, _, _) => !PaysByDiscount(s, After(s, round), id)
  }

  predicate Reliable(s: State, rounds: seq<Round>)
    decreases |rounds|
  {
    rounds == [] || (Orderly(s, rounds[0]) && Reliable(After(s, rounds[0]), rounds[1..]))
  }

  /** From `s` to `t`, the total of an unpaid upgrade invoice has come down to what is paid of it. */
  predicate PaysByDiscount(s: State, t: State, id: InvoiceId) {
    id in s.upgrades && id < |s.invoices| && id < |t.invoices| && !PaidUp(s.invoices[id]) && PaidUp(t.invoices[id])
  }

  /** A discount keeps the books settled unless it brings the total of an upgrade invoice down to what is
      already paid: that pays the invoice with no apply step behind it. */
  lemma DiscountKeepsPromptIff(s: State, id: InvoiceId, rule: Rule, rate: Rate)
    requires Inv(s) && Prompt(s) && Live(s)
    ensures var t := Next(s, Repricing(id, rule, rate));
            && Live(t)
            && (Prompt(t) <==> !PaysByDiscount(s, t, id))
  {
    var t := Next(s, Repricing(id, rule, rate));
    if id < |s.invoices| && IsRate(rate) {
      RepricedStaysPaid(s.invoices[id], rule, rate);
      SwitchedSnoc(s.switched, id);
      if PaysByDiscount(s, t, id) {
        assert !(PaidUp(t.invoices[id]) <==> Times(t.switched, id) == 1);
      }
    }
  }

  /** Discounting keeps an upgrade invoice charged, and a paid one paid. */
  lemma RepricedStaysPaid(inv: Invoice, rule: Rule, rate: Rate)
    requires IsRate(rate)
    ensures var after := Invoices.Step(inv, Discounting(rule, rate));
            && after.trashed == inv.trashed
            && (Charged(inv) ==> Charged(after) && (PaidUp(inv) ==> PaidUp(after)))
  {
  }

  lemma AskKeepsPrompt(s: State, r: Request)
    requires Inv(s) && Prompt(s) && Live(s) && Trusty(r)
    ensures Prompt(Change(s, r)) && Live(Change(s, r))
  {
    RequestKeepsOneOpenIff(s, r);
    SwitchedSnoc(s.switched, 0);
  }

  predicate Live(s: State) {
    forall i :: 0 <= i < |s.invoices| ==> !s.invoices[i].trashed
  }

  /** Settled books but for the invoice that the marker names. */
  ghost predicate Apart(s: State) {
    && OneOpen(s)
    && forall id :: id in s.upgrades && id < |s.invoices| && (s.pending.Some? ==> id != s.pending.value.invoice)
         ==> (PaidUp(s.invoices[id]) <==> Times(s.switched, id) == 1)
  }

  lemma PayKeepsApart(s: State, id: InvoiceId, amount: nat)
    requires Inv(s) && Prompt(s) && Live(s)
    ensures Apart(Pay(s, id, amount)) && Live(Pay(s, id, amount))
  {
  }

  lemma ApplyMakesPrompt(s: State, w: Writes)
    requires Inv(s) && Apart(s) && Live(s) && w.readOk && w.planSaved
    ensures Prompt(ApplyPending(s, w)) && Live(ApplyPending(s, w))
  {
    SwitchedSnoc(s.switched, if s.pending.Some? then s.pending.value.invoice else 0);
  }

  lemma SettleKeepsPrompt(s: State, id: InvoiceId, amount: nat, w: Writes)
    requires Inv(s) && Prompt(s) && Live(s) && w.readOk && w.planSaved
    ensures var t := ApplyPending(Pay(s, id, amount), w);
            Prompt(t) && Live(t)
  {
    StepKeepsInv(s, Paying(id, amount));
    PayKeepsApart(s, id, amount);
    ApplyMakesPrompt(Pay(s, id, amount), w);
  }

  lemma RoundKeepsPrompt(s: State, round: Round)
    requires Inv(s) && Prompt(s) && Live(s) && Orderly(s, round)
    ensures var t := After(s, round);
            Inv(t) && Prompt(t) && Live(t)
  {
    match round
    case Ask(r) =>
      AskKeepsPrompt(s, r);
      StepKeepsInv(s, Requesting(r));
    case Settle(id, amount, w) =>
      SettleKeepsPrompt(s, id, amount, w);
      StepKeepsInv(s, Paying(id, amount));
      StepKeepsInv(Pay(s, id, amount), Applying(w));
    case Relabel(status) =>
      StepKeepsInv(s, Restatus(status));
    case Discount(id, rule, rate) =>
      DiscountKeepsPromptIff(s, id, rule, rate);
      StepKeepsInv(s, Repricing(id, rule, rate));
  }

  lemma RoundIsSteps(s: State, rounds: seq<Round>)
    requires rounds != []
    ensures Run(s, StepsOf(rounds)) == Run(After(s, rounds[0]), StepsOf(rounds[1..]))
  {
    var rest := StepsOf(rounds[1..]);
    match rounds[0]
    case Ask(r) => RunCons(s, Requesting(r), rest);
    case Settle(id, amount, w) =>
      RunCons(Pay(s, id, amount), Applying(w), rest);
      RunCons(s, Paying(id, amount), [Applying(w)] + rest);
      assert [Paying(id, amount)] + ([Applying(w)] + rest) == StepsOf(rounds);
    case Relabel(status) => RunCons(s, Restatus(status), rest);
    case Discount(id, rule, rate) => RunCons(s, Repricing(id, rule, rate), rest);
  }

  /** When the apply step follows each payment, every paid upgrade takes effect exactly once and no
      unpaid one does, whatever the requests, status changes and discounts that pay no upgrade, and wherever
      the apply step stops. */
  lemma {:induction false} EveryPaidUpgradeSwitchesOnce(s: State, rounds: seq<Round>)
    requires Inv(s) && Prompt(s) && Live(s) && Reliable(s, rounds)
    ensures Inv(Run(s, StepsOf(rounds))) && Prompt(Run(s, StepsOf(rounds))) && Live(Run(s, StepsOf(rounds)))
    decreases |rounds|
  {
    if rounds != [] {
      RoundKeepsPrompt(s, rounds[0]);
      RoundIsSteps(s, rounds);
      EveryPaidUpgradeSwitchesOnce(After(s, rounds[0]), rounds[1..]);
    }
  }

  lemma RunCons(s: State, step: Step, rest: seq<Step>)
    ensures Run(s, [step] + rest) == Run(Next(s, step), rest)
  {
    assert ([step] + rest)[1..] == rest;
  }

  /** A paid upgrade that has not been applied yet survives the next change request exactly when that request
      is refused, or its marker is neither cleared nor overwritten; otherwise its marker is gone. */
  lemma PaidUpgradeSurvivesIff(s: State, r: Request)
    requires Inv(s) && s.pending.Some?
    requires s.plan == s.pending.value.oldPlan && InvoicePaid(s, s.pending.value)
    ensures Change(s, r).pending == s.pending
            <==> Refused(s, r)
                 || (!(r.markerRead && r.clearSaved) && !(IsDeferred(r) && r.invoiceSaved && r.markerSaved))
    ensures Change(s, r).pending != s.pending ==> Forgotten(Change(s, r), s.pending.value.invoice)
  {
  }

  predicate Forgotten(s: State, id: InvoiceId) {
    id < |s.invoices| && id !in s.switched && (s.pending.Some? ==> s.pending.value.invoice != id)
  }

  /** Once its marker is gone, a paid upgrade never takes effect in any continuation. */
  lemma {:induction false} ForgottenForEver(s: State, steps: seq<Step>, id: InvoiceId)
    requires Forgotten(s, id)
    ensures Forgotten(Run(s, steps), id)
    decreases |steps|
  {
    if steps != [] {
      ForgottenForEver(Next(s, steps[0]), steps[1..], id);
    }
  }

  /** An immediate change made while a paid marker stands survives the next apply exactly when that marker
      was read and cleared, or named the same plan; otherwise the apply undoes it. */
  lemma NewChoiceSurvivesIff(s: State, r: Request, w: Writes)
    requires Inv(s) && s.pending.Some? && InvoicePaid(s, s.pending.value)
    requires !Refused(s, r) && !IsDeferred(r) && r.planSaved
    requires w.readOk && w.planSaved
    ensures Change(s, r).plan == r.plan
    ensures ApplyPending(Change(s, r), w).plan == r.plan
            <==> (r.markerRead && r.clearSaved) || r.plan == s.pending.value.newPlan
  {
  }
}
