/** Payment intents of one invoice and of wallet top-ups: checkout, webhook deliveries, status polls and
    cancellation (internal/handlers/checkout.go, internal/handlers/provision_helpers.go,
    internal/handlers/handlers.go, internal/store/webhook_ops.go). */
module GatewayIntents {
  import opened Options
  import opened Invoices

  type IntentId = nat

  /** `PaidWord` is the literal "paid", `PaidAlias` any other spelling the gateways use for it,
      `Pending`, `Cancelled'` and `OtherOpen` everything that is not a payment. */
  datatype Word = PaidWord | PaidAlias | PendingWord | CancelledWord | OtherOpen(closedByPayment: bool)

  predicate WebhookIsPaid(w: Word) {
    w.PaidWord? || w.PaidAlias?
  }

  datatype Purpose = ForInvoice | ForWallet(topUpAmount: int)

  /** `base` is the metadata's base_amount, 0 when absent. */
  datatype Intent = Intent(purpose: Purpose, amount: int, base: int, status: Word)

  datatype Receipt = Receipt(intent: IntentId, amount: int)

  datatype State = State(invoice: Invoice, intents: map<IntentId, Intent>, receipts: seq<Receipt>)

  /** Which store writes of one event succeed. */
  datatype Writes = Writes(recorded: bool, paidSaved: bool, cancelSaved: bool, tailSaved: bool)

  // ----- Specification -----

  /** What a paid event is worth: at most the base, and the base when the gateway reports no amount. */
  function Worth(i: Intent, eventAmount: int): int {
    match i.purpose
    case ForInvoice =>
      var base := if i.base > 0 then i.base else i.amount;
      if eventAmount <= 0 then base else if 0 < base < eventAmount then base else eventAmount
    case ForWallet(topUp) =>
      if eventAmount > 0 then eventAmount else if topUp > 0 then topUp else i.amount
  }

  /** `UpdatePaymentIntentStatus` never touches a paid intent. */
  function WithStatus(s: State, id: IntentId, w: Word, saved: bool): State {
    if saved && id in s.intents && s.intents[id].status != PaidWord
    then s.(intents := s.intents[id := s.intents[id].(status := w)]) else s
  }

  predicate OpenForPayment(i: Intent) {
    i.purpose.ForInvoice? && (i.status == PendingWord || (i.status.OtherOpen? && i.status.closedByPayment))
  }

  function CloseSiblings(s: State): State {
    s.(intents := map id | id in s.intents ::
         if OpenForPayment(s.intents[id]) then s.intents[id].(status := CancelledWord) else s.intents[id])
  }

  predicate Records(i: Intent, eventAmount: int, w: Writes) {
    i.status != PaidWord && w.recorded && (i.purpose.ForWallet? ==> 0 < Worth(i, eventAmount))
  }

  /** `completePaidWebhook`; on a failed recording nothing else happens. */
  function Complete(s: State, id: IntentId, eventAmount: int, w: Writes): State {
    if id !in s.intents || !Records(s.intents[id], eventAmount, w) then s
    else
      var i := s.intents[id];
      var amount := Worth(i, eventAmount);
      var booked := s.(receipts := s.receipts + [Receipt(id, amount)],
                       invoice := if i.purpose.ForInvoice? then AddPayment(s.invoice, amount) else s.invoice);
      var closed := WithStatus(booked, id, PaidWord, w.paidSaved);
      if i.purpose.ForInvoice? && w.cancelSaved then CloseSiblings(closed) else closed
  }

  predicate CompleteFails(s: State, id: IntentId, eventAmount: int, w: Writes) {
    id in s.intents && s.intents[id].status != PaidWord && !Records(s.intents[id], eventAmount, w)
  }

  /** One webhook delivery: completion first, then the raw status. */
  function Deliver(s: State, id: IntentId, status: Word, eventAmount: int, w: Writes): State {
    if WebhookIsPaid(status) then
      if CompleteFails(s, id, eventAmount, w) then s
      else WithStatus(Complete(s, id, eventAmount, w), id, status, w.tailSaved)
    else WithStatus(s, id, status, w.tailSaved)
  }

  /** One status poll; QRIS polls carry the gateway's amount, the others the intent's own. */
  function Poll(s: State, id: IntentId, remote: Option<Word>, qrAmount: Option<int>, w: Writes): State {
    if id !in s.intents || WebhookIsPaid(s.intents[id].status) || remote.None? then s
    else if WebhookIsPaid(remote.value) then
      Complete(s, id, if qrAmount.Some? then qrAmount.value else s.intents[id].amount, w)
    else WithStatus(s, id, remote.value, w.tailSaved)
  }

  /** Cancelling an intent that is not known to be paid. */
  function Cancel(s: State, id: IntentId, agreed: bool, saved: bool): State {
    if id !in s.intents || WebhookIsPaid(s.intents[id].status) || !agreed then s
    else WithStatus(s, id, CancelledWord, saved)
  }

  predicate CanPayOnline(inv: Invoice) {
    inv.status !in {Status.Paid, Void, Cancelled} && inv.total > inv.paid
  }

  /** A pending intent of the same charge, on which the customer may be sent again. */
  predicate Reusable(s: State, existing: Option<IntentId>, charge: int) {
    existing.Some? && existing.value in s.intents
    && var i := s.intents[existing.value]; i.purpose.ForInvoice? && i.status == PendingWord && i.amount == charge
  }

  /** One checkout: the customer's fee, the latest pending intent with a payment link and a fitting callback,
      whether a new intent is created at the gateway and stored, and whether the other ones are cancelled. */
  datatype Order = Order(fee: nat, existing: Option<IntentId>, created: bool, cancelSaved: bool)

  function Charge(s: State, o: Order): int {
    s.invoice.total - s.invoice.paid + o.fee
  }

  /** The intent the customer is sent to. */
  function SentTo(s: State, id: IntentId, o: Order): Option<IntentId> {
    if !CanPayOnline(s.invoice) then None
    else if Reusable(s, o.existing, Charge(s, o)) then o.existing
    else if o.created then Some(id)
    else None
  }

  /** A checkout charges the remainder plus the fee, on the existing intent if that charges the same or on a
      new one, and cancels the other pending ones. */
  function Checkout(s: State, id: IntentId, o: Order): State
    requires id !in s.intents
  {
    match SentTo(s, id, o)
    case None => s
    case Some(out) =>
      var i := Intent(ForInvoice, Charge(s, o), s.invoice.total - s.invoice.paid, PendingWord);
      var t := if out in s.intents then s else s.(intents := s.intents[id := i]);
      if o.cancelSaved then CancelPendingExcept(t, out) else t
  }

  function CancelPendingExcept(s: State, keep: IntentId): State {
    s.(intents := map id | id in s.intents ::
         if id != keep && s.intents[id].purpose.ForInvoice? && s.intents[id].status == PendingWord
         then s.intents[id].(status := CancelledWord) else s.intents[id])
  }

  // ----- The code -----

  class GatewayStore {
    var invoice: Invoice
    var intents: map<IntentId, Intent>
    var receipts: seq<Receipt>

    ghost function Abs(): State
      reads this
    {
      State(invoice, intents, receipts)
    }

    method UpdatePaymentIntentStatus(id: IntentId, w: Word, saved: bool)
      modifies this`intents
      ensures Abs() == WithStatus(old(Abs()), id, w, saved)
    {
      if saved && id in intents && intents[id].status != PaidWord {
        intents := intents[id := intents[id].(status := w)];
      }
    }

    method CompletePaidWebhook(id: IntentId, eventAmount: int, w: Writes) returns (ok: bool)
      modifies this
      ensures Abs() == Complete(old(Abs()), id, eventAmount, w)
      ensures ok == !CompleteFails(old(Abs()), id, eventAmount, w)
    {
      if id !in intents {
        return true;
      }
      var pi := intents[id];
      if pi.status == PaidWord {
        return true;
      }
      if pi.purpose.ForWallet? {
        var amount := eventAmount;
        if amount <= 0 {
          amount := pi.purpose.topUpAmount;
        }
        if amount <= 0 {
          amount := pi.amount;
        }
        if amount <= 0 || !w.recorded {
          return false;
        }
        receipts := receipts + [Receipt(id, amount)];
        UpdatePaymentIntentStatus(id, PaidWord, w.paidSaved);
        return true;
      }
      var base := pi.amount;
      if pi.base > 0 {
        base := pi.base;
      }
      var amount := eventAmount;
      if amount <= 0 {
        amount := base;
      }
      if base > 0 && amount > base {
        amount := base;
      }
      if !w.recorded {
        return false;
      }
      receipts := receipts + [Receipt(id, amount)];
      invoice := AddPayment(invoice, amount);
      UpdatePaymentIntentStatus(id, PaidWord, w.paidSaved);
      if w.cancelSaved {
        intents := map k | k in intents ::
          if OpenForPayment(intents[k]) then intents[k].(status := CancelledWord) else intents[k];
      }
      ok := true;
    }

    method ProcessPaymentWebhook(id: IntentId, status: Word, eventAmount: int, w: Writes)
      modifies this
      ensures Abs() == Deliver(old(Abs()), id, status, eventAmount, w)
    {
      if WebhookIsPaid(status) {
        var ok := CompletePaidWebhook(id, eventAmount, w);
        if !ok {
          return;
        }
      }
      UpdatePaymentIntentStatus(id, status, w.tailSaved);
    }

    method SyncIntentStatus(id: IntentId, remote: Option<Word>, qrAmount: Option<int>, w: Writes)
      modifies this
      ensures Abs() == Poll(old(Abs()), id, remote, qrAmount, w)
    {
      if id !in intents || WebhookIsPaid(intents[id].status) || remote.None? {
        return;
      }
      if WebhookIsPaid(remote.value) {
        var _ := CompletePaidWebhook(id, if qrAmount.Some? then qrAmount.value else intents[id].amount, w);
      } else {
        UpdatePaymentIntentStatus(id, remote.value, w.tailSaved);
      }
    }

    method CancelPendingPaymentIntentsExcept(keep: IntentId, saved: bool)
      modifies this`intents
      ensures Abs() == if saved then CancelPendingExcept(old(Abs()), keep) else old(Abs())
    {
      if saved {
        intents := map k | k in intents ::
          if k != keep && intents[k].purpose.ForInvoice? && intents[k].status == PendingWord
          then intents[k].(status := CancelledWord) else intents[k];
      }
    }

    /** `id` is the reference the gateway gives to a new intent. */
    method CheckoutInvoice(id: IntentId, o: Order) returns (out: Option<IntentId>)
      requires id !in intents
      modifies this
      ensures Abs() == Checkout(old(Abs()), id, o)
      ensures out == SentTo(old(Abs()), id, o)
    {
      if invoice.status == Status.Paid || invoice.status == Void || invoice.status == Cancelled {
        return None;
      }
      var base := invoice.total - invoice.paid;
      if base <= 0 {
        return None;
      }
      var charge := base + o.fee;
      if o.existing.Some? && o.existing.value in intents {
        var pi := intents[o.existing.value];
        if pi.purpose.ForInvoice? && pi.status == PendingWord && pi.amount == charge {
          CancelPendingPaymentIntentsExcept(o.existing.value, o.cancelSaved);
          return o.existing;
        }
      }
      if !o.created {
        return None;
      }
      intents := intents[id := Intent(ForInvoice, charge, base, PendingWord)];
      CancelPendingPaymentIntentsExcept(id, o.cancelSaved);
      out := Some(id);
    }
  }

  // ----- Runs -----

  datatype Event = Delivery(id: IntentId, status: Word, amount: int, writes: Writes)
                 | Polling(id: IntentId, remote: Option<Word>, qrAmount: Option<int>, writes: Writes)
                 | Cancelling(id: IntentId, agreed: bool, saved: bool)
                 | NewCheckout(id: IntentId, order: Order)

  function Next(s: State, e: Event): State {
    match e
    case Delivery(id, status, amount, w) => Deliver(s, id, status, amount, w)
    case Polling(id, remote, qrAmount, w) => Poll(s, id, remote, qrAmount, w)
    case Cancelling(id, agreed, saved) => Cancel(s, id, agreed, saved)
    case NewCheckout(id, o) => if id in s.intents then s else Checkout(s, id, o)
  }

  function Run(s: State, events: seq<Event>): State
    decreases |events|
  {
    if events == [] then s else Run(Next(s, events[0]), events[1..])
  }

  function ReceiptsOf(receipts: seq<Receipt>, id: IntentId): seq<int> {
    if receipts == [] then []
    else if receipts[0].intent == id then [receipts[0].amount] + ReceiptsOf(receipts[1..], id)
    else ReceiptsOf(receipts[1..], id)
  }

  lemma {:induction false} ReceiptsSnoc(receipts: seq<Receipt>, r: Receipt, id: IntentId)
    ensures ReceiptsOf(receipts + [r], id)
         == if r.intent == id then ReceiptsOf(receipts, id) + [r.amount] else ReceiptsOf(receipts, id)
  {
    if receipts == [] {
      assert (receipts + [r])[1..] == [];
    } else {
      assert (receipts + [r])[1..] == receipts[1..] + [r];
      ReceiptsSnoc(receipts[1..], r, id);
    }
  }

  /** The amount an event reports for its intent. */
  function AmountOf(s: State, e: Event): int
    requires e.id in s.intents && (e.Delivery? || e.Polling?)
  {
    if e.Delivery? then e.amount else if e.qrAmount.Some? then e.qrAmount.value else s.intents[e.id].amount
  }

  /** The event reports a payment and its recording succeeds. */
  predicate Books(s: State, e: Event) {
    && (e.Delivery? || e.Polling?) && e.id in s.intents
    && (if e.Delivery? then WebhookIsPaid(e.status)
        else !WebhookIsPaid(s.intents[e.id].status) && e.remote.Some? && WebhookIsPaid(e.remote.value))
    && Records(s.intents[e.id], AmountOf(s, e), e.writes)
  }

  /** One of the status writes that close the intent succeeds: its own, or the trailing one of a webhook
      that spells the status "paid". */
  predicate Closing(e: Event)
    requires e.Delivery? || e.Polling?
  {
    e.writes.paidSaved || (e.Delivery? && e.status == PaidWord && e.writes.tailSaved)
  }

  predicate Closes(s: State, e: Event) {
    Books(s, e) ==> Closing(e)
  }

  predicate AllClose(s: State, events: seq<Event>)
    decreases |events|
  {
    events == [] || (Closes(s, events[0]) && AllClose(Next(s, events[0]), events[1..]))
  }

  /** What one event adds to the receipts. */
  lemma NextReceipts(s: State, e: Event)
    ensures Next(s, e).receipts
         == if Books(s, e) then s.receipts + [Receipt(e.id, Worth(s.intents[e.id], AmountOf(s, e)))] else s.receipts
  {
  }

  /** A booked intent, by webhook or by poll, is closed for later events exactly when a closing write
      succeeds; otherwise the same event books it again. */
  lemma ClosedIff(s: State, e: Event)
    requires Books(s, e)
    ensures Next(s, e).intents[e.id].status == PaidWord <==> Closing(e)
    ensures !Closing(e) ==> Books(Next(s, e), e)
  {
  }

  // ----- No intent is booked twice -----

  /** An intent is marked paid exactly when its one receipt exists, and never under an alias. */
  predicate OnceFor(s: State, id: IntentId) {
    var n := |ReceiptsOf(s.receipts, id)|;
    if id !in s.intents then n == 0
    else s.intents[id].status != PaidAlias && n == if s.intents[id].status == PaidWord then 1 else 0
  }

  ghost predicate Once(s: State) {
    forall id :: OnceFor(s, id)
  }

  /** An event keeps receipts and paid marks in step exactly when it closes what it books. */
  lemma EventKeepsOnceIff(s: State, e: Event)
    requires Once(s)
    ensures Once(Next(s, e)) <==> Closes(s, e)
  {
    var t := Next(s, e);
    NextReceipts(s, e);
    if Closes(s, e) {
      forall id
        ensures OnceFor(t, id)
      {
        StaysOnce(s, e, id);
      }
    } else {
      assert OnceFor(s, e.id);
      ReceiptsSnoc(s.receipts, Receipt(e.id, Worth(s.intents[e.id], AmountOf(s, e))), e.id);
      ClosedIff(s, e);
      assert !OnceFor(t, e.id);
    }
  }

  lemma StaysOnce(s: State, e: Event, id: IntentId)
    requires OnceFor(s, id) && Closes(s, e)
    ensures OnceFor(Next(s, e), id)
  {
    NextReceipts(s, e);
    if Books(s, e) {
      ReceiptsSnoc(s.receipts, Receipt(e.id, Worth(s.intents[e.id], AmountOf(s, e))), id);
    }
  }

  /** Over every sequence of deliveries, polls, cancellations and checkouts, in any order and with any
      statuses, no intent is booked twice; one that is booked stays marked paid. */
  lemma {:induction false} EveryIntentBookedAtMostOnce(s: State, events: seq<Event>)
    requires Once(s) && AllClose(s, events)
    ensures Once(Run(s, events))
    ensures s.receipts <= Run(s, events).receipts
    decreases |events|
  {
    if events != [] {
      EventKeepsOnceIff(s, events[0]);
      NextReceipts(s, events[0]);
      EveryIntentBookedAtMostOnce(Next(s, events[0]), events[1..]);
    }
  }

  // ----- Exactly one receipt, and of how much -----

  /** Once marked paid, an intent and its receipts are frozen, whatever comes. */
  lemma {:induction false} PaidIsFrozen(s: State, id: IntentId, later: seq<Event>)
    requires id in s.intents && s.intents[id].status == PaidWord
    ensures var end := Run(s, later);
            && id in end.intents && end.intents[id] == s.intents[id]
            && ReceiptsOf(end.receipts, id) == ReceiptsOf(s.receipts, id)
    decreases |later|
  {
    if later != [] {
      var e := later[0];
      NextReceipts(s, e);
      if Books(s, e) {
        ReceiptsSnoc(s.receipts, Receipt(e.id, Worth(s.intents[e.id], AmountOf(s, e))), id);
      }
      PaidIsFrozen(Next(s, e), id, later[1..]);
    }
  }

  /** The receipts that a sequence of events brings an intent: none, or the worth of the first payment
      that is recorded. */
  function FirstBooking(s: State, id: IntentId, events: seq<Event>): seq<int>
    decreases |events|
  {
    if events == [] then []
    else if events[0].id == id && Books(s, events[0]) then [Worth(s.intents[id], AmountOf(s, events[0]))]
    else FirstBooking(Next(s, events[0]), id, events[1..])
  }

  /** For any sequence of events, an intent that was not booked yet ends with exactly one receipt, of the
      worth of the first recorded payment, or with none if no payment was recorded. */
  lemma {:induction false} ExactlyTheFirstBooking(s: State, id: IntentId, events: seq<Event>)
    requires ReceiptsOf(s.receipts, id) == [] && AllClose(s, events)
    ensures ReceiptsOf(Run(s, events).receipts, id) == FirstBooking(s, id, events)
    decreases |events|
  {
    if events != [] {
      var e := events[0];
      NextReceipts(s, e);
      if Books(s, e) {
        ReceiptsSnoc(s.receipts, Receipt(e.id, Worth(s.intents[e.id], AmountOf(s, e))), id);
      }
      if e.id == id && Books(s, e) {
        ClosedIff(s, e);
        PaidIsFrozen(Next(s, e), id, events[1..]);
      } else {
        ExactlyTheFirstBooking(Next(s, e), id, events[1..]);
      }
    }
  }

  // ----- What is booked, in the words of the event and the intent -----

  lemma {:induction false} RunSplits(s: State, before: seq<Event>, later: seq<Event>)
    ensures Run(s, before + later) == Run(Run(s, before), later)
    decreases |before|
  {
    if before == [] {
      assert before + later == later;
    } else {
      assert (before + later)[1..] == before[1..] + later;
      RunSplits(Next(s, before[0]), before[1..], later);
    }
  }

  /** Events change the status of an intent and nothing else of it. */
  lemma {:induction false} TermsNeverChange(s: State, id: IntentId, events: seq<Event>)
    requires id in s.intents
    ensures id in Run(s, events).intents
    ensures Run(s, events).intents[id].(status := s.intents[id].status) == s.intents[id]
    decreases |events|
  {
    if events != [] {
      TermsStay(s, id, events[0]);
      hide Next;
      TermsNeverChange(Next(s, events[0]), id, events[1..]);
    }
  }

  lemma TermsStay(s: State, id: IntentId, e: Event)
    requires id in s.intents
    ensures id in Next(s, e).intents && Next(s, e).intents[id].(status := s.intents[id].status) == s.intents[id]
  {
    hide AddPayment, Worth;
  }

  /** `e` reports a payment of the intent, which is not marked paid, and recording and closing it succeed. */
  predicate PaysFor(t: State, id: IntentId, e: Event, reported: int) {
    && id in t.intents && e.id == id && t.intents[id].status != PaidWord
    && (|| (e.Delivery? && e.status in {PaidWord, PaidAlias} && reported == e.amount
            && (e.writes.paidSaved || (e.status == PaidWord && e.writes.tailSaved)))
        || (e.Polling? && e.remote in {Some(PaidWord), Some(PaidAlias)} && t.intents[id].status != PaidAlias
            && reported == (if e.qrAmount.Some? then e.qrAmount.value else t.intents[id].amount) && e.writes.paidSaved))
    && e.writes.recorded
    && (t.intents[id].purpose.ForWallet? ==>
          0 < reported || 0 < t.intents[id].purpose.topUpAmount || 0 < t.intents[id].amount)
  }

  lemma PaymentBooked(t: State, id: IntentId, e: Event, reported: int, later: seq<Event>)
    requires PaysFor(t, id, e, reported) && ReceiptsOf(t.receipts, id) == []
    ensures var i, inv := t.intents[id], t.invoice;
            var base := if i.base > 0 then i.base else i.amount;
            var due := match i.purpose
              case ForInvoice => if reported <= 0 then base else if 0 < base < reported then base else reported
              case ForWallet(topUp) => if reported > 0 then reported else if topUp > 0 then topUp else i.amount;
            && ReceiptsOf(Run(Next(t, e), later).receipts, id) == [due]
            && Next(t, e).receipts == t.receipts + [Receipt(id, due)]
            && Next(t, e).invoice ==
               if i.purpose.ForWallet? || inv.trashed then inv
               else inv.(paid := inv.paid + due, status := if inv.paid + due >= inv.total then Status.Paid else Partial)
  {
    hide ReceiptsOf, Run;
    NextReceipts(t, e);
    ClosedIff(t, e);
    ReceiptsSnoc(t.receipts, Receipt(id, Worth(t.intents[id], reported)), id);
    PaidIsFrozen(Next(t, e), id, later);
  }

  /** The only receipt an intent ever gets, whatever came before and comes after its payment: of an invoice
      intent the smaller of the reported amount and the base, or the base when no amount is reported, the base
      being the metadata's or else the intent's amount; of a wallet top-up the reported amount, else the
      metadata's, else the intent's. The invoice's paid amount grows by exactly that. */
  lemma TheReceiptOfAPayment(s: State, id: IntentId, before: seq<Event>, e: Event, reported: int, later: seq<Event>)
    requires id in s.intents && PaysFor(Run(s, before), id, e, reported)
    requires ReceiptsOf(Run(s, before).receipts, id) == []
    ensures var i, inv := s.intents[id], Run(s, before).invoice;
            var base := if i.base > 0 then i.base else i.amount;
            var due := match i.purpose
              case ForInvoice => if reported <= 0 then base else if 0 < base < reported then base else reported
              case ForWallet(topUp) => if reported > 0 then reported else if topUp > 0 then topUp else i.amount;
            && ReceiptsOf(Run(s, before + ([e] + later)).receipts, id) == [due]
            && Run(s, before + [e]).invoice ==
               if i.purpose.ForWallet? || inv.trashed then inv
               else inv.(paid := inv.paid + due, status := if inv.paid + due >= inv.total then Status.Paid else Partial)
  {
    var t := Run(s, before);
    TermsNeverChange(s, id, before);
    PaymentBooked(t, id, e, reported, later);
    RunSplits(s, before, [e] + later);
    RunSplits(s, before, [e]);
    assert ([e] + later)[1..] == later && [e][1..] == [];
    assert Run(t, [e]) == Run(Next(t, e), []);
    hide PaysFor, Next, ReceiptsOf;
  }

  /** An invoice that a payment leaves underpaid can be paid online again, for what is left. */
  lemma UnderpaidStaysPayable(s: State, id: IntentId, amount: int, o: Order)
    requires id !in s.intents && !s.invoice.trashed && s.invoice.paid + amount < s.invoice.total
    requires o.created && o.existing.None?
    ensures var t := Checkout(s.(invoice := AddPayment(s.invoice, amount)), id, o);
            id in t.intents && t.intents[id].base == s.invoice.total - s.invoice.paid - amount
  {
    WhatAPaymentDoes(s.invoice, amount);
  }

  // ----- What else an event does -----

  /** Recording a payment of the invoice cancels its other open intents, if that write succeeds; top-ups and
      closed intents are left alone, and so is everything on a failed recording. */
  lemma SiblingsAfterAPayment(t: State, id: IntentId, e: Event, reported: int)
    requires PaysFor(t, id, e, reported)
    ensures forall k :: k in t.intents && k != id ==>
              var i := t.intents[k];
              var open := i.purpose.ForInvoice?
                          && (i.status == PendingWord || (i.status.OtherOpen? && i.status.closedByPayment));
              Next(t, e).intents[k] ==
                if t.intents[id].purpose.ForInvoice? && e.writes.cancelSaved && open
                then i.(status := CancelledWord) else i
    ensures Next(t, e).intents.Keys == t.intents.Keys && Next(t, e).intents[id].status == PaidWord
  {
    hide AddPayment, Worth;
    assert Records(t.intents[id], reported, e.writes) by {
      WorthOfATopUp(t.intents[id], reported);
    }
  }

  lemma WorthOfATopUp(i: Intent, reported: int)
    ensures i.purpose.ForWallet? ==>
              (0 < Worth(i, reported) <==> 0 < reported || 0 < i.purpose.topUpAmount || 0 < i.amount)
  {
  }

  /** A paid event of a top-up that no one names an amount for is refused and changes nothing. */
  lemma EmptyTopUpIsRefused(t: State, e: Event)
    requires e.id in t.intents && t.intents[e.id].purpose.ForWallet?
    requires t.intents[e.id].purpose.topUpAmount <= 0 && t.intents[e.id].amount <= 0
    requires || (e.Delivery? && e.status in {PaidWord, PaidAlias} && e.amount <= 0)
             || (e.Polling? && e.remote in {Some(PaidWord), Some(PaidAlias)}
                 && (e.qrAmount.Some? ==> e.qrAmount.value <= 0))
    ensures Next(t, e) == t
  {
  }

  /** An event that reports no payment books nothing: it writes the reported status over that of an intent
      that is not marked paid, and touches nothing else. */
  lemma NoPaymentNoBooking(t: State, e: Event)
    requires e.Delivery? && e.status !in {PaidWord, PaidAlias}
    ensures Next(t, e) ==
              if e.id in t.intents && t.intents[e.id].status != PaidWord && e.writes.tailSaved
              then t.(intents := t.intents[e.id := t.intents[e.id].(status := e.status)]) else t
  {
  }

  /** A poll that brings no payment, and a cancellation, likewise; neither touches an intent known to be paid. */
  lemma PollOrCancelWithoutPayment(t: State, e: Event)
    requires (e.Polling? && (e.remote.None? || e.remote.value !in {PaidWord, PaidAlias})) || e.Cancelling?
    ensures Next(t, e) ==
              if e.id !in t.intents || t.intents[e.id].status in {PaidWord, PaidAlias} then t
              else if e.Polling? && e.remote.Some? && e.writes.tailSaved
              then t.(intents := t.intents[e.id := t.intents[e.id].(status := e.remote.value)])
              else if e.Cancelling? && e.agreed && e.saved
              then t.(intents := t.intents[e.id := t.intents[e.id].(status := CancelledWord)])
              else t
  {
  }

  // ----- Checkouts -----

  predicate IsPending(i: Intent) {
    i.purpose.ForInvoice? && i.status == PendingWord
  }

  /** A checkout of an invoice that is open with something left sends the customer to the existing pending
      intent if that charges the remainder plus the fee, else to a new one that does, if one can be created;
      that intent is the only pending one exactly when the others were cancelled or none was pending. Any
      other checkout changes nothing, and paid intents never change. */
  lemma CheckoutLeavesOnePending(s: State, id: IntentId, o: Order)
    requires id !in s.intents
    ensures var t, inv := Checkout(s, id, o), s.invoice;
            var charge := inv.total - inv.paid + o.fee;
            var payable := inv.status in {Issued, Partial, Overdue} && inv.paid < inv.total;
            var reuse := o.existing.Some? && o.existing.value in s.intents && IsPending(s.intents[o.existing.value])
                         && s.intents[o.existing.value].amount == charge;
            var out := if reuse then o.existing.value else id;
            && SentTo(s, id, o) == (if payable && (reuse || o.created) then Some(out) else None)
            && t.invoice == inv && t.receipts == s.receipts
            && (SentTo(s, id, o).None? ==> t == s)
            && (forall k :: k in s.intents && s.intents[k].status == PaidWord ==> t.intents[k] == s.intents[k])
            && (SentTo(s, id, o).Some? ==>
                  && t.intents.Keys == s.intents.Keys + {out} && IsPending(t.intents[out])
                  && t.intents[out].amount == charge
                  && (!reuse ==> t.intents[id].base == inv.total - inv.paid)
                  && ((forall k :: k in t.intents && IsPending(t.intents[k]) ==> k == out)
                      <==> o.cancelSaved || forall k :: k in s.intents && IsPending(s.intents[k]) ==> k == out))
  {
    var t, st := Checkout(s, id, o), s.invoice.status;
    assert st.Issued? || st.Partial? || st.Overdue? || st.Paid? || st.Void? || st.Cancelled?;
    if SentTo(s, id, o).Some? {
      var out := SentTo(s, id, o).value;
      assert forall k :: k in t.intents <==> k in s.intents || k == out;
      assert t.intents.Keys == s.intents.Keys + {out};
      if o.cancelSaved {
        assert forall k :: k in t.intents && k != out ==> !IsPending(t.intents[k]);
      } else {
        assert forall k :: k in s.intents ==>
            t.intents[k] == s.intents[k] && IsPending(t.intents[k]) == IsPending(s.intents[k]);
        if forall k :: k in t.intents && IsPending(t.intents[k]) ==> k == out {
          assert forall k :: k in s.intents && IsPending(s.intents[k]) ==> IsPending(t.intents[k]) && k == out;
        }
      }
    }
  }

  /** No other intent of the invoice is paid, and no new checkout made. */
  predicate OnlyAbout(id: IntentId, events: seq<Event>) {
    forall i :: 0 <= i < |events| ==> events[i].id == id
  }

  lemma {:induction false} InvoiceIsFrozen(s: State, id: IntentId, later: seq<Event>)
    requires id in s.intents && s.intents[id].status == PaidWord && OnlyAbout(id, later)
    ensures Run(s, later).invoice == s.invoice && Run(s, later).receipts == s.receipts
    decreases |later|
  {
    if later != [] {
      assert later[0].id == id;
      InvoiceIsFrozen(Next(s, later[0]), id, later[1..]);
    }
  }

  /** `e` pays, in full or with no amount reported, a new checkout `id`. */
  predicate PaysCheckout(s: State, id: IntentId, o: Order, e: Event)
    requires id !in s.intents
  {
    var left, t := s.invoice.total - s.invoice.paid, Checkout(s, id, o);
    && !s.invoice.trashed && SentTo(s, id, o) == Some(id)
    && e.id == id && Books(t, e) && Closing(e) && (AmountOf(t, e) <= 0 || left <= AmountOf(t, e))
  }

  lemma CheckoutPaidInFull(s: State, id: IntentId, o: Order, e: Event)
    requires id !in s.intents && PaysCheckout(s, id, o, e)
    ensures var paid := Next(Checkout(s, id, o), e);
            && paid.invoice.paid == s.invoice.total && paid.invoice.status == Status.Paid
            && paid.receipts == s.receipts + [Receipt(id, s.invoice.total - s.invoice.paid)]
            && id in paid.intents && paid.intents[id].status == PaidWord
  {
    ClosedIff(Checkout(s, id, o), e);
  }

  /** Paying a new checkout, by webhook or by poll, fee included or amount unreported, pays the invoice in
      full; whatever follows, the intent has exactly one receipt, of the remainder, and as long as no other
      intent is paid the invoice stays as it is. */
  lemma CheckoutSettlesTheRemainder(s: State, id: IntentId, o: Order, e: Event, later: seq<Event>)
    requires Once(s) && id !in s.intents && PaysCheckout(s, id, o, e)
    ensures var left := s.invoice.total - s.invoice.paid;
            var paid := Next(Checkout(s, id, o), e);
            && paid.invoice.paid == s.invoice.total && paid.invoice.status == Status.Paid
            && paid.receipts == s.receipts + [Receipt(id, left)]
            && ReceiptsOf(Run(paid, later).receipts, id) == [left]
            && (OnlyAbout(id, later) ==> Run(paid, later).invoice == paid.invoice)
  {
    assert OnceFor(s, id);
    CheckoutPaidInFull(s, id, o, e);
    hide Checkout, Next, PaysCheckout, Run;
    var paid := Next(Checkout(s, id, o), e);
    ReceiptsSnoc(s.receipts, Receipt(id, s.invoice.total - s.invoice.paid), id);
    PaidIsFrozen(paid, id, later);
    if OnlyAbout(id, later) {
      InvoiceIsFrozen(paid, id, later);
    }
  }

  /** A reused intent still settles the remainder exactly when its base is the remainder of now: charges
      can agree although remainder and fee have both moved. */
  lemma ReusedCheckoutSettlesIff(s: State, id: IntentId, o: Order, status: Word, w: Writes)
    requires id !in s.intents && CanPayOnline(s.invoice) && !s.invoice.trashed
    requires Reusable(s, o.existing, Charge(s, o)) && 0 < s.intents[o.existing.value].base
    requires WebhookIsPaid(status) && w.recorded
    ensures Deliver(Checkout(s, id, o), o.existing.value, status, 0, w).invoice.paid == s.invoice.total
            <==> s.intents[o.existing.value].base == s.invoice.total - s.invoice.paid
  {
  }
}
