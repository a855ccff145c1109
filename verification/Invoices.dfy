/** Invoice amounts through their whole life: issued by the billing engine, by hand or for a plan
    change, charged a late fee, discounted afterwards and paid (internal/billing/engine.go,
    internal/handlers/handlers.go, internal/store/invoices.go). */
module Invoices {
  import opened Calendar
  import opened Proration

  datatype Status = Issued | Partial | Overdue | Paid | Void | Cancelled

  /** `lateFee` stands for a description starting "Denda keterlambatan", `marked` for one that the discount
      handler takes for a built-in discount (`InvoiceLabels.LooksDiscounted`). */
  datatype Item = Item(lateFee: bool, marked: bool, quantity: int, unitPrice: int, amount: int)

  datatype Invoice = Invoice(forSubscription: bool, items: seq<Item>, subtotal: int, discount: int, tax: int,
                             total: int, paid: int, status: Status, due: Date, lateFeeApplied: bool, trashed: bool)

  datatype Error = NoCustomer | Dismantled | BlankLine | BadDueDate | BadTarget
                 | NoItems | BadQuantity | BadPrice | BadDiscount | BadTax | EmptyTotal
                 | Settled | NotSubscription | AlreadyDiscounted | BuiltInDiscount | NothingToDiscount
                 | NoRule | BelowPaid

  datatype Result<T> = Ok(value: T) | Err(error: Error)

  function SumAmounts(items: seq<Item>): int {
    if items == [] then 0 else items[0].amount + SumAmounts(items[1..])
  }

  function SumLateFees(items: seq<Item>): int {
    if items == [] then 0 else (if items[0].lateFee then items[0].amount else 0) + SumLateFees(items[1..])
  }

  function PlanPart(items: seq<Item>): int {
    SumAmounts(items) - SumLateFees(items)
  }

  /** The books of one invoice agree. */
  predicate Balanced(inv: Invoice) {
    && inv.subtotal == SumAmounts(inv.items)
    && inv.total == inv.subtotal - inv.discount + inv.tax
    && 0 <= inv.discount
    && forall i :: 0 <= i < |inv.items| ==> inv.items[i].amount == inv.items[i].quantity * inv.items[i].unitPrice
  }

  /** Subscription invoices: the tax is the one of the discounted plan part, late fees carry none. */
  predicate TaxedAt(inv: Invoice, rate: Rate)
    requires IsRate(rate)
  {
    inv.tax == PercentOf(PlanPart(inv.items) - inv.discount, rate)
  }

  // ----- Issuing -----

  function PlanLine(amount: int, marked: bool): Item {
    Item(false, marked, 1, amount, amount)
  }

  function LateFeeLine(amount: int): Item {
    Item(true, false, 1, amount, amount)
  }

  /** The invoice of one billing cycle. */
  function Routine(subtotal: int, tax: int, lateFee: int, marked: bool, due: Date): Invoice {
    var plan := PlanLine(subtotal, marked);
    var items := if lateFee > 0 then [plan, LateFeeLine(lateFee)] else [plan];
    Invoice(true, items, subtotal + lateFee, 0, tax, subtotal + tax + lateFee, 0, Issued, due, false, false)
  }

  /** The invoice of a mid-cycle plan change. */
  function Delta(q: Quote, due: Date): Invoice {
    Invoice(true, [PlanLine(q.delta, false)], q.delta, 0, q.tax, q.total, 0, Issued, due, false, false)
  }

  /** One line of the form; `blank` when the description is. */
  datatype Line = Line(blank: bool, quantity: int, unitPrice: int, lateFee: bool)

  datatype Customer = Unknown | Dismantled | Served

  /** The typed due date, or the next due day when none is typed. */
  datatype DueInput = Malformed | On(date: Date)

  /** The subscription to cut off if the invoice stays unpaid; it must be the customer's. */
  datatype Target = NoTarget | Target(owned: bool)

  function ManualItems(lines: seq<Line>): seq<Item> {
    if lines == [] then []
    else
      var l := lines[|lines| - 1];
      ManualItems(lines[..|lines| - 1]) + [Item(l.lateFee, false, l.quantity, l.unitPrice, l.quantity * l.unitPrice)]
  }

  predicate GoodLine(l: Line) {
    !l.blank && 1 <= l.quantity && 0 <= l.unitPrice
  }

  /** The create-manual-invoice handler. It succeeds exactly for a customer in service, well-formed lines, a
      discount within the subtotal, a tax of 0 to 100 percent, a positive total, a readable due date and a
      target that is the customer's. */
  method CreateManual(customer: Customer, lines: seq<Line>, discount: int, tax: Rate, due: DueInput, target: Target)
    returns (r: Result<Invoice>)
    requires IsRate(tax)
    ensures r.Ok? <==>
              && customer.Served? && due.On? && (target.Target? ==> target.owned)
              && lines != []
              && (forall i :: 0 <= i < |lines| ==>
                    !lines[i].blank && 1 <= lines[i].quantity && 0 <= lines[i].unitPrice)
              && 0 <= discount <= SumAmounts(ManualItems(lines))
              && tax.num <= 100 * tax.den
              && var net := SumAmounts(ManualItems(lines)) - discount; 0 < net + PercentOf(net, tax)
    ensures r.Ok? ==>
              && Balanced(r.value)
              && r.value.items == ManualItems(lines)
              && |r.value.items| == |lines|
              && (forall i :: 0 <= i < |lines| ==> var l := lines[i];
                    r.value.items[i] == Item(l.lateFee, false, l.quantity, l.unitPrice, l.quantity * l.unitPrice))
              && r.value.discount == discount
              && r.value.tax == PercentOf(r.value.subtotal - discount, tax)
              && r.value.paid == 0 && r.value.status == Issued && r.value.due == due.date
              && !r.value.forSubscription && !r.value.lateFeeApplied && !r.value.trashed
  {
    if customer == Unknown {
      return Err(NoCustomer);
    }
    if customer == Customer.Dismantled {
      return Err(Error.Dismantled);
    }
    if |lines| == 0 {
      return Err(NoItems);
    }
    var subtotal := 0;
    var items: seq<Item> := [];
    for i := 0 to |lines|
      invariant items == ManualItems(lines[..i]) && subtotal == SumAmounts(items)
      invariant forall j :: 0 <= j < i ==> GoodLine(lines[j])
      invariant |items| == i
      invariant forall j :: 0 <= j < i ==> var l := lines[j];
                  items[j] == Item(l.lateFee, false, l.quantity, l.unitPrice, l.quantity * l.unitPrice)
    {
      var l := lines[i];
      if l.blank {
        return Err(BlankLine);
      }
      if l.quantity < 1 {
        return Err(BadQuantity);
      }
      if l.unitPrice < 0 {
        return Err(BadPrice);
      }
      var item := Item(l.lateFee, false, l.quantity, l.unitPrice, l.quantity * l.unitPrice);
      SumSnoc(items, item);
      assert lines[..i + 1][..i] == lines[..i];
      subtotal := subtotal + item.amount;
      items := items + [item];
    }
    assert lines[..|lines|] == lines;
    if discount < 0 || discount > subtotal {
      return Err(BadDiscount);
    }
    if tax.num > 100 * tax.den {
      return Err(BadTax);
    }
    var taxable := subtotal - discount;
    var taxAmount := PercentOf(taxable, tax);
    if taxable + taxAmount <= 0 {
      return Err(EmptyTotal);
    }
    if due.Malformed? {
      return Err(BadDueDate);
    }
    if target.Target? && !target.owned {
      return Err(BadTarget);
    }
    r := Ok(Invoice(false, items, subtotal, discount, taxAmount, taxable + taxAmount, 0, Issued, due.date,
                    false, false));
  }

  lemma {:induction false} SumSnoc(items: seq<Item>, item: Item)
    ensures SumAmounts(items + [item]) == SumAmounts(items) + item.amount
    ensures SumLateFees(items + [item]) == SumLateFees(items) + if item.lateFee then item.amount else 0
  {
    if items == [] {
      assert (items + [item])[1..] == [];
    } else {
      assert (items + [item])[1..] == items[1..] + [item];
      SumSnoc(items[1..], item);
    }
  }

  // ----- Later changes -----

  /** One late fee per invoice, whatever the number of worker cycles. */
  function AddLateFee(inv: Invoice, fee: int): Invoice {
    if fee <= 0 || inv.trashed || inv.lateFeeApplied then inv
    else inv.(items := inv.items + [LateFeeLine(fee)], subtotal := inv.subtotal + fee, total := inv.total + fee,
              lateFeeApplied := true)
  }

  /** `RecordPayment` and the wallet both add to the paid amount and derive the status from it. */
  function AddPayment(inv: Invoice, amount: int): Invoice {
    if inv.trashed then inv
    else inv.(paid := inv.paid + amount, status := if inv.paid + amount >= inv.total then Paid else Partial)
  }

  datatype Rule = PercentOff(value: int) | AmountOff(value: int)

  function DiscountOf(rule: Rule, base: int): int {
    var d := match rule
      case PercentOff(v) => Round(base * v, 100)
      case AmountOff(v) => v;
    if d > base then base else d
  }

  /** A percentage rule takes its share to the nearest rupiah, a fixed amount itself, neither more than the base. */
  lemma WhatARuleTakes(rule: Rule, base: int)
    ensures var d := DiscountOf(rule, base);
            match rule
            case PercentOff(v) =>
              && d <= base
              && (d < base ==> -100 <= 2 * (d * 100 - base * v) <= 100)
              && (d == base ==> base * 100 - base * v <= 50)
            case AmountOff(v) => d == if v > base then base else v
  {
    match rule
    case PercentOff(v) =>
      RoundIsNearest(base * v, 100);
      var r := Round(base * v, 100);
      hide Round;
      assert r >= base ==> r * 100 >= base * 100;
    case AmountOff(_) =>
  }

  /** A payment adds to the paid amount; the invoice is paid once nothing is left, and else partly paid and
      open for the rest. A trashed invoice takes none. */
  lemma WhatAPaymentDoes(inv: Invoice, amount: int)
    ensures var after := AddPayment(inv, amount);
            if inv.trashed then after == inv
            else after == inv.(paid := inv.paid + amount, status := after.status)
                 && (after.status == Paid <==> inv.total <= inv.paid + amount)
                 && (after.status == Partial <==> inv.paid + amount < inv.total)
  {
  }

  /** A late fee is added once, as a line of its own, to an invoice that is not in the trash. */
  lemma LateFeeOnce(inv: Invoice, fee: int, again: int)
    ensures var after := AddLateFee(inv, fee);
            && (if fee <= 0 || inv.trashed || inv.lateFeeApplied then after == inv
                else after.total == inv.total + fee && after.subtotal == inv.subtotal + fee && after.tax == inv.tax
                     && after.items == inv.items + [Item(true, false, 1, fee, fee)] && after.lateFeeApplied)
            && after.paid == inv.paid && after.status == inv.status
            && (after.lateFeeApplied ==> AddLateFee(after, again) == after)
  {
  }

  /** The apply-invoice-discount handler: recomputes discount, tax and total of an open subscription
      invoice from its items. */
  method ApplyDiscount(inv: Invoice, rule: Rule, found: bool, tax: Rate) returns (r: Result<Invoice>)
    requires IsRate(tax)
    ensures r.Ok? <==> Discountable(inv) && found && Discounted(inv, rule, tax).Ok?
    ensures r.Ok? ==> r == Discounted(inv, rule, tax)
    ensures var base := PlanPart(inv.items);
            var d := DiscountOf(rule, base);
            var t := PercentOf(base - d, tax);
            var total := SumAmounts(inv.items) - d + t;
            && (r.Ok? <==>
                  && inv.status in {Issued, Partial, Overdue} && inv.forSubscription && inv.discount <= 0
                  && (forall i :: 0 <= i < |inv.items| ==> !inv.items[i].marked)
                  && found && 0 < base && 0 < d && 0 < total && inv.paid <= total)
            && (r.Ok? ==> r.value == inv.(discount := d, tax := t, total := total))
  {
    if inv.status == Paid || inv.status == Void || inv.status == Cancelled {
      return Err(Settled);
    }
    if !inv.forSubscription {
      return Err(NotSubscription);
    }
    if inv.discount > 0 {
      return Err(AlreadyDiscounted);
    }
    for i := 0 to |inv.items|
      invariant forall j :: 0 <= j < i ==> !inv.items[j].marked
    {
      if inv.items[i].marked {
        return Err(BuiltInDiscount);
      }
    }
    var lateFee, planBase := 0, 0;
    for i := 0 to |inv.items|
      invariant lateFee == SumLateFees(inv.items[..i])
      invariant planBase == PlanPart(inv.items[..i])
    {
      assert inv.items[..i + 1] == inv.items[..i] + [inv.items[i]];
      SumSnoc(inv.items[..i], inv.items[i]);
      if inv.items[i].lateFee {
        lateFee := lateFee + inv.items[i].amount;
      } else {
        planBase := planBase + inv.items[i].amount;
      }
    }
    assert inv.items[..|inv.items|] == inv.items;
    if planBase <= 0 {
      return Err(NothingToDiscount);
    }
    if !found {
      return Err(NoRule);
    }
    var discount := DiscountOf(rule, planBase);
    if discount <= 0 {
      return Err(NoRule);
    }
    var taxable := planBase - discount;
    var taxAmount := PercentOf(taxable, tax);
    var total := taxable + taxAmount + lateFee;
    if total <= 0 {
      return Err(EmptyTotal);
    }
    if total < inv.paid {
      return Err(BelowPaid);
    }
    r := Ok(inv.(discount := discount, tax := taxAmount, total := total));
  }

  predicate Discountable(inv: Invoice) {
    && inv.status != Paid && inv.status != Void && inv.status != Cancelled
    && inv.forSubscription && inv.discount <= 0
    && (forall i :: 0 <= i < |inv.items| ==> !inv.items[i].marked)
  }

  /** The amounts after a rule is applied. */
  function Discounted(inv: Invoice, rule: Rule, tax: Rate): Result<Invoice>
    requires IsRate(tax)
  {
    var base := PlanPart(inv.items);
    var discount := DiscountOf(rule, base);
    if base <= 0 then Err(NothingToDiscount)
    else if discount <= 0 then Err(NoRule)
    else
      var taxAmount := PercentOf(base - discount, tax);
      var total := base - discount + taxAmount + SumLateFees(inv.items);
      if total <= 0 then Err(EmptyTotal)
      else if total < inv.paid then Err(BelowPaid)
      else Ok(inv.(discount := discount, tax := taxAmount, total := total))
  }

  /** Discounting stays within the plan part, keeps the late fees whole, never drops the total below
      what is already paid and, at an unchanged tax rate, never raises it. */
  lemma DiscountIsSafe(inv: Invoice, rule: Rule, tax: Rate)
    requires IsRate(tax) && Balanced(inv)
    requires Discounted(inv, rule, tax).Ok?
    ensures var after := Discounted(inv, rule, tax).value;
            && Balanced(after) && TaxedAt(after, tax)
            && 0 < after.discount <= PlanPart(inv.items)
            && after.items == inv.items
            && inv.paid == after.paid <= after.total
            && (inv.discount == 0 && TaxedAt(inv, tax) ==> after.total <= inv.total)
            && SumLateFees(inv.items) <= after.total
  {
    var after := Discounted(inv, rule, tax).value;
    var base := PlanPart(inv.items);
    TaxMonotone(base - after.discount, base, tax);
    TaxMonotone(0, base - after.discount, tax);
  }

  // ----- Every run keeps the books -----

  datatype Event = LateFee(fee: int) | Payment(amount: int) | Discounting(rule: Rule, tax: Rate) | Trash | Restore

  /** One event in the life of an issued invoice; a discount is applied at the tax rate of its day, and
      refused events change nothing. Late fees are added afterwards to manual invoices only. */
  function Step(inv: Invoice, e: Event): Invoice
    requires IsEvent(e)
  {
    match e
    case LateFee(fee) => if inv.forSubscription then inv else AddLateFee(inv, fee)
    case Payment(amount) => AddPayment(inv, amount)
    case Discounting(rule, tax) =>
      if !inv.trashed && Discountable(inv) && Discounted(inv, rule, tax).Ok? then Discounted(inv, rule, tax).value
      else inv
    case Trash => inv.(trashed := true)
    case Restore => inv.(trashed := false)
  }

  predicate IsEvent(e: Event) {
    e.Discounting? ==> IsRate(e.tax)
  }

  /** An invoice in the trash takes no event but its restoring, which gives it back as it was. */
  lemma TrashKeepsTheInvoice(inv: Invoice, e: Event)
    requires IsEvent(e)
    ensures var gone := Step(inv, Trash);
            && gone.trashed && (!inv.trashed ==> Step(gone, Restore) == inv)
            && (e.Restore? || Step(gone, e) == gone)
  {
  }

  predicate IsLife(events: seq<Event>) {
    forall i :: 0 <= i < |events| ==> IsEvent(events[i])
  }

  predicate SameRate(events: seq<Event>, tax: Rate) {
    forall i :: 0 <= i < |events| && events[i].Discounting? ==> events[i].tax == tax
  }

  function Life(inv: Invoice, events: seq<Event>): Invoice
    requires IsLife(events)
    decreases |events|
  {
    if events == [] then inv else Life(Step(inv, events[0]), events[1..])
  }

  lemma StepBalances(inv: Invoice, e: Event)
    requires Balanced(inv) && IsEvent(e)
    ensures Balanced(Step(inv, e)) && Step(inv, e).forSubscription == inv.forSubscription
    ensures inv.forSubscription ==> Step(inv, e).items == inv.items
  {
    match e {
      case LateFee(fee) => SumSnoc(inv.items, LateFeeLine(fee));
      case Discounting(rule, tax) =>
        if Discounted(inv, rule, tax).Ok? {
          DiscountIsSafe(inv, rule, tax);
        }
      case _ =>
    }
  }

  /** Total = items - discount + tax at every moment of every life, whatever tax rates its discounts meet. */
  lemma {:induction false} BooksAlwaysBalance(inv: Invoice, events: seq<Event>)
    requires Balanced(inv) && IsLife(events)
    ensures Balanced(Life(inv, events)) && Life(inv, events).forSubscription == inv.forSubscription
    ensures inv.forSubscription ==> Life(inv, events).items == inv.items
    decreases |events|
  {
    if events != [] {
      StepBalances(inv, events[0]);
      BooksAlwaysBalance(Step(inv, events[0]), events[1..]);
    }
  }

  /** While the tax rate stays, a subscription invoice stays taxed on its discounted plan part only, and its
      total never grows. */
  lemma {:induction false} TotalNeverGrows(inv: Invoice, events: seq<Event>, tax: Rate)
    requires Balanced(inv) && IsLife(events) && inv.forSubscription
    requires IsRate(tax) && TaxedAt(inv, tax) && SameRate(events, tax)
    ensures TaxedAt(Life(inv, events), tax) && Life(inv, events).total <= inv.total
    decreases |events|
  {
    if events != [] {
      var next := Step(inv, events[0]);
      StepBalances(inv, events[0]);
      if next != inv && events[0].Discounting? {
        DiscountIsSafe(inv, events[0].rule, tax);
      }
      TotalNeverGrows(next, events[1..], tax);
    }
  }

  /** Routine and plan-change invoices start balanced, with the late fee untaxed. */
  lemma IssuedInvoicesBalance(price: int, days: int, period: int, overdue: int, lateRate: Rate, marked: bool,
                              due: Date, tax: Rate)
    requires IsRate(tax) && IsRate(lateRate)
    ensures var (subtotal, taxAmount) := CalculateInvoiceAmount(price, tax, days, period);
            var fee := ApplyLateFee(overdue, lateRate);
            var inv := Routine(subtotal, taxAmount, fee, marked, due);
            0 <= fee && Balanced(inv) && TaxedAt(inv, tax) && SumLateFees(inv.items) == fee
  {
    var (subtotal, taxAmount) := CalculateInvoiceAmount(price, tax, days, period);
    var fee := ApplyLateFee(overdue, lateRate);
    if 0 < overdue {
      TaxMonotone(0, overdue, lateRate);
    }
    SumOne(PlanLine(subtotal, marked));
    SumSnoc([PlanLine(subtotal, marked)], LateFeeLine(fee));
    assert [PlanLine(subtotal, marked), LateFeeLine(fee)] == [PlanLine(subtotal, marked)] + [LateFeeLine(fee)];
  }

  lemma DeltaInvoiceBalances(oldPrice: int, newPrice: int, remaining: int, cycleDays: int, tax: Rate,
                             a: Speed, b: Speed, due: Date)
    requires IsRate(tax)
    ensures var q := QuotePlanChange(oldPrice, newPrice, remaining, cycleDays, tax, a, b);
            var inv := Delta(q, due);
            q.requiresCharge ==> Balanced(inv) && TaxedAt(inv, tax) && 0 < inv.total
  {
    var q := QuotePlanChange(oldPrice, newPrice, remaining, cycleDays, tax, a, b);
    SumOne(PlanLine(q.delta, false));
    if q.requiresCharge {
      TaxMonotone(0, q.delta, tax);
    }
  }

  lemma SumOne(item: Item)
    ensures SumAmounts([item]) == item.amount
    ensures SumLateFees([item]) == if item.lateFee then item.amount else 0
  {
    assert [item][1..] == [];
  }
}
