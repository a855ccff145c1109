/** How the discount handler recognises a discount that the engine has already built into an invoice: by the
    text of the item (internal/billing/engine.go, internal/store/plan_discounts.go,
    internal/handlers/handlers.go). */
module InvoiceLabels {
  import opened Calendar
  import opened Invoices
  import opened PdfDocument
  import opened PdfLayout

  /** U+2212, which the label of a percentage rule holds. */
  const MINUS: char := '\U{2212}'

  /** A discount rule: a percentage or a fixed amount. */
  datatype PlanDiscount = PlanDiscount(name: string, percent: bool, value: nat)

  datatype Part = Whole | Part(days: nat, period: nat)

  function Label(d: PlanDiscount): string {
    if d.percent then d.name + " " + [MINUS] + Dec(d.value) + "%" else d.name
  }

  /** The plan line before any discount label. */
  function PlanText(plan: string, username: string, part: Part): string {
    "Langganan " + plan + " - " + username
    + match part
      case Whole => ""
      case Part(days, period) => " (prorata " + Dec(days) + "/" + Dec(period) + " hari)"
  }

  function DiscountedText(plan: string, username: string, part: Part, d: PlanDiscount): string {
    PlanText(plan, username, part) + (" (" + Label(d) + ")")
  }

  /** The last character that is not white space is `c`. */
  predicate EndsIn(s: string, c: char) {
    s != "" && (if IsSpace(s[|s| - 1]) then EndsIn(s[..|s| - 1], c) else s[|s| - 1] == c)
  }

  /** The handler's test. */
  predicate LooksDiscounted(description: string) {
    MINUS in description && EndsIn(description, ')')
  }

  lemma NoMinusInNumbers(n: nat)
    ensures MINUS !in Dec(n)
  {
    assert Digits(Dec(n));
  }

  lemma MinusInLabel(d: PlanDiscount)
    ensures MINUS in Label(d) <==> d.percent || MINUS in d.name
  {
    if d.percent {
      assert Label(d)[|d.name| + 1] == MINUS;
    }
  }

  lemma MinusInPlanText(plan: string, username: string, part: Part)
    ensures MINUS in PlanText(plan, username, part) <==> MINUS in plan || MINUS in username
  {
    var head := "Langganan " + plan + " - " + username;
    assert MINUS in head <==> MINUS in plan || MINUS in username by {
      assert MINUS !in "Langganan " && MINUS !in " - ";
    }
    match part
    case Whole => assert head + "" == head;
    case Part(days, period) =>
      NoMinusInNumbers(days);
      NoMinusInNumbers(period);
      assert MINUS !in " (prorata " && MINUS !in "/" && MINUS !in " hari)";
  }

  /** A built-in discount is recognised exactly when its rule is a percentage or one of the names holds the
      minus sign: a fixed amount under a plain name goes unnoticed. */
  lemma BuiltInDiscountRecognisedIff(plan: string, username: string, part: Part, d: PlanDiscount)
    ensures LooksDiscounted(DiscountedText(plan, username, part, d))
            <==> d.percent || '\U{2212}' in d.name || '\U{2212}' in plan || '\U{2212}' in username
  {
    var text := DiscountedText(plan, username, part, d);
    assert text[|text| - 1] == ')' && !IsSpace(')');
    MinusInLabel(d);
    MinusInPlanText(plan, username, part);
    assert MINUS !in " (" && MINUS !in ")";
  }

  /** Hence an invoice issued under a rule can be discounted again exactly when that is not recognised. */
  lemma DiscountedAgainIff(plan: string, username: string, part: Part, d: PlanDiscount,
                           subtotal: int, tax: int, fee: int, due: Date)
    ensures var marked := LooksDiscounted(DiscountedText(plan, username, part, d));
            Discountable(Routine(subtotal, tax, fee, marked, due))
            <==> !(d.percent || '\U{2212}' in d.name || '\U{2212}' in plan || '\U{2212}' in username)
  {
    BuiltInDiscountRecognisedIff(plan, username, part, d);
    var marked := LooksDiscounted(DiscountedText(plan, username, part, d));
    assert Routine(subtotal, tax, fee, marked, due).items[0].marked == marked;
  }
}
