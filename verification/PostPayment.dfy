/** The pass that follows a recorded payment: paid upgrades are applied, then services are resumed
    (internal/handlers/provision_helpers.go). The subscription ids live in a Go map, so each of the
    two loops visits them in an order of its own. */
module PostPayment {
  import opened Options
  import opened PlanChange

  type SubscriptionId = nat

  /** Billing rows and router profile of one subscription, and whether `suspended_at` is set. */
  datatype Row = Row(change: State, suspendedAt: bool)

  /** What the surroundings answer for one subscription during the pass. */
  datatype Answers = Answers(apply: Writes, dueKnown: bool, stillDue: bool, statusSaved: bool,
                             routerOk: bool, flagSaved: bool)

  predicate Resumes(a: Answers) {
    a.dueKnown && !a.stillDue
  }

  function Upgraded(row: Row, a: Answers): Row {
    row.(change := ApplyPending(row.change, a.apply))
  }

  function Resumed(row: Row, a: Answers): Row {
    if !Resumes(a) then row
    else
      var s := if a.statusSaved then row.change.(status := Active) else row.change;
      if !a.routerOk then row.(change := s)
      else Row(s.(router := s.plan), row.suspendedAt && !a.flagSaved)
  }

  class Services {
    var rows: map<SubscriptionId, Row>

    /** `payer` are the listed subscriptions of the paying customer, `billed` the one on the invoice. */
    method ResumeAfterInvoicePaid(payer: set<SubscriptionId>, billed: Option<SubscriptionId>,
                                  answers: map<SubscriptionId, Answers>)
      requires rows.Keys <= answers.Keys
      modifies this
      ensures rows.Keys == old(rows).Keys
      ensures var ids := payer + if billed.Some? then {billed.value} else {};
              forall id :: id in rows ==>
                rows[id] == if id in ids then Resumed(Upgraded(old(rows)[id], answers[id]), answers[id])
                            else old(rows)[id]
    {
      hide Upgraded;
      var ids := if billed.Some? then payer + {billed.value} else payer;
      ids := ids * rows.Keys;
      var todo := ids;
      while todo != {}
        invariant todo <= ids && rows.Keys == old(rows).Keys
        invariant forall id :: id in rows ==>
                    rows[id] == if id in ids - todo then Upgraded(old(rows)[id], answers[id]) else old(rows)[id]
      {
        var id :| id in todo;
        rows := rows[id := Upgraded(rows[id], answers[id])];
        todo := todo - {id};
      }
      todo := ids;
      while todo != {}
        invariant todo <= ids && rows.Keys == old(rows).Keys
        invariant forall id :: id in rows ==>
                    rows[id] == if id !in ids then old(rows)[id]
                                else if id in todo then Upgraded(old(rows)[id], answers[id])
                                else Resumed(Upgraded(old(rows)[id], answers[id]), answers[id])
      {
        var id :| id in todo;
        var a := answers[id];
        if a.dueKnown && !a.stillDue {
          if a.statusSaved {
            rows := rows[id := rows[id].(change := rows[id].change.(status := Active))];
          }
          ResumeSubscription(id, a);
        }
        todo := todo - {id};
      }
    }

    /** Pushes the profile of the plan now on the row; clears the flag once the router agreed. */
    method ResumeSubscription(id: SubscriptionId, a: Answers)
      requires id in rows
      modifies this
      ensures var row := old(rows)[id];
              var pushed := Row(row.change.(router := row.change.plan), row.suspendedAt && !a.flagSaved);
              rows == old(rows)[id := if a.routerOk then pushed else row]
    {
      if a.routerOk {
        var row := rows[id];
        row := row.(change := row.change.(router := row.change.plan));
        if a.flagSaved {
          row := row.(suspendedAt := false);
        }
        rows := rows[id := row];
      }
    }
  }

  /** After the pass: a paid upgrade is in force; a subscription without past-due invoices is active,
      whatever its status was, the others keep theirs; and the resume pushed the plan of after the
      upgrade, even where the upgrade's own router call failed. */
  lemma PassOutcome(row: Row, a: Answers)
    requires Inv(row.change)
    ensures var end := Resumed(Upgraded(row, a), a);
            var p := row.change.pending;
            && Inv(end.change)
            && (p.Some? && InvoicePaid(row.change, p.value) && a.apply.readOk && a.apply.planSaved ==>
                  end.change.plan == p.value.newPlan
                  && (a.apply.goesOn && a.apply.cleared ==> end.change.pending.None?))
            && (p.None? || !InvoicePaid(row.change, p.value) ==> end.change.plan == row.change.plan)
            && (a.statusSaved ==>
                  (end.change.status == Active <==> (a.dueKnown && !a.stillDue) || row.change.status == Active))
            && (!a.dueKnown || a.stillDue ==>
                  end.change.status == row.change.status && end.suspendedAt == row.suspendedAt)
            && (a.dueKnown && !a.stillDue && a.routerOk ==>
                  end.change.router == end.change.plan && (a.flagSaved ==> !end.suspendedAt))
  {
    StepKeepsInv(row.change, Applying(a.apply));
    var up := Upgraded(row, a).change;
    StepKeepsInv(up, Restatus(Active));
  }

  /** A second pass for the same payment, whatever fails in it, changes neither plan nor invoices and takes
      nobody out of service; with the answers of a first one that cleared the marker it changes nothing. */
  lemma PassTwice(row: Row, a: Answers, b: Answers)
    requires Inv(row.change) && a.apply.readOk && a.apply.planSaved
    ensures var once := Resumed(Upgraded(row, a), a);
            var twice := Resumed(Upgraded(once, b), b);
            && twice.change.plan == once.change.plan && twice.change.switched == once.change.switched
            && twice.change.invoices == once.change.invoices
            && (once.change.status == Active ==> twice.change.status == Active)
            && (a == b && a.apply.goesOn && a.apply.cleared ==> twice == once)
  {
  }
}
