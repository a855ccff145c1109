/** Paying invoices from the customer's wallet, oldest first (internal/billing/wallet.go,
    internal/handlers/wallet.go, internal/store/wallet.go). */
module Settlement {
  import opened Invoices

  type InvoiceId = nat

  predicate Outstanding(inv: Invoice) {
    && !inv.trashed && inv.forSubscription
    && (inv.status == Issued || inv.status == Partial || inv.status == Overdue)
    && inv.total > inv.paid
  }

  function Remaining(inv: Invoice): int {
    inv.total - inv.paid
  }

  predicate InRange(ids: seq<InvoiceId>, n: nat) {
    forall j :: 0 <= j < |ids| ==> ids[j] < n
  }

  predicate Increasing(ids: seq<InvoiceId>) {
    forall i, j :: 0 <= i < j < |ids| ==> ids[i] < ids[j]
  }

  /** Positions of the outstanding invoices from `from` on, in the order of the list. */
  function OutstandingFrom(invoices: seq<Invoice>, from: nat): (ids: seq<InvoiceId>)
    requires from <= |invoices|
    ensures InRange(ids, |invoices|)
    decreases |invoices| - from
  {
    if from == |invoices| then []
    else if Outstanding(invoices[from]) then [from] + OutstandingFrom(invoices, from + 1)
    else OutstandingFrom(invoices, from + 1)
  }

  function Remainders(invoices: seq<Invoice>, ids: seq<InvoiceId>): (rems: seq<int>)
    requires InRange(ids, |invoices|)
    ensures |rems| == |ids|
  {
    seq(|ids|, j requires 0 <= j < |ids| => Remaining(invoices[ids[j]]))
  }

  function Total(xs: seq<int>): int {
    if xs == [] then 0 else xs[0] + Total(xs[1..])
  }

  /** Length of the longest prefix the balance can pay in order. */
  function Affordable(rems: seq<int>, balance: int): (k: nat)
    ensures k <= |rems|
  {
    if rems == [] || rems[0] > balance then 0 else 1 + Affordable(rems[1..], balance - rems[0])
  }

  function PayAll(invoices: seq<Invoice>, ids: seq<InvoiceId>): (r: seq<Invoice>)
    ensures |r| == |invoices|
  {
    seq(|invoices|, i requires 0 <= i < |invoices| =>
      if i in ids then AddPayment(invoices[i], Remaining(invoices[i])) else invoices[i])
  }

  /** The customer's invoices by due date and issue time, the balance, and the wallet payments made. */
  datatype Wallet = Wallet(invoices: seq<Invoice>, balance: int, payments: seq<int>)

  /** The wallet once the first `j` of the listed invoices are paid. */
  function After(w: Wallet, ids: seq<InvoiceId>, j: nat): Wallet
    requires j <= |ids| && InRange(ids, |w.invoices|)
  {
    var rems := Remainders(w.invoices, ids);
    Wallet(PayAll(w.invoices, ids[..j]), w.balance - Total(rems[..j]), w.payments + rems[..j])
  }

  function Settle(w: Wallet): Wallet {
    var ids := OutstandingFrom(w.invoices, 0);
    After(w, ids, Affordable(Remainders(w.invoices, ids), w.balance))
  }

  function TopUp(w: Wallet, amount: int): Wallet {
    w.(balance := w.balance + amount)
  }

  // ----- The code -----

  /** What a settlement promises, in terms of the rows alone. The open rows are the untrashed subscription
      invoices that are issued, partly paid or overdue with something left; `settled` lists some of them in
      order, each paid in full and no other row touched; no open row before a settled one is left out, and
      the first one left needs more than the balance that is left. */
  ghost predicate SettlesOldestFirst(before: Wallet, after: Wallet, settled: seq<InvoiceId>) {
    var rows := before.invoices;
    var open := set i | 0 <= i < |rows| && !rows[i].trashed && rows[i].forSubscription
                        && rows[i].status in {Issued, Partial, Overdue} && rows[i].paid < rows[i].total;
    && NoneLeftOut(open, settled)
    && RowsPaidInFull(rows, after.invoices, settled)
    && (forall j :: j in open && j !in settled && (forall i :: i in open && i < j ==> i in settled)
          ==> after.balance < rows[j].total - rows[j].paid)
    && MoneyMoves(before, after, settled)
  }

  ghost predicate NoneLeftOut(open: set<InvoiceId>, settled: seq<InvoiceId>) {
    && (forall m, n :: 0 <= m < n < |settled| ==> settled[m] < settled[n])
    && (forall i :: i in settled ==> i in open)
    && (forall i, j :: i in settled && j in open && j < i ==> j in settled)
  }

  ghost predicate RowsPaidInFull(rows: seq<Invoice>, after: seq<Invoice>, settled: seq<InvoiceId>) {
    && |after| == |rows|
    && forall i :: 0 <= i < |rows| ==>
         after[i] == if i in settled then rows[i].(paid := rows[i].total, status := Paid) else rows[i]
  }

  ghost predicate MoneyMoves(before: Wallet, after: Wallet, settled: seq<InvoiceId>) {
    && |after.payments| == |before.payments| + |settled| && before.payments <= after.payments
    && (forall n :: 0 <= n < |settled| ==> var i := settled[n];
          i < |before.invoices|
          && after.payments[|before.payments| + n] == before.invoices[i].total - before.invoices[i].paid)
    && after.balance + Total(after.payments) == before.balance + Total(before.payments)
  }

  /** The whole remainder of the invoice can be taken from the balance. */
  predicate Payable(w: Wallet, id: InvoiceId) {
    && id < |w.invoices| && !w.invoices[id].trashed
    && w.invoices[id].status !in {Paid, Void, Cancelled}
    && 0 < Remaining(w.invoices[id]) <= w.balance
  }

  function PaidOne(w: Wallet, id: InvoiceId): Wallet
    requires id < |w.invoices|
  {
    var rest := Remaining(w.invoices[id]);
    Wallet(w.invoices[id := AddPayment(w.invoices[id], rest)], w.balance - rest, w.payments + [rest])
  }

  class WalletStore {
    var enabled: bool
    var invoices: seq<Invoice>
    var balance: int
    var payments: seq<int>

    ghost function Abs(): Wallet
      reads this
    {
      Wallet(invoices, balance, payments)
    }

    /** `PayInvoiceFromWallet`: the whole remainder or nothing. */
    method PayInvoiceFromWallet(id: InvoiceId) returns (paid: bool)
      modifies this
      ensures enabled == old(enabled)
      ensures paid <==> Payable(old(Abs()), id)
      ensures Abs() == if paid then PaidOne(old(Abs()), id) else old(Abs())
      ensures paid <==> id < |old(invoices)| && var inv := old(invoices)[id];
                        !inv.trashed && inv.status in {Issued, Partial, Overdue} && inv.paid < inv.total
                        && inv.total - inv.paid <= old(balance)
      ensures paid ==> var inv := old(invoices)[id];
                invoices == old(invoices)[id := inv.(paid := inv.total, status := Paid)]
                && balance == old(balance) - (inv.total - inv.paid)
                && payments == old(payments) + [inv.total - inv.paid]
    {
      if id >= |invoices| || invoices[id].trashed {
        return false;
      }
      var inv := invoices[id];
      if inv.status == Paid || inv.status == Void || inv.status == Cancelled {
        return false;
      }
      var remaining := inv.total - inv.paid;
      if remaining <= 0 {
        return false;
      }
      if balance < remaining {
        return false;
      }
      balance := balance - remaining;
      payments := payments + [remaining];
      invoices := invoices[id := AddPayment(inv, remaining)];
      paid := true;
    }

    /** Only subscription invoices are paid automatically, and only with the feature on. */
    method TryAutoPayInvoice(id: InvoiceId) returns (paid: bool)
      modifies this
      ensures enabled == old(enabled)
      ensures paid <==> enabled && Payable(old(Abs()), id) && old(invoices)[id].forSubscription
      ensures Abs() == if paid then PaidOne(old(Abs()), id) else old(Abs())
    {
      if !enabled {
        return false;
      }
      if id >= |invoices| || !invoices[id].forSubscription {
        return false;
      }
      paid := PayInvoiceFromWallet(id);
    }

    /** Pays the listed invoices in order and stops at the first it cannot pay in full. */
    method PayInOrder(ids: seq<InvoiceId>) returns (j: nat)
      requires enabled && InRange(ids, |invoices|) && Increasing(ids)
      requires forall i :: 0 <= i < |ids| ==> Outstanding(invoices[ids[i]])
      modifies this
      ensures enabled && j == Affordable(Remainders(old(invoices), ids), old(balance))
      ensures Abs() == After(old(Abs()), ids, j)
    {
      ghost var was, rems := Abs(), Remainders(invoices, ids);
      j := 0;
      AfterNone(was, ids);
      while j < |ids|
        invariant j <= |ids| && enabled
        invariant Abs() == After(was, ids, j)
        invariant Affordable(rems, was.balance) == j + Affordable(rems[j..], balance)
      {
        AfterOneMore(was, ids, j);
        AffordOneMore(rems, j, balance);
        assert Outstanding(was.invoices[ids[j]]);
        var paid := TryAutoPayInvoice(ids[j]);
        if !paid {
          return;
        }
        j := j + 1;
      }
    }

    /** Settles the customer's outstanding subscription invoices, oldest first. */
    method AutoSettleCustomer() returns (settled: seq<InvoiceId>)
      modifies this
      ensures enabled == old(enabled)
      ensures Abs() == if enabled then Settle(old(Abs())) else old(Abs())
      ensures var ids := OutstandingFrom(old(invoices), 0);
              settled == if enabled then ids[..Affordable(Remainders(old(invoices), ids), old(balance))] else []
      ensures if enabled then SettlesOldestFirst(old(Abs()), Abs(), settled) else settled == [] && Abs() == old(Abs())
    {
      if !enabled {
        return [];
      }
      var ids := OutstandingFrom(invoices, 0);
      OutstandingListed(invoices, 0);
      ghost var was := Abs();
      SettleIsOldestFirst(was);
      hide SettlesOldestFirst;
      var j := PayInOrder(ids);
      settled := ids[..j];
    }

    /** A paid top-up: the event's amount, else the metadata's, else the intent's, must be positive. */
    method CompleteWalletTopup(eventAmount: int, metaAmount: int, intentAmount: int) returns (ok: bool)
      modifies this
      ensures enabled == old(enabled)
      ensures var amount := if eventAmount > 0 then eventAmount
                            else if metaAmount > 0 then metaAmount else intentAmount;
              var credited := TopUp(old(Abs()), amount);
              && ok == (0 < amount)
              && Abs() == (if !ok then old(Abs()) else if enabled then Settle(credited) else credited)
              && (ok ==> balance + Total(payments) == old(balance) + Total(old(payments)) + amount)
    {
      hide Settle, Total, SettlesOldestFirst, OutstandingFrom, Affordable, Remainders;
      var amount := eventAmount;
      if amount <= 0 {
        amount := metaAmount;
      }
      if amount <= 0 {
        amount := intentAmount;
      }
      if amount <= 0 {
        return false;
      }
      SettleKeepsTheSum(TopUp(Abs(), amount));
      balance := balance + amount;
      var _ := AutoSettleCustomer();
      ok := true;
    }
  }

  // ----- What settling means -----

  lemma {:induction false} OutstandingListed(invoices: seq<Invoice>, from: nat)
    requires from <= |invoices|
    ensures var ids := OutstandingFrom(invoices, from);
            && Increasing(ids)
            && forall j :: 0 <= j < |ids| ==> from <= ids[j] && Outstanding(invoices[ids[j]])
    decreases |invoices| - from
  {
    if from < |invoices| {
      OutstandingListed(invoices, from + 1);
    }
  }

  /** Exactly the open rows are listed. */
  lemma {:induction false} OutstandingComplete(invoices: seq<Invoice>, from: nat)
    requires from <= |invoices|
    ensures from == 0 ==> ListsOpen(OutstandingFrom(invoices, from), invoices)
    ensures forall i :: from <= i < |invoices| ==>
              (i in OutstandingFrom(invoices, from)
               <==> !invoices[i].trashed && invoices[i].forSubscription
                    && invoices[i].status in {Issued, Partial, Overdue} && invoices[i].paid < invoices[i].total)
    ensures forall i :: i in OutstandingFrom(invoices, from) ==> from <= i
    decreases |invoices| - from
  {
    if from < |invoices| {
      OutstandingComplete(invoices, from + 1);
    }
  }

  /** The first remainder that is not paid is more than what is left. */
  lemma {:induction false} AffordableIsMaximal(rems: seq<int>, balance: int)
    ensures var k := Affordable(rems, balance);
            k < |rems| ==> balance - Total(rems[..k]) < rems[k]
    decreases |rems|
  {
    if rems != [] && rems[0] <= balance {
      AffordableIsMaximal(rems[1..], balance - rems[0]);
      var k := Affordable(rems, balance);
      assert rems[..k][1..] == rems[1..][..k - 1];
    } else {
      assert rems[..0] == [];
    }
  }

  lemma SettleIsOldestFirst(w: Wallet)
    ensures var ids := OutstandingFrom(w.invoices, 0);
            SettlesOldestFirst(w, Settle(w), ids[..Affordable(Remainders(w.invoices, ids), w.balance)])
  {
    var ids := OutstandingFrom(w.invoices, 0);
    var rems := Remainders(w.invoices, ids);
    var k := Affordable(rems, w.balance);
    OutstandingListed(w.invoices, 0);
    OutstandingComplete(w.invoices, 0);
    AffordableIsMaximal(rems, w.balance);
    TotalAppend(w.payments, rems[..k]);
    SettleIs(w, ids, k);
    AfterIs(w, ids, rems, k);
    PrefixSettles(w, ids, rems, k);
  }

  /** The listed rows are exactly the open ones. */
  ghost predicate ListsOpen(ids: seq<InvoiceId>, rows: seq<Invoice>) {
    forall i :: 0 <= i < |rows| ==>
      (i in ids <==> !rows[i].trashed && rows[i].forSubscription
                     && rows[i].status in {Issued, Partial, Overdue} && rows[i].paid < rows[i].total)
  }

  lemma NoneSkipped(open: set<InvoiceId>, ids: seq<InvoiceId>, k: nat)
    requires Increasing(ids) && k <= |ids| && forall i :: i in open <==> i in ids
    ensures NoneLeftOut(open, ids[..k])
    ensures forall j :: j in open && j !in ids[..k] && (forall i :: i in open && i < j ==> i in ids[..k])
              ==> k < |ids| && j == ids[k]
  {
    var settled := ids[..k];
    forall i, j | i in settled && j in open && j < i ensures j in settled {
      var n :| 0 <= n < |ids| && ids[n] == j;
      var m :| 0 <= m < k && settled[m] == i;
      assert n < k && settled[n] == j;
    }
    forall j | j in open && j !in settled && (forall i :: i in open && i < j ==> i in settled)
      ensures k < |ids| && j == ids[k]
    {
      var n :| 0 <= n < |ids| && ids[n] == j;
      FirstLeft(ids, k, n);
    }
  }

  lemma FirstLeft(ids: seq<InvoiceId>, k: nat, n: nat)
    requires Increasing(ids) && k <= |ids| && n < |ids| && ids[n] !in ids[..k]
    requires forall i :: i in ids && i < ids[n] ==> i in ids[..k]
    ensures n == k
  {
    assert forall m :: 0 <= m < k ==> ids[..k][m] == ids[m] && ids[m] in ids[..k];
    assert k < |ids| && ids[k] in ids && ids[k] !in ids[..k];
  }

  lemma RowsPaid(rows: seq<Invoice>, settled: seq<InvoiceId>)
    requires forall i :: i in settled ==> i < |rows| && !rows[i].trashed
    ensures RowsPaidInFull(rows, PayAll(rows, settled), settled)
  {
  }

  lemma MoneyMoved(w: Wallet, ids: seq<InvoiceId>, rems: seq<int>, k: nat, after: Wallet)
    requires InRange(ids, |w.invoices|) && rems == Remainders(w.invoices, ids) && k <= |ids|
    requires Total(w.payments + rems[..k]) == Total(w.payments) + Total(rems[..k])
    requires after.balance == w.balance - Total(rems[..k]) && after.payments == w.payments + rems[..k]
    ensures MoneyMoves(w, after, ids[..k])
  {
  }

  lemma PrefixSettles(w: Wallet, ids: seq<InvoiceId>, rems: seq<int>, k: nat)
    requires InRange(ids, |w.invoices|) && Increasing(ids) && rems == Remainders(w.invoices, ids) && k <= |ids|
    requires ListsOpen(ids, w.invoices)
    requires k < |ids| ==> w.balance - Total(rems[..k]) < rems[k]
    requires Total(w.payments + rems[..k]) == Total(w.payments) + Total(rems[..k])
    ensures SettlesOldestFirst(w, Wallet(PayAll(w.invoices, ids[..k]),
                                         w.balance - Total(rems[..k]), w.payments + rems[..k]),
                               ids[..k])
  {
    hide PayAll, Total, NoneLeftOut, RowsPaidInFull, MoneyMoves, Increasing;
    var rows := w.invoices;
    var after := Wallet(PayAll(rows, ids[..k]), w.balance - Total(rems[..k]), w.payments + rems[..k]);
    var open := set i | 0 <= i < |rows| && !rows[i].trashed && rows[i].forSubscription
                        && rows[i].status in {Issued, Partial, Overdue} && rows[i].paid < rows[i].total;
    assert k < |ids| ==> after.balance < rows[ids[k]].total - rows[ids[k]].paid;
    assert forall i :: i in ids[..k] ==> i in ids;
    assert forall i :: i in open <==> i in ids;
    NoneSkipped(open, ids, k);
    RowsPaid(rows, ids[..k]);
    MoneyMoved(w, ids, rems, k, after);
  }

  lemma SettleIs(w: Wallet, ids: seq<InvoiceId>, k: nat)
    requires ids == OutstandingFrom(w.invoices, 0)
    requires k == Affordable(Remainders(w.invoices, ids), w.balance)
    ensures Settle(w) == After(w, ids, k)
  {
  }

  lemma AfterNone(w: Wallet, ids: seq<InvoiceId>)
    requires InRange(ids, |w.invoices|)
    ensures After(w, ids, 0) == w
    ensures Remainders(w.invoices, ids)[0..] == Remainders(w.invoices, ids)
  {
    assert PayAll(w.invoices, ids[..0]) == w.invoices;
  }

  lemma AffordOneMore(rems: seq<int>, j: nat, balance: int)
    requires j < |rems|
    ensures Affordable(rems[j..], balance)
            == if rems[j] <= balance then 1 + Affordable(rems[j + 1..], balance - rems[j]) else 0
  {
    assert rems[j..][1..] == rems[j + 1..];
  }

  lemma AfterOneMore(w: Wallet, ids: seq<InvoiceId>, j: nat)
    requires j < |ids| && InRange(ids, |w.invoices|)
    requires Increasing(ids)
    ensures var now, rems := After(w, ids, j), Remainders(w.invoices, ids);
            && now.invoices[ids[j]] == w.invoices[ids[j]]
            && After(w, ids, j + 1) == Wallet(now.invoices[ids[j] := AddPayment(w.invoices[ids[j]], rems[j])],
                                              now.balance - rems[j], now.payments + [rems[j]])
  {
    var now, rems := After(w, ids, j), Remainders(w.invoices, ids);
    assert ids[j] !in ids[..j];
    assert rems[..j + 1] == rems[..j] + [rems[j]];
    assert ids[..j + 1] == ids[..j] + [ids[j]];
    TotalSnoc(rems[..j], rems[j]);
    assert PayAll(w.invoices, ids[..j + 1]) == now.invoices[ids[j] := AddPayment(w.invoices[ids[j]], rems[j])];
  }

  lemma RestUntouched(w: Wallet, ids: seq<InvoiceId>, k: nat)
    requires k <= |ids| && InRange(ids, |w.invoices|) && Increasing(ids)
    ensures Remainders(After(w, ids, k).invoices, ids[k..]) == Remainders(w.invoices, ids)[k..]
  {
    assert forall j :: k <= j < |ids| ==> ids[j] !in ids[..k];
  }

  /** Paying the first k, adding money and paying the next m is paying k + m with the money added. */
  lemma AfterComposes(w: Wallet, ids: seq<InvoiceId>, k: nat, m: nat, extra: int)
    requires k + m <= |ids| && InRange(ids, |w.invoices|)
    requires Increasing(ids)
    ensures Remainders(After(w, ids, k).invoices, ids[k..]) == Remainders(w.invoices, ids)[k..]
    ensures After(TopUp(After(w, ids, k), extra), ids[k..], m) == After(TopUp(w, extra), ids, k + m)
  {
    RestUntouched(w, ids, k);
    PaidInTwoGroups(w.invoices, ids, k, m);
    var rems, mid := Remainders(w.invoices, ids), After(w, ids, k);
    InTwoGroups(rems, k, m);
    PaymentsJoin(w.payments, rems[..k], rems[k..][..m]);
    AfterIs(TopUp(mid, extra), ids[k..], rems[k..], m);
    AfterIs(TopUp(w, extra), ids, rems, k + m);
  }

  lemma AfterIs(w: Wallet, ids: seq<InvoiceId>, rems: seq<int>, j: nat)
    requires j <= |ids| && InRange(ids, |w.invoices|) && rems == Remainders(w.invoices, ids)
    ensures After(w, ids, j)
            == Wallet(PayAll(w.invoices, ids[..j]), w.balance - Total(rems[..j]), w.payments + rems[..j])
  {
  }

  lemma PaymentsJoin(before: seq<int>, first: seq<int>, second: seq<int>)
    ensures before + first + second == before + (first + second)
  {
  }

  lemma InTwoGroups(rems: seq<int>, k: nat, m: nat)
    requires k + m <= |rems|
    ensures rems[..k + m] == rems[..k] + rems[k..][..m]
    ensures Total(rems[..k + m]) == Total(rems[..k]) + Total(rems[k..][..m])
  {
    assert rems[..k + m] == rems[..k] + rems[k..][..m];
    TotalAppend(rems[..k], rems[k..][..m]);
  }

  lemma PaidInTwoGroups(invoices: seq<Invoice>, ids: seq<InvoiceId>, k: nat, m: nat)
    requires k + m <= |ids| && Increasing(ids)
    ensures PayAll(PayAll(invoices, ids[..k]), ids[k..][..m]) == PayAll(invoices, ids[..k + m])
  {
    assert ids[k..][..m] == ids[k..k + m] && ids[..k + m] == ids[..k] + ids[k..k + m];
    assert forall i :: i in ids[..k + m] <==> i in ids[..k] || i in ids[k..k + m];
    assert forall i :: i in ids[..k] ==> i !in ids[k..k + m];
  }

  lemma {:induction false} TotalSnoc(xs: seq<int>, x: int)
    ensures Total(xs + [x]) == Total(xs) + x
  {
    if xs == [] {
      assert (xs + [x])[1..] == [];
    } else {
      assert (xs + [x])[1..] == xs[1..] + [x];
      TotalSnoc(xs[1..], x);
    }
  }

  lemma {:induction false} TotalAppend(xs: seq<int>, ys: seq<int>)
    ensures Total(xs + ys) == Total(xs) + Total(ys)
  {
    if xs == [] {
      assert xs + ys == ys;
    } else {
      assert (xs + ys)[1..] == xs[1..] + ys;
      TotalAppend(xs[1..], ys);
    }
  }

  predicate Positive(xs: seq<int>) {
    forall i :: 0 <= i < |xs| ==> 0 < xs[i]
  }

  /** A prefix of the outstanding invoices fits the balance exactly when it is no longer than the paid one. */
  lemma {:induction false} PaysTheLongestPrefix(rems: seq<int>, balance: int, j: nat)
    requires Positive(rems) && 0 <= balance && j <= |rems|
    ensures Total(rems[..j]) <= balance <==> j <= Affordable(rems, balance)
  {
    if j > 0 {
      assert rems[..j][1..] == rems[1..][..j - 1];
      if rems[0] <= balance {
        PaysTheLongestPrefix(rems[1..], balance - rems[0], j - 1);
      } else {
        TotalPositive(rems[1..][..j - 1]);
      }
    }
  }

  lemma {:induction false} TotalPositive(xs: seq<int>)
    requires Positive(xs)
    ensures 0 <= Total(xs)
  {
    if xs != [] {
      TotalPositive(xs[1..]);
    }
  }

  lemma SettleKeepsTheSum(w: Wallet)
    ensures Settle(w).balance + Total(Settle(w).payments) == w.balance + Total(w.payments)
  {
    var ids := OutstandingFrom(w.invoices, 0);
    var rems := Remainders(w.invoices, ids);
    TotalAppend(w.payments, rems[..Affordable(rems, w.balance)]);
  }

  /** Money moves from the balance to payments, none appears or is lost, and the balance stays non-negative. */
  lemma SettleConservesMoney(w: Wallet)
    requires 0 <= w.balance
    ensures Settle(w).balance + Total(Settle(w).payments) == w.balance + Total(w.payments)
    ensures 0 <= Settle(w).balance
    ensures w.payments <= Settle(w).payments
  {
    var ids := OutstandingFrom(w.invoices, 0);
    var rems := Remainders(w.invoices, ids);
    var k := Affordable(rems, w.balance);
    OutstandingListed(w.invoices, 0);
    TotalAppend(w.payments, rems[..k]);
    PaysTheLongestPrefix(rems, w.balance, k);
  }

  /** Money sinks into the longest affordable prefix wherever the balance comes from: paying what `b`
      affords and then what is left plus `extra` affords is paying what `b + extra` affords. */
  lemma {:induction false} AffordableSplits(rems: seq<int>, b: int, extra: int)
    requires Positive(rems) && 0 <= extra
    ensures var k := Affordable(rems, b);
            Affordable(rems, b + extra) == k + Affordable(rems[k..], b - Total(rems[..k]) + extra)
  {
    var k := Affordable(rems, b);
    if k == 0 {
      assert rems[0..] == rems && rems[..0] == [];
    } else {
      AffordableSplits(rems[1..], b - rems[0], extra);
      assert rems[1..][k - 1..] == rems[k..];
      assert rems[..k][1..] == rems[1..][..k - 1];
    }
  }

  /** After the first `k` outstanding invoices are paid, the outstanding ones are exactly the rest. */
  lemma {:induction false} RestStaysOutstanding(before: seq<Invoice>, after: seq<Invoice>, from: nat, k: nat)
    requires |before| == |after| && from <= |before|
    requires k <= |OutstandingFrom(before, from)|
    requires forall i :: from <= i < |before| ==>
               after[i] == if i in OutstandingFrom(before, from)[..k]
                           then AddPayment(before[i], Remaining(before[i])) else before[i]
    ensures OutstandingFrom(after, from) == OutstandingFrom(before, from)[k..]
    decreases |before| - from
  {
    if from < |before| {
      var ids := OutstandingFrom(before, from);
      var rest := OutstandingFrom(before, from + 1);
      if Outstanding(before[from]) {
        assert ids == [from] + rest;
        if k == 0 {
          RestStaysOutstanding(before, after, from + 1, 0);
          assert rest[0..] == rest;
        } else {
          assert ids[..k] == [from] + rest[..k - 1] && ids[k..] == rest[k - 1..];
          assert from in ids[..k];
          RestStaysOutstanding(before, after, from + 1, k - 1);
        }
      } else {
        RestStaysOutstanding(before, after, from + 1, k);
      }
    }
  }

  lemma SettleAfterPrefix(w: Wallet, ids: seq<InvoiceId>, rems: seq<int>, k: nat, m: nat, extra: int)
    requires InRange(ids, |w.invoices|) && rems == Remainders(w.invoices, ids)
    requires ids == OutstandingFrom(w.invoices, 0) && k + m <= |ids|
    requires m == Affordable(rems[k..], w.balance - Total(rems[..k]) + extra)
    requires k + m == Affordable(rems, w.balance + extra)
    ensures Settle(TopUp(After(w, ids, k), extra)) == Settle(TopUp(w, extra))
  {
    hide Settle, OutstandingFrom, Affordable, Total, Remainders, PayAll, InRange;
    OutstandingListed(w.invoices, 0);
    SettleIs(TopUp(w, extra), ids, k + m);
    AfterComposes(w, ids, k, m, extra);
    RestIsOutstanding(w, ids, k);
    SettleIs(TopUp(After(w, ids, k), extra), ids[k..], m);
  }

  /** A subscription invoice that a payment leaves underpaid stays on the list, for what is left. */
  lemma UnderpaidStaysListed(invoices: seq<Invoice>, i: InvoiceId, amount: int)
    requires i < |invoices| && !invoices[i].trashed && invoices[i].forSubscription
    requires invoices[i].paid + amount < invoices[i].total
    ensures i in OutstandingFrom(invoices[i := AddPayment(invoices[i], amount)], 0)
  {
    OutstandingComplete(invoices[i := AddPayment(invoices[i], amount)], 0);
    WhatAPaymentDoes(invoices[i], amount);
  }

  lemma RestIsOutstanding(w: Wallet, ids: seq<InvoiceId>, k: nat)
    requires ids == OutstandingFrom(w.invoices, 0) && k <= |ids| && InRange(ids, |w.invoices|)
    ensures OutstandingFrom(After(w, ids, k).invoices, 0) == ids[k..]
  {
    RestStaysOutstanding(w.invoices, After(w, ids, k).invoices, 0, k);
  }

  lemma SplitTopUpSettlesAlike(w: Wallet, extra: int)
    requires 0 <= extra
    ensures Settle(TopUp(Settle(w), extra)) == Settle(TopUp(w, extra))
  {
    var ids := OutstandingFrom(w.invoices, 0);
    var rems := Remainders(w.invoices, ids);
    var k := Affordable(rems, w.balance);
    var m := Affordable(rems, w.balance + extra) - k;
    OutstandingListed(w.invoices, 0);
    AffordableSplits(rems, w.balance, extra);
    SettleAfterPrefix(w, ids, rems, k, m, extra);
    SettleIs(w, ids, k);
  }

  /** Settling after each of the top-ups. */
  function SettleEach(w: Wallet, tops: seq<int>): Wallet
    decreases |tops|
  {
    if tops == [] then w else SettleEach(Settle(TopUp(w, tops[0])), tops[1..])
  }

  /** However a sum is split into top-ups, settling after each ends where one top-up of the whole sum ends:
      same invoices paid, same balance, same payments. */
  lemma {:induction false} SplitTopUpsSettleAlike(w: Wallet, tops: seq<int>)
    requires tops != [] && forall i :: 0 <= i < |tops| ==> 0 <= tops[i]
    ensures 0 <= Total(tops)
    ensures SettleEach(w, tops) == Settle(TopUp(w, Total(tops)))
    decreases |tops|
  {
    var first, rest := tops[0], tops[1..];
    var once := TopUp(w, first);
    assert SettleEach(w, tops) == SettleEach(Settle(once), rest);
    hide Settle;
    if rest != [] {
      SplitTopUpsSettleAlike(Settle(once), rest);
      SplitTopUpSettlesAlike(once, Total(rest));
      assert TopUp(once, Total(rest)) == TopUp(w, Total(tops));
    }
  }

  /** Settling again without new money changes nothing. */
  lemma SettleIsFixpoint(w: Wallet)
    ensures Settle(Settle(w)) == Settle(w)
  {
    SplitTopUpSettlesAlike(w, 0);
    assert TopUp(w, 0) == w;
    assert TopUp(Settle(w), 0) == Settle(w);
  }
}
