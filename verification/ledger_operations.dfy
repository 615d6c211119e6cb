/** Credit memos, refunds, periods and activation, and with them every run of the ledger. */
module LedgerOperations {
  import opened Common
  import opened Calendar
  import opened LedgerModel
  import opened LedgerInvariant
  import opened LedgerSettle
  import opened LedgerCoverage
  import opened LedgerSafety

  /* ---- credit memos ---- */

  lemma CreditedPlus(memos: seq<Memo>, m: Memo, i: nat, at: int)
    ensures CreditedAll(memos + [m], i) == CreditedAll(memos, i) + if m.invoice == i then m.amount else 0
    ensures CreditedIn(memos + [m], i, at) == CreditedIn(memos, i, at) + if m.invoice == i && m.at <= at then m.amount else 0
  {
    assert (memos + [m])[..|memos|] == memos;
  }

  lemma {:induction false} RefundsSameMemos(refunds: seq<Refund>, memos: seq<Memo>, m: Memo, i: nat)
    requires forall r :: 0 <= r < |refunds| ==> refunds[r].memo < |memos|
    ensures RefundedIn(refunds, memos + [m], i) == RefundedIn(refunds, memos, i)
  {
    if refunds != [] {
      RefundsSameMemos(refunds[..|refunds| - 1], memos, m, i);
    }
  }

  lemma {:induction false} UnrefundedMemo(refunds: seq<Refund>, m: nat)
    requires forall r :: 0 <= r < |refunds| ==> refunds[r].memo != m
    ensures RefundedOfMemo(refunds, m) == 0
  {
    if refunds != [] {
      UnrefundedMemo(refunds[..|refunds| - 1], m);
    }
  }

  function WithMemo(l: Ledger, i: nat, amount: int): Ledger {
    l.(clock := l.clock + 1, memos := l.memos + [Memo(i, amount, l.clock + 1)])
  }

  lemma MemoBalances(l: Ledger, i: nat, amount: int)
    requires RowsOk(l) && i < |l.invoices|
    ensures forall j :: 0 <= j < |l.invoices| ==>
              Balance(WithMemo(l, i, amount), j) == Balance(l, j) - if j == i then amount else 0
    ensures forall j :: 0 <= j < |l.invoices| ==> HasRefund(WithMemo(l, i, amount), j) == HasRefund(l, j)
  {
    hide PaidIn, CreditedAll, RefundedIn;
    var m := Memo(i, amount, l.clock + 1);
    forall j | 0 <= j < |l.invoices|
      ensures Balance(WithMemo(l, i, amount), j) == Balance(l, j) - if j == i then amount else 0
    {
      CreditedPlus(l.memos, m, j, 0);
      RefundsSameMemos(l.refunds, l.memos, m, j);
    }
  }

  lemma MemoKeepsBase(l: Ledger, i: nat, amount: int)
    requires Base(l) && i < |l.invoices| && Money(amount)
    ensures Base(WithMemo(l, i, amount))
  {
    hide PaidIn, CreditedAll, CreditedIn, RefundedIn, Balance;
    var l1 := WithMemo(l, i, amount);
    var m := Memo(i, amount, l.clock + 1);
    MemoBalances(l, i, amount);
    UnrefundedMemo(l.refunds, |l.memos|);
    assert RowsOk(l1);
    forall a | 0 <= a < |l1.allocations|
      ensures l1.allocations[a].amount <= FiscalBalanceBefore(l1, a)
    {
      CreditedPlus(l.memos, m, l.allocations[a].invoice, l.allocations[a].at);
      assert FiscalBalanceBefore(l1, a) == FiscalBalanceBefore(l, a);
    }
  }

  lemma MemoKeepsInv(l: Ledger, i: nat, amount: int)
    requires Inv(l) && IssueCreditMemo(l, i, amount).Ok?
    ensures Inv(IssueCreditMemo(l, i, amount).value)
  {
    hide PaidIn, UsedIn, CreditedAll, CreditedIn, RefundedIn, Balance, Base, PeriodsOk, UpToDate, Anniversary;
    var l1 := WithMemo(l, i, amount);
    var status := if Balance(l1, i) <= 0 then Paid else Open;
    var l2 := MarkInvoice(l1, i, status);
    var s := l.invoices[i].subscription;
    assert RowsOk(l) && OnAnniversary(l.subscriptions[s], l.invoices[i]) by {
      InvoiceOwner(l, i);
    }
    MemoKeepsBase(l, i, amount);
    MemoBalances(l, i, amount);
    MarkKeepsBase(l1, i, status);
    SettledKeepsPeriods(l, l2);
    MemoStatuses(l, i, amount);
    MemoUpdates(l, l2, s);
    RefreshKeepsRows(l2, {s});
  }

  /** The refresh of the one subscription whose invoice changed is enough. */
  lemma MemoUpdates(l: Ledger, l2: Ledger, s: nat)
    requires Inv(l) && Base(l2) && PeriodsOk(l2) && s < |l.subscriptions|
    requires l2.subscriptions == l.subscriptions && |l2.invoices| == |l.invoices|
    requires l.subscriptions[s].activation.Some? && Valid(l.subscriptions[s].activation.value)
    requires forall i :: 0 <= i < |l.invoices| ==>
               && l2.invoices[i] == l.invoices[i].(status := l2.invoices[i].status)
               && (l.invoices[i].subscription != s ==> l2.invoices[i] == l.invoices[i] && Balance(l2, i) == Balance(l, i))
    ensures AllUpToDate(RefreshEach(l2, {s}))
  {
    hide Balance, Base, PeriodsOk, UpToDate, Anniversary;
    forall t | 0 <= t < |l.subscriptions|
      ensures UpToDate(RefreshEach(l2, {s}), t)
    {
      if t != s {
        SameForUpToDate(l, l2, t);
      }
      RefreshUpdates(l2, {s}, t);
    }
  }

  lemma InvoiceOwner(l: Ledger, i: nat)
    requires Base(l) && PeriodsOk(l) && i < |l.invoices|
    ensures RowsOk(l) && l.invoices[i].subscription < |l.subscriptions|
    ensures OnAnniversary(l.subscriptions[l.invoices[i].subscription], l.invoices[i])
  {
  }

  /** A memo can only turn debt into settlement: statuses stay right and no debt appears. */
  lemma MemoStatuses(l: Ledger, i: nat, amount: int)
    requires RowsOk(l) && StatusesOk(l) && NoIdleCredit(l)
    requires i < |l.invoices| && l.invoices[i].status != Void && 0 < amount
    ensures var l1 := WithMemo(l, i, amount);
            var l2 := MarkInvoice(l1, i, if Balance(l1, i) <= 0 then Paid else Open);
            StatusesOk(l2) && NoIdleCredit(l2)
  {
    hide PaidIn, UsedIn, CreditedAll, CreditedIn, RefundedIn;
    MemoBalances(l, i, amount);
    var l1 := WithMemo(l, i, amount);
    var l2 := MarkInvoice(l1, i, if Balance(l1, i) <= 0 then Paid else Open);
    assert forall j :: 0 <= j < |l.invoices| ==> Balance(l2, j) == Balance(l1, j);
    assert forall p :: 0 <= p < |l.payments| ==> Available(l2, p) == Available(l, p);
  }

  /* ---- refunds ---- */

  lemma RefundedPlus(refunds: seq<Refund>, r: Refund, memos: seq<Memo>, i: nat, m: nat)
    ensures RefundedIn(refunds + [r], memos, i) == RefundedIn(refunds, memos, i)
            + if r.memo < |memos| && memos[r.memo].invoice == i then r.amount else 0
    ensures RefundedOfMemo(refunds + [r], m) == RefundedOfMemo(refunds, m) + if r.memo == m then r.amount else 0
  {
    assert (refunds + [r])[..|refunds|] == refunds;
  }

  lemma RefundKeepsInv(l: Ledger, m: nat, amount: int)
    requires Inv(l) && RefundCredit(l, m, amount).Ok?
    ensures Inv(RefundCredit(l, m, amount).value)
  {
    hide PaidIn, UsedIn, CreditedAll, CreditedIn, RefundedIn, RefundedOfMemo, UpToDate, PeriodsOk;
    var r := Refund(m, amount);
    var l' := l.(refunds := l.refunds + [r]);
    var i := l.memos[m].invoice;
    forall j | 0 <= j < |l.invoices|
      ensures Balance(l', j) == Balance(l, j) + if j == i then amount else 0
      ensures HasRefund(l', j) <==> (j == i || HasRefund(l, j))
    {
      RefundedPlus(l.refunds, r, l.memos, j, 0);
      if j == i {
        assert l'.refunds[|l.refunds|] == r;
      }
      if HasRefund(l, j) {
        var k :| 0 <= k < |l.refunds| && l.refunds[k].memo < |l.memos| && l.memos[l.refunds[k].memo].invoice == j;
        assert l'.refunds[k] == l.refunds[k];
      }
    }
    forall k | 0 <= k < |l.memos|
      ensures RefundedOfMemo(l'.refunds, k) <= l.memos[k].amount
    {
      RefundedPlus(l.refunds, r, l.memos, 0, k);
    }
    forall a | 0 <= a < |l.allocations|
      ensures FiscalBalanceBefore(l', a) == FiscalBalanceBefore(l, a)
    {
    }
    assert forall p :: 0 <= p < |l.payments| ==> Available(l', p) == Available(l, p);
    SettledKeepsPeriods(l, l');
    RefundUpdates(l, l');
  }

  lemma RefundUpdates(l: Ledger, l': Ledger)
    requires AllUpToDate(l) && l' == l.(refunds := l'.refunds)
    requires forall j :: 0 <= j < |l.invoices| ==> (Balance(l', j) <= 0 <==> Balance(l, j) <= 0)
    ensures AllUpToDate(l')
  {
    hide Balance, UpToDate;
    forall s | 0 <= s < |l.subscriptions|
      ensures UpToDate(l', s)
    {
      SameForUpToDate(l, l', s);
    }
  }

  /* ---- periods ---- */

  function WithInvoice(l: Ledger, s: nat, start: Date, end: Date, price: int): Ledger {
    l.(invoices := l.invoices + [Invoice(s, start, end, price, Open)])
  }

  lemma {:induction false} Unpaid(allocations: seq<Allocation>, payments: seq<Payment>, i: nat)
    requires forall a :: 0 <= a < |allocations| ==> allocations[a].invoice != i
    ensures PaidIn(allocations, payments, i) == 0
  {
    if allocations != [] {
      Unpaid(allocations[..|allocations| - 1], payments, i);
    }
  }

  lemma {:induction false} Uncredited(memos: seq<Memo>, i: nat)
    requires forall m :: 0 <= m < |memos| ==> memos[m].invoice != i
    ensures CreditedAll(memos, i) == 0
  {
    if memos != [] {
      Uncredited(memos[..|memos| - 1], i);
    }
  }

  /** A new invoice owes its whole price and touches no other. */
  lemma NewInvoiceReady(l: Ledger, s: nat, start: Date, end: Date, price: int)
    requires Base(l) && PeriodsOk(l) && s < |l.subscriptions| && 0 < price
    requires forall i :: 0 <= i < |l.invoices| && l.invoices[i].status == Paid ==> Balance(l, i) <= 0
    requires OnAnniversary(l.subscriptions[s], Invoice(s, start, end, price, Open))
    requires forall i :: 0 <= i < |l.invoices| ==> !(l.invoices[i].subscription == s && l.invoices[i].start == start)
    ensures var l1 := WithInvoice(l, s, start, end, price);
            && Ready(l1)
            && Balance(l1, |l.invoices|) == price
            && (forall i :: 0 <= i < |l.invoices| ==> Balance(l1, i) == Balance(l, i))
            && (forall p :: 0 <= p < |l.payments| ==> Available(l1, p) == Available(l, p))
  {
    hide Anniversary, MonthsBetween, PaidIn, CreditedAll, CreditedIn, RefundedIn, RefundedOfMemo, UsedIn;
    var l1 := WithInvoice(l, s, start, end, price);
    var n := |l.invoices|;
    Unpaid(l.allocations, l.payments, n);
    Uncredited(l.memos, n);
    NothingRefunded(l.refunds, l.memos, n);
    assert RowsOk(l1);
    forall i | 0 <= i < |l1.invoices|
      ensures PaidAmount(l1, i) <= l1.invoices[i].total && (HasRefund(l1, i) ==> Balance(l1, i) <= 0)
    {
      if i < n {
        assert HasRefund(l1, i) == HasRefund(l, i);
      } else {
        assert !HasRefund(l1, i);
      }
    }
    forall a | 0 <= a < |l1.allocations|
      ensures l1.allocations[a].amount <= FiscalBalanceBefore(l1, a)
    {
      assert FiscalBalanceBefore(l1, a) == FiscalBalanceBefore(l, a);
    }
    NewInvoicePeriods(l, s, start, end, price);
  }

  lemma NewInvoicePeriods(l: Ledger, s: nat, start: Date, end: Date, price: int)
    requires PeriodsOk(l) && s < |l.subscriptions|
    requires OnAnniversary(l.subscriptions[s], Invoice(s, start, end, price, Open))
    requires forall i :: 0 <= i < |l.invoices| ==> !(l.invoices[i].subscription == s && l.invoices[i].start == start)
    ensures PeriodsOk(WithInvoice(l, s, start, end, price))
  {
    hide Anniversary, MonthsBetween;
  }

  /** Billing a period that is new, when every other subscription is up to date. */
  lemma BillKeepsInv(l: Ledger, s: nat, start: Date, end: Date, price: int)
    requires Base(l) && PeriodsOk(l) && StatusesOk(l) && s < |l.subscriptions| && 0 < price
    requires forall t :: 0 <= t < |l.subscriptions| && t != s ==> UpToDate(l, t)
    requires OnAnniversary(l.subscriptions[s], Invoice(s, start, end, price, Open))
    requires forall i :: 0 <= i < |l.invoices| ==> !(l.invoices[i].subscription == s && l.invoices[i].start == start)
    ensures Inv(Allocate(WithInvoice(l, s, start, end, price)))
  {
    hide Base, PeriodsOk, Balance, UpToDate, Allocate, OnAnniversary;
    var l1 := WithInvoice(l, s, start, end, price);
    NewInvoiceReady(l, s, start, end, price);
    assert |l.invoices| in OpenOrder(l1);
    assert s in Owners(l1, OpenOrder(l1));
    forall t | 0 <= t < |l1.subscriptions| && t != s
      ensures UpToDate(l1, t)
    {
      SameForUpToDate(l, l1, t);
    }
    AllocateRestoresInv(l1);
  }

  lemma CreateKeepsInv(l: Ledger, s: nat, start: Date, end: Date, price: int)
    requires Inv(l) && CreatePeriod(l, s, start, end, price).Ok?
    ensures Inv(CreatePeriod(l, s, start, end, price).value.ledger)
  {
    hide Base, PeriodsOk, Balance, CoveredTo, Allocate, Anniversary;
    if FindPeriod(l.invoices, |l.invoices|, s, start).None? {
      assert UpToDate(l, s);
      BillKeepsInv(l, s, start, end, price);
    }
  }

  lemma ActivateKeepsInv(l: Ledger, s: nat, today: Day, price: int)
    requires Inv(l) && Activate(l, s, today, price).Ok?
    ensures Inv(Activate(l, s, today, price).value)
  {
    hide Base, PeriodsOk, Balance, UpToDate, Allocate, Anniversary, StatusesOk, NoIdleCredit;
    if l.subscriptions[s].activation.None? {
      var sub := l.subscriptions[s].(activation := Some(today), status := Active);
      var l1 := l.(subscriptions := l.subscriptions[s := sub]);
      NothingBilledYet(l, s);
      ActivatedRows(l, s, sub);
      AnniversaryInverse(today, 0);
      assert FindPeriod(l1.invoices, |l1.invoices|, s, today).None?;
      ActivatedOthers(l, l1, s);
      BillKeepsInv(l1, s, today, Anniversary(today, 1), price);
    }
  }

  lemma NothingBilledYet(l: Ledger, s: nat)
    requires PeriodsOk(l) && s < |l.subscriptions| && l.subscriptions[s].activation.None?
    ensures forall i :: 0 <= i < |l.invoices| ==> l.invoices[i].subscription != s
  {
    hide Anniversary;
    forall i | 0 <= i < |l.invoices|
      ensures l.invoices[i].subscription != s
    {
      assert OnAnniversary(l.subscriptions[l.invoices[i].subscription], l.invoices[i]);
    }
  }

  /** Changing a subscription that was never billed changes no sum. */
  lemma ActivatedRows(l: Ledger, s: nat, sub: Subscription)
    requires Base(l) && PeriodsOk(l) && StatusesOk(l) && s < |l.subscriptions|
    requires forall i :: 0 <= i < |l.invoices| ==> l.invoices[i].subscription != s
    ensures var l1 := l.(subscriptions := l.subscriptions[s := sub]);
            && Base(l1) && PeriodsOk(l1) && StatusesOk(l1)
            && forall i :: 0 <= i < |l.invoices| ==> Balance(l1, i) == Balance(l, i)
  {
    hide Anniversary, MonthsBetween, PaidIn, CreditedAll, CreditedIn, RefundedIn, RefundedOfMemo, UsedIn;
    var l1 := l.(subscriptions := l.subscriptions[s := sub]);
    assert RowsOk(l1);
    forall i | 0 <= i < |l1.invoices|
      ensures PaidAmount(l1, i) <= l1.invoices[i].total && (HasRefund(l1, i) ==> Balance(l1, i) <= 0)
    {
      assert HasRefund(l1, i) == HasRefund(l, i);
    }
    forall a | 0 <= a < |l1.allocations|
      ensures l1.allocations[a].amount <= FiscalBalanceBefore(l1, a)
    {
      assert FiscalBalanceBefore(l1, a) == FiscalBalanceBefore(l, a);
    }
  }

  lemma ActivatedOthers(l: Ledger, l1: Ledger, s: nat)
    requires AllUpToDate(l) && s < |l.subscriptions| == |l1.subscriptions|
    requires l1 == l.(subscriptions := l.subscriptions[s := l1.subscriptions[s]])
    requires forall i :: 0 <= i < |l.invoices| ==> Balance(l1, i) == Balance(l, i)
    ensures forall t :: 0 <= t < |l1.subscriptions| && t != s ==> UpToDate(l1, t)
  {
    hide Balance, UpToDate;
    forall t | 0 <= t < |l.subscriptions| && t != s
      ensures UpToDate(l1, t)
    {
      SameForUpToDate(l, l1, t);
    }
  }
}
