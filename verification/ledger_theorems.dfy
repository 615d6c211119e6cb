/** The promises of the prepaid ledger, over every run from an empty book. */
module LedgerTheorems {
  import opened Common
  import opened Calendar
  import opened LedgerModel
  import opened LedgerInvariant
  import opened LedgerSettle
  import opened LedgerCoverage
  import opened LedgerSafety
  import opened LedgerOperations
  import opened LedgerHistory

  /* ---- a renewal never makes debt ---- */

  ghost predicate NoVoid(l: Ledger) {
    forall i :: 0 <= i < |l.invoices| ==> l.invoices[i].status != Void
  }

  ghost predicate NoDebt(l: Ledger) {
    forall i :: 0 <= i < |l.invoices| ==> l.invoices[i].status != Open
  }

  /** Unspent live credit means that no invoice is open. */
  lemma CreditMeansNoDebt(l: Ledger)
    requires Inv(l) && 0 < CreditOf(l, Live(l))
    ensures NoDebt(l)
  {
    if forall k :: 0 <= k < |Live(l)| ==> Available(l, Live(l)[k]) <= 0 {
      NothingAvailable(l, Live(l));
    } else {
      var k :| 0 <= k < |Live(l)| && Available(l, Live(l)[k]) > 0;
    }
  }

  /** Billing into a book without debt but with enough credit leaves no debt. */
  lemma BillFromCredit(l: Ledger, s: nat, start: Date, end: Date, price: int)
    requires Base(l) && PeriodsOk(l) && StatusesOk(l) && NoDebt(l) && s < |l.subscriptions|
    requires 0 < price <= CreditOf(l, Live(l))
    requires OnAnniversary(l.subscriptions[s], Invoice(s, start, end, price, Open))
    requires forall i :: 0 <= i < |l.invoices| ==> !(l.invoices[i].subscription == s && l.invoices[i].start == start)
    ensures var l' := Allocate(WithInvoice(l, s, start, end, price));
            NoDebt(l') && (NoVoid(l) ==> NoVoid(l')) && Balance(l', |l.invoices|) <= 0
  {
    hide Base, PeriodsOk, StatusesOk, Balance, UsedIn, Allocate, OnAnniversary, Settled, SettleInvoice, OpenOrder;
    var l1 := WithInvoice(l, s, start, end, price);
    NewInvoiceReady(l, s, start, end, price) by { hide *; StatusesPaid(l); }
    OnlyNewIsOpen(l, l1);
    CreditUnchanged(l, l1, Live(l));
    OneIsSettled(l1, |l.invoices|);
  }

  lemma StatusesPaid(l: Ledger)
    requires StatusesOk(l)
    ensures forall i :: 0 <= i < |l.invoices| && l.invoices[i].status == Paid ==> Balance(l, i) <= 0
  {
  }

  /** The only open invoice, when the live credit covers it, is paid by an allocation. */
  lemma OneIsSettled(l: Ledger, n: nat)
    requires Ready(l) && n < |l.invoices| && OpenOrder(l) == [n] && 0 < Balance(l, n) <= CreditOf(l, Live(l))
    requires forall i :: 0 <= i < |l.invoices| && i != n ==> l.invoices[i].status != Open
    ensures var l' := Allocate(l);
            && |l'.invoices| == |l.invoices| && NoDebt(l') && Balance(l', n) <= 0
            && (forall i :: 0 <= i < |l.invoices| && i != n ==> l'.invoices[i].status == l.invoices[i].status)
            && l'.invoices[n].status == Paid
  {
    hide Base, PeriodsOk, StatusesOk, Balance, UsedIn, Allocate;
    AllocateEffect(l);
    LiveIsSpendable(l);
    SettleInvoiceEffect(l, n, Live(l));
    SettleOne(l, n);
    AllocateInvoices(l);
  }

  lemma AllocateInvoices(l: Ledger)
    ensures Allocate(l).invoices == Settled(l).invoices
  {
  }

  lemma SettleOne(l: Ledger, n: nat)
    requires n < |l.invoices| && OpenOrder(l) == [n]
    ensures Settled(l) == SettleInvoice(l, n, Live(l))
  {
    hide SettleInvoice;
    var l' := SettleInvoice(l, n, Live(l));
    assert [n][1..] == [];
    assert SettleAll(l', [], Live(l)) == l';
    assert SettleAll(l, [n], Live(l)) == SettleAll(l', [n][1..], Live(l));
  }

  lemma OnlyNewIsOpen(l: Ledger, l1: Ledger)
    requires NoDebt(l) && |l1.invoices| == |l.invoices| + 1 && l1.invoices[..|l.invoices|] == l.invoices
    requires l1.invoices[|l.invoices|].status == Open
    ensures OpenOrder(l1) == [|l.invoices|]
  {
    forall k | 0 <= k < |l.invoices|
      ensures !Wanted(l1.invoices[k], None)
    {
      assert l1.invoices[k] == l1.invoices[..|l.invoices|][k];
    }
    NoneWanted(l1.invoices, |l.invoices|, None);
  }

  lemma {:induction false} NoneWanted(invoices: seq<Invoice>, n: nat, s: Option<nat>)
    requires n <= |invoices| && forall k :: 0 <= k < n ==> !Wanted(invoices[k], s)
    ensures ByStart(invoices, n, s) == []
  {
    if n > 0 {
      NoneWanted(invoices, n - 1, s);
    }
  }

  /** No renewal is refused for its period: the one it proposes is the one `create_period` accepts. */
  lemma RenewalProposesItsPeriod(l: Ledger, s: nat, price: int)
    requires Inv(l)
    ensures RenewSubscription(l, s, price) != Err(WrongPeriod)
  {
    hide Inv, Anniversary, Balance;
    if s < |l.subscriptions| && l.subscriptions[s].activation.Some? && InvoicesOf(l, s) != [] {
      RenewalMonths(l, s, price);
      AnniversaryIsOwn(l.subscriptions[s], l.invoices[InvoicesOf(l, s)[|InvoicesOf(l, s)| - 1]].end, price, s);
    }
  }

  lemma AnniversaryIsOwn(sub: Subscription, start: Date, price: int, s: nat)
    requires sub.activation.Some?
    requires OnAnniversary(sub, Invoice(s, start, Anniversary(sub.activation.value, MonthsBetween(sub.activation.value, start) + 1), price, Open))
    ensures 0 <= MonthsBetween(sub.activation.value, start)
    ensures start == Anniversary(sub.activation.value, MonthsBetween(sub.activation.value, start))
  {
  }

  lemma RenewalMonths(l: Ledger, s: nat, price: int)
    requires Inv(l) && s < |l.subscriptions| && l.subscriptions[s].activation.Some? && InvoicesOf(l, s) != []
    ensures var last := InvoicesOf(l, s)[|InvoicesOf(l, s)| - 1];
            var activation := l.subscriptions[s].activation.value;
            && MonthsBetween(activation, l.invoices[last].end) == MonthOf(l, last) + 1
            && l.invoices[last].end == Anniversary(activation, MonthOf(l, last) + 1)
            && OnAnniversary(l.subscriptions[s],
                 Invoice(s, l.invoices[last].end, Anniversary(activation, MonthOf(l, last) + 2), price, Open))
  {
    hide Base, StatusesOk, NoIdleCredit, AllUpToDate;
    var last := InvoicesOf(l, s)[|InvoicesOf(l, s)| - 1];
    assert l.invoices[last].subscription == s && OnAnniversary(l.subscriptions[s], l.invoices[last]);
    AnniversaryInverse(l.subscriptions[s].activation.value, MonthOf(l, last) + 1);
  }

  /** Nothing of the subscription, unless void, starts where its last invoice ends. */
  lemma NothingAfterLast(l: Ledger, s: nat, i: nat)
    requires Inv(l) && s < |l.subscriptions| && InvoicesOf(l, s) != [] && i < |l.invoices|
    requires l.invoices[i].subscription == s && l.invoices[i].status != Void
    ensures l.invoices[i].start != l.invoices[InvoicesOf(l, s)[|InvoicesOf(l, s)| - 1]].end
  {
    hide Base, StatusesOk, NoIdleCredit, AllUpToDate;
    var ys := InvoicesOf(l, s);
    var last := ys[|ys| - 1];
    assert Wanted(l.invoices[i], Some(s));
    var t :| 0 <= t < |ys| && ys[t] == i;
    assert OnAnniversary(l.subscriptions[s], l.invoices[last]) && OnAnniversary(l.subscriptions[s], l.invoices[i]);
    AnniversaryInverse(l.subscriptions[s].activation.value, MonthOf(l, last) + 1);
    if t < |ys| - 1 {
      MonthsIncrease(l, s, t, |ys| - 1);
    }
  }

  /** Whenever a renewal succeeds the invoice it answers with is fully paid, and the customer
      owes nothing at all. */
  lemma RenewalMakesNoDebt(l: Ledger, s: nat, price: int)
    requires Inv(l) && NoVoid(l) && 0 < price && RenewSubscription(l, s, price).Ok?
    ensures var r := RenewSubscription(l, s, price).value;
            && r.invoice < |r.ledger.invoices|
            && r.ledger.invoices[r.invoice].status == Paid
            && Balance(r.ledger, r.invoice) <= 0
            && NoDebt(r.ledger)
  {
    hide Base, PeriodsOk, Balance, Allocate, OnAnniversary, Anniversary, AllUpToDate;
    var ys := InvoicesOf(l, s);
    var start := l.invoices[ys[|ys| - 1]].end;
    CreditMeansNoDebt(l);
    RenewalMonths(l, s, price);
    forall i | 0 <= i < |l.invoices|
      ensures !(l.invoices[i].subscription == s && l.invoices[i].start == start)
    {
      if l.invoices[i].subscription == s {
        NothingAfterLast(l, s, i);
      }
    }
    var end := Anniversary(l.subscriptions[s].activation.value, MonthOf(l, ys[|ys| - 1]) + 2);
    BillFromCredit(l, s, start, end, price);
  }

  /** Billing a period answers with the invoice of exactly that period: the one already there, with
      nothing changed, or one new invoice at the price asked. */
  lemma BillingAnswersItsPeriod(l: Ledger, s: nat, start: Date, end: Date, price: int)
    requires Inv(l) && CreatePeriod(l, s, start, end, price).Ok?
    ensures var r := CreatePeriod(l, s, start, end, price).value;
            && r.invoice < |r.ledger.invoices|
            && var v := r.ledger.invoices[r.invoice];
               && v.subscription == s && v.start == start && v.end == end
               && (r.ledger == l
                   || (|r.ledger.invoices| == |l.invoices| + 1 && r.invoice == |l.invoices| && v.total == price))
  {
    hide Base, StatusesOk, NoIdleCredit, AllUpToDate, Anniversary, Allocate;
    var existing := FindPeriod(l.invoices, |l.invoices|, s, start);
    if existing.Some? {
      assert OnAnniversary(l.subscriptions[s], l.invoices[existing.value]);
    } else {
      CreateAppends(l, s, start, end, price);
      AllocateAppends(WithInvoice(l, s, start, end, price));
    }
  }

  /** In every reachable ledger the billed periods of a subscription are distinct months that do not
      overlap, and two of them meet exactly when the months are consecutive. */
  lemma PeriodsTile(ops: seq<Operation>, i: nat, j: nat)
    requires i < |Run(EMPTY, ops).invoices| && j < |Run(EMPTY, ops).invoices| && i != j
    requires Run(EMPTY, ops).invoices[i].subscription == Run(EMPTY, ops).invoices[j].subscription
    ensures var l := Run(EMPTY, ops);
            var v, w := l.invoices[i], l.invoices[j];
            && v.subscription < |l.subscriptions| && l.subscriptions[v.subscription].activation.Some?
            && MonthOf(l, i) != MonthOf(l, j)
            && Before(v.start, v.end)
            && (MonthOf(l, i) < MonthOf(l, j) ==> !Before(w.start, v.end))
            && (v.end == w.start <==> MonthOf(l, j) == MonthOf(l, i) + 1)
  {
    hide Run, Base, StatusesOk, NoIdleCredit, AllUpToDate, Before, Anniversary;
    ReachableInv(ops);
    var l := Run(EMPTY, ops);
    var activation := l.subscriptions[l.invoices[i].subscription].activation.value;
    assert OnAnniversary(l.subscriptions[l.invoices[i].subscription], l.invoices[i]);
    assert OnAnniversary(l.subscriptions[l.invoices[j].subscription], l.invoices[j]);
    assert !SamePeriod(l.invoices[i], l.invoices[j]);
    var a, b := MonthOf(l, i), MonthOf(l, j);
    AnniversaryOrder(activation, a, a + 1);
    AnniversaryOrder(activation, b, a + 1);
    AnniversaryInjective(activation, a + 1, b);
  }

  /* ---- the end of service ---- */

  predicate NotShortened(l: Ledger, l': Ledger, s: nat) {
    && s < |l.subscriptions| && l.subscriptions[s].paidUntil.Some?
    && s < |l'.subscriptions| && l'.subscriptions[s].paidUntil.Some?
    && !Before(l'.subscriptions[s].paidUntil.value, l.subscriptions[s].paidUntil.value)
  }

  /** Only a reversal can move the end of service back. */
  lemma OnlyReversalShortens(l: Ledger, op: Operation, s: nat)
    requires Inv(l) && s < |l.subscriptions| && l.subscriptions[s].activation.Some? && !op.Reverse?
    ensures NotShortened(l, Step(l, op), s)
  {
    hide Inv, Step, Before;
    var l' := Step(l, op);
    StepKeepsInv(l, op);
    StepAppends(l, op);
    StepKeepsSettled(l, op, s);
    InvUpToDate(l, s);
    InvUpToDate(l', s);
    CoverageGrows(l, l', s);
  }

  lemma InvUpToDate(l: Ledger, s: nat)
    requires Inv(l) && s < |l.subscriptions|
    ensures UpToDate(l, s) && PeriodsOk(l) && Base(l) && Ready(l)
  {
  }

  lemma BillKeepsSettled(l: Ledger, t: nat, start: Date, end: Date, price: int, s: nat)
    requires Base(l) && PeriodsOk(l) && StatusesOk(l) && t < |l.subscriptions| && 0 < price
    requires OnAnniversary(l.subscriptions[t], Invoice(t, start, end, price, Open))
    requires forall i :: 0 <= i < |l.invoices| ==> !(l.invoices[i].subscription == t && l.invoices[i].start == start)
    requires s < |l.subscriptions| && l.subscriptions[s].activation.Some?
    ensures KeepsSettled(l, Allocate(WithInvoice(l, t, start, end, price)), s)
  {
    hide Base, PeriodsOk, Balance, Allocate, OnAnniversary;
    var l1 := WithInvoice(l, t, start, end, price);
    NewInvoiceReady(l, t, start, end, price);
    SettledKept(l, l1, s);
    AllocateKeepsSettled(l1, s);
  }

  lemma CreateKeepsSettled(l: Ledger, t: nat, start: Date, end: Date, price: int, s: nat)
    requires Base(l) && PeriodsOk(l) && StatusesOk(l) && CreatePeriod(l, t, start, end, price).Ok?
    requires l.subscriptions[t].activation.Some? ==> Valid(l.subscriptions[t].activation.value)
    requires s < |l.subscriptions| && l.subscriptions[s].activation.Some?
    ensures KeepsSettled(l, CreatePeriod(l, t, start, end, price).value.ledger, s)
  {
    hide Base, PeriodsOk, StatusesOk, Balance, Allocate, Anniversary;
    if FindPeriod(l.invoices, |l.invoices|, t, start).None? {
      BillKeepsSettled(l, t, start, end, price, s);
    }
  }

  lemma ReceiveKeepsSettled(l: Ledger, amount: int, s: nat)
    requires Inv(l) && 0 < amount && s < |l.subscriptions| && l.subscriptions[s].activation.Some?
    ensures KeepsSettled(l, Allocate(l.(payments := l.payments + [Payment(amount, false)])), s)
  {
    hide Inv, Balance, Allocate, Base, PeriodsOk;
    var l1 := l.(payments := l.payments + [Payment(amount, false)]);
    NewPaymentReady(l, amount);
    SettledKept(l, l1, s);
    AllocateKeepsSettled(l1, s);
  }

  lemma MemoKeepsSettled(l: Ledger, i: nat, amount: int, s: nat)
    requires Inv(l) && IssueCreditMemo(l, i, amount).Ok? && s < |l.subscriptions| && l.subscriptions[s].activation.Some?
    ensures KeepsSettled(l, IssueCreditMemo(l, i, amount).value, s)
  {
    hide PaidIn, CreditedAll, CreditedIn, RefundedIn, UpToDate, PeriodsOk, Walk;
    MemoBalances(l, i, amount);
    var l1 := WithMemo(l, i, amount);
    var l2 := MarkInvoice(l1, i, if Balance(l1, i) <= 0 then Paid else Open);
    var l' := RefreshEach(l2, {l.invoices[i].subscription});
    assert forall j :: 0 <= j < |l.invoices| ==> Balance(l', j) == Balance(l1, j);
    SettledKept(l, l', s);
  }

  lemma RefundKeepsSettled(l: Ledger, m: nat, amount: int, s: nat)
    requires Inv(l) && RefundCredit(l, m, amount).Ok? && s < |l.subscriptions| && l.subscriptions[s].activation.Some?
    ensures KeepsSettled(l, RefundCredit(l, m, amount).value, s)
  {
    hide PaidIn, CreditedAll, CreditedIn, RefundedIn, UpToDate, PeriodsOk;
    var l' := RefundCredit(l, m, amount).value;
    forall j | 0 <= j < |l.invoices|
      ensures Balance(l', j) == Balance(l, j) + if j == l.memos[m].invoice then amount else 0
    {
      RefundedPlus(l.refunds, Refund(m, amount), l.memos, j, 0);
    }
    SettledKept(l, l', s);
  }

  lemma ActivateKeepsSettled(l: Ledger, t: nat, today: Day, price: int, s: nat)
    requires Inv(l) && Activate(l, t, today, price).Ok? && s < |l.subscriptions| && l.subscriptions[s].activation.Some?
    ensures KeepsSettled(l, Activate(l, t, today, price).value, s)
  {
    hide Base, PeriodsOk, StatusesOk, NoIdleCredit, UpToDate, Balance, Allocate, Anniversary, CreatePeriod;
    if l.subscriptions[t].activation.None? {
      var sub := l.subscriptions[t].(activation := Some(today), status := Active);
      var l1 := l.(subscriptions := l.subscriptions[t := sub]);
      NothingBilledYet(l, t);
      ActivatedRows(l, t, sub);
      SettledKept(l, l1, s);
      CreateAppends(l1, t, today, Anniversary(today, 1), price);
      CreateKeepsSettled(l1, t, today, Anniversary(today, 1), price, s);
    }
  }

  lemma StepKeepsSettled(l: Ledger, op: Operation, s: nat)
    requires Inv(l) && s < |l.subscriptions| && l.subscriptions[s].activation.Some? && !op.Reverse?
    requires Appended(l, Step(l, op))
    ensures KeepsSettled(l, Step(l, op), s)
  {
    hide Allocate, CreatePeriod, IssueCreditMemo, RefundCredit, Activate, UpToDate, Anniversary, Base, PeriodsOk;
    match op
    case Receive(amount) =>
      if Money(amount) { ReceiveKeepsSettled(l, amount, s); }
    case IssueMemo(i, amount) =>
      if IssueCreditMemo(l, i, amount).Ok? { MemoKeepsSettled(l, i, amount, s); }
    case RefundMemo(m, amount) =>
      if RefundCredit(l, m, amount).Ok? { RefundKeepsSettled(l, m, amount, s); }
    case Create(t, start, end, price) =>
      if CreatePeriod(l, t, start, end, price).Ok? { CreateStepKeepsSettled(l, t, start, end, price, s); }
    case Renew(t, price) =>
      if RenewSubscription(l, t, price).Ok? {
        var ys := InvoicesOf(l, t);
        var activation := l.subscriptions[t].activation.value;
        var start := l.invoices[ys[|ys| - 1]].end;
        CreateStepKeepsSettled(l, t, start, Anniversary(activation, MonthsBetween(activation, start) + 1), price, s);
      }
    case ActivateService(t, today, price) =>
      if Activate(l, t, today, price).Ok? { ActivateKeepsSettled(l, t, today, price, s); }
    case AddSubscription =>
      SettledKept(l, Step(l, op), s);
    case SetServiceStatus(t, status) =>
      SettledKept(l, Step(l, op), s);
  }

  lemma CreateStepKeepsSettled(l: Ledger, t: nat, start: Date, end: Date, price: int, s: nat)
    requires Inv(l) && CreatePeriod(l, t, start, end, price).Ok?
    requires s < |l.subscriptions| && l.subscriptions[s].activation.Some?
    requires Appended(l, CreatePeriod(l, t, start, end, price).value.ledger)
    ensures KeepsSettled(l, CreatePeriod(l, t, start, end, price).value.ledger, s)
  {
    hide Base, PeriodsOk, Allocate, Anniversary, CoveredTo;
    assert t < |l.subscriptions| && UpToDate(l, t);
    CreateKeepsSettled(l, t, start, end, price, s);
  }
}
