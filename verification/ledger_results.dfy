/** When each transaction of the ledger is accepted, and the rows it leaves behind, in every reachable ledger. */
module LedgerResults {
  import opened Common
  import opened Calendar
  import opened LedgerModel
  import opened LedgerInvariant
  import opened LedgerSettle
  import opened LedgerCoverage
  import opened LedgerSafety
  import opened LedgerOperations
  import opened LedgerHistory
  import opened LedgerTheorems
  import opened LedgerComplement
  import opened LedgerMoney

  lemma Reached(ops: seq<Operation>)
    ensures Inv(Run(EMPTY, ops)) && NoVoid(Run(EMPTY, ops))
  {
    hide Run;
    ReachableInv(ops);
    EmptyNoVoid();
    RunNoVoid(EMPTY, ops);
  }

  /** Amounts are at least one cent and less than ten thousand million pesos. */
  lemma MoneyIs(cents: int)
    ensures Money(cents) <==> 1 <= cents <= 999_999_999_999
  {
  }

  /* ---- renewals ---- */

  /** Invoice `i` bills the latest period of service `s`. */
  ghost predicate Latest(l: Ledger, s: nat, i: nat) {
    && i < |l.invoices| && l.invoices[i].subscription == s
    && forall k :: 0 <= k < |l.invoices| && l.invoices[k].subscription == s && k != i ==> Before(l.invoices[k].start, l.invoices[i].start)
  }

  lemma LastIsLatest(l: Ledger, s: nat)
    requires Inv(l) && NoVoid(l) && s < |l.subscriptions| && InvoicesOf(l, s) != []
    ensures Latest(l, s, InvoicesOf(l, s)[|InvoicesOf(l, s)| - 1])
  {
    hide Base, StatusesOk, NoIdleCredit, AllUpToDate, Before, Anniversary, MonthsBetween;
    var ys := InvoicesOf(l, s);
    var last := ys[|ys| - 1];
    assert OnAnniversary(l.subscriptions[s], l.invoices[last]);
    forall k | 0 <= k < |l.invoices| && l.invoices[k].subscription == s && k != last
      ensures Before(l.invoices[k].start, l.invoices[last].start)
    {
      assert OnAnniversary(l.subscriptions[s], l.invoices[k]);
      assert Wanted(l.invoices[k], Some(s));
      var t :| 0 <= t < |ys| && ys[t] == k;
      MonthsIncrease(l, s, t, |ys| - 1);
      AnniversaryOrder(l.subscriptions[s].activation.value, MonthOf(l, k), MonthOf(l, last));
    }
  }

  lemma LatestIsLast(l: Ledger, s: nat, i: nat)
    requires Inv(l) && NoVoid(l) && s < |l.subscriptions| && Latest(l, s, i)
    ensures InvoicesOf(l, s) != [] && i == InvoicesOf(l, s)[|InvoicesOf(l, s)| - 1]
  {
    hide Inv, Before;
    assert Wanted(l.invoices[i], Some(s));
    var ys := InvoicesOf(l, s);
    assert i in ys;
    LastIsLatest(l, s);
    var last := ys[|ys| - 1];
    if i != last {
      NotBoth(l.invoices[i].start, l.invoices[last].start);
    }
  }

  lemma NotBoth(a: Date, b: Date)
    ensures !(Before(a, b) && Before(b, a))
  {
  }

  lemma {:induction false} LiveCredits(l: Ledger, n: nat)
    requires n <= |l.payments|
    ensures CreditOf(l, LivePayments(l.payments, n)) == AvailableUpTo(l, n)
  {
    hide LivePayments, CreditOf, UsedIn;
    LiveUnfolds(l, n);
    if n > 0 {
      LiveCredits(l, n - 1);
      if !l.payments[n - 1].reversed { CreditAppend(l, LivePayments(l.payments, n - 1), n - 1); }
    }
  }

  lemma LiveUnfolds(l: Ledger, n: nat)
    requires n <= |l.payments|
    ensures if n == 0 then LivePayments(l.payments, n) == [] && CreditOf(l, []) == 0
            else if l.payments[n - 1].reversed then LivePayments(l.payments, n) == LivePayments(l.payments, n - 1)
            else LivePayments(l.payments, n) == LivePayments(l.payments, n - 1) + [n - 1]
  {
    hide Available;
  }

  lemma {:induction false} CreditAppend(l: Ledger, ps: seq<nat>, p: nat)
    requires Keys(ps, |l.payments|) && p < |l.payments|
    ensures CreditOf(l, ps + [p]) == CreditOf(l, ps) + Available(l, p)
  {
    if ps == [] {
      assert ps + [p] == [p];
      assert CreditOf(l, [p]) == Available(l, p) + CreditOf(l, [p][1..]);
    } else {
      assert (ps + [p])[1..] == ps[1..] + [p];
      CreditAppend(l, ps[1..], p);
    }
  }

  /** The latest period of service `s` is paid. */
  ghost predicate Current(l: Ledger, s: nat) { exists i :: Latest(l, s, i) && Balance(l, i) <= 0 }

  /** An activated service, neither pending nor cancelled, whose latest period is not owed, at a price that is an amount
      and that the credit of the customer covers, to the cent. */
  ghost predicate MayRenew(l: Ledger, s: nat, price: int) {
    && s < |l.subscriptions| && l.subscriptions[s].activation.Some?
    && l.subscriptions[s].status != Pending && l.subscriptions[s].status != Cancelled
    && 1 <= price <= 999_999_999_999 && price <= AvailableUpTo(l, |l.payments|)
    && Current(l, s)
  }

  /** In every reachable ledger a renewal is accepted exactly then. */
  lemma RenewedExactlyWhen(ops: seq<Operation>, s: nat, price: int)
    ensures RenewSubscription(Run(EMPTY, ops), s, price).Ok? <==> MayRenew(Run(EMPTY, ops), s, price)
  {
    hide *;
    Reached(ops);
    Renewed(Run(EMPTY, ops), s, price);
  }

  lemma Renewed(l: Ledger, s: nat, price: int)
    requires Inv(l) && NoVoid(l)
    ensures RenewSubscription(l, s, price).Ok? <==> MayRenew(l, s, price)
  {
    hide RenewSubscription, Inv, NoVoid, Current;
    if s < |l.subscriptions| && l.subscriptions[s].activation.Some? && InvoicesOf(l, s) != [] {
      RenewGuards(l, s, price);
    } else {
      NotRenewed(l, s, price);
    }
  }

  lemma NotRenewed(l: Ledger, s: nat, price: int)
    requires Inv(l) && NoVoid(l)
    requires s >= |l.subscriptions| || l.subscriptions[s].activation.None? || InvoicesOf(l, s) == []
    ensures RenewSubscription(l, s, price).Err? && !MayRenew(l, s, price)
  {
    hide Inv, NoVoid, Latest, ByStart;
    if s < |l.subscriptions| { CurrentIsPaid(l, s); }
  }

  lemma RenewGuards(l: Ledger, s: nat, price: int)
    requires Inv(l) && NoVoid(l) && s < |l.subscriptions| && l.subscriptions[s].activation.Some? && InvoicesOf(l, s) != []
    ensures RenewSubscription(l, s, price).Ok? <==>
            && l.subscriptions[s].status != Pending && l.subscriptions[s].status != Cancelled
            && 1 <= price <= 999_999_999_999 && price <= AvailableUpTo(l, |l.payments|) && Current(l, s)
  {
    RenewReasons(l, s, price);
    hide RenewSubscription, CreatePeriod;
    MoneyIs(price);
    LiveCredits(l, |l.payments|);
    CurrentIsPaid(l, s);
    RenewalBills(l, s, price);
    hide *;
  }

  /** The query's last invoice is the latest one. */
  lemma CurrentIsPaid(l: Ledger, s: nat)
    requires Inv(l) && NoVoid(l) && s < |l.subscriptions|
    ensures Current(l, s) <==> InvoicesOf(l, s) != [] && Balance(l, InvoicesOf(l, s)[|InvoicesOf(l, s)| - 1]) <= 0
  {
    if InvoicesOf(l, s) != [] { LastIsLatest(l, s); }
    hide Inv, NoVoid, Latest, Balance, ByStart;
    if i: nat :| Latest(l, s, i) && Balance(l, i) <= 0 { LatestIsLast(l, s, i); }
  }

  /** The period that a renewal proposes is billed exactly when the service is not pending and the price is an amount. */
  lemma RenewalBills(l: Ledger, s: nat, price: int)
    requires Inv(l) && NoVoid(l) && s < |l.subscriptions| && l.subscriptions[s].activation.Some? && InvoicesOf(l, s) != []
    ensures var activation := l.subscriptions[s].activation.value;
            var start := l.invoices[InvoicesOf(l, s)[|InvoicesOf(l, s)| - 1]].end;
            var r := CreatePeriod(l, s, start, Anniversary(activation, MonthsBetween(activation, start) + 1), price);
            && (r.Ok? <==> l.subscriptions[s].status != Pending && Money(price))
            && (r.Ok? ==> r.value.invoice == |l.invoices|)
            && (r.Err? ==> r.error == if l.subscriptions[s].status == Pending then NotActivated else BadAmount)
  {
    hide Base, Balance, Anniversary, Allocate, StatusesOk, NoIdleCredit, AllUpToDate, OnAnniversary;
    RenewalMonths(l, s, price);
    var start := l.invoices[InvoicesOf(l, s)[|InvoicesOf(l, s)| - 1]].end;
    AnniversaryIsOwn(l.subscriptions[s], start, price, s);
    forall i | 0 <= i < |l.invoices|
      ensures !(l.invoices[i].subscription == s && l.invoices[i].start == start)
    {
      if l.invoices[i].subscription == s { NothingAfterLast(l, s, i); }
    }
  }

  /** An accepted renewal adds one invoice, of that service, from the end of its latest period to the next anniversary, at
      the price asked, and pays it; nothing else of an invoice changes but its status. */
  lemma RenewalAddsOne(ops: seq<Operation>, s: nat, price: int, i: nat)
    requires RenewSubscription(Run(EMPTY, ops), s, price).Ok? && Latest(Run(EMPTY, ops), s, i)
    ensures var l := Run(EMPTY, ops); var r := RenewSubscription(l, s, price).value; var n := |l.invoices|;
            && |r.ledger.invoices| == n + 1 && r.invoice == n
            && s < |l.subscriptions| && l.subscriptions[s].activation.Some?
            && (forall k :: 0 <= k < n ==> r.ledger.invoices[k] == l.invoices[k].(status := r.ledger.invoices[k].status))
            && exists months: nat :: l.invoices[i].end == Anniversary(l.subscriptions[s].activation.value, months)
                 && r.ledger.invoices[n] == Invoice(s, l.invoices[i].end, Anniversary(l.subscriptions[s].activation.value, months + 1), price, Paid)
  {
    hide Run;
    Reached(ops);
    var l := Run(EMPTY, ops);
    RenewedExactlyWhen(ops, s, price);
    hide Inv, AvailableUpTo, Balance, CreditOf, CreatePeriod, Latest;
    LatestIsLast(l, s, i);
    RenewalMonths(l, s, price);
    RenewalBills(l, s, price);
    ReachableRenewalMakesNoDebt(ops, s, price);
    var activation := l.subscriptions[s].activation.value;
    var start := l.invoices[i].end;
    var end := Anniversary(activation, MonthsBetween(activation, start) + 1);
    CreateAppends(l, s, start, end, price);
    BillingAnswersItsPeriod(l, s, start, end, price);
    MonthNotNegative(l, s, i);
    var months: nat := MonthOf(l, i) + 1;
    assert start == Anniversary(activation, months) && end == Anniversary(activation, months + 1);
  }

  lemma MonthNotNegative(l: Ledger, s: nat, i: nat)
    requires Inv(l) && i < |l.invoices| && l.invoices[i].subscription == s && s < |l.subscriptions|
    ensures l.subscriptions[s].activation.Some? && MonthOf(l, i) >= 0
  {
    assert OnAnniversary(l.subscriptions[s], l.invoices[i]);
  }

  /* ---- billing ---- */

  /** An activated service that is not pending, from one of its anniversaries to the next, and, unless it was billed before,
      at a price that is an amount. */
  ghost predicate MayBill(l: Ledger, s: nat, start: Date, end: Date, price: int) {
    && s < |l.subscriptions| && l.subscriptions[s].activation.Some? && l.subscriptions[s].status != Pending
    && (exists months: nat :: start == Anniversary(l.subscriptions[s].activation.value, months)
                              && end == Anniversary(l.subscriptions[s].activation.value, months + 1))
    && ((exists i :: 0 <= i < |l.invoices| && l.invoices[i].subscription == s && l.invoices[i].start == start)
        || 1 <= price <= 999_999_999_999)
  }

  /** In every reachable ledger a period is billed exactly then. */
  lemma BilledExactlyWhen(ops: seq<Operation>, s: nat, start: Date, end: Date, price: int)
    ensures CreatePeriod(Run(EMPTY, ops), s, start, end, price).Ok? <==> MayBill(Run(EMPTY, ops), s, start, end, price)
  {
    hide *;
    Reached(ops);
    BilledWhen(Run(EMPTY, ops), s, start, end, price);
  }

  lemma BilledWhen(l: Ledger, s: nat, start: Date, end: Date, price: int)
    requires Inv(l)
    ensures CreatePeriod(l, s, start, end, price).Ok? <==> MayBill(l, s, start, end, price)
  {
    MoneyIs(price);
    if s < |l.subscriptions| && l.subscriptions[s].activation.Some? {
      ActivationValid(l, s);
      PeriodExactly(l.subscriptions[s].activation.value, start, end);
    }
    hide Inv, Anniversary, Allocate, MonthsBetween, Money;
  }

  /** The month count finds the anniversary, if there is one. */
  lemma PeriodExactly(a: Date, start: Date, end: Date)
    requires Valid(a)
    ensures (exists months: nat :: start == Anniversary(a, months) && end == Anniversary(a, months + 1))
            <==> MonthsBetween(a, start) >= 0 && start == Anniversary(a, MonthsBetween(a, start)) && end == Anniversary(a, MonthsBetween(a, start) + 1)
  {
    hide Anniversary, MonthsBetween;
    if months: nat :| start == Anniversary(a, months) && end == Anniversary(a, months + 1) {
      AnniversaryInverse(a, months);
    }
    if MonthsBetween(a, start) >= 0 && start == Anniversary(a, MonthsBetween(a, start)) && end == Anniversary(a, MonthsBetween(a, start) + 1) {
      var months: nat := MonthsBetween(a, start);
      assert start == Anniversary(a, months) && end == Anniversary(a, months + 1);
    }
  }

  lemma ActivationValid(l: Ledger, s: nat)
    requires Inv(l) && s < |l.subscriptions| && l.subscriptions[s].activation.Some?
    ensures Valid(l.subscriptions[s].activation.value)
  {
    assert UpToDate(l, s);
  }

  /** Why billing and renewing are refused, the first reason first. */
  lemma BillingRefusedWhy(l: Ledger, s: nat, start: Date, end: Date, price: int)
    requires Inv(l) && CreatePeriod(l, s, start, end, price).Err?
    ensures CreatePeriod(l, s, start, end, price).error
            == if s >= |l.subscriptions| then NoSuchRow
               else if l.subscriptions[s].activation == None || l.subscriptions[s].status == Pending then NotActivated
               else if exists months: nat :: start == Anniversary(l.subscriptions[s].activation.value, months)
                                             && end == Anniversary(l.subscriptions[s].activation.value, months + 1) then BadAmount
               else WrongPeriod
  {
    if s < |l.subscriptions| && l.subscriptions[s].activation.Some? {
      ActivationValid(l, s);
      PeriodExactly(l.subscriptions[s].activation.value, start, end);
    }
    hide Inv, Anniversary, Allocate, MonthsBetween;
  }

  lemma RenewalRefusedWhy(l: Ledger, s: nat, price: int)
    requires Inv(l) && NoVoid(l) && RenewSubscription(l, s, price).Err?
    ensures RenewSubscription(l, s, price).error
            == if s >= |l.subscriptions| then NoSuchRow
               else if l.subscriptions[s].activation == None || l.subscriptions[s].status == Cancelled then NotActivated
               else if !Current(l, s) then CurrentUnpaid
               else if AvailableUpTo(l, |l.payments|) < price then NoCredit
               else if l.subscriptions[s].status == Pending then NotActivated
               else BadAmount
  {
    if s < |l.subscriptions| && l.subscriptions[s].activation.Some? && InvoicesOf(l, s) != [] {
      LiveCredits(l, |l.payments|);
      CurrentIsPaid(l, s);
      RenewReasons(l, s, price);
      RenewalBills(l, s, price);
      hide *;
    } else {
      if s < |l.subscriptions| { CurrentIsPaid(l, s); }
      hide Inv, NoVoid, Current, AvailableUpTo, ByStart;
    }
  }

  lemma RenewReasons(l: Ledger, s: nat, price: int)
    requires s < |l.subscriptions| && l.subscriptions[s].activation.Some? && InvoicesOf(l, s) != []
    ensures var activation := l.subscriptions[s].activation.value; var last := InvoicesOf(l, s)[|InvoicesOf(l, s)| - 1];
            var start := l.invoices[last].end;
            var billed := CreatePeriod(l, s, start, Anniversary(activation, MonthsBetween(activation, start) + 1), price);
            RenewSubscription(l, s, price)
            == if l.subscriptions[s].status == Cancelled then Err(NotActivated)
               else if Balance(l, last) > 0 then Err(CurrentUnpaid)
               else if CreditOf(l, LivePayments(l.payments, |l.payments|)) < price then Err(NoCredit)
               else billed
  {
    hide CreatePeriod, Balance, CreditOf, Anniversary, MonthsBetween;
  }

  /* ---- payments, credits and refunds ---- */

  /** A payment is taken exactly when it is an amount, and then recorded once, as received. */
  lemma ReceivedExactlyWhen(l: Ledger, amount: int)
    ensures ReceivePayment(l, amount).Ok? <==> 1 <= amount <= 999_999_999_999
    ensures ReceivePayment(l, amount).Ok? ==>
              var l' := ReceivePayment(l, amount).value;
              && l'.payments == l.payments + [Payment(amount, false)]
              && l'.memos == l.memos && l'.refunds == l.refunds && |l'.invoices| == |l.invoices|
  {
  }

  /** A credit memo of an invoice that the payment was ever applied to was refunded. */
  ghost predicate RefundedBehind(l: Ledger, p: nat) {
    exists a, r :: 0 <= a < |l.allocations| && 0 <= r < |l.refunds| && l.allocations[a].payment == p
                   && l.refunds[r].memo < |l.memos| && l.memos[l.refunds[r].memo].invoice == l.allocations[a].invoice
  }

  /** In every reachable ledger a first reversal is refused exactly then; one that is accepted marks that payment and no
      other, and one that repeats changes nothing. */
  lemma ReversedExactlyWhen(ops: seq<Operation>, p: nat)
    ensures var l := Run(EMPTY, ops);
            ReversePayment(l, p).Ok? <==> p < |l.payments| && (l.payments[p].reversed || !RefundedBehind(l, p))
    ensures var l := Run(EMPTY, ops);
            ReversePayment(l, p).Ok? ==>
              var l' := ReversePayment(l, p).value;
              && p < |l.payments| && l'.payments == l.payments[p := Payment(l.payments[p].amount, true)]
              && l'.memos == l.memos && l'.refunds == l.refunds
              && (l.payments[p].reversed ==> l' == l)
  {
    hide *;
    Reached(ops);
    InvRows(Run(EMPTY, ops));
    ReversedWhen(Run(EMPTY, ops), p);
  }

  lemma ReversedWhen(l: Ledger, p: nat)
    requires RowsOk(l)
    ensures ReversePayment(l, p).Ok? <==> p < |l.payments| && (l.payments[p].reversed || !RefundedBehind(l, p))
    ensures ReversePayment(l, p).Ok? ==>
              var l' := ReversePayment(l, p).value;
              && p < |l.payments| && l'.payments == l.payments[p := Payment(l.payments[p].amount, true)]
              && l'.memos == l.memos && l'.refunds == l.refunds
              && (l.payments[p].reversed ==> l' == l)
  {
    if p < |l.payments| {
      RefundBehind(l, p);
      hide Touches, HasRefund, RowsOk, RefundedBehind, Allocate, Reopened;
      if l.payments[p].reversed {
        assert l.payments[p := Payment(l.payments[p].amount, true)] == l.payments;
      } else {
        ReversedTables(l, p);
      }
    }
  }

  lemma ReversedTables(l: Ledger, p: nat)
    requires p < |l.payments|
    ensures var l' := RefreshEach(Allocate(Reopened(l, p)), TouchedOwners(l, p));
            && l'.payments == l.payments[p := Payment(l.payments[p].amount, true)] && l'.memos == l.memos && l'.refunds == l.refunds
  {
    hide Allocate;
    AllocateTables(Reopened(l, p));
  }

  lemma RefundBehind(l: Ledger, p: nat)
    requires RowsOk(l)
    ensures (exists i :: 0 <= i < |l.invoices| && Touches(l, p, i) && HasRefund(l, i)) <==> RefundedBehind(l, p)
  {
    if a: nat, r: nat :| a < |l.allocations| && r < |l.refunds| && l.allocations[a].payment == p
                         && l.refunds[r].memo < |l.memos| && l.memos[l.refunds[r].memo].invoice == l.allocations[a].invoice {
      assert Touches(l, p, l.allocations[a].invoice) && HasRefund(l, l.allocations[a].invoice);
    }
    if i: nat :| i < |l.invoices| && Touches(l, p, i) && HasRefund(l, i) {
      var a: nat :| a < |l.allocations| && l.allocations[a].payment == p && l.allocations[a].invoice == i;
      var r: nat :| r < |l.refunds| && l.refunds[r].memo < |l.memos| && l.memos[l.refunds[r].memo].invoice == i;
      assert l.memos[l.refunds[r].memo].invoice == l.allocations[a].invoice;
    }
  }

  /** A credit memo is issued exactly for an invoice that is there and an amount, dated after everything recorded so far. */
  lemma CreditedExactlyWhen(ops: seq<Operation>, i: nat, amount: int)
    ensures var l := Run(EMPTY, ops);
            IssueCreditMemo(l, i, amount).Ok? <==> i < |l.invoices| && 1 <= amount <= 999_999_999_999
    ensures var l := Run(EMPTY, ops);
            IssueCreditMemo(l, i, amount).Ok? ==>
              var l' := IssueCreditMemo(l, i, amount).value;
              && i < |l.invoices| && l'.memos == l.memos + [Memo(i, amount, l'.clock)] && l.clock < l'.clock
              && l'.payments == l.payments && l'.allocations == l.allocations && l'.refunds == l.refunds
              && |l'.invoices| == |l.invoices|
              && forall k :: 0 <= k < |l.invoices| && k != i ==> l'.invoices[k] == l.invoices[k]
  {
    hide Run;
    Reached(ops);
    var l := Run(EMPTY, ops);
    assert i < |l.invoices| ==> l.invoices[i].status != Void;
    hide Inv, Balance;
  }

  /** A refund is recorded exactly when it is an amount, fits what is left of its memo, and fits what the invoice was paid
      and credited beyond its total and earlier refunds. */
  lemma RefundedExactlyWhen(ops: seq<Operation>, m: nat, amount: int)
    ensures var l := Run(EMPTY, ops);
            RefundCredit(l, m, amount).Ok? <==>
            && m < |l.memos| && l.memos[m].invoice < |l.invoices| && 1 <= amount <= 999_999_999_999
            && RefundedOfMemo(l.refunds, m) + amount <= l.memos[m].amount
            && var i := l.memos[m].invoice;
               l.invoices[i].total + Refunded(l, i) + amount <= PaidAmount(l, i) + Credited(l, i)
    ensures var l := Run(EMPTY, ops);
            RefundCredit(l, m, amount).Ok? ==> RefundCredit(l, m, amount).value == l.(refunds := l.refunds + [Refund(m, amount)])
  {
    hide Run;
  }

  /** Why a payment, a reversal, a credit memo and a refund are refused. */
  lemma MoneyRefusedWhy(l: Ledger, amount: int, p: nat, i: nat, m: nat)
    ensures ReceivePayment(l, amount).Err? ==> ReceivePayment(l, amount).error == BadAmount
    ensures ReversePayment(l, p).Err? ==> ReversePayment(l, p).error == if p < |l.payments| then RefundedCharge else NoSuchRow
    ensures IssueCreditMemo(l, i, amount).Err? ==>
              IssueCreditMemo(l, i, amount).error
              == if !(1 <= amount <= 999_999_999_999) then BadAmount else if i < |l.invoices| then VoidInvoice else NoSuchRow
    ensures RefundCredit(l, m, amount).Err? ==>
              RefundCredit(l, m, amount).error
              == if !(1 <= amount <= 999_999_999_999) then BadAmount
                 else if m < |l.memos| && l.memos[m].invoice < |l.invoices| then ExceedsRefundable else NoSuchRow
  {
    hide Allocate, Touches, HasRefund;
  }

  /** A service is activated exactly when it is not cancelled, and, the first time, its price is an amount: it is then active
      from that day, with one invoice, from that day to its first anniversary. */
  lemma ActivatedExactlyWhen(ops: seq<Operation>, s: nat, today: Day, price: int)
    ensures var l := Run(EMPTY, ops);
            Activate(l, s, today, price).Ok? <==>
            && s < |l.subscriptions| && l.subscriptions[s].status != Cancelled
            && (l.subscriptions[s].activation.Some? || 1 <= price <= 999_999_999_999)
    ensures var l := Run(EMPTY, ops);
            Activate(l, s, today, price).Ok? ==>
              var l' := Activate(l, s, today, price).value;
              && s < |l.subscriptions| && |l'.subscriptions| == |l.subscriptions|
              && if l.subscriptions[s].activation.Some? then l' == l else
                 && l'.subscriptions[s].activation == Some(today) && l'.subscriptions[s].status == Active
                 && |l'.invoices| == |l.invoices| + 1
                 && l'.invoices[|l.invoices|].(status := Open) == Invoice(s, today, Anniversary(today, 1), price, Open)
  {
    hide Run;
    Reached(ops);
    var l := Run(EMPTY, ops);
    if s < |l.subscriptions| && l.subscriptions[s].status != Cancelled && l.subscriptions[s].activation.None? {
      NothingBilledYet(l, s);
      hide Inv, NoVoid;
      FirstBilled(l, s, today, price);
      hide CreatePeriod;
    }
  }

  lemma FirstBilled(l: Ledger, s: nat, today: Day, price: int)
    requires s < |l.subscriptions| && forall i :: 0 <= i < |l.invoices| ==> l.invoices[i].subscription != s
    ensures var l1 := l.(subscriptions := l.subscriptions[s := l.subscriptions[s].(activation := Some(today), status := Active)]);
            var r := CreatePeriod(l1, s, today, Anniversary(today, 1), price);
            && (r.Ok? <==> 1 <= price <= 999_999_999_999)
            && (r.Ok? ==> var l' := r.value.ledger;
                          && |l'.subscriptions| == |l.subscriptions| && |l'.invoices| == |l.invoices| + 1
                          && l'.subscriptions[s].activation == Some(today) && l'.subscriptions[s].status == Active
                          && l'.invoices[|l.invoices|].(status := Open) == Invoice(s, today, Anniversary(today, 1), price, Open))
  {
    var l1 := l.(subscriptions := l.subscriptions[s := l.subscriptions[s].(activation := Some(today), status := Active)]);
    var l2 := WithInvoice(l1, s, today, Anniversary(today, 1), price);
    FirstAccepted(l1, s, today, price);
    hide CreatePeriod;
    AllocateAppends(l2);
    AllocateStatuses(l2, s);
    hide Allocate, Appended, Anniversary;
    LastOfAppended(l2, Allocate(l2));
  }

  lemma FirstAccepted(l: Ledger, s: nat, today: Day, price: int)
    requires s < |l.subscriptions| && l.subscriptions[s].activation == Some(today) && l.subscriptions[s].status == Active
    requires forall i :: 0 <= i < |l.invoices| ==> l.invoices[i].subscription != s
    ensures CreatePeriod(l, s, today, Anniversary(today, 1), price)
            == if 1 <= price <= 999_999_999_999 then Ok(Billed(Allocate(WithInvoice(l, s, today, Anniversary(today, 1), price)), |l.invoices|))
               else Err(BadAmount)
  {
    assert MonthsBetween(today, today) == 0 && Anniversary(today, 0) == today by { AnniversaryInverse(today, 0); }
    MoneyIs(price);
    hide Anniversary, Allocate, Money, MonthsBetween;
    assert FindPeriod(l.invoices, |l.invoices|, s, today).None?;
  }

  lemma LastOfAppended(l: Ledger, l': Ledger)
    requires Appended(l, l') && |l'.invoices| == |l.invoices| > 0
    ensures l'.invoices[|l.invoices| - 1] == l.invoices[|l.invoices| - 1].(status := l'.invoices[|l.invoices| - 1].status)
  {
  }

  lemma AllocateStatuses(l: Ledger, s: nat)
    requires s < |l.subscriptions|
    ensures Allocate(l).subscriptions[s].status == l.subscriptions[s].status
  {
  }

  /* ---- the payment complement ---- */

  /** A complement is built exactly for an allocation of a payment that stands, once the complements before it and the
      credit notes are stamped. */
  lemma BuiltExactlyWhen(ops: seq<Operation>, a: nat, previousStamped: bool, creditsStamped: bool)
    requires RowsOk(Run(EMPTY, ops)) && a < |Run(EMPTY, ops).allocations|
    ensures var l := Run(EMPTY, ops); var r := BuildComplement(l, a, previousStamped, creditsStamped);
            && (r.Related? <==> !l.payments[l.allocations[a].payment].reversed && previousStamped && creditsStamped)
            && (r == Refused(Reversed) <==> l.payments[l.allocations[a].payment].reversed)
            && (r == Refused(PreviousUnstamped) <==> !l.payments[l.allocations[a].payment].reversed && !previousStamped)
            && (r.Related? ==> r.document.paid == l.allocations[a].amount)
  {
    hide Run;
    ComplementNeverExceeds(ops, a, previousStamped, creditsStamped);
  }

  /** The first partial payment of an invoice has number one, and starts from its total less what was credited by then. */
  lemma FirstComplement(ops: seq<Operation>, a: nat)
    requires RowsOk(Run(EMPTY, ops)) && a < |Run(EMPTY, ops).allocations|
    requires var l := Run(EMPTY, ops);
             forall k :: 0 <= k < a && l.allocations[k].invoice == l.allocations[a].invoice ==> l.payments[l.allocations[k].payment].reversed
    ensures var l := Run(EMPTY, ops); var r := BuildComplement(l, a, true, true); var i := l.allocations[a].invoice;
            r.Related? ==> r.document.number == 1
                           && r.document.previousBalance == l.invoices[i].total - CreditedIn(l.memos, i, l.allocations[a].at)
  {
    hide Run;
    var l := Run(EMPTY, ops);
    NothingBetween(l.allocations, l.payments, l.allocations[a].invoice, 0, a);
    assert l.allocations[..0] == [];
  }
}
