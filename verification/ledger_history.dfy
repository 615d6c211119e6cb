/** Runs of the ledger: what every reachable ledger satisfies, and how one step relates to the next. */
module LedgerHistory {
  import opened Common
  import opened Calendar
  import opened LedgerModel
  import opened LedgerInvariant
  import opened LedgerSettle
  import opened LedgerCoverage
  import opened LedgerSafety
  import opened LedgerOperations

  datatype Operation =
    | Receive(amount: int)
    | Reverse(payment: nat)
    | IssueMemo(invoice: nat, amount: int)
    | RefundMemo(memo: nat, amount: int)
    | Create(subscription: nat, start: Date, end: Date, price: int)
    | Renew(subscription: nat, price: int)
    | ActivateService(subscription: nat, today: Day, price: int)
    | AddSubscription
    | SetServiceStatus(subscription: nat, status: SubscriptionStatus)

  function Accepted(l: Ledger, r: Result<Ledger>): Ledger { if r.Ok? then r.value else l }

  function AcceptedBill(l: Ledger, r: Result<Billed>): Ledger { if r.Ok? then r.value.ledger else l }

  /** One transaction; a refused one is rolled back. */
  function Step(l: Ledger, op: Operation): Ledger {
    match op
    case Receive(amount) => Accepted(l, ReceivePayment(l, amount))
    case Reverse(p) => Accepted(l, ReversePayment(l, p))
    case IssueMemo(i, amount) => Accepted(l, IssueCreditMemo(l, i, amount))
    case RefundMemo(m, amount) => Accepted(l, RefundCredit(l, m, amount))
    case Create(s, start, end, price) => AcceptedBill(l, CreatePeriod(l, s, start, end, price))
    case Renew(s, price) => AcceptedBill(l, RenewSubscription(l, s, price))
    case ActivateService(s, today, price) => Accepted(l, Activate(l, s, today, price))
    case AddSubscription => l.(subscriptions := l.subscriptions + [Subscription(None, Pending, None)])
    case SetServiceStatus(s, status) =>
      if s < |l.subscriptions| then l.(subscriptions := l.subscriptions[s := l.subscriptions[s].(status := status)]) else l
  }

  function Run(l: Ledger, ops: seq<Operation>): Ledger
    decreases |ops|
  {
    if ops == [] then l else Run(Step(l, ops[0]), ops[1..])
  }

  const EMPTY: Ledger := Ledger(0, [], [], [], [], [], [])

  /** Subscriptions change without touching any activation or stored end. */
  lemma SubscriptionsKeepInv(l: Ledger, l': Ledger)
    requires Inv(l) && l' == l.(subscriptions := l'.subscriptions) && |l.subscriptions| <= |l'.subscriptions|
    requires forall s :: 0 <= s < |l.subscriptions| ==>
               l'.subscriptions[s] == l.subscriptions[s].(status := l'.subscriptions[s].status)
    requires forall s :: |l.subscriptions| <= s < |l'.subscriptions| ==>
               l'.subscriptions[s].activation.None? && l'.subscriptions[s].paidUntil.None?
    ensures Inv(l')
  {
    hide Anniversary, MonthsBetween, PaidIn, CreditedAll, CreditedIn, RefundedIn, RefundedOfMemo, UsedIn, CoveredTo;
    assert forall i :: 0 <= i < |l.invoices| ==> Balance(l', i) == Balance(l, i);
    forall i | 0 <= i < |l'.invoices|
      ensures PaidAmount(l', i) <= l'.invoices[i].total && (HasRefund(l', i) ==> Balance(l', i) <= 0)
    {
      assert HasRefund(l', i) == HasRefund(l, i);
    }
    assert RowsOk(l');
    forall a | 0 <= a < |l'.allocations|
      ensures l'.allocations[a].amount <= FiscalBalanceBefore(l', a)
    {
      assert FiscalBalanceBefore(l', a) == FiscalBalanceBefore(l, a);
    }
    assert forall p :: 0 <= p < |l.payments| ==> Available(l', p) == Available(l, p);
    StatusUpToDate(l, l');
  }

  lemma StatusUpToDate(l: Ledger, l': Ledger)
    requires AllUpToDate(l) && l' == l.(subscriptions := l'.subscriptions) && |l.subscriptions| <= |l'.subscriptions|
    requires forall s :: 0 <= s < |l.subscriptions| ==>
               l'.subscriptions[s] == l.subscriptions[s].(status := l'.subscriptions[s].status)
    requires forall s :: |l.subscriptions| <= s < |l'.subscriptions| ==>
               l'.subscriptions[s].activation.None? && l'.subscriptions[s].paidUntil.None?
    requires forall i :: 0 <= i < |l.invoices| ==> Balance(l', i) == Balance(l, i)
    ensures AllUpToDate(l')
  {
    hide Anniversary, Balance;
    forall s | 0 <= s < |l'.subscriptions|
      ensures UpToDate(l', s)
    {
      if s < |l.subscriptions| && l.subscriptions[s].activation.Some? {
        assert UpToDate(l, s);
        var n: nat :| Covers(l, s, n) && l.subscriptions[s].paidUntil.value == Anniversary(l.subscriptions[s].activation.value, n);
        SettledKept(l, l', s);
        SettledKept(l', l, s);
        assert Covers(l', s, n);
      } else if s < |l.subscriptions| {
        assert UpToDate(l, s);
      }
    }
  }

  lemma RenewKeepsInv(l: Ledger, s: nat, price: int)
    requires Inv(l) && RenewSubscription(l, s, price).Ok?
    ensures Inv(RenewSubscription(l, s, price).value.ledger)
  {
    hide Inv, CreatePeriod, Anniversary;
    var xs := InvoicesOf(l, s);
    var activation := l.subscriptions[s].activation.value;
    var start := l.invoices[xs[|xs| - 1]].end;
    CreateKeepsInv(l, s, start, Anniversary(activation, MonthsBetween(activation, start) + 1), price);
  }

  /** Every accepted transaction keeps the joint invariant. */
  lemma StepKeepsInv(l: Ledger, op: Operation)
    requires Inv(l)
    ensures Inv(Step(l, op))
  {
    hide Inv, ReceivePayment, ReversePayment, IssueCreditMemo, RefundCredit, CreatePeriod, RenewSubscription, Activate;
    match op
    case Receive(amount) =>
      if ReceivePayment(l, amount).Ok? { ReceiveKeepsInv(l, amount); }
    case Reverse(p) =>
      if ReversePayment(l, p).Ok? { ReverseKeepsInv(l, p); }
    case IssueMemo(i, amount) =>
      if IssueCreditMemo(l, i, amount).Ok? { MemoKeepsInv(l, i, amount); }
    case RefundMemo(m, amount) =>
      if RefundCredit(l, m, amount).Ok? { RefundKeepsInv(l, m, amount); }
    case Create(s, start, end, price) =>
      if CreatePeriod(l, s, start, end, price).Ok? { CreateKeepsInv(l, s, start, end, price); }
    case Renew(s, price) =>
      if RenewSubscription(l, s, price).Ok? { RenewKeepsInv(l, s, price); }
    case ActivateService(s, today, price) =>
      if Activate(l, s, today, price).Ok? { ActivateKeepsInv(l, s, today, price); }
    case AddSubscription =>
      SubscriptionsKeepInv(l, Step(l, op));
    case SetServiceStatus(s, status) =>
      SubscriptionsKeepInv(l, Step(l, op));
  }

  lemma {:induction false} RunKeepsInv(l: Ledger, ops: seq<Operation>)
    requires Inv(l)
    ensures Inv(Run(l, ops))
    decreases |ops|
  {
    if ops != [] {
      StepKeepsInv(l, ops[0]);
      RunKeepsInv(Step(l, ops[0]), ops[1..]);
    }
  }

  /** The joint invariant holds in every reachable ledger: an invoice is paid exactly when
      nothing is owed, no payment is spent beyond its amount, debt and unspent credit never
      coexist, and each stored end of service is the end of the settled run. */
  lemma ReachableInv(ops: seq<Operation>)
    ensures Inv(Run(EMPTY, ops))
  {
    RunKeepsInv(EMPTY, ops);
  }

  /** In a reachable ledger, recomputing any subscription from scratch changes nothing. */
  lemma StoredEndIsRecomputed(ops: seq<Operation>, s: nat)
    ensures var l := Run(EMPTY, ops);
            s < |l.subscriptions| ==> Refreshed(l, s) == l.subscriptions[s]
  {
    ReachableInv(ops);
    var l := Run(EMPTY, ops);
    if s < |l.subscriptions| && l.subscriptions[s].activation.Some? {
      assert UpToDate(l, s);
      UpToDateIsRecomputed(l, s);
    }
  }

  /* ---- the book is only appended to ---- */

  /** From one ledger to the next nothing is rewritten but statuses, reversal marks and stored ends. */
  ghost predicate Appended(l: Ledger, l': Ledger) {
    && l.allocations <= l'.allocations && l.memos <= l'.memos && l.refunds <= l'.refunds
    && l.clock <= l'.clock
    && |l.invoices| <= |l'.invoices| && |l.payments| <= |l'.payments| && |l.subscriptions| <= |l'.subscriptions|
    && (forall i :: 0 <= i < |l.invoices| ==> l'.invoices[i] == l.invoices[i].(status := l'.invoices[i].status))
    && (forall p :: 0 <= p < |l.payments| ==>
          l'.payments[p].amount == l.payments[p].amount && (l.payments[p].reversed ==> l'.payments[p].reversed))
    && (forall m :: |l.memos| <= m < |l'.memos| ==> l.clock < l'.memos[m].at)
    && (forall a :: |l.allocations| <= a < |l'.allocations| ==> l'.allocations[a].at == l'.clock)
    && (forall s :: 0 <= s < |l.subscriptions| && l.subscriptions[s].activation.Some? ==>
          l'.subscriptions[s].activation == l.subscriptions[s].activation)
  }

  /** What an invoice is paid in one allocation is dated by the transaction. */
  lemma {:induction false} PayFromTimes(l: Ledger, i: nat, ps: seq<nat>)
    requires i < |l.invoices| && Keys(ps, |l.payments|)
    ensures var l' := PayFrom(l, i, ps);
            forall a :: |l.allocations| <= a < |l'.allocations| ==> l'.allocations[a].at == l.clock
    decreases |ps|
  {
    hide Balance, Available;
    if ps != [] && Balance(l, i) > 0 {
      var l1, l2 := PayOnce(l, i, ps[0]), PayFrom(l, i, ps);
      PayFromTimes(l1, i, ps[1..]);
      forall a | |l.allocations| <= a < |l2.allocations|
        ensures l2.allocations[a].at == l.clock
      {
        assert l2 == PayFrom(l1, i, ps[1..]) && l1.allocations <= l2.allocations;
        assert a < |l1.allocations| ==> l2.allocations[a] == l1.allocations[a] && l1.allocations[a].at == l.clock;
      }
    }
  }

  lemma {:induction false} SettleAllAppends(l: Ledger, xs: seq<nat>, ps: seq<nat>)
    requires Keys(xs, |l.invoices|) && Keys(ps, |l.payments|)
    ensures Appended(l, SettleAll(l, xs, ps)) && SettleAll(l, xs, ps).clock == l.clock
    decreases |xs|
  {
    if xs != [] {
      var l1, l2 := SettleInvoice(l, xs[0], ps), SettleAll(l, xs, ps);
      PayFromTimes(l, xs[0], ps);
      SettleAllAppends(l1, xs[1..], ps);
      forall a | |l.allocations| <= a < |l2.allocations|
        ensures l2.allocations[a].at == l2.clock
      {
        assert l1.allocations == PayFrom(l, xs[0], ps).allocations;
        assert a < |l1.allocations| ==> l2.allocations[a] == l1.allocations[a];
      }
    }
  }

  lemma AllocateAppends(l: Ledger)
    ensures Appended(l, Allocate(l))
  {
    SettleAllAppends(l, OpenOrder(l), Live(l));
  }

  lemma CreateAppends(l: Ledger, s: nat, start: Date, end: Date, price: int)
    requires CreatePeriod(l, s, start, end, price).Ok?
    ensures Appended(l, CreatePeriod(l, s, start, end, price).value.ledger)
  {
    hide Allocate, Anniversary;
    AllocateAppends(WithInvoice(l, s, start, end, price));
  }

  lemma RenewAppends(l: Ledger, s: nat, price: int)
    requires RenewSubscription(l, s, price).Ok?
    ensures Appended(l, RenewSubscription(l, s, price).value.ledger)
  {
    hide CreatePeriod, Anniversary;
    var xs := InvoicesOf(l, s);
    var activation := l.subscriptions[s].activation.value;
    var start := l.invoices[xs[|xs| - 1]].end;
    CreateAppends(l, s, start, Anniversary(activation, MonthsBetween(activation, start) + 1), price);
  }

  lemma ActivateAppends(l: Ledger, s: nat, today: Day, price: int)
    requires Activate(l, s, today, price).Ok?
    ensures Appended(l, Activate(l, s, today, price).value)
  {
    hide CreatePeriod, Anniversary;
    if l.subscriptions[s].activation.None? {
      var l1 := l.(subscriptions := l.subscriptions[s := l.subscriptions[s].(activation := Some(today), status := Active)]);
      CreateAppends(l1, s, today, Anniversary(today, 1), price);
    }
  }

  /** No transaction edits or removes an entry of the book. */
  lemma StepAppends(l: Ledger, op: Operation)
    ensures Appended(l, Step(l, op))
  {
    hide Allocate, CreatePeriod, RenewSubscription, Activate, Anniversary, Balance, Refreshed;
    match op
    case Receive(amount) =>
      AllocateAppends(l.(payments := l.payments + [Payment(amount, false)]));
    case Reverse(p) =>
      if p < |l.payments| { AllocateAppends(Reopened(l, p)); }
    case Create(s, start, end, price) =>
      if CreatePeriod(l, s, start, end, price).Ok? { CreateAppends(l, s, start, end, price); }
    case Renew(s, price) =>
      if RenewSubscription(l, s, price).Ok? { RenewAppends(l, s, price); }
    case ActivateService(s, today, price) =>
      if Activate(l, s, today, price).Ok? { ActivateAppends(l, s, today, price); }
    case _ =>
  }

  /** Allocations are made in the order of their times. */
  ghost predicate TimesInOrder(allocations: seq<Allocation>) {
    forall a, b :: 0 <= a <= b < |allocations| ==> allocations[a].at <= allocations[b].at
  }

  lemma StepKeepsOrder(l: Ledger, op: Operation)
    requires Inv(l) && TimesInOrder(l.allocations)
    ensures TimesInOrder(Step(l, op).allocations)
  {
    hide Step, WithinAmounts, InvoicesCovered, PeriodsOk, StatusesOk, NoIdleCredit, AllUpToDate;
    StepAppends(l, op);
    var l' := Step(l, op);
    forall a, b | 0 <= a <= b < |l'.allocations|
      ensures l'.allocations[a].at <= l'.allocations[b].at
    {
      assert a < |l.allocations| ==> l'.allocations[a] == l.allocations[a];
      assert b < |l.allocations| ==> l'.allocations[b] == l.allocations[b];
    }
  }

  lemma {:induction false} RunKeepsOrder(l: Ledger, ops: seq<Operation>)
    requires Inv(l) && TimesInOrder(l.allocations)
    ensures TimesInOrder(Run(l, ops).allocations)
    decreases |ops|
  {
    hide Inv, Step, TimesInOrder;
    if ops != [] {
      StepKeepsInv(l, ops[0]);
      StepKeepsOrder(l, ops[0]);
      RunKeepsOrder(Step(l, ops[0]), ops[1..]);
    }
  }
}
