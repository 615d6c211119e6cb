/** Where the money is: conservation over the whole book, and how far refunds can go. */
module LedgerMoney {
  import opened Common
  import opened Calendar
  import opened LedgerModel
  import opened LedgerInvariant
  import opened LedgerOperations
  import opened LedgerHistory

  /* ---- conservation ---- */

  /** The amounts of the payments received and not reversed. */
  function Received(payments: seq<Payment>): int {
    if payments == [] then 0
    else
      var p := payments[|payments| - 1];
      Received(payments[..|payments| - 1]) + if p.reversed then 0 else p.amount
  }

  /** What the first `n` invoices were paid, added up. */
  function PaidUpTo(allocations: seq<Allocation>, payments: seq<Payment>, n: nat): int {
    if n == 0 then 0 else PaidUpTo(allocations, payments, n - 1) + PaidIn(allocations, payments, n - 1)
  }

  /** What was used of the live ones among the first `n` payments. */
  function UsedUpTo(allocations: seq<Allocation>, payments: seq<Payment>, n: nat): int
    requires n <= |payments|
  {
    if n == 0 then 0
    else UsedUpTo(allocations, payments, n - 1) + if payments[n - 1].reversed then 0 else UsedIn(allocations, n - 1)
  }

  /** The live allocations, added up. */
  function LiveAllocated(allocations: seq<Allocation>, payments: seq<Payment>): int {
    if allocations == [] then 0
    else
      var a := allocations[|allocations| - 1];
      LiveAllocated(allocations[..|allocations| - 1], payments)
      + if a.payment < |payments| && !payments[a.payment].reversed then a.amount else 0
  }

  function AvailableUpTo(l: Ledger, n: nat): int
    requires n <= |l.payments|
  {
    if n == 0 then 0 else AvailableUpTo(l, n - 1) + Available(l, n - 1)
  }

  function LiveAmount(payments: seq<Payment>, a: Allocation): int {
    if a.payment < |payments| && !payments[a.payment].reversed then a.amount else 0
  }

  lemma {:induction false} PaidUpToPlus(allocations: seq<Allocation>, a: Allocation, payments: seq<Payment>, n: nat)
    ensures PaidUpTo(allocations + [a], payments, n)
            == PaidUpTo(allocations, payments, n) + if a.invoice < n then LiveAmount(payments, a) else 0
  {
    if n > 0 {
      PaidUpToPlus(allocations, a, payments, n - 1);
      PaidPlus(allocations, a, payments, n - 1);
    }
  }

  lemma {:induction false} UsedUpToPlus(allocations: seq<Allocation>, a: Allocation, payments: seq<Payment>, n: nat)
    requires n <= |payments|
    ensures UsedUpTo(allocations + [a], payments, n)
            == UsedUpTo(allocations, payments, n) + if a.payment < n then LiveAmount(payments, a) else 0
  {
    if n > 0 {
      UsedUpToPlus(allocations, a, payments, n - 1);
      PaidPlus(allocations, a, payments, 0);
    }
  }

  lemma {:induction false} NothingAllocated(payments: seq<Payment>, n: nat, m: nat)
    requires m <= |payments|
    ensures PaidUpTo([], payments, n) == 0 && UsedUpTo([], payments, m) == 0
    decreases n + m
  {
    if n > 0 {
      NothingAllocated(payments, n - 1, m);
    } else if m > 0 {
      NothingAllocated(payments, n, m - 1);
    }
  }

  /** Adding up by invoice and adding up by payment both give all the live allocations. */
  lemma {:induction false} TwoWaysToAdd(allocations: seq<Allocation>, payments: seq<Payment>, n: nat)
    requires forall a :: 0 <= a < |allocations| ==> allocations[a].payment < |payments| && allocations[a].invoice < n
    ensures PaidUpTo(allocations, payments, n) == LiveAllocated(allocations, payments)
    ensures UsedUpTo(allocations, payments, |payments|) == LiveAllocated(allocations, payments)
  {
    if allocations == [] {
      NothingAllocated(payments, n, |payments|);
    } else {
      var rest, a := allocations[..|allocations| - 1], allocations[|allocations| - 1];
      assert allocations == rest + [a];
      TwoWaysToAdd(rest, payments, n);
      PaidUpToPlus(rest, a, payments, n);
      UsedUpToPlus(rest, a, payments, |payments|);
    }
  }

  lemma {:induction false} AvailableIsUnused(l: Ledger, n: nat)
    requires n <= |l.payments|
    ensures AvailableUpTo(l, n) == Received(l.payments[..n]) - UsedUpTo(l.allocations, l.payments, n)
  {
    if n > 0 {
      AvailableIsUnused(l, n - 1);
      assert l.payments[..n][..n - 1] == l.payments[..n - 1];
    }
  }

  /** In every reachable ledger each cent received is either on an invoice or available as credit. */
  lemma MoneyIsConserved(ops: seq<Operation>)
    ensures var l := Run(EMPTY, ops);
            && Received(l.payments) == PaidUpTo(l.allocations, l.payments, |l.invoices|) + AvailableUpTo(l, |l.payments|)
            && (forall i :: 0 <= i < |l.invoices| ==> 0 <= PaidAmount(l, i) <= l.invoices[i].total)
            && (forall p :: 0 <= p < |l.payments| ==> 0 <= Available(l, p) <= l.payments[p].amount)
  {
    hide Run, Step, PaidIn, UsedIn, Received, PaidUpTo, PeriodsOk, StatusesOk, NoIdleCredit, AllUpToDate, ComplementsOk;
    var l := Run(EMPTY, ops);
    ReachableInv(ops);
    TwoWaysToAdd(l.allocations, l.payments, |l.invoices|);
    AvailableIsUnused(l, |l.payments|);
    assert l.payments[..|l.payments|] == l.payments;
    forall i | 0 <= i < |l.invoices|
      ensures 0 <= PaidAmount(l, i)
    {
      PaidNonNegative(l.allocations, l.payments, i);
    }
    forall p | 0 <= p < |l.payments|
      ensures 0 <= UsedIn(l.allocations, p)
    {
      UsedNonNegative(l.allocations, p);
    }
  }

  lemma {:induction false} UsedNonNegative(allocations: seq<Allocation>, p: nat)
    requires forall a :: 0 <= a < |allocations| ==> 0 < allocations[a].amount
    ensures 0 <= UsedIn(allocations, p)
  {
    if allocations != [] {
      UsedNonNegative(allocations[..|allocations| - 1], p);
    }
  }

  /* ---- what each transaction moves ---- */

  lemma ReceivedPlus(payments: seq<Payment>, x: Payment)
    ensures Received(payments + [x]) == Received(payments) + if x.reversed then 0 else x.amount
  {
    assert (payments + [x])[..|payments|] == payments;
  }

  lemma {:induction false} ReceivedWithout(payments: seq<Payment>, p: nat)
    requires p < |payments|
    ensures Received(payments[p := payments[p].(reversed := true)])
            == Received(payments) - if payments[p].reversed then 0 else payments[p].amount
  {
    var n := |payments| - 1;
    var later := payments[p := payments[p].(reversed := true)];
    if p < n {
      assert later[..n] == payments[..n][p := payments[..n][p].(reversed := true)];
      ReceivedWithout(payments[..n], p);
    } else {
      assert later[..n] == payments[..n];
    }
  }

  lemma BillKeepsTables(l: Ledger, s: nat, start: Date, end: Date, price: int)
    requires CreatePeriod(l, s, start, end, price).Ok?
    ensures var l' := CreatePeriod(l, s, start, end, price).value.ledger;
            l'.payments == l.payments && l'.memos == l.memos && l'.refunds == l.refunds
  {
    hide Anniversary, MonthsBetween;
  }

  /** What came in, in one transaction: a payment adds its amount, a reversal takes back that of the
      payment, and nothing else moves money in or out. */
  lemma StepReceives(l: Ledger, op: Operation)
    ensures Received(Step(l, op).payments) == Received(l.payments)
            + match op
              case Receive(amount) => if Money(amount) then amount else 0
              case Reverse(p) =>
                if ReversePayment(l, p).Ok? && p < |l.payments| && !l.payments[p].reversed then -l.payments[p].amount else 0
              case _ => 0
  {
    hide Received, CreatePeriod, Anniversary, Refreshed, Settled, Balance;
    match op
    case Receive(amount) => ReceivedPlus(l.payments, Payment(amount, false));
    case Reverse(p) => if p < |l.payments| { ReceivedWithout(l.payments, p); }
    case Create(s, start, end, price) =>
      if CreatePeriod(l, s, start, end, price).Ok? { BillKeepsTables(l, s, start, end, price); }
    case Renew(s, price) => RenewKeepsTables(l, s, price);
    case ActivateService(s, today, price) => ActivateKeepsTables(l, s, today, price);
    case _ =>
  }

  lemma RenewKeepsTables(l: Ledger, s: nat, price: int)
    ensures var l' := Step(l, Renew(s, price));
            l'.payments == l.payments && l'.memos == l.memos && l'.refunds == l.refunds
  {
    hide CreatePeriod, Anniversary, Balance;
    if RenewSubscription(l, s, price).Ok? {
      var xs := InvoicesOf(l, s);
      var activation := l.subscriptions[s].activation.value;
      var start := l.invoices[xs[|xs| - 1]].end;
      BillKeepsTables(l, s, start, Anniversary(activation, MonthsBetween(activation, start) + 1), price);
    }
  }

  lemma ActivateKeepsTables(l: Ledger, s: nat, today: Day, price: int)
    ensures var l' := Step(l, ActivateService(s, today, price));
            l'.payments == l.payments && l'.memos == l.memos && l'.refunds == l.refunds
  {
    hide CreatePeriod, Anniversary;
    if s < |l.subscriptions| {
      var l1 := l.(subscriptions := l.subscriptions[s := l.subscriptions[s].(activation := Some(today), status := Active)]);
      if CreatePeriod(l1, s, today, Anniversary(today, 1), price).Ok? {
        BillKeepsTables(l1, s, today, Anniversary(today, 1), price);
      }
    }
  }

  /** What was credited and refunded, invoice by invoice, in one transaction. */
  lemma StepCredits(l: Ledger, op: Operation, i: nat)
    ensures Credited(Step(l, op), i) == Credited(l, i)
            + if op.IssueMemo? && IssueCreditMemo(l, op.invoice, op.amount).Ok? && op.invoice == i then op.amount else 0
    ensures RowsOk(l) ==>
              Refunded(Step(l, op), i) == Refunded(l, i)
              + if op.RefundMemo? && RefundCredit(l, op.memo, op.amount).Ok? && l.memos[op.memo].invoice == i then op.amount else 0
  {
    hide CreditedAll, RefundedIn, CreatePeriod, Anniversary, Refreshed, Settled, Balance, RefundedOfMemo;
    match op
    case IssueMemo(j, amount) =>
      CreditedPlus(l.memos, Memo(j, amount, l.clock + 1), i, 0);
      if RowsOk(l) { RefundsSameMemos(l.refunds, l.memos, Memo(j, amount, l.clock + 1), i); }
    case RefundMemo(m, amount) => RefundedPlus(l.refunds, Refund(m, amount), l.memos, i, m);
    case Create(s, start, end, price) =>
      if CreatePeriod(l, s, start, end, price).Ok? { BillKeepsTables(l, s, start, end, price); }
    case Renew(s, price) => RenewKeepsTables(l, s, price);
    case ActivateService(s, today, price) => ActivateKeepsTables(l, s, today, price);
    case _ =>
  }

  /* ---- refunds and the money collected ---- */

  /** The bound the code keeps: refunds stay within what was paid and credited beyond the total. */
  lemma RefundBound(l: Ledger, i: nat)
    requires Inv(l) && i < |l.invoices|
    ensures Refunded(l, i) == 0 || Refunded(l, i) <= PaidAmount(l, i) + Credited(l, i) - l.invoices[i].total
    ensures 0 <= PaidAmount(l, i) <= l.invoices[i].total
  {
    PaidNonNegative(l.allocations, l.payments, i);
    if !HasRefund(l, i) {
      NothingRefunded(l.refunds, l.memos, i);
    }
  }

  /** What the memos of invoice `i` among the first `n` still have to refund. */
  function Refundable(l: Ledger, i: nat, n: nat): int
    requires n <= |l.memos|
  {
    if n == 0 then 0
    else Refundable(l, i, n - 1)
         + if l.memos[n - 1].invoice == i then l.memos[n - 1].amount - RefundedOfMemo(l.refunds, n - 1) else 0
  }

  function RefundedUpTo(refunds: seq<Refund>, memos: seq<Memo>, i: nat, n: nat): int
    requires n <= |memos|
  {
    if n == 0 then 0
    else RefundedUpTo(refunds, memos, i, n - 1) + if memos[n - 1].invoice == i then RefundedOfMemo(refunds, n - 1) else 0
  }

  lemma {:induction false} RefundedUpToPlus(refunds: seq<Refund>, r: Refund, memos: seq<Memo>, i: nat, n: nat)
    requires n <= |memos|
    ensures RefundedUpTo(refunds + [r], memos, i, n)
            == RefundedUpTo(refunds, memos, i, n) + if r.memo < n && memos[r.memo].invoice == i then r.amount else 0
  {
    if n > 0 {
      RefundedUpToPlus(refunds, r, memos, i, n - 1);
      RefundedPlus(refunds, r, memos, i, n - 1);
    }
  }

  lemma {:induction false} NoRefundsUpTo(memos: seq<Memo>, i: nat, n: nat)
    requires n <= |memos|
    ensures RefundedUpTo([], memos, i, n) == 0
  {
    if n > 0 {
      NoRefundsUpTo(memos, i, n - 1);
    }
  }

  /** The refunds of an invoice, added up memo by memo. */
  lemma {:induction false} RefundsByMemo(refunds: seq<Refund>, memos: seq<Memo>, i: nat)
    ensures RefundedIn(refunds, memos, i) == RefundedUpTo(refunds, memos, i, |memos|)
  {
    if refunds == [] {
      NoRefundsUpTo(memos, i, |memos|);
    } else {
      var rest, r := refunds[..|refunds| - 1], refunds[|refunds| - 1];
      assert refunds == rest + [r];
      RefundsByMemo(rest, memos, i);
      RefundedUpToPlus(rest, r, memos, i, |memos|);
    }
  }

  lemma {:induction false} RefundableIsUnrefunded(l: Ledger, i: nat, n: nat)
    requires n <= |l.memos|
    ensures Refundable(l, i, n) == CreditedAll(l.memos[..n], i) - RefundedUpTo(l.refunds, l.memos, i, n)
  {
    if n > 0 {
      RefundableIsUnrefunded(l, i, n - 1);
      assert l.memos[..n][..n - 1] == l.memos[..n - 1];
    }
  }

  /** Some memo of the invoice has something left, when together they do. */
  lemma {:induction false} SomethingRefundable(l: Ledger, i: nat, n: nat) returns (m: nat)
    requires n <= |l.memos| && Refundable(l, i, n) > 0
    ensures m < n && l.memos[m].invoice == i && l.memos[m].amount > RefundedOfMemo(l.refunds, m)
  {
    if l.memos[n - 1].invoice == i && l.memos[n - 1].amount > RefundedOfMemo(l.refunds, n - 1) {
      m := n - 1;
    } else {
      m := SomethingRefundable(l, i, n - 1);
    }
  }

  ghost predicate OnlyRefunds(ops: seq<Operation>) {
    forall k :: 0 <= k < |ops| ==> ops[k].RefundMemo?
  }

  lemma RefundStep(l: Ledger, m: nat, amount: int)
    requires RefundCredit(l, m, amount).Ok?
    ensures var i, l' := l.memos[m].invoice, Step(l, RefundMemo(m, amount));
            && l' == l.(refunds := l'.refunds)
            && Balance(l', i) == Balance(l, i) + amount
  {
    hide PaidIn, CreditedAll, RefundedIn, RefundedOfMemo, Money;
    RefundedPlus(l.refunds, Refund(m, amount), l.memos, l.memos[m].invoice, m);
  }

  /** An over-credited invoice has a memo that can still be refunded, until its balance is zero. */
  lemma NextRefund(l: Ledger, i: nat) returns (m: nat, amount: int)
    requires Inv(l) && i < |l.invoices| && Balance(l, i) < 0
    ensures RefundCredit(l, m, amount).Ok? && l.memos[m].invoice == i && 0 < amount
  {
    hide PeriodsOk, StatusesOk, NoIdleCredit, AllUpToDate, ComplementsOk;
    RefundsByMemo(l.refunds, l.memos, i);
    RefundableIsUnrefunded(l, i, |l.memos|);
    assert l.memos[..|l.memos|] == l.memos;
    assert PaidAmount(l, i) <= l.invoices[i].total;
    m := SomethingRefundable(l, i, |l.memos|);
    amount := if l.memos[m].amount - RefundedOfMemo(l.refunds, m) <= -Balance(l, i)
              then l.memos[m].amount - RefundedOfMemo(l.refunds, m) else -Balance(l, i);
    RefundsNonNegative(l.refunds, m);
  }

  lemma {:induction false} RefundsNonNegative(refunds: seq<Refund>, m: nat)
    requires forall r :: 0 <= r < |refunds| ==> 0 < refunds[r].amount
    ensures 0 <= RefundedOfMemo(refunds, m)
  {
    if refunds != [] {
      RefundsNonNegative(refunds[..|refunds| - 1], m);
    }
  }

  /** Refunding what can be refunded brings an invoice's balance up to zero. */
  lemma {:induction false} RefundsDrain(l: Ledger, i: nat) returns (ops: seq<Operation>)
    requires Inv(l) && i < |l.invoices| && Balance(l, i) <= 0
    ensures OnlyRefunds(ops)
    ensures var l' := Run(l, ops); l' == l.(refunds := l'.refunds) && Balance(l', i) == 0
    decreases -Balance(l, i)
  {
    hide Inv, Step, RefundCredit, Balance;
    if Balance(l, i) == 0 {
      ops := [];
    } else {
      var m, amount := NextRefund(l, i);
      var op := RefundMemo(m, amount);
      StepKeepsInv(l, op);
      RefundStep(l, m, amount);
      RefundStaysCovered(l, m, amount);
      var rest := RefundsDrain(Step(l, op), i);
      ops := [op] + rest;
      assert ops[1..] == rest;
    }
  }

  lemma RefundStaysCovered(l: Ledger, m: nat, amount: int)
    requires RefundCredit(l, m, amount).Ok?
    ensures amount <= -Balance(l, l.memos[m].invoice)
  {
  }

  lemma {:induction false} RefundsOnly(l: Ledger, ops: seq<Operation>)
    requires OnlyRefunds(ops)
    ensures var l' := Run(l, ops); l' == l.(refunds := l'.refunds)
    decreases |ops|
  {
    if ops != [] {
      RefundsOnly(Step(l, ops[0]), ops[1..]);
    }
  }

  /** Refunds can exceed the money collected on an invoice exactly when its credit notes add
      up to more than its total. */
  lemma RefundsStayWithinMoney(l: Ledger, i: nat)
    requires Inv(l) && i < |l.invoices|
    ensures (forall ops | OnlyRefunds(ops) :: Refunded(Run(l, ops), i) <= PaidAmount(Run(l, ops), i))
            <==> Credited(l, i) <= l.invoices[i].total
  {
    hide Inv;
    if Credited(l, i) <= l.invoices[i].total {
      forall ops | OnlyRefunds(ops)
        ensures Refunded(Run(l, ops), i) <= PaidAmount(Run(l, ops), i)
      {
        RunKeepsInv(l, ops);
        RefundsOnly(l, ops);
        RefundBound(Run(l, ops), i);
      }
    } else {
      RefundBound(l, i);
      var ops := RefundsDrain(l, i);
      assert OnlyRefunds(ops) && Refunded(Run(l, ops), i) > PaidAmount(Run(l, ops), i);
    }
  }

  const OVER_CREDITED: seq<Operation> :=
    [AddSubscription, ActivateService(0, Date(2024, 1, 1), 10000), IssueMemo(0, 50000), RefundMemo(0, 40000)]

  /** A ledger with one unpaid charge of 100 and no payment. */
  predicate OneCharge(l: Ledger) {
    && |l.invoices| == 1 && l.invoices[0].total == 10000 && l.invoices[0].status == Open
    && l.payments == [] && l.allocations == [] && l.memos == [] && l.refunds == []
  }

  lemma FirstCharge()
    ensures OneCharge(Run(EMPTY, OVER_CREDITED[..2]))
    ensures Run(EMPTY, OVER_CREDITED) == Step(Step(Run(EMPTY, OVER_CREDITED[..2]), IssueMemo(0, 50000)), RefundMemo(0, 40000))
  {
    hide Anniversary, Balance;
    var l1 := Step(EMPTY, AddSubscription);
    assert l1 == EMPTY.(subscriptions := [Subscription(None, Pending, None)]);
    var today := Date(2024, 1, 1);
    var l2 := Step(l1, ActivateService(0, today, 10000));
    FirstActivation(l1, today);
    hide Step;
    assert OVER_CREDITED[..2] == [AddSubscription, ActivateService(0, today, 10000)];
    assert OVER_CREDITED[..2][1..] == [ActivateService(0, today, 10000)];
    assert Run(l1, [ActivateService(0, today, 10000)]) == l2;
    assert OVER_CREDITED[1..][1..] == [IssueMemo(0, 50000), RefundMemo(0, 40000)];
    var l3 := Step(l2, IssueMemo(0, 50000));
    assert [IssueMemo(0, 50000), RefundMemo(0, 40000)][1..] == [RefundMemo(0, 40000)];
    assert Run(l3, [RefundMemo(0, 40000)]) == Step(l3, RefundMemo(0, 40000));
  }

  lemma FirstActivation(l: Ledger, today: Day)
    requires l == EMPTY.(subscriptions := [Subscription(None, Pending, None)])
    ensures OneCharge(Step(l, ActivateService(0, today, 10000)))
  {
    hide CreatePeriod, Allocate, Anniversary, OneCharge;
    var l1 := l.(subscriptions := [Subscription(Some(today), Active, None)]);
    FirstPeriod(l1, today);
    FirstBill(l1, today);
    assert l.subscriptions[0 := l.subscriptions[0].(activation := Some(today), status := Active)] == l1.subscriptions;
  }

  lemma FirstBill(l: Ledger, today: Day)
    requires l == EMPTY.(subscriptions := [Subscription(Some(today), Active, None)])
    ensures OneCharge(Allocate(l.(invoices := [Invoice(0, today, Anniversary(today, 1), 10000, Open)])))
  {
    hide Anniversary, Refreshed, Settled;
    var l2 := l.(invoices := [Invoice(0, today, Anniversary(today, 1), 10000, Open)]);
    assert Balance(l2, 0) == 10000;
    OneOpen(l2);
  }

  lemma FirstPeriod(l: Ledger, today: Day)
    requires l == EMPTY.(subscriptions := [Subscription(Some(today), Active, None)])
    ensures CreatePeriod(l, 0, today, Anniversary(today, 1), 10000)
            == Ok(Billed(Allocate(l.(invoices := [Invoice(0, today, Anniversary(today, 1), 10000, Open)])), 0))
  {
    AnniversaryInverse(today, 0);
    hide Anniversary, Allocate;
    assert [] + [Invoice(0, today, Anniversary(today, 1), 10000, Open)] == [Invoice(0, today, Anniversary(today, 1), 10000, Open)];
  }

  lemma OneOpen(l: Ledger)
    requires |l.invoices| == 1 && l.invoices[0].status == Open && l.payments == [] && l.allocations == []
    requires Balance(l, 0) > 0
    ensures var r := Allocate(l); r.allocations == [] && r.invoices == l.invoices
  {
    hide Balance, Refreshed;
    assert ByStart(l.invoices, 0, None) == [];
    assert InsertByStart(l.invoices, [], 0) == [0];
    assert OpenOrder(l) == [0] && Live(l) == [];
    assert PayFrom(l, 0, []) == l;
    assert SettleInvoice(l, 0, []) == MarkInvoice(l, 0, Open);
    assert l.invoices[0 := l.invoices[0].(status := Open)] == l.invoices;
    assert MarkInvoice(l, 0, Open) == l;
    assert [0][1..] == [];
    assert SettleAll(l, [], []) == l;
    assert SettleAll(l, [0], []) == SettleAll(SettleInvoice(l, 0, []), [0][1..], []);
  }

  /** A subscription activated at 100, its charge credited by 500: 400 are refunded though nothing was ever paid. */
  lemma RefundedWithoutPaying()
    ensures var l := Run(EMPTY, OVER_CREDITED);
            |l.invoices| == 1 && l.invoices[0].total == 10000 && Refunded(l, 0) == 40000 && PaidAmount(l, 0) == 0
  {
    hide Run;
    FirstCharge();
    Refund400(Run(EMPTY, OVER_CREDITED[..2]));
  }

  lemma Refund400(l: Ledger)
    requires OneCharge(l)
    ensures var r := Step(Step(l, IssueMemo(0, 50000)), RefundMemo(0, 40000));
            |r.invoices| == 1 && r.invoices[0].total == 10000 && Refunded(r, 0) == 40000 && PaidAmount(r, 0) == 0
  {
    Credit500(l);
    hide IssueCreditMemo, Balance, PaidIn;
    var l1 := Step(l, IssueMemo(0, 50000));
    RefundedPlus([], Refund(0, 40000), l1.memos, 0, 0);
    assert l1.refunds + [Refund(0, 40000)] == [Refund(0, 40000)] == [] + [Refund(0, 40000)];
    assert Step(l1, RefundMemo(0, 40000)) == l1.(refunds := [Refund(0, 40000)]);
  }

  lemma Credit500(l: Ledger)
    requires OneCharge(l)
    ensures var l1 := Step(l, IssueMemo(0, 50000));
            && |l1.invoices| == 1 && l1.invoices[0].total == 10000
            && l1.memos == [Memo(0, 50000, l.clock + 1)] && l1.refunds == [] && l1.allocations == []
            && Balance(l1, 0) == -40000 && PaidAmount(l1, 0) == 0
  {
    hide Refreshed, Balance;
    var l1 := Step(l, IssueMemo(0, 50000));
    assert l.memos + [Memo(0, 50000, l.clock + 1)] == [Memo(0, 50000, l.clock + 1)];
    CreditedOnly(l1, Memo(0, 50000, l.clock + 1));
  }

  /** A charge that was only credited, once. */
  lemma CreditedOnly(l: Ledger, m: Memo)
    requires |l.invoices| == 1 && l.allocations == [] && l.refunds == [] && l.memos == [m] && m.invoice == 0
    ensures Balance(l, 0) == l.invoices[0].total - m.amount && PaidAmount(l, 0) == 0
  {
    assert [m][..0] == [] && CreditedAll([], 0) == 0;
  }
}
