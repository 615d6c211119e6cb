/** The payment complement built from the ledger (fiscal/services.py), and invoices that had a refund. */
module LedgerComplement {
  import opened Common
  import opened Calendar
  import opened LedgerModel
  import opened LedgerInvariant
  import opened LedgerSettle
  import opened LedgerSafety
  import opened LedgerOperations
  import opened LedgerHistory
  import opened LedgerTheorems

  /* ---- the related document of a payment complement ---- */

  datatype Complement = Complement(number: nat, previousBalance: int, paid: int)

  datatype ComplementError = Reversed | PreviousUnstamped | CreditsUnstamped | ExceedsBalance

  datatype Built = Related(document: Complement) | Refused(error: ComplementError)

  /** How many live allocations the invoice had before. */
  function CountIn(allocations: seq<Allocation>, payments: seq<Payment>, i: nat): nat {
    if allocations == [] then 0
    else
      var a := allocations[|allocations| - 1];
      CountIn(allocations[..|allocations| - 1], payments, i)
      + if a.invoice == i && a.payment < |payments| && !payments[a.payment].reversed then 1 else 0
  }

  /** The complement branch of `_build_cfdi` for allocation `a`; the flags say whether the
      complements of the earlier partial payments and the credit notes are stamped. */
  function BuildComplement(l: Ledger, a: nat, previousStamped: bool, creditsStamped: bool): Built
    requires RowsOk(l) && a < |l.allocations|
  {
    var x := l.allocations[a];
    if l.payments[x.payment].reversed then Refused(Reversed)
    else if !previousStamped then Refused(PreviousUnstamped)
    else if !creditsStamped then Refused(CreditsUnstamped)
    else if x.amount > FiscalBalanceBefore(l, a) then Refused(ExceedsBalance)
    else Related(Complement(CountIn(l.allocations[..a], l.payments, x.invoice) + 1, FiscalBalanceBefore(l, a), x.amount))
  }

  /** From no reachable ledger can the complement exceed the fiscal balance of its invoice. */
  lemma ComplementNeverExceeds(ops: seq<Operation>, a: nat, previousStamped: bool, creditsStamped: bool)
    requires RowsOk(Run(EMPTY, ops)) && a < |Run(EMPTY, ops).allocations|
    ensures var r := BuildComplement(Run(EMPTY, ops), a, previousStamped, creditsStamped);
            && r != Refused(ExceedsBalance)
            && (r.Related? ==> 0 < r.document.paid <= r.document.previousBalance)
  {
    ReachableInv(ops);
  }

  lemma {:induction false} CreditedBefore(memos: seq<Memo>, more: seq<Memo>, i: nat, at: int)
    requires memos <= more && forall m :: |memos| <= m < |more| ==> at < more[m].at
    ensures CreditedIn(more, i, at) == CreditedIn(memos, i, at)
    decreases |more|
  {
    if |memos| < |more| {
      CreditedBefore(memos, more[..|more| - 1], i, at);
    } else {
      assert more == memos;
    }
  }

  lemma {:induction false} PaidAfterReversals(allocations: seq<Allocation>, payments: seq<Payment>, later: seq<Payment>, i: nat)
    requires |payments| <= |later|
    requires forall a :: 0 <= a < |allocations| ==> allocations[a].payment < |payments| && 0 < allocations[a].amount
    requires forall p :: 0 <= p < |payments| && payments[p].reversed ==> later[p].reversed
    ensures PaidIn(allocations, later, i) <= PaidIn(allocations, payments, i)
  {
    if allocations != [] {
      PaidAfterReversals(allocations[..|allocations| - 1], payments, later, i);
    }
  }

  /** Later transactions never shrink the fiscal balance an allocation was made against. */
  lemma FiscalBalanceOnlyGrows(l: Ledger, op: Operation, a: nat)
    requires RowsOk(l) && a < |l.allocations| && RowsOk(Step(l, op)) && a < |Step(l, op).allocations|
    ensures Step(l, op).allocations[a] == l.allocations[a]
    ensures FiscalBalanceBefore(l, a) <= FiscalBalanceBefore(Step(l, op), a)
  {
    hide Step;
    StepAppends(l, op);
    var l' := Step(l, op);
    var x := l.allocations[a];
    assert l'.allocations[..a] == l.allocations[..a];
    PaidAfterReversals(l.allocations[..a], l.payments, l'.payments, x.invoice);
    CreditedBefore(l.memos, l'.memos, x.invoice, x.at);
  }

  /** Allocations in between that do not count for the invoice change neither sum nor count. */
  lemma {:induction false} NothingBetween(allocations: seq<Allocation>, payments: seq<Payment>, i: nat, a: nat, b: nat)
    requires a <= b <= |allocations|
    requires forall k :: a <= k < b ==>
               !(allocations[k].invoice == i && allocations[k].payment < |payments| && !payments[allocations[k].payment].reversed)
    ensures PaidIn(allocations[..b], payments, i) == PaidIn(allocations[..a], payments, i)
    ensures CountIn(allocations[..b], payments, i) == CountIn(allocations[..a], payments, i)
  {
    if a < b {
      assert allocations[..b][..b - 1] == allocations[..b - 1];
      NothingBetween(allocations, payments, i, a, b - 1);
    }
  }

  lemma {:induction false} SameCredits(memos: seq<Memo>, i: nat, at: int, later: int)
    requires at <= later && forall m :: 0 <= m < |memos| && memos[m].invoice == i ==> !(at < memos[m].at <= later)
    ensures CreditedIn(memos, i, at) == CreditedIn(memos, i, later)
  {
    if memos != [] {
      SameCredits(memos[..|memos| - 1], i, at, later);
    }
  }

  lemma RunNothing(l: Ledger)
    ensures Run(l, []) == l
  {
  }

  /** In every reachable ledger consecutive partial payments chain: each starts from what the one
      before it left, with the next number, unless a credit note came between them. */
  lemma ComplementsChain(ops: seq<Operation>, a: nat, b: nat)
    requires RowsOk(Run(EMPTY, ops)) && a < b < |Run(EMPTY, ops).allocations|
    requires var l := Run(EMPTY, ops);
             && l.allocations[a].invoice == l.allocations[b].invoice
             && (forall k :: a < k < b && l.allocations[k].invoice == l.allocations[a].invoice ==>
                   l.payments[l.allocations[k].payment].reversed)
             && (forall m :: 0 <= m < |l.memos| && l.memos[m].invoice == l.allocations[a].invoice ==>
                   !(l.allocations[a].at < l.memos[m].at <= l.allocations[b].at))
    ensures var l := Run(EMPTY, ops);
            var first, next := BuildComplement(l, a, true, true), BuildComplement(l, b, true, true);
            first.Related? && next.Related? ==>
              && next.document.number == first.document.number + 1
              && next.document.previousBalance == first.document.previousBalance - first.document.paid
  {
    hide Run;
    assert Inv(EMPTY) by { ReachableInv([]); RunNothing(EMPTY); }
    RunKeepsOrder(EMPTY, ops);
    var l := Run(EMPTY, ops);
    var i := l.allocations[a].invoice;
    assert l.allocations[..a + 1][..a] == l.allocations[..a];
    NothingBetween(l.allocations, l.payments, i, a + 1, b);
    SameCredits(l.memos, i, l.allocations[a].at, l.allocations[b].at);
  }

  /* ---- no invoice is ever void ---- */

  lemma {:induction false} SettleAllNoVoid(l: Ledger, xs: seq<nat>, ps: seq<nat>)
    requires NoVoid(l) && Keys(xs, |l.invoices|) && Keys(ps, |l.payments|)
    ensures NoVoid(SettleAll(l, xs, ps))
    decreases |xs|
  {
    if xs != [] {
      SettleAllNoVoid(SettleInvoice(l, xs[0], ps), xs[1..], ps);
    }
  }

  lemma AllocateNoVoid(l: Ledger)
    requires NoVoid(l)
    ensures NoVoid(Allocate(l))
  {
    SettleAllNoVoid(l, OpenOrder(l), Live(l));
  }

  lemma CreateNoVoid(l: Ledger, s: nat, start: Date, end: Date, price: int)
    requires NoVoid(l) && CreatePeriod(l, s, start, end, price).Ok?
    ensures NoVoid(CreatePeriod(l, s, start, end, price).value.ledger)
  {
    hide Allocate, Anniversary;
    AllocateNoVoid(WithInvoice(l, s, start, end, price));
  }

  lemma RenewNoVoid(l: Ledger, s: nat, price: int)
    requires NoVoid(l) && RenewSubscription(l, s, price).Ok?
    ensures NoVoid(RenewSubscription(l, s, price).value.ledger)
  {
    hide CreatePeriod, Anniversary;
    var ys := InvoicesOf(l, s);
    var activation := l.subscriptions[s].activation.value;
    var start := l.invoices[ys[|ys| - 1]].end;
    CreateNoVoid(l, s, start, Anniversary(activation, MonthsBetween(activation, start) + 1), price);
  }

  lemma StepNoVoid(l: Ledger, op: Operation)
    requires NoVoid(l)
    ensures NoVoid(Step(l, op))
  {
    hide Allocate, CreatePeriod, RenewSubscription, Anniversary, Balance;
    match op
    case Receive(amount) =>
      AllocateNoVoid(l.(payments := l.payments + [Payment(amount, false)]));
    case Reverse(p) =>
      if p < |l.payments| { AllocateNoVoid(Reopened(l, p)); }
    case Create(s, start, end, price) =>
      if CreatePeriod(l, s, start, end, price).Ok? { CreateNoVoid(l, s, start, end, price); }
    case Renew(s, price) =>
      if RenewSubscription(l, s, price).Ok? { RenewNoVoid(l, s, price); }
    case ActivateService(s, today, price) =>
      if s < |l.subscriptions| {
        var l1 := l.(subscriptions := l.subscriptions[s := l.subscriptions[s].(activation := Some(today), status := Active)]);
        if CreatePeriod(l1, s, today, Anniversary(today, 1), price).Ok? {
          CreateNoVoid(l1, s, today, Anniversary(today, 1), price);
        }
      }
    case _ =>
  }

  lemma {:induction false} RunNoVoid(l: Ledger, ops: seq<Operation>)
    requires NoVoid(l)
    ensures NoVoid(Run(l, ops))
    decreases |ops|
  {
    if ops != [] {
      StepNoVoid(l, ops[0]);
      RunNoVoid(Step(l, ops[0]), ops[1..]);
    }
  }

  /** In every reachable ledger a successful renewal leaves its invoice paid and no debt anywhere. */
  lemma ReachableRenewalMakesNoDebt(ops: seq<Operation>, s: nat, price: int)
    requires 0 < price && RenewSubscription(Run(EMPTY, ops), s, price).Ok?
    ensures var r := RenewSubscription(Run(EMPTY, ops), s, price).value;
            && NoDebt(r.ledger)
            && r.invoice < |r.ledger.invoices|
            && r.ledger.invoices[r.invoice].status == Paid
            && Balance(r.ledger, r.invoice) <= 0
  {
    ReachableInv(ops);
    RunNoVoid(EMPTY, ops);
    RenewalMakesNoDebt(Run(EMPTY, ops), s, price);
  }

  /* ---- an invoice that had a refund ---- */

  /** From one ledger to the next no allocation reaches or leaves invoice `i`. */
  ghost predicate LeftAlone(l: Ledger, l': Ledger, i: nat) {
    && l.allocations <= l'.allocations && |l.payments| <= |l'.payments|
    && (forall a :: |l.allocations| <= a < |l'.allocations| ==> l'.allocations[a].invoice != i)
    && (forall p :: 0 <= p < |l.payments| && Touches(l, p, i) ==> l'.payments[p].reversed == l.payments[p].reversed)
  }

  /** The allocations added from one list to the next are of the invoices `xs`. */
  ghost predicate AddedFor(before: seq<Allocation>, after: seq<Allocation>, xs: seq<nat>) {
    before <= after && forall a :: |before| <= a < |after| ==> after[a].invoice in xs
  }

  lemma AddedOn(first: seq<Allocation>, next: seq<Allocation>, last: seq<Allocation>, xs: seq<nat>, ys: seq<nat>, zs: seq<nat>)
    requires AddedFor(first, next, xs) && AddedFor(next, last, ys)
    requires forall x :: x in xs || x in ys ==> x in zs
    ensures AddedFor(first, last, zs)
  {
    forall a | |first| <= a < |last|
      ensures last[a].invoice in zs
    {
      assert a < |next| ==> last[a] == next[a];
    }
  }

  lemma PayOnceAdds(l: Ledger, i: nat, p: nat)
    requires i < |l.invoices| && p < |l.payments|
    ensures AddedFor(l.allocations, PayOnce(l, i, p).allocations, [i])
  {
    hide Balance, Available;
  }

  lemma {:induction false} PayFromAdds(l: Ledger, i: nat, ps: seq<nat>)
    requires i < |l.invoices| && Keys(ps, |l.payments|)
    ensures AddedFor(l.allocations, PayFrom(l, i, ps).allocations, [i])
    decreases |ps|
  {
    hide Balance, Available, PayOnce;
    if ps != [] && Balance(l, i) > 0 {
      var l1 := PayOnce(l, i, ps[0]);
      PayOnceAdds(l, i, ps[0]);
      PayFromAdds(l1, i, ps[1..]);
      AddedOn(l.allocations, l1.allocations, PayFrom(l1, i, ps[1..]).allocations, [i], [i], [i]);
    }
  }

  /** The allocations that settling adds are of the invoices it settles. */
  lemma {:induction false} SettleAllAdds(l: Ledger, xs: seq<nat>, ps: seq<nat>)
    requires Keys(xs, |l.invoices|) && Keys(ps, |l.payments|)
    ensures AddedFor(l.allocations, SettleAll(l, xs, ps).allocations, xs)
    decreases |xs|
  {
    hide Balance, PayFrom;
    if xs != [] {
      var l1 := SettleInvoice(l, xs[0], ps);
      PayFromAdds(l, xs[0], ps);
      SettleAllAdds(l1, xs[1..], ps);
      assert xs == [xs[0]] + xs[1..];
      AddedOn(l.allocations, l1.allocations, SettleAll(l1, xs[1..], ps).allocations, [xs[0]], xs[1..], xs);
    }
  }

  lemma AllocateAdds(l: Ledger, i: nat)
    requires i < |l.invoices| && l.invoices[i].status != Open
    ensures LeftAlone(l, Allocate(l), i)
  {
    hide SettleAll, Refreshed;
    SettleAllAdds(l, OpenOrder(l), Live(l));
    assert i !in OpenOrder(l);
  }

  lemma CreateLeavesAlone(l: Ledger, s: nat, start: Date, end: Date, price: int, i: nat)
    requires CreatePeriod(l, s, start, end, price).Ok? && i < |l.invoices| && l.invoices[i].status != Open
    ensures LeftAlone(l, CreatePeriod(l, s, start, end, price).value.ledger, i)
  {
    hide Allocate, Anniversary;
    if FindPeriod(l.invoices, |l.invoices|, s, start).None? {
      var l1 := WithInvoice(l, s, start, end, price);
      AllocateAdds(l1, i);
      AllocateTables(l1);
    }
  }

  lemma AllocateTables(l: Ledger)
    ensures Allocate(l).payments == l.payments && Allocate(l).memos == l.memos && Allocate(l).refunds == l.refunds
  {
  }

  lemma ReverseLeavesAlone(l: Ledger, p: nat, i: nat)
    requires ReversePayment(l, p).Ok? && i < |l.invoices| && HasRefund(l, i) && l.invoices[i].status == Paid
    ensures LeftAlone(l, ReversePayment(l, p).value, i)
  {
    hide Allocate, HasRefund, Touches;
    if !l.payments[p].reversed {
      var l1 := Reopened(l, p);
      assert !Touches(l, p, i);
      AllocateAdds(l1, i);
      AllocateTables(l1);
      assert forall q :: 0 <= q < |l.payments| && q != p ==> l1.payments[q] == l.payments[q];
    }
  }

  /** No transaction, accepted or refused, moves money to or from an invoice that had a refund. */
  lemma StepLeavesAlone(l: Ledger, op: Operation, i: nat)
    requires i < |l.invoices| && HasRefund(l, i) && l.invoices[i].status == Paid
    ensures LeftAlone(l, Step(l, op), i)
  {
    hide Allocate, CreatePeriod, ReversePayment, Anniversary, Balance, Refreshed, HasRefund, RefundedOfMemo;
    match op
    case Receive(amount) =>
      if Money(amount) {
        var l1 := l.(payments := l.payments + [Payment(amount, false)]);
        AllocateAdds(l1, i);
        AllocateTables(l1);
      }
    case Reverse(p) =>
      if ReversePayment(l, p).Ok? { ReverseLeavesAlone(l, p, i); }
    case Create(s, start, end, price) =>
      if CreatePeriod(l, s, start, end, price).Ok? { CreateLeavesAlone(l, s, start, end, price, i); }
    case Renew(s, price) =>
      if RenewSubscription(l, s, price).Ok? {
        var ys := InvoicesOf(l, s);
        var activation := l.subscriptions[s].activation.value;
        var start := l.invoices[ys[|ys| - 1]].end;
        CreateLeavesAlone(l, s, start, Anniversary(activation, MonthsBetween(activation, start) + 1), price, i);
      }
    case ActivateService(s, today, price) =>
      if s < |l.subscriptions| {
        var l1 := l.(subscriptions := l.subscriptions[s := l.subscriptions[s].(activation := Some(today), status := Active)]);
        if CreatePeriod(l1, s, today, Anniversary(today, 1), price).Ok? {
          CreateLeavesAlone(l1, s, today, Anniversary(today, 1), price, i);
        }
      }
    case _ =>
  }

  lemma {:induction false} SamePaid(allocations: seq<Allocation>, payments: seq<Payment>, later: seq<Payment>, n: nat, i: nat)
    requires n <= |allocations| && |payments| <= |later|
    requires forall a :: 0 <= a < n ==> allocations[a].payment < |payments|
    requires forall a :: 0 <= a < n && allocations[a].invoice == i ==>
               later[allocations[a].payment].reversed == payments[allocations[a].payment].reversed
    requires forall a :: n <= a < |allocations| ==> allocations[a].invoice != i
    ensures PaidIn(allocations, later, i) == PaidIn(allocations[..n], payments, i)
    decreases |allocations|
  {
    if allocations != [] {
      var m := |allocations| - 1;
      if n == |allocations| {
        assert allocations[..n] == allocations;
        assert allocations[..m][..m] == allocations[..m];
        SamePaid(allocations[..m], payments, later, m, i);
      } else {
        assert allocations[..m][..n] == allocations[..n];
        SamePaid(allocations[..m], payments, later, n, i);
      }
    }
  }

  lemma LeftAlonePaid(l: Ledger, l': Ledger, i: nat)
    requires RowsOk(l) && LeftAlone(l, l', i)
    ensures PaidAmount(l', i) == PaidAmount(l, i)
  {
    hide PaidIn;
    var n := |l.allocations|;
    assert l'.allocations[..n] == l.allocations;
    forall a | 0 <= a < n
      ensures l'.allocations[a] == l.allocations[a]
      ensures l.allocations[a].invoice == i ==> Touches(l, l.allocations[a].payment, i)
    {
    }
    SamePaid(l'.allocations, l.payments, l'.payments, n, i);
  }

  lemma LeftAloneOn(l: Ledger, l1: Ledger, l2: Ledger, i: nat)
    requires LeftAlone(l, l1, i) && LeftAlone(l1, l2, i)
    ensures LeftAlone(l, l2, i)
  {
    forall p | 0 <= p < |l.payments| && Touches(l, p, i)
      ensures Touches(l1, p, i)
    {
      var a :| 0 <= a < |l.allocations| && l.allocations[a].payment == p && l.allocations[a].invoice == i;
      assert l1.allocations[a] == l.allocations[a];
    }
    forall a | |l.allocations| <= a < |l2.allocations|
      ensures l2.allocations[a].invoice != i
    {
      assert a < |l1.allocations| ==> l2.allocations[a] == l1.allocations[a];
    }
  }

  lemma RefundRemains(l: Ledger, op: Operation, i: nat)
    requires HasRefund(l, i)
    ensures HasRefund(Step(l, op), i)
  {
    hide Step;
    StepAppends(l, op);
    var r :| 0 <= r < |l.refunds| && l.refunds[r].memo < |l.memos| && l.memos[l.refunds[r].memo].invoice == i;
    assert Step(l, op).refunds[r] == l.refunds[r];
  }

  lemma RefundedIsPaid(l: Ledger, i: nat)
    requires Inv(l) && NoVoid(l) && HasRefund(l, i)
    ensures i < |l.invoices| && l.invoices[i].status == Paid
  {
    hide Balance, PeriodsOk, AllUpToDate;
    var r :| 0 <= r < |l.refunds| && l.refunds[r].memo < |l.memos| && l.memos[l.refunds[r].memo].invoice == i;
  }

  /** An invoice that had a refund stays paid, and no payment ever reaches or leaves it again. */
  lemma RefundCloses(l: Ledger, op: Operation, i: nat)
    requires Inv(l) && NoVoid(l) && HasRefund(l, i)
    ensures var l' := Step(l, op);
            && HasRefund(l', i) && i < |l'.invoices| && l'.invoices[i].status == Paid
            && LeftAlone(l, l', i) && PaidAmount(l', i) == PaidAmount(l, i)
  {
    hide Step, PaidAmount, HasRefund, NoVoid, Base, PeriodsOk, StatusesOk, NoIdleCredit, AllUpToDate, LeftAlone;
    RefundedIsPaid(l, i);
    RefundRemains(l, op, i);
    StepKeepsInv(l, op);
    StepNoVoid(l, op);
    RefundedIsPaid(Step(l, op), i);
    StepLeavesAlone(l, op, i);
    InvRows(l);
    LeftAlonePaid(l, Step(l, op), i);
  }

  lemma InvRows(l: Ledger)
    requires Inv(l)
    ensures RowsOk(l)
  {
  }

  lemma NothingHappened(l: Ledger, i: nat)
    ensures LeftAlone(l, l, i)
  {
  }

  lemma {:induction false} RefundClosesForever(l: Ledger, ops: seq<Operation>, i: nat)
    requires Inv(l) && NoVoid(l) && HasRefund(l, i)
    ensures var l' := Run(l, ops);
            && HasRefund(l', i) && i < |l'.invoices| && l'.invoices[i].status == Paid
            && LeftAlone(l, l', i) && PaidAmount(l', i) == PaidAmount(l, i)
    decreases |ops|
  {
    hide Inv, Step, PaidAmount, HasRefund, NoVoid, LeftAlone;
    RefundedIsPaid(l, i);
    if ops == [] {
      NothingHappened(l, i);
    } else {
      var l1 := Step(l, ops[0]);
      StepKeepsInv(l, ops[0]);
      StepNoVoid(l, ops[0]);
      RefundCloses(l, ops[0], i);
      RefundClosesForever(l1, ops[1..], i);
      LeftAloneOn(l, l1, Run(l1, ops[1..]), i);
    }
  }

  /** From the moment an invoice of a reachable ledger has had a refund, no later run reopens it, adds
      an allocation to it, or reverses a payment that was applied to it. */
  lemma ReachableRefundCloses(ops: seq<Operation>, later: seq<Operation>, i: nat)
    requires HasRefund(Run(EMPTY, ops), i)
    ensures var l := Run(EMPTY, ops); var l' := Run(l, later);
            && i < |l'.invoices| && l'.invoices[i].status == Paid
            && LeftAlone(l, l', i) && PaidAmount(l', i) == PaidAmount(l, i)
  {
    hide Run, Inv, HasRefund, NoVoid, LeftAlone;
    ReachableInv(ops);
    EmptyNoVoid();
    RunNoVoid(EMPTY, ops);
    RefundClosesForever(Run(EMPTY, ops), later, i);
  }

  lemma EmptyNoVoid()
    ensures NoVoid(EMPTY)
  {
  }
}
