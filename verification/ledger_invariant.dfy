/** The joint invariant of the prepaid ledger, and what the allocation loop does to it. */
module LedgerInvariant {
  import opened Common
  import opened Calendar
  import opened LedgerModel

  /* ---- the invariant ---- */

  /** The invoice bills one whole anniversary period of its subscription. */
  predicate OnAnniversary(sub: Subscription, v: Invoice) {
    && sub.activation.Some?
    && Valid(sub.activation.value)
    && var k := MonthsBetween(sub.activation.value, v.start);
       && 0 <= k
       && v.start == Anniversary(sub.activation.value, k)
       && v.end == Anniversary(sub.activation.value, k + 1)
  }

  /** Every invoice bills its own anniversary period. */
  ghost predicate PeriodsOk(l: Ledger) {
    && (forall i :: 0 <= i < |l.invoices| ==>
          l.invoices[i].subscription < |l.subscriptions|
          && OnAnniversary(l.subscriptions[l.invoices[i].subscription], l.invoices[i]))
    && (forall i, j | 0 <= i < |l.invoices| && 0 <= j < |l.invoices| :: SamePeriod(l.invoices[i], l.invoices[j]) ==> i == j)
  }

  predicate SamePeriod(v: Invoice, w: Invoice) { v.subscription == w.subscription && v.start == w.start }

  ghost predicate RowsOk(l: Ledger) {
    && (forall i :: 0 <= i < |l.invoices| ==>
          l.invoices[i].subscription < |l.subscriptions| && 0 < l.invoices[i].total)
    && (forall p :: 0 <= p < |l.payments| ==> 0 < l.payments[p].amount)
    && (forall a :: 0 <= a < |l.allocations| ==>
          l.allocations[a].payment < |l.payments| && l.allocations[a].invoice < |l.invoices|
          && 0 < l.allocations[a].amount && l.allocations[a].at <= l.clock)
    && (forall m :: 0 <= m < |l.memos| ==>
          l.memos[m].invoice < |l.invoices| && Money(l.memos[m].amount) && l.memos[m].at <= l.clock)
    && (forall r :: 0 <= r < |l.refunds| ==> l.refunds[r].memo < |l.memos| && 0 < l.refunds[r].amount)
  }

  /** No payment is applied beyond its amount, no memo refunded beyond its own. */
  ghost predicate WithinAmounts(l: Ledger) {
    && (forall p :: 0 <= p < |l.payments| ==> UsedIn(l.allocations, p) <= l.payments[p].amount)
    && (forall m :: 0 <= m < |l.memos| ==> RefundedOfMemo(l.refunds, m) <= l.memos[m].amount)
  }

  /** No invoice is paid beyond its total, and one that had a refund stays covered. */
  ghost predicate InvoicesCovered(l: Ledger) {
    forall i :: 0 <= i < |l.invoices| ==>
      && PaidAmount(l, i) <= l.invoices[i].total
      && (HasRefund(l, i) ==> Balance(l, i) <= 0)
  }

  /** `ImpSaldoAnt`: what an invoice still owed, fiscally, just before allocation `a`. */
  function FiscalBalanceBefore(l: Ledger, a: nat): int
    requires a < |l.allocations| && l.allocations[a].invoice < |l.invoices|
  {
    var x := l.allocations[a];
    l.invoices[x.invoice].total - PaidIn(l.allocations[..a], l.payments, x.invoice) - CreditedIn(l.memos, x.invoice, x.at)
  }

  ghost predicate ComplementsOk(l: Ledger)
    requires RowsOk(l)
  {
    forall a :: 0 <= a < |l.allocations| ==> l.allocations[a].amount <= FiscalBalanceBefore(l, a)
  }

  /** What holds even in the middle of an allocation. */
  ghost predicate Base(l: Ledger) {
    RowsOk(l) && WithinAmounts(l) && InvoicesCovered(l) && ComplementsOk(l)
  }

  /** An invoice that is not void is marked paid exactly when nothing is owed. */
  ghost predicate StatusesOk(l: Ledger) {
    forall i :: 0 <= i < |l.invoices| && l.invoices[i].status != Void ==>
      (l.invoices[i].status == Paid <==> Balance(l, i) <= 0)
  }

  /** Debt and unspent credit never coexist. */
  ghost predicate NoIdleCredit(l: Ledger) {
    forall i, p :: 0 <= i < |l.invoices| && l.invoices[i].status == Open && 0 <= p < |l.payments| ==> Available(l, p) <= 0
  }

  /** Month `k` since activation is billed and nothing of it is owed. */
  ghost predicate SettledPeriod(l: Ledger, s: nat, k: int)
    requires s < |l.subscriptions| && l.subscriptions[s].activation.Some?
  {
    exists i :: 0 <= i < |l.invoices| && SettledBy(l, s, k, i)
  }

  predicate SettledBy(l: Ledger, s: nat, k: int, i: nat)
    requires s < |l.subscriptions| && l.subscriptions[s].activation.Some? && i < |l.invoices|
  {
    && l.invoices[i].subscription == s
    && l.invoices[i].status != Void
    && l.invoices[i].start == Anniversary(l.subscriptions[s].activation.value, k)
    && Balance(l, i) <= 0
  }

  /** The months since activation are settled without a gap up to month `n`, and no further. */
  ghost predicate Covers(l: Ledger, s: nat, n: nat)
    requires s < |l.subscriptions| && l.subscriptions[s].activation.Some?
  {
    (forall k :: 0 <= k < n ==> SettledPeriod(l, s, k)) && !SettledPeriod(l, s, n)
  }

  /** `d` ends the longest gap-free run of settled periods starting at activation. */
  ghost predicate CoveredTo(l: Ledger, s: nat, d: Date)
    requires s < |l.subscriptions| && l.subscriptions[s].activation.Some?
  {
    exists n: nat :: Covers(l, s, n) && d == Anniversary(l.subscriptions[s].activation.value, n)
  }

  ghost predicate UpToDate(l: Ledger, s: nat)
    requires s < |l.subscriptions|
  {
    var sub := l.subscriptions[s];
    if sub.activation.None? then sub.paidUntil.None?
    else Valid(sub.activation.value) && sub.paidUntil.Some? && CoveredTo(l, s, sub.paidUntil.value)
  }

  ghost predicate AllUpToDate(l: Ledger) {
    forall s :: 0 <= s < |l.subscriptions| ==> UpToDate(l, s)
  }

  ghost predicate Inv(l: Ledger) {
    Base(l) && PeriodsOk(l) && StatusesOk(l) && NoIdleCredit(l) && AllUpToDate(l)
  }

  /* ---- how the sums change when a row is added ---- */

  lemma PaidPlus(allocations: seq<Allocation>, a: Allocation, payments: seq<Payment>, i: nat)
    ensures PaidIn(allocations + [a], payments, i) == PaidIn(allocations, payments, i)
            + if a.invoice == i && a.payment < |payments| && !payments[a.payment].reversed then a.amount else 0
    ensures UsedIn(allocations + [a], a.payment) == UsedIn(allocations, a.payment) + a.amount
    ensures forall p: nat :: p != a.payment ==> UsedIn(allocations + [a], p) == UsedIn(allocations, p)
  {
    assert (allocations + [a])[..|allocations|] == allocations;
  }

  lemma {:induction false} CreditedByNow(memos: seq<Memo>, i: nat, at: int)
    requires forall m :: 0 <= m < |memos| ==> memos[m].at <= at
    ensures CreditedIn(memos, i, at) == CreditedAll(memos, i)
  {
    if memos != [] {
      CreditedByNow(memos[..|memos| - 1], i, at);
    }
  }

  lemma {:induction false} PaidNonNegative(allocations: seq<Allocation>, payments: seq<Payment>, i: nat)
    requires forall a :: 0 <= a < |allocations| ==> 0 < allocations[a].amount
    ensures 0 <= PaidIn(allocations, payments, i)
  {
    if allocations != [] {
      PaidNonNegative(allocations[..|allocations| - 1], payments, i);
    }
  }

  lemma {:induction false} CreditsNonNegative(memos: seq<Memo>, i: nat, at: int)
    requires forall m :: 0 <= m < |memos| ==> 0 < memos[m].amount
    ensures 0 <= CreditedIn(memos, i, at) <= CreditedAll(memos, i)
  {
    if memos != [] {
      CreditsNonNegative(memos[..|memos| - 1], i, at);
    }
  }

  /** An invoice without refunds has none in the sum. */
  lemma {:induction false} NothingRefunded(refunds: seq<Refund>, memos: seq<Memo>, i: nat)
    requires forall r :: 0 <= r < |refunds| && refunds[r].memo < |memos| ==> memos[refunds[r].memo].invoice != i
    ensures RefundedIn(refunds, memos, i) == 0
  {
    if refunds != [] {
      NothingRefunded(refunds[..|refunds| - 1], memos, i);
    }
  }

  /* ---- one allocation ---- */

  /** An allocation moves its amount from the payment to the invoice, and moves nothing else. */
  lemma AllocationMoves(l: Ledger, p: nat, i: nat, amount: int)
    requires p < |l.payments| && i < |l.invoices| && !l.payments[p].reversed
    ensures var l' := AddAllocation(l, p, i, amount);
            && (forall j: nat :: PaidAmount(l', j) == PaidAmount(l, j) + if j == i then amount else 0)
            && (forall j :: 0 <= j < |l.invoices| ==> Balance(l', j) == Balance(l, j) - if j == i then amount else 0)
            && (forall q :: 0 <= q < |l.payments| ==> Available(l', q) == Available(l, q) - if q == p then amount else 0)
            && (forall q: nat :: UsedIn(l'.allocations, q) == UsedIn(l.allocations, q) + if q == p then amount else 0)
  {
    var l' := AddAllocation(l, p, i, amount);
    var a := Allocation(p, i, amount, l.clock);
    forall j: nat
      ensures PaidAmount(l', j) == PaidAmount(l, j) + if j == i then amount else 0
    {
      PaidPlus(l.allocations, a, l.payments, j);
    }
    PaidPlus(l.allocations, a, l.payments, i);
  }

  /** An invoice that still owes something has had no refund, so its debt is its fiscal balance. */
  lemma OwedIsFiscal(l: Ledger, i: nat)
    requires Base(l) && i < |l.invoices| && Balance(l, i) > 0
    ensures Refunded(l, i) == 0
    ensures Balance(l, i) == l.invoices[i].total - PaidAmount(l, i) - CreditedIn(l.memos, i, l.clock)
    ensures Balance(l, i) <= l.invoices[i].total - PaidAmount(l, i)
  {
    assert !HasRefund(l, i);
    NothingRefunded(l.refunds, l.memos, i);
    CreditedByNow(l.memos, i, l.clock);
    CreditsNonNegative(l.memos, i, l.clock);
  }

  lemma AllocationComplements(l: Ledger, p: nat, i: nat, amount: int)
    requires Base(l) && p < |l.payments| && i < |l.invoices| && !l.payments[p].reversed
    requires 0 < amount <= Balance(l, i)
    requires RowsOk(AddAllocation(l, p, i, amount))
    ensures ComplementsOk(AddAllocation(l, p, i, amount))
  {
    var l' := AddAllocation(l, p, i, amount);
    OwedIsFiscal(l, i);
    forall b | 0 <= b < |l'.allocations|
      ensures l'.allocations[b].amount <= FiscalBalanceBefore(l', b)
    {
      if b < |l.allocations| {
        assert l'.allocations[..b] == l.allocations[..b];
        assert FiscalBalanceBefore(l', b) == FiscalBalanceBefore(l, b);
      } else {
        assert l'.allocations[..b] == l.allocations;
      }
    }
  }

  lemma AllocationKeepsBase(l: Ledger, p: nat, i: nat, amount: int)
    requires Base(l) && p < |l.payments| && i < |l.invoices| && !l.payments[p].reversed
    requires 0 < amount <= Available(l, p) && amount <= Balance(l, i)
    ensures Base(AddAllocation(l, p, i, amount))
  {
    var l' := AddAllocation(l, p, i, amount);
    AllocationMoves(l, p, i, amount);
    OwedIsFiscal(l, i);
    assert RowsOk(l');
    AllocationComplements(l, p, i, amount);
    forall j | 0 <= j < |l'.invoices|
      ensures PaidAmount(l', j) <= l'.invoices[j].total && (HasRefund(l', j) ==> Balance(l', j) <= 0)
    {
      assert HasRefund(l', j) == HasRefund(l, j);
    }
  }

  lemma {:induction false} CreditUnchanged(l: Ledger, l': Ledger, ps: seq<nat>)
    requires Keys(ps, |l.payments|) && |l'.payments| == |l.payments|
    requires forall k :: 0 <= k < |ps| ==> Available(l', ps[k]) == Available(l, ps[k])
    ensures CreditOf(l', ps) == CreditOf(l, ps)
  {
    if ps != [] {
      CreditUnchanged(l, l', ps[1..]);
    }
  }

  /** Distinct live payments, as the query returns them. */
  ghost predicate Spendable(l: Ledger, ps: seq<nat>) {
    && Keys(ps, |l.payments|)
    && (forall k :: 0 <= k < |ps| ==> !l.payments[ps[k]].reversed)
    && (forall j, k :: 0 <= j < k < |ps| ==> ps[j] != ps[k])
  }

  lemma {:induction false} CreditNonNegative(l: Ledger, ps: seq<nat>)
    requires Base(l) && Spendable(l, ps)
    ensures forall k :: 0 <= k < |ps| ==> 0 <= Available(l, ps[k]) <= CreditOf(l, ps)
    ensures 0 <= CreditOf(l, ps)
  {
    if ps != [] {
      CreditNonNegative(l, ps[1..]);
      assert forall k :: 1 <= k < |ps| ==> ps[k] == ps[1..][k - 1];
    }
  }

  /** What paying invoice `i` from payments `ps` did. */
  ghost predicate PaidOff(l: Ledger, l': Ledger, i: nat, ps: seq<nat>)
    requires i < |l.invoices| && Keys(ps, |l.payments|)
  {
    && l' == l.(allocations := l'.allocations)
    && Balance(l', i) == (if Balance(l, i) <= 0 then Balance(l, i) else Max(Balance(l, i) - CreditOf(l, ps), 0))
    && (forall j :: 0 <= j < |l.invoices| && j != i ==> Balance(l', j) == Balance(l, j))
    && (forall p :: 0 <= p < |l.payments| ==> Available(l', p) <= Available(l, p))
    && (Balance(l', i) > 0 ==> forall k :: 0 <= k < |ps| ==> Available(l', ps[k]) <= 0)
  }

  lemma PayOnceEffect(l: Ledger, i: nat, p: nat)
    requires Base(l) && i < |l.invoices| && p < |l.payments| && !l.payments[p].reversed && Balance(l, i) > 0
    ensures var l1 := PayOnce(l, i, p);
            var applied := Min(Balance(l, i), Available(l, p));
            && 0 <= applied
            && Base(l1)
            && Balance(l1, i) == Balance(l, i) - applied
            && (forall j :: 0 <= j < |l.invoices| && j != i ==> Balance(l1, j) == Balance(l, j))
            && Available(l1, p) == Available(l, p) - applied
            && (forall q :: 0 <= q < |l.payments| && q != p ==> Available(l1, q) == Available(l, q))
  {
    var applied := Min(Balance(l, i), Available(l, p));
    if applied > 0 {
      AllocationKeepsBase(l, p, i, applied);
      AllocationMoves(l, p, i, applied);
    }
  }

  lemma {:induction false} PayFromKeepsBase(l: Ledger, i: nat, ps: seq<nat>)
    requires Base(l) && i < |l.invoices| && Spendable(l, ps)
    ensures Base(PayFrom(l, i, ps))
    decreases |ps|
  {
    if ps != [] && Balance(l, i) > 0 {
      PayOnceEffect(l, i, ps[0]);
      PayFromKeepsBase(PayOnce(l, i, ps[0]), i, ps[1..]);
    }
  }

  /** The inner loop: the invoice takes what the payments have, up to what it owes, and
      nothing else changes; when it still owes something, they have nothing left. */
  lemma {:induction false} PayFromEffect(l: Ledger, i: nat, ps: seq<nat>)
    requires Base(l) && i < |l.invoices| && Spendable(l, ps)
    ensures PaidOff(l, PayFrom(l, i, ps), i, ps)
    decreases |ps|
  {
    hide Base, PaidIn, UsedIn, CreditedAll, RefundedIn, PaidOff;
    if ps != [] && Balance(l, i) > 0 {
      var l1 := PayOnce(l, i, ps[0]);
      PayOnceEffect(l, i, ps[0]);
      PayFromEffect(l1, i, ps[1..]);
      CreditUnchanged(l, l1, ps[1..]);
      CreditNonNegative(l, ps[1..]);
      PaidOffStep(l, l1, PayFrom(l, i, ps), i, ps, Min(Balance(l, i), Available(l, ps[0])));
    } else {
      NothingPaid(l, i, ps);
    }
  }

  lemma NothingPaid(l: Ledger, i: nat, ps: seq<nat>)
    requires Base(l) && i < |l.invoices| && Spendable(l, ps) && (ps == [] || Balance(l, i) <= 0)
    ensures PaidOff(l, PayFrom(l, i, ps), i, ps)
  {
    hide Base, Balance;
    assert PayFrom(l, i, ps) == l;
  }

  /** Paying first from `ps[0]` and then from the rest. */
  lemma PaidOffStep(l: Ledger, l1: Ledger, l': Ledger, i: nat, ps: seq<nat>, applied: int)
    requires i < |l.invoices| && Keys(ps, |l.payments|) && ps != [] && Balance(l, i) > 0
    requires l1 == l.(allocations := l1.allocations)
    requires applied == Min(Balance(l, i), Available(l, ps[0])) && 0 <= applied
    requires Balance(l1, i) == Balance(l, i) - applied && Available(l1, ps[0]) == Available(l, ps[0]) - applied
    requires forall j :: 0 <= j < |l.invoices| && j != i ==> Balance(l1, j) == Balance(l, j)
    requires forall p :: 0 <= p < |l.payments| ==> Available(l1, p) <= Available(l, p)
    requires CreditOf(l1, ps[1..]) == CreditOf(l, ps[1..]) && 0 <= CreditOf(l, ps[1..])
    requires PaidOff(l1, l', i, ps[1..])
    ensures PaidOff(l, l', i, ps)
  {
    forall k | 0 <= k < |ps| && Balance(l', i) > 0
      ensures Available(l', ps[k]) <= 0
    {
      if k > 0 {
        assert ps[k] == ps[1..][k - 1];
      } else {
        assert Available(l', ps[0]) <= Available(l1, ps[0]);
      }
    }
  }
}
