/** Every ledger operation keeps the joint invariant. */
module LedgerSafety {
  import opened Calendar
  import opened LedgerModel
  import opened LedgerInvariant
  import opened LedgerSettle
  import opened LedgerCoverage

  /** Same invoices up to status and same void marks, and nothing settled becomes unsettled. */
  lemma SettledKept(l: Ledger, l': Ledger, s: nat)
    requires s < |l.subscriptions| && l.subscriptions[s].activation.Some?
    requires s < |l'.subscriptions| && l'.subscriptions[s].activation == l.subscriptions[s].activation
    requires |l.invoices| <= |l'.invoices|
    requires forall i :: 0 <= i < |l.invoices| && l.invoices[i].subscription == s ==>
               && l'.invoices[i] == l.invoices[i].(status := l'.invoices[i].status)
               && (l.invoices[i].status != Void && Balance(l, i) <= 0 ==> l'.invoices[i].status != Void && Balance(l', i) <= 0)
    ensures KeepsSettled(l, l', s)
  {
    hide Balance;
    forall k: int | SettledPeriod(l, s, k)
      ensures SettledPeriod(l', s, k)
    {
      var i :| 0 <= i < |l.invoices| && SettledBy(l, s, k, i);
      assert SettledBy(l', s, k, i);
    }
  }

  /** The same balances and void marks for every invoice of `s`. */
  ghost predicate SameFor(l: Ledger, l': Ledger, s: nat) {
    && |l.invoices| <= |l'.invoices|
    && (forall i :: 0 <= i < |l.invoices| ==> l'.invoices[i] == l.invoices[i].(status := l'.invoices[i].status))
    && (forall i :: 0 <= i < |l.invoices| && l.invoices[i].subscription == s ==>
          && (l'.invoices[i].status == Void <==> l.invoices[i].status == Void)
          && (Balance(l', i) <= 0 <==> Balance(l, i) <= 0))
    && (forall i :: |l.invoices| <= i < |l'.invoices| ==> l'.invoices[i].subscription != s)
  }

  lemma SameForUpToDate(l: Ledger, l': Ledger, s: nat)
    requires s < |l.subscriptions| && s < |l'.subscriptions| && l'.subscriptions[s] == l.subscriptions[s]
    requires UpToDate(l, s) && SameFor(l, l', s)
    ensures UpToDate(l', s)
  {
    hide Balance;
    if l.subscriptions[s].activation.Some? {
      SettledKept(l, l', s);
      forall k: int | SettledPeriod(l', s, k)
        ensures SettledPeriod(l, s, k)
      {
        var i :| 0 <= i < |l'.invoices| && SettledBy(l', s, k, i);
        assert i < |l.invoices|;
        assert SettledBy(l, s, k, i);
      }
      UpToDateFrame(l, l', s);
    }
  }

  /* ---- refreshing ---- */

  lemma RefreshKeepsRows(l: Ledger, affected: set<nat>)
    requires Base(l)
    ensures var l' := RefreshEach(l, affected);
            && Base(l') && (PeriodsOk(l) ==> PeriodsOk(l'))
            && (StatusesOk(l) ==> StatusesOk(l')) && (NoIdleCredit(l) ==> NoIdleCredit(l'))
            && (forall i :: 0 <= i < |l.invoices| ==> Balance(l', i) == Balance(l, i))
  {
    hide Anniversary, MonthsBetween, PaidIn, UsedIn, CreditedIn, CreditedAll, RefundedIn, RefundedOfMemo, Walk;
    hide Refreshed, OnAnniversary, HasRefund;
    var l' := RefreshEach(l, affected);
    if PeriodsOk(l) { RefreshKeepsPeriods(l, affected); }
    assert forall p :: 0 <= p < |l.payments| ==> Available(l', p) == Available(l, p);
    forall i | 0 <= i < |l'.invoices|
      ensures PaidAmount(l', i) <= l'.invoices[i].total && (HasRefund(l', i) ==> Balance(l', i) <= 0)
    {
      SameRefunds(l, l', i);
    }
    forall a | 0 <= a < |l'.allocations|
      ensures l'.allocations[a].amount <= FiscalBalanceBefore(l', a)
    {
      assert FiscalBalanceBefore(l', a) == FiscalBalanceBefore(l, a);
    }
  }

  lemma SameRefunds(l: Ledger, l': Ledger, i: nat)
    requires l'.refunds == l.refunds && l'.memos == l.memos
    ensures HasRefund(l', i) == HasRefund(l, i)
  {
  }

  lemma RefreshKeepsPeriods(l: Ledger, affected: set<nat>)
    requires PeriodsOk(l)
    ensures PeriodsOk(RefreshEach(l, affected))
  {
    hide Anniversary, MonthsBetween, Walk;
  }

  /** After a refresh the refreshed subscriptions are up to date, and the others stay as they were. */
  lemma RefreshUpdates(l: Ledger, affected: set<nat>, s: nat)
    requires Base(l) && PeriodsOk(l) && s < |l.subscriptions|
    requires s in affected ==> l.subscriptions[s].activation.Some? && Valid(l.subscriptions[s].activation.value)
    requires s !in affected ==> UpToDate(l, s)
    ensures UpToDate(RefreshEach(l, affected), s)
  {
    hide Anniversary, MonthsBetween, Balance, Walk, Base, PeriodsOk;
    var l' := RefreshEach(l, affected);
    RefreshKeepsRows(l, affected);
    if s in affected {
      RefreshedIsUpToDate(l, s);
      var d := Refreshed(l, s).paidUntil.value;
      var n: nat :| Covers(l, s, n) && d == Anniversary(l.subscriptions[s].activation.value, n);
      RefreshSettles(l, l', s, n);
    } else {
      SameForUpToDate(l, l', s);
    }
  }

  lemma RefreshSettles(l: Ledger, l': Ledger, s: nat, n: nat)
    requires s < |l.subscriptions| && s < |l'.subscriptions| && l'.invoices == l.invoices
    requires l.subscriptions[s].activation.Some? && l'.subscriptions[s].activation == l.subscriptions[s].activation
    requires forall i :: 0 <= i < |l.invoices| ==> Balance(l', i) == Balance(l, i)
    requires Covers(l, s, n)
    ensures Covers(l', s, n)
  {
    hide Balance, Anniversary;
    SettledKept(l, l', s);
    SettledKept(l', l, s);
  }

  /* ---- an allocation pass ---- */

  /** What an allocation pass may start from: no invoice is marked paid that owes. */
  ghost predicate Ready(l: Ledger) {
    && Base(l) && PeriodsOk(l)
    && forall i :: 0 <= i < |l.invoices| && l.invoices[i].status == Paid ==> Balance(l, i) <= 0
  }

  lemma AllocateEffect(l: Ledger)
    requires Ready(l)
    ensures var l' := Allocate(l);
            && Base(l') && PeriodsOk(l') && StatusesOk(l') && NoIdleCredit(l')
            && SettledFrom(l, Settled(l), OpenOrder(l), Live(l))
            && (forall i :: 0 <= i < |l.invoices| ==> Balance(l', i) == Balance(Settled(l), i))
  {
    hide Base, Balance;
    SettledEffect(l);
    SettledKeepsPeriods(l, Settled(l));
    RefreshKeepsRows(Settled(l), Owners(l, OpenOrder(l)));
  }

  lemma SettledKeepsPeriods(l: Ledger, l': Ledger)
    requires PeriodsOk(l) && l'.subscriptions == l.subscriptions && |l'.invoices| == |l.invoices|
    requires forall j :: 0 <= j < |l.invoices| ==> l'.invoices[j] == l.invoices[j].(status := l'.invoices[j].status)
    ensures PeriodsOk(l')
  {
    hide Anniversary, MonthsBetween;
    forall i | 0 <= i < |l'.invoices|
      ensures l'.invoices[i].subscription < |l'.subscriptions|
              && OnAnniversary(l'.subscriptions[l'.invoices[i].subscription], l'.invoices[i])
    {
      assert OnAnniversary(l.subscriptions[l.invoices[i].subscription], l.invoices[i]);
    }
    forall i, j | 0 <= i < |l'.invoices| && 0 <= j < |l'.invoices|
      ensures SamePeriod(l'.invoices[i], l'.invoices[j]) ==> i == j
    {
      assert SamePeriod(l.invoices[i], l.invoices[j]) ==> i == j;
    }
  }

  /** The subscriptions with an open invoice are refreshed; the others lose and gain nothing. */
  lemma AllocateUpdates(l: Ledger, s: nat)
    requires Ready(l) && s < |l.subscriptions|
    requires s !in Owners(l, OpenOrder(l)) ==> UpToDate(l, s)
    ensures UpToDate(Allocate(l), s)
  {
    hide Base, Balance, Anniversary, MonthsBetween, PaidIn;
    var l1 := Settled(l);
    SettledEffect(l);
    SettledKeepsPeriods(l, l1);
    if s in Owners(l, OpenOrder(l)) {
      var i :| i in OpenOrder(l) && l.invoices[i].subscription == s;
      assert OnAnniversary(l.subscriptions[s], l.invoices[i]);
    } else {
      forall i | 0 <= i < |l.invoices| && l.invoices[i].subscription == s
        ensures i !in OpenOrder(l)
      {
      }
      SameForUpToDate(l, l1, s);
    }
    RefreshUpdates(l1, Owners(l, OpenOrder(l)), s);
  }

  /** An allocation pass settles more, never less. */
  lemma AllocateKeepsSettled(l: Ledger, s: nat)
    requires Ready(l) && s < |l.subscriptions| && l.subscriptions[s].activation.Some?
    ensures KeepsSettled(l, Allocate(l), s)
  {
    hide Base, Balance, Anniversary;
    AllocateEffect(l);
    var l1 := Settled(l);
    forall i | 0 <= i < |l.invoices| && l.invoices[i].status != Void
      ensures l1.invoices[i].status != Void
    {
    }
    SettledKept(l, Allocate(l), s);
  }

  /* ---- the operations ---- */

  lemma {:induction false} PaidSamePayments(allocations: seq<Allocation>, payments: seq<Payment>, x: Payment, i: nat)
    requires forall a :: 0 <= a < |allocations| ==> allocations[a].payment < |payments|
    ensures PaidIn(allocations, payments + [x], i) == PaidIn(allocations, payments, i)
  {
    if allocations != [] {
      PaidSamePayments(allocations[..|allocations| - 1], payments, x, i);
    }
  }

  lemma {:induction false} UnusedPayment(allocations: seq<Allocation>, p: nat)
    requires forall a :: 0 <= a < |allocations| ==> allocations[a].payment != p
    ensures UsedIn(allocations, p) == 0
  {
    if allocations != [] {
      UnusedPayment(allocations[..|allocations| - 1], p);
    }
  }

  lemma NewPaymentReady(l: Ledger, amount: int)
    requires Inv(l) && 0 < amount
    ensures var l1 := l.(payments := l.payments + [Payment(amount, false)]);
            Ready(l1) && forall i :: 0 <= i < |l.invoices| ==> Balance(l1, i) == Balance(l, i)
  {
    hide Anniversary, MonthsBetween, AllUpToDate, NoIdleCredit, CreditedIn, CreditedAll, RefundedIn, RefundedOfMemo, PaidIn;
    var x := Payment(amount, false);
    var l1 := l.(payments := l.payments + [x]);
    forall i: nat
      ensures PaidAmount(l1, i) == PaidAmount(l, i)
    {
      PaidSamePayments(l.allocations, l.payments, x, i);
    }
    UnusedPayment(l.allocations, |l.payments|);
    forall i | 0 <= i < |l1.invoices|
      ensures PaidAmount(l1, i) <= l1.invoices[i].total && (HasRefund(l1, i) ==> Balance(l1, i) <= 0)
    {
      assert HasRefund(l1, i) == HasRefund(l, i);
    }
    forall a | 0 <= a < |l1.allocations|
      ensures l1.allocations[a].amount <= FiscalBalanceBefore(l1, a)
    {
      PaidSamePayments(l.allocations[..a], l.payments, x, l.allocations[a].invoice);
      assert FiscalBalanceBefore(l1, a) == FiscalBalanceBefore(l, a);
    }
  }

  /** From a ready ledger whose subscriptions without open invoices are up to date, to the invariant. */
  lemma AllocateRestoresInv(l: Ledger)
    requires Ready(l)
    requires forall s :: 0 <= s < |l.subscriptions| && s !in Owners(l, OpenOrder(l)) ==> UpToDate(l, s)
    ensures Inv(Allocate(l))
  {
    hide Base, PeriodsOk, StatusesOk, NoIdleCredit, UpToDate, Allocate;
    AllocateEffect(l);
    forall s | 0 <= s < |l.subscriptions|
      ensures UpToDate(Allocate(l), s)
    {
      AllocateUpdates(l, s);
    }
  }

  lemma ReceiveKeepsInv(l: Ledger, amount: int)
    requires Inv(l) && ReceivePayment(l, amount).Ok?
    ensures Inv(ReceivePayment(l, amount).value)
  {
    hide Base, PeriodsOk, StatusesOk, NoIdleCredit, Allocate, Balance;
    var l1 := l.(payments := l.payments + [Payment(amount, false)]);
    NewPaymentReady(l, amount);
    forall s | 0 <= s < |l.subscriptions|
      ensures UpToDate(l1, s)
    {
      SameForUpToDate(l, l1, s);
    }
    AllocateRestoresInv(l1);
  }

  /* ---- reversing ---- */

  /** Reversing `p` takes from an invoice what `p` paid for it: nothing, unless `p` touched it. */
  lemma {:induction false} PaidWithout(allocations: seq<Allocation>, payments: seq<Payment>, p: nat, i: nat)
    requires p < |payments| && forall a :: 0 <= a < |allocations| ==> 0 < allocations[a].amount
    ensures var payments' := payments[p := payments[p].(reversed := true)];
            && PaidIn(allocations, payments', i) <= PaidIn(allocations, payments, i)
            && ((forall a :: 0 <= a < |allocations| && allocations[a].payment == p ==> allocations[a].invoice != i) ==>
                  PaidIn(allocations, payments', i) == PaidIn(allocations, payments, i))
  {
    if allocations != [] {
      PaidWithout(allocations[..|allocations| - 1], payments, p, i);
    }
  }

  lemma ReopenedReady(l: Ledger, p: nat)
    requires Inv(l) && p < |l.payments|
    requires !exists i :: 0 <= i < |l.invoices| && Touches(l, p, i) && HasRefund(l, i)
    ensures Ready(Reopened(l, p))
    ensures forall i :: 0 <= i < |l.invoices| && !Touches(l, p, i) ==> Balance(Reopened(l, p), i) == Balance(l, i)
  {
    hide Anniversary, MonthsBetween, AllUpToDate, NoIdleCredit, CreditedIn, CreditedAll, RefundedIn, RefundedOfMemo, PaidIn;
    var l1 := Reopened(l, p);
    forall i: nat
      ensures PaidAmount(l1, i) <= PaidAmount(l, i) && (!Touches(l, p, i) ==> PaidAmount(l1, i) == PaidAmount(l, i))
    {
      PaidWithout(l.allocations, l.payments, p, i);
    }
    forall i | 0 <= i < |l1.invoices|
      ensures PaidAmount(l1, i) <= l1.invoices[i].total && (HasRefund(l1, i) ==> Balance(l1, i) <= 0)
    {
      assert HasRefund(l1, i) == HasRefund(l, i);
    }
    assert RowsOk(l1);
    forall a | 0 <= a < |l1.allocations|
      ensures l1.allocations[a].amount <= FiscalBalanceBefore(l1, a)
    {
      PaidWithout(l.allocations[..a], l.payments, p, l.allocations[a].invoice);
      assert l.allocations[a].amount <= FiscalBalanceBefore(l, a);
    }
    SettledKeepsPeriods(l, l1);
  }

  lemma ReverseKeepsInv(l: Ledger, p: nat)
    requires Inv(l) && ReversePayment(l, p).Ok?
    ensures Inv(ReversePayment(l, p).value)
  {
    hide Base, PeriodsOk, StatusesOk, NoIdleCredit, Allocate, Balance, Reopened;
    if !l.payments[p].reversed {
      var l1 := Reopened(l, p);
      var l2 := Allocate(l1);
      ReopenedReady(l, p);
      AllocateEffect(l1);
      forall s | 0 <= s < |l.subscriptions|
        ensures UpToDate(RefreshEach(l2, TouchedOwners(l, p)), s)
      {
        ReversalUpdates(l, p, s);
      }
      RefreshKeepsRows(l2, TouchedOwners(l, p));
    }
  }

  /** The owner of an invoice that payment `p` was applied to has a billing date. */
  lemma TouchedIsActive(l: Ledger, p: nat, s: nat)
    requires Inv(l) && p < |l.payments| && s < |l.subscriptions| && s in TouchedOwners(l, p)
    ensures l.subscriptions[s].activation.Some? && Valid(l.subscriptions[s].activation.value)
  {
    hide Base, StatusesOk, NoIdleCredit, AllUpToDate, Anniversary, MonthsBetween;
    var a :| 0 <= a < |l.allocations| && l.allocations[a].payment == p && l.allocations[a].invoice < |l.invoices|
             && l.invoices[l.allocations[a].invoice].subscription == s;
    assert OnAnniversary(l.subscriptions[s], l.invoices[l.allocations[a].invoice]);
  }

  /** A service none of whose invoices loses a payment is kept up to date by the allocation. */
  lemma UntouchedUpdates(l: Ledger, p: nat, s: nat)
    requires Inv(l) && p < |l.payments| && s < |l.subscriptions| && s !in TouchedOwners(l, p) && Ready(Reopened(l, p))
    requires forall i :: 0 <= i < |l.invoices| && !Touches(l, p, i) ==> Balance(Reopened(l, p), i) == Balance(l, i)
    ensures UpToDate(Allocate(Reopened(l, p)), s)
  {
    hide Base, PeriodsOk, StatusesOk, NoIdleCredit, Allocate, Balance, Anniversary, MonthsBetween, UpToDate;
    var l1 := Reopened(l, p);
    forall i | 0 <= i < |l.invoices| && l.invoices[i].subscription == s
      ensures !Touches(l, p, i)
    {
    }
    assert UpToDate(l, s);
    SameForUpToDate(l, l1, s);
    AllocateUpdates(l1, s);
  }

  lemma ReversalUpdates(l: Ledger, p: nat, s: nat)
    requires Inv(l) && p < |l.payments| && s < |l.subscriptions|
    requires !exists i :: 0 <= i < |l.invoices| && Touches(l, p, i) && HasRefund(l, i)
    ensures UpToDate(RefreshEach(Allocate(Reopened(l, p)), TouchedOwners(l, p)), s)
  {
    ReopenedReady(l, p);
    AllocateEffect(Reopened(l, p));
    SameActivations(l, p);
    if s in TouchedOwners(l, p) {
      hide *;
      TouchedIsActive(l, p, s);
      RefreshUpdates(Allocate(Reopened(l, p)), TouchedOwners(l, p), s);
    } else {
      hide *;
      UntouchedUpdates(l, p, s);
      RefreshUpdates(Allocate(Reopened(l, p)), TouchedOwners(l, p), s);
    }
  }

  lemma SameActivations(l: Ledger, p: nat)
    requires p < |l.payments|
    ensures var l' := Allocate(Reopened(l, p));
            |l'.subscriptions| == |l.subscriptions|
            && forall s :: 0 <= s < |l.subscriptions| ==> l'.subscriptions[s].activation == l.subscriptions[s].activation
  {
  }
}
