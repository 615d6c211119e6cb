/** `_allocate_customer` as a whole: what the outer loop does, and in which order money goes. */
module LedgerSettle {
  import opened Common
  import opened LedgerModel
  import opened LedgerInvariant

  lemma MarkKeepsBase(l: Ledger, i: nat, status: InvoiceStatus)
    requires Base(l) && i < |l.invoices|
    ensures Base(MarkInvoice(l, i, status))
    ensures forall j :: 0 <= j < |l.invoices| ==> Balance(MarkInvoice(l, i, status), j) == Balance(l, j)
  {
    var l' := MarkInvoice(l, i, status);
    forall j | 0 <= j < |l'.invoices|
      ensures PaidAmount(l', j) <= l'.invoices[j].total && (HasRefund(l', j) ==> Balance(l', j) <= 0)
    {
      assert HasRefund(l', j) == HasRefund(l, j);
    }
    forall a | 0 <= a < |l'.allocations|
      ensures l'.allocations[a].amount <= FiscalBalanceBefore(l', a)
    {
      assert FiscalBalanceBefore(l', a) == FiscalBalanceBefore(l, a);
    }
  }

  /** What settling the open invoices `xs` from payments `ps` did. */
  ghost predicate SettledFrom(l: Ledger, l': Ledger, xs: seq<nat>, ps: seq<nat>)
    requires Keys(ps, |l.payments|)
  {
    && l' == l.(allocations := l'.allocations, invoices := l'.invoices)
    && |l'.invoices| == |l.invoices|
    && (forall j :: 0 <= j < |l.invoices| ==> l'.invoices[j] == l.invoices[j].(status := l'.invoices[j].status))
    && (forall j :: 0 <= j < |l.invoices| ==> Balance(l', j) <= Balance(l, j))
    && (forall j :: 0 <= j < |l.invoices| && j !in xs ==>
          l'.invoices[j] == l.invoices[j] && Balance(l', j) == Balance(l, j))
    && (forall j :: 0 <= j < |l.invoices| && j in xs ==>
          l'.invoices[j].status == if Balance(l', j) <= 0 then Paid else Open)
    && (forall p :: 0 <= p < |l.payments| ==> Available(l', p) <= Available(l, p))
    && (forall j :: 0 <= j < |l.invoices| && j in xs && Balance(l', j) > 0 ==>
          forall k :: 0 <= k < |ps| ==> Available(l', ps[k]) <= 0)
  }

  lemma SettleInvoiceEffect(l: Ledger, i: nat, ps: seq<nat>)
    requires Base(l) && i < |l.invoices| && Spendable(l, ps)
    ensures Base(SettleInvoice(l, i, ps))
    ensures SettledFrom(l, SettleInvoice(l, i, ps), [i], ps)
    ensures Balance(SettleInvoice(l, i, ps), i) ==
            if Balance(l, i) <= 0 then Balance(l, i) else Max(Balance(l, i) - CreditOf(l, ps), 0)
  {
    hide Base, PayFrom, PaidIn, UsedIn;
    var l1 := PayFrom(l, i, ps);
    PayFromKeepsBase(l, i, ps);
    PayFromEffect(l, i, ps);
    CreditNonNegative(l, ps);
    MarkKeepsBase(l1, i, if Balance(l1, i) <= 0 then Paid else Open);
  }

  lemma {:induction false} SettleAllEffect(l: Ledger, xs: seq<nat>, ps: seq<nat>)
    requires Base(l) && Keys(xs, |l.invoices|) && Spendable(l, ps)
    ensures Base(SettleAll(l, xs, ps))
    ensures SettledFrom(l, SettleAll(l, xs, ps), xs, ps)
    decreases |xs|
  {
    if xs != [] {
      var l1 := SettleInvoice(l, xs[0], ps);
      SettleInvoiceEffect(l, xs[0], ps);
      SettleAllEffect(l1, xs[1..], ps);
      SettledFromStep(l, l1, SettleAll(l, xs, ps), xs, ps);
    }
  }

  lemma SettledFromStep(l: Ledger, l1: Ledger, l': Ledger, xs: seq<nat>, ps: seq<nat>)
    requires Keys(ps, |l.payments|) && Keys(xs, |l.invoices|) && xs != []
    requires SettledFrom(l, l1, [xs[0]], ps) && SettledFrom(l1, l', xs[1..], ps)
    ensures SettledFrom(l, l', xs, ps)
  {
    assert xs == [xs[0]] + xs[1..];
    assert forall k :: 0 <= k < |ps| ==> Available(l', ps[k]) <= Available(l1, ps[k]);
  }

  lemma LiveIsSpendable(l: Ledger)
    ensures Spendable(l, Live(l))
  {
  }

  /** After an allocation each invoice it found open is paid or still owes, and no credit is
      left beside a debt. */
  lemma SettledEffect(l: Ledger)
    requires Base(l)
    requires forall i :: 0 <= i < |l.invoices| && l.invoices[i].status == Paid ==> Balance(l, i) <= 0
    ensures var l' := Settled(l);
            Base(l') && SettledFrom(l, l', OpenOrder(l), Live(l)) && StatusesOk(l') && NoIdleCredit(l')
  {
    hide PaidIn, UsedIn, CreditedAll, RefundedIn, SettleAll, Base;
    var l' := Settled(l);
    LiveIsSpendable(l);
    SettleAllEffect(l, OpenOrder(l), Live(l));
    forall i | 0 <= i < |l'.invoices| && l'.invoices[i].status != Void
      ensures l'.invoices[i].status == Paid <==> Balance(l', i) <= 0
    {
      assert i in OpenOrder(l) || l.invoices[i].status != Open;
    }
    forall i, p | 0 <= i < |l'.invoices| && l'.invoices[i].status == Open && 0 <= p < |l'.payments|
      ensures Available(l', p) <= 0
    {
      assert i in OpenOrder(l);
      if !l.payments[p].reversed {
        assert p in Live(l);
      }
    }
  }

  /* ---- oldest charge first, oldest payment first ---- */

  lemma {:induction false} NothingLeftToPay(l: Ledger, xs: seq<nat>, ps: seq<nat>)
    requires Base(l) && Keys(xs, |l.invoices|) && Spendable(l, ps) && CreditOf(l, ps) == 0
    ensures forall j :: 0 <= j < |l.invoices| ==> Balance(SettleAll(l, xs, ps), j) == Balance(l, j)
    decreases |xs|
  {
    hide Base, Balance;
    if xs != [] {
      SettleInvoiceEffect(l, xs[0], ps);
      var l1 := SettleInvoice(l, xs[0], ps);
      CreditNonNegative(l, ps);
      CreditNonNegative(l1, ps);
      NothingAvailable(l1, ps);
      NothingLeftToPay(l1, xs[1..], ps);
    }
  }

  lemma {:induction false} NothingAvailable(l: Ledger, ps: seq<nat>)
    requires Keys(ps, |l.payments|) && forall k :: 0 <= k < |ps| ==> Available(l, ps[k]) <= 0
    ensures CreditOf(l, ps) <= 0
  {
    if ps != [] {
      assert forall k :: 0 <= k < |ps[1..]| ==> ps[1..][k] == ps[k + 1];
      NothingAvailable(l, ps[1..]);
    }
  }

  /** Money reaches a charge only when every older charge in the queue is settled. */
  lemma {:induction false} OldestChargeFirst(l: Ledger, xs: seq<nat>, ps: seq<nat>, a: nat, b: nat)
    requires Base(l) && Keys(xs, |l.invoices|) && Spendable(l, ps) && a < b < |xs|
    requires forall j, k :: 0 <= j < k < |xs| ==> xs[j] != xs[k]
    ensures var l' := SettleAll(l, xs, ps);
            Balance(l', xs[b]) < Balance(l, xs[b]) ==> Balance(l', xs[a]) <= 0
    decreases |xs|
  {
    hide Base, Balance, PaidIn, UsedIn, SettleInvoice;
    var l1 := SettleInvoice(l, xs[0], ps);
    SettleInvoiceEffect(l, xs[0], ps);
    SettleAllEffect(l1, xs[1..], ps);
    assert xs[1..][b - 1] == xs[b];
    if a > 0 {
      assert xs[1..][a - 1] == xs[a];
      OldestChargeFirst(l1, xs[1..], ps, a - 1, b - 1);
    } else if Balance(l1, xs[0]) > 0 {
      NothingAvailable(l1, ps);
      CreditNonNegative(l1, ps);
      NothingLeftToPay(l1, xs[1..], ps);
    } else {
      assert xs[0] !in xs[1..];
    }
  }

  /** A payment is used for a charge only when every older payment is used up. */
  lemma {:induction false} OldestPaymentFirst(l: Ledger, i: nat, ps: seq<nat>, a: nat, b: nat)
    requires Base(l) && i < |l.invoices| && Spendable(l, ps) && a < b < |ps|
    ensures var l' := PayFrom(l, i, ps);
            Available(l', ps[b]) < Available(l, ps[b]) ==> Available(l', ps[a]) <= 0
    decreases |ps|
  {
    hide Base, UsedIn, PaidIn;
    if Balance(l, i) > 0 {
      var l1 := PayOnce(l, i, ps[0]);
      PayOnceEffect(l, i, ps[0]);
      assert ps[1..][b - 1] == ps[b];
      PayFromEffect(l1, i, ps[1..]);
      if a > 0 {
        assert ps[1..][a - 1] == ps[a];
        OldestPaymentFirst(l1, i, ps[1..], a - 1, b - 1);
      } else if Balance(l1, i) <= 0 {
        assert PayFrom(l1, i, ps[1..]) == l1;
      }
    }
  }
}
