/** The ledger as the database updates it: tables changed row by row inside one transaction. */
module LedgerBook {
  import opened Common
  import opened Calendar
  import opened LedgerModel
  import opened LedgerInvariant

  /** Foreign keys point at rows. */
  ghost predicate Linked(l: Ledger) {
    && (forall i :: 0 <= i < |l.invoices| ==> l.invoices[i].subscription < |l.subscriptions|)
    && (forall a :: 0 <= a < |l.allocations| ==>
          l.allocations[a].payment < |l.payments| && l.allocations[a].invoice < |l.invoices|)
  }

  /** What `affected` collects over the first `n` allocations of payment `p`. */
  function OwnersSeen(l: Ledger, p: nat, n: nat): set<nat>
    requires n <= |l.allocations|
  {
    set a | 0 <= a < n && l.allocations[a].payment == p && l.allocations[a].invoice < |l.invoices|
      :: l.invoices[l.allocations[a].invoice].subscription
  }

  /** Among the first `n` allocations, one from payment `p` to invoice `i`. */
  predicate TouchesBefore(l: Ledger, p: nat, i: nat, n: nat)
    requires n <= |l.allocations|
  {
    exists a :: 0 <= a < n && l.allocations[a].payment == p && l.allocations[a].invoice == i
  }

  function ReopenedBefore(l: Ledger, p: nat, i: nat, n: nat): Invoice
    requires i < |l.invoices| && n <= |l.allocations|
  {
    if TouchesBefore(l, p, i, n) && l.invoices[i].status != Void then l.invoices[i].(status := Open) else l.invoices[i]
  }

  class PrepaidLedger {
    var clock: int
    var subscriptions: seq<Subscription>
    var invoices: seq<Invoice>
    var payments: seq<Payment>
    var allocations: seq<Allocation>
    var memos: seq<Memo>
    var refunds: seq<Refund>

    function View(): Ledger
      reads this
    {
      Ledger(clock, subscriptions, invoices, payments, allocations, memos, refunds)
    }

    constructor ()
      ensures View() == Ledger(0, [], [], [], [], [], [])
    {
      clock, subscriptions, invoices, payments := 0, [], [], [];
      allocations, memos, refunds := [], [], [];
    }

    /** `_refresh_subscription`: the stored end becomes where the walk over the invoices stops. */
    method RefreshSubscription(s: nat)
      requires s < |subscriptions|
      modifies this`subscriptions
      ensures View() == old(View()).(subscriptions := old(subscriptions)[s := Refreshed(old(View()), s)])
    {
      if subscriptions[s].activation.None? {
        return;
      }
      var cursor := subscriptions[s].activation.value;
      var xs := InvoicesOf(View(), s);
      var k := 0;
      while k < |xs| && invoices[xs[k]].start == cursor && Balance(View(), xs[k]) <= 0
        invariant k <= |xs|
        invariant View() == old(View())
        invariant Walk(View(), xs[k..], cursor) == Walk(View(), xs, subscriptions[s].activation.value)
      {
        cursor := invoices[xs[k]].end;
        assert xs[k..][1..] == xs[k + 1..];
        k := k + 1;
      }
      subscriptions := subscriptions[s := subscriptions[s].(paidUntil := Some(cursor))];
    }

    /** Refreshes every affected subscription, in whatever order the set gives them. */
    method RefreshAffected(affected: set<nat>)
      requires forall s :: s in affected ==> s < |subscriptions|
      modifies this`subscriptions
      ensures View() == RefreshEach(old(View()), affected)
    {
      var left := affected;
      while left != {}
        invariant left <= affected
        invariant View() == RefreshEach(old(View()), affected - left)
        decreases |left|
      {
        var s :| s in left;
        assert Refreshed(View(), s).paidUntil == Refreshed(old(View()), s).paidUntil by {
          SameWalk(old(View()), View(), s);
        }
        RefreshSubscription(s);
        left := left - {s};
        assert subscriptions == RefreshEach(old(View()), affected - left).subscriptions;
      }
      assert affected - {} == affected;
    }

    /** The inner loop of `_allocate_customer`: the payments pay what they can of one invoice. */
    method PayInvoice(i: nat, ps: seq<nat>)
      requires Linked(View()) && i < |invoices| && Spendable(View(), ps)
      modifies this`allocations, this`invoices
      ensures Linked(View())
      ensures View() == SettleInvoice(old(View()), i, ps) && SameOwners(old(View()), View())
    {
      hide PaidIn, UsedIn, CreditedAll, RefundedIn, PayFrom, Balance;
      var remaining := Balance(View(), i);
      var k := 0;
      var done := false;
      while k < |ps| && !done
        invariant k <= |ps|
        invariant View() == old(View()).(allocations := allocations)
        invariant Linked(View()) && remaining == Balance(View(), i)
        invariant done ==> remaining <= 0
        invariant PayFrom(View(), i, ps[k..]) == PayFrom(old(View()), i, ps)
        decreases |ps| - k, !done
      {
        ghost var before := View();
        var applied := Min(remaining, Available(View(), ps[k]));
        if applied > 0 {
          allocations := allocations + [Allocation(ps[k], i, applied, clock)];
          AllocationMoves(before, ps[k], i, applied);
          remaining := remaining - applied;
        }
        PayStep(before, View(), i, ps, k);
        done := remaining <= 0;
        k := k + 1;
      }
      PaymentsOver(View(), i, ps[k..]);
      invoices := invoices[i := invoices[i].(status := if remaining <= 0 then Paid else Open)];
    }

    /** `_allocate_customer`: open invoices oldest first, then the end of every service touched. */
    method AllocateCustomer()
      requires Linked(View())
      modifies this`allocations, this`invoices, this`subscriptions
      ensures Linked(View())
      ensures View() == Allocate(old(View()))
    {
      hide SettleInvoice, Balance, ByStart, LivePayments;
      var xs, ps := OpenOrder(View()), Live(View());
      var affected: set<nat> := {};
      var k := 0;
      while k < |xs|
        invariant k <= |xs|
        invariant View() == old(View()).(allocations := allocations, invoices := invoices)
        invariant Linked(View()) && SameOwners(old(View()), View())
        invariant affected == Owners(old(View()), xs[..k])
        invariant SettleAll(View(), xs[k..], ps) == SettleAll(old(View()), xs, ps)
      {
        ghost var before := View();
        PayInvoice(xs[k], ps);
        affected := affected + {invoices[xs[k]].subscription};
        assert xs[k..][1..] == xs[k + 1..];
        OwnersNext(old(View()), xs, k);
        k := k + 1;
      }
      assert xs[..k] == xs;
      assert View() == Settled(old(View()));
      RefreshAffected(affected);
    }

    /** `receive_payment`, once its amount is checked. */
    method Receive(amount: int) returns (accepted: bool)
      requires Linked(View())
      modifies this
      ensures Linked(View())
      ensures accepted == ReceivePayment(old(View()), amount).Ok?
      ensures View() == if accepted then ReceivePayment(old(View()), amount).value else old(View())
    {
      if !Money(amount) {
        return false;
      }
      payments := payments + [Payment(amount, false)];
      AllocateCustomer();
      accepted := true;
    }

    /** Reopens every invoice payment `p` reached, and says whose they are. */
    method ReopenTouched(p: nat) returns (ids: set<nat>)
      requires Linked(View())
      modifies this`invoices
      ensures View() == old(View()).(invoices := invoices) && |invoices| == |old(invoices)|
      ensures forall i | 0 <= i < |invoices| :: invoices[i] == ReopenedBefore(old(View()), p, i, |allocations|)
      ensures ids == OwnersSeen(old(View()), p, |allocations|)
    {
      ids := {};
      var a := 0;
      while a < |allocations|
        invariant a <= |allocations|
        invariant View() == old(View()).(invoices := invoices) && |invoices| == |old(invoices)|
        invariant forall i | 0 <= i < |invoices| :: invoices[i] == ReopenedBefore(old(View()), p, i, a)
        invariant ids == OwnersSeen(old(View()), p, a)
      {
        if allocations[a].payment == p {
          var i := allocations[a].invoice;
          if invoices[i].status != Void {
            invoices := invoices[i := invoices[i].(status := Open)];
          }
          ids := ids + {invoices[i].subscription};
        }
        OwnersSeenNext(old(View()), p, a);
        TouchesNext(old(View()), p, a);
        a := a + 1;
      }
    }

    /** `reverse_payment`: reopens every invoice the payment reached and allocates again. */
    method Reverse(p: nat) returns (accepted: bool)
      requires Linked(View())
      modifies this
      ensures Linked(View())
      ensures accepted == ReversePayment(old(View()), p).Ok?
      ensures View() == if accepted then ReversePayment(old(View()), p).value else old(View())
    {
      hide Allocate, Touches, HasRefund;
      if p >= |payments| {
        return false;
      }
      if payments[p].reversed {
        return true;
      }
      if exists i :: 0 <= i < |invoices| && Touches(View(), p, i) && HasRefund(View(), i) {
        return false;
      }
      payments := payments[p := payments[p].(reversed := true)];
      ghost var marked := View();
      var ids := ReopenTouched(p);
      AllTouched(old(View()), p);
      ReopenedInTurn(old(View()), marked, View(), p);
      AllocateCustomer();
      RefreshAffected(ids);
      accepted := true;
    }

    /** `issue_credit_memo`. */
    method IssueMemo(i: nat, amount: int) returns (accepted: bool)
      requires Linked(View())
      modifies this
      ensures Linked(View())
      ensures accepted == IssueCreditMemo(old(View()), i, amount).Ok?
      ensures View() == if accepted then IssueCreditMemo(old(View()), i, amount).value else old(View())
    {
      hide Refreshed, PaidIn, CreditedAll, RefundedIn;
      if !Money(amount) || i >= |invoices| || invoices[i].status == Void {
        return false;
      }
      clock := clock + 1;
      memos := memos + [Memo(i, amount, clock)];
      invoices := invoices[i := invoices[i].(status := if Balance(View(), i) <= 0 then Paid else Open)];
      RefreshAffected({invoices[i].subscription});
      accepted := true;
    }

    /** `refund_credit`. */
    method RecordRefund(m: nat, amount: int) returns (accepted: bool)
      modifies this
      ensures accepted == RefundCredit(old(View()), m, amount).Ok?
      ensures View() == if accepted then RefundCredit(old(View()), m, amount).value else old(View())
    {
      if !Money(amount) || m >= |memos| || memos[m].invoice >= |invoices| {
        return false;
      }
      var already := RefundedOfMemo(refunds, m);
      if amount > memos[m].amount - already || amount > Max(-Balance(View(), memos[m].invoice), 0) {
        return false;
      }
      refunds := refunds + [Refund(m, amount)];
      accepted := true;
    }

    /** `create_period`: answers with the invoice of the period, billing it when it is new. */
    method BillPeriod(s: nat, start: Date, end: Date, price: int) returns (invoice: Option<nat>)
      requires Linked(View())
      modifies this
      ensures Linked(View())
      ensures invoice.Some? == CreatePeriod(old(View()), s, start, end, price).Ok?
      ensures invoice.Some? ==> Billed(View(), invoice.value) == CreatePeriod(old(View()), s, start, end, price).value
      ensures invoice.None? ==> View() == old(View())
    {
      hide Anniversary, MonthsBetween, Allocate, FindPeriod;
      if s >= |subscriptions| || subscriptions[s].activation.None? || subscriptions[s].status == Pending {
        return None;
      }
      var activation := subscriptions[s].activation.value;
      var index := MonthsBetween(activation, start);
      if index < 0 || start != Anniversary(activation, index) || end != Anniversary(activation, index + 1) {
        return None;
      }
      var existing := FindPeriod(invoices, |invoices|, s, start);
      if existing.Some? {
        return existing;
      }
      if !Money(price) {
        return None;
      }
      invoice := Some(|invoices|);
      invoices := invoices + [Invoice(s, start, end, price, Open)];
      AllocateCustomer();
    }

    /** The credit of the customer: what the live payments still have. */
    method LiveCredit() returns (credit: int)
      ensures credit == CreditOf(View(), Live(View()))
    {
      var ps := Live(View());
      var k: nat := |ps|;
      credit := 0;
      while k > 0
        invariant k <= |ps| && credit == CreditOf(View(), ps[k..])
      {
        k := k - 1;
        assert ps[k..][1..] == ps[k + 1..];
        credit := credit + Available(View(), ps[k]);
      }
      assert ps[0..] == ps;
    }

    /** `renew_subscription`. */
    method Renew(s: nat, price: int) returns (invoice: Option<nat>)
      requires Linked(View())
      modifies this
      ensures Linked(View())
      ensures invoice.Some? == RenewSubscription(old(View()), s, price).Ok?
      ensures invoice.Some? ==> Billed(View(), invoice.value) == RenewSubscription(old(View()), s, price).value
      ensures invoice.None? ==> View() == old(View())
    {
      hide CreatePeriod, Anniversary, MonthsBetween, CreditOf;
      if s >= |subscriptions| || subscriptions[s].activation.None? || subscriptions[s].status == Cancelled {
        return None;
      }
      var xs := InvoicesOf(View(), s);
      if xs == [] || Balance(View(), xs[|xs| - 1]) > 0 {
        return None;
      }
      var credit := LiveCredit();
      if credit < price {
        return None;
      }
      var activation := subscriptions[s].activation.value;
      var start := invoices[xs[|xs| - 1]].end;
      invoice := BillPeriod(s, start, Anniversary(activation, MonthsBetween(activation, start) + 1), price);
    }
  }

  /* ---- the loops ---- */

  /** A walk reads no stored end. */
  lemma SameWalk(l: Ledger, l': Ledger, s: nat)
    requires s < |l.subscriptions| && l' == l.(subscriptions := l'.subscriptions) && |l'.subscriptions| == |l.subscriptions|
    requires l'.subscriptions[s].activation == l.subscriptions[s].activation
    requires l'.subscriptions[s].activation.None? ==> l'.subscriptions[s] == l.subscriptions[s]
    ensures Refreshed(l', s).paidUntil == Refreshed(l, s).paidUntil
  {
    if l.subscriptions[s].activation.Some? {
      SameWalkFrom(l, l', InvoicesOf(l, s), l.subscriptions[s].activation.value);
    }
  }

  lemma {:induction false} SameWalkFrom(l: Ledger, l': Ledger, xs: seq<nat>, cursor: Date)
    requires Keys(xs, |l.invoices|) && l' == l.(subscriptions := l'.subscriptions)
    ensures Walk(l', xs, cursor) == Walk(l, xs, cursor)
  {
    if xs != [] {
      assert Balance(l', xs[0]) == Balance(l, xs[0]);
      SameWalkFrom(l, l', xs[1..], l.invoices[xs[0]].end);
    }
  }

  /** The inner loop does one step of `PayFrom`, whether or not the invoice still owes something. */
  lemma PayStep(l: Ledger, l': Ledger, i: nat, ps: seq<nat>, k: nat)
    requires i < |l.invoices| && Keys(ps, |l.payments|) && k < |ps|
    requires l' == PayOnce(l, i, ps[k])
    ensures PayFrom(l', i, ps[k + 1..]) == PayFrom(l, i, ps[k..])
  {
    hide Balance, Available;
    assert ps[k..][1..] == ps[k + 1..];
    if Balance(l, i) <= 0 {
      assert Min(Balance(l, i), Available(l, ps[k])) <= 0;
      assert PayFrom(l, i, ps[k + 1..]) == l;
    }
  }

  lemma PaymentsOver(l: Ledger, i: nat, ps: seq<nat>)
    requires i < |l.invoices| && Keys(ps, |l.payments|) && (ps == [] || Balance(l, i) <= 0)
    ensures PayFrom(l, i, ps) == l
  {
  }

  ghost predicate SameOwners(l: Ledger, l': Ledger) {
    |l'.invoices| == |l.invoices| && forall j :: 0 <= j < |l.invoices| ==> l'.invoices[j].subscription == l.invoices[j].subscription
  }

  lemma OwnersNext(l: Ledger, xs: seq<nat>, k: nat)
    requires Keys(xs, |l.invoices|) && k < |xs|
    ensures Owners(l, xs[..k + 1]) == Owners(l, xs[..k]) + {l.invoices[xs[k]].subscription}
  {
    assert xs[..k + 1] == xs[..k] + [xs[k]];
  }

  lemma OwnersSeenNext(l: Ledger, p: nat, a: nat)
    requires a < |l.allocations| && l.allocations[a].invoice < |l.invoices|
    ensures OwnersSeen(l, p, a + 1) == OwnersSeen(l, p, a)
            + if l.allocations[a].payment == p then {l.invoices[l.allocations[a].invoice].subscription} else {}
  {
    var next := OwnersSeen(l, p, a + 1);
    if l.allocations[a].payment == p {
      assert l.invoices[l.allocations[a].invoice].subscription in next;
    }
  }

  lemma TouchesNext(l: Ledger, p: nat, a: nat)
    requires a < |l.allocations|
    ensures forall i: nat :: TouchesBefore(l, p, i, a + 1) <==>
              TouchesBefore(l, p, i, a) || (l.allocations[a].payment == p && l.allocations[a].invoice == i)
  {
    var x := l.allocations[a];
    forall i: nat
      ensures TouchesBefore(l, p, i, a + 1) <==> TouchesBefore(l, p, i, a) || (x.payment == p && x.invoice == i)
    {
      if TouchesBefore(l, p, i, a) {
        var b :| 0 <= b < a && l.allocations[b].payment == p && l.allocations[b].invoice == i;
        assert 0 <= b < a + 1 && l.allocations[b].payment == p && l.allocations[b].invoice == i;
        assert TouchesBefore(l, p, i, a + 1);
      } else if TouchesBefore(l, p, i, a + 1) {
        var b :| 0 <= b < a + 1 && l.allocations[b].payment == p && l.allocations[b].invoice == i;
        assert b == a;
      } else {
        assert !(l.allocations[a].payment == p && l.allocations[a].invoice == i);
      }
    }
  }

  lemma ReopenedInTurn(l: Ledger, marked: Ledger, l': Ledger, p: nat)
    requires p < |l.payments| && marked == l.(payments := l.payments[p := l.payments[p].(reversed := true)])
    requires l' == marked.(invoices := l'.invoices) && |l'.invoices| == |l.invoices|
    requires forall i | 0 <= i < |l.invoices| :: l'.invoices[i] == ReopenedBefore(marked, p, i, |l.allocations|)
    ensures l' == Reopened(l, p)
    ensures OwnersSeen(marked, p, |l.allocations|) == TouchedOwners(l, p)
  {
    AllTouched(marked, p);
    assert forall i: nat :: Touches(marked, p, i) <==> Touches(l, p, i);
    assert l'.invoices == Reopened(l, p).invoices;
  }

  lemma AllTouched(l: Ledger, p: nat)
    ensures forall i: nat :: TouchesBefore(l, p, i, |l.allocations|) <==> Touches(l, p, i)
    ensures OwnersSeen(l, p, |l.allocations|) == TouchedOwners(l, p)
  {
  }
}
