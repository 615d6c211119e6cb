/** `paid_until`: the walk of `_refresh_subscription` finds the end of the longest
    gap-free run of settled periods, and which changes leave that end alone. */
module LedgerCoverage {
  import opened Common
  import opened Calendar
  import opened LedgerModel
  import opened LedgerInvariant

  /* ---- the query's order ---- */

  predicate Follows(invoices: seq<Invoice>, x: nat, y: nat)
    requires x < |invoices| && y < |invoices|
  {
    !Before(invoices[y].start, invoices[x].start)
  }

  ghost predicate Sorted(invoices: seq<Invoice>, xs: seq<nat>)
    requires Keys(xs, |invoices|)
  {
    forall j, k :: 0 <= j < k < |xs| ==> xs[j] != xs[k] && Follows(invoices, xs[j], xs[k])
  }

  lemma {:induction false} InsertSorted(invoices: seq<Invoice>, xs: seq<nat>, k: nat)
    requires k < |invoices| && Keys(xs, |invoices|) && Sorted(invoices, xs) && k !in xs
    ensures var ys := InsertByStart(invoices, xs, k);
            Keys(ys, |invoices|) && Sorted(invoices, ys) && forall y :: y in ys <==> y == k || y in xs
  {
    if xs == [] || Before(invoices[k].start, invoices[xs[0]].start) {
      PrependSorted(invoices, xs, k);
    } else {
      hide Before;
      InsertSorted(invoices, xs[1..], k);
      var zs := InsertByStart(invoices, xs[1..], k);
      forall z | z in zs
        ensures z != xs[0] && Follows(invoices, xs[0], z)
      {
        if z != k {
          var j :| 0 <= j < |xs[1..]| && xs[1..][j] == z;
          assert xs[j + 1] == z;
        }
      }
      assert forall j :: 0 <= j < |zs| ==> zs[j] in zs;
      assert xs == [xs[0]] + xs[1..];
    }
  }

  lemma PrependSorted(invoices: seq<Invoice>, xs: seq<nat>, k: nat)
    requires k < |invoices| && Keys(xs, |invoices|) && Sorted(invoices, xs) && k !in xs
    requires xs == [] || Before(invoices[k].start, invoices[xs[0]].start)
    ensures Sorted(invoices, [k] + xs)
  {
    forall j | 0 < j < |xs| + 1
      ensures Follows(invoices, k, ([k] + xs)[j])
    {
      var x := xs[j - 1];
      if j > 1 { assert Follows(invoices, xs[0], x); }
      BeforeIsStrictOrder(invoices[x].start, invoices[k].start, invoices[xs[0]].start);
    }
  }

  /** The query returns each wanted row once, ordered by period start. */
  lemma {:induction false} ByStartSorted(invoices: seq<Invoice>, n: nat, s: Option<nat>)
    requires n <= |invoices|
    ensures Sorted(invoices, ByStart(invoices, n, s))
  {
    hide Follows, InsertByStart;
    if n > 0 {
      ByStartSorted(invoices, n - 1, s);
      var xs := ByStart(invoices, n - 1, s);
      assert n - 1 !in xs;
      if Wanted(invoices[n - 1], s) {
        InsertSorted(invoices, xs, n - 1);
      }
    }
  }

  /* ---- the walk ---- */

  /** The month of its subscription that an invoice bills. */
  function MonthOf(l: Ledger, i: nat): int
    requires i < |l.invoices| && l.invoices[i].subscription < |l.subscriptions|
    requires l.subscriptions[l.invoices[i].subscription].activation.Some?
  {
    MonthsBetween(l.subscriptions[l.invoices[i].subscription].activation.value, l.invoices[i].start)
  }

  /** Along the invoices of one subscription the months increase. */
  lemma MonthsIncrease(l: Ledger, s: nat, j: nat, k: nat)
    requires PeriodsOk(l) && s < |l.subscriptions| && j < k < |InvoicesOf(l, s)|
    ensures 0 <= MonthOf(l, InvoicesOf(l, s)[j]) < MonthOf(l, InvoicesOf(l, s)[k])
  {
    var ys := InvoicesOf(l, s);
    ByStartSorted(l.invoices, |l.invoices|, Some(s));
    var x, y := ys[j], ys[k];
    assert Follows(l.invoices, x, y) && x != y;
    assert !SamePeriod(l.invoices[x], l.invoices[y]);
    var activation := l.subscriptions[s].activation.value;
    AnniversaryOrder(activation, MonthOf(l, y), MonthOf(l, x));
  }

  /** If the first `m` invoices settle the first `m` months, the walk from there ends at the
      end of the longest run. */
  lemma {:induction false} WalkCovers(l: Ledger, s: nat, m: nat)
    requires PeriodsOk(l) && s < |l.subscriptions| && l.subscriptions[s].activation.Some?
    requires Valid(l.subscriptions[s].activation.value)
    requires m <= |InvoicesOf(l, s)|
    requires forall t :: 0 <= t < m ==> SettledBy(l, s, t, InvoicesOf(l, s)[t])
    ensures CoveredTo(l, s, Walk(l, InvoicesOf(l, s)[m..], Anniversary(l.subscriptions[s].activation.value, m)))
    decreases |InvoicesOf(l, s)| - m
  {
    hide Anniversary, MonthsBetween;
    var ys := InvoicesOf(l, s);
    var activation := l.subscriptions[s].activation.value;
    if m < |ys| && l.invoices[ys[m]].start == Anniversary(activation, m) && Balance(l, ys[m]) <= 0 {
      AnniversaryInverse(activation, m);
      assert SettledBy(l, s, m, ys[m]);
      assert ys[m..][1..] == ys[m + 1..];
      WalkCovers(l, s, m + 1);
    } else {
      RunEnds(l, s, m);
      forall k | 0 <= k < m
        ensures SettledPeriod(l, s, k)
      {
        assert SettledBy(l, s, k, ys[k]);
      }
      assert Covers(l, s, m);
    }
  }

  /** Where the walk stops, the month is not settled by any invoice. */
  lemma RunEnds(l: Ledger, s: nat, m: nat)
    requires PeriodsOk(l) && s < |l.subscriptions| && l.subscriptions[s].activation.Some?
    requires Valid(l.subscriptions[s].activation.value)
    requires m <= |InvoicesOf(l, s)|
    requires forall t :: 0 <= t < m ==> SettledBy(l, s, t, InvoicesOf(l, s)[t])
    requires m < |InvoicesOf(l, s)| ==>
               l.invoices[InvoicesOf(l, s)[m]].start != Anniversary(l.subscriptions[s].activation.value, m)
               || Balance(l, InvoicesOf(l, s)[m]) > 0
    ensures !SettledPeriod(l, s, m)
  {
    var ys := InvoicesOf(l, s);
    var activation := l.subscriptions[s].activation.value;
    hide Balance;
    AnniversaryInverse(activation, m);
    forall i | 0 <= i < |l.invoices|
      ensures !SettledBy(l, s, m, i)
    {
      if Wanted(l.invoices[i], Some(s)) {
        var t :| 0 <= t < |ys| && ys[t] == i;
        if t < m {
          AnniversaryInjective(activation, t, m);
        } else {
          MonthAtLeast(l, s, m);
          if t > m {
            MonthsIncrease(l, s, m, t);
          }
        }
      }
    }
  }

  /** After `m` settled months the next invoice bills month `m` or a later one. */
  lemma MonthAtLeast(l: Ledger, s: nat, m: nat)
    requires PeriodsOk(l) && s < |l.subscriptions| && l.subscriptions[s].activation.Some?
    requires Valid(l.subscriptions[s].activation.value)
    requires m < |InvoicesOf(l, s)|
    requires forall t :: 0 <= t < m ==> SettledBy(l, s, t, InvoicesOf(l, s)[t])
    ensures m <= MonthOf(l, InvoicesOf(l, s)[m])
  {
    hide Balance;
    if m > 0 {
      MonthsIncrease(l, s, m - 1, m);
      assert SettledBy(l, s, m - 1, InvoicesOf(l, s)[m - 1]);
      AnniversaryInverse(l.subscriptions[s].activation.value, m - 1);
    }
  }

  /** A refresh stores the end of the longest gap-free run of settled periods. */
  lemma RefreshedIsUpToDate(l: Ledger, s: nat)
    requires PeriodsOk(l) && s < |l.subscriptions| && l.subscriptions[s].activation.Some?
    requires Valid(l.subscriptions[s].activation.value)
    ensures CoveredTo(l, s, Refreshed(l, s).paidUntil.value)
  {
    var ys := InvoicesOf(l, s);
    assert ys[0..] == ys;
    AnniversaryInverse(l.subscriptions[s].activation.value, 0);
    WalkCovers(l, s, 0);
  }

  /** The run is unique, so a stored end that is up to date is what a full recomputation gives. */
  lemma UpToDateIsRecomputed(l: Ledger, s: nat)
    requires PeriodsOk(l) && s < |l.subscriptions| && l.subscriptions[s].activation.Some? && UpToDate(l, s)
    ensures l.subscriptions[s] == Refreshed(l, s)
  {
    RefreshedIsUpToDate(l, s);
    var activation := l.subscriptions[s].activation.value;
    var n: nat :| Covers(l, s, n) && l.subscriptions[s].paidUntil.value == Anniversary(activation, n);
    var m: nat :| Covers(l, s, m) && Refreshed(l, s).paidUntil.value == Anniversary(activation, m);
    CoversOnce(l, s, n, m);
  }

  lemma CoversBelow(l: Ledger, s: nat, n: nat, k: nat)
    requires s < |l.subscriptions| && l.subscriptions[s].activation.Some? && Covers(l, s, n)
    ensures k < n ==> SettledPeriod(l, s, k)
  {
  }

  lemma CoversOnce(l: Ledger, s: nat, n: nat, m: nat)
    requires s < |l.subscriptions| && l.subscriptions[s].activation.Some? && Covers(l, s, n) && Covers(l, s, m)
    ensures n == m
  {
    CoversBelow(l, s, m, n);
    CoversBelow(l, s, n, m);
  }

  /* ---- which changes matter ---- */

  /** Every period of `s` settled in `l` is settled in `l'`. */
  ghost predicate KeepsSettled(l: Ledger, l': Ledger, s: nat)
    requires s < |l.subscriptions| && l.subscriptions[s].activation.Some?
    requires s < |l'.subscriptions| && l'.subscriptions[s].activation.Some?
  {
    forall k: int :: SettledPeriod(l, s, k) ==> SettledPeriod(l', s, k)
  }

  lemma UpToDateFrame(l: Ledger, l': Ledger, s: nat)
    requires s < |l.subscriptions| && s < |l'.subscriptions| && l'.subscriptions[s] == l.subscriptions[s]
    requires UpToDate(l, s)
    requires l.subscriptions[s].activation.Some? ==> KeepsSettled(l, l', s) && KeepsSettled(l', l, s)
    ensures UpToDate(l', s)
  {
    if l.subscriptions[s].activation.Some? {
      var n: nat :| Covers(l, s, n) && l.subscriptions[s].paidUntil.value == Anniversary(l.subscriptions[s].activation.value, n);
      assert Covers(l', s, n);
    }
  }

  /** When no settled period is lost, the stored end does not move back. */
  lemma CoverageGrows(l: Ledger, l': Ledger, s: nat)
    requires s < |l.subscriptions| && s < |l'.subscriptions|
    requires l.subscriptions[s].activation.Some? && l'.subscriptions[s].activation == l.subscriptions[s].activation
    requires UpToDate(l, s) && UpToDate(l', s) && KeepsSettled(l, l', s)
    ensures !Before(l'.subscriptions[s].paidUntil.value, l.subscriptions[s].paidUntil.value)
  {
    var activation := l.subscriptions[s].activation.value;
    var n: nat :| Covers(l, s, n) && l.subscriptions[s].paidUntil.value == Anniversary(activation, n);
    var m: nat :| Covers(l', s, m) && l'.subscriptions[s].paidUntil.value == Anniversary(activation, m);
    CoversBelow(l, s, n, m);
    AnniversaryOrder(activation, m, n);
  }
}
