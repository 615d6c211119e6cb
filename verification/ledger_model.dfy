/** The prepaid ledger of one customer (billing/services.py, billing/models.py): rows,
    the sums the rows define, and every operation as a function on the rows.
    Amounts are integer cents; a row's key is its position. */
module LedgerModel {
  import opened Common
  import opened Calendar

  datatype SubscriptionStatus = Pending | Active | Suspended | Cancelled

  datatype Subscription = Subscription(activation: Option<Date>, status: SubscriptionStatus, paidUntil: Option<Date>)

  datatype InvoiceStatus = Open | Paid | Void

  datatype Invoice = Invoice(subscription: nat, start: Date, end: Date, total: int, status: InvoiceStatus)

  datatype Payment = Payment(amount: int, reversed: bool)

  /** `at` is the creation time of the row; see `Ledger.clock`. */
  datatype Allocation = Allocation(payment: nat, invoice: nat, amount: int, at: int)

  datatype Memo = Memo(invoice: nat, amount: int, at: int)

  datatype Refund = Refund(memo: nat, amount: int)

  /** `clock` orders the transactions: a memo gets a time after every earlier row. */
  datatype Ledger = Ledger(clock: int, subscriptions: seq<Subscription>, invoices: seq<Invoice>,
                           payments: seq<Payment>, allocations: seq<Allocation>,
                           memos: seq<Memo>, refunds: seq<Refund>)

  datatype Refusal =
    | NoSuchRow | BadAmount | NotActivated | WrongPeriod | VoidInvoice | CurrentUnpaid | NoCredit
    | RefundedCharge | ExceedsRefundable

  datatype Result<+T> = Ok(value: T) | Err(error: Refusal)

  /** `money`: positive, and below ten thousand million pesos. */
  predicate Money(cents: int) { 0 < cents < 1_000_000_000_000 }

  /* ---- the sums behind `paid_amount`, `balance` and `available` ---- */

  function PaidIn(allocations: seq<Allocation>, payments: seq<Payment>, i: nat): int {
    if allocations == [] then 0
    else
      var a := allocations[|allocations| - 1];
      PaidIn(allocations[..|allocations| - 1], payments, i)
      + if a.invoice == i && a.payment < |payments| && !payments[a.payment].reversed then a.amount else 0
  }

  function UsedIn(allocations: seq<Allocation>, p: nat): int {
    if allocations == [] then 0
    else
      var a := allocations[|allocations| - 1];
      UsedIn(allocations[..|allocations| - 1], p) + if a.payment == p then a.amount else 0
  }

  function CreditedAll(memos: seq<Memo>, i: nat): int {
    if memos == [] then 0
    else
      var m := memos[|memos| - 1];
      CreditedAll(memos[..|memos| - 1], i) + if m.invoice == i then m.amount else 0
  }

  /** Credits of invoice `i` issued no later than `at`. */
  function CreditedIn(memos: seq<Memo>, i: nat, at: int): int {
    if memos == [] then 0
    else
      var m := memos[|memos| - 1];
      CreditedIn(memos[..|memos| - 1], i, at) + if m.invoice == i && m.at <= at then m.amount else 0
  }

  function RefundedIn(refunds: seq<Refund>, memos: seq<Memo>, i: nat): int {
    if refunds == [] then 0
    else
      var r := refunds[|refunds| - 1];
      RefundedIn(refunds[..|refunds| - 1], memos, i)
      + if r.memo < |memos| && memos[r.memo].invoice == i then r.amount else 0
  }

  function RefundedOfMemo(refunds: seq<Refund>, m: nat): int {
    if refunds == [] then 0
    else
      var r := refunds[|refunds| - 1];
      RefundedOfMemo(refunds[..|refunds| - 1], m) + if r.memo == m then r.amount else 0
  }

  function PaidAmount(l: Ledger, i: nat): int { PaidIn(l.allocations, l.payments, i) }

  function Credited(l: Ledger, i: nat): int { CreditedAll(l.memos, i) }

  function Refunded(l: Ledger, i: nat): int { RefundedIn(l.refunds, l.memos, i) }

  function Balance(l: Ledger, i: nat): int
    requires i < |l.invoices|
  {
    l.invoices[i].total - PaidAmount(l, i) - Credited(l, i) + Refunded(l, i)
  }

  function Available(l: Ledger, p: nat): int
    requires p < |l.payments|
  {
    if l.payments[p].reversed then 0 else l.payments[p].amount - UsedIn(l.allocations, p)
  }

  function CreditOf(l: Ledger, ps: seq<nat>): int
    requires Keys(ps, |l.payments|)
  {
    if ps == [] then 0 else Available(l, ps[0]) + CreditOf(l, ps[1..])
  }

  /* ---- the ordered queries ---- */

  /** Every entry is the key of one of `n` rows. */
  predicate Keys(xs: seq<nat>, n: nat) { forall j :: 0 <= j < |xs| ==> xs[j] < n }

  /** Puts invoice `k`, the newest so far, into a list ordered by period start. */
  function InsertByStart(invoices: seq<Invoice>, xs: seq<nat>, k: nat): seq<nat>
    requires k < |invoices| && Keys(xs, |invoices|)
  {
    if xs == [] || Before(invoices[k].start, invoices[xs[0]].start) then [k] + xs
    else [xs[0]] + InsertByStart(invoices, xs[1..], k)
  }

  predicate Wanted(v: Invoice, s: Option<nat>) {
    match s
    case None => v.status == Open
    case Some(id) => v.status != Void && v.subscription == id
  }

  /** The first `n` invoices that are open, or that belong to a subscription and are not
      void, ordered by period start and then by key. */
  function ByStart(invoices: seq<Invoice>, n: nat, s: Option<nat>): (xs: seq<nat>)
    requires n <= |invoices|
    ensures Keys(xs, n) && forall j :: 0 <= j < |xs| ==> Wanted(invoices[xs[j]], s)
    ensures forall k :: 0 <= k < n && Wanted(invoices[k], s) ==> k in xs
  {
    if n == 0 then []
    else
      var xs := ByStart(invoices, n - 1, s);
      if Wanted(invoices[n - 1], s) then
        var ys := InsertByStart(invoices, xs, n - 1);
        InsertMembers(invoices, xs, n - 1);
        assert forall j :: 0 <= j < |ys| ==> ys[j] in ys;
        ys
      else xs
  }

  lemma InsertMembers(invoices: seq<Invoice>, xs: seq<nat>, k: nat)
    requires k < |invoices| && Keys(xs, |invoices|)
    ensures forall y :: y in InsertByStart(invoices, xs, k) <==> y == k || y in xs
  {
    if !(xs == [] || Before(invoices[k].start, invoices[xs[0]].start)) {
      InsertMembers(invoices, xs[1..], k);
      assert xs == [xs[0]] + xs[1..];
    }
  }

  function OpenOrder(l: Ledger): seq<nat> { ByStart(l.invoices, |l.invoices|, None) }

  function InvoicesOf(l: Ledger, s: nat): seq<nat> { ByStart(l.invoices, |l.invoices|, Some(s)) }

  /** The payments that were not reversed, oldest first. */
  function LivePayments(payments: seq<Payment>, n: nat): (ps: seq<nat>)
    requires n <= |payments|
    ensures Keys(ps, n) && forall k :: 0 <= k < |ps| ==> !payments[ps[k]].reversed
    ensures forall p :: 0 <= p < n && !payments[p].reversed ==> p in ps
    ensures forall j, k :: 0 <= j < k < |ps| ==> ps[j] < ps[k]
  {
    if n == 0 then []
    else LivePayments(payments, n - 1) + if payments[n - 1].reversed then [] else [n - 1]
  }

  function Live(l: Ledger): seq<nat> { LivePayments(l.payments, |l.payments|) }

  /* ---- `_refresh_subscription` ---- */

  /** The walk over a subscription's invoices, as long as each starts where the last ended and is settled. */
  function Walk(l: Ledger, xs: seq<nat>, cursor: Date): Date
    requires Keys(xs, |l.invoices|)
  {
    if xs == [] || l.invoices[xs[0]].start != cursor || Balance(l, xs[0]) > 0 then cursor
    else Walk(l, xs[1..], l.invoices[xs[0]].end)
  }

  function Refreshed(l: Ledger, s: nat): (r: Subscription)
    requires s < |l.subscriptions|
    ensures r == l.subscriptions[s].(paidUntil := r.paidUntil)
  {
    var sub := l.subscriptions[s];
    if sub.activation.None? then sub
    else sub.(paidUntil := Some(Walk(l, InvoicesOf(l, s), sub.activation.value)))
  }

  /** Refreshing a set of subscriptions; the order does not matter. */
  function RefreshEach(l: Ledger, affected: set<nat>): (r: Ledger)
    ensures r == l.(subscriptions := r.subscriptions) && |r.subscriptions| == |l.subscriptions|
    ensures forall s :: 0 <= s < |l.subscriptions| ==>
              r.subscriptions[s] == if s in affected then Refreshed(l, s) else l.subscriptions[s]
  {
    l.(subscriptions := seq(|l.subscriptions|, s requires 0 <= s < |l.subscriptions| =>
                              if s in affected then Refreshed(l, s) else l.subscriptions[s]))
  }

  /* ---- `_allocate_customer` ---- */

  function AddAllocation(l: Ledger, p: nat, i: nat, amount: int): Ledger {
    l.(allocations := l.allocations + [Allocation(p, i, amount, l.clock)])
  }

  function MarkInvoice(l: Ledger, i: nat, status: InvoiceStatus): Ledger
    requires i < |l.invoices|
  {
    l.(invoices := l.invoices[i := l.invoices[i].(status := status)])
  }

  /** One payment pays what it can of what invoice `i` still owes. */
  function PayOnce(l: Ledger, i: nat, p: nat): (r: Ledger)
    requires i < |l.invoices| && p < |l.payments|
    ensures r == l.(allocations := r.allocations) && l.allocations <= r.allocations
  {
    var applied := Min(Balance(l, i), Available(l, p));
    if applied > 0 then AddAllocation(l, p, i, applied) else l
  }

  /** The inner loop: payments `ps` in turn, until nothing of invoice `i` is owed. */
  function PayFrom(l: Ledger, i: nat, ps: seq<nat>): (r: Ledger)
    requires i < |l.invoices| && Keys(ps, |l.payments|)
    ensures r == l.(allocations := r.allocations) && l.allocations <= r.allocations
    decreases |ps|
  {
    if ps == [] || Balance(l, i) <= 0 then l else PayFrom(PayOnce(l, i, ps[0]), i, ps[1..])
  }

  function SettleInvoice(l: Ledger, i: nat, ps: seq<nat>): (r: Ledger)
    requires i < |l.invoices| && Keys(ps, |l.payments|)
    ensures r == l.(allocations := r.allocations, invoices := r.invoices)
    ensures |r.invoices| == |l.invoices| && l.allocations <= r.allocations
  {
    var l' := PayFrom(l, i, ps);
    MarkInvoice(l', i, if Balance(l', i) <= 0 then Paid else Open)
  }

  function SettleAll(l: Ledger, xs: seq<nat>, ps: seq<nat>): (r: Ledger)
    requires Keys(xs, |l.invoices|)
    requires Keys(ps, |l.payments|)
    ensures r == l.(allocations := r.allocations, invoices := r.invoices)
    ensures |r.invoices| == |l.invoices| && l.allocations <= r.allocations
    decreases |xs|
  {
    if xs == [] then l else SettleAll(SettleInvoice(l, xs[0], ps), xs[1..], ps)
  }

  /** The subscriptions of a list of invoices. */
  function Owners(l: Ledger, xs: seq<nat>): set<nat>
    requires Keys(xs, |l.invoices|)
  {
    set x | x in xs :: l.invoices[x].subscription
  }

  function Settled(l: Ledger): (r: Ledger)
    ensures r == l.(allocations := r.allocations, invoices := r.invoices)
    ensures |r.invoices| == |l.invoices| && l.allocations <= r.allocations
  {
    SettleAll(l, OpenOrder(l), Live(l))
  }

  function Allocate(l: Ledger): (r: Ledger)
    ensures r == l.(allocations := r.allocations, invoices := r.invoices, subscriptions := r.subscriptions)
    ensures |r.invoices| == |l.invoices| && |r.subscriptions| == |l.subscriptions| && l.allocations <= r.allocations
    ensures forall s :: 0 <= s < |l.subscriptions| ==> r.subscriptions[s].activation == l.subscriptions[s].activation
  {
    RefreshEach(Settled(l), Owners(l, OpenOrder(l)))
  }

  /* ---- the operations ---- */

  function ReceivePayment(l: Ledger, amount: int): Result<Ledger> {
    if !Money(amount) then Err(BadAmount)
    else Ok(Allocate(l.(payments := l.payments + [Payment(amount, false)])))
  }

  /** An invoice that payment `p` was ever applied to. */
  predicate Touches(l: Ledger, p: nat, i: nat) {
    exists a :: 0 <= a < |l.allocations| && l.allocations[a].payment == p && l.allocations[a].invoice == i
  }

  predicate HasRefund(l: Ledger, i: nat) {
    exists r :: 0 <= r < |l.refunds| && l.refunds[r].memo < |l.memos| && l.memos[l.refunds[r].memo].invoice == i
  }

  function Reopened(l: Ledger, p: nat): (r: Ledger)
    requires p < |l.payments|
    ensures r == l.(payments := r.payments, invoices := r.invoices) && |r.invoices| == |l.invoices|
  {
    l.(payments := l.payments[p := l.payments[p].(reversed := true)],
       invoices := seq(|l.invoices|, i requires 0 <= i < |l.invoices| =>
                         if Touches(l, p, i) && l.invoices[i].status != Void
                         then l.invoices[i].(status := Open) else l.invoices[i]))
  }

  function TouchedOwners(l: Ledger, p: nat): set<nat> {
    set a | 0 <= a < |l.allocations| && l.allocations[a].payment == p && l.allocations[a].invoice < |l.invoices|
      :: l.invoices[l.allocations[a].invoice].subscription
  }

  function ReversePayment(l: Ledger, p: nat): Result<Ledger> {
    if p >= |l.payments| then Err(NoSuchRow)
    else if l.payments[p].reversed then Ok(l)
    else if exists i :: 0 <= i < |l.invoices| && Touches(l, p, i) && HasRefund(l, i) then Err(RefundedCharge)
    else Ok(RefreshEach(Allocate(Reopened(l, p)), TouchedOwners(l, p)))
  }

  function IssueCreditMemo(l: Ledger, i: nat, amount: int): Result<Ledger> {
    if !Money(amount) then Err(BadAmount)
    else if i >= |l.invoices| then Err(NoSuchRow)
    else if l.invoices[i].status == Void then Err(VoidInvoice)
    else
      var l1 := l.(clock := l.clock + 1, memos := l.memos + [Memo(i, amount, l.clock + 1)]);
      var l2 := MarkInvoice(l1, i, if Balance(l1, i) <= 0 then Paid else Open);
      Ok(RefreshEach(l2, {l.invoices[i].subscription}))
  }

  function RefundCredit(l: Ledger, m: nat, amount: int): Result<Ledger> {
    if !Money(amount) then Err(BadAmount)
    else if m >= |l.memos| || l.memos[m].invoice >= |l.invoices| then Err(NoSuchRow)
    else if amount > l.memos[m].amount - RefundedOfMemo(l.refunds, m)
         || amount > Max(-Balance(l, l.memos[m].invoice), 0) then Err(ExceedsRefundable)
    else Ok(l.(refunds := l.refunds + [Refund(m, amount)]))
  }

  /** A ledger together with the invoice an operation answers with. */
  datatype Billed = Billed(ledger: Ledger, invoice: nat)

  /** The invoice of subscription `s` that starts on a date, whatever its status. */
  function FindPeriod(invoices: seq<Invoice>, n: nat, s: nat, start: Date): (r: Option<nat>)
    requires n <= |invoices|
    ensures r.Some? ==> r.value < n && invoices[r.value].subscription == s && invoices[r.value].start == start
    ensures r.None? ==> forall i :: 0 <= i < n ==> !(invoices[i].subscription == s && invoices[i].start == start)
  {
    if n == 0 then None
    else if invoices[n - 1].subscription == s && invoices[n - 1].start == start then Some(n - 1)
    else FindPeriod(invoices, n - 1, s, start)
  }

  /** `create_period`; `price` is the plan's price at the time. */
  function CreatePeriod(l: Ledger, s: nat, start: Date, end: Date, price: int): Result<Billed> {
    if s >= |l.subscriptions| then Err(NoSuchRow)
    else if l.subscriptions[s].activation.None? || l.subscriptions[s].status == Pending then Err(NotActivated)
    else
      var activation := l.subscriptions[s].activation.value;
      var index := MonthsBetween(activation, start);
      if index < 0 || start != Anniversary(activation, index) || end != Anniversary(activation, index + 1)
      then Err(WrongPeriod)
      else
        var existing := FindPeriod(l.invoices, |l.invoices|, s, start);
        if existing.Some? then Ok(Billed(l, existing.value))
        else if !Money(price) then Err(BadAmount)
        else Ok(Billed(Allocate(l.(invoices := l.invoices + [Invoice(s, start, end, price, Open)])), |l.invoices|))
  }

  /** `renew_subscription`: only from credit already received. */
  function RenewSubscription(l: Ledger, s: nat, price: int): Result<Billed> {
    if s >= |l.subscriptions| then Err(NoSuchRow)
    else if l.subscriptions[s].activation.None? || l.subscriptions[s].status == Cancelled then Err(NotActivated)
    else
      var xs := InvoicesOf(l, s);
      if xs == [] || Balance(l, xs[|xs| - 1]) > 0 then Err(CurrentUnpaid)
      else if CreditOf(l, Live(l)) < price then Err(NoCredit)
      else
        var activation := l.subscriptions[s].activation.value;
        var start := l.invoices[xs[|xs| - 1]].end;
        CreatePeriod(l, s, start, Anniversary(activation, MonthsBetween(activation, start) + 1), price)
  }

  /** The activation of a subscription (core/services.py), which bills its first period. */
  function Activate(l: Ledger, s: nat, today: Day, price: int): Result<Ledger> {
    if s >= |l.subscriptions| then Err(NoSuchRow)
    else if l.subscriptions[s].status == Cancelled then Err(NotActivated)
    else if l.subscriptions[s].activation.Some? then Ok(l)
    else
      var sub := l.subscriptions[s].(activation := Some(today), status := Active);
      match CreatePeriod(l.(subscriptions := l.subscriptions[s := sub]), s, today, Anniversary(today, 1), price)
      case Err(e) => Err(e)
      case Ok(billed) => Ok(billed.ledger)
  }
}
