/** Suspension for nonpayment: proposal, review, application and release (billing/services.py). */
module Suspension {
  import opened Common

  datatype Status = Pending | Active | Suspended | Cancelled

  /** Times are in seconds. */
  datatype Service = Service(status: Status, activated: bool, paidUntil: Option<int>)

  datatype Proposal = Proposal(service: nat, snapshot: int)

  datatype Application = Application(proposal: nat, applied: bool, released: bool)

  /** What the audit log keeps of a service. */
  datatype Entry = Entry(service: nat, suspended: bool)

  /** Applications and audit entries in the order they were made. */
  datatype Desk = Desk(now: int, services: seq<Service>, proposals: seq<Proposal>, decisions: map<nat, bool>,
                       applications: seq<Application>, audit: seq<Entry>)

  /** What holds a suspension back, apart from the service itself. */
  datatype Holds = Holds(graceHours: nat, dispute: bool, outage: bool, healthy: bool)

  /** `suspension_block`, true when it gives a reason. */
  predicate Blocked(v: Service, now: int, holds: Holds, checkHealth: bool) {
    || v.status != Active || !v.activated
    || v.paidUntil.None? || v.paidUntil.value + 3600 * holds.graceHours > now
    || holds.dispute || holds.outage
    || (checkHealth && !holds.healthy)
  }

  /** `propose_suspension`. */
  function Proposed(d: Desk, s: nat, holds: Holds): Option<Desk> {
    if s >= |d.services| || Blocked(d.services[s], d.now, holds, false) then None
    else Some(d.(proposals := d.proposals + [Proposal(s, d.services[s].paidUntil.value)]))
  }

  /** `review_suspension`: the first decision stands. */
  function Reviewed(d: Desk, p: nat, approved: bool): Option<Desk> {
    if p >= |d.proposals| then None
    else if p in d.decisions then (if d.decisions[p] == approved then Some(d) else None)
    else Some(d.(decisions := d.decisions[p := approved]))
  }

  predicate Tried(applications: seq<Application>, p: nat) {
    exists a :: 0 <= a < |applications| && applications[a].proposal == p
  }

  /** Whether applying the proposal suspends the service. */
  predicate Suspends(d: Desk, p: nat, holds: Holds, byStaff: bool, automatic: bool)
    requires p < |d.proposals| && d.proposals[p].service < |d.services|
  {
    && !Blocked(d.services[d.proposals[p].service], d.now, holds, true)
    && (byStaff || automatic)
    && d.services[d.proposals[p].service].paidUntil == Some(d.proposals[p].snapshot)
  }

  /** `apply_suspension`: at most one application of a proposal, whatever came of it. */
  function AppliedTo(d: Desk, p: nat, holds: Holds, byStaff: bool, automatic: bool): Option<Desk> {
    if p >= |d.proposals| || d.proposals[p].service >= |d.services| then None
    else if Tried(d.applications, p) then Some(d)
    else if !(p in d.decisions && d.decisions[p]) then None
    else
      var s, applied := d.proposals[p].service, Suspends(d, p, holds, byStaff, automatic);
      Some(d.(applications := d.applications + [Application(p, applied, false)],
              services := if applied then d.services[s := d.services[s].(status := Suspended)] else d.services,
              audit := d.audit + if applied then [Entry(s, true)] else []))
  }

  /** An application that suspended service `s` and was not released. */
  predicate OpenFor(d: Desk, a: nat, s: nat)
    requires a < |d.applications|
  {
    && d.applications[a].applied && !d.applications[a].released
    && d.applications[a].proposal < |d.proposals| && d.proposals[d.applications[a].proposal].service == s
  }

  /** The latest open application of service `s` among the first `n`. */
  function LatestOpen(d: Desk, s: nat, n: nat): (r: Option<nat>)
    requires n <= |d.applications|
    ensures r.Some? ==> r.value < n && OpenFor(d, r.value, s)
    ensures r.None? ==> forall a :: 0 <= a < n ==> !OpenFor(d, a, s)
  {
    if n == 0 then None else if OpenFor(d, n - 1, s) then Some(n - 1) else LatestOpen(d, s, n - 1)
  }

  /** `_resume_nonpayment`. */
  function Resumed(d: Desk, s: nat): Desk
    requires s < |d.services|
  {
    var v, latest := d.services[s], LatestOpen(d, s, |d.applications|);
    if v.status != Suspended || v.paidUntil.None? || v.paidUntil.value <= d.now || latest.None? then d
    else
      d.(applications := d.applications[latest.value := d.applications[latest.value].(released := true)],
         services := d.services[s := v.(status := Active)],
         audit := d.audit + [Entry(s, false)])
  }

  /** `_refresh_subscription` stores the end of service the ledger computed, and resumes. */
  function Refreshed(d: Desk, s: nat, paidUntil: int): Desk
    requires s < |d.services|
  {
    Resumed(d.(services := d.services[s := d.services[s].(paidUntil := Some(paidUntil))]), s)
  }

  class SuspensionDesk {
    var now: int
    var services: seq<Service>
    var proposals: seq<Proposal>
    var decisions: map<nat, bool>
    var applications: seq<Application>
    var audit: seq<Entry>

    function View(): Desk
      reads this
    {
      Desk(now, services, proposals, decisions, applications, audit)
    }

    constructor (start: int)
      ensures View() == Desk(start, [], [], map[], [], [])
    {
      now, services, proposals, decisions, applications, audit := start, [], [], map[], [], [];
    }

    method Propose(s: nat, holds: Holds) returns (accepted: bool)
      modifies this`proposals
      ensures accepted == Proposed(old(View()), s, holds).Some?
      ensures View() == if accepted then Proposed(old(View()), s, holds).value else old(View())
    {
      if s >= |services| || Blocked(services[s], now, holds, false) {
        return false;
      }
      proposals := proposals + [Proposal(s, services[s].paidUntil.value)];
      accepted := true;
    }

    method Review(p: nat, approved: bool) returns (accepted: bool)
      modifies this`decisions
      ensures accepted == Reviewed(old(View()), p, approved).Some?
      ensures View() == if accepted then Reviewed(old(View()), p, approved).value else old(View())
    {
      if p >= |proposals| {
        return false;
      }
      if p in decisions {
        return decisions[p] == approved;
      }
      decisions := decisions[p := approved];
      accepted := true;
    }

    method Apply(p: nat, holds: Holds, byStaff: bool, automatic: bool) returns (accepted: bool)
      modifies this`applications, this`services, this`audit
      ensures accepted == AppliedTo(old(View()), p, holds, byStaff, automatic).Some?
      ensures View() == if accepted then AppliedTo(old(View()), p, holds, byStaff, automatic).value else old(View())
    {
      if p >= |proposals| || proposals[p].service >= |services| {
        return false;
      }
      if Tried(applications, p) {
        return true;
      }
      if !(p in decisions && decisions[p]) {
        return false;
      }
      var s := proposals[p].service;
      var blocked := Blocked(services[s], now, holds, true);
      if !byStaff && !automatic {
        blocked := true;
      }
      if services[s].paidUntil != Some(proposals[p].snapshot) {
        blocked := true;
      }
      if !blocked {
        services := services[s := services[s].(status := Suspended)];
        audit := audit + [Entry(s, true)];
      }
      applications := applications + [Application(p, !blocked, false)];
      accepted := true;
    }

    method Resume(s: nat)
      requires s < |services|
      modifies this`applications, this`services, this`audit
      ensures View() == Resumed(old(View()), s)
    {
      if services[s].status != Suspended || services[s].paidUntil.None? || services[s].paidUntil.value <= now {
        return;
      }
      var a: nat := |applications|;
      while a > 0 && !OpenFor(View(), a - 1, s)
        invariant a <= |applications|
        invariant LatestOpen(View(), s, |applications|) == LatestOpen(View(), s, a)
      {
        a := a - 1;
      }
      if a == 0 {
        return;
      }
      applications := applications[a - 1 := applications[a - 1].(released := true)];
      services := services[s := services[s].(status := Active)];
      audit := audit + [Entry(s, false)];
    }
  }
}

/** Suspensions and releases over whole runs. */
module SuspensionSafety {
  import opened Common
  import opened Suspension

  datatype Event =
    | Tick(seconds: nat)
    | AddService
    | Activate(service: nat)
    | Cancel(service: nat)
    | Refresh(service: nat, paidUntil: int)
    | Propose(service: nat, holds: Holds)
    | Review(proposal: nat, approved: bool)
    | Apply(proposal: nat, holds: Holds, byStaff: bool, automatic: bool)

  function Accepted(d: Desk, r: Option<Desk>): Desk { if r.Some? then r.value else d }

  function SetStatus(d: Desk, s: nat, status: Status, activated: bool): Desk
    requires s < |d.services|
  {
    d.(services := d.services[s := d.services[s].(status := status, activated := activated)])
  }

  /** One transaction. A service is activated once, unless it was cancelled. */
  function Step(d: Desk, e: Event): Desk {
    match e
    case Tick(seconds) => d.(now := d.now + seconds)
    case AddService => d.(services := d.services + [Service(Pending, false, None)])
    case Activate(s) =>
      if s < |d.services| && d.services[s].status != Cancelled && !d.services[s].activated then SetStatus(d, s, Active, true) else d
    case Cancel(s) => if s < |d.services| then SetStatus(d, s, Cancelled, d.services[s].activated) else d
    case Refresh(s, paidUntil) => if s < |d.services| && d.services[s].activated then Refreshed(d, s, paidUntil) else d
    case Propose(s, holds) => Accepted(d, Proposed(d, s, holds))
    case Review(p, approved) => Accepted(d, Reviewed(d, p, approved))
    case Apply(p, holds, byStaff, automatic) => Accepted(d, AppliedTo(d, p, holds, byStaff, automatic))
  }

  function Run(d: Desk, es: seq<Event>): Desk
    decreases |es|
  {
    if es == [] then d else Run(Step(d, es[0]), es[1..])
  }

  function Initial(now: int): Desk { Desk(now, [], [], map[], [], []) }

  /* ---- the invariant ---- */

  ghost predicate HasOpen(d: Desk, s: nat) { exists a :: 0 <= a < |d.applications| && OpenFor(d, a, s) }

  /** Proposals are of services, and each was tried at most once. */
  ghost predicate RowsOk(d: Desk) {
    && (forall p :: 0 <= p < |d.proposals| ==> d.proposals[p].service < |d.services|)
    && (forall p :: p in d.decisions ==> p < |d.proposals|)
    && (forall a :: 0 <= a < |d.applications| ==> d.applications[a].proposal < |d.proposals|)
    && (forall a, b :: 0 <= a < b < |d.applications| ==> d.applications[a].proposal != d.applications[b].proposal)
    && (forall s :: 0 <= s < |d.services| && !d.services[s].activated ==> d.services[s].status in {Pending, Cancelled})
  }

  /** A suspended service has an open application, an active one has none, and none has two. */
  ghost predicate OpenOk(d: Desk) {
    && (forall a, b | 0 <= a < |d.applications| && 0 <= b < |d.applications| ::
          OpenFor(d, a, ServiceOf(d, a)) && OpenFor(d, b, ServiceOf(d, b)) && ServiceOf(d, a) == ServiceOf(d, b) ==> a == b)
    && (forall s :: 0 <= s < |d.services| && d.services[s].status == Suspended ==> HasOpen(d, s))
    && (forall a :: 0 <= a < |d.applications| && OpenFor(d, a, ServiceOf(d, a)) && ServiceOf(d, a) < |d.services| ==>
          d.services[ServiceOf(d, a)].status in {Suspended, Cancelled})
  }

  function ServiceOf(d: Desk, a: nat): nat
    requires a < |d.applications|
  {
    if d.applications[a].proposal < |d.proposals| then d.proposals[d.applications[a].proposal].service else |d.services|
  }

  /** The audit entries of one service. */
  function History(audit: seq<Entry>, s: nat): seq<bool> {
    if audit == [] then []
    else
      var last := audit[|audit| - 1];
      History(audit[..|audit| - 1], s) + if last.service == s then [last.suspended] else []
  }

  /** Suspended, released, suspended, and so on. */
  predicate Alternating(h: seq<bool>) { forall k :: 0 <= k < |h| ==> h[k] == (k % 2 == 0) }

  ghost predicate HistoryOk(d: Desk) {
    forall s: nat :: Alternating(History(d.audit, s)) && (HasOpen(d, s) <==> |History(d.audit, s)| % 2 == 1)
  }

  ghost predicate Inv(d: Desk) { RowsOk(d) && OpenOk(d) && HistoryOk(d) }

  lemma HistoryPlus(audit: seq<Entry>, e: Entry, s: nat)
    ensures History(audit + [e], s) == History(audit, s) + if e.service == s then [e.suspended] else []
  {
    assert (audit + [e])[..|audit|] == audit;
  }

  /** Nothing opened or closed. */
  lemma SameOpen(d: Desk, d': Desk)
    requires Inv(d) && d'.applications == d.applications && d'.proposals == d.proposals && d'.audit == d.audit
    requires forall p :: p in d'.decisions ==> p < |d.proposals|
    requires |d.services| <= |d'.services|
    requires forall s :: 0 <= s < |d'.services| ==>
               && (!d'.services[s].activated ==> d'.services[s].status in {Pending, Cancelled})
               && (s < |d.services| ==>
                     d'.services[s].status == d.services[s].status || d'.services[s].status == Cancelled
                     || (d'.services[s].status == Active && d.services[s].status == Pending))
               && (s >= |d.services| ==> d'.services[s].status == Pending)
    ensures Inv(d')
  {
    hide History, Alternating;
    assert forall a :: 0 <= a < |d.applications| ==> ServiceOf(d', a) == ServiceOf(d, a);
    forall s: nat
      ensures HasOpen(d', s) <==> HasOpen(d, s)
    {
      SameHasOpen(d, d', s);
    }
  }

  lemma SameHasOpen(d: Desk, d': Desk, s: nat)
    requires d'.applications == d.applications && d'.proposals == d.proposals
    ensures HasOpen(d', s) <==> HasOpen(d, s)
  {
    assert forall a :: 0 <= a < |d.applications| ==> OpenFor(d', a, s) == OpenFor(d, a, s);
  }

  lemma ProposeKeepsInv(d: Desk, s: nat, holds: Holds)
    requires Inv(d) && Proposed(d, s, holds).Some?
    ensures Inv(Proposed(d, s, holds).value)
  {
    hide History, Alternating;
    var d' := Proposed(d, s, holds).value;
    forall a, t: nat | 0 <= a < |d.applications|
      ensures OpenFor(d', a, t) == OpenFor(d, a, t) && ServiceOf(d', a) == ServiceOf(d, a)
    {
    }
    forall t: nat
      ensures HasOpen(d', t) <==> HasOpen(d, t)
    {
      if HasOpen(d, t) {
        var a :| 0 <= a < |d.applications| && OpenFor(d, a, t);
        assert OpenFor(d', a, t);
      }
    }
  }

  /** The open applications after one more attempt. */
  lemma AttemptOpens(d: Desk, d': Desk, p: nat, applied: bool)
    requires p < |d.proposals| && d' == d.(applications := d.applications + [Application(p, applied, false)],
                                           services := d'.services, audit := d'.audit)
    requires |d'.services| == |d.services|
    ensures forall a :: 0 <= a < |d.applications| ==> ServiceOf(d', a) == ServiceOf(d, a)
    ensures forall a, t: nat :: 0 <= a < |d.applications| ==> OpenFor(d', a, t) == OpenFor(d, a, t)
    ensures forall t: nat :: OpenFor(d', |d.applications|, t) <==> applied && t == d.proposals[p].service
    ensures forall t: nat :: HasOpen(d', t) <==> HasOpen(d, t) || (applied && t == d.proposals[p].service)
  {
    forall t: nat
      ensures HasOpen(d', t) <==> HasOpen(d, t) || (applied && t == d.proposals[p].service)
    {
      var n := |d.applications|;
      assert n < |d'.applications| && (OpenFor(d', n, t) <==> applied && t == d.proposals[p].service);
      if HasOpen(d, t) {
        var a :| 0 <= a < |d.applications| && OpenFor(d, a, t);
        assert OpenFor(d', a, t);
      }
      if HasOpen(d', t) {
        var a :| 0 <= a < |d'.applications| && OpenFor(d', a, t);
        assert a < n ==> OpenFor(d, a, t);
      }
    }
  }

  lemma ApplyKeepsInv(d: Desk, p: nat, holds: Holds, byStaff: bool, automatic: bool)
    requires Inv(d) && AppliedTo(d, p, holds, byStaff, automatic).Some?
    ensures Inv(AppliedTo(d, p, holds, byStaff, automatic).value)
  {
    hide History, OpenFor, ServiceOf, HasOpen;
    if !Tried(d.applications, p) {
      var d' := AppliedTo(d, p, holds, byStaff, automatic).value;
      var s, applied := d.proposals[p].service, Suspends(d, p, holds, byStaff, automatic);
      AttemptOpens(d, d', p, applied);
      NewService(d', |d.applications|);
      if applied { ActiveHasNone(d, s); }
      AttemptHistory(d, d', s, applied);
      assert RowsOk(d');
    }
  }

  lemma NewService(d: Desk, a: nat)
    requires a < |d.applications| && d.applications[a].proposal < |d.proposals|
    ensures ServiceOf(d, a) == d.proposals[d.applications[a].proposal].service
  {
  }

  lemma ActiveHasNone(d: Desk, s: nat)
    requires OpenOk(d) && s < |d.services| && d.services[s].status == Active
    ensures !HasOpen(d, s)
    ensures forall a :: 0 <= a < |d.applications| ==> !OpenFor(d, a, s)
  {
    forall a | 0 <= a < |d.applications|
      ensures !OpenFor(d, a, s)
    {
      assert OpenFor(d, a, s) ==> ServiceOf(d, a) == s;
    }
  }

  lemma AttemptHistory(d: Desk, d': Desk, s: nat, applied: bool)
    requires HistoryOk(d) && (applied ==> !HasOpen(d, s))
    requires d'.audit == d.audit + if applied then [Entry(s, true)] else []
    requires forall t: nat :: HasOpen(d', t) <==> HasOpen(d, t) || (applied && t == s)
    ensures HistoryOk(d')
  {
    hide History, HasOpen;
    assert d.audit + [] == d.audit;
    forall t: nat
      ensures Alternating(History(d'.audit, t)) && (HasOpen(d', t) <==> |History(d'.audit, t)| % 2 == 1)
    {
      if applied { HistoryPlus(d.audit, Entry(s, true), t); }
    }
  }

  /** The open applications after a release. */
  lemma ReleaseCloses(d: Desk, d': Desk, a: nat)
    requires a < |d.applications| && OpenFor(d, a, ServiceOf(d, a)) && OpenOk(d)
    requires d' == d.(applications := d.applications[a := d.applications[a].(released := true)], services := d'.services, audit := d'.audit)
    requires |d'.services| == |d.services|
    ensures forall b :: 0 <= b < |d.applications| ==> ServiceOf(d', b) == ServiceOf(d, b)
    ensures forall b, t: nat :: 0 <= b < |d.applications| ==> (OpenFor(d', b, t) <==> OpenFor(d, b, t) && b != a)
    ensures forall t: nat :: HasOpen(d', t) <==> HasOpen(d, t) && t != ServiceOf(d, a)
  {
    var s := ServiceOf(d, a);
    forall t: nat
      ensures HasOpen(d', t) <==> HasOpen(d, t) && t != s
    {
      if HasOpen(d, t) && t != s {
        var b :| 0 <= b < |d.applications| && OpenFor(d, b, t);
        assert OpenFor(d', b, t);
      }
      forall b | 0 <= b < |d'.applications|
        ensures OpenFor(d', b, t) ==> OpenFor(d, b, t) && t != s
      {
        assert OpenFor(d', b, t) ==> ServiceOf(d, b) == t && b != a;
      }
    }
  }

  lemma ResumeKeepsInv(d: Desk, s: nat)
    requires Inv(d) && s < |d.services|
    ensures Inv(Resumed(d, s))
  {
    hide History, HasOpen, LatestOpen;
    var d', latest := Resumed(d, s), LatestOpen(d, s, |d.applications|);
    if d' != d {
      var a := latest.value;
      assert ServiceOf(d, a) == s;
      ReleaseCloses(d, d', a);
      hide OpenFor, ServiceOf;
      OpenHas(d, a, s);
      ReleaseHistory(d, d', s);
      assert forall b :: 0 <= b < |d.applications| && b != a && OpenFor(d, b, ServiceOf(d, b)) ==> ServiceOf(d, b) != s;
    }
  }

  lemma OpenHas(d: Desk, a: nat, s: nat)
    requires a < |d.applications| && OpenFor(d, a, s)
    ensures HasOpen(d, s)
  {
  }

  lemma ReleaseHistory(d: Desk, d': Desk, s: nat)
    requires HistoryOk(d) && HasOpen(d, s) && d'.audit == d.audit + [Entry(s, false)]
    requires forall t: nat :: HasOpen(d', t) <==> HasOpen(d, t) && t != s
    ensures HistoryOk(d')
  {
    hide History, HasOpen;
    forall t: nat
      ensures Alternating(History(d'.audit, t)) && (HasOpen(d', t) <==> |History(d'.audit, t)| % 2 == 1)
    {
      HistoryPlus(d.audit, Entry(s, false), t);
    }
  }

  lemma StepKeepsInv(d: Desk, e: Event)
    requires Inv(d)
    ensures Inv(Step(d, e))
  {
    hide OpenOk, HistoryOk, Resumed, Proposed, AppliedTo, Reviewed;
    match e
    case Propose(s, holds) => if Proposed(d, s, holds).Some? { ProposeKeepsInv(d, s, holds); }
    case Review(p, approved) => ReviewKeeps(d, p, approved);
    case Apply(p, holds, byStaff, automatic) =>
      if AppliedTo(d, p, holds, byStaff, automatic).Some? { ApplyKeepsInv(d, p, holds, byStaff, automatic); }
    case Refresh(s, paidUntil) =>
      if s < |d.services| && d.services[s].activated {
        var d1 := d.(services := d.services[s := d.services[s].(paidUntil := Some(paidUntil))]);
        SameOpen(d, d1);
        ResumeKeepsInv(d1, s);
      }
    case _ => SameOpen(d, Step(d, e));
  }

  lemma ReviewKeeps(d: Desk, p: nat, approved: bool)
    requires Inv(d)
    ensures Inv(Accepted(d, Reviewed(d, p, approved)))
  {
    hide History, Alternating;
    SameOpen(d, Accepted(d, Reviewed(d, p, approved)));
  }

  lemma {:induction false} RunKeepsInv(d: Desk, es: seq<Event>)
    requires Inv(d)
    ensures Inv(Run(d, es))
    decreases |es|
  {
    hide Inv, Step;
    if es != [] {
      StepKeepsInv(d, es[0]);
      RunKeepsInv(Step(d, es[0]), es[1..]);
    }
  }

  lemma ReachableInv(now: int, es: seq<Event>)
    ensures Inv(Run(Initial(now), es))
  {
    hide Run;
    forall s: nat
      ensures History([], s) == []
    {
    }
    RunKeepsInv(Initial(now), es);
  }

  /* ---- the theorems ---- */

  /** Over every run the suspensions and releases of a service alternate, beginning with a
      suspension; a suspended service has one open application and an active one has none. */
  lemma SuspensionsAlternate(now: int, es: seq<Event>, s: nat)
    ensures var d := Run(Initial(now), es);
            && Alternating(History(d.audit, s))
            && (HasOpen(d, s) <==> |History(d.audit, s)| % 2 == 1)
            && (s < |d.services| && d.services[s].status == Suspended ==> HasOpen(d, s))
            && (s < |d.services| && d.services[s].status == Active ==> !HasOpen(d, s))
            && (forall a, b :: 0 <= a < |d.applications| && 0 <= b < |d.applications| && OpenFor(d, a, s) && OpenFor(d, b, s) ==> a == b)
  {
    hide Run, History, HasOpen, OpenFor, ServiceOf;
    ReachableInv(now, es);
    var d := Run(Initial(now), es);
    if s < |d.services| && d.services[s].status == Active { ActiveHasNone(d, s); }
    forall a | 0 <= a < |d.applications|
      ensures OpenFor(d, a, s) ==> ServiceOf(d, a) == s
    {
      OpenService(d, a, s);
    }
  }

  lemma OpenService(d: Desk, a: nat, s: nat)
    requires a < |d.applications|
    ensures OpenFor(d, a, s) ==> ServiceOf(d, a) == s
  {
  }

  /** A proposal once tried never acts again, in any run. */
  lemma {:induction false} TriedOnce(d: Desk, es: seq<Event>, p: nat)
    requires Tried(d.applications, p)
    ensures Tried(Run(d, es).applications, p)
    ensures forall e: Event :: e.Apply? && e.proposal == p ==> Step(Run(d, es), e) == Run(d, es)
    decreases |es|
  {
    hide LatestOpen, Suspends, Proposed, Reviewed;
    if es != [] {
      StaysTried(d, es[0], p);
      TriedOnce(Step(d, es[0]), es[1..], p);
    }
  }

  lemma StaysTried(d: Desk, e: Event, p: nat)
    requires Tried(d.applications, p)
    ensures Tried(Step(d, e).applications, p)
  {
    hide Suspends, Blocked;
    var a :| 0 <= a < |d.applications| && d.applications[a].proposal == p;
    var d' := Step(d, e);
    assert a < |d'.applications| && d'.applications[a].proposal == p;
  }

  /** Proposal `p` has not suspended its service, whose end of service is not the one it saw. */
  ghost predicate Moved(d: Desk, p: nat) {
    && p < |d.proposals| && d.proposals[p].service < |d.services|
    && d.services[d.proposals[p].service].paidUntil != Some(d.proposals[p].snapshot)
    && forall a :: 0 <= a < |d.applications| && d.applications[a].proposal == p ==> !d.applications[a].applied
  }

  lemma MovedStep(d: Desk, e: Event, p: nat)
    requires Moved(d, p) && e != Refresh(d.proposals[p].service, d.proposals[p].snapshot)
    ensures Moved(Step(d, e), p) && Step(d, e).proposals[p] == d.proposals[p]
  {
    hide LatestOpen;
  }

  /** Once the end of service is not the one an approval was given for, earlier or later, the approval
      suspends in no run in which no refresh stores exactly that end again. */
  lemma {:induction false} MovedNeverSuspends(d: Desk, es: seq<Event>, p: nat)
    requires Moved(d, p) && Refresh(d.proposals[p].service, d.proposals[p].snapshot) !in es
    ensures Moved(Run(d, es), p)
    decreases |es|
  {
    hide Moved, Step;
    if es != [] {
      Within(d, p);
      assert es[0] in es;
      MovedStep(d, es[0], p);
      MovedNeverSuspends(Step(d, es[0]), es[1..], p);
    }
  }

  lemma Within(d: Desk, p: nat)
    requires Moved(d, p)
    ensures p < |d.proposals| && d.proposals[p].service < |d.services|
  {
  }

  /** An approval that can still act. */
  predicate Ready(d: Desk, p: nat) {
    p < |d.proposals| && p in d.decisions && d.decisions[p] && !Tried(d.applications, p)
  }

  /** Nothing but its end of service could keep the proposal's service from being suspended. */
  predicate Unheld(d: Desk, p: nat, holds: Holds)
    requires p < |d.proposals|
  {
    d.proposals[p].service < |d.services| && !Blocked(d.services[d.proposals[p].service], d.now, holds, true)
  }

  /** From every reachable desk an approval for a service that nothing holds suspends it if and only if
      the end of service is the one it was given for; either way it never acts again. */
  lemma ApprovalSuspendsExactlyWhen(now: int, es: seq<Event>, p: nat, holds: Holds, byStaff: bool, automatic: bool, fs: seq<Event>)
    requires Ready(Run(Initial(now), es), p) && (byStaff || automatic)
    requires Unheld(Run(Initial(now), es), p, holds)
    ensures var d := Run(Initial(now), es);
            var s := d.proposals[p].service;
            var d' := Step(d, Apply(p, holds, byStaff, automatic));
            && s < |d'.services|
            && (d'.services[s].status == Suspended <==> d.services[s].paidUntil == Some(d.proposals[p].snapshot))
            && (HasOpen(d', s) <==> d'.services[s].status == Suspended)
            && forall e: Event :: e.Apply? && e.proposal == p ==> Step(Run(d', fs), e) == Run(d', fs)
  {
    hide Run, History, HasOpen;
    ReachableInv(now, es);
    var d := Run(Initial(now), es);
    var e := Apply(p, holds, byStaff, automatic);
    StepKeepsInv(d, e);
    NowTried(d, p, holds, byStaff, automatic);
    TriedOnce(Step(d, e), fs, p);
    if Step(d, e).services[d.proposals[p].service].status == Active {
      ActiveHasNone(Step(d, e), d.proposals[p].service);
    }
  }

  lemma NowTried(d: Desk, p: nat, holds: Holds, byStaff: bool, automatic: bool)
    requires Ready(d, p) && d.proposals[p].service < |d.services|
    ensures Tried(Step(d, Apply(p, holds, byStaff, automatic)).applications, p)
  {
    hide Suspends;
    var d' := Step(d, Apply(p, holds, byStaff, automatic));
    assert d'.applications[|d.applications|].proposal == p;
  }

  /** An approval in hand, whatever the end of service has become: a refresh revives it exactly when it
      stores the end the approval was given for. */
  lemma OnlyItsOwnEndRevives(now: int, es: seq<Event>, p: nat, holds: Holds, paidUntil: int)
    requires Ready(Run(Initial(now), es), p) && Run(Initial(now), es).proposals[p].service < |Run(Initial(now), es).services|
    requires var d := Run(Initial(now), es);
             var v := d.services[d.proposals[p].service];
             && v.status == Active && v.activated && !holds.dispute && !holds.outage && holds.healthy
             && d.proposals[p].snapshot + 3600 * holds.graceHours <= d.now
    ensures var d := Run(Initial(now), es);
            var s := d.proposals[p].service;
            var d' := Step(Step(d, Refresh(s, paidUntil)), Apply(p, holds, true, false));
            s < |d'.services| && (d'.services[s].status == Suspended <==> paidUntil == d.proposals[p].snapshot)
  {
    hide Run, LatestOpen;
  }

  /** The whole way: a service that nothing holds is suspended by a proposal approved and applied,
      and active again, with its suspension released, when it is paid ahead. */
  lemma SuspendedAndReleased(now: int, es: seq<Event>, s: nat, holds: Holds, paidUntil: int)
    requires s < |Run(Initial(now), es).services| && !Blocked(Run(Initial(now), es).services[s], Run(Initial(now), es).now, holds, true)
    requires paidUntil > Run(Initial(now), es).now
    ensures var d0 := Run(Initial(now), es);
            var p := |d0.proposals|;
            var d1 := Step(Step(d0, Propose(s, holds)), Review(p, true));
            var d2 := Step(d1, Apply(p, holds, true, false));
            var d3 := Step(d2, Refresh(s, paidUntil));
            && d2.services[s].status == Suspended && HasOpen(d2, s)
            && d3.services[s].status == Active && !HasOpen(d3, s)
            && d3.audit == d0.audit + [Entry(s, true), Entry(s, false)]
  {
    hide Run, HistoryOk, History;
    var d0 := Run(Initial(now), es);
    var p := |d0.proposals|;
    ReachableInv(now, es);
    var d1 := Step(Step(d0, Propose(s, holds)), Review(p, true));
    var d2 := Step(d1, Apply(p, holds, true, false));
    var d3 := Step(d2, Refresh(s, paidUntil));
    StepKeepsInv(d0, Propose(s, holds));
    StepKeepsInv(Step(d0, Propose(s, holds)), Review(p, true));
    StepKeepsInv(d1, Apply(p, holds, true, false));
    StepKeepsInv(d2, Refresh(s, paidUntil));
    hide Step;
    GoesThrough(d0, s, holds, paidUntil);
    ActiveHasNone(d3, s);
  }

  lemma GoesThrough(d0: Desk, s: nat, holds: Holds, paidUntil: int)
    requires s < |d0.services| && !Blocked(d0.services[s], d0.now, holds, true) && paidUntil > d0.now
    requires RowsOk(d0)
    ensures var p := |d0.proposals|;
            var d1 := Step(Step(d0, Propose(s, holds)), Review(p, true));
            var d2 := Step(d1, Apply(p, holds, true, false));
            var d3 := Step(d2, Refresh(s, paidUntil));
            && s < |d2.services| == |d3.services|
            && d2.services[s].status == Suspended && HasOpen(d2, s)
            && d3.services[s].status == Active
            && d3.audit == d0.audit + [Entry(s, true), Entry(s, false)]
  {
    hide LatestOpen;
    var p := |d0.proposals|;
    assert p !in d0.decisions;
    var d1 := Step(Step(d0, Propose(s, holds)), Review(p, true));
    assert d1.proposals[p] == Proposal(s, d0.services[s].paidUntil.value);
    assert !Tried(d1.applications, p);
    var d2 := Step(d1, Apply(p, holds, true, false));
    assert OpenFor(d2, |d0.applications|, s);
    assert d2.audit == d0.audit + [Entry(s, true)];
    var paid := d2.(services := d2.services[s := d2.services[s].(paidUntil := Some(paidUntil))]);
    assert OpenFor(paid, |d0.applications|, s);
    assert LatestOpen(paid, s, |paid.applications|).Some?;
    assert Step(d2, Refresh(s, paidUntil)) == Resumed(paid, s);
    assert d2.audit + [Entry(s, false)] == d0.audit + [Entry(s, true), Entry(s, false)];
  }

  const DAY: int := 86_400

  /** A service activated on 1 January 2024, and two ends of it that the ledger can store: whole anniversary months. */
  const JANUARY: int := 1_704_067_200
  const FEBRUARY: int := JANUARY + 31 * DAY
  const MARCH: int := FEBRUARY + 29 * DAY

  /** A service activated, paid for January, overdue on 10 February, and its suspension proposed and approved. */
  const APPROVED: seq<Event> :=
    [AddService, Activate(0), Refresh(0, FEBRUARY), Tick(40 * DAY), Propose(0, Holds(0, false, false, true)), Review(0, true)]

  const APPLY_IT: Event := Apply(0, Holds(0, false, false, true), true, false)

  lemma ApprovedDesk()
    ensures Run(Initial(JANUARY), APPROVED) == Desk(JANUARY + 40 * DAY, [Service(Active, true, Some(FEBRUARY))], [Proposal(0, FEBRUARY)], map[0 := true], [], [])
  {
    var d1 := Step(Initial(JANUARY), APPROVED[0]);
    var d2 := Step(d1, APPROVED[1]);
    var d3 := Step(d2, APPROVED[2]);
    var d4 := Step(d3, APPROVED[3]);
    var d5 := Step(d4, APPROVED[4]);
    var d6 := Step(d5, APPROVED[5]);
    assert d2.services == [Service(Active, true, None)];
    assert d4.services == [Service(Active, true, Some(FEBRUARY))] && d4.now == JANUARY + 40 * DAY;
    assert d5.proposals == [Proposal(0, FEBRUARY)];
    assert d6 == Desk(JANUARY + 40 * DAY, [Service(Active, true, Some(FEBRUARY))], [Proposal(0, FEBRUARY)], map[0 := true], [], []);
    hide Step;
    var es1, es2, es3, es4, es5 := APPROVED[1..], APPROVED[2..], APPROVED[3..], APPROVED[4..], APPROVED[5..];
    assert es1[1..] == es2 && es2[1..] == es3 && es3[1..] == es4 && es4[1..] == es5 && es5[1..] == [];
    assert Run(Initial(JANUARY), APPROVED) == Run(d1, es1);
    assert Run(d1, es1) == Run(d2, es2);
    assert Run(d2, es2) == Run(d3, es3);
    assert Run(d3, es3) == Run(d4, es4);
    assert Run(d4, es4) == Run(d5, es5);
    assert Run(d5, es5) == Run(d6, []);
  }

  lemma {:induction false} RunPlus(d: Desk, es: seq<Event>, fs: seq<Event>)
    ensures Run(d, es + fs) == Run(Run(d, es), fs)
    decreases |es|
  {
    hide Step;
    if es == [] {
      assert es + fs == fs;
    } else {
      assert (es + fs)[1..] == es[1..] + fs;
      RunPlus(Step(d, es[0]), es[1..], fs);
    }
  }

  /** The end moved on a month by a payment: the approval does nothing. Moved on and back by a reversal: it acts again. */
  lemma ReversalRevivesApproval()
    ensures var paid := Run(Initial(JANUARY), APPROVED + [Refresh(0, MARCH), APPLY_IT]);
            paid.services == [Service(Active, true, Some(MARCH))]
    ensures var back := Run(Initial(JANUARY), APPROVED + [Refresh(0, MARCH), Refresh(0, FEBRUARY), APPLY_IT]);
            back.services == [Service(Suspended, true, Some(FEBRUARY))]
  {
    ApprovedDesk();
    RunPlus(Initial(JANUARY), APPROVED, [Refresh(0, MARCH), APPLY_IT]);
    RunPlus(Initial(JANUARY), APPROVED, [Refresh(0, MARCH), Refresh(0, FEBRUARY), APPLY_IT]);
    MovedOnAndBack(Run(Initial(JANUARY), APPROVED));
  }

  lemma MovedOnAndBack(d: Desk)
    requires d == Desk(JANUARY + 40 * DAY, [Service(Active, true, Some(FEBRUARY))], [Proposal(0, FEBRUARY)], map[0 := true], [], [])
    ensures Run(d, [Refresh(0, MARCH), APPLY_IT]).services == [Service(Active, true, Some(MARCH))]
    ensures Run(d, [Refresh(0, MARCH), Refresh(0, FEBRUARY), APPLY_IT]).services == [Service(Suspended, true, Some(FEBRUARY))]
  {
    var paid := Step(d, Refresh(0, MARCH));
    assert paid == d.(services := [Service(Active, true, Some(MARCH))]);
    var back := Step(paid, Refresh(0, FEBRUARY));
    assert back == d.(services := [Service(Active, true, Some(FEBRUARY))]);
    assert Step(paid, APPLY_IT).services == [Service(Active, true, Some(MARCH))];
    assert Step(back, APPLY_IT).services == [Service(Suspended, true, Some(FEBRUARY))];
    hide Step;
    assert [Refresh(0, MARCH), APPLY_IT][1..] == [APPLY_IT];
    assert [Refresh(0, MARCH), Refresh(0, FEBRUARY), APPLY_IT][1..] == [Refresh(0, FEBRUARY), APPLY_IT];
    assert [Refresh(0, FEBRUARY), APPLY_IT][1..] == [APPLY_IT];
    assert Run(paid, [APPLY_IT]) == Step(paid, APPLY_IT);
    assert Run(back, [APPLY_IT]) == Step(back, APPLY_IT);
  }
}
