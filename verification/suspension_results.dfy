/** What each step of a suspension does, on the rows themselves, in every reachable desk. */
module SuspensionResults {
  import opened Common
  import opened Suspension
  import opened SuspensionSafety

  /** The service is active and installed, its end of service passed more than the hours of grace ago, and it has
      neither a billing dispute nor an outage. */
  predicate Overdue(v: Service, now: int, holds: Holds) {
    && v.status == Active && v.activated
    && v.paidUntil.Some? && v.paidUntil.value + 3600 * holds.graceHours <= now
    && !holds.dispute && !holds.outage
  }

  /** A proposal is made exactly for an overdue service, and keeps its end of service. */
  lemma ProposedExactlyWhen(d: Desk, s: nat, holds: Holds)
    ensures Step(d, Propose(s, holds))
            == if s < |d.services| && Overdue(d.services[s], d.now, holds)
               then d.(proposals := d.proposals + [Proposal(s, d.services[s].paidUntil.value)]) else d
    ensures Proposed(d, s, holds).Some? <==> s < |d.services| && Overdue(d.services[s], d.now, holds)
  {
  }

  /** The first decision on a proposal is recorded, and only that one; asking for the same again is accepted, for
      the opposite refused. */
  lemma ReviewedExactlyWhen(d: Desk, p: nat, approved: bool)
    ensures Step(d, Review(p, approved))
            == if p < |d.proposals| && p !in d.decisions then d.(decisions := d.decisions[p := approved]) else d
    ensures Reviewed(d, p, approved).Some? <==> p < |d.proposals| && (p in d.decisions ==> d.decisions[p] == approved)
  {
  }

  /** An application suspends exactly an overdue service whose end of service is still the one it was approved for, with
      the network confirmed healthy, at the request of staff or of the automatic policy; any other is recorded as blocked
      and leaves the service alone. */
  lemma AppliedExactlyWhen(now: int, es: seq<Event>, p: nat, holds: Holds, byStaff: bool, automatic: bool)
    requires var d := Run(Initial(now), es);
             && p < |d.proposals| && p in d.decisions && d.decisions[p]
             && forall a :: 0 <= a < |d.applications| ==> d.applications[a].proposal != p
    ensures var d := Run(Initial(now), es); var d' := Step(d, Apply(p, holds, byStaff, automatic));
            var s, snapshot := d.proposals[p].service, d.proposals[p].snapshot;
            && s < |d.services|
            && var v := d.services[s];
               var suspends := && v.status == Active && v.activated && v.paidUntil == Some(snapshot)
                               && snapshot + 3600 * holds.graceHours <= d.now
                               && !holds.dispute && !holds.outage && holds.healthy && (byStaff || automatic);
               d' == d.(applications := d.applications + [Application(p, suspends, false)],
                        services := if suspends then d.services[s := Service(Suspended, true, v.paidUntil)] else d.services,
                        audit := if suspends then d.audit + [Entry(s, true)] else d.audit)
  {
    hide Run;
    ReachableInv(now, es);
    var d := Run(Initial(now), es);
    assert !Tried(d.applications, p);
  }

  /** A proposal that is not approved, or was tried before, does nothing. */
  lemma NotAppliedOtherwise(d: Desk, p: nat, holds: Holds, byStaff: bool, automatic: bool)
    requires !(p < |d.proposals| && p in d.decisions && d.decisions[p])
             || exists a :: 0 <= a < |d.applications| && d.applications[a].proposal == p
    ensures Step(d, Apply(p, holds, byStaff, automatic)) == d
  {
    assert (exists a :: 0 <= a < |d.applications| && d.applications[a].proposal == p) <==> Tried(d.applications, p);
  }

  /** A new end of service is stored; it makes a service suspended by an application active again exactly when it lies
      ahead, and then releases the application that suspended it, the only open one. */
  lemma RefreshedExactlyWhen(now: int, es: seq<Event>, s: nat, until: int)
    requires s < |Run(Initial(now), es).services| && Run(Initial(now), es).services[s].activated
    ensures var d := Run(Initial(now), es); var d' := Step(d, Refresh(s, until)); var v := d.services[s];
            var resumes := v.status == Suspended && d.now < until;
            && d'.services == d.services[s := Service(if resumes then Active else v.status, true, Some(until))]
            && d'.audit == (if resumes then d.audit + [Entry(s, false)] else d.audit)
            && d'.proposals == d.proposals && d'.decisions == d.decisions && d'.now == d.now
            && |d'.applications| == |d.applications|
            && forall a :: 0 <= a < |d.applications| ==>
                 && d.applications[a].proposal < |d.proposals|
                 && d'.applications[a] == d.applications[a].(released := d.applications[a].released
                      || (resumes && d.applications[a].applied && d.proposals[d.applications[a].proposal].service == s))
  {
    hide Run, HasOpen, History;
    ReachableInv(now, es);
    SuspensionsAlternate(now, es, s);
    var d := Run(Initial(now), es);
    var d1 := d.(services := d.services[s := d.services[s].(paidUntil := Some(until))]);
    var latest := LatestOpen(d1, s, |d.applications|);
    assert forall a :: 0 <= a < |d.applications| ==> (OpenFor(d1, a, s) <==> OpenFor(d, a, s));
    OpenIsOpen(d, s);
    assert d.services[s].status == Suspended ==> latest.Some?;
    var d' := Step(d, Refresh(s, until));
    assert d' == Resumed(d1, s);
    if d.services[s].status == Suspended && d.now < until {
      assert d'.applications == d.applications[latest.value := d.applications[latest.value].(released := true)];
      assert d'.services == d.services[s := Service(Active, true, Some(until))];
      assert OpenFor(d, latest.value, s);
      forall a | 0 <= a < |d.applications|
        ensures d.applications[a].applied && d.proposals[d.applications[a].proposal].service == s && !d.applications[a].released ==> a == latest.value
      {
        assert d.applications[a].applied && d.proposals[d.applications[a].proposal].service == s && !d.applications[a].released ==> OpenFor(d, a, s);
      }
    } else {
      assert d' == d1;
    }
  }

  lemma OpenIsOpen(d: Desk, s: nat)
    ensures HasOpen(d, s) ==> exists a :: 0 <= a < |d.applications| && OpenFor(d, a, s)
  {
  }
}
