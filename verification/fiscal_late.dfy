/** What a request does that saves the draft it has read after the document has gone on. */
module FiscalLate {
  import opened Common
  import opened FiscalStore
  import opened FiscalProtocol
  import opened FiscalSafety
  import opened FiscalTheorems

  /** The save is made: the copy asks for it, and the queue does not refuse it. */
  predicate Saves(s: State, d: DocumentId, id: JobId) {
    && AboutToSave(s, d) && id !in s.db.jobs && NeedsDraft(s.requests[d].copy)
    && Issue(s.db, d, s.requests[d].copy, id).Ok?
  }

  /** A stamped document stays stamped in every step but one: a save of a draft read before the stamp. */
  lemma StampLostExactlyWhen(s: State, e: Event, d: DocumentId, u: Token)
    requires Inv(s) && HoldsStamp(s, d, u)
    ensures HoldsStamp(Step(s, e), d, u) <==> !(e.SaveAndQueue? && e.document == d && Saves(s, d, e.job))
  {
    if e.SaveAndQueue? {
      hide Inv, HasConflict, QueueObstacle;
    } else {
      StepKeepsStamp(s, e, d, u);
    }
  }

  /* ---- stamping a waiting draft ---- */

  /** The job waits, is due, and finds a document without a request. */
  predicate Waits(s: State, d: DocumentId, id: JobId) {
    && Claimable(s.db, id) && s.db.jobs[id].document == d && s.db.jobs[id].operation == StampIt
    && d in s.db.docs && s.db.docs[d].status == Draft && s.db.docs[d].requestXml.None?
    && s.nextToken !in s.calls
  }

  function Stamping(t: Token, id: JobId, serial: nat): seq<Event> {
    [ClaimRequest(id), Sign(t, serial), Begin(t), Send(t), PacStamps(t)]
  }

  /** The state after a worker has claimed the job and signed. */
  function Signed(s: State, d: DocumentId, id: JobId, serial: nat): State
    requires Waits(s, d, id)
  {
    var t := s.nextToken;
    var job := s.db.jobs[id].(status := Running, attempts := s.db.jobs[id].attempts + 1, token := Some(t),
                              lease := Some(s.db.now + LEASE_SECONDS));
    s.(db := s.db.(jobs := s.db.jobs[id := job], docs := s.db.docs[d := s.db.docs[d].(requestXml := Some(Xml(d, serial)))]),
       workers := s.workers[t := Worker(id, d, StampIt, Claimed)], nextToken := t + 1)
  }

  /** The state after it has also had the request stamped and waits for the answer. */
  function SentOut(s: State, t: Token, d: DocumentId, xml: Xml): State
    requires t in s.workers && d in s.db.docs
  {
    s.(db := SetStatus(s.db, d, Submitting), workers := s.workers[t := s.workers[t].(stage := Submitted)],
       calls := s.calls[t := Call(d, xml, PacStamped)])
  }

  lemma StampingGoesThrough(s: State, d: DocumentId, id: JobId, serial: nat)
    requires Waits(s, d, id)
    ensures Run(s, Stamping(s.nextToken, id, serial)) == SentOut(Signed(s, d, id, serial), s.nextToken, d, Xml(d, serial))
  {
    hide Run;
    var t, es := s.nextToken, Stamping(s.nextToken, id, serial);
    SignedAfterClaim(s, d, id, serial);
    hide Step;
    SentAfterBegin(Signed(s, d, id, serial), t);
    hide Waits;
    Run5(s, es);
  }

  lemma SignedAfterClaim(s: State, d: DocumentId, id: JobId, serial: nat)
    requires Waits(s, d, id)
    ensures Step(Step(s, ClaimRequest(id)), Sign(s.nextToken, serial)) == Signed(s, d, id, serial)
  {
  }

  lemma SentAfterBegin(s: State, t: Token)
    requires At(s, t, Claimed) && s.workers[t].operation == StampIt && Fenced(s.db, ClaimOf(s.workers[t], t)) && t !in s.calls
    requires var doc := s.db.docs[s.workers[t].document]; doc.status == Draft && doc.requestXml.Some?
    ensures var d := s.workers[t].document; var xml := s.db.docs[d].requestXml.value;
            Step(Step(Step(s, Begin(t)), Send(t)), PacStamps(t))
            == SentOut(s, t, d, xml)
  {
  }

  lemma Run5(s: State, es: seq<Event>)
    requires |es| == 5
    ensures Run(s, es) == Step(Step(Step(Step(Step(s, es[0]), es[1]), es[2]), es[3]), es[4])
  {
    hide Step;
    Run4(Step(s, es[0]), es[1..]);
  }

  lemma Run4(s: State, es: seq<Event>)
    requires |es| == 4
    ensures Run(s, es) == Step(Step(Step(Step(s, es[0]), es[1]), es[2]), es[3])
  {
    hide Step;
    var s1 := Step(s, es[0]);
    var s2 := Step(s1, es[1]);
    Run2(s2, es[2..]);
    assert es[1..][1..] == es[2..];
    assert Run(s, es) == Run(s1, es[1..]) && Run(s1, es[1..]) == Run(s2, es[2..]);
  }

  lemma Run2(s: State, es: seq<Event>)
    requires |es| == 2
    ensures Run(s, es) == Step(Step(s, es[0]), es[1])
  {
    hide Step;
    assert es[1..][1..] == [];
    assert Run(s, es) == Run(Step(s, es[0]), es[1..]);
    }

  lemma {:induction false} RunAppend(s: State, es: seq<Event>, fs: seq<Event>)
    ensures Run(s, es + fs) == Run(Run(s, es), fs)
    decreases |es|
  {
    hide Step;
    if es == [] {
      assert es + fs == fs;
    } else {
      assert (es + fs)[1..] == es[1..] + fs;
      RunAppend(Step(s, es[0]), es[1..], fs);
    }
  }

  /** Only a save can be late. */
  lemma {:induction false} NoSaveNoneLate(s: State, es: seq<Event>)
    requires forall k :: 0 <= k < |es| ==> !es[k].SaveAndQueue?
    ensures AllOnTime(s, es)
    decreases |es|
  {
    hide Step;
    if es != [] { NoSaveNoneLate(Step(s, es[0]), es[1..]); }
  }

  /* ---- the second stamp ---- */

  lemma SavedWaits(s: State, d: DocumentId, id: JobId)
    requires s.nextToken !in s.calls && Saves(s, d, id) && !HasActive(s.db, d)
    ensures var s1 := Step(s, SaveAndQueue(d, id));
            Waits(s1, d, id) && s1.calls == s.calls && s1.nextToken == s.nextToken
  {
  }

  /** After a late save a second CFDI of the document can be stamped: nothing that follows is late. */
  lemma LateSaveDoubles(s: State, d: DocumentId, id: JobId, u: Token)
    requires Inv(s) && Saves(s, d, id) && !HasActive(s.db, d)
    requires u in s.calls && s.calls[u].document == d && (s.calls[u].status == PacStamped || s.calls[u].status == InFlight)
    ensures var s1 := Step(s, SaveAndQueue(d, id));
            var after := Stamping(s.nextToken, id, 0) + [PacStamps(u)];
            && AllOnTime(s1, after)
            && u != s.nextToken && StampedAs(Run(s1, after).calls, d, u) && StampedAs(Run(s1, after).calls, d, s.nextToken)
  {
    KnownCall(s, u);
    assert s.nextToken !in s.calls by { if s.nextToken in s.calls { KnownCall(s, s.nextToken); } }
    hide Inv;
    SavedWaits(s, d, id);
    hide Saves, HasActive, Waits, Step;
    var s1 := Step(s, SaveAndQueue(d, id));
    StampingCalls(s1, d, id);
    hide Stamping;
    LateAnswer(Run(s1, Stamping(s.nextToken, id, 0)), u);
    RunAppend(s1, Stamping(s.nextToken, id, 0), [PacStamps(u)]);
    StampingSaves(s.nextToken, id, u);
    NoSaveNoneLate(s1, Stamping(s.nextToken, id, 0) + [PacStamps(u)]);
  }

  lemma StampingSaves(t: Token, id: JobId, u: Token)
    ensures var es := Stamping(t, id, 0) + [PacStamps(u)]; forall k :: 0 <= k < |es| ==> !es[k].SaveAndQueue?
  {
  }

  lemma StampingCalls(s: State, d: DocumentId, id: JobId)
    requires Waits(s, d, id)
    ensures Run(s, Stamping(s.nextToken, id, 0)).calls == s.calls[s.nextToken := Call(d, Xml(d, 0), PacStamped)]
  {
    hide Run, Waits;
    StampingGoesThrough(s, d, id, 0);
  }

  lemma LateAnswer(s: State, u: Token)
    requires u in s.calls && (s.calls[u].status == PacStamped || s.calls[u].status == InFlight)
    ensures Run(s, [PacStamps(u)]).calls == s.calls[u := s.calls[u].(status := PacStamped)]
  {
    assert [PacStamps(u)][1..] == [];
    assert Run(s, [PacStamps(u)]) == Step(s, PacStamps(u));
  }

  /** No continuation in time stamps document `d` twice. */
  ghost predicate OneStampAhead(s: State, d: DocumentId) {
    forall after: seq<Event>, t: Token, u: Token ::
      AllOnTime(s, after) && StampedAs(Run(s, after).calls, d, t) && StampedAs(Run(s, after).calls, d, u) ==> t == u
  }

  lemma OneStampFollows(s: State, d: DocumentId)
    requires Inv(s)
    ensures OneStampAhead(s, d)
  {
    hide Inv, AllOnTime, Run;
    forall after: seq<Event>, t: Token, u: Token
      | AllOnTime(s, after) && StampedAs(Run(s, after).calls, d, t) && StampedAs(Run(s, after).calls, d, u)
      ensures t == u
    {
      RunKeepsInv(s, after);
      SameStamp(Run(s, after), d, t, u);
    }
  }

  lemma SameStamp(s: State, d: DocumentId, t: Token, u: Token)
    requires Inv(s) && StampedAs(s.calls, d, t) && StampedAs(s.calls, d, u)
    ensures t == u
  {
  }

  /** The document's request has reached the service if the row says that it may have. */
  ghost predicate HasArrived(s: State, d: DocumentId) {
    d in s.db.docs && (s.db.docs[d].status == Submitting || s.db.docs[d].status == Uncertain) ==>
      exists u :: u in s.calls && s.calls[u].document == d && (s.calls[u].status == PacStamped || s.calls[u].status == InFlight)
  }

  /** A save of a draft leaves one stamp in every continuation exactly when the row is still a draft or rejected. */
  lemma SecondStampExactlyWhen(s: State, d: DocumentId, id: JobId)
    requires Inv(s) && Saves(s, d, id) && !HasActive(s.db, d) && HasArrived(s, d)
    ensures OneStampAhead(Step(s, SaveAndQueue(d, id)), d) <==> s.db.docs[d].status == Draft || s.db.docs[d].status == Error
  {
    if s.db.docs[d].status == Draft || s.db.docs[d].status == Error {
      hide Inv;
      StepKeepsInv(s, SaveAndQueue(d, id));
      hide Step;
      OneStampFollows(Step(s, SaveAndQueue(d, id)), d);
    } else {
      var u := ArrivedCall(s, d);
      hide *;
      LateSaveDoubles(s, d, id, u);
      TwoStampsAhead(Step(s, SaveAndQueue(d, id)), d, Stamping(s.nextToken, id, 0) + [PacStamps(u)], u, s.nextToken);
    }
  }

  lemma TwoStampsAhead(s: State, d: DocumentId, after: seq<Event>, t: Token, u: Token)
    requires AllOnTime(s, after) && t != u && StampedAs(Run(s, after).calls, d, t) && StampedAs(Run(s, after).calls, d, u)
    ensures !OneStampAhead(s, d)
  {
  }

  /** A document past its draft has a call that was, or may yet be, stamped. */
  lemma ArrivedCall(s: State, d: DocumentId) returns (u: Token)
    requires Inv(s) && HasArrived(s, d) && d in s.db.docs && s.db.docs[d].status != Draft && s.db.docs[d].status != Error
    ensures u in s.calls && s.calls[u].document == d && (s.calls[u].status == PacStamped || s.calls[u].status == InFlight)
  {
    assert DocOk(s.calls, d, s.db.docs[d]);
    if s.db.docs[d].stamp.Some? {
      u := s.db.docs[d].stamp.value;
    } else {
      u :| u in s.calls && s.calls[u].document == d && (s.calls[u].status == PacStamped || s.calls[u].status == InFlight);
    }
  }

  /* ---- the run ---- */

  /** The first request queues a job; a second one reads the draft; the job signs, sends, is stamped and
      ends; the second request sees no job, saves its draft over the stamped row and queues again. */
  function StampedMeanwhile(): seq<Event> {
    [IssueFirst(0, 0), ReadDocument(0)] + Stamping(0, 0, 0) + [Receive(0), WriteBack(0), Finish(0), SeeNoJob(0)]
  }

  lemma SecondStamp(now: Time)
    ensures AllOnTime(Initial(now), StampedMeanwhile())
    ensures var events := StampedMeanwhile() + ([SaveAndQueue(0, 1)] + Stamping(1, 1, 0));
            var s := Run(Initial(now), events);
            StampedAs(s.calls, 0, 0) && StampedAs(s.calls, 0, 1)
  {
    hide Run, AllOnTime;
    var first, last := [IssueFirst(0, 0), ReadDocument(0)], [Receive(0), WriteBack(0), Finish(0), SeeNoJob(0)];
    NoSaveNoneLate(Initial(now), StampedMeanwhile());
    FirstRequest(now);
    var s1 := Run(Initial(now), first);
    StampingGoesThrough(s1, 0, 0, 0);
    var s2 := SentOut(Signed(s1, 0, 0, 0), 0, 0, Xml(0, 0));
    JobEnds(s2, 0);
    var s3 := Run(s2, last);
    RunAppend(Initial(now), first + Stamping(0, 0, 0), last);
    RunAppend(Initial(now), first, Stamping(0, 0, 0));
    SavedWaits(s3, 0, 1);
    hide Step;
    StampingGoesThrough(Step(s3, SaveAndQueue(0, 1)), 0, 1, 0);
    RunNext(s3, SaveAndQueue(0, 1), Stamping(1, 1, 0));
    RunAppend(Initial(now), StampedMeanwhile(), [SaveAndQueue(0, 1)] + Stamping(1, 1, 0));
  }

  lemma RunNext(s: State, e: Event, es: seq<Event>)
    ensures Run(s, [e] + es) == Run(Step(s, e), es)
  {
    hide Step;
    assert ([e] + es)[1..] == es;
  }

  lemma FirstRequest(now: Time)
    ensures var draft := Document(Draft, None, None);
            Run(Initial(now), [IssueFirst(0, 0), ReadDocument(0)])
            == State(Db(now, map[0 := draft], map[0 := Job(0, StampIt, "", Queued, 0, None, None, now)]),
                     map[], map[], 0, map[0 := Request(draft, false)])
  {
    var s := Initial(now);
    assert !HasActive(s.db.(docs := map[0 := Document(Draft, None, None)]), 0);
    assert [IssueFirst(0, 0), ReadDocument(0)][1..] == [ReadDocument(0)] && [ReadDocument(0)][1..] == [];
    assert Run(s, [IssueFirst(0, 0), ReadDocument(0)]) == Step(Step(s, IssueFirst(0, 0)), ReadDocument(0));
  }

  /** The only job of document 0 ends, stamped; the waiting request sees no job. */
  lemma JobEnds(s: State, t: Token)
    requires t in s.workers && s.workers[t] == Worker(0, 0, StampIt, Submitted) && s.db.jobs.Keys == {0}
    requires Fenced(s.db, Claim(0, t)) && t in s.calls && s.calls[t].status == PacStamped && s.db.jobs[0].document == 0
    requires 0 in s.db.docs && 0 in s.requests && s.requests[0].copy == Document(Draft, None, None)
    ensures var s' := Run(s, [Receive(t), WriteBack(t), Finish(t), SeeNoJob(0)]);
            && s'.calls == s.calls && s'.nextToken == s.nextToken && Saves(s', 0, 1) && !HasActive(s'.db, 0)
            && HoldsStamp(s', 0, t)
  {
    hide Run;
    Stamps(s, t);
    var s2 := Step(Step(s, Receive(t)), WriteBack(t));
    hide Step;
    JobLeaves(s2, t);
    Run4(s, [Receive(t), WriteBack(t), Finish(t), SeeNoJob(0)]);
  }

  lemma Stamps(s: State, t: Token)
    requires t in s.workers && s.workers[t] == Worker(0, 0, StampIt, Submitted) && 0 in s.db.docs
    requires Fenced(s.db, Claim(0, t)) && t in s.calls && s.calls[t].status == PacStamped
    ensures Step(Step(s, Receive(t)), WriteBack(t))
            == Move(s.(db := s.db.(docs := s.db.docs[0 := s.db.docs[0].(stamp := Some(t), status := Stamped)])), t, Done(true))
  {
    var s1 := Step(s, Receive(t));
    assert s1 == Move(s, t, Answered(Granted(t)));
  }

  lemma JobLeaves(s: State, t: Token)
    requires t in s.workers && s.workers[t] == Worker(0, 0, StampIt, Done(true)) && s.db.jobs.Keys == {0}
    requires Fenced(s.db, Claim(0, t)) && HoldsStamp(s, 0, t)
    requires 0 in s.requests && s.requests[0].copy == Document(Draft, None, None)
    ensures var s' := Step(Step(s, Finish(t)), SeeNoJob(0));
            && s'.calls == s.calls && s'.nextToken == s.nextToken && Saves(s', 0, 1) && !HasActive(s'.db, 0)
            && HoldsStamp(s', 0, t)
  {
    var s1 := Step(s, Finish(t));
    assert s1 == s.(db := FinishJob(s.db, Claim(0, t), 0, true), workers := s.workers - {t});
    assert !HasActive(s1.db, 0);
    var s2 := Step(s1, SeeNoJob(0));
    assert s2 == s1.(requests := s.requests[0 := s.requests[0].(idle := true)]);
    assert !HasActive(SaveDraft(s2.db, 0, s2.requests[0].copy), 0);
  }
}
