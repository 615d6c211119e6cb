/** What each transaction of the fiscal worker leaves behind, row by row, in every reachable state. */
module FiscalResults {
  import opened Common
  import opened FiscalStore
  import opened FiscalProtocol
  import opened FiscalRequests
  import opened FiscalSafety
  import opened FiscalTheorems
  import opened FiscalLate

  /* ---- rows that refer to rows ---- */

  /** Every job and every worker is for a document that exists. */
  ghost predicate RowsThere(s: State) {
    && (forall id :: id in s.db.jobs ==> s.db.jobs[id].document in s.db.docs)
    && (forall t :: t in s.workers ==> s.workers[t].document in s.db.docs)
  }

  lemma DocumentsStay(s: State, e: Event)
    ensures s.db.docs.Keys <= Step(s, e).db.docs.Keys
  {
    hide QueueJob, FinishJob, ClaimJob, Fenced, Follows, Recoverable, At,
      StepSign, StepBegin, StepReceive, StepQueryFinds, StepWriteBack, StepBeginCancellation, StepWriteCancellation, StepStatusReply;
  }

  lemma NewJobHasDocument(s: State, e: Event, id: JobId)
    requires TouchesJobs(e) && id in Step(s, e).db.jobs
    ensures if id in s.db.jobs then Step(s, e).db.jobs[id].document == s.db.jobs[id].document
            else Step(s, e).db.jobs[id].document in Step(s, e).db.docs
  {
    hide HasActive, HasConflict, QueueObstacle, Follows, Recoverable, NextOperation, SaveDraft,
      StepSign, StepBegin, StepReceive, StepQueryFinds, StepWriteBack, StepBeginCancellation, StepWriteCancellation, StepStatusReply;
  }

  lemma StepKeepsRows(s: State, e: Event)
    requires RowsThere(s)
    ensures RowsThere(Step(s, e))
  {
    hide Step;
    DocumentsStay(s, e);
    forall id | id in Step(s, e).db.jobs
      ensures Step(s, e).db.jobs[id].document in Step(s, e).db.docs
    {
      if TouchesJobs(e) { NewJobHasDocument(s, e, id); } else { JobsStay(s, e); }
    }
    forall t | t in Step(s, e).workers
      ensures Step(s, e).workers[t].document in Step(s, e).db.docs
    {
      if e.ClaimRequest? { ClaimedWorker(s, e.job, t); } else { WorkersStay(s, e, t); }
    }
  }

  lemma ClaimedWorker(s: State, id: JobId, t: Token)
    requires t in Step(s, ClaimRequest(id)).workers
    ensures (t in s.workers && Step(s, ClaimRequest(id)).workers[t] == s.workers[t])
            || (id in s.db.jobs && Step(s, ClaimRequest(id)).workers[t].document == s.db.jobs[id].document)
  {
  }

  lemma {:induction false} RunKeepsRows(s: State, events: seq<Event>)
    requires RowsThere(s)
    ensures RowsThere(Run(s, events))
    decreases |events|
  {
    hide RowsThere, Step;
    if events != [] {
      StepKeepsRows(s, events[0]);
      RunKeepsRows(Step(s, events[0]), events[1..]);
    }
  }

  lemma Reached(now: Time, events: seq<Event>)
    ensures Base(Run(Initial(now), events)) && RowsThere(Run(Initial(now), events))
  {
    ReachableBase(now, events);
    hide Run;
    RunKeepsRows(Initial(now), events);
  }

  /* ---- queueing and claiming ---- */

  /** The document has a job that waits or runs. */
  ghost predicate Occupied(s: State, d: DocumentId) {
    exists k :: k in s.db.jobs && s.db.jobs[k].document == d && (s.db.jobs[k].status == Queued || s.db.jobs[k].status == Running)
  }

  /** What a document must be like for an operation to be queued for it. */
  predicate Suits(doc: Document, op: Operation) {
    match op
    case StampIt => doc.status != Submitting && doc.status != Uncertain
    case Recover => doc.requestXml.Some?
    case Cancel => doc.status == Stamped || doc.status == CancelPending || doc.status == Cancelled
    case CancellationStatus => doc.stamp.Some?
    case Pdf => doc.stamp.Some?
  }

  /** A new job is queued exactly when the document is there, not occupied, and suits the operation; nothing else changes. */
  lemma QueuedExactlyWhen(s: State, op: Operation, d: DocumentId, payload: string, id: JobId)
    requires id !in s.db.jobs
    ensures var s' := Step(s, QueueRequest(op, d, payload, id));
            s' == if d in s.db.docs && !Occupied(s, d) && Suits(s.db.docs[d], op)
                  then s.(db := s.db.(jobs := s.db.jobs[id := Job(d, op, payload, Queued, 0, None, None, s.db.now)]))
                  else s
  {
    assert Occupied(s, d) <==> HasActive(s.db, d);
  }

  /** A request is answered with a job exactly when there is a new one, or every job that occupies the
      document is for the same operation and payload. */
  lemma AnsweredExactlyWhen(s: State, op: Operation, d: DocumentId, payload: string, id: JobId)
    requires id !in s.db.jobs
    ensures QueueJob(s.db, op, d, payload, id).Ok? <==>
            d in s.db.docs
            && (if Occupied(s, d)
                then forall k :: k in s.db.jobs && s.db.jobs[k].document == d && (s.db.jobs[k].status == Queued || s.db.jobs[k].status == Running)
                                 ==> s.db.jobs[k].operation == op && s.db.jobs[k].payload == payload
                else Suits(s.db.docs[d], op))
  {
    assert Occupied(s, d) <==> HasActive(s.db, d);
    if HasConflict(s.db, d, op, payload) {
      var k :| k in s.db.jobs && s.db.jobs[k].document == d && Active(s.db.jobs[k])
               && (s.db.jobs[k].operation != op || s.db.jobs[k].payload != payload);
      assert s.db.jobs[k].document == d && (s.db.jobs[k].status == Queued || s.db.jobs[k].status == Running);
    }
  }

  /** Why a request is refused: no such document; a job for something else; a stamp in doubt; a request or a stamp that
      is missing; nothing to cancel. */
  lemma RefusedWhy(s: State, op: Operation, d: DocumentId, payload: string, id: JobId)
    requires id !in s.db.jobs
    ensures var r := QueueJob(s.db, op, d, payload, id);
            && (d !in s.db.docs ==> r == Err(NoSuchRow))
            && (d in s.db.docs && Occupied(s, d) && r.Err? ==> r == Err(Busy))
            && (d in s.db.docs && !Occupied(s, d) && !Suits(s.db.docs[d], op) ==>
                  r == match op
                       case StampIt => Err(MaybeStamped)
                       case Cancel => Err(NotStamped)
                       case _ => Err(XmlMissing))
  {
    assert Occupied(s, d) <==> HasActive(s.db, d);
  }

  /** The claim of worker `t` stands: its row still runs under its token, and the lease has not run out. */
  predicate Stands(s: State, t: Token) {
    && t in s.workers && s.workers[t].job in s.db.jobs
    && var j := s.db.jobs[s.workers[t].job];
       j.status == Running && j.token == Some(t) && j.lease.Some? && s.db.now < j.lease.value
  }

  /** A job that waits and is due is claimed by a new worker; no other is. */
  lemma ClaimedExactlyWhen(s: State, id: JobId)
    ensures var s' := Step(s, ClaimRequest(id));
            if id in s.db.jobs && s.db.jobs[id].status == Queued && s.db.jobs[id].availableAt <= s.db.now then
              var j := s.db.jobs[id];
              && s'.db == s.db.(jobs := s.db.jobs[id := Job(j.document, j.operation, j.payload, Running, j.attempts + 1,
                                                          Some(s.nextToken), Some(s.db.now + 300), j.availableAt)])
              && s'.workers == s.workers[s.nextToken := Worker(id, j.document, j.operation, Claimed)]
            else s' == s
  {
  }

  /** However long the worker then pauses, its claim stands for exactly 300 seconds, and the job can be
      recovered only after them. */
  lemma ClaimLasts(s: State, id: JobId, later: Time)
    requires id in s.db.jobs && s.db.jobs[id].status == Queued && s.db.jobs[id].availableAt <= s.db.now <= later
    ensures var s' := Run(s, [ClaimRequest(id), Tick(later)]);
            && (Stands(s', s.nextToken) <==> later < s.db.now + 300)
            && (Stands(s', s.nextToken) <==> Fenced(s'.db, Claim(id, s.nextToken)))
            && (Recoverable(s'.db, id) <==> s.db.now + 300 < later)
  {
    hide Run;
    Run2(s, [ClaimRequest(id), Tick(later)]);
  }

  /** The fence is what it says. */
  lemma FenceIs(s: State, t: Token)
    requires t in s.workers
    ensures Stands(s, t) <==> Fenced(s.db, ClaimOf(s.workers[t], t))
  {
  }

  /** Why a transaction of a worker is refused: first of all because its claim fell. */
  lemma WorkRefusedWhy(s: State, t: Token, xml: Xml, recover: bool, dependents: bool)
    requires t in s.workers && s.workers[t].document in s.db.docs
    ensures var c, d := Claim(s.workers[t].job, t), s.workers[t].document; var doc := s.db.docs[d];
            var stamped := doc.status == Stamped || doc.status == CancelPending || doc.status == Cancelled;
            var doubtful := doc.status == Submitting || doc.status == Uncertain;
            var sign, begin, cancel := SignRequest(s.db, c, d, xml), BeginSubmit(s.db, c, d, recover), BeginCancel(s.db, c, d, dependents);
            if !Stands(s, t) then sign == Err(StaleClaim) && begin == Err(StaleClaim) && cancel == Err(StaleClaim) else
            && (sign.Err? ==> sign == Err(NeedsReview) && doc.requestXml.None? && doc.status != Draft)
            && (begin.Err? ==> begin == Err(if doubtful && !recover then MaybeStamped else XmlMissing) && !stamped)
            && (cancel.Err? ==> cancel == Err(if doc.status == Stamped then Blocked else NotStamped) && (doc.status == Stamped ==> dependents))
  {
  }

  /* ---- the transactions of a standing claim ---- */

  predicate AtStage(s: State, t: Token, stage: Stage) { t in s.workers && s.workers[t].stage == stage }

  /** The document of worker `t`. */
  function DocumentOf(s: State, t: Token): Document
    requires t in s.workers && s.workers[t].document in s.db.docs
  {
    s.db.docs[s.workers[t].document]
  }

  function WithDocument(s: State, t: Token, doc: Document, stage: Stage): State
    requires t in s.workers
  {
    s.(db := s.db.(docs := s.db.docs[s.workers[t].document := doc]), workers := s.workers[t := s.workers[t].(stage := stage)])
  }

  function AtNow(s: State, t: Token, stage: Stage): State
    requires t in s.workers
  {
    s.(workers := s.workers[t := s.workers[t].(stage := stage)])
  }

  /** Signing: a draft without a request gets one, once; a request that is there is kept; a document that is no
      draft and has none stops the worker, and so does a claim that fell. */
  lemma SignedExactlyWhen(now: Time, events: seq<Event>, t: Token, serial: nat)
    requires var s := Run(Initial(now), events); AtStage(s, t, Claimed) && s.workers[t].operation == StampIt
    ensures var s := Run(Initial(now), events); var s' := Step(s, Sign(t, serial)); var d := s.workers[t].document;
            && d in s.db.docs
            && var doc := s.db.docs[d];
               s' == if !Stands(s, t) || (doc.requestXml.None? && doc.status != Draft) then AtNow(s, t, Done(false))
                     else if doc.requestXml.Some? then s
                     else WithDocument(s, t, Document(Draft, Some(Xml(d, serial)), doc.stamp), Claimed)
  {
    hide Run;
    Reached(now, events);
    FenceIs(Run(Initial(now), events), t);
  }

  /** A stamping call begins exactly under a standing claim, with a request, on a document that is not stamped and,
      unless it is a lookup, not in doubt. */
  lemma CallBeginsExactlyWhen(now: Time, events: seq<Event>, t: Token)
    requires var s := Run(Initial(now), events); AtStage(s, t, Claimed) && (s.workers[t].operation == StampIt || s.workers[t].operation == Recover)
    ensures var s := Run(Initial(now), events); var s' := Step(s, Begin(t)); var w := s.workers[t]; var d := w.document;
            && d in s.db.docs
            && var doc := s.db.docs[d];
               var stamped := doc.status == Stamped || doc.status == CancelPending || doc.status == Cancelled;
               var doubtful := doc.status == Submitting || doc.status == Uncertain;
               s' == if Stands(s, t) && stamped then AtNow(s, t, Done(true))
                     else if !Stands(s, t) || (doubtful && w.operation == StampIt) || doc.requestXml.None? then AtNow(s, t, Done(false))
                     else if w.operation == Recover then WithDocument(s, t, doc.(status := Submitting), Submitted)
                     else WithDocument(s, t, doc.(status := Submitting), Submitted).(calls := s.calls[t := Call(d, doc.requestXml.value, Unsent)])
  {
    hide Run;
    Reached(now, events);
    FenceIs(Run(Initial(now), events), t);
  }

  /** The second transaction: a stamp is stored, a rejected stamp call is an error, and whatever else came back leaves doubt. */
  lemma AnswerWrites(now: Time, events: seq<Event>, t: Token)
    requires var s := Run(Initial(now), events); t in s.workers && s.workers[t].stage.Answered?
    ensures var s := Run(Initial(now), events); var s' := Step(s, WriteBack(t)); var w := s.workers[t];
            && w.document in s.db.docs
            && var doc := s.db.docs[w.document];
               s' == if !Stands(s, t) then AtNow(s, t, Done(false))
                     else if w.stage.answer.Granted? then
                       WithDocument(s, t, Document(Stamped, doc.requestXml, Some(w.stage.answer.stamp)), Done(true))
                     else if w.stage.answer.Rejected? && w.operation != Recover then WithDocument(s, t, doc.(status := Error), Done(false))
                     else WithDocument(s, t, doc.(status := Uncertain), Done(false))
  {
    hide Run;
    Reached(now, events);
    FenceIs(Run(Initial(now), events), t);
  }

  /** A cancellation is asked for exactly under a standing claim, on a stamped document without standing dependents; one
      that is already asked for, or confirmed, is done. */
  lemma CancellationBeginsExactlyWhen(now: Time, events: seq<Event>, t: Token, dependents: bool)
    requires var s := Run(Initial(now), events); AtStage(s, t, Claimed) && s.workers[t].operation == Cancel
    ensures var s := Run(Initial(now), events); var s' := Step(s, BeginCancellation(t, dependents)); var d := s.workers[t].document;
            && d in s.db.docs
            && var doc := s.db.docs[d];
               s' == if Stands(s, t) && (doc.status == CancelPending || doc.status == Cancelled) then AtNow(s, t, Done(true))
                     else if Stands(s, t) && doc.status == Stamped && !dependents then WithDocument(s, t, doc.(status := CancelPending), CancelSent)
                     else AtNow(s, t, Done(false))
  {
    hide Run;
    Reached(now, events);
    FenceIs(Run(Initial(now), events), t);
  }

  /** Only a definitive rejection makes the document stamped again; only a confirmation makes it cancelled. */
  lemma CancellationWrites(now: Time, events: seq<Event>, t: Token)
    requires var s := Run(Initial(now), events); t in s.workers && s.workers[t].stage.CancelAnswered?
    ensures var s := Run(Initial(now), events); var s' := Step(s, WriteCancellation(t)); var w := s.workers[t];
            && w.document in s.db.docs
            && s' == if !Stands(s, t) then AtNow(s, t, Done(false))
                     else if w.stage.rejected then WithDocument(s, t, DocumentOf(s, t).(status := Stamped), Done(false))
                     else AtNow(s, t, Done(true))
  {
    hide Run;
    Reached(now, events);
    FenceIs(Run(Initial(now), events), t);
  }

  lemma ConfirmationWrites(now: Time, events: seq<Event>, t: Token, cancelled: bool)
    requires var s := Run(Initial(now), events); AtStage(s, t, Claimed) && s.workers[t].operation == CancellationStatus
    ensures var s := Run(Initial(now), events); var s' := Step(s, StatusReply(t, cancelled)); var w := s.workers[t];
            && w.document in s.db.docs
            && s' == if !cancelled then AtNow(s, t, Done(true))
                     else if Stands(s, t) then WithDocument(s, t, DocumentOf(s, t).(status := Cancelled), Done(true))
                     else AtNow(s, t, Done(false))
  {
    hide Run;
    Reached(now, events);
    FenceIs(Run(Initial(now), events), t);
  }

  /* ---- the recorded result ---- */

  /** The result of a job: its success, or whether its failure leaves the document in doubt. */
  predicate ResultIs(status: JobStatus, succeeded: bool, doc: DocumentStatus) {
    var doubt := doc == Uncertain || doc == Submitting || doc == CancelPending;
    && (status == Succeeded <==> succeeded)
    && (status == Review <==> !succeeded && doubt)
    && (status == Failed <==> !succeeded && !doubt)
  }

  /** Under a standing claim the end of a worker records exactly that on its own row, and gives up the lease; a worker
      whose claim fell records nothing. */
  lemma FinishRecords(now: Time, events: seq<Event>, t: Token)
    requires var s := Run(Initial(now), events); t in s.workers && s.workers[t].stage.Done?
    ensures var s := Run(Initial(now), events); var s' := Step(s, Finish(t)); var w := s.workers[t];
            && w.job in s.db.jobs && w.job in s'.db.jobs && s.db.jobs[w.job].document == w.document && w.document in s.db.docs
            && var before, after := s.db.jobs[w.job], s'.db.jobs[w.job];
               && s' == s.(workers := s.workers - {t}, db := s.db.(jobs := s.db.jobs[w.job := after]))
               && (if Stands(s, t)
                   then after == before.(status := after.status, lease := None)
                        && ResultIs(after.status, w.stage.succeeded, s.db.docs[w.document].status)
                   else after == before)
  {
    hide Run;
    Reached(now, events);
    FenceIs(Run(Initial(now), events), t);
  }

  /* ---- recovery ---- */

  /** A job is recovered exactly when it runs and its lease has run out. It waits again unless it was claimed three
      times, and then for review; a stamp whose request is signed becomes a lookup, a cancellation an enquiry; a
      document left submitting by a stamp call is in doubt. */
  lemma RecoveredExactlyWhen(now: Time, events: seq<Event>, id: JobId)
    requires id in Run(Initial(now), events).db.jobs
    ensures var s := Run(Initial(now), events); var s' := Step(s, RecoverExpired(id)); var j := s.db.jobs[id]; var d := j.document;
            && d in s.db.docs
            && (if j.status == Running && j.lease.Some? && j.lease.value < s.db.now then
                  && id in s'.db.jobs && s' == s.(db := s.db.(jobs := s.db.jobs[id := s'.db.jobs[id]], docs := s'.db.docs))
                  && var r := s'.db.jobs[id];
                     && r.document == d && r.attempts == j.attempts && r.token == None && r.lease == None && r.availableAt == s.db.now
                     && r.status == (if j.attempts < 3 then Queued else Review)
                     && r.payload == (if j.operation == Cancel then "" else j.payload)
                     && r.operation == (if j.operation == StampIt && s.db.docs[d].requestXml.Some? then Recover
                                        else if j.operation == Cancel then CancellationStatus else j.operation)
                     && s'.db.docs == (if j.operation == StampIt && s.db.docs[d].status == Submitting
                                       then s.db.docs[d := s.db.docs[d].(status := Uncertain)] else s.db.docs)
                else s' == s)
  {
    hide Run;
    Reached(now, events);
  }

  /** A request saves exactly the draft of a copy without a request or in error, and only together with a job
      that the queue gives it. */
  lemma SavedExactlyWhen(s: State, d: DocumentId, id: JobId)
    requires d in s.requests && s.requests[d].idle && d in s.db.docs && id !in s.db.jobs
    ensures var s' := Step(s, SaveAndQueue(d, id)); var copy := s.requests[d].copy;
            var drafted := Document(Draft, None, s.db.docs[d].stamp);
            var saves := copy.requestXml.None? || copy.status == Error;
            var db := if saves then s.db.(docs := s.db.docs[d := drafted]) else s.db;
            && s'.requests == s.requests - {d}
            && (QueueJob(db, StampIt, d, "", id).Ok? ==>
                  s'.db == db.(jobs := if Occupied(s, d) then s.db.jobs else s.db.jobs[id := Job(d, StampIt, "", Queued, 0, None, None, s.db.now)]))
            && (QueueJob(db, StampIt, d, "", id).Err? ==> s'.db == s.db)
  {
    assert Occupied(s, d) <==> HasActive(s.db, d);
    assert HasActive(SaveDraft(s.db, d, s.requests[d].copy), d) <==> HasActive(s.db, d);
  }

  /* ---- how a job ends ---- */

  /** From `s` to `s'` the document of worker `t` became `doc`, its job ended with `status`, and the worker is gone. */
  ghost predicate EndsAs(s: State, s': State, t: Token, doc: Document, status: JobStatus) {
    && t in s.workers && s.workers[t].job in s.db.jobs && s.workers[t].document in s.db.docs
    && s'.db.docs == s.db.docs[s.workers[t].document := doc]
    && s'.db.jobs == s.db.jobs[s.workers[t].job := s.db.jobs[s.workers[t].job].(status := status, lease := None)]
    && t !in s'.workers
  }

  /** Worker `t` holds its claim and is at `stage`, with its rows in place. */
  predicate Holding(s: State, t: Token, stage: Stage) {
    && Stands(s, t) && s.workers[t].stage == stage && s.workers[t].document in s.db.docs
    && s.db.jobs[s.workers[t].job].document == s.workers[t].document
  }

  /** The worker has only moved on since `s`. */
  predicate MovedOn(s: State, s1: State, t: Token, stage: Stage) {
    t in s.workers && s1.db == s.db && s1.workers == s.workers[t := s.workers[t].(stage := stage)]
  }

  /** What a worker has learnt, the document that it leaves and the result of its job. */
  function Outcome(doc: Document, recover: bool, answer: Answer): (Document, JobStatus) {
    match answer
    case Granted(u) => (Document(Stamped, doc.requestXml, Some(u)), Succeeded)
    case Rejected => if recover then (doc.(status := Uncertain), Review) else (doc.(status := Error), Failed)
    case Lost => (doc.(status := Uncertain), Review)
  }

  lemma Then3(s: State, e: Event, f: Event, g: Event)
    ensures Run(s, [e, f, g]) == Run(Step(s, e), [f, g])
  {
    hide Run, Step;
    assert [e, f, g] == [e] + [f, g];
    RunNext(s, e, [f, g]);
  }

  lemma Then4(s: State, e: Event, f: Event, g: Event, h: Event)
    ensures Run(s, [e, f, g, h]) == Run(Step(Step(s, e), f), [g, h])
  {
    hide Run, Step;
    assert [e, f, g, h] == [e] + [f, g, h];
    RunNext(s, e, [f, g, h]);
    Then3(Step(s, e), f, g, h);
  }

  lemma DoneEnds(s: State, t: Token, succeeded: bool)
    requires Holding(s, t, Done(succeeded))
    ensures var doc := s.db.docs[s.workers[t].document]; var doubt := doc.status in {Uncertain, Submitting, CancelPending};
            EndsAs(s, Step(s, Finish(t)), t, doc, if succeeded then Succeeded else if doubt then Review else Failed)
  {
    var w := s.workers[t];
    assert s.db.docs[w.document := s.db.docs[w.document]] == s.db.docs;
  }

  lemma AnswerWritten(s: State, t: Token, answer: Answer)
    requires Holding(s, t, Answered(answer))
    ensures var w := s.workers[t]; var out := Outcome(s.db.docs[w.document], w.operation == Recover, answer);
            Step(s, WriteBack(t)) == WithDocument(s, t, out.0, Done(answer.Granted?))
  {
  }

  lemma LearntEnds(s: State, s1: State, t: Token, answer: Answer)
    requires Holding(s, t, Submitted) && MovedOn(s, s1, t, Answered(answer))
    ensures var w := s.workers[t]; var out := Outcome(s.db.docs[w.document], w.operation == Recover, answer);
            EndsAs(s, Run(s1, [WriteBack(t), Finish(t)]), t, out.0, out.1)
  {
    hide Run;
    AnswerWritten(s1, t, answer);
    var s2 := Step(s1, WriteBack(t));
    hide Step;
    DoneEnds(s2, t, answer.Granted?);
    Run2(s1, [WriteBack(t), Finish(t)]);
  }

  lemma HoldingReached(now: Time, events: seq<Event>, t: Token, stage: Stage)
    requires Stands(Run(Initial(now), events), t) && Run(Initial(now), events).workers[t].stage == stage
    ensures Holding(Run(Initial(now), events), t, stage)
  {
    hide Run;
    Reached(now, events);
  }

  /** An answer that is lost leaves the document in doubt and the job for review. */
  lemma LostIsReviewed(now: Time, events: seq<Event>, t: Token)
    requires Stands(Run(Initial(now), events), t) && AtStage(Run(Initial(now), events), t, Submitted)
    ensures var s := Run(Initial(now), events);
            && s.workers[t].document in s.db.docs
            && EndsAs(s, Run(s, [GiveUp(t), WriteBack(t), Finish(t)]), t, DocumentOf(s, t).(status := Uncertain), Review)
  {
    hide Run;
    HoldingReached(now, events, t, Submitted);
    var s := Run(Initial(now), events);
    assert MovedOn(s, Step(s, GiveUp(t)), t, Answered(Lost));
    hide Step;
    LearntEnds(s, Step(s, GiveUp(t)), t, Lost);
    Then3(s, GiveUp(t), WriteBack(t), Finish(t));
  }

  /** A call that the service stamps ends in a stamped document and a success, one that it rejects in an error and a failure. */
  lemma DecidedEnds(now: Time, events: seq<Event>, t: Token)
    requires Stands(Run(Initial(now), events), t) && AtStage(Run(Initial(now), events), t, Submitted)
    requires var s := Run(Initial(now), events);
             s.workers[t].operation == StampIt && t in s.calls && s.calls[t].status == InFlight
    ensures var s := Run(Initial(now), events);
            && s.workers[t].document in s.db.docs
            && EndsAs(s, Run(s, [PacStamps(t), Receive(t), WriteBack(t), Finish(t)]), t,
                      DocumentOf(s, t).(status := Stamped, stamp := Some(t)), Succeeded)
            && EndsAs(s, Run(s, [PacRejects(t), Receive(t), WriteBack(t), Finish(t)]), t, DocumentOf(s, t).(status := Error), Failed)
  {
    hide Run;
    HoldingReached(now, events, t, Submitted);
    var s := Run(Initial(now), events);
    Decided(s, t);
    hide Step;
    LearntEnds(s, Step(Step(s, PacStamps(t)), Receive(t)), t, Granted(t));
    LearntEnds(s, Step(Step(s, PacRejects(t)), Receive(t)), t, Rejected);
    Then4(s, PacStamps(t), Receive(t), WriteBack(t), Finish(t));
    Then4(s, PacRejects(t), Receive(t), WriteBack(t), Finish(t));
  }

  lemma Decided(s: State, t: Token)
    requires Holding(s, t, Submitted) && s.workers[t].operation == StampIt && t in s.calls && s.calls[t].status == InFlight
    ensures MovedOn(s, Step(Step(s, PacStamps(t)), Receive(t)), t, Answered(Granted(t)))
    ensures MovedOn(s, Step(Step(s, PacRejects(t)), Receive(t)), t, Answered(Rejected))
  {
    assert Step(s, PacStamps(t)) == SetCall(s, t, PacStamped);
    assert Step(s, PacRejects(t)) == SetCall(s, t, PacRejected);
  }

  /** A lookup that the service refuses leaves doubt; one that finds the stamped request stores its stamp. */
  lemma LookupEnds(now: Time, events: seq<Event>, t: Token)
    requires Stands(Run(Initial(now), events), t) && AtStage(Run(Initial(now), events), t, Submitted)
    requires Run(Initial(now), events).workers[t].operation == Recover
    ensures var s := Run(Initial(now), events);
            && s.workers[t].document in s.db.docs
            && EndsAs(s, Run(s, [QueryRefused(t), WriteBack(t), Finish(t)]), t, DocumentOf(s, t).(status := Uncertain), Review)
            && forall u: Token :: u in s.calls && s.calls[u].status == PacStamped && DocumentOf(s, t).requestXml == Some(s.calls[u].xml) ==>
                 EndsAs(s, Run(s, [QueryFinds(t, u), WriteBack(t), Finish(t)]), t, DocumentOf(s, t).(status := Stamped, stamp := Some(u)), Succeeded)
  {
    hide Run;
    HoldingReached(now, events, t, Submitted);
    var s := Run(Initial(now), events);
    assert MovedOn(s, Step(s, QueryRefused(t)), t, Answered(Rejected));
    forall u: Token | u in s.calls && s.calls[u].status == PacStamped && DocumentOf(s, t).requestXml == Some(s.calls[u].xml)
      ensures EndsAs(s, Run(s, [QueryFinds(t, u), WriteBack(t), Finish(t)]), t, DocumentOf(s, t).(status := Stamped, stamp := Some(u)), Succeeded)
    {
      FoundEnds(s, t, u);
    }
    hide Step;
    LearntEnds(s, Step(s, QueryRefused(t)), t, Rejected);
    Then3(s, QueryRefused(t), WriteBack(t), Finish(t));
  }

  lemma FoundEnds(s: State, t: Token, u: Token)
    requires Holding(s, t, Submitted) && s.workers[t].operation == Recover
    requires u in s.calls && s.calls[u].status == PacStamped && DocumentOf(s, t).requestXml == Some(s.calls[u].xml)
    ensures EndsAs(s, Run(s, [QueryFinds(t, u), WriteBack(t), Finish(t)]), t, DocumentOf(s, t).(status := Stamped, stamp := Some(u)), Succeeded)
  {
    hide Run;
    assert MovedOn(s, Step(s, QueryFinds(t, u)), t, Answered(Granted(u)));
    hide Step;
    LearntEnds(s, Step(s, QueryFinds(t, u)), t, Granted(u));
    Then3(s, QueryFinds(t, u), WriteBack(t), Finish(t));
  }

  /** In every run in time a cancellation that was accepted succeeds with the document pending, one that was definitively
      rejected fails with the document stamped again, and one whose answer is lost is for review. */
  lemma CancellationEnds(now: Time, events: seq<Event>, t: Token)
    requires AllOnTime(Initial(now), events)
    requires Stands(Run(Initial(now), events), t) && AtStage(Run(Initial(now), events), t, CancelSent)
    ensures var s := Run(Initial(now), events);
            && s.workers[t].document in s.db.docs && DocumentOf(s, t).status == CancelPending
            && EndsAs(s, Run(s, [CancelReply(t, false), WriteCancellation(t), Finish(t)]), t, DocumentOf(s, t), Succeeded)
            && EndsAs(s, Run(s, [CancelReply(t, true), WriteCancellation(t), Finish(t)]), t, DocumentOf(s, t).(status := Stamped), Failed)
            && EndsAs(s, Run(s, [CancelFailed(t), Finish(t)]), t, DocumentOf(s, t), Review)
  {
    hide Run, AllOnTime;
    ReachableInv(now, events);
    HoldingReached(now, events, t, CancelSent);
    var s := Run(Initial(now), events);
    KnownWorker(s, t);
    hide Inv;
    RepliedEnds(s, t, false);
    RepliedEnds(s, t, true);
    assert MovedOn(s, Step(s, CancelFailed(t)), t, Done(false));
    hide Step;
    DoneEnds(Step(s, CancelFailed(t)), t, false);
    assert s.db.docs[s.workers[t].document := DocumentOf(s, t)] == s.db.docs;
    Run2(s, [CancelFailed(t), Finish(t)]);
  }

  lemma RepliedEnds(s: State, t: Token, rejected: bool)
    requires Holding(s, t, CancelSent) && DocumentOf(s, t).status == CancelPending
    ensures EndsAs(s, Run(s, [CancelReply(t, rejected), WriteCancellation(t), Finish(t)]), t,
                   if rejected then DocumentOf(s, t).(status := Stamped) else DocumentOf(s, t), if rejected then Failed else Succeeded)
  {
    hide Run;
    var s1 := Step(s, CancelReply(t, rejected));
    assert s1 == AtNow(s, t, CancelAnswered(rejected));
    CancellationWritten(s1, t, rejected);
    var s2 := Step(s1, WriteCancellation(t));
    hide Step;
    DoneEnds(s2, t, !rejected);
    Then3(s, CancelReply(t, rejected), WriteCancellation(t), Finish(t));
    Run2(s1, [WriteCancellation(t), Finish(t)]);
  }

  lemma CancellationWritten(s: State, t: Token, rejected: bool)
    requires Holding(s, t, CancelAnswered(rejected))
    ensures Step(s, WriteCancellation(t))
            == if rejected then WithDocument(s, t, DocumentOf(s, t).(status := Stamped), Done(false)) else AtNow(s, t, Done(true))
  {
  }
}
