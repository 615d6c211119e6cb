/** The promises of the fiscal worker, over every run from an empty installation in which each request that
    saves a draft finds the document still a draft or rejected. */
module FiscalTheorems {
  import opened Common
  import opened FiscalStore
  import opened FiscalProtocol
  import opened FiscalSafety
  import opened FiscalRequests

  lemma ReachableInv(now: Time, events: seq<Event>)
    requires AllOnTime(Initial(now), events)
    ensures Inv(Run(Initial(now), events))
  {
    InitialInv(now);
    RunKeepsInv(Initial(now), events);
  }

  /** However queueing, claiming, pauses, crashes, expiries, recoveries and late calls
      interleave, the PAC never holds two stamped CFDIs of one document. */
  lemma OneStampPerDocument(now: Time, events: seq<Event>, d: DocumentId, t: Token, u: Token)
    requires AllOnTime(Initial(now), events)
    ensures var s := Run(Initial(now), events);
            StampedAs(s.calls, d, t) && StampedAs(s.calls, d, u) ==> t == u
  {
    ReachableInv(now, events);
  }

  /** A document that says it is stamped carries the PAC's own stamp; a document
      with no signed request has nothing out that could still be stamped. */
  lemma DocumentTellsTheTruth(now: Time, events: seq<Event>, d: DocumentId)
    requires AllOnTime(Initial(now), events)
    ensures var s := Run(Initial(now), events);
            d in s.db.docs ==>
              && (HasStamp(s.db.docs[d].status) ==>
                    s.db.docs[d].stamp.Some? && StampedAs(s.calls, d, s.db.docs[d].stamp.value))
              && (s.db.docs[d].requestXml.None? || s.db.docs[d].status in {Draft, Error} ==>
                    forall t :: t in s.calls && s.calls[t].document == d ==> s.calls[t].status == PacRejected)
  {
    ReachableInv(now, events);
    var s := Run(Initial(now), events);
    if d in s.db.docs {
      assert DocOk(s.calls, d, s.db.docs[d]);
      forall t | t in s.calls && s.calls[t].document == d
        ensures CallOk(s.db.docs, s.calls[t])
      {
      }
    }
  }

  /** A call to the PAC starts only from a draft or a rejected document, and only
      after every earlier call for it was definitively rejected. */
  lemma CallOnlyAfterRejection(now: Time, events: seq<Event>, e: Event, t: Token)
    requires AllOnTime(Initial(now), events)
    ensures var s := Run(Initial(now), events);
            var s' := Step(s, e);
            t in s'.calls && t !in s.calls ==>
              && s'.calls[t].document in s.db.docs
              && s.db.docs[s'.calls[t].document].status in {Draft, Error}
              && forall u :: u in s.calls && s.calls[u].document == s'.calls[t].document ==> s.calls[u].status == PacRejected
  {
    ReachableInv(now, events);
    var s := Run(Initial(now), events);
    var s' := Step(s, e);
    if t in s'.calls && t !in s.calls {
      NewCallComesFromBegin(s, e, t);
      NothingOut(s, s'.calls[t].document);
    }
  }

  lemma NewCallComesFromBegin(s: State, e: Event, t: Token)
    requires t in Step(s, e).calls && t !in s.calls
    ensures var d := Step(s, e).calls[t].document;
            d in s.db.docs && (s.db.docs[d].status.Draft? || s.db.docs[d].status.Error?)
  {
    hide Follows, Fenced, QueueJob, FinishJob, RecoverJob,
      StepSign, StepReceive, StepQueryFinds, StepWriteBack, StepBeginCancellation, StepWriteCancellation, StepStatusReply;
    assert e == Begin(t);
  }

  /* ---- non-interference ---- */

  predicate Sent(w: Worker) { w.stage.Submitted? || w.stage.Answered? }

  /** Token `t` is past its first transaction; if it may still write, document `d` is `doc`. */
  predicate Undisturbed(s: State, t: Token, d: DocumentId, doc: Document) {
    && t < s.nextToken
    && (t in s.workers ==> !s.workers[t].stage.Claimed?)
    && (Current(s, t) && Sent(s.workers[t]) ==>
          s.workers[t].document == d && d in s.db.docs && s.db.docs[d] == doc)
  }

  /** The worker that acts in an event. */
  function Actor(e: Event): Option<Token> {
    match e
    case Sign(t, _) => Some(t)
    case Begin(t) => Some(t)
    case WriteBack(t) => Some(t)
    case BeginCancellation(t, _) => Some(t)
    case WriteCancellation(t) => Some(t)
    case StatusReply(t, _) => Some(t)
    case _ => None
  }

  /** What it takes to change document `d`: to save the draft that a request has read of it, to pass its
      fence, or to recover its expired job. */
  ghost predicate MayWrite(s: State, e: Event, d: DocumentId) {
    match e
    case SaveAndQueue(x, _) => x == d && AboutToSave(s, d) && NeedsDraft(s.requests[d].copy)
    case RecoverExpired(id) => Recoverable(s.db, id) && s.db.jobs[id].document == d
    case _ => Actor(e).Some? && var t := Actor(e).value;
              t in s.workers && s.workers[t].document == d && Fenced(s.db, ClaimOf(s.workers[t], t))
  }

  lemma OnlyWritersChange(s: State, e: Event, d: DocumentId)
    requires d in s.db.docs
    ensures d in Step(s, e).db.docs
    ensures Step(s, e).db.docs[d] != s.db.docs[d] ==> MayWrite(s, e, d)
  {
    if e.SaveAndQueue? || e.RecoverExpired? {
      hide QueueObstacle, NextOperation, HasConflict;
    } else {
      hide MayWrite;
      OnlyActorsChange(s, e, d);
      if Step(s, e).db.docs[d] != s.db.docs[d] { ActorMayWrite(s, e, d); }
    }
  }

  lemma ActorMayWrite(s: State, e: Event, d: DocumentId)
    requires !e.SaveAndQueue? && !e.RecoverExpired? && Actor(e).Some? && Actor(e).value in s.workers
    requires s.workers[Actor(e).value].document == d && Fenced(s.db, ClaimOf(s.workers[Actor(e).value], Actor(e).value))
    ensures MayWrite(s, e, d)
  {
  }

  lemma OnlyActorsChange(s: State, e: Event, d: DocumentId)
    requires d in s.db.docs && !e.SaveAndQueue? && !e.RecoverExpired?
    ensures d in Step(s, e).db.docs
    ensures Step(s, e).db.docs[d] != s.db.docs[d] ==>
              Actor(e).Some? && Actor(e).value in s.workers && s.workers[Actor(e).value].document == d
              && Fenced(s.db, ClaimOf(s.workers[Actor(e).value], Actor(e).value))
  {
    hide QueueJob, ClaimJob, FinishJob, RecoverJob, StepSave, Fenced, At, Follows,
      StepSign, StepBegin, StepReceive, StepQueryFinds, StepWriteBack, StepBeginCancellation, StepWriteCancellation, StepStatusReply;
  }

  lemma StepLeavesUndisturbed(s: State, e: Event, t: Token, d: DocumentId, doc: Document)
    requires Inv(s) && OnTime(s, e) && Undisturbed(s, t, d, doc)
    ensures Undisturbed(Step(s, e), t, d, doc)
  {
    var s' := Step(s, e);
    StageGoesForward(s, e, t);
    if Current(s', t) && Sent(s'.workers[t]) {
      assert WorkerOk(s, t, s.workers[t]);
      OthersDoNotWrite(s, e, t);
    }
  }

  /** A worker past its first transaction never returns to it, and a claim that fell never stands again. */
  lemma StageGoesForward(s: State, e: Event, t: Token)
    requires t < s.nextToken && (t in s.workers ==> !s.workers[t].stage.Claimed?)
    ensures var s' := Step(s, e);
            && t < s'.nextToken
            && (t in s'.workers ==> t in s.workers && !s'.workers[t].stage.Claimed?
                                    && s'.workers[t].document == s.workers[t].document)
            && (Current(s', t) && Sent(s'.workers[t]) ==> Current(s, t) && Sent(s.workers[t]))
  {
    hide Step;
    StageForward(s, e, t);
    ClaimFalls(s, e, t);
  }

  lemma StageForward(s: State, e: Event, t: Token)
    requires t < s.nextToken && (t in s.workers ==> !s.workers[t].stage.Claimed?)
    ensures var s' := Step(s, e);
            && t < s'.nextToken
            && (t in s'.workers ==> t in s.workers && !s'.workers[t].stage.Claimed?
                                    && s'.workers[t].document == s.workers[t].document && s'.workers[t].job == s.workers[t].job
                                    && (Sent(s'.workers[t]) ==> Sent(s.workers[t])))
  {
    hide Issue, IssueNew, QueueJob, RecoverJob, FinishJob, Fenced,
      StepSign, StepBegin, StepReceive, StepQueryFinds, StepWriteBack, StepBeginCancellation, StepWriteCancellation, StepStatusReply;
  }

  /** A claim is only given out new. */
  lemma ClaimFalls(s: State, e: Event, t: Token)
    requires t < s.nextToken
    ensures forall j :: j in Step(s, e).db.jobs && Step(s, e).db.jobs[j].status == Running && Step(s, e).db.jobs[j].token == Some(t) ==>
              j in s.db.jobs && s.db.jobs[j].status == Running && s.db.jobs[j].token == Some(t)
  {
    if TouchesJobs(e) { ClaimsAreNew(s, e, t); } else { hide Step; JobsStay(s, e); }
  }

  lemma ClaimsAreNew(s: State, e: Event, t: Token)
    requires t < s.nextToken && TouchesJobs(e)
    ensures forall j :: j in Step(s, e).db.jobs && Step(s, e).db.jobs[j].status == Running && Step(s, e).db.jobs[j].token == Some(t) ==>
              j in s.db.jobs && s.db.jobs[j].status == Running && s.db.jobs[j].token == Some(t)
  {
    hide SaveDraft, SetStatus, HasActive, HasConflict, QueueObstacle, Fenced, Recoverable, Claimable, NextOperation, At, Follows,
      StepSign, StepBegin, StepReceive, StepQueryFinds, StepWriteBack, StepBeginCancellation, StepWriteCancellation, StepStatusReply;
  }

  /** While a submitted claim stands, no step but its own write-back touches its document. */
  lemma OthersDoNotWrite(s: State, e: Event, t: Token)
    requires Inv(s) && OnTime(s, e) && Current(s, t) && Sent(s.workers[t])
    requires Current(Step(s, e), t) && Sent(Step(s, e).workers[t])
    ensures var d := s.workers[t].document;
            d in s.db.docs && d in Step(s, e).db.docs && Step(s, e).db.docs[d] == s.db.docs[d]
  {
    var d := s.workers[t].document;
    assert WorkerOk(s, t, s.workers[t]);
    OnlyWritersChange(s, e, d);
    if Actor(e).Some? && MayWrite(s, e, d) {
      assert Current(s, Actor(e).value);
      SoleClaim(s, t, Actor(e).value);
      OwnWriteEndsIt(s, e, t);
    } else {
      RecoveryFells(s, e, t);
    }
  }

  /** Recovering the job of a document ends every standing claim on it. */
  lemma RecoveryFells(s: State, e: Event, t: Token)
    requires Inv(s) && Current(s, t) && Current(Step(s, e), t)
    ensures e.RecoverExpired? ==> !MayWrite(s, e, s.workers[t].document)
  {
    if e.RecoverExpired? && Recoverable(s.db, e.job) && s.db.jobs[e.job].document == s.workers[t].document {
      assert WorkerOk(s, t, s.workers[t]);
      assert Active(s.db.jobs[e.job]) && Active(s.db.jobs[s.workers[t].job]);
    }
  }

  /** A worker that has sent its request writes its document only by finishing. */
  lemma OwnWriteEndsIt(s: State, e: Event, t: Token)
    requires t in s.workers && Sent(s.workers[t]) && Actor(e) == Some(t)
    requires t in Step(s, e).workers && Sent(Step(s, e).workers[t])
    ensures Step(s, e).db.docs == s.db.docs
  {
  }

  lemma {:induction false} RunLeavesUndisturbed(s: State, events: seq<Event>, t: Token, d: DocumentId, doc: Document)
    requires Inv(s) && AllOnTime(s, events) && Undisturbed(s, t, d, doc)
    ensures Undisturbed(Run(s, events), t, d, doc)
    decreases |events|
  {
    if events != [] {
      StepKeepsInv(s, events[0]);
      StepLeavesUndisturbed(s, events[0], t, d, doc);
      RunLeavesUndisturbed(Step(s, events[0]), events[1..], t, d, doc);
    }
  }

  /** A write-back that passes the fence sees exactly the document that the worker's
      first transaction left, whatever happened in between. */
  lemma WriteBackSeesOwnDocument(now: Time, before: seq<Event>, t: Token, after: seq<Event>)
    requires AllOnTime(Initial(now), before) && AllOnTime(Step(Run(Initial(now), before), Begin(t)), after)
    ensures var s := Run(Initial(now), before);
            var s1 := Step(s, Begin(t));
            var s2 := Run(s1, after);
            At(s, t, Claimed) && t in s1.workers && s1.workers[t].stage == Submitted
            && t in s2.workers && s2.workers[t].stage.Answered? && Fenced(s2.db, ClaimOf(s2.workers[t], t)) ==>
              var d := s.workers[t].document;
              && s2.workers[t].document == d && d in s1.db.docs && d in s2.db.docs
              && s2.db.docs[d] == s1.db.docs[d]
              && s2.db.docs[d].status == Submitting
  {
    ReachableInv(now, before);
    var s := Run(Initial(now), before);
    var s1 := Step(s, Begin(t));
    if At(s, t, Claimed) && t in s1.workers && s1.workers[t].stage == Submitted {
      SubmittedFromBegin(s, t);
      StepKeepsInv(s, Begin(t));
      RunLeavesUndisturbed(s1, after, t, s.workers[t].document, s1.db.docs[s.workers[t].document]);
    }
  }

  lemma SubmittedFromBegin(s: State, t: Token)
    requires Inv(s) && At(s, t, Claimed)
    requires t in Step(s, Begin(t)).workers && Step(s, Begin(t)).workers[t].stage == Submitted
    ensures var s1 := Step(s, Begin(t));
            var d := s.workers[t].document;
            d in s1.db.docs && s1.db.docs[d].status == Submitting && Undisturbed(s1, t, d, s1.db.docs[d])
  {
    assert WorkerOk(s, t, s.workers[t]);
  }

  /* ---- a stamp is never lost ---- */

  predicate HoldsStamp(s: State, d: DocumentId, u: Token) {
    d in s.db.docs && s.db.docs[d].stamp == Some(u) && HasStamp(s.db.docs[d].status)
  }

  lemma StepKeepsStamp(s: State, e: Event, d: DocumentId, u: Token)
    requires Inv(s) && OnTime(s, e) && HoldsStamp(s, d, u)
    ensures HoldsStamp(Step(s, e), d, u)
  {
    assert DocOk(s.calls, d, s.db.docs[d]);
    if e.WriteBack? && Current(s, e.worker) && s.workers[e.worker].stage.Answered? {
      assert WorkerOk(s, e.worker, s.workers[e.worker]);
      assert FenceOk(s.db.docs, s.calls, e.worker, s.workers[e.worker]);
    }
    StampStays(s, e, d, u);
  }

  /** Only a write-back could remove a stamp, and it never meets a stamped document. */
  lemma StampStays(s: State, e: Event, d: DocumentId, u: Token)
    requires HoldsStamp(s, d, u) && s.db.docs[d].requestXml.Some? && OnTime(s, e)
    requires e.WriteBack? && Current(s, e.worker) && s.workers[e.worker].stage.Answered? ==> s.workers[e.worker].document != d
    ensures HoldsStamp(Step(s, e), d, u)
  {
    if Actor(e).Some? && Actor(e).value in s.workers && s.workers[Actor(e).value].document == d {
      ActorKeepsStamp(s, e, d, u);
    } else if e.SaveAndQueue? || e.RecoverExpired? {
      hide QueueJob, QueueObstacle, NextOperation;
    } else {
      hide Step;
      OnlyActorsChange(s, e, d);
    }
  }

  lemma ActorKeepsStamp(s: State, e: Event, d: DocumentId, u: Token)
    requires HoldsStamp(s, d, u) && s.db.docs[d].requestXml.Some? && Actor(e).Some?
    requires e.WriteBack? && Current(s, e.worker) && s.workers[e.worker].stage.Answered? ==> s.workers[e.worker].document != d
    ensures HoldsStamp(Step(s, e), d, u)
  {
    hide OwnStep;
  }

  /** Once stamped, always stamped, with the same stamp: never back to error, uncertain or draft. */
  lemma {:induction false} StampSurvivesEveryRun(s: State, events: seq<Event>, d: DocumentId, u: Token)
    requires Inv(s) && AllOnTime(s, events) && HoldsStamp(s, d, u)
    ensures HoldsStamp(Run(s, events), d, u)
    decreases |events|
  {
    if events != [] {
      StepKeepsInv(s, events[0]);
      StepKeepsStamp(s, events[0], d, u);
      StampSurvivesEveryRun(Step(s, events[0]), events[1..], d, u);
    }
  }

  /* ---- an interrupted job ---- */

  /** The job waits to stamp again after an interruption. */
  predicate WaitsAgain(j: Job) { j.status == Queued && j.attempts > 0 && j.operation == StampIt }

  ghost predicate NothingSigned(s: State) {
    forall id :: id in s.db.jobs && WaitsAgain(s.db.jobs[id]) && s.db.jobs[id].document in s.db.docs ==>
      s.db.docs[s.db.jobs[id].document].requestXml.None?
  }

  /** A job comes to wait again only by recovery. */
  lemma WaitsByRecovery(s: State, e: Event, id: JobId)
    requires id in Step(s, e).db.jobs && WaitsAgain(Step(s, e).db.jobs[id])
    ensures id in s.db.jobs && Step(s, e).db.jobs[id].document == s.db.jobs[id].document
    ensures Step(s, e).db.jobs[id] == s.db.jobs[id]
            || (e == RecoverExpired(id) && Recoverable(s.db, id) && s.db.jobs[id].operation == StampIt)
  {
    if TouchesJobs(e) { QueueOrRecovery(s, e, id); } else { hide Step; JobsStay(s, e); }
  }

  lemma QueueOrRecovery(s: State, e: Event, id: JobId)
    requires TouchesJobs(e)
    requires id in Step(s, e).db.jobs && WaitsAgain(Step(s, e).db.jobs[id])
    ensures id in s.db.jobs && Step(s, e).db.jobs[id].document == s.db.jobs[id].document
    ensures Step(s, e).db.jobs[id] == s.db.jobs[id]
            || (e == RecoverExpired(id) && Recoverable(s.db, id) && s.db.jobs[id].operation == StampIt)
  {
    hide SaveDraft, Fenced, At, Follows,
      StepSign, StepBegin, StepReceive, StepQueryFinds, StepWriteBack, StepBeginCancellation, StepWriteCancellation, StepStatusReply;
  }

  lemma RecoveredUnsigned(s: State, id: JobId)
    requires id in s.db.jobs && Recoverable(s.db, id) && s.db.jobs[id].document in s.db.docs
    requires s.db.jobs[id].operation == StampIt && RecoverJob(s.db, id).jobs[id].operation == StampIt
    ensures RecoverJob(s.db, id).docs[s.db.jobs[id].document].requestXml.None?
  {
  }

  lemma StepSignsNothing(s: State, e: Event)
    requires Inv(s) && NothingSigned(s)
    ensures NothingSigned(Step(s, e))
  {
    hide Step, Inv;
    var s' := Step(s, e);
    forall id | id in s'.db.jobs && WaitsAgain(s'.db.jobs[id]) && s'.db.jobs[id].document in s'.db.docs
      ensures s'.db.docs[s'.db.jobs[id].document].requestXml.None?
    {
      WaitsByRecovery(s, e, id);
      WaitingDocument(s, e, id);
    }
  }

  lemma WaitingDocument(s: State, e: Event, id: JobId)
    requires Inv(s) && NothingSigned(s) && id in s.db.jobs
    requires id in Step(s, e).db.jobs && WaitsAgain(Step(s, e).db.jobs[id])
    requires Step(s, e).db.jobs[id] == s.db.jobs[id]
             || (e == RecoverExpired(id) && Recoverable(s.db, id) && s.db.jobs[id].operation == StampIt)
    ensures var d := s.db.jobs[id].document;
            d in s.db.docs && d in Step(s, e).db.docs && Step(s, e).db.docs[d].requestXml.None?
  {
    var d := s.db.jobs[id].document;
    assert JobOk(s.db.docs, s.nextToken, s.db.jobs[id]);
    OnlyWritersChange(s, e, d);
    if Step(s, e).db.jobs[id] == s.db.jobs[id] {
      if !e.SaveAndQueue? { WaitingIsLeftAlone(s, e, id); } else { SaveUnsigns(s, e, d); }
    } else {
      RecoveredUnsigned(s, id);
    }
  }

  /** A save of a draft leaves nothing signed where nothing was. */
  lemma SaveUnsigns(s: State, e: Event, d: DocumentId)
    requires e.SaveAndQueue? && d in s.db.docs && s.db.docs[d].requestXml.None?
    ensures d in Step(s, e).db.docs && Step(s, e).db.docs[d].requestXml.None?
  {
  }

  /** While a job is queued no worker may write its document. */
  lemma WaitingIsLeftAlone(s: State, e: Event, id: JobId)
    requires Inv(s) && id in s.db.jobs && s.db.jobs[id].status == Queued && !e.SaveAndQueue?
    ensures !MayWrite(s, e, s.db.jobs[id].document)
  {
    hide DocsOk, FencesOk, CallsOk, JobOk, Submits;
    var d := s.db.jobs[id].document;
    assert Active(s.db.jobs[id]) && HasActive(s.db, d);
    if Actor(e).Some? && Actor(e).value in s.workers {
      NotTheActors(s, Actor(e).value, id);
    }
  }

  /** A worker under a standing claim works on another document. */
  lemma NotTheActors(s: State, t: Token, id: JobId)
    requires JobsOk(s) && WorkersOk(s) && t in s.workers && id in s.db.jobs && s.db.jobs[id].status == Queued
    ensures Fenced(s.db, ClaimOf(s.workers[t], t)) ==> s.workers[t].document != s.db.jobs[id].document
  {
    hide JobOk;
    assert WorkerOk(s, t, s.workers[t]);
    assert Active(s.db.jobs[id]);
    assert Fenced(s.db, ClaimOf(s.workers[t], t)) ==> Active(s.db.jobs[s.workers[t].job]);
  }

  lemma {:induction false} RunSignsNothing(s: State, events: seq<Event>)
    requires Inv(s) && AllOnTime(s, events) && NothingSigned(s)
    ensures NothingSigned(Run(s, events))
    decreases |events|
  {
    hide Inv, NothingSigned, Step;
    if events != [] {
      StepKeepsInv(s, events[0]);
      StepSignsNothing(s, events[0]);
      RunSignsNothing(Step(s, events[0]), events[1..]);
    }
  }

  /** After an interruption a stamp is asked for again only when nothing had been signed, so nothing
      sent: in every other case the same request is looked up instead. */
  lemma InterruptionNeverResends(now: Time, events: seq<Event>, id: JobId)
    requires AllOnTime(Initial(now), events)
    ensures var s := Run(Initial(now), events);
            id in s.db.jobs && WaitsAgain(s.db.jobs[id]) ==>
              var d := s.db.jobs[id].document;
              && d in s.db.docs && s.db.docs[d].requestXml.None?
              && forall t :: t in s.calls && s.calls[t].document == d ==> s.calls[t].status == PacRejected
  {
    hide Run;
    InitialInv(now);
    RunSignsNothing(Initial(now), events);
    ReachableInv(now, events);
    var s := Run(Initial(now), events);
    if id in s.db.jobs {
      assert JobOk(s.db.docs, s.nextToken, s.db.jobs[id]);
      DocumentTellsTheTruth(now, events, s.db.jobs[id].document);
    }
  }
}
