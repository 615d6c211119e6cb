/** What holds over every run, however late an issuing request saves the draft it has read, and what such
    a save can do. */
module FiscalRequests {
  import opened Common
  import opened FiscalStore
  import opened FiscalProtocol

  /* ---- the queue: what no late save can break ---- */

  predicate JobRowOk(bound: Token, j: Job) {
    && j.attempts <= MAX_ATTEMPTS
    && (j.status == Queued ==> j.attempts < MAX_ATTEMPTS)
    && (j.status == Running ==> j.token.Some? && j.lease.Some?)
    && (j.token.Some? ==> j.token.value < bound)
  }

  ghost predicate QueueOk(jobs: map<JobId, Job>, bound: Token) {
    && (forall j :: j in jobs ==> JobRowOk(bound, jobs[j]))
    && (forall j, k | j in jobs && k in jobs && Active(jobs[j]) && Active(jobs[k]) && jobs[j].document == jobs[k].document :: j == k)
  }

  /** A worker knows its job's document, and a token names one job. */
  ghost predicate HandsOk(s: State) {
    && (forall t :: t in s.workers ==> var w := s.workers[t];
          t < s.nextToken && w.job in s.db.jobs && w.document == s.db.jobs[w.job].document)
    && (forall t, j :: t in s.workers && j in s.db.jobs && s.db.jobs[j].token == Some(t) ==> s.workers[t].job == j)
  }

  ghost predicate Base(s: State) { QueueOk(s.db.jobs, s.nextToken) && HandsOk(s) }

  /** A step gives out a token, rewrites one job, or leaves the jobs alone. */
  predicate TouchesJobs(e: Event) {
    e.IssueFirst? || e.SaveAndQueue? || e.QueueRequest? || e.ClaimRequest? || e.Finish? || e.RecoverExpired?
  }

  lemma JobsStay(s: State, e: Event)
    requires !TouchesJobs(e)
    ensures Step(s, e).db.jobs == s.db.jobs && Step(s, e).nextToken == s.nextToken
  {
    hide HasActive, Fenced, Follows, At, StepSave, StepClaim, StepFinish,
      StepSign, StepBegin, StepReceive, StepQueryFinds, StepWriteBack, StepBeginCancellation, StepWriteCancellation, StepStatusReply;
  }

  /** Workers come by claiming only, and keep their job and document. */
  lemma WorkersStay(s: State, e: Event, t: Token)
    requires t in Step(s, e).workers && !e.ClaimRequest?
    ensures t in s.workers && Step(s, e).workers[t].job == s.workers[t].job && Step(s, e).workers[t].document == s.workers[t].document
  {
    hide HasActive, Fenced, Issue, IssueNew, QueueJob, FinishJob, RecoverJob, Follows, StepClaim,
      StepSign, StepBegin, StepReceive, StepQueryFinds, StepWriteBack, StepBeginCancellation, StepWriteCancellation, StepStatusReply;
  }

  lemma QueueJobOk(db: Db, op: Operation, d: DocumentId, payload: string, id: JobId, bound: Token)
    requires QueueOk(db.jobs, bound) && id !in db.jobs && QueueJob(db, op, d, payload, id).Ok?
    ensures var jobs := QueueJob(db, op, d, payload, id).value.jobs;
            QueueOk(jobs, bound) && (jobs == db.jobs || jobs == db.jobs[id := NewJob(db, d, op, payload)])
  {
  }

  /** The jobs after a step that queues: the same, or with a new one in nobody's hands. */
  ghost predicate QueuedOne(s: State, e: Event, id: JobId) {
    var jobs := Step(s, e).db.jobs;
    QueueOk(jobs, s.nextToken)
    && (jobs == s.db.jobs || (id in jobs && id !in s.db.jobs && jobs[id].token.None? && jobs == s.db.jobs[id := jobs[id]]))
  }

  lemma QueueingStep(s: State, e: Event)
    requires Base(s) && (e.IssueFirst? || e.SaveAndQueue? || e.QueueRequest?)
    ensures QueuedOne(s, e, e.job) && Step(s, e).nextToken == s.nextToken
  {
    hide QueueOk, HandsOk, QueueJob;
    if e.job !in s.db.jobs {
      match e
      case IssueFirst(d, id) =>
        var db := s.db.(docs := s.db.docs[d := Document(Draft, None, None)]);
        if QueueJob(db, StampIt, d, "", id).Ok? { QueueJobOk(db, StampIt, d, "", id, s.nextToken); }
      case SaveAndQueue(d, id) =>
        if AboutToSave(s, d) {
          var db := SaveDraft(s.db, d, s.requests[d].copy);
          if QueueJob(db, StampIt, d, "", id).Ok? { QueueJobOk(db, StampIt, d, "", id, s.nextToken); }
        }
      case QueueRequest(op, d, payload, id) =>
        if QueueJob(s.db, op, d, payload, id).Ok? { QueueJobOk(s.db, op, d, payload, id, s.nextToken); }
    }
  }

  lemma ClaimKeepsBase(s: State, id: JobId)
    requires Base(s)
    ensures Base(StepClaim(s, id))
  {
  }

  /** A job that is rewritten keeps its document, and its token or none. */
  lemma RewrittenKeepsBase(s: State, id: JobId, j: Job)
    requires Base(s) && id in s.db.jobs && JobRowOk(s.nextToken, j) && j.document == s.db.jobs[id].document
    requires (Active(j) ==> Active(s.db.jobs[id])) && (j.token.Some? ==> j.token == s.db.jobs[id].token)
    ensures Base(s.(db := s.db.(jobs := s.db.jobs[id := j])))
  {
  }

  lemma FinishKeepsBase(s: State, t: Token)
    requires Base(s)
    ensures Base(StepFinish(s, t))
  {
    if t in s.workers && s.workers[t].stage.Done? && s.workers[t].document in s.db.docs {
      var w := s.workers[t];
      var db := FinishJob(s.db, ClaimOf(w, t), w.document, w.stage.succeeded);
      if Fenced(s.db, ClaimOf(w, t)) { RewrittenKeepsBase(s, w.job, db.jobs[w.job]); }
      assert Base(s.(db := db));
    }
  }

  lemma RecoveryKeepsBase(s: State, id: JobId)
    requires Base(s)
    ensures Base(Step(s, RecoverExpired(id)))
  {
    if id in s.db.jobs && s.db.jobs[id].document in s.db.docs && Recoverable(s.db, id) {
      var db := RecoverJob(s.db, id);
      assert JobRowOk(s.nextToken, s.db.jobs[id]);
      RewrittenKeepsBase(s, id, db.jobs[id]);
      assert Step(s, RecoverExpired(id)) == s.(db := db);
    }
  }

  lemma StepKeepsBase(s: State, e: Event)
    requires Base(s)
    ensures Base(Step(s, e))
  {
    if e.ClaimRequest? {
      ClaimKeepsBase(s, e.job);
    } else if e.Finish? {
      FinishKeepsBase(s, e.worker);
    } else if e.RecoverExpired? {
      RecoveryKeepsBase(s, e.job);
    } else {
      hide Step, Base;
      OtherKeepsBase(s, e);
    }
  }

  lemma OtherKeepsBase(s: State, e: Event)
    requires Base(s) && !e.ClaimRequest? && !e.Finish? && !e.RecoverExpired?
    ensures Base(Step(s, e))
  {
    hide Step, JobRowOk;
    if TouchesJobs(e) { QueueingStep(s, e); } else { JobsStay(s, e); }
    forall t | t in Step(s, e).workers
      ensures t in s.workers && Step(s, e).workers[t].job == s.workers[t].job && Step(s, e).workers[t].document == s.workers[t].document
    {
      WorkersStay(s, e, t);
    }
  }

  lemma {:induction false} RunKeepsBase(s: State, events: seq<Event>)
    requires Base(s)
    ensures Base(Run(s, events))
    decreases |events|
  {
    hide Base, Step;
    if events != [] {
      StepKeepsBase(s, events[0]);
      RunKeepsBase(Step(s, events[0]), events[1..]);
    }
  }

  lemma ReachableBase(now: Time, events: seq<Event>)
    ensures Base(Run(Initial(now), events))
  {
    hide Run;
    RunKeepsBase(Initial(now), events);
  }

  /** At any instant at most one worker passes the fence of a document, and a job
      whose worker still passes it cannot be recovered; one job per document is active. */
  lemma OneWriterPerDocument(now: Time, events: seq<Event>, t: Token, u: Token)
    ensures var s := Run(Initial(now), events);
            t in s.workers && u in s.workers
            && Fenced(s.db, ClaimOf(s.workers[t], t)) && Fenced(s.db, ClaimOf(s.workers[u], u)) ==>
              && !Recoverable(s.db, s.workers[t].job)
              && (s.workers[t].document == s.workers[u].document ==> t == u)
    ensures var s := Run(Initial(now), events);
            forall j, k | j in s.db.jobs && k in s.db.jobs && Active(s.db.jobs[j]) && Active(s.db.jobs[k]) ::
              s.db.jobs[j].document == s.db.jobs[k].document ==> j == k
  {
    hide Run;
    ReachableBase(now, events);
  }

  /* ---- how often a job runs ---- */

  /** How many times job `id` is claimed along a run. */
  function Claims(s: State, events: seq<Event>, id: JobId): nat
    decreases |events|
  {
    if events == [] then 0
    else (if events[0] == ClaimRequest(id) && Claimable(s.db, id) then 1 else 0)
         + Claims(Step(s, events[0]), events[1..], id)
  }

  function Attempts(s: State, id: JobId): nat { if id in s.db.jobs then s.db.jobs[id].attempts else 0 }

  lemma StepCountsClaims(s: State, e: Event, id: JobId)
    ensures Attempts(Step(s, e), id) ==
            Attempts(s, id) + if e == ClaimRequest(id) && Claimable(s.db, id) then 1 else 0
  {
    if TouchesJobs(e) { QueueCountsClaims(s, e, id); } else { hide Step; JobsStay(s, e); }
  }

  lemma QueueCountsClaims(s: State, e: Event, id: JobId)
    requires TouchesJobs(e)
    ensures Attempts(Step(s, e), id) ==
            Attempts(s, id) + if e == ClaimRequest(id) && Claimable(s.db, id) then 1 else 0
  {
    hide SaveDraft, SetStatus, Follows, HasActive, HasConflict, QueueObstacle, NextOperation,
      StepSign, StepBegin, StepReceive, StepQueryFinds, StepWriteBack, StepBeginCancellation, StepWriteCancellation, StepStatusReply;
  }

  lemma {:induction false} RunCountsClaims(s: State, events: seq<Event>, id: JobId)
    ensures Attempts(Run(s, events), id) == Attempts(s, id) + Claims(s, events, id)
    decreases |events|
  {
    hide Step;
    if events != [] {
      StepCountsClaims(s, events[0], id);
      RunCountsClaims(Step(s, events[0]), events[1..], id);
    }
  }

  /** No job is ever claimed more than MAX_ATTEMPTS times. */
  lemma ClaimsAreBounded(now: Time, events: seq<Event>, id: JobId)
    ensures Claims(Initial(now), events, id) <= MAX_ATTEMPTS
  {
    ReachableBase(now, events);
    RunCountsClaims(Initial(now), events, id);
    hide Run;
    var s := Run(Initial(now), events);
    assert id in s.db.jobs ==> JobRowOk(s.nextToken, s.db.jobs[id]);
  }
}
