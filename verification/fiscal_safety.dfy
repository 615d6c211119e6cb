/** What every interleaving of the stamping protocol keeps. */
module FiscalSafety {
  import opened Common
  import opened FiscalStore
  import opened FiscalProtocol

  /** Two standing claims on one document are the same claim. */
  lemma SoleClaim(s: State, t: Token, u: Token)
    requires Inv(s) && Current(s, t) && Current(s, u)
    requires s.workers[t].document == s.workers[u].document
    ensures t == u
  {
    assert WorkerOk(s, t, s.workers[t]) && WorkerOk(s, u, s.workers[u]);
    assert Active(s.db.jobs[s.workers[t].job]) && Active(s.db.jobs[s.workers[u].job]);
  }

  /** A live call of a worker's document carries the request on its row. */
  lemma NoLiveChange(s: State, t: Token)
    requires Inv(s) && t in s.workers
    ensures var d := s.workers[t].document;
            forall u :: u in s.calls && Live(s.calls[u]) && s.calls[u].document == d ==>
              d in s.db.docs && s.db.docs[d].requestXml == Some(s.calls[u].xml)
  {
    forall u | u in s.calls && Live(s.calls[u]) && s.calls[u].document == s.workers[t].document
      ensures CallOk(s.db.docs, s.calls[u])
    {
    }
  }

  /** What the invariant says of one worker. */
  lemma KnownWorker(s: State, t: Token)
    requires Inv(s) && t in s.workers
    ensures var w := s.workers[t];
            && WorkerOk(s, t, w) && DocOk(s.calls, w.document, s.db.docs[w.document])
            && (Current(s, t) ==> FenceOk(s.db.docs, s.calls, t, w))
  {
    hide JobsOk, CallsOk;
    assert WorkerOk(s, t, s.workers[t]);
  }

  lemma KnownCall(s: State, u: Token)
    requires Inv(s) && u in s.calls
    ensures u < s.nextToken && CallOk(s.db.docs, s.calls[u])
  {
  }

  /** A worker may move to any stage that fits what it finds. */
  lemma MoveKeepsInv(s: State, t: Token, stage: Stage)
    requires Inv(s) && t in s.workers
    requires WorkerOk(s, t, s.workers[t].(stage := stage))
    requires Current(s, t) ==> FenceOk(s.db.docs, s.calls, t, s.workers[t].(stage := stage))
    ensures Inv(Move(s, t, stage))
  {
    hide WorkersOk, FencesOk, FenceOk, JobOk, CallOk, DocOk;
    MoveKeepsWorkers(s, t, stage);
    MoveKeepsFences(s, t, stage);
  }

  lemma MoveKeepsWorkers(s: State, t: Token, stage: Stage)
    requires WorkersOk(s) && t in s.workers && WorkerOk(s, t, s.workers[t].(stage := stage))
    ensures WorkersOk(Move(s, t, stage))
  {
    var s' := Move(s, t, stage);
    forall u | u in s'.workers
      ensures WorkerOk(s', u, s'.workers[u])
    {
      assert WorkerOk(s, u, s.workers[u]);
    }
  }

  lemma MoveKeepsFences(s: State, t: Token, stage: Stage)
    requires FencesOk(s) && t in s.workers
    requires Current(s, t) ==> s.workers[t].document in s.db.docs && FenceOk(s.db.docs, s.calls, t, s.workers[t].(stage := stage))
    ensures FencesOk(Move(s, t, stage))
  {
    var s' := Move(s, t, stage);
    forall u | Current(s', u)
      ensures s'.workers[u].document in s'.db.docs && FenceOk(s'.db.docs, s'.calls, u, s'.workers[u])
    {
      assert Current(s, u);
    }
  }

  /** A write under a standing claim, followed by a move of the same worker. */
  lemma WriteKeepsInv(s: State, t: Token, doc: Document, stage: Stage)
    requires Inv(s) && Current(s, t)
    requires var d := s.workers[t].document;
             && DocOk(s.calls, d, doc)
             && (s.db.docs[d].stamp.Some? ==> doc.stamp.Some?)
             && (forall u :: u in s.calls && Live(s.calls[u]) && s.calls[u].document == d ==>
                   doc.status !in {Draft, Error} && doc.requestXml == s.db.docs[d].requestXml)
             && WorkerOk(s, t, s.workers[t].(stage := stage))
             && FenceOk(s.db.docs[d := doc], s.calls, t, s.workers[t].(stage := stage))
    ensures Inv(Move(s.(db := s.db.(docs := s.db.docs[s.workers[t].document := doc])), t, stage))
  {
    hide WorkersOk, FencesOk, FenceOk;
    WriteKeepsWorkers(s, t, doc, stage);
    WriteKeepsFences(s, t, doc, stage);
  }

  /** The state after the write. */
  function Written(s: State, t: Token, doc: Document, stage: Stage): State
    requires t in s.workers
  {
    Move(s.(db := s.db.(docs := s.db.docs[s.workers[t].document := doc])), t, stage)
  }

  lemma WriteKeepsWorkers(s: State, t: Token, doc: Document, stage: Stage)
    requires WorkersOk(s) && t in s.workers && s.workers[t].document in s.db.docs
    requires s.db.docs[s.workers[t].document].stamp.Some? ==> doc.stamp.Some?
    requires WorkerOk(s, t, s.workers[t].(stage := stage))
    ensures WorkersOk(Written(s, t, doc, stage))
  {
    var s' := Written(s, t, doc, stage);
    forall u | u in s'.workers
      ensures WorkerOk(s', u, s'.workers[u])
    {
      assert WorkerOk(s, u, s.workers[u]);
    }
  }

  lemma WriteKeepsFences(s: State, t: Token, doc: Document, stage: Stage)
    requires Inv(s) && Current(s, t) && s.workers[t].document in s.db.docs
    requires FenceOk(s.db.docs[s.workers[t].document := doc], s.calls, t, s.workers[t].(stage := stage))
    ensures FencesOk(Written(s, t, doc, stage))
  {
    hide JobsOk, WorkersOk, CallsOk, DocsOk;
    var d := s.workers[t].document;
    var s' := Written(s, t, doc, stage);
    forall u | Current(s', u)
      ensures s'.workers[u].document in s'.db.docs && FenceOk(s'.db.docs, s'.calls, u, s'.workers[u])
    {
      if u != t {
        assert Current(s, u);
        if s.workers[u].document == d {
          SoleClaim(s, t, u);
        }
      }
    }
  }

  /** Adding a row, or rewriting a job row that stays in the hands of nobody. */
  lemma JobRowKeepsInv(s: State, id: JobId, j: Job)
    requires Inv(s)
    requires JobOk(s.db.docs, s.nextToken, j) && j.status != Running
    requires id in s.db.jobs ==> s.db.jobs[id].document == j.document
    requires j.token.Some? ==> id in s.db.jobs && s.db.jobs[id].token == j.token
    requires Active(j) ==> forall k :: k in s.db.jobs && Active(s.db.jobs[k]) && s.db.jobs[k].document == j.document ==> k == id
    ensures Inv(s.(db := s.db.(jobs := s.db.jobs[id := j])))
  {
    hide CallOk, DocOk, WorkersOk, FencesOk, JobOk;
    JobRowKeepsWorkers(s, id, j);
    JobRowKeepsFences(s, id, j);
  }

  lemma JobRowKeepsWorkers(s: State, id: JobId, j: Job)
    requires WorkersOk(s) && (id in s.db.jobs ==> s.db.jobs[id].document == j.document)
    requires j.token.Some? ==> id in s.db.jobs && s.db.jobs[id].token == j.token
    ensures WorkersOk(s.(db := s.db.(jobs := s.db.jobs[id := j])))
  {
    var s' := s.(db := s.db.(jobs := s.db.jobs[id := j]));
    forall t | t in s'.workers
      ensures WorkerOk(s', t, s'.workers[t])
    {
      assert WorkerOk(s, t, s.workers[t]);
    }
  }

  lemma JobRowKeepsFences(s: State, id: JobId, j: Job)
    requires FencesOk(s) && j.status != Running
    ensures FencesOk(s.(db := s.db.(jobs := s.db.jobs[id := j])))
  {
    var s' := s.(db := s.db.(jobs := s.db.jobs[id := j]));
    forall t | Current(s', t)
      ensures s'.workers[t].document in s'.db.docs && FenceOk(s'.db.docs, s'.calls, t, s'.workers[t])
    {
      assert Current(s, t);
    }
  }

  /** A table of documents in which no row is gone and no stamp is removed. */
  lemma DocsKeepWorkers(s: State, docs: map<DocumentId, Document>)
    requires WorkersOk(s)
    requires forall d :: d in s.db.docs ==> d in docs && (s.db.docs[d].stamp.Some? ==> docs[d].stamp.Some?)
    ensures WorkersOk(s.(db := s.db.(docs := docs)))
  {
    var s' := s.(db := s.db.(docs := docs));
    forall t | t in s'.workers
      ensures WorkerOk(s', t, s'.workers[t])
    {
      assert WorkerOk(s, t, s.workers[t]);
    }
  }

  /** Whoever holds a claim still finds what it left, or has left nothing. */
  lemma DocsKeepFences(s: State, docs: map<DocumentId, Document>)
    requires FencesOk(s)
    requires forall d :: d in s.db.docs ==> d in docs && (docs[d].status == s.db.docs[d].status || !(s.db.docs[d].status in {Submitting, CancelPending}))
    ensures FencesOk(s.(db := s.db.(docs := docs)))
  {
    var s' := s.(db := s.db.(docs := docs));
    forall t | Current(s', t)
      ensures s'.workers[t].document in s'.db.docs && FenceOk(s'.db.docs, s'.calls, t, s'.workers[t])
    {
      assert Current(s, t);
    }
  }

  lemma QueueKeepsInv(s: State, op: Operation, d: DocumentId, payload: string, id: JobId)
    requires Inv(s) && id !in s.db.jobs
    ensures Inv(AfterIssue(s, QueueJob(s.db, op, d, payload, id)))
  {
    if QueueJob(s.db, op, d, payload, id).Ok? && !HasActive(s.db, d) {
      assert DocOk(s.calls, d, s.db.docs[d]);
      JobRowKeepsInv(s, id, NewJob(s.db, d, op, payload));
    }
  }

  /** A new row, and its first job. */
  lemma IssueNewKeepsInv(s: State, d: DocumentId, id: JobId)
    requires Inv(s) && id !in s.db.jobs && d !in s.db.docs
    ensures Inv(AfterIssue(s, IssueNew(s.db, d, id)))
  {
    var docs := s.db.docs[d := Document(Draft, None, None)];
    DocsKeepWorkers(s, docs);
    DocsKeepFences(s, docs);
    NewRowKeepsRest(s, d);
    var s1 := s.(db := s.db.(docs := docs));
    assert Inv(s1) by { hide JobsOk, WorkersOk, CallsOk, DocsOk, FencesOk; }
    hide Inv;
    QueueKeepsInv(s1, StampIt, d, "", id);
  }

  lemma NewRowKeepsRest(s: State, d: DocumentId)
    requires JobsOk(s) && CallsOk(s) && DocsOk(s) && d !in s.db.docs
    ensures var s1 := s.(db := s.db.(docs := s.db.docs[d := Document(Draft, None, None)]));
            JobsOk(s1) && CallsOk(s1) && DocsOk(s1)
  {
  }

  /** Drafting a document again that is a draft or rejected: whoever works on it has sent nothing. */
  lemma DraftKeepsInv(s: State, d: DocumentId)
    requires Inv(s) && d in s.db.docs && (s.db.docs[d].status == Draft || s.db.docs[d].status == Error)
    ensures Inv(s.(db := s.db.(docs := s.db.docs[d := s.db.docs[d].(requestXml := None, status := Draft)])))
  {
    var docs := s.db.docs[d := s.db.docs[d].(requestXml := None, status := Draft)];
    NothingOut(s, d);
    DocsKeepWorkers(s, docs);
    DocsKeepFences(s, docs);
    DraftKeepsRest(s, d);
    hide JobsOk, WorkersOk, CallsOk, DocsOk, FencesOk;
  }

  lemma DraftKeepsRest(s: State, d: DocumentId)
    requires JobsOk(s) && CallsOk(s) && DocsOk(s) && d in s.db.docs
    requires s.db.docs[d].status == Draft || s.db.docs[d].status == Error
    requires forall u :: u in s.calls && Live(s.calls[u]) ==> s.calls[u].document != d
    ensures var s1 := s.(db := s.db.(docs := s.db.docs[d := s.db.docs[d].(requestXml := None, status := Draft)]));
            JobsOk(s1) && CallsOk(s1) && DocsOk(s1)
  {
    assert DocOk(s.calls, d, s.db.docs[d]);
  }

  /** A request that finds the row still a draft or rejected may save and queue, with whatever it has read. */
  lemma IssueKeepsInv(s: State, d: DocumentId, copy: Document, id: JobId)
    requires Inv(s) && id !in s.db.jobs && d in s.db.docs
    requires NeedsDraft(copy) ==> s.db.docs[d].status == Draft || s.db.docs[d].status == Error
    ensures Inv(AfterIssue(s, Issue(s.db, d, copy, id)))
  {
    var db' := SaveDraft(s.db, d, copy);
    if NeedsDraft(copy) {
      DraftKeepsInv(s, d);
    }
    hide Inv;
    QueueKeepsInv(s.(db := db'), StampIt, d, "", id);
  }

  /** What requests have read is nobody else's concern. */
  lemma RequestsKeepInv(s: State, requests: map<DocumentId, Request>)
    requires Inv(s)
    ensures Inv(s.(requests := requests))
  {
    var s' := s.(requests := requests);
    forall t | t in s'.workers
      ensures WorkerOk(s', t, s'.workers[t])
    {
      assert WorkerOk(s, t, s.workers[t]);
    }
    forall t | Current(s', t)
      ensures s'.workers[t].document in s'.db.docs && FenceOk(s'.db.docs, s'.calls, t, s'.workers[t])
    {
      assert Current(s, t);
    }
  }

  lemma RequestKeepsInv(s: State, e: Event)
    requires Inv(s) && (e.ReadDocument? || e.SeeNoJob? || e.DropRequest? || (e.SaveAndQueue? && OnTime(s, e)))
    ensures Inv(Step(s, e))
  {
    hide Inv, Issue;
    if e.SaveAndQueue? && AboutToSave(s, e.document) && e.job !in s.db.jobs {
      IssueKeepsInv(s, e.document, s.requests[e.document].copy, e.job);
      RequestsKeepInv(AfterIssue(s, Issue(s.db, e.document, s.requests[e.document].copy, e.job)), s.requests - {e.document});
    } else {
      RequestsKeepInv(s, Step(s, e).requests);
    }
  }

  lemma ClaimKeepsInv(s: State, id: JobId)
    requires Inv(s)
    ensures Inv(StepClaim(s, id))
  {
    if Claimable(s.db, id) {
      var s' := StepClaim(s, id);
      assert JobOk(s.db.docs, s.nextToken, s.db.jobs[id]);
      assert JobsOk(s');
      forall t | t in s'.workers
        ensures WorkerOk(s', t, s'.workers[t])
      {
        if t in s.workers {
          assert WorkerOk(s, t, s.workers[t]);
        }
      }
      forall t | Current(s', t)
        ensures s'.workers[t].document in s'.db.docs && FenceOk(s'.db.docs, s'.calls, t, s'.workers[t])
      {
        if t != s.nextToken {
          assert Current(s, t);
        }
      }
    }
  }

  lemma SignKeepsInv(s: State, t: Token, serial: nat)
    requires Inv(s)
    ensures Inv(StepSign(s, t, serial))
  {
    if At(s, t, Claimed) && s.workers[t].operation == StampIt {
      var w := s.workers[t];
      var d := w.document;
      KnownWorker(s, t);
      hide Inv;
      var r := SignRequest(s.db, ClaimOf(w, t), d, Xml(d, serial));
      if r.Err? {
        MoveKeepsInv(s, t, Done(false));
      } else if s.db.docs[d].requestXml.Some? {
        MoveKeepsInv(s, t, Claimed);
      } else {
        NothingOut(s, d);
        WriteKeepsInv(s, t, s.db.docs[d].(requestXml := Some(Xml(d, serial))), Claimed);
      }
    }
  }

  lemma BeginKeepsInv(s: State, t: Token)
    requires Inv(s) && At(s, t, Claimed) && Submits(s.workers[t].operation)
    ensures Inv(StepBegin(s, t))
  {
    var w := s.workers[t];
    KnownWorker(s, t);
    hide Inv;
    match BeginSubmit(s.db, ClaimOf(w, t), w.document, w.operation == Recover)
    case Err(_) => MoveKeepsInv(s, t, Done(false));
    case Ok(AlreadyStamped) => MoveKeepsInv(s, t, Done(true));
    case Ok(Sending(_)) => SubmitKeepsInv(s, t);
  }

  /** Starting a call: nothing else is out for the document, so the new call is its only live one. */
  lemma SubmitKeepsInv(s: State, t: Token)
    requires Inv(s) && At(s, t, Claimed) && Submits(s.workers[t].operation)
    requires var w := s.workers[t];
             var r := BeginSubmit(s.db, ClaimOf(w, t), w.document, w.operation == Recover);
             r.Ok? && r.value.Sending?
    ensures Inv(StepBegin(s, t))
  {
    var w := s.workers[t];
    assert WorkerOk(s, t, w) && DocOk(s.calls, w.document, s.db.docs[w.document]) && Current(s, t);
    if w.operation == Recover {
      WriteKeepsInv(s, t, s.db.docs[w.document].(status := Submitting), Submitted);
    } else {
      StampStarts(s, t);
    }
  }

  lemma StampStarts(s: State, t: Token)
    requires Inv(s) && At(s, t, Claimed) && s.workers[t].operation == StampIt && Current(s, t)
    requires var doc := s.db.docs[s.workers[t].document];
             (doc.status.Draft? || doc.status.Error?) && doc.requestXml.Some?
    ensures var d := s.workers[t].document;
            Inv(s.(db := SetStatus(s.db, d, Submitting),
                   calls := s.calls[t := Call(d, s.db.docs[d].requestXml.value, Unsent)],
                   workers := s.workers[t := s.workers[t].(stage := Submitted)]))
  {
    var d := s.workers[t].document;
    KnownWorker(s, t);
    NothingOut(s, d);
    hide Inv;
    var doc := s.db.docs[d].(status := Submitting);
    WriteKeepsInv(s, t, doc, Claimed);
    var s1 := Move(s.(db := s.db.(docs := s.db.docs[d := doc])), t, Claimed);
    assert s1.workers == s.workers;
    CallKeepsInv(s1, t, doc.requestXml.value);
  }

  /** A draft or rejected document has no call that could still produce a stamp. */
  lemma NothingOut(s: State, d: DocumentId)
    requires Inv(s) && d in s.db.docs && (s.db.docs[d].status.Draft? || s.db.docs[d].status.Error?)
    ensures forall u :: u in s.calls && Live(s.calls[u]) ==> s.calls[u].document != d
  {
    forall u | u in s.calls && Live(s.calls[u])
      ensures s.calls[u].document != d
    {
      assert CallOk(s.db.docs, s.calls[u]);
    }
  }

  lemma CallKeepsInv(s: State, t: Token, xml: Xml)
    requires Inv(s) && Current(s, t) && s.workers[t].operation == StampIt && t !in s.calls
    requires var d := s.workers[t].document;
             && d in s.db.docs && s.db.docs[d].status == Submitting && s.db.docs[d].requestXml == Some(xml)
             && (forall u :: u in s.calls && Live(s.calls[u]) ==> s.calls[u].document != d)
    ensures Inv(s.(calls := s.calls[t := Call(s.workers[t].document, xml, Unsent)],
                   workers := s.workers[t := s.workers[t].(stage := Submitted)]))
  {
    var d := s.workers[t].document;
    var c := Call(d, xml, Unsent);
    KnownWorker(s, t);
    SameJobs(s, s.(calls := s.calls[t := c], workers := s.workers[t := s.workers[t].(stage := Submitted)]));
    NewCallFences(s, t, c);
    hide FencesOk, JobsOk, FenceOk;
    NewCallOk(s, t, c);
    NewCallWorkers(s, t, c);
    NewCallDocs(s, t, c);
  }

  lemma NewCallWorkers(s: State, t: Token, c: Call)
    requires WorkersOk(s) && t in s.workers && s.workers[t].operation == StampIt && t !in s.calls
    requires c.document == s.workers[t].document
    ensures WorkersOk(s.(calls := s.calls[t := c], workers := s.workers[t := s.workers[t].(stage := Submitted)]))
  {
    var s' := s.(calls := s.calls[t := c], workers := s.workers[t := s.workers[t].(stage := Submitted)]);
    forall u | u in s'.workers
      ensures WorkerOk(s', u, s'.workers[u])
    {
      assert WorkerOk(s, u, s.workers[u]);
    }
  }

  lemma NewCallDocs(s: State, t: Token, c: Call)
    requires DocsOk(s) && t !in s.calls
    ensures DocsOk(s.(calls := s.calls[t := c]))
  {
    forall d | d in s.db.docs
      ensures DocOk(s.calls[t := c], d, s.db.docs[d])
    {
      assert DocOk(s.calls, d, s.db.docs[d]);
    }
  }

  lemma NewCallOk(s: State, t: Token, c: Call)
    requires CallsOk(s) && t < s.nextToken && CallOk(s.db.docs, c)
    requires forall u :: u in s.calls && Live(s.calls[u]) ==> s.calls[u].document != c.document
    ensures CallsOk(s.(calls := s.calls[t := c]))
  {
  }

  lemma NewCallFences(s: State, t: Token, c: Call)
    requires Inv(s) && Current(s, t) && c.document == s.workers[t].document && t !in s.calls
    requires c.document in s.db.docs && s.db.docs[c.document].status == Submitting
    requires forall u :: u in s.calls && Live(s.calls[u]) ==> s.calls[u].document != c.document
    ensures FencesOk(s.(calls := s.calls[t := c], workers := s.workers[t := s.workers[t].(stage := Submitted)]))
  {
    var s' := s.(calls := s.calls[t := c], workers := s.workers[t := s.workers[t].(stage := Submitted)]);
    forall u | Current(s', u)
      ensures s'.workers[u].document in s'.db.docs && FenceOk(s'.db.docs, s'.calls, u, s'.workers[u])
    {
      assert Current(s, u);
      if u != t && s.workers[u].document == c.document {
        SoleClaim(s, t, u);
      }
    }
  }

  lemma SameJobs(s: State, s': State)
    requires JobsOk(s) && s'.db == s.db && s.nextToken == s'.nextToken
    ensures JobsOk(s')
  {
  }

  /** The PAC acts on a call: it can only become definite. */
  lemma PacKeepsInv(s: State, t: Token, status: CallStatus)
    requires Inv(s) && t in s.calls && s.calls[t].status in {Unsent, InFlight}
    ensures Inv(SetCall(s, t, status))
  {
    SameJobs(s, SetCall(s, t, status));
    PacKeepsWorkers(s, t, status);
    PacKeepsDocs(s, t, status);
    PacKeepsFences(s, t, status);
    assert CallsOk(SetCall(s, t, status)) by { hide JobsOk, WorkersOk, DocsOk, FencesOk; }
    hide JobsOk, WorkersOk, CallsOk, DocsOk, FencesOk;
  }

  lemma PacKeepsWorkers(s: State, t: Token, status: CallStatus)
    requires WorkersOk(s) && t in s.calls && s.calls[t].status in {Unsent, InFlight}
    ensures WorkersOk(SetCall(s, t, status))
  {
    var s' := SetCall(s, t, status);
    forall u | u in s'.workers
      ensures WorkerOk(s', u, s'.workers[u])
    {
      assert WorkerOk(s, u, s.workers[u]);
    }
  }

  lemma PacKeepsDocs(s: State, t: Token, status: CallStatus)
    requires DocsOk(s) && t in s.calls && s.calls[t].status in {Unsent, InFlight}
    ensures DocsOk(SetCall(s, t, status))
  {
    forall d | d in s.db.docs
      ensures DocOk(SetCall(s, t, status).calls, d, s.db.docs[d])
    {
      assert DocOk(s.calls, d, s.db.docs[d]);
    }
  }

  lemma PacKeepsFences(s: State, t: Token, status: CallStatus)
    requires FencesOk(s) && t in s.calls && s.calls[t].status in {Unsent, InFlight}
    ensures FencesOk(SetCall(s, t, status))
  {
    var s' := SetCall(s, t, status);
    forall u | Current(s', u)
      ensures s'.workers[u].document in s'.db.docs && FenceOk(s'.db.docs, s'.calls, u, s'.workers[u])
    {
      assert Current(s, u);
    }
  }

  lemma WriteBackKeepsInv(s: State, t: Token)
    requires Inv(s)
    ensures Inv(StepWriteBack(s, t))
  {
    if t in s.workers && s.workers[t].stage.Answered? && s.workers[t].document in s.db.docs {
      var w := s.workers[t];
      KnownWorker(s, t);
      hide Inv;
      if !Fenced(s.db, ClaimOf(w, t)) {
        MoveKeepsInv(s, t, Done(false));
      } else {
        AnswerKeeps(s, t);
        var doc := AnsweredDocument(s.db.docs[w.document], w.operation == Recover, w.stage.answer);
        assert FinishSubmit(s.db, ClaimOf(w, t), w.document, w.operation == Recover, w.stage.answer)
               == Ok(s.db.(docs := s.db.docs[w.document := doc]));
      }
    }
  }

  lemma AnswerKeeps(s: State, t: Token)
    requires Inv(s) && Current(s, t) && s.workers[t].stage.Answered? && s.workers[t].document in s.db.docs
    ensures var w := s.workers[t];
            var doc := AnsweredDocument(s.db.docs[w.document], w.operation == Recover, w.stage.answer);
            Inv(Written(s, t, doc, Done(w.stage.answer.Granted?)))
  {
    var w := s.workers[t];
    KnownWorker(s, t);
    AnswerFits(s, t);
    hide Inv, AnsweredDocument;
    WriteKeepsInv(s, t, AnsweredDocument(s.db.docs[w.document], w.operation == Recover, w.stage.answer), Done(w.stage.answer.Granted?));
  }

  /** The document as the second transaction leaves it. */
  function AnsweredDocument(doc: Document, recover: bool, answer: Answer): Document {
    match answer
    case Granted(u) => doc.(stamp := Some(u), status := Stamped)
    case Rejected => doc.(status := if recover then Uncertain else Error)
    case Lost => doc.(status := Uncertain)
  }

  /** What a standing claim writes back fits the calls that are out. */
  lemma AnswerFits(s: State, t: Token)
    requires Inv(s) && Current(s, t) && s.workers[t].stage.Answered? && s.workers[t].document in s.db.docs
    ensures var w := s.workers[t];
            var doc := AnsweredDocument(s.db.docs[w.document], w.operation == Recover, w.stage.answer);
            && DocOk(s.calls, w.document, doc)
            && (s.db.docs[w.document].stamp.Some? ==> doc.stamp.Some?)
            && (forall u :: u in s.calls && Live(s.calls[u]) && s.calls[u].document == w.document ==>
                  doc.status !in {Draft, Error} && doc.requestXml == s.db.docs[w.document].requestXml)
  {
    var w := s.workers[t];
    var d := w.document;
    assert WorkerOk(s, t, w) && DocOk(s.calls, d, s.db.docs[d]);
    var doc := AnsweredDocument(s.db.docs[d], w.operation == Recover, w.stage.answer);
    forall u | u in s.calls && Live(s.calls[u]) && s.calls[u].document == d
      ensures doc.status !in {Draft, Error}
    {
      assert w.operation == StampIt ==> u == t;
    }
  }

  lemma BeginCancellationKeepsInv(s: State, t: Token, dependents: bool)
    requires Inv(s) && At(s, t, Claimed) && s.workers[t].operation == Cancel
    ensures Inv(StepBeginCancellation(s, t, dependents))
  {
    var w := s.workers[t];
    KnownWorker(s, t);
    NoLiveChange(s, t);
    hide Inv;
    match BeginCancel(s.db, ClaimOf(w, t), w.document, dependents)
    case Err(_) => MoveKeepsInv(s, t, Done(false));
    case Ok(AlreadyStamped) => MoveKeepsInv(s, t, Done(true));
    case Ok(Sending(_)) =>
      WriteKeepsInv(s, t, s.db.docs[w.document].(status := CancelPending), CancelSent);
  }

  lemma WriteCancellationKeepsInv(s: State, t: Token)
    requires Inv(s)
    ensures Inv(StepWriteCancellation(s, t))
  {
    if t in s.workers && s.workers[t].stage.CancelAnswered? && s.workers[t].document in s.db.docs {
      var w := s.workers[t];
      KnownWorker(s, t);
      NoLiveChange(s, t);
      hide Inv;
      if !Fenced(s.db, ClaimOf(w, t)) {
        MoveKeepsInv(s, t, Done(false));
      } else if w.stage.rejected {
        assert Current(s, t);
        WriteKeepsInv(s, t, s.db.docs[w.document].(status := Stamped), Done(false));
      } else {
        MoveKeepsInv(s, t, Done(true));
      }
    }
  }

  lemma StatusReplyKeepsInv(s: State, t: Token, cancelled: bool)
    requires Inv(s)
    ensures Inv(StepStatusReply(s, t, cancelled))
  {
    if At(s, t, Claimed) && s.workers[t].operation == CancellationStatus {
      var w := s.workers[t];
      KnownWorker(s, t);
      NoLiveChange(s, t);
      hide Inv;
      if !cancelled {
        MoveKeepsInv(s, t, Done(true));
      } else if !Fenced(s.db, ClaimOf(w, t)) {
        MoveKeepsInv(s, t, Done(false));
      } else {
        assert Current(s, t);
        WriteKeepsInv(s, t, s.db.docs[w.document].(status := Cancelled), Done(true));
      }
    }
  }

  /** A worker disappears, by finishing or by dying. */
  lemma CrashKeepsInv(s: State, t: Token)
    requires Inv(s)
    ensures Inv(s.(workers := s.workers - {t}))
  {
    var s' := s.(workers := s.workers - {t});
    forall u | u in s'.workers
      ensures WorkerOk(s', u, s'.workers[u])
    {
      assert WorkerOk(s, u, s.workers[u]);
    }
    forall u | Current(s', u)
      ensures s'.workers[u].document in s'.db.docs && FenceOk(s'.db.docs, s'.calls, u, s'.workers[u])
    {
      assert Current(s, u);
    }
  }

  lemma FinishKeepsInv(s: State, t: Token)
    requires Inv(s)
    ensures Inv(StepFinish(s, t))
  {
    if t in s.workers && s.workers[t].stage.Done? && s.workers[t].document in s.db.docs {
      var w := s.workers[t];
      var db' := FinishJob(s.db, ClaimOf(w, t), w.document, w.stage.succeeded);
      if Fenced(s.db, ClaimOf(w, t)) {
        assert JobOk(s.db.docs, s.nextToken, s.db.jobs[w.job]);
        JobRowKeepsInv(s, w.job, db'.jobs[w.job]);
      }
      CrashKeepsInv(s.(db := db'), t);
    }
  }

  /** Recovery: the interrupted claim falls, and only then is the document marked. */
  lemma RecoveryKeepsInv(s: State, id: JobId)
    requires Inv(s) && id in s.db.jobs && s.db.jobs[id].document in s.db.docs
    ensures Inv(s.(db := RecoverJob(s.db, id)))
  {
    if Recoverable(s.db, id) {
      var j := s.db.jobs[id];
      var db' := RecoverJob(s.db, id);
      assert JobOk(s.db.docs, s.nextToken, j);
      RecoveredRow(s, id);
      JobRowKeepsInv(s, id, db'.jobs[id]);
      var s1 := s.(db := s.db.(jobs := db'.jobs));
      if db'.docs != s.db.docs {
        ClaimFell(s, id, s1);
        hide Inv, Recoverable;
        UncertainKeepsInv(s1, j.document);
      }
    }
  }

  /** The row of a recovered job: waiting again, or for review, and in nobody's hands. */
  lemma RecoveredRow(s: State, id: JobId)
    requires Inv(s) && Recoverable(s.db, id) && s.db.jobs[id].document in s.db.docs
    ensures var db', j := RecoverJob(s.db, id), s.db.jobs[id];
            && id in db'.jobs && db'.jobs == s.db.jobs[id := db'.jobs[id]]
            && db'.jobs[id].document == j.document && db'.jobs[id].token.None? && db'.jobs[id].status != Running
            && JobOk(s.db.docs, s.nextToken, db'.jobs[id])
            && (db'.docs == s.db.docs || (s.db.docs[j.document].status == Submitting
                                          && db'.docs == SetStatus(s.db, j.document, Uncertain).docs))
            && db'.now == s.db.now
  {
    hide WorkersOk, CallsOk, DocsOk, FencesOk;
    assert JobOk(s.db.docs, s.nextToken, s.db.jobs[id]);
  }

  /** No claim stands any more on the document of the recovered job. */
  lemma ClaimFell(s: State, id: JobId, s1: State)
    requires Inv(s) && Recoverable(s.db, id) && s1 == s.(db := s.db.(jobs := s1.db.jobs))
    requires id in s1.db.jobs && s1.db.jobs == s.db.jobs[id := s1.db.jobs[id]] && s1.db.jobs[id].token.None?
    ensures forall t :: Current(s1, t) ==> s1.workers[t].document != s.db.jobs[id].document
  {
    hide CallsOk, DocsOk, FencesOk;
    forall t | Current(s1, t)
      ensures s1.workers[t].document != s.db.jobs[id].document
    {
      assert WorkerOk(s, t, s.workers[t]);
      assert Active(s.db.jobs[s.workers[t].job]) && Active(s.db.jobs[id]);
    }
  }

  lemma UncertainKeepsInv(s: State, d: DocumentId)
    requires Inv(s) && d in s.db.docs && s.db.docs[d].status == Submitting
    requires forall t :: Current(s, t) ==> s.workers[t].document != d
    ensures Inv(s.(db := SetStatus(s.db, d, Uncertain)))
  {
    var s' := s.(db := SetStatus(s.db, d, Uncertain));
    forall u | u in s'.workers
      ensures WorkerOk(s', u, s'.workers[u])
    {
      assert WorkerOk(s, u, s.workers[u]);
    }
    forall e | e in s'.db.docs
      ensures DocOk(s'.calls, e, s'.db.docs[e])
    {
      assert DocOk(s.calls, e, s.db.docs[e]);
    }
    forall u | Current(s', u)
      ensures s'.workers[u].document in s'.db.docs && FenceOk(s'.db.docs, s'.calls, u, s'.workers[u])
    {
      assert Current(s, u);
    }
  }

  lemma InitialInv(now: Time)
    ensures Inv(Initial(now))
  {
  }

  /** Every step of every worker, of the PAC, of the recovery pass and of a request in time keeps the invariant. */
  lemma StepKeepsInv(s: State, e: Event)
    requires Inv(s) && OnTime(s, e)
    ensures Inv(Step(s, e))
  {
    hide Inv, StepClaim, StepBegin, StepBeginCancellation, StepSave, IssueNew, QueueJob, RecoverJob, OnTime,
      StepSign, StepReceive, StepQueryFinds, StepWriteBack, StepWriteCancellation, StepStatusReply, StepFinish;
    match e
    case Tick(now) =>
      TickKeepsInv(s, now);
    case IssueFirst(d, id) =>
      if id !in s.db.jobs && d !in s.db.docs { IssueNewKeepsInv(s, d, id); }
    case ReadDocument(_) =>
      RequestKeepsInv(s, e);
    case SeeNoJob(_) =>
      RequestKeepsInv(s, e);
    case SaveAndQueue(_, _) =>
      RequestKeepsInv(s, e);
    case DropRequest(_) =>
      RequestKeepsInv(s, e);
    case QueueRequest(op, d, payload, id) =>
      if id !in s.db.jobs { QueueKeepsInv(s, op, d, payload, id); }
    case ClaimRequest(id) =>
      ClaimKeepsInv(s, id);
    case Sign(t, serial) =>
      SignKeepsInv(s, t, serial);
    case Begin(t) =>
      if At(s, t, Claimed) && Submits(s.workers[t].operation) { BeginKeepsInv(s, t); }
    case Send(t) =>
      if t in s.calls && s.calls[t].status == Unsent { PacKeepsInv(s, t, InFlight); }
    case PacStamps(t) =>
      if t in s.calls && s.calls[t].status == InFlight { PacKeepsInv(s, t, PacStamped); }
    case PacRejects(t) =>
      if t in s.calls && s.calls[t].status == InFlight { PacKeepsInv(s, t, PacRejected); }
    case Receive(t) =>
      ReceiveKeepsInv(s, t);
    case GiveUp(t) =>
      if At(s, t, Submitted) { AnswerKeepsInv(s, t, Answered(Lost)); }
    case QueryFinds(t, u) =>
      QueryKeepsInv(s, t, u);
    case QueryRefused(t) =>
      if At(s, t, Submitted) && s.workers[t].operation == Recover { AnswerKeepsInv(s, t, Answered(Rejected)); }
    case WriteBack(t) =>
      WriteBackKeepsInv(s, t);
    case BeginCancellation(t, dependents) =>
      if At(s, t, Claimed) && s.workers[t].operation == Cancel { BeginCancellationKeepsInv(s, t, dependents); }
    case CancelReply(t, rejected) =>
      if At(s, t, CancelSent) { AnswerKeepsInv(s, t, CancelAnswered(rejected)); }
    case WriteCancellation(t) =>
      WriteCancellationKeepsInv(s, t);
    case CancelFailed(t) =>
      if At(s, t, CancelSent) { AnswerKeepsInv(s, t, Done(false)); }
    case StatusReply(t, cancelled) =>
      StatusReplyKeepsInv(s, t, cancelled);
    case RenderPdf(t, succeeded) =>
      if At(s, t, Claimed) && s.workers[t].operation == Pdf { AnswerKeepsInv(s, t, Done(succeeded)); }
    case Finish(t) =>
      FinishKeepsInv(s, t);
    case Crash(t) =>
      CrashKeepsInv(s, t);
    case RecoverExpired(id) =>
      if id in s.db.jobs && s.db.jobs[id].document in s.db.docs { RecoveryKeepsInv(s, id); }
  }

  lemma TickKeepsInv(s: State, now: Time)
    requires Inv(s)
    ensures Inv(s.(db := s.db.(now := now)))
  {
    var s' := s.(db := s.db.(now := now));
    forall t | t in s'.workers
      ensures WorkerOk(s', t, s'.workers[t])
    {
      assert WorkerOk(s, t, s.workers[t]);
    }
    forall t | Current(s', t)
      ensures s'.workers[t].document in s'.db.docs && FenceOk(s'.db.docs, s'.calls, t, s'.workers[t])
    {
      assert Current(s, t);
    }
  }

  /** The service's answer to a worker's own call. */
  lemma ReceiveKeepsInv(s: State, t: Token)
    requires Inv(s)
    ensures Inv(StepReceive(s, t))
  {
    if At(s, t, Submitted) && s.workers[t].operation == StampIt && t in s.calls {
      KnownWorker(s, t);
      KnownCall(s, t);
      hide Inv;
      if s.calls[t].status == PacStamped { MoveKeepsInv(s, t, Answered(Granted(t))); }
      if s.calls[t].status == PacRejected { MoveKeepsInv(s, t, Answered(Rejected)); }
    }
  }

  /** The lookup of a request that was sent before. */
  lemma QueryKeepsInv(s: State, t: Token, u: Token)
    requires Inv(s)
    ensures Inv(StepQueryFinds(s, t, u))
  {
    if StepQueryFinds(s, t, u) != s {
      var w := s.workers[t];
      KnownWorker(s, t);
      KnownCall(s, u);
      hide Inv;
      MoveKeepsInv(s, t, Answered(Granted(u)));
    }
  }

  /** A worker moves on without having learnt of a stamp. */
  lemma AnswerKeepsInv(s: State, t: Token, stage: Stage)
    requires Inv(s) && t in s.workers
    requires var w := s.workers[t];
             || (w.stage == Submitted && (stage == Answered(Lost) || (stage == Answered(Rejected) && w.operation == Recover)))
             || (w.stage == CancelSent && (stage.CancelAnswered? || stage == Done(false)))
             || (w.stage == Claimed && stage.Done?)
    ensures Inv(Move(s, t, stage))
  {
    KnownWorker(s, t);
    hide Inv;
    MoveKeepsInv(s, t, stage);
  }

  lemma {:induction false} RunKeepsInv(s: State, events: seq<Event>)
    requires Inv(s) && AllOnTime(s, events)
    ensures Inv(Run(s, events))
    decreases |events|
  {
    if events != [] {
      StepKeepsInv(s, events[0]);
      RunKeepsInv(Step(s, events[0]), events[1..]);
    }
  }
}
