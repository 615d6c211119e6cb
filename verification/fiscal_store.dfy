/** The database half of the fiscal worker: job and document rows, and the
    transactions that fiscal/jobs.py and fiscal/services.py run on them.  Every
    function below is one transaction, as a function on the rows; the class
    `FiscalDatabase` performs the same transactions in place. */
module FiscalStore {
  import opened Common

  type DocumentId = nat
  type JobId = nat
  type Token = nat
  type Time = int

  const LEASE_SECONDS: int := 300
  const MAX_ATTEMPTS: nat := 3

  /** A signed request.  The payload carries the document's own folio, so two
      documents never share one; `serial` tells apart the signings of one document. */
  datatype Xml = Xml(document: DocumentId, serial: nat)

  datatype DocumentStatus = Draft | Submitting | Stamped | Error | Uncertain | CancelPending | Cancelled

  /** `stamp` is the identity of the stamped CFDI: the columns `xml` and `uuid`, written together. */
  datatype Document = Document(status: DocumentStatus, requestXml: Option<Xml>, stamp: Option<Token>)

  datatype Operation = StampIt | Recover | Cancel | CancellationStatus | Pdf

  datatype JobStatus = Queued | Running | Succeeded | Failed | Review

  datatype Job = Job(document: DocumentId, operation: Operation, payload: string, status: JobStatus,
                     attempts: nat, token: Option<Token>, lease: Option<Time>, availableAt: Time)

  datatype Db = Db(now: Time, docs: map<DocumentId, Document>, jobs: map<JobId, Job>)

  /** What a worker carries through `run_job`: the row it claimed and the token it drew. */
  datatype Claim = Claim(job: JobId, token: Token)

  datatype Refusal = NoSuchRow | Busy | MaybeStamped | XmlMissing | NotStamped | NeedsReview | StaleClaim | Blocked

  datatype Result<+T> = Ok(value: T) | Err(error: Refusal)

  predicate Active(j: Job) { j.status == Queued || j.status == Running }

  predicate HasStamp(status: DocumentStatus) { status in {Stamped, CancelPending, Cancelled} }

  /** `claim_transaction`: the claim is still the one on the row and its lease has not run out. */
  predicate Fenced(db: Db, c: Claim) {
    && c.job in db.jobs
    && db.jobs[c.job].status == Running
    && db.jobs[c.job].token == Some(c.token)
    && db.jobs[c.job].lease.Some?
    && db.now < db.jobs[c.job].lease.value
  }

  predicate Recoverable(db: Db, id: JobId) {
    && id in db.jobs
    && db.jobs[id].status == Running
    && db.jobs[id].lease.Some?
    && db.jobs[id].lease.value < db.now
  }

  predicate Claimable(db: Db, id: JobId) {
    id in db.jobs && db.jobs[id].status == Queued && db.jobs[id].availableAt <= db.now
  }

  function SetStatus(db: Db, d: DocumentId, status: DocumentStatus): (r: Db)
    requires d in db.docs
    ensures r.jobs == db.jobs && r.now == db.now
  {
    db.(docs := db.docs[d := db.docs[d].(status := status)])
  }

  predicate HasActive(db: Db, d: DocumentId) {
    exists k :: k in db.jobs && db.jobs[k].document == d && Active(db.jobs[k])
  }

  predicate HasConflict(db: Db, d: DocumentId, op: Operation, payload: string) {
    exists k :: k in db.jobs && db.jobs[k].document == d && Active(db.jobs[k])
                && (db.jobs[k].operation != op || db.jobs[k].payload != payload)
  }

  /** Why `queue_job` refuses a new row, when the document has no active one. */
  function QueueObstacle(doc: Document, op: Operation): Option<Refusal> {
    if op == StampIt && doc.status in {Submitting, Uncertain} then Some(MaybeStamped)
    else if op == Recover && doc.requestXml.None? then Some(XmlMissing)
    else if op in {Pdf, CancellationStatus} && doc.stamp.None? then Some(XmlMissing)
    else if op == Cancel && !HasStamp(doc.status) then Some(NotStamped)
    else None
  }

  function NewJob(db: Db, d: DocumentId, op: Operation, payload: string): Job {
    Job(d, op, payload, Queued, 0, None, None, db.now)
  }

  /** `queue_job` for a document; `id` is the key a new row would get. */
  function QueueJob(db: Db, op: Operation, d: DocumentId, payload: string, id: JobId): (r: Result<Db>)
    ensures r.Ok? ==> r.value.docs == db.docs && r.value.now == db.now
  {
    if d !in db.docs then Err(NoSuchRow)
    else if HasActive(db, d) then
      if HasConflict(db, d, op, payload) then Err(Busy) else Ok(db)
    else match QueueObstacle(db.docs[d], op)
      case Some(refusal) => Err(refusal)
      case None => Ok(db.(jobs := db.jobs[id := NewJob(db, d, op, payload)]))
  }

  /** What `prepare_document` asks of the row it read: without a request, or rejected, it is drafted again. */
  predicate NeedsDraft(doc: Document) { doc.requestXml.None? || doc.status == Error }

  /** The row as `prepare_document` and `prepare_credit_document` save it from the copy they read, which no
      lock has kept up to date; the columns of the stamp are not among those saved. */
  function SaveDraft(db: Db, d: DocumentId, copy: Document): (r: Db)
    requires d in db.docs
    ensures r.jobs == db.jobs && r.now == db.now && r.docs.Keys == db.docs.Keys
  {
    if NeedsDraft(copy) then db.(docs := db.docs[d := db.docs[d].(requestXml := None, status := Draft)]) else db
  }

  /** The end of an issuing request whose copy had no active job: the save and the queueing are one
      transaction, undone together on a refusal. */
  function Issue(db: Db, d: DocumentId, copy: Document, id: JobId): Result<Db>
    requires d in db.docs
  {
    QueueJob(SaveDraft(db, d, copy), StampIt, d, "", id)
  }

  /** The first request for a document: its row is created by the transaction that queues its job. */
  function IssueNew(db: Db, d: DocumentId, id: JobId): Result<Db>
    requires d !in db.docs
  {
    QueueJob(db.(docs := db.docs[d := Document(Draft, None, None)]), StampIt, d, "", id)
  }

  function ClaimJob(db: Db, id: JobId, token: Token): (r: Db)
    ensures r.docs == db.docs && r.now == db.now
  {
    if !Claimable(db, id) then db
    else
      var j := db.jobs[id];
      db.(jobs := db.jobs[id := j.(status := Running, attempts := j.attempts + 1, token := Some(token),
                                   lease := Some(db.now + LEASE_SECONDS))])
  }

  /** `_prepare_for_stamp`; `xml` is the payload that signing would produce. */
  function SignRequest(db: Db, c: Claim, d: DocumentId, xml: Xml): (r: Result<Db>)
    requires d in db.docs
    ensures r.Ok? ==> Fenced(db, c) && r.value.jobs == db.jobs && r.value.now == db.now
  {
    if !Fenced(db, c) then Err(StaleClaim)
    else if db.docs[d].requestXml.Some? then Ok(db)
    else if db.docs[d].status != Draft then Err(NeedsReview)
    else Ok(db.(docs := db.docs[d := db.docs[d].(requestXml := Some(xml))]))
  }

  datatype Begun = AlreadyStamped | Sending(db: Db)

  /** First transaction of `stamp_document`. */
  function BeginSubmit(db: Db, c: Claim, d: DocumentId, recover: bool): (r: Result<Begun>)
    requires d in db.docs
    ensures r.Ok? && r.value.Sending? ==> Fenced(db, c) && r.value.db.jobs == db.jobs && r.value.db.now == db.now
  {
    var doc := db.docs[d];
    if !Fenced(db, c) then Err(StaleClaim)
    else if HasStamp(doc.status) then Ok(AlreadyStamped)
    else if doc.status in {Submitting, Uncertain} && !recover then Err(MaybeStamped)
    else if doc.requestXml.None? then Err(XmlMissing)
    else Ok(Sending(SetStatus(db, d, Submitting)))
  }

  /** What the worker learns from the PAC. */
  datatype Answer = Granted(stamp: Token) | Rejected | Lost

  /** Second transaction of `stamp_document`: success, or the status the failure leaves. */
  function FinishSubmit(db: Db, c: Claim, d: DocumentId, recover: bool, answer: Answer): (r: Result<Db>)
    requires d in db.docs
    ensures r.Ok? ==> Fenced(db, c) && r.value.jobs == db.jobs && r.value.now == db.now
  {
    if !Fenced(db, c) then Err(StaleClaim)
    else match answer
      case Granted(stamp) => Ok(db.(docs := db.docs[d := db.docs[d].(stamp := Some(stamp), status := Stamped)]))
      case Rejected => Ok(SetStatus(db, d, if recover then Uncertain else Error))
      case Lost => Ok(SetStatus(db, d, Uncertain))
  }

  /** First transaction of `cancel_document`; `dependents` says that a related
      complement or credit note still stands. */
  function BeginCancel(db: Db, c: Claim, d: DocumentId, dependents: bool): (r: Result<Begun>)
    requires d in db.docs
    ensures r.Ok? && r.value.Sending? ==> Fenced(db, c) && r.value.db.jobs == db.jobs && r.value.db.now == db.now
  {
    if !Fenced(db, c) then Err(StaleClaim)
    else if db.docs[d].status in {Cancelled, CancelPending} then Ok(AlreadyStamped)
    else if db.docs[d].status != Stamped then Err(NotStamped)
    else if dependents then Err(Blocked)
    else Ok(Sending(SetStatus(db, d, CancelPending)))
  }

  /** Second transaction of `cancel_document`: only a definitive rejection changes the status. */
  function FinishCancel(db: Db, c: Claim, d: DocumentId, rejected: bool): (r: Result<Db>)
    requires d in db.docs
    ensures r.Ok? ==> Fenced(db, c) && r.value.jobs == db.jobs && r.value.now == db.now
  {
    if !Fenced(db, c) then Err(StaleClaim)
    else if rejected then Ok(SetStatus(db, d, Stamped))
    else Ok(db)
  }

  /** `refresh_cancellation` when the tax authority reports the CFDI as cancelled. */
  function ConfirmCancelled(db: Db, c: Claim, d: DocumentId): (r: Result<Db>)
    requires d in db.docs
    ensures r.Ok? ==> Fenced(db, c) && r.value.jobs == db.jobs && r.value.now == db.now
  {
    if !Fenced(db, c) then Err(StaleClaim) else Ok(SetStatus(db, d, Cancelled))
  }

  /** Last transaction of `run_job`. */
  function FinishJob(db: Db, c: Claim, d: DocumentId, succeeded: bool): (r: Db)
    requires d in db.docs
    ensures r.docs == db.docs && r.now == db.now
  {
    if !Fenced(db, c) then db
    else
      var status :=
        if succeeded then Succeeded
        else if db.docs[d].status in {Uncertain, Submitting, CancelPending} then Review
        else Failed;
      db.(jobs := db.jobs[c.job := db.jobs[c.job].(status := status, lease := None)])
  }

  /** The operation an interrupted job continues with. */
  function NextOperation(op: Operation, doc: Document): Operation {
    match op
    case StampIt => if doc.requestXml.None? then StampIt else Recover
    case Cancel => CancellationStatus
    case _ => op
  }

  /** One iteration of `recover_expired_jobs`. */
  function RecoverJob(db: Db, id: JobId): Db
    requires id in db.jobs ==> db.jobs[id].document in db.docs
  {
    if !Recoverable(db, id) then db
    else
      var j := db.jobs[id];
      var d := j.document;
      var docs' := if j.operation == StampIt && db.docs[d].status == Submitting
                   then db.docs[d := db.docs[d].(status := Uncertain)] else db.docs;
      var j' := j.(operation := NextOperation(j.operation, db.docs[d]),
                   payload := if j.operation == Cancel then "" else j.payload,
                   status := if j.attempts < MAX_ATTEMPTS then Queued else Review,
                   token := None, lease := None, availableAt := db.now);
      db.(docs := docs', jobs := db.jobs[id := j'])
  }

  ghost predicate JobsHaveDocuments(db: Db) {
    forall j :: j in db.jobs ==> db.jobs[j].document in db.docs
  }

  /** The whole recovery pass over the ids it selected. */
  ghost function RecoverAll(db: Db, ids: seq<JobId>): (r: Db)
    requires JobsHaveDocuments(db)
    ensures JobsHaveDocuments(r)
  {
    if ids == [] then db
    else
      var prefix := RecoverAll(db, ids[..|ids| - 1]);
      RecoverJob(prefix, ids[|ids| - 1])
  }

  /** How many of them it recovers. */
  ghost function RecoveredCount(db: Db, ids: seq<JobId>): nat
    requires JobsHaveDocuments(db)
  {
    if ids == [] then 0
    else
      var prefix := ids[..|ids| - 1];
      RecoveredCount(db, prefix) + if Recoverable(RecoverAll(db, prefix), ids[|ids| - 1]) then 1 else 0
  }

  /** The tables `FiscalDocument` and `FiscalJob`, updated in place. */
  class FiscalDatabase {
    var now: Time
    var docs: map<DocumentId, Document>
    var jobs: map<JobId, Job>

    function View(): Db
      reads this
    {
      Db(now, docs, jobs)
    }

    method Queue(op: Operation, d: DocumentId, payload: string, id: JobId) returns (r: Result<JobId>)
      requires id !in jobs
      modifies this
      ensures var spec := QueueJob(old(View()), op, d, payload, id);
              match spec { case Ok(db) => r.Ok? && View() == db case Err(e) => r == Err(e) && View() == old(View()) }
      ensures r.Ok? ==> r.value in jobs && Active(jobs[r.value])
                        && jobs[r.value].document == d && jobs[r.value].operation == op
    {
      if d !in docs {
        return Err(NoSuchRow);
      }
      if other: JobId :| other in jobs && jobs[other].document == d && Active(jobs[other])
                         && (jobs[other].operation != op || jobs[other].payload != payload) {
        return Err(Busy);
      }
      if existing: JobId :| existing in jobs && jobs[existing].document == d && Active(jobs[existing]) {
        return Ok(existing);
      }
      var target := docs[d];
      if op == StampIt && target.status in {Submitting, Uncertain} {
        return Err(MaybeStamped);
      }
      if op in {Recover, Pdf, CancellationStatus} && (if op == Recover then target.requestXml.None? else target.stamp.None?) {
        return Err(XmlMissing);
      }
      if op == Cancel && target.status !in {Stamped, CancelPending, Cancelled} {
        return Err(NotStamped);
      }
      jobs := jobs[id := Job(d, op, payload, Queued, 0, None, None, now)];
      return Ok(id);
    }

    /** The row as a request reads it, without a lock, created if it is missing. */
    method GetOrCreate(d: DocumentId) returns (copy: Document)
      modifies this`docs
      ensures View() == old(View()).(docs := if d in old(docs) then old(docs) else old(docs)[d := Document(Draft, None, None)])
      ensures d in docs && copy == docs[d]
    {
      if d !in docs {
        docs := docs[d := Document(Draft, None, None)];
      }
      copy := docs[d];
    }

    /** The save of a request, from its copy, which may be out of date. */
    method SaveFrom(d: DocumentId, copy: Document)
      requires d in docs
      modifies this`docs
      ensures View() == SaveDraft(old(View()), d, copy)
    {
      if copy.requestXml.None? || copy.status == Error {
        docs := docs[d := docs[d].(requestXml := None)];
        docs := docs[d := docs[d].(status := Draft)];
      }
    }

    method ClaimRow(id: JobId, token: Token) returns (claimed: bool)
      modifies this`jobs
      ensures claimed == Claimable(old(View()), id)
      ensures View() == ClaimJob(old(View()), id, token)
    {
      if id !in jobs || jobs[id].status != Queued || jobs[id].availableAt > now {
        return false;
      }
      var job := jobs[id];
      job := job.(status := Running);
      job := job.(attempts := job.attempts + 1);
      job := job.(token := Some(token));
      job := job.(lease := Some(now + LEASE_SECONDS));
      jobs := jobs[id := job];
      return true;
    }

    method SignUnder(c: Claim, d: DocumentId, xml: Xml) returns (r: Result<()>)
      requires d in docs
      modifies this`docs
      ensures match SignRequest(old(View()), c, d, xml) {
                case Ok(db) => r.Ok? && View() == db case Err(e) => r == Err(e) && View() == old(View()) }
    {
      if !(c.job in jobs && jobs[c.job].status == Running && jobs[c.job].token == Some(c.token)
           && jobs[c.job].lease.Some? && jobs[c.job].lease.value > now) {
        return Err(StaleClaim);
      }
      if docs[d].requestXml.None? {
        if docs[d].status != Draft {
          return Err(NeedsReview);
        }
        docs := docs[d := docs[d].(requestXml := Some(xml))];
      }
      return Ok(());
    }

    method BeginStamp(c: Claim, d: DocumentId, recover: bool) returns (r: Result<bool>)
      requires d in docs
      modifies this`docs
      ensures match BeginSubmit(old(View()), c, d, recover) {
                case Ok(Sending(db)) => r == Ok(true) && View() == db
                case Ok(AlreadyStamped) => r == Ok(false) && View() == old(View())
                case Err(e) => r == Err(e) && View() == old(View()) }
    {
      if !(c.job in jobs && jobs[c.job].status == Running && jobs[c.job].token == Some(c.token)
           && jobs[c.job].lease.Some? && jobs[c.job].lease.value > now) {
        return Err(StaleClaim);
      }
      var status := docs[d].status;
      if status == Stamped || status == Cancelled || status == CancelPending {
        return Ok(false);
      }
      if (status == Submitting || status == Uncertain) && !recover {
        return Err(MaybeStamped);
      }
      if docs[d].requestXml.None? {
        return Err(XmlMissing);
      }
      docs := docs[d := docs[d].(status := Submitting)];
      return Ok(true);
    }

    method FinishStamp(c: Claim, d: DocumentId, recover: bool, answer: Answer) returns (r: Result<()>)
      requires d in docs
      modifies this`docs
      ensures match FinishSubmit(old(View()), c, d, recover, answer) {
                case Ok(db) => r.Ok? && View() == db case Err(e) => r == Err(e) && View() == old(View()) }
    {
      if !(c.job in jobs && jobs[c.job].status == Running && jobs[c.job].token == Some(c.token)
           && jobs[c.job].lease.Some? && jobs[c.job].lease.value > now) {
        return Err(StaleClaim);
      }
      if answer.Granted? {
        docs := docs[d := docs[d].(stamp := Some(answer.stamp))];
        docs := docs[d := docs[d].(status := Stamped)];
      } else {
        var status := if answer.Rejected? && !recover then Error else Uncertain;
        docs := docs[d := docs[d].(status := status)];
      }
      return Ok(());
    }

    method BeginCancellation(c: Claim, d: DocumentId, dependents: bool) returns (r: Result<bool>)
      requires d in docs
      modifies this`docs
      ensures match BeginCancel(old(View()), c, d, dependents) {
                case Ok(Sending(db)) => r == Ok(true) && View() == db
                case Ok(AlreadyStamped) => r == Ok(false) && View() == old(View())
                case Err(e) => r == Err(e) && View() == old(View()) }
    {
      if !Fenced(View(), c) {
        return Err(StaleClaim);
      }
      if docs[d].status == Cancelled || docs[d].status == CancelPending {
        return Ok(false);
      }
      if docs[d].status != Stamped {
        return Err(NotStamped);
      }
      if dependents {
        return Err(Blocked);
      }
      docs := docs[d := docs[d].(status := CancelPending)];
      return Ok(true);
    }

    method FinishCancellation(c: Claim, d: DocumentId, rejected: bool) returns (r: Result<()>)
      requires d in docs
      modifies this`docs
      ensures match FinishCancel(old(View()), c, d, rejected) {
                case Ok(db) => r.Ok? && View() == db case Err(e) => r == Err(e) && View() == old(View()) }
    {
      if !Fenced(View(), c) {
        return Err(StaleClaim);
      }
      if rejected {
        docs := docs[d := docs[d].(status := Stamped)];
      }
      return Ok(());
    }

    method FinishRow(c: Claim, d: DocumentId, succeeded: bool) returns (changed: bool)
      requires d in docs
      modifies this`jobs
      ensures changed == Fenced(old(View()), c)
      ensures View() == FinishJob(old(View()), c, d, succeeded)
    {
      var status := Succeeded;
      if !succeeded {
        status := Failed;
        if docs[d].status in {Uncertain, Submitting, CancelPending} {
          status := Review;
        }
      }
      changed := c.job in jobs && jobs[c.job].status == Running && jobs[c.job].token == Some(c.token)
                 && jobs[c.job].lease.Some? && jobs[c.job].lease.value > now;
      if changed {
        jobs := jobs[c.job := jobs[c.job].(status := status, lease := None)];
      }
    }

    /** `recover_expired_jobs`: `ids` is the batch the query selected before the first row was locked. */
    method RecoverExpired(ids: seq<JobId>) returns (count: nat)
      requires JobsHaveDocuments(View())
      modifies this`jobs, this`docs
      ensures View() == RecoverAll(old(View()), ids)
      ensures count == RecoveredCount(old(View()), ids)
    {
      count := 0;
      for i := 0 to |ids|
        invariant View() == RecoverAll(old(View()), ids[..i])
        invariant JobsHaveDocuments(View())
        invariant count == RecoveredCount(old(View()), ids[..i])
      {
        assert ids[..i + 1][..i] == ids[..i];
        var id := ids[i];
        if id !in jobs || jobs[id].status != Running || jobs[id].lease.None? || jobs[id].lease.value >= now {
          continue;
        }
        var job := jobs[id];
        var document := docs[job.document];
        if job.operation == StampIt {
          job := job.(operation := Recover);
          if document.status == Submitting {
            docs := docs[job.document := document.(status := Uncertain)];
          }
          if document.requestXml.None? {
            job := job.(operation := StampIt);
          }
        } else if job.operation == Cancel {
          job := job.(operation := CancellationStatus, payload := "");
        }
        job := job.(status := if job.attempts < MAX_ATTEMPTS then Queued else Review);
        job := job.(token := None, lease := None, availableAt := now);
        jobs := jobs[id := job];
        count := count + 1;
      }
      assert ids[..|ids|] == ids;
    }
  }
}
