/** The stamping protocol as a transition system: the database of `FiscalStore`,
    the workers running `run_job`, and the external stamping service (PAC).
    Any worker may pause for any time between two transactions, or die; a call on
    the wire may reach the PAC at any later moment; a request to issue a document
    may save what it has read long after it read it. */
module FiscalProtocol {
  import opened Common
  import opened FiscalStore

  /** A stamp request as the PAC sees it; a call begins when the document is marked as submitting. */
  datatype CallStatus = Unsent | InFlight | PacStamped | PacRejected

  datatype Call = Call(document: DocumentId, xml: Xml, status: CallStatus)

  /** Where a worker stands inside `run_job`. */
  datatype Stage =
    | Claimed
    | Submitted
    | Answered(answer: Answer)
    | CancelSent
    | CancelAnswered(rejected: bool)
    | Done(succeeded: bool)

  /** One execution of `run_job`; the token drawn at the claim identifies it. */
  datatype Worker = Worker(job: JobId, document: DocumentId, operation: Operation, stage: Stage)

  /** An issuing request that has read its document; `idle` once it has seen no active job. It holds the
      lock of the invoice, so a document has one at a time. */
  datatype Request = Request(copy: Document, idle: bool)

  datatype State = State(db: Db, workers: map<Token, Worker>, calls: map<Token, Call>, nextToken: Token,
                         requests: map<DocumentId, Request>)

  datatype Event =
    | Tick(now: Time)
    | IssueFirst(document: DocumentId, job: JobId)
    | ReadDocument(document: DocumentId)
    | SeeNoJob(document: DocumentId)
    | SaveAndQueue(document: DocumentId, job: JobId)
    | DropRequest(document: DocumentId)
    | QueueRequest(operation: Operation, document: DocumentId, payload: string, job: JobId)
    | ClaimRequest(job: JobId)
    | Sign(worker: Token, serial: nat)
    | Begin(worker: Token)
    | Send(worker: Token)
    | PacStamps(call: Token)
    | PacRejects(call: Token)
    | Receive(worker: Token)
    | GiveUp(worker: Token)
    | QueryFinds(worker: Token, stamp: Token)
    | QueryRefused(worker: Token)
    | WriteBack(worker: Token)
    | BeginCancellation(worker: Token, dependents: bool)
    | CancelReply(worker: Token, rejected: bool)
    | WriteCancellation(worker: Token)
    | CancelFailed(worker: Token)
    | StatusReply(worker: Token, cancelled: bool)
    | RenderPdf(worker: Token, succeeded: bool)
    | Finish(worker: Token)
    | Crash(worker: Token)
    | RecoverExpired(job: JobId)

  function ClaimOf(w: Worker, t: Token): Claim { Claim(w.job, t) }

  function Move(s: State, t: Token, stage: Stage): State
    requires t in s.workers
  {
    s.(workers := s.workers[t := s.workers[t].(stage := stage)])
  }

  function SetCall(s: State, t: Token, status: CallStatus): State
    requires t in s.calls
  {
    s.(calls := s.calls[t := s.calls[t].(status := status)])
  }

  predicate At(s: State, t: Token, stage: Stage) {
    t in s.workers && s.workers[t].stage == stage && s.workers[t].document in s.db.docs
  }

  predicate Submits(op: Operation) { op in {StampIt, Recover} }

  /** A worker whose transaction was refused stops with a failure. */
  function AfterWrite(s: State, t: Token, r: Result<Db>, done: Stage): State
    requires t in s.workers
  {
    match r
    case Ok(db) => Move(s.(db := db), t, done)
    case Err(_) => Move(s, t, Done(false))
  }

  function AfterIssue(s: State, r: Result<Db>): State {
    match r
    case Ok(db) => s.(db := db)
    case Err(_) => s
  }

  function StepClaim(s: State, id: JobId): State {
    if !Claimable(s.db, id) then s
    else
      var j := s.db.jobs[id];
      State(ClaimJob(s.db, id, s.nextToken),
            s.workers[s.nextToken := Worker(id, j.document, j.operation, Claimed)],
            s.calls, s.nextToken + 1, s.requests)
  }

  /** The request of document `d` is about to save what it read. */
  predicate AboutToSave(s: State, d: DocumentId) { d in s.requests && s.requests[d].idle && d in s.db.docs }

  /** The request saves, queues and ends. */
  function StepSave(s: State, d: DocumentId, id: JobId): State
    requires AboutToSave(s, d)
  {
    AfterIssue(s, Issue(s.db, d, s.requests[d].copy, id)).(requests := s.requests - {d})
  }

  /** A stage that a worker may reach from another in one step of its own. */
  predicate Follows(before: Stage, after: Stage) {
    && (after.Claimed? ==> before.Claimed?)
    && (after.Submitted? ==> before.Claimed? || before.Submitted?)
    && (after.Answered? ==> before.Submitted?)
  }

  /** A worker's own step moves that worker alone and leaves the queue alone; a document it changes is its
      own, and it passes its fence. */
  predicate OwnStep(s: State, r: State, t: Token) {
    && r.db.jobs == s.db.jobs && r.db.now == s.db.now && r.nextToken == s.nextToken && r.requests == s.requests
    && (r == s || (t in s.workers && t in r.workers && Follows(s.workers[t].stage, r.workers[t].stage)
                   && r.workers == s.workers[t := s.workers[t].(stage := r.workers[t].stage)]))
    && (r.db.docs == s.db.docs
        || (t in s.workers && Fenced(s.db, ClaimOf(s.workers[t], t))
            && var d := s.workers[t].document;
               d in s.db.docs && d in r.db.docs && r.db.docs == s.db.docs[d := r.db.docs[d]]))
  }

  function StepBegin(s: State, t: Token): (r: State)
    requires At(s, t, Claimed)
    ensures OwnStep(s, r, t)
  {
    var w := s.workers[t];
    match BeginSubmit(s.db, ClaimOf(w, t), w.document, w.operation == Recover)
    case Err(_) => Move(s, t, Done(false))
    case Ok(AlreadyStamped) => Move(s, t, Done(true))
    case Ok(Sending(db)) =>
      var s' := Move(s.(db := db), t, Submitted);
      if w.operation == Recover || s.db.docs[w.document].requestXml.None? then s'
      else s'.(calls := s.calls[t := Call(w.document, s.db.docs[w.document].requestXml.value, Unsent)])
  }

  function StepBeginCancellation(s: State, t: Token, dependents: bool): (r: State)
    requires At(s, t, Claimed)
    ensures OwnStep(s, r, t) && r.calls == s.calls
  {
    var w := s.workers[t];
    match BeginCancel(s.db, ClaimOf(w, t), w.document, dependents)
    case Err(_) => Move(s, t, Done(false))
    case Ok(AlreadyStamped) => Move(s, t, Done(true))
    case Ok(Sending(db)) => Move(s.(db := db), t, CancelSent)
  }

  function StepSign(s: State, t: Token, serial: nat): (r: State)
    ensures OwnStep(s, r, t) && r.calls == s.calls
  {
    if At(s, t, Claimed) && s.workers[t].operation == StampIt then
      var w := s.workers[t];
      AfterWrite(s, t, SignRequest(s.db, ClaimOf(w, t), w.document, Xml(w.document, serial)), Claimed)
    else s
  }

  function StepReceive(s: State, t: Token): (r: State)
    ensures OwnStep(s, r, t) && r.calls == s.calls && r.db == s.db
  {
    if At(s, t, Submitted) && s.workers[t].operation == StampIt && t in s.calls then
      if s.calls[t].status == PacStamped then Move(s, t, Answered(Granted(t)))
      else if s.calls[t].status == PacRejected then Move(s, t, Answered(Rejected))
      else s
    else s
  }

  function StepQueryFinds(s: State, t: Token, u: Token): (r: State)
    ensures OwnStep(s, r, t) && r.calls == s.calls && r.db == s.db
  {
    if At(s, t, Submitted) && s.workers[t].operation == Recover && u in s.calls && s.calls[u].status == PacStamped
       && s.db.docs[s.workers[t].document].requestXml == Some(s.calls[u].xml)
    then Move(s, t, Answered(Granted(u))) else s
  }

  function StepWriteBack(s: State, t: Token): (r: State)
    ensures OwnStep(s, r, t) && r.calls == s.calls
  {
    if t in s.workers && s.workers[t].stage.Answered? && s.workers[t].document in s.db.docs then
      var w := s.workers[t];
      AfterWrite(s, t, FinishSubmit(s.db, ClaimOf(w, t), w.document, w.operation == Recover, w.stage.answer),
                 Done(w.stage.answer.Granted?))
    else s
  }

  function StepWriteCancellation(s: State, t: Token): (r: State)
    ensures OwnStep(s, r, t) && r.calls == s.calls
  {
    if t in s.workers && s.workers[t].stage.CancelAnswered? && s.workers[t].document in s.db.docs then
      var w := s.workers[t];
      AfterWrite(s, t, FinishCancel(s.db, ClaimOf(w, t), w.document, w.stage.rejected), Done(!w.stage.rejected))
    else s
  }

  function StepStatusReply(s: State, t: Token, cancelled: bool): (r: State)
    ensures OwnStep(s, r, t) && r.calls == s.calls
  {
    if At(s, t, Claimed) && s.workers[t].operation == CancellationStatus then
      var w := s.workers[t];
      if cancelled then AfterWrite(s, t, ConfirmCancelled(s.db, ClaimOf(w, t), w.document), Done(true))
      else Move(s, t, Done(true))
    else s
  }

  function StepFinish(s: State, t: Token): State {
    if t in s.workers && s.workers[t].stage.Done? && s.workers[t].document in s.db.docs then
      var w := s.workers[t];
      s.(db := FinishJob(s.db, ClaimOf(w, t), w.document, w.stage.succeeded), workers := s.workers - {t})
    else s
  }

  /** One step; an event that is not enabled changes nothing. */
  function Step(s: State, e: Event): State {
    match e
    case Tick(now) => if s.db.now <= now then s.(db := s.db.(now := now)) else s
    case IssueFirst(d, id) => if id in s.db.jobs || d in s.db.docs then s else AfterIssue(s, IssueNew(s.db, d, id))
    case ReadDocument(d) =>
      if d !in s.db.docs || d in s.requests then s else s.(requests := s.requests[d := Request(s.db.docs[d], false)])
    case SeeNoJob(d) =>
      if d !in s.requests then s
      else if HasActive(s.db, d) then s.(requests := s.requests - {d})
      else s.(requests := s.requests[d := s.requests[d].(idle := true)])
    case SaveAndQueue(d, id) => if !AboutToSave(s, d) || id in s.db.jobs then s else StepSave(s, d, id)
    case DropRequest(d) => s.(requests := s.requests - {d})
    case QueueRequest(op, d, payload, id) =>
      if id in s.db.jobs then s else AfterIssue(s, QueueJob(s.db, op, d, payload, id))
    case ClaimRequest(id) => StepClaim(s, id)
    case Sign(t, serial) => StepSign(s, t, serial)
    case Begin(t) => if At(s, t, Claimed) && Submits(s.workers[t].operation) then StepBegin(s, t) else s
    case Send(t) =>
      if At(s, t, Submitted) && t in s.calls && s.calls[t].status == Unsent then SetCall(s, t, InFlight) else s
    case PacStamps(t) => if t in s.calls && s.calls[t].status == InFlight then SetCall(s, t, PacStamped) else s
    case PacRejects(t) => if t in s.calls && s.calls[t].status == InFlight then SetCall(s, t, PacRejected) else s
    case Receive(t) => StepReceive(s, t)
    case GiveUp(t) => if At(s, t, Submitted) then Move(s, t, Answered(Lost)) else s
    case QueryFinds(t, u) => StepQueryFinds(s, t, u)
    case QueryRefused(t) =>
      if At(s, t, Submitted) && s.workers[t].operation == Recover then Move(s, t, Answered(Rejected)) else s
    case WriteBack(t) => StepWriteBack(s, t)
    case BeginCancellation(t, dependents) =>
      if At(s, t, Claimed) && s.workers[t].operation == Cancel then StepBeginCancellation(s, t, dependents) else s
    case CancelReply(t, rejected) => if At(s, t, CancelSent) then Move(s, t, CancelAnswered(rejected)) else s
    case WriteCancellation(t) => StepWriteCancellation(s, t)
    case CancelFailed(t) => if At(s, t, CancelSent) then Move(s, t, Done(false)) else s
    case StatusReply(t, cancelled) => StepStatusReply(s, t, cancelled)
    case RenderPdf(t, succeeded) =>
      if At(s, t, Claimed) && s.workers[t].operation == Pdf then Move(s, t, Done(succeeded)) else s
    case Finish(t) => StepFinish(s, t)
    case Crash(t) => s.(workers := s.workers - {t})
    case RecoverExpired(id) =>
      if id in s.db.jobs && s.db.jobs[id].document in s.db.docs then s.(db := RecoverJob(s.db, id)) else s
  }

  function Run(s: State, events: seq<Event>): State
    decreases |events|
  {
    if events == [] then s else Run(Step(s, events[0]), events[1..])
  }

  /** An empty installation. */
  function Initial(now: Time): State { State(Db(now, map[], map[]), map[], map[], 0, map[]) }

  /** What no lock enforces: a request that saves a draft finds the row still a draft or rejected. */
  predicate OnTime(s: State, e: Event) {
    e.SaveAndQueue? && AboutToSave(s, e.document) && NeedsDraft(s.requests[e.document].copy) ==>
      s.db.docs[e.document].status == Draft || s.db.docs[e.document].status == Error
  }

  ghost predicate AllOnTime(s: State, events: seq<Event>)
    decreases |events|
  {
    events != [] ==> OnTime(s, events[0]) && AllOnTime(Step(s, events[0]), events[1..])
  }

  /** The call may have produced a stamp, or may still do so. */
  predicate Live(c: Call) { c.status != PacRejected }

  /** The worker's claim has not been replaced; its lease may have run out. */
  predicate Current(s: State, t: Token) {
    t in s.workers && Holds(s.db.jobs, s.workers[t], t)
  }

  predicate Holds(jobs: map<JobId, Job>, w: Worker, t: Token) {
    w.job in jobs && jobs[w.job].status == Running && jobs[w.job].token == Some(t)
  }

  /** The PAC did stamp document `d`, and `u` identifies that stamp. */
  predicate StampedAs(calls: map<Token, Call>, d: DocumentId, u: Token) {
    u in calls && calls[u].document == d && calls[u].status == PacStamped
  }

  /** No call for document `d` but `t` may have produced a stamp. */
  ghost predicate OnlyLiveCall(calls: map<Token, Call>, t: Token, d: DocumentId) {
    forall u :: u in calls && Live(calls[u]) && calls[u].document == d ==> u == t
  }

  /* ---- the invariant, row by row ---- */

  predicate JobOk(docs: map<DocumentId, Document>, bound: Token, j: Job) {
    && j.document in docs
    && j.attempts <= MAX_ATTEMPTS
    && (j.status == Queued ==> j.attempts < MAX_ATTEMPTS)
    && (j.status == Running ==> j.token.Some? && j.lease.Some?)
    && (j.token.Some? ==> j.token.value < bound)
    && (Active(j) && !Submits(j.operation) ==> docs[j.document].stamp.Some?)
  }

  predicate DocOk(calls: map<Token, Call>, d: DocumentId, doc: Document) {
    && (doc.requestXml.None? ==> doc.status == Draft)
    && (doc.requestXml.Some? ==> doc.requestXml.value.document == d)
    && (HasStamp(doc.status) <==> doc.stamp.Some?)
    && (doc.stamp.Some? ==> StampedAs(calls, d, doc.stamp.value))
  }

  predicate CallOk(docs: map<DocumentId, Document>, c: Call) {
    && c.document in docs
    && c.xml.document == c.document
    && (Live(c) ==> docs[c.document].status !in {Draft, Error} && docs[c.document].requestXml == Some(c.xml))
  }

  predicate WorkerOk(s: State, t: Token, w: Worker) {
    && t < s.nextToken
    && w.job in s.db.jobs
    && w.document == s.db.jobs[w.job].document
    && w.document in s.db.docs
    && (!Submits(w.operation) ==> s.db.docs[w.document].stamp.Some?)
    && (w.stage.Claimed? ==> t !in s.calls)
    && (w.stage.Submitted? || w.stage.Answered? ==>
          Submits(w.operation) && (w.operation == StampIt ==> t in s.calls && s.calls[t].document == w.document))
    && (w.stage == Answered(Rejected) && w.operation == StampIt ==> s.calls[t].status == PacRejected)
    && (w.stage.CancelSent? || w.stage.CancelAnswered? ==> w.operation == Cancel)
  }

  /** What a worker finds while its claim stands: its document exactly as it left it. */
  ghost predicate FenceOk(docs: map<DocumentId, Document>, calls: map<Token, Call>, t: Token, w: Worker)
    requires w.document in docs
  {
    && (w.stage.Submitted? || w.stage.Answered? ==>
          && docs[w.document].status == Submitting
          && (w.stage.Answered? && w.stage.answer.Granted? ==> StampedAs(calls, w.document, w.stage.answer.stamp))
          && (w.operation == StampIt ==> OnlyLiveCall(calls, t, w.document)))
    && (w.stage.CancelSent? || w.stage.CancelAnswered? ==> docs[w.document].status == CancelPending)
  }

  ghost predicate JobsOk(s: State) {
    && (forall j :: j in s.db.jobs ==> JobOk(s.db.docs, s.nextToken, s.db.jobs[j]))
    && (forall j, k | j in s.db.jobs && k in s.db.jobs && Active(s.db.jobs[j]) && Active(s.db.jobs[k])
                      && s.db.jobs[j].document == s.db.jobs[k].document :: j == k)
  }

  ghost predicate WorkersOk(s: State) {
    && (forall t :: t in s.workers ==> WorkerOk(s, t, s.workers[t]))
    && (forall t, j :: t in s.workers && j in s.db.jobs && s.db.jobs[j].token == Some(t) ==> s.workers[t].job == j)
  }

  ghost predicate CallsOk(s: State) {
    && (forall t :: t in s.calls ==> t < s.nextToken && CallOk(s.db.docs, s.calls[t]))
    && (forall t, u | t in s.calls && u in s.calls && Live(s.calls[t]) && Live(s.calls[u])
                      && s.calls[t].document == s.calls[u].document :: t == u)
  }

  ghost predicate DocsOk(s: State) {
    forall d :: d in s.db.docs ==> DocOk(s.calls, d, s.db.docs[d])
  }

  ghost predicate FencesOk(s: State) {
    forall t :: Current(s, t) ==>
      s.workers[t].document in s.db.docs && FenceOk(s.db.docs, s.calls, t, s.workers[t])
  }

  ghost predicate Inv(s: State) {
    JobsOk(s) && WorkersOk(s) && CallsOk(s) && DocsOk(s) && FencesOk(s)
  }
}
