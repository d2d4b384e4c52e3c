/** The registry state and every operation on it, as functions from one state to the next.

    An operation checks its caller and its target in the order the services do and either names
    the first check that fails or yields the new state.  `Serve` is one HTTP request: due
    successions are activated, the signed-request gate is passed, then the operation runs. */
module Registry {
  import opened Options
  import opened Lists
  import opened Succession

  type JobId = int
  type ReceiptId = int
  type VerificationId = int
  type Profile = int
  type Signature = int

  const DISPUTE_WINDOW: Time := 72 * HOUR
  const RECEIPT_CLOCK_SKEW: Time := 5 * 60 * 1000

  // ---------------------------------------------------------------- records

  /** `profile` stands for capabilities and metadata; `predecessor` for the succession record of a successor. */
  datatype Agent = Agent(profile: Profile, stake: real, isVerifier: bool, revokedAt: Option<Time>,
    succeededBy: Option<Id>, pending: Option<Pending>, predecessor: Option<Id>)

  datatype JobStatus = Open | Accepted | Completed | Cancelled | NonPerformed

  datatype Job = Job(postedBy: Id, status: JobStatus, offers: List<Id>, expiresAt: Option<Time>,
    acceptedAgent: Option<Id>, acceptedAt: Option<Time>, receiptId: Option<ReceiptId>)

  datatype Outcome = Success | Partial | Failed

  /** What both parties sign; `other` stands for the fields no rule here reads. */
  datatype Content = Content(jobId: JobId, a: Id, b: Id, capability: string, outcome: Outcome,
    createdAt: Time, completedAt: Time, outputHash: int, other: int)

  datatype ReceiptStatus = Draft | Finalized | Disputed
  datatype DisputeStatus = NoDispute | OpenDispute | ResolvedDispute

  datatype Dispute = Dispute(status: DisputeStatus, windowClosesAt: Option<Time>, openedBy: Option<Id>,
    deadline: Option<Time>, usedBy: List<Id>)

  datatype Receipt = Receipt(content: Content, signatureB: Signature, signatureA: Option<Signature>,
    status: ReceiptStatus, dispute: Dispute)

  datatype Decision = Verified | Rejected

  datatype Verification = Verification(receiptId: ReceiptId, verifier: Id, outputHash: int, decision: Decision,
      other: int)

  datatype LogEntry =
    | VerifierStatusChanged(agent: Id, authorized: bool)
    | SuccessionPending(agent: Id, successor: Id)
    | SuccessionCancelled(agent: Id, successor: Id)
    | AgentSucceeded(agent: Id, successor: Id)
    | ReceiptFinalized(receipt: ReceiptId)
    | DisputeOpened(receipt: ReceiptId, party: Id)
    | DisputeResolved(receipt: ReceiptId, party: Id)
    | NonPerformanceReported(job: JobId)

  datatype World = World(agents: map<Id, Agent>, jobs: map<JobId, Job>, receipts: map<ReceiptId, Receipt>,
    verifications: map<VerificationId, Verification>, log: seq<LogEntry>)

  const EMPTY := World(map[], map[], map[], map[], [])

  datatype Code =
    | AgentAlreadyRegistered | SuccessionIsPending | AgentNotFound | NotOperator | AgentRevoked | AgentIsSucceeded
    | SuccessionInvalid | JobNotFound | JobNotOpen | JobExpired | SelfDealing | OfferAlreadySubmitted | NotPoster
    | OfferNotFound | JobNotCancellable | JobNotReportable | TooEarlyToReport | JobNotAccepted | JobPartyMismatch
    | InvalidTimestamp | DuplicateReceipt | InvalidReceiptSignature | ReceiptNotFound | NotDraft | NotRequester
    | NotParticipant | DisputeAlreadyResolved | NotFinalized | DisputeWindowClosed | NotDisputed | NotDisputeOpener
    | ReceiptNotFinalized | NotVerifier | SelfVerification | VerifierNotAuthorized | VerificationTargetMismatch
    | DuplicateVerification | VerifierAlreadyDecided | InvalidVerificationSignature

  type Step = Result<World, Code>

  /** The texts a key signs. */
  datatype Message =
    | SuccessionStatement(predecessor: Id, successor: Id)
    | ReceiptText(content: Content)
    | VerificationText(verification: Verification)

  /** Signature checking, content hashing and the operator setting come from outside. */
  datatype Env = Env(verify: (Signature, Message, Id) -> bool, receiptId: Content -> ReceiptId,
    verificationId: Verification -> VerificationId, operator: Option<Id>)

  // ---------------------------------------------------------------- agents

  predicate Retired(agent: Agent) {
    agent.revokedAt.Some? || agent.succeededBy.Some?
  }

  predicate NamesSuccessor(agent: Agent, id: Id) {
    agent.pending.Some? && agent.pending.value.successor == id
  }

  predicate IsPendingSuccessor(agents: map<Id, Agent>, id: Id) {
    exists p | p in agents :: NamesSuccessor(agents[p], id)
  }

  function NewAgent(profile: Profile, predecessor: Option<Id>): Agent {
    Agent(profile, 0.0, false, None, None, None, predecessor)
  }

  function RegisterAgent(w: World, caller: Id, profile: Profile): Step {
    if caller in w.agents then Err(AgentAlreadyRegistered)
    else if IsPendingSuccessor(w.agents, caller) then Err(SuccessionIsPending)
    else Ok(w.(agents := w.agents[caller := NewAgent(profile, None)]))
  }

  function SetVerifierStatus(env: Env, w: World, caller: Id, target: Id, authorized: bool): Step {
    if env.operator != Some(caller) then Err(NotOperator)
    else if target !in w.agents then Err(AgentNotFound)
    else if w.agents[target].revokedAt.Some? then Err(AgentRevoked)
    else if w.agents[target].succeededBy.Some? then Err(AgentIsSucceeded)
    else Ok(w.(agents := w.agents[target := w.agents[target].(isVerifier := authorized)],
               log := w.log + [VerifierStatusChanged(target, authorized)]))
  }

  function RevokeAgent(w: World, caller: Id, at: Time): Step {
    if caller !in w.agents then Err(AgentNotFound)
    else if w.agents[caller].succeededBy.Some? then Err(AgentIsSucceeded)
    else if w.agents[caller].revokedAt.Some? then Err(AgentRevoked)
    else
      var record := w.agents[caller];
      Ok(w.(agents := w.agents[caller := record.(pending := None, revokedAt := Some(at))],
            log := if record.pending.Some? then w.log + [SuccessionCancelled(caller, record.pending.value.successor)]
                else w.log))
  }

  predicate SuccessionVerifies(env: Env, p: Id, s: Id, sigP: Signature, sigS: Signature) {
    p != s && env.verify(sigP, SuccessionStatement(p, s), p) && env.verify(sigS, SuccessionStatement(p, s), s)
  }

  function RequestSuccession(env: Env, w: World, caller: Id, s: Id, sigP: Signature, sigS: Signature, now: Time): Step {
    if caller !in w.agents then Err(AgentNotFound)
    else if !SuccessionVerifies(env, caller, s, sigP, sigS) then Err(SuccessionInvalid)
    else if s in w.agents || IsPendingSuccessor(w.agents, s) then Err(AgentAlreadyRegistered)
    else if w.agents[caller].pending.Some? then Err(SuccessionIsPending)
    else
      var record := w.agents[caller];
      Ok(w.(agents := w.agents[caller := record.(pending := Some(Pending(s, now + SUCCESSION_WINDOW)))],
            log := w.log + [SuccessionPending(caller, s)]))
  }

  /** A pending succession whose window has closed. */
  predicate Due(agent: Agent, now: Time) {
    agent.pending.Some? && agent.pending.value.effectiveAt <= now
  }

  function Succeeded(record: Agent): Agent
    requires record.pending.Some?
  {
    record.(pending := None, succeededBy := Some(record.pending.value.successor))
  }

  /** One round of the activation loop; `record` is the row read before the loop began. */
  function ActivateOne(w: World, p: Id, record: Agent): World
    requires record.pending.Some?
  {
    var s := record.pending.value.successor;
    w.(agents := w.agents[p := Succeeded(record)][s := NewAgent(record.profile, Some(p))],
       log := w.log + [AgentSucceeded(p, s)])
  }

  predicate AllPending(rows: List<(Id, Agent)>) {
    rows.Cons? ==> rows.head.1.pending.Some? && AllPending(rows.tail)
  }

  function ActivateRows(w: World, rows: List<(Id, Agent)>): World
    requires AllPending(rows)
    decreases rows
  {
    match rows
    case Nil => w
    case Cons(row, rest) => ActivateRows(ActivateOne(w, row.0, row.1), rest)
  }

  predicate Listed(rows: List<(Id, Agent)>, p: Id) {
    rows.Cons? && (rows.head.0 == p || Listed(rows.tail, p))
  }

  predicate RowsMatch(agents: map<Id, Agent>, now: Time, rows: List<(Id, Agent)>) {
    match rows
    case Nil => true
    case Cons(row, rest) =>
      row.0 in agents && agents[row.0] == row.1 && Due(row.1, now) && !Listed(rest, row.0)
          && RowsMatch(agents, now, rest)
  }

  /** The due rows, each once, in the order the database happens to return them. */
  ghost predicate DueRows(agents: map<Id, Agent>, now: Time, rows: List<(Id, Agent)>) {
    RowsMatch(agents, now, rows) && forall p | p in agents && Due(agents[p], now) :: Listed(rows, p)
  }

  // ---------------------------------------------------------------- jobs

  predicate Expired(job: Job, now: Time) {
    job.expiresAt.Some? && job.expiresAt.value < now
  }

  predicate Contains(ids: List<Id>, id: Id) {
    ids.Cons? && (ids.head == id || Contains(ids.tail, id))
  }

  function PostJob(w: World, caller: Id, jobId: JobId, expiresAt: Option<Time>): Step {
    if caller !in w.agents then Err(AgentNotFound)
    else Ok(w.(jobs := w.jobs[jobId := Job(caller, Open, Nil, expiresAt, None, None, None)]))
  }

  function SubmitOffer(w: World, caller: Id, jobId: JobId, now: Time): Step {
    if jobId !in w.jobs then Err(JobNotFound)
    else
      var job := w.jobs[jobId];
      if job.status != Open then Err(JobNotOpen)
      else if Expired(job, now) then Err(JobExpired)
      else if job.postedBy == caller then Err(SelfDealing)
      else if caller !in w.agents then Err(AgentNotFound)
      else if Contains(job.offers, caller) then Err(OfferAlreadySubmitted)
      else Ok(w.(jobs := w.jobs[jobId := job.(offers := Append(job.offers, Cons(caller, Nil)))]))
  }

  function AcceptOffer(w: World, caller: Id, jobId: JobId, agent: Id, now: Time): Step {
    if jobId !in w.jobs then Err(JobNotFound)
    else
      var job := w.jobs[jobId];
      if caller != job.postedBy then Err(NotPoster)
      else if job.status != Open then Err(JobNotOpen)
      else if Expired(job, now) then Err(JobExpired)
      else if !Contains(job.offers, agent) then Err(OfferNotFound)
      else
        var accepted := job.(status := Accepted, acceptedAgent := Some(agent), acceptedAt := Some(now));
        Ok(w.(jobs := w.jobs[jobId := accepted]))
  }

  predicate Terminal(status: JobStatus) {
    status == Completed || status == Cancelled || status == NonPerformed
  }

  function CancelJob(w: World, caller: Id, jobId: JobId): Step {
    if jobId !in w.jobs then Err(JobNotFound)
    else
      var job := w.jobs[jobId];
      if caller != job.postedBy then Err(NotPoster)
      else if Terminal(job.status) then Err(JobNotCancellable)
      else Ok(w.(jobs := w.jobs[jobId := job.(status := Cancelled)]))
  }

  function ReportNonPerformance(w: World, caller: Id, jobId: JobId, now: Time): Step {
    if jobId !in w.jobs then Err(JobNotFound)
    else
      var job := w.jobs[jobId];
      if caller != job.postedBy then Err(NotPoster)
      else if job.status != Accepted then Err(JobNotReportable)
      else if job.acceptedAt.Some? && now - job.acceptedAt.value < DISPUTE_WINDOW then Err(TooEarlyToReport)
      else Ok(w.(jobs := w.jobs[jobId := job.(status := NonPerformed)],
                 log := w.log + [NonPerformanceReported(jobId)]))
  }

  function MarkCompleted(jobs: map<JobId, Job>, jobId: JobId, receiptId: ReceiptId): map<JobId, Job> {
    if jobId in jobs && jobs[jobId].status == Accepted
    then jobs[jobId := jobs[jobId].(status := Completed, receiptId := Some(receiptId))]
    else jobs
  }

  /** None when the receipt may refer to its job. */
  function JobMismatch(jobs: map<JobId, Job>, jobId: JobId, a: Id, b: Id): Option<Code> {
    if jobId !in jobs then None
    else if jobs[jobId].status != Accepted then Some(JobNotAccepted)
    else if jobs[jobId].postedBy != a || jobs[jobId].acceptedAgent != Some(b) then Some(JobPartyMismatch)
    else None
  }

  // ---------------------------------------------------------------- receipts

  const FRESH_DISPUTE := Dispute(NoDispute, None, None, None, Nil)

  function CreateDraft(env: Env, w: World, caller: Id, content: Content, sig: Signature, now: Time): Step {
    if caller !in w.agents then Err(AgentNotFound)
    else if content.a !in w.agents then Err(AgentNotFound)
    else if caller == content.a then Err(SelfDealing)
    else
      var mismatch := JobMismatch(w.jobs, content.jobId, content.a, caller);
      if mismatch.Some? then Err(mismatch.value)
      else if content.completedAt > now + RECEIPT_CLOCK_SKEW then Err(InvalidTimestamp)
      else if content.completedAt < content.createdAt then Err(InvalidTimestamp)
      else
        var signed := content.(b := caller);
        var id := env.receiptId(signed);
        if id in w.receipts then Err(DuplicateReceipt)
        else if !env.verify(sig, ReceiptText(signed), caller) then Err(InvalidReceiptSignature)
        else Ok(w.(receipts := w.receipts[id := Receipt(signed, sig, None, Draft, FRESH_DISPUTE)]))
  }

  function Countersigned(r: Receipt, sig: Signature, now: Time): Receipt {
    r.(signatureA := Some(sig), status := Finalized,
       dispute := FRESH_DISPUTE.(windowClosesAt := Some(now + DISPUTE_WINDOW)))
  }

  function Countersign(env: Env, w: World, caller: Id, id: ReceiptId, sig: Signature, now: Time): Step {
    if id !in w.receipts then Err(ReceiptNotFound)
    else
      var r := w.receipts[id];
      if r.status != Draft then Err(NotDraft)
      else if caller != r.content.a then Err(NotRequester)
      else if !env.verify(sig, ReceiptText(r.content), caller) then Err(InvalidReceiptSignature)
      else Ok(w.(receipts := w.receipts[id := Countersigned(r, sig, now)],
                 jobs := MarkCompleted(w.jobs, r.content.jobId, id),
                 log := w.log + [ReceiptFinalized(id)]))
  }

  predicate Party(content: Content, id: Id) {
    id == content.a || id == content.b
  }

  function Opened(r: Receipt, caller: Id, stamp: Time): Receipt {
    r.(status := Disputed,
       dispute := r.dispute.(status := OpenDispute, openedBy := Some(caller), deadline := Some(stamp + DISPUTE_WINDOW)))
  }

  /** The clock is read twice: `now` for the window check, `stamp` for the deadline. */
  function OpenADispute(w: World, caller: Id, id: ReceiptId, now: Time, stamp: Time): Step {
    if id !in w.receipts then Err(ReceiptNotFound)
    else
      var r := w.receipts[id];
      if !Party(r.content, caller) then Err(NotParticipant)
      else if Contains(r.dispute.usedBy, caller) then Err(DisputeAlreadyResolved)
      else if r.status != Finalized then Err(NotFinalized)
      else if !(r.dispute.windowClosesAt.Some? && now < r.dispute.windowClosesAt.value) then Err(DisputeWindowClosed)
      else Ok(w.(receipts := w.receipts[id := Opened(r, caller, stamp)],
                 log := w.log + [DisputeOpened(id, caller)]))
  }

  function Resolved(r: Receipt, caller: Id): Receipt {
    r.(status := Finalized,
       dispute := r.dispute.(status := ResolvedDispute, usedBy := Append(r.dispute.usedBy, Cons(caller, Nil))))
  }

  function ResolveDispute(w: World, caller: Id, id: ReceiptId): Step {
    if id !in w.receipts then Err(ReceiptNotFound)
    else
      var r := w.receipts[id];
      if r.status != Disputed || r.dispute.status != OpenDispute then Err(NotDisputed)
      else if r.dispute.openedBy != Some(caller) then Err(NotDisputeOpener)
      else Ok(w.(receipts := w.receipts[id := Resolved(r, caller)],
                 log := w.log + [DisputeResolved(id, caller)]))
  }

  predicate DisputeActive(r: Receipt, now: Time) {
    r.status == Disputed && r.dispute.status == OpenDispute
    && (r.dispute.deadline.None? || now < r.dispute.deadline.value)
  }

  // ---------------------------------------------------------------- verifications

  predicate HasDecision(vs: map<VerificationId, Verification>, id: ReceiptId, verifier: Id) {
    exists v | v in vs :: vs[v].receiptId == id && vs[v].verifier == verifier
  }

  function SubmitVerification(env: Env, w: World, caller: Id, v: Verification, sig: Signature): Step {
    if v.receiptId !in w.receipts then Err(ReceiptNotFound)
    else
      var r := w.receipts[v.receiptId];
      if r.status != Finalized then Err(ReceiptNotFinalized)
      else if caller != v.verifier then Err(NotVerifier)
      else if Party(r.content, caller) then Err(SelfVerification)
      else if caller !in w.agents then Err(AgentNotFound)
      else if !w.agents[caller].isVerifier then Err(VerifierNotAuthorized)
      else if v.outputHash != r.content.outputHash then Err(VerificationTargetMismatch)
      else if env.verificationId(v) in w.verifications then Err(DuplicateVerification)
      else if HasDecision(w.verifications, v.receiptId, caller) then Err(VerifierAlreadyDecided)
      else if !env.verify(sig, VerificationText(v), caller) then Err(InvalidVerificationSignature)
      else Ok(w.(verifications := w.verifications[env.verificationId(v) := v]))
  }

  // ---------------------------------------------------------------- one request

  datatype Op =
    | Register(profile: Profile)
    | SetVerifier(target: Id, authorized: bool)
    | Revoke
    | Succeed(successor: Id, sigP: Signature, sigS: Signature)
    | Post(newJob: JobId, expiresAt: Option<Time>)
    | Offer(job: JobId)
    | Accept(job: JobId, agent: Id)
    | Cancel(job: JobId)
    | Report(job: JobId)
    | Submit(content: Content, sig: Signature)
    | Sign(receipt: ReceiptId, sig: Signature)
    | Contest(receipt: ReceiptId, stamp: Time)
    | Withdraw(receipt: ReceiptId)
    | Verify(verification: Verification, sig: Signature)

  /** `rows` are the due successions as read at time `arrival`; `now` is the clock the operation reads. */
  datatype Request = Request(caller: Id, op: Op, arrival: Time, rows: List<(Id, Agent)>, now: Time)

  /** The signed-request gate: a retired ID signs nothing further, an unknown one passes. */
  function Gate(agents: map<Id, Agent>, caller: Id): Option<Code> {
    if caller !in agents then None
    else if agents[caller].revokedAt.Some? then Some(AgentRevoked)
    else if agents[caller].succeededBy.Some? then Some(AgentIsSucceeded)
    else None
  }

  function Apply(env: Env, w: World, caller: Id, op: Op, now: Time): Step {
    match op
    case Register(profile) => RegisterAgent(w, caller, profile)
    case SetVerifier(target, authorized) => SetVerifierStatus(env, w, caller, target, authorized)
    case Revoke => RevokeAgent(w, caller, now)
    case Succeed(s, sigP, sigS) => RequestSuccession(env, w, caller, s, sigP, sigS, now)
    case Post(job, expiresAt) => PostJob(w, caller, job, expiresAt)
    case Offer(job) => SubmitOffer(w, caller, job, now)
    case Accept(job, agent) => AcceptOffer(w, caller, job, agent, now)
    case Cancel(job) => CancelJob(w, caller, job)
    case Report(job) => ReportNonPerformance(w, caller, job, now)
    case Submit(content, sig) => CreateDraft(env, w, caller, content, sig, now)
    case Sign(id, sig) => Countersign(env, w, caller, id, sig, now)
    case Contest(id, stamp) => OpenADispute(w, caller, id, now, stamp)
    case Withdraw(id) => ResolveDispute(w, caller, id)
    case Verify(v, sig) => SubmitVerification(env, w, caller, v, sig)
  }

  function Serve(env: Env, w: World, q: Request): (World, Option<Code>)
    requires AllPending(q.rows)
  {
    var active := ActivateRows(w, q.rows);
    var refused := Gate(active.agents, q.caller);
    if refused.Some? then (active, refused)
    else
      match Apply(env, active, q.caller, q.op, q.now)
      case Ok(next) => (next, None)
      case Err(code) => (active, Some(code))
  }

  /** A new job ID is random, so nothing in the registry mentions it yet. */
  ghost predicate FreshJob(w: World, op: Op) {
    op.Post? ==> op.newJob !in w.jobs && forall id | id in w.receipts :: w.receipts[id].content.jobId != op.newJob
  }

  ghost predicate Possible(w: World, q: Request) {
    AllPending(q.rows) && DueRows(w.agents, q.arrival, q.rows) && FreshJob(w, q.op)
  }

  /** Serving the requests one after another leads from w to w'. */
  ghost predicate Run(env: Env, w: World, qs: List<Request>, w': World)
    decreases qs
  {
    match qs
    case Nil => w' == w
    case Cons(q, rest) => Possible(w, q) && Run(env, Serve(env, w, q).0, rest, w')
  }
}
