/** The registry told by its past: who was granted what, and who was succeeded by whom. */
module Chronicle {
  // A story is the list of granted requests, latest first, and the successions completed so far.
  // `Told` reads every record of the registry off the story; `Permitted` says from the story alone
  // which request may come next.

  import opened Options
  import opened Lists
  import opened Succession
  import opened Registry

  type Grants = List<Request>

  /** `heirs` leads from each succeeded ID to its successor. */
  datatype Story = Story(grants: Grants, heirs: map<Id, Id>)

  /** What a request may do, as far as later requests ask. */
  datatype Deed =
    | Registering(agent: Id)
    | Revoking(agent: Id)
    | Requesting(agent: Id)
    | Appointing(agent: Id)
    | Posting(job: JobId)
    | Offering(job: JobId, agent: Id)
    | Hiring(job: JobId)
    | Cancelling(job: JobId)
    | Reporting(job: JobId)
    | Submitting(receipt: ReceiptId)
    | Signing(receipt: ReceiptId)
    | Disputing(receipt: ReceiptId)
    | Conceding(receipt: ReceiptId, agent: Id)
    | Deciding(verification: VerificationId)
    | DecidingOn(receipt: ReceiptId, agent: Id)

  /** The content a submission is about: its worker is the caller. */
  function SignedBy(q: Request): Content
    requires q.op.Submit?
  {
    q.op.content.(b := q.caller)
  }

  predicate Does(env: Env, q: Request, deed: Deed) {
    match deed
    case Registering(id) => q.op.Register? && q.caller == id
    case Revoking(id) => q.op == Revoke && q.caller == id
    case Requesting(id) => q.op.Succeed? && q.caller == id
    case Appointing(id) => q.op.SetVerifier? && q.op.target == id
    case Posting(j) => q.op.Post? && q.op.newJob == j
    case Offering(j, x) => q.op == Offer(j) && q.caller == x
    case Hiring(j) => q.op.Accept? && q.op.job == j
    case Cancelling(j) => q.op == Cancel(j)
    case Reporting(j) => q.op == Report(j)
    case Submitting(id) => q.op.Submit? && env.receiptId(SignedBy(q)) == id
    case Signing(id) => q.op.Sign? && q.op.receipt == id
    case Disputing(id) => (q.op.Contest? || q.op.Withdraw?) && q.op.receipt == id
    case Conceding(id, x) => q.op == Withdraw(id) && q.caller == x
    case Deciding(v) => q.op.Verify? && env.verificationId(q.op.verification) == v
    case DecidingOn(id, x) => q.op.Verify? && q.op.verification.receiptId == id && q.caller == x
  }

  /** The latest granted request that did it. */
  function Latest(env: Env, h: Grants, deed: Deed): (q: Option<Request>)
    ensures q.Some? ==> Does(env, q.value, deed)
  {
    if h.Nil? then None else if Does(env, h.head, deed) then Some(h.head) else Latest(env, h.tail, deed)
  }

  predicate Done(env: Env, h: Grants, deed: Deed) {
    Latest(env, h, deed).Some?
  }

  // ---------------------------------------------------------------- what the history says

  /** The receipt was submitted for this job. */
  predicate Names(env: Env, h: Grants, id: ReceiptId, j: JobId) {
    Done(env, h, Submitting(id)) && Latest(env, h, Submitting(id)).value.op.content.jobId == j
  }

  /** A receipt for the job was countersigned. */
  predicate Delivered(env: Env, h: Grants, j: JobId) {
    h.Cons? && ((h.head.op.Sign? && Names(env, h.tail, h.head.op.receipt, j)) || Delivered(env, h.tail, j))
  }

  function StatusOf(env: Env, h: Grants, j: JobId): JobStatus {
    if Done(env, h, Cancelling(j)) then Cancelled
    else if Done(env, h, Reporting(j)) then NonPerformed
    else if Delivered(env, h, j) then Completed
    else if Done(env, h, Hiring(j)) then Accepted
    else Open
  }

  predicate TookOver(heirs: map<Id, Id>, x: Id) {
    exists p | p in heirs :: heirs[p] == x
  }

  predicate Registered(env: Env, c: Story, x: Id) {
    Done(env, c.grants, Registering(x)) || TookOver(c.heirs, x)
  }

  predicate Gone(env: Env, c: Story, x: Id) {
    Done(env, c.grants, Revoking(x)) || x in c.heirs
  }

  /** The successor that x still waits for, and when its window closes. */
  function PendingOf(env: Env, c: Story, x: Id): Option<Pending> {
    match Latest(env, c.grants, Requesting(x))
    case Some(q) => if Gone(env, c, x) then None else Some(Pending(q.op.successor, q.now + THREE_DAYS))
    case None => None
  }

  /** Somebody waits for s as its successor. */
  ghost predicate Awaited(env: Env, c: Story, s: Id) {
    exists x :: PendingOf(env, c, x).Some? && PendingOf(env, c, x).value.successor == s
  }

  /** The latest dispute step on the receipt opened a dispute. */
  predicate Contested(env: Env, h: Grants, id: ReceiptId) {
    Done(env, h, Disputing(id)) && Latest(env, h, Disputing(id)).value.op.Contest?
  }

  predicate IsAppointed(env: Env, h: Grants, x: Id) {
    Done(env, h, Appointing(x)) && Latest(env, h, Appointing(x)).value.op.authorized
  }

  // ---------------------------------------------------------------- the tables

  ghost predicate JobTold(env: Env, h: Grants, j: JobId, jobs: map<JobId, Job>) {
    match Latest(env, h, Posting(j))
    case None =>
      && j !in jobs && !Done(env, h, Hiring(j)) && !Done(env, h, Cancelling(j)) && !Done(env, h, Reporting(j))
      && (forall x :: !Done(env, h, Offering(j, x)))
    case Some(post) =>
      && j in jobs && jobs[j].postedBy == post.caller && jobs[j].expiresAt == post.op.expiresAt
      && (forall x :: Contains(jobs[j].offers, x) <==> Done(env, h, Offering(j, x)))
      && jobs[j].status == StatusOf(env, h, j)
      && match Latest(env, h, Hiring(j))
         case None => jobs[j].acceptedAgent.None? && jobs[j].acceptedAt.None?
         case Some(hire) => jobs[j].acceptedAgent == Some(hire.op.agent) && jobs[j].acceptedAt == Some(hire.now)
  }

  ghost predicate ReceiptTold(env: Env, h: Grants, id: ReceiptId, receipts: map<ReceiptId, Receipt>) {
    match Latest(env, h, Submitting(id))
    case None =>
      && id !in receipts && !Done(env, h, Signing(id)) && !Done(env, h, Disputing(id))
      && (forall x :: !Done(env, h, Conceding(id, x)))
    case Some(submission) =>
      && id in receipts && receipts[id].content == SignedBy(submission)
      && receipts[id].signatureB == submission.op.sig
      && (forall x :: Contains(receipts[id].dispute.usedBy, x) <==> Done(env, h, Conceding(id, x)))
      && match Latest(env, h, Signing(id))
         case None =>
           && receipts[id].status == Draft && receipts[id].signatureA.None? && receipts[id].dispute == FRESH_DISPUTE
           && !Done(env, h, Disputing(id))
         case Some(signing) => DisputeTold(env, h, id, receipts[id], signing)
  }

  ghost predicate DisputeTold(env: Env, h: Grants, id: ReceiptId, r: Receipt, signing: Request)
    requires signing.op.Sign?
  {
    && r.signatureA == Some(signing.op.sig) && r.dispute.windowClosesAt == Some(signing.now + THREE_DAYS)
    && match Latest(env, h, Disputing(id))
       case None => r.status == Finalized && r.dispute.status == NoDispute
       case Some(step) =>
         if step.op.Withdraw? then r.status == Finalized && r.dispute.status == ResolvedDispute
         else
           && r.status == Disputed && r.dispute.status == OpenDispute && r.dispute.openedBy == Some(step.caller)
           && r.dispute.deadline == Some(step.op.stamp + THREE_DAYS)
  }

  ghost predicate VerificationTold(env: Env, h: Grants, v: VerificationId, vs: map<VerificationId, Verification>) {
    match Latest(env, h, Deciding(v))
    case None => v !in vs
    case Some(q) => v in vs && vs[v] == q.op.verification
  }

  ghost predicate DecisionsTold(env: Env, h: Grants, vs: map<VerificationId, Verification>) {
    forall id, x :: HasDecision(vs, id, x) <==> Done(env, h, DecidingOn(id, x))
  }

  ghost predicate AgentTold(env: Env, c: Story, x: Id, agents: map<Id, Agent>) {
    && (x in agents <==> Registered(env, c, x))
    && if x in agents then RecordTold(env, c, x, agents[x])
       else
         && x !in c.heirs && !Done(env, c.grants, Revoking(x)) && !Done(env, c.grants, Requesting(x))
         && !Done(env, c.grants, Appointing(x))
  }

  ghost predicate RecordTold(env: Env, c: Story, x: Id, agent: Agent) {
    && agent.revokedAt == (match Latest(env, c.grants, Revoking(x)) case Some(q) => Some(q.now) case None => None)
    && agent.succeededBy == (if x in c.heirs then Some(c.heirs[x]) else None)
    && agent.pending == PendingOf(env, c, x)
    && (agent.isVerifier <==> IsAppointed(env, c.grants, x))
    && (Done(env, c.grants, Registering(x)) ==>
          agent.profile == Latest(env, c.grants, Registering(x)).value.op.profile)
  }

  /** The jobs the history delivered are named by receipts. */
  ghost predicate DeliveriesTold(env: Env, h: Grants, receipts: map<ReceiptId, Receipt>) {
    forall j | Delivered(env, h, j) :: exists id | id in receipts :: receipts[id].content.jobId == j
  }

  /** The log entry of a granted request, besides those about how its own succession ended. */
  function EntryOf(q: Request): seq<LogEntry> {
    match q.op
    case SetVerifier(target, authorized) => [VerifierStatusChanged(target, authorized)]
    case Succeed(s, _, _) => [SuccessionPending(q.caller, s)]
    case Report(j) => [NonPerformanceReported(j)]
    case Sign(id, _) => [ReceiptFinalized(id)]
    case Contest(id, _) => [DisputeOpened(id, q.caller)]
    case Withdraw(id) => [DisputeResolved(id, q.caller)]
    case _ => []
  }

  /** The entries of all granted requests, in the order they were granted. */
  function Entries(h: Grants): seq<LogEntry> {
    if h.Nil? then [] else Entries(h.tail) + EntryOf(h.head)
  }

  predicate EndsSuccession(e: LogEntry) {
    e.AgentSucceeded? || e.SuccessionCancelled?
  }

  /** The log without its entries about how successions ended. */
  function Requested(log: seq<LogEntry>): seq<LogEntry> {
    if log == [] then []
    else
      var last := log[|log| - 1];
      Requested(log[..|log| - 1]) + if EndsSuccession(last) then [] else [last]
  }

  /** The tables say what the story says, and the log lists it. */
  ghost predicate Told(env: Env, c: Story, w: World) {
    && Requested(w.log) == Entries(c.grants)
    && (forall j :: JobTold(env, c.grants, j, w.jobs))
    && (forall id :: ReceiptTold(env, c.grants, id, w.receipts))
    && (forall v :: VerificationTold(env, c.grants, v, w.verifications))
    && (forall x :: AgentTold(env, c, x, w.agents))
    && DecisionsTold(env, c.grants, w.verifications)
    && DeliveriesTold(env, c.grants, w.receipts)
  }

  // ---------------------------------------------------------------- what the history permits

  predicate InTime(post: Request, now: Time)
    requires post.op.Post?
  {
    post.op.expiresAt.Some? ==> now <= post.op.expiresAt.value
  }

  predicate JobPermits(env: Env, c: Story, q: Request, j: JobId)
    requires q.op.Offer? || q.op.Accept? || q.op.Cancel? || q.op.Report?
  {
    match Latest(env, c.grants, Posting(j))
    case None => false
    case Some(post) =>
      var status := StatusOf(env, c.grants, j);
      match q.op
      case Offer(_) =>
        && status == Open && InTime(post, q.now) && q.caller != post.caller && Registered(env, c, q.caller)
        && !Done(env, c.grants, Offering(j, q.caller))
      case Accept(_, worker) =>
        q.caller == post.caller && status == Open && InTime(post, q.now) && Done(env, c.grants, Offering(j, worker))
      case Cancel(_) => q.caller == post.caller && (status == Open || status == Accepted)
      case Report(_) =>
        && q.caller == post.caller && status == Accepted
        && Latest(env, c.grants, Hiring(j)).value.now + THREE_DAYS <= q.now
  }

  /** A receipt may name any job the registry does not know, or an accepted one of its two parties. */
  predicate MayName(env: Env, h: Grants, content: Content) {
    Done(env, h, Posting(content.jobId)) ==>
      && StatusOf(env, h, content.jobId) == Accepted
      && Latest(env, h, Posting(content.jobId)).value.caller == content.a
      && Latest(env, h, Hiring(content.jobId)).value.op.agent == content.b
  }

  predicate ReceiptPermits(env: Env, h: Grants, q: Request, id: ReceiptId)
    requires q.op.Sign? || q.op.Contest? || q.op.Withdraw?
  {
    match Latest(env, h, Submitting(id))
    case None => false
    case Some(submission) =>
      var content := SignedBy(submission);
      match q.op
      case Sign(_, sig) =>
        q.caller == content.a && !Done(env, h, Signing(id)) && env.verify(sig, ReceiptText(content), q.caller)
      case Contest(_, _) =>
        && q.caller in {content.a, content.b} && !Done(env, h, Conceding(id, q.caller)) && !Contested(env, h, id)
        && Done(env, h, Signing(id)) && q.now < Latest(env, h, Signing(id)).value.now + THREE_DAYS
      case Withdraw(_) => Contested(env, h, id) && q.caller == Latest(env, h, Disputing(id)).value.caller
  }

  ghost predicate Permitted(env: Env, c: Story, q: Request) {
    var h := c.grants;
    match q.op
    case Register(_) => !Registered(env, c, q.caller) && !Awaited(env, c, q.caller)
    case SetVerifier(target, _) => env.operator == Some(q.caller) && Registered(env, c, target) && !Gone(env, c, target)
    case Revoke => Registered(env, c, q.caller)
    case Succeed(s, sigP, sigS) =>
      && Registered(env, c, q.caller) && PendingOf(env, c, q.caller).None?
      && !Registered(env, c, s) && !Awaited(env, c, s)
      && SuccessionVerifies(env, q.caller, s, sigP, sigS)
    case Post(_, _) => Registered(env, c, q.caller)
    case Offer(j) => JobPermits(env, c, q, j)
    case Accept(j, _) => JobPermits(env, c, q, j)
    case Cancel(j) => JobPermits(env, c, q, j)
    case Report(j) => JobPermits(env, c, q, j)
    case Submit(content, sig) =>
      && Registered(env, c, q.caller) && Registered(env, c, content.a) && q.caller != content.a
      && MayName(env, h, SignedBy(q))
      && content.createdAt <= content.completedAt <= q.now + 5 * 60 * 1000
      && !Done(env, h, Submitting(env.receiptId(SignedBy(q))))
      && env.verify(sig, ReceiptText(SignedBy(q)), q.caller)
    case Sign(id, _) => ReceiptPermits(env, h, q, id)
    case Contest(id, _) => ReceiptPermits(env, h, q, id)
    case Withdraw(id) => ReceiptPermits(env, h, q, id)
    case Verify(v, sig) =>
      && Done(env, h, Submitting(v.receiptId)) && Done(env, h, Signing(v.receiptId)) && !Contested(env, h, v.receiptId)
      && q.caller == v.verifier && IsAppointed(env, h, q.caller)
      && (var content := SignedBy(Latest(env, h, Submitting(v.receiptId)).value);
          q.caller !in {content.a, content.b} && v.outputHash == content.outputHash)
      && !Done(env, h, Deciding(env.verificationId(v))) && !Done(env, h, DecidingOn(v.receiptId, q.caller))
      && env.verify(sig, VerificationText(v), q.caller)
  }

  // ---------------------------------------------------------------- one request

  /** An operation goes through exactly if the history permits it. */
  lemma ApplyPermittedExactly(env: Env, c: Story, w: World, q: Request)
    requires Told(env, c, w) && Gate(w.agents, q.caller).None?
    ensures Apply(env, w, q.caller, q.op, q.now).Ok? <==> Permitted(env, c, q)
  {
    hide Told;
    StoryParts(env, c, w, q);
    match q.op
    case Offer(j) => JobPermittedExactly(env, c, w, q, j);
    case Accept(j, _) => JobPermittedExactly(env, c, w, q, j);
    case Cancel(j) => JobPermittedExactly(env, c, w, q, j);
    case Report(j) => JobPermittedExactly(env, c, w, q, j);
    case Submit(_, _) => SubmitPermittedExactly(env, c, w, q);
    case Sign(id, _) => ReceiptPermittedExactly(env, c, w, q, id);
    case Contest(id, _) => ReceiptPermittedExactly(env, c, w, q, id);
    case Withdraw(id) => ReceiptPermittedExactly(env, c, w, q, id);
    case Verify(v, _) => VerifyPermittedExactly(env, c, w, q);
    case _ => AgentPermittedExactly(env, c, w, q);
  }

  lemma StoryParts(env: Env, c: Story, w: World, q: Request)
    requires Told(env, c, w)
    ensures AgentTold(env, c, q.caller, w.agents)
    ensures q.op.Offer? || q.op.Accept? || q.op.Cancel? || q.op.Report? ==> JobTold(env, c.grants, q.op.job, w.jobs)
    ensures q.op.Sign? || q.op.Contest? || q.op.Withdraw? ==> ReceiptTold(env, c.grants, q.op.receipt, w.receipts)
  {}

  /** Whom the records await is whom the story awaits. */
  lemma AwaitedTold(env: Env, c: Story, agents: map<Id, Agent>, s: Id)
    requires forall x :: AgentTold(env, c, x, agents)
    ensures IsPendingSuccessor(agents, s) <==> Awaited(env, c, s)
  {
    hide Latest, PendingOf, IsAppointed, Registered;
    if IsPendingSuccessor(agents, s) {
      var p :| p in agents && NamesSuccessor(agents[p], s);
      assert AgentTold(env, c, p, agents);
      assert PendingOf(env, c, p) == agents[p].pending;
    }
    if Awaited(env, c, s) {
      var p :| PendingOf(env, c, p).Some? && PendingOf(env, c, p).value.successor == s;
      assert AgentTold(env, c, p, agents);
      WhoAwaitsIsKnown(env, c, p, agents);
      assert NamesSuccessor(agents[p], s);
    }
  }

  lemma WhoAwaitsIsKnown(env: Env, c: Story, p: Id, agents: map<Id, Agent>)
    requires AgentTold(env, c, p, agents) && PendingOf(env, c, p).Some?
    ensures p in agents
  {}

  lemma AgentPermittedExactly(env: Env, c: Story, w: World, q: Request)
    requires Told(env, c, w) && Gate(w.agents, q.caller).None?
    requires q.op.Register? || q.op.SetVerifier? || q.op.Revoke? || q.op.Succeed? || q.op.Post?
    ensures Apply(env, w, q.caller, q.op, q.now).Ok? <==> Permitted(env, c, q)
  {
    AwaitedTold(env, c, w.agents, if q.op.Succeed? then q.op.successor else q.caller);
    assert AgentTold(env, c, q.caller, w.agents);
    assert q.op.SetVerifier? ==> AgentTold(env, c, q.op.target, w.agents);
    assert q.op.Succeed? ==> AgentTold(env, c, q.op.successor, w.agents);
    hide IsPendingSuccessor, Awaited, Latest, SuccessionVerifies;
  }

  lemma JobPermittedExactly(env: Env, c: Story, w: World, q: Request, j: JobId)
    requires JobTold(env, c.grants, j, w.jobs) && AgentTold(env, c, q.caller, w.agents)
    requires (q.op.Offer? || q.op.Accept? || q.op.Cancel? || q.op.Report?) && q.op.job == j
    ensures Apply(env, w, q.caller, q.op, q.now).Ok? <==> JobPermits(env, c, q, j)
  {
    hide Delivered, Latest;
  }

  lemma SubmitPermittedExactly(env: Env, c: Story, w: World, q: Request)
    requires Told(env, c, w) && q.op.Submit?
    ensures Apply(env, w, q.caller, q.op, q.now).Ok? <==> Permitted(env, c, q)
  {
    hide Delivered, Latest;
    assert JobTold(env, c.grants, q.op.content.jobId, w.jobs);
    assert AgentTold(env, c, q.caller, w.agents) && AgentTold(env, c, q.op.content.a, w.agents);
    assert ReceiptTold(env, c.grants, env.receiptId(SignedBy(q)), w.receipts);
  }

  lemma ReceiptPermittedExactly(env: Env, c: Story, w: World, q: Request, id: ReceiptId)
    requires ReceiptTold(env, c.grants, id, w.receipts)
    requires (q.op.Sign? || q.op.Contest? || q.op.Withdraw?) && q.op.receipt == id
    ensures Apply(env, w, q.caller, q.op, q.now).Ok? <==> ReceiptPermits(env, c.grants, q, id)
  {
    hide Latest;
  }

  lemma VerifyPermittedExactly(env: Env, c: Story, w: World, q: Request)
    requires Told(env, c, w) && q.op.Verify? && Gate(w.agents, q.caller).None?
    ensures Apply(env, w, q.caller, q.op, q.now).Ok? <==> Permitted(env, c, q)
  {
    hide Latest;
    var v := q.op.verification;
    assert ReceiptTold(env, c.grants, v.receiptId, w.receipts);
    assert VerificationTold(env, c.grants, env.verificationId(v), w.verifications);
    assert AgentTold(env, c, q.caller, w.agents);
  }
}
