/** The registry as the services run it: one store updated in place, operation by operation.

    Every method reads and writes the tables in the order the services do; its contract ties the
    error it raises and the new state to the corresponding step of module Registry. */
module RegistryStore {
  import opened Options
  import opened Lists
  import opened Succession
  import opened Registry
  import Runs = RegistryRuns

  /** The step either moved the store to its new state or left it alone and named the error. */
  ghost predicate Took(step: Step, before: World, after: World, error: Option<Code>) {
    match step
    case Ok(next) => after == next && error == None
    case Err(code) => after == before && error == Some(code)
  }

  class Store {
    const env: Env
    var agents: map<Id, Agent>
    var jobs: map<JobId, Job>
    var receipts: map<ReceiptId, Receipt>
    var verifications: map<VerificationId, Verification>
    var log: seq<LogEntry>

    constructor (env: Env)
      ensures Valid() && State() == EMPTY && this.env == env
    {
      this.env := env;
      agents, jobs, receipts, verifications, log := map[], map[], map[], map[], [];
      new;
      Runs.EmptyInv(env);
    }

    /** The tables and the log fit together. */
    ghost predicate Valid()
      reads this
    {
      Runs.Inv(env, State())
    }

    ghost function State(): World
      reads this
    {
      World(agents, jobs, receipts, verifications, log)
    }

    method Append(entry: LogEntry)
      modifies this`log
      ensures log == old(log) + [entry]
    {
      log := log + [entry];
    }

    // -------------------------------------------------------------- agents

    method RegisterAgent(caller: Id, profile: Profile) returns (error: Option<Code>)
      modifies this
      ensures Took(Registry.RegisterAgent(old(State()), caller, profile), old(State()), State(), error)
    {
      if caller in agents {
        return Some(AgentAlreadyRegistered);
      }
      if IsPendingSuccessor(agents, caller) {
        return Some(SuccessionIsPending);
      }
      agents := agents[caller := NewAgent(profile, None)];
      return None;
    }

    method SetVerifierStatus(caller: Id, target: Id, authorized: bool) returns (error: Option<Code>)
      modifies this
      ensures Took(Registry.SetVerifierStatus(env, old(State()), caller, target, authorized), old(State()), State(),
          error)
    {
      if env.operator != Some(caller) {
        return Some(NotOperator);
      }
      if target !in agents {
        return Some(AgentNotFound);
      }
      var record := agents[target];
      if record.revokedAt.Some? {
        return Some(AgentRevoked);
      }
      if record.succeededBy.Some? {
        return Some(AgentIsSucceeded);
      }
      agents := agents[target := record.(isVerifier := authorized)];
      Append(VerifierStatusChanged(target, authorized));
      return None;
    }

    method RevokeAgent(caller: Id, at: Time) returns (error: Option<Code>)
      modifies this
      ensures Took(Registry.RevokeAgent(old(State()), caller, at), old(State()), State(), error)
    {
      if caller !in agents {
        return Some(AgentNotFound);
      }
      var record := agents[caller];
      if record.succeededBy.Some? {
        return Some(AgentIsSucceeded);
      }
      if record.revokedAt.Some? {
        return Some(AgentRevoked);
      }
      agents := agents[caller := record.(pending := None, revokedAt := Some(at))];
      if record.pending.Some? {
        Append(SuccessionCancelled(caller, record.pending.value.successor));
      }
      return None;
    }

    method RequestSuccession(caller: Id, s: Id, sigP: Signature, sigS: Signature,
        now: Time) returns (error: Option<Code>)
      modifies this
      ensures Took(Registry.RequestSuccession(env, old(State()), caller, s, sigP, sigS, now), old(State()), State(),
          error)
    {
      if caller !in agents {
        return Some(AgentNotFound);
      }
      if !SuccessionVerifies(env, caller, s, sigP, sigS) {
        return Some(SuccessionInvalid);
      }
      if s in agents || IsPendingSuccessor(agents, s) {
        return Some(AgentAlreadyRegistered);
      }
      var record := agents[caller];
      if record.pending.Some? {
        return Some(SuccessionIsPending);
      }
      agents := agents[caller := record.(pending := Some(Pending(s, now + SUCCESSION_WINDOW)))];
      Append(SuccessionPending(caller, s));
      return None;
    }

    /** `due` is the answer of the query for closed windows, taken before the first write. */
    method ActivateDueSuccessions(due: List<(Id, Agent)>)
      requires AllPending(due)
      modifies this
      ensures State() == ActivateRows(old(State()), due)
    {
      var rows := due;
      while rows.Cons?
        invariant AllPending(rows)
        invariant ActivateRows(State(), rows) == ActivateRows(old(State()), due)
        decreases rows
      {
        var p, record := rows.head.0, rows.head.1;
        var s := record.pending.value.successor;
        agents := agents[p := Succeeded(record)];
        agents := agents[s := NewAgent(record.profile, Some(p))];
        Append(AgentSucceeded(p, s));
        rows := rows.tail;
      }
    }

    // -------------------------------------------------------------- jobs

    method PostJob(caller: Id, jobId: JobId, expiresAt: Option<Time>) returns (error: Option<Code>)
      modifies this
      ensures Took(Registry.PostJob(old(State()), caller, jobId, expiresAt), old(State()), State(), error)
    {
      if caller !in agents {
        return Some(AgentNotFound);
      }
      jobs := jobs[jobId := Job(caller, Open, Nil, expiresAt, None, None, None)];
      return None;
    }

    method SubmitOffer(caller: Id, jobId: JobId, now: Time) returns (error: Option<Code>)
      modifies this
      ensures Took(Registry.SubmitOffer(old(State()), caller, jobId, now), old(State()), State(), error)
    {
      if jobId !in jobs {
        return Some(JobNotFound);
      }
      var job := jobs[jobId];
      if job.status != Open {
        return Some(JobNotOpen);
      }
      if Expired(job, now) {
        return Some(JobExpired);
      }
      if job.postedBy == caller {
        return Some(SelfDealing);
      }
      if caller !in agents {
        return Some(AgentNotFound);
      }
      if Contains(job.offers, caller) {
        return Some(OfferAlreadySubmitted);
      }
      jobs := jobs[jobId := job.(offers := Lists.Append(job.offers, Cons(caller, Nil)))];
      return None;
    }

    method AcceptOffer(caller: Id, jobId: JobId, agent: Id, now: Time) returns (error: Option<Code>)
      modifies this
      ensures Took(Registry.AcceptOffer(old(State()), caller, jobId, agent, now), old(State()), State(), error)
    {
      if jobId !in jobs {
        return Some(JobNotFound);
      }
      var job := jobs[jobId];
      if caller != job.postedBy {
        return Some(NotPoster);
      }
      if job.status != Open {
        return Some(JobNotOpen);
      }
      if Expired(job, now) {
        return Some(JobExpired);
      }
      if !Contains(job.offers, agent) {
        return Some(OfferNotFound);
      }
      jobs := jobs[jobId := job.(status := Accepted, acceptedAgent := Some(agent), acceptedAt := Some(now))];
      return None;
    }

    method CancelJob(caller: Id, jobId: JobId) returns (error: Option<Code>)
      modifies this
      ensures Took(Registry.CancelJob(old(State()), caller, jobId), old(State()), State(), error)
    {
      if jobId !in jobs {
        return Some(JobNotFound);
      }
      var job := jobs[jobId];
      if caller != job.postedBy {
        return Some(NotPoster);
      }
      if Terminal(job.status) {
        return Some(JobNotCancellable);
      }
      jobs := jobs[jobId := job.(status := Cancelled)];
      return None;
    }

    method ReportNonPerformance(caller: Id, jobId: JobId, now: Time) returns (error: Option<Code>)
      modifies this
      ensures Took(Registry.ReportNonPerformance(old(State()), caller, jobId, now), old(State()), State(), error)
    {
      if jobId !in jobs {
        return Some(JobNotFound);
      }
      var job := jobs[jobId];
      if caller != job.postedBy {
        return Some(NotPoster);
      }
      if job.status != Accepted {
        return Some(JobNotReportable);
      }
      if job.acceptedAt.Some? && now - job.acceptedAt.value < DISPUTE_WINDOW {
        return Some(TooEarlyToReport);
      }
      jobs := jobs[jobId := job.(status := NonPerformed)];
      Append(NonPerformanceReported(jobId));
      return None;
    }

    method MarkCompletedByReceipt(jobId: JobId, receiptId: ReceiptId)
      modifies this`jobs
      ensures jobs == MarkCompleted(old(jobs), jobId, receiptId)
    {
      if jobId !in jobs {
        return;
      }
      var job := jobs[jobId];
      if job.status != Accepted {
        return;
      }
      jobs := jobs[jobId := job.(status := Completed, receiptId := Some(receiptId))];
    }

    // -------------------------------------------------------------- receipts

    method CreateDraft(caller: Id, content: Content, sig: Signature, now: Time) returns (error: Option<Code>)
      modifies this
      ensures Took(Registry.CreateDraft(env, old(State()), caller, content, sig, now), old(State()), State(), error)
    {
      if caller !in agents || content.a !in agents {
        return Some(AgentNotFound);
      }
      if caller == content.a {
        return Some(SelfDealing);
      }
      error := JobMismatch(jobs, content.jobId, content.a, caller);
      if error.Some? {
        return;
      }
      if content.completedAt > now + RECEIPT_CLOCK_SKEW || content.completedAt < content.createdAt {
        return Some(InvalidTimestamp);
      }
      var signed := content.(b := caller);
      var id := env.receiptId(signed);
      if id in receipts {
        return Some(DuplicateReceipt);
      }
      if !env.verify(sig, ReceiptText(signed), caller) {
        return Some(InvalidReceiptSignature);
      }
      receipts := receipts[id := Receipt(signed, sig, None, Draft, FRESH_DISPUTE)];
    }

    method Countersign(caller: Id, id: ReceiptId, sig: Signature, now: Time) returns (error: Option<Code>)
      modifies this
      ensures Took(Registry.Countersign(env, old(State()), caller, id, sig, now), old(State()), State(), error)
    {
      if id !in receipts {
        return Some(ReceiptNotFound);
      }
      var r := receipts[id];
      if r.status != Draft {
        return Some(NotDraft);
      }
      if caller != r.content.a {
        return Some(NotRequester);
      }
      if !env.verify(sig, ReceiptText(r.content), caller) {
        return Some(InvalidReceiptSignature);
      }
      receipts := receipts[id := Countersigned(r, sig, now)];
      MarkCompletedByReceipt(r.content.jobId, id);
      Append(ReceiptFinalized(id));
      return None;
    }

    method OpenADispute(caller: Id, id: ReceiptId, now: Time, stamp: Time) returns (error: Option<Code>)
      modifies this
      ensures Took(Registry.OpenADispute(old(State()), caller, id, now, stamp), old(State()), State(), error)
    {
      if id !in receipts {
        return Some(ReceiptNotFound);
      }
      var r := receipts[id];
      if !Party(r.content, caller) {
        return Some(NotParticipant);
      }
      if Contains(r.dispute.usedBy, caller) {
        return Some(DisputeAlreadyResolved);
      }
      if r.status != Finalized {
        return Some(NotFinalized);
      }
      if r.dispute.windowClosesAt.None? || now >= r.dispute.windowClosesAt.value {
        return Some(DisputeWindowClosed);
      }
      receipts := receipts[id := Opened(r, caller, stamp)];
      Append(DisputeOpened(id, caller));
      return None;
    }

    method ResolveDispute(caller: Id, id: ReceiptId) returns (error: Option<Code>)
      modifies this
      ensures Took(Registry.ResolveDispute(old(State()), caller, id), old(State()), State(), error)
    {
      if id !in receipts {
        return Some(ReceiptNotFound);
      }
      var r := receipts[id];
      if r.status != Disputed || r.dispute.status != OpenDispute {
        return Some(NotDisputed);
      }
      if r.dispute.openedBy != Some(caller) {
        return Some(NotDisputeOpener);
      }
      receipts := receipts[id := Resolved(r, caller)];
      Append(DisputeResolved(id, caller));
      return None;
    }

    // -------------------------------------------------------------- verifications

    method SubmitVerification(caller: Id, v: Verification, sig: Signature) returns (error: Option<Code>)
      modifies this
      ensures Took(Registry.SubmitVerification(env, old(State()), caller, v, sig), old(State()), State(), error)
    {
      if v.receiptId !in receipts {
        return Some(ReceiptNotFound);
      }
      var r := receipts[v.receiptId];
      if r.status != Finalized {
        return Some(ReceiptNotFinalized);
      }
      if caller != v.verifier {
        return Some(NotVerifier);
      }
      if Party(r.content, caller) {
        return Some(SelfVerification);
      }
      if caller !in agents {
        return Some(AgentNotFound);
      }
      if !agents[caller].isVerifier {
        return Some(VerifierNotAuthorized);
      }
      if v.outputHash != r.content.outputHash {
        return Some(VerificationTargetMismatch);
      }
      var id := env.verificationId(v);
      if id in verifications {
        return Some(DuplicateVerification);
      }
      if HasDecision(verifications, v.receiptId, caller) {
        return Some(VerifierAlreadyDecided);
      }
      if !env.verify(sig, VerificationText(v), caller) {
        return Some(InvalidVerificationSignature);
      }
      verifications := verifications[id := v];
      return None;
    }

    // -------------------------------------------------------------- one request

    method Dispatch(caller: Id, op: Op, now: Time) returns (error: Option<Code>)
      modifies this
      ensures Took(Apply(env, old(State()), caller, op, now), old(State()), State(), error)
    {
      match op
      case Register(profile) => error := RegisterAgent(caller, profile);
      case SetVerifier(target, authorized) => error := SetVerifierStatus(caller, target, authorized);
      case Revoke => error := RevokeAgent(caller, now);
      case Succeed(s, sigP, sigS) => error := RequestSuccession(caller, s, sigP, sigS, now);
      case Post(job, expiresAt) => error := PostJob(caller, job, expiresAt);
      case Offer(job) => error := SubmitOffer(caller, job, now);
      case Accept(job, agent) => error := AcceptOffer(caller, job, agent, now);
      case Cancel(job) => error := CancelJob(caller, job);
      case Report(job) => error := ReportNonPerformance(caller, job, now);
      case Submit(content, sig) => error := CreateDraft(caller, content, sig, now);
      case Sign(id, sig) => error := Countersign(caller, id, sig, now);
      case Contest(id, stamp) => error := OpenADispute(caller, id, now, stamp);
      case Withdraw(id) => error := ResolveDispute(caller, id);
      case Verify(v, sig) => error := SubmitVerification(caller, v, sig);
    }

    /** One request.  Whatever is asked, refused or not: tables that fitted together still do, and
        nothing that no step takes back has been taken back. */
    method Serve(q: Request) returns (error: Option<Code>)
      requires AllPending(q.rows)
      modifies this
      ensures (State(), error) == Registry.Serve(env, old(State()), q)
      ensures old(Valid() && Possible(State(), q)) ==> Valid() && Runs.Evolves(old(State()), State())
    {
      hide Runs.Inv, Runs.Evolves, DueRows, Apply;
      if Valid() && Possible(State(), q) {
        Runs.ServeInv(env, State(), q);
      }
      ActivateDueSuccessions(q.rows);
      error := Gate(agents, q.caller);
      if error.None? {
        error := Dispatch(q.caller, q.op, q.now);
      }
    }
  }
}
