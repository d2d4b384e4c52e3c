/** What every step keeps about receipts, the jobs they complete, and the log entries about them. */
module ReceiptLifecycle {
  import opened Options
  import opened Lists
  import opened Succession
  import opened Registry

  // ---------------------------------------------------------------- dispute rights

  /** Distinct parties of the receipt. */
  predicate PartiesOnce(content: Content, used: List<Id>) {
    used.Cons? ==> Party(content, used.head) && !Contains(used.tail, used.head) && PartiesOnce(content, used.tail)
  }

  lemma {:induction false} ContainsAppended(ids: List<Id>, x: Id, y: Id)
    ensures Contains(Append(ids, Cons(x, Nil)), y) <==> Contains(ids, y) || x == y
  {
    if ids.Cons? {
      ContainsAppended(ids.tail, x, y);
    }
  }

  lemma {:induction false} PartiesOnceAppended(content: Content, used: List<Id>, x: Id)
    requires PartiesOnce(content, used) && Party(content, x) && !Contains(used, x)
    ensures PartiesOnce(content, Append(used, Cons(x, Nil)))
  {
    if used.Cons? {
      PartiesOnceAppended(content, used.tail, x);
      ContainsAppended(used.tail, x, used.head);
    }
  }

  lemma NoThirdParty(content: Content, x: Id, y: Id, rest: List<Id>)
    requires Party(content, x) && Party(content, y) && x != y
    requires PartiesOnce(content, rest) && !Contains(rest, x) && !Contains(rest, y)
    ensures rest.Nil?
  {}

  lemma AtMostTwoParties(content: Content, used: List<Id>)
    requires PartiesOnce(content, used)
    ensures Length(used) <= 2
    ensures forall x | Party(content, x) && !Contains(used, x) :: Length(used) <= 1
  {
    if used.Cons? && used.tail.Cons? {
      NoThirdParty(content, used.head, used.tail.head, used.tail.tail);
    }
  }

  /** Dispute steps still possible on the receipt: each party may open one dispute and resolve it. */
  function StepsLeft(r: Receipt): int {
    2 * (2 - Length(r.dispute.usedBy)) - if r.status == Disputed then 1 else 0
  }

  // ---------------------------------------------------------------- receipts

  ghost predicate DisputeOk(r: Receipt) {
    && PartiesOnce(r.content, r.dispute.usedBy)
    && match r.status
       case Draft => r.dispute == FRESH_DISPUTE
       case Finalized => r.dispute.windowClosesAt.Some? && r.dispute.status != OpenDispute
       case Disputed =>
         && r.dispute.windowClosesAt.Some? && r.dispute.status == OpenDispute && r.dispute.deadline.Some?
         && r.dispute.openedBy.Some? && Party(r.content, r.dispute.openedBy.value)
         && !Contains(r.dispute.usedBy, r.dispute.openedBy.value)
  }

  /** Stored under the hash of its content, between two registered agents, signed by the worker
      and, unless a draft, by the requester over the same text. */
  ghost predicate ReceiptOk(env: Env, agents: map<Id, Agent>, id: ReceiptId, r: Receipt) {
    && env.receiptId(r.content) == id
    && r.content.a in agents && r.content.b in agents && r.content.a != r.content.b
    && env.verify(r.signatureB, ReceiptText(r.content), r.content.b)
    && (r.status == Draft <==> r.signatureA.None?)
    && (r.signatureA.Some? ==> env.verify(r.signatureA.value, ReceiptText(r.content), r.content.a))
    && DisputeOk(r)
  }

  ghost predicate ReceiptsOk(env: Env, agents: map<Id, Agent>, receipts: map<ReceiptId, Receipt>) {
    forall id | id in receipts :: ReceiptOk(env, agents, id, receipts[id])
  }

  /** The signed content never changes; a countersigned receipt stays countersigned with its
      window fixed; dispute steps only run out. */
  ghost predicate ReceiptEvolves(r: Receipt, r': Receipt) {
    && r'.content == r.content && r'.signatureB == r.signatureB
    && StepsLeft(r') <= StepsLeft(r)
    && (r.status != Draft ==>
          r'.status != Draft && r'.signatureA == r.signatureA && r'.dispute.windowClosesAt == r.dispute.windowClosesAt)
  }

  ghost predicate ReceiptsEvolve(before: map<ReceiptId, Receipt>, after: map<ReceiptId, Receipt>) {
    forall id | id in before :: id in after && ReceiptEvolves(before[id], after[id])
  }

  lemma ReceiptsEvolveTransitive(x: map<ReceiptId, Receipt>, y: map<ReceiptId, Receipt>, z: map<ReceiptId, Receipt>)
    requires ReceiptsEvolve(x, y) && ReceiptsEvolve(y, z)
    ensures ReceiptsEvolve(x, z)
  {
    hide StepsLeft;
    forall id | id in x
      ensures id in z && ReceiptEvolves(x[id], z[id])
    {
      assert id in y && ReceiptEvolves(x[id], y[id]) && ReceiptEvolves(y[id], z[id]);
    }
  }

  // ---------------------------------------------------------------- jobs

  /** Completed exactly when a receipt is recorded, and then it is a countersigned receipt for
      this job between its poster and its accepted worker. */
  ghost predicate JobOk(id: JobId, job: Job, receipts: map<ReceiptId, Receipt>) {
    && (job.status == Completed <==> job.receiptId.Some?)
    && (job.receiptId.Some? ==>
          && job.receiptId.value in receipts
          && receipts[job.receiptId.value].status != Draft
          && receipts[job.receiptId.value].content.jobId == id
          && receipts[job.receiptId.value].content.a == job.postedBy
          && Some(receipts[job.receiptId.value].content.b) == job.acceptedAgent)
    && (job.status == Open ==> job.acceptedAgent.None?)
    && (job.status == Accepted || job.status == Completed || job.status == NonPerformed ==>
          job.acceptedAgent.Some? && job.acceptedAt.Some?)
    && (job.acceptedAgent.Some? ==>
          Contains(job.offers, job.acceptedAgent.value) && job.acceptedAgent.value != job.postedBy)
    && !Contains(job.offers, job.postedBy)
  }

  /** A receipt that names a job of the registry is between that job's poster and accepted worker. */
  ghost predicate JobMatches(r: Receipt, jobs: map<JobId, Job>) {
    r.content.jobId in jobs ==>
      jobs[r.content.jobId].postedBy == r.content.a && jobs[r.content.jobId].acceptedAgent == Some(r.content.b)
  }

  ghost predicate JobsOk(jobs: map<JobId, Job>, receipts: map<ReceiptId, Receipt>) {
    && (forall id | id in jobs :: JobOk(id, jobs[id], receipts))
    && (forall id | id in receipts :: JobMatches(receipts[id], jobs))
  }

  /** A terminal job is frozen, and an accepted worker is never replaced. */
  ghost predicate JobsEvolve(before: map<JobId, Job>, after: map<JobId, Job>) {
    forall id | id in before ::
      && id in after && after[id].postedBy == before[id].postedBy
      && (Terminal(before[id].status) ==> after[id] == before[id])
      && (before[id].acceptedAgent.Some? ==> after[id].acceptedAgent == before[id].acceptedAgent)
  }

  lemma JobsEvolveTransitive(x: map<JobId, Job>, y: map<JobId, Job>, z: map<JobId, Job>)
    requires JobsEvolve(x, y) && JobsEvolve(y, z)
    ensures JobsEvolve(x, z)
  {
    forall id | id in x
      ensures && id in z && z[id].postedBy == x[id].postedBy
        && (Terminal(x[id].status) ==> z[id] == x[id])
        && (x[id].acceptedAgent.Some? ==> z[id].acceptedAgent == x[id].acceptedAgent)
    {
      assert id in y;
    }
  }

  // ---------------------------------------------------------------- log entries about receipts

  function Find(receipts: map<ReceiptId, Receipt>, id: ReceiptId): Option<Receipt> {
    if id in receipts then Some(receipts[id]) else None
  }

  function Spent(r: Option<Receipt>, x: Id): nat {
    if r.Some? && Contains(r.value.dispute.usedBy, x) then 1 else 0
  }

  function Holding(r: Option<Receipt>, x: Id): nat {
    if r.Some? && r.value.status == Disputed && r.value.dispute.openedBy == Some(x) then 1 else 0
  }

  /** One finalized entry exactly when the receipt is no draft; per party, one resolved entry for
      a spent right and one opened entry for a right spent or in use. */
  ghost predicate ReceiptLogged(counts: multiset<LogEntry>, id: ReceiptId, r: Option<Receipt>) {
    && counts[ReceiptFinalized(id)] == (if r.Some? && r.value.status != Draft then 1 else 0)
    && (forall x :: counts[DisputeResolved(id, x)] == Spent(r, x))
    && (forall x :: counts[DisputeOpened(id, x)] == Spent(r, x) + Holding(r, x))
  }

  ghost predicate ReceiptsLogged(log: seq<LogEntry>, receipts: map<ReceiptId, Receipt>) {
    forall id :: ReceiptLogged(multiset(log), id, Find(receipts, id))
  }

  predicate AboutReceipts(e: LogEntry) {
    e.ReceiptFinalized? || e.DisputeOpened? || e.DisputeResolved?
  }

  lemma CountAppended(log: seq<LogEntry>, e: LogEntry)
    ensures multiset(log + [e]) == multiset(log) + multiset{e}
  {}

  lemma OtherEntriesDoNotCount(log: seq<LogEntry>, e: LogEntry, receipts: map<ReceiptId, Receipt>)
    requires ReceiptsLogged(log, receipts) && !AboutReceipts(e)
    ensures ReceiptsLogged(log + [e], receipts)
  {
    CountAppended(log, e);
  }

  predicate About(e: LogEntry, id: ReceiptId) {
    AboutReceipts(e) && e.receipt == id
  }

  lemma OthersLogged(log: seq<LogEntry>, receipts: map<ReceiptId, Receipt>, id: ReceiptId,
      log': seq<LogEntry>, receipts': map<ReceiptId, Receipt>)
    requires ReceiptsLogged(log, receipts) && ReceiptLogged(multiset(log'), id, Find(receipts', id))
    requires forall e | !About(e, id) :: multiset(log')[e] == multiset(log)[e]
    requires forall i | i != id :: Find(receipts', i) == Find(receipts, i)
    ensures ReceiptsLogged(log', receipts')
  {
    forall i
      ensures ReceiptLogged(multiset(log'), i, Find(receipts', i))
    {
      assert ReceiptLogged(multiset(log), i, Find(receipts, i));
    }
  }

  /** Changing one receipt and appending one entry about it. */
  lemma OneReceiptLogged(log: seq<LogEntry>, receipts: map<ReceiptId, Receipt>, id: ReceiptId, r: Receipt, e: LogEntry)
    requires ReceiptsLogged(log, receipts) && About(e, id)
    requires ReceiptLogged(multiset(log) + multiset{e}, id, Some(r))
    ensures ReceiptsLogged(log + [e], receipts[id := r])
  {
    CountAppended(log, e);
    OthersLogged(log, receipts, id, log + [e], receipts[id := r]);
  }

  // ---------------------------------------------------------------- the receipt operations

  lemma DraftKeeps(env: Env, w: World, caller: Id, content: Content, sig: Signature, now: Time)
    requires ReceiptsOk(env, w.agents, w.receipts) && JobsOk(w.jobs, w.receipts) && ReceiptsLogged(w.log, w.receipts)
    requires CreateDraft(env, w, caller, content, sig, now).Ok?
    ensures var w' := CreateDraft(env, w, caller, content, sig, now).value;
      && ReceiptsOk(env, w'.agents, w'.receipts) && JobsOk(w'.jobs, w'.receipts) && ReceiptsLogged(w'.log, w'.receipts)
      && ReceiptsEvolve(w.receipts, w'.receipts)
  {
    var signed := content.(b := caller);
    var id := env.receiptId(signed);
    var r := Receipt(signed, sig, None, Draft, FRESH_DISPUTE);
    assert ReceiptLogged(multiset(w.log), id, Find(w.receipts, id));
    OthersLogged(w.log, w.receipts, id, w.log, w.receipts[id := r]);
  }

  lemma CountersignLogged(w: World, id: ReceiptId, sig: Signature, now: Time)
    requires ReceiptsLogged(w.log, w.receipts) && id in w.receipts && w.receipts[id].status == Draft
    requires w.receipts[id].dispute == FRESH_DISPUTE
    ensures ReceiptsLogged(w.log + [ReceiptFinalized(id)], w.receipts[id := Countersigned(w.receipts[id], sig, now)])
  {
    assert ReceiptLogged(multiset(w.log), id, Find(w.receipts, id));
    OneReceiptLogged(w.log, w.receipts, id, Countersigned(w.receipts[id], sig, now), ReceiptFinalized(id));
  }

  /** A job found accepted is completed by this receipt, any other known job was over already, and
      nothing else changes. */
  ghost predicate Settles(jobs: map<JobId, Job>, jobs': map<JobId, Job>, j: JobId, id: ReceiptId) {
    && jobs'.Keys == jobs.Keys
    && (forall k | k in jobs && k != j :: jobs'[k] == jobs[k])
    && (j in jobs ==>
          if jobs[j].status == Accepted then jobs'[j] == jobs[j].(status := Completed, receiptId := Some(id))
          else Terminal(jobs[j].status) && jobs'[j] == jobs[j])
  }

  /** The countersigned receipt completes its job, if that was accepted, and concerns no other. */
  lemma CountersignJobs(jobs: map<JobId, Job>, receipts: map<ReceiptId, Receipt>, id: ReceiptId, sig: Signature,
      now: Time)
    requires JobsOk(jobs, receipts) && id in receipts && receipts[id].status == Draft
    ensures var jobs' := MarkCompleted(jobs, receipts[id].content.jobId, id);
      JobsOk(jobs', receipts[id := Countersigned(receipts[id], sig, now)]) && JobsEvolve(jobs, jobs')
    ensures Settles(jobs, MarkCompleted(jobs, receipts[id].content.jobId, id), receipts[id].content.jobId, id)
  {
    var r := receipts[id];
    var jobs', receipts' := MarkCompleted(jobs, r.content.jobId, id), receipts[id := Countersigned(r, sig, now)];
    assert JobMatches(r, jobs);
    assert r.content.jobId in jobs ==> JobOk(r.content.jobId, jobs[r.content.jobId], receipts);
    forall j | j in jobs'
      ensures JobOk(j, jobs'[j], receipts')
    {
      assert JobOk(j, jobs[j], receipts);
    }
  }

  lemma CountersignKeeps(env: Env, w: World, caller: Id, id: ReceiptId, sig: Signature, now: Time)
    requires ReceiptsOk(env, w.agents, w.receipts) && JobsOk(w.jobs, w.receipts) && ReceiptsLogged(w.log, w.receipts)
    requires Countersign(env, w, caller, id, sig, now).Ok?
    ensures var w' := Countersign(env, w, caller, id, sig, now).value;
      && ReceiptsOk(env, w'.agents, w'.receipts) && JobsOk(w'.jobs, w'.receipts) && ReceiptsLogged(w'.log, w'.receipts)
      && ReceiptsEvolve(w.receipts, w'.receipts) && JobsEvolve(w.jobs, w'.jobs)
    ensures var j := w.receipts[id].content.jobId;
      Settles(w.jobs, Countersign(env, w, caller, id, sig, now).value.jobs, j, id)
  {
    hide JobsOk, JobsEvolve, ReceiptsLogged, Settles;
    assert ReceiptOk(env, w.agents, id, w.receipts[id]);
    CountersignLogged(w, id, sig, now);
    CountersignJobs(w.jobs, w.receipts, id, sig, now);
  }

  /** A change to one countersigned receipt that leaves its content alone concerns no job. */
  lemma JobsIgnoreDisputes(jobs: map<JobId, Job>, receipts: map<ReceiptId, Receipt>, id: ReceiptId, r: Receipt)
    requires JobsOk(jobs, receipts) && id in receipts && r.content == receipts[id].content
    requires r.status != Draft
    ensures JobsOk(jobs, receipts[id := r])
  {
    forall j | j in jobs
      ensures JobOk(j, jobs[j], receipts[id := r])
    {
      assert JobOk(j, jobs[j], receipts);
    }
    assert JobMatches(receipts[id], jobs);
  }

  lemma OpenKeeps(env: Env, w: World, caller: Id, id: ReceiptId, now: Time, stamp: Time)
    requires ReceiptsOk(env, w.agents, w.receipts) && JobsOk(w.jobs, w.receipts) && ReceiptsLogged(w.log, w.receipts)
    requires OpenADispute(w, caller, id, now, stamp).Ok?
    ensures var w' := OpenADispute(w, caller, id, now, stamp).value;
      && ReceiptsOk(env, w'.agents, w'.receipts) && JobsOk(w'.jobs, w'.receipts) && ReceiptsLogged(w'.log, w'.receipts)
      && ReceiptsEvolve(w.receipts, w'.receipts)
      && StepsLeft(w'.receipts[id]) == StepsLeft(w.receipts[id]) - 1
  {
    var r := w.receipts[id];
    var r' := Opened(r, caller, stamp);
    assert ReceiptOk(env, w.agents, id, r);
    assert ReceiptLogged(multiset(w.log), id, Find(w.receipts, id));
    OneReceiptLogged(w.log, w.receipts, id, r', DisputeOpened(id, caller));
    JobsIgnoreDisputes(w.jobs, w.receipts, id, r');
  }

  lemma {:induction false} LengthAppended(ids: List<Id>, x: Id)
    ensures Length(Append(ids, Cons(x, Nil))) == Length(ids) + 1
  {
    AppendLength(ids, Cons(x, Nil));
  }

  lemma ResolveKeeps(env: Env, w: World, caller: Id, id: ReceiptId)
    requires ReceiptsOk(env, w.agents, w.receipts) && JobsOk(w.jobs, w.receipts) && ReceiptsLogged(w.log, w.receipts)
    requires ResolveDispute(w, caller, id).Ok?
    ensures var w' := ResolveDispute(w, caller, id).value;
      && ReceiptsOk(env, w'.agents, w'.receipts) && JobsOk(w'.jobs, w'.receipts) && ReceiptsLogged(w'.log, w'.receipts)
      && ReceiptsEvolve(w.receipts, w'.receipts)
      && StepsLeft(w'.receipts[id]) == StepsLeft(w.receipts[id]) - 1
  {
    var r := w.receipts[id];
    var r' := Resolved(r, caller);
    assert ReceiptOk(env, w.agents, id, r);
    PartiesOnceAppended(r.content, r.dispute.usedBy, caller);
    LengthAppended(r.dispute.usedBy, caller);
    forall x
      ensures Contains(r'.dispute.usedBy, x) <==> Contains(r.dispute.usedBy, x) || x == caller
    {
      ContainsAppended(r.dispute.usedBy, caller, x);
    }
    assert ReceiptLogged(multiset(w.log), id, Find(w.receipts, id));
    OneReceiptLogged(w.log, w.receipts, id, r', DisputeResolved(id, caller));
    JobsIgnoreDisputes(w.jobs, w.receipts, id, r');
  }

  // ---------------------------------------------------------------- the job operations

  /** Changing one job that no receipt completed. */
  lemma OneJobKeeps(jobs: map<JobId, Job>, receipts: map<ReceiptId, Receipt>, id: JobId, job: Job)
    requires JobsOk(jobs, receipts) && id in jobs && !Terminal(jobs[id].status)
    requires JobOk(id, job, receipts) && job.postedBy == jobs[id].postedBy
    requires jobs[id].acceptedAgent.Some? ==> job.acceptedAgent == jobs[id].acceptedAgent
    ensures JobsOk(jobs[id := job], receipts) && JobsEvolve(jobs, jobs[id := job])
  {
    forall i | i in receipts
      ensures JobMatches(receipts[i], jobs[id := job])
    {
      assert JobMatches(receipts[i], jobs);
    }
  }

  lemma JobOpKeeps(env: Env, w: World, caller: Id, op: Op, now: Time)
    requires op.Offer? || op.Accept? || op.Cancel? || op.Report?
    requires JobsOk(w.jobs, w.receipts) && Apply(env, w, caller, op, now).Ok?
    ensures var w' := Apply(env, w, caller, op, now).value;
      JobsOk(w'.jobs, w'.receipts) && JobsEvolve(w.jobs, w'.jobs)
  {
    var id, w' := op.job, Apply(env, w, caller, op, now).value;
    var job, job' := w.jobs[id], w'.jobs[id];
    assert JobOk(id, job, w.receipts);
    if op.Offer? {
      ContainsAppended(job.offers, caller, job.postedBy);
    }
    OneJobKeeps(w.jobs, w.receipts, id, job');
  }

  lemma PostKeeps(w: World, caller: Id, id: JobId, expiresAt: Option<Time>)
    requires JobsOk(w.jobs, w.receipts) && PostJob(w, caller, id, expiresAt).Ok?
    requires id !in w.jobs && forall i | i in w.receipts :: w.receipts[i].content.jobId != id
    ensures var w' := PostJob(w, caller, id, expiresAt).value;
      JobsOk(w'.jobs, w'.receipts) && JobsEvolve(w.jobs, w'.jobs)
  {
    var jobs' := PostJob(w, caller, id, expiresAt).value.jobs;
    forall i | i in w.receipts
      ensures JobMatches(w.receipts[i], jobs')
    {
      assert JobMatches(w.receipts[i], w.jobs);
    }
  }

  // ---------------------------------------------------------------- everybody named by a job is registered

  predicate AllKnown(agents: map<Id, Agent>, ids: List<Id>) {
    ids.Cons? ==> ids.head in agents && AllKnown(agents, ids.tail)
  }

  ghost predicate JobsKnown(agents: map<Id, Agent>, jobs: map<JobId, Job>) {
    forall id | id in jobs :: jobs[id].postedBy in agents && AllKnown(agents, jobs[id].offers)
  }

  lemma {:induction false} AllKnownGrows(before: map<Id, Agent>, after: map<Id, Agent>, ids: List<Id>)
    requires AllKnown(before, ids) && forall x | x in before :: x in after
    ensures AllKnown(after, ids)
  {
    if ids.Cons? {
      AllKnownGrows(before, after, ids.tail);
    }
  }

  lemma {:induction false} AllKnownAppended(agents: map<Id, Agent>, ids: List<Id>, x: Id)
    requires AllKnown(agents, ids) && x in agents
    ensures AllKnown(agents, Append(ids, Cons(x, Nil)))
  {
    if ids.Cons? {
      AllKnownAppended(agents, ids.tail, x);
    }
  }

  lemma {:induction false} ContainedIsKnown(agents: map<Id, Agent>, ids: List<Id>, x: Id)
    requires AllKnown(agents, ids) && Contains(ids, x)
    ensures x in agents
  {
    if ids.head != x {
      ContainedIsKnown(agents, ids.tail, x);
    }
  }

  lemma JobsKnownGrow(before: map<Id, Agent>, after: map<Id, Agent>, jobs: map<JobId, Job>)
    requires JobsKnown(before, jobs) && forall x | x in before :: x in after
    ensures JobsKnown(after, jobs)
  {
    forall id | id in jobs
      ensures jobs[id].postedBy in after && AllKnown(after, jobs[id].offers)
    {
      AllKnownGrows(before, after, jobs[id].offers);
    }
  }

  lemma JobsKnownKept(env: Env, w: World, caller: Id, op: Op, now: Time)
    requires JobsKnown(w.agents, w.jobs) && Apply(env, w, caller, op, now).Ok?
    ensures JobsKnown(w.agents, Apply(env, w, caller, op, now).value.jobs)
  {
    if op.Offer? {
      AllKnownAppended(w.agents, w.jobs[op.job].offers, caller);
    }
  }
}
