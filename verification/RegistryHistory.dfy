/** After every run the registry is what its story says, and grants what its story permits. */
module RegistryHistory {
  import opened Options
  import opened Lists
  import opened Succession
  import opened Registry
  import opened AgentLifecycle
  import opened ReceiptLifecycle
  import opened RegistryRuns
  import opened Chronicle

  // ---------------------------------------------------------------- a granted operation is told

  /** What no request but these changes about a job. */
  predicate ConcernsJob(q: Request, j: JobId) {
    match q.op
    case Post(k, _) => k == j
    case Offer(k) => k == j
    case Accept(k, _) => k == j
    case Cancel(k) => k == j
    case Report(k) => k == j
    case Sign(_, _) => true
    case _ => false
  }

  lemma OtherJob(env: Env, h: Grants, q: Request, j: JobId, jobs: map<JobId, Job>, jobs': map<JobId, Job>)
    requires JobTold(env, h, j, jobs) && !ConcernsJob(q, j)
    requires (j in jobs' <==> j in jobs) && (j in jobs ==> jobs'[j] == jobs[j])
    ensures JobTold(env, Cons(q, h), j, jobs')
  {}

  lemma PostTold(env: Env, h: Grants, w: World, q: Request)
    requires q.op.Post? && JobTold(env, h, q.op.newJob, w.jobs) && DeliveriesTold(env, h, w.receipts)
    requires FreshJob(w, q.op) && PostJob(w, q.caller, q.op.newJob, q.op.expiresAt).Ok?
    ensures JobTold(env, Cons(q, h), q.op.newJob, PostJob(w, q.caller, q.op.newJob, q.op.expiresAt).value.jobs)
  {
    hide Names;
    assert !Delivered(env, h, q.op.newJob);
  }

  lemma OfferTold(env: Env, h: Grants, w: World, q: Request)
    requires q.op.Offer? && JobTold(env, h, q.op.job, w.jobs) && SubmitOffer(w, q.caller, q.op.job, q.now).Ok?
    ensures JobTold(env, Cons(q, h), q.op.job, SubmitOffer(w, q.caller, q.op.job, q.now).value.jobs)
  {
    hide Names;
    var j := q.op.job;
    forall x
      ensures Contains(Append(w.jobs[j].offers, Cons(q.caller, Nil)), x)
         <==> Contains(w.jobs[j].offers, x) || x == q.caller
    {
      ContainsAppended(w.jobs[j].offers, q.caller, x);
    }
  }

  lemma AcceptTold(env: Env, h: Grants, w: World, q: Request)
    requires q.op.Accept? && JobTold(env, h, q.op.job, w.jobs)
    requires AcceptOffer(w, q.caller, q.op.job, q.op.agent, q.now).Ok?
    ensures JobTold(env, Cons(q, h), q.op.job, AcceptOffer(w, q.caller, q.op.job, q.op.agent, q.now).value.jobs)
  {
    hide Names;
  }

  lemma EndTold(env: Env, h: Grants, w: World, q: Request)
    requires (q.op.Cancel? || q.op.Report?) && JobTold(env, h, q.op.job, w.jobs)
    requires Apply(env, w, q.caller, q.op, q.now).Ok?
    ensures JobTold(env, Cons(q, h), q.op.job, Apply(env, w, q.caller, q.op, q.now).value.jobs)
  {
    hide Names;
  }

  lemma NamesTold(env: Env, h: Grants, receipts: map<ReceiptId, Receipt>, id: ReceiptId, j: JobId)
    requires ReceiptTold(env, h, id, receipts) && id in receipts
    ensures Names(env, h, id, j) <==> receipts[id].content.jobId == j
  {
    hide DisputeTold;
  }

  /** Only an accepted job is completed, and only a job that was accepted can have a receipt. */
  lemma SignTellsJob(env: Env, h: Grants, q: Request, j: JobId, jobs: map<JobId, Job>,
      receipts: map<ReceiptId, Receipt>)
    requires q.op.Sign? && q.op.receipt in receipts && JobTold(env, h, j, jobs)
    requires JobMatches(receipts[q.op.receipt], jobs) && (j in jobs ==> JobOk(j, jobs[j], receipts))
    requires Names(env, h, q.op.receipt, j) <==> receipts[q.op.receipt].content.jobId == j
    ensures JobTold(env, Cons(q, h), j, MarkCompleted(jobs, receipts[q.op.receipt].content.jobId, q.op.receipt))
  {
    hide Names;
    assert Delivered(env, Cons(q, h), j) <==> receipts[q.op.receipt].content.jobId == j || Delivered(env, h, j);
  }

  lemma JobStep(env: Env, c: Story, w: World, q: Request, j: JobId)
    requires Told(env, c, w) && JobsOk(w.jobs, w.receipts) && FreshJob(w, q.op)
    requires Apply(env, w, q.caller, q.op, q.now).Ok?
    ensures JobTold(env, Cons(q, c.grants), j, Apply(env, w, q.caller, q.op, q.now).value.jobs)
  {
    hide IsPendingSuccessor, HasDecision, JobOk, JobTold, ReceiptTold, DecisionsTold, VerificationTold, AgentTold,
      DeliveriesTold, JobMatches, Names;
    var jobs, jobs' := w.jobs, Apply(env, w, q.caller, q.op, q.now).value.jobs;
    assert JobTold(env, c.grants, j, w.jobs);
    if q.op.Sign? {
      var id := q.op.receipt;
      assert ReceiptTold(env, c.grants, id, w.receipts) && JobMatches(w.receipts[id], w.jobs);
      NamesTold(env, c.grants, w.receipts, id, j);
      SignTellsJob(env, c.grants, q, j, w.jobs, w.receipts);
    } else if !ConcernsJob(q, j) {
      OtherJob(env, c.grants, q, j, w.jobs, jobs');
    } else if q.op.Post? {
      PostTold(env, c.grants, w, q);
    } else if q.op.Offer? {
      OfferTold(env, c.grants, w, q);
    } else if q.op.Accept? {
      AcceptTold(env, c.grants, w, q);
    } else {
      EndTold(env, c.grants, w, q);
    }
  }

  predicate ConcernsReceipt(env: Env, q: Request, id: ReceiptId) {
    match q.op
    case Submit(_, _) => env.receiptId(SignedBy(q)) == id
    case Sign(i, _) => i == id
    case Contest(i, _) => i == id
    case Withdraw(i) => i == id
    case _ => false
  }

  lemma OtherReceipt(env: Env, h: Grants, q: Request, id: ReceiptId, receipts: map<ReceiptId, Receipt>,
      receipts': map<ReceiptId, Receipt>)
    requires ReceiptTold(env, h, id, receipts) && !ConcernsReceipt(env, q, id)
    requires (id in receipts' <==> id in receipts) && (id in receipts ==> receipts'[id] == receipts[id])
    ensures ReceiptTold(env, Cons(q, h), id, receipts')
  {}

  lemma SubmitTold(env: Env, h: Grants, w: World, q: Request)
    requires q.op.Submit? && ReceiptTold(env, h, env.receiptId(SignedBy(q)), w.receipts)
    requires CreateDraft(env, w, q.caller, q.op.content, q.op.sig, q.now).Ok?
    ensures ReceiptTold(env, Cons(q, h), env.receiptId(SignedBy(q)),
        CreateDraft(env, w, q.caller, q.op.content, q.op.sig, q.now).value.receipts)
  {}

  lemma SignTold(env: Env, h: Grants, w: World, q: Request)
    requires q.op.Sign? && ReceiptTold(env, h, q.op.receipt, w.receipts)
    requires Countersign(env, w, q.caller, q.op.receipt, q.op.sig, q.now).Ok?
    ensures ReceiptTold(env, Cons(q, h), q.op.receipt,
        Countersign(env, w, q.caller, q.op.receipt, q.op.sig, q.now).value.receipts)
  {
    hide MarkCompleted;
  }

  lemma ContestTold(env: Env, h: Grants, w: World, q: Request)
    requires q.op.Contest? && ReceiptTold(env, h, q.op.receipt, w.receipts)
    requires OpenADispute(w, q.caller, q.op.receipt, q.now, q.op.stamp).Ok?
    ensures ReceiptTold(env, Cons(q, h), q.op.receipt,
        OpenADispute(w, q.caller, q.op.receipt, q.now, q.op.stamp).value.receipts)
  {}

  lemma WithdrawTold(env: Env, h: Grants, w: World, q: Request)
    requires q.op.Withdraw? && ReceiptTold(env, h, q.op.receipt, w.receipts)
    requires ResolveDispute(w, q.caller, q.op.receipt).Ok?
    ensures ReceiptTold(env, Cons(q, h), q.op.receipt, ResolveDispute(w, q.caller, q.op.receipt).value.receipts)
  {
    var used := w.receipts[q.op.receipt].dispute.usedBy;
    forall x
      ensures Contains(Append(used, Cons(q.caller, Nil)), x) <==> Contains(used, x) || x == q.caller
    {
      ContainsAppended(used, q.caller, x);
    }
  }

  lemma ReceiptStep(env: Env, c: Story, w: World, q: Request, id: ReceiptId)
    requires Told(env, c, w) && Apply(env, w, q.caller, q.op, q.now).Ok?
    ensures ReceiptTold(env, Cons(q, c.grants), id, Apply(env, w, q.caller, q.op, q.now).value.receipts)
  {
    hide IsPendingSuccessor, HasDecision, JobTold, ReceiptTold, DecisionsTold, VerificationTold, AgentTold,
      DeliveriesTold;
    assert ReceiptTold(env, c.grants, id, w.receipts);
    if !ConcernsReceipt(env, q, id) {
      OtherReceipt(env, c.grants, q, id, w.receipts, Apply(env, w, q.caller, q.op, q.now).value.receipts);
    } else if q.op.Submit? {
      SubmitTold(env, c.grants, w, q);
    } else if q.op.Sign? {
      SignTold(env, c.grants, w, q);
    } else if q.op.Contest? {
      ContestTold(env, c.grants, w, q);
    } else {
      WithdrawTold(env, c.grants, w, q);
    }
  }

  /** Only a verification changes the verifications. */
  lemma OnlyVerifyDecides(env: Env, w: World, q: Request)
    requires Apply(env, w, q.caller, q.op, q.now).Ok?
    ensures var vs' := Apply(env, w, q.caller, q.op, q.now).value.verifications;
      if q.op.Verify? then
        && q.caller == q.op.verification.verifier && env.verificationId(q.op.verification) !in w.verifications
        && vs' == w.verifications[env.verificationId(q.op.verification) := q.op.verification]
      else vs' == w.verifications
  {
    hide IsPendingSuccessor, HasDecision;
  }

  lemma VerificationStep(env: Env, c: Story, w: World, q: Request, v: VerificationId)
    requires VerificationTold(env, c.grants, v, w.verifications) && Apply(env, w, q.caller, q.op, q.now).Ok?
    ensures VerificationTold(env, Cons(q, c.grants), v, Apply(env, w, q.caller, q.op, q.now).value.verifications)
  {
    OnlyVerifyDecides(env, w, q);
    hide Apply;
  }

  lemma DecisionStep(env: Env, c: Story, w: World, q: Request, id: ReceiptId, x: Id)
    requires DecisionsTold(env, c.grants, w.verifications) && Apply(env, w, q.caller, q.op, q.now).Ok?
    ensures HasDecision(Apply(env, w, q.caller, q.op, q.now).value.verifications, id, x)
       <==> Done(env, Cons(q, c.grants), DecidingOn(id, x))
  {
    OnlyVerifyDecides(env, w, q);
    hide Apply;
    assert HasDecision(w.verifications, id, x) <==> Done(env, c.grants, DecidingOn(id, x));
    if q.op.Verify? {
      var k, vs := env.verificationId(q.op.verification), w.verifications;
      var vs' := vs[k := q.op.verification];
      assert vs'[k].receiptId == id && vs'[k].verifier == x ==> HasDecision(vs', id, x);
      if HasDecision(vs, id, x) {
        var u :| u in vs && vs[u].receiptId == id && vs[u].verifier == x;
        assert u in vs' && vs'[u] == vs[u];
      }
    }
  }

  /** What no request but these changes about an ID. */
  predicate ConcernsAgent(q: Request, x: Id) {
    match q.op
    case Register(_) => q.caller == x
    case Revoke => q.caller == x
    case Succeed(_, _, _) => q.caller == x
    case SetVerifier(target, _) => target == x
    case _ => false
  }

  lemma OtherAgent(env: Env, c: Story, q: Request, x: Id, agents: map<Id, Agent>, agents': map<Id, Agent>)
    requires AgentTold(env, c, x, agents) && !ConcernsAgent(q, x)
    requires (x in agents' <==> x in agents) && (x in agents ==> agents'[x] == agents[x])
    ensures AgentTold(env, c.(grants := Cons(q, c.grants)), x, agents')
  {}

  lemma OwnRequestTold(env: Env, c: Story, w: World, q: Request)
    requires AgentTold(env, c, q.caller, w.agents) && Gate(w.agents, q.caller).None?
    requires (q.op.Register? || q.op.Revoke? || q.op.Succeed?) && Apply(env, w, q.caller, q.op, q.now).Ok?
    ensures AgentTold(env, c.(grants := Cons(q, c.grants)), q.caller,
        Apply(env, w, q.caller, q.op, q.now).value.agents)
  {
    hide IsPendingSuccessor, SuccessionVerifies;
  }

  lemma StatusTold(env: Env, c: Story, w: World, q: Request)
    requires q.op.SetVerifier? && AgentTold(env, c, q.op.target, w.agents)
    requires SetVerifierStatus(env, w, q.caller, q.op.target, q.op.authorized).Ok?
    ensures AgentTold(env, c.(grants := Cons(q, c.grants)), q.op.target,
        SetVerifierStatus(env, w, q.caller, q.op.target, q.op.authorized).value.agents)
  {}

  lemma AgentStep(env: Env, c: Story, w: World, q: Request, x: Id)
    requires Told(env, c, w) && Gate(w.agents, q.caller).None? && Apply(env, w, q.caller, q.op, q.now).Ok?
    ensures AgentTold(env, c.(grants := Cons(q, c.grants)), x, Apply(env, w, q.caller, q.op, q.now).value.agents)
  {
    hide IsPendingSuccessor, HasDecision, JobTold, ReceiptTold, VerificationTold, DecisionsTold, DeliveriesTold,
      AgentTold, SuccessionVerifies;
    assert AgentTold(env, c, x, w.agents) && AgentTold(env, c, q.caller, w.agents);
    if !ConcernsAgent(q, x) {
      OtherAgent(env, c, q, x, w.agents, Apply(env, w, q.caller, q.op, q.now).value.agents);
    } else if q.op.SetVerifier? {
      StatusTold(env, c, w, q);
    } else {
      OwnRequestTold(env, c, w, q);
    }
  }

  lemma DeliveryStep(env: Env, c: Story, w: World, q: Request)
    requires Told(env, c, w) && Apply(env, w, q.caller, q.op, q.now).Ok?
    requires ReceiptsEvolve(w.receipts, Apply(env, w, q.caller, q.op, q.now).value.receipts)
    ensures DeliveriesTold(env, Cons(q, c.grants), Apply(env, w, q.caller, q.op, q.now).value.receipts)
  {
    hide IsPendingSuccessor, HasDecision, JobTold, VerificationTold, DecisionsTold, AgentTold, StepsLeft;
    var receipts' := Apply(env, w, q.caller, q.op, q.now).value.receipts;
    forall j | Delivered(env, Cons(q, c.grants), j)
      ensures exists id | id in receipts' :: receipts'[id].content.jobId == j
    {
      if Delivered(env, c.grants, j) {
        var id :| id in w.receipts && w.receipts[id].content.jobId == j;
        assert id in receipts' && receipts'[id].content.jobId == j;
      } else {
        assert ReceiptTold(env, c.grants, q.op.receipt, w.receipts);
        assert q.op.receipt in receipts' && receipts'[q.op.receipt].content.jobId == j;
      }
    }
  }

  lemma RequestedAppend(log: seq<LogEntry>, e: LogEntry)
    ensures Requested(log + [e]) == Requested(log) + if EndsSuccession(e) then [] else [e]
  {
    assert (log + [e])[..|log|] == log;
  }

  /** The log grew by these entries, or by one that ends a succession in place of none. */
  predicate Grew(log: seq<LogEntry>, log': seq<LogEntry>, entries: seq<LogEntry>) {
    match |entries|
    case 0 => log' == log || (log' != [] && log' == log + [log'[|log'| - 1]] && EndsSuccession(log'[|log'| - 1]))
    case 1 => log' == log + entries && !EndsSuccession(entries[0])
    case _ => false
  }

  lemma LogGrows(env: Env, w: World, q: Request)
    requires Apply(env, w, q.caller, q.op, q.now).Ok?
    ensures Grew(w.log, Apply(env, w, q.caller, q.op, q.now).value.log, EntryOf(q))
  {
    hide IsPendingSuccessor, HasDecision;
  }

  lemma RequestedGrows(log: seq<LogEntry>, log': seq<LogEntry>, entries: seq<LogEntry>)
    requires Grew(log, log', entries)
    ensures Requested(log') == Requested(log) + entries
  {
    hide Requested;
    if log' != log {
      var e := log'[|log'| - 1];
      assert log' == log + [e] && entries == if EndsSuccession(e) then [] else [e];
      RequestedAppend(log, e);
    }
  }

  /** A granted operation is told by the story it joins. */
  lemma ApplyTold(env: Env, c: Story, w: World, q: Request)
    requires Told(env, c, w) && Inv(env, w) && Gate(w.agents, q.caller).None? && FreshJob(w, q.op)
    requires Apply(env, w, q.caller, q.op, q.now).Ok?
    ensures Told(env, c.(grants := Cons(q, c.grants)), Apply(env, w, q.caller, q.op, q.now).value)
  {
    var w', c' := Apply(env, w, q.caller, q.op, q.now).value, c.(grants := Cons(q, c.grants));
    ApplyInv(env, w, q.caller, q.op, q.now);
    hide SuccessionsLogged, LineagesApart, VerificationsOk, AgentsOk, ReceiptsOk, JobsKnown, ReceiptsLogged, JobsOk;
    hide Apply, JobTold, ReceiptTold, VerificationTold, AgentTold, DeliveriesTold, Done, Grew, Requested, EntryOf;
    forall j
      ensures JobTold(env, c'.grants, j, w'.jobs)
    {
      JobStep(env, c, w, q, j);
    }
    forall id
      ensures ReceiptTold(env, c'.grants, id, w'.receipts)
    {
      ReceiptStep(env, c, w, q, id);
    }
    forall v
      ensures VerificationTold(env, c'.grants, v, w'.verifications)
    {
      VerificationStep(env, c, w, q, v);
    }
    forall x
      ensures AgentTold(env, c', x, w'.agents)
    {
      AgentStep(env, c, w, q, x);
    }
    forall id, x
      ensures HasDecision(w'.verifications, id, x) <==> Done(env, c'.grants, DecidingOn(id, x))
    {
      DecisionStep(env, c, w, q, id, x);
    }
    DeliveryStep(env, c, w, q);
    LogGrows(env, w, q);
    RequestedGrows(w.log, w'.log, EntryOf(q));
  }

  // ---------------------------------------------------------------- activations are told

  /** The successions completed once these rows are activated. */
  function Heirs(heirs: map<Id, Id>, rows: List<(Id, Agent)>): map<Id, Id>
    requires AllPending(rows)
    decreases rows
  {
    match rows
    case Nil => heirs
    case Cons(row, rest) => Heirs(heirs[row.0 := row.1.pending.value.successor], rest)
  }

  function Activating(c: Story, rows: List<(Id, Agent)>): Story
    requires AllPending(rows)
  {
    c.(heirs := Heirs(c.heirs, rows))
  }

  lemma {:induction false} ActivationTold(env: Env, c: Story, w: World, now: Time, rows: List<(Id, Agent)>)
    requires Told(env, c, w) && Inv(env, w) && RowsMatch(w.agents, now, rows) && AllPending(rows)
    ensures Told(env, Activating(c, rows), ActivateRows(w, rows))
    decreases rows
  {
    hide Inv, Told;
    if rows.Cons? {
      var p := rows.head.0;
      var c1 := c.(heirs := c.heirs[p := w.agents[p].pending.value.successor]);
      ActivateOneInv(env, w, p);
      NextRowsMatch(env, w, now, rows);
      OneActivationTold(env, c, w, p);
      ActivationTold(env, c1, ActivateOne(w, p, w.agents[p]), now, rows.tail);
    }
  }

  lemma OneActivationTold(env: Env, c: Story, w: World, p: Id)
    requires Told(env, c, w) && Inv(env, w) && p in w.agents && w.agents[p].pending.Some?
    ensures Told(env, c.(heirs := c.heirs[p := w.agents[p].pending.value.successor]), ActivateOne(w, p, w.agents[p]))
  {
    var s := w.agents[p].pending.value.successor;
    var c' := c.(heirs := c.heirs[p := s]);
    ActivateOneKeeps(w, p);
    RequestedAppend(w.log, AgentSucceeded(p, s));
    hide Inv, JobTold, ReceiptTold, VerificationTold, DecisionsTold, DeliveriesTold, AgentsOk, FreshLink, Links;
    forall x
      ensures AgentTold(env, c', x, ActivateOne(w, p, w.agents[p]).agents)
    {
      AgentActivated(env, c, w, p, x);
    }
  }

  lemma AgentActivated(env: Env, c: Story, w: World, p: Id, x: Id)
    requires (forall y :: AgentTold(env, c, y, w.agents)) && p in w.agents && w.agents[p].pending.Some?
    requires w.agents[p].pending.value.successor !in w.agents
    ensures AgentTold(env, c.(heirs := c.heirs[p := w.agents[p].pending.value.successor]), x,
        ActivateOne(w, p, w.agents[p]).agents)
  {
    var s := w.agents[p].pending.value.successor;
    assert AgentTold(env, c, p, w.agents) && AgentTold(env, c, s, w.agents) && AgentTold(env, c, x, w.agents);
    HeirsAfter(c.heirs, p, s, x);
    hide Latest, TookOver;
  }

  lemma HeirsAfter(heirs: map<Id, Id>, p: Id, s: Id, x: Id)
    requires p !in heirs
    ensures TookOver(heirs[p := s], x) <==> TookOver(heirs, x) || x == s
  {
    var heirs' := heirs[p := s];
    assert p in heirs' && heirs'[p] == s;
    if TookOver(heirs, x) {
      var y :| y in heirs && heirs[y] == x;
      assert y in heirs' && heirs'[y] == x;
    }
    if TookOver(heirs', x) {
      var y :| y in heirs' && heirs'[y] == x;
      assert y == p || (y in heirs && heirs[y] == x);
    }
  }

  // ---------------------------------------------------------------- every run

  /** The story after a run of requests: the activations each begins with, and it itself if granted. */
  ghost function After(env: Env, w: World, qs: List<Request>, w': World, c: Story): Story
    requires Run(env, w, qs, w')
    decreases qs
  {
    match qs
    case Nil => c
    case Cons(q, rest) => After(env, Serve(env, w, q).0, rest, w', Next(env, w, q, c))
  }

  function Next(env: Env, w: World, q: Request, c: Story): Story
    requires AllPending(q.rows)
  {
    var active := Activating(c, q.rows);
    if Serve(env, w, q).1.None? then active.(grants := Cons(q, active.grants)) else active
  }

  const NOTHING_YET := Story(Nil, map[])

  lemma EmptyTold(env: Env)
    ensures Told(env, NOTHING_YET, EMPTY)
  {}

  /** With the activations it begins with, the caller is not gone and the story permits the request. */
  ghost predicate Heard(env: Env, c: Story, q: Request)
    requires AllPending(q.rows)
  {
    var active := Activating(c, q.rows);
    !Gone(env, active, q.caller) && Permitted(env, active, q)
  }

  lemma ServeTold(env: Env, c: Story, w: World, q: Request)
    requires Told(env, c, w) && Inv(env, w) && Possible(w, q)
    ensures Told(env, Next(env, w, q, c), Serve(env, w, q).0)
    ensures Serve(env, w, q).1.None? <==> Heard(env, c, q)
  {
    hide Told, Inv, Apply, Permitted, Activating;
    var active, story := ActivateRows(w, q.rows), Activating(c, q.rows);
    ActivationInv(env, w, q.arrival, q.rows);
    ActivationTouchesIdentitiesOnly(w, q.rows);
    ActivationTold(env, c, w, q.arrival, q.rows);
    GateTold(env, story, active, q.caller);
    if Gate(active.agents, q.caller).None? {
      ApplyPermittedExactly(env, story, active, q);
      if Apply(env, active, q.caller, q.op, q.now).Ok? {
        ApplyTold(env, story, active, q);
      }
    }
  }

  lemma GateTold(env: Env, c: Story, w: World, x: Id)
    requires Told(env, c, w)
    ensures Gate(w.agents, x).None? <==> !Gone(env, c, x)
  {
    assert AgentTold(env, c, x, w.agents);
  }

  lemma {:induction false} RunTold(env: Env, w: World, qs: List<Request>, w': World, c: Story)
    requires Inv(env, w) && Told(env, c, w) && Run(env, w, qs, w')
    ensures Told(env, After(env, w, qs, w', c), w')
    decreases qs
  {
    hide Inv, Told, Heard, Serve, Next;
    if qs.Cons? {
      ServeInv(env, w, qs.head);
      ServeTold(env, c, w, qs.head);
      RunTold(env, Serve(env, w, qs.head).0, qs.tail, w', Next(env, w, qs.head, c));
    }
  }

  /** The tables of a registry say what its story says, and nothing else; and the log lists the granted
      requests in order. */
  lemma TablesTellTheStory(env: Env, qs: List<Request>, w: World)
    requires Run(env, EMPTY, qs, w)
    ensures Told(env, After(env, EMPTY, qs, w, NOTHING_YET), w)
  {
    hide Told, Inv;
    EmptyInv(env);
    EmptyTold(env);
    RunTold(env, EMPTY, qs, w, NOTHING_YET);
  }

  /** After every run, the next request is granted if and only if, once the activations it begins with
      are part of the story, its caller is not gone and the story permits it.  Refused, it leaves nothing
      but those activations. */
  lemma GrantedExactly(env: Env, qs: List<Request>, w: World, q: Request)
    requires Run(env, EMPTY, qs, w) && Possible(w, q)
    ensures Serve(env, w, q).1.None? <==> Heard(env, After(env, EMPTY, qs, w, NOTHING_YET), q)
    ensures Serve(env, w, q).1.Some? ==> Serve(env, w, q).0 == ActivateRows(w, q.rows)
  {
    RefusedOnlyActivates(env, w, q);
    hide Told, Inv, Heard, Serve;
    EmptyInv(env);
    RunInv(env, EMPTY, qs, w);
    TablesTellTheStory(env, qs, w);
    ServeTold(env, After(env, EMPTY, qs, w, NOTHING_YET), w, q);
  }

  lemma RefusedOnlyActivates(env: Env, w: World, q: Request)
    requires AllPending(q.rows)
    ensures Serve(env, w, q).1.Some? ==> Serve(env, w, q).0 == ActivateRows(w, q.rows)
  {
    hide Apply, Gate;
  }

  /** Which activations a request begins with: those of every succession that the story still awaits and
      whose 72 hours have passed, each handing over to the ID that was asked for, and no others. */
  lemma {:induction false} HandedOverExactly(env: Env, qs: List<Request>, w: World, q: Request, p: Id)
    requires Run(env, EMPTY, qs, w) && Possible(w, q)
    ensures var c := After(env, EMPTY, qs, w, NOTHING_YET); var heirs := Activating(c, q.rows).heirs;
      && (p in heirs <==>
            p in c.heirs || (PendingOf(env, c, p).Some? && PendingOf(env, c, p).value.effectiveAt <= q.arrival))
      && (p in heirs ==> heirs[p] == if p in c.heirs then c.heirs[p] else PendingOf(env, c, p).value.successor)
  {
    var c := After(env, EMPTY, qs, w, NOTHING_YET);
    TablesTellTheStory(env, qs, w);
    hide Run, After, PendingOf, Registered, IsAppointed, JobTold, ReceiptTold, VerificationTold, DecisionsTold,
      DeliveriesTold, Entries, Requested;
    assert AgentTold(env, c, p, w.agents);
    if p !in w.agents {
      UnknownAwaits(env, c, w.agents, p);
    }
    HeirsListed(w.agents, q.arrival, q.rows, c.heirs, p);
  }

  lemma UnknownAwaits(env: Env, c: Story, agents: map<Id, Agent>, p: Id)
    requires AgentTold(env, c, p, agents) && p !in agents
    ensures PendingOf(env, c, p).None? && p !in c.heirs
  {}

  lemma {:induction false} HeirsListed(agents: map<Id, Agent>, now: Time, rows: List<(Id, Agent)>, heirs: map<Id, Id>,
      p: Id)
    requires RowsMatch(agents, now, rows) && AllPending(rows)
    ensures p in Heirs(heirs, rows) <==> p in heirs || Listed(rows, p)
    ensures Listed(rows, p) ==>
        p in agents && Due(agents[p], now) && Heirs(heirs, rows)[p] == agents[p].pending.value.successor
    ensures p in heirs && !Listed(rows, p) ==> Heirs(heirs, rows)[p] == heirs[p]
    decreases rows
  {
    if rows.Cons? {
      HeirsListed(agents, now, rows.tail, heirs[rows.head.0 := rows.head.1.pending.value.successor], p);
    }
  }
}
