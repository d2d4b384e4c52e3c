/** What the registry promises over every run that starts from an empty store. */
module RegistryGuarantees {
  import opened Options
  import opened Lists
  import opened Succession
  import opened Registry
  import opened AgentLifecycle
  import opened ReceiptLifecycle
  import opened RegistryRuns

  ghost predicate Reachable(env: Env, w: World) {
    exists qs :: Run(env, EMPTY, qs, w)
  }

  lemma ReachableInv(env: Env, w: World)
    requires Reachable(env, w)
    ensures Inv(env, w)
  {
    EmptyInv(env);
    var qs :| Run(env, EMPTY, qs, w);
    RunInv(env, EMPTY, qs, w);
  }

  // ---------------------------------------------------------------- identities

  /** The successions form disjoint finite simple chains, each ID is in at most one of pending,
      revoked and succeeded, and the successors still awaited are distinct and unregistered. */
  lemma SuccessionsStayChains(env: Env, w: World)
    requires Reachable(env, w)
    ensures Chains(Links(w.agents))
    ensures forall id | id in w.agents :: AtMostOne(w.agents[id])
    ensures SuccessorsFresh(w.agents)
  {
    ReachableInv(env, w);
    LinksAreChains(w.agents);
  }

  /** Walking forward from any ID ends at a live end of chain after finitely many links. */
  lemma SuccessorWalksEnd(env: Env, w: World, id: Id) returns (n: nat)
    requires Reachable(env, w)
    ensures n <= |Links(w.agents)| && IsChainLength(Links(w.agents), id, n)
  {
    SuccessionsStayChains(env, w);
    var rank :| Ranked(Links(w.agents), rank);
    n := ChainEnds(Links(w.agents), rank, id);
  }

  /** Walking back from any ID ends at one that succeeds nobody, after finitely many links. */
  lemma PredecessorWalksEnd(env: Env, w: World, back: SuccMap, id: Id) returns (n: nat)
    requires Reachable(env, w) && IsBackMap(Links(w.agents), back)
    ensures n <= |Links(w.agents)| && IsChainLength(back, id, n)
  {
    SuccessionsStayChains(env, w);
    n := BackWalksEnd(Links(w.agents), back, id);
  }

  /** In a reachable registry every chain of successions counts as one identity, all its IDs having
      one head, if and only if the hop guard cuts no walk short. */
  lemma OneIdentityExactlyWhenShallow(env: Env, w: World)
    requires Reachable(env, w)
    ensures (forall x, y | Reaches(Links(w.agents), x, y) :: HeadOf(Links(w.agents), x) == HeadOf(Links(w.agents), y))
            <==> Shallow(Links(w.agents))
  {
    SuccessionsStayChains(env, w);
    OneHeadExactlyWhenShallow(Links(w.agents));
  }

  /** Revoked and succeeded are absorbing: the record never changes again and every later signed
      request of that ID is refused with nothing but due activations applied. */
  lemma RetiredForGood(env: Env, w: World, qs: List<Request>, w': World, q: Request)
    requires Reachable(env, w) && Run(env, w, qs, w') && Possible(w', q)
    requires q.caller in w.agents && Retired(w.agents[q.caller])
    ensures q.caller in w'.agents && w'.agents[q.caller] == w.agents[q.caller]
    ensures Serve(env, w', q).1.Some? && Serve(env, w', q).0 == ActivateRows(w', q.rows)
  {
    ReachableInv(env, w);
    RunInv(env, w, qs, w');
    ActivationInv(env, w', q.arrival, q.rows);
    assert AgentsEvolve(w.agents, w'.agents) && AgentsEvolve(w'.agents, ActivateRows(w', q.rows).agents);
  }

  /** A succession that was requested was activated, cancelled by revocation, or is pending, and
      exactly one of the three. */
  lemma SuccessionHasOneOutcome(env: Env, w: World, p: Id, s: Id)
    requires Reachable(env, w) && SuccessionPending(p, s) in w.log
    ensures p in w.agents
    ensures var counts := multiset(w.log); var record := w.agents[p];
      && counts[SuccessionPending(p, s)] == 1
      && (AgentSucceeded(p, s) in w.log <==> record.succeededBy == Some(s))
      && (SuccessionCancelled(p, s) in w.log ==> record.revokedAt.Some?)
      && counts[AgentSucceeded(p, s)] + counts[SuccessionCancelled(p, s)] + Awaiting(Some(record), s) == 1
  {
    ReachableInv(env, w);
    assert SuccessionLogged(multiset(w.log), p, s, FindAgent(w.agents, p));
    assert AtMostOne(w.agents[p]);
  }

  // ---------------------------------------------------------------- receipts and jobs

  /** Everything a countersigned receipt carries, in every reachable state: both signatures are
      over the same content, and its parties are distinct and never in one lineage. */
  lemma CountersignedReceipts(env: Env, w: World, id: ReceiptId)
    requires Reachable(env, w) && id in w.receipts && w.receipts[id].status != Draft
    ensures var r := w.receipts[id];
      && r.signatureA.Some?
      && env.verify(r.signatureA.value, ReceiptText(r.content), r.content.a)
      && env.verify(r.signatureB, ReceiptText(r.content), r.content.b)
      && r.content.a in w.agents && r.content.b in w.agents
      && !SameLineage(Links(w.agents), r.content.a, r.content.b)
  {
    ReachableInv(env, w);
    assert ReceiptOk(env, w.agents, id, w.receipts[id]);
    assert PartiesApart(w.agents, w.receipts[id]);
  }

  /** The signed content never changes, and a draft is the only state ever left for good. */
  lemma SignedContentNeverChanges(env: Env, w: World, qs: List<Request>, w': World, id: ReceiptId)
    requires Reachable(env, w) && Run(env, w, qs, w') && id in w.receipts
    ensures id in w'.receipts
    ensures var r, r' := w.receipts[id], w'.receipts[id];
      && r'.content == r.content && r'.signatureB == r.signatureB
      && (r.status != Draft ==>
            r'.status != Draft && r'.signatureA == r.signatureA
                && r'.dispute.windowClosesAt == r.dispute.windowClosesAt)
  {
    ReachableInv(env, w);
    RunInv(env, w, qs, w');
    assert ReceiptEvolves(w.receipts[id], w'.receipts[id]);
  }

  /** A job is completed if and only if it names a receipt, and that receipt is countersigned, is
      for this job, and is between its poster and its accepted worker.  Nothing ever moves a
      completed, cancelled or non-performed job. */
  lemma JobsAreBacked(env: Env, w: World, qs: List<Request>, w': World, id: JobId)
    requires Reachable(env, w) && Run(env, w, qs, w') && id in w.jobs
    ensures var job := w.jobs[id];
      && (job.status == Completed <==> job.receiptId.Some?)
      && (job.status == Completed ==>
            && job.receiptId.value in w.receipts
            && w.receipts[job.receiptId.value].status != Draft
            && w.receipts[job.receiptId.value].content.jobId == id
            && w.receipts[job.receiptId.value].content.a == job.postedBy
            && Some(w.receipts[job.receiptId.value].content.b) == job.acceptedAgent)
    ensures Terminal(w.jobs[id].status) ==> id in w'.jobs && w'.jobs[id] == w.jobs[id]
  {
    ReachableInv(env, w);
    RunInv(env, w, qs, w');
    assert JobOk(id, w.jobs[id], w.receipts);
  }

  /** The log accounts for every receipt: finalized once exactly when it is no draft; opened
      entries exceed resolved entries by one exactly when it is disputed; nobody but a party
      appears, and each party at most once. */
  lemma LogAccountsForReceipts(env: Env, w: World, id: ReceiptId)
    requires Reachable(env, w) && id in w.receipts
    ensures var r := w.receipts[id]; var counts := multiset(w.log); var (a, b) := (r.content.a, r.content.b);
      && counts[ReceiptFinalized(id)] == (if r.status == Draft then 0 else 1)
      && counts[DisputeOpened(id, a)] + counts[DisputeOpened(id, b)]
         == counts[DisputeResolved(id, a)] + counts[DisputeResolved(id, b)] + (if r.status == Disputed then 1 else 0)
      && counts[DisputeOpened(id, a)] <= 1 && counts[DisputeOpened(id, b)] <= 1
      && forall x | x != a && x != b :: counts[DisputeOpened(id, x)] == 0
  {
    ReachableInv(env, w);
    var r := w.receipts[id];
    assert ReceiptOk(env, w.agents, id, r);
    assert ReceiptLogged(multiset(w.log), id, Find(w.receipts, id));
    forall x | x != r.content.a && x != r.content.b
      ensures !Contains(r.dispute.usedBy, x)
    {
      OutsidersSpendNothing(r.content, r.dispute.usedBy, x);
    }
  }

  lemma {:induction false} OutsidersSpendNothing(content: Content, used: List<Id>, x: Id)
    requires PartiesOnce(content, used) && !Party(content, x)
    ensures !Contains(used, x)
  {
    if used.Cons? {
      OutsidersSpendNothing(content, used.tail, x);
    }
  }

  /** Each verifier decides once per receipt, is no party to it, and the receipt was countersigned. */
  lemma OneDecisionPerVerifier(env: Env, w: World, v: VerificationId, u: VerificationId)
    requires Reachable(env, w) && v in w.verifications && u in w.verifications
    requires w.verifications[v].receiptId == w.verifications[u].receiptId
    requires w.verifications[v].verifier == w.verifications[u].verifier
    ensures v == u
    ensures w.verifications[v].receiptId in w.receipts
    ensures var r := w.receipts[w.verifications[v].receiptId];
      r.status != Draft && !Party(r.content, w.verifications[v].verifier)
  {
    ReachableInv(env, w);
  }

  // ---------------------------------------------------------------- countersigned work is settled

  /** A granted countersignature completes the job it finds accepted. */
  lemma CountersigningCompletes(env: Env, w: World, q: Request)
    requires Inv(env, w) && Possible(w, q) && q.op.Sign? && Serve(env, w, q).1.None?
    ensures q.op.receipt in w.receipts
    ensures var j, w' := w.receipts[q.op.receipt].content.jobId, Serve(env, w, q).0;
      j in w.jobs ==>
        && j in w'.jobs && Terminal(w'.jobs[j].status)
        && (w.jobs[j].status == Accepted ==>
              w'.jobs[j].status == Completed && w'.jobs[j].receiptId == Some(q.op.receipt))
  {
    var active := ActivateRows(w, q.rows);
    ActivationInv(env, w, q.arrival, q.rows);
    ActivationTouchesIdentitiesOnly(w, q.rows);
    CountersignCompletes(env, active, q.caller, q.op.receipt, q.op.sig, q.now);
  }

  lemma CountersignCompletes(env: Env, w: World, caller: Id, id: ReceiptId, sig: Signature, now: Time)
    requires Inv(env, w) && Countersign(env, w, caller, id, sig, now).Ok?
    ensures Settles(w.jobs, Countersign(env, w, caller, id, sig, now).value.jobs, w.receipts[id].content.jobId, id)
  {
    hide SuccessionsLogged, LineagesApart, VerificationsOk, AgentsOk;
    CountersignKeeps(env, w, caller, id, sig, now);
  }

  /** The job of a countersigned receipt is over, whichever way. */
  ghost predicate Settled(w: World) {
    forall id | id in w.receipts && w.receipts[id].status != Draft && w.receipts[id].content.jobId in w.jobs ::
      Terminal(w.jobs[w.receipts[id].content.jobId].status)
  }

  lemma ApplySettled(env: Env, w: World, caller: Id, op: Op, now: Time)
    requires Inv(env, w) && Settled(w) && FreshJob(w, op) && Apply(env, w, caller, op, now).Ok?
    ensures Settled(Apply(env, w, caller, op, now).value)
  {
    hide AgentsOk, ReceiptsOk, JobsKnown, SuccessionsLogged, LineagesApart, VerificationsOk, ReceiptsLogged, JobsOk;
    if op.Sign? {
      CountersignCompletes(env, w, caller, op.receipt, op.sig, now);
    }
  }

  lemma {:induction false} RunSettled(env: Env, w: World, qs: List<Request>, w': World)
    requires Inv(env, w) && Settled(w) && Run(env, w, qs, w')
    ensures Settled(w')
    decreases qs
  {
    hide Inv, Settled, Apply;
    if qs.Cons? {
      var q := qs.head;
      var active := ActivateRows(w, q.rows);
      ServeInv(env, w, q);
      ActivationInv(env, w, q.arrival, q.rows);
      ActivationTouchesIdentitiesOnly(w, q.rows);
      SettledByTables(w, active);
      if Apply(env, active, q.caller, q.op, q.now).Ok? {
        ApplySettled(env, active, q.caller, q.op, q.now);
      }
      RunSettled(env, Serve(env, w, q).0, qs.tail, w');
    }
  }

  lemma SettledByTables(w: World, w': World)
    requires w'.jobs == w.jobs && w'.receipts == w.receipts
    ensures Settled(w') <==> Settled(w)
  {}

  /** In every reachable registry a countersigned receipt's job is over, so nobody can report
      non-performance, or cancel, on work that both parties have signed for. */
  lemma CountersignedWorkIsSettled(env: Env, w: World, id: ReceiptId, caller: Id, now: Time)
    requires Reachable(env, w) && id in w.receipts && w.receipts[id].status != Draft
    requires w.receipts[id].content.jobId in w.jobs
    ensures var j := w.receipts[id].content.jobId;
      && Terminal(w.jobs[j].status)
      && ReportNonPerformance(w, caller, j, now).Err? && CancelJob(w, caller, j).Err?
  {
    hide Inv;
    EmptyInv(env);
    var qs :| Run(env, EMPTY, qs, w);
    RunSettled(env, EMPTY, qs, w);
  }

  // ---------------------------------------------------------------- disputes end

  /** Every opening and every resolving step uses up one of the four a receipt has. */
  lemma DisputeStepsRunOut(env: Env, w: World, caller: Id, op: Op, now: Time)
    requires Reachable(env, w) && (op.Contest? || op.Withdraw?) && Apply(env, w, caller, op, now).Ok?
    ensures var w' := Apply(env, w, caller, op, now).value;
      && op.receipt in w.receipts && op.receipt in w'.receipts
      && 0 <= StepsLeft(w'.receipts[op.receipt]) == StepsLeft(w.receipts[op.receipt]) - 1
      && StepsLeft(w.receipts[op.receipt]) <= 4
  {
    ReachableInv(env, w);
    var w' := Apply(env, w, caller, op, now).value;
    if op.Contest? {
      OpenKeeps(env, w, caller, op.receipt, now, op.stamp);
    } else {
      ResolveKeeps(env, w, caller, op.receipt);
    }
    var r' := w'.receipts[op.receipt];
    assert ReceiptOk(env, w'.agents, op.receipt, r');
    AtMostTwoParties(r'.content, r'.dispute.usedBy);
  }

  ghost predicate DeadlineBounded(r: Receipt, gap: Time) {
    r.dispute.deadline.Some? ==>
      r.dispute.windowClosesAt.Some? && r.dispute.deadline.value < r.dispute.windowClosesAt.value + DISPUTE_WINDOW + gap
  }

  ghost predicate DeadlinesBounded(receipts: map<ReceiptId, Receipt>, gap: Time) {
    forall id | id in receipts :: DeadlineBounded(receipts[id], gap)
  }

  /** The two clock readings of every dispute opening are at most `gap` apart. */
  ghost predicate StampsWithin(qs: List<Request>, gap: Time) {
    qs.Cons? ==> (qs.head.op.Contest? ==> qs.head.op.stamp <= qs.head.now + gap) && StampsWithin(qs.tail, gap)
  }

  lemma ServeDeadlines(env: Env, w: World, q: Request, gap: Time)
    requires AllPending(q.rows) && DeadlinesBounded(w.receipts, gap)
    requires q.op.Contest? ==> q.op.stamp <= q.now + gap
    ensures DeadlinesBounded(Serve(env, w, q).0.receipts, gap)
  {
    hide DeadlinesBounded, Apply;
    ActivationTouchesIdentitiesOnly(w, q.rows);
    var active := ActivateRows(w, q.rows);
    if Apply(env, active, q.caller, q.op, q.now).Ok? {
      ApplyDeadlines(env, active, q.caller, q.op, q.now, gap);
    }
  }

  lemma ApplyDeadlines(env: Env, w: World, caller: Id, op: Op, now: Time, gap: Time)
    requires DeadlinesBounded(w.receipts, gap) && (op.Contest? ==> op.stamp <= now + gap)
    requires Apply(env, w, caller, op, now).Ok?
    ensures DeadlinesBounded(Apply(env, w, caller, op, now).value.receipts, gap)
  {
    var receipts' := Apply(env, w, caller, op, now).value.receipts;
    forall id | id in receipts'
      ensures DeadlineBounded(receipts'[id], gap)
    {
      assert id in w.receipts ==> DeadlineBounded(w.receipts[id], gap);
    }
  }

  lemma {:induction false} RunDeadlines(env: Env, w: World, qs: List<Request>, w': World, gap: Time)
    requires Run(env, w, qs, w') && DeadlinesBounded(w.receipts, gap) && StampsWithin(qs, gap)
    ensures DeadlinesBounded(w'.receipts, gap)
    decreases qs
  {
    if qs.Cons? {
      ServeDeadlines(env, w, qs.head, gap);
      RunDeadlines(env, Serve(env, w, qs.head).0, qs.tail, w', gap);
    }
  }

  /** Over every run: once a receipt is countersigned at time t, no dispute on it is active at or
      after t + 144 h, give or take the time an opening request takes between its two clock reads. */
  lemma {:induction false} DisputesEnd(env: Env, qs: List<Request>, w: World, q: Request, qs': List<Request>,
      w': World, gap: Time, at: Time)
    requires Run(env, EMPTY, qs, w) && Possible(w, q) && Run(env, Serve(env, w, q).0, qs', w')
    requires StampsWithin(qs, gap) && StampsWithin(qs', gap)
    requires q.op.Sign? && Serve(env, w, q).1.None?
    requires at >= q.now + 2 * DISPUTE_WINDOW + gap
    ensures q.op.receipt in w'.receipts && !DisputeActive(w'.receipts[q.op.receipt], at)
  {
    hide Inv, Serve, Evolves, ReceiptOk, DisputeOk, DueRows, Run, StampsWithin;
    var id, w1 := q.op.receipt, Serve(env, w, q).0;
    EmptyInv(env);
    RunInv(env, EMPTY, qs, w);
    ServeInv(env, w, q);
    RunInv(env, w1, qs', w');
    CountersignSetsWindow(env, w, q);
    RunDeadlines(env, EMPTY, qs, w, gap);
    ServeDeadlinesUnlessContest(env, w, q, gap);
    RunDeadlines(env, w1, qs', w', gap);
    FixedWindowEndsDisputes(env, w1, w', id, q.now + DISPUTE_WINDOW, gap, at);
  }

  lemma CountersignSetsWindow(env: Env, w: World, q: Request)
    requires AllPending(q.rows) && q.op.Sign? && Serve(env, w, q).1.None?
    ensures var w1 := Serve(env, w, q).0;
      && q.op.receipt in w1.receipts && w1.receipts[q.op.receipt].status == Finalized
      && w1.receipts[q.op.receipt].dispute.windowClosesAt == Some(q.now + DISPUTE_WINDOW)
  {}

  lemma ServeDeadlinesUnlessContest(env: Env, w: World, q: Request, gap: Time)
    requires Possible(w, q) && DeadlinesBounded(w.receipts, gap) && !q.op.Contest?
    ensures DeadlinesBounded(Serve(env, w, q).0.receipts, gap)
  {
    ServeDeadlines(env, w, q, gap);
  }

  lemma FixedWindowEndsDisputes(env: Env, w: World, w': World, id: ReceiptId, closes: Time, gap: Time, at: Time)
    requires Inv(env, w') && Evolves(w, w') && id in w.receipts && w.receipts[id].status != Draft
    requires w.receipts[id].dispute.windowClosesAt == Some(closes) && DeadlinesBounded(w'.receipts, gap)
    requires at >= closes + DISPUTE_WINDOW + gap
    ensures id in w'.receipts && !DisputeActive(w'.receipts[id], at)
  {
    assert ReceiptEvolves(w.receipts[id], w'.receipts[id]);
    assert ReceiptOk(env, w'.agents, id, w'.receipts[id]);
    assert DeadlineBounded(w'.receipts[id], gap);
  }

  /** The gap is real: a dispute outlasts 144 h if and only if the second clock read of its opening
      falls after the window the first one found open. */
  lemma OutlastsBoundExactly(w: World, caller: Id, id: ReceiptId, now: Time, stamp: Time)
    requires OpenADispute(w, caller, id, now, stamp).Ok?
    ensures var closes := w.receipts[id].dispute.windowClosesAt.value;
      var r' := OpenADispute(w, caller, id, now, stamp).value.receipts[id];
      (exists t | t >= closes + DISPUTE_WINDOW :: DisputeActive(r', t)) <==> stamp > closes
  {
    var closes := w.receipts[id].dispute.windowClosesAt.value;
    var r' := OpenADispute(w, caller, id, now, stamp).value.receipts[id];
    if stamp > closes {
      assert DisputeActive(r', closes + DISPUTE_WINDOW);
    }
  }
}
