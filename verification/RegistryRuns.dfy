/** The invariant of the registry, and its preservation by every request.

    It couples identities, jobs, receipts, verifications and the log: who is known, which receipts
    back which jobs, which log entries stand for what, and that no receipt joins two IDs of one
    lineage.  Each operation is treated by the part of the state it writes, so that the rest of
    the invariant is carried over by framing lemmas; `Evolves` records what no step ever takes
    back. */
module RegistryRuns {
  import opened Options
  import opened Lists
  import opened Succession
  import opened Registry
  import opened AgentLifecycle
  import opened ReceiptLifecycle

  // ---------------------------------------------------------------- parties and lineages

  /** The worker is never an ancestor of the requester; the requester is an ancestor of the worker
      only on a draft it can no longer countersign. */
  ghost predicate PartiesApart(agents: map<Id, Agent>, r: Receipt) {
    && !Reaches(Links(agents), r.content.b, r.content.a)
    && (Reaches(Links(agents), r.content.a, r.content.b) ==> r.status == Draft && r.content.a in Links(agents))
  }

  ghost predicate LineagesApart(agents: map<Id, Agent>, receipts: map<ReceiptId, Receipt>) {
    forall id | id in receipts :: PartiesApart(agents, receipts[id])
  }

  lemma LiveReachesNobody(agents: map<Id, Agent>, x: Id, y: Id)
    requires x !in Links(agents) && x != y
    ensures !Reaches(Links(agents), x, y)
    ensures Reaches(Links(agents), y, x) ==> y in Links(agents)
  {
    forall n: nat
      ensures Follow(Links(agents), x, n) == x
      ensures y !in Links(agents) ==> Follow(Links(agents), y, n) == y
    {
      FollowEnd(Links(agents), x, n);
      if y !in Links(agents) {
        FollowEnd(Links(agents), y, n);
      }
    }
  }

  lemma ApartAsAgentsEvolve(before: map<Id, Agent>, after: map<Id, Agent>, r: Receipt)
    requires SameDescent(before, after) && AgentsEvolve(before, after) && PartiesApart(before, r)
    requires r.content.a in before && r.content.b in before
    ensures PartiesApart(after, r)
  {
    var m, m' := Links(before), Links(after);
    assert Reaches(m', r.content.b, r.content.a) <==> Reaches(m, r.content.b, r.content.a);
    assert Reaches(m', r.content.a, r.content.b) <==> Reaches(m, r.content.a, r.content.b);
    assert r.content.a in m ==> r.content.a in m';
  }

  // ---------------------------------------------------------------- verifications

  /** Each record is an independent party's decision on a countersigned receipt, one per verifier. */
  ghost predicate VerificationsOk(env: Env, agents: map<Id, Agent>, receipts: map<ReceiptId, Receipt>,
      vs: map<VerificationId, Verification>)
  {
    && (forall v | v in vs ::
          && env.verificationId(vs[v]) == v
          && vs[v].verifier in agents
          && vs[v].receiptId in receipts
          && receipts[vs[v].receiptId].status != Draft
          && !Party(receipts[vs[v].receiptId].content, vs[v].verifier)
          && receipts[vs[v].receiptId].content.outputHash == vs[v].outputHash)
    && (forall v, u {:trigger vs[v].verifier, vs[u].verifier} |
          v in vs && u in vs && vs[v].receiptId == vs[u].receiptId && vs[v].verifier == vs[u].verifier :: v == u)
  }

  lemma VerificationsAsReceiptsEvolve(env: Env, agents: map<Id, Agent>, before: map<ReceiptId, Receipt>,
      after: map<ReceiptId, Receipt>,
      vs: map<VerificationId, Verification>)
    requires VerificationsOk(env, agents, before, vs) && ReceiptsEvolve(before, after)
    ensures VerificationsOk(env, agents, after, vs)
  {
    hide StepsLeft;
    forall v | v in vs
      ensures vs[v].receiptId in after && ReceiptEvolves(before[vs[v].receiptId], after[vs[v].receiptId])
    {
      assert vs[v].receiptId in before;
    }
  }

  // ---------------------------------------------------------------- log entries about successions

  function FindAgent(agents: map<Id, Agent>, id: Id): Option<Agent> {
    if id in agents then Some(agents[id]) else None
  }

  function Awaiting(agent: Option<Agent>, s: Id): nat {
    if agent.Some? && NamesSuccessor(agent.value, s) then 1 else 0
  }

  /** Absent before, and without a succession after. */
  predicate Newcomer(before: Option<Agent>, after: Option<Agent>) {
    before.None? && after.Some? && after.value.succeededBy.None? && after.value.pending.None?
  }

  /** One succeeded entry exactly when p was succeeded by s.  Every requested succession of p to s
      was activated, was cancelled, or is the one now pending. */
  ghost predicate SuccessionLogged(counts: multiset<LogEntry>, p: Id, s: Id, agent: Option<Agent>) {
    && counts[AgentSucceeded(p, s)] == (if agent.Some? && agent.value.succeededBy == Some(s) then 1 else 0)
    && counts[SuccessionPending(p, s)] == counts[AgentSucceeded(p, s)] + counts[SuccessionCancelled(p, s)]
        + Awaiting(agent, s)
    && counts[SuccessionCancelled(p, s)] <= 1
    && (counts[SuccessionCancelled(p, s)] == 1 ==> agent.Some? && agent.value.revokedAt.Some?)
  }

  ghost predicate SuccessionsLogged(log: seq<LogEntry>, agents: map<Id, Agent>) {
    forall p, s :: SuccessionLogged(multiset(log), p, s, FindAgent(agents, p))
  }

  predicate AboutSuccession(e: LogEntry, p: Id) {
    (e.SuccessionPending? || e.SuccessionCancelled? || e.AgentSucceeded?) && e.agent == p
  }

  lemma OtherSuccessionsLogged(log: seq<LogEntry>, agents: map<Id, Agent>, p: Id, log': seq<LogEntry>, agents': map<Id,
      Agent>)
    requires SuccessionsLogged(log, agents)
    requires forall s :: SuccessionLogged(multiset(log'), p, s, FindAgent(agents', p))
    requires forall e | !AboutSuccession(e, p) :: multiset(log')[e] == multiset(log)[e]
    requires forall q | q != p ::
      FindAgent(agents', q) == FindAgent(agents, q) || Newcomer(FindAgent(agents, q), FindAgent(agents', q))
    ensures SuccessionsLogged(log', agents')
  {
    forall q, s
      ensures SuccessionLogged(multiset(log'), q, s, FindAgent(agents', q))
    {
      assert SuccessionLogged(multiset(log), q, s, FindAgent(agents, q));
    }
  }

  // ---------------------------------------------------------------- the invariant

  ghost predicate Inv(env: Env, w: World) {
    && AgentsOk(w.agents)
    && ReceiptsOk(env, w.agents, w.receipts)
    && JobsOk(w.jobs, w.receipts)
    && JobsKnown(w.agents, w.jobs)
    && ReceiptsLogged(w.log, w.receipts)
    && LineagesApart(w.agents, w.receipts)
    && VerificationsOk(env, w.agents, w.receipts, w.verifications)
    && SuccessionsLogged(w.log, w.agents)
  }

  /** What a later state keeps of an earlier one. */
  ghost predicate Evolves(w: World, w': World) {
    && AgentsEvolve(w.agents, w'.agents)
    && SameDescent(w.agents, w'.agents)
    && ReceiptsEvolve(w.receipts, w'.receipts)
    && JobsEvolve(w.jobs, w'.jobs)
    && (forall v | v in w.verifications :: v in w'.verifications && w'.verifications[v] == w.verifications[v])
    && w.log <= w'.log
  }

  lemma EvolvesTransitive(x: World, y: World, z: World)
    requires Evolves(x, y) && Evolves(y, z)
    ensures Evolves(x, z)
  {
    hide AgentsEvolve, SameDescent, ReceiptsEvolve, JobsEvolve;
    AgentsEvolveTransitive(x.agents, y.agents, z.agents);
    SameDescentTransitive(x.agents, y.agents, z.agents);
    ReceiptsEvolveTransitive(x.receipts, y.receipts, z.receipts);
    JobsEvolveTransitive(x.jobs, y.jobs, z.jobs);
  }

  lemma NothingChanges(w: World)
    ensures Evolves(w, w)
  {}

  // ---------------------------------------------------------------- steps that change identities

  lemma LinksUnchanged(before: map<Id, Agent>, after: map<Id, Agent>)
    requires Links(after) == Links(before)
    ensures SameDescent(before, after)
  {}

  /** A change of identities carries everything said about receipts along. */
  lemma AgentChangeKeeps(env: Env, w: World, w': World)
    requires Inv(env, w) && AgentsOk(w'.agents) && AgentsEvolve(w.agents, w'.agents) && SameDescent(w.agents, w'.agents)
    requires w'.receipts == w.receipts && w'.jobs == w.jobs && w'.verifications == w.verifications
    requires w.log <= w'.log && ReceiptsLogged(w'.log, w.receipts) && SuccessionsLogged(w'.log, w'.agents)
    ensures Inv(env, w') && Evolves(w, w')
  {
    hide SameDescent, ReceiptLogged, SuccessionLogged, DisputeOk, JobOk, PartiesApart, JobsKnown;
    JobsKnownGrow(w.agents, w'.agents, w.jobs);
    forall id | id in w.receipts
      ensures ReceiptOk(env, w'.agents, id, w.receipts[id])
      ensures PartiesApart(w'.agents, w.receipts[id])
    {
      assert ReceiptOk(env, w.agents, id, w.receipts[id]);
      ApartAsAgentsEvolve(w.agents, w'.agents, w.receipts[id]);
    }
  }

  lemma AgentLogged(log: seq<LogEntry>, agents: map<Id, Agent>, p: Id, e: LogEntry, agents': map<Id, Agent>)
    requires SuccessionsLogged(log, agents) && AboutSuccession(e, p)
    requires forall s :: SuccessionLogged(multiset(log) + multiset{e}, p, s, FindAgent(agents', p))
    requires forall q | q != p ::
      FindAgent(agents', q) == FindAgent(agents, q) || Newcomer(FindAgent(agents, q), FindAgent(agents', q))
    ensures SuccessionsLogged(log + [e], agents')
  {
    CountAppended(log, e);
    OtherSuccessionsLogged(log, agents, p, log + [e], agents');
  }

  lemma ActivationLogged(w: World, p: Id)
    requires SuccessionsLogged(w.log, w.agents) && AgentsOk(w.agents) && p in w.agents && w.agents[p].pending.Some?
    ensures SuccessionsLogged(ActivateOne(w, p, w.agents[p]).log, ActivateOne(w, p, w.agents[p]).agents)
  {
    var s := w.agents[p].pending.value.successor;
    var w' := ActivateOne(w, p, w.agents[p]);
    assert AtMostOne(w.agents[p]) && NamesSuccessor(w.agents[p], s);
    forall t
      ensures SuccessionLogged(multiset(w.log) + multiset{AgentSucceeded(p, s)}, p, t, FindAgent(w'.agents, p))
    {
      assert SuccessionLogged(multiset(w.log), p, t, FindAgent(w.agents, p));
    }
    AgentLogged(w.log, w.agents, p, AgentSucceeded(p, s), w'.agents);
  }

  lemma ActivateOneInv(env: Env, w: World, p: Id)
    requires Inv(env, w) && p in w.agents && w.agents[p].pending.Some?
    ensures Inv(env, ActivateOne(w, p, w.agents[p])) && Evolves(w, ActivateOne(w, p, w.agents[p]))
  {
    hide SameDescent, ReceiptLogged, SuccessionsLogged;
    var w' := ActivateOne(w, p, w.agents[p]);
    ActivateOneKeeps(w, p);
    ActivateOneDescent(w, p);
    ActivationLogged(w, p);
    OtherEntriesDoNotCount(w.log, AgentSucceeded(p, w.agents[p].pending.value.successor), w.receipts);
    AgentChangeKeeps(env, w, w');
  }

  lemma {:induction false} ActivationInv(env: Env, w: World, now: Time, rows: List<(Id, Agent)>)
    requires Inv(env, w) && RowsMatch(w.agents, now, rows) && AllPending(rows)
    ensures Inv(env, ActivateRows(w, rows)) && Evolves(w, ActivateRows(w, rows))
    decreases rows
  {
    hide Inv, Evolves;
    if rows.Nil? {
      NothingChanges(w);
    } else {
      var p := rows.head.0;
      var w1 := ActivateOne(w, p, w.agents[p]);
      ActivateOneInv(env, w, p);
      NextRowsMatch(env, w, now, rows);
      ActivationInv(env, w1, now, rows.tail);
      EvolvesTransitive(w, w1, ActivateRows(w1, rows.tail));
    }
  }

  lemma NextRowsMatch(env: Env, w: World, now: Time, rows: List<(Id, Agent)>)
    requires Inv(env, w) && RowsMatch(w.agents, now, rows) && rows.Cons?
    ensures RowsMatch(ActivateOne(w, rows.head.0, rows.head.1).agents, now, rows.tail)
  {
    var p := rows.head.0;
    ActivateOneKeeps(w, p);
    RowsStayCurrent(w.agents, ActivateOne(w, p, w.agents[p]).agents, p, now, rows.tail);
  }

  lemma RegisterLogged(w: World, caller: Id, profile: Profile)
    requires SuccessionsLogged(w.log, w.agents) && caller !in w.agents
    ensures SuccessionsLogged(w.log, w.agents[caller := NewAgent(profile, None)])
  {
    forall s
      ensures SuccessionLogged(multiset(w.log), caller, s, Some(NewAgent(profile, None)))
    {
      assert SuccessionLogged(multiset(w.log), caller, s, FindAgent(w.agents, caller));
    }
    OtherSuccessionsLogged(w.log, w.agents, caller, w.log, w.agents[caller := NewAgent(profile, None)]);
  }

  lemma StatusLogged(w: World, target: Id, authorized: bool)
    requires SuccessionsLogged(w.log, w.agents) && target in w.agents
    ensures SuccessionsLogged(w.log + [VerifierStatusChanged(target, authorized)],
                              w.agents[target := w.agents[target].(isVerifier := authorized)])
  {
    var log', agents' := w.log + [VerifierStatusChanged(target, authorized)],
        w.agents[target := w.agents[target].(isVerifier := authorized)];
    CountAppended(w.log, VerifierStatusChanged(target, authorized));
    forall p, s
      ensures SuccessionLogged(multiset(log'), p, s, FindAgent(agents', p))
    {
      assert SuccessionLogged(multiset(w.log), p, s, FindAgent(w.agents, p));
    }
  }

  lemma RevokeLogged(w: World, caller: Id, at: Time)
    requires SuccessionsLogged(w.log, w.agents) && RevokeAgent(w, caller, at).Ok?
    ensures var w' := RevokeAgent(w, caller, at).value; SuccessionsLogged(w'.log, w'.agents)
  {
    var record, w' := w.agents[caller], RevokeAgent(w, caller, at).value;
    if record.pending.Some? {
      var e := SuccessionCancelled(caller, record.pending.value.successor);
      forall s
        ensures SuccessionLogged(multiset(w.log) + multiset{e}, caller, s, FindAgent(w'.agents, caller))
      {
        assert SuccessionLogged(multiset(w.log), caller, s, FindAgent(w.agents, caller));
      }
      AgentLogged(w.log, w.agents, caller, e, w'.agents);
    } else {
      forall s
        ensures SuccessionLogged(multiset(w.log), caller, s, FindAgent(w'.agents, caller))
      {
        assert SuccessionLogged(multiset(w.log), caller, s, FindAgent(w.agents, caller));
      }
      OtherSuccessionsLogged(w.log, w.agents, caller, w.log, w'.agents);
    }
  }

  lemma RequestLogged(env: Env, w: World, caller: Id, s: Id, sigP: Signature, sigS: Signature, now: Time)
    requires SuccessionsLogged(w.log, w.agents) && RequestSuccession(env, w, caller, s, sigP, sigS, now).Ok?
    ensures var w' := RequestSuccession(env, w, caller, s, sigP, sigS, now).value; SuccessionsLogged(w'.log, w'.agents)
  {
    var w' := RequestSuccession(env, w, caller, s, sigP, sigS, now).value;
    var e := SuccessionPending(caller, s);
    forall t
      ensures SuccessionLogged(multiset(w.log) + multiset{e}, caller, t, FindAgent(w'.agents, caller))
    {
      assert SuccessionLogged(multiset(w.log), caller, t, FindAgent(w.agents, caller));
    }
    AgentLogged(w.log, w.agents, caller, e, w'.agents);
  }

  predicate AgentOp(op: Op) {
    op.Register? || op.SetVerifier? || op.Revoke? || op.Succeed?
  }

  lemma AgentOpLogged(env: Env, w: World, caller: Id, op: Op, now: Time)
    requires SuccessionsLogged(w.log, w.agents) && AgentOp(op) && Apply(env, w, caller, op, now).Ok?
    ensures var w' := Apply(env, w, caller, op, now).value; SuccessionsLogged(w'.log, w'.agents)
  {
    hide SuccessionsLogged;
    match op
    case Register(profile) => RegisterLogged(w, caller, profile);
    case SetVerifier(target, authorized) => StatusLogged(w, target, authorized);
    case Revoke => RevokeLogged(w, caller, now);
    case Succeed(s, sigP, sigS) => RequestLogged(env, w, caller, s, sigP, sigS, now);
  }

  lemma AgentOpAgents(env: Env, w: World, caller: Id, op: Op, now: Time)
    requires AgentsOk(w.agents) && AgentOp(op) && Gate(w.agents, caller).None? && Apply(env, w, caller, op, now).Ok?
    ensures var w' := Apply(env, w, caller, op, now).value;
      AgentsOk(w'.agents) && AgentsEvolve(w.agents, w'.agents) && Links(w'.agents) == Links(w.agents)
  {
    if op.Register? {
      RegisterKeeps(w, caller, op.profile);
    } else {
      var id := if op.SetVerifier? then op.target else caller;
      var record := Apply(env, w, caller, op, now).value.agents[id];
      assert AtMostOne(w.agents[id]);
      UpdateKeeps(w.agents, id, record);
    }
  }

  lemma AgentOpReceiptsLogged(env: Env, w: World, caller: Id, op: Op, now: Time)
    requires ReceiptsLogged(w.log, w.receipts) && AgentOp(op) && Apply(env, w, caller, op, now).Ok?
    ensures var w' := Apply(env, w, caller, op, now).value; w.log <= w'.log && ReceiptsLogged(w'.log, w.receipts)
  {
    hide ReceiptsLogged;
    var w' := Apply(env, w, caller, op, now).value;
    if |w'.log| > |w.log| {
      OtherEntriesDoNotCount(w.log, w'.log[|w.log|], w.receipts);
    }
  }

  lemma AgentOpInv(env: Env, w: World, caller: Id, op: Op, now: Time)
    requires Inv(env, w) && AgentOp(op) && Gate(w.agents, caller).None? && Apply(env, w, caller, op, now).Ok?
    ensures var w' := Apply(env, w, caller, op, now).value; Inv(env, w') && Evolves(w, w')
  {
    hide SameDescent, ReceiptsLogged, SuccessionsLogged, AgentsOk, AgentsEvolve, ReceiptsOk, JobsOk;
    var w' := Apply(env, w, caller, op, now).value;
    AgentOpLogged(env, w, caller, op, now);
    AgentOpAgents(env, w, caller, op, now);
    AgentOpReceiptsLogged(env, w, caller, op, now);
    LinksUnchanged(w.agents, w'.agents);
    AgentChangeKeeps(env, w, w');
  }

  // ---------------------------------------------------------------- steps that change jobs and receipts

  lemma SuccessionsIgnore(log: seq<LogEntry>, e: LogEntry, agents: map<Id, Agent>)
    requires SuccessionsLogged(log, agents) && (AboutReceipts(e) || e.NonPerformanceReported?)
    ensures SuccessionsLogged(log + [e], agents)
  {
    CountAppended(log, e);
    forall p, s
      ensures SuccessionLogged(multiset(log + [e]), p, s, FindAgent(agents, p))
    {
      assert SuccessionLogged(multiset(log), p, s, FindAgent(agents, p));
    }
  }

  lemma SuccessionsIgnoreStep(env: Env, w: World, caller: Id, op: Op, now: Time)
    requires SuccessionsLogged(w.log, w.agents) && !AgentOp(op) && Apply(env, w, caller, op, now).Ok?
    ensures var w' := Apply(env, w, caller, op, now).value;
      w'.agents == w.agents && w.log <= w'.log && SuccessionsLogged(w'.log, w.agents)
  {
    hide SuccessionsLogged;
    var w' := Apply(env, w, caller, op, now).value;
    if |w'.log| > |w.log| {
      SuccessionsIgnore(w.log, w'.log[|w.log|], w.agents);
    }
  }

  predicate JobOp(op: Op) {
    op.Post? || op.Offer? || op.Accept? || op.Cancel? || op.Report?
  }

  lemma JobOpInv(env: Env, w: World, caller: Id, op: Op, now: Time)
    requires Inv(env, w) && JobOp(op) && FreshJob(w, op) && Apply(env, w, caller, op, now).Ok?
    ensures var w' := Apply(env, w, caller, op, now).value; Inv(env, w') && Evolves(w, w')
  {
    hide ReceiptsLogged, SuccessionsLogged, JobsOk, JobsKnown, JobsEvolve, AgentsOk, ReceiptsOk, SameDescent,
        VerificationsOk, LineagesApart;
    var w' := Apply(env, w, caller, op, now).value;
    JobsKnownKept(env, w, caller, op, now);
    SuccessionsIgnoreStep(env, w, caller, op, now);
    LinksUnchanged(w.agents, w'.agents);
    if op.Report? {
      OtherEntriesDoNotCount(w.log, NonPerformanceReported(op.job), w.receipts);
    }
    if op.Post? {
      PostKeeps(w, caller, op.newJob, op.expiresAt);
    } else {
      JobOpKeeps(env, w, caller, op, now);
    }
  }

  predicate ReceiptOp(op: Op) {
    op.Submit? || op.Sign? || op.Contest? || op.Withdraw?
  }

  lemma JobsStay(jobs: map<JobId, Job>)
    ensures JobsEvolve(jobs, jobs)
  {}

  lemma ReceiptOpKeeps(env: Env, w: World, caller: Id, op: Op, now: Time)
    requires Inv(env, w) && ReceiptOp(op) && Apply(env, w, caller, op, now).Ok?
    ensures var w' := Apply(env, w, caller, op, now).value;
      && ReceiptsOk(env, w'.agents, w'.receipts) && JobsOk(w'.jobs, w'.receipts) && ReceiptsLogged(w'.log, w'.receipts)
      && ReceiptsEvolve(w.receipts, w'.receipts) && JobsEvolve(w.jobs, w'.jobs)
  {
    hide ReceiptsLogged, JobsOk, ReceiptsOk, ReceiptsEvolve, JobsEvolve;
    JobsStay(w.jobs);
    match op
    case Submit(content, sig) => DraftKeeps(env, w, caller, content, sig, now);
    case Sign(id, sig) => CountersignKeeps(env, w, caller, id, sig, now);
    case Contest(id, stamp) => OpenKeeps(env, w, caller, id, now, stamp);
    case Withdraw(id) => ResolveKeeps(env, w, caller, id);
  }

  /** The gate does the work: the worker of a new draft and the signer of a countersignature are live. */
  lemma ReceiptOpApart(env: Env, w: World, caller: Id, op: Op, now: Time)
    requires Inv(env, w) && Gate(w.agents, caller).None? && ReceiptOp(op) && Apply(env, w, caller, op, now).Ok?
    ensures LineagesApart(w.agents, Apply(env, w, caller, op, now).value.receipts)
  {
    hide Reaches, ReceiptsLogged, SuccessionsLogged, JobsOk, VerificationsOk;
    var receipts' := Apply(env, w, caller, op, now).value.receipts;
    assert caller !in Links(w.agents);
    forall id | id in receipts'
      ensures PartiesApart(w.agents, receipts'[id])
    {
      var r := receipts'[id];
      if id in w.receipts {
        assert PartiesApart(w.agents, w.receipts[id]);
      }
      if op.Submit? && id !in w.receipts {
        LiveReachesNobody(w.agents, caller, r.content.a);
      }
      if op.Sign? && op.receipt == id {
        assert ReceiptOk(env, w.agents, id, w.receipts[id]);
        LiveReachesNobody(w.agents, caller, r.content.b);
      }
    }
  }

  lemma {:induction false} ReceiptOpInv(env: Env, w: World, caller: Id, op: Op, now: Time)
    requires Inv(env, w) && Gate(w.agents, caller).None? && ReceiptOp(op) && Apply(env, w, caller, op, now).Ok?
    ensures var w' := Apply(env, w, caller, op, now).value; Inv(env, w') && Evolves(w, w')
  {
    hide ReceiptsLogged, SuccessionsLogged, JobsOk, JobsKnown, JobsEvolve, AgentsOk, ReceiptsOk, ReceiptsEvolve,
        SameDescent, VerificationsOk, LineagesApart;
    var w' := Apply(env, w, caller, op, now).value;
    JobsKnownKept(env, w, caller, op, now);
    SuccessionsIgnoreStep(env, w, caller, op, now);
    LinksUnchanged(w.agents, w'.agents);
    ReceiptOpKeeps(env, w, caller, op, now);
    ReceiptOpApart(env, w, caller, op, now);
    VerificationsAsReceiptsEvolve(env, w.agents, w.receipts, w'.receipts, w.verifications);
  }

  lemma VerifyKeeps(env: Env, w: World, caller: Id, v: Verification, sig: Signature)
    requires VerificationsOk(env, w.agents, w.receipts, w.verifications)
    requires SubmitVerification(env, w, caller, v, sig).Ok?
    ensures VerificationsOk(env, w.agents, w.receipts, w.verifications[env.verificationId(v) := v])
  {}

  lemma VerifyInv(env: Env, w: World, caller: Id, v: Verification, sig: Signature)
    requires Inv(env, w) && SubmitVerification(env, w, caller, v, sig).Ok?
    ensures var w' := SubmitVerification(env, w, caller, v, sig).value; Inv(env, w') && Evolves(w, w')
  {
    hide ReceiptsLogged, SuccessionsLogged, JobsOk, JobsEvolve, AgentsOk, ReceiptsOk, SameDescent, VerificationsOk,
        LineagesApart;
    LinksUnchanged(w.agents, w.agents);
    JobsStay(w.jobs);
    VerifyKeeps(env, w, caller, v, sig);
  }

  // ---------------------------------------------------------------- requests and runs

  lemma {:induction false} ApplyInv(env: Env, w: World, caller: Id, op: Op, now: Time)
    requires Inv(env, w) && Gate(w.agents, caller).None? && FreshJob(w, op) && Apply(env, w, caller, op, now).Ok?
    ensures var w' := Apply(env, w, caller, op, now).value; Inv(env, w') && Evolves(w, w')
  {
    hide Inv, Evolves;
    if AgentOp(op) {
      AgentOpInv(env, w, caller, op, now);
    } else if JobOp(op) {
      JobOpInv(env, w, caller, op, now);
    } else if ReceiptOp(op) {
      ReceiptOpInv(env, w, caller, op, now);
    } else {
      VerifyInv(env, w, caller, op.verification, op.sig);
    }
  }

  lemma {:induction false} ActivationTouchesIdentitiesOnly(w: World, rows: List<(Id, Agent)>)
    requires AllPending(rows)
    ensures var w' := ActivateRows(w, rows);
      w'.jobs == w.jobs && w'.receipts == w.receipts && w'.verifications == w.verifications
    decreases rows
  {
    if rows.Cons? {
      ActivationTouchesIdentitiesOnly(ActivateOne(w, rows.head.0, rows.head.1), rows.tail);
    }
  }

  /** Whatever a request asks, and whether it is refused or not, the invariant survives and the
      state only evolves. */
  lemma ServeInv(env: Env, w: World, q: Request)
    requires Inv(env, w) && Possible(w, q)
    ensures Inv(env, Serve(env, w, q).0) && Evolves(w, Serve(env, w, q).0)
  {
    hide Inv, Evolves;
    var active := ActivateRows(w, q.rows);
    ActivationInv(env, w, q.arrival, q.rows);
    ActivationTouchesIdentitiesOnly(w, q.rows);
    if Gate(active.agents, q.caller).None? && Apply(env, active, q.caller, q.op, q.now).Ok? {
      ApplyInv(env, active, q.caller, q.op, q.now);
      EvolvesTransitive(w, active, Serve(env, w, q).0);
    }
  }

  lemma EmptyInv(env: Env)
    ensures Inv(env, EMPTY)
  {
    assert Links(EMPTY.agents) == map[];
    assert Ranked(Links(EMPTY.agents), x => 0);
    forall id
      ensures ReceiptLogged(multiset(EMPTY.log), id, Find(EMPTY.receipts, id))
    {
    }
    forall p, s
      ensures SuccessionLogged(multiset(EMPTY.log), p, s, FindAgent(EMPTY.agents, p))
    {
    }
  }

  /** Over every run, from any good state, the invariant holds at the end and the state evolved. */
  lemma {:induction false} RunInv(env: Env, w: World, qs: List<Request>, w': World)
    requires Inv(env, w) && Run(env, w, qs, w')
    ensures Inv(env, w') && Evolves(w, w')
    decreases qs
  {
    hide Inv, Evolves;
    if qs.Nil? {
      NothingChanges(w);
    } else {
      ServeInv(env, w, qs.head);
      RunInv(env, Serve(env, w, qs.head).0, qs.tail, w');
      EvolvesTransitive(w, Serve(env, w, qs.head).0, w');
    }
  }
}
