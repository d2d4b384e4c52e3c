/** Who brought about what a registry holds.

    A fact is something a state says that somebody must have been entitled to bring about: that an
    ID is revoked, that a job was accepted, that a receipt is countersigned.  Every request
    establishes only facts its caller is entitled to, so over a run every fact of the last state
    has the granted request that established it. */
module RegistryAuthority {
  import opened Options
  import opened Lists
  import opened Succession
  import opened Registry
  import opened AgentLifecycle
  import opened ReceiptLifecycle
  import opened RegistryRuns
  import opened RegistryGuarantees

  // ---------------------------------------------------------------- facts and their requests

  /** What a state can say that somebody must have been entitled to bring about. */
  datatype Fact =
    | Revoked(agent: Id, at: Time)
    | Awaited(agent: Id, successor: Id, effectiveAt: Time)
    | Appointed(agent: Id)
    | Posted(job: JobId, actor: Id)
    | Offered(job: JobId, actor: Id)
    | Hired(job: JobId, worker: Id)
    | Ended(job: JobId, status: JobStatus)
    | Drafted(receipt: ReceiptId, content: Content, sig: Signature)
    | Agreed(receipt: ReceiptId, sig: Signature)
    | Contested(receipt: ReceiptId, actor: Id)
    | Conceded(receipt: ReceiptId, actor: Id)
    | Attested(id: VerificationId, verification: Verification)

  ghost predicate Holds(w: World, fact: Fact) {
    match fact
    case Revoked(id, at) => id in w.agents && w.agents[id].revokedAt == Some(at)
    case Awaited(p, s, at) => p in w.agents && w.agents[p].pending == Some(Pending(s, at))
    case Appointed(id) => id in w.agents && w.agents[id].isVerifier
    case Posted(id, actor) => id in w.jobs && w.jobs[id].postedBy == actor
    case Offered(id, actor) => id in w.jobs && Contains(w.jobs[id].offers, actor)
    case Hired(id, worker) => id in w.jobs && w.jobs[id].acceptedAgent == Some(worker)
    case Ended(id, status) => id in w.jobs && w.jobs[id].status == status && Terminal(status)
    case Drafted(id, content, sig) => id in w.receipts && w.receipts[id].content == content
        && w.receipts[id].signatureB == sig
    case Agreed(id, sig) => id in w.receipts && w.receipts[id].signatureA == Some(sig)
    case Contested(id, actor) => id in w.receipts && w.receipts[id].dispute.openedBy == Some(actor)
    case Conceded(id, actor) => id in w.receipts && Contains(w.receipts[id].dispute.usedBy, actor)
    case Attested(id, v) => id in w.verifications && w.verifications[id] == v
  }

  /** Whose request it takes, and which: `w` is the registry as that request finds it. */
  ghost predicate Entitles(env: Env, w: World, q: Request, fact: Fact) {
    match fact
    case Revoked(id, at) => q.caller == id && q.op == Revoke && q.now == at
    case Awaited(p, s, at) => q.caller == p && q.op.Succeed? && q.op.successor == s && at == q.now + THREE_DAYS
    case Appointed(id) => env.operator == Some(q.caller) && q.op == SetVerifier(id, true)
    case Posted(id, actor) => q.caller == actor && q.op.Post? && q.op.newJob == id
    case Offered(id, actor) => q.caller == actor && q.op == Offer(id)
    case Hired(id, worker) => PostedBy(w, id, q.caller) && q.op == Accept(id, worker)
    case Ended(id, Cancelled) => PostedBy(w, id, q.caller) && q.op == Cancel(id)
    case Ended(id, NonPerformed) => PostedBy(w, id, q.caller) && q.op == Report(id)
    case Ended(id, _) =>
      PostedBy(w, id, q.caller) && q.op.Sign? && q.op.receipt in w.receipts
          && w.receipts[q.op.receipt].content.jobId == id
    case Drafted(id, content, sig) =>
      && q.caller == content.b && q.op.Submit? && q.op.sig == sig && q.op.content.(b := q.caller) == content
      && env.verify(sig, ReceiptText(content), content.b)
    case Agreed(id, sig) =>
      && q.op == Sign(id, sig) && id in w.receipts && w.receipts[id].content.a == q.caller
      && env.verify(sig, ReceiptText(w.receipts[id].content), q.caller)
    case Contested(id, actor) => q.caller == actor && q.op.Contest? && q.op.receipt == id
    case Conceded(id, actor) => q.caller == actor && q.op == Withdraw(id)
    case Attested(id, v) =>
      && q.caller == v.verifier && q.op.Verify? && q.op.verification == v
      && Holds(w, Appointed(q.caller)) && !Retired(w.agents[q.caller])
  }

  ghost predicate PostedBy(w: World, id: JobId, poster: Id) {
    id in w.jobs && w.jobs[id].postedBy == poster
  }

  /** Some granted request of the run was the one it takes, at the state in which it was served. */
  ghost predicate Caused(env: Env, w: World, qs: List<Request>, fact: Fact)
    decreases qs
  {
    match qs
    case Nil => false
    case Cons(q, rest) =>
      Possible(w, q)
      && ((Serve(env, w, q).1.None? && Entitles(env, ActivateRows(w, q.rows), q, fact))
          || Caused(env, Serve(env, w, q).0, rest, fact))
  }

  // ---------------------------------------------------------------- one request

  /** Activating a due succession establishes none of these facts. */
  lemma {:induction false} ActivationCausesNothing(env: Env, w: World, now: Time, rows: List<(Id, Agent)>, fact: Fact)
    requires Inv(env, w) && RowsMatch(w.agents, now, rows) && AllPending(rows)
    requires Holds(ActivateRows(w, rows), fact)
    ensures Holds(w, fact)
    decreases rows
  {
    hide Inv, Holds;
    if rows.Cons? {
      var p := rows.head.0;
      var w1 := ActivateOne(w, p, w.agents[p]);
      ActivateOneInv(env, w, p);
      NextRowsMatch(env, w, now, rows);
      ActivationCausesNothing(env, w1, now, rows.tail, fact);
      AgentsAreOk(env, w);
      OneActivationCausesNothing(w, p, fact);
    }
  }

  lemma OneActivationCausesNothing(w: World, p: Id, fact: Fact)
    requires AgentsOk(w.agents) && p in w.agents && w.agents[p].pending.Some?
    requires Holds(ActivateOne(w, p, w.agents[p]), fact)
    ensures Holds(w, fact)
  {}

  lemma AgentFactCaused(env: Env, w: World, q: Request, fact: Fact)
    requires fact.Revoked? || fact.Awaited? || fact.Appointed?
    requires Apply(env, w, q.caller, q.op, q.now).Ok? && Holds(Apply(env, w, q.caller, q.op, q.now).value, fact)
    ensures Holds(w, fact) || Entitles(env, w, q, fact)
  {}

  lemma JobFactCaused(env: Env, w: World, q: Request, fact: Fact)
    requires (fact.Posted? || fact.Offered?) && FreshJob(w, q.op)
    requires Apply(env, w, q.caller, q.op, q.now).Ok? && Holds(Apply(env, w, q.caller, q.op, q.now).value, fact)
    ensures Holds(w, fact) || Entitles(env, w, q, fact)
  {
    if q.op.Offer? && fact.Offered? {
      ContainsAppended(w.jobs[q.op.job].offers, q.caller, fact.actor);
    }
  }

  lemma HiringCaused(env: Env, w: World, q: Request, fact: Fact)
    requires fact.Hired? && FreshJob(w, q.op)
    requires Apply(env, w, q.caller, q.op, q.now).Ok? && Holds(Apply(env, w, q.caller, q.op, q.now).value, fact)
    ensures Holds(w, fact) || Entitles(env, w, q, fact)
  {}

  lemma JobEndCaused(env: Env, w: World, q: Request, fact: Fact)
    requires fact.Ended? && JobsOk(w.jobs, w.receipts) && FreshJob(w, q.op)
    requires Apply(env, w, q.caller, q.op, q.now).Ok? && Holds(Apply(env, w, q.caller, q.op, q.now).value, fact)
    ensures Holds(w, fact) || Entitles(env, w, q, fact)
  {
    hide JobOk;
    if q.op.Sign? {
      assert JobMatches(w.receipts[q.op.receipt], w.jobs);
    }
  }

  lemma ReceiptFactCaused(env: Env, w: World, q: Request, fact: Fact)
    requires fact.Drafted? || fact.Agreed?
    requires Apply(env, w, q.caller, q.op, q.now).Ok? && Holds(Apply(env, w, q.caller, q.op, q.now).value, fact)
    ensures Holds(w, fact) || Entitles(env, w, q, fact)
  {}

  lemma DisputeFactCaused(env: Env, w: World, q: Request, fact: Fact)
    requires fact.Contested? || fact.Conceded?
    requires Apply(env, w, q.caller, q.op, q.now).Ok? && Holds(Apply(env, w, q.caller, q.op, q.now).value, fact)
    ensures Holds(w, fact) || Entitles(env, w, q, fact)
  {
    if q.op.Withdraw? && fact.Conceded? {
      ContainsAppended(w.receipts[q.op.receipt].dispute.usedBy, q.caller, fact.actor);
    }
  }

  lemma AttestationCaused(env: Env, w: World, q: Request, fact: Fact)
    requires fact.Attested? && Gate(w.agents, q.caller).None?
    requires Apply(env, w, q.caller, q.op, q.now).Ok? && Holds(Apply(env, w, q.caller, q.op, q.now).value, fact)
    ensures Holds(w, fact) || Entitles(env, w, q, fact)
  {}

  /** A request establishes only what its caller is entitled to; the activations it begins with
      establish nothing, and a refused request neither. */
  lemma ServeCauses(env: Env, w: World, q: Request, fact: Fact)
    requires Inv(env, w) && Possible(w, q) && Holds(Serve(env, w, q).0, fact)
    ensures Holds(w, fact) || (Serve(env, w, q).1.None? && Entitles(env, ActivateRows(w, q.rows), q, fact))
  {
    hide Inv, Holds, Entitles, Apply;
    var active := ActivateRows(w, q.rows);
    ActivationInv(env, w, q.arrival, q.rows);
    ActivationTouchesIdentitiesOnly(w, q.rows);
    if Serve(env, w, q).1.None? {
      JobsAreOk(env, active);
      if fact.Revoked? || fact.Awaited? || fact.Appointed? {
        AgentFactCaused(env, active, q, fact);
      } else if fact.Attested? {
        AttestationCaused(env, active, q, fact);
      } else if fact.Drafted? || fact.Agreed? {
        ReceiptFactCaused(env, active, q, fact);
      } else if fact.Contested? || fact.Conceded? {
        DisputeFactCaused(env, active, q, fact);
      } else if fact.Hired? {
        HiringCaused(env, active, q, fact);
      } else if fact.Ended? {
        JobEndCaused(env, active, q, fact);
      } else {
        JobFactCaused(env, active, q, fact);
      }
    }
    if Holds(active, fact) {
      ActivationCausesNothing(env, w, q.arrival, q.rows, fact);
    }
  }

  lemma JobsAreOk(env: Env, w: World)
    requires Inv(env, w)
    ensures JobsOk(w.jobs, w.receipts)
  {}

  // ---------------------------------------------------------------- every run

  lemma {:induction false} RunCauses(env: Env, w: World, qs: List<Request>, w': World, fact: Fact)
    requires Inv(env, w) && Run(env, w, qs, w') && Holds(w', fact)
    ensures Holds(w, fact) || Caused(env, w, qs, fact)
    decreases qs
  {
    hide Inv, Holds, Entitles, Apply;
    if qs.Cons? {
      ServeInv(env, w, qs.head);
      RunCauses(env, Serve(env, w, qs.head).0, qs.tail, w', fact);
      if Holds(Serve(env, w, qs.head).0, fact) {
        ServeCauses(env, w, qs.head, fact);
      }
    }
  }

  /** Nothing comes from nowhere: whatever a registry says about revocations, pending successions,
      verifiers, jobs, receipts, disputes and verifications, the run that led there has a granted
      request of the one ID entitled to it. */
  lemma EveryFactHasItsRequest(env: Env, qs: List<Request>, w: World, fact: Fact)
    requires Run(env, EMPTY, qs, w) && Holds(w, fact)
    ensures Caused(env, EMPTY, qs, fact)
  {
    EmptyInv(env);
    RunCauses(env, EMPTY, qs, w, fact);
  }

  lemma {:induction false} AttesterAppointed(env: Env, w: World, qs: List<Request>, id: VerificationId, v: Verification)
    requires Inv(env, w) && Caused(env, w, qs, Attested(id, v))
    ensures Holds(w, Appointed(v.verifier)) || Caused(env, w, qs, Appointed(v.verifier))
    decreases qs
  {
    hide Inv, Holds, Apply, Serve;
    var q, fact := qs.head, Appointed(v.verifier);
    if Serve(env, w, q).1.None? && Entitles(env, ActivateRows(w, q.rows), q, Attested(id, v)) {
      ActivationCausesNothing(env, w, q.arrival, q.rows, fact);
    } else {
      ServeInv(env, w, q);
      AttesterAppointed(env, Serve(env, w, q).0, qs.tail, id, v);
      if Holds(Serve(env, w, q).0, fact) {
        ServeCauses(env, w, q, fact);
      }
    }
  }

  /** Every verification a registry holds was submitted by its verifier, and the operator had
      appointed that verifier in the same run. */
  lemma AttestationsTraceToTheOperator(env: Env, qs: List<Request>, w: World, id: VerificationId)
    requires Run(env, EMPTY, qs, w) && id in w.verifications
    ensures Caused(env, EMPTY, qs, Attested(id, w.verifications[id]))
    ensures Caused(env, EMPTY, qs, Appointed(w.verifications[id].verifier))
  {
    EmptyInv(env);
    EveryFactHasItsRequest(env, qs, w, Attested(id, w.verifications[id]));
    AttesterAppointed(env, EMPTY, qs, id, w.verifications[id]);
  }

  // ---------------------------------------------------------------- completed successions

  /** Some request of the run arrives at or after t. */
  predicate ArrivesAfter(qs: List<Request>, t: Time) {
    qs.Cons? && (qs.head.arrival >= t || ArrivesAfter(qs.tail, t))
  }

  /** p's request to be succeeded by s was granted, and the window passed before a later request. */
  ghost predicate WaitedOut(env: Env, w: World, qs: List<Request>, p: Id, s: Id)
    decreases qs
  {
    match qs
    case Nil => false
    case Cons(q, rest) =>
      Possible(w, q)
      && ((Serve(env, w, q).1.None? && q.caller == p && q.op.Succeed? && q.op.successor == s
           && ArrivesAfter(rest, q.now + THREE_DAYS))
          || WaitedOut(env, Serve(env, w, q).0, rest, p, s))
  }

  ghost predicate SucceededBy(w: World, p: Id, s: Id) {
    p in w.agents && w.agents[p].succeededBy == Some(s)
  }

  ghost predicate WaitsOut(w: World, qs: List<Request>, p: Id, s: Id) {
    p in w.agents && NamesSuccessor(w.agents[p], s) && ArrivesAfter(qs, w.agents[p].pending.value.effectiveAt)
  }

  lemma ApplySucceedsNobody(env: Env, w: World, caller: Id, op: Op, now: Time, p: Id, s: Id)
    requires Apply(env, w, caller, op, now).Ok? && SucceededBy(Apply(env, w, caller, op, now).value, p, s)
    ensures SucceededBy(w, p, s)
  {}

  lemma ActivationSucceeds(w: World, now: Time, rows: List<(Id, Agent)>, p: Id, s: Id)
    requires AgentsOk(w.agents) && RowsMatch(w.agents, now, rows) && AllPending(rows)
    requires SucceededBy(ActivateRows(w, rows), p, s)
    ensures SucceededBy(w, p, s) || (p in w.agents && NamesSuccessor(w.agents[p], s) && Due(w.agents[p], now))
  {
    ActivateRowsKeeps(w, now, rows);
    IdsListed(rows, p);
    hide AgentsOk, AgentsEvolve, RowsMatch, ActivateRows, Ids;
    if p in w.agents && Listed(rows, p) {
      ListedIsDue(w.agents, now, rows, p);
    }
  }

  lemma ServeSucceeds(env: Env, w: World, q: Request, p: Id, s: Id)
    requires Inv(env, w) && Possible(w, q) && SucceededBy(Serve(env, w, q).0, p, s)
    ensures SucceededBy(w, p, s)
      || (p in w.agents && NamesSuccessor(w.agents[p], s) && w.agents[p].pending.value.effectiveAt <= q.arrival)
  {
    hide Inv, SucceededBy, Apply;
    var active := ActivateRows(w, q.rows);
    AgentsAreOk(env, w);
    if Serve(env, w, q).1.None? {
      ApplySucceedsNobody(env, active, q.caller, q.op, q.now, p, s);
    }
    ActivationSucceeds(w, q.arrival, q.rows, p, s);
  }

  lemma ServeAwaits(env: Env, w: World, q: Request, rest: List<Request>, p: Id, s: Id)
    requires Inv(env, w) && Possible(w, q) && WaitsOut(Serve(env, w, q).0, rest, p, s)
    ensures WaitsOut(w, Cons(q, rest), p, s)
      || (Serve(env, w, q).1.None? && q.caller == p && q.op.Succeed? && q.op.successor == s
          && ArrivesAfter(rest, q.now + THREE_DAYS))
  {
    hide Inv, Serve;
    ServeCauses(env, w, q, Awaited(p, s, Serve(env, w, q).0.agents[p].pending.value.effectiveAt));
  }

  lemma {:induction false} RunWaitsOut(env: Env, w: World, qs: List<Request>, w': World, p: Id, s: Id)
    requires Inv(env, w) && Run(env, w, qs, w') && SucceededBy(w', p, s)
    ensures SucceededBy(w, p, s) || WaitsOut(w, qs, p, s) || WaitedOut(env, w, qs, p, s)
    decreases qs
  {
    hide Inv, Serve, SucceededBy;
    if qs.Cons? {
      var w1 := Serve(env, w, qs.head).0;
      ServeInv(env, w, qs.head);
      RunWaitsOut(env, w1, qs.tail, w', p, s);
      if SucceededBy(w1, p, s) {
        ServeSucceeds(env, w, qs.head, p, s);
      } else if WaitsOut(w1, qs.tail, p, s) {
        ServeAwaits(env, w, qs.head, qs.tail, p, s);
      }
    }
  }

  /** Nobody is succeeded early or unasked: before p is succeeded by s, p's own request for it was
      granted, and at least the whole window lies between that and the request that activates it. */
  lemma SuccessionWaitsItsWindow(env: Env, qs: List<Request>, w: World, p: Id, s: Id)
    requires Run(env, EMPTY, qs, w) && SucceededBy(w, p, s)
    ensures WaitedOut(env, EMPTY, qs, p, s)
  {
    EmptyInv(env);
    RunWaitsOut(env, EMPTY, qs, w, p, s);
  }

  // ---------------------------------------------------------------- consent

  /** Both keys have signed that p is succeeded by s. */
  ghost predicate Consented(env: Env, p: Id, s: Id) {
    p != s && exists x, y :: env.verify(x, SuccessionStatement(p, s), p) && env.verify(y, SuccessionStatement(p, s), s)
  }

  ghost predicate RecordConsented(env: Env, id: Id, agent: Agent) {
    && (agent.pending.Some? ==> Consented(env, id, agent.pending.value.successor))
    && (agent.succeededBy.Some? ==> Consented(env, id, agent.succeededBy.value))
  }

  ghost predicate LinksConsented(env: Env, agents: map<Id, Agent>) {
    forall id | id in agents :: RecordConsented(env, id, agents[id])
  }

  lemma {:induction false} ActivationConsented(env: Env, w: World, rows: List<(Id, Agent)>, now: Time)
    requires LinksConsented(env, w.agents) && AgentsOk(w.agents) && RowsMatch(w.agents, now, rows) && AllPending(rows)
    ensures LinksConsented(env, ActivateRows(w, rows).agents)
    decreases rows
  {
    hide Consented, LinksMatch, Acyclic;
    if rows.Cons? {
      var p := rows.head.0;
      var w1 := ActivateOne(w, p, w.agents[p]);
      assert RecordConsented(env, p, w.agents[p]);
      assert LinksConsented(env, w1.agents);
      ActivateOneKeeps(w, p);
      RowsStayCurrent(w.agents, w1.agents, p, now, rows.tail);
      ActivationConsented(env, w1, rows.tail, now);
    }
  }

  lemma ApplyConsented(env: Env, w: World, caller: Id, op: Op, now: Time)
    requires LinksConsented(env, w.agents) && Apply(env, w, caller, op, now).Ok?
    ensures LinksConsented(env, Apply(env, w, caller, op, now).value.agents)
  {
    hide Consented;
    if op.Succeed? {
      SignaturesConsent(env, caller, op.successor, op.sigP, op.sigS);
    }
    var after := Apply(env, w, caller, op, now).value.agents;
    forall id | id in after
      ensures RecordConsented(env, id, after[id])
    {
      assert id in w.agents ==> RecordConsented(env, id, w.agents[id]);
    }
  }

  lemma SignaturesConsent(env: Env, p: Id, s: Id, x: Signature, y: Signature)
    ensures SuccessionVerifies(env, p, s, x, y) ==> Consented(env, p, s)
  {}

  lemma {:induction false} RunConsented(env: Env, w: World, qs: List<Request>, w': World)
    requires Inv(env, w) && LinksConsented(env, w.agents) && Run(env, w, qs, w')
    ensures LinksConsented(env, w'.agents)
    decreases qs
  {
    hide Inv, LinksConsented, Apply;
    if qs.Cons? {
      var q := qs.head;
      var active := ActivateRows(w, q.rows);
      ServeInv(env, w, q);
      AgentsAreOk(env, w);
      ActivationConsented(env, w, q.rows, q.arrival);
      if Apply(env, active, q.caller, q.op, q.now).Ok? {
        ApplyConsented(env, active, q.caller, q.op, q.now);
      }
      RunConsented(env, Serve(env, w, q).0, qs.tail, w');
    }
  }

  lemma AgentsAreOk(env: Env, w: World)
    requires Inv(env, w)
    ensures AgentsOk(w.agents)
  {}

  /** In every reachable registry, whoever is or will be succeeded has signed it, and so has the successor. */
  lemma EverySuccessionSignedByBoth(env: Env, w: World, p: Id, s: Id)
    requires Reachable(env, w) && p in w.agents
    requires (w.agents[p].succeededBy == Some(s) || NamesSuccessor(w.agents[p], s))
    ensures Consented(env, p, s)
  {
    hide Consented, Inv;
    EmptyInv(env);
    var qs :| Run(env, EMPTY, qs, w);
    RunConsented(env, EMPTY, qs, w);
    assert RecordConsented(env, p, w.agents[p]);
  }

  /** Until the window closes the old key can still cancel: its revocation is accepted, burns the
      ID and leaves the successor unregistered. */
  lemma RevocableUntilWindowCloses(env: Env, w: World, q: Request)
    requires Inv(env, w) && Possible(w, q) && q.op.Revoke?
    requires q.caller in w.agents && w.agents[q.caller].pending.Some? && !Due(w.agents[q.caller], q.arrival)
    ensures var (w', refused) := Serve(env, w, q); var s := w.agents[q.caller].pending.value.successor;
      && refused == None && s !in w'.agents
      && q.caller in w'.agents && w'.agents[q.caller] == w.agents[q.caller].(pending := None, revokedAt := Some(q.now))
  {
    var p, s := q.caller, w.agents[q.caller].pending.value.successor;
    AgentsAreOk(env, w);
    assert AtMostOne(w.agents[p]) && NamesSuccessor(w.agents[p], s);
    ActivateRowsKeeps(w, q.arrival, q.rows);
    NotDueUnlisted(w.agents, q.arrival, q.rows, p);
    var after := ActivateRows(w, q.rows).agents;
    assert after[p] == w.agents[p];
    forall r | r in Ids(q.rows)
      ensures r in w.agents && !NamesSuccessor(w.agents[r], s)
    {
      assert r != p;
    }
  }

  lemma NotDueUnlisted(agents: map<Id, Agent>, now: Time, rows: List<(Id, Agent)>, p: Id)
    requires RowsMatch(agents, now, rows) && p in agents && !Due(agents[p], now)
    ensures p !in Ids(rows)
  {
    IdsListed(rows, p);
    if Listed(rows, p) {
      ListedIsDue(agents, now, rows, p);
    }
  }
}
