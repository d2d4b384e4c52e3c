/** The two deployments side by side: what a request does to the edge deployment's table when
    nothing runs in between, against what it does to the single-process registry.

    The edge table carries its successions in the same columns; stake and verifier grants are not
    part of it. */
module Parity {
  import opened Options
  import opened Lists
  import opened Succession
  import opened Registry
  import W = Worker

  // ---------------------------------------------------------------- agreement

  predicate SameRecord(row: W.Row, agent: Agent) {
    && row.profile == agent.profile && row.revokedAt == agent.revokedAt && row.succeededBy == agent.succeededBy
    && row.predecessor == agent.predecessor && row.pending == agent.pending
  }

  /** The same IDs with the same successions. */
  ghost predicate Agree(rows: W.Table, agents: map<Id, Agent>) {
    && (forall id :: id in rows <==> id in agents)
    && (forall id | id in rows :: SameRecord(rows[id], agents[id]))
  }

  /** Agents after the step, unchanged when it is refused. */
  function Outcome(w: World, step: Step): map<Id, Agent> {
    match step
    case Ok(next) => next.agents
    case Err(_) => w.agents
  }

  lemma SameNamed(rows: W.Table, agents: map<Id, Agent>, id: Id)
    requires Agree(rows, agents)
    ensures W.NamedSuccessor(rows, id) <==> IsPendingSuccessor(agents, id)
  {
    if W.NamedSuccessor(rows, id) {
      var p :| p in rows && rows[p].pending.Some? && rows[p].pending.value.successor == id;
      assert NamesSuccessor(agents[p], id);
    }
    if IsPendingSuccessor(agents, id) {
      var p :| p in agents && NamesSuccessor(agents[p], id);
      assert rows[p].pending.Some? && rows[p].pending.value.successor == id;
    }
  }

  lemma OneRecord(rows: W.Table, agents: map<Id, Agent>, id: Id, row: W.Row, agent: Agent)
    requires Agree(rows, agents) && SameRecord(row, agent)
    ensures Agree(rows[id := row], agents[id := agent])
  {}

  // ---------------------------------------------------------------- one request, nothing in between

  function Step1(st: W.State, i: nat, now: Time): W.State
    requires i < |st.pcs| && i < |st.loops|
  {
    W.Next(st, i, W.Input(W.Idle, true, now, Nil))
  }

  /** The slot takes n steps at time now, and nobody else moves. */
  function Alone(st: W.State, i: nat, n: nat, now: Time): W.State
    requires i < |st.pcs| == |st.loops|
    decreases n
  {
    if n == 0 then st else Alone(Step1(st, i, now), i, n - 1, now)
  }

  lemma OneStep(st: W.State, i: nat, n: nat, now: Time)
    requires i < |st.pcs| == |st.loops| && n > 0
    ensures var next := Step1(st, i, now);
      |next.pcs| == |st.pcs| && |next.loops| == |st.loops| && Alone(st, i, n, now) == Alone(next, i, n - 1, now)
  {
    hide W.ActivateBatch;
  }

  /** A slot about to make the call pc, with no due rows left to visit. */
  predicate At(st: W.State, i: nat, pc: W.Pc) {
    i < |st.pcs| == |st.loops| && st.pcs[i] == pc && st.loops[i] == Nil
  }

  /** Registration: both deployments accept or refuse alike. */
  lemma RegisterAgrees(st: W.State, i: nat, now: Time, w: World, id: Id, profile: Profile)
    requires At(st, i, W.RegisterCheck(id, profile)) && Agree(st.rows, w.agents)
    ensures Agree(Alone(st, i, 2, now).rows, Outcome(w, RegisterAgent(w, id, profile)))
  {
    hide W.NamedSuccessor, IsPendingSuccessor, Agree;
    SameNamed(st.rows, w.agents, id);
    SameDomain(st.rows, w.agents, id);
    var s1 := Step1(st, i, now);
    OneStep(st, i, 2, now);
    OneStep(s1, i, 1, now);
    if !W.NamedSuccessor(st.rows, id) && id !in st.rows {
      OneRecord(st.rows, w.agents, id, W.Row(profile, None, None, None, None, None), NewAgent(profile, None));
    }
  }

  lemma SameDomain(rows: W.Table, agents: map<Id, Agent>, id: Id)
    requires Agree(rows, agents)
    ensures id in rows <==> id in agents
    ensures id in rows ==> SameRecord(rows[id], agents[id])
  {}

  /** Revocation: the edge deployment re-checks the window in the write itself, so the two agree on a
      live caller if and only if its own succession is not due at that moment. */
  lemma RevokeAgreesExactly(st: W.State, i: nat, now: Time, w: World, id: Id)
    requires At(st, i, W.RevokeRead(id)) && Agree(st.rows, w.agents) && id in w.agents && !Retired(w.agents[id])
    ensures Agree(Alone(st, i, 3, now).rows, Outcome(w, RevokeAgent(w, id, now))) <==> !Due(w.agents[id], now)
  {
    SameDomain(st.rows, w.agents, id);
    var s1 := Step1(st, i, now);
    var s2 := Step1(s1, i, now);
    OneStep(st, i, 3, now);
    OneStep(s1, i, 2, now);
    OneStep(s2, i, 1, now);
    var revoked := RevokeAgent(w, id, now).value.agents;
    if Due(w.agents[id], now) {
      assert s2.rows == st.rows && revoked[id].revokedAt.Some? && st.rows[id].revokedAt.None?;
    } else {
      OneRecord(st.rows, w.agents, id, st.rows[id].(revokedAt := Some(now), pending := None),
        w.agents[id].(pending := None, revokedAt := Some(now)));
    }
  }

  lemma {:induction false} AloneInTwo(st: W.State, i: nat, m: nat, n: nat, now: Time)
    requires i < |st.pcs| == |st.loops|
    ensures var mid := Alone(st, i, m, now);
      |mid.pcs| == |st.pcs| && |mid.loops| == |st.loops| && Alone(st, i, m + n, now) == Alone(mid, i, n, now)
    decreases m
  {
    hide Step1;
    if m > 0 {
      OneStep(st, i, m, now);
      OneStep(st, i, m + n, now);
      AloneInTwo(Step1(st, i, now), i, m - 1, n, now);
    }
  }

  /** The three reads of a request decide whether it gets to write. */
  lemma RequestReads(st: W.State, i: nat, now: Time, p: Id, s: Id)
    requires At(st, i, W.RequestRead(p, s)) && p in st.rows && p != s
    ensures var mid := Alone(st, i, 3, now);
      && mid.rows == st.rows
      && At(mid, i, if s in st.rows || W.NamedSuccessor(st.rows, s) then W.Idle else W.RequestWrite(p, s))
  {
    hide W.NamedSuccessor;
    var s1 := Step1(st, i, now);
    var s2 := Step1(s1, i, now);
    OneStep(st, i, 3, now);
    OneStep(s1, i, 2, now);
    OneStep(s2, i, 1, now);
  }

  lemma RequestWrites(mid: W.State, i: nat, now: Time, w: World, p: Id, s: Id)
    requires At(mid, i, W.RequestWrite(p, s)) && Agree(mid.rows, w.agents) && p in w.agents && !Retired(w.agents[p])
    ensures var record := w.agents[p];
      Agree(Alone(mid, i, 2, now).rows,
            if record.pending.Some? then w.agents
            else w.agents[p := record.(pending := Some(Pending(s, now + SUCCESSION_WINDOW)))])
  {
    hide Agree;
    SameDomain(mid.rows, w.agents, p);
    var s1 := Step1(mid, i, now);
    OneStep(mid, i, 2, now);
    OneStep(s1, i, 1, now);
    if w.agents[p].pending.None? {
      OneRecord(mid.rows, w.agents, p, mid.rows[p].(pending := Some(Pending(s, now + SUCCESSION_WINDOW))),
        w.agents[p].(pending := Some(Pending(s, now + SUCCESSION_WINDOW))));
    }
  }

  lemma IdleChangesNothing(mid: W.State, i: nat, now: Time)
    requires At(mid, i, W.Idle)
    ensures Alone(mid, i, 2, now).rows == mid.rows
  {
    OneStep(mid, i, 2, now);
    OneStep(Step1(mid, i, now), i, 1, now);
  }

  /** A succession request by a live caller, both signatures valid: both deployments agree. */
  lemma RequestAgrees(env: Env, st: W.State, i: nat, now: Time, w: World, p: Id, s: Id, x: Signature, y: Signature)
    requires At(st, i, W.RequestRead(p, s)) && Agree(st.rows, w.agents) && p in w.agents && !Retired(w.agents[p])
    requires SuccessionVerifies(env, p, s, x, y)
    ensures Agree(Alone(st, i, 5, now).rows, Outcome(w, RequestSuccession(env, w, p, s, x, y, now)))
  {
    hide W.NamedSuccessor, IsPendingSuccessor, Agree, SuccessionVerifies, Alone;
    ParticipantsDiffer(env, p, s, x, y);
    SameNamed(st.rows, w.agents, s);
    SameDomain(st.rows, w.agents, p);
    SameDomain(st.rows, w.agents, s);
    AloneInTwo(st, i, 3, 2, now);
    RequestReads(st, i, now, p, s);
    var mid := Alone(st, i, 3, now);
    if s in st.rows || W.NamedSuccessor(st.rows, s) {
      IdleChangesNothing(mid, i, now);
    } else {
      RequestWrites(mid, i, now, w, p, s);
    }
  }

  lemma ParticipantsDiffer(env: Env, p: Id, s: Id, x: Signature, y: Signature)
    requires SuccessionVerifies(env, p, s, x, y)
    ensures p != s
  {}

  /** Activating a still pending succession to an unregistered successor: both deployments agree. */
  lemma ActivationAgrees(rows: W.Table, w: World, due: W.DueRow)
    requires Agree(rows, w.agents) && W.StillPending(rows, due) && due.profile == rows[due.id].profile
    requires due.pending.successor !in rows
    ensures due.id in w.agents && w.agents[due.id].pending.Some?
    ensures W.ActivateBatch(rows, due).0 == W.Activated
    ensures Agree(W.ActivateBatch(rows, due).1, ActivateOne(w, due.id, w.agents[due.id]).agents)
  {
    SameDomain(rows, w.agents, due.id);
    var p, s := due.id, due.pending.successor;
    OneRecord(rows, w.agents, p, W.MarkSucceeded(rows[p], due.pending), Succeeded(w.agents[p]));
    OneRecord(rows[p := W.MarkSucceeded(rows[p], due.pending)], w.agents[p := Succeeded(w.agents[p])], s,
      W.Row(due.profile, None, None, None, None, Some(p)), NewAgent(w.agents[p].profile, Some(p)));
  }
}
