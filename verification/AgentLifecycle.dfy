/** What every step keeps about identities: each ID is in at most one of pending, revoked and
    succeeded, retired records are frozen, and the successions form disjoint finite chains. */
module AgentLifecycle {
  import opened Options
  import opened Lists
  import opened Succession
  import opened Registry

  // ---------------------------------------------------------------- the invariant

  ghost predicate AtMostOne(agent: Agent) {
    && (agent.pending.Some? ==> !Retired(agent))
    && (agent.revokedAt.Some? ==> agent.succeededBy.None?)
  }

  /** Awaited successors are unregistered, and awaited by one ID only. */
  ghost predicate SuccessorsFresh(agents: map<Id, Agent>) {
    && (forall p, s {:trigger NamesSuccessor(agents[p], s)} | p in agents && NamesSuccessor(agents[p], s) ::
        s !in agents)
    && (forall p, q, s {:trigger NamesSuccessor(agents[p], s), NamesSuccessor(agents[q], s)} |
          p in agents && q in agents && NamesSuccessor(agents[p], s) && NamesSuccessor(agents[q], s) :: p == q)
  }

  /** The two ends of every completed succession name each other. */
  ghost predicate LinksMatch(agents: map<Id, Agent>) {
    && (forall p {:trigger agents[p].succeededBy.value} | p in agents && agents[p].succeededBy.Some? ::
          agents[p].succeededBy.value in agents && agents[agents[p].succeededBy.value].predecessor == Some(p))
    && (forall s {:trigger agents[s].predecessor.value} | s in agents && agents[s].predecessor.Some? ::
          agents[s].predecessor.value in agents && agents[agents[s].predecessor.value].succeededBy == Some(s))
  }

  /** Predecessor to successor, for every succeeded ID. */
  function Links(agents: map<Id, Agent>): SuccMap {
    map p | p in agents && agents[p].succeededBy.Some? :: agents[p].succeededBy.value
  }

  ghost predicate AgentsOk(agents: map<Id, Agent>) {
    && (forall id | id in agents :: AtMostOne(agents[id]))
    && SuccessorsFresh(agents)
    && LinksMatch(agents)
    && Acyclic(Links(agents))
  }

  /** The completed successions are disjoint finite simple chains. */
  lemma LinksAreChains(agents: map<Id, Agent>)
    requires AgentsOk(agents)
    ensures Chains(Links(agents))
  {
    var m := Links(agents);
    forall x, y | x in m && y in m && m[x] == m[y]
      ensures x == y
    {
      assert agents[m[x]].predecessor == Some(x);
      assert agents[m[y]].predecessor == Some(y);
    }
  }

  // ---------------------------------------------------------------- what may change

  /** From one state of the identities to a later one: nobody disappears, a retired record is
      frozen, and profile and predecessor never change. */
  ghost predicate AgentsEvolve(before: map<Id, Agent>, after: map<Id, Agent>) {
    forall id | id in before ::
      && id in after
      && after[id].profile == before[id].profile
      && after[id].predecessor == before[id].predecessor
      && (Retired(before[id]) ==> after[id] == before[id])
  }

  lemma AgentsEvolveTransitive(a: map<Id, Agent>, b: map<Id, Agent>, c: map<Id, Agent>)
    requires AgentsEvolve(a, b) && AgentsEvolve(b, c)
    ensures AgentsEvolve(a, c)
  {
    forall id | id in a
      ensures id in c && c[id].profile == a[id].profile && c[id].predecessor == a[id].predecessor
      ensures Retired(a[id]) ==> c[id] == a[id]
    {
      assert id in b;
    }
  }

  // ---------------------------------------------------------------- the operations

  lemma RegisterKeeps(w: World, caller: Id, profile: Profile)
    requires AgentsOk(w.agents) && RegisterAgent(w, caller, profile).Ok?
    ensures var w' := RegisterAgent(w, caller, profile).value;
      AgentsOk(w'.agents) && AgentsEvolve(w.agents, w'.agents) && Links(w'.agents) == Links(w.agents)
  {
    var agents' := w.agents[caller := NewAgent(profile, None)];
    assert forall p | p in w.agents :: !NamesSuccessor(w.agents[p], caller);
    assert Links(agents') == Links(w.agents);
  }

  /** Changing one live record, without touching its links, keeps everything provided a newly
      named successor is fresh. */
  lemma UpdateKeeps(agents: map<Id, Agent>, id: Id, record: Agent)
    requires AgentsOk(agents) && id in agents && !Retired(agents[id])
    requires AtMostOne(record) && record.succeededBy.None?
    requires record.profile == agents[id].profile && record.predecessor == agents[id].predecessor
    requires record.pending == agents[id].pending || record.pending.None?
      || (record.pending.value.successor !in agents && !IsPendingSuccessor(agents, record.pending.value.successor))
    ensures AgentsOk(agents[id := record]) && AgentsEvolve(agents, agents[id := record])
    ensures Links(agents[id := record]) == Links(agents)
  {
    var agents' := agents[id := record];
    assert Links(agents') == Links(agents);
    forall p, s | p in agents' && NamesSuccessor(agents'[p], s)
      ensures s !in agents' && (p == id || !NamesSuccessor(record, s))
    {
      assert record.pending == agents[id].pending ==> (NamesSuccessor(record, s) <==> NamesSuccessor(agents[id], s));
      assert p != id ==> NamesSuccessor(agents[p], s);
    }
  }

  /** The link an activation adds starts at a live ID and ends at one nobody has heard of. */
  lemma ActivationLinks(w: World, p: Id)
    requires AgentsOk(w.agents) && p in w.agents && w.agents[p].pending.Some?
    ensures var s := w.agents[p].pending.value.successor; var agents' := ActivateOne(w, p, w.agents[p]).agents;
      && s !in w.agents
      && FreshLink(Links(w.agents), p, s) && Links(agents') == Links(w.agents)[p := s]
      && LinksMatch(agents')
  {
    var s := w.agents[p].pending.value.successor;
    assert AtMostOne(w.agents[p]) && NamesSuccessor(w.agents[p], s);
    assert Links(ActivateOne(w, p, w.agents[p]).agents) == Links(w.agents)[p := s];
  }

  lemma ActivationSuccessorsFresh(w: World, p: Id)
    requires AgentsOk(w.agents) && p in w.agents && w.agents[p].pending.Some?
    ensures SuccessorsFresh(ActivateOne(w, p, w.agents[p]).agents)
  {
    hide LinksMatch, Acyclic;
    var agents, agents' := w.agents, ActivateOne(w, p, w.agents[p]).agents;
    assert NamesSuccessor(agents[p], agents[p].pending.value.successor);
    forall q, t | q in agents' && NamesSuccessor(agents'[q], t)
      ensures q in agents && agents'[q] == agents[q] && t !in agents'
    {
      assert NamesSuccessor(agents[q], t);
    }
  }

  /** An activation adds that one link and keeps everything else. */
  lemma ActivateOneKeeps(w: World, p: Id)
    requires AgentsOk(w.agents) && p in w.agents && w.agents[p].pending.Some?
    ensures var s := w.agents[p].pending.value.successor; var w' := ActivateOne(w, p, w.agents[p]);
      && s !in w.agents
      && AgentsOk(w'.agents) && AgentsEvolve(w.agents, w'.agents)
      && FreshLink(Links(w.agents), p, s) && Links(w'.agents) == Links(w.agents)[p := s]
  {
    hide LinksMatch, Links, SuccessorsFresh, Acyclic, FreshLink;
    ActivationLinks(w, p);
    ActivationSuccessorsFresh(w, p);
    LinksAreChains(w.agents);
    ChainsExtend(Links(w.agents), p, w.agents[p].pending.value.successor);
    assert AtMostOne(w.agents[p]);
  }

  // ---------------------------------------------------------------- the activation loop

  lemma {:induction false} ListedIsDue(agents: map<Id, Agent>, now: Time, rows: List<(Id, Agent)>, q: Id)
    requires RowsMatch(agents, now, rows) && Listed(rows, q)
    ensures q in agents && Due(agents[q], now)
  {
    if rows.head.0 != q {
      ListedIsDue(agents, now, rows.tail, q);
    }
  }

  lemma {:induction false} MatchingRowsPending(agents: map<Id, Agent>, now: Time, rows: List<(Id, Agent)>)
    requires RowsMatch(agents, now, rows)
    ensures AllPending(rows)
  {
    if rows.Cons? {
      MatchingRowsPending(agents, now, rows.tail);
    }
  }

  /** The rows read before the loop are still current when their turn comes. */
  lemma {:induction false} RowsStayCurrent(agents: map<Id, Agent>, agents': map<Id, Agent>, p: Id, now: Time,
      rows: List<(Id, Agent)>)
    requires RowsMatch(agents, now, rows) && !Listed(rows, p)
    requires forall q | q in agents && q != p :: q in agents' && agents'[q] == agents[q]
    ensures RowsMatch(agents', now, rows)
  {
    if rows.Cons? {
      RowsStayCurrent(agents, agents', p, now, rows.tail);
    }
  }

  /** Who follows whom among the IDs known before is unchanged. */
  ghost predicate SameDescent(before: map<Id, Agent>, after: map<Id, Agent>) {
    forall x, y | x in before && y in before :: Reaches(Links(after), x, y) <==> Reaches(Links(before), x, y)
  }

  lemma SameDescentTransitive(a: map<Id, Agent>, b: map<Id, Agent>, c: map<Id, Agent>)
    requires SameDescent(a, b) && SameDescent(b, c) && AgentsEvolve(a, b)
    ensures SameDescent(a, c)
  {
    hide Reaches, Links;
    forall x, y | x in a && y in a
      ensures Reaches(Links(c), x, y) <==> Reaches(Links(a), x, y)
    {
      assert x in b && y in b;
    }
  }

  lemma ActivateOneDescent(w: World, p: Id)
    requires AgentsOk(w.agents) && p in w.agents && w.agents[p].pending.Some?
    ensures SameDescent(w.agents, ActivateOne(w, p, w.agents[p]).agents)
  {
    ActivateOneKeeps(w, p);
    var s := w.agents[p].pending.value.successor;
    forall x, y | x in w.agents && y in w.agents
      ensures Reaches(Links(ActivateOne(w, p, w.agents[p]).agents), x, y) <==> Reaches(Links(w.agents), x, y)
    {
      ReachesUnchanged(Links(w.agents), p, s, x, y);
    }
  }

  /** What activation means, row order aside: every listed succession takes effect, nothing else moves. */
  ghost predicate Activated(agents: map<Id, Agent>, listed: set<Id>, after: map<Id, Agent>) {
    && (forall p | p in listed :: p in agents && agents[p].pending.Some?)
    && (forall id | id in agents ::
          id in after && after[id] == if id in listed then Succeeded(agents[id]) else agents[id])
    && (forall p | p in listed :: agents[p].pending.value.successor in after
          && after[agents[p].pending.value.successor] == NewAgent(agents[p].profile, Some(p)))
    && (forall id | id in after && id !in agents :: exists p | p in listed :: NamesSuccessor(agents[p], id))
  }

  function Ids(rows: List<(Id, Agent)>): set<Id> {
    match rows
    case Nil => {}
    case Cons(row, rest) => {row.0} + Ids(rest)
  }

  lemma {:induction false} IdsListed(rows: List<(Id, Agent)>, p: Id)
    ensures p in Ids(rows) <==> Listed(rows, p)
  {
    if rows.Cons? {
      IdsListed(rows.tail, p);
    }
  }

  /** The rows still to come are of other IDs than the two just written, and unchanged. */
  lemma RestIsApart(w: World, now: Time, p: Id, rest: List<(Id, Agent)>)
    requires AgentsOk(w.agents) && p in w.agents && RowsMatch(w.agents, now, Cons((p, w.agents[p]), rest))
    ensures var s, agents1 := w.agents[p].pending.value.successor, ActivateOne(w, p, w.agents[p]).agents;
      && p !in Ids(rest) && s !in w.agents
      && forall q | q in Ids(rest) :: q in w.agents && q != p && agents1[q] == w.agents[q]
  {
    hide LinksMatch, Acyclic;
    assert NamesSuccessor(w.agents[p], w.agents[p].pending.value.successor);
    IdsListed(rest, p);
    forall q | q in Ids(rest)
      ensures q in w.agents && q != p
    {
      IdsListed(rest, q);
      ListedIsDue(w.agents, now, rest, q);
    }
  }

  /** Whoever is new after the loop was awaited by a listed ID before it. */
  lemma NewcomersAwaited(w: World, now: Time, p: Id, rest: List<(Id, Agent)>, after: map<Id, Agent>, id: Id)
    requires AgentsOk(w.agents) && p in w.agents && RowsMatch(w.agents, now, Cons((p, w.agents[p]), rest))
    requires Activated(ActivateOne(w, p, w.agents[p]).agents, Ids(rest), after) && id in after && id !in w.agents
    ensures exists q | q in Ids(rest) + {p} :: NamesSuccessor(w.agents[q], id)
  {
    var agents1 := ActivateOne(w, p, w.agents[p]).agents;
    RestIsApart(w, now, p, rest);
    hide AgentsOk, RowsMatch;
    if id in agents1 {
      assert NamesSuccessor(w.agents[p], id);
    } else {
      var q :| q in Ids(rest) && NamesSuccessor(agents1[q], id);
      assert NamesSuccessor(w.agents[q], id);
    }
  }

  lemma ActivatedStep(w: World, now: Time, p: Id, rest: List<(Id, Agent)>, after: map<Id, Agent>)
    requires AgentsOk(w.agents) && p in w.agents && RowsMatch(w.agents, now, Cons((p, w.agents[p]), rest))
    requires Activated(ActivateOne(w, p, w.agents[p]).agents, Ids(rest), after)
    ensures Activated(w.agents, Ids(Cons((p, w.agents[p]), rest)), after)
  {
    hide AgentsOk;
    RestIsApart(w, now, p, rest);
    forall id | id in after && id !in w.agents
      ensures exists q | q in Ids(rest) + {p} :: NamesSuccessor(w.agents[q], id)
    {
      NewcomersAwaited(w, now, p, rest, after, id);
    }
  }

  lemma {:induction false} ActivateRowsKeeps(w: World, now: Time, rows: List<(Id, Agent)>)
    requires AgentsOk(w.agents) && RowsMatch(w.agents, now, rows) && AllPending(rows)
    ensures var w' := ActivateRows(w, rows);
      && AgentsOk(w'.agents) && AgentsEvolve(w.agents, w'.agents) && SameDescent(w.agents, w'.agents)
      && Activated(w.agents, Ids(rows), w'.agents)
    decreases rows
  {
    if rows.Cons? {
      var p := rows.head.0;
      var w1 := ActivateOne(w, p, w.agents[p]);
      ActivateOneKeeps(w, p);
      ActivateOneDescent(w, p);
      RowsStayCurrent(w.agents, w1.agents, p, now, rows.tail);
      ActivateRowsKeeps(w1, now, rows.tail);
      var after := ActivateRows(w1, rows.tail).agents;
      AgentsEvolveTransitive(w.agents, w1.agents, after);
      SameDescentTransitive(w.agents, w1.agents, after);
      ActivatedStep(w, now, p, rows.tail, after);
    }
  }

  lemma ActivatedUnique(agents: map<Id, Agent>, listed: set<Id>, x: map<Id, Agent>, y: map<Id, Agent>)
    requires Activated(agents, listed, x) && Activated(agents, listed, y)
    ensures x == y
  {
    assert forall id | id in x :: id in y && y[id] == x[id];
    assert forall id | id in y :: id in x;
  }

  lemma DueIdsDetermined(agents: map<Id, Agent>, now: Time, rows: List<(Id, Agent)>, rows': List<(Id, Agent)>)
    requires DueRows(agents, now, rows) && DueRows(agents, now, rows')
    ensures Ids(rows) == Ids(rows')
  {
    forall p
      ensures p in Ids(rows) <==> p in Ids(rows')
    {
      IdsListed(rows, p);
      IdsListed(rows', p);
      if Listed(rows, p) {
        ListedIsDue(agents, now, rows, p);
      }
      if Listed(rows', p) {
        ListedIsDue(agents, now, rows', p);
      }
    }
  }

  /** The order in which the database returns the due rows does not matter for any record. */
  lemma ActivationOrderIrrelevant(w: World, now: Time, rows: List<(Id, Agent)>, rows': List<(Id, Agent)>)
    requires AgentsOk(w.agents) && DueRows(w.agents, now, rows) && DueRows(w.agents, now, rows')
    requires AllPending(rows) && AllPending(rows')
    ensures ActivateRows(w, rows).agents == ActivateRows(w, rows').agents
  {
    ActivateRowsKeeps(w, now, rows);
    ActivateRowsKeeps(w, now, rows');
    DueIdsDetermined(w.agents, now, rows, rows');
    ActivatedUnique(w.agents, Ids(rows), ActivateRows(w, rows).agents, ActivateRows(w, rows').agents);
  }

  /** After the loop nothing is due: no request ever sees a closed window unapplied. */
  lemma NothingLeftDue(w: World, now: Time, rows: List<(Id, Agent)>, id: Id)
    requires AgentsOk(w.agents) && DueRows(w.agents, now, rows) && AllPending(rows)
    requires id in ActivateRows(w, rows).agents
    ensures !Due(ActivateRows(w, rows).agents[id], now)
  {
    hide AgentsOk, AgentsEvolve, SameDescent, ActivateRows, RowsMatch;
    ActivateRowsKeeps(w, now, rows);
    IdsListed(rows, id);
    var after := ActivateRows(w, rows).agents;
    if id !in w.agents {
      var p :| p in Ids(rows) && NamesSuccessor(w.agents[p], id);
      assert after[id] == NewAgent(w.agents[p].profile, Some(p));
    }
  }
}
