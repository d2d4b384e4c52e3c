/** What the reputation engine promises about the scores of a reachable registry. */
module ReputationGuarantees {
  import opened Options
  import opened Lists
  import opened Succession
  import opened Registry
  import opened AgentLifecycle
  import opened ReceiptLifecycle
  import opened RegistryRuns
  import opened RegistryGuarantees
  import opened ReputationScore
  import opened Reputation
  import opened ReputationNeutrality

  // ---------------------------------------------------------------- reading the registry

  predicate RowListed(table: Rows, id: ReceiptId) {
    table.Cons? && (table.head.0 == id || RowListed(table.tail, id))
  }

  ghost predicate RowsFrom(table: Rows, receipts: map<ReceiptId, Receipt>) {
    table.Cons? ==>
      table.head.0 in receipts && receipts[table.head.0] == table.head.1 && !RowListed(table.tail, table.head.0)
          && RowsFrom(table.tail, receipts)
  }

  ghost predicate JobsFrom(jobs: List<Job>, all: map<JobId, Job>) {
    jobs.Cons? ==> (exists id | id in all :: all[id] == jobs.head) && JobsFrom(jobs.tail, all)
  }

  ghost predicate DecisionsFrom(env: Env, ds: List<Verification>, all: map<VerificationId, Verification>) {
    ds.Cons? ==>
      env.verificationId(ds.head) in all && all[env.verificationId(ds.head)] == ds.head
      && DecisionsFrom(env, ds.tail, all)
  }

  /** The view lists the tables of the registry: every receipt once, and only jobs and decisions it has. */
  ghost predicate Sees(env: Env, v: View, w: World) {
    && v.agents == w.agents
    && RowsFrom(v.table, w.receipts) && (forall id | id in w.receipts :: RowListed(v.table, id))
    && JobsFrom(v.jobs, w.jobs)
    && DecisionsFrom(env, v.decisions, w.verifications)
    && v.succ == Links(w.agents) && IsBackMap(v.succ, v.back)
  }

  // ---------------------------------------------------------------- nobody has stake

  ghost predicate Stakeless(agents: map<Id, Agent>) {
    forall id | id in agents :: agents[id].stake == 0.0
  }

  predicate RowsStakeless(rows: List<(Id, Agent)>) {
    rows.Cons? ==> rows.head.1.stake == 0.0 && RowsStakeless(rows.tail)
  }

  lemma {:induction false} MatchingRowsStakeless(agents: map<Id, Agent>, now: Time, rows: List<(Id, Agent)>)
    requires Stakeless(agents) && RowsMatch(agents, now, rows)
    ensures RowsStakeless(rows)
  {
    if rows.Cons? {
      MatchingRowsStakeless(agents, now, rows.tail);
    }
  }

  lemma {:induction false} ActivationStakeless(w: World, rows: List<(Id, Agent)>)
    requires Stakeless(w.agents) && RowsStakeless(rows) && AllPending(rows)
    ensures Stakeless(ActivateRows(w, rows).agents)
    decreases rows
  {
    if rows.Cons? {
      ActivationStakeless(ActivateOne(w, rows.head.0, rows.head.1), rows.tail);
    }
  }

  lemma ApplyStakeless(env: Env, w: World, caller: Id, op: Op, now: Time)
    requires Stakeless(w.agents) && Apply(env, w, caller, op, now).Ok?
    ensures Stakeless(Apply(env, w, caller, op, now).value.agents)
  {}

  lemma {:induction false} RunStakeless(env: Env, w: World, qs: List<Request>, w': World)
    requires Stakeless(w.agents) && Run(env, w, qs, w')
    ensures Stakeless(w'.agents)
    decreases qs
  {
    hide Stakeless, Apply;
    if qs.Cons? {
      var q := qs.head;
      var active := ActivateRows(w, q.rows);
      MatchingRowsStakeless(w.agents, q.arrival, q.rows);
      ActivationStakeless(w, q.rows);
      if Apply(env, active, q.caller, q.op, q.now).Ok? {
        ApplyStakeless(env, active, q.caller, q.op, q.now);
      }
      RunStakeless(env, Serve(env, w, q).0, qs.tail, w');
    }
  }

  /** No operation of the registry gives an agent stake. */
  lemma NobodyHasStake(env: Env, w: World)
    requires Reachable(env, w)
    ensures Stakeless(w.agents)
  {
    var qs :| Run(env, EMPTY, qs, w);
    RunStakeless(env, EMPTY, qs, w);
  }

  // ---------------------------------------------------------------- succession is neutral

  lemma {:induction false} TableAvoids(env: Env, table: Rows, w: World, s: Id)
    requires ReceiptsOk(env, w.agents, w.receipts) && RowsFrom(table, w.receipts) && s !in w.agents
    ensures RowsAvoid(table, s)
  {
    if table.Cons? {
      assert ReceiptOk(env, w.agents, table.head.0, table.head.1);
      TableAvoids(env, table.tail, w, s);
    }
  }

  lemma {:induction false} JobListAvoids(jobs: List<Job>, w: World, s: Id)
    requires JobsOk(w.jobs, w.receipts) && JobsKnown(w.agents, w.jobs) && JobsFrom(jobs, w.jobs) && s !in w.agents
    ensures JobsAvoid(jobs, s)
  {
    if jobs.Cons? {
      var id :| id in w.jobs && w.jobs[id] == jobs.head;
      assert JobOk(id, w.jobs[id], w.receipts);
      if jobs.head.acceptedAgent.Some? {
        ContainedIsKnown(w.agents, jobs.head.offers, jobs.head.acceptedAgent.value);
      }
      JobListAvoids(jobs.tail, w, s);
    }
  }

  lemma {:induction false} DecisionListAvoids(env: Env, ds: List<Verification>, w: World, p: Id, s: Id)
    requires VerificationsOk(env, w.agents, w.receipts, w.verifications) && DecisionsFrom(env, ds, w.verifications)
    requires s !in w.agents
    requires forall i | i in w.verifications :: w.verifications[i].verifier != p
    ensures DecisionsAvoid(ds, p, s)
  {
    if ds.Cons? {
      var i := env.verificationId(ds.head);
      assert i in w.verifications && w.verifications[i].verifier in w.agents;
      DecisionListAvoids(env, ds.tail, w, p, s);
    }
  }

  /** Both views list the tables in the same order at the same instant; only identities moved. */
  ghost predicate SameListing(v: View, v': View) {
    v' == v.(agents := v'.agents, succ := v'.succ, back := v'.back)
  }

  lemma ActivationHandsOver(env: Env, w: World, p: Id, v: View, v': View)
    requires Inv(env, w) && p in w.agents && w.agents[p].pending.Some? && w.agents[p].stake == 0.0
    requires forall i | i in w.verifications :: w.verifications[i].verifier != p
    requires Sees(env, v, w) && Sees(env, v', ActivateOne(w, p, w.agents[p])) && SameListing(v, v')
    requires OneIdentity(v'.succ, w.agents[p].pending.value.successor)
    ensures HandedOver(v, v', p, w.agents[p].pending.value.successor)
  {
    hide ReceiptsOk, JobsOk, JobsKnown, VerificationsOk, RowsFrom, JobsFrom, DecisionsFrom, RowsAvoid, JobsAvoid,
        DecisionsAvoid, Acyclic, OneIdentity,
      ReceiptsLogged, SuccessionsLogged, LineagesApart, HeadOf, Reaches;
    var s := w.agents[p].pending.value.successor;
    ActivateOneKeeps(w, p);
    TableAvoids(env, v.table, w, s);
    JobListAvoids(v.jobs, w, s);
    DecisionListAvoids(env, v.decisions, w, p, s);
    LinksAreChains(w.agents);
    LinksAreChains(ActivateOne(w, p, w.agents[p]).agents);
    BackMapExtends(v.succ, v.back, p, s);
    BackMapUnique(v'.succ, v'.back, v.back[s := p]);
  }

  /** The name an ID goes by after the activations: its successor's, if it is listed. */
  function NewName(rows: List<(Id, Agent)>, x: Id): Id
    requires AllPending(rows)
  {
    match rows
    case Nil => x
    case Cons(row, rest) => if row.0 == x then row.1.pending.value.successor else NewName(rest, x)
  }

  lemma {:induction false} UnlistedKeepsName(rows: List<(Id, Agent)>, x: Id)
    requires AllPending(rows) && !Listed(rows, x)
    ensures NewName(rows, x) == x
  {
    if rows.Cons? {
      UnlistedKeepsName(rows.tail, x);
    }
  }

  /** The chains that grow stay within the hop guard: their IDs are all counted under the newcomer. */
  ghost predicate IdentitiesKept(m: SuccMap, rows: List<(Id, Agent)>)
    requires AllPending(rows)
  {
    rows.Cons? ==> OneIdentity(m, rows.head.1.pending.value.successor) && IdentitiesKept(m, rows.tail)
  }

  /** A chain that is one identity after further activations was one before. */
  lemma {:induction false} IdentityBeforeRows(env: Env, w: World, now: Time, rows: List<(Id, Agent)>, x: Id)
    requires Inv(env, w) && RowsMatch(w.agents, now, rows) && AllPending(rows) && x in w.agents
    requires OneIdentity(Links(ActivateRows(w, rows).agents), x)
    ensures OneIdentity(Links(w.agents), x)
    decreases rows
  {
    hide Inv, OneIdentity, FreshLink, Links;
    if rows.Cons? {
      var p := rows.head.0;
      ActivateOneInv(env, w, p);
      NextRowsMatch(env, w, now, rows);
      IdentityBeforeRows(env, ActivateOne(w, p, w.agents[p]), now, rows.tail, x);
      AgentsOkOf(env, w);
      ActivateOneKeeps(w, p);
      IdentityBefore(Links(w.agents), p, w.agents[p].pending.value.successor, x);
    }
  }

  lemma AgentsOkOf(env: Env, w: World)
    requires Inv(env, w)
    ensures AgentsOk(w.agents)
  {}

  /** The view right after one activation, listing the tables as before. */
  ghost function Between(v: View, w: World, p: Id): View
    requires p in w.agents && w.agents[p].pending.Some?
  {
    var s := w.agents[p].pending.value.successor;
    v.(agents := ActivateOne(w, p, w.agents[p]).agents, succ := v.succ[p := s], back := v.back[s := p])
  }

  lemma BetweenSees(env: Env, w: World, p: Id, v: View)
    requires AgentsOk(w.agents) && p in w.agents && w.agents[p].pending.Some? && Sees(env, v, w)
    ensures Sees(env, Between(v, w, p), ActivateOne(w, p, w.agents[p])) && SameListing(v, Between(v, w, p))
  {
    hide RowsFrom, JobsFrom, DecisionsFrom, IsBackMap, FreshLink, AgentsOk, Links;
    ActivateOneKeeps(w, p);
    BackMapExtends(v.succ, v.back, p, w.agents[p].pending.value.successor);
  }

  lemma OneOfManyIsNeutral(env: Env, w: World, p: Id, v: View, x: Id)
    requires Inv(env, w) && Stakeless(w.agents) && p in w.agents && w.agents[p].pending.Some?
    requires forall i | i in w.verifications :: w.verifications[i].verifier != p
    requires Sees(env, v, w) && x in w.agents
    requires OneIdentity(Between(v, w, p).succ, w.agents[p].pending.value.successor)
    ensures var s, v1 := w.agents[p].pending.value.successor, Between(v, w, p);
      Rename(p, s, x) in v1.agents && SummaryOf(v1, Rename(p, s, x)) == SummaryOf(v, x)
  {
    hide SummaryOf, HandedOver, Inv, OneIdentity, Sees, Between, ActivateOne;
    AgentsOkOf(env, w);
    BetweenSees(env, w, p, v);
    ActivationHandsOver(env, w, p, v, Between(v, w, p));
    assert v.agents == w.agents by {
      SeesAgents(env, v, w);
    }
    SummaryRenamed(v, Between(v, w, p), p, w.agents[p].pending.value.successor, x);
  }

  lemma SeesAgents(env: Env, v: View, w: World)
    requires Sees(env, v, w)
    ensures v.agents == w.agents && v.succ == Links(w.agents)
  {}

  lemma {:induction false} RowsAreNeutral(env: Env, w: World, now: Time, rows: List<(Id, Agent)>, v: View, v': View,
      x: Id)
    requires Inv(env, w) && Stakeless(w.agents) && RowsMatch(w.agents, now, rows) && AllPending(rows)
    requires forall i | i in w.verifications :: !Listed(rows, w.verifications[i].verifier)
    requires Sees(env, v, w) && Sees(env, v', ActivateRows(w, rows)) && SameListing(v, v')
    requires IdentitiesKept(v'.succ, rows) && x in w.agents
    ensures NewName(rows, x) in v'.agents && SummaryOf(v', NewName(rows, x)) == SummaryOf(v, x)
    decreases rows
  {
    hide SummaryOf, Inv, OneIdentity, RowsFrom, JobsFrom, DecisionsFrom, IsBackMap, Links;
    if rows.Nil? {
      SameBackMap(env, w, v, v');
    } else {
      var p := rows.head.0;
      var s, w1, v1 := w.agents[p].pending.value.successor, ActivateOne(w, p, w.agents[p]), Between(v, w, p);
      AgentsOkOf(env, w);
      ActivateOneKeeps(w, p);
      ActivateOneInv(env, w, p);
      NextRowsMatch(env, w, now, rows);
      BetweenSees(env, w, p, v);
      IdentityBeforeRows(env, w1, now, rows.tail, s);
      OneOfManyIsNeutral(env, w, p, v, x);
      RowsAreNeutral(env, w1, now, rows.tail, v1, v', Rename(p, s, x));
      if x == p {
        if Listed(rows.tail, s) {
          ListedIsDue(w1.agents, now, rows.tail, s);
        }
        UnlistedKeepsName(rows.tail, s);
      }
    }
  }

  /** Two listings of one registry in one order are one view. */
  lemma SameBackMap(env: Env, w: World, v: View, v': View)
    requires Inv(env, w) && Sees(env, v, w) && Sees(env, v', w) && SameListing(v, v')
    ensures v' == v
  {
    hide RowsFrom, JobsFrom, DecisionsFrom, IsBackMap, Acyclic;
    LinksAreChains(w.agents);
    BackMapUnique(v.succ, v.back, v'.back);
  }

  /** All activations a request begins with, in whatever order and however many fall due together,
      are score-neutral, if nobody listed has verified anything: every agent's summary is the same
      before and after, under its successor's name if it has been succeeded. */
  lemma {:induction false} ActivationIsScoreNeutral(env: Env, w: World, q: Request, v: View, v': View, x: Id)
    requires Reachable(env, w) && Possible(w, q) && x in w.agents
    requires forall i | i in w.verifications :: !Listed(q.rows, w.verifications[i].verifier)
    requires Sees(env, v, w) && Sees(env, v', ActivateRows(w, q.rows)) && SameListing(v, v')
    requires IdentitiesKept(v'.succ, q.rows)
    ensures NewName(q.rows, x) in v'.agents && SummaryOf(v', NewName(q.rows, x)) == SummaryOf(v, x)
  {
    hide SummaryOf, Inv, OneIdentity, Sees, Stakeless;
    ReachableInv(env, w);
    NobodyHasStake(env, w);
    RowsAreNeutral(env, w, q.arrival, q.rows, v, v', x);
  }

  // ---------------------------------------------------------------- own counterparty, one role each

  lemma {:induction false} ListedIsReached(back: SuccMap, x: Id, n: nat, y: Id) returns (k: nat)
    requires Contains(Ancestors(back, x, n), y)
    ensures k <= n && Follow(back, x, k) == y
    decreases n
  {
    if y == x {
      k := 0;
    } else {
      k := ListedIsReached(back, back[x], n - 1, y);
      k := k + 1;
    }
  }

  lemma {:induction false} ReachedIsListed(back: SuccMap, x: Id, n: nat, k: nat)
    requires k <= n
    ensures Contains(Ancestors(back, x, n), Follow(back, x, k))
    decreases n
  {
    if k > 0 && x in back {
      ReachedIsListed(back, back[x], n - 1, k - 1);
    }
  }

  /** Two members of one lineage are ancestor and descendant. */
  lemma MembersAreRelated(m: SuccMap, back: SuccMap, x: Id, a: Id, b: Id)
    requires Injective(m) && IsBackMap(m, back) && Contains(LineageOf(back, x), a) && Contains(LineageOf(back, x), b)
    ensures SameLineage(m, a, b)
  {
    var i := ListedIsReached(back, x, MAX_HOPS, a);
    var j := ListedIsReached(back, x, MAX_HOPS, b);
    if i <= j {
      FollowAdd(back, x, i, j - i);
      LineageMirrors(m, back, a, b);
    } else {
      FollowAdd(back, x, j, i - j);
      LineageMirrors(m, back, b, a);
    }
  }

  /** Whoever is counted under a member of a lineage is related to every member. */
  lemma HeadInLineageRelates(m: SuccMap, back: SuccMap, x: Id, a: Id, y: Id)
    requires Injective(m) && IsBackMap(m, back)
    requires Contains(LineageOf(back, x), a) && Contains(LineageOf(back, x), HeadOf(m, y))
    ensures SameLineage(m, a, y)
  {
    hide LineageOf, IsBackMap, Follow;
    var z := HeadOf(m, y);
    MembersAreRelated(m, back, x, a, z);
    assert Reaches(m, y, z);
    if Reaches(m, z, a) {
      ReachesTransitive(m, y, z, a);
    } else {
      var i: nat :| Follow(m, a, i) == z;
      WalksMeet(m, a, i, y, MAX_HOPS);
    }
  }

  /** Each counted receipt has exactly one party in the lineage, and its counterparty is outside. */
  ghost predicate OneSideEach(rows: Rows, self: List<Id>, succ: SuccMap) {
    rows.Cons? ==>
      && (Contains(self, rows.head.1.content.a) <==> !Contains(self, rows.head.1.content.b))
      && !Contains(self, OtherParty(rows.head.1, self, succ))
      && OneSideEach(rows.tail, self, succ)
  }

  lemma {:induction false} RowHasOneSide(env: Env, w: World, v: View, id: ReceiptId, x: Id)
    requires Inv(env, w) && id in w.receipts && w.receipts[id].status != Draft
    requires v.succ == Links(w.agents) && IsBackMap(v.succ, v.back)
    requires Mine(LineageOf(v.back, x), w.receipts[id])
    ensures var self, r := LineageOf(v.back, x), w.receipts[id];
      (Contains(self, r.content.a) <==> !Contains(self, r.content.b)) && !Contains(self, OtherParty(r, self, v.succ))
  {
    hide ReceiptsOk, JobsOk, JobsKnown, VerificationsOk, ReceiptsLogged, SuccessionsLogged, HeadOf, LineageOf,
        Reaches, IsBackMap;
    var self, r := LineageOf(v.back, x), w.receipts[id];
    LinksAreChains(w.agents);
    assert PartiesApart(w.agents, r);
    if Contains(self, r.content.a) && Contains(self, r.content.b) {
      MembersAreRelated(v.succ, v.back, x, r.content.a, r.content.b);
    }
    var (mine, other) := if Contains(self, r.content.a) then (r.content.a, r.content.b) else (r.content.b, r.content.a);
    if Contains(self, HeadOf(v.succ, other)) {
      HeadInLineageRelates(v.succ, v.back, x, mine, other);
    }
  }

  lemma {:induction false} RowsHaveOneSide(env: Env, w: World, v: View, table: Rows, x: Id)
    requires Inv(env, w) && RowsFrom(table, w.receipts)
    requires v.succ == Links(w.agents) && IsBackMap(v.succ, v.back)
    ensures OneSideEach(CountedRows(table, LineageOf(v.back, x), v.now), LineageOf(v.back, x), v.succ)
  {
    hide Inv, HeadOf, LineageOf, IsBackMap, Contains;
    if table.Cons? {
      RowsHaveOneSide(env, w, v, table.tail, x);
      var row := table.head;
      if Mine(LineageOf(v.back, x), row.1) && CountsTowardReputation(row.1, v.now) {
        RowHasOneSide(env, w, v, row.0, x);
      }
    }
  }

  lemma {:induction false} InsertLength(row: (ReceiptId, Receipt), rows: Rows)
    ensures Length(InsertByTime(row, rows)) == Length(rows) + 1
  {
    if rows.Cons? {
      InsertLength(row, rows.tail);
    }
  }

  lemma {:induction false} SortLength(rows: Rows)
    ensures Length(SortByTime(rows)) == Length(rows)
  {
    if rows.Cons? {
      SortLength(rows.tail);
      InsertLength(rows.head, SortByTime(rows.tail));
    }
  }

  lemma {:induction false} PastItemsLength(v: View, self: List<Id>, rows: Rows, done: History)
    ensures Length(Past(ItemsOf(v, self, rows), done)) == Length(rows) + Length(done)
    decreases rows
  {
    if rows.Cons? {
      PastItemsLength(v, self, rows.tail, Cons(ItemOf(v, self, rows.head), done));
    }
  }

  /** In a reachable registry an agent is never its own counterparty, every counted receipt of its
      lineage is tallied once, as provider or as requester, and the two counts add up. */
  lemma {:induction false} EachReceiptTalliedOnce(env: Env, w: World, v: View, id: Id)
    requires Reachable(env, w) && Sees(env, v, w) && id in v.agents
    ensures var self, summary := LineageOf(v.back, id), SummaryOf(v, id);
      var rows := CountedRows(v.table, self, v.now);
      && OneSideEach(rows, self, v.succ)
      && summary.asProvider.count + summary.asRequester.count == Length(rows)
  {
    hide Inv, OneSideEach, HeadOf, LineageOf, IsBackMap, Total, RoleTotal, TrustScore, ReportWeight, PoolOf,
        CountedRows;
    ReachableInv(env, w);
    RowsHaveOneSide(env, w, v, v.table, id);
    var self := LineageOf(v.back, id);
    var rows := CountedRows(v.table, self, v.now);
    var h := HistoryOf(v, id);
    RolesPartition(PoolOf(v, id, h), h, h);
    TotalCounts(PoolOf(v, id, h), h, h);
    SortLength(rows);
    PastItemsLength(v, self, SortByTime(rows), Nil);
  }

  // ---------------------------------------------------------------- closed clusters

  /** k has no stake, and every counted receipt of its lineage is with a member of id's cluster. */
  ghost predicate Confined(v: View, id: Id, k: Id) {
    k in v.agents ==>
      v.agents[k].stake <= 0.0 && AllInCluster(v, id, CountedRows(v.table, LineageOf(v.back, k), v.now),
          LineageOf(v.back, k))
  }

  ghost predicate AllInCluster(v: View, id: Id, rows: Rows, self: List<Id>) {
    rows.Cons? ==>
      InCluster(v, id, HistoryOf(v, id), OtherParty(rows.head.1, self, v.succ))
      && AllInCluster(v, id, rows.tail, self)
  }

  lemma {:induction false} AllInsideMeansNoneOutside(v: View, id: Id, rows: Rows, self: List<Id>)
    requires AllInCluster(v, id, rows, self)
    ensures !SomeOutside(rows, self, v.succ, y => InCluster(v, id, HistoryOf(v, id), y))
  {
    if rows.Cons? {
      hide HistoryOf, InCluster;
      AllInsideMeansNoneOutside(v, id, rows.tail, self);
    }
  }

  /** All counterparties are confined to the cluster, or there is just one. */
  ghost predicate ClosedCluster(v: View, id: Id, h: History) {
    h.Cons? ==>
      (Confined(v, id, h.head.party) || Count(HistoryOf(v, id), h.head.party) == Length(HistoryOf(v, id)))
          && ClosedCluster(v, id, h.tail)
  }

  lemma {:induction false} ClosedNothingWeighs(v: View, id: Id, h: History)
    requires ClosedCluster(v, id, h)
    ensures NothingWeighs(PoolOf(v, id, HistoryOf(v, id)), HistoryOf(v, id), h)
  {
    if h.Cons? {
      hide HistoryOf, LineageOf;
      ClosedNothingWeighs(v, id, h.tail);
      var k := h.head.party;
      if k in v.agents && Confined(v, id, k) {
        AllInsideMeansNoneOutside(v, id, CountedRows(v.table, LineageOf(v.back, k), v.now), LineageOf(v.back, k));
      }
    }
  }

  /** A closed cluster earns nothing: with at least three counted receipts, all of them with
      stakeless counterparties whose receipts stay in the cluster or all with one counterparty,
      and no report, the score is 20 times the stake component. */
  lemma {:induction false} ClosedClusterEarnsNothing(v: View, id: Id)
    requires id in v.agents && Reasonable(v.params) && Length(HistoryOf(v, id)) >= 3
    requires ClosedCluster(v, id, HistoryOf(v, id)) && Posters(v.jobs, LineageOf(v.back, id), v.succ) == Nil
    ensures SummaryOf(v, id).all.weight == 0.0
    ensures SummaryOf(v, id).score == 20.0 * StakeComponent(v.params, v.agents[id].stake)
  {
    hide HistoryOf, LineageOf, TrustScore, StakeComponent, Earned, RoleTotal;
    var h := HistoryOf(v, id);
    ClosedNothingWeighs(v, id, h);
    NothingWeighsNothing(PoolOf(v, id, h), h, h);
    SummaryWeights(v, id);
    ClosedHistoryEarnsNothing(PoolOf(v, id, h), h, StakeComponent(v.params, v.agents[id].stake));
  }

  // ---------------------------------------------------------------- the order of a history

  predicate EarliestFirst(rows: Rows) {
    rows.Cons? && rows.tail.Cons? ==>
      rows.head.1.content.completedAt <= rows.tail.head.1.content.completedAt && EarliestFirst(rows.tail)
  }

  function Copies(rows: Rows, row: (ReceiptId, Receipt)): nat {
    match rows
    case Nil => 0
    case Cons(x, rest) => Copies(rest, row) + if x == row then 1 else 0
  }

  lemma {:induction false} InsertInOrder(row: (ReceiptId, Receipt), rows: Rows, x: (ReceiptId, Receipt))
    requires EarliestFirst(rows)
    ensures EarliestFirst(InsertByTime(row, rows))
    ensures Copies(InsertByTime(row, rows), x) == Copies(rows, x) + if row == x then 1 else 0
  {
    if rows.Cons? {
      if rows.tail.Cons? {
        InsertInOrder(row, rows.tail, x);
      }
    }
  }

  /** The history runs over exactly the counted receipts, earliest first: so the receipts under
      the cap are the earliest. */
  lemma {:induction false} HistoryInOrder(rows: Rows, x: (ReceiptId, Receipt))
    ensures EarliestFirst(SortByTime(rows)) && Copies(SortByTime(rows), x) == Copies(rows, x)
  {
    if rows.Cons? {
      HistoryInOrder(rows.tail, x);
      InsertInOrder(rows.head, SortByTime(rows.tail), x);
    }
  }

  // ---------------------------------------------------------------- disputes end

  /** No dispute keeps a receipt from counting forever: over every run, a countersigned receipt that is
      no demo counts from 144 h after its countersignature on, plus the gap between two clock reads. */
  lemma {:induction false} EventuallyCounts(env: Env, qs: List<Request>, w: World, q: Request, qs': List<Request>,
      w': World, gap: Time, at: Time)
    requires Run(env, EMPTY, qs, w) && Possible(w, q) && Run(env, Serve(env, w, q).0, qs', w')
    requires StampsWithin(qs, gap) && StampsWithin(qs', gap)
    requires q.op.Sign? && Serve(env, w, q).1.None? && at >= q.now + 2 * DISPUTE_WINDOW + gap
    ensures q.op.receipt in w'.receipts
    ensures !("demo." <= w'.receipts[q.op.receipt].content.capability)
        ==> CountsTowardReputation(w'.receipts[q.op.receipt], at)
  {
    hide Inv, Serve, Evolves, Run, StampsWithin, DueRows, DisputeActive;
    DisputesEnd(env, qs, w, q, qs', w', gap, at);
    EmptyInv(env);
    RunInv(env, EMPTY, qs, w);
    ServeInv(env, w, q);
    RunInv(env, Serve(env, w, q).0, qs', w');
    CountersignSetsWindow(env, w, q);
    StaysCountersigned(Serve(env, w, q).0, w', q.op.receipt);
  }

  lemma StaysCountersigned(w: World, w': World, id: ReceiptId)
    requires Evolves(w, w') && id in w.receipts && w.receipts[id].status != Draft
    ensures id in w'.receipts && w'.receipts[id].status != Draft
  {
    assert ReceiptEvolves(w.receipts[id], w'.receipts[id]);
  }
}
