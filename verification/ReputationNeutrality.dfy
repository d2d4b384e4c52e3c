/** Succession neither adds nor removes evidence. */
module ReputationNeutrality {
  // When p is succeeded by s, every other agent's summary is unchanged and the summary of s is
  // what the summary of p was.  Everything the engine computes is followed through the renaming
  // of p to s.

  import opened Options
  import opened Lists
  import opened Succession
  import opened Registry
  import opened ReputationScore
  import opened Reputation

  function Rename(p: Id, s: Id, k: Id): Id {
    if k == p then s else k
  }

  // ---------------------------------------------------------------- before and after

  predicate RowsAvoid(rows: Rows, s: Id) {
    rows.Cons? ==> !Party(rows.head.1.content, s) && RowsAvoid(rows.tail, s)
  }

  predicate DecisionsAvoid(ds: List<Verification>, p: Id, s: Id) {
    ds.Cons? ==> ds.head.verifier != p && ds.head.verifier != s && DecisionsAvoid(ds.tail, p, s)
  }

  predicate JobsAvoid(jobs: List<Job>, s: Id) {
    jobs.Cons? ==> jobs.head.postedBy != s && jobs.head.acceptedAgent != Some(s) && JobsAvoid(jobs.tail, s)
  }

  ghost predicate SameOthers(before: map<Id, Agent>, after: map<Id, Agent>, p: Id, s: Id) {
    forall k | k != p && k != s :: (k in after <==> k in before) && (k in before ==> after[k] == before[k])
  }

  /** The same tables, read just before and just after p was succeeded by the newcomer s, where p
      has no stake and verified nothing, and the chain that now ends in s is within the hop guard. */
  ghost predicate HandedOver(v: View, v': View, p: Id, s: Id) {
    && v' == v.(agents := v'.agents, succ := v.succ[p := s], back := v.back[s := p])
    && p in v.agents && s !in v.agents && p in v'.agents && s in v'.agents
    && SameOthers(v.agents, v'.agents, p, s)
    && v.agents[p].stake == v'.agents[p].stake == v'.agents[s].stake == 0.0
    && IsBackMap(v.succ, v.back) && FreshLink(v.succ, p, s) && OneIdentity(v'.succ, s)
    && RowsAvoid(v.table, s) && DecisionsAvoid(v.decisions, p, s) && JobsAvoid(v.jobs, s)
  }

  // ---------------------------------------------------------------- lineages and heads

  lemma {:induction false} PredecessorsAreSucceeded(m: SuccMap, back: SuccMap, x: Id, n: nat, y: Id)
    requires IsBackMap(m, back) && Contains(Ancestors(back, x, n), y) && y != x
    ensures y in m
    decreases n
  {
    if n > 0 && x in back {
      var q := back[x];
      assert q in m;
      if y != q {
        PredecessorsAreSucceeded(m, back, q, n - 1, y);
      }
    }
  }

  lemma {:induction false} NewcomerUnlisted(m: SuccMap, back: SuccMap, x: Id, n: nat, s: Id)
    requires IsBackMap(m, back) && s !in m && x != s
    ensures !Contains(Ancestors(back, x, n), s)
  {
    if Contains(Ancestors(back, x, n), s) {
      PredecessorsAreSucceeded(m, back, x, n, s);
    }
  }

  lemma LineageOfOthers(v: View, v': View, p: Id, s: Id, x: Id)
    requires HandedOver(v, v', p, s) && x != s
    ensures LineageOf(v'.back, x) == LineageOf(v.back, x) && !Contains(LineageOf(v.back, x), s)
    ensures x != p ==> !Contains(LineageOf(v.back, x), p)
  {
    hide Contains;
    forall y | y in v.back
      ensures v.back[y] != s
    {
      assert v.back[y] in v.succ;
    }
    AncestorsUnaffected(v.back, p, s, x, MAX_HOPS);
    NewcomerUnlisted(v.succ, v.back, x, MAX_HOPS, s);
    if x != p {
      NewcomerUnlisted(v.succ, v.back, x, MAX_HOPS, p);
    }
  }

  lemma LineageOfSuccessor(v: View, v': View, p: Id, s: Id)
    requires HandedOver(v, v', p, s)
    ensures LineageOf(v'.back, s) == Cons(s, LineageOf(v.back, p)) && !Contains(LineageOf(v.back, p), s)
  {
    LineageExtends(v.succ, v.back, p, s);
    LineageOfOthers(v, v', p, s, p);
  }

  /** The two lineages of one identity: the same list, or with the newcomer in front. */
  predicate SameLine(self: List<Id>, self': List<Id>, s: Id) {
    !Contains(self, s) && (self' == self || self' == Cons(s, self))
  }

  lemma LineOf(v: View, v': View, p: Id, s: Id, x: Id)
    requires HandedOver(v, v', p, s) && x != s
    ensures SameLine(LineageOf(v.back, x), LineageOf(v'.back, Rename(p, s, x)), s)
    ensures forall k | k != s ::
      Contains(LineageOf(v'.back, Rename(p, s, x)), Rename(p, s, k)) <==> Contains(LineageOf(v.back, x), k)
  {
    if x == p {
      LineageOfSuccessor(v, v', p, s);
    } else {
      LineageOfOthers(v, v', p, s, x);
    }
  }

  lemma HeadRenamed(v: View, v': View, p: Id, s: Id, y: Id)
    requires HandedOver(v, v', p, s) && y != s
    ensures HeadOf(v'.succ, y) == Rename(p, s, HeadOf(v.succ, y))
    ensures HeadOf(v.succ, y) != s
  {
    HeadsMove(v.succ, p, s, y);
  }

  lemma OwnHeadRenamed(v: View, v': View, p: Id, s: Id, x: Id)
    requires HandedOver(v, v', p, s) && x != s
    ensures HeadOf(v'.succ, Rename(p, s, x)) == Rename(p, s, HeadOf(v.succ, x))
  {
    if x == p {
      FollowEnd(v'.succ, s, MAX_HOPS);
      FollowEnd(v.succ, p, MAX_HOPS);
    } else {
      HeadRenamed(v, v', p, s, x);
    }
  }

  // ---------------------------------------------------------------- receipts of one identity

  lemma {:induction false} SameCountedRows(table: Rows, self: List<Id>, self': List<Id>, s: Id, now: Time)
    requires SameLine(self, self', s) && RowsAvoid(table, s)
    ensures CountedRows(table, self', now) == CountedRows(table, self, now)
    ensures RowsAvoid(CountedRows(table, self, now), s)
  {
    if table.Cons? {
      SameCountedRows(table.tail, self, self', s, now);
    }
  }

  lemma OtherPartyRenamed(v: View, v': View, p: Id, s: Id, r: Receipt, self: List<Id>, self': List<Id>)
    requires HandedOver(v, v', p, s) && SameLine(self, self', s) && !Party(r.content, s)
    ensures OtherParty(r, self', v'.succ) == Rename(p, s, OtherParty(r, self, v.succ))
    ensures OtherParty(r, self, v.succ) != s
  {
    hide HandedOver, HeadOf;
    HeadRenamed(v, v', p, s, if Contains(self, r.content.a) then r.content.b else r.content.a);
  }

  lemma {:induction false} TrustRenamed(v: View, v': View, p: Id, s: Id, k: Id)
    requires HandedOver(v, v', p, s) && k != s
    ensures BaseTrust(v', Rename(p, s, k)) == BaseTrust(v, k)
  {
    hide TrustFrom, HeadOf, OneIdentity, FreshLink, IsBackMap;
    LineOf(v, v', p, s, k);
    SameCountedRows(v.table, LineageOf(v.back, k), LineageOf(v'.back, Rename(p, s, k)), s, v.now);
  }

  /** The exclusion tests agree on heads, up to the renaming. */
  ghost predicate SameExclusion(p: Id, s: Id, f: Id -> bool, f': Id -> bool) {
    forall y | y != s :: f'(Rename(p, s, y)) == f(y)
  }

  lemma {:induction false} OutsideRenamed(v: View, v': View, p: Id, s: Id, rows: Rows, self: List<Id>, self': List<Id>,
      f: Id -> bool, f': Id -> bool)
    requires HandedOver(v, v', p, s) && SameLine(self, self', s) && RowsAvoid(rows, s) && SameExclusion(p, s, f, f')
    ensures SomeOutside(rows, self', v'.succ, f') == SomeOutside(rows, self, v.succ, f)
  {
    if rows.Cons? {
      hide HandedOver, HeadOf, OtherParty, SameLine;
      OutsideRenamed(v, v', p, s, rows.tail, self, self', f, f');
      OtherPartyRenamed(v, v', p, s, rows.head.1, self, self');
    }
  }

  lemma AnchoredRenamed(v: View, v': View, p: Id, s: Id, k: Id, f: Id -> bool, f': Id -> bool)
    requires HandedOver(v, v', p, s) && k != s && SameExclusion(p, s, f, f')
    ensures Anchored(v', Rename(p, s, k), f') == Anchored(v, k, f)
  {
    hide HeadOf, OneIdentity, FreshLink, IsBackMap, SomeOutside, CountedRows, SameExclusion;
    LineOf(v, v', p, s, k);
    var self, self' := LineageOf(v.back, k), LineageOf(v'.back, Rename(p, s, k));
    SameCountedRows(v.table, self, self', s, v.now);
    OutsideRenamed(v, v', p, s, CountedRows(v.table, self, v.now), self, self', f, f');
  }

  // ---------------------------------------------------------------- the history, renamed

  lemma {:induction false} SameVotes(ds: List<Verification>, before: map<Id, Agent>, after: map<Id, Agent>, p: Id,
      s: Id, id: ReceiptId, d: Decision)
    requires DecisionsAvoid(ds, p, s) && SameOthers(before, after, p, s)
    ensures Votes(ds, after, id, d) == Votes(ds, before, id, d)
  {
    if ds.Cons? {
      SameVotes(ds.tail, before, after, p, s, id, d);
    }
  }

  function VotesBy(ds: List<Verification>, verifier: Id, id: ReceiptId, d: Decision): nat {
    match ds
    case Nil => 0
    case Cons(x, rest) =>
      VotesBy(rest, verifier, id, d) + if x.receiptId == id && x.decision == d && x.verifier == verifier then 1 else 0
  }

  predicate NoDecisionBy(ds: List<Verification>, verifier: Id) {
    ds.Cons? ==> ds.head.verifier != verifier && NoDecisionBy(ds.tail, verifier)
  }

  /** Why p must have verified nothing: a succession takes p's own votes, and no others, out of
      every verdict, since the grant does not follow to the successor. */
  lemma {:induction false} OnlyOwnVotesDrop(ds: List<Verification>, before: map<Id, Agent>, after: map<Id, Agent>,
      p: Id, s: Id, id: ReceiptId, d: Decision)
    requires SameOthers(before, after, p, s) && Standing(before, p) && !Standing(after, p) && NoDecisionBy(ds, s)
    ensures Votes(ds, after, id, d) + VotesBy(ds, p, id, d) == Votes(ds, before, id, d)
  {
    if ds.Cons? {
      OnlyOwnVotesDrop(ds.tail, before, after, p, s, id, d);
    }
  }

  function RenameItem(p: Id, s: Id, it: Item): Item {
    it.(party := Rename(p, s, it.party))
  }

  function RenameAll(p: Id, s: Id, items: List<Item>): List<Item> {
    match items
    case Nil => Nil
    case Cons(it, rest) => Cons(RenameItem(p, s, it), RenameAll(p, s, rest))
  }

  /** No counterparty is the newcomer. */
  predicate PartiesAvoid(items: List<Item>, s: Id) {
    items.Cons? ==> items.head.party != s && PartiesAvoid(items.tail, s)
  }

  lemma ItemRenamed(v: View, v': View, p: Id, s: Id, row: (ReceiptId, Receipt), self: List<Id>, self': List<Id>)
    requires HandedOver(v, v', p, s) && SameLine(self, self', s) && !Party(row.1.content, s)
    ensures ItemOf(v', self', row) == RenameItem(p, s, ItemOf(v, self, row))
    ensures ItemOf(v, self, row).party != s
  {
    hide HeadOf, OneIdentity, FreshLink, IsBackMap, OtherParty, Votes;
    OtherPartyRenamed(v, v', p, s, row.1, self, self');
    SameVotes(v.decisions, v.agents, v'.agents, p, s, row.0, Verified);
    SameVotes(v.decisions, v.agents, v'.agents, p, s, row.0, Rejected);
  }

  lemma {:induction false} ItemsRenamed(v: View, v': View, p: Id, s: Id, rows: Rows, self: List<Id>, self': List<Id>)
    requires HandedOver(v, v', p, s) && SameLine(self, self', s) && RowsAvoid(rows, s)
    ensures ItemsOf(v', self', rows) == RenameAll(p, s, ItemsOf(v, self, rows))
    ensures PartiesAvoid(ItemsOf(v, self, rows), s)
  {
    if rows.Cons? {
      hide HandedOver, SameLine, ItemOf, RenameItem;
      ItemRenamed(v, v', p, s, rows.head, self, self');
      ItemsRenamed(v, v', p, s, rows.tail, self, self');
    }
  }

  lemma {:induction false} InsertAvoids(row: (ReceiptId, Receipt), rows: Rows, s: Id)
    requires RowsAvoid(rows, s) && !Party(row.1.content, s)
    ensures RowsAvoid(InsertByTime(row, rows), s)
  {
    if rows.Cons? {
      InsertAvoids(row, rows.tail, s);
    }
  }

  lemma {:induction false} SortAvoids(rows: Rows, s: Id)
    requires RowsAvoid(rows, s)
    ensures RowsAvoid(SortByTime(rows), s)
  {
    if rows.Cons? {
      SortAvoids(rows.tail, s);
      InsertAvoids(rows.head, SortByTime(rows.tail), s);
    }
  }

  lemma {:induction false} PastRenamed(p: Id, s: Id, items: List<Item>, done: History)
    requires PartiesAvoid(items, s) && PartiesAvoid(done, s)
    ensures Past(RenameAll(p, s, items), RenameAll(p, s, done)) == RenameAll(p, s, Past(items, done))
    ensures PartiesAvoid(Past(items, done), s)
    decreases items
  {
    if items.Cons? {
      PastRenamed(p, s, items.tail, Cons(items.head, done));
    }
  }

  lemma HistoryRenamed(v: View, v': View, p: Id, s: Id, x: Id)
    requires HandedOver(v, v', p, s) && x != s
    ensures HistoryOf(v', Rename(p, s, x)) == RenameAll(p, s, HistoryOf(v, x))
    ensures PartiesAvoid(HistoryOf(v, x), s)
  {
    hide HeadOf, OneIdentity, FreshLink, IsBackMap, SortByTime, CountedRows, ItemsOf;
    LineOf(v, v', p, s, x);
    var self, self' := LineageOf(v.back, x), LineageOf(v'.back, Rename(p, s, x));
    var rows := CountedRows(v.table, self, v.now);
    SameCountedRows(v.table, self, self', s, v.now);
    SortAvoids(rows, s);
    ItemsRenamed(v, v', p, s, SortByTime(rows), self, self');
    PastRenamed(p, s, ItemsOf(v, self, SortByTime(rows)), Nil);
  }

  lemma {:induction false} CountRenamed(p: Id, s: Id, h: History, k: Id)
    requires PartiesAvoid(h, s) && k != s
    ensures Count(RenameAll(p, s, h), Rename(p, s, k)) == Count(h, k) && Length(RenameAll(p, s, h)) == Length(h)
  {
    if h.Cons? {
      CountRenamed(p, s, h.tail, k);
    }
  }

  // ---------------------------------------------------------------- weights and sums

  ghost predicate SamePool(pool: Pool, pool': Pool, p: Id, s: Id) {
    && pool'.ln1p == pool.ln1p && pool'.capRatio == pool.capRatio
    && forall k | k != s ::
         pool'.trust(Rename(p, s, k)) == pool.trust(k) && pool'.anchored(Rename(p, s, k)) == pool.anchored(k)
  }

  lemma {:induction false} PoolRenamed(v: View, v': View, p: Id, s: Id, x: Id, h: History)
    requires HandedOver(v, v', p, s) && x != s && PartiesAvoid(h, s)
    ensures SamePool(PoolOf(v, x, h), PoolOf(v', Rename(p, s, x), RenameAll(p, s, h)), p, s)
  {
    hide HandedOver, BaseTrust, Anchored, InCluster;
    var x', h' := Rename(p, s, x), RenameAll(p, s, h);
    var f, f' := (y: Id) => InCluster(v, x, h, y), (y: Id) => InCluster(v', x', h', y);
    forall y | y != s
      ensures f'(Rename(p, s, y)) == f(y)
    {
      ClusterRenamed(v, v', p, s, x, h, y);
    }
    forall k | k != s
      ensures BaseTrust(v', Rename(p, s, k)) == BaseTrust(v, k)
      ensures Anchored(v', Rename(p, s, k), f') == Anchored(v, k, f)
    {
      TrustRenamed(v, v', p, s, k);
      AnchoredRenamed(v, v', p, s, k, f, f');
    }
    ParamsKept(v, v', p, s);
    PoolIs(v, x, h, f);
    PoolIs(v', x', h', f');
  }

  lemma ParamsKept(v: View, v': View, p: Id, s: Id)
    requires HandedOver(v, v', p, s)
    ensures v'.params == v.params
  {}

  lemma PoolIs(v: View, x: Id, h: History, f: Id -> bool)
    requires f == (y => InCluster(v, x, h, y))
    ensures forall k :: PoolOf(v, x, h).trust(k) == BaseTrust(v, k) && PoolOf(v, x, h).anchored(k) == Anchored(v, k, f)
  {}

  lemma ClusterRenamed(v: View, v': View, p: Id, s: Id, x: Id, h: History, y: Id)
    requires HandedOver(v, v', p, s) && x != s && PartiesAvoid(h, s) && y != s
    ensures InCluster(v', Rename(p, s, x), RenameAll(p, s, h), Rename(p, s, y)) == InCluster(v, x, h, y)
  {
    hide HandedOver, HeadOf, Count, Contains, LineageOf;
    LineOf(v, v', p, s, x);
    OwnHeadRenamed(v, v', p, s, x);
    HeadRenamed(v, v', p, s, x);
    CountRenamed(p, s, h, y);
  }

  lemma {:induction false} WeightRenamed(pool: Pool, pool': Pool, p: Id, s: Id, all: History,
      earlier: History, it: Item)
    requires SamePool(pool, pool', p, s) && it.party != s
    requires PartiesAvoid(all, s) && PartiesAvoid(earlier, s)
    ensures Weight(pool', RenameAll(p, s, all), RenameAll(p, s, earlier), RenameItem(p, s, it))
        == Weight(pool, all, earlier, it)
  {
    hide CapSize, PairWeight, PartiesAvoid;
    CountRenamed(p, s, all, it.party);
    CountRenamed(p, s, earlier, it.party);
  }

  lemma {:induction false} TotalsRenamed(pool: Pool, pool': Pool, p: Id, s: Id, all: History,
      h: History, role: bool)
    requires SamePool(pool, pool', p, s) && PartiesAvoid(all, s) && PartiesAvoid(h, s)
    ensures Total(pool', RenameAll(p, s, all), RenameAll(p, s, h)) == Total(pool, all, h)
    ensures RoleTotal(pool', RenameAll(p, s, all), RenameAll(p, s, h), role) == RoleTotal(pool, all, h, role)
  {
    if h.Cons? {
      hide Weight, SamePool, OutcomeScore;
      TotalsRenamed(pool, pool', p, s, all, h.tail, role);
      WeightRenamed(pool, pool', p, s, all, h.tail, h.head);
      assert OutcomeScore(RenameItem(p, s, h.head)) == OutcomeScore(h.head) by {
        SameOutcome(p, s, h.head);
      }
    }
  }

  lemma SameOutcome(p: Id, s: Id, it: Item)
    ensures OutcomeScore(RenameItem(p, s, it)) == OutcomeScore(it)
  {}

  lemma {:induction false} VerdictsRenamed(p: Id, s: Id, h: History, verdict: Verdict)
    ensures Verdicts(RenameAll(p, s, h), verdict) == Verdicts(h, verdict)
  {
    if h.Cons? {
      VerdictsRenamed(p, s, h.tail, verdict);
    }
  }

  // ---------------------------------------------------------------- reports

  function RenameIds(p: Id, s: Id, ids: List<Id>): List<Id> {
    match ids
    case Nil => Nil
    case Cons(k, rest) => Cons(Rename(p, s, k), RenameIds(p, s, rest))
  }

  lemma {:induction false} RenamedContains(p: Id, s: Id, ids: List<Id>, k: Id)
    requires !Contains(ids, s) && k != s
    ensures Contains(RenameIds(p, s, ids), Rename(p, s, k)) <==> Contains(ids, k)
  {
    if ids.Cons? {
      RenamedContains(p, s, ids.tail, k);
    }
  }

  lemma {:induction false} PostersRenamed(v: View, v': View, p: Id, s: Id, jobs: List<Job>, self: List<Id>,
      self': List<Id>)
    requires HandedOver(v, v', p, s) && SameLine(self, self', s) && JobsAvoid(jobs, s)
    ensures Posters(jobs, self', v'.succ) == RenameIds(p, s, Posters(jobs, self, v.succ))
    ensures !Contains(Posters(jobs, self, v.succ), s)
  {
    if jobs.Cons? {
      hide HandedOver, HeadOf;
      PostersRenamed(v, v', p, s, jobs.tail, self, self');
      HeadRenamed(v, v', p, s, jobs.head.postedBy);
      RenamedContains(p, s, Posters(jobs.tail, self, v.succ), HeadOf(v.succ, jobs.head.postedBy));
    }
  }

  lemma {:induction false} TrustSumRenamed(v: View, v': View, p: Id, s: Id, ids: List<Id>)
    requires HandedOver(v, v', p, s) && !Contains(ids, s)
    ensures TrustSum(v', RenameIds(p, s, ids)) == TrustSum(v, ids)
  {
    if ids.Cons? {
      hide HandedOver, BaseTrust;
      TrustSumRenamed(v, v', p, s, ids.tail);
      TrustRenamed(v, v', p, s, ids.head);
    }
  }

  lemma ReportsRenamed(v: View, v': View, p: Id, s: Id, x: Id)
    requires HandedOver(v, v', p, s) && x != s
    ensures ReportWeight(v', Rename(p, s, x)) == ReportWeight(v, x)
  {
    hide HeadOf, OneIdentity, FreshLink, IsBackMap, Posters, TrustSum;
    LineOf(v, v', p, s, x);
    var self, self' := LineageOf(v.back, x), LineageOf(v'.back, Rename(p, s, x));
    PostersRenamed(v, v', p, s, v.jobs, self, self');
    TrustSumRenamed(v, v', p, s, Posters(v.jobs, self, v.succ));
  }

  // ---------------------------------------------------------------- the theorem on views

  lemma StakeKept(v: View, v': View, p: Id, s: Id, x: Id)
    requires HandedOver(v, v', p, s) && x in v.agents
    ensures Rename(p, s, x) in v'.agents && v'.agents[Rename(p, s, x)].stake == v.agents[x].stake && x != s
  {
    hide OneIdentity, FreshLink, IsBackMap;
  }

  /** With x other than p: nothing changes for x.  With x = p: s takes over the summary of p. */
  lemma {:induction false} SummaryRenamed(v: View, v': View, p: Id, s: Id, x: Id)
    requires HandedOver(v, v', p, s) && x in v.agents
    ensures Rename(p, s, x) in v'.agents && SummaryOf(v', Rename(p, s, x)) == SummaryOf(v, x)
  {
    hide HandedOver, HistoryOf, PoolOf, SamePool, PartiesAvoid, Total, RoleTotal, ReportWeight, TrustScore,
        StakeComponent, RenameAll, Verdicts;
    var x', h := Rename(p, s, x), HistoryOf(v, x);
    StakeKept(v, v', p, s, x);
    ParamsKept(v, v', p, s);
    HistoryRenamed(v, v', p, s, x);
    PoolRenamed(v, v', p, s, x, h);
    TotalsRenamed(PoolOf(v, x, h), PoolOf(v', x', RenameAll(p, s, h)), p, s, h, h, true);
    TotalsRenamed(PoolOf(v, x, h), PoolOf(v', x', RenameAll(p, s, h)), p, s, h, h, false);
    VerdictsRenamed(p, s, h, NetVerified);
    VerdictsRenamed(p, s, h, NetRejected);
    ReportsRenamed(v, v', p, s, x);
  }
}
