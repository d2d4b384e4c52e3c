/** What a summary says about the tables it was computed from. */
module ReputationTables {
  // Everything here is stated of the rows themselves: which receipts count, who the counterparty
  // is, which role the agent had, who vouches for whom, who reported.

  import opened Lists
  import opened Succession
  import opened Registry
  import opened Chronicle
  import opened RegistryHistory
  import opened ReputationScore
  import opened Reputation

  // ---------------------------------------------------------------- which receipts count

  /** Submitted for a capability that is no demo, countersigned, and not contested since, unless the last
      contest is 72 hours old. */
  predicate CountsByStory(env: Env, h: Grants, id: ReceiptId, now: Time) {
    && Done(env, h, Submitting(id)) && Done(env, h, Signing(id))
    && !("demo." <= Latest(env, h, Submitting(id)).value.op.content.capability)
    && (Contested(env, h, id) ==> Latest(env, h, Disputing(id)).value.op.stamp + THREE_DAYS <= now)
  }

  lemma ToldReceiptCounts(env: Env, h: Grants, receipts: map<ReceiptId, Receipt>, id: ReceiptId, now: Time)
    requires ReceiptTold(env, h, id, receipts)
    ensures (id in receipts && CountsTowardReputation(receipts[id], now)) <==> CountsByStory(env, h, id, now)
  {
    hide Latest;
  }

  /** After every run, which receipts count can be told from the granted requests alone. */
  lemma CountsExactly(env: Env, qs: List<Request>, w: World, id: ReceiptId, now: Time)
    requires Run(env, EMPTY, qs, w)
    ensures (id in w.receipts && CountsTowardReputation(w.receipts[id], now))
       <==> CountsByStory(env, After(env, EMPTY, qs, w, NOTHING_YET).grants, id, now)
  {
    hide Run, After, ReceiptTold, JobTold, VerificationTold, AgentTold, DecisionsTold, DeliveriesTold, CountsByStory,
      CountsTowardReputation;
    var c := After(env, EMPTY, qs, w, NOTHING_YET);
    TablesTellTheStory(env, qs, w);
    assert ReceiptTold(env, c.grants, id, w.receipts);
    ToldReceiptCounts(env, c.grants, w.receipts, id, now);
  }

  // ---------------------------------------------------------------- features of a receipt

  /** What can be said of a counted receipt, as seen from an agent's lineage. */
  datatype Feature = WithParty(party: Id) | AsWorker | AsRequester | Judged(verdict: Verdict)

  /** The receipt of this row involves the lineage and counts. */
  predicate Evidence(v: View, self: List<Id>, r: Receipt) {
    (Contains(self, r.content.a) || Contains(self, r.content.b)) && CountsTowardReputation(r, v.now)
  }

  predicate RowHas(v: View, self: List<Id>, row: (ReceiptId, Receipt), feature: Feature) {
    match feature
    case WithParty(k) =>
      k == HeadOf(v.succ, if Contains(self, row.1.content.a) then row.1.content.b else row.1.content.a)
    case AsWorker => Contains(self, row.1.content.b)
    case AsRequester => !Contains(self, row.1.content.b)
    case Judged(verdict) => AttestationVerdict(v, row.0) == verdict
  }

  /** Rows of the table that are evidence and have the feature. */
  function RowsWith(v: View, self: List<Id>, table: Rows, feature: Feature): nat {
    match table
    case Nil => 0
    case Cons(row, rest) =>
      RowsWith(v, self, rest, feature) + if Evidence(v, self, row.1) && RowHas(v, self, row, feature) then 1 else 0
  }

  predicate ItemHas(it: Item, feature: Feature) {
    match feature
    case WithParty(k) => it.party == k
    case AsWorker => it.provider
    case AsRequester => !it.provider
    case Judged(verdict) => it.verdict == verdict
  }

  function ItemsWith(h: History, feature: Feature): nat {
    match h
    case Nil => 0
    case Cons(it, earlier) => ItemsWith(earlier, feature) + if ItemHas(it, feature) then 1 else 0
  }

  function AllWith(v: View, self: List<Id>, rows: Rows, feature: Feature): nat {
    match rows
    case Nil => 0
    case Cons(row, rest) => AllWith(v, self, rest, feature) + if RowHas(v, self, row, feature) then 1 else 0
  }

  lemma {:induction false} CountedWith(v: View, self: List<Id>, table: Rows, feature: Feature)
    ensures AllWith(v, self, CountedRows(table, self, v.now), feature) == RowsWith(v, self, table, feature)
  {
    if table.Cons? {
      hide RowHas, CountsTowardReputation;
      CountedWith(v, self, table.tail, feature);
    }
  }

  lemma {:induction false} InsertedWith(v: View, self: List<Id>, row: (ReceiptId, Receipt), rows: Rows,
      feature: Feature)
    ensures AllWith(v, self, InsertByTime(row, rows), feature) == AllWith(v, self, Cons(row, rows), feature)
  {
    hide RowHas;
    if rows.Cons? {
      InsertedWith(v, self, row, rows.tail, feature);
    }
  }

  lemma {:induction false} SortedWith(v: View, self: List<Id>, rows: Rows, feature: Feature)
    ensures AllWith(v, self, SortByTime(rows), feature) == AllWith(v, self, rows, feature)
  {
    hide RowHas;
    if rows.Cons? {
      SortedWith(v, self, rows.tail, feature);
      InsertedWith(v, self, rows.head, SortByTime(rows.tail), feature);
    }
  }

  lemma {:induction false} PastWith(v: View, self: List<Id>, rows: Rows, done: History, feature: Feature)
    ensures ItemsWith(Past(ItemsOf(v, self, rows), done), feature)
        == AllWith(v, self, rows, feature) + ItemsWith(done, feature)
    decreases rows
  {
    if rows.Cons? {
      var it := ItemOf(v, self, rows.head);
      assert ItemHas(it, feature) <==> RowHas(v, self, rows.head, feature);
      hide RowHas, ItemHas, ItemOf;
      PastWith(v, self, rows.tail, Cons(it, done), feature);
    }
  }

  /** The history has a feature as often as the table's evidence has it. */
  lemma HistoryWith(v: View, id: Id, feature: Feature)
    ensures ItemsWith(HistoryOf(v, id), feature) == RowsWith(v, LineageOf(v.back, id), v.table, feature)
  {
    hide RowHas, ItemHas, RowsWith;
    var self := LineageOf(v.back, id);
    var rows := CountedRows(v.table, self, v.now);
    CountedWith(v, self, v.table, feature);
    SortedWith(v, self, rows, feature);
    PastWith(v, self, SortByTime(rows), Nil, feature);
  }

  lemma {:induction false} CountIsItems(h: History, k: Id)
    ensures Count(h, k) == ItemsWith(h, WithParty(k))
  {
    if h.Cons? {
      CountIsItems(h.tail, k);
    }
  }

  lemma {:induction false} VerdictsAreItems(h: History, verdict: Verdict)
    ensures Verdicts(h, verdict) == ItemsWith(h, Judged(verdict))
  {
    if h.Cons? {
      VerdictsAreItems(h.tail, verdict);
    }
  }

  lemma {:induction false} RolesAreItems(pool: Pool, all: History, h: History, worker: bool)
    ensures RoleTotal(pool, all, h, worker).count == ItemsWith(h, if worker then AsWorker else AsRequester)
  {
    if h.Cons? {
      hide Weight, OutcomeScore;
      RolesAreItems(pool, all, h.tail, worker);
    }
  }

  /** The summary counts the table's receipts: as provider those the lineage worked on, as requester
      the others it is party to, attested and rejected by the verdict on each.  The tallies of the
      two roles add up to the whole, and reports weigh on the provider. */
  lemma {:induction false} SummaryCountsReceipts(v: View, id: Id)
    requires id in v.agents
    ensures var s, self := SummaryOf(v, id), LineageOf(v.back, id);
      && s.asProvider.count == RowsWith(v, self, v.table, AsWorker)
      && s.asRequester.count == RowsWith(v, self, v.table, AsRequester)
      && s.attested == RowsWith(v, self, v.table, Judged(NetVerified))
      && s.rejected == RowsWith(v, self, v.table, Judged(NetRejected))
      && s.all.count == s.asProvider.count + s.asRequester.count
      && s.all.weight == s.asProvider.weight + s.asRequester.weight
      && s.all.success == s.asProvider.success + s.asRequester.success
    ensures RowsWith(v, LineageOf(v.back, id), v.table, AsWorker) == 0 ==>
        SummaryOf(v, id).asProvider == Tally(ReportWeight(v, id), 0.0, 0)
  {
    hide RowsWith, TrustScore, Total, RoleTotal, PoolOf, HistoryOf, ReportWeight;
    var h := HistoryOf(v, id);
    var pool := PoolOf(v, id, h);
    RolesAreItems(pool, h, h, true);
    RolesAreItems(pool, h, h, false);
    VerdictsAreItems(h, NetVerified);
    VerdictsAreItems(h, NetRejected);
    HistoryWith(v, id, AsWorker);
    HistoryWith(v, id, AsRequester);
    HistoryWith(v, id, Judged(NetVerified));
    HistoryWith(v, id, Judged(NetRejected));
    RolesPartition(pool, h, h);
    EmptyRole(pool, h, h, true);
  }

  lemma {:induction false} EmptyRole(pool: Pool, all: History, h: History, worker: bool)
    ensures RoleTotal(pool, all, h, worker).count == 0 ==> RoleTotal(pool, all, h, worker) == NOTHING
  {
    if h.Cons? {
      hide Weight, OutcomeScore;
      EmptyRole(pool, all, h.tail, worker);
    }
  }

  // ---------------------------------------------------------------- who vouches for whom

  predicate Among(table: Rows, row: (ReceiptId, Receipt)) {
    table.Cons? && (table.head == row || Among(table.tail, row))
  }

  /** A row of the table that is evidence about the lineage, with this counterparty. */
  predicate Deal(v: View, self: List<Id>, row: (ReceiptId, Receipt), k: Id) {
    Among(v.table, row) && Evidence(v, self, row.1) && RowHas(v, self, row, WithParty(k))
  }

  lemma {:induction false} SomeRow(v: View, self: List<Id>, table: Rows, feature: Feature)
    ensures RowsWith(v, self, table, feature) > 0
       <==> exists row :: Among(table, row) && Evidence(v, self, row.1) && RowHas(v, self, row, feature)
  {
    if table.Cons? {
      hide Evidence, RowHas;
      SomeRow(v, self, table.tail, feature);
      if Evidence(v, self, table.head.1) && RowHas(v, self, table.head, feature) {
        assert Among(table, table.head);
      }
      forall row | Among(table.tail, row)
        ensures Among(table, row)
      {
      }
    }
  }

  /** The cluster of an agent is its lineage, the head of its chain, and whoever it has a deal with. */
  lemma ClusterExactly(v: View, id: Id, k: Id)
    ensures var self := LineageOf(v.back, id);
      InCluster(v, id, HistoryOf(v, id), k)
      <==> Contains(self, k) || k == HeadOf(v.succ, id) || exists row :: Deal(v, self, row, k)
  {
    hide HistoryOf, LineageOf, RowsWith, Evidence, RowHas, HeadOf;
    var self := LineageOf(v.back, id);
    CountIsItems(HistoryOf(v, id), k);
    HistoryWith(v, id, WithParty(k));
    SomeRow(v, self, v.table, WithParty(k));
    if RowsWith(v, self, v.table, WithParty(k)) > 0 {
      var row :| Among(v.table, row) && Evidence(v, self, row.1) && RowHas(v, self, row, WithParty(k));
      assert Deal(v, self, row, k);
    }
  }

  lemma {:induction false} OutsideExactly(v: View, self: List<Id>, table: Rows, excluded: Id -> bool)
    ensures SomeOutside(CountedRows(table, self, v.now), self, v.succ, excluded)
       <==> exists row :: Among(table, row) && Evidence(v, self, row.1) && !excluded(PartyOf(v, self, row.1))
  {
    if table.Cons? {
      hide CountsTowardReputation, HeadOf;
      OutsideExactly(v, self, table.tail, excluded);
      if Evidence(v, self, table.head.1) && !excluded(PartyOf(v, self, table.head.1)) {
        assert Among(table, table.head);
      }
      forall row | Among(table.tail, row)
        ensures Among(table, row)
      {
      }
    }
  }

  function PartyOf(v: View, self: List<Id>, r: Receipt): Id {
    HeadOf(v.succ, if Contains(self, r.content.a) then r.content.b else r.content.a)
  }

  /** A counterparty has standing of its own if and only if it is registered and has stake or a deal
      with somebody outside. */
  lemma AnchoredExactly(v: View, id: Id, excluded: Id -> bool)
    ensures var self := LineageOf(v.back, id);
      Anchored(v, id, excluded)
      <==> id in v.agents
           && (v.agents[id].stake > 0.0 || exists row, k :: Deal(v, self, row, k) && !excluded(k))
  {
    hide LineageOf, Evidence, HeadOf;
    var self := LineageOf(v.back, id);
    OutsideExactly(v, self, v.table, excluded);
    if SomeOutside(CountedRows(v.table, self, v.now), self, v.succ, excluded) {
      var row :| Among(v.table, row) && Evidence(v, self, row.1) && !excluded(PartyOf(v, self, row.1));
      assert Deal(v, self, row, PartyOf(v, self, row.1));
    }
  }

  // ---------------------------------------------------------------- who reported

  predicate Posted(jobs: List<Job>, job: Job) {
    jobs.Cons? && (jobs.head == job || Posted(jobs.tail, job))
  }

  predicate Unrepeated(ids: List<Id>) {
    ids.Cons? ==> !Contains(ids.tail, ids.head) && Unrepeated(ids.tail)
  }

  /** The job ended in non-performance while an ID of the lineage was its accepted worker. */
  predicate FailedBy(job: Job, self: List<Id>) {
    match (job.status, job.acceptedAgent)
    case (NonPerformed, Some(worker)) => Contains(self, worker)
    case _ => false
  }

  /** Each reporting chain weighs once, and a chain reports if and only if one of its IDs posted a
      job that the lineage failed. */
  lemma {:induction false} PostersExactly(jobs: List<Job>, self: List<Id>, succ: SuccMap, k: Id)
    ensures Unrepeated(Posters(jobs, self, succ))
    ensures Contains(Posters(jobs, self, succ), k)
       <==> exists job :: Posted(jobs, job) && FailedBy(job, self) && HeadOf(succ, job.postedBy) == k
  {
    if jobs.Cons? {
      hide HeadOf;
      PostersExactly(jobs.tail, self, succ, k);
      if FailedBy(jobs.head, self) && HeadOf(succ, jobs.head.postedBy) == k {
        assert Posted(jobs, jobs.head);
      }
      forall job | Posted(jobs.tail, job)
        ensures Posted(jobs, job)
      {
      }
    }
  }
}
