/** What one piece of evidence more, or seen otherwise, does to a score. */
module ReputationChanges {
  import opened Options
  import opened Lists
  import opened Succession
  import opened Registry
  import opened ReputationScore
  import opened Reputation

  // ---------------------------------------------------------------- what has no influence

  /** Two views that differ at most in jobs and in receipts that do not count. */
  ghost predicate SameEvidence(v: View, v': View) {
    && v' == v.(jobs := v'.jobs, table := v'.table)
    && forall self :: CountedRows(v'.table, self, v.now) == CountedRows(v.table, self, v.now)
  }

  lemma {:induction false} SameItems(v: View, v': View, self: List<Id>, rows: Rows)
    requires SameEvidence(v, v')
    ensures ItemsOf(v', self, rows) == ItemsOf(v, self, rows)
  {
    if rows.Cons? {
      SameItems(v, v', self, rows.tail);
    }
  }

  lemma SameTrust(v: View, v': View, k: Id)
    requires SameEvidence(v, v')
    ensures BaseTrust(v', k) == BaseTrust(v, k)
  {}

  lemma WeightPointwise(pool: Pool, pool': Pool, all: History, earlier: History, it: Item)
    requires pool'.ln1p == pool.ln1p && pool'.capRatio == pool.capRatio
    requires pool'.trust(it.party) == pool.trust(it.party) && pool'.anchored(it.party) == pool.anchored(it.party)
    ensures Weight(pool', all, earlier, it) == Weight(pool, all, earlier, it)
  {
    hide PairWeight, CapSize, Boost, Count;
  }

  lemma {:induction false} TotalPointwise(pool: Pool, pool': Pool, all: History, h: History, role: bool)
    requires pool'.ln1p == pool.ln1p && pool'.capRatio == pool.capRatio
    requires forall k :: pool'.trust(k) == pool.trust(k) && pool'.anchored(k) == pool.anchored(k)
    ensures Total(pool', all, h) == Total(pool, all, h)
    ensures RoleTotal(pool', all, h, role) == RoleTotal(pool, all, h, role)
  {
    if h.Cons? {
      hide Weight, OutcomeScore;
      TotalPointwise(pool, pool', all, h.tail, role);
      WeightPointwise(pool, pool', all, h.tail, h.head);
    }
  }

  lemma SameAnchored(v: View, v': View, id: Id, h: History, k: Id)
    requires SameEvidence(v, v')
    ensures PoolOf(v', id, h).anchored(k) == PoolOf(v, id, h).anchored(k)
  {
    hide LineageOf, HeadOf;
    SomeOutsideSame(CountedRows(v.table, LineageOf(v.back, k), v.now), LineageOf(v.back, k), v.succ,
                    y => InCluster(v, id, h, y), y => InCluster(v', id, h, y));
  }

  lemma SameTotals(v: View, v': View, id: Id, h: History)
    requires SameEvidence(v, v')
    ensures Total(PoolOf(v', id, h), h, h) == Total(PoolOf(v, id, h), h, h)
    ensures forall role :: RoleTotal(PoolOf(v', id, h), h, h, role) == RoleTotal(PoolOf(v, id, h), h, h, role)
  {
    hide BaseTrust, Anchored, CountedRows;
    forall k
      ensures PoolOf(v', id, h).trust(k) == PoolOf(v, id, h).trust(k)
      ensures PoolOf(v', id, h).anchored(k) == PoolOf(v, id, h).anchored(k)
    {
      SameTrust(v, v', k);
      SameAnchored(v, v', id, h, k);
    }
    TotalPointwise(PoolOf(v, id, h), PoolOf(v', id, h), h, h, true);
    TotalPointwise(PoolOf(v, id, h), PoolOf(v', id, h), h, h, false);
  }

  lemma SameHistory(v: View, v': View, id: Id)
    requires SameEvidence(v, v')
    ensures HistoryOf(v', id) == HistoryOf(v, id)
  {
    var self := LineageOf(v.back, id);
    SameItems(v, v', self, SortByTime(CountedRows(v.table, self, v.now)));
  }

  lemma {:induction false} SameTrustSum(v: View, v': View, ids: List<Id>)
    requires SameEvidence(v, v')
    ensures TrustSum(v', ids) == TrustSum(v, ids)
  {
    if ids.Cons? {
      hide BaseTrust, CountedRows;
      SameTrustSum(v, v', ids.tail);
      SameTrust(v, v', ids.head);
    }
  }

  lemma SameSummary(v: View, v': View, id: Id)
    requires SameEvidence(v, v') && id in v.agents
    requires TrustSum(v', Posters(v'.jobs, LineageOf(v.back, id), v.succ)) == ReportWeight(v, id)
    ensures SummaryOf(v', id) == SummaryOf(v, id)
  {
    hide HistoryOf, PoolOf, Total, RoleTotal, TrustScore, StakeComponent, LineageOf, HeadOf, BaseTrust, TrustSum,
        Posters;
    SameHistory(v, v', id);
    SameTotals(v, v', id, HistoryOf(v, id));
  }

  lemma {:induction false} CountedRowsAppend(front: Rows, back: Rows, self: List<Id>, now: Time)
    ensures CountedRows(Append(front, back), self, now)
         == Append(CountedRows(front, self, now), CountedRows(back, self, now))
  {
    if front.Cons? {
      hide CountsTowardReputation, Mine;
      CountedRowsAppend(front.tail, back, self, now);
    }
  }

  /** A receipt that does not count (a draft, a demo receipt, or one under active dispute) has no
      influence on anybody's score, wherever the table lists it: not as history, not on trust, not
      on anchoring. */
  lemma UncountedReceiptIgnored(v: View, front: Rows, row: (ReceiptId, Receipt), back: Rows, id: Id)
    requires id in v.agents && v.table == Append(front, back) && !CountsTowardReputation(row.1, v.now)
    ensures SummaryOf(v.(table := Append(front, Cons(row, back))), id) == SummaryOf(v, id)
  {
    hide CountsTowardReputation, SummaryOf, TrustSum, Posters, BaseTrust;
    var v' := v.(table := Append(front, Cons(row, back)));
    forall self
      ensures CountedRows(v'.table, self, v.now) == CountedRows(v.table, self, v.now)
    {
      CountedRowsAppend(front, Cons(row, back), self, v.now);
      CountedRowsAppend(front, back, self, v.now);
    }
    SameTrustSum(v, v', Posters(v.jobs, LineageOf(v.back, id), v.succ));
    SameSummary(v, v', id);
  }

  // ---------------------------------------------------------------- a non-performance report

  /** One more report, wherever the jobs are listed: its chain joins the reporting chains unless it
      is one of them, and its trust is added once. */
  lemma {:induction false} PostersWithReport(v: View, front: List<Job>, job: Job, back: List<Job>, self: List<Id>,
      x: Id)
    requires ReportedAgainst(job, self)
    ensures var k := HeadOf(v.succ, job.postedBy);
      var more := Posters(Append(front, Cons(job, back)), self, v.succ);
      var less := Posters(Append(front, back), self, v.succ);
      && (Contains(more, x) <==> Contains(less, x) || x == k)
      && TrustSum(v, more) == TrustSum(v, less) + if Contains(less, k) then 0.0 else BaseTrust(v, k)
    decreases front
  {
    hide HeadOf, BaseTrust, ReportedAgainst;
    if front.Cons? {
      PostersWithReport(v, front.tail, job, back, self, x);
      PostersWithReport(v, front.tail, job, back, self, HeadOf(v.succ, front.head.postedBy));
    }
  }

  /** One more report against the agent: from a chain that has reported before it changes nothing;
      from a new one it never raises the score if and only if weighted success has reached 5/7. */
  lemma {:induction false} ReportEffect(v: View, id: Id, front: List<Job>, job: Job, back: List<Job>)
    requires id in v.agents && Reasonable(v.params) && v.jobs == Append(front, back)
    requires ReportedAgainst(job, LineageOf(v.back, id))
    ensures var v' := v.(jobs := Append(front, Cons(job, back)));
      var before, after := SummaryOf(v, id), SummaryOf(v', id);
      if Contains(Posters(v.jobs, LineageOf(v.back, id), v.succ), HeadOf(v.succ, job.postedBy)) then after == before
      else after.score <= before.score <==> before.all.success >= 5.0 / 7.0
  {
    hide HistoryOf, PoolOf, Total, RoleTotal, TrustScore, StakeComponent, LineageOf, HeadOf, BaseTrust, Earned,
        Posters, TrustSum, ReportedAgainst;
    var v', k := v.(jobs := Append(front, Cons(job, back))), HeadOf(v.succ, job.postedBy);
    var self := LineageOf(v.back, id);
    PostersWithReport(v, front, job, back, self, k);
    SameTrustSum(v, v', Posters(v'.jobs, self, v.succ));
    if Contains(Posters(v.jobs, self, v.succ), k) {
      SameSummary(v, v', id);
    } else {
      SameHistory(v, v', id);
      SameTotals(v, v', id, HistoryOf(v, id));
      SummaryWeights(v, id);
      TrustPositive(v, k);
      var before := SummaryOf(v, id);
      FailureRaisesExactlyBelow(StakeComponent(v.params, v.agents[id].stake), before.all.weight, before.all.success,
          BaseTrust(v, k));
    }
  }
}
