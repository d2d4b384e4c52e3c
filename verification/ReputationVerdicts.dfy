/** What verifiers' decisions do to a verdict, and to a score. */
module ReputationVerdicts {
  import opened Options
  import opened Lists
  import opened Succession
  import opened Registry
  import opened ReputationScore
  import opened Reputation
  import opened ReputationChanges

  // ---------------------------------------------------------------- verdicts

  /** A decision on receipt r by a verifier in standing. */
  predicate Bears(v: View, x: Verification, r: ReceiptId) {
    x.receiptId == r && x.verifier in v.agents && v.agents[x.verifier].isVerifier
    && v.agents[x.verifier].revokedAt.None? && v.agents[x.verifier].succeededBy.None?
  }

  predicate NoneBears(v: View, ds: List<Verification>, r: ReceiptId) {
    ds.Cons? ==> !Bears(v, ds.head, r) && NoneBears(v, ds.tail, r)
  }

  function With(v: View, front: List<Verification>, x: Verification, back: List<Verification>): View {
    v.(decisions := Append(front, Cons(x, back)))
  }

  lemma {:induction false} VotesAppend(front: List<Verification>, back: List<Verification>, agents: map<Id, Agent>,
      r: ReceiptId, d: Decision)
    ensures Votes(Append(front, back), agents, r, d) == Votes(front, agents, r, d) + Votes(back, agents, r, d)
  {
    if front.Cons? {
      hide Standing;
      VotesAppend(front.tail, back, agents, r, d);
    }
  }

  lemma {:induction false} NobodyVotes(v: View, ds: List<Verification>, r: ReceiptId, d: Decision)
    requires NoneBears(v, ds, r)
    ensures Votes(ds, v.agents, r, d) == 0
  {
    if ds.Cons? {
      NobodyVotes(v, ds.tail, r, d);
    }
  }

  /** A single decision that bears on a receipt decides the verdict on it. */
  lemma {:induction false} LoneDecisionDecides(v: View, front: List<Verification>, x: Verification,
      back: List<Verification>, r: ReceiptId)
    requires Bears(v, x, r) && NoneBears(v, front, r) && NoneBears(v, back, r)
    ensures AttestationVerdict(With(v, front, x, back), r)
         == if x.decision == Verified then NetVerified else NetRejected
  {
    VotesAppend(front, Cons(x, back), v.agents, r, Verified);
    VotesAppend(front, Cons(x, back), v.agents, r, Rejected);
    NobodyVotes(v, front, r, Verified);
    NobodyVotes(v, front, r, Rejected);
    NobodyVotes(v, back, r, Verified);
    NobodyVotes(v, back, r, Rejected);
  }

  function Rank(verdict: Verdict): int {
    match verdict
    case NetVerified => 1
    case NoVerdict => 0
    case NetRejected => -1
  }

  /** One more decision that bears moves the verdict by at most one step, and its own way; one that
      does not bear moves nothing; and no decision touches the verdict on another receipt. */
  lemma {:induction false} DecisionMovesVerdict(v: View, front: List<Verification>, x: Verification,
      back: List<Verification>, r: ReceiptId)
    requires v.decisions == Append(front, back)
    ensures var was, becomes := Rank(AttestationVerdict(v, r)), Rank(AttestationVerdict(With(v, front, x, back), r));
      if !Bears(v, x, r) then becomes == was
      else if x.decision == Verified then was <= becomes <= was + 1 else was - 1 <= becomes <= was
  {
    VotesAppend(front, Cons(x, back), v.agents, r, Verified);
    VotesAppend(front, Cons(x, back), v.agents, r, Rejected);
    VotesAppend(front, back, v.agents, r, Verified);
    VotesAppend(front, back, v.agents, r, Rejected);
  }

  // ---------------------------------------------------------------- one receipt judged otherwise

  /** Only the decisions changed, and only the verdict on receipt r with them. */
  ghost predicate OnlyJudged(v: View, v': View, r: ReceiptId) {
    && v' == v.(decisions := v'.decisions)
    && forall q | q != r :: AttestationVerdict(v', q) == AttestationVerdict(v, q)
  }

  function TimesListed(rows: Rows, r: ReceiptId): nat {
    match rows
    case Nil => 0
    case Cons(row, rest) => TimesListed(rest, r) + if row.0 == r then 1 else 0
  }

  /** What the parties of receipt r declared. */
  function Declared(rows: Rows, r: ReceiptId): Option<Outcome> {
    match rows
    case Nil => None
    case Cons(row, rest) => if row.0 == r then Some(row.1.content.outcome) else Declared(rest, r)
  }

  lemma {:induction false} UnlistedUndeclared(rows: Rows, r: ReceiptId)
    ensures TimesListed(rows, r) == 0 <==> Declared(rows, r).None?
  {
    if rows.Cons? {
      UnlistedUndeclared(rows.tail, r);
    }
  }

  lemma {:induction false} InsertedOnce(row: (ReceiptId, Receipt), rows: Rows, r: ReceiptId)
    ensures TimesListed(InsertByTime(row, rows), r) == TimesListed(rows, r) + if row.0 == r then 1 else 0
    ensures TimesListed(InsertByTime(row, rows), r) <= 1 ==>
      Declared(InsertByTime(row, rows), r) == if row.0 == r then Some(row.1.content.outcome) else Declared(rows, r)
  {
    if rows.Cons? {
      InsertedOnce(row, rows.tail, r);
    }
  }

  lemma {:induction false} SortedOnce(rows: Rows, r: ReceiptId)
    ensures TimesListed(SortByTime(rows), r) == TimesListed(rows, r)
    ensures TimesListed(rows, r) <= 1 ==> Declared(SortByTime(rows), r) == Declared(rows, r)
  {
    if rows.Cons? {
      SortedOnce(rows.tail, r);
      InsertedOnce(rows.head, SortByTime(rows.tail), r);
    }
  }

  lemma {:induction false} CountedOnce(rows: Rows, self: List<Id>, now: Time, r: ReceiptId)
    ensures TimesListed(CountedRows(rows, self, now), r) <= TimesListed(rows, r)
    ensures TimesListed(rows, r) <= 1 && TimesListed(CountedRows(rows, self, now), r) == 1 ==>
      Declared(CountedRows(rows, self, now), r) == Declared(rows, r)
  {
    if rows.Cons? {
      hide CountsTowardReputation, Mine;
      CountedOnce(rows.tail, self, now, r);
    }
  }

  lemma {:induction false} OtherItemsStay(v: View, v': View, self: List<Id>, rows: Rows, r: ReceiptId)
    requires OnlyJudged(v, v', r) && TimesListed(rows, r) == 0
    ensures ItemsOf(v', self, rows) == ItemsOf(v, self, rows)
  {
    if rows.Cons? {
      hide AttestationVerdict, OtherParty;
      OtherItemsStay(v, v', self, rows.tail, r);
    }
  }

  lemma {:induction false} PastRevised(items: List<Item>, done: History, i: nat, it: Item)
    requires i < Length(done)
    ensures var n, h := i + Length(items), Past(items, done);
      && Length(h) == Length(items) + Length(done) && Nth(h, n) == Nth(done, i)
      && Past(items, Revise(done, i, it)) == Revise(h, n, it)
    decreases items
  {
    if items.Cons? {
      PastRevised(items.tail, Cons(items.head, done), i + 1, it);
    }
  }

  /** Exactly one item of the history is judged otherwise. */
  lemma {:induction false} PastJudged(v: View, v': View, self: List<Id>, rows: Rows, done: History, r: ReceiptId)
      returns (i: nat)
    requires OnlyJudged(v, v', r) && TimesListed(rows, r) == 1
    ensures var h := Past(ItemsOf(v, self, rows), done);
      && i < Length(h) && Nth(h, i).verdict == AttestationVerdict(v, r)
      && Declared(rows, r) == Some(Nth(h, i).outcome)
      && Past(ItemsOf(v', self, rows), done) == Revise(h, i, Nth(h, i).(verdict := AttestationVerdict(v', r)))
    decreases rows
  {
    hide AttestationVerdict, OtherParty;
    var it := ItemOf(v, self, rows.head);
    if rows.head.0 == r {
      OtherItemsStay(v, v', self, rows.tail, r);
      i := Length(ItemsOf(v, self, rows.tail));
      PastRevised(ItemsOf(v, self, rows.tail), Cons(it, done), 0, it.(verdict := AttestationVerdict(v', r)));
    } else {
      i := PastJudged(v, v', self, rows.tail, Cons(it, done), r);
    }
  }

  lemma PoolsAgree(v: View, v': View, r: ReceiptId, id: Id, h: History, h': History)
    requires OnlyJudged(v, v', r) && forall k :: Count(h', k) == Count(h, k)
    ensures forall k :: PoolOf(v', id, h').trust(k) == PoolOf(v, id, h).trust(k)
    ensures forall k :: PoolOf(v', id, h').anchored(k) == PoolOf(v, id, h).anchored(k)
  {
    hide LineageOf, HeadOf, AttestationVerdict, CountedRows;
    forall k
      ensures PoolOf(v', id, h').trust(k) == PoolOf(v, id, h).trust(k)
      ensures PoolOf(v', id, h').anchored(k) == PoolOf(v, id, h).anchored(k)
    {
      SomeOutsideSame(CountedRows(v.table, LineageOf(v.back, k), v.now), LineageOf(v.back, k), v.succ,
          y => InCluster(v, id, h, y), y => InCluster(v', id, h', y));
    }
  }

  lemma {:induction false} JudgedTrustSum(v: View, v': View, r: ReceiptId, ids: List<Id>)
    requires OnlyJudged(v, v', r)
    ensures TrustSum(v', ids) == TrustSum(v, ids)
  {
    if ids.Cons? {
      JudgedTrustSum(v, v', r, ids.tail);
    }
  }

  /** Everything of a summary that a change of one verdict can move: one item of the history. */
  lemma {:induction false} JudgementMoves(v: View, v': View, r: ReceiptId, id: Id) returns (i: nat)
    requires id in v.agents && OnlyJudged(v, v', r) && TimesListed(v.table, r) <= 1
    ensures var h, h', pool := HistoryOf(v, id), HistoryOf(v', id), PoolOf(v, id, HistoryOf(v, id));
      && SummaryOf(v', id).all == WithReports(Total(pool, h', h'), ReportWeight(v, id))
      && SummaryOf(v', id).score == TrustScore(StakeComponent(v.params, v.agents[id].stake),
           SummaryOf(v', id).all.weight, SummaryOf(v', id).all.success)
      && if TimesListed(CountedRows(v.table, LineageOf(v.back, id), v.now), r) == 0 then h' == h
         else
           && i < Length(h) && Nth(h, i).verdict == AttestationVerdict(v, r)
           && h' == Revise(h, i, Nth(h, i).(verdict := AttestationVerdict(v', r)))
           && Declared(v.table, r) == Some(Nth(h, i).outcome)
  {
    var self := LineageOf(v.back, id);
    var rows := CountedRows(v.table, self, v.now);
    hide LineageOf, CountedRows, AttestationVerdict, Total, RoleTotal, TrustScore, StakeComponent, BaseTrust, Posters,
        TrustSum, OwnWeight, Anchored, ItemsOf, SortByTime, Past;
    CountedOnce(v.table, self, v.now, r);
    SortedOnce(rows, r);
    JudgedTrustSum(v, v', r, Posters(v.jobs, self, v.succ));
    var h, h' := HistoryOf(v, id), HistoryOf(v', id);
    if TimesListed(rows, r) == 0 {
      i := 0;
      OtherItemsStay(v, v', self, SortByTime(rows), r);
    } else {
      i := PastJudged(v, v', self, SortByTime(rows), Nil, r);
    }
    forall k
      ensures Count(h', k) == Count(h, k)
    {
      if TimesListed(rows, r) != 0 {
        RevisionKeepsCounts(h, i, Nth(h, i).(verdict := AttestationVerdict(v', r)), k);
      }
    }
    PoolsAgree(v, v', r, id, h, h');
    TotalPointwise(PoolOf(v, id, h), PoolOf(v', id, h'), h', h', true);
  }

  /** When the majority on receipt r turns into a rejection, the score of an agent rises exactly if r
      stands in its history as a failure that had been verified, carries weight, and weighted success
      is beyond 5/7; nothing else the engine computes moves. */
  lemma {:induction false} RejectionEffect(v: View, v': View, r: ReceiptId, id: Id) returns (i: nat)
    requires id in v.agents && Reasonable(v.params)
    requires OnlyJudged(v, v', r) && AttestationVerdict(v', r) == NetRejected && TimesListed(v.table, r) <= 1
    ensures var h, pool := HistoryOf(v, id), PoolOf(v, id, HistoryOf(v, id));
      var before, after := SummaryOf(v, id), SummaryOf(v', id);
      if TimesListed(CountedRows(v.table, LineageOf(v.back, id), v.now), r) == 0 then after.score == before.score
      else
        && i < Length(h) && HistoryOf(v', id) == Demote(h, i) && Nth(h, i).verdict == AttestationVerdict(v, r)
        && (after.score > before.score <==>
            Nth(h, i).outcome == Failed && Nth(h, i).verdict == NetVerified && OwnWeight(pool, h, h, i) > 0.0
            && before.all.success > 5.0 / 7.0)
  {
    hide LineageOf, CountedRows, AttestationVerdict, Total, RoleTotal, TrustScore, StakeComponent, PoolOf, HistoryOf,
        OwnWeight, ReportWeight;
    i := JudgementMoves(v, v', r, id);
    var h := HistoryOf(v, id);
    if TimesListed(CountedRows(v.table, LineageOf(v.back, id), v.now), r) != 0 {
      SummaryWeights(v, id);
      PoolSensible(v, id, h);
      HistoryDecays(v, id);
      ReportsWeighSomething(v, id);
      RejectionRaisesExactly(PoolOf(v, id, h), h, i, StakeComponent(v.params, v.agents[id].stake), ReportWeight(v, id));
    }
  }

  lemma ReportsWeighSomething(v: View, id: Id)
    requires Reasonable(v.params)
    ensures ReportWeight(v, id) >= 0.0
  {
    TrustSumSign(v, Posters(v.jobs, LineageOf(v.back, id), v.succ));
  }

  // ---------------------------------------------------------------- one rejecting decision more

  /** A verifier's rejection of receipt r raises an agent's score in one case only: it undoes a
      verification, of a receipt that carries weight and was credited less than the agent has earned
      on average.  That is never so for a receipt declared a success. */
  lemma {:induction false} RejectingDecisionRaisesExactly(v: View, front: List<Verification>, x: Verification,
      back: List<Verification>, id: Id) returns (i: nat)
    requires id in v.agents && Reasonable(v.params) && v.decisions == Append(front, back)
    requires x.decision == Rejected && Bears(v, x, x.receiptId) && TimesListed(v.table, x.receiptId) <= 1
    ensures var r, v' := x.receiptId, With(v, front, x, back); var before, after := SummaryOf(v, id), SummaryOf(v', id);
      var h, pool := HistoryOf(v, id), PoolOf(v, id, HistoryOf(v, id));
      && before.all.weight >= 0.0
      && (TimesListed(CountedRows(v.table, LineageOf(v.back, id), v.now), r) != 0 ==> i < Length(h))
      && (after.score > before.score <==>
            && TimesListed(CountedRows(v.table, LineageOf(v.back, id), v.now), r) != 0
            && AttestationVerdict(v, r) == NetVerified && AttestationVerdict(v', r) == NoVerdict
            && OwnWeight(pool, h, h, i) > 0.0
            && Earned(before.all.weight, before.all.success) > 10.0 + 70.0 * OutcomeScore(Nth(h, i)))
      && (Declared(v.table, r) == Some(Success) ==> after.score <= before.score)
  {
    var r, v' := x.receiptId, With(v, front, x, back);
    assert OnlyJudged(v, v', r) by {
      forall q | q != r
        ensures AttestationVerdict(v', q) == AttestationVerdict(v, q)
      {
        DecisionMovesVerdict(v, front, x, back, q);
        RankDetermines(AttestationVerdict(v', q), AttestationVerdict(v, q));
      }
    }
    DecisionMovesVerdict(v, front, x, back, r);
    RankDetermines(AttestationVerdict(v', r), AttestationVerdict(v, r));
    i := JudgedByOneStep(v, v', r, id);
  }

  /** The same for any change of decisions that moves the verdict on r by one step down, or not. */
  lemma {:induction false} JudgedByOneStep(v: View, v': View, r: ReceiptId, id: Id) returns (i: nat)
    requires id in v.agents && Reasonable(v.params) && OnlyJudged(v, v', r) && TimesListed(v.table, r) <= 1
    requires Rank(AttestationVerdict(v, r)) - 1 <= Rank(AttestationVerdict(v', r)) <= Rank(AttestationVerdict(v, r))
    ensures var before, after := SummaryOf(v, id), SummaryOf(v', id);
      var h, pool := HistoryOf(v, id), PoolOf(v, id, HistoryOf(v, id));
      && before.all.weight >= 0.0
      && (TimesListed(CountedRows(v.table, LineageOf(v.back, id), v.now), r) != 0 ==> i < Length(h))
      && (after.score > before.score <==>
            && TimesListed(CountedRows(v.table, LineageOf(v.back, id), v.now), r) != 0
            && AttestationVerdict(v, r) == NetVerified && AttestationVerdict(v', r) == NoVerdict
            && OwnWeight(pool, h, h, i) > 0.0
            && Earned(before.all.weight, before.all.success) > 10.0 + 70.0 * OutcomeScore(Nth(h, i)))
      && (Declared(v.table, r) == Some(Success) ==> after.score <= before.score)
  {
    hide LineageOf, CountedRows, AttestationVerdict, Total, RoleTotal, TrustScore, StakeComponent, PoolOf, HistoryOf,
        OwnWeight, ReportWeight, OnlyJudged, Earned;
    i := JudgementMoves(v, v', r, id);
    var h, pool := HistoryOf(v, id), PoolOf(v, id, HistoryOf(v, id));
    var stake, reports := StakeComponent(v.params, v.agents[id].stake), ReportWeight(v, id);
    SummaryWeights(v, id);
    if TimesListed(CountedRows(v.table, LineageOf(v.back, id), v.now), r) != 0 {
      PoolSensible(v, id, h);
      HistoryDecays(v, id);
      ReportsWeighSomething(v, id);
      if AttestationVerdict(v, r) == NetVerified && AttestationVerdict(v', r) == NoVerdict {
        UnverifyingRaisesExactly(pool, h, i, stake, reports);
        EarnedBounds(SummaryOf(v, id).all.weight, SummaryOf(v, id).all.success);
      } else if AttestationVerdict(v', r) == NetRejected {
        RejectionRaisesExactly(pool, h, i, stake, reports);
      } else {
        RevisedToItself(h, i);
      }
    }
  }

  lemma {:induction false} RevisedToItself(h: History, i: nat)
    requires i < Length(h)
    ensures Revise(h, i, Nth(h, i)) == h
  {
    if i > 0 {
      RevisedToItself(h.tail, i - 1);
    }
  }

  lemma RankDetermines(a: Verdict, b: Verdict)
    ensures Rank(a) == Rank(b) <==> a == b
  {}
}
