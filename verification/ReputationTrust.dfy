/** What base trust and the first receipts are worth, and how time wears them down. */
module ReputationTrust {
  import opened Lists
  import opened Succession
  import opened Registry
  import opened ReputationScore
  import opened Reputation
  import opened ReputationChanges

  // ---------------------------------------------------------------- base trust

  /** A true square root and a logarithm that starts at 0 and grows. */
  ghost predicate Exact(params: Params) {
    && (forall x | x >= 0.0 :: params.root(x) >= 0.0 && params.root(x) * params.root(x) == x)
    && params.ln1p(0) == 0.0 && params.ln1p(50) > 0.0
    && forall m: nat, n: nat | m <= n :: params.ln1p(m) <= params.ln1p(n)
  }

  lemma SquareCompare(x: real, y: real)
    requires x >= 0.0 && y >= 0.0
    ensures x <= y <==> x * x <= y * y
  {
    if x > y {
      SquareGrows(y, x - y);
    } else {
      SquareGrows(x, y - x);
    }
  }

  lemma SquareGrows(x: real, more: real)
    requires x >= 0.0 && more >= 0.0
    ensures (x + more) * (x + more) >= x * x
    ensures more > 0.0 ==> (x + more) * (x + more) > x * x
  {
    assert (x + more) * (x + more) == x * x + (x * more + x * more + more * more);
    Products(x, more);
    Products(more, more);
  }

  lemma Products(a: real, b: real)
    requires a >= 0.0 && b >= 0.0
    ensures a * b >= 0.0
    ensures a > 0.0 && b > 0.0 ==> a * b > 0.0
  {}

  /** The stake component is the square root of the stake's share of 10,000, and full from there on. */
  lemma StakeShare(params: Params, stake: real)
    requires Exact(params) && stake >= 0.0
    ensures var c := StakeComponent(params, stake);
      c >= 0.0 && c * c == if stake <= 10000.0 then stake / 10000.0 else 1.0
  {
    var x, n := params.root(stake), params.root(10000.0);
    SquareCompare(n, 100.0);
    SquareCompare(100.0, n);
    assert n == 100.0;
    SquareCompare(x, n);
    assert (x / 100.0) * (x / 100.0) == (x * x) / 10000.0;
  }

  predicate AllWithOutcome(rows: Rows, outcome: Outcome) {
    rows.Cons? ==> rows.head.1.content.outcome == outcome && AllWithOutcome(rows.tail, outcome)
  }

  lemma {:induction false} UniformSuccesses(rows: Rows, outcome: Outcome)
    requires AllWithOutcome(rows, outcome)
    ensures Successes(rows) == if outcome == Success then Length(rows) else 0
  {
    if rows.Cons? {
      UniformSuccesses(rows.tail, outcome);
    }
  }

  lemma VolumeShare(x: real, full: real)
    requires full > 0.0
    ensures x >= 0.0 ==> x / full >= 0.0
    ensures x <= full <==> x / full <= 1.0
    ensures x >= full <==> x / full >= 1.0
  {
    var q := x / full;
    assert q * full == x;
    if q <= 1.0 {
      assert (1.0 - q) * full >= 0.0;
    }
    if q >= 1.0 {
      assert (q - 1.0) * full >= 0.0;
    }
  }

  /** With every part in [0, 1] the clamp is idle. */
  lemma TrustParts(stake: real, rows: Rows, params: Params)
    requires 0.0 <= StakeComponent(params, stake) <= 1.0 && 0.0 <= SuccessRatio(rows) <= 1.0
    requires 0.0 <= VolumeComponent(params, Length(rows)) <= 1.0
    ensures TrustFrom(stake, rows, params) == 0.3 * StakeComponent(params, stake) + 0.5 * SuccessRatio(rows)
         + 0.2 * VolumeComponent(params, Length(rows))
  {
    hide StakeComponent, SuccessRatio, VolumeComponent;
  }

  lemma RatioByRecord(rows: Rows, outcome: Outcome)
    requires AllWithOutcome(rows, outcome)
    ensures SuccessRatio(rows) == if Length(rows) == 0 then 0.5 else if outcome == Success then 1.0 else 0.0
  {
    UniformSuccesses(rows, outcome);
    hide Successes, Length, AllWithOutcome;
    if Length(rows) > 0 {
      Ratios(Length(rows) as real);
    }
  }

  lemma Ratios(n: real)
    requires n > 0.0
    ensures n / n == 1.0 && 0.0 / n == 0.0
  {}

  lemma VolumeByRecord(params: Params, n: nat)
    requires Exact(params)
    ensures var c := VolumeComponent(params, n);
      && 0.0 <= c <= 1.0 && (n == 0 ==> c == 0.0) && (n >= 50 ==> c == 1.0)
      && (n <= 50 ==> c == params.ln1p(n) / params.ln1p(50))
  {
    VolumeShare(params.ln1p(n), params.ln1p(50));
    assert params.ln1p(0) <= params.ln1p(n);
    assert n <= 50 ==> params.ln1p(n) <= params.ln1p(50);
    assert n >= 50 ==> params.ln1p(50) <= params.ln1p(n);
  }

  /** Trust is three tenths for stake, half for the share of successes and a fifth for volume, which
      is full from fifty receipts on; nothing yet counts as half successful. */
  lemma TrustByRecord(params: Params, stake: real, rows: Rows, outcome: Outcome)
    requires Exact(params) && AllWithOutcome(rows, outcome)
    ensures var s := 0.3 * StakeComponent(params, stake);
      && (Length(rows) == 0 ==> TrustFrom(stake, rows, params) == s + 0.25)
      && (0 < Length(rows) <= 50 ==>
            TrustFrom(stake, rows, params)
            == s + 0.2 * (params.ln1p(Length(rows)) / params.ln1p(50)) + if outcome == Success then 0.5 else 0.0)
      && (Length(rows) >= 50 ==> TrustFrom(stake, rows, params) == s + if outcome == Success then 0.7 else 0.2)
  {
    hide StakeComponent, SuccessRatio, VolumeComponent, TrustFrom, AllWithOutcome, Length;
    StakeInUnit(params, stake);
    RatioByRecord(rows, outcome);
    VolumeByRecord(params, Length(rows));
    TrustParts(stake, rows, params);
  }

  lemma StakeInUnit(params: Params, stake: real)
    ensures 0.0 <= StakeComponent(params, stake) <= 1.0
  {}

  /** A registered newcomer without stake is trusted a quarter, an unknown party a twentieth. */
  lemma NewcomersTrust(v: View, id: Id)
    requires Exact(v.params)
    requires id in v.agents ==>
        v.agents[id].stake == 0.0 && CountedRows(v.table, LineageOf(v.back, id), v.now) == Nil
    ensures BaseTrust(v, id) == if id in v.agents then 0.25 else 0.05
  {
    if id in v.agents {
      hide LineageOf;
      StakeShare(v.params, 0.0);
      var c := StakeComponent(v.params, 0.0);
      ZeroSquare(c, c);
      TrustByRecord(v.params, 0.0, Nil, Success);
    }
  }

  lemma ZeroSquare(c: real, d: real)
    requires c >= 0.0 && d == c && c * d == 0.0
    ensures c == 0.0
  {
    Products(c, d);
  }

  // ---------------------------------------------------------------- the first receipts

  /** What a receipt is worth before anything is capped: fraction of its weight that is credited. */
  function CreditShare(it: Item): real {
    match (it.verdict, it.outcome)
    case (NetRejected, _) => 0.0
    case (_, Success) => 1.0
    case (_, Partial) => 0.5
    case (_, Failed) => 0.0
  }

  function Lift(it: Item): real {
    if it.verdict == NetVerified then 1.5 else 1.0
  }

  /** What a receipt weighs when each receipt with its counterparty counts for `each`. */
  function InFull(pool: Pool, each: real, it: Item): real {
    each * pool.trust(it.party) * it.decay * Lift(it)
  }

  lemma WeighsInFull(pool: Pool, all: History, earlier: History, it: Item)
    requires 0 < Count(all, it.party) <= Length(all) < 3
    ensures Weight(pool, all, earlier, it)
         == InFull(pool, if Count(all, it.party) == 1 then pool.ln1p(1) else pool.ln1p(2) / 2.0, it)
    ensures OutcomeScore(it) == CreditShare(it)
  {
    hide Count;
    var n := Count(all, it.party);
    var each := if n == 1 then pool.ln1p(1) else pool.ln1p(2) / 2.0;
    assert PairWeight(pool.ln1p, n) == each by {
      assert pool.ln1p(1) / 1.0 == pool.ln1p(1);
    }
    assert Boost(it.verdict) == Lift(it);
    assert BaseWeight(pool, all, it) == each * pool.trust(it.party) * it.decay;
  }

  /** The first receipt weighs the counterparty's trust times ln 2, faded by age and lifted by half
      if verified; success is all of it, half of it or nothing. */
  lemma OneReceiptEarns(pool: Pool, it: Item)
    ensures var t := Total(pool, Cons(it, Nil), Cons(it, Nil));
      && t.weight == pool.ln1p(1) * pool.trust(it.party) * it.decay * Lift(it)
      && t.success == t.weight * CreditShare(it)
  {
    var h := Cons(it, Nil);
    assert Count(Nil, it.party) == 0 && Total(pool, h, Nil) == NOTHING;
    WeighsInFull(pool, h, Nil, it);
    hide Weight, OutcomeScore, CreditShare, Lift, Count;
  }

  /** Two receipts weigh in full as well: with one counterparty they share ln 3 equally, with two
      they weigh as first receipts do. */
  lemma TwoReceiptsEarn(pool: Pool, it: Item, first: Item)
    ensures var h := Cons(it, Cons(first, Nil)); var t := Total(pool, h, h);
      var each := if it.party == first.party then pool.ln1p(2) / 2.0 else pool.ln1p(1);
      var w, w' := InFull(pool, each, it), InFull(pool, each, first);
      t.weight == w' + w && t.success == w' * CreditShare(first) + w * CreditShare(it)
  {
    var h := Cons(it, Cons(first, Nil));
    CountTwo(it, first);
    WeighsInFull(pool, h, h.tail, it);
    WeighsInFull(pool, h, Nil, first);
    hide Weight, OutcomeScore, CreditShare, InFull, Count;
    assert Total(pool, h, Nil) == NOTHING;
    assert Total(pool, h, h.tail) == Plus(NOTHING, Weight(pool, h, Nil, first), OutcomeScore(first));
  }

  lemma CountTwo(it: Item, first: Item)
    ensures var h := Cons(it, Cons(first, Nil)); var n := if it.party == first.party then 2 else 1;
      Count(h, it.party) == n && Count(h, first.party) == n && Length(h) == 2
  {
    var rest := Cons(first, Nil);
    assert Count(rest, first.party) == 1 && Length(rest) == 1;
    assert Count(rest, it.party) == if it.party == first.party then 1 else 0;
  }

  // ---------------------------------------------------------------- time

  /** The decay of age is multiplicative, full at age 0 and below it. */
  ghost predicate FadesSteadily(fading: Time -> real) {
    && (forall a, b | a >= 0 && b >= 0 :: fading(a + b) == fading(a) * fading(b))
    && (forall a | a <= 0 :: fading(a) >= 1.0)
    && (forall a | a >= 0 :: 0.0 <= fading(a) <= 1.0)
  }

  predicate CompletedBy(rows: Rows, now: Time) {
    rows.Cons? ==> rows.head.1.content.completedAt <= now && CompletedBy(rows.tail, now)
  }

  function Faded(h: History, f: real): History {
    match h
    case Nil => Nil
    case Cons(it, earlier) => Cons(it.(decay := Times(it.decay, f)), Faded(earlier, f))
  }

  /** A receipt just completed has not faded. */
  lemma FreshReceiptUnfaded(v: View, self: List<Id>, row: (ReceiptId, Receipt))
    requires FadesSteadily(v.params.fading) && row.1.content.completedAt >= v.now
    ensures ItemOf(v, self, row).decay == 1.0
  {}

  lemma {:induction false} FadedCounts(h: History, f: real, k: Id)
    ensures Count(Faded(h, f), k) == Count(h, k) && Length(Faded(h, f)) == Length(h)
  {
    if h.Cons? {
      FadedCounts(h.tail, f, k);
    }
  }

  lemma FadedWeighs(pool: Pool, all: History, earlier: History, party: Id, f: real)
    ensures Weighs(pool, Faded(all, f), Faded(earlier, f), party) == Weighs(pool, all, earlier, party)
  {
    hide CapSize;
    FadedCounts(all, f, party);
    FadedCounts(earlier, f, party);
  }

  lemma FadedBase(pool: Pool, all: History, it: Item, f: real)
    ensures BaseWeight(pool, Faded(all, f), it.(decay := Times(it.decay, f))) == BaseWeight(pool, all, it) * f
  {
    hide PairWeight;
    FadedCounts(all, f, it.party);
    Regroup(PairWeight(pool.ln1p, Count(all, it.party)) * pool.trust(it.party), it.decay, f, 1.0);
  }

  lemma FadedWeight(pool: Pool, all: History, earlier: History, it: Item, f: real)
    ensures Weight(pool, Faded(all, f), Faded(earlier, f), it.(decay := Times(it.decay, f)))
        == Weight(pool, all, earlier, it) * f
    ensures OutcomeScore(it.(decay := Times(it.decay, f))) == OutcomeScore(it)
  {
    hide Weighs, BaseWeight, Boost, Faded, Times;
    FadedWeighs(pool, all, earlier, it.party, f);
    FadedBase(pool, all, it, f);
    Regroup(BaseWeight(pool, all, it), 1.0, f, Boost(it.verdict));
  }

  lemma Regroup(p: real, d: real, f: real, b: real)
    ensures (p * (d * f)) * b == ((p * d) * b) * f
  {}

  lemma PlusFaded(t: Tally, t': Tally, w: real, f: real, score: real)
    requires t'.weight == t.weight * f && t'.success == t.success * f
    ensures Plus(t', w * f, score).weight == Plus(t, w, score).weight * f
    ensures Plus(t', w * f, score).success == Plus(t, w, score).success * f
  {
    assert t.success * f + (w * f) * score == (t.success + w * score) * f;
  }

  lemma TotalNothing(pool: Pool, all: History, f: real)
    ensures Total(pool, all, Nil) == NOTHING && Faded(Nil, f) == Nil
  {}

  lemma TotalSteps(pool: Pool, all: History, it: Item, earlier: History, f: real)
    ensures Total(pool, all, Cons(it, earlier))
         == Plus(Total(pool, all, earlier), Weight(pool, all, earlier, it), OutcomeScore(it))
    ensures Faded(Cons(it, earlier), f) == Cons(it.(decay := Times(it.decay, f)), Faded(earlier, f))
  {}

  predicate FadedTally(t: Tally, t': Tally, f: real) {
    t'.weight == t.weight * f && t'.success == t.success * f && t'.count == t.count
  }

  /** Fading every receipt by one factor fades the totals by it. */
  lemma {:induction false} FadedTotal(pool: Pool, all: History, h: History, f: real)
    ensures FadedTally(Total(pool, all, h), Total(pool, Faded(all, f), Faded(h, f)), f)
  {
    hide Weight, OutcomeScore, Total, Faded;
    match h
    case Nil =>
      TotalNothing(pool, all, f);
      TotalNothing(pool, Faded(all, f), f);
    case Cons(it, tail) =>
      var all', tail' := Faded(all, f), Faded(tail, f);
      FadedTotal(pool, all, tail, f);
      FadedWeight(pool, all, tail, it, f);
      TotalSteps(pool, all, it, tail, f);
      TotalSteps(pool, all', it.(decay := Times(it.decay, f)), tail', f);
      PlusFaded(Total(pool, all, tail), Total(pool, all', tail'), Weight(pool, all, tail, it), f, OutcomeScore(it));
  }

  lemma VerdictIgnoresTime(v: View, later: Time, id: ReceiptId)
    ensures AttestationVerdict(v.(now := later), id) == AttestationVerdict(v, id)
  {}

  lemma FadedItem(v: View, later: Time, self: List<Id>, row: (ReceiptId, Receipt))
    requires FadesSteadily(v.params.fading) && row.1.content.completedAt <= v.now <= later
    ensures var it := ItemOf(v, self, row);
      ItemOf(v.(now := later), self, row) == it.(decay := Times(it.decay, v.params.fading(later - v.now)))
  {
    hide HeadOf, AttestationVerdict, FadesSteadily, Clamp;
    var age, t := v.now - row.1.content.completedAt, later - v.now;
    VerdictIgnoresTime(v, later, row.0);
    assert later - row.1.content.completedAt == age + t;
    FadedDecay(v.params.fading, age, t);
  }

  lemma FadedDecay(fading: Time -> real, age: Time, t: Time)
    requires FadesSteadily(fading) && age >= 0 && t >= 0
    ensures Clamp(fading(age + t), 0.0, 1.0) == Clamp(fading(age), 0.0, 1.0) * fading(t)
  {
    assert fading(age + t) == fading(age) * fading(t);
  }

  lemma {:induction false} FadedItems(v: View, later: Time, self: List<Id>, rows: Rows, done: History, done': History)
    requires FadesSteadily(v.params.fading) && CompletedBy(rows, v.now) && v.now <= later
    requires done' == Faded(done, v.params.fading(later - v.now))
    ensures Past(ItemsOf(v.(now := later), self, rows), done')
         == Faded(Past(ItemsOf(v, self, rows), done), v.params.fading(later - v.now))
    decreases rows
  {
    hide FadesSteadily, ItemOf;
    if rows.Cons? {
      FadedItem(v, later, self, rows.head);
      var it := ItemOf(v, self, rows.head);
      var f := v.params.fading(later - v.now);
      FadedItems(v, later, self, rows.tail, Cons(it, done), Cons(it.(decay := Times(it.decay, f)), done'));
    }
  }

  lemma {:induction false} InsertCompleted(row: (ReceiptId, Receipt), rows: Rows, now: Time)
    requires CompletedBy(rows, now) && row.1.content.completedAt <= now
    ensures CompletedBy(InsertByTime(row, rows), now)
  {
    if rows.Cons? {
      InsertCompleted(row, rows.tail, now);
    }
  }

  lemma {:induction false} SortCompleted(rows: Rows, now: Time)
    requires CompletedBy(rows, now)
    ensures CompletedBy(SortByTime(rows), now)
  {
    if rows.Cons? {
      SortCompleted(rows.tail, now);
      InsertCompleted(rows.head, SortByTime(rows.tail), now);
    }
  }

  /** Until `later` no receipt begins or ceases to count. */
  ghost predicate NothingHappens(v: View, later: Time) {
    v.now <= later && forall self :: CountedRows(v.table, self, later) == CountedRows(v.table, self, v.now)
  }

  lemma HistoryFades(v: View, later: Time, id: Id)
    requires FadesSteadily(v.params.fading) && NothingHappens(v, later)
    requires CompletedBy(CountedRows(v.table, LineageOf(v.back, id), v.now), v.now)
    ensures HistoryOf(v.(now := later), id) == Faded(HistoryOf(v, id), v.params.fading(later - v.now))
  {
    hide FadesSteadily, LineageOf;
    var self := LineageOf(v.back, id);
    var rows := CountedRows(v.table, self, v.now);
    SortCompleted(rows, v.now);
    TotalNothing(PoolOf(v, id, Nil), Nil, v.params.fading(later - v.now));
    FadedItems(v, later, self, SortByTime(rows), Nil, Nil);
  }

  lemma PoolKept(v: View, later: Time, id: Id, h: History, f: real, k: Id)
    requires NothingHappens(v, later)
    ensures PoolOf(v.(now := later), id, Faded(h, f)).trust(k) == PoolOf(v, id, h).trust(k)
    ensures PoolOf(v.(now := later), id, Faded(h, f)).anchored(k) == PoolOf(v, id, h).anchored(k)
  {
    hide LineageOf, HeadOf, CountedRows, Faded;
    var v' := v.(now := later);
    forall y
      ensures InCluster(v', id, Faded(h, f), y) == InCluster(v, id, h, y)
    {
      FadedCounts(h, f, y);
    }
    SomeOutsideSame(CountedRows(v.table, LineageOf(v.back, k), v.now), LineageOf(v.back, k), v.succ,
                    y => InCluster(v, id, h, y), y => InCluster(v', id, Faded(h, f), y));
  }

  lemma {:induction false} ReportsKept(v: View, later: Time, ids: List<Id>)
    requires NothingHappens(v, later)
    ensures TrustSum(v.(now := later), ids) == TrustSum(v, ids)
  {
    if ids.Cons? {
      hide CountedRows;
      ReportsKept(v, later, ids.tail);
    }
  }

  lemma TotalsFade(v: View, later: Time, id: Id)
    requires FadesSteadily(v.params.fading) && NothingHappens(v, later)
    requires CompletedBy(CountedRows(v.table, LineageOf(v.back, id), v.now), v.now)
    ensures FadedTally(OwnTotal(v, id), OwnTotal(v.(now := later), id), v.params.fading(later - v.now))
  {
    var v', h, f := v.(now := later), HistoryOf(v, id), v.params.fading(later - v.now);
    HistoryFades(v, later, id);
    hide HistoryOf, PoolOf, Total, RoleTotal, LineageOf, HeadOf, FadesSteadily, CountedRows, Faded, FadedTally,
      NothingHappens, CompletedBy;
    var h', pool, pool' := Faded(h, f), PoolOf(v, id, h), PoolOf(v', id, Faded(h, f));
    forall k
      ensures pool'.trust(k) == pool.trust(k) && pool'.anchored(k) == pool.anchored(k)
    {
      PoolKept(v, later, id, h, f, k);
    }
    PoolParams(v, v', id, h, h');
    TotalPointwise(pool, pool', h', h', true);
    FadedTotal(pool, h, h, f);
  }

  /** The totals of an agent's receipts, without reports. */
  function OwnTotal(v: View, id: Id): Tally {
    var h := HistoryOf(v, id);
    Total(PoolOf(v, id, h), h, h)
  }

  lemma SummaryParts(v: View, id: Id)
    requires id in v.agents
    ensures var s, t, reports := SummaryOf(v, id), OwnTotal(v, id), ReportWeight(v, id);
      && s.all == WithReports(t, reports)
      && s.score == TrustScore(StakeComponent(v.params, v.agents[id].stake), t.weight + reports, t.success)
  {
    hide HistoryOf, PoolOf, Total, RoleTotal, TrustScore, StakeComponent, ReportWeight;
  }

  /** Time alone wears all evidence down evenly: if nothing begins or ceases to count, every receipt,
      and so weight and weighted success, loses the same factor; reports keep their weight.  The score
      never rises by waiting. */
  lemma {:induction false} TimeFadesEvenly(v: View, later: Time, id: Id)
    requires id in v.agents && Reasonable(v.params) && FadesSteadily(v.params.fading) && NothingHappens(v, later)
    requires CompletedBy(CountedRows(v.table, LineageOf(v.back, id), v.now), v.now)
    ensures var before, after, f := SummaryOf(v, id), SummaryOf(v.(now := later), id), v.params.fading(later - v.now);
      var t, t' := OwnTotal(v, id), OwnTotal(v.(now := later), id);
      && FadedTally(t, t', f)
      && before.all == WithReports(t, ReportWeight(v, id)) && after.all == WithReports(t', ReportWeight(v, id))
      && after.score <= before.score
  {
    var v', f := v.(now := later), v.params.fading(later - v.now);
    assert 0.0 <= f <= 1.0;
    hide SummaryOf, OwnTotal, TrustScore, StakeComponent, LineageOf, FadesSteadily, Reasonable, CountedRows, Posters,
      FadedTally, NothingHappens, CompletedBy, TrustSum, ReportWeight;
    TotalsFade(v, later, id);
    SummaryParts(v, id);
    SummaryParts(v', id);
    ReportsStay(v, later, id);
    ReportsSign(v, id);
    TotalSign(v, id);
    StakeInUnit(v.params, v.agents[id].stake);
    FadedScore(StakeComponent(v.params, v.agents[id].stake), OwnTotal(v, id), OwnTotal(v', id), ReportWeight(v, id), f);
  }

  lemma ReportsStay(v: View, later: Time, id: Id)
    requires NothingHappens(v, later)
    ensures ReportWeight(v.(now := later), id) == ReportWeight(v, id)
  {
    hide NothingHappens, Posters, LineageOf, TrustSum;
    ReportsKept(v, later, Posters(v.jobs, LineageOf(v.back, id), v.succ));
  }

  lemma FadedScore(stake: real, t: Tally, t': Tally, reports: real, f: real)
    requires FadedTally(t, t', f) && 0.0 <= stake <= 1.0 && 0.0 <= t.success <= t.weight
    requires reports >= 0.0 && 0.0 <= f <= 1.0
    ensures TrustScore(stake, t'.weight + reports, t'.success) <= TrustScore(stake, t.weight + reports, t.success)
  {
    hide TrustScore;
    FadingNeverRaises(stake, t.weight, t.success, reports, f, t'.weight, t'.success);
  }

  lemma PoolParams(v: View, v': View, id: Id, h: History, h': History)
    requires v'.params == v.params
    ensures PoolOf(v', id, h').ln1p == PoolOf(v, id, h).ln1p && PoolOf(v', id, h').capRatio == PoolOf(v, id, h).capRatio
  {}

  lemma ReportsSign(v: View, id: Id)
    requires Reasonable(v.params)
    ensures ReportWeight(v, id) >= 0.0
  {
    TrustSumSign(v, Posters(v.jobs, LineageOf(v.back, id), v.succ));
  }

  lemma TotalSign(v: View, id: Id)
    requires Reasonable(v.params)
    ensures 0.0 <= OwnTotal(v, id).success <= OwnTotal(v, id).weight
  {
    hide Total;
    var h := HistoryOf(v, id);
    PoolSensible(v, id, h);
    HistoryDecays(v, id);
    TotalBounds(PoolOf(v, id, h), h, h);
  }

  lemma FadeCross(a: real, b: real, c: real, d: real, f: real)
    ensures (a + b) * (f * c + d) - (f * a + b) * (c + d) == (1.0 - f) * (a * d - b * c)
  {}

  lemma FadingNeverRaises(stake: real, weight: real, success: real, reports: real, f: real, weight': real,
      success': real)
    requires 0.0 <= stake <= 1.0 && 0.0 <= success <= weight && reports >= 0.0 && 0.0 <= f <= 1.0
    requires weight' == weight * f && success' == success * f
    ensures TrustScore(stake, weight' + reports, success') <= TrustScore(stake, weight + reports, success)
  {
    hide TrustScore, Earned;
    Products(weight, f);
    Products(success, f);
    Products(weight - success, f);
    ScoreInRange(stake, weight + reports, success);
    ScoreInRange(stake, weight' + reports, success');
    EarnedCompare(weight + reports, success, weight' + reports, success');
    var a, b, c, d := 70.0 * success + 10.0 * weight, 10.0 * reports, weight, reports + 5.0;
    FadeCross(a, b, c, d, f);
    Products(70.0 * success, d);
    assert a * d - b * c == 70.0 * success * d + 50.0 * weight;
    Products(1.0 - f, a * d - b * c);
    assert 70.0 * success' + 10.0 * (weight' + reports) == f * a + b;
    assert weight' + reports + 5.0 == f * c + d;
  }
}
