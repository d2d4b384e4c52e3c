/** The arithmetic of the reputation engine, over exact reals. */
module ReputationScore {
  // A history is the list of an agent's counted receipts, latest first, each reduced to what the
  // formula reads: the counterparty, the role, the outcome, the verdict and the decay of its age.
  // What one receipt weighs depends on the receipts before it, which are the tail of the list.

  import opened Options
  import opened Lists
  import opened Succession
  import opened Registry

  datatype Verdict = NetVerified | NetRejected | NoVerdict

  datatype Item = Item(party: Id, provider: bool, outcome: Outcome, verdict: Verdict, decay: real)

  type History = List<Item>

  /** What is known of the counterparties, the logarithm ln(1 + n), and threshold / (1 - threshold). */
  datatype Pool = Pool(trust: Id -> real, anchored: Id -> bool, ln1p: nat -> real, capRatio: real)

  const ATTESTATION_BOOST: real := 1.5
  const CONFIDENCE_SATURATION: real := 5.0

  // ---------------------------------------------------------------- the formula

  function Count(h: History, party: Id): nat {
    match h
    case Nil => 0
    case Cons(it, earlier) => Count(earlier, party) + if it.party == party then 1 else 0
  }

  function CapSize(capRatio: real, others: int): int {
    (capRatio * others as real).Floor
  }

  /** Receipts of one counterparty that may carry weight; None below three receipts. */
  function Cap(pool: Pool, all: History, party: Id): Option<int> {
    if Length(all) < 3 then None else Some(CapSize(pool.capRatio, Length(all) - Count(all, party)))
  }

  /** Whether a receipt with this counterparty, after `earlier`, carries weight. */
  predicate Weighs(pool: Pool, all: History, earlier: History, party: Id) {
    Length(all) < 3 || (pool.anchored(party) && Count(earlier, party) < Cap(pool, all, party).value)
  }

  function PairWeight(ln1p: nat -> real, n: nat): real {
    if n == 0 then ln1p(1) else ln1p(n) / n as real
  }

  function Boost(v: Verdict): real {
    if v == NetVerified then ATTESTATION_BOOST else 1.0
  }

  /** Before the boost. */
  function BaseWeight(pool: Pool, all: History, it: Item): real {
    PairWeight(pool.ln1p, Count(all, it.party)) * pool.trust(it.party) * it.decay
  }

  function Weight(pool: Pool, all: History, earlier: History, it: Item): real {
    if Weighs(pool, all, earlier, it.party) then BaseWeight(pool, all, it) * Boost(it.verdict) else 0.0
  }

  function OutcomeScore(it: Item): real {
    if it.verdict == NetRejected then 0.0
    else match it.outcome
         case Success => 1.0
         case Partial => 0.5
         case Failed => 0.0
  }

  /** Weight, weighted success and count, over all receipts or over one role. */
  datatype Tally = Tally(weight: real, success: real, count: nat)

  const NOTHING := Tally(0.0, 0.0, 0)

  function Plus(t: Tally, w: real, score: real): Tally {
    Tally(t.weight + w, t.success + w * score, t.count + 1)
  }

  function Total(pool: Pool, all: History, h: History): Tally {
    match h
    case Nil => NOTHING
    case Cons(it, earlier) => Plus(Total(pool, all, earlier), Weight(pool, all, earlier, it), OutcomeScore(it))
  }

  function RoleTotal(pool: Pool, all: History, h: History, provider: bool): Tally {
    match h
    case Nil => NOTHING
    case Cons(it, earlier) =>
      var t := RoleTotal(pool, all, earlier, provider);
      if it.provider == provider then Plus(t, Weight(pool, all, earlier, it), OutcomeScore(it)) else t
  }

  function Verdicts(h: History, v: Verdict): nat {
    match h
    case Nil => 0
    case Cons(it, earlier) => Verdicts(earlier, v) + if it.verdict == v then 1 else 0
  }

  function Clamp(x: real, lo: real, hi: real): real {
    var below := if hi < x then hi else x;
    if lo > below then lo else below
  }

  function SuccessRate(weight: real, success: real): real {
    if weight > 0.0 then success / weight else 0.0
  }

  function Confidence(weight: real): real {
    if weight > 0.0 then weight / (weight + CONFIDENCE_SATURATION) else 0.0
  }

  /** The exact score, before the final rounding to one decimal. */
  function TrustScore(stake: real, weight: real, success: real): real {
    Clamp(20.0 * stake + 70.0 * SuccessRate(weight, success) * Confidence(weight) + 10.0 * Confidence(weight), 0.0,
        100.0)
  }

  // ---------------------------------------------------------------- basic facts

  ghost predicate Sensible(pool: Pool) {
    && (forall k :: 0.0 <= pool.trust(k) <= 1.0)
    && (forall n: nat :: 0.0 <= pool.ln1p(n))
  }

  ghost predicate Decays(h: History) {
    h.Cons? ==> 0.0 <= h.head.decay <= 1.0 && Decays(h.tail)
  }

  lemma ProductInUnit(x: real, y: real, hi: real)
    requires 0.0 <= x <= hi && 0.0 <= y <= 1.0
    ensures 0.0 <= x * y <= hi
  {
    assert x * y <= x * 1.0;
  }

  lemma PairWeightSign(ln1p: nat -> real, n: nat)
    requires forall i: nat :: 0.0 <= ln1p(i)
    ensures 0.0 <= PairWeight(ln1p, n)
  {}

  lemma WeightBounds(pool: Pool, all: History, earlier: History, it: Item)
    requires Sensible(pool) && 0.0 <= it.decay <= 1.0
    ensures 0.0 <= BaseWeight(pool, all, it) <= PairWeight(pool.ln1p, Count(all, it.party)) * pool.trust(it.party)
    ensures 0.0 <= Weight(pool, all, earlier, it)
         <= 1.5 * (PairWeight(pool.ln1p, Count(all, it.party)) * pool.trust(it.party))
  {
    hide Weighs, PairWeight, Boost;
    var pw := PairWeight(pool.ln1p, Count(all, it.party));
    PairWeightSign(pool.ln1p, Count(all, it.party));
    ProductInUnit(pw, pool.trust(it.party), pw);
    ProductInUnit(pw * pool.trust(it.party), it.decay, pw * pool.trust(it.party));
    BoostBound(BaseWeight(pool, all, it), pw * pool.trust(it.party), it.verdict);
  }

  lemma BoostBound(base: real, hi: real, v: Verdict)
    requires 0.0 <= base <= hi
    ensures 0.0 <= base * Boost(v) <= 1.5 * hi
  {
    if v == NetVerified {
      assert base * Boost(v) == base * 1.5;
    }
  }

  lemma {:induction false} TotalCounts(pool: Pool, all: History, h: History)
    ensures Total(pool, all, h).count == Length(h)
  {
    if h.Cons? {
      hide Weight;
      TotalCounts(pool, all, h.tail);
    }
  }

  /** Weighted success never exceeds weight. */
  lemma {:induction false} TotalBounds(pool: Pool, all: History, h: History)
    requires Sensible(pool) && Decays(h)
    ensures 0.0 <= Total(pool, all, h).success <= Total(pool, all, h).weight
  {
    if h.Cons? {
      hide Weight;
      TotalBounds(pool, all, h.tail);
      WeightBounds(pool, all, h.tail, h.head);
      ProductInUnit(Weight(pool, all, h.tail, h.head), OutcomeScore(h.head), Weight(pool, all, h.tail, h.head));
    }
  }

  // ---------------------------------------------------------------- the score as one fraction

  /** 70 times weighted success plus 10 times weight, over weight plus 5. */
  function Earned(weight: real, success: real): real
    requires weight >= 0.0
  {
    (70.0 * success + 10.0 * weight) / (weight + 5.0)
  }

  lemma ProductOfRatios(s: real, w: real, d: real)
    requires w > 0.0 && d > 0.0
    ensures (s / w) * (w / d) == s / d
  {
    assert (s / w) * w == s;
    assert ((s / w) * (w / d)) * d == s;
  }

  lemma SplitFraction(s: real, w: real)
    requires w > 0.0
    ensures 70.0 * (s / w) * (w / (w + 5.0)) + 10.0 * (w / (w + 5.0)) == (70.0 * s + 10.0 * w) / (w + 5.0)
  {
    ProductOfRatios(s, w, w + 5.0);
    assert 70.0 * (s / w) * (w / (w + 5.0)) == 70.0 * (s / (w + 5.0));
    assert (70.0 * (s / (w + 5.0)) + 10.0 * (w / (w + 5.0))) * (w + 5.0) == 70.0 * s + 10.0 * w;
  }

  lemma EarnedBounds(weight: real, success: real)
    requires 0.0 <= success <= weight
    ensures 0.0 <= Earned(weight, success) < 80.0
  {
    var x := Earned(weight, success);
    assert x * (weight + 5.0) == 70.0 * success + 10.0 * weight;
  }

  /** The exact score is 20 times the stake component plus what the history earned; it lies in
      [0, 100), so the final clamp never fires. */
  lemma ScoreInRange(stake: real, weight: real, success: real)
    requires 0.0 <= stake <= 1.0 && 0.0 <= success <= weight
    ensures TrustScore(stake, weight, success) == 20.0 * stake + Earned(weight, success)
    ensures 0.0 <= TrustScore(stake, weight, success) < 100.0
  {
    EarnedBounds(weight, success);
    if weight > 0.0 {
      SplitFraction(success, weight);
    }
  }

  // ---------------------------------------------------------------- how the score moves

  /** Cross-multiplication. */
  lemma EarnedCompare(w: real, s: real, w': real, s': real)
    requires w >= 0.0 && w' >= 0.0
    ensures Earned(w', s') <= Earned(w, s)
       <==> (70.0 * s' + 10.0 * w') * (w + 5.0) <= (70.0 * s + 10.0 * w) * (w' + 5.0)
  {
    var x, y := Earned(w, s), Earned(w', s');
    var d, d' := w + 5.0, w' + 5.0;
    assert x * d == 70.0 * s + 10.0 * w && y * d' == 70.0 * s' + 10.0 * w';
    assert (y * d') * d <= (x * d) * d' <==> y <= x by {
      ScaleCompare(y, x, d * d');
      assert (y * d') * d == y * (d * d') && (x * d) * d' == x * (d * d');
    }
  }

  lemma ScaleCompare(x: real, y: real, d: real)
    requires d > 0.0
    ensures x <= y <==> x * d <= y * d
  {
    if x > y {
      assert (x - y) * d > 0.0;
    }
  }

  function Times(x: real, y: real): real {
    x * y
  }

  lemma EarnedCross(w: real, s: real, w': real, s': real, n: real, d: real, n': real, d': real)
    requires w >= 0.0 && w' >= 0.0
    requires n == 70.0 * s + 10.0 * w && d == w + 5.0 && n' == 70.0 * s' + 10.0 * w' && d' == w' + 5.0
    ensures Earned(w', s') <= Earned(w, s) <==> Times(n', d) <= Times(n, d')
  {
    EarnedCompare(w, s, w', s');
  }

  /** Growing a fraction n / d by (rate * more) / more moves it towards `rate`. */
  lemma MoreCross(n: real, d: real, rate: real, more: real)
    requires more > 0.0
    ensures Times(n + rate * more, d) <= Times(n, d + more) <==> rate * d <= n
  {
    assert (n + rate * more) * d - n * (d + more) == more * (rate * d - n);
    ScaleCompare(rate * d - n, 0.0, more);
  }

  /** More fully successful weight always raises the score. */
  lemma SuccessRaises(stake: real, weight: real, success: real, more: real)
    requires 0.0 <= stake <= 1.0 && 0.0 <= success <= weight && more > 0.0
    ensures TrustScore(stake, weight + more, success + more) > TrustScore(stake, weight, success)
  {
    hide TrustScore, Earned, Times;
    ScoreInRange(stake, weight, success);
    ScoreInRange(stake, weight + more, success + more);
    var n, d := 70.0 * success + 10.0 * weight, weight + 5.0;
    EarnedCross(weight, success, weight + more, success + more, n, d, n + 80.0 * more, d + more);
    MoreCross(n, d, 80.0, more);
  }

  /** The same the other way round. */
  lemma LessCross(n: real, d: real, rate: real, more: real)
    requires more > 0.0
    ensures Times(n, d + more) <= Times(n + rate * more, d) <==> n <= rate * d
  {
    assert n * (d + more) - (n + rate * more) * d == more * (n - rate * d);
    ScaleCompare(n - rate * d, 0.0, more);
  }

  /** More failed weight never raises the score if and only if weighted success has reached 5/7:
      below that the confidence gained outweighs the failure.  It lowers the score exactly beyond. */
  lemma FailureRaisesExactlyBelow(stake: real, weight: real, success: real, more: real)
    requires 0.0 <= stake <= 1.0 && 0.0 <= success <= weight && more > 0.0
    ensures TrustScore(stake, weight + more, success) <= TrustScore(stake, weight, success) <==> success >= 5.0 / 7.0
    ensures TrustScore(stake, weight + more, success) < TrustScore(stake, weight, success) <==> success > 5.0 / 7.0
  {
    hide TrustScore, Earned, Times;
    ScoreInRange(stake, weight, success);
    ScoreInRange(stake, weight + more, success);
    var n, d := 70.0 * success + 10.0 * weight, weight + 5.0;
    EarnedCross(weight, success, weight + more, success, n, d, n + 10.0 * more, d + more);
    EarnedCross(weight + more, success, weight, success, n + 10.0 * more, d + more, n, d);
    MoreCross(n, d, 10.0, more);
    LessCross(n, d, 10.0, more);
  }

  /** Less weighted success at the same weight lowers the score. */
  lemma LessSuccessLowers(stake: real, weight: real, success: real, less: real)
    requires 0.0 <= stake <= 1.0 && 0.0 <= success - less && success <= weight && less >= 0.0
    ensures TrustScore(stake, weight, success - less) < TrustScore(stake, weight, success) <==> less > 0.0
  {
    hide TrustScore, Earned, Times;
    ScoreInRange(stake, weight, success);
    ScoreInRange(stake, weight, success - less);
    var n, d := 70.0 * success + 10.0 * weight, weight + 5.0;
    EarnedCross(weight, success - less, weight, success, n - 70.0 * less, d, n, d);
    TimesCompare(n, n - 70.0 * less, d);
  }

  lemma TimesCompare(x: real, y: real, d: real)
    requires d > 0.0
    ensures Times(x, d) <= Times(y, d) <==> x <= y
  {
    ScaleCompare(x, y, d);
  }

  // ---------------------------------------------------------------- one receipt seen otherwise

  function Nth(h: History, i: nat): Item
    requires i < Length(h)
  {
    if i == 0 then h.head else Nth(h.tail, i - 1)
  }

  /** The history with its i-th receipt (latest first) replaced. */
  function Revise(h: History, i: nat, it: Item): History
    requires i < Length(h)
  {
    if i == 0 then Cons(it, h.tail) else Cons(h.head, Revise(h.tail, i - 1, it))
  }

  /** Only the outcome, the verdict or the role was judged otherwise. */
  predicate SameReceipt(it: Item, it': Item) {
    it.party == it'.party && it.decay == it'.decay
  }

  lemma {:induction false} RevisionKeepsCounts(h: History, i: nat, it: Item, party: Id)
    requires i < Length(h) && SameReceipt(Nth(h, i), it)
    ensures Count(Revise(h, i, it), party) == Count(h, party) && Length(Revise(h, i, it)) == Length(h)
  {
    if i > 0 {
      RevisionKeepsCounts(h.tail, i - 1, it, party);
    }
  }

  lemma WeightAfterRevision(pool: Pool, all: History, j: nat, new_: Item, earlier: History, it: Item)
    requires j < Length(all) && SameReceipt(Nth(all, j), new_)
    ensures Weight(pool, Revise(all, j, new_), earlier, it) == Weight(pool, all, earlier, it)
  {
    hide CapSize, PairWeight;
    RevisionKeepsCounts(all, j, new_, it.party);
  }

  lemma WeightAfterEarlierRevision(pool: Pool, all: History, earlier: History, i: nat, new_: Item, it: Item)
    requires i < Length(earlier) && SameReceipt(Nth(earlier, i), new_)
    ensures Weight(pool, all, Revise(earlier, i, new_), it) == Weight(pool, all, earlier, it)
  {
    hide CapSize, PairWeight;
    RevisionKeepsCounts(earlier, i, new_, it.party);
  }

  lemma {:induction false} TotalAfterRevision(pool: Pool, all: History, j: nat, new_: Item, h: History)
    requires j < Length(all) && SameReceipt(Nth(all, j), new_)
    ensures Total(pool, Revise(all, j, new_), h) == Total(pool, all, h)
  {
    if h.Cons? {
      WeightAfterRevision(pool, all, j, new_, h.tail, h.head);
      TotalAfterRevision(pool, all, j, new_, h.tail);
    }
  }

  /** What the i-th receipt weighs before any attestation boost. */
  function OwnWeight(pool: Pool, all: History, h: History, i: nat): real
    requires i < Length(h)
  {
    if i == 0 then (if Weighs(pool, all, h.tail, h.head.party) then BaseWeight(pool, all, h.head) else 0.0)
    else OwnWeight(pool, all, h.tail, i - 1)
  }

  function Credit(it: Item): real {
    Boost(it.verdict) * OutcomeScore(it)
  }

  function WeightLost(w: real, it: Item, it': Item): real {
    w * (Boost(it.verdict) - Boost(it'.verdict))
  }

  function SuccessLost(w: real, it: Item, it': Item): real {
    w * (Credit(it) - Credit(it'))
  }

  lemma HeadRevised(pool: Pool, all: History, earlier: History, it: Item, it': Item)
    requires SameReceipt(it, it')
    ensures var w := if Weighs(pool, all, earlier, it.party) then BaseWeight(pool, all, it) else 0.0;
      var x, x' := Weight(pool, all, earlier, it), Weight(pool, all, earlier, it');
      && x - x' == WeightLost(w, it, it')
      && x * OutcomeScore(it) - x' * OutcomeScore(it') == SuccessLost(w, it, it')
  {
    hide Weighs, PairWeight, Boost, OutcomeScore;
    var b := BaseWeight(pool, all, it);
    assert BaseWeight(pool, all, it') == b;
    ProductsDiffer(b, Boost(it.verdict), OutcomeScore(it), Boost(it'.verdict), OutcomeScore(it'));
    ProductsDiffer(0.0, Boost(it.verdict), OutcomeScore(it), Boost(it'.verdict), OutcomeScore(it'));
  }

  lemma ProductsDiffer(b: real, x: real, s: real, x': real, s': real)
    ensures b * x - b * x' == b * (x - x')
    ensures (b * x) * s - (b * x') * s' == b * (x * s - x' * s')
  {}

  lemma DifferenceCarries(pool: Pool, all: History, all': History, it: Item, earlier: History, earlier': History,
      dw: real, ds: real)
    requires Weight(pool, all', earlier', it) == Weight(pool, all, earlier, it)
    requires Total(pool, all, earlier).weight - Total(pool, all', earlier').weight == dw
    requires Total(pool, all, earlier).success - Total(pool, all', earlier').success == ds
    ensures Total(pool, all, Cons(it, earlier)).weight - Total(pool, all', Cons(it, earlier')).weight == dw
    ensures Total(pool, all, Cons(it, earlier)).success - Total(pool, all', Cons(it, earlier')).success == ds
  {
    hide Weight, OutcomeScore;
  }

  lemma DifferenceArises(pool: Pool, all: History, all': History, it: Item, it': Item, earlier: History)
    requires Total(pool, all', earlier) == Total(pool, all, earlier)
    ensures var x, x' := Weight(pool, all, earlier, it), Weight(pool, all', earlier, it');
      var t, t' := Total(pool, all, Cons(it, earlier)), Total(pool, all', Cons(it', earlier));
      t.weight - t'.weight == x - x' && t.success - t'.success == x * OutcomeScore(it) - x' * OutcomeScore(it')
  {
    hide Weight, OutcomeScore;
  }

  /** Seeing one receipt otherwise moves the totals by this receipt's boost and credit, and nothing
      else: everybody else's weight stays. */
  lemma {:induction false} RevisionMoves(pool: Pool, all: History, j: nat, h: History, i: nat, it': Item)
    requires j < Length(all) && i < Length(h)
    requires SameReceipt(Nth(all, j), it') && SameReceipt(Nth(h, i), it')
    ensures var w, it := OwnWeight(pool, all, h, i), Nth(h, i);
      var before, after := Total(pool, all, h), Total(pool, Revise(all, j, it'), Revise(h, i, it'));
      && before.weight - after.weight == WeightLost(w, it, it')
      && before.success - after.success == SuccessLost(w, it, it')
  {
    hide Weight, BaseWeight, Weighs, Boost, OutcomeScore, Total, WeightLost, SuccessLost;
    var all' := Revise(all, j, it');
    if i == 0 {
      TotalAfterRevision(pool, all, j, it', h.tail);
      WeightAfterRevision(pool, all, j, it', h.tail, it');
      HeadRevised(pool, all, h.tail, h.head, it');
      DifferenceArises(pool, all, all', h.head, it', h.tail);
    } else {
      var w, it := OwnWeight(pool, all, h, i), Nth(h, i);
      RevisionMoves(pool, all, j, h.tail, i - 1, it');
      WeightAfterRevision(pool, all, j, it', Revise(h.tail, i - 1, it'), h.head);
      WeightAfterEarlierRevision(pool, all, h.tail, i - 1, it', h.head);
      DifferenceCarries(pool, all, all', h.head, h.tail, Revise(h.tail, i - 1, it'), WeightLost(w, it, it'),
          SuccessLost(w, it, it'));
    }
  }

  lemma {:induction false} RevisionDecays(h: History, i: nat, it: Item)
    requires i < Length(h) && Decays(h) && SameReceipt(Nth(h, i), it)
    ensures Decays(Revise(h, i, it))
  {
    if i > 0 {
      RevisionDecays(h.tail, i - 1, it);
    }
  }

  lemma {:induction false} OwnWeightSign(pool: Pool, all: History, h: History, i: nat)
    requires Sensible(pool) && Decays(h) && i < Length(h)
    ensures 0.0 <= OwnWeight(pool, all, h, i)
  {
    if i == 0 {
      WeightBounds(pool, all, h.tail, h.head);
    } else {
      OwnWeightSign(pool, all, h.tail, i - 1);
    }
  }

  /** Both totals, with the weight of reports added, are what the formula expects. */
  lemma RevisionBounds(pool: Pool, h: History, i: nat, it': Item)
    requires Sensible(pool) && Decays(h) && i < Length(h) && SameReceipt(Nth(h, i), it')
    ensures var before, after := Total(pool, h, h), Total(pool, Revise(h, i, it'), Revise(h, i, it'));
      0.0 <= before.success <= before.weight && 0.0 <= after.success <= after.weight
  {
    hide Total;
    TotalBounds(pool, h, h);
    RevisionDecays(h, i, it');
    TotalBounds(pool, Revise(h, i, it'), Revise(h, i, it'));
  }

  // ---------------------------------------------------------------- a rejected verdict

  /** The history with the verdict of its i-th receipt turned into rejected. */
  function Demote(h: History, i: nat): History
    requires i < Length(h)
  {
    Revise(h, i, Nth(h, i).(verdict := NetRejected))
  }

  /** Losing `boosted * score` of success and `boosted - w` of weight never raises the fraction. */
  lemma DemotionCross(weight: real, success: real, w: real, boost: real, score: real)
    requires 0.0 <= success <= weight && w >= 0.0 && (boost == 1.0 || boost == 1.5) && (score == 0.5 || score == 1.0)
    requires 0.0 <= weight - w * (boost - 1.0)
    ensures Earned(weight - w * (boost - 1.0), success - w * (boost * score)) <= Earned(weight, success)
  {
    var n, d := 70.0 * success + 10.0 * weight, weight + 5.0;
    var dn, dd := w * (70.0 * (boost * score) + 10.0 * (boost - 1.0)), w * (boost - 1.0);
    var w', s' := weight - w * (boost - 1.0), success - w * (boost * score);
    EarnedCompare(weight, success, w', s');
    assert 70.0 * s' + 10.0 * w' == n - dn && w' + 5.0 == d - dd;
    LossCross(n, d, w, 70.0 * (boost * score) + 10.0 * (boost - 1.0), boost - 1.0);
  }

  lemma LossCross(n: real, d: real, w: real, up: real, down: real)
    requires 0.0 <= n <= 80.0 * d && d >= 0.0 && w >= 0.0 && 0.0 <= down && 80.0 * down <= up
    ensures (n - w * up) * d <= n * (d - w * down)
  {
    assert n * (d - w * down) - (n - w * up) * d == w * (up * d - down * n);
    assert down * n <= down * (80.0 * d) by {
      assert down * (80.0 * d - n) >= 0.0;
    }
    assert down * (80.0 * d) == (80.0 * down) * d;
    assert (80.0 * down) * d <= up * d by {
      assert (up - 80.0 * down) * d >= 0.0;
    }
    assert w * (up * d - down * n) >= 0.0;
  }

  /** What a rejection takes from a receipt, by what its parties declared. */
  lemma DemotionLoses(w: real, it: Item)
    ensures var it' := it.(verdict := NetRejected);
      && WeightLost(w, it, it') == w * (Boost(it.verdict) - 1.0)
      && SuccessLost(w, it, it') == w * (Boost(it.verdict) * OutcomeScore(it))
    ensures it.verdict != NetVerified ==> WeightLost(w, it, it.(verdict := NetRejected)) == 0.0
    ensures OutcomeScore(it) == 0.0 ==> SuccessLost(w, it, it.(verdict := NetRejected)) == 0.0
  {}

  /** The score after a rejection, from the totals before. */
  function Rejected(stake: real, weight: real, success: real, w: real, it: Item): real {
    var it' := it.(verdict := NetRejected);
    TrustScore(stake, weight - WeightLost(w, it, it'), success - SuccessLost(w, it, it'))
  }

  ghost predicate Loses(weight: real, success: real, w: real, it: Item) {
    var it' := it.(verdict := NetRejected);
    && 0.0 <= success <= weight && w >= 0.0
    && 0.0 <= success - SuccessLost(w, it, it') <= weight - WeightLost(w, it, it')
  }

  lemma RejectedVerifiedFailure(stake: real, weight: real, success: real, w: real, it: Item)
    requires 0.0 <= stake <= 1.0 && Loses(weight, success, w, it) && it.outcome == Failed && it.verdict == NetVerified
    ensures Rejected(stake, weight, success, w, it) > TrustScore(stake, weight, success)
       <==> w > 0.0 && success > 5.0 / 7.0
  {
    hide TrustScore;
    DemotionLoses(w, it);
    var half := w * (Boost(it.verdict) - 1.0);
    assert half == w * 0.5;
    if w > 0.0 {
      FailureRaisesExactlyBelow(stake, weight - half, success, half);
    }
  }

  lemma RejectedOtherwise(stake: real, weight: real, success: real, w: real, it: Item)
    requires 0.0 <= stake <= 1.0 && Loses(weight, success, w, it)
    requires !(it.outcome == Failed && it.verdict == NetVerified)
    ensures Rejected(stake, weight, success, w, it) <= TrustScore(stake, weight, success)
  {
    hide TrustScore, Earned;
    DemotionLoses(w, it);
    if it.outcome != Failed && it.verdict != NetRejected {
      ScoreInRange(stake, weight, success);
      ScoreInRange(stake, weight - w * (Boost(it.verdict) - 1.0), success - w * (Boost(it.verdict) * OutcomeScore(it)));
      DemotionCross(weight, success, w, Boost(it.verdict), OutcomeScore(it));
    }
  }

  /** A rejection raises the score in one case only: the parties declared a failure, a majority had
      verified it, the receipt carries weight, and weighted success is beyond 5/7.  Then losing the
      boost takes failed weight away.  `reports` is the weight of non-performance reports. */
  lemma {:induction false} RejectionRaisesExactly(pool: Pool, h: History, i: nat, stake: real, reports: real)
    requires Sensible(pool) && Decays(h) && i < Length(h) && 0.0 <= stake <= 1.0 && reports >= 0.0
    ensures var before, after := Total(pool, h, h), Total(pool, Demote(h, i), Demote(h, i));
      var was, becomes := TrustScore(stake, before.weight + reports, before.success),
                          TrustScore(stake, after.weight + reports, after.success);
      becomes > was
      <==> (Nth(h, i).outcome == Failed && Nth(h, i).verdict == NetVerified && OwnWeight(pool, h, h, i) > 0.0
            && before.success > 5.0 / 7.0)
  {
    hide TrustScore, OwnWeight, Total, WeightLost, SuccessLost;
    var it, w := Nth(h, i), OwnWeight(pool, h, h, i);
    var it', before := it.(verdict := NetRejected), Total(pool, h, h);
    RevisionBounds(pool, h, i, it');
    RevisionMoves(pool, h, i, h, i, it');
    OwnWeightSign(pool, h, h, i);
    if it.outcome == Failed && it.verdict == NetVerified {
      RejectedVerifiedFailure(stake, before.weight + reports, before.success, w, it);
    } else {
      RejectedOtherwise(stake, before.weight + reports, before.success, w, it);
    }
    var after := Total(pool, Demote(h, i), Demote(h, i));
    assert after.weight + reports == before.weight + reports - WeightLost(w, it, it');
    assert after.success == before.success - SuccessLost(w, it, it');
  }

  /** Turning the verdict on a receipt that its parties declared a success (or a partial one) into
      rejected never raises the score. */
  lemma RejectionNeverRaises(pool: Pool, h: History, i: nat, stake: real)
    requires Sensible(pool) && Decays(h) && i < Length(h) && 0.0 <= stake <= 1.0
    requires Nth(h, i).outcome != Failed
    ensures var before, after := Total(pool, h, h), Total(pool, Demote(h, i), Demote(h, i));
      TrustScore(stake, after.weight, after.success) <= TrustScore(stake, before.weight, before.success)
  {
    RejectionRaisesExactly(pool, h, i, stake, 0.0);
  }

  /** The history with its i-th receipt no longer verified. */
  function Unverify(h: History, i: nat): History
    requires i < Length(h)
  {
    Revise(h, i, Nth(h, i).(verdict := NoVerdict))
  }

  lemma BoostLost(w: real, it: Item)
    requires it.verdict == NetVerified
    ensures var it' := it.(verdict := NoVerdict); var half := w * 0.5;
      && WeightLost(w, it, it') == half
      && SuccessLost(w, it, it') == half * OutcomeScore(it)
  {}

  /** Taking away weight that was credited at some rate raises the fraction exactly if the rate is
      below what had been earned. */
  lemma LossRaisesExactly(stake: real, weight: real, success: real, half: real, rate: real)
    requires 0.0 <= stake <= 1.0 && 0.0 <= success <= weight && half >= 0.0 && 0.0 <= rate <= 1.0
    requires 0.0 <= success - half * rate <= weight - half
    ensures TrustScore(stake, weight - half, success - half * rate) > TrustScore(stake, weight, success)
       <==> half > 0.0 && Earned(weight, success) > 10.0 + 70.0 * rate
  {
    var w', s' := weight - half, success - half * rate;
    var n, d, r := 70.0 * success + 10.0 * weight, weight + 5.0, 10.0 + 70.0 * rate;
    hide TrustScore;
    ScoreInRange(stake, weight, success);
    ScoreInRange(stake, w', s');
    assert 70.0 * s' + 10.0 * w' == n - r * half && w' + 5.0 == d - half;
    hide Earned, Times;
    EarnedCross(weight, success, w', s', n, d, n - r * half, d - half);
    EarnedAbove(weight, success, r);
    if half > 0.0 {
      MoreCrossBack(n, d, r, half);
    }
  }

  lemma MoreCrossBack(n: real, d: real, rate: real, less: real)
    requires less > 0.0
    ensures Times(n - rate * less, d) <= Times(n, d - less) <==> n <= rate * d
  {
    assert (n - rate * less) * d - n * (d - less) == less * (n - rate * d);
    ScaleCompare(n - rate * d, 0.0, less);
  }

  lemma EarnedAbove(weight: real, success: real, r: real)
    requires weight >= 0.0
    ensures Earned(weight, success) > r <==> 70.0 * success + 10.0 * weight > r * (weight + 5.0)
  {
    var x := Earned(weight, success);
    assert x * (weight + 5.0) == 70.0 * success + 10.0 * weight;
    ScaleCompare(x, r, weight + 5.0);
  }

  /** When a receipt loses its verification without being rejected, the score rises exactly if the
      receipt carries weight and was credited less than what had been earned on average. */
  lemma {:induction false} UnverifyingRaisesExactly(pool: Pool, h: History, i: nat, stake: real, reports: real)
    requires Sensible(pool) && Decays(h) && i < Length(h) && 0.0 <= stake <= 1.0 && reports >= 0.0
    requires Nth(h, i).verdict == NetVerified
    ensures var before, after := Total(pool, h, h), Total(pool, Unverify(h, i), Unverify(h, i));
      var was, becomes := TrustScore(stake, before.weight + reports, before.success),
                          TrustScore(stake, after.weight + reports, after.success);
      before.weight + reports >= 0.0
      && (becomes > was <==>
            OwnWeight(pool, h, h, i) > 0.0
            && Earned(before.weight + reports, before.success) > 10.0 + 70.0 * OutcomeScore(Nth(h, i)))
  {
    hide TrustScore, Earned, OwnWeight, Total, WeightLost, SuccessLost;
    var it, w, before := Nth(h, i), OwnWeight(pool, h, h, i), Total(pool, h, h);
    RevisionBounds(pool, h, i, it.(verdict := NoVerdict));
    RevisionMoves(pool, h, i, h, i, it.(verdict := NoVerdict));
    OwnWeightSign(pool, h, h, i);
    BoostLost(w, it);
    LossRaisesExactly(stake, before.weight + reports, before.success, w * 0.5, OutcomeScore(it));
  }

  // ---------------------------------------------------------------- a failed receipt

  /** The history with its i-th receipt declared failed instead. */
  function Failing(h: History, i: nat): History
    requires i < Length(h)
  {
    Revise(h, i, Nth(h, i).(outcome := Failed))
  }

  /** With the standing of the counterparties as it is, declaring a receipt failed never raises the
      score, and lowers it exactly if the receipt carried weight and was credited. */
  lemma {:induction false} FailureLowersExactly(pool: Pool, h: History, i: nat, stake: real, reports: real)
    requires Sensible(pool) && Decays(h) && i < Length(h) && 0.0 <= stake <= 1.0 && reports >= 0.0
    ensures var before, after := Total(pool, h, h), Total(pool, Failing(h, i), Failing(h, i));
      var was, becomes := TrustScore(stake, before.weight + reports, before.success),
                          TrustScore(stake, after.weight + reports, after.success);
      becomes <= was && (becomes < was <==> OwnWeight(pool, h, h, i) > 0.0 && OutcomeScore(Nth(h, i)) > 0.0)
  {
    hide TrustScore, Earned, OwnWeight, Weight, BaseWeight, Weighs, Total, WeightLost, SuccessLost;
    var it, w := Nth(h, i), OwnWeight(pool, h, h, i);
    RevisionBounds(pool, h, i, it.(outcome := Failed));
    RevisionMoves(pool, h, i, h, i, it.(outcome := Failed));
    OwnWeightSign(pool, h, h, i);
    FailureLoses(w, it);
    var before := Total(pool, h, h);
    LessSuccessLowers(stake, before.weight + reports, before.success, SuccessLost(w, it, it.(outcome := Failed)));
  }

  lemma FailureLoses(w: real, it: Item)
    requires w >= 0.0
    ensures WeightLost(w, it, it.(outcome := Failed)) == 0.0
    ensures SuccessLost(w, it, it.(outcome := Failed)) >= 0.0
    ensures SuccessLost(w, it, it.(outcome := Failed)) > 0.0 <==> w > 0.0 && OutcomeScore(it) > 0.0
  {}

  // ---------------------------------------------------------------- the concentration cap

  /** Receipts with this counterparty that carry weight. */
  function Weighted(pool: Pool, all: History, h: History, party: Id): nat {
    match h
    case Nil => 0
    case Cons(it, earlier) =>
      Weighted(pool, all, earlier, party) + if it.party == party && Weighs(pool, all, earlier, party) then 1 else 0
  }

  function WeightOf(pool: Pool, all: History, h: History, party: Id): real {
    match h
    case Nil => 0.0
    case Cons(it, earlier) =>
      WeightOf(pool, all, earlier, party) + if it.party == party then Weight(pool, all, earlier, it) else 0.0
  }

  /** The receipts that carry weight are the earliest ones, up to the cap. */
  lemma {:induction false} EarliestCarryWeight(pool: Pool, all: History, h: History, party: Id)
    requires Length(all) >= 3 && Cap(pool, all, party).value >= 0
    ensures Weighted(pool, all, h, party) ==
      if !pool.anchored(party) then 0
      else if Count(h, party) <= Cap(pool, all, party).value then Count(h, party) else Cap(pool, all, party).value
  {
    if h.Cons? {
      EarliestCarryWeight(pool, all, h.tail, party);
    }
  }

  lemma CapSign(pool: Pool, all: History, party: Id)
    requires Length(all) >= 3 && pool.capRatio >= 0.0
    ensures 0 <= Cap(pool, all, party).value
    ensures Cap(pool, all, party).value as real <= pool.capRatio * (Length(all) - Count(all, party)) as real
  {
    CountAtMostLength(all, party);
    assert pool.capRatio * (Length(all) - Count(all, party)) as real >= 0.0;
  }

  lemma {:induction false} CountAtMostLength(h: History, party: Id)
    ensures Count(h, party) <= Length(h)
  {
    if h.Cons? {
      CountAtMostLength(h.tail, party);
    }
  }

  lemma CapShare(c: real, t: real, k: real, others: real)
    requires 0.0 < t < 1.0 && 0.0 <= c <= t / (1.0 - t) && 0.0 <= k <= c * others && 0.0 <= others
    ensures k <= t * (k + others)
  {
    assert c * (1.0 - t) <= t by {
      assert (t / (1.0 - t)) * (1.0 - t) == t;
      assert (t / (1.0 - t) - c) * (1.0 - t) >= 0.0;
    }
    assert k * (1.0 - t) <= c * others * (1.0 - t) by {
      assert (c * others - k) * (1.0 - t) >= 0.0;
    }
    assert c * others * (1.0 - t) == others * (c * (1.0 - t));
    assert others * (t - c * (1.0 - t)) >= 0.0;
  }

  /** From three receipts on, the receipts of one counterparty that carry weight are its earliest,
      and at most the threshold's share of themselves and all receipts with others. */
  lemma {:induction false} ConcentrationBounded(pool: Pool, h: History, party: Id, threshold: real)
    requires Length(h) >= 3 && 0.0 < threshold < 1.0 && 0.0 <= pool.capRatio <= threshold / (1.0 - threshold)
    ensures var k, others := Weighted(pool, h, h, party), Length(h) - Count(h, party);
      && k as real <= threshold * (k + others) as real
      && (pool.anchored(party) ==> k == if Count(h, party) <= Cap(pool, h, party).value then Count(h, party)
          else Cap(pool, h, party).value)
  {
    hide CapSize, Weighs, Weighted, Count;
    var k, others := Weighted(pool, h, h, party), Length(h) - Count(h, party);
    CapSign(pool, h, party);
    CountAtMostLength(h, party);
    EarliestCarryWeight(pool, h, h, party);
    assert k <= Cap(pool, h, party).value;
    CapShare(pool.capRatio, threshold, k as real, others as real);
    assert (k + others) as real == k as real + others as real;
  }

  lemma {:induction false} WeightOfBound(pool: Pool, all: History, h: History, party: Id)
    requires Sensible(pool) && Decays(h)
    ensures WeightOf(pool, all, h, party)
         <= Count(h, party) as real * (1.5 * (PairWeight(pool.ln1p, Count(all, party)) * pool.trust(party)))
  {
    hide Weight, PairWeight;
    var each := 1.5 * (PairWeight(pool.ln1p, Count(all, party)) * pool.trust(party));
    if h.Nil? {
      assert 0.0 * each == 0.0;
    } else {
      WeightOfBound(pool, all, h.tail, party);
      WeightBounds(pool, all, h.tail, h.head);
      OneMore(Count(h.tail, party) as real, each);
    }
  }

  lemma OneMore(n: real, x: real)
    ensures (n + 1.0) * x == n * x + x
  {}

  lemma TimesQuotient(n: real, a: real, b: real)
    requires n != 0.0
    ensures n * (1.5 * ((a / n) * b)) == 1.5 * b * a
  {
    assert n * (a / n) == a;
    assert n * (1.5 * ((a / n) * b)) == 1.5 * b * (n * (a / n));
  }

  /** However many receipts two agents exchange, one counterparty contributes at most
      1.5 times its trust times ln(1 + number of receipts). */
  lemma PairSaturates(pool: Pool, h: History, party: Id)
    requires Sensible(pool) && Decays(h)
    ensures WeightOf(pool, h, h, party) <= 1.5 * pool.trust(party) * pool.ln1p(Count(h, party))
  {
    hide Weight, WeightOf, Count, PairWeight;
    WeightOfBound(pool, h, h, party);
    PairBound(pool.ln1p, Count(h, party), pool.trust(party));
  }

  lemma PairBound(ln1p: nat -> real, n: nat, trust: real)
    requires 0.0 <= trust && 0.0 <= ln1p(n)
    ensures n as real * (1.5 * (PairWeight(ln1p, n) * trust)) <= 1.5 * trust * ln1p(n)
  {
    if n > 0 {
      TimesQuotient(n as real, ln1p(n), trust);
    } else {
      assert 1.5 * trust * ln1p(0) >= 0.0;
    }
  }

  // ---------------------------------------------------------------- histories that earn nothing

  /** No counterparty of the history can carry weight. */
  ghost predicate NothingWeighs(pool: Pool, all: History, h: History) {
    h.Cons? ==>
      (!pool.anchored(h.head.party) || Count(all, h.head.party) == Length(all)) && NothingWeighs(pool, all, h.tail)
  }

  lemma {:induction false} NothingWeighsNothing(pool: Pool, all: History, h: History)
    requires Length(all) >= 3 && NothingWeighs(pool, all, h)
    ensures Total(pool, all, h).weight == 0.0 && Total(pool, all, h).success == 0.0
  {
    if h.Cons? {
      NothingWeighsNothing(pool, all, h.tail);
      if Count(all, h.head.party) == Length(all) {
        assert pool.capRatio * 0.0 == 0.0;
        assert Cap(pool, all, h.head.party) == Some(0);
      }
      assert !Weighs(pool, all, h.tail, h.head.party);
    }
  }

  /** Past three receipts, a history without anchored counterparties, or with a single one, earns
      nothing: the score is the stake component alone. */
  lemma ClosedHistoryEarnsNothing(pool: Pool, h: History, stake: real)
    requires Length(h) >= 3 && NothingWeighs(pool, h, h) && 0.0 <= stake <= 1.0
    ensures TrustScore(stake, Total(pool, h, h).weight, Total(pool, h, h).success) == 20.0 * stake
  {
    NothingWeighsNothing(pool, h, h);
  }

  // ---------------------------------------------------------------- one receipt more

  /** Adding a receipt is not adding weight.  The third receipt with one's only counterparty, failed
      or not, ends the time in which everything counts, and takes away all that was earned. */
  lemma ThirdReceiptLowers(pool: Pool, h: History, it: Item, stake: real)
    requires Sensible(pool) && Decays(h) && 0.0 <= stake <= 1.0
    requires Length(h) == 2 && Count(h, it.party) == 2 && Total(pool, h, h).weight > 0.0
    ensures var before, after := Total(pool, h, h), Total(pool, Cons(it, h), Cons(it, h));
      && TrustScore(stake, after.weight, after.success) == 20.0 * stake
      && TrustScore(stake, after.weight, after.success) < TrustScore(stake, before.weight, before.success)
  {
    var all, t := Cons(it, h), Total(pool, h, h);
    assert h.tail.tail == Nil;
    assert Count(h.tail, it.party) == 1 && h.head.party == it.party && h.tail.head.party == it.party;
    assert NothingWeighs(pool, all, h.tail.tail) && NothingWeighs(pool, all, h.tail);
    hide Total, TrustScore;
    ClosedHistoryEarnsNothing(pool, all, stake);
    TotalBounds(pool, h, h);
    ScoreInRange(stake, t.weight, t.success);
    EarnedPositive(t.weight, t.success);
  }

  lemma EarnedPositive(weight: real, success: real)
    requires 0.0 <= success <= weight && weight > 0.0
    ensures Earned(weight, success) > 0.0
  {
    assert Earned(weight, success) * (weight + 5.0) == 70.0 * success + 10.0 * weight;
  }

  function Plain(party: Id, outcome: Outcome): Item {
    Item(party, true, outcome, NoVerdict, 1.0)
  }

  /** Four successes with party 1, then one with party 2. */
  const BUSY: History := Cons(Plain(2, Success), REGULAR)
  const REGULAR: History := Cons(Plain(1, Success), Cons(Plain(1, Success), Cons(Plain(1, Success),
      Cons(Plain(1, Success), Nil))))

  /** Everybody is anchored and trusted; the threshold is 3/5. */
  function Welcoming(ln1p: nat -> real): Pool {
    Pool(k => 1.0, k => true, ln1p, 1.5)
  }

  lemma RegularWeighs(ln1p: nat -> real, all: History)
    requires Length(all) >= 3 && Count(all, 1) == 4
    ensures var t, cap, one := Total(Welcoming(ln1p), all, REGULAR), Cap(Welcoming(ln1p), all, 1).value, ln1p(4) / 4.0;
      && t.weight == t.success
      && (cap == 1 ==> t.weight == one) && (cap == 3 ==> t.weight == 3.0 * one)
  {
    var pool, one := Welcoming(ln1p), ln1p(4) / 4.0;
    var h3, it := REGULAR.tail, Plain(1, Success);
    var h2, h1 := h3.tail, h3.tail.tail;
    assert BaseWeight(pool, all, it) == one;
    assert Count(h1, 1) == 1 && Count(h2, 1) == 2 && Count(h3, 1) == 3;
    assert Total(pool, all, h1) == Plus(NOTHING, Weight(pool, all, Nil, it), 1.0);
    assert Total(pool, all, h2) == Plus(Total(pool, all, h1), Weight(pool, all, h1, it), 1.0);
    assert Total(pool, all, h3) == Plus(Total(pool, all, h2), Weight(pool, all, h2, it), 1.0);
    assert Total(pool, all, REGULAR) == Plus(Total(pool, all, h3), Weight(pool, all, h3, it), 1.0);
  }

  /** And a failed receipt with a newcomer can raise the score although weighted success is beyond
      5/7: it raises the cap on everybody else.  Here, with ln 2 and ln 5 to two places, the cap on
      party 1 goes from one receipt to three. */
  lemma NewcomersFailureRaises(ln1p: nat -> real, stake: real)
    requires 0.69 <= ln1p(1) <= 0.70 && 1.60 <= ln1p(4) <= 1.61 && 0.0 <= stake <= 1.0
    ensures var pool, all := Welcoming(ln1p), Cons(Plain(3, Failed), BUSY);
      var before, after := Total(pool, BUSY, BUSY), Total(pool, all, all);
      && before.success > 5.0 / 7.0
      && TrustScore(stake, after.weight, after.success) > TrustScore(stake, before.weight, before.success)
  {
    hide Total, TrustScore;
    BusyTotals(ln1p);
    NewcomerScores(ln1p(4) / 4.0, ln1p(1), stake);
  }

  lemma NewcomerScores(a: real, b: real, stake: real)
    requires 0.4 <= a <= 0.4025 && 0.69 <= b <= 0.70 && 0.0 <= stake <= 1.0
    ensures TrustScore(stake, 3.0 * a + 2.0 * b, 3.0 * a + b) > TrustScore(stake, a + b, a + b)
  {
    hide TrustScore, Earned;
    var w, s := 3.0 * a + 2.0 * b, 3.0 * a + b;
    ScoreInRange(stake, a + b, a + b);
    ScoreInRange(stake, w, s);
    EarnedCompare(w, s, a + b, a + b);
    EarnedCompare(a + b, a + b, w, s);
    assert 70.0 * s + 10.0 * w == 240.0 * a + 90.0 * b && 70.0 * (a + b) + 10.0 * (a + b) == 80.0 * (a + b);
    NewcomerCross(a, b);
  }

  lemma NewcomerCross(a: real, b: real)
    requires 0.4 <= a <= 0.4025 && 0.69 <= b <= 0.70
    ensures (80.0 * (a + b)) * (3.0 * a + 2.0 * b + 5.0) < (240.0 * a + 90.0 * b) * (a + b + 5.0)
  {
    var x, y, z := a * a, a * b, b * b;
    assert (80.0 * (a + b)) * (3.0 * a + 2.0 * b + 5.0) == 240.0 * x + 400.0 * y + 160.0 * z + 400.0 * a + 400.0 * b;
    assert (240.0 * a + 90.0 * b) * (a + b + 5.0) == 240.0 * x + 330.0 * y + 90.0 * z + 1200.0 * a + 450.0 * b;
    ProductInUnit(a, b, a);
    ProductInUnit(b, b, b);
    NewcomerLinear(a, b, x, y, z);
  }

  lemma NewcomerLinear(a: real, b: real, x: real, y: real, z: real)
    requires 0.4 <= a && b <= 0.70 && y <= a && z <= b
    ensures 240.0 * x + 400.0 * y + 160.0 * z + 400.0 * a + 400.0 * b
          < 240.0 * x + 330.0 * y + 90.0 * z + 1200.0 * a + 450.0 * b
  {}

  lemma BusyTotals(ln1p: nat -> real)
    ensures var pool, all := Welcoming(ln1p), Cons(Plain(3, Failed), BUSY);
      var a, b := ln1p(4) / 4.0, ln1p(1);
      && Total(pool, BUSY, BUSY).weight == Total(pool, BUSY, BUSY).success == a + b
      && Total(pool, all, all).weight == 3.0 * a + 2.0 * b && Total(pool, all, all).success == 3.0 * a + b
  {
    var pool, all := Welcoming(ln1p), Cons(Plain(3, Failed), BUSY);
    BusyCounts(1);
    BusyCounts(2);
    BusyCounts(3);
    RegularWeighs(ln1p, BUSY);
    RegularWeighs(ln1p, all);
    assert Cap(pool, BUSY, 1) == Some(1) && Cap(pool, all, 1) == Some(3);
    assert Weight(pool, BUSY, REGULAR, Plain(2, Success)) == ln1p(1);
    assert Weight(pool, all, REGULAR, Plain(2, Success)) == ln1p(1);
    assert Weight(pool, all, BUSY, Plain(3, Failed)) == ln1p(1);
  }

  lemma BusyCounts(k: Id)
    ensures Count(REGULAR, k) == (if k == 1 then 4 else 0) && Length(BUSY) == 5
    ensures Count(BUSY, k) == if k == 1 then 4 else if k == 2 then 1 else 0
  {
    var h := REGULAR.tail.tail;
    assert Count(h.tail.tail, k) == 0 && Length(h.tail.tail) == 0;
    assert Count(h, k) == (if k == 1 then 2 else 0) && Length(h) == 2;
    assert Count(REGULAR, k) == (if k == 1 then 4 else 0) && Length(REGULAR) == 4;
  }

  // ---------------------------------------------------------------- roles

  /** Every receipt is tallied once, as provider or as requester. */
  lemma {:induction false} RolesPartition(pool: Pool, all: History, h: History)
    ensures var p, q, t := RoleTotal(pool, all, h, true), RoleTotal(pool, all, h, false), Total(pool, all, h);
      p.count + q.count == t.count && p.weight + q.weight == t.weight && p.success + q.success == t.success
  {
    if h.Cons? {
      hide Weight, OutcomeScore;
      RolesPartition(pool, all, h.tail);
    }
  }
}
