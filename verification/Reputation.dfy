/** The reputation engine: from the tables of the registry to the exact score of one agent. */
module Reputation {
  import opened Options
  import opened Lists
  import opened Succession
  import opened Registry
  import opened ReputationScore

  type Rows = List<(ReceiptId, Receipt)>

  /** ln(1 + n), the square root, 2^(-age / half-life) before clamping, and threshold / (1 - threshold). */
  datatype Params = Params(ln1p: nat -> real, root: real -> real, fading: Time -> real, capRatio: real)

  /** Everything one computation reads: tables as listed by the database, the successions in both
      directions, and one reading of the clock. */
  datatype View = View(agents: map<Id, Agent>, table: Rows, jobs: List<Job>, decisions: List<Verification>,
    succ: SuccMap, back: SuccMap, now: Time, params: Params)

  const STAKE_NORMALIZATION: real := 10000.0
  const UNKNOWN_TRUST: real := 0.05

  // ---------------------------------------------------------------- which receipts count

  predicate CountsTowardReputation(r: Receipt, now: Time) {
    !("demo." <= r.content.capability)
    && (r.status == Finalized || (r.status == Disputed && !DisputeActive(r, now)))
  }

  predicate Mine(self: List<Id>, r: Receipt) {
    Contains(self, r.content.a) || Contains(self, r.content.b)
  }

  /** The counted receipts of a lineage, in table order. */
  function CountedRows(table: Rows, self: List<Id>, now: Time): Rows {
    match table
    case Nil => Nil
    case Cons(row, rest) =>
      if Mine(self, row.1) && CountsTowardReputation(row.1, now) then Cons(row, CountedRows(rest, self, now))
      else CountedRows(rest, self, now)
  }

  /** The other party, under the current head of its chain. */
  function OtherParty(r: Receipt, self: List<Id>, succ: SuccMap): Id {
    HeadOf(succ, if Contains(self, r.content.a) then r.content.b else r.content.a)
  }

  // ---------------------------------------------------------------- trust in a counterparty

  function Successes(rows: Rows): nat {
    match rows
    case Nil => 0
    case Cons(row, rest) => Successes(rest) + if row.1.content.outcome == Success then 1 else 0
  }

  function StakeComponent(params: Params, stake: real): real {
    var norm := params.root(STAKE_NORMALIZATION);
    if norm > 0.0 then Clamp(params.root(stake) / norm, 0.0, 1.0) else 0.0
  }

  function VolumeComponent(params: Params, n: nat): real {
    if params.ln1p(50) > 0.0 then Clamp(params.ln1p(n) / params.ln1p(50), 0.0, 1.0) else 0.0
  }

  function SuccessRatio(rows: Rows): real {
    if Length(rows) > 0 then Successes(rows) as real / Length(rows) as real else 0.5
  }

  function TrustFrom(stake: real, rows: Rows, params: Params): real {
    Clamp(StakeComponent(params, stake) * 0.3 + SuccessRatio(rows) * 0.5 + VolumeComponent(params, Length(rows)) * 0.2,
        0.0, 1.0)
  }

  function BaseTrust(v: View, id: Id): real {
    if id !in v.agents then UNKNOWN_TRUST
    else TrustFrom(v.agents[id].stake, CountedRows(v.table, LineageOf(v.back, id), v.now), v.params)
  }

  // ---------------------------------------------------------------- anchoring

  predicate SomeOutside(rows: Rows, self: List<Id>, succ: SuccMap, excluded: Id -> bool) {
    rows.Cons? && (!excluded(OtherParty(rows.head.1, self, succ)) || SomeOutside(rows.tail, self, succ, excluded))
  }

  lemma {:induction false} SomeOutsideSame(rows: Rows, self: List<Id>, succ: SuccMap, f: Id -> bool, g: Id -> bool)
    requires forall k :: f(k) == g(k)
    ensures SomeOutside(rows, self, succ, f) == SomeOutside(rows, self, succ, g)
  {
    if rows.Cons? {
      SomeOutsideSame(rows.tail, self, succ, f, g);
    }
  }

  predicate Anchored(v: View, id: Id, excluded: Id -> bool) {
    id in v.agents
    && (v.agents[id].stake > 0.0
        || SomeOutside(CountedRows(v.table, LineageOf(v.back, id), v.now), LineageOf(v.back, id), v.succ, excluded))
  }

  // ---------------------------------------------------------------- verdicts

  predicate Standing(agents: map<Id, Agent>, verifier: Id) {
    verifier in agents && agents[verifier].isVerifier && !Retired(agents[verifier])
  }

  function Votes(decisions: List<Verification>, agents: map<Id, Agent>, id: ReceiptId, d: Decision): nat {
    match decisions
    case Nil => 0
    case Cons(x, rest) =>
      Votes(rest, agents, id, d) + if x.receiptId == id && x.decision == d && Standing(agents, x.verifier) then 1 else 0
  }

  /** Strict majority of the decisions of verifiers still in standing. */
  function AttestationVerdict(v: View, id: ReceiptId): Verdict {
    var yes, no := Votes(v.decisions, v.agents, id, Verified), Votes(v.decisions, v.agents, id, Rejected);
    if yes > no then NetVerified else if no > yes then NetRejected else NoVerdict
  }

  // ---------------------------------------------------------------- the history of an agent

  function InsertByTime(row: (ReceiptId, Receipt), rows: Rows): Rows {
    if rows.Nil? || row.1.content.completedAt <= rows.head.1.content.completedAt then Cons(row, rows)
    else Cons(rows.head, InsertByTime(row, rows.tail))
  }

  /** Earliest first; ties keep their order. */
  function SortByTime(rows: Rows): Rows {
    match rows
    case Nil => Nil
    case Cons(row, rest) => InsertByTime(row, SortByTime(rest))
  }

  function ItemOf(v: View, self: List<Id>, row: (ReceiptId, Receipt)): Item {
    Item(OtherParty(row.1, self, v.succ), Contains(self, row.1.content.b), row.1.content.outcome,
        AttestationVerdict(v, row.0), Clamp(v.params.fading(v.now - row.1.content.completedAt), 0.0, 1.0))
  }

  function ItemsOf(v: View, self: List<Id>, rows: Rows): List<Item> {
    match rows
    case Nil => Nil
    case Cons(row, rest) => Cons(ItemOf(v, self, row), ItemsOf(v, self, rest))
  }

  /** Earliest first. */
  function Timeline(v: View, id: Id): List<Item> {
    var self := LineageOf(v.back, id);
    ItemsOf(v, self, SortByTime(CountedRows(v.table, self, v.now)))
  }

  /** The items in front of `done`, in reverse. */
  function Past(items: List<Item>, done: History): History {
    match items
    case Nil => done
    case Cons(it, rest) => Past(rest, Cons(it, done))
  }

  /** Latest first. */
  function HistoryOf(v: View, id: Id): History {
    Past(Timeline(v, id), Nil)
  }

  /** The agent's own cluster: its lineage, its head and all its counterparties. */
  predicate InCluster(v: View, id: Id, h: History, k: Id) {
    Contains(LineageOf(v.back, id), k) || k == HeadOf(v.succ, id) || Count(h, k) > 0
  }

  function PoolOf(v: View, id: Id, h: History): Pool {
    Pool(k => BaseTrust(v, k), k => Anchored(v, k, y => InCluster(v, id, h, y)), v.params.ln1p, v.params.capRatio)
  }

  // ---------------------------------------------------------------- non-performance reports

  predicate ReportedAgainst(job: Job, self: List<Id>) {
    job.status == NonPerformed && job.acceptedAgent.Some? && Contains(self, job.acceptedAgent.value)
  }

  /** The chains that reported any ID of the lineage, each once. */
  function Posters(jobs: List<Job>, self: List<Id>, succ: SuccMap): List<Id> {
    match jobs
    case Nil => Nil
    case Cons(job, rest) =>
      var posters, k := Posters(rest, self, succ), HeadOf(succ, job.postedBy);
      if ReportedAgainst(job, self) && !Contains(posters, k) then Cons(k, posters) else posters
  }

  function TrustSum(v: View, ids: List<Id>): real {
    match ids
    case Nil => 0.0
    case Cons(k, rest) => TrustSum(v, rest) + BaseTrust(v, k)
  }

  function ReportWeight(v: View, id: Id): real {
    TrustSum(v, Posters(v.jobs, LineageOf(v.back, id), v.succ))
  }

  // ---------------------------------------------------------------- the result

  datatype Summary = Summary(score: real, all: Tally, asProvider: Tally, asRequester: Tally, attested: nat,
      rejected: nat)

  function WithReports(t: Tally, more: real): Tally {
    t.(weight := t.weight + more)
  }

  function SummaryOf(v: View, id: Id): Summary
    requires id in v.agents
  {
    var h := HistoryOf(v, id);
    var pool := PoolOf(v, id, h);
    var reports := ReportWeight(v, id);
    var all := WithReports(Total(pool, h, h), reports);
    Summary(TrustScore(StakeComponent(v.params, v.agents[id].stake), all.weight, all.success), all,
            WithReports(RoleTotal(pool, h, h, true), reports), RoleTotal(pool, h, h, false),
            Verdicts(h, NetVerified), Verdicts(h, NetRejected))
  }

  // ---------------------------------------------------------------- bounds

  ghost predicate Reasonable(params: Params) {
    && (forall n: nat :: 0.0 <= params.ln1p(n))
    && (forall n: nat | n > 0 :: 0.0 < params.ln1p(n))
    && 0.0 <= params.capRatio
  }

  lemma ClampBounds(x: real, lo: real, hi: real)
    requires lo <= hi
    ensures lo <= Clamp(x, lo, hi) <= hi
  {}

  lemma {:induction false} SuccessesAtMost(rows: Rows)
    ensures Successes(rows) <= Length(rows)
  {
    if rows.Cons? {
      SuccessesAtMost(rows.tail);
    }
  }

  /** Nobody's word is worth nothing, and nobody's more than 1. */
  lemma TrustPositive(v: View, id: Id)
    requires Reasonable(v.params)
    ensures 0.0 < BaseTrust(v, id) <= 1.0
  {
    if id in v.agents {
      TrustFromPositive(v.agents[id].stake, CountedRows(v.table, LineageOf(v.back, id), v.now), v.params);
    }
  }

  lemma TrustFromPositive(stake: real, rows: Rows, params: Params)
    requires Reasonable(params)
    ensures 0.0 < TrustFrom(stake, rows, params) <= 1.0
  {
    var n := Length(rows);
    ClampBounds(params.root(stake) / (if params.root(STAKE_NORMALIZATION) > 0.0 then params.root(STAKE_NORMALIZATION)
        else 1.0), 0.0, 1.0);
    if n > 0 {
      SuccessesAtMost(rows);
      assert Successes(rows) as real / n as real >= 0.0;
      assert params.ln1p(n) / params.ln1p(50) > 0.0;
    }
  }

  lemma {:induction false} ItemsDecay(v: View, self: List<Id>, rows: Rows, done: History)
    requires Decays(done)
    ensures Decays(Past(ItemsOf(v, self, rows), done))
    decreases rows
  {
    if rows.Cons? {
      ItemsDecay(v, self, rows.tail, Cons(ItemOf(v, self, rows.head), done));
    }
  }

  lemma HistoryDecays(v: View, id: Id)
    ensures Decays(HistoryOf(v, id))
  {
    var self := LineageOf(v.back, id);
    ItemsDecay(v, self, SortByTime(CountedRows(v.table, self, v.now)), Nil);
  }

  lemma PoolSensible(v: View, id: Id, h: History)
    requires Reasonable(v.params)
    ensures Sensible(PoolOf(v, id, h))
  {
    forall k
      ensures 0.0 <= PoolOf(v, id, h).trust(k) <= 1.0
    {
      TrustPositive(v, k);
    }
  }

  lemma {:induction false} TrustSumSign(v: View, ids: List<Id>)
    requires Reasonable(v.params)
    ensures 0.0 <= TrustSum(v, ids)
  {
    if ids.Cons? {
      TrustSumSign(v, ids.tail);
      TrustPositive(v, ids.head);
    }
  }

  lemma SummaryWeights(v: View, id: Id)
    requires id in v.agents && Reasonable(v.params)
    ensures var s := SummaryOf(v, id); 0.0 <= s.all.success <= s.all.weight
    ensures 0.0 <= StakeComponent(v.params, v.agents[id].stake) <= 1.0
  {
    var h := HistoryOf(v, id);
    PoolSensible(v, id, h);
    HistoryDecays(v, id);
    TotalBounds(PoolOf(v, id, h), h, h);
    TrustSumSign(v, Posters(v.jobs, LineageOf(v.back, id), v.succ));
  }

  /** Every agent's exact score is in [0, 100): the last clamp never fires. */
  lemma {:induction false} EveryScoreInRange(v: View, id: Id)
    requires id in v.agents && Reasonable(v.params)
    ensures var s := SummaryOf(v, id);
      && 0.0 <= s.score < 100.0
      && s.all.weight >= 0.0
      && s.score == 20.0 * StakeComponent(v.params, v.agents[id].stake) + Earned(s.all.weight, s.all.success)
  {
    hide Earned, TrustScore, StakeComponent, Total, RoleTotal, PoolOf, HistoryOf;
    SummaryWeights(v, id);
    var s := SummaryOf(v, id);
    ScoreInRange(StakeComponent(v.params, v.agents[id].stake), s.all.weight, s.all.success);
  }
}
