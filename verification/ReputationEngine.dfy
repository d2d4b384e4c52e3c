/** The computation of a reputation as the service runs it: passes over the receipts that fill
    maps and running sums, proved to compute the summary of module Reputation. */
module ReputationEngine {
  import opened Options
  import opened Lists
  import opened Succession
  import opened Registry
  import opened ReputationScore
  import opened Reputation

  ghost function CapFor(capRatio: real, h: History, k: Id): Option<int> {
    if Length(h) < 3 then None else Some(CapSize(capRatio, Length(h) - Count(h, k)))
  }

  lemma {:induction false} PastLength(items: List<Item>, done: History)
    ensures Length(Past(items, done)) == Length(items) + Length(done)
    decreases items
  {
    if items.Cons? {
      PastLength(items.tail, Cons(items.head, done));
    }
  }

  /** Exactly the counterparties of the history, each with its number of receipts. */
  ghost predicate CountsOf(pairCounts: map<Id, nat>, h: History) {
    && (forall k :: k in pairCounts <==> Count(h, k) > 0)
    && (forall k | k in pairCounts :: pairCounts[k] == Count(h, k))
  }

  /** First pass: receipts per counterparty, and the counterparties in order of appearance. */
  method CountPairs(items: List<Item>) returns (pairCounts: map<Id, nat>, parties: seq<Id>)
    ensures CountsOf(pairCounts, Past(items, Nil))
    ensures forall k :: k in parties <==> k in pairCounts
  {
    pairCounts, parties := map[], [];
    var rest := items;
    ghost var done: History := Nil;
    while rest.Cons?
      invariant Past(rest, done) == Past(items, Nil)
      invariant CountsOf(pairCounts, done)
      invariant forall k :: k in parties <==> k in pairCounts
      decreases rest
    {
      var k := rest.head.party;
      if k in pairCounts {
        pairCounts := pairCounts[k := pairCounts[k] + 1];
      } else {
        pairCounts := pairCounts[k := 1];
        parties := parties + [k];
      }
      done := Cons(rest.head, done);
      rest := rest.tail;
    }
  }

  /** Second pass: one cap per counterparty from three receipts on, none below. */
  method CapParties(capRatio: real, ghost h: History, n: nat, pairCounts: map<Id, nat>,
      parties: seq<Id>) returns (caps: map<Id, int>)
    requires n == Length(h) && CountsOf(pairCounts, h) && forall k :: k in parties <==> k in pairCounts
    ensures forall k | k in pairCounts :: (if k in caps then Some(caps[k]) else None) == CapFor(capRatio, h, k)
  {
    hide CapSize;
    caps := map[];
    if n >= 3 {
      for i := 0 to |parties|
        invariant forall j | 0 <= j < i :: parties[j] in caps
        invariant forall k | k in caps :: k in pairCounts && caps[k] == CapSize(capRatio, n - pairCounts[k])
      {
        var k := parties[i];
        assert k in parties;
        caps := caps[k := CapSize(capRatio, n - pairCounts[k])];
      }
    }
  }

  /** Third pass: the counterparties without standing outside the agent's own cluster. */
  method FindUnanchored(v: View, id: Id, ghost h: History, n: nat, pairCounts: map<Id, nat>,
      parties: seq<Id>) returns (unanchored: set<Id>)
    requires CountsOf(pairCounts, h)
    ensures forall k :: k in unanchored <==> n >= 3 && k in parties && !PoolOf(v, id, h).anchored(k)
  {
    unanchored := {};
    var self, head := LineageOf(v.back, id), HeadOf(v.succ, id);
    var excluded := (y: Id) => Contains(self, y) || y == head || y in pairCounts;
    if n >= 3 {
      for i := 0 to |parties|
        invariant forall k :: k in unanchored <==> k in parties[..i] && !PoolOf(v, id, h).anchored(k)
      {
        var k := parties[i];
        SomeOutsideSame(CountedRows(v.table, LineageOf(v.back, k), v.now), LineageOf(v.back, k), v.succ, excluded,
            y => InCluster(v, id, h, y));
        assert parties[..i + 1] == parties[..i] + [k];
        if !Anchored(v, k, excluded) {
          unanchored := unanchored + {k};
        }
      }
      assert parties[..|parties|] == parties;
    }
  }

  /** The receipts weighed so far are those seen so far, up to the cap. */
  lemma {:induction false} WeighedSoFar(pool: Pool, all: History, h: History, party: Id)
    requires Length(all) >= 3 && pool.anchored(party)
    ensures Count(h, party) <= Cap(pool, all, party).value ==> Weighted(pool, all, h, party) == Count(h, party)
    ensures Count(h, party) > Cap(pool, all, party).value
        ==> Weighted(pool, all, h, party) >= Cap(pool, all, party).value
  {
    if h.Cons? {
      hide CapSize;
      WeighedSoFar(pool, all, h.tail, party);
    }
  }

  /** The running sums of the main pass. */
  datatype Sums = Sums(all: Tally, asProvider: Tally, asRequester: Tally, attested: nat, rejected: nat)

  ghost function SumsOf(pool: Pool, all: History, h: History): Sums {
    Sums(Total(pool, all, h), RoleTotal(pool, all, h, true), RoleTotal(pool, all, h, false), Verdicts(h, NetVerified),
        Verdicts(h, NetRejected))
  }

  function AddItem(sums: Sums, it: Item, weight: real): Sums {
    Sums(Plus(sums.all, weight, OutcomeScore(it)),
         if it.provider then Plus(sums.asProvider, weight, OutcomeScore(it)) else sums.asProvider,
         if it.provider then sums.asRequester else Plus(sums.asRequester, weight, OutcomeScore(it)),
         sums.attested + if it.verdict == NetVerified then 1 else 0,
         sums.rejected + if it.verdict == NetRejected then 1 else 0)
  }

  lemma SumsStep(pool: Pool, all: History, it: Item, earlier: History)
    ensures SumsOf(pool, all, Cons(it, earlier))
         == AddItem(SumsOf(pool, all, earlier), it, Weight(pool, all, earlier, it))
  {
    hide Weight, OutcomeScore;
  }

  /** The trust of a counterparty, looked up once per computation. */
  method CachedTrust(v: View, cache: map<Id, real>, k: Id) returns (trust: real, cache': map<Id, real>)
    requires forall i | i in cache :: cache[i] == BaseTrust(v, i)
    ensures trust == BaseTrust(v, k)
    ensures forall i | i in cache' :: cache'[i] == BaseTrust(v, i)
  {
    if k in cache {
      return cache[k], cache;
    }
    trust := BaseTrust(v, k);
    cache' := cache[k := trust];
  }

  lemma {:induction false} WeighsByCounts(pool: Pool, h: History, done: History, k: Id, weighted: nat,
      cap: Option<int>, unanchored: bool)
    requires weighted == Weighted(pool, h, done, k) && cap == Cap(pool, h, k)
        && (unanchored <==> Length(h) >= 3 && !pool.anchored(k))
    ensures Weighs(pool, h, done, k) <==> !((cap.Some? && weighted >= cap.value) || unanchored)
  {
    hide CapSize;
    if Length(h) >= 3 && pool.anchored(k) {
      WeighedSoFar(pool, h, done, k);
    }
  }

  /** Main pass, earliest receipt first. */
  method Accumulate(v: View, ghost id: Id, ghost pool: Pool, ghost h: History, items: List<Item>, pairCounts: map<Id,
      nat>, caps: map<Id, int>,
      unanchored: set<Id>) returns (sums: Sums, cache: map<Id, real>)
    requires h == Past(items, Nil) && CountsOf(pairCounts, h) && pool == PoolOf(v, id, h)
    requires forall k | k in pairCounts ::
      (if k in caps then Some(caps[k]) else None) == CapFor(v.params.capRatio, h, k)
    requires forall k | k in pairCounts :: k in unanchored <==> Length(h) >= 3 && !pool.anchored(k)
    ensures sums == SumsOf(pool, h, h)
    ensures forall i | i in cache :: cache[i] == BaseTrust(v, i)
  {
    hide BaseTrust, Anchored, Weight, Weighs, CapSize, AddItem, OutcomeScore, SumsOf;
    sums := Sums(NOTHING, NOTHING, NOTHING, 0, 0);
    cache := map[];
    var weightedCount: map<Id, nat> := map[];
    var rest := items;
    ghost var done: History := Nil;
    NoSums(pool, h);
    while rest.Cons?
      invariant Past(rest, done) == h
      invariant sums == SumsOf(pool, h, done)
      invariant forall i | i in cache :: cache[i] == BaseTrust(v, i)
      invariant forall k :: (if k in weightedCount then weightedCount[k] else 0) == Weighted(pool, h, done, k)
      decreases rest
    {
      var it := rest.head;
      var k := it.party;
      PastCounts(rest, done, k);
      var trust: real;
      trust, cache := CachedTrust(v, cache, k);
      var countedSoFar := if k in weightedCount then weightedCount[k] else 0;
      var cap := if k in caps then Some(caps[k]) else None;
      WeighsByCounts(pool, h, done, k, countedSoFar, cap, k in unanchored);
      var weight := 0.0;
      if !((cap.Some? && countedSoFar >= cap.value) || k in unanchored) {
        weight := PairWeight(v.params.ln1p, pairCounts[k]) * trust * it.decay * Boost(it.verdict);
        weightedCount := weightedCount[k := countedSoFar + 1];
      }
      WeightIs(v, pool, h, done, it, trust, weight);
      sums := AddItem(sums, it, weight);
      SumsStep(pool, h, it, done);
      done := Cons(it, done);
      rest := rest.tail;
    }
  }

  lemma NoSums(pool: Pool, all: History)
    ensures SumsOf(pool, all, Nil) == Sums(NOTHING, NOTHING, NOTHING, 0, 0)
  {}

  lemma {:induction false} PastCounts(rest: List<Item>, done: History, k: Id)
    ensures Count(Past(rest, done), k) >= Count(done, k) + if rest.Cons? && rest.head.party == k then 1 else 0
    decreases rest
  {
    if rest.Cons? {
      PastCounts(rest.tail, Cons(rest.head, done), k);
    }
  }

  lemma WeightIs(v: View, pool: Pool, all: History, earlier: History, it: Item, trust: real, weight: real)
    requires trust == pool.trust(it.party)
    requires weight == if Weighs(pool, all, earlier, it.party)
      then PairWeight(pool.ln1p, Count(all, it.party)) * trust * it.decay * Boost(it.verdict) else 0.0
    ensures weight == Weight(pool, all, earlier, it)
  {
    hide Weighs, PairWeight, Boost;
  }

  /** Reports are folded in once per poster, at the poster's own trust. */
  method AddReports(v: View, posters: List<Id>, cache: map<Id, real>) returns (weight: real)
    requires forall i | i in cache :: cache[i] == BaseTrust(v, i)
    ensures weight == TrustSum(v, posters)
  {
    weight := 0.0;
    var rest, known := posters, cache;
    while rest.Cons?
      invariant weight + TrustSum(v, rest) == TrustSum(v, posters)
      invariant forall i | i in known :: known[i] == BaseTrust(v, i)
      decreases rest
    {
      var trust: real;
      trust, known := CachedTrust(v, known, rest.head);
      weight := weight + trust;
      rest := rest.tail;
    }
  }

  method ComputeReputation(v: View, id: Id) returns (result: Option<Summary>)
    ensures result == if id in v.agents then Some(SummaryOf(v, id)) else None
  {
    hide SumsOf, Total, RoleTotal, Past, Timeline, TrustScore, CapFor, Count, Anchored;
    if id !in v.agents {
      return None;
    }
    var self := LineageOf(v.back, id);
    var finalized := Timeline(v, id);
    ghost var h := HistoryOf(v, id);
    var n := Length(finalized);
    PastLength(finalized, Nil);
    var pairCounts, parties := CountPairs(finalized);
    ghost var pool := PoolOf(v, id, h);
    var caps := CapParties(v.params.capRatio, h, n, pairCounts, parties);
    var unanchored := FindUnanchored(v, id, h, n, pairCounts, parties);
    var sums, cache := Accumulate(v, id, pool, h, finalized, pairCounts, caps, unanchored);
    var reports := AddReports(v, Posters(v.jobs, self, v.succ), cache);
    var all := WithReports(sums.all, reports);
    SumsAre(pool, h);
    return Some(Summary(TrustScore(StakeComponent(v.params, v.agents[id].stake), all.weight, all.success), all,
                        WithReports(sums.asProvider, reports), sums.asRequester, sums.attested, sums.rejected));
  }

  lemma SumsAre(pool: Pool, h: History)
    ensures SumsOf(pool, h, h).all == Total(pool, h, h) && SumsOf(pool, h, h).asProvider == RoleTotal(pool, h, h, true)
    ensures SumsOf(pool, h, h).asRequester == RoleTotal(pool, h, h, false)
    ensures SumsOf(pool, h, h).attested == Verdicts(h, NetVerified)
    ensures SumsOf(pool, h, h).rejected == Verdicts(h, NetRejected)
  {}
}
