/** The idempotency middleware: TTL caches that forget expired entries as they please, and the
    guard built on them. */
module Idempotency {
  // `Ideal` keeps every entry ever written.  The caches agree with it on everything still alive,
  // so what the guard answers is decided by the ideal maps alone.

  import opened Options
  import opened Lists

  type Time = int

  const DAY: Time := 24 * 60 * 60 * 1000
  const CLOCK_SKEW: Time := 5 * 60 * 1000
  const SWEEP_THRESHOLD := 5000

  // ---------------------------------------------------------------- caches

  datatype Timed<V> = Timed(value: V, expiresAt: Time)

  /** The entry a reader at time t still sees. */
  function Alive<K, V>(m: map<K, Timed<V>>, k: K, t: Time): Option<Timed<V>> {
    if k in m && m[k].expiresAt > t then Some(m[k]) else None
  }

  /** From time t on no reader can tell the two maps apart. */
  ghost predicate AgreeFrom<K(!new), V>(m: map<K, Timed<V>>, m': map<K, Timed<V>>, t: Time) {
    forall k :: Alive(m, k, t) == Alive(m', k, t)
  }

  lemma AgreeLater<K(!new), V>(m: map<K, Timed<V>>, m': map<K, Timed<V>>, t: Time, u: Time)
    requires AgreeFrom(m, m', t) && t <= u
    ensures AgreeFrom(m, m', u)
  {
    forall k
      ensures Alive(m, k, u) == Alive(m', k, u)
    {
      assert Alive(m, k, t) == Alive(m', k, t);
    }
  }

  /** A map in insertion order. */
  class TtlCache<K(==,!new), V> {
    var entries: map<K, Timed<V>>
    var order: seq<K>

    ghost predicate Valid()
      reads this
    {
      && (forall k :: k in order <==> k in entries)
      && (forall i, j | 0 <= i < j < |order| :: order[i] != order[j])
    }

    constructor ()
      ensures Valid() && entries == map[]
    {
      entries, order := map[], [];
    }

    method Delete(k: K)
      requires Valid()
      modifies this
      ensures Valid() && entries == old(entries) - {k}
    {
      if k in entries {
        var i :| 0 <= i < |order| && order[i] == k;
        entries := entries - {k};
        order := order[..i] + order[i + 1..];
      }
    }

    /** Drops every expired entry. */
    method PruneExpired(now: Time)
      requires Valid()
      modifies this
      ensures Valid()
      ensures forall k :: k in entries <==> k in old(entries) && old(entries)[k].expiresAt > now
      ensures forall k | k in entries :: entries[k] == old(entries)[k]
    {
      var keys := order;
      for i := 0 to |keys|
        invariant Valid()
        invariant forall k | k in entries :: k in old(entries) && entries[k] == old(entries)[k]
        invariant forall k | k in old(entries) && old(entries)[k].expiresAt > now :: k in entries
        invariant forall j | 0 <= j < i && keys[j] in entries :: entries[keys[j]].expiresAt > now
      {
        if keys[i] in entries && entries[keys[i]].expiresAt <= now {
          Delete(keys[i]);
        }
      }
      assert forall k | k in entries :: k in keys;
    }

    /** The live value under the key; an expired entry is evicted on the way. */
    method ReadFresh(key: K, now: Time) returns (hit: Option<V>)
      requires Valid()
      modifies this
      ensures Valid() && AgreeFrom(entries, old(entries), now)
      ensures hit == match Alive(old(entries), key, now) case Some(e) => Some(e.value) case None => None
    {
      if key !in entries {
        return None;
      }
      if entries[key].expiresAt <= now {
        Delete(key);
        return None;
      }
      return Some(entries[key].value);
    }

    /** Writes, sweeping first once the map is large; nobody can see the sweep. */
    method SetWithSweep(key: K, value: V, expiresAt: Time, now: Time)
      requires Valid()
      modifies this
      ensures Valid() && AgreeFrom(entries, old(entries)[key := Timed(value, expiresAt)], now)
    {
      if |entries| > SWEEP_THRESHOLD {
        PruneExpired(now);
      }
      if key !in entries {
        order := order + [key];
      }
      entries := entries[key := Timed(value, expiresAt)];
    }
  }

  // ---------------------------------------------------------------- cache keys

  /** A did:key identifier: two colons and none after them. */
  predicate IsDid(d: string) {
    "did:key:" <= d && forall i | 8 <= i < |d| :: d[i] != ':'
  }

  /** The agent part of a cache key: an identifier, or the word used when a request has none. */
  predicate IsAgentPart(d: string) {
    IsDid(d) || d == "anonymous"
  }

  function CacheKey(agent: string, key: string): string {
    agent + ":" + key
  }

  /** The length of the agent part shows in the key: an identifier ends at the third colon, the
      other word at the first. */
  lemma AgentPartEnds(a: string, a': string, joined: string)
    requires IsAgentPart(a) && IsAgentPart(a') && a + ":" <= joined && a' + ":" <= joined
    ensures a == a'
  {
    assert joined[|a|] == ':' && joined[|a'|] == ':';
    assert forall i | 0 <= i < |a| :: joined[i] == a[i];
    assert forall i | 0 <= i < |a'| :: joined[i] == a'[i];
    assert IsDid(a) ==> a[3] == ':';
    assert IsDid(a') ==> a'[3] == ':';
    assert |a| == |a'|;
    assert a == joined[..|a|] && a' == joined[..|a'|];
  }

  /** The joined cache key determines agent and Idempotency-Key, whatever colons the key contains. */
  lemma CacheKeyInjective(a: string, k: string, a': string, k': string)
    requires IsAgentPart(a) && IsAgentPart(a') && CacheKey(a, k) == CacheKey(a', k')
    ensures a == a' && k == k'
  {
    var joined := CacheKey(a, k);
    AgentPartEnds(a, a', joined);
    assert k == joined[|a| + 1..] && k' == joined[|a'| + 1..];
  }

  // ---------------------------------------------------------------- the guard, on ideal maps

  type Sig = int
  type Body = int

  datatype Response = Response(status: int, body: Body)

  datatype Ideal = Ideal(responses: map<string, Timed<Response>>, signatures: map<Sig, Timed<string>>)

  /** A request that reached the guard: its signature's timestamp was checked at `checked`, the
      guard reads the clock at `now`. */
  datatype Arrival = Arrival(agent: string, key: string, sig: Sig, stamp: Time, checked: Time, now: Time)

  datatype Outcome = StaleSignature | MissingKey | Replay(response: Response) | Replayed | Run

  /** What trimming removes: white space and line terminators. */
  predicate IsSpace(c: char) {
    var u := c as int;
    9 <= u <= 13 || u == 32 || u == 0xA0 || u == 0x1680 || 0x2000 <= u <= 0x200A || u == 0x2028 || u == 0x2029
        || u == 0x202F || u == 0x205F || u == 0x3000 || u == 0xFEFF
  }

  predicate Blank(key: string) {
    forall i | 0 <= i < |key| :: IsSpace(key[i])
  }

  predicate Within(stamp: Time, checked: Time) {
    -CLOCK_SKEW <= checked - stamp <= CLOCK_SKEW
  }

  function Arrive(g: Ideal, a: Arrival): (Ideal, Outcome) {
    if !Within(a.stamp, a.checked) then (g, StaleSignature)
    else if Blank(a.key) then (g, MissingKey)
    else
      match Alive(g.responses, CacheKey(a.agent, a.key), a.now)
      case Some(cached) => (g, Replay(cached.value))
      case None =>
        match Alive(g.signatures, a.sig, a.now)
        case Some(seen) => (g, if seen.value != a.key then Replayed else Run)
        case None => (g.(signatures := g.signatures[a.sig := Timed(a.key, a.now + CLOCK_SKEW)]), Run)
  }

  /** The handler of a request answered: only a success is remembered. */
  function Finish(g: Ideal, agent: string, key: string, response: Response, now: Time): Ideal {
    if 200 <= response.status < 300
    then g.(responses := g.responses[CacheKey(agent, key) := Timed(response, now + DAY)])
    else g
  }

  // ---------------------------------------------------------------- the guard, on the caches

  class Guard {
    const responses: TtlCache<string, Response>
    const signatures: TtlCache<Sig, string>
    ghost var ideal: Ideal

    /** From time t on, the caches answer as the ideal maps would. */
    ghost predicate Valid(t: Time)
      reads this, responses, signatures
    {
      && responses as object != signatures as object
      && responses.Valid() && signatures.Valid()
      && AgreeFrom(responses.entries, ideal.responses, t) && AgreeFrom(signatures.entries, ideal.signatures, t)
    }

    constructor (t: Time)
      ensures Valid(t) && fresh(responses) && fresh(signatures) && ideal == Ideal(map[], map[])
    {
      responses := new TtlCache();
      signatures := new TtlCache();
      ideal := Ideal(map[], map[]);
    }

    method Handle(a: Arrival, ghost t: Time) returns (outcome: Outcome)
      requires Valid(t) && t <= a.now
      modifies this, responses, signatures
      ensures Valid(a.now)
      ensures (ideal, outcome) == Arrive(old(ideal), a)
    {
      AgreeLater(responses.entries, ideal.responses, t, a.now);
      AgreeLater(signatures.entries, ideal.signatures, t, a.now);
      ghost var k, s := CacheKey(a.agent, a.key), a.sig;
      assert Alive(responses.entries, k, a.now) == Alive(ideal.responses, k, a.now);
      assert Alive(signatures.entries, s, a.now) == Alive(ideal.signatures, s, a.now);
      if !Within(a.stamp, a.checked) {
        return StaleSignature;
      }
      if Blank(a.key) {
        return MissingKey;
      }
      var cached := responses.ReadFresh(CacheKey(a.agent, a.key), a.now);
      if cached.Some? {
        return Replay(cached.value);
      }
      var seen := signatures.ReadFresh(a.sig, a.now);
      if seen.Some? {
        return if seen.value != a.key then Replayed else Run;
      }
      ghost var entry := Timed(a.key, a.now + CLOCK_SKEW);
      SetAgrees(signatures.entries, ideal.signatures, a.sig, entry, a.now);
      signatures.SetWithSweep(a.sig, a.key, a.now + CLOCK_SKEW, a.now);
      ideal := ideal.(signatures := ideal.signatures[a.sig := entry]);
      return Run;
    }

    method Answered(agent: string, key: string, response: Response, now: Time, ghost t: Time)
      requires Valid(t) && t <= now
      modifies this, responses
      ensures Valid(now)
      ensures ideal == Finish(old(ideal), agent, key, response, now)
    {
      AgreeLater(responses.entries, ideal.responses, t, now);
      AgreeLater(signatures.entries, ideal.signatures, t, now);
      if 200 <= response.status < 300 {
        SetAgrees(responses.entries, ideal.responses, CacheKey(agent, key), Timed(response, now + DAY), now);
        responses.SetWithSweep(CacheKey(agent, key), response, now + DAY, now);
        ideal := Finish(ideal, agent, key, response, now);
      }
    }
  }

  lemma SetAgrees<K(!new), V>(m: map<K, Timed<V>>, m': map<K, Timed<V>>, k: K, e: Timed<V>, t: Time)
    requires AgreeFrom(m, m', t)
    ensures AgreeFrom(m[k := e], m'[k := e], t)
  {
    var n, n' := m[k := e], m'[k := e];
    forall i
      ensures Alive(n, i, t) == Alive(n', i, t)
    {
      assert Alive(m, i, t) == Alive(m', i, t);
    }
  }

  // ---------------------------------------------------------------- runs

  datatype Event =
    | Arrives(arrival: Arrival)
    | Answers(agent: string, key: string, response: Response, at: Time)

  function When(e: Event): Time {
    match e
    case Arrives(a) => a.now
    case Answers(_, _, _, t) => t
  }

  function After(g: Ideal, e: Event): Ideal {
    match e
    case Arrives(a) => Arrive(g, a).0
    case Answers(agent, key, response, t) => Finish(g, agent, key, response, t)
  }

  function Play(g: Ideal, es: List<Event>): Ideal
    decreases es
  {
    match es
    case Nil => g
    case Cons(e, rest) => Play(After(g, e), rest)
  }

  /** The clock does not go back, and a request is checked at most `gap` before the guard sees it. */
  predicate Orderly(es: List<Event>, from: Time, gap: Time) {
    es.Cons? ==>
      && from <= When(es.head)
      && (es.head.Arrives? ==> es.head.arrival.checked <= es.head.arrival.now <= es.head.arrival.checked + gap)
      && Orderly(es.tail, When(es.head), gap)
  }

  predicate Runs(g: Ideal, a: Arrival) {
    Arrive(g, a).1 == Run
  }

  /** The response stays cached until `until`. */
  predicate Held(g: Ideal, k: string, until: Time) {
    k in g.responses && g.responses[k].expiresAt >= until
  }

  lemma {:induction false} ResponseHeld(g: Ideal, k: string, until: Time, es: List<Event>, from: Time, gap: Time)
    requires Held(g, k, until) && Orderly(es, from, gap) && until <= from + DAY
    ensures Held(Play(g, es), k, until)
    decreases es
  {
    if es.Cons? {
      ResponseHeld(After(g, es.head), k, until, es.tail, When(es.head), gap);
    }
  }

  /** After a success at time t, whatever else arrives and is answered, the handler does not run
      again for that agent and key before t + 24 h. */
  lemma NoSecondRun(g: Ideal, agent: string, key: string, response: Response, t: Time, es: List<Event>, gap: Time,
      a: Arrival)
    requires 200 <= response.status < 300 && Orderly(es, t, gap)
    requires a.agent == agent && a.key == key && a.now < t + DAY
    ensures !Runs(Play(Finish(g, agent, key, response, t), es), a)
  {
    ResponseHeld(Finish(g, agent, key, response, t), CacheKey(agent, key), t + DAY, es, t, gap);
  }

  /** The last success that was answered for this cache key. */
  function LastSuccess(es: List<Event>, k: string, before: Response): Response {
    match es
    case Nil => before
    case Cons(Answers(agent, key, response, _), rest) =>
      LastSuccess(rest, k, if 200 <= response.status < 300 && CacheKey(agent, key) == k then response else before)
    case Cons(_, rest) => LastSuccess(rest, k, before)
  }

  lemma {:induction false} LastSuccessHeld(g: Ideal, k: string, until: Time, es: List<Event>, from: Time, gap: Time)
    requires Held(g, k, until) && Orderly(es, from, gap) && until <= from + DAY
    ensures Held(Play(g, es), k, until)
    ensures Play(g, es).responses[k].value == LastSuccess(es, k, g.responses[k].value)
    decreases es
  {
    if es.Cons? {
      LastSuccessHeld(After(g, es.head), k, until, es.tail, When(es.head), gap);
    }
  }

  /** A retry within 24 hours of a success is answered with what was answered: the last success for
      that agent and key, the given one if there has been no other. */
  lemma RetryIsReplayed(g: Ideal, agent: string, key: string, response: Response, t: Time, es: List<Event>, gap: Time,
      a: Arrival)
    requires 200 <= response.status < 300 && Orderly(es, t, gap)
    requires a.agent == agent && a.key == key && a.now < t + DAY && Within(a.stamp, a.checked) && !Blank(key)
    ensures Arrive(Play(Finish(g, agent, key, response, t), es), a).1
         == Replay(LastSuccess(es, CacheKey(agent, key), response))
  {
    LastSuccessHeld(Finish(g, agent, key, response, t), CacheKey(agent, key), t + DAY, es, t, gap);
  }

  /** Some success for this cache key was answered less than 24 hours before `now`. */
  predicate RecentSuccess(es: List<Event>, k: string, now: Time) {
    match es
    case Nil => false
    case Cons(Answers(agent, key, response, at), rest) =>
      (CacheKey(agent, key) == k && 200 <= response.status < 300 && now < at + 24 * 60 * 60 * 1000)
          || RecentSuccess(rest, k, now)
    case Cons(_, rest) => RecentSuccess(rest, k, now)
  }

  lemma {:induction false} CachedExactly(g: Ideal, k: string, es: List<Event>, from: Time, gap: Time, now: Time)
    requires Orderly(es, from, gap) && (k in g.responses ==> g.responses[k].expiresAt <= from + DAY)
    ensures Alive(Play(g, es).responses, k, now).Some?
       <==> Alive(g.responses, k, now).Some? || RecentSuccess(es, k, now)
    decreases es
  {
    if es.Cons? {
      CachedExactly(After(g, es.head), k, es.tail, When(es.head), gap, now);
    }
  }

  /** After everything that arrived and was answered, a request runs if and only if its time stamp is
      within five minutes of the server's clock, its key is not blank, nothing succeeded for its agent
      and key in the last 24 hours, and its signature is not bound to another key. */
  lemma RunsExactly(es: List<Event>, from: Time, gap: Time, a: Arrival)
    requires Orderly(es, from, gap)
    ensures var g := Play(Ideal(map[], map[]), es);
      Runs(g, a)
      <==> -5 * 60 * 1000 <= a.checked - a.stamp <= 5 * 60 * 1000
           && (exists i :: 0 <= i < |a.key| && !IsSpace(a.key[i]))
           && !RecentSuccess(es, CacheKey(a.agent, a.key), a.now)
           && (Alive(g.signatures, a.sig, a.now).Some? ==> g.signatures[a.sig].value == a.key)
  {
    CachedExactly(Ideal(map[], map[]), CacheKey(a.agent, a.key), es, from, gap, a.now);
  }

  /** The signature is bound to the key at least until `until`. */
  predicate Bound(g: Ideal, sig: Sig, key: string, until: Time) {
    sig in g.signatures && g.signatures[sig].value == key && g.signatures[sig].expiresAt >= until
  }

  /** A verified signature covers its timestamp, so one signature comes with one timestamp. */
  predicate Stamped(es: List<Event>, stamp: Sig -> Time) {
    es.Cons? ==> (es.head.Arrives? ==> es.head.arrival.stamp == stamp(es.head.arrival.sig)) && Stamped(es.tail, stamp)
  }

  lemma {:induction false} SignatureStaysBound(g: Ideal, sig: Sig, key: string, until: Time, es: List<Event>,
      from: Time, gap: Time, stamp: Sig -> Time)
    requires Bound(g, sig, key, until) && Orderly(es, from, gap) && Stamped(es, stamp)
    requires stamp(sig) + CLOCK_SKEW + gap < until
    ensures Bound(Play(g, es), sig, key, until)
    decreases es
  {
    if es.Cons? {
      SignatureStaysBound(After(g, es.head), sig, key, until, es.tail, When(es.head), gap, stamp);
    }
  }

  /** A signature whose timestamp lies before the server time of its first run (by more than the
      time between a request's two clock reads) never runs under two keys. */
  lemma OneKeyPerSignature(g: Ideal, first: Arrival, es: List<Event>, gap: Time, stamp: Sig -> Time, a: Arrival)
    requires Alive(g.signatures, first.sig, first.now).None? && Runs(g, first)
    requires Orderly(es, first.now, gap) && Stamped(es, stamp)
    requires a.sig == first.sig && a.stamp == first.stamp == stamp(first.sig) && a.checked <= a.now <= a.checked + gap
    requires stamp(first.sig) + gap < first.now
    requires Runs(Play(Arrive(g, first).0, es), a)
    ensures a.key == first.key
  {
    SignatureStaysBound(Arrive(g, first).0, first.sig, first.key, first.now + CLOCK_SKEW, es, first.now, gap, stamp);
  }

  /** Some later request with this signature runs under the key `other`, whatever is served between. */
  ghost predicate RunsAgain(g: Ideal, first: Arrival, other: string, gap: Time, stamp: Sig -> Time) {
    exists es, a ::
      && Orderly(es, first.now, gap) && Stamped(es, stamp)
      && Again(first, a, other, gap) && Runs(Play(g, es), a)
  }

  /** The same request under another key: its signature carries the same timestamp. */
  predicate Again(first: Arrival, a: Arrival, other: string, gap: Time) {
    && a.agent == first.agent && a.sig == first.sig && a.stamp == first.stamp && a.key == other
    && first.now <= a.now && a.checked <= a.now <= a.checked + gap
  }

  /** The condition is exact: with at most `gap` between the two clock reads of a request, a later run
      of the same signature under another, uncached key is possible if and only if the timestamp is
      less than `gap` before the first run, or not before it. */
  lemma SecondKeyPossibleExactly(g: Ideal, first: Arrival, other: string, gap: Time, stamp: Sig -> Time)
    requires Alive(g.signatures, first.sig, first.now).None? && Runs(g, first)
    requires first.checked <= first.now <= first.checked + gap && stamp(first.sig) == first.stamp
    requires other != first.key && !Blank(other) && CacheKey(first.agent, other) !in g.responses
    ensures RunsAgain(Arrive(g, first).0, first, other, gap, stamp) <==> first.stamp + gap >= first.now
  {
    var g' := Arrive(g, first).0;
    if first.stamp + gap >= first.now {
      var t := first.now + CLOCK_SKEW;
      var checked := if t - gap >= first.stamp - CLOCK_SKEW then t - gap else first.stamp - CLOCK_SKEW;
      var a := first.(key := other, checked := checked, now := t);
      assert Again(first, a, other, gap) && Runs(Play(g', Nil), a);
      assert Orderly(Nil, first.now, gap) && Stamped(Nil, stamp);
    } else {
      forall es, a | Orderly(es, first.now, gap) && Stamped(es, stamp) && Again(first, a, other, gap)
        ensures !Runs(Play(g', es), a)
      {
        if Runs(Play(g', es), a) {
          OneKeyPerSignature(g, first, es, gap, stamp, a);
        }
      }
    }
  }
}
