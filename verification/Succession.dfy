/** Succession chains and the two walks over them. */
module Succession {
  // A map leads from each succeeded ID to its successor.  `HeadOf` follows successors and
  // `LineageOf` follows predecessors.  Both give up after MAX_HOPS links, which the source calls a
  // guard and not a protocol limit; the lemmas say what the walks compute and exactly when the
  // guard cuts them short.

  import opened Lists

  /** Identifiers are opaque: only equality is used. */
  type Id = int
  type SuccMap = map<Id, Id>

  const MAX_HOPS: nat := 64

  /** Milliseconds. */
  type Time = int

  const HOUR: Time := 3600000
  const SUCCESSION_WINDOW: Time := 72 * HOUR

  /** What the windows are promised to be. */
  const THREE_DAYS: Time := 72 * 60 * 60 * 1000

  /** A requested succession whose window is still running. */
  datatype Pending = Pending(successor: Id, effectiveAt: Time)

  /** At most n links forward, stopping at the end of the chain. */
  function Follow(m: SuccMap, x: Id, n: nat): Id
    decreases n
  {
    if n == 0 || x !in m then x else Follow(m, m[x], n - 1)
  }

  function HeadOf(m: SuccMap, x: Id): Id {
    Follow(m, x, MAX_HOPS)
  }

  method ComputeHead(m: SuccMap, x: Id) returns (cur: Id)
    ensures cur == HeadOf(m, x)
  {
    cur := x;
    var i := 0;
    while i < MAX_HOPS && cur in m
      invariant 0 <= i <= MAX_HOPS
      invariant Follow(m, x, MAX_HOPS) == Follow(m, cur, MAX_HOPS - i)
      decreases MAX_HOPS - i
    {
      cur := m[cur];
      i := i + 1;
    }
  }

  // ---------------------------------------------------------------- well-formed chains

  ghost predicate Injective(m: SuccMap) {
    forall x, y | x in m && y in m && m[x] == m[y] :: x == y
  }

  /** Every link goes to a strictly higher rank. */
  ghost predicate Ranked(m: SuccMap, rank: Id -> nat) {
    forall x | x in m :: rank(x) < rank(m[x])
  }

  ghost predicate Acyclic(m: SuccMap) {
    exists rank :: Ranked(m, rank)
  }

  /** Disjoint simple chains: nobody has two predecessors and no link leads back. */
  ghost predicate Chains(m: SuccMap) {
    Injective(m) && Acyclic(m)
  }

  lemma {:induction false} FollowAdd(m: SuccMap, x: Id, i: nat, j: nat)
    ensures Follow(m, Follow(m, x, i), j) == Follow(m, x, i + j)
    decreases i
  {
    if x !in m {
      FollowEnd(m, x, j);
      FollowEnd(m, x, i + j);
    } else if i > 0 {
      FollowAdd(m, m[x], i - 1, j);
    }
  }

  lemma FollowEnd(m: SuccMap, x: Id, n: nat)
    requires x !in m
    ensures Follow(m, x, n) == x
  {}

  /** Dropping a link of lower rank does not change a walk above it. */
  lemma {:induction false} FollowAbove(m: SuccMap, rank: Id -> nat, low: Id, x: Id, n: nat)
    requires Ranked(m, rank) && rank(low) < rank(x)
    ensures Follow(m - {low}, x, n) == Follow(m, x, n)
    decreases n
  {
    if n > 0 && x in m {
      FollowAbove(m, rank, low, m[x], n - 1);
    }
  }

  /** Every walk ends, after at most as many links as the map has. */
  lemma {:induction false} ChainEnds(m: SuccMap, rank: Id -> nat, x: Id) returns (n: nat)
    requires Ranked(m, rank)
    ensures n <= |m| && Follow(m, x, n) !in m
    ensures forall k: nat | k < n :: Follow(m, x, k) in m
    decreases |m|
  {
    if x !in m {
      n := 0;
    } else {
      var m' := m - {x};
      assert |m'| == |m| - 1 by {
        assert m'.Keys == m.Keys - {x};
      }
      assert Ranked(m', rank);
      n := ChainEnds(m', rank, m[x]);
      forall k: nat | k <= n
        ensures Follow(m', m[x], k) == Follow(m, x, k + 1) && Follow(m, x, k + 1) != x
      {
        FollowAbove(m, rank, x, m[x], k);
        FollowRises(m, rank, x, k + 1);
      }
      n := n + 1;
      forall k: nat | k < n
        ensures Follow(m, x, k) in m
      {
        if k > 0 {
          assert Follow(m', m[x], k - 1) in m';
        }
      }
    }
  }

  lemma {:induction false} FollowRises(m: SuccMap, rank: Id -> nat, x: Id, n: nat)
    requires Ranked(m, rank) && x in m && n > 0
    ensures rank(x) < rank(Follow(m, x, n))
    decreases n
  {
    if n > 1 && m[x] in m {
      FollowRises(m, rank, m[x], n - 1);
    } else if n > 1 {
      FollowEnd(m, m[x], n - 1);
    }
  }

  /** The number of links from x to the end of its chain. */
  ghost predicate IsChainLength(m: SuccMap, x: Id, n: nat) {
    Follow(m, x, n) !in m && forall k: nat | k < n :: Follow(m, x, k) in m
  }

  lemma {:induction false} FollowPastEnd(m: SuccMap, x: Id, n: nat, k: nat)
    requires Follow(m, x, n) !in m && n <= k
    ensures Follow(m, x, k) == Follow(m, x, n)
  {
    FollowAdd(m, x, n, k - n);
    FollowEnd(m, Follow(m, x, n), k - n);
  }

  /** The hop guard is exact: the walk reaches the end of the chain if and only if at most
      MAX_HOPS links are left, and then it is the end. */
  lemma HeadIsEndExactly(m: SuccMap, x: Id, n: nat)
    requires IsChainLength(m, x, n)
    ensures HeadOf(m, x) !in m <==> n <= MAX_HOPS
    ensures n <= MAX_HOPS ==> HeadOf(m, x) == Follow(m, x, n)
  {
    if n <= MAX_HOPS {
      FollowPastEnd(m, x, n, MAX_HOPS);
    }
  }

  /** n successions in a row: 0 to 1, 1 to 2, and so on. */
  function Line(n: nat): SuccMap {
    if n == 0 then map[] else Line(n - 1)[n - 1 := n]
  }

  lemma {:induction false} LineLinks(n: nat)
    ensures forall i :: (i in Line(n) <==> 0 <= i < n) && (i in Line(n) ==> Line(n)[i] == i + 1)
  {
    if n > 0 {
      LineLinks(n - 1);
    }
  }

  /** A chain of 65 successions is cut short: the walk from its first ID stops one link early. */
  lemma GuardCutsLongChain()
    ensures Chains(Line(65)) && HeadOf(Line(65), 0) == 64 && 64 in Line(65)
  {
    LineLinks(65);
    assert Ranked(Line(65), i => if i < 0 then 0 else i);
    FollowCount(Line(65), 0, 64);
  }

  /** Beyond the guard one more succession splits an identity: IDs 0 and 1 have one head before it
      and two after. */
  lemma GuardSplitsIdentity()
    ensures Line(65) == Line(64)[64 := 65]
    ensures HeadOf(Line(64), 0) == HeadOf(Line(64), 1) == 64
    ensures HeadOf(Line(65), 0) == 64 && HeadOf(Line(65), 1) == 65
  {
    hide Follow;
    LineLinks(64);
    LineLinks(65);
    FollowCount(Line(64), 0, 64);
    FollowCount(Line(65), 0, 64);
    FollowCount(Line(64), 1, 63);
    FollowCount(Line(65), 1, 64);
    FollowPastEnd(Line(64), 1, 63, 64);
  }

  lemma {:induction false} FollowCount(m: SuccMap, x: Id, n: nat)
    requires forall i | x <= i < x + n :: i in m && m[i] == i + 1
    ensures Follow(m, x, n) == x + n
    decreases n
  {
    if n > 0 {
      FollowCount(m, x + 1, n - 1);
    }
  }

  // ---------------------------------------------------------------- reachability

  ghost predicate Reaches(m: SuccMap, x: Id, y: Id) {
    exists n: nat :: Follow(m, x, n) == y
  }

  /** One of the two is a (possibly distant) predecessor of the other, or they are equal. */
  ghost predicate SameLineage(m: SuccMap, x: Id, y: Id) {
    Reaches(m, x, y) || Reaches(m, y, x)
  }

  lemma ReachesTransitive(m: SuccMap, x: Id, y: Id, z: Id)
    requires Reaches(m, x, y) && Reaches(m, y, z)
    ensures Reaches(m, x, z)
  {
    var i: nat :| Follow(m, x, i) == y;
    var j: nat :| Follow(m, y, j) == z;
    FollowAdd(m, x, i, j);
  }

  /** Without shared successors, walks that meet started in one lineage. */
  lemma {:induction false} WalksMeet(m: SuccMap, x: Id, i: nat, y: Id, j: nat)
    requires Injective(m) && Follow(m, x, i) == Follow(m, y, j)
    ensures SameLineage(m, x, y)
    decreases i + j
  {
    hide Follow;
    if i == 0 || j == 0 {
      assert Follow(m, x, 0) == x && Follow(m, y, 0) == y by {
        NoLinks(m, x);
        NoLinks(m, y);
      }
      assert Reaches(m, x, Follow(m, x, i)) && Reaches(m, y, Follow(m, y, j));
    } else {
      LastLink(m, x, i);
      LastLink(m, y, j);
      if Follow(m, x, i - 1) !in m {
        WalksMeet(m, x, i - 1, y, j);
      } else if Follow(m, y, j - 1) !in m {
        WalksMeet(m, x, i, y, j - 1);
      } else {
        WalksMeet(m, x, i - 1, y, j - 1);
      }
    }
  }

  lemma NoLinks(m: SuccMap, x: Id)
    ensures Follow(m, x, 0) == x
  {}

  lemma LastLink(m: SuccMap, x: Id, n: nat)
    requires n > 0
    ensures var y := Follow(m, x, n - 1); Follow(m, x, n) == if y in m then m[y] else y
  {
    hide Follow;
    var y := Follow(m, x, n - 1);
    FollowAdd(m, x, n - 1, 1);
    if y in m {
      OneLink(m, y);
    } else {
      FollowEnd(m, y, 1);
    }
  }

  /** A new link from the end of a chain to a fresh ID: p was active, s unknown. */
  ghost predicate FreshLink(m: SuccMap, p: Id, s: Id) {
    p !in m && s !in m && p != s && forall x | x in m :: m[x] != s
  }

  lemma {:induction false} FollowNewLink(m: SuccMap, p: Id, s: Id, x: Id, n: nat)
    requires FreshLink(m, p, s)
    ensures var y := Follow(m[p := s], x, n);
      y == Follow(m, x, n) || (y == s && Follow(m, x, n) == p)
    decreases n
  {
    if n > 0 {
      if x in m {
        FollowNewLink(m, p, s, m[x], n - 1);
      } else if x == p {
        FollowEnd(m[p := s], s, n - 1);
      }
    }
  }

  /** Linking to a fresh ID changes nothing between the IDs there were before. */
  lemma ReachesUnchanged(m: SuccMap, p: Id, s: Id, x: Id, y: Id)
    requires FreshLink(m, p, s) && x != s && y != s
    ensures Reaches(m[p := s], x, y) <==> Reaches(m, x, y)
  {
    if Reaches(m[p := s], x, y) {
      var n: nat :| Follow(m[p := s], x, n) == y;
      FollowNewLink(m, p, s, x, n);
      assert Follow(m, x, n) == y;
    }
    if Reaches(m, x, y) {
      var n: nat :| Follow(m, x, n) == y;
      FollowOldLinks(m, p, s, x, y, n);
    }
  }

  lemma {:induction false} FollowOldLinks(m: SuccMap, p: Id, s: Id, x: Id, y: Id, n: nat)
    requires FreshLink(m, p, s) && Follow(m, x, n) == y
    ensures Reaches(m[p := s], x, y)
    decreases n
  {
    if n == 0 || x !in m {
      assert Follow(m[p := s], x, 0) == x;
    } else {
      FollowOldLinks(m, p, s, m[x], y, n - 1);
      var k: nat :| Follow(m[p := s], m[x], k) == y;
      assert Follow(m[p := s], x, k + 1) == y;
    }
  }

  lemma ChainsExtend(m: SuccMap, p: Id, s: Id)
    requires Chains(m) && FreshLink(m, p, s)
    ensures Chains(m[p := s])
  {
    var rank :| Ranked(m, rank);
    assert Ranked(m[p := s], x => if x == s then rank(p) + 1 else rank(x));
  }

  // ---------------------------------------------------------------- lineages

  ghost predicate IsBackMap(m: SuccMap, back: SuccMap) {
    && (forall s | s in back :: back[s] in m && m[back[s]] == s)
    && (forall p | p in m :: m[p] in back)
  }

  /** The entries of m in some iteration order. */
  ghost predicate Enumerates(entries: seq<(Id, Id)>, m: SuccMap) {
    && (forall i | 0 <= i < |entries| :: entries[i].0 in m && m[entries[i].0] == entries[i].1)
    && (forall p | p in m :: (p, m[p]) in entries)
  }

  /** The inverse map, link by link in iteration order. */
  method InvertLinks(entries: seq<(Id, Id)>, ghost m: SuccMap) returns (back: SuccMap)
    requires Enumerates(entries, m)
    ensures IsBackMap(m, back)
  {
    back := map[];
    for n := 0 to |entries|
      invariant forall s | s in back :: back[s] in m && m[back[s]] == s
      invariant forall i | 0 <= i < n :: entries[i].1 in back
    {
      var (p, s) := entries[n];
      back := back[s := p];
    }
    forall p | p in m
      ensures m[p] in back
    {
      var i :| 0 <= i < |entries| && entries[i] == (p, m[p]);
    }
  }

  /** x followed by at most n predecessors, newest first. */
  function Ancestors(back: SuccMap, x: Id, n: nat): List<Id>
    decreases n
  {
    if n == 0 || x !in back then Cons(x, Nil) else Cons(x, Ancestors(back, back[x], n - 1))
  }

  function LineageOf(back: SuccMap, x: Id): List<Id> {
    Ancestors(back, x, MAX_HOPS)
  }

  /** With injective links the inverse map does not depend on the iteration order. */
  lemma BackMapUnique(m: SuccMap, back: SuccMap, back': SuccMap)
    requires Injective(m) && IsBackMap(m, back) && IsBackMap(m, back')
    ensures back == back'
  {
    forall s | s in back
      ensures s in back' && back[s] == back'[s]
    {
      BackMapAgrees(m, back, back', s);
    }
    forall s | s in back'
      ensures s in back
    {
      BackMapAgrees(m, back', back, s);
    }
  }

  lemma {:induction false} BackMapAgrees(m: SuccMap, back: SuccMap, back': SuccMap, s: Id)
    requires Injective(m) && IsBackMap(m, back) && IsBackMap(m, back') && s in back
    ensures s in back' && back[s] == back'[s]
  {
    var p := back[s];
    assert p in m && m[p] == s;
    assert m[p] in back';
    var q := back'[s];
    assert q in m && m[q] == s;
  }

  lemma {:induction false} BackStepsAreForwardSteps(m: SuccMap, back: SuccMap, x: Id, n: nat)
    requires IsBackMap(m, back)
    ensures Reaches(m, Follow(back, x, n), x)
    decreases n
  {
    if n == 0 || x !in back {
      assert Follow(m, x, 0) == x;
    } else {
      var p := back[x];
      assert p in m && m[p] == x;
      BackStepsAreForwardSteps(m, back, p, n - 1);
      var k: nat :| Follow(m, Follow(back, p, n - 1), k) == p;
      FollowAdd(m, Follow(back, p, n - 1), k, 1);
      assert Follow(m, p, 1) == x by {
        assert Follow(m, x, 0) == x;
      }
    }
  }

  lemma BackMapMirrors(m: SuccMap, back: SuccMap)
    requires Injective(m) && IsBackMap(m, back)
    ensures IsBackMap(back, m) && Injective(back)
  {
    forall p | p in m
      ensures m[p] in back && back[m[p]] == p
    {
      var s := m[p];
      assert s in back;
      var q := back[s];
      assert q in m && m[q] == s;
    }
  }

  /** y is found by following predecessors from x exactly when x is found by following successors from y. */
  lemma LineageMirrors(m: SuccMap, back: SuccMap, x: Id, y: Id)
    requires Injective(m) && IsBackMap(m, back)
    ensures Reaches(back, x, y) <==> Reaches(m, y, x)
  {
    if Reaches(back, x, y) {
      var n: nat :| Follow(back, x, n) == y;
      BackStepsAreForwardSteps(m, back, x, n);
    }
    if Reaches(m, y, x) {
      var n: nat :| Follow(m, y, n) == x;
      BackMapMirrors(m, back);
      BackStepsAreForwardSteps(back, m, y, n);
    }
  }

  // ---------------------------------------------------------------- chains within the hop guard

  /** No walk is cut short by the hop guard. */
  ghost predicate Shallow(m: SuccMap) {
    forall x :: HeadOf(m, x) !in m
  }

  /** k real steps back, then k steps forward, lead home. */
  lemma {:induction false} BackThenForward(m: SuccMap, back: SuccMap, x: Id, k: nat)
    requires IsBackMap(m, back) && forall j: nat | j < k :: Follow(back, x, j) in back
    ensures Follow(m, Follow(back, x, k), k) == x
    decreases k
  {
    if k > 0 {
      BackThenForward(m, back, x, k - 1);
      FollowAdd(back, x, k - 1, 1);
      var y := Follow(back, x, k - 1);
      assert y in back && Follow(back, y, 1) == back[y] by {
        assert Follow(back, back[y], 0) == back[y];
      }
      assert back[y] in m && m[back[y]] == y;
    }
  }

  /** A backward walk that is cut short shows an ID whose forward walk misses the end, too. */
  lemma DeepBackwardIsDeepForward(m: SuccMap, back: SuccMap, x: Id) returns (y: Id)
    requires IsBackMap(m, back) && HeadOf(back, x) in back
    ensures x in back && HeadOf(m, y) == back[x] && Reaches(m, y, x)
  {
    forall j: nat | j <= MAX_HOPS
      ensures Follow(back, x, j) in back
    {
      if Follow(back, x, j) !in back {
        FollowPastEnd(back, x, j, MAX_HOPS);
      }
    }
    assert Follow(back, x, 0) == x;
    var x1 := back[x];
    forall j: nat | j < MAX_HOPS
      ensures Follow(back, x1, j) in back
    {
      assert Follow(back, x, j + 1) == Follow(back, x1, j);
    }
    y := Follow(back, x1, MAX_HOPS);
    BackThenForward(m, back, x1, MAX_HOPS);
    assert x1 in m && m[x1] == x;
    FollowAdd(m, y, MAX_HOPS, 1);
    OneLink(m, x1);
  }

  /** The lineage of the last ID of a chain that is one identity is complete. */
  lemma BackWalkWithinIdentity(m: SuccMap, back: SuccMap, s: Id)
    requires IsBackMap(m, back) && OneIdentity(m, s) && s !in m
    ensures HeadOf(back, s) !in back
  {
    if HeadOf(back, s) in back {
      var y := DeepBackwardIsDeepForward(m, back, s);
    }
  }

  /** The hop guard alone decides whether a chain is one identity: all IDs of every chain have one
      head if and only if no walk is cut short. */
  lemma {:induction false} OneHeadExactlyWhenShallow(m: SuccMap)
    requires Chains(m)
    ensures (forall x, y | Reaches(m, x, y) :: HeadOf(m, x) == HeadOf(m, y)) <==> Shallow(m)
  {
    hide Follow;
    if Shallow(m) {
      forall x, y | Reaches(m, x, y)
        ensures HeadOf(m, x) == HeadOf(m, y)
      {
        SameEnd(m, x, y);
      }
    } else {
      var x :| HeadOf(m, x) in m;
      SecondIdGoesFurther(m, x);
    }
  }

  lemma SameEnd(m: SuccMap, x: Id, y: Id)
    requires Shallow(m) && Reaches(m, x, y)
    ensures HeadOf(m, x) == HeadOf(m, y)
  {
    hide Follow;
    var n: nat :| Follow(m, x, n) == y;
    assert HeadOf(m, x) !in m;
    FollowAdd(m, x, n, MAX_HOPS);
    FollowPastEnd(m, x, MAX_HOPS, n + MAX_HOPS);
  }

  /** A walk that is cut short stops at an ID which the walk from the next ID passes. */
  lemma SecondIdGoesFurther(m: SuccMap, x: Id)
    requires Acyclic(m) && HeadOf(m, x) in m
    ensures x in m && Reaches(m, x, m[x]) && HeadOf(m, m[x]) == m[HeadOf(m, x)] != HeadOf(m, x)
  {
    if x !in m {
      FollowEnd(m, x, MAX_HOPS);
    }
    var rank :| Ranked(m, rank);
    OneLink(m, x);
    OneLink(m, HeadOf(m, x));
    FollowAdd(m, x, 1, MAX_HOPS);
    FollowAdd(m, x, MAX_HOPS, 1);
  }

  lemma OneLink(m: SuccMap, x: Id)
    requires x in m
    ensures Follow(m, x, 1) == m[x]
  {
    assert Follow(m, m[x], 0) == m[x];
  }

  /** k real steps back take k links. */
  lemma BackWithinLinks(m: SuccMap, rank: Id -> nat, back: SuccMap, x: Id, k: nat)
    requires Ranked(m, rank) && IsBackMap(m, back) && forall j: nat | j < k :: Follow(back, x, j) in back
    ensures k <= |m|
  {
    hide Follow;
    var n := ChainEnds(m, rank, Follow(back, x, k));
    if n < k {
      var z := Follow(back, x, k - n - 1);
      assert z in back && back[z] in m;
      OneLink(back, z);
      FollowAdd(back, x, k - n - 1, 1);
      forall j: nat | j < n
        ensures Follow(back, back[z], j) in back
      {
        FollowAdd(back, x, k - n, j);
      }
      FollowAdd(back, x, k - n, n);
      BackThenForward(m, back, back[z], n);
    }
  }

  /** Following predecessors always ends, within as many links as there are successions. */
  lemma BackWalksEnd(m: SuccMap, back: SuccMap, x: Id) returns (n: nat)
    requires Chains(m) && IsBackMap(m, back)
    ensures n <= |m| && Follow(back, x, n) !in back
    ensures forall k: nat | k < n :: Follow(back, x, k) in back
  {
    var rank :| Ranked(m, rank);
    n := 0;
    while Follow(back, x, n) in back
      invariant forall k: nat | k < n :: Follow(back, x, k) in back
      invariant n <= |m|
      decreases |m| - n
    {
      forall k: nat | k < n + 1
        ensures Follow(back, x, k) in back
      {}
      BackWithinLinks(m, rank, back, x, n + 1);
      n := n + 1;
    }
  }


  /** When no forward walk is cut short, no backward walk is either. */
  lemma BackWalksWithinGuard(m: SuccMap, back: SuccMap, x: Id)
    requires IsBackMap(m, back) && Shallow(m)
    ensures HeadOf(back, x) !in back
  {
    if HeadOf(back, x) in back {
      var y := DeepBackwardIsDeepForward(m, back, x);
    }
  }

  /** All IDs of the chain that ends in s are counted under s. */
  ghost predicate OneIdentity(m: SuccMap, s: Id) {
    forall x | Reaches(m, x, s) :: HeadOf(m, x) == s
  }

  /** Under a new link from p to a fresh s, whoever ended at p now ends at s, and nobody else moves. */
  lemma HeadsMove(m: SuccMap, p: Id, s: Id, x: Id)
    requires FreshLink(m, p, s) && OneIdentity(m[p := s], s) && x != s
    ensures HeadOf(m[p := s], x) == if HeadOf(m, x) == p then s else HeadOf(m, x)
    ensures HeadOf(m, x) != s
  {
    FollowNewLink(m, p, s, x, MAX_HOPS);
    FollowStaysKnown(m, s, x, MAX_HOPS);
    if HeadOf(m, x) == p {
      FollowOldLinks(m, p, s, x, p, MAX_HOPS);
      OneLink(m[p := s], p);
      assert Reaches(m[p := s], p, s);
      ReachesTransitive(m[p := s], x, p, s);
    }
  }

  /** A link elsewhere does not decide whether the chain that ends in x is one identity. */
  lemma IdentityBefore(m: SuccMap, p: Id, s: Id, x: Id)
    requires FreshLink(m, p, s) && OneIdentity(m[p := s], x) && x != s
    ensures OneIdentity(m, x)
  {
    hide Follow;
    forall y | Reaches(m, y, x)
      ensures HeadOf(m, y) == x
    {
      var n: nat :| Follow(m, y, n) == x;
      FollowOldLinks(m, p, s, y, x, n);
      FollowNewLink(m, p, s, y, MAX_HOPS);
    }
  }

  /** What to check beforehand: a chain is one identity if and only if the lineage of its last ID is
      not cut short. */
  lemma OneIdentityExactly(m: SuccMap, back: SuccMap, s: Id)
    requires Chains(m) && IsBackMap(m, back) && s !in m
    ensures OneIdentity(m, s) <==> HeadOf(back, s) !in back
  {
    hide Follow;
    if HeadOf(back, s) !in back {
      forall x | Reaches(m, x, s)
        ensures HeadOf(m, x) == s
      {
        LineageMirrors(m, back, s, x);
        AncestorHead(m, back, s, x);
      }
    } else if OneIdentity(m, s) {
      BackWalkWithinIdentity(m, back, s);
    }
  }

  lemma AncestorHead(m: SuccMap, back: SuccMap, s: Id, x: Id)
    requires Chains(m) && IsBackMap(m, back) && s !in m && HeadOf(back, s) !in back && Reaches(back, s, x)
    ensures HeadOf(m, x) == s
  {
    hide Follow;
    var n := BackWalksEnd(m, back, s);
    assert MAX_HOPS < n ==> Follow(back, s, MAX_HOPS) in back;
    var k: nat :| Follow(back, s, k) == x;
    var j := if k <= n then k else n;
    if k > n {
      FollowPastEnd(back, s, n, k);
    }
    BackThenForward(m, back, s, j);
    FollowPastEnd(m, x, j, MAX_HOPS);
  }

  lemma {:induction false} FollowStaysKnown(m: SuccMap, s: Id, x: Id, n: nat)
    requires x != s && forall y | y in m :: m[y] != s
    ensures Follow(m, x, n) != s
    decreases n
  {
    if n > 0 && x in m {
      FollowStaysKnown(m, s, m[x], n - 1);
    }
  }

  lemma {:induction false} AncestorsUnaffected(back: SuccMap, p: Id, s: Id, x: Id, n: nat)
    requires x != s && forall y | y in back :: back[y] != s
    ensures Ancestors(back[s := p], x, n) == Ancestors(back, x, n) && Follow(back[s := p], x, n) == Follow(back, x, n)
    decreases n
  {
    if n > 0 && x in back {
      AncestorsUnaffected(back, p, s, back[x], n - 1);
    }
  }

  lemma {:induction false} AncestorsEnd(back: SuccMap, x: Id, n: nat)
    requires Follow(back, x, n) !in back
    ensures Ancestors(back, x, n + 1) == Ancestors(back, x, n)
    decreases n
  {
    if n > 0 && x in back {
      AncestorsEnd(back, back[x], n - 1);
    }
  }

  /** The lineage of a new successor is itself followed by the lineage of its predecessor. */
  lemma LineageExtends(m: SuccMap, back: SuccMap, p: Id, s: Id)
    requires IsBackMap(m, back) && FreshLink(m, p, s) && OneIdentity(m[p := s], s)
    ensures IsBackMap(m[p := s], back[s := p])
    ensures LineageOf(back[s := p], s) == Cons(s, LineageOf(back, p))
  {
    assert IsBackMap(m[p := s], back[s := p]) by {
      BackMapExtends(m, back, p, s);
    }
    BackWalkWithinIdentity(m[p := s], back[s := p], s);
    forall y | y in back
      ensures back[y] != s
    {
      assert back[y] in m;
    }
    AncestorsUnaffected(back, p, s, p, MAX_HOPS - 1);
    AncestorsEnd(back, p, MAX_HOPS - 1);
  }

  lemma BackMapExtends(m: SuccMap, back: SuccMap, p: Id, s: Id)
    requires IsBackMap(m, back) && FreshLink(m, p, s)
    ensures IsBackMap(m[p := s], back[s := p])
  {
    forall y | y in back
      ensures y != s && back[y] in m && back[y] != p
    {
      var q := back[y];
      assert q in m && m[q] == y;
    }
  }
}
