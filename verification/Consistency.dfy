/** The consistency verifier of the Python SDK. */
module Consistency {
  // The verifier is a loop that shifts the bit patterns of the last leaf of the old tree (`fn`)
  // and of the new tree (`sn`), as in RFC 9162 section 2.1.4.2.  Three moves relate it to the
  // recursive proof of RFC 6962 section 2.1.2: the recursive verifier `Walk` takes a list of
  // steps, the loop takes a list of steps, and the two lists coincide because halving the leaf
  // count merges pairs of leaves.

  import opened Options
  import opened Merkle

  /** The side of the running hash on which the next proof element is placed. */
  datatype Side = Left | Right

  /** The two running hashes: of the old tree and of the new tree. */
  datatype Heads = Heads(older: Bytes, newer: Bytes)

  function Step(sha: Hash, side: Side, h: Heads, p: Bytes): Heads {
    match side
    case Left => Heads(NodeHash(sha, p, h.older), NodeHash(sha, p, h.newer))
    case Right => Heads(h.older, NodeHash(sha, h.newer, p))
  }

  /** Consumes one proof element per step, first step first. */
  function Apply(sha: Hash, steps: seq<Side>, proof: seq<Bytes>, h: Heads): Option<Heads>
    decreases |steps|
  {
    if steps == [] then (if proof == [] then Some(h) else None)
    else if proof == [] then None
    else Apply(sha, steps[1..], proof[1..], Step(sha, steps[0], h, proof[0]))
  }

  lemma {:induction false} ApplyLast(sha: Hash, steps: seq<Side>, side: Side, proof: seq<Bytes>, h: Heads)
    ensures Apply(sha, steps + [side], proof, h) ==
      if proof == [] then None
      else
        match Apply(sha, steps, proof[..|proof| - 1], h)
        case None => None
        case Some(g) => Some(Step(sha, side, g, proof[|proof| - 1]))
    decreases |steps|
  {
    hide Step;
    if steps == [] {
      assert steps + [side] == [side];
      assert [side][1..] == [];
    } else if proof != [] {
      assert (steps + [side])[1..] == steps[1..] + [side];
      ApplyLast(sha, steps[1..], side, proof[1..], Step(sha, steps[0], h, proof[0]));
      if |proof| > 1 {
        assert proof[..|proof| - 1][1..] == proof[1..][..|proof| - 2];
      }
    }
  }

  // ---------------------------------------------------------------- the recursive verifier

  /** The verifier that mirrors SUBPROOF top-down: the last proof element is the sibling below
      the root.  `complete` says that the running hash starts from the claimed old root. */
  function Walk(sha: Hash, m: nat, n: nat, complete: bool, oldRoot: Bytes, proof: seq<Bytes>): Option<Heads>
    requires 0 < m <= n
    decreases n
  {
    if m == n then
      if complete then (if proof == [] then Some(Heads(oldRoot, oldRoot)) else None)
      else (if |proof| == 1 then Some(Heads(proof[0], proof[0])) else None)
    else if proof == [] then None
    else
      var k := SplitPoint(n);
      var rest, p := proof[..|proof| - 1], proof[|proof| - 1];
      var side := if m <= k then Right else Left;
      var inner := if m <= k then Walk(sha, m, k, complete, oldRoot, rest)
                   else Walk(sha, m - k, n - k, false, oldRoot, rest);
      match inner
      case None => None
      case Some(h) => Some(Step(sha, side, h, p))
  }

  /** The steps of the recursive verifier, deepest first. */
  function ProofSteps(m: nat, n: nat): seq<Side>
    requires 0 < m <= n
    decreases n
  {
    if m == n then []
    else
      var k := SplitPoint(n);
      if m <= k then ProofSteps(m, k) + [Right] else ProofSteps(m - k, n - k) + [Left]
  }

  predicate OnlyRight(steps: seq<Side>) {
    forall i | 0 <= i < |steps| :: steps[i] == Right
  }

  lemma ProofStepsStep(m: nat, n: nat)
    requires 0 < m <= n
    ensures m == n ==> ProofSteps(m, n) == []
    ensures m < n ==>
      var k := SplitPoint(n);
      ProofSteps(m, n) == if m <= k then ProofSteps(m, k) + [Right] else ProofSteps(m - k, n - k) + [Left]
  {}

  /** Where the running hash starts, and what is left of the proof. */
  function Start(sha: Hash, fromOldRoot: bool, steps: seq<Side>, oldRoot: Bytes, proof: seq<Bytes>): Option<Heads> {
    if fromOldRoot then Apply(sha, steps, proof, Heads(oldRoot, oldRoot))
    else if proof == [] then None
    else Apply(sha, steps, proof[1..], Heads(proof[0], proof[0]))
  }

  lemma StartLast(sha: Hash, fromOldRoot: bool, steps: seq<Side>, side: Side, oldRoot: Bytes, proof: seq<Bytes>)
    requires proof != []
    ensures Start(sha, fromOldRoot, steps + [side], oldRoot, proof) ==
      match Start(sha, fromOldRoot, steps, oldRoot, proof[..|proof| - 1])
      case None => None
      case Some(g) => Some(Step(sha, side, g, proof[|proof| - 1]))
  {
    hide Step;
    if fromOldRoot {
      ApplyLast(sha, steps, side, proof, Heads(oldRoot, oldRoot));
    } else {
      ApplyLast(sha, steps, side, proof[1..], Heads(proof[0], proof[0]));
      if |proof| > 1 {
        assert proof[1..][..|proof| - 2] == proof[..|proof| - 1][1..];
      }
    }
  }

  lemma StartNeedsProof(sha: Hash, fromOldRoot: bool, steps: seq<Side>, side: Side, oldRoot: Bytes)
    ensures Start(sha, fromOldRoot, steps + [side], oldRoot, []).None?
  {}

  lemma StartBase(sha: Hash, fromOldRoot: bool, oldRoot: Bytes, proof: seq<Bytes>)
    ensures Start(sha, fromOldRoot, [], oldRoot, proof) ==
      if fromOldRoot then (if proof == [] then Some(Heads(oldRoot, oldRoot)) else None)
      else (if |proof| == 1 then Some(Heads(proof[0], proof[0])) else None)
  {}

  lemma {:induction false} WalkIsStart(sha: Hash, m: nat, n: nat, complete: bool, oldRoot: Bytes, proof: seq<Bytes>)
    requires 0 < m <= n
    ensures Walk(sha, m, n, complete, oldRoot, proof)
            == Start(sha, complete && OnlyRight(ProofSteps(m, n)), ProofSteps(m, n), oldRoot, proof)
    decreases n
  {
    hide Step, Start, SplitPoint, ProofSteps;
    ProofStepsStep(m, n);
    if m == n {
      StartBase(sha, complete, oldRoot, proof);
    } else {
      var k := SplitPoint(n);
      var m', n', c' := if m <= k then m else m - k, if m <= k then k else n - k, complete && m <= k;
      var side := if m <= k then Right else Left;
      var steps := ProofSteps(m', n');
      assert ProofSteps(m, n) == steps + [side];
      assert (steps + [side])[..|steps|] == steps && (steps + [side])[|steps|] == side;
      var seeded := c' && OnlyRight(steps);
      assert seeded == (complete && OnlyRight(steps + [side]));
      if proof == [] {
        StartNeedsProof(sha, seeded, steps, side, oldRoot);
      } else {
        StartLast(sha, seeded, steps, side, oldRoot, proof);
        WalkIsStart(sha, m', n', c', oldRoot, proof[..|proof| - 1]);
      }
    }
  }

  // ---------------------------------------------------------------- the shifting loop

  /** The steps of the audit path of leaf i, deepest first. */
  function PathSteps(i: nat, n: nat): seq<Side>
    requires i < n
    decreases n
  {
    if n == 1 then []
    else
      var k := SplitPoint(n);
      if i < k then PathSteps(i, k) + [Right] else PathSteps(i - k, n - k) + [Left]
  }

  lemma PathStepsStep(i: nat, n: nat)
    requires i < n
    ensures n == 1 ==> PathSteps(i, n) == []
    ensures n > 1 ==>
      var k := SplitPoint(n);
      PathSteps(i, n) == if i < k then PathSteps(i, k) + [Right] else PathSteps(i - k, n - k) + [Left]
  {}

  lemma SplitPointHalves(n: nat)
    requires n > 2
    ensures SplitPoint(n) == 2 * SplitPoint((n + 1) / 2)
  {}

  /** What the lowest level of the tree contributes to the path of leaf i. */
  function LowestStep(i: nat, n: nat): seq<Side>
    requires i < n
  {
    if i % 2 == 1 then [Left] else if i < n - 1 then [Right] else []
  }

  /** Merging pairs of leaves removes the lowest level and nothing else. */
  lemma {:induction false} PathStepsHalve(i: nat, n: nat)
    requires i < n && n > 1
    ensures PathSteps(i, n) == LowestStep(i, n) + PathSteps(i / 2, (n + 1) / 2)
    decreases n
  {
    hide SplitPoint, PathSteps;
    PathStepsStep(i, n);
    PathStepsStep(i / 2, (n + 1) / 2);
    var k := SplitPoint(n);
    if n == 2 {
      PathStepsStep(0, 1);
    } else {
      SplitPointHalves(n);
      if i < k {
        PathStepsHalve(i, k);
        assert (k + 1) / 2 == k / 2;
      } else {
        assert (i - k) / 2 == i / 2 - k / 2 && (n - k + 1) / 2 == (n + 1) / 2 - k / 2;
        assert (i - k) % 2 == i % 2;
        if n - k > 1 {
          PathStepsHalve(i - k, n - k);
        } else {
          PathStepsStep(0, 1);
        }
      }
    }
  }

  lemma {:induction false} ProofStepsHalve(m: nat, n: nat)
    requires 0 < m <= n && m % 2 == 0
    ensures ProofSteps(m, n) == ProofSteps(m / 2, (n + 1) / 2)
    decreases n
  {
    hide SplitPoint, ProofSteps;
    ProofStepsStep(m, n);
    ProofStepsStep(m / 2, (n + 1) / 2);
    if m < n {
      var k := SplitPoint(n);
      SplitPointHalves(n);
      if m <= k {
        ProofStepsHalve(m, k);
        assert (k + 1) / 2 == k / 2;
      } else {
        ProofStepsHalve(m - k, n - k);
        assert (m - k) / 2 == m / 2 - k / 2 && (n - k + 1) / 2 == (n + 1) / 2 - k / 2;
      }
    }
  }

  lemma OddBeyondEven(m: nat, half: nat)
    requires m % 2 == 1 && 2 * half < m
    ensures (m - 2 * half) % 2 == 1
  {}

  /** With an odd old size, the last old leaf is a subtree of its own. */
  lemma {:induction false} ProofStepsOdd(m: nat, n: nat)
    requires 0 < m < n && m % 2 == 1
    ensures ProofSteps(m, n) == PathSteps(m - 1, n)
    decreases n
  {
    hide SplitPoint, ProofSteps, PathSteps;
    ProofStepsStep(m, n);
    PathStepsStep(m - 1, n);
    var k := SplitPoint(n);
    if n == 2 {
      ProofStepsStep(1, 1);
      PathStepsStep(0, 1);
    } else {
      SplitPointHalves(n);
      if m <= k {
        ProofStepsOdd(m, k);
      } else {
        OddBeyondEven(m, SplitPoint((n + 1) / 2));
        ProofStepsOdd(m - k, n - k);
      }
    }
  }

  lemma {:induction false} PathOnlyRight(i: nat, n: nat)
    requires i < n
    ensures OnlyRight(PathSteps(i, n)) <==> i == 0
    decreases n
  {
    if n > 1 {
      var k := SplitPoint(n);
      var inner := if i < k then PathSteps(i, k) else PathSteps(i - k, n - k);
      var side := if i < k then Right else Left;
      assert PathSteps(i, n) == inner + [side];
      assert (inner + [side])[..|inner|] == inner && (inner + [side])[|inner|] == side;
      if i < k {
        PathOnlyRight(i, k);
      }
    }
  }

  /** A path whose leaf is last in an odd tree has no sibling on the lowest level. */
  lemma {:induction false} LoneLeafShift(fn: nat)
    requires fn % 2 == 0 && fn != 0
    ensures PathSteps(fn, fn + 1) == PathSteps(fn / 2, fn / 2 + 1)
  {
    hide SplitPoint, PathSteps;
    PathStepsHalve(fn, fn + 1);
  }

  /** The first shifting loop: strips the complete subtrees that end the old tree. */
  method StripCompleteSubtrees(m: nat, n: nat) returns (fn: nat, sn: nat)
    requires 0 < m < n
    ensures fn < sn && fn % 2 == 0
    ensures ProofSteps(m, n) == PathSteps(fn, sn + 1)
    ensures fn == 0 <==> OnlyRight(ProofSteps(m, n))
  {
    hide SplitPoint, ProofSteps, PathSteps;
    fn, sn := m - 1, n - 1;
    while fn % 2 == 1
      invariant fn < sn
      invariant ProofSteps(m, n) == ProofSteps(fn + 1, sn + 1)
      decreases fn
    {
      ProofStepsHalve(fn + 1, sn + 1);
      fn, sn := fn / 2, sn / 2;
    }
    ProofStepsOdd(fn + 1, sn + 1);
    PathOnlyRight(fn, sn + 1);
  }

  /** The innermost loop: while the old and the new frontier are the same node and that node is
      a left child without a sibling, there is nothing to hash. */
  method SkipLoneLevels(fn0: nat, sn0: nat) returns (fn: nat, sn: nat)
    requires fn0 <= sn0 && 0 < sn0 && (fn0 % 2 == 1 || fn0 == sn0)
    ensures fn <= sn <= sn0 && 0 < sn && fn % 2 == 1
    ensures PathSteps(fn0, sn0 + 1) == [Left] + PathSteps(fn / 2, sn / 2 + 1)
  {
    hide SplitPoint, PathSteps;
    fn, sn := fn0, sn0;
    while fn % 2 == 0 && fn != 0
      invariant fn <= sn <= sn0 && 0 < sn
      invariant fn % 2 == 1 || fn == sn
      invariant PathSteps(fn, sn + 1) == PathSteps(fn0, sn0 + 1)
      decreases fn
    {
      LoneLeafShift(fn);
      fn, sn := fn / 2, sn / 2;
    }
    PathStepsHalve(fn, sn + 1);
  }

  /** The main loop: from the frontier node (fn, sn) to the roots, one proof element a level. */
  method ClimbFrontier(sha: Hash, fn0: nat, sn0: nat, seed: Bytes, proof: seq<Bytes>,
      idx0: nat) returns (heads: Option<Heads>)
    requires fn0 <= sn0 && idx0 <= |proof|
    ensures heads == Apply(sha, PathSteps(fn0, sn0 + 1), proof[idx0..], Heads(seed, seed))
  {
    hide SplitPoint, PathSteps, Apply;
    var fn, sn, idx := fn0, sn0, idx0;
    var oldFr, newFr := seed, seed;
    ghost var outcome := Apply(sha, PathSteps(fn, sn + 1), proof[idx..], Heads(oldFr, newFr));
    while sn > 0
      invariant fn <= sn && idx <= |proof|
      invariant outcome == Apply(sha, PathSteps(fn, sn + 1), proof[idx..], Heads(oldFr, newFr))
      decreases sn
    {
      if idx >= |proof| {
        PathStepsNonEmpty(fn, sn);
        ApplyNeedsProof(sha, PathSteps(fn, sn + 1), proof[idx..], Heads(oldFr, newFr));
        return None;
      }
      var p := proof[idx];
      if fn % 2 == 1 || fn == sn {
        fn, sn := SkipLoneLevels(fn, sn);
        ApplyFirst(sha, Left, PathSteps(fn / 2, sn / 2 + 1), proof, idx, Heads(oldFr, newFr));
        oldFr, newFr := NodeHash(sha, p, oldFr), NodeHash(sha, p, newFr);
      } else {
        PathStepsHalve(fn, sn + 1);
        ApplyFirst(sha, Right, PathSteps(fn / 2, sn / 2 + 1), proof, idx, Heads(oldFr, newFr));
        newFr := NodeHash(sha, newFr, p);
      }
      idx := idx + 1;
      fn, sn := fn / 2, sn / 2;
    }
    PathStepsStep(0, 1);
    ApplyBase(sha, proof[idx..], Heads(oldFr, newFr));
    return if idx == |proof| then Some(Heads(oldFr, newFr)) else None;
  }

  method VerifyConsistency(sha: Hash, m: int, oldRoot: Bytes, n: int, newRoot: Bytes,
      proof: seq<Bytes>) returns (ok: bool)
    ensures ok == Consistent(sha, m, oldRoot, n, newRoot, proof)
  {
    if m < 0 || n < 0 || m > n {
      return false;
    }
    if m == n {
      return |proof| == 0 && oldRoot == newRoot;
    }
    if m == 0 {
      return true;
    }
    if |proof| == 0 {
      WalkEmpty(sha, m, n, true, oldRoot);
      return false;
    }
    hide SplitPoint, ProofSteps, PathSteps, Apply, Start, Walk, OnlyRight;
    var fn, sn := StripCompleteSubtrees(m, n);
    WalkIsStart(sha, m, n, true, oldRoot, proof);
    StartIsApply(sha, fn == 0, ProofSteps(m, n), oldRoot, proof);
    var idx, seed := 0, oldRoot;
    if fn > 0 {
      seed := proof[idx];
      idx := idx + 1;
    }
    var heads := ClimbFrontier(sha, fn, sn, seed, proof, idx);
    return heads.Some? && heads.value.older == oldRoot && heads.value.newer == newRoot;
  }

  lemma {:induction false} PathStepsNonEmpty(fn: nat, sn: nat)
    requires fn <= sn && 0 < sn
    ensures PathSteps(fn, sn + 1) != []
  {}

  lemma ApplyFirst(sha: Hash, side: Side, steps: seq<Side>, proof: seq<Bytes>, idx: nat, h: Heads)
    requires idx < |proof|
    ensures Apply(sha, [side] + steps, proof[idx..], h)
        == Apply(sha, steps, proof[idx + 1..], Step(sha, side, h, proof[idx]))
  {
    assert ([side] + steps)[1..] == steps;
    assert proof[idx..][1..] == proof[idx + 1..];
  }

  lemma ApplyNeedsProof(sha: Hash, steps: seq<Side>, proof: seq<Bytes>, h: Heads)
    requires steps != [] && proof == []
    ensures Apply(sha, steps, proof, h).None?
  {}

  lemma ApplyBase(sha: Hash, proof: seq<Bytes>, h: Heads)
    ensures Apply(sha, [], proof, h) == if proof == [] then Some(h) else None
  {}

  lemma StartIsApply(sha: Hash, fromOldRoot: bool, steps: seq<Side>, oldRoot: Bytes, proof: seq<Bytes>)
    requires proof != []
    ensures Start(sha, fromOldRoot, steps, oldRoot, proof) ==
      if fromOldRoot then Apply(sha, steps, proof[0..], Heads(oldRoot, oldRoot))
      else Apply(sha, steps, proof[1..], Heads(proof[0], proof[0]))
  {
    assert proof[0..] == proof;
  }

  // ---------------------------------------------------------------- what acceptance means

  function Consistent(sha: Hash, m: int, oldRoot: Bytes, n: int, newRoot: Bytes, proof: seq<Bytes>): bool {
    if m < 0 || n < 0 || m > n then false
    else if m == n then proof == [] && oldRoot == newRoot
    else if m == 0 then true
    else Walk(sha, m, n, true, oldRoot, proof) == Some(Heads(oldRoot, newRoot))
  }

  /** Every input hashed for the new tree on the way up. */
  function WalkInputs(sha: Hash, m: nat, n: nat, complete: bool, oldRoot: Bytes, proof: seq<Bytes>): set<Bytes>
    requires 0 < m <= n
    decreases n
  {
    if m == n || proof == [] then {}
    else
      var k := SplitPoint(n);
      var rest, p := proof[..|proof| - 1], proof[|proof| - 1];
      if m <= k then
        match Walk(sha, m, k, complete, oldRoot, rest)
        case None => {}
        case Some(h) => {NodeInput(h.newer, p)} + WalkInputs(sha, m, k, complete, oldRoot, rest)
      else
        match Walk(sha, m - k, n - k, false, oldRoot, rest)
        case None => {}
        case Some(h) => {NodeInput(p, h.newer)} + WalkInputs(sha, m - k, n - k, false, oldRoot, rest)
  }

  /** The two digests a verification can start from have digest size. */
  predicate SeedsAreDigests(oldRoot: Bytes, proof: seq<Bytes>) {
    |oldRoot| == DIGEST_SIZE && (proof != [] ==> |proof[0]| == DIGEST_SIZE)
  }

  lemma {:induction false} WalkSize(sha: Hash, m: nat, n: nat, complete: bool, oldRoot: Bytes, proof: seq<Bytes>)
    requires IsHash(sha) && 0 < m <= n && SeedsAreDigests(oldRoot, proof)
    requires Walk(sha, m, n, complete, oldRoot, proof).Some?
    ensures |Walk(sha, m, n, complete, oldRoot, proof).value.newer| == DIGEST_SIZE
    decreases n
  {
    if m < n {
      var k := SplitPoint(n);
      var rest, p := proof[..|proof| - 1], proof[|proof| - 1];
      var h := (if m <= k then Walk(sha, m, k, complete, oldRoot, rest)
                else Walk(sha, m - k, n - k, false, oldRoot, rest)).value;
      assert |sha(NodeInput(h.newer, p))| == DIGEST_SIZE && |sha(NodeInput(p, h.newer))| == DIGEST_SIZE;
    }
  }

  /** An old tree that reaches past the split point is split there too. */
  lemma {:induction false} RootOfPrefix(sha: Hash, leaves: seq<Bytes>, m: nat)
    requires |leaves| > 1 && SplitPoint(|leaves|) < m <= |leaves|
    ensures var k := SplitPoint(|leaves|);
      Root(sha, leaves[..m]) == NodeHash(sha, Root(sha, leaves[..k]), Root(sha, leaves[k..][..m - k]))
  {
    hide Root, TreeInputs, NodeHash, SplitPoint;
    var k := SplitPoint(|leaves|);
    SplitPointIsPowerOfTwo(|leaves|);
    SplitPointUnique(m, k);
    RootStep(sha, leaves[..m]);
    assert leaves[..m][..k] == leaves[..k] && leaves[..m][k..] == leaves[k..][..m - k];
  }

  lemma SubProofStep(sha: Hash, leaves: seq<Bytes>, m: nat, complete: bool)
    requires 0 < m <= |leaves|
    ensures m == |leaves| ==> SubProof(sha, leaves, m, complete) == if complete then [] else [Root(sha, leaves)]
    ensures m < |leaves| ==>
      var k := SplitPoint(|leaves|);
      SubProof(sha, leaves, m, complete) ==
        if m <= k then SubProof(sha, leaves[..k], m, complete) + [Root(sha, leaves[k..])]
        else SubProof(sha, leaves[k..], m - k, false) + [Root(sha, leaves[..k])]
  {}

  lemma WalkStep(sha: Hash, m: nat, n: nat, complete: bool, oldRoot: Bytes, proof: seq<Bytes>, p: Bytes)
    requires 0 < m < n
    ensures var k := SplitPoint(n);
      Walk(sha, m, n, complete, oldRoot, proof + [p]) ==
      var inner := if m <= k then Walk(sha, m, k, complete, oldRoot, proof)
                   else Walk(sha, m - k, n - k, false, oldRoot, proof);
      match inner
      case None => None
      case Some(h) => Some(Step(sha, if m <= k then Right else Left, h, p))
  {
    assert (proof + [p])[..|proof|] == proof;
  }

  lemma WalkBase(sha: Hash, n: nat, complete: bool, oldRoot: Bytes, proof: seq<Bytes>)
    requires 0 < n
    ensures Walk(sha, n, n, complete, oldRoot, proof) ==
      if complete then (if proof == [] then Some(Heads(oldRoot, oldRoot)) else None)
      else (if |proof| == 1 then Some(Heads(proof[0], proof[0])) else None)
  {}

  lemma WalkInputsStep(sha: Hash, m: nat, n: nat, complete: bool, oldRoot: Bytes, proof: seq<Bytes>, p: Bytes)
    requires 0 < m < n
    ensures var k := SplitPoint(n);
      WalkInputs(sha, m, n, complete, oldRoot, proof + [p]) ==
      if m <= k then
        match Walk(sha, m, k, complete, oldRoot, proof)
        case None => {}
        case Some(h) => {NodeInput(h.newer, p)} + WalkInputs(sha, m, k, complete, oldRoot, proof)
      else
        match Walk(sha, m - k, n - k, false, oldRoot, proof)
        case None => {}
        case Some(h) => {NodeInput(p, h.newer)} + WalkInputs(sha, m - k, n - k, false, oldRoot, proof)
  {
    assert (proof + [p])[..|proof|] == proof;
  }

  lemma {:induction false} WalkComplete(sha: Hash, leaves: seq<Bytes>, m: nat, complete: bool)
    requires 0 < m <= |leaves|
    ensures Walk(sha, m, |leaves|, complete, Root(sha, leaves[..m]), SubProof(sha, leaves, m, complete))
            == Some(Heads(Root(sha, leaves[..m]), Root(sha, leaves)))
    decreases |leaves|
  {
    hide Walk, SubProof, SplitPoint, Root, NodeHash, TreeInputs;
    var n, r := |leaves|, Root(sha, leaves[..m]);
    SubProofStep(sha, leaves, m, complete);
    if m == n {
      assert leaves[..m] == leaves;
      WalkBase(sha, n, complete, r, SubProof(sha, leaves, m, complete));
    } else {
      var k := SplitPoint(n);
      RootStep(sha, leaves);
      if m <= k {
        assert leaves[..k][..m] == leaves[..m];
        WalkComplete(sha, leaves[..k], m, complete);
        WalkStep(sha, m, n, complete, r, SubProof(sha, leaves[..k], m, complete), Root(sha, leaves[k..]));
      } else {
        WalkComplete(sha, leaves[k..], m - k, false);
        RootOfPrefix(sha, leaves, m);
        WalkIgnoresOldRoot(sha, m - k, n - k, r, Root(sha, leaves[k..][..m - k]),
            SubProof(sha, leaves[k..], m - k, false));
        WalkStep(sha, m, n, complete, r, SubProof(sha, leaves[k..], m - k, false), Root(sha, leaves[..k]));
      }
    }
  }

  /** Once a left sibling has been taken, the claimed old root is no longer read. */
  lemma {:induction false} WalkIgnoresOldRoot(sha: Hash, m: nat, n: nat, r: Bytes, s: Bytes, proof: seq<Bytes>)
    requires 0 < m <= n
    ensures Walk(sha, m, n, false, r, proof) == Walk(sha, m, n, false, s, proof)
    decreases n
  {
    if m < n && proof != [] {
      var k := SplitPoint(n);
      if m <= k {
        WalkIgnoresOldRoot(sha, m, k, r, s, proof[..|proof| - 1]);
      } else {
        WalkIgnoresOldRoot(sha, m - k, n - k, r, s, proof[..|proof| - 1]);
      }
    }
  }

  /** One accepted level: the sibling is the root of the other half and the rest of the walk
      reaches the root of the half that holds the end of the old tree. */
  lemma {:induction false} WalkSoundStep(sha: Hash, leaves: seq<Bytes>, m: nat, complete: bool, oldRoot: Bytes,
      rest: seq<Bytes>, p: Bytes, k: nat, c: bool, m': nat, n': nat, half: seq<Bytes>, inner: Heads, h: Heads)
    requires IsHash(sha) && AllDigests(leaves) && 0 < m < |leaves| && k == SplitPoint(|leaves|)
    requires c == (complete && m <= k)
    requires m' == (if m <= k then m else m - k) && n' == (if m <= k then k else |leaves| - k)
    requires half == if m <= k then leaves[..k] else leaves[k..]
    requires SeedsAreDigests(oldRoot, rest)
    requires CollisionFree(sha, WalkInputs(sha, m, |leaves|, complete, oldRoot, rest + [p]), TreeInputs(sha, leaves))
    requires Walk(sha, m', n', c, oldRoot, rest) == Some(inner)
    requires h == Step(sha, if m <= k then Right else Left, inner, p) && h.newer == Root(sha, leaves)
    ensures inner.newer == Root(sha, half)
    ensures p == Root(sha, if m <= k then leaves[k..] else leaves[..k])
    ensures CollisionFree(sha, WalkInputs(sha, m', n', c, oldRoot, rest), TreeInputs(sha, half))
  {
    hide Walk, SplitPoint, Root, WalkInputs, TreeInputs, NodeInput;
    var xs, ys := WalkInputs(sha, m, |leaves|, complete, oldRoot, rest + [p]), TreeInputs(sha, leaves);
    WalkInputsStep(sha, m, |leaves|, complete, oldRoot, rest, p);
    RootStep(sha, leaves);
    RootSize(sha, leaves[..k]);
    RootSize(sha, leaves[k..]);
    WalkSize(sha, m', n', c, oldRoot, rest);
    if m <= k {
      NodeHashSound(sha, inner.newer, p, Root(sha, leaves[..k]), Root(sha, leaves[k..]), xs, ys);
    } else {
      NodeHashSound(sha, p, inner.newer, Root(sha, leaves[..k]), Root(sha, leaves[k..]), xs, ys);
    }
  }

  lemma {:induction false} WalkSound(sha: Hash, leaves: seq<Bytes>, m: nat, complete: bool, oldRoot: Bytes,
      proof: seq<Bytes>, h: Heads)
    requires IsHash(sha) && AllDigests(leaves) && 0 < m <= |leaves|
    requires SeedsAreDigests(oldRoot, proof)
    requires CollisionFree(sha, WalkInputs(sha, m, |leaves|, complete, oldRoot, proof), TreeInputs(sha, leaves))
    requires Walk(sha, m, |leaves|, complete, oldRoot, proof) == Some(h) && h.newer == Root(sha, leaves)
    ensures h.older == Root(sha, leaves[..m])
    ensures proof == SubProof(sha, leaves, m, complete)
    decreases |leaves|
  {
    hide Walk, SubProof, SplitPoint, Root, WalkInputs, TreeInputs, NodeInput, NodeHash;
    var n := |leaves|;
    SubProofStep(sha, leaves, m, complete);
    if m == n {
      assert leaves[..m] == leaves;
      WalkBase(sha, n, complete, oldRoot, proof);
    } else {
      var k := SplitPoint(n);
      if proof == [] {
        WalkEmpty(sha, m, n, complete, oldRoot);
      }
      var rest, p := proof[..|proof| - 1], proof[|proof| - 1];
      assert proof == rest + [p];
      WalkStep(sha, m, n, complete, oldRoot, rest, p);
      if m <= k {
        var inner := Walk(sha, m, k, complete, oldRoot, rest).value;
        WalkSoundStep(sha, leaves, m, complete, oldRoot, rest, p, k, complete, m, k, leaves[..k], inner, h);
        WalkSound(sha, leaves[..k], m, complete, oldRoot, rest, inner);
        assert leaves[..k][..m] == leaves[..m];
      } else {
        var inner := Walk(sha, m - k, n - k, false, oldRoot, rest).value;
        WalkSoundStep(sha, leaves, m, complete, oldRoot, rest, p, k, false, m - k, n - k, leaves[k..], inner, h);
        WalkSound(sha, leaves[k..], m - k, false, oldRoot, rest, inner);
        RootOfPrefix(sha, leaves, m);
      }
    }
  }

  lemma WalkEmpty(sha: Hash, m: nat, n: nat, complete: bool, oldRoot: Bytes)
    requires 0 < m < n
    ensures Walk(sha, m, n, complete, oldRoot, []).None?
  {}

  /** Consistency is exact: for a new tree root, the verifier accepts the root of the first m
      leaves with the proof of RFC 6962 section 2.1.2, and nothing else. */
  lemma {:induction false} ConsistencyExact(sha: Hash, leaves: seq<Bytes>, m: nat, oldRoot: Bytes, proof: seq<Bytes>)
    requires IsHash(sha) && AllDigests(leaves) && 0 < m < |leaves|
    requires SeedsAreDigests(oldRoot, proof)
    requires CollisionFree(sha, WalkInputs(sha, m, |leaves|, true, oldRoot, proof), TreeInputs(sha, leaves))
    ensures Consistent(sha, m, oldRoot, |leaves|, Root(sha, leaves), proof)
            <==> oldRoot == Root(sha, leaves[..m]) && proof == ConsistencyProof(sha, leaves, m)
  {
    hide Walk, SubProof, SplitPoint, Root;
    WalkComplete(sha, leaves, m, true);
    if Walk(sha, m, |leaves|, true, oldRoot, proof) == Some(Heads(oldRoot, Root(sha, leaves))) {
      WalkSound(sha, leaves, m, true, oldRoot, proof, Heads(oldRoot, Root(sha, leaves)));
    }
  }

  /** Completeness at every pair of sizes, the empty tree and equal sizes included. */
  lemma HonestProofAccepted(sha: Hash, leaves: seq<Bytes>, m: nat, n: nat)
    requires m <= n <= |leaves|
    ensures Consistent(sha, m, Root(sha, leaves[..m]), n, Root(sha, leaves[..n]), ConsistencyProof(sha, leaves[..n], m))
  {
    assert leaves[..n][..m] == leaves[..m];
    if 0 < m < n {
      WalkComplete(sha, leaves[..n], m, true);
    }
  }

  /** The two sizes that need no tree: equal sizes compare roots and accept only the empty
      proof; an empty old tree is accepted with any root and any proof. */
  lemma TrivialSizes(sha: Hash, n: nat, oldRoot: Bytes, newRoot: Bytes, proof: seq<Bytes>)
    ensures Consistent(sha, n, oldRoot, n, newRoot, proof) <==> oldRoot == newRoot && proof == []
    ensures n > 0 ==> Consistent(sha, 0, oldRoot, n, newRoot, proof)
  {}
}
