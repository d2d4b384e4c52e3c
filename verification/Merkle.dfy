/** The Merkle tree of RFC 6962 and the two proof verifiers of the Python SDK. */
module Merkle {
  // The tree, the audit path and the consistency proof are written as RFC 6962 section 2.1
  // defines them.  The verifiers are written as the SDK writes them: the inclusion verifier
  // recurses over index ranges, the consistency verifier shifts two bit patterns in a loop.
  //
  // A hash is a parameter `sha`.  Nothing is assumed to be injective: soundness asks only that
  // the inputs the verifier hashes do not collide with the inputs hashed to build the tree.

  import opened Options

  type Bytes = seq<Byte>
  type Hash = Bytes -> Bytes

  const DIGEST_SIZE := 32

  ghost predicate IsHash(sha: Hash) {
    forall x: Bytes :: |sha(x)| == DIGEST_SIZE
  }

  ghost predicate AllDigests(leaves: seq<Bytes>) {
    forall i | 0 <= i < |leaves| :: |leaves[i]| == DIGEST_SIZE
  }

  /** No input in `xs` has the digest of a different input in `ys`. */
  ghost predicate CollisionFree(sha: Hash, xs: set<Bytes>, ys: set<Bytes>) {
    forall x, y | x in xs && y in ys && sha(x) == sha(y) :: x == y
  }

  function NodeInput(left: Bytes, right: Bytes): Bytes {
    [1] + left + right
  }

  function NodeHash(sha: Hash, left: Bytes, right: Bytes): Bytes {
    sha(NodeInput(left, right))
  }

  function LeafHash(sha: Hash, entry: Bytes): Bytes {
    sha([0] + entry)
  }

  /** With one half of fixed size on each side, the concatenation determines both halves. */
  lemma NodeInputInjective(left: Bytes, right: Bytes, left': Bytes, right': Bytes)
    requires NodeInput(left, right) == NodeInput(left', right')
    requires |left| == |left'| || |right| == |right'|
    ensures left == left' && right == right'
  {
    var x, x' := NodeInput(left, right), NodeInput(left', right');
    assert left == x[1..1 + |left|] && right == x[1 + |left|..];
    assert left' == x'[1..1 + |left'|] && right' == x'[1 + |left'|..];
  }

  // ---------------------------------------------------------------- split point

  predicate IsPowerOfTwo(k: nat) {
    k == 1 || (k > 1 && k % 2 == 0 && IsPowerOfTwo(k / 2))
  }

  /** The largest power of two strictly below n. */
  function SplitPoint(n: nat): (k: nat)
    requires n > 1
    ensures 0 < k < n <= 2 * k
  {
    if n == 2 then 1 else 2 * SplitPoint((n + 1) / 2)
  }

  lemma {:induction false} SplitPointIsPowerOfTwo(n: nat)
    requires n > 1
    ensures IsPowerOfTwo(SplitPoint(n))
  {
    if n > 2 {
      SplitPointIsPowerOfTwo((n + 1) / 2);
    }
  }

  lemma {:induction false} PowersOfTwoAreSpread(a: nat, b: nat)
    requires IsPowerOfTwo(a) && IsPowerOfTwo(b) && a < b
    ensures 2 * a <= b
  {
    if a > 1 {
      PowersOfTwoAreSpread(a / 2, b / 2);
    }
  }

  lemma SplitPointUnique(n: nat, k: nat)
    requires n > 1 && IsPowerOfTwo(k) && k < n <= 2 * k
    ensures k == SplitPoint(n)
  {
    var s := SplitPoint(n);
    SplitPointIsPowerOfTwo(n);
    if k < s {
      PowersOfTwoAreSpread(k, s);
    } else if s < k {
      PowersOfTwoAreSpread(s, k);
    }
  }

  method FindSplitPoint(n: nat) returns (k: nat)
    requires n > 1
    ensures k == SplitPoint(n)
  {
    k := 1;
    while k * 2 < n
      invariant IsPowerOfTwo(k) && k < n
    {
      k := k * 2;
    }
    SplitPointUnique(n, k);
  }

  // ---------------------------------------------------------------- the tree of RFC 6962

  /** MTH of RFC 6962 section 2.1, over leaf hashes. */
  function Root(sha: Hash, leaves: seq<Bytes>): Bytes {
    if |leaves| == 0 then sha([])
    else if |leaves| == 1 then leaves[0]
    else
      var k := SplitPoint(|leaves|);
      NodeHash(sha, Root(sha, leaves[..k]), Root(sha, leaves[k..]))
  }

  /** The smallest trees, spelled out as in RFC 6962 section 2.1: 0 in front of an entry, 1 in front
      of two subtrees. */
  lemma SmallTrees(sha: Hash, a: Bytes, b: Bytes, c: Bytes)
    ensures var (x, y, z) := (LeafHash(sha, a), LeafHash(sha, b), LeafHash(sha, c));
      && Root(sha, []) == sha([])
      && Root(sha, [x]) == sha([0] + a)
      && Root(sha, [x, y]) == sha([1] + sha([0] + a) + sha([0] + b))
      && Root(sha, [x, y, z]) == sha([1] + sha([1] + sha([0] + a) + sha([0] + b)) + sha([0] + c))
  {
    var (x, y, z) := (LeafHash(sha, a), LeafHash(sha, b), LeafHash(sha, c));
    assert [x, y][..1] == [x] && [x, y][1..] == [y];
    assert [x, y, z][..2] == [x, y] && [x, y, z][2..] == [z];
    assert SplitPoint(2) == 1 && SplitPoint(3) == 2;
  }

  /** An entry that hashes like an inner node is a collision of the hash. */
  lemma LeafIsNoNode(sha: Hash, entry: Bytes, left: Bytes, right: Bytes)
    requires LeafHash(sha, entry) == NodeHash(sha, left, right)
    ensures exists x, y :: x != y && sha(x) == sha(y)
  {
    var x, y := [0] + entry, NodeInput(left, right);
    assert x[0] != y[0];
  }

  /** Every input hashed while computing `Root`. */
  function TreeInputs(sha: Hash, leaves: seq<Bytes>): set<Bytes> {
    if |leaves| <= 1 then {}
    else
      var k := SplitPoint(|leaves|);
      {NodeInput(Root(sha, leaves[..k]), Root(sha, leaves[k..]))}
      + TreeInputs(sha, leaves[..k]) + TreeInputs(sha, leaves[k..])
  }

  /** PATH of RFC 6962 section 2.1.1, deepest sibling first. */
  function AuditPath(sha: Hash, leaves: seq<Bytes>, i: nat): seq<Bytes>
    requires i < |leaves|
  {
    if |leaves| == 1 then []
    else
      var k := SplitPoint(|leaves|);
      if i < k then AuditPath(sha, leaves[..k], i) + [Root(sha, leaves[k..])]
      else AuditPath(sha, leaves[k..], i - k) + [Root(sha, leaves[..k])]
  }

  /** SUBPROOF of RFC 6962 section 2.1.2. */
  function SubProof(sha: Hash, leaves: seq<Bytes>, m: nat, complete: bool): seq<Bytes>
    requires 0 < m <= |leaves|
  {
    if m == |leaves| then (if complete then [] else [Root(sha, leaves)])
    else
      var k := SplitPoint(|leaves|);
      if m <= k then SubProof(sha, leaves[..k], m, complete) + [Root(sha, leaves[k..])]
      else SubProof(sha, leaves[k..], m - k, false) + [Root(sha, leaves[..k])]
  }

  /** PROOF of RFC 6962 section 2.1.2, with the server's convention that the proof from size 0
      and the proof from a size to itself are empty. */
  function ConsistencyProof(sha: Hash, leaves: seq<Bytes>, m: nat): seq<Bytes>
    requires m <= |leaves|
  {
    if m == 0 || m == |leaves| then [] else SubProof(sha, leaves, m, true)
  }

  lemma RootSize(sha: Hash, leaves: seq<Bytes>)
    requires IsHash(sha) && AllDigests(leaves)
    ensures |Root(sha, leaves)| == DIGEST_SIZE
  {
    if |leaves| > 1 {
      var k := SplitPoint(|leaves|);
      assert |sha(NodeInput(Root(sha, leaves[..k]), Root(sha, leaves[k..])))| == DIGEST_SIZE;
    }
  }

  // ---------------------------------------------------------------- inclusion

  /** The recursive verifier: the digest of the range [start, end) that holds leaf m, and the
      index of the first proof element not consumed. */
  function VerifyPath(sha: Hash, leaf: Bytes, m: nat, start: nat, end: nat, proof: seq<Bytes>, idx: nat)
      : Option<(Bytes, nat)>
    requires start <= m < end
    decreases end - start
  {
    var n := end - start;
    if n == 1 then Some((leaf, idx))
    else
      var k := SplitPoint(n);
      if m - start < k then
        var inner := VerifyPath(sha, leaf, m, start, start + k, proof, idx);
        if inner.None? || inner.value.1 >= |proof| then None
        else Some((NodeHash(sha, inner.value.0, proof[inner.value.1]), inner.value.1 + 1))
      else
        var inner := VerifyPath(sha, leaf, m, start + k, end, proof, idx);
        if inner.None? || inner.value.1 >= |proof| then None
        else Some((NodeHash(sha, proof[inner.value.1], inner.value.0), inner.value.1 + 1))
  }

  function VerifyInclusion(sha: Hash, leaf: Bytes, index: int, treeSize: int, proof: seq<Bytes>, root: Bytes): bool {
    if index < 0 || index >= treeSize || treeSize < 1 then false
    else
      var result := VerifyPath(sha, leaf, index, 0, treeSize, proof, 0);
      result.Some? && result.value.1 == |proof| && result.value.0 == root
  }

  /** The same climb stated top-down: the last proof element is the sibling below the root. */
  function Climb(sha: Hash, leaf: Bytes, i: nat, n: nat, proof: seq<Bytes>): Option<Bytes>
    requires i < n
    decreases n
  {
    if n == 1 then (if proof == [] then Some(leaf) else None)
    else if proof == [] then None
    else
      var k := SplitPoint(n);
      var rest, sibling := proof[..|proof| - 1], proof[|proof| - 1];
      if i < k then
        match Climb(sha, leaf, i, k, rest)
        case None => None
        case Some(h) => Some(NodeHash(sha, h, sibling))
      else
        match Climb(sha, leaf, i - k, n - k, rest)
        case None => None
        case Some(h) => Some(NodeHash(sha, sibling, h))
  }

  /** Every input the inclusion verifier hashes on the way up. */
  function ClimbInputs(sha: Hash, leaf: Bytes, i: nat, n: nat, proof: seq<Bytes>): set<Bytes>
    requires i < n
    decreases n
  {
    if n == 1 || proof == [] then {}
    else
      var k := SplitPoint(n);
      var rest, sibling := proof[..|proof| - 1], proof[|proof| - 1];
      if i < k then
        match Climb(sha, leaf, i, k, rest)
        case None => {}
        case Some(h) => {NodeInput(h, sibling)} + ClimbInputs(sha, leaf, i, k, rest)
      else
        match Climb(sha, leaf, i - k, n - k, rest)
        case None => {}
        case Some(h) => {NodeInput(sibling, h)} + ClimbInputs(sha, leaf, i - k, n - k, rest)
  }

  function PathLength(i: nat, n: nat): nat
    requires i < n
    decreases n
  {
    if n == 1 then 0
    else
      var k := SplitPoint(n);
      1 + if i < k then PathLength(i, k) else PathLength(i - k, n - k)
  }

  lemma {:induction false} ClimbConsumesPathLength(sha: Hash, leaf: Bytes, i: nat, n: nat, proof: seq<Bytes>)
    requires i < n
    ensures Climb(sha, leaf, i, n, proof).Some? <==> |proof| == PathLength(i, n)
    decreases n
  {
    if n > 1 && proof != [] {
      var k := SplitPoint(n);
      if i < k {
        ClimbConsumesPathLength(sha, leaf, i, k, proof[..|proof| - 1]);
      } else {
        ClimbConsumesPathLength(sha, leaf, i - k, n - k, proof[..|proof| - 1]);
      }
    }
  }

  /** The verifier consumes the proof in order, exactly one element per level. */
  lemma {:induction false} VerifyPathIsClimb(sha: Hash, leaf: Bytes, m: nat, start: nat, end: nat, proof: seq<Bytes>,
      idx: nat)
    requires start <= m < end && idx <= |proof|
    ensures var len := PathLength(m - start, end - start);
      VerifyPath(sha, leaf, m, start, end, proof, idx) ==
      if idx + len > |proof| then None
      else
        match Climb(sha, leaf, m - start, end - start, proof[idx..idx + len])
        case None => None
        case Some(h) => Some((h, idx + len))
    decreases end - start
  {
    hide SplitPoint, NodeHash, Climb, PathLength, VerifyPath;
    var n := end - start;
    var len := PathLength(m - start, n);
    VerifyPathStep(sha, leaf, m, start, end, proof, idx);
    if n == 1 {
      ClimbBase(sha, leaf, proof[idx..idx + 0]);
    } else {
      var k := SplitPoint(n);
      ClimbStep(sha, leaf, m - start, n, proof, idx);
      if m - start < k {
        VerifyPathIsClimb(sha, leaf, m, start, start + k, proof, idx);
        if idx + len - 1 <= |proof| {
          ClimbConsumesPathLength(sha, leaf, m - start, k, proof[idx..idx + (len - 1)]);
        }
      } else {
        VerifyPathIsClimb(sha, leaf, m, start + k, end, proof, idx);
        if idx + len - 1 <= |proof| {
          ClimbConsumesPathLength(sha, leaf, m - start - k, n - k, proof[idx..idx + (len - 1)]);
        }
      }
    }
  }

  lemma VerifyPathStep(sha: Hash, leaf: Bytes, m: nat, start: nat, end: nat, proof: seq<Bytes>, idx: nat)
    requires start <= m < end
    ensures end - start == 1 ==> VerifyPath(sha, leaf, m, start, end, proof, idx) == Some((leaf, idx))
    ensures end - start > 1 ==>
      var k := SplitPoint(end - start);
      VerifyPath(sha, leaf, m, start, end, proof, idx) ==
      if m - start < k then
        var inner := VerifyPath(sha, leaf, m, start, start + k, proof, idx);
        if inner.None? || inner.value.1 >= |proof| then None
        else Some((NodeHash(sha, inner.value.0, proof[inner.value.1]), inner.value.1 + 1))
      else
        var inner := VerifyPath(sha, leaf, m, start + k, end, proof, idx);
        if inner.None? || inner.value.1 >= |proof| then None
        else Some((NodeHash(sha, proof[inner.value.1], inner.value.0), inner.value.1 + 1))
  {}

  lemma ClimbBase(sha: Hash, leaf: Bytes, proof: seq<Bytes>)
    ensures Climb(sha, leaf, 0, 1, proof) == if proof == [] then Some(leaf) else None
    ensures PathLength(0, 1) == 0
  {}

  lemma {:induction false} ClimbExtend(sha: Hash, leaf: Bytes, i: nat, n: nat, rest: seq<Bytes>, p: Bytes)
    requires 1 < n && i < n
    ensures var k := SplitPoint(n);
      Climb(sha, leaf, i, n, rest + [p]) ==
      if i < k then
        match Climb(sha, leaf, i, k, rest)
        case None => None
        case Some(h) => Some(NodeHash(sha, h, p))
      else
        match Climb(sha, leaf, i - k, n - k, rest)
        case None => None
        case Some(h) => Some(NodeHash(sha, p, h))
    ensures var k := SplitPoint(n);
      ClimbInputs(sha, leaf, i, n, rest + [p]) ==
      if i < k then
        match Climb(sha, leaf, i, k, rest)
        case None => {}
        case Some(h) => {NodeInput(h, p)} + ClimbInputs(sha, leaf, i, k, rest)
      else
        match Climb(sha, leaf, i - k, n - k, rest)
        case None => {}
        case Some(h) => {NodeInput(p, h)} + ClimbInputs(sha, leaf, i - k, n - k, rest)
  {
    hide NodeInput, NodeHash;
    assert (rest + [p])[..|rest|] == rest;
  }

  /** One level of `Climb`, on the slice of the proof that one path consumes. */
  lemma ClimbStep(sha: Hash, leaf: Bytes, i: nat, n: nat, proof: seq<Bytes>, idx: nat)
    requires 1 < n && i < n
    ensures var len := PathLength(i, n);
      var k := SplitPoint(n);
      len == 1 + (if i < k then PathLength(i, k) else PathLength(i - k, n - k)) && (idx + len <= |proof| ==>
        Climb(sha, leaf, i, n, proof[idx..idx + len]) ==
        if i < k then
          match Climb(sha, leaf, i, k, proof[idx..idx + (len - 1)])
          case None => None
          case Some(h) => Some(NodeHash(sha, h, proof[idx + (len - 1)]))
        else
          match Climb(sha, leaf, i - k, n - k, proof[idx..idx + (len - 1)])
          case None => None
          case Some(h) => Some(NodeHash(sha, proof[idx + (len - 1)], h)))
  {
    hide Climb, ClimbInputs, SplitPoint;
    var len := PathLength(i, n);
    if idx + len <= |proof| {
      assert proof[idx..idx + len] == proof[idx..idx + (len - 1)] + [proof[idx + (len - 1)]];
      ClimbExtend(sha, leaf, i, n, proof[idx..idx + (len - 1)], proof[idx + (len - 1)]);
    }
  }

  lemma VerifyInclusionIsClimb(sha: Hash, leaf: Bytes, i: nat, n: nat, proof: seq<Bytes>, root: Bytes)
    requires i < n
    ensures VerifyInclusion(sha, leaf, i, n, proof, root) <==> Climb(sha, leaf, i, n, proof) == Some(root)
  {
    VerifyPathIsClimb(sha, leaf, i, 0, n, proof, 0);
    ClimbConsumesPathLength(sha, leaf, i, n, proof);
    if PathLength(i, n) <= |proof| {
      var p := proof[0..0 + PathLength(i, n)];
      ClimbConsumesPathLength(sha, leaf, i, n, p);
      if PathLength(i, n) == |proof| {
        assert p == proof;
      }
    }
  }

  lemma RootBase(sha: Hash, leaves: seq<Bytes>)
    requires |leaves| == 1
    ensures Root(sha, leaves) == leaves[0]
  {}

  lemma RootStep(sha: Hash, leaves: seq<Bytes>)
    requires |leaves| > 1
    ensures var k := SplitPoint(|leaves|);
      Root(sha, leaves) == NodeHash(sha, Root(sha, leaves[..k]), Root(sha, leaves[k..]))
    ensures var k := SplitPoint(|leaves|);
      TreeInputs(sha, leaves) == {NodeInput(Root(sha, leaves[..k]), Root(sha, leaves[k..]))}
      + TreeInputs(sha, leaves[..k]) + TreeInputs(sha, leaves[k..])
  {}

  lemma AuditPathStep(sha: Hash, leaves: seq<Bytes>, i: nat)
    requires i < |leaves|
    ensures |leaves| == 1 ==> AuditPath(sha, leaves, i) == []
    ensures |leaves| > 1 ==>
      var k := SplitPoint(|leaves|);
      AuditPath(sha, leaves, i) ==
        if i < k then AuditPath(sha, leaves[..k], i) + [Root(sha, leaves[k..])]
        else AuditPath(sha, leaves[k..], i - k) + [Root(sha, leaves[..k])]
  {}

  lemma {:induction false} ClimbComplete(sha: Hash, leaves: seq<Bytes>, i: nat)
    requires i < |leaves|
    ensures Climb(sha, leaves[i], i, |leaves|, AuditPath(sha, leaves, i)) == Some(Root(sha, leaves))
    decreases |leaves|
  {
    hide Climb, ClimbInputs, Root, TreeInputs, AuditPath, SplitPoint, NodeInput, NodeHash;
    AuditPathStep(sha, leaves, i);
    if |leaves| == 1 {
      ClimbBase(sha, leaves[i], []);
      RootBase(sha, leaves);
    } else {
      var n, k := |leaves|, SplitPoint(|leaves|);
      RootStep(sha, leaves);
      if i < k {
        ClimbComplete(sha, leaves[..k], i);
        ClimbExtend(sha, leaves[i], i, n, AuditPath(sha, leaves[..k], i), Root(sha, leaves[k..]));
      } else {
        ClimbComplete(sha, leaves[k..], i - k);
        ClimbExtend(sha, leaves[i], i, n, AuditPath(sha, leaves[k..], i - k), Root(sha, leaves[..k]));
      }
    }
  }

  lemma {:induction false} ClimbSize(sha: Hash, leaf: Bytes, i: nat, n: nat, proof: seq<Bytes>)
    requires IsHash(sha) && i < n && |leaf| == DIGEST_SIZE
    requires Climb(sha, leaf, i, n, proof).Some?
    ensures |Climb(sha, leaf, i, n, proof).value| == DIGEST_SIZE
    decreases n
  {
    if n > 1 {
      var k := SplitPoint(n);
      var rest, sibling := proof[..|proof| - 1], proof[|proof| - 1];
      if i < k {
        var h := Climb(sha, leaf, i, k, rest).value;
        assert |sha(NodeInput(h, sibling))| == DIGEST_SIZE;
      } else {
        var h := Climb(sha, leaf, i - k, n - k, rest).value;
        assert |sha(NodeInput(sibling, h))| == DIGEST_SIZE;
      }
    }
  }

  /** Two equal node hashes over inputs that do not collide, with one pair of halves of digest
      size on the same side, are hashes of the same pair. */
  lemma NodeHashSound(sha: Hash, l: Bytes, r: Bytes, left: Bytes, right: Bytes, xs: set<Bytes>, ys: set<Bytes>)
    requires CollisionFree(sha, xs, ys) && NodeInput(l, r) in xs && NodeInput(left, right) in ys
    requires NodeHash(sha, l, r) == NodeHash(sha, left, right)
    requires |l| == |left| || |r| == |right|
    ensures l == left && r == right
  {
    NodeInputInjective(l, r, left, right);
  }

  /** What one accepted level tells: the rest of the climb reaches the root of the half that
      holds the leaf, and the sibling is the root of the other half. */
  lemma ClimbSoundStep(sha: Hash, leaves: seq<Bytes>, leaf: Bytes, i: nat, proof: seq<Bytes>, k: nat, rest: seq<Bytes>)
    requires IsHash(sha) && AllDigests(leaves) && i < |leaves| && |leaf| == DIGEST_SIZE
    requires CollisionFree(sha, ClimbInputs(sha, leaf, i, |leaves|, proof), TreeInputs(sha, leaves))
    requires Climb(sha, leaf, i, |leaves|, proof) == Some(Root(sha, leaves))
    requires |leaves| > 1 && k == SplitPoint(|leaves|)
    requires proof != [] && rest == proof[..|proof| - 1]
    ensures i < k ==>
      && Climb(sha, leaf, i, k, rest) == Some(Root(sha, leaves[..k]))
      && proof[|proof| - 1] == Root(sha, leaves[k..])
      && CollisionFree(sha, ClimbInputs(sha, leaf, i, k, rest), TreeInputs(sha, leaves[..k]))
    ensures i >= k ==>
      && Climb(sha, leaf, i - k, |leaves| - k, rest) == Some(Root(sha, leaves[k..]))
      && proof[|proof| - 1] == Root(sha, leaves[..k])
      && CollisionFree(sha, ClimbInputs(sha, leaf, i - k, |leaves| - k, rest), TreeInputs(sha, leaves[k..]))
  {
    hide Climb, ClimbInputs, Root, TreeInputs, AuditPath, SplitPoint, NodeInput, NodeHash;
    var n, xs, ys := |leaves|, ClimbInputs(sha, leaf, i, |leaves|, proof), TreeInputs(sha, leaves);
    var sibling := proof[|proof| - 1];
    assert proof == rest + [sibling];
    ClimbExtend(sha, leaf, i, n, rest, sibling);
    RootStep(sha, leaves);
    RootSize(sha, leaves[..k]);
    RootSize(sha, leaves[k..]);
    if i < k {
      ClimbSize(sha, leaf, i, k, rest);
      var h := Climb(sha, leaf, i, k, rest).value;
      NodeHashSound(sha, h, sibling, Root(sha, leaves[..k]), Root(sha, leaves[k..]), xs, ys);
    } else {
      ClimbSize(sha, leaf, i - k, n - k, rest);
      var h := Climb(sha, leaf, i - k, n - k, rest).value;
      NodeHashSound(sha, sibling, h, Root(sha, leaves[..k]), Root(sha, leaves[k..]), xs, ys);
    }
  }

  lemma {:induction false} ClimbSound(sha: Hash, leaves: seq<Bytes>, leaf: Bytes, i: nat, proof: seq<Bytes>)
    requires IsHash(sha) && AllDigests(leaves) && i < |leaves| && |leaf| == DIGEST_SIZE
    requires CollisionFree(sha, ClimbInputs(sha, leaf, i, |leaves|, proof), TreeInputs(sha, leaves))
    requires Climb(sha, leaf, i, |leaves|, proof) == Some(Root(sha, leaves))
    ensures leaf == leaves[i] && proof == AuditPath(sha, leaves, i)
    decreases |leaves|
  {
    hide NodeInput, NodeHash, SplitPoint, Root, TreeInputs, ClimbInputs, Climb, AuditPath;
    AuditPathStep(sha, leaves, i);
    if |leaves| == 1 {
      ClimbBase(sha, leaf, proof);
      RootBase(sha, leaves);
    } else {
      var k := SplitPoint(|leaves|);
      ClimbNeedsProof(sha, leaf, i, |leaves|);
      var rest := proof[..|proof| - 1];
      assert proof == rest + [proof[|proof| - 1]];
      ClimbSoundStep(sha, leaves, leaf, i, proof, k, rest);
      if i < k {
        ClimbSound(sha, leaves[..k], leaf, i, rest);
      } else {
        ClimbSound(sha, leaves[k..], leaf, i - k, rest);
      }
    }
  }

  lemma ClimbNeedsProof(sha: Hash, leaf: Bytes, i: nat, n: nat)
    requires i < n && n > 1
    ensures Climb(sha, leaf, i, n, []).None?
  {}

  /** Inclusion is exact: for a tree root, the verifier accepts the leaf at its index with its
      RFC 6962 audit path, and nothing else. */
  lemma {:induction false} InclusionExact(sha: Hash, leaves: seq<Bytes>, leaf: Bytes, i: nat, proof: seq<Bytes>)
    requires IsHash(sha) && AllDigests(leaves) && i < |leaves| && |leaf| == DIGEST_SIZE
    requires CollisionFree(sha, ClimbInputs(sha, leaf, i, |leaves|, proof), TreeInputs(sha, leaves))
    ensures VerifyInclusion(sha, leaf, i, |leaves|, proof, Root(sha, leaves))
            <==> leaf == leaves[i] && proof == AuditPath(sha, leaves, i)
  {
    VerifyInclusionIsClimb(sha, leaf, i, |leaves|, proof, Root(sha, leaves));
    if Climb(sha, leaf, i, |leaves|, proof) == Some(Root(sha, leaves)) {
      ClimbSound(sha, leaves, leaf, i, proof);
    }
    ClimbComplete(sha, leaves, i);
  }

  /** The size of the leaf is a real requirement: the verifier itself does not check it, and a
      longer "leaf" that swallows the first byte of its sibling reaches the same root. */
  lemma InclusionNeedsLeafSize(sha: Hash, a: Bytes, b: Bytes)
    requires |a| == DIGEST_SIZE && |b| == DIGEST_SIZE
    ensures a + b[..1] != a
    ensures VerifyInclusion(sha, a + b[..1], 0, 2, [b[1..]], Root(sha, [a, b]))
  {
    assert NodeInput(a + b[..1], b[1..]) == NodeInput(a, b);
    assert [a, b][..1] == [a] && [a, b][1..] == [b];
    assert VerifyPath(sha, a + b[..1], 0, 0, 1, [b[1..]], 0) == Some((a + b[..1], 0));
    assert |a + b[..1]| == |a| + 1;
  }
}
