/** The transparency log of the registry and its external monitor. */
module TransparencyLog {
  // The log is a table with one way to change: append.  The heads and proofs it serves are
  // functions of the ordered leaf hashes.  The monitor keeps the heads it has seen and trusts
  // nothing else about the server.

  import opened Options
  import opened Merkle
  import opened Consistency

  // ---------------------------------------------------------------- what the server computes

  datatype Head = Head(treeSize: nat, rootHash: Bytes)

  datatype LogError = InvalidTreeSize | InvalidLeafIndex

  datatype InclusionAnswer = InclusionAnswer(leafIndex: nat, treeSize: nat, leafHash: Bytes, rootHash: Bytes,
      proof: seq<Bytes>)

  datatype ConsistencyAnswer = ConsistencyAnswer(firstSize: nat, firstRootHash: Bytes, secondSize: nat,
      secondRootHash: Bytes, proof: seq<Bytes>)

  function HeadOf(sha: Hash, leaves: seq<Bytes>): Head {
    Head(|leaves|, Root(sha, leaves))
  }

  function ServeInclusion(sha: Hash, all: seq<Bytes>, leafIndex: int,
      treeSize: Option<int>): Result<InclusionAnswer, LogError> {
    var size := if treeSize.Some? then treeSize.value else |all|;
    if size < 0 || size > |all| then Err(InvalidTreeSize)
    else if leafIndex < 0 || leafIndex >= size then Err(InvalidLeafIndex)
    else
      var leaves := all[..size];
      Ok(InclusionAnswer(leafIndex, size, leaves[leafIndex], Root(sha, leaves), AuditPath(sha, leaves, leafIndex)))
  }

  function ServeConsistency(sha: Hash, all: seq<Bytes>, first: int,
      second: Option<int>): Result<ConsistencyAnswer, LogError> {
    var size := if second.Some? then second.value else |all|;
    if size < 0 || size > |all| then Err(InvalidTreeSize)
    else if first < 0 || first > size then Err(InvalidTreeSize)
    else Ok(ConsistencyAnswer(first, Root(sha, all[..first]), size, Root(sha, all[..size]),
                              Merkle.ConsistencyProof(sha, all[..size], first)))
  }

  // ---------------------------------------------------------------- the log table

  datatype Row = Row(data: Bytes, leafHash: Bytes, payload: Option<Bytes>)

  class LogTable {
    /** Rows by primary key `leaf_index`. */
    var rows: map<nat, Row>
    const sha: Hash

    constructor (sha: Hash)
      ensures Valid() && Leaves() == [] && this.sha == sha
    {
      this.sha := sha;
      rows := map[];
    }

    /** Leaf indices are contiguous from 0, and each leaf hash commits to its row's data. */
    ghost predicate Valid()
      reads this
    {
      && (forall i: nat :: i in rows <==> i < |rows|)
      && (forall i: nat | i in rows :: rows[i].leafHash == LeafHash(sha, rows[i].data))
    }

    /** The leaf hashes in index order. */
    ghost function Leaves(): (leaves: seq<Bytes>)
      reads this
      requires Valid()
      ensures |leaves| == |rows|
    {
      seq(|rows|, i requires 0 <= i < |rows| reads this => if i in rows then rows[i].leafHash else [])
    }

    /** Inserts at the current row count; an entry that is not published keeps no payload. */
    method AppendEntry(entry: Bytes, payload: Bytes, publish: bool) returns (index: nat)
      requires Valid()
      modifies this
      ensures Valid()
      ensures index == old(|rows|)
      ensures rows == old(rows)[index := Row(entry, LeafHash(sha, entry), if publish then Some(payload) else None)]
      ensures Leaves() == old(Leaves()) + [LeafHash(sha, entry)]
    {
      index := |rows|;
      assert index !in rows;
      rows := rows[index := Row(entry, LeafHash(sha, entry), if publish then Some(payload) else None)];
    }
  }

  /** A run of the log: it starts empty and every step appends one leaf. */
  ghost predicate LogRun(states: seq<seq<Bytes>>) {
    && |states| > 0 && states[0] == []
    && forall i | 0 < i < |states| :: |states[i]| == |states[i - 1]| + 1
        && states[i - 1] == states[i][..|states[i - 1]|]
  }

  lemma {:induction false} LogRunGrows(states: seq<seq<Bytes>>, i: nat, j: nat)
    requires LogRun(states) && i <= j < |states|
    ensures |states[j]| == |states[i]| + (j - i) && states[i] == states[j][..|states[i]|]
    decreases j
  {
    if i < j {
      LogRunGrows(states, i, j - 1);
      assert states[j - 1] == states[j][..|states[j - 1]|];
      assert states[j][..|states[j - 1]|][..|states[i]|] == states[j][..|states[i]|];
    }
  }

  /** Over every run, a head observed at time i and a head observed at a later time j stay
      connected: the proof served at any time l from then on verifies between them. */
  lemma ServedConsistencyVerifies(sha: Hash, states: seq<seq<Bytes>>, i: nat, j: nat, l: nat)
    requires LogRun(states) && i <= j <= l < |states|
    ensures var old_, new_ := HeadOf(sha, states[i]), HeadOf(sha, states[j]);
      var answer := ServeConsistency(sha, states[l], old_.treeSize, Some(new_.treeSize));
      && answer.Ok?
      && answer.value.firstRootHash == old_.rootHash && answer.value.secondRootHash == new_.rootHash
      && Consistent(sha, old_.treeSize, old_.rootHash, new_.treeSize, new_.rootHash, answer.value.proof)
  {
    LogRunGrows(states, i, l);
    LogRunGrows(states, j, l);
    LogRunGrows(states, i, j);
    HonestProofAccepted(sha, states[l], |states[i]|, |states[j]|);
  }

  /** Likewise for inclusion: the leaf appended before a head was observed stays provable under
      that head, whatever has been appended since. */
  lemma ServedInclusionVerifies(sha: Hash, states: seq<seq<Bytes>>, j: nat, l: nat, index: nat)
    requires LogRun(states) && j <= l < |states| && index < |states[j]|
    ensures var head := HeadOf(sha, states[j]);
      var answer := ServeInclusion(sha, states[l], index, Some(head.treeSize));
      && answer.Ok? && answer.value.leafHash == states[j][index]
      && VerifyInclusion(sha, states[j][index], index, head.treeSize, answer.value.proof, head.rootHash)
  {
    LogRunGrows(states, j, l);
    ClimbComplete(sha, states[j], index);
    VerifyInclusionIsClimb(sha, states[j][index], index, |states[j]|, AuditPath(sha, states[j], index),
        Root(sha, states[j]));
  }

  /** Asked for no size, the server proves against its present head. */
  lemma DefaultIsPresentHead(sha: Hash, leaves: seq<Bytes>, index: int)
    ensures ServeInclusion(sha, leaves, index, None) == ServeInclusion(sha, leaves, index, Some(|leaves|))
    ensures ServeConsistency(sha, leaves, index, None) == ServeConsistency(sha, leaves, index, Some(|leaves|))
    ensures var answer := ServeInclusion(sha, leaves, index, None);
      if 0 <= index < |leaves|
      then answer.Ok? && HeadOf(sha, leaves) == Head(answer.value.treeSize, answer.value.rootHash)
      else answer == Err(InvalidLeafIndex)
  {
    assert leaves[..|leaves|] == leaves;
  }

  // ---------------------------------------------------------------- the monitor

  /** One entry as the server published it, with the inclusion proof the server gave for it. */
  datatype Observed = Observed(leafIndex: int, data: Bytes, leafHash: Bytes, payload: Option<Bytes>, proof: seq<Bytes>)

  datatype Alarm = LogShrank | RootChanged | HistoryRewritten | NoEntries | DataMismatch | PayloadMismatch | NotIncluded

  /** The hash of a payload, and the hash an entry's data says it commits to. */
  datatype PayloadRules = PayloadRules(payloadHash: Bytes -> Bytes, committed: Bytes -> Bytes)

  function CheckEntry(sha: Hash, rules: PayloadRules, cur: Head, e: Observed): Option<Alarm> {
    if LeafHash(sha, e.data) != e.leafHash then Some(DataMismatch)
    else if e.payload.Some? && rules.payloadHash(e.payload.value) != rules.committed(e.data) then Some(PayloadMismatch)
    else if !VerifyInclusion(sha, e.leafHash, e.leafIndex, cur.treeSize, e.proof, cur.rootHash) then Some(NotIncluded)
    else None
  }

  /** The entries of one page that are looked at: those before the first one past the head. */
  function Examined(cur: Head, page: seq<Observed>): seq<Observed> {
    if page == [] || page[0].leafIndex >= cur.treeSize then [] else [page[0]] + Examined(cur, page[1..])
  }

  function CheckAll(sha: Hash, rules: PayloadRules, cur: Head, es: seq<Observed>): Option<Alarm> {
    if es == [] then None
    else
      var first := CheckEntry(sha, rules, cur, es[0]);
      if first.Some? then first else CheckAll(sha, rules, cur, es[1..])
  }

  /** The whole entry loop.  `serve(i)` is the server's i-th answer to a request for entries. */
  function CheckPages(sha: Hash, rules: PayloadRules, cur: Head, serve: nat -> seq<Observed>, i: nat, offset: nat)
      : Result<seq<Observed>, Alarm>
    decreases cur.treeSize - offset
  {
    if offset >= cur.treeSize then Ok([])
    else if serve(i) == [] then Err(NoEntries)
    else
      var looked := Examined(cur, serve(i));
      var alarm := CheckAll(sha, rules, cur, looked);
      if alarm.Some? then Err(alarm.value)
      else
        match CheckPages(sha, rules, cur, serve, i + 1, offset + |serve(i)|)
        case Err(a) => Err(a)
        case Ok(rest) => Ok(looked + rest)
  }

  function CheckHead(sha: Hash, prev: Head, cur: Head, proof: seq<Bytes>): Option<Alarm> {
    if cur.treeSize < prev.treeSize then Some(LogShrank)
    else if cur.treeSize == prev.treeSize then (if cur.rootHash != prev.rootHash then Some(RootChanged) else None)
    else if !Consistent(sha, prev.treeSize, prev.rootHash, cur.treeSize, cur.rootHash, proof)
        then Some(HistoryRewritten)
    else None
  }

  class Monitor {
    /** The recorded heads, oldest first: the lines of the state file. */
    var heads: seq<Head>
    /** The consistency proofs that were accepted between neighbouring heads. */
    ghost var proofs: seq<seq<Bytes>>
    const sha: Hash
    const rules: PayloadRules

    constructor (sha: Hash, rules: PayloadRules)
      ensures Valid() && heads == [] && this.sha == sha && this.rules == rules
    {
      this.sha, this.rules := sha, rules;
      heads, proofs := [], [];
    }

    ghost predicate Valid()
      reads this
    {
      HeadsAccepted(sha, heads, proofs)
    }

    method CheckPage(cur: Head, page: seq<Observed>) returns (alarm: Option<Alarm>)
      ensures alarm == CheckAll(sha, rules, cur, Examined(cur, page))
    {
      var j := 0;
      while j < |page|
        invariant j <= |page|
        invariant CheckAll(sha, rules, cur, Examined(cur, page)) == CheckAll(sha, rules, cur, Examined(cur, page[j..]))
      {
        ghost var rest := page[j..];
        assert rest[0] == page[j] && rest[1..] == page[j + 1..];
        var e := page[j];
        if e.leafIndex >= cur.treeSize {
          return None;
        }
        assert Examined(cur, rest)[1..] == Examined(cur, rest[1..]);
        var a := CheckEntry(sha, rules, cur, e);
        if a.Some? {
          return a;
        }
        j := j + 1;
      }
      return None;
    }

    method CheckNewEntries(cur: Head, serve: nat -> seq<Observed>, start: nat) returns (alarm: Option<Alarm>)
      ensures alarm == AlarmOf(CheckPages(sha, rules, cur, serve, 0, start))
    {
      hide CheckAll, Examined;
      var offset, i := start, 0;
      while offset < cur.treeSize
        invariant AlarmOf(CheckPages(sha, rules, cur, serve, 0, start))
            == AlarmOf(CheckPages(sha, rules, cur, serve, i, offset))
        decreases cur.treeSize - offset
      {
        var entries := serve(i);
        if |entries| == 0 {
          return Some(NoEntries);
        }
        var a := CheckPage(cur, entries);
        if a.Some? {
          return a;
        }
        offset, i := offset + |entries|, i + 1;
      }
      return None;
    }

    /** One run against the server: the current head, the consistency proof, the entry pages. */
    method Run(cur: Head, proof: seq<Bytes>, serve: nat -> seq<Observed>) returns (alarm: Option<Alarm>)
      requires Valid()
      modifies this
      ensures Valid()
      ensures alarm == RunAlarm(sha, rules, old(heads), cur, proof, serve)
      ensures heads == if alarm.None? && NewHead(old(heads), cur) then old(heads) + [cur] else old(heads)
      ensures alarm.None? ==> heads != [] && heads[|heads| - 1] == cur
    {
      hide CheckPages, Consistent;
      var prev := if heads == [] then None else Some(heads[|heads| - 1]);
      if prev.Some? {
        var a := CheckHead(sha, prev.value, cur, proof);
        if a.Some? {
          return a;
        }
      }
      var a := CheckNewEntries(cur, serve, if prev.Some? then prev.value.treeSize else 0);
      if a.Some? {
        return a;
      }
      if prev.None? || cur.treeSize > prev.value.treeSize {
        if prev.Some? {
          HeadsAcceptedExtend(sha, heads, proofs, cur, proof);
          proofs := proofs + [proof];
        }
        heads := heads + [cur];
      }
      return None;
    }
  }

  function AlarmOf(r: Result<seq<Observed>, Alarm>): Option<Alarm> {
    match r
    case Err(a) => Some(a)
    case Ok(_) => None
  }

  predicate NewHead(heads: seq<Head>, cur: Head) {
    heads == [] || cur.treeSize > heads[|heads| - 1].treeSize
  }

  function RunAlarm(sha: Hash, rules: PayloadRules, heads: seq<Head>, cur: Head, proof: seq<Bytes>,
      serve: nat -> seq<Observed>): Option<Alarm> {
    var alarm := if heads == [] then None else CheckHead(sha, heads[|heads| - 1], cur, proof);
    if alarm.Some? then alarm
    else
      AlarmOf(CheckPages(sha, rules, cur, serve, 0, if heads == [] then 0 else heads[|heads| - 1].treeSize))
  }

  /** Neighbouring recorded heads grow and are connected by an accepted consistency proof. */
  ghost predicate HeadsAccepted(sha: Hash, heads: seq<Head>, proofs: seq<seq<Bytes>>) {
    && |proofs| == (if heads == [] then 0 else |heads| - 1)
    && forall i | 0 <= i < |proofs| ::
         && heads[i].treeSize < heads[i + 1].treeSize
         && Consistent(sha, heads[i].treeSize, heads[i].rootHash, heads[i + 1].treeSize, heads[i + 1].rootHash,
             proofs[i])
  }

  lemma HeadsAcceptedExtend(sha: Hash, heads: seq<Head>, proofs: seq<seq<Bytes>>, cur: Head, proof: seq<Bytes>)
    requires HeadsAccepted(sha, heads, proofs) && heads != []
    requires heads[|heads| - 1].treeSize < cur.treeSize && CheckHead(sha, heads[|heads| - 1], cur, proof).None?
    ensures HeadsAccepted(sha, heads + [cur], proofs + [proof])
  {}

  /** The digests and hash inputs of the proofs between recorded heads are sound for the leaf
      list `leaves`: of digest size where a verification starts, and free of collisions. */
  ghost predicate ProofsBinding(sha: Hash, heads: seq<Head>, proofs: seq<seq<Bytes>>, leaves: seq<Bytes>) {
    forall i | 0 <= i < |proofs| && i + 1 < |heads| && 0 < heads[i].treeSize < heads[i + 1].treeSize <= |leaves| ::
      && SeedsAreDigests(heads[i].rootHash, proofs[i])
      && CollisionFree(sha, WalkInputs(sha, heads[i].treeSize, heads[i + 1].treeSize, true, heads[i].rootHash,
          proofs[i]),
                       TreeInputs(sha, leaves[..heads[i + 1].treeSize]))
  }

  /** Every run passed: whatever leaf list the newest head commits to, each earlier recorded head
      commits to a prefix of it.  (A head of size 0 commits to nothing: its root is not checked.) */
  lemma {:induction false} RecordedHeadsNest(sha: Hash, heads: seq<Head>, proofs: seq<seq<Bytes>>, leaves: seq<Bytes>,
      i: nat)
    requires IsHash(sha) && AllDigests(leaves)
    requires HeadsAccepted(sha, heads, proofs) && i < |heads|
    requires heads[|heads| - 1] == HeadOf(sha, leaves)
    requires ProofsBinding(sha, heads, proofs, leaves)
    ensures heads[i].treeSize <= |leaves|
    ensures heads[i].treeSize > 0 ==> heads[i] == HeadOf(sha, leaves[..heads[i].treeSize])
    decreases |heads| - i
  {
    hide Root, TreeInputs, WalkInputs, Walk, Merkle.ConsistencyProof, SubProof;
    if i == |heads| - 1 {
      assert leaves[..|leaves|] == leaves;
    } else {
      RecordedHeadsNest(sha, heads, proofs, leaves, i + 1);
      var m, n := heads[i].treeSize, heads[i + 1].treeSize;
      if m > 0 {
        assert leaves[..n][..m] == leaves[..m];
        ConsistencyExact(sha, leaves[..n], m, heads[i].rootHash, proofs[i]);
      }
    }
  }

  /** The proof between the last recorded head and the current one is sound for the current leaves. */
  ghost predicate ProofBinding(sha: Hash, prev: Head, proof: seq<Bytes>, leaves: seq<Bytes>) {
    0 < prev.treeSize < |leaves| ==>
      && SeedsAreDigests(prev.rootHash, proof)
      && CollisionFree(sha, WalkInputs(sha, prev.treeSize, |leaves|, true, prev.rootHash, proof),
           TreeInputs(sha, leaves))
  }

  /** The head check is exact, alarm by alarm: the log shrank, its root changed at one size, or the
      recorded head is not that of a prefix with the one proof there is. */
  lemma {:induction false} HeadCheckExactly(sha: Hash, prev: Head, leaves: seq<Bytes>, proof: seq<Bytes>)
    requires IsHash(sha) && AllDigests(leaves) && ProofBinding(sha, prev, proof, leaves)
    ensures var m, n, alarm := prev.treeSize, |leaves|, CheckHead(sha, prev, HeadOf(sha, leaves), proof);
      && (alarm == Some(LogShrank) <==> n < m)
      && (alarm == Some(RootChanged) <==> n == m && prev != HeadOf(sha, leaves))
      && (alarm == Some(HistoryRewritten) <==>
            0 < m < n && !(prev == HeadOf(sha, leaves[..m]) && proof == Merkle.ConsistencyProof(sha, leaves, m)))
      && alarm in {None, Some(LogShrank), Some(RootChanged), Some(HistoryRewritten)}
  {
    hide Root, TreeInputs, WalkInputs, Walk, Merkle.ConsistencyProof, SubProof;
    var m, n := prev.treeSize, |leaves|;
    if 0 < m < n {
      ConsistencyExact(sha, leaves, m, prev.rootHash, proof);
    } else if m == 0 && n > 0 {
      TrivialSizes(sha, n, prev.rootHash, Root(sha, leaves), proof);
    }
  }

  /** A run that raises no alarm binds the head it was shown to all heads recorded before, also when
      the log has not grown: each of them, of positive size, is the head of a prefix. */
  lemma {:induction false} PassingRunNests(sha: Hash, rules: PayloadRules, heads: seq<Head>, proofs: seq<seq<Bytes>>,
      leaves: seq<Bytes>, proof: seq<Bytes>, serve: nat -> seq<Observed>, k: nat)
    requires IsHash(sha) && AllDigests(leaves)
    requires HeadsAccepted(sha, heads, proofs) && k < |heads| && ProofsBinding(sha, heads, proofs, leaves)
    requires ProofBinding(sha, heads[|heads| - 1], proof, leaves)
    requires RunAlarm(sha, rules, heads, HeadOf(sha, leaves), proof, serve) == None
    ensures heads[k].treeSize <= |leaves|
    ensures heads[k].treeSize > 0 ==> heads[k] == HeadOf(sha, leaves[..heads[k].treeSize])
  {
    hide Root, TreeInputs, WalkInputs, Merkle.ConsistencyProof, CheckPages, Consistent, CheckHead, CollisionFree;
    var last := heads[|heads| - 1];
    HeadCheckExactly(sha, last, leaves, proof);
    var prefix := leaves[..last.treeSize];
    assert last.treeSize == |leaves| ==> prefix == leaves;
    if last.treeSize > 0 {
      assert last == HeadOf(sha, prefix);
      forall n | 0 <= n <= last.treeSize
        ensures prefix[..n] == leaves[..n]
      {
        assert leaves[..last.treeSize][..n] == leaves[..n];
      }
      RecordedHeadsNest(sha, heads, proofs, prefix, k);
    } else {
      SizesGrow(sha, heads, proofs, k);
    }
  }

  lemma {:induction false} SizesGrow(sha: Hash, heads: seq<Head>, proofs: seq<seq<Bytes>>, k: nat)
    requires HeadsAccepted(sha, heads, proofs) && k < |heads|
    ensures heads[k].treeSize <= heads[|heads| - 1].treeSize
    decreases |heads| - k
  {
    if k + 1 < |heads| {
      SizesGrow(sha, heads, proofs, k + 1);
    }
  }

  /** Every entry a passing run looked at is the leaf at its index, with the data that hashes to it
      and, if one is shown, the payload that the data commits to. */
  lemma {:induction false} ExaminedEntriesAreLeaves(sha: Hash, rules: PayloadRules, leaves: seq<Bytes>,
      serve: nat -> seq<Observed>,
                                                    i: nat, offset: nat, looked: seq<Observed>, e: Observed)
    requires IsHash(sha) && AllDigests(leaves)
    requires CheckPages(sha, rules, HeadOf(sha, leaves), serve, i, offset) == Ok(looked)
    requires e in looked
    requires 0 <= e.leafIndex < |leaves| ==>
      CollisionFree(sha, ClimbInputs(sha, e.leafHash, e.leafIndex, |leaves|, e.proof), TreeInputs(sha, leaves))
    ensures 0 <= e.leafIndex < |leaves|
    ensures LeafHash(sha, e.data) == e.leafHash == leaves[e.leafIndex]
    ensures e.payload.Some? ==> rules.payloadHash(e.payload.value) == rules.committed(e.data)
    decreases |leaves| - offset
  {
    hide Root, TreeInputs, ClimbInputs, AuditPath, CheckAll, NodeInput;
    var cur := HeadOf(sha, leaves);
    var here := Examined(cur, serve(i));
    if e in here {
      CheckAllMeans(sha, rules, cur, here, e);
      assert |sha([0] + e.data)| == DIGEST_SIZE;
      InclusionExact(sha, leaves, e.leafHash, e.leafIndex, e.proof);
    } else {
      var rest := CheckPages(sha, rules, cur, serve, i + 1, offset + |serve(i)|).value;
      ExaminedEntriesAreLeaves(sha, rules, leaves, serve, i + 1, offset + |serve(i)|, rest, e);
    }
  }

  lemma {:induction false} CheckAllMeans(sha: Hash, rules: PayloadRules, cur: Head, es: seq<Observed>, e: Observed)
    requires CheckAll(sha, rules, cur, es).None? && e in es
    ensures CheckEntry(sha, rules, cur, e).None?
  {
    if e != es[0] {
      CheckAllMeans(sha, rules, cur, es[1..], e);
    }
  }

  /** The page at `offset` holds the entries from that offset on, as the log's own endpoint
      returns them. */
  ghost predicate PagesInOrder(cur: Head, serve: nat -> seq<Observed>, i: nat, offset: nat)
    decreases cur.treeSize - offset
  {
    offset < cur.treeSize && serve(i) != [] ==>
      && (forall j | 0 <= j < |serve(i)| :: serve(i)[j].leafIndex == offset + j)
      && PagesInOrder(cur, serve, i + 1, offset + |serve(i)|)
  }

  lemma {:induction false} ExaminedIsPrefix(cur: Head, page: seq<Observed>, first: nat)
    requires forall j | 0 <= j < |page| :: page[j].leafIndex == first + j
    requires first < cur.treeSize
    ensures Examined(cur, page) == page[..if first + |page| <= cur.treeSize then |page| else cur.treeSize - first]
  {
    if page != [] {
      if first + 1 < cur.treeSize {
        ExaminedIsPrefix(cur, page[1..], first + 1);
      } else if |page| > 1 {
        assert page[1..][0].leafIndex >= cur.treeSize;
      }
    }
  }

  /** When the pages come in order, a passing run looks at every new entry exactly once, in order. */
  lemma {:induction false} OrderedPagesCoverEverything(sha: Hash, rules: PayloadRules, cur: Head,
      serve: nat -> seq<Observed>,
                                                       i: nat, offset: nat, looked: seq<Observed>)
    requires offset <= cur.treeSize
    requires PagesInOrder(cur, serve, i, offset)
    requires CheckPages(sha, rules, cur, serve, i, offset) == Ok(looked)
    ensures |looked| == cur.treeSize - offset
    ensures forall j | 0 <= j < |looked| :: looked[j].leafIndex == offset + j
    decreases cur.treeSize - offset
  {
    if offset < cur.treeSize {
      var page := serve(i);
      ExaminedIsPrefix(cur, page, offset);
      var rest := CheckPages(sha, rules, cur, serve, i + 1, offset + |page|).value;
      if offset + |page| <= cur.treeSize {
        OrderedPagesCoverEverything(sha, rules, cur, serve, i + 1, offset + |page|, rest);
      }
    }
  }

  // ---------------------------------------------------------------- an honest log

  /** Every row's leaf hash is that of its data, and the data commits to the payload if there is one. */
  ghost predicate RowsHonest(sha: Hash, rules: PayloadRules, rows: seq<Row>) {
    forall j | 0 <= j < |rows| ::
      && rows[j].leafHash == LeafHash(sha, rows[j].data)
      && (rows[j].payload.Some? ==> rules.payloadHash(rows[j].payload.value) == rules.committed(rows[j].data))
  }

  function LeavesOf(rows: seq<Row>): (leaves: seq<Bytes>)
    ensures |leaves| == |rows|
    ensures forall j | 0 <= j < |rows| :: leaves[j] == rows[j].leafHash
  {
    seq(|rows|, j requires 0 <= j < |rows| => rows[j].leafHash)
  }

  /** What the log publishes about row j to somebody who holds the head of size n. */
  function Published(sha: Hash, rows: seq<Row>, n: nat, j: nat): Observed
    requires j < |rows|
  {
    var proof := match ServeInclusion(sha, LeavesOf(rows), j, Some(n))
      case Ok(answer) => answer.proof
      case Err(_) => [];
    Observed(j, rows[j].data, rows[j].leafHash, rows[j].payload, proof)
  }

  /** Every page asked for before the head's size is reached holds the next rows, at least one. */
  ghost predicate PagesHonest(sha: Hash, rows: seq<Row>, n: nat, serve: nat -> seq<Observed>, i: nat, offset: nat)
    decreases n - offset
  {
    offset < n ==>
      && serve(i) != [] && offset + |serve(i)| <= |rows|
      && (forall j | 0 <= j < |serve(i)| :: serve(i)[j] == Published(sha, rows, n, offset + j))
      && PagesHonest(sha, rows, n, serve, i + 1, offset + |serve(i)|)
  }

  lemma PublishedPasses(sha: Hash, rules: PayloadRules, rows: seq<Row>, n: nat, j: nat)
    requires RowsHonest(sha, rules, rows) && j < n <= |rows|
    ensures CheckEntry(sha, rules, HeadOf(sha, LeavesOf(rows)[..n]), Published(sha, rows, n, j)).None?
  {
    hide AuditPath, Root, LeafHash;
    var leaves := LeavesOf(rows)[..n];
    ClimbComplete(sha, leaves, j);
    VerifyInclusionIsClimb(sha, leaves[j], j, n, AuditPath(sha, leaves, j), Root(sha, leaves));
  }

  lemma {:induction false} AllPass(sha: Hash, rules: PayloadRules, cur: Head, es: seq<Observed>)
    requires forall j | 0 <= j < |es| :: CheckEntry(sha, rules, cur, es[j]).None?
    ensures CheckAll(sha, rules, cur, es).None?
  {
    hide CheckEntry;
    if es != [] {
      AllPass(sha, rules, cur, es[1..]);
    }
  }

  /** The entry loop passes on what an honest log serves. */
  lemma {:induction false} HonestPagesPass(sha: Hash, rules: PayloadRules, rows: seq<Row>, n: nat,
      serve: nat -> seq<Observed>, i: nat, offset: nat)
    requires RowsHonest(sha, rules, rows) && n <= |rows| && PagesHonest(sha, rows, n, serve, i, offset)
    ensures var cur := HeadOf(sha, LeavesOf(rows)[..n]);
      CheckPages(sha, rules, cur, serve, i, offset).Ok? && PagesInOrder(cur, serve, i, offset)
    decreases n - offset
  {
    hide CheckAll, CheckEntry, Root, AuditPath, RowsHonest, Examined;
    var cur := HeadOf(sha, LeavesOf(rows)[..n]);
    if offset < n {
      var page := serve(i);
      ExaminedIsPrefix(cur, page, offset);
      var looked := Examined(cur, page);
      forall j | 0 <= j < |looked|
        ensures CheckEntry(sha, rules, cur, looked[j]).None?
      {
        PublishedPasses(sha, rules, rows, n, offset + j);
      }
      AllPass(sha, rules, cur, looked);
      HonestPagesPass(sha, rules, rows, n, serve, i + 1, offset + |page|);
    }
  }

  /** No false alarm: whatever an honest log's last recorded size m and current size n, a monitor run
      against the head, the proof and the pages it serves passes, and examines rows m to n in order. */
  lemma HonestLogPasses(sha: Hash, rules: PayloadRules, rows: seq<Row>, heads: seq<Head>, m: nat, n: nat,
      serve: nat -> seq<Observed>)
    requires RowsHonest(sha, rules, rows) && m <= n <= |rows|
    requires if heads == [] then m == 0 else heads[|heads| - 1] == HeadOf(sha, LeavesOf(rows)[..m])
    requires PagesHonest(sha, rows, n, serve, 0, m)
    ensures var cur, answer := HeadOf(sha, LeavesOf(rows)[..n]), ServeConsistency(sha, LeavesOf(rows), m, Some(n));
      && answer.Ok?
      && RunAlarm(sha, rules, heads, cur, answer.value.proof, serve) == None
      && exists looked: seq<Observed> :: CheckPages(sha, rules, cur, serve, 0, m) == Ok(looked) && |looked| == n - m
           && forall j | 0 <= j < |looked| :: looked[j].leafIndex == m + j
  {
    hide Root, CheckPages, Consistent, RowsHonest, PagesHonest, PagesInOrder;
    var all := LeavesOf(rows);
    var cur := HeadOf(sha, all[..n]);
    HonestPagesPass(sha, rules, rows, n, serve, 0, m);
    HonestProofAccepted(sha, all, m, n);
    var looked := CheckPages(sha, rules, cur, serve, 0, m).value;
    OrderedPagesCoverEverything(sha, rules, cur, serve, 0, m, looked);
  }

  /** An entry examined in any passing run is still the leaf at its index under the newest head. */
  lemma {:induction false} ExaminedEntriesStay(sha: Hash, rules: PayloadRules, heads: seq<Head>,
      proofs: seq<seq<Bytes>>, leaves: seq<Bytes>, k: nat, serve: nat -> seq<Observed>, offset: nat,
      looked: seq<Observed>, e: Observed)
    requires IsHash(sha) && AllDigests(leaves)
    requires HeadsAccepted(sha, heads, proofs) && k < |heads| && heads[|heads| - 1] == HeadOf(sha, leaves)
    requires ProofsBinding(sha, heads, proofs, leaves)
    requires CheckPages(sha, rules, heads[k], serve, 0, offset) == Ok(looked) && e in looked
    requires 0 <= e.leafIndex < heads[k].treeSize <= |leaves| ==>
      CollisionFree(sha, ClimbInputs(sha, e.leafHash, e.leafIndex, heads[k].treeSize, e.proof),
        TreeInputs(sha, leaves[..heads[k].treeSize]))
    ensures 0 <= e.leafIndex < |leaves| && LeafHash(sha, e.data) == e.leafHash == leaves[e.leafIndex]
    ensures e.payload.Some? ==> rules.payloadHash(e.payload.value) == rules.committed(e.data)
  {
    hide HeadsAccepted, ProofsBinding, TreeInputs, ClimbInputs, Root, LeafHash, CollisionFree;
    RecordedHeadsNest(sha, heads, proofs, leaves, k);
    ExaminedEntriesAreLeaves(sha, rules, leaves[..heads[k].treeSize], serve, 0, offset, looked, e);
  }

  // ---------------------------------------------------------------- pages out of order

  function AlwaysServe(page: seq<Observed>): nat -> seq<Observed> {
    (_: nat) => page
  }

  /** Order is a real requirement: the loop counts the entries it was given, not the indices it
      checked, so a page that repeats one entry lets a run pass with another left unexamined. */
  lemma RepeatedPageSkipsAnEntry(sha: Hash, rules: PayloadRules, a: Bytes, b: Bytes)
    ensures var leaves := [LeafHash(sha, a), LeafHash(sha, b)];
      var e := Observed(0, a, LeafHash(sha, a), None, AuditPath(sha, leaves, 0));
      && CheckPages(sha, rules, HeadOf(sha, leaves), AlwaysServe([e, e]), 0, 0) == Ok([e, e])
      && forall x | x in [e, e] :: x.leafIndex != 1
  {
    var leaves := [LeafHash(sha, a), LeafHash(sha, b)];
    var e := Observed(0, a, LeafHash(sha, a), None, AuditPath(sha, leaves, 0));
    var cur := HeadOf(sha, leaves);
    hide AuditPath, Root, LeafHash;
    ClimbComplete(sha, leaves, 0);
    VerifyInclusionIsClimb(sha, leaves[0], 0, 2, e.proof, cur.rootHash);
    var serve := AlwaysServe([e, e]);
    assert CheckEntry(sha, rules, cur, e).None?;
    hide CheckEntry;
    assert [e, e][1..] == [e] && [e][1..] == [];
    assert Examined(cur, [e]) == [e] + Examined(cur, []);
    assert Examined(cur, [e, e]) == [e, e];
    assert CheckAll(sha, rules, cur, [e]).None?;
    assert CheckAll(sha, rules, cur, [e, e]).None?;
    assert CheckPages(sha, rules, cur, serve, 1, 2) == Ok([]);
    assert serve(0) == [e, e];
    assert [e, e] + [] == [e, e];
  }
}
