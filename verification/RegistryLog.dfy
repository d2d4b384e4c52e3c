/** The registry's log as the transparency log serves it: heads shown at different times of a run
    are linked by consistency proofs that verify. */
module RegistryLog {
  import opened Options
  import opened Lists
  import opened Registry
  import opened RegistryRuns
  import opened RegistryGuarantees
  import Merkle
  import Consistency
  import Log = TransparencyLog

  /** The leaves the log table holds when `encode` gives the bytes of an entry. */
  function LeavesOf(sha: Merkle.Hash, encode: LogEntry -> Merkle.Bytes, log: seq<LogEntry>): (leaves: seq<Merkle.Bytes>)
    ensures |leaves| == |log|
    ensures forall i | 0 <= i < |log| :: leaves[i] == Merkle.LeafHash(sha, encode(log[i]))
  {
    seq(|log|, i requires 0 <= i < |log| => Merkle.LeafHash(sha, encode(log[i])))
  }

  /** Any two heads the registry shows in one run are linked by the consistency proof it serves
      at any later time. */
  lemma {:induction false} HeadsStayConnected(env: Env, sha: Merkle.Hash, encode: LogEntry -> Merkle.Bytes,
      w: World, qs: List<Request>, w': World, qs': List<Request>, w'': World)
    requires Reachable(env, w) && Run(env, w, qs, w') && Run(env, w', qs', w'')
    ensures var first, second := Log.HeadOf(sha, LeavesOf(sha, encode, w.log)),
        Log.HeadOf(sha, LeavesOf(sha, encode, w'.log));
      var answer := Log.ServeConsistency(sha, LeavesOf(sha, encode, w''.log), first.treeSize, Some(second.treeSize));
      && answer.Ok?
      && answer.value.firstRootHash == first.rootHash && answer.value.secondRootHash == second.rootHash
      && Consistency.Consistent(sha, first.treeSize, first.rootHash, second.treeSize, second.rootHash,
          answer.value.proof)
  {
    hide Inv, Run, Log.LogRun, Log.ServeConsistency, Consistency.Consistent, Log.HeadOf;
    ReachableInv(env, w);
    RunInv(env, w, qs, w');
    RunInv(env, w', qs', w'');
    LogsNest(w, w', w'');
    var all := LeavesOf(sha, encode, w''.log);
    PrefixesAreARun(all);
    assert LeavesOf(sha, encode, w.log) == all[..|w.log|] == Prefixes(all)[|w.log|];
    assert LeavesOf(sha, encode, w'.log) == all[..|w'.log|] == Prefixes(all)[|w'.log|];
    assert all == Prefixes(all)[|all|];
    Log.ServedConsistencyVerifies(sha, Prefixes(all), |w.log|, |w'.log|, |all|);
  }

  lemma LogsNest(w: World, w': World, w'': World)
    requires Evolves(w, w') && Evolves(w', w'')
    ensures w.log <= w'.log <= w''.log
  {}

  function Prefixes(all: seq<Merkle.Bytes>): seq<seq<Merkle.Bytes>> {
    seq(|all| + 1, i requires 0 <= i <= |all| => all[..i])
  }

  lemma PrefixesAreARun(all: seq<Merkle.Bytes>)
    ensures Log.LogRun(Prefixes(all))
  {
    var states := Prefixes(all);
    assert states[0] == [];
    forall i | 0 < i < |states|
      ensures |states[i]| == |states[i - 1]| + 1 && states[i - 1] == states[i][..|states[i - 1]|]
    {
    }
  }
}
