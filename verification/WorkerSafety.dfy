/** What holds at every point of every interleaving of the edge deployment. */
module WorkerSafety {
  import opened Options
  import opened Lists
  import opened Succession
  import opened Worker

  // ---------------------------------------------------------------- the table

  predicate Retired(row: Row) {
    row.revokedAt.Some? || row.succeededBy.Some?
  }

  ghost predicate AtMostOne(row: Row) {
    (row.pending.Some? ==> !Retired(row)) && (row.revokedAt.Some? ==> row.succeededBy.None?)
  }

  function Links(rows: Table): SuccMap {
    map p | p in rows && rows[p].succeededBy.Some? :: rows[p].succeededBy.value
  }

  /** The two rows of every completed succession name each other, and the profile was handed on. */
  ghost predicate LinksMatch(rows: Table) {
    && (forall p {:trigger rows[p].succeededBy.value} | p in rows && rows[p].succeededBy.Some? ::
          && rows[p].succeededBy.value in rows
          && rows[rows[p].succeededBy.value].predecessor == Some(p)
          && rows[rows[p].succeededBy.value].profile == rows[p].profile)
    && (forall s {:trigger rows[s].predecessor.value} | s in rows && rows[s].predecessor.Some? ::
          rows[s].predecessor.value in rows && rows[rows[s].predecessor.value].succeededBy == Some(s))
  }

  ghost predicate RowsOk(rows: Table) {
    && (forall id | id in rows :: AtMostOne(rows[id]))
    && LinksMatch(rows)
    && Acyclic(Links(rows))
  }

  lemma LinksAreChains(rows: Table)
    requires RowsOk(rows)
    ensures Chains(Links(rows))
  {
    var m := Links(rows);
    forall x, y | x in m && y in m && m[x] == m[y]
      ensures x == y
    {
      assert rows[m[x]].predecessor == Some(x);
      assert rows[m[y]].predecessor == Some(y);
    }
  }

  /** No row disappears, a retired row is frozen, profile and predecessor are never overwritten. */
  ghost predicate RowsEvolve(before: Table, after: Table) {
    forall id | id in before ::
      && id in after
      && after[id].profile == before[id].profile
      && after[id].predecessor == before[id].predecessor
      && (Retired(before[id]) ==> after[id] == before[id])
  }

  lemma RowsEvolveTransitive(a: Table, b: Table, c: Table)
    requires RowsEvolve(a, b) && RowsEvolve(b, c)
    ensures RowsEvolve(a, c)
  {
    forall id | id in a
      ensures id in c && c[id].profile == a[id].profile && c[id].predecessor == a[id].predecessor
      ensures Retired(a[id]) ==> c[id] == a[id]
    {
      assert id in b;
    }
  }

  lemma InsertKeeps(rows: Table, id: Id, profile: Profile)
    requires RowsOk(rows) && InsertAgent(rows, id, profile).Some?
    ensures var rows' := InsertAgent(rows, id, profile).value; RowsOk(rows') && RowsEvolve(rows, rows')
  {
    assert Links(InsertAgent(rows, id, profile).value) == Links(rows);
  }

  /** Writes that only touch the pending and revoked columns of a live row. */
  lemma UpdateKeeps(rows: Table, id: Id, row: Row)
    requires RowsOk(rows) && id in rows && !Retired(rows[id])
    requires AtMostOne(row) && row.succeededBy.None? && row.profile == rows[id].profile
    requires row.predecessor == rows[id].predecessor
    ensures RowsOk(rows[id := row]) && RowsEvolve(rows, rows[id := row])
  {
    assert Links(rows[id := row]) == Links(rows);
  }

  /** The activation batch adds a link only to an ID without a row; otherwise it changes nothing. */
  lemma BatchKeeps(rows: Table, due: DueRow)
    requires RowsOk(rows) && due.id in rows && rows[due.id].profile == due.profile
    ensures var (outcome, rows') := ActivateBatch(rows, due);
      && RowsOk(rows') && RowsEvolve(rows, rows')
      && (outcome != Activated ==> rows' == rows)
      && (outcome == Activated <==> StillPending(rows, due) && due.pending.successor !in rows)
  {
    var p, s := due.id, due.pending.successor;
    if StillPending(rows, due) && s !in rows {
      var rows' := ActivateBatch(rows, due).1;
      assert AtMostOne(rows[p]);
      assert Links(rows') == Links(rows)[p := s];
      assert FreshLink(Links(rows), p, s);
      LinksAreChains(rows);
      ChainsExtend(Links(rows), p, s);
    }
  }

  // ---------------------------------------------------------------- what requests in progress hold

  /** Rows read earlier may be stale, but their IDs exist and their profiles are still right. */
  predicate LoopKnown(rows: Table, loop: List<DueRow>) {
    loop.Cons? ==> loop.head.id in rows && rows[loop.head.id].profile == loop.head.profile && LoopKnown(rows, loop.tail)
  }

  lemma {:induction false} LoopStaysKnown(rows: Table, rows': Table, loop: List<DueRow>)
    requires LoopKnown(rows, loop) && RowsEvolve(rows, rows')
    ensures LoopKnown(rows', loop)
  {
    if loop.Cons? {
      LoopStaysKnown(rows, rows', loop.tail);
    }
  }

  lemma {:induction false} DueRowsKnown(rows: Table, now: Time, loop: List<DueRow>)
    requires AllDue(rows, now, loop)
    ensures LoopKnown(rows, loop)
  {
    if loop.Cons? {
      DueRowsKnown(rows, now, loop.tail);
    }
  }

  ghost predicate LoopsKnown(rows: Table, loops: seq<List<DueRow>>) {
    forall i | 0 <= i < |loops| :: LoopKnown(rows, loops[i])
  }

  lemma LoopsStayKnown(rows: Table, rows': Table, loops: seq<List<DueRow>>)
    requires LoopsKnown(rows, loops) && RowsEvolve(rows, rows')
    ensures LoopsKnown(rows', loops)
  {
    forall i | 0 <= i < |loops|
      ensures LoopKnown(rows', loops[i])
    {
      LoopStaysKnown(rows, rows', loops[i]);
    }
  }

  // ---------------------------------------------------------------- accounts

  function Bit(b: bool): nat {
    if b then 1 else 0
  }

  predicate Awaits(rows: Table, p: Id, s: Id) {
    p in rows && rows[p].pending.Some? && rows[p].pending.value.successor == s
  }

  predicate Handed(rows: Table, p: Id, s: Id) {
    p in rows && rows[p].succeededBy == Some(s)
  }

  predicate RevokeFound(revokes: map<Id, Revocation>, p: Id, s: Id) {
    p in revokes && revokes[p].found == Some(s)
  }

  predicate RevokeClaimed(revokes: map<Id, Revocation>, p: Id, s: Id) {
    p in revokes && revokes[p].before == Some(s)
  }

  /** Each recorded request of p to s was activated, abandoned, cancelled by revocation or is the
      one pending now; p was handed to s exactly when an activation did it, and at most once. */
  ghost predicate Balanced(rows: Table, made: multiset<Event>, revokes: map<Id, Revocation>, p: Id, s: Id) {
    && made[Requested(p, s)] == made[HandedOver(p, s)] + made[Abandoned(p, s)] + Bit(RevokeFound(revokes, p, s))
        + Bit(Awaits(rows, p, s))
    && made[HandedOver(p, s)] == Bit(Handed(rows, p, s))
  }

  ghost predicate RevokesMatch(rows: Table, revokes: map<Id, Revocation>) {
    forall p :: p in revokes <==> p in rows && rows[p].revokedAt.Some?
  }

  /** The entry is in the log or about to be appended by exactly this many requests. */
  ghost function Written(st: State, e: Entry): nat {
    multiset(st.log)[e] + multiset(st.pcs)[Appending(e)]
  }

  ghost predicate Logged(st: State, p: Id, s: Id) {
    && Written(st, SuccessionPending(p, s)) == st.made[Requested(p, s)]
    && Written(st, AgentSucceeded(p, s)) == st.made[HandedOver(p, s)]
    && Written(st, SuccessionCancelled(p, s)) == st.made[Abandoned(p, s)] + Bit(RevokeClaimed(st.revokes, p, s))
  }

  ghost predicate Inv(st: State) {
    && |st.pcs| == |st.loops|
    && RowsOk(st.rows)
    && LoopsKnown(st.rows, st.loops)
    && RevokesMatch(st.rows, st.revokes)
    && (forall p, s :: Balanced(st.rows, st.made, st.revokes, p, s))
    && (forall p, s :: Logged(st, p, s))
  }

  // ---------------------------------------------------------------- one step

  lemma {:induction false} StepRows(st: State, i: nat, x: Input)
    requires Enabled(st, i, x) && RowsOk(st.rows) && LoopsKnown(st.rows, st.loops)
    ensures RowsOk(Next(st, i, x).rows) && RowsEvolve(st.rows, Next(st, i, x).rows)
  {
    hide RowsOk, RowsEvolve, LoopKnown, ActivateBatch;
    var rows := st.rows;
    NothingChanges(rows);
    match st.pcs[i]
    case RegisterInsert(id, profile) =>
      if InsertAgent(rows, id, profile).Some? {
        InsertKeeps(rows, id, profile);
      }
    case RevokeWrite(id, before) =>
      if RevokeIfActive(rows, id, x.now).Some? {
        UpdateKeeps(rows, id, rows[id].(revokedAt := Some(x.now), pending := None));
      }
    case RequestWrite(p, s) =>
      if RequestIfIdle(rows, p, Pending(s, x.now + SUCCESSION_WINDOW)).Some? {
        UpdateKeeps(rows, p, rows[p].(pending := Some(Pending(s, x.now + SUCCESSION_WINDOW))));
      }
    case AbandonWrite(due) =>
      if Abandon(rows, due.id, due.pending.successor).Some? {
        PendingIsLive(rows, due.id);
        UpdateKeeps(rows, due.id, rows[due.id].(pending := None));
      }
    case NextDue =>
      if st.loops[i].Cons? {
        HeadKnown(rows, st.loops[i]);
        BatchKeeps(rows, st.loops[i].head);
      }
    case _ =>
  }

  lemma NothingChanges(rows: Table)
    ensures RowsEvolve(rows, rows)
  {}

  lemma PendingIsLive(rows: Table, id: Id)
    requires RowsOk(rows) && id in rows && rows[id].pending.Some?
    ensures !Retired(rows[id])
  {
    assert AtMostOne(rows[id]);
  }

  lemma HeadKnown(rows: Table, loop: List<DueRow>)
    requires LoopKnown(rows, loop) && loop.Cons?
    ensures loop.head.id in rows && rows[loop.head.id].profile == loop.head.profile && LoopKnown(rows, loop.tail)
  {}

  lemma StepLoops(st: State, i: nat, x: Input)
    requires Enabled(st, i, x) && RowsOk(st.rows) && LoopsKnown(st.rows, st.loops)
    ensures LoopsKnown(Next(st, i, x).rows, Next(st, i, x).loops)
  {
    hide RowsOk, RowsEvolve, LoopKnown, ActivateBatch;
    StepRows(st, i, x);
    LoopsStayKnown(st.rows, Next(st, i, x).rows, st.loops);
    if st.pcs[i].DueQuery? {
      DueRowsKnown(st.rows, x.now, x.due);
    } else if st.loops[i].Cons? {
      HeadKnown(Next(st, i, x).rows, st.loops[i]);
    }
  }

  /** The batch, row by row. */
  lemma BatchWrites(rows: Table, due: DueRow)
    requires RowsOk(rows) && due.id in rows && rows[due.id].profile == due.profile
    ensures var (outcome, rows') := ActivateBatch(rows, due);
      && (outcome != Activated ==> rows' == rows)
      && (outcome == Activated ==>
            && rows[due.id].pending == Some(due.pending)
            && due.pending.successor !in rows
            && rows' == rows[due.id := MarkSucceeded(rows[due.id], due.pending)][
                          due.pending.successor := Row(due.profile, None, None, None, None, Some(due.id))])
  {
    BatchKeeps(rows, due);
  }

  lemma RevokeBalanced(st: State, i: nat, x: Input, p: Id, s: Id)
    requires Enabled(st, i, x) && st.pcs[i].RevokeWrite? && RevokesMatch(st.rows, st.revokes)
    requires Balanced(st.rows, st.made, st.revokes, p, s)
    ensures var st' := Next(st, i, x); Balanced(st'.rows, st'.made, st'.revokes, p, s)
  {}

  lemma BatchBalanced(st: State, i: nat, x: Input, p: Id, s: Id)
    requires Enabled(st, i, x) && st.pcs[i].NextDue? && RowsOk(st.rows) && LoopsKnown(st.rows, st.loops)
    requires Balanced(st.rows, st.made, st.revokes, p, s)
    ensures var st' := Next(st, i, x); Balanced(st'.rows, st'.made, st'.revokes, p, s)
  {
    hide LoopKnown, LinksMatch, Acyclic, ActivateBatch;
    if st.loops[i].Cons? {
      HeadKnown(st.rows, st.loops[i]);
      BatchWrites(st.rows, st.loops[i].head);
      assert AtMostOne(st.rows[st.loops[i].head.id]);
    }
  }

  lemma RequestBalanced(st: State, i: nat, x: Input, p: Id, s: Id)
    requires Enabled(st, i, x) && st.pcs[i].RequestWrite?
    requires Balanced(st.rows, st.made, st.revokes, p, s)
    ensures var st' := Next(st, i, x); Balanced(st'.rows, st'.made, st'.revokes, p, s)
  {}

  lemma AbandonBalanced(st: State, i: nat, x: Input, p: Id, s: Id)
    requires Enabled(st, i, x) && st.pcs[i].AbandonWrite?
    requires Balanced(st.rows, st.made, st.revokes, p, s)
    ensures var st' := Next(st, i, x); Balanced(st'.rows, st'.made, st'.revokes, p, s)
  {}

  /** Steps that record nothing: they read, append, or insert a row without a succession. */
  predicate Quiet(pc: Pc) {
    !pc.RevokeWrite? && !pc.RequestWrite? && !pc.NextDue? && !pc.AbandonWrite?
  }

  lemma QuietStep(st: State, i: nat, x: Input)
    requires Enabled(st, i, x) && Quiet(st.pcs[i])
    ensures var st' := Next(st, i, x);
      && st'.made == st.made && st'.revokes == st.revokes && !st'.pcs[i].Appending?
      && (st.pcs[i].RegisterInsert? || st'.rows == st.rows)
  {}

  lemma QuietBalanced(st: State, i: nat, x: Input, p: Id, s: Id)
    requires Enabled(st, i, x) && Quiet(st.pcs[i])
    requires Balanced(st.rows, st.made, st.revokes, p, s)
    ensures var st' := Next(st, i, x); Balanced(st'.rows, st'.made, st'.revokes, p, s)
  {
    if !st.pcs[i].RegisterInsert? {
      hide Next;
      QuietStep(st, i, x);
    }
  }

  lemma {:induction false} StepBalanced(st: State, i: nat, x: Input, p: Id, s: Id)
    requires Enabled(st, i, x) && RowsOk(st.rows) && LoopsKnown(st.rows, st.loops) && RevokesMatch(st.rows, st.revokes)
    requires Balanced(st.rows, st.made, st.revokes, p, s)
    ensures var st' := Next(st, i, x); Balanced(st'.rows, st'.made, st'.revokes, p, s)
  {
    hide Balanced, Next, RowsOk, LoopsKnown, RevokesMatch;
    if st.pcs[i].RevokeWrite? {
      RevokeBalanced(st, i, x, p, s);
    } else if st.pcs[i].NextDue? {
      BatchBalanced(st, i, x, p, s);
    } else if st.pcs[i].RequestWrite? {
      RequestBalanced(st, i, x, p, s);
    } else if st.pcs[i].AbandonWrite? {
      AbandonBalanced(st, i, x, p, s);
    } else {
      QuietBalanced(st, i, x, p, s);
    }
  }

  lemma RevokeKeepsRevokes(st: State, i: nat, x: Input)
    requires Enabled(st, i, x) && (st.pcs[i].RevokeWrite? || st.pcs[i].RegisterInsert?)
    requires RevokesMatch(st.rows, st.revokes)
    ensures RevokesMatch(Next(st, i, x).rows, Next(st, i, x).revokes)
  {}

  lemma PendingWritesKeepRevokes(st: State, i: nat, x: Input)
    requires Enabled(st, i, x) && (st.pcs[i].RequestWrite? || st.pcs[i].AbandonWrite?)
    requires RevokesMatch(st.rows, st.revokes)
    ensures RevokesMatch(Next(st, i, x).rows, Next(st, i, x).revokes)
  {}

  lemma BatchKeepsRevokes(st: State, i: nat, x: Input)
    requires Enabled(st, i, x) && st.pcs[i].NextDue? && RowsOk(st.rows) && LoopsKnown(st.rows, st.loops)
    requires RevokesMatch(st.rows, st.revokes)
    ensures RevokesMatch(Next(st, i, x).rows, Next(st, i, x).revokes)
  {
    hide LoopKnown, RowsOk, ActivateBatch;
    if st.loops[i].Cons? {
      HeadKnown(st.rows, st.loops[i]);
      BatchWrites(st.rows, st.loops[i].head);
    }
  }

  lemma {:induction false} StepRevokes(st: State, i: nat, x: Input)
    requires Enabled(st, i, x) && RowsOk(st.rows) && LoopsKnown(st.rows, st.loops) && RevokesMatch(st.rows, st.revokes)
    ensures RevokesMatch(Next(st, i, x).rows, Next(st, i, x).revokes)
  {
    hide Next, RevokesMatch, RowsOk, LoopsKnown;
    if st.pcs[i].RevokeWrite? || st.pcs[i].RegisterInsert? {
      RevokeKeepsRevokes(st, i, x);
    } else if st.pcs[i].NextDue? {
      BatchKeepsRevokes(st, i, x);
    } else if Quiet(st.pcs[i]) {
      QuietStep(st, i, x);
    } else {
      PendingWritesKeepRevokes(st, i, x);
    }
  }

  lemma WrittenAfter(st: State, st': State, i: nat, e: Entry)
    requires i < |st.pcs| == |st'.pcs| && st'.pcs == st.pcs[i := st'.pcs[i]]
    requires st'.log == if st.pcs[i].Appending? then st.log + [st.pcs[i].entry] else st.log
    ensures Written(st', e) == Written(st, e) + Bit(st'.pcs[i] == Appending(e))
  {
    assert multiset(st.pcs[i := st'.pcs[i]]) == multiset(st.pcs) - multiset{st.pcs[i]} + multiset{st'.pcs[i]};
    assert st.pcs[i] in multiset(st.pcs);
    if st.pcs[i].Appending? {
      assert multiset(st.log + [st.pcs[i].entry]) == multiset(st.log) + multiset{st.pcs[i].entry};
    }
  }

  /** What a step records is what it is about to append. */
  ghost predicate Recorded(st: State, st': State, pc: Pc, p: Id, s: Id) {
    && st'.made[Requested(p, s)] == st.made[Requested(p, s)] + Bit(pc == Appending(SuccessionPending(p, s)))
    && st'.made[HandedOver(p, s)] == st.made[HandedOver(p, s)] + Bit(pc == Appending(AgentSucceeded(p, s)))
    && st'.made[Abandoned(p, s)] + Bit(RevokeClaimed(st'.revokes, p, s))
       == st.made[Abandoned(p, s)] + Bit(RevokeClaimed(st.revokes, p, s))
           + Bit(pc == Appending(SuccessionCancelled(p, s)))
  }

  lemma RevokeRecorded(st: State, i: nat, x: Input, p: Id, s: Id)
    requires Enabled(st, i, x) && st.pcs[i].RevokeWrite? && RevokesMatch(st.rows, st.revokes)
    ensures Recorded(st, Next(st, i, x), Next(st, i, x).pcs[i], p, s)
  {}

  lemma BatchRecorded(st: State, i: nat, x: Input, p: Id, s: Id)
    requires Enabled(st, i, x) && st.pcs[i].NextDue?
    ensures Recorded(st, Next(st, i, x), Next(st, i, x).pcs[i], p, s)
  {
    hide ActivateBatch;
  }

  lemma RequestRecorded(st: State, i: nat, x: Input, p: Id, s: Id)
    requires Enabled(st, i, x) && (st.pcs[i].RequestWrite? || st.pcs[i].AbandonWrite?)
    ensures Recorded(st, Next(st, i, x), Next(st, i, x).pcs[i], p, s)
  {}

  lemma {:induction false} QuietRecorded(st: State, i: nat, x: Input, p: Id, s: Id)
    requires Enabled(st, i, x) && Quiet(st.pcs[i])
    ensures Recorded(st, Next(st, i, x), Next(st, i, x).pcs[i], p, s)
  {
    hide Next;
    QuietStep(st, i, x);
  }

  lemma StepShape(st: State, i: nat, x: Input)
    requires Enabled(st, i, x)
    ensures var st' := Next(st, i, x);
      && |st'.pcs| == |st'.loops| == |st.pcs| && st'.pcs == st.pcs[i := st'.pcs[i]]
      && st'.log == if st.pcs[i].Appending? then st.log + [st.pcs[i].entry] else st.log
  {
    hide ActivateBatch;
  }

  lemma {:induction false} StepLogged(st: State, i: nat, x: Input, p: Id, s: Id)
    requires Enabled(st, i, x) && RevokesMatch(st.rows, st.revokes) && Logged(st, p, s)
    ensures Logged(Next(st, i, x), p, s)
  {
    hide Next, Written, RevokesMatch;
    var st' := Next(st, i, x);
    StepShape(st, i, x);
    if st.pcs[i].RevokeWrite? {
      RevokeRecorded(st, i, x, p, s);
    } else if st.pcs[i].NextDue? {
      BatchRecorded(st, i, x, p, s);
    } else if Quiet(st.pcs[i]) {
      QuietRecorded(st, i, x, p, s);
    } else {
      RequestRecorded(st, i, x, p, s);
    }
    WrittenAfter(st, st', i, SuccessionPending(p, s));
    WrittenAfter(st, st', i, AgentSucceeded(p, s));
    WrittenAfter(st, st', i, SuccessionCancelled(p, s));
  }

  ghost predicate Evolves(st: State, st': State) {
    RowsEvolve(st.rows, st'.rows) && st.log <= st'.log
  }

  lemma {:induction false} StepInv(st: State, i: nat, x: Input)
    requires Inv(st) && Enabled(st, i, x)
    ensures Inv(Next(st, i, x)) && Evolves(st, Next(st, i, x))
  {
    hide Next, LoopKnown, RowsOk, RowsEvolve, ActivateBatch, LoopsKnown, RevokesMatch, Balanced, Logged;
    StepShape(st, i, x);
    StepRows(st, i, x);
    StepLoops(st, i, x);
    StepRevokes(st, i, x);
    forall p, s
      ensures Balanced(Next(st, i, x).rows, Next(st, i, x).made, Next(st, i, x).revokes, p, s)
      ensures Logged(Next(st, i, x), p, s)
    {
      StepBalanced(st, i, x, p, s);
      StepLogged(st, i, x, p, s);
    }
  }

  lemma EvolvesTransitive(a: State, b: State, c: State)
    requires Evolves(a, b) && Evolves(b, c)
    ensures Evolves(a, c)
  {
    RowsEvolveTransitive(a.rows, b.rows, c.rows);
  }

  /** Every interleaving keeps the invariant and only lets the table and the log evolve. */
  lemma {:induction false} InterleavingInv(st: State, moves: List<Move>, st': State)
    requires Inv(st) && Interleaving(st, moves, st')
    ensures Inv(st') && Evolves(st, st')
    decreases moves
  {
    hide Inv, Evolves;
    if moves.Nil? {
      SelfEvolves(st);
    } else {
      var m := moves.head;
      StepInv(st, m.slot, m.input);
      InterleavingInv(Next(st, m.slot, m.input), moves.tail, st');
      EvolvesTransitive(st, Next(st, m.slot, m.input), st');
    }
  }

  lemma SelfEvolves(st: State)
    ensures Evolves(st, st)
  {}

  lemma FreshInv(slots: nat)
    ensures Inv(Fresh(slots))
  {
    var st := Fresh(slots);
    assert Links(st.rows) == map[];
    assert Ranked(Links(st.rows), x => 0);
    forall p, s
      ensures Balanced(st.rows, st.made, st.revokes, p, s) && Logged(st, p, s)
    {
      assert forall e :: Appending(e) !in st.pcs;
    }
  }

  // ---------------------------------------------------------------- what follows for every interleaving

  /** Some interleaving of steps goes from st to st'. */
  ghost predicate Leads(st: State, st': State) {
    exists moves :: Interleaving(st, moves, st')
  }

  ghost predicate Reachable(st: State) {
    exists slots: nat :: Leads(Fresh(slots), st)
  }

  lemma ReachableInv(st: State)
    requires Reachable(st)
    ensures Inv(st)
  {
    hide Inv;
    var slots: nat :| Leads(Fresh(slots), st);
    var moves :| Interleaving(Fresh(slots), moves, st);
    FreshInv(slots);
    InterleavingInv(Fresh(slots), moves, st);
  }

  /** At every point of every interleaving the successions form disjoint finite simple chains, even
      when several pending requests race for one successor: nobody gets two predecessors. */
  lemma NoTwoPredecessors(st: State)
    requires Reachable(st)
    ensures Chains(Links(st.rows))
    ensures forall id | id in st.rows :: AtMostOne(st.rows[id])
    ensures forall p, q | p in st.rows && q in st.rows && st.rows[p].succeededBy.Some?
      && st.rows[q].succeededBy == st.rows[p].succeededBy :: p == q
  {
    ReachableInv(st);
    LinksAreChains(st.rows);
    forall p, q | p in st.rows && q in st.rows && st.rows[p].succeededBy.Some?
        && st.rows[q].succeededBy == st.rows[p].succeededBy
      ensures p == q
    {
      assert st.rows[st.rows[p].succeededBy.value].predecessor == Some(p);
      assert st.rows[st.rows[q].succeededBy.value].predecessor == Some(q);
    }
  }

  /** No registered record is ever overwritten, whatever runs in between; a successor starts with
      its predecessor's profile. */
  lemma NothingOverwritten(st: State, moves: List<Move>, st': State, id: Id)
    requires Reachable(st) && Interleaving(st, moves, st') && id in st.rows
    ensures id in st'.rows && st'.rows[id].profile == st.rows[id].profile
    ensures st'.rows[id].predecessor == st.rows[id].predecessor
    ensures Retired(st.rows[id]) ==> st'.rows[id] == st.rows[id]
    ensures st.rows[id].predecessor.Some? ==>
      st.rows[id].predecessor.value in st.rows && st.rows[st.rows[id].predecessor.value].profile == st.rows[id].profile
    ensures st.log <= st'.log
  {
    hide Inv, RowsOk;
    ReachableInv(st);
    InterleavingInv(st, moves, st');
    if st.rows[id].predecessor.Some? {
      ProfileInherited(st, id);
    }
  }

  lemma ProfileInherited(st: State, id: Id)
    requires Inv(st) && id in st.rows && st.rows[id].predecessor.Some?
    ensures st.rows[id].predecessor.value in st.rows
    ensures st.rows[st.rows[id].predecessor.value].profile == st.rows[id].profile
  {
    var p := st.rows[id].predecessor.value;
    assert p in st.rows && st.rows[p].succeededBy == Some(id);
  }

  /** Of the requests of p to be succeeded by s that were granted, all but the one now pending
      have left that state in exactly one way, and at most one by activation. */
  lemma OneWayOut(st: State, p: Id, s: Id)
    requires Reachable(st)
    ensures st.made[Requested(p, s)] - Bit(Awaits(st.rows, p, s))
         == st.made[HandedOver(p, s)] + st.made[Abandoned(p, s)] + Bit(RevokeFound(st.revokes, p, s))
    ensures st.made[HandedOver(p, s)] == Bit(Handed(st.rows, p, s))
  {
    ReachableInv(st);
    assert Balanced(st.rows, st.made, st.revokes, p, s);
  }

  /** Some step of the interleaving was the verified start of p's request to be succeeded by s. */
  ghost predicate VerifiedStart(st: State, moves: List<Move>, p: Id, s: Id)
    decreases moves
  {
    match moves
    case Nil => false
    case Cons(m, rest) =>
      && m.slot < |st.pcs| == |st.loops|
      && ((st.pcs[m.slot] == RequestRead(p, s) && m.input.verified && p in st.rows && p != s)
          || VerifiedStart(Next(st, m.slot, m.input), rest, p, s))
  }

  /** A request of p for s is past its verification, or was granted. */
  ghost predicate Underway(st: State, p: Id, s: Id) {
    || st.made[Requested(p, s)] > 0
    || exists i | 0 <= i < |st.pcs| :: st.pcs[i] in {RequestLookup(p, s), RequestNamed(p, s), RequestWrite(p, s)}
  }

  lemma {:induction false} StepUnderway(st: State, i: nat, x: Input, p: Id, s: Id)
    requires Enabled(st, i, x) && Underway(Next(st, i, x), p, s)
    ensures Underway(st, p, s) || (st.pcs[i] == RequestRead(p, s) && x.verified && p in st.rows && p != s)
  {
    hide ActivateBatch;
    var st' := Next(st, i, x);
    StepShape(st, i, x);
    if st'.made[Requested(p, s)] == 0 {
      var j :| 0 <= j < |st'.pcs| && st'.pcs[j] in {RequestLookup(p, s), RequestNamed(p, s), RequestWrite(p, s)};
      assert j != i ==> st.pcs[j] == st'.pcs[j];
    }
    assert st.pcs[i] in st.pcs;
  }

  lemma {:induction false} InterleavingUnderway(st: State, moves: List<Move>, st': State, p: Id, s: Id)
    requires Interleaving(st, moves, st') && Underway(st', p, s)
    ensures Underway(st, p, s) || VerifiedStart(st, moves, p, s)
    decreases moves
  {
    hide Next, Underway;
    if moves.Cons? {
      var m := moves.head;
      InterleavingUnderway(Next(st, m.slot, m.input), moves.tail, st', p, s);
      if Underway(Next(st, m.slot, m.input), p, s) {
        StepUnderway(st, m.slot, m.input, p, s);
      }
    }
  }

  /** Under every interleaving, whoever is succeeded or waits to be had its request verified: both
      keys signed it. */
  lemma EverySuccessionWasVerified(slots: nat, moves: List<Move>, st: State, p: Id, s: Id)
    requires Interleaving(Fresh(slots), moves, st) && (Awaits(st.rows, p, s) || Handed(st.rows, p, s))
    ensures VerifiedStart(Fresh(slots), moves, p, s)
  {
    hide Inv, Interleaving, VerifiedStart;
    assert Leads(Fresh(slots), st);
    assert Reachable(st);
    OneWayOut(st, p, s);
    InterleavingUnderway(Fresh(slots), moves, st, p, s);
  }

  /** No request is between its write and its log append. */
  ghost predicate Quiescent(st: State) {
    forall e :: Appending(e) !in st.pcs
  }

  /** Whenever no append is outstanding, the log holds one entry per granted request and one per
      activation. */
  lemma LogIsComplete(st: State, p: Id, s: Id)
    requires Reachable(st) && Quiescent(st)
    ensures multiset(st.log)[SuccessionPending(p, s)] == st.made[Requested(p, s)]
    ensures multiset(st.log)[AgentSucceeded(p, s)] == Bit(Handed(st.rows, p, s))
  {
    ReachableInv(st);
    assert Balanced(st.rows, st.made, st.revokes, p, s) && Logged(st, p, s);
  }

  /** The successions of p to s that were really cancelled. */
  ghost function CancelledCount(st: State, p: Id, s: Id): nat {
    st.made[Abandoned(p, s)] + Bit(RevokeFound(st.revokes, p, s))
  }

  /** The log names each cancelled succession of p as often as it was really cancelled. */
  ghost predicate CancellationsRight(st: State, p: Id) {
    forall s :: multiset(st.log)[SuccessionCancelled(p, s)] == CancelledCount(st, p, s)
  }

  lemma CancellationsRightMeans(st: State, p: Id)
    requires Inv(st) && Quiescent(st)
    ensures CancellationsRight(st, p) <==> (p in st.revokes ==> st.revokes[p].before == st.revokes[p].found)
  {
    forall s
      ensures multiset(st.log)[SuccessionCancelled(p, s)]
          == st.made[Abandoned(p, s)] + Bit(RevokeClaimed(st.revokes, p, s))
    {
      assert Logged(st, p, s);
    }
    if p in st.revokes && st.revokes[p].before != st.revokes[p].found {
      var s := if st.revokes[p].before.Some? then st.revokes[p].before.value else st.revokes[p].found.value;
      assert multiset(st.log)[SuccessionCancelled(p, s)] != CancelledCount(st, p, s);
    }
  }

  /** The cancellation entries of an ID that was never revoked are right. */
  lemma UnrevokedCancellationsRight(st: State, p: Id)
    requires Reachable(st) && Quiescent(st) && (p in st.rows ==> st.rows[p].revokedAt.None?)
    ensures CancellationsRight(st, p)
  {
    ReachableInv(st);
    CancellationsRightMeans(st, p);
  }

  /** Slot i is about to make the write of a revocation of p, and the write will succeed. */
  predicate WillRevoke(st: State, i: nat, x: Input, p: Id) {
    && i < |st.pcs| == |st.loops| && st.pcs[i].RevokeWrite? && st.pcs[i].id == p
    && RevokeIfActive(st.rows, p, x.now).Some?
  }

  /** The guard that decides: at the write, the succession read before is the one in the row. */
  predicate ReadIsCurrent(st: State, i: nat, p: Id)
    requires i < |st.pcs| && st.pcs[i].RevokeWrite? && p in st.rows
  {
    SuccessorIn(st.pcs[i].before) == SuccessorIn(st.rows[p].pending)
  }

  lemma StepKeepsRevocation(st: State, i: nat, x: Input, p: Id)
    requires Inv(st) && Enabled(st, i, x) && p in st.revokes
    ensures p in Next(st, i, x).revokes && Next(st, i, x).revokes[p] == st.revokes[p]
  {
    hide RowsOk, LoopsKnown, Balanced, Logged, ActivateBatch;
    assert p in st.rows && st.rows[p].revokedAt.Some?;
  }

  /** What a revocation had read and what it cancelled stays on record: nobody is revoked twice. */
  lemma {:induction false} RevocationKept(st: State, moves: List<Move>, st': State, p: Id)
    requires Inv(st) && Interleaving(st, moves, st') && p in st.revokes
    ensures Inv(st') && p in st'.revokes && st'.revokes[p] == st.revokes[p]
    decreases moves
  {
    hide Inv, Next;
    if moves.Cons? {
      StepInv(st, moves.head.slot, moves.head.input);
      StepKeepsRevocation(st, moves.head.slot, moves.head.input, p);
      RevocationKept(Next(st, moves.head.slot, moves.head.input), moves.tail, st', p);
    }
  }

  /** Whatever runs before and after, once every append is made the cancellation entries of a
      revoked p are right if and only if its revocation's read was current at its write. */
  lemma {:induction false} CancelledEntriesExact(st: State, i: nat, x: Input, p: Id, moves: List<Move>, st': State)
    requires Reachable(st) && WillRevoke(st, i, x, p)
    requires Interleaving(Next(st, i, x), moves, st') && Quiescent(st')
    ensures CancellationsRight(st', p) <==> ReadIsCurrent(st, i, p)
  {
    ReachableInv(st);
    StepInv(st, i, x);
    hide Inv, Quiescent;
    RevocationKept(Next(st, i, x), moves, st', p);
    CancellationsRightMeans(st', p);
  }

  /** The move requests or abandons a succession of p. */
  predicate MovesPending(st: State, m: Move, p: Id)
    requires m.slot < |st.pcs| == |st.loops|
  {
    var pc := st.pcs[m.slot];
    && ((pc.RequestWrite? && pc.id == p) || (pc.AbandonWrite? && pc.due.id == p))
    && Next(st, m.slot, m.input).rows != st.rows
  }

  /** Other slots run, and none of them requests or abandons a succession of p. */
  ghost predicate LeavesPending(st: State, moves: List<Move>, i: nat, p: Id)
    decreases moves
  {
    match moves
    case Nil => true
    case Cons(m, rest) =>
      && m.slot < |st.pcs| == |st.loops| && m.slot != i && !MovesPending(st, m, p)
      && LeavesPending(Next(st, m.slot, m.input), rest, i, p)
  }

  lemma {:induction false} StepLeavesPending(st: State, m: Move, p: Id)
    requires Inv(st) && Enabled(st, m.slot, m.input) && !MovesPending(st, m, p) && p in st.rows
    ensures var rows := Next(st, m.slot, m.input).rows;
      p in rows && (rows[p].pending == st.rows[p].pending || Retired(rows[p]))
  {
    hide RowsOk, Balanced, Logged, RevokesMatch, LoopKnown, ActivateBatch;
    if st.pcs[m.slot].NextDue? && st.loops[m.slot].Cons? {
      HeadKnown(st.rows, st.loops[m.slot]);
      BatchWrites(st.rows, st.loops[m.slot].head);
    }
  }

  lemma {:induction false} MovesLeavePending(st: State, moves: List<Move>, st': State, i: nat, p: Id)
    requires Inv(st) && Interleaving(st, moves, st') && LeavesPending(st, moves, i, p) && p in st.rows
    ensures p in st'.rows && (st'.rows[p].pending == st.rows[p].pending || Retired(st'.rows[p]))
    decreases moves
  {
    hide Inv, Next, Retired, RowsEvolve;
    if moves.Cons? {
      var next := Next(st, moves.head.slot, moves.head.input);
      StepInv(st, moves.head.slot, moves.head.input);
      StepLeavesPending(st, moves.head, p);
      MovesLeavePending(next, moves.tail, st', i, p);
      InterleavingInv(next, moves.tail, st');
      RetiredStays(next.rows, st'.rows, p);
    }
  }

  lemma RetiredStays(before: Table, after: Table, p: Id)
    requires RowsEvolve(before, after) && p in before
    ensures p in after && (Retired(before[p]) ==> Retired(after[p]))
  {}

  lemma {:induction false} MovesLeaveSlot(st: State, moves: List<Move>, st': State, i: nat, p: Id)
    requires Interleaving(st, moves, st') && LeavesPending(st, moves, i, p) && i < |st.pcs|
    ensures i < |st'.pcs| && st'.pcs[i] == st.pcs[i]
    decreases moves
  {
    hide Next;
    if moves.Cons? {
      StepShape(st, moves.head.slot, moves.head.input);
      MovesLeaveSlot(Next(st, moves.head.slot, moves.head.input), moves.tail, st', i, p);
    }
  }

  lemma RevocationReads(st: State, i: nat, x: Input, p: Id)
    requires Enabled(st, i, x) && st.pcs[i] == RevokeRead(p)
    ensures var st' := Next(st, i, x);
      && i < |st'.pcs| && st'.rows == st.rows
      && st'.pcs[i] == if p in st.rows then RevokeWrite(p, st.rows[p].pending) else Idle
  {}

  /** If no other request of p's succession, and no abandonment of it, takes effect between the
      revocation's read and its write, the read is current at the write. */
  lemma UndisturbedRevocationIsCurrent(st: State, i: nat, x: Input, moves: List<Move>, st': State, x': Input, p: Id)
    requires Reachable(st) && Enabled(st, i, x) && st.pcs[i] == RevokeRead(p)
    requires LeavesPending(Next(st, i, x), moves, i, p) && Interleaving(Next(st, i, x), moves, st')
    requires WillRevoke(st', i, x', p)
    ensures ReadIsCurrent(st', i, p)
  {
    hide Inv, Next, LeavesPending, Interleaving;
    ReachableInv(st);
    StepInv(st, i, x);
    StepShape(st, i, x);
    RevocationReads(st, i, x, p);
    MovesLeaveSlot(Next(st, i, x), moves, st', i, p);
    MovesLeavePending(Next(st, i, x), moves, st', i, p);
  }

  // ---------------------------------------------------------------- a revocation that read too early

  lemma OneMove(st: State, slot: nat, start: Pc, next: State, st': State)
    requires slot < |st.pcs| == |st.loops| && !st.pcs[slot].DueQuery?
    requires Next(st, slot, Input(start, true, 0, Nil)) == next && Leads(next, st')
    ensures Leads(st, st')
  {
    var moves :| Interleaving(next, moves, st');
    assert Interleaving(st, Cons(Move(slot, Input(start, true, 0, Nil)), moves), st');
  }

  const REGISTERED := Row(0, None, None, None, None, None)
  const ALIVE: Table := map[1 := REGISTERED]
  const WAITING: Table := map[1 := REGISTERED.(pending := Some(Pending(2, SUCCESSION_WINDOW)))]
  const GONE: Table := map[1 := REGISTERED.(revokedAt := Some(0))]
  const ASKED: seq<Entry> := [SuccessionPending(1, 2)]

  /** Two requests of ID 1: a revocation in slot 0 and a succession request in slot 1. */
  function Raced(rows: Table, log: seq<Entry>, left: Pc, right: Pc, made: multiset<Event>, revokes: map<Id,
      Revocation>): State {
    State(rows, log, [left, right], [Nil, Nil], made, revokes)
  }

  function Before(rows: Table, left: Pc, right: Pc): State {
    Raced(rows, [], left, right, multiset{}, map[])
  }

  function AfterRace(): State {
    Raced(GONE, ASKED, Idle, Idle, multiset{Requested(1, 2)}, map[1 := Revocation(None, Some(2))])
  }

  /** The request writes and appends; then the revocation, which has read before, writes. */
  lemma WritesOfTheRace()
    ensures Leads(Before(ALIVE, RevokeWrite(1, None), RequestWrite(1, 2)), AfterRace())
  {
    var made := multiset{Requested(1, 2)};
    assert Interleaving(AfterRace(), Nil, AfterRace());
    OneMove(Raced(WAITING, ASKED, RevokeWrite(1, None), Idle, made, map[]), 0, Idle, AfterRace(), AfterRace());
    OneMove(Raced(WAITING, [], RevokeWrite(1, None), Appending(SuccessionPending(1, 2)), made, map[]), 1, Idle,
            Raced(WAITING, ASKED, RevokeWrite(1, None), Idle, made, map[]), AfterRace());
    OneMove(Before(ALIVE, RevokeWrite(1, None), RequestWrite(1, 2)), 1, Idle,
            Raced(WAITING, [], RevokeWrite(1, None), Appending(SuccessionPending(1, 2)), made, map[]), AfterRace());
  }

  lemma ReadsOfTheRace()
    ensures Leads(Before(ALIVE, RevokeRead(1), Idle), AfterRace())
  {
    var left := RevokeWrite(1, None);
    WritesOfTheRace();
    OneMove(Before(ALIVE, left, RequestNamed(1, 2)), 1, Idle, Before(ALIVE, left, RequestWrite(1, 2)), AfterRace());
    OneMove(Before(ALIVE, left, RequestLookup(1, 2)), 1, Idle, Before(ALIVE, left, RequestNamed(1, 2)), AfterRace());
    OneMove(Before(ALIVE, left, RequestRead(1, 2)), 1, Idle, Before(ALIVE, left, RequestLookup(1, 2)), AfterRace());
    OneMove(Before(ALIVE, left, Idle), 1, RequestRead(1, 2), Before(ALIVE, left, RequestRead(1, 2)), AfterRace());
    OneMove(Before(ALIVE, RevokeRead(1), Idle), 0, Idle, Before(ALIVE, left, Idle), AfterRace());
  }

  lemma RegistrationBeforeTheRace()
    ensures Leads(Fresh(2), AfterRace())
  {
    ReadsOfTheRace();
    OneMove(Before(ALIVE, Idle, Idle), 0, RevokeRead(1), Before(ALIVE, RevokeRead(1), Idle), AfterRace());
    OneMove(Before(map[], RegisterInsert(1, 0), Idle), 0, Idle, Before(ALIVE, Idle, Idle), AfterRace());
    OneMove(Before(map[], RegisterCheck(1, 0), Idle), 0, Idle, Before(map[], RegisterInsert(1, 0), Idle), AfterRace());
    OneMove(Fresh(2), 0, RegisterCheck(1, 0), Before(map[], RegisterCheck(1, 0), Idle), AfterRace());
  }

  /** A pending succession can be cancelled without its log entry: the revocation reads before the
      request writes, and writes after. */
  lemma StaleRevocationMissesEntry()
    ensures Reachable(AfterRace()) && Quiescent(AfterRace())
    ensures AfterRace().log == [SuccessionPending(1, 2)] && CancelledCount(AfterRace(), 1, 2) == 1
  {
    RegistrationBeforeTheRace();
  }
}
