/** Time and progress on the edge deployment: no succession is completed before its window has
    passed, and a request that starts on the due ones finishes them. */
module WorkerProgress {
  import opened Options
  import opened Lists
  import opened Succession
  import opened Worker
  import opened WorkerSafety
  import P = Parity

  // ---------------------------------------------------------------- the window

  /** Some step queries the due successions at or after t. */
  ghost predicate Queried(st: State, moves: List<Move>, t: Time)
    decreases moves
  {
    match moves
    case Nil => false
    case Cons(m, rest) =>
      && m.slot < |st.pcs| == |st.loops|
      && ((st.pcs[m.slot].DueQuery? && t <= m.input.now) || Queried(Next(st, m.slot, m.input), rest, t))
  }

  /** The next step of the slot writes p's request to be succeeded by s, and the write goes through. */
  predicate Grants(st: State, i: nat, p: Id, s: Id, at: Time) {
    i < |st.pcs| && st.pcs[i] == RequestWrite(p, s) && RequestIfIdle(st.rows, p, Pending(s, at)).Some?
  }

  /** p's request to be succeeded by s was granted, and due successions were queried 72 hours later. */
  ghost predicate WaitedOut(st: State, moves: List<Move>, p: Id, s: Id)
    decreases moves
  {
    match moves
    case Nil => false
    case Cons(m, rest) =>
      && m.slot < |st.pcs| == |st.loops|
      && ((Grants(st, m.slot, p, s, m.input.now + THREE_DAYS)
           && Queried(Next(st, m.slot, m.input), rest, m.input.now + THREE_DAYS))
          || WaitedOut(Next(st, m.slot, m.input), rest, p, s))
  }

  predicate Visits(loop: List<DueRow>, p: Id, s: Id) {
    loop.Cons? && ((loop.head.id == p && loop.head.pending.successor == s) || Visits(loop.tail, p, s))
  }

  /** The succession was completed, or a loop is on its way to it. */
  ghost predicate Committed(st: State, p: Id, s: Id) {
    st.made[HandedOver(p, s)] > 0 || exists i | 0 <= i < |st.loops| :: Visits(st.loops[i], p, s)
  }

  /** p awaits s, and the moves query the due successions once the window has closed. */
  ghost predicate Ripens(st: State, moves: List<Move>, p: Id, s: Id) {
    Awaits(st.rows, p, s) && Queried(st, moves, st.rows[p].pending.value.effectiveAt)
  }

  lemma {:induction false} DueVisits(rows: Table, now: Time, loop: List<DueRow>, p: Id, s: Id)
    requires AllDue(rows, now, loop) && Visits(loop, p, s)
    ensures Awaits(rows, p, s) && rows[p].pending.value.effectiveAt <= now
  {
    if !(loop.head.id == p && loop.head.pending.successor == s) {
      DueVisits(rows, now, loop.tail, p, s);
    }
  }

  /** Only the query puts a succession into a loop, and only the loop completes it. */
  lemma {:induction false} StepCommits(st: State, i: nat, x: Input, p: Id, s: Id)
    requires Enabled(st, i, x) && Committed(Next(st, i, x), p, s)
    ensures Committed(st, p, s) || (st.pcs[i].DueQuery? && Visits(x.due, p, s))
  {
    hide ActivateBatch;
    var st' := Next(st, i, x);
    if st'.made[HandedOver(p, s)] > 0 {
      if st.made[HandedOver(p, s)] == 0 {
        assert Visits(st.loops[i], p, s);
      }
    } else {
      var j :| 0 <= j < |st'.loops| && Visits(st'.loops[j], p, s);
      assert j != i ==> st'.loops[j] == st.loops[j];
      if j == i && !st.pcs[i].DueQuery? {
        assert Visits(st.loops[i], p, s);
      } else if j != i {
        assert Visits(st.loops[j], p, s);
      }
    }
  }

  /** p awaits s already, with the window closing at the same time. */
  predicate AwaitedAt(rows: Table, p: Id, s: Id, at: Time) {
    p in rows && rows[p].pending == Some(Pending(s, at))
  }

  lemma BatchAwaits(st: State, i: nat, x: Input, p: Id, s: Id, at: Time)
    requires Enabled(st, i, x) && st.pcs[i].NextDue? && LoopKnown(st.rows, st.loops[i]) && RowsOk(st.rows)
    requires AwaitedAt(Next(st, i, x).rows, p, s, at)
    ensures AwaitedAt(st.rows, p, s, at)
  {
    hide RowsOk, ActivateBatch, AllDue;
    if st.loops[i].Cons? {
      HeadKnown(st.rows, st.loops[i]);
      BatchWrites(st.rows, st.loops[i].head);
    }
  }

  lemma WriteAwaits(st: State, i: nat, x: Input, p: Id, s: Id, at: Time)
    requires Enabled(st, i, x) && (st.pcs[i].RequestWrite? || st.pcs[i].RegisterInsert? || st.pcs[i].RevokeWrite?)
    requires AwaitedAt(Next(st, i, x).rows, p, s, at)
    ensures AwaitedAt(st.rows, p, s, at) || (Grants(st, i, p, s, at) && at == x.now + THREE_DAYS)
  {
    hide ActivateBatch, AllDue;
  }

  lemma OtherAwaits(st: State, i: nat, x: Input, p: Id, s: Id, at: Time)
    requires Enabled(st, i, x) && !st.pcs[i].NextDue?
    requires !st.pcs[i].RequestWrite? && !st.pcs[i].RegisterInsert? && !st.pcs[i].RevokeWrite?
    requires AwaitedAt(Next(st, i, x).rows, p, s, at)
    ensures AwaitedAt(st.rows, p, s, at)
  {
    hide ActivateBatch, AllDue;
  }

  /** Only a request's write makes p await s, 72 hours before the succession is due. */
  lemma StepAwaits(st: State, i: nat, x: Input, p: Id, s: Id, at: Time)
    requires Enabled(st, i, x) && LoopKnown(st.rows, st.loops[i]) && RowsOk(st.rows)
    requires AwaitedAt(Next(st, i, x).rows, p, s, at)
    ensures AwaitedAt(st.rows, p, s, at) || (Grants(st, i, p, s, at) && at == x.now + THREE_DAYS)
  {
    hide Next, RowsOk, AllDue, AwaitedAt;
    if st.pcs[i].NextDue? {
      BatchAwaits(st, i, x, p, s, at);
    } else if st.pcs[i].RequestWrite? || st.pcs[i].RegisterInsert? || st.pcs[i].RevokeWrite? {
      WriteAwaits(st, i, x, p, s, at);
    } else {
      OtherAwaits(st, i, x, p, s, at);
    }
  }

  /** Whatever runs in between: who is succeeded in the end had been, or was on the way, or waits for
      a query after its window, or has waited it out. */
  lemma {:induction false} InterleavingCommits(st: State, moves: List<Move>, st': State, p: Id, s: Id)
    requires Inv(st) && Interleaving(st, moves, st') && Committed(st', p, s)
    ensures Committed(st, p, s) || Ripens(st, moves, p, s) || WaitedOut(st, moves, p, s)
    decreases moves
  {
    hide Next, Committed, Inv, AllDue;
    if moves.Cons? {
      var m := moves.head;
      var next := Next(st, m.slot, m.input);
      StepInv(st, m.slot, m.input);
      InterleavingCommits(next, moves.tail, st', p, s);
      if Committed(next, p, s) {
        StepCommits(st, m.slot, m.input, p, s);
        if !Committed(st, p, s) {
          DueVisits(st.rows, m.input.now, m.input.due, p, s);
        }
      } else if Ripens(next, moves.tail, p, s) {
        InvParts(st, m.slot);
        StepAwaits(st, m.slot, m.input, p, s, next.rows[p].pending.value.effectiveAt);
      }
    }
  }

  lemma InvParts(st: State, i: nat)
    requires Inv(st) && i < |st.loops|
    ensures RowsOk(st.rows) && LoopKnown(st.rows, st.loops[i])
  {}

  /** Under every interleaving, whoever is succeeded had asked for it in a request granted at least
      72 hours before a later query of the due successions. */
  lemma SuccessionWaitsItsWindow(slots: nat, moves: List<Move>, st: State, p: Id, s: Id)
    requires Interleaving(Fresh(slots), moves, st) && Handed(st.rows, p, s)
    ensures WaitedOut(Fresh(slots), moves, p, s)
  {
    hide Inv, Interleaving, WaitedOut;
    assert Leads(Fresh(slots), st);
    assert Reachable(st);
    OneWayOut(st, p, s);
    FreshInv(slots);
    InterleavingCommits(Fresh(slots), moves, st, p, s);
  }

  // ---------------------------------------------------------------- progress

  /** Every succession due at `now` is in the loop, as it stands in the table. */
  ghost predicate LoopCovers(rows: Table, now: Time, loop: List<DueRow>) {
    forall p | p in rows && rows[p].pending.Some? && rows[p].pending.value.effectiveAt <= now ::
      Carries(loop, p, rows[p].pending.value)
  }

  predicate Carries(loop: List<DueRow>, p: Id, pending: Pending) {
    loop.Cons? && ((loop.head.id == p && loop.head.pending == pending) || Carries(loop.tail, p, pending))
  }

  /** No succession is newly pending, and this one is no longer. */
  ghost predicate Settles(before: Table, after: Table, due: DueRow) {
    forall p | p in after && after[p].pending.Some? ::
      p in before && before[p].pending == after[p].pending && !(p == due.id && after[p].pending.value == due.pending)
  }

  /** The slot stands before the rest of its loop. */
  predicate Before(st: State, i: nat, loop: List<DueRow>) {
    i < |st.pcs| == |st.loops| && st.loops[i] == loop && st.pcs[i] == Resume(loop)
  }

  lemma ActivatedSettles(st: State, i: nat, now: Time, due: DueRow, rest: List<DueRow>)
    requires Inv(st) && Before(st, i, Cons(due, rest)) && ActivateBatch(st.rows, due).0.Activated?
    ensures var end := P.Alone(st, i, 2, now); Before(end, i, rest) && Settles(st.rows, end.rows, due)
  {
    var s1 := P.Step1(st, i, now);
    P.OneStep(st, i, 2, now);
    P.OneStep(s1, i, 1, now);
    InvParts(st, i);
    HeadKnown(st.rows, st.loops[i]);
    BatchWrites(st.rows, due);
    hide ActivateBatch, Inv, RowsOk;
    assert s1.pcs[i] == Appending(AgentSucceeded(due.id, due.pending.successor));
  }

  lemma LostSettles(st: State, i: nat, now: Time, due: DueRow, rest: List<DueRow>)
    requires Inv(st) && Before(st, i, Cons(due, rest)) && ActivateBatch(st.rows, due).0.Lost?
    ensures var end := P.Alone(st, i, 1, now); Before(end, i, rest) && Settles(st.rows, end.rows, due)
  {
    P.OneStep(st, i, 1, now);
    InvParts(st, i);
    HeadKnown(st.rows, st.loops[i]);
    BatchWrites(st.rows, due);
    NotPendingUnlessStill(st.rows, due);
    hide Inv, RowsOk;
  }

  lemma NotPendingUnlessStill(rows: Table, due: DueRow)
    requires RowsOk(rows) && due.id in rows
    ensures rows[due.id].pending == Some(due.pending) <==> StillPending(rows, due)
    ensures rows[due.id].pending.Some? ==> rows[due.id].succeededBy.None?
    ensures ActivateBatch(rows, due).0.Lost? ==> !StillPending(rows, due)
  {
    assert AtMostOne(rows[due.id]);
  }

  lemma OwnedUnlessPending(rows: Table, due: DueRow)
    requires ActivateBatch(rows, due).0.Conflict? && due.id in rows && rows[due.id].succeededBy.None?
    ensures rows[due.id].pending == Some(due.pending)
  {}

  /** The slot has found the successor taken and will look at the predecessor's row again. */
  predicate Diagnosing(st: State, i: nat, due: DueRow, rest: List<DueRow>) {
    i < |st.pcs| == |st.loops| && st.loops[i] == rest && st.pcs[i] == Diagnose(due) && due.id in st.rows
  }

  lemma ResolvedSettles(st: State, i: nat, now: Time, due: DueRow, rest: List<DueRow>)
    requires Diagnosing(st, i, due, rest) && AtMostOne(st.rows[due.id])
    requires st.rows[due.id].succeededBy.Some? || st.rows[due.id].pending.None?
    ensures var end := P.Alone(st, i, 1, now); Before(end, i, rest) && Settles(st.rows, end.rows, due)
  {
    hide ActivateBatch;
    P.OneStep(st, i, 1, now);
  }

  lemma AbandonSettles(st: State, i: nat, now: Time, due: DueRow, rest: List<DueRow>)
    requires Diagnosing(st, i, due, rest) && st.rows[due.id].succeededBy.None?
    requires st.rows[due.id].pending == Some(due.pending)
    ensures var end := P.Alone(st, i, 3, now); Before(end, i, rest) && Settles(st.rows, end.rows, due)
  {
    hide ActivateBatch;
    var s1 := P.Step1(st, i, now);
    var s2 := P.Step1(s1, i, now);
    P.OneStep(st, i, 3, now);
    P.OneStep(s1, i, 2, now);
    P.OneStep(s2, i, 1, now);
    assert s1.pcs[i] == AbandonWrite(due) && s1.rows == st.rows;
  }

  /** The successor is taken: the predecessor's row is looked at again, and a succession that still
      waits for this successor is abandoned. */
  lemma ConflictSettles(st: State, i: nat, now: Time, due: DueRow, rest: List<DueRow>) returns (n: nat)
    requires Inv(st) && Before(st, i, Cons(due, rest)) && ActivateBatch(st.rows, due).0.Conflict?
    ensures var end := P.Alone(st, i, n, now); Before(end, i, rest) && Settles(st.rows, end.rows, due)
  {
    InvParts(st, i);
    HeadKnown(st.rows, st.loops[i]);
    BatchWrites(st.rows, due);
    NotPendingUnlessStill(st.rows, due);
    var s1 := P.Step1(st, i, now);
    assert Diagnosing(s1, i, due, rest) && s1.rows == st.rows;
    hide Next, P.Alone, Settles, Diagnosing, Before;
    if st.rows[due.id].succeededBy.Some? || st.rows[due.id].pending.None? {
      n := 2;
      ResolvedSettles(s1, i, now, due, rest);
    } else {
      n := 4;
      OwnedUnlessPending(st.rows, due);
      AbandonSettles(s1, i, now, due, rest);
    }
    P.OneStep(st, i, n, now);
  }

  lemma HeadSettles(st: State, i: nat, now: Time, due: DueRow, rest: List<DueRow>) returns (n: nat)
    requires Inv(st) && Before(st, i, Cons(due, rest))
    ensures var end := P.Alone(st, i, n, now); Before(end, i, rest) && Settles(st.rows, end.rows, due)
  {
    hide Inv, ActivateBatch, Settles, P.Alone;
    match ActivateBatch(st.rows, due).0
    case Activated =>
      n := 2;
      ActivatedSettles(st, i, now, due, rest);
    case Lost =>
      n := 1;
      LostSettles(st, i, now, due, rest);
    case Conflict =>
      n := ConflictSettles(st, i, now, due, rest);
  }

  lemma {:induction false} AloneInv(st: State, i: nat, n: nat, now: Time)
    requires Inv(st) && i < |st.pcs| == |st.loops|
    ensures Inv(P.Alone(st, i, n, now))
    decreases n
  {
    hide Inv, Next;
    if n > 0 {
      P.OneStep(st, i, n, now);
      StepInv(st, i, Input(Idle, true, now, Nil));
      AloneInv(P.Step1(st, i, now), i, n - 1, now);
    }
  }

  lemma CoversRest(before: Table, after: Table, now: Time, due: DueRow, rest: List<DueRow>)
    requires LoopCovers(before, now, Cons(due, rest)) && Settles(before, after, due)
    ensures LoopCovers(after, now, rest)
  {}

  /** Left alone, a slot works off its loop, and what the loop covered is settled. */
  lemma {:induction false} LoopSettles(st: State, i: nat, now: Time, loop: List<DueRow>) returns (n: nat)
    requires Inv(st) && Before(st, i, loop) && LoopCovers(st.rows, now, loop)
    ensures var end := P.Alone(st, i, n, now); Before(end, i, Nil) && LoopCovers(end.rows, now, Nil)
    decreases loop
  {
    hide Inv, Settles, P.Alone, LoopCovers;
    if loop.Nil? {
      n := 0;
      P.AloneInTwo(st, i, 0, 0, now);
      assert P.Alone(st, i, 0, now) == st by {
        NoSteps(st, i, now);
      }
    } else {
      var m := HeadSettles(st, i, now, loop.head, loop.tail);
      var mid := P.Alone(st, i, m, now);
      AloneInv(st, i, m, now);
      CoversRest(st.rows, mid.rows, now, loop.head, loop.tail);
      var k := LoopSettles(mid, i, now, loop.tail);
      n := m + k;
      P.AloneInTwo(st, i, m, k, now);
    }
  }

  lemma NoSteps(st: State, i: nat, now: Time)
    requires i < |st.pcs| == |st.loops|
    ensures P.Alone(st, i, 0, now) == st
  {}

  /** A query has an answer: the due successions among any IDs can be listed, in their order. */
  lemma {:induction false} QueryAnswered(rows: Table, now: Time, ids: seq<Id>) returns (due: List<DueRow>)
    requires forall p | p in ids :: p in rows
    ensures AllDue(rows, now, due)
    ensures forall p | p in ids && rows[p].pending.Some? && rows[p].pending.value.effectiveAt <= now ::
        Carries(due, p, rows[p].pending.value)
    decreases |ids|
  {
    due := Nil;
    if |ids| > 0 {
      var p := ids[0];
      due := QueryAnswered(rows, now, ids[1..]);
      if rows[p].pending.Some? && rows[p].pending.value.effectiveAt <= now {
        due := Cons(DueRow(p, rows[p].pending.value, rows[p].profile), due);
      }
    }
  }

  /** A request that queries the due successions and is then left alone becomes idle with none of them
      pending: each was completed or, its successor taken, abandoned. */
  lemma ActivationFinishes(st: State, i: nat, x: Input) returns (n: nat)
    requires Inv(st) && Enabled(st, i, x) && st.pcs[i].DueQuery? && LoopCovers(st.rows, x.now, x.due)
    ensures i < |Next(st, i, x).pcs| == |Next(st, i, x).loops|
    ensures var end := P.Alone(Next(st, i, x), i, n, x.now);
      && i < |end.pcs| && end.pcs[i] == Idle
      && forall p | p in end.rows && end.rows[p].pending.Some? :: end.rows[p].pending.value.effectiveAt > x.now
  {
    StepInv(st, i, x);
    var next := Next(st, i, x);
    assert Before(next, i, x.due) && next.rows == st.rows;
    hide Inv, Next, P.Alone, LoopCovers;
    n := LoopSettles(next, i, x.now, x.due);
    NothingCovered(P.Alone(next, i, n, x.now).rows, x.now);
  }

  lemma NothingCovered(rows: Table, now: Time)
    requires LoopCovers(rows, now, Nil)
    ensures forall p | p in rows && rows[p].pending.Some? :: rows[p].pending.value.effectiveAt > now
  {
    forall p | p in rows && rows[p].pending.Some?
      ensures rows[p].pending.value.effectiveAt > now
    {
      assert !Carries(Nil, p, rows[p].pending.value);
    }
  }
}
