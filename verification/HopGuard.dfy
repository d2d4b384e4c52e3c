/** Ordinary requests lead to a chain that the 64-link guard cuts short. */
module HopGuard {
  import opened Options
  import opened Lists
  import opened Succession
  import opened Registry
  import opened AgentLifecycle
  import opened RegistryGuarantees

  // ---------------------------------------------------------------- one more request

  lemma {:induction false} RunThen(env: Env, w0: World, qs: List<Request>, w: World, q: Request)
    requires Run(env, w0, qs, w) && Possible(w, q)
    ensures Run(env, w0, Append(qs, Cons(q, Nil)), Serve(env, w, q).0)
    decreases qs
  {
    hide Serve;
    if qs.Cons? {
      RunThen(env, Serve(env, w0, qs.head).0, qs.tail, w, q);
    } else {
      assert Run(env, Serve(env, w, q).0, Nil, Serve(env, w, q).0);
    }
  }

  lemma ReachableThen(env: Env, w: World, q: Request)
    requires Reachable(env, w) && Possible(w, q)
    ensures Reachable(env, Serve(env, w, q).0)
  {
    hide Serve;
    var qs :| Run(env, EMPTY, qs, w);
    RunThen(env, EMPTY, qs, w, q);
  }

  // ---------------------------------------------------------------- a line of successions

  /** The two signatures say that p is succeeded by p + 1. */
  predicate Signed(env: Env, p: Id, x: Signature, y: Signature) {
    SuccessionVerifies(env, p, p + 1, x, y)
  }

  ghost predicate HandsOver(env: Env, p: Id) {
    exists x, y :: Signed(env, p, x, y)
  }

  /** The holder of each key signs its succession by the next, and the next key signs it too. */
  ghost predicate Willing(env: Env) {
    forall p | p >= 0 :: HandsOver(env, p)
  }

  /** IDs 0 to n, each succeeded by the next. */
  ghost predicate InLine(agents: map<Id, Agent>, n: nat) {
    && (forall id :: id in agents <==> 0 <= id <= n)
    && (forall id | id in agents ::
          && agents[id].pending.None? && agents[id].revokedAt.None?
          && agents[id].succeededBy == if id < n then Some(id + 1) else None)
  }

  function Closes(n: nat): Time {
    (n + 1) * SUCCESSION_WINDOW
  }

  /** Asked for when the window of the succession before has just closed. */
  function Ask(n: nat, x: Signature, y: Signature): Request {
    Request(n, Succeed(n + 1, x, y), Closes(n) - SUCCESSION_WINDOW, Nil, Closes(n) - SUCCESSION_WINDOW)
  }

  lemma Asks(env: Env, w: World, n: nat, x: Signature, y: Signature)
    requires Signed(env, n, x, y) && InLine(w.agents, n)
    ensures Possible(w, Ask(n, x, y))
    ensures var asked := Serve(env, w, Ask(n, x, y)).0;
      asked.agents == w.agents[n := w.agents[n].(pending := Some(Pending(n + 1, Closes(n))))]
  {
    assert ActivateRows(w, Nil) == w;
    assert RowsMatch(w.agents, Ask(n, x, y).arrival, Nil);
    assert Gate(w.agents, n).None?;
    assert !IsPendingSuccessor(w.agents, n + 1);
    assert RequestSuccession(env, w, n, n + 1, x, y, Ask(n, x, y).now).Ok?;
  }

  /** A request by an unknown ID: it is refused, but what is due is activated first. */
  function Wake(n: nat, row: Agent): Request {
    Request(-1, Revoke, Closes(n), Cons((n, row), Nil), Closes(n))
  }

  lemma Wakes(env: Env, w: World, n: nat)
    requires n in w.agents && w.agents[n].pending == Some(Pending(n + 1, Closes(n))) && -1 !in w.agents
    requires forall id | id in w.agents && id != n :: w.agents[id].pending.None?
    ensures var q := Wake(n, w.agents[n]); Possible(w, q) && Serve(env, w, q).0 == ActivateOne(w, n, w.agents[n])
  {
    var rows: List<(Id, Agent)> := Cons((n, w.agents[n]), Nil);
    assert AllPending(rows.tail) && RowsMatch(w.agents, Closes(n), rows.tail) && !Listed(rows.tail, n);
    assert Listed(rows, n);
    var active := ActivateOne(w, n, w.agents[n]);
    assert ActivateRows(w, rows) == active by {
      assert ActivateRows(active, rows.tail) == active;
    }
    assert RevokeAgent(active, -1, Closes(n)).Err?;
  }

  /** One more succession: requested, then activated by the first request after its window. */
  lemma LineGrows(env: Env, w: World, n: nat) returns (w': World)
    requires Willing(env) && Reachable(env, w) && InLine(w.agents, n)
    ensures Reachable(env, w') && InLine(w'.agents, n + 1)
  {
    hide Reachable, Possible, Serve, Closes;
    assert HandsOver(env, n);
    var x, y :| Signed(env, n, x, y);
    Asks(env, w, n, x, y);
    ReachableThen(env, w, Ask(n, x, y));
    var asked := Serve(env, w, Ask(n, x, y)).0;
    Wakes(env, asked, n);
    ReachableThen(env, asked, Wake(n, asked.agents[n]));
    w' := ActivateOne(asked, n, asked.agents[n]);
  }

  lemma FirstRegisters(env: Env)
    ensures var first := Request(0, Register(0), 0, Nil, 0);
      Possible(EMPTY, first) && InLine(Serve(env, EMPTY, first).0.agents, 0)
  {
    assert ActivateRows(EMPTY, Nil) == EMPTY;
    assert RowsMatch(EMPTY.agents, 0, Nil);
    assert RegisterAgent(EMPTY, 0, 0).Ok?;
  }

  lemma {:induction false} LineReached(env: Env, n: nat) returns (w: World)
    requires Willing(env)
    ensures Reachable(env, w) && InLine(w.agents, n)
  {
    hide InLine, Willing, Possible, Serve;
    if n == 0 {
      FirstRegisters(env);
      assert Run(env, EMPTY, Nil, EMPTY);
      ReachableThen(env, EMPTY, Request(0, Register(0), 0, Nil, 0));
      w := Serve(env, EMPTY, Request(0, Register(0), 0, Nil, 0)).0;
    } else {
      w := LineReached(env, n - 1);
      w := LineGrows(env, w, n - 1);
    }
  }

  /** The guard is no mere safeguard against a corrupted store: ordinary requests lead to a chain of
      65 successions, whose first two IDs are then counted as different agents. */
  lemma {:induction false} GuardIsReached(env: Env) returns (w: World)
    requires Willing(env)
    ensures Reachable(env, w) && !Shallow(Links(w.agents))
    ensures Reaches(Links(w.agents), 0, 1) && HeadOf(Links(w.agents), 0) != HeadOf(Links(w.agents), 1)
  {
    hide Reachable, Follow;
    w := LineReached(env, 65);
    var m := Links(w.agents);
    assert forall i :: (i in m <==> 0 <= i < 65) && (i in m ==> m[i] == i + 1);
    FollowCount(m, 0, 64);
    FollowCount(m, 1, 64);
    FollowCount(m, 0, 1);
    assert HeadOf(m, 0) in m;
  }
}
