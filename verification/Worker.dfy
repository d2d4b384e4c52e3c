/** The edge deployment of key succession: many requests at once over one database.

    Each database call is atomic; between two calls of one request any calls of other requests may
    run.  A state holds the table, the log and, for every request in progress, where it stands.
    `made` and `revokes` only record what the successful writes did. */
module Worker {
  import opened Options
  import opened Lists
  import opened Succession

  type Profile = int

  datatype Row = Row(profile: Profile, revokedAt: Option<Time>, succeededBy: Option<Id>, succeededAt: Option<Time>,
    pending: Option<Pending>, predecessor: Option<Id>)

  type Table = map<Id, Row>

  /** A due succession as the query returned it. */
  datatype DueRow = DueRow(id: Id, pending: Pending, profile: Profile)

  // ---------------------------------------------------------------- database calls

  predicate NamedSuccessor(rows: Table, id: Id) {
    exists p | p in rows :: rows[p].pending.Some? && rows[p].pending.value.successor == id
  }

  /** Fails on the primary key. */
  function InsertAgent(rows: Table, id: Id, profile: Profile): Option<Table> {
    if id in rows then None else Some(rows[id := Row(profile, None, None, None, None, None)])
  }

  function RevokeIfActive(rows: Table, id: Id, at: Time): Option<Table> {
    if id in rows && rows[id].revokedAt.None? && rows[id].succeededBy.None?
       && (rows[id].pending.None? || rows[id].pending.value.effectiveAt > at)
    then Some(rows[id := rows[id].(revokedAt := Some(at), pending := None)])
    else None
  }

  function RequestIfIdle(rows: Table, p: Id, pending: Pending): Option<Table> {
    if p in rows && rows[p].pending.None? && rows[p].succeededBy.None? && rows[p].revokedAt.None?
    then Some(rows[p := rows[p].(pending := Some(pending))])
    else None
  }

  function Abandon(rows: Table, p: Id, s: Id): Option<Table> {
    if p in rows && rows[p].pending.Some? && rows[p].pending.value.successor == s
    then Some(rows[p := rows[p].(pending := None)])
    else None
  }

  /** The predecessor's row still carries this very pending succession. */
  predicate StillPending(rows: Table, due: DueRow) {
    due.id in rows && rows[due.id].pending == Some(due.pending) && rows[due.id].revokedAt.None?
  }

  function MarkSucceeded(row: Row, pending: Pending): Row {
    row.(succeededBy := Some(pending.successor), succeededAt := Some(pending.effectiveAt), pending := None)
  }

  /** The predecessor's row was handed to this successor at this time. */
  predicate Owned(rows: Table, due: DueRow) {
    due.id in rows && rows[due.id].succeededBy == Some(due.pending.successor)
    && rows[due.id].succeededAt == Some(due.pending.effectiveAt)
  }

  datatype BatchOutcome = Activated | Lost | Conflict

  /** The two statements of the activation batch, both or neither. */
  function ActivateBatch(rows: Table, due: DueRow): (BatchOutcome, Table) {
    var s := due.pending.successor;
    var updated := if StillPending(rows, due) then rows[due.id := MarkSucceeded(rows[due.id], due.pending)] else rows;
    if !Owned(updated, due) then (Lost, updated)
    else if s in updated then (Conflict, rows)
    else
      ((if StillPending(rows, due) then Activated else Lost),
       updated[s := Row(due.profile, None, None, None, None, Some(due.id))])
  }

  /** The table as a mutable object: the batch runs statement by statement and rolls back on a
      primary-key conflict. */
  class Database {
    var rows: Table

    constructor ()
      ensures rows == map[]
    {
      rows := map[];
    }

    method UpdateToSucceeded(due: DueRow) returns (changed: bool)
      modifies this
      ensures changed == StillPending(old(rows), due)
      ensures rows == if changed then old(rows)[due.id := MarkSucceeded(old(rows)[due.id], due.pending)] else old(rows)
    {
      changed := due.id in rows && rows[due.id].pending == Some(due.pending) && rows[due.id].revokedAt.None?;
      if changed {
        var row := rows[due.id];
        rows := rows[due.id := row.(succeededBy := Some(due.pending.successor),
            succeededAt := Some(due.pending.effectiveAt), pending := None)];
      }
    }

    /** False on a primary-key conflict. */
    method InsertSuccessorIfOwned(due: DueRow) returns (unique: bool)
      modifies this
      ensures unique == (Owned(old(rows), due) ==> due.pending.successor !in old(rows))
      ensures rows == if unique && Owned(old(rows), due)
        then old(rows)[due.pending.successor := Row(due.profile, None, None, None, None, Some(due.id))] else old(rows)
    {
      if !Owned(rows, due) {
        return true;
      }
      if due.pending.successor in rows {
        return false;
      }
      rows := rows[due.pending.successor := Row(due.profile, None, None, None, None, Some(due.id))];
      return true;
    }

    method ActivateSuccession(due: DueRow) returns (outcome: BatchOutcome)
      modifies this
      ensures (outcome, rows) == ActivateBatch(old(rows), due)
    {
      var snapshot := rows;
      var changed := UpdateToSucceeded(due);
      var unique := InsertSuccessorIfOwned(due);
      if !unique {
        rows := snapshot;
        return Conflict;
      }
      return if changed then Activated else Lost;
    }
  }

  // ---------------------------------------------------------------- requests in progress

  datatype Entry =
    | SuccessionPending(agent: Id, successor: Id)
    | SuccessionCancelled(agent: Id, successor: Id)
    | AgentSucceeded(agent: Id, successor: Id)

  /** The database call (or log append) a request will make next. */
  datatype Pc =
    | Idle
    | RegisterCheck(id: Id, profile: Profile)
    | RegisterInsert(id: Id, profile: Profile)
    | RevokeRead(id: Id)
    | RevokeWrite(id: Id, before: Option<Pending>)
    | RequestRead(id: Id, s: Id)
    | RequestLookup(id: Id, s: Id)
    | RequestNamed(id: Id, s: Id)
    | RequestWrite(id: Id, s: Id)
    | DueQuery
    | NextDue
    | Diagnose(due: DueRow)
    | AbandonWrite(due: DueRow)
    | Appending(entry: Entry)

  predicate Start(pc: Pc) {
    pc.RegisterCheck? || pc.RevokeRead? || pc.RequestRead? || pc.DueQuery?
  }

  datatype Event = Requested(p: Id, s: Id) | HandedOver(p: Id, s: Id) | Abandoned(p: Id, s: Id)

  /** What a successful revocation had read beforehand and what its write really cancelled. */
  datatype Revocation = Revocation(before: Option<Id>, found: Option<Id>)

  datatype State = State(rows: Table, log: seq<Entry>, pcs: seq<Pc>, loops: seq<List<DueRow>>,
    made: multiset<Event>, revokes: map<Id, Revocation>)

  function SuccessorIn(pending: Option<Pending>): Option<Id> {
    if pending.Some? then Some(pending.value.successor) else None
  }

  /** After a step of the loop or an append: on to the next due row, if any. */
  function Resume(loop: List<DueRow>): Pc {
    if loop.Cons? then NextDue else Idle
  }

  predicate IsDue(row: Row, now: Time) {
    row.pending.Some? && row.pending.value.effectiveAt <= now
  }

  predicate DueIn(rows: Table, now: Time, due: DueRow) {
    due.id in rows && IsDue(rows[due.id], now) && rows[due.id].pending == Some(due.pending)
        && rows[due.id].profile == due.profile
  }

  predicate AllDue(rows: Table, now: Time, loop: List<DueRow>) {
    loop.Cons? ==> DueIn(rows, now, loop.head) && AllDue(rows, now, loop.tail)
  }

  /** What the environment decides: the request an idle slot takes up, the clock, the query result. */
  datatype Input = Input(start: Pc, verified: bool, now: Time, due: List<DueRow>)

  function Goto(st: State, i: nat, pc: Pc): State
    requires i < |st.pcs|
  {
    st.(pcs := st.pcs[i := pc])
  }

  function Next(st: State, i: nat, x: Input): State
    requires i < |st.pcs| && i < |st.loops|
  {
    var rows, loop := st.rows, st.loops[i];
    match st.pcs[i]
    case Idle => if Start(x.start) then Goto(st, i, x.start) else st
    case RegisterCheck(id, profile) => Goto(st, i, if NamedSuccessor(rows, id) then Idle
        else RegisterInsert(id, profile))
    case RegisterInsert(id, profile) =>
      var inserted := InsertAgent(rows, id, profile);
      Goto(st, i, Idle).(rows := if inserted.Some? then inserted.value else rows)
    case RevokeRead(id) => Goto(st, i, if id in rows then RevokeWrite(id, rows[id].pending) else Idle)
    case RevokeWrite(id, before) =>
      var revoked := RevokeIfActive(rows, id, x.now);
      if revoked.None? then Goto(st, i, Idle)
      else Goto(st, i, if before.Some? then Appending(SuccessionCancelled(id, before.value.successor)) else Idle).(
             rows := revoked.value,
             revokes := st.revokes[id := Revocation(SuccessorIn(before), SuccessorIn(rows[id].pending))])
    case RequestRead(p, s) => Goto(st, i, if p in rows && p != s && x.verified then RequestLookup(p, s) else Idle)
    case RequestLookup(p, s) => Goto(st, i, if s in rows then Idle else RequestNamed(p, s))
    case RequestNamed(p, s) => Goto(st, i, if NamedSuccessor(rows, s) then Idle else RequestWrite(p, s))
    case RequestWrite(p, s) =>
      var requested := RequestIfIdle(rows, p, Pending(s, x.now + SUCCESSION_WINDOW));
      if requested.None? then Goto(st, i, Idle)
      else Goto(st, i, Appending(SuccessionPending(p, s))).(rows := requested.value,
          made := st.made + multiset{Requested(p, s)})
    case DueQuery => Goto(st, i, Resume(x.due)).(loops := st.loops[i := x.due])
    case NextDue =>
      if loop.Nil? then Goto(st, i, Idle)
      else
        var due := loop.head;
        var (outcome, rows') := ActivateBatch(rows, due);
        var rest := st.(loops := st.loops[i := loop.tail], rows := rows');
        (match outcome
         case Activated => Goto(rest, i, Appending(AgentSucceeded(due.id, due.pending.successor))).(
                             made := st.made + multiset{HandedOver(due.id, due.pending.successor)})
         case Lost => Goto(rest, i, Resume(loop.tail))
         case Conflict => Goto(rest, i, Diagnose(due)))
    case Diagnose(due) =>
      Goto(st, i, if due.id !in rows || rows[due.id].succeededBy.Some? || rows[due.id].pending.None? then Resume(loop)
          else AbandonWrite(due))
    case AbandonWrite(due) =>
      var abandoned := Abandon(rows, due.id, due.pending.successor);
      if abandoned.None? then Goto(st, i, Resume(loop))
      else Goto(st, i, Appending(SuccessionCancelled(due.id, due.pending.successor))).(
             rows := abandoned.value, made := st.made + multiset{Abandoned(due.id, due.pending.successor)})
    case Appending(entry) => Goto(st, i, Resume(loop)).(log := st.log + [entry])
  }

  /** A step some request can take; a query returns rows that are due, in any order. */
  ghost predicate Enabled(st: State, i: nat, x: Input) {
    && i < |st.pcs| == |st.loops|
    && (st.pcs[i].DueQuery? ==> AllDue(st.rows, x.now, x.due))
  }

  datatype Move = Move(slot: nat, input: Input)

  /** Any interleaving of steps from st to st'. */
  ghost predicate Interleaving(st: State, moves: List<Move>, st': State)
    decreases moves
  {
    match moves
    case Nil => st' == st
    case Cons(m, rest) => Enabled(st, m.slot, m.input) && Interleaving(Next(st, m.slot, m.input), rest, st')
  }

  function Fresh(slots: nat): State {
    State(map[], [], seq(slots, i => Idle), seq(slots, i => Nil), multiset{}, map[])
  }
}
