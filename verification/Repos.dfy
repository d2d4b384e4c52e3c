/** The repositories: a JSON record per row plus columns that exist only to be searched.  The
    question is always whether a search over the columns finds what a plain filter of the records
    would. */
module Repos {
  import opened Options
  import opened Lists
  import opened Succession
  import Registry
  import Lifecycle = ReceiptLifecycle
  import Runs = RegistryRuns

  predicate Has(items: List<string>, x: string) {
    items.Cons? && (items.head == x || Has(items.tail, x))
  }

  predicate Distinct(items: List<string>) {
    items.Cons? ==> !Has(items.tail, items.head) && Distinct(items.tail)
  }

  // ---------------------------------------------------------------- agents

  datatype AgentRecord = AgentRecord(capabilities: List<string>, linked: set<string>, revokedAt: Option<int>,
      succeededBy: Option<Id>)

  datatype AgentRow = AgentRow(data: AgentRecord, revoked: bool)

  datatype AgentQuery = AgentQuery(capability: Option<string>, supports: Option<string>, includeRevoked: bool)

  predicate RetiredRecord(r: AgentRecord) {
    r.revokedAt.Some? || r.succeededBy.Some?
  }

  /** What the caller of a search asked for, read off the record itself. */
  predicate Matches(r: AgentRecord, q: AgentQuery) {
    && (q.capability.Some? ==> Has(r.capabilities, q.capability.value))
    && (q.supports.Some? ==> q.supports.value in r.linked)
    && (q.includeRevoked || !RetiredRecord(r))
  }

  class AgentsRepo {
    var rows: map<Id, AgentRow>
    /** The junction table; the pair is its primary key. */
    var capabilities: set<(Id, string)>

    ghost predicate Valid()
      reads this
    {
      && (forall id | id in rows :: rows[id].revoked == RetiredRecord(rows[id].data))
      && (forall id, c :: (id, c) in capabilities <==> id in rows && Has(rows[id].data.capabilities, c))
    }

    constructor ()
      ensures Valid() && rows == map[]
    {
      rows, capabilities := map[], {};
    }

    /** One transaction: upsert the row, delete its capability rows, insert the new ones.  A repeated
        capability violates the primary key: everything is rolled back and the call fails. */
    method Set(id: Id, value: AgentRecord) returns (ok: bool)
      requires Valid()
      modifies this
      ensures Valid()
      ensures ok <==> Distinct(value.capabilities)
      ensures rows == if ok then old(rows)[id := AgentRow(value, RetiredRecord(value))] else old(rows)
    {
      var savedRows, savedCapabilities := rows, capabilities;
      rows := rows[id := AgentRow(value, RetiredRecord(value))];
      capabilities := set p | p in capabilities && p.0 != id;
      var rest := value.capabilities;
      while rest.Cons?
        invariant rows == savedRows[id := AgentRow(value, RetiredRecord(value))]
        invariant forall i, c | i != id :: (i, c) in capabilities <==> (i, c) in savedCapabilities
        invariant forall c :: Has(value.capabilities, c) <==> (id, c) in capabilities || Has(rest, c)
        invariant Distinct(value.capabilities)
             <==> Distinct(rest) && forall c | Has(rest, c) :: (id, c) !in capabilities
        decreases rest
      {
        if (id, rest.head) in capabilities {
          rows, capabilities := savedRows, savedCapabilities;
          return false;
        }
        capabilities := capabilities + {(id, rest.head)};
        rest := rest.tail;
      }
      return true;
    }

    /** Whether the search returns this row: the join over the junction table when a capability is
        asked for, the retired flag, then the post-filter on links. */
    predicate Returns(q: AgentQuery, id: Id)
      reads this
    {
      && id in rows
      && (q.capability.Some? ==> (id, q.capability.value) in capabilities)
      && (q.includeRevoked || !rows[id].revoked)
      && (q.supports.Some? ==> q.supports.value in rows[id].data.linked)
    }

    /** After any run of sets, the indexed search is the plain filter. */
    lemma SearchIsFilter(q: AgentQuery, id: Id)
      requires Valid()
      ensures Returns(q, id) <==> id in rows && Matches(rows[id].data, q)
    {
      if q.capability.Some? {
        var c := q.capability.value;
        assert (id, c) in capabilities <==> id in rows && Has(rows[id].data.capabilities, c);
      }
    }
  }

  // ---------------------------------------------------------------- jobs

  datatype JobRecord = JobRecord(capability: string, status: string, postedBy: Id)

  datatype JobRow = JobRow(data: JobRecord, capability: string, status: string, postedBy: Id)

  datatype JobQuery = JobQuery(capability: Option<string>, status: Option<string>)

  class JobsRepo {
    var rows: map<Registry.JobId, JobRow>

    ghost predicate Valid()
      reads this
    {
      forall id | id in rows :: rows[id].capability == rows[id].data.capability
          && rows[id].status == rows[id].data.status
    }

    constructor ()
      ensures Valid() && rows == map[]
    {
      rows := map[];
    }

    /** Upsert; on conflict the poster column keeps its first value. */
    method Set(id: Registry.JobId, value: JobRecord)
      requires Valid()
      modifies this
      ensures Valid()
      ensures rows == old(rows)[id := JobRow(value, value.capability, value.status,
          if id in old(rows) then old(rows)[id].postedBy else value.postedBy)]
    {
      if id in rows {
        rows := rows[id := rows[id].(data := value, capability := value.capability, status := value.status)];
      } else {
        rows := rows[id := JobRow(value, value.capability, value.status, value.postedBy)];
      }
    }

    predicate Returns(q: JobQuery, id: Registry.JobId)
      reads this
    {
      && id in rows
      && (q.capability.Some? ==> rows[id].capability == q.capability.value)
      && (q.status.Some? ==> rows[id].status == q.status.value)
    }

    lemma SearchIsFilter(q: JobQuery, id: Registry.JobId)
      requires Valid()
      ensures Returns(q, id) <==>
        && id in rows
        && (q.capability.Some? ==> rows[id].data.capability == q.capability.value)
        && (q.status.Some? ==> rows[id].data.status == q.status.value)
    {
      if id in rows {
        assert rows[id].capability == rows[id].data.capability;
      }
    }
  }

  // ---------------------------------------------------------------- receipts

  datatype ReceiptRow = ReceiptRow(data: Registry.Receipt, a: Id, b: Id)

  type ReceiptTable = map<Registry.ReceiptId, ReceiptRow>

  /** Upsert; on conflict only the record is replaced. */
  function Upsert(t: ReceiptTable, id: Registry.ReceiptId, r: Registry.Receipt): ReceiptTable {
    t[id := if id in t then t[id].(data := r) else ReceiptRow(r, r.content.a, r.content.b)]
  }

  class ReceiptsRepo {
    var rows: ReceiptTable

    constructor ()
      ensures rows == map[]
    {
      rows := map[];
    }

    method Set(id: Registry.ReceiptId, value: Registry.Receipt)
      modifies this
      ensures rows == Upsert(old(rows), id, value)
    {
      if id in rows {
        var row := rows[id];
        rows := rows[id := ReceiptRow(value, row.a, row.b)];
      } else {
        rows := rows[id := ReceiptRow(value, value.content.a, value.content.b)];
      }
    }
  }

  type Writes = List<(Registry.ReceiptId, Registry.Receipt)>

  /** The table after a run of sets, the latest first in the list. */
  function Written(ws: Writes): ReceiptTable {
    match ws
    case Nil => map[]
    case Cons(w, earlier) => Upsert(Written(earlier), w.0, w.1)
  }

  function Latest(ws: Writes, id: Registry.ReceiptId): Option<Registry.Receipt> {
    match ws
    case Nil => None
    case Cons(w, earlier) => if w.0 == id then Some(w.1) else Latest(earlier, id)
  }

  function Earliest(ws: Writes, id: Registry.ReceiptId): Option<Registry.Receipt> {
    match ws
    case Nil => None
    case Cons(w, earlier) =>
      var before := Earliest(earlier, id);
      if before.None? && w.0 == id then Some(w.1) else before
  }

  lemma {:induction false} RowHoldsBothEnds(ws: Writes, id: Registry.ReceiptId)
    ensures id in Written(ws) <==> Latest(ws, id).Some?
    ensures Latest(ws, id).Some? <==> Earliest(ws, id).Some?
    ensures id in Written(ws) ==>
      && Written(ws)[id].data == Latest(ws, id).value
      && Written(ws)[id].a == Earliest(ws, id).value.content.a && Written(ws)[id].b == Earliest(ws, id).value.content.b
  {
    if ws.Cons? {
      RowHoldsBothEnds(ws.tail, id);
    }
  }

  predicate SameParties(x: Registry.Content, y: Registry.Content) {
    {x.a, x.b} == {y.a, y.b}
  }

  /** No record of the run changed the parties of this receipt, comparing its first and last set. */
  predicate PartiesKept(ws: Writes, id: Registry.ReceiptId) {
    match (Earliest(ws, id), Latest(ws, id))
    case (Some(x), Some(y)) => SameParties(x.content, y.content)
    case _ => true
  }

  predicate InColumns(t: ReceiptTable, id: Registry.ReceiptId, agent: Id) {
    id in t && (t[id].a == agent || t[id].b == agent)
  }

  predicate InRecord(t: ReceiptTable, id: Registry.ReceiptId, agent: Id) {
    id in t && Registry.Party(t[id].data.content, agent)
  }

  ghost predicate ListingAgrees(t: ReceiptTable, id: Registry.ReceiptId) {
    forall agent :: InColumns(t, id, agent) <==> InRecord(t, id, agent)
  }

  lemma AgreesExactlyWhenKept(ws: Writes, id: Registry.ReceiptId)
    ensures ListingAgrees(Written(ws), id) <==> PartiesKept(ws, id)
  {
    var t := Written(ws);
    RowHoldsBothEnds(ws, id);
    if id in t {
      var x, y := Earliest(ws, id).value.content, Latest(ws, id).value.content;
      forall agent
        ensures InColumns(t, id, agent) <==> Registry.Party(x, agent)
        ensures InRecord(t, id, agent) <==> Registry.Party(y, agent)
      {
      }
      if SameParties(x, y) {
        forall agent
          ensures InColumns(t, id, agent) <==> InRecord(t, id, agent)
        {
          SamePartiesSameMembers(x, y, agent);
        }
      }
      if ListingAgrees(t, id) {
        assert InColumns(t, id, x.a) && InColumns(t, id, x.b);
        assert InRecord(t, id, y.a) && InRecord(t, id, y.b);
      }
    }
  }

  /** After any run of sets, listing by agent over the columns agrees with filtering the records, for
      every agent, if and only if no receipt's parties differ between its first and its last set. */
  lemma ListingAgreesExactly(ws: Writes)
    ensures (forall id :: ListingAgrees(Written(ws), id)) <==> (forall id :: PartiesKept(ws, id))
  {
    forall id
      ensures ListingAgrees(Written(ws), id) <==> PartiesKept(ws, id)
    {
      AgreesExactlyWhenKept(ws, id);
    }
  }

  lemma SamePartiesSameMembers(x: Registry.Content, y: Registry.Content, agent: Id)
    requires SameParties(x, y)
    ensures Registry.Party(x, agent) <==> Registry.Party(y, agent)
  {
    assert agent in {x.a, x.b} <==> agent in {y.a, y.b};
  }

  /** The rows hold exactly the registry's receipts, with their parties in the columns. */
  ghost predicate Mirrors(t: ReceiptTable, receipts: map<Registry.ReceiptId, Registry.Receipt>) {
    && (forall id :: id in t <==> id in receipts)
    && (forall id | id in t :: t[id] == ReceiptRow(receipts[id], receipts[id].content.a, receipts[id].content.b))
  }

  /** One more set keeps the columns right, because no step changes the content of a stored receipt. */
  lemma SetKeepsColumns(t: ReceiptTable, before: map<Registry.ReceiptId, Registry.Receipt>,
      after: map<Registry.ReceiptId, Registry.Receipt>, id: Registry.ReceiptId)
    requires Mirrors(t, before) && Lifecycle.ReceiptsEvolve(before, after)
    requires id in after && after == before[id := after[id]]
    ensures Mirrors(Upsert(t, id, after[id]), after)
  {
    if id in before {
      assert Lifecycle.ReceiptEvolves(before[id], after[id]);
    }
  }

  /** The receipt that a granted operation sets. */
  function SetBy(env: Registry.Env, q: Registry.Request): Option<Registry.ReceiptId> {
    match q.op
    case Submit(content, _) => Some(env.receiptId(content.(b := q.caller)))
    case Sign(id, _) => Some(id)
    case Contest(id, _) => Some(id)
    case Withdraw(id) => Some(id)
    case _ => None
  }

  lemma ApplySets(env: Registry.Env, w: Registry.World, q: Registry.Request)
    requires Registry.Apply(env, w, q.caller, q.op, q.now).Ok?
    ensures var after := Registry.Apply(env, w, q.caller, q.op, q.now).value.receipts; var id := SetBy(env, q);
      if id.Some? then id.value in after && after == w.receipts[id.value := after[id.value]] else after == w.receipts
  {}

  lemma ServeSets(env: Registry.Env, w: Registry.World, q: Registry.Request)
    requires Registry.AllPending(q.rows)
    ensures var (w', refused) := Registry.Serve(env, w, q); var id := SetBy(env, q);
      if refused.None? && id.Some? then id.value in w'.receipts
          && w'.receipts == w.receipts[id.value := w'.receipts[id.value]]
      else w'.receipts == w.receipts
  {
    hide Registry.Apply, SetBy;
    Runs.ActivationTouchesIdentitiesOnly(w, q.rows);
    if Registry.Serve(env, w, q).1.None? {
      ApplySets(env, Registry.ActivateRows(w, q.rows), q);
    }
  }

  /** The sets that a run of the registry makes, the latest first, on top of earlier ones. */
  ghost function SetsAlong(env: Registry.Env, w: Registry.World, qs: List<Registry.Request>, w': Registry.World,
      earlier: Writes): Writes
    requires Registry.Run(env, w, qs, w')
    decreases qs
  {
    match qs
    case Nil => earlier
    case Cons(q, rest) =>
      ServeSets(env, w, q);
      var (next, refused) := Registry.Serve(env, w, q);
      var id := SetBy(env, q);
      var sets := if refused.None? && id.Some? then Cons((id.value, next.receipts[id.value]), earlier) else earlier;
      SetsAlong(env, next, rest, w', sets)
  }

  lemma {:induction false} RunKeepsColumns(env: Registry.Env, w: Registry.World, qs: List<Registry.Request>,
      w': Registry.World, earlier: Writes)
    requires Runs.Inv(env, w) && Registry.Run(env, w, qs, w') && Mirrors(Written(earlier), w.receipts)
    ensures Mirrors(Written(SetsAlong(env, w, qs, w', earlier)), w'.receipts)
    decreases qs
  {
    hide Runs.Inv, Registry.Serve, Mirrors, SetBy;
    if qs.Cons? {
      var q := qs.head;
      var (next, refused) := Registry.Serve(env, w, q);
      var id := SetBy(env, q);
      Runs.ServeInv(env, w, q);
      ServeSets(env, w, q);
      if refused.None? && id.Some? {
        SetKeepsColumns(Written(earlier), w.receipts, next.receipts, id.value);
        RunKeepsColumns(env, next, qs.tail, w', Cons((id.value, next.receipts[id.value]), earlier));
      } else {
        RunKeepsColumns(env, next, qs.tail, w', earlier);
      }
    }
  }

  /** The table that any run of the registry writes holds exactly its receipts with their parties in
      the columns, so a listing by agent is the plain filter of the records. */
  lemma RegistryKeepsColumns(env: Registry.Env, qs: List<Registry.Request>, w: Registry.World)
    requires Registry.Run(env, Registry.EMPTY, qs, w)
    ensures var t := Written(SetsAlong(env, Registry.EMPTY, qs, w, Nil));
      Mirrors(t, w.receipts) && forall id :: ListingAgrees(t, id)
  {
    Runs.EmptyInv(env);
    RunKeepsColumns(env, Registry.EMPTY, qs, w, Nil);
  }
}
