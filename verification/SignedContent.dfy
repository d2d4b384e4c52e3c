/** What a receipt id and the signed bytes determine. */
module SignedContent {
  // Whoever reads the signed bytes finds every field of the receipt under its name; so equal ids,
  // and equal signed bytes, mean equal parties and equal input.

  import opened Options
  import opened Lists
  import opened Numbers
  import opened KeyOrder
  import opened CanonicalJson
  import opened DictOrder
  import opened ReceiptContent

  // ---------------------------------------------------------------- reading a field

  /** The field of this name. */
  function Lookup(js: List<Keyed<Json>>, k: Str): Option<Json> {
    match js
    case Nil => None
    case Cons(j, rest) => if j.key == k then Some(j.item) else Lookup(rest, k)
  }

  function FieldOf(v: Json, name: string): Option<Json> {
    if v.JObject? then Lookup(v.fields, Text(name)) else None
  }

  lemma {:induction false} LookupInserted(j: Keyed<Json>, js: List<Keyed<Json>>, k: Str)
    requires Lookup(js, j.key).None?
    ensures Lookup(Insert(j, js), k) == if j.key == k then Some(j.item) else Lookup(js, k)
  {
    hide Before;
    if js.Cons? {
      LookupInserted(j, js.tail, k);
    }
  }

  predicate NoRepeats(js: List<Keyed<Json>>) {
    js.Cons? ==> Lookup(js.tail, js.head.key).None? && NoRepeats(js.tail)
  }

  lemma {:induction false} LookupSorted(js: List<Keyed<Json>>, k: Str)
    requires NoRepeats(js)
    ensures Lookup(SortByKey(js), k) == Lookup(js, k)
  {
    if js.Cons? {
      LookupSorted(js.tail, k);
      LookupSorted(js.tail, js.head.key);
      LookupInserted(js.head, SortByKey(js.tail), k);
    }
  }

  function Entry(es: Fields, k: Str): Option<PyValue> {
    match es
    case Nil => None
    case Cons(e, rest) => if e.key == k then Some(e.item) else Entry(rest, k)
  }

  predicate OneEach(es: Fields) {
    es.Cons? ==> Absent(es.tail, es.head.key) && OneEach(es.tail)
  }

  /** What is printed of a value in a dict. */
  function Shown(v: Option<PyValue>): Option<Json> {
    if v.None? || v.value.PyNone? then None else Some(Meaning(v.value, false))
  }

  lemma {:induction false} AbsentIsUnread(es: Fields, k: Str)
    requires Absent(es, k)
    ensures Lookup(EntriesMeaning(es, false), k).None?
    decreases es
  {
    hide Meaning;
    if es.Cons? {
      AbsentIsUnread(es.tail, k);
    }
  }

  lemma {:induction false} MeaningLookup(es: Fields, k: Str)
    requires OneEach(es)
    ensures NoRepeats(EntriesMeaning(es, false)) && Lookup(EntriesMeaning(es, false), k) == Shown(Entry(es, k))
    decreases es
  {
    hide Meaning;
    if es.Cons? {
      MeaningLookup(es.tail, k);
      AbsentIsUnread(es.tail, es.head.key);
    }
  }

  /** Reading a printed dict by name gives the entry of that name, unless it was None. */
  lemma DictField(es: Fields, name: string)
    requires OneEach(es)
    ensures FieldOf(Meaning(PyDict(es), false), name) == Shown(Entry(es, Text(name)))
  {
    hide Meaning, SortByKey, Text;
    DictMeaning(es, false);
    MeaningLookup(es, Text(name));
    LookupSorted(EntriesMeaning(es, false), Text(name));
  }

  // ---------------------------------------------------------------- named fields

  lemma {:induction false} NamedIsAbsent(names: seq<string>, i: nat, es: Fields, name: string)
    requires Named(names, i, es) && forall k | i <= k < |names| :: names[k] != name
    ensures Absent(es, Text(name))
    decreases es
  {
    hide Text;
    TextsApart(name);
    if es.Cons? {
      NamedIsAbsent(names, i + 1, es.tail, name);
    }
  }

  lemma {:induction false} NamedOneEach(names: seq<string>, i: nat, es: Fields)
    requires Named(names, i, es) && Distinct(names)
    ensures OneEach(es)
    decreases es
  {
    hide Text;
    if es.Cons? {
      NamedIsAbsent(names, i + 1, es.tail, names[i]);
      NamedOneEach(names, i + 1, es.tail);
    }
  }

  function At(es: Fields, n: nat): Option<PyValue> {
    match es
    case Nil => None
    case Cons(e, rest) => if n == 0 then Some(e.item) else At(rest, n - 1)
  }

  /** The entry of the n-th name is the n-th entry. */
  lemma {:induction false} NamedEntry(names: seq<string>, i: nat, es: Fields, n: nat)
    requires Named(names, i, es) && Distinct(names) && i + n < |names|
    ensures Entry(es, Text(names[i + n])) == At(es, n)
    decreases es
  {
    hide Text;
    if n > 0 {
      TextsApart(names[i + n]);
      NamedEntry(names, i + 1, es.tail, n - 1);
    }
  }

  const PARTY_NAMES: seq<string> := ["id", "role"]

  lemma PartyFields(id: Str, role: string)
    ensures var p := Meaning(Party(id, role), false);
      FieldOf(p, "id") == Some(JString(id)) && FieldOf(p, "role") == Some(JString(Text(role)))
  {
    hide Text;
    var es := Party(id, role).entries;
    assert Named(PARTY_NAMES, 2, es.tail.tail);
    assert Named(PARTY_NAMES, 0, es) && Distinct(PARTY_NAMES);
    NamedOneEach(PARTY_NAMES, 0, es);
    NamedEntry(PARTY_NAMES, 0, es, 0);
    NamedEntry(PARTY_NAMES, 0, es, 1);
    DictField(es, "id");
    DictField(es, "role");
  }

  // ---------------------------------------------------------------- the fields of a receipt

  /** The value under a name of the signed content. */
  function Value(id: Str, a: Str, b: Str, x: ReceiptInput, n: nat): Option<Json> {
    Shown(At(SignedFields(id, a, b, x), n))
  }

  /** Whoever parses what the worker signs finds each field under its name. */
  lemma {:induction false} SignedField(id: Str, a: Str, b: Str, x: ReceiptInput, n: nat)
    requires n < |SIGNED_NAMES|
    ensures FieldOf(Meaning(PyDict(SignedFields(id, a, b, x)), false), SIGNED_NAMES[n]) == Value(id, a, b, x, n)
  {
    var es := SignedFields(id, a, b, x);
    SignedFieldsNamed(id, a, b, x);
    hide SignedFields, Meaning, Text, Named;
    NamedOneEach(SIGNED_NAMES, 0, es);
    NamedEntry(SIGNED_NAMES, 0, es, n);
    DictField(es, SIGNED_NAMES[n]);
  }

  lemma SignedValues(id: Str, a: Str, b: Str, x: ReceiptInput)
    ensures Value(id, a, b, x, 0) == Some(JString(Text("1.0"))) && Value(id, a, b, x, 1) == Some(JString(id))
    ensures Value(id, a, b, x, 2) == Shown(Some(x.jobId))
    ensures Value(id, a, b, x, 3) == Some(Meaning(Party(a, "requester"), false))
    ensures Value(id, a, b, x, 4) == Some(Meaning(Party(b, "worker"), false))
    ensures Value(id, a, b, x, 5) == Shown(Some(x.task)) && Value(id, a, b, x, 6) == Shown(Some(x.result))
    ensures Value(id, a, b, x, 7) == Shown(Some(x.settlement)) && Value(id, a, b, x, 8) == Shown(Some(x.verification))
  {
    hide Text;
    var es := SignedFields(id, a, b, x);
    AtTail(es, 7);
    AtTail(es.tail, 6);
    AtTail(es.tail.tail, 5);
    AtTail(es.tail.tail.tail, 4);
    AtTail(es.tail.tail.tail.tail, 3);
    AtTail(es.tail.tail.tail.tail.tail, 2);
    AtTail(es.tail.tail.tail.tail.tail.tail, 1);
    AtTail(es.tail.tail.tail.tail.tail.tail.tail, 0);
    AtTail(es.tail.tail.tail.tail.tail.tail.tail.tail, 0);
  }

  lemma AtTail(es: Fields, n: nat)
    requires es.Cons?
    ensures At(es, 0) == Some(es.head.item)
    ensures forall k: nat | k <= n :: At(es, k + 1) == At(es.tail, k)
  {}

  /** What the bytes say, to a reader who knows the names. */
  lemma {:induction false} SignedBytesHold(id: Str, a: Str, b: Str, x: ReceiptInput)
    requires Print(WorkerSigns(ContentFields(id, a, b, x)), false).Ok?
    ensures var read := Parse(Print(WorkerSigns(ContentFields(id, a, b, x)), false).value);
      && read.Some?
      && FieldOf(read.value, "receiptVersion") == Some(JString(Text("1.0")))
      && FieldOf(read.value, "receiptId") == Some(JString(id))
      && FieldOf(read.value, "jobId") == Shown(Some(x.jobId))
      && (var party := FieldOf(read.value, "agentA");
          party.Some? && FieldOf(party.value, "id") == Some(JString(a))
          && FieldOf(party.value, "role") == Some(JString(Text("requester"))))
      && (var party := FieldOf(read.value, "agentB");
          party.Some? && FieldOf(party.value, "id") == Some(JString(b))
          && FieldOf(party.value, "role") == Some(JString(Text("worker"))))
      && FieldOf(read.value, "task") == Shown(Some(x.task)) && FieldOf(read.value, "result") == Shown(Some(x.result))
      && FieldOf(read.value, "settlement") == Shown(Some(x.settlement))
      && FieldOf(read.value, "verification") == Shown(Some(x.verification))
  {
    hide Meaning, Print, Parse, Text, Put, Remove, Value, FieldOf, Shown, ContentFields, SignedFields, Party;
    ParseUndoesPrint(WorkerSigns(ContentFields(id, a, b, x)), false);
    PutNoneMeaning(ContentFields(id, a, b, x), Text("dispute"));
    ContentWithoutDispute(id, a, b, x);
    SignedValues(id, a, b, x);
    PartyFields(a, "requester");
    PartyFields(b, "worker");
    forall n: nat | n < |SIGNED_NAMES|
      ensures FieldOf(Meaning(PyDict(SignedFields(id, a, b, x)), false), SIGNED_NAMES[n]) == Value(id, a, b, x, n)
    {
      SignedField(id, a, b, x, n);
    }
    assert SIGNED_NAMES[0] == "receiptVersion" && SIGNED_NAMES[1] == "receiptId" && SIGNED_NAMES[2] == "jobId";
    assert SIGNED_NAMES[3] == "agentA" && SIGNED_NAMES[4] == "agentB" && SIGNED_NAMES[5] == "task";
    assert SIGNED_NAMES[6] == "result" && SIGNED_NAMES[7] == "settlement" && SIGNED_NAMES[8] == "verification";
  }

  // ---------------------------------------------------------------- what equal bytes and equal ids mean

  lemma ShownDetermines(v: PyValue, w: PyValue)
    ensures Shown(Some(v)) == Shown(Some(w)) <==> Meaning(v, false) == Meaning(w, false)
  {}

  /** The signed fields mean the same exactly when everything in them does. */
  lemma {:induction false} SameSignedFields(id: Str, a: Str, b: Str, x: ReceiptInput, id': Str, a': Str, b': Str,
      x': ReceiptInput)
    ensures Meaning(PyDict(SignedFields(id, a, b, x)), false) == Meaning(PyDict(SignedFields(id', a', b', x')), false)
       <==> id == id' && a == a' && b == b' && SameInput(x, x')
  {
    hide Meaning, Text, Value, FieldOf, Shown, SignedFields, Party;
    if Meaning(PyDict(SignedFields(id, a, b, x)), false) == Meaning(PyDict(SignedFields(id', a', b', x')), false) {
      SignedValues(id, a, b, x);
      SignedValues(id', a', b', x');
      PartyFields(a, "requester");
      PartyFields(b, "worker");
      PartyFields(a', "requester");
      PartyFields(b', "worker");
      forall n: nat | n < |SIGNED_NAMES|
        ensures Value(id, a, b, x, n) == Value(id', a', b', x', n)
      {
        SignedField(id, a, b, x, n);
        SignedField(id', a', b', x', n);
      }
      ShownDetermines(x.jobId, x'.jobId);
      ShownDetermines(x.task, x'.task);
      ShownDetermines(x.result, x'.result);
      ShownDetermines(x.settlement, x'.settlement);
      ShownDetermines(x.verification, x'.verification);
    } else if id == id' && a == a' && b == b' && SameInput(x, x') {
      SameInputSameMeaning(id, a, b, x, x');
      DictMeaning(SignedFields(id, a, b, x), false);
      DictMeaning(SignedFields(id, a, b, x'), false);
    }
  }

  /** Two workers sign the same bytes if and only if id, parties and input are the same. */
  lemma {:induction false} SignedBytesExactly(id: Str, a: Str, b: Str, x: ReceiptInput, id': Str, a': Str, b': Str,
      x': ReceiptInput)
    requires Print(WorkerSigns(ContentFields(id, a, b, x)), false).Ok?
    requires Print(WorkerSigns(ContentFields(id', a', b', x')), false).Ok?
    ensures (Print(WorkerSigns(ContentFields(id, a, b, x)), false)
             == Print(WorkerSigns(ContentFields(id', a', b', x')), false))
       <==> id == id' && a == a' && b == b' && SameInput(x, x')
  {
    hide Meaning, Print, Text, Put, Remove, ContentFields, SignedFields, SameInput;
    PrintInjective(WorkerSigns(ContentFields(id, a, b, x)), WorkerSigns(ContentFields(id', a', b', x')), false);
    PutNoneMeaning(ContentFields(id, a, b, x), Text("dispute"));
    PutNoneMeaning(ContentFields(id', a', b', x'), Text("dispute"));
    ContentWithoutDispute(id, a, b, x);
    ContentWithoutDispute(id', a', b', x');
    SameSignedFields(id, a, b, x, id', a', b', x');
  }

  /** The base that is hashed means the same exactly when parties and input do. */
  lemma {:induction false} SameBase(a: Str, b: Str, x: ReceiptInput, a': Str, b': Str, x': ReceiptInput)
    ensures Meaning(PyDict(BaseFields(a, b, x)), false) == Meaning(PyDict(BaseFields(a', b', x')), false)
       <==> a == a' && b == b' && SameInput(x, x')
  {
    var version, name := Keyed(Text("receiptVersion"), PyStr(Text("1.0"))), Keyed(Text("receiptId"), PyStr(Nil));
    var es, es' := BaseFields(a, b, x), BaseFields(a', b', x');
    hide Meaning, Text, BaseFields, SameInput;
    SameSignedFields(Nil, a, b, x, Nil, a', b', x');
    if Meaning(PyDict(es), false) == Meaning(PyDict(es'), false) {
      ConsMeaning(name, es, es');
      ConsMeaning(version, Cons(name, es), Cons(name, es'));
    } else if a == a' && b == b' && SameInput(x, x') {
      SameInputSameBase(a, b, x, x');
      DictMeaning(es, false);
      DictMeaning(es', false);
    }
  }

  lemma SameInputSameBase(a: Str, b: Str, x: ReceiptInput, y: ReceiptInput)
    requires SameInput(x, y)
    ensures EntriesMeaning(BaseFields(a, b, x), false) == EntriesMeaning(BaseFields(a, b, y), false)
  {
    SameInputSameMeaning(Nil, a, b, x, y);
    hide Meaning, Text, BaseFields;
    SignedMeaning(a, b, x);
    SignedMeaning(a, b, y);
  }

  lemma SignedMeaning(a: Str, b: Str, x: ReceiptInput)
    ensures var js := EntriesMeaning(SignedFields(Nil, a, b, x), false);
      js.Cons? && js.tail.Cons? && js.tail.tail == EntriesMeaning(BaseFields(a, b, x), false)
  {
    hide Meaning, Text, BaseFields;
    assert EntriesMeaning(SignedFields(Nil, a, b, x).tail, false).tail == EntriesMeaning(BaseFields(a, b, x), false);
  }

  /** Equal receipt ids mean the same parties and the same input, and nothing less, unless the two
      hashed texts collide. */
  lemma {:induction false} ReceiptIdExactly(digest: Str -> Str, a: Str, b: Str, x: ReceiptInput, a': Str, b': Str,
      x': ReceiptInput)
    requires Print(PyDict(BaseFields(a, b, x)), false).Ok? && Print(PyDict(BaseFields(a', b', x')), false).Ok?
    requires var t, t' := Print(PyDict(BaseFields(a, b, x)), false).value,
        Print(PyDict(BaseFields(a', b', x')), false).value;
      digest(t) == digest(t') ==> t == t'
    ensures ReceiptId(digest, a, b, x) == ReceiptId(digest, a', b', x') <==> a == a' && b == b' && SameInput(x, x')
    ensures ReceiptId(digest, a, b, x)
         == Ok(Append(Text("sha256:"), digest(Print(PyDict(BaseFields(a, b, x)), false).value)))
  {
    hide Meaning, Print, BaseFields, SameInput, Text;
    EqualIdsEqualBase(digest, a, b, x, a', b', x');
    SameBase(a, b, x, a', b', x');
  }
}
