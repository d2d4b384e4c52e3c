/** Receipt ids and the bytes two parties sign, both over canonical JSON. */
module ReceiptContent {
  // The id is a hash of the content; the worker signs the content without its dispute field; the
  // requester signs the receipt it was served without signatures, status, dispute, visibility.

  import opened Options
  import opened Lists
  import opened Numbers
  import opened KeyOrder
  import opened CanonicalJson
  import opened DictOrder

  // ---------------------------------------------------------------- dicts

  /** `{**d, k: v}`: an existing key keeps its place, a new key goes last. */
  function Put(es: Fields, k: Str, v: PyValue): Fields {
    match es
    case Nil => Cons(Keyed(k, v), Nil)
    case Cons(e, t) => if e.key == k then Cons(Keyed(k, v), t) else Cons(e, Put(t, k, v))
  }

  function Remove(es: Fields, k: Str): Fields {
    match es
    case Nil => Nil
    case Cons(e, t) => if e.key == k then t else Cons(e, Remove(t, k))
  }

  lemma {:induction false} PutNoneRemoves(es: Fields, k: Str)
    ensures EntriesMeaning(Put(es, k, PyNone), false) == EntriesMeaning(Remove(es, k), false)
    decreases es
  {
    hide Meaning;
    if es.Cons? && es.head.key != k {
      PutNoneRemoves(es.tail, k);
    }
  }

  // ---------------------------------------------------------------- the signed bytes

  function TextFrom(s: string, i: nat): Str
    requires i <= |s|
    decreases |s| - i
  {
    if i == |s| then Nil else Cons(s[i] as int, TextFrom(s, i + 1))
  }

  function Text(s: string): Str {
    TextFrom(s, 0)
  }

  lemma {:induction false} TextFromInjective(a: string, b: string, i: nat)
    requires i <= |a| && i <= |b| && TextFrom(a, i) == TextFrom(b, i)
    ensures |a| == |b| && forall j | i <= j < |a| :: a[j] == b[j]
    decreases |a| - i
  {
    if i < |a| {
      TextFromInjective(a, b, i + 1);
    }
  }

  lemma TextInjective(a: string, b: string)
    requires Text(a) == Text(b)
    ensures a == b
  {
    TextFromInjective(a, b, 0);
  }

  /** What the worker signs: the content with its dispute placeholder set to None. */
  function WorkerSigns(content: Fields): PyValue {
    PyDict(Put(content, Text("dispute"), PyNone))
  }

  /** What the requester signs: the receipt with every later field set to None. */
  function RequesterSigns(receipt: Fields): PyValue {
    var (g, s, d, v) := (Text("signatures"), Text("status"), Text("dispute"), Text("visibility"));
    PyDict(Put(Put(Put(Put(receipt, g, PyNone), s, PyNone), d, PyNone), v, PyNone))
  }

  function WithoutLaterFields(receipt: Fields): Fields {
    Remove(Remove(Remove(Remove(receipt, Text("visibility")), Text("dispute")), Text("status")), Text("signatures"))
  }

  /** Besides the four later fields the receipt holds the content's, in any order and in any form
      that means the same: None fields may be missing, nested ones too, and 1.0 may have become 1. */
  ghost predicate SameFields(receipt: Fields, content: Fields) {
    Elements(EntriesMeaning(WithoutLaterFields(receipt), false))
        == Elements(EntriesMeaning(Remove(content, Text("dispute")), false))
  }

  lemma PutNoneMeaning(es: Fields, k: Str)
    ensures Meaning(PyDict(Put(es, k, PyNone)), false) == Meaning(PyDict(Remove(es, k)), false)
  {
    hide Meaning, EntriesMeaning, SortByKey;
    PutNoneRemoves(es, k);
    DictMeaning(Put(es, k, PyNone), false);
    DictMeaning(Remove(es, k), false);
  }

  lemma {:induction false} RemovePut(es: Fields, k: Str, l: Str)
    requires k != l
    ensures Remove(Put(es, k, PyNone), l) == Put(Remove(es, l), k, PyNone)
  {
    if es.Cons? {
      RemovePut(es.tail, k, l);
    }
  }

  lemma FourNones(es: Fields, g: Str, s: Str, d: Str, v: Str)
    requires g != s && g != d && g != v && s != d && s != v && d != v
    ensures Meaning(PyDict(Put(Put(Put(Put(es, g, PyNone), s, PyNone), d, PyNone), v, PyNone)), false)
            == Meaning(PyDict(Remove(Remove(Remove(Remove(es, v), d), s), g)), false)
  {
    hide Meaning, Put, Remove;
    var e1 := Put(es, g, PyNone);
    var e2 := Put(e1, s, PyNone);
    var e3 := Put(e2, d, PyNone);
    PutNoneMeaning(e3, v);
    RemovePut(e2, d, v);
    RemovePut(e1, s, v);
    RemovePut(es, g, v);
    var r1 := Remove(es, v);
    PutNoneMeaning(Put(Put(r1, g, PyNone), s, PyNone), d);
    RemovePut(Put(r1, g, PyNone), s, d);
    RemovePut(r1, g, d);
    var r2 := Remove(r1, d);
    PutNoneMeaning(Put(r2, g, PyNone), s);
    RemovePut(r2, g, s);
    PutNoneMeaning(Remove(r2, s), g);
  }

  lemma LaterFieldNamesDiffer()
    ensures var (g, s, d, v) := (Text("signatures"), Text("status"), Text("dispute"), Text("visibility"));
      g != s && g != d && g != v && s != d && s != v && d != v
  {
    hide Text;
    var g, s, d, v := "signatures", "status", "dispute", "visibility";
    if Text(g) == Text(s) { TextInjective(g, s); }
    if Text(g) == Text(d) { TextInjective(g, d); }
    if Text(g) == Text(v) { TextInjective(g, v); }
    if Text(s) == Text(d) { TextInjective(s, d); }
    if Text(s) == Text(v) { TextInjective(s, v); }
    if Text(d) == Text(v) { TextInjective(d, v); }
  }

  /** The two parties sign the same bytes exactly when the receipt and the content, each without
      the fields its signer leaves out, mean the same. */
  lemma SameBytesExactly(content: Fields, receipt: Fields)
    requires Print(WorkerSigns(content), false).Ok? && Print(RequesterSigns(receipt), false).Ok?
    ensures Print(WorkerSigns(content), false) == Print(RequesterSigns(receipt), false)
       <==> (Meaning(PyDict(Remove(content, Text("dispute"))), false)
             == Meaning(PyDict(WithoutLaterFields(receipt)), false))
  {
    hide Meaning, Print, Text, Put, Remove;
    LaterFieldNamesDiffer();
    FourNones(receipt, Text("signatures"), Text("status"), Text("dispute"), Text("visibility"));
    PutNoneMeaning(content, Text("dispute"));
    PrintInjective(WorkerSigns(content), RequesterSigns(receipt), false);
  }

  /** Both parties sign the same bytes, whatever the served receipt holds in its later fields, in
      whatever order it lists its fields and in whatever form it holds their values. */
  lemma {:induction false} BothSignTheSameBytes(content: Fields, receipt: Fields)
    requires SameFields(receipt, content) && NoTies(EntriesMeaning(Remove(content, Text("dispute")), false))
    requires Print(WorkerSigns(content), false).Ok? && Print(RequesterSigns(receipt), false).Ok?
    ensures Print(WorkerSigns(content), false) == Print(RequesterSigns(receipt), false)
  {
    hide Meaning, Print, Text, Remove, NoTies, SortByKey;
    SameBytesExactly(content, receipt);
    DictMeaning(Remove(content, Text("dispute")), false);
    DictMeaning(WithoutLaterFields(receipt), false);
    SortOrderIndependent(EntriesMeaning(Remove(content, Text("dispute")), false),
        EntriesMeaning(WithoutLaterFields(receipt), false));
  }

  // ---------------------------------------------------------------- receipt ids

  /** What a worker reports; a missing settlement is None. */
  datatype ReceiptInput = ReceiptInput(jobId: PyValue, task: PyValue, result: PyValue, settlement: PyValue,
      verification: PyValue)

  function Party(id: Str, role: string): PyValue {
    PyDict(Cons(Keyed(Text("id"), PyStr(id)), Cons(Keyed(Text("role"), PyStr(Text(role))), Nil)))
  }

  function BaseFields(a: Str, b: Str, x: ReceiptInput): Fields {
    Cons(Keyed(Text("jobId"), x.jobId),
    Cons(Keyed(Text("agentA"), Party(a, "requester")),
    Cons(Keyed(Text("agentB"), Party(b, "worker")),
    Cons(Keyed(Text("task"), x.task),
    Cons(Keyed(Text("result"), x.result),
    Cons(Keyed(Text("settlement"), x.settlement),
    Cons(Keyed(Text("verification"), x.verification), Nil)))))))
  }

  /** `digest` is the hex SHA-256 of a text's UTF-8 bytes. */
  function ReceiptId(digest: Str -> Str, a: Str, b: Str, x: ReceiptInput): Result<Str, NumberError> {
    match Print(PyDict(BaseFields(a, b, x)), false)
    case Err(e) => Err(e)
    case Ok(text) => Ok(Append(Text("sha256:"), digest(text)))
  }

  function DisputePlaceholder(): PyValue {
    PyDict(Cons(Keyed(Text("status"), PyStr(Text("none"))), Cons(Keyed(Text("windowClosesAt"), PyNone), Nil)))
  }

  function ContentFields(id: Str, a: Str, b: Str, x: ReceiptInput): Fields {
    Cons(Keyed(Text("receiptVersion"), PyStr(Text("1.0"))),
    Cons(Keyed(Text("receiptId"), PyStr(id)),
    Append(BaseFields(a, b, x), Cons(Keyed(Text("dispute"), DisputePlaceholder()), Nil))))
  }

  lemma {:induction false} AppendInjective(p: Str, s: Str, t: Str)
    requires Append(p, s) == Append(p, t)
    ensures s == t
  {
    if p.Cons? {
      AppendInjective(p.tail, s, t);
    }
  }

  /** Equal ids name equal content: if the two hashed texts do not collide, the bases mean the
      same, entry by entry, up to dropped None fields and numerically equal numbers. */
  lemma EqualIdsEqualBase(digest: Str -> Str, a: Str, b: Str, x: ReceiptInput, a': Str, b': Str, x': ReceiptInput)
    requires Print(PyDict(BaseFields(a, b, x)), false).Ok? && Print(PyDict(BaseFields(a', b', x')), false).Ok?
    requires var t, t' := Print(PyDict(BaseFields(a, b, x)), false).value,
        Print(PyDict(BaseFields(a', b', x')), false).value;
      digest(t) == digest(t') ==> t == t'
    ensures ReceiptId(digest, a, b, x) == ReceiptId(digest, a', b', x')
            <==> Meaning(PyDict(BaseFields(a, b, x)), false) == Meaning(PyDict(BaseFields(a', b', x')), false)
  {
    hide Meaning, Print, BaseFields, Text;
    var v, v' := PyDict(BaseFields(a, b, x)), PyDict(BaseFields(a', b', x'));
    PrintInjective(v, v', false);
    if ReceiptId(digest, a, b, x) == ReceiptId(digest, a', b', x') {
      AppendInjective(Text("sha256:"), digest(Print(v, false).value), digest(Print(v', false).value));
    }
  }

  predicate Absent(es: Fields, k: Str) {
    match es
    case Nil => true
    case Cons(e, t) => e.key != k && Absent(t, k)
  }

  lemma {:induction false} RemoveBeyond(es: Fields, k: Str, rest: Fields)
    requires Absent(es, k)
    ensures Remove(Append(es, rest), k) == Append(es, Remove(rest, k))
  {
    if es.Cons? {
      RemoveBeyond(es.tail, k, rest);
    }
  }

  /** No field of the content but the last has the name of a later field. */
  lemma BaseNamesApart(name: string, a: Str, b: Str, x: ReceiptInput)
    requires name in {"signatures", "status", "dispute", "visibility"}
    ensures Absent(BaseFields(a, b, x), Text(name))
    ensures Text("receiptVersion") != Text(name) && Text("receiptId") != Text(name)
  {
    hide Party, Text;
    TextsApart(name);
    var last := Cons(Keyed(Text("settlement"), x.settlement), Cons(Keyed(Text("verification"), x.verification), Nil));
    assert Absent(last, Text(name)) by {
      assert Absent(last.tail.tail, Text(name));
    }
    var middle := Cons(Keyed(Text("task"), x.task), Cons(Keyed(Text("result"), x.result), last));
    assert Absent(middle, Text(name)) by {
      assert Absent(middle.tail, Text(name));
    }
    var front := Cons(Keyed(Text("agentA"), Party(a, "requester")),
        Cons(Keyed(Text("agentB"), Party(b, "worker")), middle));
    assert Absent(front, Text(name)) by {
      assert Absent(front.tail, Text(name));
    }
  }

  lemma TextsApart(name: string)
    ensures forall other :: other != name ==> Text(other) != Text(name)
  {
    hide Text;
    forall other | Text(other) == Text(name)
      ensures other == name
    {
      TextInjective(other, name);
    }
  }

  function SignedFields(id: Str, a: Str, b: Str, x: ReceiptInput): Fields {
    Cons(Keyed(Text("receiptVersion"), PyStr(Text("1.0"))),
        Cons(Keyed(Text("receiptId"), PyStr(id)), BaseFields(a, b, x)))
  }

  /** The dispute field is the last of the content, and no other field has its name. */
  lemma ContentWithoutDispute(id: Str, a: Str, b: Str, x: ReceiptInput)
    ensures Remove(ContentFields(id, a, b, x), Text("dispute")) == SignedFields(id, a, b, x)
  {
    var es, last := BaseFields(a, b, x), Cons(Keyed(Text("dispute"), DisputePlaceholder()), Nil);
    hide Text, BaseFields, DisputePlaceholder;
    BaseNamesApart("dispute", a, b, x);
    RemoveBeyond(es, Text("dispute"), last);
    assert Remove(last, Text("dispute")) == Nil;
    AppendNil(es);
  }

  // ---------------------------------------------------------------- what the server stores

  lemma {:induction false} TextFromWellPaired(s: string, i: nat)
    requires i <= |s|
    ensures WellPaired(TextFrom(s, i))
    decreases |s| - i
  {
    if i < |s| {
      TextFromWellPaired(s, i + 1);
    }
  }

  /** Different names differ in UTF-16 too. */
  lemma NamesDoNotTie(m: string, n: string)
    requires m != n
    ensures Utf16(Text(m)) != Utf16(Text(n))
  {
    hide Utf16, WellPaired;
    TextFromWellPaired(m, 0);
    TextFromWellPaired(n, 0);
    if Utf16(Text(m)) == Utf16(Text(n)) {
      Utf16Injective(Text(m), Text(n));
      TextInjective(m, n);
    }
  }

  /** The names of the fields, in order. */
  function Named(names: seq<string>, i: nat, es: Fields): bool
    decreases es
  {
    match es
    case Nil => i == |names|
    case Cons(e, t) => i < |names| && e.key == Text(names[i]) && Named(names, i + 1, t)
  }

  ghost predicate Distinct(names: seq<string>) {
    forall i, j | 0 <= i < j < |names| :: names[i] != names[j]
  }

  lemma {:induction false} NamedAt(names: seq<string>, i: nat, es: Fields, e: Field) returns (k: nat)
    requires Named(names, i, es) && e in Elements(es)
    ensures i <= k < |names| && e.key == Text(names[k])
    decreases es
  {
    hide Text;
    if e == es.head {
      k := i;
    } else {
      k := NamedAt(names, i + 1, es.tail, e);
    }
  }

  /** Fields with distinct names do not tie. */
  lemma {:induction false} NamedFieldsDoNotTie(names: seq<string>, i: nat, es: Fields)
    requires Distinct(names) && Named(names, i, es)
    ensures NoTies(es)
    decreases es
  {
    hide Text, Utf16;
    if es.Cons? {
      NamedFieldsDoNotTie(names, i + 1, es.tail);
      forall e | e in Elements(es.tail)
        ensures Utf16(e.key) != Utf16(es.head.key)
      {
        var k := NamedAt(names, i + 1, es.tail, e);
        NamesDoNotTie(names[k], names[i]);
      }
    }
  }

  const SIGNED_NAMES: seq<string> :=
    ["receiptVersion", "receiptId", "jobId", "agentA", "agentB", "task", "result", "settlement", "verification"]

  lemma SignedFieldsNamed(id: Str, a: Str, b: Str, x: ReceiptInput)
    ensures Named(SIGNED_NAMES, 0, SignedFields(id, a, b, x)) && Distinct(SIGNED_NAMES)
  {
    hide Text, Party;
    var es := SignedFields(id, a, b, x);
    var last := es.tail.tail.tail.tail.tail;
    assert Named(SIGNED_NAMES, 9, last.tail.tail.tail.tail);
    assert Named(SIGNED_NAMES, 8, last.tail.tail.tail);
    assert Named(SIGNED_NAMES, 6, last.tail);
    assert Named(SIGNED_NAMES, 4, es.tail.tail.tail.tail);
    assert Named(SIGNED_NAMES, 2, es.tail.tail);
  }

  lemma SignedFieldsDoNotTie(id: Str, a: Str, b: Str, x: ReceiptInput)
    ensures NoTies(EntriesMeaning(SignedFields(id, a, b, x), false))
  {
    SignedFieldsNamed(id, a, b, x);
    var es := SignedFields(id, a, b, x);
    hide SignedFields, NoTies, Named;
    NamedFieldsDoNotTie(SIGNED_NAMES, 0, es);
    KeptDoNotTie(es, false);
    UntiedMeanings(es, false);
  }

  lemma KeptDoNotTie(es: Fields, keepNull: bool)
    requires NoTies(es)
    ensures NoTies(Kept(es, keepNull))
  {
    hide Utf16, Kept;
    forall e | e in Elements(Kept(es, keepNull))
      ensures e in Elements(es)
    {
      KeptElements(es, keepNull, e);
    }
  }

  /** The draft as createDraft stores it: fields without a value are not stored. */
  function StoredDraft(id: Str, a: Str, b: Str, y: ReceiptInput, signature: PyValue, visibility: PyValue): Fields {
    Append(Kept(SignedFields(id, a, b, y), false),
      Cons(Keyed(Text("dispute"), DisputePlaceholder()),
      Cons(Keyed(Text("signatures"), PyDict(Cons(Keyed(Text("agentB"), signature), Nil))),
      Cons(Keyed(Text("status"), PyStr(Text("draft"))),
      Cons(Keyed(Text("visibility"), visibility), Nil)))))
  }

  /** What the server was sent is what the worker holds, up to what JSON does not carry. */
  ghost predicate SameInput(x: ReceiptInput, y: ReceiptInput) {
    && Meaning(x.jobId, false) == Meaning(y.jobId, false)
    && Meaning(x.task, false) == Meaning(y.task, false)
    && Meaning(x.result, false) == Meaning(y.result, false)
    && Meaning(x.settlement, false) == Meaning(y.settlement, false)
    && Meaning(x.verification, false) == Meaning(y.verification, false)
  }

  lemma {:induction false} KeptAbsent(es: Fields, keepNull: bool, k: Str)
    requires Absent(es, k)
    ensures Absent(Kept(es, keepNull), k)
    decreases es
  {
    if es.Cons? {
      KeptAbsent(es.tail, keepNull, k);
    }
  }

  lemma {:induction false} KeptMeaning(es: Fields, keepNull: bool)
    ensures EntriesMeaning(Kept(es, keepNull), keepNull) == EntriesMeaning(es, keepNull)
    decreases es
  {
    hide Meaning;
    if es.Cons? {
      KeptMeaning(es.tail, keepNull);
    }
  }

  /** Without its later fields the stored draft is what it keeps of the content. */
  lemma DraftWithoutLaterFields(id: Str, a: Str, b: Str, y: ReceiptInput, signature: PyValue, visibility: PyValue)
    ensures WithoutLaterFields(StoredDraft(id, a, b, y, signature, visibility))
        == Kept(SignedFields(id, a, b, y), false)
  {
    var es := Kept(SignedFields(id, a, b, y), false);
    var d, g, s, v := Text("dispute"), Text("signatures"), Text("status"), Text("visibility");
    LaterFieldNamesDiffer();
    KeptNamesApart("dispute", id, a, b, y);
    KeptNamesApart("signatures", id, a, b, y);
    KeptNamesApart("status", id, a, b, y);
    KeptNamesApart("visibility", id, a, b, y);
    hide Text, SignedFields, DisputePlaceholder, Kept, Append, Absent;
    var dispute, signatures := Keyed(d, DisputePlaceholder()),
        Keyed(g, PyDict(Cons(Keyed(Text("agentB"), signature), Nil)));
    var status, shown := Keyed(s, PyStr(Text("draft"))), Keyed(v, visibility);
    var rest3 := Cons(dispute, Cons(signatures, Cons(status, Nil)));
    assert Remove(Cons(dispute, Cons(signatures, Cons(status, Cons(shown, Nil)))), v) == rest3 by {
      assert Remove(Cons(status, Cons(shown, Nil)), v) == Cons(status, Nil);
    }
    RemoveBeyond(es, v, Cons(dispute, Cons(signatures, Cons(status, Cons(shown, Nil)))));
    RemoveBeyond(es, d, rest3);
    RemoveBeyond(es, s, Cons(signatures, Cons(status, Nil)));
    RemoveBeyond(es, g, Cons(signatures, Nil));
    AppendNil(es);
  }

  lemma KeptNamesApart(name: string, id: Str, a: Str, b: Str, y: ReceiptInput)
    requires name in {"signatures", "status", "dispute", "visibility"}
    ensures Absent(Kept(SignedFields(id, a, b, y), false), Text(name))
  {
    hide Text, BaseFields;
    BaseNamesApart(name, a, b, y);
    assert Absent(SignedFields(id, a, b, y).tail, Text(name));
    KeptAbsent(SignedFields(id, a, b, y), false, Text(name));
  }

  lemma SameInputSameMeaning(id: Str, a: Str, b: Str, x: ReceiptInput, y: ReceiptInput)
    requires SameInput(x, y)
    ensures EntriesMeaning(SignedFields(id, a, b, x), false) == EntriesMeaning(SignedFields(id, a, b, y), false)
  {
    hide Meaning, Text, Party;
    var fs, gs := SignedFields(id, a, b, x), SignedFields(id, a, b, y);
    assert AlikeFields(fs, gs) by {
      var last, last' := fs.tail.tail.tail.tail.tail, gs.tail.tail.tail.tail.tail;
      assert AlikeFields(last.tail.tail.tail, last'.tail.tail.tail);
      assert AlikeFields(last.tail, last'.tail);
      assert AlikeFields(fs.tail.tail.tail.tail, gs.tail.tail.tail.tail);
      assert AlikeFields(fs.tail.tail, gs.tail.tail);
    }
    AlikeFieldsSameMeaning(fs, gs);
  }

  /** Field by field the same name and the same meaning. */
  predicate AlikeFields(es: Fields, fs: Fields) {
    match es
    case Nil => fs.Nil?
    case Cons(e, t) =>
      fs.Cons? && e.key == fs.head.key && Meaning(e.item, false) == Meaning(fs.head.item, false)
          && AlikeFields(t, fs.tail)
  }

  lemma {:induction false} AlikeFieldsSameMeaning(es: Fields, fs: Fields)
    requires AlikeFields(es, fs)
    ensures EntriesMeaning(es, false) == EntriesMeaning(fs, false)
    decreases es
  {
    hide Meaning;
    if es.Cons? {
      AlikeFieldsSameMeaning(es.tail, fs.tail);
      NoneMeansNull(es.head.item, fs.head.item);
    }
  }

  lemma NoneMeansNull(v: PyValue, w: PyValue)
    requires Meaning(v, false) == Meaning(w, false)
    ensures v.PyNone? <==> w.PyNone?
  {}

  /** The draft the server stores holds the same fields as the content the worker signed. */
  lemma StoredDraftHasSameFields(id: Str, a: Str, b: Str, x: ReceiptInput, y: ReceiptInput, signature: PyValue,
      visibility: PyValue)
    requires SameInput(x, y)
    ensures SameFields(StoredDraft(id, a, b, y, signature, visibility), ContentFields(id, a, b, x))
  {
    DraftWithoutLaterFields(id, a, b, y, signature, visibility);
    ContentWithoutDispute(id, a, b, x);
    hide StoredDraft, ContentFields, SignedFields, EntriesMeaning, Text, WithoutLaterFields;
    KeptMeaning(SignedFields(id, a, b, y), false);
    SameInputSameMeaning(id, a, b, x, y);
  }

  /** Every receipt that holds the fields of some worker's content, in whatever order and form, gets
      both signatures over the same bytes: the names of those fields never tie. */
  lemma {:induction false} ReceiptSignedAlike(id: Str, a: Str, b: Str, x: ReceiptInput, receipt: Fields)
    requires SameFields(receipt, ContentFields(id, a, b, x))
    requires Print(WorkerSigns(ContentFields(id, a, b, x)), false).Ok? && Print(RequesterSigns(receipt), false).Ok?
    ensures Print(WorkerSigns(ContentFields(id, a, b, x)), false) == Print(RequesterSigns(receipt), false)
  {
    ContentWithoutDispute(id, a, b, x);
    SignedFieldsDoNotTie(id, a, b, x);
    hide SameFields, ContentFields, SignedFields, NoTies, Print, Text, Remove;
    BothSignTheSameBytes(ContentFields(id, a, b, x), receipt);
  }

  /** In particular the stored draft. */
  lemma {:induction false} DraftSignedAlike(id: Str, a: Str, b: Str, x: ReceiptInput, y: ReceiptInput,
      signature: PyValue, visibility: PyValue)
    requires SameInput(x, y)
    requires Print(WorkerSigns(ContentFields(id, a, b, x)), false).Ok?
    requires Print(RequesterSigns(StoredDraft(id, a, b, y, signature, visibility)), false).Ok?
    ensures Print(WorkerSigns(ContentFields(id, a, b, x)), false)
         == Print(RequesterSigns(StoredDraft(id, a, b, y, signature, visibility)), false)
  {
    hide SameInput, SameFields, StoredDraft, ContentFields, Print;
    StoredDraftHasSameFields(id, a, b, x, y, signature, visibility);
    ReceiptSignedAlike(id, a, b, x, StoredDraft(id, a, b, y, signature, visibility));
  }

  // ---------------------------------------------------------------- equal ids

  /** Equal receipt ids imply equal signed bytes. */
  lemma {:induction false} EqualIdsEqualSignedContent(digest: Str -> Str, a: Str, b: Str, x: ReceiptInput, a': Str,
      b': Str, x': ReceiptInput, id: Str)
    requires ReceiptId(digest, a, b, x) == Ok(id) && ReceiptId(digest, a', b', x') == Ok(id)
    requires var t, t' := Print(PyDict(BaseFields(a, b, x)), false).value,
        Print(PyDict(BaseFields(a', b', x')), false).value;
      digest(t) == digest(t') ==> t == t'
    requires Print(WorkerSigns(ContentFields(id, a, b, x)), false).Ok?
    requires Print(WorkerSigns(ContentFields(id, a', b', x')), false).Ok?
    ensures Print(WorkerSigns(ContentFields(id, a, b, x)), false)
        == Print(WorkerSigns(ContentFields(id, a', b', x')), false)
  {
    EqualIdsEqualBase(digest, a, b, x, a', b', x');
    ContentWithoutDispute(id, a, b, x);
    ContentWithoutDispute(id, a', b', x');
    hide Meaning, Print, BaseFields, ContentFields, Text, Put, Remove;
    PutNoneMeaning(ContentFields(id, a, b, x), Text("dispute"));
    PutNoneMeaning(ContentFields(id, a', b', x'), Text("dispute"));
    var version, name := Keyed(Text("receiptVersion"), PyStr(Text("1.0"))), Keyed(Text("receiptId"), PyStr(id));
    ConsMeaning(name, BaseFields(a, b, x), BaseFields(a', b', x'));
    ConsMeaning(version, Cons(name, BaseFields(a, b, x)), Cons(name, BaseFields(a', b', x')));
    PrintInjective(WorkerSigns(ContentFields(id, a, b, x)), WorkerSigns(ContentFields(id, a', b', x')), false);
  }

  lemma {:induction false} ConsMeaning(e: Field, es: Fields, fs: Fields)
    requires Meaning(PyDict(es), false) == Meaning(PyDict(fs), false)
    ensures Meaning(PyDict(Cons(e, es)), false) == Meaning(PyDict(Cons(e, fs)), false)
  {
    hide Meaning;
    DictMeaning(es, false);
    DictMeaning(fs, false);
    DictMeaning(Cons(e, es), false);
    DictMeaning(Cons(e, fs), false);
  }
}
