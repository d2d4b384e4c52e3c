/** What the insertion order of a dict's entries can change in its canonical text. */
module DictOrder {
  // A dict means its entries' meanings, sorted; so order shows exactly where the sort is not
  // determined, and that is between entries whose keys have one UTF-16 form.

  import opened Options
  import opened Lists
  import opened Numbers
  import opened KeyOrder
  import opened CanonicalJson

  type Field = Keyed<PyValue>
  type Fields = List<Keyed<PyValue>>

  // ---------------------------------------------------------------- sorting meanings

  ghost predicate BelowMeaning(key: Str, js: List<Keyed<Json>>) {
    forall j :: j in Elements(js) ==> Before(key, j.key)
  }

  lemma {:induction false} BelowCarries(e: Field, es: Fields, keepNull: bool)
    requires Below(e, es)
    ensures BelowMeaning(e.key, EntriesMeaning(es, keepNull))
    decreases es
  {
    hide Meaning, Before;
    if es.Cons? {
      assert Below(e, es.tail);
      BelowCarries(e, es.tail, keepNull);
      assert es.head in Elements(es);
    }
  }

  lemma InsertInFront(j: Keyed<Json>, js: List<Keyed<Json>>)
    requires BelowMeaning(j.key, js)
    ensures Insert(j, js) == Cons(j, js)
  {
    if js.Cons? {
      assert js.head in Elements(js);
    }
  }

  /** Inserting an entry into sorted entries inserts its meaning into their meanings. */
  lemma {:induction false} InsertMeaning(e: Field, es: Fields, keepNull: bool)
    requires Sorted(es)
    ensures EntriesMeaning(Insert(e, es), keepNull) ==
      if Dropped(e.item, keepNull) then EntriesMeaning(es, keepNull)
      else Insert(Keyed(e.key, Meaning(e.item, keepNull)), EntriesMeaning(es, keepNull))
    decreases es
  {
    hide Meaning, Before;
    if es.Cons? {
      if Before(e.key, es.head.key) {
        InsertSorted(e, es);
        assert Below(e, es) by {
          assert Sorted(Insert(e, es));
        }
        BelowCarries(e, es, keepNull);
        InsertInFront(Keyed(e.key, Meaning(e.item, keepNull)), EntriesMeaning(es, keepNull));
      } else {
        InsertMeaning(e, es.tail, keepNull);
      }
    }
  }

  /** Sorting and taking meanings commute, so a dict means its meanings sorted. */
  lemma {:induction false} SortMeaning(es: Fields, keepNull: bool)
    ensures EntriesMeaning(SortByKey(es), keepNull) == SortByKey(EntriesMeaning(es, keepNull))
    decreases es
  {
    hide Meaning;
    if es.Cons? {
      SortMeaning(es.tail, keepNull);
      SortCorrect(es.tail);
      InsertMeaning(es.head, SortByKey(es.tail), keepNull);
    }
  }

  lemma DictMeaning(es: Fields, keepNull: bool)
    ensures Meaning(PyDict(es), keepNull) == JObject(SortByKey(EntriesMeaning(es, keepNull)))
  {
    SortMeaning(es, keepNull);
  }

  // ---------------------------------------------------------------- reordering entries

  /** The entries that are printed. */
  function Kept(es: Fields, keepNull: bool): Fields {
    match es
    case Nil => Nil
    case Cons(e, t) => if Dropped(e.item, keepNull) then Kept(t, keepNull) else Cons(e, Kept(t, keepNull))
  }

  lemma {:induction false} KeptElements(es: Fields, keepNull: bool, e: Field)
    ensures e in Elements(Kept(es, keepNull)) <==> e in Elements(es) && !Dropped(e.item, keepNull)
  {
    if es.Cons? {
      KeptElements(es.tail, keepNull, e);
    }
  }

  function MeaningOf(e: Field, keepNull: bool): Keyed<Json> {
    Keyed(e.key, Meaning(e.item, keepNull))
  }

  lemma {:induction false} MeaningComesFrom(es: Fields, keepNull: bool, j: Keyed<Json>) returns (e: Field)
    requires j in Elements(EntriesMeaning(es, keepNull))
    ensures e in Elements(Kept(es, keepNull)) && j == MeaningOf(e, keepNull)
    decreases es
  {
    hide Meaning;
    if !Dropped(es.head.item, keepNull) && j == MeaningOf(es.head, keepNull) {
      e := es.head;
    } else {
      e := MeaningComesFrom(es.tail, keepNull, j);
    }
  }

  lemma {:induction false} WithoutMeaning(es: Fields, keepNull: bool, e: Field)
    requires e in Elements(es)
    ensures Elements(EntriesMeaning(es, keepNull)) ==
      (if Dropped(e.item, keepNull) then multiset{} else multiset{MeaningOf(e, keepNull)})
      + Elements(EntriesMeaning(Without(es, e), keepNull))
    decreases es
  {
    hide Meaning;
    if es.head != e {
      WithoutMeaning(es.tail, keepNull, e);
    }
  }

  /** The same entries in another order have the same meanings in another order. */
  lemma {:induction false} MeaningsPermute(es: Fields, fs: Fields, keepNull: bool)
    requires Elements(es) == Elements(fs)
    ensures Elements(EntriesMeaning(es, keepNull)) == Elements(EntriesMeaning(fs, keepNull))
    decreases es
  {
    hide Meaning;
    if es.Nil? {
      ElementsEmpty(fs);
    } else {
      assert es.head in Elements(es);
      WithoutRemoves(fs, es.head);
      WithoutMeaning(fs, keepNull, es.head);
      assert Elements(Without(fs, es.head)) == Elements(fs) - multiset{es.head} == Elements(es.tail);
      MeaningsPermute(es.tail, Without(fs, es.head), keepNull);
    }
  }

  lemma {:induction false} EntriesPrintable(es: Fields, keepNull: bool)
    ensures PrintEntries(es, keepNull).Ok?
       <==> forall e | e in Elements(es) && !Dropped(e.item, keepNull) :: Print(e.item, keepNull).Ok?
    decreases es
  {
    hide Print;
    if es.Cons? {
      EntriesPrintable(es.tail, keepNull);
      assert es.head in Elements(es);
    }
  }

  /** Whether a dict can be printed does not depend on the order of its entries. */
  lemma PrintablePermutes(es: Fields, fs: Fields, keepNull: bool)
    requires Elements(es) == Elements(fs) && Print(PyDict(es), keepNull).Ok?
    ensures Print(PyDict(fs), keepNull).Ok?
  {
    hide Print, PrintEntries, Dropped, SortByKey, Sorted;
    SortCorrect(es);
    SortCorrect(fs);
    DictPrintable(es, keepNull);
    DictPrintable(fs, keepNull);
    EntriesPrintable(SortByKey(es), keepNull);
    EntriesPrintable(SortByKey(fs), keepNull);
  }

  lemma DictPrintable(es: Fields, keepNull: bool)
    ensures Print(PyDict(es), keepNull).Ok? <==> PrintEntries(SortByKey(es), keepNull).Ok?
  {
    hide PrintEntries, SortByKey;
  }

  // ---------------------------------------------------------------- exactly what can be printed

  /** A finite number, and as an integer one that a double holds exactly with its neighbours. */
  predicate Renderable(n: PyNumber) {
    match n
    case PyInt(i) => -9007199254740991 <= i <= 9007199254740991
    case PyFloat(_, _) => true
    case _ => false
  }

  lemma NumberRejected(n: PyNumber)
    ensures NumberText(n).Ok? <==> Renderable(n)
    ensures n.PyInt? && !Renderable(n) ==> NumberText(n) == Err(UnsafeInteger)
    ensures n.NotANumber? ==> NumberText(n) == Err(NanRejected)
    ensures n.Infinite? ==> NumberText(n) == Err(InfinityRejected)
  {}

  /** Every number in the value can be rendered. */
  predicate AllRenderable(v: PyValue)
    decreases v
  {
    match v
    case PyNum(n) => Renderable(n)
    case PyList(items) => ItemsRenderable(items)
    case PyDict(entries) => FieldsRenderable(entries)
    case _ => true
  }

  predicate ItemsRenderable(items: List<PyValue>)
    decreases items
  {
    items.Cons? ==> AllRenderable(items.head) && ItemsRenderable(items.tail)
  }

  predicate FieldsRenderable(es: Fields)
    decreases es
  {
    es.Cons? ==> AllRenderable(es.head.item) && FieldsRenderable(es.tail)
  }

  /** A value can be printed if and only if every number in it, however deep, can be rendered. */
  lemma {:induction false} PrintableExactly(v: PyValue, keepNull: bool)
    ensures Print(v, keepNull).Ok? <==> AllRenderable(v)
    decreases v
  {
    match v
    case PyNum(n) => NumberRejected(n);
    case PyList(items) => ItemsExactly(items, keepNull);
    case PyDict(entries) =>
      hide SortByKey, PrintEntries, Sorted;
      SortCorrect(entries);
      EntriesPrintable(entries, keepNull);
      EntriesPrintable(SortByKey(entries), keepNull);
      DictPrintable(entries, keepNull);
      FieldsExactly(entries, keepNull);
    case _ =>
  }

  lemma {:induction false} ItemsExactly(items: List<PyValue>, keepNull: bool)
    ensures PrintItems(items, keepNull).Ok? <==> ItemsRenderable(items)
    decreases items
  {
    hide Print, AllRenderable;
    if items.Cons? {
      PrintableExactly(items.head, keepNull);
      ItemsExactly(items.tail, keepNull);
    }
  }

  lemma {:induction false} FieldsExactly(es: Fields, keepNull: bool)
    ensures PrintEntries(es, keepNull).Ok? <==> FieldsRenderable(es)
    decreases es
  {
    if es.Cons? {
      PrintableExactly(es.head.item, keepNull);
      hide Print;
      FieldsExactly(es.tail, keepNull);
    }
  }

  // ---------------------------------------------------------------- exactly when order shows

  /** A dict prints the same whatever the insertion order of its entries, if no two of its keys
      have the same UTF-16 form: so, in particular, if all keys are distinct and well paired. */
  lemma {:induction false} InsertionOrderIrrelevant(es: List<Keyed<PyValue>>, fs: List<Keyed<PyValue>>, keepNull: bool)
    requires Elements(es) == Elements(fs) && NoTies(es)
    ensures Print(PyDict(es), keepNull) == Print(PyDict(fs), keepNull)
    ensures Meaning(PyDict(es), keepNull) == Meaning(PyDict(fs), keepNull)
  {
    hide SortByKey, PrintEntries, EntriesMeaning;
    SortOrderIndependent(es, fs);
  }

  /** No two entries of a dict have one key. */
  ghost predicate DistinctKeys(es: Fields) {
    forall e, f :: e in Elements(es) && f in Elements(es) && e.key == f.key ==> e == f
  }

  lemma UntiedMeanings(es: Fields, keepNull: bool)
    requires NoTies(Kept(es, keepNull))
    ensures NoTies(EntriesMeaning(es, keepNull))
  {
    hide Meaning, Utf16, Kept, EntriesMeaning;
    forall i, j | i in Elements(EntriesMeaning(es, keepNull)) && j in Elements(EntriesMeaning(es, keepNull))
        && Utf16(i.key) == Utf16(j.key)
      ensures i == j
    {
      var e := MeaningComesFrom(es, keepNull, i);
      var f := MeaningComesFrom(es, keepNull, j);
    }
  }

  lemma SwappedTieMeaning(e: Field, f: Field, rest: Fields, keepNull: bool)
    requires Utf16(e.key) == Utf16(f.key) && e.key != f.key && !Dropped(e.item, keepNull) && !Dropped(f.item, keepNull)
    ensures Meaning(PyDict(Cons(e, Cons(f, rest))), keepNull) != Meaning(PyDict(Cons(f, Cons(e, rest))), keepNull)
  {
    hide Meaning, SortByKey, Utf16;
    DictMeaning(Cons(e, Cons(f, rest)), keepNull);
    DictMeaning(Cons(f, Cons(e, rest)), keepNull);
    SwappedTie(MeaningOf(e, keepNull), MeaningOf(f, keepNull), EntriesMeaning(rest, keepNull));
  }

  /** A dict means the same in every insertion order if and only if no two of the entries that are
      printed tie. */
  lemma {:induction false} MeaningOrderExactly(es: Fields, keepNull: bool)
    requires DistinctKeys(es)
    ensures (forall fs | Elements(fs) == Elements(es) :: Meaning(PyDict(fs), keepNull) == Meaning(PyDict(es), keepNull))
       <==> NoTies(Kept(es, keepNull))
  {
    hide Meaning, Utf16, Kept, EntriesMeaning, SortByKey;
    if NoTies(Kept(es, keepNull)) {
      UntiedMeanings(es, keepNull);
      DictMeaning(es, keepNull);
      forall fs | Elements(fs) == Elements(es)
        ensures Meaning(PyDict(fs), keepNull) == Meaning(PyDict(es), keepNull)
      {
        DictMeaning(fs, keepNull);
        MeaningsPermute(es, fs, keepNull);
        SortOrderIndependent(EntriesMeaning(es, keepNull), EntriesMeaning(fs, keepNull));
      }
    } else {
      var e, f :| e in Elements(Kept(es, keepNull)) && f in Elements(Kept(es, keepNull))
          && Utf16(e.key) == Utf16(f.key) && e != f;
      KeptElements(es, keepNull, e);
      KeptElements(es, keepNull, f);
      var rest := TwoInFront(es, e, f);
      SwappedTieMeaning(e, f, rest, keepNull);
      assert Elements(Cons(e, Cons(f, rest))) == Elements(es) == Elements(Cons(f, Cons(e, rest)));
    }
  }

  /** The text of a dict depends on the insertion order of its entries exactly when two entries
      that are printed have keys of one UTF-16 form. */
  lemma {:induction false} OrderMattersExactlyOnTies(es: Fields, keepNull: bool)
    requires DistinctKeys(es) && Print(PyDict(es), keepNull).Ok?
    ensures (forall fs | Elements(fs) == Elements(es) :: Print(PyDict(fs), keepNull) == Print(PyDict(es), keepNull))
       <==> NoTies(Kept(es, keepNull))
  {
    hide Print, Meaning, NoTies, Kept, DistinctKeys;
    MeaningOrderExactly(es, keepNull);
    forall fs | Elements(fs) == Elements(es)
      ensures Print(PyDict(fs), keepNull) == Print(PyDict(es), keepNull)
         <==> Meaning(PyDict(fs), keepNull) == Meaning(PyDict(es), keepNull)
    {
      PrintablePermutes(es, fs, keepNull);
      PrintInjective(PyDict(fs), PyDict(es), keepNull);
    }
  }

  /** The shortest tie: a surrogate pair spelled as two code points, and the astral character. */
  lemma SurrogatePairTies()
    ensures var spelled: Str := Cons(0xD83D, Cons(0xDE00, Nil));
      var astral: Str := Cons(0x1F600, Nil);
      spelled != astral && Utf16(spelled) == Utf16(astral) && !WellPaired(spelled) && WellPaired(astral)
  {
    var low: Str := Cons(0xDE00, Nil);
    assert Utf16(low) == UnitBytes(0xDE00, Nil);
  }
}
