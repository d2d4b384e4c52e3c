/** The order of object keys in canonical JSON (RFC 8785 section 3.2.3): by UTF-16 code unit.
    The printer sorts by the big-endian UTF-16 bytes of each key, where a surrogate code point
    stands for itself. */
module KeyOrder {
  import opened Options
  import opened Lists
  import opened Numbers

  predicate IsHighSurrogate(c: CodePoint) { 0xD800 <= c < 0xDC00 }

  predicate IsLowSurrogate(c: CodePoint) { 0xDC00 <= c < 0xE000 }

  predicate IsSurrogate(c: CodePoint) { 0xD800 <= c < 0xE000 }

  function High(c: CodePoint): (u: int)
    requires c >= 0x10000
    ensures 0xD800 <= u < 0xDC00
  {
    0xD800 + (c - 0x10000) / 0x400
  }

  function Low(c: CodePoint): (u: int)
    requires c >= 0x10000
    ensures 0xDC00 <= u < 0xE000
  {
    0xDC00 + (c - 0x10000) % 0x400
  }

  function UnitBytes(u: int, rest: List<Byte>): List<Byte>
    requires 0 <= u < 0x10000
  {
    Cons(u / 256, Cons(u % 256, rest))
  }

  function Utf16(s: Str): List<Byte> {
    match s
    case Nil => Nil
    case Cons(c, t) =>
      if c < 0x10000 then UnitBytes(c, Utf16(t)) else UnitBytes(High(c), UnitBytes(Low(c), Utf16(t)))
  }

  /** No high surrogate code point stands directly before a low one. */
  predicate WellPaired(s: Str) {
    match s
    case Nil => true
    case Cons(c, t) => (IsHighSurrogate(c) && t.Cons? ==> !IsLowSurrogate(t.head)) && WellPaired(t)
  }

  lemma UnitBytesInjective(u: int, r: List<Byte>, v: int, q: List<Byte>)
    requires 0 <= u < 0x10000 && 0 <= v < 0x10000
    requires UnitBytes(u, r) == UnitBytes(v, q)
    ensures u == v && r == q
  {}

  lemma UnitBytesNotEmpty(u: int, r: List<Byte>)
    requires 0 <= u < 0x10000
    ensures UnitBytes(u, r).Cons?
  {}

  lemma AstralInjective(c: CodePoint, d: CodePoint)
    requires c >= 0x10000 && d >= 0x10000 && High(c) == High(d) && Low(c) == Low(d)
    ensures c == d
  {}

  function FirstUnit(s: Str): (u: int)
    requires s.Cons?
    ensures 0 <= u < 0x10000
  {
    if s.head < 0x10000 then s.head else High(s.head)
  }

  function AfterFirstUnit(s: Str): List<Byte>
    requires s.Cons?
  {
    if s.head < 0x10000 then Utf16(s.tail) else UnitBytes(Low(s.head), Utf16(s.tail))
  }

  lemma Utf16First(s: Str)
    requires s.Cons?
    ensures Utf16(s) == UnitBytes(FirstUnit(s), AfterFirstUnit(s))
  {}

  /** A low surrogate unit at the front of an encoding is a low surrogate code point. */
  lemma LowUnitInFront(s: Str, u: int, rest: List<Byte>)
    requires 0xDC00 <= u < 0xE000 && Utf16(s) == UnitBytes(u, rest)
    ensures s.Cons? && IsLowSurrogate(s.head)
  {
    UnitBytesNotEmpty(u, rest);
    Utf16First(s);
    UnitBytesInjective(FirstUnit(s), AfterFirstUnit(s), u, rest);
  }

  lemma MixedHeadsAbsurd(a: Str, b: Str)
    requires WellPaired(b) && a.Cons? && b.Cons? && a.head >= 0x10000 && b.head < 0x10000
    ensures Utf16(a) != Utf16(b)
  {
    hide UnitBytes;
    if Utf16(a) == Utf16(b) {
      UnitBytesInjective(High(a.head), UnitBytes(Low(a.head), Utf16(a.tail)), b.head, Utf16(b.tail));
      LowUnitInFront(b.tail, Low(a.head), Utf16(a.tail));
    }
  }

  /** Well-paired strings are told apart by their UTF-16 form. */
  lemma {:induction false} Utf16Injective(a: Str, b: Str)
    requires WellPaired(a) && WellPaired(b) && Utf16(a) == Utf16(b)
    ensures a == b
  {
    hide UnitBytes, High, Low;
    if a.Nil? || b.Nil? {
      EncodingNotEmpty(a);
      EncodingNotEmpty(b);
    } else if a.head < 0x10000 && b.head < 0x10000 {
      UnitBytesInjective(a.head, Utf16(a.tail), b.head, Utf16(b.tail));
      Utf16Injective(a.tail, b.tail);
    } else if a.head >= 0x10000 && b.head >= 0x10000 {
      UnitBytesInjective(High(a.head), UnitBytes(Low(a.head), Utf16(a.tail)), High(b.head),
          UnitBytes(Low(b.head), Utf16(b.tail)));
      UnitBytesInjective(Low(a.head), Utf16(a.tail), Low(b.head), Utf16(b.tail));
      AstralInjective(a.head, b.head);
      Utf16Injective(a.tail, b.tail);
    } else if a.head >= 0x10000 {
      MixedHeadsAbsurd(a, b);
    } else {
      MixedHeadsAbsurd(b, a);
    }
  }

  lemma EncodingNotEmpty(s: Str)
    ensures s.Cons? ==> Utf16(s).Cons?
  {}

  function Combined(h: CodePoint, l: CodePoint): (c: CodePoint)
    requires IsHighSurrogate(h) && IsLowSurrogate(l)
    ensures c >= 0x10000 && High(c) == h && Low(c) == l
  {
    0x10000 + (h - 0xD800) * 0x400 + (l - 0xDC00)
  }

  /** The string with every surrogate pair that is spelled out replaced by its character. */
  function Joined(s: Str): Str
    decreases s
  {
    match s
    case Nil => Nil
    case Cons(c, t) =>
      if IsHighSurrogate(c) && t.Cons? && IsLowSurrogate(t.head) then Cons(Combined(c, t.head), Joined(t.tail))
      else Cons(c, Joined(t))
  }

  /** Joining changes no code unit and leaves nothing to join. */
  lemma {:induction false} JoinedKeepsUnits(s: Str)
    ensures Utf16(Joined(s)) == Utf16(s) && WellPaired(Joined(s))
    ensures s.Cons? && !IsLowSurrogate(s.head) ==> Joined(s).Cons? && !IsLowSurrogate(Joined(s).head)
    decreases s
  {
    hide Combined, High, Low, UnitBytes;
    if s.Cons? {
      if IsHighSurrogate(s.head) && s.tail.Cons? && IsLowSurrogate(s.tail.head) {
        JoinedKeepsUnits(s.tail.tail);
      } else {
        JoinedKeepsUnits(s.tail);
      }
    }
  }

  /** Two strings have the same UTF-16 form exactly when they differ only in which of their
      characters are spelled out as surrogate pairs. */
  lemma TiesExactly(a: Str, b: Str)
    ensures Utf16(a) == Utf16(b) <==> Joined(a) == Joined(b)
  {
    hide Utf16, Joined, WellPaired;
    JoinedKeepsUnits(a);
    JoinedKeepsUnits(b);
    if Utf16(a) == Utf16(b) {
      Utf16Injective(Joined(a), Joined(b));
    }
  }

  // ---------------------------------------------------------------- lexicographic order

  predicate AtMost(a: List<Byte>, b: List<Byte>) {
    match a
    case Nil => true
    case Cons(x, t) => b.Cons? && (x < b.head || (x == b.head && AtMost(t, b.tail)))
  }

  lemma {:induction false} AtMostTotal(a: List<Byte>, b: List<Byte>)
    ensures AtMost(a, b) || AtMost(b, a)
  {
    if a.Cons? && b.Cons? {
      AtMostTotal(a.tail, b.tail);
    }
  }

  lemma {:induction false} AtMostAntisymmetric(a: List<Byte>, b: List<Byte>)
    requires AtMost(a, b) && AtMost(b, a)
    ensures a == b
  {
    if a.Cons? {
      AtMostAntisymmetric(a.tail, b.tail);
    }
  }

  lemma {:induction false} AtMostTransitive(a: List<Byte>, b: List<Byte>, c: List<Byte>)
    requires AtMost(a, b) && AtMost(b, c)
    ensures AtMost(a, c)
  {
    if a.Cons? && a.head == b.head && b.head == c.head {
      AtMostTransitive(a.tail, b.tail, c.tail);
    }
  }

  /** The UTF-16 code units of a string, as RFC 8785 compares them: as unsigned numbers. */
  function Units(s: Str): List<int> {
    match s
    case Nil => Nil
    case Cons(c, t) =>
      if c < 0x10000 then Cons(c, Units(t))
      else Cons(0xD800 + (c - 0x10000) / 1024, Cons(0xDC00 + (c - 0x10000) % 1024, Units(t)))
  }

  /** One list is a prefix of the other, or smaller where they first differ. */
  ghost predicate Precedes(a: List<int>, b: List<int>) {
    exists n: nat :: FirstDifference(a, b, n)
  }

  predicate FirstDifference(a: List<int>, b: List<int>, n: nat) {
    if n == 0 then a.Nil? || (b.Cons? && a.head < b.head)
    else a.Cons? && b.Cons? && a.head == b.head && FirstDifference(a.tail, b.tail, n - 1)
  }

  predicate InRange(us: List<int>) {
    us.Cons? ==> 0 <= us.head < 0x10000 && InRange(us.tail)
  }

  function BytesOf(us: List<int>): List<Byte>
    requires InRange(us)
  {
    if us.Nil? then Nil else UnitBytes(us.head, BytesOf(us.tail))
  }

  lemma {:induction false} Utf16Units(s: Str)
    ensures InRange(Units(s)) && Utf16(s) == BytesOf(Units(s))
  {
    if s.Cons? {
      hide UnitBytes;
      Utf16Units(s.tail);
    }
  }

  lemma {:induction false} UnitOrder(a: List<int>, b: List<int>)
    requires InRange(a) && InRange(b)
    ensures AtMost(BytesOf(a), BytesOf(b)) <==> Precedes(a, b)
    decreases a
  {
    if a.Nil? || b.Nil? {
      assert FirstDifference(a, b, 0) <==> a.Nil?;
      assert Precedes(a, b) ==> FirstDifference(a, b, 0);
    } else {
      UnitOrder(a.tail, b.tail);
      assert FirstDifference(a, b, 0) <==> a.head < b.head;
      if a.head == b.head {
        SameFirstUnit(a, b);
      } else {
        assert Precedes(a, b) <==> a.head < b.head by {
          assert forall n: nat :: FirstDifference(a, b, n) ==> n == 0;
        }
      }
    }
  }

  lemma SameFirstUnit(a: List<int>, b: List<int>)
    requires a.Cons? && b.Cons? && a.head == b.head
    ensures Precedes(a, b) <==> Precedes(a.tail, b.tail)
  {
    if Precedes(a, b) {
      var n: nat :| FirstDifference(a, b, n);
      assert FirstDifference(a.tail, b.tail, n - 1);
    }
    if Precedes(a.tail, b.tail) {
      var n: nat :| FirstDifference(a.tail, b.tail, n);
      assert FirstDifference(a, b, n + 1);
    }
  }

  // ---------------------------------------------------------------- stable sort by key

  datatype Keyed<+T> = Keyed(key: Str, item: T)

  predicate Before(k: Str, l: Str) {
    AtMost(Utf16(k), Utf16(l))
  }

  /** The printer's byte comparison is the comparison of code units. */
  lemma BeforeIsUnitOrder(k: Str, l: Str)
    ensures Before(k, l) <==> Precedes(Units(k), Units(l))
  {
    Utf16Units(k);
    Utf16Units(l);
    UnitOrder(Units(k), Units(l));
  }

  function Insert<T>(e: Keyed<T>, es: List<Keyed<T>>): List<Keyed<T>> {
    match es
    case Nil => Cons(e, Nil)
    case Cons(f, t) => if Before(e.key, f.key) then Cons(e, es) else Cons(f, Insert(e, t))
  }

  /** The stable sort: entries whose keys have the same UTF-16 form keep their order. */
  function SortByKey<T>(es: List<Keyed<T>>): List<Keyed<T>> {
    match es
    case Nil => Nil
    case Cons(e, t) => Insert(e, SortByKey(t))
  }

  ghost function Elements<T>(xs: List<T>): multiset<T> {
    match xs
    case Nil => multiset{}
    case Cons(x, t) => multiset{x} + Elements(t)
  }

  ghost predicate Below<T(!new)>(e: Keyed<T>, es: List<Keyed<T>>) {
    forall f :: f in Elements(es) ==> Before(e.key, f.key)
  }

  ghost predicate Sorted<T(!new)>(es: List<Keyed<T>>) {
    match es
    case Nil => true
    case Cons(e, t) => Below(e, t) && Sorted(t)
  }

  lemma {:induction false} InsertKeeps<T>(e: Keyed<T>, es: List<Keyed<T>>)
    ensures Elements(Insert(e, es)) == multiset{e} + Elements(es)
  {
    if es.Cons? && !Before(e.key, es.head.key) {
      InsertKeeps(e, es.tail);
    }
  }

  lemma {:induction false} InsertSorted<T(!new)>(e: Keyed<T>, es: List<Keyed<T>>)
    requires Sorted(es)
    ensures Sorted(Insert(e, es))
  {
    hide Before;
    if es.Cons? {
      if Before(e.key, es.head.key) {
        forall f | f in Elements(es)
          ensures Before(e.key, f.key)
        {
          if f != es.head {
            BeforeTransitive(e.key, es.head.key, f.key);
          }
        }
      } else {
        BeforeTotal(e.key, es.head.key);
        InsertSorted(e, es.tail);
        InsertKeeps(e, es.tail);
      }
    }
  }

  lemma BeforeTransitive(a: Str, b: Str, c: Str)
    requires Before(a, b) && Before(b, c)
    ensures Before(a, c)
  {
    AtMostTransitive(Utf16(a), Utf16(b), Utf16(c));
  }

  lemma BeforeTotal(a: Str, b: Str)
    ensures Before(a, b) || Before(b, a)
  {
    AtMostTotal(Utf16(a), Utf16(b));
  }

  lemma BeforeAntisymmetric(a: Str, b: Str)
    requires Before(a, b) && Before(b, a)
    ensures Utf16(a) == Utf16(b)
  {
    AtMostAntisymmetric(Utf16(a), Utf16(b));
  }

  /** Sorting sorts, and keeps every entry. */
  lemma {:induction false} SortCorrect<T(!new)>(es: List<Keyed<T>>)
    ensures Sorted(SortByKey(es)) && Elements(SortByKey(es)) == Elements(es)
  {
    if es.Cons? {
      SortCorrect(es.tail);
      InsertSorted(es.head, SortByKey(es.tail));
      InsertKeeps(es.head, SortByKey(es.tail));
    }
  }

  /** No two different entries have keys of the same UTF-16 form. */
  ghost predicate NoTies<T(!new)>(es: List<Keyed<T>>) {
    forall e, f :: e in Elements(es) && f in Elements(es) && Utf16(e.key) == Utf16(f.key) ==> e == f
  }

  lemma ElementsEmpty<T>(xs: List<T>)
    ensures xs.Nil? <==> Elements(xs) == multiset{}
  {
    if xs.Cons? {
      assert xs.head in Elements(xs);
    }
  }

  lemma {:induction false} SortedUnique<T(!new)>(a: List<Keyed<T>>, b: List<Keyed<T>>)
    requires Sorted(a) && Sorted(b) && Elements(a) == Elements(b) && NoTies(a)
    ensures a == b
  {
    hide NoTies, Sorted, Elements;
    ElementsEmpty(a);
    ElementsEmpty(b);
    if a.Cons? {
      SortedHeads(a, b);
      SortedTail(a);
      SortedTail(b);
      NoTiesInTail(a);
      SortedUnique(a.tail, b.tail);
    }
  }

  lemma SortedTail<T(!new)>(es: List<Keyed<T>>)
    requires es.Cons? && Sorted(es)
    ensures Sorted(es.tail) && Elements(es.tail) == Elements(es) - multiset{es.head}
  {}

  lemma NoTiesInTail<T(!new)>(es: List<Keyed<T>>)
    requires es.Cons? && NoTies(es)
    ensures NoTies(es.tail)
  {
    hide Utf16;
    assert forall e :: e in Elements(es.tail) ==> e in Elements(es);
  }

  lemma {:induction false} SortedHeads<T(!new)>(a: List<Keyed<T>>, b: List<Keyed<T>>)
    requires a.Cons? && b.Cons?
    requires Sorted(a) && Sorted(b) && Elements(a) == Elements(b) && NoTies(a)
    ensures a.head == b.head
  {
    hide Before, Utf16;
    assert a.head in Elements(a) && b.head in Elements(b);
    BeforeTotal(a.head.key, a.head.key);
    BeforeTotal(b.head.key, b.head.key);
    assert Before(a.head.key, b.head.key) && Before(b.head.key, a.head.key);
    BeforeAntisymmetric(a.head.key, b.head.key);
  }

  /** Without ties, the sorted entries do not depend on insertion order. */
  lemma {:induction false} SortOrderIndependent<T(!new)>(es: List<Keyed<T>>, fs: List<Keyed<T>>)
    requires Elements(es) == Elements(fs) && NoTies(es)
    ensures SortByKey(es) == SortByKey(fs)
  {
    SortCorrect(es);
    SortCorrect(fs);
    SortedUnique(SortByKey(es), SortByKey(fs));
  }

  /** The list without the first occurrence of e. */
  ghost function Without<T>(es: List<T>, e: T): List<T> {
    match es
    case Nil => Nil
    case Cons(f, t) => if f == e then t else Cons(f, Without(t, e))
  }

  lemma {:induction false} WithoutRemoves<T>(es: List<T>, e: T)
    requires e in Elements(es)
    ensures multiset{e} + Elements(Without(es, e)) == Elements(es)
  {
    if es.head != e {
      WithoutRemoves(es.tail, e);
    }
  }

  /** Entries that tie come out in the order in which they went in. */
  lemma {:induction false} TiedInsertsDiffer<T(!new)>(e: Keyed<T>, f: Keyed<T>, es: List<Keyed<T>>)
    requires Utf16(e.key) == Utf16(f.key) && e != f
    ensures Insert(e, Insert(f, es)) != Insert(f, Insert(e, es))
  {
    BeforeTotal(e.key, f.key);
    hide Utf16, AtMost;
    if es.Cons? && !Before(e.key, es.head.key) {
      TiedInsertsDiffer(e, f, es.tail);
    }
  }

  /** Ties are where the sort depends on the order it is given, and the only place. */
  lemma {:induction false} SortOrderIndependentExactly<T(!new)>(es: List<Keyed<T>>)
    ensures (forall fs | Elements(fs) == Elements(es) :: SortByKey(fs) == SortByKey(es)) <==> NoTies(es)
  {
    hide Utf16, SortByKey;
    if NoTies(es) {
      forall fs | Elements(fs) == Elements(es)
        ensures SortByKey(fs) == SortByKey(es)
      {
        SortOrderIndependent(es, fs);
      }
    } else {
      var e, f :| e in Elements(es) && f in Elements(es) && Utf16(e.key) == Utf16(f.key) && e != f;
      var rest := TwoInFront(es, e, f);
      SwappedTie(e, f, rest);
      assert SortByKey(Cons(e, Cons(f, rest))) != SortByKey(Cons(f, Cons(e, rest)));
    }
  }

  /** Two entries can be brought to the front, in either order. */
  lemma TwoInFront<T(!new)>(es: List<T>, e: T, f: T) returns (rest: List<T>)
    requires e in Elements(es) && f in Elements(es) && e != f
    ensures Elements(Cons(e, Cons(f, rest))) == Elements(Cons(f, Cons(e, rest))) == Elements(es)
  {
    WithoutRemoves(es, e);
    WithoutRemoves(Without(es, e), f);
    rest := Without(Without(es, e), f);
  }

  lemma SwappedTie<T(!new)>(e: Keyed<T>, f: Keyed<T>, rest: List<Keyed<T>>)
    requires Utf16(e.key) == Utf16(f.key) && e != f
    ensures SortByKey(Cons(e, Cons(f, rest))) != SortByKey(Cons(f, Cons(e, rest)))
  {
    TiedInsertsDiffer(e, f, SortByKey(rest));
  }

  /** Distinct keys that are all well paired have no ties. */
  lemma {:induction false} WellPairedKeysHaveNoTies<T(!new)>(es: List<Keyed<T>>)
    requires forall e :: e in Elements(es) ==> WellPaired(e.key)
    requires forall e, f :: e in Elements(es) && f in Elements(es) && e.key == f.key ==> e == f
    ensures NoTies(es)
  {
    forall e, f | e in Elements(es) && f in Elements(es) && Utf16(e.key) == Utf16(f.key)
      ensures e == f
    {
      Utf16Injective(e.key, f.key);
    }
  }
}
