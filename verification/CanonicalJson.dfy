/** The canonical JSON printer (RFC 8785) of the Python SDK, and a JSON reader that undoes it. */
module CanonicalJson {
  // Every hash and signature of the system is over a printed text, so the point is that the text
  // determines the printed value.

  import opened Options
  import opened Lists
  import opened Numbers
  import opened KeyOrder

  const QUOTE: CodePoint := 34
  const COMMA: CodePoint := 44
  const COLON: CodePoint := 58
  const OPEN_LIST: CodePoint := 91
  const BACKSLASH: CodePoint := 92
  const CLOSE_LIST: CodePoint := 93
  const LETTER_B: CodePoint := 98
  const LETTER_F: CodePoint := 102
  const LETTER_N: CodePoint := 110
  const LETTER_R: CodePoint := 114
  const LETTER_T: CodePoint := 116
  const LETTER_U: CodePoint := 117
  const OPEN_DICT: CodePoint := 123
  const CLOSE_DICT: CodePoint := 125

  const NULL_TEXT: Str := Cons(110, Cons(117, Cons(108, Cons(108, Nil))))
  const TRUE_TEXT: Str := Cons(116, Cons(114, Cons(117, Cons(101, Nil))))
  const FALSE_TEXT: Str := Cons(102, Cons(97, Cons(108, Cons(115, Cons(101, Nil)))))

  // ---------------------------------------------------------------- strings

  function HexDigit(d: int): CodePoint
    requires 0 <= d < 16
  {
    if d < 10 then 48 + d else 87 + d
  }

  function UnicodeEscape(c: CodePoint): Str
    requires c < 0x10000
  {
    Cons(BACKSLASH, Cons(LETTER_U,
      Cons(HexDigit(c / 4096), Cons(HexDigit(c / 256 % 16), Cons(HexDigit(c / 16 % 16), Cons(HexDigit(c % 16), Nil))))))
  }

  /** The short escapes, \u for other control characters and for lone surrogates, else itself. */
  function EscapeChar(c: CodePoint): Str {
    if c == QUOTE || c == BACKSLASH then Cons(BACKSLASH, Cons(c, Nil))
    else if c == 8 then Cons(BACKSLASH, Cons(LETTER_B, Nil))
    else if c == 12 then Cons(BACKSLASH, Cons(LETTER_F, Nil))
    else if c == 10 then Cons(BACKSLASH, Cons(LETTER_N, Nil))
    else if c == 13 then Cons(BACKSLASH, Cons(LETTER_R, Nil))
    else if c == 9 then Cons(BACKSLASH, Cons(LETTER_T, Nil))
    else if c < 32 || IsSurrogate(c) then UnicodeEscape(c)
    else Cons(c, Nil)
  }

  function Escape(s: Str): Str {
    match s
    case Nil => Nil
    case Cons(c, t) => Append(EscapeChar(c), Escape(t))
  }

  function Quote(s: Str): Str {
    Cons(QUOTE, Append(Escape(s), Cons(QUOTE, Nil)))
  }

  function SimpleEscape(e: CodePoint): Option<CodePoint> {
    if e == QUOTE || e == BACKSLASH || e == 47 then Some(e)
    else if e == LETTER_B then Some(8)
    else if e == LETTER_F then Some(12)
    else if e == LETTER_N then Some(10)
    else if e == LETTER_R then Some(13)
    else if e == LETTER_T then Some(9)
    else None
  }

  function HexValue(c: CodePoint): (r: Option<int>)
    ensures r.Some? ==> 0 <= r.value < 16
  {
    if 48 <= c < 58 then Some(c - 48)
    else if 97 <= c < 103 then Some(c - 87)
    else if 65 <= c < 71 then Some(c - 55)
    else None
  }

  /** Four hex digits at the front of a text. */
  function ReadHex4(s: Str): Option<(CodePoint, Str)> {
    match s
    case Cons(a, Cons(b, Cons(c, Cons(d, t)))) =>
      if HexValue(a).Some? && HexValue(b).Some? && HexValue(c).Some? && HexValue(d).Some? then
        Some((HexValue(a).value * 4096 + HexValue(b).value * 256 + HexValue(c).value * 16 + HexValue(d).value, t))
      else None
    case _ => None
  }

  lemma ReadHex4Shrinks(s: Str)
    ensures ReadHex4(s).Some? ==> Length(ReadHex4(s).value.1) + 4 == Length(s)
  {
    if ReadHex4(s).Some? {
      assert Length(s) == 2 + Length(s.tail.tail);
      assert Length(s.tail.tail) == 2 + Length(s.tail.tail.tail.tail);
    }
  }

  /** One character of a string body, and what follows it. */
  function ReadChar(s: Str): Option<(CodePoint, Str)> {
    if s.Nil? || s.head == QUOTE || s.head < 32 then None
    else if s.head != BACKSLASH then Some((s.head, s.tail))
    else if s.tail.Nil? then None
    else if s.tail.head == LETTER_U then ReadHex4(s.tail.tail)
    else if SimpleEscape(s.tail.head).Some? then Some((SimpleEscape(s.tail.head).value, s.tail.tail))
    else None
  }

  lemma ReadCharShrinks(s: Str)
    ensures ReadChar(s).Some? ==> Length(ReadChar(s).value.1) < Length(s)
  {
    if s.Cons? && s.tail.Cons? {
      ReadHex4Shrinks(s.tail.tail);
    }
  }

  /** A string body up to its closing quote. */
  function ReadChars(s: Str): (r: Option<(Str, Str)>)
    ensures r.Some? ==> Length(r.value.1) < Length(s)
    decreases Length(s)
  {
    ReadCharShrinks(s);
    if s.Cons? && s.head == QUOTE then Some((Nil, s.tail))
    else
      match ReadChar(s)
      case None => None
      case Some((c, rest)) =>
        match ReadChars(rest)
        case None => None
        case Some((cs, after)) => Some((Cons(c, cs), after))
  }

  lemma HexReads(c: CodePoint, rest: Str)
    requires c < 0x10000
    ensures ReadChar(Append(UnicodeEscape(c), rest)) == Some((c, rest))
  {
    var a, b, m, d := c / 4096, c / 256 % 16, c / 16 % 16, c % 16;
    HexDigitReads(a);
    HexDigitReads(b);
    HexDigitReads(m);
    HexDigitReads(d);
    FourHexDigits(c);
    hide HexDigit, HexValue;
    var s := Cons(HexDigit(a), Cons(HexDigit(b), Cons(HexDigit(m), Cons(HexDigit(d), rest))));
    assert Append(UnicodeEscape(c), rest) == Cons(BACKSLASH, Cons(LETTER_U, s)) by {
      AppendSix(BACKSLASH, LETTER_U, HexDigit(a), HexDigit(b), HexDigit(m), HexDigit(d), rest);
    }
  }

  lemma AppendPair(a: CodePoint, b: CodePoint, rest: Str)
    ensures Append(Cons(a, Cons(b, Nil)), rest) == Cons(a, Cons(b, rest))
  {
    assert Append(Cons(b, Nil), rest) == Cons(b, rest) by {
      assert Append(Nil, rest) == rest;
    }
  }

  lemma AppendSix(a: CodePoint, b: CodePoint, c: CodePoint, d: CodePoint, e: CodePoint, f: CodePoint, rest: Str)
    ensures Append(Cons(a, Cons(b, Cons(c, Cons(d, Cons(e, Cons(f, Nil)))))), rest)
            == Cons(a, Cons(b, Cons(c, Cons(d, Cons(e, Cons(f, rest))))))
  {
    AppendPair(e, f, rest);
    assert Append(Cons(c, Cons(d, Cons(e, Cons(f, Nil)))), rest)
        == Cons(c, Cons(d, Append(Cons(e, Cons(f, Nil)), rest)));
  }

  lemma HexDigitReads(d: int)
    requires 0 <= d < 16
    ensures HexValue(HexDigit(d)) == Some(d)
  {}

  lemma FourHexDigits(c: int)
    requires 0 <= c < 0x10000
    ensures c / 4096 * 4096 + c / 256 % 16 * 256 + c / 16 % 16 * 16 + c % 16 == c
    ensures 0 <= c / 4096 < 16
  {
    assert c / 16 == c / 256 * 16 + c / 16 % 16 by {
      assert c / 256 == c / 16 / 16;
    }
    assert c / 256 == c / 4096 * 16 + c / 256 % 16 by {
      assert c / 4096 == c / 256 / 16;
    }
  }

  lemma {:induction false} EscapeCharReads(c: CodePoint, rest: Str)
    ensures ReadChar(Append(EscapeChar(c), rest)) == Some((c, rest))
    ensures Append(EscapeChar(c), rest).Cons? && Append(EscapeChar(c), rest).head != QUOTE
  {
    hide UnicodeEscape, ReadHex4;
    AppendPair(BACKSLASH, c, rest);
    AppendPair(BACKSLASH, LETTER_B, rest);
    AppendPair(BACKSLASH, LETTER_F, rest);
    AppendPair(BACKSLASH, LETTER_N, rest);
    AppendPair(BACKSLASH, LETTER_R, rest);
    AppendPair(BACKSLASH, LETTER_T, rest);
    if c == QUOTE || c == BACKSLASH {
    } else if c < 32 || IsSurrogate(c) {
      HexReads(c, rest);
    }
  }

  lemma {:induction false} CharsRead(s: Str, rest: Str)
    ensures ReadChars(Append(Escape(s), Cons(QUOTE, rest))) == Some((s, rest))
    decreases s
  {
    hide EscapeChar, ReadChar;
    if s.Cons? {
      var after := Append(Escape(s.tail), Cons(QUOTE, rest));
      AppendAssoc(EscapeChar(s.head), Escape(s.tail), Cons(QUOTE, rest));
      EscapeCharReads(s.head, after);
      CharsRead(s.tail, rest);
    }
  }

  lemma QuoteAppend(s: Str, rest: Str)
    ensures Append(Quote(s), rest) == Cons(QUOTE, Append(Escape(s), Cons(QUOTE, rest)))
  {
    AppendAssoc(Escape(s), Cons(QUOTE, Nil), rest);
  }

  // ---------------------------------------------------------------- the printer

  /** JSON-like Python values.  A dict lists its entries in insertion order. */
  datatype PyValue =
    | PyNone
    | PyBool(b: bool)
    | PyNum(n: PyNumber)
    | PyStr(s: Str)
    | PyList(items: List<PyValue>)
    | PyDict(entries: List<Keyed<PyValue>>)

  function Size(v: PyValue): nat
    decreases v
  {
    match v
    case PyList(items) => 1 + ItemsSize(items)
    case PyDict(entries) => 1 + EntriesSize(entries)
    case _ => 1
  }

  function ItemsSize(items: List<PyValue>): nat
    decreases items
  {
    match items
    case Nil => 0
    case Cons(v, t) => 1 + Size(v) + ItemsSize(t)
  }

  function EntriesSize(entries: List<Keyed<PyValue>>): nat
    decreases entries
  {
    match entries
    case Nil => 0
    case Cons(e, t) => 1 + Size(e.item) + EntriesSize(t)
  }

  lemma {:induction false} InsertSize(e: Keyed<PyValue>, es: List<Keyed<PyValue>>)
    ensures EntriesSize(Insert(e, es)) == 1 + Size(e.item) + EntriesSize(es)
  {
    hide Before;
    if es.Cons? && !Before(e.key, es.head.key) {
      InsertSize(e, es.tail);
    }
  }

  lemma {:induction false} SortSize(es: List<Keyed<PyValue>>)
    ensures EntriesSize(SortByKey(es)) == EntriesSize(es)
  {
    if es.Cons? {
      SortSize(es.tail);
      InsertSize(es.head, SortByKey(es.tail));
    }
  }

  function Join(texts: List<Str>): Str {
    match texts
    case Nil => Nil
    case Cons(x, Nil) => x
    case Cons(x, t) => Append(x, Cons(COMMA, Join(t)))
  }

  function Wrap(open: CodePoint, texts: List<Str>, close: CodePoint): Str {
    Cons(open, Append(Join(texts), Cons(close, Nil)))
  }

  function FieldText(key: Str, text: Str): Str {
    Append(Quote(key), Cons(COLON, text))
  }

  function Prefix(first: Result<Str, NumberError>, rest: Result<List<Str>,
      NumberError>): Result<List<Str>, NumberError> {
    match first
    case Err(e) => Err(e)
    case Ok(x) =>
      match rest
      case Err(e) => Err(e)
      case Ok(t) => Ok(Cons(x, t))
  }

  function PrintField(key: Str, text: Result<Str, NumberError>): Result<Str, NumberError> {
    match text
    case Err(e) => Err(e)
    case Ok(t) => Ok(FieldText(key, t))
  }

  /** A None entry of a dict is dropped unless `keepNull`; elsewhere None prints as null. */
  predicate Dropped(v: PyValue, keepNull: bool) {
    v.PyNone? && !keepNull
  }

  function Print(v: PyValue, keepNull: bool): Result<Str, NumberError>
    decreases Size(v)
  {
    match v
    case PyNone => Ok(NULL_TEXT)
    case PyBool(b) => Ok(if b then TRUE_TEXT else FALSE_TEXT)
    case PyNum(n) => NumberText(n)
    case PyStr(s) => Ok(Quote(s))
    case PyList(items) =>
      (match PrintItems(items, keepNull)
       case Err(e) => Err(e)
       case Ok(texts) => Ok(Wrap(OPEN_LIST, texts, CLOSE_LIST)))
    case PyDict(entries) =>
      SortSize(entries);
      (match PrintEntries(SortByKey(entries), keepNull)
       case Err(e) => Err(e)
       case Ok(texts) => Ok(Wrap(OPEN_DICT, texts, CLOSE_DICT)))
  }

  function PrintItems(items: List<PyValue>, keepNull: bool): Result<List<Str>, NumberError>
    decreases ItemsSize(items)
  {
    match items
    case Nil => Ok(Nil)
    case Cons(v, t) => Prefix(Print(v, keepNull), PrintItems(t, keepNull))
  }

  function PrintEntries(entries: List<Keyed<PyValue>>, keepNull: bool): Result<List<Str>, NumberError>
    decreases EntriesSize(entries)
  {
    match entries
    case Nil => Ok(Nil)
    case Cons(e, t) =>
      if Dropped(e.item, keepNull) then PrintEntries(t, keepNull)
      else Prefix(PrintField(e.key, Print(e.item, keepNull)), PrintEntries(t, keepNull))
  }

  // ---------------------------------------------------------------- what a text says

  datatype Json =
    | JNull
    | JBool(b: bool)
    | JNumber(x: real)
    | JString(s: Str)
    | JList(items: List<Json>)
    | JObject(fields: List<Keyed<Json>>)

  /** The JSON value of a Python value: numbers by their value, keys in canonical order, dropped
      entries gone.  (A number that cannot be printed has no value; 0 stands in for it.) */
  function Meaning(v: PyValue, keepNull: bool): Json
    decreases Size(v)
  {
    match v
    case PyNone => JNull
    case PyBool(b) => JBool(b)
    case PyNum(n) => JNumber(if Finite(n).Ok? then NumberValue(n) else 0.0)
    case PyStr(s) => JString(s)
    case PyList(items) => JList(ItemsMeaning(items, keepNull))
    case PyDict(entries) =>
      SortSize(entries);
      JObject(EntriesMeaning(SortByKey(entries), keepNull))
  }

  function ItemsMeaning(items: List<PyValue>, keepNull: bool): List<Json>
    decreases ItemsSize(items)
  {
    match items
    case Nil => Nil
    case Cons(v, t) => Cons(Meaning(v, keepNull), ItemsMeaning(t, keepNull))
  }

  function EntriesMeaning(entries: List<Keyed<PyValue>>, keepNull: bool): List<Keyed<Json>>
    decreases EntriesSize(entries)
  {
    match entries
    case Nil => Nil
    case Cons(e, t) =>
      if Dropped(e.item, keepNull) then EntriesMeaning(t, keepNull)
      else Cons(Keyed(e.key, Meaning(e.item, keepNull)), EntriesMeaning(t, keepNull))
  }

  // ---------------------------------------------------------------- the reader

  function ReadWord(word: Str, s: Str): (r: Option<Str>)
    ensures r.Some? ==> Length(r.value) + Length(word) == Length(s)
    decreases word
  {
    match word
    case Nil => Some(s)
    case Cons(c, t) => if s.Cons? && s.head == c then ReadWord(t, s.tail) else None
  }

  lemma {:induction false} TakeDigitsShrinks(s: Str)
    ensures Length(TakeDigits(s).0) + Length(TakeDigits(s).1) == Length(s)
  {
    if s.Cons? && IsDigit(s.head) {
      TakeDigitsShrinks(s.tail);
    }
  }

  lemma ReadFractionShrinks(s: Str)
    ensures ReadFraction(s).Some? ==> Length(ReadFraction(s).value.1) <= Length(s)
  {
    if s.Cons? {
      TakeDigitsShrinks(s.tail);
    }
  }

  lemma ReadExponentShrinks(s: Str)
    ensures ReadExponent(s).Some? ==> Length(ReadExponent(s).value.1) <= Length(s)
  {
    hide Value;
    if s.Cons? && s.tail.Cons? {
      TakeDigitsShrinks(s.tail.tail);
    }
  }

  lemma ReadUnsignedShrinks(s: Str)
    ensures ReadUnsigned(s).Some? ==> Length(ReadUnsigned(s).value.1) < Length(s)
  {
    hide ReadFraction, ReadExponent, TakeDigits, Magnitude;
    TakeDigitsShrinks(s);
    var (ds, rest) := TakeDigits(s);
    ReadFractionShrinks(rest);
    if ReadFraction(rest).Some? {
      ReadExponentShrinks(ReadFraction(rest).value.1);
    }
  }

  lemma ReadNumberShrinks(s: Str)
    ensures ReadNumber(s).Some? ==> Length(ReadNumber(s).value.1) < Length(s)
  {
    hide ReadUnsigned;
    ReadUnsignedShrinks(s);
    if s.Cons? {
      ReadUnsignedShrinks(s.tail);
    }
  }

  function NumberAt(s: Str): (r: Option<(Json, Str)>)
    ensures r.Some? ==> Length(r.value.1) < Length(s)
  {
    ReadNumberShrinks(s);
    match ReadNumber(s)
    case None => None
    case Some((x, rest)) => Some((JNumber(x), rest))
  }

  function WordAt(word: Str, j: Json, s: Str): (r: Option<(Json, Str)>)
    requires word.Cons?
    ensures r.Some? ==> Length(r.value.1) < Length(s)
  {
    match ReadWord(word, s)
    case None => None
    case Some(rest) => Some((j, rest))
  }

  /** The JSON value at the front of a text, and what follows it. */
  function ReadValue(s: Str): (r: Option<(Json, Str)>)
    ensures r.Some? ==> Length(r.value.1) < Length(s)
    decreases Length(s), 0
  {
    if s.Nil? then None
    else if s.head == QUOTE then
      match ReadChars(s.tail)
      case None => None
      case Some((cs, rest)) => Some((JString(cs), rest))
    else if s.head == OPEN_LIST then
      if s.tail.Cons? && s.tail.head == CLOSE_LIST then Some((JList(Nil), s.tail.tail))
      else
        match ReadItems(s.tail)
        case None => None
        case Some((items, rest)) => Some((JList(items), rest))
    else if s.head == OPEN_DICT then
      if s.tail.Cons? && s.tail.head == CLOSE_DICT then Some((JObject(Nil), s.tail.tail))
      else
        match ReadFields(s.tail)
        case None => None
        case Some((fields, rest)) => Some((JObject(fields), rest))
    else if s.head == LETTER_N then WordAt(NULL_TEXT, JNull, s)
    else if s.head == LETTER_T then WordAt(TRUE_TEXT, JBool(true), s)
    else if s.head == LETTER_F then WordAt(FALSE_TEXT, JBool(false), s)
    else NumberAt(s)
  }

  function ReadItems(s: Str): (r: Option<(List<Json>, Str)>)
    ensures r.Some? ==> Length(r.value.1) < Length(s)
    decreases Length(s), 1
  {
    match ReadValue(s)
    case None => None
    case Some((j, rest)) =>
      if rest.Cons? && rest.head == CLOSE_LIST then Some((Cons(j, Nil), rest.tail))
      else if rest.Cons? && rest.head == COMMA then
        match ReadItems(rest.tail)
        case None => None
        case Some((js, after)) => Some((Cons(j, js), after))
      else None
  }

  function ReadFields(s: Str): (r: Option<(List<Keyed<Json>>, Str)>)
    ensures r.Some? ==> Length(r.value.1) < Length(s)
    decreases Length(s), 1
  {
    if s.Nil? || s.head != QUOTE then None
    else
      match ReadChars(s.tail)
      case None => None
      case Some((key, afterKey)) =>
        if afterKey.Nil? || afterKey.head != COLON then None
        else
          match ReadValue(afterKey.tail)
          case None => None
          case Some((j, rest)) =>
            if rest.Cons? && rest.head == CLOSE_DICT then Some((Cons(Keyed(key, j), Nil), rest.tail))
            else if rest.Cons? && rest.head == COMMA then
              match ReadFields(rest.tail)
              case None => None
              case Some((fs, after)) => Some((Cons(Keyed(key, j), fs), after))
            else None
  }

  function Parse(s: Str): Option<Json> {
    match ReadValue(s)
    case None => None
    case Some((j, rest)) => if rest.Nil? then Some(j) else None
  }

  // ---------------------------------------------------------------- reading undoes printing

  lemma WordReads(word: Str, rest: Str)
    ensures ReadWord(word, Append(word, rest)) == Some(rest)
    decreases word
  {
    if word.Cons? {
      WordReads(word.tail, rest);
    }
  }

  lemma ScalarReads(v: PyValue, keepNull: bool, rest: Str)
    requires v.PyNone? || v.PyBool?
    ensures ReadValue(Append(Print(v, keepNull).value, rest)) == Some((Meaning(v, keepNull), rest))
  {
    hide ReadWord, ReadChars, ReadNumber;
    WordReads(NULL_TEXT, rest);
    WordReads(TRUE_TEXT, rest);
    WordReads(FALSE_TEXT, rest);
  }

  lemma {:induction false} NumberReads(n: PyNumber, keepNull: bool, rest: Str)
    requires EndsNumber(rest) && NumberText(n).Ok?
    ensures ReadValue(Append(NumberText(n).value, rest)) == Some((Meaning(PyNum(n), keepNull), rest))
  {
    hide ReadNumber, NumberText, ReadChars, ReadWord, NumberValue, Finite;
    TextMeansFinite(n);
    NumberTextDenotes(n, rest);
  }

  lemma TextMeansFinite(n: PyNumber)
    ensures NumberText(n).Ok? <==> Finite(n).Ok?
  {
    hide Significand, Notation, Write, TrimmedDigits, PointPosition;
  }

  lemma StringReads(s: Str, rest: Str)
    ensures ReadValue(Append(Quote(s), rest)) == Some((JString(s), rest))
  {
    hide ReadChars, Quote, ReadNumber, ReadWord;
    QuoteAppend(s, rest);
    CharsRead(s, rest);
  }

  /** A printed value starts like a value: not like the end of a container. */
  lemma PrintStarts(v: PyValue, keepNull: bool)
    requires Print(v, keepNull).Ok?
    ensures var s := Print(v, keepNull).value;
      s.Cons? && s.head != CLOSE_LIST && s.head != CLOSE_DICT
  {
    if v.PyNum? {
      hide NumberText, PrintItems, PrintEntries, Finite;
      TextMeansFinite(v.n);
      NumberTextDenotes(v.n, Nil);
    }
  }

  lemma AppendHead(a: Str, rest: Str)
    requires a.Cons?
    ensures Append(a, rest).Cons? && Append(a, rest).head == a.head
  {}

  /** The text of a container up to its closing bracket, one element unfolded. */
  lemma JoinAppend(x: Str, t: List<Str>, rest: Str)
    ensures Append(Join(Cons(x, t)), rest) ==
      Append(x, if t.Nil? then rest else Cons(COMMA, Append(Join(t), rest)))
  {
    if t.Cons? {
      AppendAssoc(x, Cons(COMMA, Join(t)), rest);
    }
  }

  lemma WrapAppend(open: CodePoint, texts: List<Str>, close: CodePoint, rest: Str)
    ensures Append(Wrap(open, texts, close), rest) == Cons(open, Append(Join(texts), Cons(close, rest)))
  {
    AppendAssoc(Join(texts), Cons(close, Nil), rest);
  }

  lemma FieldAppend(key: Str, text: Str, rest: Str)
    ensures Append(FieldText(key, text), rest) ==
      Cons(QUOTE, Append(Escape(key), Cons(QUOTE, Cons(COLON, Append(text, rest)))))
  {
    AppendAssoc(Quote(key), Cons(COLON, text), rest);
    QuoteAppend(key, Cons(COLON, Append(text, rest)));
  }

  /** Reading what was printed, in front of any text that does not continue a number, gives the
      meaning of the value and leaves that text. */
  lemma {:induction false} PrintReads(v: PyValue, keepNull: bool, rest: Str)
    requires EndsNumber(rest) && Print(v, keepNull).Ok?
    ensures ReadValue(Append(Print(v, keepNull).value, rest)) == Some((Meaning(v, keepNull), rest))
    decreases Size(v), 1
  {
    hide ReadNumber, NumberText, ReadChars, ReadWord, Escape, SortByKey;
    match v
    case PyNone => ScalarReads(v, keepNull, rest);
    case PyBool(_) => ScalarReads(v, keepNull, rest);
    case PyNum(n) => NumberReads(n, keepNull, rest);
    case PyStr(s) => StringReads(s, rest);
    case PyList(items) => ListReads(items, keepNull, rest);
    case PyDict(entries) => DictReads(entries, keepNull, rest);
  }

  lemma {:induction false} ListReads(items: List<PyValue>, keepNull: bool, rest: Str)
    requires EndsNumber(rest) && Print(PyList(items), keepNull).Ok?
    ensures ReadValue(Append(Print(PyList(items), keepNull).value, rest))
        == Some((Meaning(PyList(items), keepNull), rest))
    decreases Size(PyList(items)), 0
  {
    hide ReadNumber, NumberText, ReadChars, ReadWord, Wrap, Join, ReadItems;
    var texts := PrintItems(items, keepNull).value;
    WrapAppend(OPEN_LIST, texts, CLOSE_LIST, rest);
    if items.Nil? {
      JoinNothing(Cons(CLOSE_LIST, rest));
    } else {
      ItemsRead(items, keepNull, rest);
    }
  }

  lemma JoinNothing(rest: Str)
    ensures Append(Join(Nil), rest) == rest
  {}

  lemma {:induction false} ItemsRead(items: List<PyValue>, keepNull: bool, rest: Str)
    requires items.Cons? && PrintItems(items, keepNull).Ok?
    ensures var s := Append(Join(PrintItems(items, keepNull).value), Cons(CLOSE_LIST, rest));
      s.Cons? && s.head != CLOSE_LIST && ReadItems(s) == Some((ItemsMeaning(items, keepNull), rest))
    decreases ItemsSize(items), 2
  {
    hide ReadValue, Join, Print, Meaning, Append;
    var v, t := items.head, items.tail;
    var text, texts := Print(v, keepNull).value, PrintItems(t, keepNull).value;
    var after := if texts.Nil? then Cons(CLOSE_LIST, rest)
        else Cons(COMMA, Append(Join(texts), Cons(CLOSE_LIST, rest)));
    JoinAppend(text, texts, Cons(CLOSE_LIST, rest));
    PrintReads(v, keepNull, after);
    PrintStarts(v, keepNull);
    AppendHead(text, after);
    if t.Cons? {
      ItemsRead(t, keepNull, rest);
    }
  }

  lemma {:induction false} DictReads(entries: List<Keyed<PyValue>>, keepNull: bool, rest: Str)
    requires EndsNumber(rest) && Print(PyDict(entries), keepNull).Ok?
    ensures ReadValue(Append(Print(PyDict(entries), keepNull).value, rest))
        == Some((Meaning(PyDict(entries), keepNull), rest))
    decreases Size(PyDict(entries)), 0
  {
    hide ReadNumber, NumberText, ReadChars, ReadWord, Wrap, Join, ReadFields, SortByKey;
    SortSize(entries);
    var sorted := SortByKey(entries);
    var texts := PrintEntries(sorted, keepNull).value;
    WrapAppend(OPEN_DICT, texts, CLOSE_DICT, rest);
    EntriesRead(sorted, keepNull, rest);
    if texts.Nil? {
      JoinNothing(Cons(CLOSE_DICT, rest));
    }
  }

  lemma {:induction false} EntriesRead(entries: List<Keyed<PyValue>>, keepNull: bool, rest: Str)
    requires PrintEntries(entries, keepNull).Ok?
    ensures var texts := PrintEntries(entries, keepNull).value;
      var s := Append(Join(texts), Cons(CLOSE_DICT, rest));
      && (texts.Nil? <==> EntriesMeaning(entries, keepNull).Nil?)
      && (texts.Cons? ==>
            s.Cons? && s.head != CLOSE_DICT && ReadFields(s) == Some((EntriesMeaning(entries, keepNull), rest)))
    decreases EntriesSize(entries), 2
  {
    hide ReadValue, ReadChars, Join, Print, Meaning, Append, FieldText, Escape;
    if entries.Cons? {
      var e, t := entries.head, entries.tail;
      EntriesRead(t, keepNull, rest);
      if !Dropped(e.item, keepNull) {
        var text, texts := Print(e.item, keepNull).value, PrintEntries(t, keepNull).value;
        var after := if texts.Nil? then Cons(CLOSE_DICT, rest)
            else Cons(COMMA, Append(Join(texts), Cons(CLOSE_DICT, rest)));
        JoinAppend(FieldText(e.key, text), texts, Cons(CLOSE_DICT, rest));
        FieldAppend(e.key, text, after);
        CharsRead(e.key, Cons(COLON, Append(text, after)));
        PrintReads(e.item, keepNull, after);
      }
    }
  }

  /** Parsing undoes printing: the text of a value reads back as its meaning. */
  lemma ParseUndoesPrint(v: PyValue, keepNull: bool)
    requires Print(v, keepNull).Ok?
    ensures Parse(Print(v, keepNull).value) == Some(Meaning(v, keepNull))
  {
    hide ReadValue, Print, Meaning;
    PrintReads(v, keepNull, Nil);
    AppendNil(Print(v, keepNull).value);
  }

  // ---------------------------------------------------------------- the text is canonical

  /** Values that can be printed print alike exactly when they mean the same. */
  lemma {:induction false} SameMeaningSameText(v: PyValue, w: PyValue, keepNull: bool)
    requires Print(v, keepNull).Ok? && Print(w, keepNull).Ok?
    requires Meaning(v, keepNull) == Meaning(w, keepNull)
    ensures Print(v, keepNull) == Print(w, keepNull)
    decreases Size(v) + Size(w), 1
  {
    hide SortByKey, NumberText, NumberValue, Finite;
    match v
    case PyNum(n) =>
      TextMeansFinite(n);
      TextMeansFinite(w.n);
      NumberTextCanonical(n, w.n);
    case PyList(items) => SameItemsSameText(items, w.items, keepNull);
    case PyDict(entries) =>
      SortSize(entries);
      SortSize(w.entries);
      SameEntriesSameText(SortByKey(entries), SortByKey(w.entries), keepNull);
    case _ =>
  }

  lemma {:induction false} SameItemsSameText(vs: List<PyValue>, ws: List<PyValue>, keepNull: bool)
    requires PrintItems(vs, keepNull).Ok? && PrintItems(ws, keepNull).Ok?
    requires ItemsMeaning(vs, keepNull) == ItemsMeaning(ws, keepNull)
    ensures PrintItems(vs, keepNull) == PrintItems(ws, keepNull)
    decreases ItemsSize(vs) + ItemsSize(ws), 0
  {
    hide Print, Meaning;
    if vs.Cons? {
      SameMeaningSameText(vs.head, ws.head, keepNull);
      SameItemsSameText(vs.tail, ws.tail, keepNull);
    }
  }

  lemma {:induction false} SameEntriesSameText(es: List<Keyed<PyValue>>, fs: List<Keyed<PyValue>>, keepNull: bool)
    requires PrintEntries(es, keepNull).Ok? && PrintEntries(fs, keepNull).Ok?
    requires EntriesMeaning(es, keepNull) == EntriesMeaning(fs, keepNull)
    ensures PrintEntries(es, keepNull) == PrintEntries(fs, keepNull)
    decreases EntriesSize(es) + EntriesSize(fs), 0
  {
    hide Print, Meaning, FieldText;
    if es.Cons? && Dropped(es.head.item, keepNull) {
      SameEntriesSameText(es.tail, fs, keepNull);
    } else if fs.Cons? && Dropped(fs.head.item, keepNull) {
      SameEntriesSameText(es, fs.tail, keepNull);
    } else if es.Cons? && fs.Cons? {
      SameMeaningSameText(es.head.item, fs.head.item, keepNull);
      SameEntriesSameText(es.tail, fs.tail, keepNull);
    }
  }

  lemma PrintInjective(v: PyValue, w: PyValue, keepNull: bool)
    requires Print(v, keepNull).Ok? && Print(w, keepNull).Ok?
    ensures Print(v, keepNull) == Print(w, keepNull) <==> Meaning(v, keepNull) == Meaning(w, keepNull)
  {
    hide Print, Meaning, Parse;
    if Print(v, keepNull) == Print(w, keepNull) {
      ParseUndoesPrint(v, keepNull);
      ParseUndoesPrint(w, keepNull);
    } else if Meaning(v, keepNull) == Meaning(w, keepNull) {
      SameMeaningSameText(v, w, keepNull);
    }
  }

  // ---------------------------------------------------------------- the loops of the printer

  function CollectBack(done: List<Str>, rest: Result<List<Str>, NumberError>): Result<List<Str>, NumberError> {
    match rest
    case Err(e) => Err(e)
    case Ok(t) => Ok(Append(done, t))
  }

  lemma CollectBackStep(done: List<Str>, text: Str, rest: Result<List<Str>, NumberError>)
    ensures CollectBack(done, Prefix(Ok(text), rest)) == CollectBack(Append(done, Cons(text, Nil)), rest)
  {
    if rest.Ok? {
      AppendAssoc(done, Cons(text, Nil), rest.value);
    }
  }

  /** The printer as the code runs it: keys are sorted, each field text is appended to a list of
      entries, and the list is joined with commas. */
  method Stringify(v: PyValue, keepNull: bool) returns (text: Result<Str, NumberError>)
    ensures text == Print(v, keepNull)
    decreases Size(v)
  {
    hide Wrap, Join, FieldText, SortByKey, Append;
    match v {
      case PyNone =>
        text := Ok(NULL_TEXT);
      case PyDict(entries) =>
        SortSize(entries);
        var sorted := SortByKey(entries);
        text := StringifyEntries(sorted, keepNull);
      case PyList(items) =>
        text := StringifyItems(items, keepNull);
      case PyBool(b) =>
        text := Ok(if b then TRUE_TEXT else FALSE_TEXT);
      case PyNum(n) =>
        text := FormatNumber(n);
      case PyStr(s) =>
        text := Ok(Quote(s));
    }
  }

  method StringifyEntries(sorted: List<Keyed<PyValue>>, keepNull: bool) returns (text: Result<Str, NumberError>)
    ensures text ==
      match PrintEntries(sorted, keepNull)
      case Err(e) => Err(e)
      case Ok(texts) => Ok(Wrap(OPEN_DICT, texts, CLOSE_DICT))
    decreases EntriesSize(sorted)
  {
    hide Wrap, Join, FieldText, Print;
    var entries: List<Str>, rest := Nil, sorted;
    while rest.Cons?
      invariant EntriesSize(rest) <= EntriesSize(sorted)
      invariant PrintEntries(sorted, keepNull) == CollectBack(entries, PrintEntries(rest, keepNull))
      decreases rest
    {
      var e := rest.head;
      if !Dropped(e.item, keepNull) {
        var t := Stringify(e.item, keepNull);
        if t.Err? {
          return Err(t.error);
        }
        CollectBackStep(entries, FieldText(e.key, t.value), PrintEntries(rest.tail, keepNull));
        entries := Append(entries, Cons(FieldText(e.key, t.value), Nil));
      }
      rest := rest.tail;
    }
    AppendNil(entries);
    return Ok(Wrap(OPEN_DICT, entries, CLOSE_DICT));
  }

  method StringifyItems(items: List<PyValue>, keepNull: bool) returns (text: Result<Str, NumberError>)
    ensures text ==
      match PrintItems(items, keepNull)
      case Err(e) => Err(e)
      case Ok(texts) => Ok(Wrap(OPEN_LIST, texts, CLOSE_LIST))
    decreases ItemsSize(items)
  {
    hide Wrap, Join, Print;
    var entries: List<Str>, rest := Nil, items;
    while rest.Cons?
      invariant ItemsSize(rest) <= ItemsSize(items)
      invariant PrintItems(items, keepNull) == CollectBack(entries, PrintItems(rest, keepNull))
      decreases rest
    {
      var t := Stringify(rest.head, keepNull);
      if t.Err? {
        return Err(t.error);
      }
      CollectBackStep(entries, t.value, PrintItems(rest.tail, keepNull));
      entries := Append(entries, Cons(t.value, Nil));
      rest := rest.tail;
    }
    AppendNil(entries);
    return Ok(Wrap(OPEN_LIST, entries, CLOSE_LIST));
  }
}
