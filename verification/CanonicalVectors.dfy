/** Texts as the shared test vectors of the SDKs spell them. */
module CanonicalVectors {
  // Printer and parser share the names of their characters; these are the characters.

  import opened Options
  import opened Lists
  import opened Numbers
  import opened KeyOrder
  import opened CanonicalJson
  import opened ReceiptContent

  lemma Characters()
    ensures Text("\",:[\\]{}") == Cons(QUOTE, Cons(COMMA, Cons(COLON, Cons(OPEN_LIST, Cons(BACKSLASH, Cons(CLOSE_LIST,
        Cons(OPEN_DICT, Cons(CLOSE_DICT, Nil))))))))
    ensures Text("bfnrtu") == Cons(LETTER_B, Cons(LETTER_F, Cons(LETTER_N, Cons(LETTER_R, Cons(LETTER_T, Cons(LETTER_U,
        Nil))))))
    ensures Text("null") == NULL_TEXT && Text("true") == TRUE_TEXT && Text("false") == FALSE_TEXT
    ensures Text("0.-+e") == Cons(ZERO, Cons(DOT, Cons(MINUS, Cons(PLUS, Cons(LETTER_E, Nil)))))
  {}

  lemma Escapes()
    ensures EscapeChar(0) == Text("\\u0000") && EscapeChar(31) == Text("\\u001f")
    ensures EscapeChar(8) == Text("\\b") && EscapeChar(9) == Text("\\t") && EscapeChar(10) == Text("\\n")
    ensures EscapeChar(12) == Text("\\f") && EscapeChar(13) == Text("\\r")
    ensures EscapeChar(0xD800) == Text("\\ud800") && EscapeChar(0xDC00) == Text("\\udc00")
    ensures Quote(Text("\"/")) == Text("\"\\\"/\"")
  {}

  lemma DigitsCaseAndLetters()
    ensures SortByKey(Cons(Keyed(Text("9"), 4), Cons(Keyed(Text("10"), 3), Cons(Keyed(Text("b"), 1),
            Cons(Keyed(Text("B"), 2), Cons(Keyed(Text("e"), 6), Cons(Keyed(Nil, 7), Nil)))))))
         == Cons(Keyed(Nil, 7), Cons(Keyed(Text("10"), 3), Cons(Keyed(Text("9"), 4),
            Cons(Keyed(Text("B"), 2), Cons(Keyed(Text("b"), 1), Cons(Keyed(Text("e"), 6), Nil))))))
  {}

  /** A character beyond U+FFFF sorts before U+E000, because its first code unit does. */
  lemma AstralKey()
    ensures SortByKey(Cons(Keyed(Cons(0xE000, Nil), 1), Cons(Keyed(Cons(0x10000, Nil), 2), Cons(Keyed(Text("a"), 0),
            Nil))))
         == Cons(Keyed(Text("a"), 0), Cons(Keyed(Cons(0x10000, Nil), 2), Cons(Keyed(Cons(0xE000, Nil), 1), Nil)))
  {}

  lemma LargeAndSmallNumbers()
    ensures NumberText(PyFloat(false, Repr(Cons(5, Nil), Nil, -324))) == Ok(Text("5e-324"))
    ensures NumberText(PyFloat(false, Repr(Cons(1, Nil), Nil, 21))) == Ok(Text("1e+21"))
  {
    assert Decimal(324) == Cons(3, Cons(2, Cons(4, Nil)));
  }

  lemma SmallFixedNumber()
    ensures NumberText(PyFloat(false, Repr(Cons(1, Nil), Nil, -6))) == Ok(Text("0.000001"))
  {}

  lemma ListText()
    ensures Print(PyList(Cons(PyBool(true), Cons(PyNone, Nil))), false) == Ok(Text("[true,null]"))
  {}

  lemma DictText()
    ensures Print(PyDict(Cons(Keyed(Text("a"), PyNone), Nil)), true) == Ok(Text("{\"a\":null}"))
    ensures Print(PyDict(Cons(Keyed(Text("a"), PyNone), Nil)), false) == Ok(Text("{}"))
  {
    var field := FieldText(Text("a"), NULL_TEXT);
    assert field == Text("\"a\":null");
    assert PrintEntries(Cons(Keyed(Text("a"), PyNone), Nil), true) == Ok(Cons(field, Nil));
    assert Append(Text("\"a\":null"), Cons(CLOSE_DICT, Nil)) == Text("\"a\":null}");
  }
}
