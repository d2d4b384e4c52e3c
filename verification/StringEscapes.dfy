/** Which escapes the printer picks. */
module StringEscapes {
  // Many texts read back as one string.  The printer's is the shortest that can be encoded in
  // UTF-8, with lower-case hex digits, and there is only one such text.

  import opened Options
  import opened Lists
  import opened Numbers
  import opened KeyOrder
  import opened CanonicalJson

  // ---------------------------------------------------------------- one character

  predicate IsLowerHex(c: CodePoint) {
    48 <= c < 58 || 97 <= c < 103
  }

  /** Hex digits are lower case in the escapes of a text. */
  predicate LowerCase(t: Str) {
    match t
    case Cons(b, Cons(u, Cons(x, Cons(y, Cons(z, Cons(w, _)))))) =>
      b == BACKSLASH && u == LETTER_U ==> IsLowerHex(x) && IsLowerHex(y) && IsLowerHex(z) && IsLowerHex(w)
    case _ => true
  }

  /** A text that can be encoded in UTF-8 does not begin with a surrogate. */
  predicate Encodable(t: Str) {
    t.Cons? ==> !IsSurrogate(t.head)
  }

  lemma HexDigitsDetermined(x: CodePoint)
    requires IsLowerHex(x)
    ensures HexValue(x).Some? && HexDigit(HexValue(x).value) == x
  {}

  lemma LastHexDigit(q: int, d: int)
    requires 0 <= d < 16
    ensures (16 * q + d) / 16 == q && (16 * q + d) % 16 == d
  {}

  lemma Hex4Determined(a: int, b: int, m: int, d: int)
    requires 0 <= a < 16 && 0 <= b < 16 && 0 <= m < 16 && 0 <= d < 16
    ensures var c := a * 4096 + b * 256 + m * 16 + d;
      c / 4096 == a && c / 256 % 16 == b && c / 16 % 16 == m && c % 16 == d
  {
    var c, c1, c2 := a * 4096 + b * 256 + m * 16 + d, a * 256 + b * 16 + m, a * 16 + b;
    LastHexDigit(c1, d);
    LastHexDigit(c2, m);
    LastHexDigit(a, b);
    assert c == 16 * c1 + d && c1 == 16 * c2 + m;
    Halve16(c);
  }

  lemma Halve16(c: int)
    ensures c / 256 == c / 16 / 16 && c / 4096 == c / 16 / 16 / 16
  {}

  /** The escape is the shortest encodable text that reads back as the character. */
  lemma {:induction false} EscapeShortest(c: CodePoint, t: Str, rest: Str)
    requires ReadChar(t) == Some((c, rest)) && Encodable(t)
    ensures Length(EscapeChar(c)) + Length(rest) <= Length(t)
  {
    hide HexValue, HexDigit;
    EscapeLength(c);
    if t.head == BACKSLASH && t.tail.head == LETTER_U {
      ReadHex4Shrinks(t.tail.tail);
    }
  }

  lemma EscapeLength(c: CodePoint)
    ensures Length(EscapeChar(c)) <= 6
    ensures c in {QUOTE, BACKSLASH, 8, 9, 10, 12, 13} ==> Length(EscapeChar(c)) == 2
    ensures c !in {QUOTE, BACKSLASH} && c >= 32 && !IsSurrogate(c) ==> Length(EscapeChar(c)) == 1
  {
    hide HexDigit;
    assert c < 0x10000 ==> Length(UnicodeEscape(c)) == 6 by {
      if c < 0x10000 {
        var t := UnicodeEscape(c).tail.tail;
        assert Length(t.tail.tail.tail.tail) == 0;
        assert Length(t.tail.tail) == 2;
        assert Length(t) == 4;
      }
    }
  }

  /** What the printer writes is encodable and in lower case. */
  lemma {:induction false} EscapeTidy(c: CodePoint, rest: Str)
    ensures var t := Append(EscapeChar(c), rest);
      && t.Cons? && Encodable(t) && LowerCase(t) && t.head != QUOTE
      && ReadChar(t) == Some((c, rest)) && Length(t) == Length(EscapeChar(c)) + Length(rest)
  {
    EscapeCharReads(c, rest);
    AppendLength(EscapeChar(c), rest);
    if c < 0x10000 {
      HexTidy(c, rest);
    }
    hide HexDigit, UnicodeEscape, ReadChar;
    AppendPair(BACKSLASH, c, rest);
    AppendPair(BACKSLASH, LETTER_B, rest);
    AppendPair(BACKSLASH, LETTER_F, rest);
    AppendPair(BACKSLASH, LETTER_N, rest);
    AppendPair(BACKSLASH, LETTER_R, rest);
    AppendPair(BACKSLASH, LETTER_T, rest);
  }

  lemma HexTidy(c: CodePoint, rest: Str)
    requires c < 0x10000
    ensures var t := Append(UnicodeEscape(c), rest); t.Cons? && t.head == BACKSLASH && LowerCase(t)
  {
    FourHexDigits(c);
    AppendSix(BACKSLASH, LETTER_U, HexDigit(c / 4096), HexDigit(c / 256 % 16), HexDigit(c / 16 % 16), HexDigit(c % 16),
        rest);
  }

  /** And it is the only such text of its length. */
  lemma {:induction false} EscapeUnique(c: CodePoint, t: Str, rest: Str)
    requires ReadChar(t) == Some((c, rest)) && Encodable(t) && LowerCase(t)
    requires Length(t) == Length(EscapeChar(c)) + Length(rest)
    ensures t == Append(EscapeChar(c), rest)
  {
    EscapeLength(c);
    if t.head != BACKSLASH {
      assert Append(Cons(c, Nil), rest) == t by {
        assert Append(Nil, rest) == rest;
      }
    } else if t.tail.head != LETTER_U {
      AppendPair(t.head, t.tail.head, rest);
    } else {
      ReadHex4Shrinks(t.tail.tail);
      HexUnique(c, t, rest);
    }
  }

  lemma HexUnique(c: CodePoint, t: Str, rest: Str)
    requires t.Cons? && t.head == BACKSLASH && t.tail.Cons? && t.tail.head == LETTER_U
    requires ReadHex4(t.tail.tail) == Some((c, rest)) && LowerCase(t)
    ensures c < 0x10000 && t == Append(UnicodeEscape(c), rest)
  {
    var s := t.tail.tail;
    var x, y, z, w := s.head, s.tail.head, s.tail.tail.head, s.tail.tail.tail.head;
    HexDigitsDetermined(x);
    HexDigitsDetermined(y);
    HexDigitsDetermined(z);
    HexDigitsDetermined(w);
    Hex4Determined(HexValue(x).value, HexValue(y).value, HexValue(z).value, HexValue(w).value);
    AppendSix(BACKSLASH, LETTER_U, x, y, z, w, rest);
  }

  // ---------------------------------------------------------------- a string

  /** Every character of the string body at the front of the text is encodable and in lower case. */
  predicate Tidy(t: Str)
    decreases Length(t)
  {
    ReadCharShrinks(t);
    if t.Cons? && t.head == QUOTE then true
    else match ReadChar(t)
      case None => true
      case Some((_, rest)) => Encodable(t) && LowerCase(t) && Tidy(rest)
  }

  /** The printed string is tidy. */
  lemma {:induction false} PrintedIsTidy(s: Str, rest: Str)
    ensures Tidy(Append(Escape(s), Cons(QUOTE, rest)))
    ensures Length(Append(Escape(s), Cons(QUOTE, rest))) == Length(Escape(s)) + 1 + Length(rest)
    decreases s
  {
    hide EscapeChar, ReadChar, LowerCase;
    AppendLength(Escape(s), Cons(QUOTE, rest));
    if s.Cons? {
      var after := Append(Escape(s.tail), Cons(QUOTE, rest));
      AppendAssoc(EscapeChar(s.head), Escape(s.tail), Cons(QUOTE, rest));
      EscapeTidy(s.head, after);
      PrintedIsTidy(s.tail, rest);
    }
  }

  /** Of the tidy texts that read back as the string, the printed one is the shortest, and no other
      is as short. */
  lemma {:induction false} PrintedIsShortest(t: Str, s: Str, rest: Str)
    requires ReadChars(t) == Some((s, rest)) && Tidy(t)
    ensures Length(Escape(s)) + 1 + Length(rest) <= Length(t)
    ensures Length(Escape(s)) + 1 + Length(rest) == Length(t) <==> t == Append(Escape(s), Cons(QUOTE, rest))
    decreases Length(t)
  {
    hide EscapeChar, ReadChar, LowerCase, Encodable;
    if t.head == QUOTE {
      assert s == Nil && t == Cons(QUOTE, rest);
    } else {
      var (c, after) := ReadChar(t).value;
      ReadCharShrinks(t);
      PrintedIsShortest(after, s.tail, rest);
      EscapeShortest(c, t, after);
      AppendLength(EscapeChar(c), Escape(s.tail));
      AppendAssoc(EscapeChar(c), Escape(s.tail), Cons(QUOTE, rest));
      if Length(t) == Length(EscapeChar(c)) + Length(after) {
        EscapeUnique(c, t, after);
      }
      PrintedIsTidy(s, rest);
    }
  }
}
