/** Number rendering of the canonical JSON printer. */
module Numbers {
  // A number is printed from the digits and the decimal exponent of its shortest repr, in the
  // notation of ECMA-262 section 6.1.6.1.20.  Values are exact reals, so "the same value" is
  // equality and no rounding is involved: the shortest repr is an input, as it is for the code.

  import opened Options
  import opened Lists

  type CodePoint = c: int | 0 <= c < 0x110000
  type Str = List<CodePoint>

  const ZERO: CodePoint := 48
  const DOT: CodePoint := 46
  const MINUS: CodePoint := 45
  const PLUS: CodePoint := 43
  const LETTER_E: CodePoint := 101

  type Digit = d: int | 0 <= d < 10
  type Digits = List<Digit>

  // ---------------------------------------------------------------- decimal values

  /** Ten to the power e, for either sign of e. */
  function Scale(e: int): (r: real)
    ensures r > 0.0
    decreases if e >= 0 then e else -e
  {
    if e == 0 then 1.0 else if e > 0 then 10.0 * Scale(e - 1) else Scale(e + 1) / 10.0
  }

  /** The decimal value v * 10^e. */
  function Exact(v: nat, e: int): real {
    v as real * Scale(e)
  }

  lemma ExactShift(v: nat, e: int)
    ensures Exact(10 * v, e) == Exact(v, e + 1)
  {
    var a, b := Scale(e), Scale(e + 1);
    assert b == 10.0 * a;
    ShiftTen(v as real, a, b);
  }

  lemma ShiftTen(v: real, a: real, b: real)
    requires b == 10.0 * a
    ensures (10.0 * v) * a == v * b
  {}

  lemma ExactCancel(x: nat, y: nat, e: int)
    requires Exact(x, e) == Exact(y, e)
    ensures x == y
  {
    DivideBack(x as real, Scale(e));
    DivideBack(y as real, Scale(e));
  }

  lemma DivideBack(x: real, s: real)
    requires s > 0.0
    ensures (x * s) / s == x
  {}

  lemma ExactSign(v: nat, e: int)
    ensures Exact(v, e) >= 0.0
    ensures Exact(v, e) == 0.0 <==> v == 0
  {
    if v > 0 {
      PositiveProduct(v as real, Scale(e));
    }
  }

  lemma PositiveProduct(x: real, s: real)
    requires s > 0.0 && x > 0.0
    ensures x * s > 0.0
  {}

  /** The number whose digits are those of `acc` followed by `ds`. */
  function ValueFrom(acc: nat, ds: Digits): nat
    decreases ds
  {
    match ds
    case Nil => acc
    case Cons(d, t) => ValueFrom(10 * acc + d, t)
  }

  function Value(ds: Digits): nat {
    ValueFrom(0, ds)
  }

  lemma {:induction false} ValueAppend(acc: nat, a: Digits, b: Digits)
    ensures ValueFrom(acc, Append(a, b)) == ValueFrom(ValueFrom(acc, a), b)
    decreases a
  {
    if a.Cons? {
      ValueAppend(10 * acc + a.head, a.tail, b);
    }
  }

  function Zeros(n: nat): (ds: Digits) {
    if n == 0 then Nil else Cons(0, Zeros(n - 1))
  }

  lemma {:induction false} LeadingZeros(n: nat, ds: Digits)
    ensures Value(Append(Zeros(n), ds)) == Value(ds)
    ensures Length(Zeros(n)) == n
  {
    if n > 0 {
      LeadingZeros(n - 1, ds);
    }
  }

  /** Each zero at the end multiplies by ten, which one less in the exponent undoes. */
  lemma {:induction false} TrailingZeros(v: nat, n: nat, e: int)
    ensures Exact(ValueFrom(v, Zeros(n)), e) == Exact(v, e + n)
    decreases n
  {
    hide Exact;
    if n > 0 {
      TrailingZeros(10 * v, n - 1, e);
      ExactShift(v, e + n - 1);
    }
  }

  // ---------------------------------------------------------------- decimal digits of a natural

  function DecimalOnto(n: nat, rest: Digits): (ds: Digits)
    ensures ds.Cons?
  {
    if n < 10 then Cons(n, rest) else DecimalOnto(n / 10, Cons(n % 10, rest))
  }

  function Decimal(n: nat): (ds: Digits)
    ensures ds.Cons?
  {
    DecimalOnto(n, Nil)
  }

  lemma {:induction false} DecimalOntoValue(n: nat, rest: Digits)
    ensures Value(DecimalOnto(n, rest)) == ValueFrom(n, rest)
    decreases n
  {
    if n >= 10 {
      DecimalOntoValue(n / 10, Cons(n % 10, rest));
    }
  }

  /** Digits that follow a non-zero number come back as its last digits. */
  lemma {:induction false} DecimalOfValueFrom(v: nat, ds: Digits, rest: Digits)
    requires v > 0
    ensures DecimalOnto(ValueFrom(v, ds), rest) == DecimalOnto(v, Append(ds, rest))
    decreases ds
  {
    match ds
    case Nil =>
    case Cons(d, t) => DecimalOfValueFrom(10 * v + d, t, rest);
  }

  /** A digit string without a leading zero is the decimal form of its value. */
  lemma DecimalOfValue(ds: Digits)
    requires ds.Cons? && ds.head != 0
    ensures Decimal(Value(ds)) == ds
  {
    DecimalOfValueFrom(ds.head, ds.tail, Nil);
    AppendNil(ds.tail);
  }

  lemma {:induction false} DecimalOntoLeads(n: nat, rest: Digits)
    requires n > 0
    ensures DecimalOnto(n, rest).head != 0
    decreases n
  {
    if n >= 10 {
      DecimalOntoLeads(n / 10, Cons(n % 10, rest));
    }
  }

  // ---------------------------------------------------------------- stripping and uniqueness

  function StripLeading(ds: Digits): (r: Digits) {
    match ds
    case Nil => Nil
    case Cons(d, t) => if d == 0 then StripLeading(t) else ds
  }

  function StripTrailing(ds: Digits): (r: Digits) {
    match ds
    case Nil => Nil
    case Cons(d, t) => if d == 0 && StripTrailing(t).Nil? then Nil else Cons(d, StripTrailing(t))
  }

  predicate EndsNonZero(ds: Digits) {
    match ds
    case Nil => false
    case Cons(d, Nil) => d != 0
    case Cons(_, t) => EndsNonZero(t)
  }

  /** No zero at either end: the digits of a shortest rendering. */
  predicate Trimmed(ds: Digits) {
    ds.Cons? && ds.head != 0 && EndsNonZero(ds)
  }

  lemma {:induction false} StripLeadingValue(ds: Digits)
    ensures Value(StripLeading(ds)) == Value(ds)
    ensures StripLeading(ds).Cons? ==> StripLeading(ds).head != 0
    ensures StripLeading(ds).Nil? <==> Value(ds) == 0
    ensures Length(StripLeading(ds)) <= Length(ds)
  {
    match ds
    case Nil =>
    case Cons(d, t) =>
      if d == 0 {
        StripLeadingValue(t);
      } else {
        ValueFromGrows(d, t);
      }
  }

  lemma {:induction false} ValueFromGrows(acc: nat, ds: Digits)
    ensures ValueFrom(acc, ds) >= acc
    decreases ds
  {
    match ds
    case Nil =>
    case Cons(d, t) => ValueFromGrows(10 * acc + d, t);
  }

  lemma {:induction false} StripTrailingRest(ds: Digits)
    ensures Length(StripTrailing(ds)) <= Length(ds)
    ensures ds == Append(StripTrailing(ds), Zeros(Length(ds) - Length(StripTrailing(ds))))
    ensures StripTrailing(ds).Cons? ==> EndsNonZero(StripTrailing(ds)) && StripTrailing(ds).head == ds.head
  {
    match ds
    case Nil =>
    case Cons(d, t) => StripTrailingRest(t);
  }

  lemma {:induction false} LastDigit(acc: nat, ds: Digits)
    requires EndsNonZero(ds)
    ensures ValueFrom(acc, ds) % 10 != 0
    decreases ds
  {
    match ds
    case Cons(d, Nil) =>
    case Cons(d, t) => LastDigit(10 * acc + d, t);
  }

  lemma {:induction false} ZerosDivisible(v: nat, n: nat)
    requires n > 0
    ensures ValueFrom(v, Zeros(n)) % 10 == 0
    decreases n
  {
    if n > 1 {
      ZerosDivisible(10 * v, n - 1);
    } else {
      assert Zeros(0) == Nil;
    }
  }

  lemma SmallerExponentAbsurd(a: Digits, ea: int, b: Digits, eb: int)
    requires Trimmed(a) && ea < eb
    ensures Exact(Value(a), ea) != Exact(Value(b), eb)
  {
    hide Exact;
    var z := ValueFrom(Value(b), Zeros(eb - ea));
    LastDigit(0, a);
    ZerosDivisible(Value(b), eb - ea);
    TrailingZeros(Value(b), eb - ea, ea);
    if Exact(Value(a), ea) == Exact(z, ea) {
      ExactCancel(Value(a), z, ea);
    }
  }

  /** A positive decimal value has one trimmed digit string and one exponent. */
  lemma TrimmedUnique(a: Digits, ea: int, b: Digits, eb: int)
    requires Trimmed(a) && Trimmed(b)
    requires Exact(Value(a), ea) == Exact(Value(b), eb)
    ensures a == b && ea == eb
  {
    hide Exact, Value, Decimal;
    if ea < eb {
      SmallerExponentAbsurd(a, ea, b, eb);
    } else if eb < ea {
      SmallerExponentAbsurd(b, eb, a, ea);
    } else {
      ExactCancel(Value(a), Value(b), ea);
      DecimalOfValue(a);
      DecimalOfValue(b);
    }
  }

  // ---------------------------------------------------------------- numbers as Python holds them

  /** The pieces of a float's repr: digits before and after the point, and the exponent (0 when
      the repr is in fixed notation). */
  datatype Repr = Repr(intPart: Digits, fracPart: Digits, exp: int)

  datatype PyNumber =
    | PyInt(i: int)
    | PyFloat(neg: bool, repr: Repr)
    | NotANumber
    | Infinite(neg: bool)

  datatype NumberError = UnsafeInteger | NanRejected | InfinityRejected

  const MAX_SAFE_INTEGER := 0x1F_FFFF_FFFF_FFFF

  function Significand(r: Repr): nat {
    Value(Append(r.intPart, r.fracPart))
  }

  function Magnitude(r: Repr): real {
    Exact(Significand(r), r.exp - Length(r.fracPart))
  }

  function Signed(neg: bool, m: real): real {
    if neg then -m else m
  }

  /** The repr of a safe integer after conversion to a float: every one is below 10^16, where
      Python's repr stays in fixed notation with one zero after the point. */
  function IntRepr(i: int): Repr {
    Repr(Decimal(if i < 0 then -i else i), Cons(0, Nil), 0)
  }

  /** The sign and the repr of a number that can be rendered. */
  function Finite(v: PyNumber): Result<(bool, Repr), NumberError> {
    match v
    case PyInt(i) =>
      if i > MAX_SAFE_INTEGER || -i > MAX_SAFE_INTEGER then Err(UnsafeInteger) else Ok((i < 0, IntRepr(i)))
    case PyFloat(neg, r) => Ok((neg, r))
    case NotANumber => Err(NanRejected)
    case Infinite(_) => Err(InfinityRejected)
  }

  function NumberValue(v: PyNumber): real
    requires Finite(v).Ok?
  {
    Signed(Finite(v).value.0, Magnitude(Finite(v).value.1))
  }

  /** The value of an integer is that integer, although it is rendered through a float's repr. */
  lemma {:induction false} IntValue(i: int)
    requires Finite(PyInt(i)).Ok?
    ensures NumberValue(PyInt(i)) == i as real
  {
    NatValue(if i < 0 then -i else i);
    hide Magnitude, Decimal;
  }

  lemma {:induction false} NatValue(n: nat)
    ensures Magnitude(Repr(Decimal(n), Cons(0, Nil), 0)) == n as real
  {
    DecimalOntoValue(n, Nil);
    ValueAppend(0, Decimal(n), Cons(0, Nil));
    ExactShift(n, -1);
    assert Exact(n, 0) == n as real;
    hide Decimal, Exact;
  }

  lemma MagnitudeSign(r: Repr)
    ensures Magnitude(r) >= 0.0
    ensures Magnitude(r) == 0.0 <==> Significand(r) == 0
  {
    ExactSign(Significand(r), r.exp - Length(r.fracPart));
  }

  // ---------------------------------------------------------------- rendering

  function Render(ds: Digits): (s: Str) {
    match ds
    case Nil => Nil
    case Cons(d, t) => Cons(ZERO + d, Render(t))
  }

  /** The trimmed digits of a repr. */
  function TrimmedDigits(r: Repr): Digits {
    StripTrailing(StripLeading(Append(r.intPart, r.fracPart)))
  }

  /** The position of the decimal point, counted in the trimmed digits. */
  function PointPosition(r: Repr): int {
    var digits := Append(r.intPart, r.fracPart);
    Length(r.intPart) + r.exp - (Length(digits) - Length(StripLeading(digits)))
  }

  /** A number literal by its parts; no fraction and no exponent are written when absent. */
  datatype Literal = Literal(intPart: Digits, fracPart: Digits, exp: Option<int>)

  function WriteFraction(fracPart: Digits): Str {
    if fracPart.Nil? then Nil else Cons(DOT, Render(fracPart))
  }

  function WriteExponent(exp: Option<int>): Str {
    match exp
    case None => Nil
    case Some(e) => Cons(LETTER_E, Cons(if e >= 0 then PLUS else MINUS, Render(Decimal(if e >= 0 then e else -e))))
  }

  function Write(l: Literal): Str {
    Append(Render(l.intPart), Append(WriteFraction(l.fracPart), WriteExponent(l.exp)))
  }

  /** Fixed notation up to 21 digits and down to six zeros after the point, else exponential. */
  function Notation(digits: Digits, n: int): (l: Literal)
    requires digits.Cons?
    ensures l.intPart.Cons?
  {
    var k := Length(digits);
    if k <= n <= 21 then Literal(Append(digits, Zeros(n - k)), Nil, None)
    else if 0 < n <= 21 then Literal(Take(digits, n), Drop(digits, n), None)
    else if -6 < n <= 0 then Literal(Cons(0, Nil), Append(Zeros(-n), digits), None)
    else Literal(Cons(digits.head, Nil), digits.tail, Some(n - 1))
  }

  function WithSign(neg: bool, s: Str): Str {
    if neg then Cons(MINUS, s) else s
  }

  function NumberText(v: PyNumber): Result<Str, NumberError> {
    match Finite(v)
    case Err(e) => Err(e)
    case Ok((neg, r)) =>
      if Significand(r) == 0 then Ok(Cons(ZERO, Nil))
      else
        TrimmedRepr(r);
        Ok(WithSign(neg, Write(Notation(TrimmedDigits(r), PointPosition(r)))))
  }

  /** Trimming keeps the value: 0.d1d2... * 10^n with the point position n. */
  lemma TrimmedRepr(r: Repr)
    requires Significand(r) != 0
    ensures Trimmed(TrimmedDigits(r))
    ensures Exact(Value(TrimmedDigits(r)), PointPosition(r) - Length(TrimmedDigits(r))) == Magnitude(r)
  {
    var digits := Append(r.intPart, r.fracPart);
    var stripped := StripLeading(digits);
    var t := StripTrailing(stripped);
    var zeros := Length(stripped) - Length(t);
    AppendLength(r.intPart, r.fracPart);
    StripLeadingValue(digits);
    StripTrailingRest(stripped);
    hide Exact;
    ValueAppend(0, t, Zeros(zeros));
    TrailingZeros(Value(t), zeros, r.exp - Length(r.fracPart));
    LeadingZeros(zeros, Nil);
    AppendNil(Zeros(zeros));
  }

  /** The code's own order of work: one variable after another is narrowed down. */
  method FormatNumber(v: PyNumber) returns (out: Result<Str, NumberError>)
    ensures out == NumberText(v)
  {
    hide Value, Exact, StripLeading, StripTrailing, Write;
    var f := Finite(v);
    if f.Err? {
      return Err(f.error);
    }
    var (neg, r) := f.value;
    if Significand(r) == 0 {
      return Ok(Cons(ZERO, Nil));
    }
    TrimmedRepr(r);
    var digits := Append(r.intPart, r.fracPart);
    var n := Length(r.intPart) + r.exp;
    var stripped := StripLeading(digits);
    n := n - (Length(digits) - Length(stripped));
    digits := StripTrailing(stripped);
    var k := Length(digits);
    var l;
    if k <= n <= 21 {
      l := Literal(Append(digits, Zeros(n - k)), Nil, None);
    } else if 0 < n <= 21 {
      l := Literal(Take(digits, n), Drop(digits, n), None);
    } else if -6 < n <= 0 {
      l := Literal(Cons(0, Nil), Append(Zeros(-n), digits), None);
    } else {
      var e := n - 1;
      l := Literal(Cons(digits.head, Nil), digits.tail, Some(e));
    }
    return Ok(WithSign(neg, Write(l)));
  }

  // ---------------------------------------------------------------- reading a number back

  predicate IsDigit(c: CodePoint) {
    ZERO <= c < ZERO + 10
  }

  function TakeDigits(s: Str): (r: (Digits, Str)) {
    match s
    case Nil => (Nil, Nil)
    case Cons(c, t) =>
      if IsDigit(c) then
        var (ds, rest) := TakeDigits(t);
        (Cons(c - ZERO, ds), rest)
      else (Nil, s)
  }

  function ReadFraction(s: Str): Option<(Digits, Str)> {
    if s.Cons? && s.head == DOT then
      var (ds, rest) := TakeDigits(s.tail);
      if ds.Nil? then None else Some((ds, rest))
    else Some((Nil, s))
  }

  function ReadExponent(s: Str): Option<(int, Str)> {
    if s.Cons? && s.head == LETTER_E then
      if s.tail.Cons? && (s.tail.head == PLUS || s.tail.head == MINUS) then
        var (ds, rest) := TakeDigits(s.tail.tail);
        if ds.Nil? then None
        else Some((if s.tail.head == PLUS then Value(ds) as int else -(Value(ds) as int), rest))
      else None
    else Some((0, s))
  }

  /** The value of the number literal at the front of a text, and what follows it. */
  function ReadUnsigned(s: Str): Option<(real, Str)> {
    var (intPart, afterInt) := TakeDigits(s);
    if intPart.Nil? then None
    else
      match ReadFraction(afterInt)
      case None => None
      case Some((fracPart, afterFrac)) =>
        match ReadExponent(afterFrac)
        case None => None
        case Some((exp, rest)) => Some((Magnitude(Repr(intPart, fracPart, exp)), rest))
  }

  function ReadNumber(s: Str): Option<(real, Str)> {
    if s.Cons? && s.head == MINUS then
      match ReadUnsigned(s.tail)
      case None => None
      case Some((x, rest)) => Some((-x, rest))
    else ReadUnsigned(s)
  }

  /** A text that cannot continue a number literal. */
  predicate EndsNumber(rest: Str) {
    rest.Cons? ==> !IsDigit(rest.head) && rest.head != DOT && rest.head != LETTER_E
  }

  lemma {:induction false} TakeRendered(ds: Digits, rest: Str)
    requires rest.Cons? ==> !IsDigit(rest.head)
    ensures TakeDigits(Append(Render(ds), rest)) == (ds, rest)
  {
    match ds
    case Nil =>
    case Cons(d, t) => TakeRendered(t, rest);
  }

  lemma FractionReads(fracPart: Digits, rest: Str)
    requires rest.Cons? ==> !IsDigit(rest.head) && rest.head != DOT
    ensures ReadFraction(Append(WriteFraction(fracPart), rest)) == Some((fracPart, rest))
    ensures var s := Append(WriteFraction(fracPart), rest); s.Cons? ==> !IsDigit(s.head)
  {
    TakeRendered(fracPart, rest);
  }

  lemma ExponentReads(exp: Option<int>, rest: Str)
    requires EndsNumber(rest)
    ensures ReadExponent(Append(WriteExponent(exp), rest)) == Some((if exp.Some? then exp.value else 0, rest))
    ensures var s := Append(WriteExponent(exp), rest); s.Cons? ==> !IsDigit(s.head) && s.head != DOT
  {
    if exp.Some? {
      var n := if exp.value >= 0 then exp.value else -exp.value;
      TakeRendered(Decimal(n), rest);
      DecimalOntoValue(n, Nil);
      hide Decimal;
    }
  }

  function LiteralValue(l: Literal): real {
    Magnitude(Repr(l.intPart, l.fracPart, if l.exp.Some? then l.exp.value else 0))
  }

  /** Reading a literal back gives the value of its parts and leaves the rest of the text. */
  lemma LiteralReads(l: Literal, rest: Str)
    requires l.intPart.Cons? && EndsNumber(rest)
    ensures ReadUnsigned(Append(Write(l), rest)) == Some((LiteralValue(l), rest))
  {
    var frac, exp := WriteFraction(l.fracPart), WriteExponent(l.exp);
    AppendAssoc(Render(l.intPart), Append(frac, exp), rest);
    AppendAssoc(frac, exp, rest);
    ExponentReads(l.exp, rest);
    FractionReads(l.fracPart, Append(exp, rest));
    TakeRendered(l.intPart, Append(frac, Append(exp, rest)));
    hide ReadExponent, ReadFraction, TakeDigits, Magnitude, Render, WriteExponent, WriteFraction;
  }

  lemma ZeroFirst(ds: Digits)
    ensures Value(Append(Cons(0, Nil), ds)) == Value(ds)
  {}

  lemma PartsValue(a: Digits, b: Digits, exp: Option<int>, v: nat, e: int)
    requires Value(Append(a, b)) == v && e == (if exp.Some? then exp.value else 0) - Length(b)
    ensures LiteralValue(Literal(a, b, exp)) == Exact(v, e)
  {}

  lemma PaddedValue(digits: Digits, zeros: nat)
    ensures Exact(Value(Append(digits, Zeros(zeros))), 0) == Exact(Value(digits), zeros)
  {
    hide Exact;
    ValueAppend(0, digits, Zeros(zeros));
    TrailingZeros(Value(digits), zeros, 0);
  }

  lemma FractionParts(digits: Digits, zeros: nat)
    ensures Value(Append(Cons(0, Nil), Append(Zeros(zeros), digits))) == Value(digits)
    ensures Length(Append(Zeros(zeros), digits)) == zeros + Length(digits)
  {
    hide Value;
    LeadingZeros(zeros, digits);
    AppendLength(Zeros(zeros), digits);
    ZeroFirst(Append(Zeros(zeros), digits));
  }

  lemma IntegerValue(digits: Digits, zeros: nat)
    ensures LiteralValue(Literal(Append(digits, Zeros(zeros)), Nil, None)) == Exact(Value(digits), zeros)
  {
    hide Exact, LiteralValue, Value;
    var ds := Append(digits, Zeros(zeros));
    PaddedValue(digits, zeros);
    AppendNil(ds);
    PartsValue(ds, Nil, None, Value(ds), 0);
  }

  lemma HeadAndTail(digits: Digits)
    requires digits.Cons?
    ensures digits == Append(Cons(digits.head, Nil), digits.tail)
    ensures Length(digits) == 1 + Length(digits.tail)
  {}

  /** Every notation denotes 0.d1d2... * 10^n. */
  lemma {:induction false} NotationValue(digits: Digits, n: int)
    requires digits.Cons?
    ensures LiteralValue(Notation(digits, n)) == Exact(Value(digits), n - Length(digits))
  {
    hide Exact, LiteralValue, Value, Length, Append, Zeros, Take, Drop;
    var k := Length(digits);
    HeadAndTail(digits);
    if k <= n <= 21 {
      IntegerValue(digits, n - k);
    } else if 0 < n <= 21 {
      TakeDrop(digits, n);
      PartsValue(Take(digits, n), Drop(digits, n), None, Value(digits), n - k);
    } else if -6 < n <= 0 {
      FractionParts(digits, -n);
      PartsValue(Cons(0, Nil), Append(Zeros(-n), digits), None, Value(digits), n - k);
    } else {
      PartsValue(Cons(digits.head, Nil), digits.tail, Some(n - 1), Value(digits), n - k);
    }
  }

  lemma ZeroText(v: PyNumber)
    requires Finite(v).Ok? && Significand(Finite(v).value.1) == 0
    ensures NumberText(v) == Ok(Cons(ZERO, Nil)) && NumberValue(v) == 0.0
  {
    MagnitudeSign(Finite(v).value.1);
  }

  lemma NonZeroText(v: PyNumber, neg: bool, r: Repr)
    requires Finite(v) == Ok((neg, r)) && Significand(r) != 0
    ensures Trimmed(TrimmedDigits(r))
    ensures Exact(Value(TrimmedDigits(r)), PointPosition(r) - Length(TrimmedDigits(r))) == Magnitude(r)
    ensures NumberText(v) == Ok(WithSign(neg, Write(Notation(TrimmedDigits(r), PointPosition(r)))))
  {
    TrimmedRepr(r);
  }

  /** The text denotes the number: reading it back, in front of any text that does not continue
      a literal, gives exactly the value that was printed. */
  lemma NumberTextDenotes(v: PyNumber, rest: Str)
    requires Finite(v).Ok? && EndsNumber(rest)
    ensures NumberText(v).Ok?
    ensures ReadNumber(Append(NumberText(v).value, rest)) == Some((NumberValue(v), rest))
    ensures NumberText(v).value.Cons?
    ensures NumberText(v).value.head == MINUS || IsDigit(NumberText(v).value.head)
  {
    hide Write, Notation, LiteralValue, Magnitude, Exact, ReadUnsigned, NumberText, Finite, TrimmedDigits,
        PointPosition, Significand, Append, IsDigit;
    if Significand(Finite(v).value.1) == 0 {
      ZeroText(v);
      ZeroReads(rest);
    } else {
      var (neg, r) := Finite(v).value;
      NonZeroText(v, neg, r);
      var l := Notation(TrimmedDigits(r), PointPosition(r));
      LiteralReads(l, rest);
      NotationValue(TrimmedDigits(r), PointPosition(r));
      SignReads(neg, l, Magnitude(r), rest);
    }
  }

  lemma ZeroReads(rest: Str)
    requires EndsNumber(rest)
    ensures ReadNumber(Append(Cons(ZERO, Nil), rest)) == Some((0.0, rest))
    ensures IsDigit(ZERO)
  {
    LiteralReads(Literal(Cons(0, Nil), Nil, None), rest);
    MagnitudeSign(Repr(Cons(0, Nil), Nil, 0));
  }

  lemma SignReads(neg: bool, l: Literal, x: real, rest: Str)
    requires l.intPart.Cons?
    requires ReadUnsigned(Append(Write(l), rest)) == Some((x, rest))
    ensures var s := WithSign(neg, Write(l));
      && s.Cons? && (s.head == MINUS || IsDigit(s.head))
      && ReadNumber(Append(s, rest)) == Some((Signed(neg, x), rest))
  {
    hide ReadUnsigned;
  }

  /** Rendering depends only on the value, and tells values apart: whatever forms the two reprs
      have, fixed or exponential, padded or not, integer or float. */
  lemma NumberTextCanonical(v: PyNumber, w: PyNumber)
    requires Finite(v).Ok? && Finite(w).Ok?
    ensures NumberText(v) == NumberText(w) <==> NumberValue(v) == NumberValue(w)
  {
    NumberTextDenotes(v, Nil);
    NumberTextDenotes(w, Nil);
    if NumberValue(v) == NumberValue(w) {
      SameValueSameText(v, Finite(v).value.0, Finite(v).value.1, w, Finite(w).value.0, Finite(w).value.1);
    }
  }

  lemma SameValueSameText(v: PyNumber, neg: bool, r: Repr, w: PyNumber, neg': bool, r': Repr)
    requires Finite(v) == Ok((neg, r)) && Finite(w) == Ok((neg', r')) && NumberValue(v) == NumberValue(w)
    ensures NumberText(v) == NumberText(w)
  {
    MagnitudeSign(r);
    MagnitudeSign(r');
    hide Write, Notation, Magnitude, Value, Exact, TrimmedDigits, PointPosition, Finite, NumberText;
    if Significand(r) == 0 {
      ZeroText(v);
      ZeroText(w);
    } else {
      NonZeroText(v, neg, r);
      NonZeroText(w, neg', r');
      TrimmedUnique(TrimmedDigits(r), PointPosition(r) - Length(TrimmedDigits(r)),
                    TrimmedDigits(r'), PointPosition(r') - Length(TrimmedDigits(r')));
    }
  }

  // ---------------------------------------------------------------- the notation of ECMA-262

  /** Steps 5 to 7 of ECMA-262 section 6.1.6.1.20 for radix 10: s has k digits and the value is
      s * 10^(n - k). */
  function EcmaNotation(s: nat, k: nat, n: int): Str
    requires Length(Decimal(s)) == k
  {
    var digits: Str := Render(Decimal(s));
    if -5 <= n <= 21 then
      if n >= k then Append(digits, Render(Zeros(n - k)))
      else if n > 0 then Append<CodePoint>(Take(digits, n), Cons(DOT, Drop(digits, n)))
      else Cons(ZERO, Cons(DOT, Append(Render(Zeros(-n)), digits)))
    else
      var exponentSign := if n < 0 then MINUS else PLUS;
      var exponent: Str := Cons(LETTER_E, Cons(exponentSign, Render(Decimal(if n - 1 < 0 then 1 - n else n - 1))));
      if k == 1 then Append<CodePoint>(digits, exponent)
      else Append<CodePoint>(Take(digits, 1), Cons(DOT, Append<CodePoint>(Drop(digits, 1), exponent)))
  }

  lemma {:induction false} RenderAppend(a: Digits, b: Digits)
    ensures Render(Append(a, b)) == Append(Render(a), Render(b))
  {
    if a.Cons? {
      RenderAppend(a.tail, b);
    }
  }

  lemma {:induction false} RenderTakeDrop(a: Digits, n: nat)
    ensures Render(Take(a, n)) == Take(Render(a), n) && Render(Drop(a, n)) == Drop(Render(a), n)
  {
    if n > 0 && a.Cons? {
      RenderTakeDrop(a.tail, n - 1);
    }
  }

  lemma WriteFixed(a: Digits, b: Digits)
    ensures Write(Literal(a, Nil, None)) == Render(a)
    ensures b.Cons? ==> Write(Literal(a, b, None)) == Append(Render(a), Cons(DOT, Render(b)))
  {
    AppendNil(WriteFraction(b));
    AppendNil(Render(a));
  }

  lemma NotationIsEcma(s: nat, k: nat, n: int)
    requires Length(Decimal(s)) == k
    ensures Write(Notation(Decimal(s), n)) == EcmaNotation(s, k, n)
  {
    var ds := Decimal(s);
    assert k >= 1;
    hide Decimal;
    if k <= n <= 21 {
      RenderAppend(ds, Zeros(n - k));
      WriteFixed(Append(ds, Zeros(n - k)), Nil);
    } else if 0 < n <= 21 {
      RenderTakeDrop(ds, n);
      TakeDrop(ds, n);
      WriteFixed(Take(ds, n), Drop(ds, n));
    } else if -6 < n <= 0 {
      RenderAppend(Zeros(-n), ds);
      AppendLength(Zeros(-n), ds);
      WriteFixed(Cons(0, Nil), Append(Zeros(-n), ds));
      assert Render(Cons(0, Nil)) == Cons(ZERO, Nil);
    } else {
      RenderTakeDrop(ds, 1);
      TakeDrop(ds, 1);
    }
  }

  lemma SignOfValue(neg: bool, r: Repr)
    requires Signed(neg, Magnitude(r)) != 0.0
    ensures Significand(r) != 0
    ensures neg == (Signed(neg, Magnitude(r)) < 0.0)
    ensures Magnitude(r) == if neg then -Signed(neg, Magnitude(r)) else Signed(neg, Magnitude(r))
  {
    MagnitudeSign(r);
  }

  lemma {:induction false} DecimalOntoEnds(n: nat, rest: Digits)
    requires rest.Nil? ==> n % 10 != 0
    requires rest.Cons? ==> EndsNonZero(rest)
    ensures EndsNonZero(DecimalOnto(n, rest))
    decreases n
  {
    if n >= 10 {
      DecimalOntoEnds(n / 10, Cons(n % 10, rest));
    }
  }

  /** The text is ECMA-262's: for the integers s, k, n that the standard picks for the magnitude
      (k digits, not divisible by ten, so k is as small as possible). */
  lemma {:induction false} NumberTextIsEcma(v: PyNumber, s: nat, k: nat, n: int)
    requires Finite(v).Ok? && NumberValue(v) != 0.0
    requires s > 0 && s % 10 != 0 && Length(Decimal(s)) == k
    requires Exact(s, n - k) == (if NumberValue(v) < 0.0 then -NumberValue(v) else NumberValue(v))
    ensures NumberText(v) == Ok(WithSign(NumberValue(v) < 0.0, EcmaNotation(s, k, n)))
  {
    SignOfValue(Finite(v).value.0, Finite(v).value.1);
    NotationIsEcma(s, k, n);
    ChosenDigits(Finite(v).value.1, s, n - k);
    NonZeroText(v, Finite(v).value.0, Finite(v).value.1);
    hide Write, Notation, Magnitude, Exact, TrimmedDigits, PointPosition, Finite, NumberText, Decimal, EcmaNotation,
        Signed;
  }

  /** The digits and exponent that the standard picks are the trimmed ones. */
  lemma ChosenDigits(r: Repr, s: nat, e: int)
    requires s > 0 && s % 10 != 0 && Exact(s, e) == Magnitude(r) && Significand(r) != 0
    ensures TrimmedDigits(r) == Decimal(s) && PointPosition(r) == e + Length(Decimal(s))
  {
    DecimalOntoValue(s, Nil);
    DecimalOntoLeads(s, Nil);
    DecimalOntoEnds(s, Nil);
    TrimmedRepr(r);
    var ds := Decimal(s);
    hide Magnitude, Exact, TrimmedDigits, PointPosition, Decimal;
    TrimmedUnique(ds, e, TrimmedDigits(r), PointPosition(r) - Length(TrimmedDigits(r)));
  }
}
