/** Finite lists: the shape of text, of digit strings and of parsed containers.  Printer and
    parser recurse on the head, so their proofs follow the data. */
module Lists {
  datatype List<+T> = Nil | Cons(head: T, tail: List<T>)

  function Append<T>(a: List<T>, b: List<T>): List<T> {
    match a
    case Nil => b
    case Cons(x, t) => Cons(x, Append(t, b))
  }

  function Length<T>(a: List<T>): nat {
    match a
    case Nil => 0
    case Cons(_, t) => 1 + Length(t)
  }

  function Take<T>(a: List<T>, n: nat): List<T> {
    if n == 0 || a.Nil? then Nil else Cons(a.head, Take(a.tail, n - 1))
  }

  function Drop<T>(a: List<T>, n: nat): List<T> {
    if n == 0 || a.Nil? then a else Drop(a.tail, n - 1)
  }

  lemma {:induction false} AppendNil<T>(a: List<T>)
    ensures Append(a, Nil) == a
  {
    if a.Cons? {
      AppendNil(a.tail);
    }
  }

  lemma {:induction false} AppendAssoc<T>(a: List<T>, b: List<T>, c: List<T>)
    ensures Append(Append(a, b), c) == Append(a, Append(b, c))
  {
    if a.Cons? {
      AppendAssoc(a.tail, b, c);
    }
  }

  lemma {:induction false} AppendLength<T>(a: List<T>, b: List<T>)
    ensures Length(Append(a, b)) == Length(a) + Length(b)
  {
    if a.Cons? {
      AppendLength(a.tail, b);
    }
  }

  lemma {:induction false} TakeDrop<T>(a: List<T>, n: nat)
    requires n <= Length(a)
    ensures Append(Take(a, n), Drop(a, n)) == a
    ensures Length(Take(a, n)) == n && Length(Drop(a, n)) == Length(a) - n
  {
    if n > 0 {
      TakeDrop(a.tail, n - 1);
    }
  }
}
