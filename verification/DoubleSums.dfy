/** Sums over pairs, taken row by row or column by column. */
module DoubleSums {
  import opened Standard

  lemma {:induction false} SumBySame<T>(f: T -> int, g: T -> int, s: seq<T>)
    requires forall x :: x in s ==> f(x) == g(x)
    ensures SumBy(f, s) == SumBy(g, s)
  {
    SumByMonotone(f, g, s);
    SumByMonotone(g, f, s);
  }

  lemma {:induction false} SumByPlus<T>(h: T -> int, f: T -> int, g: T -> int, s: seq<T>)
    requires forall x :: x in s ==> h(x) == f(x) + g(x)
    ensures SumBy(h, s) == SumBy(f, s) + SumBy(g, s)
  {
    if s != [] {
      assert forall x :: x in s[1..] ==> x in s;
      SumByPlus(h, f, g, s[1..]);
    }
  }

  lemma {:induction false} SumByZero<T>(f: T -> int, s: seq<T>)
    requires forall x :: x in s ==> f(x) == 0
    ensures SumBy(f, s) == 0
  {
    if s != [] {
      assert forall x :: x in s[1..] ==> x in s;
      SumByZero(f, s[1..]);
    }
  }

  lemma {:induction false} SumByNotNegative<T>(f: T -> int, s: seq<T>)
    requires forall x :: x in s ==> f(x) >= 0
    ensures SumBy(f, s) >= 0
    ensures SumBy(f, s) == 0 <==> forall x :: x in s ==> f(x) == 0
  {
    if s != [] {
      assert s == [s[0]] + s[1..];
      SumByNotNegative(f, s[1..]);
    }
  }

  lemma {:induction false} SumByMapped<T, U>(g: T -> U, f: U -> int, h: T -> int, s: seq<T>)
    requires forall x :: x in s ==> h(x) == f(g(x))
    ensures SumBy(f, Map(g, s)) == SumBy(h, s)
  {
    if s != [] {
      assert forall x :: x in s[1..] ==> x in s;
      assert Map(g, s)[1..] == Map(g, s[1..]);
      SumByMapped(g, f, h, s[1..]);
    }
  }

  /** Where one element counts, the sum is its term. */
  lemma {:induction false} OneTerm<T>(f: T -> int, m: T -> int, s: seq<T>, x: T)
    requires forall y :: y in s ==> m(y) >= 0 && (m(y) == 0 ==> f(y) == 0)
    requires SumBy(m, s) == 1 && x in s && m(x) > 0
    ensures SumBy(f, s) == f(x)
    ensures forall y :: y in s && m(y) > 0 ==> y == x
  {
    assert s == [s[0]] + s[1..];
    SumByNotNegative(m, s[1..]);
    if m(s[0]) > 0 {
      SumByZero(f, s[1..]);
    } else {
      OneTerm(f, m, s[1..], x);
    }
  }

  lemma {:induction false} CountedOnce<T>(m: T -> int, s: seq<T>, x: T)
    requires Distinct(s) && x in s && forall y :: y in s ==> m(y) == if y == x then 1 else 0
    ensures SumBy(m, s) == 1
  {
    assert s == [s[0]] + s[1..];
    if s[0] == x {
      assert x !in s[1..];
      SumByZero(m, s[1..]);
    } else {
      CountedOnce(m, s[1..], x);
    }
  }

  function Row<A, B>(f: (A, B) -> int, x: A): B -> int { (y: B) => f(x, y) }
  function Column<A, B>(f: (A, B) -> int, y: B): A -> int { (x: A) => f(x, y) }
  function RowSums<A, B>(f: (A, B) -> int, t: seq<B>): A -> int { (x: A) => SumBy(Row(f, x), t) }
  function ColumnSums<A, B>(f: (A, B) -> int, s: seq<A>): B -> int { (y: B) => SumBy(Column(f, y), s) }

  lemma {:induction false} SwapSums<A, B>(f: (A, B) -> int, s: seq<A>, t: seq<B>)
    ensures SumBy(RowSums(f, t), s) == SumBy(ColumnSums(f, s), t)
  {
    if s == [] {
      SumByZero(ColumnSums(f, s), t);
    } else {
      SwapSums(f, s[1..], t);
      SumByPlus(ColumnSums(f, s), Row(f, s[0]), ColumnSums(f, s[1..]), t);
    }
  }
}
