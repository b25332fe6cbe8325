// Counting occurrences, one item at a time.
module Counting {
  function B(b: bool): nat { if b then 1 else 0 }

  /** How often `x` occurs in `q`. */
  function Count<T(==)>(q: seq<T>, x: T): nat {
    if q == [] then 0 else B(q[0] == x) + Count(q[1..], x)
  }

  lemma {:induction false} CountAppend<T>(p: seq<T>, q: seq<T>, x: T)
    ensures Count(p + q, x) == Count(p, x) + Count(q, x)
  {
    if p == [] {
      assert p + q == q;
    } else {
      assert (p + q)[1..] == p[1..] + q;
      CountAppend(p[1..], q, x);
    }
  }

  lemma CountOne<T>(y: T, x: T)
    ensures Count([y], x) == B(y == x)
  {
    assert [y][1..] == [];
  }
}
