/** Small shared pieces: optional values, results of fallible operations, and a little arithmetic. */
module Basics {

  const SECOND := 1_000_000_000  // time is counted in nanoseconds
  const MAX_INT64 := 0x7FFF_FFFF_FFFF_FFFF

  datatype Option<+T> = None | Some(value: T)

  datatype Result<+T, +E> = Ok(value: T) | Err(error: E) {
    predicate IsFailure() {
      Err?
    }

    function PropagateFailure<U>(): Result<U, E>
      requires Err?
    {
      Err(error)
    }

    function Extract(): T
      requires Ok?
    {
      value
    }
  }

  lemma MulMonotone(a: int, b: int, d: int)
    requires a <= b && d >= 0
    ensures a * d <= b * d
  {
    assert (b - a) * d >= 0;
  }

  lemma QuotientBound(k: int, d: int, x: int)
    requires d > 0 && k * d <= x
    ensures k <= x / d
  {
    if k > x / d {
      MulMonotone(x / d + 1, k, d);
      assert false;
    }
  }

  lemma QuotientExact(q: int, d: int, x: int)
    requires d > 0 && q * d <= x < (q + 1) * d
    ensures x / d == q
  {
    QuotientBound(q, d, x);
    if x / d > q {
      MulMonotone(q + 1, x / d, d);
      assert false;
    }
  }

  lemma SubsetSize<T>(a: set<T>, b: set<T>)
    requires a <= b
    ensures |a| <= |b|
  {
    assert b == a + (b - a);
  }

  lemma AtMostOne<T>(s: set<T>)
    requires forall a, b :: a in s && b in s ==> a == b
    ensures |s| <= 1
  {
    if s != {} {
      var a :| a in s;
      assert s == {a};
    }
  }

  ghost function Pick<T>(s: set<T>): (x: T)
    requires s != {}
    ensures x in s
  {
    var x :| x in s;
    x
  }

  lemma SoleMember<T>(s: set<T>) returns (x: T)
    requires |s| == 1
    ensures s == {x} && x in s
  {
    x :| x in s;
    assert |s - {x}| == 0;
  }
}
