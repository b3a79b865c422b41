/** Small vocabulary shared by every module of the model. */
module Prelude {

  datatype Option<+T> = None | Some(value: T)

  datatype Result<+T, +E> = Ok(value: T) | Err(error: E) {
    predicate IsFailure() {
      Err?
    }

    function PropagateFailure<U>(): Result<U, E>
      requires Err?
    {
      Err(error)
    }

    function Extract(): T
      requires Ok?
    {
      value
    }
  }

  function Min(a: int, b: int): int {
    if a <= b then a else b
  }

  function Max(a: int, b: int): int {
    if a >= b then a else b
  }

  function Pow2(n: nat): (p: nat)
    ensures p >= 1
  {
    if n == 0 then 1 else 2 * Pow2(n - 1)
  }

  lemma {:induction false} Pow2Monotone(m: nat, n: nat)
    requires m <= n
    ensures Pow2(m) <= Pow2(n)
    decreases n
  {
    if m == n {
    } else {
      Pow2Monotone(m, n - 1);
    }
  }

  /** A non-empty subset never has more elements than the set it comes from. */
  lemma {:induction false} SubsetSize<T>(a: set<T>, b: set<T>)
    requires a <= b
    ensures |a| <= |b|
  {
    if a == {} {
    } else {
      var x :| x in a;
      SubsetSize(a - {x}, b - {x});
    }
  }

  lemma Member<T>(s: set<T>) returns (x: T)
    requires s != {}
    ensures x in s
  {
    x :| x in s;
  }

  lemma {:induction false} GreatestExists(s: set<int>)
    requires s != {}
    ensures exists m :: m in s && forall x :: x in s ==> x <= m
  {
    var x := Member(s);
    if s == {x} {
      assert forall y :: y in s ==> y <= x;
    } else {
      assert s - {x} != {};
      GreatestExists(s - {x});
      var m :| m in s - {x} && forall y :: y in s - {x} ==> y <= m;
      assert forall y :: y in s ==> y == x || y in s - {x};
      if m <= x {
        assert x in s && forall y :: y in s ==> y <= x;
      } else {
        assert m in s && forall y :: y in s ==> y <= m;
      }
    }
  }

  /** The greatest element, or 0 when there is none. */
  function Greatest(s: set<int>): (m: int)
    ensures s == {} ==> m == 0
    ensures s != {} ==> m in s
    ensures forall x :: x in s ==> x <= m
  {
    if s == {} then 0
    else
      GreatestExists(s);
      var m :| m in s && forall x :: x in s ==> x <= m;
      m
  }

  /** Pigeonhole: n distinct positive numbers reach at least n, and reach exactly n only when they are 1..n. */
  lemma {:induction false} Pigeonhole(s: set<int>, n: nat)
    requires forall x :: x in s ==> 1 <= x <= n
    ensures |s| <= n
    ensures |s| == n <==> forall x :: 1 <= x <= n ==> x in s
    decreases n
  {
    if n == 0 {
      assert s == {};
    } else {
      Pigeonhole(s - {n}, n - 1);
      if n in s {
        assert |s - {n}| == |s| - 1;
        assert forall x :: 1 <= x <= n - 1 ==> (x in s - {n} <==> x in s);
      } else {
        assert s - {n} == s;
      }
    }
  }
}
