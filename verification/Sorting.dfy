/** Sorting by a total order: what a sorted arrangement is, that it is unique, and the orders used here. */
module Sorting {

  ghost predicate TotalOrder<T(!new)>(le: (T, T) -> bool) {
    && (forall x :: le(x, x))
    && (forall x, y :: le(x, y) && le(y, x) ==> x == y)
    && (forall x, y, z :: le(x, y) && le(y, z) ==> le(x, z))
    && (forall x, y :: le(x, y) || le(y, x))
  }

  ghost predicate Sorted<T>(s: seq<T>, le: (T, T) -> bool) {
    forall i, j :: 0 <= i < j < |s| ==> le(s[i], s[j])
  }

  function Insert<T>(x: T, s: seq<T>, le: (T, T) -> bool): (r: seq<T>)
    ensures multiset(r) == multiset(s) + multiset{x}
    ensures |r| == |s| + 1
  {
    if s == [] then [x]
    else if le(x, s[0]) then [x] + s
    else
      assert s == [s[0]] + s[1..];
      [s[0]] + Insert(x, s[1..], le)
  }

  function Sort<T>(s: seq<T>, le: (T, T) -> bool): (r: seq<T>)
    ensures multiset(r) == multiset(s)
    ensures |r| == |s|
  {
    if s == [] then []
    else
      assert s == [s[0]] + s[1..];
      Insert(s[0], Sort(s[1..], le), le)
  }

  lemma SameElements<T>(s: seq<T>, t: seq<T>, x: T)
    requires multiset(s) == multiset(t)
    ensures x in s <==> x in t
  {
    assert x in s <==> x in multiset(s);
    assert x in t <==> x in multiset(t);
  }

  lemma {:induction false} InsertSorted<T(!new)>(x: T, s: seq<T>, le: (T, T) -> bool)
    requires TotalOrder(le) && Sorted(s, le)
    ensures Sorted(Insert(x, s, le), le)
  {
    if s == [] {
    } else if le(x, s[0]) {
    } else {
      InsertSorted(x, s[1..], le);
      var r := Insert(x, s[1..], le);
      forall i | 0 <= i < |r|
        ensures le(s[0], r[i])
      {
        assert r[i] in multiset(r);
        if r[i] != x {
          assert r[i] in s[1..];
        }
      }
    }
  }

  lemma {:induction false} SortSorted<T(!new)>(s: seq<T>, le: (T, T) -> bool)
    requires TotalOrder(le)
    ensures Sorted(Sort(s, le), le)
  {
    if s == [] {
    } else {
      SortSorted(s[1..], le);
      InsertSorted(s[0], Sort(s[1..], le), le);
    }
  }

  /** Two sorted arrangements of the same elements are equal. */
  lemma {:induction false} SortedUnique<T(!new)>(s: seq<T>, t: seq<T>, le: (T, T) -> bool)
    requires TotalOrder(le) && Sorted(s, le) && Sorted(t, le) && multiset(s) == multiset(t)
    ensures s == t
  {
    assert |s| == |multiset(s)| == |multiset(t)| == |t|;
    if s == [] {
    } else {
      assert s == [s[0]] + s[1..] && t == [t[0]] + t[1..];
      SameElements(s, t, s[0]);
      SameElements(s, t, t[0]);
      assert le(t[0], s[0]) && le(s[0], t[0]);
      assert multiset(s[1..]) == multiset(s) - multiset{s[0]};
      assert multiset(t[1..]) == multiset(t) - multiset{t[0]};
      SortedUnique(s[1..], t[1..], le);
    }
  }

  /** The order in which the elements arrive does not matter. */
  lemma SortPermutation<T(!new)>(s: seq<T>, t: seq<T>, le: (T, T) -> bool)
    requires TotalOrder(le) && multiset(s) == multiset(t)
    ensures Sort(s, le) == Sort(t, le)
  {
    SortSorted(s, le);
    SortSorted(t, le);
    SortedUnique(Sort(s, le), Sort(t, le), le);
  }

  /** Sorting something sorted changes nothing. */
  lemma SortFixed<T(!new)>(s: seq<T>, le: (T, T) -> bool)
    requires TotalOrder(le) && Sorted(s, le)
    ensures Sort(s, le) == s
  {
    SortSorted(s, le);
    SortedUnique(Sort(s, le), s, le);
  }

  ghost predicate NoDuplicates<T>(s: seq<T>) {
    forall i, j :: 0 <= i < j < |s| ==> s[i] != s[j]
  }

  lemma {:induction false} NoDuplicatesMultiset<T>(s: seq<T>)
    ensures NoDuplicates(s) <==> forall x :: x in s ==> multiset(s)[x] == 1
  {
    if s == [] {
    } else {
      assert s == [s[0]] + s[1..];
      NoDuplicatesMultiset(s[1..]);
      if NoDuplicates(s) {
        assert NoDuplicates(s[1..]);
        assert s[0] !in s[1..];
      }
      if forall x :: x in s ==> multiset(s)[x] == 1 {
        assert multiset(s)[s[0]] == 1 + multiset(s[1..])[s[0]];
        assert s[0] !in s[1..];
        forall x | x in s[1..]
          ensures multiset(s[1..])[x] == 1
        {
          assert multiset(s)[x] == 1;
        }
        forall i, j | 0 <= i < j < |s|
          ensures s[i] != s[j]
        {
          assert s[j] in s[1..];
          if i > 0 {
            assert s[1..][i - 1] != s[1..][j - 1];
          }
        }
      }
    }
  }

  lemma SortKeepsNoDuplicates<T>(s: seq<T>, le: (T, T) -> bool)
    requires NoDuplicates(s)
    ensures NoDuplicates(Sort(s, le))
  {
    NoDuplicatesMultiset(s);
    NoDuplicatesMultiset(Sort(s, le));
    forall x | x in Sort(s, le)
      ensures multiset(Sort(s, le))[x] == 1
    {
      SameElements(s, Sort(s, le), x);
    }
  }

  /** Python compares sequences from the left, a prefix before its extensions. */
  predicate SeqLe<T(==)>(a: seq<T>, b: seq<T>, le: (T, T) -> bool) {
    if a == [] then true
    else if b == [] then false
    else if a[0] != b[0] then le(a[0], b[0])
    else SeqLe(a[1..], b[1..], le)
  }

  /** That is: the first is a prefix of the second, or is smaller at the first place where they differ. */
  lemma {:induction false} SeqLeMeans<T>(a: seq<T>, b: seq<T>, le: (T, T) -> bool)
    ensures SeqLe(a, b, le) <==>
      a <= b || exists k :: 0 <= k < |a| && k < |b| && a[..k] == b[..k] && a[k] != b[k] && le(a[k], b[k])
  {
    if a != [] && b != [] && a[0] == b[0] {
      SeqLeMeans(a[1..], b[1..], le);
      assert a == [a[0]] + a[1..] && b == [b[0]] + b[1..];
      if k :| 0 <= k < |a[1..]| && k < |b[1..]| && a[1..][..k] == b[1..][..k] && a[1..][k] != b[1..][k] && le(a[1..][k], b[1..][k]) {
        assert a[..k + 1] == [a[0]] + a[1..][..k] && b[..k + 1] == [b[0]] + b[1..][..k];
        assert a[k + 1] == a[1..][k] && b[k + 1] == b[1..][k];
      }
      if k :| 0 <= k < |a| && k < |b| && a[..k] == b[..k] && a[k] != b[k] && le(a[k], b[k]) {
        assert a[1..][..k - 1] == a[..k][1..] && b[1..][..k - 1] == b[..k][1..];
      }
    } else if a != [] && b != [] {
      assert a[..0] == b[..0];
      assert forall k :: 0 < k < |a| && k < |b| && a[..k] == b[..k] ==> a[..k][0] == b[..k][0];
    }
  }

  /** Text compares by code points. */
  lemma TextLeMeans(a: string, b: string)
    ensures TextLe(a, b) <==> a <= b || exists k :: 0 <= k < |a| && k < |b| && a[..k] == b[..k] && a[k] < b[k]
  {
    SeqLeMeans(a, b, CharLe);
  }

  lemma {:induction false} SeqReflexive<T>(a: seq<T>, le: (T, T) -> bool)
    ensures SeqLe(a, a, le)
  {
    if a != [] {
      SeqReflexive(a[1..], le);
    }
  }

  lemma {:induction false} SeqAntisymmetric<T(!new)>(a: seq<T>, b: seq<T>, le: (T, T) -> bool)
    requires TotalOrder(le) && SeqLe(a, b, le) && SeqLe(b, a, le)
    ensures a == b
  {
    if a != [] {
      SeqAntisymmetric(a[1..], b[1..], le);
      assert a == [a[0]] + a[1..] && b == [b[0]] + b[1..];
    }
  }

  lemma {:induction false} SeqTransitive<T(!new)>(a: seq<T>, b: seq<T>, c: seq<T>, le: (T, T) -> bool)
    requires TotalOrder(le) && SeqLe(a, b, le) && SeqLe(b, c, le)
    ensures SeqLe(a, c, le)
  {
    if a != [] && a[0] == b[0] && b[0] == c[0] {
      SeqTransitive(a[1..], b[1..], c[1..], le);
    }
  }

  lemma {:induction false} SeqTotal<T(!new)>(a: seq<T>, b: seq<T>, le: (T, T) -> bool)
    requires TotalOrder(le)
    ensures SeqLe(a, b, le) || SeqLe(b, a, le)
  {
    if a != [] && b != [] && a[0] == b[0] {
      SeqTotal(a[1..], b[1..], le);
    }
  }

  predicate CharLe(a: char, b: char) {
    a <= b
  }

  predicate TextLe(a: string, b: string) {
    SeqLe(a, b, CharLe)
  }

  lemma TextOrder()
    ensures TotalOrder(TextLe)
  {
    forall a: string {
      SeqReflexive(a, CharLe);
    }
    forall a: string, b: string | TextLe(a, b) && TextLe(b, a)
      ensures a == b
    {
      SeqAntisymmetric(a, b, CharLe);
    }
    forall a: string, b: string, c: string | TextLe(a, b) && TextLe(b, c)
      ensures TextLe(a, c)
    {
      SeqTransitive(a, b, c, CharLe);
    }
    forall a: string, b: string {
      SeqTotal(a, b, CharLe);
    }
  }
}
