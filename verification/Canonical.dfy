/** Canonical lists: entries are read one by one, empty ones dropped, and the rest put in one fixed order. */
module Canonical {
  import opened Prelude
  import opened Sorting

  /** Reading an entry fails, drops it, or keeps what it says. */
  type Reading<E> = Result<Option<E>, StateError>

  datatype StateError = ModerationStateError

  ghost predicate Shuffled<J>(a: seq<J>, b: seq<J>) {
    multiset(a) == multiset(b)
  }

  predicate Readable<J, E>(items: seq<J>, read: J -> Reading<E>) {
    forall i :: 0 <= i < |items| ==> read(items[i]).Ok?
  }

  function Entry<E>(reading: Reading<E>): seq<E> {
    if reading.Ok? && reading.value.Some? then [reading.value.value] else []
  }

  /** What the entries say, in their own order. */
  function Kept<J, E>(items: seq<J>, read: J -> Reading<E>): seq<E> {
    if items == [] then [] else Kept(items[..|items| - 1], read) + Entry(read(items[|items| - 1]))
  }

  /** One more entry, or the first one that cannot be read. */
  lemma KeptStep<J, E>(items: seq<J>, i: nat, read: J -> Reading<E>)
    requires i < |items|
    ensures Kept(items[..i + 1], read) == Kept(items[..i], read) + Entry(read(items[i]))
    ensures Readable(items[..i + 1], read) <==> Readable(items[..i], read) && read(items[i]).Ok?
    ensures read(items[i]).Err? ==> !Readable(items, read)
  {
    assert items[..i + 1][..i] == items[..i];
    assert forall k :: 0 <= k < i ==> items[..i + 1][k] == items[..i][k];
    assert items[..i + 1][i] == items[i];
  }

  lemma {:induction false} KeptConcat<J, E>(a: seq<J>, b: seq<J>, read: J -> Reading<E>)
    ensures Kept(a + b, read) == Kept(a, read) + Kept(b, read)
    decreases |b|
  {
    if b == [] {
      assert a + b == a;
    } else {
      assert (a + b)[..|a + b| - 1] == a + b[..|b| - 1];
      KeptConcat(a, b[..|b| - 1], read);
    }
  }

  lemma KeptOne<J, E>(x: J, read: J -> Reading<E>)
    ensures Kept([x], read) == Entry(read(x))
  {
    assert [x][..0] == [];
    assert Kept<J, E>([], read) == [];
  }

  /** Taking out one element and putting it in front. */
  lemma KeptFront<J, E>(s: seq<J>, k: nat, read: J -> Reading<E>, rest: seq<J>)
    requires k < |s| && rest == s[..k] + s[k + 1..]
    ensures multiset(Kept(s, read)) == multiset(Entry(read(s[k]))) + multiset(Kept(rest, read))
  {
    assert s == s[..k] + ([s[k]] + s[k + 1..]);
    KeptConcat(s[..k], [s[k]] + s[k + 1..], read);
    KeptConcat([s[k]], s[k + 1..], read);
    KeptOne(s[k], read);
    KeptConcat(s[..k], s[k + 1..], read);
  }

  /** The first element's place in the shuffle; taking it out of both leaves shuffles of each other. */
  lemma Partner<J>(a: seq<J>, b: seq<J>) returns (k: nat)
    requires a != [] && Shuffled(a, b)
    ensures k < |b| && b[k] == a[0] && Shuffled(a[1..], b[..k] + b[k + 1..])
  {
    SameElements(a, b, a[0]);
    k :| 0 <= k < |b| && b[k] == a[0];
    assert a == [a[0]] + a[1..];
    assert b == b[..k] + ([b[k]] + b[k + 1..]);
    assert multiset(b) == multiset(b[..k]) + (multiset{b[k]} + multiset(b[k + 1..]));
    assert multiset(a[1..]) == multiset(a) - multiset{a[0]};
  }

  /** Shuffling the entries shuffles what is kept of them. */
  lemma {:induction false} KeptShuffled<J, E>(a: seq<J>, b: seq<J>, read: J -> Reading<E>)
    requires Shuffled(a, b)
    ensures Shuffled(Kept(a, read), Kept(b, read))
  {
    if a == [] {
      assert |multiset(b)| == 0;
    } else {
      var k := Partner(a, b);
      var rest := b[..k] + b[k + 1..];
      KeptFront(a, 0, read, a[1..]);
      KeptFront(b, k, read, rest);
      KeptShuffled(a[1..], rest, read);
    }
  }

  lemma ReadableShuffled<J, E>(a: seq<J>, b: seq<J>, read: J -> Reading<E>)
    requires Shuffled(a, b)
    ensures Readable(a, read) <==> Readable(b, read)
  {
    if Readable(a, read) {
      ReadableThrough(a, b, read);
    }
    if Readable(b, read) {
      ReadableThrough(b, a, read);
    }
  }

  lemma ReadableThrough<J, E>(a: seq<J>, b: seq<J>, read: J -> Reading<E>)
    requires Shuffled(a, b) && Readable(a, read)
    ensures Readable(b, read)
  {
    forall i | 0 <= i < |b|
      ensures read(b[i]).Ok?
    {
      SameElements(a, b, b[i]);
    }
  }

  lemma {:induction false} KeptPointwise<J, E>(a: seq<J>, b: seq<J>, read: J -> Reading<E>)
    requires |a| == |b| && forall i :: 0 <= i < |a| ==> read(a[i]) == read(b[i])
    ensures Kept(a, read) == Kept(b, read)
  {
    if a != [] {
      KeptPointwise(a[..|a| - 1], b[..|b| - 1], read);
    }
  }

  lemma {:induction false} KeptCameFrom<J, E>(items: seq<J>, read: J -> Reading<E>, e: E) returns (k: nat)
    requires e in Kept(items, read)
    ensures k < |items| && read(items[k]) == Ok(Some(e))
  {
    var n := |items| - 1;
    if e in Entry(read(items[n])) {
      k := n;
    } else {
      k := KeptCameFrom(items[..n], read, e);
    }
  }

  function Written<J, E>(entries: seq<E>, write: E -> J): (items: seq<J>)
    ensures |items| == |entries|
    ensures forall i :: 0 <= i < |items| ==> items[i] == write(entries[i])
  {
    if entries == [] then [] else Written(entries[..|entries| - 1], write) + [write(entries[|entries| - 1])]
  }

  lemma {:induction false} KeptWritten<J, E>(entries: seq<E>, read: J -> Reading<E>, write: E -> J)
    requires forall i :: 0 <= i < |entries| ==> read(write(entries[i])) == Ok(Some(entries[i]))
    ensures Readable(Written(entries, write), read) && Kept(Written(entries, write), read) == entries
  {
    if entries != [] {
      var n := |entries| - 1;
      KeptWritten(entries[..n], read, write);
      assert Written(entries, write)[..n] == Written(entries[..n], write);
    }
  }

  // ---------------------------------------------------------------- first occurrences

  /** `list(dict.fromkeys(s))`: every element once, at its first occurrence. */
  function Dedup<T(==)>(s: seq<T>): seq<T> {
    if s == [] then []
    else
      var before := Dedup(s[..|s| - 1]);
      if s[|s| - 1] in before then before else before + [s[|s| - 1]]
  }

  lemma {:induction false} DedupKeepsElements<T>(s: seq<T>)
    ensures NoDuplicates(Dedup(s)) && forall x :: x in Dedup(s) <==> x in s
  {
    if s != [] {
      var n := |s| - 1;
      DedupKeepsElements(s[..n]);
      assert s == s[..n] + [s[n]];
    }
  }

  lemma {:induction false} DedupFirst<T>(s: seq<T>)
    requires s != []
    ensures Dedup(s) != [] && Dedup(s)[0] == s[0]
  {
    if |s| > 1 {
      DedupFirst(s[..|s| - 1]);
    } else {
      assert Dedup(s[..0]) == [];
    }
  }

  lemma {:induction false} DedupFixed<T>(s: seq<T>)
    requires NoDuplicates(s)
    ensures Dedup(s) == s
  {
    if s != [] {
      var n := |s| - 1;
      DedupFixed(s[..n]);
      assert s == s[..n] + [s[n]];
    }
  }

  /** Two lists without duplicates hold the same elements exactly when one is a shuffle of the other. */
  lemma SameSetIffShuffled<T>(a: seq<T>, b: seq<T>)
    requires NoDuplicates(a) && NoDuplicates(b)
    ensures Shuffled(a, b) <==> forall x :: x in a <==> x in b
  {
    NoDuplicatesMultiset(a);
    NoDuplicatesMultiset(b);
    if Shuffled(a, b) {
      forall x
        ensures x in a <==> x in b
      {
        SameElements(a, b, x);
      }
    }
    if forall x :: x in a <==> x in b {
      forall x
        ensures multiset(a)[x] == multiset(b)[x]
      {
        assert x in a <==> x in multiset(a);
        assert x in b <==> x in multiset(b);
      }
    }
  }

  /** Sorted lists are equal exactly when they hold the same elements equally often. */
  lemma SortedAlikeIff<T(!new)>(a: seq<T>, b: seq<T>, le: (T, T) -> bool)
    requires TotalOrder(le)
    ensures Sort(a, le) == Sort(b, le) <==> Shuffled(a, b)
  {
    if Shuffled(a, b) {
      SortPermutation(a, b, le);
    }
  }
}
