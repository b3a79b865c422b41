/** What the two lease tables have in common: their columns, the query that picks due rows,
    the claim of one row and the exponential back-off. */
module JobQueue {
  import opened Prelude
  import opened Sorting

  type Time = int

  type Token = nat

  datatype Status = Queued | Leased | Retry | Done | Superseded | Failed | OutcomeUnknown

  datatype Lease = Lease(token: Token, until: Time)

  /** `lease` stands for the two columns lease_token and lease_until, which are always set and cleared together. */
  datatype Row = Row(pk: nat, status: Status, attempts: nat, availableAt: Time, lease: Option<Lease>)

  predicate Waiting(r: Row) {
    r.status == Queued || r.status == Retry
  }

  predicate Active(r: Row) {
    Waiting(r) || r.status == Leased
  }

  predicate Ready(r: Row, now: Time) {
    Waiting(r) && r.availableAt <= now
  }

  predicate Overdue(r: Row, now: Time) {
    r.status == Leased && r.lease.Some? && r.lease.value.until <= now
  }

  /** The fence of a moderation write: the row is leased under exactly this token. */
  predicate HeldBy(r: Row, token: Token) {
    r.status == Leased && r.lease.Some? && r.lease.value.token == token
  }

  /** The fence of a preparation write: leased under this token and the lease has not run out. */
  predicate LiveUnder(r: Row, token: Token, now: Time) {
    HeldBy(r, token) && r.lease.value.until > now
  }

  /** Order of the due rows: `available_at`, then `id`. */
  predicate Before(a: Row, b: Row) {
    a.availableAt < b.availableAt || (a.availableAt == b.availableAt && a.pk <= b.pk)
  }

  function NewRow(pk: nat, now: Time): Row {
    Row(pk, Queued, 0, now, None)
  }

  function LeaseRow(r: Row, token: Token, until: Time): Row {
    r.(status := Leased, attempts := r.attempts + 1, lease := Some(Lease(token, until)))
  }

  predicate AllIn<K>(queue: seq<K>, rows: map<K, Row>) {
    forall i :: 0 <= i < |queue| ==> queue[i] in rows
  }

  /** Leases the first `n` rows of `queue` from left to right under consecutive fresh tokens. */
  function LeaseFirst<K>(rows: map<K, Row>, queue: seq<K>, n: nat, token: Token, until: Time): (leased: map<K, Row>)
    requires n <= |queue| && AllIn(queue, rows)
    ensures leased.Keys == rows.Keys
  {
    if n == 0 then rows
    else
      var before := LeaseFirst(rows, queue, n - 1, token, until);
      before[queue[n - 1] := LeaseRow(before[queue[n - 1]], token + n - 1, until)]
  }

  /** Row by row, a claim of distinct rows leases exactly the rows of the queue, the i-th one
      under the i-th token, and leaves every other row alone. */
  lemma {:induction false} LeaseFirstAt<K>(rows: map<K, Row>, queue: seq<K>, n: nat, token: Token, until: Time)
    requires n <= |queue| && AllIn(queue, rows) && NoDuplicates(queue)
    ensures forall i :: 0 <= i < n ==>
      LeaseFirst(rows, queue, n, token, until)[queue[i]] == LeaseRow(rows[queue[i]], token + i, until)
    ensures forall k :: k in rows && k !in queue[..n] ==> LeaseFirst(rows, queue, n, token, until)[k] == rows[k]
  {
    if n == 0 {
    } else {
      LeaseFirstAt(rows, queue, n - 1, token, until);
      assert queue[..n] == queue[..n - 1] + [queue[n - 1]];
      assert queue[n - 1] !in queue[..n - 1];
    }
  }

  /** Leasing the rows before it leaves the next row of the queue as it was. */
  lemma NextStaysAsItWas<K>(rows: map<K, Row>, queue: seq<K>, n: nat, token: Token, until: Time)
    requires n < |queue| && AllIn(queue, rows) && NoDuplicates(queue)
    ensures LeaseFirst(rows, queue, n, token, until)[queue[n]] == rows[queue[n]]
  {
    LeaseFirstAt(rows, queue, n, token, until);
    assert queue[n] !in queue[..n];
  }

  function ReadyKeys<K>(rows: map<K, Row>, now: Time, locked: set<K>): set<K> {
    set k | k in rows && k !in locked && Ready(rows[k], now)
  }

  /** The answer of `ORDER BY available_at, id FOR UPDATE SKIP LOCKED LIMIT limit`. */
  ghost predicate IsReadyPrefix<K>(queue: seq<K>, rows: map<K, Row>, now: Time, locked: set<K>, limit: nat) {
    && NoDuplicates(queue)
    && (forall i :: 0 <= i < |queue| ==> queue[i] in ReadyKeys(rows, now, locked))
    && |queue| == Min(limit, |ReadyKeys(rows, now, locked)|)
    && (forall i, j :: 0 <= i < j < |queue| ==> Before(rows[queue[i]], rows[queue[j]]))
    && (forall i, k :: 0 <= i < |queue| && k in ReadyKeys(rows, now, locked) && k !in queue
          ==> Before(rows[queue[i]], rows[k]))
  }

  /** Every row of the prefix comes before every ready row that is not ahead of it. */
  lemma ReadyPrefixIsEarliest<K>(queue: seq<K>, rows: map<K, Row>, now: Time, locked: set<K>, limit: nat)
    requires IsReadyPrefix(queue, rows, now, locked, limit)
    ensures AllIn(queue, rows)
    ensures forall i, k :: 0 <= i < |queue| && k in ReadyKeys(rows, now, locked) && k !in queue[..i] ==> Before(rows[queue[i]], rows[k])
  {
    forall i, k | 0 <= i < |queue| && k in ReadyKeys(rows, now, locked) && k !in queue[..i]
      ensures Before(rows[queue[i]], rows[k])
    {
      if k in queue {
        var j :| 0 <= j < |queue| && queue[j] == k;
        assert forall m :: 0 <= m < i ==> queue[..i][m] == queue[m];
      }
    }
  }

  /** One earliest row of a non-empty set of rows. */
  method Earliest<K(==)>(rows: map<K, Row>, keys: set<K>) returns (first: K)
    requires keys != {} && keys <= rows.Keys
    ensures first in keys
    ensures forall k :: k in keys ==> Before(rows[first], rows[k])
  {
    first :| first in keys;
    var rest := keys - {first};
    while rest != {}
      invariant rest <= keys && first in keys
      invariant forall k :: k in keys && k !in rest ==> Before(rows[first], rows[k])
      decreases |rest|
    {
      var k :| k in rest;
      rest := rest - {k};
      if !Before(rows[first], rows[k]) {
        first := k;
      }
    }
  }

  method SelectReady<K(==)>(rows: map<K, Row>, now: Time, locked: set<K>, limit: nat) returns (queue: seq<K>)
    ensures IsReadyPrefix(queue, rows, now, locked, limit)
  {
    queue := [];
    ghost var all := ReadyKeys(rows, now, locked);
    var rest := ReadyKeys(rows, now, locked);
    while |queue| < limit && rest != {}
      invariant |queue| <= limit
      invariant rest <= all && |queue| + |rest| == |all|
      invariant forall k :: k in all ==> (k in rest <==> k !in queue)
      invariant forall i :: 0 <= i < |queue| ==> queue[i] in all
      invariant NoDuplicates(queue)
      invariant forall i, j :: 0 <= i < j < |queue| ==> Before(rows[queue[i]], rows[queue[j]])
      invariant forall i, k :: 0 <= i < |queue| && k in rest ==> Before(rows[queue[i]], rows[k])
      decreases |rest|
    {
      var first := Earliest(rows, rest);
      rest := rest - {first};
      queue := queue + [first];
    }
  }

  function Claims<K>(queue: seq<K>, token: Token): (claims: seq<(K, Token)>)
    ensures |claims| == |queue|
  {
    seq(|queue|, i requires 0 <= i < |queue| => (queue[i], token + i))
  }

  /** The loop of a claim: leases the selected rows one after another and lists them with their tokens. */
  method LeaseQueue<K(==)>(before: map<K, Row>, queue: seq<K>, now: Time, token: Token, until: Time)
      returns (rows: map<K, Row>, claims: seq<(K, Token)>)
    requires AllIn(queue, before) && NoDuplicates(queue)
    requires forall i :: 0 <= i < |queue| ==> Ready(before[queue[i]], now)
    ensures claims == Claims(queue, token)
    ensures rows == LeaseFirst(before, queue, |queue|, token, until)
  {
    rows, claims := before, [];
    ghost var all := Claims(queue, token);
    for i := 0 to |queue|
      invariant rows == LeaseFirst(before, queue, i, token, until)
      invariant claims == all[..i]
    {
      assert rows[queue[i]] == before[queue[i]] by {
        LeaseFirstAt(before, queue, i, token, until);
        assert queue[i] !in queue[..i];
      }
      assert all[i] == (queue[i], token + i);
      if Waiting(rows[queue[i]]) {
        rows := rows[queue[i] := LeaseRow(rows[queue[i]], token + i, until)];
        claims := claims + [(queue[i], token + i)];
      }
    }
  }

  /** A batch claim as steps of any machine: a first one that settles expired leases, then one claim per selected row. */
  function ClaimSteps<K, S>(queue: seq<K>, n: nat, first: S, claim: K -> S): (steps: seq<S>)
    requires n <= |queue|
    ensures |steps| == n + 1
  {
    if n == 0 then [first] else ClaimSteps(queue, n - 1, first, claim) + [claim(queue[n - 1])]
  }

  // ---------------------------------------------------------------- inserting rows

  /** bulk_create(ignore_conflicts=True) of the first `n` keys: those that already have a row keep it. */
  function InsertFirst<K>(rows: map<K, Row>, items: seq<K>, n: nat, pk: nat, now: Time): (after: map<K, Row>)
    requires n <= |items|
    ensures after.Keys == rows.Keys + set i | 0 <= i < n :: items[i]
    ensures forall k :: k in rows ==> after[k] == rows[k]
    ensures forall k :: k in after && k !in rows ==>
      after[k].status == Queued && after[k].attempts == 0 && after[k].availableAt == now && after[k].lease == None
  {
    if n == 0 then rows
    else
      var before := InsertFirst(rows, items, n - 1, pk, now);
      if items[n - 1] in before then before else before[items[n - 1] := NewRow(pk + n - 1, now)]
  }

  function InsertAll<K>(rows: map<K, Row>, items: seq<K>, pk: nat, now: Time): map<K, Row> {
    InsertFirst(rows, items, |items|, pk, now)
  }

  /** The i-th key, if it has no row yet, gets one under the i-th primary key from `pk` on. */
  lemma {:induction false} InsertedRow<K>(rows: map<K, Row>, items: seq<K>, n: nat, pk: nat, now: Time, i: nat)
    requires i < n <= |items| && NoDuplicates(items) && items[i] !in rows
    ensures items[i] in InsertFirst(rows, items, n, pk, now)
    ensures InsertFirst(rows, items, n, pk, now)[items[i]] == Row(pk + i, Queued, 0, now, None)
  {
    var before := InsertFirst(rows, items, n - 1, pk, now);
    if i < n - 1 {
      InsertedRow(rows, items, n - 1, pk, now, i);
    } else {
      assert items[i] !in before;
    }
  }

  lemma {:induction false} AskedSize<K>(items: seq<K>)
    ensures |set i | 0 <= i < |items| :: items[i]| <= |items|
  {
    if items == [] {
    } else {
      var n := |items| - 1;
      AskedSize(items[..n]);
      var fewer := set i | 0 <= i < n :: items[..n][i];
      assert (set i | 0 <= i < |items| :: items[i]) == fewer + {items[n]};
    }
  }

  lemma UnionSize<T>(a: set<T>, b: set<T>)
    ensures |a + b| == |a| + |b - a|
    ensures |b - a| == |b| <==> a !! b
  {
    assert a + b == a + (b - a);
    assert b == (b - a) + (b * a);
    assert b * a == {} <==> a !! b;
  }

  /** An insert that ignores conflicts adds one row per key exactly when no key has a row yet. */
  lemma InsertedIff<K>(rows: map<K, Row>, items: seq<K>, pk: nat, now: Time)
    requires NoDuplicates(items)
    ensures |InsertAll(rows, items, pk, now)| - |rows| == |items|
       <==> forall i :: 0 <= i < |items| ==> items[i] !in rows
  {
    var asked := set i | 0 <= i < |items| :: items[i];
    DistinctSize(items);
    UnionSize(rows.Keys, asked);
    var after := InsertAll(rows, items, pk, now);
    assert |after| == |after.Keys| && |rows| == |rows.Keys|;
    assert rows.Keys !! asked <==> forall i :: 0 <= i < |items| ==> items[i] !in rows.Keys;
  }

  lemma {:induction false} DistinctSize<K>(items: seq<K>)
    requires NoDuplicates(items)
    ensures |set i | 0 <= i < |items| :: items[i]| == |items|
  {
    if items == [] {
    } else {
      var n := |items| - 1;
      assert NoDuplicates(items[..n]);
      DistinctSize(items[..n]);
      var fewer := set i | 0 <= i < n :: items[..n][i];
      assert items[n] !in fewer;
      assert (set i | 0 <= i < |items| :: items[i]) == fewer + {items[n]};
    }
  }

  lemma InsertNext<K>(rows: map<K, Row>, items: seq<K>, n: nat, pk: nat, now: Time)
    requires n < |items|
    ensures var before := InsertFirst(rows, items, n, pk, now);
      InsertFirst(rows, items, n + 1, pk, now) == if items[n] in before then before else before[items[n] := NewRow(pk + n, now)]
  {
  }

  /** The insert loop of bulk_create. */
  method InsertRows<K(==)>(rows: map<K, Row>, items: seq<K>, pk: nat, now: Time) returns (inserted: map<K, Row>)
    ensures inserted == InsertAll(rows, items, pk, now)
  {
    inserted := rows;
    for i := 0 to |items|
      invariant inserted == InsertFirst(rows, items, i, pk, now)
    {
      InsertNext(rows, items, i, pk, now);
      if items[i] !in inserted {
        inserted := inserted[items[i] := NewRow(pk + i, now)];
      }
    }
  }

  // ---------------------------------------------------------------- back-off

  function Clamp(attempt: int): nat {
    Max(0, Min(30, attempt - 1))
  }

  /** Seconds to wait before the next attempt, doubling from `base` and never above `cap`. */
  function BackoffDelay(attempt: int, base: int, cap: int): int {
    Min(cap, base * Pow2(Clamp(attempt)))
  }

  /** Waiting longer is never cheaper: the delay grows with the attempt number, starts at
      the smaller of base and cap, and stays under the cap. */
  lemma BackoffIsMonotone(a: int, b: int, base: int, cap: int)
    requires base >= 0 && a <= b
    ensures Min(base, cap) <= BackoffDelay(a, base, cap) <= BackoffDelay(b, base, cap) <= cap
  {
    Pow2Monotone(Clamp(a), Clamp(b));
    Scale(base, 1, Pow2(Clamp(a)));
    Scale(base, Pow2(Clamp(a)), Pow2(Clamp(b)));
  }

  /** The delay is the base doubled for every attempt after the first, up to the thirtieth doubling, and capped. */
  lemma BackoffDoubles(attempt: int, base: int, cap: int)
    ensures attempt <= 1 ==> BackoffDelay(attempt, base, cap) == Min(cap, base)
    ensures 2 <= attempt <= 31 ==> BackoffDelay(attempt, base, cap) == Min(cap, 2 * (base * Pow2(attempt - 2)))
    ensures attempt >= 31 ==> BackoffDelay(attempt, base, cap) == Min(cap, base * 0x4000_0000)
  {
    if 2 <= attempt <= 31 {
      assert base * (2 * Pow2(attempt - 2)) == 2 * (base * Pow2(attempt - 2));
    }
    if attempt >= 31 {
      Pow2Thirty();
    }
  }

  lemma Pow2Thirty()
    ensures Pow2(30) == 0x4000_0000
  {
    assert Pow2(10) == 1024;
    assert Pow2(20) == 1024 * 1024;
  }

  lemma Scale(base: int, p: nat, q: nat)
    requires base >= 0 && p <= q
    ensures base * p <= base * q
  {
    assert base * q == base * p + base * (q - p);
  }
}
