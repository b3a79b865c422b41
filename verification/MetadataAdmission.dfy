/** The metadata preparation table: capped round-robin admission and the claim of due rows. */
module MetadataAdmission {
  import opened Prelude
  import opened Sorting
  import opened JobQueue

  /** Primary keys of content items; real ones start at one. */
  type ItemId = nat

  type Rows = map<ItemId, Row>

  const MAX_PENDING := 1000
  const MAX_BATCH_SIZE := 100
  const MIN_LEASE_SECONDS := 300

  /** An absent cursor and a zero cursor are both falsy and rotate nothing. */
  function Origin(last: Option<nat>): nat {
    if last.Some? then last.value else 0
  }

  predicate Wrapped(last: Option<nat>, id: ItemId) {
    last.Some? && last.value != 0 && id <= last.value
  }

  /** The sort key (wrapped, id) compared as a pair. */
  function RotationOrder(last: Option<nat>): (ItemId, ItemId) -> bool {
    (a: ItemId, b: ItemId) => if Wrapped(last, a) == Wrapped(last, b) then a <= b else Wrapped(last, b)
  }

  lemma RotationIsTotal(last: Option<nat>)
    ensures TotalOrder(RotationOrder(last))
  {
  }

  function Rotation(candidates: seq<ItemId>, last: Option<nat>): (order: seq<ItemId>)
    ensures multiset(order) == multiset(candidates) && |order| == |candidates|
  {
    Sort(candidates, RotationOrder(last))
  }

  /** Building the candidates from a set leaves their order open; the rotation does not depend on it. */
  lemma RotationIgnoresInputOrder(candidates: seq<ItemId>, shuffled: seq<ItemId>, last: Option<nat>)
    requires multiset(candidates) == multiset(shuffled)
    ensures Rotation(candidates, last) == Rotation(shuffled, last)
  {
    RotationIsTotal(last);
    SortPermutation(candidates, shuffled, RotationOrder(last));
  }

  function Admitted(candidates: seq<ItemId>, last: Option<nat>, slots: nat): (admitted: seq<ItemId>)
    ensures |admitted| <= slots && |admitted| <= |candidates|
  {
    Rotation(candidates, last)[..Min(slots, |candidates|)]
  }

  function CursorAfter(candidates: seq<ItemId>, last: Option<nat>, slots: nat): Option<nat> {
    var admitted := Admitted(candidates, last, slots);
    if admitted == [] then last else Some(admitted[|admitted| - 1])
  }

  // ---------------------------------------------------------------- fairness of the rotation

  /** Steps from the cursor to `x` going up through the ids 1..bound and around. */
  function Distance(last: Option<nat>, x: ItemId, bound: nat): int {
    if x > Origin(last) then x - Origin(last) else bound + x - Origin(last)
  }

  predicate Within(candidates: seq<ItemId>, bound: nat) {
    forall i :: 0 <= i < |candidates| ==> 1 <= candidates[i] <= bound
  }

  lemma RotationFollowsDistance(last: Option<nat>, a: ItemId, b: ItemId, bound: nat)
    requires 1 <= a <= bound && 1 <= b <= bound && Origin(last) <= bound
    ensures RotationOrder(last)(a, b) <==> Distance(last, a, bound) <= Distance(last, b, bound)
  {
  }

  /** A call with a free slot either admits `x` or moves the cursor strictly closer to it. */
  lemma CursorApproaches(candidates: seq<ItemId>, last: Option<nat>, slots: nat, x: ItemId, bound: nat)
    requires x in candidates && slots >= 1 && Within(candidates, bound) && Origin(last) <= bound
    requires x !in Admitted(candidates, last, slots)
    ensures Origin(CursorAfter(candidates, last, slots)) <= bound
    ensures 1 <= Distance(CursorAfter(candidates, last, slots), x, bound) < Distance(last, x, bound)
  {
    var final := LastAdmitted(candidates, last, slots, x);
    RotationFollowsDistance(last, final, x, bound);
  }

  lemma LeftOutIsLater(order: seq<ItemId>, n: nat, x: ItemId) returns (i: nat)
    requires n <= |order| && x in order && x !in order[..n]
    ensures n <= i < |order| && order[i] == x
  {
    i :| 0 <= i < |order| && order[i] == x;
    assert forall j :: 0 <= j < n ==> order[..n][j] == order[j];
  }

  /** The last admitted item comes before every item left out. */
  lemma LastAdmitted(candidates: seq<ItemId>, last: Option<nat>, slots: nat, x: ItemId) returns (final: ItemId)
    requires x in candidates && slots >= 1 && x !in Admitted(candidates, last, slots)
    ensures CursorAfter(candidates, last, slots) == Some(final) && final in candidates
    ensures final != x && RotationOrder(last)(final, x)
  {
    var order := Rotation(candidates, last);
    var n := Min(slots, |candidates|);
    SameElements(candidates, order, x);
    var i := LeftOutIsLater(order, n, x);
    final := order[n - 1];
    SameElements(candidates, order, final);
    RotationIsTotal(last);
    SortSorted(candidates, RotationOrder(last));
  }

  /** One admission request as it meets the cursor: what it asks for and how many slots are free. */
  datatype Request = Request(candidates: seq<ItemId>, slots: nat)

  ghost predicate AdmittedBy(last: Option<nat>, requests: seq<Request>, x: ItemId)
    decreases |requests|
  {
    requests != [] &&
    (x in Admitted(requests[0].candidates, last, requests[0].slots)
     || AdmittedBy(CursorAfter(requests[0].candidates, last, requests[0].slots), requests[1..], x))
  }

  /** Round-robin fairness: an item asked for in every request is admitted within as many calls as its
      cyclic distance from the cursor, however many other items are asked for. */
  lemma {:induction false} EveryItemGetsItsTurn(last: Option<nat>, requests: seq<Request>, x: ItemId, bound: nat)
    requires Origin(last) <= bound && 1 <= x <= bound
    requires forall r :: r in requests ==> x in r.candidates && r.slots >= 1 && Within(r.candidates, bound)
    requires |requests| >= Distance(last, x, bound)
    ensures AdmittedBy(last, requests, x)
    decreases |requests|
  {
    assert Distance(last, x, bound) >= 1;
    var r := requests[0];
    assert r in requests;
    if x !in Admitted(r.candidates, last, r.slots) {
      CursorApproaches(r.candidates, last, r.slots, x, bound);
      assert forall q :: q in requests[1..] ==> q in requests;
      EveryItemGetsItsTurn(CursorAfter(r.candidates, last, r.slots), requests[1..], x, bound);
    }
  }

  // ---------------------------------------------------------------- admission and claim on the table

  function ActiveItems(rows: Rows): set<ItemId> {
    set k | k in rows && Active(rows[k])
  }

  function FreeSlots(rows: Rows): nat {
    Max(0, MAX_PENDING - |ActiveItems(rows)|)
  }

  /** How many jobs are still to be worked on, by their status column. */
  function Unfinished(rows: Rows): nat {
    |set k | k in rows && rows[k].status in {Queued, Leased, Retry}|
  }

  /** The asked ids that have no job yet. */
  function Unprepared(ids: seq<ItemId>, rows: Rows): set<ItemId> {
    set x | x in ids && x !in rows
  }

  lemma SlotsColumns(rows: Rows)
    ensures FreeSlots(rows) == Max(0, 1000 - Unfinished(rows))
  {
    assert ActiveItems(rows) == set k | k in rows && rows[k].status in {Queued, Leased, Retry};
  }

  /** Going up from the cursor and around, `a` does not come after `b`: both lie on the same side of the cursor, or only
      `b` has been passed already. A cursor of 0 has passed nothing. */
  predicate NotAfter(cursor: nat, a: ItemId, b: ItemId) {
    || (a <= b && (cursor == 0 || b <= cursor || a > cursor))
    || (cursor != 0 && b <= cursor < a)
  }

  /** Admitted are the next candidates going up from the cursor and around, and the cursor moves to the last of them. */
  lemma AdmittedAreNext(candidates: seq<ItemId>, last: Option<nat>, slots: nat)
    ensures var admitted, cursor := Admitted(candidates, last, slots), if last.Some? then last.value else 0;
      && |admitted| == Min(slots, |candidates|)
      && (forall i, j :: 0 <= i < j < |admitted| ==> NotAfter(cursor, admitted[i], admitted[j]))
      && (forall a, b :: a in admitted && b in candidates && b !in admitted ==> a in candidates && NotAfter(cursor, a, b))
      && CursorAfter(candidates, last, slots) == if admitted == [] then last else Some(admitted[|admitted| - 1])
  {
    var order, admitted := Rotation(candidates, last), Admitted(candidates, last, slots);
    RotationIsTotal(last);
    SortSorted(candidates, RotationOrder(last));
    assert forall i :: 0 <= i < |admitted| ==> admitted[i] == order[i];
    forall i, j | 0 <= i < j < |order|
      ensures NotAfter(Origin(last), order[i], order[j])
    {
      RotationColumns(last, order[i], order[j]);
    }
    forall a, b | a in admitted && b in candidates && b !in admitted
      ensures a in candidates && NotAfter(Origin(last), a, b)
    {
      var i :| 0 <= i < |admitted| && admitted[i] == a;
      SameElements(candidates, order, a);
      SameElements(candidates, order, b);
      var j := LeftOutIsLater(order, |admitted|, b);
      assert order[i] == a && i < j;
    }
  }

  lemma RotationColumns(last: Option<nat>, a: ItemId, b: ItemId)
    ensures RotationOrder(last)(a, b) <==> NotAfter(Origin(last), a, b)
  {
  }

  function ExpireRow(r: Row, now: Time, maxAttempts: int): Row {
    if !Overdue(r, now) then r
    else if r.attempts >= maxAttempts then r.(status := Failed, lease := None)
    else r.(status := Retry, availableAt := now, lease := None)
  }

  function ExpireAll(rows: Rows, now: Time, maxAttempts: int): Rows {
    map k | k in rows :: ExpireRow(rows[k], now, maxAttempts)
  }

  /** The first UPDATE of a claim fails exhausted expired leases, the second one requeues the others. */
  function FailExhausted(rows: Rows, now: Time, maxAttempts: int): Rows {
    map k | k in rows ::
      if Overdue(rows[k], now) && rows[k].attempts >= maxAttempts then rows[k].(status := Failed, lease := None) else rows[k]
  }

  function RequeueExpired(rows: Rows, now: Time, maxAttempts: int): Rows {
    map k | k in rows ::
      if Overdue(rows[k], now) && rows[k].attempts < maxAttempts
      then rows[k].(status := Retry, availableAt := now, lease := None) else rows[k]
  }

  lemma TwoUpdatesExpire(rows: Rows, now: Time, maxAttempts: int)
    ensures RequeueExpired(FailExhausted(rows, now, maxAttempts), now, maxAttempts) == ExpireAll(rows, now, maxAttempts)
  {
  }

  /** A lease that has run out, in the columns. */
  predicate RanOut(r: Row, now: Time) {
    r.status == Leased && r.lease.Some? && r.lease.value.until <= now
  }

  /** Whether a claim at this time may take the row: it is waiting and due, or its lease has run out with attempts left. */
  predicate Due(rows: Rows, k: ItemId, now: Time, locked: set<ItemId>, maxAttempts: int) {
    && k in rows && k !in locked
    && ((rows[k].status in {Queued, Retry} && rows[k].availableAt <= now) || (RanOut(rows[k], now) && rows[k].attempts < maxAttempts))
  }

  /** Since when a due row has been available: a lease that has run out makes its row available now. */
  function DueSince(r: Row, now: Time): Time {
    if r.status == Leased then now else r.availableAt
  }

  /** What a claim does, in the columns. It takes the due rows with the smallest (available_at, id), as many as the limit
      allows, and leases the i-th of them under the i-th token with one more attempt. Of the rest, a lease that has run
      out fails or is retried at once by its attempts, and every other row stays. */
  lemma ClaimTakesTheEarliest(rows: Rows, queue: seq<ItemId>, now: Time, locked: set<ItemId>, limit: nat, maxAttempts: int, token: Token, until: Time)
    requires IsReadyPrefix(queue, ExpireAll(rows, now, maxAttempts), now, locked, limit)
    ensures AllIn(queue, ExpireAll(rows, now, maxAttempts))
    ensures |queue| == Min(limit, |set k | k in rows && Due(rows, k, now, locked, maxAttempts)|)
    ensures forall i :: 0 <= i < |queue| ==> Due(rows, queue[i], now, locked, maxAttempts)
    ensures forall i, k :: 0 <= i < |queue| && Due(rows, k, now, locked, maxAttempts) && k !in queue[..i] ==>
      (DueSince(rows[queue[i]], now) < DueSince(rows[k], now)
       || (DueSince(rows[queue[i]], now) == DueSince(rows[k], now) && rows[queue[i]].pk <= rows[k].pk))
    ensures var after := LeaseFirst(ExpireAll(rows, now, maxAttempts), queue, |queue|, token, until);
      && (forall i :: 0 <= i < |queue| ==> var r := rows[queue[i]];
            after[queue[i]] == Row(r.pk, Leased, r.attempts + 1, DueSince(r, now), Some(Lease(token + i, until))))
      && (forall k :: k in rows && k !in queue ==>
            after[k] == if !RanOut(rows[k], now) then rows[k]
                        else if rows[k].attempts >= maxAttempts then rows[k].(status := Failed, lease := None)
                        else rows[k].(status := Retry, availableAt := now, lease := None))
  {
    var expired := ExpireAll(rows, now, maxAttempts);
    DueAreReady(rows, now, locked, maxAttempts);
    ReadyPrefixIsEarliest(queue, expired, now, locked, limit);
    LeaseFirstAt(expired, queue, |queue|, token, until);
    assert queue[..|queue|] == queue;
  }

  lemma DueAreReady(rows: Rows, now: Time, locked: set<ItemId>, maxAttempts: int)
    ensures ReadyKeys(ExpireAll(rows, now, maxAttempts), now, locked) == set k | k in rows && Due(rows, k, now, locked, maxAttempts)
    ensures forall k :: Due(rows, k, now, locked, maxAttempts) ==> var q := ExpireAll(rows, now, maxAttempts)[k];
      q.availableAt == DueSince(rows[k], now) && q.pk == rows[k].pk && q.attempts == rows[k].attempts
  {
  }

  function FinishRow(r: Row, token: Token, now: Time): Row {
    if LiveUnder(r, token, now) then r.(status := Done, lease := None) else r
  }

  /** `attempts` is the value the worker read earlier, not the one in the row. */
  function RetryOrFailRow(r: Row, token: Token, now: Time, attempts: nat, maxAttempts: int, base: int, cap: int): Row {
    if !LiveUnder(r, token, now) then r
    else r.(status := if attempts >= maxAttempts then Failed else Retry,
            availableAt := now + Max(1, BackoffDelay(attempts, base, cap)), lease := None)
  }

  lemma InsertSlots(rows: Rows, items: seq<ItemId>, pk: nat, now: Time)
    ensures |ActiveItems(InsertAll(rows, items, pk, now))| <= |ActiveItems(rows)| + |items|
  {
    var asked := set i | 0 <= i < |items| :: items[i];
    AskedSize(items);
    SubsetSize(ActiveItems(InsertAll(rows, items, pk, now)), ActiveItems(rows) + asked);
    assert |ActiveItems(rows) + asked| <= |ActiveItems(rows)| + |asked|;
  }

  /** The number a call reports equals the rows it inserted exactly when no admitted item had got a row
      since the caller looked for existing jobs. */
  lemma ReportedEqualsInsertedIff(rows: Rows, items: seq<ItemId>, pk: nat, now: Time)
    requires NoDuplicates(items)
    ensures |InsertAll(rows, items, pk, now)| - |rows| == |items|
       <==> forall i :: 0 <= i < |items| ==> items[i] !in rows
  {
    InsertedIff(rows, items, pk, now);
  }

  /** An admission of these candidates inserts one queued row for each admitted one. */
  lemma CandidatesColumns(candidates: seq<ItemId>, ids: seq<ItemId>, rows: Rows, last: Option<nat>, slots: nat, pk: nat, now: Time)
    requires NoDuplicates(candidates) && forall x :: x in candidates <==> x in ids && x !in rows
    ensures var admitted := Admitted(candidates, last, slots);
      && |admitted| == Min(|Unprepared(ids, rows)|, slots)
      && |InsertAll(rows, admitted, pk, now)| - |rows| == |admitted|
      && forall k :: k in InsertAll(rows, admitted, pk, now) && k !in rows ==> k in ids
  {
    var admitted := Admitted(candidates, last, slots);
    DistinctSize(candidates);
    assert (set i | 0 <= i < |candidates| :: candidates[i]) == Unprepared(ids, rows);
    AdmittedAreCandidates(candidates, last, slots);
    ReportedEqualsInsertedIff(rows, admitted, pk, now);
  }

  lemma AdmittedAreCandidates(candidates: seq<ItemId>, last: Option<nat>, slots: nat)
    ensures forall i :: 0 <= i < |Admitted(candidates, last, slots)| ==> Admitted(candidates, last, slots)[i] in candidates
    ensures NoDuplicates(candidates) ==> NoDuplicates(Admitted(candidates, last, slots))
  {
    var order, admitted := Rotation(candidates, last), Admitted(candidates, last, slots);
    forall i | 0 <= i < |admitted|
      ensures admitted[i] in candidates
    {
      SameElements(candidates, order, order[i]);
    }
    if NoDuplicates(candidates) {
      SortKeepsNoDuplicates(candidates, RotationOrder(last));
    }
  }

  datatype ClaimError = BadOptions

  class PreparationTable {
    var rows: Rows
    var nextPk: nat
    var nextToken: Token
    var cursor: Option<nat>
    var enabled: bool

    constructor (enabled: bool)
      ensures rows == map[] && nextPk == 0 && nextToken == 0 && cursor == None && this.enabled == enabled
    {
      this.rows, this.nextPk, this.nextToken, this.cursor, this.enabled := map[], 0, 0, None, enabled;
    }

    /** `list(set(ids) - existing)`: some arrangement of the ids that have no row yet. */
    method Candidates(ids: seq<ItemId>) returns (candidates: seq<ItemId>)
      ensures NoDuplicates(candidates)
      ensures forall x :: x in candidates <==> x in ids && x !in rows
    {
      var wanted := set x | x in ids && x !in rows;
      candidates := [];
      while wanted != {}
        invariant NoDuplicates(candidates)
        invariant forall x :: x in candidates ==> x !in wanted
        invariant forall x :: x in ids && x !in rows <==> x in candidates || x in wanted
        decreases |wanted|
      {
        var x :| x in wanted;
        wanted := wanted - {x};
        candidates := candidates + [x];
      }
    }

    /** Admission keeps every existing row, inserts the first free-slots items of the rotation, moves the
        cursor to the last of them, and never takes the table past its cap. */
    method EnqueueMetadataPreparation(ids: seq<ItemId>, now: Time) returns (admitted: nat)
      modifies this`rows, this`nextPk, this`cursor
      ensures !enabled || FreeSlots(old(rows)) == 0 || (forall x :: x in ids ==> x in old(rows)) ==>
        admitted == 0 && rows == old(rows) && cursor == old(cursor)
      ensures enabled && FreeSlots(old(rows)) > 0 && (exists x :: x in ids && x !in old(rows)) ==>
        exists candidates: seq<ItemId> ::
          && NoDuplicates(candidates) && (forall x :: x in candidates <==> x in ids && x !in old(rows))
          && admitted == |Admitted(candidates, old(cursor), FreeSlots(old(rows)))|
          && rows == InsertAll(old(rows), Admitted(candidates, old(cursor), FreeSlots(old(rows))), old(nextPk), now)
          && cursor == CursorAfter(candidates, old(cursor), FreeSlots(old(rows)))
      ensures enabled ==> admitted == |rows| - |old(rows)| == Min(|Unprepared(ids, old(rows))|, Max(0, 1000 - Unfinished(old(rows))))
      ensures forall k :: k in old(rows) ==> k in rows && rows[k] == old(rows)[k]
      ensures forall k :: k in rows && k !in old(rows) ==>
        k in ids && rows[k].status == Queued && rows[k].attempts == 0 && rows[k].availableAt == now && rows[k].lease == None
      ensures |ActiveItems(old(rows))| <= MAX_PENDING ==> |ActiveItems(rows)| <= MAX_PENDING
    {
      SlotsColumns(rows);
      if !enabled || ids == [] {
        assert Unprepared([], rows) == {};
        return 0;
      }
      var candidates := Candidates(ids);
      if candidates == [] {
        assert forall x :: x in ids ==> x in rows;
        assert Unprepared(ids, rows) == {};
        return 0;
      }
      assert candidates[0] in ids && candidates[0] !in rows;
      CandidatesColumns(candidates, ids, rows, cursor, FreeSlots(rows), nextPk, now);
      admitted := Admit(candidates, now);
    }

    /** The transaction under the cursor lock. */
    method Admit(asked: seq<ItemId>, now: Time) returns (admitted: nat)
      requires NoDuplicates(asked) && asked != []
      modifies this`rows, this`nextPk, this`cursor
      ensures var slots := FreeSlots(old(rows));
        && admitted == |Admitted(asked, old(cursor), slots)|
        && rows == InsertAll(old(rows), Admitted(asked, old(cursor), slots), old(nextPk), now)
        && cursor == CursorAfter(asked, old(cursor), slots)
      ensures |ActiveItems(old(rows))| <= MAX_PENDING ==> |ActiveItems(rows)| <= MAX_PENDING
    {
      var active := |ActiveItems(rows)|;
      var slots := Max(0, MAX_PENDING - active);
      if slots == 0 {
        return 0;
      }
      var candidates := Sort(asked, RotationOrder(cursor));
      var chosen := candidates[..Min(slots, |candidates|)];
      InsertSlots(rows, chosen, nextPk, now);
      rows := InsertRows(rows, chosen, nextPk, now);
      nextPk := nextPk + |chosen|;
      cursor := Some(chosen[|chosen| - 1]);
      return |chosen|;
    }

    method ClaimMetadataPreparationJobs(batchSize: int, leaseSeconds: int, maxAttempts: int, now: Time, locked: set<ItemId>)
        returns (claimed: Result<seq<(ItemId, Token)>, ClaimError>)
      modifies this`rows, this`nextToken
      ensures !(1 <= batchSize <= 100) || leaseSeconds < 300 || maxAttempts < 1 ==>
        claimed == Err(BadOptions) && rows == old(rows) && nextToken == old(nextToken)
      ensures 1 <= batchSize <= 100 && leaseSeconds >= 300 && maxAttempts >= 1 ==>
        exists queue: seq<ItemId> ::
          && IsReadyPrefix(queue, ExpireAll(old(rows), now, maxAttempts), now, locked, batchSize)
          && claimed == Ok(Claims(queue, old(nextToken)))
          && rows == LeaseFirst(ExpireAll(old(rows), now, maxAttempts), queue, |queue|, old(nextToken), now + leaseSeconds)
          && nextToken == old(nextToken) + |queue|
    {
      if !(1 <= batchSize <= MAX_BATCH_SIZE) {
        return Err(BadOptions);
      }
      if leaseSeconds < MIN_LEASE_SECONDS || maxAttempts < 1 {
        return Err(BadOptions);
      }
      var queue, claims := ClaimDue(batchSize, now + leaseSeconds, maxAttempts, now, locked);
      return Ok(claims);
    }

    /** The claim transaction: settle expired leases, then lease the earliest due rows. */
    method ClaimDue(limit: nat, until: Time, maxAttempts: int, now: Time, locked: set<ItemId>)
        returns (queue: seq<ItemId>, claims: seq<(ItemId, Token)>)
      modifies this`rows, this`nextToken
      ensures IsReadyPrefix(queue, ExpireAll(old(rows), now, maxAttempts), now, locked, limit)
      ensures claims == Claims(queue, old(nextToken))
      ensures rows == LeaseFirst(ExpireAll(old(rows), now, maxAttempts), queue, |queue|, old(nextToken), until)
      ensures nextToken == old(nextToken) + |queue|
    {
      TwoUpdatesExpire(rows, now, maxAttempts);
      rows := FailExhausted(rows, now, maxAttempts);
      rows := RequeueExpired(rows, now, maxAttempts);
      queue := SelectReady(rows, now, locked, limit);
      rows, claims := LeaseQueue(rows, queue, now, nextToken, until);
      nextToken := nextToken + |queue|;
    }

    /** _active_lease: the row is read under its lock by status and token, then its lease is compared with the clock. */
    method ActiveLease(job: ItemId, token: Token, now: Time) returns (active: bool)
      ensures active <==> job in rows && LiveUnder(rows[job], token, now)
      ensures active <==> job in rows && rows[job].status == Leased && rows[job].lease.Some?
                          && rows[job].lease.value.token == token && now < rows[job].lease.value.until
    {
      if job !in rows || rows[job].status != Leased || rows[job].lease.None? || rows[job].lease.value.token != token {
        return false;
      }
      return rows[job].lease.value.until > now;
    }

    method Finish(job: ItemId, token: Token, now: Time) returns (changed: bool)
      requires job in rows
      modifies this`rows
      ensures changed <==> old(rows)[job].status == Leased && old(rows)[job].lease.Some?
                           && old(rows)[job].lease.value.token == token && now < old(rows)[job].lease.value.until
      ensures rows == if changed then old(rows)[job := old(rows)[job].(status := Done, lease := None)] else old(rows)
      ensures rows == old(rows)[job := FinishRow(old(rows)[job], token, now)]
    {
      changed := HeldBy(rows[job], token) && rows[job].lease.value.until > now;
      if changed {
        rows := rows[job := rows[job].(status := Done, lease := None)];
      } else {
        assert rows == rows[job := rows[job]];
      }
    }

    method RetryOrFail(job: ItemId, token: Token, now: Time, attempts: nat, maxAttempts: int, base: int, cap: int)
        returns (outcome: Status, changed: bool)
      requires job in rows
      modifies this`rows
      ensures changed <==> old(rows)[job].status == Leased && old(rows)[job].lease.Some?
                           && old(rows)[job].lease.value.token == token && now < old(rows)[job].lease.value.until
      ensures outcome == (if attempts >= maxAttempts then Failed else Retry)
      ensures rows == if !changed then old(rows) else old(rows)[job := old(rows)[job].(
        status := outcome, availableAt := now + Max(1, Min(cap, base * Pow2(Max(0, Min(30, attempts - 1))))), lease := None)]
      ensures rows == old(rows)[job := RetryOrFailRow(old(rows)[job], token, now, attempts, maxAttempts, base, cap)]
    {
      outcome := if attempts >= maxAttempts then Failed else Retry;
      var delay := BackoffDelay(attempts, base, cap);
      changed := HeldBy(rows[job], token) && rows[job].lease.value.until > now;
      if changed {
        rows := rows[job := rows[job].(status := outcome, availableAt := now + Max(1, delay), lease := None)];
      } else {
        assert rows == rows[job := rows[job]];
      }
    }
  }
}
