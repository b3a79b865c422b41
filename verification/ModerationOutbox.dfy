/** The moderation outbox table and the database operations on it: expiry, claim, the writes
    fenced by token, and the two enqueue paths. */
module ModerationOutbox {
  import opened Prelude
  import opened Sorting
  import opened JobQueue

  type ItemId = nat

  type Hash = string

  /** The four columns under the unique constraint of the job table; they key the rows. */
  datatype Identity = Identity(item: ItemId, hash: Hash, model: string, revision: string)

  type Rows = map<Identity, Row>

  datatype Judgment = Judgment(item: ItemId, hash: Hash, model: string, requestedModel: Option<string>,
                               revision: string, complete: bool)

  const PROVIDER_RULE_MODELS: set<string> := {"provider-rule:v1", "provider-rule:v2"}

  datatype Settings = Settings(enabled: bool, model: string, revision: string)

  /** What the state builder yields for an item's stored detail right now. */
  datatype Built = Unbuildable | NoDetail | BuiltHash(hash: Hash)

  /** `currentHash` holds the items whose materialised hash is not null. */
  datatype Db = Db(rows: Rows, nextPk: nat, nextToken: Token, judgments: set<Judgment>,
                   currentHash: map<ItemId, Hash>, built: map<ItemId, Built>, complete: set<ItemId>,
                   settings: Settings)

  datatype ClaimError = BadOptions

  function ExpireRow(r: Row, now: Time): Row {
    if Overdue(r, now) then r.(status := OutcomeUnknown, lease := None) else r
  }

  function ExpireAll(rows: Rows, now: Time): Rows {
    map k | k in rows :: ExpireRow(rows[k], now)
  }

  function FinishRow(r: Row, token: Token, status: Status): Row {
    if HeldBy(r, token) then r.(status := status, lease := None) else r
  }

  function RetryRow(r: Row, token: Token, at: Time): Row {
    if HeldBy(r, token) then r.(status := Retry, availableAt := at, lease := None) else r
  }

  /** Whether a claim at this time may take the row. */
  predicate Due(rows: Rows, k: Identity, now: Time, locked: set<Identity>) {
    k in rows && rows[k].status in {Queued, Retry} && rows[k].availableAt <= now && k !in locked
  }

  /** What a claim does, in the columns. It takes the due rows with the smallest (available_at, id), as many as the limit
      allows, and leases the i-th of them under the i-th token with one more attempt. Of the rest, a lease that has run
      out becomes OUTCOME_UNKNOWN, and every other row stays. */
  lemma ClaimTakesTheEarliest(rows: Rows, queue: seq<Identity>, now: Time, locked: set<Identity>, limit: nat, token: Token, until: Time)
    requires IsReadyPrefix(queue, ExpireAll(rows, now), now, locked, limit)
    ensures AllIn(queue, ExpireAll(rows, now))
    ensures |queue| == Min(limit, |set k | k in rows && Due(rows, k, now, locked)|)
    ensures forall i :: 0 <= i < |queue| ==> Due(rows, queue[i], now, locked)
    ensures forall i, k :: 0 <= i < |queue| && Due(rows, k, now, locked) && k !in queue[..i] ==>
      (rows[queue[i]].availableAt < rows[k].availableAt
       || (rows[queue[i]].availableAt == rows[k].availableAt && rows[queue[i]].pk <= rows[k].pk))
    ensures var after := LeaseFirst(ExpireAll(rows, now), queue, |queue|, token, until);
      && (forall i :: 0 <= i < |queue| ==> var r := rows[queue[i]];
            after[queue[i]] == Row(r.pk, Leased, r.attempts + 1, r.availableAt, Some(Lease(token + i, until))))
      && (forall k :: k in rows && k !in queue ==>
            after[k] == if rows[k].status == Leased && rows[k].lease.Some? && rows[k].lease.value.until <= now
                        then rows[k].(status := OutcomeUnknown, lease := None) else rows[k])
  {
    var expired := ExpireAll(rows, now);
    DueAreReady(rows, now, locked);
    ReadyPrefixIsEarliest(queue, expired, now, locked, limit);
    LeaseFirstAt(expired, queue, |queue|, token, until);
    assert queue[..|queue|] == queue;
  }

  lemma DueAreReady(rows: Rows, now: Time, locked: set<Identity>)
    ensures ReadyKeys(ExpireAll(rows, now), now, locked) == set k | k in rows && Due(rows, k, now, locked)
    ensures forall k :: Due(rows, k, now, locked) ==> ExpireAll(rows, now)[k] == rows[k]
  {
  }

  predicate CurrentIn(currentHash: map<ItemId, Hash>, settings: Settings, id: Identity) {
    id.item in currentHash && currentHash[id.item] == id.hash && id.revision == settings.revision
  }

  predicate MatchesModel(j: Judgment, model: string) {
    j.model == model || j.requestedModel == Some(model) || j.model in PROVIDER_RULE_MODELS
  }

  predicate Settles(j: Judgment, id: Identity) {
    j.item == id.item && j.hash == id.hash && j.revision == id.revision && j.complete && MatchesModel(j, id.model)
  }

  predicate HasSuccess(judgments: set<Judgment>, id: Identity) {
    exists j :: j in judgments && Settles(j, id)
  }

  /** A stored judgment that answers for these columns. */
  ghost predicate Success(judgments: set<Judgment>, item: ItemId, hash: Hash, model: string, revision: string) {
    exists j :: && j in judgments && j.complete && j.item == item && j.hash == hash && j.revision == revision
                && (j.model == model || j.requestedModel == Some(model) || j.model == "provider-rule:v1" || j.model == "provider-rule:v2")
  }

  lemma SuccessColumns(judgments: set<Judgment>, id: Identity)
    ensures HasSuccess(judgments, id) <==> Success(judgments, id.item, id.hash, id.model, id.revision)
  {
    if HasSuccess(judgments, id) {
      var j :| j in judgments && Settles(j, id);
      assert j in judgments && j.complete;
    }
    if Success(judgments, id.item, id.hash, id.model, id.revision) {
      var j :| && j in judgments && j.complete && j.item == id.item && j.hash == id.hash && j.revision == id.revision
               && (j.model == id.model || j.requestedModel == Some(id.model) || j.model == "provider-rule:v1" || j.model == "provider-rule:v2");
      assert Settles(j, id);
    }
  }

  predicate Truthy(hash: Option<Hash>) {
    hash.Some? && hash.value != ""
  }

  function SupersedeRow(id: Identity, r: Row, item: ItemId, hash: Option<Hash>): Row {
    if id.item == item && Waiting(r) && !(Truthy(hash) && id.hash == hash.value)
    then r.(status := Superseded, lease := None)
    else r
  }

  function SupersedeStale(rows: Rows, item: ItemId, hash: Option<Hash>): Rows {
    map k | k in rows :: SupersedeRow(k, rows[k], item, hash)
  }

  function SettleRow(r: Row): Row {
    if Waiting(r) then r.(status := Done, lease := None) else r
  }

  function ReviveRow(r: Row, now: Time): Row {
    if r.status == Superseded then r.(status := Queued, availableAt := now, lease := None) else r
  }

  /** Whether an enqueue goes on to create or revive work after superseding stale rows. */
  predicate Admits(db: Db, item: ItemId, hash: Option<Hash>) {
    Truthy(hash) && db.settings.enabled && item in db.complete && db.settings.model != "" && db.settings.revision != ""
  }

  function WantedIdentity(db: Db, item: ItemId, hash: Hash): Identity {
    Identity(item, hash, db.settings.model, db.settings.revision)
  }

  /** enqueue_current_moderation_job, one transaction. */
  function Enqueue(db: Db, item: ItemId, hash: Option<Hash>, now: Time): Db {
    var rows := SupersedeStale(db.rows, item, hash);
    if !Admits(db, item, hash) then db.(rows := rows)
    else
      var id := WantedIdentity(db, item, hash.value);
      if HasSuccess(db.judgments, id) then
        db.(rows := if id in rows then rows[id := SettleRow(rows[id])] else rows)
      else if id in rows then
        db.(rows := rows[id := ReviveRow(rows[id], now)])
      else
        db.(rows := rows[id := NewRow(db.nextPk, now)], nextPk := db.nextPk + 1)
  }

  /** In the columns: the enqueue wants a job for this item, hash, model and revision. */
  predicate Wants(db: Db, item: ItemId, hash: Option<Hash>, k: Identity) {
    && hash.Some? && hash.value != "" && db.settings.enabled && item in db.complete
    && k == Identity(item, hash.value, db.settings.model, db.settings.revision) && k.model != "" && k.revision != ""
  }

  /** Row by row, in the columns: a waiting row of another hash of the item is superseded; the wanted row is done when
      a stored judgment answers for it, and otherwise queued again if it was superseded; nothing else changes. */
  lemma EnqueueRowByRow(db: Db, item: ItemId, hash: Option<Hash>, now: Time, k: Identity)
    requires k in db.rows
    ensures k in Enqueue(db, item, hash, now).rows
    ensures var r, success := db.rows[k], Success(db.judgments, k.item, k.hash, k.model, k.revision);
      Enqueue(db, item, hash, now).rows[k] ==
        if k.item == item && r.status in {Queued, Retry} && (k.hash == "" || hash != Some(k.hash)) then r.(status := Superseded, lease := None)
        else if Wants(db, item, hash, k) && r.status in {Queued, Retry} && success then r.(status := Done, lease := None)
        else if Wants(db, item, hash, k) && r.status == Superseded && !success then r.(status := Queued, availableAt := now, lease := None)
        else r
  {
    SuccessColumns(db.judgments, k);
  }

  /** A row is added exactly for wanted work that has no row and no stored judgment, and it is queued for now. */
  lemma EnqueueAdds(db: Db, item: ItemId, hash: Option<Hash>, now: Time, k: Identity)
    requires k !in db.rows
    ensures k in Enqueue(db, item, hash, now).rows
       <==> Wants(db, item, hash, k) && !Success(db.judgments, k.item, k.hash, k.model, k.revision)
    ensures k in Enqueue(db, item, hash, now).rows ==> Enqueue(db, item, hash, now).rows[k] == Row(db.nextPk, Queued, 0, now, None)
  {
    SuccessColumns(db.judgments, k);
  }

  /** An enqueue leaves at most the current hash of the item waiting, touches no row of another item, no leased row and
      no finished row, and leaves the wanted work waiting, if it was not leased or finished, exactly when no stored
      judgment answers for it. */
  lemma EnqueueCoalesces(db: Db, item: ItemId, hash: Option<Hash>, now: Time)
    ensures var after := Enqueue(db, item, hash, now).rows;
      && (forall k :: k in after && k.item == item && after[k].status in {Queued, Retry} ==> hash == Some(k.hash) && k.hash != "")
      && (forall k :: k in db.rows && (k.item != item || db.rows[k].status in {Leased, Done, Failed, OutcomeUnknown})
            ==> k in after && after[k] == db.rows[k])
      && (forall k :: Wants(db, item, hash, k) && !(k in db.rows && db.rows[k].status in {Leased, Done, Failed, OutcomeUnknown}) ==>
            (k in after && after[k].status in {Queued, Retry} <==> !Success(db.judgments, k.item, k.hash, k.model, k.revision)))
  {
    forall k
      ensures k in db.rows || k in Enqueue(db, item, hash, now).rows ==> RowAfter(db, item, hash, now, k)
    {
      if k in db.rows {
        EnqueueRowByRow(db, item, hash, now, k);
      } else {
        EnqueueAdds(db, item, hash, now, k);
      }
    }
    forall k | Wants(db, item, hash, k) && k !in db.rows
      ensures k in Enqueue(db, item, hash, now).rows <==> !Success(db.judgments, k.item, k.hash, k.model, k.revision)
    {
      EnqueueAdds(db, item, hash, now, k);
    }
  }

  ghost predicate RowAfter(db: Db, item: ItemId, hash: Option<Hash>, now: Time, k: Identity) {
    var after := Enqueue(db, item, hash, now).rows;
    && k in after
    && (k.item == item && after[k].status in {Queued, Retry} ==> hash == Some(k.hash) && k.hash != "")
    && (k in db.rows && (k.item != item || db.rows[k].status in {Leased, Done, Failed, OutcomeUnknown}) ==> after[k] == db.rows[k])
    && (k in db.rows && Wants(db, item, hash, k) && db.rows[k].status in {Queued, Retry, Superseded} ==>
          (after[k].status in {Queued, Retry} <==> !Success(db.judgments, k.item, k.hash, k.model, k.revision)))
    && (k !in db.rows ==> after[k].status == Queued)
  }

  /** What an enqueue can do to one row: nothing, or supersede it, settle it on a stored success, or revive it. */
  lemma EnqueueRowCases(db: Db, item: ItemId, hash: Option<Hash>, now: Time, k: Identity)
    requires k in db.rows
    ensures k in Enqueue(db, item, hash, now).rows
    ensures var r, q := db.rows[k], Enqueue(db, item, hash, now).rows[k];
      || q == r
      || (Waiting(r) && q == r.(status := Superseded, lease := None))
      || (Waiting(r) && q == r.(status := Done, lease := None) && HasSuccess(db.judgments, k))
      || (r.status == Superseded && q == r.(status := Queued, availableAt := now, lease := None))
  {
  }

  /** Reads the materialised hash an item would get from its stored detail. */
  function HashOf(built: map<ItemId, Built>, item: ItemId): Option<Hash> {
    if item in built && built[item].BuiltHash? then Some(built[item].hash) else None
  }

  function SetHash(currentHash: map<ItemId, Hash>, item: ItemId, hash: Option<Hash>): map<ItemId, Hash> {
    if hash.Some? then currentHash[item := hash.value] else currentHash - {item}
  }

  /** upsert_detail_with_moderation_hash: the detail write, the new hash and the enqueue commit together. */
  function WriteDetail(db: Db, item: ItemId, built: Built, complete: bool, now: Time): Db {
    Rehash(db.(built := db.built[item := built],
               complete := if complete then db.complete + {item} else db.complete - {item}), item, now)
  }

  /** persist_current_moderation_source_hash followed by the enqueue, as the reconcile path runs them. */
  function Rehash(db: Db, item: ItemId, now: Time): Db {
    var hash := HashOf(db.built, item);
    Enqueue(db.(currentHash := SetHash(db.currentHash, item, hash)), item, hash, now)
  }

  /** A detail write makes the item's materialised hash what the state builder yields, or clears it, and enqueues for it;
      hashes, details and completeness of other items stay. */
  lemma DetailWriteMeans(db: Db, item: ItemId, built: Built, complete: bool, now: Time)
    ensures var after := WriteDetail(db, item, built, complete, now);
      && after.currentHash == (if built.BuiltHash? then db.currentHash[item := built.hash] else db.currentHash - {item})
      && after.built == db.built[item := built] && (forall x :: x in after.complete <==> if x == item then complete else x in db.complete)
      && after.judgments == db.judgments && after.settings == db.settings && after.nextToken == db.nextToken
      && after.rows == Enqueue(db.(complete := after.complete), item, if built.BuiltHash? then Some(built.hash) else None, now).rows
  {
  }

  /** One item's share of a detail transaction: what the state builder now yields for it, and whether it is complete. */
  datatype DetailChange = DetailChange(item: ItemId, built: Built, complete: bool)

  ghost predicate Shares(before: Db, c: DetailChange, now: Time, after: Db) {
    after == WriteDetail(before, c.item, c.built, c.complete, now)
  }

  /** The states a detail transaction goes through, one share after the other. */
  ghost predicate Transacts(start: Db, changes: seq<DetailChange>, now: Time, states: seq<Db>) {
    && |states| == |changes| + 1 && states[0] == start
    && forall i :: 0 <= i < |changes| ==> Shares(states[i], changes[i], now, states[i + 1])
  }

  /** bulk_create(ignore_conflicts=True) of one identity. */
  function InsertIgnore(db: Db, id: Identity, now: Time): Db {
    if id in db.rows then db else db.(rows := db.rows[id := NewRow(db.nextPk, now)], nextPk := db.nextPk + 1)
  }

  /** A content item as the bulk enqueue receives it: its annotations may be out of date. */
  datatype ItemView = ItemView(item: ItemId, hash: Option<Hash>, hasJudgment: bool)

  class ModerationTable {
    var rows: Rows
    var nextPk: nat
    var nextToken: Token
    var judgments: set<Judgment>
    var currentHash: map<ItemId, Hash>
    var built: map<ItemId, Built>
    var complete: set<ItemId>
    var settings: Settings

    ghost function Contents(): Db
      reads this
    {
      Db(rows, nextPk, nextToken, judgments, currentHash, built, complete, settings)
    }

    constructor (settings: Settings)
      ensures Contents() == Db(map[], 0, 0, {}, map[], map[], {}, settings)
    {
      this.rows, this.nextPk, this.nextToken := map[], 0, 0;
      this.judgments, this.currentHash, this.built := {}, map[], map[];
      this.complete, this.settings := {}, settings;
    }

    method ExpireAmbiguousLeases(now: Time) returns (expired: nat)
      modifies this`rows
      ensures Contents() == old(Contents()).(rows := ExpireAll(old(rows), now))
      ensures expired == |set k | k in old(rows) && Overdue(old(rows)[k], now)|
    {
      expired := |set k | k in rows && Overdue(rows[k], now)|;
      rows := map k | k in rows :: ExpireRow(rows[k], now);
    }

    method ClaimModerationJobs(batchSize: int, leaseSeconds: int, now: Time, locked: set<Identity>)
        returns (claimed: Result<seq<(Identity, Token)>, ClaimError>)
      modifies this`rows, this`nextToken
      ensures batchSize < 1 || leaseSeconds < 1 ==> claimed == Err(BadOptions) && Contents() == old(Contents())
      ensures batchSize >= 1 && leaseSeconds >= 1 ==>
        exists queue ::
          && IsReadyPrefix(queue, ExpireAll(old(rows), now), now, locked, batchSize)
          && claimed == Ok(Claims(queue, old(nextToken)))
          && Contents() == old(Contents()).(
               rows := LeaseFirst(ExpireAll(old(rows), now), queue, |queue|, old(nextToken), now + leaseSeconds),
               nextToken := old(nextToken) + |queue|)
    {
      if batchSize < 1 || leaseSeconds < 1 {
        return Err(BadOptions);
      }
      var queue, claims := ClaimReady(batchSize, now + leaseSeconds, now, locked);
      return Ok(claims);
    }

    /** The claim transaction: settle expired leases, then lease the earliest ready rows. */
    method ClaimReady(limit: nat, until: Time, now: Time, locked: set<Identity>)
        returns (queue: seq<Identity>, claims: seq<(Identity, Token)>)
      modifies this`rows, this`nextToken
      ensures IsReadyPrefix(queue, ExpireAll(old(rows), now), now, locked, limit)
      ensures claims == Claims(queue, old(nextToken))
      ensures rows == LeaseFirst(ExpireAll(old(rows), now), queue, |queue|, old(nextToken), until)
      ensures nextToken == old(nextToken) + |queue|
    {
      var _ := ExpireAmbiguousLeases(now);
      queue := SelectReady(rows, now, locked, limit);
      rows, claims := LeaseQueue(rows, queue, now, nextToken, until);
      nextToken := nextToken + |queue|;
    }

    method Finish(id: Identity, token: Token, status: Status) returns (changed: bool)
      requires id in rows
      modifies this`rows
      ensures changed <==> old(rows)[id].status == Leased && old(rows)[id].lease.Some? && old(rows)[id].lease.value.token == token
      ensures rows == if changed then old(rows)[id := old(rows)[id].(status := status, lease := None)] else old(rows)
      ensures Contents() == old(Contents()).(rows := old(rows)[id := FinishRow(old(rows)[id], token, status)])
    {
      changed := HeldBy(rows[id], token);
      if changed {
        rows := rows[id := rows[id].(status := status, lease := None)];
      } else {
        assert rows == rows[id := rows[id]];
      }
    }

    /** The fenced write of _schedule_retry. */
    method Retry(id: Identity, token: Token, at: Time) returns (changed: bool)
      requires id in rows
      modifies this`rows
      ensures changed <==> old(rows)[id].status == Leased && old(rows)[id].lease.Some? && old(rows)[id].lease.value.token == token
      ensures rows == if changed then old(rows)[id := old(rows)[id].(status := Status.Retry, availableAt := at, lease := None)] else old(rows)
      ensures Contents() == old(Contents()).(rows := old(rows)[id := RetryRow(old(rows)[id], token, at)])
    {
      changed := HeldBy(rows[id], token);
      if changed {
        rows := rows[id := rows[id].(status := Status.Retry, availableAt := at, lease := None)];
      } else {
        assert rows == rows[id := rows[id]];
      }
    }

    method EnqueueCurrentModerationJob(item: ItemId, hash: Option<Hash>, now: Time) returns (job: Option<Identity>)
      modifies this`rows, this`nextPk
      ensures Contents() == Enqueue(old(Contents()), item, hash, now)
      ensures forall k :: job == Some(k) <==> Wants(old(Contents()), item, hash, k) && !Success(old(judgments), k.item, k.hash, k.model, k.revision)
    {
      rows := map k | k in rows :: SupersedeRow(k, rows[k], item, hash);
      if !Truthy(hash) || !settings.enabled {
        return None;
      }
      if item !in complete {
        return None;
      }
      if settings.model == "" || settings.revision == "" {
        return None;
      }
      var id := Identity(item, hash.value, settings.model, settings.revision);
      SuccessColumns(judgments, id);
      if exists j :: j in judgments && Settles(j, id) {
        if id in rows && Waiting(rows[id]) {
          rows := rows[id := rows[id].(status := Done, lease := None)];
        } else if id in rows {
          assert rows == rows[id := rows[id]];
        }
        return None;
      }
      if id !in rows {
        rows := rows[id := NewRow(nextPk, now)];
        nextPk := nextPk + 1;
      } else if rows[id].status == Superseded {
        rows := rows[id := rows[id].(status := Queued, availableAt := now, lease := None)];
      } else {
        assert rows == rows[id := rows[id]];
      }
      return Some(id);
    }

    /** persist_current_moderation_source_hash. */
    method PersistHash(item: ItemId) returns (hash: Option<Hash>)
      modifies this`currentHash
      ensures hash == HashOf(built, item)
      ensures Contents() == old(Contents()).(currentHash := SetHash(old(currentHash), item, hash))
    {
      hash := if item in built && built[item].BuiltHash? then Some(built[item].hash) else None;
      currentHash := if hash.Some? then currentHash[item := hash.value] else currentHash - {item};
    }

    /** The detail of one item, its hash and its enqueue. */
    method WriteShare(c: DetailChange, now: Time)
      modifies this
      ensures Shares(old(Contents()), c, now, Contents())
    {
      built := built[c.item := c.built];
      complete := if c.complete then complete + {c.item} else complete - {c.item};
      var hash := PersistHash(c.item);
      var _ := EnqueueCurrentModerationJob(c.item, hash, now);
    }

    /** upsert_detail_with_moderation_hash, one transaction: the seasons the mapper writes, the item itself, then the
        seasons whose state changed with the parent's name. */
    method UpsertDetail(nested: seq<DetailChange>, item: DetailChange, dependent: seq<DetailChange>, now: Time)
        returns (ghost states: seq<Db>)
      modifies this
      ensures Transacts(old(Contents()), nested + [item] + dependent, now, states)
      ensures Contents() == states[|nested| + 1 + |dependent|]
    {
      states := [Contents()];
      states := WriteShares(nested, now, [], states);
      states := WriteShares([item], now, nested, states);
      states := WriteShares(dependent, now, nested + [item], states);
    }

    method WriteShares(part: seq<DetailChange>, now: Time, ghost done: seq<DetailChange>, ghost before: seq<Db>)
        returns (ghost states: seq<Db>)
      requires |before| > 0 && Transacts(before[0], done, now, before) && Contents() == before[|done|]
      modifies this
      ensures |states| > 0 && states[0] == before[0] && Transacts(states[0], done + part, now, states)
      ensures Contents() == states[|done| + |part|]
    {
      states := before;
      for i := 0 to |part|
        invariant |states| > 0 && states[0] == before[0] && Transacts(states[0], done + part[..i], now, states)
        invariant Contents() == states[|done| + i]
      {
        WriteShare(part[i], now);
        states := states + [Contents()];
        assert done + part[..i + 1] == (done + part[..i]) + [part[i]];
      }
      assert done + part[..|part|] == done + part;
    }

    /** The reads of enqueue_missing_moderation_jobs: the current identities of the given items that have neither a
        row nor, where the annotation claims one, a stored success. */
    method FindMissing(views: seq<ItemView>) returns (missing: seq<Identity>)
      ensures NoDuplicates(missing)
      ensures forall id :: id in missing <==> Unsettled(id, views)
    {
      missing := [];
      if !settings.enabled || settings.model == "" || settings.revision == "" {
        return;
      }
      var hashes := CurrentHashes(views);
      var todo := hashes.Keys;
      while todo != {}
        invariant todo <= hashes.Keys && NoDuplicates(missing)
        invariant forall id :: id in missing <==> id.item !in todo && Unsettled(id, views)
        decreases |todo|
      {
        var x :| x in todo;
        todo := todo - {x};
        var id := Identity(x, hashes[x], settings.model, settings.revision);
        SuccessColumns(judgments, id);
        if id !in rows && !(Annotated(views, x) && exists j :: j in judgments && Settles(j, id)) {
          missing := missing + [id];
        }
      }
    }

    /** Admits what was missing at the reads. `meanwhile` is what other transactions committed between the reads and
        the insert: those rows win, and every row there is stays as it is. The number reported is that of the
        identities found missing. */
    method EnqueueMissingModerationJobs(views: seq<ItemView>, meanwhile: Rows, now: Time) returns (admitted: nat, ghost missing: seq<Identity>)
      modifies this`rows, this`nextPk
      ensures NoDuplicates(missing) && forall id :: id in missing <==> old(Unsettled(id, views))
      ensures admitted == |missing|
      ensures rows == InsertAll(old(rows) + meanwhile, missing, old(nextPk), now)
    {
      var found := FindMissing(views);
      rows := rows + meanwhile;
      rows := InsertRows(rows, found, nextPk, now);
      nextPk := nextPk + |found|;
      return |found|, found;
    }

    /** An identity the bulk enqueue would admit: the model and revision in force, the last hash the items carry, no row,
        and no stored judgment that answers for it where the annotation says there is one. */
    ghost predicate Unsettled(id: Identity, views: seq<ItemView>)
      reads this
    {
      && settings.enabled && id.model == settings.model != "" && id.revision == settings.revision != ""
      && id.hash != "" && ItemHash(views, |views|, id.item) == Some(id.hash) && id !in rows
      && !(Annotated(views, id.item) && Success(judgments, id.item, id.hash, id.model, id.revision))
    }
  }

  predicate Annotated(views: seq<ItemView>, item: ItemId) {
    exists i :: 0 <= i < |views| && views[i].item == item && views[i].hasJudgment
  }

  /** `{item.pk: item.current_moderation_source_hash for item in content_items if ...}`. */
  method CurrentHashes(views: seq<ItemView>) returns (hashes: map<ItemId, Hash>)
    ensures forall x :: x in hashes <==> Truthy(ItemHash(views, |views|, x))
    ensures forall x :: x in hashes ==> Some(hashes[x]) == ItemHash(views, |views|, x)
  {
    hashes := map[];
    for i := 0 to |views|
      invariant forall x :: x in hashes <==> Truthy(ItemHash(views, i, x))
      invariant forall x :: x in hashes ==> Some(hashes[x]) == ItemHash(views, i, x)
    {
      if Truthy(views[i].hash) {
        hashes := hashes[views[i].item := views[i].hash.value];
      }
    }
  }

  /** The number the bulk enqueue reports is the number of rows it added exactly when nobody else admitted one of the
      identities between its reads and its insert. */
  lemma AdmittedEqualsInsertedIff(seen: Rows, missing: seq<Identity>, pk: nat, now: Time)
    requires NoDuplicates(missing)
    ensures |InsertAll(seen, missing, pk, now)| - |seen| == |missing|
       <==> forall i :: 0 <= i < |missing| ==> missing[i] !in seen
  {
    InsertedIff(seen, missing, pk, now);
  }

  lemma Single(s: seq<Identity>, id: Identity)
    requires NoDuplicates(s) && forall k :: k in s <==> k == id
    ensures s == [id]
  {
    assert forall i :: 0 <= i < |s| ==> s[i] in s;
    assert id in s;
    DistinctSize(s);
    assert (set i | 0 <= i < |s| :: s[i]) == {id};
  }

  /** Two bulk enqueues of one fresh item: when the other one inserts between our reads and our insert, we still report
      one job and add none. */
  method OvertakenBulkEnqueue(settings: Settings) returns (reported: nat, before: Rows, after: Rows)
    requires settings.enabled && settings.model != "" && settings.revision != ""
    ensures reported == 1 && |before| == 1 && after == before
  {
    var views := [ItemView(1, Some("h"), false)];
    var table := new ModerationTable(settings);
    var id := Identity(1, "h", settings.model, settings.revision);
    assert ItemHash(views, 1, 1) == Some("h") && forall x: ItemId :: x != 1 ==> ItemHash(views, 1, x) == ItemHash(views, 0, x) == None;
    before := map[id := NewRow(0, 0)];
    assert forall k :: table.Unsettled(k, views) <==> k == id;
    ghost var missing;
    reported, missing := table.EnqueueMissingModerationJobs(views, before, 0);
    Single(missing, id);
    assert map[] + before == before;
    after := table.rows;
    assert after.Keys == before.Keys;
  }

  /** The hash the mapping built from the first `n` views holds for an item; later views win. */
  function ItemHash(views: seq<ItemView>, n: nat, item: ItemId): Option<Hash>
    requires n <= |views|
  {
    if n == 0 then None
    else if views[n - 1].item == item && Truthy(views[n - 1].hash) then views[n - 1].hash
    else ItemHash(views, n - 1, item)
  }

  /** That is the hash of the last view of the item that carries one. */
  lemma {:induction false} ItemHashIsTheLast(views: seq<ItemView>, n: nat, item: ItemId, hash: Hash)
    requires n <= |views| && hash != ""
    ensures ItemHash(views, n, item) == Some(hash) <==>
      exists i :: 0 <= i < n && views[i].item == item && views[i].hash == Some(hash)
        && (forall j :: i < j < n && views[j].item == item ==> views[j].hash == None || views[j].hash == Some(""))
  {
    if n > 0 {
      ItemHashIsTheLast(views, n - 1, item, hash);
      var v := views[n - 1];
      if v.item == item && v.hash.Some? && v.hash.value != "" {
        assert ItemHash(views, n, item) == v.hash;
      } else if ItemHash(views, n, item) == Some(hash) {
        var i :| 0 <= i < n - 1 && views[i].item == item && views[i].hash == Some(hash)
          && (forall j :: i < j < n - 1 && views[j].item == item ==> views[j].hash == None || views[j].hash == Some(""));
        assert views[i].item == item;
      }
    }
  }
}
