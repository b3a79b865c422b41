/** The paged backfill: an ordered pager, per-item accounting, and the run that joins them. */
module Backfill {
  import opened Prelude

  type ItemId = nat

  /** A page fetcher: the items after an id, at most as many as the batch size. */
  type Fetcher = (ItemId, nat) -> seq<ItemId>

  ghost predicate Ascending(s: seq<ItemId>) {
    forall i, j :: 0 <= i < j < |s| ==> s[i] < s[j]
  }

  /** The rows of an ascending table whose key exceeds `last`. */
  function After(table: seq<ItemId>, last: ItemId): (rest: seq<ItemId>)
    ensures |rest| <= |table|
  {
    if table == [] then [] else if table[0] > last then table else After(table[1..], last)
  }

  function Take(n: nat, s: seq<ItemId>): seq<ItemId> {
    s[..Min(n, |s|)]
  }

  /** The fetcher answers from this table: `filter(pk__gt=last).order_by("pk")[:batch]`. */
  ghost predicate Serves(fetch: Fetcher, table: seq<ItemId>, batch: nat) {
    forall last: ItemId :: fetch(last, batch) == Take(batch, After(table, last))
  }

  lemma {:induction false} AfterIsFilter(table: seq<ItemId>, last: ItemId)
    requires Ascending(table)
    ensures Ascending(After(table, last))
    ensures forall x :: x in After(table, last) <==> x in table && x > last
    ensures exists n :: 0 <= n <= |table| && After(table, last) == table[n..]
  {
    if table == [] {
      assert After(table, last) == table[0..];
    } else if table[0] > last {
      assert After(table, last) == table[0..];
    } else {
      AfterIsFilter(table[1..], last);
      var n :| 0 <= n <= |table[1..]| && After(table[1..], last) == table[1..][n..];
      assert table[1..][n..] == table[n + 1..];
      forall x | x in table && x > last
        ensures x in After(table, last)
      {
        assert x in table[1..];
      }
    }
  }

  /** Moving the cursor to the k-th remaining row leaves exactly the rows behind it. */
  lemma {:induction false} AfterAdvances(table: seq<ItemId>, last: ItemId, k: nat)
    requires Ascending(table) && k < |After(table, last)|
    ensures After(table, After(table, last)[k]) == After(table, last)[k + 1..]
    decreases |table|
  {
    if table[0] > last {
      if k == 0 {
        FirstBeyond(table, 1, table[0]);
      } else {
        FirstBeyond(table, k + 1, table[k]);
      }
    } else {
      AfterIsFilter(table[1..], last);
      AfterAdvances(table[1..], last, k);
      assert After(table, last)[k] in After(table[1..], last);
    }
  }

  lemma {:induction false} FirstBeyond(table: seq<ItemId>, n: nat, x: ItemId)
    requires Ascending(table) && 1 <= n <= |table| && table[n - 1] == x
    ensures After(table, x) == table[n..]
    decreases n
  {
    assert table[0] <= x;
    if n == 1 {
      if |table| > 1 {
        assert table[1..][0] > x;
      }
    } else {
      FirstBeyond(table[1..], n - 1, x);
      assert table[1..][n - 1..] == table[n..];
    }
  }

  function LastOf(ids: seq<ItemId>, afterId: ItemId): ItemId {
    if ids == [] then afterId else ids[|ids| - 1]
  }

  datatype PageError = NonAdvancing(last: ItemId, got: ItemId)

  type Pulled = Result<Option<ItemId>, PageError>

  /** Where the generator stands: what is left of the page, whether a further page may follow, and its cursor. */
  datatype Cursor = Cursor(page: seq<ItemId>, more: bool, last: ItemId)

  function Refilled(fetch: Fetcher, batch: nat, c: Cursor): Cursor {
    if c.page != [] || !c.more then c
    else
      var page := fetch(c.last, batch);
      Cursor(page, page != [] && |page| >= batch, c.last)
  }

  /** One pull: the next item of the page, the end, or an id that does not advance. */
  function Pull(fetch: Fetcher, batch: nat, c: Cursor): (Pulled, Cursor) {
    var r := Refilled(fetch, batch, c);
    if r.page == [] then (Ok(None), r)
    else if r.page[0] <= r.last then (Err(NonAdvancing(r.last, r.page[0])), r)
    else (Ok(Some(r.page[0])), Cursor(r.page[1..], r.more, r.page[0]))
  }

  /** The first `n` pulls: the ids yielded, and the error that ended them early. */
  function Yields(fetch: Fetcher, batch: nat, c: Cursor, n: nat): (seq<ItemId>, Option<PageError>)
    decreases n
  {
    if n == 0 then ([], None)
    else
      var (pulled, rest) := Pull(fetch, batch, c);
      match pulled
      case Err(e) => ([], Some(e))
      case Ok(None) => ([], None)
      case Ok(Some(x)) =>
        var (ids, error) := Yields(fetch, batch, rest, n - 1);
        ([x] + ids, error)
  }

  /** Walking a page of this table: what is left of the page starts what is left of the table. */
  ghost predicate Walks(table: seq<ItemId>, c: Cursor) {
    c.page <= After(table, c.last) && (!c.more ==> c.page == After(table, c.last))
  }

  ghost predicate Ordered(fetch: Fetcher, table: seq<ItemId>, batch: nat) {
    Ascending(table) && batch >= 1 && Serves(fetch, table, batch)
  }

  lemma RefilledWalks(fetch: Fetcher, table: seq<ItemId>, batch: nat, c: Cursor)
    requires Ordered(fetch, table, batch) && Walks(table, c)
    ensures Walks(table, Refilled(fetch, batch, c))
    ensures Refilled(fetch, batch, c).page == [] <==> After(table, c.last) == []
  {
  }

  /** On an ordered table a pull yields exactly the next row, and ends exactly when no row is left. */
  lemma PullIsNextRow(fetch: Fetcher, table: seq<ItemId>, batch: nat, c: Cursor)
    requires Ordered(fetch, table, batch) && Walks(table, c)
    ensures var rows, (pulled, rest) := After(table, c.last), Pull(fetch, batch, c);
      && Walks(table, rest)
      && pulled == Ok(if rows == [] then None else Some(rows[0]))
      && (rows != [] ==> After(table, rest.last) == rows[1..])
  {
    RefilledWalks(fetch, table, batch, c);
    var r := Refilled(fetch, batch, c);
    if r.page != [] {
      AfterIsFilter(table, c.last);
      assert r.page[0] == After(table, c.last)[0] && r.page[0] in After(table, c.last);
      AfterAdvances(table, c.last, 0);
    }
  }

  /** On an ordered table `n` pulls yield the next rows of the table, cut to `n`, whatever the batch size. */
  lemma {:induction false} YieldsAreTheNextRows(fetch: Fetcher, table: seq<ItemId>, batch: nat, c: Cursor, n: nat)
    requires Ordered(fetch, table, batch) && Walks(table, c)
    ensures Yields(fetch, batch, c, n) == (Take(n, After(table, c.last)), None)
    decreases n
  {
    PullIsNextRow(fetch, table, batch, c);
    if n > 0 && After(table, c.last) != [] {
      var rows := After(table, c.last);
      YieldsAreTheNextRows(fetch, table, batch, Pull(fetch, batch, c).1, n - 1);
      assert Take(n, rows) == [rows[0]] + Take(n - 1, rows[1..]);
    }
  }

  /** Whatever the fetcher returns, the ids yielded are above the cursor and ascend, there are at most `n`, and an error
      names the last of them and an id that does not exceed it. */
  lemma {:induction false} YieldsAscend(fetch: Fetcher, batch: nat, c: Cursor, n: nat)
    ensures var (ids, error) := Yields(fetch, batch, c, n);
      && |ids| <= n && Ascending(ids) && (ids != [] ==> ids[0] > c.last)
      && (error.Some? ==> error.value.got <= error.value.last == LastOf(ids, c.last))
    decreases n
  {
    if n > 0 {
      var (pulled, rest) := Pull(fetch, batch, c);
      if pulled.Ok? && pulled.value.Some? {
        YieldsAscend(fetch, batch, rest, n - 1);
        var ids := Yields(fetch, batch, rest, n - 1).0;
        assert forall i :: 0 < i <= |ids| ==> ([pulled.value.value] + ids)[i] == ids[i - 1];
      }
    }
  }

  /** The generator `iter_ordered`, with the page it is walking through and its cursor. */
  class Pager {
    const fetch: Fetcher
    const batchSize: nat
    var lastId: ItemId
    var page: seq<ItemId>
    var index: nat
    var more: bool

    ghost predicate Valid()
      reads this
    {
      index <= |page|
    }

    ghost function View(): Cursor
      reads this
      requires Valid()
    {
      Cursor(page[index..], more, lastId)
    }

    constructor (fetch: Fetcher, afterId: ItemId, batchSize: nat)
      ensures this.fetch == fetch && this.batchSize == batchSize
      ensures Valid() && View() == Cursor([], true, afterId)
    {
      this.fetch, this.batchSize, this.lastId := fetch, batchSize, afterId;
      this.page, this.index, this.more := [], 0, true;
    }

    /** Makes the next page current when this one is used up; false when the generator is at its end. */
    method Refill() returns (some: bool)
      requires Valid()
      modifies this
      ensures Valid() && View() == Refilled(fetch, batchSize, old(View()))
      ensures some <==> View().page != []
    {
      if index < |page| {
        return true;
      }
      if !more {
        return false;
      }
      page := fetch(lastId, batchSize);
      index := 0;
      more := page != [] && |page| >= batchSize;
      return page != [];
    }

    /** `next(iterator)`: the item, the end, or the ValueError for an id that does not advance. */
    method Next() returns (pulled: Pulled)
      requires Valid()
      modifies this
      ensures Valid() && (pulled, View()) == Pull(fetch, batchSize, old(View()))
    {
      var some := Refill();
      if !some {
        return Ok(None);
      }
      var item := page[index];
      assert item == View().page[0];
      if item <= lastId {
        return Err(NonAdvancing(lastId, item));
      }
      assert page[index..][1..] == page[index + 1..];
      lastId := item;
      index := index + 1;
      return Ok(Some(item));
    }
  }

  // ---------------------------------------------------------------- accounting

  datatype TokenField = Missing | Tokens(n: int) | NotAnInteger

  datatype Usage = Usage(input: TokenField, output: TokenField)

  datatype Observation = Observation(reused: bool, called: bool, usage: Option<Usage>)

  /** What the classifier adapter does with one item. */
  datatype Reply =
    | Raises
    | Outcome(kind: string, observation: Observation)
    | Classified(classification: string, providerExplicit: bool, observation: Observation)

  datatype Retry = Retry(ids: seq<ItemId>, dropped: nat)

  datatype Metrics = Metrics(lastId: ItemId, scanned: nat, created: nat, reused: nat, providerOverride: nat, skipped: nat,
                             unavailable: nat, error: nat, inputTokens: nat, outputTokens: nat, missingUsage: nat,
                             buckets: map<string, nat>, failed: Retry, unreachable: Retry)

  const CLASSIFICATION_BUCKETS: set<string> := {"safe_for_automatic_discovery", "explicit_or_sensitive", "needs_review", "unknown"}

  function Fresh(afterId: ItemId): Metrics {
    Metrics(afterId, 0, 0, 0, 0, 0, 0, 0, 0, 0, 0, map b | b in CLASSIFICATION_BUCKETS :: 0, Retry([], 0), Retry([], 0))
  }

  function AddId(r: Retry, max: nat, id: ItemId): Retry {
    if |r.ids| < max then r.(ids := r.ids + [id]) else r.(dropped := r.dropped + 1)
  }

  predicate KnownKind(kind: string) {
    kind == "classified" || kind == "skipped" || kind == "unavailable" || kind == "error"
  }

  function CountBucket(buckets: map<string, nat>, name: string): map<string, nat> {
    if name == "" then buckets else buckets[name := (if name in buckets then buckets[name] else 0) + 1]
  }

  /** The counters of one item, before its token usage. */
  function Tally(m: Metrics, max: nat, id: ItemId, kind: string, reused: bool, classification: string, override: bool): Metrics {
    if kind == "classified" then
      m.(providerOverride := m.providerOverride + if override then 1 else 0,
         reused := m.reused + if reused then 1 else 0, created := m.created + if reused then 0 else 1,
         buckets := CountBucket(m.buckets, classification))
    else if kind == "skipped" then m.(skipped := m.skipped + 1)
    else if kind == "unavailable" then m.(unavailable := m.unavailable + 1, unreachable := AddId(m.unreachable, max, id))
    else m.(error := m.error + 1, failed := AddId(m.failed, max, id))
  }

  predicate GoodField(f: TokenField) {
    f.Missing? || (f.Tokens? && f.n >= 0)
  }

  function Amount(f: TokenField): nat {
    if f.Tokens? && f.n >= 0 then f.n else 0
  }

  /** None when a token count is not a non-negative integer. */
  function AddUsage(m: Metrics, o: Observation): Option<Metrics> {
    if !o.called then Some(m)
    else if o.usage.None? then Some(m.(missingUsage := m.missingUsage + 1))
    else
      var u := o.usage.value;
      if !GoodField(u.input) || !GoodField(u.output) then None
      else if u.input.Missing? && u.output.Missing? then Some(m.(missingUsage := m.missingUsage + 1))
      else Some(m.(inputTokens := m.inputTokens + Amount(u.input), outputTokens := m.outputTokens + Amount(u.output)))
  }

  function KindOf(reply: Reply): string {
    match reply
    case Raises => "error"
    case Outcome(kind, _) => kind
    case Classified(_, _, _) => "classified"
  }

  function Seen(reply: Reply): Observation {
    match reply
    case Raises => Observation(false, false, None)
    case Outcome(_, o) => o
    case Classified(_, _, o) => o
  }

  function Label(reply: Reply): string {
    if reply.Classified? then reply.classification else ""
  }

  function Begun(m: Metrics, id: ItemId): Metrics {
    m.(scanned := m.scanned + 1, lastId := id)
  }

  predicate Overridden(reply: Reply) {
    reply.Classified? && reply.providerExplicit
  }

  /** One scanned item; None when the accounting raises and aborts the run. */
  function Process(m: Metrics, max: nat, id: ItemId, reply: Reply): Option<Metrics> {
    if !KnownKind(KindOf(reply)) then None
    else AddUsage(Tally(Begun(m, id), max, id, KindOf(reply), Seen(reply).reused, Label(reply), Overridden(reply)), Seen(reply))
  }

  function ProcessAll(m: Metrics, max: nat, ids: seq<ItemId>, classify: ItemId -> Reply): Option<Metrics> {
    if ids == [] then Some(m)
    else match ProcessAll(m, max, ids[..|ids| - 1], classify)
      case None => None
      case Some(before) => Process(before, max, ids[|ids| - 1], classify(ids[|ids| - 1]))
  }

  class RetryIds {
    const maxIds: nat
    var ids: seq<ItemId>
    var dropped: nat

    ghost function View(): Retry
      reads this
    {
      Retry(ids, dropped)
    }

    constructor (maxIds: nat)
      ensures this.maxIds == maxIds && View() == Retry([], 0)
    {
      this.maxIds, this.ids, this.dropped := maxIds, [], 0;
    }

    method Add(id: ItemId)
      modifies this
      ensures View() == AddId(old(View()), maxIds, id)
    {
      if |ids| < maxIds {
        ids := ids + [id];
      } else {
        dropped := dropped + 1;
      }
    }
  }

  class BackfillMetrics {
    var lastId: ItemId
    var scanned: nat
    var created: nat
    var reused: nat
    var providerOverride: nat
    var skipped: nat
    var unavailable: nat
    var error: nat
    var inputTokens: nat
    var outputTokens: nat
    var missingUsage: nat
    var buckets: map<string, nat>
    const failedIds: RetryIds
    const unavailableIds: RetryIds

    ghost function View(): Metrics
      reads this, failedIds, unavailableIds
    {
      Metrics(lastId, scanned, created, reused, providerOverride, skipped, unavailable, error,
              inputTokens, outputTokens, missingUsage, buckets, failedIds.View(), unavailableIds.View())
    }

    constructor (afterId: ItemId, maxIds: nat)
      ensures View() == Fresh(afterId) && failedIds != unavailableIds
      ensures failedIds.maxIds == maxIds && unavailableIds.maxIds == maxIds
      ensures fresh(failedIds) && fresh(unavailableIds)
    {
      lastId, scanned, created, reused, providerOverride := afterId, 0, 0, 0, 0;
      skipped, unavailable, error := 0, 0, 0;
      inputTokens, outputTokens, missingUsage := 0, 0, 0;
      buckets := map b | b in CLASSIFICATION_BUCKETS :: 0;
      failedIds := new RetryIds(maxIds);
      unavailableIds := new RetryIds(maxIds);
    }

    predicate TwoLists()
    {
      failedIds != unavailableIds && failedIds.maxIds == unavailableIds.maxIds
    }

    method CountOutcome(id: ItemId, kind: string, wasReused: bool, classification: string, override: bool)
      requires TwoLists()
      modifies this, failedIds, unavailableIds
      ensures View() == Tally(old(View()), failedIds.maxIds, id, kind, wasReused, classification, override)
    {
      if kind == "classified" {
        if override {
          providerOverride := providerOverride + 1;
        }
        if wasReused {
          reused := reused + 1;
        } else {
          created := created + 1;
        }
        if classification != "" {
          buckets := buckets[classification := (if classification in buckets then buckets[classification] else 0) + 1];
        }
      } else if kind == "skipped" {
        skipped := skipped + 1;
      } else if kind == "unavailable" {
        unavailable := unavailable + 1;
        unavailableIds.Add(id);
      } else {
        error := error + 1;
        failedIds.Add(id);
      }
    }

    method CountUsage(o: Observation) returns (raised: bool)
      modifies this
      ensures raised <==> AddUsage(old(View()), o).None?
      ensures View() == if raised then old(View()) else AddUsage(old(View()), o).value
    {
      if !o.called {
        return false;
      }
      var input := if o.usage.Some? then o.usage.value.input else Missing;
      var output := if o.usage.Some? then o.usage.value.output else Missing;
      if !GoodField(input) || !GoodField(output) {
        return true;
      }
      if input.Missing? && output.Missing? {
        missingUsage := missingUsage + 1;
      } else {
        inputTokens := inputTokens + Amount(input);
        outputTokens := outputTokens + Amount(output);
      }
      return false;
    }

    /** account_item: the outcome is counted before the usage is checked, so a bad token count raises with the
        item already counted. */
    method AccountItem(id: ItemId, kind: string, o: Observation, classification: string, override: bool) returns (raised: bool)
      requires TwoLists()
      modifies this, failedIds, unavailableIds
      ensures !KnownKind(kind) ==> raised && View() == old(View())
      ensures KnownKind(kind) ==>
        var tallied := Tally(old(View()), failedIds.maxIds, id, kind, o.reused, classification, override);
        && (raised <==> AddUsage(tallied, o).None?)
        && View() == if raised then tallied else AddUsage(tallied, o).value
    {
      if !KnownKind(kind) {
        return true;
      }
      CountOutcome(id, kind, o.reused, classification, override);
      raised := CountUsage(o);
    }

    method Begin(id: ItemId)
      modifies this
      ensures View() == Begun(old(View()), id)
    {
      scanned := scanned + 1;
      lastId := id;
    }

    /** The body of the run loop for one item. */
    method Scan(id: ItemId, reply: Reply) returns (raised: bool)
      requires TwoLists()
      modifies this, failedIds, unavailableIds
      ensures raised <==> Process(old(View()), failedIds.maxIds, id, reply).None?
      ensures !raised ==> View() == Process(old(View()), failedIds.maxIds, id, reply).value
    {
      Begin(id);
      raised := AccountItem(id, KindOf(reply), Seen(reply), Label(reply), Overridden(reply));
    }

    method Snapshot() returns (m: Metrics)
      ensures m == View()
    {
      m := Metrics(lastId, scanned, created, reused, providerOverride, skipped, unavailable, error,
                   inputTokens, outputTokens, missingUsage, buckets,
                   Retry(failedIds.ids, failedIds.dropped), Retry(unavailableIds.ids, unavailableIds.dropped));
    }
  }

  // ---------------------------------------------------------------- one run

  datatype Config = Config(afterId: ItemId, limit: nat, batchSize: nat, delayMs: nat, progressEvery: nat, maxRetryIds: nat)

  /** What a run is to classify: everything after the cursor in ascending order, cut to the limit unless it is 0. */
  function Selected(table: seq<ItemId>, afterId: ItemId, limit: nat): seq<ItemId> {
    if limit == 0 then After(table, afterId) else Take(limit, After(table, afterId))
  }

  /** What a finished run reports: its metrics, and how often it emitted progress and slept. */
  datatype Summary = Summary(metrics: Metrics, progressEvents: nat, sleeps: nat)

  datatype Failure = BadPage(error: PageError) | BadAccounting

  predicate Valid(config: Config) {
    config.batchSize >= 1 && config.progressEvery >= 1
  }

  ghost predicate Paced(attempted: nat, events: nat, since: nat, every: nat) {
    since < every && attempted == events * every + since
  }

  /** One more item; a progress event is emitted when `every` items have passed since the last one. */
  method Pace(events: nat, since: nat, every: nat, ghost attempted: nat) returns (newEvents: nat, newSince: nat)
    requires Paced(attempted, events, since, every)
    ensures Paced(attempted + 1, newEvents, newSince, every)
  {
    newEvents, newSince := events, since + 1;
    if newSince >= every {
      newEvents, newSince := newEvents + 1, 0;
    }
  }

  lemma Far(x: int, d: int)
    requires x != 0 && d >= 0
    ensures x * d >= d || x * d <= -d
  {
    if x > 0 {
      assert (x - 1) * d >= 0;
    } else {
      assert (-x - 1) * d >= 0;
    }
  }

  lemma PacedDivides(attempted: nat, events: nat, since: nat, every: nat)
    requires Paced(attempted, events, since, every)
    ensures attempted / every == events
  {
    var k := attempted / every;
    assert (k - events) * every == since - attempted % every;
    if k != events {
      Far(k - events, every);
    }
  }

  /** How often a run may pull: its limit, or more often than the table has rows. */
  ghost function Budget(table: seq<ItemId>, config: Config): nat {
    if config.limit > 0 then config.limit else |table| + 1
  }

  /** What the generator yields to a run, and the error that ends it early. */
  ghost function Yielded(fetch: Fetcher, table: seq<ItemId>, config: Config): (seq<ItemId>, Option<PageError>) {
    Yields(fetch, config.batchSize, Cursor([], true, config.afterId), Budget(table, config))
  }

  /** The result of a run that was to process `ids` and then met this page error. */
  function Reported(config: Config, ids: seq<ItemId>, error: Option<PageError>, classify: ItemId -> Reply): Result<Summary, Failure>
    requires Valid(config)
  {
    match ProcessAll(Fresh(config.afterId), config.maxRetryIds, ids, classify)
    case None => Err(BadAccounting)
    case Some(m) =>
      if error.Some? then Err(BadPage(error.value))
      else Ok(Summary(m, |ids| / config.progressEvery, if config.delayMs > 0 && |ids| > 0 then |ids| - 1 else 0))
  }

  /** The metrics are those of the items processed so far. */
  ghost predicate Counted(metrics: BackfillMetrics, config: Config, done: seq<ItemId>, classify: ItemId -> Reply)
    reads metrics, metrics.failedIds, metrics.unavailableIds
  {
    && metrics.TwoLists() && metrics.failedIds.maxIds == config.maxRetryIds
    && ProcessAll(Fresh(config.afterId), config.maxRetryIds, done, classify) == Some(metrics.View())
  }

  method Attempt(metrics: BackfillMetrics, config: Config, ghost done: seq<ItemId>, classify: ItemId -> Reply, item: ItemId)
      returns (raised: bool)
    requires Counted(metrics, config, done, classify)
    modifies metrics, metrics.failedIds, metrics.unavailableIds
    ensures !raised ==> Counted(metrics, config, done + [item], classify)
    ensures raised ==> ProcessAll(Fresh(config.afterId), config.maxRetryIds, done + [item], classify) == None
  {
    raised := metrics.Scan(item, classify(item));
    assert (done + [item])[..|done|] == done;
  }

  /** `done` has been pulled and processed, `pending` has been pulled after it, and together with what the generator will
      still yield within the budget they are all it yields. */
  ghost predicate Pulls(pager: Pager, budget: nat, done: seq<ItemId>, pending: Pulled, all: (seq<ItemId>, Option<PageError>))
    reads pager
  {
    && pager.Valid() && |done| <= budget
    && match pending
       case Err(e) => all == (done, Some(e))
       case Ok(None) => all == (done, None)
       case Ok(Some(x)) =>
         && |done| < budget
         && var (ids, error) := Yields(pager.fetch, pager.batchSize, pager.View(), budget - |done| - 1);
            all == (done + [x] + ids, error)
  }

  /** Pulls the item after `done`, unless the budget is spent. */
  method PullNext(pager: Pager, ghost done: seq<ItemId>, ghost budget: nat, spent: bool, ghost all: (seq<ItemId>, Option<PageError>))
      returns (pending: Pulled)
    requires pager.Valid() && |done| <= budget && (spent <==> |done| == budget)
    requires var (ids, error) := Yields(pager.fetch, pager.batchSize, pager.View(), budget - |done|); all == (done + ids, error)
    modifies pager
    ensures Pulls(pager, budget, done, pending, all)
  {
    assert done + [] == done;
    if spent {
      return Ok(None);
    }
    pending := pager.Next();
    if pending.Ok? && pending.value.Some? {
      ghost var ids := Yields(pager.fetch, pager.batchSize, pager.View(), budget - |done| - 1).0;
      assert done + ([pending.value.value] + ids) == done + [pending.value.value] + ids;
    }
  }

  ghost predicate Slept(sleeps: nat, attempted: nat, pending: Pulled, delayMs: nat) {
    sleeps == if delayMs == 0 || attempted == 0 then 0 else if pending.Ok? && pending.value.Some? then attempted else attempted - 1
  }

  /** One round of the loop: process the pending item and pull the next one. */
  method Round(metrics: BackfillMetrics, pager: Pager, config: Config, ghost done: seq<ItemId>, attempted: nat, item: ItemId,
               classify: ItemId -> Reply, ghost budget: nat, ghost all: (seq<ItemId>, Option<PageError>))
      returns (raised: bool, pending: Pulled)
    requires Valid(config) && attempted == |done| && Counted(metrics, config, done, classify)
    requires Pulls(pager, budget, done, Ok(Some(item)), all)
    requires if config.limit > 0 then budget == config.limit else |all.0| < budget
    modifies pager, metrics, metrics.failedIds, metrics.unavailableIds
    ensures done + [item] <= all.0
    ensures raised ==> Reported(config, all.0, all.1, classify) == Err(BadAccounting)
    ensures !raised ==> Counted(metrics, config, done + [item], classify) && Pulls(pager, budget, done + [item], pending, all)
  {
    ghost var more := done + [item];
    raised := Attempt(metrics, config, done, classify, item);
    assert all.0[..|more|] == more;
    if raised {
      RaisingStops(Fresh(config.afterId), config.maxRetryIds, all.0, |more|, classify);
      return true, Ok(None);
    }
    pending := PullNext(pager, more, budget, config.limit != 0 && attempted + 1 >= config.limit, all);
  }

  lemma FinishedReport(config: Config, done: seq<ItemId>, classify: ItemId -> Reply, m: Metrics, events: nat, since: nat, sleeps: nat)
    requires Valid(config) && ProcessAll(Fresh(config.afterId), config.maxRetryIds, done, classify) == Some(m)
    requires Paced(|done|, events, since, config.progressEvery) && Slept(sleeps, |done|, Ok(None), config.delayMs)
    ensures Reported(config, done, None, classify) == Ok(Summary(m, events, sleeps))
  {
    PacedDivides(|done|, events, since, config.progressEvery);
  }

  /** Fresh counters, a fresh pager and its first item. */
  method Begin(fetch: Fetcher, ghost classify: ItemId -> Reply, config: Config, ghost budget: nat,
               ghost all: (seq<ItemId>, Option<PageError>))
      returns (metrics: BackfillMetrics, pager: Pager, pending: Pulled)
    requires budget > 0 && all == Yields(fetch, config.batchSize, Cursor([], true, config.afterId), budget)
    ensures Pulls(pager, budget, [], pending, all) && Counted(metrics, config, [], classify)
    ensures fresh(pager) && fresh(metrics) && fresh(metrics.failedIds) && fresh(metrics.unavailableIds)
  {
    metrics := new BackfillMetrics(config.afterId, config.maxRetryIds);
    pager := new Pager(fetch, config.afterId, config.batchSize);
    assert [] + all.0 == all.0;
    pending := PullNext(pager, [], budget, false, all);
  }

  /** What the generator yields on an ordered table is the selection, and nothing goes wrong. */
  lemma YieldedIsSelected(fetch: Fetcher, table: seq<ItemId>, config: Config)
    requires Ordered(fetch, table, config.batchSize)
    ensures Yielded(fetch, table, config) == (Selected(table, config.afterId, config.limit), None)
    ensures |Selected(table, config.afterId, config.limit)| <= |table|
  {
    var rows := After(table, config.afterId);
    YieldsAreTheNextRows(fetch, table, config.batchSize, Cursor([], true, config.afterId), Budget(table, config));
    assert rows[..|rows|] == rows;
  }

  /** Whatever the fetcher returns, a run processes what the generator yields within its limit, in that order, and
      reports that; a page error is the generator's own. On an ordered table that is exactly the selection. The run
      pauses between items and never after the last, and reports progress after every `progressEvery` items. */
  method RunBackfill(fetch: Fetcher, classify: ItemId -> Reply, config: Config, ghost table: seq<ItemId>)
      returns (result: Result<Summary, Failure>, ghost done: seq<ItemId>)
    requires Valid(config) && (config.limit > 0 || Ordered(fetch, table, config.batchSize))
    ensures var (ids, error) := Yielded(fetch, table, config);
      && result == Reported(config, ids, error, classify)
      && done <= ids && (result != Err(BadAccounting) ==> done == ids)
    ensures Ordered(fetch, table, config.batchSize) ==>
      result == Reported(config, Selected(table, config.afterId, config.limit), None, classify)
    ensures Ordered(fetch, table, config.batchSize) && result.Ok? ==> done == Selected(table, config.afterId, config.limit)
    ensures result.Ok? ==>
      && result.value.progressEvents == |done| / config.progressEvery
      && result.value.sleeps == (if config.delayMs > 0 && |done| > 1 then |done| - 1 else 0)
  {
    if Ordered(fetch, table, config.batchSize) {
      YieldedIsSelected(fetch, table, config);
    }
    ghost var budget, all := Budget(table, config), Yielded(fetch, table, config);
    done := [];
    var metrics, pager, pending := Begin(fetch, classify, config, budget, all);
    var attempted, sinceProgress, progressEvents, sleeps := 0, 0, 0, 0;
    while pending.Ok? && pending.value.Some? && (config.limit == 0 || attempted < config.limit)
      invariant Pulls(pager, budget, done, pending, all) && fresh(pager) && attempted == |done|
      invariant Counted(metrics, config, done, classify)
      invariant fresh(metrics) && fresh(metrics.failedIds) && fresh(metrics.unavailableIds)
      invariant Paced(attempted, progressEvents, sinceProgress, config.progressEvery)
      invariant Slept(sleeps, attempted, pending, config.delayMs)
      decreases budget - attempted
    {
      var item := pending.value.value;
      var raised;
      raised, pending := Round(metrics, pager, config, done, attempted, item, classify, budget, all);
      done := done + [item];
      if raised {
        return Err(BadAccounting), done;
      }
      progressEvents, sinceProgress := Pace(progressEvents, sinceProgress, config.progressEvery, attempted);
      attempted := attempted + 1;
      if pending.Ok? && pending.value.Some? && config.delayMs > 0 {
        sleeps := sleeps + 1;
      }
    }
    if pending.Err? {
      return Err(BadPage(pending.error)), done;
    }
    var m := metrics.Snapshot();
    FinishedReport(config, done, classify, m, progressEvents, sinceProgress, sleeps);
    return Ok(Summary(m, progressEvents, sleeps)), done;
  }

  lemma {:induction false} RaisingStops(m: Metrics, max: nat, ids: seq<ItemId>, n: nat, classify: ItemId -> Reply)
    requires n <= |ids| && ProcessAll(m, max, ids[..n], classify) == None
    ensures ProcessAll(m, max, ids, classify) == None
    decreases |ids|
  {
    if n == |ids| {
      assert ids[..n] == ids;
    } else {
      assert ids[..|ids| - 1][..n] == ids[..n];
      RaisingStops(m, max, ids[..|ids| - 1], n, classify);
    }
  }

  // ---------------------------------------------------------------- what a run guarantees

  /** A run classifies exactly the rows with a key above the cursor, ascending and without repetition. */
  lemma RunSelectsTheFilter(table: seq<ItemId>, afterId: ItemId, limit: nat)
    requires Ascending(table)
    ensures Ascending(Selected(table, afterId, limit))
    ensures forall x :: x in Selected(table, afterId, 0) <==> x in table && x > afterId
    ensures Selected(table, afterId, limit) <= Selected(table, afterId, 0)
    ensures limit > 0 ==> |Selected(table, afterId, limit)| == Min(limit, |Selected(table, afterId, 0)|)
  {
    AfterIsFilter(table, afterId);
  }

  /** A limited run followed by a resume from its last id classifies what one longer run would have. */
  lemma ResumeEqualsOneRun(table: seq<ItemId>, afterId: ItemId, limit: nat, again: nat)
    requires Ascending(table) && limit > 0
    ensures var first := Selected(table, afterId, limit);
      first + Selected(table, LastOf(first, afterId), again)
      == Selected(table, afterId, if again == 0 then 0 else limit + again)
  {
    var first := Selected(table, afterId, limit);
    var all := After(table, afterId);
    if first != [] {
      var k := |first|;
      AfterAdvances(table, afterId, k - 1);
      assert After(table, LastOf(first, afterId)) == all[k..];
      assert all[..k] + all[k..] == all;
      assert forall m :: 0 <= m <= |all| - k ==> all[..k] + all[k..][..m] == all[..k + m];
    } else {
      assert all == [];
    }
  }

  predicate IsError(r: Reply) {
    r.Raises? || (r.Outcome? && r.kind == "error")
  }

  predicate IsUnavailable(r: Reply) {
    r.Outcome? && r.kind == "unavailable"
  }

  /** The ids whose reply is like that, in order. */
  function IdsOf(ids: seq<ItemId>, classify: ItemId -> Reply, f: Reply -> bool): seq<ItemId> {
    if ids == [] then []
    else
      var n := |ids| - 1;
      IdsOf(ids[..n], classify, f) + if f(classify(ids[n])) then [ids[n]] else []
  }

  ghost predicate Kept(r: Retry, max: nat, ids: seq<ItemId>) {
    r.ids == Take(max, ids) && |r.ids| + r.dropped == |ids|
  }

  lemma AddKept(r: Retry, max: nat, ids: seq<ItemId>, id: ItemId)
    requires Kept(r, max, ids)
    ensures Kept(AddId(r, max, id), max, ids + [id])
  {
  }

  /** A completed run has counted every scanned item once, its last id is the last one scanned, and the retry lists
      hold the first failures in order and the number of those that no longer fitted. */
  lemma {:induction false} CountersAreConserved(afterId: ItemId, max: nat, ids: seq<ItemId>, classify: ItemId -> Reply)
    requires ProcessAll(Fresh(afterId), max, ids, classify).Some?
    ensures var m := ProcessAll(Fresh(afterId), max, ids, classify).value;
      && m.scanned == |ids| && m.lastId == LastOf(ids, afterId)
      && m.scanned == m.created + m.reused + m.skipped + m.unavailable + m.error
      && m.error == |IdsOf(ids, classify, IsError)| && Kept(m.failed, max, IdsOf(ids, classify, IsError))
      && m.unavailable == |IdsOf(ids, classify, IsUnavailable)|
      && Kept(m.unreachable, max, IdsOf(ids, classify, IsUnavailable))
  {
    if ids == [] {
    } else {
      var n := |ids| - 1;
      CountersAreConserved(afterId, max, ids[..n], classify);
      var before := ProcessAll(Fresh(afterId), max, ids[..n], classify).value;
      AddKept(before.failed, max, IdsOf(ids[..n], classify, IsError), ids[n]);
      AddKept(before.unreachable, max, IdsOf(ids[..n], classify, IsUnavailable), ids[n]);
      ProcessCounts(before, max, ids[n], classify(ids[n]));
    }
  }

  lemma ProcessCounts(m: Metrics, max: nat, id: ItemId, reply: Reply)
    requires Process(m, max, id, reply).Some?
    ensures var r := Process(m, max, id, reply).value;
      && r.scanned == m.scanned + 1 && r.lastId == id
      && r.created + r.reused + r.skipped + r.unavailable + r.error == m.created + m.reused + m.skipped + m.unavailable + m.error + 1
      && r.unavailable == m.unavailable + (if IsUnavailable(reply) then 1 else 0)
      && r.error == m.error + (if IsError(reply) then 1 else 0)
      && r.failed == (if IsError(reply) then AddId(m.failed, max, id) else m.failed)
      && r.unreachable == (if IsUnavailable(reply) then AddId(m.unreachable, max, id) else m.unreachable)
  {
  }

  // ---------------------------------------------------------------- what each counter counts

  function One(b: bool): nat {
    if b then 1 else 0
  }

  function Total(ids: seq<ItemId>, classify: ItemId -> Reply, f: Reply -> nat): nat {
    if ids == [] then 0 else Total(ids[..|ids| - 1], classify, f) + f(classify(ids[|ids| - 1]))
  }

  predicate IsClassified(r: Reply) {
    r.Classified? || (r.Outcome? && r.kind == "classified")
  }

  function CountsCreated(r: Reply): nat {
    One(IsClassified(r) && !r.observation.reused)
  }

  function CountsReused(r: Reply): nat {
    One(IsClassified(r) && r.observation.reused)
  }

  function CountsOverride(r: Reply): nat {
    One(r.Classified? && r.providerExplicit)
  }

  /** A completed remote call without any token count. */
  function CountsMissing(r: Reply): nat {
    One(!r.Raises? && r.observation.called
        && (r.observation.usage == None || r.observation.usage == Some(Usage(Missing, Missing))))
  }

  function InputOf(r: Reply): nat {
    if r.Raises? || !r.observation.called || r.observation.usage.None? then 0
    else var field := r.observation.usage.value.input; if field.Tokens? && field.n >= 0 then field.n else 0
  }

  function OutputOf(r: Reply): nat {
    if r.Raises? || !r.observation.called || r.observation.usage.None? then 0
    else var field := r.observation.usage.value.output; if field.Tokens? && field.n >= 0 then field.n else 0
  }

  function CountsIn(bucket: string): Reply -> nat {
    (r: Reply) => One(r.Classified? && r.classification == bucket)
  }

  /** The accounting of this reply raises: an unknown kind, or a called one with a count that is no natural number. */
  predicate Unaccountable(r: Reply) {
    || (r.Outcome? && r.kind !in {"classified", "skipped", "unavailable", "error"})
    || (!r.Raises? && r.observation.called && r.observation.usage.Some?
        && var u := r.observation.usage.value;
           u.input == NotAnInteger || (u.input.Tokens? && u.input.n < 0) || u.output == NotAnInteger || (u.output.Tokens? && u.output.n < 0))
  }

  lemma ProcessRaisesIff(m: Metrics, max: nat, id: ItemId, r: Reply)
    ensures Process(m, max, id, r) == None <==> Unaccountable(r)
  {
  }

  lemma ProcessAddsOutcome(m: Metrics, max: nat, id: ItemId, r: Reply)
    requires Process(m, max, id, r).Some?
    ensures var p := Process(m, max, id, r).value;
      && p.created == m.created + CountsCreated(r) && p.reused == m.reused + CountsReused(r)
      && p.providerOverride == m.providerOverride + CountsOverride(r)
  {
  }

  lemma ProcessAddsUsage(m: Metrics, max: nat, id: ItemId, r: Reply)
    requires Process(m, max, id, r).Some?
    ensures var p := Process(m, max, id, r).value;
      && p.missingUsage == m.missingUsage + CountsMissing(r)
      && p.inputTokens == m.inputTokens + InputOf(r) && p.outputTokens == m.outputTokens + OutputOf(r)
  {
  }

  function InBucket(m: Metrics, bucket: string): nat {
    if bucket in m.buckets then m.buckets[bucket] else 0
  }

  lemma ProcessAddsBucket(m: Metrics, max: nat, id: ItemId, r: Reply, bucket: string)
    requires Process(m, max, id, r).Some? && bucket != ""
    ensures InBucket(Process(m, max, id, r).value, bucket) == InBucket(m, bucket) + CountsIn(bucket)(r)
    ensures m.buckets.Keys <= Process(m, max, id, r).value.buckets.Keys
  {
  }

  /** Every counter of a completed run is the total, over the scanned items, of what it is named for. */
  lemma {:induction false} CountersMean(afterId: ItemId, max: nat, ids: seq<ItemId>, classify: ItemId -> Reply, bucket: string)
    requires ProcessAll(Fresh(afterId), max, ids, classify).Some? && bucket != ""
    ensures var m := ProcessAll(Fresh(afterId), max, ids, classify).value;
      && m.created == Total(ids, classify, CountsCreated) && m.reused == Total(ids, classify, CountsReused)
      && m.providerOverride == Total(ids, classify, CountsOverride) && m.missingUsage == Total(ids, classify, CountsMissing)
      && m.inputTokens == Total(ids, classify, InputOf) && m.outputTokens == Total(ids, classify, OutputOf)
      && InBucket(m, bucket) == Total(ids, classify, CountsIn(bucket))
      && {"safe_for_automatic_discovery", "explicit_or_sensitive", "needs_review", "unknown"} <= m.buckets.Keys
  {
    if ids != [] {
      var n := |ids| - 1;
      CountersMean(afterId, max, ids[..n], classify, bucket);
      var before := ProcessAll(Fresh(afterId), max, ids[..n], classify).value;
      ProcessAddsOutcome(before, max, ids[n], classify(ids[n]));
      ProcessAddsUsage(before, max, ids[n], classify(ids[n]));
      ProcessAddsBucket(before, max, ids[n], classify(ids[n]), bucket);
    }
  }

  /** A run's accounting raises exactly when it meets an item whose accounting does. */
  lemma {:induction false} RunRaisesIff(m: Metrics, max: nat, ids: seq<ItemId>, classify: ItemId -> Reply)
    ensures ProcessAll(m, max, ids, classify) == None <==> exists i :: 0 <= i < |ids| && Unaccountable(classify(ids[i]))
  {
    if ids != [] {
      var n := |ids| - 1;
      RunRaisesIff(m, max, ids[..n], classify);
      if ProcessAll(m, max, ids[..n], classify).Some? {
        ProcessRaisesIff(ProcessAll(m, max, ids[..n], classify).value, max, ids[n], classify(ids[n]));
      }
      assert forall i :: 0 <= i < n ==> ids[..n][i] == ids[i];
    }
  }

  /** The counters that a limited run and its resume report add up to those of the single run. */
  ghost predicate Adds(a: Metrics, b: Metrics, whole: Metrics) {
    && whole.scanned == a.scanned + b.scanned && whole.created == a.created + b.created && whole.reused == a.reused + b.reused
    && whole.providerOverride == a.providerOverride + b.providerOverride && whole.skipped == a.skipped + b.skipped
    && whole.unavailable == a.unavailable + b.unavailable && whole.error == a.error + b.error
    && whole.inputTokens == a.inputTokens + b.inputTokens && whole.outputTokens == a.outputTokens + b.outputTokens
    && whole.missingUsage == a.missingUsage + b.missingUsage
  }

  lemma OneMore(start: Metrics, max: nat, ids: seq<ItemId>, classify: ItemId -> Reply, before: Metrics)
    requires ids != [] && ProcessAll(start, max, ids[..|ids| - 1], classify) == Some(before)
    ensures ProcessAll(start, max, ids, classify) == Process(before, max, ids[|ids| - 1], classify(ids[|ids| - 1]))
  {
  }

  lemma AddsNothing(a: Metrics, id: ItemId)
    ensures Adds(a, Fresh(id), a)
  {
  }

  lemma SplitStep(max: nat, afterId: ItemId, first: seq<ItemId>, second: seq<ItemId>, classify: ItemId -> Reply,
                  a: Metrics, b: Metrics, whole: Metrics)
    requires second != [] && Adds(a, b, whole)
    requires ProcessAll(Fresh(LastOf(first, afterId)), max, second[..|second| - 1], classify) == Some(b)
    requires ProcessAll(Fresh(afterId), max, first + second[..|second| - 1], classify) == Some(whole)
    requires ProcessAll(Fresh(LastOf(first, afterId)), max, second, classify).Some?
    ensures ProcessAll(Fresh(afterId), max, first + second, classify).Some?
    ensures Adds(a, ProcessAll(Fresh(LastOf(first, afterId)), max, second, classify).value,
                 ProcessAll(Fresh(afterId), max, first + second, classify).value)
  {
    var n := |second| - 1;
    var all := first + second;
    assert all[..|all| - 1] == first + second[..n] && all[|all| - 1] == second[n];
    OneMore(Fresh(LastOf(first, afterId)), max, second, classify, b);
    OneMore(Fresh(afterId), max, all, classify, whole);
    StepAdds(a, b, whole, max, second[n], classify(second[n]));
  }

  /** The counters of a run and of its resume add up to those of one run over both. */
  lemma {:induction false} SplitRunsAdd(max: nat, afterId: ItemId, first: seq<ItemId>, second: seq<ItemId>, classify: ItemId -> Reply)
    requires ProcessAll(Fresh(afterId), max, first, classify).Some?
    requires ProcessAll(Fresh(LastOf(first, afterId)), max, second, classify).Some?
    ensures ProcessAll(Fresh(afterId), max, first + second, classify).Some?
    ensures Adds(ProcessAll(Fresh(afterId), max, first, classify).value,
                 ProcessAll(Fresh(LastOf(first, afterId)), max, second, classify).value,
                 ProcessAll(Fresh(afterId), max, first + second, classify).value)
    decreases |second|
  {
    var a := ProcessAll(Fresh(afterId), max, first, classify).value;
    if second == [] {
      assert first + second == first;
      AddsNothing(a, LastOf(first, afterId));
    } else {
      var n := |second| - 1;
      SplitRunsAdd(max, afterId, first, second[..n], classify);
      SplitStep(max, afterId, first, second, classify, a, ProcessAll(Fresh(LastOf(first, afterId)), max, second[..n], classify).value,
                ProcessAll(Fresh(afterId), max, first + second[..n], classify).value);
    }
  }

  lemma TallyAdds(a: Metrics, b: Metrics, whole: Metrics, max: nat, id: ItemId, kind: string, reused: bool, bucket: string, override: bool)
    requires Adds(a, b, whole)
    ensures Adds(a, Tally(b, max, id, kind, reused, bucket, override), Tally(whole, max, id, kind, reused, bucket, override))
  {
  }

  lemma UsageAdds(a: Metrics, b: Metrics, whole: Metrics, o: Observation)
    requires Adds(a, b, whole)
    ensures AddUsage(b, o).None? <==> AddUsage(whole, o).None?
    ensures AddUsage(b, o).Some? ==> Adds(a, AddUsage(b, o).value, AddUsage(whole, o).value)
  {
  }

  lemma StepAdds(a: Metrics, b: Metrics, whole: Metrics, max: nat, id: ItemId, reply: Reply)
    requires Adds(a, b, whole) && Process(b, max, id, reply).Some?
    ensures Process(whole, max, id, reply).Some?
    ensures Adds(a, Process(b, max, id, reply).value, Process(whole, max, id, reply).value)
  {
    var b', whole' := Begun(b, id), Begun(whole, id);
    assert Adds(a, b', whole');
    var kind, reused, bucket := KindOf(reply), Seen(reply).reused, Label(reply);
    var override := Overridden(reply);
    TallyAdds(a, b', whole', max, id, kind, reused, bucket, override);
    UsageAdds(a, Tally(b', max, id, kind, reused, bucket, override), Tally(whole', max, id, kind, reused, bucket, override), Seen(reply));
  }
}
