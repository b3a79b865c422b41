/** The proxy's upstream client: bounded retries with backoff, on int64 durations. */
module HttpClient {
  import opened Prelude

  const HALF := 0x4000_0000_0000_0000

  /** A Go int64, and so a `time.Duration` in nanoseconds. */
  type Int64 = x: int | -2 * 0x4000_0000_0000_0000 <= x < 2 * 0x4000_0000_0000_0000

  const SECOND := 1_000_000_000

  function Wrap64(x: int): Int64 {
    (x + 2 * HALF) % (4 * HALF) - 2 * HALF
  }

  lemma WrapFits(x: Int64)
    ensures Wrap64(x) == x
  {
  }

  // ---------------------------------------------------------------- Retry-After

  /** A Retry-After value: an integer that fits an int64, a date (as the time left until it), or anything else. */
  datatype Header = Absent | Seconds(n: Int64) | Date(left: Int64) | Garbled

  function Capped(d: Int64, maxBackoff: Int64): Int64 {
    if maxBackoff > 0 && d > maxBackoff then maxBackoff else d
  }

  function ParseRetryAfter(h: Header, maxBackoff: Int64): Int64 {
    match h
    case Absent => 0
    case Seconds(n) => if n >= 0 then Capped(Wrap64(n * SECOND), maxBackoff) else 0
    case Date(left) => if left <= 0 then 0 else Capped(left, maxBackoff)
    case Garbled => 0
  }

  /** Whatever the header, a positive cap is never exceeded. */
  lemma RetryAfterIsCapped(h: Header, maxBackoff: Int64)
    requires maxBackoff > 0
    ensures ParseRetryAfter(h, maxBackoff) <= maxBackoff
  {
  }

  /** A hint in seconds is honoured up to the cap unless the product overflows to something below it. */
  lemma SecondsAreHonouredIff(n: Int64, maxBackoff: Int64)
    requires n >= 0 && maxBackoff > 0
    ensures ParseRetryAfter(Seconds(n), maxBackoff) == Min(n * SECOND, maxBackoff)
       <==> n <= 9_223_372_036 || Wrap64(n * SECOND) >= maxBackoff
  {
    if n <= 9_223_372_036 {
      WrapFits(n * SECOND);
    } else {
      assert n * SECOND > maxBackoff;
    }
  }

  /** The smallest hint that overflows: 292 years and a second turn negative instead of meaning the cap. */
  lemma OverflowingHintIsDropped()
    ensures ParseRetryAfter(Seconds(9_223_372_037), 2 * SECOND) < 0
    ensures ParseRetryAfter(Seconds(9_223_372_036), 2 * SECOND) == 2 * SECOND
  {
    assert 9_223_372_037 * SECOND == 9_223_372_037_000_000_000;
    assert (9_223_372_037_000_000_000 + 2 * HALF) % (4 * HALF) == 9_223_372_037_000_000_000 - 2 * HALF;
    WrapFits(9_223_372_036 * SECOND);
  }

  // ---------------------------------------------------------------- one request

  /** The sentinel errors that `errors.Is` can find in what a request returns. */
  datatype Class = Timeout | Connection | ServerError | RateLimit | UpstreamExhausted | NotJson | CircuitOpen

  datatype Outcome = Response(status: int) | Failure(classes: set<Class>)

  /** What comes of one attempt: no request could be built, the transport failed, the body could not be read, or
      the upstream answered. */
  datatype Reply =
    | Unbuildable
    | Failed(contextDone: bool)
    | Unreadable
    | Answered(status: int, retryAfter: Header, validJson: bool)

  /** Everything outside the client, attempt by attempt: the reply, the random draw, whether the context ends while
      the client waits, and how many bytes of the body the transport reads. */
  datatype World = World(reply: nat -> Reply, dice: nat -> nat, interrupts: nat -> bool, taken: nat -> nat)

  datatype RetryConfig = RetryConfig(maxRetries: int, initialBackoff: Int64, maxBackoff: Int64)

  predicate RetryableStatus(status: int) {
    status == 429 || 500 <= status < 600
  }

  /** What the reply alone decides; None means another attempt. */
  function Verdict(r: Reply): Option<Outcome> {
    match r
    case Unbuildable => Some(Failure({}))
    case Failed(contextDone) => if contextDone then Some(Failure({Timeout})) else None
    case Unreadable => None
    case Answered(status, _, validJson) =>
      if RetryableStatus(status) then None
      else if validJson then Some(Response(status))
      else Some(Failure({NotJson}))
  }

  /** The class of a retryable reply. */
  function ClassOf(r: Reply): Class {
    if r.Answered? then if r.status == 429 then RateLimit else ServerError else Connection
  }

  /** The upstream's hint after a retryable reply. */
  function Hint(r: Reply, maxBackoff: Int64): Int64 {
    if r.Answered? && RetryableStatus(r.status) then ParseRetryAfter(r.retryAfter, maxBackoff) else 0
  }

  /** The bound of the random wait before attempt `i`. */
  function Backoff(config: RetryConfig, i: nat): Int64 {
    if i <= 1 then config.initialBackoff
    else Doubled(Backoff(config, i - 1), config.maxBackoff)
  }

  function Doubled(bound: Int64, maxBackoff: Int64): Int64 {
    if bound > 0 then Min(Wrap64(bound * 2), maxBackoff) else bound
  }

  function Draw(dice: nat, bound: Int64): (d: Int64)
    requires bound > 0
    ensures 0 <= d < bound
    ensures dice < bound ==> d == dice
  {
    if dice < bound then dice else dice % bound
  }

  /** The wait before attempt `i`: the previous reply's hint, or else a draw below the backoff. */
  function Wait(config: RetryConfig, w: World, i: nat): Int64
    requires i >= 1
  {
    var hint := Hint(w.reply(i - 1), config.maxBackoff);
    if hint <= 0 && Backoff(config, i) > 0 then Draw(w.dice(i), Backoff(config, i)) else hint
  }

  predicate Interrupted(config: RetryConfig, w: World, i: nat) {
    i >= 1 && Wait(config, w, i) > 0 && w.interrupts(i)
  }

  /** Attempt `i` ends the request. */
  predicate Ends(config: RetryConfig, w: World, i: nat) {
    Interrupted(config, w, i) || Verdict(w.reply(i)).Some?
  }

  function EndingOf(config: RetryConfig, w: World, i: nat): Outcome
    requires Ends(config, w, i)
  {
    if Interrupted(config, w, i) then Failure({Timeout}) else Verdict(w.reply(i)).value
  }

  function Total(waits: seq<Int64>): int {
    if waits == [] then 0 else Total(waits[..|waits| - 1]) + Max(0, waits[|waits| - 1])
  }

  /** The final switch of the request, with the class of the last attempt and the error it left. */
  function Surrender(last: Option<Class>, err: Option<set<Class>>, urlTimeout: bool): Outcome {
    match (last, err)
    case (Some(c), Some(inner)) => Failure({UpstreamExhausted, c} + inner)
    case (Some(c), None) => Failure({UpstreamExhausted, c})
    case (None, Some(inner)) => Failure((if urlTimeout then {Timeout} else {UpstreamExhausted, Connection}) + inner)
    case (None, None) => Failure({UpstreamExhausted, Connection})
  }

  /** The first `n` planned waits. */
  ghost predicate Planned(config: RetryConfig, w: World, waits: seq<Int64>) {
    forall i :: 0 <= i < |waits| ==> waits[i] == Wait(config, w, i + 1)
  }

  lemma {:induction false} BackoffIsCapped(config: RetryConfig, i: nat)
    requires config.maxBackoff > 0
    ensures Backoff(config, i) <= Max(config.initialBackoff, config.maxBackoff)
  {
    if i > 1 {
      BackoffIsCapped(config, i - 1);
    }
  }

  lemma WaitIsCapped(config: RetryConfig, w: World, i: nat)
    requires config.maxBackoff > 0 && i >= 1
    ensures Wait(config, w, i) <= Max(config.initialBackoff, config.maxBackoff)
  {
    BackoffIsCapped(config, i);
    var r := w.reply(i - 1);
    if r.Answered? && RetryableStatus(r.status) {
      RetryAfterIsCapped(r.retryAfter, config.maxBackoff);
    }
  }

  lemma Scale(n: int, more: int, d: int)
    requires 0 <= n <= more && d >= 0
    ensures n * d <= more * d && (n + 1) * d == n * d + d
  {
  }

  /** The longest a request may wait in all: one cap (or initial backoff) per retry. */
  function Allowance(config: RetryConfig): int {
    Max(0, config.maxRetries) * Max(config.initialBackoff, config.maxBackoff)
  }

  lemma {:induction false} WaitingIsBounded(config: RetryConfig, w: World, waits: seq<Int64>, most: int)
    requires config.maxBackoff > 0 && Planned(config, w, waits) && most == Max(config.initialBackoff, config.maxBackoff)
    ensures Total(waits) <= |waits| * most
  {
    if waits != [] {
      var n := |waits| - 1;
      WaitingIsBounded(config, w, waits[..n], most);
      WaitIsCapped(config, w, n + 1);
      Scale(n, n, most);
    }
  }

  /** With a positive cap the waits of a request stay within its allowance, Retry-After hints included. */
  lemma WaitsFit(config: RetryConfig, w: World, waits: seq<Int64>)
    requires Planned(config, w, waits) && |waits| <= Max(0, config.maxRetries)
    ensures config.maxBackoff > 0 ==> Total(waits) <= Allowance(config)
  {
    if config.maxBackoff > 0 {
      var most := Max(config.initialBackoff, config.maxBackoff);
      WaitingIsBounded(config, w, waits, most);
      Scale(|waits|, Max(0, config.maxRetries), most);
    }
  }

  /** Without a cap the upstream decides: one 503 naming an hour keeps the client waiting an hour. */
  lemma UncappedHintsAreFollowed(w: World)
    requires w.reply(0) == Answered(503, Seconds(3600), true)
    ensures Wait(RetryConfig(1, 100_000_000, 0), w, 1) == 3600 * SECOND
  {
    WrapFits(3600 * SECOND);
  }

  /** What exponential backoff means: the bound before attempt `i` is the initial one doubled `i - 1` times, capped. */
  ghost predicate DoublesUpTo(config: RetryConfig, i: nat)
    requires i >= 1
  {
    Backoff(config, i) == Min(config.initialBackoff * Pow2(i - 1), config.maxBackoff)
  }

  /** The bounds after the first double up to the cap, for every attempt, exactly when neither duration reaches half
      the int64 range; otherwise a doubling wraps to a negative bound and the client stops waiting. */
  lemma BackoffDoublesIff(config: RetryConfig)
    requires config.initialBackoff > 0 && config.maxBackoff > 0
    ensures (forall i: nat :: i >= 2 ==> DoublesUpTo(config, i)) <==> config.initialBackoff < HALF && config.maxBackoff < HALF
  {
    if config.initialBackoff < HALF && config.maxBackoff < HALF {
      forall i: nat | i >= 2
        ensures DoublesUpTo(config, i)
      {
        Doubles(config, i);
      }
    } else if config.initialBackoff >= HALF {
      WrapsAfter(config, 1);
      assert !DoublesUpTo(config, 2);
    } else {
      var i := Reaches(config.initialBackoff, 1);
      if DoublesUpTo(config, i) {
        WrapsAfter(config, i);
        assert !DoublesUpTo(config, i + 1);
      }
    }
  }

  /** A wait of half the int64 range: the very next bound is negative, and the client retries at once for ever after. */
  lemma LongBackoffStopsWaiting(config: RetryConfig)
    requires config.initialBackoff == HALF && config.maxBackoff > 0
    ensures Backoff(config, 1) == HALF && Backoff(config, 2) < 0 && !DoublesUpTo(config, 2)
  {
    WrapsAfter(config, 1);
  }

  lemma WrapsAfter(config: RetryConfig, i: nat)
    requires i >= 1 && Backoff(config, i) >= HALF && config.initialBackoff > 0 && config.maxBackoff > 0
    ensures Backoff(config, i + 1) < 0 && !DoublesUpTo(config, i + 1)
  {
    var bound := Backoff(config, i);
    assert Wrap64(bound * 2) == bound * 2 - 4 * HALF;
    Scaled(config.initialBackoff, Pow2(i));
  }

  lemma DoublingStep(x: int, bound: Int64, maxBackoff: Int64)
    requires x > 0 && 0 < maxBackoff < HALF && (bound == x < HALF || bound == Min(x, maxBackoff))
    ensures Doubled(bound, maxBackoff) == Min(2 * x, maxBackoff)
  {
    WrapFits(bound * 2);
  }

  lemma {:induction false} Doubles(config: RetryConfig, i: nat)
    requires 0 < config.initialBackoff < HALF && 0 < config.maxBackoff < HALF && i >= 2
    ensures DoublesUpTo(config, i)
    decreases i
  {
    var x := config.initialBackoff * Pow2(i - 2);
    assert x > 0 && config.initialBackoff * Pow2(i - 1) == 2 * x by {
      Scaled(config.initialBackoff, Pow2(i - 2));
    }
    if i > 2 {
      Doubles(config, i - 1);
    } else {
      assert Pow2(0) == 1 && x == config.initialBackoff;
    }
    DoublingStep(x, Backoff(config, i - 1), config.maxBackoff);
  }

  lemma Scaled(d: int, p: int)
    requires d > 0 && p > 0
    ensures d * p > 0 && d * (2 * p) == 2 * (d * p)
  {
  }

  /** Doubling a positive duration passes through the upper half of the int64 range. */
  lemma {:induction false} Reaches(d: Int64, i: nat) returns (j: nat)
    requires i >= 1 && 0 < d && d * Pow2(i - 1) < HALF
    ensures j > i && HALF <= d * Pow2(j - 1) < 2 * HALF
    decreases HALF - d * Pow2(i - 1)
  {
    assert d * Pow2(i) == d * Pow2(i - 1) * 2;
    assert d * Pow2(i - 1) >= 1;
    if d * Pow2(i) < HALF {
      j := Reaches(d, i + 1);
    } else {
      j := i + 1;
    }
  }

  /** The transport reads part of what the body reader still holds. */
  function Consumed(reader: seq<bv8>, n: nat): seq<bv8> {
    reader[Min(n, |reader|)..]
  }

  datatype Attempt = Retry(kind: Class, err: Option<set<Class>>, hint: Int64) | Done(outcome: Outcome)

  /** The body of the loop after the wait: build, send, read and classify. */
  method Perform(reply: Reply, maxBackoff: Int64) returns (a: Attempt)
    ensures a.Done? <==> Verdict(reply).Some?
    ensures a.Done? ==> Some(a.outcome) == Verdict(reply)
    ensures a.Retry? ==>
      a.kind == ClassOf(reply) && a.hint == Hint(reply, maxBackoff) && (a.err.Some? ==> a.err.value <= {ClassOf(reply)})
  {
    if reply.Unbuildable? {
      return Done(Failure({}));
    }
    if reply.Failed? {
      if reply.contextDone {
        return Done(Failure({Timeout}));
      }
      return Retry(Connection, Some({}), 0);
    }
    if reply.Unreadable? {
      return Retry(Connection, Some({Connection}), 0);
    }
    if reply.status == 429 {
      return Retry(RateLimit, None, ParseRetryAfter(reply.retryAfter, maxBackoff));
    }
    if 500 <= reply.status < 600 {
      return Retry(ServerError, None, ParseRetryAfter(reply.retryAfter, maxBackoff));
    }
    if !reply.validJson {
      return Done(Failure({NotJson}));
    }
    return Done(Response(reply.status));
  }

  /** The wait before a retry. */
  method Pause(config: RetryConfig, w: World, attempt: nat, hint: Int64, bound: Int64) returns (wait: Int64)
    requires attempt >= 1 && bound == Backoff(config, attempt) && hint == Hint(w.reply(attempt - 1), config.maxBackoff)
    ensures wait == Wait(config, w, attempt)
  {
    wait := hint;
    if wait <= 0 && bound > 0 {
      wait := Draw(w.dice(attempt), bound);
    }
  }

  ghost predicate GoesOn(config: RetryConfig, w: World, n: nat) {
    forall i :: 0 <= i < n ==> !Ends(config, w, i)
  }

  /** Attempt `i` ends before anything reaches the transport. */
  predicate Unsent(config: RetryConfig, w: World, i: nat) {
    Interrupted(config, w, i) || w.reply(i).Unbuildable?
  }

  ghost predicate Whole(offered: seq<seq<bv8>>, body: seq<bv8>) {
    forall i :: 0 <= i < |offered| ==> offered[i] == body
  }

  /** What the loop carries from attempt to attempt: the class and error of the last one, its hint, and the bound. */
  ghost predicate Carried(config: RetryConfig, w: World, n: nat, last: Option<Class>, err: Option<set<Class>>, hint: Int64, bound: Int64) {
    && bound == Backoff(config, n)
    && (n == 0 ==> last == None && err == None && hint == 0)
    && (n > 0 ==> last == Some(ClassOf(w.reply(n - 1))) && hint == Hint(w.reply(n - 1), config.maxBackoff))
    && (n > 0 && err.Some? ==> err.value <= {ClassOf(w.reply(n - 1))})
  }

  /** How a request that made `n` attempts ends: as its last attempt decided, or exhausted with that one's class. */
  ghost predicate EndsAs(config: RetryConfig, w: World, n: nat, outcome: Outcome) {
    if n == 0 then config.maxRetries < 0 && outcome == Failure({UpstreamExhausted, Connection})
    else if Ends(config, w, n - 1) then outcome == EndingOf(config, w, n - 1)
    else n == config.maxRetries + 1 && outcome == Failure({UpstreamExhausted, ClassOf(w.reply(n - 1))})
  }

  lemma SurrenderClass(config: RetryConfig, w: World, n: nat, last: Option<Class>, err: Option<set<Class>>, hint: Int64, bound: Int64)
    requires Carried(config, w, n, last, err, hint, bound) && GoesOn(config, w, n) && n == Max(0, config.maxRetries + 1)
    ensures EndsAs(config, w, n, Surrender(last, err, false))
  {
    if n > 0 {
      var c := ClassOf(w.reply(n - 1));
      assert err.Some? ==> {UpstreamExhausted, c} + err.value == {UpstreamExhausted, c};
    }
  }

  /** The retry loop. It stops at the first attempt that ends the request and reports that attempt's outcome; when no
      permitted attempt does, it reports exhaustion with the class of the last one. Each attempt is offered the whole
      body, whatever an earlier attempt read of it. */
  method Send(config: RetryConfig, w: World, body: seq<bv8>)
      returns (outcome: Outcome, attempts: nat, waits: seq<Int64>, offered: seq<seq<bv8>>)
    ensures attempts <= Max(0, config.maxRetries + 1)
    ensures GoesOn(config, w, Max(0, attempts - 1)) && EndsAs(config, w, attempts, outcome)
    ensures |waits| == Max(0, attempts - 1) && Planned(config, w, waits)
    ensures Whole(offered, body)
    ensures |offered| == if attempts > 0 && Unsent(config, w, attempts - 1) then attempts - 1 else attempts
  {
    var reader := body;
    var err: Option<set<Class>>, last: Option<Class> := None, None;
    var lastRetryAfter, nextBackoff: Int64 := 0, config.initialBackoff;
    attempts, waits, offered := 0, [], [];
    var attempt := 0;
    while attempt <= config.maxRetries
      invariant 0 <= attempt <= Max(0, config.maxRetries + 1) && attempts == attempt
      invariant attempt == 0 ==> reader == body
      invariant GoesOn(config, w, attempt) && Carried(config, w, attempt, last, err, lastRetryAfter, nextBackoff)
      invariant |waits| == Max(0, attempt - 1) && Planned(config, w, waits)
      invariant |offered| == attempt && Whole(offered, body)
      decreases config.maxRetries + 1 - attempt
    {
      attempts := attempt + 1;
      if attempt > 0 {
        var wait := Pause(config, w, attempt, lastRetryAfter, nextBackoff);
        lastRetryAfter := 0;
        waits := waits + [wait];
        if wait > 0 && w.interrupts(attempt) {
          outcome := Failure({Timeout});
          return;
        }
        nextBackoff := Doubled(nextBackoff, config.maxBackoff);
        reader := body;
      }
      var a := Perform(w.reply(attempt), config.maxBackoff);
      if !w.reply(attempt).Unbuildable? {
        offered := offered + [reader];
        reader := Consumed(reader, w.taken(attempt));
      }
      if a.Done? {
        outcome := a.outcome;
        return;
      }
      last, err, lastRetryAfter := Some(a.kind), a.err, a.hint;
      attempt := attempt + 1;
    }
    outcome := Surrender(last, err, false);
    SurrenderClass(config, w, attempt, last, err, lastRetryAfter, nextBackoff);
  }

  // ---------------------------------------------------------------- what a request comes to, by status and header

  /** A Retry-After value, case by case: whole seconds that fit are seconds, a date is the time left until it, anything
      past, negative or unreadable is nothing; a positive cap limits both. */
  lemma HintColumns(h: Header, maxBackoff: Int64)
    ensures h == Absent || h == Garbled ==> ParseRetryAfter(h, maxBackoff) == 0
    ensures h.Date? ==> ParseRetryAfter(h, maxBackoff) == if h.left <= 0 then 0 else if maxBackoff > 0 then Min(h.left, maxBackoff) else h.left
    ensures h.Seconds? && h.n < 0 ==> ParseRetryAfter(h, maxBackoff) == 0
    ensures h.Seconds? && 0 <= h.n <= 9_223_372_036 ==>
      ParseRetryAfter(h, maxBackoff) == if maxBackoff > 0 then Min(h.n * 1_000_000_000, maxBackoff) else h.n * 1_000_000_000
  {
    if h.Seconds? && 0 <= h.n <= 9_223_372_036 {
      WrapFits(h.n * SECOND);
    }
  }

  /** The wait before a retry: a positive hint that came with a 429 or a 5xx, and otherwise any draw from 0 up to the
      bound, and nothing once the bound is used up. */
  lemma WaitColumns(config: RetryConfig, w: World, i: nat)
    requires i >= 1
    ensures var r := w.reply(i - 1);
      var hint := if r.Answered? && (r.status == 429 || 500 <= r.status <= 599) then ParseRetryAfter(r.retryAfter, config.maxBackoff) else 0;
      && (hint > 0 ==> Wait(config, w, i) == hint)
      && (hint <= 0 && Backoff(config, i) > 0 ==> IsDraw(Wait(config, w, i), w.dice(i), Backoff(config, i)))
      && (hint <= 0 && Backoff(config, i) <= 0 ==> Wait(config, w, i) <= 0)
  {
    var bound := Backoff(config, i);
    if bound > 0 {
      DrawIsDraw(w.dice(i), bound);
    }
  }

  /** A draw lies from 0 up to the bound, and every number there can be drawn. */
  predicate IsDraw(d: int, dice: nat, bound: int) {
    0 <= d < bound && (dice < bound ==> d == dice)
  }

  lemma DrawIsDraw(dice: nat, bound: Int64)
    requires bound > 0
    ensures IsDraw(Draw(dice, bound), dice, bound)
  {
  }

  /** The replies that are tried again: a transport failure outside the context, an unreadable body, 429 and 5xx. */
  predicate AsksAgain(r: Reply) {
    || r == Failed(false) || r == Unreadable
    || (r.Answered? && (r.status == 429 || 500 <= r.status <= 599))
  }

  /** What a request that made `n` attempts comes to. Every attempt but the last was to be tried again. It responds with
      the status of a last reply that was not, and whose body is JSON; it times out when the context ended during its last
      wait or attempt; it is exhausted exactly when even the last permitted attempt was to be tried again, and then the
      error tells 429, 5xx and connection failures apart. */
  lemma RequestReport(config: RetryConfig, w: World, n: nat, o: Outcome)
    requires EndsAs(config, w, n, o) && GoesOn(config, w, Max(0, n - 1)) && n >= 1
    ensures forall i :: 0 <= i < n - 1 ==> AsksAgain(w.reply(i))
    ensures var r, interrupted := w.reply(n - 1), n >= 2 && Wait(config, w, n - 1) > 0 && w.interrupts(n - 1);
      && (forall status :: o == Response(status) <==>
            !interrupted && r.Answered? && r.status == status && status != 429 && !(500 <= status <= 599) && r.validJson)
      && (o == Failure({NotJson}) <==> !interrupted && r.Answered? && r.status != 429 && !(500 <= r.status <= 599) && !r.validJson)
      && (o == Failure({Timeout}) <==> interrupted || r == Failed(true))
      && (o == Failure({}) <==> !interrupted && r == Unbuildable)
      && (o == Failure({UpstreamExhausted, RateLimit}) <==> !interrupted && r.Answered? && r.status == 429)
      && (o == Failure({UpstreamExhausted, ServerError}) <==> !interrupted && r.Answered? && 500 <= r.status <= 599)
      && (o == Failure({UpstreamExhausted, Connection}) <==> !interrupted && (r == Failed(false) || r == Unreadable))
      && (o.Failure? && UpstreamExhausted in o.classes ==> n == config.maxRetries + 1)
  {
    Distinguished(o);
    forall i | 0 <= i < n - 1
      ensures AsksAgain(w.reply(i))
    {
      assert !Ends(config, w, i);
    }
  }

  /** The error sets a request can return are told apart by their members. */
  lemma Distinguished(o: Outcome)
    ensures {UpstreamExhausted, RateLimit} != {UpstreamExhausted, ServerError} && {UpstreamExhausted, ServerError} != {UpstreamExhausted, Connection}
    ensures {UpstreamExhausted, RateLimit} != {UpstreamExhausted, Connection}
    ensures {Timeout} != {NotJson} && {Timeout} != {} && {NotJson} != {}
    ensures forall c: Class :: {UpstreamExhausted, c} != {Timeout} && {UpstreamExhausted, c} != {NotJson} && {UpstreamExhausted, c} != {}
  {
    assert RateLimit in {UpstreamExhausted, RateLimit} && RateLimit !in {UpstreamExhausted, ServerError};
    assert ServerError !in {UpstreamExhausted, Connection} && ServerError in {UpstreamExhausted, ServerError};
    assert RateLimit !in {UpstreamExhausted, Connection};
    assert Timeout !in {NotJson} && Timeout in {Timeout} && NotJson in {NotJson};
    assert forall c: Class :: UpstreamExhausted in {UpstreamExhausted, c};
    assert UpstreamExhausted !in {Timeout} && UpstreamExhausted !in {NotJson};
  }
}
