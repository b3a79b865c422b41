/** The circuit breaker that every request of one client shares, over any interleaving of concurrent requests. */
module CircuitBreaker {
  import opened Prelude
  import opened HttpClient

  const THRESHOLD: nat := 3
  const COOLDOWN: nat := 30 * SECOND

  datatype Circuit = Circuit(failures: nat, openUntil: Option<nat>)

  predicate Expired(c: Circuit, now: nat) {
    c.openUntil.Some? && now > c.openUntil.value
  }

  predicate IsOpen(c: Circuit, now: nat) {
    c.openUntil.Some? && now <= c.openUntil.value
  }

  const CLOSED := Circuit(0, None)

  function Checked(c: Circuit, now: nat): Circuit {
    if Expired(c, now) then CLOSED else c
  }

  function Failing(c: Circuit, now: nat): Circuit {
    Circuit(c.failures + 1, if c.failures + 1 >= THRESHOLD then Some(now + COOLDOWN) else c.openUntil)
  }

  const COUNTED: set<Class> := {Timeout, Connection, ServerError, RateLimit, UpstreamExhausted}

  /** A failure the breaker counts: any of the five transient classes. */
  predicate Transient(o: Outcome) {
    o.Failure? && o.classes * COUNTED != {}
  }

  /** What the deferred record of a finished request does. */
  function Recorded(c: Circuit, o: Outcome, now: nat): Circuit {
    if o.Response? then CLOSED else if Transient(o) then Failing(c, now) else c
  }

  /** Which endings of the retry loop the breaker counts as failures: a timeout and every exhaustion; a response that
      is not JSON and a request that cannot be built leave it as it was. */
  lemma EndingsCount(config: RetryConfig, w: World, n: nat, o: Outcome)
    requires EndsAs(config, w, n, o)
    ensures n == 0 || !Ends(config, w, n - 1) ==> Transient(o)
    ensures n > 0 && Ends(config, w, n - 1) ==>
      && (Transient(o) <==> Interrupted(config, w, n - 1) || w.reply(n - 1) == Reply.Failed(true))
      && (o.Response? ==> !Interrupted(config, w, n - 1) && w.reply(n - 1).Answered? && w.reply(n - 1).validJson)
  {
    if n == 0 || !Ends(config, w, n - 1) {
      assert UpstreamExhausted in o.classes * COUNTED;
    } else if Interrupted(config, w, n - 1) || w.reply(n - 1) == Reply.Failed(true) {
      assert Timeout in o.classes * COUNTED;
    }
  }

  // ---------------------------------------------------------------- the client

  class BaseClient {
    const retry: RetryConfig
    var failures: nat
    var openUntil: Option<nat>

    ghost function View(): Circuit
      reads this
    {
      Circuit(failures, openUntil)
    }

    constructor (retry: RetryConfig)
      ensures View() == CLOSED && this.retry == retry
    {
      this.retry, failures, openUntil := retry, 0, None;
    }

    method CircuitError(now: nat) returns (open: bool)
      modifies this
      ensures View() == Checked(old(View()), now)
      ensures open <==> IsOpen(old(View()), now)
    {
      if openUntil.None? {
        return false;
      }
      if now > openUntil.value {
        openUntil := None;
        failures := 0;
        return false;
      }
      return true;
    }

    method RecordSuccess()
      modifies this
      ensures View() == CLOSED
    {
      failures := 0;
      openUntil := None;
    }

    method RecordTransientFailure(now: nat)
      modifies this
      ensures View() == Failing(old(View()), now)
    {
      failures := failures + 1;
      if failures >= THRESHOLD {
        openUntil := Some(now + COOLDOWN);
      }
    }

    method Record(o: Outcome, now: nat)
      modifies this
      ensures View() == Recorded(old(View()), o, now)
    {
      if o.Response? {
        RecordSuccess();
      } else if o.classes * COUNTED != {} {
        RecordTransientFailure(now);
      }
    }

    /** One request with nothing else in flight. An open circuit refuses it without an attempt and is left as it was;
        otherwise the retry loop's outcome is recorded on a circuit that has forgotten an expired opening. */
    method Request(w: World, body: seq<bv8>, start: nat, finish: nat) returns (outcome: Outcome, attempts: nat, ghost waits: seq<Int64>)
      modifies this
      ensures IsOpen(old(View()), start) ==> outcome == Failure({CircuitOpen}) && attempts == 0 && waits == [] && View() == old(View())
      ensures !IsOpen(old(View()), start) ==> EndsAs(retry, w, attempts, outcome) && GoesOn(retry, w, Max(0, attempts - 1))
      ensures !IsOpen(old(View()), start) ==> View() == Recorded(Checked(old(View()), start), outcome, finish)
      ensures attempts <= Max(0, retry.maxRetries + 1)
      ensures retry.maxBackoff > 0 ==> Total(waits) <= Allowance(retry)
    {
      var open := CircuitError(start);
      if open {
        Record(Failure({CircuitOpen}), finish);
        WaitsFit(retry, w, []);
        return Failure({CircuitOpen}), 0, [];
      }
      var planned, offered;
      outcome, attempts, planned, offered := Send(retry, w, body);
      WaitsFit(retry, w, planned);
      waits := planned;
      Record(outcome, finish);
    }
  }

  // ---------------------------------------------------------------- concurrent requests

  /** The two moments at which a request touches the breaker, each under its lock with a clock reading. */
  datatype Event = Begin(now: nat) | Finish(id: nat, outcome: Outcome, now: nat)

  /** `admitted` counts the requests let through to the transport, and numbers them. */
  datatype System = System(circuit: Circuit, inFlight: set<nat>, admitted: nat, now: nat)

  const START := System(CLOSED, {}, 0, 0)

  predicate Enabled(s: System, e: Event) {
    e.now >= s.now && (e.Finish? ==> e.id in s.inFlight)
  }

  function Next(s: System, e: Event): System {
    match e
    case Begin(now) =>
      if IsOpen(s.circuit, now) then s.(now := now)
      else System(Checked(s.circuit, now), s.inFlight + {s.admitted}, s.admitted + 1, now)
    case Finish(id, o, now) =>
      System(Recorded(s.circuit, o, now), s.inFlight - {id}, s.admitted, now)
  }

  function After(s: System, es: seq<Event>): System {
    if es == [] then s else Next(After(s, es[..|es| - 1]), es[|es| - 1])
  }

  predicate Legal(s: System, es: seq<Event>) {
    es == [] || (Legal(s, es[..|es| - 1]) && Enabled(After(s, es[..|es| - 1]), es[|es| - 1]))
  }

  /** A request is let through exactly while no deadline stands, or once the clock has passed it; that also clears an
      expired count, and a refusal changes nothing but the clock. */
  lemma AdmittedIff(s: System, now: nat)
    ensures var after, through := Next(s, Begin(now)), s.circuit.openUntil == None || now > s.circuit.openUntil.value;
      && after.admitted == s.admitted + (if through then 1 else 0)
      && after.inFlight == s.inFlight + (if through then {s.admitted} else {})
      && after.circuit == if through && s.circuit.openUntil.Some? then Circuit(0, None) else s.circuit
  {
  }

  /** What a finished request does to the count: a response clears it, a timeout, a connection failure, a 5xx, a 429 or an
      exhaustion adds one, and anything else leaves it. */
  lemma RecordedColumns(s: System, id: nat, o: Outcome, now: nat)
    ensures var before, after := s.circuit, Next(s, Finish(id, o, now)).circuit;
      var counts := o.Failure? && (Timeout in o.classes || Connection in o.classes || ServerError in o.classes
                                   || RateLimit in o.classes || UpstreamExhausted in o.classes);
      && after.failures == (if o.Response? then 0 else if counts then before.failures + 1 else before.failures)
      && after.openUntil == if o.Response? then None
                            else if counts && before.failures >= 2 then Some(now + 30_000_000_000) else before.openUntil
  {
    if o.Failure? {
      assert forall c :: c in o.classes * COUNTED <==> c in o.classes && c in COUNTED;
      if Transient(o) {
        var c :| c in o.classes * COUNTED;
      }
    }
  }

  /** The breaker is open exactly with three failures on its count, and never for longer than the cooldown from now. */
  ghost predicate Inv(s: System) {
    && (s.circuit.openUntil.Some? <==> s.circuit.failures >= THRESHOLD)
    && (s.circuit.openUntil.Some? ==> s.circuit.openUntil.value <= s.now + COOLDOWN)
    && forall id :: id in s.inFlight ==> id < s.admitted
  }

  lemma {:induction false} EveryRunKeepsInv(s: System, es: seq<Event>)
    requires Inv(s) && Legal(s, es)
    ensures Inv(After(s, es))
  {
    if es != [] {
      EveryRunKeepsInv(s, es[..|es| - 1]);
    }
  }

  predicate IsSuccess(e: Event) {
    e.Finish? && e.outcome.Response?
  }

  predicate IsFailure(e: Event) {
    e.Finish? && Transient(e.outcome)
  }

  /** While the breaker is open, and until a request that was already in flight succeeds, nothing new reaches the
      transport, whatever the other requests do, and the breaker stays open at least as long. */
  lemma {:induction false} OpenCircuitAdmitsNothing(s: System, es: seq<Event>)
    requires Inv(s) && Legal(s, es) && s.circuit.openUntil.Some?
    requires forall e :: e in es ==> e.now <= s.circuit.openUntil.value
    requires forall e :: e in es && IsSuccess(e) ==> e.id !in s.inFlight
    ensures After(s, es).admitted == s.admitted && After(s, es).inFlight <= s.inFlight
    ensures After(s, es).circuit.openUntil.Some? && After(s, es).circuit.openUntil.value >= s.circuit.openUntil.value
  {
    if es != [] {
      var n := |es| - 1;
      OpenCircuitAdmitsNothing(s, es[..n]);
      EveryRunKeepsInv(s, es[..n]);
      LaterNow(s, es[..n]);
      assert es[n] in es;
    }
  }

  lemma {:induction false} LaterNow(s: System, es: seq<Event>)
    requires Legal(s, es)
    ensures After(s, es).now >= s.now
  {
    if es != [] {
      LaterNow(s, es[..|es| - 1]);
    }
  }

  // ---------------------------------------------------------------- what the count means

  /** This event clears the count: a success, or a new request that finds the cooldown over. */
  predicate Resets(s: System, e: Event) {
    IsSuccess(e) || (e.Begin? && Expired(s.circuit, e.now))
  }

  /** Nothing from the `from`-th event on clears the count, and the event before it (if any) does. */
  ghost predicate SinceReset(es: seq<Event>, from: nat) {
    && from <= |es|
    && (from == 0 || Resets(After(START, es[..from - 1]), es[from - 1]))
    && forall k :: from <= k < |es| ==> !Resets(After(START, es[..k]), es[k])
  }

  function Failures(es: seq<Event>): nat {
    if es == [] then 0 else Failures(es[..|es| - 1]) + if IsFailure(es[|es| - 1]) then 1 else 0
  }

  function LastFailure(es: seq<Event>): nat {
    if es == [] then 0
    else if IsFailure(es[|es| - 1]) then es[|es| - 1].now
    else LastFailure(es[..|es| - 1])
  }

  /** In every reachable state the count is the number of transient failures since the last event that cleared it, and
      the breaker is open exactly from the third of them, until a cooldown after the latest. */
  lemma {:induction false} CountMeansFailures(es: seq<Event>, from: nat)
    requires Legal(START, es) && SinceReset(es, from)
    ensures CountIs(After(START, es).circuit, es[from..])
  {
    var n := |es| - 1;
    if from == |es| {
      assert es[from..] == [];
      if from > 0 {
        EveryRunKeepsInv(START, es[..n]);
      }
    } else {
      var tail := es[from..];
      assert tail[..|tail| - 1] == es[..n][from..] && tail[|tail| - 1] == es[n];
      Shorter(es, from);
      CountMeansFailures(es[..n], from);
      CountsOneMore(After(START, es[..n]), es[n], tail);
    }
  }

  /** What the count means, for the events since it was last cleared. */
  ghost predicate CountIs(c: Circuit, tail: seq<Event>) {
    && c.failures == Failures(tail)
    && c.openUntil == if Failures(tail) >= 3 then Some(LastFailure(tail) + 30_000_000_000) else None
  }

  lemma CountsOneMore(s: System, e: Event, tail: seq<Event>)
    requires tail != [] && tail[|tail| - 1] == e && CountIs(s.circuit, tail[..|tail| - 1]) && !Resets(s, e)
    ensures CountIs(Next(s, e).circuit, tail)
  {
  }

  lemma Shorter(es: seq<Event>, from: nat)
    requires SinceReset(es, from) && from < |es|
    ensures SinceReset(es[..|es| - 1], from)
  {
    var less := es[..|es| - 1];
    assert from > 0 ==> less[..from - 1] == es[..from - 1];
    assert forall k :: from <= k < |less| ==> less[..k] == es[..k];
  }

  /** Every run has such a point. */
  lemma {:induction false} SinceResetExists(es: seq<Event>) returns (from: nat)
    ensures SinceReset(es, from)
  {
    if es == [] {
      from := 0;
    } else {
      var n := |es| - 1;
      if Resets(After(START, es[..n]), es[n]) {
        from := |es|;
      } else {
        from := SinceResetExists(es[..n]);
        assert from > 0 ==> es[..n][..from - 1] == es[..from - 1];
        assert forall k :: from <= k < n ==> es[..n][..k] == es[..k];
      }
    }
  }

  /** An opening is always the work of three transient failures that no success interrupted. */
  lemma OpeningNeedsThreeFailures(es: seq<Event>) returns (from: nat)
    requires Legal(START, es) && After(START, es).circuit.openUntil.Some?
    ensures from <= |es| && Failures(es[from..]) >= 3
    ensures forall e :: e in es[from..] ==> !IsSuccess(e)
    ensures After(START, es).circuit.openUntil == Some(LastFailure(es[from..]) + 30_000_000_000)
  {
    from := SinceResetExists(es);
    CountMeansFailures(es, from);
  }
}
