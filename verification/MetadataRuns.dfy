/** Any number of preparation workers, admissions, foreign detail writes and clocks interleaved.
    One step is one database statement or transaction; an admission is split at the point between counting
    the active rows and inserting, because only the cursor row is locked in between. */
module MetadataRuns {
  import opened Prelude
  import opened JobQueue
  import opened MetadataAdmission

  datatype Config = Config(maxAttempts: int, base: int, cap: int)

  datatype Report = FencedOut | DoneOut | RetryOut | FailedOut

  datatype Write = MarkDone | RetryOrFail

  datatype Phase = Claimed | Existing | Missing | Fetched | Settled(write: Write) | Finished(report: Report)

  /** One claim being worked on. The last three fields record at which step of the run the claim, the
      guarded detail write and the landing of the worker's own status write happened. */
  datatype Worker = Worker(job: ItemId, phase: Phase, attempts: nat, claimedAt: nat,
                           wroteAt: Option<nat>, landedAt: Option<nat>)

  datatype Pending = Pending(candidates: seq<ItemId>, slots: nat)

  datatype System = System(rows: Rows, nextPk: nat, nextToken: Token, cursor: Option<nat>, admission: Option<Pending>,
                           detail: set<ItemId>, workers: map<Token, Worker>, tick: nat, changes: map<ItemId, nat>)

  datatype Step =
    | BeginAdmission(candidates: seq<ItemId>)
    | FinishAdmission(now: Time)
    | Expire(now: Time)
    | Claim(job: ItemId, now: Time, leaseSeconds: nat)
    | Load(token: Token)
    | Reconcile(token: Token, now: Time, hashed: bool)
    | Persist(token: Token, now: Time, stored: bool)
    | Inspect(token: Token, payload: bool)
    | WriteBack(token: Token, now: Time)
    | ForeignDetail(item: ItemId)

  predicate At(s: System, t: Token, phase: Phase) {
    t in s.workers && s.workers[t].phase == phase && s.workers[t].job in s.rows
  }

  function Move(s: System, t: Token, w: Worker): System {
    s.(workers := s.workers[t := w])
  }

  function DoBegin(s: System, candidates: seq<ItemId>): System {
    if s.admission.Some? || FreeSlots(s.rows) == 0 then s
    else s.(admission := Some(Pending(candidates, FreeSlots(s.rows))))
  }

  function DoAdmit(s: System, now: Time): System {
    if s.admission.None? then s
    else
      var p := s.admission.value;
      var admitted := Admitted(p.candidates, s.cursor, p.slots);
      s.(rows := InsertAll(s.rows, admitted, s.nextPk, now), nextPk := s.nextPk + |admitted|,
         cursor := CursorAfter(p.candidates, s.cursor, p.slots), admission := None)
  }

  function DoClaim(s: System, job: ItemId, now: Time, leaseSeconds: nat): System {
    if job !in s.rows || !Ready(s.rows[job], now) then s
    else
      var t := s.nextToken;
      s.(rows := s.rows[job := LeaseRow(s.rows[job], t, now + leaseSeconds)], nextToken := t + 1,
         workers := s.workers[t := Worker(job, Claimed, 0, s.tick, None, None)])
  }

  function DoLoad(s: System, t: Token): System {
    if !At(s, t, Claimed) then s
    else
      var w := s.workers[t];
      Move(s, t, w.(phase := if w.job in s.detail then Existing else Missing, attempts := s.rows[w.job].attempts))
  }

  /** Detail exists already: under the row lock, refresh the hash and enqueue moderation work. */
  function DoReconcile(s: System, t: Token, now: Time, hashed: bool): System {
    if !At(s, t, Existing) then s
    else
      var w := s.workers[t];
      if !LiveUnder(s.rows[w.job], t, now) then Move(s, t, w.(phase := Finished(FencedOut)))
      else if w.job !in s.detail then Move(s, t, w.(phase := Settled(RetryOrFail)))
      else Move(s, t, w.(phase := Settled(if hashed then MarkDone else RetryOrFail), wroteAt := Some(s.tick)))
  }

  /** A fetched payload is persisted only while the guard still finds the lease in force. */
  function DoPersist(s: System, t: Token, now: Time, stored: bool): System {
    if !At(s, t, Missing) then s
    else
      var w := s.workers[t];
      if LiveUnder(s.rows[w.job], t, now) && stored then
        Move(s.(detail := s.detail + {w.job}), t, w.(phase := Fetched, wroteAt := Some(s.tick)))
      else Move(s, t, w.(phase := Fetched))
  }

  function DoInspect(s: System, t: Token, payload: bool): System {
    if !At(s, t, Missing) && !At(s, t, Fetched) then s
    else
      var w := s.workers[t];
      Move(s, t, w.(phase := Settled(if payload && w.job in s.detail then MarkDone else RetryOrFail)))
  }

  function Written(cfg: Config, r: Row, t: Token, w: Worker, now: Time): Row
    requires w.phase.Settled?
  {
    match w.phase.write
    case MarkDone => FinishRow(r, t, now)
    case RetryOrFail => RetryOrFailRow(r, t, now, w.attempts, cfg.maxAttempts, cfg.base, cfg.cap)
  }

  function ReportOf(cfg: Config, w: Worker, landed: bool): Report
    requires w.phase.Settled?
  {
    if !landed then FencedOut
    else if w.phase.write == MarkDone then DoneOut
    else if w.attempts >= cfg.maxAttempts then FailedOut
    else RetryOut
  }

  function DoWriteBack(cfg: Config, s: System, t: Token, now: Time): System {
    if t !in s.workers || !s.workers[t].phase.Settled? || s.workers[t].job !in s.rows then s
    else
      var w := s.workers[t];
      var landed := LiveUnder(s.rows[w.job], t, now);
      Move(s.(rows := s.rows[w.job := Written(cfg, s.rows[w.job], t, w, now)]), t,
           w.(phase := Finished(ReportOf(cfg, w, landed)), landedAt := if landed then Some(s.tick) else None))
  }

  function Act(cfg: Config, s: System, step: Step): System {
    match step
    case BeginAdmission(candidates) => DoBegin(s, candidates)
    case FinishAdmission(now) => DoAdmit(s, now)
    case Expire(now) => s.(rows := ExpireAll(s.rows, now, cfg.maxAttempts))
    case Claim(job, now, leaseSeconds) => DoClaim(s, job, now, leaseSeconds)
    case Load(t) => DoLoad(s, t)
    case Reconcile(t, now, hashed) => DoReconcile(s, t, now, hashed)
    case Persist(t, now, stored) => DoPersist(s, t, now, stored)
    case Inspect(t, payload) => DoInspect(s, t, payload)
    case WriteBack(t, now) => DoWriteBack(cfg, s, t, now)
    case ForeignDetail(item) => s.(detail := s.detail + {item})
  }

  function Count(changes: map<ItemId, nat>, k: ItemId): nat {
    if k in changes then changes[k] else 0
  }

  /** Counts, per row, the UPDATEs that changed it. */
  function Bump(changes: map<ItemId, nat>, before: Rows, after: Rows): map<ItemId, nat> {
    map k | k in after :: Count(changes, k) + if k in before && before[k] != after[k] then 1 else 0
  }

  function Next(cfg: Config, s: System, step: Step): System {
    var after := Act(cfg, s, step);
    after.(tick := s.tick + 1, changes := Bump(s.changes, s.rows, after.rows))
  }

  function Start(): System {
    System(map[], 0, 0, None, None, {}, map[], 0, map[])
  }

  function Run(cfg: Config, steps: seq<Step>): System {
    if steps == [] then Start() else Next(cfg, Run(cfg, steps[..|steps| - 1]), steps[|steps| - 1])
  }

  // ---------------------------------------------------------------- the inductive invariant

  ghost predicate WorkerOk(w: Worker, tick: nat) {
    && w.claimedAt < tick
    && (w.wroteAt.Some? ==> w.claimedAt < w.wroteAt.value < tick)
    && (w.landedAt.Some? ==> w.phase.Finished? && w.claimedAt < w.landedAt.value < tick)
    && (w.wroteAt.Some? && w.landedAt.Some? ==> w.wroteAt.value < w.landedAt.value)
    && (w.phase in {Claimed, Existing, Missing} ==> w.wroteAt.None?)
    && (w.phase.Finished? ==> (w.landedAt.Some? <==> w.phase.report != FencedOut))
  }

  ghost predicate Workers(s: System) {
    forall t :: t in s.workers ==>
      t < s.nextToken && s.workers[t].job in s.rows && WorkerOk(s.workers[t], s.tick)
  }

  /** Later claims of a job come after everything an earlier claim wrote. */
  ghost predicate Precedes(v: Worker, w: Worker) {
    && v.claimedAt < w.claimedAt
    && (v.wroteAt.Some? ==> v.wroteAt.value < w.claimedAt)
    && (v.landedAt.Some? ==> v.landedAt.value < w.claimedAt)
  }

  ghost predicate AllSerial(s: System) {
    forall t, u :: t in s.workers && u in s.workers && t != u && s.workers[t].job == s.workers[u].job
      ==> Precedes(s.workers[t], s.workers[u]) || Precedes(s.workers[u], s.workers[t])
  }

  predicate OlderThan(s: System, k: ItemId, u: Token, t: Token)
    requires t in s.workers
  {
    u in s.workers && s.workers[u].job == k && u != t ==> s.workers[u].claimedAt < s.workers[t].claimedAt
  }

  ghost predicate LeaseBacked(s: System, k: ItemId, r: Row) {
    && r.lease.Some? && r.lease.value.token in s.workers
    && s.workers[r.lease.value.token].job == k && s.workers[r.lease.value.token].landedAt.None?
    && (forall u :: OlderThan(s, k, u, r.lease.value.token))
  }

  /** The token in a leased row belongs to the newest claim of the row. */
  ghost predicate Leases(s: System) {
    forall k :: k in s.rows && s.rows[k].status == Leased ==> LeaseBacked(s, k, s.rows[k])
  }

  /** While a worker holds its row, the attempt number it read earlier is the one in the row. */
  ghost predicate Snapshots(s: System) {
    forall t :: t in s.workers && s.workers[t].phase != Claimed && s.workers[t].job in s.rows
        && HeldBy(s.rows[s.workers[t].job], t)
      ==> s.workers[t].attempts == s.rows[s.workers[t].job].attempts
  }

  ghost predicate Bounded(cfg: Config, r: Row) {
    && r.attempts <= cfg.maxAttempts
    && (r.status == Retry ==> r.attempts < cfg.maxAttempts)
    && (r.status == Queued ==> r.attempts == 0)
  }

  ghost predicate Bounds(cfg: Config, s: System) {
    forall k :: k in s.rows ==> Bounded(cfg, s.rows[k])
  }

  /** What is left of a row's life: two changes for every attempt still allowed. */
  function Measure(cfg: Config, r: Row): int {
    if Waiting(r) then 2 * (cfg.maxAttempts - r.attempts)
    else if r.status == Leased then 2 * (cfg.maxAttempts - r.attempts) + 1
    else 0
  }

  ghost predicate Terminating(cfg: Config, s: System) {
    forall k :: k in s.rows ==> Count(s.changes, k) + Measure(cfg, s.rows[k]) <= 2 * cfg.maxAttempts
  }

  ghost predicate Tracked(s: System) {
    s.changes.Keys <= s.rows.Keys
  }

  ghost predicate Capped(s: System) {
    && |ActiveItems(s.rows)| <= MAX_PENDING
    && (s.admission.Some? ==> |ActiveItems(s.rows)| + s.admission.value.slots <= MAX_PENDING)
  }

  ghost predicate Inv(cfg: Config, s: System) {
    && Workers(s) && AllSerial(s) && Leases(s) && Snapshots(s) && Bounds(cfg, s) && Terminating(cfg, s)
    && Tracked(s) && Capped(s)
  }

  // ---------------------------------------------------------------- what one step can do

  predicate ExpiredRow(cfg: Config, r: Row, q: Row) {
    r.status == Leased && q.attempts == r.attempts
    && (q.status == Failed || (q.status == Retry && r.attempts < cfg.maxAttempts))
  }

  predicate ClaimedRow(s: System, after: System, k: ItemId, r: Row, q: Row) {
    && Waiting(r) && q.attempts == r.attempts + 1 && HeldBy(q, s.nextToken)
    && s.nextToken in after.workers && s.nextToken !in s.workers && after.workers[s.nextToken].job == k
  }

  predicate LandedRow(cfg: Config, s: System, after: System, k: ItemId, r: Row, q: Row) {
    && r.status == Leased && q.attempts == r.attempts
    && (q.status == Done || q.status == Failed || (q.status == Retry && r.attempts < cfg.maxAttempts))
  }

  predicate RowStep(cfg: Config, s: System, after: System, k: ItemId)
    requires k in s.rows && k in after.rows
  {
    var r, q := s.rows[k], after.rows[k];
    q == r || ExpiredRow(cfg, r, q) || ClaimedRow(s, after, k, r, q) || LandedRow(cfg, s, after, k, r, q)
  }

  predicate Holds(s: System, t: Token, job: ItemId) {
    job in s.rows && HeldBy(s.rows[job], t)
  }

  ghost predicate WorkerStep(s: System, after: System, t: Token)
    requires t in s.workers && t in after.workers
  {
    var v, w := s.workers[t], after.workers[t];
    || w == v
    || (&& w.job == v.job && w.claimedAt == v.claimedAt && v.landedAt.None? && w.phase != Claimed
        && WorkerOk(w, after.tick)
        && (w.wroteAt == v.wroteAt || (w.wroteAt == Some(s.tick) && Holds(s, t, w.job)))
        && (w.landedAt.None? || (w.landedAt == Some(s.tick) && Holds(s, t, w.job) && !Holds(after, t, w.job)))
        && (v.phase != Claimed ==> w.attempts == v.attempts)
        && (v.phase == Claimed ==>
              && w.job in s.rows && w.attempts == s.rows[w.job].attempts
              && w.job in after.rows && after.rows[w.job] == s.rows[w.job]))
  }

  predicate FreshWorker(s: System, after: System, t: Token)
    requires t in after.workers
  {
    var w := after.workers[t];
    && t == s.nextToken && after.nextToken == t + 1
    && w == Worker(w.job, Claimed, 0, s.tick, None, None)
    && w.job in s.rows && w.job in after.rows && Waiting(s.rows[w.job]) && HeldBy(after.rows[w.job], t)
  }

  ghost predicate Transition(cfg: Config, s: System, after: System) {
    && after.tick == s.tick + 1
    && s.rows.Keys <= after.rows.Keys
    && s.workers.Keys <= after.workers.Keys
    && s.nextToken <= after.nextToken
    && after.changes == Bump(s.changes, s.rows, after.rows)
    && (forall k :: k in s.rows ==> RowStep(cfg, s, after, k))
    && (forall k :: k in after.rows && k !in s.rows ==> after.rows[k].status == Queued && after.rows[k].attempts == 0)
    && (forall t :: t in s.workers ==> WorkerStep(s, after, t))
    && (forall t :: t in after.workers && t !in s.workers ==> FreshWorker(s, after, t))
  }

  // ---------------------------------------------------------------- the invariant survives a transition

  lemma KeepsWorkers(cfg: Config, s: System, after: System)
    requires Transition(cfg, s, after) && Workers(s)
    ensures Workers(after)
  {
  }

  lemma KeepsSerial(cfg: Config, s: System, after: System)
    requires Transition(cfg, s, after) && Workers(s) && Leases(s) && AllSerial(s)
    ensures AllSerial(after)
  {
    forall t, u | t in after.workers && u in after.workers && t != u && after.workers[t].job == after.workers[u].job
      ensures Precedes(after.workers[t], after.workers[u]) || Precedes(after.workers[u], after.workers[t])
    {
      if t in s.workers && u in s.workers {
        assert WorkerStep(s, after, t) && WorkerStep(s, after, u);
        if Precedes(s.workers[t], s.workers[u]) {
          OldPairStaysSerial(cfg, s, after, t, u);
        } else {
          OldPairStaysSerial(cfg, s, after, u, t);
        }
      } else if t in s.workers {
        NewClaimFollows(cfg, s, after, t, u);
      } else if u in s.workers {
        NewClaimFollows(cfg, s, after, u, t);
      }
    }
  }

  /** Only the newest claim can hold the row, so only it can write. */
  lemma OldPairStaysSerial(cfg: Config, s: System, after: System, t: Token, u: Token)
    requires Leases(s) && t in s.workers && u in s.workers && t in after.workers && u in after.workers && t != u
    requires s.workers[t].job == s.workers[u].job && Precedes(s.workers[t], s.workers[u])
    requires WorkerStep(s, after, t) && WorkerStep(s, after, u)
    ensures Precedes(after.workers[t], after.workers[u])
  {
    var k := s.workers[t].job;
    if Holds(s, t, k) {
      assert LeaseBacked(s, k, s.rows[k]);
      assert OlderThan(s, k, u, t);
    }
  }

  lemma NewClaimFollows(cfg: Config, s: System, after: System, t: Token, u: Token)
    requires Transition(cfg, s, after) && Workers(s)
    requires t in s.workers && u in after.workers && u !in s.workers && after.workers[t].job == after.workers[u].job
    ensures Precedes(after.workers[t], after.workers[u])
  {
    assert WorkerStep(s, after, t) && FreshWorker(s, after, u);
    assert WorkerOk(s.workers[t], s.tick);
  }

  lemma KeepsLeases(cfg: Config, s: System, after: System)
    requires Transition(cfg, s, after) && Workers(s) && Leases(s)
    ensures Leases(after)
  {
    forall k | k in after.rows && after.rows[k].status == Leased
      ensures LeaseBacked(after, k, after.rows[k])
    {
      assert k in s.rows;
      assert RowStep(cfg, s, after, k);
      if after.rows[k] == s.rows[k] {
        KeepsOldLease(cfg, s, after, k);
      } else {
        BacksNewLease(cfg, s, after, k);
      }
    }
  }

  lemma KeepsOldLease(cfg: Config, s: System, after: System, k: ItemId)
    requires Transition(cfg, s, after) && k in s.rows && k in after.rows && after.rows[k] == s.rows[k]
    requires s.rows[k].status == Leased && LeaseBacked(s, k, s.rows[k])
    ensures LeaseBacked(after, k, after.rows[k])
  {
    var t := s.rows[k].lease.value.token;
    assert WorkerStep(s, after, t);
    forall u
      ensures OlderThan(after, k, u, t)
    {
      if u in s.workers {
        assert WorkerStep(s, after, u) && OlderThan(s, k, u, t);
      } else if u in after.workers {
        assert FreshWorker(s, after, u);
      }
    }
  }

  lemma BacksNewLease(cfg: Config, s: System, after: System, k: ItemId)
    requires Transition(cfg, s, after) && Workers(s) && k in s.rows && k in after.rows
    requires ClaimedRow(s, after, k, s.rows[k], after.rows[k])
    ensures LeaseBacked(after, k, after.rows[k])
  {
    var t := s.nextToken;
    assert FreshWorker(s, after, t);
    forall u
      ensures OlderThan(after, k, u, t)
    {
      if u in s.workers {
        assert WorkerStep(s, after, u) && WorkerOk(s.workers[u], s.tick);
      } else if u in after.workers {
        assert FreshWorker(s, after, u);
      }
    }
  }

  lemma KeepsSnapshots(cfg: Config, s: System, after: System)
    requires Transition(cfg, s, after) && Workers(s) && Leases(s) && Snapshots(s)
    ensures Snapshots(after)
  {
    forall t | t in after.workers && after.workers[t].phase != Claimed && after.workers[t].job in after.rows
        && HeldBy(after.rows[after.workers[t].job], t)
      ensures after.workers[t].attempts == after.rows[after.workers[t].job].attempts
    {
      assert t !in s.workers ==> FreshWorker(s, after, t);
      assert WorkerStep(s, after, t);
      assert RowStep(cfg, s, after, s.workers[t].job);
    }
  }

  /** One row under one step: its bounds survive, and a change costs at least one unit of what is left of its life. */
  lemma RowSpends(cfg: Config, s: System, after: System, k: ItemId)
    requires k in s.rows && k in after.rows && RowStep(cfg, s, after, k) && Bounded(cfg, s.rows[k]) && cfg.maxAttempts >= 1
    ensures Bounded(cfg, after.rows[k])
    ensures Measure(cfg, after.rows[k]) + (if s.rows[k] != after.rows[k] then 1 else 0) <= Measure(cfg, s.rows[k])
  {
  }

  lemma KeepsBounds(cfg: Config, s: System, after: System)
    requires Transition(cfg, s, after) && Bounds(cfg, s) && Terminating(cfg, s) && Tracked(s) && cfg.maxAttempts >= 1
    ensures Bounds(cfg, after) && Terminating(cfg, after) && Tracked(after)
  {
    forall k | k in after.rows
      ensures Bounded(cfg, after.rows[k])
      ensures Count(after.changes, k) + Measure(cfg, after.rows[k]) <= 2 * cfg.maxAttempts
    {
      if k in s.rows {
        RowSpends(cfg, s, after, k);
        assert Count(s.changes, k) + Measure(cfg, s.rows[k]) <= 2 * cfg.maxAttempts;
      }
    }
  }

  /** Apart from an admission, no step makes a row active that was not. */
  lemma ActiveShrinks(cfg: Config, s: System, after: System)
    requires Transition(cfg, s, after) && after.rows.Keys == s.rows.Keys
    ensures |ActiveItems(after.rows)| <= |ActiveItems(s.rows)|
  {
    forall k | k in ActiveItems(after.rows)
      ensures k in ActiveItems(s.rows)
    {
      assert RowStep(cfg, s, after, k);
    }
    SubsetSize(ActiveItems(after.rows), ActiveItems(s.rows));
  }

  // ---------------------------------------------------------------- every step is such a transition

  lemma QuietIsTransition(cfg: Config, s: System, step: Step)
    requires step.BeginAdmission? || step.FinishAdmission? || step.Expire? || step.ForeignDetail?
    ensures Transition(cfg, s, Next(cfg, s, step))
  {
  }

  lemma ClaimIsTransition(cfg: Config, s: System, job: ItemId, now: Time, leaseSeconds: nat)
    requires Workers(s)
    ensures Transition(cfg, s, Next(cfg, s, Claim(job, now, leaseSeconds)))
  {
    var after := Next(cfg, s, Claim(job, now, leaseSeconds));
    assert s.nextToken !in s.workers;
    if job in s.rows && Ready(s.rows[job], now) {
      assert ClaimedRow(s, after, job, s.rows[job], after.rows[job]);
      assert forall k :: k in s.rows && k != job ==> after.rows[k] == s.rows[k];
    }
  }

  /** A step that only replaces worker `t` is a transition when the worker's own step is. */
  lemma LocalIsTransition(cfg: Config, s: System, after: System, t: Token)
    requires after.tick == s.tick + 1 && after.rows == s.rows && after.nextToken == s.nextToken
    requires after.changes == Bump(s.changes, s.rows, after.rows)
    requires after.workers.Keys == s.workers.Keys
    requires forall u :: u in s.workers && u != t ==> after.workers[u] == s.workers[u]
    requires t in s.workers ==> WorkerStep(s, after, t)
    ensures Transition(cfg, s, after)
  {
  }

  ghost predicate Healthy(s: System, t: Token) {
    t in s.workers ==> WorkerOk(s.workers[t], s.tick)
  }

  lemma LoadIsTransition(cfg: Config, s: System, t: Token)
    requires Healthy(s, t)
    ensures Transition(cfg, s, Next(cfg, s, Load(t)))
  {
    LocalIsTransition(cfg, s, Next(cfg, s, Load(t)), t);
  }

  lemma ReconcileIsTransition(cfg: Config, s: System, t: Token, now: Time, hashed: bool)
    requires Healthy(s, t)
    ensures Transition(cfg, s, Next(cfg, s, Reconcile(t, now, hashed)))
  {
    LocalIsTransition(cfg, s, Next(cfg, s, Reconcile(t, now, hashed)), t);
  }

  lemma PersistIsTransition(cfg: Config, s: System, t: Token, now: Time, stored: bool)
    requires Healthy(s, t)
    ensures Transition(cfg, s, Next(cfg, s, Persist(t, now, stored)))
  {
    LocalIsTransition(cfg, s, Next(cfg, s, Persist(t, now, stored)), t);
  }

  lemma InspectIsTransition(cfg: Config, s: System, t: Token, payload: bool)
    requires Healthy(s, t)
    ensures Transition(cfg, s, Next(cfg, s, Inspect(t, payload)))
  {
    LocalIsTransition(cfg, s, Next(cfg, s, Inspect(t, payload)), t);
  }

  lemma WriteBackIsTransition(cfg: Config, s: System, t: Token, now: Time)
    requires Healthy(s, t)
    requires t in s.workers && s.workers[t].phase.Settled? && Holds(s, t, s.workers[t].job) ==>
      s.workers[t].attempts == s.rows[s.workers[t].job].attempts
    ensures Transition(cfg, s, Next(cfg, s, WriteBack(t, now)))
  {
    var after := Next(cfg, s, WriteBack(t, now));
    if t in s.workers && s.workers[t].phase.Settled? && s.workers[t].job in s.rows {
      WriteBackRows(cfg, s, t, now);
      assert WorkerStep(s, after, t);
      assert forall u :: u in s.workers && u != t ==> after.workers[u] == s.workers[u];
    }
  }

  lemma WriteBackRows(cfg: Config, s: System, t: Token, now: Time)
    requires t in s.workers && s.workers[t].phase.Settled? && s.workers[t].job in s.rows
    requires Holds(s, t, s.workers[t].job) ==> s.workers[t].attempts == s.rows[s.workers[t].job].attempts
    ensures var after := Next(cfg, s, WriteBack(t, now));
      && after.rows.Keys == s.rows.Keys && after.nextToken == s.nextToken && after.workers.Keys == s.workers.Keys
      && forall k :: k in s.rows ==> RowStep(cfg, s, after, k)
  {
    var after := Next(cfg, s, WriteBack(t, now));
    var job := s.workers[t].job;
    if LiveUnder(s.rows[job], t, now) {
      assert LandedRow(cfg, s, after, job, s.rows[job], after.rows[job]);
    }
    assert forall k :: k in s.rows && k != job ==> after.rows[k] == s.rows[k];
  }

  lemma NextIsTransition(cfg: Config, s: System, step: Step)
    requires Inv(cfg, s)
    ensures Transition(cfg, s, Next(cfg, s, step))
  {
    assert forall t :: Healthy(s, t);
    match step
    case BeginAdmission(_) => QuietIsTransition(cfg, s, step);
    case FinishAdmission(_) => QuietIsTransition(cfg, s, step);
    case Expire(_) => QuietIsTransition(cfg, s, step);
    case ForeignDetail(_) => QuietIsTransition(cfg, s, step);
    case Claim(job, now, leaseSeconds) => ClaimIsTransition(cfg, s, job, now, leaseSeconds);
    case Load(t) => LoadIsTransition(cfg, s, t);
    case Reconcile(t, now, hashed) => ReconcileIsTransition(cfg, s, t, now, hashed);
    case Persist(t, now, stored) => PersistIsTransition(cfg, s, t, now, stored);
    case Inspect(t, payload) => InspectIsTransition(cfg, s, t, payload);
    case WriteBack(t, now) => WriteBackIsTransition(cfg, s, t, now);
  }

  lemma KeepsCap(cfg: Config, s: System, step: Step)
    requires Capped(s) && Transition(cfg, s, Next(cfg, s, step))
    ensures Capped(Next(cfg, s, step))
  {
    var after := Next(cfg, s, step);
    if step.FinishAdmission? && s.admission.Some? {
      var p := s.admission.value;
      InsertSlots(s.rows, Admitted(p.candidates, s.cursor, p.slots), s.nextPk, step.now);
    } else {
      OnlyAdmissionInserts(cfg, s, step);
      ActiveShrinks(cfg, s, after);
    }
  }

  lemma OnlyAdmissionInserts(cfg: Config, s: System, step: Step)
    requires !(step.FinishAdmission? && s.admission.Some?)
    ensures Next(cfg, s, step).rows.Keys == s.rows.Keys
    ensures Next(cfg, s, step).admission == s.admission
      || (step.BeginAdmission? && Next(cfg, s, step).admission.Some? && Next(cfg, s, step).rows == s.rows
          && Next(cfg, s, step).admission.value.slots == FreeSlots(s.rows))
  {
  }

  lemma NextKeepsInv(cfg: Config, s: System, step: Step)
    requires Inv(cfg, s) && cfg.maxAttempts >= 1
    ensures Inv(cfg, Next(cfg, s, step))
  {
    var after := Next(cfg, s, step);
    NextIsTransition(cfg, s, step);
    KeepsWorkers(cfg, s, after);
    KeepsSerial(cfg, s, after);
    KeepsLeases(cfg, s, after);
    KeepsSnapshots(cfg, s, after);
    KeepsBounds(cfg, s, after);
    KeepsCap(cfg, s, step);
  }

  lemma {:induction false} RunKeepsInv(cfg: Config, steps: seq<Step>)
    requires cfg.maxAttempts >= 1
    ensures Inv(cfg, Run(cfg, steps))
  {
    if steps == [] {
      assert ActiveItems(Start().rows) == {};
    } else {
      RunKeepsInv(cfg, steps[..|steps| - 1]);
      NextKeepsInv(cfg, Run(cfg, steps[..|steps| - 1]), steps[|steps| - 1]);
    }
  }

  // ---------------------------------------------------------------- the theorems over whole runs

  lemma ActiveItemsAre(rows: Rows)
    ensures ActiveItems(rows) == set k | k in rows && rows[k].status in {Queued, Leased, Retry}
  {
  }

  /** In every reachable state at most 1000 preparation jobs are queued, leased or waiting to retry. */
  lemma PendingIsCapped(cfg: Config, steps: seq<Step>)
    requires cfg.maxAttempts >= 1
    ensures |set k | k in Run(cfg, steps).rows && Run(cfg, steps).rows[k].status in {Queued, Leased, Retry}| <= 1000
  {
    RunKeepsInv(cfg, steps);
    ActiveItemsAre(Run(cfg, steps).rows);
  }

  /** Every row is changed at most twice per allowed attempt, and attempts never pass the allowance. */
  lemma RowsTerminate(cfg: Config, steps: seq<Step>, k: ItemId)
    requires cfg.maxAttempts >= 1 && k in Run(cfg, steps).rows
    ensures var s := Run(cfg, steps);
      && s.rows[k].attempts <= cfg.maxAttempts
      && (s.rows[k].status == Retry ==> s.rows[k].attempts < cfg.maxAttempts)
      && Count(s.changes, k) <= 2 * cfg.maxAttempts
      && (Count(s.changes, k) == 2 * cfg.maxAttempts ==> s.rows[k].status in {Done, Failed, Superseded, OutcomeUnknown})
  {
    RunKeepsInv(cfg, steps);
    var s := Run(cfg, steps);
    assert Bounded(cfg, s.rows[k]);
    assert Count(s.changes, k) + Measure(cfg, s.rows[k]) <= 2 * cfg.maxAttempts;
  }

  /** All guarded writes of one claim happen before the next claim of the same job. */
  lemma WritesPrecedeNextClaim(cfg: Config, steps: seq<Step>, t: Token, u: Token)
    requires cfg.maxAttempts >= 1
    requires var s := Run(cfg, steps);
      t in s.workers && u in s.workers && s.workers[t].job == s.workers[u].job && t != u
      && s.workers[t].claimedAt <= s.workers[u].claimedAt
    ensures var s := Run(cfg, steps);
      && s.workers[t].claimedAt < s.workers[u].claimedAt
      && (s.workers[t].wroteAt.Some? ==> s.workers[t].claimedAt < s.workers[t].wroteAt.value < s.workers[u].claimedAt)
      && (s.workers[t].landedAt.Some? ==> s.workers[t].landedAt.value < s.workers[u].claimedAt)
  {
    RunKeepsInv(cfg, steps);
    var s := Run(cfg, steps);
    assert !Precedes(s.workers[u], s.workers[t]);
    assert WorkerOk(s.workers[t], s.tick);
  }

  /** The lease of the row, in its columns, is this token's and has not run out. */
  predicate InForce(r: Row, t: Token, now: Time) {
    r.status == Leased && r.lease.Some? && r.lease.value.token == t && now < r.lease.value.until
  }

  /** The step at which a guarded write happened: its job was leased under the writer's unexpired token. */
  predicate FencedAt(cfg: Config, steps: seq<Step>, t: Token, i: nat) {
    && i < |steps| && (steps[i].Persist? || steps[i].Reconcile?) && steps[i].token == t
    && var s := Run(cfg, steps[..i]);
       t in s.workers && s.workers[t].job in s.rows && InForce(s.rows[s.workers[t].job], t, steps[i].now)
  }

  lemma {:induction false} TickCounts(cfg: Config, steps: seq<Step>)
    ensures Run(cfg, steps).tick == |steps|
  {
    if steps == [] {
    } else {
      TickCounts(cfg, steps[..|steps| - 1]);
    }
  }

  lemma WriteNeedsLease(cfg: Config, s: System, step: Step, t: Token)
    requires t in Next(cfg, s, step).workers && Next(cfg, s, step).workers[t].wroteAt.Some?
    requires !(t in s.workers && s.workers[t].wroteAt == Next(cfg, s, step).workers[t].wroteAt)
    ensures Next(cfg, s, step).workers[t].wroteAt.value == s.tick
    ensures (step.Persist? || step.Reconcile?) && step.token == t
    ensures t in s.workers && s.workers[t].job in s.rows && LiveUnder(s.rows[s.workers[t].job], t, step.now)
  {
  }

  /** A stale worker never writes: every guarded write happened while the job was leased under the
      writer's own token and before that lease ran out. */
  lemma {:induction false} GuardedWritesAreFenced(cfg: Config, steps: seq<Step>, t: Token)
    requires t in Run(cfg, steps).workers && Run(cfg, steps).workers[t].wroteAt.Some?
    ensures FencedAt(cfg, steps, t, Run(cfg, steps).workers[t].wroteAt.value)
  {
    if steps == [] {
      assert false;
    } else {
      var n := |steps| - 1;
      var s := Run(cfg, steps[..n]);
      TickCounts(cfg, steps[..n]);
      if t in s.workers && s.workers[t].wroteAt == Run(cfg, steps).workers[t].wroteAt {
        GuardedWritesAreFenced(cfg, steps[..n], t);
        var i := s.workers[t].wroteAt.value;
        assert steps[..n][..i] == steps[..i];
      } else {
        WriteNeedsLease(cfg, s, steps[n], t);
      }
    }
  }

  /** Only a guarded write or another writer adds detail; a worker whose lease is gone adds none. */
  lemma StaleWorkerAddsNoDetail(cfg: Config, s: System, step: Step)
    requires !step.ForeignDetail? && Next(cfg, s, step).detail != s.detail
    ensures step.Persist? && step.token in s.workers
    ensures var job := s.workers[step.token].job;
      job in s.rows && LiveUnder(s.rows[job], step.token, step.now) && Next(cfg, s, step).detail == s.detail + {job}
  {
  }

  /** DONE and FAILED rows never change again. */
  lemma {:induction false} FinishedRowsStay(cfg: Config, steps: seq<Step>, more: seq<Step>, k: ItemId)
    requires cfg.maxAttempts >= 1 && k in Run(cfg, steps).rows && Run(cfg, steps).rows[k].status in {Done, Failed}
    ensures k in Run(cfg, steps + more).rows && Run(cfg, steps + more).rows[k] == Run(cfg, steps).rows[k]
    decreases |more|
  {
    if more == [] {
      assert steps + more == steps;
    } else {
      var before := steps + more[..|more| - 1];
      FinishedRowsStay(cfg, steps, more[..|more| - 1], k);
      var last := more[|more| - 1];
      assert (steps + more)[..|steps + more| - 1] == before && (steps + more)[|steps + more| - 1] == last;
      RunKeepsInv(cfg, before);
      StepKeepsFinished(cfg, Run(cfg, before), last, k);
      assert Run(cfg, steps + more) == Next(cfg, Run(cfg, before), last);
    }
  }

  lemma StepKeepsFinished(cfg: Config, s: System, step: Step, k: ItemId)
    requires Inv(cfg, s) && k in s.rows && s.rows[k].status in {Done, Failed}
    ensures k in Next(cfg, s, step).rows && Next(cfg, s, step).rows[k] == s.rows[k]
  {
    NextIsTransition(cfg, s, step);
    assert RowStep(cfg, s, Next(cfg, s, step), k);
  }

  /** A worker reports 'fenced' exactly when its status write did not land. */
  lemma ReportsAreHonest(cfg: Config, steps: seq<Step>, t: Token)
    requires cfg.maxAttempts >= 1 && t in Run(cfg, steps).workers && Run(cfg, steps).workers[t].phase.Finished?
    ensures Run(cfg, steps).workers[t].landedAt.None? <==> Run(cfg, steps).workers[t].phase == Finished(FencedOut)
  {
    RunKeepsInv(cfg, steps);
    assert WorkerOk(Run(cfg, steps).workers[t], Run(cfg, steps).tick);
  }
}
