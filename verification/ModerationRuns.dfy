/** Any number of workers, enqueues, detail writes and clocks interleaved on the moderation outbox.
    One step is one database statement or transaction, or one end of a classifier call. */
module ModerationRuns {
  import opened Prelude
  import opened JobQueue
  import opened ModerationOutbox

  datatype WorkerConfig = WorkerConfig(maxAttempts: int, base: int, cap: int)

  /** What a classifier call may do: raise, return a typed outcome, a stored judgment, or anything else. */
  datatype Outcome = Raised | Typed(kind: string, code: string) | Verdict(judgment: Judgment) | Other

  datatype Report = FencedOut | SupersededOut | ReusedOut | DoneOut | FailedOut | RetryOut | UnknownOut

  /** The write a worker has decided on. */
  datatype Write = Finish(status: Status, report: Report) | Exhaust | Reschedule(delay: int)

  /** Where process_claim stands between two database statements. */
  datatype Phase =
    | Claimed
    | Loaded
    | Unjudged
    | Calling
    | Answered(outcome: Outcome)
    | Retrying(delay: int)
    | Settled(write: Write)
    | Finished(report: Report)

  /** One process_claim invocation. `answer` keeps the classifier's answer, and the last four fields record at which step of the run the claim,
      the start and end of the classifier call, and the landing of the worker's own write happened. */
  datatype Worker = Worker(job: Identity, phase: Phase, attempts: nat, answer: Option<Outcome>, claimedAt: nat,
                           callStart: Option<nat>, callEnd: Option<nat>, landedAt: Option<nat>)

  datatype System = System(db: Db, workers: map<Token, Worker>, tick: nat, revivals: multiset<Identity>)

  datatype Step =
    | Claim(job: Identity, now: Time, leaseSeconds: nat)
    | Expire(now: Time)
    | Load(token: Token)
    | CheckSuccess(token: Token)
    | CheckBuild(token: Token)
    | EndCall(token: Token, outcome: Outcome)
    | Refresh(token: Token)
    | ReadAttempts(token: Token)
    | WriteBack(token: Token, now: Time)
    | DetailWrite(item: ItemId, built: Built, complete: bool, now: Time)
    | Reconcile(item: ItemId, now: Time)
    | AdmitMissing(job: Identity, now: Time)
    | ChangeBuilder(item: ItemId, built: Built)
    | ChangeSettings(settings: Settings)
    | StoreJudgment(judgment: Judgment)

  predicate Retryable(code: string) {
    code == "typesafe_config" || code == "typesafe_rate_limited"
  }

  /** What process_claim does with the classifier's answer once the item's hash has been re-read. */
  function Decide(cfg: WorkerConfig, w: Worker, outcome: Outcome, current: bool): Phase {
    if !current then Settled(Finish(Superseded, SupersededOut))
    else match outcome
      case Typed(kind, code) =>
        if kind == "skipped" && code == "moderation_disabled" then Retrying(Min(cfg.cap, Max(1, cfg.base)))
        else if kind == "skipped" then Settled(Finish(Failed, FailedOut))
        else if kind == "unavailable" && Retryable(code) then Retrying(BackoffDelay(w.attempts, cfg.base, cfg.cap))
        else Settled(Finish(OutcomeUnknown, UnknownOut))
      case Verdict(j) =>
        if j.complete && j.hash == w.job.hash && j.item == w.job.item then Settled(Finish(Done, DoneOut))
        else Settled(Finish(OutcomeUnknown, UnknownOut))
      case _ => Settled(Finish(OutcomeUnknown, UnknownOut))
  }

  predicate Outdated(built: map<ItemId, Built>, job: Identity) {
    job.item in built && built[job.item].BuiltHash? && built[job.item].hash != job.hash
  }

  predicate At(s: System, t: Token, phase: Phase) {
    t in s.workers && s.workers[t].phase == phase && s.workers[t].job in s.db.rows
  }

  function Move(s: System, t: Token, w: Worker): System {
    s.(workers := s.workers[t := w])
  }

  function DoClaim(s: System, job: Identity, now: Time, leaseSeconds: nat): System {
    if job !in s.db.rows || !Ready(s.db.rows[job], now) then s
    else
      var t := s.db.nextToken;
      var row := LeaseRow(s.db.rows[job], t, now + leaseSeconds);
      s.(db := s.db.(rows := s.db.rows[job := row], nextToken := t + 1),
         workers := s.workers[t := Worker(job, Claimed, 0, None, s.tick, None, None, None)])
  }

  function DoLoad(s: System, t: Token): System {
    if !At(s, t, Claimed) then s
    else
      var w := s.workers[t];
      var row := s.db.rows[w.job];
      if !HeldBy(row, t) then Move(s, t, w.(phase := Finished(FencedOut)))
      else if CurrentIn(s.db.currentHash, s.db.settings, w.job) then
        Move(s, t, w.(phase := Loaded, attempts := row.attempts))
      else Move(s, t, w.(phase := Settled(Finish(Superseded, SupersededOut)), attempts := row.attempts))
  }

  function DoCheckSuccess(s: System, t: Token): System {
    if !At(s, t, Loaded) then s
    else
      var w := s.workers[t];
      if HasSuccess(s.db.judgments, w.job) then Move(s, t, w.(phase := Settled(Finish(Done, ReusedOut))))
      else Move(s, t, w.(phase := Unjudged))
  }

  function DoCheckBuild(s: System, t: Token): System {
    if !At(s, t, Unjudged) then s
    else
      var w := s.workers[t];
      if Outdated(s.db.built, w.job) then Move(s, t, w.(phase := Settled(Finish(Superseded, SupersededOut))))
      else Move(s, t, w.(phase := Calling, callStart := Some(s.tick)))
  }

  function DoEndCall(s: System, t: Token, outcome: Outcome): System {
    if !At(s, t, Calling) then s
    else
      var w := s.workers[t];
      var phase := if outcome.Raised? then Settled(Finish(OutcomeUnknown, UnknownOut)) else Answered(outcome);
      var judgments := if outcome.Verdict? then s.db.judgments + {outcome.judgment} else s.db.judgments;
      Move(s.(db := s.db.(judgments := judgments)), t, w.(phase := phase, answer := Some(outcome), callEnd := Some(s.tick)))
  }

  function DoRefresh(cfg: WorkerConfig, s: System, t: Token): System {
    if t !in s.workers || !s.workers[t].phase.Answered? then s
    else
      var w := s.workers[t];
      var current := CurrentIn(s.db.currentHash, s.db.settings, w.job);
      Move(s, t, w.(phase := Decide(cfg, w, w.phase.outcome, current)))
  }

  function DoReadAttempts(cfg: WorkerConfig, s: System, t: Token): System {
    if t !in s.workers || !s.workers[t].phase.Retrying? || s.workers[t].job !in s.db.rows then s
    else
      var w := s.workers[t];
      var row := s.db.rows[w.job];
      if !HeldBy(row, t) then Move(s, t, w.(phase := Finished(FencedOut)))
      else if row.attempts >= cfg.maxAttempts then Move(s, t, w.(phase := Settled(Exhaust)))
      else Move(s, t, w.(phase := Settled(Reschedule(w.phase.delay))))
  }

  function Written(r: Row, t: Token, write: Write, now: Time): Row {
    match write
    case Finish(status, _) => FinishRow(r, t, status)
    case Exhaust => FinishRow(r, t, Failed)
    case Reschedule(delay) => RetryRow(r, t, now + Max(1, delay))
  }

  function ReportOf(write: Write, landed: bool): Report {
    match write
    case Finish(_, report) => if landed then report else FencedOut
    case Exhaust => FailedOut
    case Reschedule(_) => if landed then RetryOut else FencedOut
  }

  function DoWriteBack(s: System, t: Token, now: Time): System {
    if t !in s.workers || !s.workers[t].phase.Settled? || s.workers[t].job !in s.db.rows then s
    else
      var w := s.workers[t];
      var row := s.db.rows[w.job];
      var landed := HeldBy(row, t);
      Move(s.(db := s.db.(rows := s.db.rows[w.job := Written(row, t, w.phase.write, now)])), t,
           w.(phase := Finished(ReportOf(w.phase.write, landed)),
              landedAt := if landed then Some(s.tick) else None))
  }

  function Revived(before: Rows, after: Rows): set<Identity> {
    set k | k in before && k in after && before[k].status == Superseded && after[k].status == Queued
  }

  /** Installs the result of an enqueue and counts the rows it revived. */
  function Requeue(s: System, db: Db): System {
    s.(db := db, revivals := s.revivals + multiset(Revived(s.db.rows, db.rows)))
  }

  function Act(cfg: WorkerConfig, s: System, step: Step): System {
    match step
    case Claim(job, now, leaseSeconds) => DoClaim(s, job, now, leaseSeconds)
    case Expire(now) => s.(db := s.db.(rows := ExpireAll(s.db.rows, now)))
    case Load(t) => DoLoad(s, t)
    case CheckSuccess(t) => DoCheckSuccess(s, t)
    case CheckBuild(t) => DoCheckBuild(s, t)
    case EndCall(t, outcome) => DoEndCall(s, t, outcome)
    case Refresh(t) => DoRefresh(cfg, s, t)
    case ReadAttempts(t) => DoReadAttempts(cfg, s, t)
    case WriteBack(t, now) => DoWriteBack(s, t, now)
    case DetailWrite(item, built, complete, now) => Requeue(s, WriteDetail(s.db, item, built, complete, now))
    case Reconcile(item, now) => Requeue(s, Rehash(s.db, item, now))
    case AdmitMissing(job, now) => Requeue(s, InsertIgnore(s.db, job, now))
    case ChangeBuilder(item, built) => s.(db := s.db.(built := s.db.built[item := built]))
    case ChangeSettings(settings) => s.(db := s.db.(settings := settings))
    case StoreJudgment(j) => s.(db := s.db.(judgments := s.db.judgments + {j}))
  }

  function Next(cfg: WorkerConfig, s: System, step: Step): System {
    var after := Act(cfg, s, step);
    after.(tick := s.tick + 1)
  }

  function Start(settings: Settings): System {
    System(Db(map[], 0, 0, {}, map[], map[], {}, settings), map[], 0, multiset{})
  }

  function Run(cfg: WorkerConfig, s: System, steps: seq<Step>): System {
    if steps == [] then s else Next(cfg, Run(cfg, s, steps[..|steps| - 1]), steps[|steps| - 1])
  }

  // ---------------------------------------------------------------- the inductive invariant

  ghost predicate WorkerOk(w: Worker, tick: nat) {
    && w.claimedAt < tick
    && (w.callStart.Some? ==> w.claimedAt < w.callStart.value < tick)
    && (w.callEnd.Some? ==> w.callStart.Some? && w.callStart.value < w.callEnd.value < tick)
    && (w.phase in {Claimed, Loaded, Unjudged} ==> w.callStart.None?)
    && (w.phase == Calling ==> w.callStart.Some? && w.callEnd.None?)
    && (w.callStart.Some? && w.phase != Calling ==> w.callEnd.Some?)
    && (w.landedAt.Some? ==> w.phase.Finished? && w.claimedAt < w.landedAt.value < tick)
    && (w.landedAt.Some? && w.callEnd.Some? ==> w.callEnd.value < w.landedAt.value)
    && (w.phase.Finished? && w.phase.report !in {FencedOut, FailedOut} ==> w.landedAt.Some?)
    && (w.phase == Finished(FencedOut) ==> w.landedAt.None?)
    && (w.phase.Settled? && w.phase.write.Finish? ==>
          w.phase.write.report != FencedOut && w.phase.write.status in {Done, Superseded, Failed, OutcomeUnknown})
  }

  /** Answers after which the job may be tried again: the call was never billed. */
  predicate Recoverable(o: Outcome) {
    o.Typed? && (o == Typed("skipped", "moderation_disabled") || (o.kind == "unavailable" && Retryable(o.code)))
  }

  predicate Confirms(o: Outcome, job: Identity) {
    o.Verdict? && o.judgment.complete && o.judgment.hash == job.hash && o.judgment.item == job.item
  }

  /** What a report says about the classifier's answer. */
  predicate ReportFits(w: Worker, report: Report) {
    match report
    case FencedOut => true
    case SupersededOut => true
    case ReusedOut => w.callStart.None?
    case DoneOut => w.answer.Some? && Confirms(w.answer.value, w.job)
    case RetryOut => w.answer.Some? && Recoverable(w.answer.value)
    case FailedOut => w.answer.Some? && w.answer.value.Typed? && (w.answer.value.kind == "skipped" || Recoverable(w.answer.value))
    case UnknownOut => w.answer.Some? && !Recoverable(w.answer.value) && !Confirms(w.answer.value, w.job)
  }

  function StatusFor(report: Report): Status {
    match report
    case SupersededOut => Superseded
    case ReusedOut => Done
    case DoneOut => Done
    case RetryOut => Retry
    case FailedOut => Failed
    case _ => OutcomeUnknown
  }

  predicate AnswerOk(w: Worker) {
    && (w.phase.Answered? ==> w.answer == Some(w.phase.outcome) && !w.phase.outcome.Raised?)
    && (w.phase.Retrying? ==> ReportFits(w, RetryOut))
    && (w.phase.Settled? ==>
          match w.phase.write
          case Finish(status, report) => ReportFits(w, report) && status == StatusFor(report)
          case _ => ReportFits(w, RetryOut))
    && (w.phase.Finished? ==> ReportFits(w, w.phase.report))
  }

  ghost predicate Answers(s: System) {
    forall t :: t in s.workers ==> AnswerOk(s.workers[t])
  }

  /** Of two claims of one job, the earlier one's own write landed before the later claim was made. */
  ghost predicate Serial(v: Worker, w: Worker) {
    || (v.landedAt.Some? && v.landedAt.value < w.claimedAt)
    || (w.landedAt.Some? && w.landedAt.value < v.claimedAt)
  }

  ghost predicate Workers(s: System) {
    forall t :: t in s.workers ==>
      t < s.db.nextToken && s.workers[t].job in s.db.rows && WorkerOk(s.workers[t], s.tick)
  }

  /** A claim whose write has not landed still holds its row, or the row has been given up for good. */
  ghost predicate Holding(s: System) {
    forall t :: t in s.workers && s.workers[t].landedAt.None? && s.workers[t].job in s.db.rows ==>
      HeldBy(s.db.rows[s.workers[t].job], t) || s.db.rows[s.workers[t].job].status == OutcomeUnknown
  }

  predicate LeaseBacked(s: System, k: Identity, r: Row) {
    && r.lease.Some? && r.lease.value.token in s.workers
    && s.workers[r.lease.value.token].job == k && s.workers[r.lease.value.token].landedAt.None?
  }

  ghost predicate Leases(s: System) {
    forall k :: k in s.db.rows && s.db.rows[k].status == Leased ==> LeaseBacked(s, k, s.db.rows[k])
  }

  ghost predicate AllSerial(s: System) {
    forall t, u :: t in s.workers && u in s.workers && t != u && s.workers[t].job == s.workers[u].job
      ==> Serial(s.workers[t], s.workers[u])
  }

  function TokensOf(s: System, job: Identity): set<Token> {
    set t | t in s.workers && s.workers[t].job == job
  }

  ghost predicate Counted(s: System) {
    forall k :: k in s.db.rows ==> |TokensOf(s, k)| == s.db.rows[k].attempts
  }

  ghost predicate Bounded(cfg: WorkerConfig, r: Row, revivals: nat) {
    && r.attempts <= Max(1, cfg.maxAttempts) + revivals
    && (r.status == Queued ==> r.attempts < Max(1, cfg.maxAttempts) + revivals)
    && (r.status == Retry ==> r.attempts < cfg.maxAttempts)
  }

  ghost predicate Bounds(cfg: WorkerConfig, s: System) {
    forall k :: k in s.db.rows ==> Bounded(cfg, s.db.rows[k], s.revivals[k])
  }

  /** A worker about to schedule a retry has seen fewer attempts than allowed on the row it holds. */
  ghost predicate Budgets(cfg: WorkerConfig, s: System) {
    forall t :: t in s.workers && s.workers[t].phase.Settled? && s.workers[t].phase.write.Reschedule?
        && s.workers[t].job in s.db.rows && HeldBy(s.db.rows[s.workers[t].job], t)
      ==> s.db.rows[s.workers[t].job].attempts < cfg.maxAttempts
  }

  ghost predicate Judged(judgments: set<Judgment>, id: Identity) {
    exists j :: j in judgments && j.complete && j.item == id.item && j.hash == id.hash
  }

  ghost predicate Backed(judgments: set<Judgment>, w: Worker) {
    && (w.phase.Settled? && w.phase.write.Finish? && w.phase.write.status == Done ==> Judged(judgments, w.job))
    && (w.phase.Answered? && w.phase.outcome.Verdict? ==> w.phase.outcome.judgment in judgments)
  }

  ghost predicate DoneJudged(s: System) {
    forall k :: k in s.db.rows && s.db.rows[k].status == Done ==> Judged(s.db.judgments, k)
  }

  ghost predicate AllBacked(s: System) {
    forall t :: t in s.workers ==> Backed(s.db.judgments, s.workers[t])
  }

  ghost predicate Inv(cfg: WorkerConfig, s: System) {
    && Workers(s) && Holding(s) && Leases(s) && AllSerial(s) && Counted(s)
    && Bounds(cfg, s) && Budgets(cfg, s) && DoneJudged(s) && AllBacked(s) && Answers(s)
  }

  // ---------------------------------------------------------------- what one step can do

  predicate ExpiredRow(r: Row, after: Row) {
    r.status == Leased && after.status == OutcomeUnknown && after.attempts == r.attempts
  }

  ghost predicate RequeuedRow(s: System, after: System, k: Identity, r: Row, q: Row) {
    && (Waiting(r) || r.status == Superseded) && q.attempts == r.attempts
    && q.status in {Queued, Superseded, Done}
    && (q.status == Queued ==> r.status == Superseded && after.revivals[k] > s.revivals[k])
    && (q.status == Done ==> Judged(after.db.judgments, k))
  }

  predicate ClaimedRow(s: System, after: System, k: Identity, r: Row, q: Row) {
    && Waiting(r) && q.attempts == r.attempts + 1 && HeldBy(q, s.db.nextToken)
    && s.db.nextToken in after.workers && after.workers[s.db.nextToken].job == k
    && after.db.nextToken == s.db.nextToken + 1
  }

  ghost predicate LandedRow(cfg: WorkerConfig, s: System, after: System, k: Identity, r: Row, q: Row) {
    && r.status == Leased && r.lease.Some? && r.lease.value.token in s.workers
    && s.workers[r.lease.value.token].job == k
    && r.lease.value.token in after.workers && after.workers[r.lease.value.token].landedAt == Some(s.tick)
    && q.attempts == r.attempts && q.status in {Retry, Done, Superseded, Failed, OutcomeUnknown}
    && (q.status == Retry ==> r.attempts < cfg.maxAttempts)
    && (q.status == Done ==> Judged(after.db.judgments, k))
  }

  ghost predicate RowStep(cfg: WorkerConfig, s: System, after: System, k: Identity)
    requires k in s.db.rows && k in after.db.rows
  {
    var r, q := s.db.rows[k], after.db.rows[k];
    || q == r
    || ExpiredRow(r, q)
    || RequeuedRow(s, after, k, r, q)
    || ClaimedRow(s, after, k, r, q)
    || LandedRow(cfg, s, after, k, r, q)
  }

  /** A worker that advanced: same claim, and if its write landed in this step its row was its own. */
  ghost predicate WorkerStep(cfg: WorkerConfig, s: System, after: System, t: Token)
    requires t in s.workers && t in after.workers
  {
    var v, w := s.workers[t], after.workers[t];
    || w == v
    || (&& w.job == v.job && w.claimedAt == v.claimedAt && v.landedAt.None?
        && WorkerOk(w, after.tick) && Backed(after.db.judgments, w) && AnswerOk(w)
        && (w.landedAt.None? || (w.landedAt == Some(s.tick) && w.job in s.db.rows && HeldBy(s.db.rows[w.job], t)
                                 && w.job in after.db.rows && after.db.rows[w.job].status != Leased))
        && (w.phase.Settled? && w.phase.write.Reschedule? ==>
              w.job in s.db.rows && w.job in after.db.rows && after.db.rows[w.job] == s.db.rows[w.job]
              && s.db.rows[w.job].attempts < cfg.maxAttempts))
  }

  predicate FreshWorker(s: System, after: System, t: Token)
    requires t in after.workers
  {
    var w := after.workers[t];
    && t == s.db.nextToken && after.db.nextToken == t + 1
    && w == Worker(w.job, Claimed, 0, None, s.tick, None, None, None)
    && w.job in s.db.rows && w.job in after.db.rows && Waiting(s.db.rows[w.job])
    && HeldBy(after.db.rows[w.job], t) && after.db.rows[w.job].attempts == s.db.rows[w.job].attempts + 1
  }

  ghost predicate Transition(cfg: WorkerConfig, s: System, after: System) {
    && after.tick == s.tick + 1
    && s.db.rows.Keys <= after.db.rows.Keys
    && s.workers.Keys <= after.workers.Keys
    && s.db.nextToken <= after.db.nextToken
    && s.db.judgments <= after.db.judgments
    && s.revivals <= after.revivals
    && (forall k :: k in s.db.rows ==> RowStep(cfg, s, after, k))
    && (forall k :: k in after.db.rows && k !in s.db.rows ==>
          after.db.rows[k].status == Queued && after.db.rows[k].attempts == 0)
    && (forall t :: t in s.workers ==> WorkerStep(cfg, s, after, t))
    && (forall t :: t in after.workers && t !in s.workers ==> FreshWorker(s, after, t))
  }

  // ---------------------------------------------------------------- the invariant survives a transition

  lemma KeepsWorkers(cfg: WorkerConfig, s: System, after: System)
    requires Transition(cfg, s, after) && Workers(s)
    ensures Workers(after)
  {
  }

  lemma KeepsHolding(cfg: WorkerConfig, s: System, after: System)
    requires Transition(cfg, s, after) && Workers(s) && Holding(s)
    ensures Holding(after)
  {
    forall t | t in after.workers && after.workers[t].landedAt.None? && after.workers[t].job in after.db.rows
      ensures HeldBy(after.db.rows[after.workers[t].job], t) || after.db.rows[after.workers[t].job].status == OutcomeUnknown
    {
      if t in s.workers {
        KeepsHold(cfg, s, after, t);
      } else {
        assert FreshWorker(s, after, t);
      }
    }
  }

  lemma KeepsHold(cfg: WorkerConfig, s: System, after: System, t: Token)
    requires t in s.workers && t in after.workers && after.workers[t].landedAt.None?
    requires WorkerStep(cfg, s, after, t)
    requires s.workers[t].job in s.db.rows && s.workers[t].job in after.db.rows
    requires RowStep(cfg, s, after, s.workers[t].job)
    requires HeldBy(s.db.rows[s.workers[t].job], t) || s.db.rows[s.workers[t].job].status == OutcomeUnknown
    ensures HeldBy(after.db.rows[after.workers[t].job], t) || after.db.rows[after.workers[t].job].status == OutcomeUnknown
  {
  }

  lemma KeepsLeases(cfg: WorkerConfig, s: System, after: System)
    requires Transition(cfg, s, after) && Workers(s) && Leases(s)
    ensures Leases(after)
  {
    forall k | k in after.db.rows && after.db.rows[k].status == Leased
      ensures LeaseBacked(after, k, after.db.rows[k])
    {
      assert k in s.db.rows;
      assert RowStep(cfg, s, after, k);
      if after.db.rows[k] == s.db.rows[k] {
        assert LeaseBacked(s, k, s.db.rows[k]);
        assert WorkerStep(cfg, s, after, s.db.rows[k].lease.value.token);
      } else {
        assert ClaimedRow(s, after, k, s.db.rows[k], after.db.rows[k]);
        assert s.db.nextToken !in s.workers;
        assert FreshWorker(s, after, s.db.nextToken);
      }
    }
  }

  lemma KeepsSerial(cfg: WorkerConfig, s: System, after: System)
    requires Transition(cfg, s, after) && Workers(s) && Holding(s) && AllSerial(s)
    ensures AllSerial(after)
  {
    forall t, u | t in after.workers && u in after.workers && t != u && after.workers[t].job == after.workers[u].job
      ensures Serial(after.workers[t], after.workers[u])
    {
      if t in s.workers && u in s.workers {
        assert WorkerStep(cfg, s, after, t) && WorkerStep(cfg, s, after, u);
        assert Serial(s.workers[t], s.workers[u]);
      } else if t in s.workers {
        NewClaimFollows(cfg, s, after, t, u);
      } else if u in s.workers {
        NewClaimFollows(cfg, s, after, u, t);
      }
    }
  }

  /** A job is claimed only while it waits, so every earlier claim of it has landed. */
  lemma NewClaimFollows(cfg: WorkerConfig, s: System, after: System, t: Token, u: Token)
    requires Transition(cfg, s, after) && Workers(s) && Holding(s)
    requires t in s.workers && u in after.workers && u !in s.workers && after.workers[t].job == after.workers[u].job
    ensures Serial(after.workers[t], after.workers[u])
  {
    assert WorkerStep(cfg, s, after, t) && FreshWorker(s, after, u);
  }

  lemma KeepsCounted(cfg: WorkerConfig, s: System, after: System)
    requires Transition(cfg, s, after) && Workers(s) && Counted(s)
    ensures Counted(after)
  {
    forall k | k in after.db.rows
      ensures |TokensOf(after, k)| == after.db.rows[k].attempts
    {
      if k !in s.db.rows {
        forall t | t in after.workers
          ensures after.workers[t].job != k
        {
          if t in s.workers {
            assert WorkerStep(cfg, s, after, t);
          } else {
            assert FreshWorker(s, after, t);
          }
        }
        assert TokensOf(after, k) == {};
      } else {
        CountOne(cfg, s, after, k);
      }
    }
  }

  lemma CountOne(cfg: WorkerConfig, s: System, after: System, k: Identity)
    requires Transition(cfg, s, after) && Workers(s) && k in s.db.rows && |TokensOf(s, k)| == s.db.rows[k].attempts
    ensures |TokensOf(after, k)| == after.db.rows[k].attempts
  {
    var newest := s.db.nextToken;
    assert RowStep(cfg, s, after, k);
    forall t | t in after.workers && t != newest
      ensures t in s.workers && after.workers[t].job == s.workers[t].job
    {
      assert t !in s.workers ==> FreshWorker(s, after, t);
      assert WorkerStep(cfg, s, after, t);
    }
    assert newest !in s.workers;
    if newest in after.workers && after.workers[newest].job == k {
      assert FreshWorker(s, after, newest);
      assert TokensOf(after, k) == TokensOf(s, k) + {newest};
    } else {
      assert !ClaimedRow(s, after, k, s.db.rows[k], after.db.rows[k]);
      assert TokensOf(after, k) == TokensOf(s, k);
    }
  }

  lemma KeepsBounds(cfg: WorkerConfig, s: System, after: System)
    requires Transition(cfg, s, after) && Bounds(cfg, s)
    ensures Bounds(cfg, after)
  {
    forall k | k in after.db.rows
      ensures Bounded(cfg, after.db.rows[k], after.revivals[k])
    {
      if k in s.db.rows {
        assert RowStep(cfg, s, after, k) && Bounded(cfg, s.db.rows[k], s.revivals[k]);
        assert s.revivals[k] <= after.revivals[k];
      }
    }
  }

  lemma KeepsBudgets(cfg: WorkerConfig, s: System, after: System)
    requires Transition(cfg, s, after) && Workers(s) && Budgets(cfg, s)
    ensures Budgets(cfg, after)
  {
    forall t | t in after.workers && after.workers[t].phase.Settled? && after.workers[t].phase.write.Reschedule?
        && after.workers[t].job in after.db.rows && HeldBy(after.db.rows[after.workers[t].job], t)
      ensures after.db.rows[after.workers[t].job].attempts < cfg.maxAttempts
    {
      assert t !in s.workers ==> FreshWorker(s, after, t);
      assert WorkerStep(cfg, s, after, t) && RowStep(cfg, s, after, s.workers[t].job);
    }
  }

  lemma JudgedGrows(judgments: set<Judgment>, more: set<Judgment>, id: Identity)
    requires judgments <= more && Judged(judgments, id)
    ensures Judged(more, id)
  {
  }

  lemma KeepsJustified(cfg: WorkerConfig, s: System, after: System)
    requires Transition(cfg, s, after) && DoneJudged(s) && AllBacked(s)
    ensures DoneJudged(after) && AllBacked(after)
  {
    forall k | k in after.db.rows && after.db.rows[k].status == Done
      ensures Judged(after.db.judgments, k)
    {
      assert RowStep(cfg, s, after, k);
      if after.db.rows[k] == s.db.rows[k] {
        JudgedGrows(s.db.judgments, after.db.judgments, k);
      }
    }
    forall t | t in after.workers
      ensures Backed(after.db.judgments, after.workers[t])
    {
      if t in s.workers {
        assert WorkerStep(cfg, s, after, t) && Backed(s.db.judgments, s.workers[t]);
      } else {
        assert FreshWorker(s, after, t);
      }
    }
  }

  lemma KeepsAnswers(cfg: WorkerConfig, s: System, after: System)
    requires Transition(cfg, s, after) && Answers(s)
    ensures Answers(after)
  {
    forall t | t in after.workers
      ensures AnswerOk(after.workers[t])
    {
      if t in s.workers {
        assert WorkerStep(cfg, s, after, t);
      } else {
        assert FreshWorker(s, after, t);
      }
    }
  }

  lemma TransitionKeepsInv(cfg: WorkerConfig, s: System, after: System)
    requires Transition(cfg, s, after) && Inv(cfg, s)
    ensures Inv(cfg, after)
  {
    KeepsWorkers(cfg, s, after);
    KeepsHolding(cfg, s, after);
    KeepsLeases(cfg, s, after);
    KeepsSerial(cfg, s, after);
    KeepsCounted(cfg, s, after);
    KeepsBounds(cfg, s, after);
    KeepsBudgets(cfg, s, after);
    KeepsJustified(cfg, s, after);
    KeepsAnswers(cfg, s, after);
  }

  // ---------------------------------------------------------------- every step is such a transition

  lemma SuccessIsJudged(judgments: set<Judgment>, id: Identity)
    requires HasSuccess(judgments, id)
    ensures Judged(judgments, id)
  {
    var j :| j in judgments && Settles(j, id);
  }

  lemma EnqueueRowStep(cfg: WorkerConfig, s: System, db: Db, item: ItemId, hash: Option<Hash>, now: Time, k: Identity)
    requires db.rows == s.db.rows && db.judgments == s.db.judgments && k in s.db.rows
    ensures k in Enqueue(db, item, hash, now).rows
    ensures RowStep(cfg, s, Requeue(s, Enqueue(db, item, hash, now)).(tick := s.tick + 1), k)
  {
    var after := Requeue(s, Enqueue(db, item, hash, now)).(tick := s.tick + 1);
    EnqueueRowCases(db, item, hash, now, k);
    var r, q := s.db.rows[k], after.db.rows[k];
    if Waiting(r) && q.status == Done {
      SuccessIsJudged(db.judgments, k);
    } else if r.status == Superseded && q.status == Queued {
      assert k in Revived(s.db.rows, after.db.rows);
    }
    assert q == r || RequeuedRow(s, after, k, r, q);
  }

  lemma EnqueueIsTransition(cfg: WorkerConfig, s: System, db: Db, item: ItemId, hash: Option<Hash>, now: Time)
    requires db.rows == s.db.rows && db.nextToken == s.db.nextToken && db.judgments == s.db.judgments
    ensures Transition(cfg, s, Requeue(s, Enqueue(db, item, hash, now)).(tick := s.tick + 1))
  {
    var after := Requeue(s, Enqueue(db, item, hash, now)).(tick := s.tick + 1);
    forall k | k in s.db.rows
      ensures k in after.db.rows && RowStep(cfg, s, after, k)
    {
      EnqueueRowStep(cfg, s, db, item, hash, now, k);
    }
    EnqueueOnlyAdds(db, item, hash, now);
  }

  /** An enqueue issues no token, stores no judgment, and what it adds is queued and untried. */
  lemma EnqueueOnlyAdds(db: Db, item: ItemId, hash: Option<Hash>, now: Time)
    ensures var after := Enqueue(db, item, hash, now);
      && after.nextToken == db.nextToken && after.judgments == db.judgments && db.rows.Keys <= after.rows.Keys
      && forall k :: k in after.rows && k !in db.rows ==> after.rows[k].status == Queued && after.rows[k].attempts == 0
  {
  }

  lemma DetailWriteIsTransition(cfg: WorkerConfig, s: System, item: ItemId, built: Built, complete: bool, now: Time)
    ensures Transition(cfg, s, Next(cfg, s, DetailWrite(item, built, complete, now)))
  {
    var written := s.db.(built := s.db.built[item := built],
                         complete := if complete then s.db.complete + {item} else s.db.complete - {item});
    var hash := HashOf(written.built, item);
    EnqueueIsTransition(cfg, s, written.(currentHash := SetHash(written.currentHash, item, hash)), item, hash, now);
  }

  lemma ReconcileIsTransition(cfg: WorkerConfig, s: System, item: ItemId, now: Time)
    ensures Transition(cfg, s, Next(cfg, s, Reconcile(item, now)))
  {
    var hash := HashOf(s.db.built, item);
    EnqueueIsTransition(cfg, s, s.db.(currentHash := SetHash(s.db.currentHash, item, hash)), item, hash, now);
  }

  lemma AdmitIsTransition(cfg: WorkerConfig, s: System, job: Identity, now: Time)
    ensures Transition(cfg, s, Next(cfg, s, AdmitMissing(job, now)))
  {
    assert Revived(s.db.rows, InsertIgnore(s.db, job, now).rows) == {};
  }

  lemma ExpireIsTransition(cfg: WorkerConfig, s: System, now: Time)
    ensures Transition(cfg, s, Next(cfg, s, Expire(now)))
  {
  }

  lemma ClaimIsTransition(cfg: WorkerConfig, s: System, job: Identity, now: Time, leaseSeconds: nat)
    requires Workers(s)
    ensures Transition(cfg, s, Next(cfg, s, Claim(job, now, leaseSeconds)))
  {
    var after := Next(cfg, s, Claim(job, now, leaseSeconds));
    assert s.db.nextToken !in s.workers;
    if job in s.db.rows && Ready(s.db.rows[job], now) {
      assert ClaimedRow(s, after, job, s.db.rows[job], after.db.rows[job]);
      assert forall k :: k in s.db.rows && k != job ==> after.db.rows[k] == s.db.rows[k];
    }
  }

  /** A step that only replaces worker `t` and adds judgments is a transition when the worker's own step is. */
  lemma LocalIsTransition(cfg: WorkerConfig, s: System, after: System, t: Token)
    requires after.tick == s.tick + 1 && after.db.rows == s.db.rows && after.db.nextToken == s.db.nextToken
    requires after.revivals == s.revivals && s.db.judgments <= after.db.judgments
    requires after.workers.Keys == s.workers.Keys
    requires forall u :: u in s.workers && u != t ==> after.workers[u] == s.workers[u]
    requires t in s.workers ==> WorkerStep(cfg, s, after, t)
    ensures Transition(cfg, s, after)
  {
  }

  ghost predicate Healthy(s: System, t: Token) {
    t in s.workers ==> WorkerOk(s.workers[t], s.tick) && Backed(s.db.judgments, s.workers[t]) && AnswerOk(s.workers[t])
  }

  lemma LoadIsTransition(cfg: WorkerConfig, s: System, t: Token)
    requires Healthy(s, t)
    ensures Transition(cfg, s, Next(cfg, s, Load(t)))
  {
    LocalIsTransition(cfg, s, Next(cfg, s, Load(t)), t);
  }

  lemma CheckSuccessIsTransition(cfg: WorkerConfig, s: System, t: Token)
    requires Healthy(s, t)
    ensures Transition(cfg, s, Next(cfg, s, CheckSuccess(t)))
  {
    if At(s, t, Loaded) && HasSuccess(s.db.judgments, s.workers[t].job) {
      SuccessIsJudged(s.db.judgments, s.workers[t].job);
    }
    LocalIsTransition(cfg, s, Next(cfg, s, CheckSuccess(t)), t);
  }

  lemma CheckBuildIsTransition(cfg: WorkerConfig, s: System, t: Token)
    requires Healthy(s, t)
    ensures Transition(cfg, s, Next(cfg, s, CheckBuild(t)))
  {
    LocalIsTransition(cfg, s, Next(cfg, s, CheckBuild(t)), t);
  }

  lemma EndCallIsTransition(cfg: WorkerConfig, s: System, t: Token, outcome: Outcome)
    requires Healthy(s, t)
    ensures Transition(cfg, s, Next(cfg, s, EndCall(t, outcome)))
  {
    LocalIsTransition(cfg, s, Next(cfg, s, EndCall(t, outcome)), t);
  }

  lemma DecideFits(cfg: WorkerConfig, judgments: set<Judgment>, w: Worker, current: bool, tick: nat)
    requires w.phase.Answered? && WorkerOk(w, tick) && Backed(judgments, w) && AnswerOk(w)
    ensures var v := w.(phase := Decide(cfg, w, w.phase.outcome, current));
      WorkerOk(v, tick + 1) && Backed(judgments, v) && AnswerOk(v) && !(v.phase.Settled? && v.phase.write.Reschedule?)
  {
  }

  lemma RefreshIsTransition(cfg: WorkerConfig, s: System, t: Token)
    requires Healthy(s, t)
    ensures Transition(cfg, s, Next(cfg, s, Refresh(t)))
  {
    if t in s.workers && s.workers[t].phase.Answered? {
      DecideFits(cfg, s.db.judgments, s.workers[t], CurrentIn(s.db.currentHash, s.db.settings, s.workers[t].job), s.tick);
    }
    LocalIsTransition(cfg, s, Next(cfg, s, Refresh(t)), t);
  }

  lemma ReadAttemptsIsTransition(cfg: WorkerConfig, s: System, t: Token)
    requires Healthy(s, t)
    ensures Transition(cfg, s, Next(cfg, s, ReadAttempts(t)))
  {
    LocalIsTransition(cfg, s, Next(cfg, s, ReadAttempts(t)), t);
  }

  lemma WriteBackRow(cfg: WorkerConfig, s: System, t: Token, now: Time)
    requires Healthy(s, t) && Budgets(cfg, s)
    requires t in s.workers && s.workers[t].phase.Settled? && s.workers[t].job in s.db.rows
    ensures RowStep(cfg, s, Next(cfg, s, WriteBack(t, now)), s.workers[t].job)
  {
    var after, job := Next(cfg, s, WriteBack(t, now)), s.workers[t].job;
    if HeldBy(s.db.rows[job], t) {
      assert LandedRow(cfg, s, after, job, s.db.rows[job], after.db.rows[job]);
    }
  }

  lemma WriteBackWorker(cfg: WorkerConfig, s: System, t: Token, now: Time)
    requires Healthy(s, t)
    requires t in s.workers && s.workers[t].phase.Settled? && s.workers[t].job in s.db.rows
    ensures WorkerStep(cfg, s, Next(cfg, s, WriteBack(t, now)), t)
  {
  }

  lemma WriteBackIsTransition(cfg: WorkerConfig, s: System, t: Token, now: Time)
    requires Healthy(s, t) && Budgets(cfg, s)
    ensures Transition(cfg, s, Next(cfg, s, WriteBack(t, now)))
  {
    var after := Next(cfg, s, WriteBack(t, now));
    if t in s.workers && s.workers[t].phase.Settled? && s.workers[t].job in s.db.rows {
      var job := s.workers[t].job;
      WriteBackRow(cfg, s, t, now);
      WriteBackWorker(cfg, s, t, now);
      assert forall k :: k in s.db.rows && k != job ==> after.db.rows[k] == s.db.rows[k];
      assert forall u :: u in s.workers && u != t ==> after.workers[u] == s.workers[u];
    }
  }

  lemma QuietIsTransition(cfg: WorkerConfig, s: System, step: Step)
    requires step.ChangeBuilder? || step.ChangeSettings? || step.StoreJudgment?
    ensures Transition(cfg, s, Next(cfg, s, step))
  {
  }

  lemma NextIsTransition(cfg: WorkerConfig, s: System, step: Step)
    requires Inv(cfg, s)
    ensures Transition(cfg, s, Next(cfg, s, step))
  {
    assert forall t :: Healthy(s, t);
    match step
    case Claim(job, now, leaseSeconds) => ClaimIsTransition(cfg, s, job, now, leaseSeconds);
    case Expire(now) => ExpireIsTransition(cfg, s, now);
    case Load(t) => LoadIsTransition(cfg, s, t);
    case CheckSuccess(t) => CheckSuccessIsTransition(cfg, s, t);
    case CheckBuild(t) => CheckBuildIsTransition(cfg, s, t);
    case EndCall(t, outcome) => EndCallIsTransition(cfg, s, t, outcome);
    case Refresh(t) => RefreshIsTransition(cfg, s, t);
    case ReadAttempts(t) => ReadAttemptsIsTransition(cfg, s, t);
    case WriteBack(t, now) => WriteBackIsTransition(cfg, s, t, now);
    case DetailWrite(item, built, complete, now) => DetailWriteIsTransition(cfg, s, item, built, complete, now);
    case Reconcile(item, now) => ReconcileIsTransition(cfg, s, item, now);
    case AdmitMissing(job, now) => AdmitIsTransition(cfg, s, job, now);
    case ChangeBuilder(_, _) => QuietIsTransition(cfg, s, step);
    case ChangeSettings(_) => QuietIsTransition(cfg, s, step);
    case StoreJudgment(_) => QuietIsTransition(cfg, s, step);
  }

  lemma {:induction false} RunKeepsInv(cfg: WorkerConfig, settings: Settings, steps: seq<Step>)
    ensures Inv(cfg, Run(cfg, Start(settings), steps))
  {
    if steps == [] {
    } else {
      var s := Run(cfg, Start(settings), steps[..|steps| - 1]);
      RunKeepsInv(cfg, settings, steps[..|steps| - 1]);
      NextIsTransition(cfg, s, steps[|steps| - 1]);
      TransitionKeepsInv(cfg, s, Next(cfg, s, steps[|steps| - 1]));
    }
  }

  // ---------------------------------------------------------------- the theorems over whole runs

  predicate Calls(s: System, t: Token, job: Identity) {
    t in s.workers && s.workers[t].job == job && s.workers[t].callStart.Some?
  }

  /** Classifier calls of one job never overlap, and a second call starts only after the earlier
      call ended and the earlier claim's own fenced write landed. */
  lemma CallsNeverOverlap(cfg: WorkerConfig, settings: Settings, steps: seq<Step>, job: Identity, t: Token, u: Token)
    requires var s := Run(cfg, Start(settings), steps);
      && t != u && Calls(s, t, job) && Calls(s, u, job)
      && s.workers[t].callStart.value <= s.workers[u].callStart.value
    ensures var s := Run(cfg, Start(settings), steps);
      && s.workers[t].callEnd.Some? && s.workers[t].landedAt.Some?
      && s.workers[t].callStart.value < s.workers[t].callEnd.value < s.workers[t].landedAt.value
      && s.workers[t].landedAt.value < s.workers[u].claimedAt < s.workers[u].callStart.value
  {
    RunKeepsInv(cfg, settings, steps);
    var s := Run(cfg, Start(settings), steps);
    assert Serial(s.workers[t], s.workers[u]);
    assert WorkerOk(s.workers[t], s.tick) && WorkerOk(s.workers[u], s.tick);
  }

  /** A job is sent to the classifier at most `attempts` times, and `attempts` stays within the
      allowance plus one for every time a superseded row was revived. */
  lemma CallsAreBounded(cfg: WorkerConfig, settings: Settings, steps: seq<Step>, job: Identity)
    requires job in Run(cfg, Start(settings), steps).db.rows
    ensures var s := Run(cfg, Start(settings), steps);
      && |set t | t in s.workers && Calls(s, t, job)| <= s.db.rows[job].attempts
      && s.db.rows[job].attempts <= Max(1, cfg.maxAttempts) + s.revivals[job]
      && (s.db.rows[job].status == Retry ==> s.db.rows[job].attempts < cfg.maxAttempts)
  {
    RunKeepsInv(cfg, settings, steps);
    var s := Run(cfg, Start(settings), steps);
    SubsetSize((set t | t in s.workers && Calls(s, t, job)), TokensOf(s, job));
    assert Bounded(cfg, s.db.rows[job], s.revivals[job]);
  }

  /** Every row marked DONE has a stored complete judgment of the same item and source hash. */
  lemma DoneMeansJudged(cfg: WorkerConfig, settings: Settings, steps: seq<Step>, job: Identity)
    requires job in Run(cfg, Start(settings), steps).db.rows
    requires Run(cfg, Start(settings), steps).db.rows[job].status == Done
    ensures Judged(Run(cfg, Start(settings), steps).db.judgments, job)
  {
    RunKeepsInv(cfg, settings, steps);
  }

  predicate Absorbed(r: Row) {
    r.status in {Done, Failed, OutcomeUnknown}
  }

  /** DONE, FAILED and OUTCOME_UNKNOWN rows never change again, whatever follows. */
  lemma {:induction false} FinishedRowsStay(cfg: WorkerConfig, settings: Settings, steps: seq<Step>, more: seq<Step>, job: Identity)
    requires job in Run(cfg, Start(settings), steps).db.rows
    requires Absorbed(Run(cfg, Start(settings), steps).db.rows[job])
    ensures job in Run(cfg, Start(settings), steps + more).db.rows
    ensures Run(cfg, Start(settings), steps + more).db.rows[job] == Run(cfg, Start(settings), steps).db.rows[job]
    decreases |more|
  {
    if more == [] {
      assert steps + more == steps;
    } else {
      var before := steps + more[..|more| - 1];
      FinishedRowsStay(cfg, settings, steps, more[..|more| - 1], job);
      assert (steps + more)[..|steps + more| - 1] == before;
      RunKeepsInv(cfg, settings, before);
      StepKeepsAbsorbed(cfg, Run(cfg, Start(settings), before), more[|more| - 1], job);
    }
  }

  lemma StepKeepsAbsorbed(cfg: WorkerConfig, s: System, step: Step, job: Identity)
    requires Inv(cfg, s) && job in s.db.rows && Absorbed(s.db.rows[job])
    ensures job in Next(cfg, s, step).db.rows && Next(cfg, s, step).db.rows[job] == s.db.rows[job]
  {
    NextIsTransition(cfg, s, step);
    assert RowStep(cfg, s, Next(cfg, s, step), job);
  }

  /** A worker's report is honest: it fits the classifier's answer, 'fenced' never landed, and every
      report but 'fenced' and 'failed' did land. */
  lemma ReportsAreHonest(cfg: WorkerConfig, settings: Settings, steps: seq<Step>, t: Token)
    requires t in Run(cfg, Start(settings), steps).workers
    requires Run(cfg, Start(settings), steps).workers[t].phase.Finished?
    ensures var w := Run(cfg, Start(settings), steps).workers[t];
      && ReportFits(w, w.phase.report)
      && (w.phase.report == FencedOut ==> w.landedAt.None?)
      && (w.phase.report !in {FencedOut, FailedOut} ==> w.landedAt.Some?)
  {
    RunKeepsInv(cfg, settings, steps);
    var s := Run(cfg, Start(settings), steps);
    assert WorkerOk(s.workers[t], s.tick) && AnswerOk(s.workers[t]);
  }

  /** When attempts are exhausted the worker reports 'failed' in any case; the row really becomes
      FAILED exactly when it is still leased under the worker's token. */
  lemma FailedReportLandsIffHeld(cfg: WorkerConfig, settings: Settings, steps: seq<Step>, t: Token, now: Time)
    requires t in Run(cfg, Start(settings), steps).workers
    requires Run(cfg, Start(settings), steps).workers[t].phase == Settled(Exhaust)
    ensures var s := Run(cfg, Start(settings), steps);
      var after := Run(cfg, Start(settings), steps + [WriteBack(t, now)]);
      var job := s.workers[t].job;
      && job in s.db.rows && job in after.db.rows
      && after.workers[t].phase == Finished(FailedOut)
      && (after.db.rows[job].status == Failed <==> HeldBy(s.db.rows[job], t))
  {
    RunKeepsInv(cfg, settings, steps);
    assert (steps + [WriteBack(t, now)])[..|steps|] == steps;
    var s := Run(cfg, Start(settings), steps);
    assert WorkerOk(s.workers[t], s.tick) && s.workers[t].landedAt.None?;
    ExhaustLandsIffHeld(cfg, s, t, now);
  }

  lemma ExhaustLandsIffHeld(cfg: WorkerConfig, s: System, t: Token, now: Time)
    requires Holding(s) && t in s.workers && s.workers[t].phase == Settled(Exhaust) && s.workers[t].landedAt.None?
    requires s.workers[t].job in s.db.rows
    ensures var after, job := Next(cfg, s, WriteBack(t, now)), s.workers[t].job;
      && job in after.db.rows && after.workers[t].phase == Finished(FailedOut)
      && (after.db.rows[job].status == Failed <==> HeldBy(s.db.rows[job], t))
  {
  }
}
