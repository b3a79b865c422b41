/** Why the moderation workers call the classifier and report what they report, and why one batch claim or one detail
    transaction is a run of single steps. */
module ModerationCalls {
  import opened Prelude
  import opened Sorting
  import opened JobQueue
  import opened ModerationOutbox
  import opened ModerationRuns

  // ---------------------------------------------------------------- what a worker finds in the database

  /** The questions a worker puts to the database. */
  datatype Question = IsHeld | IsCurrent | IsJudged | IsRebuilt | IsSpent

  /** The answers, in the columns of the tables. */
  ghost predicate Holds(cfg: WorkerConfig, db: Db, job: Identity, t: Token, q: Question) {
    match q
    case IsHeld => job in db.rows && db.rows[job].status == Leased && db.rows[job].lease.Some? && db.rows[job].lease.value.token == t
    case IsCurrent => job.item in db.currentHash && db.currentHash[job.item] == job.hash && job.revision == db.settings.revision
    case IsJudged => Success(db.judgments, job.item, job.hash, job.model, job.revision)
    case IsRebuilt => job.item in db.built && db.built[job.item].BuiltHash? && db.built[job.item].hash != job.hash
    case IsSpent => job in db.rows && db.rows[job].attempts >= cfg.maxAttempts
  }

  /** The step is the one this worker takes next. */
  predicate Takes(s: System, t: Token, step: Step) {
    && t in s.workers && s.workers[t].job in s.db.rows
    && match s.workers[t].phase
       case Claimed => step == Load(t)
       case Loaded => step == CheckSuccess(t)
       case Unjudged => step == CheckBuild(t)
       case Answered(_) => step == Refresh(t)
       case Retrying(_) => step == ReadAttempts(t)
       case _ => false
  }

  /** Taking a step, a worker puts this question and gets this answer. */
  datatype Finding = Finding(step: Step, question: Question, answer: bool)

  ghost predicate Finds(cfg: WorkerConfig, s: System, step: Step, t: Token, f: Finding) {
    step == f.step && Takes(s, t, step) && (Holds(cfg, s.db, s.workers[t].job, t, f.question) <==> f.answer)
  }

  ghost predicate FoundAt(cfg: WorkerConfig, settings: Settings, steps: seq<Step>, t: Token, f: Finding, i: nat) {
    i < |steps| && Finds(cfg, Run(cfg, Start(settings), steps[..i]), steps[i], t, f)
  }

  ghost predicate Found(cfg: WorkerConfig, settings: Settings, steps: seq<Step>, t: Token, f: Finding) {
    exists i: nat :: FoundAt(cfg, settings, steps, t, f, i)
  }

  lemma FoundAtStays(cfg: WorkerConfig, settings: Settings, steps: seq<Step>, t: Token, f: Finding, i: nat)
    requires steps != [] && FoundAt(cfg, settings, steps[..|steps| - 1], t, f, i)
    ensures FoundAt(cfg, settings, steps, t, f, i)
  {
    assert steps[..|steps| - 1][..i] == steps[..i];
  }

  lemma FoundStays(cfg: WorkerConfig, settings: Settings, steps: seq<Step>, t: Token, f: Finding)
    requires steps != [] && Found(cfg, settings, steps[..|steps| - 1], t, f)
    ensures Found(cfg, settings, steps, t, f)
  {
    var i: nat :| FoundAt(cfg, settings, steps[..|steps| - 1], t, f, i);
    FoundAtStays(cfg, settings, steps, t, f, i);
  }

  lemma {:induction false} TickCounts(cfg: WorkerConfig, settings: Settings, steps: seq<Step>)
    ensures Run(cfg, Start(settings), steps).tick == |steps|
  {
    if steps == [] {
    } else {
      TickCounts(cfg, settings, steps[..|steps| - 1]);
    }
  }

  // ---------------------------------------------------------------- why the classifier is called

  function LoadedHeld(t: Token): Finding {
    Finding(Load(t), IsHeld, true)
  }

  function LoadedCurrent(t: Token): Finding {
    Finding(Load(t), IsCurrent, true)
  }

  function NotJudged(t: Token): Finding {
    Finding(CheckSuccess(t), IsJudged, false)
  }

  function NotRebuilt(t: Token): Finding {
    Finding(CheckBuild(t), IsRebuilt, false)
  }

  ghost predicate LoadedAt(cfg: WorkerConfig, settings: Settings, steps: seq<Step>, t: Token, i: nat) {
    FoundAt(cfg, settings, steps, t, LoadedHeld(t), i) && FoundAt(cfg, settings, steps, t, LoadedCurrent(t), i)
  }

  ghost predicate UnjudgedAt(cfg: WorkerConfig, settings: Settings, steps: seq<Step>, t: Token, j: nat) {
    FoundAt(cfg, settings, steps, t, NotJudged(t), j) && exists i: nat :: i < j && LoadedAt(cfg, settings, steps, t, i)
  }

  ghost predicate WarrantedAt(cfg: WorkerConfig, settings: Settings, steps: seq<Step>, t: Token, k: nat) {
    FoundAt(cfg, settings, steps, t, NotRebuilt(t), k) && exists j: nat :: j < k && UnjudgedAt(cfg, settings, steps, t, j)
  }

  ghost predicate Warranted(cfg: WorkerConfig, settings: Settings, steps: seq<Step>, t: Token, w: Worker) {
    && (w.phase == Loaded ==> exists i: nat :: LoadedAt(cfg, settings, steps, t, i))
    && (w.phase == Unjudged ==> exists j: nat :: UnjudgedAt(cfg, settings, steps, t, j))
    && (w.callStart.Some? ==> WarrantedAt(cfg, settings, steps, t, w.callStart.value))
  }

  lemma LoadedStays(cfg: WorkerConfig, settings: Settings, steps: seq<Step>, t: Token, i: nat)
    requires steps != [] && LoadedAt(cfg, settings, steps[..|steps| - 1], t, i)
    ensures LoadedAt(cfg, settings, steps, t, i)
  {
    FoundAtStays(cfg, settings, steps, t, LoadedHeld(t), i);
    FoundAtStays(cfg, settings, steps, t, LoadedCurrent(t), i);
  }

  lemma UnjudgedStays(cfg: WorkerConfig, settings: Settings, steps: seq<Step>, t: Token, j: nat)
    requires steps != [] && UnjudgedAt(cfg, settings, steps[..|steps| - 1], t, j)
    ensures UnjudgedAt(cfg, settings, steps, t, j)
  {
    FoundAtStays(cfg, settings, steps, t, NotJudged(t), j);
    var i: nat :| i < j && LoadedAt(cfg, settings, steps[..|steps| - 1], t, i);
    LoadedStays(cfg, settings, steps, t, i);
  }

  lemma WarrantStays(cfg: WorkerConfig, settings: Settings, steps: seq<Step>, t: Token, w: Worker)
    requires steps != [] && Warranted(cfg, settings, steps[..|steps| - 1], t, w)
    ensures Warranted(cfg, settings, steps, t, w)
  {
    var before := steps[..|steps| - 1];
    if w.phase == Loaded {
      var i: nat :| LoadedAt(cfg, settings, before, t, i);
      LoadedStays(cfg, settings, steps, t, i);
    }
    if w.phase == Unjudged {
      var j: nat :| UnjudgedAt(cfg, settings, before, t, j);
      UnjudgedStays(cfg, settings, steps, t, j);
    }
    if w.callStart.Some? {
      var k := w.callStart.value;
      FoundAtStays(cfg, settings, steps, t, NotRebuilt(t), k);
      var j: nat :| j < k && UnjudgedAt(cfg, settings, before, t, j);
      UnjudgedStays(cfg, settings, steps, t, j);
    }
  }

  /** The three database checks that stand before a call are the only way to it. */
  lemma StepWarrants(cfg: WorkerConfig, s: System, step: Step, t: Token)
    requires t in Next(cfg, s, step).workers
    ensures var w := Next(cfg, s, step).workers[t];
      && (w.phase == Loaded && !(t in s.workers && s.workers[t].phase == Loaded) ==>
            Finds(cfg, s, step, t, LoadedHeld(t)) && Finds(cfg, s, step, t, LoadedCurrent(t)))
      && (w.phase == Unjudged && !(t in s.workers && s.workers[t].phase == Unjudged) ==>
            Finds(cfg, s, step, t, NotJudged(t)) && s.workers[t].phase == Loaded)
      && (w.callStart.Some? && !(t in s.workers && s.workers[t].callStart == w.callStart) ==>
            Finds(cfg, s, step, t, NotRebuilt(t)) && s.workers[t].phase == Unjudged && w.callStart.value == s.tick)
  {
    if t in s.workers {
      SuccessColumns(s.db.judgments, s.workers[t].job);
    }
  }

  /** Every classifier call was preceded, in this order, by the worker finding its lease in force and the
      job current, finding no stored success, and finding the rebuilt hash not out of date. */
  lemma {:induction false} CallsAreWarranted(cfg: WorkerConfig, settings: Settings, steps: seq<Step>, t: Token)
    requires t in Run(cfg, Start(settings), steps).workers
    ensures Warranted(cfg, settings, steps, t, Run(cfg, Start(settings), steps).workers[t])
  {
    if steps == [] {
    } else {
      var n := |steps| - 1;
      var s := Run(cfg, Start(settings), steps[..n]);
      TickCounts(cfg, settings, steps[..n]);
      if t in s.workers {
        CallsAreWarranted(cfg, settings, steps[..n], t);
        WarrantStays(cfg, settings, steps, t, s.workers[t]);
      }
      NowWarranted(cfg, settings, steps, t);
    }
  }

  lemma NowWarranted(cfg: WorkerConfig, settings: Settings, steps: seq<Step>, t: Token)
    requires steps != [] && t in Run(cfg, Start(settings), steps).workers
    requires var s := Run(cfg, Start(settings), steps[..|steps| - 1]);
      s.tick == |steps| - 1 && (t in s.workers ==> Warranted(cfg, settings, steps, t, s.workers[t]))
    requires var s := Run(cfg, Start(settings), steps[..|steps| - 1]);
      t in s.workers ==> Warranted(cfg, settings, steps[..|steps| - 1], t, s.workers[t])
    ensures Warranted(cfg, settings, steps, t, Run(cfg, Start(settings), steps).workers[t])
  {
    var n := |steps| - 1;
    var before := steps[..n];
    var s := Run(cfg, Start(settings), before);
    var w := Run(cfg, Start(settings), steps).workers[t];
    StepWarrants(cfg, s, steps[n], t);
    if w.phase == Loaded && !(t in s.workers && s.workers[t].phase == Loaded) {
      assert LoadedAt(cfg, settings, steps, t, n);
    }
    if w.phase == Unjudged && !(t in s.workers && s.workers[t].phase == Unjudged) {
      var i: nat :| LoadedAt(cfg, settings, before, t, i);
      LoadedStays(cfg, settings, steps, t, i);
      assert UnjudgedAt(cfg, settings, steps, t, n);
    }
    if w.callStart.Some? && !(t in s.workers && s.workers[t].callStart == w.callStart) {
      var j: nat :| UnjudgedAt(cfg, settings, before, t, j);
      UnjudgedStays(cfg, settings, steps, t, j);
      assert WarrantedAt(cfg, settings, steps, t, n);
    }
  }

  // ---------------------------------------------------------------- why a worker reports what it reports

  predicate Means(w: Worker, report: Report) {
    w.phase == Finished(report) || (w.phase.Settled? && w.phase.write.Finish? && w.phase.write.report == report)
  }

  predicate MeansRetry(w: Worker) {
    Means(w, RetryOut) || (w.phase.Settled? && w.phase.write.Reschedule?)
  }

  predicate MeansFailure(w: Worker) {
    Means(w, FailedOut) || (w.phase.Settled? && w.phase.write.Exhaust?)
  }

  /** A skip for any reason but that moderation is switched off. */
  predicate PlainSkip(w: Worker) {
    w.answer.Some? && w.answer.value.Typed? && w.answer.value.kind == "skipped" && w.answer.value.code != "moderation_disabled"
  }

  /** The worker goes by the classifier's answer. */
  predicate GoesByAnswer(w: Worker) {
    || w.phase.Retrying? || MeansRetry(w) || MeansFailure(w) || Means(w, DoneOut)
    || (Means(w, UnknownOut) && w.answer != Some(Raised))
  }

  /** Whether a worker that stands like this must have found that. */
  predicate Needs(w: Worker, t: Token, f: Finding) {
    || (f == Finding(CheckSuccess(t), IsJudged, true) && Means(w, ReusedOut))
    || (f == Finding(Refresh(t), IsCurrent, true) && GoesByAnswer(w))
    || (f == Finding(ReadAttempts(t), IsSpent, true) && MeansFailure(w) && !PlainSkip(w))
    || (f == Finding(ReadAttempts(t), IsSpent, false) && MeansRetry(w))
  }

  lemma StepReuses(cfg: WorkerConfig, s: System, step: Step, t: Token)
    requires t in s.workers ==> AnswerOk(s.workers[t]) && s.workers[t].job in s.db.rows
    requires t in Next(cfg, s, step).workers
    requires Means(Next(cfg, s, step).workers[t], ReusedOut) && !(t in s.workers && Means(s.workers[t], ReusedOut))
    ensures Finds(cfg, s, step, t, Finding(CheckSuccess(t), IsJudged, true))
  {
    SuccessColumns(s.db.judgments, s.workers[t].job);
  }

  lemma StepGoesByAnswer(cfg: WorkerConfig, s: System, step: Step, t: Token)
    requires t in s.workers ==> AnswerOk(s.workers[t]) && s.workers[t].job in s.db.rows
    requires t in Next(cfg, s, step).workers
    requires GoesByAnswer(Next(cfg, s, step).workers[t]) && !(t in s.workers && GoesByAnswer(s.workers[t]))
    ensures Finds(cfg, s, step, t, Finding(Refresh(t), IsCurrent, true))
  {
  }

  lemma StepFails(cfg: WorkerConfig, s: System, step: Step, t: Token)
    requires t in s.workers ==> AnswerOk(s.workers[t]) && s.workers[t].job in s.db.rows
    requires t in Next(cfg, s, step).workers
    requires MeansFailure(Next(cfg, s, step).workers[t]) && !PlainSkip(Next(cfg, s, step).workers[t])
    requires !(t in s.workers && MeansFailure(s.workers[t]) && !PlainSkip(s.workers[t]))
    ensures Finds(cfg, s, step, t, Finding(ReadAttempts(t), IsSpent, true))
  {
  }

  lemma StepRetries(cfg: WorkerConfig, s: System, step: Step, t: Token)
    requires t in s.workers ==> AnswerOk(s.workers[t]) && s.workers[t].job in s.db.rows
    requires t in Next(cfg, s, step).workers
    requires MeansRetry(Next(cfg, s, step).workers[t]) && !(t in s.workers && MeansRetry(s.workers[t]))
    ensures Finds(cfg, s, step, t, Finding(ReadAttempts(t), IsSpent, false))
  {
  }

  lemma StepNeeds(cfg: WorkerConfig, s: System, step: Step, t: Token, f: Finding)
    requires t in s.workers ==> AnswerOk(s.workers[t]) && s.workers[t].job in s.db.rows
    requires t in Next(cfg, s, step).workers
    requires Needs(Next(cfg, s, step).workers[t], t, f) && !(t in s.workers && Needs(s.workers[t], t, f))
    ensures Finds(cfg, s, step, t, f)
  {
    if f == Finding(CheckSuccess(t), IsJudged, true) {
      StepReuses(cfg, s, step, t);
    } else if f == Finding(Refresh(t), IsCurrent, true) {
      StepGoesByAnswer(cfg, s, step, t);
    } else if f == Finding(ReadAttempts(t), IsSpent, true) {
      StepFails(cfg, s, step, t);
    } else {
      StepRetries(cfg, s, step, t);
    }
  }

  lemma {:induction false} NeedsWereFound(cfg: WorkerConfig, settings: Settings, steps: seq<Step>, t: Token, f: Finding)
    requires t in Run(cfg, Start(settings), steps).workers && Needs(Run(cfg, Start(settings), steps).workers[t], t, f)
    ensures Found(cfg, settings, steps, t, f)
  {
    if steps != [] {
      var n := |steps| - 1;
      var s := Run(cfg, Start(settings), steps[..n]);
      RunKeepsInv(cfg, settings, steps[..n]);
      if t in s.workers && Needs(s.workers[t], t, f) {
        NeedsWereFound(cfg, settings, steps[..n], t, f);
        FoundStays(cfg, settings, steps, t, f);
      } else {
        StepNeeds(cfg, s, steps[n], t, f);
        assert FoundAt(cfg, settings, steps, t, f, n);
      }
    }
  }

  /** The three findings on which a worker gives its job up as superseded. */
  function Stale(t: Token, k: nat): Finding {
    if k == 0 then Finding(Load(t), IsCurrent, false)
    else if k == 1 then Finding(CheckBuild(t), IsRebuilt, true)
    else Finding(Refresh(t), IsCurrent, false)
  }

  lemma StepSupersedes(cfg: WorkerConfig, s: System, step: Step, t: Token)
    requires t in s.workers ==> s.workers[t].job in s.db.rows
    requires t in Next(cfg, s, step).workers && Means(Next(cfg, s, step).workers[t], SupersededOut)
    requires t in s.workers ==> !Means(s.workers[t], SupersededOut)
    ensures exists k :: 0 <= k < 3 && Finds(cfg, s, step, t, Stale(t, k))
  {
    if step == Load(t) {
      assert Finds(cfg, s, step, t, Stale(t, 0));
    } else if step == CheckBuild(t) {
      assert Finds(cfg, s, step, t, Stale(t, 1));
    } else {
      assert Finds(cfg, s, step, t, Stale(t, 2));
    }
  }

  lemma {:induction false} SupersededWasStale(cfg: WorkerConfig, settings: Settings, steps: seq<Step>, t: Token) returns (k: nat)
    requires t in Run(cfg, Start(settings), steps).workers && Means(Run(cfg, Start(settings), steps).workers[t], SupersededOut)
    ensures k < 3 && Found(cfg, settings, steps, t, Stale(t, k))
  {
    var n := |steps| - 1;
    var s := Run(cfg, Start(settings), steps[..n]);
    RunKeepsInv(cfg, settings, steps[..n]);
    if t in s.workers && Means(s.workers[t], SupersededOut) {
      k := SupersededWasStale(cfg, settings, steps[..n], t);
      FoundStays(cfg, settings, steps, t, Stale(t, k));
    } else {
      StepSupersedes(cfg, s, steps[n], t);
      k :| 0 <= k < 3 && Finds(cfg, s, steps[n], t, Stale(t, k));
      assert FoundAt(cfg, settings, steps, t, Stale(t, k), n);
    }
  }

  /** An answer that says the call was never billed, so that it may be tried again. */
  predicate MayBeTriedAgain(o: Outcome) {
    || o == Typed("skipped", "moderation_disabled") || o == Typed("unavailable", "typesafe_config")
    || o == Typed("unavailable", "typesafe_rate_limited")
  }

  predicate JudgesJob(o: Outcome, job: Identity) {
    o.Verdict? && o.judgment.complete && o.judgment.item == job.item && o.judgment.hash == job.hash
  }

  /** Every report has its reason, in the columns the worker read and the answer it got. */
  ghost predicate Reasoned(cfg: WorkerConfig, settings: Settings, steps: seq<Step>, t: Token, w: Worker, report: Report) {
    var current := Found(cfg, settings, steps, t, Finding(Refresh(t), IsCurrent, true));
    match report
    case FencedOut => w.landedAt.None?
    case SupersededOut => exists k :: 0 <= k < 3 && Found(cfg, settings, steps, t, Stale(t, k))
    case ReusedOut => w.callStart.None? && Found(cfg, settings, steps, t, Finding(CheckSuccess(t), IsJudged, true))
    case DoneOut => current && w.answer.Some? && JudgesJob(w.answer.value, w.job)
    case RetryOut => current && w.answer.Some? && MayBeTriedAgain(w.answer.value)
                     && Found(cfg, settings, steps, t, Finding(ReadAttempts(t), IsSpent, false))
    case FailedOut => current && w.answer.Some?
                      && (PlainSkip(w) || (MayBeTriedAgain(w.answer.value) && Found(cfg, settings, steps, t, Finding(ReadAttempts(t), IsSpent, true))))
    case UnknownOut => w.answer == Some(Raised)
                       || (current && w.answer.Some? && !MayBeTriedAgain(w.answer.value) && !JudgesJob(w.answer.value, w.job))
  }

  lemma AnswerColumns(w: Worker, report: Report)
    requires ReportFits(w, report)
    ensures report == ReusedOut ==> w.callStart.None?
    ensures report == DoneOut ==> w.answer.Some? && JudgesJob(w.answer.value, w.job)
    ensures report == RetryOut ==> w.answer.Some? && MayBeTriedAgain(w.answer.value)
    ensures report == FailedOut ==> w.answer.Some? && (PlainSkip(w) || MayBeTriedAgain(w.answer.value))
    ensures report == UnknownOut ==>
      w.answer == Some(Raised) || (w.answer.Some? && !MayBeTriedAgain(w.answer.value) && !JudgesJob(w.answer.value, w.job))
  {
  }

  lemma ReportsHaveReasons(cfg: WorkerConfig, settings: Settings, steps: seq<Step>, t: Token, report: Report)
    requires t in Run(cfg, Start(settings), steps).workers && Run(cfg, Start(settings), steps).workers[t].phase == Finished(report)
    ensures Reasoned(cfg, settings, steps, t, Run(cfg, Start(settings), steps).workers[t], report)
  {
    ReportsAreHonest(cfg, settings, steps, t);
    var w := Run(cfg, Start(settings), steps).workers[t];
    AnswerColumns(w, report);
    if report == SupersededOut {
      var k := SupersededWasStale(cfg, settings, steps, t);
    } else if report == ReusedOut {
      NeedsWereFound(cfg, settings, steps, t, Finding(CheckSuccess(t), IsJudged, true));
    } else if GoesByAnswer(w) {
      NeedsWereFound(cfg, settings, steps, t, Finding(Refresh(t), IsCurrent, true));
      if report == RetryOut {
        NeedsWereFound(cfg, settings, steps, t, Finding(ReadAttempts(t), IsSpent, false));
      } else if report == FailedOut && !PlainSkip(w) {
        NeedsWereFound(cfg, settings, steps, t, Finding(ReadAttempts(t), IsSpent, true));
      }
    }
  }

  /** Between its answer and its report a worker that found the job out of date can only supersede it. */
  predicate GivesUp(w: Worker) {
    w.phase == Settled(Finish(Superseded, SupersededOut)) || w.phase == Finished(SupersededOut) || w.phase == Finished(FencedOut)
  }

  /** An answer for a job whose item has another hash by then, or another question revision, is never written: whatever
      runs after the refresh, the worker supersedes the job or is fenced out. */
  lemma {:induction false} StaleAnswerIsSuperseded(cfg: WorkerConfig, settings: Settings, steps: seq<Step>, more: seq<Step>, t: Token)
    requires var s := Run(cfg, Start(settings), steps);
      && t in s.workers && s.workers[t].phase.Answered? && s.workers[t].job in s.db.rows
      && var job := s.workers[t].job;
         job.item !in s.db.currentHash || s.db.currentHash[job.item] != job.hash || job.revision != s.db.settings.revision
    ensures var w := Run(cfg, Start(settings), steps + [Refresh(t)] + more).workers;
      t in w && GivesUp(w[t])
    decreases |more|
  {
    if more == [] {
      RunOneMore(cfg, Start(settings), steps, Refresh(t));
      assert steps + [Refresh(t)] + more == steps + [Refresh(t)];
    } else {
      var before := steps + [Refresh(t)] + more[..|more| - 1];
      StaleAnswerIsSuperseded(cfg, settings, steps, more[..|more| - 1], t);
      RunOneMore(cfg, Start(settings), before, more[|more| - 1]);
      assert before + [more[|more| - 1]] == steps + [Refresh(t)] + more;
      RunKeepsInv(cfg, settings, before);
      StepGivesUp(cfg, Run(cfg, Start(settings), before), more[|more| - 1], t);
    }
  }

  lemma StepGivesUp(cfg: WorkerConfig, s: System, step: Step, t: Token)
    requires Workers(s) && t in s.workers && GivesUp(s.workers[t])
    ensures t in Next(cfg, s, step).workers && GivesUp(Next(cfg, s, step).workers[t])
  {
    assert t < s.db.nextToken;
  }

  // ---------------------------------------------------------------- what a worker writes, and for when

  /** The delay a retry waits: the base delay when moderation is switched off, and otherwise the base doubled for every
      attempt after the first; never above the cap. */
  predicate DelayFits(cfg: WorkerConfig, w: Worker, delay: int) {
    && w.answer.Some? && MayBeTriedAgain(w.answer.value)
    && delay == Min(cfg.cap, if w.answer.value.kind == "skipped" then Max(1, cfg.base) else cfg.base * Pow2(Max(0, Min(30, w.attempts - 1))))
  }

  predicate Delays(cfg: WorkerConfig, w: Worker) {
    && (w.phase.Retrying? ==> DelayFits(cfg, w, w.phase.delay))
    && (w.phase.Settled? && w.phase.write.Reschedule? ==> DelayFits(cfg, w, w.phase.write.delay))
  }

  lemma StepDelays(cfg: WorkerConfig, s: System, step: Step, t: Token)
    requires t in s.workers ==> AnswerOk(s.workers[t]) && Delays(cfg, s.workers[t])
    requires t in Next(cfg, s, step).workers
    ensures Delays(cfg, Next(cfg, s, step).workers[t])
  {
  }

  lemma {:induction false} RetriesAreDelayed(cfg: WorkerConfig, settings: Settings, steps: seq<Step>, t: Token)
    requires t in Run(cfg, Start(settings), steps).workers
    ensures Delays(cfg, Run(cfg, Start(settings), steps).workers[t])
  {
    if steps != [] {
      var n := |steps| - 1;
      var s := Run(cfg, Start(settings), steps[..n]);
      RunKeepsInv(cfg, settings, steps[..n]);
      if t in s.workers {
        RetriesAreDelayed(cfg, settings, steps[..n], t);
      }
      StepDelays(cfg, s, steps[n], t);
    }
  }

  /** The last write of a worker, in the columns: it lands exactly while the row is leased under the worker's token, it
      then gives up the lease and sets the decided status, a retry only for when its delay has passed, and no other row
      changes. */
  lemma WriteLands(cfg: WorkerConfig, s: System, t: Token, now: Time)
    requires t in s.workers && s.workers[t].phase.Settled? && s.workers[t].job in s.db.rows
    ensures var job, write, after := s.workers[t].job, s.workers[t].phase.write, Next(cfg, s, WriteBack(t, now));
      var r := s.db.rows[job];
      var held := r.status == Leased && r.lease.Some? && r.lease.value.token == t;
      && t in after.workers && (after.workers[t].landedAt == Some(s.tick) <==> held) && (!held ==> after.db == s.db)
      && (held ==> after.db.rows == s.db.rows[job :=
            match write
            case Finish(status, _) => r.(status := status, lease := None)
            case Exhaust => r.(status := Failed, lease := None)
            case Reschedule(delay) => r.(status := Retry, availableAt := now + Max(1, delay), lease := None)])
  {
    if !HeldBy(s.db.rows[s.workers[t].job], t) {
      assert s.db.rows == s.db.rows[s.workers[t].job := s.db.rows[s.workers[t].job]];
    }
  }

  // ---------------------------------------------------------------- a batch claim is a run of single claims

  function ClaimAt(now: Time, leaseSeconds: nat): Identity -> Step {
    job => Claim(job, now, leaseSeconds)
  }

  function BatchSteps(queue: seq<Identity>, n: nat, now: Time, leaseSeconds: nat): seq<Step>
    requires n <= |queue|
  {
    ClaimSteps(queue, n, Expire(now), ClaimAt(now, leaseSeconds))
  }

  lemma RunOneMore(cfg: WorkerConfig, s: System, steps: seq<Step>, step: Step)
    ensures Run(cfg, s, steps + [step]) == Next(cfg, Run(cfg, s, steps), step)
  {
    assert (steps + [step])[..|steps|] == steps;
  }

  lemma ClaimEffect(cfg: WorkerConfig, s: System, job: Identity, now: Time, leaseSeconds: nat)
    requires job in s.db.rows && Ready(s.db.rows[job], now)
    ensures Next(cfg, s, Claim(job, now, leaseSeconds)).db == s.db.(
      rows := s.db.rows[job := LeaseRow(s.db.rows[job], s.db.nextToken, now + leaseSeconds)],
      nextToken := s.db.nextToken + 1)
  {
  }

  function LeasedRows(rows: Rows, queue: seq<Identity>, n: nat, token: Token, now: Time, leaseSeconds: nat): Rows
    requires n <= |queue| && AllIn(queue, ExpireAll(rows, now))
  {
    LeaseFirst(ExpireAll(rows, now), queue, n, token, now + leaseSeconds)
  }

  /** The claim transaction has the effect of one expiry followed by one claim per selected row, so every
      theorem about runs of single steps covers it. */
  lemma {:induction false} BatchClaimIsARun(cfg: WorkerConfig, s: System, queue: seq<Identity>, n: nat, now: Time, leaseSeconds: nat)
    requires n <= |queue| && NoDuplicates(queue) && AllIn(queue, ExpireAll(s.db.rows, now))
    requires forall i :: 0 <= i < |queue| ==> Ready(ExpireAll(s.db.rows, now)[queue[i]], now)
    ensures Run(cfg, s, BatchSteps(queue, n, now, leaseSeconds)).db == s.db.(
      rows := LeasedRows(s.db.rows, queue, n, s.db.nextToken, now, leaseSeconds), nextToken := s.db.nextToken + n)
  {
    if n == 0 {
      RunOneMore(cfg, s, [], Expire(now));
      assert [] + [Expire(now)] == BatchSteps(queue, n, now, leaseSeconds);
    } else {
      BatchClaimIsARun(cfg, s, queue, n - 1, now, leaseSeconds);
      var before := Run(cfg, s, BatchSteps(queue, n - 1, now, leaseSeconds));
      RunOneMore(cfg, s, BatchSteps(queue, n - 1, now, leaseSeconds), Claim(queue[n - 1], now, leaseSeconds));
      ClaimExtends(cfg, s, before, queue, n, now, leaseSeconds);
    }
  }

  lemma ClaimExtends(cfg: WorkerConfig, s: System, before: System, queue: seq<Identity>, n: nat, now: Time, leaseSeconds: nat)
    requires 0 < n <= |queue| && NoDuplicates(queue) && AllIn(queue, ExpireAll(s.db.rows, now))
    requires Ready(ExpireAll(s.db.rows, now)[queue[n - 1]], now)
    requires before.db == s.db.(
      rows := LeasedRows(s.db.rows, queue, n - 1, s.db.nextToken, now, leaseSeconds), nextToken := s.db.nextToken + n - 1)
    ensures Next(cfg, before, Claim(queue[n - 1], now, leaseSeconds)).db == s.db.(
      rows := LeasedRows(s.db.rows, queue, n, s.db.nextToken, now, leaseSeconds), nextToken := s.db.nextToken + n)
  {
    NextStaysAsItWas(ExpireAll(s.db.rows, now), queue, n - 1, s.db.nextToken, now + leaseSeconds);
    ClaimEffect(cfg, before, queue[n - 1], now, leaseSeconds);
  }

  // ---------------------------------------------------------------- a detail transaction is a run of single writes

  /** One detail write per share, in order. */
  ghost predicate WritesEach(steps: seq<Step>, changes: seq<DetailChange>, now: Time) {
    && |steps| == |changes|
    && forall i :: 0 <= i < |steps| ==> steps[i] == DetailWrite(changes[i].item, changes[i].built, changes[i].complete, now)
  }

  /** From any state with this database the step leads to that one, and no worker moves. */
  ghost predicate Leads(cfg: WorkerConfig, step: Step, before: Db, after: Db) {
    forall s: System :: s.db == before ==> Next(cfg, s, step).db == after && Next(cfg, s, step).workers == s.workers
  }

  /** A detail transaction over an item and its seasons has the effect of its single writes one after the other, so
      every theorem about runs of single steps covers it. */
  lemma DetailTransactionIsARun(cfg: WorkerConfig, s: System, changes: seq<DetailChange>, now: Time, states: seq<Db>, steps: seq<Step>)
    requires Transacts(s.db, changes, now, states) && WritesEach(steps, changes, now)
    ensures Run(cfg, s, steps).db == states[|changes|] && Run(cfg, s, steps).workers == s.workers
  {
    forall i | 0 <= i < |steps|
      ensures Leads(cfg, steps[i], states[i], states[i + 1])
    {
      assert Shares(states[i], changes[i], now, states[i + 1]);
      ShareLeads(cfg, changes[i], now, states[i], states[i + 1]);
    }
    LeadsAreARun(cfg, s, states, steps);
  }

  lemma {:induction false} LeadsAreARun(cfg: WorkerConfig, s: System, states: seq<Db>, steps: seq<Step>)
    requires |states| == |steps| + 1 && states[0] == s.db
    requires forall i :: 0 <= i < |steps| ==> Leads(cfg, steps[i], states[i], states[i + 1])
    ensures Run(cfg, s, steps).db == states[|steps|] && Run(cfg, s, steps).workers == s.workers
    decreases |steps|
  {
    if steps != [] {
      var n := |steps| - 1;
      LeadsAreARun(cfg, s, states[..n + 1], steps[..n]);
      assert Leads(cfg, steps[n], states[n], states[n + 1]);
      assert Run(cfg, s, steps) == Next(cfg, Run(cfg, s, steps[..n]), steps[n]);
    }
  }

  lemma ShareLeads(cfg: WorkerConfig, c: DetailChange, now: Time, before: Db, after: Db)
    requires Shares(before, c, now, after)
    ensures Leads(cfg, DetailWrite(c.item, c.built, c.complete, now), before, after)
  {
    forall s: System | s.db == before
      ensures var r := Next(cfg, s, DetailWrite(c.item, c.built, c.complete, now)); r.db == after && r.workers == s.workers
    {
      ShareEffect(cfg, s, c, now, after);
    }
  }

  lemma ShareEffect(cfg: WorkerConfig, s: System, c: DetailChange, now: Time, after: Db)
    requires Shares(s.db, c, now, after)
    ensures Next(cfg, s, DetailWrite(c.item, c.built, c.complete, now)).db == after
    ensures Next(cfg, s, DetailWrite(c.item, c.built, c.complete, now)).workers == s.workers
  {
  }
}
