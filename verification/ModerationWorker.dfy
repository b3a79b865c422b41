/** process_claim as one worker carries it out, refining the single steps of the interleaved machine. */
module ModerationWorker {
  import opened Prelude
  import opened JobQueue
  import opened ModerationOutbox
  import opened ModerationRuns
  import opened ModerationCalls

  // ---------------------------------------------------------------- the steps one claim still has to take

  function FromRetry(cfg: WorkerConfig, s: System, t: Token, now: Time): System {
    Next(cfg, Next(cfg, s, ReadAttempts(t)), WriteBack(t, now))
  }

  function FromRefresh(cfg: WorkerConfig, s: System, t: Token, now: Time): System {
    FromRetry(cfg, Next(cfg, s, Refresh(t)), t, now)
  }

  function FromCall(cfg: WorkerConfig, s: System, t: Token, outcome: Outcome, now: Time): System {
    FromRefresh(cfg, Next(cfg, s, EndCall(t, outcome)), t, now)
  }

  function FromBuild(cfg: WorkerConfig, s: System, t: Token, outcome: Outcome, now: Time): System {
    FromCall(cfg, Next(cfg, s, CheckBuild(t)), t, outcome, now)
  }

  function FromSuccess(cfg: WorkerConfig, s: System, t: Token, outcome: Outcome, now: Time): System {
    FromBuild(cfg, Next(cfg, s, CheckSuccess(t)), t, outcome, now)
  }

  function FromLoad(cfg: WorkerConfig, s: System, t: Token, outcome: Outcome, now: Time): System {
    FromSuccess(cfg, Next(cfg, s, Load(t)), t, outcome, now)
  }

  function ProcessSteps(t: Token, outcome: Outcome, now: Time): seq<Step> {
    [Load(t), CheckSuccess(t), CheckBuild(t), EndCall(t, outcome), Refresh(t), ReadAttempts(t), WriteBack(t, now)]
  }

  lemma FromLoadIsARun(cfg: WorkerConfig, s: System, t: Token, outcome: Outcome, now: Time)
    ensures Run(cfg, s, ProcessSteps(t, outcome, now)) == FromLoad(cfg, s, t, outcome, now)
  {
    var steps := ProcessSteps(t, outcome, now);
    assert Run(cfg, s, steps[..0]) == s;
    forall i | 0 <= i < |steps|
      ensures Run(cfg, s, steps[..i + 1]) == Next(cfg, Run(cfg, s, steps[..i]), steps[i])
    {
      RunOneMore(cfg, s, steps[..i], steps[i]);
      assert steps[..i + 1] == steps[..i] + [steps[i]];
    }
    assert steps[..7] == steps;
    assert Run(cfg, s, steps[..1]) == Next(cfg, s, Load(t));
    assert Run(cfg, s, steps[..2]) == Next(cfg, Run(cfg, s, steps[..1]), CheckSuccess(t));
    assert Run(cfg, s, steps[..3]) == Next(cfg, Run(cfg, s, steps[..2]), CheckBuild(t));
    assert Run(cfg, s, steps[..4]) == Next(cfg, Run(cfg, s, steps[..3]), EndCall(t, outcome));
    assert Run(cfg, s, steps[..5]) == Next(cfg, Run(cfg, s, steps[..4]), Refresh(t));
    assert Run(cfg, s, steps[..6]) == Next(cfg, Run(cfg, s, steps[..5]), ReadAttempts(t));
  }

  // ---------------------------------------------------------------- a decided worker only has its write left

  ghost predicate Doing(s: System, t: Token, job: Identity, phase: Phase) {
    t in s.workers && s.workers[t].job == job && s.workers[t].phase == phase && job in s.db.rows
  }

  /** The write `write` has been made on `db`, or was fenced out, and the worker reports so. */
  ghost predicate Lands(db: Db, after: System, t: Token, job: Identity, write: Write, now: Time) {
    && job in db.rows && after.db == db.(rows := db.rows[job := Written(db.rows[job], t, write, now)])
    && t in after.workers && after.workers[t].phase == Finished(ReportOf(write, HeldBy(db.rows[job], t)))
  }

  lemma SettledFromRetry(cfg: WorkerConfig, s: System, t: Token, job: Identity, write: Write, now: Time)
    requires Doing(s, t, job, Settled(write))
    ensures Lands(s.db, FromRetry(cfg, s, t, now), t, job, write, now)
  {
  }

  lemma SettledFromRefresh(cfg: WorkerConfig, s: System, t: Token, job: Identity, write: Write, now: Time)
    requires Doing(s, t, job, Settled(write))
    ensures Lands(s.db, FromRefresh(cfg, s, t, now), t, job, write, now)
  {
    SettledFromRetry(cfg, Next(cfg, s, Refresh(t)), t, job, write, now);
  }

  lemma SettledFromCall(cfg: WorkerConfig, s: System, t: Token, job: Identity, write: Write, outcome: Outcome, now: Time)
    requires Doing(s, t, job, Settled(write))
    ensures Lands(s.db, FromCall(cfg, s, t, outcome, now), t, job, write, now)
  {
    SettledFromRefresh(cfg, Next(cfg, s, EndCall(t, outcome)), t, job, write, now);
  }

  lemma SettledFromBuild(cfg: WorkerConfig, s: System, t: Token, job: Identity, write: Write, outcome: Outcome, now: Time)
    requires Doing(s, t, job, Settled(write))
    ensures Lands(s.db, FromBuild(cfg, s, t, outcome, now), t, job, write, now)
  {
    SettledFromCall(cfg, Next(cfg, s, CheckBuild(t)), t, job, write, outcome, now);
  }

  lemma SettledFromSuccess(cfg: WorkerConfig, s: System, t: Token, job: Identity, write: Write, outcome: Outcome, now: Time)
    requires Doing(s, t, job, Settled(write))
    ensures Lands(s.db, FromSuccess(cfg, s, t, outcome, now), t, job, write, now)
  {
    SettledFromBuild(cfg, Next(cfg, s, CheckSuccess(t)), t, job, write, outcome, now);
  }

  lemma FencedFromSuccess(cfg: WorkerConfig, s: System, t: Token, job: Identity, outcome: Outcome, now: Time)
    requires Doing(s, t, job, Finished(FencedOut))
    ensures FromSuccess(cfg, s, t, outcome, now).db == s.db
    ensures Doing(FromSuccess(cfg, s, t, outcome, now), t, job, Finished(FencedOut))
  {
    var a := Next(cfg, s, CheckSuccess(t));
    var b := Next(cfg, a, CheckBuild(t));
    assert b.db == s.db && b.workers == s.workers;
    var c := Next(cfg, Next(cfg, b, EndCall(t, outcome)), Refresh(t));
    assert c.db == s.db && c.workers == s.workers;
  }

  // ---------------------------------------------------------------- the worker

  /** A fenced `_finish` with the report the worker makes of it. */
  method FinishAs(table: ModerationTable, job: Identity, token: Token, status: Status, report: Report, now: Time) returns (r: Report)
    requires job in table.rows
    modifies table
    ensures var db := old(table.Contents());
      && table.Contents() == db.(rows := db.rows[job := Written(db.rows[job], token, Finish(status, report), now)])
      && r == ReportOf(Finish(status, report), HeldBy(db.rows[job], token))
  {
    var changed := table.Finish(job, token, status);
    return if changed then report else FencedOut;
  }

  /** _schedule_retry. */
  method ScheduleRetry(table: ModerationTable, cfg: WorkerConfig, job: Identity, token: Token, delay: int, now: Time, ghost s: System)
      returns (r: Report)
    requires s.db == table.Contents() && Doing(s, token, job, Retrying(delay))
    modifies table
    ensures var after := FromRetry(cfg, s, token, now);
      table.Contents() == after.db && token in after.workers && after.workers[token].phase == Finished(r)
  {
    if !HeldBy(table.rows[job], token) {
      return FencedOut;
    }
    if table.rows[job].attempts >= cfg.maxAttempts {
      var _ := table.Finish(job, token, Failed);
      return FailedOut;
    }
    var changed := table.Retry(job, token, now + Max(1, delay));
    return if changed then RetryOut else FencedOut;
  }

  /** What follows the classifier's answer. */
  method SettleAnswer(table: ModerationTable, cfg: WorkerConfig, job: Identity, token: Token, outcome: Outcome, attempts: nat,
                      now: Time, ghost s: System) returns (r: Report)
    requires s.db == table.Contents() && Doing(s, token, job, Answered(outcome)) && s.workers[token].attempts == attempts
    modifies table
    ensures var after := FromRefresh(cfg, s, token, now);
      table.Contents() == after.db && token in after.workers && after.workers[token].phase == Finished(r)
  {
    ghost var decided := Next(cfg, s, Refresh(token));
    ghost var phase := Decide(cfg, s.workers[token], outcome, CurrentIn(s.db.currentHash, s.db.settings, job));
    assert Doing(decided, token, job, phase) && decided.db == s.db;
    if phase.Settled? {
      SettledFromRetry(cfg, decided, token, job, phase.write, now);
    }
    if !CurrentIn(table.currentHash, table.settings, job) {
      r := FinishAs(table, job, token, Superseded, SupersededOut, now);
      return;
    }
    if outcome.Typed? {
      if outcome.kind == "skipped" && outcome.code == "moderation_disabled" {
        var delay := Min(cfg.cap, Max(1, cfg.base));
        r := ScheduleRetry(table, cfg, job, token, delay, now, decided);
        return;
      }
      if outcome.kind == "skipped" {
        r := FinishAs(table, job, token, Failed, FailedOut, now);
        return;
      }
      if outcome.kind == "unavailable" && Retryable(outcome.code) {
        r := ScheduleRetry(table, cfg, job, token, BackoffDelay(attempts, cfg.base, cfg.cap), now, decided);
        return;
      }
      r := FinishAs(table, job, token, OutcomeUnknown, UnknownOut, now);
      return;
    }
    if outcome.Verdict? && outcome.judgment.complete && outcome.judgment.hash == job.hash && outcome.judgment.item == job.item {
      r := FinishAs(table, job, token, Done, DoneOut, now);
      return;
    }
    r := FinishAs(table, job, token, OutcomeUnknown, UnknownOut, now);
  }

  /** The classifier call: a judgment it returns is stored; then the answer is settled, or the exception is. */
  method CallAndSettle(table: ModerationTable, cfg: WorkerConfig, job: Identity, token: Token, outcome: Outcome, attempts: nat,
                       now: Time, ghost s: System) returns (r: Report)
    requires s.db == table.Contents() && Doing(s, token, job, Calling) && s.workers[token].attempts == attempts
    modifies table
    ensures var after := FromCall(cfg, s, token, outcome, now);
      table.Contents() == after.db && token in after.workers && after.workers[token].phase == Finished(r)
  {
    ghost var called := Next(cfg, s, EndCall(token, outcome));
    if outcome.Raised? {
      SettledFromRefresh(cfg, called, token, job, Finish(OutcomeUnknown, UnknownOut), now);
      r := FinishAs(table, job, token, OutcomeUnknown, UnknownOut, now);
      return;
    }
    if outcome.Verdict? {
      table.judgments := table.judgments + {outcome.judgment};
    }
    r := SettleAnswer(table, cfg, job, token, outcome, attempts, now, called);
  }

  /** process_claim with nobody else about has exactly the effect and the report of its steps in the interleaved
      machine, so those steps are the function's own branches in their own order. */
  method ProcessClaim(table: ModerationTable, cfg: WorkerConfig, job: Identity, token: Token, outcome: Outcome, now: Time,
                      ghost s: System) returns (r: Report)
    requires s.db == table.Contents() && Doing(s, token, job, Claimed)
    modifies table
    ensures var after := Run(cfg, s, ProcessSteps(token, outcome, now));
      table.Contents() == after.db && token in after.workers && after.workers[token].phase == Finished(r)
  {
    FromLoadIsARun(cfg, s, token, outcome, now);
    ghost var loaded := Next(cfg, s, Load(token));
    if !HeldBy(table.rows[job], token) {
      FencedFromSuccess(cfg, loaded, token, job, outcome, now);
      return FencedOut;
    }
    var attempts := table.rows[job].attempts;
    if !CurrentIn(table.currentHash, table.settings, job) {
      SettledFromSuccess(cfg, loaded, token, job, Finish(Superseded, SupersededOut), outcome, now);
      r := FinishAs(table, job, token, Superseded, SupersededOut, now);
      return;
    }
    r := CheckAndCall(table, cfg, job, token, outcome, attempts, now, loaded);
  }

  /** The two checks that can spare the call. */
  method CheckAndCall(table: ModerationTable, cfg: WorkerConfig, job: Identity, token: Token, outcome: Outcome, attempts: nat,
                      now: Time, ghost s: System) returns (r: Report)
    requires s.db == table.Contents() && Doing(s, token, job, Loaded) && s.workers[token].attempts == attempts
    modifies table
    ensures var after := FromSuccess(cfg, s, token, outcome, now);
      table.Contents() == after.db && token in after.workers && after.workers[token].phase == Finished(r)
  {
    ghost var checked := Next(cfg, s, CheckSuccess(token));
    if HasSuccess(table.judgments, job) {
      SettledFromBuild(cfg, checked, token, job, Finish(Done, ReusedOut), outcome, now);
      r := FinishAs(table, job, token, Done, ReusedOut, now);
      return;
    }
    if Outdated(table.built, job) {
      SettledFromCall(cfg, Next(cfg, checked, CheckBuild(token)), token, job, Finish(Superseded, SupersededOut), outcome, now);
      r := FinishAs(table, job, token, Superseded, SupersededOut, now);
      return;
    }
    r := CallAndSettle(table, cfg, job, token, outcome, attempts, now, Next(cfg, checked, CheckBuild(token)));
  }
}
