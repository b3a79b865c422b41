/** A reachable run in which the moderation worker reports a failure it did not write. */
module ModerationExamples {
  import opened Prelude
  import opened JobQueue
  import opened ModerationOutbox
  import opened ModerationRuns
  import opened ModerationCalls

  const CONFIG := WorkerConfig(1, 5, 900)
  const SETTINGS := Settings(true, "m", "r")
  const JOB := Identity(1, "h", "m", "r")

  /** The job has this row, and its one worker stands here. */
  ghost predicate Stands(s: System, row: Row, phase: Phase, attempts: nat) {
    && JOB in s.db.rows && s.db.rows[JOB] == row && s.db.judgments == {} && s.db.settings == SETTINGS
    && s.db.currentHash == map[1 := "h"] && s.db.built == map[1 := BuiltHash("h")]
    && 0 in s.workers && s.workers[0].job == JOB && s.workers[0].phase == phase && s.workers[0].attempts == attempts
  }

  function Admitted(): System {
    Next(CONFIG, Start(SETTINGS), DetailWrite(1, BuiltHash("h"), true, 0))
  }

  const HELD := Row(0, Leased, 1, 0, Some(Lease(0, 10)))
  const REFUSED := Typed("unavailable", "typesafe_rate_limited")

  lemma JobIsClaimed()
    ensures Stands(Next(CONFIG, Admitted(), Claim(JOB, 0, 10)), HELD, Claimed, 0)
  {
    var s := Start(SETTINGS);
    var db := s.db.(built := s.db.built[1 := BuiltHash("h")], complete := s.db.complete + {1}, currentHash := map[1 := "h"]);
    assert WriteDetail(s.db, 1, BuiltHash("h"), true, 0) == Enqueue(db, 1, Some("h"), 0);
    assert !HasSuccess(db.judgments, JOB) && JOB !in SupersedeStale(db.rows, 1, Some("h"));
    assert Enqueue(db, 1, Some("h"), 0).rows[JOB] == NewRow(0, 0);
    assert Admitted().db.nextToken == 0 && Admitted().db.rows[JOB] == NewRow(0, 0);
  }

  lemma JobIsSent(s: System)
    requires Stands(s, HELD, Claimed, 0)
    ensures Stands(Run(CONFIG, s, [Load(0), CheckSuccess(0), CheckBuild(0)]), HELD, Calling, 1)
  {
    var loaded := Next(CONFIG, s, Load(0));
    assert Stands(loaded, HELD, Loaded, 1);
    var unjudged := Next(CONFIG, loaded, CheckSuccess(0));
    assert Stands(unjudged, HELD, Unjudged, 1);
    Three(s, Load(0), CheckSuccess(0), CheckBuild(0));
  }

  lemma AnswerSpendsTheLastAttempt(s: System)
    requires Stands(s, HELD, Calling, 1)
    ensures Stands(Run(CONFIG, s, [EndCall(0, REFUSED), Refresh(0), ReadAttempts(0)]), HELD, Settled(Exhaust), 1)
  {
    var answered := Next(CONFIG, s, EndCall(0, REFUSED));
    assert Stands(answered, HELD, Answered(REFUSED), 1);
    var decided := Next(CONFIG, answered, Refresh(0));
    assert Stands(decided, HELD, Retrying(BackoffDelay(1, 5, 900)), 1);
    Three(s, EndCall(0, REFUSED), Refresh(0), ReadAttempts(0));
  }

  lemma LeaseRunsOutBeforeTheWrite(s: System)
    requires Stands(s, HELD, Settled(Exhaust), 1)
    ensures var after := Next(CONFIG, Next(CONFIG, s, Expire(100)), WriteBack(0, 200));
      Stands(after, HELD.(status := OutcomeUnknown, lease := None), Finished(FailedOut), 1)
  {
    assert Stands(Next(CONFIG, s, Expire(100)), HELD.(status := OutcomeUnknown, lease := None), Settled(Exhaust), 1);
  }

  lemma Three(s: System, a: Step, b: Step, c: Step)
    ensures Run(CONFIG, s, [a, b, c]) == Next(CONFIG, Next(CONFIG, Next(CONFIG, s, a), b), c)
  {
    Two(s, a, b);
    RunOneMore(CONFIG, s, [a, b], c);
    assert [a, b] + [c] == [a, b, c];
  }

  /** From the empty table: the last attempt is refused, the lease runs out before the write, and the worker reports
      'failed' for a row that is OUTCOME_UNKNOWN. */
  lemma FailureReportedButNotWritten() returns (steps: seq<Step>)
    ensures var s := Run(CONFIG, Start(SETTINGS), steps);
      && 0 in s.workers && s.workers[0].job == JOB && s.workers[0].phase == Finished(FailedOut)
      && JOB in s.db.rows && s.db.rows[JOB].status == OutcomeUnknown
  {
    var s := Start(SETTINGS);
    var begin := [DetailWrite(1, BuiltHash("h"), true, 0), Claim(JOB, 0, 10)];
    var send := [Load(0), CheckSuccess(0), CheckBuild(0)];
    var answer := [EndCall(0, REFUSED), Refresh(0), ReadAttempts(0)];
    var finish := [Expire(100), WriteBack(0, 200)];
    JobIsClaimed();
    Two(s, begin[0], begin[1]);
    RunSplits(CONFIG, s, begin, send);
    JobIsSent(Run(CONFIG, s, begin));
    RunSplits(CONFIG, s, begin + send, answer);
    AnswerSpendsTheLastAttempt(Run(CONFIG, s, begin + send));
    RunSplits(CONFIG, s, begin + send + answer, finish);
    LeaseRunsOutBeforeTheWrite(Run(CONFIG, s, begin + send + answer));
    Two(Run(CONFIG, s, begin + send + answer), finish[0], finish[1]);
    steps := begin + send + answer + finish;
  }

  lemma Two(s: System, a: Step, b: Step)
    ensures Run(CONFIG, s, [a, b]) == Next(CONFIG, Next(CONFIG, s, a), b)
  {
    RunOneMore(CONFIG, s, [], a);
    RunOneMore(CONFIG, s, [a], b);
    assert [] + [a] == [a] && [a] + [b] == [a, b];
  }

  lemma {:induction false} RunSplits(cfg: WorkerConfig, s: System, steps: seq<Step>, more: seq<Step>)
    ensures Run(cfg, s, steps + more) == Run(cfg, Run(cfg, s, steps), more)
    decreases |more|
  {
    if more == [] {
      assert steps + more == steps;
    } else {
      assert (steps + more)[..|steps + more| - 1] == steps + more[..|more| - 1];
      RunSplits(cfg, s, steps, more[..|more| - 1]);
    }
  }
}
