/** What a finished or retried preparation job means, over whole runs and in the columns the worker read. */
module MetadataReports {
  import opened Prelude
  import opened JobQueue
  import opened MetadataAdmission
  import opened MetadataRuns

  /** With no admission under way, one opens exactly when fewer than 1000 jobs are QUEUED, LEASED or RETRY, and then for
      as many as are missing to that. */
  lemma AdmissionOpensIff(cfg: Config, s: System, candidates: seq<ItemId>)
    requires s.admission.None?
    ensures var pending := |set k | k in s.rows && s.rows[k].status in {Queued, Leased, Retry}|;
      Next(cfg, s, BeginAdmission(candidates)).admission == if pending < 1000 then Some(Pending(candidates, 1000 - pending)) else None
  {
    SlotsColumns(s.rows);
  }

  // ---------------------------------------------------------------- done means there is detail

  ghost predicate Detailed(s: System) {
    && (forall k :: k in s.rows && s.rows[k].status == Done ==> k in s.detail)
    && (forall t :: t in s.workers && s.workers[t].phase == Settled(MarkDone) ==> s.workers[t].job in s.detail)
    && (forall t :: t in s.workers && s.workers[t].phase == Existing ==> s.workers[t].job in s.detail)
  }

  lemma StepKeepsDetailed(cfg: Config, s: System, step: Step)
    requires Detailed(s)
    ensures Detailed(Next(cfg, s, step))
  {
    var after := Next(cfg, s, step);
    forall k | k in after.rows && after.rows[k].status == Done
      ensures k in after.detail
    {
      DoneNeedsDetail(cfg, s, step, k);
    }
    forall t | t in after.workers && (after.workers[t].phase == Settled(MarkDone) || after.workers[t].phase == Existing)
      ensures after.workers[t].job in after.detail
    {
      WorkerNeedsDetail(cfg, s, step, t);
    }
  }

  lemma WorkerNeedsDetail(cfg: Config, s: System, step: Step, t: Token)
    requires Detailed(s) && t in Next(cfg, s, step).workers
    requires Next(cfg, s, step).workers[t].phase == Settled(MarkDone) || Next(cfg, s, step).workers[t].phase == Existing
    ensures Next(cfg, s, step).workers[t].job in Next(cfg, s, step).detail
  {
  }

  lemma DoneNeedsDetail(cfg: Config, s: System, step: Step, k: ItemId)
    requires Detailed(s) && k in Next(cfg, s, step).rows && Next(cfg, s, step).rows[k].status == Done
    ensures k in Next(cfg, s, step).detail
  {
  }

  /** In every reachable state a DONE job has stored detail. */
  lemma {:induction false} DoneMeansDetail(cfg: Config, steps: seq<Step>)
    ensures Detailed(Run(cfg, steps))
  {
    if steps != [] {
      var n := |steps| - 1;
      DoneMeansDetail(cfg, steps[..n]);
      StepKeepsDetailed(cfg, Run(cfg, steps[..n]), steps[n]);
    }
  }

  // ---------------------------------------------------------------- why a worker reports what it reports

  /** What decides a job: under its lease, whether the reconciled detail has a hash; or whether the fetch brought a
      payload and detail is stored. */
  predicate Decides(s: System, step: Step, t: Token, good: bool) {
    && t in s.workers && s.workers[t].job in s.rows
    && var job := s.workers[t].job;
       match step
       case Reconcile(u, now, hashed) =>
         u == t && s.workers[t].phase == Existing && InForce(s.rows[job], t, now) && (good <==> hashed && job in s.detail)
       case Inspect(u, payload) =>
         u == t && (s.workers[t].phase == Missing || s.workers[t].phase == Fetched) && (good <==> payload && job in s.detail)
       case _ => false
  }

  ghost predicate DecidedAt(cfg: Config, steps: seq<Step>, t: Token, good: bool, i: nat) {
    i < |steps| && Decides(Run(cfg, steps[..i]), steps[i], t, good)
  }

  predicate Means(w: Worker, good: bool) {
    match w.phase
    case Settled(write) => if good then write == MarkDone else write == RetryOrFail
    case Finished(report) => if good then report == DoneOut else report == RetryOut || report == FailedOut
    case _ => false
  }

  lemma StepDecides(cfg: Config, s: System, step: Step, t: Token, good: bool)
    requires t in Next(cfg, s, step).workers && Means(Next(cfg, s, step).workers[t], good)
    requires !(t in s.workers && Means(s.workers[t], good))
    ensures Decides(s, step, t, good)
  {
  }

  /** A worker that reports done reconciled hashed detail under its lease, or found a payload and stored detail; one that
      reports retry or failure found one of them missing. */
  lemma {:induction false} ReportsHaveReasons(cfg: Config, steps: seq<Step>, t: Token, good: bool) returns (i: nat)
    requires t in Run(cfg, steps).workers && Means(Run(cfg, steps).workers[t], good)
    ensures DecidedAt(cfg, steps, t, good, i)
  {
    var n := |steps| - 1;
    var s := Run(cfg, steps[..n]);
    if t in s.workers && Means(s.workers[t], good) {
      i := ReportsHaveReasons(cfg, steps[..n], t, good);
      assert steps[..n][..i] == steps[..i];
    } else {
      StepDecides(cfg, s, steps[n], t, good);
      i := n;
    }
  }

  /** Whether a retry or a failure is reported depends on the attempts the worker read. */
  predicate Spends(cfg: Config, w: Worker) {
    && (w.phase == Finished(FailedOut) ==> w.attempts >= cfg.maxAttempts)
    && (w.phase == Finished(RetryOut) ==> w.attempts < cfg.maxAttempts)
  }

  lemma {:induction false} FailuresAreSpent(cfg: Config, steps: seq<Step>, t: Token)
    requires t in Run(cfg, steps).workers
    ensures Spends(cfg, Run(cfg, steps).workers[t])
  {
    if steps != [] {
      var n := |steps| - 1;
      if t in Run(cfg, steps[..n]).workers {
        FailuresAreSpent(cfg, steps[..n], t);
      }
      StepSpends(cfg, Run(cfg, steps[..n]), steps[n], t);
    }
  }

  lemma StepSpends(cfg: Config, s: System, step: Step, t: Token)
    requires t in s.workers ==> Spends(cfg, s.workers[t])
    requires t in Next(cfg, s, step).workers
    ensures Spends(cfg, Next(cfg, s, step).workers[t])
  {
  }

  // ---------------------------------------------------------------- what a worker writes, and for when

  /** The last write of a worker, in the columns: it lands exactly while the lease is in force; then the row is DONE, or
      FAILED when the attempts read are spent, or RETRY for when the doubled, capped delay has passed. */
  lemma WriteLands(cfg: Config, s: System, t: Token, now: Time)
    requires t in s.workers && s.workers[t].phase.Settled? && s.workers[t].job in s.rows
    ensures var w, after := s.workers[t], Next(cfg, s, WriteBack(t, now));
      var r, spent := s.rows[w.job], w.attempts >= cfg.maxAttempts;
      && t in after.workers && (after.workers[t].landedAt == Some(s.tick) <==> InForce(r, t, now))
      && (!InForce(r, t, now) ==> after.rows == s.rows && after.workers[t].phase == Finished(FencedOut))
      && (InForce(r, t, now) && w.phase.write == MarkDone ==>
            after.rows == s.rows[w.job := r.(status := Done, lease := None)] && after.workers[t].phase == Finished(DoneOut))
      && (InForce(r, t, now) && w.phase.write == RetryOrFail ==>
            && after.rows == s.rows[w.job := Row(r.pk, if spent then Failed else Retry, r.attempts,
                                                 now + Max(1, Min(cfg.cap, cfg.base * Pow2(Max(0, Min(30, w.attempts - 1))))), None)]
            && after.workers[t].phase == Finished(if spent then FailedOut else RetryOut))
  {
    if !LiveUnder(s.rows[s.workers[t].job], t, now) {
      assert s.rows == s.rows[s.workers[t].job := s.rows[s.workers[t].job]];
    }
  }

  /** A fetch that brought a payload for a job with stored detail, written while the lease is in force, ends in DONE;
      a fetch that brought none, or left no detail, never does. */
  lemma FetchEndsInDoneIff(cfg: Config, s: System, t: Token, payload: bool, now: Time)
    requires t in s.workers && (s.workers[t].phase == Missing || s.workers[t].phase == Fetched) && s.workers[t].job in s.rows
    requires InForce(s.rows[s.workers[t].job], t, now)
    ensures var job, after := s.workers[t].job, Next(cfg, Next(cfg, s, Inspect(t, payload)), WriteBack(t, now));
      && job in after.rows && after.rows[job].status in {Done, Retry, Failed}
      && (after.rows[job].status == Done <==> payload && job in s.detail)
  {
    var inspected := Next(cfg, s, Inspect(t, payload));
    assert inspected.rows == s.rows && inspected.workers[t].phase == Settled(if payload && s.workers[t].job in s.detail then MarkDone else RetryOrFail);
    WriteLands(cfg, inspected, t, now);
  }
}
