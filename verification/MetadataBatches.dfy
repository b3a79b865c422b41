/** The preparation transactions as runs of single steps, so that every theorem about runs covers them. */
module MetadataBatches {
  import opened Sorting
  import opened JobQueue
  import opened MetadataAdmission
  import opened MetadataRuns

  /** Running on from any state. */
  function Follow(cfg: Config, s: System, steps: seq<Step>): System {
    if steps == [] then s else Next(cfg, Follow(cfg, s, steps[..|steps| - 1]), steps[|steps| - 1])
  }

  lemma {:induction false} RunSplits(cfg: Config, steps: seq<Step>, more: seq<Step>)
    ensures Run(cfg, steps + more) == Follow(cfg, Run(cfg, steps), more)
    decreases |more|
  {
    if more == [] {
      assert steps + more == steps;
    } else {
      assert (steps + more)[..|steps + more| - 1] == steps + more[..|more| - 1];
      RunSplits(cfg, steps, more[..|more| - 1]);
    }
  }

  lemma FollowOneMore(cfg: Config, s: System, steps: seq<Step>, step: Step)
    ensures Follow(cfg, s, steps + [step]) == Next(cfg, Follow(cfg, s, steps), step)
  {
    assert (steps + [step])[..|steps|] == steps;
  }

  function ClaimAt(now: Time, leaseSeconds: nat): ItemId -> Step {
    (job: ItemId) => Claim(job, now, leaseSeconds)
  }

  function BatchSteps(queue: seq<ItemId>, n: nat, now: Time, leaseSeconds: nat): seq<Step>
    requires n <= |queue|
  {
    ClaimSteps(queue, n, Expire(now), ClaimAt(now, leaseSeconds))
  }

  function LeasedRows(cfg: Config, rows: Rows, queue: seq<ItemId>, n: nat, token: Token, now: Time, leaseSeconds: nat): Rows
    requires n <= |queue| && AllIn(queue, ExpireAll(rows, now, cfg.maxAttempts))
  {
    LeaseFirst(ExpireAll(rows, now, cfg.maxAttempts), queue, n, token, now + leaseSeconds)
  }

  ghost predicate Claimable(cfg: Config, rows: Rows, queue: seq<ItemId>, now: Time) {
    && NoDuplicates(queue) && AllIn(queue, ExpireAll(rows, now, cfg.maxAttempts))
    && forall i :: 0 <= i < |queue| ==> Ready(ExpireAll(rows, now, cfg.maxAttempts)[queue[i]], now)
  }

  /** The effect of the claim transaction on the first `n` selected rows: they are leased under fresh tokens in order. */
  ghost predicate LeasesFirst(cfg: Config, s: System, after: System, queue: seq<ItemId>, n: nat, now: Time, leaseSeconds: nat)
    requires n <= |queue| && Claimable(cfg, s.rows, queue, now)
  {
    && after.rows == LeasedRows(cfg, s.rows, queue, n, s.nextToken, now, leaseSeconds)
    && after.nextToken == s.nextToken + n && after.cursor == s.cursor && after.detail == s.detail
  }

  /** After any history, the claim transaction has the effect of one expiry followed by one claim per selected row. */
  lemma BatchClaimIsARun(cfg: Config, steps: seq<Step>, queue: seq<ItemId>, now: Time, leaseSeconds: nat)
    requires Claimable(cfg, Run(cfg, steps).rows, queue, now)
    ensures LeasesFirst(cfg, Run(cfg, steps), Run(cfg, steps + BatchSteps(queue, |queue|, now, leaseSeconds)),
                        queue, |queue|, now, leaseSeconds)
  {
    RunSplits(cfg, steps, BatchSteps(queue, |queue|, now, leaseSeconds));
    ClaimsFollow(cfg, Run(cfg, steps), queue, |queue|, now, leaseSeconds);
  }

  lemma {:induction false} ClaimsFollow(cfg: Config, s: System, queue: seq<ItemId>, n: nat, now: Time, leaseSeconds: nat)
    requires n <= |queue| && Claimable(cfg, s.rows, queue, now)
    ensures LeasesFirst(cfg, s, Follow(cfg, s, BatchSteps(queue, n, now, leaseSeconds)), queue, n, now, leaseSeconds)
  {
    if n == 0 {
      FollowOneMore(cfg, s, [], Expire(now));
      assert [] + [Expire(now)] == BatchSteps(queue, n, now, leaseSeconds);
      ExpireFirst(cfg, s, queue, now, leaseSeconds);
    } else {
      var earlier := BatchSteps(queue, n - 1, now, leaseSeconds);
      ClaimsFollow(cfg, s, queue, n - 1, now, leaseSeconds);
      FollowOneMore(cfg, s, earlier, Claim(queue[n - 1], now, leaseSeconds));
      ClaimExtends(cfg, s, Follow(cfg, s, earlier), queue, n, now, leaseSeconds);
    }
  }

  lemma ExpireFirst(cfg: Config, s: System, queue: seq<ItemId>, now: Time, leaseSeconds: nat)
    requires Claimable(cfg, s.rows, queue, now)
    ensures LeasesFirst(cfg, s, Next(cfg, s, Expire(now)), queue, 0, now, leaseSeconds)
  {
  }

  lemma ClaimExtends(cfg: Config, s: System, before: System, queue: seq<ItemId>, n: nat, now: Time, leaseSeconds: nat)
    requires 0 < n <= |queue| && Claimable(cfg, s.rows, queue, now)
    requires LeasesFirst(cfg, s, before, queue, n - 1, now, leaseSeconds)
    ensures LeasesFirst(cfg, s, Next(cfg, before, Claim(queue[n - 1], now, leaseSeconds)), queue, n, now, leaseSeconds)
  {
    NextStaysAsItWas(ExpireAll(s.rows, now, cfg.maxAttempts), queue, n - 1, s.nextToken, now + leaseSeconds);
    ClaimEffect(cfg, before, queue[n - 1], now, leaseSeconds);
  }

  lemma ClaimEffect(cfg: Config, s: System, job: ItemId, now: Time, leaseSeconds: nat)
    requires job in s.rows && Ready(s.rows[job], now)
    ensures var after := Next(cfg, s, Claim(job, now, leaseSeconds));
      && after.rows == s.rows[job := LeaseRow(s.rows[job], s.nextToken, now + leaseSeconds)]
      && after.nextToken == s.nextToken + 1 && after.cursor == s.cursor && after.detail == s.detail
  {
  }

  /** After any history without an admission under way, the admission transaction is a begin and a finish step. */
  lemma AdmissionIsARun(cfg: Config, steps: seq<Step>, candidates: seq<ItemId>, now: Time)
    requires Run(cfg, steps).admission.None? && FreeSlots(Run(cfg, steps).rows) > 0
    ensures var s, after := Run(cfg, steps), Run(cfg, steps + [BeginAdmission(candidates), FinishAdmission(now)]);
      && after.rows == InsertAll(s.rows, Admitted(candidates, s.cursor, FreeSlots(s.rows)), s.nextPk, now)
      && after.cursor == CursorAfter(candidates, s.cursor, FreeSlots(s.rows))
      && after.nextToken == s.nextToken && after.admission.None?
  {
    var s := Run(cfg, steps);
    RunSplits(cfg, steps, [BeginAdmission(candidates), FinishAdmission(now)]);
    FollowOneMore(cfg, s, [], BeginAdmission(candidates));
    FollowOneMore(cfg, s, [BeginAdmission(candidates)], FinishAdmission(now));
    assert [] + [BeginAdmission(candidates)] == [BeginAdmission(candidates)];
    assert [BeginAdmission(candidates)] + [FinishAdmission(now)] == [BeginAdmission(candidates), FinishAdmission(now)];
  }
}
