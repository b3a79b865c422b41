/** The preparation of one claimed job as the batch carries it out, refining the single steps of the interleaved machine. */
module MetadataWorker {
  import opened JobQueue
  import opened MetadataAdmission
  import opened MetadataRuns
  import opened MetadataBatches

  /** What the provider and the stored detail turn out to be for one job. */
  datatype Facts = Facts(hashed: bool, stored: bool, payload: bool)

  function PrepareSteps(t: Token, f: Facts, now: Time, later: Time): seq<Step> {
    [Load(t), Reconcile(t, now, f.hashed), Persist(t, now, f.stored), Inspect(t, f.payload), WriteBack(t, later)]
  }

  ghost predicate Doing(s: System, t: Token, job: ItemId, phase: Phase, attempts: nat) {
    t in s.workers && s.workers[t].job == job && s.workers[t].phase == phase && job in s.rows && s.workers[t].attempts == attempts
  }

  /** The store and the detail after the call are those of the machine, and so is the report. */
  ghost predicate Agrees(table: PreparationTable, detail: set<ItemId>, r: Report, after: System, t: Token)
    reads table
  {
    table.rows == after.rows && detail == after.detail && t in after.workers && after.workers[t].phase == Finished(r)
  }

  function FromInspect(cfg: Config, s: System, t: Token, f: Facts, later: Time): System {
    Next(cfg, Next(cfg, s, Inspect(t, f.payload)), WriteBack(t, later))
  }

  function FromPersist(cfg: Config, s: System, t: Token, f: Facts, now: Time, later: Time): System {
    FromInspect(cfg, Next(cfg, s, Persist(t, now, f.stored)), t, f, later)
  }

  lemma PrepareUnfolds(cfg: Config, s: System, t: Token, f: Facts, now: Time, later: Time)
    ensures Follow(cfg, s, PrepareSteps(t, f, now, later))
         == FromPersist(cfg, Next(cfg, Next(cfg, s, Load(t)), Reconcile(t, now, f.hashed)), t, f, now, later)
  {
    var steps := PrepareSteps(t, f, now, later);
    assert Follow(cfg, s, steps[..0]) == s;
    forall i | 0 <= i < |steps|
      ensures Follow(cfg, s, steps[..i + 1]) == Next(cfg, Follow(cfg, s, steps[..i]), steps[i])
    {
      FollowOneMore(cfg, s, steps[..i], steps[i]);
      assert steps[..i + 1] == steps[..i] + [steps[i]];
    }
    assert steps[..5] == steps;
    assert Follow(cfg, s, steps[..1]) == Next(cfg, s, Load(t));
    assert Follow(cfg, s, steps[..2]) == Next(cfg, Follow(cfg, s, steps[..1]), Reconcile(t, now, f.hashed));
    assert Follow(cfg, s, steps[..3]) == Next(cfg, Follow(cfg, s, steps[..2]), Persist(t, now, f.stored));
    assert Follow(cfg, s, steps[..4]) == Next(cfg, Follow(cfg, s, steps[..3]), Inspect(t, f.payload));
  }

  /** A worker that has decided, or was fenced out, passes the fetch steps by. */
  lemma DecidedPassesBy(cfg: Config, s: System, t: Token, job: ItemId, f: Facts, now: Time, phase: Phase, attempts: nat)
      returns (u: System)
    requires Doing(s, t, job, phase, attempts) && (phase.Settled? || phase.Finished?)
    ensures u == Next(cfg, Next(cfg, s, Persist(t, now, f.stored)), Inspect(t, f.payload))
    ensures u.rows == s.rows && u.detail == s.detail && u.workers == s.workers
  {
    u := Next(cfg, s, Persist(t, now, f.stored));
    assert u.rows == s.rows && u.detail == s.detail && u.workers == s.workers;
    u := Next(cfg, u, Inspect(t, f.payload));
  }

  /** The last write of a job: done, or retry or failure, under token and lease time. */
  method WriteOutcome(table: PreparationTable, cfg: Config, job: ItemId, token: Token, attempts: nat, write: Write, later: Time,
                      detail: set<ItemId>, ghost s: System) returns (r: Report)
    requires s.rows == table.rows && s.detail == detail && Doing(s, token, job, Settled(write), attempts)
    modifies table
    ensures Agrees(table, detail, r, Next(cfg, s, WriteBack(token, later)), token)
  {
    if write == MarkDone {
      var changed := table.Finish(job, token, later);
      return if changed then DoneOut else FencedOut;
    }
    var outcome, changed := table.RetryOrFail(job, token, later, attempts, cfg.maxAttempts, cfg.base, cfg.cap);
    if !changed {
      return FencedOut;
    }
    return if outcome == Failed then FailedOut else RetryOut;
  }

  /** A job whose detail exists already: reconcile under the lease, then finish or retry. */
  method PrepareExisting(table: PreparationTable, cfg: Config, job: ItemId, token: Token, attempts: nat, f: Facts,
                         now: Time, later: Time, detail: set<ItemId>, ghost s: System) returns (r: Report)
    requires s.rows == table.rows && s.detail == detail && Doing(s, token, job, Existing, attempts) && job in detail
    modifies table
    ensures Agrees(table, detail, r, FromPersist(cfg, Next(cfg, s, Reconcile(token, now, f.hashed)), token, f, now, later), token)
  {
    ghost var reconciled := Next(cfg, s, Reconcile(token, now, f.hashed));
    var active := table.ActiveLease(job, token, now);
    ghost var u;
    if !active {
      u := DecidedPassesBy(cfg, reconciled, token, job, f, now, Finished(FencedOut), attempts);
      FencedStays(cfg, u, token, later);
      return FencedOut;
    }
    var write := if f.hashed then MarkDone else RetryOrFail;
    u := DecidedPassesBy(cfg, reconciled, token, job, f, now, Settled(write), attempts);
    r := WriteOutcome(table, cfg, job, token, attempts, write, later, detail, u);
  }

  lemma FencedStays(cfg: Config, s: System, t: Token, later: Time)
    requires t in s.workers && s.workers[t].phase == Finished(FencedOut)
    ensures var after := Next(cfg, s, WriteBack(t, later));
      after.rows == s.rows && after.detail == s.detail && after.workers == s.workers
  {
  }

  /** A job without detail: the fetched payload is persisted only under the lease; done needs payload and detail. */
  method PrepareMissing(table: PreparationTable, cfg: Config, job: ItemId, token: Token, attempts: nat, f: Facts,
                        now: Time, later: Time, detail: set<ItemId>, ghost s: System) returns (r: Report, newDetail: set<ItemId>)
    requires s.rows == table.rows && s.detail == detail && Doing(s, token, job, Missing, attempts)
    modifies table
    ensures Agrees(table, newDetail, r, FromPersist(cfg, s, token, f, now, later), token)
  {
    ghost var persisted := Next(cfg, s, Persist(token, now, f.stored));
    var active := table.ActiveLease(job, token, now);
    newDetail := if active && f.stored then detail + {job} else detail;
    var write := if f.payload && job in newDetail then MarkDone else RetryOrFail;
    r := WriteOutcome(table, cfg, job, token, attempts, write, later, newDetail, Next(cfg, persisted, Inspect(token, f.payload)));
  }

  /** One job of a batch with nobody else about has exactly the effect and the report of its steps in the interleaved
      machine. */
  method PrepareJob(table: PreparationTable, cfg: Config, job: ItemId, token: Token, f: Facts, now: Time, later: Time,
                    detail: set<ItemId>, ghost s: System) returns (r: Report, newDetail: set<ItemId>)
    requires s.rows == table.rows && s.detail == detail && job in s.rows
    requires token in s.workers && s.workers[token].job == job && s.workers[token].phase == Claimed
    modifies table
    ensures Agrees(table, newDetail, r, Follow(cfg, s, PrepareSteps(token, f, now, later)), token)
  {
    PrepareUnfolds(cfg, s, token, f, now, later);
    ghost var loaded := Next(cfg, s, Load(token));
    var attempts := table.rows[job].attempts;
    if job in detail {
      newDetail := detail;
      r := PrepareExisting(table, cfg, job, token, attempts, f, now, later, detail, loaded);
    } else {
      PassesReconcile(cfg, loaded, token, job, f, now, attempts);
      r, newDetail := PrepareMissing(table, cfg, job, token, attempts, f, now, later, detail,
                                     Next(cfg, loaded, Reconcile(token, now, f.hashed)));
    }
  }

  lemma PassesReconcile(cfg: Config, s: System, t: Token, job: ItemId, f: Facts, now: Time, attempts: nat)
    requires Doing(s, t, job, Missing, attempts)
    ensures var after := Next(cfg, s, Reconcile(t, now, f.hashed));
      after.rows == s.rows && after.detail == s.detail && after.workers == s.workers
  {
  }
}
