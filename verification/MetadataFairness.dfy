/** Round-robin fairness over whole runs of the preparation table, and a reachable admission whose count is wrong. */
module MetadataFairness {
  import opened Prelude
  import opened JobQueue
  import opened MetadataAdmission
  import opened MetadataRuns
  import opened MetadataBatches

  /** The step ends an admission that is under way. */
  predicate Fires(s: System, step: Step) {
    step.FinishAdmission? && s.admission.Some?
  }

  /** How many admissions end during `more`, which runs after `steps`. */
  function Admissions(cfg: Config, steps: seq<Step>, more: seq<Step>): nat {
    if more == [] then 0
    else
      var n := |more| - 1;
      Admissions(cfg, steps, more[..n]) + if Fires(Run(cfg, steps + more[..n]), more[n]) then 1 else 0
  }

  /** As long as `x` has no row, an admission that ends asks for it, and for ids up to `bound` only. */
  ghost predicate Asks(s: System, step: Step, x: ItemId, bound: nat) {
    Fires(s, step) && x !in s.rows ==> x in s.admission.value.candidates && Within(s.admission.value.candidates, bound)
  }

  ghost predicate AsksThroughout(cfg: Config, steps: seq<Step>, more: seq<Step>, x: ItemId, bound: nat) {
    forall i :: 0 <= i < |more| ==> Asks(Run(cfg, steps + more[..i]), more[i], x, bound)
  }

  /** An admission is only ever under way with a free slot. */
  lemma {:induction false} AdmissionsHaveSlots(cfg: Config, steps: seq<Step>)
    ensures Run(cfg, steps).admission.Some? ==> Run(cfg, steps).admission.value.slots >= 1
  {
    if steps != [] {
      AdmissionsHaveSlots(cfg, steps[..|steps| - 1]);
    }
  }

  /** One step: rows are never deleted, only an ending admission moves the cursor, and then it gives `x` its row or
      moves strictly closer to it. */
  lemma StepApproaches(cfg: Config, s: System, step: Step, x: ItemId, bound: nat)
    requires Asks(s, step, x, bound) && (s.admission.Some? ==> s.admission.value.slots >= 1) && Origin(s.cursor) <= bound
    ensures s.rows.Keys <= Next(cfg, s, step).rows.Keys
    ensures !Fires(s, step) ==> Next(cfg, s, step).cursor == s.cursor
    ensures Fires(s, step) && x !in Next(cfg, s, step).rows ==>
      Origin(Next(cfg, s, step).cursor) <= bound && Distance(Next(cfg, s, step).cursor, x, bound) < Distance(s.cursor, x, bound)
  {
    if Fires(s, step) {
      var p := s.admission.value;
      var admitted := Admitted(p.candidates, s.cursor, p.slots);
      assert Next(cfg, s, step).rows == InsertAll(s.rows, admitted, s.nextPk, step.now);
      if x !in Next(cfg, s, step).rows {
        assert forall i :: 0 <= i < |admitted| ==> admitted[i] in Next(cfg, s, step).rows;
        CursorApproaches(p.candidates, s.cursor, p.slots, x, bound);
      }
    }
  }

  /** Either `x` has its row, or every admission that ended has brought the cursor closer. */
  lemma {:induction false} AdmissionsApproach(cfg: Config, steps: seq<Step>, more: seq<Step>, x: ItemId, bound: nat)
    requires AsksThroughout(cfg, steps, more, x, bound) && Origin(Run(cfg, steps).cursor) <= bound
    ensures var s, after := Run(cfg, steps), Run(cfg, steps + more);
      || x in after.rows
      || (Origin(after.cursor) <= bound
          && Distance(after.cursor, x, bound) + Admissions(cfg, steps, more) <= Distance(s.cursor, x, bound))
    decreases |more|
  {
    if more == [] {
      assert steps + more == steps;
    } else {
      var n := |more| - 1;
      var before := steps + more[..n];
      assert forall i :: 0 <= i < n ==> more[..n][..i] == more[..i];
      AdmissionsApproach(cfg, steps, more[..n], x, bound);
      assert (steps + more)[..|steps + more| - 1] == before;
      AdmissionsHaveSlots(cfg, before);
      OneMoreStep(cfg, steps, more, before, x, bound);
    }
  }

  lemma OneMoreStep(cfg: Config, steps: seq<Step>, more: seq<Step>, before: seq<Step>, x: ItemId, bound: nat)
    requires more != [] && before == steps + more[..|more| - 1] && Asks(Run(cfg, before), more[|more| - 1], x, bound)
    requires Run(cfg, before).admission.Some? ==> Run(cfg, before).admission.value.slots >= 1
    requires Run(cfg, steps + more) == Next(cfg, Run(cfg, before), more[|more| - 1])
    requires x in Run(cfg, before).rows || (Origin(Run(cfg, before).cursor) <= bound && Distance(Run(cfg, before).cursor, x, bound) + Admissions(cfg, steps, more[..|more| - 1]) <= Distance(Run(cfg, steps).cursor, x, bound))
    ensures var after := Run(cfg, steps + more);
      || x in after.rows
      || (Origin(after.cursor) <= bound
          && Distance(after.cursor, x, bound) + Admissions(cfg, steps, more) <= Distance(Run(cfg, steps).cursor, x, bound))
  {
    var s, step := Run(cfg, before), more[|more| - 1];
    if x in s.rows {
      RowsStay(cfg, s, step);
    } else {
      StepApproaches(cfg, s, step, x, bound);
    }
  }

  lemma RowsStay(cfg: Config, s: System, step: Step)
    ensures s.rows.Keys <= Next(cfg, s, step).rows.Keys
  {
  }

  /** Fairness over whole runs: after any history, with any workers, expiries and clocks in between, an item that every
      admission asks for has a row once as many admissions have ended as its cyclic distance from the cursor. */
  lemma EveryItemGetsARow(cfg: Config, steps: seq<Step>, more: seq<Step>, x: ItemId, bound: nat)
    requires AsksThroughout(cfg, steps, more, x, bound) && Origin(Run(cfg, steps).cursor) <= bound && 1 <= x <= bound
    requires Admissions(cfg, steps, more) >= Distance(Run(cfg, steps).cursor, x, bound)
    ensures x in Run(cfg, steps + more).rows
  {
    AdmissionsApproach(cfg, steps, more, x, bound);
  }

  const FIVE: seq<ItemId> := [5]

  lemma OnlyFive(last: Option<nat>, slots: nat)
    requires slots >= 1
    ensures Admitted(FIVE, last, slots) == FIVE
  {
    var order := Rotation(FIVE, last);
    assert order[0] in multiset(order);
  }

  lemma RunOne(cfg: Config, steps: seq<Step>, step: Step)
    ensures Run(cfg, steps + [step]) == Next(cfg, Run(cfg, steps), step)
  {
    assert (steps + [step])[..|steps|] == steps;
  }

  lemma FirstAdmission(cfg: Config)
    ensures var s := Run(cfg, [BeginAdmission(FIVE), FinishAdmission(0)]);
      s.rows == map[5 := NewRow(0, 0)] && s.cursor == Some(5) && s.admission == None
  {
    assert ActiveItems(Start().rows) == {};
    assert Run(cfg, []) == Start();
    AdmissionIsARun(cfg, [], FIVE, 0);
    assert [] + [BeginAdmission(FIVE), FinishAdmission(0)] == [BeginAdmission(FIVE), FinishAdmission(0)];
    OnlyFive(None, FreeSlots(map[]));
    InsertNext(map[], FIVE, 0, 0, 0);
  }

  lemma SecondAdmission(cfg: Config, s: System)
    requires s.rows == map[5 := NewRow(0, 0)] && s.cursor == Some(5) && s.admission == None
    ensures var begun := Next(cfg, s, BeginAdmission(FIVE));
      && begun.admission == Some(Pending(FIVE, 999)) && begun.cursor == Some(5) && begun.rows == s.rows
      && Next(cfg, begun, FinishAdmission(1)).rows == s.rows
  {
    assert ActiveItems(s.rows) == {5};
    OnlyFive(Some(5), 999);
    InsertNext(s.rows, FIVE, 0, s.nextPk, 1);
  }

  /** Two requests that both found item 5 without a job: the second admission reports one row and inserts none. */
  lemma SecondAdmissionInsertsNothing(cfg: Config) returns (steps: seq<Step>)
    ensures var s := Run(cfg, steps);
      && s.admission == Some(Pending(FIVE, 999)) && |Admitted(FIVE, s.cursor, 999)| == 1
      && Run(cfg, steps + [FinishAdmission(1)]).rows == s.rows
  {
    var first := [BeginAdmission(FIVE), FinishAdmission(0)];
    FirstAdmission(cfg);
    SecondAdmission(cfg, Run(cfg, first));
    steps := first + [BeginAdmission(FIVE)];
    RunOne(cfg, first, BeginAdmission(FIVE));
    RunOne(cfg, steps, FinishAdmission(1));
    OnlyFive(Some(5), 999);
  }
}
