/** The failure counter of an upload row counts a real run of identical decode failures. */
module IngestionQuarantine {
  import opened Basics
  import opened Ingestion
  import opened IngestionFrames
  import opened IngestionOwnership

  /** The length of the last run of failures with one digest. */
  function RunLength(failures: seq<FailureRecord>): (n: nat)
    ensures n <= |failures|
  {
    if failures == [] then 0
    else if |failures| >= 2 && failures[|failures| - 2].digest == failures[|failures| - 1].digest
    then RunLength(failures[..|failures| - 1]) + 1
    else 1
  }

  function FailuresOf(s: State, r: RowId): seq<FailureRecord> {
    if r in s.history.failures then s.history.failures[r] else []
  }

  /** The last run: its failures have one digest, and the one before it has another. */
  lemma {:induction false} RunLengthExact(failures: seq<FailureRecord>)
    requires failures != []
    ensures var n := RunLength(failures);
      && n >= 1
      && (forall i | |failures| - n <= i < |failures| :: failures[i].digest == failures[|failures| - 1].digest)
      && (n < |failures| ==> failures[|failures| - n - 1].digest != failures[|failures| - 1].digest)
  {
    if |failures| >= 2 && failures[|failures| - 2].digest == failures[|failures| - 1].digest {
      RunLengthExact(failures[..|failures| - 1]);
    }
  }

  /** The row's counter, first failure and digest are those of the last run. */
  predicate Counts(row: Row, failures: seq<FailureRecord>) {
    && row.failCount == RunLength(failures)
    && (failures == [] ==> row.rejected == None && row.failFirst == None)
    && (failures != [] ==>
          && row.rejected == Some(failures[|failures| - 1].digest)
          && 1 <= row.failCount && row.failFirst == Some(failures[|failures| - row.failCount].at))
  }

  predicate CountsInv(s: State) {
    && (forall r | r in s.rows :: Counts(s.rows[r], FailuresOf(s, r)))
    && (forall r | r in s.history.failures :: r in s.rows)
  }

  /** A handler that reports a failure carries its row's counter; a shelving handler's decision was due. */
  predicate CarriesInv(s: State) {
    && (forall h | h in s.handlers && s.handlers[h].stage.Failing? && At(s, h) ::
          s.handlers[h].stage.count == RowOf(s, h).failCount
            && RowOf(s, h).failFirst == Some(s.handlers[h].stage.first))
    && (forall h | h in s.handlers && s.handlers[h].stage.Shelved? && At(s, h) :: Due(s, RowOf(s, h)))
  }

  predicate Due(s: State, row: Row) {
    row.failFirst.Some? && ShouldQuarantine(s.cfg, row.failCount, row.failFirst.value, s.now)
  }

  predicate QuarantinedInv(s: State) {
    forall r | r in s.rows && s.rows[r].status.Quarantined? :: Due(s, s.rows[r])
  }

  lemma CountingCounts(row: Row, failures: seq<FailureRecord>, digest: Digest, now: int)
    requires Counts(row, failures)
    ensures Counts(CountFailure(row, digest, now), failures + [FailureRecord(digest, now)])
  {
    var longer := failures + [FailureRecord(digest, now)];
    assert longer[..|longer| - 1] == failures;
  }

  /* ---- The counters, whatever the timing ---- */

  lemma SameCounts(a: Row, b: Row, failures: seq<FailureRecord>)
    requires Counts(a, failures) && SameCounter(a, b)
    ensures Counts(b, failures)
  {
  }

  lemma ActsCounts(s: State, h: HandlerId, step: Step, s': State)
    requires CountsInv(s) && At(s, h) && Acts(s, h, step, s') && !step.RecordFailure?
    ensures CountsInv(s')
  {
    assert SameCounter(s.rows[s.handlers[h].row], s'.rows[s.handlers[h].row]);
    assert s'.history.failures == s.history.failures;
    hide Counts, Follows, Notes, Writes, SameIdentity;
    forall r | r in s'.rows ensures Counts(s'.rows[r], FailuresOf(s', r)) {
      SameCounts(s.rows[r], s'.rows[r], FailuresOf(s, r));
    }
  }

  lemma RecordCounts(s: State, h: HandlerId)
    requires CountsInv(s) && CanRecordFailure(s, h)
    ensures CountsInv(DoRecordFailure(s, h))
  {
    var r := s.handlers[h].row;
    CountingCounts(s.rows[r], FailuresOf(s, r), Sha(s.handlers[h].stage.audio), s.now);
  }

  lemma AroundCounts(s: State, s': State)
    requires CountsInv(s) && Around(s, s')
    ensures CountsInv(s')
  {
    forall r | r in s'.rows ensures Counts(s'.rows[r], FailuresOf(s', r)) {
      if r in s.rows { SameCounts(s.rows[r], s'.rows[r], FailuresOf(s, r)); }
    }
  }

  /** Every step, timely or not, keeps each counter that of its row's trailing run. */
  lemma StepKeepsCounts(s: State, step: Step)
    requires CountsInv(s) && Enabled(s, step)
    ensures CountsInv(Next(s, step))
  {
    if step.RecordFailure? {
      RecordCounts(s, step.h);
    } else if ByHandler(step) {
      HandlerActs(s, step);
      hide CountsInv, Acts, Enabled, Next;
      ActsCounts(s, step.h, step, Next(s, step));
    } else {
      AroundStep(s, step);
      hide CountsInv, Around, Enabled, Next;
      AroundCounts(s, Next(s, step));
    }
  }

  lemma {:induction false} CountsRun(s: State, steps: seq<Step>)
    requires CountsInv(s) && Possible(s, steps)
    ensures CountsInv(Run(s, steps))
    decreases |steps|
  {
    hide CountsInv, Enabled, Next;
    if steps != [] {
      StepKeepsCounts(s, steps[0]);
      CountsRun(Next(s, steps[0]), steps[1..]);
    }
  }

  /** In every interleaving, timely or not, a row's counter is the length of the last run of identical recorded
      failures, its first failure the run's first, and its digest the run's. */
  lemma CountersAreRuns(cfg: Config, now: int, steps: seq<Step>, r: RowId)
    requires Possible(Start(cfg, now), steps) && r in Run(Start(cfg, now), steps).rows
    ensures var s := Run(Start(cfg, now), steps);
      var row, failures := s.rows[r], FailuresOf(s, r);
      && row.failCount == RunLength(failures)
      && (failures == [] ==> row.rejected == None && row.failFirst == None)
      && (failures != [] ==>
            && row.rejected == Some(failures[|failures| - 1].digest)
            && row.failFirst == Some(failures[|failures| - RunLength(failures)].at))
  {
    CountsRun(Start(cfg, now), steps);
  }

  /* ---- Quarantine, in time ---- */

  lemma DueLater(s: State, s': State, a: Row, b: Row)
    requires Due(s, a) && SameCounter(a, b) && s'.cfg == s.cfg && s.now <= s'.now
    ensures Due(s', b)
  {
  }

  lemma ActsDue(s: State, h: HandlerId, step: Step, s': State)
    requires CarriesInv(s) && QuarantinedInv(s) && At(s, h) && Acts(s, h, step, s') && !step.RecordFailure?
    ensures QuarantinedInv(s')
  {
    assert s'.rows[s.handlers[h].row].status.Quarantined? ==> Due(s, s.rows[s.handlers[h].row]);
    assert SameCounter(s.rows[s.handlers[h].row], s'.rows[s.handlers[h].row]);
    hide Due, Follows, Notes, Writes, SameIdentity;
    forall r | r in s'.rows && s'.rows[r].status.Quarantined? ensures Due(s', s'.rows[r]) {
      DueLater(s, s', s.rows[r], s'.rows[r]);
    }
  }

  lemma MovesCarries(s: State, h: HandlerId, s': State)
    requires CarriesInv(s) && At(s, h) && Moves(s, h, s') && SameCounter(RowOf(s, h), s'.rows[s.handlers[h].row])
    requires h in s'.handlers ==> !s'.handlers[h].stage.Failing?
    requires h in s'.handlers && s'.handlers[h].stage.Shelved? ==> Due(s, RowOf(s, h))
    ensures CarriesInv(s')
  {
    hide Follows, SameIdentity, Due;
    forall g | g in s'.handlers && s'.handlers[g].stage.Shelved? && At(s', g) ensures Due(s', RowOf(s', g)) {
      DueLater(s, s', RowOf(s, g), RowOf(s', g));
    }
  }

  lemma ActsCarries(s: State, h: HandlerId, step: Step, s': State)
    requires CarriesInv(s) && At(s, h) && Acts(s, h, step, s') && !step.RecordFailure?
    ensures CarriesInv(s')
  {
    if h in s'.handlers && s'.handlers[h].stage.Shelved? { assert QuarantineDue(s, h) && Due(s, RowOf(s, h)); }
    hide CarriesInv, Moves, Writes, Due;
    MovesCarries(s, h, s');
  }

  /** The recorder is the row's only owner, so no other handler carries a stale counter. */
  lemma RecordCarries(s: State, h: HandlerId)
    requires OwnersInv(s) && CarriesInv(s) && QuarantinedInv(s) && CanRecordFailure(s, h)
    ensures CarriesInv(DoRecordFailure(s, h)) && QuarantinedInv(DoRecordFailure(s, h))
  {
    hide ShouldQuarantine;
  }

  lemma AroundCarries(s: State, s': State)
    requires CarriesInv(s) && OwnersInv(s) && Around(s, s')
    ensures CarriesInv(s')
  {
    hide Due;
    forall h | h in s'.handlers && !s'.handlers[h].stage.Looked?
      ensures At(s, h) && At(s', h) && s'.handlers[h] == s.handlers[h] && SameCounter(RowOf(s, h), RowOf(s', h))
    {
      assert s.handlers[h].row in s.rows;
    }
    forall h | h in s'.handlers && s'.handlers[h].stage.Shelved? ensures Due(s', RowOf(s', h)) {
      DueLater(s, s', RowOf(s, h), RowOf(s', h));
    }
    hide OwnersInv, Around;
  }

  lemma AroundDue(s: State, s': State)
    requires QuarantinedInv(s) && Around(s, s')
    ensures QuarantinedInv(s')
  {
    hide Due;
    forall r | r in s'.rows && s'.rows[r].status.Quarantined? ensures Due(s', s'.rows[r]) {
      DueLater(s, s', s.rows[r], s'.rows[r]);
    }
  }

  /** Under the ownership invariant, a step keeps quarantine decisions due by the row's own counter. */
  lemma StepKeepsDue(s: State, step: Step)
    requires CarriesInv(s) && QuarantinedInv(s) && OwnersInv(s) && Enabled(s, step)
    ensures CarriesInv(Next(s, step)) && QuarantinedInv(Next(s, step))
  {
    var s' := Next(s, step);
    if step.RecordFailure? {
      RecordCarries(s, step.h);
    } else if ByHandler(step) {
      HandlerActs(s, step);
      hide CarriesInv, QuarantinedInv, OwnersInv, Acts, Enabled, Next;
      ActsCarries(s, step.h, step, s');
      ActsDue(s, step.h, step, s');
    } else {
      AroundStep(s, step);
      hide CarriesInv, QuarantinedInv, OwnersInv, Around, Enabled, Next;
      AroundCarries(s, s');
      AroundDue(s, s');
    }
  }

  lemma {:induction false} DueRun(s: State, steps: seq<Step>)
    requires CarriesInv(s) && QuarantinedInv(s) && IngestionOwnership.Inv(s) && Possible(s, steps) && InTime(s, steps)
    ensures CarriesInv(Run(s, steps)) && QuarantinedInv(Run(s, steps))
    decreases |steps|
  {
    if steps != [] {
      assert OwnersInv(s);
      hide CarriesInv, QuarantinedInv, IngestionOwnership.Inv, OwnersInv, Enabled, Timely, Next;
      StepKeepsDue(s, steps[0]);
      StepKeeps(s, steps[0]);
      DueRun(Next(s, steps[0]), steps[1..]);
    }
  }

  /** In every timely interleaving a quarantined row has a trailing run of at least the required length that began at
      least the grace period ago. */
  lemma QuarantineCountsRealRuns(cfg: Config, now: int, steps: seq<Step>, r: RowId)
    requires Possible(Start(cfg, now), steps) && InTime(Start(cfg, now), steps)
    requires r in Run(Start(cfg, now), steps).rows && Run(Start(cfg, now), steps).rows[r].status.Quarantined?
    ensures var s := Run(Start(cfg, now), steps);
      var failures := FailuresOf(s, r);
      && failures != [] && RunLength(failures) >= s.cfg.quarantineFailures
      && s.now - failures[|failures| - RunLength(failures)].at >= s.cfg.quarantineGrace
  {
    StartInv(cfg, now);
    DueRun(Start(cfg, now), steps);
    CountersAreRuns(cfg, now, steps, r);
  }
}
