/** Quarantine is for legacy requests: a row that none of them uses is never quarantined. */
module IngestionLegacy {
  import opened Basics
  import opened Ingestion
  import opened IngestionFrames

  /** Legacy handlers work on these rows only, only they shelve audio, and only these rows are or were
      quarantined. */
  predicate Within(s: State, rows: set<RowId>) {
    && (forall h | h in s.handlers && s.handlers[h].legacy :: s.handlers[h].row in rows)
    && (forall h | h in s.handlers && s.handlers[h].stage.Shelved? :: s.handlers[h].legacy)
    && (forall r | r in s.rows && s.rows[r].status.Quarantined? :: r in rows)
    && s.history.quarantined <= rows
  }

  /** A legacy request comes with the token of one of these rows. */
  predicate Respects(s: State, step: Step, rows: set<RowId>) {
    step.Lookup? && step.legacy ==> step.bearer in s.history.issued && s.history.issued[step.bearer] in rows
  }

  predicate RunRespects(s: State, steps: seq<Step>, rows: set<RowId>)
    requires Possible(s, steps)
    decreases |steps|
  {
    steps == [] || (Respects(s, steps[0], rows) && RunRespects(Next(s, steps[0]), steps[1..], rows))
  }

  lemma ActsWithin(s: State, h: HandlerId, step: Step, s': State, rows: set<RowId>)
    requires Within(s, rows) && At(s, h) && Acts(s, h, step, s')
    ensures Within(s', rows)
  {
    assert step.Quarantine? ==> s.handlers[h].row in rows;
    hide SameCounter, SameCalls, SameIdentity, Writes;
  }

  lemma RegistersWithin(s: State, create: nat, s': State, rows: set<RowId>)
    requires Within(s, rows) && create in s.creating && Registers(s, create, s')
    ensures Within(s', rows)
  {
    hide SameCounter;
  }

  lemma SweepsWithin(s: State, s': State, rows: set<RowId>)
    requires Within(s, rows) && Sweeps(s, s')
    ensures Within(s', rows)
  {
    hide SameCounter, SameIdentity;
  }

  lemma LookupWithin(s: State, h: HandlerId, bearer: Token, legacy: bool, rows: set<RowId>)
    requires Within(s, rows) && CanLookup(s, h, bearer) && Respects(s, Lookup(h, bearer, legacy), rows)
    ensures Within(DoLookup(s, h, bearer, legacy), rows)
  {
  }

  lemma AskWithin(s: State, id: nat, request: UploadRequest, answer: Option<CallId>, rows: set<RowId>)
    requires Within(s, rows)
    ensures Within(DoCreateLookup(s, id, request, answer), rows)
  {
  }

  lemma StepKeeps(s: State, step: Step, rows: set<RowId>)
    requires Within(s, rows) && Enabled(s, step) && Respects(s, step, rows)
    ensures Within(Next(s, step), rows)
  {
    var s' := Next(s, step);
    StepFrame(s, step);
    hide Within, Enabled, Next, Respects, Acts, Registers, Sweeps;
    hide CanLookup, DoLookup, CanCreateLookup, DoCreateLookup;
    if ByHandler(step) {
      ActsWithin(s, step.h, step, s', rows);
    } else {
      match step
      case CreateLookup(id, request, answer) => AskWithin(s, id, request, answer, rows);
      case CreateUpsert(create, _, _, _) => RegistersWithin(s, create, s', rows);
      case Lookup(h, bearer, legacy) => LookupWithin(s, h, bearer, legacy, rows);
      case _ => SweepsWithin(s, s', rows);
    }
  }

  lemma {:induction false} RunKeeps(s: State, steps: seq<Step>, rows: set<RowId>)
    requires Within(s, rows) && Possible(s, steps) && RunRespects(s, steps, rows)
    ensures Within(Run(s, steps), rows)
    decreases |steps|
  {
    hide Within, Enabled, Next, Respects;
    if steps != [] {
      StepKeeps(s, steps[0], rows);
      RunKeeps(Next(s, steps[0]), steps[1..], rows);
    }
  }

  /** In every interleaving, timely or not, only rows whose token came with a legacy request are ever quarantined. */
  lemma QuarantineNeedsLegacy(cfg: Config, now: int, steps: seq<Step>, rows: set<RowId>, r: RowId)
    requires Possible(Start(cfg, now), steps) && RunRespects(Start(cfg, now), steps, rows)
    requires var s := Run(Start(cfg, now), steps);
      r in s.history.quarantined || (r in s.rows && s.rows[r].status.Quarantined?)
    ensures r in rows
  {
    RunKeeps(Start(cfg, now), steps, rows);
  }
}
