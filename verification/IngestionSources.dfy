/** What the unique index on source ids gives, whatever the timing. */
module IngestionSources {
  import opened Basics
  import opened Ingestion
  import opened IngestionFrames
  import Files = IngestionFiles

  /** A committed call is in the table as it was committed. */
  predicate Kept(s: State, c: CommitRecord) {
    c.callId in s.calls && s.calls[c.callId].sender == c.sender && s.calls[c.callId].meta == c.meta
  }

  predicate SameSource(a: CommitRecord, b: CommitRecord) {
    a.sender == b.sender && a.meta.sourceId == b.meta.sourceId && a.meta.sourceId != ""
  }

  predicate SourcesInv(s: State) {
    && (forall i | 0 <= i < |s.history.committed| :: Kept(s, s.history.committed[i]))
    && (forall i, j | 0 <= i < j < |s.history.committed| :: !SameSource(s.history.committed[i], s.history.committed[j]))
  }

  lemma CommitKeeps(s: State, h: HandlerId)
    requires SourcesInv(s) && Files.WorkInv(s) && CanCommit(s, h)
    ensures SourcesInv(DoCommit(s, h))
  {
    var c := NewCommit(s.handlers[h]);
    assert s.handlers[h].stage.callId !in s.calls;
    forall i | 0 <= i < |s.history.committed| ensures !SameSource(s.history.committed[i], c) {
      assert Kept(s, s.history.committed[i]);
    }
  }

  lemma StepKeeps(s: State, step: Step)
    requires SourcesInv(s) && Files.Inv(s) && Enabled(s, step)
    ensures SourcesInv(Next(s, step))
  {
    if step.Commit? {
      CommitKeeps(s, step.h);
    } else {
      OnlyCommitsStore(s, step);
      hide Enabled, Next;
    }
  }

  lemma {:induction false} RunKeeps(s: State, steps: seq<Step>)
    requires SourcesInv(s) && Files.Inv(s) && Possible(s, steps)
    ensures SourcesInv(Run(s, steps))
    decreases |steps|
  {
    hide SourcesInv, Files.Inv, Enabled, Next;
    if steps != [] {
      StepKeeps(s, steps[0]);
      Files.StepKeeps(s, steps[0]);
      RunKeeps(Next(s, steps[0]), steps[1..]);
    }
  }

  lemma StartSources(cfg: Config, now: int)
    ensures SourcesInv(Start(cfg, now)) && Files.Inv(Start(cfg, now))
  {
  }

  /** In every interleaving, timely or not, a sender's source id that is not empty is committed at most once. */
  lemma OneCallPerSource(cfg: Config, now: int, steps: seq<Step>, i: nat, j: nat)
    requires Possible(Start(cfg, now), steps) && i < j < |Run(Start(cfg, now), steps).history.committed|
    ensures var committed := Run(Start(cfg, now), steps).history.committed;
      && committed[i].sender == committed[j].sender && committed[i].meta.sourceId == committed[j].meta.sourceId
      ==> committed[i].meta.sourceId == ""
  {
    StartSources(cfg, now);
    RunKeeps(Start(cfg, now), steps);
    hide Run;
  }

  /* ---- Keys that are source ids ---- */

  predicate Named(sender: string, key: string, ofSender: string, ofKey: string, meta: CallMeta) {
    sender == ofSender && key == ofKey ==> meta.sourceId == ofKey
  }

  /** Whatever carries this key of this sender has it as its source id too. */
  predicate KeyIsSource(s: State, sender: string, key: string) {
    && (forall c | c in s.creating :: Named(s.creating[c].sender, s.creating[c].key, sender, key, s.creating[c].call))
    && (forall r | r in s.rows :: Named(s.rows[r].sender, s.rows[r].key, sender, key, s.rows[r].meta))
    && (forall h | h in s.handlers ::
          Named(s.handlers[h].seen.sender, s.handlers[h].seen.key, sender, key, s.handlers[h].seen.meta))
    && (forall i | 0 <= i < |s.history.committed| ::
          Named(s.history.committed[i].sender, s.history.committed[i].key, sender, key, s.history.committed[i].meta))
  }

  /** A request for this key of this sender names it as its source id. */
  predicate AsksBySource(step: Step, sender: string, key: string) {
    step.CreateLookup? ==> Named(step.request.sender, step.request.key, sender, key, step.request.call)
  }

  lemma ActsNames(s: State, h: HandlerId, step: Step, s': State, sender: string, key: string)
    requires KeyIsSource(s, sender, key) && At(s, h) && Acts(s, h, step, s') && !step.Commit?
    ensures KeyIsSource(s', sender, key)
  {
    assert SameCalls(s, s');
    hide Named, Notes, Writes, Follows;
    forall r | r in s'.rows ensures Named(s'.rows[r].sender, s'.rows[r].key, sender, key, s'.rows[r].meta) {
      assert Named(s.rows[r].sender, s.rows[r].key, sender, key, s.rows[r].meta);
    }
  }

  lemma CommitNames(s: State, h: HandlerId, sender: string, key: string)
    requires KeyIsSource(s, sender, key) && CanCommit(s, h)
    ensures KeyIsSource(DoCommit(s, h), sender, key)
  {
    hide Named, SourceTaken;
  }

  lemma RegistersNames(s: State, create: nat, s': State, sender: string, key: string)
    requires KeyIsSource(s, sender, key) && create in s.creating && Registers(s, create, s')
    ensures KeyIsSource(s', sender, key)
  {
    hide Named;
    forall r | r in s'.rows ensures Named(s'.rows[r].sender, s'.rows[r].key, sender, key, s'.rows[r].meta) {
      if r in s.rows && s'.rows[r] == s.rows[r] {
        assert Named(s.rows[r].sender, s.rows[r].key, sender, key, s.rows[r].meta);
      } else {
        assert Takes(s, s.creating[create], r, s'.rows[r]);
      }
    }
  }

  lemma SweepsNames(s: State, s': State, sender: string, key: string)
    requires KeyIsSource(s, sender, key) && Sweeps(s, s')
    ensures KeyIsSource(s', sender, key)
  {
    hide Named, SameCounter;
    forall r | r in s'.rows ensures Named(s'.rows[r].sender, s'.rows[r].key, sender, key, s'.rows[r].meta) {
      assert Named(s.rows[r].sender, s.rows[r].key, sender, key, s.rows[r].meta);
    }
  }

  lemma LookupNames(s: State, h: HandlerId, bearer: Token, legacy: bool, sender: string, key: string)
    requires KeyIsSource(s, sender, key) && CanLookup(s, h, bearer)
    ensures KeyIsSource(DoLookup(s, h, bearer, legacy), sender, key)
  {
    hide Named;
  }

  lemma AskNames(s: State, id: nat, request: UploadRequest, answer: Option<CallId>, sender: string, key: string)
    requires KeyIsSource(s, sender, key) && Named(request.sender, request.key, sender, key, request.call)
    ensures KeyIsSource(DoCreateLookup(s, id, request, answer), sender, key)
  {
    hide Named;
  }

  lemma KeyStepKeeps(s: State, step: Step, sender: string, key: string)
    requires KeyIsSource(s, sender, key) && Enabled(s, step) && AsksBySource(step, sender, key)
    ensures KeyIsSource(Next(s, step), sender, key)
  {
    var s' := Next(s, step);
    if step.Commit? {
      CommitNames(s, step.h, sender, key);
    } else {
      StepFrame(s, step);
      hide KeyIsSource, Enabled, Next, Acts, Registers, Sweeps, Named;
      hide CanLookup, DoLookup, CanCreateLookup, DoCreateLookup;
      if ByHandler(step) {
        ActsNames(s, step.h, step, s', sender, key);
      } else {
        match step
        case CreateLookup(id, request, answer) => AskNames(s, id, request, answer, sender, key);
        case CreateUpsert(create, _, _, _) => RegistersNames(s, create, s', sender, key);
        case Lookup(h, bearer, legacy) => LookupNames(s, h, bearer, legacy, sender, key);
        case _ => SweepsNames(s, s', sender, key);
      }
    }
  }

  lemma {:induction false} KeyRunKeeps(s: State, steps: seq<Step>, sender: string, key: string)
    requires KeyIsSource(s, sender, key) && Possible(s, steps)
    requires forall i | 0 <= i < |steps| :: AsksBySource(steps[i], sender, key)
    ensures KeyIsSource(Run(s, steps), sender, key)
    decreases |steps|
  {
    hide KeyIsSource, Enabled, Next, AsksBySource;
    if steps != [] {
      KeyStepKeeps(s, steps[0], sender, key);
      KeyRunKeeps(Next(s, steps[0]), steps[1..], sender, key);
    }
  }

  /** So a key that every request for it gives as its source id has at most one call, in every interleaving and
      whatever the timing. */
  lemma OneCallPerSourceKey(cfg: Config, now: int, steps: seq<Step>, i: nat, j: nat)
    requires Possible(Start(cfg, now), steps) && i < j < |Run(Start(cfg, now), steps).history.committed|
    requires var c := Run(Start(cfg, now), steps).history.committed[i];
      c.key != "" && forall k | 0 <= k < |steps| :: AsksBySource(steps[k], c.sender, c.key)
    ensures var committed := Run(Start(cfg, now), steps).history.committed;
      committed[i].sender != committed[j].sender || committed[i].key != committed[j].key
  {
    var c := Run(Start(cfg, now), steps).history.committed[i];
    KeyRunKeeps(Start(cfg, now), steps, c.sender, c.key);
    OneCallPerSource(cfg, now, steps, i, j);
    hide Run, Possible;
  }
}
