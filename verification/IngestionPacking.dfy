/** The archive is a packing: no two calls of one sender are duplicates of each other, provided that the
    stretches from duplicate check to commit of one sender do not overlap. */
module IngestionPacking {
  import opened Basics
  import opened Ingestion
  import opened IngestionFrames

  /** Between the duplicate check and the commit. */
  predicate PastCheck(s: State, h: HandlerId) {
    h in s.handlers && (s.handlers[h].stage.Checked? || s.handlers[h].stage.Renamed?)
  }

  predicate Packed(s: State) {
    forall a, b | a in s.calls && b in s.calls && a != b && s.calls[a].sender == s.calls[b].sender ::
      !Near(s.cfg, s.calls[a].meta, s.calls[b].meta)
  }

  ghost predicate PendingPacked(s: State) {
    && (forall h, id | PastCheck(s, h) && id in s.calls && s.calls[id].sender == s.handlers[h].seen.sender ::
          !Near(s.cfg, s.calls[id].meta, s.handlers[h].seen.meta))
    && (forall g, h | PastCheck(s, g) && PastCheck(s, h) && g != h ::
      s.handlers[g].seen.sender != s.handlers[h].seen.sender)
  }

  ghost predicate Inv(s: State) { Packed(s) && PendingPacked(s) }

  /** A sender's check does not begin while another of its handlers is between check and commit. */
  ghost predicate Serial(s: State, step: Step) {
    step.NoDuplicate? && step.h in s.handlers ==>
      forall g | PastCheck(s, g) && g != step.h :: s.handlers[g].seen.sender != s.handlers[step.h].seen.sender
  }

  ghost predicate SerialRun(s: State, steps: seq<Step>)
    requires Possible(s, steps)
    decreases |steps|
  {
    steps == [] || (Serial(s, steps[0]) && SerialRun(Next(s, steps[0]), steps[1..]))
  }

  /** Neither the calls nor what is past the check grows. */
  ghost predicate Calm(s: State, s': State) {
    && s'.cfg == s.cfg && s'.calls == s.calls
    && (forall h | PastCheck(s', h) :: PastCheck(s, h) && s'.handlers[h].seen == s.handlers[h].seen)
  }

  lemma CalmKeeps(s: State, s': State)
    requires Inv(s) && Calm(s, s')
    ensures Inv(s')
  {
  }

  lemma CheckKeeps(s: State, h: HandlerId)
    requires Inv(s) && CanFindDuplicate(s, h, None) && Serial(s, NoDuplicate(h))
    ensures Inv(DoNoDuplicate(s, h))
  {
  }

  lemma NearSymmetric(cfg: Config, a: CallMeta, b: CallMeta)
    ensures Near(cfg, a, b) <==> Near(cfg, b, a)
  {
  }

  lemma CommitKeeps(s: State, h: HandlerId)
    requires Inv(s) && CanCommit(s, h)
    ensures Inv(DoCommit(s, h))
  {
    forall a, b ensures Near(s.cfg, a, b) <==> Near(s.cfg, b, a) { NearSymmetric(s.cfg, a, b); }
    hide Near;
  }

  lemma ActsCalm(s: State, h: HandlerId, step: Step, s': State)
    requires At(s, h) && Acts(s, h, step, s') && !step.NoDuplicate? && !step.Commit?
    ensures Calm(s, s')
  {
    assert SameCalls(s, s');
    hide SameIdentity, SameCounter;
  }

  lemma AroundCalm(s: State, s': State)
    requires Around(s, s')
    ensures Calm(s, s')
  {
    hide SameCounter, NoCounter;
  }

  lemma StepCalm(s: State, step: Step)
    requires Enabled(s, step) && !step.NoDuplicate? && !step.Commit?
    ensures Calm(s, Next(s, step))
  {
    var s' := Next(s, step);
    hide Calm, Acts, Around;
    if ByHandler(step) {
      HandlerActs(s, step);
      hide Enabled, Next;
      ActsCalm(s, step.h, step, s');
    } else {
      AroundStep(s, step);
      hide Enabled, Next;
      AroundCalm(s, s');
    }
  }

  lemma StepKeeps(s: State, step: Step)
    requires Inv(s) && Enabled(s, step) && Serial(s, step)
    ensures Inv(Next(s, step))
  {
    hide Inv, Calm, Serial;
    if step.NoDuplicate? {
      CheckKeeps(s, step.h);
    } else if step.Commit? {
      CommitKeeps(s, step.h);
    } else {
      assert Calm(s, Next(s, step)) by { StepCalm(s, step); }
      hide Enabled, Next;
      CalmKeeps(s, Next(s, step));
    }
  }

  lemma {:induction false} RunKeeps(s: State, steps: seq<Step>)
    requires Inv(s) && Possible(s, steps) && SerialRun(s, steps)
    ensures Inv(Run(s, steps))
    decreases |steps|
  {
    hide Inv, Enabled, Serial, Next;
    if steps != [] {
      StepKeeps(s, steps[0]);
      RunKeeps(Next(s, steps[0]), steps[1..]);
    }
  }

  /** When the check-to-commit stretches of each sender are serial, no two calls of a sender that agree on the
      channel are within both tolerances of each other. */
  lemma ArchiveIsPacked(cfg: Config, now: int, steps: seq<Step>)
    requires Possible(Start(cfg, now), steps) && SerialRun(Start(cfg, now), steps)
    ensures Packed(Run(Start(cfg, now), steps))
    ensures var calls := Run(Start(cfg, now), steps).calls;
      forall a, b | a in calls && b in calls && a != b && calls[a].sender == calls[b].sender ::
        var x, y := calls[a].meta, calls[b].meta;
        && x.system == y.system && x.talkgroup == y.talkgroup && x.radio == y.radio && x.site == y.site
        && x.voice == y.voice && x.callType == y.callType
        ==> x.start - y.start > cfg.startTolerance || y.start - x.start > cfg.startTolerance
            || x.duration - y.duration > cfg.durationTolerance || y.duration - x.duration > cfg.durationTolerance
  {
    RunKeeps(Start(cfg, now), steps);
    SameConfig(Start(cfg, now), steps);
    hide Run, Possible;
  }

  lemma {:induction false} SameConfig(s: State, steps: seq<Step>)
    requires Possible(s, steps)
    ensures Run(s, steps).cfg == s.cfg
    decreases |steps|
  {
    if steps != [] {
      var step := steps[0];
      if ByHandler(step) { HandlerActs(s, step); } else { AroundStep(s, step); }
      assert Next(s, step).cfg == s.cfg;
      hide Enabled, Next;
      SameConfig(Next(s, step), steps[1..]);
    }
  }

  /** A commit keeps the packing exactly when no call of the sender is near the new one: the check has to
      still hold at the commit. */
  lemma CommitPacksExactly(s: State, h: HandlerId)
    requires Packed(s) && CanCommit(s, h) && s.handlers[h].stage.callId !in s.calls
    ensures Packed(DoCommit(s, h)) <==>
      forall id | id in s.calls && s.calls[id].sender == s.handlers[h].seen.sender ::
        !Near(s.cfg, s.calls[id].meta, s.handlers[h].seen.meta)
  {
    var s' := DoCommit(s, h);
    var callId := s.handlers[h].stage.callId;
    forall id | id in s.calls ensures id in s'.calls && s'.calls[id] == s.calls[id] && id != callId { }
    assert s'.calls[callId] == NewCall(s.handlers[h]);
    forall id | id in s.calls
      ensures Near(s.cfg, s.calls[id].meta, s.handlers[h].seen.meta)
         <==> Near(s.cfg, s.handlers[h].seen.meta, s.calls[id].meta)
    {
      NearSymmetric(s.cfg, s.calls[id].meta, s.handlers[h].seen.meta);
    }
    hide Near;
  }

  /** Without serial stretches it fails: two handlers past the check with near calls both commit, unless they share a
      source id. */
  lemma OverlapBreaksPacking(s: State, g: HandlerId, h: HandlerId)
    requires CanCommit(s, g) && CanCommit(s, h) && g != h
    requires s.handlers[g].stage.callId != s.handlers[h].stage.callId
    requires s.handlers[g].seen.sender == s.handlers[h].seen.sender
    requires s.handlers[g].seen.meta.sourceId != s.handlers[h].seen.meta.sourceId
      || s.handlers[g].seen.meta.sourceId == ""
    requires Near(s.cfg, s.handlers[g].seen.meta, s.handlers[h].seen.meta)
    ensures CanCommit(DoCommit(s, g), h) && !Packed(DoCommit(DoCommit(s, g), h))
  {
    var s' := DoCommit(DoCommit(s, g), h);
    assert s'.calls[s.handlers[g].stage.callId] == NewCall(s.handlers[g]);
    assert s'.calls[s.handlers[h].stage.callId] == NewCall(s.handlers[h]);
  }
}
