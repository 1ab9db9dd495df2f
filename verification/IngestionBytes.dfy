/** A call stores the bytes that were received for its key, whatever the timing. */
module IngestionBytes {
  import opened Basics
  import opened Ingestion
  import opened IngestionFrames
  import Files = IngestionFiles

  predicate HasBytes(stage: Stage) { !stage.Looked? && !stage.Claimed? }

  /** Handlers and calls of this key hold nothing but these bytes. */
  predicate BytesInv(s: State, key: string, sent: set<seq<int>>) {
    && (forall h | h in s.handlers && s.handlers[h].seen.key == key && HasBytes(s.handlers[h].stage) ::
          s.handlers[h].stage.audio in sent)
    && (forall i | 0 <= i < |s.history.committed| && s.history.committed[i].key == key ::
          Holds(s, s.history.committed[i].callId, sent))
  }

  predicate Holds(s: State, id: CallId, sent: set<seq<int>>) { id in s.calls && s.calls[id].digest.content in sent }

  /** A body that arrives for the key is one of them. */
  predicate Receives(s: State, step: Step, key: string, sent: set<seq<int>>) {
    step.Receive? && step.h in s.handlers && s.handlers[step.h].seen.key == key ==> step.audio in sent
  }

  lemma ActsBytes(s: State, h: HandlerId, step: Step, s': State, key: string, sent: set<seq<int>>)
    requires BytesInv(s, key, sent) && At(s, h) && Acts(s, h, step, s') && !step.Commit?
    requires step.Receive? && s.handlers[h].seen.key == key ==> step.audio in sent
    ensures BytesInv(s', key, sent)
  {
    assert SameCalls(s, s');
    hide SameCounter, SameIdentity;
  }

  lemma CommitBytes(s: State, h: HandlerId, key: string, sent: set<seq<int>>)
    requires BytesInv(s, key, sent) && Files.WorkInv(s) && CanCommit(s, h)
    ensures BytesInv(DoCommit(s, h), key, sent)
  {
    assert s.handlers[h].stage.callId !in s.calls;
    hide SourceTaken;
  }

  lemma AroundBytes(s: State, s': State, key: string, sent: set<seq<int>>)
    requires BytesInv(s, key, sent) && Around(s, s')
    ensures BytesInv(s', key, sent)
  {
    hide SameCounter, NoCounter;
  }

  lemma StepKeeps(s: State, step: Step, key: string, sent: set<seq<int>>)
    requires BytesInv(s, key, sent) && Files.WorkInv(s) && Enabled(s, step) && Receives(s, step, key, sent)
    ensures BytesInv(Next(s, step), key, sent)
  {
    if step.Commit? {
      CommitBytes(s, step.h, key, sent);
    } else if ByHandler(step) {
      HandlerActs(s, step);
      hide BytesInv, Enabled, Next, Acts;
      ActsBytes(s, step.h, step, Next(s, step), key, sent);
    } else {
      AroundStep(s, step);
      hide BytesInv, Enabled, Next, Around;
      AroundBytes(s, Next(s, step), key, sent);
    }
  }

  /* ---- Sizes ---- */

  /** What handlers and calls hold is neither empty nor larger than allowed. */
  predicate SizesInv(s: State) {
    && (forall h | h in s.handlers && HasBytes(s.handlers[h].stage) ::
          1 <= |s.handlers[h].stage.audio| <= s.cfg.maxAudio)
    && (forall id | id in s.calls :: 1 <= s.calls[id].size <= s.cfg.maxAudio)
  }

  lemma ActsSizes(s: State, h: HandlerId, step: Step, s': State)
    requires SizesInv(s) && At(s, h) && Acts(s, h, step, s') && !step.Commit?
    requires step.Receive? ==> 1 <= |step.audio| <= s.cfg.maxAudio
    ensures SizesInv(s')
  {
    assert SameCalls(s, s');
    hide SameCounter, SameIdentity;
  }

  lemma CommitSizes(s: State, h: HandlerId)
    requires SizesInv(s) && CanCommit(s, h)
    ensures SizesInv(DoCommit(s, h))
  {
    hide SourceTaken;
  }

  lemma AroundSizes(s: State, s': State)
    requires SizesInv(s) && Around(s, s')
    ensures SizesInv(s')
  {
    hide SameCounter, NoCounter;
  }

  lemma StepKeepsSizes(s: State, step: Step)
    requires SizesInv(s) && Enabled(s, step)
    ensures SizesInv(Next(s, step))
  {
    if step.Commit? {
      CommitSizes(s, step.h);
    } else if ByHandler(step) {
      HandlerActs(s, step);
      assert step.Receive? ==> 1 <= |step.audio| <= s.cfg.maxAudio;
      hide SizesInv, Enabled, Next, Acts;
      ActsSizes(s, step.h, step, Next(s, step));
    } else {
      AroundStep(s, step);
      hide SizesInv, Enabled, Next, Around;
      AroundSizes(s, Next(s, step));
    }
  }

  lemma {:induction false} RunKeepsSizes(s: State, steps: seq<Step>)
    requires SizesInv(s) && Possible(s, steps)
    ensures SizesInv(Run(s, steps)) && Run(s, steps).cfg == s.cfg
    decreases |steps|
  {
    if steps != [] {
      if ByHandler(steps[0]) { HandlerActs(s, steps[0]); } else { AroundStep(s, steps[0]); }
      assert Next(s, steps[0]).cfg == s.cfg;
      hide SizesInv, Enabled, Next, Acts, Around;
      StepKeepsSizes(s, steps[0]);
      RunKeepsSizes(Next(s, steps[0]), steps[1..]);
    }
  }

  /** In every interleaving, timely or not, each stored call has at least one byte and at most as many as allowed. */
  lemma CallsFit(cfg: Config, now: int, steps: seq<Step>, id: CallId)
    requires Possible(Start(cfg, now), steps) && id in Run(Start(cfg, now), steps).calls
    ensures 1 <= Run(Start(cfg, now), steps).calls[id].size <= cfg.maxAudio
  {
    RunKeepsSizes(Start(cfg, now), steps);
  }
}
