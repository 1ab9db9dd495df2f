/** Calls and their audio files agree in every interleaving, whatever the timing. */
module IngestionFiles {
  import opened Basics
  import opened Ingestion

  /** A call's file is at its recorded path, with the recorded size and digest. */
  predicate Stored(s: State, id: CallId)
    requires id in s.calls
  {
    var call := s.calls[id];
    && call.path.Final? && call.path.callId == id && id in s.history.callIds
    && call.path in s.files
    && call.size == |s.files[call.path]| > 0 && call.digest == Sha(s.files[call.path])
  }

  /** Some handler renamed its audio to this path and has neither committed nor removed it. */
  predicate InHand(s: State, path: Path) {
    exists h | h in s.handlers :: s.handlers[h].stage.Renamed? && FinalPath(s.handlers[h]) == path
  }

  predicate HasAudio(stage: Stage) { stage.Received? || stage.Failing? || stage.Valid? || stage.Checked? }

  predicate CallsInv(s: State) { forall id | id in s.calls :: Stored(s, id) }

  /** What a handler works on is in its temporary file, or at the final path it chose alone. */
  predicate WorkInv(s: State) {
    && (forall h | h in s.handlers && HasAudio(s.handlers[h].stage) ::
          Tmp(h) in s.files && s.files[Tmp(h)] == s.handlers[h].stage.audio && |s.handlers[h].stage.audio| > 0)
    && (forall h | h in s.handlers && s.handlers[h].stage.Renamed? ::
          var path := FinalPath(s.handlers[h]);
          && path in s.files && s.files[path] == s.handlers[h].stage.audio && |s.handlers[h].stage.audio| > 0
          && path.callId in s.history.callIds && path.callId !in s.calls)
    && (forall g, h | g in s.handlers && h in s.handlers && g != h
          && s.handlers[g].stage.Renamed? && s.handlers[h].stage.Renamed? ::
          s.handlers[g].stage.callId != s.handlers[h].stage.callId)
  }

  /** A final file belongs to a call, is in a handler's hand, or was left by a crash or a failed removal. */
  predicate FinalsInv(s: State) {
    && (forall path | path in s.files && path.Final? ::
          && path.callId in s.history.callIds
          && ((path.callId in s.calls && s.calls[path.callId].path == path) || InHand(s, path)
            || path in s.history.orphans))
    && (forall path | path in s.history.orphans ::
          path.Final? && path.callId in s.history.callIds && path.callId !in s.calls)
    && (forall path, h | path in s.history.orphans && h in s.handlers && s.handlers[h].stage.Renamed? ::
          path.Final? && path.callId != s.handlers[h].stage.callId)
  }

  predicate Inv(s: State) { CallsInv(s) && WorkInv(s) && FinalsInv(s) }

  /* ---- Kinds of step ---- */

  predicate SameStore(s: State, s': State) {
    && s'.calls == s.calls && s'.history.callIds == s.history.callIds && s'.history.orphans == s.history.orphans
  }

  /** Handlers that hold no file come and go; nothing else changes. */
  predicate Quiet(s: State, s': State) {
    && SameStore(s, s') && s'.files == s.files
    && (forall h | h in s'.handlers :: (h in s.handlers && s'.handlers[h] == s.handlers[h]) ||
          s'.handlers[h].stage.Looked? || s'.handlers[h].stage.Claimed? || s'.handlers[h].stage.Shelved?)
    && (forall h | h in s.handlers && s.handlers[h].stage.Renamed? ::
      h in s'.handlers && s'.handlers[h] == s.handlers[h])
  }

  lemma QuietKeeps(s: State, s': State)
    requires Inv(s) && Quiet(s, s')
    ensures Inv(s')
  {
    forall path | InHand(s, path) ensures InHand(s', path) { }
  }

  /** One handler works on its temporary file, moves it out of the final paths' way, or drops it. */
  predicate Works(s: State, s': State, h: HandlerId) {
    && SameStore(s, s') && h in s.handlers && !s.handlers[h].stage.Renamed?
    && (forall g | g in s'.handlers && g != h :: g in s.handlers && s'.handlers[g] == s.handlers[g])
    && (forall g | g in s.handlers && g != h :: g in s'.handlers)
    && (forall path | path in s.files && path != Tmp(h) && !path.Shelf? ::
      path in s'.files && s'.files[path] == s.files[path])
    && (forall path | path in s'.files && path.Final? :: path in s.files)
    && (h in s'.handlers ==> !s'.handlers[h].stage.Renamed?)
    && (h in s'.handlers && HasAudio(s'.handlers[h].stage) ==>
          Tmp(h) in s'.files && s'.files[Tmp(h)] == s'.handlers[h].stage.audio && |s'.handlers[h].stage.audio| > 0)
  }

  lemma WorksKeeps(s: State, s': State, h: HandlerId)
    requires Inv(s) && Works(s, s', h)
    ensures Inv(s')
  {
    WorksKeepStored(s, s', h);
    WorksKeepFinals(s, s', h);
    hide Works, CallsInv, WorkInv, FinalsInv;
  }

  lemma WorksKeepStored(s: State, s': State, h: HandlerId)
    requires CallsInv(s) && WorkInv(s) && Works(s, s', h)
    ensures CallsInv(s') && WorkInv(s')
  {
    assert forall g | g in s'.handlers && s'.handlers[g].stage.Renamed? :: g != h && s'.handlers[g] == s.handlers[g];
    assert forall g | g in s'.handlers && g != h :: Tmp(g) != Tmp(h);
  }

  lemma WorksKeepFinals(s: State, s': State, h: HandlerId)
    requires CallsInv(s) && FinalsInv(s) && Works(s, s', h)
    ensures FinalsInv(s')
  {
    hide CallsInv;
    forall path | InHand(s, path) ensures InHand(s', path) {
      var g :| g in s.handlers && s.handlers[g].stage.Renamed? && FinalPath(s.handlers[g]) == path;
      assert g in s'.handlers;
    }
  }

  lemma RenameKeeps(s: State, h: HandlerId, callId: CallId)
    requires Inv(s) && CanRename(s, h, callId)
    ensures Inv(DoRename(s, h, callId))
  {
    var s' := DoRename(s, h, callId);
    forall path | InHand(s, path) ensures InHand(s', path) {
      var g :| g in s.handlers && s.handlers[g].stage.Renamed? && FinalPath(s.handlers[g]) == path;
      assert g in s'.handlers;
    }
    assert InHand(s', FinalPath(s'.handlers[h]));
  }

  lemma CommitKeeps(s: State, h: HandlerId)
    requires Inv(s) && CanCommit(s, h)
    ensures Inv(DoCommit(s, h))
  {
    var s' := DoCommit(s, h);
    forall path | InHand(s, path) && path != FinalPath(s.handlers[h]) ensures InHand(s', path) {
      var g :| g in s.handlers && s.handlers[g].stage.Renamed? && FinalPath(s.handlers[g]) == path;
      assert g in s'.handlers;
    }
  }

  predicate Releases(s: State, s': State, h: HandlerId) {
    && h in s.handlers && s.handlers[h].stage.Renamed?
    && s'.calls == s.calls && s'.history.callIds == s.history.callIds && s'.handlers == s.handlers - {h}
    && var path := FinalPath(s.handlers[h]);
    || (s'.files == s.files - {path} && s'.history.orphans == s.history.orphans)
    || (s'.files == s.files && s'.history.orphans == s.history.orphans + {path})
  }

  /** The handler lets go of its final file: removed, or left as an orphan. */
  lemma LetGoKeeps(s: State, s': State, h: HandlerId)
    requires Inv(s) && Releases(s, s', h)
    ensures Inv(s')
  {
    LetGoKeepsStored(s, s', h);
    LetGoKeepsFinals(s, s', h);
    hide Releases, CallsInv, WorkInv, FinalsInv;
  }

  lemma LetGoKeepsStored(s: State, s': State, h: HandlerId)
    requires CallsInv(s) && WorkInv(s) && Releases(s, s', h)
    ensures CallsInv(s') && WorkInv(s')
  {
  }

  lemma LetGoKeepsFinals(s: State, s': State, h: HandlerId)
    requires WorkInv(s) && FinalsInv(s) && Releases(s, s', h)
    ensures FinalsInv(s')
  {
    forall path | InHand(s, path) && path != FinalPath(s.handlers[h]) ensures InHand(s', path) {
      var g :| g in s.handlers && s.handlers[g].stage.Renamed? && FinalPath(s.handlers[g]) == path;
      assert g in s'.handlers;
    }
  }

  lemma AbortRenamedKeeps(s: State, h: HandlerId, saved: bool, removed: bool)
    requires Inv(s) && CanAbort(s, h) && s.handlers[h].stage.Renamed?
    ensures Inv(DoAbort(s, h, saved, removed))
  {
    hide Inv;
    LetGoKeeps(s, DoAbort(s, h, saved, removed), h);
  }

  lemma CrashKeeps(s: State)
    requires Inv(s)
    ensures Inv(DoCrash(s))
  {
    forall path | InHand(s, path) ensures path in RenamedPaths(s) { }
  }

  predicate Around(step: Step) {
    step.Tick? || step.CreateLookup? || step.CreateUpsert? || step.CleanupExpire? || step.CleanupRecover?
      || step.Lookup?
  }

  predicate Answers(step: Step) {
    step.AnswerDone? || step.AnswerExpired? || step.Leave? || step.Claim? || step.Quarantine?
  }

  predicate Advances(step: Step) {
    step.Receive? || step.RecordFailure? || step.Shelve? || step.Accept? || step.NoDuplicate?
  }

  predicate LetsGo(step: Step) { step.Requeue? || step.FoundDuplicate? || step.Abort? }

  lemma AroundQuiet(s: State, step: Step)
    requires Enabled(s, step) && Around(step)
    ensures Quiet(s, Next(s, step))
  {
    match step
    case CreateLookup(id, request, answer) => CreateLookupQuiet(s, id, request, answer);
    case CreateUpsert(create, found, token, newRow) => UpsertQuiet(s, create, found, token, newRow);
    case Lookup(h, bearer, legacy) => LookupQuiet(s, h, bearer, legacy);
    case Tick(_) => hide Quiet; SameHandlersQuiet(s, Next(s, step));
    case CleanupExpire => hide Quiet; SameHandlersQuiet(s, Next(s, step));
    case CleanupRecover => hide Quiet; SameHandlersQuiet(s, Next(s, step));
    case _ =>
  }

  lemma SameHandlersQuiet(s: State, s': State)
    requires s'.handlers == s.handlers && SameStore(s, s') && s'.files == s.files
    ensures Quiet(s, s')
  {
  }

  lemma CreateLookupQuiet(s: State, id: nat, request: UploadRequest, answer: Option<CallId>)
    ensures Quiet(s, DoCreateLookup(s, id, request, answer))
  {
  }

  lemma UpsertQuiet(s: State, create: nat, found: Option<RowId>, token: Token, newRow: RowId)
    requires CanUpsert(s, create, found, token, newRow)
    ensures Quiet(s, DoUpsert(s, create, found, token, newRow))
  {
    hide Quiet, IsKeyAnswer;
    SameHandlersQuiet(s, DoUpsert(s, create, found, token, newRow));
  }

  lemma LookupQuiet(s: State, h: HandlerId, bearer: Token, legacy: bool)
    requires CanLookup(s, h, bearer)
    ensures Quiet(s, DoLookup(s, h, bearer, legacy))
  {
  }

  /** The handler leaves without a file, or goes on without one. */
  lemma NoFileQuiet(s: State, s': State, h: HandlerId)
    requires h in s.handlers && !s.handlers[h].stage.Renamed? && SameStore(s, s') && s'.files == s.files
    requires s'.handlers == s.handlers - {h} || (exists c :: s'.handlers == s.handlers[h := c] && c.stage.Claimed?)
    ensures Quiet(s, s')
  {
  }

  lemma AnswersQuiet(s: State, step: Step)
    requires Enabled(s, step) && Answers(step)
    ensures Quiet(s, Next(s, step))
  {
    hide Claimable, Quiet;
    match step
    case AnswerDone(h) => NoFileQuiet(s, DoAnswerDone(s, h), h);
    case AnswerExpired(h) => NoFileQuiet(s, DoAnswerExpired(s, h), h);
    case Leave(h) => NoFileQuiet(s, DoLeave(s, h), h);
    case Claim(h) =>
      assert DoClaim(s, h).handlers == s.handlers[h := s.handlers[h].(stage := Claimed)];
      NoFileQuiet(s, DoClaim(s, h), h);
    case Quarantine(h) => NoFileQuiet(s, DoQuarantine(s, h), h);
    case _ =>
  }

  lemma AdvancesWorks(s: State, step: Step)
    requires WorkInv(s) && Enabled(s, step) && Advances(step)
    ensures Works(s, Next(s, step), step.h)
  {
    hide Works;
    match step
    case Receive(h, audio) => ReceiveWorks(s, h, audio);
    case RecordFailure(h) => RecordFailureWorks(s, h);
    case Shelve(h) => ShelveWorks(s, h);
    case Accept(h) => SameAudioWorks(s, h, DoAccept(s, h).handlers[h].stage);
    case NoDuplicate(h) => SameAudioWorks(s, h, DoNoDuplicate(s, h).handlers[h].stage);
    case _ =>
  }

  lemma ReceiveWorks(s: State, h: HandlerId, audio: seq<int>)
    requires CanReceive(s, h, audio)
    ensures Works(s, DoReceive(s, h, audio), h)
  {
  }

  lemma RecordFailureWorks(s: State, h: HandlerId)
    requires WorkInv(s) && CanRecordFailure(s, h)
    ensures Works(s, DoRecordFailure(s, h), h)
  {
  }

  lemma SameAudioWorks(s: State, h: HandlerId, stage: Stage)
    requires WorkInv(s) && h in s.handlers && HasAudio(s.handlers[h].stage)
    requires HasAudio(stage) && stage.audio == s.handlers[h].stage.audio
    ensures Works(s, ToStage(s, h, stage), h)
  {
  }

  lemma ShelveWorks(s: State, h: HandlerId)
    requires CanShelve(s, h)
    ensures Works(s, DoShelve(s, h), h)
  {
  }

  lemma RequeueWorks(s: State, h: HandlerId, saved: bool)
    requires CanRequeue(s, h)
    ensures Works(s, DoRequeue(s, h, saved), h)
  {
  }

  lemma DuplicateWorks(s: State, h: HandlerId, callId: CallId, saved: bool)
    requires CanFindDuplicate(s, h, Some(callId))
    ensures Works(s, DoFoundDuplicate(s, h, callId, saved), h)
  {
  }

  lemma AbortWorks(s: State, h: HandlerId, saved: bool, removed: bool)
    requires CanAbort(s, h) && !s.handlers[h].stage.Renamed?
    ensures Works(s, DoAbort(s, h, saved, removed), h)
  {
    AbortFilesWork(Returned(s, h, saved), h, removed);
    hide AbortFiles;
  }

  lemma AbortFilesWork(s: State, h: HandlerId, removed: bool)
    requires h in s.handlers && !s.handlers[h].stage.Renamed?
    ensures var s' := AbortFiles(s, h, removed);
      && s' == s.(files := s'.files)
      && (s'.files == s.files || s'.files == s.files - {Tmp(h)} || s'.files == s.files - {ShelfPath(s.handlers[h])})
  {
  }

  /** One step of any interleaving keeps calls and files in agreement. */
  lemma StepKeeps(s: State, step: Step)
    requires Inv(s) && Enabled(s, step)
    ensures Inv(Next(s, step))
  {
    hide Inv, Quiet, Works;
    if Around(step) {
      AroundQuiet(s, step);
      QuietKeeps(s, Next(s, step));
    } else if Answers(step) {
      AnswersQuiet(s, step);
      QuietKeeps(s, Next(s, step));
    } else if Advances(step) {
      assert WorkInv(s) by { InvGivesWork(s); }
      AdvancesWorks(s, step);
      WorksKeeps(s, Next(s, step), step.h);
    } else {
      LastStepKeeps(s, step);
    }
  }

  lemma InvGivesWork(s: State)
    requires Inv(s)
    ensures WorkInv(s)
  {
  }

  lemma LastStepKeeps(s: State, step: Step)
    requires Inv(s) && Enabled(s, step) && (step.Rename? || step.Commit? || step.Crash? || LetsGo(step))
    ensures Inv(Next(s, step))
  {
    hide Inv, Works;
    match step
    case Rename(h, callId) => RenameKeeps(s, h, callId);
    case Commit(h) => CommitKeeps(s, h);
    case Crash => CrashKeeps(s);
    case Requeue(h, saved) => RequeueWorks(s, h, saved); WorksKeeps(s, DoRequeue(s, h, saved), h);
    case FoundDuplicate(h, callId, saved) =>
      DuplicateWorks(s, h, callId, saved);
      WorksKeeps(s, DoFoundDuplicate(s, h, callId, saved), h);
    case Abort(h, saved, removed) =>
      if s.handlers[h].stage.Renamed? {
        AbortRenamedKeeps(s, h, saved, removed);
      } else {
        AbortWorks(s, h, saved, removed);
        WorksKeeps(s, DoAbort(s, h, saved, removed), h);
      }
    case _ =>
  }

  lemma {:induction false} RunKeeps(s: State, steps: seq<Step>)
    requires Inv(s) && Possible(s, steps)
    ensures Inv(Run(s, steps))
    decreases |steps|
  {
    hide Inv, Enabled, Next;
    if steps != [] {
      StepKeeps(s, steps[0]);
      RunKeeps(Next(s, steps[0]), steps[1..]);
    }
  }

  /** Row and file agreement: at every point of every interleaving each call has a file with its recorded size
      and digest, and a final file without a call is in a handler's hand between rename and commit, or was
      left by a server crash or a failed removal there. */
  lemma CallsHaveTheirFiles(cfg: Config, now: int, steps: seq<Step>)
    requires Possible(Start(cfg, now), steps)
    ensures var s := Run(Start(cfg, now), steps);
      && (forall id | id in s.calls :: Stored(s, id))
      && (forall path | path in s.files && path.Final?
        && !(path.callId in s.calls && s.calls[path.callId].path == path) ::
            InHand(s, path) || path in s.history.orphans)
      && (forall path | path in s.history.orphans :: path.Final? && path.callId !in s.calls)
  {
    RunKeeps(Start(cfg, now), steps);
  }
}
