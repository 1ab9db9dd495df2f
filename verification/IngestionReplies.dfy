/** What a confirming reply stands for, whatever the timing: a call of this upload, a near-duplicate of it, or its
    quarantined audio. */
module IngestionReplies {
  import opened Basics
  import opened Ingestion
  import opened IngestionFrames
  import IngestionOwnership

  /** The row an upload request is kept in: its key's row or, without a key, a row it was submitted to. */
  predicate KeptIn(s: State, request: UploadRequest, r: RowId) {
    && r in s.rows && s.rows[r].sender == request.sender && s.rows[r].key == request.key
    && (request.key == "" ==> r in s.history.submitted && request.call in s.history.submitted[r])
  }

  /** Some call of this sender that was committed is near `meta`. */
  ghost predicate HadNear(s: State, sender: string, meta: CallMeta) {
    exists i :: 0 <= i < |s.history.committed| && s.history.committed[i].sender == sender
      && Near(s.cfg, s.history.committed[i].meta, meta)
  }

  ghost predicate HadCall(s: State, r: RowId) {
    exists i :: 0 <= i < |s.history.committed| && s.history.committed[i].row == r
  }

  ghost predicate HadSubmittedNear(s: State, r: RowId) {
    r in s.rows && r in s.history.submitted && exists meta | meta in s.history.submitted[r] ::
      HadNear(s, s.rows[r].sender, meta)
  }

  /** The row's upload is settled for good reason: it has or had a call or a near one, or was quarantined. */
  ghost predicate Backed(s: State, r: RowId) {
    r in s.rows && (HadCall(s, r) || HadSubmittedNear(s, r) || r in s.history.quarantined)
  }

  ghost predicate Justified(s: State, request: UploadRequest) {
    HadNear(s, request.sender, request.call) || exists r :: KeptIn(s, request, r) && Backed(s, r)
  }

  /* ---- The invariant ---- */

  ghost predicate Recorded(s: State, call: CallRow, id: CallId) {
    exists i :: 0 <= i < |s.history.committed| && IsRecord(s.history.committed[i], call, id)
  }

  predicate IsRecord(c: CommitRecord, call: CallRow, id: CallId) {
    c.callId == id && c.sender == call.sender && c.meta == call.meta
  }

  ghost predicate CallsRecorded(s: State) { forall id | id in s.calls :: Recorded(s, s.calls[id], id) }

  ghost predicate RowsBacked(s: State) {
    && (forall r | r in s.rows && Terminal(s.rows[r].status) :: Backed(s, r))
    && (forall r | r in s.rows :: r in s.history.submitted && s.rows[r].meta in s.history.submitted[r])
  }

  ghost predicate HandlersBacked(s: State) {
    forall h | h in s.handlers ::
      && s.handlers[h].row in s.history.submitted && s.handlers[h].seen.meta in s.history.submitted[s.handlers[h].row]
      && (Terminal(s.handlers[h].seen.status) ==> Backed(s, s.handlers[h].row))
  }

  ghost predicate ReplyBacked(s: State, reply: Reply) {
    match reply
    case CreatedDuplicate(request, _) => Justified(s, request)
    case CreatedDone(request, _) => Justified(s, request)
    case CreatedToken(request, token) => token in s.history.issued && KeptIn(s, request, s.history.issued[token])
    case CreatedBusy(_) => true
    case AudioDone(token, _) => token in s.history.issued && Backed(s, s.history.issued[token])
    case AudioDuplicate(token, _) => token in s.history.issued && Backed(s, s.history.issued[token])
    case AudioStored(token, _) => token in s.history.issued && Backed(s, s.history.issued[token])
    case AudioQuarantined(token) => token in s.history.issued && Backed(s, s.history.issued[token])
  }

  ghost predicate RepliesBacked(s: State) { forall reply | reply in s.history.replies :: ReplyBacked(s, reply) }

  ghost predicate RepliesInv(s: State) { CallsRecorded(s) && RowsBacked(s) && HandlersBacked(s) && RepliesBacked(s) }

  /* ---- What was justified stays justified ---- */

  predicate Grows(s: State, s': State) {
    && s'.cfg == s.cfg
    && s.history.committed <= s'.history.committed
    && (forall r | r in s.history.submitted ::
      r in s'.history.submitted && s.history.submitted[r] <= s'.history.submitted[r])
    && (forall t | t in s.history.issued :: t in s'.history.issued && s'.history.issued[t] == s.history.issued[t])
    && s.history.quarantined <= s'.history.quarantined
    && (forall r | r in s.rows ::
          r in s'.rows && s'.rows[r].sender == s.rows[r].sender && s'.rows[r].key == s.rows[r].key)
  }

  lemma NearGrows(s: State, s': State, sender: string, meta: CallMeta)
    requires Grows(s, s') && HadNear(s, sender, meta)
    ensures HadNear(s', sender, meta)
  {
    var i :| 0 <= i < |s.history.committed| && s.history.committed[i].sender == sender
      && Near(s.cfg, s.history.committed[i].meta, meta);
    assert s'.history.committed[i] == s.history.committed[i];
  }

  lemma BackedGrows(s: State, s': State, r: RowId)
    requires Grows(s, s') && Backed(s, r)
    ensures Backed(s', r)
  {
    if HadCall(s, r) {
      var i :| 0 <= i < |s.history.committed| && s.history.committed[i].row == r;
      assert s'.history.committed[i] == s.history.committed[i];
    } else if HadSubmittedNear(s, r) {
      var meta :| meta in s.history.submitted[r] && HadNear(s, s.rows[r].sender, meta);
      NearGrows(s, s', s.rows[r].sender, meta);
    }
  }

  lemma JustifiedGrows(s: State, s': State, request: UploadRequest)
    requires Grows(s, s') && Justified(s, request)
    ensures Justified(s', request)
  {
    if HadNear(s, request.sender, request.call) {
      NearGrows(s, s', request.sender, request.call);
    } else {
      var r :| KeptIn(s, request, r) && Backed(s, r);
      BackedGrows(s, s', r);
      assert KeptIn(s', request, r);
    }
  }

  lemma ReplyGrows(s: State, s': State, reply: Reply)
    requires Grows(s, s') && ReplyBacked(s, reply)
    ensures ReplyBacked(s', reply)
  {
    hide Backed, Justified;
    match reply
    case CreatedDuplicate(request, _) => JustifiedGrows(s, s', request);
    case CreatedDone(request, _) => JustifiedGrows(s, s', request);
    case CreatedToken(request, token) =>
    case CreatedBusy(_) =>
    case AudioDone(token, _) => BackedGrows(s, s', s.history.issued[token]);
    case AudioDuplicate(token, _) => BackedGrows(s, s', s.history.issued[token]);
    case AudioStored(token, _) => BackedGrows(s, s', s.history.issued[token]);
    case AudioQuarantined(token) => BackedGrows(s, s', s.history.issued[token]);
  }

  /* ---- Steps ---- */

  /** Everything a step adds is backed: settled rows, handlers' sights, replies, calls. */
  ghost predicate Explains(s: State, s': State) {
    && Grows(s, s') && CallsRecorded(s')
    && (forall r | r in s'.rows && Terminal(s'.rows[r].status) ::
      (r in s.rows && Terminal(s.rows[r].status)) || Backed(s', r))
    && (forall r | r in s'.rows :: r in s'.history.submitted && s'.rows[r].meta in s'.history.submitted[r])
    && (forall h | h in s'.handlers && h in s.handlers ::
      s'.handlers[h].row == s.handlers[h].row && s'.handlers[h].seen == s.handlers[h].seen)
    && (forall h | h in s'.handlers && h !in s.handlers ::
          s'.handlers[h].row in s.rows && s'.handlers[h].seen == s.rows[s'.handlers[h].row])
    && (forall reply | reply in s'.history.replies :: reply in s.history.replies || ReplyBacked(s', reply))
  }

  lemma ExplainsRows(s: State, s': State)
    requires RepliesInv(s) && Explains(s, s')
    ensures RowsBacked(s')
  {
    forall r | r in s'.rows && Terminal(s'.rows[r].status) ensures Backed(s', r) {
      if r in s.rows && Terminal(s.rows[r].status) { BackedGrows(s, s', r); }
    }
  }

  lemma ExplainsHandlers(s: State, s': State)
    requires RepliesInv(s) && Explains(s, s')
    ensures HandlersBacked(s')
  {
    hide Near;
    forall h | h in s'.handlers && Terminal(s'.handlers[h].seen.status) ensures Backed(s', s'.handlers[h].row) {
      if h in s.handlers { BackedGrows(s, s', s.handlers[h].row); } else { BackedGrows(s, s', s'.handlers[h].row); }
    }
    hide Backed;
  }

  lemma ExplainsReplies(s: State, s': State)
    requires RepliesInv(s) && Explains(s, s')
    ensures RepliesBacked(s')
  {
    hide ReplyBacked;
    forall reply | reply in s'.history.replies ensures ReplyBacked(s', reply) {
      if reply in s.history.replies { ReplyGrows(s, s', reply); }
    }
  }

  lemma ExplainsKeeps(s: State, s': State)
    requires RepliesInv(s) && Explains(s, s')
    ensures RepliesInv(s')
  {
    ExplainsRows(s, s');
    ExplainsHandlers(s, s');
    ExplainsReplies(s, s');
    hide RowsBacked, HandlersBacked, RepliesBacked;
  }

  lemma RecordedGrows(s: State, s': State, call: CallRow, id: CallId)
    requires Recorded(s, call, id) && s.history.committed <= s'.history.committed
    ensures Recorded(s', call, id)
  {
    var i :| 0 <= i < |s.history.committed| && IsRecord(s.history.committed[i], call, id);
    assert s'.history.committed[i] == s.history.committed[i];
  }

  lemma SameCallsRecorded(s: State, s': State)
    requires CallsRecorded(s) && s.history.committed <= s'.history.committed && s'.calls == s.calls
    ensures CallsRecorded(s')
  {
    forall id | id in s'.calls ensures Recorded(s', s'.calls[id], id) { RecordedGrows(s, s', s.calls[id], id); }
  }

  /** A match among the calls is a call that was committed. */
  lemma MatchWasCommitted(s: State, sender: string, meta: CallMeta, id: CallId)
    requires CallsRecorded(s) && Matches(s, sender, meta, id)
    ensures HadNear(s, sender, meta)
  {
    var i :| 0 <= i < |s.history.committed| && IsRecord(s.history.committed[i], s.calls[id], id);
    assert Near(s.cfg, s.history.committed[i].meta, meta);
  }

  /* Handler steps. */

  lemma ActsGrows(s: State, h: HandlerId, step: Step, s': State)
    requires At(s, h) && Acts(s, h, step, s')
    ensures Grows(s, s')
  {
    hide Follows, SameCounter, Writes;
  }

  /** A handler step that says nothing, settles nothing and stores nothing. */
  lemma SilentExplains(s: State, h: HandlerId, step: Step, s': State)
    requires RepliesInv(s) && At(s, h) && Acts(s, h, step, s') && !Speaks(step)
    ensures Explains(s, s')
  {
    ActsGrows(s, h, step, s');
    assert SameCalls(s, s');
    assert Terminal(s'.rows[s.handlers[h].row].status) ==> Terminal(s.rows[s.handlers[h].row].status);
    SameCallsRecorded(s, s');
    hide CallsRecorded, RepliesBacked, HandlersBacked, Backed, Writes, Follows, SameCounter;
  }

  /** A handler step that ends with an answer about a row that is backed. */
  predicate Says(s: State, s': State, h: HandlerId, reply: Reply)
    requires At(s, h)
  {
    && s'.history.replies == s.history.replies + {reply}
    && s'.handlers == s.handlers - {h}
    && s'.history.issued == s.history.issued
    && match reply
       case AudioDone(token, _) => token == s.handlers[h].token
       case AudioDuplicate(token, _) => token == s.handlers[h].token
       case AudioStored(token, _) => token == s.handlers[h].token
       case AudioQuarantined(token) => token == s.handlers[h].token
       case _ => false
  }

  lemma SaysExplains(s: State, s': State, h: HandlerId, reply: Reply)
    requires RepliesInv(s) && SeenInv(s) && At(s, h) && Moves(s, h, s') && Grows(s, s') && Says(s, s', h, reply)
    requires CallsRecorded(s') && Backed(s', s.handlers[h].row) && s'.history.submitted == s.history.submitted
    ensures Explains(s, s')
  {
    hide CallsRecorded, RepliesBacked, HandlersBacked, Follows;
    assert ReplyBacked(s', reply);
    hide Backed;
  }

  lemma AnswerDoneExplains(s: State, h: HandlerId)
    requires RepliesInv(s) && SeenInv(s) && CanAnswerDone(s, h) && Acts(s, h, AnswerDone(h), DoAnswerDone(s, h))
    ensures Explains(s, DoAnswerDone(s, h))
  {
    var s' := DoAnswerDone(s, h);
    ActsGrows(s, h, AnswerDone(h), s');
    SameCallsRecorded(s, s');
    BackedGrows(s, s', s.handlers[h].row);
    SaysExplains(s, s', h, AudioDone(s.handlers[h].token, s.handlers[h].seen.status));
  }

  lemma QuarantineExplains(s: State, h: HandlerId)
    requires RepliesInv(s) && SeenInv(s) && CanQuarantine(s, h) && Acts(s, h, Quarantine(h), DoQuarantine(s, h))
    ensures Explains(s, DoQuarantine(s, h))
  {
    var s' := DoQuarantine(s, h);
    ActsGrows(s, h, Quarantine(h), s');
    SameCallsRecorded(s, s');
    SaysExplains(s, s', h, AudioQuarantined(s.handlers[h].token));
  }

  lemma DuplicateBacked(s: State, h: HandlerId, callId: CallId)
    requires RepliesInv(s) && SeenInv(s) && CanFindDuplicate(s, h, Some(callId))
    ensures Backed(s, s.handlers[h].row)
  {
    MatchWasCommitted(s, s.handlers[h].seen.sender, s.handlers[h].seen.meta, callId);
    hide Near, CallsRecorded, RowsBacked, RepliesBacked;
    assert HadSubmittedNear(s, s.handlers[h].row);
  }

  lemma DuplicateSays(s: State, h: HandlerId, callId: CallId, saved: bool)
    requires CanFindDuplicate(s, h, Some(callId))
    ensures var s' := DoFoundDuplicate(s, h, callId, saved);
      && Says(s, s', h, AudioDuplicate(s.handlers[h].token, callId))
      && SameCalls(s, s') && s'.history.submitted == s.history.submitted
  {
    hide IsDuplicateAnswer;
  }

  lemma DuplicateExplains(s: State, h: HandlerId, callId: CallId, saved: bool)
    requires RepliesInv(s) && SeenInv(s) && CanFindDuplicate(s, h, Some(callId))
    requires Acts(s, h, FoundDuplicate(h, callId, saved), DoFoundDuplicate(s, h, callId, saved))
    ensures Explains(s, DoFoundDuplicate(s, h, callId, saved))
  {
    var s' := DoFoundDuplicate(s, h, callId, saved);
    DuplicateSays(s, h, callId, saved);
    DuplicateBacked(s, h, callId);
    ActsGrows(s, h, FoundDuplicate(h, callId, saved), s');
    SameCallsRecorded(s, s');
    BackedGrows(s, s', s.handlers[h].row);
    hide CallsRecorded, RowsBacked, HandlersBacked, RepliesBacked, Backed, Notes, Writes, CanFindDuplicate, Explains;
    hide Grows, SeenInv, Moves, Says, DoFoundDuplicate;
    SaysExplains(s, s', h, AudioDuplicate(s.handlers[h].token, callId));
  }

  lemma CommitExplains(s: State, h: HandlerId)
    requires RepliesInv(s) && SeenInv(s) && CanCommit(s, h) && Acts(s, h, Commit(h), DoCommit(s, h))
    ensures Explains(s, DoCommit(s, h))
  {
    var s' := DoCommit(s, h);
    ActsGrows(s, h, Commit(h), s');
    var last := |s.history.committed|;
    assert s'.history.committed[last] == NewCommit(s.handlers[h]);
    assert HadCall(s', s.handlers[h].row);
    CommitRecords(s, h);
    SaysExplains(s, s', h, AudioStored(s.handlers[h].token, s.handlers[h].stage.callId));
  }

  lemma CommitRecords(s: State, h: HandlerId)
    requires CallsRecorded(s) && CanCommit(s, h)
    ensures CallsRecorded(DoCommit(s, h))
  {
    var s' := DoCommit(s, h);
    assert s'.history.committed[|s.history.committed|] == NewCommit(s.handlers[h]);
    forall id | id in s'.calls ensures Recorded(s', s'.calls[id], id) {
      if id != s.handlers[h].stage.callId {
        RecordedGrows(s, s', s.calls[id], id);
      } else {
        assert IsRecord(s'.history.committed[|s.history.committed|], s'.calls[id], id);
      }
    }
  }

  /* Other steps. */

  lemma CreateLookupExplains(s: State, id: nat, request: UploadRequest, answer: Option<CallId>)
    requires RepliesInv(s) && CanCreateLookup(s, id, request, answer)
    ensures Explains(s, DoCreateLookup(s, id, request, answer))
  {
    var s' := DoCreateLookup(s, id, request, answer);
    assert Grows(s, s');
    SameCallsRecorded(s, s');
    if answer.Some? {
      MatchWasCommitted(s, request.sender, request.call, answer.value);
      NearGrows(s, s', request.sender, request.call);
      assert ReplyBacked(s', CreatedDuplicate(request, answer.value));
    }
    hide CallsRecorded, RepliesBacked, HandlersBacked, Backed, ReplyBacked, IsDuplicateAnswer;
  }

  lemma RenewedExplains(s: State, s': State, r: RowId, request: UploadRequest, token: Token)
    requires RepliesInv(s) && IngestionOwnership.Renews(s, s', r, token) && Grows(s, s')
    requires s'.calls == s.calls && s'.rows[r].meta == request.call
    requires s'.rows[r].sender == request.sender && s'.rows[r].key == request.key
    requires r in s'.history.submitted && request.call in s'.history.submitted[r]
    requires s'.history.replies == s.history.replies + {CreatedToken(request, token)}
    ensures Explains(s, s')
  {
    SameCallsRecorded(s, s');
    assert ReplyBacked(s', CreatedToken(request, token));
    hide CallsRecorded, RepliesBacked, HandlersBacked, Backed, ReplyBacked;
  }

  lemma UpsertGrows(s: State, create: nat, found: Option<RowId>, token: Token, newRow: RowId)
    requires CanUpsert(s, create, found, token, newRow)
    ensures Grows(s, DoUpsert(s, create, found, token, newRow))
  {
  }

  lemma UpsertExplains(s: State, create: nat, found: Option<RowId>, token: Token, newRow: RowId)
    requires RepliesInv(s) && CanUpsert(s, create, found, token, newRow)
    ensures Explains(s, DoUpsert(s, create, found, token, newRow))
  {
    var s' := DoUpsert(s, create, found, token, newRow);
    var request := s.creating[create];
    UpsertGrows(s, create, found, token, newRow);
    if found.Some? && !Renewable(s, s.rows[found.value]) {
      SettledUpsertExplains(s, create, found.value, token, newRow);
    } else {
      hide RepliesInv, Grows, Explains, IngestionOwnership.Renews;
      IngestionOwnership.UpsertRenews(s, create, found, token, newRow);
      RenewedExplains(s, s', if found.None? then newRow else found.value, request, token);
    }
  }

  lemma SettledUpsertExplains(s: State, create: nat, r: RowId, token: Token, newRow: RowId)
    requires RepliesInv(s) && CanUpsert(s, create, Some(r), token, newRow) && !Renewable(s, s.rows[r])
    ensures Explains(s, DoUpsert(s, create, Some(r), token, newRow))
  {
    var s' := DoUpsert(s, create, Some(r), token, newRow);
    var request := s.creating[create];
    assert Grows(s, s');
    SameCallsRecorded(s, s');
    if Terminal(s.rows[r].status) {
      BackedGrows(s, s', r);
      assert KeptIn(s', request, r);
      assert Justified(s', request);
      assert ReplyBacked(s', CreatedDone(request, s.rows[r].status));
    }
    hide CallsRecorded, RepliesBacked, HandlersBacked, Backed, Justified, KeptIn;
  }

  lemma SweepsExplains(s: State, s': State)
    requires RepliesInv(s) && Sweeps(s, s')
    ensures Explains(s, s')
  {
    SameCallsRecorded(s, s');
    hide CallsRecorded, RepliesBacked, HandlersBacked, Backed, SameCounter;
  }

  lemma LookupExplains(s: State, h: HandlerId, bearer: Token, legacy: bool)
    requires RepliesInv(s) && CanLookup(s, h, bearer)
    ensures Explains(s, DoLookup(s, h, bearer, legacy))
  {
    SameCallsRecorded(s, DoLookup(s, h, bearer, legacy));
    hide CallsRecorded, RepliesBacked, HandlersBacked, Backed;
  }

  lemma SpeakingExplains(s: State, step: Step)
    requires RepliesInv(s) && SeenInv(s) && Enabled(s, step) && Speaks(step)
    requires At(s, step.h) && Acts(s, step.h, step, Next(s, step))
    ensures Explains(s, Next(s, step))
  {
    hide RepliesInv, SeenInv, Acts, Explains;
    match step
    case AnswerDone(h) => AnswerDoneExplains(s, h);
    case Quarantine(h) => QuarantineExplains(s, h);
    case FoundDuplicate(h, callId, saved) => DuplicateExplains(s, h, callId, saved);
    case Commit(h) => CommitExplains(s, h);
    case _ =>
  }

  lemma HandlerExplains(s: State, step: Step)
    requires RepliesInv(s) && SeenInv(s) && Enabled(s, step) && ByHandler(step)
    ensures Explains(s, Next(s, step))
  {
    HandlerActs(s, step);
    hide RepliesInv, SeenInv, Acts, Explains, Next, Enabled;
    if Speaks(step) { SpeakingExplains(s, step); } else { SilentExplains(s, step.h, step, Next(s, step)); }
  }

  lemma OtherExplains(s: State, step: Step)
    requires RepliesInv(s) && Enabled(s, step) && !ByHandler(step)
    ensures Explains(s, Next(s, step))
  {
    var s' := Next(s, step);
    hide RepliesInv, Explains, Sweeps, Registers, CanLookup, DoLookup, CanCreateLookup, DoCreateLookup, CanUpsert;
    hide DoUpsert;
    StepFrame(s, step);
    match step
    case CreateLookup(id, request, answer) => CreateLookupExplains(s, id, request, answer);
    case CreateUpsert(create, found, token, newRow) => UpsertExplains(s, create, found, token, newRow);
    case Lookup(h, bearer, legacy) => LookupExplains(s, h, bearer, legacy);
    case _ => SweepsExplains(s, s');
  }

  /** One step, timely or not, keeps every confirming reply backed. */
  lemma StepKeepsReplies(s: State, step: Step)
    requires RepliesInv(s) && SeenInv(s) && Enabled(s, step)
    ensures RepliesInv(Next(s, step)) && Grows(s, Next(s, step))
  {
    if ByHandler(step) { HandlerExplains(s, step); } else { OtherExplains(s, step); }
    hide RepliesInv, Next, Enabled;
    ExplainsKeeps(s, Next(s, step));
  }

  lemma StartReplies(cfg: Config, now: int)
    ensures RepliesInv(Start(cfg, now))
  {
  }
}
