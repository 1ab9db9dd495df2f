/** What single steps of the upload protocol demand, change and answer, said over the columns of the tables. */
module IngestionSteps {
  import opened Basics
  import opened Ingestion

  predicate IsSettled(status: Status) { status in [Completed, Duplicate, Quarantined] }

  /** What a request with a known token may do, by the row as it found it: a settled one is answered, one past its
      expiry is answered as expired, and any other may be claimed while the row waits, has failed or lapsed. */
  lemma LookedExactly(s: State, h: HandlerId)
    requires HasLooked(s, h)
    ensures var seen, row := s.handlers[h].seen, RowOf(s, h);
      && (CanAnswerDone(s, h) <==> IsSettled(seen.status))
      && (CanAnswerExpired(s, h) <==> !IsSettled(seen.status) && seen.expires < s.now)
      && (CanClaim(s, h) <==>
            && !IsSettled(seen.status) && s.now <= seen.expires
            && (row.status in [Pending, Failed]
                || (row.status == Uploading && row.lease.Some? && row.lease.value < s.now)))
  {
  }

  /** The updates that give a row back, count a failure or set audio aside touch only a row that is under upload, and
      those whose errors are ignored touch nothing when they fail. */
  lemma GuardedUpdates(s: State, step: Step, r: RowId)
    requires Enabled(s, step) && r in s.rows
    requires step.RecordFailure? || step.Requeue? || step.Quarantine? || step.Abort? || step.FoundDuplicate?
    ensures r in Next(s, step).rows
    ensures r != s.handlers[step.h].row ==> Next(s, step).rows[r] == s.rows[r]
    ensures s.rows[r].status != Uploading && !step.FoundDuplicate? ==> Next(s, step).rows[r] == s.rows[r]
    ensures (step.Requeue? || step.Abort? || step.FoundDuplicate?) && !step.saved ==>
      Next(s, step).rows[r] == s.rows[r]
  {
    match step
    case RecordFailure(h) => CountingTouches(s, h, r);
    case Requeue(h, saved) =>
      ReturningTouches(s, h, saved, r);
      assert DoRequeue(s, h, saved).rows == Returned(s, h, saved).rows;
    case Abort(h, saved, removed) =>
      ReturningTouches(s, h, saved, r);
      AbortingTouches(s, h, saved, removed);
    case Quarantine(h) => ShelvingTouches(s, h, r);
    case FoundDuplicate(h, callId, saved) => DuplicateTouches(s, h, callId, saved, r);
  }

  lemma CountingTouches(s: State, h: HandlerId, r: RowId)
    requires CanRecordFailure(s, h) && r in s.rows
    ensures r in DoRecordFailure(s, h).rows
    ensures r != s.handlers[h].row || s.rows[r].status != Uploading ==> DoRecordFailure(s, h).rows[r] == s.rows[r]
  {
  }

  lemma ReturningTouches(s: State, h: HandlerId, saved: bool, r: RowId)
    requires At(s, h) && r in s.rows
    ensures r in Returned(s, h, saved).rows
    ensures r != s.handlers[h].row || s.rows[r].status != Uploading || !saved ==>
      Returned(s, h, saved).rows[r] == s.rows[r]
  {
  }

  lemma AbortingTouches(s: State, h: HandlerId, saved: bool, removed: bool)
    requires CanAbort(s, h)
    ensures DoAbort(s, h, saved, removed).rows == Returned(s, h, saved).rows
  {
  }

  lemma ShelvingTouches(s: State, h: HandlerId, r: RowId)
    requires CanQuarantine(s, h) && r in s.rows
    ensures r in DoQuarantine(s, h).rows
    ensures r != s.handlers[h].row || s.rows[r].status != Uploading ==> DoQuarantine(s, h).rows[r] == s.rows[r]
  {
  }

  lemma DuplicateTouches(s: State, h: HandlerId, callId: CallId, saved: bool, r: RowId)
    requires CanFindDuplicate(s, h, Some(callId)) && r in s.rows
    ensures r in DoFoundDuplicate(s, h, callId, saved).rows
    ensures r != s.handlers[h].row || !saved ==> DoFoundDuplicate(s, h, callId, saved).rows[r] == s.rows[r]
  {
    hide IsDuplicateAnswer;
  }

  /** A row that is given back waits without a lease and is otherwise as it was. */
  lemma GivenBack(s: State, step: Step)
    requires Enabled(s, step) && (step.Requeue? || step.Abort?) && step.saved
    requires At(s, step.h) && RowOf(s, step.h).status == Uploading
    ensures var r := s.handlers[step.h].row;
      Next(s, step).rows[r] == s.rows[r].(status := Pending, lease := None)
  {
    hide QuarantineDue;
  }

  /** The reply a step gives, if it gives one that the uploader could take for success, or a conflict. */
  function ReplyOf(s: State, step: Step): set<Reply>
    requires Enabled(s, step)
  {
    match step
    case CreateLookup(_, request, Some(callId)) => {CreatedDuplicate(request, callId)}
    case CreateUpsert(create, Some(r), token, _) =>
      var request, row := s.creating[create], s.rows[r];
      if IsSettled(row.status) then {CreatedDone(request, row.status)}
      else if row.status == Uploading && row.lease.Some? && row.lease.value > s.now then {CreatedBusy(request)}
      else {CreatedToken(request, token)}
    case CreateUpsert(create, None, token, _) => {CreatedToken(s.creating[create], token)}
    case AnswerDone(h) => {AudioDone(s.handlers[h].token, s.handlers[h].seen.status)}
    case FoundDuplicate(h, callId, _) => {AudioDuplicate(s.handlers[h].token, callId)}
    case Commit(h) => {AudioStored(s.handlers[h].token, s.handlers[h].stage.callId)}
    case Quarantine(h) => {AudioQuarantined(s.handlers[h].token)}
    case _ => {}
  }

  /** Every step gives exactly these replies. */
  lemma RepliesExactly(s: State, step: Step)
    requires Enabled(s, step)
    ensures Next(s, step).history.replies == s.history.replies + ReplyOf(s, step)
  {
    hide Enabled, Next, ReplyOf;
    match step
    case CreateLookup(_, _, _) => LookupReplies(s, step);
    case CreateUpsert(_, _, _, _) => UpsertReplies(s, step);
    case AnswerDone(_) => AudioReplies(s, step);
    case FoundDuplicate(_, _, _) => AudioReplies(s, step);
    case Commit(_) => AudioReplies(s, step);
    case Quarantine(_) => AudioReplies(s, step);
    case Requeue(_, _) => GivesUpSilently(s, step);
    case Abort(_, _, _) => GivesUpSilently(s, step);
    case RecordFailure(_) => GoesOnSilently(s, step);
    case Shelve(_) => GoesOnSilently(s, step);
    case Rename(_, _) => GoesOnSilently(s, step);
    case _ => SaysNothing(s, step);
  }

  lemma LookupReplies(s: State, step: Step)
    requires Enabled(s, step) && step.CreateLookup?
    ensures Next(s, step).history.replies == s.history.replies + ReplyOf(s, step)
  {
    hide IsDuplicateAnswer;
  }

  lemma UpsertReplies(s: State, step: Step)
    requires Enabled(s, step) && step.CreateUpsert?
    ensures Next(s, step).history.replies == s.history.replies + ReplyOf(s, step)
  {
    UpsertSays(s, step.create, step.found, step.token, step.newRow);
    hide DoUpsert, CanUpsert;
  }

  lemma UpsertSays(s: State, create: nat, found: Option<RowId>, token: Token, newRow: RowId)
    requires CanUpsert(s, create, found, token, newRow)
    ensures DoUpsert(s, create, found, token, newRow).history.replies
      == s.history.replies + ReplyOf(s, CreateUpsert(create, found, token, newRow))
  {
    hide Inserted, Renewed, IsKeyAnswer;
  }

  lemma AudioReplies(s: State, step: Step)
    requires Enabled(s, step) && (step.AnswerDone? || step.FoundDuplicate? || step.Commit? || step.Quarantine?)
    ensures Next(s, step).history.replies == s.history.replies + ReplyOf(s, step)
  {
    hide IsDuplicateAnswer, SourceTaken;
  }

  lemma GivesUpSilently(s: State, step: Step)
    requires Enabled(s, step) && (step.Requeue? || step.Abort?)
    ensures Next(s, step).history.replies == s.history.replies + ReplyOf(s, step)
  {
    match step
    case Requeue(h, saved) => assert DoRequeue(s, h, saved).history == s.history;
    case Abort(h, saved, removed) => AbortsSilently(s, h, saved, removed);
    hide DoRequeue, DoAbort, CanRequeue, CanAbort;
  }

  lemma AbortsSilently(s: State, h: HandlerId, saved: bool, removed: bool)
    requires CanAbort(s, h)
    ensures DoAbort(s, h, saved, removed).history.replies == s.history.replies
  {
    hide GiveBack, FinalPath;
  }

  lemma GoesOnSilently(s: State, step: Step)
    requires Enabled(s, step) && (step.RecordFailure? || step.Shelve? || step.Rename?)
    ensures Next(s, step).history.replies == s.history.replies + ReplyOf(s, step)
  {
    hide QuarantineDue, CountFailure;
  }

  lemma SaysNothing(s: State, step: Step)
    requires Enabled(s, step)
    requires step.Tick? || step.CleanupExpire? || step.CleanupRecover? || step.Crash? || step.Lookup?
      || step.AnswerExpired? || step.Leave? || step.Claim? || step.Receive? || step.Accept? || step.NoDuplicate?
    ensures Next(s, step).history.replies == s.history.replies + ReplyOf(s, step)
  {
    hide IsDuplicateAnswer, ExpireRow, RecoverRow;
  }
}
