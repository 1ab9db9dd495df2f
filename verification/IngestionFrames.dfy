/** What each kind of step changes at most, whatever the timing. */
module IngestionFrames {
  import opened Basics
  import opened Ingestion

  /* ---- Kinds of step ---- */

  predicate ByHandler(step: Step) {
    step.AnswerDone? || step.AnswerExpired? || step.Leave? || step.Claim? || step.Receive? || step.RecordFailure?
    || step.Requeue? || step.Shelve? || step.Quarantine? || step.Accept? || step.FoundDuplicate? || step.NoDuplicate?
    || step.Rename? || step.Commit? || step.Abort?
  }

  /** The request is answered, and its row may be settled. */
  predicate Speaks(step: Step) { step.AnswerDone? || step.Quarantine? || step.FoundDuplicate? || step.Commit? }

  /* ---- Parts that stay ---- */

  predicate SameIdentity(a: Row, b: Row) {
    b.sender == a.sender && b.key == a.key && b.token == a.token && b.meta == a.meta
  }

  predicate SameCounter(a: Row, b: Row) {
    b.failCount == a.failCount && b.failFirst == a.failFirst && b.rejected == a.rejected
  }

  predicate NoCounter(row: Row) { row.failCount == 0 && row.failFirst == None && row.rejected == None }

  predicate SameCalls(s: State, s': State) { s'.calls == s.calls && s'.history.committed == s.history.committed }

  /* ---- Steps of a handler ---- */

  /** How a handler goes on: with the audio it has, to the shelf only for a legacy request. */
  predicate Follows(hd: Handler, next: Stage) {
    match hd.stage
    case Looked => next.Claimed?
    case Claimed => next.Received?
    case Received(audio) => (next.Failing? || next.Valid?) && next.audio == audio
    case Failing(audio, _, _) => next == Shelved(audio) && hd.legacy
    case Shelved(_) => false
    case Valid(audio) => next == Checked(audio)
    case Checked(audio) => next.Renamed? && next.audio == audio
    case Renamed(_, _) => false
  }

  /** The step's handler goes on or leaves, and of the rows only its own changes. */
  predicate Moves(s: State, h: HandlerId, s': State)
    requires At(s, h)
  {
    var hd := s.handlers[h];
    && s'.cfg == s.cfg && s'.now == s.now && s'.creating == s.creating
    && s'.rows.Keys == s.rows.Keys && SameIdentity(s.rows[hd.row], s'.rows[hd.row])
    && (forall q | q in s.rows && q != hd.row :: s'.rows[q] == s.rows[q])
    && (forall g | g in s'.handlers :: g in s.handlers && (g != h ==> s'.handlers[g] == s.handlers[g]))
    && (h in s'.handlers ==>
          s'.handlers[h] == hd.(stage := s'.handlers[h].stage) && Follows(hd, s'.handlers[h].stage))
  }

  /** Only four steps answer, only a commit stores, only a decode failure counts, only quarantine quarantines. */
  predicate Notes(s: State, h: HandlerId, step: Step, s': State)
    requires At(s, h) && s'.rows.Keys == s.rows.Keys
  {
    var r := s.handlers[h].row;
    && s'.history.issued == s.history.issued && s'.history.submitted == s.history.submitted
    && (!Speaks(step) ==>
          && s'.history.replies == s.history.replies
          && (Terminal(s'.rows[r].status) ==> Terminal(s.rows[r].status)))
    && (if step.Commit? then CanCommit(s, h) && s' == DoCommit(s, h) else SameCalls(s, s'))
    && (!step.RecordFailure? ==>
          && s'.history.failures == s.history.failures && SameCounter(s.rows[r], s'.rows[r])
          && (h in s'.handlers ==> !s'.handlers[h].stage.Failing?))
    && (s'.history.quarantined == if step.Quarantine? then s.history.quarantined + {r} else s.history.quarantined)
    && (s'.rows[r].status.Quarantined? ==> s.rows[r].status.Quarantined? || step.Quarantine?)
  }

  /** A row is written by the claim, by the expiry answer and by an owner, who keeps its claim while it goes on. */
  predicate Writes(s: State, h: HandlerId, step: Step, s': State)
    requires At(s, h) && s'.rows.Keys == s.rows.Keys
  {
    var row, row', stays := RowOf(s, h), s'.rows[s.handlers[h].row], h in s'.handlers;
    && (step.Claim? ==> CanClaim(s, h) && row' == row.(status := Uploading, lease := Some(s.now + LEASE)))
    && (step.AnswerExpired? ==>
          CanAnswerExpired(s, h) && !stays
          && row' == if row.status.Completed? || row.status.Duplicate? then row
                     else row.(status := Expired, lease := None))
    && (!step.Claim? && !step.AnswerExpired? && !Owns(s, h) ==> row' == row && !stays)
    && (Owns(s, h) && (stays || row'.status.Uploading?) ==> row'.status == row.status && row'.lease == row.lease)
    && (stays && s.handlers[h].stage.Claimed? ==> step.Receive? && s'.handlers[h].stage == Received(step.audio))
    && (stays && s.handlers[h].stage.Failing? ==> QuarantineDue(s, h))
    && (stays && s.handlers[h].stage.Valid? ==> step.NoDuplicate?)
    && (step.Quarantine? ==> s.handlers[h].stage.Shelved? && row'.status.Quarantined?)
  }

  predicate Acts(s: State, h: HandlerId, step: Step, s': State)
    requires At(s, h)
  {
    Moves(s, h, s') && Notes(s, h, step, s') && Writes(s, h, step, s')
  }

  lemma AnswerDoneActs(s: State, h: HandlerId)
    requires CanAnswerDone(s, h)
    ensures Acts(s, h, AnswerDone(h), DoAnswerDone(s, h))
  {
  }

  lemma AnswerExpiredActs(s: State, h: HandlerId)
    requires CanAnswerExpired(s, h)
    ensures Acts(s, h, AnswerExpired(h), DoAnswerExpired(s, h))
  {
  }

  lemma LeaveActs(s: State, h: HandlerId)
    requires HasLooked(s, h)
    ensures Acts(s, h, Leave(h), DoLeave(s, h))
  {
  }

  lemma ClaimActs(s: State, h: HandlerId)
    requires CanClaim(s, h)
    ensures Acts(s, h, Claim(h), DoClaim(s, h))
  {
  }

  lemma ReceiveActs(s: State, h: HandlerId, audio: seq<int>)
    requires CanReceive(s, h, audio)
    ensures Acts(s, h, Receive(h, audio), DoReceive(s, h, audio))
  {
  }

  lemma AcceptActs(s: State, h: HandlerId)
    requires HasReceived(s, h)
    ensures Acts(s, h, Accept(h), DoAccept(s, h))
  {
  }

  lemma RecordFailureActs(s: State, h: HandlerId)
    requires CanRecordFailure(s, h)
    ensures Acts(s, h, RecordFailure(h), DoRecordFailure(s, h))
  {
  }

  lemma RequeueActs(s: State, h: HandlerId, saved: bool)
    requires CanRequeue(s, h)
    ensures Acts(s, h, Requeue(h, saved), DoRequeue(s, h, saved))
  {
  }

  lemma ShelveActs(s: State, h: HandlerId)
    requires CanShelve(s, h)
    ensures Acts(s, h, Shelve(h), DoShelve(s, h))
  {
  }

  lemma QuarantineActs(s: State, h: HandlerId)
    requires CanQuarantine(s, h)
    ensures Acts(s, h, Quarantine(h), DoQuarantine(s, h))
  {
  }

  lemma FoundDuplicateActs(s: State, h: HandlerId, callId: CallId, saved: bool)
    requires CanFindDuplicate(s, h, Some(callId))
    ensures Acts(s, h, FoundDuplicate(h, callId, saved), DoFoundDuplicate(s, h, callId, saved))
  {
  }

  lemma NoDuplicateActs(s: State, h: HandlerId)
    requires CanFindDuplicate(s, h, None)
    ensures Acts(s, h, NoDuplicate(h), DoNoDuplicate(s, h))
  {
  }

  lemma RenameActs(s: State, h: HandlerId, callId: CallId)
    requires CanRename(s, h, callId)
    ensures Acts(s, h, Rename(h, callId), DoRename(s, h, callId))
  {
  }

  lemma CommitActs(s: State, h: HandlerId)
    requires CanCommit(s, h)
    ensures Acts(s, h, Commit(h), DoCommit(s, h))
  {
  }

  lemma AbortFilesOnly(s: State, h: HandlerId, removed: bool)
    requires h in s.handlers
    ensures var s' := AbortFiles(s, h, removed);
      && s' == s.(files := s'.files, history := s'.history)
      && s'.history == s.history.(orphans := s'.history.orphans)
  {
  }

  lemma AbortActs(s: State, h: HandlerId, saved: bool, removed: bool)
    requires CanAbort(s, h)
    ensures Acts(s, h, Abort(h, saved, removed), DoAbort(s, h, saved, removed))
  {
    AbortFilesOnly(Returned(s, h, saved), h, removed);
    hide AbortFiles;
  }

  lemma HandlerActs(s: State, step: Step)
    requires Enabled(s, step) && ByHandler(step)
    ensures At(s, step.h) && Acts(s, step.h, step, Next(s, step))
  {
    hide Acts;
    match step
    case AnswerDone(h) => AnswerDoneActs(s, h);
    case AnswerExpired(h) => AnswerExpiredActs(s, h);
    case Leave(h) => LeaveActs(s, h);
    case Claim(h) => ClaimActs(s, h);
    case Receive(h, audio) => ReceiveActs(s, h, audio);
    case Accept(h) => AcceptActs(s, h);
    case RecordFailure(h) => RecordFailureActs(s, h);
    case Requeue(h, saved) => RequeueActs(s, h, saved);
    case Shelve(h) => ShelveActs(s, h);
    case Quarantine(h) => QuarantineActs(s, h);
    case FoundDuplicate(h, callId, saved) => FoundDuplicateActs(s, h, callId, saved);
    case NoDuplicate(h) => NoDuplicateActs(s, h);
    case Rename(h, callId) => RenameActs(s, h, callId);
    case Commit(h) => CommitActs(s, h);
    case Abort(h, saved, removed) => AbortActs(s, h, saved, removed);
  }

  /* ---- The clock, the clean-up and a crash ---- */

  /** Rows keep their identity and counter and none is settled; handlers and requests may vanish. */
  predicate Sweeps(s: State, s': State) {
    && s'.cfg == s.cfg && s.now <= s'.now && s'.calls == s.calls
    && s'.history == s.history.(orphans := s'.history.orphans)
    && s'.rows.Keys == s.rows.Keys
    && (forall r | r in s.rows :: SameIdentity(s.rows[r], s'.rows[r]) && SameCounter(s.rows[r], s'.rows[r])
          && (Terminal(s'.rows[r].status) ==> s'.rows[r].status == s.rows[r].status))
    && (forall c | c in s'.creating :: c in s.creating && s'.creating[c] == s.creating[c])
    && (forall h | h in s'.handlers :: h in s.handlers && s'.handlers[h] == s.handlers[h])
  }

  lemma ExpireSweeps(s: State)
    ensures Sweeps(s, DoCleanupExpire(s))
  {
  }

  lemma RecoverSweeps(s: State)
    ensures Sweeps(s, DoCleanupRecover(s))
  {
  }

  lemma CrashSweeps(s: State)
    ensures Sweeps(s, DoCrash(s))
  {
  }

  lemma TickSweeps(s: State, to: int)
    requires s.now <= to
    ensures Sweeps(s, s.(now := to))
  {
  }

  /* ---- The idempotency read with its update or insert ---- */

  /** A row becomes the request's, as a new one or with its counter as it was. */
  predicate Takes(s: State, request: UploadRequest, r: RowId, row: Row) {
    && row.status.Pending? && row.sender == request.sender && row.key == request.key && row.meta == request.call
    && (if r in s.rows then SameCounter(s.rows[r], row) else NoCounter(row))
  }

  /** The request is answered, and at most one row becomes its own, under a fresh token. */
  predicate Registers(s: State, create: nat, s': State)
    requires create in s.creating
  {
    && s' == s.(creating := s.creating - {create}, rows := s'.rows, history := s'.history)
    && s'.history == s.history.(issued := s'.history.issued, submitted := s'.history.submitted,
                                replies := s'.history.replies)
    && (forall r | r in s.rows ::
          r in s'.rows && s'.rows[r].sender == s.rows[r].sender && s'.rows[r].key == s.rows[r].key)
    && (forall r | r in s'.rows ::
          (r in s.rows && s'.rows[r] == s.rows[r]) || Takes(s, s.creating[create], r, s'.rows[r]))
    && (forall t | t in s.history.issued :: t in s'.history.issued && s'.history.issued[t] == s.history.issued[t])
  }

  lemma RowRegisters(s: State, create: nat, r: RowId, row: Row, token: Token)
    requires create in s.creating && token !in s.history.issued && Takes(s, s.creating[create], r, row)
    requires r in s.rows ==> s.rows[r].sender == row.sender && s.rows[r].key == row.key
    ensures var request := s.creating[create];
      var s1 := SetRow(s.(creating := s.creating - {create}), r, row);
      Registers(s, create, Say(Submit(s1, r, token, request.call), CreatedToken(request, token)))
  {
    hide Takes;
  }

  lemma UpsertRegisters(s: State, create: nat, found: Option<RowId>, token: Token, newRow: RowId)
    requires CanUpsert(s, create, found, token, newRow)
    ensures Registers(s, create, DoUpsert(s, create, found, token, newRow))
  {
    var request := s.creating[create];
    if found.Some? && !Renewable(s, s.rows[found.value]) {
      hide IsKeyAnswer, Terminal, Busy;
    } else {
      var r := if found.Some? then found.value else newRow;
      RowRegisters(s, create, r,
        if found.Some? then Renewed(s, s.rows[r], request, token) else Inserted(s, request, token), token);
      hide Registers, Takes, Terminal, Busy, Submit, Say, SetRow, Renewed, Inserted, IsKeyAnswer;
    }
  }

  /* ---- Every step ---- */

  predicate Frame(s: State, step: Step, s': State) {
    if ByHandler(step) then At(s, step.h) && Acts(s, step.h, step, s')
    else match step
      case CreateLookup(id, request, answer) =>
        CanCreateLookup(s, id, request, answer) && s' == DoCreateLookup(s, id, request, answer)
      case CreateUpsert(create, _, _, _) => create in s.creating && Registers(s, create, s')
      case Lookup(h, bearer, legacy) => CanLookup(s, h, bearer) && s' == DoLookup(s, h, bearer, legacy)
      case _ => Sweeps(s, s')
  }

  lemma StepFrame(s: State, step: Step)
    requires Enabled(s, step)
    ensures Frame(s, step, Next(s, step))
  {
    hide Acts, Registers, Sweeps;
    if ByHandler(step) {
      HandlerActs(s, step);
    } else {
      match step
      case Tick(to) => TickSweeps(s, to);
      case CleanupExpire => ExpireSweeps(s);
      case CleanupRecover => RecoverSweeps(s);
      case Crash => CrashSweeps(s);
      case CreateUpsert(create, found, token, newRow) => UpsertRegisters(s, create, found, token, newRow);
      case CreateLookup(_, _, _) =>
      case Lookup(_, _, _) =>
    }
  }

  /** What no step but a handler's changes: calls, failures, counters, and handlers on their way. */
  predicate Around(s: State, s': State) {
    && SameCalls(s, s') && s'.cfg == s.cfg && s.now <= s'.now
    && s'.history.failures == s.history.failures && s'.history.quarantined == s.history.quarantined
    && (forall r | r in s.rows :: r in s'.rows && SameCounter(s.rows[r], s'.rows[r])
          && (s'.rows[r].status.Quarantined? ==> s.rows[r].status.Quarantined?))
    && (forall r | r in s'.rows && r !in s.rows :: NoCounter(s'.rows[r]) && !s'.rows[r].status.Quarantined?)
    && (forall h | h in s'.handlers ::
          (h in s.handlers && s'.handlers[h] == s.handlers[h]) || s'.handlers[h].stage.Looked?)
  }

  lemma RegistersAround(s: State, create: nat, s': State)
    requires create in s.creating && Registers(s, create, s')
    ensures Around(s, s')
  {
    forall r | r in s.rows ensures SameCounter(s.rows[r], s'.rows[r]) {
      assert s'.rows[r] == s.rows[r] || Takes(s, s.creating[create], r, s'.rows[r]);
    }
  }

  lemma SweepsAround(s: State, s': State)
    requires Sweeps(s, s')
    ensures Around(s, s')
  {
  }

  lemma AskAround(s: State, id: nat, request: UploadRequest, answer: Option<CallId>)
    ensures Around(s, DoCreateLookup(s, id, request, answer))
  {
  }

  lemma LookupAround(s: State, h: HandlerId, bearer: Token, legacy: bool)
    requires CanLookup(s, h, bearer)
    ensures Around(s, DoLookup(s, h, bearer, legacy))
  {
  }

  lemma AroundStep(s: State, step: Step)
    requires Enabled(s, step) && !ByHandler(step)
    ensures Around(s, Next(s, step))
  {
    var s' := Next(s, step);
    StepFrame(s, step);
    hide Enabled, Next, Registers, Sweeps, Around, CanLookup, DoLookup, CanCreateLookup, DoCreateLookup;
    match step
    case CreateUpsert(create, _, _, _) => RegistersAround(s, create, s');
    case CreateLookup(id, request, answer) => AskAround(s, id, request, answer);
    case Lookup(h, bearer, legacy) => LookupAround(s, h, bearer, legacy);
    case _ => SweepsAround(s, s');
  }

  lemma OnlyCommitsStore(s: State, step: Step)
    requires Enabled(s, step) && !step.Commit?
    ensures SameCalls(s, Next(s, step))
  {
    if ByHandler(step) { HandlerActs(s, step); } else { AroundStep(s, step); }
    hide Enabled, Next, Moves, Writes, SameCounter;
  }

  /* ---- What handlers have seen ---- */

  /** A handler saw its own row, under a token issued for it. */
  predicate SeenInv(s: State) {
    forall h | h in s.handlers ::
      var hd := s.handlers[h];
      && hd.row in s.rows && hd.seen.sender == s.rows[hd.row].sender && hd.seen.key == s.rows[hd.row].key
      && hd.token in s.history.issued && s.history.issued[hd.token] == hd.row
  }

  lemma MovesSeen(s: State, h: HandlerId, s': State)
    requires SeenInv(s) && At(s, h) && Moves(s, h, s') && s'.history.issued == s.history.issued
    ensures SeenInv(s')
  {
    hide Follows;
  }

  lemma RegistersSeen(s: State, create: nat, s': State)
    requires SeenInv(s) && create in s.creating && Registers(s, create, s')
    ensures SeenInv(s')
  {
    hide Takes;
  }

  lemma SweepsSeen(s: State, s': State)
    requires SeenInv(s) && Sweeps(s, s')
    ensures SeenInv(s')
  {
    hide SameCounter;
  }

  lemma LookupSeen(s: State, h: HandlerId, bearer: Token, legacy: bool)
    requires SeenInv(s) && CanLookup(s, h, bearer)
    ensures SeenInv(DoLookup(s, h, bearer, legacy))
  {
  }

  lemma AskSeen(s: State, id: nat, request: UploadRequest, answer: Option<CallId>)
    requires SeenInv(s)
    ensures SeenInv(DoCreateLookup(s, id, request, answer))
  {
  }

  lemma SeenKeeps(s: State, step: Step)
    requires SeenInv(s) && Enabled(s, step)
    ensures SeenInv(Next(s, step))
  {
    var s' := Next(s, step);
    StepFrame(s, step);
    hide SeenInv, Enabled, Next, Moves, Writes, Registers, Sweeps, CanLookup, DoLookup, CanCreateLookup, DoCreateLookup;
    if ByHandler(step) {
      MovesSeen(s, step.h, s');
    } else {
      match step
      case CreateLookup(id, request, answer) => AskSeen(s, id, request, answer);
      case CreateUpsert(create, _, _, _) => RegistersSeen(s, create, s');
      case Lookup(h, bearer, legacy) => LookupSeen(s, h, bearer, legacy);
      case _ => SweepsSeen(s, s');
    }
  }
}
