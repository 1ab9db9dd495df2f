/** One `receiveAudio` request that runs undisturbed: what it has done to the tables and the audio directory at each
    stage, and what it leaves behind. */
module UploadStages {
  import opened Basics
  import opened Ingestion
  import IngestionFrames
  import IngestionOwnership

  /** How the outside world treats one request: whether it is too long by its header, whether its credentials and
      content type are right, what arrives in the temporary file if it can be written, whether the audio decodes, and
      which of the file and database operations work. */
  datatype Attempt = Attempt(
    legacy: bool, oversized: bool, admitted: bool, claims: bool, body: Option<seq<int>>, decodes: bool, tracks: bool,
    shelves: bool, syncs: bool, searches: bool, renames: bool, commits: bool, saves: bool, removes: bool)

  /** The machine's steps lead from one state to the other. */
  predicate Ran(s: State, steps: seq<Step>, s': State) { Possible(s, steps) && Run(s, steps) == s' }

  lemma Then(start: State, steps: seq<Step>, s: State, step: Step)
    requires Ran(start, steps, s) && Enabled(s, step)
    ensures Ran(start, steps + [step], Next(s, step))
  {
    hide Enabled, Next;
    Extend(start, steps, step);
  }

  /* ---- Stages ---- */

  /** The request's row at a stage: claimed for ten minutes, and counted when its audio did not decode. */
  function RowAt(row: Row, stage: Stage, now: int): Row {
    var claimed := row.(status := Uploading, lease := Some(now + LEASE));
    match stage
    case Looked => row
    case Failing(audio, _, _) => CountFailure(claimed, Sha(audio), now)
    case Shelved(audio) => CountFailure(claimed, Sha(audio), now)
    case _ => claimed
  }

  /** Where its audio is: nowhere, in its temporary file, on the shelf, or at the final path. */
  function FilesAt(files: map<Path, seq<int>>, h: HandlerId, hd: Handler): map<Path, seq<int>> {
    match hd.stage
    case Looked => files
    case Claimed => files
    case Shelved(audio) => files[ShelfPath(hd) := audio]
    case Renamed(audio, _) => files[FinalPath(hd) := audio]
    case _ => files[Tmp(h) := hd.stage.audio]
  }

  /** The request came with the current token of its row, and its temporary file is new. */
  predicate IsOwn(start: State, h: HandlerId, hd: Handler) {
    && h !in start.handlers && Tmp(h) !in start.files
    && hd.row in start.rows && hd.seen == start.rows[hd.row] && hd.token == hd.seen.token
    && forall r | r in start.rows && start.rows[r].token == hd.token :: r == hd.row
  }

  /** From `start`, by these steps of the machine, the request stands at its stage, and has done nothing else. */
  predicate Standing(start: State, s: State, h: HandlerId, hd: Handler, steps: seq<Step>) {
    && IsOwn(start, h, hd) && Ran(start, steps, s)
    && s.cfg == start.cfg && s.now == start.now && s.calls == start.calls
    && s.handlers == start.handlers[h := hd]
    && s.rows == start.rows[hd.row := RowAt(hd.seen, hd.stage, start.now)]
    && s.files == FilesAt(start.files, h, hd)
    && (!hd.stage.Renamed? ==> s.history.callIds == start.history.callIds)
    && (hd.stage.Failing? ==>
          s.rows[hd.row].failCount == hd.stage.count && s.rows[hd.row].failFirst == Some(hd.stage.first))
  }

  lemma StandsLooked(s: State, token: Token, legacy: bool, h: HandlerId, r: RowId)
    requires IngestionOwnership.RowsInv(s) && r in s.rows && s.rows[r].token == token && h !in s.handlers
    requires Tmp(h) !in s.files
    ensures CanLookup(s, h, token)
    ensures Standing(s, DoLookup(s, h, token, legacy), h, Handler(token, r, s.rows[r], legacy, Looked),
      [Lookup(h, token, legacy)])
  {
    assert s.rows[s.history.issued[token]].token == token;
    Then(s, [], s, Lookup(h, token, legacy));
    assert [] + [Lookup(h, token, legacy)] == [Lookup(h, token, legacy)];
    hide Ran;
  }

  lemma StandsClaimed(start: State, s: State, h: HandlerId, hd: Handler, steps: seq<Step>)
    requires Standing(start, s, h, hd, steps) && hd.stage.Looked? && !Terminal(hd.seen.status)
    requires start.now <= hd.seen.expires
    ensures CanClaim(s, h) <==> Claimable(hd.seen, start.now)
    ensures CanClaim(s, h) ==> Standing(start, DoClaim(s, h), h, hd.(stage := Claimed), steps + [Claim(h)])
  {
    if CanClaim(s, h) { Then(start, steps, s, Claim(h)); }
    hide Ran, Claimable;
  }

  lemma StandsReceived(start: State, s: State, h: HandlerId, hd: Handler, steps: seq<Step>, audio: seq<int>)
    requires Standing(start, s, h, hd, steps) && hd.stage.Claimed? && 0 < |audio| <= start.cfg.maxAudio
    ensures CanReceive(s, h, audio)
    ensures Standing(start, DoReceive(s, h, audio), h, hd.(stage := Received(audio)), steps + [Receive(h, audio)])
  {
    Then(start, steps, s, Receive(h, audio));
    hide Ran;
  }

  lemma StandsFailing(start: State, s: State, h: HandlerId, hd: Handler, steps: seq<Step>)
    requires Standing(start, s, h, hd, steps) && hd.stage.Received?
    ensures CanRecordFailure(s, h)
    ensures var s' := DoRecordFailure(s, h);
      h in s'.handlers && s'.handlers[h].stage.Failing?
        && Standing(start, s', h, s'.handlers[h], steps + [RecordFailure(h)])
  {
    Then(start, steps, s, RecordFailure(h));
    hide Ran;
  }

  lemma StandsShelved(start: State, s: State, h: HandlerId, hd: Handler, steps: seq<Step>)
    requires Standing(start, s, h, hd, steps) && hd.stage.Failing? && QuarantineDue(s, h)
    ensures CanShelve(s, h)
    ensures Standing(start, DoShelve(s, h), h, hd.(stage := Shelved(hd.stage.audio)), steps + [Shelve(h)])
  {
    Then(start, steps, s, Shelve(h));
    hide Ran, ShouldQuarantine;
    assert (start.files[Tmp(h) := hd.stage.audio] - {Tmp(h)}) == start.files;
  }

  lemma StandsValid(start: State, s: State, h: HandlerId, hd: Handler, steps: seq<Step>)
    requires Standing(start, s, h, hd, steps) && hd.stage.Received?
    ensures HasReceived(s, h)
    ensures Standing(start, DoAccept(s, h), h, hd.(stage := Valid(hd.stage.audio)), steps + [Accept(h)])
  {
    Then(start, steps, s, Accept(h));
    hide Ran;
  }

  lemma StandsChecked(start: State, s: State, h: HandlerId, hd: Handler, steps: seq<Step>)
    requires Standing(start, s, h, hd, steps) && hd.stage.Valid?
    requires IsDuplicateAnswer(s, hd.seen.sender, hd.seen.meta, None)
    ensures CanFindDuplicate(s, h, None)
    ensures Standing(start, DoNoDuplicate(s, h), h, hd.(stage := Checked(hd.stage.audio)), steps + [NoDuplicate(h)])
  {
    Then(start, steps, s, NoDuplicate(h));
    hide Ran, IsDuplicateAnswer;
  }

  lemma RenameEffect(start: State, s: State, h: HandlerId, hd: Handler, callId: CallId, path: Path)
    requires CanRename(s, h, callId) && s.handlers[h] == hd
    requires path == FinalPath(hd.(stage := Renamed(hd.stage.audio, callId)))
    requires s.files == start.files[Tmp(h) := hd.stage.audio] && Tmp(h) !in start.files
    ensures DoRename(s, h, callId) == s.(files := start.files[path := hd.stage.audio],
      handlers := s.handlers[h := hd.(stage := Renamed(hd.stage.audio, callId))],
      history := s.history.(callIds := s.history.callIds + {callId}))
  {
    assert s.files - {Tmp(h)} == start.files;
  }

  lemma CheckedFiles(files: map<Path, seq<int>>, h: HandlerId, hd: Handler)
    ensures hd.stage.Checked? ==> FilesAt(files, h, hd) == files[Tmp(h) := hd.stage.audio]
    ensures hd.stage.Renamed? ==> FilesAt(files, h, hd) == files[FinalPath(hd) := hd.stage.audio]
  {
  }

  lemma Fresh(start: State, h: HandlerId, hd: Handler)
    requires IsOwn(start, h, hd)
    ensures Tmp(h) !in start.files && h !in start.handlers
  {
  }

  lemma StandsRenamed(start: State, s: State, h: HandlerId, hd: Handler, steps: seq<Step>, callId: CallId)
    requires Standing(start, s, h, hd, steps) && hd.stage.Checked? && callId !in start.history.callIds
    ensures CanRename(s, h, callId)
    ensures Standing(start, DoRename(s, h, callId), h, hd.(stage := Renamed(hd.stage.audio, callId)),
      steps + [Rename(h, callId)])
  {
    var hd' := hd.(stage := Renamed(hd.stage.audio, callId));
    var path := FinalPath(hd');
    var s' := s.(files := start.files[path := hd.stage.audio], handlers := start.handlers[h := hd'],
                 history := s.history.(callIds := s.history.callIds + {callId}));
    CheckedFiles(start.files, h, hd);
    CheckedFiles(start.files, h, hd');
    Fresh(start, h, hd);
    RenameEffect(start, s, h, hd, callId, path);
    assert s.handlers[h := hd'] == start.handlers[h := hd'];
    Then(start, steps, s, Rename(h, callId));
    hide DoRename, FinalPath, FilesAt, Ran, IsOwn, CountFailure;
  }

  /* ---- Endings ---- */

  /** The request is over: its temporary file is gone, and no call and no row but its own was touched. */
  predicate Over(start: State, s: State, h: HandlerId, r: RowId, steps: seq<Step>) {
    && Ran(start, steps, s) && s.handlers == start.handlers && s.now == start.now && s.calls == start.calls
    && r in start.rows && r in s.rows && s.rows == start.rows[r := s.rows[r]] && Tmp(h) !in s.files
  }

  /** Every path with a file had one before. */
  predicate NoNewFiles(start: State, s: State) { s.files.Keys <= start.files.Keys }

  lemma EndsLooked(start: State, s: State, h: HandlerId, hd: Handler, steps: seq<Step>, last: Step)
    requires Standing(start, s, h, hd, steps) && hd.stage.Looked?
    requires (last == AnswerDone(h) && Terminal(hd.seen.status)) || last == Leave(h)
    ensures Enabled(s, last) && Over(start, Next(s, last), h, hd.row, steps + [last])
    ensures Next(s, last).rows == start.rows && Next(s, last).files == start.files
  {
    Then(start, steps, s, last);
    hide Ran;
  }

  lemma EndsExpired(start: State, s: State, h: HandlerId, hd: Handler, steps: seq<Step>)
    requires Standing(start, s, h, hd, steps) && hd.stage.Looked? && !Terminal(hd.seen.status)
    requires start.now > hd.seen.expires
    ensures CanAnswerExpired(s, h) && Over(start, DoAnswerExpired(s, h), h, hd.row, steps + [AnswerExpired(h)])
    ensures DoAnswerExpired(s, h).rows[hd.row].status.Expired? && DoAnswerExpired(s, h).files == start.files
  {
    Then(start, steps, s, AnswerExpired(h));
    hide Ran;
  }

  lemma EndsRequeued(start: State, s: State, h: HandlerId, hd: Handler, steps: seq<Step>, saved: bool)
    requires Standing(start, s, h, hd, steps) && hd.stage.Failing? && !QuarantineDue(s, h)
    ensures CanRequeue(s, h) && Over(start, DoRequeue(s, h, saved), h, hd.row, steps + [Requeue(h, saved)])
    ensures DoRequeue(s, h, saved).files == start.files
    ensures saved ==> DoRequeue(s, h, saved).rows[hd.row].status.Pending?
  {
    Then(start, steps, s, Requeue(h, saved));
    hide Ran, ShouldQuarantine;
    assert (start.files[Tmp(h) := hd.stage.audio] - {Tmp(h)}) == start.files;
  }

  lemma EndsQuarantined(start: State, s: State, h: HandlerId, hd: Handler, steps: seq<Step>)
    requires Standing(start, s, h, hd, steps) && hd.stage.Shelved?
    ensures CanQuarantine(s, h) && Over(start, DoQuarantine(s, h), h, hd.row, steps + [Quarantine(h)])
    ensures DoQuarantine(s, h).rows[hd.row].status.Quarantined?
    ensures DoQuarantine(s, h).files == start.files[ShelfPath(hd) := hd.stage.audio]
  {
    Then(start, steps, s, Quarantine(h));
    hide Ran;
  }

  lemma EndsDuplicate(start: State, s: State, h: HandlerId, hd: Handler, steps: seq<Step>, id: CallId, saved: bool)
    requires Standing(start, s, h, hd, steps) && hd.stage.Valid?
    requires IsDuplicateAnswer(s, hd.seen.sender, hd.seen.meta, Some(id))
    ensures CanFindDuplicate(s, h, Some(id))
    ensures Over(start, DoFoundDuplicate(s, h, id, saved), h, hd.row, steps + [FoundDuplicate(h, id, saved)])
    ensures DoFoundDuplicate(s, h, id, saved).files == start.files
    ensures saved ==>
      DoFoundDuplicate(s, h, id, saved).rows[hd.row]
        == hd.seen.(status := Duplicate, completedCall := Some(id), lease := None)
  {
    Then(start, steps, s, FoundDuplicate(h, id, saved));
    hide Ran, IsDuplicateAnswer;
    assert (start.files[Tmp(h) := hd.stage.audio] - {Tmp(h)}) == start.files;
  }

  lemma EndsAbandoned(start: State, s: State, h: HandlerId, hd: Handler, steps: seq<Step>, saved: bool, removed: bool)
    requires Standing(start, s, h, hd, steps) && !hd.stage.Looked?
    ensures CanAbort(s, h)
    ensures var s' := DoAbort(s, h, saved, removed);
      && Over(start, s', h, hd.row, steps + [Abort(h, saved, removed)])
      && (saved ==> s'.rows[hd.row].status.Pending?) && (removed ==> NoNewFiles(start, s'))
  {
    Then(start, steps, s, Abort(h, saved, removed));
    IngestionFrames.AbortFilesOnly(Returned(s, h, saved), h, removed);
    AbandonedFiles(start, Returned(s, h, saved), h, hd, removed);
    hide Ran, AbortFiles, FilesAt;
  }

  lemma AbandonedFiles(start: State, s: State, h: HandlerId, hd: Handler, removed: bool)
    requires IsOwn(start, h, hd) && h in s.handlers && s.handlers[h] == hd && s.files == FilesAt(start.files, h, hd)
    requires !hd.stage.Looked?
    ensures Tmp(h) !in AbortFiles(s, h, removed).files
    ensures removed ==> AbortFiles(s, h, removed).files.Keys <= start.files.Keys
  {
    Fresh(start, h, hd);
    hide IsOwn;
    match hd.stage
    case Renamed(audio, _) => assert s.files == start.files[FinalPath(hd) := audio];
    case Shelved(audio) => assert s.files == start.files[ShelfPath(hd) := audio];
    case Claimed => assert s.files == start.files;
    case _ =>
    hide FilesAt;
  }

  /** The row of the token becomes the call, and the audio received is the call's file. */
  predicate Becomes(s: State, s': State, r: RowId, audio: seq<int>, callId: CallId) {
    && r in s.rows
    && var row := s.rows[r];
    var path := Final(Day(row.meta.start), callId, row.format);
    && s'.calls == s.calls[callId := CallRow(row.sender, row.meta, path, |audio|, Sha(audio))]
    && s'.files == s.files[path := audio]
    && s'.rows == s.rows[r := row.(status := Completed, completedCall := Some(callId), lease := None)]
  }

  lemma EndsStored(start: State, s: State, h: HandlerId, hd: Handler, steps: seq<Step>)
    requires Standing(start, s, h, hd, steps) && hd.stage.Renamed?
    requires !SourceTaken(s, hd.seen.sender, hd.seen.meta.sourceId)
    ensures CanCommit(s, h) && Ran(start, steps + [Commit(h)], DoCommit(s, h))
    ensures DoCommit(s, h).handlers == start.handlers && DoCommit(s, h).now == start.now
    ensures Becomes(start, DoCommit(s, h), hd.row, hd.stage.audio, hd.stage.callId)
  {
    Then(start, steps, s, Commit(h));
    hide Ran, SourceTaken;
  }

  /* ---- When a request gets where ---- */

  /** The claim succeeds: the token is live and its row free, and nothing refuses the request. */
  predicate Claims(s: State, r: RowId, a: Attempt)
    requires r in s.rows
  {
    && !a.oversized && a.admitted && a.claims
    && !Terminal(s.rows[r].status) && s.now <= s.rows[r].expires && Claimable(s.rows[r], s.now)
  }

  predicate Arrives(s: State, a: Attempt) { a.body.Some? && 0 < |a.body.value| <= s.cfg.maxAudio }

  ghost predicate HasNear(s: State, row: Row) { exists id | id in s.calls :: Matches(s, row.sender, row.meta, id) }

  /** Valid audio arrives, there is no near call and no call of its source id, and every operation works. */
  ghost predicate StoresAudio(s: State, r: RowId, a: Attempt)
    requires r in s.rows
  {
    && Arrives(s, a) && a.decodes && a.searches && !HasNear(s, s.rows[r])
    && a.renames && a.syncs && a.commits && !SourceTaken(s, s.rows[r].sender, s.rows[r].meta.sourceId)
  }

  /** Audio arrives from a legacy sender, does not decode, and has failed often and long enough with this failure. */
  predicate ShelvesAudio(s: State, r: RowId, a: Attempt)
    requires r in s.rows
  {
    && Arrives(s, a) && !a.decodes && a.tracks && a.legacy && a.shelves && a.syncs && a.commits
    && var counted := CountFailure(s.rows[r], Sha(a.body.value), s.now);
    ShouldQuarantine(s.cfg, counted.failCount, counted.failFirst.value, s.now)
  }

  predicate IsNear(s: State, r: RowId, id: CallId) { r in s.rows && Matches(s, s.rows[r].sender, s.rows[r].meta, id) }

  predicate HasToken(s: State, token: Token, r: RowId) { r in s.rows && s.rows[r].token == token }

  ghost predicate Storable(s: State, r: RowId, a: Attempt)
    requires r in s.rows
  {
    Claims(s, r, a) && StoresAudio(s, r, a)
  }

  predicate Shelvable(s: State, r: RowId, a: Attempt)
    requires r in s.rows
  {
    Claims(s, r, a) && ShelvesAudio(s, r, a)
  }
}
