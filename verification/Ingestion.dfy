/** The server's upload protocol as interleaved statements: each step is one SQL statement, one file effect or
    one transaction of `createUpload`, `receiveAudio` or `cleanupOperationalState`. */
module Ingestion {
  import opened Basics

  type RowId = nat
  type Token = nat
  type CallId = nat
  type HandlerId = nat

  datatype Config = Config(startTolerance: int, durationTolerance: int, pendingTtl: int, maxAudio: nat,
                           quarantineFailures: int, quarantineGrace: int)

  const LEASE := 600_000

  /** What the server's environment can set: positive numbers, times in whole seconds, at most 2 GiB of audio. */
  predicate Loadable(cfg: Config) {
    && cfg.startTolerance > 0 && cfg.durationTolerance > 0 && 1024 <= cfg.maxAudio <= 0x8000_0000
    && cfg.quarantineFailures > 0
    && cfg.pendingTtl > 0 && cfg.pendingTtl % 1000 == 0 && cfg.quarantineGrace > 0 && cfg.quarantineGrace % 1000 == 0
  }

  /** What it sets by default. */
  const DEFAULTS := Config(2000, 300, 900_000, 104_857_600, 10, 30_000)

  /** SHA-256 is taken as injective, so a digest is its content. */
  datatype Digest = Sha(content: seq<int>)

  datatype Status = Pending | Uploading | Completed | Duplicate | Expired | Failed | Quarantined

  predicate Terminal(status: Status) { status.Completed? || status.Duplicate? || status.Quarantined? }

  /** A row of `pending_uploads`. */
  datatype Row = Row(
    sender: string, key: string, token: Token, meta: CallMeta, format: string, expires: int,
    status: Status, lease: Option<int>, completedCall: Option<CallId>,
    failCount: nat, failFirst: Option<int>, rejected: Option<Digest>)

  /** A row of `calls`. */
  datatype CallRow = CallRow(sender: string, meta: CallMeta, path: Path, size: nat, digest: Digest)

  datatype Path =
    | Tmp(handler: HandlerId)
    | Final(day: int, callId: CallId, format: string)
    | Shelf(day: int, row: RowId, format: string)

  function Day(start: int): int { start / 86_400_000 }

  /** How far a `receiveAudio` handler has come. From `Claimed` on it owns its row. */
  datatype Stage =
    | Looked
    | Claimed
    | Received(audio: seq<int>)
    | Failing(audio: seq<int>, count: nat, first: int)
    | Shelved(audio: seq<int>)
    | Valid(audio: seq<int>)
    | Checked(audio: seq<int>)
    | Renamed(audio: seq<int>, callId: CallId)

  /** `seen` is the row as the handler's lookup found it. */
  datatype Handler = Handler(token: Token, row: RowId, seen: Row, legacy: bool, stage: Stage)

  datatype Reply =
    | CreatedDuplicate(request: UploadRequest, callId: CallId)
    | CreatedDone(request: UploadRequest, status: Status)
    | CreatedToken(request: UploadRequest, token: Token)
    | CreatedBusy(request: UploadRequest)
    | AudioDone(token: Token, status: Status)
    | AudioDuplicate(token: Token, callId: CallId)
    | AudioStored(token: Token, callId: CallId)
    | AudioQuarantined(token: Token)

  datatype CommitRecord = CommitRecord(callId: CallId, row: RowId, sender: string, key: string, meta: CallMeta)

  datatype FailureRecord = FailureRecord(digest: Digest, at: int)

  /** What has happened, kept only to state properties; no step reads it except for freshness of random ids. */
  datatype History = History(
    issued: map<Token, RowId>, submitted: map<RowId, set<CallMeta>>, committed: seq<CommitRecord>,
    failures: map<RowId, seq<FailureRecord>>, quarantined: set<RowId>, callIds: set<CallId>, orphans: set<Path>,
    replies: set<Reply>)

  datatype State = State(
    cfg: Config, now: int, rows: map<RowId, Row>, calls: map<CallId, CallRow>, files: map<Path, seq<int>>,
    creating: map<nat, UploadRequest>, handlers: map<HandlerId, Handler>, history: History)

  function Start(cfg: Config, now: int): State {
    State(cfg, now, map[], map[], map[], map[], map[], History(map[], map[], [], map[], {}, {}, {}, {}))
  }

  /* ---- findDuplicate ---- */

  function Distance(a: int, b: int): int { if a < b then b - a else a - b }

  predicate SameChannel(a: CallMeta, b: CallMeta) {
    && a.system == b.system && a.talkgroup == b.talkgroup && a.radio == b.radio && a.site == b.site
    && a.voice == b.voice && a.callType == b.callType
  }

  predicate Near(cfg: Config, a: CallMeta, b: CallMeta) {
    && SameChannel(a, b)
    && Distance(a.start, b.start) <= cfg.startTolerance
    && Distance(a.duration, b.duration) <= cfg.durationTolerance
  }

  predicate Matches(s: State, sender: string, meta: CallMeta, id: CallId) {
    id in s.calls && s.calls[id].sender == sender && Near(s.cfg, s.calls[id].meta, meta)
  }

  /** The query's answer: a latest match, or nothing when there is none. */
  predicate IsDuplicateAnswer(s: State, sender: string, meta: CallMeta, answer: Option<CallId>) {
    match answer
    case None => forall id | id in s.calls :: !Matches(s, sender, meta, id)
    case Some(id) =>
      && Matches(s, sender, meta, id)
      && forall other | other in s.calls && Matches(s, sender, meta, other) ::
           s.calls[other].meta.start <= s.calls[id].meta.start
  }

  /** A match is a call of the sender that agrees in six fields and is within each tolerance of the metadata. */
  lemma MatchesExactly(s: State, sender: string, meta: CallMeta, id: CallId)
    ensures Matches(s, sender, meta, id) <==>
      && id in s.calls
      && var c := s.calls[id];
      && c.sender == sender && c.meta.system == meta.system && c.meta.talkgroup == meta.talkgroup
      && c.meta.radio == meta.radio && c.meta.site == meta.site && c.meta.voice == meta.voice
      && c.meta.callType == meta.callType
      && meta.start - s.cfg.startTolerance <= c.meta.start <= meta.start + s.cfg.startTolerance
      && meta.duration - s.cfg.durationTolerance <= c.meta.duration <= meta.duration + s.cfg.durationTolerance
  {
  }

  predicate ShouldQuarantine(cfg: Config, count: nat, first: int, now: int) {
    count >= cfg.quarantineFailures && now - first >= cfg.quarantineGrace
  }

  /* ---- Steps ---- */

  datatype Step =
    | Tick(to: int)
    | CreateLookup(id: nat, request: UploadRequest, answer: Option<CallId>)
    | CreateUpsert(create: nat, found: Option<RowId>, token: Token, newRow: RowId)
    | CleanupExpire
    | CleanupRecover
    | Lookup(h: HandlerId, bearer: Token, legacy: bool)
    | AnswerDone(h: HandlerId)
    | AnswerExpired(h: HandlerId)
    | Leave(h: HandlerId)
    | Claim(h: HandlerId)
    | Receive(h: HandlerId, audio: seq<int>)
    | RecordFailure(h: HandlerId)
    | Requeue(h: HandlerId, saved: bool)
    | Shelve(h: HandlerId)
    | Quarantine(h: HandlerId)
    | Accept(h: HandlerId)
    | FoundDuplicate(h: HandlerId, callId: CallId, saved: bool)
    | NoDuplicate(h: HandlerId)
    | Rename(h: HandlerId, callId: CallId)
    | Commit(h: HandlerId)
    | Abort(h: HandlerId, saved: bool, removed: bool)
    | Crash

  predicate At(s: State, h: HandlerId) { h in s.handlers && s.handlers[h].row in s.rows }

  function RowOf(s: State, h: HandlerId): Row
    requires At(s, h)
  {
    s.rows[s.handlers[h].row]
  }

  predicate Owns(s: State, h: HandlerId) { h in s.handlers && !s.handlers[h].stage.Looked? }

  predicate Owned(s: State, r: RowId) { exists h | h in s.handlers :: Owns(s, h) && s.handlers[h].row == r }

  function FinalPath(h: Handler): Path
    requires h.stage.Renamed?
  {
    Final(Day(h.seen.meta.start), h.stage.callId, h.seen.format)
  }

  function ShelfPath(h: Handler): Path { Shelf(Day(h.seen.meta.start), h.row, h.seen.format) }

  /** The row of a sender's idempotency key; the empty key is never looked up. */
  predicate IsKeyRow(s: State, sender: string, key: string, r: RowId) {
    key != "" && r in s.rows && s.rows[r].sender == sender && s.rows[r].key == key
  }

  /** The answer of the idempotency query. */
  predicate IsKeyAnswer(s: State, sender: string, key: string, found: Option<RowId>) {
    match found
    case None => forall r | r in s.rows :: !IsKeyRow(s, sender, key, r)
    case Some(r) => IsKeyRow(s, sender, key, r)
  }

  predicate SourceTaken(s: State, sender: string, sourceId: string) {
    sourceId != "" && exists id | id in s.calls :: s.calls[id].sender == sender && s.calls[id].meta.sourceId == sourceId
  }

  /* ---- Effects ---- */

  function SetRow(s: State, r: RowId, row: Row): State { s.(rows := s.rows[r := row]) }

  function Drop(s: State, h: HandlerId): State { s.(handlers := s.handlers - {h}) }

  function Discard(s: State, path: Path): State { s.(files := s.files - {path}) }

  function Move(s: State, from: Path, to: Path): State
    requires from in s.files
  {
    s.(files := (s.files - {from})[to := s.files[from]])
  }

  function ToStage(s: State, h: HandlerId, stage: Stage): State
    requires h in s.handlers
  {
    s.(handlers := s.handlers[h := s.handlers[h].(stage := stage)])
  }

  function Say(s: State, reply: Reply): State { s.(history := s.history.(replies := s.history.replies + {reply})) }

  /** `status='pending'` with the lease cleared, guarded by `status='uploading'`. */
  function GiveBack(row: Row): Row {
    if row.status.Uploading? then row.(status := Pending, lease := None) else row
  }

  function Submit(s: State, r: RowId, token: Token, meta: CallMeta): State {
    var earlier := if r in s.history.submitted then s.history.submitted[r] else {};
    s.(history := s.history.(issued := s.history.issued[token := r],
                             submitted := s.history.submitted[r := earlier + {meta}]))
  }

  /* ---- createUpload ---- */

  predicate CanCreateLookup(s: State, id: nat, request: UploadRequest, answer: Option<CallId>) {
    id !in s.creating && IsDuplicateAnswer(s, request.sender, request.call, answer)
  }

  function DoCreateLookup(s: State, id: nat, request: UploadRequest, answer: Option<CallId>): State {
    match answer
    case Some(callId) => Say(s, CreatedDuplicate(request, callId))
    case None => s.(creating := s.creating[id := request])
  }

  predicate CanUpsert(s: State, create: nat, found: Option<RowId>, token: Token, newRow: RowId) {
    && create in s.creating && token !in s.history.issued && newRow !in s.rows
    && IsKeyAnswer(s, s.creating[create].sender, s.creating[create].key, found)
  }

  /** An upload of this row is under way and its lease has not run out. */
  predicate Busy(s: State, row: Row) {
    row.status.Uploading? && row.lease.Some? && row.lease.value > s.now
  }

  predicate Renewable(s: State, row: Row) { !Terminal(row.status) && !Busy(s, row) }

  function Renewed(s: State, row: Row, request: UploadRequest, token: Token): Row {
    row.(token := token, meta := request.call, format := request.format, expires := s.now + s.cfg.pendingTtl,
         status := Pending, lease := None)
  }

  function Inserted(s: State, request: UploadRequest, token: Token): Row {
    Row(request.sender, request.key, token, request.call, request.format, s.now + s.cfg.pendingTtl,
        Pending, None, None, 0, None, None)
  }

  /** The idempotency read and the update or insert, as one step. */
  function DoUpsert(s: State, create: nat, found: Option<RowId>, token: Token, newRow: RowId): State
    requires CanUpsert(s, create, found, token, newRow)
  {
    var request := s.creating[create];
    var s1 := s.(creating := s.creating - {create});
    if found.Some? && !Renewable(s, s.rows[found.value]) then
      var status := s.rows[found.value].status;
      Say(s1, if Terminal(status) then CreatedDone(request, status) else CreatedBusy(request))
    else
      var r := if found.Some? then found.value else newRow;
      var row := if found.Some? then Renewed(s, s.rows[r], request, token) else Inserted(s, request, token);
      Say(Submit(SetRow(s1, r, row), r, token, request.call), CreatedToken(request, token))
  }

  /* ---- cleanupOperationalState ---- */

  function ExpireRow(row: Row, now: int): Row {
    if (row.status.Pending? || row.status.Failed?) && row.expires < now then row.(status := Expired, lease := None)
    else row
  }

  function DoCleanupExpire(s: State): State { s.(rows := map r | r in s.rows :: ExpireRow(s.rows[r], s.now)) }

  function RecoverRow(row: Row, now: int): Row {
    if row.status.Uploading? && row.lease.Some? && row.lease.value < now && row.expires >= now
    then row.(status := Pending, lease := None)
    else row
  }

  function DoCleanupRecover(s: State): State { s.(rows := map r | r in s.rows :: RecoverRow(s.rows[r], s.now)) }

  /* ---- receiveAudio: lookup, answers and claim ---- */

  predicate CanLookup(s: State, h: HandlerId, bearer: Token) {
    && h !in s.handlers && Tmp(h) !in s.files
    && bearer in s.history.issued && s.history.issued[bearer] in s.rows
    && s.rows[s.history.issued[bearer]].token == bearer
  }

  function DoLookup(s: State, h: HandlerId, bearer: Token, legacy: bool): State
    requires CanLookup(s, h, bearer)
  {
    var r := s.history.issued[bearer];
    s.(handlers := s.handlers[h := Handler(bearer, r, s.rows[r], legacy, Looked)])
  }

  predicate HasLooked(s: State, h: HandlerId) { At(s, h) && s.handlers[h].stage.Looked? }

  predicate CanAnswerDone(s: State, h: HandlerId) { HasLooked(s, h) && Terminal(s.handlers[h].seen.status) }

  function DoAnswerDone(s: State, h: HandlerId): State
    requires CanAnswerDone(s, h)
  {
    Drop(Say(s, AudioDone(s.handlers[h].token, s.handlers[h].seen.status)), h)
  }

  predicate CanAnswerExpired(s: State, h: HandlerId) {
    HasLooked(s, h) && !Terminal(s.handlers[h].seen.status) && s.now > s.handlers[h].seen.expires
  }

  /** The update spares completed and duplicate rows, but not quarantined ones. */
  function DoAnswerExpired(s: State, h: HandlerId): State
    requires CanAnswerExpired(s, h)
  {
    var row := RowOf(s, h);
    var expired := if row.status.Completed? || row.status.Duplicate? then row
      else row.(status := Expired, lease := None);
    Drop(SetRow(s, s.handlers[h].row, expired), h)
  }

  /** Refused for its credentials or content type, or because the claim matched no row. */
  function DoLeave(s: State, h: HandlerId): State
    requires HasLooked(s, h)
  {
    Drop(s, h)
  }

  predicate Claimable(row: Row, now: int) {
    row.status.Pending? || row.status.Failed? || (row.status.Uploading? && row.lease.Some? && row.lease.value < now)
  }

  predicate CanClaim(s: State, h: HandlerId) {
    && HasLooked(s, h) && !Terminal(s.handlers[h].seen.status) && s.now <= s.handlers[h].seen.expires
    && Claimable(RowOf(s, h), s.now)
  }

  function DoClaim(s: State, h: HandlerId): State
    requires CanClaim(s, h)
  {
    var row := RowOf(s, h).(status := Uploading, lease := Some(s.now + LEASE));
    ToStage(SetRow(s, s.handlers[h].row, row), h, Claimed)
  }

  /* ---- receiveAudio: the body and its validation ---- */

  predicate CanReceive(s: State, h: HandlerId, audio: seq<int>) {
    At(s, h) && s.handlers[h].stage.Claimed? && 0 < |audio| <= s.cfg.maxAudio
  }

  function DoReceive(s: State, h: HandlerId, audio: seq<int>): State
    requires CanReceive(s, h, audio)
  {
    ToStage(s.(files := s.files[Tmp(h) := audio]), h, Received(audio))
  }

  predicate HasReceived(s: State, h: HandlerId) { At(s, h) && s.handlers[h].stage.Received? }

  function DoAccept(s: State, h: HandlerId): State
    requires HasReceived(s, h)
  {
    ToStage(s, h, Valid(s.handlers[h].stage.audio))
  }

  function CountFailure(row: Row, digest: Digest, now: int): Row {
    var again := row.rejected == Some(digest);
    row.(failCount := if again then row.failCount + 1 else 1,
         failFirst := if again && row.failFirst.Some? then row.failFirst else Some(now),
         rejected := Some(digest))
  }

  function NoteFailure(s: State, r: RowId, digest: Digest): State {
    var earlier := if r in s.history.failures then s.history.failures[r] else [];
    s.(history := s.history.(failures := s.history.failures[r := earlier + [FailureRecord(digest, s.now)]]))
  }

  predicate CanRecordFailure(s: State, h: HandlerId) { HasReceived(s, h) && RowOf(s, h).status.Uploading? }

  function DoRecordFailure(s: State, h: HandlerId): State
    requires CanRecordFailure(s, h)
  {
    var r, audio := s.handlers[h].row, s.handlers[h].stage.audio;
    var row := CountFailure(s.rows[r], Sha(audio), s.now);
    ToStage(NoteFailure(SetRow(s, r, row), r, Sha(audio)), h, Failing(audio, row.failCount, row.failFirst.value))
  }

  predicate QuarantineDue(s: State, h: HandlerId) {
    && At(s, h) && s.handlers[h].stage.Failing? && s.handlers[h].legacy
    && ShouldQuarantine(s.cfg, s.handlers[h].stage.count, s.handlers[h].stage.first, s.now)
  }

  predicate CanRequeue(s: State, h: HandlerId) { At(s, h) && s.handlers[h].stage.Failing? && !QuarantineDue(s, h) }

  function Returned(s: State, h: HandlerId, saved: bool): State
    requires At(s, h)
  {
    if saved then SetRow(s, s.handlers[h].row, GiveBack(RowOf(s, h))) else s
  }

  function DoRequeue(s: State, h: HandlerId, saved: bool): State
    requires CanRequeue(s, h)
  {
    Drop(Discard(Returned(s, h, saved), Tmp(h)), h)
  }

  predicate CanShelve(s: State, h: HandlerId) { QuarantineDue(s, h) && Tmp(h) in s.files }

  function DoShelve(s: State, h: HandlerId): State
    requires CanShelve(s, h)
  {
    ToStage(Move(s, Tmp(h), ShelfPath(s.handlers[h])), h, Shelved(s.handlers[h].stage.audio))
  }

  predicate CanQuarantine(s: State, h: HandlerId) {
    At(s, h) && s.handlers[h].stage.Shelved? && RowOf(s, h).status.Uploading?
  }

  function DoQuarantine(s: State, h: HandlerId): State
    requires CanQuarantine(s, h)
  {
    var r := s.handlers[h].row;
    var s1 := SetRow(s, r, s.rows[r].(status := Quarantined, lease := None));
    var s2 := s1.(history := s1.history.(quarantined := s1.history.quarantined + {r}));
    Drop(Say(s2, AudioQuarantined(s.handlers[h].token)), h)
  }

  /* ---- receiveAudio: duplicates, the final file and the commit ---- */

  predicate CanFindDuplicate(s: State, h: HandlerId, answer: Option<CallId>) {
    && At(s, h) && s.handlers[h].stage.Valid?
    && IsDuplicateAnswer(s, s.handlers[h].seen.sender, s.handlers[h].seen.meta, answer)
  }

  /** `saved`: the update's own error is ignored. */
  function DoFoundDuplicate(s: State, h: HandlerId, callId: CallId, saved: bool): State
    requires CanFindDuplicate(s, h, Some(callId))
  {
    var row := RowOf(s, h).(status := Duplicate, completedCall := Some(callId), lease := None);
    var s1 := if saved then SetRow(s, s.handlers[h].row, row) else s;
    Drop(Say(Discard(s1, Tmp(h)), AudioDuplicate(s.handlers[h].token, callId)), h)
  }

  function DoNoDuplicate(s: State, h: HandlerId): State
    requires CanFindDuplicate(s, h, None)
  {
    ToStage(s, h, Checked(s.handlers[h].stage.audio))
  }

  predicate CanRename(s: State, h: HandlerId, callId: CallId) {
    At(s, h) && s.handlers[h].stage.Checked? && callId !in s.history.callIds && Tmp(h) in s.files
  }

  function DoRename(s: State, h: HandlerId, callId: CallId): State
    requires CanRename(s, h, callId)
  {
    var renamed := s.handlers[h].(stage := Renamed(s.handlers[h].stage.audio, callId));
    var s1 := ToStage(Move(s, Tmp(h), FinalPath(renamed)), h, renamed.stage);
    s1.(history := s1.history.(callIds := s1.history.callIds + {callId}))
  }

  /** The transaction succeeds unless the sender's source id is taken; any other failure is an abort. */
  predicate CanCommit(s: State, h: HandlerId) {
    && At(s, h) && s.handlers[h].stage.Renamed?
    && !SourceTaken(s, s.handlers[h].seen.sender, s.handlers[h].seen.meta.sourceId)
  }

  function NewCall(handler: Handler): CallRow
    requires handler.stage.Renamed?
  {
    CallRow(handler.seen.sender, handler.seen.meta, FinalPath(handler), |handler.stage.audio|, Sha(handler.stage.audio))
  }

  function NewCommit(handler: Handler): CommitRecord
    requires handler.stage.Renamed?
  {
    CommitRecord(handler.stage.callId, handler.row, handler.seen.sender, handler.seen.key, handler.seen.meta)
  }

  function DoCommit(s: State, h: HandlerId): State
    requires CanCommit(s, h)
  {
    var handler := s.handlers[h];
    var row := RowOf(s, h).(status := Completed, completedCall := Some(handler.stage.callId), lease := None);
    var s1 := s.(calls := s.calls[handler.stage.callId := NewCall(handler)],
                 history := s.history.(committed := s.history.committed + [NewCommit(handler)]));
    Drop(Say(SetRow(s1, handler.row, row), AudioStored(handler.token, handler.stage.callId)), h)
  }

  /* ---- receiveAudio: the deferred clean-up ---- */

  predicate CanAbort(s: State, h: HandlerId) { At(s, h) && Owns(s, h) }

  /** `removed`: whether removing the final or shelved file worked. */
  function AbortFiles(s: State, h: HandlerId, removed: bool): State
    requires h in s.handlers
  {
    var handler := s.handlers[h];
    match handler.stage
    case Renamed(_, _) =>
      if removed then Discard(s, FinalPath(handler))
      else s.(history := s.history.(orphans := s.history.orphans + {FinalPath(handler)}))
    case Shelved(_) => if removed then Discard(s, ShelfPath(handler)) else s
    case _ => Discard(s, Tmp(h))
  }

  function DoAbort(s: State, h: HandlerId, saved: bool, removed: bool): State
    requires CanAbort(s, h)
  {
    Drop(AbortFiles(Returned(s, h, saved), h, removed), h)
  }

  function RenamedPaths(s: State): set<Path> {
    set h | h in s.handlers && s.handlers[h].stage.Renamed? :: FinalPath(s.handlers[h])
  }

  /** The server dies: no deferred clean-up runs. */
  function DoCrash(s: State): State {
    s.(creating := map[], handlers := map[],
       history := s.history.(orphans := s.history.orphans + RenamedPaths(s)))
  }

  /* ---- The machine ---- */

  /** What the code checks before the step, and the freshness of the random ids the step draws. */
  predicate Enabled(s: State, step: Step) {
    match step
    case Tick(to) => s.now <= to
    case CreateLookup(id, request, answer) => CanCreateLookup(s, id, request, answer)
    case CreateUpsert(create, found, token, newRow) => CanUpsert(s, create, found, token, newRow)
    case CleanupExpire => true
    case CleanupRecover => true
    case Lookup(h, bearer, _) => CanLookup(s, h, bearer)
    case AnswerDone(h) => CanAnswerDone(s, h)
    case AnswerExpired(h) => CanAnswerExpired(s, h)
    case Leave(h) => HasLooked(s, h)
    case Claim(h) => CanClaim(s, h)
    case Receive(h, audio) => CanReceive(s, h, audio)
    case RecordFailure(h) => CanRecordFailure(s, h)
    case Requeue(h, _) => CanRequeue(s, h)
    case Shelve(h) => CanShelve(s, h)
    case Quarantine(h) => CanQuarantine(s, h)
    case Accept(h) => HasReceived(s, h)
    case FoundDuplicate(h, callId, _) => CanFindDuplicate(s, h, Some(callId))
    case NoDuplicate(h) => CanFindDuplicate(s, h, None)
    case Rename(h, callId) => CanRename(s, h, callId)
    case Commit(h) => CanCommit(s, h)
    case Abort(h, _, _) => CanAbort(s, h)
    case Crash => true
  }

  function Next(s: State, step: Step): State
    requires Enabled(s, step)
  {
    match step
    case Tick(to) => s.(now := to)
    case CreateLookup(id, request, answer) => DoCreateLookup(s, id, request, answer)
    case CreateUpsert(create, found, token, newRow) => DoUpsert(s, create, found, token, newRow)
    case CleanupExpire => DoCleanupExpire(s)
    case CleanupRecover => DoCleanupRecover(s)
    case Lookup(h, bearer, legacy) => DoLookup(s, h, bearer, legacy)
    case AnswerDone(h) => DoAnswerDone(s, h)
    case AnswerExpired(h) => DoAnswerExpired(s, h)
    case Leave(h) => DoLeave(s, h)
    case Claim(h) => DoClaim(s, h)
    case Receive(h, audio) => DoReceive(s, h, audio)
    case RecordFailure(h) => DoRecordFailure(s, h)
    case Requeue(h, saved) => DoRequeue(s, h, saved)
    case Shelve(h) => DoShelve(s, h)
    case Quarantine(h) => DoQuarantine(s, h)
    case Accept(h) => DoAccept(s, h)
    case FoundDuplicate(h, callId, saved) => DoFoundDuplicate(s, h, callId, saved)
    case NoDuplicate(h) => DoNoDuplicate(s, h)
    case Rename(h, callId) => DoRename(s, h, callId)
    case Commit(h) => DoCommit(s, h)
    case Abort(h, saved, removed) => DoAbort(s, h, saved, removed)
    case Crash => DoCrash(s)
  }

  /* ---- Assumptions on timing, which the code does not enforce ---- */

  /** An owner finishes before its lease runs out. */
  predicate LeasesHold(s: State, to: int) {
    forall h | h in s.handlers && Owns(s, h) && At(s, h) :: RowOf(s, h).lease.Some? ==> to < RowOf(s, h).lease.value
  }

  /** The expiry answer of a request, looked up and then written in two statements, does not hit a row that
      is owned or quarantined by then. */
  predicate Unclaimed(s: State, h: HandlerId) {
    At(s, h) && !Owned(s, s.handlers[h].row) && !RowOf(s, h).status.Quarantined?
  }

  predicate Timely(s: State, step: Step) {
    match step
    case Tick(to) => LeasesHold(s, to)
    case AnswerExpired(h) => Unclaimed(s, h)
    case _ => true
  }

  /** Any interleaving of the code's steps. */
  predicate Possible(s: State, steps: seq<Step>)
    decreases |steps|
  {
    steps == [] || (Enabled(s, steps[0]) && Possible(Next(s, steps[0]), steps[1..]))
  }

  function Run(s: State, steps: seq<Step>): State
    requires Possible(s, steps)
    decreases |steps|
  {
    if steps == [] then s else Run(Next(s, steps[0]), steps[1..])
  }

  /** One more step at the end. */
  lemma {:induction false} Extend(s: State, steps: seq<Step>, step: Step)
    requires Possible(s, steps) && Enabled(Run(s, steps), step)
    ensures Possible(s, steps + [step]) && Run(s, steps + [step]) == Next(Run(s, steps), step)
    decreases |steps|
  {
    if steps == [] {
      assert [step][1..] == [];
    } else {
      assert (steps + [step])[1..] == steps[1..] + [step];
      Extend(Next(s, steps[0]), steps[1..], step);
    }
  }

  predicate Reached(start: State, s: State, steps: seq<Step>) { Possible(start, steps) && Run(start, steps) == s }

  lemma Go(start: State, s: State, steps: seq<Step>, step: Step)
    requires Reached(start, s, steps) && Enabled(s, step)
    ensures Reached(start, Next(s, step), steps + [step])
  {
    hide Enabled, Next;
    Extend(start, steps, step);
  }

  /** The interleaving meets the timing assumptions throughout. */
  predicate InTime(s: State, steps: seq<Step>)
    requires Possible(s, steps)
    decreases |steps|
  {
    steps == [] || (Timely(s, steps[0]) && InTime(Next(s, steps[0]), steps[1..]))
  }

  lemma {:induction false} ExtendInTime(s: State, steps: seq<Step>, step: Step)
    requires Possible(s, steps) && InTime(s, steps)
    requires Enabled(Run(s, steps), step) && Timely(Run(s, steps), step)
    ensures Possible(s, steps + [step]) && InTime(s, steps + [step])
    decreases |steps|
  {
    hide Enabled, Next, Timely;
    Extend(s, steps, step);
    if steps == [] {
      assert [step][1..] == [];
    } else {
      assert (steps + [step])[1..] == steps[1..] + [step];
      ExtendInTime(Next(s, steps[0]), steps[1..], step);
    }
  }

  predicate ReachedInTime(start: State, s: State, steps: seq<Step>) { Reached(start, s, steps) && InTime(start, steps) }

  lemma GoInTime(start: State, s: State, steps: seq<Step>, step: Step)
    requires ReachedInTime(start, s, steps) && Enabled(s, step) && Timely(s, step)
    ensures ReachedInTime(start, Next(s, step), steps + [step])
  {
    hide Enabled, Next, Timely;
    Extend(start, steps, step);
    ExtendInTime(start, steps, step);
  }
}
