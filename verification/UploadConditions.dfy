/** When the server stores, sets aside or answers what, in terms of the columns of its tables. */
module UploadConditions {
  import opened Basics
  import opened Ingestion
  import opened UploadStages
  import Server = UploadServerObject

  /** A call is stored for a row that waits, has failed or lapsed, before its expiry, when the request is admitted,
      audio of a good size arrives and decodes, every operation works, no call of the sender on the channel is within
      both tolerances, and none has the source id. */
  lemma StorableExactly(s: State, token: Token, r: RowId, a: Attempt)
    ensures HasToken(s, token, r) && Storable(s, r, a) <==>
      && r in s.rows && s.rows[r].token == token
      && var row := s.rows[r];
      && !a.oversized && a.admitted && a.claims && a.decodes && a.searches && a.renames && a.syncs && a.commits
      && a.body.Some? && 1 <= |a.body.value| <= s.cfg.maxAudio
      && (row.status == Pending || row.status == Failed
          || (row.status == Uploading && row.lease.Some? && row.lease.value < s.now))
      && s.now <= row.expires
      && (forall id | id in s.calls && s.calls[id].sender == row.sender ::
            var c := s.calls[id].meta;
            || c.system != row.meta.system || c.talkgroup != row.meta.talkgroup || c.radio != row.meta.radio
            || c.site != row.meta.site || c.voice != row.meta.voice || c.callType != row.meta.callType
            || c.start < row.meta.start - s.cfg.startTolerance || c.start > row.meta.start + s.cfg.startTolerance
            || c.duration < row.meta.duration - s.cfg.durationTolerance
            || c.duration > row.meta.duration + s.cfg.durationTolerance)
      && (row.meta.sourceId == "" || forall id | id in s.calls && s.calls[id].sender == row.sender ::
            s.calls[id].meta.sourceId != row.meta.sourceId)
  {
    if r in s.rows {
      forall id { MatchesExactly(s, s.rows[r].sender, s.rows[r].meta, id); }
    }
    hide Near;
  }

  /** Audio is set aside for such a row when a legacy request sends it, it does not decode, and this failure makes
      enough of one audio, the first of them long enough ago. */
  lemma ShelvableExactly(s: State, token: Token, r: RowId, a: Attempt)
    ensures HasToken(s, token, r) && Shelvable(s, r, a) <==>
      && r in s.rows && s.rows[r].token == token
      && var row := s.rows[r];
      && !a.oversized && a.admitted && a.claims && !a.decodes && a.tracks && a.legacy && a.shelves && a.syncs
      && a.commits
      && a.body.Some? && 1 <= |a.body.value| <= s.cfg.maxAudio
      && (row.status == Pending || row.status == Failed
          || (row.status == Uploading && row.lease.Some? && row.lease.value < s.now))
      && s.now <= row.expires
      && var again := row.rejected == Some(Sha(a.body.value));
      var count := if again then row.failCount + 1 else 1;
      var first := if again && row.failFirst.Some? then row.failFirst.value else s.now;
      count >= s.cfg.quarantineFailures && s.now - first >= s.cfg.quarantineGrace
  {
  }

  /** What an answer to the metadata says of the rows: a settled row of the key, a row of the key under a live claim, or
      a row that now waits, new when the key had none or none was given, for the time that tokens live. */
  lemma AnsweredExactly(s: State, s': State, request: UploadRequest, token: Token, reply: Server.CreateReply)
    requires Server.Answered(s, s', request, token, reply) && !reply.KnownCall?
    ensures match reply
      case KnownUpload(status) =>
        && status in [Completed, Duplicate, Quarantined] && s'.rows == s.rows && request.key != ""
        && exists r :: r in s.rows && s.rows[r].sender == request.sender && s.rows[r].key == request.key
             && s.rows[r].status == status
      case StillUploading =>
        && s'.rows == s.rows && request.key != ""
        && exists r :: r in s.rows && s.rows[r].sender == request.sender && s.rows[r].key == request.key
             && s.rows[r].status == Uploading && s.rows[r].lease.Some? && s.rows[r].lease.value > s.now
      case Token(given) =>
        && given == token
        && exists r :: r in s'.rows && s'.rows == s.rows[r := s'.rows[r]] && IsWaiting(s'.rows[r], s, request, token)
             && (if r in s.rows
                 then TakenOver(s, request, r) && Server.SameFailures(s.rows[r], s'.rows[r])
                 else IsNewKey(s, request) && s'.rows[r].failCount == 0 && s'.rows[r].rejected == None)
      case _ => true
  {
    match reply
    case KnownUpload(status) =>
      var r :| Server.KeyRowIs(s, request, r, status);
    case StillUploading =>
      var r :| Server.KeyRowIs(s, request, r, Uploading) && Busy(s, s.rows[r]);
    case Token(_) =>
      var r :| Server.Handed(s, s', request, token, r);
      assert IsWaiting(s'.rows[r], s, request, token);
      assert if r in s.rows then TakenOver(s, request, r) else IsNewKey(s, request);
    case _ =>
  }

  predicate IsWaiting(row: Row, s: State, request: UploadRequest, token: Token) {
    && row.token == token && row.status == Pending && row.expires == s.now + s.cfg.pendingTtl
    && row.sender == request.sender && row.key == request.key && row.meta == request.call
    && row.format == request.format && row.lease == None
  }

  predicate TakenOver(s: State, request: UploadRequest, r: RowId)
    requires r in s.rows
  {
    && request.key != "" && s.rows[r].sender == request.sender && s.rows[r].key == request.key
    && s.rows[r].status !in [Completed, Duplicate, Quarantined]
    && !(s.rows[r].status == Uploading && s.rows[r].lease.Some? && s.rows[r].lease.value > s.now)
  }

  predicate IsNewKey(s: State, request: UploadRequest) {
    request.key == "" || forall q | q in s.rows :: s.rows[q].sender != request.sender || s.rows[q].key != request.key
  }

  /** A stored call's file lies under the day, in UTC, on which the call started, with the call's id and the format that
      was declared; audio that is set aside lies under that day with the row's id. */
  lemma FilesByDay(h: Handler, day: int)
    requires day * 24 * 3600 * 1000 <= h.seen.meta.start < (day + 1) * 24 * 3600 * 1000
    ensures ShelfPath(h) == Shelf(day, h.row, h.seen.format)
    ensures h.stage.Renamed? ==> FinalPath(h) == Final(day, h.stage.callId, h.seen.format)
  {
    assert Day(h.seen.meta.start) == day;
  }

  /* ---- How long a claim and a token last ---- */

  /** A claim lasts ten minutes: through them no request can claim the row again; before their end the key's metadata is
      answered with a conflict, and from their end on with a new token. */
  lemma ClaimLastsTenMinutes(s: State, h: HandlerId, later: State)
    requires CanClaim(s, h)
    requires var r := s.handlers[h].row;
      r in later.rows && later.rows[r] == DoClaim(s, h).rows[r]
    ensures var r := s.handlers[h].row;
      && (later.now <= s.now + 600_000 ==>
            forall g | g in later.handlers && later.handlers[g].row == r :: !CanClaim(later, g))
      && (later.now > s.now + 600_000 ==>
            forall g | HasLooked(later, g) && later.handlers[g].row == r && later.handlers[g].seen == later.rows[r]
              && later.now <= later.rows[r].expires :: CanClaim(later, g))
      && (forall create, token, newRow | CanUpsert(later, create, Some(r), token, newRow) ::
            var answered := DoUpsert(later, create, Some(r), token, newRow);
            && (later.now < s.now + 600_000 ==>
                  CreatedBusy(later.creating[create]) in answered.history.replies && answered.rows == later.rows)
            && (later.now >= s.now + 600_000 ==>
                  CreatedToken(later.creating[create], token) in answered.history.replies))
  {
    hide IsKeyAnswer;
  }

  /** A token lasts as long as it is configured to: up to its last instant a request with it can claim the row that
      waits, and after it the request is answered as expired and the clean-up expires the row. */
  lemma TokenLastsItsTime(s: State, create: nat, found: Option<RowId>, token: Token, newRow: RowId, later: State,
        h: HandlerId, legacy: bool)
    requires CanUpsert(s, create, found, token, newRow)
    requires found.Some? ==> Renewable(s, s.rows[found.value])
    requires var r := if found.Some? then found.value else newRow;
      && r in later.rows && later.rows[r] == DoUpsert(s, create, found, token, newRow).rows[r]
      && CanLookup(later, h, token) && later.history.issued[token] == r
    ensures var looked := DoLookup(later, h, token, legacy);
      var r := if found.Some? then found.value else newRow;
      && (CanClaim(looked, h) <==> later.now <= s.now + s.cfg.pendingTtl)
      && (CanAnswerExpired(looked, h) <==> later.now > s.now + s.cfg.pendingTtl)
      && (DoCleanupExpire(later).rows[r].status == Expired <==> later.now > s.now + s.cfg.pendingTtl)
  {
    hide IsKeyAnswer;
  }
}
