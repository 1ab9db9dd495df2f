/** `createUpload`, `receiveAudio` and `cleanupOperationalState` as they run undisturbed, over the tables and the
    audio directory they update in place. What happens in between is the machine in `Ingestion`. */
module UploadServerObject {
  import opened Basics
  import opened Ingestion
  import opened UploadStages
  import IngestionFrames
  import IngestionOwnership

  datatype AudioReply =
    | NotFound | TooLarge | Done(status: Status) | TokenExpired | Refused | InProgress | Internal | BadSize
    | SetAside | DecodeFailed | DuplicateOf(callId: CallId) | Stored(callId: CallId)

  datatype CreateReply =
    | KnownCall(callId: CallId) | KnownUpload(status: Status) | StillUploading | Token(token: Ingestion.Token)

  class UploadServer {
    const cfg: Config
    var now: int
    var rows: map<RowId, Row>
    var calls: map<CallId, CallRow>
    var files: map<Path, seq<int>>
    ghost var creating: map<nat, UploadRequest>
    ghost var handlers: map<HandlerId, Handler>
    ghost var history: History

    constructor (cfg: Config, now: int)
      ensures Snapshot() == Start(cfg, now)
    {
      this.cfg, this.now := cfg, now;
      rows, calls, files, creating, handlers := map[], map[], map[], map[], map[];
      history := Start(cfg, now).history;
    }

    ghost function Snapshot(): State
      reads this
    {
      State(cfg, now, rows, calls, files, creating, handlers, history)
    }

    /* ---- Queries ---- */

    /** A latest call within both tolerances. */
    method FindDuplicate(sender: string, meta: CallMeta) returns (answer: Option<CallId>)
      ensures IsDuplicateAnswer(Snapshot(), sender, meta, answer)
      ensures answer.Some? ==>
        && answer.value in calls && calls[answer.value].sender == sender
        && var c := calls[answer.value].meta;
        && c.system == meta.system && c.talkgroup == meta.talkgroup && c.radio == meta.radio && c.site == meta.site
        && c.voice == meta.voice && c.callType == meta.callType
        && meta.start - cfg.startTolerance <= c.start <= meta.start + cfg.startTolerance
        && meta.duration - cfg.durationTolerance <= c.duration <= meta.duration + cfg.durationTolerance
      ensures forall id | id in calls && calls[id].sender == sender ::
        var c := calls[id].meta;
        && c.system == meta.system && c.talkgroup == meta.talkgroup && c.radio == meta.radio && c.site == meta.site
        && c.voice == meta.voice && c.callType == meta.callType
        && meta.start - cfg.startTolerance <= c.start <= meta.start + cfg.startTolerance
        && meta.duration - cfg.durationTolerance <= c.duration <= meta.duration + cfg.durationTolerance
        ==> answer.Some? && c.start <= calls[answer.value].meta.start
    {
      forall id { MatchesExactly(Snapshot(), sender, meta, id); }
      hide Near;
      answer := None;
      var ids := calls.Keys;
      while ids != {}
        invariant ids <= calls.Keys
        invariant answer.Some? ==> Matches(Snapshot(), sender, meta, answer.value)
        invariant forall id | id in calls && id !in ids && Matches(Snapshot(), sender, meta, id) ::
          answer.Some? && calls[id].meta.start <= calls[answer.value].meta.start
        decreases |ids|
      {
        var id :| id in ids;
        if calls[id].sender == sender && Near(cfg, calls[id].meta, meta)
          && (answer.None? || calls[id].meta.start > calls[answer.value].meta.start)
        {
          answer := Some(id);
        }
        ids := ids - {id};
      }
    }

    method FindKey(sender: string, key: string) returns (found: Option<RowId>)
      ensures IsKeyAnswer(Snapshot(), sender, key, found) && (found.Some? ==> found.value in rows)
    {
      found := None;
      if key == "" { return; }
      var ids := rows.Keys;
      while ids != {}
        invariant ids <= rows.Keys
        invariant forall r | r in rows && r !in ids :: !IsKeyRow(Snapshot(), sender, key, r)
        decreases |ids|
      {
        var r :| r in ids;
        if rows[r].sender == sender && rows[r].key == key { return Some(r); }
        ids := ids - {r};
      }
    }

    method FindToken(token: Ingestion.Token) returns (found: Option<RowId>)
      ensures found.Some? ==> found.value in rows && rows[found.value].token == token
      ensures found.None? ==> forall r | r in rows :: rows[r].token != token
    {
      found := None;
      var ids := rows.Keys;
      while ids != {}
        invariant ids <= rows.Keys
        invariant forall r | r in rows && r !in ids :: rows[r].token != token
        decreases |ids|
      {
        var r :| r in ids;
        if rows[r].token == token { return Some(r); }
        ids := ids - {r};
      }
    }

    /* ---- createUpload ---- */

    /** The idempotency read with the update or insert that follows it. */
    method Upsert(request: UploadRequest, token: Ingestion.Token, id: RowId, ghost create: nat)
      returns (reply: CreateReply, ghost found: Option<RowId>)
      requires create in creating && creating[create] == request && token !in history.issued && id !in rows
      modifies this
      ensures CanUpsert(old(Snapshot()), create, found, token, id)
      ensures Snapshot() == DoUpsert(old(Snapshot()), create, found, token, id)
      ensures reply == UpsertReply(old(Snapshot()), found, token) && !reply.KnownCall?
    {
      hide IsKeyRow, IsKeyAnswer, Matches;
      var existing := FindKey(request.sender, request.key);
      found := existing;
      if existing.Some? {
        var row := rows[existing.value];
        if row.status.Completed? || row.status.Duplicate? || row.status.Quarantined? {
          creating := creating - {create};
          history := history.(replies := history.replies + {CreatedDone(request, row.status)});
          return KnownUpload(row.status), found;
        }
        if row.status.Uploading? && row.lease.Some? && row.lease.value > now {
          creating := creating - {create};
          history := history.(replies := history.replies + {CreatedBusy(request)});
          return StillUploading, found;
        }
      }
      Grant(request, token, existing, id, create);
      reply := Token(token);
    }

    /** Renews the row found, or inserts one. */
    method Grant(request: UploadRequest, token: Ingestion.Token, existing: Option<RowId>, id: RowId, ghost create: nat)
      requires CanUpsert(Snapshot(), create, existing, token, id) && creating[create] == request
      requires existing.Some? ==> existing.value in rows && Renewable(Snapshot(), rows[existing.value])
      modifies this
      ensures Snapshot() == DoUpsert(old(Snapshot()), create, existing, token, id)
    {
      ghost var before := Snapshot();
      hide CanUpsert, Renewable;
      creating := creating - {create};
      if existing.Some? {
        rows := rows[existing.value := rows[existing.value].(token := token, meta := request.call,
          format := request.format, expires := now + cfg.pendingTtl, status := Pending, lease := None)];
      } else {
        rows := rows[id := Row(request.sender, request.key, token, request.call, request.format, now + cfg.pendingTtl,
          Pending, None, None, 0, None, None)];
      }
      history := Submit(before, if existing.Some? then existing.value else id, token, request.call).history;
      history := history.(replies := history.replies + {CreatedToken(request, token)});
    }

    /** `token` and `id` are freshly drawn. */
    method CreateUpload(request: UploadRequest, token: Ingestion.Token, id: RowId, ghost create: nat)
      returns (reply: CreateReply, ghost steps: seq<Step>)
      requires create !in creating && token !in history.issued && id !in rows
      modifies this
      ensures Ran(old(Snapshot()), steps, Snapshot())
      ensures Answered(old(Snapshot()), Snapshot(), request, token, reply)
      ensures calls == old(calls)
      ensures reply.KnownCall? ==>
        && reply.callId in calls && calls[reply.callId].sender == request.sender
        && var c := calls[reply.callId].meta;
        && c.system == request.call.system && c.talkgroup == request.call.talkgroup && c.radio == request.call.radio
        && c.site == request.call.site && c.voice == request.call.voice && c.callType == request.call.callType
        && request.call.start - cfg.startTolerance <= c.start <= request.call.start + cfg.startTolerance
        && request.call.duration - cfg.durationTolerance <= c.duration <= request.call.duration + cfg.durationTolerance
      ensures forall id | id in calls && calls[id].sender == request.sender ::
        var c := calls[id].meta;
        && c.system == request.call.system && c.talkgroup == request.call.talkgroup && c.radio == request.call.radio
        && c.site == request.call.site && c.voice == request.call.voice && c.callType == request.call.callType
        && request.call.start - cfg.startTolerance <= c.start <= request.call.start + cfg.startTolerance
        && request.call.duration - cfg.durationTolerance <= c.duration <= request.call.duration + cfg.durationTolerance
        ==> reply.KnownCall? && c.start <= calls[reply.callId].meta.start
    {
      hide DoUpsert, CanUpsert, UpsertReply, Answered, IsDuplicateAnswer;
      ghost var start := Snapshot();
      var answer := FindDuplicate(request.sender, request.call);
      ghost var asked := CreateLookup(create, request, answer);
      OneStep(start, asked);
      assert Ran(start, [asked], Next(start, asked));
      if answer.Some? {
        history := history.(replies := history.replies + {CreatedDuplicate(request, answer.value)});
        AnswerMatches(start, Snapshot(), request, token, answer.value);
        return KnownCall(answer.value), [asked];
      }
      creating := creating[create := request];
      ghost var found;
      reply, found := Upsert(request, token, id, create);
      ghost var step := CreateUpsert(create, found, token, id);
      Extend(start, [asked], step);
      steps := [asked] + [step];
      UpsertAnswers(start, Run(start, [asked]), create, found, token, id);
    }

    /* ---- receiveAudio ---- */

    /** The request stands at its stage; `steps` of the machine have led here from `start`. */
    ghost predicate Stands(start: State, h: HandlerId, hd: Handler, steps: seq<Step>)
      reads this
    {
      Standing(start, Snapshot(), h, hd, steps)
    }

    /** The request is over: nothing but its own row and audio was touched, and no call. */
    ghost predicate IsOver(start: State, h: HandlerId, r: RowId, steps: seq<Step>)
      reads this
    {
      Over(start, Snapshot(), h, r, steps)
    }

    method LookUp(token: Ingestion.Token, legacy: bool, h: HandlerId)
      returns (found: Option<Handler>, ghost steps: seq<Step>)
      requires IngestionOwnership.RowsInv(Snapshot()) && h !in handlers && Tmp(h) !in files
      modifies this`handlers
      ensures found.None? ==> Snapshot() == old(Snapshot()) && forall r | r in rows :: rows[r].token != token
      ensures found.Some? ==> Stands(old(Snapshot()), h, found.value, steps)
      ensures found.Some? ==> found.value.stage.Looked? && found.value.token == token && found.value.legacy == legacy
    {
      steps := [];
      var r := FindToken(token);
      if r.None? { return None, steps; }
      StandsLooked(Snapshot(), token, legacy, h, r.value);
      found, steps := Some(Handler(token, r.value, rows[r.value], legacy, Looked)), [Lookup(h, token, legacy)];
      handlers := handlers[h := found.value];
    }

    /** The answer to a request that goes no further than its row. */
    method LeaveRow(h: HandlerId, hd: Handler, done: bool, ghost start: State, ghost steps: seq<Step>)
      returns (ghost steps': seq<Step>)
      requires Stands(start, h, hd, steps) && hd.stage.Looked? && (done ==> Terminal(hd.seen.status))
      modifies this`handlers, this`history
      ensures IsOver(start, h, hd.row, steps') && rows == start.rows && files == start.files
    {
      ghost var last := if done then AnswerDone(h) else Leave(h);
      EndsLooked(start, Snapshot(), h, hd, steps, last);
      hide Standing, Over;
      steps' := steps + [last];
      if done { history := history.(replies := history.replies + {AudioDone(hd.token, hd.seen.status)}); }
      handlers := handlers - {h};
    }

    /** The update spares completed and duplicate rows. */
    method ExpireRow(h: HandlerId, hd: Handler, ghost start: State, ghost steps: seq<Step>)
      returns (ghost steps': seq<Step>)
      requires Stands(start, h, hd, steps) && hd.stage.Looked? && !Terminal(hd.seen.status) && now > hd.seen.expires
      modifies this`handlers, this`rows
      ensures IsOver(start, h, hd.row, steps') && rows[hd.row].status.Expired? && files == start.files
    {
      EndsExpired(start, Snapshot(), h, hd, steps);
      hide Over;
      steps' := steps + [AnswerExpired(h)];
      handlers := handlers - {h};
      if !rows[hd.row].status.Completed? && !rows[hd.row].status.Duplicate? {
        rows := rows[hd.row := rows[hd.row].(status := Expired, lease := None)];
      }
    }

    /** The claim, and whether it affected the row. */
    method ClaimRow(h: HandlerId, hd: Handler, ghost start: State, ghost steps: seq<Step>)
      returns (claimed: bool, ghost steps': seq<Step>)
      requires Stands(start, h, hd, steps) && hd.stage.Looked? && !Terminal(hd.seen.status) && now <= hd.seen.expires
      modifies this`handlers, this`rows
      ensures claimed == Claimable(hd.seen, now)
      ensures claimed ==> Stands(start, h, hd.(stage := Claimed), steps')
      ensures !claimed ==> Snapshot() == old(Snapshot())
    {
      StandsClaimed(start, Snapshot(), h, hd, steps);
      var row := rows[hd.row];
      claimed := row.status.Pending? || row.status.Failed?
        || (row.status.Uploading? && row.lease.Some? && row.lease.value < now);
      steps' := steps + [Claim(h)];
      if claimed {
        rows := rows[hd.row := row.(status := Uploading, lease := Some(now + LEASE))];
        handlers := handlers[h := hd.(stage := Claimed)];
      }
    }

    method ReceiveBody(h: HandlerId, hd: Handler, audio: seq<int>, ghost start: State, ghost steps: seq<Step>)
      returns (ghost steps': seq<Step>)
      requires Stands(start, h, hd, steps) && hd.stage.Claimed? && 0 < |audio| <= cfg.maxAudio
      modifies this`files, this`handlers
      ensures Stands(start, h, hd.(stage := Received(audio)), steps')
    {
      StandsReceived(start, Snapshot(), h, hd, steps, audio);
      steps' := steps + [Receive(h, audio)];
      files := files[Tmp(h) := audio];
      handlers := handlers[h := hd.(stage := Received(audio))];
    }

    /** The counting update, and what it returns. */
    method CountOnRow(r: RowId, digest: Digest) returns (count: nat, first: int)
      requires r in rows
      modifies this`rows
      ensures rows == old(rows)[r := CountFailure(old(rows)[r], digest, now)]
      ensures rows[r].failCount == count && rows[r].failFirst == Some(first)
    {
      var row := rows[r];
      var again := row.rejected == Some(digest);
      count := if again then row.failCount + 1 else 1;
      first := if again && row.failFirst.Some? then row.failFirst.value else now;
      rows := rows[r := row.(failCount := count, failFirst := Some(first), rejected := Some(digest))];
    }

    /** Counts a decode failure on the row. */
    method CountDecodeFailure(h: HandlerId, hd: Handler, ghost start: State, ghost steps: seq<Step>)
      returns (failing: Handler, ghost steps': seq<Step>)
      requires Stands(start, h, hd, steps) && hd.stage.Received?
      modifies this`rows, this`handlers, this`history
      ensures Stands(start, h, failing, steps') && failing.stage.Failing? && failing == hd.(stage := failing.stage)
      ensures failing.stage.audio == hd.stage.audio
    {
      StandsFailing(start, Snapshot(), h, hd, steps);
      ghost var counted := DoRecordFailure(Snapshot(), h);
      hide Standing, CountFailure;
      steps' := steps + [RecordFailure(h)];
      history := NoteFailure(Snapshot(), hd.row, Sha(hd.stage.audio)).history;
      var count, first := CountOnRow(hd.row, Sha(hd.stage.audio));
      failing := hd.(stage := Failing(hd.stage.audio, count, first));
      handlers := handlers[h := failing];
      assert Snapshot() == counted;
    }

    /** The row goes back, and the temporary file away. */
    method GiveRowBack(h: HandlerId, hd: Handler, saves: bool, ghost start: State, ghost steps: seq<Step>)
      returns (ghost steps': seq<Step>)
      requires Stands(start, h, hd, steps) && hd.stage.Failing?
      requires !(hd.legacy && ShouldQuarantine(cfg, hd.stage.count, hd.stage.first, now))
      modifies this`rows, this`handlers, this`files
      ensures IsOver(start, h, hd.row, steps') && files == start.files && (saves ==> rows[hd.row].status.Pending?)
    {
      EndsRequeued(start, Snapshot(), h, hd, steps, saves);
      hide Over, ShouldQuarantine;
      steps' := steps + [Requeue(h, saves)];
      if saves { rows := rows[hd.row := rows[hd.row].(status := Pending, lease := None)]; }
      files := files - {Tmp(h)};
      handlers := handlers - {h};
    }

    method MoveToShelf(h: HandlerId, hd: Handler, ghost start: State, ghost steps: seq<Step>)
      returns (ghost steps': seq<Step>)
      requires Stands(start, h, hd, steps) && hd.stage.Failing?
      requires hd.legacy && ShouldQuarantine(cfg, hd.stage.count, hd.stage.first, now)
      modifies this`files, this`handlers
      ensures Stands(start, h, hd.(stage := Shelved(hd.stage.audio)), steps')
    {
      StandsShelved(start, Snapshot(), h, hd, steps);
      hide ShouldQuarantine;
      steps' := steps + [Shelve(h)];
      files := (files - {Tmp(h)})[ShelfPath(hd) := hd.stage.audio];
      handlers := handlers[h := hd.(stage := Shelved(hd.stage.audio))];
    }

    method MarkQuarantined(h: HandlerId, hd: Handler, ghost start: State, ghost steps: seq<Step>)
      returns (ghost steps': seq<Step>)
      requires Stands(start, h, hd, steps) && hd.stage.Shelved?
      modifies this`rows, this`handlers, this`history
      ensures IsOver(start, h, hd.row, steps') && rows[hd.row].status.Quarantined?
      ensures files == start.files[ShelfPath(hd) := hd.stage.audio]
    {
      EndsQuarantined(start, Snapshot(), h, hd, steps);
      hide Over;
      steps' := steps + [Quarantine(h)];
      rows := rows[hd.row := rows[hd.row].(status := Quarantined, lease := None)];
      history := history.(replies := history.replies + {AudioQuarantined(hd.token)},
                          quarantined := history.quarantined + {hd.row});
      handlers := handlers - {h};
    }

    method AcceptAudio(h: HandlerId, hd: Handler, ghost start: State, ghost steps: seq<Step>)
      returns (ghost steps': seq<Step>)
      requires Stands(start, h, hd, steps) && hd.stage.Received?
      modifies this`handlers
      ensures Stands(start, h, hd.(stage := Valid(hd.stage.audio)), steps')
    {
      StandsValid(start, Snapshot(), h, hd, steps);
      steps' := steps + [Accept(h)];
      handlers := handlers[h := hd.(stage := Valid(hd.stage.audio))];
    }

    method PassScreen(h: HandlerId, hd: Handler, ghost start: State, ghost steps: seq<Step>)
      returns (ghost steps': seq<Step>)
      requires Stands(start, h, hd, steps) && hd.stage.Valid?
      requires IsDuplicateAnswer(Snapshot(), hd.seen.sender, hd.seen.meta, None)
      modifies this`handlers
      ensures Stands(start, h, hd.(stage := Checked(hd.stage.audio)), steps')
    {
      StandsChecked(start, Snapshot(), h, hd, steps);
      hide IsDuplicateAnswer;
      steps' := steps + [NoDuplicate(h)];
      handlers := handlers[h := hd.(stage := Checked(hd.stage.audio))];
    }

    method MarkDuplicate(h: HandlerId, hd: Handler, id: CallId, saves: bool, ghost start: State, ghost steps: seq<Step>)
      returns (ghost steps': seq<Step>)
      requires Stands(start, h, hd, steps) && hd.stage.Valid?
      requires IsDuplicateAnswer(Snapshot(), hd.seen.sender, hd.seen.meta, Some(id))
      modifies this`rows, this`files, this`handlers, this`history
      ensures IsOver(start, h, hd.row, steps') && files == start.files
      ensures saves ==> rows[hd.row] == hd.seen.(status := Duplicate, completedCall := Some(id), lease := None)
    {
      EndsDuplicate(start, Snapshot(), h, hd, steps, id, saves);
      hide Over, IsDuplicateAnswer;
      steps' := steps + [FoundDuplicate(h, id, saves)];
      if saves { rows := rows[hd.row := rows[hd.row].(status := Duplicate, completedCall := Some(id), lease := None)]; }
      files := files - {Tmp(h)};
      history := history.(replies := history.replies + {AudioDuplicate(hd.token, id)});
      handlers := handlers - {h};
    }

    method MoveToFinal(h: HandlerId, hd: Handler, callId: CallId, ghost start: State, ghost steps: seq<Step>)
      returns (ghost steps': seq<Step>)
      requires Stands(start, h, hd, steps) && hd.stage.Checked? && callId !in start.history.callIds
      modifies this`files, this`handlers, this`history
      ensures Stands(start, h, hd.(stage := Renamed(hd.stage.audio, callId)), steps')
    {
      StandsRenamed(start, Snapshot(), h, hd, steps, callId);
      steps' := steps + [Rename(h, callId)];
      var renamed := hd.(stage := Renamed(hd.stage.audio, callId));
      files := (files - {Tmp(h)})[FinalPath(renamed) := hd.stage.audio];
      handlers := handlers[h := renamed];
      history := history.(callIds := history.callIds + {callId});
    }

    /** The transaction; a source id that is taken violates a unique index. */
    method CommitCall(h: HandlerId, hd: Handler, works: bool, ghost start: State, ghost steps: seq<Step>)
      returns (ok: bool, ghost steps': seq<Step>)
      requires Stands(start, h, hd, steps) && hd.stage.Renamed?
      modifies this`rows, this`calls, this`handlers, this`history
      ensures ok == (works && !SourceTaken(old(Snapshot()), hd.seen.sender, hd.seen.meta.sourceId))
      ensures !ok ==> Snapshot() == old(Snapshot())
      ensures ok ==> Ran(start, steps', Snapshot()) && handlers == start.handlers && now == start.now
      ensures ok ==> Becomes(start, Snapshot(), hd.row, hd.stage.audio, hd.stage.callId)
    {
      hide SourceTaken, Becomes, Ran;
      steps' := steps + [Commit(h)];
      var taken := IsSourceTaken(hd.seen.sender, hd.seen.meta.sourceId);
      ok := works && !taken;
      if ok {
        EndsStored(start, Snapshot(), h, hd, steps);
        var callId, path, audio := hd.stage.callId, FinalPath(hd), hd.stage.audio;
        history := history.(committed := history.committed
          + [CommitRecord(callId, hd.row, hd.seen.sender, hd.seen.key, hd.seen.meta)]);
        history := history.(replies := history.replies + {AudioStored(hd.token, callId)});
        calls := calls[callId := CallRow(hd.seen.sender, hd.seen.meta, path, |audio|, Sha(audio))];
        rows := rows[hd.row := rows[hd.row].(status := Completed, completedCall := Some(callId), lease := None)];
        handlers := handlers - {h};
      }
    }

    method IsSourceTaken(sender: string, sourceId: string) returns (taken: bool)
      ensures taken == SourceTaken(Snapshot(), sender, sourceId)
    {
      taken := false;
      if sourceId == "" { return; }
      var ids := calls.Keys;
      while ids != {}
        invariant ids <= calls.Keys
        invariant forall id | id in calls && id !in ids ::
          !(calls[id].sender == sender && calls[id].meta.sourceId == sourceId)
        decreases |ids|
      {
        var id :| id in ids;
        if calls[id].sender == sender && calls[id].meta.sourceId == sourceId { return true; }
        ids := ids - {id};
      }
    }

    /** The deferred clean-up: what the request wrote is removed, and its row given back. */
    method Abandon(h: HandlerId, hd: Handler, a: Attempt, ghost start: State, ghost steps: seq<Step>)
      returns (ghost steps': seq<Step>)
      requires Stands(start, h, hd, steps) && !hd.stage.Looked?
      modifies this`rows, this`files, this`handlers, this`history
      ensures IsOver(start, h, hd.row, steps') && (a.saves ==> rows[hd.row].status.Pending?)
      ensures a.removes ==> NoNewFiles(start, Snapshot())
    {
      ghost var s := Snapshot();
      EndsAbandoned(start, s, h, hd, steps, a.saves, a.removes);
      hide Over, NoNewFiles;
      steps' := steps + [Abort(h, a.saves, a.removes)];
      RemoveAudio(h, hd, a.removes);
      if a.saves { rows := rows[hd.row := rows[hd.row].(status := Pending, lease := None)]; }
      handlers := handlers - {h};
      RemovalCommutes(s, h, a.saves, a.removes);
    }

    /** Removing the final or shelved file may fail; the temporary file goes. */
    method RemoveAudio(h: HandlerId, hd: Handler, removes: bool)
      requires h in handlers && handlers[h] == hd
      modifies this`files, this`history
      ensures Snapshot() == AbortFiles(old(Snapshot()), h, removes)
    {
      if hd.stage.Renamed? {
        if removes { files := files - {FinalPath(hd)}; }
        else { history := history.(orphans := history.orphans + {FinalPath(hd)}); }
      } else if hd.stage.Shelved? {
        if removes { files := files - {ShelfPath(hd)}; }
      } else {
        files := files - {Tmp(h)};
      }
    }

    /** The branch for audio that does not decode. */
    method RejectAudio(h: HandlerId, hd: Handler, a: Attempt, ghost start: State, ghost steps: seq<Step>)
      returns (reply: AudioReply, ghost steps': seq<Step>)
      requires Stands(start, h, hd, steps) && hd.stage.Received? && hd.legacy == a.legacy
      modifies this`rows, this`files, this`handlers, this`history
      ensures reply.SetAside? || reply.DecodeFailed? || reply.Internal?
      ensures IsOver(start, h, hd.row, steps')
      ensures reply.SetAside? <==> a.tracks && a.shelves && a.syncs && a.commits && DueAfter(start, hd)
      ensures reply.SetAside? ==>
        rows[hd.row].status.Quarantined? && files == start.files[ShelfPath(hd) := hd.stage.audio]
      ensures !reply.SetAside? ==>
        (a.saves ==> rows[hd.row].status.Pending?) && (a.removes ==> NoNewFiles(start, Snapshot()))
    {
      hide Over, NoNewFiles, ShouldQuarantine;
      if !a.tracks {
        steps' := Abandon(h, hd, a, start, steps);
        return Internal, steps';
      }
      var failing;
      failing, steps' := CountDecodeFailure(h, hd, start, steps);
      DueIsCounted(start, Snapshot(), h, hd, failing, steps');
      if !(hd.legacy && ShouldQuarantine(cfg, failing.stage.count, failing.stage.first, now)) {
        steps' := GiveRowBack(h, failing, a.saves, start, steps');
        SameFiles(start, Snapshot());
        return DecodeFailed, steps';
      }
      if !a.shelves {
        steps' := Abandon(h, failing, a, start, steps');
        return Internal, steps';
      }
      steps' := MoveToShelf(h, failing, start, steps');
      var shelved := failing.(stage := Shelved(hd.stage.audio));
      if !a.syncs || !a.commits {
        steps' := Abandon(h, shelved, a, start, steps');
        return Internal, steps';
      }
      steps' := MarkQuarantined(h, shelved, start, steps');
      reply := SetAside;
    }

    /** From valid audio to the commit. */
    method StoreAudio(h: HandlerId, hd: Handler, a: Attempt, callId: CallId, ghost start: State, ghost steps: seq<Step>)
      returns (reply: AudioReply, ghost steps': seq<Step>)
      requires Stands(start, h, hd, steps) && hd.stage.Valid? && callId !in start.history.callIds
      modifies this
      ensures reply == Stored(callId) || reply.DuplicateOf? || reply.Internal?
      ensures Ran(start, steps', Snapshot()) && handlers == start.handlers && now == start.now
      ensures reply.Stored? <==> (a.searches && !HasNear(start, hd.seen) && a.renames && a.syncs && a.commits
                                  && !SourceTaken(start, hd.seen.sender, hd.seen.meta.sourceId))
      ensures reply.Stored? ==> Becomes(start, Snapshot(), hd.row, hd.stage.audio, callId)
      ensures reply.DuplicateOf? ==> Matches(start, hd.seen.sender, hd.seen.meta, reply.callId)
      ensures reply.DuplicateOf? && a.saves ==>
        hd.row in rows
        && rows[hd.row] == hd.seen.(status := Duplicate, completedCall := Some(reply.callId), lease := None)
      ensures !reply.Stored? ==>
        IsOver(start, h, hd.row, steps') && (a.removes ==> NoNewFiles(start, Snapshot()))
    {
      hide NoNewFiles, Becomes, HasNear, IsDuplicateAnswer, Matches, SourceTaken;
      if !a.searches {
        steps' := Abandon(h, hd, a, start, steps);
        return Internal, steps';
      }
      var answer := FindDuplicate(hd.seen.sender, hd.seen.meta);
      AnswerOfStart(start, Snapshot(), h, hd, steps, answer);
      if answer.Some? {
        steps' := MarkDuplicate(h, hd, answer.value, a.saves, start, steps);
        SameFiles(start, Snapshot());
        return DuplicateOf(answer.value), steps';
      }
      steps' := PassScreen(h, hd, start, steps);
      reply, steps' := PlaceAudio(h, hd.(stage := Checked(hd.stage.audio)), a, callId, start, steps');
    }

    /** The rename and the transaction. */
    method PlaceAudio(h: HandlerId, hd: Handler, a: Attempt, callId: CallId, ghost start: State, ghost steps: seq<Step>)
      returns (reply: AudioReply, ghost steps': seq<Step>)
      requires Stands(start, h, hd, steps) && hd.stage.Checked? && callId !in start.history.callIds
      modifies this
      ensures reply == Stored(callId) || reply == Internal
      ensures Ran(start, steps', Snapshot()) && handlers == start.handlers && now == start.now
      ensures reply.Stored? <==>
        a.renames && a.syncs && a.commits && !SourceTaken(start, hd.seen.sender, hd.seen.meta.sourceId)
      ensures reply.Stored? ==> Becomes(start, Snapshot(), hd.row, hd.stage.audio, callId)
      ensures !reply.Stored? ==>
        IsOver(start, h, hd.row, steps') && (a.removes ==> NoNewFiles(start, Snapshot()))
    {
      hide NoNewFiles, Becomes, SourceTaken;
      if !a.renames {
        steps' := Abandon(h, hd, a, start, steps);
        return Internal, steps';
      }
      var renamed := hd.(stage := Renamed(hd.stage.audio, callId));
      steps' := MoveToFinal(h, hd, callId, start, steps);
      SameTaken(start, Snapshot(), hd.seen.sender, hd.seen.meta.sourceId);
      if a.syncs {
        ghost var placed := steps';
        var ok;
        ok, steps' := CommitCall(h, renamed, a.commits, start, placed);
        if ok { return Stored(callId), steps'; }
        steps' := placed;
      }
      steps' := Abandon(h, renamed, a, start, steps');
      reply := Internal;
    }

    /** From the token to the claim. With a handler the request owns its row; with a reply it is over. */
    method Begin(token: Ingestion.Token, a: Attempt, h: HandlerId)
      returns (reply: AudioReply, claimed: Option<Handler>, ghost steps: seq<Step>)
      requires IngestionOwnership.RowsInv(Snapshot()) && h !in handlers && Tmp(h) !in files
      modifies this`rows, this`handlers, this`history
      ensures claimed.Some? <==>
        exists r :: HasToken(old(Snapshot()), token, r) && Claims(old(Snapshot()), r, a)
      ensures claimed.Some? ==>
        && Stands(old(Snapshot()), h, claimed.value, steps) && claimed.value.stage.Claimed?
        && claimed.value.token == token && claimed.value.legacy == a.legacy
      ensures claimed.None? ==>
        && Ran(old(Snapshot()), steps, Snapshot()) && handlers == old(handlers)
        && !reply.Stored? && !reply.SetAside? && !reply.DuplicateOf?
        && OthersKept(old(Snapshot()), Snapshot(), token)
      ensures claimed.None? && !reply.TokenExpired? ==> rows == old(rows)
      ensures claimed.None? ==> NoNewFiles(old(Snapshot()), Snapshot())
    {
      hide Standing, Over, Ran, Claimable, IngestionOwnership.RowsInv;
      ghost var start := Snapshot();
      reply, claimed, steps := Internal, None, [];
      NothingRan(start);
      if a.oversized { return TooLarge, None, steps; }
      var found;
      found, steps := LookUp(token, a.legacy, h);
      if found.None? { NothingRan(start); return NotFound, None, []; }
      var hd := found.value;
      ItsRow(start, Snapshot(), h, hd, steps);
      if hd.seen.status.Completed? || hd.seen.status.Duplicate? || hd.seen.status.Quarantined? {
        steps := LeaveRow(h, hd, true, start, steps);
        OverKept(start, Snapshot(), h, hd, steps);
        SameFiles(start, Snapshot());
        return Done(hd.seen.status), None, steps;
      }
      if now > hd.seen.expires {
        if a.saves { steps := ExpireRow(h, hd, start, steps); } else { steps := LeaveRow(h, hd, false, start, steps); }
        OverKept(start, Snapshot(), h, hd, steps);
        return TokenExpired, None, steps;
      }
      var free := false;
      if a.admitted && a.claims {
        ghost var looked := steps;
        free, steps := ClaimRow(h, hd, start, looked);
        assert HasToken(start, token, hd.row);
        if free { return Internal, Some(hd.(stage := Claimed)), steps; }
        steps := looked;
      }
      steps := LeaveRow(h, hd, false, start, steps);
      OverKept(start, Snapshot(), h, hd, steps);
      reply := if !a.admitted then Refused else if !a.claims then Internal else InProgress;
    }

    /** From audio of a good size on. */
    method ServeAudio(h: HandlerId, claimed: Handler, a: Attempt, callId: CallId, ghost start: State,
          ghost steps: seq<Step>)
      returns (reply: AudioReply, ghost steps': seq<Step>)
      requires Stands(start, h, claimed, steps) && claimed.stage.Claimed? && claimed.legacy == a.legacy
      requires callId !in start.history.callIds && Arrives(start, a)
      modifies this
      ensures Ran(start, steps', Snapshot()) && handlers == start.handlers
      ensures OthersKept(start, Snapshot(), claimed.token)
      ensures reply.Stored? <==> StoresAudio(start, claimed.row, a)
      ensures reply.Stored? ==> reply.callId == callId && Becomes(start, Snapshot(), claimed.row, a.body.value, callId)
      ensures reply.SetAside? <==> ShelvesAudio(start, claimed.row, a)
      ensures reply.DuplicateOf? ==> Matches(start, claimed.seen.sender, claimed.seen.meta, reply.callId)
      ensures !reply.Stored? ==> calls == start.calls
      ensures !reply.Stored? && !reply.SetAside? && a.removes ==> NoNewFiles(start, Snapshot())
    {
      hide Standing, Over, Ran, Becomes, HasNear;
      hide Matches, SourceTaken, OthersKept, ShouldQuarantine, CountFailure, NoNewFiles;
      ItsRow(start, Snapshot(), h, claimed, steps);
      steps' := ReceiveBody(h, claimed, a.body.value, start, steps);
      var hd := claimed.(stage := Received(a.body.value));
      if !a.decodes {
        reply, steps' := RejectAudio(h, hd, a, start, steps');
        OverKept(start, Snapshot(), h, hd, steps');
        return;
      }
      steps' := AcceptAudio(h, hd, start, steps');
      hd := hd.(stage := Valid(a.body.value));
      reply, steps' := StoreAudio(h, hd, a, callId, start, steps');
      if reply.Stored? { BecomesKept(start, Snapshot(), hd, a.body.value, callId); }
      else { OverKept(start, Snapshot(), h, hd, steps'); }
    }

    /** What follows the claim. */
    method Serve(h: HandlerId, claimed: Handler, a: Attempt, callId: CallId, ghost start: State, ghost steps: seq<Step>)
      returns (reply: AudioReply, ghost steps': seq<Step>)
      requires Stands(start, h, claimed, steps) && claimed.stage.Claimed? && claimed.legacy == a.legacy
      requires callId !in start.history.callIds
      modifies this
      ensures Ran(start, steps', Snapshot()) && handlers == start.handlers
      ensures OthersKept(start, Snapshot(), claimed.token)
      ensures reply.Stored? <==> StoresAudio(start, claimed.row, a)
      ensures reply.Stored? ==> reply.callId == callId && Becomes(start, Snapshot(), claimed.row, a.body.value, callId)
      ensures reply.SetAside? <==> ShelvesAudio(start, claimed.row, a)
      ensures reply.DuplicateOf? ==> Matches(start, claimed.seen.sender, claimed.seen.meta, reply.callId)
      ensures !reply.Stored? ==> calls == start.calls
      ensures !reply.Stored? && !reply.SetAside? && a.removes ==> NoNewFiles(start, Snapshot())
    {
      hide Standing, Over, Ran, Becomes, HasNear;
      hide Matches, SourceTaken, OthersKept, ShouldQuarantine, CountFailure, NoNewFiles;
      var hd := claimed;
      ItsRow(start, Snapshot(), h, hd, steps);
      if a.body.None? || |a.body.value| == 0 || |a.body.value| > cfg.maxAudio {
        steps' := Abandon(h, hd, a, start, steps);
        OverKept(start, Snapshot(), h, hd, steps');
        return if a.body.None? then Internal else BadSize, steps';
      }
      reply, steps' := ServeAudio(h, hd, a, callId, start, steps);
    }

    /** `token` is the bearer token, `h` names the temporary file, and `callId` is freshly drawn. A call is stored if
        and only if the token's row can be claimed, valid audio arrives, nothing near was stored and every operation
        works; audio is set aside if and only if quarantine is due; otherwise no call is touched and, when removing
        works, no file is left. Other rows are never touched. */
    method ReceiveAudio(token: Ingestion.Token, a: Attempt, h: HandlerId, callId: CallId)
      returns (reply: AudioReply, ghost steps: seq<Step>)
      requires IngestionOwnership.RowsInv(Snapshot()) && h !in handlers && Tmp(h) !in files
      requires callId !in history.callIds
      modifies this
      ensures Ran(old(Snapshot()), steps, Snapshot()) && handlers == old(handlers)
      ensures OthersKept(old(Snapshot()), Snapshot(), token)
      ensures reply.Stored? <==> exists r :: HasToken(old(Snapshot()), token, r) && Storable(old(Snapshot()), r, a)
      ensures reply.Stored? ==> reply.callId == callId
      ensures reply.Stored? ==>
        exists r :: HasToken(old(Snapshot()), token, r) && Becomes(old(Snapshot()), Snapshot(), r, a.body.value, callId)
      ensures reply.SetAside? <==> exists r :: HasToken(old(Snapshot()), token, r) && Shelvable(old(Snapshot()), r, a)
      ensures reply.DuplicateOf? ==>
        exists r :: HasToken(old(Snapshot()), token, r) && IsNear(old(Snapshot()), r, reply.callId)
      ensures !reply.Stored? ==> calls == old(calls)
      ensures !reply.Stored? && !reply.SetAside? && a.removes ==> NoNewFiles(old(Snapshot()), Snapshot())
    {
      hide Standing, Ran, Claims, StoresAudio, ShelvesAudio;
      hide Becomes, Matches, OthersKept, NoNewFiles, IngestionOwnership.RowsInv;
      ghost var start := Snapshot();
      var claimed;
      reply, claimed, steps := Begin(token, a, h);
      if claimed.Some? {
        ItsRow(start, Snapshot(), h, claimed.value, steps);
        reply, steps := Serve(h, claimed.value, a, callId, start, steps);
        assert HasToken(start, token, claimed.value.row);
      }
    }

    /* ---- cleanupOperationalState ---- */

    /** Afterwards no waiting row is past its expiry, and no lapsed lease holds an unexpired row; a waiting row was
        expired, a held one freed, and every other row, every live upload included, is as it was. */
    method CleanUp() returns (ghost steps: seq<Step>)
      modifies this`rows
      ensures Ran(old(Snapshot()), steps, Snapshot()) && rows.Keys == old(rows).Keys
      ensures forall r | r in rows :: !Overdue(rows[r], now) && !Lapsed(rows[r], now)
      ensures forall r | r in rows && Overdue(old(rows)[r], now) ::
        rows[r] == old(rows)[r].(status := Expired, lease := None)
      ensures forall r | r in rows && Lapsed(old(rows)[r], now) ::
        rows[r] == old(rows)[r].(status := Pending, lease := None)
      ensures forall r | r in rows && !Overdue(old(rows)[r], now) && !Lapsed(old(rows)[r], now) ::
        rows[r] == old(rows)[r]
    {
      ghost var start := Snapshot();
      CleanedUp(start);
      hide Ran, Ingestion.ExpireRow, RecoverRow, Overdue, Lapsed;
      rows := map r | r in rows :: Ingestion.ExpireRow(rows[r], now);
      rows := map r | r in rows :: RecoverRow(rows[r], now);
      steps := [CleanupExpire, CleanupRecover];
      forall r | r in rows { RowCleaned(start.rows[r], now); }
    }
  }

  function UpsertReply(s: State, found: Option<RowId>, token: Ingestion.Token): CreateReply
    requires found.Some? ==> found.value in s.rows
  {
    if found.Some? && !Renewable(s, s.rows[found.value]) then
      var status := s.rows[found.value].status;
      if Terminal(status) then KnownUpload(status) else StillUploading
    else Token(token)
  }

  /** What each reply means. A known call is near the request; a known upload has the request's key and is settled;
      a token is that of a row, new or free to renew, that now waits for the request's audio and is all that changed. */
  ghost predicate Answered(s: State, s': State, request: UploadRequest, token: Ingestion.Token, reply: CreateReply) {
    && s'.calls == s.calls && s'.files == s.files && s'.now == s.now
    && match reply
       case KnownCall(id) => s'.rows == s.rows && Matches(s, request.sender, request.call, id)
       case KnownUpload(status) => s'.rows == s.rows && Terminal(status) && exists r :: KeyRowIs(s, request, r, status)
       case StillUploading => s'.rows == s.rows && exists r :: KeyRowIs(s, request, r, Uploading) && Busy(s, s.rows[r])
       case Token(given) => given == token && exists r :: Handed(s, s', request, token, r)
  }

  predicate KeyRowIs(s: State, request: UploadRequest, r: RowId, status: Status) {
    IsKeyRow(s, request.sender, request.key, r) && s.rows[r].status == status
  }

  predicate Handed(s: State, s': State, request: UploadRequest, token: Ingestion.Token, r: RowId) {
    && r in s'.rows && s'.rows == s.rows[r := s'.rows[r]]
    && (r in s.rows ==> Renewable(s, s.rows[r]) && IsKeyRow(s, request.sender, request.key, r))
    && (r !in s.rows ==> forall q | q in s.rows :: !IsKeyRow(s, request.sender, request.key, q))
    && s'.rows[r].token == token && s'.rows[r].status.Pending? && s'.rows[r].format == request.format
    && s'.rows[r].sender == request.sender && s'.rows[r].key == request.key && s'.rows[r].meta == request.call
    && s'.rows[r].expires == s.now + s.cfg.pendingTtl && s'.rows[r].lease == None
    && (r in s.rows ==> SameFailures(s.rows[r], s'.rows[r]) && s'.rows[r].completedCall == s.rows[r].completedCall)
    && (r !in s.rows ==> s'.rows[r].failCount == 0 && s'.rows[r].rejected == None && s'.rows[r].completedCall == None)
  }

  predicate SameFailures(row: Row, row': Row) {
    row'.failCount == row.failCount && row'.failFirst == row.failFirst && row'.rejected == row.rejected
  }

  lemma UpsertAnswers(start: State, s: State, create: nat, found: Option<RowId>, token: Ingestion.Token, id: RowId)
    requires CanUpsert(s, create, found, token, id)
    requires start.rows == s.rows && start.calls == s.calls && start.files == s.files && start.now == s.now
    requires start.cfg == s.cfg
    ensures Answered(start, DoUpsert(s, create, found, token, id), s.creating[create], token,
      UpsertReply(s, found, token))
  {
    var request, s' := s.creating[create], DoUpsert(s, create, found, token, id);
    if found.Some? && !Renewable(s, s.rows[found.value]) {
      assert KeyRowIs(start, request, found.value, s.rows[found.value].status);
    } else {
      assert Handed(start, s', request, token, if found.Some? then found.value else id);
    }
  }

  lemma AnswerMatches(s: State, s': State, request: UploadRequest, token: Ingestion.Token, id: CallId)
    requires IsDuplicateAnswer(s, request.sender, request.call, Some(id))
    requires s'.rows == s.rows && s'.calls == s.calls && s'.files == s.files && s'.now == s.now
    ensures Answered(s, s', request, token, KnownCall(id))
  {
  }

  lemma OneStep(s: State, step: Step)
    requires Enabled(s, step)
    ensures Possible(s, [step]) && Run(s, [step]) == Next(s, step)
  {
    assert [step][1..] == [];
  }

  /** A row that waits although its token has expired. */
  predicate Overdue(row: Row, now: int) { (row.status.Pending? || row.status.Failed?) && row.expires < now }

  /** A row whose upload was not finished within its lease, with a token that is still good. */
  predicate Lapsed(row: Row, now: int) {
    row.status.Uploading? && row.lease.Some? && row.lease.value < now && row.expires >= now
  }

  lemma RowCleaned(row: Row, now: int)
    ensures var cleaned := RecoverRow(Ingestion.ExpireRow(row, now), now);
      && !Overdue(cleaned, now) && !Lapsed(cleaned, now)
      && (Overdue(row, now) ==> cleaned == row.(status := Expired, lease := None))
      && (Lapsed(row, now) ==> cleaned == row.(status := Pending, lease := None))
      && (!Overdue(row, now) && !Lapsed(row, now) ==> cleaned == row)
  {
  }

  lemma TwoSteps(s: State, first: Step, second: Step)
    requires Enabled(s, first) && Enabled(Next(s, first), second)
    ensures Possible(s, [first, second]) && Run(s, [first, second]) == Next(Next(s, first), second)
  {
    OneStep(Next(s, first), second);
    assert [first, second][1..] == [second];
  }

  lemma CleanedUp(s: State)
    ensures Ran(s, [CleanupExpire, CleanupRecover], DoCleanupRecover(DoCleanupExpire(s)))
  {
    hide DoCleanupExpire, DoCleanupRecover;
    TwoSteps(s, CleanupExpire, CleanupRecover);
  }

  lemma SameTaken(s: State, s': State, sender: string, sourceId: string)
    requires s'.calls == s.calls
    ensures SourceTaken(s', sender, sourceId) == SourceTaken(s, sender, sourceId)
  {
  }

  /** `calls` are those of the start, and so is the answer about them. */
  lemma AnswerOfStart(start: State, s: State, h: HandlerId, hd: Handler, steps: seq<Step>, answer: Option<CallId>)
    requires Standing(start, s, h, hd, steps) && IsDuplicateAnswer(s, hd.seen.sender, hd.seen.meta, answer)
    ensures answer.Some? <==> HasNear(start, hd.seen)
    ensures answer.Some? ==> Matches(start, hd.seen.sender, hd.seen.meta, answer.value)
  {
    hide Ran, Near;
    forall id
      ensures Matches(s, hd.seen.sender, hd.seen.meta, id) == Matches(start, hd.seen.sender, hd.seen.meta, id)
    {
    }
  }

  predicate DueAfter(start: State, hd: Handler)
    requires hd.row in start.rows && hd.stage.Received?
  {
    var counted := CountFailure(start.rows[hd.row], Sha(hd.stage.audio), start.now);
    hd.legacy && ShouldQuarantine(start.cfg, counted.failCount, counted.failFirst.value, start.now)
  }

  lemma DueIsCounted(start: State, s: State, h: HandlerId, hd: Handler, failing: Handler, steps: seq<Step>)
    requires Standing(start, s, h, failing, steps) && hd.stage.Received? && failing.stage.Failing?
    requires failing == hd.(stage := failing.stage) && failing.stage.audio == hd.stage.audio
    ensures DueAfter(start, hd) <==>
      hd.legacy && ShouldQuarantine(start.cfg, failing.stage.count, failing.stage.first, start.now)
  {
    hide Ran, ShouldQuarantine;
  }

  lemma SameFiles(start: State, s: State)
    requires s.files == start.files
    ensures NoNewFiles(start, s)
  {
  }

  lemma RemovalCommutes(s: State, h: HandlerId, saved: bool, removed: bool)
    requires CanAbort(s, h) && RowOf(s, h).status.Uploading?
    ensures var r := s.handlers[h].row;
      var cleared := AbortFiles(s, h, removed);
      DoAbort(s, h, saved, removed) == cleared.(handlers := s.handlers - {h},
        rows := if saved then s.rows[r := s.rows[r].(status := Pending, lease := None)] else s.rows)
  {
    IngestionFrames.AbortFilesOnly(s, h, removed);
    IngestionFrames.AbortFilesOnly(Returned(s, h, saved), h, removed);
  }

  /** Rows under other tokens are as they were. */
  predicate OthersKept(s: State, s': State, token: Ingestion.Token) {
    && s'.rows.Keys == s.rows.Keys
    && forall r | r in s.rows && s.rows[r].token != token :: s'.rows[r] == s.rows[r]
  }

  lemma NothingRan(s: State)
    ensures Ran(s, [], s)
  {
  }

  /** The token finds one row only. */
  lemma ItsRow(start: State, s: State, h: HandlerId, hd: Handler, steps: seq<Step>)
    requires Standing(start, s, h, hd, steps)
    ensures hd.row in start.rows && hd.seen == start.rows[hd.row] && hd.seen.token == hd.token
    ensures s.now == start.now && s.cfg == start.cfg
    ensures forall r | r in start.rows && start.rows[r].token == hd.token :: r == hd.row
  {
  }

  lemma OverKept(start: State, s: State, h: HandlerId, hd: Handler, steps: seq<Step>)
    requires Over(start, s, h, hd.row, steps) && start.rows[hd.row].token == hd.token
    ensures Ran(start, steps, s) && s.handlers == start.handlers && s.calls == start.calls
    ensures OthersKept(start, s, hd.token)
  {
    hide Ran;
  }

  lemma BecomesKept(start: State, s: State, hd: Handler, audio: seq<int>, callId: CallId)
    requires Becomes(start, s, hd.row, audio, callId) && start.rows[hd.row].token == hd.token
    ensures OthersKept(start, s, hd.token)
  {
  }
}
