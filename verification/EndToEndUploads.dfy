/** What the end-to-end result gives for the uploads of this uploader. */
module EndToEndUploads {
  import opened Basics
  import opened EndToEnd
  import Spool
  import SpoolSafety
  import Origins = SpoolOrigins
  import Server = Ingestion
  import Frames = IngestionFrames
  import Owners = IngestionOwnership
  import Replies = IngestionReplies
  import Legacy = IngestionLegacy
  import Sources = IngestionSources
  import Bytes = IngestionBytes
  import Files = IngestionFiles

  /* ---- Confirmed means stored, unless a legacy request used the upload's token ---- */

  /** A call of the upload, or one near to it, was committed. */
  ghost predicate HadCallOrNear(s: Server.State, request: UploadRequest) {
    || Replies.HadNear(s, request.sender, request.call)
    || exists r :: Replies.KeptIn(s, request, r) && (Replies.HadCall(s, r) || Replies.HadSubmittedNear(s, r))
  }

  /** The server steps of the run bring legacy requests for these rows only. */
  predicate LegacyFor(w: World, steps: seq<Step>, rows: set<Server.RowId>)
    requires Possible(w, steps)
  {
    ServerRuns(w, steps);
    Legacy.RunRespects(w.server, ServerSteps(steps), rows)
  }

  lemma JustifiedByCall(s: Server.State, request: UploadRequest, rows: set<Server.RowId>)
    requires Replies.Justified(s, request) && Legacy.Within(s, rows)
    ensures HadCallOrNear(s, request) || exists r | r in rows ::
      Replies.KeptIn(s, request, r) && r in s.history.quarantined
  {
    if !Replies.HadNear(s, request.sender, request.call) {
      var r :| Replies.KeptIn(s, request, r) && Replies.Backed(s, r);
      hide Replies.HadCall, Replies.HadSubmittedNear;
    }
  }

  /** In every interleaving, timely or not, every completed upload had a call or a near call, unless its row is one
      that a legacy request used and that was quarantined, and is quarantined still if the server is in time. */
  lemma CompletedHadCall(cfg: Server.Config, now: int, steps: seq<Step>, rows: set<Server.RowId>, i: nat)
    requires Possible(Start(cfg, now), steps) && LegacyFor(Start(cfg, now), steps, rows)
    requires i < |Run(Start(cfg, now), steps).completed|
    ensures var w := Run(Start(cfg, now), steps);
      var request := w.completed[i].request;
      HadCallOrNear(w.server, request) ||
      exists r | r in rows :: Replies.KeptIn(w.server, request, r) && r in w.server.history.quarantined
        && (InTime(Start(cfg, now), steps) ==> w.server.rows[r].status.Quarantined?)
  {
    var w := Run(Start(cfg, now), steps);
    var request := w.completed[i].request;
    AtMostOnceAndConfirmed(cfg, now, steps);
    ServerRuns(Start(cfg, now), steps);
    Legacy.RunKeeps(Server.Start(cfg, now), ServerSteps(steps), rows);
    JustifiedByCall(w.server, request, rows);
    if !HadCallOrNear(w.server, request) {
      var r :| r in rows && Replies.KeptIn(w.server, request, r) && r in w.server.history.quarantined;
      if InTime(Start(cfg, now), steps) {
        ServerInTime(Start(cfg, now), steps);
        Owners.QuarantineStays(cfg, now, ServerSteps(steps), r);
      }
    }
  }

  /** So without legacy requests `Complete` writes the ledger only for uploads of which a call, or a near-duplicate,
      has existed, whatever the timing. */
  lemma LedgerMeansCall(cfg: Server.Config, now: int, steps: seq<Step>, fingerprint: string)
    requires Possible(Start(cfg, now), steps) && LegacyFor(Start(cfg, now), steps, {})
    requires fingerprint in Ledger(Run(Start(cfg, now), steps).spool)
    ensures var w := Run(Start(cfg, now), steps);
      fingerprint in w.noted ||
      exists i | 0 <= i < |w.completed| ::
        w.completed[i].fingerprint == fingerprint && HadCallOrNear(w.server, w.completed[i].request)
  {
    var w := Run(Start(cfg, now), steps);
    AtMostOnceAndConfirmed(cfg, now, steps);
    assert Accounted(w, fingerprint);
    if fingerprint !in w.noted {
      var i :| 0 <= i < |w.completed| && w.completed[i].fingerprint == fingerprint;
      CompletedHadCall(cfg, now, steps, {}, i);
    }
  }

  /* ---- One call per key of the uploader, whatever the timing ---- */

  /** The uploader gives the idempotency key as the source id too. When every request for a key does, the key has at
      most one call, however late handlers are. */
  lemma OneCallPerUpload(cfg: Server.Config, now: int, steps: seq<Step>, i: nat, j: nat)
    requires Possible(Start(cfg, now), steps) && i < j < |Run(Start(cfg, now), steps).server.history.committed|
    requires var c := Run(Start(cfg, now), steps).server.history.committed[i];
      c.key != "" && forall k | 0 <= k < |steps| && steps[k].ServerStep? ::
        Sources.AsksBySource(steps[k].step, c.sender, c.key)
    ensures var committed := Run(Start(cfg, now), steps).server.history.committed;
      committed[i].sender != committed[j].sender || committed[i].key != committed[j].key
  {
    ServerRuns(Start(cfg, now), steps);
    var c := Run(Start(cfg, now), steps).server.history.committed[i];
    AskedInPart(steps, c.sender, c.key);
    Sources.OneCallPerSourceKey(cfg, now, ServerSteps(steps), i, j);
  }

  lemma {:induction false} AskedInPart(steps: seq<Step>, sender: string, key: string)
    requires forall k | 0 <= k < |steps| && steps[k].ServerStep? :: Sources.AsksBySource(steps[k].step, sender, key)
    ensures forall k | 0 <= k < |ServerSteps(steps)| :: Sources.AsksBySource(ServerSteps(steps)[k], sender, key)
    decreases |steps|
  {
    hide Sources.AsksBySource;
    if steps != [] { AskedInPart(steps[1..], sender, key); }
  }

  /* ---- The stored bytes are the recording's ---- */

  function EventOf(step: Step): Option<Spool.Event> {
    match step
    case SpoolStep(e) => Some(e)
    case WorkerClaims(worker, now, pick, _) => Some(Spool.Claim(worker, now, pick))
    case WorkerFails(worker, failure, now, fate) => Some(Spool.Retry(worker, failure, now, fate))
    case WorkerCompletes(worker, fate) => Some(Spool.Complete(worker, fate))
    case _ => None
  }

  lemma SpoolPart(w: World, step: Step)
    requires Enabled(w, step)
    ensures if EventOf(step).Some?
      then Spool.Enabled(w.spool, EventOf(step).value)
        && Apply(w, step).spool == Spool.Apply(w.spool, EventOf(step).value)
      else Apply(w, step).spool == w.spool
  {
    hide Spool.Enabled, Spool.Apply, Server.Enabled, Server.Next;
  }

  /** A body that the server receives under a token of this key is the audio file that a worker sent with it. */
  predicate SendsRecording(w: World, step: Step, key: string) {
    step.ServerStep? && step.step.Receive? && step.step.h in w.server.handlers ==>
      var hd := w.server.handlers[step.step.h];
      hd.seen.key == key ==> (hd.token, step.step.audio) in w.sent
  }

  predicate SendsRecordings(w: World, steps: seq<Step>, key: string)
    requires Possible(w, steps)
    decreases |steps|
  {
    steps == [] || (SendsRecording(w, steps[0], key) && SendsRecordings(Apply(w, steps[0]), steps[1..], key))
  }

  predicate QueuesOnly(step: Step, recordings: set<(UploadRequest, seq<int>)>) {
    EventOf(step).Some? ==> Origins.QueuesOnly(EventOf(step).value, recordings)
  }

  predicate HasRecording(recordings: set<(UploadRequest, seq<int>)>, key: string, audio: seq<int>) {
    exists r | r in recordings :: r.0.key == key && r.1 == audio
  }

  function BytesUnder(recordings: set<(UploadRequest, seq<int>)>, key: string): set<seq<int>> {
    set r | r in recordings && r.0.key == key :: r.1
  }

  /** What was sent with a token is a recording under the key of the token's row. */
  ghost predicate SentInv(s: Server.State, sent: set<(Server.Token, seq<int>)>,
        recordings: set<(UploadRequest, seq<int>)>) {
    forall t, audio | (t, audio) in sent ::
      && t in s.history.issued && s.history.issued[t] in s.rows
      && HasRecording(recordings, s.rows[s.history.issued[t]].key, audio)
  }

  ghost predicate RecordingsInv(w: World, recordings: set<(UploadRequest, seq<int>)>, key: string) {
    && Inv(w) && Files.Inv(w.server) && Origins.HoldsOnly(w.spool.s.disk, recordings)
    && SentInv(w.server, w.sent, recordings) && Bytes.BytesInv(w.server, key, BytesUnder(recordings, key))
  }

  lemma SentGrows(s: Server.State, s': Server.State, sent: set<(Server.Token, seq<int>)>,
        recordings: set<(UploadRequest, seq<int>)>)
    requires SentInv(s, sent, recordings) && Replies.Grows(s, s')
    ensures SentInv(s', sent, recordings)
  {
    hide HasRecording;
  }

  /** What a worker holds is a queued recording, on disk with its bytes. */
  lemma HeldIsRecording(spool: Spool.World, worker: nat, recordings: set<(UploadRequest, seq<int>)>)
    requires SpoolSafety.Inv(spool) && Holds(spool, worker) && Origins.HoldsOnly(spool.s.disk, recordings)
    ensures var name := spool.s.memory.value.items[spool.held[worker]].directory;
      && name in spool.s.disk.pending && spool.s.disk.pending[name].audio.Some?
      && HasRecording(recordings, Held(spool, worker).request.key, spool.s.disk.pending[name].audio.value)
  {
    var id := spool.held[worker];
    var item := spool.s.memory.value.items[id];
    assert item.directory == Spool.Named(id) && item.directory in spool.s.disk.pending;
    var d := spool.s.disk.pending[item.directory];
    assert SpoolSafety.SameRecording(item.manifest, d.manifest.value);
    assert (d.manifest.value.request, d.audio.value) in recordings;
  }

  lemma TokenIsForRequest(w: World, step: Step)
    requires PhasesInv(w) && Replies.RepliesBacked(w.server) && Enabled(w, step)
    requires step.WorkerHearsMetadata? && step.reply.CreatedToken?
    ensures Holds(w.spool, step.worker) && step.reply.token in w.server.history.issued
    ensures var r := w.server.history.issued[step.reply.token];
      r in w.server.rows && w.server.rows[r].key == Held(w.spool, step.worker).request.key
  {
    assert Replies.ReplyBacked(w.server, step.reply);
    assert IsRequestFor(w.phases[step.worker].request, Held(w.spool, step.worker));
  }

  lemma HearSends(w: World, step: Step, recordings: set<(UploadRequest, seq<int>)>)
    requires Inv(w) && Origins.HoldsOnly(w.spool.s.disk, recordings) && SentInv(w.server, w.sent, recordings)
    requires Enabled(w, step) && step.WorkerHearsMetadata?
    ensures SentInv(w.server, Apply(w, step).sent, recordings)
  {
    if step.reply.CreatedToken? {
      TokenIsForRequest(w, step);
      HeldIsRecording(w.spool, step.worker, recordings);
    }
    hide Inv, Origins.HoldsOnly, HasRecording;
  }

  lemma SentIsKeyed(w: World, step: Step, recordings: set<(UploadRequest, seq<int>)>, key: string)
    requires SentInv(w.server, w.sent, recordings) && Frames.SeenInv(w.server)
    requires step.ServerStep? && SendsRecording(w, step, key)
    ensures Bytes.Receives(w.server, step.step, key, BytesUnder(recordings, key))
  {
    var s := step.step;
    if s.Receive? && s.h in w.server.handlers && w.server.handlers[s.h].seen.key == key {
      assert HasRecording(recordings, key, s.audio);
    }
  }

  lemma ServerPartKeeps(w: World, step: Step, recordings: set<(UploadRequest, seq<int>)>, key: string)
    requires RecordingsInv(w, recordings, key) && Enabled(w, step) && step.ServerStep? && SendsRecording(w, step, key)
    ensures RecordingsInv(Apply(w, step), recordings, key)
  {
    assert Frames.SeenInv(w.server) && Replies.RepliesInv(w.server) && Files.WorkInv(w.server);
    SentIsKeyed(w, step, recordings, key);
    StepKeeps(w, step);
    hide Inv, Files.Inv, Files.WorkInv, Origins.HoldsOnly, SentInv, Bytes.BytesInv, BytesUnder, Frames.SeenInv;
    hide Replies.RepliesInv, Replies.Grows, Server.Enabled, Server.Next, Bytes.Receives;
    Bytes.StepKeeps(w.server, step.step, key, BytesUnder(recordings, key));
    Files.StepKeeps(w.server, step.step);
    Replies.StepKeepsReplies(w.server, step.step);
    SentGrows(w.server, Server.Next(w.server, step.step), w.sent, recordings);
  }

  lemma SpoolPartKeeps(w: World, step: Step, recordings: set<(UploadRequest, seq<int>)>)
    requires SpoolSafety.Inv(w.spool) && Origins.HoldsOnly(w.spool.s.disk, recordings)
    requires Enabled(w, step) && QueuesOnly(step, recordings)
    ensures Origins.HoldsOnly(Apply(w, step).spool.s.disk, recordings)
  {
    SpoolPart(w, step);
    hide Enabled, Apply, SpoolSafety.Inv, SpoolSafety.StateKeeps, Origins.HoldsOnly;
    if EventOf(step).Some? { Origins.StepHolds(w.spool, EventOf(step).value, recordings); }
  }

  lemma SameSent(w: World, step: Step)
    requires Enabled(w, step) && !step.WorkerHearsMetadata?
    ensures Apply(w, step).sent == w.sent
  {
    hide Spool.Apply, Spool.Enabled, Server.Next, Server.Enabled;
  }

  lemma OtherPartKeeps(w: World, step: Step, recordings: set<(UploadRequest, seq<int>)>, key: string)
    requires RecordingsInv(w, recordings, key) && Enabled(w, step) && !step.ServerStep? && QueuesOnly(step, recordings)
    ensures RecordingsInv(Apply(w, step), recordings, key)
  {
    assert SpoolSafety.Inv(w.spool);
    hide Inv, SpoolSafety.Inv, SpoolSafety.StateKeeps, Files.Inv, Origins.HoldsOnly, SentInv, Bytes.BytesInv;
    hide BytesUnder, Enabled, Apply;
    StepKeeps(w, step);
    ServerPart(w, step);
    SpoolPartKeeps(w, step, recordings);
    if step.WorkerHearsMetadata? { HearSends(w, step, recordings); } else { SameSent(w, step); }
  }

  lemma {:induction false} RecordingsRun(w: World, steps: seq<Step>, recordings: set<(UploadRequest, seq<int>)>,
        key: string)
    requires RecordingsInv(w, recordings, key) && Possible(w, steps) && SendsRecordings(w, steps, key)
    requires forall i | 0 <= i < |steps| :: QueuesOnly(steps[i], recordings)
    ensures RecordingsInv(Run(w, steps), recordings, key)
    decreases |steps|
  {
    hide RecordingsInv, Enabled, Apply, SendsRecording, QueuesOnly;
    if steps != [] {
      var step := steps[0];
      if step.ServerStep? {
        ServerPartKeeps(w, step, recordings, key);
      } else {
        OtherPartKeeps(w, step, recordings, key);
      }
      RecordingsRun(Apply(w, step), steps[1..], recordings, key);
    }
  }

  /** When the bodies that arrive under the tokens of a key are the files that workers sent with them, every call of
      the key is stored with the digest of a recording that was queued under it, whatever the timing, and however long
      a body takes. */
  lemma StoredIsRecorded(cfg: Server.Config, now: int, steps: seq<Step>, recordings: set<(UploadRequest, seq<int>)>,
        i: nat)
    requires Possible(Start(cfg, now), steps) && forall k | 0 <= k < |steps| :: QueuesOnly(steps[k], recordings)
    requires i < |Run(Start(cfg, now), steps).server.history.committed|
    requires SendsRecordings(Start(cfg, now), steps, Run(Start(cfg, now), steps).server.history.committed[i].key)
    ensures var s := Run(Start(cfg, now), steps).server;
      var c := s.history.committed[i];
      c.callId in s.calls && exists r | r in recordings ::
        r.0.key == c.key && s.calls[c.callId].digest == Server.Sha(r.1)
  {
    var s := Run(Start(cfg, now), steps).server;
    var c := s.history.committed[i];
    StartInv(cfg, now);
    Sources.StartSources(cfg, now);
    RecordingsRun(Start(cfg, now), steps, recordings, c.key);
    assert Bytes.Holds(s, c.callId, BytesUnder(recordings, c.key));
    var r :| r in recordings && r.0.key == c.key && r.1 == s.calls[c.callId].digest.content;
  }
}
