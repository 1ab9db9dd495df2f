/** Uploader and server together: spool workers send, replies may get lost, either side may crash and restart. */
module EndToEnd {
  import opened Basics
  import Spool
  import SpoolSafety
  import Server = Ingestion
  import Frames = IngestionFrames
  import Owners = IngestionOwnership
  import Replies = IngestionReplies

  /** Where a worker stands with the item it holds. */
  datatype Phase =
    | Asking(request: UploadRequest)
    | Sending(request: UploadRequest, token: Server.Token)
    | Confirmed(request: UploadRequest)

  /** A ledger line written by `Complete`, and the request that was confirmed for it. */
  datatype Entry = Entry(fingerprint: string, request: UploadRequest)

  /** `completed` and `noted` record, for stating the results, who wrote the ledger: `Complete` or `Remember`; `sent`
      the tokens that workers were given and the audio file of the item each held then. */
  datatype World = World(
    spool: Spool.World, server: Server.State, phases: map<nat, Phase>, completed: seq<Entry>, noted: set<string>,
    sent: set<(Server.Token, seq<int>)>)

  function Start(cfg: Server.Config, now: int): World {
    World(Spool.FRESH, Server.Start(cfg, now), map[], [], {}, {})
  }

  /** `sender` on a claim: a worker without credentials for the item's sender may use another's. */
  datatype Step =
    | ServerStep(step: Server.Step)
    | SpoolStep(event: Spool.Event)
    | WorkerClaims(worker: nat, now: int, pick: Spool.ItemId, sender: string)
    | WorkerHearsMetadata(worker: nat, reply: Server.Reply)
    | WorkerHearsAudio(worker: nat, reply: Server.Reply)
    | WorkerFails(worker: nat, failure: string, now: int, retryFate: Spool.RetryFate)
    | WorkerCompletes(worker: nat, completeFate: Spool.CompleteFate)

  /** Steps of the spool that no worker takes. */
  predicate IsHousekeeping(e: Spool.Event) { e.Open? || e.Queue? || e.Remember? || e.Crash? }

  /** A reply to the metadata request that `Upload` takes as success. */
  predicate AnswersMetadata(reply: Server.Reply, request: UploadRequest) {
    (reply.CreatedDuplicate? || reply.CreatedDone? || reply.CreatedToken?) && reply.request == request
  }

  predicate AnswersAudio(reply: Server.Reply, token: Server.Token) {
    match reply
    case AudioDone(t, _) => t == token
    case AudioDuplicate(t, _) => t == token
    case AudioStored(t, _) => t == token
    case AudioQuarantined(t) => t == token
    case _ => false
  }

  /** Replies arrive only if the server gave them; that a reply is lost is simply that no one hears it. */
  predicate Enabled(w: World, step: Step) {
    match step
    case ServerStep(s) => Server.Enabled(w.server, s)
    case SpoolStep(e) => IsHousekeeping(e) && Spool.Enabled(w.spool, e)
    case WorkerClaims(worker, now, pick, _) => Spool.Enabled(w.spool, Spool.Claim(worker, now, pick))
    case WorkerHearsMetadata(worker, reply) =>
      && worker in w.phases && w.phases[worker].Asking?
      && reply in w.server.history.replies && AnswersMetadata(reply, w.phases[worker].request)
    case WorkerHearsAudio(worker, reply) =>
      && worker in w.phases && w.phases[worker].Sending?
      && reply in w.server.history.replies && AnswersAudio(reply, w.phases[worker].token)
    case WorkerFails(worker, failure, now, fate) =>
      worker in w.phases && Spool.Enabled(w.spool, Spool.Retry(worker, failure, now, fate))
    case WorkerCompletes(worker, fate) =>
      worker in w.phases && w.phases[worker].Confirmed? && Spool.Enabled(w.spool, Spool.Complete(worker, fate))
  }

  function Without(phases: map<nat, Phase>, worker: nat): map<nat, Phase> {
    map other | other in phases && other != worker :: phases[other]
  }

  /** The workers die with their process. */
  function Settle(w: World, spool: Spool.World, phases: map<nat, Phase>): World {
    w.(spool := spool, phases := if spool.s.memory.None? then map[] else phases)
  }

  function Heard(phase: Phase, reply: Server.Reply): Phase {
    if reply.CreatedToken? then Sending(phase.request, reply.token) else Confirmed(phase.request)
  }

  function Apply(w: World, step: Step): World
    requires Enabled(w, step)
  {
    match step
    case ServerStep(s) => w.(server := Server.Next(w.server, s))
    case SpoolStep(e) =>
      var noted := if e.Remember? then w.noted + {e.fingerprint} else w.noted;
      Settle(w, Spool.Apply(w.spool, e), w.phases).(noted := noted)
    case WorkerClaims(worker, now, pick, sender) =>
      var request := w.spool.s.memory.value.items[pick].manifest.request.(sender := sender);
      Settle(w, Spool.Apply(w.spool, Spool.Claim(worker, now, pick)), w.phases[worker := Asking(request)])
    case WorkerHearsMetadata(worker, reply) =>
      w.(phases := w.phases[worker := Heard(w.phases[worker], reply)], sent := w.sent + Sends(w.spool, worker, reply))
    case WorkerHearsAudio(worker, reply) => w.(phases := w.phases[worker := Confirmed(w.phases[worker].request)])
    case WorkerFails(worker, failure, now, fate) =>
      Settle(w, Spool.Apply(w.spool, Spool.Retry(worker, failure, now, fate)), Without(w.phases, worker))
    case WorkerCompletes(worker, fate) => Finish(w, Spool.Apply(w.spool, Spool.Complete(worker, fate)), worker)
  }

  /** A worker's `Complete` left the spool at `spool`; a longer ledger means that its line was kept. */
  function Finish(w: World, spool: Spool.World, worker: nat): World
    requires worker in w.phases
  {
    var completed :=
      if |spool.s.disk.ledger| == |w.spool.s.disk.ledger| || !Holds(w.spool, worker) then w.completed
      else w.completed + [Entry(Held(w.spool, worker).fingerprint, w.phases[worker].request)];
    Settle(w, spool, Without(w.phases, worker)).(completed := completed)
  }

  predicate Holds(spool: Spool.World, worker: nat) {
    spool.s.memory.Some? && worker in spool.held && spool.held[worker] in spool.s.memory.value.items
  }

  /** With a token in hand the worker sends its item's audio file. */
  function Sends(spool: Spool.World, worker: nat, reply: Server.Reply): set<(Server.Token, seq<int>)> {
    if reply.CreatedToken? && Holds(spool, worker) then
      var name := spool.s.memory.value.items[spool.held[worker]].directory;
      if name in spool.s.disk.pending && spool.s.disk.pending[name].audio.Some?
      then {(reply.token, spool.s.disk.pending[name].audio.value)}
      else {}
    else {}
  }

  /** The manifest of the item a worker holds. */
  function Held(spool: Spool.World, worker: nat): Spool.Manifest
    requires Holds(spool, worker)
  {
    spool.s.memory.value.items[spool.held[worker]].manifest
  }

  predicate Possible(w: World, steps: seq<Step>)
    decreases |steps|
  {
    steps == [] || (Enabled(w, steps[0]) && Possible(Apply(w, steps[0]), steps[1..]))
  }

  function Run(w: World, steps: seq<Step>): World
    requires Possible(w, steps)
    decreases |steps|
  {
    if steps == [] then w else Run(Apply(w, steps[0]), steps[1..])
  }

  /** The run meets the server's assumptions on timing. */
  predicate InTime(w: World, steps: seq<Step>)
    requires Possible(w, steps)
    decreases |steps|
  {
    steps == [] || (Timely(w, steps[0]) && InTime(Apply(w, steps[0]), steps[1..]))
  }

  predicate Timely(w: World, step: Step) { step.ServerStep? ==> Server.Timely(w.server, step.step) }

  /* ---- The invariant ---- */

  ghost predicate ServerInv(s: Server.State) { Frames.SeenInv(s) && Replies.RepliesInv(s) }

  ghost predicate PhaseBacked(s: Server.State, phase: Phase) {
    match phase
    case Asking(_) => true
    case Sending(request, token) => token in s.history.issued && Replies.KeptIn(s, request, s.history.issued[token])
    case Confirmed(request) => Replies.Justified(s, request)
  }

  /** A worker uploads the recording it holds; what it takes as confirmed is justified. */
  ghost predicate PhasesInv(w: World) {
    forall worker | worker in w.phases ::
      && Holds(w.spool, worker) && IsRequestFor(w.phases[worker].request, Held(w.spool, worker))
      && PhaseBacked(w.server, w.phases[worker])
  }

  predicate IsRequestFor(request: UploadRequest, m: Spool.Manifest) { request == m.request.(sender := request.sender) }

  ghost predicate Accounted(w: World, fingerprint: string) {
    fingerprint in w.noted || exists i :: 0 <= i < |w.completed| && w.completed[i].fingerprint == fingerprint
  }

  /** The ledger holds remembered fingerprints and completed ones, and every completed one was justified. */
  ghost predicate LedgerInv(w: World) {
    && (forall fingerprint | fingerprint in Ledger(w.spool) :: Accounted(w, fingerprint))
    && (forall i | 0 <= i < |w.completed| :: Replies.Justified(w.server, w.completed[i].request))
  }

  function Ledger(spool: Spool.World): set<string> { Spool.LedgerFingerprints(spool.s.disk.ledger) }

  ghost predicate Inv(w: World) {
    ServerInv(w.server) && SpoolSafety.Inv(w.spool) && PhasesInv(w) && LedgerInv(w)
  }

  /* ---- Server steps ---- */

  lemma PhaseGrows(s: Server.State, s': Server.State, phase: Phase)
    requires Replies.Grows(s, s') && PhaseBacked(s, phase)
    ensures PhaseBacked(s', phase)
  {
    if phase.Confirmed? { Replies.JustifiedGrows(s, s', phase.request); }
  }

  lemma ServerPhases(w: World, server: Server.State)
    requires PhasesInv(w) && Replies.Grows(w.server, server)
    ensures PhasesInv(w.(server := server))
  {
    hide Replies.Grows, PhaseBacked;
    forall worker | worker in w.phases ensures PhaseBacked(server, w.phases[worker]) {
      PhaseGrows(w.server, server, w.phases[worker]);
    }
  }

  lemma ServerLedger(w: World, server: Server.State)
    requires LedgerInv(w) && Replies.Grows(w.server, server)
    ensures LedgerInv(w.(server := server))
  {
    hide Replies.Grows, Replies.Justified;
    forall i | 0 <= i < |w.completed| ensures Replies.Justified(server, w.completed[i].request) {
      Replies.JustifiedGrows(w.server, server, w.completed[i].request);
    }
    forall fingerprint | fingerprint in Ledger(w.spool) ensures Accounted(w.(server := server), fingerprint) {
      assert Accounted(w, fingerprint);
    }
  }

  lemma ServerKeeps(w: World, step: Server.Step)
    requires Inv(w) && Enabled(w, ServerStep(step))
    ensures Inv(Apply(w, ServerStep(step)))
  {
    hide Frames.SeenInv, Replies.RepliesInv, Replies.Grows, SpoolSafety.Inv;
    hide PhasesInv, LedgerInv, Server.Next, Server.Enabled;
    Replies.StepKeepsReplies(w.server, step);
    Frames.SeenKeeps(w.server, step);
    ServerPhases(w, Server.Next(w.server, step));
    ServerLedger(w, Server.Next(w.server, step));
  }

  /* ---- Spool steps ---- */

  /** Every other worker keeps its item. */
  predicate OthersHold(spool: Spool.World, spool': Spool.World, worker: nat) {
    spool'.s.memory.Some? ==>
      forall other | other in spool.held && other != worker && Holds(spool, other) ::
        Holds(spool', other) && Held(spool', other) == Held(spool, other)
  }

  lemma ClaimOthers(spool: Spool.World, e: Spool.Event)
    requires Spool.Enabled(spool, e) && e.Claim?
    ensures OthersHold(spool, Spool.Apply(spool, e), e.worker)
  {
  }

  lemma RetryOthers(spool: Spool.World, e: Spool.Event)
    requires SpoolSafety.WorkersInv(spool) && Spool.Enabled(spool, e) && e.Retry?
    ensures OthersHold(spool, Spool.Apply(spool, e), e.worker)
  {
  }

  lemma CompleteOthers(spool: Spool.World, e: Spool.Event)
    requires SpoolSafety.WorkersInv(spool) && Spool.Enabled(spool, e) && e.Complete?
    ensures OthersHold(spool, Spool.Apply(spool, e), e.worker)
  {
  }

  lemma HousekeepingHolds(spool: Spool.World, e: Spool.Event, worker: nat)
    requires Spool.Enabled(spool, e) && IsHousekeeping(e) && Holds(spool, worker)
    ensures var spool' := Spool.Apply(spool, e);
      spool'.s.memory.Some? ==> Holds(spool', worker) && Held(spool', worker) == Held(spool, worker)
  {
  }

  /** What one event can add to the ledger. */
  lemma LedgerGains(spool: Spool.World, e: Spool.Event)
    requires Spool.Enabled(spool, e) && !e.Complete?
    ensures Ledger(Spool.Apply(spool, e)) <= Ledger(spool) + (if e.Remember? then {e.fingerprint} else {})
  {
    match e
    case Open(Compacted(order)) => SpoolSafety.CompactionKeepsLedger(order, spool.s.disk.ledger);
    case Open(CrashAfterReplace(order)) => SpoolSafety.CompactionKeepsLedger(order, spool.s.disk.ledger);
    case Remember(fingerprint, _) => SpoolSafety.LoggedLedger(spool.s.disk, fingerprint);
    case _ =>
  }

  lemma CompleteGains(spool: Spool.World, e: Spool.Event)
    requires Spool.Enabled(spool, e) && e.Complete?
    ensures var spool' := Spool.Apply(spool, e);
      if Holds(spool, e.worker) && |spool'.s.disk.ledger| != |spool.s.disk.ledger|
      then Ledger(spool') <= Ledger(spool) + {Held(spool, e.worker).fingerprint}
      else Ledger(spool') == Ledger(spool)
  {
  }

  lemma SpoolPhases(w: World, spool': Spool.World, phases: map<nat, Phase>, worker: nat)
    requires PhasesInv(w) && OthersHold(w.spool, spool', worker)
    requires forall other | other in phases && other != worker :: other in w.phases && phases[other] == w.phases[other]
    requires worker in phases && spool'.s.memory.Some? ==>
      Holds(spool', worker) && IsRequestFor(phases[worker].request, Held(spool', worker))
        && PhaseBacked(w.server, phases[worker])
    ensures PhasesInv(Settle(w, spool', phases))
  {
    hide PhaseBacked;
  }

  /** The ledger may gain what is noted or completed in the same step. */
  lemma LedgerKept(w: World, w': World)
    requires LedgerInv(w) && w'.server == w.server && w.noted <= w'.noted && w.completed <= w'.completed
    requires forall fingerprint | fingerprint in Ledger(w'.spool) && fingerprint !in Ledger(w.spool) ::
      Accounted(w', fingerprint)
    requires forall i | |w.completed| <= i < |w'.completed| :: Replies.Justified(w'.server, w'.completed[i].request)
    ensures LedgerInv(w')
  {
    hide Replies.Justified;
    forall fingerprint | fingerprint in Ledger(w'.spool) && fingerprint in Ledger(w.spool)
      ensures Accounted(w', fingerprint)
    {
      assert Accounted(w, fingerprint);
      if fingerprint !in w.noted {
        var i :| 0 <= i < |w.completed| && w.completed[i].fingerprint == fingerprint;
        assert w'.completed[i] == w.completed[i];
      }
    }
  }

  lemma HousekeepingPhases(w: World, e: Spool.Event)
    requires PhasesInv(w) && Enabled(w, SpoolStep(e))
    ensures PhasesInv(Apply(w, SpoolStep(e)))
  {
    forall worker | worker in w.phases && Spool.Apply(w.spool, e).s.memory.Some?
      ensures Holds(Spool.Apply(w.spool, e), worker) && Held(Spool.Apply(w.spool, e), worker) == Held(w.spool, worker)
    {
      HousekeepingHolds(w.spool, e, worker);
    }
    hide PhaseBacked, Spool.Apply, Spool.Enabled;
  }

  lemma SpoolKeeps(w: World, e: Spool.Event)
    requires Inv(w) && Enabled(w, SpoolStep(e))
    ensures Inv(Apply(w, SpoolStep(e)))
  {
    hide ServerInv, SpoolSafety.Inv, SpoolSafety.StateKeeps, PhasesInv, LedgerInv, Spool.Apply, Spool.Enabled;
    SpoolSafety.StepKeeps(w.spool, e);
    LedgerGains(w.spool, e);
    HousekeepingPhases(w, e);
    LedgerKept(w, Apply(w, SpoolStep(e)));
  }

  lemma ClaimHolds(spool: Spool.World, e: Spool.Event)
    requires Spool.Enabled(spool, e) && e.Claim?
    ensures Holds(Spool.Apply(spool, e), e.worker)
    ensures Held(Spool.Apply(spool, e), e.worker) == spool.s.memory.value.items[e.pick].manifest
  {
  }

  lemma ClaimKeeps(w: World, step: Step)
    requires Inv(w) && Enabled(w, step) && step.WorkerClaims?
    ensures Inv(Apply(w, step))
  {
    var e := Spool.Claim(step.worker, step.now, step.pick);
    var spool' := Spool.Apply(w.spool, e);
    var request := w.spool.s.memory.value.items[step.pick].manifest.request.(sender := step.sender);
    hide ServerInv, SpoolSafety.Inv, SpoolSafety.StateKeeps, PhasesInv;
    hide LedgerInv, OthersHold, Spool.Apply, Spool.Enabled;
    SpoolSafety.StepKeeps(w.spool, e);
    LedgerGains(w.spool, e);
    ClaimOthers(w.spool, e);
    ClaimHolds(w.spool, e);
    SpoolPhases(w, spool', w.phases[step.worker := Asking(request)], step.worker);
    LedgerKept(w, Apply(w, step));
  }

  lemma FailKeeps(w: World, step: Step)
    requires Inv(w) && Enabled(w, step) && step.WorkerFails?
    ensures Inv(Apply(w, step))
  {
    var e := Spool.Retry(step.worker, step.failure, step.now, step.retryFate);
    hide ServerInv, SpoolSafety.Inv, SpoolSafety.StateKeeps, PhasesInv;
    hide LedgerInv, OthersHold, Spool.Apply, Spool.Enabled;
    SpoolSafety.StepKeeps(w.spool, e);
    LedgerGains(w.spool, e);
    assert OthersHold(w.spool, Spool.Apply(w.spool, e), step.worker) by {
      InvWorkers(w.spool);
      RetryOthers(w.spool, e);
    }
    SpoolPhases(w, Spool.Apply(w.spool, e), Without(w.phases, step.worker), step.worker);
    LedgerKept(w, Apply(w, step));
  }

  lemma ConfirmedHolds(w: World, worker: nat)
    requires PhasesInv(w) && worker in w.phases && w.phases[worker].Confirmed?
    ensures Holds(w.spool, worker) && Replies.Justified(w.server, w.phases[worker].request)
  {
  }

  lemma EntryAccounted(w: World, entry: Entry)
    requires |w.completed| > 0 && w.completed[|w.completed| - 1] == entry
    ensures Accounted(w, entry.fingerprint)
  {
  }

  lemma FinishLedger(w: World, spool': Spool.World, worker: nat)
    requires LedgerInv(w) && worker in w.phases && Replies.Justified(w.server, w.phases[worker].request)
    requires if Holds(w.spool, worker) && |spool'.s.disk.ledger| != |w.spool.s.disk.ledger|
      then Ledger(spool') <= Ledger(w.spool) + {Held(w.spool, worker).fingerprint}
      else Ledger(spool') == Ledger(w.spool)
    ensures LedgerInv(Finish(w, spool', worker))
  {
    hide LedgerInv, Replies.Justified, Accounted;
    var w' := Finish(w, spool', worker);
    if w'.completed != w.completed { EntryAccounted(w', w'.completed[|w.completed|]); }
    LedgerKept(w, w');
  }

  lemma CompleteKeeps(w: World, step: Step)
    requires Inv(w) && Enabled(w, step) && step.WorkerCompletes?
    ensures Inv(Apply(w, step))
  {
    var e := Spool.Complete(step.worker, step.completeFate);
    hide ServerInv, SpoolSafety.Inv, SpoolSafety.StateKeeps, PhasesInv;
    hide LedgerInv, OthersHold, Spool.Apply, Spool.Enabled, Replies.Justified;
    var spool' := Spool.Apply(w.spool, e);
    SpoolSafety.StepKeeps(w.spool, e);
    assert OthersHold(w.spool, spool', step.worker) by { InvWorkers(w.spool); CompleteOthers(w.spool, e); }
    SpoolPhases(w, spool', Without(w.phases, step.worker), step.worker);
    SamePhases(Settle(w, spool', Without(w.phases, step.worker)), Finish(w, spool', step.worker));
    ConfirmedHolds(w, step.worker);
    CompleteGains(w.spool, e);
    FinishLedger(w, spool', step.worker);
  }

  lemma InvWorkers(spool: Spool.World)
    requires SpoolSafety.Inv(spool)
    ensures SpoolSafety.WorkersInv(spool)
  {
  }

  lemma SamePhases(w: World, w': World)
    requires PhasesInv(w) && w'.spool == w.spool && w'.server == w.server && w'.phases == w.phases
    ensures PhasesInv(w')
  {
  }

  lemma HeardPhases(w: World, worker: nat, phase: Phase)
    requires PhasesInv(w) && worker in w.phases && phase.request == w.phases[worker].request
    requires PhaseBacked(w.server, phase)
    ensures PhasesInv(w.(phases := w.phases[worker := phase]))
  {
    hide PhaseBacked;
  }

  lemma HeardBacked(w: World, step: Step)
    requires Replies.RepliesBacked(w.server) && PhasesInv(w) && Enabled(w, step)
    requires (step.WorkerHearsMetadata? || step.WorkerHearsAudio?)
    ensures PhaseBacked(w.server, Apply(w, step).phases[step.worker])
  {
    assert Replies.ReplyBacked(w.server, step.reply);
    assert PhaseBacked(w.server, w.phases[step.worker]);
    if step.WorkerHearsAudio? { AudioJustifies(w.server, w.phases[step.worker], step.reply); }
    hide Replies.Justified, Replies.KeptIn, Replies.Backed;
  }

  lemma HearKeeps(w: World, step: Step)
    requires Inv(w) && Enabled(w, step) && (step.WorkerHearsMetadata? || step.WorkerHearsAudio?)
    ensures Inv(Apply(w, step))
  {
    hide Frames.SeenInv, Replies.RepliesBacked, SpoolSafety.Inv, PhasesInv, LedgerInv, PhaseBacked;
    HeardBacked(w, step);
    var phase := Apply(w, step).phases[step.worker];
    HeardPhases(w, step.worker, phase);
    SamePhases(w.(phases := w.phases[step.worker := phase]), Apply(w, step));
    LedgerKept(w, Apply(w, step));
  }

  lemma AudioJustifies(s: Server.State, phase: Phase, reply: Server.Reply)
    requires phase.Sending? && PhaseBacked(s, phase) && AnswersAudio(reply, phase.token)
    requires Replies.ReplyBacked(s, reply)
    ensures Replies.Justified(s, phase.request)
  {
    assert Replies.KeptIn(s, phase.request, s.history.issued[phase.token]);
    assert Replies.Backed(s, s.history.issued[phase.token]);
  }

  /** Every step of worker, spool or server, timely or not. */
  lemma StepKeeps(w: World, step: Step)
    requires Inv(w) && Enabled(w, step)
    ensures Inv(Apply(w, step))
  {
    hide Inv;
    match step
    case ServerStep(s) => ServerKeeps(w, s);
    case SpoolStep(e) => SpoolKeeps(w, e);
    case WorkerClaims(_, _, _, _) => ClaimKeeps(w, step);
    case WorkerHearsMetadata(_, _) => HearKeeps(w, step);
    case WorkerHearsAudio(_, _) => HearKeeps(w, step);
    case WorkerFails(_, _, _, _) => FailKeeps(w, step);
    case WorkerCompletes(_, _) => CompleteKeeps(w, step);
  }

  lemma {:induction false} RunKeeps(w: World, steps: seq<Step>)
    requires Inv(w) && Possible(w, steps)
    ensures Inv(Run(w, steps))
    decreases |steps|
  {
    hide Inv, Enabled, Apply;
    if steps != [] {
      StepKeeps(w, steps[0]);
      RunKeeps(Apply(w, steps[0]), steps[1..]);
    }
  }

  lemma StartInv(cfg: Server.Config, now: int)
    ensures Inv(Start(cfg, now))
  {
    Replies.StartReplies(cfg, now);
  }

  /* ---- The server's part of a run ---- */

  /** The server's part of a run. */
  function ServerSteps(steps: seq<Step>): seq<Server.Step>
    decreases |steps|
  {
    if steps == [] then []
    else (if steps[0].ServerStep? then [steps[0].step] else []) + ServerSteps(steps[1..])
  }

  lemma {:induction false} ServerRuns(w: World, steps: seq<Step>)
    requires Possible(w, steps)
    ensures Server.Possible(w.server, ServerSteps(steps))
    ensures Run(w, steps).server == Server.Run(w.server, ServerSteps(steps))
    decreases |steps|
  {
    if steps != [] {
      var rest := ServerSteps(steps[1..]);
      ServerRuns(Apply(w, steps[0]), steps[1..]);
      ServerPart(w, steps[0]);
      hide Enabled, Apply, Server.Enabled, Server.Next;
      if steps[0].ServerStep? {
        assert ServerSteps(steps) == [steps[0].step] + rest && ([steps[0].step] + rest)[1..] == rest;
      } else {
        assert ServerSteps(steps) == rest;
      }
    }
  }

  lemma ServerPart(w: World, step: Step)
    requires Enabled(w, step)
    ensures if step.ServerStep?
      then Server.Enabled(w.server, step.step) && Apply(w, step).server == Server.Next(w.server, step.step)
      else Apply(w, step).server == w.server
  {
    hide Spool.Apply, Spool.Enabled, Server.Next, Server.Enabled;
  }

  lemma {:induction false} ServerInTime(w: World, steps: seq<Step>)
    requires Possible(w, steps) && InTime(w, steps)
    ensures Server.Possible(w.server, ServerSteps(steps)) && Server.InTime(w.server, ServerSteps(steps))
    decreases |steps|
  {
    ServerRuns(w, steps);
    if steps != [] {
      var rest := ServerSteps(steps[1..]);
      ServerInTime(Apply(w, steps[0]), steps[1..]);
      ServerPart(w, steps[0]);
      hide Enabled, Apply, Server.Enabled, Server.Next, Server.Timely;
      if steps[0].ServerStep? {
        assert ServerSteps(steps) == [steps[0].step] + rest && ([steps[0].step] + rest)[1..] == rest;
      } else {
        assert ServerSteps(steps) == rest;
      }
    }
  }

  /* ---- End to end ---- */

  /** In every interleaving of workers, lost replies, aborted handlers and restarts of either side, every ledger line
      is a remembered fingerprint or was written by `Complete` for a request that is justified; and if the server is in
      time, one idempotency key of one sender has at most one call. */
  lemma AtMostOnceAndConfirmed(cfg: Server.Config, now: int, steps: seq<Step>)
    requires Possible(Start(cfg, now), steps)
    ensures var w := Run(Start(cfg, now), steps);
      var committed := w.server.history.committed;
      && (forall fingerprint | fingerprint in Ledger(w.spool) :: Accounted(w, fingerprint))
      && (forall i | 0 <= i < |w.completed| :: Replies.Justified(w.server, w.completed[i].request))
      && (InTime(Start(cfg, now), steps) ==>
            forall i, j | 0 <= i < j < |committed| && committed[i].key != "" ::
              committed[i].sender != committed[j].sender || committed[i].key != committed[j].key)
  {
    var w := Run(Start(cfg, now), steps);
    StartInv(cfg, now);
    RunKeeps(Start(cfg, now), steps);
    assert LedgerInv(w);
    if InTime(Start(cfg, now), steps) {
      ServerRuns(Start(cfg, now), steps);
      ServerInTime(Start(cfg, now), steps);
      var committed := w.server.history.committed;
      hide Inv, LedgerInv, Run, Possible, Server.Run;
      forall i, j | 0 <= i < j < |committed| && committed[i].key != ""
        ensures committed[i].sender != committed[j].sender || committed[i].key != committed[j].key
      {
        Owners.OneCallPerKey(cfg, now, ServerSteps(steps), i, j);
      }
    }
  }
}
