/** What a worker does with the server's answers: a success is taken as one, nothing else is, and a confirmed item
    leaves the spool. */
module EndToEndProgress {
  import opened Basics
  import opened EndToEnd
  import Spool
  import SpoolSafety
  import Server = Ingestion

  /** Only this worker's phase changes, and what it may have begun to send. */
  predicate Turns(w: World, w': World, worker: nat, phase: Phase) {
    && w' == w.(phases := w.phases[worker := phase], sent := w'.sent) && w.sent <= w'.sent
  }

  /** An answer to its metadata that reports a duplicate or a settled upload confirms the worker's item, and a token
      lets it send the audio. */
  lemma MetadataAnswerIsTaken(w: World, worker: nat, reply: Server.Reply) returns (step: Step)
    requires worker in w.phases && w.phases[worker].Asking? && reply in w.server.history.replies
    requires var request := w.phases[worker].request;
      match reply
      case CreatedDuplicate(r, _) => r == request
      case CreatedDone(r, _) => r == request
      case CreatedToken(r, _) => r == request
      case _ => false
    ensures Enabled(w, step)
    ensures var request := w.phases[worker].request;
      Turns(w, Apply(w, step), worker,
        match reply case CreatedToken(_, t) => Sending(request, t) case _ => Confirmed(request))
  {
    step := WorkerHearsMetadata(worker, reply);
  }

  lemma HeldDirectory(spool: Spool.World, worker: nat)
    requires SpoolSafety.Inv(spool) && Holds(spool, worker)
    ensures var item := spool.s.memory.value.items[spool.held[worker]];
      item.directory == Spool.Named(spool.held[worker]) && item.manifest.fingerprint != ""
  {
  }

  /** With the token it sends the audio that lies in its item's directory. */
  lemma TokenSendsTheFile(w: World, worker: nat, reply: Server.Reply)
    requires Inv(w) && Enabled(w, WorkerHearsMetadata(worker, reply)) && reply.CreatedToken?
    ensures Holds(w.spool, worker)
    ensures var name := Spool.Named(w.spool.held[worker]);
      && name in w.spool.s.disk.pending && w.spool.s.disk.pending[name].audio.Some?
      && Apply(w, WorkerHearsMetadata(worker, reply)).sent
         == w.sent + {(reply.token, w.spool.s.disk.pending[name].audio.value)}
  {
    hide ServerInv, LedgerInv, PhaseBacked;
    HeldDirectory(w.spool, worker);
    hide SpoolSafety.Inv;
  }

  /** So do the four good answers to its audio. */
  lemma AudioAnswerIsTaken(w: World, worker: nat, reply: Server.Reply) returns (step: Step)
    requires worker in w.phases && w.phases[worker].Sending? && reply in w.server.history.replies
    requires var token := w.phases[worker].token;
      match reply
      case AudioDone(t, _) => t == token
      case AudioDuplicate(t, _) => t == token
      case AudioStored(t, _) => t == token
      case AudioQuarantined(t) => t == token
      case _ => false
    ensures Enabled(w, step) && Turns(w, Apply(w, step), worker, Confirmed(w.phases[worker].request))
  {
    step := WorkerHearsAudio(worker, reply);
  }

  /** Nothing else confirms an item: a worker turns to `Confirmed` only on such an answer that the server gave. */
  lemma OnlySuccessConfirms(w: World, step: Step, worker: nat)
    requires Enabled(w, step) && worker in w.phases && !w.phases[worker].Confirmed?
    requires worker in Apply(w, step).phases && Apply(w, step).phases[worker].Confirmed?
    ensures exists reply :: reply in w.server.history.replies && Confirms(reply, w.phases[worker])
  {
    hide Spool.Apply, Spool.Enabled, Server.Next, Server.Enabled;
    match step
    case WorkerHearsMetadata(_, reply) => assert Confirms(reply, w.phases[worker]);
    case WorkerHearsAudio(_, reply) => assert Confirms(reply, w.phases[worker]);
    case _ =>
  }

  predicate Confirms(reply: Server.Reply, phase: Phase) {
    match reply
    case CreatedDuplicate(request, _) => phase == Asking(request)
    case CreatedDone(request, _) => phase == Asking(request)
    case AudioDone(token, _) => phase.Sending? && phase.token == token
    case AudioDuplicate(token, _) => phase.Sending? && phase.token == token
    case AudioStored(token, _) => phase.Sending? && phase.token == token
    case AudioQuarantined(token) => phase.Sending? && phase.token == token
    case _ => false
  }

  /** When completing works, the confirmed item's fingerprint is in the ledger and its directory gone, the item is
      forgotten and the worker free. */
  lemma ConfirmedIsCompleted(w: World, worker: nat)
    requires Inv(w) && worker in w.phases && w.phases[worker].Confirmed?
    ensures var step := WorkerCompletes(worker, Spool.Completed);
      && Holds(w.spool, worker) && Enabled(w, step)
      && var m, w' := Held(w.spool, worker), Apply(w, step);
      && w'.spool.s.disk.ledger == w.spool.s.disk.ledger + [Spool.Record(m.fingerprint)]
      && m.fingerprint in Ledger(w'.spool)
      && Spool.Named(w.spool.held[worker]) !in w'.spool.s.disk.pending
      && w'.spool.s.memory.Some? && w.spool.held[worker] !in w'.spool.s.memory.value.items
      && worker !in w'.phases && worker !in w'.spool.held
      && w'.completed == w.completed + [Entry(m.fingerprint, w.phases[worker].request)]
  {
    hide ServerInv, LedgerInv, PhaseBacked;
    assert Holds(w.spool, worker);
    var id := w.spool.held[worker];
    HeldDirectory(w.spool, worker);
    var m := Held(w.spool, worker);
    var longer := w.spool.s.disk.ledger + [Spool.Record(m.fingerprint)];
    assert longer[|w.spool.s.disk.ledger|] == Spool.Record(m.fingerprint);
    hide SpoolSafety.Inv;
  }

  /** So a recording of which the server says that it is a duplicate leaves the spool in two steps, and is in the ledger
      from then on. */
  lemma DuplicateLeavesTheSpool(w: World, worker: nat, callId: Server.CallId) returns (steps: seq<Step>)
    requires Inv(w) && worker in w.phases && w.phases[worker].Asking?
    requires Server.CreatedDuplicate(w.phases[worker].request, callId) in w.server.history.replies
    ensures |steps| == 2 && Possible(w, steps) && Holds(w.spool, worker)
    ensures Held(w.spool, worker).fingerprint in Ledger(Run(w, steps).spool)
    ensures Spool.Named(w.spool.held[worker]) !in Run(w, steps).spool.s.disk.pending
  {
    hide Enabled, Apply, Inv;
    var first := MetadataAnswerIsTaken(w, worker, Server.CreatedDuplicate(w.phases[worker].request, callId));
    StepKeeps(w, first);
    steps := TakenAndCompleted(w, first, worker);
  }

  /** Likewise once the audio was stored, or turned out to be settled already. */
  lemma AnsweredAudioLeavesTheSpool(w: World, worker: nat, reply: Server.Reply) returns (steps: seq<Step>)
    requires Inv(w) && worker in w.phases && w.phases[worker].Sending? && reply in w.server.history.replies
    requires Confirms(reply, w.phases[worker])
    ensures |steps| == 2 && Possible(w, steps) && Holds(w.spool, worker)
    ensures Held(w.spool, worker).fingerprint in Ledger(Run(w, steps).spool)
    ensures Spool.Named(w.spool.held[worker]) !in Run(w, steps).spool.s.disk.pending
  {
    hide Enabled, Apply, Inv;
    var first := AudioAnswerIsTaken(w, worker, reply);
    StepKeeps(w, first);
    steps := TakenAndCompleted(w, first, worker);
  }

  lemma TakenAndCompleted(w: World, first: Step, worker: nat) returns (steps: seq<Step>)
    requires Enabled(w, first) && Inv(Apply(w, first)) && Apply(w, first).spool == w.spool
    requires worker in Apply(w, first).phases && Apply(w, first).phases[worker].Confirmed?
    ensures |steps| == 2 && Possible(w, steps) && Holds(w.spool, worker)
    ensures Held(w.spool, worker).fingerprint in Ledger(Run(w, steps).spool)
    ensures Spool.Named(w.spool.held[worker]) !in Run(w, steps).spool.s.disk.pending
  {
    hide Enabled, Apply, Inv, Ledger;
    var last := WorkerCompletes(worker, Spool.Completed);
    ConfirmedIsCompleted(Apply(w, first), worker);
    var w1 := Apply(w, first);
    assert [last][1..] == [] && Possible(w1, [last]) && Run(w1, [last]) == Apply(w1, last);
    steps := [first, last];
    assert steps[1..] == [last] && Run(w, steps) == Run(w1, [last]);
  }

  /** An attempt may fail at any point, and then its item waits again, with the failure noted. */
  lemma FailedIsRetried(w: World, worker: nat, failure: string, now: int)
    requires Inv(w) && worker in w.phases
    ensures var step := WorkerFails(worker, failure, now, Spool.Saved);
      && Holds(w.spool, worker) && Enabled(w, step)
      && var id, w' := w.spool.held[worker], Apply(w, step);
      && w'.spool.s.memory.Some? && id in w'.spool.s.memory.value.items && id !in w'.spool.s.memory.value.inFlight
      && w'.spool.s.memory.value.items[id].manifest.lastError == failure
      && worker !in w'.phases && worker !in w'.spool.held && w'.completed == w.completed
  {
    hide ServerInv, LedgerInv, PhaseBacked, SpoolSafety.Inv;
    assert Holds(w.spool, worker);
  }
}
