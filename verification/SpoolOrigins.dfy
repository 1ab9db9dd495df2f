/** Where the spool's directories come from, and when it opens again. */
module SpoolOrigins {
  import opened Basics
  import opened Spool
  import opened SpoolSafety

  /** Every item directory holds the request and the bytes of one of these recordings. */
  predicate HoldsOnly(disk: Disk, recordings: set<(UploadRequest, seq<int>)>) {
    forall name | name in disk.pending && name.Named? ::
      && disk.pending[name].manifest.Some? && disk.pending[name].audio.Some?
      && (disk.pending[name].manifest.value.request, disk.pending[name].audio.value) in recordings
  }

  predicate QueuesOnly(e: Event, recordings: set<(UploadRequest, seq<int>)>) {
    e.Queue? ==> (e.call.recording.request, e.call.recording.audio) in recordings
  }

  lemma OtherSteps(w: World, e: Event, recordings: set<(UploadRequest, seq<int>)>)
    requires Inv(w) && Enabled(w, e) && HoldsOnly(w.s.disk, recordings) && !e.Queue? && !e.Retry? && !e.Complete?
    ensures HoldsOnly(Apply(w, e).s.disk, recordings)
  {
  }

  lemma CompleteHolds(w: World, e: Event, recordings: set<(UploadRequest, seq<int>)>)
    requires Inv(w) && Enabled(w, e) && HoldsOnly(w.s.disk, recordings) && e.Complete?
    ensures HoldsOnly(Apply(w, e).s.disk, recordings)
  {
    hide Inv;
  }

  lemma QueueHolds(s: State, call: QueueCall, fate: QueueFate, recordings: set<(UploadRequest, seq<int>)>)
    requires s.memory.Some? && HoldsOnly(s.disk, recordings)
    requires (call.recording.request, call.recording.audio) in recordings
    ensures HoldsOnly(AfterQueue(s, call, fate).0.disk, recordings)
  {
  }

  lemma SavedHolds(disk: Disk, item: Item, recordings: set<(UploadRequest, seq<int>)>)
    requires HoldsOnly(disk, recordings) && item.directory in disk.pending && item.directory.Named?
    requires item.manifest.request == disk.pending[item.directory].manifest.value.request
    ensures HoldsOnly(SaveManifest(disk, item), recordings)
  {
  }

  lemma RetryHolds(s: State, id: ItemId, failure: string, now: int, fate: RetryFate,
                   recordings: set<(UploadRequest, seq<int>)>)
    requires s.memory.Some? && ItemsInv(s.disk.pending, s.memory.value.items) && HoldsOnly(s.disk, recordings)
    ensures HoldsOnly(AfterRetry(s, id, failure, now, fate).disk, recordings)
  {
    var items := s.memory.value.items;
    if id in items {
      assert items[id].directory == Named(id);
      assert SameRecording(items[id].manifest, s.disk.pending[Named(id)].manifest.value);
      SavedHolds(s.disk, items[id].(manifest := Retried(items[id].manifest, failure, now)), recordings);
    }
    hide HoldsOnly, SaveManifest, ItemsInv;
  }

  lemma StepHolds(w: World, e: Event, recordings: set<(UploadRequest, seq<int>)>)
    requires Inv(w) && Enabled(w, e) && HoldsOnly(w.s.disk, recordings) && QueuesOnly(e, recordings)
    ensures HoldsOnly(Apply(w, e).s.disk, recordings)
  {
    match e
    case Queue(call, fate) =>
      QueueHolds(w.s, call, fate, recordings);
      hide AfterQueue, HoldsOnly, Inv;
    case Retry(worker, failure, now, fate) =>
      RetryHolds(w.s, w.held[worker], failure, now, fate, recordings);
      hide AfterRetry, HoldsOnly, Inv;
    case Complete(_, _) => CompleteHolds(w, e, recordings);
    case _ => OtherSteps(w, e, recordings);
  }

  /** Nothing but what was queued is ever pending. */
  lemma {:induction false} OnlyQueuedIsPending(w: World, es: seq<Event>, recordings: set<(UploadRequest, seq<int>)>)
    requires Inv(w) && ValidRun(w, es) && HoldsOnly(w.s.disk, recordings)
    requires forall i | 0 <= i < |es| :: QueuesOnly(es[i], recordings)
    ensures HoldsOnly(Run(w, es).s.disk, recordings)
    decreases |es|
  {
    hide Inv, Enabled, Apply, HoldsOnly, QueuesOnly;
    if es != [] {
      StepHolds(w, es[0], recordings);
      StepKeeps(w, es[0]);
      OnlyQueuedIsPending(Apply(w, es[0]), es[1..], recordings);
    }
  }

  /** The caller of `Queue` takes the sender from its configuration, which refuses an empty one. */
  predicate NamesSender(e: Event) { e.Queue? ==> e.call.recording.request.sender != "" }

  function Recordings(es: seq<Event>): set<(UploadRequest, seq<int>)> {
    set i | 0 <= i < |es| && es[i].Queue? :: (es[i].call.recording.request, es[i].call.recording.audio)
  }

  /** When every queued recording names its sender, the spool opens again after every run, crashes included. */
  lemma AlwaysReopens(es: seq<Event>, fate: OpenFate)
    requires ValidRun(FRESH, es) && forall i | 0 <= i < |es| :: NamesSender(es[i])
    requires OpenPossible(Run(FRESH, es).s.disk, fate) && (fate.Plain? || fate.Compacted?)
    ensures AfterOpen(Run(FRESH, es).s.disk, fate).memory.Some?
  {
    var recordings := Recordings(es);
    forall i | 0 <= i < |es| ensures QueuesOnly(es[i], recordings) { }
    forall recording | recording in recordings ensures recording.0.sender != "" {
      var i :| 0 <= i < |es| && es[i].Queue? && recording == (es[i].call.recording.request, es[i].call.recording.audio);
      assert NamesSender(es[i]);
    }
    FreshInv();
    OnlyQueuedIsPending(FRESH, es, recordings);
    ReopenRebuilds(es, fate);
    hide Run, AfterOpen, Recordings;
  }

  /* ---- The run that does not open again ---- */

  const CALL := CallMeta("", 0, 1, "", "sys", "", "tg", "", "", "", "")
  const UNSENT := QueueCall("file.mp3", "f", Recording(UploadRequest("", "k", "mp3", CALL), [7], "mp3"), 0, 0, 0)

  /** A recording without a sender is queued, and after a crash the spool stays shut. */
  lemma NoSenderNoReopening() returns (es: seq<Event>)
    ensures ValidRun(FRESH, es) && |Run(FRESH, es).granted| == 1
    ensures AfterOpen(Run(FRESH, es).s.disk, Plain).memory.None?
  {
    es := [Open(Plain), Queue(UNSENT, Queued), Event.Crash];
    var open := Apply(FRESH, es[0]);
    OpensEmpty();
    var queued := Apply(open, es[1]);
    var manifest := NewManifest(UNSENT);
    assert Named(manifest.id) in queued.s.disk.pending && queued.granted == ["f"];
    RunOfThree(FRESH, es);
    assert !CompleteManifest(manifest);
  }

  lemma RunOfThree(w: World, es: seq<Event>)
    requires |es| == 3 && Enabled(w, es[0]) && Enabled(Apply(w, es[0]), es[1])
    requires Enabled(Apply(Apply(w, es[0]), es[1]), es[2])
    ensures ValidRun(w, es) && Run(w, es) == Apply(Apply(Apply(w, es[0]), es[1]), es[2])
  {
    hide Enabled, Apply;
    var rest := es[1..];
    var last := rest[1..];
    assert last == [es[2]] && last[1..] == [];
    var w1 := Apply(w, es[0]);
    var w2 := Apply(w1, es[1]);
    assert ValidRun(w2, last) && Run(w2, last) == Apply(w2, es[2]);
    assert ValidRun(w1, rest) && Run(w1, rest) == Run(w2, last);
  }

  lemma OpensEmpty()
    ensures Apply(FRESH, Open(Plain)).s == State(FRESH.s.disk, Some(Memory(map[], {}, {})))
  {
    var disk := FRESH.s.disk;
    assert LedgerFingerprints(disk.ledger) + PendingFingerprints(disk.pending) == {};
    assert LoadItems(disk.pending) == map[];
    assert Loaded(disk, LedgerFingerprints(disk.ledger)) == State(disk, Some(Memory(map[], {}, {})));
  }
}
