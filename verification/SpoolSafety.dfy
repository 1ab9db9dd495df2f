/** Crash safety of the spool: what holds after every sequence of operations, with a crash between any two
    disk effects, restarts and ledger compaction included. */
module SpoolSafety {
  import opened Basics
  import opened Spool

  /* ---- Injectivity of item identifiers ---- */

  lemma LastNul(a: string, f: string)
    requires NulFree(f)
    ensures (a + "\0" + f)[|a|] == '\0'
    ensures forall i | |a| < i < |a + "\0" + f| :: (a + "\0" + f)[i] != '\0'
  {
    forall i | |a| < i < |a + "\0" + f| ensures (a + "\0" + f)[i] != '\0' {
      assert (a + "\0" + f)[i] == f[i - |a| - 1];
    }
  }

  lemma SplitAtLastNul(a: string, f: string, b: string, g: string)
    requires NulFree(f) && NulFree(g)
    requires a + "\0" + f == b + "\0" + g
    ensures a == b && f == g
  {
    LastNul(a, f);
    LastNul(b, g);
    var whole := a + "\0" + f;
    assert |a| == |b|;
    assert a == whole[..|a|] == b;
    assert f == whole[|a| + 1..] == g;
  }

  /** Two recordings share an item directory only if key and fingerprint agree. */
  lemma ItemIdInjective(k1: string, f1: string, k2: string, f2: string)
    requires NulFree(f1) && NulFree(f2)
    ensures ItemIdOf(k1, f1) == ItemIdOf(k2, f2) <==> k1 == k2 && f1 == f2
  {
    if ItemIdOf(k1, f1) == ItemIdOf(k2, f2) { SplitAtLastNul(k1, f1, k2, f2); }
  }

  /* ---- The invariant ---- */

  predicate GoodDirectory(id: ItemId, d: Directory) {
    && d.manifest.Some? && d.audio.Some?
    && var m := d.manifest.value;
    && m.id == id == ItemIdOf(m.request.key, m.fingerprint)
    && IsDigest(m.fingerprint) && m.audioFile != ""
  }

  predicate DiskInv(disk: Disk) {
    forall name | name in disk.pending && name.Named? :: GoodDirectory(name.id, disk.pending[name])
  }

  /** Equal but for the retry bookkeeping, which a failed manifest write leaves behind. */
  predicate SameRecording(a: Manifest, b: Manifest) {
    a == b.(attempts := a.attempts, nextAttempt := a.nextAttempt, lastError := a.lastError)
  }

  predicate ItemsInv(pending: map<DirName, Directory>, items: map<ItemId, Item>) {
    && (forall id | id in items ::
          && Named(id) in pending
          && items[id].directory == Named(id)
          && pending[Named(id)].manifest.Some?
          && SameRecording(items[id].manifest, pending[Named(id)].manifest.value))
    && (forall name | name in pending && name.Named? :: name.id in items)
  }

  predicate MemoryInv(disk: Disk, m: Memory) {
    && ItemsInv(disk.pending, m.items)
    && PendingFingerprints(disk.pending) <= m.known <= Durable(disk)
    && m.inFlight <= m.items.Keys
  }

  /** No two workers hold one item, and exactly the held items are in flight. */
  predicate HoldsInv(m: Memory, held: map<nat, ItemId>) {
    && held.Values == m.inFlight
    && forall a, b | a in held && b in held && a != b :: held[a] != held[b]
  }

  predicate GrantsInv(s: State, granted: seq<string>) {
    && (forall i, j | 0 <= i < j < |granted| :: granted[i] != granted[j])
    && (forall i | 0 <= i < |granted| :: granted[i] in Durable(s.disk))
    && (s.memory.Some? ==> forall i | 0 <= i < |granted| :: granted[i] in s.memory.value.known)
  }

  predicate StateInv(s: State) {
    DiskInv(s.disk) && (s.memory.Some? ==> MemoryInv(s.disk, s.memory.value))
  }

  predicate WorkersInv(w: World) {
    if w.s.memory.Some? then HoldsInv(w.s.memory.value, w.held) else w.held == map[]
  }

  predicate Inv(w: World) {
    && StateInv(w.s)
    && WorkersInv(w)
    && GrantsInv(w.s, w.granted)
  }

  /** What a recording that is already on disk can become: untouched apart from retry bookkeeping, or completed. */
  predicate KeptOrLogged(before: Disk, after: Disk) {
    forall name | name in before.pending && name.Named? && before.pending[name].manifest.Some? ::
      || before.pending[name].manifest.value.fingerprint in LedgerFingerprints(after.ledger)
      || (&& name in after.pending && after.pending[name].manifest.Some?
          && after.pending[name].audio == before.pending[name].audio
          && SameRecording(after.pending[name].manifest.value, before.pending[name].manifest.value))
  }

  /* ---- Ledger facts ---- */

  lemma LoggedLedger(disk: Disk, fingerprint: string)
    requires fingerprint != ""
    ensures LedgerFingerprints(Logged(disk, fingerprint).ledger) == LedgerFingerprints(disk.ledger) + {fingerprint}
  {
    var ledger := Logged(disk, fingerprint).ledger;
    forall line | line in disk.ledger ensures line in ledger { }
    assert ledger[|disk.ledger|] == Record(fingerprint);
  }

  /** Compaction keeps the set of recorded fingerprints. */
  lemma CompactionKeepsLedger(order: seq<string>, ledger: seq<Line>)
    requires Rewrites(order, LedgerFingerprints(ledger))
    ensures LedgerFingerprints(Lines(order)) == LedgerFingerprints(ledger)
  {
    var lines := Lines(order);
    assert forall f | f in order :: f in LedgerFingerprints(ledger);
    forall f | f in LedgerFingerprints(ledger) ensures f in LedgerFingerprints(lines) {
      assert f in order;
      var i :| 0 <= i < |order| && order[i] == f;
      assert lines[i] == Record(f);
    }
  }

  /* ---- The kinds of disk change ---- */

  /** What every change of the state must respect. */
  ghost predicate StateKeeps(s: State, s': State) {
    && StateInv(s')
    && Durable(s.disk) <= Durable(s'.disk)
    && LedgerFingerprints(s.disk.ledger) <= LedgerFingerprints(s'.disk.ledger)
    && KeptOrLogged(s.disk, s'.disk)
    && (s.memory.Some? && s'.memory.Some? ==> s.memory.value.known <= s'.memory.value.known)
    && (s.memory.None? && s'.memory.Some? ==> s'.memory.value.known == Durable(s'.disk))
  }

  predicate SameItems(a: map<DirName, Directory>, b: map<DirName, Directory>) {
    && (forall name | name in a && name.Named? :: name in b && b[name] == a[name])
    && (forall name | name in b && name.Named? :: name in a)
  }

  /** Staging directories are invisible. */
  lemma StagingInvisible(s: State, pending: map<DirName, Directory>)
    requires StateInv(s) && SameItems(s.disk.pending, pending)
    ensures StateKeeps(s, s.(disk := s.disk.(pending := pending)))
    ensures StateKeeps(s, State(s.disk.(pending := pending), None))
  {
    assert PendingFingerprints(pending) == PendingFingerprints(s.disk.pending);
  }

  lemma NewItemDirectory(disk: Disk, manifest: Manifest, audio: seq<int>)
    requires DiskInv(disk) && Named(manifest.id) !in disk.pending
    requires IsDigest(manifest.fingerprint) && manifest.audioFile != ""
    requires manifest.id == ItemIdOf(manifest.request.key, manifest.fingerprint)
    ensures var disk' := disk.(pending := disk.pending[Named(manifest.id) := Directory(Some(manifest), Some(audio))]);
      && DiskInv(disk')
      && PendingFingerprints(disk'.pending) == PendingFingerprints(disk.pending) + {manifest.fingerprint}
      && KeptOrLogged(disk, disk')
  {
    var disk' := disk.(pending := disk.pending[Named(manifest.id) := Directory(Some(manifest), Some(audio))]);
    assert Named(manifest.id) in disk'.pending;
    forall f | f in PendingFingerprints(disk.pending) ensures f in PendingFingerprints(disk'.pending) {
      var name :| name in disk.pending && name.Named? && disk.pending[name].manifest.Some?
        && disk.pending[name].manifest.value.fingerprint == f;
      assert disk'.pending[name] == disk.pending[name];
    }
  }

  lemma SavedManifest(disk: Disk, id: ItemId, item: Item)
    requires DiskInv(disk) && Named(id) in disk.pending && item.directory == Named(id)
    requires SameRecording(item.manifest, disk.pending[Named(id)].manifest.value)
    ensures DiskInv(SaveManifest(disk, item))
    ensures PendingFingerprints(SaveManifest(disk, item).pending) == PendingFingerprints(disk.pending)
    ensures KeptOrLogged(disk, SaveManifest(disk, item))
  {
    var pending := SaveManifest(disk, item).pending;
    forall f | f in PendingFingerprints(disk.pending) ensures f in PendingFingerprints(pending) {
      var name :| name in disk.pending && name.Named? && disk.pending[name].manifest.Some?
        && disk.pending[name].manifest.value.fingerprint == f;
      assert name in pending && pending[name].manifest.value.fingerprint == f;
    }
    forall f | f in PendingFingerprints(pending) ensures f in PendingFingerprints(disk.pending) {
      var name :| name in pending && name.Named? && pending[name].manifest.Some?
        && pending[name].manifest.value.fingerprint == f;
      assert name in disk.pending && disk.pending[name].manifest.value.fingerprint == f;
    }
  }

  lemma LoggedKeeps(s: State, fingerprint: string)
    requires StateInv(s) && IsDigest(fingerprint)
    ensures StateKeeps(s, s.(disk := Logged(s.disk, fingerprint)))
    ensures StateKeeps(s, State(Logged(s.disk, fingerprint), None))
    ensures fingerprint in LedgerFingerprints(Logged(s.disk, fingerprint).ledger)
  {
    LoggedLedger(s.disk, fingerprint);
  }

  /** Dropping the directory of a logged item. */
  lemma RemovedItem(disk: Disk, name: DirName)
    requires DiskInv(disk) && name.Named? && name in disk.pending
    requires disk.pending[name].manifest.value.fingerprint in LedgerFingerprints(disk.ledger)
    ensures DiskInv(Removed(disk, name))
    ensures Durable(Removed(disk, name)) == Durable(disk)
    ensures KeptOrLogged(disk, Removed(disk, name))
  {
    var pending := Removed(disk, name).pending;
    forall f | f in PendingFingerprints(disk.pending) && f != disk.pending[name].manifest.value.fingerprint
      ensures f in PendingFingerprints(pending)
    {
      var other :| other in disk.pending && other.Named? && disk.pending[other].manifest.Some?
        && disk.pending[other].manifest.value.fingerprint == f;
      assert other in pending && pending[other] == disk.pending[other];
    }
  }

  /* ---- Each operation keeps the invariant and forgets nothing ---- */

  lemma LoadedKeeps(disk: Disk)
    requires DiskInv(disk)
    ensures StateKeeps(State(disk, None), Loaded(disk, LedgerFingerprints(disk.ledger)))
  {
    if Loadable(disk.pending) {
      var items := LoadItems(disk.pending);
      forall id | id in items ensures Named(id) in disk.pending { }
      forall name | name in disk.pending && name.Named? ensures name.id in items && name == Named(name.id) { }
    }
  }

  lemma OpenKeeps(disk: Disk, fate: OpenFate)
    requires DiskInv(disk) && OpenPossible(disk, fate)
    ensures StateKeeps(State(disk, None), AfterOpen(disk, fate))
  {
    match fate
    case CompactionFails =>
    case CrashBeforeReplace =>
    case Plain => LoadedKeeps(disk);
    case CrashAfterReplace(order) => CompactionKeepsLedger(order, disk.ledger);
    case Compacted(order) =>
      CompactionKeepsLedger(order, disk.ledger);
      LoadedKeeps(disk.(ledger := Lines(order)));
  }

  /** The branch for an id that is pending under an unknown fingerprint is dead. */
  lemma QueueReachesDisk(s: State, call: QueueCall)
    requires StateInv(s) && s.memory.Some? && IsDigest(call.fingerprint)
    requires call.fingerprint !in s.memory.value.known
    ensures NewManifest(call).id !in s.memory.value.items
  {
    forall id | id in s.memory.value.items ensures id != NewManifest(call).id {
      var other := s.disk.pending[Named(id)].manifest.value;
      assert other.fingerprint in PendingFingerprints(s.disk.pending);
      ItemIdInjective(call.recording.request.key, call.fingerprint, other.request.key, other.fingerprint);
    }
  }

  lemma QueueItems(pending: map<DirName, Directory>, items: map<ItemId, Item>, manifest: Manifest, audio: seq<int>)
    requires ItemsInv(pending, items) && manifest.id !in items
    ensures ItemsInv(pending[Named(manifest.id) := Directory(Some(manifest), Some(audio))],
                     items[manifest.id := Item(manifest, Named(manifest.id))])
  {
  }

  lemma RenamedKeeps(s: State, call: QueueCall, fate: QueueFate)
    requires StateInv(s) && s.memory.Some? && IsDigest(call.fingerprint)
    requires call.fingerprint !in s.memory.value.known && NewManifest(call).id !in s.memory.value.items
    requires fate.Queued? || fate.CrashAfterRename?
    ensures StateKeeps(s, AfterQueue(s, call, fate).0)
  {
    NewItemDirectory(s.disk, NewManifest(call), call.recording.audio);
    QueueItems(s.disk.pending, s.memory.value.items, NewManifest(call), call.recording.audio);
  }

  lemma QueueKeeps(s: State, call: QueueCall, fate: QueueFate)
    requires StateInv(s) && s.memory.Some? && IsDigest(call.fingerprint) && FreshStaging(s, call)
    ensures StateKeeps(s, AfterQueue(s, call, fate).0)
  {
    if call.fingerprint !in s.memory.value.known {
      QueueReachesDisk(s, call);
      if fate.Queued? || fate.CrashAfterRename? {
        RenamedKeeps(s, call, fate);
      } else {
        StagingInvisible(s, AfterQueue(s, call, fate).0.disk.pending);
      }
    }
  }

  /** An accepted fingerprint was not durable before or was noted without a sync, and is durable afterwards. */
  lemma AcceptedIsNew(s: State, call: QueueCall, fate: QueueFate)
    requires StateInv(s) && s.memory.Some? && IsDigest(call.fingerprint)
    requires AfterQueue(s, call, fate).1.Accepted?
    ensures call.fingerprint !in s.memory.value.known
    ensures call.fingerprint in Durable(AfterQueue(s, call, fate).0.disk)
    ensures AfterQueue(s, call, fate).0.disk.pending[Named(NewManifest(call).id)]
         == Directory(Some(NewManifest(call)), Some(call.recording.audio))
  {
    assert Named(NewManifest(call).id) in AfterQueue(s, call, fate).0.disk.pending;
  }

  lemma RetryItems(disk: Disk, items: map<ItemId, Item>, id: ItemId, item: Item)
    requires ItemsInv(disk.pending, items) && id in items
    requires item.directory == Named(id) && SameRecording(item.manifest, items[id].manifest)
    ensures ItemsInv(disk.pending, items[id := item])
    ensures ItemsInv(SaveManifest(disk, item).pending, items[id := item])
  {
  }

  lemma RetryKeeps(s: State, id: ItemId, failure: string, now: int, fate: RetryFate)
    requires StateInv(s) && s.memory.Some?
    ensures StateKeeps(s, AfterRetry(s, id, failure, now, fate))
  {
    var m := s.memory.value;
    if id in m.items {
      var item := m.items[id].(manifest := Retried(m.items[id].manifest, failure, now));
      RetryItems(s.disk, m.items, id, item);
      SavedManifest(s.disk, id, item);
    }
  }

  lemma CompleteItems(disk: Disk, items: map<ItemId, Item>, id: ItemId)
    requires ItemsInv(disk.pending, items)
    ensures ItemsInv(Removed(disk, Named(id)).pending, map other | other in items && other != id :: items[other])
  {
  }

  lemma CompleteDisk(disk: Disk, id: ItemId)
    requires DiskInv(disk) && Named(id) in disk.pending
    ensures var fingerprint := disk.pending[Named(id)].manifest.value.fingerprint;
      var after := Removed(Logged(disk, fingerprint), Named(id));
      && DiskInv(after) && KeptOrLogged(disk, after) && Durable(disk) <= Durable(after)
      && PendingFingerprints(after.pending) <= PendingFingerprints(disk.pending)
      && LedgerFingerprints(after.ledger) == LedgerFingerprints(disk.ledger) + {fingerprint}
  {
    var fingerprint := disk.pending[Named(id)].manifest.value.fingerprint;
    var logged := Logged(disk, fingerprint);
    LoggedLedger(disk, fingerprint);
    RemovedItem(logged, Named(id));
    var after := Removed(logged, Named(id));
    forall name | name in disk.pending && name.Named? && name != Named(id)
      ensures name in after.pending && after.pending[name] == disk.pending[name] { }
  }

  /** The log line and the removal, with the process alive or dead afterwards. */
  lemma CompletedKeeps(s: State, id: ItemId, fate: CompleteFate)
    requires StateInv(s) && s.memory.Some? && id in s.memory.value.items
    requires fate.Completed? || fate.CrashAfterRemove?
    ensures StateKeeps(s, AfterComplete(s, id, fate))
  {
    CompleteDisk(s.disk, id);
    CompleteItems(Logged(s.disk, s.memory.value.items[id].manifest.fingerprint), s.memory.value.items, id);
  }

  lemma CompleteKeeps(s: State, id: ItemId, fate: CompleteFate)
    requires StateInv(s) && s.memory.Some?
    ensures StateKeeps(s, AfterComplete(s, id, fate))
  {
    var m := s.memory.value;
    if id in m.items {
      if fate.Completed? || fate.CrashAfterRemove? {
        CompletedKeeps(s, id, fate);
      } else {
        LoggedKeeps(s.(memory := Some(m.(inFlight := m.inFlight - {id}))), m.items[id].manifest.fingerprint);
      }
    }
  }

  lemma RememberKeeps(s: State, fingerprint: string, fate: RememberFate)
    requires StateInv(s) && s.memory.Some? && IsDigest(fingerprint)
    ensures StateKeeps(s, AfterRemember(s, fingerprint, fate))
  {
    LoggedKeeps(s, fingerprint);
  }

  /* ---- Workers ---- */

  lemma ClaimHolds(m: Memory, held: map<nat, ItemId>, worker: nat, pick: ItemId)
    requires HoldsInv(m, held) && worker !in held && pick !in m.inFlight
    ensures HoldsInv(m.(inFlight := m.inFlight + {pick}), held[worker := pick])
  {
    var held' := held[worker := pick];
    forall id | id in held.Values ensures id in held'.Values {
      var other :| other in held && held[other] == id;
      assert held'[other] == id;
    }
    assert held'[worker] == pick;
  }

  lemma ReleaseHolds(m: Memory, held: map<nat, ItemId>, worker: nat)
    requires HoldsInv(m, held) && worker in held
    ensures HoldsInv(m.(inFlight := m.inFlight - {held[worker]}), Released(held, worker))
  {
    var held' := Released(held, worker);
    forall id | id in held.Values && id != held[worker] ensures id in held'.Values {
      var other :| other in held && held[other] == id;
      assert held'[other] == id;
    }
  }

  lemma GrantsKept(s: State, s': State, granted: seq<string>)
    requires GrantsInv(s, granted) && StateKeeps(s, s')
    ensures GrantsInv(s', granted)
  {
  }

  lemma WorkersStep(w: World, e: Event)
    requires WorkersInv(w) && Enabled(w, e)
    ensures WorkersInv(Apply(w, e))
  {
    if e.Claim? {
      ClaimHolds(w.s.memory.value, w.held, e.worker, e.pick);
    } else if e.Retry? || e.Complete? {
      ReleaseHolds(w.s.memory.value, w.held, e.worker);
    }
  }

  lemma StateStep(w: World, e: Event)
    requires Inv(w) && Enabled(w, e)
    ensures StateKeeps(w.s, Apply(w, e).s)
  {
    match e
    case Open(fate) => OpenKeeps(w.s.disk, fate);
    case Queue(call, fate) => QueueKeeps(w.s, call, fate);
    case Claim(_, _, _) =>
    case Retry(worker, failure, now, fate) => RetryKeeps(w.s, w.held[worker], failure, now, fate);
    case Complete(worker, fate) => CompleteKeeps(w.s, w.held[worker], fate);
    case Remember(fingerprint, fate) => RememberKeeps(w.s, fingerprint, fate);
    case Crash =>
  }

  lemma GrantsStep(w: World, e: Event)
    requires Inv(w) && Enabled(w, e) && StateKeeps(w.s, Apply(w, e).s)
    ensures GrantsInv(Apply(w, e).s, Apply(w, e).granted)
  {
    GrantsKept(w.s, Apply(w, e).s, w.granted);
    if e.Queue? && AfterQueue(w.s, e.call, e.queueFate).1.Accepted? {
      AcceptedIsNew(w.s, e.call, e.queueFate);
      GrantsGrow(Apply(w, e).s, w.granted, e.call.fingerprint);
    }
  }

  lemma GrantsGrow(s: State, granted: seq<string>, fingerprint: string)
    requires GrantsInv(s, granted) && fingerprint !in granted
    requires fingerprint in Durable(s.disk)
    requires s.memory.Some? ==> fingerprint in s.memory.value.known
    ensures GrantsInv(s, granted + [fingerprint])
  {
  }

  /** One step of any run keeps the invariant, the durable fingerprints and the recordings on disk. */
  lemma StepKeeps(w: World, e: Event)
    requires Inv(w) && Enabled(w, e)
    ensures Inv(Apply(w, e)) && StateKeeps(w.s, Apply(w, e).s)
  {
    hide StateKeeps, Apply;
    StateStep(w, e);
    GrantsStep(w, e);
    WorkersStep(w, e);
  }

  /* ---- Whole runs ---- */

  lemma FreshInv()
    ensures Inv(FRESH)
  {
  }

  /** Crash safety: after any run, every fingerprint `Queue` accepted is on disk (pending or ledger) and was
      accepted only once over all restarts; no item is held by two workers; nothing durable was forgotten. */
  lemma {:induction false} CrashSafety(w: World, es: seq<Event>)
    requires Inv(w) && ValidRun(w, es)
    ensures Inv(Run(w, es))
    ensures Durable(w.s.disk) <= Durable(Run(w, es).s.disk)
    decreases |es|
  {
    if es != [] {
      StepKeeps(w, es[0]);
      CrashSafety(Apply(w, es[0]), es[1..]);
    }
  }

  /** In plain words, for every run from an empty disk: a fingerprint for which `Queue` answered that it was
      queued is pending or in the ledger, and was answered so once over all restarts; what is in flight is an
      item, and no item is held by two workers. */
  lemma QueuedOnceAndKept(es: seq<Event>)
    requires ValidRun(FRESH, es)
    ensures var w := Run(FRESH, es);
      && (forall i, j | 0 <= i < j < |w.granted| :: w.granted[i] != w.granted[j])
      && (forall i | 0 <= i < |w.granted| ::
            w.granted[i] in PendingFingerprints(w.s.disk.pending) + LedgerFingerprints(w.s.disk.ledger))
      && (w.s.memory.Some? ==> w.s.memory.value.inFlight <= w.s.memory.value.items.Keys)
      && (forall a, b | a in w.held && b in w.held && a != b :: w.held[a] != w.held[b])
  {
    FreshInv();
    CrashSafety(FRESH, es);
  }

  /** A recording on disk keeps its bytes and its request until its fingerprint is in the ledger, whatever
      happens in between. */
  lemma {:induction false} RecordingsSurvive(w: World, es: seq<Event>)
    requires Inv(w) && ValidRun(w, es)
    ensures KeptOrLogged(w.s.disk, Run(w, es).s.disk)
    ensures LedgerFingerprints(w.s.disk.ledger) <= LedgerFingerprints(Run(w, es).s.disk.ledger)
    decreases |es|
  {
    if es != [] {
      StepKeeps(w, es[0]);
      RecordingsSurvive(Apply(w, es[0]), es[1..]);
    }
  }

  predicate SenderMissing(pending: map<DirName, Directory>) {
    exists name | name in pending && name.Named? ::
      pending[name].manifest.Some? && pending[name].manifest.value.request.sender == ""
  }

  /** What a process that opens the spool starts from. */
  predicate Rebuilt(disk: Disk, m: Memory) {
    && m.known == Durable(disk)
    && m.inFlight == {}
    && (forall name | name in disk.pending && name.Named? :: name.id in m.items)
    && (forall id | id in m.items ::
          Named(id) in disk.pending && disk.pending[Named(id)].manifest == Some(m.items[id].manifest))
  }

  /** Reopening after any run rebuilds exactly what is durable: known is the ledger and the pending
      fingerprints, the items are the pending manifests as saved, and nothing is in flight. It fails if and
      only if some pending manifest has no sender. */
  lemma ReopenRebuilds(es: seq<Event>, fate: OpenFate)
    requires ValidRun(FRESH, es)
    requires OpenPossible(Run(FRESH, es).s.disk, fate) && (fate.Plain? || fate.Compacted?)
    ensures var disk := Run(FRESH, es).s.disk;
      var reopened := AfterOpen(disk, fate);
      && Durable(reopened.disk) == Durable(disk)
      && reopened.disk.pending == disk.pending
      && (reopened.memory.None? <==> SenderMissing(disk.pending))
      && (reopened.memory.Some? ==> Rebuilt(disk, reopened.memory.value))
  {
    FreshInv();
    CrashSafety(FRESH, es);
    var disk := Run(FRESH, es).s.disk;
    LoadableUnlessSenderMissing(disk);
    match fate
    case Plain => if Loadable(disk.pending) { LoadedRebuilds(disk); }
    case Compacted(order) =>
      CompactionKeepsLedger(order, disk.ledger);
      if Loadable(disk.pending) { LoadedRebuilds(disk.(ledger := Lines(order))); }
  }

  lemma LoadableUnlessSenderMissing(disk: Disk)
    requires DiskInv(disk)
    ensures Loadable(disk.pending) <==> !SenderMissing(disk.pending)
  {
  }

  lemma LoadedRebuilds(disk: Disk)
    requires DiskInv(disk) && Loadable(disk.pending)
    ensures Rebuilt(disk, Loaded(disk, LedgerFingerprints(disk.ledger)).memory.value)
  {
    var items := LoadItems(disk.pending);
    forall name | name in disk.pending && name.Named? ensures name.id in items && name == Named(name.id) { }
  }
}
