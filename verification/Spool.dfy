/** The uploader's durable spool as a machine on values: memory beside disk.
    Every operation takes a `fate` that says which disk effect fails, or after which one the process dies. */
module Spool {
  import opened Basics

  /** SHA-256 is taken as injective, so a digest is its input. */
  datatype ItemId = Sha(material: string)

  function ItemIdOf(key: string, fingerprint: string): ItemId { Sha(key + "\0" + fingerprint) }

  predicate NulFree(text: string) { '\0' !in text }

  /** Fingerprints are hexadecimal SHA-256 digests. */
  predicate IsDigest(fingerprint: string) { fingerprint != "" && NulFree(fingerprint) }

  /** Under `pending`: a hidden `.queue-n` staging directory, or the directory of an item. */
  datatype DirName = Staging(n: nat) | Named(id: ItemId)

  datatype Manifest = Manifest(
    id: ItemId, source: string, fingerprint: string, audioFile: string, request: UploadRequest,
    attempts: nat, nextAttempt: int, lastError: string, createdAt: int)

  datatype Item = Item(manifest: Manifest, directory: DirName)

  datatype Directory = Directory(manifest: Option<Manifest>, audio: Option<seq<int>>)

  /** A ledger line either parses to a record or is skipped by the reader. */
  datatype Line = Record(fingerprint: string) | Unreadable

  datatype Disk = Disk(pending: map<DirName, Directory>, ledger: seq<Line>)

  datatype Memory = Memory(items: map<ItemId, Item>, known: set<string>, inFlight: set<ItemId>)

  /** `memory` is `None` while no process has the spool open. */
  datatype State = State(disk: Disk, memory: Option<Memory>)

  datatype Recording = Recording(request: UploadRequest, audio: seq<int>, format: string)

  const SECOND := 1_000_000_000
  const MINUTE := 60 * SECOND

  function LedgerFingerprints(ledger: seq<Line>): set<string> {
    set line | line in ledger && line.Record? && line.fingerprint != "" :: line.fingerprint
  }

  function PendingFingerprints(pending: map<DirName, Directory>): set<string> {
    set name | name in pending && name.Named? && pending[name].manifest.Some?
      :: pending[name].manifest.value.fingerprint
  }

  /** The fingerprints that survive any crash. */
  function Durable(disk: Disk): set<string> {
    LedgerFingerprints(disk.ledger) + PendingFingerprints(disk.pending)
  }

  /* ---- openDurableSpool ---- */

  predicate CompleteManifest(m: Manifest) {
    m.fingerprint != "" && m.audioFile != "" && m.request.sender != ""
  }

  predicate Loadable(pending: map<DirName, Directory>) {
    forall name | name in pending && name.Named? ::
      pending[name].manifest.Some? && CompleteManifest(pending[name].manifest.value)
  }

  /** Only the spool writes below `pending`, so an item directory is named by its manifest. */
  predicate WellNamed(pending: map<DirName, Directory>) {
    forall name | name in pending && name.Named? && pending[name].manifest.Some? ::
      pending[name].manifest.value.id == name.id
  }

  function ItemIds(pending: map<DirName, Directory>): set<ItemId> {
    set name | name in pending && name.Named? :: name.id
  }

  function LoadItems(pending: map<DirName, Directory>): map<ItemId, Item>
    requires Loadable(pending)
  {
    map id | id in ItemIds(pending) :: Item(pending[Named(id)].manifest.value, Named(id))
  }

  /** `order` is the order in which compaction rewrites the known fingerprints. */
  datatype OpenFate =
    | Plain
    | Compacted(order: seq<string>)
    | CompactionFails
    | CrashBeforeReplace
    | CrashAfterReplace(order: seq<string>)

  predicate Rewrites(order: seq<string>, known: set<string>) {
    && (set fingerprint | fingerprint in order) == known
    && |order| == |known|
  }

  function Lines(order: seq<string>): seq<Line> {
    seq(|order|, i requires 0 <= i < |order| => Record(order[i]))
  }

  predicate OpenPossible(disk: Disk, fate: OpenFate) {
    match fate
    case Compacted(order) => Rewrites(order, LedgerFingerprints(disk.ledger))
    case CrashAfterReplace(order) => Rewrites(order, LedgerFingerprints(disk.ledger))
    case _ => true
  }

  function AfterOpen(disk: Disk, fate: OpenFate): State {
    var known := LedgerFingerprints(disk.ledger);
    match fate
    case CompactionFails => State(disk, None)
    case CrashBeforeReplace => State(disk, None)
    case CrashAfterReplace(order) => State(disk.(ledger := Lines(order)), None)
    case Plain => Loaded(disk, known)
    case Compacted(order) => Loaded(disk.(ledger := Lines(order)), known)
  }

  function Loaded(disk: Disk, known: set<string>): State {
    if Loadable(disk.pending) then
      State(disk, Some(Memory(LoadItems(disk.pending), known + PendingFingerprints(disk.pending), {})))
    else State(disk, None)
  }

  /* ---- Queue ---- */

  datatype QueueFate =
    | MkdirFails
    | AudioFails(cleaned: bool)
    | ManifestFails(cleaned: bool)
    | RenameFails(cleaned: bool)
    | Queued
    | CrashAfterMkdir
    | CrashAfterAudio
    | CrashAfterManifest
    | CrashAfterRename

  datatype QueueReply = AlreadyKnown | Accepted(id: ItemId) | Refused

  datatype QueueCall = QueueCall(source: string, fingerprint: string, recording: Recording, t1: int, t2: int, temp: nat)

  function NewManifest(call: QueueCall): Manifest {
    Manifest(ItemIdOf(call.recording.request.key, call.fingerprint), call.source, call.fingerprint,
             "audio." + call.recording.format, call.recording.request, 0, call.t1, "", call.t2)
  }

  function AfterQueue(s: State, call: QueueCall, fate: QueueFate): (State, QueueReply)
    requires s.memory.Some?
  {
    var m := s.memory.value;
    var manifest := NewManifest(call);
    if call.fingerprint in m.known then (s, AlreadyKnown)
    else if manifest.id in m.items then
      (s.(memory := Some(m.(known := m.known + {call.fingerprint}))), AlreadyKnown)
    else
      var staging := Staging(call.temp);
      var pending := s.disk.pending;
      var made := pending[staging := Directory(None, None)];
      var heard := pending[staging := Directory(None, Some(call.recording.audio))];
      var described := pending[staging := Directory(Some(manifest), Some(call.recording.audio))];
      var renamed := pending[Named(manifest.id) := Directory(Some(manifest), Some(call.recording.audio))];
      match fate
      case MkdirFails => (s, Refused)
      case AudioFails(cleaned) => (s.(disk := s.disk.(pending := if cleaned then pending else made)), Refused)
      case ManifestFails(cleaned) => (s.(disk := s.disk.(pending := if cleaned then pending else heard)), Refused)
      case RenameFails(cleaned) => (s.(disk := s.disk.(pending := if cleaned then pending else described)), Refused)
      case CrashAfterMkdir => (State(s.disk.(pending := made), None), Refused)
      case CrashAfterAudio => (State(s.disk.(pending := heard), None), Refused)
      case CrashAfterManifest => (State(s.disk.(pending := described), None), Refused)
      case CrashAfterRename => (State(s.disk.(pending := renamed), None), Refused)
      case Queued =>
        (State(s.disk.(pending := renamed),
               Some(m.(items := m.items[manifest.id := Item(manifest, Named(manifest.id))],
                       known := m.known + {call.fingerprint}))), Accepted(manifest.id))
  }

  /** A staging name is fresh, as `MkdirTemp` guarantees. */
  predicate FreshStaging(s: State, call: QueueCall) { Staging(call.temp) !in s.disk.pending }

  /* ---- ClaimDue ---- */

  /** The claim order: next attempt, then creation. */
  predicate Before(a: Manifest, b: Manifest) {
    a.nextAttempt < b.nextAttempt || (a.nextAttempt == b.nextAttempt && a.createdAt < b.createdAt)
  }

  predicate IsDue(m: Memory, now: int, id: ItemId) {
    id in m.items && id !in m.inFlight && m.items[id].manifest.nextAttempt <= now
  }

  /** The first due item; which of several equal ones comes first is not determined. */
  predicate FirstDue(m: Memory, now: int, id: ItemId) {
    && IsDue(m, now, id)
    && forall other | other in m.items && IsDue(m, now, other) :: !Before(m.items[other].manifest, m.items[id].manifest)
  }

  function AfterClaim(s: State, id: ItemId): State
    requires s.memory.Some?
  {
    s.(memory := Some(s.memory.value.(inFlight := s.memory.value.inFlight + {id})))
  }

  /* ---- Retry ---- */

  datatype RetryFate = Saved | SaveFails | CrashBeforeSave | CrashAfterSave

  function RetryDelay(attempt: int): (delay: int)
    ensures SECOND <= delay <= 256 * SECOND
  {
    Powers();
    if attempt < 1 then SECOND
    else
      var delay := SECOND * Shift(if attempt < 8 then attempt else 8);
      if delay > 5 * MINUTE then 5 * MINUTE else delay
  }

  function Shift(bits: nat): (power: nat)
    ensures power >= 1
  {
    if bits == 0 then 1 else 2 * Shift(bits - 1)
  }

  lemma Powers()
    ensures Shift(0) == 1 && Shift(1) == 2 && Shift(2) == 4 && Shift(3) == 8 && Shift(4) == 16
    ensures Shift(5) == 32 && Shift(6) == 64 && Shift(7) == 128 && Shift(8) == 256
  {
    assert Shift(4) == 2 * Shift(3);
    assert Shift(8) == 2 * Shift(7) && Shift(6) == 2 * Shift(5);
  }

  /** The delay is two seconds at the first attempt, doubles with each attempt up to the eighth, and then stays; so it
      never reaches its cap of five minutes. */
  lemma RetryDelayDoubles(attempt: int)
    ensures attempt < 1 ==> RetryDelay(attempt) == SECOND
    ensures RetryDelay(1) == 2 * SECOND
    ensures 1 <= attempt < 8 ==> RetryDelay(attempt + 1) == 2 * RetryDelay(attempt)
    ensures attempt >= 8 ==> RetryDelay(attempt) == RetryDelay(8) == 256 * SECOND < 5 * MINUTE
  {
    Powers();
    if 1 <= attempt < 8 { assert Shift(attempt + 1) == 2 * Shift(attempt); }
  }

  function Retried(m: Manifest, failure: string, now: int): Manifest {
    m.(attempts := m.attempts + 1, lastError := failure, nextAttempt := now + RetryDelay(m.attempts + 1))
  }

  function SaveManifest(disk: Disk, item: Item): Disk {
    var audio := if item.directory in disk.pending then disk.pending[item.directory].audio else None;
    disk.(pending := disk.pending[item.directory := Directory(Some(item.manifest), audio)])
  }

  function AfterRetry(s: State, id: ItemId, failure: string, now: int, fate: RetryFate): State
    requires s.memory.Some?
  {
    var m := s.memory.value;
    if id !in m.items then s.(memory := Some(m.(inFlight := m.inFlight - {id})))
    else
      var item := m.items[id].(manifest := Retried(m.items[id].manifest, failure, now));
      var m' := m.(items := m.items[id := item], inFlight := m.inFlight - {id});
      match fate
      case Saved => State(SaveManifest(s.disk, item), Some(m'))
      case SaveFails => State(s.disk, Some(m'))
      case CrashBeforeSave => State(s.disk, None)
      case CrashAfterSave => State(SaveManifest(s.disk, item), None)
  }

  /* ---- Complete and Remember ---- */

  /** `kept`: whether a line that was written but never synced reaches the disk. */
  datatype CompleteFate =
    | WriteFails
    | SyncFails(kept: bool)
    | RemoveFails
    | Completed
    | CrashBeforeWrite
    | CrashBeforeSync(kept: bool)
    | CrashBeforeRemove
    | CrashAfterRemove

  function Logged(disk: Disk, fingerprint: string): Disk {
    disk.(ledger := disk.ledger + [Record(fingerprint)])
  }

  function Removed(disk: Disk, name: DirName): Disk {
    disk.(pending := map other | other in disk.pending && other != name :: disk.pending[other])
  }

  function AfterComplete(s: State, id: ItemId, fate: CompleteFate): State
    requires s.memory.Some?
  {
    var m := s.memory.value;
    var freed := m.(inFlight := m.inFlight - {id});
    if id !in m.items then s.(memory := Some(freed))
    else
      var item := m.items[id];
      var logged := Logged(s.disk, item.manifest.fingerprint);
      var dropped := freed.(items := map other | other in m.items && other != id :: m.items[other]);
      match fate
      case WriteFails => State(s.disk, Some(freed))
      case SyncFails(kept) => State(if kept then logged else s.disk, Some(freed))
      case RemoveFails => State(logged, Some(freed))
      case Completed => State(Removed(logged, item.directory), Some(dropped))
      case CrashBeforeWrite => State(s.disk, None)
      case CrashBeforeSync(kept) => State(if kept then logged else s.disk, None)
      case CrashBeforeRemove => State(logged, None)
      case CrashAfterRemove => State(Removed(logged, item.directory), None)
  }

  datatype RememberFate =
    | NoteFails
    | NoteSyncFails(kept: bool)
    | Noted
    | CrashInNote(kept: bool)

  function AfterRemember(s: State, fingerprint: string, fate: RememberFate): State
    requires s.memory.Some?
  {
    var m := s.memory.value;
    var logged := Logged(s.disk, fingerprint);
    if fingerprint in m.known then s
    else
      match fate
      case NoteFails => s
      case NoteSyncFails(kept) => s.(disk := if kept then logged else s.disk)
      case Noted => State(logged, Some(m.(known := m.known + {fingerprint})))
      case CrashInNote(kept) => State(if kept then logged else s.disk, None)
  }

  /* ---- Runs: the spool driven by upload workers ---- */

  /** `held` is what each worker claimed and has not given back; `granted` lists, in order, the fingerprints
      for which `Queue` returned true, over all restarts. */
  datatype World = World(s: State, held: map<nat, ItemId>, granted: seq<string>)

  datatype Event =
    | Open(openFate: OpenFate)
    | Queue(call: QueueCall, queueFate: QueueFate)
    | Claim(worker: nat, now: int, pick: ItemId)
    | Retry(worker: nat, failure: string, now: int, retryFate: RetryFate)
    | Complete(worker: nat, completeFate: CompleteFate)
    | Remember(fingerprint: string, rememberFate: RememberFate)
    | Crash

  predicate Enabled(w: World, e: Event) {
    match e
    case Open(fate) => w.s.memory.None? && OpenPossible(w.s.disk, fate)
    case Queue(call, _) => w.s.memory.Some? && IsDigest(call.fingerprint) && FreshStaging(w.s, call)
    case Claim(worker, now, pick) =>
      w.s.memory.Some? && worker !in w.held && FirstDue(w.s.memory.value, now, pick)
    case Retry(worker, _, _, _) => w.s.memory.Some? && worker in w.held
    case Complete(worker, _) => w.s.memory.Some? && worker in w.held
    case Remember(fingerprint, _) => w.s.memory.Some? && IsDigest(fingerprint)
    case Crash => true
  }

  function Released(held: map<nat, ItemId>, worker: nat): map<nat, ItemId> {
    map other | other in held && other != worker :: held[other]
  }

  /** A dead process holds nothing. */
  function Settle(s: State, held: map<nat, ItemId>, granted: seq<string>): World {
    World(s, if s.memory.None? then map[] else held, granted)
  }

  function Apply(w: World, e: Event): World
    requires Enabled(w, e)
  {
    match e
    case Open(fate) => Settle(AfterOpen(w.s.disk, fate), map[], w.granted)
    case Queue(call, fate) =>
      var (s, reply) := AfterQueue(w.s, call, fate);
      Settle(s, w.held, if reply.Accepted? then w.granted + [call.fingerprint] else w.granted)
    case Claim(worker, _, pick) => Settle(AfterClaim(w.s, pick), w.held[worker := pick], w.granted)
    case Retry(worker, failure, now, fate) =>
      Settle(AfterRetry(w.s, w.held[worker], failure, now, fate), Released(w.held, worker), w.granted)
    case Complete(worker, fate) =>
      Settle(AfterComplete(w.s, w.held[worker], fate), Released(w.held, worker), w.granted)
    case Remember(fingerprint, fate) => Settle(AfterRemember(w.s, fingerprint, fate), w.held, w.granted)
    case Crash => Settle(w.s.(memory := None), map[], w.granted)
  }

  predicate ValidRun(w: World, es: seq<Event>)
    decreases |es|
  {
    es == [] || (Enabled(w, es[0]) && ValidRun(Apply(w, es[0]), es[1..]))
  }

  function Run(w: World, es: seq<Event>): World
    requires ValidRun(w, es)
    decreases |es|
  {
    if es == [] then w else Run(Apply(w, es[0]), es[1..])
  }

  const FRESH := World(State(Disk(map[], []), None), map[], [])
}
