/** What opening, refused queueing and remembering leave in memory and on disk, said over files and lines alone. */
module SpoolSteps {
  import opened Basics
  import opened Spool

  /* ---- Opening ---- */

  /** What a directory must hold to be loaded. */
  predicate Whole(d: Directory) {
    && d.manifest.Some? && d.manifest.value.fingerprint != "" && d.manifest.value.audioFile != ""
    && d.manifest.value.request.sender != ""
  }

  ghost predicate AllWhole(pending: map<DirName, Directory>) {
    forall id | Named(id) in pending :: Whole(pending[Named(id)])
  }

  /** A manifest in an item directory bears this fingerprint. */
  ghost predicate IsPending(pending: map<DirName, Directory>, fingerprint: string) {
    exists id | Named(id) in pending ::
      pending[Named(id)].manifest.Some? && pending[Named(id)].manifest.value.fingerprint == fingerprint
  }

  predicate IsLogged(ledger: seq<Line>, fingerprint: string) { fingerprint != "" && Record(fingerprint) in ledger }

  /** Opening succeeds exactly when compaction worked, if it was tried, and every item directory holds a whole
      manifest. */
  lemma OpensExactly(disk: Disk, fate: OpenFate)
    ensures AfterOpen(disk, fate).memory.Some? <==> (fate.Plain? || fate.Compacted?) && AllWhole(disk.pending)
  {
    hide LoadItems, LedgerFingerprints, PendingFingerprints;
    forall name | name in disk.pending && name.Named? ensures Named(name.id) in disk.pending { }
  }

  /** It knows exactly the fingerprints of the ledger and of the item directories; each of these is an item, and none is
      in flight. */
  lemma OpenedKnows(disk: Disk, fate: OpenFate)
    requires AfterOpen(disk, fate).memory.Some?
    ensures var m := AfterOpen(disk, fate).memory.value;
      && m.inFlight == {}
      && (forall fingerprint ::
            fingerprint in m.known <==> IsLogged(disk.ledger, fingerprint) || IsPending(disk.pending, fingerprint))
      && (forall id :: id in m.items <==> Named(id) in disk.pending)
      && (forall id | id in m.items && disk.pending[Named(id)].manifest.Some? ::
            m.items[id] == Item(disk.pending[Named(id)].manifest.value, Named(id)))
  {
    forall fingerprint
      ensures fingerprint in LedgerFingerprints(disk.ledger) + PendingFingerprints(disk.pending) <==>
        IsLogged(disk.ledger, fingerprint) || IsPending(disk.pending, fingerprint)
    {
      LoggedAre(disk.ledger, fingerprint);
      PendingAre(disk.pending, fingerprint);
    }
    hide IsLogged, IsPending, LedgerFingerprints, PendingFingerprints;
    forall id ensures id in ItemIds(disk.pending) <==> Named(id) in disk.pending { }
  }

  lemma LoggedAre(ledger: seq<Line>, fingerprint: string)
    ensures fingerprint in LedgerFingerprints(ledger) <==> IsLogged(ledger, fingerprint)
  {
  }

  lemma PendingAre(pending: map<DirName, Directory>, fingerprint: string)
    ensures fingerprint in PendingFingerprints(pending) <==> IsPending(pending, fingerprint)
  {
    if fingerprint in PendingFingerprints(pending) {
      var name :| name in pending && name.Named? && pending[name].manifest.Some?
        && pending[name].manifest.value.fingerprint == fingerprint;
      assert Named(name.id) in pending;
    }
  }

  /** On disk nothing changes but that a compacted ledger may list its fingerprints in another order, once each. */
  lemma OpeningKeepsFiles(disk: Disk, fate: OpenFate, fingerprint: string)
    requires OpenPossible(disk, fate)
    ensures var disk' := AfterOpen(disk, fate).disk;
      && disk'.pending == disk.pending
      && (IsLogged(disk'.ledger, fingerprint) <==> IsLogged(disk.ledger, fingerprint))
      && (disk'.ledger == disk.ledger || fate.Compacted? || fate.CrashAfterReplace?)
      && (fate.Compacted? || fate.CrashAfterReplace? ==>
            forall i, j | 0 <= i < j < |disk'.ledger| :: disk'.ledger[i] != disk'.ledger[j])
  {
    match fate
    case Compacted(order) => Rewritten(disk, order, fingerprint);
    case CrashAfterReplace(order) => Rewritten(disk, order, fingerprint);
    case _ =>
    hide LoadItems, LedgerFingerprints, PendingFingerprints, IsLogged;
  }

  lemma Rewritten(disk: Disk, order: seq<string>, fingerprint: string)
    requires Rewrites(order, LedgerFingerprints(disk.ledger))
    ensures IsLogged(Lines(order), fingerprint) <==> IsLogged(disk.ledger, fingerprint)
    ensures forall i, j | 0 <= i < j < |order| :: Lines(order)[i] != Lines(order)[j]
  {
    OnceEach(order);
    LoggedAre(disk.ledger, fingerprint);
    assert fingerprint in (set f | f in order) <==> fingerprint in order;
    if fingerprint in order {
      var i :| 0 <= i < |order| && order[i] == fingerprint;
      assert Lines(order)[i] == Record(fingerprint);
    }
    hide LedgerFingerprints;
  }

  /** A list as long as the set of its elements repeats nothing. */
  lemma {:induction false} OnceEach(order: seq<string>)
    ensures |(set f | f in order)| <= |order|
    ensures |(set f | f in order)| == |order| ==> forall i, j | 0 <= i < j < |order| :: order[i] != order[j]
  {
    if order != [] {
      var n := |order| - 1;
      OnceEach(order[..n]);
      var before, all := set f | f in order[..n], set f | f in order;
      assert order == order[..n] + [order[n]];
      assert all == before + {order[n]};
      if order[n] in before { assert all == before; }
      if |all| == |order| {
        forall i, j | 0 <= i < j < |order| ensures order[i] != order[j] {
          assert order[..n][i] == order[i];
          if j < n { assert order[..n][j] == order[j]; } else { assert order[i] in before; }
        }
      }
    }
  }

  /* ---- A recording that is not accepted ---- */

  /** A recording that is known already is no error and changes nothing. */
  lemma KnownIsLeftAlone(s: State, call: QueueCall, fate: QueueFate)
    requires s.memory.Some? && call.fingerprint in s.memory.value.known
    ensures AfterQueue(s, call, fate) == (s, AlreadyKnown)
  {
  }

  predicate IsCrash(fate: QueueFate) {
    fate.CrashAfterMkdir? || fate.CrashAfterAudio? || fate.CrashAfterManifest? || fate.CrashAfterRename?
  }

  /** What a failure whose clean-up failed, or a crash, leaves in the staging directory. */
  function LeftStaged(call: QueueCall, fate: QueueFate): Option<Directory> {
    var audio := Some(call.recording.audio);
    match fate
    case AudioFails(false) => Some(Directory(None, None))
    case ManifestFails(false) => Some(Directory(None, audio))
    case RenameFails(false) => Some(Directory(Some(NewManifest(call)), audio))
    case CrashAfterMkdir => Some(Directory(None, None))
    case CrashAfterAudio => Some(Directory(None, audio))
    case CrashAfterManifest => Some(Directory(Some(NewManifest(call)), audio))
    case _ => None
  }

  /** A new one is refused on every failure: memory stays as it is, unless the process died, and the disk too but for
      the staging directory; only a crash after the rename leaves an item directory, which then holds all of it. */
  lemma RefusalLeavesOnlyStaging(s: State, call: QueueCall, fate: QueueFate)
    requires s.memory.Some? && FreshStaging(s, call) && !fate.Queued?
    requires call.fingerprint !in s.memory.value.known && NewManifest(call).id !in s.memory.value.items
    ensures var (s', reply) := AfterQueue(s, call, fate);
      && reply == Refused && s'.disk.ledger == s.disk.ledger
      && s'.memory == (if IsCrash(fate) then None else s.memory)
      && (forall name | name != Staging(call.temp) && name != Named(NewManifest(call).id) ::
            (name in s'.disk.pending <==> name in s.disk.pending)
            && (name in s.disk.pending ==> s'.disk.pending[name] == s.disk.pending[name]))
      && (match LeftStaged(call, fate)
          case None => Staging(call.temp) !in s'.disk.pending
          case Some(d) => Staging(call.temp) in s'.disk.pending && s'.disk.pending[Staging(call.temp)] == d)
      && var item := Named(NewManifest(call).id);
      && (fate.CrashAfterRename? ==>
            item in s'.disk.pending
            && s'.disk.pending[item] == Directory(Some(NewManifest(call)), Some(call.recording.audio)))
      && (!fate.CrashAfterRename? ==>
            (item in s'.disk.pending <==> item in s.disk.pending)
            && (item in s.disk.pending ==> s'.disk.pending[item] == s.disk.pending[item]))
  {
  }

  /* ---- Giving back and completing ---- */

  ghost predicate SameBut(pending: map<DirName, Directory>, pending': map<DirName, Directory>, name: DirName) {
    forall other | other != name ::
      (other in pending' <==> other in pending) && (other in pending ==> pending'[other] == pending[other])
  }

  /** A failed attempt reaches the disk in one manifest, with the audio beside it, and only if it was saved; memory
      keeps it in any case while the process lives, and the item waits again. */
  lemma RetriesExactly(s: State, id: ItemId, failure: string, now: int, fate: RetryFate)
    requires s.memory.Some? && id in s.memory.value.items && s.memory.value.items[id].directory in s.disk.pending
    ensures var m, s' := s.memory.value, AfterRetry(s, id, failure, now, fate);
      var item := m.items[id];
      var due := now + [2, 4, 8, 16, 32, 64, 128, 256][if item.manifest.attempts < 8 then item.manifest.attempts else 7]
        * 1_000_000_000;
      var failed := item.manifest.(attempts := item.manifest.attempts + 1, lastError := failure, nextAttempt := due);
      && s'.disk.ledger == s.disk.ledger && SameBut(s.disk.pending, s'.disk.pending, item.directory)
      && item.directory in s'.disk.pending
      && s'.disk.pending[item.directory] == (
        if fate.Saved? || fate.CrashAfterSave? then Directory(Some(failed), s.disk.pending[item.directory].audio)
        else s.disk.pending[item.directory])
      && s'.memory == (
        if fate.CrashBeforeSave? || fate.CrashAfterSave? then None
        else Some(Memory(m.items[id := Item(failed, item.directory)], m.known, m.inFlight - {id})))
  {
    Powers();
  }

  /** Whether the line of a completion reaches the disk. */
  predicate IsWritten(fate: CompleteFate) {
    match fate
    case WriteFails => false
    case SyncFails(kept) => kept
    case CrashBeforeWrite => false
    case CrashBeforeSync(kept) => kept
    case _ => true
  }

  predicate IsFatal(fate: CompleteFate) {
    fate.CrashBeforeWrite? || fate.CrashBeforeSync? || fate.CrashBeforeRemove? || fate.CrashAfterRemove?
  }

  /** Completing adds the item's line, and only then removes its directory, and only then forgets the item; until it is
      forgotten it waits to be tried again. */
  lemma CompletesExactly(s: State, id: ItemId, fate: CompleteFate)
    requires s.memory.Some? && id in s.memory.value.items
    ensures var m, s' := s.memory.value, AfterComplete(s, id, fate);
      var item := m.items[id];
      && s'.disk.ledger == s.disk.ledger + (if IsWritten(fate) then [Record(item.manifest.fingerprint)] else [])
      && SameBut(s.disk.pending, s'.disk.pending, item.directory)
      && (item.directory in s'.disk.pending <==>
            item.directory in s.disk.pending && !fate.Completed? && !fate.CrashAfterRemove?)
      && (item.directory in s'.disk.pending ==> s'.disk.pending[item.directory] == s.disk.pending[item.directory])
      && (s'.memory.None? <==> IsFatal(fate))
      && (s'.memory.Some? ==>
            && s'.memory.value.known == m.known && s'.memory.value.inFlight == m.inFlight - {id}
            && s'.memory.value.items == if fate.Completed? then m.items - {id} else m.items)
  {
  }

  /** An item that is not there is only no longer in flight. */
  lemma NothingToDo(s: State, id: ItemId, failure: string, now: int, retry: RetryFate, complete: CompleteFate)
    requires s.memory.Some? && id !in s.memory.value.items
    ensures AfterRetry(s, id, failure, now, retry) == AfterComplete(s, id, complete)
      == State(s.disk, Some(s.memory.value.(inFlight := s.memory.value.inFlight - {id})))
  {
  }

  /* ---- Remembering ---- */

  /** Remembering writes one line at most; it is known and in the ledger when that worked, and as before, but perhaps
      for the line, when it did not. */
  lemma RemembersExactly(s: State, fingerprint: string, fate: RememberFate)
    requires s.memory.Some?
    ensures var s' := AfterRemember(s, fingerprint, fate);
      var line := Record(fingerprint);
      && s'.disk.pending == s.disk.pending
      && (s'.disk.ledger == s.disk.ledger || s'.disk.ledger == s.disk.ledger + [line])
      && (fingerprint in s.memory.value.known ==> s' == s)
      && (fingerprint !in s.memory.value.known && fate.Noted? ==>
            s' == State(s.disk.(ledger := s.disk.ledger + [line]),
                        Some(s.memory.value.(known := s.memory.value.known + {fingerprint}))))
      && (fingerprint !in s.memory.value.known && fate.NoteFails? ==> s' == s)
      && (fingerprint !in s.memory.value.known && fate.NoteSyncFails? ==> s'.memory == s.memory)
      && (fingerprint !in s.memory.value.known && fate.CrashInNote? ==> s'.memory == None)
  {
  }
}
