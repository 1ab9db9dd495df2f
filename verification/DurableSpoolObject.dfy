/** The spool object: the maps it updates beside the disk it writes, statement by statement.
    A `fate` parameter decides how the disk effects of one call end; after a crash `running` is false. */
module DurableSpoolObject {
  import opened Basics
  import opened Spool

  class SpoolDisk {
    var pending: map<DirName, Directory>
    var ledger: seq<Line>

    constructor ()
      ensures Value() == FRESH.s.disk
    {
      pending, ledger := map[], [];
    }

    function Value(): Disk
      reads this
    {
      Disk(pending, ledger)
    }
  }

  class DurableSpool {
    const disk: SpoolDisk
    var items: map<ItemId, Item>
    var known: set<string>
    var inFlight: set<ItemId>
    var running: bool

    constructor (disk: SpoolDisk)
      ensures this.disk == disk && Snapshot() == State(disk.Value(), None)
    {
      this.disk := disk;
      items, known, inFlight, running := map[], {}, {}, false;
    }

    function Snapshot(): State
      reads this, disk
    {
      State(disk.Value(), if running then Some(Memory(items, known, inFlight)) else None)
    }

    method Open(fate: OpenFate) returns (ok: bool)
      requires !running && WellNamed(disk.pending) && OpenPossible(disk.Value(), fate)
      modifies this, disk
      ensures Snapshot() == AfterOpen(old(disk.Value()), fate)
      ensures ok == running
    {
      known := ReadLedger();
      match fate {
        case Plain =>
        case CompactionFails => return false;
        case CrashBeforeReplace => return false;
        case Compacted(order) => disk.ledger := RewriteLedger(order);
        case CrashAfterReplace(order) =>
          disk.ledger := RewriteLedger(order);
          return false;
      }
      items, inFlight := map[], {};
      ok := LoadPending();
      running := ok;
    }

    method ReadLedger() returns (read: set<string>)
      ensures read == LedgerFingerprints(disk.ledger)
    {
      read := {};
      for i := 0 to |disk.ledger|
        invariant read == LedgerFingerprints(disk.ledger[..i])
      {
        var line := disk.ledger[i];
        assert disk.ledger[..i + 1] == disk.ledger[..i] + [line];
        if line.Record? && line.fingerprint != "" {
          read := read + {line.fingerprint};
          assert line in disk.ledger[..i + 1];
        }
        assert forall earlier | earlier in disk.ledger[..i] :: earlier in disk.ledger[..i + 1];
      }
      assert disk.ledger[..|disk.ledger|] == disk.ledger;
    }

    static method RewriteLedger(order: seq<string>) returns (lines: seq<Line>)
      ensures lines == Lines(order)
    {
      lines := [];
      for i := 0 to |order|
        invariant lines == Lines(order)[..i]
      {
        lines := lines + [Record(order[i])];
      }
    }

    /** Reads the item directories into `items` and `known`; a manifest that is incomplete stops the opening. */
    method LoadPending() returns (ok: bool)
      requires WellNamed(disk.pending) && items == map[]
      modifies this`items, this`known
      ensures ok <==> Loadable(disk.pending)
      ensures ok ==> items == LoadItems(disk.pending)
      ensures ok ==> known == old(known) + PendingFingerprints(disk.pending)
    {
      var names := disk.pending.Keys;
      ghost var loaded: set<DirName> := {};
      while names != {}
        invariant loaded !! names && loaded + names == disk.pending.Keys
        invariant forall name | name in loaded && name.Named? ::
          disk.pending[name].manifest.Some? && CompleteManifest(disk.pending[name].manifest.value)
        invariant forall name | name in loaded && name.Named? ::
          name.id in items && items[name.id] == Item(disk.pending[name].manifest.value, name)
        invariant forall id | id in items :: Named(id) in loaded
        invariant forall name | name in loaded && name.Named? :: disk.pending[name].manifest.value.fingerprint in known
        invariant old(known) <= known
        invariant known <= old(known) + PendingFingerprints(disk.pending)
      {
        var name :| name in names;
        names := names - {name};
        loaded := loaded + {name};
        if name.Named? {
          var read := disk.pending[name].manifest;
          if read.None? || !CompleteManifest(read.value) { return false; }
          items := items[read.value.id := Item(read.value, name)];
          known := known + {read.value.fingerprint};
        }
      }
      ok := true;
      forall id | id in ItemIds(disk.pending) ensures id in items {
        assert Named(id) in loaded;
      }
      assert forall id | id in items :: id in ItemIds(disk.pending) by {
        forall id | id in items ensures id in ItemIds(disk.pending) { assert Named(id) in disk.pending; }
      }
    }

    method Queue(call: QueueCall, fate: QueueFate) returns (reply: QueueReply)
      requires running && FreshStaging(Snapshot(), call)
      modifies this, disk
      ensures Snapshot() == AfterQueue(old(Snapshot()), call, fate).0
      ensures running ==> reply == AfterQueue(old(Snapshot()), call, fate).1
    {
      reply := Refused;
      if call.fingerprint in known { return AlreadyKnown; }
      var manifest := NewManifest(call);
      if manifest.id in items {
        known := known + {call.fingerprint};
        return AlreadyKnown;
      }
      var staging := Staging(call.temp);
      ghost var start := disk.pending;
      if fate.MkdirFails? { return; }
      disk.pending := disk.pending[staging := Directory(None, None)];
      if fate.AudioFails? { CleanUp(staging, fate.cleaned); assert fate.cleaned ==> disk.pending == start; return; }
      if fate.CrashAfterMkdir? { running := false; return; }
      disk.pending := disk.pending[staging := disk.pending[staging].(audio := Some(call.recording.audio))];
      if fate.ManifestFails? { CleanUp(staging, fate.cleaned); assert fate.cleaned ==> disk.pending == start; return; }
      if fate.CrashAfterAudio? { running := false; return; }
      disk.pending := disk.pending[staging := disk.pending[staging].(manifest := Some(manifest))];
      if fate.RenameFails? { CleanUp(staging, fate.cleaned); assert fate.cleaned ==> disk.pending == start; return; }
      if fate.CrashAfterManifest? { running := false; return; }
      Rename(staging, Named(manifest.id));
      assert disk.pending == start[Named(manifest.id) := Directory(Some(manifest), Some(call.recording.audio))];
      if fate.CrashAfterRename? { running := false; return; }
      items := items[manifest.id := Item(manifest, Named(manifest.id))];
      known := known + {call.fingerprint};
      reply := Accepted(manifest.id);
    }

    /** The deferred `RemoveAll` of the staging directory, which may itself fail. */
    method CleanUp(name: DirName, cleaned: bool)
      modifies disk`pending
      ensures disk.pending == if cleaned then old(disk.pending) - {name} else old(disk.pending)
    {
      if cleaned { disk.pending := disk.pending - {name}; }
    }

    method Rename(from: DirName, to: DirName)
      requires from in disk.pending && from != to
      modifies disk`pending
      ensures disk.pending == old(disk.pending - {from})[to := old(disk.pending[from])]
    {
      disk.pending := (disk.pending - {from})[to := disk.pending[from]];
    }

    /** Hands out the first due item, or nothing when none is due. */
    method ClaimDue(now: int) returns (claimed: Option<Item>)
      requires running
      modifies this`inFlight
      ensures running
      ensures claimed.None? ==> old(Snapshot()) == Snapshot() && forall id | id in items ::
        !old(IsDue(Memory(items, known, inFlight), now, id))
      ensures claimed.Some? ==>
        exists id :: old(FirstDue(Memory(items, known, inFlight), now, id)) && claimed.value == items[id]
          && Snapshot() == AfterClaim(old(Snapshot()), id)
    {
      ghost var m := Memory(items, known, inFlight);
      var ids := items.Keys;
      var first: Option<ItemId> := None;
      while ids != {}
        invariant ids <= items.Keys && inFlight == m.inFlight
        invariant first.Some? ==> IsDue(m, now, first.value)
        invariant forall id | id in items && id !in ids && IsDue(m, now, id) ::
          first.Some? && !Before(items[id].manifest, items[first.value].manifest)
      {
        var id :| id in ids;
        ids := ids - {id};
        if id !in inFlight && items[id].manifest.nextAttempt <= now {
          if first.None? || Before(items[id].manifest, items[first.value].manifest) {
            first := Some(id);
          }
        }
      }
      if first.None? { return None; }
      inFlight := inFlight + {first.value};
      claimed := Some(items[first.value]);
      assert FirstDue(m, now, first.value);
    }

    method Retry(id: ItemId, failure: string, now: int, fate: RetryFate)
      requires running
      modifies this, disk
      ensures Snapshot() == AfterRetry(old(Snapshot()), id, failure, now, fate)
    {
      if id !in items {
        inFlight := inFlight - {id};
        return;
      }
      var manifest := items[id].manifest;
      manifest := manifest.(attempts := manifest.attempts + 1, lastError := failure);
      manifest := manifest.(nextAttempt := now + RetryDelay(manifest.attempts));
      items := items[id := items[id].(manifest := manifest)];
      if fate.CrashBeforeSave? { running := false; return; }
      if !fate.SaveFails? {
        disk.pending := SaveManifest(disk.Value(), items[id]).pending;
      }
      if fate.CrashAfterSave? { running := false; return; }
      inFlight := inFlight - {id};
    }

    method Complete(id: ItemId, fate: CompleteFate) returns (ok: bool)
      requires running
      modifies this, disk
      ensures Snapshot() == AfterComplete(old(Snapshot()), id, fate)
      ensures ok <==> running && (id !in old(items) || fate.Completed?)
    {
      ok := false;
      if id !in items {
        inFlight := inFlight - {id};
        return true;
      }
      var current := items[id];
      if fate.CrashBeforeWrite? { running := false; return; }
      if fate.WriteFails? { inFlight := inFlight - {id}; return; }
      var unsyncedLost := (fate.SyncFails? && !fate.kept) || (fate.CrashBeforeSync? && !fate.kept);
      if !unsyncedLost { disk.ledger := disk.ledger + [Record(current.manifest.fingerprint)]; }
      if fate.CrashBeforeSync? { running := false; return; }
      if fate.SyncFails? { inFlight := inFlight - {id}; return; }
      if fate.CrashBeforeRemove? { running := false; return; }
      if fate.RemoveFails? { inFlight := inFlight - {id}; return; }
      disk.pending := map other | other in disk.pending && other != current.directory :: disk.pending[other];
      if fate.CrashAfterRemove? { running := false; return; }
      items := map other | other in items && other != id :: items[other];
      inFlight := inFlight - {id};
      ok := true;
    }

    method Remember(fingerprint: string, fate: RememberFate) returns (ok: bool)
      requires running
      modifies this, disk
      ensures Snapshot() == AfterRemember(old(Snapshot()), fingerprint, fate)
      ensures ok <==> running && (fingerprint in old(known) || fate.Noted?)
    {
      ok := false;
      if fingerprint in known { return true; }
      if fate.NoteFails? { return; }
      var unsyncedLost := (fate.NoteSyncFails? && !fate.kept) || (fate.CrashInNote? && !fate.kept);
      if !unsyncedLost { disk.ledger := disk.ledger + [Record(fingerprint)]; }
      if fate.CrashInNote? { running := false; return; }
      if fate.NoteSyncFails? { return; }
      known := known + {fingerprint};
      ok := true;
    }
  }
}
