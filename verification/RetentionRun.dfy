/** `runRetention` for one destructive policy, statement by statement, over a volume and the calls table. */
module RetentionRun {
  import opened Retention

  datatype Outcome = Renamed | NotExist | Failed

  /** The audio volume and the ids of `calls`; `trace` lists every state the run passed through. */
  class Volume {
    var files: Files
    var rows: set<string>
    ghost var trace: seq<Snapshot>

    constructor (files: Files, rows: set<string>)
      ensures this.files == files && this.rows == rows && trace == [Snapshot(files, rows)]
    {
      this.files, this.rows := files, rows;
      trace := [Snapshot(files, rows)];
    }

    method Rename(from: Place, to: Place, blocked: bool) returns (outcome: Outcome)
      modifies this
      ensures outcome == if from !in old(files) then NotExist else if blocked then Failed else Renamed
      ensures files == if outcome.Renamed? then MoveFile(old(files), from, to) else old(files)
      ensures rows == old(rows) && trace == old(trace) + [Snapshot(files, rows)]
    {
      if from !in files { outcome := NotExist; }
      else if blocked { outcome := Failed; }
      else { files := (files - {from})[to := files[from]]; outcome := Outcome.Renamed; }
      trace := trace + [Snapshot(files, rows)];
    }

    method Remove(place: Place, blocked: bool) returns (ok: bool)
      modifies this
      ensures ok == (place in old(files) && !blocked)
      ensures files == if ok then old(files) - {place} else old(files)
      ensures rows == old(rows) && trace == old(trace) + [Snapshot(files, rows)]
    {
      ok := place in files && !blocked;
      if ok { files := files - {place}; }
      trace := trace + [Snapshot(files, rows)];
    }

    /** The delete and its commit; `scanned` are the deleted ids the caller learns of. */
    method DeleteRows(ids: set<string>, faults: Faults) returns (ok: bool, deleted: set<string>)
      modifies this
      ensures ok == faults.commits && files == old(files)
      ensures rows == if ok then old(rows) - ids * faults.deletable else old(rows)
      ensures deleted == ids * faults.deletable * faults.scanned
      ensures trace == old(trace) + [Snapshot(files, rows)]
    {
      ok, deleted := faults.commits, ids * faults.deletable * faults.scanned;
      if ok { rows := rows - ids * faults.deletable; }
      trace := trace + [Snapshot(files, rows)];
    }
  }

  /** A candidate as the run remembers it; the path of a missing file is blanked. */
  function Remembered(start: Files, c: Candidate): Candidate {
    if HadFile(start, c) then c else c.(path := "")
  }

  function RememberedAll(start: Files, cs: seq<Candidate>, n: nat): seq<Candidate>
    requires n <= |cs|
  {
    seq(n, j requires 0 <= j < n => Remembered(start, cs[j]))
  }

  function MissingAmong(start: Files, cs: seq<Candidate>): nat {
    if cs == [] then 0 else MissingAmong(start, cs[..|cs| - 1]) + (if HadFile(start, cs[|cs| - 1]) then 0 else 1)
  }

  /** Nothing in the trace since `from` lost audio of a live row. */
  ghost predicate TraceKept(start: Files, cs: seq<Candidate>, trace: seq<Snapshot>, from: nat) {
    forall k | from <= k < |trace| :: AudioKept(start, cs, trace[k])
  }

  /** The first candidate at which staging stops, or the number of candidates. */
  function StagingStop(start: Files, cs: seq<Candidate>, faults: Faults, n: nat): (stop: nat)
    requires n <= |cs|
    ensures n <= stop <= |cs|
    decreases |cs| - n
  {
    if n == |cs| || cs[n].path !in faults.safe || (HadFile(start, cs[n]) && cs[n].id in faults.unmovable) then n
    else StagingStop(start, cs, faults, n + 1)
  }

  /** How the run ends, as a function of the outside world. */
  function ExitOf(start: Files, cs: seq<Candidate>, faults: Faults): Exit {
    var stop := StagingStop(start, cs, faults, 0);
    if stop < |cs| then (if cs[stop].path !in faults.safe then UnsafePath(stop) else StageFailed(stop))
    else if !faults.begins then BeginFailed
    else if !faults.commits then DeleteFailed
    else Finished(PurgeFailures(start, cs, faults, |cs|) + MissingAmong(start, cs))
  }

  function PurgeFailures(start: Files, cs: seq<Candidate>, faults: Faults, n: nat): nat
    requires n <= |cs|
  {
    if n == 0 then 0
    else
      var c := cs[n - 1];
      PurgeFailures(start, cs, faults, n - 1)
      + (if HadFile(start, c) && c.id in Deleted(cs, faults) * faults.scanned && c.id in faults.unpurgeable
         then 1 else 0)
  }

  /** Where the run leaves each candidate's audio. */
  function SpotsOf(start: Files, cs: seq<Candidate>, faults: Faults): seq<Spot> {
    match ExitOf(start, cs, faults)
    case UnsafePath(stop) => Staged(cs, stop)
    case StageFailed(stop) => RolledBack(cs, stop, faults.stuck)
    case BeginFailed => Staged(cs, |cs|)
    case DeleteFailed => RolledBack(cs, |cs|, faults.stuck)
    case Finished(_) => Settled(cs, |cs|, faults)
  }

  function RowsOf(start: Files, rows: set<string>, cs: seq<Candidate>, faults: Faults): set<string> {
    if ExitOf(start, cs, faults).Finished? then rows - Deleted(cs, faults) else rows
  }

  lemma TraceGrows(start: Files, cs: seq<Candidate>, trace: seq<Snapshot>, from: nat, now: Snapshot, spots: seq<Spot>)
    requires TraceKept(start, cs, trace, from)
    requires Layout(start, now.files, cs, spots)
    requires forall j | 0 <= j < |cs| && cs[j].id in now.rows :: !spots[j].Gone?
    ensures TraceKept(start, cs, trace + [now], from)
  {
    LayoutKeeps(start, cs, now, spots);
  }

  /** The staging loop. `stop` is where it stopped: the number of candidates if it went through. */
  method Stage(volume: Volume, cs: seq<Candidate>, faults: Faults, ghost start: Files)
    returns (moved: seq<Candidate>, missing: nat, stop: nat)
    requires Selected(start, cs) && volume.files == start && "" !in faults.safe
    modifies volume
    ensures volume.rows == old(volume.rows)
    ensures stop == StagingStop(start, cs, faults, 0) && moved == RememberedAll(start, cs, stop)
    ensures missing == MissingAmong(start, cs[..stop])
    ensures Layout(start, volume.files, cs, Staged(cs, stop))
    ensures old(volume.trace) <= volume.trace
    ensures TraceKept(start, cs, volume.trace, |old(volume.trace)|)
  {
    hide Layout, AudioKept, Belongs, Selected, At;
    moved, missing, stop := [], 0, 0;
    StartStaged(start, cs);
    while stop < |cs|
      invariant 0 <= stop <= |cs| && volume.rows == old(volume.rows)
      invariant StagingStop(start, cs, faults, 0) == StagingStop(start, cs, faults, stop)
      invariant moved == RememberedAll(start, cs, stop)
      invariant missing == MissingAmong(start, cs[..stop])
      invariant Layout(start, volume.files, cs, Staged(cs, stop))
      invariant old(volume.trace) <= volume.trace && TraceKept(start, cs, volume.trace, |old(volume.trace)|)
    {
      var c := cs[stop];
      if c.path !in faults.safe { return; }
      ghost var past := volume.trace;
      StagingStep(start, volume.files, cs, stop);
      var outcome := volume.Rename(Original(c.path), Trash(TrashName(c)), c.id in faults.unmovable);
      if outcome.Failed? {
        TraceGrows(start, cs, past, |old(volume.trace)|, Snapshot(volume.files, volume.rows), Staged(cs, stop));
        return;
      }
      if outcome.NotExist? {
        missing := missing + 1;
        moved := moved + [Candidate(c.id, "")];
      } else {
        moved := moved + [c];
      }
      TraceGrows(start, cs, past, |old(volume.trace)|, Snapshot(volume.files, volume.rows), Staged(cs, stop + 1));
      assert cs[..stop + 1][..stop] == cs[..stop];
      stop := stop + 1;
    }
    assert cs[..stop] == cs;
  }

  lemma StartStaged(start: Files, cs: seq<Candidate>)
    requires Selected(start, cs)
    ensures Layout(start, start, cs, Staged(cs, 0))
  {
    StartLayout(start, cs);
    assert Staged(cs, 0) == AllHome(|cs|);
  }

  lemma StagingStep(start: Files, files: Files, cs: seq<Candidate>, n: nat)
    requires Selected(start, cs) && n < |cs| && Layout(start, files, cs, Staged(cs, n))
    ensures HadFile(start, cs[n]) <==> Original(cs[n].path) in files
    ensures Layout(start,
      if HadFile(start, cs[n]) then MoveFile(files, Original(cs[n].path), Trash(TrashName(cs[n]))) else files,
      cs, Staged(cs, n + 1))
  {
    hide Layout, At, Selected;
    SpotOf(start, files, cs, Staged(cs, n), n);
    if HadFile(start, cs[n]) {
      StageMoves(start, files, cs, Staged(cs, n), n);
      assert Staged(cs, n)[n := InTrash] == Staged(cs, n + 1);
    } else {
      NoFileAnywhere(start, files, cs, Staged(cs, n), Staged(cs, n + 1), n);
    }
  }

  /** The spot of a candidate without a file does not matter. */
  lemma NoFileAnywhere(start: Files, files: Files, cs: seq<Candidate>, spots: seq<Spot>, spots': seq<Spot>, j: nat)
    requires Layout(start, files, cs, spots) && j < |cs| && |spots'| == |cs| && !HadFile(start, cs[j])
    requires forall k | 0 <= k < |cs| && k != j :: spots'[k] == spots[k]
    ensures Layout(start, files, cs, spots')
  {
  }

  /** The rollback loop, over what was staged. */
  method RollBack(volume: Volume, moved: seq<Candidate>, faults: Faults, ghost start: Files, ghost cs: seq<Candidate>)
    requires Selected(start, cs) && |moved| <= |cs| && moved == RememberedAll(start, cs, |moved|)
    requires forall j | 0 <= j < |moved| :: cs[j].path != ""
    requires Layout(start, volume.files, cs, Staged(cs, |moved|))
    modifies volume
    ensures volume.rows == old(volume.rows)
    ensures Layout(start, volume.files, cs, RolledBack(cs, |moved|, faults.stuck))
    ensures old(volume.trace) <= volume.trace && TraceKept(start, cs, volume.trace, |old(volume.trace)|)
  {
    hide Layout, AudioKept, Belongs, Selected, At;
    ghost var n := |moved|;
    ghost var spots := Staged(cs, n);
    for i := 0 to |moved|
      invariant volume.rows == old(volume.rows) && |spots| == |cs|
      invariant forall j | 0 <= j < |cs| ::
        spots[j] == if j < i then RolledBack(cs, n, faults.stuck)[j] else Staged(cs, n)[j]
      invariant Layout(start, volume.files, cs, spots)
      invariant old(volume.trace) <= volume.trace && TraceKept(start, cs, volume.trace, |old(volume.trace)|)
    {
      var m := moved[i];
      ghost var target := RolledBack(cs, n, faults.stuck)[i];
      if m.path == "" {
        NoFileAnywhere(start, volume.files, cs, spots, spots[i := target], i);
      } else {
        ghost var past := volume.trace;
        RestoreMoves(start, volume.files, cs, spots, i);
        var _ := volume.Rename(Trash(TrashName(m)), Original(m.path), m.id in faults.stuck);
        assert target.InTrash? ==> spots[i := target] == spots;
        TraceGrows(start, cs, past, |old(volume.trace)|, Snapshot(volume.files, volume.rows), spots[i := target]);
      }
      spots := spots[i := target];
    }
    assert spots == RolledBack(cs, n, faults.stuck);
  }

  /** The settling loop: restore what the delete spared, purge the rest. */
  method Settle(volume: Volume, moved: seq<Candidate>, deleted: set<string>, faults: Faults, ghost start: Files,
        ghost cs: seq<Candidate>)
    returns (failures: nat)
    requires Selected(start, cs) && |moved| == |cs| && moved == RememberedAll(start, cs, |cs|)
    requires forall j | 0 <= j < |cs| :: cs[j].path != ""
    requires deleted == Deleted(cs, faults) * faults.scanned && volume.rows !! Deleted(cs, faults)
    requires Layout(start, volume.files, cs, Staged(cs, |cs|))
    modifies volume
    ensures volume.rows == old(volume.rows)
    ensures Layout(start, volume.files, cs, Settled(cs, |cs|, faults))
    ensures failures == PurgeFailures(start, cs, faults, |cs|)
    ensures old(volume.trace) <= volume.trace && TraceKept(start, cs, volume.trace, |old(volume.trace)|)
  {
    hide Layout, AudioKept, Belongs, Selected, At, Deleted;
    failures := 0;
    assert Staged(cs, |cs|) == Settled(cs, 0, faults);
    for i := 0 to |moved|
      invariant volume.rows == old(volume.rows)
      invariant failures == PurgeFailures(start, cs, faults, i)
      invariant Layout(start, volume.files, cs, Settled(cs, i, faults))
      invariant old(volume.trace) <= volume.trace && TraceKept(start, cs, volume.trace, |old(volume.trace)|)
    {
      var m := moved[i];
      ghost var spots := Settled(cs, i, faults);
      ghost var target := SettledSpot(cs, cs[i].id, faults);
      assert spots[i := target] == Settled(cs, i + 1, faults);
      if m.path == "" {
        NoFileAnywhere(start, volume.files, cs, spots, spots[i := target], i);
      } else {
        ghost var past := volume.trace;
        assert target.InTrash? ==> spots[i := target] == spots;
        RestoreMoves(start, volume.files, cs, spots, i);
        PurgeMoves(start, volume.files, cs, spots, i);
        if m.id !in deleted {
          var _ := volume.Rename(Trash(TrashName(m)), Original(m.path), m.id in faults.stuck);
        } else {
          var ok := volume.Remove(Trash(TrashName(m)), m.id in faults.unpurgeable);
          if !ok { failures := failures + 1; }
        }
        assert Layout(start, volume.files, cs, spots[i := target]);
        SettledAlive(cs, faults, volume.rows, i + 1);
        TraceGrows(start, cs, past, |old(volume.trace)|, Snapshot(volume.files, volume.rows),
          Settled(cs, i + 1, faults));
      }
    }
  }

  /** Settling never loses a row that still exists. */
  lemma SettledAlive(cs: seq<Candidate>, faults: Faults, rows: set<string>, n: nat)
    requires rows !! Deleted(cs, faults)
    ensures forall j | 0 <= j < |cs| && cs[j].id in rows :: !Settled(cs, n, faults)[j].Gone?
  {
  }

  method Run(volume: Volume, cs: seq<Candidate>, faults: Faults) returns (exit: Exit)
    requires Selected(volume.files, cs) && "" !in faults.safe
    modifies volume
    ensures exit == ExitOf(old(volume.files), cs, faults)
    ensures Layout(old(volume.files), volume.files, cs, SpotsOf(old(volume.files), cs, faults))
    ensures volume.rows == RowsOf(old(volume.files), old(volume.rows), cs, faults)
    ensures old(volume.trace) <= volume.trace
    ensures TraceKept(old(volume.files), cs, volume.trace, |old(volume.trace)|)
  {
    hide Layout, AudioKept, Belongs, Selected, At;
    ghost var start := volume.files;
    var moved, missing, stop := Stage(volume, cs, faults, start);
    SafeBeforeStop(start, cs, faults, 0);
    if stop < |cs| {
      if cs[stop].path !in faults.safe { return UnsafePath(stop); }
      RollBack(volume, moved, faults, start, cs);
      return StageFailed(stop);
    }
    assert cs[..stop] == cs;
    if !faults.begins { return BeginFailed; }
    var ids := set j | 0 <= j < |cs| :: cs[j].id;
    ghost var past := volume.trace;
    var ok, deleted := volume.DeleteRows(ids, faults);
    TraceGrows(start, cs, past, |old(volume.trace)|, Snapshot(volume.files, volume.rows), Staged(cs, |cs|));
    if !ok {
      RollBack(volume, moved, faults, start, cs);
      return DeleteFailed;
    }
    var failures := Settle(volume, moved, deleted, faults, start, cs);
    exit := Finished(failures + missing);
  }

  lemma SafeBeforeStop(start: Files, cs: seq<Candidate>, faults: Faults, n: nat)
    requires n <= |cs| && "" !in faults.safe
    ensures forall j | n <= j < StagingStop(start, cs, faults, n) :: cs[j].path != ""
    decreases |cs| - n
  {
  }

  /* ---- How it ends ---- */

  /** Whether the run goes past a candidate while staging. */
  predicate Passes(start: Files, c: Candidate, faults: Faults) {
    c.path in faults.safe && (c.id in faults.unmovable ==> Original(c.path) !in start)
  }

  lemma {:induction false} StopsExactly(start: Files, cs: seq<Candidate>, faults: Faults, n: nat)
    requires n <= |cs|
    ensures var stop := StagingStop(start, cs, faults, n);
      && (forall j | n <= j < stop :: Passes(start, cs[j], faults))
      && (stop < |cs| ==> !Passes(start, cs[stop], faults))
    decreases |cs| - n
  {
    if n < |cs| && Passes(start, cs[n], faults) { StopsExactly(start, cs, faults, n + 1); }
  }

  /** The run ends at the first candidate with an unsafe path or a file that cannot be moved; past them all, at a
      transaction that does not begin or does not commit; and otherwise it finishes, and the failures it reports are the
      missing files and the files of deleted rows that could not be removed. */
  lemma EndsExactly(start: Files, cs: seq<Candidate>, faults: Faults)
    ensures match ExitOf(start, cs, faults)
      case UnsafePath(n) =>
        n < |cs| && cs[n].path !in faults.safe && forall j | 0 <= j < n :: Passes(start, cs[j], faults)
      case StageFailed(n) =>
        && n < |cs| && cs[n].path in faults.safe && cs[n].id in faults.unmovable && Original(cs[n].path) in start
        && forall j | 0 <= j < n :: Passes(start, cs[j], faults)
      case BeginFailed => !faults.begins && forall j | 0 <= j < |cs| :: Passes(start, cs[j], faults)
      case DeleteFailed =>
        faults.begins && !faults.commits && forall j | 0 <= j < |cs| :: Passes(start, cs[j], faults)
      case Finished(failures) =>
        && faults.begins && faults.commits && (forall j | 0 <= j < |cs| :: Passes(start, cs[j], faults))
        && failures == |Missing(start, cs)| + |Unremoved(start, cs, faults)|
  {
    StopsExactly(start, cs, faults, 0);
    CountsMissing(start, cs, |cs|);
    CountsUnremoved(start, cs, faults, |cs|);
    assert cs[..|cs|] == cs;
  }

  function Missing(start: Files, cs: seq<Candidate>): set<nat> {
    set j | 0 <= j < |cs| && Original(cs[j].path) !in start
  }

  function Unremoved(start: Files, cs: seq<Candidate>, faults: Faults): set<nat> {
    set j | 0 <= j < |cs| && IsUnremoved(start, cs[j], faults)
  }

  predicate IsUnremoved(start: Files, c: Candidate, faults: Faults) {
    && Original(c.path) in start && c.id in faults.deletable && c.id in faults.scanned
    && c.id in faults.unpurgeable
  }

  lemma {:induction false} CountsMissing(start: Files, cs: seq<Candidate>, n: nat)
    requires n <= |cs|
    ensures MissingAmong(start, cs[..n]) == |Missing(start, cs[..n])|
  {
    if n > 0 {
      CountsMissing(start, cs, n - 1);
      assert cs[..n][..n - 1] == cs[..n - 1];
      var more := if Original(cs[n - 1].path) in start then {} else {(n - 1) as nat};
      assert Missing(start, cs[..n]) == Missing(start, cs[..n - 1]) + more;
    }
  }

  lemma {:induction false} CountsUnremoved(start: Files, cs: seq<Candidate>, faults: Faults, n: nat)
    requires n <= |cs|
    ensures PurgeFailures(start, cs, faults, n) == |Unremoved(start, cs[..n], faults)|
  {
    if n > 0 {
      CountsUnremoved(start, cs, faults, n - 1);
      OneMoreFailure(start, cs, faults, n - 1);
      hide IsUnremoved, PurgeFailures;
      assert cs[..n][..n - 1] == cs[..n - 1];
      var more := if IsUnremoved(start, cs[n - 1], faults) then {(n - 1) as nat} else {};
      assert Unremoved(start, cs[..n], faults) == Unremoved(start, cs[..n - 1], faults) + more;
    } else {
      assert cs[..0] == [];
    }
  }

  lemma OneMoreFailure(start: Files, cs: seq<Candidate>, faults: Faults, n: nat)
    requires n < |cs|
    ensures PurgeFailures(start, cs, faults, n + 1)
      == PurgeFailures(start, cs, faults, n) + if IsUnremoved(start, cs[n], faults) then 1 else 0
  {
    assert cs[n].id in Ids(cs);
  }

  /** The rows that go are the candidates still deletable, and they go only if the run finishes. */
  lemma RowsExactly(start: Files, rows: set<string>, cs: seq<Candidate>, faults: Faults, id: string)
    ensures id in RowsOf(start, rows, cs, faults) <==>
      id in rows
      && !(ExitOf(start, cs, faults).Finished? && id in faults.deletable && exists j :: 0 <= j < |cs| && cs[j].id == id)
  {
  }

  /* ---- What it means ---- */

  /** After a run that committed: a row that was not deleted has its audio at its path unless the restoring
      rename failed, and then it is in the trash; of a deleted row that the run learned of nothing is left
      unless the purge failed; the file of a deleted row whose id could not be scanned is brought home like that of
      a surviving one, and stays there without a row. */
  lemma FinishedRun(start: Files, files: Files, cs: seq<Candidate>, faults: Faults, j: nat)
    requires ExitOf(start, cs, faults).Finished? && Layout(start, files, cs, SpotsOf(start, cs, faults))
    requires j < |cs| && HadFile(start, cs[j])
    ensures cs[j].id !in Deleted(cs, faults) ==>
      At(start, files, cs[j], if cs[j].id in faults.stuck then InTrash else Home)
    ensures cs[j].id in Deleted(cs, faults) * faults.scanned ==>
      At(start, files, cs[j], if cs[j].id in faults.unpurgeable then InTrash else Gone)
    ensures cs[j].id in Deleted(cs, faults) - faults.scanned ==>
      At(start, files, cs[j], if cs[j].id in faults.stuck then InTrash else Home)
  {
    assert At(start, files, cs[j], SpotsOf(start, cs, faults)[j]);
  }

  /** The exits that give the moved files back: a failed move, and a failed delete or commit. An unsafe path or
      a transaction that does not begin ends the run without doing so. */
  predicate RollsBack(exit: Exit) { exit.StageFailed? || exit.DeleteFailed? }

  /** How many candidates were staged before a run that did not commit. */
  function StagedCount(cs: seq<Candidate>, exit: Exit): nat {
    match exit
    case UnsafePath(stop) => stop
    case StageFailed(stop) => stop
    case _ => |cs|
  }

  /** A run that did not commit leaves exactly the starting files if and only if it had moved none, or rolls back
      and every restoring rename works. */
  lemma UnfinishedRun(start: Files, files: Files, cs: seq<Candidate>, faults: Faults)
    requires Selected(start, cs) && !ExitOf(start, cs, faults).Finished?
    requires Layout(start, files, cs, SpotsOf(start, cs, faults))
    ensures var exit := ExitOf(start, cs, faults);
      files == start <==>
        forall j | 0 <= j < |cs| && j < StagedCount(cs, exit) && HadFile(start, cs[j]) ::
          RollsBack(exit) && cs[j].id !in faults.stuck
  {
    RestoredExactly(start, files, cs, SpotsOf(start, cs, faults));
    var exit := ExitOf(start, cs, faults);
    forall j | 0 <= j < |cs| ensures SpotsOf(start, cs, faults)[j].Home? <==>
        (j >= StagedCount(cs, exit) || (RollsBack(exit) && cs[j].id !in faults.stuck))
    {
    }
  }

  /** So a transaction that does not begin strands every staged file in the trash. */
  lemma BeginFailureStrands(start: Files, files: Files, cs: seq<Candidate>, faults: Faults, j: nat)
    requires ExitOf(start, cs, faults).BeginFailed? && Layout(start, files, cs, SpotsOf(start, cs, faults))
    requires j < |cs| && HadFile(start, cs[j])
    ensures At(start, files, cs[j], InTrash)
  {
    assert At(start, files, cs[j], SpotsOf(start, cs, faults)[j]);
  }
}
