/** A destructive retention run: move to trash, delete in the database, then restore or purge. */
module Retention {
  datatype Candidate = Candidate(id: string, path: string)

  /** A file under the audio root, or in the run's own trash directory. */
  datatype Place = Original(path: string) | Trash(name: string)

  type Files = map<Place, seq<int>>

  /** The files and the ids of `calls` at one instant: what a crash there would leave. */
  datatype Snapshot = Snapshot(files: Files, rows: set<string>)

  /* ---- Trash names ---- */

  /** `filepath.Ext`: from the last dot of the last path element, or nothing. */
  function Ext(path: string): (ext: string)
    ensures ext == "" || ext[0] == '.'
    decreases |path|
  {
    if path == "" || path[|path| - 1] == '/' then ""
    else if path[|path| - 1] == '.' then "."
    else
      var ext := Ext(path[..|path| - 1]);
      if ext == "" then "" else ext + [path[|path| - 1]]
  }

  /** It is a suffix that starts at a dot and holds no other, and there is one whenever the last element has a dot. */
  lemma {:induction false} ExtIsLastDot(path: string)
    ensures var n := |path| - |Ext(path)|;
      && 0 <= n && path[n..] == Ext(path)
      && (forall i | n < i < |path| :: path[i] != '.' && path[i] != '/')
      && (Ext(path) == "" ==> forall i | 0 <= i < |path| && path[i] == '.' :: '/' in path[i..])
    decreases |path|
  {
    if path != "" && path[|path| - 1] != '/' && path[|path| - 1] != '.' {
      var front := path[..|path| - 1];
      ExtIsLastDot(front);
      assert path == front + [path[|path| - 1]];
      if Ext(front) == "" {
        forall i | 0 <= i < |path| && path[i] == '.' ensures '/' in path[i..] {
          assert front[i] == '.' && '/' in front[i..];
          assert path[i..] == front[i..] + [path[|path| - 1]];
        }
      }
    } else if path != "" && path[|path| - 1] == '/' {
      forall i | 0 <= i < |path| ensures '/' in path[i..] { assert path[i..][|path| - 1 - i] == '/'; }
    }
  }

  function TrashName(c: Candidate): string { c.id + Ext(c.path) }

  /** The name of the file is the id with the file's extension, if the last element of its path has one. */
  lemma TrashNameSays(c: Candidate, front: string, last: string)
    requires '.' !in last && '/' !in last
    ensures c.path == front + "." + last ==> TrashName(c) == c.id + "." + last
    ensures c.path == last || c.path == front + "/" + last ==> TrashName(c) == c.id
  {
    ExtIsLastDot(c.path);
    var n := |c.path| - |Ext(c.path)|;
    if c.path == front + "." + last {
      assert c.path[|front|] == '.' && c.path[|front|..] == "." + last;
      assert forall i | |front| < i < |c.path| :: c.path[i] == last[i - |front| - 1];
    } else if c.path == last || c.path == front + "/" + last {
      var m := |c.path| - |last|;
      assert forall i | m <= i < |c.path| :: c.path[i] == last[i - m];
    }
  }

  /** Call ids are hexadecimal, so they hold no dot. */
  predicate DotFree(id: string) { '.' !in id }

  lemma TrashNamesDiffer(a: Candidate, b: Candidate)
    requires DotFree(a.id) && DotFree(b.id) && TrashName(a) == TrashName(b)
    ensures a.id == b.id
  {
    DotAfterId(a);
    DotAfterId(b);
    assert |a.id| == |b.id|;
    assert a.id == TrashName(a)[..|a.id|] && b.id == TrashName(b)[..|b.id|];
  }

  /** The id is the name up to its first dot. */
  lemma DotAfterId(c: Candidate)
    requires DotFree(c.id)
    ensures forall i | 0 <= i < |c.id| :: TrashName(c)[i] != '.'
    ensures |c.id| < |TrashName(c)| ==> TrashName(c)[|c.id|] == '.'
  {
    assert forall i | 0 <= i < |c.id| :: TrashName(c)[i] == c.id[i];
  }

  /** Ids and paths are unique columns, and the trash directory is new. */
  ghost predicate Selected(files: Files, cs: seq<Candidate>) {
    && (forall j | 0 <= j < |cs| :: DotFree(cs[j].id))
    && (forall j, k | 0 <= j < k < |cs| :: cs[j].id != cs[k].id && cs[j].path != cs[k].path)
    && (forall place | place in files :: place.Original?)
  }

  /* ---- Where the audio of each candidate is ---- */

  datatype Spot = Home | InTrash | Gone

  predicate HadFile(start: Files, c: Candidate) { Original(c.path) in start }

  predicate At(start: Files, files: Files, c: Candidate, spot: Spot)
    requires HadFile(start, c)
  {
    var audio := start[Original(c.path)];
    match spot
    case Home => Original(c.path) in files && files[Original(c.path)] == audio && Trash(TrashName(c)) !in files
    case InTrash => Original(c.path) !in files && Trash(TrashName(c)) in files && files[Trash(TrashName(c))] == audio
    case Gone => Original(c.path) !in files && Trash(TrashName(c)) !in files
  }

  ghost predicate Belongs(cs: seq<Candidate>, place: Place) {
    exists j :: 0 <= j < |cs| && (place == Original(cs[j].path) || place == Trash(TrashName(cs[j])))
  }

  /** The files are exactly the starting files with each candidate's audio at its spot. */
  ghost predicate Layout(start: Files, files: Files, cs: seq<Candidate>, spots: seq<Spot>) {
    && |spots| == |cs|
    && (forall j | 0 <= j < |cs| ::
          if HadFile(start, cs[j]) then At(start, files, cs[j], spots[j])
          else Original(cs[j].path) !in files && Trash(TrashName(cs[j])) !in files)
    && (forall place | !Belongs(cs, place) ::
      (place in files <==> place in start) && (place in files ==> files[place] == start[place]))
  }

  /** Equal layouts are equal files. */
  lemma LayoutUnique(start: Files, a: Files, b: Files, cs: seq<Candidate>, spots: seq<Spot>)
    requires Layout(start, a, cs, spots) && Layout(start, b, cs, spots)
    ensures a == b
  {
    forall place ensures (place in a <==> place in b) && (place in a ==> a[place] == b[place]) {
      if Belongs(cs, place) {
        var j :| 0 <= j < |cs| && (place == Original(cs[j].path) || place == Trash(TrashName(cs[j])));
        assert HadFile(start, cs[j]) ==> At(start, a, cs[j], spots[j]) && At(start, b, cs[j], spots[j]);
      }
    }
  }

  function AllHome(n: nat): seq<Spot> { seq(n, _ => Home) }

  lemma StartLayout(start: Files, cs: seq<Candidate>)
    requires Selected(start, cs)
    ensures Layout(start, start, cs, AllHome(|cs|))
  {
  }

  /** The files are back as they were exactly when every candidate's audio is home. */
  lemma RestoredExactly(start: Files, files: Files, cs: seq<Candidate>, spots: seq<Spot>)
    requires Selected(start, cs) && Layout(start, files, cs, spots)
    ensures files == start <==> forall j | 0 <= j < |cs| && HadFile(start, cs[j]) :: spots[j].Home?
  {
    StartLayout(start, cs);
    if forall j | 0 <= j < |cs| && HadFile(start, cs[j]) :: spots[j].Home? {
      assert Layout(start, files, cs, AllHome(|cs|)) by {
        forall j | 0 <= j < |cs| && HadFile(start, cs[j])
          ensures At(start, files, cs[j], Home)
        {
          assert spots[j].Home?;
        }
      }
      LayoutUnique(start, files, start, cs, AllHome(|cs|));
    } else {
      var j :| 0 <= j < |cs| && HadFile(start, cs[j]) && !spots[j].Home?;
      assert At(start, files, cs[j], spots[j]);
    }
  }

  /* ---- Moves ---- */

  function MoveFile(files: Files, from: Place, to: Place): Files
    requires from in files
  {
    (files - {from})[to := files[from]]
  }

  lemma PlacesApart(cs: seq<Candidate>, j: nat, k: nat)
    requires j < |cs| && k < |cs| && j != k && DotFree(cs[j].id) && DotFree(cs[k].id)
    requires cs[j].id != cs[k].id && cs[j].path != cs[k].path
    ensures Original(cs[j].path) != Original(cs[k].path) && Trash(TrashName(cs[j])) != Trash(TrashName(cs[k]))
  {
    if TrashName(cs[j]) == TrashName(cs[k]) { TrashNamesDiffer(cs[j], cs[k]); }
  }

  /** A change at one candidate's two places moves only its spot. */
  lemma SpotMoves(start: Files, files: Files, files': Files, cs: seq<Candidate>, spots: seq<Spot>, j: nat, spot: Spot)
    requires Selected(start, cs) && Layout(start, files, cs, spots) && j < |cs| && HadFile(start, cs[j])
    requires At(start, files', cs[j], spot)
    requires forall place | place != Original(cs[j].path) && place != Trash(TrashName(cs[j])) ::
      (place in files' <==> place in files) && (place in files' ==> files'[place] == files[place])
    ensures Layout(start, files', cs, spots[j := spot])
  {
    forall k | 0 <= k < |cs| && k != j
      ensures Original(cs[j].path) != Original(cs[k].path) && Trash(TrashName(cs[j])) != Trash(TrashName(cs[k]))
    {
      PlacesApart(cs, j, k);
    }
    assert Belongs(cs, Original(cs[j].path)) && Belongs(cs, Trash(TrashName(cs[j])));
  }

  /** Reading a layout at one candidate. */
  lemma SpotOf(start: Files, files: Files, cs: seq<Candidate>, spots: seq<Spot>, j: nat)
    requires Layout(start, files, cs, spots) && j < |cs|
    ensures HadFile(start, cs[j]) ==> At(start, files, cs[j], spots[j])
    ensures !HadFile(start, cs[j]) ==> Original(cs[j].path) !in files
  {
  }

  /** The two renames and the removal. */
  lemma StageMoves(start: Files, files: Files, cs: seq<Candidate>, spots: seq<Spot>, j: nat)
    requires Selected(start, cs) && Layout(start, files, cs, spots) && j < |cs| && HadFile(start, cs[j])
    requires spots[j].Home?
    ensures Original(cs[j].path) in files
    ensures Layout(start, MoveFile(files, Original(cs[j].path), Trash(TrashName(cs[j]))), cs, spots[j := InTrash])
  {
    SpotOf(start, files, cs, spots, j);
    SpotMoves(start, files, MoveFile(files, Original(cs[j].path), Trash(TrashName(cs[j]))), cs, spots, j, InTrash);
  }

  lemma RestoreMoves(start: Files, files: Files, cs: seq<Candidate>, spots: seq<Spot>, j: nat)
    requires Selected(start, cs) && Layout(start, files, cs, spots) && j < |cs| && HadFile(start, cs[j])
    requires spots[j].InTrash?
    ensures Trash(TrashName(cs[j])) in files
    ensures Layout(start, MoveFile(files, Trash(TrashName(cs[j])), Original(cs[j].path)), cs, spots[j := Home])
  {
    SpotOf(start, files, cs, spots, j);
    SpotMoves(start, files, MoveFile(files, Trash(TrashName(cs[j])), Original(cs[j].path)), cs, spots, j, Home);
  }

  lemma PurgeMoves(start: Files, files: Files, cs: seq<Candidate>, spots: seq<Spot>, j: nat)
    requires Selected(start, cs) && Layout(start, files, cs, spots) && j < |cs| && HadFile(start, cs[j])
    requires spots[j].InTrash?
    ensures Trash(TrashName(cs[j])) in files
    ensures Layout(start, files - {Trash(TrashName(cs[j]))}, cs, spots[j := Gone])
  {
    SpotOf(start, files, cs, spots, j);
    SpotMoves(start, files, files - {Trash(TrashName(cs[j]))}, cs, spots, j, Gone);
  }

  /* ---- What the outside world does during the run ---- */

  /** Ids whose rename fails when staging, whose restoring rename fails, whose purge fails; the paths that pass
      the safety check; whether the transaction begins and commits; the ids still deletable at the delete; and
      the deleted ids whose scan succeeds. */
  datatype Faults = Faults(
    unmovable: set<string>, stuck: set<string>, unpurgeable: set<string>, safe: set<string>,
    begins: bool, commits: bool, deletable: set<string>, scanned: set<string>)

  datatype Exit = UnsafePath(at: nat) | StageFailed(at: nat) | BeginFailed | DeleteFailed | Finished(failures: nat)

  function Ids(cs: seq<Candidate>): set<string> { set j | 0 <= j < |cs| :: cs[j].id }

  function Deleted(cs: seq<Candidate>, faults: Faults): set<string> { Ids(cs) * faults.deletable }

  /** At every instant the audio of a row that exists and had a file is where it was, or in the trash. */
  ghost predicate AudioKept(start: Files, cs: seq<Candidate>, now: Snapshot) {
    && (forall j | 0 <= j < |cs| && HadFile(start, cs[j]) && cs[j].id in now.rows ::
          At(start, now.files, cs[j], Home) || At(start, now.files, cs[j], InTrash))
    && (forall place | place in start && !Belongs(cs, place) :: place in now.files && now.files[place] == start[place])
  }

  lemma LayoutKeeps(start: Files, cs: seq<Candidate>, now: Snapshot, spots: seq<Spot>)
    requires Layout(start, now.files, cs, spots)
    requires forall j | 0 <= j < |cs| && cs[j].id in now.rows :: !spots[j].Gone?
    ensures AudioKept(start, cs, now)
  {
    forall j | 0 <= j < |cs| && HadFile(start, cs[j]) && cs[j].id in now.rows
      ensures At(start, now.files, cs[j], Home) || At(start, now.files, cs[j], InTrash)
    {
      assert At(start, now.files, cs[j], spots[j]);
    }
  }

  /** Spots after the run has staged the first `n` candidates. */
  function Staged(cs: seq<Candidate>, n: nat): seq<Spot> {
    seq(|cs|, j => if j < n then InTrash else Home)
  }

  /** Spots after a rollback from there. */
  function RolledBack(cs: seq<Candidate>, n: nat, stuck: set<string>): seq<Spot> {
    seq(|cs|, j requires 0 <= j < |cs| => if j < n && cs[j].id in stuck then InTrash else Home)
  }

  /** Spots after the settling loop. */
  function Settled(cs: seq<Candidate>, n: nat, faults: Faults): seq<Spot> {
    seq(|cs|, j requires 0 <= j < |cs| => if j < n then SettledSpot(cs, cs[j].id, faults) else InTrash)
  }

  function SettledSpot(cs: seq<Candidate>, id: string, faults: Faults): Spot {
    if id !in Deleted(cs, faults) * faults.scanned then (if id in faults.stuck then InTrash else Home)
    else if id in faults.unpurgeable then InTrash
    else Gone
  }
}
