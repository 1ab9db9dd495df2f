/** Why the expiry answer needs its timing assumption: a concrete interleaving, outside that assumption, in
    which one idempotency key gets two calls. */
module IngestionRaces {
  import opened Basics
  import opened Ingestion
  import IngestionOwnership

  const CALL := CallMeta("", 0, 1, "", "sys", "", "tg", "", "", "", "")
  const REQUEST := UploadRequest("S", "k", "mp3", CALL)
  const AUDIO := [7]
  const CFG := DEFAULTS
  const ORIGIN := Start(CFG, 0)

  /** The first token's expiry, the moment after it, and the expiry of the tokens handed out then. */
  const EXPIRY := 900_000
  const LATER := 900_001
  const RENEWED := 1_800_001

  function Waiting(token: Token, expires: int): Row {
    Row("S", "k", token, CALL, "mp3", expires, Pending, None, None, 0, None, None)
  }

  function Owned(token: Token, expires: int): Row {
    Waiting(token, expires).(status := Uploading, lease := Some(LATER + LEASE))
  }

  /** Looked up with the first token just before it expires, and answered only after it was replaced. */
  const STALE := Handler(1, 0, Waiting(1, EXPIRY), false, Looked)

  function First(stage: Stage): Handler { Handler(2, 0, Waiting(2, RENEWED), false, stage) }

  function Second(stage: Stage): Handler { Handler(3, 0, Waiting(3, RENEWED), false, stage) }

  lemma LookedUp() returns (s: State, steps: seq<Step>)
    ensures Reached(ORIGIN, s, steps) && s.cfg == CFG && s.now == EXPIRY
    ensures s.rows == map[0 := Waiting(1, EXPIRY)] && s.calls == map[] && s.creating == map[]
    ensures s.handlers == map[0 := STALE]
    ensures s.files == map[]
    ensures s.history.issued == map[1 := 0] && s.history.committed == [] && s.history.callIds == {}
  {
    s, steps := ORIGIN, [];
    var step: Step;
    step := CreateLookup(0, REQUEST, None);
    Go(ORIGIN, s, steps, step);
    s, steps := Next(s, step), steps + [step];
    step := CreateUpsert(0, None, 1, 0);
    Go(ORIGIN, s, steps, step);
    s, steps := Next(s, step), steps + [step];
    step := Tick(EXPIRY);
    Go(ORIGIN, s, steps, step);
    s, steps := Next(s, step), steps + [step];
    step := Lookup(0, 1, false);
    Go(ORIGIN, s, steps, step);
    s, steps := Next(s, step), steps + [step];
  }

  lemma Asked() returns (s: State, steps: seq<Step>)
    ensures Reached(ORIGIN, s, steps) && s.cfg == CFG && s.now == LATER
    ensures s.rows == map[0 := Waiting(1, EXPIRY)] && s.calls == map[] && s.creating == map[0 := REQUEST]
    ensures s.handlers == map[0 := STALE]
    ensures s.files == map[]
    ensures s.history.issued == map[1 := 0] && s.history.committed == [] && s.history.callIds == {}
  {
    hide Reached;
    s, steps := LookedUp();
    var step: Step;
    step := Tick(LATER);
    Go(ORIGIN, s, steps, step);
    s, steps := Next(s, step), steps + [step];
    step := CreateLookup(0, REQUEST, None);
    Go(ORIGIN, s, steps, step);
    s, steps := Next(s, step), steps + [step];
  }

  lemma Renewing() returns (s: State, steps: seq<Step>)
    ensures Reached(ORIGIN, s, steps) && s.cfg == CFG && s.now == LATER
    ensures s.rows == map[0 := Waiting(2, RENEWED)] && s.calls == map[] && s.creating == map[]
    ensures s.handlers == map[0 := STALE, 1 := First(Looked)]
    ensures s.files == map[]
    ensures s.history.issued == map[1 := 0, 2 := 0] && s.history.committed == [] && s.history.callIds == {}
  {
    hide Reached;
    s, steps := Asked();
    var step: Step;
    step := CreateUpsert(0, Some(0), 2, 1);
    Go(ORIGIN, s, steps, step);
    s, steps := Next(s, step), steps + [step];
    step := Lookup(1, 2, false);
    Go(ORIGIN, s, steps, step);
    s, steps := Next(s, step), steps + [step];
  }

  lemma FirstReceived() returns (s: State, steps: seq<Step>)
    ensures Reached(ORIGIN, s, steps) && s.cfg == CFG && s.now == LATER
    ensures s.rows == map[0 := Owned(2, RENEWED)] && s.calls == map[] && s.creating == map[]
    ensures s.handlers == map[0 := STALE, 1 := First(Valid(AUDIO))]
    ensures s.files == map[Tmp(1) := AUDIO]
    ensures s.history.issued == map[1 := 0, 2 := 0] && s.history.committed == [] && s.history.callIds == {}
  {
    hide Reached;
    s, steps := Renewing();
    var step: Step;
    step := Claim(1);
    Go(ORIGIN, s, steps, step);
    s, steps := Next(s, step), steps + [step];
    step := Receive(1, AUDIO);
    Go(ORIGIN, s, steps, step);
    s, steps := Next(s, step), steps + [step];
    step := Accept(1);
    Go(ORIGIN, s, steps, step);
    s, steps := Next(s, step), steps + [step];
  }

  lemma FirstRenamed() returns (s: State, steps: seq<Step>)
    ensures Reached(ORIGIN, s, steps) && s.cfg == CFG && s.now == LATER
    ensures s.rows == map[0 := Owned(2, RENEWED)] && s.calls == map[] && s.creating == map[]
    ensures s.handlers == map[0 := STALE, 1 := First(Renamed(AUDIO, 0))]
    ensures s.files == map[Final(0, 0, "mp3") := AUDIO]
    ensures s.history.issued == map[1 := 0, 2 := 0] && s.history.committed == [] && s.history.callIds == {0}
  {
    hide Reached;
    s, steps := FirstReceived();
    var step: Step;
    step := NoDuplicate(1);
    Go(ORIGIN, s, steps, step);
    s, steps := Next(s, step), steps + [step];
    step := Rename(1, 0);
    Go(ORIGIN, s, steps, step);
    s, steps := Next(s, step), steps + [step];
  }

  lemma StaleAnswer() returns (s: State, steps: seq<Step>)
    ensures Reached(ORIGIN, s, steps) && s.cfg == CFG && s.now == LATER
    ensures s.rows == map[0 := Waiting(2, RENEWED).(status := Expired)] && s.calls == map[] && s.creating == map[]
    ensures s.handlers == map[1 := First(Renamed(AUDIO, 0))]
    ensures s.files == map[Final(0, 0, "mp3") := AUDIO]
    ensures s.history.issued == map[1 := 0, 2 := 0] && s.history.committed == [] && s.history.callIds == {0}
  {
    hide Reached;
    s, steps := FirstRenamed();
    var step := AnswerExpired(0);
    Go(ORIGIN, s, steps, step);
    s, steps := Next(s, step), steps + [step];
  }

  lemma Reset() returns (s: State, steps: seq<Step>)
    ensures Reached(ORIGIN, s, steps) && s.cfg == CFG && s.now == LATER
    ensures s.rows == map[0 := Waiting(2, RENEWED).(status := Expired)] && s.calls == map[]
    ensures s.creating == map[0 := REQUEST]
    ensures s.handlers == map[1 := First(Renamed(AUDIO, 0))]
    ensures s.files == map[Final(0, 0, "mp3") := AUDIO]
    ensures s.history.issued == map[1 := 0, 2 := 0] && s.history.committed == [] && s.history.callIds == {0}
  {
    hide Reached;
    s, steps := StaleAnswer();
    var step := CreateLookup(0, REQUEST, None);
    Go(ORIGIN, s, steps, step);
    s, steps := Next(s, step), steps + [step];
  }

  lemma Overtaken() returns (s: State, steps: seq<Step>)
    ensures Reached(ORIGIN, s, steps) && s.cfg == CFG && s.now == LATER
    ensures s.rows == map[0 := Waiting(3, RENEWED)] && s.calls == map[] && s.creating == map[]
    ensures s.handlers == map[1 := First(Renamed(AUDIO, 0)), 2 := Second(Looked)]
    ensures s.files == map[Final(0, 0, "mp3") := AUDIO]
    ensures s.history.issued == map[1 := 0, 2 := 0, 3 := 0] && s.history.committed == [] && s.history.callIds == {0}
  {
    hide Reached;
    s, steps := Reset();
    var step: Step;
    step := CreateUpsert(0, Some(0), 3, 1);
    Go(ORIGIN, s, steps, step);
    s, steps := Next(s, step), steps + [step];
    step := Lookup(2, 3, false);
    Go(ORIGIN, s, steps, step);
    s, steps := Next(s, step), steps + [step];
  }

  lemma SecondClaimed() returns (s: State, steps: seq<Step>)
    ensures Reached(ORIGIN, s, steps) && s.cfg == CFG && s.now == LATER
    ensures s.rows == map[0 := Owned(3, RENEWED)] && s.calls == map[] && s.creating == map[]
    ensures s.handlers == map[1 := First(Renamed(AUDIO, 0)), 2 := Second(Claimed)]
    ensures s.files == map[Final(0, 0, "mp3") := AUDIO]
    ensures s.history.issued == map[1 := 0, 2 := 0, 3 := 0] && s.history.committed == [] && s.history.callIds == {0}
  {
    hide Reached;
    s, steps := Overtaken();
    var step: Step;
    step := Claim(2);
    Go(ORIGIN, s, steps, step);
    s, steps := Next(s, step), steps + [step];
  }

  lemma SecondReceived() returns (s: State, steps: seq<Step>)
    ensures Reached(ORIGIN, s, steps) && s.cfg == CFG && s.now == LATER
    ensures s.rows == map[0 := Owned(3, RENEWED)] && s.calls == map[] && s.creating == map[]
    ensures s.handlers == map[1 := First(Renamed(AUDIO, 0)), 2 := Second(Valid(AUDIO))]
    ensures s.files == map[Final(0, 0, "mp3") := AUDIO, Tmp(2) := AUDIO]
    ensures s.history.issued == map[1 := 0, 2 := 0, 3 := 0] && s.history.committed == [] && s.history.callIds == {0}
  {
    hide Reached;
    s, steps := SecondClaimed();
    var step: Step;
    step := Receive(2, AUDIO);
    Go(ORIGIN, s, steps, step);
    s, steps := Next(s, step), steps + [step];
    step := Accept(2);
    Go(ORIGIN, s, steps, step);
    s, steps := Next(s, step), steps + [step];
  }

  lemma SecondRenamed() returns (s: State, steps: seq<Step>)
    ensures Reached(ORIGIN, s, steps) && s.cfg == CFG && s.now == LATER
    ensures s.rows == map[0 := Owned(3, RENEWED)] && s.calls == map[] && s.creating == map[]
    ensures s.handlers == map[1 := First(Renamed(AUDIO, 0)), 2 := Second(Renamed(AUDIO, 1))]
    ensures s.files == map[Final(0, 0, "mp3") := AUDIO, Final(0, 1, "mp3") := AUDIO]
    ensures s.history.issued == map[1 := 0, 2 := 0, 3 := 0] && s.history.committed == [] && s.history.callIds == {0, 1}
  {
    hide Reached;
    s, steps := SecondReceived();
    var step: Step;
    step := NoDuplicate(2);
    Go(ORIGIN, s, steps, step);
    s, steps := Next(s, step), steps + [step];
    step := Rename(2, 1);
    Go(ORIGIN, s, steps, step);
    s, steps := Next(s, step), steps + [step];
  }

  lemma FirstCommitted() returns (s: State, steps: seq<Step>)
    ensures Reached(ORIGIN, s, steps) && CanCommit(s, 2)
    ensures s.handlers[2] == Second(Renamed(AUDIO, 1))
    ensures s.history.committed == [NewCommit(First(Renamed(AUDIO, 0)))]
  {
    hide Reached;
    s, steps := SecondRenamed();
    var step := Commit(1);
    Go(ORIGIN, s, steps, step);
    s, steps := Next(s, step), steps + [step];
  }

  /** With the default configuration both uploads commit: two calls for one key of one sender. */
  lemma StaleExpiryStoresTwice() returns (steps: seq<Step>)
    ensures Loadable(CFG) && Possible(ORIGIN, steps) && !InTime(ORIGIN, steps)
    ensures var committed := Run(ORIGIN, steps).history.committed;
      |committed| == 2 && committed[0].callId != committed[1].callId
      && committed[0].sender == committed[1].sender && committed[0].key == committed[1].key == "k"
  {
    var s: State;
    s, steps := FirstCommitted();
    var step := Commit(2);
    Go(ORIGIN, s, steps, step);
    s, steps := Next(s, step), steps + [step];
    if InTime(ORIGIN, steps) { IngestionOwnership.OneCallPerKey(CFG, 0, steps, 0, 1); }
  }
}
