/** Runs from the start, with the default configuration, in which the protocol does less than one might hope, although
    every timing assumption but the one in question holds. */
module IngestionExamples {
  import opened Basics
  import opened Ingestion
  import IngestionPacking

  const CALL := CallMeta("", 0, 1, "", "sys", "", "tg", "", "", "", "")
  const AUDIO := [7]
  const CFG := DEFAULTS
  const ORIGIN := Start(CFG, 0)

  /* ---- Two near calls, both stored ---- */

  function Asked(id: string): UploadRequest { UploadRequest("S", id, "mp3", CALL.(sourceId := id)) }

  function RowFor(id: string, token: Token, status: Status, lease: Option<int>): Row {
    Row("S", id, token, CALL.(sourceId := id), "mp3", 900_000, status, lease, None, 0, None, None)
  }

  function HandlerFor(id: string, token: Token, row: RowId, stage: Stage): Handler {
    Handler(token, row, RowFor(id, token, Pending, None), false, stage)
  }

  lemma InTimeRun(s: State, steps: seq<Step>)
    requires ReachedInTime(ORIGIN, s, steps)
    ensures Possible(ORIGIN, steps) && InTime(ORIGIN, steps) && Run(ORIGIN, steps) == s
  {
  }

  lemma TwoRows() returns (s: State, steps: seq<Step>)
    ensures ReachedInTime(ORIGIN, s, steps) && s.cfg == CFG && s.now == 0
    ensures s.rows == map[0 := RowFor("a", 1, Pending, None), 1 := RowFor("b", 2, Pending, None)]
    ensures s.calls == map[] && s.handlers == map[] && s.files == map[]
    ensures s.history.issued == map[1 := 0, 2 := 1] && s.history.callIds == {}
  {
    s, steps := ORIGIN, [];
    assert ReachedInTime(ORIGIN, s, steps);
    hide ReachedInTime;
    var step: Step;
    step := CreateLookup(0, Asked("a"), None);
    GoInTime(ORIGIN, s, steps, step);
    s, steps := Next(s, step), steps + [step];
    step := CreateUpsert(0, None, 1, 0);
    GoInTime(ORIGIN, s, steps, step);
    s, steps := Next(s, step), steps + [step];
    step := CreateLookup(1, Asked("b"), None);
    GoInTime(ORIGIN, s, steps, step);
    s, steps := Next(s, step), steps + [step];
    step := CreateUpsert(1, None, 2, 1);
    GoInTime(ORIGIN, s, steps, step);
    s, steps := Next(s, step), steps + [step];
  }

  lemma BothClaimed() returns (s: State, steps: seq<Step>)
    ensures ReachedInTime(ORIGIN, s, steps) && s.cfg == CFG && s.now == 0
    ensures s.rows == map[0 := RowFor("a", 1, Uploading, Some(LEASE)), 1 := RowFor("b", 2, Uploading, Some(LEASE))]
    ensures s.handlers == map[0 := HandlerFor("a", 1, 0, Claimed), 1 := HandlerFor("b", 2, 1, Claimed)]
    ensures s.calls == map[] && s.files == map[] && s.history.callIds == {}
  {
    hide ReachedInTime;
    s, steps := TwoRows();
    var step: Step;
    step := Lookup(0, 1, false);
    GoInTime(ORIGIN, s, steps, step);
    s, steps := Next(s, step), steps + [step];
    step := Claim(0);
    GoInTime(ORIGIN, s, steps, step);
    s, steps := Next(s, step), steps + [step];
    step := Lookup(1, 2, false);
    GoInTime(ORIGIN, s, steps, step);
    s, steps := Next(s, step), steps + [step];
    step := Claim(1);
    GoInTime(ORIGIN, s, steps, step);
    s, steps := Next(s, step), steps + [step];
  }

  lemma BothValid() returns (s: State, steps: seq<Step>)
    ensures ReachedInTime(ORIGIN, s, steps) && s.cfg == CFG && s.now == 0
    ensures s.rows == map[0 := RowFor("a", 1, Uploading, Some(LEASE)), 1 := RowFor("b", 2, Uploading, Some(LEASE))]
    ensures s.handlers == map[0 := HandlerFor("a", 1, 0, Valid(AUDIO)), 1 := HandlerFor("b", 2, 1, Valid(AUDIO))]
    ensures s.calls == map[] && s.files == map[Tmp(0) := AUDIO, Tmp(1) := AUDIO] && s.history.callIds == {}
  {
    hide ReachedInTime;
    s, steps := BothClaimed();
    var step: Step;
    step := Receive(0, AUDIO);
    GoInTime(ORIGIN, s, steps, step);
    s, steps := Next(s, step), steps + [step];
    step := Receive(1, AUDIO);
    GoInTime(ORIGIN, s, steps, step);
    s, steps := Next(s, step), steps + [step];
    step := Accept(0);
    GoInTime(ORIGIN, s, steps, step);
    s, steps := Next(s, step), steps + [step];
    step := Accept(1);
    GoInTime(ORIGIN, s, steps, step);
    s, steps := Next(s, step), steps + [step];
  }

  lemma BothChecked() returns (s: State, steps: seq<Step>)
    ensures ReachedInTime(ORIGIN, s, steps) && s.cfg == CFG && s.now == 0
    ensures s.rows == map[0 := RowFor("a", 1, Uploading, Some(LEASE)), 1 := RowFor("b", 2, Uploading, Some(LEASE))]
    ensures s.handlers == map[0 := HandlerFor("a", 1, 0, Checked(AUDIO)), 1 := HandlerFor("b", 2, 1, Checked(AUDIO))]
    ensures s.calls == map[] && s.files == map[Tmp(0) := AUDIO, Tmp(1) := AUDIO] && s.history.callIds == {}
  {
    hide ReachedInTime;
    s, steps := BothValid();
    var step: Step;
    step := NoDuplicate(0);
    GoInTime(ORIGIN, s, steps, step);
    s, steps := Next(s, step), steps + [step];
    step := NoDuplicate(1);
    GoInTime(ORIGIN, s, steps, step);
    s, steps := Next(s, step), steps + [step];
  }

  lemma BothRenamed() returns (s: State, steps: seq<Step>)
    ensures ReachedInTime(ORIGIN, s, steps) && s.cfg == CFG && s.now == 0
    ensures s.rows == map[0 := RowFor("a", 1, Uploading, Some(LEASE)), 1 := RowFor("b", 2, Uploading, Some(LEASE))]
    ensures s.handlers ==
      map[0 := HandlerFor("a", 1, 0, Renamed(AUDIO, 0)), 1 := HandlerFor("b", 2, 1, Renamed(AUDIO, 1))]
    ensures s.calls == map[]
  {
    hide ReachedInTime;
    s, steps := BothChecked();
    var step: Step;
    step := Rename(0, 0);
    GoInTime(ORIGIN, s, steps, step);
    s, steps := Next(s, step), steps + [step];
    step := Rename(1, 1);
    GoInTime(ORIGIN, s, steps, step);
    s, steps := Next(s, step), steps + [step];
  }

  /** A run, in time, after which two calls of one sender with different source ids are near each other. */
  lemma NearCallsStoredTwice() returns (steps: seq<Step>)
    ensures Loadable(CFG) && Possible(ORIGIN, steps) && InTime(ORIGIN, steps)
    ensures !IngestionPacking.Packed(Run(ORIGIN, steps)) && !IngestionPacking.SerialRun(ORIGIN, steps)
  {
    var s: State;
    s, steps := BothRenamed();
    var before := s;
    IngestionPacking.OverlapBreaksPacking(before, 0, 1);
    var step: Step;
    step := Commit(0);
    GoInTime(ORIGIN, s, steps, step);
    s, steps := Next(s, step), steps + [step];
    step := Commit(1);
    GoInTime(ORIGIN, s, steps, step);
    s, steps := Next(s, step), steps + [step];
    assert s == DoCommit(DoCommit(before, 0), 1);
    InTimeRun(s, steps);
    if IngestionPacking.SerialRun(ORIGIN, steps) { IngestionPacking.ArchiveIsPacked(CFG, 0, steps); }
  }

  /* ---- A quarantined upload, and what a stale answer does to it ---- */

  const REQUEST := Asked("k")

  /** The upload's row after this many failures. */
  function KeyRow(failures: nat, status: Status, lease: Option<int>): Row {
    var row := RowFor("k", 1, status, lease);
    if failures == 0 then row
    else row.(failCount := failures, failFirst := Some(0), rejected := Some(Sha(AUDIO)))
  }

  /** A legacy request that found the row so. */
  function Legacy(failures: nat, stage: Stage): Handler {
    Handler(1, 0, KeyRow(failures, Pending, None), true, stage)
  }

  /** Nothing but the upload's row, and the uploader has its token. */
  predicate OnlyRow(s: State, now: int, row: Row, handlers: map<HandlerId, Handler>) {
    && s.cfg == CFG && s.now == now && s.rows == map[0 := row] && s.calls == map[] && s.handlers == handlers
    && s.history.issued == map[1 := 0] && s.history.committed == [] && CreatedToken(REQUEST, 1) in s.history.replies
  }

  lemma OneRow() returns (s: State, steps: seq<Step>)
    ensures ReachedInTime(ORIGIN, s, steps) && OnlyRow(s, 0, KeyRow(0, Pending, None), map[]) && s.files == map[]
  {
    s, steps := ORIGIN, [];
    assert ReachedInTime(ORIGIN, s, steps);
    hide ReachedInTime;
    var step: Step;
    step := CreateLookup(0, REQUEST, None);
    GoInTime(ORIGIN, s, steps, step);
    s, steps := Next(s, step), steps + [step];
    step := CreateUpsert(0, None, 1, 0);
    GoInTime(ORIGIN, s, steps, step);
    s, steps := Next(s, step), steps + [step];
  }

  /** From a waiting row, a legacy request that has looked it up claims it and sends its body. */
  lemma BodyReceived(from: State, before: seq<Step>, now: int, n: nat, others: map<HandlerId, Handler>)
    returns (s: State, steps: seq<Step>)
    requires ReachedInTime(ORIGIN, from, before) && 0 <= now <= 900_000
    requires OnlyRow(from, now, KeyRow(n, Pending, None), others) && from.files == map[]
    requires 1 in others && others[1] == Legacy(n, Looked)
    ensures ReachedInTime(ORIGIN, s, steps) && s.files == map[Tmp(1) := AUDIO]
    ensures OnlyRow(s, now, KeyRow(n, Uploading, Some(now + LEASE)), others[1 := Legacy(n, Received(AUDIO))])
  {
    hide ReachedInTime;
    s, steps := from, before;
    var step: Step;
    step := Claim(1);
    GoInTime(ORIGIN, s, steps, step);
    s, steps := Next(s, step), steps + [step];
    step := Receive(1, AUDIO);
    GoInTime(ORIGIN, s, steps, step);
    s, steps := Next(s, step), steps + [step];
  }

  /** It does not decode. */
  lemma OneFailure(from: State, before: seq<Step>, now: int, n: nat, others: map<HandlerId, Handler>)
    returns (s: State, steps: seq<Step>)
    requires ReachedInTime(ORIGIN, from, before) && 0 <= now <= 900_000 && (n == 0 ==> now == 0)
    requires OnlyRow(from, now, KeyRow(n, Pending, None), others) && from.files == map[]
    requires 1 in others && others[1] == Legacy(n, Looked)
    ensures ReachedInTime(ORIGIN, s, steps) && s.files == map[Tmp(1) := AUDIO]
    ensures OnlyRow(s, now, KeyRow(n + 1, Uploading, Some(now + LEASE)),
      others[1 := Legacy(n, Failing(AUDIO, n + 1, 0))])
  {
    hide ReachedInTime;
    s, steps := BodyReceived(from, before, now, n, others);
    var step := RecordFailure(1);
    GoInTime(ORIGIN, s, steps, step);
    s, steps := Next(s, step), steps + [step];
  }

  lemma FailureReturned(from: State, before: seq<Step>, n: nat) returns (s: State, steps: seq<Step>)
    requires ReachedInTime(ORIGIN, from, before) && from.files == map[]
    requires OnlyRow(from, 0, KeyRow(n, Pending, None), map[1 := Legacy(n, Looked)])
    ensures ReachedInTime(ORIGIN, s, steps) && s.files == map[]
    ensures OnlyRow(s, 0, KeyRow(n + 1, Pending, None), map[])
  {
    hide ReachedInTime;
    s, steps := OneFailure(from, before, 0, n, map[1 := Legacy(n, Looked)]);
    var step := Requeue(1, true);
    GoInTime(ORIGIN, s, steps, step);
    s, steps := Next(s, step), steps + [step];
  }

  /** Any number of failures at once; the grace period keeps the row out of quarantine. */
  lemma {:induction false} Failures(n: nat) returns (s: State, steps: seq<Step>)
    ensures ReachedInTime(ORIGIN, s, steps) && OnlyRow(s, 0, KeyRow(n, Pending, None), map[]) && s.files == map[]
  {
    hide ReachedInTime;
    if n == 0 {
      s, steps := OneRow();
    } else {
      s, steps := Failures(n - 1);
      var step := Lookup(1, 1, true);
      GoInTime(ORIGIN, s, steps, step);
      s, steps := Next(s, step), steps + [step];
      s, steps := FailureReturned(s, steps, n - 1);
    }
  }

  /** After nine failures and the grace period, two more legacy requests look the row up. */
  lemma TwoMoreRequests(now: int) returns (s: State, steps: seq<Step>)
    requires 30_000 <= now <= 900_000
    ensures ReachedInTime(ORIGIN, s, steps) && s.files == map[]
    ensures OnlyRow(s, now, KeyRow(9, Pending, None), map[0 := Legacy(9, Looked), 1 := Legacy(9, Looked)])
  {
    hide ReachedInTime;
    s, steps := Failures(9);
    var step: Step;
    step := Tick(now);
    GoInTime(ORIGIN, s, steps, step);
    s, steps := Next(s, step), steps + [step];
    step := Lookup(0, 1, true);
    GoInTime(ORIGIN, s, steps, step);
    s, steps := Next(s, step), steps + [step];
    step := Lookup(1, 1, true);
    GoInTime(ORIGIN, s, steps, step);
    s, steps := Next(s, step), steps + [step];
  }

  /** One of them is the tenth failure, and its audio is set aside. */
  lemma InQuarantine(now: int) returns (s: State, steps: seq<Step>)
    requires 30_000 <= now <= 900_000
    ensures ReachedInTime(ORIGIN, s, steps) && Tmp(2) !in s.files
    ensures OnlyRow(s, now, KeyRow(10, Quarantined, None), map[0 := Legacy(9, Looked)])
  {
    hide ReachedInTime;
    s, steps := TwoMoreRequests(now);
    s, steps := OneFailure(s, steps, now, 9, map[0 := Legacy(9, Looked), 1 := Legacy(9, Looked)]);
    var step: Step;
    step := Shelve(1);
    GoInTime(ORIGIN, s, steps, step);
    s, steps := Next(s, step), steps + [step];
    step := Quarantine(1);
    GoInTime(ORIGIN, s, steps, step);
    s, steps := Next(s, step), steps + [step];
  }

  /** A run, with the default configuration, that reaches a quarantined row and then, by one expiry answer, a row that
      can be renewed. */
  lemma QuarantineUndone() returns (before: seq<Step>, last: Step)
    ensures Loadable(CFG) && last.AnswerExpired? && Possible(ORIGIN, before + [last])
    ensures Possible(ORIGIN, before) && InTime(ORIGIN, before)
    ensures var s, s' := Run(ORIGIN, before), Run(ORIGIN, before + [last]);
      0 in s.rows && s.rows[0].status.Quarantined? && 0 in s'.rows && Renewable(s', s'.rows[0])
  {
    var s, steps := InQuarantine(900_000);
    var step := Tick(900_001);
    GoInTime(ORIGIN, s, steps, step);
    s, steps := Next(s, step), steps + [step];
    InTimeRun(s, steps);
    before, last := steps, AnswerExpired(0);
    Go(ORIGIN, s, before, last);
  }

  /** A request of the uploader that finds the row quarantined is told that it is done. */
  lemma ToldDone() returns (s: State, steps: seq<Step>)
    ensures ReachedInTime(ORIGIN, s, steps) && s.history.committed == []
    ensures {CreatedToken(REQUEST, 1), AudioDone(1, Quarantined)} <= s.history.replies
  {
    hide ReachedInTime;
    s, steps := InQuarantine(30_000);
    var step: Step;
    step := Lookup(2, 1, false);
    GoInTime(ORIGIN, s, steps, step);
    s, steps := Next(s, step), steps + [step];
    step := AnswerDone(2);
    GoInTime(ORIGIN, s, steps, step);
    s, steps := Next(s, step), steps + [step];
  }
}
