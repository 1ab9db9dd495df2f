/** Who owns an upload row, and what that gives: one call per row, absorbing outcomes, claimable tokens. */
module IngestionOwnership {
  import opened Basics
  import opened Ingestion
  import opened IngestionFrames

  /* ---- The invariant ---- */

  /** Every row has one live token, its own; a key names one row; an uploading row has a lease. */
  predicate RowsInv(s: State) {
    && (forall r | r in s.rows ::
          && s.rows[r].token in s.history.issued && s.history.issued[s.rows[r].token] == r
          && (s.rows[r].status.Uploading? ==> s.rows[r].lease.Some?))
    && (forall q, r | q in s.rows && r in s.rows && q != r ::
          s.rows[q].key == "" || s.rows[q].sender != s.rows[r].sender || s.rows[q].key != s.rows[r].key)
  }

  /** An owner's row is uploading under a lease that has not run out, and has no other owner. */
  predicate OwnersInv(s: State) {
    && (forall h | h in s.handlers :: s.handlers[h].row in s.rows)
    && (forall h | h in s.handlers && Owns(s, h) ::
          && s.rows[s.handlers[h].row].status.Uploading?
          && s.rows[s.handlers[h].row].lease.Some? && s.now < s.rows[s.handlers[h].row].lease.value)
    && (forall g, h | g in s.handlers && h in s.handlers && g != h && Owns(s, g) && Owns(s, h) ::
          s.handlers[g].row != s.handlers[h].row)
  }

  /** A row's call is committed at most once, and then the row is completed. */
  predicate CommitsInv(s: State) {
    && (forall i | 0 <= i < |s.history.committed| ::
          var c := s.history.committed[i];
          && c.row in s.rows && s.rows[c.row].status.Completed?
          && c.sender == s.rows[c.row].sender && c.key == s.rows[c.row].key)
    && (forall i, j | 0 <= i < j < |s.history.committed| :: s.history.committed[i].row != s.history.committed[j].row)
  }

  predicate Inv(s: State) { RowsInv(s) && OwnersInv(s) && SeenInv(s) && CommitsInv(s) }

  /** Rows stay, with their sender and key, and completed, duplicate and quarantined rows stay as they are. */
  predicate RowsSettle(s: State, s': State) {
    forall r | r in s.rows ::
      && r in s'.rows && s'.rows[r].sender == s.rows[r].sender && s'.rows[r].key == s.rows[r].key
      && (Terminal(s.rows[r].status) ==> s'.rows[r] == s.rows[r])
  }

  /* ---- Steps of one handler ---- */

  /** An owner's row is nobody else's, and a settled one is nobody's. */
  predicate Guarded(s: State, h: HandlerId, s': State)
    requires At(s, h) && s'.rows.Keys == s.rows.Keys
  {
    var r := s.handlers[h].row;
    && (Terminal(s.rows[r].status) ==> s'.rows[r] == s.rows[r])
    && (s'.rows[r].status.Uploading? ==> s'.rows[r].lease.Some?)
    && (s'.rows[r] == s.rows[r] || Owns(s, h) || !Owned(s, r))
    && (Owns(s', h) ==>
          && (Owns(s, h) || !Owned(s, r))
          && s'.rows[r].status.Uploading? && s'.rows[r].lease.Some? && s.now < s'.rows[r].lease.value)
  }

  lemma ClaimableUnowned(s: State, h: HandlerId)
    requires OwnersInv(s) && CanClaim(s, h)
    ensures !Owned(s, s.handlers[h].row) && !Terminal(RowOf(s, h).status)
  {
  }

  lemma HandlerGuarded(s: State, h: HandlerId, step: Step, s': State)
    requires RowsInv(s) && OwnersInv(s) && At(s, h) && s'.rows.Keys == s.rows.Keys && Writes(s, h, step, s')
    requires step.AnswerExpired? ==> Unclaimed(s, h)
    ensures Guarded(s, h, s')
  {
    var row := RowOf(s, h);
    assert row.status.Uploading? ==> row.lease.Some?;
    if step.Claim? {
      ClaimableUnowned(s, h);
    } else if Owns(s, h) {
      assert row.status.Uploading? && s.now < row.lease.value;
    }
    hide RowsInv, OwnersInv, Owned, CanAnswerExpired, CanClaim, QuarantineDue;
  }

  /** A step that commits nothing keeps the row and owner invariants. */
  ghost predicate Keeps(s: State, s': State) {
    RowsInv(s') && OwnersInv(s') && RowsSettle(s, s') && s'.history.committed == s.history.committed
  }

  predicate Base(s: State) { RowsInv(s) && OwnersInv(s) }

  lemma MovesKeepsRows(s: State, h: HandlerId, s': State)
    requires RowsInv(s) && At(s, h) && Moves(s, h, s') && Guarded(s, h, s') && s'.history.issued == s.history.issued
    ensures RowsInv(s') && RowsSettle(s, s')
  {
    hide Follows, Owns, Owned;
  }

  lemma MovesKeepsOwners(s: State, h: HandlerId, s': State)
    requires OwnersInv(s) && At(s, h) && Moves(s, h, s') && Guarded(s, h, s')
    ensures OwnersInv(s')
  {
    hide Follows, SameIdentity, Terminal;
  }

  /** The row of a commit was owned, hence not settled, hence not committed before. */
  lemma CommitKeepsCommits(s: State, h: HandlerId)
    requires OwnersInv(s) && SeenInv(s) && CommitsInv(s) && CanCommit(s, h)
    ensures CommitsInv(DoCommit(s, h))
  {
    assert Owns(s, h);
    hide SourceTaken;
  }

  /* ---- The other steps ---- */

  /** A row changes within its identity, and not at all once it is settled. */
  predicate RowMoves(a: Row, b: Row) {
    SameIdentity(a, b) && (b.status.Uploading? ==> b.lease.Some?) && (Terminal(a.status) ==> b == a)
  }

  /** Rows change only where no lease is live. */
  lemma BatchKeeps(s: State, s': State)
    requires Base(s)
    requires s'.handlers == s.handlers && s'.now == s.now && s'.history.issued == s.history.issued
    requires s'.history.committed == s.history.committed && s'.rows.Keys == s.rows.Keys
    requires forall r | r in s.rows ::
      RowMoves(s.rows[r], s'.rows[r]) && (Busy(s, s.rows[r]) ==> s'.rows[r] == s.rows[r])
    ensures Keeps(s, s')
  {
    BatchKeepsRows(s, s');
    hide RowsInv, RowsSettle;
  }

  lemma BatchKeepsRows(s: State, s': State)
    requires RowsInv(s) && s'.history.issued == s.history.issued && s'.rows.Keys == s.rows.Keys
    requires forall r | r in s.rows :: RowMoves(s.rows[r], s'.rows[r])
    ensures RowsInv(s') && RowsSettle(s, s')
  {
  }

  lemma CleanupExpireKeeps(s: State)
    requires Base(s)
    ensures Keeps(s, DoCleanupExpire(s))
  {
    hide Keeps, OwnersInv;
    BatchKeeps(s, DoCleanupExpire(s));
  }

  lemma CleanupRecoverKeeps(s: State)
    requires Base(s)
    ensures Keeps(s, DoCleanupRecover(s))
  {
    hide Keeps, OwnersInv;
    BatchKeeps(s, DoCleanupRecover(s));
  }

  lemma CreateLookupKeeps(s: State, id: nat, request: UploadRequest, answer: Option<CallId>)
    requires Base(s)
    ensures Keeps(s, DoCreateLookup(s, id, request, answer))
  {
    hide Keeps, OwnersInv;
    BatchKeeps(s, DoCreateLookup(s, id, request, answer));
  }

  /** A row gets a fresh token: a new row, or one without a live lease. */
  predicate Renews(s: State, s': State, r: RowId, token: Token) {
    && token !in s.history.issued
    && s'.handlers == s.handlers && s'.now == s.now && s'.history.issued == s.history.issued[token := r]
    && s'.history.committed == s.history.committed
    && r in s'.rows && s'.rows[r].token == token && s'.rows[r].status.Pending?
    && (forall q | q in s.rows :: q in s'.rows && (q != r ==> s'.rows[q] == s.rows[q]))
    && (forall q | q in s'.rows :: q in s.rows || q == r)
    && (r in s.rows ==>
          && Renewable(s, s.rows[r])
          && s'.rows[r].sender == s.rows[r].sender && s'.rows[r].key == s.rows[r].key)
    && (r !in s.rows ==> forall q | q in s.rows :: !IsKeyRow(s, s'.rows[r].sender, s'.rows[r].key, q))
  }

  lemma RenewalKeepsRows(s: State, s': State, r: RowId, token: Token)
    requires RowsInv(s) && Renews(s, s', r, token)
    ensures RowsInv(s') && RowsSettle(s, s') && s'.history.committed == s.history.committed
  {
  }

  lemma RenewalKeepsOwners(s: State, s': State, r: RowId, token: Token)
    requires OwnersInv(s) && Renews(s, s', r, token)
    ensures OwnersInv(s')
  {
  }

  lemma RenewalKeeps(s: State, s': State, r: RowId, token: Token)
    requires Base(s) && Renews(s, s', r, token)
    ensures Keeps(s, s')
  {
    hide RowsInv, OwnersInv, RowsSettle, Renews;
    RenewalKeepsRows(s, s', r, token);
    RenewalKeepsOwners(s, s', r, token);
  }

  lemma UpsertRenews(s: State, create: nat, found: Option<RowId>, token: Token, newRow: RowId)
    requires CanUpsert(s, create, found, token, newRow)
    requires found.Some? ==> Renewable(s, s.rows[found.value])
    ensures Renews(s, DoUpsert(s, create, found, token, newRow), if found.None? then newRow else found.value, token)
  {
  }

  lemma UpsertKeeps(s: State, create: nat, found: Option<RowId>, token: Token, newRow: RowId)
    requires Base(s) && CanUpsert(s, create, found, token, newRow)
    ensures Keeps(s, DoUpsert(s, create, found, token, newRow))
  {
    hide Keeps, OwnersInv, Renews;
    var s' := DoUpsert(s, create, found, token, newRow);
    if found.Some? && !Renewable(s, s.rows[found.value]) {
      BatchKeeps(s, s');
    } else {
      hide RowsInv, DoUpsert;
      UpsertRenews(s, create, found, token, newRow);
      RenewalKeeps(s, s', if found.None? then newRow else found.value, token);
    }
  }

  lemma LookupKeeps(s: State, h: HandlerId, bearer: Token, legacy: bool)
    requires Base(s) && CanLookup(s, h, bearer)
    ensures Keeps(s, DoLookup(s, h, bearer, legacy))
  {
    var s' := DoLookup(s, h, bearer, legacy);
    assert RowsInv(s') && RowsSettle(s, s');
    LookupKeepsOwners(s, h, bearer, legacy);
    hide RowsInv, OwnersInv, RowsSettle;
  }

  lemma LookupKeepsOwners(s: State, h: HandlerId, bearer: Token, legacy: bool)
    requires Base(s) && CanLookup(s, h, bearer)
    ensures OwnersInv(DoLookup(s, h, bearer, legacy))
  {
  }

  lemma CrashKeeps(s: State)
    requires RowsInv(s)
    ensures Keeps(s, DoCrash(s))
  {
  }

  lemma TickKeeps(s: State, to: int)
    requires Base(s) && s.now <= to && LeasesHold(s, to)
    ensures Keeps(s, s.(now := to))
  {
  }

  lemma OtherStep(s: State, step: Step)
    requires Base(s) && Enabled(s, step) && Timely(s, step) && !ByHandler(step)
    ensures Keeps(s, Next(s, step))
  {
    hide RowsInv, OwnersInv, Keeps;
    match step
    case Tick(to) => TickKeeps(s, to);
    case CreateLookup(id, request, answer) => CreateLookupKeeps(s, id, request, answer);
    case CreateUpsert(create, found, token, newRow) => UpsertKeeps(s, create, found, token, newRow);
    case CleanupExpire => CleanupExpireKeeps(s);
    case CleanupRecover => CleanupRecoverKeeps(s);
    case Lookup(h, bearer, legacy) => LookupKeeps(s, h, bearer, legacy);
    case Crash => CrashKeeps(s);
    case _ =>
  }

  lemma CommitsKept(s: State, s': State)
    requires CommitsInv(s) && RowsSettle(s, s') && s'.history.committed == s.history.committed
    ensures CommitsInv(s')
  {
  }

  lemma HandlerKeeps(s: State, step: Step)
    requires Base(s) && Enabled(s, step) && Timely(s, step) && ByHandler(step)
    ensures RowsInv(Next(s, step)) && OwnersInv(Next(s, step)) && RowsSettle(s, Next(s, step))
  {
    var s' := Next(s, step);
    HandlerActs(s, step);
    assert step.AnswerExpired? ==> Unclaimed(s, step.h);
    hide Next, Enabled, Timely, Moves, Writes, Unclaimed, Guarded, RowsInv, OwnersInv, RowsSettle;
    HandlerGuarded(s, step.h, step, s');
    MovesKeepsRows(s, step.h, s');
    MovesKeepsOwners(s, step.h, s');
  }

  /** One step of any timely interleaving keeps the invariant, and rows that are settled stay as they are. */
  lemma StepKeeps(s: State, step: Step)
    requires Inv(s) && Enabled(s, step) && Timely(s, step)
    ensures Inv(Next(s, step)) && RowsSettle(s, Next(s, step))
  {
    hide Timely, RowsInv, OwnersInv, SeenInv, CommitsInv, RowsSettle, DoCommit, CanCommit;
    SeenKeeps(s, step);
    if ByHandler(step) { HandlerKeeps(s, step); } else { OtherStep(s, step); }
    if step.Commit? {
      CommitKeepsCommits(s, step.h);
    } else {
      hide Next, Enabled;
      OnlyCommitsStore(s, step);
      CommitsKept(s, Next(s, step));
    }
  }

  /* ---- What it means ---- */

  lemma StartInv(cfg: Config, now: int)
    ensures Inv(Start(cfg, now))
  {
  }

  lemma {:induction false} RunKeeps(s: State, steps: seq<Step>)
    requires Inv(s) && Possible(s, steps) && InTime(s, steps)
    ensures Inv(Run(s, steps)) && RowsSettle(s, Run(s, steps))
    decreases |steps|
  {
    hide Inv, Enabled, Timely, Next, RowsSettle;
    if steps != [] {
      StepKeeps(s, steps[0]);
      RunKeeps(Next(s, steps[0]), steps[1..]);
      SettleTransitive(s, Next(s, steps[0]), Run(s, steps));
    } else {
      SettleReflexive(s);
    }
  }

  lemma SettleReflexive(s: State)
    ensures RowsSettle(s, s)
  {
  }

  lemma SettleTransitive(a: State, b: State, c: State)
    requires RowsSettle(a, b) && RowsSettle(b, c)
    ensures RowsSettle(a, c)
  {
  }

  /* Quarantine is for good. */

  predicate StillQuarantined(s: State) {
    forall r | r in s.history.quarantined :: r in s.rows && s.rows[r].status.Quarantined?
  }

  lemma StepStillQuarantined(s: State, step: Step)
    requires StillQuarantined(s) && Enabled(s, step) && RowsSettle(s, Next(s, step))
    ensures StillQuarantined(Next(s, step))
  {
    var s' := Next(s, step);
    if ByHandler(step) {
      HandlerActs(s, step);
      hide Enabled, Next;
      ActsStillQuarantined(s, step.h, step, s');
    } else {
      AroundStep(s, step);
      assert s'.history.quarantined == s.history.quarantined;
      hide Enabled, Next, Around;
    }
  }

  lemma ActsStillQuarantined(s: State, h: HandlerId, step: Step, s': State)
    requires StillQuarantined(s) && At(s, h) && Acts(s, h, step, s') && RowsSettle(s, s')
    ensures StillQuarantined(s')
  {
    assert step.Quarantine? ==> s'.rows[s.handlers[h].row].status.Quarantined?;
    hide Moves, Writes, SameCounter;
  }

  lemma {:induction false} RunStillQuarantined(s: State, steps: seq<Step>)
    requires StillQuarantined(s) && Inv(s) && Possible(s, steps) && InTime(s, steps)
    ensures StillQuarantined(Run(s, steps))
    decreases |steps|
  {
    hide StillQuarantined, Inv, Enabled, Timely, Next, RowsSettle;
    if steps != [] {
      StepKeeps(s, steps[0]);
      StepStillQuarantined(s, steps[0]);
      RunStillQuarantined(Next(s, steps[0]), steps[1..]);
    }
  }

  /** In every timely interleaving a row that was ever quarantined is quarantined still. */
  lemma QuarantineStays(cfg: Config, now: int, steps: seq<Step>, r: RowId)
    requires Possible(Start(cfg, now), steps) && InTime(Start(cfg, now), steps)
    requires r in Run(Start(cfg, now), steps).history.quarantined
    ensures var s := Run(Start(cfg, now), steps);
      r in s.rows && s.rows[r].status.Quarantined?
  {
    StartInv(cfg, now);
    RunStillQuarantined(Start(cfg, now), steps);
  }

  /** In every timely interleaving one idempotency key of one sender has at most one call. */
  lemma OneCallPerKey(cfg: Config, now: int, steps: seq<Step>, i: nat, j: nat)
    requires Possible(Start(cfg, now), steps) && InTime(Start(cfg, now), steps)
    requires i < j < |Run(Start(cfg, now), steps).history.committed|
    ensures var committed := Run(Start(cfg, now), steps).history.committed;
      committed[i].sender != committed[j].sender || committed[i].key != committed[j].key || committed[i].key == ""
  {
    StartInv(cfg, now);
    RunKeeps(Start(cfg, now), steps);
  }

  /** In every timely interleaving a row has at most one owner, and that owner's lease is live. */
  lemma OneOwnerPerRow(cfg: Config, now: int, steps: seq<Step>, g: HandlerId, h: HandlerId)
    requires Possible(Start(cfg, now), steps) && InTime(Start(cfg, now), steps)
    requires Owns(Run(Start(cfg, now), steps), g) && Owns(Run(Start(cfg, now), steps), h)
    ensures var s := Run(Start(cfg, now), steps);
      && At(s, g) && Busy(s, RowOf(s, g))
      && (s.handlers[g].row == s.handlers[h].row ==> g == h)
  {
    StartInv(cfg, now);
    RunKeeps(Start(cfg, now), steps);
  }

  /** The tokens that a lookup finds are exactly the rows' own, and each finds its own row only. */
  lemma LiveTokens(s: State, h: HandlerId, token: Token)
    requires Inv(s) && h !in s.handlers && Tmp(h) !in s.files
    ensures CanLookup(s, h, token) <==> exists r | r in s.rows :: s.rows[r].token == token
    ensures forall q, r | q in s.rows && r in s.rows && s.rows[q].token == s.rows[r].token :: q == r
  {
  }

  /** Unless the row is settled or an upload is under way, `createUpload` hands out a token with which a new
      request comes to own the row, and the row's previous token finds nothing any more. */
  lemma RenewedTokenClaims(s: State, create: nat, r: RowId, token: Token, newRow: RowId, h: HandlerId, legacy: bool)
    requires Inv(s) && CanUpsert(s, create, Some(r), token, newRow) && s.cfg.pendingTtl >= 0
    requires Renewable(s, s.rows[r])
    requires h !in s.handlers && Tmp(h) !in s.files
    ensures var s1 := DoUpsert(s, create, Some(r), token, newRow);
      && CreatedToken(s.creating[create], token) in s1.history.replies
      && !CanLookup(s1, h, s.rows[r].token)
      && CanLookup(s1, h, token)
      && var s2 := DoLookup(s1, h, token, legacy);
      && CanClaim(s2, h)
      && Owns(DoClaim(s2, h), h) && DoClaim(s2, h).handlers[h].row == r
  {
  }

  /** The expiry answer is harmless exactly when its row has no owner: otherwise ownership breaks. */
  lemma ExpiryAnswerExact(s: State, h: HandlerId)
    requires Inv(s) && CanAnswerExpired(s, h)
    ensures OwnersInv(DoAnswerExpired(s, h)) <==> !Owned(s, s.handlers[h].row)
  {
    hide RowsInv, SeenInv, CommitsInv;
    var s' := DoAnswerExpired(s, h);
    var r := s.handlers[h].row;
    if Owned(s, r) {
      var g :| g in s.handlers && Owns(s, g) && s.handlers[g].row == r;
      assert g in s'.handlers && Owns(s', g) && s'.rows[r].status.Expired?;
    }
  }

  /** It unsettles a settled row exactly when that row is quarantined. */
  lemma ExpiryUnsettles(s: State, h: HandlerId)
    requires CanAnswerExpired(s, h)
    ensures RowsSettle(s, DoAnswerExpired(s, h)) <==> !RowOf(s, h).status.Quarantined?
  {
    if RowOf(s, h).status.Quarantined? {
      assert DoAnswerExpired(s, h).rows[s.handlers[h].row].status.Expired?;
    }
  }
}
