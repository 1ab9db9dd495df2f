/** How long an item that failed waits, over runs: each failure counts, and the wait doubles. */
module SpoolBackoff {
  import opened Basics
  import opened Spool
  import SpoolSafety

  /* ---- What happens to one item ---- */

  /** The event gives this item back as failed. */
  predicate FailsAt(w: World, e: Event, x: ItemId) { e.Retry? && e.worker in w.held && w.held[e.worker] == x }

  datatype Failure = Failure(at: int, text: string, saved: bool)

  function Failures(w: World, es: seq<Event>, x: ItemId): nat
    requires ValidRun(w, es)
    decreases |es|
  {
    if es == [] then 0
    else (if FailsAt(w, es[0], x) then 1 else 0) + Failures(Apply(w, es[0]), es[1..], x)
  }

  function LastFailure(w: World, es: seq<Event>, x: ItemId): Option<Failure>
    requires ValidRun(w, es)
    decreases |es|
  {
    if es == [] then None
    else
      var later := LastFailure(Apply(w, es[0]), es[1..], x);
      if later.None? && FailsAt(w, es[0], x) then Some(Failure(es[0].now, es[0].failure, es[0].retryFate.Saved?))
      else later
  }

  predicate Has(w: World, x: ItemId) { w.s.memory.Some? && x in w.s.memory.value.items }

  function ManifestOf(w: World, x: ItemId): Manifest
    requires Has(w, x)
  {
    w.s.memory.value.items[x].manifest
  }

  /** The process stays up and the item is not completed. */
  predicate Keeps(w: World, es: seq<Event>, x: ItemId)
    requires ValidRun(w, es)
    decreases |es|
  {
    Has(w, x) && (es == [] || Keeps(Apply(w, es[0]), es[1..], x))
  }

  /** Nanoseconds to wait after the n-th failure: 2 s, 4 s, 8 s and so on up to 256 s. */
  function Wait(n: nat): int
    requires n >= 1
  {
    [2, 4, 8, 16, 32, 64, 128, 256][if n < 8 then n - 1 else 7] * 1_000_000_000
  }

  /** On disk as in memory. */
  predicate IsSaved(w: World, x: ItemId)
    requires Has(w, x)
  {
    Named(x) in w.s.disk.pending && w.s.disk.pending[Named(x)].manifest == Some(ManifestOf(w, x))
  }

  /* ---- One event ---- */

  lemma FailureCounts(w: World, e: Event, x: ItemId)
    requires SpoolSafety.Inv(w) && Enabled(w, e) && Has(w, x) && FailsAt(w, e, x) && Has(Apply(w, e), x)
    ensures var m, m' := ManifestOf(w, x), ManifestOf(Apply(w, e), x);
      && m'.attempts == m.attempts + 1 && m'.nextAttempt == e.now + Wait(m'.attempts) && m'.lastError == e.failure
      && m' == m.(attempts := m'.attempts, nextAttempt := m'.nextAttempt, lastError := m'.lastError)
      && (e.retryFate.Saved? ==> IsSaved(Apply(w, e), x))
  {
    assert w.s.memory.value.items[x].directory == Named(x);
    Powers();
    hide SpoolSafety.Inv;
  }

  lemma OthersLeave(w: World, e: Event, x: ItemId)
    requires SpoolSafety.Inv(w) && Enabled(w, e) && Has(w, x) && !FailsAt(w, e, x) && Has(Apply(w, e), x)
    ensures ManifestOf(Apply(w, e), x) == ManifestOf(w, x)
    ensures IsSaved(w, x) ==> IsSaved(Apply(w, e), x)
  {
    match e
    case Queue(call, fate) => QueueLeaves(w.s, call, fate, x);
    case Retry(worker, failure, now, fate) => assert w.held[worker] != x; RetryLeaves(w, e, x);
    case Complete(_, _) => CompleteLeaves(w, e, x);
    case Open(_) =>
    case Claim(_, _, _) =>
    case Remember(_, _) =>
    case Crash =>
  }

  lemma QueueLeaves(s: State, call: QueueCall, fate: QueueFate, x: ItemId)
    requires s.memory.Some? && x in s.memory.value.items
    ensures var s' := AfterQueue(s, call, fate).0;
      s'.memory.Some? ==>
        && x in s'.memory.value.items && s'.memory.value.items[x] == s.memory.value.items[x]
        && (Named(x) in s.disk.pending ==>
              Named(x) in s'.disk.pending && s'.disk.pending[Named(x)] == s.disk.pending[Named(x)])
  {
  }

  lemma RetryLeaves(w: World, e: Event, x: ItemId)
    requires SpoolSafety.Inv(w) && Enabled(w, e) && e.Retry? && Has(w, x) && w.held[e.worker] != x
    requires Has(Apply(w, e), x)
    ensures ManifestOf(Apply(w, e), x) == ManifestOf(w, x)
    ensures IsSaved(w, x) ==> IsSaved(Apply(w, e), x)
  {
    var id := w.held[e.worker];
    if id in w.s.memory.value.items { assert w.s.memory.value.items[id].directory == Named(id) != Named(x); }
    hide SpoolSafety.Inv;
  }

  lemma CompleteLeaves(w: World, e: Event, x: ItemId)
    requires SpoolSafety.Inv(w) && Enabled(w, e) && e.Complete? && Has(w, x) && Has(Apply(w, e), x)
    ensures ManifestOf(Apply(w, e), x) == ManifestOf(w, x)
    ensures IsSaved(w, x) ==> IsSaved(Apply(w, e), x)
  {
    var id := w.held[e.worker];
    if id in w.s.memory.value.items { assert w.s.memory.value.items[id].directory == Named(id); }
    hide SpoolSafety.Inv;
  }

  /* ---- Runs ---- */

  /** While the process stays up, every failed attempt of an item is counted; after the n-th the item is due 2^n seconds
      later, but at most 256, with the failure noted; nothing else of it changes; and a manifest that was saved with the
      last failure is what memory holds. */
  lemma {:induction false} FailuresCount(w: World, es: seq<Event>, x: ItemId)
    requires SpoolSafety.Inv(w) && ValidRun(w, es) && Keeps(w, es, x) && Has(Run(w, es), x)
    ensures var m, m' := ManifestOf(w, x), ManifestOf(Run(w, es), x);
      && m'.attempts == m.attempts + Failures(w, es, x)
      && m' == m.(attempts := m'.attempts, nextAttempt := m'.nextAttempt, lastError := m'.lastError)
      && match LastFailure(w, es, x)
         case None => m' == m && (IsSaved(w, x) ==> IsSaved(Run(w, es), x))
         case Some(f) =>
           && m'.attempts >= 1 && m'.nextAttempt == f.at + Wait(m'.attempts) && m'.lastError == f.text
           && (f.saved ==> IsSaved(Run(w, es), x))
    decreases |es|
  {
    if es != [] {
      var w1 := Apply(w, es[0]);
      SpoolSafety.StepKeeps(w, es[0]);
      if FailsAt(w, es[0], x) { FailureCounts(w, es[0], x); } else { OthersLeave(w, es[0], x); }
      hide SpoolSafety.Inv, SpoolSafety.StateKeeps, Apply, Enabled, Wait;
      FailuresCount(w1, es[1..], x);
    }
  }

  /** A queued recording has not failed, and is due from the moment it was queued. */
  lemma QueuedIsDue(s: State, call: QueueCall, fate: QueueFate)
    requires s.memory.Some? && AfterQueue(s, call, fate).1.Accepted?
    ensures var s' := AfterQueue(s, call, fate).0;
      var id := AfterQueue(s, call, fate).1.id;
      && s'.memory.Some? && id in s'.memory.value.items
      && var m := s'.memory.value.items[id].manifest;
      && m.id == id && m.attempts == 0 && m.nextAttempt == call.t1 && m.createdAt == call.t2 && m.lastError == ""
      && m.source == call.source && m.fingerprint == call.fingerprint && m.request == call.recording.request
      && m.audioFile == "audio." + call.recording.format
      && Named(id) in s'.disk.pending
      && s'.disk.pending[Named(id)] == Directory(Some(m), Some(call.recording.audio))
  {
  }

  lemma {:induction false} RunSplits(w: World, es: seq<Event>, i: nat)
    requires ValidRun(w, es) && i < |es|
    ensures ValidRun(w, es[..i]) && Enabled(Run(w, es[..i]), es[i])
    decreases |es|
  {
    if i > 0 {
      assert es[..i][0] == es[0] && es[..i][1..] == es[1..][..i - 1];
      RunSplits(Apply(w, es[0]), es[1..], i - 1);
    }
  }

  /** No item is claimed before its wait is over. */
  lemma ClaimedAfterTheWait(w: World, es: seq<Event>, i: nat, x: ItemId)
    requires SpoolSafety.Inv(w) && ValidRun(w, es) && i < |es| && es[i].Claim? && es[i].pick == x
    requires ValidRun(w, es[..i]) && Keeps(w, es[..i], x) && LastFailure(w, es[..i], x).Some?
    requires Has(Run(w, es[..i]), x)
    ensures var f := LastFailure(w, es[..i], x).value;
      var attempts := ManifestOf(w, x).attempts + Failures(w, es[..i], x);
      attempts >= 1 && es[i].now >= f.at + Wait(attempts)
  {
    RunSplits(w, es, i);
    FailuresCount(w, es[..i], x);
    hide SpoolSafety.Inv;
  }

  /** From that moment on it is due: as long as it waits, a free worker gets it, or an item that is due no later. */
  lemma ClaimableFromThen(w: World, x: ItemId, worker: nat, now: int) returns (pick: ItemId)
    requires Has(w, x) && x !in w.s.memory.value.inFlight && worker !in w.held
    requires ManifestOf(w, x).nextAttempt <= now
    ensures Enabled(w, Claim(worker, now, pick)) && Has(w, pick)
    ensures pick == x || ManifestOf(w, pick).nextAttempt < ManifestOf(w, x).nextAttempt
      || (ManifestOf(w, pick).nextAttempt == ManifestOf(w, x).nextAttempt
          && ManifestOf(w, pick).createdAt <= ManifestOf(w, x).createdAt)
  {
    pick := FirstAmong(w.s.memory.value, now, w.s.memory.value.items.Keys, x);
  }

  /** A first one among the due ones of a set. */
  lemma {:induction false} FirstAmong(m: Memory, now: int, ids: set<ItemId>, x: ItemId) returns (pick: ItemId)
    requires x in ids && ids <= m.items.Keys && IsDue(m, now, x)
    ensures pick in ids && IsDue(m, now, pick)
    ensures forall id | id in ids && IsDue(m, now, id) :: !Before(m.items[id].manifest, m.items[pick].manifest)
    decreases |ids|
  {
    if other :| other in ids && other != x && IsDue(m, now, other) {
      var rest := FirstAmong(m, now, ids - {x}, other);
      pick := if Before(m.items[x].manifest, m.items[rest].manifest) then x else rest;
    } else {
      pick := x;
    }
  }
}
