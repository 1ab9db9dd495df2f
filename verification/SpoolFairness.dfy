/** Bounded overtaking: how many other claims an item that is due can see before its own. */
module SpoolFairness {
  import opened Basics
  import opened Spool
  import SpoolSafety

  /** The items that may be claimed before `x`: waiting, and not behind it in claim order. */
  function Ahead(m: Memory, x: ItemId): set<ItemId>
    requires x in m.items
  {
    set id | id in m.items && id != x && id !in m.inFlight && !Before(m.items[x].manifest, m.items[id].manifest)
  }

  predicate Waiting(w: World, x: ItemId) {
    w.s.memory.Some? && x in w.s.memory.value.items && x !in w.s.memory.value.inFlight
  }

  /** `x` is waiting and, as of `clock`, was created and is due. */
  predicate DueAt(w: World, x: ItemId, clock: int) {
    && Waiting(w, x)
    && w.s.memory.value.items[x].manifest.nextAttempt <= clock
    && w.s.memory.value.items[x].manifest.createdAt <= clock
  }

  /* ---- The clock never goes back ---- */

  predicate NotBefore(clock: int, e: Event) {
    match e
    case Queue(call, _) => clock <= call.t1 <= call.t2
    case Claim(_, now, _) => clock <= now
    case Retry(_, _, now, _) => clock <= now
    case _ => true
  }

  function ClockAfter(clock: int, e: Event): int {
    match e
    case Queue(call, _) => call.t2
    case Claim(_, now, _) => now
    case Retry(_, _, now, _) => now
    case _ => clock
  }

  /** A run in which time does not go back, the process stays up, and `x` is not claimed. */
  predicate WaitsThrough(w: World, x: ItemId, clock: int, es: seq<Event>)
    requires ValidRun(w, es)
    decreases |es|
  {
    es == [] ||
    (&& NotBefore(clock, es[0])
     && Apply(w, es[0]).s.memory.Some?
     && !(es[0].Claim? && es[0].pick == x)
     && WaitsThrough(Apply(w, es[0]), x, ClockAfter(clock, es[0]), es[1..]))
  }

  /* ---- Counting ---- */

  function Claims(es: seq<Event>): nat {
    if es == [] then 0 else (if es[0].Claim? then 1 else 0) + Claims(es[1..])
  }

  /** A `Complete` that fails hands its item back with its old place in the order. */
  predicate GivesBack(e: Event) {
    e.Complete? && (e.completeFate.WriteFails? || e.completeFate.SyncFails? || e.completeFate.RemoveFails?)
  }

  /** A queued recording stamped with the very instants of `x`. */
  predicate TiesWith(x: Manifest, e: Event) {
    e.Queue? && e.call.t1 == x.nextAttempt && e.call.t2 == x.createdAt
  }

  function Overtakers(x: Manifest, es: seq<Event>): nat {
    if es == [] then 0
    else (if GivesBack(es[0]) || TiesWith(x, es[0]) then 1 else 0) + Overtakers(x, es[1..])
  }

  /* ---- One step ---- */

  lemma SubsetSize<T>(a: set<T>, b: set<T>)
    requires a <= b
    ensures |a| <= |b|
  {
    assert b == a + (b - a);
  }

  /** What waits ahead of `x` shrinks by one at a claim, and grows only by an item handed back or tied. */
  ghost predicate Shifts(w: World, x: ItemId, clock: int, e: Event)
    requires Enabled(w, e) && Waiting(w, x)
  {
    var w' := Apply(w, e);
    && DueAt(w', x, ClockAfter(clock, e))
    && w'.s.memory.value.items[x] == w.s.memory.value.items[x]
    && |Ahead(w'.s.memory.value, x)| + (if e.Claim? then 1 else 0)
       <= |Ahead(w.s.memory.value, x)|
         + (if GivesBack(e) || TiesWith(w.s.memory.value.items[x].manifest, e) then 1 else 0)
  }

  lemma ClaimShifts(w: World, x: ItemId, clock: int, e: Event)
    requires e.Claim? && Enabled(w, e) && DueAt(w, x, clock) && NotBefore(clock, e) && e.pick != x
    ensures Shifts(w, x, clock, e)
  {
    assert IsDue(w.s.memory.value, e.now, x);
    assert e.pick in Ahead(w.s.memory.value, x);
    assert Ahead(Apply(w, e).s.memory.value, x) == Ahead(w.s.memory.value, x) - {e.pick};
  }

  lemma QueueShifts(w: World, x: ItemId, clock: int, e: Event)
    requires e.Queue? && Enabled(w, e) && DueAt(w, x, clock) && NotBefore(clock, e)
    requires Apply(w, e).s.memory.Some?
    ensures Shifts(w, x, clock, e)
  {
    var before, after := Ahead(w.s.memory.value, x), Ahead(Apply(w, e).s.memory.value, x);
    SubsetSize(after, before + {NewManifest(e.call).id});
    if !TiesWith(w.s.memory.value.items[x].manifest, e) { SubsetSize(after, before); }
  }

  lemma RetryShifts(w: World, x: ItemId, clock: int, e: Event)
    requires e.Retry? && Enabled(w, e) && DueAt(w, x, clock) && NotBefore(clock, e)
    requires w.held[e.worker] in w.s.memory.value.inFlight
    requires Apply(w, e).s.memory.Some?
    ensures Shifts(w, x, clock, e)
  {
    SubsetSize(Ahead(Apply(w, e).s.memory.value, x), Ahead(w.s.memory.value, x));
  }

  lemma CompleteShifts(w: World, x: ItemId, clock: int, e: Event)
    requires e.Complete? && Enabled(w, e) && DueAt(w, x, clock)
    requires w.held[e.worker] in w.s.memory.value.inFlight
    requires Apply(w, e).s.memory.Some?
    ensures Shifts(w, x, clock, e)
  {
    var before, after := Ahead(w.s.memory.value, x), Ahead(Apply(w, e).s.memory.value, x);
    SubsetSize(after, before + {w.held[e.worker]});
    if !GivesBack(e) { SubsetSize(after, before); }
  }

  lemma StepShifts(w: World, x: ItemId, clock: int, e: Event)
    requires SpoolSafety.WorkersInv(w) && Enabled(w, e) && DueAt(w, x, clock) && NotBefore(clock, e)
    requires Apply(w, e).s.memory.Some? && !(e.Claim? && e.pick == x)
    ensures Shifts(w, x, clock, e)
  {
    match e
    case Open(_) =>
    case Claim(_, _, _) => ClaimShifts(w, x, clock, e);
    case Queue(_, _) => QueueShifts(w, x, clock, e);
    case Retry(worker, _, _, _) =>
      assert w.held[worker] in w.held.Values;
      RetryShifts(w, x, clock, e);
    case Complete(worker, _) =>
      assert w.held[worker] in w.held.Values;
      CompleteShifts(w, x, clock, e);
    case Remember(_, _) => assert Ahead(Apply(w, e).s.memory.value, x) == Ahead(w.s.memory.value, x);
    case Crash =>
  }

  /** A waiting item that is due sees at most as many other claims as items were ahead of it, plus one for
      each `Complete` that failed and each recording queued with exactly its time stamps. */
  lemma {:induction false} BoundedOvertaking(w: World, x: ItemId, clock: int, es: seq<Event>)
    requires SpoolSafety.Inv(w) && ValidRun(w, es) && DueAt(w, x, clock)
    requires WaitsThrough(w, x, clock, es)
    ensures Claims(es) <= |Ahead(w.s.memory.value, x)| + Overtakers(w.s.memory.value.items[x].manifest, es)
    decreases |es|
  {
    if es != [] {
      StepShifts(w, x, clock, es[0]);
      SpoolSafety.StepKeeps(w, es[0]);
      BoundedOvertaking(Apply(w, es[0]), x, ClockAfter(clock, es[0]), es[1..]);
    }
  }
}
