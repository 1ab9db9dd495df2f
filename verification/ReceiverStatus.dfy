/** `receiver_status_entries`: counts per receiver, kept by the commits of calls and by two buttons. */
module ReceiverStatus {
  datatype Key = Key(sender: string, receiver: string, system: string, site: string)

  /** A dismissed entry remembers the last call it was dismissed at. Times are milliseconds. */
  datatype Dismissal = Shown | Dismissed(actor: string, lastCall: int)

  datatype Entry = Entry(count: nat, lastCall: int, dismissal: Dismissal)

  type Entries = map<Key, Entry>

  const WEEK := 7 * 24 * 60 * 60 * 1000

  datatype Event =
    | Committed(key: Key, start: int)
    | Dismiss(key: Key, actor: string, now: int, staleMinutes: int)
    | DismissStale(actor: string, now: int)
    | Restore(key: Key)

  function Later(a: int, b: int): int { if a >= b then a else b }

  predicate Stale(e: Entry, now: int, age: int) { e.dismissal.Shown? && e.lastCall < now - age }

  function Hidden(e: Entry, actor: string): Entry { e.(dismissal := Dismissed(actor, e.lastCall)) }

  function AfterSweep(e: Entry, actor: string, now: int): Entry {
    if Stale(e, now, WEEK) then Hidden(e, actor) else e
  }

  function Upserted(entries: Entries, key: Key, start: int): Entries {
    if key in entries then entries[key := Entry(entries[key].count + 1, Later(entries[key].lastCall, start), Shown)]
    else entries[key := Entry(1, start, Shown)]
  }

  function After(entries: Entries, e: Event): Entries {
    match e
    case Committed(key, start) => Upserted(entries, key, start)
    case Dismiss(key, actor, now, stale) =>
      if key in entries && Stale(entries[key], now, stale * 60_000) then entries[key := Hidden(entries[key], actor)]
      else entries
    case DismissStale(actor, now) =>
      map key | key in entries :: AfterSweep(entries[key], actor, now)
    case Restore(key) =>
      if key in entries && entries[key].dismissal.Dismissed? then entries[key := entries[key].(dismissal := Shown)]
      else entries
  }

  /** The table, with the statements that update it. */
  class Table {
    var entries: Entries

    constructor ()
      ensures entries == map[]
    {
      entries := map[];
    }

    /** The statement of a committing upload. */
    method Record(key: Key, start: int)
      modifies this
      ensures entries == After(old(entries), Committed(key, start))
      ensures forall starts | Faithful(old(entries), key, starts) :: Faithful(entries, key, starts + [start])
      ensures key in entries && entries[key].dismissal.Shown?
      ensures forall other | other != key :: (other in entries <==> other in old(entries))
      ensures forall other | other != key && other in entries :: entries[other] == old(entries)[other]
    {
      forall starts | Faithful(entries, key, starts)
        ensures Faithful(After(entries, Committed(key, start)), key, starts + [start])
      {
        StepFaithful(entries, Committed(key, start), key, starts);
      }
      if key in entries {
        var e := entries[key];
        entries := entries[key := Entry(e.count + 1, if e.lastCall >= start then e.lastCall else start, Shown)];
      } else {
        entries := entries[key := Entry(1, start, Shown)];
      }
    }

    /** The page of one receiver; `done` is whether a row was affected. */
    method DismissOne(key: Key, actor: string, now: int, staleMinutes: int) returns (done: bool)
      modifies this
      ensures entries == After(old(entries), Dismiss(key, actor, now, staleMinutes))
      ensures done <==> entries != old(entries)
    {
      done := key in entries && entries[key].dismissal.Shown? && entries[key].lastCall < now - staleMinutes * 60_000;
      if done {
        ghost var before := entries[key];
        entries := entries[key := entries[key].(dismissal := Dismissed(actor, entries[key].lastCall))];
        assert entries[key] != before;
      }
    }

    method DismissAllStale(actor: string, now: int)
      modifies this
      ensures entries == After(old(entries), DismissStale(actor, now))
    {
      var keys := entries.Keys;
      while keys != {}
        invariant entries.Keys == old(entries).Keys && keys <= entries.Keys
        invariant forall key | key in entries ::
          entries[key] == if key !in keys then AfterSweep(old(entries)[key], actor, now) else old(entries)[key]
        decreases |keys|
      {
        var key :| key in keys;
        var e := entries[key];
        if e.dismissal.Shown? && e.lastCall < now - WEEK {
          entries := entries[key := e.(dismissal := Dismissed(actor, e.lastCall))];
        }
        keys := keys - {key};
      }
    }

    method RestoreOne(key: Key) returns (done: bool)
      modifies this
      ensures entries == After(old(entries), Event.Restore(key))
      ensures done <==> entries != old(entries)
    {
      done := key in entries && entries[key].dismissal.Dismissed?;
      if done {
        ghost var before := entries[key];
        entries := entries[key := entries[key].(dismissal := Shown)];
        assert entries[key] != before;
      }
    }
  }

  /* ---- A faithful running view ---- */

  function Run(events: seq<Event>): Entries {
    if events == [] then map[] else After(Run(events[..|events| - 1]), events[|events| - 1])
  }

  /** The start times of the calls committed for a key, in order of their commits. */
  function CallsOf(events: seq<Event>, key: Key): seq<int> {
    if events == [] then []
    else
      var last := events[|events| - 1];
      CallsOf(events[..|events| - 1], key) + (if last.Committed? && last.key == key then [last.start] else [])
  }

  predicate IsLatest(t: int, starts: seq<int>) { t in starts && forall i | 0 <= i < |starts| :: starts[i] <= t }

  predicate Faithful(entries: Entries, key: Key, starts: seq<int>) {
    && (key in entries <==> starts != [])
    && (key in entries ==>
          && entries[key].count == |starts| && IsLatest(entries[key].lastCall, starts)
          && (entries[key].dismissal.Dismissed? ==> entries[key].dismissal.lastCall == entries[key].lastCall))
  }

  lemma StepFaithful(entries: Entries, e: Event, key: Key, starts: seq<int>)
    requires Faithful(entries, key, starts)
    ensures Faithful(After(entries, e), key, if e.Committed? && e.key == key then starts + [e.start] else starts)
  {
    if e.Committed? && e.key == key {
      assert starts + [e.start] != [] && e.start in starts + [e.start];
    }
  }

  /** Through every mix of commits, dismissals and restores, an entry counts the calls of its key, holds the latest
      start among them, and while dismissed still holds the last call it was dismissed at. */
  lemma {:induction false} FaithfulView(events: seq<Event>, key: Key)
    ensures Faithful(Run(events), key, CallsOf(events, key))
    decreases |events|
  {
    if events != [] {
      var n := |events| - 1;
      FaithfulView(events[..n], key);
      StepFaithful(Run(events[..n]), events[n], key, CallsOf(events[..n], key));
    }
  }

  /** Dismissing and restoring touch nothing but who hid an entry and at which call; a restore shows it again. */
  lemma ButtonsExactly(entries: Entries, e: Event, key: Key)
    requires !e.Committed?
    ensures key in After(entries, e) <==> key in entries
    ensures key in entries ==>
      && After(entries, e)[key].count == entries[key].count && After(entries, e)[key].lastCall == entries[key].lastCall
      && (After(entries, e)[key].dismissal == entries[key].dismissal
          || (e.Restore? && e.key == key && After(entries, e)[key].dismissal == Shown)
          || (!e.Restore? && entries[key].dismissal == Shown
              && After(entries, e)[key].dismissal == Dismissed(e.actor, entries[key].lastCall)))
    ensures e.Restore? && e.key in entries ==> After(entries, e)[e.key].dismissal == Shown
  {
  }

  /** A new call always brings its receiver back, and nothing else hides one that called recently. */
  lemma OnlyStaleIsHidden(entries: Entries, e: Event, key: Key)
    requires key in entries && entries[key].dismissal.Shown?
    ensures key in After(entries, e)
    ensures After(entries, e)[key].dismissal.Dismissed? <==>
      || (e.Dismiss? && e.key == key && entries[key].lastCall < e.now - e.staleMinutes * 60_000)
      || (e.DismissStale? && entries[key].lastCall < e.now - 604_800_000)
  {
  }
}
