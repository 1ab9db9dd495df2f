/** The ingestion rate limiter: a window of one minute and 600 requests for each key. */
module Limiter {
  datatype Window = Window(start: int, count: nat)

  type Rates = map<string, Window>

  /** Nanoseconds. */
  const MINUTE := 60_000_000_000
  const PER_WINDOW := 600
  const SWEEP_ABOVE := 10000

  /** A request as the limiter sees it: the remote address and sender it comes from, and its reading of the clock. */
  datatype Request = Request(key: string, now: int)

  predicate Expired(w: Window, now: int) { now - w.start >= MINUTE }

  function Counted(rates: Rates, r: Request): (w: Window)
  {
    if r.key in rates && !Expired(rates[r.key], r.now) then rates[r.key].(count := rates[r.key].count + 1)
    else Window(r.now, 1)
  }

  /** The simple limiter keeps every window for ever. */
  function Simple(rates: Rates, r: Request): Rates { rates[r.key := Counted(rates, r)] }

  function Live(rates: Rates, now: int): Rates { map key | key in rates && !Expired(rates[key], now) :: rates[key] }

  /** The real one sweeps expired windows when there are many. */
  function Sweeping(rates: Rates, r: Request): Rates {
    var counted := rates[r.key := Counted(rates, r)];
    if |counted| > SWEEP_ABOVE then Live(counted, r.now) else counted
  }

  predicate Admits(rates: Rates, r: Request) { Counted(rates, r).count <= PER_WINDOW }

  /** `ingestionAllowed`. */
  class Ingestion {
    var rates: Rates

    constructor ()
      ensures rates == map[]
    {
      rates := map[];
    }

    method Allowed(key: string, now: int) returns (allowed: bool)
      modifies this
      ensures rates == Sweeping(old(rates), Request(key, now))
      ensures allowed == Admits(old(rates), Request(key, now))
    {
      var window := if key in rates then rates[key] else Window(now, 0);
      if key !in rates || now - window.start >= MINUTE { window := Window(now, 0); }
      window := window.(count := window.count + 1);
      rates := rates[key := window];
      if |rates| > SWEEP_ABOVE { Sweep(now); }
      allowed := window.count <= PER_WINDOW;
    }

    method Sweep(now: int)
      modifies this
      ensures rates == Live(old(rates), now)
    {
      var keys := rates.Keys;
      while keys != {}
        invariant rates.Keys <= old(rates).Keys && keys <= old(rates).Keys
        invariant forall key | key in old(rates) ::
          if key in keys then key in rates && rates[key] == old(rates)[key]
          else (key in rates <==> !Expired(old(rates)[key], now)) && (key in rates ==> rates[key] == old(rates)[key])
        decreases |keys|
      {
        var key :| key in keys;
        if now - rates[key].start >= MINUTE { rates := rates - {key}; }
        keys := keys - {key};
      }
    }
  }

  /* ---- Sweeping changes no decision ---- */

  predicate InOrder(requests: seq<Request>) {
    forall i, j | 0 <= i < j < |requests| :: requests[i].now <= requests[j].now
  }

  function SimpleDecisions(rates: Rates, requests: seq<Request>): seq<bool>
    decreases |requests|
  {
    if requests == [] then []
    else [Admits(rates, requests[0])] + SimpleDecisions(Simple(rates, requests[0]), requests[1..])
  }

  function SweepingDecisions(rates: Rates, requests: seq<Request>): seq<bool>
    decreases |requests|
  {
    if requests == [] then []
    else [Admits(rates, requests[0])] + SweepingDecisions(Sweeping(rates, requests[0]), requests[1..])
  }

  /** What is missing after sweeping had expired. */
  ghost predicate Agree(swept: Rates, kept: Rates, now: int) {
    && (forall key | key in swept :: key in kept && kept[key] == swept[key])
    && (forall key | key in kept && key !in swept :: Expired(kept[key], now))
  }

  lemma AgreeStep(swept: Rates, kept: Rates, before: int, r: Request)
    requires Agree(swept, kept, before) && before <= r.now
    ensures Admits(swept, r) == Admits(kept, r)
    ensures Agree(Sweeping(swept, r), Simple(kept, r), r.now)
  {
    assert Counted(swept, r) == Counted(kept, r);
  }

  /** For requests in order, the sweeping limiter and the simple one decide alike. */
  lemma {:induction false} SweepingIsInvisible(swept: Rates, kept: Rates, before: int, requests: seq<Request>)
    requires Agree(swept, kept, before) && InOrder(requests) && (requests != [] ==> before <= requests[0].now)
    ensures SweepingDecisions(swept, requests) == SimpleDecisions(kept, requests)
    decreases |requests|
  {
    if requests != [] {
      var r := requests[0];
      AgreeStep(swept, kept, before, r);
      SweepingIsInvisible(Sweeping(swept, r), Simple(kept, r), r.now, requests[1..]);
    }
  }

  /** Out of order it can be seen: after a sweep, an older reading finds its window gone. */
  lemma OutOfOrderShows(swept: Rates, kept: Rates, key: string, late: int, early: int)
    requires key in kept && kept[key].count >= PER_WINDOW && swept == Live(kept, late)
    requires kept[key].start <= early < kept[key].start + MINUTE <= late
    ensures !Admits(kept, Request(key, early)) && Admits(swept, Request(key, early))
  {
  }

  /** A sweep happens when more than ten thousand windows are kept, and then only windows younger than a minute stay. */
  lemma SweepExactly(rates: Rates, r: Request)
    ensures var kept := Sweeping(rates, r);
      && r.key in kept
      && (|rates.Keys + {r.key}| <= 10000 ==> kept.Keys == rates.Keys + {r.key})
      && (|rates.Keys + {r.key}| > 10000 ==> forall key | key in kept :: r.now - kept[key].start < 60_000_000_000)
      && (forall key | key in kept && key != r.key :: key in rates && kept[key] == rates[key])
      && (forall key | key in rates && r.now - rates[key].start < 60_000_000_000 :: key in kept)
  {
    var counted := rates[r.key := Counted(rates, r)];
    assert counted.Keys == rates.Keys + {r.key};
    assert |counted| == |counted.Keys|;
  }

  /* ---- The bound ---- */

  /** In the minute, in nanoseconds, from `t`. */
  predicate Within(r: Request, key: string, t: int) { r.key == key && t <= r.now <= t + 60_000_000_000 }

  /** Requests of `key` admitted in the minute from `t`. */
  function Admitted(rates: Rates, requests: seq<Request>, key: string, t: int): nat
    decreases |requests|
  {
    if requests == [] then 0
    else
      (if Within(requests[0], key, t) && Admits(rates, requests[0]) then 1 else 0)
      + Admitted(Simple(rates, requests[0]), requests[1..], key, t)
  }

  function Capped(count: nat): nat { if count <= PER_WINDOW then count else PER_WINDOW }

  /** What can still have been admitted in the minute from `t`, given the current window of the key. */
  function Used(rates: Rates, key: string, t: int): nat {
    if key !in rates || rates[key].start + MINUTE <= t then 0
    else if rates[key].start <= t then Capped(rates[key].count)
    else if rates[key].start <= t + MINUTE then PER_WINDOW + Capped(rates[key].count)
    else 2 * PER_WINDOW
  }

  lemma UsedStep(rates: Rates, r: Request, key: string, t: int)
    requires key in rates ==> rates[key].start <= r.now
    ensures Used(rates, key, t) + (if Within(r, key, t) && Admits(rates, r) then 1 else 0)
         <= Used(Simple(rates, r), key, t)
    ensures Used(rates, key, t) <= 2 * PER_WINDOW
  {
  }

  lemma {:induction false} AdmittedBound(rates: Rates, requests: seq<Request>, key: string, t: int)
    requires InOrder(requests) && (key in rates && requests != [] ==> rates[key].start <= requests[0].now)
    ensures Used(rates, key, t) + Admitted(rates, requests, key, t) <= 2 * PER_WINDOW
    decreases |requests|
  {
    if requests != [] {
      UsedStep(rates, requests[0], key, t);
      AdmittedBound(Simple(rates, requests[0]), requests[1..], key, t);
    }
  }

  /** The admissions of `key` in the minute from `t`, by the decisions taken. */
  function Count(decisions: seq<bool>, requests: seq<Request>, key: string, t: int): nat
    requires |decisions| == |requests|
    decreases |requests|
  {
    if requests == [] then 0
    else (if decisions[0] && Within(requests[0], key, t) then 1 else 0) + Count(decisions[1..], requests[1..], key, t)
  }

  lemma {:induction false} CountIsAdmitted(rates: Rates, requests: seq<Request>, key: string, t: int)
    ensures |SimpleDecisions(rates, requests)| == |requests|
    ensures Count(SimpleDecisions(rates, requests), requests, key, t) == Admitted(rates, requests, key, t)
    decreases |requests|
  {
    hide Admits, Simple, Within;
    if requests != [] { CountIsAdmitted(Simple(rates, requests[0]), requests[1..], key, t); }
  }

  /** The sweeping limiter's decisions from the start, counted. */
  lemma SweepingCount(requests: seq<Request>, key: string, t: int)
    requires InOrder(requests)
    ensures |SweepingDecisions(map[], requests)| == |requests|
    ensures Count(SweepingDecisions(map[], requests), requests, key, t) == Admitted(map[], requests, key, t)
  {
    SweepingIsInvisible(map[], map[], if requests == [] then 0 else requests[0].now, requests);
    CountIsAdmitted(map[], requests, key, t);
    hide InOrder, SweepingDecisions, SimpleDecisions, Count, Admitted;
  }

  /** In any minute the limiter admits at most 1200 requests of one key. */
  lemma AtMost1200(requests: seq<Request>, key: string, t: int)
    requires InOrder(requests)
    ensures |SweepingDecisions(map[], requests)| == |requests|
    ensures Count(SweepingDecisions(map[], requests), requests, key, t) <= 1200
  {
    AdmittedBound(map[], requests, key, t);
    SweepingCount(requests, key, t);
  }

  function Burst(key: string, now: int, n: nat): (burst: seq<Request>)
    ensures |burst| == n
  {
    seq(n, _ => Request(key, now))
  }

  /** A burst into a window with room is admitted whole; `rest` follows it. */
  lemma {:induction false} BurstAdmitted(rates: Rates, w: Window, n: nat, now: int, rest: seq<Request>, key: string,
        t: int)
    requires rates == map[key := w] && !Expired(w, now) && w.count + n <= PER_WINDOW && t <= now <= t + MINUTE
    ensures Admitted(rates, Burst(key, now, n) + rest, key, t)
      == n + Admitted(map[key := w.(count := w.count + n)], rest, key, t)
    decreases n
  {
    if n == 0 {
      assert Burst(key, now, n) + rest == rest;
    } else {
      var requests := Burst(key, now, n) + rest;
      assert requests[1..] == Burst(key, now, n - 1) + rest;
      assert Simple(rates, requests[0]) == map[key := w.(count := w.count + 1)];
      BurstAdmitted(Simple(rates, requests[0]), w.(count := w.count + 1), n - 1, now, rest, key, t);
    }
  }

  /** The bound is reached: a full window at its first instant, and the next one a minute later. */
  lemma BoundReached(key: string) returns (requests: seq<Request>)
    ensures InOrder(requests) && |SweepingDecisions(map[], requests)| == |requests|
    ensures Count(SweepingDecisions(map[], requests), requests, key, 0) == 1200
  {
    requests := TwoBursts(key);
    SweepingCount(requests, key, 0);
    hide InOrder, SweepingDecisions, Count, Admitted;
  }

  lemma TwoBursts(key: string) returns (requests: seq<Request>)
    ensures InOrder(requests) && Admitted(map[], requests, key, 0) == 1200
  {
    var second := Burst(key, MINUTE, PER_WINDOW - 1);
    var tail := [Request(key, MINUTE)] + second;
    requests := [Request(key, 0)] + (Burst(key, 0, PER_WINDOW - 1) + tail);
    assert requests[1..] == Burst(key, 0, PER_WINDOW - 1) + tail && tail[1..] == second + [];
    BurstAdmitted(map[key := Window(0, 1)], Window(0, 1), PER_WINDOW - 1, 0, tail, key, 0);
    BurstAdmitted(map[key := Window(MINUTE, 1)], Window(MINUTE, 1), PER_WINDOW - 1, MINUTE, [], key, 0);
    assert Simple(map[], requests[0]) == map[key := Window(0, 1)];
    assert Simple(map[key := Window(0, PER_WINDOW)], tail[0]) == map[key := Window(MINUTE, 1)];
  }

  /* ---- Requests out of order, from the start ---- */

  function AfterSimple(rates: Rates, requests: seq<Request>): Rates
    decreases |requests|
  {
    if requests == [] then rates else AfterSimple(Simple(rates, requests[0]), requests[1..])
  }

  function AfterSweeping(rates: Rates, requests: seq<Request>): Rates
    decreases |requests|
  {
    if requests == [] then rates else AfterSweeping(Sweeping(rates, requests[0]), requests[1..])
  }

  lemma {:induction false} SimpleJoins(rates: Rates, a: seq<Request>, b: seq<Request>)
    ensures AfterSimple(rates, a + b) == AfterSimple(AfterSimple(rates, a), b)
    ensures SimpleDecisions(rates, a + b) == SimpleDecisions(rates, a) + SimpleDecisions(AfterSimple(rates, a), b)
    decreases |a|
  {
    hide Simple, Admits;
    if a == [] {
      assert a + b == b;
    } else {
      assert (a + b)[1..] == a[1..] + b;
      SimpleJoins(Simple(rates, a[0]), a[1..], b);
    }
  }

  lemma {:induction false} SweepingJoins(rates: Rates, a: seq<Request>, b: seq<Request>)
    ensures AfterSweeping(rates, a + b) == AfterSweeping(AfterSweeping(rates, a), b)
    ensures SweepingDecisions(rates, a + b) ==
      SweepingDecisions(rates, a) + SweepingDecisions(AfterSweeping(rates, a), b)
    decreases |a|
  {
    hide Sweeping, Admits;
    if a == [] {
      assert a + b == b;
    } else {
      assert (a + b)[1..] == a[1..] + b;
      SweepingJoins(Sweeping(rates, a[0]), a[1..], b);
    }
  }

  const HOT := "192.0.2.1|S"

  lemma {:induction false} HotWindow(n: nat, rates: Rates)
    requires n < PER_WINDOW && rates == map[HOT := Window(0, PER_WINDOW - n)]
    ensures AfterSimple(rates, Burst(HOT, 0, n)) == map[HOT := Window(0, PER_WINDOW)]
    ensures AfterSweeping(rates, Burst(HOT, 0, n)) == map[HOT := Window(0, PER_WINDOW)]
  {
    if n > 0 {
      var next := map[HOT := Window(0, PER_WINDOW - (n - 1))];
      assert Simple(rates, Request(HOT, 0)) == next && |next| == 1;
      assert Burst(HOT, 0, n)[1..] == Burst(HOT, 0, n - 1);
      HotWindow(n - 1, next);
    }
  }

  /** The keys of one sender at ten thousand addresses from 10.0.0.0 to 19.9.9.9. */
  function Address(n: nat): string
    requires n < 10000
  {
    var hundreds, tens := n / 10 / 10, n / 10;
    ['1', Digit(hundreds / 10), '.', Digit(hundreds % 10), '.', Digit(tens % 10), '.', Digit(n % 10), '|', 'S']
  }

  function Digit(d: nat): char
    requires d < 10
  {
    '0' + d as char
  }

  lemma DigitsDiffer(c: nat, d: nat)
    requires c < 10 && d < 10 && Digit(c) == Digit(d)
    ensures c == d
  {
    assert Digit(c) as int == '0' as int + c && Digit(d) as int == '0' as int + d;
  }

  lemma SameNumber(m: nat, n: nat)
    requires m / 10 == n / 10 && m % 10 == n % 10
    ensures m == n
  {
  }

  lemma AddressesDiffer(m: nat, n: nat)
    requires m < 10000 && n < 10000 && Address(m) == Address(n)
    ensures m == n
  {
    var a, b := Address(m), Address(n);
    assert a[1] == b[1] && a[3] == b[3] && a[5] == b[5] && a[7] == b[7];
    DigitsDiffer(m / 10 / 10 / 10, n / 10 / 10 / 10);
    DigitsDiffer(m / 10 / 10 % 10, n / 10 / 10 % 10);
    DigitsDiffer(m / 10 % 10, n / 10 % 10);
    DigitsDiffer(m % 10, n % 10);
    SameNumber(m / 10 / 10, n / 10 / 10);
    SameNumber(m / 10, n / 10);
    SameNumber(m, n);
  }

  lemma NotHot(n: nat)
    requires n < 10000
    ensures Address(n) != HOT
  {
    assert Address(n)[2] == '.' && HOT[2] == '2';
  }

  /** One request a minute later from each of these addresses. */
  function Cold(n: nat): Request
    requires n < 10000
  {
    Request(Address(n), MINUTE)
  }

  function Flood(from: nat, k: nat): (flood: seq<Request>)
    requires from + k <= 10000
    ensures |flood| == k
    decreases k
  {
    if k == 0 then [] else [Cold(from)] + Flood(from + 1, k - 1)
  }

  /** The first key is full, and `n` addresses have followed. */
  ghost predicate Flooded(rates: Rates, n: nat) {
    && HOT in rates && rates[HOT] == Window(0, PER_WINDOW) && |rates| == n + 1
    && forall key | key in rates && key != HOT :: exists m | 0 <= m < n && m < 10000 :: key == Address(m)
  }

  lemma FloodedLacks(rates: Rates, n: nat)
    requires Flooded(rates, n) && n < 10000
    ensures Address(n) !in rates
  {
    NotHot(n);
    if Address(n) in rates {
      var m :| 0 <= m < n && m < 10000 && Address(n) == Address(m);
      AddressesDiffer(m, n);
    }
  }

  lemma OneColder(rates: Rates, n: nat)
    requires Flooded(rates, n) && n < SWEEP_ABOVE
    ensures Flooded(Simple(rates, Cold(n)), n + 1)
    ensures n + 1 < SWEEP_ABOVE ==> Sweeping(rates, Cold(n)) == Simple(rates, Cold(n))
    ensures n + 1 == SWEEP_ABOVE ==> Sweeping(rates, Cold(n)) == Live(Simple(rates, Cold(n)), MINUTE)
  {
    FloodedLacks(rates, n);
    NotHot(n);
    hide Address, Live;
    var next := Simple(rates, Cold(n));
    forall key | key in next && key != HOT ensures exists m | 0 <= m < n + 1 && m < 10000 :: key == Address(m) {
      if key in rates {
        var m :| 0 <= m < n && m < 10000 && key == Address(m);
      } else {
        assert key == Address(n);
      }
    }
  }

  lemma {:induction false} FloodFills(rates: Rates, n: nat, k: nat)
    requires Flooded(rates, n) && n + k < SWEEP_ABOVE
    ensures AfterSimple(rates, Flood(n, k)) == AfterSweeping(rates, Flood(n, k))
    ensures Flooded(AfterSimple(rates, Flood(n, k)), n + k)
    decreases k
  {
    hide Flooded, Simple, Sweeping, Cold;
    if k > 0 {
      OneColder(rates, n);
      assert Flood(n, k)[0] == Cold(n) && Flood(n, k)[1..] == Flood(n + 1, k - 1);
      FloodFills(Simple(rates, Cold(n)), n + 1, k - 1);
    }
  }

  /** 600 requests of one key, one from each of ten thousand other addresses a minute later, and one more request of
      the first key that read the clock in time but is served last: the limiter admits it, where one that keeps every
      window would not. */
  lemma OutOfOrderRun() returns (requests: seq<Request>)
    ensures SweepingDecisions(map[], requests) != SimpleDecisions(map[], requests)
  {
    var first, last := Request(HOT, 0), Request(HOT, 1);
    var burst, flood := Burst(HOT, 0, PER_WINDOW - 1), Flood(0, SWEEP_ABOVE - 1);
    var cold := Cold(SWEEP_ABOVE - 1);
    var full := map[HOT := Window(0, PER_WINDOW)];
    assert Simple(map[], first) == map[HOT := Window(0, 1)] && |map[HOT := Window(0, 1)]| == 1;
    HotWindow(PER_WINDOW - 1, map[HOT := Window(0, 1)]);
    assert Flooded(full, 0);
    FloodFills(full, 0, SWEEP_ABOVE - 1);
    var flooded := AfterSimple(full, flood);
    OneColder(flooded, SWEEP_ABOVE - 1);
    var kept, swept := Simple(flooded, cold), Sweeping(flooded, cold);
    OutOfOrderShows(swept, kept, HOT, MINUTE, 1);
    var warm := [first] + burst;
    requests := warm + (flood + ([cold] + [last]));
    LastDecisions(warm, flood, cold, last, full, flooded);
  }

  lemma LastDecisions(warm: seq<Request>, flood: seq<Request>, cold: Request, last: Request, full: Rates,
        flooded: Rates)
    requires AfterSimple(map[], warm) == full == AfterSweeping(map[], warm)
    requires AfterSimple(full, flood) == flooded == AfterSweeping(full, flood)
    requires Admits(Sweeping(flooded, cold), last) != Admits(Simple(flooded, cold), last)
    ensures SweepingDecisions(map[], warm + (flood + ([cold] + [last])))
         != SimpleDecisions(map[], warm + (flood + ([cold] + [last])))
  {
    hide Admits, Simple, Sweeping;
    var tail := [cold] + [last];
    SimpleJoins(map[], warm, flood + tail);
    SweepingJoins(map[], warm, flood + tail);
    SimpleJoins(full, flood, tail);
    SweepingJoins(full, flood, tail);
    SimpleJoins(flooded, [cold], [last]);
    SweepingJoins(flooded, [cold], [last]);
    assert [cold][1..] == [] && [last][1..] == [];
    var a, b := SimpleDecisions(map[], warm + (flood + tail)), SweepingDecisions(map[], warm + (flood + tail));
    assert SimpleDecisions(Simple(flooded, cold), [last]) == [Admits(Simple(flooded, cold), last)];
    assert SweepingDecisions(Sweeping(flooded, cold), [last]) == [Admits(Sweeping(flooded, cold), last)];
    assert a[|a| - 1] == Admits(Simple(flooded, cold), last);
    assert b[|b| - 1] == Admits(Sweeping(flooded, cold), last);
  }
}
