/** The dataset query: calls of one talker are grouped into conversations, and a conversation goes to one split. */
module Conversations {
  /** A selected call; an absent radio is the empty string. Times are milliseconds. */
  datatype Call = Call(id: string, system: string, talkgroup: string, radio: string, start: int)

  const GAP := 5 * 60 * 1000
  const SEPARATOR := '\U{001f}'

  datatype Split = Train | Validation | Test

  predicate SameTalker(a: Call, b: Call) { a.system == b.system && a.talkgroup == b.talkgroup && a.radio == b.radio }

  /** The window order; the ids of calls with equal times only break the tie. */
  ghost predicate Ordered(rows: seq<Call>) { forall i, j | 0 <= i < j < |rows| :: rows[i].start <= rows[j].start }

  /* ---- The query ---- */

  /** `lag(start_time)` in the talker's partition: the row before `n` of the talker of row `i`. */
  function Lag(rows: seq<Call>, i: nat, n: nat): (j: int)
    requires i < |rows| && n <= |rows|
    ensures -1 <= j < n
    ensures j >= 0 ==> SameTalker(rows[j], rows[i])
    ensures forall k | j < k < n :: !SameTalker(rows[k], rows[i])
  {
    if n == 0 then -1 else if SameTalker(rows[n - 1], rows[i]) then n - 1 else Lag(rows, i, n - 1)
  }

  predicate StartsGroup(rows: seq<Call>, i: nat)
    requires i < |rows|
  {
    var previous := Lag(rows, i, i);
    previous < 0 || rows[i].start - rows[previous].start > GAP
  }

  /** The running sum: how many of the first `n` rows of row `i`'s talker start a group. */
  function Starts(rows: seq<Call>, i: nat, n: nat): nat
    requires i < |rows| && n <= |rows|
  {
    if n == 0 then 0
    else Starts(rows, i, n - 1) + (if SameTalker(rows[n - 1], rows[i]) && StartsGroup(rows, n - 1) then 1 else 0)
  }

  function GroupNumber(rows: seq<Call>, i: nat): nat
    requires i < |rows|
  {
    Starts(rows, i, i + 1)
  }

  predicate SameGroup(rows: seq<Call>, i: nat, j: nat)
    requires i < |rows| && j < |rows|
  {
    SameTalker(rows[i], rows[j]) && GroupNumber(rows, i) == GroupNumber(rows, j)
  }

  /** `min(start_time)` over the group of row `i`, among the first `n` rows and row `i`. */
  function MinStart(rows: seq<Call>, i: nat, n: nat): (least: int)
    requires i < |rows| && n <= |rows|
    ensures least <= rows[i].start
    ensures forall k | 0 <= k < n && SameGroup(rows, k, i) :: least <= rows[k].start
    ensures least == rows[i].start || exists k | 0 <= k < n :: SameGroup(rows, k, i) && least == rows[k].start
  {
    if n == 0 then rows[i].start
    else
      var least := MinStart(rows, i, n - 1);
      if SameGroup(rows, n - 1, i) && rows[n - 1].start < least then rows[n - 1].start else least
  }

  /** What is hashed into the conversation id; `show` writes a time. */
  function Source(rows: seq<Call>, i: nat, show: int -> string): string
    requires i < |rows|
  {
    Encode(rows[i].system, rows[i].talkgroup, rows[i].radio, show(MinStart(rows, i, |rows|)))
  }

  function Encode(system: string, talkgroup: string, radio: string, time: string): string {
    system + [SEPARATOR] + talkgroup + [SEPARATOR] + radio + [SEPARATOR] + time
  }

  function SplitOf(hash: int): Split {
    var bucket := (if hash < 0 then -hash else hash) % 100;
    if bucket < 90 then Train else if bucket < 95 then Validation else Test
  }

  /* ---- Groups are the maximal runs without a long pause ---- */

  /** Row `b` follows row `a` in the talker's order. */
  ghost predicate Follows(rows: seq<Call>, a: int, b: int) {
    && 0 <= a < b < |rows| && SameTalker(rows[a], rows[b])
    && forall k | a < k < b :: !SameTalker(rows[k], rows[b])
  }

  /** No two neighbouring calls of the talker of row `j`, from row `i` to row `j`, are more than five minutes apart. */
  ghost predicate NoLongPause(rows: seq<Call>, i: nat, j: nat)
    requires i <= j < |rows|
  {
    forall a, b | i <= a < b <= j && Follows(rows, a, b) && SameTalker(rows[b], rows[j]) ::
      rows[b].start - rows[a].start <= 300_000
  }

  lemma {:induction false} StartsOfTalker(rows: seq<Call>, i: nat, j: nat, n: nat)
    requires i < |rows| && j < |rows| && n <= |rows| && SameTalker(rows[i], rows[j])
    ensures Starts(rows, i, n) == Starts(rows, j, n)
  {
    if n > 0 { StartsOfTalker(rows, i, j, n - 1); }
  }

  /** The running sum is constant exactly while no group starts. */
  lemma {:induction false} StartsFlat(rows: seq<Call>, i: nat, m: nat, n: nat)
    requires i < |rows| && m <= n <= |rows|
    ensures Starts(rows, i, m) <= Starts(rows, i, n)
    ensures Starts(rows, i, m) == Starts(rows, i, n) <==>
      forall k | m <= k < n && SameTalker(rows[k], rows[i]) :: !StartsGroup(rows, k)
    decreases n - m
  {
    if m < n {
      StartsFlat(rows, i, m, n - 1);
    }
  }

  /** A group holds calls of one system, talkgroup and radio only. */
  lemma GroupsAreOfOneTalker(rows: seq<Call>, i: nat, j: nat)
    requires i < |rows| && j < |rows| && SameGroup(rows, i, j)
    ensures rows[i].system == rows[j].system && rows[i].talkgroup == rows[j].talkgroup && rows[i].radio == rows[j].radio
  {
  }

  /** Two calls of a talker are in one group if and only if no pause between them exceeds five minutes. */
  lemma SameGroupExactly(rows: seq<Call>, i: nat, j: nat)
    requires i <= j < |rows| && SameTalker(rows[i], rows[j])
    ensures SameGroup(rows, i, j) <==> NoLongPause(rows, i, j)
  {
    StartsOfTalker(rows, i, j, i + 1);
    StartsFlat(rows, j, i + 1, j + 1);
    forall k | i < k <= j && SameTalker(rows[k], rows[j])
      ensures Follows(rows, Lag(rows, k, k), k) && Lag(rows, k, k) >= i
    {
      assert SameTalker(rows[i], rows[k]);
    }
    forall a, b | i <= a < b <= j && Follows(rows, a, b)
      ensures Lag(rows, b, b) == a
    {
    }
  }

  /** So calls of a talker within five minutes of each other are in one group. */
  lemma CloseCallsTogether(rows: seq<Call>, i: nat, j: nat)
    requires Ordered(rows) && i <= j < |rows| && rows[j].start - rows[i].start <= 300_000
    requires rows[i].system == rows[j].system && rows[i].talkgroup == rows[j].talkgroup
    requires rows[i].radio == rows[j].radio
    ensures SameGroup(rows, i, j)
  {
    SameGroupExactly(rows, i, j);
  }

  /* ---- Conversation ids ---- */

  lemma MinStartOfGroup(rows: seq<Call>, i: nat, j: nat)
    requires i < |rows| && j < |rows| && SameGroup(rows, i, j)
    ensures MinStart(rows, i, |rows|) == MinStart(rows, j, |rows|)
  {
    var a := AttainedMin(rows, i);
    var b := AttainedMin(rows, j);
    assert SameGroup(rows, a, j) && SameGroup(rows, b, i);
  }

  lemma AttainedMin(rows: seq<Call>, i: nat) returns (k: nat)
    requires i < |rows|
    ensures k < |rows| && SameGroup(rows, k, i) && rows[k].start == MinStart(rows, i, |rows|)
  {
    if MinStart(rows, i, |rows|) == rows[i].start { k := i; }
    else { k :| 0 <= k < |rows| && SameGroup(rows, k, i) && MinStart(rows, i, |rows|) == rows[k].start; }
  }

  /** What is hashed: the three identifiers and the start of the group's first call, each after the other with the unit
      separator between. */
  lemma SourceSays(rows: seq<Call>, i: nat, show: int -> string) returns (first: nat)
    requires i < |rows|
    ensures first < |rows| && SameGroup(rows, first, i)
    ensures forall k | 0 <= k < |rows| && SameGroup(rows, k, i) :: rows[first].start <= rows[k].start
    ensures Source(rows, i, show) == rows[i].system + "\U{001f}" + rows[i].talkgroup + "\U{001f}" + rows[i].radio
      + "\U{001f}" + show(rows[first].start)
  {
    first := AttainedMin(rows, i);
  }

  /** Groups of one talker that differ begin at different times. */
  lemma GroupsBeginApart(rows: seq<Call>, i: nat, j: nat)
    requires Ordered(rows) && i < |rows| && j < |rows| && SameTalker(rows[i], rows[j]) && !SameGroup(rows, i, j)
    ensures MinStart(rows, i, |rows|) != MinStart(rows, j, |rows|)
  {
    var a := AttainedMin(rows, i);
    var b := AttainedMin(rows, j);
    if rows[a].start == rows[b].start {
      if a <= b { CloseCallsTogether(rows, a, b); } else { CloseCallsTogether(rows, b, a); }
      assert false;
    }
  }

  /** What the server demands of the two required identifiers. Any of the three may hold the separator. */
  predicate Accepted(c: Call) { c.system != "" && c.talkgroup != "" }

  /** Another reading of the joined identifiers names a different accepted talker. */
  predicate Ambiguous(c: Call) {
    || SEPARATOR in c.radio
    || (SEPARATOR in c.talkgroup && |c.talkgroup| > 1)
    || (c.system != "" && SEPARATOR in c.system[1..])
  }

  ghost predicate Writes(show: int -> string) {
    && (forall t :: SEPARATOR !in show(t))
    && forall t, u | show(t) == show(u) :: t == u
  }

  function Joined(c: Call): string { c.system + [SEPARATOR] + c.talkgroup + [SEPARATOR] + c.radio }

  /** The time is what follows the last separator. */
  lemma TimeIsLast(a: Call, t: string, b: Call, u: string)
    requires SEPARATOR !in t && SEPARATOR !in u
    requires Encode(a.system, a.talkgroup, a.radio, t) == Encode(b.system, b.talkgroup, b.radio, u)
    ensures Joined(a) == Joined(b) && t == u
  {
    var x, y := Encode(a.system, a.talkgroup, a.radio, t), Encode(b.system, b.talkgroup, b.radio, u);
    var m, n := |Joined(a)|, |Joined(b)|;
    assert x == Joined(a) + [SEPARATOR] + t && y == Joined(b) + [SEPARATOR] + u;
    assert x[m] == SEPARATOR && y[n] == SEPARATOR;
    assert forall k | m < k < |x| :: x[k] == t[k - m - 1];
    assert forall k | n < k < |y| :: y[k] == u[k - n - 1];
    assert m == n;
    assert x[..m] == Joined(a) && y[..n] == Joined(b) && x[m + 1..] == t && y[n + 1..] == u;
  }

  /** Where the two inner separators of the joined identifiers are, and what lies around them. */
  lemma Layout(c: Call)
    ensures var x, m, n := Joined(c), |c.system|, |c.system| + 1 + |c.talkgroup|;
      && n < |x| && x[m] == SEPARATOR && x[n] == SEPARATOR
      && x[..m] == c.system && x[m + 1..n] == c.talkgroup && x[n + 1..] == c.radio
  {
    var x, m, n := Joined(c), |c.system|, |c.system| + 1 + |c.talkgroup|;
    assert x == (c.system + [SEPARATOR] + c.talkgroup) + ([SEPARATOR] + c.radio);
    assert x[..n] == c.system + [SEPARATOR] + c.talkgroup;
    assert x[..n][..m] == c.system && x[..n][m + 1..] == c.talkgroup;
    assert x[m + 1..n] == x[..n][m + 1..];
  }

  /** The only other separator an unambiguous talker can hold is its whole talkgroup. */
  lemma InnerSeparators(a: Call, k: nat)
    requires !Ambiguous(a) && 0 < k < |Joined(a)| && Joined(a)[k] == SEPARATOR
    ensures var m, n := |a.system|, |a.system| + 1 + |a.talkgroup|; k == m || k == n || (k == m + 1 && n == m + 2)
  {
    var x, m, n := Joined(a), |a.system|, |a.system| + 1 + |a.talkgroup|;
    Layout(a);
    hide Joined;
    assert forall j | 0 <= j < m :: x[j] == x[..m][j];
    assert forall j | m < j < n :: x[j] == x[m + 1..n][j - m - 1];
    assert forall j | n < j < |x| :: x[j] == x[n + 1..][j - n - 1];
    assert forall j | 0 < j < m :: a.system[j] == a.system[1..][j - 1];
  }

  lemma ReadOneWay(a: Call, b: Call)
    requires Accepted(a) && Accepted(b) && !Ambiguous(a) && Joined(a) == Joined(b)
    ensures SameTalker(a, b)
  {
    Layout(a);
    Layout(b);
    InnerSeparators(a, |b.system|);
    InnerSeparators(a, |b.system| + 1 + |b.talkgroup|);
    hide Joined, Ambiguous;
  }

  lemma Reassociate(a: string, b: string, c: string, d: string)
    ensures a + [SEPARATOR] + b + [SEPARATOR] + (c + [SEPARATOR] + d) ==
      a + [SEPARATOR] + (b + [SEPARATOR] + c) + [SEPARATOR] + d
    ensures (a + [SEPARATOR] + b) + [SEPARATOR] + c + [SEPARATOR] + d ==
      a + [SEPARATOR] + (b + [SEPARATOR] + c) + [SEPARATOR] + d
  {
  }

  lemma SeparatorIn(s: string) returns (k: nat)
    requires SEPARATOR in s
    ensures k < |s| && s == s[..k] + [SEPARATOR] + s[k + 1..]
  {
    k :| 0 <= k < |s| && s[k] == SEPARATOR;
    assert s == s[..k] + s[k..] && s[k..] == [s[k]] + s[k + 1..];
  }

  /** The second reading, when there is one. */
  lemma ReadAnotherWay(a: Call) returns (b: Call)
    requires Accepted(a) && Ambiguous(a)
    ensures Accepted(b) && !SameTalker(a, b) && Joined(a) == Joined(b)
  {
    hide Joined;
    if SEPARATOR in a.radio {
      b := MoveIntoTalkgroup(a);
    } else if SEPARATOR in a.talkgroup && |a.talkgroup| > 1 {
      b := SplitTalkgroup(a);
    } else {
      b := MoveOutOfSystem(a);
    }
  }

  lemma MoveIntoTalkgroup(a: Call) returns (b: Call)
    requires Accepted(a) && SEPARATOR in a.radio
    ensures Accepted(b) && !SameTalker(a, b) && Joined(a) == Joined(b)
  {
    var k := SeparatorIn(a.radio);
    b := a.(talkgroup := a.talkgroup + [SEPARATOR] + a.radio[..k], radio := a.radio[k + 1..]);
    Reassociate(a.system, a.talkgroup, a.radio[..k], a.radio[k + 1..]);
  }

  lemma SplitTalkgroup(a: Call) returns (b: Call)
    requires Accepted(a) && SEPARATOR in a.talkgroup && |a.talkgroup| > 1
    ensures Accepted(b) && !SameTalker(a, b) && Joined(a) == Joined(b)
  {
    var k := SeparatorIn(a.talkgroup);
    var s, t := a.talkgroup[..k], a.talkgroup[k + 1..];
    if k > 0 {
      b := a.(talkgroup := s, radio := t + [SEPARATOR] + a.radio);
      assert |s| < |a.talkgroup|;
      Reassociate(a.system, s, t, a.radio);
    } else {
      b := a.(system := a.system + [SEPARATOR] + s, talkgroup := t);
      assert |b.system| > |a.system|;
      Reassociate(a.system, s, t, a.radio);
    }
  }

  lemma MoveOutOfSystem(a: Call) returns (b: Call)
    requires Accepted(a) && SEPARATOR in a.system[1..]
    ensures Accepted(b) && !SameTalker(a, b) && Joined(a) == Joined(b)
  {
    var j := SeparatorIn(a.system[1..]);
    var k := j + 1;
    assert a.system == [a.system[0]] + a.system[1..];
    var s, t := a.system[..k], a.system[k + 1..];
    b := a.(system := s, talkgroup := t + [SEPARATOR] + a.talkgroup);
    assert |s| < |a.system| && a.system == s + [SEPARATOR] + t;
    Reassociate(s, t, a.talkgroup, a.radio);
  }

  predicate Collides(a: Call, b: Call, time: string) {
    && Accepted(b) && !SameTalker(a, b)
    && Encode(a.system, a.talkgroup, a.radio, time) == Encode(b.system, b.talkgroup, b.radio, time)
  }

  /** A talker shares what is hashed with a different accepted talker if and only if its identifiers are ambiguous. */
  lemma SharedIdExactly(a: Call, time: string)
    requires Accepted(a) && SEPARATOR !in time
    ensures (exists b :: Collides(a, b, time)) <==> Ambiguous(a)
  {
    if Ambiguous(a) {
      var b := ReadAnotherWay(a);
      assert Encode(a.system, a.talkgroup, a.radio, time) == Joined(a) + [SEPARATOR] + time;
      assert Encode(b.system, b.talkgroup, b.radio, time) == Joined(b) + [SEPARATOR] + time;
      assert Collides(a, b, time);
    } else if b :| Collides(a, b, time) {
      TimeIsLast(a, time, b, time);
      ReadOneWay(a, b);
      assert false;
    }
  }

  /** Two selected calls get the same conversation id, before hashing, if and only if they are in one group. */
  lemma IdIsTheGroup(rows: seq<Call>, i: nat, j: nat, show: int -> string)
    requires Ordered(rows) && i < |rows| && j < |rows| && Writes(show)
    requires Accepted(rows[i]) && Accepted(rows[j]) && !Ambiguous(rows[i])
    ensures Source(rows, i, show) == Source(rows, j, show) <==> SameGroup(rows, i, j)
  {
    if SameGroup(rows, i, j) {
      MinStartOfGroup(rows, i, j);
    } else if Source(rows, i, show) == Source(rows, j, show) {
      TimeIsLast(rows[i], show(MinStart(rows, i, |rows|)), rows[j], show(MinStart(rows, j, |rows|)));
      ReadOneWay(rows[i], rows[j]);
      GroupsBeginApart(rows, i, j);
      assert false;
    }
  }

  /** A conversation never straddles two splits, whatever the hashes are. */
  lemma OneSplitPerConversation(rows: seq<Call>, i: nat, j: nat, show: int -> string, md5: string -> string,
        hash: string -> int)
    requires i <= j < |rows| && SameTalker(rows[i], rows[j]) && NoLongPause(rows, i, j)
    ensures SplitOf(hash(md5(Source(rows, i, show)))) == SplitOf(hash(md5(Source(rows, j, show))))
  {
    SameGroupExactly(rows, i, j);
    MinStartOfGroup(rows, i, j);
  }

  /** Of any hundred consecutive hashes ninety go to training, five to validation and five to the test, and a hash and
      its negative go together. */
  lemma SplitShares(hundreds: nat, rest: nat)
    requires rest < 100
    ensures var split := SplitOf(100 * hundreds + rest);
      && (split == Train <==> rest < 90) && (split == Test <==> rest >= 95)
      && SplitOf(-(100 * hundreds + rest)) == split
  {
  }

  /** With ambiguous identifiers two talkers do share a conversation id. */
  lemma SeparatorCollides(show: int -> string) returns (rows: seq<Call>)
    ensures Ordered(rows) && |rows| == 2 && Accepted(rows[0]) && Accepted(rows[1]) && !SameTalker(rows[0], rows[1])
    ensures Source(rows, 0, show) == Source(rows, 1, show)
  {
    var first := Call("1", "a" + [SEPARATOR] + "b", "c", "", 0);
    assert first.system[1..][0] == SEPARATOR;
    var second := ReadAnotherWay(first);
    rows := [first, second.(id := "2", start := 0)];
    assert MinStart(rows, 0, 2) == 0 && MinStart(rows, 1, 2) == 0;
    assert Encode(rows[0].system, rows[0].talkgroup, rows[0].radio, show(0)) == Joined(first) + [SEPARATOR] + show(0);
    assert Encode(rows[1].system, rows[1].talkgroup, rows[1].radio, show(0)) == Joined(second) + [SEPARATOR] + show(0);
  }
}
