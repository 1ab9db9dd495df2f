/** What an accepted filter says, in terms of the text of the query's parameters. */
module FilterQueries {
  import opened Basics
  import opened Text
  import opened Filters

  /* ---- Lists ---- */

  /** Some value holds `part` between commas, with nothing but spaces around it. */
  ghost predicate Names(values: seq<string>, part: string) {
    exists i, piece :: 0 <= i < |values| && Between(values[i], piece, ',') && Padded(piece, part)
  }

  lemma {:induction false} AddAllExactly(parts: seq<string>, raws: seq<string>, part: string)
    ensures part in AddAll(parts, raws) <==>
      part in parts || (part != "" && exists j | 0 <= j < |raws| :: TrimSpace(raws[j]) == part)
    ensures parts <= AddAll(parts, raws)
  {
    hide TrimSpace;
    if raws != [] { AddAllExactly(parts, raws[..|raws| - 1], part); }
  }

  lemma TrimmedPiece(value: string, part: string)
    requires Trimmed(part)
    ensures (exists j | 0 <= j < |Split(value, ',')| :: TrimSpace(Split(value, ',')[j]) == part) <==>
      exists piece :: Between(value, piece, ',') && Padded(piece, part)
  {
    var raws := Split(value, ',');
    hide TrimSpace, Split, Between, Padded;
    if j :| 0 <= j < |raws| && TrimSpace(raws[j]) == part {
      SplitExactly(value, raws[j], ',');
      TrimExactly(raws[j], part);
    }
    if piece :| Between(value, piece, ',') && Padded(piece, part) {
      SplitExactly(value, piece, ',');
      TrimExactly(piece, part);
      var j :| 0 <= j < |raws| && raws[j] == piece;
      assert TrimSpace(raws[j]) == part;
    }
  }

  lemma NamesMore(values: seq<string>, part: string)
    requires values != []
    ensures Names(values, part) <==>
      || Names(values[..|values| - 1], part)
      || exists piece :: Between(values[|values| - 1], piece, ',') && Padded(piece, part)
  {
    hide Between, Padded;
    var n := |values| - 1;
    if piece :| Between(values[n], piece, ',') && Padded(piece, part) {
      assert Names(values, part);
    }
    if i, piece :| 0 <= i < n && Between(values[..n][i], piece, ',') && Padded(piece, part) {
      assert values[..n][i] == values[i];
    }
    if i, piece :| 0 <= i <= n && Between(values[i], piece, ',') && Padded(piece, part) {
      assert i < n ==> values[..n][i] == values[i];
    }
  }

  /** Every part between commas that is not blank is listed without its surrounding spaces, and nothing else is. */
  lemma {:induction false} ListedExactly(values: seq<string>, part: string)
    ensures part in PartsOf(values) <==> part != "" && Trimmed(part) && Names(values, part)
  {
    if values != [] {
      var n := |values| - 1;
      var raws := Split(values[n], ',');
      ListedExactly(values[..n], part);
      AddAllExactly(PartsOf(values[..n]), raws, part);
      NamesMore(values, part);
      if Trimmed(part) { TrimmedPiece(values[n], part); } else { NeverTrimmed(raws, part); }
      hide Names, Between, Padded, TrimSpace, Split, AddAll;
    }
  }

  lemma NeverTrimmed(raws: seq<string>, part: string)
    requires !Trimmed(part)
    ensures forall j | 0 <= j < |raws| :: TrimSpace(raws[j]) != part
  {
  }

  /** Parts are listed in the order in which they first come: what follows never changes what is listed. */
  lemma ListGrows(values: seq<string>, value: string, more: string)
    ensures PartsOf(values + [value]) <= PartsOf(values + [value + "," + more])
    ensures PartsOf(values) <= PartsOf(values + [value])
  {
    var a, b := Split(value, ','), Split(more, ',');
    assert (values + [value])[..|values|] == values && (values + [value + "," + more])[..|values|] == values;
    assert value + "," + more == value + [','] + more;
    SplitConcat(value, more, ',');
    AddAllJoins(PartsOf(values), a, b);
    AddAllExactly(PartsOf(values), a, "");
    AddAllExactly(AddAll(PartsOf(values), a), b, "");
    hide Split, AddAll;
  }

  lemma {:induction false} AddAllJoins(parts: seq<string>, a: seq<string>, b: seq<string>)
    ensures AddAll(parts, a + b) == AddAll(AddAll(parts, a), b)
    decreases |b|
  {
    hide AddPart;
    if b == [] {
      assert a + b == a;
    } else {
      var n := |b| - 1;
      assert (a + b)[..|a + b| - 1] == a + b[..n];
      AddAllJoins(parts, a, b[..n]);
    }
  }

  /** The text lists exactly the parts named by the values, each once. */
  ghost predicate Lists(text: string, values: seq<string>) {
    exists parts :: Proper(parts) && text == Join(parts, ',')
      && forall part :: part in parts <==> part != "" && Trimmed(part) && Names(values, part)
  }

  lemma PartsAreListed(values: seq<string>)
    ensures Lists(Join(PartsOf(values), ','), values)
  {
    PartsProper(values);
    forall part ensures part in PartsOf(values) <==> part != "" && Trimmed(part) && Names(values, part) {
      ListedExactly(values, part);
    }
    hide Names, Trimmed, PartsOf, Join, Proper;
  }

  /* ---- The whole filter ---- */

  function Values(q: Query, p: Param): seq<string> { if p in q then q[p] else [] }

  /** The first value of a parameter, or nothing. */
  ghost predicate Says(q: Query, p: Param, text: string) {
    if Values(q, p) == [] then text == "" else text == Values(q, p)[0]
  }

  ghost predicate SaysPadded(q: Query, p: Param, core: string) {
    Trimmed(core) && exists text :: Says(q, p, text) && Padded(text, core)
  }

  const SORTS := ["oldest", "talkgroup", "radio", "duration", "frequency", "system", "site", "calltype", "lcn",
    "receiver", "talkgroup_label", "radio_label"]

  ghost predicate IsGroup(q: Query, group: string) {
    if SaysPadded(q, Group, "group") then group == "group"
    else if SaysPadded(q, Group, "private") then group == "private"
    else group == ""
  }

  ghost predicate IsOrder(q: Query, sort: string) {
    if exists s :: s in SORTS && SaysPadded(q, Sort, s) then sort in SORTS && SaysPadded(q, Sort, sort)
    else sort == "newest"
  }

  ghost predicate IsTrue(text: string) {
    |text| == 4 && text[0] in "tT" && text[1] in "rR" && text[2] in "uU" && text[3] in "eE"
  }

  lemma GetSays(q: Query, p: Param)
    ensures Says(q, p, Get(q, p)) && forall text :: Says(q, p, text) ==> text == Get(q, p)
  {
  }

  lemma TrimmedSays(q: Query, p: Param, core: string)
    ensures SaysPadded(q, p, core) <==> core == TrimSpace(Get(q, p))
  {
    GetSays(q, p);
    TrimExactly(Get(q, p), core);
    hide Says, Get, TrimSpace, Padded, Trimmed;
  }

  lemma SortsAre(s: string)
    ensures IsSort(s) <==> s in SORTS
  {
  }

  /** The texts of an accepted filter are the first values of their parameters, most without outer spaces. */
  lemma TextsAreTheQuery(q: Query, ok: Validators)
    requires Parse(q, ok).Accepted?
    ensures var f := Parse(q, ok).filter;
      && SaysPadded(q, Q, f.q) && SaysPadded(q, Frequency, f.frequency) && SaysPadded(q, Favourite, f.favourite)
      && SaysPadded(q, MinDuration, f.minDuration) && SaysPadded(q, MaxDuration, f.maxDuration)
      && Says(q, Date, f.date) && Says(q, From, f.from) && Says(q, To, f.to)
  {
    hide Read, Says, SaysPadded, TrimSpace, Get, List;
    PlainFields(q);
    TrimmedSays(q, Q, Read(q).q);
    TrimmedSays(q, Frequency, Read(q).frequency);
    TrimmedSays(q, Favourite, Read(q).favourite);
    TrimmedSays(q, MinDuration, Read(q).minDuration);
    TrimmedSays(q, MaxDuration, Read(q).maxDuration);
    GetSays(q, Date);
    GetSays(q, From);
    GetSays(q, To);
  }

  /** Its lists are those of their own parameters. */
  lemma ListsAreTheQuery(q: Query, ok: Validators)
    requires Parse(q, ok).Accepted?
    ensures var f := Parse(q, ok).filter;
      && Lists(f.sender, Values(q, Sender)) && Lists(f.system, Values(q, System)) && Lists(f.site, Values(q, Site))
      && Lists(f.receiver, Values(q, Receiver)) && Lists(f.talkgroup, Values(q, Talkgroup))
      && Lists(f.radio, Values(q, Radio)) && Lists(f.callType, Values(q, CallType))
  {
    forall p ensures Lists(List(q, p), Values(q, p)) {
      PartsAreListed(Values(q, p));
    }
    hide Read, Lists, TrimSpace, Get, List, Values;
    PlainFields(q);
  }

  /** Its choices: known ones only, and a page and a page size as written when they are such. */
  lemma ChoicesAreTheQuery(q: Query, ok: Validators)
    requires Parse(q, ok).Accepted?
    ensures var f := Parse(q, ok).filter;
      && IsGroup(q, f.group) && IsOrder(q, f.sort)
      && (f.smartSort <==> Says(q, SmartSort, "1"))
      && (f.patched <==> Says(q, Patched, "1") || exists text :: Says(q, Patched, text) && IsTrue(text))
  {
    var group, order := TrimSpace(Get(q, Group)), TrimSpace(Get(q, Sort));
    forall s { SortsAre(s); }
    FoldsExactly(Get(q, Patched));
    hide Read, Says, SaysPadded, TrimSpace, Get, List, IsSort, FoldsToTrue, IsTrue;
    PlainFields(q);
    CheckedFields(q);
    GetSays(q, SmartSort);
    GetSays(q, Patched);
    forall s ensures SaysPadded(q, Sort, s) <==> s == order { TrimmedSays(q, Sort, s); }
    TrimmedSays(q, Group, "group");
    TrimmedSays(q, Group, "private");
  }

  lemma FoldsExactly(s: string)
    ensures FoldsToTrue(s) <==> IsTrue(s)
  {
  }

  /** A page number and a page size are taken when they are whole numbers of the right kind, however they are signed
      or padded with zeros; otherwise page 1 of 50 calls is meant. */
  lemma PagesAreTheQuery(q: Query, ok: Validators)
    requires Parse(q, ok).Accepted?
    ensures var f := Parse(q, ok).filter;
      && f.page >= 1 && f.pageSize in [25, 50, 100, 250]
      && (forall n: nat, text | Says(q, Page, text) && Writes(text, n) ::
            f.page == if 0 < n < 0x8000_0000_0000_0000 then n else 1)
      && (forall n: nat, text | Says(q, PageSize, text) && Writes(text, n) ::
            f.pageSize == if n in [25, 50, 100, 250] then n else 50)
      && (forall text | Says(q, Page, text) && Odd(text) :: f.page == 1)
      && (forall text | Says(q, PageSize, text) && Odd(text) :: f.pageSize == 50)
      && (forall text | Says(q, Page, text) && text != "" && text[0] == '-' :: f.page == 1)
  {
    forall text { OddIsNoNumber(text); }
    forall text | text != "" && text[0] == '-' { MinusIsNegative(text); }
    forall text, n: nat | Writes(text, n) ensures Atoi(text) == if n <= MAX_INT then Some(n) else None {
      WrittenIsRead(text, n);
    }
    hide Read, Says, TrimSpace, Get, List, IsSort, Atoi, Writes, Odd;
    CheckedFields(q);
    GetSays(q, Page);
    GetSays(q, PageSize);
  }

  /** Not a whole number: nothing, or a character in it that is no digit, but for a sign in front. */
  predicate Odd(text: string) {
    || text == "" || text == "+" || text == "-"
    || (exists i | 0 <= i < |text| :: !('0' <= text[i] <= '9') && (i > 0 || (text[i] != '+' && text[i] != '-')))
  }

  /** `n` in decimal, perhaps with a plus sign and leading zeros. */
  ghost predicate Writes(text: string, n: nat) {
    exists zeros :: (forall i | 0 <= i < |zeros| :: zeros[i] == '0')
      && (text == zeros + Itoa(n) || text == "+" + zeros + Itoa(n))
  }

  lemma {:induction false} NoDigits(s: string, i: nat)
    requires i < |s| && !IsDigit(s[i])
    ensures Digits(s).None?
  {
    if i < |s| - 1 { NoDigits(s[..|s| - 1], i); }
  }

  lemma OddIsNoNumber(text: string)
    ensures Odd(text) ==> Atoi(text).None?
  {
    if i :| 0 <= i < |text| && !('0' <= text[i] <= '9') && (i > 0 || (text[i] != '+' && text[i] != '-')) {
      if text[0] == '+' || text[0] == '-' {
        assert text[1..][i - 1] == text[i];
        NoDigits(text[1..], i - 1);
      } else {
        NoDigits(text, i);
      }
    }
  }

  lemma {:induction false} ZerosAreNothing(zeros: string, s: string)
    requires forall i | 0 <= i < |zeros| :: zeros[i] == '0'
    ensures Digits(zeros + s) == Digits(s)
    decreases |zeros| + |s|
  {
    var all := zeros + s;
    if s != "" {
      assert all[..|all| - 1] == zeros + s[..|s| - 1];
      ZerosAreNothing(zeros, s[..|s| - 1]);
    } else if zeros != "" {
      assert all[..|all| - 1] == zeros[..|zeros| - 1] + s;
      ZerosAreNothing(zeros[..|zeros| - 1], s);
    }
  }

  lemma Unsigned(s: string, n: nat)
    requires s != "" && IsDigit(s[0]) && Digits(s) == Some(n)
    ensures Atoi(s) == (if n <= MAX_INT then Some(n) else None) && Atoi("+" + s) == Atoi(s)
  {
    assert ("+" + s)[1..] == s;
    hide Digits;
  }

  lemma WrittenIsRead(text: string, n: nat)
    requires Writes(text, n)
    ensures Atoi(text) == if n <= MAX_INT then Some(n) else None
  {
    hide Digits, Itoa, Atoi;
    var zeros :| (forall i | 0 <= i < |zeros| :: zeros[i] == '0')
      && (text == zeros + Itoa(n) || text == "+" + zeros + Itoa(n));
    ZerosAreNothing(zeros, Itoa(n));
    DigitsOfItoa(n);
    assert (zeros + Itoa(n))[0] == if zeros == "" then Itoa(n)[0] else '0';
    Unsigned(zeros + Itoa(n), n);
    assert "+" + zeros + Itoa(n) == "+" + (zeros + Itoa(n));
  }

  lemma MinusIsNegative(text: string)
    requires text != "" && text[0] == '-'
    ensures Atoi(text).None? || Atoi(text).value <= 0
  {
  }

  /** The digits are decimal. */
  lemma Decimal(n: nat, d: nat)
    requires d < 10
    ensures Itoa(d) == ["0123456789"[d]] && (n > 0 ==> Itoa(10 * n + d) == Itoa(n) + Itoa(d))
  {
    assert (10 * n + d) / 10 == n && (10 * n + d) % 10 == d;
    assert '0' as int + d == "0123456789"[d] as int;
  }

  /* ---- Refusals ---- */

  ghost predicate Fails(q: Query, p: Param, valid: string -> bool) {
    exists text :: Says(q, p, text) && text != "" && !valid(text)
  }

  ghost predicate FailsPadded(q: Query, p: Param, valid: string -> bool) {
    exists core :: SaysPadded(q, p, core) && core != "" && !valid(core)
  }

  /** A query is refused exactly for a date, a time of day or a duration that is given and not one, the first such
      kind being named. */
  lemma RefusedExactly(q: Query, ok: Validators)
    ensures var day, from, to := Fails(q, Date, ok.day), Fails(q, From, ok.clock), Fails(q, To, ok.clock);
      var length := FailsPadded(q, MinDuration, ok.seconds) || FailsPadded(q, MaxDuration, ok.seconds);
      && (Parse(q, ok) == Refused(BadDate) <==> day)
      && (Parse(q, ok) == Refused(BadClock(From)) <==> !day && from)
      && (Parse(q, ok) == Refused(BadClock(To)) <==> !day && !from && to)
      && (Parse(q, ok) == Refused(BadDuration) <==> !day && !from && !to && length)
      && (Parse(q, ok).Accepted? <==> !day && !from && !to && !length)
  {
    hide Read, Says, SaysPadded, TrimSpace, Get, List;
    PlainFields(q);
    GetSays(q, Date);
    GetSays(q, From);
    GetSays(q, To);
    forall core ensures SaysPadded(q, MinDuration, core) <==> core == TrimSpace(Get(q, MinDuration)) {
      TrimmedSays(q, MinDuration, core);
    }
    forall core ensures SaysPadded(q, MaxDuration, core) <==> core == TrimSpace(Get(q, MaxDuration)) {
      TrimmedSays(q, MaxDuration, core);
    }
  }

  /* ---- The link ---- */

  /** The link holds this text under the parameter, or nothing when there is no text or the parameter is dropped. */
  predicate Holds(v: Query, p: Param, text: string, drop: Option<Param>) {
    if text == "" || drop == Some(p) then p !in v else p in v && v[p] == [text]
  }

  predicate HoldsFlag(v: Query, p: Param, flag: bool, drop: Option<Param>) {
    if !flag || drop == Some(p) then p !in v else p in v && v[p] == ["1"]
  }

  /** The link says each text under its own parameter and leaves out what is the default anyway. */
  lemma LinkSaysTexts(v: Query, f: Filter, drop: Option<Param>, page: int)
    requires Prints(v, f, drop, page)
    ensures Holds(v, Q, f.q, drop) && Holds(v, Sender, f.sender, drop) && Holds(v, System, f.system, drop)
    ensures Holds(v, Site, f.site, drop) && Holds(v, Receiver, f.receiver, drop)
    ensures Holds(v, Talkgroup, f.talkgroup, drop) && Holds(v, Radio, f.radio, drop)
    ensures Holds(v, CallType, f.callType, drop) && Holds(v, Group, f.group, drop)
    ensures Holds(v, Frequency, f.frequency, drop) && Holds(v, MinDuration, f.minDuration, drop)
    ensures Holds(v, MaxDuration, f.maxDuration, drop) && Holds(v, Date, f.date, drop) && Holds(v, From, f.from, drop)
    ensures Holds(v, To, f.to, drop) && Holds(v, Favourite, f.favourite, drop)
  {
    forall p: Param | p != Sort && p != PageSize && p != Page ensures Holds(v, p, ValueOf(f, p), drop) {
      assert Saying(v, f, drop, page, p);
    }
    TextsOf(f);
    hide Holds, ValueOf, Prints;
  }

  lemma LinkSaysOthers(v: Query, f: Filter, drop: Option<Param>, page: int)
    requires Prints(v, f, drop, page)
    ensures HoldsFlag(v, Patched, f.patched, drop) && HoldsFlag(v, SmartSort, f.smartSort, drop)
    ensures if f.sort == "newest" || drop == Some(Sort) then Sort !in v else Sort in v && v[Sort] == [f.sort]
    ensures if f.pageSize == 50 then PageSize !in v else PageSize in v && v[PageSize] == [SignedItoa(f.pageSize)]
    ensures if page <= 1 then Page !in v else Page in v && v[Page] == [SignedItoa(page)]
  {
    OthersOf(f, drop, page);
    assert Saying(v, f, drop, page, Patched) && Saying(v, f, drop, page, SmartSort) && Saying(v, f, drop, page, Sort);
    assert Saying(v, f, drop, page, PageSize) && Saying(v, f, drop, page, Page);
    hide Filters.Says, Written, Prints, SignedItoa;
  }
}
