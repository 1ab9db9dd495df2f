/** The call list's filter: reading it from a query and writing it into a link. */
module Filters {
  import opened Basics
  import opened Text

  /** The query parameters that matter; the others are ignored. */
  datatype Param =
    | Q | Sender | System | Site | Receiver | Talkgroup | Radio | CallType | Group | Frequency
    | MinDuration | MaxDuration | Date | From | To | Favourite
    | Patched | Sort | SmartSort | PageSize | Page

  type Query = map<Param, seq<string>>

  datatype Filter = Filter(
    q: string, sender: string, system: string, site: string, receiver: string, talkgroup: string, radio: string,
    callType: string, group: string, frequency: string, minDuration: string, maxDuration: string,
    date: string, from: string, to: string, favourite: string,
    sort: string, smartSort: bool, patched: bool, page: int, pageSize: int)

  datatype QueryError = BadDate | BadClock(param: Param) | BadDuration

  datatype Parsed = Accepted(filter: Filter) | Refused(error: QueryError)

  /** The standard library's parsers: a day, a time of day, and seconds in 0..86400. */
  datatype Validators = Validators(day: string -> bool, clock: string -> bool, seconds: string -> bool)

  const NEWEST := "newest"

  predicate IsSort(s: string) {
    s in {"oldest", "talkgroup", "radio", "duration", "frequency", "system", "site", "calltype", "lcn", "receiver",
      "talkgroup_label", "radio_label"}
  }

  predicate IsPageSize(n: int) { n == 25 || n == 50 || n == 100 || n == 250 }

  /* ---- Numbers ---- */

  predicate IsDigit(c: char) { '0' <= c <= '9' }

  function Itoa(n: nat): (s: string)
    ensures s != "" && forall i | 0 <= i < |s| :: IsDigit(s[i])
  {
    var digit := [('0' as int + n % 10) as char];
    if n < 10 then digit else Itoa(n / 10) + digit
  }

  /** `strconv.Itoa`. */
  function SignedItoa(n: int): (s: string)
    ensures s != ""
  {
    if n < 0 then "-" + Itoa(-n) else Itoa(n)
  }

  function Digits(s: string): Option<nat> {
    if s == "" then Some(0)
    else if !IsDigit(s[|s| - 1]) then None
    else
      var rest := Digits(s[..|s| - 1]);
      if rest.None? then None else Some(rest.value * 10 + (s[|s| - 1] as int - '0' as int))
  }

  const MAX_INT := 0x7fff_ffff_ffff_ffff

  /** `strconv.Atoi`: a sign, then digits, within 64 bits. */
  function Atoi(s: string): Option<int> {
    var signed := s != "" && (s[0] == '+' || s[0] == '-');
    var digits := if signed then s[1..] else s;
    if digits == "" || Digits(digits).None? then None
    else
      var n := Digits(digits).value as int * (if signed && s[0] == '-' then -1 else 1);
      if -MAX_INT - 1 <= n <= MAX_INT then Some(n) else None
  }

  lemma {:induction false} DigitsOfItoa(n: nat)
    ensures Digits(Itoa(n)) == Some(n)
  {
    var s := Itoa(n);
    if n >= 10 {
      DigitsOfItoa(n / 10);
      assert s[..|s| - 1] == Itoa(n / 10);
    } else {
      assert s[..|s| - 1] == "";
    }
  }

  lemma AtoiItoa(n: nat)
    requires n <= MAX_INT
    ensures Atoi(Itoa(n)) == Some(n)
  {
    DigitsOfItoa(n);
    assert IsDigit(Itoa(n)[0]);
  }

  /* ---- Lists of values ---- */

  /** A part joins the list if it is not blank and not there yet. */
  function AddPart(parts: seq<string>, raw: string): seq<string> {
    var part := TrimSpace(raw);
    if part == "" || part in parts then parts else parts + [part]
  }

  function AddAll(parts: seq<string>, raws: seq<string>): seq<string> {
    if raws == [] then parts else AddPart(AddAll(parts, raws[..|raws| - 1]), raws[|raws| - 1])
  }

  function PartsOf(values: seq<string>): seq<string> {
    if values == [] then [] else AddAll(PartsOf(values[..|values| - 1]), Split(values[|values| - 1], ','))
  }

  /** The `multi` loops. */
  method Multi(values: seq<string>) returns (joined: string)
    ensures joined == Join(PartsOf(values), ',')
  {
    var out := [];
    var seen: set<string> := {};
    for i := 0 to |values|
      invariant out == PartsOf(values[..i]) && forall part :: part in seen <==> part in out
    {
      var raws := Split(values[i], ',');
      ghost var before := out;
      for j := 0 to |raws|
        invariant out == AddAll(before, raws[..j]) && forall part :: part in seen <==> part in out
      {
        var part := TrimSpace(raws[j]);
        if part != "" && part !in seen {
          out := out + [part];
          seen := seen + {part};
        }
        assert raws[..j + 1][..j] == raws[..j];
      }
      assert raws[..|raws|] == raws && values[..i + 1][..i] == values[..i];
    }
    assert values[..|values|] == values;
    joined := Join(out, ',');
  }

  /** What a list of parts looks like: no part blank, padded, repeated or holding a comma. */
  predicate Proper(parts: seq<string>) {
    && (forall i | 0 <= i < |parts| :: parts[i] != "" && Trimmed(parts[i]) && ',' !in parts[i])
    && (forall i, j | 0 <= i < j < |parts| :: parts[i] != parts[j])
  }

  lemma TrimKeepsOut(s: string, c: char)
    requires c !in s
    ensures c !in TrimSpace(s)
  {
  }

  lemma AddPartProper(parts: seq<string>, raw: string)
    requires Proper(parts) && ',' !in raw
    ensures Proper(AddPart(parts, raw))
  {
    TrimKeepsOut(raw, ',');
    hide TrimSpace;
  }

  lemma {:induction false} AddAllProper(parts: seq<string>, raws: seq<string>)
    requires Proper(parts) && forall i | 0 <= i < |raws| :: ',' !in raws[i]
    ensures Proper(AddAll(parts, raws))
  {
    if raws != [] {
      var n := |raws| - 1;
      hide Proper, AddPart;
      AddAllProper(parts, raws[..n]);
      AddPartProper(AddAll(parts, raws[..n]), raws[n]);
    }
  }

  lemma {:induction false} PartsProper(values: seq<string>)
    ensures Proper(PartsOf(values))
  {
    if values != [] {
      var n := |values| - 1;
      PartsProper(values[..n]);
      SplitClean(values[n], ',');
      AddAllProper(PartsOf(values[..n]), Split(values[n], ','));
    }
  }

  lemma {:induction false} AddingProper(parts: seq<string>, n: nat)
    requires Proper(parts) && n <= |parts|
    ensures AddAll([], parts[..n]) == parts[..n]
  {
    if n > 0 {
      AddingProper(parts, n - 1);
      assert parts[..n][..n - 1] == parts[..n - 1];
    }
  }

  /** Reading back a joined list gives the list. */
  lemma JoinedComesBack(parts: seq<string>)
    requires Proper(parts)
    ensures PartsOf([Join(parts, ',')]) == parts
    ensures Join(parts, ',') == "" <==> parts == []
  {
    var s := Join(parts, ',');
    assert [s][..0] == [];
    if parts == [] {
      assert Split("", ',') == [""] && [""][..0] == [];
      assert AddAll([], [""]) == AddPart(AddAll([], []), "");
    } else {
      SplitJoin(parts, ',');
      AddingProper(parts, |parts|);
      assert parts[..|parts|] == parts;
    }
  }

  /* ---- Reading ---- */

  function Get(q: Query, p: Param): string { if p in q && q[p] != [] then q[p][0] else "" }

  function List(q: Query, p: Param): string { if p in q then Join(PartsOf(q[p]), ',') else "" }

  function Lower(c: char): char { if 'A' <= c <= 'Z' then ((c as int) + 32) as char else c }

  /** `strings.EqualFold` with "true": no other letters fold to these four. */
  predicate FoldsToTrue(s: string) {
    |s| == 4 && Lower(s[0]) == 't' && Lower(s[1]) == 'r' && Lower(s[2]) == 'u' && Lower(s[3]) == 'e'
  }

  function KnownGroup(s: string): string { if s == "group" || s == "private" then s else "" }

  function KnownSort(s: string): string { if IsSort(s) then s else NEWEST }

  function PageOf(s: string): int { if Atoi(s).Some? && Atoi(s).value > 0 then Atoi(s).value else 1 }

  function PageSizeOf(s: string): int { if Atoi(s).Some? && IsPageSize(Atoi(s).value) then Atoi(s).value else 50 }

  /** What the query says, before the checks. */
  function Read(q: Query): Filter {
    Filter(TrimSpace(Get(q, Q)), List(q, Sender), List(q, System), List(q, Site), List(q, Receiver), List(q, Talkgroup),
      List(q, Radio), List(q, CallType), KnownGroup(TrimSpace(Get(q, Group))), TrimSpace(Get(q, Frequency)),
      TrimSpace(Get(q, MinDuration)), TrimSpace(Get(q, MaxDuration)), Get(q, Date), Get(q, From), Get(q, To),
      TrimSpace(Get(q, Favourite)), KnownSort(TrimSpace(Get(q, Sort))), Get(q, SmartSort) == "1",
      Get(q, Patched) == "1" || FoldsToTrue(Get(q, Patched)), PageOf(Get(q, Page)), PageSizeOf(Get(q, PageSize)))
  }

  function Check(f: Filter, ok: Validators): Parsed {
    if f.date != "" && !ok.day(f.date) then Refused(BadDate)
    else if f.from != "" && !ok.clock(f.from) then Refused(BadClock(From))
    else if f.to != "" && !ok.clock(f.to) then Refused(BadClock(To))
    else if (f.minDuration != "" && !ok.seconds(f.minDuration)) || (f.maxDuration != "" && !ok.seconds(f.maxDuration))
      then Refused(BadDuration)
    else Accepted(f)
  }

  function Parse(q: Query, ok: Validators): Parsed { Check(Read(q), ok) }

  /** The checks, in order. */
  method Problem(f: Filter, ok: Validators) returns (error: Option<QueryError>)
    ensures Check(f, ok) == if error.Some? then Refused(error.value) else Accepted(f)
  {
    if f.date != "" && !ok.day(f.date) { return Some(BadDate); }
    for i := 0 to 2
      invariant i >= 1 ==> f.from == "" || ok.clock(f.from)
      invariant i == 2 ==> f.to == "" || ok.clock(f.to)
    {
      var param, value := [From, To][i], [f.from, f.to][i];
      if value != "" && !ok.clock(value) { return Some(BadClock(param)); }
    }
    for i := 0 to 2
      invariant i >= 1 ==> f.minDuration == "" || ok.seconds(f.minDuration)
      invariant i == 2 ==> f.maxDuration == "" || ok.seconds(f.maxDuration)
    {
      var value := [f.minDuration, f.maxDuration][i];
      if value != "" && !ok.seconds(value) { return Some(BadDuration); }
    }
    error := None;
  }

  lemma PlainFields(q: Query)
    ensures var f := Read(q);
      && f.q == TrimSpace(Get(q, Q)) && f.sender == List(q, Sender) && f.system == List(q, System)
        && f.site == List(q, Site)
      && f.receiver == List(q, Receiver) && f.talkgroup == List(q, Talkgroup) && f.radio == List(q, Radio)
      && f.callType == List(q, CallType) && f.frequency == TrimSpace(Get(q, Frequency))
      && f.minDuration == TrimSpace(Get(q, MinDuration)) && f.maxDuration == TrimSpace(Get(q, MaxDuration))
      && f.date == Get(q, Date) && f.from == Get(q, From) && f.to == Get(q, To)
        && f.favourite == TrimSpace(Get(q, Favourite))
      && f.smartSort == (Get(q, SmartSort) == "1")
        && f.patched == (Get(q, Patched) == "1" || FoldsToTrue(Get(q, Patched)))
  {
    hide TrimSpace, Get, List, FoldsToTrue, KnownGroup, KnownSort, PageOf, PageSizeOf;
  }

  lemma CheckedFields(q: Query)
    ensures var g, s, f := TrimSpace(Get(q, Group)), TrimSpace(Get(q, Sort)), Read(q);
      && f.group == (if g != "" && g != "group" && g != "private" then "" else g)
      && f.sort == (if !IsSort(s) then NEWEST else s)
      && f.page == PageOf(Get(q, Page)) && f.pageSize == PageSizeOf(Get(q, PageSize))
  {
    hide TrimSpace, Get, List, FoldsToTrue, PageOf, PageSizeOf, IsSort;
  }

  lemma CheckIgnoresPages(f: Filter, ok: Validators, page: int, pageSize: int)
    ensures Check(f.(page := page, pageSize := pageSize), ok)
      == if Check(f, ok).Refused? then Check(f, ok) else Accepted(f.(page := page, pageSize := pageSize))
  {
  }

  /** `filterFromQuery`. */
  method FilterFromQuery(q: Query, ok: Validators) returns (parsed: Parsed)
    ensures parsed == Parse(q, ok)
  {
    hide Get, List, TrimSpace, Atoi, FoldsToTrue, IsSort, IsPageSize, Read, Check;
    PlainFields(q);
    CheckedFields(q);
    var sender := MultiOf(q, Sender);
    var system := MultiOf(q, System);
    var site := MultiOf(q, Site);
    var receiver := MultiOf(q, Receiver);
    var talkgroup := MultiOf(q, Talkgroup);
    var radio := MultiOf(q, Radio);
    var callType := MultiOf(q, CallType);
    var f := Filter(TrimSpace(Get(q, Q)), sender, system, site, receiver, talkgroup, radio, callType,
      TrimSpace(Get(q, Group)), TrimSpace(Get(q, Frequency)), TrimSpace(Get(q, MinDuration)),
      TrimSpace(Get(q, MaxDuration)),
      Get(q, Date), Get(q, From), Get(q, To), TrimSpace(Get(q, Favourite)), TrimSpace(Get(q, Sort)),
      Get(q, SmartSort) == "1", Get(q, Patched) == "1" || FoldsToTrue(Get(q, Patched)), 1, 50);
    if f.group != "" && f.group != "group" && f.group != "private" { f := f.(group := ""); }
    if !IsSort(f.sort) { f := f.(sort := NEWEST); }
    var error := Problem(f, ok);
    CheckIgnoresPages(f, ok, PageOf(Get(q, Page)), PageSizeOf(Get(q, PageSize)));
    assert f.(page := PageOf(Get(q, Page)), pageSize := PageSizeOf(Get(q, PageSize))) == Read(q);
    if error.Some? { return Refused(error.value); }
    var page, pageSize := Atoi(Get(q, Page)), Atoi(Get(q, PageSize));
    if page.Some? && page.value > 0 { f := f.(page := page.value); }
    if pageSize.Some? && IsPageSize(pageSize.value) { f := f.(pageSize := pageSize.value); }
    parsed := Accepted(f);
  }

  method MultiOf(q: Query, p: Param) returns (joined: string)
    ensures joined == List(q, p)
  {
    joined := Multi(if p in q then q[p] else []);
  }

  /* ---- Writing ---- */

  /** What the link says for a parameter; empty for nothing. */
  function Written(f: Filter, drop: Option<Param>, page: int, p: Param): string {
    match p
    case PageSize => if f.pageSize == 50 then "" else SignedItoa(f.pageSize)
    case Page => if page > 1 then SignedItoa(page) else ""
    case _ => if drop == Some(p) then "" else ValueOf(f, p)
  }

  function ValueOf(f: Filter, p: Param): string {
    match p
    case Q => f.q
    case Sender => f.sender
    case System => f.system
    case Site => f.site
    case Receiver => f.receiver
    case Talkgroup => f.talkgroup
    case Radio => f.radio
    case CallType => f.callType
    case Group => f.group
    case Frequency => f.frequency
    case MinDuration => f.minDuration
    case MaxDuration => f.maxDuration
    case Date => f.date
    case From => f.from
    case To => f.to
    case Favourite => f.favourite
    case Patched => if f.patched then "1" else ""
    case Sort => if f.sort == NEWEST then "" else f.sort
    case SmartSort => if f.smartSort then "1" else ""
    case PageSize => ""
    case Page => ""
  }

  /** The link holds exactly the parameters with something to say, once each. */
  ghost predicate Prints(v: Query, f: Filter, drop: Option<Param>, page: int) {
    forall p: Param :: Saying(v, f, drop, page, p)
  }

  /** Whether the link mentions a parameter: when there is something to say. */
  predicate Says(f: Filter, drop: Option<Param>, page: int, p: Param) {
    Written(f, drop, page, p) != "" || (p == Sort && f.sort == "" && drop != Some(Sort))
  }

  ghost predicate Saying(v: Query, f: Filter, drop: Option<Param>, page: int, p: Param) {
    (p in v <==> Says(f, drop, page, p)) && (p in v ==> v[p] == [Written(f, drop, page, p)])
  }

  /** The order in which the link is written. */
  function Rank(p: Param): nat {
    match p
    case Q => 0
    case Sender => 1
    case System => 2
    case Site => 3
    case Receiver => 4
    case Talkgroup => 5
    case Radio => 6
    case CallType => 7
    case Group => 8
    case Frequency => 9
    case MinDuration => 10
    case MaxDuration => 11
    case Patched => 12
    case Date => 13
    case From => 14
    case To => 15
    case Favourite => 16
    case Sort => 17
    case SmartSort => 18
    case PageSize => 19
    case Page => 20
  }

  ghost predicate PrintedSoFar(v: Query, f: Filter, drop: Option<Param>, page: int, n: nat) {
    forall p: Param :: if Rank(p) < n then Saying(v, f, drop, page, p) else p !in v
  }

  method Put(v: Query, p: Param, said: bool, value: string, ghost drop: Option<Param>, ghost f: Filter, ghost page: int)
    returns (v': Query)
    requires PrintedSoFar(v, f, drop, page, Rank(p))
    requires said <==> Says(f, drop, page, p)
    requires said ==> value == Written(f, drop, page, p)
    ensures PrintedSoFar(v', f, drop, page, Rank(p) + 1)
  {
    hide Says, Written;
    v' := if said then v[p := [value]] else v;
  }

  /** The `set` closure. */
  method Set(v: Query, p: Param, value: string, drop: Option<Param>, ghost f: Filter, ghost page: int)
    returns (v': Query)
    requires PrintedSoFar(v, f, drop, page, Rank(p))
    requires value == ValueOf(f, p) && p != Sort && p != PageSize && p != Page
    ensures PrintedSoFar(v', f, drop, page, Rank(p) + 1)
  {
    hide PrintedSoFar, Rank, ValueOf;
    v' := Put(v, p, value != "" && Some(p) != drop, value, drop, f, page);
  }

  /** The values of `callsURL`. */
  method LinkValues(f: Filter, drop: Option<Param>, page: int) returns (v: Query)
    ensures Prints(v, f, drop, page)
  {
    hide *;
    OrderOfParams();
    TextsOf(f);
    OthersOf(f, drop, page);
    v := map[];
    NothingPrinted(f, drop, page);
    v := Set(v, Q, f.q, drop, f, page);
    v := Set(v, Sender, f.sender, drop, f, page);
    v := Set(v, System, f.system, drop, f, page);
    v := Set(v, Site, f.site, drop, f, page);
    v := Set(v, Receiver, f.receiver, drop, f, page);
    v := Set(v, Talkgroup, f.talkgroup, drop, f, page);
    v := Set(v, Radio, f.radio, drop, f, page);
    v := Set(v, CallType, f.callType, drop, f, page);
    v := Set(v, Group, f.group, drop, f, page);
    v := Set(v, Frequency, f.frequency, drop, f, page);
    v := Set(v, MinDuration, f.minDuration, drop, f, page);
    v := Set(v, MaxDuration, f.maxDuration, drop, f, page);
    v := Put(v, Patched, f.patched && drop != Some(Patched), "1", drop, f, page);
    v := Set(v, Date, f.date, drop, f, page);
    v := Set(v, From, f.from, drop, f, page);
    v := Set(v, To, f.to, drop, f, page);
    v := Set(v, Favourite, f.favourite, drop, f, page);
    v := Put(v, Sort, f.sort != NEWEST && drop != Some(Sort), f.sort, drop, f, page);
    v := Put(v, SmartSort, f.smartSort && drop != Some(SmartSort), "1", drop, f, page);
    v := Put(v, PageSize, f.pageSize != 50, SignedItoa(f.pageSize), drop, f, page);
    v := Put(v, Page, page > 1, SignedItoa(page), drop, f, page);
    AllPrinted(v, f, drop, page);
  }

  lemma OrderOfParams()
    ensures Rank(Q) == 0 && Rank(Sender) == 1 && Rank(System) == 2 && Rank(Site) == 3 && Rank(Receiver) == 4
    ensures Rank(Talkgroup) == 5 && Rank(Radio) == 6 && Rank(CallType) == 7 && Rank(Group) == 8 && Rank(Frequency) == 9
    ensures Rank(MinDuration) == 10 && Rank(MaxDuration) == 11 && Rank(Patched) == 12 && Rank(Date) == 13
    ensures Rank(From) == 14
    ensures Rank(To) == 15 && Rank(Favourite) == 16 && Rank(Sort) == 17 && Rank(SmartSort) == 18 && Rank(PageSize) == 19
    ensures Rank(Page) == 20
  {
  }

  lemma TextsOf(f: Filter)
    ensures ValueOf(f, Q) == f.q && ValueOf(f, Sender) == f.sender && ValueOf(f, System) == f.system
    ensures ValueOf(f, Site) == f.site && ValueOf(f, Receiver) == f.receiver && ValueOf(f, Talkgroup) == f.talkgroup
    ensures ValueOf(f, Radio) == f.radio && ValueOf(f, CallType) == f.callType && ValueOf(f, Group) == f.group
    ensures ValueOf(f, Frequency) == f.frequency && ValueOf(f, MinDuration) == f.minDuration
    ensures ValueOf(f, MaxDuration) == f.maxDuration && ValueOf(f, Date) == f.date && ValueOf(f, From) == f.from
    ensures ValueOf(f, To) == f.to && ValueOf(f, Favourite) == f.favourite
  {
  }

  lemma OthersOf(f: Filter, drop: Option<Param>, page: int)
    ensures Says(f, drop, page, Patched) <==> f.patched && drop != Some(Patched)
    ensures Says(f, drop, page, Patched) ==> Written(f, drop, page, Patched) == "1"
    ensures Says(f, drop, page, Sort) <==> f.sort != NEWEST && drop != Some(Sort)
    ensures Says(f, drop, page, Sort) ==> Written(f, drop, page, Sort) == f.sort
    ensures Says(f, drop, page, SmartSort) <==> f.smartSort && drop != Some(SmartSort)
    ensures Says(f, drop, page, SmartSort) ==> Written(f, drop, page, SmartSort) == "1"
    ensures Says(f, drop, page, PageSize) <==> f.pageSize != 50
    ensures Says(f, drop, page, PageSize) ==> Written(f, drop, page, PageSize) == SignedItoa(f.pageSize)
    ensures Says(f, drop, page, Page) <==> page > 1
    ensures Says(f, drop, page, Page) ==> Written(f, drop, page, Page) == SignedItoa(page)
  {
  }

  lemma NothingPrinted(f: Filter, drop: Option<Param>, page: int)
    ensures PrintedSoFar(map[], f, drop, page, 0)
  {
  }

  lemma AllPrinted(v: Query, f: Filter, drop: Option<Param>, page: int)
    requires PrintedSoFar(v, f, drop, page, 21)
    ensures Prints(v, f, drop, page)
  {
    hide Written, Saying;
    forall p: Param ensures Saying(v, f, drop, page, p) { assert Rank(p) < 21; }
  }

  /* ---- The round trip ---- */

  ghost predicate IsList(s: string) { exists parts :: Proper(parts) && Join(parts, ',') == s }

  /** What every accepted filter looks like. */
  ghost predicate Canonical(f: Filter) {
    && Trimmed(f.q) && Trimmed(f.frequency) && Trimmed(f.minDuration) && Trimmed(f.maxDuration) && Trimmed(f.favourite)
    && IsList(f.sender) && IsList(f.system) && IsList(f.site) && IsList(f.receiver) && IsList(f.talkgroup)
      && IsList(f.radio)
    && IsList(f.callType) && f.group in {"", "group", "private"} && (IsSort(f.sort) || f.sort == NEWEST)
    && f.page >= 1 && IsPageSize(f.pageSize)
  }

  function Kept(text: string, p: Param, drop: Option<Param>): string { if drop == Some(p) then "" else text }

  /** The filter without what one parameter says, each field but that one as it was. */
  function Without(f: Filter, drop: Option<Param>): Filter {
    Filter(Kept(f.q, Q, drop), Kept(f.sender, Sender, drop), Kept(f.system, System, drop), Kept(f.site, Site, drop),
      Kept(f.receiver, Receiver, drop), Kept(f.talkgroup, Talkgroup, drop), Kept(f.radio, Radio, drop),
      Kept(f.callType, CallType, drop), Kept(f.group, Group, drop), Kept(f.frequency, Frequency, drop),
      Kept(f.minDuration, MinDuration, drop), Kept(f.maxDuration, MaxDuration, drop), Kept(f.date, Date, drop),
      Kept(f.from, From, drop), Kept(f.to, To, drop), Kept(f.favourite, Favourite, drop),
      if drop == Some(Sort) then NEWEST else f.sort,
      drop != Some(SmartSort) && f.smartSort, drop != Some(Patched) && f.patched,
      f.page, f.pageSize)
  }

  lemma ListsAreProper(q: Query, p: Param)
    ensures IsList(List(q, p))
  {
    if p in q { PartsProper(q[p]); } else { assert Proper([]) && Join([], ',') == ""; }
  }

  lemma ReadCanonical(q: Query)
    ensures Canonical(Read(q))
  {
    hide List, Get, TrimSpace, Trimmed, IsList, FoldsToTrue, Atoi, Read, IsSort;
    PlainFields(q);
    CheckedFields(q);
    ListsAreProper(q, Sender);
    ListsAreProper(q, System);
    ListsAreProper(q, Site);
    ListsAreProper(q, Receiver);
    ListsAreProper(q, Talkgroup);
    ListsAreProper(q, Radio);
    ListsAreProper(q, CallType);
  }

  /** Every accepted filter has the one form that links are written from, and passes the checks again. */
  lemma AcceptedIsCanonical(q: Query, ok: Validators)
    requires Parse(q, ok).Accepted?
    ensures Canonical(Parse(q, ok).filter) && Check(Parse(q, ok).filter, ok) == Parse(q, ok)
  {
    hide Read, Canonical;
    ReadCanonical(q);
  }

  lemma GetPrinted(v: Query, f: Filter, drop: Option<Param>, page: int, p: Param)
    requires Prints(v, f, drop, page)
    ensures Get(v, p) == Written(f, drop, page, p)
  {
    hide Written;
    assert Saying(v, f, drop, page, p);
  }

  lemma ListPrinted(v: Query, f: Filter, drop: Option<Param>, page: int, p: Param)
    requires Prints(v, f, drop, page) && IsList(Written(f, drop, page, p))
    ensures List(v, p) == Written(f, drop, page, p)
  {
    var w := Written(f, drop, page, p);
    var parts :| Proper(parts) && Join(parts, ',') == w;
    JoinedComesBack(parts);
    hide Written, PartsOf, Join;
    assert Saying(v, f, drop, page, p);
  }

  /** What the link says is what the filter without the dropped parameter says. */
  lemma WrittenOfRest(f: Filter, drop: Option<Param>, page: int, p: Param)
    requires p != PageSize && p != Page
    ensures Written(f, drop, page, p) == ValueOf(Without(f, drop), p)
  {
  }

  lemma ResetCanonical(f: Filter, drop: Option<Param>)
    requires Canonical(f)
    ensures Canonical(Without(f, drop))
  {
    hide IsSort, IsPageSize;
    assert IsList("") by { assert Proper([]) && Join([], ',') == ""; }
    hide IsList;
  }

  lemma ResetAccepted(f: Filter, drop: Option<Param>, ok: Validators)
    requires Check(f, ok).Accepted?
    ensures Check(Without(f, drop), ok).Accepted?
  {
  }

  lemma ListFieldsComeBack(v: Query, f: Filter, drop: Option<Param>, page: int, p: Param)
    requires Prints(v, f, drop, page) && p != PageSize && p != Page && IsList(ValueOf(Without(f, drop), p))
    ensures List(v, p) == ValueOf(Without(f, drop), p)
  {
    WrittenOfRest(f, drop, page, p);
    ListPrinted(v, f, drop, page, p);
  }

  lemma TextFieldsComeBack(v: Query, f: Filter, drop: Option<Param>, page: int, p: Param)
    requires Prints(v, f, drop, page) && p != PageSize && p != Page
    ensures Get(v, p) == ValueOf(Without(f, drop), p)
    ensures Trimmed(ValueOf(Without(f, drop), p)) ==> TrimSpace(Get(v, p)) == ValueOf(Without(f, drop), p)
  {
    WrittenOfRest(f, drop, page, p);
    GetPrinted(v, f, drop, page, p);
  }

  lemma SortComesBack(v: Query, f: Filter, drop: Option<Param>, page: int)
    requires Prints(v, f, drop, page) && Canonical(f)
    ensures KnownSort(TrimSpace(Get(v, Sort))) == Without(f, drop).sort
  {
    ResetCanonical(f, drop);
    TextFieldsComeBack(v, f, drop, page, Sort);
    var t := Without(f, drop);
    assert ValueOf(t, Sort) == if t.sort == NEWEST then "" else t.sort;
    if IsSort(t.sort) { SortNames(t.sort); }
  }

  lemma SortNames(s: string)
    requires IsSort(s)
    ensures Trimmed(s) && s != NEWEST
  {
  }

  lemma GroupComesBack(v: Query, f: Filter, drop: Option<Param>, page: int)
    requires Prints(v, f, drop, page) && Canonical(f)
    ensures KnownGroup(TrimSpace(Get(v, Group))) == Without(f, drop).group
  {
    ResetCanonical(f, drop);
    TextFieldsComeBack(v, f, drop, page, Group);
    var t := Without(f, drop);
    assert ValueOf(t, Group) == t.group;
  }

  lemma PagesComeBack(v: Query, f: Filter, drop: Option<Param>, page: int)
    requires Prints(v, f, drop, page) && IsPageSize(f.pageSize) && page <= MAX_INT
    ensures PageOf(Get(v, Page)) == if page > 1 then page else 1
    ensures PageSizeOf(Get(v, PageSize)) == f.pageSize
  {
    hide Get, Prints, Atoi, Itoa;
    GetPrinted(v, f, drop, page, Page);
    GetPrinted(v, f, drop, page, PageSize);
    WrittenPages(f, drop, page);
    NothingIsNoNumber();
    AtoiItoa(f.pageSize);
    if page > 1 { AtoiItoa(page); }
    hide Written;
  }

  lemma NothingIsNoNumber()
    ensures Atoi("").None?
  {
  }

  lemma WrittenPages(f: Filter, drop: Option<Param>, page: int)
    ensures Written(f, drop, page, PageSize) == if f.pageSize == 50 then "" else SignedItoa(f.pageSize)
    ensures Written(f, drop, page, Page) == if page > 1 then SignedItoa(page) else ""
  {
  }

  lemma FlagsComeBack(v: Query, f: Filter, drop: Option<Param>, page: int)
    requires Prints(v, f, drop, page)
    ensures (Get(v, SmartSort) == "1") == Without(f, drop).smartSort
    ensures (Get(v, Patched) == "1" || FoldsToTrue(Get(v, Patched))) == Without(f, drop).patched
  {
    TextFieldsComeBack(v, f, drop, page, SmartSort);
    TextFieldsComeBack(v, f, drop, page, Patched);
    var t := Without(f, drop);
    hide Without, Get, Prints;
    assert ValueOf(t, SmartSort) == if t.smartSort then "1" else "";
    assert ValueOf(t, Patched) == if t.patched then "1" else "";
  }

  lemma ReadsTheRest(v: Query, f: Filter, drop: Option<Param>, page: int)
    requires Prints(v, f, drop, page) && Canonical(f) && page <= MAX_INT
    ensures Read(v) == Without(f, drop).(page := if page > 1 then page else 1)
  {
    hide *;
    var t := Without(f, drop);
    ResetCanonical(f, drop);
    CanonicalParts(t);
    TextsOf(t);
    PlainFields(v);
    KnownFields(v);
    ListFieldsComeBack(v, f, drop, page, Sender);
    ListFieldsComeBack(v, f, drop, page, System);
    ListFieldsComeBack(v, f, drop, page, Site);
    ListFieldsComeBack(v, f, drop, page, Receiver);
    ListFieldsComeBack(v, f, drop, page, Talkgroup);
    ListFieldsComeBack(v, f, drop, page, Radio);
    ListFieldsComeBack(v, f, drop, page, CallType);
    TextFieldsComeBack(v, f, drop, page, Q);
    TextFieldsComeBack(v, f, drop, page, Frequency);
    TextFieldsComeBack(v, f, drop, page, MinDuration);
    TextFieldsComeBack(v, f, drop, page, MaxDuration);
    TextFieldsComeBack(v, f, drop, page, Date);
    TextFieldsComeBack(v, f, drop, page, From);
    TextFieldsComeBack(v, f, drop, page, To);
    TextFieldsComeBack(v, f, drop, page, Favourite);
    GroupComesBack(v, f, drop, page);
    SortComesBack(v, f, drop, page);
    FlagsComeBack(v, f, drop, page);
    SamePageSize(f, drop);
    PagesComeBack(v, f, drop, page);
  }

  lemma SamePageSize(f: Filter, drop: Option<Param>)
    requires Canonical(f)
    ensures Without(f, drop).pageSize == f.pageSize && IsPageSize(f.pageSize)
  {
  }

  lemma CanonicalParts(f: Filter)
    requires Canonical(f)
    ensures Trimmed(f.q) && Trimmed(f.frequency) && Trimmed(f.minDuration) && Trimmed(f.maxDuration)
    ensures Trimmed(f.favourite)
    ensures IsList(f.sender) && IsList(f.system) && IsList(f.site) && IsList(f.receiver) && IsList(f.talkgroup)
    ensures IsList(f.radio) && IsList(f.callType)
  {
  }

  lemma KnownFields(q: Query)
    ensures var f := Read(q);
      && f.group == KnownGroup(TrimSpace(Get(q, Group))) && f.sort == KnownSort(TrimSpace(Get(q, Sort)))
      && f.page == PageOf(Get(q, Page)) && f.pageSize == PageSizeOf(Get(q, PageSize))
  {
    hide TrimSpace, Get, List, FoldsToTrue, KnownGroup, KnownSort, PageOf, PageSizeOf;
  }

  /** For every accepted query: reading the link written for its filter and a page gives that filter and page, and a
      link that drops a parameter resets exactly what that parameter says. */
  lemma LinkRoundTrip(query: Query, v: Query, drop: Option<Param>, page: int, ok: Validators)
    requires Parse(query, ok).Accepted? && page <= MAX_INT
    requires Prints(v, Parse(query, ok).filter, drop, page)
    ensures Parse(v, ok) == Accepted(Without(Parse(query, ok).filter, drop).(page := if page > 1 then page else 1))
  {
    hide Read, Prints, Without, Canonical;
    var f := Parse(query, ok).filter;
    AcceptedIsCanonical(query, ok);
    ReadsTheRest(v, f, drop, page);
    ResetAccepted(f, drop, ok);
    var t := Without(f, drop);
    CheckIgnoresPages(t, ok, if page > 1 then page else 1, t.pageSize);
    assert t.(page := if page > 1 then page else 1) == t.(page := if page > 1 then page else 1, pageSize := t.pageSize);
  }
}
