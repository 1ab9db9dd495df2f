/** ID3v2.3 tags as the scanner writes them (sections 3.1 and 3.3 of the ID3v2.3.0 informal standard). */
module Id3 {
  import opened Basics
  import opened Text

  /** A byte is a character below 256. */
  type Bytes = string

  const NUL := '\0'

  datatype Field = Field(key: Bytes, value: Bytes)

  datatype TagError = MissingHeader | UnsupportedVersion | InvalidSize

  datatype Tag = Tag(frames: map<Bytes, Bytes>, custom: map<Bytes, Bytes>, end: nat) | BadTag(error: TagError)

  const HEADER_SIZE := 10
  const MARK := "Scanner:"

  /* ---- Numbers ---- */

  /** `syncSafeInt`: 28 bits, seven from each byte. */
  function SyncSafe(b: Bytes): int {
    if |b| != 4 then 0
    else b[0] as int % 128 * 0x20_0000 + b[1] as int % 128 * 0x4000 + b[2] as int % 128 * 0x80 + b[3] as int % 128
  }

  function SyncSafeBytes(n: nat): Bytes {
    [(n / 0x20_0000 % 128) as char, (n / 0x4000 % 128) as char, (n / 0x80 % 128) as char, (n % 128) as char]
  }

  function BigEndian(b: Bytes): int
    requires |b| == 4
  {
    b[0] as int * 0x100_0000 + b[1] as int * 0x1_0000 + b[2] as int * 0x100 + b[3] as int
  }

  function BigEndianBytes(n: nat): Bytes {
    [(n / 0x100_0000 % 256) as char, (n / 0x1_0000 % 256) as char, (n / 0x100 % 256) as char, (n % 256) as char]
  }

  lemma SyncSafeRoundTrip(n: nat)
    requires n < 0x1000_0000
    ensures SyncSafe(SyncSafeBytes(n)) == n
  {
    var a, b, c := n / 0x80, n / 0x4000, n / 0x20_0000;
    assert n == a * 0x80 + n % 0x80;
    assert b == a / 0x80 && c == b / 0x80;
    assert c % 0x80 == c;
  }

  lemma BigEndianRoundTrip(n: nat)
    requires n < 0x1_0000_0000
    ensures BigEndian(BigEndianBytes(n)) == n
  {
    var a, b, c := n / 0x100, n / 0x1_0000, n / 0x100_0000;
    assert n == a * 0x100 + n % 0x100;
    assert b == a / 0x100 && c == b / 0x100;
    assert c % 0x100 == c;
  }

  /** The first byte weighs most: eight bits to a byte in a frame's size, seven in the tag's. */
  lemma FirstByteWeighsMost(a: char, b: char, c: char, d: char)
    ensures BigEndian([a, b, c, d]) == ((a as int * 256 + b as int) * 256 + c as int) * 256 + d as int
    ensures a as int < 128 && b as int < 128 && c as int < 128 && d as int < 128 ==>
      SyncSafe([a, b, c, d]) == ((a as int * 128 + b as int) * 128 + c as int) * 128 + d as int
  {
  }

  /* ---- Text frames ---- */

  /** `standardFrameID`. */
  predicate StandardId(id: Bytes) {
    |id| == 4 && forall i | 0 <= i < 4 :: 'A' <= id[i] <= 'Z' || '0' <= id[i] <= '9'
  }

  function TrimNuls(s: Bytes): (t: Bytes)
    ensures t == "" || t[|t| - 1] != NUL
  {
    if s != "" && s[|s| - 1] == NUL then TrimNuls(s[..|s| - 1]) else s
  }

  /** `decodeID3Text`: the encoding byte is dropped, and every encoding is read alike. */
  function DecodeText(payload: Bytes): Bytes {
    if payload == "" then "" else TrimNuls(payload[1..])
  }

  /** Whether a frame starts at `position` and lies inside the tag. */
  predicate FrameAt(tag: Bytes, position: nat)
    requires position + HEADER_SIZE <= |tag|
  {
    && StandardId(tag[position..position + 4])
    && 0 < BigEndian(tag[position + 4..position + 8]) <= |tag| - position - HEADER_SIZE
  }

  /** The frames from `position` on, over those read so far. */
  function FramesFrom(tag: Bytes, position: nat, frames: map<Bytes, Bytes>): map<Bytes, Bytes>
    decreases |tag| - position
  {
    if position + HEADER_SIZE > |tag| || !FrameAt(tag, position) then frames
    else
      var id, end := tag[position..position + 4], position + HEADER_SIZE + BigEndian(tag[position + 4..position + 8]);
      FramesFrom(tag, end,
        if id[0] == 'T' then frames[id := DecodeText(tag[position + HEADER_SIZE..end])] else frames)
  }

  /* ---- The scanner's own block ---- */

  predicate OccursAt(s: Bytes, pattern: Bytes, i: nat) { i + |pattern| <= |s| && s[i..i + |pattern|] == pattern }

  predicate Occurs(s: Bytes, pattern: Bytes) { exists i | 0 <= i <= |s| :: OccursAt(s, pattern, i) }

  /** `bytes.Index`: the first occurrence, or -1. */
  function Index(s: Bytes, pattern: Bytes, from: nat): (i: int)
    requires from <= |s|
    ensures i == -1 || (from <= i <= |s| && OccursAt(s, pattern, i))
    ensures forall k | from <= k <= |s| && (i == -1 || k < i) :: !OccursAt(s, pattern, k)
    decreases |s| - from
  {
    if OccursAt(s, pattern, from) then from else if from == |s| then -1 else Index(s, pattern, from + 1)
  }

  /** `strings.Cut` at the first colon. */
  function Cut(part: Bytes): Option<Field> {
    if part == "" then None
    else if part[0] == ':' then Some(Field("", part[1..]))
    else
      var rest := Cut(part[1..]);
      if rest.None? then None else Some(Field([part[0]] + rest.value.key, rest.value.value))
  }

  function AddPart(custom: map<Bytes, Bytes>, part: Bytes, trim: Bytes -> Bytes): map<Bytes, Bytes> {
    var cut := Cut(part);
    if cut.Some? && cut.value.key != "" then custom[trim(cut.value.key) := trim(cut.value.value)] else custom
  }

  function AddParts(custom: map<Bytes, Bytes>, parts: seq<Bytes>, trim: Bytes -> Bytes): map<Bytes, Bytes> {
    if parts == [] then custom else AddPart(AddParts(custom, parts[..|parts| - 1], trim), parts[|parts| - 1], trim)
  }

  function CustomOf(tag: Bytes, trim: Bytes -> Bytes): map<Bytes, Bytes>
    requires |tag| >= HEADER_SIZE
  {
    var start := Index(tag[HEADER_SIZE..], MARK, 0);
    if start < 0 then map[] else AddParts(map[], Split(tag[HEADER_SIZE + start..], NUL), trim)
  }

  /* ---- The parser ---- */

  function TagEnd(audio: Bytes): int
    requires |audio| >= HEADER_SIZE
  {
    HEADER_SIZE + SyncSafe(audio[6..10])
  }

  function Parse(audio: Bytes, trim: Bytes -> Bytes): Tag {
    if |audio| < HEADER_SIZE || audio[..3] != "ID3" then BadTag(MissingHeader)
    else if audio[3] as int != 3 then BadTag(UnsupportedVersion)
    else if !(HEADER_SIZE < TagEnd(audio) <= |audio|) then BadTag(InvalidSize)
    else
      var tag := audio[..TagEnd(audio)];
      Tag(FramesFrom(tag, HEADER_SIZE, map[]), CustomOf(tag, trim), TagEnd(audio))
  }

  /** `parseID3`; `trim` is `strings.TrimSpace` on bytes. */
  method ParseId3(audio: Bytes, trim: Bytes -> Bytes) returns (result: Tag)
    ensures result == Parse(audio, trim)
  {
    if |audio| < HEADER_SIZE || audio[..3] != "ID3" { return BadTag(MissingHeader); }
    if audio[3] as int != 3 { return BadTag(UnsupportedVersion); }
    var tagSize := SyncSafe(audio[6..10]);
    var tagEnd := HEADER_SIZE + tagSize;
    if tagEnd > |audio| || tagSize <= 0 { return BadTag(InvalidSize); }
    var frames := ReadFrames(audio, tagEnd);
    var custom := map[];
    var start := Index(audio[HEADER_SIZE..tagEnd], MARK, 0);
    assert audio[..tagEnd][HEADER_SIZE..] == audio[HEADER_SIZE..tagEnd];
    if start >= 0 {
      var parts := Split(audio[HEADER_SIZE + start..tagEnd], NUL);
      assert audio[..tagEnd][HEADER_SIZE + start..] == audio[HEADER_SIZE + start..tagEnd];
      custom := ReadParts(parts, trim);
    }
    result := Tag(frames, custom, tagEnd);
  }

  method ReadFrames(audio: Bytes, tagEnd: nat) returns (frames: map<Bytes, Bytes>)
    requires HEADER_SIZE <= tagEnd <= |audio|
    ensures frames == FramesFrom(audio[..tagEnd], HEADER_SIZE, map[])
  {
    frames := map[];
    ghost var tag := audio[..tagEnd];
    var position := HEADER_SIZE;
    while position + HEADER_SIZE <= tagEnd
      invariant position <= tagEnd
      invariant FramesFrom(tag, HEADER_SIZE, map[]) == FramesFrom(tag, position, frames)
    {
      var id := audio[position..position + 4];
      assert id == tag[position..position + 4];
      if !StandardId(id) { return; }
      var size := BigEndian(audio[position + 4..position + 8]);
      assert audio[position + 4..position + 8] == tag[position + 4..position + 8];
      if size <= 0 || position + HEADER_SIZE + size > tagEnd { return; }
      var payload := audio[position + HEADER_SIZE..position + HEADER_SIZE + size];
      assert payload == tag[position + HEADER_SIZE..position + HEADER_SIZE + size];
      if id[0] == 'T' { frames := frames[id := DecodeText(payload)]; }
      position := position + HEADER_SIZE + size;
    }
  }

  method ReadParts(parts: seq<Bytes>, trim: Bytes -> Bytes) returns (custom: map<Bytes, Bytes>)
    ensures custom == AddParts(map[], parts, trim)
  {
    custom := map[];
    for i := 0 to |parts|
      invariant custom == AddParts(map[], parts[..i], trim)
    {
      var cut := Cut(parts[i]);
      if cut.Some? && cut.value.key != "" {
        custom := custom[trim(cut.value.key) := trim(cut.value.value)];
      }
      assert parts[..i + 1][..i] == parts[..i];
    }
    assert parts[..|parts|] == parts;
  }

  /** Nothing after the tag is read. */
  lemma OnlyTheTagIsRead(audio: Bytes, other: Bytes, trim: Bytes -> Bytes)
    requires Parse(audio, trim).Tag? && Parse(audio, trim).end <= |other|
    requires audio[..Parse(audio, trim).end] == other[..Parse(audio, trim).end]
    ensures Parse(other, trim) == Parse(audio, trim)
  {
    var end := TagEnd(audio);
    assert audio[..3] == audio[..end][..3] && other[..3] == other[..end][..3];
    assert audio[3] == audio[..end][3] && other[3] == other[..end][3];
    assert audio[6..10] == audio[..end][6..10] && other[6..10] == other[..end][6..10];
  }

  /* ---- The printer ---- */

  /** A frame as a tagger may write it: text in some encoding, ended by any number of NULs, or something else. */
  datatype Frame =
    | Text(id: Bytes, flags: Bytes, encoding: char, value: Bytes, ending: Bytes)
    | Other(id: Bytes, flags: Bytes, body: Bytes)

  /** A part of the scanner's block: a field, or text that is none. */
  datatype Part = Entry(key: Bytes, value: Bytes) | Noise(text: Bytes)

  function Body(f: Frame): Bytes { if f.Text? then [f.encoding] + f.value + f.ending else f.body }

  function PrintFrame(f: Frame): Bytes { f.id + BigEndianBytes(|Body(f)|) + f.flags + Body(f) }

  function PrintFrames(frames: seq<Frame>): Bytes {
    if frames == [] then "" else PrintFrame(frames[0]) + PrintFrames(frames[1..])
  }

  function PrintPart(p: Part): Bytes { if p.Entry? then p.key + ":" + p.value else p.text }

  function PrintParts(parts: seq<Part>): Bytes {
    if parts == [] then "" else PrintPart(parts[0]) + [NUL] + PrintParts(parts[1..])
  }

  /** The header of the block that holds the fields; its size is written the other way round. */
  function BlockHeader(n: nat): Bytes {
    var b := BigEndianBytes(n);
    "pros" + [b[3], b[2], b[1], b[0]] + [NUL, NUL]
  }

  function Payload(frames: seq<Frame>, parts: seq<Part>): Bytes {
    PrintFrames(frames) + BlockHeader(|PrintParts(parts)|) + PrintParts(parts)
  }

  /** `revision` and `flags` are two bytes of the header that mean nothing here. */
  function Print(frames: seq<Frame>, parts: seq<Part>, revision: char, flags: char): Bytes {
    var payload := Payload(frames, parts);
    "ID3" + [3 as char, revision, flags] + SyncSafeBytes(|payload|) + payload
  }

  /** The last text of each text frame. */
  function TextsOf(frames: seq<Frame>): map<Bytes, Bytes> {
    if frames == [] then map[]
    else
      var last := frames[|frames| - 1];
      if last.Text? then TextsOf(frames[..|frames| - 1])[last.id := last.value] else TextsOf(frames[..|frames| - 1])
  }

  /** The last value of each field, both without their surrounding spaces. */
  function FieldsOf(parts: seq<Part>, trim: Bytes -> Bytes): map<Bytes, Bytes> {
    if parts == [] then map[]
    else
      var last := parts[|parts| - 1];
      if last.Entry? then FieldsOf(parts[..|parts| - 1], trim)[trim(last.key) := trim(last.value)]
      else FieldsOf(parts[..|parts| - 1], trim)
  }

  predicate AllNuls(s: Bytes) { forall i | 0 <= i < |s| :: s[i] == NUL }

  /** Four upper-case letters or digits; a text frame, and only a text frame, begins with a T. */
  predicate FramePrintable(f: Frame) {
    && |f.id| == 4 && (forall i | 0 <= i < 4 :: 'A' <= f.id[i] <= 'Z' || '0' <= f.id[i] <= '9') && |f.flags| == 2
    && (f.Text? <==> f.id[0] == 'T')
    && (f.Text? ==> AllNuls(f.ending) && (f.value == "" || f.value[|f.value| - 1] != NUL))
    && (f.Other? ==> f.body != "")
  }

  predicate PartPrintable(p: Part) {
    && NUL !in PrintPart(p)
    && (p.Entry? ==> p.key != "" && ':' !in p.key)
    && (p.Noise? ==> ':' !in p.text || p.text[0] == ':')
  }

  /** The scanner's block begins with its mark, and no mark comes before it. */
  predicate Printable(frames: seq<Frame>, parts: seq<Part>) {
    && (forall i | 0 <= i < |frames| :: FramePrintable(frames[i]))
    && (forall i | 0 <= i < |parts| :: PartPrintable(parts[i]))
    && parts != [] && parts[0].Entry? && parts[0].key == "Scanner"
    && !Occurs(PrintFrames(frames) + BlockHeader(|PrintParts(parts)|)[..9], MARK)
    && |Payload(frames, parts)| < 0x1000_0000
  }

  /* ---- The frames come back ---- */

  lemma {:induction false} TrimEnding(value: Bytes, ending: Bytes)
    requires AllNuls(ending) && (value == "" || value[|value| - 1] != NUL)
    ensures TrimNuls(value + ending) == value
    decreases |ending|
  {
    if ending == "" {
      assert value + ending == value;
    } else {
      var n := |ending| - 1;
      assert (value + ending)[..|value + ending| - 1] == value + ending[..n];
      TrimEnding(value, ending[..n]);
    }
  }

  /** The parts of a printed frame. */
  lemma FrameLayout(here: Bytes, f: Frame, rest: Bytes)
    requires |f.id| == 4 && |f.flags| == 2 && here == PrintFrame(f) + rest
    ensures var n := |Body(f)|;
      && |here| == HEADER_SIZE + n + |rest|
      && here[..4] == f.id && here[4..8] == BigEndianBytes(n)
      && here[HEADER_SIZE..HEADER_SIZE + n] == Body(f) && here[HEADER_SIZE + n..] == rest
  {
    FiveParts(f.id, BigEndianBytes(|Body(f)|), f.flags, Body(f), rest);
    hide Body, BigEndianBytes;
  }

  lemma FiveParts(a: Bytes, b: Bytes, c: Bytes, d: Bytes, e: Bytes)
    requires |a| == 4 && |b| == 4 && |c| == 2
    ensures var s := a + b + c + d + e;
      s[..4] == a && s[4..8] == b && s[10..10 + |d|] == d && s[10 + |d|..] == e
  {
    var s := a + b + c + d + e;
    var front := a + b + c;
    assert |front| == 10 && s == front + (d + e);
    assert s[10..] == d + e && s[10..][..|d|] == d;
    assert s[..8] == a + b;
  }

  lemma BodyDecodes(f: Frame)
    requires FramePrintable(f)
    ensures Body(f) != "" && StandardId(f.id) && (f.Text? ==> DecodeText(Body(f)) == f.value)
  {
    if f.Text? {
      assert Body(f)[1..] == f.value + f.ending;
      TrimEnding(f.value, f.ending);
    }
  }

  function Read(f: Frame, texts: map<Bytes, Bytes>): map<Bytes, Bytes> {
    if f.Text? then texts[f.id := f.value] else texts
  }

  /** One printed frame is read back, and the parser is then at what follows it. */
  lemma OneFrameComesBack(tag: Bytes, position: nat, f: Frame, rest: Bytes, texts: map<Bytes, Bytes>)
    requires FramePrintable(f) && position <= |tag| < 0x1_0000_0000 && tag[position..] == PrintFrame(f) + rest
    ensures var end := position + HEADER_SIZE + |Body(f)|;
      && end <= |tag| && tag[end..] == rest
      && FramesFrom(tag, position, texts) == FramesFrom(tag, end, Read(f, texts))
  {
    hide Occurs, PrintFrame, BigEndian, BigEndianBytes, Body, DecodeText, StandardId;
    var here, n := tag[position..], |Body(f)|;
    FrameLayout(here, f, rest);
    BodyDecodes(f);
    BigEndianRoundTrip(n);
    var end := position + HEADER_SIZE + n;
    assert tag[position..position + 4] == here[..4] && tag[position + 4..position + 8] == here[4..8];
    assert tag[position + HEADER_SIZE..end] == here[HEADER_SIZE..HEADER_SIZE + n];
    assert tag[end..] == here[HEADER_SIZE + n..];
  }

  /** No frame begins here: too little is left, an id holds something else than upper-case letters and digits, or the
      size is zero or larger than what is left. */
  ghost predicate Stops(rest: Bytes) {
    || |rest| < HEADER_SIZE
    || (exists k | 0 <= k < 4 :: !('A' <= rest[k] <= 'Z') && !('0' <= rest[k] <= '9'))
    || (exists n | 0 <= n < 0x1_0000_0000 :: IsSize(rest, n) && (n == 0 || n > |rest| - HEADER_SIZE))
  }

  predicate IsSize(rest: Bytes, n: nat)
    requires |rest| >= HEADER_SIZE
  {
    rest[4..8] == BigEndianBytes(n)
  }

  lemma NoFrame(tag: Bytes, position: nat, texts: map<Bytes, Bytes>)
    requires position <= |tag| && Stops(tag[position..])
    ensures FramesFrom(tag, position, texts) == texts
  {
    var rest := tag[position..];
    if |rest| >= HEADER_SIZE {
      assert tag[position..position + 4] == rest[..4] && tag[position + 4..position + 8] == rest[4..8];
      if k :| 0 <= k < 4 && !('A' <= rest[k] <= 'Z') && !('0' <= rest[k] <= '9') {
        assert rest[..4][k] == rest[k];
      } else {
        var n :| 0 <= n < 0x1_0000_0000 && IsSize(rest, n) && (n == 0 || n > |rest| - HEADER_SIZE);
        BigEndianRoundTrip(n);
      }
    }
  }

  /** The frame loop reads back whatever frames were printed, text or not, and stops where no frame begins. */
  lemma {:induction false} FramesComeBack(tag: Bytes, position: nat, done: seq<Frame>, frames: seq<Frame>, rest: Bytes)
    requires forall i | 0 <= i < |frames| :: FramePrintable(frames[i])
    requires position <= |tag| < 0x1_0000_0000 && tag[position..] == PrintFrames(frames) + rest && Stops(rest)
    ensures FramesFrom(tag, position, TextsOf(done)) == TextsOf(done + frames)
    decreases |frames|
  {
    hide FramePrintable, FramesFrom, Stops, Body, PrintFrame;
    if frames == [] {
      assert done + frames == done && tag[position..] == rest;
      NoFrame(tag, position, TextsOf(done));
    } else {
      var f := frames[0];
      assert tag[position..] == PrintFrame(f) + (PrintFrames(frames[1..]) + rest);
      OneFrameComesBack(tag, position, f, PrintFrames(frames[1..]) + rest, TextsOf(done));
      assert (done + [f])[..|done|] == done && done + [f] + frames[1..] == done + frames;
      FramesComeBack(tag, position + HEADER_SIZE + |Body(f)|, done + [f], frames[1..], rest);
    }
  }

  lemma BlockStops(parts: seq<Part>)
    ensures Stops(BlockHeader(|PrintParts(parts)|) + PrintParts(parts))
  {
    var rest := BlockHeader(|PrintParts(parts)|) + PrintParts(parts);
    assert rest[0] == 'p';
  }

  /* No mark occurs before the block: every byte of a mark is other than NUL. */

  lemma Letters(s: Bytes, i: nat)
    ensures OccursAt(s, MARK, i) <==> i + 8 <= |s| && forall p | i <= p < i + 8 :: s[p] == MARK[p - i]
    ensures OccursAt(s, MARK, i) ==> forall p | i <= p < i + 8 :: s[p] != NUL
  {
    if i + 8 <= |s| && forall p | i <= p < i + 8 :: s[p] == MARK[p - i] {
      assert forall k | 0 <= k < 8 :: s[i..i + 8][k] == s[i + k] == MARK[k];
      assert s[i..i + 8] == MARK;
    } else if i + 8 <= |s| {
      var p :| i <= p < i + 8 && s[p] != MARK[p - i];
      assert s[i..i + 8][p - i] != MARK[p - i];
    }
  }

  /** A mark lies on one side of a NUL. */
  lemma OnOneSide(a: Bytes, b: Bytes, i: nat)
    requires OccursAt(a + [NUL] + b, MARK, i)
    ensures if i > |a| then Occurs(b, MARK) else Occurs(a, MARK)
  {
    hide OccursAt;
    var s := a + [NUL] + b;
    assert s[|a|] == NUL;
    Letters(s, i);
    if i > |a| {
      var j := i - |a| - 1;
      assert forall q | j <= q < j + 8 :: b[q] == s[q + |a| + 1];
      Letters(b, j);
      assert OccursAt(b, MARK, j);
    } else {
      assert i + 8 <= |a|;
      assert forall q | i <= q < i + 8 :: a[q] == s[q];
      Letters(a, i);
      assert OccursAt(a, MARK, i);
    }
  }

  lemma NoMarkAcross(a: Bytes, b: Bytes)
    requires !Occurs(a, MARK) && !Occurs(b, MARK)
    ensures !Occurs(a + [NUL] + b, MARK)
  {
    if Occurs(a + [NUL] + b, MARK) {
      var i :| 0 <= i <= |a + [NUL] + b| && OccursAt(a + [NUL] + b, MARK, i);
      OnOneSide(a, b, i);
    }
  }

  lemma NoMarkInEight(s: Bytes)
    requires |s| == 8 && (s[0] != 'S' || s[1] != 'c')
    ensures !Occurs(s, MARK)
  {
    forall i | 0 <= i <= |s| ensures !OccursAt(s, MARK, i) { Letters(s, i); }
  }

  lemma NoMarkInHeader(n: nat)
    ensures !Occurs(BlockHeader(n)[..9], MARK)
  {
    NoMarkInEight(BlockHeader(n)[..8]);
    assert !Occurs("", MARK);
    NoMarkAcross(BlockHeader(n)[..8], "");
    assert BlockHeader(n)[..9] == BlockHeader(n)[..8] + [NUL] + "";
  }

  /** The parser finds the block where it was written. */
  lemma BlockIsFound(frames: seq<Frame>, parts: seq<Part>)
    requires Printable(frames, parts)
    ensures Index(Payload(frames, parts), MARK, 0) == |PrintFrames(frames)| + HEADER_SIZE
  {
    var printed := PrintParts(parts);
    var header := BlockHeader(|printed|);
    MarkLeads(parts);
    hide OccursAt, Occurs, PrintParts, PrintFrames, Index;
    MarkRightAfter(PrintFrames(frames) + header[..9], printed);
    Regroup(PrintFrames(frames), header, printed);
  }

  lemma Regroup(texts: Bytes, header: Bytes, parts: Bytes)
    requires |header| == 10 && header[9] == NUL
    ensures texts + header + parts == (texts + header[..9]) + [NUL] + parts
  {
    assert header == header[..9] + [NUL];
  }

  lemma MarkLeads(parts: seq<Part>)
    requires parts != [] && parts[0].Entry? && parts[0].key == "Scanner"
    ensures OccursAt(PrintParts(parts), MARK, 0)
  {
    assert "Scanner" + ":" == MARK;
    Associate(parts[0].key, ":", parts[0].value, [NUL], PrintParts(parts[1..]));
    OccursFirst(MARK, parts[0].value + ([NUL] + PrintParts(parts[1..])));
  }

  lemma Associate(a: Bytes, b: Bytes, c: Bytes, d: Bytes, e: Bytes)
    ensures a + b + c + d + e == (a + b) + (c + (d + e))
  {
  }

  lemma OccursFirst(pattern: Bytes, rest: Bytes)
    ensures OccursAt(pattern + rest, pattern, 0)
  {
  }

  lemma MarkRightAfter(before: Bytes, parts: Bytes)
    requires !Occurs(before, MARK) && OccursAt(parts, MARK, 0)
    ensures Index(before + [NUL] + parts, MARK, 0) == |before| + 1
  {
    hide OccursAt;
    var s, n := before + [NUL] + parts, |before| + 1;
    Letters(parts, 0);
    Letters(s, n);
    forall k | 0 <= k < n ensures !OccursAt(s, MARK, k) {
      if OccursAt(s, MARK, k) { OnOneSide(before, parts, k); }
    }
  }

  lemma {:induction false} CutComesBack(key: Bytes, value: Bytes)
    requires ':' !in key
    ensures Cut(key + ":" + value) == Some(Field(key, value))
  {
    var part := key + ":" + value;
    if key == "" {
      assert part[1..] == value;
    } else {
      CutComesBack(key[1..], value);
      assert part[1..] == key[1..] + ":" + value;
      assert [key[0]] + key[1..] == key;
    }
  }

  lemma {:induction false} NoiseIsCut(text: Bytes)
    requires ':' !in text
    ensures Cut(text).None?
  {
    if text != "" { NoiseIsCut(text[1..]); }
  }

  function PartsOf(parts: seq<Part>): seq<Bytes> {
    seq(|parts|, i requires 0 <= i < |parts| => PrintPart(parts[i]))
  }

  lemma {:induction false} PartsSplit(parts: seq<Part>)
    requires forall i | 0 <= i < |parts| :: PartPrintable(parts[i])
    ensures Split(PrintParts(parts), NUL) == PartsOf(parts) + [""]
  {
    if parts != [] {
      PartsSplit(parts[1..]);
      SplitPrefix(PrintPart(parts[0]), PrintParts(parts[1..]), NUL);
      assert PartsOf(parts) == [PrintPart(parts[0])] + PartsOf(parts[1..]);
    }
  }

  lemma {:induction false} PartsComeBack(parts: seq<Part>, trim: Bytes -> Bytes)
    requires forall i | 0 <= i < |parts| :: PartPrintable(parts[i])
    ensures AddParts(map[], PartsOf(parts), trim) == FieldsOf(parts, trim)
  {
    if parts != [] {
      var n := |parts| - 1;
      PartsComeBack(parts[..n], trim);
      var p := parts[n];
      assert PartPrintable(p);
      if p.Entry? { CutComesBack(p.key, p.value); } else if ':' !in p.text { NoiseIsCut(p.text); }
      assert PartsOf(parts)[..n] == PartsOf(parts[..n]);
    }
  }

  lemma TagHolds(frames: seq<Frame>, parts: seq<Part>, revision: char, flags: char)
    ensures |Print(frames, parts, revision, flags)| >= HEADER_SIZE
    ensures Print(frames, parts, revision, flags)[HEADER_SIZE..]
      == PrintFrames(frames) + (BlockHeader(|PrintParts(parts)|) + PrintParts(parts))
  {
    hide PrintFrames, PrintParts, BlockHeader, SyncSafeBytes;
    var head := "ID3" + [3 as char, revision, flags] + SyncSafeBytes(|Payload(frames, parts)|);
    assert |SyncSafeBytes(|Payload(frames, parts)|)| == 4 by { FourBytes(|Payload(frames, parts)|); }
    assert Print(frames, parts, revision, flags) == head + Payload(frames, parts);
  }

  lemma FourBytes(n: nat)
    ensures |SyncSafeBytes(n)| == 4
  {
  }

  lemma BlockComesBack(frames: seq<Frame>, parts: seq<Part>, revision: char, flags: char, trim: Bytes -> Bytes)
    requires Printable(frames, parts)
    ensures CustomOf(Print(frames, parts, revision, flags), trim) == FieldsOf(parts, trim)
  {
    hide PrintParts, PrintFrames, Index, Occurs, Print, BlockHeader, Split, AddParts;
    var tag := Print(frames, parts, revision, flags);
    var printed, at := PrintParts(parts), |PrintFrames(frames)| + HEADER_SIZE;
    TagHolds(frames, parts, revision, flags);
    HeaderLength(|printed|);
    var before := PrintFrames(frames) + BlockHeader(|printed|);
    assert tag[HEADER_SIZE..] == before + printed == Payload(frames, parts) && |before| == at;
    BlockIsFound(frames, parts);
    assert tag[HEADER_SIZE + at..] == tag[HEADER_SIZE..][at..] == printed;
    PartsSplit(parts);
    PartsComeBack(parts, trim);
    NothingAdded(PartsOf(parts), trim);
  }

  lemma HeaderLength(n: nat)
    ensures |BlockHeader(n)| == HEADER_SIZE
  {
  }

  lemma NothingAdded(parts: seq<Bytes>, trim: Bytes -> Bytes)
    ensures AddParts(map[], parts + [""], trim) == AddParts(map[], parts, trim)
  {
    assert (parts + [""])[..|parts|] == parts;
  }

  /** Parsing undoes printing, whatever follows the tag: the text of every text frame, and every field without its outer
      spaces; other frames and parts that are no field are passed over. */
  lemma RoundTrip(frames: seq<Frame>, parts: seq<Part>, revision: char, flags: char, audio: Bytes,
        trim: Bytes -> Bytes)
    requires Printable(frames, parts)
    ensures var tag := Print(frames, parts, revision, flags);
      Parse(tag + audio, trim) == Tag(TextsOf(frames), FieldsOf(parts, trim), |tag|)
  {
    hide FramesFrom, CustomOf, PrintFrames, PrintParts, FramePrintable, PartPrintable, Stops, Occurs, Parse;
    var tag := Print(frames, parts, revision, flags);
    TagIsHeaded(frames, parts, revision, flags, audio, trim);
    var rest := BlockHeader(|PrintParts(parts)|) + PrintParts(parts);
    assert tag[HEADER_SIZE..] == PrintFrames(frames) + rest by { TagHolds(frames, parts, revision, flags); }
    BlockStops(parts);
    hide BlockHeader, Print;
    FramesComeBack(tag, HEADER_SIZE, [], frames, rest);
    assert [] + frames == frames;
    BlockComesBack(frames, parts, revision, flags, trim);
  }

  lemma TagIsHeaded(frames: seq<Frame>, parts: seq<Part>, revision: char, flags: char, audio: Bytes,
        trim: Bytes -> Bytes)
    requires 0 < |Payload(frames, parts)| < 0x1000_0000
    ensures var tag := Print(frames, parts, revision, flags);
      && |tag| == HEADER_SIZE + |Payload(frames, parts)|
      && Parse(tag + audio, trim) == Tag(FramesFrom(tag, HEADER_SIZE, map[]), CustomOf(tag, trim), |tag|)
  {
    hide FramesFrom, CustomOf, Parse, SyncSafeBytes, Payload;
    var payload, tag := Payload(frames, parts), Print(frames, parts, revision, flags);
    var header := [3 as char, revision, flags] + SyncSafeBytes(|payload|);
    FourBytes(|payload|);
    DigitsAreSmall(|payload|);
    HeaderExactly(header, |payload|, payload + audio, trim);
    assert tag + audio == "ID3" + header + (payload + audio);
    assert ("ID3" + header + (payload + audio))[..|tag|] == tag;
  }

  lemma DigitsAreSmall(n: nat)
    ensures forall i | 0 <= i < 4 :: SyncSafeBytes(n)[i] as int % 128 == SyncSafeBytes(n)[i] as int
  {
  }

  /* ---- The header ---- */

  /** `header` is what follows "ID3" in the ten bytes: the version, two bytes that mean nothing, and the size, seven
      bits from each of four bytes. Version 3 and a size from 1 to what follows are demanded. */
  lemma HeaderExactly(header: Bytes, n: nat, rest: Bytes, trim: Bytes -> Bytes)
    requires |header| == 7 && n < 0x1000_0000
    requires forall i | 0 <= i < 4 :: header[3 + i] as int % 128 == SyncSafeBytes(n)[i] as int
    ensures var audio := "ID3" + header + rest;
      if header[0] as int != 3 then Parse(audio, trim) == BadTag(UnsupportedVersion)
      else if n == 0 || n > |rest| then Parse(audio, trim) == BadTag(InvalidSize)
      else Parse(audio, trim) == Tag(FramesFrom(audio[..HEADER_SIZE + n], HEADER_SIZE, map[]),
                                     CustomOf(audio[..HEADER_SIZE + n], trim), HEADER_SIZE + n)
  {
    hide FramesFrom, CustomOf;
    var audio := "ID3" + header + rest;
    assert audio[..3] == "ID3" && audio[3] == header[0] && audio[6..10] == header[3..7];
    SizeIsRead(header[3..7], n);
  }

  lemma SizeIsRead(b: Bytes, n: nat)
    requires |b| == 4 && n < 0x1000_0000
    requires forall i | 0 <= i < 4 :: b[i] as int % 128 == SyncSafeBytes(n)[i] as int
    ensures SyncSafe(b) == n
  {
    SyncSafeRoundTrip(n);
    FourBytes(n);
    hide SyncSafeBytes, SyncSafe;
    var s := SyncSafeBytes(n);
    forall i | 0 <= i < 4 ensures s[i] as int % 128 == b[i] as int % 128 { Reduced(b[i] as int); }
    SameDigits(b, s);
  }

  lemma Reduced(x: int)
    ensures x % 128 % 128 == x % 128
  {
  }

  lemma SameDigits(b: Bytes, s: Bytes)
    requires |b| == |s| == 4 && forall i | 0 <= i < 4 :: s[i] as int % 128 == b[i] as int % 128
    ensures SyncSafe(b) == SyncSafe(s)
  {
  }

  lemma NoHeader(audio: Bytes, trim: Bytes -> Bytes)
    ensures Parse(audio, trim) == BadTag(MissingHeader) <==>
      |audio| < 10 || audio[0] != 'I' || audio[1] != 'D' || audio[2] != '3'
  {
    if |audio| >= 10 { assert audio[..3] == [audio[0], audio[1], audio[2]]; }
  }

  /** Without a mark there are no fields. */
  lemma NoMarkNoFields(tag: Bytes, trim: Bytes -> Bytes)
    requires |tag| >= HEADER_SIZE && !Occurs(tag[HEADER_SIZE..], MARK)
    ensures CustomOf(tag, trim) == map[]
  {
  }

  /* ---- Tags as the scanner writes them ---- */

  /** Text frames without flags whose values hold no mark: none comes before the block. */
  predicate Plain(f: Frame) {
    f.Text? && FramePrintable(f) && f.flags == [NUL, NUL] && !Occurs([f.encoding] + f.value, MARK)
  }

  lemma {:induction false} NoMarkInFrames(frames: seq<Frame>, rest: Bytes)
    requires forall i | 0 <= i < |frames| :: Plain(frames[i]) && frames[i].ending == [NUL]
    requires !Occurs(rest, MARK)
    ensures !Occurs(PrintFrames(frames) + rest, MARK)
    decreases |frames|
  {
    if frames == [] {
      assert PrintFrames(frames) + rest == rest;
    } else {
      NoMarkInFrames(frames[1..], rest);
      NoMarkInFrame(frames[0], PrintFrames(frames[1..]) + rest);
      assert PrintFrames(frames) + rest == PrintFrame(frames[0]) + (PrintFrames(frames[1..]) + rest);
    }
  }

  lemma NoMarkInFrame(f: Frame, rest: Bytes)
    requires Plain(f) && f.ending == [NUL] && !Occurs(rest, MARK)
    ensures !Occurs(PrintFrame(f) + rest, MARK)
  {
    var head := f.id + BigEndianBytes(|Body(f)|);
    assert head[1] == f.id[1];
    NoMarkInEight(head);
    assert !Occurs("", MARK);
    var text := [f.encoding] + f.value;
    assert PrintFrame(f) + rest == head + [NUL] + ("" + [NUL] + (text + [NUL] + rest));
    hide Occurs, FramePrintable, PrintFrame;
    NoMarkAcross(text, rest);
    NoMarkAcross("", text + [NUL] + rest);
    NoMarkAcross(head, "" + [NUL] + (text + [NUL] + rest));
  }

  /** A tag of the repository's tests: the five text frames, in this order, each ended by one NUL, with any values that
      hold no mark and do not end in NUL, and the block of fields. */
  lemma ScannerTag(values: seq<Bytes>, parts: seq<Part>, audio: Bytes, trim: Bytes -> Bytes)
    requires |values| == 5 && forall i | 0 <= i < 5 ::
      !Occurs([NUL] + values[i], MARK) && (values[i] == "" || values[i][|values[i]| - 1] != NUL)
    requires forall i | 0 <= i < |parts| :: PartPrintable(parts[i])
    requires parts != [] && parts[0].Entry? && parts[0].key == "Scanner"
    requires |Payload(FiveFrames(values), parts)| < 0x1000_0000
    ensures var tag := Print(FiveFrames(values), parts, NUL, NUL);
      Parse(tag + audio, trim) == Tag(map["TSEE" := values[0], "TRDA" := values[1], "TIT2" := values[2],
        "TPE1" := values[3], "TPE2" := values[4]], FieldsOf(parts, trim), |tag|)
  {
    var frames := FiveFrames(values);
    FivePlain(values);
    hide Occurs, PrintFrames, PrintParts, Plain, FiveFrames, Payload, Print, Parse;
    NoMarkInHeader(|PrintParts(parts)|);
    NoMarkInFrames(frames, BlockHeader(|PrintParts(parts)|)[..9]);
    forall i | 0 <= i < |frames| ensures FramePrintable(frames[i]) { PlainPrintable(frames[i]); }
    RoundTrip(frames, parts, NUL, NUL, audio, trim);
    FiveTexts(values);
  }

  lemma FivePlain(values: seq<Bytes>)
    requires |values| == 5 && forall i | 0 <= i < 5 ::
      !Occurs([NUL] + values[i], MARK) && (values[i] == "" || values[i][|values[i]| - 1] != NUL)
    ensures forall i | 0 <= i < 5 :: Plain(FiveFrames(values)[i]) && FiveFrames(values)[i].ending == [NUL]
  {
    hide Plain, Occurs;
    OnePlain("TSEE", values[0]);
    OnePlain("TRDA", values[1]);
    OnePlain("TIT2", values[2]);
    OnePlain("TPE1", values[3]);
    OnePlain("TPE2", values[4]);
  }

  lemma OnePlain(id: Bytes, value: Bytes)
    requires id in ["TSEE", "TRDA", "TIT2", "TPE1", "TPE2"]
    requires !Occurs([NUL] + value, MARK) && (value == "" || value[|value| - 1] != NUL)
    ensures Plain(PlainText(id, value)) && PlainText(id, value).ending == [NUL]
  {
    hide Occurs;
  }

  lemma PlainPrintable(f: Frame)
    requires Plain(f)
    ensures FramePrintable(f)
  {
  }

  function FiveFrames(values: seq<Bytes>): (frames: seq<Frame>)
    requires |values| == 5
    ensures |frames| == 5
  {
    [PlainText("TSEE", values[0]), PlainText("TRDA", values[1]), PlainText("TIT2", values[2]),
     PlainText("TPE1", values[3]), PlainText("TPE2", values[4])]
  }

  function PlainText(id: Bytes, value: Bytes): Frame { Text(id, [NUL, NUL], NUL, value, [NUL]) }

  lemma FiveTexts(values: seq<Bytes>)
    requires |values| == 5
    ensures TextsOf(FiveFrames(values)) == map["TSEE" := values[0], "TRDA" := values[1], "TIT2" := values[2],
      "TPE1" := values[3], "TPE2" := values[4]]
  {
    var f := FiveFrames(values);
    assert f[..4][..3] == f[..3] && f[..3][..2] == f[..2] && f[..2][..1] == f[..1] && f[..1][..0] == [];
    assert TextsOf(f[..1]) == map["TSEE" := values[0]];
    assert TextsOf(f[..2]) == map["TSEE" := values[0], "TRDA" := values[1]];
    assert TextsOf(f[..3]) == map["TSEE" := values[0], "TRDA" := values[1], "TIT2" := values[2]];
    assert f[..5] == f && f[..5][..4] == f[..4];
  }
}
