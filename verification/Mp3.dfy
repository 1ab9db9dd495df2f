/** MPEG audio frames and the length of a recording (section 2.4.1.3 of ISO/IEC 11172-3). */
module Mp3 {
  import opened Basics
  import opened Id3

  datatype Header = Header(length: int, sampleRate: int, samples: int)

  const V1_RATES := [0, 32, 40, 48, 56, 64, 80, 96, 112, 128, 160, 192, 224, 256, 320]
  const V2_RATES := [0, 8, 16, 24, 32, 40, 48, 56, 64, 80, 96, 112, 128, 144, 160]

  const SHORTEST_FRAME := 24
  const LONGEST_FRAME := 1441

  /** Sample rates by the two version bits (3, 2, or 0) and the two sample-rate bits. */
  function SampleRate(version: nat, index: nat): (rate: int)
    requires version in {0, 2, 3} && index < 3
    ensures rate > 0
  {
    if version == 3 then [44100, 48000, 32000][index]
    else if version == 2 then [22050, 24000, 16000][index]
    else [11025, 12000, 8000][index]
  }

  /** Bytes in a frame; the bit rate in kbit/s. */
  function FrameLength(coefficient: nat, rate: nat, sampleRate: int, padding: nat): int
    requires sampleRate > 0
  {
    coefficient * rate * 1000 / sampleRate + padding
  }

  /** The header made of valid fields. */
  function HeaderOf(version: nat, bitrate: nat, sample: nat, padding: nat): (h: Header)
    requires version in {0, 2, 3} && 0 < bitrate < 15 && sample < 3
  {
    var rate := SampleRate(version, sample);
    if version == 3 then Header(FrameLength(144, V1_RATES[bitrate], rate, padding), rate, 1152)
    else Header(FrameLength(72, V2_RATES[bitrate], rate, padding), rate, 576)
  }

  /** `decodeMP3Header` on the bytes at a position. */
  function Decode(audio: Bytes, at: nat): Option<Header>
    requires at <= |audio|
  {
    if |audio| - at < 4 || audio[at] as int != 0xff || audio[at + 1] as int / 32 % 8 != 7 then None
    else
      var b, c := audio[at + 1] as int, audio[at + 2] as int;
      var version, layer := b / 8 % 4, b / 2 % 4;
      var bitrate, sample, padding := c / 16 % 16, c / 4 % 4, c / 2 % 2;
      if version == 1 || layer != 1 || bitrate == 0 || bitrate == 15 || sample == 3 then None
      else
        var h := HeaderOf(version, bitrate, sample, padding);
        if h.length < 4 then None else Some(h)
  }

  lemma LengthBounds(version: nat, bitrate: nat, sample: nat, padding: nat)
    requires version in {0, 2, 3} && 0 < bitrate < 15 && sample < 3 && padding < 2
    ensures SHORTEST_FRAME <= HeaderOf(version, bitrate, sample, padding).length <= LONGEST_FRAME
  {
    var rate := SampleRate(version, sample);
    if version == 3 {
      assert 32 <= V1_RATES[bitrate] <= 320;
      Between(144 * V1_RATES[bitrate] * 1000, rate, 96, 1440);
    } else {
      assert 8 <= V2_RATES[bitrate] <= 160;
      Between(72 * V2_RATES[bitrate] * 1000, rate, 24, 1440);
    }
  }

  lemma Between(n: int, d: int, low: int, high: int)
    requires d > 0 && low * d <= n <= high * d
    ensures low <= n / d <= high
  {
    var q := n / d;
    assert q * d <= n < q * d + d;
    if q < low { MulOrder(q + 1, low, d); }
    if q > high { MulOrder(high + 1, q, d); }
  }

  lemma MulOrder(x: int, y: int, c: int)
    requires x <= y && c > 0
    ensures x * c <= y * c
  {
  }

  /** Every decoded length lies in 24..1441: the guard on shorter frames never rejects one. */
  lemma DecodedLength(audio: Bytes, at: nat)
    requires at <= |audio|
    ensures Decode(audio, at).Some? ==> SHORTEST_FRAME <= Decode(audio, at).value.length <= LONGEST_FRAME
  {
    if |audio| - at >= 4 {
      var b, c := audio[at + 1] as int, audio[at + 2] as int;
      var version, bitrate, sample, padding := b / 8 % 4, c / 16 % 16, c / 4 % 4, c / 2 % 2;
      if version != 1 && 0 < bitrate < 15 && sample != 3 { LengthBounds(version, bitrate, sample, padding); }
    }
  }

  /** A frame header, bit field by bit field: synchronisation, version, layer, protection; bit rate, sample rate,
      padding and private bit; and a last byte that carries modes only. */
  function HeaderBytes(version: nat, layer: nat, protection: nat, bitrate: nat, sample: nat, padding: nat, private: nat,
        modes: char): Bytes
    requires version < 4 && layer < 4 && protection < 2 && bitrate < 16 && sample < 4 && padding < 2 && private < 2
  {
    [0xff as char, (0xe0 + version * 8 + layer * 2 + protection) as char,
     (bitrate * 16 + sample * 4 + padding * 2 + private) as char, modes]
  }

  /** Decoding undoes printing for valid fields of layer III, and refuses the other layers and the reserved fields. */
  lemma HeaderRoundTrip(version: nat, layer: nat, protection: nat, bitrate: nat, sample: nat, padding: nat,
        private: nat, modes: char, rest: Bytes)
    requires version < 4 && layer < 4 && protection < 2 && bitrate < 16 && sample < 4 && padding < 2 && private < 2
    ensures Decode(HeaderBytes(version, layer, protection, bitrate, sample, padding, private, modes) + rest, 0) ==
      if version != 1 && layer == 1 && 0 < bitrate < 15 && sample != 3
      then Some(HeaderOf(version, bitrate, sample, padding))
      else None
  {
    SecondByte(version, layer, protection);
    ThirdByte(bitrate, sample, padding, private);
    if version != 1 && 0 < bitrate < 15 && sample != 3 { LengthBounds(version, bitrate, sample, padding); }
    hide HeaderOf;
  }

  /** Without eleven set bits, or with less than four bytes, nothing is decoded. */
  lemma NoSynchronisation(audio: Bytes, at: nat)
    requires at <= |audio| && (at + 4 > |audio| || audio[at] as int != 0xff || audio[at + 1] as int < 0xe0)
    requires forall i | at <= i < |audio| :: audio[i] as int < 256
    ensures Decode(audio, at) == None
  {
  }

  /** Bit rates in kbit/s. From 32 on the steps of version 1 double after every four; versions 2 and 2.5 go by eights up
      to 64 and by sixteens from there. */
  function Kilobits(version: nat, bitrate: nat): int
    requires version in {0, 2, 3} && 0 < bitrate < 15
  {
    if version != 3 then (if bitrate <= 8 then 8 * bitrate else 64 + 16 * (bitrate - 8))
    else if bitrate <= 5 then 32 + 8 * (bitrate - 1)
    else if bitrate <= 9 then 64 + 16 * (bitrate - 5)
    else if bitrate <= 13 then 128 + 32 * (bitrate - 9)
    else 320
  }

  /** What a frame is: 1152 samples in version 1 and 576 in the others; 44.1, 48 and 32 kHz in version 1, half of that
      in version 2 and a quarter in version 2.5; and as many whole bytes as its bit rate gives in the time of its
      samples, with one more for padding. */
  lemma FrameIsItsTime(version: nat, bitrate: nat, sample: nat, padding: nat)
    requires version in {0, 2, 3} && 0 < bitrate < 15 && sample < 3 && padding < 2
    ensures var h := HeaderOf(version, bitrate, sample, padding);
      && h.samples == (if version == 3 then 1152 else 576)
      && h.sampleRate * (if version == 3 then 1 else if version == 2 then 2 else 4) == [44100, 48000, 32000][sample]
      && var bits := h.samples * Kilobits(version, bitrate) * 1000;
      (h.length - padding) * 8 * h.sampleRate <= bits < (h.length - padding + 1) * 8 * h.sampleRate
  {
    var h := HeaderOf(version, bitrate, sample, padding);
    var k := Kilobits(version, bitrate);
    assert k == if version == 3 then V1_RATES[bitrate] else V2_RATES[bitrate];
    var n := (if version == 3 then 144 else 72) * k * 1000;
    Quotient(n, h.sampleRate, h.length - padding);
    hide Kilobits, HeaderOf;
    assert h.samples * k * 1000 == 8 * n;
  }

  lemma Quotient(n: int, d: int, q: int)
    requires d > 0 && q == n / d
    ensures q * 8 * d <= 8 * n < (q + 1) * 8 * d
  {
    assert q * d <= n < q * d + d;
    assert q * 8 * d == 8 * (q * d) && (q + 1) * 8 * d == 8 * (q * d + d);
  }

  lemma SecondByte(version: nat, layer: nat, protection: nat)
    requires version < 4 && layer < 4 && protection < 2
    ensures var b := 0xe0 + version * 8 + layer * 2 + protection;
      b < 256 && b / 8 % 4 == version && b / 2 % 4 == layer && b / 32 % 8 == 7
  {
  }

  lemma ThirdByte(bitrate: nat, sample: nat, padding: nat, private: nat)
    requires bitrate < 16 && sample < 4 && padding < 2 && private < 2
    ensures var c := bitrate * 16 + sample * 4 + padding * 2 + private;
      c < 256 && c / 16 % 16 == bitrate && c / 4 % 4 == sample && c / 2 % 2 == padding
  {
  }

  /* ---- Finding and walking frames ---- */

  predicate FrameFits(audio: Bytes, at: nat)
    requires at <= |audio|
  {
    at + 4 <= |audio| && Decode(audio, at).Some? && at + Decode(audio, at).value.length <= |audio|
  }

  /** A search that would start outside the audio starts at zero. */
  function SearchFrom(audio: Bytes, start: int): nat { if 0 <= start < |audio| then start else 0 }

  ghost predicate FirstFrame(audio: Bytes, start: int, at: nat) {
    && SearchFrom(audio, start) <= at <= |audio| && FrameFits(audio, at)
    && forall p | SearchFrom(audio, start) <= p < at :: !FrameFits(audio, p)
  }

  /** `findMP3Frame`: the first position from `start` on at which a frame fits. */
  method FindFrame(audio: Bytes, start: int) returns (found: Option<nat>)
    ensures match found
      case None => forall p | SearchFrom(audio, start) <= p <= |audio| :: !FrameFits(audio, p)
      case Some(at) => FirstFrame(audio, start, at)
    ensures found.Some? ==>
      found.value + 4 <= |audio| && Decode(audio, found.value).Some?
      && found.value + Decode(audio, found.value).value.length <= |audio|
    ensures forall p: nat | p + 4 <= |audio| && (0 <= start < |audio| ==> start <= p)
        && (found.Some? ==> p < found.value) ::
      Decode(audio, p).None? || p + Decode(audio, p).value.length > |audio|
  {
    hide Decode;
    var position: nat := if start < 0 || start >= |audio| then 0 else start;
    ghost var from := position;
    while position + 4 <= |audio|
      invariant from <= position <= |audio| || position == 0 == from
      invariant forall p | from <= p < position :: p <= |audio| && !FrameFits(audio, p)
      invariant forall p: nat | from <= p < position && p + 4 <= |audio| ::
        Decode(audio, p).None? || p + Decode(audio, p).value.length > |audio|
    {
      var header := Decode(audio, position);
      if header.Some? && position + header.value.length <= |audio| { return Some(position); }
      position := position + 1;
    }
    found := None;
  }

  /** A frame that goes on with the sample rate and sample count of the first. */
  predicate Continues(audio: Bytes, at: nat, first: Header)
    requires at <= |audio|
  {
    && FrameFits(audio, at)
    && Decode(audio, at).value.sampleRate == first.sampleRate && Decode(audio, at).value.samples == first.samples
  }

  /** Where the walk goes: the positions of the frames it counts, and where it stops. */
  ghost predicate Walked(audio: Bytes, at: nat, first: Header, stops: seq<nat>) {
    && stops != [] && stops[0] == at
    && (forall i | 0 <= i < |stops| :: stops[i] <= |audio|)
    && (forall i | 0 <= i < |stops| - 1 ::
          Continues(audio, stops[i], first) && stops[i + 1] == stops[i] + Decode(audio, stops[i]).value.length)
    && !Continues(audio, stops[|stops| - 1], first)
  }

  datatype Duration = Duration(frames: nat, seconds: real) | NoFrame

  /** `mp3Duration`; `stops` lists the positions of the frames it counts and the position where it stops. The
      frame it finds first is always complete, so its second error never arises. */
  method Measure(audio: Bytes, searchStart: int) returns (duration: Duration, ghost at: nat, ghost stops: seq<nat>)
    ensures duration.NoFrame? <==> forall p | SearchFrom(audio, searchStart) <= p <= |audio| :: !FrameFits(audio, p)
    ensures !duration.NoFrame? ==>
      && FirstFrame(audio, searchStart, at)
      && var first := Decode(audio, at).value;
      && first.sampleRate > 0 && Walked(audio, at, first, stops)
      && duration == Duration(|stops| - 1, ((|stops| - 1) * first.samples) as real / first.sampleRate as real)
  {
    hide Decode;
    at, stops := 0, [0];
    var found := FindFrame(audio, searchStart);
    if found.None? { return NoFrame, at, stops; }
    var position := found.value;
    at, stops := position, [position];
    var header := Decode(audio, position).value;
    DecodedLength(audio, position);
    RatePositive(audio, position);
    assert Continues(audio, at, header);
    var frames := 0;
    while position + 4 <= |audio|
      invariant stops != [] && stops[0] == at && stops[|stops| - 1] == position && |stops| == frames + 1
      invariant forall i | 0 <= i < |stops| :: stops[i] <= |audio|
      invariant forall i | 0 <= i < |stops| - 1 ::
          Continues(audio, stops[i], header) && stops[i + 1] == stops[i] + Decode(audio, stops[i]).value.length
      invariant frames == 0 ==> position == at
    {
      var current := Decode(audio, position);
      DecodedLength(audio, position);
      if current.None? || current.value.sampleRate != header.sampleRate || current.value.samples != header.samples
        || position + current.value.length > |audio|
      {
        break;
      }
      frames := frames + 1;
      position := position + current.value.length;
      stops := stops + [position];
    }
    if frames == 0 { assert false; }
    duration := Duration(frames, (frames * header.samples) as real / header.sampleRate as real);
  }

  lemma RatePositive(audio: Bytes, at: nat)
    requires at <= |audio| && Decode(audio, at).Some?
    ensures Decode(audio, at).value.sampleRate > 0
  {
  }

  /* ---- Exactness ---- */

  function Concat(frames: seq<Bytes>): Bytes {
    if frames == [] then "" else frames[0] + Concat(frames[1..])
  }

  /** One complete frame. */
  predicate IsFrame(f: Bytes, rate: int, samples: int) {
    Decode(f, 0) == Some(Header(|f|, rate, samples))
  }

  lemma DecodeIsLocal(a: Bytes, i: nat, b: Bytes, j: nat)
    requires i + 4 <= |a| && j + 4 <= |b| && a[i..i + 4] == b[j..j + 4]
    ensures Decode(a, i) == Decode(b, j)
  {
    assert a[i] == a[i..i + 4][0] && a[i + 1] == a[i..i + 4][1] && a[i + 2] == a[i..i + 4][2];
    assert b[j] == b[j..j + 4][0] && b[j + 1] == b[j..j + 4][1] && b[j + 2] == b[j..j + 4][2];
  }

  lemma FrameContinues(audio: Bytes, at: nat, f: Bytes, rest: Bytes, first: Header)
    requires at <= |audio| && audio[at..] == f + rest && IsFrame(f, first.sampleRate, first.samples)
    ensures Continues(audio, at, first) && Decode(audio, at) == Decode(f, 0)
    ensures at + |f| <= |audio| && audio[at + |f|..] == rest
  {
    DecodedLength(f, 0);
    assert audio[at..at + 4] == audio[at..][..4] == f[0..4];
    DecodeIsLocal(audio, at, f, 0);
    hide Decode;
    assert audio[at + |f|..] == audio[at..][|f|..];
  }

  lemma TailStops(audio: Bytes, at: nat, tail: Bytes, first: Header)
    requires at <= |audio| && audio[at..] == tail
    ensures Continues(audio, at, first) <==> Continues(tail, 0, first)
  {
    if |tail| >= 4 {
      assert audio[at..at + 4] == audio[at..][..4] == tail[0..4];
      DecodeIsLocal(audio, at, tail, 0);
    }
  }

  /** What does not go on with the frames before it: too few bytes, no header, an incomplete frame, or a frame of
      another sample rate or sample count. */
  lemma TailsThatStop(tail: Bytes, first: Header)
    requires || |tail| < 4 || Decode(tail, 0).None? || Decode(tail, 0).value.length > |tail|
             || Decode(tail, 0).value.sampleRate != first.sampleRate || Decode(tail, 0).value.samples != first.samples
    ensures !Continues(tail, 0, first)
  {
    hide Decode;
  }

  /** A walk over complete frames visits every frame and ends at the tail. */
  lemma {:induction false} WalkIsExact(audio: Bytes, frames: seq<Bytes>, tail: Bytes, first: Header, stops: seq<nat>)
    requires stops != [] && Walked(audio, stops[0], first, stops)
    requires audio[stops[0]..] == Concat(frames) + tail
    requires forall i | 0 <= i < |frames| :: IsFrame(frames[i], first.sampleRate, first.samples)
    requires !Continues(tail, 0, first)
    ensures |stops| == |frames| + 1 && stops[|frames|] == stops[0] + |Concat(frames)|
    decreases |frames|
  {
    hide Decode, Continues;
    var at := stops[0];
    if frames == [] {
      assert Concat(frames) + tail == tail;
      TailStops(audio, at, tail, first);
      assert |stops| == 1;
    } else {
      var rest := Concat(frames[1..]) + tail;
      assert Concat(frames) + tail == frames[0] + rest;
      FrameContinues(audio, at, frames[0], rest, first);
      assert stops[|stops| - 1] != at || |stops| > 1;
      assert |stops| > 1 && stops[1] == at + |frames[0]|;
      assert Walked(audio, stops[1], first, stops[1..]) by { WalkGoesOn(audio, at, first, stops); }
      WalkIsExact(audio, frames[1..], tail, first, stops[1..]);
    }
  }

  lemma WalkGoesOn(audio: Bytes, at: nat, first: Header, stops: seq<nat>)
    requires Walked(audio, at, first, stops) && |stops| > 1
    ensures Walked(audio, stops[1], first, stops[1..])
  {
    hide Decode, Continues;
  }

  /** On complete frames of one sample rate and sample count that follow a tag, with bit rates that may vary, and
      a tail that does not continue them, the measured length is exactly that of the frames. */
  lemma MeasuresExactly(before: Bytes, frames: seq<Bytes>, tail: Bytes, first: Header, at: nat, stops: seq<nat>)
    requires frames != [] && IsFrame(frames[0], first.sampleRate, first.samples) && first.length == |frames[0]|
    requires forall i | 0 <= i < |frames| :: IsFrame(frames[i], first.sampleRate, first.samples)
    requires !Continues(tail, 0, first)
    requires var audio := before + Concat(frames) + tail;
      FirstFrame(audio, |before|, at) && Walked(audio, at, Decode(audio, at).value, stops)
    ensures at == |before| && Decode(before + Concat(frames) + tail, at) == Some(first)
    ensures |stops| - 1 == |frames| && stops[|frames|] == |before| + |Concat(frames)|
  {
    hide Decode, Continues;
    var audio := before + Concat(frames) + tail;
    var rest := Concat(frames[1..]) + tail;
    assert audio[|before|..] == Concat(frames) + tail == frames[0] + rest;
    FrameContinues(audio, |before|, frames[0], rest, first);
    DecodedLength(frames[0], 0);
    assert FrameFits(audio, |before|) by { ContinuesFits(audio, |before|, first); }
    assert SearchFrom(audio, |before|) == |before|;
    WalkIsExact(audio, frames, tail, first, stops);
  }

  lemma ContinuesFits(audio: Bytes, at: nat, first: Header)
    requires at <= |audio| && Continues(audio, at, first)
    ensures FrameFits(audio, at)
  {
  }

  /** A frame of the repository's synthetic recordings. */
  const SYNTHETIC: Bytes := HeaderBytes(3, 1, 1, 1, 0, 0, 0, 0xc0 as char) + seq(100, _ => '\0')

  function Repeated(f: Bytes, k: nat): (frames: seq<Bytes>)
    ensures |frames| == k && forall i | 0 <= i < k :: frames[i] == f
  {
    seq(k, _ => f)
  }

  lemma {:induction false} RepeatedLength(f: Bytes, k: nat)
    ensures |Concat(Repeated(f, k))| == k * |f|
  {
    if k > 0 {
      RepeatedLength(f, k - 1);
      assert Repeated(f, k)[1..] == Repeated(f, k - 1);
    }
  }

  /** A synthetic recording of any length: after any tag, `k` frames of 104 bytes at 44.1 kHz are measured as exactly
      those, and the walk ends at the end of the file. */
  lemma SyntheticRecording(tag: Bytes, k: nat, at: nat, stops: seq<nat>)
    requires k > 0
    requires var audio := tag + Concat(Repeated(SYNTHETIC, k)) + "";
      FirstFrame(audio, |tag|, at) && Walked(audio, at, Decode(audio, at).value, stops)
    ensures at == |tag| && |stops| - 1 == k && stops[k] == |tag| + k * 104
    ensures Decode(tag + Concat(Repeated(SYNTHETIC, k)) + "", at) == Some(Header(104, 44100, 1152))
  {
    HeaderRoundTrip(3, 1, 1, 1, 0, 0, 0, 0xc0 as char, seq(100, _ => '\0'));
    assert IsFrame(SYNTHETIC, 44100, 1152);
    hide Decode;
    MeasuresExactly(tag, Repeated(SYNTHETIC, k), "", Header(104, 44100, 1152), at, stops);
    RepeatedLength(SYNTHETIC, k);
  }
}
