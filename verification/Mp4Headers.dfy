/**
 The header boxes that `probe_mp4_media` reads its numbers from, written out field by field as ISO/IEC 14496-12
 (sections 8.2.2, 8.3.2 and 8.4.2) lays them out, and that the readers return exactly what was written.
 */
module Mp4Headers {
  import opened Common
  import opened Bytes
  import opened Mp4

  /** The times, ids and durations of version 0 are 32 bits wide, those of version 1 are 64 bits wide. */
  function Wide(version: byte, n: nat): (bytes: seq<byte>)
    requires version <= 1 && n < if version == 0 then 0x1_0000_0000 else 0x1_0000_0000_0000_0000
    ensures |bytes| == if version == 0 then 4 else 8
  {
    if version == 0 then BigEndian(n) else BigEndian8(n)
  }

  predicate Fits(version: byte, n: nat) {
    version <= 1 && n < if version == 0 then 0x1_0000_0000 else 0x1_0000_0000_0000_0000
  }

  /** The front of `mvhd` and `mdhd`: version, flags, creation and modification time, time scale, duration. */
  datatype Timing = Timing(version: byte, flags: seq<byte>, created: nat, modified: nat, scale: nat, duration: nat,
                           rest: seq<byte>)
  {
    predicate Valid() {
      && |flags| == 3 && Fits(version, created) && Fits(version, modified) && Fits(version, duration)
      && scale < 0x1_0000_0000
    }

    function Front(): (bytes: seq<byte>)
      requires Valid()
      ensures |bytes| == if version == 0 then 12 else 20
      ensures bytes[0] == version
    {
      [version] + flags + Wide(version, created) + Wide(version, modified)
    }

    function Body(): seq<byte>
      requires Valid()
    {
      Front() + BigEndian(scale) + Wide(version, duration) + rest
    }
  }

  /**
   `tkhd`: version, flags, creation and modification time, track id, four reserved bytes, duration; then 52 bytes
   of layout up to the end of the matrix; then width and height in 16.16 fixed point.
   */
  datatype TrackHeader = TrackHeader(version: byte, flags: seq<byte>, created: nat, modified: nat, trackId: nat,
                                     reserved: seq<byte>, duration: nat, layout: seq<byte>, width: nat, height: nat,
                                     rest: seq<byte>)
  {
    predicate Valid() {
      && |flags| == 3 && Fits(version, created) && Fits(version, modified) && trackId < 0x1_0000_0000
      && |reserved| == 4 && Fits(version, duration) && |layout| == 52
      && width < 0x1_0000_0000 && height < 0x1_0000_0000
    }

    function Front(): (bytes: seq<byte>)
      requires Valid()
      ensures |bytes| == if version == 0 then 76 else 88
      ensures bytes[0] == version
    {
      [version] + flags + Wide(version, created) + Wide(version, modified) + BigEndian(trackId) + reserved
      + Wide(version, duration) + layout
    }

    function Body(): seq<byte>
      requires Valid()
    {
      Front() + BigEndian(width) + BigEndian(height) + rest
    }
  }

  /** The box's content. */
  predicate Contains(payload: seq<byte>, box: Box, body: seq<byte>) {
    box.payloadStart <= box.end <= |payload| && payload[box.payloadStart..box.end] == body
  }

  lemma Read32(payload: seq<byte>, box: Box, front: seq<byte>, n: nat, back: seq<byte>)
    requires n < 0x1_0000_0000 && Contains(payload, box, front + BigEndian(n) + back)
    ensures U32In(payload, box.payloadStart + |front|, box.end) == Some(n)
  {
    hide BigEndian, FromBigEndian;
    BigEndianRoundTrip(n);
    var body := payload[box.payloadStart..box.end];
    var at := box.payloadStart + |front|;
    assert payload[at..at + 4] == body[|front|..|front| + 4];
  }

  lemma Read64(payload: seq<byte>, box: Box, front: seq<byte>, n: nat, back: seq<byte>)
    requires n < 0x1_0000_0000_0000_0000 && Contains(payload, box, front + BigEndian8(n) + back)
    ensures U64In(payload, box.payloadStart + |front|, box.end) == Some(n)
  {
    hide BigEndian8, FromBigEndian8;
    BigEndian8RoundTrip(n);
    var body := payload[box.payloadStart..box.end];
    var at := box.payloadStart + |front|;
    assert payload[at..at + 8] == body[|front|..|front| + 8];
  }

  lemma FirstByte(payload: seq<byte>, box: Box, body: seq<byte>)
    requires Contains(payload, box, body) && body != []
    ensures box.payloadStart < box.end && payload[box.payloadStart] == body[0]
  {
  }

  lemma TimingStarts(t: Timing)
    requires t.Valid()
    ensures t.Body() != [] && t.Body()[0] == t.version
  {
  }

  lemma HeaderStarts(h: TrackHeader)
    requires h.Valid()
    ensures h.Body() != [] && h.Body()[0] == h.version
  {
  }

  /** Reading a written time header gives back its time scale and duration, unless one of them is 0. */
  lemma TimingRoundTrip(payload: seq<byte>, box: Box, t: Timing)
    requires t.Valid() && Contains(payload, box, t.Body())
    ensures DurationOf(payload, box) == if t.scale == 0 || t.duration == 0 then None else Some((t.scale, t.duration))
  {
    hide BigEndian, BigEndian8, Contains, U32In, U64In, Timing.Front;
    TimingStarts(t);
    FirstByte(payload, box, t.Body());
    ContainsFits(payload, box, t.Body());
    var front := t.Front();
    var wide := Wide(t.version, t.duration);
    assert t.Body() == front + BigEndian(t.scale) + (wide + t.rest);
    Read32(payload, box, front, t.scale, wide + t.rest);
    var second := front + BigEndian(t.scale);
    assert t.Body() == second + wide + t.rest;
    if t.version == 0 {
      Read32(payload, box, second, t.duration, t.rest);
    } else {
      Read64(payload, box, second, t.duration, t.rest);
    }
  }

  lemma ContainsFits(payload: seq<byte>, box: Box, body: seq<byte>)
    requires Contains(payload, box, body)
    ensures box.payloadStart <= box.end <= |payload|
  {
  }

  /** Reading a written track header gives back its width and height to the nearest pixel, unless one of them is 0. */
  lemma DimensionsRoundTrip(payload: seq<byte>, box: Box, h: TrackHeader)
    requires h.Valid() && Contains(payload, box, h.Body())
    ensures DimensionsOf(payload, box) ==
      if h.width == 0 || h.height == 0 then None else Some((Rounded(h.width, 65536), Rounded(h.height, 65536)))
  {
    hide BigEndian, BigEndian8, Contains, U32In, Rounded, TrackHeader.Front;
    HeaderStarts(h);
    FirstByte(payload, box, h.Body());
    ContainsFits(payload, box, h.Body());
    var front := h.Front();
    assert h.Body() == front + BigEndian(h.width) + (BigEndian(h.height) + h.rest);
    Read32(payload, box, front, h.width, BigEndian(h.height) + h.rest);
    var second := front + BigEndian(h.width);
    assert h.Body() == second + BigEndian(h.height) + h.rest;
    Read32(payload, box, second, h.height, h.rest);
  }

  // ----- And nothing else is read -----

  lemma BigEndian8Unique(bytes: seq<byte>)
    requires |bytes| == 8
    ensures FromBigEndian8(bytes) < 0x1_0000_0000_0000_0000 && BigEndian8(FromBigEndian8(bytes)) == bytes
  {
    hide BigEndian, FromBigEndian;
    BigEndianUnique(bytes[..4]);
    BigEndianUnique(bytes[4..]);
    var high, low := FromBigEndian(bytes[..4]), FromBigEndian(bytes[4..]);
    HighLow(high, low);
    assert bytes == bytes[..4] + bytes[4..];
  }

  lemma HighLow(high: nat, low: nat)
    requires high < 0x1_0000_0000 && low < 0x1_0000_0000
    ensures var n := high * 0x1_0000_0000 + low;
      n < 0x1_0000_0000_0000_0000 && n / 0x1_0000_0000 == high && n % 0x1_0000_0000 == low
  {
  }

  lemma Narrow(version: byte, bytes: seq<byte>) returns (n: nat)
    requires version <= 1 && |bytes| == if version == 0 then 4 else 8
    ensures Fits(version, n) && Wide(version, n) == bytes
    ensures n == if version == 0 then FromBigEndian(bytes) else FromBigEndian8(bytes)
  {
    hide BigEndian, BigEndian8, FromBigEndian, FromBigEndian8;
    if version == 0 {
      BigEndianUnique(bytes);
      n := FromBigEndian(bytes);
    } else {
      BigEndian8Unique(bytes);
      n := FromBigEndian8(bytes);
    }
  }

  lemma DurationParts(payload: seq<byte>, box: Box, w: nat)
    requires box.end <= |payload| && DurationOf(payload, box).Some? && box.payloadStart < box.end
    requires w == if payload[box.payloadStart] == 0 then 4 else 8
    ensures payload[box.payloadStart] <= 1 && box.payloadStart + 8 + 3 * w <= box.end
  {
    hide FromBigEndian, FromBigEndian8;
  }

  lemma HasVersion(payload: seq<byte>, box: Box)
    requires box.end <= |payload| && DurationOf(payload, box).Some?
    ensures box.payloadStart < box.end
  {
    hide U32In, U64In;
  }

  /** Whatever has a duration is a time header with that time scale and duration. */
  lemma DurationMeansTiming(payload: seq<byte>, box: Box) returns (t: Timing)
    requires box.end <= |payload| && DurationOf(payload, box).Some?
    ensures t.Valid() && Contains(payload, box, t.Body()) && DurationOf(payload, box) == Some((t.scale, t.duration))
  {
    hide BigEndian, BigEndian8, FromBigEndian, FromBigEndian8, Wide, DurationOf;
    HasVersion(payload, box);
    var version := payload[box.payloadStart];
    var w := if version == 0 then 4 else 8;
    DurationParts(payload, box, w);
    var body := payload[box.payloadStart..box.end];
    var at := 4 + 2 * w;
    var created := Narrow(version, body[4..4 + w]);
    var modified := Narrow(version, body[4 + w..at]);
    BigEndianUnique(body[at..at + 4]);
    var duration := Narrow(version, body[at + 4..at + 4 + w]);
    t := Timing(version, body[1..4], created, modified, FromBigEndian(body[at..at + 4]), duration, body[at + 4 + w..]);
    Reassembled(t, body, w);
    TimingRoundTrip(payload, box, t);
  }

  lemma Reassembled(t: Timing, body: seq<byte>, w: nat)
    requires t.Valid() && w == (if t.version == 0 then 4 else 8) && |body| >= 8 + 3 * w
    requires body[0] == t.version && body[1..4] == t.flags && body[4..4 + w] == Wide(t.version, t.created)
    requires body[4 + w..4 + 2 * w] == Wide(t.version, t.modified)
    requires body[4 + 2 * w..8 + 2 * w] == BigEndian(t.scale)
    requires body[8 + 2 * w..8 + 3 * w] == Wide(t.version, t.duration) && body[8 + 3 * w..] == t.rest
    ensures t.Body() == body
  {
    hide BigEndian, BigEndian8, Wide;
    assert body == [body[0]] + body[1..4] + body[4..4 + w] + body[4 + w..4 + 2 * w] + body[4 + 2 * w..8 + 2 * w]
                   + body[8 + 2 * w..8 + 3 * w] + body[8 + 3 * w..];
  }

  lemma DimensionParts(payload: seq<byte>, box: Box, w: nat)
    requires box.end <= |payload| && DimensionsOf(payload, box).Some? && box.payloadStart < box.end
    requires w == if payload[box.payloadStart] == 0 then 4 else 8
    ensures payload[box.payloadStart] <= 1 && box.payloadStart + 72 + 3 * w <= box.end
  {
    hide Rounded, FromBigEndian;
  }

  lemma HasHeaderVersion(payload: seq<byte>, box: Box)
    requires box.end <= |payload| && DimensionsOf(payload, box).Some?
    ensures box.payloadStart < box.end
  {
    hide U32In, Rounded;
  }

  /** Whatever has dimensions is a track header with that width and height. */
  lemma DimensionsMeanHeader(payload: seq<byte>, box: Box) returns (h: TrackHeader)
    requires box.end <= |payload| && DimensionsOf(payload, box).Some?
    ensures h.Valid() && Contains(payload, box, h.Body())
    ensures DimensionsOf(payload, box) == Some((Rounded(h.width, 65536), Rounded(h.height, 65536)))
  {
    hide BigEndian, BigEndian8, FromBigEndian, FromBigEndian8, Wide, DimensionsOf, Rounded;
    HasHeaderVersion(payload, box);
    var version := payload[box.payloadStart];
    var w := if version == 0 then 4 else 8;
    DimensionParts(payload, box, w);
    var body := payload[box.payloadStart..box.end];
    var at := 4 + 2 * w;
    var created := Narrow(version, body[4..4 + w]);
    var modified := Narrow(version, body[4 + w..at]);
    var duration := Narrow(version, body[at + 8..at + 8 + w]);
    var size := at + 60 + w;
    BigEndianUnique(body[at..at + 4]);
    BigEndianUnique(body[size..size + 4]);
    BigEndianUnique(body[size + 4..size + 8]);
    h := TrackHeader(version, body[1..4], created, modified, FromBigEndian(body[at..at + 4]), body[at + 4..at + 8], duration,
                     body[at + 8 + w..size], FromBigEndian(body[size..size + 4]), FromBigEndian(body[size + 4..size + 8]),
                     body[size + 8..]);
    HeaderReassembled(h, body, w);
    DimensionsRoundTrip(payload, box, h);
  }

  lemma HeaderReassembled(h: TrackHeader, body: seq<byte>, w: nat)
    requires h.Valid() && w == (if h.version == 0 then 4 else 8) && |body| >= 72 + 3 * w
    requires body[0] == h.version && body[1..4] == h.flags && body[4..4 + w] == Wide(h.version, h.created)
    requires body[4 + w..4 + 2 * w] == Wide(h.version, h.modified)
    requires body[4 + 2 * w..8 + 2 * w] == BigEndian(h.trackId) && body[8 + 2 * w..12 + 2 * w] == h.reserved
    requires body[12 + 2 * w..12 + 3 * w] == Wide(h.version, h.duration) && body[12 + 3 * w..64 + 3 * w] == h.layout
    requires body[64 + 3 * w..68 + 3 * w] == BigEndian(h.width) && body[68 + 3 * w..72 + 3 * w] == BigEndian(h.height)
    requires body[72 + 3 * w..] == h.rest
    ensures h.Body() == body
  {
    hide BigEndian, BigEndian8, Wide;
    var front := body[..64 + 3 * w];
    assert front == [body[0]] + body[1..4] + body[4..4 + w] + body[4 + w..4 + 2 * w] + body[4 + 2 * w..8 + 2 * w]
                    + body[8 + 2 * w..12 + 2 * w] + body[12 + 2 * w..12 + 3 * w] + body[12 + 3 * w..64 + 3 * w];
    assert body == front + body[64 + 3 * w..68 + 3 * w] + body[68 + 3 * w..72 + 3 * w] + body[72 + 3 * w..];
  }
}
