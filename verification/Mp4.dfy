/**
 The MP4 reader of `v2_aoi.py`: box lists as in section 4.2 of ISO/IEC 14496-12, the average frame rate
 of the time-to-sample table of section 8.6.1.2, and the probe of the largest video track.
 Every failure is the one error `RuntimeError`, so a failed read is `None`.
 */
module Mp4 {
  import opened Common
  import opened Bytes

  type Kind = k: seq<byte> | |k| == 4 witness [0, 0, 0, 0]

  datatype Box = Box(kind: Kind, payloadStart: nat, end: nat)

  // ----- Box lists -----

  function U32At(payload: seq<byte>, offset: nat): (n: nat)
    requires offset + 4 <= |payload|
  {
    FromBigEndian(payload[offset..offset + 4])
  }

  function U64At(payload: seq<byte>, offset: nat): (n: nat)
    requires offset + 8 <= |payload|
  {
    FromBigEndian8(payload[offset..offset + 8])
  }

  /**
   Section 4.2: `box` starts at `offset` in a list that ends at `end`. A size of 1 announces a 64-bit
   size after the type; a size of 0 means that the box runs to the end.
   */
  ghost predicate IsBoxAt(payload: seq<byte>, offset: nat, end: nat, box: Box)
    requires end <= |payload|
  {
    && offset + 8 <= end
    && box.kind == payload[offset + 4..offset + 8]
    && offset < box.payloadStart <= box.end <= end
    && var size := U32At(payload, offset);
      if size == 1 then
        offset + 16 <= end && box.payloadStart == offset + 16 && box.end == offset + U64At(payload, offset + 8)
      else
        box.payloadStart == offset + 8 && box.end == if size == 0 then end else offset + size
  }

  /** The boxes lie end to end from `start` to `end`. */
  ghost predicate Tiles(payload: seq<byte>, boxes: seq<Box>, start: nat, end: nat)
    requires end <= |payload|
    decreases |boxes|
  {
    if boxes == [] then start == end
    else IsBoxAt(payload, start, end, boxes[0]) && Tiles(payload, boxes[1..], boxes[0].end, end)
  }

  /** The tiling, if there is one. There is at most one: see `TilingIsUnique`. */
  ghost function BoxesOf(payload: seq<byte>, start: nat, end: nat): (boxes: Option<seq<Box>>)
    requires end <= |payload|
    ensures boxes.Some? ==> Tiles(payload, boxes.value, start, end)
  {
    if exists bs :: Tiles(payload, bs, start, end) then
      var bs :| Tiles(payload, bs, start, end);
      Some(bs)
    else None
  }

  lemma BoxesAreThese(payload: seq<byte>, boxes: seq<Box>, start: nat, end: nat)
    requires end <= |payload| && Tiles(payload, boxes, start, end)
    ensures BoxesOf(payload, start, end) == Some(boxes)
  {
    hide Tiles;
    TilingIsUnique(payload, boxes, BoxesOf(payload, start, end).value, start, end);
  }

  /** `_mp4_boxes`: finds the tiling, and fails exactly if there is none. */
  method ReadBoxes(payload: seq<byte>, start: nat, end: nat) returns (boxes: Option<seq<Box>>)
    requires start <= end <= |payload|
    ensures boxes.Some? ==> Tiles(payload, boxes.value, start, end)
    ensures boxes.None? ==> forall other :: !Tiles(payload, other, start, end)
    ensures boxes == BoxesOf(payload, start, end)
  {
    hide ReadSoFar, Tiles, IsBoxAt;
    var found: seq<Box> := [];
    var offset := start;
    NothingRead(payload, start, end);
    while offset < end
      invariant start <= offset <= end
      invariant ReadSoFar(payload, found, start, offset, end)
      decreases end - offset
    {
      var box := ReadBox(payload, offset, end);
      if box.None? {
        NoBoxNoTiling(payload, found, start, offset, end);
        return None;
      }
      OneMoreBox(payload, found, start, offset, end, box.value);
      found := found + [box.value];
      offset := box.value.end;
    }
    AllRead(payload, found, start, end);
    return Some(found);
  }

  /** What is read so far is the beginning of every tiling. */
  ghost predicate ReadSoFar(payload: seq<byte>, found: seq<Box>, start: nat, offset: nat, end: nat)
    requires end <= |payload|
  {
    && (forall rest :: Tiles(payload, rest, offset, end) ==> Tiles(payload, found + rest, start, end))
    && (forall other :: Tiles(payload, other, start, end) ==>
      |found| <= |other| && other[..|found|] == found && Tiles(payload, other[|found|..], offset, end))
  }

  lemma NothingRead(payload: seq<byte>, start: nat, end: nat)
    requires end <= |payload|
    ensures ReadSoFar(payload, [], start, start, end)
  {
    hide Tiles;
    assert forall rest: seq<Box> :: [] + rest == rest && rest[..0] == [] && rest[0..] == rest;
  }

  lemma AllRead(payload: seq<byte>, found: seq<Box>, start: nat, end: nat)
    requires end <= |payload| && ReadSoFar(payload, found, start, end, end)
    ensures Tiles(payload, found, start, end) && BoxesOf(payload, start, end) == Some(found)
  {
    assert Tiles(payload, [], end, end);
    hide Tiles;
    assert found + [] == found;
    BoxesAreThese(payload, found, start, end);
  }

  /** The loop body of `_mp4_boxes`: one header */
  method ReadBox(payload: seq<byte>, offset: nat, end: nat) returns (box: Option<Box>)
    requires offset < end <= |payload|
    ensures box.Some? ==> IsBoxAt(payload, offset, end, box.value) && offset < box.value.end <= end
    ensures box.None? ==> forall b :: !IsBoxAt(payload, offset, end, b)
  {
    hide FromBigEndian, FromBigEndian8;
    if end - offset < 8 {
      return None;
    }
    var size := U32At(payload, offset);
    var headerSize := 8;
    if size == 1 {
      if end - offset < 16 {
        return None;
      }
      size := U64At(payload, offset + 8);
      headerSize := 16;
    } else if size == 0 {
      size := end - offset;
    }
    if size < headerSize || offset + size > end {
      return None;
    }
    return Some(Box(payload[offset + 4..offset + 8], offset + headerSize, offset + size));
  }

  lemma BoxIsUnique(payload: seq<byte>, offset: nat, end: nat, a: Box, b: Box)
    requires end <= |payload| && IsBoxAt(payload, offset, end, a) && IsBoxAt(payload, offset, end, b)
    ensures a == b
  {
    hide FromBigEndian, FromBigEndian8;
  }

  lemma NoBoxNoTiling(payload: seq<byte>, found: seq<Box>, start: nat, offset: nat, end: nat)
    requires offset < end <= |payload| && ReadSoFar(payload, found, start, offset, end)
    requires forall b :: !IsBoxAt(payload, offset, end, b)
    ensures forall other :: !Tiles(payload, other, start, end)
  {
    hide IsBoxAt;
    assert forall rest :: !Tiles(payload, rest, offset, end);
  }

  lemma OneMoreBox(payload: seq<byte>, found: seq<Box>, start: nat, offset: nat, end: nat, box: Box)
    requires start <= offset < end <= |payload| && IsBoxAt(payload, offset, end, box)
    requires ReadSoFar(payload, found, start, offset, end)
    ensures ReadSoFar(payload, found + [box], start, box.end, end)
  {
    hide IsBoxAt;
    forall rest | Tiles(payload, rest, box.end, end)
      ensures Tiles(payload, found + [box] + rest, start, end)
    {
      assert ([box] + rest)[1..] == rest;
      assert Tiles(payload, [box] + rest, offset, end);
      assert found + [box] + rest == found + ([box] + rest);
    }
    forall other | Tiles(payload, other, start, end)
      ensures |found| + 1 <= |other| && other[..|found| + 1] == found + [box]
      ensures Tiles(payload, other[|found| + 1..], box.end, end)
    {
      var rest := other[|found|..];
      assert Tiles(payload, rest, offset, end);
      assert rest != [];
      BoxIsUnique(payload, offset, end, rest[0], box);
      assert other[|found|] == rest[0];
      assert other[..|found| + 1] == other[..|found|] + [other[|found|]];
      assert rest[1..] == other[|found| + 1..];
    }
  }

  /** There is at most one way to read a box list. */
  lemma {:induction false} TilingIsUnique(payload: seq<byte>, a: seq<Box>, b: seq<Box>, start: nat, end: nat)
    requires end <= |payload| && Tiles(payload, a, start, end) && Tiles(payload, b, start, end)
    ensures a == b
    decreases |a|
  {
    hide IsBoxAt;
    if a != [] && b != [] {
      BoxIsUnique(payload, start, end, a[0], b[0]);
      TilingIsUnique(payload, a[1..], b[1..], a[0].end, end);
      assert a == [a[0]] + a[1..] && b == [b[0]] + b[1..];
    } else {
      EmptyTiling(payload, a, start, end);
      EmptyTiling(payload, b, start, end);
    }
  }

  lemma EmptyTiling(payload: seq<byte>, boxes: seq<Box>, start: nat, end: nat)
    requires end <= |payload| && Tiles(payload, boxes, start, end)
    ensures boxes == [] <==> start == end
  {
  }

  function StartOf(boxes: seq<Box>, start: nat, i: nat): nat
    requires i < |boxes|
  {
    if i == 0 then start else boxes[i - 1].end
  }

  ghost predicate Covers(boxes: seq<Box>, start: nat, i: nat, p: nat) {
    i < |boxes| && StartOf(boxes, start, i) <= p < boxes[i].end
  }

  /** No gap: every byte of the list lies in a box that stays inside the list. */
  lemma {:induction false} EveryByteInABox(payload: seq<byte>, boxes: seq<Box>, start: nat, end: nat, p: nat)
    requires end <= |payload| && Tiles(payload, boxes, start, end) && start <= p < end
    ensures exists i: nat :: Covers(boxes, start, i, p) && boxes[i].end <= end
    decreases |boxes|
  {
    hide IsBoxAt;
    BoxesAdvance(payload, boxes, start, end);
    if boxes[0].end <= p {
      EveryByteInABox(payload, boxes[1..], boxes[0].end, end, p);
      var i: nat :| Covers(boxes[1..], boxes[0].end, i, p) && boxes[1..][i].end <= end;
      assert Covers(boxes, start, i + 1, p);
    } else {
      assert Covers(boxes, start, 0, p);
    }
  }

  /** No overlap. */
  lemma NoByteInTwoBoxes(payload: seq<byte>, boxes: seq<Box>, start: nat, end: nat, p: nat, i: nat, j: nat)
    requires end <= |payload| && Tiles(payload, boxes, start, end)
    requires Covers(boxes, start, i, p) && Covers(boxes, start, j, p)
    ensures i == j
  {
    hide Tiles;
    BoxesAdvance(payload, boxes, start, end);
  }

  lemma {:induction false} BoxesAdvance(payload: seq<byte>, boxes: seq<Box>, start: nat, end: nat)
    requires end <= |payload| && Tiles(payload, boxes, start, end)
    ensures start <= end && forall i :: 0 <= i < |boxes| ==> start < boxes[i].payloadStart <= boxes[i].end <= end
    ensures forall i, j :: 0 <= i < j < |boxes| ==> boxes[i].end <= StartOf(boxes, start, j)
    decreases |boxes|
  {
    if boxes != [] {
      BoxesAdvance(payload, boxes[1..], boxes[0].end, end);
      assert IsBoxAt(payload, start, end, boxes[0]);
      hide IsBoxAt, Tiles;
      var rest := boxes[1..];
      assert forall i :: 1 <= i < |boxes| ==> boxes[i] == rest[i - 1];
      forall i, j | 0 <= i < j < |boxes|
        ensures boxes[i].end <= StartOf(boxes, start, j)
      {
        if i > 0 {
          assert rest[i - 1].end <= StartOf(rest, boxes[0].end, j - 1);
        }
      }
    }
  }

  // ----- Writing boxes, to say what reading recovers -----

  /** The three ways section 4.2 lets a box state its size. */
  datatype SizeForm = Compact | Large | ToEnd

  datatype Atom = Atom(kind: Kind, form: SizeForm, body: seq<byte>)

  function HeaderSize(form: SizeForm): nat {
    if form == Large then 16 else 8
  }

  ghost predicate Writable(a: Atom) {
    match a.form
    case Compact => |a.body| + 8 < 0x1_0000_0000
    case Large => |a.body| + 16 < 0x1_0000_0000_0000_0000
    case ToEnd => true
  }

  function Write(a: Atom): (bytes: seq<byte>)
    requires Writable(a)
    ensures |bytes| == HeaderSize(a.form) + |a.body|
  {
    match a.form
    case Compact => BigEndian(|a.body| + 8) + a.kind + a.body
    case Large => BigEndian(1) + a.kind + BigEndian8(|a.body| + 16) + a.body
    case ToEnd => BigEndian(0) + a.kind + a.body
  }

  /** Only the last box of a list may run to its end. */
  ghost predicate AllWritable(atoms: seq<Atom>) {
    forall i :: 0 <= i < |atoms| ==> Writable(atoms[i]) && (atoms[i].form == ToEnd ==> i == |atoms| - 1)
  }

  function WriteAll(atoms: seq<Atom>): seq<byte>
    requires AllWritable(atoms)
  {
    if atoms == [] then [] else Write(atoms[0]) + WriteAll(atoms[1..])
  }

  /** Kind and content, box by box. */
  ghost predicate Holds(payload: seq<byte>, boxes: seq<Box>, atoms: seq<Atom>) {
    && |boxes| == |atoms|
    && forall i :: 0 <= i < |boxes| ==>
      && boxes[i].payloadStart <= boxes[i].end <= |payload|
      && boxes[i].kind == atoms[i].kind && payload[boxes[i].payloadStart..boxes[i].end] == atoms[i].body
  }

  /**
   Reading undoes writing, wherever the list stands in a file and however each size is stated: kinds and
   contents come back, in order.
   */
  lemma BoxListRoundTrip(before: seq<byte>, atoms: seq<Atom>, after: seq<byte>)
    requires AllWritable(atoms)
    ensures var payload := before + WriteAll(atoms) + after;
      var boxes := BoxesOf(payload, |before|, |before| + |WriteAll(atoms)|);
      boxes.Some? && Holds(payload, boxes.value, atoms)
  {
    hide Tiles, Holds, WriteAll, AllWritable;
    var boxes := WrittenTiling(before, atoms, after);
    BoxesAreThese(before + WriteAll(atoms) + after, boxes, |before|, |before| + |WriteAll(atoms)|);
  }

  lemma {:induction false} WrittenTiling(before: seq<byte>, atoms: seq<Atom>, after: seq<byte>) returns (boxes: seq<Box>)
    requires AllWritable(atoms)
    ensures var payload := before + WriteAll(atoms) + after;
      && Tiles(payload, boxes, |before|, |before| + |WriteAll(atoms)|)
      && Holds(payload, boxes, atoms)
    decreases |atoms|
  {
    hide Write, IsBoxAt, Writable;
    if atoms == [] {
      boxes := [];
    } else {
      var payload := before + WriteAll(atoms) + after;
      var a := atoms[0];
      var rest := WrittenTiling(before + Write(a), atoms[1..], after);
      assert before + Write(a) + WriteAll(atoms[1..]) + after == payload;
      var box := Box(a.kind, |before| + HeaderSize(a.form), |before| + |Write(a)|);
      FirstBox(before, a, WriteAll(atoms[1..]) , after);
      assert before + (Write(a) + WriteAll(atoms[1..])) + after == payload;
      boxes := [box] + rest;
      assert boxes[1..] == rest;
    }
  }

  lemma FirstBox(before: seq<byte>, a: Atom, others: seq<byte>, after: seq<byte>)
    requires Writable(a) && (a.form == ToEnd ==> others == [])
    ensures var payload := before + (Write(a) + others) + after;
      var box := Box(a.kind, |before| + HeaderSize(a.form), |before| + |Write(a)|);
      && IsBoxAt(payload, |before|, |before| + |Write(a)| + |others|, box)
      && payload[box.payloadStart..box.end] == a.body
  {
    hide BigEndian, FromBigEndian, BigEndian8, FromBigEndian8, Write;
    var payload := before + (Write(a) + others) + after;
    var at := |before|;
    var w := Write(a);
    WriteParts(a);
    Inside(before, w, others, after, HeaderSize(a.form), |w|);
    Inside(before, w, others, after, 4, 8);
    Inside(before, w, others, after, 0, 4);
    match a.form
    case Compact => BigEndianRoundTrip(|a.body| + 8);
    case Large =>
      BigEndianRoundTrip(1);
      BigEndian8RoundTrip(|a.body| + 16);
      Inside(before, w, others, after, 8, 16);
      assert U64At(payload, at + 8) == |w|;
    case ToEnd => BigEndianRoundTrip(0);
  }

  lemma Inside(before: seq<byte>, w: seq<byte>, others: seq<byte>, after: seq<byte>, i: nat, j: nat)
    requires i <= j <= |w|
    ensures (before + (w + others) + after)[|before| + i..|before| + j] == w[i..j]
  {
  }

  lemma WriteParts(a: Atom)
    requires Writable(a)
    ensures var w := Write(a);
      && w[4..8] == a.kind && w[HeaderSize(a.form)..] == a.body
      && w[0..4] == BigEndian(if a.form == Compact then |w| else if a.form == Large then 1 else 0)
      && (a.form == Large ==> w[8..16] == BigEndian8(|w|))
  {
    hide BigEndian, BigEndian8;
    var w := Write(a);
    match a.form
    case Compact => assert w == BigEndian(|w|) + (a.kind + a.body);
    case Large => assert w == BigEndian(1) + (a.kind + (BigEndian8(|w|) + a.body));
    case ToEnd => assert w == BigEndian(0) + (a.kind + a.body);
  }

  // ----- Time-to-sample table -----

  /** Section 8.6.1.2: run `k` of the table, `(sample_count, sample_delta)` */
  function Run(payload: seq<byte>, box: Box, k: nat): (nat, nat)
    requires box.payloadStart + 16 + 8 * k <= |payload|
  {
    (U32At(payload, box.payloadStart + 8 + 8 * k), U32At(payload, box.payloadStart + 12 + 8 * k))
  }

  predicate HasRuns(payload: seq<byte>, box: Box, n: nat) {
    && box.end <= |payload| && box.payloadStart + 8 + 8 * n <= box.end
    && forall k {:trigger Run(payload, box, k)} :: 0 <= k < n ==>
      Run(payload, box, k).0 > 0 && Run(payload, box, k).1 > 0
  }

  /** The duration of every single sample that the first `n` runs stand for. */
  ghost function Durations(payload: seq<byte>, box: Box, n: nat): seq<nat>
    requires HasRuns(payload, box, n)
  {
    if n == 0 then []
    else Durations(payload, box, n - 1)
         + seq(Run(payload, box, n - 1).0, _ => Run(payload, box, n - 1).1)
  }

  ghost function Sum(xs: seq<nat>): nat {
    if xs == [] then 0 else Sum(xs[..|xs| - 1]) + xs[|xs| - 1]
  }

  lemma {:induction false} SumConcat(xs: seq<nat>, ys: seq<nat>)
    ensures Sum(xs + ys) == Sum(xs) + Sum(ys)
  {
    if ys == [] {
      assert xs + ys == xs;
    } else {
      assert (xs + ys)[..|xs + ys| - 1] == xs + ys[..|ys| - 1];
      SumConcat(xs, ys[..|ys| - 1]);
    }
  }

  lemma {:induction false} SumBetween(xs: seq<nat>, lo: nat, hi: nat)
    requires forall x :: x in xs ==> lo <= x <= hi
    ensures |xs| * lo <= Sum(xs) <= |xs| * hi
  {
    if xs != [] {
      var n := |xs| - 1;
      assert xs[n] in xs;
      assert forall x :: x in xs[..n] ==> x in xs;
      SumBetween(xs[..n], lo, hi);
      OneMore(n, lo);
      OneMore(n, hi);
    }
  }

  lemma OneMore(n: nat, k: nat)
    ensures (n + 1) * k == n * k + k
  {
  }

  lemma RunAdds(payload: seq<byte>, box: Box, n: nat)
    requires n > 0 && HasRuns(payload, box, n)
    ensures var (c, d) := Run(payload, box, n - 1);
      && |Durations(payload, box, n)| == |Durations(payload, box, n - 1)| + c
      && Sum(Durations(payload, box, n)) == Sum(Durations(payload, box, n - 1)) + c * d
  {
    hide Run;
    var (c, d) := Run(payload, box, n - 1);
    var run := seq(c, _ => d);
    SumConcat(Durations(payload, box, n - 1), run);
    SumBetween(run, d, d);
  }

  lemma SomeDuration(payload: seq<byte>, box: Box, n: nat)
    requires HasRuns(payload, box, n) && n > 0
    ensures |Durations(payload, box, n)| > 0 && Sum(Durations(payload, box, n)) > 0
  {
    hide Run;
    RunAdds(payload, box, n);
    var (c, d) := Run(payload, box, n - 1);
    assert c * d > 0;
  }

  /** When `_fps_from_stts` answers: the announced runs are all there, none is empty, and there is one. */
  ghost predicate HasTable(payload: seq<byte>, box: Box) {
    && box.end <= |payload| && box.payloadStart + 8 <= box.end
    && U32At(payload, box.payloadStart + 4) > 0 && HasRuns(payload, box, U32At(payload, box.payloadStart + 4))
  }

  ghost function SampleDurations(payload: seq<byte>, box: Box): seq<nat>
    requires HasTable(payload, box)
  {
    Durations(payload, box, U32At(payload, box.payloadStart + 4))
  }

  /** `_fps_from_stts`: the number of samples over the sum of their durations. */
  method FpsFromStts(payload: seq<byte>, box: Box, timeScale: nat) returns (fps: Option<real>)
    requires box.payloadStart <= box.end <= |payload|
    ensures fps.Some? <==> HasTable(payload, box) && timeScale > 0
    ensures fps.Some? ==>
      var ds := SampleDurations(payload, box);
      Sum(ds) > 0 && fps.value == (|ds| * timeScale) as real / Sum(ds) as real
  {
    hide U32At;
    if box.end - box.payloadStart < 8 {
      return None;
    }
    var entryCount := U32At(payload, box.payloadStart + 4);
    var offset := box.payloadStart + 8;
    var totalSamples, totalTicks := 0, 0;
    for i := 0 to entryCount
      invariant offset == box.payloadStart + 8 + 8 * i && HasRuns(payload, box, i)
      invariant totalSamples == |Durations(payload, box, i)| && totalTicks == Sum(Durations(payload, box, i))
    {
      if box.end - offset < 8 {
        return None;
      }
      var sampleCount, sampleDelta := U32At(payload, offset), U32At(payload, offset + 4);
      assert Run(payload, box, i) == (sampleCount, sampleDelta);
      offset := offset + 8;
      if sampleCount == 0 || sampleDelta == 0 {
        return None;
      }
      assert HasRuns(payload, box, i + 1);
      RunAdds(payload, box, i + 1);
      totalSamples := totalSamples + sampleCount;
      totalTicks := totalTicks + sampleCount * sampleDelta;
    }
    if totalSamples == 0 || totalTicks == 0 || timeScale == 0 {
      if entryCount > 0 {
        SomeDuration(payload, box, entryCount);
      }
      return None;
    }
    return Some((totalSamples * timeScale) as real / totalTicks as real);
  }

  /** The average rate lies between the rate of the longest and the rate of the shortest sample. */
  lemma FpsIsBetween(ds: seq<nat>, timeScale: nat, lo: nat, hi: nat)
    requires ds != [] && timeScale > 0 && 0 < lo && forall d :: d in ds ==> lo <= d <= hi
    ensures Sum(ds) > 0 && hi > 0
    ensures timeScale as real / hi as real <= (|ds| * timeScale) as real / Sum(ds) as real <= timeScale as real / lo as real
  {
    assert ds[0] in ds;
    SumBetween(ds, lo, hi);
    assert |ds| * lo > 0;
    Scale(timeScale, Sum(ds), |ds|, hi);
    Scale(timeScale, |ds| * lo, 1, Sum(ds));
    assert timeScale * (|ds| * lo) == |ds| * timeScale * lo;
    QuotientsOrdered(timeScale, hi, |ds| * timeScale, Sum(ds));
    QuotientsOrdered(|ds| * timeScale, Sum(ds), timeScale, lo);
  }

  lemma Scale(k: nat, x: nat, m: nat, n: nat)
    requires x <= m * n
    ensures k * x <= m * k * n
  {
    assert k * x <= k * (m * n);
    assert k * (m * n) == m * k * n;
  }

  lemma QuotientsOrdered(a: nat, b: nat, c: nat, d: nat)
    requires b > 0 && d > 0 && a * d <= c * b
    ensures a as real / b as real <= c as real / d as real
  {
    CrossProduct(a as real, b as real, c as real, d as real);
  }

  lemma CrossProduct(a: real, b: real, c: real, d: real)
    requires b > 0.0 && d > 0.0 && a * d <= c * b
    ensures a / b <= c / d
  {
    var x, y := a / b, c / d;
    assert x * b == a && y * d == c;
    if x > y {
      Larger(x - y, b, d);
      Factor(x, y, b, d);
    }
  }

  lemma Larger(gap: real, b: real, d: real)
    requires gap > 0.0 && b > 0.0 && d > 0.0
    ensures gap * b * d > 0.0
  {
    assert gap * b > 0.0;
  }

  lemma Factor(x: real, y: real, b: real, d: real)
    ensures (x - y) * b * d == (x * b) * d - (y * d) * b
  {
  }

  // ----- The probe -----

  /** Python's `round` of `n / d` */
  function Rounded(n: nat, d: nat): nat
    requires d > 0
  {
    var q, rest := n / d, n % d;
    if 2 * rest < d then q else if 2 * rest > d then q + 1 else q + q % 2
  }

  /** To the nearest integer, halves to the even one. */
  lemma RoundedIsNearest(n: nat, d: nat)
    requires d > 0
    ensures var product := Rounded(n, d) * d;
      && 2 * n - d <= 2 * product <= 2 * n + d
      && (2 * product == 2 * n + d || 2 * product == 2 * n - d ==> Rounded(n, d) % 2 == 0)
  {
    var q, rest := n / d, n % d;
    assert n == q * d + rest;
    assert (q + 1) * d == q * d + d;
    var r := Rounded(n, d);
    assert r == q || r == q + 1;
    assert r * d == if r == q then q * d else q * d + d;
  }

  /** `_u32`, `_u64`: nothing when the field does not end inside the box */
  function U32In(payload: seq<byte>, offset: nat, end: nat): Option<nat>
    requires end <= |payload|
  {
    if offset + 4 > end then None else Some(U32At(payload, offset))
  }

  function U64In(payload: seq<byte>, offset: nat, end: nat): Option<nat>
    requires end <= |payload|
  {
    if offset + 8 > end then None else Some(U64At(payload, offset))
  }

  /** `_duration_from_mvhd` and `_duration_from_mdhd`: time scale and duration, both positive */
  function DurationOf(payload: seq<byte>, box: Box): (r: Option<(nat, nat)>)
    requires box.end <= |payload|
    ensures r.Some? ==> r.value.0 > 0 && r.value.1 > 0
  {
    if box.payloadStart >= box.end then None
    else
      var at, version := box.payloadStart, payload[box.payloadStart];
      if version > 1 then None
      else
        var scale := U32In(payload, at + if version == 0 then 12 else 20, box.end);
        var duration := if version == 0 then U32In(payload, at + 16, box.end) else U64In(payload, at + 24, box.end);
        if scale.None? || duration.None? || scale.value == 0 || duration.value == 0 then None
        else Some((scale.value, duration.value))
  }

  /** `_video_dimensions_from_tkhd`: 16.16 fixed point, rounded */
  function DimensionsOf(payload: seq<byte>, box: Box): Option<(nat, nat)>
    requires box.end <= |payload|
  {
    if box.payloadStart >= box.end then None
    else
      var at, version := box.payloadStart, payload[box.payloadStart];
      if version > 1 then None
      else
        var width := U32In(payload, at + if version == 0 then 76 else 88, box.end);
        var height := U32In(payload, at + if version == 0 then 80 else 92, box.end);
        if width.None? || height.None? || width.value == 0 || height.value == 0 then None
        else Some((Rounded(width.value, 65536), Rounded(height.value, 65536)))
  }

  const VIDE: Kind := [118, 105, 100, 101]
  const MOOV: Kind := [109, 111, 111, 118]
  const MVHD: Kind := [109, 118, 104, 100]
  const TRAK: Kind := [116, 114, 97, 107]
  const TKHD: Kind := [116, 107, 104, 100]
  const MDIA: Kind := [109, 100, 105, 97]
  const HDLR: Kind := [104, 100, 108, 114]
  const MDHD: Kind := [109, 100, 104, 100]
  const MINF: Kind := [109, 105, 110, 102]
  const STBL: Kind := [115, 116, 98, 108]
  const STTS: Kind := [115, 116, 116, 115]

  predicate IsVideoHandler(payload: seq<byte>, box: Box)
    requires box.end <= |payload|
  {
    box.payloadStart + 12 <= box.end && payload[box.payloadStart + 8..box.payloadStart + 12] == VIDE
  }

  function OfKind(boxes: seq<Box>, kind: Kind): seq<Box> {
    if boxes == [] then []
    else (if boxes[0].kind == kind then [boxes[0]] else []) + OfKind(boxes[1..], kind)
  }

  /** The first child box of a kind: `None` when the list is malformed, `Some(None)` when there is no such child. */
  ghost function ChildOf(payload: seq<byte>, parent: Box, kind: Kind): (child: Option<Option<Box>>)
    requires parent.end <= |payload|
    ensures child.Some? && child.value.Some? ==> child.value.value.payloadStart <= child.value.value.end <= parent.end
  {
    var boxes := BoxesOf(payload, parent.payloadStart, parent.end);
    if boxes.None? then None
    else
      BoxesAdvance(payload, boxes.value, parent.payloadStart, parent.end);
      OfKindStays(boxes.value, kind);
      Some(First(OfKind(boxes.value, kind)))
  }

  function First(boxes: seq<Box>): Option<Box> {
    if boxes == [] then None else Some(boxes[0])
  }

  lemma {:induction false} OfKindStays(boxes: seq<Box>, kind: Kind)
    ensures forall b :: b in OfKind(boxes, kind) <==> b in boxes && b.kind == kind
  {
    if boxes != [] {
      OfKindStays(boxes[1..], kind);
    }
  }

  /** `_mp4_child` */
  method Child(payload: seq<byte>, parent: Box, kind: Kind) returns (child: Option<Option<Box>>)
    requires parent.payloadStart <= parent.end <= |payload|
    ensures child == ChildOf(payload, parent, kind)
  {
    hide BoxesOf, Tiles, OfKind;
    var boxes := ReadBoxes(payload, parent.payloadStart, parent.end);
    if boxes.None? {
      return None;
    }
    return Some(First(OfKind(boxes.value, kind)));
  }

  datatype Track = Track(width: nat, height: nat, fps: real)

  datatype Media = Media(durationMs: nat, width: nat, height: nat, fps: real)

  ghost function FpsOf(payload: seq<byte>, stts: Box, timeScale: nat): Option<real>
    requires stts.end <= |payload|
  {
    if HasTable(payload, stts) && timeScale > 0 then
      SomeDuration(payload, stts, U32At(payload, stts.payloadStart + 4));
      var ds := SampleDurations(payload, stts);
      Some((|ds| * timeScale) as real / Sum(ds) as real)
    else None
  }

  /** One track: `None` for a malformed one, `Some(None)` for one that is passed over. */
  ghost function TrackOf(payload: seq<byte>, trak: Box): Option<Option<Track>>
    requires trak.end <= |payload|
  {
    hide HasTable, U32At, BoxesOf, OfKind, Tiles;
    var tkhd, mdia := ChildOf(payload, trak, TKHD), ChildOf(payload, trak, MDIA);
    if tkhd.None? || mdia.None? then None
    else if tkhd.value.None? || mdia.value.None? then Some(None)
    else
      var hdlr := ChildOf(payload, mdia.value.value, HDLR);
      var mdhd := ChildOf(payload, mdia.value.value, MDHD);
      var minf := ChildOf(payload, mdia.value.value, MINF);
      if hdlr.None? || mdhd.None? || minf.None? then None
      else
        var stbl := if minf.value.Some? then ChildOf(payload, minf.value.value, STBL) else Some(None);
        if stbl.None? then None
        else
          var stts := if stbl.value.Some? then ChildOf(payload, stbl.value.value, STTS) else Some(None);
          if stts.None? then None
          else if hdlr.value.None? || mdhd.value.None? || stts.value.None?
                  || !IsVideoHandler(payload, hdlr.value.value) then Some(None)
          else VideoOf(payload, tkhd.value.value, mdhd.value.value, stts.value.value)
  }

  ghost function VideoOf(payload: seq<byte>, tkhd: Box, mdhd: Box, stts: Box): Option<Option<Track>>
    requires tkhd.end <= |payload| && mdhd.end <= |payload| && stts.end <= |payload|
  {
    var size, timing := DimensionsOf(payload, tkhd), DurationOf(payload, mdhd);
    if size.None? || timing.None? then None
    else
      var fps := FpsOf(payload, stts, timing.value.0);
      if fps.None? then None else Some(Some(Track(size.value.0, size.value.1, fps.value)))
  }

  /** The loop body of `probe_mp4_media` */
  method ReadTrack(payload: seq<byte>, trak: Box) returns (track: Option<Option<Track>>)
    requires trak.payloadStart <= trak.end <= |payload|
    ensures track == TrackOf(payload, trak)
  {
    hide HasTable, U32At, BoxesOf, OfKind, Tiles, ChildOf, DimensionsOf, DurationOf;
    var tkhd := Child(payload, trak, TKHD);
    if tkhd.None? {
      return None;
    }
    var mdia := Child(payload, trak, MDIA);
    if mdia.None? {
      return None;
    }
    if tkhd.value.None? || mdia.value.None? {
      return Some(None);
    }
    var hdlr := Child(payload, mdia.value.value, HDLR);
    var mdhd := Child(payload, mdia.value.value, MDHD);
    var minf := Child(payload, mdia.value.value, MINF);
    if hdlr.None? || mdhd.None? || minf.None? {
      return None;
    }
    var stbl: Option<Option<Box>> := Some(None);
    if minf.value.Some? {
      stbl := Child(payload, minf.value.value, STBL);
      if stbl.None? {
        return None;
      }
    }
    var stts: Option<Option<Box>> := Some(None);
    if stbl.value.Some? {
      stts := Child(payload, stbl.value.value, STTS);
      if stts.None? {
        return None;
      }
    }
    if hdlr.value.None? || mdhd.value.None? || stts.value.None? || !IsVideoHandler(payload, hdlr.value.value) {
      return Some(None);
    }
    var size, timing := DimensionsOf(payload, tkhd.value.value), DurationOf(payload, mdhd.value.value);
    if size.None? || timing.None? {
      return None;
    }
    var fps := FpsFromStts(payload, stts.value.value, timing.value.0);
    if fps.None? {
      return None;
    }
    return Some(Some(Track(size.value.0, size.value.1, fps.value)));
  }

  /** The video tracks of a movie, in file order; nothing if any track is malformed. */
  ghost function VideoTracks(payload: seq<byte>, traks: seq<Box>): Option<seq<Track>>
    requires forall b :: b in traks ==> b.end <= |payload|
  {
    if traks == [] then Some([])
    else
      var n := |traks| - 1;
      var earlier, last := VideoTracks(payload, traks[..n]), TrackOf(payload, traks[n]);
      if earlier.None? || last.None? then None
      else Some(earlier.value + if last.value.Some? then [last.value.value] else [])
  }

  lemma OneMoreTrack(payload: seq<byte>, traks: seq<Box>, i: nat)
    requires i < |traks| && forall b :: b in traks ==> b.end <= |payload|
    ensures var earlier, last := VideoTracks(payload, traks[..i]), TrackOf(payload, traks[i]);
      VideoTracks(payload, traks[..i + 1])
      == if earlier.None? || last.None? then None
         else Some(earlier.value + if last.value.Some? then [last.value.value] else [])
  {
    hide TrackOf;
    assert traks[..i + 1][..i] == traks[..i];
    assert traks[..i + 1][i] == traks[i];
  }

  lemma {:induction false} OneBadTrack(payload: seq<byte>, traks: seq<Box>, i: nat)
    requires i < |traks| && (forall b :: b in traks ==> b.end <= |payload|) && TrackOf(payload, traks[i]).None?
    ensures VideoTracks(payload, traks).None?
  {
    hide TrackOf;
    if i < |traks| - 1 {
      OneBadTrack(payload, traks[..|traks| - 1], i);
    }
  }

  /** The parts that `probe_mp4_media` needs: the first `moov`, its first `mvhd`, and all its video tracks. */
  ghost predicate Parts(payload: seq<byte>, moov: Box, mvhd: Box, tracks: seq<Track>) {
    hide OfKind, ChildOf, BoxesOf, DurationOf, TracksOf;
    && moov.end <= |payload| && mvhd.end <= |payload|
    && BoxesOf(payload, 0, |payload|).Some?
    && First(OfKind(BoxesOf(payload, 0, |payload|).value, MOOV)) == Some(moov)
    && ChildOf(payload, moov, MVHD) == Some(Some(mvhd))
    && DurationOf(payload, mvhd).Some?
    && TracksOf(payload, moov) == Some(tracks)
  }

  /** The movie: its length to the nearest millisecond, and the first of its largest video tracks. */
  ghost predicate IsMovie(payload: seq<byte>, m: Media) {
    hide Parts, DurationOf;
    exists moov: Box, mvhd: Box, tracks: seq<Track>, k: nat ::
      Parts(payload, moov, mvhd, tracks) && mvhd.end <= |payload| && k < |tracks| && Largest(tracks, k)
      && DurationOf(payload, mvhd).Some?
      && m == MediaOf(DurationOf(payload, mvhd).value, tracks[k])
  }

  function MediaOf(timing: (nat, nat), t: Track): Media
    requires timing.0 > 0
  {
    Media(Rounded(timing.1 * 1000, timing.0), t.width, t.height, t.fps)
  }

  ghost function TracksOf(payload: seq<byte>, moov: Box): Option<seq<Track>>
    requires moov.end <= |payload|
  {
    var boxes := BoxesOf(payload, moov.payloadStart, moov.end);
    if boxes.None? then None
    else
      BoxesAdvance(payload, boxes.value, moov.payloadStart, moov.end);
      OfKindStays(boxes.value, TRAK);
      VideoTracks(payload, OfKind(boxes.value, TRAK))
  }

  function Area(t: Track): nat { t.width * t.height }

  /** Python's `max` keeps the first of equals. */
  ghost predicate Largest(tracks: seq<Track>, k: nat)
    requires k < |tracks|
  {
    && (forall j :: 0 <= j < |tracks| ==> Area(tracks[j]) <= Area(tracks[k]))
    && forall j :: 0 <= j < k ==> Area(tracks[j]) < Area(tracks[k])
  }

  method LargestTrack(tracks: seq<Track>) returns (k: nat)
    requires tracks != []
    ensures k < |tracks| && Largest(tracks, k)
  {
    hide Area;
    k := 0;
    for i := 1 to |tracks|
      invariant k < i
      invariant forall j :: 0 <= j < i ==> Area(tracks[j]) <= Area(tracks[k])
      invariant forall j :: 0 <= j < k ==> Area(tracks[j]) < Area(tracks[k])
    {
      if Area(tracks[i]) > Area(tracks[k]) {
        k := i;
      }
    }
  }

  lemma LargestIsUnique(tracks: seq<Track>, k: nat, j: nat)
    requires k < |tracks| && j < |tracks| && Largest(tracks, k) && Largest(tracks, j)
    ensures k == j
  {
    hide Area;
    assert Area(tracks[j]) <= Area(tracks[k]) && Area(tracks[k]) <= Area(tracks[j]);
    assert !(k < j) && !(j < k);
  }

  lemma PartsAreUnique(payload: seq<byte>, moov: Box, mvhd: Box, tracks: seq<Track>, moov': Box, mvhd': Box, tracks': seq<Track>)
    requires Parts(payload, moov, mvhd, tracks) && Parts(payload, moov', mvhd', tracks')
    ensures moov == moov' && mvhd == mvhd' && tracks == tracks'
  {
    hide OfKind, ChildOf, BoxesOf, DurationOf, TracksOf;
  }

  /** `probe_mp4_media` after the file is read: there is at most one answer, and it finds it. */
  method ProbeMp4Media(payload: seq<byte>) returns (probe: Option<Media>)
    ensures probe.Some? ==> IsMovie(payload, probe.value)
    ensures probe.None? ==> forall m :: !IsMovie(payload, m)
  {
    hide OfKind, ChildOf, BoxesOf, DurationOf, TrackOf, Tiles, Rounded, Largest;
    var roots := ReadBoxes(payload, 0, |payload|);
    if roots.None? {
      return None;
    }
    var moov := First(OfKind(roots.value, MOOV));
    if moov.None? {
      return None;
    }
    OfKindStays(roots.value, MOOV);
    BoxesAdvance(payload, roots.value, 0, |payload|);
    var mvhd := Child(payload, moov.value, MVHD);
    if mvhd.None? || mvhd.value.None? {
      return None;
    }
    var timing := DurationOf(payload, mvhd.value.value);
    if timing.None? {
      return None;
    }
    var candidates := ReadTracks(payload, moov.value);
    if candidates.None? || candidates.value == [] {
      return None;
    }
    var k := LargestTrack(candidates.value);
    assert Parts(payload, moov.value, mvhd.value.value, candidates.value);
    return Some(MediaOf(timing.value, candidates.value[k]));
  }

  /** The loop of `probe_mp4_media` over `_mp4_children` */
  method ReadTracks(payload: seq<byte>, moov: Box) returns (candidates: Option<seq<Track>>)
    requires moov.payloadStart <= moov.end <= |payload|
    ensures candidates == TracksOf(payload, moov)
  {
    hide OfKind, BoxesOf, TrackOf, Tiles;
    var boxes := ReadBoxes(payload, moov.payloadStart, moov.end);
    if boxes.None? {
      return None;
    }
    BoxesAdvance(payload, boxes.value, moov.payloadStart, moov.end);
    OfKindStays(boxes.value, TRAK);
    var traks := OfKind(boxes.value, TRAK);
    var found: seq<Track> := [];
    for i := 0 to |traks|
      invariant VideoTracks(payload, traks[..i]) == Some(found)
    {
      OneMoreTrack(payload, traks, i);
      var track := ReadTrack(payload, traks[i]);
      if track.None? {
        OneBadTrack(payload, traks, i);
        return None;
      }
      found := found + if track.value.Some? then [track.value.value] else [];
    }
    assert traks[..|traks|] == traks;
    return Some(found);
  }

  /** There is only one answer to give. */
  lemma MovieIsUnique(payload: seq<byte>, m: Media, m': Media)
    requires IsMovie(payload, m) && IsMovie(payload, m')
    ensures m == m'
  {
    hide Parts, DurationOf, Largest, Rounded;
    var moov: Box, mvhd: Box, tracks: seq<Track>, k: nat :|
      Parts(payload, moov, mvhd, tracks) && mvhd.end <= |payload| && k < |tracks| && Largest(tracks, k)
      && DurationOf(payload, mvhd).Some? && m == MediaOf(DurationOf(payload, mvhd).value, tracks[k]);
    var moov': Box, mvhd': Box, tracks': seq<Track>, k': nat :|
      Parts(payload, moov', mvhd', tracks') && mvhd'.end <= |payload| && k' < |tracks'| && Largest(tracks', k')
      && DurationOf(payload, mvhd').Some? && m' == MediaOf(DurationOf(payload, mvhd').value, tracks'[k']);
    PartsAreUnique(payload, moov, mvhd, tracks, moov', mvhd', tracks');
    LargestIsUnique(tracks, k, k');
  }
}
