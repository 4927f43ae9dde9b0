/** Points, rings and polygon bodies: what is read is what was encoded, in either byte order. */
module CountryProofs {
  import opened Sequences
  import opened Bytes
  import opened CountryModel

  /** x is stored in the data at an offset. */
  ghost predicate At(data: seq<byte>, offset: nat, x: seq<byte>) {
    offset + |x| <= |data| && data[offset..offset + |x|] == x
  }

  lemma {:induction false} AtSplit(data: seq<byte>, offset: nat, a: seq<byte>, b: seq<byte>)
    ensures At(data, offset, a + b) <==> At(data, offset, a) && At(data, offset + |a|, b)
  {
    if offset + |a| + |b| <= |data| {
      var d := data[offset..offset + |a| + |b|];
      assert d == data[offset..offset + |a|] + data[offset + |a|..offset + |a| + |b|];
      assert d[..|a|] == data[offset..offset + |a|];
      assert d[|a|..] == data[offset + |a|..offset + |a| + |b|];
      assert (a + b)[..|a|] == a && (a + b)[|a|..] == b;
    }
  }

  lemma {:induction false} AtSuffix(data: seq<byte>, start: nat, offset: nat, x: seq<byte>)
    requires start <= |data|
    ensures At(data, start + offset, x) <==> At(data[start..], offset, x)
  {
    if start + offset + |x| <= |data| {
      assert data[start..][offset..offset + |x|] == data[start + offset..start + offset + |x|];
    }
  }

  lemma {:induction false} AtNext(
    data: seq<byte>, offset: nat, all: seq<byte>, first: seq<byte>, rest: seq<byte>, next: nat)
    requires At(data, offset, all) && all == first + rest && next == offset + |first|
    ensures At(data, offset, first) && At(data, next, rest) && offset + |all| == next + |rest|
  {
    AtSplit(data, offset, first, rest);
  }

  lemma {:induction false} ReadDigits(data: seq<byte>, offset: nat, v: nat, n: nat, le: bool)
    requires At(data, offset, Digits(v, n, le)) && v < Power(n)
    ensures Read(data, offset, n, le) == v
  {
    ValueOfDigits(v, n, le);
  }

  lemma {:induction false} CountIsRead(data: seq<byte>, offset: nat, v: nat, le: bool)
    requires At(data, offset, Digits(v, 4, le)) && Count32(v)
    ensures Read(data, offset, 4, le) == v
  {
    Powers();
    ReadDigits(data, offset, v, 4, le);
  }

  lemma {:induction false} DigitsRead(data: seq<byte>, offset: nat, n: nat, le: bool)
    requires offset + n <= |data|
    ensures At(data, offset, Digits(Read(data, offset, n, le), n, le))
    ensures Read(data, offset, n, le) < Power(n)
  {
    DigitsOfValue(data[offset..offset + n], le);
    ValueBound(data[offset..offset + n], le);
  }

  // ---------------------------------------------------------------- points

  lemma {:induction false} PointIsRead(data: seq<byte>, offset: nat, p: Point, le: bool)
    requires At(data, offset, EncodePoint(p, le))
    ensures ReadPoint(data, offset, le) == p
  {
    AtSplit(data, offset, Digits(p.lon, 8, le), Digits(p.lat, 8, le));
    Powers();
    ReadDigits(data, offset, p.lon, 8, le);
    ReadDigits(data, offset + 8, p.lat, 8, le);
  }

  lemma {:induction false} PointWasEncoded(data: seq<byte>, offset: nat, le: bool)
    requires offset + 16 <= |data|
    ensures At(data, offset, EncodePoint(ReadPoint(data, offset, le), le))
  {
    DigitsRead(data, offset, 8, le);
    DigitsRead(data, offset + 8, 8, le);
    var p := ReadPoint(data, offset, le);
    AtSplit(data, offset, Digits(p.lon, 8, le), Digits(p.lat, 8, le));
  }

  lemma {:induction false} ReadPointsStep(data: seq<byte>, offset: nat, n: nat, le: bool, next: nat, m: nat)
    requires n == m + 1 && next == Skip(offset, 16) && offset + PointBytes(n) <= |data|
    ensures ReadPoints(data, offset, n, le) == [ReadPoint(data, offset, le)] + ReadPoints(data, next, m, le)
  {
  }

  lemma {:induction false} EncodePointsStep(p: Point, rest: Ring, le: bool)
    ensures EncodePoints([p] + rest, le) == EncodePoint(p, le) + EncodePoints(rest, le)
  {
    assert ([p] + rest)[1..] == rest;
  }

  lemma {:induction false} PointsAreRead(data: seq<byte>, offset: nat, ring: Ring, le: bool)
    requires At(data, offset, EncodePoints(ring, le))
    ensures ReadPoints(data, offset, |ring|, le) == ring
    decreases |ring|
  {
    if ring != [] {
      AtSplit(data, offset, EncodePoint(ring[0], le), EncodePoints(ring[1..], le));
      PointIsRead(data, offset, ring[0], le);
      var next := Skip(offset, 16);
      PointsAreRead(data, next, ring[1..], le);
      ReadPointsStep(data, offset, |ring|, le, next, |ring[1..]|);
    }
  }

  lemma {:induction false} PointsWereEncoded(data: seq<byte>, offset: nat, n: nat, le: bool)
    requires offset + PointBytes(n) <= |data|
    ensures At(data, offset, EncodePoints(ReadPoints(data, offset, n, le), le))
    decreases n
  {
    if n > 0 {
      var (next, m) := (Skip(offset, 16), n - 1);
      var (p, rest) := (ReadPoint(data, offset, le), ReadPoints(data, next, m, le));
      PointWasEncoded(data, offset, le);
      PointsWereEncoded(data, next, m, le);
      ReadPointsStep(data, offset, n, le, next, m);
      EncodePointsStep(p, rest, le);
      AtJoin(data, offset, EncodePoints([p] + rest, le), EncodePoint(p, le), EncodePoints(rest, le), next);
    }
  }

  // ---------------------------------------------------------------- rings

  lemma {:induction false} ReadRingsStep(
    data: seq<byte>, offset: nat, n: nat, le: bool, done: seq<Ring>, start: nat, points: nat, next: nat, m: nat)
    requires n == m + 1 && start == Skip(offset, COUNT) <= |data| && points == Read(data, offset, COUNT, le)
    requires next == Skip(start, PointBytes(points)) <= |data|
    ensures ReadRings(data, offset, n, le, done)
         == ReadRings(data, next, m, le, done + [ReadPoints(data, start, points, le)])
  {
  }

  lemma {:induction false} EncodeRingsStep(ring: Ring, rest: seq<Ring>, le: bool)
    ensures EncodeRings([ring] + rest, le) == EncodeRing(ring, le) + EncodeRings(rest, le)
  {
    assert ([ring] + rest)[1..] == rest;
  }

  lemma {:induction false} RingIsRead(data: seq<byte>, offset: nat, ring: Ring, start: nat, le: bool)
    requires At(data, offset, EncodeRing(ring, le)) && Count32(|ring|) && start == Skip(offset, COUNT)
    ensures start <= |data| && Read(data, offset, COUNT, le) == |ring|
    ensures Skip(start, PointBytes(|ring|)) == offset + |EncodeRing(ring, le)| <= |data|
    ensures ReadPoints(data, start, |ring|, le) == ring
  {
    AtSplit(data, offset, Digits(|ring|, 4, le), EncodePoints(ring, le));
    CountIsRead(data, offset, |ring|, le);
    PointsAreRead(data, start, ring, le);
  }

  lemma {:induction false} RingStep(
    data: seq<byte>, offset: nat, ring: Ring, next: nat, le: bool, done: seq<Ring>, n: nat, m: nat)
    requires At(data, offset, EncodeRing(ring, le)) && Count32(|ring|) && next == offset + |EncodeRing(ring, le)|
    requires n == m + 1
    ensures ReadRings(data, offset, n, le, done) == ReadRings(data, next, m, le, done + [ring])
  {
    var start := Skip(offset, COUNT);
    RingIsRead(data, offset, ring, start, le);
    ReadRingsStep(data, offset, n, le, done, start, |ring|, next, m);
  }

  lemma {:induction false} RingsAreRead(data: seq<byte>, offset: nat, rings: seq<Ring>, le: bool, done: seq<Ring>)
    requires At(data, offset, EncodeRings(rings, le))
    requires forall i :: 0 <= i < |rings| ==> Count32(|rings[i]|)
    ensures var r := ReadRings(data, offset, |rings|, le, done);
            && r.result.Ok? && r.result.position == offset + |EncodeRings(rings, le)|
            && r.rings == done + rings
    decreases |rings|
  {
    if rings == [] {
      assert done + rings == done;
    } else {
      var (ring, rest) := (rings[0], rings[1..]);
      assert rings == [ring] + rest;
      var next := offset + |EncodeRing(ring, le)|;
      EncodeRingsStep(ring, rest, le);
      AtNext(data, offset, EncodeRings(rings, le), EncodeRing(ring, le), EncodeRings(rest, le), next);
      RingStep(data, offset, ring, next, le, done, |rings|, |rest|);
      RingsAreRead(data, next, rest, le, done + [ring]);
      Assoc(done, [ring], rest);
    }
  }

  lemma {:induction false} RingsWereEncoded(data: seq<byte>, offset: nat, n: nat, le: bool, done: seq<Ring>)
    returns (rings: seq<Ring>)
    requires offset <= |data| && ReadRings(data, offset, n, le, done).result.Ok?
    ensures var r := ReadRings(data, offset, n, le, done);
            && r.result.position == offset + |EncodeRings(rings, le)|
            && r.rings == done + rings
    ensures |rings| == n && At(data, offset, EncodeRings(rings, le))
    ensures forall i :: 0 <= i < |rings| ==> Count32(|rings[i]|)
    decreases n
  {
    if n == 0 {
      rings := [];
      assert done + rings == done;
    } else {
      var (points, start, m) := (Read(data, offset, COUNT, le), Skip(offset, COUNT), n - 1);
      var next := Skip(start, PointBytes(points));
      var ring := ReadPoints(data, start, points, le);
      ReadRingsStep(data, offset, n, le, done, start, points, next, m);
      RingWasEncoded(data, offset, points, ring, le);
      var rest := RingsWereEncoded(data, next, m, le, done + [ring]);
      rings := [ring] + rest;
      JoinRings(data, offset, ring, rest, next, le);
      Assoc(done, [ring], rest);
    }
  }

  lemma {:induction false} AtJoin(
    data: seq<byte>, offset: nat, all: seq<byte>, first: seq<byte>, rest: seq<byte>, next: nat)
    requires At(data, offset, first) && At(data, next, rest) && all == first + rest && next == offset + |first|
    ensures At(data, offset, all) && offset + |all| == next + |rest|
  {
    AtSplit(data, offset, first, rest);
  }

  lemma {:induction false} JoinRings(data: seq<byte>, offset: nat, ring: Ring, rest: seq<Ring>, next: nat, le: bool)
    requires At(data, offset, EncodeRing(ring, le)) && next == offset + |EncodeRing(ring, le)|
    requires At(data, next, EncodeRings(rest, le))
    ensures At(data, offset, EncodeRings([ring] + rest, le))
    ensures offset + |EncodeRings([ring] + rest, le)| == next + |EncodeRings(rest, le)|
  {
    EncodeRingsStep(ring, rest, le);
    AtJoin(data, offset, EncodeRings([ring] + rest, le), EncodeRing(ring, le), EncodeRings(rest, le), next);
  }

  lemma {:induction false} RingWasEncoded(data: seq<byte>, offset: nat, points: nat, ring: Ring, le: bool)
    requires offset + COUNT <= |data| && points == Read(data, offset, COUNT, le)
    requires offset + COUNT + PointBytes(points) <= |data|
    requires ring == ReadPoints(data, Skip(offset, COUNT), points, le)
    ensures At(data, offset, EncodeRing(ring, le)) && Count32(|ring|)
    ensures |EncodeRing(ring, le)| == COUNT + PointBytes(points)
  {
    Powers();
    DigitsRead(data, offset, COUNT, le);
    PointsWereEncoded(data, Skip(offset, COUNT), points, le);
    AtSplit(data, offset, Digits(|ring|, 4, le), EncodePoints(ring, le));
  }

  // ---------------------------------------------------------------- polygon bodies

  lemma {:induction false} BodyIsRead(data: seq<byte>, rings: seq<Ring>, le: bool)
    requires At(data, 0, EncodeBody(rings, le)) && RingsFit(rings)
    ensures ReadBody(data, le) == Rings(Ok(|EncodeBody(rings, le)|), rings)
  {
    AtSplit(data, 0, Digits(|rings|, 4, le), EncodeRings(rings, le));
    CountIsRead(data, 0, |rings|, le);
    RingsAreRead(data, COUNT, rings, le, []);
    AddNothing(rings);
  }

  /**
   * A polygon body is accepted exactly if the data starts with the encoding of its rings; the position
   * is where this encoding ends.
   */
  lemma {:induction false} BodyIsExact(data: seq<byte>, le: bool, rings: seq<Ring>, position: nat)
    ensures ReadBody(data, le) == Rings(Ok(position), rings) <==>
            RingsFit(rings) && At(data, 0, EncodeBody(rings, le)) && position == |EncodeBody(rings, le)|
  {
    if RingsFit(rings) && At(data, 0, EncodeBody(rings, le)) {
      BodyIsRead(data, rings, le);
    }
    if ReadBody(data, le) == Rings(Ok(position), rings) {
      BodyWasEncoded(data, le, rings, position);
    }
  }

  lemma {:induction false} BodyWasEncoded(data: seq<byte>, le: bool, rings: seq<Ring>, position: nat)
    requires ReadBody(data, le) == Rings(Ok(position), rings)
    ensures RingsFit(rings) && At(data, 0, EncodeBody(rings, le)) && position == |EncodeBody(rings, le)|
  {
    var n := Read(data, 0, COUNT, le);
    DigitsRead(data, 0, COUNT, le);
    Powers();
    var s := RingsWereEncoded(data, COUNT, n, le, []);
    AddNothing(s);
    AtSplit(data, 0, Digits(|rings|, 4, le), EncodeRings(rings, le));
  }
}
