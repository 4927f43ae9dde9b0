/**
 * How reading fails: what has been read in front of the failure was well-formed, and problem and position
 * say what is wrong with the bytes behind it.
 */
module CountryFailures {
  import opened Sequences
  import opened Bytes
  import opened CountryModel
  import opened CountryProofs
  import opened CountryFiles

  // ---------------------------------------------------------------- rings

  /** The bytes at a position are too few for the number of points, or for as many points. */
  ghost predicate RingBroken(data: seq<byte>, at: nat, le: bool, result: Result) {
    || (result == Failure(MissingPointCount, at) && at <= |data| < at + 4)
    || (result == Failure(MissingPointData, at + 4) && at + 4 <= |data| < at + 4 + 16 * Value(data[at..at + 4], le))
  }

  lemma {:induction false} NoRing(data: seq<byte>, offset: nat, n: nat, le: bool, done: seq<Ring>, r: Rings)
    requires offset <= |data| && n > 0 && r == ReadRings(data, offset, n, le, done)
    requires |data| < offset + COUNT || |data| < offset + COUNT + PointBytes(Read(data, offset, COUNT, le))
    ensures r.rings == done && RingBroken(data, offset, le, r.result)
  {
  }

  lemma {:induction false} RingsFail(data: seq<byte>, offset: nat, n: nat, le: bool, done: seq<Ring>, r: Rings)
    returns (rings: seq<Ring>, at: nat)
    requires offset <= |data| && r == ReadRings(data, offset, n, le, done) && r.result.Failure?
    ensures |rings| < n && At(data, offset, EncodeRings(rings, le)) && at == offset + |EncodeRings(rings, le)|
    ensures r.rings == done + rings && RingBroken(data, at, le, r.result)
    decreases n
  {
    if |data| < offset + COUNT || |data| < offset + COUNT + PointBytes(Read(data, offset, COUNT, le)) {
      rings, at := [], offset;
      NoRing(data, offset, n, le, done, r);
      AddNothing(done);
    } else {
      var (points, start, m) := (Read(data, offset, COUNT, le), Skip(offset, COUNT), n - 1);
      var next := Skip(start, PointBytes(points));
      var ring := ReadPoints(data, start, points, le);
      ReadRingsStep(data, offset, n, le, done, start, points, next, m);
      RingWasEncoded(data, offset, points, ring, le);
      var rest;
      rest, at := RingsFail(data, next, m, le, done + [ring], r);
      rings := [ring] + rest;
      JoinRings(data, offset, ring, rest, next, le);
      Assoc(done, [ring], rest);
    }
  }

  /** The rings of a polygon body can be read up to a position, and the next one cannot. */
  ghost predicate RingsBroken(data: seq<byte>, le: bool, r: Rings, at: nat)
    requires 4 <= |data|
  {
    && |r.rings| < Value(data[0..4], le) && At(data, 4, EncodeRings(r.rings, le))
    && at == 4 + |EncodeRings(r.rings, le)| && RingBroken(data, at, le, r.result)
  }

  /** A polygon body fails at its number of rings or at the ring behind those that could be read. */
  ghost predicate BodyBroken(data: seq<byte>, le: bool, r: Rings) {
    if |data| < 4 then r == Rings(Failure(MissingRingCount, 0), []) else exists at :: RingsBroken(data, le, r, at)
  }

  lemma {:induction false} RingsFailFrom(data: seq<byte>, le: bool, n: nat, start: nat, none: seq<Ring>, r: Rings)
    returns (at: nat)
    requires start <= |data| && none == [] && r == ReadRings(data, start, n, le, none) && r.result.Failure?
    ensures |r.rings| < n && At(data, start, EncodeRings(r.rings, le)) && at == start + |EncodeRings(r.rings, le)|
    ensures RingBroken(data, at, le, r.result)
  {
    var rings;
    rings, at := RingsFail(data, start, n, le, none, r);
    AddNothing(rings);
  }

  lemma {:induction false} BodyFails(data: seq<byte>, le: bool, r: Rings)
    requires r == ReadBody(data, le) && r.result.Failure?
    ensures BodyBroken(data, le, r)
  {
    if |data| >= COUNT {
      var at := RingsFailFrom(data, le, Read(data, 0, COUNT, le), COUNT, [], r);
      assert RingsBroken(data, le, r, at);
    }
  }

  // ---------------------------------------------------------------- geometries

  /** The bytes at a position are too few for a header, that of something else, or followed by a broken body. */
  ghost predicate PartBroken(data: seq<byte>, at: nat, result: Result) {
    || (result == Failure(MissingPolygonHeader, at) && at <= |data| < at + 5)
    || (&& at + 5 <= |data|
        && var (le, body) := (data[at] == 1, data[at + 5..]);
           || (result == Failure(UnexpectedGeometry, at + 1) && Value(data[at + 1..at + 5], le) != 3)
           || (&& Value(data[at + 1..at + 5], le) == 3 && result.Failure?
               && exists r :: && BodyBroken(body, le, r)
                              && result == Failure(r.result.problem, at + 5 + r.result.position)))
  }

  lemma {:induction false} NoPart(data: seq<byte>, offset: nat, n: nat, done: seq<Polygon>, r: Shapes)
    requires offset <= |data| && n > 0 && r == ReadPolygons(data, offset, n, done)
    requires |data| < offset + HEADER || Kind(data, offset) != POLYGON || BodyAt(data, offset).result.Failure?
    ensures r.polygons == done && PartBroken(data, offset, r.result)
  {
    if |data| >= offset + HEADER && Kind(data, offset) == POLYGON {
      BodyFails(data[offset + 5..], data[offset] == 1, BodyAt(data, offset));
    }
  }

  lemma {:induction false} PartsFail(data: seq<byte>, offset: nat, n: nat, done: seq<Polygon>, r: Shapes)
    returns (parts: seq<Part>, at: nat)
    requires offset <= |data| && r == ReadPolygons(data, offset, n, done) && r.result.Failure?
    ensures |parts| < n && At(data, offset, EncodeParts(parts)) && at == offset + |EncodeParts(parts)|
    ensures r.polygons == done + Polygons(parts) && PartBroken(data, at, r.result)
    decreases n
  {
    if |data| < offset + HEADER || Kind(data, offset) != POLYGON || BodyAt(data, offset).result.Failure? {
      parts, at := [], offset;
      NoPart(data, offset, n, done, r);
      AddNothing(done);
    } else {
      var (p, m) := (Part(BodyAt(data, offset).rings, data[offset]), n - 1);
      PartWasEncoded(data, offset, p);
      var next := offset + |EncodePart(p)|;
      PartStep(data, offset, p, next, done, n, m);
      var rest;
      rest, at := PartsFail(data, next, m, done + [ToPolygon(p.rings)], r);
      parts := [p] + rest;
      EncodePartsCons(p, rest);
      AtJoin(data, offset, EncodeParts(parts), EncodePart(p), EncodeParts(rest), next);
      PolygonsCons(done, p, rest);
    }
  }

  /** What is wrong with a geometry, and which of its polygons are read nevertheless. */
  ghost predicate GeometryBroken(data: seq<byte>, r: Shapes) {
    || (|data| < 5 && r == Shapes(Failure(TooShortForHeader, 0), []))
    || (&& 5 <= |data|
        && var kind := Value(data[1..5], data[0] == 1);
           || (kind != 3 && kind != 6 && r == Shapes(Failure(UnsupportedGeometry, 1), []))
           || (kind == 3 && r.polygons == [] && PartBroken(data, 0, r.result))
           || (kind == 6 && |data| < 9 && r == Shapes(Failure(MissingPolygonCount, 5), []))
           || (kind == 6 && 9 <= |data| && exists parts, at :: PartsBroken(data, parts, r, at)))
  }

  /** These polygons of a multi-polygon can be read, up to a position, and the next one cannot. */
  ghost predicate PartsBroken(data: seq<byte>, parts: seq<Part>, r: Shapes, at: nat)
    requires 9 <= |data|
  {
    && |parts| < Value(data[5..9], data[0] == 1) && At(data, 9, EncodeParts(parts))
    && r.polygons == Polygons(parts) && at == 9 + |EncodeParts(parts)| && PartBroken(data, at, r.result)
  }

  lemma {:induction false} SingleFails(data: seq<byte>, r: Shapes)
    requires |data| >= HEADER && Kind(data, 0) == POLYGON && r == ReadGeometry(data) && r.result.Failure?
    ensures r.polygons == [] && PartBroken(data, 0, r.result)
  {
    BodyFails(data[5..], data[0] == 1, BodyAt(data, 0));
  }

  lemma {:induction false} MultiFails(data: seq<byte>, r: Shapes)
    requires |data| >= HEADER + COUNT && Kind(data, 0) == MULTI_POLYGON && r == ReadGeometry(data) && r.result.Failure?
    ensures exists parts, at :: PartsBroken(data, parts, r, at)
  {
    var parts, at := PartsFail(data, HEADER + COUNT, Read(data, HEADER, COUNT, LittleEndian(data, 0)), [], r);
    AddNothing(Polygons(parts));
    assert PartsBroken(data, parts, r, at);
  }

  lemma {:induction false} GeometryFails(data: seq<byte>, r: Shapes)
    requires r == ReadGeometry(data) && r.result.Failure?
    ensures GeometryBroken(data, r)
  {
    if |data| >= HEADER {
      if Kind(data, 0) == POLYGON {
        SingleFails(data, r);
      } else if Kind(data, 0) == MULTI_POLYGON && |data| >= HEADER + COUNT {
        MultiFails(data, r);
      }
    }
  }

  // ---------------------------------------------------------------- files

  /** The bytes at a position are too few for the header of an entry or its payload, or the payload is broken. */
  ghost predicate EntryBroken(data: seq<byte>, at: nat, result: Result) {
    || (result == Failure(TruncatedEntryHeader, at) && at < |data| < at + 6)
    || (&& at + 6 <= |data|
        && var size := Value(data[at + 2..at + 6], true);
           || (result == Failure(PayloadTooLong, at + 6) && |data| < at + 6 + size)
           || (&& at + 6 + size <= |data|
               && exists r :: && GeometryBroken(data[at + 6..at + 6 + size], r) && r.result.Failure?
                              && result == Failure(r.result.problem, at + 6 + r.result.position)))
  }

  lemma {:induction false} NoEntry(data: seq<byte>, offset: nat, done: seq<Country>, r: Countries)
    requires offset < |data| && r == ReadEntries(data, offset, done)
    requires |data| < offset + 6 || |data| < offset + 6 + SizeAt(data, offset)
             || ReadGeometry(Payload(data, offset)).result.Failure?
    ensures r.countries == done && EntryBroken(data, offset, r.result)
  {
    if offset + 6 <= |data| && offset + 6 + SizeAt(data, offset) <= |data| {
      GeometryFails(Payload(data, offset), ReadGeometry(Payload(data, offset)));
    }
  }

  lemma {:induction false} EntriesFail(data: seq<byte>, offset: nat, done: seq<Country>, r: Countries)
    returns (entries: seq<Entry>, at: nat)
    requires offset <= |data| && r == ReadEntries(data, offset, done) && r.result.Failure?
    ensures EntriesFit(entries) && At(data, offset, EncodeEntries(entries)) && at == offset + |EncodeEntries(entries)|
    ensures r.countries == done + CountriesOf(entries) && EntryBroken(data, at, r.result)
    decreases |data| - offset
  {
    if |data| < offset + 6 || |data| < offset + 6 + SizeAt(data, offset)
       || ReadGeometry(Payload(data, offset)).result.Failure? {
      entries, at := [], offset;
      NoEntry(data, offset, done, r);
      AddNothing(done);
    } else {
      var e := EntryWasEncoded(data, offset);
      var next := offset + |EncodeEntry(e)|;
      EntryStep(data, offset, e, next, done);
      var rest;
      rest, at := EntriesFail(data, next, done + [CountryOf(e)], r);
      entries := [e] + rest;
      JoinEntries(data, offset, e, rest, next);
      CountriesCons(done, e, rest);
    }
  }

  lemma {:induction false} JoinEntries(data: seq<byte>, offset: nat, e: Entry, rest: seq<Entry>, next: nat)
    requires At(data, offset, EncodeEntry(e)) && At(data, next, EncodeEntries(rest))
    requires next == offset + |EncodeEntry(e)|
    requires EntryFits(e) && EntriesFit(rest)
    ensures EntriesFit([e] + rest) && At(data, offset, EncodeEntries([e] + rest))
    ensures offset + |EncodeEntries([e] + rest)| == next + |EncodeEntries(rest)|
  {
    EncodeEntriesCons(e, rest);
    AtJoin(data, offset, EncodeEntries([e] + rest), EncodeEntry(e), EncodeEntries(rest), next);
  }

  /** These entries of a file can be read, up to a position, and the next one cannot. */
  ghost predicate FileBroken(data: seq<byte>, entries: seq<Entry>, r: Countries, at: nat) {
    && EntriesFit(entries) && At(data, 2, EncodeEntries(entries))
    && r.countries == CountriesOf(entries) && at == 2 + |EncodeEntries(entries)| && EntryBroken(data, at, r.result)
  }

  /**
   * A file that is not accepted has no version, another version, or an entry that is broken in the way
   * the result says; the countries in front of it, and no others, are handed over.
   */
  lemma {:induction false} FileFails(data: seq<byte>, r: Countries)
    requires r == ReadFile(data) && r.result.Failure?
    ensures || (|data| < 2 && r == Countries(Failure(MissingVersion, 0), []))
            || (2 <= |data| && Value(data[0..2], true) != 1 && r == Countries(Failure(UnsupportedVersion, 0), []))
            || (2 <= |data| && Value(data[0..2], true) == 1 && exists entries, at :: FileBroken(data, entries, r, at))
  {
    if |data| >= 2 && Read(data, 0, 2, true) == VERSION {
      var entries, at := FileFailsFrom(data, 2, [], r);
      assert FileBroken(data, entries, r, at);
    }
  }

  lemma {:induction false} FileFailsFrom(data: seq<byte>, start: nat, none: seq<Country>, r: Countries)
    returns (entries: seq<Entry>, at: nat)
    requires start <= |data| && none == [] && r == ReadEntries(data, start, none) && r.result.Failure?
    ensures EntriesFit(entries) && At(data, start, EncodeEntries(entries)) && at == start + |EncodeEntries(entries)|
    ensures r.countries == CountriesOf(entries) && EntryBroken(data, at, r.result)
  {
    entries, at := EntriesFail(data, start, none, r);
    AddNothing(CountriesOf(entries));
  }

  // ---------------------------------------------------------------- polygons

  /** All rings of a polygon, the outer one first. */
  function RingsOf(p: Polygon): seq<Ring> {
    [p.outer] + p.inners
  }

  lemma {:induction false} RingsOfPolygon(rings: seq<Ring>)
    ensures rings != [] ==> RingsOf(ToPolygon(rings)) == rings
  {
  }

  lemma {:induction false} ZeroDigits(n: nat, little: bool)
    ensures Digits(0, n, little) == seq(n, _ => 0)
  {
    if n > 0 {
      ZeroDigits(n - 1, little);
    }
  }

  lemma {:induction false} SmallDigits(v: nat, n: nat)
    requires v < 256 && n > 0
    ensures Digits(v, n, true) == [v] + seq(n - 1, _ => 0) && Digits(v, n, false) == seq(n - 1, _ => 0) + [v]
  {
    ZeroDigits(n - 1, true);
    ZeroDigits(n - 1, false);
  }

  lemma {:induction false} FourBytes(v: nat)
    requires v < 256
    ensures Digits(v, 2, true) == [v, 0] && Digits(v, 4, true) == [v, 0, 0, 0] && Digits(v, 4, false) == [0, 0, 0, v]
  {
    SmallDigits(v, 2);
    SmallDigits(v, 4);
  }

  /** The bytes of two small geometries: a polygon in one byte order, a multi-polygon in the other, both empty. */
  lemma {:induction false} SmallGeometries()
    ensures EncodeGeometry(Single(Part([], 1))) == [1, 3, 0, 0, 0, 0, 0, 0, 0]
    ensures EncodeGeometry(Multi([], 0)) == [0, 0, 0, 0, 6, 0, 0, 0, 0]
  {
    FourBytes(3);
    FourBytes(6);
    FourBytes(0);
  }

  /** The header of an entry: code and size of what follows, both little-endian. */
  lemma {:induction false} SmallPayload(code: nat, blob: seq<byte>)
    requires code < 256 && |blob| < 256
    ensures EncodePayload(code, blob) == [code, 0, |blob|, 0, 0, 0] + blob
  {
    FourBytes(code);
    FourBytes(|blob|);
  }
}
