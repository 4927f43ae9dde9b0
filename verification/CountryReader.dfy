/**
 * The country data reader: it advances an offset through the data and never subtracts below zero or
 * reads outside, whatever the bytes are.
 */
module CountryReader {
  import opened Sequences
  import opened Bytes
  import opened CountryModel
  import opened CountryFiles
  import opened CountryProofs

  method ParsePoint(data: seq<byte>, start: nat, le: bool) returns (point: Point, offset: nat)
    requires start + 16 <= |data|
    ensures point == ReadPoint(data, start, le) && offset == Skip(start, 16)
  {
    ValueBound(data[start..start + 8], le);
    ValueBound(data[start + 8..start + 8 + 8], le);
    Powers();
    var lon := Read(data, start, 8, le);
    offset := start + 8;
    var lat := Read(data, offset, 8, le);
    offset := offset + 8;
    point := Point(lon, lat);
  }

  lemma {:induction false} ReadPointsSnoc(data: seq<byte>, start: nat, n: nat, m: nat, offset: nat, le: bool)
    requires m == n + 1 && offset == Skip(start, PointBytes(n)) && start + PointBytes(m) <= |data|
    ensures ReadPoints(data, start, m, le) == ReadPoints(data, start, n, le) + [ReadPoint(data, offset, le)]
    decreases n
  {
    if n != 0 {
      var next := Skip(start, 16);
      ReadPointsSnoc(data, next, n - 1, n, offset, le);
      ReadPointsStep(data, start, n, le, next, n - 1);
      ReadPointsStep(data, start, m, le, next, n);
      Assoc([ReadPoint(data, start, le)], ReadPoints(data, next, n - 1, le), [ReadPoint(data, offset, le)]);
    }
  }

  /** Read one ring behind its point count. */
  method ParseRing(data: seq<byte>, start: nat, points: nat, le: bool) returns (ring: Ring, offset: nat)
    requires start + PointBytes(points) <= |data|
    ensures ring == ReadPoints(data, start, points, le)
    ensures offset == Skip(start, PointBytes(points))
  {
    ring, offset := [], start;
    var i := 0;
    while i < points
      invariant 0 <= i <= points && offset == Skip(start, PointBytes(i)) && ring == ReadPoints(data, start, i, le)
    {
      ReadPointsSnoc(data, start, i, i + 1, offset, le);
      var point;
      point, offset := ParsePoint(data, offset, le);
      ring := ring + [point];
      i := i + 1;
    }
  }

  /** The polygon after one more ring. */
  method AddRing(polygon: Polygon, r: nat, ring: Ring, ghost rings: seq<Ring>) returns (out: Polygon)
    requires r == |rings| && polygon == ToPolygon(rings)
    ensures out == ToPolygon(rings + [ring])
  {
    if r == 0 {
      out := polygon.(outer := ring);
    } else {
      assert rings[1..] + [ring] == (rings + [ring])[1..];
      out := polygon.(inners := polygon.inners + [ring]);
    }
  }

  method ParsePolygonBody(data: seq<byte>, le: bool) returns (result: Result, out: Polygon)
    ensures result == ReadBody(data, le).result && result.position <= |data|
    ensures out == ToPolygon(ReadBody(data, le).rings)
  {
    out := Polygon([], []);
    if |data| < COUNT {
      return Failure(MissingRingCount, 0), out;
    }
    var count := Read(data, 0, COUNT, le);
    result, out := ParseRings(data, COUNT, count, le);
  }

  /** How reading rings fails at the first of them. */
  lemma {:induction false} ReadRingsFails(data: seq<byte>, offset: nat, n: nat, le: bool, done: seq<Ring>)
    requires offset <= |data| && n > 0
    ensures var r := ReadRings(data, offset, n, le, done);
            if |data| < offset + COUNT then r == Rings(Failure(MissingPointCount, offset), done)
            else var start := Skip(offset, COUNT);
                 |data| - start < PointBytes(Read(data, offset, COUNT, le)) ==>
                   r == Rings(Failure(MissingPointData, start), done)
  {
  }

  /** One ring with its count; n are still to be read, `done` are read. */
  method ParseNextRing(
    data: seq<byte>, start: nat, le: bool, ghost n: nat, ghost m: nat, ghost done: seq<Ring>, ghost all: Rings)
    returns (result: Result, ring: Ring)
    requires start <= |data| && n == m + 1 && ReadRings(data, start, n, le, done) == all
    ensures result.position <= |data|
    ensures all == if result.Failure? then Rings(result, done)
                   else ReadRings(data, result.position, m, le, done + [ring])
  {
    ReadRingsFails(data, start, n, le, done);
    ring := [];
    if Minus(|data|, start) < COUNT {
      return Failure(MissingPointCount, start), ring;
    }
    var points := Read(data, start, COUNT, le);
    var offset := start + COUNT;
    if Minus(|data|, offset) < PointBytes(points) {
      return Failure(MissingPointData, offset), ring;
    }
    ghost var behind := offset;
    ring, offset := ParseRing(data, offset, points, le);
    ReadRingsStep(data, start, n, le, done, behind, points, offset, m);
    result := Ok(offset);
  }

  /** The rings of a polygon body, behind their count. */
  method ParseRings(data: seq<byte>, start: nat, count: nat, le: bool) returns (result: Result, out: Polygon)
    requires start <= |data|
    ensures result == ReadRings(data, start, count, le, []).result
    ensures out == ToPolygon(ReadRings(data, start, count, le, []).rings)
  {
    out := Polygon([], []);
    var offset := start;
    ghost var all, left := ReadRings(data, start, count, le, []), count;
    ghost var rings: seq<Ring> := [];
    var r := 0;
    while r < count
      invariant 0 <= r <= count && r == |rings| && left == count - r && 0 <= offset <= |data|
      invariant out == ToPolygon(rings)
      invariant ReadRings(data, offset, left, le, rings) == all
    {
      ghost var less := left - 1;
      var inner, ring := ParseNextRing(data, offset, le, left, less, rings, all);
      if inner.Failure? {
        return inner, out;
      }
      out := AddRing(out, r, ring, rings);
      rings, left := rings + [ring], less;
      offset, r := inner.position, r + 1;
    }
    result := Ok(offset);
  }

  method ParseWkb(data: seq<byte>) returns (result: Result, out: seq<Polygon>)
    ensures result == ReadGeometry(data).result && result.position <= |data|
    ensures out == ReadGeometry(data).polygons
  {
    out := [];
    if |data| < HEADER {
      return Failure(TooShortForHeader, 0), out;
    }
    var le := data[0] == 1;
    var kind := Read(data, 1, 4, le);
    if kind == POLYGON {
      var inner, polygon := ParsePolygonBody(data[HEADER..], le);
      if inner.Ok? {
        out := out + [polygon];
      }
      result := inner.AddOffset(HEADER);
    } else if kind == MULTI_POLYGON {
      if |data| < HEADER + COUNT {
        return Failure(MissingPolygonCount, HEADER), out;
      }
      result, out := ParsePolygons(data, HEADER + COUNT, Read(data, HEADER, COUNT, le));
    } else {
      result := Failure(UnsupportedGeometry, 1);
    }
  }

  /** How reading polygons fails at the first of them. */
  lemma {:induction false} ReadPolygonsFails(data: seq<byte>, offset: nat, n: nat, done: seq<Polygon>)
    requires offset <= |data| && n > 0
    ensures var r := ReadPolygons(data, offset, n, done);
            if |data| < offset + HEADER then r == Shapes(Failure(MissingPolygonHeader, offset), done)
            else if Kind(data, offset) != POLYGON then r == Shapes(Failure(UnexpectedGeometry, offset + 1), done)
            else BodyAt(data, offset).result.Failure? ==>
                   r == Shapes(BodyAt(data, offset).result.AddOffset(Skip(offset, HEADER)), done)
  {
  }

  /** One polygon of a multi-polygon, with a header of its own; n are still to be read, `done` are read. */
  method ParsePart(data: seq<byte>, start: nat, ghost n: nat, ghost m: nat, ghost done: seq<Polygon>)
    returns (result: Result, polygon: Polygon)
    requires start <= |data| && n == m + 1
    ensures result.position <= |data|
    ensures ReadPolygons(data, start, n, done) ==
            if result.Failure? then Shapes(result, done)
            else ReadPolygons(data, result.position, m, done + [polygon])
  {
    ReadPolygonsFails(data, start, n, done);
    polygon := Polygon([], []);
    if Minus(|data|, start) < HEADER {
      return Failure(MissingPolygonHeader, start), polygon;
    }
    var le := data[start] == 1;
    var kind := Read(data, start + 1, 4, le);
    if kind != POLYGON {
      return Failure(UnexpectedGeometry, start + 1), polygon;
    }
    var offset := start + HEADER;
    var inner;
    inner, polygon := ParsePolygonBody(data[offset..], le);
    result := inner.AddOffset(offset);
    if inner.Ok? {
      ReadPolygonsStep(data, start, n, done, BodyAt(data, start), result.position, m);
    }
  }

  /** The polygons of a multi-polygon, behind their count. */
  method ParsePolygons(data: seq<byte>, start: nat, count: nat) returns (result: Result, out: seq<Polygon>)
    requires start <= |data|
    ensures result == ReadPolygons(data, start, count, []).result
    ensures out == ReadPolygons(data, start, count, []).polygons
  {
    out := [];
    var offset := start;
    ghost var all, left := ReadPolygons(data, start, count, []), count;
    var i := 0;
    while i < count
      invariant 0 <= i <= count && left == count - i && 0 <= offset <= |data|
      invariant ReadPolygons(data, offset, left, out) == all
    {
      var inner, polygon := ParsePart(data, offset, left, left - 1, out);
      if inner.Failure? {
        return inner, out;
      }
      out := out + [polygon];
      offset := inner.position;
      left := left - 1;
      i := i + 1;
    }
    result := Ok(offset);
  }

  /** One country entry whose payload is complete. */
  method ParseEntry(data: seq<byte>, start: nat) returns (result: Result, country: Country)
    requires start + 6 <= |data| && start + 6 + SizeAt(data, start) <= |data|
    ensures var inner := ReadGeometry(Payload(data, start));
            result == inner.result.AddOffset(Skip(start, 6)) && result.position <= |data| &&
            country == Country(CodeAt(data, start), inner.polygons)
  {
    var code := Read(data, start, 2, true);
    var offset := start + 2;
    var size := Read(data, offset, 4, true);
    offset := offset + 4;
    var inner, polygons := ParseWkb(data[offset..offset + size]);
    result, country := inner.AddOffset(offset), Country(code, polygons);
  }

  /** The entries behind the version; the callback receives the countries one by one, here collected. */
  method ParseEntries(data: seq<byte>) returns (result: Result, countries: seq<Country>)
    requires 2 <= |data|
    ensures result == ReadEntries(data, 2, []).result
    ensures countries == ReadEntries(data, 2, []).countries
  {
    countries := [];
    var offset := 2;
    ghost var all := ReadEntries(data, 2, []);
    while offset < |data|
      invariant 0 <= offset <= |data|
      invariant ReadEntries(data, offset, countries) == all
    {
      if Minus(|data|, offset) < 6 {
        return Failure(TruncatedEntryHeader, offset), countries;
      }
      var size := SizeAt(data, offset);
      var end := Skip(Skip(offset, 6), size);
      if Minus(|data|, Skip(offset, 6)) < size {
        return Failure(PayloadTooLong, offset + 6), countries;
      }
      var inner, country := ParseEntry(data, offset);
      if inner.Failure? {
        return inner, countries;
      }
      ReadEntriesStep(data, offset, countries, Payload(data, offset), end, country);
      countries := countries + [country];
      offset := end;
    }
    result := Ok(offset);
  }

  method ReadCountryData(data: seq<byte>) returns (result: Result, countries: seq<Country>)
    ensures result == ReadFile(data).result && result.position <= |data|
    ensures countries == ReadFile(data).countries
  {
    countries := [];
    if |data| < 2 {
      return Failure(MissingVersion, 0), countries;
    }
    if Read(data, 0, 2, true) != VERSION {
      return Failure(UnsupportedVersion, 0), countries;
    }
    result, countries := ParseEntries(data);
  }
}
