/**
 * Geometries and whole files: exactly the encodings are accepted, and they are read back. The encoding
 * leaves open what the reader does not look at: order bytes other than 1 and what follows a geometry
 * within its entry.
 */
module CountryFiles {
  import opened Bytes
  import opened CountryModel
  import opened CountryProofs
  import opened Sequences

  // ---------------------------------------------------------------- headers

  lemma {:induction false} HeaderIsRead(data: seq<byte>, offset: nat, kind: nat, order: byte)
    requires At(data, offset, Header(kind, order)) && Count32(kind)
    ensures data[offset] == order && Kind(data, offset) == kind
  {
    AtSplit(data, offset, [order], Digits(kind, 4, Little(order)));
    assert data[offset] == data[offset..offset + 1][0];
    CountIsRead(data, offset + 1, kind, Little(order));
  }

  lemma {:induction false} HeaderWasEncoded(data: seq<byte>, offset: nat)
    requires offset + HEADER <= |data|
    ensures At(data, offset, Header(Kind(data, offset), data[offset]))
  {
    var (order, kind) := (data[offset], Kind(data, offset));
    DigitsRead(data, offset + 1, 4, Little(order));
    assert data[offset..offset + 1] == [order];
    AtSplit(data, offset, [order], Digits(kind, 4, Little(order)));
  }

  // ---------------------------------------------------------------- polygons

  lemma {:induction false} PartIsRead(data: seq<byte>, offset: nat, p: Part)
    requires At(data, offset, EncodePart(p)) && PartFits(p)
    ensures offset + HEADER <= |data| && Kind(data, offset) == POLYGON
    ensures BodyAt(data, offset).result.Ok? && BodyAt(data, offset).rings == p.rings
    ensures Skip(Skip(offset, HEADER), BodyAt(data, offset).result.position) == offset + |EncodePart(p)|
  {
    var (start, le) := (Skip(offset, HEADER), Little(p.order));
    AtSplit(data, offset, Header(POLYGON, p.order), EncodeBody(p.rings, le));
    HeaderIsRead(data, offset, POLYGON, p.order);
    AtSuffix(data, start, 0, EncodeBody(p.rings, le));
    BodyIsRead(data[start..], p.rings, le);
  }

  /** A header and what is found behind it are stored one after the other. */
  lemma {:induction false} AtBehind(data: seq<byte>, offset: nat, start: nat, header: seq<byte>, body: seq<byte>)
    requires At(data, offset, header) && start == offset + |header| && At(data[start..], 0, body)
    ensures At(data, offset, header + body)
  {
    AtSuffix(data, start, 0, body);
    AtSplit(data, offset, header, body);
  }

  lemma {:induction false} PartWasEncoded(data: seq<byte>, offset: nat, p: Part)
    requires offset + HEADER <= |data| && Kind(data, offset) == POLYGON && BodyAt(data, offset).result.Ok?
    requires p == Part(BodyAt(data, offset).rings, data[offset])
    ensures PartFits(p) && At(data, offset, EncodePart(p))
    ensures Skip(Skip(offset, HEADER), BodyAt(data, offset).result.position) == offset + |EncodePart(p)|
  {
    var (start, le) := (Skip(offset, HEADER), Little(p.order));
    HeaderWasEncoded(data, offset);
    BodyWasEncoded(data[start..], le, p.rings, BodyAt(data, offset).result.position);
    AtBehind(data, offset, start, Header(POLYGON, p.order), EncodeBody(p.rings, le));
  }

  lemma {:induction false} ReadPolygonsStep(
    data: seq<byte>, offset: nat, n: nat, done: seq<Polygon>, body: Rings, next: nat, m: nat)
    requires n == m + 1 && offset + HEADER <= |data| && Kind(data, offset) == POLYGON
    requires body == BodyAt(data, offset) && body.result.Ok?
    requires next == Skip(Skip(offset, HEADER), body.result.position) <= |data|
    ensures ReadPolygons(data, offset, n, done) == ReadPolygons(data, next, m, done + [ToPolygon(body.rings)])
  {
  }

  lemma {:induction false} PolygonsCons(done: seq<Polygon>, p: Part, rest: seq<Part>)
    ensures done + [ToPolygon(p.rings)] + Polygons(rest) == done + Polygons([p] + rest)
  {
  }

  lemma {:induction false} EncodePartsCons(p: Part, rest: seq<Part>)
    ensures EncodeParts([p] + rest) == EncodePart(p) + EncodeParts(rest)
  {
    assert ([p] + rest)[1..] == rest;
  }

  lemma {:induction false} PartStep(
    data: seq<byte>, offset: nat, p: Part, next: nat, done: seq<Polygon>, n: nat, m: nat)
    requires At(data, offset, EncodePart(p)) && PartFits(p) && next == offset + |EncodePart(p)| && n == m + 1
    ensures ReadPolygons(data, offset, n, done) == ReadPolygons(data, next, m, done + [ToPolygon(p.rings)])
  {
    PartIsRead(data, offset, p);
    ReadPolygonsStep(data, offset, n, done, BodyAt(data, offset), next, m);
  }

  lemma {:induction false} FirstPart(
    data: seq<byte>, offset: nat, p: Part, rest: seq<Part>, next: nat, done: seq<Polygon>)
    requires At(data, offset, EncodeParts([p] + rest)) && PartFits(p) && next == offset + |EncodePart(p)|
    ensures At(data, next, EncodeParts(rest))
    ensures offset + |EncodeParts([p] + rest)| == next + |EncodeParts(rest)|
    ensures ReadPolygons(data, offset, |[p] + rest|, done)
         == ReadPolygons(data, next, |rest|, done + [ToPolygon(p.rings)])
  {
    EncodePartsCons(p, rest);
    AtNext(data, offset, EncodeParts([p] + rest), EncodePart(p), EncodeParts(rest), next);
    PartStep(data, offset, p, next, done, |[p] + rest|, |rest|);
  }

  lemma {:induction false} PartsAreRead(data: seq<byte>, offset: nat, parts: seq<Part>, done: seq<Polygon>)
    requires At(data, offset, EncodeParts(parts)) && PartsFit(parts)
    ensures var r := ReadPolygons(data, offset, |parts|, done);
            && r.result.Ok? && r.result.position == offset + |EncodeParts(parts)|
            && r.polygons == done + Polygons(parts)
    decreases |parts|
  {
    if parts == [] {
      assert done + Polygons(parts) == done;
    } else {
      var (p, rest) := (parts[0], parts[1..]);
      assert parts == [p] + rest;
      var next := offset + |EncodePart(p)|;
      FirstPart(data, offset, p, rest, next, done);
      PartsAreRead(data, next, rest, done + [ToPolygon(p.rings)]);
      PolygonsCons(done, p, rest);
    }
  }

  lemma {:induction false} PolygonsHold(data: seq<byte>, offset: nat, n: nat, done: seq<Polygon>)
    requires offset <= |data| && n > 0 && ReadPolygons(data, offset, n, done).result.Ok?
    ensures offset + HEADER <= |data| && Kind(data, offset) == POLYGON && BodyAt(data, offset).result.Ok?
  {
  }

  lemma {:induction false} PartsWereEncoded(data: seq<byte>, offset: nat, n: nat, done: seq<Polygon>)
    returns (parts: seq<Part>)
    requires offset <= |data| && ReadPolygons(data, offset, n, done).result.Ok?
    ensures var r := ReadPolygons(data, offset, n, done);
            r.result.position == offset + |EncodeParts(parts)| && r.polygons == done + Polygons(parts)
    ensures |parts| == n && PartsFit(parts) && At(data, offset, EncodeParts(parts))
    decreases n
  {
    if n == 0 {
      parts := [];
      assert done + Polygons(parts) == done;
    } else {
      PolygonsHold(data, offset, n, done);
      var (p, m) := (Part(BodyAt(data, offset).rings, data[offset]), n - 1);
      PartWasEncoded(data, offset, p);
      var next := offset + |EncodePart(p)|;
      PartStep(data, offset, p, next, done, n, m);
      var rest := PartsWereEncoded(data, next, m, done + [ToPolygon(p.rings)]);
      parts := [p] + rest;
      EncodePartsCons(p, rest);
      AtJoin(data, offset, EncodeParts(parts), EncodePart(p), EncodeParts(rest), next);
      PolygonsCons(done, p, rest);
    }
  }

  // ---------------------------------------------------------------- geometries

  lemma {:induction false} MultiHeader(data: seq<byte>, n: nat, order: byte, parts: seq<byte>)
    requires Count32(n)
    requires At(data, 0, Header(MULTI_POLYGON, order) + Digits(n, 4, Little(order)) + parts)
    ensures At(data, HEADER + COUNT, parts) && data[0] == order
    ensures Kind(data, 0) == MULTI_POLYGON && Read(data, HEADER, COUNT, Little(order)) == n
  {
    AtSplit(data, 0, Header(MULTI_POLYGON, order) + Digits(n, 4, Little(order)), parts);
    AtSplit(data, 0, Header(MULTI_POLYGON, order), Digits(n, 4, Little(order)));
    HeaderIsRead(data, 0, MULTI_POLYGON, order);
    CountIsRead(data, HEADER, n, Little(order));
  }

  lemma {:induction false} MultiIsRead(data: seq<byte>, parts: seq<Part>, order: byte)
    requires At(data, 0, EncodeMulti(parts, order)) && Count32(|parts|) && PartsFit(parts)
    ensures ReadGeometry(data) == Shapes(Ok(|EncodeMulti(parts, order)|), Polygons(parts))
  {
    MultiHeader(data, |parts|, order, EncodeParts(parts));
    PartsAreRead(data, HEADER + COUNT, parts, []);
    AddNothing(Polygons(parts));
  }

  lemma {:induction false} SingleIsRead(data: seq<byte>, part: Part)
    requires At(data, 0, EncodePart(part)) && PartFits(part)
    ensures ReadGeometry(data) == Shapes(Ok(|EncodePart(part)|), [ToPolygon(part.rings)])
  {
    PartIsRead(data, 0, part);
  }

  lemma {:induction false} GeometryIsRead(data: seq<byte>, g: Geometry)
    requires At(data, 0, EncodeGeometry(g)) && GeometryFits(g)
    ensures ReadGeometry(data) == Shapes(Ok(|EncodeGeometry(g)|), PolygonsOf(g))
  {
    match g
    case Single(part) => SingleIsRead(data, part);
    case Multi(parts, order) => MultiIsRead(data, parts, order);
  }

  lemma {:induction false} SingleWasEncoded(data: seq<byte>, part: Part)
    requires HEADER <= |data| && Kind(data, 0) == POLYGON && ReadGeometry(data).result.Ok?
    requires part == Part(BodyAt(data, 0).rings, data[0])
    ensures PartFits(part) && At(data, 0, EncodePart(part))
  {
    PartWasEncoded(data, 0, part);
  }

  lemma {:induction false} MultiJoin(data: seq<byte>, n: nat, order: byte, parts: seq<byte>)
    requires HEADER + COUNT <= |data| && order == data[0] && Kind(data, 0) == MULTI_POLYGON
    requires n == Read(data, HEADER, COUNT, Little(order)) && At(data, HEADER + COUNT, parts)
    ensures At(data, 0, Header(MULTI_POLYGON, order) + Digits(n, 4, Little(order)) + parts) && Count32(n)
  {
    var (a, b) := (Header(MULTI_POLYGON, order), Digits(n, 4, Little(order)));
    HeaderWasEncoded(data, 0);
    DigitsRead(data, HEADER, COUNT, Little(order));
    Powers();
    AtJoin(data, 0, a + b, a, b, HEADER);
    AtJoin(data, 0, a + b + parts, a + b, parts, HEADER + COUNT);
  }

  lemma {:induction false} MultiWasEncoded(data: seq<byte>) returns (parts: seq<Part>)
    requires HEADER <= |data| && Kind(data, 0) == MULTI_POLYGON && ReadGeometry(data).result.Ok?
    ensures Count32(|parts|) && PartsFit(parts) && At(data, 0, EncodeMulti(parts, data[0]))
  {
    var n := Read(data, HEADER, COUNT, Little(data[0]));
    parts := PartsWereEncoded(data, HEADER + COUNT, n, []);
    MultiJoin(data, n, data[0], EncodeParts(parts));
  }

  lemma {:induction false} GeometryWasEncoded(data: seq<byte>) returns (g: Geometry)
    requires ReadGeometry(data).result.Ok?
    ensures GeometryFits(g) && At(data, 0, EncodeGeometry(g))
  {
    if Kind(data, 0) == POLYGON {
      g := Single(Part(BodyAt(data, 0).rings, data[0]));
      SingleWasEncoded(data, g.part);
    } else {
      var parts := MultiWasEncoded(data);
      g := Multi(parts, data[0]);
    }
  }

  /** The data begins with the encoding of a geometry. */
  ghost predicate Begins(data: seq<byte>, g: Geometry) {
    GeometryFits(g) && At(data, 0, EncodeGeometry(g))
  }

  /**
   * A geometry is accepted exactly if the data begins with an encoding, in whatever order bytes and
   * with whatever behind it; position and polygons are those of that encoding.
   */
  lemma {:induction false} GeometryIsExact(data: seq<byte>, position: nat, polygons: seq<Polygon>)
    ensures ReadGeometry(data) == Shapes(Ok(position), polygons) <==>
            exists g :: Begins(data, g) && position == |EncodeGeometry(g)| && polygons == PolygonsOf(g)
  {
    if ReadGeometry(data) == Shapes(Ok(position), polygons) {
      var g := GeometryWasEncoded(data);
      GeometryIsRead(data, g);
      assert Begins(data, g);
    }
    if g :| Begins(data, g) && position == |EncodeGeometry(g)| && polygons == PolygonsOf(g) {
      GeometryIsRead(data, g);
    }
  }

  // ---------------------------------------------------------------- entries

  lemma {:induction false} PayloadIsRead(data: seq<byte>, offset: nat, code: nat, blob: seq<byte>)
    requires At(data, offset, EncodePayload(code, blob)) && code < 0x1_0000 && Count32(|blob|)
    ensures CodeAt(data, offset) == code && SizeAt(data, offset) == |blob| && Payload(data, offset) == blob
  {
    AtSplit(data, offset, Digits(code, 2, true) + Digits(|blob|, 4, true), blob);
    AtSplit(data, offset, Digits(code, 2, true), Digits(|blob|, 4, true));
    Powers();
    ReadDigits(data, offset, code, 2, true);
    CountIsRead(data, offset + 2, |blob|, true);
  }

  lemma {:induction false} PayloadWasEncoded(data: seq<byte>, offset: nat, code: nat, blob: seq<byte>)
    requires offset + 6 <= |data| && offset + 6 + SizeAt(data, offset) <= |data|
    requires code == CodeAt(data, offset) && blob == Payload(data, offset)
    ensures At(data, offset, EncodePayload(code, blob)) && code < 0x1_0000 && Count32(|blob|)
  {
    DigitsRead(data, offset, 2, true);
    DigitsRead(data, offset + 2, 4, true);
    Powers();
    AtSplit(data, offset, Digits(code, 2, true), Digits(|blob|, 4, true));
    AtSplit(data, offset, Digits(code, 2, true) + Digits(|blob|, 4, true), blob);
  }

  lemma {:induction false} ReadEntriesStep(
    data: seq<byte>, offset: nat, done: seq<Country>, blob: seq<byte>, next: nat, country: Country)
    requires offset + 6 <= |data| && next == Skip(Skip(offset, 6), SizeAt(data, offset)) <= |data|
    requires blob == Payload(data, offset) && ReadGeometry(blob).result.Ok?
    requires country == Country(CodeAt(data, offset), ReadGeometry(blob).polygons)
    ensures ReadEntries(data, offset, done) == ReadEntries(data, next, done + [country])
  {
  }

  lemma {:induction false} AtStart(x: seq<byte>, tail: seq<byte>)
    ensures At(x + tail, 0, x)
  {
  }

  lemma {:induction false} EntryStep(data: seq<byte>, offset: nat, e: Entry, next: nat, done: seq<Country>)
    requires At(data, offset, EncodeEntry(e)) && EntryFits(e) && next == offset + |EncodeEntry(e)|
    ensures ReadEntries(data, offset, done) == ReadEntries(data, next, done + [CountryOf(e)])
  {
    var blob := EncodeGeometry(e.geometry) + e.tail;
    PayloadIsRead(data, offset, e.code, blob);
    AtStart(EncodeGeometry(e.geometry), e.tail);
    GeometryIsRead(blob, e.geometry);
    ReadEntriesStep(data, offset, done, blob, next, CountryOf(e));
  }

  lemma {:induction false} CountriesCons(done: seq<Country>, e: Entry, rest: seq<Entry>)
    ensures done + [CountryOf(e)] + CountriesOf(rest) == done + CountriesOf([e] + rest)
  {
  }

  lemma {:induction false} EncodeEntriesCons(e: Entry, rest: seq<Entry>)
    ensures EncodeEntries([e] + rest) == EncodeEntry(e) + EncodeEntries(rest)
  {
    assert ([e] + rest)[1..] == rest;
  }

  lemma {:induction false} FirstEntry(
    data: seq<byte>, offset: nat, e: Entry, rest: seq<Entry>, next: nat, done: seq<Country>)
    requires At(data, offset, EncodeEntries([e] + rest)) && EntryFits(e) && next == offset + |EncodeEntry(e)|
    ensures At(data, next, EncodeEntries(rest))
    ensures offset + |EncodeEntries([e] + rest)| == next + |EncodeEntries(rest)|
    ensures ReadEntries(data, offset, done) == ReadEntries(data, next, done + [CountryOf(e)])
  {
    EncodeEntriesCons(e, rest);
    AtNext(data, offset, EncodeEntries([e] + rest), EncodeEntry(e), EncodeEntries(rest), next);
    EntryStep(data, offset, e, next, done);
  }

  lemma {:induction false} EntriesAreRead(data: seq<byte>, offset: nat, entries: seq<Entry>, done: seq<Country>)
    requires At(data, offset, EncodeEntries(entries)) && offset + |EncodeEntries(entries)| == |data|
    requires EntriesFit(entries)
    ensures ReadEntries(data, offset, done) == Countries(Ok(|data|), done + CountriesOf(entries))
    decreases |entries|
  {
    if entries == [] {
      assert done + CountriesOf(entries) == done;
    } else {
      var (e, rest) := (entries[0], entries[1..]);
      assert entries == [e] + rest;
      var next := offset + |EncodeEntry(e)|;
      FirstEntry(data, offset, e, rest, next, done);
      EntriesAreRead(data, next, rest, done + [CountryOf(e)]);
      CountriesCons(done, e, rest);
    }
  }

  lemma {:induction false} EntriesHold(data: seq<byte>, offset: nat, done: seq<Country>)
    requires offset < |data| && ReadEntries(data, offset, done).result.Ok?
    ensures offset + 6 <= |data| && offset + 6 + SizeAt(data, offset) <= |data|
    ensures ReadGeometry(Payload(data, offset)).result.Ok?
  {
  }

  lemma {:induction false} EntryWasEncoded(data: seq<byte>, offset: nat) returns (e: Entry)
    requires offset + 6 <= |data| && offset + 6 + SizeAt(data, offset) <= |data|
    requires ReadGeometry(Payload(data, offset)).result.Ok?
    ensures EntryFits(e) && At(data, offset, EncodeEntry(e))
  {
    var blob := Payload(data, offset);
    var g := GeometryWasEncoded(blob);
    var n := |EncodeGeometry(g)|;
    e := Entry(CodeAt(data, offset), g, blob[n..]);
    assert blob[0..n] == blob[..n] && blob == blob[..n] + blob[n..];
    PayloadWasEncoded(data, offset, e.code, blob);
  }

  lemma {:induction false} EntriesWereEncoded(data: seq<byte>, offset: nat, done: seq<Country>)
    returns (entries: seq<Entry>)
    requires offset <= |data| && ReadEntries(data, offset, done).result.Ok?
    ensures EntriesFit(entries) && At(data, offset, EncodeEntries(entries))
    ensures offset + |EncodeEntries(entries)| == |data|
    decreases |data| - offset
  {
    if offset == |data| {
      entries := [];
    } else {
      EntriesHold(data, offset, done);
      var e := EntryWasEncoded(data, offset);
      var next := offset + |EncodeEntry(e)|;
      EntryStep(data, offset, e, next, done);
      var rest := EntriesWereEncoded(data, next, done + [CountryOf(e)]);
      entries := [e] + rest;
      EncodeEntriesCons(e, rest);
      AtJoin(data, offset, EncodeEntries(entries), EncodeEntry(e), EncodeEntries(rest), next);
    }
  }

  // ---------------------------------------------------------------- files

  /**
   * Reading the encoding of any list of countries, in whatever order bytes and with whatever behind
   * each geometry, yields exactly that list and ends at the end of the data.
   */
  lemma {:induction false} FileRoundTrip(entries: seq<Entry>, data: seq<byte>)
    requires EntriesFit(entries) && data == EncodeFile(entries)
    ensures ReadFile(data) == Countries(Ok(|data|), CountriesOf(entries))
  {
    assert data[0..|data|] == data;
    AtSplit(data, 0, Digits(VERSION, 2, true), EncodeEntries(entries));
    Powers();
    ReadDigits(data, 0, VERSION, 2, true);
    EntriesAreRead(data, 2, entries, []);
    AddNothing(CountriesOf(entries));
  }

  lemma {:induction false} AtWhole(data: seq<byte>, x: seq<byte>)
    requires At(data, 0, x) && |x| == |data|
    ensures data == x
  {
    assert data[0..|data|] == data;
  }

  lemma {:induction false} FileWasEncoded(data: seq<byte>) returns (entries: seq<Entry>)
    requires ReadFile(data).result.Ok?
    ensures EntriesFit(entries) && data == EncodeFile(entries)
  {
    entries := EntriesWereEncoded(data, 2, []);
    DigitsRead(data, 0, 2, true);
    AtJoin(data, 0, EncodeFile(entries), Digits(VERSION, 2, true), EncodeEntries(entries), 2);
    AtWhole(data, EncodeFile(entries));
  }

  ghost predicate Encodes(data: seq<byte>, entries: seq<Entry>) {
    EntriesFit(entries) && data == EncodeFile(entries)
  }

  /** A file is accepted exactly if it is such an encoding, and its countries are the encoded ones. */
  lemma {:induction false} FileIsExact(data: seq<byte>, position: nat, countries: seq<Country>)
    ensures ReadFile(data) == Countries(Ok(position), countries) <==>
            position == |data| && exists entries :: Encodes(data, entries) && countries == CountriesOf(entries)
  {
    if ReadFile(data) == Countries(Ok(position), countries) {
      var entries := FileWasEncoded(data);
      FileRoundTrip(entries, data);
      assert Encodes(data, entries);
    }
    if entries :| Encodes(data, entries) && countries == CountriesOf(entries) {
      FileRoundTrip(entries, data);
    }
  }
}
