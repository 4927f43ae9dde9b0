/**
 * The country data format: a version, then entries of a country code and an OGC Well-known Binary
 * geometry. What the reader answers for a buffer, and what an encoder writes.
 *
 * Coordinates are kept as the 64-bit patterns of their floating point numbers.
 */
module CountryModel {
  import opened Bytes

  type Bits64 = v: nat | v < 0x1_0000_0000_0000_0000

  datatype Point = Point(lon: Bits64, lat: Bits64)

  type Ring = seq<Point>

  datatype Polygon = Polygon(outer: Ring, inners: seq<Ring>)

  datatype Problem =
    | MissingRingCount
    | MissingPointCount
    | MissingPointData
    | TooShortForHeader
    | MissingPolygonCount
    | MissingPolygonHeader
    | UnexpectedGeometry
    | UnsupportedGeometry
    | MissingVersion
    | UnsupportedVersion
    | TruncatedEntryHeader
    | PayloadTooLong

  /** CountryReaderResult: the position is where reading ended or failed. */
  datatype Result = Ok(position: nat) | Failure(problem: Problem, position: nat) {
    function AddOffset(offset: nat): Result {
      if Ok? then Ok(position + offset) else Failure(problem, position + offset)
    }
  }

  const HEADER := 5
  const COUNT := 4
  const POLYGON := 3
  const MULTI_POLYGON := 6
  const VERSION := 1

  /** Unsigned subtraction; a caller has to know that it does not wrap around. */
  function Minus(length: nat, offset: nat): nat
    requires offset <= length
  {
    length - offset
  }

  /** The offset after n more bytes. */
  function Skip(offset: nat, n: nat): nat {
    offset + n
  }

  /** Two 8-byte numbers for every point. */
  function PointBytes(n: nat): nat {
    n * 16
  }

  /** The n-byte unsigned integer at an offset; a caller has to know that it is inside the data. */
  function Read(data: seq<byte>, offset: nat, n: nat, le: bool): nat
    requires offset + n <= |data|
  {
    Value(data[offset..offset + n], le)
  }

  // ---------------------------------------------------------------- reading

  function ReadPoint(data: seq<byte>, offset: nat, le: bool): Point
    requires offset + 16 <= |data|
  {
    ValueBound(data[offset..offset + 8], le);
    ValueBound(data[offset + 8..offset + 8 + 8], le);
    Powers();
    Point(Read(data, offset, 8, le), Read(data, offset + 8, 8, le))
  }

  function ReadPoints(data: seq<byte>, offset: nat, n: nat, le: bool): (r: Ring)
    requires offset + PointBytes(n) <= |data|
    ensures |r| == n
    decreases n
  {
    if n == 0 then [] else [ReadPoint(data, offset, le)] + ReadPoints(data, Skip(offset, 16), n - 1, le)
  }

  datatype Rings = Rings(result: Result, rings: seq<Ring>)

  /** Read n rings from an offset on; `done` are the rings read before. */
  function ReadRings(data: seq<byte>, offset: nat, n: nat, le: bool, done: seq<Ring>): (r: Rings)
    requires offset <= |data|
    ensures r.result.position <= |data|
    decreases n
  {
    if n == 0 then Rings(Ok(offset), done)
    else if Minus(|data|, offset) < COUNT then Rings(Failure(MissingPointCount, offset), done)
    else
      var points := Read(data, offset, COUNT, le);
      var start := Skip(offset, COUNT);
      if Minus(|data|, start) < PointBytes(points) then Rings(Failure(MissingPointData, start), done)
      else ReadRings(data, Skip(start, PointBytes(points)), n - 1, le, done + [ReadPoints(data, start, points, le)])
  }

  function ReadBody(data: seq<byte>, le: bool): (r: Rings)
    ensures r.result.position <= |data|
  {
    if |data| < COUNT then Rings(Failure(MissingRingCount, 0), [])
    else ReadRings(data, COUNT, Read(data, 0, COUNT, le), le, [])
  }

  /** The first ring is the outer one. */
  function ToPolygon(rings: seq<Ring>): Polygon {
    if rings == [] then Polygon([], []) else Polygon(rings[0], rings[1..])
  }

  datatype Shapes = Shapes(result: Result, polygons: seq<Polygon>)

  /** The byte order and the type of the geometry whose header is at an offset. */
  function LittleEndian(data: seq<byte>, offset: nat): bool
    requires offset < |data|
  {
    data[offset] == 1
  }

  function Kind(data: seq<byte>, offset: nat): nat
    requires offset + HEADER <= |data|
  {
    Read(data, offset + 1, 4, LittleEndian(data, offset))
  }

  /** The polygon body behind the header at an offset. */
  function BodyAt(data: seq<byte>, offset: nat): (r: Rings)
    requires offset + HEADER <= |data|
    ensures offset + HEADER + r.result.position <= |data|
  {
    ReadBody(data[Skip(offset, HEADER)..], LittleEndian(data, offset))
  }

  function ReadPolygons(data: seq<byte>, offset: nat, n: nat, done: seq<Polygon>): (r: Shapes)
    requires offset <= |data|
    ensures r.result.position <= |data|
    decreases n
  {
    if n == 0 then Shapes(Ok(offset), done)
    else if Minus(|data|, offset) < HEADER then Shapes(Failure(MissingPolygonHeader, offset), done)
    else if Kind(data, offset) != POLYGON then Shapes(Failure(UnexpectedGeometry, offset + 1), done)
    else
      var start := Skip(offset, HEADER);
      var body := BodyAt(data, offset);
      if body.result.Ok?
      then ReadPolygons(data, Skip(start, body.result.position), n - 1, done + [ToPolygon(body.rings)])
      else Shapes(body.result.AddOffset(start), done)
  }

  function ReadGeometry(data: seq<byte>): (r: Shapes)
    ensures r.result.position <= |data|
  {
    if |data| < HEADER then Shapes(Failure(TooShortForHeader, 0), [])
    else if Kind(data, 0) == POLYGON then
      var body := BodyAt(data, 0);
      Shapes(body.result.AddOffset(HEADER), if body.result.Ok? then [ToPolygon(body.rings)] else [])
    else if Kind(data, 0) == MULTI_POLYGON then
      if |data| < HEADER + COUNT then Shapes(Failure(MissingPolygonCount, HEADER), [])
      else ReadPolygons(data, HEADER + COUNT, Read(data, HEADER, COUNT, LittleEndian(data, 0)), [])
    else Shapes(Failure(UnsupportedGeometry, 1), [])
  }

  datatype Country = Country(code: nat, polygons: seq<Polygon>)

  datatype Countries = Countries(result: Result, countries: seq<Country>)

  /** Code and payload size in the entry header at an offset. */
  function CodeAt(data: seq<byte>, offset: nat): nat
    requires offset + 6 <= |data|
  {
    Read(data, offset, 2, true)
  }

  function SizeAt(data: seq<byte>, offset: nat): nat
    requires offset + 6 <= |data|
  {
    Read(data, offset + 2, 4, true)
  }

  function Payload(data: seq<byte>, offset: nat): (r: seq<byte>)
    requires offset + 6 <= |data| && offset + 6 + SizeAt(data, offset) <= |data|
    ensures |r| == SizeAt(data, offset)
  {
    data[offset + 6..offset + 6 + SizeAt(data, offset)]
  }

  /** Read entries from an offset on; `done` are those handed to the callback before. */
  function ReadEntries(data: seq<byte>, offset: nat, done: seq<Country>): (r: Countries)
    requires offset <= |data|
    ensures r.result.position <= |data|
    decreases |data| - offset
  {
    if offset == |data| then Countries(Ok(offset), done)
    else if Minus(|data|, offset) < 6 then Countries(Failure(TruncatedEntryHeader, offset), done)
    else
      var start := Skip(offset, 6);
      var size := SizeAt(data, offset);
      if Minus(|data|, start) < size then Countries(Failure(PayloadTooLong, start), done)
      else
        var inner := ReadGeometry(Payload(data, offset));
        if inner.result.Ok?
        then ReadEntries(data, Skip(start, size), done + [Country(CodeAt(data, offset), inner.polygons)])
        else Countries(inner.result.AddOffset(start), done)
  }

  function ReadFile(data: seq<byte>): (r: Countries)
    ensures r.result.position <= |data|
  {
    if |data| < 2 then Countries(Failure(MissingVersion, 0), [])
    else if Read(data, 0, 2, true) != VERSION then Countries(Failure(UnsupportedVersion, 0), [])
    else ReadEntries(data, 2, [])
  }

  // ---------------------------------------------------------------- encoding

  function EncodePoint(p: Point, le: bool): (r: seq<byte>)
    ensures |r| == 16
  {
    Digits(p.lon, 8, le) + Digits(p.lat, 8, le)
  }

  function EncodePoints(ring: Ring, le: bool): (r: seq<byte>)
    ensures |r| == 16 * |ring|
  {
    if ring == [] then [] else EncodePoint(ring[0], le) + EncodePoints(ring[1..], le)
  }

  function EncodeRing(ring: Ring, le: bool): seq<byte> {
    Digits(|ring|, 4, le) + EncodePoints(ring, le)
  }

  function EncodeRings(rings: seq<Ring>, le: bool): seq<byte> {
    if rings == [] then [] else EncodeRing(rings[0], le) + EncodeRings(rings[1..], le)
  }

  function EncodeBody(rings: seq<Ring>, le: bool): seq<byte> {
    Digits(|rings|, 4, le) + EncodeRings(rings, le)
  }

  /** Every order byte other than 1 means big-endian. */
  predicate Little(order: byte) {
    order == 1
  }

  function Header(kind: nat, order: byte): (r: seq<byte>)
    ensures |r| == HEADER
  {
    [order] + Digits(kind, 4, Little(order))
  }

  /** The rings of a polygon and the order byte in front of them. */
  datatype Part = Part(rings: seq<Ring>, order: byte)

  function EncodePart(p: Part): seq<byte> {
    Header(POLYGON, p.order) + EncodeBody(p.rings, Little(p.order))
  }

  function EncodeParts(parts: seq<Part>): seq<byte> {
    if parts == [] then [] else EncodePart(parts[0]) + EncodeParts(parts[1..])
  }

  /** A geometry is a single polygon or several, each with its own order byte. */
  datatype Geometry = Single(part: Part) | Multi(parts: seq<Part>, order: byte)

  function EncodeMulti(parts: seq<Part>, order: byte): seq<byte> {
    Header(MULTI_POLYGON, order) + Digits(|parts|, 4, Little(order)) + EncodeParts(parts)
  }

  function EncodeGeometry(g: Geometry): seq<byte> {
    match g
    case Single(part) => EncodePart(part)
    case Multi(parts, order) => EncodeMulti(parts, order)
  }

  function Polygons(parts: seq<Part>): (r: seq<Polygon>)
    ensures |r| == |parts| && forall i :: 0 <= i < |parts| ==> r[i] == ToPolygon(parts[i].rings)
  {
    seq(|parts|, i requires 0 <= i < |parts| => ToPolygon(parts[i].rings))
  }

  function PolygonsOf(g: Geometry): seq<Polygon> {
    match g
    case Single(part) => [ToPolygon(part.rings)]
    case Multi(parts, _) => Polygons(parts)
  }

  /** The reader never looks at what follows the geometry within its entry. */
  datatype Entry = Entry(code: nat, geometry: Geometry, tail: seq<byte>)

  function EncodePayload(code: nat, blob: seq<byte>): (r: seq<byte>)
    ensures |r| == 6 + |blob|
  {
    Digits(code, 2, true) + Digits(|blob|, 4, true) + blob
  }

  function EncodeEntry(e: Entry): seq<byte> {
    EncodePayload(e.code, EncodeGeometry(e.geometry) + e.tail)
  }

  function EncodeEntries(entries: seq<Entry>): seq<byte> {
    if entries == [] then [] else EncodeEntry(entries[0]) + EncodeEntries(entries[1..])
  }

  function EncodeFile(entries: seq<Entry>): seq<byte> {
    Digits(VERSION, 2, true) + EncodeEntries(entries)
  }

  function CountryOf(e: Entry): Country {
    Country(e.code, PolygonsOf(e.geometry))
  }

  function CountriesOf(entries: seq<Entry>): (r: seq<Country>)
    ensures |r| == |entries| && forall i :: 0 <= i < |entries| ==> r[i] == CountryOf(entries[i])
  {
    seq(|entries|, i requires 0 <= i < |entries| => CountryOf(entries[i]))
  }

  // ---------------------------------------------------------------- what can be encoded

  predicate Count32(n: nat) {
    n < 0x1_0000_0000
  }

  ghost predicate RingsFit(rings: seq<Ring>) {
    Count32(|rings|) && forall i :: 0 <= i < |rings| ==> Count32(|rings[i]|)
  }

  ghost predicate PartFits(p: Part) {
    RingsFit(p.rings)
  }

  ghost predicate PartsFit(parts: seq<Part>) {
    forall i :: 0 <= i < |parts| ==> PartFits(parts[i])
  }

  ghost predicate GeometryFits(g: Geometry) {
    match g
    case Single(part) => PartFits(part)
    case Multi(parts, _) => Count32(|parts|) && PartsFit(parts)
  }

  /** All counts and sizes fit their fields. */
  ghost predicate EntryFits(e: Entry) {
    e.code < 0x1_0000 && GeometryFits(e.geometry) && Count32(|EncodeGeometry(e.geometry) + e.tail|)
  }

  ghost predicate EntriesFit(entries: seq<Entry>) {
    forall i :: 0 <= i < |entries| ==> EntryFits(entries[i])
  }
}
