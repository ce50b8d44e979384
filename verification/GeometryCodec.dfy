/** Geometries to JSON and back, as functions: section 3.1 of RFC 7946 except that a collection keeps
    its members under "coordinates". Numbers come back through a conversion to single precision. */
module GeometryCodec {
  import opened Prelude
  import opened GeometryModel

  datatype Json =
    | Null
    | Text(text: string)
    | Number(number: real)
    | Array(elements: seq<Json>)
    | Object(members: seq<Entry>)

  datatype Entry = Entry(key: string, value: Json)

  /** Conversion of a double to the nearest float, seen as real numbers. */
  type Rounding = real -> real

  /** What appending element by element to a fresh value gives: null stays null if nothing comes. */
  function ListOf(elements: seq<Json>): Json {
    if elements == [] then Null else Array(elements)
  }

  // Encoding.

  function OptionalNumber(o: Option<real>): seq<Json> {
    if o.Some? then [Number(o.value)] else []
  }

  /** Longitude first; altitude and elevation follow if set. */
  function EncodeCoordinate(c: Coordinate): Json {
    Array([Number(c.longitude), Number(c.latitude)] + OptionalNumber(c.altitude) + OptionalNumber(c.elevation))
  }

  function EncodeCoordinates(cs: seq<Coordinate>): Json {
    ListOf(seq(|cs|, i requires 0 <= i < |cs| => EncodeCoordinate(cs[i])))
  }

  function EncodeLines(ls: seq<seq<Coordinate>>): Json {
    ListOf(seq(|ls|, i requires 0 <= i < |ls| => EncodeCoordinates(ls[i])))
  }

  function EncodePolygon(p: Polygon): Json {
    Array([EncodeCoordinates(p.outerRing)] +
          seq(|p.innerRings|, i requires 0 <= i < |p.innerRings| => EncodeCoordinates(p.innerRings[i])))
  }

  function EncodePolygons(ps: seq<Polygon>): Json {
    ListOf(seq(|ps|, i requires 0 <= i < |ps| => EncodePolygon(ps[i])))
  }

  /** The name of a kind; an invalid geometry has none. */
  function TypeName(g: Geometry): Json {
    match g
    case Invalid => Null
    case Point(_) => Text("Point")
    case MultiPoint(_) => Text("MultiPoint")
    case LineString(_) => Text("LineString")
    case MultiLineString(_) => Text("MultiLineString")
    case PolygonOf(_) => Text("Polygon")
    case MultiPolygon(_) => Text("MultiPolygon")
    case Collection(_) => Text("GeometryCollection")
  }

  function Encode(g: Geometry): Json {
    var kind := Entry("type", TypeName(g));
    if g.Invalid? then Object([kind])
    else
      var coordinates :=
        match g
        case Point(c) => EncodeCoordinate(c)
        case MultiPoint(cs) => EncodeCoordinates(cs)
        case LineString(cs) => EncodeCoordinates(cs)
        case MultiLineString(ls) => EncodeLines(ls)
        case PolygonOf(p) => EncodePolygon(p)
        case MultiPolygon(ps) => EncodePolygons(ps)
        case Collection(gs) => ListOf(EncodeAll(gs));
      Object([Entry("coordinates", coordinates), kind])
  }

  function EncodeAll(gs: seq<Geometry>): (r: seq<Json>)
    ensures |r| == |gs|
  {
    if gs == [] then [] else EncodeAll(gs[..|gs| - 1]) + [Encode(gs[|gs| - 1])]
  }

  // Decoding; None is an exception or a read the source leaves undefined.

  function Height(j: Json): nat {
    match j
    case Array(es) => 1 + HeightAll(es)
    case Object(ms) => 1 + HeightEntries(ms)
    case _ => 1
  }

  function HeightAll(js: seq<Json>): nat {
    if js == [] then 0 else HeightAll(js[..|js| - 1]) + Height(js[|js| - 1])
  }

  function HeightEntries(ms: seq<Entry>): nat {
    if ms == [] then 0 else HeightEntries(ms[1..]) + Height(ms[0].value)
  }

  /** Iterating over a value: nothing in null, the elements of an array, the member values of an
      object, and any other value is its own single element. */
  function Elements(j: Json): seq<Json> {
    match j
    case Null => []
    case Array(es) => es
    case Object(ms) => seq(|ms|, i requires 0 <= i < |ms| => ms[i].value)
    case _ => [j]
  }

  function Lookup(ms: seq<Entry>, key: string): (r: Option<Json>)
    ensures r.Some? ==> Height(r.value) <= HeightEntries(ms)
  {
    if ms == [] then None
    else if ms[0].key == key then Some(ms[0].value)
    else Lookup(ms[1..], key)
  }

  function Member(j: Json, key: string): (r: Option<Json>)
    ensures r.Some? ==> Height(r.value) < Height(j)
  {
    if j.Object? then Lookup(j.members, key) else None
  }

  function DecodeNumber(j: Json, f: Rounding): Option<real> {
    if j.Number? then Some(f(j.number)) else None
  }

  function DecodeCoordinate(j: Json, f: Rounding): Option<Coordinate> {
    if !j.Array? || |j.elements| < 2 then None
    else
      match (DecodeNumber(j.elements[1], f), DecodeNumber(j.elements[0], f))
      case (Some(lat), Some(lon)) =>
        if |j.elements| == 2 then Some(Coordinate(lat, lon, None, None))
        else (
          match DecodeNumber(j.elements[2], f)
          case Some(alt) => Some(Coordinate(lat, lon, Some(alt), None))
          case None => None)
      case _ => None
  }

  /** Decodes elements one by one; the first failure ends it. */
  function DecodeCoordinates(js: seq<Json>, f: Rounding): Option<seq<Coordinate>>
    decreases |js|
  {
    if js == [] then Some([])
    else
      match (DecodeCoordinates(js[..|js| - 1], f), DecodeCoordinate(js[|js| - 1], f))
      case (Some(cs), Some(c)) => Some(cs + [c])
      case _ => None
  }

  function DecodeLines(js: seq<Json>, f: Rounding): Option<seq<seq<Coordinate>>>
    decreases |js|
  {
    if js == [] then Some([])
    else
      match (DecodeLines(js[..|js| - 1], f), DecodeCoordinates(Elements(js[|js| - 1]), f))
      case (Some(ls), Some(l)) => Some(ls + [l])
      case _ => None
  }

  /** The first ring is the outer one; no ring at all leaves it empty. */
  function DecodePolygon(js: seq<Json>, f: Rounding): Option<Polygon> {
    if js == [] then Some(Polygon([], []))
    else
      match (DecodeCoordinates(Elements(js[0]), f), DecodeLines(js[1..], f))
      case (Some(outer), Some(inner)) => Some(Polygon(outer, inner))
      case _ => None
  }

  function DecodePolygons(js: seq<Json>, f: Rounding): Option<seq<Polygon>>
    decreases |js|
  {
    if js == [] then Some([])
    else
      match (DecodePolygons(js[..|js| - 1], f), DecodePolygon(Elements(js[|js| - 1]), f))
      case (Some(ps), Some(p)) => Some(ps + [p])
      case _ => None
  }

  lemma {:induction false} HeightAppend(a: seq<Json>, b: seq<Json>)
    ensures HeightAll(a + b) == HeightAll(a) + HeightAll(b)
    decreases |b|
  {
    if b == [] {
      assert a + b == a;
    } else {
      HeightAppend(a, b[..|b| - 1]);
      assert (a + b)[..|a + b| - 1] == a + b[..|b| - 1];
    }
  }

  lemma {:induction false} EntriesHeight(ms: seq<Entry>)
    ensures HeightAll(seq(|ms|, i requires 0 <= i < |ms| => ms[i].value)) == HeightEntries(ms)
  {
    if ms != [] {
      EntriesHeight(ms[1..]);
      var all := seq(|ms|, i requires 0 <= i < |ms| => ms[i].value);
      var rest := seq(|ms| - 1, i requires 0 <= i < |ms| - 1 => ms[1..][i].value);
      assert all == [ms[0].value] + rest;
      HeightAppend([ms[0].value], rest);
    }
  }

  lemma ElementsHeight(j: Json)
    ensures HeightAll(Elements(j)) <= Height(j)
  {
    match j
    case Object(ms) => EntriesHeight(ms);
    case Null => assert HeightAll([]) == 0;
    case Array(_) =>
    case _ => assert HeightAll([j]) == HeightAll([j][..0]) + Height(j);
  }

  function Decode(j: Json, f: Rounding): Option<Geometry>
    decreases Height(j), 0
  {
    match (Member(j, "type"), Member(j, "coordinates"))
    case (Some(Text(name)), Some(c)) =>
      if name == "Point" then
        match DecodeCoordinate(c, f) case Some(p) => Some(Point(p)) case None => None
      else if name == "MultiPoint" then
        match DecodeCoordinates(Elements(c), f) case Some(cs) => Some(MultiPoint(cs)) case None => None
      else if name == "LineString" then
        match DecodeCoordinates(Elements(c), f) case Some(cs) => Some(LineString(cs)) case None => None
      else if name == "MultiLineString" then
        match DecodeLines(Elements(c), f) case Some(ls) => Some(MultiLineString(ls)) case None => None
      else if name == "Polygon" then
        match DecodePolygon(Elements(c), f) case Some(p) => Some(PolygonOf(p)) case None => None
      else if name == "MultiPolygon" then
        match DecodePolygons(Elements(c), f) case Some(ps) => Some(MultiPolygon(ps)) case None => None
      else if name == "GeometryCollection" then
        ElementsHeight(c);
        match DecodeAll(Elements(c), f) case Some(gs) => Some(Collection(gs)) case None => None
      else None
    case _ => None
  }

  function DecodeAll(js: seq<Json>, f: Rounding): Option<seq<Geometry>>
    decreases HeightAll(js), 1, |js|
  {
    if js == [] then Some([])
    else
      match (DecodeAll(js[..|js| - 1], f), Decode(js[|js| - 1], f))
      case (Some(gs), Some(g)) => Some(gs + [g])
      case _ => None
  }
}
