/** What comes back from encoding and decoding a geometry, for every geometry tree. */
module GeometryRoundTrip {
  import opened Prelude
  import opened GeometryModel
  import opened GeometryCodec

  /** A node without a name makes the whole tree unreadable. */
  predicate HasInvalid(g: Geometry) {
    match g
    case Invalid => true
    case Collection(gs) => AnyInvalid(gs)
    case _ => false
  }

  predicate AnyInvalid(gs: seq<Geometry>) {
    gs != [] && (AnyInvalid(gs[..|gs| - 1]) || HasInvalid(gs[|gs| - 1]))
  }

  /** Numbers go through single precision; the third number of a coordinate is read as its altitude,
      be it the altitude or, without one, the elevation. */
  function CanonCoordinate(c: Coordinate, f: Rounding): Coordinate {
    var third := if c.altitude.Some? then c.altitude else c.elevation;
    Coordinate(f(c.latitude), f(c.longitude), if third.Some? then Some(f(third.value)) else None, None)
  }

  function CanonCoordinates(cs: seq<Coordinate>, f: Rounding): (r: seq<Coordinate>)
    ensures |r| == |cs|
  {
    seq(|cs|, i requires 0 <= i < |cs| => CanonCoordinate(cs[i], f))
  }

  function CanonLines(ls: seq<seq<Coordinate>>, f: Rounding): (r: seq<seq<Coordinate>>)
    ensures |r| == |ls|
  {
    seq(|ls|, i requires 0 <= i < |ls| => CanonCoordinates(ls[i], f))
  }

  function CanonPolygon(p: Polygon, f: Rounding): Polygon {
    Polygon(CanonCoordinates(p.outerRing, f), CanonLines(p.innerRings, f))
  }

  function CanonPolygons(ps: seq<Polygon>, f: Rounding): (r: seq<Polygon>)
    ensures |r| == |ps|
  {
    seq(|ps|, i requires 0 <= i < |ps| => CanonPolygon(ps[i], f))
  }

  function Canon(g: Geometry, f: Rounding): Geometry {
    match g
    case Invalid => Invalid
    case Point(c) => Point(CanonCoordinate(c, f))
    case MultiPoint(cs) => MultiPoint(CanonCoordinates(cs, f))
    case LineString(cs) => LineString(CanonCoordinates(cs, f))
    case MultiLineString(ls) => MultiLineString(CanonLines(ls, f))
    case PolygonOf(p) => PolygonOf(CanonPolygon(p, f))
    case MultiPolygon(ps) => MultiPolygon(CanonPolygons(ps, f))
    case Collection(gs) => Collection(CanonAll(gs, f))
  }

  function CanonAll(gs: seq<Geometry>, f: Rounding): seq<Geometry> {
    if gs == [] then [] else CanonAll(gs[..|gs| - 1], f) + [Canon(gs[|gs| - 1], f)]
  }

  lemma ElementsOfList(es: seq<Json>)
    ensures Elements(ListOf(es)) == es
  {
  }

  lemma CoordinateTrip(c: Coordinate, f: Rounding)
    ensures DecodeCoordinate(EncodeCoordinate(c), f) == Some(CanonCoordinate(c, f))
  {
  }

  /** The numbers of a coordinate: longitude, latitude, then those of altitude and elevation that are set. */
  lemma CoordinateForm(c: Coordinate)
    ensures EncodeCoordinate(c) ==
              match (c.altitude, c.elevation)
              case (None, None) => Array([Number(c.longitude), Number(c.latitude)])
              case (Some(a), None) => Array([Number(c.longitude), Number(c.latitude), Number(a)])
              case (None, Some(e)) => Array([Number(c.longitude), Number(c.latitude), Number(e)])
              case (Some(a), Some(e)) => Array([Number(c.longitude), Number(c.latitude), Number(a), Number(e)])
  {
  }

  lemma {:induction false} CoordinatesTrip(cs: seq<Coordinate>, f: Rounding)
    ensures DecodeCoordinates(Elements(EncodeCoordinates(cs)), f) == Some(CanonCoordinates(cs, f))
    decreases |cs|
  {
    hide EncodeCoordinate, DecodeCoordinate, CanonCoordinate;
    var es := seq(|cs|, i requires 0 <= i < |cs| => EncodeCoordinate(cs[i]));
    ElementsOfList(es);
    if cs != [] {
      var n := |cs| - 1;
      CoordinatesTrip(cs[..n], f);
      ElementsOfList(seq(n, i requires 0 <= i < n => EncodeCoordinate(cs[..n][i])));
      assert es[..n] == seq(n, i requires 0 <= i < n => EncodeCoordinate(cs[..n][i]));
      CoordinateTrip(cs[n], f);
      assert CanonCoordinates(cs, f) == CanonCoordinates(cs[..n], f) + [CanonCoordinate(cs[n], f)];
    }
  }

  /** Rings and lines are encoded element by element alike, the rings of a polygon without the list's null. */
  lemma {:induction false} LinesTrip(ls: seq<seq<Coordinate>>, es: seq<Json>, f: Rounding)
    requires |es| == |ls| && forall i | 0 <= i < |ls| :: es[i] == EncodeCoordinates(ls[i])
    ensures DecodeLines(es, f) == Some(CanonLines(ls, f))
    decreases |ls|
  {
    hide EncodeCoordinates, DecodeCoordinates, CanonCoordinates, Elements;
    if ls != [] {
      var n := |ls| - 1;
      LinesTrip(ls[..n], es[..n], f);
      CoordinatesTrip(ls[n], f);
      assert CanonLines(ls, f) == CanonLines(ls[..n], f) + [CanonCoordinates(ls[n], f)];
    }
  }

  lemma PolygonTrip(p: Polygon, f: Rounding)
    ensures DecodePolygon(Elements(EncodePolygon(p)), f) == Some(CanonPolygon(p, f))
  {
    hide EncodeCoordinates, DecodeCoordinates, CanonCoordinates, DecodeLines, CanonLines;
    var es := Elements(EncodePolygon(p));
    CoordinatesTrip(p.outerRing, f);
    LinesTrip(p.innerRings, es[1..], f);
  }

  lemma {:induction false} PolygonsTrip(ps: seq<Polygon>, es: seq<Json>, f: Rounding)
    requires |es| == |ps| && forall i | 0 <= i < |ps| :: es[i] == EncodePolygon(ps[i])
    ensures DecodePolygons(es, f) == Some(CanonPolygons(ps, f))
    decreases |ps|
  {
    hide EncodePolygon, DecodePolygon, CanonPolygon, Elements;
    if ps != [] {
      var n := |ps| - 1;
      PolygonsTrip(ps[..n], es[..n], f);
      PolygonTrip(ps[n], f);
      assert CanonPolygons(ps, f) == CanonPolygons(ps[..n], f) + [CanonPolygon(ps[n], f)];
    }
  }

  /** The members of every encoded geometry, by the names of section 1.4 of RFC 7946. */
  lemma EncodedForm(g: Geometry)
    ensures g.Invalid? ==> Encode(g) == Object([Entry("type", Null)])
    ensures g.Point? ==>
              Encode(g) == Object([Entry("coordinates", EncodeCoordinate(g.point)), Entry("type", Text("Point"))])
    ensures g.MultiPoint? ==>
              Encode(g) == Object([Entry("coordinates", EncodeCoordinates(g.coordinates)),
                                   Entry("type", Text("MultiPoint"))])
    ensures g.LineString? ==>
              Encode(g) == Object([Entry("coordinates", EncodeCoordinates(g.line)), Entry("type", Text("LineString"))])
    ensures g.MultiLineString? ==>
              Encode(g) == Object([Entry("coordinates", EncodeLines(g.lines)), Entry("type", Text("MultiLineString"))])
    ensures g.PolygonOf? ==>
              Encode(g) == Object([Entry("coordinates", EncodePolygon(g.polygon)), Entry("type", Text("Polygon"))])
    ensures g.MultiPolygon? ==>
              Encode(g) == Object([Entry("coordinates", EncodePolygons(g.polygons)),
                                   Entry("type", Text("MultiPolygon"))])
    ensures g.Collection? ==>
              Encode(g) == Object([Entry("coordinates", ListOf(EncodeAll(g.members))),
                                   Entry("type", Text("GeometryCollection"))])
  {
  }

  /** The elements of encoded lists, one for each of theirs: the outer ring before the inner ones. */
  lemma EncodedElements(cs: seq<Coordinate>, ls: seq<seq<Coordinate>>, p: Polygon, ps: seq<Polygon>, i: nat)
    ensures |Elements(EncodeCoordinates(cs))| == |cs| && |Elements(EncodeLines(ls))| == |ls|
    ensures |Elements(EncodePolygon(p))| == 1 + |p.innerRings| && |Elements(EncodePolygons(ps))| == |ps|
    ensures i < |cs| ==> Elements(EncodeCoordinates(cs))[i] == EncodeCoordinate(cs[i])
    ensures i < |ls| ==> Elements(EncodeLines(ls))[i] == EncodeCoordinates(ls[i])
    ensures Elements(EncodePolygon(p))[0] == EncodeCoordinates(p.outerRing)
    ensures i < |p.innerRings| ==> Elements(EncodePolygon(p))[i + 1] == EncodeCoordinates(p.innerRings[i])
    ensures i < |ps| ==> Elements(EncodePolygons(ps))[i] == EncodePolygon(ps[i])
  {
    hide EncodeCoordinate;
    ElementsOfList(seq(|cs|, k requires 0 <= k < |cs| => EncodeCoordinate(cs[k])));
    hide EncodeCoordinates;
    ElementsOfList(seq(|ls|, k requires 0 <= k < |ls| => EncodeCoordinates(ls[k])));
    ElementsOfList(seq(|ps|, k requires 0 <= k < |ps| => EncodePolygon(ps[k])));
  }

  /** Whatever is decoded, from whatever JSON, is of the kind the JSON names, and has no invalid node
      at its root. */
  lemma DecodedKind(j: Json, f: Rounding)
    ensures Decode(j, f).Some? ==>
              Member(j, "type") == Some(TypeName(Decode(j, f).value)) && !Decode(j, f).value.Invalid?
  {
    hide DecodeCoordinate, DecodeCoordinates, DecodeLines, DecodePolygon, DecodePolygons, DecodeAll, Elements, Lookup;
  }

  lemma EncodedMembers(g: Geometry)
    ensures Member(Encode(g), "type") == Some(TypeName(g))
    ensures g.Invalid? ==> Member(Encode(g), "coordinates") == None
    ensures g.Point? ==> Member(Encode(g), "coordinates") == Some(EncodeCoordinate(g.point))
    ensures g.MultiPoint? ==> Member(Encode(g), "coordinates") == Some(EncodeCoordinates(g.coordinates))
    ensures g.LineString? ==> Member(Encode(g), "coordinates") == Some(EncodeCoordinates(g.line))
    ensures g.MultiLineString? ==> Member(Encode(g), "coordinates") == Some(EncodeLines(g.lines))
    ensures g.PolygonOf? ==> Member(Encode(g), "coordinates") == Some(EncodePolygon(g.polygon))
    ensures g.MultiPolygon? ==> Member(Encode(g), "coordinates") == Some(EncodePolygons(g.polygons))
    ensures g.Collection? ==> Member(Encode(g), "coordinates") == Some(ListOf(EncodeAll(g.members)))
  {
    hide EncodeCoordinate, EncodeCoordinates, EncodeLines, EncodePolygon, EncodePolygons, EncodeAll, ListOf, TypeName;
    var ms := Encode(g).members;
    assert "type" != "coordinates" by { assert |"type"| != |"coordinates"|; }
    if !g.Invalid? {
      assert ms[1..] == [Entry("type", TypeName(g))];
      assert Lookup(ms[1..], "type") == Some(TypeName(g));
    }
  }

  /** Decoding an encoded geometry gives it back in canonical form, and fails exactly when some node
      of the tree is invalid. */
  lemma {:induction false} RoundTrip(g: Geometry, f: Rounding)
    ensures Decode(Encode(g), f) == if HasInvalid(g) then None else Some(Canon(g, f))
    decreases g, 1
  {
    hide Encode, EncodeCoordinate, EncodeCoordinates, EncodePolygon, DecodeCoordinate, DecodeCoordinates, DecodeLines,
         DecodePolygon, DecodePolygons, CanonCoordinate, CanonCoordinates, CanonLines, CanonPolygon, CanonPolygons,
         Member, Lookup, DecodeAll, EncodeAll, Elements;
    EncodedMembers(g);
    match g
    case Invalid =>
    case Point(c) => CoordinateTrip(c, f);
    case MultiPoint(cs) => CoordinatesTrip(cs, f);
    case LineString(cs) => CoordinatesTrip(cs, f);
    case MultiLineString(ls) =>
      var es := seq(|ls|, i requires 0 <= i < |ls| => EncodeCoordinates(ls[i]));
      ElementsOfList(es);
      LinesTrip(ls, es, f);
    case PolygonOf(p) => PolygonTrip(p, f);
    case MultiPolygon(ps) =>
      var es := seq(|ps|, i requires 0 <= i < |ps| => EncodePolygon(ps[i]));
      ElementsOfList(es);
      PolygonsTrip(ps, es, f);
    case Collection(gs) =>
      ElementsOfList(EncodeAll(gs));
      AllTrip(gs, f);
  }

  lemma {:induction false} AllTrip(gs: seq<Geometry>, f: Rounding)
    ensures DecodeAll(EncodeAll(gs), f) == if AnyInvalid(gs) then None else Some(CanonAll(gs, f))
    decreases gs, 0
  {
    hide Encode, Decode, Canon, HasInvalid;
    if gs != [] {
      var n := |gs| - 1;
      AllTrip(gs[..n], f);
      RoundTrip(gs[n], f);
      assert EncodeAll(gs)[..n] == EncodeAll(gs[..n]);
    }
  }

  // When the canonical form is the geometry itself.

  predicate ExactCoordinate(c: Coordinate, f: Rounding) {
    && c.elevation.None? && f(c.latitude) == c.latitude && f(c.longitude) == c.longitude
    && (c.altitude.Some? ==> f(c.altitude.value) == c.altitude.value)
  }

  predicate ExactLine(cs: seq<Coordinate>, f: Rounding) {
    forall i | 0 <= i < |cs| :: ExactCoordinate(cs[i], f)
  }

  predicate ExactLines(ls: seq<seq<Coordinate>>, f: Rounding) {
    forall i | 0 <= i < |ls| :: ExactLine(ls[i], f)
  }

  predicate ExactPolygon(p: Polygon, f: Rounding) {
    ExactLine(p.outerRing, f) && ExactLines(p.innerRings, f)
  }

  /** No coordinate of the tree has an elevation, and every number survives single precision. */
  predicate Exact(g: Geometry, f: Rounding) {
    match g
    case Invalid => true
    case Point(c) => ExactCoordinate(c, f)
    case MultiPoint(cs) => ExactLine(cs, f)
    case LineString(cs) => ExactLine(cs, f)
    case MultiLineString(ls) => ExactLines(ls, f)
    case PolygonOf(p) => ExactPolygon(p, f)
    case MultiPolygon(ps) => forall i | 0 <= i < |ps| :: ExactPolygon(ps[i], f)
    case Collection(gs) => ExactAll(gs, f)
  }

  predicate ExactAll(gs: seq<Geometry>, f: Rounding) {
    gs != [] ==> ExactAll(gs[..|gs| - 1], f) && Exact(gs[|gs| - 1], f)
  }

  lemma LineExactIff(cs: seq<Coordinate>, f: Rounding)
    ensures CanonCoordinates(cs, f) == cs <==> ExactLine(cs, f)
  {
    forall i | 0 <= i < |cs|
      ensures CanonCoordinates(cs, f)[i] == cs[i] <==> ExactCoordinate(cs[i], f)
    {
    }
  }

  lemma LinesExactIff(ls: seq<seq<Coordinate>>, f: Rounding)
    ensures CanonLines(ls, f) == ls <==> ExactLines(ls, f)
  {
    forall i | 0 <= i < |ls|
      ensures CanonLines(ls, f)[i] == ls[i] <==> ExactLine(ls[i], f)
    {
      LineExactIff(ls[i], f);
    }
  }

  lemma PolygonExactIff(p: Polygon, f: Rounding)
    ensures CanonPolygon(p, f) == p <==> ExactPolygon(p, f)
  {
    LineExactIff(p.outerRing, f);
    LinesExactIff(p.innerRings, f);
  }

  lemma PolygonsExactIff(ps: seq<Polygon>, f: Rounding)
    ensures CanonPolygons(ps, f) == ps <==> forall i | 0 <= i < |ps| :: ExactPolygon(ps[i], f)
  {
    forall i | 0 <= i < |ps|
      ensures CanonPolygons(ps, f)[i] == ps[i] <==> ExactPolygon(ps[i], f)
    {
      PolygonExactIff(ps[i], f);
    }
  }

  lemma {:induction false} CanonExactIff(g: Geometry, f: Rounding)
    ensures Canon(g, f) == g <==> Exact(g, f)
    decreases g, 1
  {
    hide CanonCoordinates, CanonLines, CanonPolygon, CanonPolygons, CanonAll;
    hide ExactLine, ExactLines, ExactPolygon, ExactAll;
    match g
    case MultiPoint(cs) => LineExactIff(cs, f);
    case LineString(cs) => LineExactIff(cs, f);
    case MultiLineString(ls) => LinesExactIff(ls, f);
    case PolygonOf(p) => PolygonExactIff(p, f);
    case MultiPolygon(ps) => PolygonsExactIff(ps, f);
    case Collection(gs) => AllExactIff(gs, f);
    case _ =>
  }

  lemma {:induction false} AllExactIff(gs: seq<Geometry>, f: Rounding)
    ensures |CanonAll(gs, f)| == |gs| && (CanonAll(gs, f) == gs <==> ExactAll(gs, f))
    decreases gs, 0
  {
    hide Canon, Exact;
    if gs != [] {
      var n := |gs| - 1;
      AllExactIff(gs[..n], f);
      CanonExactIff(gs[n], f);
      assert gs == gs[..n] + [gs[n]];
      assert CanonAll(gs, f)[..n] == CanonAll(gs[..n], f) && CanonAll(gs, f)[n] == Canon(gs[n], f);
    }
  }

  /** A geometry comes back as it was exactly when none of its nodes is invalid, none of its
      coordinates has an elevation, and all its numbers survive single precision. */
  lemma ExactRoundTripIff(g: Geometry, f: Rounding)
    ensures Decode(Encode(g), f) == Some(g) <==> !HasInvalid(g) && Exact(g, f)
  {
    hide Decode, Encode, Canon, Exact, HasInvalid;
    RoundTrip(g, f);
    CanonExactIff(g, f);
  }
}
