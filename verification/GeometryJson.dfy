/** The geometry codec in place: encoders that push to a JSON value and decoders that push to a list,
    each proved to compute the function of the same name in `GeometryCodec`. */
module GeometryJson {
  import opened Prelude
  import opened GeometryModel
  import C = GeometryCodec
  import opened GeometryCodec

  /** Appending to a null value makes it an array. */
  function PushBack(j: Json, x: Json): Json
    requires j.Null? || j.Array?
  {
    if j.Null? then Array([x]) else Array(j.elements + [x])
  }

  lemma PushBackList(es: seq<Json>, x: Json)
    ensures PushBack(ListOf(es), x) == ListOf(es + [x])
  {
  }

  method EncodeCoordinates(cs: seq<Coordinate>) returns (j: Json)
    ensures j == C.EncodeCoordinates(cs)
  {
    hide EncodeCoordinate;
    j := Null;
    for i := 0 to |cs|
      invariant j == C.EncodeCoordinates(cs[..i])
    {
      ghost var es := seq(i, k requires 0 <= k < i => EncodeCoordinate(cs[..i][k]));
      PushBackList(es, EncodeCoordinate(cs[i]));
      j := PushBack(j, EncodeCoordinate(cs[i]));
      assert es + [EncodeCoordinate(cs[i])] ==
             seq(i + 1, k requires 0 <= k < i + 1 => EncodeCoordinate(cs[..i + 1][k]));
    }
    assert cs[..|cs|] == cs;
  }

  method EncodeLines(ls: seq<seq<Coordinate>>) returns (j: Json)
    ensures j == C.EncodeLines(ls)
  {
    hide C.EncodeCoordinates;
    j := Null;
    for i := 0 to |ls|
      invariant j == C.EncodeLines(ls[..i])
    {
      ghost var es := seq(i, k requires 0 <= k < i => C.EncodeCoordinates(ls[..i][k]));
      var line := EncodeCoordinates(ls[i]);
      PushBackList(es, line);
      j := PushBack(j, line);
      assert es + [line] == seq(i + 1, k requires 0 <= k < i + 1 => C.EncodeCoordinates(ls[..i + 1][k]));
    }
    assert ls[..|ls|] == ls;
  }

  method EncodePolygon(p: Polygon) returns (j: Json)
    ensures j == C.EncodePolygon(p)
  {
    hide C.EncodeCoordinates;
    j := Null;
    var outer := EncodeCoordinates(p.outerRing);
    j := PushBack(j, outer);
    for i := 0 to |p.innerRings|
      invariant j == Array([outer] + seq(i, k requires 0 <= k < i => C.EncodeCoordinates(p.innerRings[k])))
    {
      ghost var es := [outer] + seq(i, k requires 0 <= k < i => C.EncodeCoordinates(p.innerRings[k]));
      var ring := EncodeCoordinates(p.innerRings[i]);
      j := PushBack(j, ring);
      assert es + [ring] == [outer] + seq(i + 1, k requires 0 <= k < i + 1 => C.EncodeCoordinates(p.innerRings[k]));
    }
  }

  method EncodePolygons(ps: seq<Polygon>) returns (j: Json)
    ensures j == C.EncodePolygons(ps)
  {
    hide C.EncodePolygon;
    j := Null;
    for i := 0 to |ps|
      invariant j == C.EncodePolygons(ps[..i])
    {
      ghost var es := seq(i, k requires 0 <= k < i => C.EncodePolygon(ps[..i][k]));
      var polygon := EncodePolygon(ps[i]);
      PushBackList(es, polygon);
      j := PushBack(j, polygon);
      assert es + [polygon] == seq(i + 1, k requires 0 <= k < i + 1 => C.EncodePolygon(ps[..i + 1][k]));
    }
    assert ps[..|ps|] == ps;
  }

  method EncodeMembers(gs: seq<Geometry>) returns (j: Json)
    ensures j == ListOf(EncodeAll(gs))
    decreases gs, 0
  {
    hide C.Encode;
    j := Null;
    for i := 0 to |gs|
      invariant j == ListOf(EncodeAll(gs[..i]))
    {
      var member := Encode(gs[i]);
      PushBackList(EncodeAll(gs[..i]), member);
      j := PushBack(j, member);
      assert gs[..i + 1][..i] == gs[..i];
    }
    assert gs[..|gs|] == gs;
  }

  /** The name goes in first, the coordinates after; keys are kept in order. */
  method Encode(g: Geometry) returns (j: Json)
    ensures j == C.Encode(g)
    decreases g, 1
  {
    var kind := Entry("type", TypeName(g));
    if g.Invalid? {
      return Object([kind]);
    }
    var coordinates;
    match g {
      case Point(c) => coordinates := EncodeCoordinate(c);
      case MultiPoint(cs) => coordinates := EncodeCoordinates(cs);
      case LineString(cs) => coordinates := EncodeCoordinates(cs);
      case MultiLineString(ls) => coordinates := EncodeLines(ls);
      case PolygonOf(p) => coordinates := EncodePolygon(p);
      case MultiPolygon(ps) => coordinates := EncodePolygons(ps);
      case Collection(gs) => coordinates := EncodeMembers(gs);
    }
    j := Object([Entry("coordinates", coordinates), kind]);
  }

  lemma {:induction false} CoordinatesFail(js: seq<Json>, i: nat, f: Rounding)
    requires i <= |js| && C.DecodeCoordinates(js[..i], f) == None
    ensures C.DecodeCoordinates(js, f) == None
    decreases |js|
  {
    hide DecodeCoordinate;
    if i < |js| {
      var n := |js| - 1;
      assert js[..n][..i] == js[..i];
      CoordinatesFail(js[..n], i, f);
    } else {
      assert js[..i] == js;
    }
  }

  method DecodeCoordinates(js: seq<Json>, f: Rounding) returns (cs: Option<seq<Coordinate>>)
    ensures cs == C.DecodeCoordinates(js, f)
  {
    hide DecodeCoordinate;
    var list := [];
    for i := 0 to |js|
      invariant C.DecodeCoordinates(js[..i], f) == Some(list)
    {
      assert js[..i + 1][..i] == js[..i];
      match DecodeCoordinate(js[i], f)
      case Some(c) => list := list + [c];
      case None =>
        CoordinatesFail(js, i + 1, f);
        return None;
    }
    assert js[..|js|] == js;
    cs := Some(list);
  }

  lemma {:induction false} LinesFail(js: seq<Json>, i: nat, f: Rounding)
    requires i <= |js| && C.DecodeLines(js[..i], f) == None
    ensures C.DecodeLines(js, f) == None
    decreases |js|
  {
    hide C.DecodeCoordinates, Elements;
    if i < |js| {
      var n := |js| - 1;
      assert js[..n][..i] == js[..i];
      LinesFail(js[..n], i, f);
    } else {
      assert js[..i] == js;
    }
  }

  method DecodeLines(js: seq<Json>, f: Rounding) returns (ls: Option<seq<seq<Coordinate>>>)
    ensures ls == C.DecodeLines(js, f)
  {
    var list := [];
    for i := 0 to |js|
      invariant C.DecodeLines(js[..i], f) == Some(list)
    {
      assert js[..i + 1][..i] == js[..i];
      var line := DecodeCoordinates(Elements(js[i]), f);
      if line.None? {
        LinesFail(js, i + 1, f);
        return None;
      }
      list := list + [line.value];
    }
    assert js[..|js|] == js;
    ls := Some(list);
  }

  /** The first element becomes the outer ring, every later one an inner ring. */
  method DecodePolygon(js: seq<Json>, f: Rounding) returns (p: Option<Polygon>)
    ensures p == C.DecodePolygon(js, f)
  {
    hide C.DecodeCoordinates, Elements;
    var polygon := Polygon([], []);
    for index := 0 to |js|
      invariant index == 0 ==> polygon == Polygon([], [])
      invariant index > 0 ==> C.DecodeCoordinates(Elements(js[0]), f) == Some(polygon.outerRing)
      invariant index > 0 ==> C.DecodeLines(js[1..index], f) == Some(polygon.innerRings)
    {
      var ring := DecodeCoordinates(Elements(js[index]), f);
      if index > 0 { assert js[1..index + 1][..index - 1] == js[1..index]; }
      if ring.None? {
        if index > 0 {
          assert js[1..][..index] == js[1..index + 1];
          LinesFail(js[1..], index, f);
        }
        return None;
      }
      if index == 0 {
        polygon := polygon.(outerRing := ring.value);
      } else {
        polygon := polygon.(innerRings := polygon.innerRings + [ring.value]);
      }
    }
    if js != [] { assert js[1..|js|] == js[1..]; }
    p := Some(polygon);
  }

  lemma {:induction false} PolygonsFail(js: seq<Json>, i: nat, f: Rounding)
    requires i <= |js| && C.DecodePolygons(js[..i], f) == None
    ensures C.DecodePolygons(js, f) == None
    decreases |js|
  {
    hide C.DecodePolygon, Elements;
    if i < |js| {
      var n := |js| - 1;
      assert js[..n][..i] == js[..i];
      PolygonsFail(js[..n], i, f);
    } else {
      assert js[..i] == js;
    }
  }

  method DecodePolygons(js: seq<Json>, f: Rounding) returns (ps: Option<seq<Polygon>>)
    ensures ps == C.DecodePolygons(js, f)
  {
    hide C.DecodePolygon;
    var list := [];
    for i := 0 to |js|
      invariant C.DecodePolygons(js[..i], f) == Some(list)
    {
      assert js[..i + 1][..i] == js[..i];
      var polygon := DecodePolygon(Elements(js[i]), f);
      if polygon.None? {
        PolygonsFail(js, i + 1, f);
        return None;
      }
      list := list + [polygon.value];
    }
    assert js[..|js|] == js;
    ps := Some(list);
  }

  lemma {:induction false} ElementHeight(js: seq<Json>, i: nat)
    requires i < |js|
    ensures Height(js[i]) <= HeightAll(js)
    decreases |js|
  {
    var n := |js| - 1;
    if i < n { ElementHeight(js[..n], i); }
  }

  lemma {:induction false} MembersFail(js: seq<Json>, i: nat, f: Rounding)
    requires i <= |js| && DecodeAll(js[..i], f) == None
    ensures DecodeAll(js, f) == None
    decreases |js|
  {
    hide C.Decode;
    if i < |js| {
      var n := |js| - 1;
      assert js[..n][..i] == js[..i];
      MembersFail(js[..n], i, f);
    } else {
      assert js[..i] == js;
    }
  }

  method DecodeMembers(js: seq<Json>, f: Rounding) returns (gs: Option<seq<Geometry>>)
    ensures gs == DecodeAll(js, f)
    decreases HeightAll(js), 1
  {
    hide C.Decode;
    var list := [];
    for i := 0 to |js|
      invariant DecodeAll(js[..i], f) == Some(list)
    {
      assert js[..i + 1][..i] == js[..i];
      ElementHeight(js, i);
      var g := Decode(js[i], f);
      if g.None? {
        MembersFail(js, i + 1, f);
        return None;
      }
      list := list + [g.value];
    }
    assert js[..|js|] == js;
    gs := Some(list);
  }

  method Decode(j: Json, f: Rounding) returns (g: Option<Geometry>)
    ensures g == C.Decode(j, f)
    decreases Height(j), 0
  {
    hide C.DecodeCoordinates, C.DecodeLines, C.DecodePolygon, C.DecodePolygons, DecodeAll, DecodeCoordinate, Lookup;
    var kind, c := Member(j, "type"), Member(j, "coordinates");
    if kind.None? || !kind.value.Text? || c.None? {
      return None;
    }
    var name, es := kind.value.text, Elements(c.value);
    if name == "Point" {
      var p := DecodeCoordinate(c.value, f);
      g := if p.Some? then Some(Point(p.value)) else None;
    } else if name == "MultiPoint" {
      var cs := DecodeCoordinates(es, f);
      g := if cs.Some? then Some(MultiPoint(cs.value)) else None;
    } else if name == "LineString" {
      var cs := DecodeCoordinates(es, f);
      g := if cs.Some? then Some(LineString(cs.value)) else None;
    } else if name == "MultiLineString" {
      var ls := DecodeLines(es, f);
      g := if ls.Some? then Some(MultiLineString(ls.value)) else None;
    } else if name == "Polygon" {
      var p := DecodePolygon(es, f);
      g := if p.Some? then Some(PolygonOf(p.value)) else None;
    } else if name == "MultiPolygon" {
      var ps := DecodePolygons(es, f);
      g := if ps.Some? then Some(MultiPolygon(ps.value)) else None;
    } else if name == "GeometryCollection" {
      ElementsHeight(c.value);
      var gs := DecodeMembers(es, f);
      g := if gs.Some? then Some(Collection(gs.value)) else None;
    } else {
      g := None;
    }
  }
}
