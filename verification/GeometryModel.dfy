/** The geometry tree of the platform SDK. */
module GeometryModel {
  import opened Prelude

  datatype Coordinate = Coordinate(latitude: real, longitude: real, altitude: Option<real>, elevation: Option<real>)

  datatype Polygon = Polygon(outerRing: seq<Coordinate>, innerRings: seq<seq<Coordinate>>)

  datatype Geometry =
    | Invalid
    | Point(point: Coordinate)
    | MultiPoint(coordinates: seq<Coordinate>)
    | LineString(line: seq<Coordinate>)
    | MultiLineString(lines: seq<seq<Coordinate>>)
    | PolygonOf(polygon: Polygon)
    | MultiPolygon(polygons: seq<Polygon>)
    | Collection(members: seq<Geometry>)
}
