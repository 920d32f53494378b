/**
 * aircraftlib/position.py: positions, areas, their validation, the bounding
 * box of an area and the window `surrounding_area` builds around a centre.
 *
 * Coordinates are exact reals. The WGS 84 radius at the centre's latitude and
 * the radius of its parallel (`wgs84_earth_radius` and the cosine) are
 * parameters, not computed.
 */
module AircraftPosition {
  import opened Wrappers
  import opened Builtins

  datatype Position = Position(lat: real, long: real)

  /** The two points the user gave, in that order. */
  datatype Area = Area(point1: Position, point2: Position)

  /** `(min lat, max lat, min long, max long)`. */
  datatype Box = Box(minLat: real, maxLat: real, minLong: real, maxLong: real)

  /** The ValueErrors `Position.validate` raises. */
  datatype GeoError = BadLatitude(lat: real) | BadLongitude(long: real)

  /** `Position.validate`: latitude is checked before longitude. */
  function Validate(p: Position): (r: Outcome<GeoError>)
    ensures r == Pass <==> -90.0 <= p.lat <= 90.0 && -180.0 <= p.long <= 180.0
    ensures !(-90.0 <= p.lat <= 90.0) ==> r == Fail(BadLatitude(p.lat))
    ensures r == Fail(BadLongitude(p.long)) <==> -90.0 <= p.lat <= 90.0 && !(-180.0 <= p.long <= 180.0)
  {
    if p.lat < -90.0 || p.lat > 90.0 then Fail(BadLatitude(p.lat))
    else if p.long < -180.0 || p.long > 180.0 then Fail(BadLongitude(p.long))
    else Pass
  }

  /** `Area.validate`: validates `point1`, then `point2`; the first error is raised. */
  function ValidateArea(a: Area): (r: Outcome<GeoError>)
    ensures r == Pass <==> Validate(a.point1) == Pass && Validate(a.point2) == Pass
    ensures Validate(a.point1).Fail? ==> r == Validate(a.point1)
    ensures Validate(a.point1) == Pass ==> r == Validate(a.point2)
  {
    match Validate(a.point1)
    case Fail(e) => Fail(e)
    case Pass => Validate(a.point2)
  }

  predicate InBox(p: Position, b: Box) {
    b.minLat <= p.lat <= b.maxLat && b.minLong <= p.long <= b.maxLong
  }

  /** `Area.bounding_box`: the smallest box holding both points. */
  function BoundingBox(a: Area): (b: Box)
    ensures b.minLat <= b.maxLat && b.minLong <= b.maxLong
    ensures InBox(a.point1, b) && InBox(a.point2, b)
    ensures b.minLat in {a.point1.lat, a.point2.lat} && b.maxLat in {a.point1.lat, a.point2.lat}
    ensures b.minLong in {a.point1.long, a.point2.long} && b.maxLong in {a.point1.long, a.point2.long}
  {
    Box(MinReal(a.point1.lat, a.point2.lat), MaxReal(a.point1.lat, a.point2.lat),
        MinReal(a.point1.long, a.point2.long), MaxReal(a.point1.long, a.point2.long))
  }

  /** Any box with the three properties above is the bounding box, so the order of the points is irrelevant. */
  lemma BoundingBoxUnique(a: Area, b: Box)
    requires b.minLat <= b.maxLat && b.minLong <= b.maxLong
    requires InBox(a.point1, b) && InBox(a.point2, b)
    requires b.minLat in {a.point1.lat, a.point2.lat} && b.maxLat in {a.point1.lat, a.point2.lat}
    requires b.minLong in {a.point1.long, a.point2.long} && b.maxLong in {a.point1.long, a.point2.long}
    ensures b == BoundingBox(a) == BoundingBox(Area(a.point2, a.point1))
  {
  }

  /** The conversions use `math.pi` to the digits Python prints it with; they are inverse to each other. */
  function Deg2Rad(degrees: real): (radians: real)
    ensures Rad2Deg(radians) == degrees
    ensures radians >= 0.0 <==> degrees >= 0.0
  {
    3.141592653589793 * degrees / 180.0
  }

  function Rad2Deg(radians: real): (degrees: real)
    ensures degrees >= 0.0 <==> radians >= 0.0
    ensures degrees == 0.0 <==> radians == 0.0
  {
    180.0 * radians / 3.141592653589793
  }

  /** The half side of the window in metres. */
  function HalfSideMetres(halfSideKm: real): (metres: real)
    ensures metres / 1000.0 == halfSideKm
    ensures metres >= 0.0 <==> halfSideKm >= 0.0
  {
    1000.0 * halfSideKm
  }

  /**
   * `surrounding_area`: the centre, in radians, plus and minus the half side
   * divided by the earth's radius (latitude) and by the parallel's radius
   * (longitude), each mapped back to degrees; `point1` is the low corner.
   * The window is symmetric about the centre, its half extents being the
   * half side in metres over the two radii, in degrees.
   */
  function SurroundingArea(center: Position, halfSideKm: real, radius: real, parallelRadius: real): (a: Area)
    requires radius > 0.0 && parallelRadius > 0.0
    ensures a.point2.lat - center.lat == center.lat - a.point1.lat == Rad2Deg(HalfSideMetres(halfSideKm) / radius)
    ensures a.point2.long - center.long == center.long - a.point1.long ==
            Rad2Deg(HalfSideMetres(halfSideKm) / parallelRadius)
  {
    var lat := Deg2Rad(center.lat);
    var lon := Deg2Rad(center.long);
    var halfSide := HalfSideMetres(halfSideKm);
    var latMin := lat - halfSide / radius;
    var latMax := lat + halfSide / radius;
    var lonMin := lon - halfSide / parallelRadius;
    var lonMax := lon + halfSide / parallelRadius;
    Area(Position(Rad2Deg(latMin), Rad2Deg(lonMin)), Position(Rad2Deg(latMax), Rad2Deg(lonMax)))
  }

  /**
   * For a half side of at least zero the centre lies inside the window,
   * and `point1` and `point2` are its low and high corners.
   */
  lemma SurroundingAreaWindow(center: Position, halfSideKm: real, radius: real, parallelRadius: real)
    requires radius > 0.0 && parallelRadius > 0.0
    ensures halfSideKm >= 0.0 ==>
      var a := SurroundingArea(center, halfSideKm, radius, parallelRadius);
      && a.point1.lat <= center.lat <= a.point2.lat
      && a.point1.long <= center.long <= a.point2.long
      && BoundingBox(a) == Box(a.point1.lat, a.point2.lat, a.point1.long, a.point2.long)
  {
  }
}
