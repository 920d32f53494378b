/**
 * aircraftlib/opensky.py: `fetch_aircraft` turns an optional area into the
 * `lamin`/`lamax`/`lomin`/`lomax` filter of the `states/all` request. The
 * HTTP request itself is not part of this model: `FetchAircraft` returns the
 * options it would be sent.
 */
module OpenSky {
  import opened Wrappers
  import opened AircraftPosition

  /** The `area` argument: omitted (None), an `Area`, or any other object. */
  datatype AreaArgument = NoArea | GivenArea(area: Area) | OtherValue

  /** A ValueError from `Area.validate`, or the ValueError "Bad area given". */
  datatype FetchError = InvalidArea(cause: GeoError) | BadAreaGiven

  /** The request parameters as `fetch_aircraft` builds them, key by key. */
  method FetchAircraft(area: AreaArgument) returns (r: Result<map<string, real>, FetchError>)
    ensures area.NoArea? ==> r == Ok(map[])
    ensures area.OtherValue? ==> r == Err(BadAreaGiven)
    ensures area.GivenArea? && ValidateArea(area.area).Fail? ==>
              r == Err(InvalidArea(ValidateArea(area.area).error))
    ensures area.GivenArea? && ValidateArea(area.area) == Pass ==>
              var box := BoundingBox(area.area);
              r == Ok(map["lamin" := box.minLat, "lamax" := box.maxLat,
                          "lomin" := box.minLong, "lomax" := box.maxLong])
    ensures r.Ok? && r.value != map[] ==>
              r.value.Keys == {"lamin", "lamax", "lomin", "lomax"} &&
              r.value["lamin"] <= r.value["lamax"] && r.value["lomin"] <= r.value["lomax"] &&
              -90.0 <= r.value["lamin"] && r.value["lamax"] <= 90.0 &&
              -180.0 <= r.value["lomin"] && r.value["lomax"] <= 180.0
  {
    var options: map<string, real> := map[];
    if area != NoArea {
      match area
      case GivenArea(a) =>
        var valid := ValidateArea(a);
        if valid.Fail? {
          return Err(InvalidArea(valid.error));
        }
        var areaFields := BoundingBox(a);
        options := options["lamin" := areaFields.minLat];
        options := options["lamax" := areaFields.maxLat];
        options := options["lomin" := areaFields.minLong];
        options := options["lomax" := areaFields.maxLong];
      case OtherValue =>
        return Err(BadAreaGiven);
    }
    return Ok(options);
  }
}
