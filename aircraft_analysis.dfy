/**
 * aircraftlib/analysis.py: `clean_vector`, which names the raw fields by
 * zipping the feed's field-name list onto the vector, rejects a vector
 * without a position and projects the rest onto the fields of interest.
 *
 * The feed's field-name list (`AIRCRAFT_VECTOR_FIELDS`) is imported from a
 * module that is not part of this model; it is the parameter `fields`.
 */
module AircraftAnalysis {
  import opened Wrappers
  import opened Builtins
  import opened StateVectors

  /** `FIELS_OF_INTEREST`, in the order of the returned tuple. */
  const FieldsOfInterest: seq<string> :=
    ["icao", "callsign", "time_position", "last_contact", "longitude", "latitude",
     "baro_altitude", "on_ground", "velocity", "true_track", "vertical_rate",
     "geo_altitude"]

  /** Raw fields that are never part of a cleaned vector. */
  const DroppedFields: set<string> :=
    {"origin_country", "sensors", "squawk", "spi", "position_source"}

  /** Looking up a name that the zipped dictionary lacks raises KeyError. */
  datatype CleanError = KeyError(key: string)

  /** The dictionary built from the first `n` (name, value) pairs; a later pair overwrites an earlier one. */
  function ZipPrefix(names: seq<string>, values: seq<Value>, n: nat): map<string, Value>
    requires n <= |names| && n <= |values|
  {
    if n == 0 then map[] else ZipPrefix(names, values, n - 1)[names[n - 1] := values[n - 1]]
  }

  /** `dict(zip(names, values))`: `zip` stops at the shorter sequence. */
  function Zipped(names: seq<string>, values: seq<Value>): map<string, Value> {
    ZipPrefix(names, values, Min(|names|, |values|))
  }

  /** The last of the first `n` positions that carries the name `key`. */
  function LastPosition(names: seq<string>, n: nat, key: string): (p: Option<nat>)
    requires n <= |names|
    ensures p.Some? ==> p.value < n && names[p.value] == key &&
                        forall j :: p.value < j < n ==> names[j] != key
    ensures p.None? ==> forall j :: 0 <= j < n ==> names[j] != key
  {
    if n == 0 then None
    else if names[n - 1] == key then Some(n - 1)
    else LastPosition(names, n - 1, key)
  }

  /** The raw position whose value the zipped dictionary holds under `key`. */
  function FieldPosition(fields: seq<string>, raw: RawVector, key: string): (p: Option<nat>)
    ensures p.Some? ==> p.value < |raw| && p.value < |fields| && fields[p.value] == key
  {
    LastPosition(fields, Min(|fields|, |raw|), key)
  }

  /** A key is in the zipped dictionary exactly when some zipped pair has that name, with the value of the last such pair. */
  lemma {:induction false} ZipLookup(names: seq<string>, values: seq<Value>, n: nat, key: string)
    requires n <= |names| && n <= |values|
    ensures key in ZipPrefix(names, values, n) <==> LastPosition(names, n, key).Some?
    ensures key in ZipPrefix(names, values, n) ==>
              ZipPrefix(names, values, n)[key] == values[LastPosition(names, n, key).value]
  {
    if n > 0 && names[n - 1] != key {
      ZipLookup(names, values, n - 1, key);
    }
  }

  /** The values under `keys`, in order; the first missing key raises KeyError. */
  function Project(clean: map<string, Value>, keys: seq<string>): (r: Result<seq<Value>, CleanError>)
    ensures r.Ok? <==> forall i :: 0 <= i < |keys| ==> keys[i] in clean
    ensures r.Ok? ==> |r.value| == |keys| &&
                      forall i :: 0 <= i < |keys| ==> r.value[i] == clean[keys[i]]
    ensures r.Err? ==> exists i :: 0 <= i < |keys| && r.error == KeyError(keys[i]) &&
                                   keys[i] !in clean && forall j :: 0 <= j < i ==> keys[j] in clean
  {
    if keys == [] then Ok([])
    else if keys[0] !in clean then Err(KeyError(keys[0]))
    else
      match Project(clean, keys[1..])
      case Ok(t) => Ok([clean[keys[0]]] + t)
      case Err(e) =>
        assert exists i :: 0 <= i < |keys[1..]| && e == KeyError(keys[1..][i]) && keys[1..][i] !in clean &&
                           forall j :: 0 <= j < i ==> keys[1..][j] in clean;
        var i :| 0 <= i < |keys[1..]| && e == KeyError(keys[1..][i]) && keys[1..][i] !in clean &&
                 forall j :: 0 <= j < i ==> keys[1..][j] in clean;
        assert e == KeyError(keys[i + 1]) && keys[i + 1] !in clean;
        assert forall j :: 0 <= j < i + 1 ==> keys[j] in clean by {
          forall j | 0 < j < i + 1 ensures keys[j] in clean {
            assert keys[j] == keys[1..][j - 1];
          }
        }
        Err(e)
  }

  /**
   * `clean_vector`: `Ok(None)` for a vector without longitude or latitude,
   * `Ok(Some(t))` with the 12 fields of interest otherwise, `Err` for a
   * KeyError. The tuple `(clean["longitude"], clean["latitude"])` is built
   * first, so a missing longitude is reported before a missing latitude.
   */
  function CleanVector(fields: seq<string>, raw: RawVector): (r: Result<Option<seq<Value>>, CleanError>)
    ensures r == Ok(None) <==> LacksPosition(fields, raw)
  {
    ZipLookup(fields, raw, Min(|fields|, |raw|), "longitude");
    ZipLookup(fields, raw, Min(|fields|, |raw|), "latitude");
    var clean := Zipped(fields, raw);
    if "longitude" !in clean then Err(KeyError("longitude"))
    else if "latitude" !in clean then Err(KeyError("latitude"))
    else if clean["longitude"] == Null || clean["latitude"] == Null then Ok(None)
    else
      match Project(clean, FieldsOfInterest)
      case Ok(t) => Ok(Some(t))
      case Err(e) => Err(e)
  }

  /** Whether the vector's position makes `clean_vector` return None. */
  predicate LacksPosition(fields: seq<string>, raw: RawVector) {
    var lon := FieldPosition(fields, raw, "longitude");
    var lat := FieldPosition(fields, raw, "latitude");
    lon.Some? && lat.Some? && (raw[lon.value] == Null || raw[lat.value] == Null)
  }

  /**
   * A kept vector has the 12 fields of interest in order, element k being
   * the raw value at the position named `FieldsOfInterest[k]`; nulls in those
   * fields are passed through, and the dropped fields are not among them.
   */
  lemma CleanVectorProjects(fields: seq<string>, raw: RawVector)
    requires CleanVector(fields, raw).Ok? && CleanVector(fields, raw).value.Some?
    ensures |CleanVector(fields, raw).value.value| == |FieldsOfInterest| == 12
    ensures forall k :: 0 <= k < 12 ==>
              FieldsOfInterest[k] !in DroppedFields &&
              FieldPosition(fields, raw, FieldsOfInterest[k]).Some? &&
              CleanVector(fields, raw).value.value[k] ==
                raw[FieldPosition(fields, raw, FieldsOfInterest[k]).value]
  {
    var n := Min(|fields|, |raw|);
    forall k | 0 <= k < 12
      ensures FieldPosition(fields, raw, FieldsOfInterest[k]).Some? &&
              CleanVector(fields, raw).value.value[k] ==
                raw[FieldPosition(fields, raw, FieldsOfInterest[k]).value]
    {
      ZipLookup(fields, raw, n, FieldsOfInterest[k]);
    }
  }

  /** A KeyError names a needed field that the zipped pairs do not supply. */
  lemma CleanVectorFails(fields: seq<string>, raw: RawVector)
    requires CleanVector(fields, raw).Err?
    ensures CleanVector(fields, raw).error.key in FieldsOfInterest
    ensures FieldPosition(fields, raw, CleanVector(fields, raw).error.key).None?
    ensures var lon := FieldPosition(fields, raw, "longitude");
            var lat := FieldPosition(fields, raw, "latitude");
            var key := CleanVector(fields, raw).error.key;
      && (lon.None? ==> key == "longitude")
      && (lon.Some? && lat.None? ==> key == "latitude")
      && (lon.Some? && lat.Some? ==>
            exists k :: 0 <= k < |FieldsOfInterest| && key == FieldsOfInterest[k] &&
                        forall j :: 0 <= j < k ==> FieldPosition(fields, raw, FieldsOfInterest[j]).Some?)
  {
    var n := Min(|fields|, |raw|);
    ZipLookup(fields, raw, n, CleanVector(fields, raw).error.key);
    ZipLookup(fields, raw, n, "longitude");
    ZipLookup(fields, raw, n, "latitude");
    forall j | 0 <= j < |FieldsOfInterest| {
      ZipLookup(fields, raw, n, FieldsOfInterest[j]);
    }
  }

  /**
   * Changing a field other than the longitude and latitude, to null or to
   * anything else, never changes whether the vector is rejected.
   */
  lemma RejectionIgnoresOtherFields(fields: seq<string>, raw: RawVector, i: nat, v: Value)
    requires i < |raw|
    requires FieldPosition(fields, raw, "longitude") != Some(i)
    requires FieldPosition(fields, raw, "latitude") != Some(i)
    ensures CleanVector(fields, raw[i := v]) == Ok(None) <==> CleanVector(fields, raw) == Ok(None)
  {
  }
}
