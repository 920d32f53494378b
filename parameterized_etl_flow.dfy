/**
 * tutorial/03_parameterized_etl_flow.py: the area selection of
 * `extract_live_data` and the filter-map loop of `transform`.
 *
 * The Prefect task wiring, the prints and the fetch calls are not modelled;
 * `add_airline_info` is not part of this model, so `Transform` reports the
 * vectors it would be called on.
 */
module ParameterizedEtlFlow {
  import opened Wrappers
  import opened Builtins
  import opened StateVectors
  import opened AircraftPosition
  import opened AircraftAnalysis

  /** The coordinates of an airport in the reference data, already converted by `float`. */
  datatype AirportRecord = AirportRecord(latitude: real, longitude: real)

  datatype EtlError = UnknownAirport(code: string) | CleanFailed(cause: CleanError)

  /**
   * The area `extract_live_data` passes to the fetch: none for a false
   * airport, otherwise the window of half side `radiusKm` around the
   * airport, whose lookup raises KeyError for an unknown code.
   */
  function ExtractArea(airport: Option<string>, radiusKm: real, airports: map<string, AirportRecord>,
                       earthRadius: real, parallelRadius: real): (r: Result<Option<Area>, EtlError>)
    requires earthRadius > 0.0 && parallelRadius > 0.0
    ensures !Truthy(airport) ==> r == Ok(None)
    ensures Truthy(airport) && airport.value !in airports ==> r == Err(UnknownAirport(airport.value))
    ensures Truthy(airport) && airport.value in airports ==>
              var data := airports[airport.value];
              r == Ok(Some(SurroundingArea(Position(data.latitude, data.longitude), radiusKm, earthRadius, parallelRadius)))
    ensures r.Ok? && r.value.Some? && radiusKm >= 0.0 ==>
              var a := r.value.value;
              var center := airports[airport.value];
              a.point1.lat <= center.latitude <= a.point2.lat &&
              a.point1.long <= center.longitude <= a.point2.long
  {
    if Truthy(airport) then
      if airport.value !in airports then Err(UnknownAirport(airport.value))
      else
        var data := airports[airport.value];
        var center := Position(data.latitude, data.longitude);
        SurroundingAreaWindow(center, radiusKm, earthRadius, parallelRadius);
        Ok(Some(SurroundingArea(center, radiusKm, earthRadius, parallelRadius)))
    else Ok(None)
  }

  /** What `transform` has produced when it stops: the kept vectors and the KeyError that stopped it, if any. */
  datatype TransformRun = TransformRun(kept: seq<seq<Value>>, failure: Option<CleanError>)

  /** The outcome of the loop over `states`, element by element from the first. */
  function TransformSpec(fields: seq<string>, states: seq<RawVector>): TransformRun
    decreases |states|
  {
    if states == [] then TransformRun([], None)
    else
      var before := TransformSpec(fields, states[..|states| - 1]);
      if before.failure.Some? then before
      else
        match CleanVector(fields, states[|states| - 1])
        case Err(e) => TransformRun(before.kept, Some(e))
        case Ok(None) => before
        case Ok(Some(v)) => TransformRun(before.kept + [v], None)
  }

  /** The positions of the vectors `clean_vector` rejects. */
  ghost function Rejected(fields: seq<string>, states: seq<RawVector>): set<nat> {
    set i: nat | i < |states| && IsRejected(fields, states[i])
  }

  /** `clean_vector` returns None for this vector. */
  predicate IsRejected(fields: seq<string>, raw: RawVector) {
    CleanVector(fields, raw) == Ok(None)
  }

  /**
   * `transform`: `add_airline_info` is called on each kept vector, the vector
   * is appended, and a rejected vector is skipped. A KeyError from
   * `clean_vector` propagates. `enriched` lists the vectors the enrichment
   * was called on, in call order.
   */
  method Transform(fields: seq<string>, states: seq<RawVector>)
    returns (r: Result<seq<seq<Value>>, EtlError>, enriched: seq<seq<Value>>)
    ensures enriched == TransformSpec(fields, states).kept
    ensures r == match TransformSpec(fields, states).failure
                 case None => Ok(TransformSpec(fields, states).kept)
                 case Some(e) => Err(CleanFailed(e))
  {
    var aircraftVectors: seq<seq<Value>> := [];
    enriched := [];
    var i := 0;
    while i < |states|
      invariant 0 <= i <= |states|
      invariant TransformSpec(fields, states[..i]) == TransformRun(aircraftVectors, None)
      invariant enriched == aircraftVectors
    {
      assert states[..i + 1][..i] == states[..i];
      var vector := CleanVector(fields, states[i]);
      match vector {
        case Err(e) =>
          assert TransformSpec(fields, states[..i + 1]) == TransformRun(aircraftVectors, Some(e));
          StopsAtFailure(fields, states, i + 1);
          return Err(CleanFailed(e)), enriched;
        case Ok(None) =>
        case Ok(Some(v)) =>
          enriched := enriched + [v];
          aircraftVectors := aircraftVectors + [v];
      }
      i := i + 1;
    }
    assert states[..i] == states;
    r := Ok(aircraftVectors);
  }

  /** Once a KeyError has stopped the loop, later vectors change nothing. */
  lemma {:induction false} StopsAtFailure(fields: seq<string>, states: seq<RawVector>, n: nat)
    requires n <= |states|
    requires TransformSpec(fields, states[..n]).failure.Some?
    ensures TransformSpec(fields, states) == TransformSpec(fields, states[..n])
    decreases |states| - n
  {
    if n == |states| {
      assert states[..n] == states;
    } else {
      assert states[..n + 1][..n] == states[..n];
      StopsAtFailure(fields, states, n + 1);
    }
  }

  /** An empty `states` list gives an empty output. */
  lemma TransformEmpty(fields: seq<string>)
    ensures TransformSpec(fields, []) == TransformRun([], None)
  {
  }

  /**
   * Without a KeyError, the output has one vector per kept input: its length
   * is the input length minus the number of rejected vectors.
   */
  lemma {:induction false} TransformLength(fields: seq<string>, states: seq<RawVector>)
    requires TransformSpec(fields, states).failure.None?
    ensures |TransformSpec(fields, states).kept| == |states| - |Rejected(fields, states)|
    decreases |states|
  {
    if states != [] {
      var n := |states| - 1;
      var front := states[..n];
      assert TransformSpec(fields, front).failure.None?;
      TransformLength(fields, front);
      RejectedStep(fields, states);
      var c := CleanVector(fields, states[n]);
      if c == Ok(None) {
        assert TransformSpec(fields, states).kept == TransformSpec(fields, front).kept;
      } else {
        assert c.Ok? && c.value.Some?;
        assert TransformSpec(fields, states).kept == TransformSpec(fields, front).kept + [c.value.value];
      }
    }
  }

  /** The rejected positions of a sequence are those of its front plus, perhaps, its last one. */
  lemma RejectedStep(fields: seq<string>, states: seq<RawVector>)
    requires states != []
    ensures var n := |states| - 1;
      Rejected(fields, states) ==
        Rejected(fields, states[..n]) + (if IsRejected(fields, states[n]) then {n} else {})
  {
    var n := |states| - 1;
    var last: set<nat> := if IsRejected(fields, states[n]) then {n} else {};
    forall i: nat ensures i in Rejected(fields, states) <==> i in Rejected(fields, states[..n]) + last {
      if i < n {
        assert states[i] == states[..n][i];
      }
    }
  }

  /**
   * The loop over a concatenation processes the first part, then the
   * second: the output keeps the input order of `states`.
   */
  lemma {:induction false} TransformConcat(fields: seq<string>, a: seq<RawVector>, b: seq<RawVector>)
    requires TransformSpec(fields, a).failure.None?
    ensures TransformSpec(fields, a + b) ==
              TransformRun(TransformSpec(fields, a).kept + TransformSpec(fields, b).kept,
                           TransformSpec(fields, b).failure)
    decreases |b|
  {
    if b == [] {
      assert a + b == a;
    } else {
      var front := b[..|b| - 1];
      assert (a + b)[..|a + b| - 1] == a + front;
      assert (a + b)[|a + b| - 1] == b[|b| - 1];
      TransformConcat(fields, a, front);
    }
  }

  /** Every vector that `clean_vector` keeps is in the output, unless a KeyError stopped the loop. */
  lemma {:induction false} TransformKeeps(fields: seq<string>, states: seq<RawVector>, i: nat)
    requires i < |states|
    requires TransformSpec(fields, states).failure.None?
    requires CleanVector(fields, states[i]).Ok? && CleanVector(fields, states[i]).value.Some?
    ensures CleanVector(fields, states[i]).value.value in TransformSpec(fields, states).kept
    decreases |states|
  {
    var front := states[..|states| - 1];
    if i < |states| - 1 {
      assert front[i] == states[i];
      TransformKeeps(fields, front, i);
    }
  }

  /** Every output vector is the cleaned form of some input vector. */
  lemma {:induction false} TransformSound(fields: seq<string>, states: seq<RawVector>, j: nat)
    requires j < |TransformSpec(fields, states).kept|
    ensures exists i :: 0 <= i < |states| && CleanVector(fields, states[i]) == Ok(Some(TransformSpec(fields, states).kept[j]))
    decreases |states|
  {
    var front := states[..|states| - 1];
    var before := TransformSpec(fields, front);
    if j < |before.kept| {
      TransformSound(fields, front, j);
      var i :| 0 <= i < |front| && CleanVector(fields, front[i]) == Ok(Some(before.kept[j]));
      assert front[i] == states[i];
    } else {
      assert CleanVector(fields, states[|states| - 1]) == Ok(Some(TransformSpec(fields, states).kept[j]));
    }
  }
}
