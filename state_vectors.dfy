/**
 * The raw OpenSky state vector: 17 positional, individually nullable fields
 * of mixed types, as listed in the comment block of aircraftlib/database.py.
 */
module StateVectors {

  /** One dynamically typed field value; `Null` is Python's `None`. */
  datatype Value =
    | Null
    | Str(s: string)
    | Int(i: int)
    | Real(r: real)
    | Bool(b: bool)
    | IntList(l: seq<int>)

  /** A raw state vector (a Python list delivered by the feed). */
  type RawVector = seq<Value>

  /** Positions of the raw fields that the model refers to by number. */
  const IcaoField: nat := 0
  const LastContactField: nat := 4
  const SensorsField: nat := 12
  /** Number of fields in a complete raw vector. */
  const RawFieldCount: nat := 17
}
