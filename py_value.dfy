/**
 * A JSON-like Python value: what request bodies, log contexts and queued
 * items are made of. Dictionaries keep insertion order, as Python's do, and
 * have string keys.
 */
module PyValue {

  datatype Value =
    | Null                      // Python None
    | Bool(b: bool)
    | Int(i: int)
    | Float(r: real)
    | Str(s: string)
    | List(items: seq<Value>)
    | Dict(fields: seq<Field>)

  datatype Field = Field(key: string, value: Value)

  /** Keys of a dictionary's fields, in order. */
  function Keys(fields: seq<Field>): (ks: seq<string>)
    ensures |ks| == |fields|
    ensures forall i :: 0 <= i < |fields| ==> ks[i] == fields[i].key
  {
    seq(|fields|, i requires 0 <= i < |fields| => fields[i].key)
  }
}

module GeoBounds {
  /** Inclusive latitude bounds used by every validator of the system. */
  predicate LatitudeInRange(lat: real)
  {
    -90.0 <= lat <= 90.0
  }

  /** Inclusive longitude bounds used by every validator of the system. */
  predicate LongitudeInRange(lng: real)
  {
    -180.0 <= lng <= 180.0
  }

  /**
   * What `float(x)` makes of a coordinate argument: a number, or a
   * conversion error carrying the text of the ValueError or TypeError.
   */
  datatype CoordInput = Numeric(value: real) | NonNumeric(reason: string)
}
