/** Shared vocabulary of the Wya location-sharing model: optional values,
    geographic coordinates, and the key/value trees that the platform's
    JSON and keyed-coding layers hand to the application. */
module Common {

  /** Swift's `T?`: a value that may be absent. */
  datatype Option<+T> = None | Some(value: T)

  /** A thrown Swift error, or a successful value. */
  datatype Result<+T, +E> = Success(value: T) | Failure(error: E)

  /** `CLLocationCoordinate2D`. Latitude and longitude are Swift `Double`s;
      the model never does arithmetic on them, it only stores, copies and
      compares them, so `real` stands in for them. */
  datatype Coordinate = Coordinate(latitude: real, longitude: real)

  /** A decoded JSON document, as `JSONSerialization` or a keyed decoding
      container presents it: numbers, strings, null, arrays and objects
      keyed by strings. */
  datatype Value =
    | Number(n: real)
    | Text(s: string)
    | Null
    | List(items: seq<Value>)
    | Object(fields: map<string, Value>)

  /** True when `suffix` is a suffix of `s`. */
  predicate EndsWith(s: string, suffix: string) {
    |suffix| <= |s| && s[|s| - |suffix|..] == suffix
  }
}
