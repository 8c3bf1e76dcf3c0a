/** The keyed `Codable` conformance the app adds to `CLLocationCoordinate2D`
    (ContentView.swift): a coordinate is written as a keyed container with
    the entries "latitude" and "longitude", and read back from the same two
    keys, latitude first. The keyed container is modelled as the decoded
    `Value` tree; the JSON text itself is not modelled. */
module CoordinateCodec {
  import opened Common

  const LatitudeKey: string := "latitude"
  const LongitudeKey: string := "longitude"

  /** Swift's `DecodingError` cases a keyed `Double` read can raise. */
  datatype CodingError =
    | NotAKeyedContainer                 // `container(keyedBy:)` on a non-object
    | KeyNotFound(key: string)           // the key is absent
    | ValueNotFound(key: string)         // the key holds null
    | TypeMismatch(key: string)          // the key holds something other than a number

  /** `encode(to:)`: a keyed container holding exactly the two coordinates. */
  function Encode(c: Coordinate): (v: Value)
    ensures v.Object? && v.fields.Keys == {LatitudeKey, LongitudeKey}
    ensures v.fields[LatitudeKey] == Number(c.latitude)
    ensures v.fields[LongitudeKey] == Number(c.longitude)
  {
    Object(map[LatitudeKey := Number(c.latitude), LongitudeKey := Number(c.longitude)])
  }

  /** `container.decode(Double.self, forKey:)`. */
  function DecodeDouble(fields: map<string, Value>, key: string): (r: Result<real, CodingError>)
    ensures r.Success? <==> key in fields && fields[key].Number?
    ensures r.Success? ==> fields[key] == Number(r.value)
    ensures r.Failure? ==> !r.error.NotAKeyedContainer? && r.error.key == key
  {
    if key !in fields then Failure(KeyNotFound(key))
    else match fields[key]
      case Number(n) => Success(n)
      case Null => Failure(ValueNotFound(key))
      case _ => Failure(TypeMismatch(key))
  }

  /** `init(from:)`: latitude is read before longitude, so a container
      missing both reports the latitude key. Keys other than the two are
      ignored. */
  function Decode(v: Value): (r: Result<Coordinate, CodingError>)
    ensures r.Success? <==>
      v.Object? && LatitudeKey in v.fields && v.fields[LatitudeKey].Number?
      && LongitudeKey in v.fields && v.fields[LongitudeKey].Number?
    ensures r.Success? ==>
      v.fields[LatitudeKey] == Number(r.value.latitude) &&
      v.fields[LongitudeKey] == Number(r.value.longitude)
    ensures v.Object? && LatitudeKey !in v.fields ==> r == Failure(KeyNotFound(LatitudeKey))
    ensures v.Object? && LatitudeKey in v.fields && v.fields[LatitudeKey].Number? && LongitudeKey !in v.fields ==>
      r == Failure(KeyNotFound(LongitudeKey))
  {
    if !v.Object? then Failure(NotAKeyedContainer)
    else
      match DecodeDouble(v.fields, LatitudeKey)
      case Failure(e) => Failure(e)
      case Success(latitude) =>
        match DecodeDouble(v.fields, LongitudeKey)
        case Failure(e) => Failure(e)
        case Success(longitude) => Success(Coordinate(latitude, longitude))
  }

  /** Decoding what `encode` wrote gives the same coordinate. */
  lemma DecodeEncode(c: Coordinate)
    ensures Decode(Encode(c)) == Success(c)
  {
  }

  /** A container that decodes is the encoding of the decoded coordinate,
      up to the extra keys the decoder ignores. */
  lemma EncodeDecode(v: Value)
    requires Decode(v).Success?
    ensures forall k | k in Encode(Decode(v).value).fields :: k in v.fields && v.fields[k] == Encode(Decode(v).value).fields[k]
  {
  }

  /** Extra entries in the container do not change what is decoded. */
  lemma DecodeIgnoresOtherKeys(fields: map<string, Value>, key: string, extra: Value)
    requires key != LatitudeKey && key != LongitudeKey
    ensures Decode(Object(fields[key := extra])) == Decode(Object(fields))
  {
  }
}
