/** The entity, hall and brand geometry decoders agree on every input. */
module RingDecoders {
  import opened Wrappers
  import opened Coordinates
  import opened JsonDecoding
  import opened Entities
  import opened Halls
  import opened Brands

  /**
   * Whenever the entity decoder succeeds, the hall decoder succeeds with the same
   * coordinates; the brand decoder always returns the same outcome as the entity
   * decoder, with the wrappers removed.
   */
  lemma DecodersAgree(j: Json)
    ensures DecodeEntityGeometry(j).Success? ==>
      DecodeHallGeometry(j) == Success(HallGeometry(DecodeEntityGeometry(j).value.coordinates))
    ensures DecodeEntityGeometry(j).Success? ==>
      DecodeBrandGeometry(j) == Success(BrandGeometry(
        Unwrap(DecodeEntityGeometry(j).value.coordinates), DecodeEntityGeometry(j).value.geometryType))
    ensures DecodeEntityGeometry(j).Failure? ==>
      DecodeBrandGeometry(j) == Failure(DecodeEntityGeometry(j).error)
  {
    if DecodeEntityGeometry(j).Success? {
      var raw := DecodeDoubleRows(j.fields, "coordinates").value;
      UnwrapWrap(DecodeRing(raw));
    }
  }

  /**
   * The hall decoder never reads `type`: it fails only when the entity decoder fails on
   * something other than `type`, and then with the same error.
   */
  lemma HallFailsOnlyOnCoordinates(j: Json)
    requires DecodeHallGeometry(j).Failure?
    ensures DecodeEntityGeometry(j).Failure?
    ensures DecodeEntityGeometry(j).error.key != "type" ==>
      DecodeEntityGeometry(j).error == DecodeHallGeometry(j).error
  {
  }

  /**
   * On any geometry object with a string `type` and the JSON of the given rows under
   * `coordinates` (whatever other keys it has), the three decoders yield the same ring, in
   * input order.
   */
  lemma DecodersAgreeOnGeoJson(fields: map<string, Json>, rows: seq<seq<real>>, geometryType: string)
    requires "type" in fields && fields["type"] == JString(geometryType)
    requires "coordinates" in fields && fields["coordinates"] == RowsJson(rows)
    ensures DecodeEntityGeometry(JObject(fields)) == Success(EntityGeometry(Wrap(DecodeRing(rows)), geometryType))
    ensures DecodeHallGeometry(JObject(fields)) == Success(HallGeometry(Wrap(DecodeRing(rows))))
    ensures DecodeBrandGeometry(JObject(fields)) == Success(BrandGeometry(DecodeRing(rows), geometryType))
  {
    DecodeEntityGeometryOfJson(fields, rows, geometryType);
    DecodersAgree(JObject(fields));
    UnwrapWrap(DecodeRing(rows));
  }
}
