/** Brands and brand features, whose geometry stores bare coordinates rather than wrappers. */
module Brands {
  import opened Wrappers
  import opened Coordinates
  import opened JsonDecoding

  datatype Brand = Brand(
    name: string,
    hall: Option<string>,
    objectType: string,
    category: Option<seq<string>>,
    activity: Option<string>)

  datatype BrandProperties = BrandProperties(
    name: string,
    hall: Option<string>,
    objectType: string,
    category: Option<seq<string>>,
    activity: Option<string>)

  /** The datatype constructor is the memberwise initialiser `init(coordinates:type:)`. */
  datatype BrandGeometry = BrandGeometry(coordinates: seq<Coordinate>, geometryType: string)

  datatype BrandFeature = BrandFeature(properties: BrandProperties, geometry: BrandGeometry)

  /** `BrandGeometry.init(from:)`: reads `type`, then `coordinates`, and decodes the ring. */
  function DecodeBrandGeometry(j: Json): (r: Result<BrandGeometry, DecodeError>)
    ensures r.Success? ==> j.JObject? && "type" in j.fields && j.fields["type"] == JString(r.value.geometryType)
    ensures j.JObject? && "type" !in j.fields ==> r == Failure(KeyNotFound("type"))
  {
    var fields :- Container(j);
    var geometryType :- DecodeString(fields, "type");
    var raw :- DecodeDoubleRows(fields, "coordinates");
    Success(BrandGeometry(DecodeRing(raw), geometryType))
  }
}
