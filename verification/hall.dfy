/** Exhibition halls: coarse containment regions kept apart from the entity catalog. */
module Halls {
  import opened Wrappers
  import opened Coordinates
  import opened JsonDecoding
  import opened Entities

  /** The datatype constructor is the memberwise initialiser `init(coordinates:)`. */
  datatype HallGeometry = HallGeometry(coordinates: seq<CoordinateWrapper>)

  datatype Hall = Hall(name: string, geometry: HallGeometry)

  /** `HallGeometry.init(from:)`: reads only `coordinates` and decodes the ring. */
  function DecodeHallGeometry(j: Json): (r: Result<HallGeometry, DecodeError>)
    ensures r.Success? ==> j.JObject? && "coordinates" in j.fields
  {
    var fields :- Container(j);
    var raw :- DecodeDoubleRows(fields, "coordinates");
    Success(HallGeometry(Wrap(DecodeRing(raw))))
  }

  /**
   * Decoding any object whose `coordinates` are the JSON of the given rows yields one
   * wrapped coordinate per row, decoded by the shared pair rule; no `type` key is needed.
   */
  lemma DecodeHallGeometryOfJson(fields: map<string, Json>, rows: seq<seq<real>>)
    requires "coordinates" in fields && fields["coordinates"] == RowsJson(rows)
    ensures DecodeHallGeometry(JObject(fields)) == Success(HallGeometry(Wrap(DecodeRing(rows))))
  {
    RowsRoundTrip(rows, "coordinates");
  }
}
