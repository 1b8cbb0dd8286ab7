/** Venue features as the app stores them in its entity catalog, and their geometry decoding. */
module Entities {
  import opened Wrappers
  import opened Coordinates
  import opened JsonDecoding
  import Sequences

  /** A coordinate with value equality and hashing, so that geometries can be `Hashable`. */
  datatype CoordinateWrapper = CoordinateWrapper(coordinate: Coordinate)

  /** The wrapper's `==`: same latitude and same longitude. */
  predicate SameCoordinate(lhs: CoordinateWrapper, rhs: CoordinateWrapper) {
    lhs.coordinate.latitude == rhs.coordinate.latitude &&
    lhs.coordinate.longitude == rhs.coordinate.longitude
  }

  /**
   * The wrapper's `hash(into:)`: the hasher's state is the sequence of values fed to it,
   * and the wrapper feeds its latitude, then its longitude.
   */
  function HashInto(hasher: seq<real>, w: CoordinateWrapper): seq<real> {
    hasher + [w.coordinate.latitude, w.coordinate.longitude]
  }

  /** `==` on wrappers is exactly equality of the two coordinates. */
  lemma SameCoordinateIsEquality(lhs: CoordinateWrapper, rhs: CoordinateWrapper)
    ensures SameCoordinate(lhs, rhs) <==> lhs == rhs
  {
  }

  /** `Hashable` law: wrappers equal under `==` leave any hasher in the same state. */
  lemma EqualWrappersHashEqually(hasher: seq<real>, lhs: CoordinateWrapper, rhs: CoordinateWrapper)
    requires SameCoordinate(lhs, rhs)
    ensures HashInto(hasher, lhs) == HashInto(hasher, rhs)
  {
  }

  datatype EntityProperties = EntityProperties(
    name: string,
    hall: Option<string>,
    objectType: string,
    category: Option<seq<string>>,
    activity: Option<string>,
    isFocused: Option<bool>)

  /** The datatype constructor is the memberwise initialiser `init(coordinates:type:)`. */
  datatype EntityGeometry = EntityGeometry(coordinates: seq<CoordinateWrapper>, geometryType: string)

  datatype Entity = Entity(properties: EntityProperties, geometry: EntityGeometry)

  /** Wraps each coordinate of a ring. */
  function Wrap(ring: seq<Coordinate>): seq<CoordinateWrapper> {
    Sequences.Map(ring, (c: Coordinate) => CoordinateWrapper(c))
  }

  /** Unwraps each coordinate of a ring. */
  function Unwrap(ring: seq<CoordinateWrapper>): seq<Coordinate> {
    Sequences.Map(ring, (w: CoordinateWrapper) => w.coordinate)
  }

  lemma UnwrapWrap(ring: seq<Coordinate>)
    ensures Unwrap(Wrap(ring)) == ring
  {
    assert forall i :: 0 <= i < |ring| ==> Unwrap(Wrap(ring))[i] == ring[i];
  }

  /**
   * `EntityGeometry.init(from:)`: reads `type`, then `coordinates`, and decodes the ring.
   * The stored `type` is the input's string exactly.
   */
  function DecodeEntityGeometry(j: Json): (r: Result<EntityGeometry, DecodeError>)
    ensures r.Success? ==> j.JObject? && "type" in j.fields && j.fields["type"] == JString(r.value.geometryType)
    ensures j.JObject? && "type" !in j.fields ==> r == Failure(KeyNotFound("type"))
  {
    var fields :- Container(j);
    var geometryType :- DecodeString(fields, "type");
    var raw :- DecodeDoubleRows(fields, "coordinates");
    Success(EntityGeometry(Wrap(DecodeRing(raw)), geometryType))
  }

  /** The GeoJSON object of a geometry whose `coordinates` are the given rows. */
  function GeometryJson(rows: seq<seq<real>>, geometryType: string): Json {
    JObject(map["type" := JString(geometryType), "coordinates" := RowsJson(rows)])
  }

  /**
   * Decoding any geometry object whose `type` is a string and whose `coordinates` are the
   * JSON of the given rows (other keys, such as `bbox`, are ignored) keeps the type string
   * and yields one wrapped coordinate per row, each row decoded by the shared pair rule.
   */
  lemma DecodeEntityGeometryOfJson(fields: map<string, Json>, rows: seq<seq<real>>, geometryType: string)
    requires "type" in fields && fields["type"] == JString(geometryType)
    requires "coordinates" in fields && fields["coordinates"] == RowsJson(rows)
    ensures DecodeEntityGeometry(JObject(fields)) == Success(EntityGeometry(Wrap(DecodeRing(rows)), geometryType))
  {
    RowsRoundTrip(rows, "coordinates");
  }

  /** Round trip: encoding a ring as GeoJSON and decoding it gives the same coordinates back. */
  lemma EntityGeometryRoundTrip(ring: seq<Coordinate>, geometryType: string)
    ensures DecodeEntityGeometry(GeometryJson(EncodeRing(ring), geometryType))
         == Success(EntityGeometry(Wrap(ring), geometryType))
  {
    DecodeEntityGeometryOfJson(GeometryJson(EncodeRing(ring), geometryType).fields, EncodeRing(ring), geometryType);
    RingRoundTrip(ring);
  }
}
