/**
 * Geographic coordinates (CoreLocation's `CLLocationCoordinate2D`) and the one rule that
 * turns a GeoJSON ring of `[longitude, latitude]` pairs into coordinates. The entity, hall
 * and brand geometry decoders all apply this rule.
 */
module Coordinates {
  import Sequences

  datatype Coordinate = Coordinate(latitude: real, longitude: real)

  /** The coordinate a malformed pair degrades to. */
  const Origin := Coordinate(0.0, 0.0)

  /** One pair: `[lon, lat]` becomes (lat, lon); a pair of any other length becomes (0, 0). */
  function DecodePair(pair: seq<real>): Coordinate {
    if |pair| == 2 then Coordinate(pair[1], pair[0]) else Origin
  }

  /** A whole ring: one coordinate per input pair, in input order. */
  function DecodeRing(raw: seq<seq<real>>): (ring: seq<Coordinate>)
    ensures |ring| == |raw|
    ensures forall i :: 0 <= i < |raw| && |raw[i]| == 2 ==> ring[i] == Coordinate(raw[i][1], raw[i][0])
    ensures forall i :: 0 <= i < |raw| && |raw[i]| != 2 ==> ring[i] == Origin
  {
    Sequences.Map(raw, DecodePair)
  }

  /** The GeoJSON form of a ring: every coordinate written as `[longitude, latitude]`. */
  function EncodeRing(ring: seq<Coordinate>): (raw: seq<seq<real>>)
    ensures |raw| == |ring|
    ensures forall i :: 0 <= i < |ring| ==> raw[i] == [ring[i].longitude, ring[i].latitude]
  {
    Sequences.Map(ring, (c: Coordinate) => [c.longitude, c.latitude])
  }

  /** Decoding undoes the GeoJSON encoding: the swap of the two values is its own inverse. */
  lemma RingRoundTrip(ring: seq<Coordinate>)
    ensures DecodeRing(EncodeRing(ring)) == ring
  {
    var back := DecodeRing(EncodeRing(ring));
    forall i | 0 <= i < |ring| ensures back[i] == ring[i] {
      assert |EncodeRing(ring)[i]| == 2;
    }
  }

  /** Decoding a concatenation of rings decodes each part. */
  lemma DecodeRingConcat(a: seq<seq<real>>, b: seq<seq<real>>)
    ensures DecodeRing(a + b) == DecodeRing(a) + DecodeRing(b)
  {
    Sequences.MapConcat(a, b, DecodePair);
  }
}
