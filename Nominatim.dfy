/**
 * src/services/nominatimService.ts: the conversion of a Nominatim GeoJSON
 * geometry to Leaflet's `[lat, lng]` pairs, and the query parameters of the
 * `search` and `details` requests. The requests themselves are not modelled.
 */
module Nominatim {
  import opened JsCore
  import opened JsText

  /** A GeoJSON position: longitude first, then latitude (section 3.1.1 of RFC 7946). */
  datatype Position = Position(lon: real, lat: real)

  /** A Leaflet pair `[lat, lng]`. */
  datatype LatLngPair = LatLngPair(lat: real, lng: real)

  /** The geometries Nominatim returns, with any other `type` kept by name. */
  datatype GeoJson =
    | Point(coordinates: Position)
    | Polygon(rings: seq<seq<Position>>)
    | MultiPolygon(polygons: seq<seq<seq<Position>>>)
    | OtherType(kind: string)

  /** What `geoJsonToLeaflet` returns: a list of pairs, or one list of pairs per polygon. */
  datatype LeafletCoords = Pairs(pairs: seq<LatLngPair>) | PerPolygon(lists: seq<seq<LatLngPair>>)

  /** `[coord[1], coord[0]]`. */
  function Swap(p: Position): (q: LatLngPair)
    ensures q.lat == p.lat && q.lng == p.lon
  {
    LatLngPair(p.lat, p.lon)
  }

  /** Back from Leaflet's order to GeoJSON's. */
  function Unswap(q: LatLngPair): (p: Position)
    ensures Swap(p) == q
  {
    Position(q.lng, q.lat)
  }

  /** `ring.map(coord => [coord[1], coord[0]])`. */
  function SwapRing(ring: seq<Position>): (r: seq<LatLngPair>)
    ensures |r| == |ring|
    ensures forall i :: 0 <= i < |ring| ==> r[i] == Swap(ring[i])
  {
    seq(|ring|, i requires 0 <= i < |ring| => Swap(ring[i]))
  }

  function UnswapRing(pairs: seq<LatLngPair>): (r: seq<Position>)
    ensures |r| == |pairs|
    ensures forall i :: 0 <= i < |pairs| ==> r[i] == Unswap(pairs[i])
  {
    seq(|pairs|, i requires 0 <= i < |pairs| => Unswap(pairs[i]))
  }

  /** Converting a ring and converting it back gives the ring. */
  lemma UnswapSwapRing(ring: seq<Position>)
    ensures UnswapRing(SwapRing(ring)) == ring
  {
    var r := UnswapRing(SwapRing(ring));
    assert forall i :: 0 <= i < |ring| ==> r[i] == ring[i];
  }

  /** Every polygon of a MultiPolygon has an outer ring. */
  predicate AllHaveOuterRing(polygons: seq<seq<seq<Position>>>) {
    forall k :: 0 <= k < |polygons| ==> |polygons[k]| > 0
  }

  /**
   * `geoJsonToLeaflet(geojson)`: nothing for a missing geometry or an
   * unsupported type; one pair for a Point; the swapped outer ring of a Polygon;
   * for a MultiPolygon, the swapped outer ring of each polygon. Reading the
   * outer ring of a polygon that has none throws.
   */
  function GeoJsonToLeaflet(geojson: Option<GeoJson>): (r: Result<LeafletCoords>)
    ensures geojson.None? || geojson.value.OtherType? ==> r == Ok(Pairs([]))
    ensures geojson.Some? && geojson.value.Point? ==> r == Ok(Pairs([Swap(geojson.value.coordinates)]))
    ensures geojson.Some? && geojson.value.Polygon? ==>
              if |geojson.value.rings| == 0 then r.Err?
              else r == Ok(Pairs(SwapRing(geojson.value.rings[0])))
    ensures geojson.Some? && geojson.value.MultiPolygon? ==>
              (r.Ok? <==> AllHaveOuterRing(geojson.value.polygons))
    ensures geojson.Some? && geojson.value.MultiPolygon? && r.Ok? ==>
              && r.value.PerPolygon?
              && |r.value.lists| == |geojson.value.polygons|
              && forall k :: 0 <= k < |geojson.value.polygons| ==> r.value.lists[k] == SwapRing(geojson.value.polygons[k][0])
  {
    if geojson.None? then Ok(Pairs([]))
    else match geojson.value
      case Point(p) => Ok(Pairs([Swap(p)]))
      case Polygon(rings) =>
        if |rings| == 0 then Err(TypeError("geojson.coordinates[0] is undefined"))
        else Ok(Pairs(SwapRing(rings[0])))
      case MultiPolygon(polygons) =>
        if AllHaveOuterRing(polygons) then
          Ok(PerPolygon(seq(|polygons|, k requires 0 <= k < |polygons| && AllHaveOuterRing(polygons) => SwapRing(polygons[k][0]))))
        else Err(TypeError("polygon[0] is undefined"))
      case OtherType(_) => Ok(Pairs([]))
  }

  /** A Polygon's outer ring can be read back from what it converts to. */
  lemma PolygonRoundTrip(rings: seq<seq<Position>>)
    requires |rings| > 0
    ensures GeoJsonToLeaflet(Some(Polygon(rings))).Ok?
    ensures UnswapRing(GeoJsonToLeaflet(Some(Polygon(rings))).value.pairs) == rings[0]
  {
    UnswapSwapRing(rings[0]);
  }

  /** The options of `search`; an absent one is None. */
  datatype SearchOptions = SearchOptions(limit: Option<int>, acceptLanguage: Option<string>, includePolygon: Option<bool>)

  /** A query-string parameter. */
  type Param = (string, string)

  /**
   * The parameters of `search(query, options)`, in order: the query, JSON
   * output, at most `limit` results (5 by default), the language (pt-BR by
   * default), whether to include the polygon ("1" unless `includePolygon` is
   * false), and no simplification of the polygon.
   */
  function SearchParams(query: string, options: SearchOptions): (ps: seq<Param>)
    ensures |ps| == 6
    ensures ps[0] == ("q", query) && ps[1] == ("format", "json") && ps[5] == ("polygon_threshold", "0.0")
    ensures ps[2].0 == "limit" && ps[3].0 == "accept-language" && ps[4].0 == "polygon_geojson"
    ensures options.limit.None? ==> ps[2].1 == "5"
    ensures options.limit.Some? ==> ps[2].1 == IntToString(options.limit.value)
    ensures ps[3].1 == (if options.acceptLanguage.Some? then options.acceptLanguage.value else "pt-BR")
    ensures ps[4].1 == (if options.includePolygon == Some(false) then "0" else "1")
  {
    var limit := if options.limit.Some? then options.limit.value else 5;
    var language := if options.acceptLanguage.Some? then options.acceptLanguage.value else "pt-BR";
    var includePolygon := if options.includePolygon.Some? then options.includePolygon.value else true;
    [ ("q", query),
      ("format", "json"),
      ("limit", IntToString(limit)),
      ("accept-language", language),
      ("polygon_geojson", if includePolygon then "1" else "0"),
      ("polygon_threshold", "0.0") ]
  }

  /** The limit sent is the one asked for: different limits give different parameters. */
  lemma SearchLimitSent(query: string, a: SearchOptions, b: SearchOptions)
    requires a.limit.Some? && b.limit.Some?
    requires SearchParams(query, a)[2] == SearchParams(query, b)[2]
    ensures a.limit == b.limit
  {
    IntToStringInjective(a.limit.value, b.limit.value);
  }

  /** The parameters of `getDetails(placeId)`: the place, JSON output, with its full polygon. */
  function DetailsParams(placeId: int): (ps: seq<Param>)
    ensures |ps| == 4
    ensures ps[0].0 == "place_id" && ps[1] == ("format", "json")
    ensures ps[2] == ("polygon_geojson", "1") && ps[3] == ("polygon_threshold", "0.0")
    ensures ps[0].1 == IntToString(placeId)
  {
    [("place_id", IntToString(placeId)), ("format", "json"), ("polygon_geojson", "1"), ("polygon_threshold", "0.0")]
  }

  /** The place sent is the one asked for: different places give different parameters. */
  lemma DetailsPlaceSent(p: int, q: int)
    requires DetailsParams(p)[0] == DetailsParams(q)[0]
    ensures p == q
  {
    IntToStringInjective(p, q);
  }
}
