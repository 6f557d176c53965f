/**
 * The response normaliser: the snake_case wire records the routing service
 * sends, the camelCase domain records the application uses, and the
 * field-for-field, order-preserving mapping between them.
 *
 * Wire records keep the JSON key names of the routing service as field names.
 * JavaScript numbers are modelled as integers.
 */
module Normalizer {
  import opened Wrappers
  import Congestion

  // --- Wire records (routing-service JSON) ---

  datatype ApiStop = ApiStop(name: string, time: string, congestion_level: Option<int>)

  datatype ApiSegment = ApiSegment(
    line: string,
    from_station: string,
    to_station: string,
    departure_time: string,
    arrival_time: string,
    stops: seq<ApiStop>)

  datatype ApiRoute = ApiRoute(
    id: string,
    total_duration: int,
    fare: int,
    transfers: int,
    segments: seq<ApiSegment>)

  datatype ApiSearchResponse = ApiSearchResponse(routes: seq<ApiRoute>)

  // --- Domain records ---

  datatype StationStop = StationStop(
    name: string,
    time: string,
    congestionLevel: Option<int>,
    nextSectionColor: Option<string>)

  datatype RouteSegment = RouteSegment(
    line: string,
    fromStation: string,
    toStation: string,
    departureTime: string,
    arrivalTime: string,
    stops: seq<StationStop>)

  datatype RouteResult = RouteResult(
    id: string,
    segments: seq<RouteSegment>,
    totalDuration: int,
    fare: int,
    transfers: int)

  /** `Array.prototype.map`: element i of the result is `f` applied to element i of the input. */
  function MapSeq<A, B>(f: A -> B, s: seq<A>): (r: seq<B>)
    ensures |r| == |s|
    ensures forall i :: 0 <= i < |s| ==> r[i] == f(s[i])
  {
    if s == [] then [] else [f(s[0])] + MapSeq(f, s[1..])
  }

  // --- The mapping ---

  /** `mapStop`: name, time and level copied; a colour for levels 1 to 7 only. */
  function MapStop(a: ApiStop): (s: StationStop)
    ensures s.name == a.name && s.time == a.time
    ensures s.congestionLevel == a.congestion_level
    ensures s.nextSectionColor.Some? <==>
              a.congestion_level.Some? && 1 <= a.congestion_level.value <= 7
    ensures s.nextSectionColor.Some? ==>
              s.nextSectionColor == Congestion.ColorTable(a.congestion_level.value)
  {
    StationStop(a.name, a.time, a.congestion_level, Congestion.NextSectionColor(a.congestion_level))
  }

  /** `mapSegment`: the scalar fields renamed, the stops mapped in travel order. */
  function MapSegment(a: ApiSegment): (s: RouteSegment)
    ensures s.line == a.line
    ensures s.fromStation == a.from_station && s.toStation == a.to_station
    ensures s.departureTime == a.departure_time && s.arrivalTime == a.arrival_time
    ensures |s.stops| == |a.stops|
    ensures forall j :: 0 <= j < |a.stops| ==> s.stops[j] == MapStop(a.stops[j])
  {
    RouteSegment(a.line, a.from_station, a.to_station, a.departure_time, a.arrival_time,
                 MapSeq(MapStop, a.stops))
  }

  /** `mapRoute`: id and the numeric fields copied, the segments mapped in order. */
  function MapRoute(a: ApiRoute): (r: RouteResult)
    ensures r.id == a.id
    ensures r.totalDuration == a.total_duration && r.fare == a.fare && r.transfers == a.transfers
    ensures |r.segments| == |a.segments|
    ensures forall i :: 0 <= i < |a.segments| ==> r.segments[i] == MapSegment(a.segments[i])
  {
    RouteResult(a.id, MapSeq(MapSegment, a.segments), a.total_duration, a.fare, a.transfers)
  }

  /** Every route of a decoded response, in response order and with the same ids. */
  function MapRoutes(resp: ApiSearchResponse): (r: seq<RouteResult>)
    ensures |r| == |resp.routes|
    ensures forall i :: 0 <= i < |resp.routes| ==> r[i] == MapRoute(resp.routes[i])
    ensures forall i :: 0 <= i < |resp.routes| ==> r[i].id == resp.routes[i].id
  {
    MapSeq(MapRoute, resp.routes)
  }

  // --- The partner: the wire record each domain record came from ---

  function UnmapStop(s: StationStop): ApiStop {
    ApiStop(s.name, s.time, s.congestionLevel)
  }

  function UnmapSegment(s: RouteSegment): ApiSegment {
    ApiSegment(s.line, s.fromStation, s.toStation, s.departureTime, s.arrivalTime,
               MapSeq(UnmapStop, s.stops))
  }

  function UnmapRoute(r: RouteResult): ApiRoute {
    ApiRoute(r.id, r.totalDuration, r.fare, r.transfers, MapSeq(UnmapSegment, r.segments))
  }

  /** A domain stop whose colour is the one its level calls for. */
  predicate StopAnnotated(s: StationStop) {
    s.nextSectionColor == Congestion.NextSectionColor(s.congestionLevel)
  }

  /** Every stop of every segment of the route is annotated. */
  predicate RouteAnnotated(r: RouteResult) {
    forall i, j :: 0 <= i < |r.segments| && 0 <= j < |r.segments[i].stops| ==>
      StopAnnotated(r.segments[i].stops[j])
  }

  // --- Properties ---

  /** Mapping with `f` and then with a left inverse `g` of `f` gives back the input sequence. */
  lemma {:induction false} MapSeqLeftInverse<A, B>(f: A -> B, g: B -> A, s: seq<A>)
    requires forall x :: g(f(x)) == x
    ensures MapSeq(g, MapSeq(f, s)) == s
  {
    if s != [] {
      MapSeqLeftInverse(f, g, s[1..]);
      assert MapSeq(f, s)[1..] == MapSeq(f, s[1..]);
    }
  }

  /** No field is dropped: the wire route can be recovered from its normalised form. */
  lemma NormaliseIsLossless(a: ApiRoute)
    ensures UnmapRoute(MapRoute(a)) == a
  {
    forall s: ApiSegment ensures UnmapSegment(MapSegment(s)) == s {
      MapSeqLeftInverse(MapStop, UnmapStop, s.stops);
    }
    MapSeqLeftInverse(MapSegment, UnmapSegment, a.segments);
  }

  /** Every normalised route carries the colour annotation its levels call for. */
  lemma NormalisedIsAnnotated(a: ApiRoute)
    ensures RouteAnnotated(MapRoute(a))
  {
  }

  /**
   * The normalised routes are exactly the annotated domain routes: an
   * annotated route is the normalisation of the wire route it came from.
   */
  lemma AnnotatedIsNormalised(r: RouteResult)
    requires RouteAnnotated(r)
    ensures MapRoute(UnmapRoute(r)) == r
  {
    var segs := MapSeq(MapSegment, MapSeq(UnmapSegment, r.segments));
    forall i | 0 <= i < |r.segments| ensures segs[i] == r.segments[i] {
      var s := r.segments[i];
      var stops := MapSeq(MapStop, MapSeq(UnmapStop, s.stops));
      forall j | 0 <= j < |s.stops| ensures stops[j] == s.stops[j] {
        assert StopAnnotated(r.segments[i].stops[j]);
      }
    }
  }
}
