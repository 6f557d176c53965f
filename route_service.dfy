/**
 * The search client and its single-slot result cache: the cache hit test,
 * the outbound query, the search that fills the cache only when the fetch
 * succeeds, and the detail lookup by route id.
 *
 * The network and the clock are inputs: a search receives the outcome its
 * fetch would have and the current local date.
 */
module Routes {
  import opened Wrappers
  import opened Normalizer
  import opened Timestamp

  /** The parameters of a search as the caller gave them; `None` is an omitted departure time. */
  datatype SearchParams = SearchParams(from: string, to: string, departureTime: Option<string>)

  /** One `key=value` pair of the outbound query string, before percent-encoding. */
  datatype Param = Param(key: string, value: string)

  /**
   * What the fetch of the search endpoint comes to: a transport failure, or an
   * HTTP response with its status and its decoded body. The body is `None`
   * when `response.json()` throws, or when a `routes`, `segments` or `stops`
   * array, or a record in one, is missing or null, so that mapping it throws.
   */
  datatype FetchOutcome = NetworkError | Response(status: int, body: Option<ApiSearchResponse>)

  /** `response.ok`: a status in the range 200 to 299. */
  predicate IsOk(status: int) {
    200 <= status <= 299
  }

  /** The decoded response of a fetch that succeeded, or `None` for every failure. */
  function Delivered(outcome: FetchOutcome): (r: Option<ApiSearchResponse>)
    ensures r.Some? <==> outcome.Response? && IsOk(outcome.status) && outcome.body.Some?
    ensures r.Some? ==> r == outcome.body
  {
    match outcome
    case NetworkError => None
    case Response(status, body) => if IsOk(status) then body else None
  }

  /** The departure time is sent when it is truthy (non-empty) and contains a `':'`. */
  predicate SendsDepartureTime(departureTime: Option<string>) {
    departureTime.Some? && departureTime.value != "" && ':' in departureTime.value
  }

  /**
   * The query of a search request: `from` and `to` first and verbatim; a
   * third parameter, the formatted departure time, present exactly when the
   * departure time is sent.
   */
  function Query(from: string, to: string, departureTime: Option<string>, today: Date): (q: seq<Param>)
    ensures 2 <= |q| <= 3
    ensures q[0] == Param("from", from) && q[1] == Param("to", to)
    ensures |q| == 3 <==> departureTime.Some? && ':' in departureTime.value
    ensures |q| == 3 ==> q[2].key == "departure_time"
                         && q[2].value == FormatDepartureTime(departureTime.value, today)
  {
    [Param("from", from), Param("to", to)]
      + if SendsDepartureTime(departureTime)
        then [Param("departure_time", FormatDepartureTime(departureTime.value, today))]
        else []
  }

  /** A search without a departure time sends exactly `from=<from>&to=<to>`. */
  lemma QueryWithoutTime(from: string, to: string, today: Date)
    ensures Query(from, to, None, today) == [Param("from", from), Param("to", to)]
  {
  }

  /** The empty departure time is falsy: nothing is sent for it, as for an omitted one. */
  lemma EmptyTimeNotSent(from: string, to: string, today: Date)
    ensures Query(from, to, Some(""), today) == Query(from, to, None, today)
  {
  }

  /** Builds the search query by appending its parameters one at a time. */
  method BuildRequest(from: string, to: string, departureTime: Option<string>, today: Date)
    returns (query: seq<Param>)
    ensures query == Query(from, to, departureTime, today)
  {
    query := [];
    query := query + [Param("from", from)];
    query := query + [Param("to", to)];
    // the two appends as one display, which the comparison with `Query` needs
    assert query == [Param("from", from), Param("to", to)];
    if departureTime.Some? && departureTime.value != "" && ':' in departureTime.value {
      var formatted := FormatDepartureTime(departureTime.value, today);
      query := query + [Param("departure_time", formatted)];
    }
  }

  /** `routes.find(r => r.id === id)`: the first route with that id, if any. */
  function FindById(routes: seq<RouteResult>, id: string): (r: Option<RouteResult>)
    ensures r.None? <==> forall i :: 0 <= i < |routes| ==> routes[i].id != id
    ensures r.Some? ==> r.value.id == id
    ensures r.Some? ==> exists k :: 0 <= k < |routes| && routes[k] == r.value
                                     && forall j :: 0 <= j < k ==> routes[j].id != id
  {
    if routes == [] then None
    else if routes[0].id == id then Some(routes[0])
    else
      var r := FindById(routes[1..], id);
      assert r.Some? ==> exists k :: 1 <= k < |routes| && routes[k] == r.value
                                     && forall j :: 0 <= j < k ==> routes[j].id != id
        by {
          if r.Some? {
            var k :| 0 <= k < |routes[1..]| && routes[1..][k] == r.value
                     && forall j :: 0 <= j < k ==> routes[1..][j].id != id;
            assert routes[k + 1] == r.value;
            assert forall j :: 0 <= j < k + 1 ==> routes[j].id != id by {
              forall j | 0 <= j < k + 1 ensures routes[j].id != id {
                if j > 0 { assert routes[j] == routes[1..][j - 1]; }
              }
            }
          }
        }
      r
  }

  /**
   * Looking a route up in a freshly normalised response finds the
   * normalisation of the first wire route with that id, and nothing when no
   * wire route has it.
   */
  lemma LookupAfterNormalise(resp: ApiSearchResponse, id: string, k: nat)
    requires k < |resp.routes| && resp.routes[k].id == id
    requires forall j :: 0 <= j < k ==> resp.routes[j].id != id
    ensures FindById(MapRoutes(resp), id) == Some(MapRoute(resp.routes[k]))
  {
    var routes := MapRoutes(resp);
    var r := FindById(routes, id);
    assert routes[k].id == id;
    var k' :| 0 <= k' < |routes| && routes[k'] == r.value
              && forall j :: 0 <= j < k' ==> routes[j].id != id;
    assert !(k < k') && !(k' < k);
  }

  /** No wire route has the id, so the normalised response has no route with it. */
  lemma LookupAfterNormaliseMissing(resp: ApiSearchResponse, id: string)
    requires forall i :: 0 <= i < |resp.routes| ==> resp.routes[i].id != id
    ensures FindById(MapRoutes(resp), id) == None
  {
    var routes := MapRoutes(resp);
    assert forall i :: 0 <= i < |routes| ==> routes[i].id == resp.routes[i].id;
  }

  /** The route service: the last successful search's results and the parameters that produced them. */
  class RouteService {
    var resultCache: seq<RouteResult>
    var lastParams: Option<SearchParams>

    /** The initial state: no results and no search yet. */
    constructor ()
      ensures resultCache == [] && lastParams == None
    {
      resultCache := [];
      lastParams := None;
    }

    /**
     * The cache hit test: the cached results when the parameters equal the
     * last successful search's, departure time compared as given (an omitted
     * one equals only an omitted one), and there is at least one result.
     */
    function GetCachedRoutes(from: string, to: string, departureTime: Option<string>)
      : (r: Option<seq<RouteResult>>)
      reads this
      ensures r.Some? <==> lastParams == Some(SearchParams(from, to, departureTime)) && resultCache != []
      ensures r.Some? ==> r.value == resultCache
    {
      if lastParams.Some? && lastParams.value.from == from && lastParams.value.to == to
         && lastParams.value.departureTime == departureTime && |resultCache| > 0
      then Some(resultCache)
      else None
    }

    /**
     * A search. On a cache hit it returns the cached results and builds no
     * request. Otherwise it builds the request and, given what the fetch
     * delivered, either stores and returns the normalised routes or, on any
     * failure, returns no routes and leaves the cache as it was.
     */
    method SearchRoutes(from: string, to: string, departureTime: Option<string>,
                        today: Date, outcome: FetchOutcome)
      returns (results: seq<RouteResult>, request: Option<seq<Param>>)
      modifies this
      ensures old(GetCachedRoutes(from, to, departureTime)).Some? ==>
                && results == old(resultCache) && results != []
                && request == None
                && resultCache == old(resultCache) && lastParams == old(lastParams)
      ensures old(GetCachedRoutes(from, to, departureTime)).None? ==>
                request == Some(Query(from, to, departureTime, today))
      ensures old(GetCachedRoutes(from, to, departureTime)).None? && Delivered(outcome).Some? ==>
                && results == MapRoutes(Delivered(outcome).value)
                && resultCache == results
                && lastParams == Some(SearchParams(from, to, departureTime))
      ensures old(GetCachedRoutes(from, to, departureTime)).None? && Delivered(outcome).None? ==>
                && results == []
                && resultCache == old(resultCache) && lastParams == old(lastParams)
    {
      var cached := GetCachedRoutes(from, to, departureTime);
      if cached.Some? {
        return cached.value, None;
      }
      var query := BuildRequest(from, to, departureTime, today);
      request := Some(query);
      match outcome
      case NetworkError =>
        results := [];
      case Response(status, body) =>
        if !IsOk(status) {
          results := [];
        } else if body.None? {
          results := [];
        } else {
          results := MapRoutes(body.value);
          resultCache := results;
          lastParams := Some(SearchParams(from, to, departureTime));
        }
    }

    /** The detail lookup: a scan of the cached results for the first route with the id. */
    method GetRouteById(id: string) returns (route: Option<RouteResult>)
      ensures route == FindById(resultCache, id)
    {
      var i := 0;
      while i < |resultCache|
        invariant 0 <= i <= |resultCache|
        invariant FindById(resultCache, id) == FindById(resultCache[i..], id)
      {
        if resultCache[i].id == id {
          return Some(resultCache[i]);
        }
        assert resultCache[i..][1..] == resultCache[i + 1..];
        i := i + 1;
      }
      return None;
    }
  }

  /** Before any search, a detail lookup finds nothing, whatever the id. */
  method LookupBeforeSearch(id: string) returns (route: Option<RouteResult>)
    ensures route == None
  {
    var service := new RouteService();
    route := service.GetRouteById(id);
  }

  /**
   * Two identical searches in a row: the second builds no request exactly
   * when the first returned routes, and then returns the same routes. A
   * search that failed or found nothing is retried over the network.
   */
  method RepeatSearch(service: RouteService, from: string, to: string, departureTime: Option<string>,
                      today: Date, first: FetchOutcome, second: FetchOutcome)
    returns (results1: seq<RouteResult>, results2: seq<RouteResult>, request2: Option<seq<Param>>)
    modifies service
    ensures request2 == None <==> results1 != []
    ensures request2 == None ==> results2 == results1
    ensures results1 == [] ==> request2 == Some(Query(from, to, departureTime, today))
  {
    var request1;
    results1, request1 := service.SearchRoutes(from, to, departureTime, today, first);
    results2, request2 := service.SearchRoutes(from, to, departureTime, today, second);
  }

  /** After a successful search, a detail lookup sees the first normalised route with the id. */
  method SearchThenLookup(service: RouteService, from: string, to: string,
                          departureTime: Option<string>, today: Date,
                          resp: ApiSearchResponse, id: string)
    returns (route: Option<RouteResult>)
    modifies service
    ensures old(service.GetCachedRoutes(from, to, departureTime)).None? ==>
              route == FindById(MapRoutes(resp), id)
  {
    var results, request := service.SearchRoutes(from, to, departureTime, today, Response(200, Some(resp)));
    route := service.GetRouteById(id);
  }
}
