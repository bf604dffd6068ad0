/**
  The deterministic part of app.py: turning a Places text-search response into
  the list of "<name> (Rating: <rating>)" strings (`get_places_data`), the
  API-key guard, and the choice between the "places found" and the warning
  display.

  The HTTP request and JSON decoding are not modelled: the search service is a
  function parameter from the request to what came back, where `CallFailed`
  stands for every exception `requests.get` or `response.json()` can raise.
 */
module Places {
  import opened Wrappers

  /** One entry of `results`; either key may be missing from the JSON object. */
  datatype PlaceResult = PlaceResult(name: Option<string>, rating: Option<string>)

  /** The decoded JSON object; `status` and `results` may be missing. */
  datatype SearchResponse = SearchResponse(status: Option<string>, results: Option<seq<PlaceResult>>)

  /** What the HTTP call produced: a decoded response, or an exception. */
  datatype Fetch = Received(data: SearchResponse) | CallFailed(reason: string)

  /** The raw data handed back for display: the decoded response, or `{}` after an exception. */
  datatype RawData = Json(data: SearchResponse) | EmptyObject

  /** The GET request `get_places_data` issues. */
  datatype Request = Request(url: string, query: string, key: string, language: string)

  /** What `get_places_data` returns: the place strings and the raw data. */
  datatype LookupResult = LookupResult(places: seq<string>, raw: RawData)

  const BaseUrl := "https://maps.googleapis.com/maps/api/place/textsearch/json"
  const QueryPrefix := "top attractions in "
  const Language := "en"
  const StatusOk := "OK"
  /** At most this many results are kept (`data["results"][:5]`). */
  const MaxPlaces := 5
  const RatingOpen := " (Rating: "
  const RatingClose := ")"
  /** The rating shown for a result without one. */
  const NoRating := "N/A"
  /** The placeholder the configuration ships with. */
  const PlaceholderKey := "YOUR_GOOGLE_MAPS_API_KEY_HERE"
  /** `MAPS_API_KEY` as configured in app.py. */
  const MapsApiKey := PlaceholderKey

  function Min(a: int, b: int): int {
    if a <= b then a else b
  }

  /** The text-search query for a city. */
  function SearchQuery(city: string): string
  {
    QueryPrefix + city
  }

  /** Recovers the city from a query, when the query has the search prefix. */
  function CityOfQuery(q: string): Option<string>
  {
    if |QueryPrefix| <= |q| && q[..|QueryPrefix|] == QueryPrefix then Some(q[|QueryPrefix|..]) else None
  }

  /** The query is exactly the prefix followed by the city: the city reads back, and only that query reads back as it. */
  lemma QueryRoundTrip(city: string, q: string)
    ensures CityOfQuery(SearchQuery(city)) == Some(city)
    ensures CityOfQuery(q) == Some(city) <==> q == SearchQuery(city)
  {
  }

  /** The request for a city and key: the text-search URL, the query, the key, English results. */
  function SearchRequest(city: string, apiKey: string): Request
  {
    Request(BaseUrl, SearchQuery(city), apiKey, Language)
  }

  /** The display string of one result: `f"{name} (Rating: {rating})"`, the rating defaulting to "N/A". */
  function PlaceEntry(name: string, rating: Option<string>): string
  {
    name + RatingOpen + rating.GetOr(NoRating) + RatingClose
  }

  /**
    An entry is the name, then " (Rating: ", then the rating as given or "N/A"
    when the result has none, then ")".
   */
  lemma EntryLayout(name: string, rating: Option<string>)
    ensures var e := PlaceEntry(name, rating);
            var shown := if rating.Some? then rating.value else "N/A";
            var k := |name| + |RatingOpen|;
            && |e| == k + |shown| + 1
            && e[..|name|] == name
            && e[|name|..k] == " (Rating: "
            && e[k..k + |shown|] == shown
            && e[|e| - 1] == ')'
  {
  }

  /** One result rendered, or `None` when its `name` key is missing (a `KeyError`). */
  function RenderResult(r: PlaceResult): Option<string>
  {
    if r.name.Some? then Some(PlaceEntry(r.name.value, r.rating)) else None
  }

  /** Results rendered in order, or `None` when any of them lacks a name. */
  function RenderAll(rs: seq<PlaceResult>): Option<seq<string>>
  {
    if rs == [] then Some([])
    else match (RenderAll(rs[..|rs| - 1]), RenderResult(rs[|rs| - 1]))
      case (Some(done), Some(entry)) => Some(done + [entry])
      case _ => None
  }

  /** The results that are kept: the first five, in the order received (`results[:5]`). */
  function Top(rs: seq<PlaceResult>): seq<PlaceResult>
  {
    rs[..Min(MaxPlaces, |rs|)]
  }

  /** Every kept result has a name. */
  predicate AllNamed(rs: seq<PlaceResult>) {
    forall i :: 0 <= i < |rs| ==> rs[i].name.Some?
  }

  /**
    Rendering succeeds exactly when every result has a name, and then entry `i`
    is built from result `i` alone.
   */
  lemma {:induction false} RenderAllSpec(rs: seq<PlaceResult>)
    ensures RenderAll(rs).Some? <==> AllNamed(rs)
    ensures RenderAll(rs).Some? ==>
              && |RenderAll(rs).value| == |rs|
              && forall i :: 0 <= i < |rs| ==> RenderAll(rs).value[i] == PlaceEntry(rs[i].name.value, rs[i].rating)
  {
    if rs != [] {
      var front := rs[..|rs| - 1];
      RenderAllSpec(front);
      assert forall i :: 0 <= i < |front| ==> front[i] == rs[i];
      if AllNamed(rs) {
        assert AllNamed(front);
      } else if AllNamed(front) {
        assert rs[|rs| - 1].name.None?;
      }
    }
  }

  /**
    `get_places_data` without the network: `None` stands for the `KeyError`s of
    `data["results"]` and `result["name"]`, which the `except` clause catches.
   */
  function PlacesOf(data: SearchResponse): Option<seq<string>>
  {
    if data.status != Some(StatusOk) then Some([])
    else if data.results.None? then None
    else RenderAll(Top(data.results.value))
  }

  /** What `get_places_data` returns for what the HTTP call produced. */
  function Lookup(fetched: Fetch): LookupResult
  {
    match fetched
    case CallFailed(_) => LookupResult([], EmptyObject)
    case Received(data) =>
      match PlacesOf(data)
      case None => LookupResult([], EmptyObject)
      case Some(places) => LookupResult(places, Json(data))
  }

  /**
    `get_places_data(city, api_key)`: the answer of `service` to the search request, then the first
    five results turned into display strings by a loop that appends to `places`.
   */
  method GetPlacesData(city: string, apiKey: string, service: Request -> Fetch)
    returns (places: seq<string>, raw: RawData)
    ensures LookupResult(places, raw) == Lookup(service(SearchRequest(city, apiKey)))
  {
    var fetched := service(SearchRequest(city, apiKey));
    if fetched.CallFailed? {
      return [], EmptyObject;
    }
    var data := fetched.data;
    if data.status != Some(StatusOk) {
      return [], Json(data);
    }
    if data.results.None? {
      return [], EmptyObject;
    }
    var top := Top(data.results.value);
    places := [];
    for i := 0 to |top|
      invariant RenderAll(top[..i]) == Some(places)
    {
      var result := top[i];
      if result.name.None? {
        RenderAllSpec(top);
        return [], EmptyObject;
      }
      assert top[..i + 1][..i] == top[..i];
      places := places + [PlaceEntry(result.name.value, result.rating)];
    }
    assert top[..|top|] == top;
    return places, Json(data);
  }

  /** An exception yields no places and `{}` as raw data. */
  lemma LookupCallFailed(reason: string)
    ensures Lookup(CallFailed(reason)) == LookupResult([], EmptyObject)
  {
  }

  /** Any status other than exactly "OK" (or none) yields no places, and the response is returned as it came. */
  lemma LookupNotOk(data: SearchResponse)
    requires data.status != Some("OK")
    ensures Lookup(Received(data)) == LookupResult([], Json(data))
  {
  }

  /**
    With status "OK" and named results, the places are one entry per kept result:
    `min(5, |results|)` of them, entry `i` built from result `i`, and the response
    is returned as it came.
   */
  lemma LookupOk(data: SearchResponse)
    requires data.status == Some("OK") && data.results.Some?
    requires AllNamed(Top(data.results.value))
    ensures var r := Lookup(Received(data));
            var rs := data.results.value;
            && |r.places| == Min(5, |rs|)
            && (forall i :: 0 <= i < |r.places| ==> r.places[i] == PlaceEntry(rs[i].name.value, rs[i].rating))
            && r.raw == Json(data)
  {
    RenderAllSpec(Top(data.results.value));
  }

  /**
    With status "OK" but no `results`, or a kept result without a `name`, the
    `KeyError` is caught: no places and `{}` as raw data.
   */
  lemma LookupKeyError(data: SearchResponse)
    requires data.status == Some("OK")
    requires data.results.None? || !AllNamed(Top(data.results.value))
    ensures Lookup(Received(data)) == LookupResult([], EmptyObject)
  {
    if data.results.Some? {
      RenderAllSpec(Top(data.results.value));
    }
  }

  /**
    The lookup finds places exactly when the call succeeded, the status is "OK",
    there is at least one result, and every kept result has a name.
   */
  lemma LookupFinds(fetched: Fetch)
    ensures Lookup(fetched).places != [] <==>
              && fetched.Received?
              && fetched.data.status == Some("OK")
              && fetched.data.results.Some?
              && |fetched.data.results.value| > 0
              && AllNamed(Top(fetched.data.results.value))
  {
    if fetched.Received? && fetched.data.status == Some(StatusOk) && fetched.data.results.Some? {
      RenderAllSpec(Top(fetched.data.results.value));
    }
  }

  /** `MAPS_API_KEY` passes the guard when it is non-empty and not the placeholder. */
  predicate KeyConfigured(apiKey: string) {
    !(apiKey == "" || apiKey == PlaceholderKey)
  }

  /** What the page shows after a submission. */
  datatype Screen =
    | MissingKeyError
    | PlacesFound(destination: string, count: nat, places: seq<string>, raw: RawData)
    | PlacesNotFound(raw: RawData)

  /** The screen shown, with the requests sent to the search service on the way. */
  datatype Submission = Submission(screen: Screen, requests: seq<Request>)

  /** The branch on the place list: the places with their count, or the warning with the raw data. */
  function ShowPlaces(destination: string, result: LookupResult): Screen
  {
    if result.places != [] then PlacesFound(destination, |result.places|, result.places, result.raw)
    else PlacesNotFound(result.raw)
  }

  /** Pressing "Generate Itinerary": the key guard, then the lookup, then the display branch. */
  function Submit(destination: string, apiKey: string, service: Request -> Fetch): Submission
  {
    if !KeyConfigured(apiKey) then Submission(MissingKeyError, [])
    else
      var request := SearchRequest(destination, apiKey);
      Submission(ShowPlaces(destination, Lookup(service(request))), [request])
  }

  /** An empty or placeholder key gives the configuration error and sends no request at all. */
  lemma SubmitWithoutKey(destination: string, apiKey: string, service: Request -> Fetch)
    requires apiKey == "" || apiKey == "YOUR_GOOGLE_MAPS_API_KEY_HERE"
    ensures Submit(destination, apiKey, service) == Submission(MissingKeyError, [])
  {
  }

  /**
    Any other key sends exactly one request, for "top attractions in <destination>";
    the screen lists the places with their count when there are any, and otherwise
    warns and shows the raw data.
   */
  lemma SubmitWithKey(destination: string, apiKey: string, service: Request -> Fetch)
    requires apiKey != "" && apiKey != "YOUR_GOOGLE_MAPS_API_KEY_HERE"
    ensures var s := Submit(destination, apiKey, service);
            var result := Lookup(service(s.requests[0]));
            && |s.requests| == 1
            && CityOfQuery(s.requests[0].query) == Some(destination)
            && s.requests[0].key == apiKey
            && (s.screen.PlacesFound? <==> result.places != [])
            && (s.screen.PlacesFound? ==> s.screen == PlacesFound(destination, |result.places|, result.places, result.raw))
            && (s.screen.PlacesNotFound? <==> result.places == [])
            && (s.screen.PlacesNotFound? ==> s.screen.raw == result.raw)
  {
  }

  /** With the key app.py ships with, every submission stops at the configuration error. */
  lemma ShippedKeyRejected(destination: string, service: Request -> Fetch)
    ensures Submit(destination, MapsApiKey, service).screen == MissingKeyError
  {
  }
}
