/**
 * Model of the `GET` handler of src/app/api/search/route.ts. The handler is a
 * method that reassigns its locals step by step, as the source does, and is
 * proved to compute `SearchSpec`, a pure statement of the same pipeline; the
 * lemmas after it state what the pipeline guarantees. Geocoding, the Places
 * client and the two evaluators are passed in as functions (`Services`).
 */
module SearchRoute {
  import opened Wrappers
  import opened Places
  import opened Vertex
  import opened ShopRanking

  /** The query after `parseFloat`/`parseInt`: lat and lng default to 0, radius to 1000. */
  datatype Request = Request(lat: JsNumber, lng: JsNumber, radius: JsNumber,
                             station: Option<string>, genre: Option<string>)

  datatype Coordinate = Coordinate(lat: JsNumber, lng: JsNumber)

  /** The geocoding fetch either threw or gave a list of results (an absent list is empty). */
  datatype GeocodeOutcome = GeocodeThrew | GeocodeResults(results: seq<Coordinate>)

  /** The collaborators of the handler, each as a function of its arguments. */
  datatype Services = Services(
    geocode: string -> GeocodeOutcome,
    findShiniseCandidates: (string, Option<string>) -> seq<string>,
    searchByText: (string, JsNumber, JsNumber, JsNumber) -> seq<PlaceResult>,
    searchNearby: (JsNumber, JsNumber, JsNumber) -> seq<PlaceResult>,
    getPlaceDetails: string -> Option<PlaceDetails>,
    generateOldShopScore: ShopFacts -> ShopScore)

  /** `NextResponse.json(...)`: an error with its status, or `{ shops }`. */
  datatype Response = ErrorResponse(status: nat, error: string) | ShopsResponse(shops: seq<ScoredShop>)

  const StationNotFound: Response := ErrorResponse(404, "Station not found")
  const GeocodingFailed: Response := ErrorResponse(500, "Geocoding failed")
  const MissingLocation: Response := ErrorResponse(400, "Missing lat/lng or valid station")

  /** The bias radius, in meters, of the text search that hydrates a candidate. */
  const HydrationRadius: JsNumber := Num(2000.0)
  const AiSourcedLimit: nat := 10
  const LegacyLimit: nat := 5

  /** The score of a top place whose details could not be fetched (no founding year). */
  const DetailsFailedScore: ShopScore := ShopScore(0, "詳細情報取得失敗", "-", false, None)
  /** The score of a place beyond the limit (no founding year). */
  const UnjudgedScore: ShopScore := ShopScore(0, "未判定", "-", false, None)

  // ---------------------------------------------------------------------
  // Target coordinate (route.ts:9-39)
  // ---------------------------------------------------------------------

  /** `!lat || !lng`: a coordinate that is 0 or NaN counts as missing. */
  predicate MissingCoordinate(c: Coordinate) {
    Falsy(c.lat) || Falsy(c.lng)
  }

  /** Geocoding happens only when a coordinate is missing and a station is given. */
  predicate NeedsGeocode(req: Request) {
    MissingCoordinate(Coordinate(req.lat, req.lng)) && Truthy(req.station)
  }

  function CheckTarget(target: Coordinate): Result<Coordinate, Response> {
    if MissingCoordinate(target) then Failure(MissingLocation) else Success(target)
  }

  /**
   * The coordinate to search around, or the error response: the geocoder's
   * first result when geocoding is needed, otherwise the request's own
   * coordinate, and never one with a 0 or NaN part.
   */
  function ResolveTarget(req: Request, geocode: string -> GeocodeOutcome): (r: Result<Coordinate, Response>)
    ensures r.Success? ==> !MissingCoordinate(r.value)
    ensures r.Failure? ==> r.error in {StationNotFound, GeocodingFailed, MissingLocation}
    ensures r.Success? && NeedsGeocode(req) ==>
      geocode(req.station.value).GeocodeResults? && |geocode(req.station.value).results| > 0 &&
      r.value == geocode(req.station.value).results[0]
    ensures r.Success? && !NeedsGeocode(req) ==> r.value == Coordinate(req.lat, req.lng)
  {
    if NeedsGeocode(req) then
      match geocode(req.station.value)
      case GeocodeThrew => Failure(GeocodingFailed)
      case GeocodeResults(results) =>
        if |results| == 0 then Failure(StationNotFound) else CheckTarget(results[0])
    else CheckTarget(Coordinate(req.lat, req.lng))
  }

  // ---------------------------------------------------------------------
  // Discovery and hydration (route.ts:45-77)
  // ---------------------------------------------------------------------

  /** `genre || undefined`. */
  function GenreHint(genre: Option<string>): Option<string> {
    if Truthy(genre) then genre else None
  }

  /** The AI candidates; discovery is invoked only when a station is given. */
  function Candidates(req: Request, svc: Services): seq<string> {
    if Truthy(req.station) then svc.findShiniseCandidates(req.station.value, GenreHint(req.genre)) else []
  }

  /** `results.length > 0 ? results[0] : null`. */
  function FirstHit(hits: seq<PlaceResult>): Option<PlaceResult> {
    if |hits| > 0 then Some(hits[0]) else None
  }

  /** `candidates.map(...)`: the first text-search hit for each candidate, near the target. */
  function Hydrated(candidates: seq<string>, svc: Services, target: Coordinate): seq<Option<PlaceResult>> {
    seq(|candidates|, i requires 0 <= i < |candidates| =>
      FirstHit(svc.searchByText(candidates[i], target.lat, target.lng, HydrationRadius)))
  }

  /** `hydrated.filter(p => p !== null)`: the present values, in order. */
  function Present(xs: seq<Option<PlaceResult>>): (r: seq<PlaceResult>)
    ensures |r| <= |xs|
    ensures forall j :: 0 <= j < |r| ==> Some(r[j]) in xs
  {
    if |xs| == 0 then []
    else (if xs[0].Some? then [xs[0].value] else []) + Present(xs[1..])
  }

  /** The hydrated candidates that were found: never more places than candidates. */
  function Hydrate(candidates: seq<string>, svc: Services, target: Coordinate): (r: seq<PlaceResult>)
    ensures |r| <= |candidates|
  {
    Present(Hydrated(candidates, svc, target))
  }

  /** The legacy search: by text when a genre is given, otherwise nearby, both with the request's radius. */
  function Legacy(req: Request, svc: Services, target: Coordinate): seq<PlaceResult> {
    if Truthy(req.genre) then svc.searchByText(req.genre.value, target.lat, target.lng, req.radius)
    else svc.searchNearby(target.lat, target.lng, req.radius)
  }

  /** The working place list and whether it came from AI discovery. */
  datatype Discovery = Discovery(places: seq<PlaceResult>, aiSourced: bool)

  /**
   * The list is AI-sourced exactly when discovery gave candidates, and a list
   * that is not AI-sourced is the legacy search's.
   */
  function Discover(req: Request, svc: Services, target: Coordinate): (d: Discovery)
    ensures d.aiSourced <==> |Candidates(req, svc)| > 0
    ensures d.aiSourced ==> Truthy(req.station)
    ensures !d.aiSourced ==> d.places == Legacy(req, svc, target)
  {
    var candidates := Candidates(req, svc);
    var hydrated := if |candidates| > 0 then Hydrate(candidates, svc, target) else [];
    Discovery(if |hydrated| > 0 then hydrated else Legacy(req, svc, target), |candidates| > 0)
  }

  // ---------------------------------------------------------------------
  // Scoring and merging (route.ts:83-126)
  // ---------------------------------------------------------------------

  function LimitFor(aiSourced: bool): nat {
    if aiSourced then AiSourcedLimit else LegacyLimit
  }

  function Min(a: nat, b: nat): nat {
    if a <= b then a else b
  }

  /** `places.slice(0, limit)`: the first `limit` places, or all of them when there are fewer. */
  function TopPlaces(places: seq<PlaceResult>, limit: nat): (top: seq<PlaceResult>)
    ensures |top| <= limit && |top| <= |places|
    ensures |top| == limit || |top| == |places|
    ensures top == places[..|top|]
  {
    places[..Min(limit, |places|)]
  }

  /** `places.slice(limit)`: what follows the top places. */
  function RestPlaces(places: seq<PlaceResult>, limit: nat): (rest: seq<PlaceResult>)
    ensures TopPlaces(places, limit) + rest == places
    ensures |places| <= limit ==> rest == []
  {
    places[Min(limit, |places|)..]
  }

  /** `r.text?.text` for each review, keeping only the truthy ones, in order. */
  function NonEmptyTexts(reviews: seq<Review>): (texts: seq<string>)
    ensures |texts| <= |reviews|
    ensures forall t :: t in texts ==> t != ""
    ensures forall t :: t in texts ==> Review(Some(t)) in reviews
  {
    if |reviews| == 0 then []
    else
      (match reviews[0].text
       case Some(t) => if t != "" then [t] else []
       case None => [])
      + NonEmptyTexts(reviews[1..])
  }

  /** Collecting the texts distributes over concatenation of the review lists. */
  lemma {:induction false} NonEmptyTextsAppend(a: seq<Review>, b: seq<Review>)
    ensures NonEmptyTexts(a + b) == NonEmptyTexts(a) + NonEmptyTexts(b)
    decreases |a|
  {
    if |a| > 0 {
      assert (a + b)[0] == a[0] && (a + b)[1..] == a[1..] + b;
      NonEmptyTextsAppend(a[1..], b);
    } else {
      assert a + b == b;
    }
  }

  /** One review contributes its text when that is non-empty, and nothing otherwise. */
  lemma NonEmptyTextsOne(r: Review)
    ensures NonEmptyTexts([r]) == if r.text.Some? && r.text.value != "" then [r.text.value] else []
  {
    assert [r][1..] == [];
  }

  /** `details.reviews?.map(r => r.text?.text).filter(Boolean) || []`. */
  function ReviewTexts(details: PlaceDetails): seq<string> {
    match details.reviews
    case None => []
    case Some(reviews) => NonEmptyTexts(reviews)
  }

  /** What the scorer is told about a place: its name, address, types and review texts. */
  function FactsFor(place: PlaceResult, details: PlaceDetails): ShopFacts {
    ShopFacts(place.displayName, Some(place.formattedAddress), Some(ReviewTexts(details)), Some(place.types))
  }

  /**
   * The score of one top place: the error sentinel, without consulting the
   * scorer, when its details are missing; otherwise the scorer's verdict on
   * the place's facts.
   */
  function ScoreOne(place: PlaceResult, svc: Services): (shop: ScoredShop)
    ensures shop.place == place
    ensures svc.getPlaceDetails(place.id).None? ==> shop.aiAnalysis == DetailsFailedScore
    ensures svc.getPlaceDetails(place.id).Some? ==>
      shop.aiAnalysis == svc.generateOldShopScore(FactsFor(place, svc.getPlaceDetails(place.id).value))
  {
    match svc.getPlaceDetails(place.id)
    case None => ScoredShop(place, DetailsFailedScore)
    case Some(details) => ScoredShop(place, svc.generateOldShopScore(FactsFor(place, details)))
  }

  function ScoreTop(top: seq<PlaceResult>, svc: Services): seq<ScoredShop> {
    seq(|top|, i requires 0 <= i < |top| => ScoreOne(top[i], svc))
  }

  function MarkUnjudged(rest: seq<PlaceResult>): seq<ScoredShop> {
    seq(|rest|, i requires 0 <= i < |rest| => ScoredShop(rest[i], UnjudgedScore))
  }

  /** `[...scoredShops, ...unScoredShops]`: one shop per place. */
  function Merge(places: seq<PlaceResult>, limit: nat, svc: Services): (merged: seq<ScoredShop>)
    ensures |merged| == |places|
  {
    ScoreTop(TopPlaces(places, limit), svc) + MarkUnjudged(RestPlaces(places, limit))
  }

  // ---------------------------------------------------------------------
  // The handler
  // ---------------------------------------------------------------------

  /**
   * The response of the pipeline, stage by stage: one of the three errors,
   * or the shops, one per discovered place.
   */
  function SearchSpec(req: Request, svc: Services): (resp: Response)
    ensures resp.ErrorResponse? <==> ResolveTarget(req, svc.geocode).Failure?
    ensures resp.ErrorResponse? ==> resp in {StationNotFound, GeocodingFailed, MissingLocation}
    ensures resp.ShopsResponse? ==>
      |resp.shops| == |Discover(req, svc, ResolveTarget(req, svc.geocode).value).places|
  {
    match ResolveTarget(req, svc.geocode)
    case Failure(error) => error
    case Success(target) =>
      var discovery := Discover(req, svc, target);
      if |discovery.places| == 0 then ShopsResponse([])
      else
        var merged := Merge(discovery.places, LimitFor(discovery.aiSourced), svc);
        SortByScorePermutes(merged);
        ShopsResponse(SortByScore(merged))
  }

  /** `GET`: the handler as written, step by step. */
  method Get(req: Request, svc: Services) returns (resp: Response)
    ensures resp == SearchSpec(req, svc)
  {
    var targetLat := req.lat;
    var targetLng := req.lng;
    if (Falsy(targetLat) || Falsy(targetLng)) && Truthy(req.station) {
      match svc.geocode(req.station.value) {
        case GeocodeThrew =>
          return GeocodingFailed;
        case GeocodeResults(results) =>
          if |results| > 0 {
            targetLat := results[0].lat;
            targetLng := results[0].lng;
          } else {
            return StationNotFound;
          }
      }
    }
    if Falsy(targetLat) || Falsy(targetLng) {
      return MissingLocation;
    }
    var target := Coordinate(targetLat, targetLng);

    var places: seq<PlaceResult> := [];
    var isAiSourced := false;
    if Truthy(req.station) {
      var candidates := svc.findShiniseCandidates(req.station.value, GenreHint(req.genre));
      if |candidates| > 0 {
        isAiSourced := true;
        places := Hydrate(candidates, svc, target);
      }
    }
    if |places| == 0 {
      if Truthy(req.genre) {
        places := svc.searchByText(req.genre.value, targetLat, targetLng, req.radius);
      } else {
        places := svc.searchNearby(targetLat, targetLng, req.radius);
      }
    }
    if |places| == 0 {
      return ShopsResponse([]);
    }

    var limit := LimitFor(isAiSourced);
    var scoredShops := ScoreTop(TopPlaces(places, limit), svc);
    var unScoredShops := MarkUnjudged(RestPlaces(places, limit));
    var merged := scoredShops + unScoredShops;
    var allShops := new ScoredShop[|merged|](i requires 0 <= i < |merged| => merged[i]);
    assert allShops[..] == merged;
    SortByScoreInPlace(allShops);
    resp := ShopsResponse(allShops[..]);
  }

  // ---------------------------------------------------------------------
  // Error responses (route.ts:18-39)
  // ---------------------------------------------------------------------

  /**
   * Each of the three error responses is returned exactly when its cause
   * holds: 404 when geocoding finds nothing, 500 when it throws, 400 when the
   * coordinate to search around is still missing; every other request is
   * answered with a list of shops.
   */
  lemma SearchErrors(req: Request, svc: Services)
    ensures SearchSpec(req, svc) == StationNotFound <==>
      NeedsGeocode(req) && svc.geocode(req.station.value) == GeocodeResults([])
    ensures SearchSpec(req, svc) == GeocodingFailed <==>
      NeedsGeocode(req) && svc.geocode(req.station.value) == GeocodeThrew
    ensures SearchSpec(req, svc) == MissingLocation <==>
      if NeedsGeocode(req) then
        svc.geocode(req.station.value).GeocodeResults? && |svc.geocode(req.station.value).results| > 0 &&
        MissingCoordinate(svc.geocode(req.station.value).results[0])
      else MissingCoordinate(Coordinate(req.lat, req.lng))
    ensures SearchSpec(req, svc).ShopsResponse? <==> ResolveTarget(req, svc.geocode).Success?
  {
  }

  /** Without a station, a missing coordinate is always answered with 400. */
  lemma MissingCoordinateWithoutStation(req: Request, svc: Services)
    requires MissingCoordinate(Coordinate(req.lat, req.lng)) && !Truthy(req.station)
    ensures SearchSpec(req, svc) == MissingLocation
  {
  }

  /** The geocoder is consulted only when a coordinate is missing and a station is given. */
  lemma GeocodeOnlyWhenNeeded(req: Request, svc: Services, geocode: string -> GeocodeOutcome)
    requires !NeedsGeocode(req)
    ensures SearchSpec(req, svc.(geocode := geocode)) == SearchSpec(req, svc)
  {
    var svc' := svc.(geocode := geocode);
    assert ResolveTarget(req, geocode) == ResolveTarget(req, svc.geocode);
    if ResolveTarget(req, svc.geocode).Success? {
      var target := ResolveTarget(req, svc.geocode).value;
      assert Discover(req, svc', target) == Discover(req, svc, target);
      assert forall p, l :: Merge(p, l, svc') == Merge(p, l, svc);
    }
  }

  /** With both coordinates given, the request's own coordinate is the target. */
  lemma GivenCoordinateIsTarget(req: Request, svc: Services)
    requires !MissingCoordinate(Coordinate(req.lat, req.lng))
    ensures ResolveTarget(req, svc.geocode) == Success(Coordinate(req.lat, req.lng))
  {
  }

  // ---------------------------------------------------------------------
  // Discovery (route.ts:41-77)
  // ---------------------------------------------------------------------

  /** AI discovery is invoked only when a station is given. */
  lemma DiscoveryOnlyWithStation(req: Request, svc: Services,
                                 find: (string, Option<string>) -> seq<string>)
    requires !Truthy(req.station)
    ensures SearchSpec(req, svc.(findShiniseCandidates := find)) == SearchSpec(req, svc)
  {
    var svc' := svc.(findShiniseCandidates := find);
    assert ResolveTarget(req, svc'.geocode) == ResolveTarget(req, svc.geocode);
    if ResolveTarget(req, svc.geocode).Success? {
      var target := ResolveTarget(req, svc.geocode).value;
      assert Discover(req, svc', target) == Discover(req, svc, target);
      assert forall p, l :: Merge(p, l, svc') == Merge(p, l, svc);
    }
  }

  /** The place list is AI-sourced exactly when discovery produced at least one candidate. */
  lemma AiSourcedIffCandidates(req: Request, svc: Services, target: Coordinate)
    ensures Discover(req, svc, target).aiSourced <==>
      Truthy(req.station) && |svc.findShiniseCandidates(req.station.value, GenreHint(req.genre))| > 0
  {
  }

  /**
   * Discovery's place list: the hydrated candidates when at least one of them
   * was found, otherwise the legacy search.
   */
  lemma DiscoveredPlaces(req: Request, svc: Services, target: Coordinate)
    ensures var candidates := Candidates(req, svc);
      Discover(req, svc, target).places ==
        if |Hydrate(candidates, svc, target)| > 0 then Hydrate(candidates, svc, target)
        else Legacy(req, svc, target)
  {
    var candidates := Candidates(req, svc);
    if |candidates| == 0 {
      assert Hydrated(candidates, svc, target) == [];
    }
  }

  /** The legacy nearby search is not consulted when hydration found a place. */
  lemma LegacyOnlyWhenNothingHydrated(req: Request, svc: Services, target: Coordinate,
                                      nearby: (JsNumber, JsNumber, JsNumber) -> seq<PlaceResult>)
    requires |Hydrate(Candidates(req, svc), svc, target)| > 0
    ensures Discover(req, svc.(searchNearby := nearby), target) == Discover(req, svc, target)
  {
    var svc' := svc.(searchNearby := nearby);
    assert Candidates(req, svc') == Candidates(req, svc);
    assert Hydrated(Candidates(req, svc), svc', target) == Hydrated(Candidates(req, svc), svc, target);
    DiscoveredPlaces(req, svc, target);
    DiscoveredPlaces(req, svc', target);
  }

  /**
   * When discovery yields no candidates (or no station is given), the places
   * around any target are those the same request finds without a station.
   */
  lemma DiscoverWithoutCandidates(req: Request, svc: Services, target: Coordinate)
    requires Candidates(req, svc) == []
    ensures Discover(req, svc, target) == Discover(req.(station := None), svc, target)
  {
  }

  /**
   * So a request whose discovery yields no candidates is answered as the
   * request without a station, at the resolved (possibly geocoded)
   * coordinate, is answered.
   */
  lemma EmptyDiscoveryIsLegacySearch(req: Request, svc: Services)
    requires ResolveTarget(req, svc.geocode).Success?
    requires Candidates(req, svc) == []
    ensures var target := ResolveTarget(req, svc.geocode).value;
      SearchSpec(req, svc) == SearchSpec(req.(station := None, lat := target.lat, lng := target.lng), svc)
  {
    var target := ResolveTarget(req, svc.geocode).value;
    var plain := req.(station := None, lat := target.lat, lng := target.lng);
    assert ResolveTarget(plain, svc.geocode) == Success(target);
    DiscoverWithoutCandidates(req, svc, target);
    assert Discover(req.(station := None), svc, target) == Discover(plain, svc, target);
  }

  /**
   * The legacy search consults exactly one of the two Places searches,
   * chosen by the genre, and does not depend on the station.
   */
  lemma LegacyConsultsOneSearch(req: Request, svc: Services, target: Coordinate,
                                text: (string, JsNumber, JsNumber, JsNumber) -> seq<PlaceResult>,
                                nearby: (JsNumber, JsNumber, JsNumber) -> seq<PlaceResult>)
    ensures Truthy(req.genre) ==> Legacy(req, svc.(searchNearby := nearby), target) == Legacy(req, svc, target)
    ensures !Truthy(req.genre) ==> Legacy(req, svc.(searchByText := text), target) == Legacy(req, svc, target)
    ensures Legacy(req.(station := None), svc, target) == Legacy(req, svc, target)
  {
  }

  // ---------------------------------------------------------------------
  // Hydration (route.ts:52-62)
  // ---------------------------------------------------------------------

  lemma {:induction false} PresentAppend(xs: seq<Option<PlaceResult>>, ys: seq<Option<PlaceResult>>)
    ensures Present(xs + ys) == Present(xs) + Present(ys)
    decreases |xs|
  {
    if |xs| > 0 {
      assert (xs + ys)[0] == xs[0] && (xs + ys)[1..] == xs[1..] + ys;
      PresentAppend(xs[1..], ys);
      var head := if xs[0].Some? then [xs[0].value] else [];
      calc {
        Present(xs + ys);
        head + Present(xs[1..] + ys);
        head + (Present(xs[1..]) + Present(ys));
        (head + Present(xs[1..])) + Present(ys);
        Present(xs) + Present(ys);
      }
    } else {
      assert xs + ys == ys;
    }
  }

  /** Filtering drops nothing when every value is present. */
  lemma {:induction false} PresentAllSome(xs: seq<Option<PlaceResult>>)
    requires forall i :: 0 <= i < |xs| ==> xs[i].Some?
    ensures |Present(xs)| == |xs|
    ensures forall i :: 0 <= i < |xs| ==> Present(xs)[i] == xs[i].value
    decreases |xs|
  {
    if |xs| > 0 {
      PresentAllSome(xs[1..]);
    }
  }

  /** Filtering gives nothing exactly when no value is present. */
  lemma {:induction false} PresentEmpty(xs: seq<Option<PlaceResult>>)
    ensures Present(xs) == [] <==> forall i :: 0 <= i < |xs| ==> xs[i].None?
    decreases |xs|
  {
    if |xs| > 0 {
      PresentEmpty(xs[1..]);
      if xs[0].None? {
        assert forall i :: 1 <= i < |xs| ==> xs[i] == xs[1..][i - 1];
      }
    }
  }

  /**
   * Hydration keeps at most one place per candidate, and each kept place is
   * the first text-search hit, near the target within 2000 m, of some
   * candidate.
   */
  lemma HydrateFromCandidates(candidates: seq<string>, svc: Services, target: Coordinate)
    ensures |Hydrate(candidates, svc, target)| <= |candidates|
    ensures forall j :: 0 <= j < |Hydrate(candidates, svc, target)| ==>
      exists i :: (0 <= i < |candidates| &&
        FirstHit(svc.searchByText(candidates[i], target.lat, target.lng, HydrationRadius)) ==
        Some(Hydrate(candidates, svc, target)[j]))
  {
    var hydrated := Hydrated(candidates, svc, target);
    forall j | 0 <= j < |Present(hydrated)|
      ensures exists i :: (0 <= i < |candidates| &&
        FirstHit(svc.searchByText(candidates[i], target.lat, target.lng, HydrationRadius)) == Some(Present(hydrated)[j]))
    {
      var i :| 0 <= i < |hydrated| && hydrated[i] == Some(Present(hydrated)[j]);
    }
  }

  /** When every candidate has a hit, hydration keeps all of them, in candidate order. */
  lemma HydrateAllFound(candidates: seq<string>, svc: Services, target: Coordinate)
    requires forall i :: 0 <= i < |candidates| ==>
      |svc.searchByText(candidates[i], target.lat, target.lng, HydrationRadius)| > 0
    ensures |Hydrate(candidates, svc, target)| == |candidates|
    ensures forall i :: 0 <= i < |candidates| ==>
      Hydrate(candidates, svc, target)[i] == svc.searchByText(candidates[i], target.lat, target.lng, HydrationRadius)[0]
  {
    PresentAllSome(Hydrated(candidates, svc, target));
  }

  /** Hydration finds nothing exactly when no candidate has a hit. */
  lemma HydrateEmpty(candidates: seq<string>, svc: Services, target: Coordinate)
    ensures Hydrate(candidates, svc, target) == [] <==>
      forall i :: 0 <= i < |candidates| ==> svc.searchByText(candidates[i], target.lat, target.lng, HydrationRadius) == []
  {
    var hydrated := Hydrated(candidates, svc, target);
    PresentEmpty(hydrated);
    forall i | 0 <= i < |candidates|
      ensures hydrated[i].None? <==> svc.searchByText(candidates[i], target.lat, target.lng, HydrationRadius) == []
    {
    }
  }

  // ---------------------------------------------------------------------
  // Scoring and merging (route.ts:83-126)
  // ---------------------------------------------------------------------

  /** A top place whose details are missing gets the sentinel, whatever the scorer would say. */
  lemma ScorerNotCalledWithoutDetails(place: PlaceResult, svc: Services, scorer: ShopFacts -> ShopScore)
    requires svc.getPlaceDetails(place.id).None?
    ensures ScoreOne(place, svc.(generateOldShopScore := scorer)) == ScoreOne(place, svc)
  {
  }

  /** The review texts passed to the scorer are the non-empty ones, in order. */
  lemma NonEmptyTextsInOrder(reviews: seq<Review>, i: nat)
    requires i < |reviews| && reviews[i].text.Some? && reviews[i].text.value != ""
    ensures var before := NonEmptyTexts(reviews[..i]);
      |before| < |NonEmptyTexts(reviews)| && NonEmptyTexts(reviews)[|before|] == reviews[i].text.value
  {
    var before, after := reviews[..i], reviews[i + 1..];
    assert reviews == before + ([reviews[i]] + after);
    NonEmptyTextsAppend(before, [reviews[i]] + after);
    NonEmptyTextsAppend([reviews[i]], after);
    NonEmptyTextsOne(reviews[i]);
  }


  /**
   * The merged list keeps every place, in order: the first `limit` are
   * scored one by one, the others carry the unjudged sentinel.
   */
  lemma MergeFacts(places: seq<PlaceResult>, limit: nat, svc: Services)
    ensures |Merge(places, limit, svc)| == |places|
    ensures forall i :: 0 <= i < |places| ==> Merge(places, limit, svc)[i].place == places[i]
    ensures forall i :: 0 <= i < |places| && i < limit ==> Merge(places, limit, svc)[i] == ScoreOne(places[i], svc)
    ensures forall i :: limit <= i < |places| ==> Merge(places, limit, svc)[i].aiAnalysis == UnjudgedScore
    ensures TopPlaces(places, limit) + RestPlaces(places, limit) == places
  {
  }

  /** At most `limit` shops are handed to the scorer, and all of the first `limit` are. */
  lemma ScoredCount(places: seq<PlaceResult>, limit: nat, svc: Services)
    ensures |TopPlaces(places, limit)| == Min(limit, |places|) <= limit
    ensures |ScoreTop(TopPlaces(places, limit), svc)| == Min(limit, |places|)
  {
  }

  /**
   * The shops of a successful search are the merged list sorted by score,
   * descending and stable, one per place of discovery.
   */
  lemma ShopsAreRanked(req: Request, svc: Services)
    requires SearchSpec(req, svc).ShopsResponse?
    ensures var target := ResolveTarget(req, svc.geocode).value;
      var discovery := Discover(req, svc, target);
      var merged := Merge(discovery.places, LimitFor(discovery.aiSourced), svc);
      var shops := SearchSpec(req, svc).shops;
      |shops| == |discovery.places| &&
      SortedByScore(shops) &&
      multiset(shops) == multiset(merged) &&
      forall k :: WithScore(shops, k) == WithScore(merged, k)
  {
    var target := ResolveTarget(req, svc.geocode).value;
    var discovery := Discover(req, svc, target);
    var merged := Merge(discovery.places, LimitFor(discovery.aiSourced), svc);
    MergeFacts(discovery.places, LimitFor(discovery.aiSourced), svc);
    ShopsOfSearch(req, svc);
    SortedPermutation(merged);
  }

  /** The shops of a successful search are the sorted merge of discovery's places. */
  lemma ShopsOfSearch(req: Request, svc: Services)
    requires SearchSpec(req, svc).ShopsResponse?
    ensures var target := ResolveTarget(req, svc.geocode).value;
      var discovery := Discover(req, svc, target);
      SearchSpec(req, svc).shops == SortByScore(Merge(discovery.places, LimitFor(discovery.aiSourced), svc))
  {
  }

  /** The sort's guarantees, together. */
  lemma SortedPermutation(merged: seq<ScoredShop>)
    ensures |SortByScore(merged)| == |merged|
    ensures SortedByScore(SortByScore(merged))
    ensures multiset(SortByScore(merged)) == multiset(merged)
    ensures forall k :: WithScore(SortByScore(merged), k) == WithScore(merged, k)
  {
    SortByScoreSorted(merged);
    SortByScorePermutes(merged);
    forall k ensures WithScore(SortByScore(merged), k) == WithScore(merged, k) {
      SortByScoreStable(merged, k);
    }
  }

  /** The limit is 10 for an AI-sourced list and 5 for a legacy one. */
  lemma LimitDependsOnSource(req: Request, svc: Services, target: Coordinate)
    ensures LimitFor(Discover(req, svc, target).aiSourced) ==
      if Truthy(req.station) && |svc.findShiniseCandidates(req.station.value, GenreHint(req.genre))| > 0 then 10 else 5
  {
  }
}
