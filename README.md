# shinise-master search core, modelled in Dafny

shinise-master finds long-established local shops ("shinise", 老舗) near a
station or a coordinate. Its search endpoint geocodes the station, asks a
Vertex AI model for candidate shop names, looks each one up in Google Places,
falls back to a plain Places search when that gives nothing, scores the first
few places with the model, and returns every place ranked by score.

This project models the two pieces of logic in that flow:

- `src/lib/vertex.ts`: the lazily created, memoised model handle (`getModel`,
  a class `VertexState` whose `GetModel` method updates its fields), the
  three-stage JSON extractor `cleanJson`, `extractResponseText`, and the
  fixed decision ladder of `generateOldShopScore`, `generateShopGuide` and
  `findShiniseCandidates` (no model, no text, empty cleaned text, parse
  failure, success), each with its own sentinel results.
- `src/app/api/search/route.ts`, handler `GET`: an imperative method `Get`
  that reassigns the target coordinate, the place list and the AI-sourced
  flag step by step and sorts the merged array in place, proved equal to a
  pure pipeline `SearchSpec`; the lemmas about `SearchSpec` state the
  endpoint's guarantees (error statuses, which collaborator is consulted
  when, hydration, the 10/5 limit, sentinels, a stable descending sort).

Modules: `Wrappers` (Option, Result), `JsString` (JavaScript white space,
`trim`, substring search, global replace), `Vertex`, `Places` (the values the
Places client returns), `ShopRanking` (the stable sort by score, as a
function and as an in-place insertion sort on an array) and `SearchRoute`.

Collaborators are parameters. The Vertex call is a `CallOutcome` (it threw,
or returned a response); `JSON.parse` with its cast is a function from the
cleaned text to a `Result`. Geocoding, `searchNearby`, `searchByText`,
`getPlaceDetails`, `findShiniseCandidates` and `generateOldShopScore` are the
fields of a `Services` value passed to the route; "the route does not call X"
is stated as "the response does not change when X is replaced".

Numbers read from the query are `JsNumber` (`NaN` or a real), so "0 or NaN
counts as missing" is written out. Scores are unbounded `int` and are never
clamped, as in the source. The two sentinel scores built by the route have no
`founding_year`, as written (`foundingYear == None`), although the result type
declares one.

The ranking is `allShops.sort((a, b) => b.aiAnalysis.score - a.aiAnalysis.score)`
(src/app/api/search/route.ts:129). `Array.prototype.sort` is stable, so shops
with equal scores keep the order they had in the merged list, and that order
comes from discovery. The final order therefore depends on the order of the
places, not only on the set of places: `ShopRanking.TiesKeepInputOrder` shows
two orders of the same two shops that rank differently.

## Model

| member | source | states |
|---|---|---|
| `Vertex.VertexState.constructor` | src/lib/vertex.ts:3-9 | the project id comes from the environment, the location falls back to us-central1, and both cached globals start null |
| `Vertex.GenerativeModel.constructor` | src/lib/vertex.ts:18-28 | a model is created for the client's project and location with model id, output-token limit and the Google-search tool |
| `Vertex.VertexState.GetModel` | src/lib/vertex.ts:11-31 | without a project id it returns null and caches nothing; on the first call with one it creates the client for the configured project and location, and a model configured with gemini-2.5-pro and 8192 tokens; afterwards it returns that same object and changes nothing; the result is non-null exactly when the project id is set |
| `Vertex.GetModelTwice` | src/lib/vertex.ts:11-31 | two calls in a row return the very same model object (or null twice), and it is the cached one |
| `Vertex.VertexClient.constructor` | src/lib/vertex.ts:18 | `new VertexAI({ project, location })`: the client holds the project and location it was created with |
| `JsString.Trim` | src/lib/vertex.ts:36 | `trim()`: the result has no white space at either end, is empty exactly when the input is all white space, and is the input with an all-white-space prefix and an all-white-space suffix removed |
| `JsString.IndexOf` | src/lib/vertex.ts:35 | the first position at or after `from` where the pattern occurs, or none when it occurs nowhere there |
| `Vertex.FencedBlock` | src/lib/vertex.ts:35 | the fenced-block match: with a first fence and the earliest fence after it (and after the optional `json` tag), the content between them; no match when there is no such pair, and a match only when there is |
| `Vertex.BraceSpan` | src/lib/vertex.ts:40 | the brace match: the text from the first `{` to the last `}` when the first `{` precedes the last `}`; no match exactly when no `{` comes before a `}` |
| `Vertex.CleanJson` | src/lib/vertex.ts:33-45 | whichever stage produces it, the result has no leading or trailing white space |
| `Vertex.CleanJsonFencedStage` | src/lib/vertex.ts:35-36 | with a first fence, the earliest closing fence after it and non-blank content between, the result is that content trimmed |
| `Vertex.CleanJsonBlankFence` | src/lib/vertex.ts:35-44 | with a first fence and the earliest closing fence after it and only white space between, the block is skipped: the result is the trimmed brace span when there is one, otherwise the fallback |
| `Vertex.CleanJsonBlankFenceExample` | src/lib/vertex.ts:35-41 | a blank `json` fence followed by `{"a":1}` cleans to `{"a":1}` |
| `Vertex.CleanJsonBraceStage` | src/lib/vertex.ts:40-41 | when stage 1 does not apply and the first `{` precedes the last `}`, the result is exactly the text from that `{` to that `}` |
| `Vertex.CleanJsonKeepsBareObject` | src/lib/vertex.ts:40-41 | a fence-free text that starts with `{` and ends with `}` is returned unchanged |
| `Vertex.CleanJsonFallbackStage` | src/lib/vertex.ts:43-44 | with no usable block and no brace span, the result is the text with every fence marker removed, trimmed, and it contains no fence |
| `Vertex.StripFences` | src/lib/vertex.ts:44 | the result is the trimmed text left after removing every tagged fence and then every fence; it is trimmed and has no fence in it |
| `JsString.RemoveAll` | src/lib/vertex.ts:44 | `replace(/p/g, '')`: never longer than the input, and a text in which the pattern does not occur is returned as it is |
| `JsString.RemoveAllFirstMatch` | src/lib/vertex.ts:44 | the removal scans from the left: when the pattern first occurs at `k`, the result is the text before `k` followed by the removal applied to the text after that occurrence |
| `Vertex.RemoveFencesLeavesNone` | src/lib/vertex.ts:44 | a global, left-to-right removal of the fence leaves no fence, not even one formed by joining the pieces around a removed one |
| `Vertex.CleanJsonLoneFenceIsEmpty` | src/lib/vertex.ts:33-45 | a lone fence cleans to the empty string, the input that reaches the "Empty JSON after cleaning" branch |
| `Vertex.ExtractResponseText` | src/lib/vertex.ts:48-51 | the trimmed join of the first candidate's part texts: no white space at either end, empty when there are no candidates or parts, and empty exactly when the joined text is all white space |
| `Vertex.FirstCandidateParts` | src/lib/vertex.ts:49 | `candidates?.[0]?.content?.parts || []`: when the candidate list, its first candidate's content and its parts all exist, the result is those parts; a non-empty result means they all exist |
| `Vertex.PartText` | src/lib/vertex.ts:50 | a part's text, or the empty string: the text when the part has one, and empty exactly when the text is absent or empty |
| `Vertex.JoinTextsEmpty` | src/lib/vertex.ts:50 | the joined text is empty exactly when every part's text is |
| `Vertex.JoinTextsAppend` | src/lib/vertex.ts:50 | joining the texts of two part lists is joining each and concatenating |
| `Vertex.JoinTextsInOrder` | src/lib/vertex.ts:50 | each part's text (empty when absent) sits after the texts of all earlier parts and before those of all later ones |
| `Vertex.RunModel` | src/lib/vertex.ts:107-127 | the ladder: no model is reported as such, a thrown call as its error, an empty text as the no-text error, except that for the two evaluators that log the parts first a `TypeError` from that log line is reported instead; a parsed value only comes from a returned response whose text and cleaned text are non-empty and which the parser accepted |
| `Vertex.PartsLogError` | src/lib/vertex.ts:115 | evaluating `candidates?.[0].content.parts` throws "reading 'content'" exactly when the candidate list is empty and "reading 'parts'" exactly when the first candidate has no content; either way there were no parts |
| `Vertex.RunModelParses` | src/lib/vertex.ts:120-127 | a non-empty cleaned text goes to the parser, whose success or error is passed on unchanged |
| `Vertex.RunModelEmptyClean` | src/lib/vertex.ts:120-125 | an empty cleaned text fails with "Empty JSON after cleaning" |
| `Vertex.GenerateOldShopScore` | src/lib/vertex.ts:68-139 | no model gives the configuration sentinel; a parsed payload is returned as it is; every failure gives score 0, not shinise, founding year 不明, reasoning "AIエラー: " plus the message or "Unknown", summary 判定不能; a non-zero score or the shinise flag always comes from the model |
| `Vertex.ScoreIsNotClamped` | src/lib/vertex.ts:127 | the score of the parsed payload is returned whatever its value |
| `Vertex.ScoreWithoutText` | src/lib/vertex.ts:112-137 | a response without text whose log line evaluates gives the "No text response from Vertex AI" sentinel |
| `Vertex.ScoreWithEmptyCandidates` | src/lib/vertex.ts:112-137 | an empty candidate list makes the score report the `TypeError` of the log line, not "No text response" |
| `Vertex.MessageOrUnknown` | src/lib/vertex.ts:133 | the message or "Unknown": never empty; the message when it is non-empty, "Unknown" otherwise |
| `Vertex.ScoreError` | src/lib/vertex.ts:129-137 | the catch result: score 0, not shinise, founding year 不明, summary 判定不能, reasoning "AIエラー: " followed by a non-empty message |
| `Vertex.GenerateShopGuide` | src/lib/vertex.ts:141-206 | no model gives the connection-error guide; a parsed guide is returned as it is; a failure gives "エラー: " plus the message (or "undefined") with every other field empty |
| `Vertex.MessageText` | src/lib/vertex.ts:200 | the interpolated message: the message when present, "undefined" when absent |
| `Vertex.GuideWithoutContent` | src/lib/vertex.ts:182-205 | a first candidate without content makes the guide report the `TypeError` of its log line |
| `Vertex.FindShiniseCandidates` | src/lib/vertex.ts:208-272 | the parsed `candidates`, in order, when present; `[]` when there is no model, no text, no cleaned text, a failure, or no such field; a non-empty result always is the parsed list |
| `Vertex.CandidatesWithoutText` | src/lib/vertex.ts:253-257 | with no log line before the throw, every response without text fails with "No candidates text from Vertex AI" and gives `[]` |
| `ShopRanking.SortByScoreSorted` | src/app/api/search/route.ts:129 | the sorted list never increases in score from left to right |
| `ShopRanking.SortByScorePermutes` | src/app/api/search/route.ts:129 | the sorted list has the same shops, with the same multiplicities, as the input |
| `ShopRanking.SortByScoreStable` | src/app/api/search/route.ts:129 | for each score, the shops with that score keep their relative input order |
| `ShopRanking.InsertByScoreElements` | src/app/api/search/route.ts:129 | one insertion step adds exactly the inserted shop |
| `ShopRanking.InsertByScoreSorted` | src/app/api/search/route.ts:129 | one insertion step keeps a list sorted by score |
| `ShopRanking.InsertByScoreWithScore` | src/app/api/search/route.ts:129 | one insertion step puts the new shop after every shop of its own score |
| `ShopRanking.StableSortIsUnique` | src/app/api/search/route.ts:129 | any list sorted by score that keeps each score's shops in input order is exactly the specified sort |
| `ShopRanking.TiesKeepInputOrder` | src/app/api/search/route.ts:129 | two distinct shops with equal scores come out in input order, so swapping them in the input swaps them in the output |
| `ShopRanking.InsertInPlace` | src/app/api/search/route.ts:129 | one insertion step on the array: the prefix becomes the sorted insertion of the next shop and the rest of the array is untouched |
| `ShopRanking.SortByScoreInPlace` | src/app/api/search/route.ts:129 | `allShops.sort(...)` in place: the array ends up holding the stable descending sort of its old contents |
| `SearchRoute.Get` | src/app/api/search/route.ts:7-137 | the handler, reassigning its locals and sorting in place, returns exactly the response of the staged pipeline |
| `SearchRoute.SearchSpec` | src/app/api/search/route.ts:7-137 | the response is an error exactly when no target is resolved, the error is one of 404, 500 and 400, and the shops are one per discovered place |
| `SearchRoute.SearchErrors` | src/app/api/search/route.ts:18-39 | 404 exactly when geocoding is needed and finds no result, 500 exactly when it throws, 400 exactly when the coordinate (given or geocoded) still has a 0 or NaN part; shops exactly when a target is resolved |
| `SearchRoute.ResolveTarget` | src/app/api/search/route.ts:13-39 | the target is the geocoder's first result when geocoding is needed and the request's coordinate otherwise, never has a 0 or NaN part, and every failure is one of the three error responses |
| `SearchRoute.MissingCoordinateWithoutStation` | src/app/api/search/route.ts:18-39 | a missing coordinate without a station is always a 400 |
| `SearchRoute.GeocodeOnlyWhenNeeded` | src/app/api/search/route.ts:18-35 | unless a coordinate is missing and a station is given, the geocoder does not affect the response |
| `SearchRoute.GivenCoordinateIsTarget` | src/app/api/search/route.ts:13-39 | with both coordinates non-zero and not NaN, they are the search target |
| `SearchRoute.DiscoveryOnlyWithStation` | src/app/api/search/route.ts:45-47 | without a station, AI discovery does not affect the response |
| `SearchRoute.AiSourcedIffCandidates` | src/app/api/search/route.ts:45-52 | the list is AI-sourced exactly when a station is given and discovery returned at least one candidate |
| `SearchRoute.Discover` | src/app/api/search/route.ts:41-77 | the list is AI-sourced exactly when discovery gave candidates, only with a station, and a list that is not AI-sourced is the legacy search's |
| `SearchRoute.DiscoveredPlaces` | src/app/api/search/route.ts:45-77 | the place list is the hydrated candidates when that is non-empty, otherwise the legacy search (by text with the genre, else nearby, with the request radius) |
| `SearchRoute.LegacyOnlyWhenNothingHydrated` | src/app/api/search/route.ts:69-77 | when hydration found a place the nearby search is not consulted |
| `SearchRoute.DiscoverWithoutCandidates` | src/app/api/search/route.ts:45-77 | when discovery gives no candidate, the places around any target are those the same request finds without a station |
| `SearchRoute.EmptyDiscoveryIsLegacySearch` | src/app/api/search/route.ts:7-137 | when discovery gives no candidate, the response is the one the request gets without a station at the resolved (possibly geocoded) coordinate |
| `SearchRoute.LegacyConsultsOneSearch` | src/app/api/search/route.ts:69-77 | the legacy search consults the text search when a genre is given and the nearby search otherwise, never both, and ignores the station |
| `SearchRoute.Present` | src/app/api/search/route.ts:62 | the filter keeps no more values than it is given, and each one it keeps was present in the input |
| `SearchRoute.PresentAppend` | src/app/api/search/route.ts:62 | filtering a concatenation is concatenating the filtered parts, so the kept values stay in order |
| `SearchRoute.PresentAllSome` | src/app/api/search/route.ts:62 | when every value is present the filter keeps all of them, position by position |
| `SearchRoute.PresentEmpty` | src/app/api/search/route.ts:62 | the filter gives nothing exactly when no value is present |
| `SearchRoute.HydrateFromCandidates` | src/app/api/search/route.ts:55-62 | at most one place per candidate, and each kept place is the first 2000 m text-search hit of some candidate |
| `SearchRoute.HydrateAllFound` | src/app/api/search/route.ts:55-62 | when every candidate has a hit, the places are the first hits, in candidate order |
| `SearchRoute.HydrateEmpty` | src/app/api/search/route.ts:55-62 | hydration gives nothing exactly when no candidate has a hit |
| `SearchRoute.Hydrate` | src/app/api/search/route.ts:55-62 | never more places than candidates |
| `SearchRoute.LimitDependsOnSource` | src/app/api/search/route.ts:86 | the limit is 10 for an AI-sourced list and 5 otherwise |
| `SearchRoute.ScoredCount` | src/app/api/search/route.ts:86-88 | the top places are the first min(limit, n) places and each of them is scored |
| `SearchRoute.TopPlaces` | src/app/api/search/route.ts:87 | `slice(0, limit)`: a prefix of the places of length `limit`, or all of them when there are fewer |
| `SearchRoute.RestPlaces` | src/app/api/search/route.ts:88 | `slice(limit)`: the places after the top ones, so top and rest together are the places; empty when there are no more than `limit` |
| `SearchRoute.Merge` | src/app/api/search/route.ts:126 | one shop per place |
| `SearchRoute.NonEmptyTexts` | src/app/api/search/route.ts:98 | the review texts kept are non-empty, no more than the reviews, and each is the text of one of the reviews |
| `SearchRoute.NonEmptyTextsAppend` | src/app/api/search/route.ts:98 | collecting the texts of two lists of reviews one after the other gives the texts of the first followed by those of the second |
| `SearchRoute.NonEmptyTextsOne` | src/app/api/search/route.ts:98 | a single review contributes its text exactly when it has a non-empty one, and nothing otherwise |
| `SearchRoute.NonEmptyTextsInOrder` | src/app/api/search/route.ts:98 | every non-empty review text is kept, after the texts of the reviews before it |
| `SearchRoute.ScoreOne` | src/app/api/search/route.ts:90-114 | a top place keeps its data; without details it gets the 詳細情報取得失敗 sentinel, otherwise the scorer's verdict on its name, address, types and review texts |
| `SearchRoute.ScorerNotCalledWithoutDetails` | src/app/api/search/route.ts:106-109 | without details the scorer does not affect the place's score |
| `SearchRoute.MergeFacts` | src/app/api/search/route.ts:83-126 | the merged list has one shop per place, in place order; the first `limit` are scored one by one and the rest carry the 未判定 sentinel; top and rest together are the places |
| `SearchRoute.ShopsAreRanked` | src/app/api/search/route.ts:126-132 | the shops returned are as many as the places, sorted by score, a permutation of the merged list, and stable for each score |

## Left out

- Network I/O is not modelled: the geocoding fetch, the Places HTTP requests and their field masks (`src/lib/places.ts`), and the Vertex SDK call. Each is a parameter; the Places operations are taken to honour their own contract (a list, possibly empty, or absent details, and never an exception).
- The prompt texts and `toLocaleDateString` carry no logic the results depend on and are left out. Console logging is left out except for the `console.warn` of the parts before "No text response" (src/lib/vertex.ts:115, 185), whose argument can throw a `TypeError` that reaches the catch; it is modelled by `Vertex.PartsLogError`.
- Vertex responses are values with optional fields: `null` and `undefined` are not distinguished, and a present field is taken to have the expected type (an array of candidates, an object as content).
- `JSON.parse` and the `as` casts are an abstract parse function: no field-level validation is specified because the source performs none.
- `Promise.all` in the route is modelled as an order-preserving sequential map; concurrency is not captured.
- `parseFloat`/`parseInt` and floating point are abstracted: a number is NaN or a real, and `Infinity` is not distinguished.
- The regular expressions of `cleanJson` are modelled by explicit index searches, and JavaScript's `\s`/`trim` by a fixed white-space predicate; a Dafny `char` is a Unicode scalar value, so a character outside the Basic Multilingual Plane is one character here and two UTF-16 code units in JavaScript. No result of the model depends on that difference, since the patterns are ASCII.
- The route's outer `catch` (500 "Internal Server Error", src/app/api/search/route.ts:133-135) is not modelled: the collaborators are typed as total functions returning well-formed values, so the paths that throw inside the handler are dropped. One such path is a truthy non-array `candidates` field in the model's JSON (`parsed.candidates || []` passes it through), on which `candidates.map` throws.
- `PlaceResult` is reduced to the fields the route reads; the other fields travel along with the place unchanged in the source and are not represented.
- The UI page (`src/app/search/page.tsx`) and the smoke script under `test/` are not part of this model.
