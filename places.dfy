/**
 * The values the Places client of src/lib/places.ts hands to the search
 * route. The HTTP requests themselves are not modelled: the route receives
 * the client's operations as functions that, as the client promises, never
 * fail (a list, possibly empty, for the searches; an absent value for
 * details that could not be fetched).
 */
module Places {
  import opened Wrappers

  /** A JavaScript number as produced by `parseFloat`/`parseInt` or read from JSON. */
  datatype JsNumber = NaN | Num(value: real)

  /** `!x` for a number: NaN and zero are falsy. */
  predicate Falsy(x: JsNumber) {
    x.NaN? || x.value == 0.0
  }

  /** `PlaceResult`, reduced to the fields the route reads; the rest travel along unread. */
  datatype PlaceResult = PlaceResult(id: string, displayName: string, formattedAddress: string,
                                     types: seq<string>)

  /** One review of a place; `text` stands for `r.text?.text`. */
  datatype Review = Review(text: Option<string>)

  /** The object `getPlaceDetails` returns, reduced to its `reviews`. */
  datatype PlaceDetails = PlaceDetails(reviews: Option<seq<Review>>)
}
