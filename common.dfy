/**
 * Shared vocabulary of the rate proxy and the rate widget: an optional value,
 * the fixed list of display currencies, the pivot currency, and the shape of
 * a parsed JSON body as far as either side looks into it.
 */
module Common {

  datatype Option<+T> = None | Some(value: T)

  /** The display currencies, in display order (both source files declare this list). */
  const Currencies: seq<string> := ["USD", "EUR", "CHF", "AUD", "CAD"]

  /** The currency every output rate is quoted against. */
  const Pivot: string := "GBP"

  /** A rate table: currency code to rate, all against one implicit base. */
  type RateTable = map<string, real>

  /**
   * What `res.json()` yields, seen only through its `rates` member.
   * Unparsable: `res.json()` throws. JsonNull: the body is `null`, so reading
   * `data.rates` throws. Object(rates): any other value; `rates` is None when
   * the member is missing or is not an object of numbers.
   */
  datatype JsonBody = Unparsable | JsonNull | Object(rates: Option<RateTable>)

  lemma PivotIsNotDisplayed()
    ensures Pivot !in Currencies
  {
  }
}
