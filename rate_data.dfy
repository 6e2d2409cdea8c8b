/**
 * The decoded JSON documents that flow through the service: the body of an
 * upstream rate response, a cached copy of one, or the local fallback snapshot.
 * Only the members the service inspects are modelled.
 */
module RateData {
  import opened Wrappers

  /** The value stored under one date in "rates": a currency-keyed object,
      a bare number, or JSON null. A member `"USD": null` inside an object
      behaves exactly like a missing member and is represented as one. */
  datatype RateEntry =
    | Bundle(quotes: map<string, real>)
    | Number(value: real)
    | Null

  /** A decoded JSON object: its "rates" member when present, and the
      names of its other members ("amount", "base", "start_date", ...). */
  datatype JsonObject = JsonObject(rates: Option<map<string, RateEntry>>, otherKeys: set<string>)

  /** A response object as Python sees it: "rates" is listed once, in `rates`. */
  type Payload = o: JsonObject | "rates" !in o.otherKeys witness JsonObject(None, {})

  /** Python truthiness of a dict: truthy iff it has at least one member. */
  predicate Truthy(p: Payload)
    ensures !Truthy(p) <==> p == EmptyPayload
  {
    p.rates.Some? || p.otherKeys != {}
  }

  /** The empty object `{}`, the one falsy payload. */
  const EmptyPayload: Payload := JsonObject(None, {})
}
