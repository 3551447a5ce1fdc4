/** What the two rate caches share: the rate itself, the time to live and the
    outcome of a fetch, which the model takes as an input. */
module Rates {

  /** An exchange rate as the provider's `rates` map gives it: a positive number. */
  type Rate = r: real | r > 0.0 witness 1.0

  /** Five minutes in milliseconds (content.js:3, archives/dist_v1.0.5/content.js:4). */
  const CacheDuration: int := 5 * 60 * 1000

  /** The rate used when no fetch succeeds and nothing is cached: `cachedExchangeRate || 1`. */
  const FallbackRate: Rate := 1.0

  /** How the `fetch` / `response.json()` pair ends: with the rate read from the
      response, or with an exception (network error, malformed body). */
  datatype FetchOutcome = Fetched(rate: Rate) | FetchFailed
}
