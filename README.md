# Pricing service and custom endpoint loader

This project is a Dafny model of two parts of a chat application's backend.

**`PricingService`** (module `Pricing`, file `pricing.dfy`) turns token usage into a cost in USD and EUR.
- **Rate cache.** It holds the USD→EUR exchange rate and the time it was stored. A stored rate is served for 24 hours. After that, one fetch is attempted. A truthy EUR rate from the fetch is stored. Otherwise the fallback rate is stored, stamped with the current time.
- **Cost pipeline.** The USD cost is `tokens / 1,000,000 * rateUSD`. The provider markup is applied, then the rebalancing fee, then the conversion to EUR. The result is a breakdown that records the markup, the fee and the rate that were used.
- **Credit converter.** 1,000,000 credits are worth 1 EUR.

The cache is a class, `PricingService`, with its two fields. Each of its methods is proved against a pure function on a `RateCache` value (`GetRate`, `Cost`). The lemmas about those functions state what the service promises.

**`loadCustomEndpointsConfig`** (module `CustomEndpoints`, file `custom_endpoints.dfy`) reads the configured custom endpoints.
- It keeps the entries that carry every required field.
- It resolves each entry's API key and base URL.
- It skips entries whose key is empty or left to the user.
- It builds a map from the normalized endpoint name to the endpoint's configuration. A later endpoint with the same name overwrites an earlier one.

The method `LoadCustomEndpointsConfig` mirrors the source: a filter, then an index loop with a `continue`. It is proved equal to the function `LoadConfig`. The lemmas describe that function's map in terms of the original list: which keys it holds, where each entry comes from, which endpoint wins, and which endpoints are ignored.

How the model represents the source:
- JavaScript numbers are reals.
- `null` and `undefined` are `None` in an `Option`.
- JavaScript truthiness is written out. A number or timestamp is truthy when it is present and non-zero. A string is truthy when it is present and non-empty. A `models.default` array is truthy whenever it is present, even when it is empty.
- The clock is the parameter `now`, in milliseconds.
- The single HTTP fetch is the parameter `fetched`. `None` stands for a network error, a body that does not parse, or a body without a EUR rate. `Some(x)` stands for a EUR rate `x`.
- The library helpers `extractEnvVariable`, `isUserProvided` and `normalizeEndpointName` are function-valued parameters (`Helpers`). Every property holds whatever they compute.

Edge cases of the code that the model keeps:
- The test `data.rates?.EUR` (`PricingService.js:53`) rejects only a missing rate or 0. A negative rate is stored and served, and costs come out negative (`NegativeFetchedRateIsAccepted`).
- The cache holds whatever number it is given: `setExchangeRate` stores any rate, positive or not. The cache test (`PricingService.js:43`) treats a stored 0 as a miss, so a 0 behaves exactly like an empty cache (`ZeroRateIsNeverServed`).
- The cache test also requires a truthy timestamp. A value stored at time 0 is therefore never served. The lemmas about serving from the cache assume a non-zero time.

## Model

| member | source | states |
|---|---|---|
| `Pricing.GetRate` | api/server/services/PricingService.js:41-74 | After every lookup, the stored rate equals the rate returned. The cache is either left as it was (a hit) or stamped with `now` (a miss). |
| `Pricing.CacheHit` | api/server/services/PricingService.js:43-46 | A truthy rate with a truthy stamp less than 24 h old is returned, and the cache is unchanged, whatever the fetch would give. |
| `Pricing.SuccessfulRefresh` | api/server/services/PricingService.js:53-61 | On a miss, a non-zero fetched EUR rate is stored with `now` and returned. |
| `Pricing.FallbackOnFailure` | api/server/services/PricingService.js:64-73 | On a miss with a failed fetch, a missing rate or a rate of 0, the fallback is stored with `now` and returned. No error escapes, because the lookup is total. |
| `Pricing.NegativeFetchedRateIsAccepted` | api/server/services/PricingService.js:53-54 | A negative fetched rate passes the truthiness test and is returned, and it makes the EUR cost of any positive usage negative. |
| `Pricing.ZeroRateIsNeverServed` | api/server/services/PricingService.js:43 | A stored rate of 0 is never fresh. A lookup on it gives exactly what a lookup on an empty cache gives: the same rate returned and the same fields stored. |
| `Pricing.LookupLeavesCacheFresh` | api/server/services/PricingService.js:43-73 | With a non-zero fallback and a non-zero `now`, every lookup leaves a cache that is fresh at `now`. Even a failed fetch fills the cache for a full window. |
| `Pricing.BackToBackLookupsAgree` | api/server/services/PricingService.js:43-73 | A second lookup within the window of the first one's stamp returns the same rate and leaves the cache unchanged, so no second fetch happens. |
| `Pricing.Replay` | api/server/services/PricingService.js:41-74 | A run of sequential lookups yields one rate per call. The first rate is the first lookup's answer. The cache after a non-empty run holds the rate the last call returned, and an empty run leaves the cache as it was. |
| `Pricing.ReplayAnswersEachCall` | api/server/services/PricingService.js:41-74 | Each call in a run answers exactly as one lookup on the cache left by the calls before it. The run ends with the cache that its last lookup leaves. |
| `Pricing.FreshCacheServesEveryCall` | api/server/services/PricingService.js:43-46 | A cache with a truthy rate and stamp answers every call made within 24 h of the stamp with that rate, and stays unchanged, whatever the fetches would return. |
| `Pricing.SetRateServesWindow` | api/server/services/PricingService.js:160-164 | After `setExchangeRate(r)` with r ≠ 0 at a non-zero time, every lookup within the window returns exactly r, even when fetches fail. |
| `Pricing.Cost` | api/server/services/PricingService.js:93-130 | The breakdown records the markup, the fee and the rate verbatim. `costUSD` is tokens × rateUSD per million tokens. `costEUR` can be recomputed from the breakdown's own fields. |
| `Pricing.CostEURClosedForm` | api/server/services/PricingService.js:95-107 | costEUR = tokens × rateUSD × (1 + markup) × (1 + fee) × rate / 1,000,000. |
| `Pricing.CostExample` | api/server/services/PricingService.js:95-107 | 1,000,000 tokens at 10 USD with markup 0.15, fee 0.025 and rate 0.92 cost 10 USD and 10.8445 EUR. |
| `Pricing.CostOfNoTokens` | api/server/services/PricingService.js:95-130 | Zero tokens give costUSD = costEUR = 0. The markup, fee and rate are still recorded. |
| `Pricing.CostIsAdditive` | api/server/services/PricingService.js:95-107 | Billing two batches of tokens separately gives the same USD and EUR totals as billing them together. |
| `Pricing.CostIsNonNegative` | api/server/services/PricingService.js:95-107 | With non-negative tokens, price, markup, fee and rate, neither cost is negative. |
| `Pricing.EurToTokenCredits` | api/server/services/PricingService.js:140-142 | The credits, divided by 1,000,000, give back the EUR amount, and they have the amount's sign. Its partner is `TokenCreditsToEur`, through the round-trip lemmas below. |
| `Pricing.TokenCreditsToEur` | api/server/services/PricingService.js:151-153 | The EUR amount, times 1,000,000, gives back the credits, and it has their sign. Its partner is `EurToTokenCredits`, through the round-trip lemmas below. |
| `Pricing.CreditsRoundTripFromEur` | api/server/services/PricingService.js:140-153 | Converting EUR to credits and back gives the original amount. |
| `Pricing.CreditsRoundTripFromCredits` | api/server/services/PricingService.js:140-153 | Converting credits to EUR and back gives the original number of credits. |
| `Pricing.CreditsExample` | api/server/services/PricingService.js:140-153 | 2,500,000 credits are 2.5 EUR, and 2.5 EUR are 2,500,000 credits. |
| `Pricing.PricingService.constructor` | api/server/services/PricingService.js:17-25 | The service starts with no rate and no stamp and keeps the three configured constants. |
| `Pricing.PricingService.GetExchangeRate` | api/server/services/PricingService.js:41-74 | The new fields and the returned rate are exactly what `GetRate` gives for the old fields. |
| `Pricing.PricingService.CalculateCost` | api/server/services/PricingService.js:93-131 | The call performs one rate lookup. The breakdown is `Cost` at the service's markup and fee and at the rate that lookup returned. |
| `Pricing.PricingService.SetExchangeRate` | api/server/services/PricingService.js:160-164 | Both fields are overwritten: the given rate, stamped with `now`. |
| `Pricing.PricingService.GetConfig` | api/server/services/PricingService.js:171-179 | The snapshot reports the constants and the current rate. It shows the stamp only when the stamp is truthy. |
| `CustomEndpoints.FilterEndpoints` | packages/api/src/endpoints/custom/config.ts:20-27 | An endpoint is kept if and only if it has a base URL, an API key, a name and models, with models either fetched or listed. |
| `CustomEndpoints.LoadConfig` | packages/api/src/endpoints/custom/config.ts:10-75 | The result is absent exactly when the input is absent. A non-array input gives an empty map. |
| `CustomEndpoints.LoadCustomEndpointsConfig` | packages/api/src/endpoints/custom/config.ts:10-75 | The filter and the index loop, with its skip path, compute exactly `LoadConfig`. |
| `CustomEndpoints.LoadSnoc` | packages/api/src/endpoints/custom/config.ts:29-71 | Appending an endpoint sets its name's entry when the endpoint is accepted, and otherwise leaves the map as it was. |
| `CustomEndpoints.Insert` | packages/api/src/endpoints/custom/config.ts:41-70 | One loop iteration. An endpoint with a valid key sets its normalized name to its entry. An endpoint without one leaves the map unchanged. Every other name keeps its presence and its entry. |
| `CustomEndpoints.BuildConfig` | packages/api/src/endpoints/custom/config.ts:29-71 | The loop keeps this invariant: every entry built so far has type custom and `userProvide = false`. |
| `CustomEndpoints.Load` | packages/api/src/endpoints/custom/config.ts:20-71 | After the filter and the loop, every entry has type custom and `userProvide = false`, because the guard at line 47 admits only admin keys. |
| `CustomEndpoints.LoadedKeys` | packages/api/src/endpoints/custom/config.ts:20-71 | The map's keys are exactly the normalized names of the endpoints that pass the filter and have a non-empty key that is not user-provided. |
| `CustomEndpoints.LoadedEntryProvenance` | packages/api/src/endpoints/custom/config.ts:39-70 | Each entry was built from an accepted endpoint of that name. Its `userProvideURL` is `isUserProvided` of that endpoint's resolved base URL. Its custom parameters, label and icon are that endpoint's own. |
| `CustomEndpoints.LastAcceptedWins` | packages/api/src/endpoints/custom/config.ts:29-71 | Among accepted endpoints that normalize to the same name, the last one in input order gives the entry. |
| `CustomEndpoints.RejectedEndpointIsIgnored` | packages/api/src/endpoints/custom/config.ts:20-61 | Removing an endpoint that fails the filter or the key check does not change the map. |

## Left out

- The HTTP fetch and the JSON parsing are not modelled. Their outcome is the input `fetched`.
- `Date.now()` is not modelled. The time is the input `now`.
- The environment parsing of the three constants is not modelled. The constructor takes the parsed numbers, and the defaults are the constants `DEFAULT_*`. A value that parses to NaN is not modelled.
- IEEE-754 rounding is not modelled: arithmetic is on reals, so the example values hold exactly. NaN and the infinities are not modelled either.
- Logging, `toFixed` formatting, and the ISO string that `getConfig` makes of the stamp are not modelled. The snapshot carries the stamp itself.
- The `provider` and `model` arguments of `calculateCost` are left out. They only label log lines.
- Interleaving of concurrent asynchronous `getExchangeRate` calls is not modelled. Calls are sequential (`Replay`).
- The module-level singleton export is not modelled. The model constructs the service explicitly.
- `extractEnvVariable`, `isUserProvided` and `normalizeEndpointName` are not modelled. They are uninterpreted parameters.
- The structure of the custom parameters is not modelled. The loader only copies them, and `CustomParams` is a stand-in.
- `CustomEndpoints.Key`: on an endpoint without a name it normalizes the empty string. This case never arises, because the filter admits only named endpoints.
- The clock is read once per lookup in the model, but the source reads it twice: once for the freshness test and again, after the awaited fetch, for the stamp. Using one `now` for both is sound for a clock that does not go backwards: a miss at the time of the test is still a miss at the later stamp time.
- The order of keys in the loaded configuration is not modelled. The source builds a plain JavaScript object, so its keys come in insertion order, with integer-like names first, and an overwrite keeps the earlier position. The model's result is a map with no order.
- An endpoint whose name normalizes to `__proto__` is not modelled. In the source, the assignment sets the object's prototype instead of adding a key. The model adds it as an ordinary key.
- The balance controller, the transaction and balance schemas, and the balance display component are not part of this model. They are request handling, storage declarations and formatting around this core.
