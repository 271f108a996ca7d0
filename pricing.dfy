/**
 * EUR-based pricing: a 24-hour cache of the USD->EUR exchange rate with a
 * fallback constant, the cost pipeline (USD cost, provider markup,
 * rebalancing fee, conversion to EUR) and the credit <-> EUR converter.
 *
 * Numbers are mathematical reals; JavaScript's `null` is `None`. The clock
 * (`Date.now()`) is the parameter `now`, in milliseconds, and the outcome of
 * the single HTTP fetch is the parameter `fetched`: `None` for a network or
 * parse failure or a body without a EUR rate, `Some(x)` for a EUR rate `x`.
 */
module Pricing {
  import opened Wrappers

  /** How long a cached rate is served, in milliseconds (24 hours). */
  const CACHE_DURATION: int := 24 * 60 * 60 * 1000

  /** Defaults used when the environment does not set the three constants. */
  const DEFAULT_PROVIDER_MARKUP: real := 0.15
  const DEFAULT_REBALANCING_FEE: real := 0.025
  const DEFAULT_FALLBACK_RATE: real := 0.92

  /** Provider prices are quoted per this many tokens. */
  const TOKENS_PER_PRICE: real := 1000000.0

  /** 1,000,000 credits are worth 1 EUR. */
  const CREDITS_PER_EUR: real := 1000000.0

  // ---------------------------------------------------------------------
  // Exchange-rate cache, as values
  // ---------------------------------------------------------------------

  /** The two cache fields of the service. */
  datatype RateCache = RateCache(exchangeRate: Option<real>, lastFetch: Option<int>)

  /** JavaScript truthiness of a nullable number: present and non-zero. */
  predicate Truthy(x: Option<real>) {
    x.Some? && x.value != 0.0
  }

  /** JavaScript truthiness of a nullable timestamp: present and non-zero. */
  predicate TruthyTime(t: Option<int>) {
    t.Some? && t.value != 0
  }

  /** The cache test: a truthy rate, a truthy timestamp, and less than one window old. */
  predicate IsFresh(c: RateCache, now: int) {
    Truthy(c.exchangeRate) && TruthyTime(c.lastFetch) && now - c.lastFetch.value < CACHE_DURATION
  }

  /** What one rate lookup leaves in the cache and returns. */
  datatype Lookup = Lookup(cache: RateCache, rate: real)

  /**
   * One rate lookup: serve a fresh cached rate; otherwise store and return
   * a truthy fetched rate, or else the fallback, stamped with `now`.
   */
  function GetRate(c: RateCache, now: int, fetched: Option<real>, fallback: real): (r: Lookup)
    ensures r.cache.exchangeRate == Some(r.rate)
    ensures r.cache == c || r.cache.lastFetch == Some(now)
  {
    if IsFresh(c, now) then Lookup(c, c.exchangeRate.value)
    else if Truthy(fetched) then Lookup(RateCache(fetched, Some(now)), fetched.value)
    else Lookup(RateCache(Some(fallback), Some(now)), fallback)
  }

  lemma CacheHit(c: RateCache, now: int, fetched: Option<real>, fallback: real)
    requires IsFresh(c, now)
    ensures GetRate(c, now, fetched, fallback) == Lookup(c, c.exchangeRate.value)
  {
  }

  lemma SuccessfulRefresh(c: RateCache, now: int, rate: real, fallback: real)
    requires !IsFresh(c, now) && rate != 0.0
    ensures GetRate(c, now, Some(rate), fallback) == Lookup(RateCache(Some(rate), Some(now)), rate)
  {
  }

  lemma FallbackOnFailure(c: RateCache, now: int, fetched: Option<real>, fallback: real)
    requires !IsFresh(c, now)
    requires fetched == None || fetched == Some(0.0)
    ensures GetRate(c, now, fetched, fallback) == Lookup(RateCache(Some(fallback), Some(now)), fallback)
  {
  }

  /**
   * The validity test is truthiness only: a negative fetched rate is stored
   * and served, and then makes every positive cost negative.
   */
  lemma NegativeFetchedRateIsAccepted(c: RateCache, now: int, rate: real, fallback: real,
                                      tokens: real, rateUSD: real, markup: real, fee: real)
    requires !IsFresh(c, now) && rate < 0.0
    requires tokens > 0.0 && rateUSD > 0.0 && markup >= 0.0 && fee >= 0.0
    ensures GetRate(c, now, Some(rate), fallback).rate == rate
    ensures Cost(tokens, rateUSD, markup, fee, rate).costEUR < 0.0
  {
  }

  /** A stored rate of 0 is never served: the cache misses and behaves exactly like an empty one. */
  lemma ZeroRateIsNeverServed(t: Option<int>, now: int, fetched: Option<real>, fallback: real)
    ensures !IsFresh(RateCache(Some(0.0), t), now)
    ensures GetRate(RateCache(Some(0.0), t), now, fetched, fallback)
         == GetRate(RateCache(None, None), now, fetched, fallback)
  {
  }

  /**
   * After any lookup at a non-zero time, the cache is fresh at that time,
   * as long as the fallback is not zero: a failed fetch also fills the cache.
   */
  lemma LookupLeavesCacheFresh(c: RateCache, now: int, fetched: Option<real>, fallback: real)
    requires now != 0 && fallback != 0.0
    ensures IsFresh(GetRate(c, now, fetched, fallback).cache, now)
  {
  }

  /**
   * Two lookups within the window of the first one's stamp return the same
   * rate, and the second does not fetch (whatever its fetch would give).
   */
  lemma BackToBackLookupsAgree(c: RateCache, now1: int, fetched1: Option<real>,
                               now2: int, fetched2: Option<real>, fallback: real)
    requires now1 != 0 && fallback != 0.0
    requires now2 - GetRate(c, now1, fetched1, fallback).cache.lastFetch.value < CACHE_DURATION
    ensures var first := GetRate(c, now1, fetched1, fallback);
            GetRate(first.cache, now2, fetched2, fallback) == first
  {
    LookupLeavesCacheFresh(c, now1, fetched1, fallback);
  }

  /** One `getExchangeRate` call: the time and the outcome its fetch would have. */
  datatype RateCall = RateCall(now: int, fetched: Option<real>)

  /** The cache after a series of calls, and the rate each call returned. */
  datatype Replayed = Replayed(cache: RateCache, rates: seq<real>)

  /** Runs `calls` one after the other, starting from cache `c`. */
  function Replay(c: RateCache, calls: seq<RateCall>, fallback: real): (r: Replayed)
    ensures |r.rates| == |calls|
    ensures calls != [] ==> r.rates[0] == GetRate(c, calls[0].now, calls[0].fetched, fallback).rate
    ensures calls == [] ==> r.cache == c
    ensures calls != [] ==> r.cache.exchangeRate == Some(r.rates[|calls| - 1])
    decreases |calls|
  {
    if calls == [] then Replayed(c, [])
    else
      var first := GetRate(c, calls[0].now, calls[0].fetched, fallback);
      var rest := Replay(first.cache, calls[1..], fallback);
      Replayed(rest.cache, [first.rate] + rest.rates)
  }

  /**
   * Each call of a run answers from the cache left by the calls before it,
   * and the run ends with the cache left by its last call.
   */
  lemma {:induction false} ReplayAnswersEachCall(c: RateCache, calls: seq<RateCall>, fallback: real)
    ensures forall i :: 0 <= i < |calls| ==>
      Replay(c, calls, fallback).rates[i]
      == GetRate(Replay(c, calls[..i], fallback).cache, calls[i].now, calls[i].fetched, fallback).rate
    ensures calls != [] ==>
      var last := calls[|calls| - 1];
      Replay(c, calls, fallback).cache
      == GetRate(Replay(c, calls[..|calls| - 1], fallback).cache, last.now, last.fetched, fallback).cache
    decreases |calls|
  {
    if calls != [] {
      var first := GetRate(c, calls[0].now, calls[0].fetched, fallback);
      var rest := calls[1..];
      ReplayAnswersEachCall(first.cache, rest, fallback);
      forall i | 0 <= i < |calls|
        ensures Replay(c, calls, fallback).rates[i]
             == GetRate(Replay(c, calls[..i], fallback).cache, calls[i].now, calls[i].fetched, fallback).rate
      {
        if i > 0 {
          assert calls[..i][1..] == rest[..i - 1];
          assert calls[i] == rest[i - 1];
        }
      }
      if |calls| > 1 {
        assert calls[..|calls| - 1][1..] == rest[..|rest| - 1];
      }
    }
  }

  /**
   * A cache holding a truthy rate with a truthy stamp answers every call made
   * less than one window after the stamp with that rate, whatever the fetches
   * would have returned, and is left as it was.
   */
  lemma {:induction false} FreshCacheServesEveryCall(c: RateCache, calls: seq<RateCall>, fallback: real)
    requires Truthy(c.exchangeRate) && TruthyTime(c.lastFetch)
    requires forall i :: 0 <= i < |calls| ==> calls[i].now - c.lastFetch.value < CACHE_DURATION
    ensures Replay(c, calls, fallback).cache == c
    ensures forall i :: 0 <= i < |calls| ==> Replay(c, calls, fallback).rates[i] == c.exchangeRate.value
  {
    if calls != [] {
      var rest := calls[1..];
      assert forall i :: 0 <= i < |rest| ==> rest[i] == calls[i + 1];
      FreshCacheServesEveryCall(c, rest, fallback);
      var r := Replay(c, calls, fallback);
      assert r.rates == [c.exchangeRate.value] + Replay(c, rest, fallback).rates;
    }
  }

  /**
   * `setExchangeRate(rate)` at a non-zero time `setAt` fixes the answer of
   * every later call within the window to exactly `rate`.
   */
  lemma SetRateServesWindow(rate: real, setAt: int, calls: seq<RateCall>, fallback: real)
    requires rate != 0.0 && setAt != 0
    requires forall i :: 0 <= i < |calls| ==> calls[i].now - setAt < CACHE_DURATION
    ensures forall i :: 0 <= i < |calls| ==> Replay(RateCache(Some(rate), Some(setAt)), calls, fallback).rates[i] == rate
  {
    FreshCacheServesEveryCall(RateCache(Some(rate), Some(setAt)), calls, fallback);
  }

  // ---------------------------------------------------------------------
  // Cost pipeline
  // ---------------------------------------------------------------------

  /** The result of a cost calculation, as stored with each transaction. */
  datatype CostBreakdown = CostBreakdown(
    costUSD: real,
    costEUR: real,
    exchangeRate: real,
    providerMarkup: real,
    rebalancingFee: real)

  /**
   * The pipeline: the provider's USD cost for `tokens` at `rateUSD` per
   * million tokens, raised by the markup, then by the fee, then converted
   * at `rate`. The breakdown carries everything needed to redo the
   * computation.
   */
  function Cost(tokens: real, rateUSD: real, markup: real, fee: real, rate: real): (b: CostBreakdown)
    ensures b.exchangeRate == rate && b.providerMarkup == markup && b.rebalancingFee == fee
    ensures b.costUSD * TOKENS_PER_PRICE == tokens * rateUSD
    ensures b.costEUR == b.costUSD * (1.0 + b.providerMarkup) * (1.0 + b.rebalancingFee) * b.exchangeRate
  {
    var costUSD := (tokens / TOKENS_PER_PRICE) * rateUSD;
    var costWithMarkup := costUSD * (1.0 + markup);
    var costWithFees := costWithMarkup * (1.0 + fee);
    CostBreakdown(costUSD, costWithFees * rate, rate, markup, fee)
  }

  /** The billable amount in one formula. */
  lemma CostEURClosedForm(tokens: real, rateUSD: real, markup: real, fee: real, rate: real)
    ensures Cost(tokens, rateUSD, markup, fee, rate).costEUR
         == tokens * rateUSD * (1.0 + markup) * (1.0 + fee) * rate / TOKENS_PER_PRICE
  {
  }

  /** 1,000,000 tokens at 10 USD per million, with the default constants and a rate of 0.92. */
  lemma CostExample()
    ensures Cost(1000000.0, 10.0, DEFAULT_PROVIDER_MARKUP, DEFAULT_REBALANCING_FEE, 0.92)
         == CostBreakdown(10.0, 10.8445, 0.92, 0.15, 0.025)
  {
  }

  /** No tokens cost nothing, and the constants in effect are still recorded. */
  lemma CostOfNoTokens(rateUSD: real, markup: real, fee: real, rate: real)
    ensures Cost(0.0, rateUSD, markup, fee, rate) == CostBreakdown(0.0, 0.0, rate, markup, fee)
  {
  }

  /** Billing two batches of tokens separately costs the same as billing them together. */
  lemma CostIsAdditive(tokens1: real, tokens2: real, rateUSD: real, markup: real, fee: real, rate: real)
    ensures Cost(tokens1 + tokens2, rateUSD, markup, fee, rate).costUSD
         == Cost(tokens1, rateUSD, markup, fee, rate).costUSD + Cost(tokens2, rateUSD, markup, fee, rate).costUSD
    ensures Cost(tokens1 + tokens2, rateUSD, markup, fee, rate).costEUR
         == Cost(tokens1, rateUSD, markup, fee, rate).costEUR + Cost(tokens2, rateUSD, markup, fee, rate).costEUR
  {
  }

  /** With non-negative inputs and constants, no cost is negative. */
  lemma CostIsNonNegative(tokens: real, rateUSD: real, markup: real, fee: real, rate: real)
    requires tokens >= 0.0 && rateUSD >= 0.0 && markup >= 0.0 && fee >= 0.0 && rate >= 0.0
    ensures Cost(tokens, rateUSD, markup, fee, rate).costUSD >= 0.0
    ensures Cost(tokens, rateUSD, markup, fee, rate).costEUR >= 0.0
  {
  }

  // ---------------------------------------------------------------------
  // Credit converter
  // ---------------------------------------------------------------------

  function EurToTokenCredits(costEUR: real): (credits: real)
    ensures credits / CREDITS_PER_EUR == costEUR
    ensures credits >= 0.0 <==> costEUR >= 0.0
  {
    costEUR * CREDITS_PER_EUR
  }

  function TokenCreditsToEur(credits: real): (eur: real)
    ensures eur * CREDITS_PER_EUR == credits
    ensures eur >= 0.0 <==> credits >= 0.0
  {
    credits / CREDITS_PER_EUR
  }

  lemma CreditsRoundTripFromEur(eur: real)
    ensures TokenCreditsToEur(EurToTokenCredits(eur)) == eur
  {
  }

  lemma CreditsRoundTripFromCredits(credits: real)
    ensures EurToTokenCredits(TokenCreditsToEur(credits)) == credits
  {
  }

  lemma CreditsExample()
    ensures TokenCreditsToEur(2500000.0) == 2.5
    ensures EurToTokenCredits(2.5) == 2500000.0
  {
  }

  // ---------------------------------------------------------------------
  // The service object
  // ---------------------------------------------------------------------

  /** What `getConfig` reports. `lastFetch` is shown only when truthy. */
  datatype ConfigSnapshot = ConfigSnapshot(
    providerMarkup: real,
    rebalancingFee: real,
    exchangeRate: Option<real>,
    fallbackRate: real,
    lastFetch: Option<int>)

  class PricingService {
    const PROVIDER_MARKUP: real
    const REBALANCING_FEE: real
    const FALLBACK_RATE: real
    var exchangeRate: Option<real>
    var lastFetch: Option<int>

    /** Starts with an empty cache; the three constants are already parsed. */
    constructor (providerMarkup: real, rebalancingFee: real, fallbackRate: real)
      ensures PROVIDER_MARKUP == providerMarkup && REBALANCING_FEE == rebalancingFee
      ensures FALLBACK_RATE == fallbackRate
      ensures exchangeRate == None && lastFetch == None
    {
      exchangeRate := None;
      lastFetch := None;
      PROVIDER_MARKUP := providerMarkup;
      REBALANCING_FEE := rebalancingFee;
      FALLBACK_RATE := fallbackRate;
    }

    /** The cache fields as a value. */
    function Cache(): RateCache
      reads this
    {
      RateCache(exchangeRate, lastFetch)
    }

    method GetExchangeRate(now: int, fetched: Option<real>) returns (rate: real)
      modifies this
      ensures Lookup(Cache(), rate) == GetRate(old(Cache()), now, fetched, FALLBACK_RATE)
    {
      if exchangeRate.Some? && exchangeRate.value != 0.0
         && lastFetch.Some? && lastFetch.value != 0
         && now - lastFetch.value < CACHE_DURATION
      {
        return exchangeRate.value;
      }
      if fetched.Some? && fetched.value != 0.0 {
        exchangeRate := fetched;
        lastFetch := Some(now);
        return exchangeRate.value;
      }
      exchangeRate := Some(FALLBACK_RATE);
      lastFetch := Some(now);
      rate := FALLBACK_RATE;
    }

    method CalculateCost(tokens: real, rateUSD: real, now: int, fetched: Option<real>) returns (b: CostBreakdown)
      modifies this
      ensures Lookup(Cache(), b.exchangeRate) == GetRate(old(Cache()), now, fetched, FALLBACK_RATE)
      ensures b == Cost(tokens, rateUSD, PROVIDER_MARKUP, REBALANCING_FEE, b.exchangeRate)
    {
      var costUSD := (tokens / TOKENS_PER_PRICE) * rateUSD;
      var rate := GetExchangeRate(now, fetched);
      var costWithMarkup := costUSD * (1.0 + PROVIDER_MARKUP);
      var costWithFees := costWithMarkup * (1.0 + REBALANCING_FEE);
      var costEUR := costWithFees * rate;
      b := CostBreakdown(costUSD, costEUR, rate, PROVIDER_MARKUP, REBALANCING_FEE);
    }

    method SetExchangeRate(rate: real, now: int)
      modifies this
      ensures Cache() == RateCache(Some(rate), Some(now))
    {
      exchangeRate := Some(rate);
      lastFetch := Some(now);
    }

    function GetConfig(): (c: ConfigSnapshot)
      reads this
      ensures c.providerMarkup == PROVIDER_MARKUP && c.rebalancingFee == REBALANCING_FEE
      ensures c.fallbackRate == FALLBACK_RATE && c.exchangeRate == exchangeRate
      ensures c.lastFetch.Some? <==> TruthyTime(lastFetch)
      ensures c.lastFetch.Some? ==> c.lastFetch == lastFetch
    {
      ConfigSnapshot(PROVIDER_MARKUP, REBALANCING_FEE, exchangeRate, FALLBACK_RATE,
                     if TruthyTime(lastFetch) then lastFetch else None)
    }
  }
}
