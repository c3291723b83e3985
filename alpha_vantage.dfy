/**
 * The market-data client (backend/app/services/alpha_vantage_service.py):
 * the daily API-call budget, the timestamped response cache, the cached
 * stock-info lookup, and the clock-based market-hours rules.  Clocks are
 * parameters: `now` is seconds on the server clock, weekday/hour/minute are
 * the Eastern-time reading of it.
 */
module AlphaVantage {
  import opened Wrappers
  import opened Schemas

  // ---------------------------------------------------------------- the trending list

  /** `get_trending_stocks`: a fixed list of eight distinct symbols; no call is made. */
  function TrendingStocks(): (r: seq<string>)
    ensures |r| == 8
    ensures forall i, j :: 0 <= i < j < |r| ==> r[i] != r[j]
  {
    ["AAPL", "MSFT", "GOOGL", "AMZN", "TSLA", "META", "NVDA", "NFLX"]
  }

  // ---------------------------------------------------------------- the API-call budget

  /** Premium tier: 150 calls a minute for a whole day. */
  const DAILY_CALL_LIMIT := 216000
  /** Seconds between two calls (150 a minute). */
  const MIN_CALL_INTERVAL: real := 0.4
  const SECONDS_PER_DAY: real := 86400.0

  /**
   * The next midnight strictly after `t` (`replace(hour=0, …) + timedelta(days=1)`):
   * a whole number of days, and no midnight lies between `t` and it.
   */
  function NextMidnight(t: real): (r: real)
    ensures t < r <= t + SECONDS_PER_DAY
    ensures (r / SECONDS_PER_DAY).Floor as real * SECONDS_PER_DAY == r
  {
    var days := (t / SECONDS_PER_DAY).Floor + 1;
    assert days as real * SECONDS_PER_DAY / SECONDS_PER_DAY == days as real;
    days as real * SECONDS_PER_DAY
  }

  /** No midnight after `t` comes before `NextMidnight(t)`. */
  lemma NextMidnightIsFirst(t: real, day: int)
    requires t < day as real * SECONDS_PER_DAY
    ensures NextMidnight(t) <= day as real * SECONDS_PER_DAY
  {
    assert t / SECONDS_PER_DAY < day as real;
    assert (t / SECONDS_PER_DAY).Floor < day;
  }

  /** The counters `_wait_for_rate_limit` keeps. */
  datatype Limiter = Limiter(dailyCallCount: int, callResetTime: real, lastApiCall: real)

  /** How long `_wait_for_rate_limit` sleeps before going on. */
  function WaitTime(l: Limiter, now: real): (w: real)
    ensures w >= 0.0
    ensures w > 0.0 <==> now - l.lastApiCall < MIN_CALL_INTERVAL
    ensures now + w >= l.lastApiCall + MIN_CALL_INTERVAL
    ensures w > 0.0 ==> now + w == l.lastApiCall + MIN_CALL_INTERVAL
  {
    if now - l.lastApiCall < MIN_CALL_INTERVAL then MIN_CALL_INTERVAL - (now - l.lastApiCall) else 0.0
  }

  /** The outcome of one `_wait_for_rate_limit`: whether the call may go ahead, and the new counters. */
  datatype RateStep = RateStep(permitted: bool, waited: real, after: Limiter)

  /**
   * Sleep off the minimum interval, reset the count at the reset time, then
   * refuse at the daily limit or count the call; `last_api_call` records the
   * time read before the sleep.
   */
  function RateLimitStep(l: Limiter, now: real): RateStep {
    var waited := WaitTime(l, now);
    var clock := now + waited;
    var current := if clock >= l.callResetTime then l.(dailyCallCount := 0, callResetTime := NextMidnight(clock)) else l;
    if current.dailyCallCount >= DAILY_CALL_LIMIT then RateStep(false, waited, current)
    else RateStep(true, waited, current.(dailyCallCount := current.dailyCallCount + 1, lastApiCall := now))
  }

  predicate WithinBudget(l: Limiter) {
    0 <= l.dailyCallCount <= DAILY_CALL_LIMIT
  }

  /**
   * The count resets once the reset time has passed and the reset time moves
   * to the following midnight; a refused call changes nothing else; a
   * permitted one adds exactly one call and records `now`.
   */
  lemma RateLimitStepSpec(l: Limiter, now: real)
    ensures var s := RateLimitStep(l, now);
            var clock := now + s.waited;
            var reset := clock >= l.callResetTime;
            && s.waited == WaitTime(l, now)
            && (reset ==> s.after.callResetTime == NextMidnight(clock) && s.after.callResetTime > clock)
            && (!reset ==> s.after.callResetTime == l.callResetTime)
            && (s.permitted <==> (reset || l.dailyCallCount < DAILY_CALL_LIMIT))
            && (!s.permitted ==> s.after == l)
            && (s.permitted ==> s.after.lastApiCall == now
                                && s.after.dailyCallCount == (if reset then 0 else l.dailyCallCount) + 1)
  {
  }

  /** The budget is never exceeded, and a permitted call always finds room under it. */
  lemma RateLimitKeepsBudget(l: Limiter, now: real)
    requires WithinBudget(l)
    ensures WithinBudget(RateLimitStep(l, now).after)
    ensures RateLimitStep(l, now).permitted ==> RateLimitStep(l, now).after.dailyCallCount >= 1
  {
  }

  /** Once the budget is spent, every call before the reset time is refused. */
  lemma SpentBudgetRefuses(l: Limiter, now: real)
    requires l.dailyCallCount >= DAILY_CALL_LIMIT
    requires now + WaitTime(l, now) < l.callResetTime
    ensures !RateLimitStep(l, now).permitted
    ensures RateLimitStep(l, now).after == l
  {
  }

  // ---------------------------------------------------------------- the cache

  /** Real-time data stays fresh for five minutes, daily data for an hour. */
  const CACHE_DURATION: real := 300.0
  const DAILY_CACHE_DURATION: real := 3600.0

  const STOCK_INFO := "stock_info"
  const CURRENT_PRICE := "current_price"

  /** `_get_cache_key` */
  function CacheKey(symbol: string, dataType: string): (key: string)
    ensures |key| == |symbol| + 1 + |dataType|
    ensures key[..|symbol|] == symbol && key[|symbol|] == '_' && key[|symbol| + 1..] == dataType
  {
    symbol + "_" + dataType
  }

  /** Keys of one kind of data are distinct for distinct symbols. */
  lemma CacheKeyInjective(s1: string, s2: string, dataType: string)
    requires CacheKey(s1, dataType) == CacheKey(s2, dataType)
    ensures s1 == s2
  {
    var k := CacheKey(s1, dataType);
    assert |s1| == |s2|;
    assert s1 == k[..|s1|] == s2;
  }

  /** A stock-info key is never a current-price key, whatever the two symbols. */
  lemma CacheKindsApart(s1: string, s2: string)
    ensures CacheKey(s1, STOCK_INFO) != CacheKey(s2, CURRENT_PRICE)
  {
    var k1, k2 := CacheKey(s1, STOCK_INFO), CacheKey(s2, CURRENT_PRICE);
    assert k1[|k1| - 1] == STOCK_INFO[|STOCK_INFO| - 1];
    assert k2[|k2| - 1] == CURRENT_PRICE[|CURRENT_PRICE| - 1];
  }

  /** What the client caches. */
  datatype CachedValue = StockInfoData(info: StockInfo) | PriceData(price: real)

  /** A cache entry, read as a dict that may lack either key. */
  datatype CacheEntry = CacheEntry(data: Option<CachedValue>, timestamp: Option<real>)

  /** `_is_cache_valid`: a non-empty entry younger than `duration`, a missing timestamp reading as 0. */
  function IsCacheValid(entry: CacheEntry, now: real, duration: real): (valid: bool)
    ensures valid ==> entry != CacheEntry(None, None)
    ensures entry.timestamp.Some? && entry.data.Some? ==> (valid <==> now - entry.timestamp.value < duration)
  {
    if entry.data.None? && entry.timestamp.None? then false
    else now - entry.timestamp.GetOr(0.0) < duration
  }

  /** An entry written at `t` is valid for exactly `duration` seconds. */
  lemma FreshEntryValid(v: CachedValue, t: real, now: real, duration: real)
    ensures IsCacheValid(CacheEntry(Some(v), Some(t)), now, duration) <==> now < t + duration
  {
  }

  /** Without a timestamp an entry only looks fresh while the clock is below `duration`. */
  lemma MissingTimestampIsZero(v: CachedValue, now: real, duration: real)
    ensures IsCacheValid(CacheEntry(Some(v), None), now, duration) <==> now < duration
  {
  }

  /** `get_api_usage_stats` */
  datatype UsageStats = UsageStats(used: int, limit: int, remaining: int, resetTime: real, cacheEntries: nat)

  /**
   * The client's state: the response cache and the call counters.  Every
   * entry it writes carries data and a timestamp, a stock-info key holds
   * stock information and a price key holds a price.
   */
  class MarketDataClient {
    var cache: map<string, CacheEntry>
    var dailyCallCount: int
    var callResetTime: real
    var lastApiCall: real

    ghost predicate Valid()
      reads this
    {
      && WithinBudget(Limiter(dailyCallCount, callResetTime, lastApiCall))
      && (forall s :: CacheKey(s, STOCK_INFO) in cache ==>
            cache[CacheKey(s, STOCK_INFO)].data.Some? && cache[CacheKey(s, STOCK_INFO)].data.value.StockInfoData?)
      && (forall s :: CacheKey(s, CURRENT_PRICE) in cache ==>
            cache[CacheKey(s, CURRENT_PRICE)].data.Some? && cache[CacheKey(s, CURRENT_PRICE)].data.value.PriceData?)
    }

    function Counters(): Limiter
      reads this
    {
      Limiter(dailyCallCount, callResetTime, lastApiCall)
    }

    /** A new client: empty cache, no calls yet, reset due at the next midnight. */
    constructor (now: real)
      ensures Valid()
      ensures cache == map[] && dailyCallCount == 0 && lastApiCall == 0.0
      ensures callResetTime == NextMidnight(now)
    {
      cache := map[];
      dailyCallCount := 0;
      lastApiCall := 0.0;
      callResetTime := NextMidnight(now);
    }

    /** `_wait_for_rate_limit`: `permitted` false is the exception at the daily limit. */
    method WaitForRateLimit(now: real) returns (permitted: bool, waited: real)
      requires Valid()
      modifies this
      ensures Valid()
      ensures RateStep(permitted, waited, Counters()) == RateLimitStep(old(Counters()), now)
      ensures cache == old(cache)
    {
      waited := WaitTime(Counters(), now);
      var clock := now + waited;
      if clock >= callResetTime {
        dailyCallCount := 0;
        callResetTime := NextMidnight(clock);
      }
      if dailyCallCount >= DAILY_CALL_LIMIT {
        return false, waited;
      }
      lastApiCall := now;
      dailyCallCount := dailyCallCount + 1;
      permitted := true;
    }

    /** `_cache_data`: only `key` changes, to the data stamped with `now`. */
    method CacheData(key: string, data: CachedValue, now: real)
      requires Valid()
      requires forall s :: key == CacheKey(s, STOCK_INFO) ==> data.StockInfoData?
      requires forall s :: key == CacheKey(s, CURRENT_PRICE) ==> data.PriceData?
      modifies this
      ensures Valid()
      ensures cache == old(cache)[key := CacheEntry(Some(data), Some(now))]
      ensures Counters() == old(Counters())
    {
      cache := cache[key := CacheEntry(Some(data), Some(now))];
    }

    /**
     * `get_stock_info`: a fresh cached answer is returned without touching
     * the counters; otherwise the call is counted (or refused, giving
     * `None`), and a quote that came back is cached and returned.  `quote`
     * is what the API call produced, `None` for no data or an error.
     */
    method GetStockInfo(symbol: string, now: real, quote: Option<StockInfo>) returns (r: Option<StockInfo>)
      requires Valid()
      modifies this
      ensures Valid()
      ensures var key := CacheKey(symbol, STOCK_INFO);
              var hit := key in old(cache) && IsCacheValid(old(cache)[key], now, CACHE_DURATION);
              && (hit ==> r == Some(old(cache)[key].data.value.info) && unchanged(this))
              && (!hit ==>
                    var step := RateLimitStep(old(Counters()), now);
                    && Counters() == step.after
                    && (step.permitted && quote.Some? ==>
                          r == quote && cache == old(cache)[key := CacheEntry(Some(StockInfoData(quote.value)), Some(now + step.waited))])
                    && (!(step.permitted && quote.Some?) ==> r.None? && cache == old(cache)))
    {
      var key := CacheKey(symbol, STOCK_INFO);
      if key in cache && IsCacheValid(cache[key], now, CACHE_DURATION) {
        return Some(cache[key].data.value.info);
      }
      var permitted, waited := WaitForRateLimit(now);
      if !permitted || quote.None? {
        return None;
      }
      forall s
        ensures key != CacheKey(s, CURRENT_PRICE)
      {
        CacheKindsApart(symbol, s);
      }
      CacheData(key, StockInfoData(quote.value), now + waited);
      r := quote;
    }

    /** `get_current_price`, cached under its own key in the same way. */
    method GetCurrentPrice(symbol: string, now: real, price: Option<real>) returns (r: Option<real>)
      requires Valid()
      modifies this
      ensures Valid()
      ensures var key := CacheKey(symbol, CURRENT_PRICE);
              var hit := key in old(cache) && IsCacheValid(old(cache)[key], now, CACHE_DURATION);
              && (hit ==> r == Some(old(cache)[key].data.value.price) && unchanged(this))
              && (!hit ==>
                    var step := RateLimitStep(old(Counters()), now);
                    && Counters() == step.after
                    && (step.permitted && price.Some? ==>
                          r == price && cache == old(cache)[key := CacheEntry(Some(PriceData(price.value)), Some(now + step.waited))])
                    && (!(step.permitted && price.Some?) ==> r.None? && cache == old(cache)))
    {
      var key := CacheKey(symbol, CURRENT_PRICE);
      if key in cache && IsCacheValid(cache[key], now, CACHE_DURATION) {
        return Some(cache[key].data.value.price);
      }
      var permitted, waited := WaitForRateLimit(now);
      if !permitted || price.None? {
        return None;
      }
      forall s
        ensures key != CacheKey(s, STOCK_INFO)
      {
        CacheKindsApart(s, symbol);
      }
      CacheData(key, PriceData(price.value), now + waited);
      r := price;
    }

    /**
     * `validate_symbol`: a symbol is valid when `get_current_price` finds a
     * price for it, cached or fetched.
     */
    method ValidateSymbol(symbol: string, now: real, price: Option<real>) returns (valid: bool)
      requires Valid()
      modifies this
      ensures Valid()
      ensures var key := CacheKey(symbol, CURRENT_PRICE);
              var hit := key in old(cache) && IsCacheValid(old(cache)[key], now, CACHE_DURATION);
              && (hit ==> valid && unchanged(this))
              && (!hit ==>
                    var step := RateLimitStep(old(Counters()), now);
                    && Counters() == step.after
                    && (valid <==> step.permitted && price.Some?))
    {
      var r := GetCurrentPrice(symbol, now, price);
      valid := r.Some?;
    }

    /** `get_api_usage_stats` */
    function GetApiUsageStats(): (stats: UsageStats)
      reads this
      requires Valid()
      ensures stats.used + stats.remaining == stats.limit == DAILY_CALL_LIMIT
      ensures 0 <= stats.remaining <= DAILY_CALL_LIMIT
      ensures stats.cacheEntries == |cache|
    {
      UsageStats(dailyCallCount, DAILY_CALL_LIMIT, DAILY_CALL_LIMIT - dailyCallCount, callResetTime, |cache|)
    }
  }

  // ---------------------------------------------------------------- market hours

  /** 9:30 and 16:00 in minutes after midnight. */
  const MARKET_OPEN_MINUTE := 570
  const MARKET_CLOSE_MINUTE := 960

  /** The `is_open` of `get_market_status`, weekday 0 being Monday. */
  function MarketIsOpen(weekday: int, hour: int, minute: int): (open: bool)
    ensures open ==> weekday < 5
  {
    weekday < 5 && MARKET_OPEN_MINUTE <= 60 * hour + minute < MARKET_CLOSE_MINUTE
  }

  /** On a clock reading the market is open from 9:30 up to, not including, 16:00. */
  lemma MarketHoursOnTheClock(weekday: int, hour: int, minute: int)
    requires 0 <= minute < 60
    ensures MarketIsOpen(weekday, hour, minute) <==>
              weekday < 5 && ((hour == 9 && minute >= 30) || 10 <= hour <= 15)
  {
  }

  /** Counting whole minutes decides exactly as the source's fractional hours `hour + minute / 60.0`. */
  lemma MarketHoursAsFraction(weekday: int, hour: int, minute: int)
    ensures MarketIsOpen(weekday, hour, minute) <==>
              weekday < 5 && 9.5 <= hour as real + minute as real / 60.0 < 16.0
  {
    var t := hour as real + minute as real / 60.0;
    assert t * 60.0 == (60 * hour + minute) as real;
  }

  /** The days from now to the next market open (`_get_next_market_open`), which is at 9:30. */
  function NextOpenOffset(weekday: int, hour: int): (days: int)
    ensures 0 <= days <= 3
  {
    if weekday == 4 && hour >= 16 then 3
    else if weekday == 5 then 2
    else if weekday == 6 then 1
    else if hour >= 16 then 1
    else 0
  }

  const NEXT_OPEN_HOUR := 9
  const NEXT_OPEN_MINUTE := 30

  /** The next open always falls on a weekday, and is today only on a weekday before 16:00. */
  lemma NextOpenIsWeekday(weekday: int, hour: int)
    requires 0 <= weekday < 7
    ensures (weekday + NextOpenOffset(weekday, hour)) % 7 < 5
    ensures NextOpenOffset(weekday, hour) == 0 <==> weekday < 5 && hour < 16
  {
  }

  /** The days passed over on the way to the next open are Saturday and Sunday only. */
  lemma NextOpenSkipsOnlyWeekends(weekday: int, hour: int)
    requires 0 <= weekday < 7
    ensures NextOpenOffset(weekday, hour) >= 2 ==>
              5 <= weekday + 1 && weekday + NextOpenOffset(weekday, hour) - 1 <= 6
  {
  }
}
