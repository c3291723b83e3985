/**
 * Request and response shapes (backend/app/models/schemas.py) and the field
 * constraints the validation layer enforces on them before any handler runs.
 */
module Schemas {
  import opened Wrappers
  import opened Text
  import opened Models

  // ---------------------------------------------------------------- HH:MM

  /** The hour alternative `[0-1]?[0-9]|2[0-3]` of the trading-hours pattern. */
  predicate HourText(h: string) {
    || (|h| == 1 && IsDigit(h[0]))
    || (|h| == 2 && '0' <= h[0] <= '1' && IsDigit(h[1]))
    || (|h| == 2 && h[0] == '2' && '0' <= h[1] <= '3')
  }

  /** `s` matches `^([0-1]?[0-9]|2[0-3]):[0-5][0-9]$` (anchored at both ends). */
  predicate MatchesClock(s: string) {
    && |s| >= 4
    && s[|s| - 3] == ':'
    && '0' <= s[|s| - 2] <= '5'
    && IsDigit(s[|s| - 1])
    && HourText(s[..|s| - 3])
  }

  /** Hour and minute written in a matching string. */
  function ClockValue(s: string): (hm: (int, int))
    requires MatchesClock(s)
    ensures 0 <= hm.0 <= 23 && 0 <= hm.1 <= 59
  {
    var h := s[..|s| - 3];
    var m := s[|s| - 2..];
    TwoDigitValue(m);
    if |h| == 1 then OneDigitValue(h); (DigitsValue(h), DigitsValue(m))
    else TwoDigitValue(h); (DigitsValue(h), DigitsValue(m))
  }

  /** Zero-padded `HH:MM`. */
  function FormatClock(hour: int, minute: int): string
    requires 0 <= hour <= 23 && 0 <= minute <= 59
  {
    [DigitChar(hour / 10), DigitChar(hour % 10), ':', DigitChar(minute / 10), DigitChar(minute % 10)]
  }

  /** Every time of day, written zero-padded, is accepted and reads back as itself. */
  lemma FormatClockAccepted(hour: int, minute: int)
    requires 0 <= hour <= 23 && 0 <= minute <= 59
    ensures MatchesClock(FormatClock(hour, minute))
    ensures ClockValue(FormatClock(hour, minute)) == (hour, minute)
  {
    var s := FormatClock(hour, minute);
    assert s[..2] == [DigitChar(hour / 10), DigitChar(hour % 10)];
    assert s[..2][..1] == [DigitChar(hour / 10)];
    assert s[3..] == [DigitChar(minute / 10), DigitChar(minute % 10)];
    assert s[3..][..1] == [DigitChar(minute / 10)];
    TwoDigitValue(s[..2]);
    TwoDigitValue(s[3..]);
  }

  /** The boundary cases of the pattern. */
  lemma ClockPatternExamples()
    ensures MatchesClock("9:30") && MatchesClock("09:30") && MatchesClock("23:59")
    ensures MatchesClock("16:00") && MatchesClock("0:00")
    ensures !MatchesClock("24:00") && !MatchesClock("12:60") && !MatchesClock("123:00")
    ensures !MatchesClock("9:5") && !MatchesClock(":30")
  {
    assert "123:00"[..3] == "123";
    assert "24:00"[..2] == "24";
    assert "9:30"[..1] == "9";
    assert "09:30"[..2] == "09";
    assert "23:59"[..2] == "23";
    assert "16:00"[..2] == "16";
    assert "0:00"[..1] == "0";
  }

  // ---------------------------------------------------------------- BotConfigBase

  /** The field constraints of `BotConfigBase`. */
  predicate ValidBotConfig(c: BotConfig) {
    && 1 <= c.maxDailyTrades <= 50
    && 0.01 <= c.maxPositionSize <= 1.0
    && MatchesClock(c.tradingHoursStart)
    && MatchesClock(c.tradingHoursEnd)
    && -1.0 <= c.stopLossPercentage <= 0.0
    && 0.0 <= c.takeProfitPercentage <= 5.0
    && c.minCashReserve >= 0.0
  }

  /** The column defaults of a `bot_config` row satisfy the request constraints. */
  lemma DefaultBotConfigValid()
    ensures ValidBotConfig(DefaultBotConfig())
    ensures DefaultBotConfig().maxDailyTrades == 5 && DefaultBotConfig().maxPositionSize == 0.20
    ensures DefaultBotConfig().riskTolerance == MEDIUM && !DefaultBotConfig().isActive
  {
    assert "09:30"[..2] == "09";
    assert "16:00"[..2] == "16";
  }

  /**
   * `BotConfigUpdate` parsed with `exclude_unset=True`: a field is `Some` exactly
   * when the request body set it.
   */
  datatype ConfigPatch = ConfigPatch(
    maxDailyTrades: Option<int>,
    maxPositionSize: Option<real>,
    riskTolerance: Option<RiskTolerance>,
    tradingHoursStart: Option<string>,
    tradingHoursEnd: Option<string>,
    isActive: Option<bool>,
    stopLossPercentage: Option<real>,
    takeProfitPercentage: Option<real>,
    minCashReserve: Option<real>)

  /** Every field the request set passed its `BotConfigBase` constraint. */
  predicate ValidPatch(p: ConfigPatch) {
    && (p.maxDailyTrades.Some? ==> 1 <= p.maxDailyTrades.value <= 50)
    && (p.maxPositionSize.Some? ==> 0.01 <= p.maxPositionSize.value <= 1.0)
    && (p.tradingHoursStart.Some? ==> MatchesClock(p.tradingHoursStart.value))
    && (p.tradingHoursEnd.Some? ==> MatchesClock(p.tradingHoursEnd.value))
    && (p.stopLossPercentage.Some? ==> -1.0 <= p.stopLossPercentage.value <= 0.0)
    && (p.takeProfitPercentage.Some? ==> 0.0 <= p.takeProfitPercentage.value <= 5.0)
    && (p.minCashReserve.Some? ==> p.minCashReserve.value >= 0.0)
  }

  // ---------------------------------------------------------------- other shapes

  /** `max_length=10` on the symbol of `HoldingBase`, `TradeBase` and `TradeCreate`. */
  predicate ValidSymbol(s: string) {
    |s| <= 10
  }

  /** `StockInfo` (only the fields the core reads). */
  datatype StockInfo = StockInfo(symbol: string, currentPrice: real, changePercent: real, volume: int)

  /** `TradingDecision` */
  datatype TradingDecision = TradingDecision(
    action: TradeAction,
    symbol: string,
    quantity: int,
    confidence: int,
    reasoning: string,
    currentPrice: real)

  /** `confidence: int = Field(..., ge=1, le=10)` */
  predicate ValidConfidence(confidence: int) {
    1 <= confidence <= 10
  }

  /** `TradingIntervalConfig.interval_minutes: int = Field(..., ge=1, le=60)` */
  predicate ValidIntervalMinutes(minutes: int) {
    1 <= minutes <= 60
  }

  /** `PortfolioSummary` */
  datatype PortfolioSummary = PortfolioSummary(
    cashBalance: real,
    totalValue: real,
    totalInvested: real,
    totalReturn: real,
    returnPercentage: real,
    holdingsCount: nat)

  /** `TradingStats` */
  datatype TradingStats = TradingStats(
    totalTrades: nat,
    winningTrades: nat,
    losingTrades: nat,
    winRate: real,
    totalProfitLoss: real,
    averageTradeReturn: real,
    bestTrade: Option<real>,
    worstTrade: Option<real>)

  /** An `HTTPException`: a status code and its detail text. */
  datatype HttpError = HttpError(status: int, detail: string)

  /** What a handler produces: its response body, or the exception it raises. */
  datatype HttpResult<T> = Ok(value: T) | Fail(error: HttpError)

  /** `BotStatus` */
  datatype BotStatus = BotStatus(
    isActive: bool,
    isTradingHours: bool,
    tradesToday: nat,
    maxDailyTrades: int,
    cashAvailable: real,
    portfolioValue: real,
    lastTradeTime: Option<int>,
    continuousTrading: bool,
    tradingIntervalMinutes: int)
}
