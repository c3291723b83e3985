/**
 * The persistent entities of the trading bot (backend/app/models/models.py):
 * the two enumerations and one record type per table, with the column
 * defaults the database fills in when a row is created without them.
 * Surrogate keys and `created_at`/`updated_at` columns that nothing reads are
 * omitted; timestamps are whole seconds on the server clock.
 */
module Models {
  import opened Wrappers

  /** `TradeAction`: the only two things a trade can do (there is no short sale). */
  datatype TradeAction = BUY | SELL

  /** `RiskTolerance` */
  datatype RiskTolerance = LOW | MEDIUM | HIGH

  /** The string stored for a trade action (`TradeAction.X.value`). */
  function TradeActionValue(a: TradeAction): string {
    match a
    case BUY => "BUY"
    case SELL => "SELL"
  }

  /** `TradeAction(s)` / `TradeActionEnum(s)`: only the two exact member values convert. */
  function ParseTradeAction(s: string): (r: Option<TradeAction>)
    ensures r.Some? <==> (s == "BUY" || s == "SELL")
    ensures r.Some? ==> TradeActionValue(r.value) == s
  {
    if s == "BUY" then Some(BUY) else if s == "SELL" then Some(SELL) else None
  }

  function RiskToleranceValue(r: RiskTolerance): string {
    match r
    case LOW => "LOW"
    case MEDIUM => "MEDIUM"
    case HIGH => "HIGH"
  }

  /** `RiskTolerance(s)`: only the three exact member values convert. */
  function ParseRiskTolerance(s: string): (r: Option<RiskTolerance>)
    ensures r.Some? <==> (s == "LOW" || s == "MEDIUM" || s == "HIGH")
    ensures r.Some? ==> RiskToleranceValue(r.value) == s
  {
    if s == "LOW" then Some(LOW)
    else if s == "MEDIUM" then Some(MEDIUM)
    else if s == "HIGH" then Some(HIGH)
    else None
  }

  /** Every action value converts back to the action it came from. */
  lemma TradeActionRoundTrip(a: TradeAction)
    ensures ParseTradeAction(TradeActionValue(a)) == Some(a)
  {
  }

  /** Every risk-tolerance value converts back to the level it came from. */
  lemma RiskToleranceRoundTrip(r: RiskTolerance)
    ensures ParseRiskTolerance(RiskToleranceValue(r)) == Some(r)
  {
  }

  /** A `users` row. */
  datatype User = User(
    id: nat,
    email: string,
    name: string,
    googleId: string,
    picture: Option<string>,
    isActive: bool,
    updatedAt: int)

  /** A `portfolio` row (its owner is kept by the table that stores it). */
  datatype Portfolio = Portfolio(cashBalance: real, totalValue: real)

  /** Default of both money columns of a new portfolio row. */
  const PORTFOLIO_DEFAULT_BALANCE: real := 20.00

  /** A `holdings` row: one open position in one symbol. */
  datatype Holding = Holding(symbol: string, quantity: int, averageCost: real, currentPrice: real)

  /** A `trades` row; `aiReasoning` is nullable. */
  datatype Trade = Trade(
    symbol: string,
    action: TradeAction,
    quantity: int,
    price: real,
    totalAmount: real,
    aiReasoning: Option<string>,
    executedAt: int)

  /** A `bot_config` row. */
  datatype BotConfig = BotConfig(
    maxDailyTrades: int,
    maxPositionSize: real,
    riskTolerance: RiskTolerance,
    tradingHoursStart: string,
    tradingHoursEnd: string,
    isActive: bool,
    stopLossPercentage: real,
    takeProfitPercentage: real,
    minCashReserve: real)

  /** `BotConfig()` with every column left to its default. */
  function DefaultBotConfig(): BotConfig {
    BotConfig(
      maxDailyTrades := 5,
      maxPositionSize := 0.20,
      riskTolerance := MEDIUM,
      tradingHoursStart := "09:30",
      tradingHoursEnd := "16:00",
      isActive := false,
      stopLossPercentage := -0.10,
      takeProfitPercentage := 0.15,
      minCashReserve := 5.00)
  }

  /** A `trading_log` row; `level` is free text in the table. */
  datatype TradingLog = TradingLog(
    id: nat,
    level: string,
    message: string,
    symbol: Option<string>,
    tradeId: Option<int>,
    timestamp: int)

  /** An `activity_log` row. */
  datatype ActivityLog = ActivityLog(id: nat, action: string, details: string, timestamp: int)
}
