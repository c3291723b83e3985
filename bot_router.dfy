/**
 * The bot endpoints (backend/app/routers/bot.py): reading and patching the
 * single `bot_config` row, switching the bot on and off, the status report,
 * the interval setting, and the guarded analyse-and-execute endpoint.  The
 * AI's decision and the market status are inputs; the database is the
 * `BotRouter` object (the config row and the activity log) and a `Ledger`.
 */
module BotRouter {
  import opened Wrappers
  import opened Text
  import opened Models
  import opened Schemas
  import opened PortfolioService
  import AiService
  import opened TradingBotService

  // ---------------------------------------------------------------- partial update

  /** `setattr(config, field, value)` for every field the request set. */
  function ApplyPatch(c: BotConfig, p: ConfigPatch): BotConfig {
    BotConfig(
      p.maxDailyTrades.GetOr(c.maxDailyTrades),
      p.maxPositionSize.GetOr(c.maxPositionSize),
      p.riskTolerance.GetOr(c.riskTolerance),
      p.tradingHoursStart.GetOr(c.tradingHoursStart),
      p.tradingHoursEnd.GetOr(c.tradingHoursEnd),
      p.isActive.GetOr(c.isActive),
      p.stopLossPercentage.GetOr(c.stopLossPercentage),
      p.takeProfitPercentage.GetOr(c.takeProfitPercentage),
      p.minCashReserve.GetOr(c.minCashReserve))
  }

  /** The request that sets nothing. */
  const EMPTY_PATCH := ConfigPatch(None, None, None, None, None, None, None, None, None)

  /** Two requests applied in turn: the later one wins on every field both set. */
  function Then(p: ConfigPatch, q: ConfigPatch): ConfigPatch {
    ConfigPatch(
      if q.maxDailyTrades.Some? then q.maxDailyTrades else p.maxDailyTrades,
      if q.maxPositionSize.Some? then q.maxPositionSize else p.maxPositionSize,
      if q.riskTolerance.Some? then q.riskTolerance else p.riskTolerance,
      if q.tradingHoursStart.Some? then q.tradingHoursStart else p.tradingHoursStart,
      if q.tradingHoursEnd.Some? then q.tradingHoursEnd else p.tradingHoursEnd,
      if q.isActive.Some? then q.isActive else p.isActive,
      if q.stopLossPercentage.Some? then q.stopLossPercentage else p.stopLossPercentage,
      if q.takeProfitPercentage.Some? then q.takeProfitPercentage else p.takeProfitPercentage,
      if q.minCashReserve.Some? then q.minCashReserve else p.minCashReserve)
  }

  /** A field the request left unset keeps its stored value. */
  lemma PatchKeepsUnsetFields(c: BotConfig, p: ConfigPatch)
    ensures p.maxDailyTrades.None? ==> ApplyPatch(c, p).maxDailyTrades == c.maxDailyTrades
    ensures p.maxPositionSize.None? ==> ApplyPatch(c, p).maxPositionSize == c.maxPositionSize
    ensures p.riskTolerance.None? ==> ApplyPatch(c, p).riskTolerance == c.riskTolerance
    ensures p.tradingHoursStart.None? ==> ApplyPatch(c, p).tradingHoursStart == c.tradingHoursStart
    ensures p.tradingHoursEnd.None? ==> ApplyPatch(c, p).tradingHoursEnd == c.tradingHoursEnd
    ensures p.isActive.None? ==> ApplyPatch(c, p).isActive == c.isActive
    ensures p.stopLossPercentage.None? ==> ApplyPatch(c, p).stopLossPercentage == c.stopLossPercentage
    ensures p.takeProfitPercentage.None? ==> ApplyPatch(c, p).takeProfitPercentage == c.takeProfitPercentage
    ensures p.minCashReserve.None? ==> ApplyPatch(c, p).minCashReserve == c.minCashReserve
  {
  }

  /** An empty request changes nothing. */
  lemma EmptyPatchIdentity(c: BotConfig)
    ensures ApplyPatch(c, EMPTY_PATCH) == c
  {
  }

  /** Applying two requests in turn is applying their combination once. */
  lemma PatchCompose(c: BotConfig, p: ConfigPatch, q: ConfigPatch)
    ensures ApplyPatch(ApplyPatch(c, p), q) == ApplyPatch(c, Then(p, q))
  {
  }

  /** Repeating a request changes nothing more. */
  lemma PatchIdempotent(c: BotConfig, p: ConfigPatch)
    ensures ApplyPatch(ApplyPatch(c, p), p) == ApplyPatch(c, p)
  {
    PatchCompose(c, p, p);
    assert Then(p, p) == p;
  }

  /** A valid request on a valid configuration leaves it valid. */
  lemma PatchKeepsValid(c: BotConfig, p: ConfigPatch)
    requires ValidBotConfig(c) && ValidPatch(p)
    ensures ValidBotConfig(ApplyPatch(c, p))
  {
  }

  // ---------------------------------------------------------------- the guard chain

  const CONFIG_NOT_FOUND := HttpError(404, "Bot configuration not found")
  const BOT_INACTIVE := HttpError(400, "Bot is not active")
  const LIMIT_REACHED := HttpError(400, "Daily trade limit reached")
  const MARKET_CLOSED := HttpError(400, "Market is closed")
  const PORTFOLIO_NOT_FOUND := HttpError(404, "Portfolio not found")
  const INVALID_DECISION := HttpError(400, "Invalid trading decision")
  const EXECUTION_FAILED := HttpError(500, "Failed to execute trade")

  /** The checks `execute_ai_trade` makes before asking the AI, first failure wins. */
  function ExecuteGuard(config: Option<BotConfig>, trades: seq<Trade>, dayStart: int, marketOpen: bool,
                        portfolio: Option<Portfolio>): (e: Option<HttpError>)
  {
    if config.None? then Some(CONFIG_NOT_FOUND)
    else if !config.value.isActive then Some(BOT_INACTIVE)
    else if !CanMakeTrade(trades, dayStart, config.value.maxDailyTrades) then Some(LIMIT_REACHED)
    else if !marketOpen then Some(MARKET_CLOSED)
    else if portfolio.None? then Some(PORTFOLIO_NOT_FOUND)
    else None
  }

  /** The guard's conditions, in the order they are checked: whether each passes, and its error. */
  function GuardChecks(config: Option<BotConfig>, trades: seq<Trade>, dayStart: int, marketOpen: bool,
                       portfolio: Option<Portfolio>): seq<(bool, HttpError)>
  {
    [ (config.Some?, CONFIG_NOT_FOUND),
      (config.Some? && config.value.isActive, BOT_INACTIVE),
      (config.Some? && CanMakeTrade(trades, dayStart, config.value.maxDailyTrades), LIMIT_REACHED),
      (marketOpen, MARKET_CLOSED),
      (portfolio.Some?, PORTFOLIO_NOT_FOUND) ]
  }

  /** The error of the first check that fails, if any does. */
  function FirstFailure(checks: seq<(bool, HttpError)>): (e: Option<HttpError>)
    ensures e.None? <==> forall k :: 0 <= k < |checks| ==> checks[k].0
  {
    if checks == [] then None
    else if !checks[0].0 then Some(checks[0].1)
    else FirstFailure(checks[1..])
  }

  /**
   * The guard raises the error of the first failing check in the order
   * config, active, daily limit, market, portfolio, and lets the request
   * through exactly when every check passes.
   */
  lemma ExecuteGuardPrecedence(config: Option<BotConfig>, trades: seq<Trade>, dayStart: int, marketOpen: bool,
                               portfolio: Option<Portfolio>)
    ensures ExecuteGuard(config, trades, dayStart, marketOpen, portfolio)
            == FirstFailure(GuardChecks(config, trades, dayStart, marketOpen, portfolio))
    ensures ExecuteGuard(config, trades, dayStart, marketOpen, portfolio).None? <==>
              && config.Some? && config.value.isActive
              && CanMakeTrade(trades, dayStart, config.value.maxDailyTrades)
              && marketOpen && portfolio.Some?
  {
    var c0 := GuardChecks(config, trades, dayStart, marketOpen, portfolio);
    var c1, c2, c3, c4 := c0[1..], c0[2..], c0[3..], c0[4..];
    assert FirstFailure(c4) == (if !c0[4].0 then Some(c0[4].1) else None) by { assert c4[1..] == []; }
    assert FirstFailure(c3) == (if !c0[3].0 then Some(c0[3].1) else FirstFailure(c4)) by { assert c3[1..] == c4; }
    assert FirstFailure(c2) == (if !c0[2].0 then Some(c0[2].1) else FirstFailure(c3)) by { assert c2[1..] == c3; }
    assert FirstFailure(c1) == (if !c0[1].0 then Some(c0[1].1) else FirstFailure(c2)) by { assert c1[1..] == c2; }
  }

  // ---------------------------------------------------------------- analysis and status

  /** The body of a successful `analyze_stock`. */
  datatype Analysis = HoldAdvice(symbol: string) | Advice(decision: TradingDecision)

  /**
   * `analyze_stock`: 404 without a config or a portfolio, otherwise the AI's
   * decision for the upper-cased symbol, or HOLD when it gave none.
   */
  function AnalyzeStock(config: Option<BotConfig>, portfolio: Option<Portfolio>, symbol: string,
                        decision: Option<TradingDecision>): (r: HttpResult<Analysis>)
    ensures config.None? ==> r == Fail(CONFIG_NOT_FOUND)
    ensures config.Some? && portfolio.None? ==> r == Fail(PORTFOLIO_NOT_FOUND)
    ensures r.Ok? <==> config.Some? && portfolio.Some?
    ensures r.Ok? && r.value.HoldAdvice? ==> decision.None? && r.value.symbol == Upper(symbol)
    ensures r.Ok? && decision.Some? ==> r.value == Advice(decision.value)
  {
    if config.None? then Fail(CONFIG_NOT_FOUND)
    else if portfolio.None? then Fail(PORTFOLIO_NOT_FOUND)
    else if decision.None? then Ok(HoldAdvice(Upper(symbol)))
    else Ok(Advice(decision.value))
  }

  /** The answer of a handler whose body raised something other than an `HTTPException`. */
  const INTERNAL_ERROR := HttpError(500, "Internal server error")

  /**
   * `analyze_stock` as written: the analysis coroutine is called without
   * `await`, so `decision` is a coroutine object, always truthy, and reading
   * `decision.symbol` raises `AttributeError`, which the handler answers with
   * a 500.  Past the two 404s every request fails.
   */
  function AnalyzeStockAsWritten(config: Option<BotConfig>, portfolio: Option<Portfolio>, symbol: string)
    : (r: HttpResult<Analysis>)
    ensures !r.Ok?
    ensures config.None? ==> r == Fail(CONFIG_NOT_FOUND)
    ensures config.Some? && portfolio.None? ==> r == Fail(PORTFOLIO_NOT_FOUND)
    ensures config.Some? && portfolio.Some? ==> r == Fail(INTERNAL_ERROR)
  {
    if config.None? then Fail(CONFIG_NOT_FOUND)
    else if portfolio.None? then Fail(PORTFOLIO_NOT_FOUND)
    else Fail(INTERNAL_ERROR)
  }

  /**
   * Wherever the awaited analysis gives advice or a HOLD, the handler as
   * written answers 500 instead.
   */
  lemma UnawaitedAnalysisFails(config: Option<BotConfig>, portfolio: Option<Portfolio>, symbol: string,
                               decision: Option<TradingDecision>)
    requires AnalyzeStock(config, portfolio, symbol, decision).Ok?
    ensures AnalyzeStockAsWritten(config, portfolio, symbol) == Fail(INTERNAL_ERROR)
    ensures AnalyzeStockAsWritten(config, portfolio, symbol) != AnalyzeStock(config, portfolio, symbol, decision)
  {
  }

  /**
   * `execute_ai_trade` as written: the analysis coroutine is not awaited, so
   * `decision` is always truthy and `validate_trading_decision` fails on the
   * missing `action` attribute, catches the error and returns `False`.
   * Every request that passes the guard is answered 400 "Invalid trading
   * decision", and nothing is ever traded.
   */
  function ExecuteAiTradeAsWritten(config: Option<BotConfig>, trades: seq<Trade>, dayStart: int, marketOpen: bool,
                                   portfolio: Option<Portfolio>): (r: HttpResult<TradeReply>)
    ensures !r.Ok?
    ensures var guard := ExecuteGuard(config, trades, dayStart, marketOpen, portfolio);
            r == Fail(if guard.Some? then guard.value else INVALID_DECISION)
  {
    var guard := ExecuteGuard(config, trades, dayStart, marketOpen, portfolio);
    if guard.Some? then Fail(guard.value) else Fail(INVALID_DECISION)
  }

  /**
   * A concrete request the awaited handler answers with a trade and the
   * handler as written refuses: an active bot with one trade allowed, the
   * market open, a $20 portfolio, and a BUY of one share at $10 that
   * validates and that the portfolio service commits.
   */
  lemma UnawaitedTradeRefused()
    ensures var config := DefaultBotConfig().(isActive := true);
            var portfolio := Portfolio(20.0, 20.0);
            var d := TradingDecision(BUY, "AAPL", 1, 7, "momentum", 10.0);
            && ExecuteGuard(Some(config), [], 0, true, Some(portfolio)).None?
            && AiService.ValidateTradingDecision(d, portfolio.cashBalance, HoldingsDict(map[]))
            && Committed(Book(Some(portfolio), map[], []), d, 0).Some?
            && ExecuteAiTradeAsWritten(Some(config), [], 0, true, Some(portfolio)) == Fail(INVALID_DECISION)
  {
  }

  /** The time of the most recent trade (`order_by(executed_at.desc()).first()`). */
  function LatestTradeTime(trades: seq<Trade>): Option<int> {
    if trades == [] then None
    else
      var earlier := LatestTradeTime(trades[..|trades| - 1]);
      var t := trades[|trades| - 1].executedAt;
      if earlier.Some? && earlier.value >= t then earlier else Some(t)
  }

  /** No trade means no time; otherwise it is the time of some trade and no trade is later. */
  lemma {:induction false} LatestTradeTimeSpec(trades: seq<Trade>)
    ensures LatestTradeTime(trades).None? <==> trades == []
    ensures LatestTradeTime(trades).Some? ==>
              && (exists k :: 0 <= k < |trades| && trades[k].executedAt == LatestTradeTime(trades).value)
              && (forall k :: 0 <= k < |trades| ==> trades[k].executedAt <= LatestTradeTime(trades).value)
  {
    if trades != [] {
      var prefix := trades[..|trades| - 1];
      LatestTradeTimeSpec(prefix);
      var latest := LatestTradeTime(trades).value;
      if LatestTradeTime(prefix).Some? && LatestTradeTime(prefix).value >= trades[|trades| - 1].executedAt {
        var k :| 0 <= k < |prefix| && prefix[k].executedAt == latest;
        assert trades[k] == prefix[k];
      } else {
        assert trades[|trades| - 1].executedAt == latest;
      }
      forall k | 0 <= k < |trades|
        ensures trades[k].executedAt <= latest
      {
        if k < |prefix| {
          assert trades[k] == prefix[k];
        }
      }
    }
  }

  /**
   * The `BotStatus` of `get_bot_status`; `service` is the bot service's
   * status, `None` when asking for it raised, in which case continuous
   * trading reads as off and the interval as 5 minutes.
   */
  function StatusReport(config: BotConfig, portfolio: Portfolio, marketOpen: bool, tradesToday: nat,
                        lastTradeTime: Option<int>, service: Option<ServiceStatus>): (s: BotStatus)
    ensures s.isActive == config.isActive && s.maxDailyTrades == config.maxDailyTrades
    ensures s.cashAvailable == portfolio.cashBalance && s.portfolioValue == portfolio.totalValue
    ensures service.None? ==> !s.continuousTrading && s.tradingIntervalMinutes == 5
    ensures service.Some? ==> s.continuousTrading == service.value.isRunning
                              && s.tradingIntervalMinutes == service.value.tradingIntervalMinutes
  {
    BotStatus(
      isActive := config.isActive,
      isTradingHours := marketOpen,
      tradesToday := tradesToday,
      maxDailyTrades := config.maxDailyTrades,
      cashAvailable := portfolio.cashBalance,
      portfolioValue := portfolio.totalValue,
      lastTradeTime := lastTradeTime,
      continuousTrading := if service.Some? then service.value.isRunning else false,
      tradingIntervalMinutes := if service.Some? then service.value.tradingIntervalMinutes else 5)
  }

  // ---------------------------------------------------------------- handlers

  /** The body of a successful `start_bot`. */
  datatype StartReply = StartReply(continuousTrading: bool, tradingIntervalMinutes: int)

  /** The body of a successful `execute_ai_trade`. */
  datatype TradeReply = NoTrade(symbol: string) | TradeExecuted(trade: Trade)

  const BOT_STARTED := "BOT_STARTED"
  const BOT_STOPPED := "BOT_STOPPED"
  const TRADING_INTERVAL_UPDATED := "TRADING_INTERVAL_UPDATED"

  /**
   * The state the bot endpoints share: the `bot_config` row, absent until
   * something creates it, and the actions written to the activity log.
   */
  class BotEndpoints {
    var config: Option<BotConfig>
    var activity: seq<string>

    constructor ()
      ensures config.None? && activity == []
    {
      config := None;
      activity := [];
    }

    /** The stored config, or the default one written first (`get_bot_config` and the others). */
    method EnsureConfig() returns (c: BotConfig)
      modifies this
      ensures config == Some(c)
      ensures c == old(config).GetOr(DefaultBotConfig())
      ensures activity == old(activity)
    {
      if config.None? {
        config := Some(DefaultBotConfig());
      }
      c := config.value;
    }

    /** `update_bot_config`: the set fields are written, onto a fresh default row if there is none. */
    method UpdateBotConfig(p: ConfigPatch) returns (c: BotConfig)
      modifies this
      ensures c == ApplyPatch(old(config).GetOr(DefaultBotConfig()), p)
      ensures config == Some(c)
      ensures activity == old(activity)
    {
      var current := config.GetOr(DefaultBotConfig());
      c := ApplyPatch(current, p);
      config := Some(c);
    }

    /** `start_bot`: active whatever it was before, and the continuous trading loop running. */
    method StartBot(bot: TradingBot) returns (reply: StartReply)
      modifies this, bot
      ensures config == Some(old(config).GetOr(DefaultBotConfig()).(isActive := true))
      ensures activity == old(activity) + [BOT_STARTED]
      ensures bot.isRunning
      ensures bot.tradingInterval == old(bot.tradingInterval) && bot.lastTradeTime == old(bot.lastTradeTime)
      ensures reply == StartReply(true, bot.tradingInterval / 60)
    {
      var c := EnsureConfig();
      config := Some(c.(isActive := true));
      activity := activity + [BOT_STARTED];
      bot.StartContinuousTrading();
      reply := StartReply(true, bot.GetStatus().tradingIntervalMinutes);
    }

    /** `start_bot_simple`: active, without starting the trading loop. */
    method StartBotSimple()
      modifies this
      ensures config == Some(old(config).GetOr(DefaultBotConfig()).(isActive := true))
      ensures activity == old(activity) + [BOT_STARTED]
    {
      var c := EnsureConfig();
      config := Some(c.(isActive := true));
      activity := activity + [BOT_STARTED];
    }

    /** `stop_bot`: 404 with nothing changed when there is no config; otherwise inactive and stopped. */
    method StopBot(bot: TradingBot) returns (error: Option<HttpError>)
      modifies this, bot
      ensures old(config).None? ==> error == Some(CONFIG_NOT_FOUND) && unchanged(this) && unchanged(bot)
      ensures old(config).Some? ==>
                && error.None?
                && config == Some(old(config).value.(isActive := false))
                && activity == old(activity) + [BOT_STOPPED]
                && !bot.isRunning
      ensures bot.tradingInterval == old(bot.tradingInterval) && bot.lastTradeTime == old(bot.lastTradeTime)
    {
      if config.None? {
        return Some(CONFIG_NOT_FOUND);
      }
      config := Some(config.value.(isActive := false));
      bot.StopContinuousTrading();
      activity := activity + [BOT_STOPPED];
      error := None;
    }

    /** `set_trading_interval`: 404 without a config; otherwise the interval is set and reported. */
    method SetTradingInterval(bot: TradingBot, minutes: int) returns (r: HttpResult<(int, bool)>)
      modifies this, bot
      ensures old(config).None? ==> r == Fail(CONFIG_NOT_FOUND) && unchanged(this) && unchanged(bot)
      ensures old(config).Some? ==>
                && r == Ok((minutes, bot.isRunning))
                && bot.tradingInterval == IntervalSeconds(minutes)
                && bot.GetStatus().tradingIntervalMinutes == (if minutes > 1 then minutes else 1)
                && config == old(config)
                && activity == old(activity) + [TRADING_INTERVAL_UPDATED]
      ensures bot.isRunning == old(bot.isRunning) && bot.lastTradeTime == old(bot.lastTradeTime)
    {
      if config.None? {
        return Fail(CONFIG_NOT_FOUND);
      }
      bot.SetTradingInterval(minutes);
      activity := activity + [TRADING_INTERVAL_UPDATED];
      r := Ok((minutes, bot.isRunning));
    }

    /**
     * `get_bot_status`: the config and the portfolio are created when
     * missing, then reported with today's trade count and the latest trade.
     */
    method GetBotStatus(ledger: Ledger, service: Option<ServiceStatus>, marketOpen: bool, dayStart: int,
                        initialBalance: real) returns (s: BotStatus)
      modifies this, ledger
      ensures config == Some(old(config).GetOr(DefaultBotConfig())) && activity == old(activity)
      ensures ledger.portfolio.Some? && ledger.trades == old(ledger.trades) && ledger.holdings == old(ledger.holdings)
      ensures old(ledger.portfolio).Some? ==> ledger.portfolio == old(ledger.portfolio)
      ensures s == StatusReport(config.value, ledger.portfolio.value, marketOpen, TradesToday(ledger.trades, dayStart),
                                LatestTradeTime(ledger.trades), service)
    {
      var c := EnsureConfig();
      var p := ledger.InitializePortfolio(initialBalance);
      s := StatusReport(c, p, marketOpen, TradesToday(ledger.trades, dayStart), LatestTradeTime(ledger.trades), service);
    }

    /**
     * `execute_ai_trade`, given the AI's decision for the upper-cased
     * symbol: the guard chain, then HOLD when there is no decision, 400 when
     * it fails validation, 500 when the portfolio service refuses it, and
     * otherwise the recorded trade.
     */
    method ExecuteAiTrade(ledger: Ledger, symbol: string, decision: Option<TradingDecision>, marketOpen: bool,
                          dayStart: int, now: int) returns (r: HttpResult<TradeReply>)
      requires ledger.Valid()
      modifies ledger
      ensures ledger.Valid()
      ensures var guard := ExecuteGuard(config, old(ledger.trades), dayStart, marketOpen, old(ledger.portfolio));
              guard.Some? ==> r == Fail(guard.value) && unchanged(ledger)
      ensures r.Ok? ==> ExecuteGuard(config, old(ledger.trades), dayStart, marketOpen, old(ledger.portfolio)).None?
      ensures r.Ok? && r.value.NoTrade? ==> decision.None? && r.value.symbol == Upper(symbol) && unchanged(ledger)
      ensures r.Ok? && r.value.TradeExecuted? ==>
                && decision.Some?
                && AiService.ValidateTradingDecision(decision.value, old(ledger.portfolio).value.cashBalance,
                                                     HoldingsDict(old(ledger.holdings)))
                && r.value.trade == TradeRecord(decision.value, decision.value.action, now)
                && ledger.trades == old(ledger.trades) + [r.value.trade]
                && Some(ledger.State()) == Committed(old(ledger.State()), decision.value, now)
      ensures r.Fail? && r.error == INVALID_DECISION ==> unchanged(ledger)
      ensures r.Fail? && r.error == EXECUTION_FAILED ==> unchanged(ledger)
      ensures ExecuteGuard(config, old(ledger.trades), dayStart, marketOpen, old(ledger.portfolio)).None? && decision.Some? ==>
                var valid := AiService.ValidateTradingDecision(decision.value, old(ledger.portfolio).value.cashBalance,
                                                               HoldingsDict(old(ledger.holdings)));
                && (!valid <==> r == Fail(INVALID_DECISION))
                && (r.Ok? <==> r == Ok(TradeExecuted(TradeRecord(decision.value, decision.value.action, now))))
                && (r.Fail? ==> r.error == INVALID_DECISION || r.error == EXECUTION_FAILED)
                && (valid && decision.value.action == SELL && decision.value.quantity > 0 ==> r.Ok?)
    {
      var guard := ExecuteGuard(config, ledger.trades, dayStart, marketOpen, ledger.portfolio);
      if guard.Some? {
        return Fail(guard.value);
      }
      if decision.None? {
        return Ok(NoTrade(Upper(symbol)));
      }
      var d := decision.value;
      var cash := ledger.portfolio.value.cashBalance;
      var currentHoldings := HoldingsDict(ledger.holdings);
      if !AiService.ValidateTradingDecision(d, cash, currentHoldings) {
        return Fail(INVALID_DECISION);
      }
      AiService.ValidatedDecisionsExecute(d, cash, ledger.holdings);
      var trade := ledger.ExecuteTrade(d, now);
      if trade.None? {
        return Fail(EXECUTION_FAILED);
      }
      r := Ok(TradeExecuted(trade.value));
    }
  }
}
