# StockBot backend core in Dafny

This project models the core of the StockBot backend: a FastAPI service that runs a
virtual-money trading bot. The bot asks an AI model for BUY/SELL/HOLD advice on
trending and held stocks, gates that advice through validation and daily limits,
and books the trades that survive into a paper portfolio. The model covers:

- **Portfolio ledger** (`PortfolioService`). A `Ledger` class holds the portfolio row,
  holdings keyed by symbol and the append-only trade list. Its methods cover:
  - buying, with the weighted average cost;
  - selling, with the holding deleted at zero;
  - portfolio initialisation and the valuation summary;
  - trade statistics per symbol.

  Around the class sit the pure pieces: trading history paging, the holdings dictionary
  handed to the AI, and the daily trade-limit check.
- **AI reply parser and feasibility check** (`AiService`):
  - the regex searches for `ACTION:`, `QUANTITY:`, `CONFIDENCE:` and `REASONING:`, modelled
    as leftmost-match functions over `seq<char>`;
  - confidence clamping, the whole-share cash cap with its reasoning note, and the
    available-cash rule;
  - `validate_trading_decision`;
  - the `SYMBOL: sentiment` line parser, a loop that fills a map.
- **Bot control**:
  - `TradingBotService`: the trading service's running flag, the interval setter and
    getter, the trading loop's exit, and one `_analyze_and_trade` cycle. The cycle covers
    the analysis list, the confidence filter, the stable descending sort, the per-cycle
    cap and the execution loop.
  - `BotRouter`: the `/bot` router's config endpoints (default creation, partial update,
    start, stop), the guard chain of `execute-trade`, the analyse endpoint and the status
    report with its fallback.
- **Market-data helpers** (`AlphaVantage`):
  - the API-call counter, a state machine with a minimum interval, a daily reset and a
    hard limit;
  - the cache key, the TTL validity check and cache writes;
  - the cached `get_stock_info` and `get_current_price` paths and the usage report;
  - the market-hours predicate and the next-open day offset.
- **Logs router** (`LogsRouter`):
  - validation when adding activity and trading logs;
  - the time-window query;
  - the debug view's buckets by level and keyword;
  - the clean-up endpoint.
- **Data model and validation**:
  - `Models`: enums, rows and column defaults;
  - `Schemas`: field bounds and the `HH:MM` pattern;
  - `Config`: the allowed-email list and the default settings;
  - `AuthService`: the e-mail gate and the get-or-create user upsert.

Money is modelled with exact `real` values and share quantities with `int`. Python's
`int(x / y)` is truncation toward zero (`AiService.Trunc`). Clocks, AI replies, market
quotes and database ordering are passed in as parameters. A query ordered newest first
is the reverse of insertion order. `Wrappers` (an `Option` type) and `Text` (whitespace,
strip, split/join, case, digits) are helpers the core modules share.

The backend has no panic-sell, allocation modes, short positions or client-side merge;
none is modelled.

## Model

| member | source | states |
|---|---|---|
| Models.ParseTradeAction | backend/app/models/models.py:8-10 | a string names an action iff it is "BUY" or "SELL", and the parsed action prints back as that string |
| Models.TradeActionRoundTrip | backend/app/models/models.py:8-10 | parsing an action's value gives the action back |
| Models.ParseRiskTolerance | backend/app/models/models.py:12-15 | a string names a risk tolerance iff it is "LOW", "MEDIUM" or "HIGH", and it prints back as that string |
| Models.RiskToleranceRoundTrip | backend/app/models/models.py:12-15 | parsing a risk tolerance's value gives it back |
| Schemas.ClockValue | backend/app/models/schemas.py:96-97 | a time accepted by the trading-hours pattern reads as an hour in 0..23 and a minute in 0..59 |
| Schemas.FormatClockAccepted | backend/app/models/schemas.py:96-97 | every hour 0..23 and minute 0..59, written as HH:MM, is accepted by the pattern and reads back as the same time |
| Schemas.ClockPatternExamples | backend/app/models/schemas.py:96-97 | "9:30", "09:30", "23:59", "16:00" and "0:00" match the pattern; "24:00", "12:60", "123:00", "9:5" and ":30" do not |
| Schemas.DefaultBotConfigValid | backend/app/models/schemas.py:93-101 | the column defaults satisfy every field bound of `BotConfigBase`: 5 trades, position size 0.20, MEDIUM, inactive |
| Config.AllowedEmailsList | backend/app/config.py:47-52 | an unset or empty setting gives []; otherwise there is one entry per comma-separated piece (commas + 1), and entry k is exactly the k-th piece stripped, with empty pieces kept |
| Config.AllowedEmailsRoundTrip | backend/app/config.py:47-52 | for a setting without whitespace, joining the list with commas gives the setting back |
| Config.DefaultRiskToleranceParses | backend/app/config.py:32 | the default risk tolerance setting names the MEDIUM enum value |
| AuthService.VerifyGoogleToken | backend/app/services/auth_service.py:21-46 | a token is accepted iff the library verified it and its e-mail passes the allowed-list gate; the result carries the token's subject, e-mail and name, and its picture, or "" when it has none |
| AuthService.UnrestrictedAdmitsEveryone | backend/app/services/auth_service.py:48-52 | with an empty allowed list, every verified token is accepted |
| AuthService.NewUserBotConfig | backend/app/services/auth_service.py:104-110 | a new user's bot config uses the configured default daily limit and risk tolerance and is inactive |
| AuthService.NewUserBotConfigIsDefault | backend/app/services/auth_service.py:104-110 | that config equals the column defaults of `BotConfig` |
| AuthService.IndexOfGoogleId | backend/app/services/auth_service.py:73 | returns the first row with the given Google id, or the table length when there is none |
| AuthService.UpsertUserSpec | backend/app/services/auth_service.py:70-113 | the upsert fails exactly when another user owns the e-mail (unique constraint); otherwise the returned row carries the token's data and is the only row with that Google id, at most one row is added, every other row is untouched, and the table stays well formed |
| AuthService.UpsertUserIdempotent | backend/app/services/auth_service.py:70-113 | signing in twice with the same data leaves the table as after the first time |
| AuthService.UserStore.GetOrCreateUser | backend/app/services/auth_service.py:70-113 | a returning user is updated in place and no portfolio or config is created; a new user gets exactly one portfolio (cash = total = initial balance) and one default bot config; a constraint failure changes nothing |
| PortfolioService.BoughtHolding | backend/app/services/portfolio_service.py:146-163 | the bought holding has quantity old + q, a cost basis of old basis + q·price, average cost = price for a new symbol, and current price = the trade price |
| PortfolioService.SellHoldings | backend/app/services/portfolio_service.py:197-208 | a sell removes the holding exactly when its quantity reaches 0, otherwise it lowers the quantity by q and keeps the average cost; other symbols are untouched |
| PortfolioService.TradeRecord | backend/app/services/portfolio_service.py:166-174 | the trade record has the decision's symbol, action, quantity and price, and total = quantity·price |
| PortfolioService.BuyCostBasis | backend/app/services/portfolio_service.py:146-163 | a buy raises the portfolio's cost basis by exactly its cost |
| PortfolioService.SellCostBasis | backend/app/services/portfolio_service.py:197-208 | a sell lowers the cost basis by quantity × average cost |
| PortfolioService.BuyAtMarkKeepsValue | backend/app/services/portfolio_service.py:138-163 | at the quoted price, a buy leaves cash + market value unchanged |
| PortfolioService.SellAtMarkKeepsValue | backend/app/services/portfolio_service.py:197-208 | at the quoted price, a sell leaves cash + market value unchanged |
| PortfolioService.OrdersKeepLongOnly | backend/app/services/portfolio_service.py:191-208 | accepted orders keep every held quantity positive (no short positions) |
| PortfolioService.SymbolOrderSpec | backend/app/services/portfolio_service.py:261-274 | the per-symbol grouping lists each traded symbol exactly once, and only traded symbols |
| PortfolioService.GroupBySymbol | backend/app/services/portfolio_service.py:259-274 | the grouping loop yields, for each symbol in first-trade order, exactly that symbol's trades in order |
| PortfolioService.ClosedReturnsFailurePersists | backend/app/services/portfolio_service.py:278-295 | once a symbol's average price divides by zero, the whole statistics call fails |
| PortfolioService.ExtremeReturns | backend/app/services/portfolio_service.py:299-300 | best and worst bound every per-symbol return and are both attained |
| PortfolioService.WinsPlusLosses | backend/app/services/portfolio_service.py:290-293 | every closed symbol counts as exactly one of winning or losing |
| PortfolioService.AverageBetweenExtremes | backend/app/services/portfolio_service.py:298-300 | the sum of returns lies between n·worst and n·best |
| PortfolioService.StatsProperties | backend/app/services/portfolio_service.py:241-315 | no trades gives all-zero stats; otherwise the total is the trade count, winning + losing = symbols with both a BUY and a SELL, win rate is in [0, 100], best and worst exist together, and worst ≤ average ≤ best |
| PortfolioService.StatsFromReturnsProperties | backend/app/services/portfolio_service.py:276-310 | from per-symbol returns: wins + losses = returns, win rate is in [0, 100], best/worst exist iff there is a return, and the average lies between them |
| PortfolioService.BreakEvenIsLoss | backend/app/services/portfolio_service.py:290-293 | a sell at exactly the average buy price counts as losing, not winning |
| PortfolioService.PositiveQuantitiesGiveStats | backend/app/services/portfolio_service.py:284-285 | with positive quantities (as the ledger records), statistics are always available |
| PortfolioService.TradingHistory | backend/app/services/portfolio_service.py:232-239 | a page has min(limit, remaining after offset) trades, newest first, starting offset trades from the newest |
| PortfolioService.HistoryNewestFirst | backend/app/services/portfolio_service.py:232-236 | for trades stored in time order, a page is ordered by descending execution time |
| PortfolioService.HoldingsDict | backend/app/services/portfolio_service.py:317-334 | every holding appears under its symbol with (quantity, average cost, current price), and nothing else appears |
| PortfolioService.DailyLimitRespected | backend/app/services/portfolio_service.py:336-351 | when `can_make_trade` holds, recording one more trade today keeps today's count within the limit |
| PortfolioService.Ledger.InitializePortfolio | backend/app/services/portfolio_service.py:19-42 | an existing portfolio is returned unchanged; otherwise one is created with cash = total = initial balance |
| PortfolioService.Ledger.ExecuteBuy | backend/app/services/portfolio_service.py:132-185 | with too little cash nothing changes and no trade is returned; otherwise cash drops by exactly quantity·price (staying ≥ 0), the holding is updated with the weighted average, and one matching record is appended |
| PortfolioService.Ledger.ExecuteSell | backend/app/services/portfolio_service.py:187-230 | when the symbol is unheld or held in too small a quantity, nothing changes; otherwise cash rises by quantity·price, the holding shrinks or is deleted at 0, and one matching record is appended |
| PortfolioService.Committed | backend/app/services/portfolio_service.py:114-230 | an order commits iff there is a portfolio and the buy (cash covers the cost) or sell (enough shares held) is accepted; then the total value is kept, exactly its record is appended, cash falls by the cost (staying ≥ 0) for a buy or rises by it for a sell, and the holdings stay keyed by symbol |
| PortfolioService.Ledger.ExecuteTrade | backend/app/services/portfolio_service.py:114-130 | without a portfolio nothing happens; a trade is returned exactly when `Committed` gives a new state, which becomes the ledger's state, and a refusal changes nothing |
| PortfolioService.Ledger.GetTradingStats | backend/app/services/portfolio_service.py:241-315 | the accumulator loop computes exactly the statistics of the trade list (see `StatsProperties`) |
| PortfolioService.Ledger.GetPortfolioSummary | backend/app/services/portfolio_service.py:48-91 | total value = cash + Σ qty·current price, invested = Σ qty·average cost, return = value − initial balance, percentage is 0 when the initial balance is ≤ 0, count = number of holdings; the stored total value is refreshed |
| AiService.AvailableCash | backend/app/services/ai_service.py:59-60 | the cash offered to the AI is the smaller of cash and value × position size, so it exceeds neither |
| AiService.LeftmostMatch | backend/app/services/ai_service.py:194-228 | a search returns the leftmost position where the pattern matches, or nothing when it matches nowhere |
| AiService.MissingLabels | backend/app/services/ai_service.py:193-223 | a reply where `ACTION:` occurs nowhere (in any case), or `QUANTITY:` occurs nowhere, yields no decision; where `CONFIDENCE:` occurs nowhere, a decision has confidence 5 |
| AiService.HoldReply | backend/app/services/ai_service.py:194-205 | a reply opening with `ACTION: HOLD` yields no decision, whatever follows |
| AiService.ZeroQuantityReply | backend/app/services/ai_service.py:208-219 | a well-formed reply whose quantity line reads 0 yields no decision |
| AiService.ClampConfidence | backend/app/services/ai_service.py:224 | confidence is clamped into 1..10, and values already there are kept |
| AiService.ParseAiResponse | backend/app/services/ai_service.py:187-260 | any returned decision has quantity > 0, a confidence in 1..10, and the stock's symbol and price |
| AiService.DecisionForContents | backend/app/services/ai_service.py:231-243 | a SELL keeps quantity and reasoning and is returned iff the quantity is positive; a BUY never exceeds the read quantity or the whole shares cash buys, and carries the adjustment note exactly when cut down |
| AiService.DecisionForExact | backend/app/services/ai_service.py:231-255 | a quantity that needs no cap is returned as read, with its reasoning |
| AiService.ParsedBuyWithinCash | backend/app/services/ai_service.py:233-239 | a parsed BUY is for at most floor(available cash / price) shares |
| AiService.DecisionForAffordable | backend/app/services/ai_service.py:233-239 | with a positive price, a BUY's cost never exceeds the available cash |
| AiService.DefaultReasoning | backend/app/services/ai_service.py:228-229 | without a REASONING label the reasoning is "AI analysis completed" |
| AiService.ParseFormatRoundTrip | backend/app/services/ai_service.py:187-255 | a reply written in the prompt's ACTION/QUANTITY/CONFIDENCE/REASONING format parses back to the same decision |
| AiService.ValidatedDecisionsExecute | backend/app/services/ai_service.py:312-330 | a validated BUY is exactly one the cash covers; a SELL of a positive quantity validates exactly when the ledger accepts it (an unheld symbol counts as 0 shares) |
| AiService.ParseMarketSentiment | backend/app/services/ai_service.py:262-310 | no symbols gives {}; otherwise the loop's map is the sentiment of the reply's lines |
| AiService.SentimentKeys | backend/app/services/ai_service.py:297-304 | a symbol is a key iff some line containing ':' names it before its first ':' |
| AiService.SentimentLastLineWins | backend/app/services/ai_service.py:297-304 | a symbol's sentiment is the stripped text after ':' on the last line naming it |
| TradingBotService.PyTake | backend/app/services/trading_bot_service.py:116 | Python slicing `s[:n]`: a prefix of length min(n, len), negative n counting from the end |
| TradingBotService.AnalysisListSpec | backend/app/services/trading_bot_service.py:113-121 | the list starts with the first ≤ 10 trending symbols in order, contains every held symbol, and adds a held symbol only when it is not already present |
| TradingBotService.AnalysisListDistinct | backend/app/services/trading_bot_service.py:116-121 | with distinct trending symbols, the list has no repeats |
| TradingBotService.StocksToAnalyze | backend/app/services/trading_bot_service.py:113-121 | the appending loop builds exactly the analysis list |
| TradingBotService.ConfidentSpec | backend/app/services/trading_bot_service.py:127-161 | only decisions with confidence ≥ 5 are queued, each for an analysed symbol, and every such decision is queued |
| TradingBotService.QueueDecisions | backend/app/services/trading_bot_service.py:127-161 | the collecting loop queues exactly the confident decisions, in analysis order |
| TradingBotService.SortByConfidenceSpec | backend/app/services/trading_bot_service.py:197 | the sort is a permutation, ordered by descending confidence, and stable: per confidence value the original order is kept |
| TradingBotService.MaxTradesPerCycle | backend/app/services/trading_bot_service.py:200 | the per-cycle cap is min(2, max daily trades) |
| TradingBotService.AttemptsSpec | backend/app/services/trading_bot_service.py:197-202 | exactly min(2, limit, queued) decisions are attempted (for a non-negative limit), a sub-multiset of the queued ones, all confident, in descending confidence, and none left out outranks an attempted one |
| TradingBotService.Step | backend/app/services/trading_bot_service.py:204-218 | one attempt keeps a portfolio and the holdings keyed by symbol; unless it executed, the book is unchanged; an executed one appends exactly its record |
| TradingBotService.Run | backend/app/services/trading_bot_service.py:202-238 | the cycle's fold over the attempts executes at most one trade per attempt and keeps a portfolio and the holdings keyed by symbol |
| TradingBotService.StepExecutesValidated | backend/app/services/trading_bot_service.py:204-218 | for a long-only book and a positive quantity, an attempt executes iff `can_make_trade` holds and the decision validates |
| TradingBotService.RunKeepsBook | backend/app/services/trading_bot_service.py:202-238 | a cycle keeps the cash non-negative and every held quantity positive |
| TradingBotService.RunTrades | backend/app/services/trading_bot_service.py:202-238 | a cycle keeps the earlier trades as a prefix and appends exactly one record per executed attempt, each the record of an attempted decision |
| TradingBotService.RunWithinLimit | backend/app/services/trading_bot_service.py:202-238 | after a cycle, today's trade count is no larger than before or within the daily limit |
| TradingBotService.IntervalRoundTrip | backend/app/services/trading_bot_service.py:250-261 | after setting m minutes, the status reports max(1, m) minutes |
| TradingBotService.TradingCyclesBound | backend/app/services/trading_bot_service.py:50-98 | at most one cycle per tick, and none while the market is closed |
| TradingBotService.TradingBot.constructor | backend/app/services/trading_bot_service.py:18-24 | the service starts not running, without a task, with a 60-second interval and no last trade |
| TradingBotService.TradingBot.StartContinuousTrading | backend/app/services/trading_bot_service.py:26-34 | starting when running changes nothing; otherwise it sets the running flag and the task |
| TradingBotService.TradingBot.StopContinuousTrading | backend/app/services/trading_bot_service.py:36-48 | stopping when not running changes nothing; otherwise it clears the running flag |
| TradingBotService.TradingBot.SetTradingInterval | backend/app/services/trading_bot_service.py:250-253 | the interval becomes max(60, 60·m) seconds, and the status then reports max(1, m) minutes |
| TradingBotService.TradingBot.TradingLoop | backend/app/services/trading_bot_service.py:50-98 | the loop runs one cycle per open-market tick while running, and any exit leaves the running flag cleared |
| TradingBotService.HeldSymbolsAnalysed | backend/app/services/trading_bot_service.py:110-121 | with the held list read off the holdings rows, every held symbol is analysed, and every analysed symbol is among the first trending ones or held |
| TradingBotService.TradingBot.GetStatus | backend/app/services/trading_bot_service.py:255-261 | the running flag and last trade time as stored, and the interval in whole minutes, rounded down |
| TradingBotService.PlanAttempts | backend/app/services/trading_bot_service.py:113-202 | a loop-built plan equal to `Attempts`: the analysis list, its confident decisions in order, sorted most confident first and cut to the per-cycle cap |
| TradingBotService.RunOutcome | backend/app/services/trading_bot_service.py:202-218 | a finished cycle with `executed` trades has appended exactly that many records, each a record of an attempt, kept the earlier trades, and stayed within the daily limit unless already past it |
| TradingBotService.TradingBot.AnalyzeAndTrade | backend/app/services/trading_bot_service.py:100-248 | the held symbols are those of the ledger's holdings, and each is analysed; without a portfolio nothing changes; otherwise the executed count and the new ledger state are exactly `Run` of the capped attempts over the old state, each executed trade appends its own record, today's count stays within the limit, and the last trade time moves exactly when something executed |
| TradingBotService.ExecuteDecisions | backend/app/services/trading_bot_service.py:202-238 | the loop's executed count and final ledger state are exactly `Run` over the starting state; so it appends one record per executed attempt, never more than attempted, and stops at the daily limit |
| TradingBotService.TryDecision | backend/app/services/trading_bot_service.py:204-218 | the outcome and new ledger state are exactly `Step` of the old state; the limit is reached iff `can_make_trade` fails; an invalid or refused decision changes nothing; an executed one validated and appended exactly its record |
| BotRouter.PatchKeepsUnsetFields | backend/app/routers/bot.py:59-60 | a partial update leaves every field not set in the request unchanged |
| BotRouter.EmptyPatchIdentity | backend/app/routers/bot.py:59-60 | an update setting no field changes nothing |
| BotRouter.PatchCompose | backend/app/routers/bot.py:59-60 | two updates in a row equal one update with the later values winning |
| BotRouter.PatchIdempotent | backend/app/routers/bot.py:59-60 | repeating an update changes nothing more |
| BotRouter.PatchKeepsValid | backend/app/routers/bot.py:45-70 | a schema-valid update of a valid config gives a valid config |
| BotRouter.FirstFailure | backend/app/routers/bot.py:298-317 | no error is raised iff every check passes |
| BotRouter.ExecuteGuardPrecedence | backend/app/routers/bot.py:298-317 | the guard raises the first failing check's error, in the order config 404, inactive 400, daily limit 400, market closed 400, portfolio 404, and passes iff all hold |
| BotRouter.AnalyzeStock | backend/app/routers/bot.py:237-289 | corrected (analysis awaited): missing config gives 404, then a missing portfolio gives 404; otherwise the AI's decision, or HOLD for the upper-cased symbol |
| BotRouter.AnalyzeStockAsWritten | backend/app/routers/bot.py:237-289 | as written (analysis not awaited): never succeeds; the two 404s, and otherwise 500 "Internal server error" |
| BotRouter.UnawaitedAnalysisFails | backend/app/routers/bot.py:257-289 | wherever the awaited handler answers, the handler as written answers 500 instead |
| BotRouter.ExecuteAiTradeAsWritten | backend/app/routers/bot.py:291-341 | as written (analysis not awaited): never succeeds; the guard's error, and otherwise 400 "Invalid trading decision" |
| BotRouter.UnawaitedTradeRefused | backend/app/routers/bot.py:323-341 | an active bot, open market, $20 portfolio and a one-share $10 BUY that validates and commits is refused with 400 by the handler as written |
| BotRouter.LatestTradeTimeSpec | backend/app/routers/bot.py:103-122 | the last trade time is absent iff there are no trades, and is otherwise the latest execution time |
| BotRouter.StatusReport | backend/app/routers/bot.py:72-130 | the status reports the config and portfolio figures, and falls back to not-running with a 5-minute interval when the service status is unavailable |
| BotRouter.BotEndpoints.EnsureConfig | backend/app/routers/bot.py:20-43 | a missing config is created with the defaults; an existing one is returned |
| BotRouter.BotEndpoints.UpdateBotConfig | backend/app/routers/bot.py:45-70 | the stored config becomes the existing (or default) one with only the set fields replaced |
| BotRouter.BotEndpoints.StartBot | backend/app/routers/bot.py:132-194 | afterwards the config exists and is active whatever it was; the service runs; BOT_STARTED is logged |
| BotRouter.BotEndpoints.StartBotSimple | backend/app/routers/bot.py:386-437 | afterwards the config exists and is active, and BOT_STARTED is logged |
| BotRouter.BotEndpoints.StopBot | backend/app/routers/bot.py:196-235 | no config gives 404 with no change; otherwise the config is inactive and the service stopped |
| BotRouter.BotEndpoints.SetTradingInterval | backend/app/routers/bot.py:439-482 | no config gives 404 with no change; otherwise the service interval is set and the minutes are reported |
| BotRouter.BotEndpoints.GetBotStatus | backend/app/routers/bot.py:72-130 | the status is the report built from the (possibly just created) config and portfolio, with trades untouched |
| BotRouter.BotEndpoints.ExecuteAiTrade | backend/app/routers/bot.py:291-366 | a failing guard answers its error and changes nothing; no decision answers HOLD for the upper-cased symbol; an invalid decision answers 400 and a refused one 500, both without change; otherwise the new ledger state is exactly the committed order's, so the decision's record is appended |
| AlphaVantage.TrendingStocks | backend/app/services/alpha_vantage_service.py:273-278 | the trending list is eight distinct symbols, fixed, with no API call |
| AlphaVantage.NextMidnight | backend/app/services/alpha_vantage_service.py:79-81 | the next reset time is a whole number of days, lies after now and within one day |
| AlphaVantage.NextMidnightIsFirst | backend/app/services/alpha_vantage_service.py:79-81 | no midnight after now comes before the reset time, so it is the next midnight |
| AlphaVantage.WaitTime | backend/app/services/alpha_vantage_service.py:42-47 | the wait is non-negative, positive exactly when the last call was less than the minimum interval ago, and the call then goes no earlier than the minimum interval after the last one (exactly at it when waiting) |
| AlphaVantage.RateLimitStepSpec | backend/app/services/alpha_vantage_service.py:40-107 | past the reset time the count resets and the reset time moves to the next midnight; a call at the limit is refused and changes nothing; a permitted one adds exactly one call and records its time |
| AlphaVantage.RateLimitKeepsBudget | backend/app/services/alpha_vantage_service.py:84-106 | the count never exceeds the daily limit |
| AlphaVantage.SpentBudgetRefuses | backend/app/services/alpha_vantage_service.py:84-103 | with the budget spent, every call before the reset time is refused |
| AlphaVantage.CacheKey | backend/app/services/alpha_vantage_service.py:109-111 | the key is symbol + "_" + data type |
| AlphaVantage.CacheKeyInjective | backend/app/services/alpha_vantage_service.py:109-111 | for one data type, different symbols get different keys |
| AlphaVantage.CacheKindsApart | backend/app/services/alpha_vantage_service.py:109-111 | stock-info and price keys never collide |
| AlphaVantage.IsCacheValid | backend/app/services/alpha_vantage_service.py:113-119 | an empty entry is never valid; an entry with data is valid iff its age is under the duration |
| AlphaVantage.FreshEntryValid | backend/app/services/alpha_vantage_service.py:113-119 | a stored entry is valid iff now < timestamp + duration |
| AlphaVantage.MissingTimestampIsZero | backend/app/services/alpha_vantage_service.py:118-119 | a missing timestamp counts as 0 |
| AlphaVantage.MarketDataClient.constructor | backend/app/services/alpha_vantage_service.py:19-38 | the client starts with an empty cache, no calls, and the reset at the next midnight |
| AlphaVantage.MarketDataClient.WaitForRateLimit | backend/app/services/alpha_vantage_service.py:40-107 | the counters move by one rate-limit step, and the cache is untouched |
| AlphaVantage.MarketDataClient.CacheData | backend/app/services/alpha_vantage_service.py:121-126 | only the given key is overwritten, with the data and `now` as timestamp |
| AlphaVantage.MarketDataClient.GetStockInfo | backend/app/services/alpha_vantage_service.py:128-176 | a valid cached entry is returned without touching the counters; otherwise one rate-limit step is taken, and a quote that came back is cached and returned |
| AlphaVantage.MarketDataClient.GetCurrentPrice | backend/app/services/alpha_vantage_service.py:211-241 | the same cache-then-call path under the price key |
| AlphaVantage.MarketDataClient.ValidateSymbol | backend/app/services/alpha_vantage_service.py:280-286 | a symbol is valid on a fresh cached price, changing nothing; otherwise one rate-limit step is taken and it is valid iff the call was permitted and a price came back |
| AlphaVantage.MarketDataClient.GetApiUsageStats | backend/app/services/alpha_vantage_service.py:361-369 | used + remaining = the daily limit, remaining is in [0, limit], and the cache size is reported |
| AlphaVantage.MarketHoursOnTheClock | backend/app/services/alpha_vantage_service.py:299-308 | the market is open iff it is a weekday and 9:30 ≤ time < 16:00 |
| AlphaVantage.MarketHoursAsFraction | backend/app/services/alpha_vantage_service.py:299-308 | the integer-minute test agrees with the source's fractional-hour comparison |
| AlphaVantage.NextOpenOffset | backend/app/services/alpha_vantage_service.py:321-343 | the next open is 0 to 3 days ahead |
| AlphaVantage.NextOpenIsWeekday | backend/app/services/alpha_vantage_service.py:325-337 | the next open always falls on a weekday, and it is today iff it is a weekday before 16:00 |
| AlphaVantage.NextOpenSkipsOnlyWeekends | backend/app/services/alpha_vantage_service.py:325-337 | a jump of two days or more passes over weekend days only |
| LogsRouter.KeepMembers | backend/app/routers/logs.py:224-237 | a filtered bucket holds a log iff the log is in the list and satisfies the filter |
| LogsRouter.Limit | backend/app/routers/logs.py:170-177 | a query limit keeps the first min(n, length) rows |
| LogsRouter.RecentActivity | backend/app/routers/logs.py:22-27 | exactly min(limit, rows in the window) rows, all from the list and no older than the window start, newest first: row k is the k-th newest row of the window |
| LogsRouter.BucketMembership | backend/app/routers/logs.py:224-237 | a log is in the errors/warnings/info bucket iff its level is exactly that level, in at most one of them, and SUCCESS in none; api_calls iff the lower-cased message mentions an API keyword; trades iff it has a trade id or mentions a trade keyword |
| LogsRouter.TradeIdMakesTradeLog | backend/app/routers/logs.py:236-237 | a log with a non-zero trade id is always in the trades bucket |
| LogsRouter.ClearedActivitySpec | backend/app/routers/logs.py:141-145 | clean-up keeps an activity row iff its timestamp is at or after the cutoff |
| LogsRouter.ClearedTradingSpec | backend/app/routers/logs.py:141-145 | clean-up keeps a trading row iff its timestamp is at or after the cutoff |
| LogsRouter.ClearingLeavesOldActivity | backend/app/routers/logs.py:141-145 | the clean-up as written leaves a 30-day-old activity row in place when asked to delete rows older than 7 days |
| LogsRouter.LogStore.constructor | backend/app/models/models.py:108-124 | both log tables start empty |
| LogsRouter.LogStore.AddActivityLog | backend/app/routers/logs.py:49-89 | unless both action and details are non-empty, 400 and nothing stored; otherwise one row is appended with the next id and `now` |
| LogsRouter.LogStore.AddTradingLog | backend/app/routers/logs.py:91-132 | a level outside INFO/WARNING/ERROR/SUCCESS gives 400 and nothing stored; a missing message fails with 500; otherwise one row is appended |
| LogsRouter.LogStore.GetActivityLogs | backend/app/routers/logs.py:14-47 | exactly min(limit, rows of the last `hours` hours) activity rows, all within that window, newest first |
| LogsRouter.LogStore.ClearActivityLogsAsWritten | backend/app/routers/logs.py:134-158 | as written: trading-log rows older than the cutoff are deleted and counted, and activity rows are untouched |
| LogsRouter.LogStore.ClearActivityLogs | backend/app/routers/logs.py:134-158 | corrected: activity rows older than the cutoff are deleted and counted, and trading rows are untouched |
| LogsRouter.LogStore.GetDebugInfo | backend/app/routers/logs.py:160-257 | each query returns the newest ≤ limit // 2 rows; the buckets are exactly the level, API and trade filters of the trading rows in query order; each summary count is its bucket's length |
| Text.Strip | backend/app/config.py:52 | the stripped text is a slice of the input with only whitespace cut on either side, and it neither starts nor ends with whitespace |
| Text.StripIdempotent | backend/app/config.py:52 | stripping twice is stripping once |
| Text.Split | backend/app/config.py:52 | `str.split(sep)` gives separator count + 1 pieces, none containing the separator |
| Text.JoinSplit | backend/app/config.py:52 | joining the pieces of a split with the separator gives the text back |
| Text.SplitJoin | backend/app/services/ai_service.py:297 | splitting a join of separator-free pieces gives the pieces back |
| Text.NatToStringRoundTrip | backend/app/services/ai_service.py:208-223 | a number written in decimal reads back as the same number |
| Text.UpperIdempotent | backend/app/routers/bot.py:241 | upper-casing twice is upper-casing once |

## Left out

- Database sessions, commits, rollbacks and SQL are replaced by in-memory state. A rollback after an exception is "no change", and a refused insert leaves the id counters as they were, where a database sequence would have used the id up; no contract compares ids.
- The schema assumed is the migrated one (backend/migrate_database.py:49-100), where `user_id` is a nullable column. On the schema the models declare, `user_id` is NOT NULL (backend/app/models/models.py:39,52,67,83) and the inserts in `initialize_portfolio`, the buy and sell orders and the router's default-config creation, which never set it, would fail; that failure is not modelled.
- `AuthService.UserStore` keeps its per-user portfolios and configs apart from the single portfolio of `PortfolioService.Ledger` and the config of `BotRouter.BotEndpoints`. The source reads and writes the same tables through both paths (the ledger and router through an unscoped `.first()`); the model does not connect them.
- Queries ordered by `timestamp desc` or `executed_at desc` are modelled as reverse insertion order. Timestamps are stamped by the server clock as rows are inserted.
- The AI providers, prompt building and the Alpha Vantage SDK are external calls. Their results (a reply, a quote, a price, trending symbols, the market-open flag) are parameters.
- The order in which the database returns holdings rows is not specified. `TradingBotService.TradingBot.AnalyzeAndTrade` therefore takes the held symbols as a parameter, required to list the ledger's holdings, each once, in some order.
- Asynchronous scheduling, `asyncio.sleep`, `wait_for` timeouts and task cancellation are concurrency. `TradingLoop` takes the sequence of ticks as input, and its cycles are counted rather than wired to `AnalyzeAndTrade`.
- The rate limiter's sleep is reported as the time waited. Its clock reads are parameters.
- Logging to the logger, and activity rows the trading cycle writes for low confidence, timeouts and analysis errors, are side records that do not affect decisions.
- Floating point is replaced by exact reals. `%.2f` formatting and rounding in messages are not modelled.
- Time zones (pytz, EST formatting) are out. The weekday, hour and minute are integers, and timestamps are integer or real seconds.
- JWT encoding/decoding and Google's token verification are library calls. `VerifyGoogleToken` takes the verified claims, or their absence, as input.
- The price refresh in `get_holdings` and `get_portfolio_summary` is network I/O. Current prices are taken from the holdings as stored.
- `get_historical_data` takes the same cache-then-call path as `get_current_price`, under a `historical_<period>` key with the daily cache duration; its DataFrame payload is not modelled. `save_market_data` only inserts a row and is not modelled. `get_trending_stocks` is the constant `AlphaVantage.TrendingStocks`; the trading cycle takes its trending list as a parameter, since it reads it from a different stock service. `validate_symbol` is `AlphaVantage.MarketDataClient.ValidateSymbol`, which wraps `GetCurrentPrice`.
- The `/bot/market-sentiment` and `/logs/system-status` endpoints only forward or report process state. The parser behind the first is `AiService.ParseMarketSentiment`.
- Whitespace is the set `str.isspace()` accepts, Unicode included. Case mapping (`upper()`, `lower()`, `re.IGNORECASE`) and the digits of `\d` and `int()` cover ASCII only; non-ASCII letters and digits are not modelled.
- The cycle's decisions are a map from symbol to decision, so a symbol listed twice for analysis shares one decision. The source would ask the AI twice; the model takes one reply per symbol.
- `String(10)` and `String(5)` column lengths and the `max_length=10` symbol bound are not enforced by the ledger. `Schemas.ValidSymbol` states the bound on its own.
- The interval endpoint's 422 response for out-of-range minutes comes from request validation before the handler runs. `BotRouter.BotEndpoints.SetTradingInterval` is specified for any integer.
- `LogsRouter.LogStore.GetDebugInfo` returns the rows themselves rather than the formatted dictionaries with EST timestamps.
- `AiService.ParsedBuyWithinCash` states the share bound floor(cash / price) only. The cost bound quantity·price ≤ cash needs a positive price and is stated in `AiService.DecisionForAffordable`.
- `TradingBotService.TradingBot.AnalyzeAndTrade` bounds today's trade count by the daily limit only when the cycle added trades. A day already over its limit is left as it was.

## Findings

| source | as written | input that shows it | evidently intended | confidence | as-written member | corrected member |
|---|---|---|---|---|---|---|
| backend/app/routers/bot.py:257 | `analyze_stock` calls the async `analyze_stock_for_trading` without `await`; the coroutine object is truthy and has no `symbol`, so the `AttributeError` is answered with 500 | an existing config and portfolio, any symbol | await the analysis and report its decision or HOLD | not executed | BotRouter.AnalyzeStockAsWritten, BotRouter.UnawaitedAnalysisFails | BotRouter.AnalyzeStock |
| backend/app/routers/bot.py:323 | `execute_ai_trade` calls the async analysis without `await`; `validate_trading_decision` catches the missing attribute and returns False, so every request past the guard gets 400 | active bot, open market, $20 cash, AI advice BUY 1 AAPL at $10 | await the analysis, validate and execute the decision | not executed | BotRouter.ExecuteAiTradeAsWritten, BotRouter.UnawaitedTradeRefused | BotRouter.BotEndpoints.ExecuteAiTrade |
| backend/app/routers/logs.py:141-145 | `clear_activity_logs` deletes `TradingLog` rows older than the cutoff, and activity rows are never removed | one activity row stamped 30 days ago, `days = 7`: the row is still there after the call | delete `ActivityLog` rows older than the cutoff, as the endpoint's path and name say | not executed | LogsRouter.LogStore.ClearActivityLogsAsWritten, LogsRouter.ClearingLeavesOldActivity | LogsRouter.LogStore.ClearActivityLogs |
