/**
 * The continuous trading bot (backend/app/services/trading_bot_service.py):
 * its running flag and trading interval, the loop that keeps it going while
 * the configuration stays active, and one analysis cycle: choose the symbols
 * to analyse, keep the confident AI decisions, order them by confidence and
 * execute at most a few of them against the ledger.
 */
module TradingBotService {
  import opened Wrappers
  import opened Models
  import opened Schemas
  import opened PortfolioService
  import AiService

  // ---------------------------------------------------------------- the symbols to analyse

  /** Python's `s[:n]`: a negative `n` drops that many elements from the end. */
  function PyTake<T>(s: seq<T>, n: int): (r: seq<T>)
    ensures |r| <= |s| && r == s[..|r|]
    ensures n >= 0 ==> |r| == if n <= |s| then n else |s|
    ensures n < 0 ==> |r| == if |s| + n >= 0 then |s| + n else 0
  {
    if n >= 0 then (if n <= |s| then s[..n] else s)
    else if |s| + n >= 0 then s[..|s| + n] else []
  }

  const ANALYSIS_LIMIT := 10

  /**
   * `stocks_to_analyze`: the first ten trending symbols, then every held
   * symbol (in the order the holdings were listed) not already present.
   */
  function AnalysisList(trending: seq<string>, held: seq<string>): seq<string> {
    if held == [] then PyTake(trending, ANALYSIS_LIMIT)
    else
      var stocks := AnalysisList(trending, held[..|held| - 1]);
      var symbol := held[|held| - 1];
      if symbol in stocks then stocks else stocks + [symbol]
  }

  /**
   * The list starts with the top trending symbols in order, contains every
   * held symbol and nothing else, and each appended symbol is held and new.
   */
  lemma {:induction false} AnalysisListSpec(trending: seq<string>, held: seq<string>)
    ensures var stocks := AnalysisList(trending, held);
            var top := PyTake(trending, ANALYSIS_LIMIT);
            && |top| <= |stocks| && stocks[..|top|] == top
            && (forall s :: s in held ==> s in stocks)
            && (forall s :: s in stocks ==> s in top || s in held)
            && (forall k :: |top| <= k < |stocks| ==> stocks[k] in held && stocks[k] !in stocks[..k])
  {
    if held != [] {
      var prefix := held[..|held| - 1];
      AnalysisListSpec(trending, prefix);
      var top := PyTake(trending, ANALYSIS_LIMIT);
      var stocks := AnalysisList(trending, prefix);
      var symbol := held[|held| - 1];
      assert held == prefix + [symbol];
      forall s | s in held
        ensures s in prefix || s == symbol
      {
      }
      if symbol !in stocks {
        var stocks' := stocks + [symbol];
        assert AnalysisList(trending, held) == stocks';
        assert stocks'[..|stocks|] == stocks;
        assert stocks'[..|top|] == top by {
          assert stocks'[..|top|] == stocks[..|top|];
        }
        forall k | |top| <= k < |stocks'|
          ensures stocks'[k] in held && stocks'[k] !in stocks'[..k]
        {
          if k < |stocks| {
            assert stocks'[..k] == stocks[..k];
            assert stocks'[k] == stocks[k];
          }
        }
      }
    }
  }

  predicate NoRepeats(s: seq<string>) {
    forall i, j :: 0 <= i < j < |s| ==> s[i] != s[j]
  }

  /** When the trending list repeats no symbol, neither does the analysis list. */
  lemma {:induction false} AnalysisListDistinct(trending: seq<string>, held: seq<string>)
    requires NoRepeats(trending)
    ensures NoRepeats(AnalysisList(trending, held))
  {
    if held != [] {
      AnalysisListDistinct(trending, held[..|held| - 1]);
      var stocks := AnalysisList(trending, held[..|held| - 1]);
      var symbol := held[|held| - 1];
      if symbol !in stocks {
        var stocks' := stocks + [symbol];
        forall i, j | 0 <= i < j < |stocks'|
          ensures stocks'[i] != stocks'[j]
        {
          assert stocks'[i] == stocks[i];
          if j == |stocks| {
            assert stocks'[j] == symbol;
            assert stocks[i] in stocks;
          } else {
            assert stocks'[j] == stocks[j];
          }
        }
      }
    }
  }

  /**
   * `held` lists the keys of `get_current_holdings_dict`: the symbol of every
   * holdings row, each once, in the order the rows come back.
   */
  ghost predicate ListsHoldings(held: seq<string>, holdings: map<string, Holding>) {
    NoRepeats(held) && forall s :: s in held <==> s in holdings
  }

  /**
   * With `held` read off the holdings, every held symbol is analysed (so it
   * can be sold), and nothing is analysed that is neither among the first
   * trending symbols nor held.
   */
  lemma HeldSymbolsAnalysed(trending: seq<string>, held: seq<string>, holdings: map<string, Holding>)
    requires ListsHoldings(held, holdings)
    ensures forall s :: s in holdings ==> s in AnalysisList(trending, held)
    ensures forall s :: s in AnalysisList(trending, held) ==> s in PyTake(trending, ANALYSIS_LIMIT) || s in holdings
  {
    AnalysisListSpec(trending, held);
  }

  /** The loop of `_analyze_and_trade` that builds the list of symbols to analyse. */
  method StocksToAnalyze(trending: seq<string>, held: seq<string>) returns (stocks: seq<string>)
    ensures stocks == AnalysisList(trending, held)
  {
    stocks := PyTake(trending, ANALYSIS_LIMIT);
    var i := 0;
    while i < |held|
      invariant 0 <= i <= |held|
      invariant stocks == AnalysisList(trending, held[..i])
    {
      assert held[..i + 1][..i] == held[..i];
      if held[i] !in stocks {
        stocks := stocks + [held[i]];
      }
      i := i + 1;
    }
    assert held[..|held|] == held;
  }

  // ---------------------------------------------------------------- confident decisions

  const MIN_CONFIDENCE := 5

  /**
   * The decisions queued for execution, in analysis order.  `decisions` holds
   * what the AI service returned per symbol; a symbol without an entry got no
   * decision (no trade suggested, a timeout or an error).
   */
  function Confident(stocks: seq<string>, decisions: map<string, TradingDecision>): seq<TradingDecision> {
    if stocks == [] then []
    else
      var queued := Confident(stocks[..|stocks| - 1], decisions);
      var symbol := stocks[|stocks| - 1];
      if symbol in decisions && decisions[symbol].confidence >= MIN_CONFIDENCE
      then queued + [decisions[symbol]]
      else queued
  }

  /**
   * Only decisions of confidence at least 5 are queued, each is the decision
   * for an analysed symbol, and every such decision is queued.
   */
  lemma {:induction false} ConfidentSpec(stocks: seq<string>, decisions: map<string, TradingDecision>)
    ensures forall d :: d in Confident(stocks, decisions) ==> d.confidence >= MIN_CONFIDENCE
    ensures forall d :: d in Confident(stocks, decisions) ==>
              exists s :: s in stocks && s in decisions && decisions[s] == d
    ensures forall s :: s in stocks && s in decisions && decisions[s].confidence >= MIN_CONFIDENCE ==>
              decisions[s] in Confident(stocks, decisions)
    ensures |Confident(stocks, decisions)| <= |stocks|
  {
    if stocks != [] {
      var prefix := stocks[..|stocks| - 1];
      ConfidentSpec(prefix, decisions);
      assert stocks == prefix + [stocks[|stocks| - 1]];
      forall d | d in Confident(stocks, decisions)
        ensures exists s :: s in stocks && s in decisions && decisions[s] == d
      {
        if d in Confident(prefix, decisions) {
          var s :| s in prefix && s in decisions && decisions[s] == d;
          assert s in stocks;
        }
      }
    }
  }

  /** The analysis loop of `_analyze_and_trade`, with the AI results given. */
  method QueueDecisions(stocks: seq<string>, decisions: map<string, TradingDecision>) returns (queued: seq<TradingDecision>)
    ensures queued == Confident(stocks, decisions)
  {
    queued := [];
    var i := 0;
    while i < |stocks|
      invariant 0 <= i <= |stocks|
      invariant queued == Confident(stocks[..i], decisions)
    {
      assert stocks[..i + 1][..i] == stocks[..i];
      var symbol := stocks[i];
      if symbol in decisions && decisions[symbol].confidence >= MIN_CONFIDENCE {
        queued := queued + [decisions[symbol]];
      }
      i := i + 1;
    }
    assert stocks[..|stocks|] == stocks;
  }

  // ---------------------------------------------------------------- ordering by confidence

  predicate SortedByConfidence(ds: seq<TradingDecision>) {
    forall i, j :: 0 <= i < j < |ds| ==> ds[i].confidence >= ds[j].confidence
  }

  /** `[d]` when `d` has confidence `c`, else nothing. */
  function Level(d: TradingDecision, c: int): seq<TradingDecision> {
    if d.confidence == c then [d] else []
  }

  /** The decisions of one confidence level, in their order. */
  function AtLevel(ds: seq<TradingDecision>, c: int): seq<TradingDecision> {
    if ds == [] then [] else Level(ds[0], c) + AtLevel(ds[1..], c)
  }

  /** Place `d` after every decision at least as confident. */
  function InsertByConfidence(ds: seq<TradingDecision>, d: TradingDecision): (r: seq<TradingDecision>)
    ensures |r| == |ds| + 1
  {
    if ds == [] then [d]
    else if ds[0].confidence >= d.confidence then [ds[0]] + InsertByConfidence(ds[1..], d)
    else [d] + ds
  }

  lemma {:induction false} InsertPermutes(ds: seq<TradingDecision>, d: TradingDecision)
    ensures multiset(InsertByConfidence(ds, d)) == multiset(ds) + multiset{d}
  {
    if ds != [] && ds[0].confidence >= d.confidence {
      InsertPermutes(ds[1..], d);
      assert ds == [ds[0]] + ds[1..];
    }
  }

  /**
   * `trading_decisions.sort(key=lambda x: x.confidence, reverse=True)`:
   * most confident first, equal confidences in their original order.
   */
  function SortByConfidence(ds: seq<TradingDecision>): (r: seq<TradingDecision>)
    ensures |r| == |ds|
  {
    if ds == [] then []
    else InsertByConfidence(SortByConfidence(ds[..|ds| - 1]), ds[|ds| - 1])
  }

  lemma {:induction false} SortPermutes(ds: seq<TradingDecision>)
    ensures multiset(SortByConfidence(ds)) == multiset(ds)
  {
    if ds != [] {
      var prefix, last := ds[..|ds| - 1], ds[|ds| - 1];
      var sorted := SortByConfidence(prefix);
      SortPermutes(prefix);
      assert ds == prefix + [last];
      calc {
        multiset(SortByConfidence(ds));
        multiset(InsertByConfidence(sorted, last));
        { InsertPermutes(sorted, last); }
        multiset(sorted) + multiset{last};
        multiset(prefix) + multiset{last};
        multiset(ds);
      }
    }
  }

  lemma {:induction false} InsertSorted(ds: seq<TradingDecision>, d: TradingDecision)
    requires SortedByConfidence(ds)
    ensures SortedByConfidence(InsertByConfidence(ds, d))
  {
    if ds != [] && ds[0].confidence >= d.confidence {
      InsertSorted(ds[1..], d);
      InsertPermutes(ds[1..], d);
      var r := InsertByConfidence(ds, d);
      var rest := InsertByConfidence(ds[1..], d);
      assert r == [ds[0]] + rest;
      forall j | 0 < j < |r|
        ensures ds[0].confidence >= r[j].confidence
      {
        assert r[j] in multiset(rest);
        assert r[j] in multiset(ds[1..]) + multiset{d};
        if r[j] != d {
          assert r[j] in ds[1..];
        }
      }
    }
  }

  /** All the decisions at one level of `ds` come before `d`'s place, so its level grows at the end. */
  lemma {:induction false} InsertAtLevel(ds: seq<TradingDecision>, d: TradingDecision, c: int)
    requires SortedByConfidence(ds)
    ensures AtLevel(InsertByConfidence(ds, d), c) == AtLevel(ds, c) + Level(d, c)
  {
    if ds == [] {
      AtLevelCons(d, [], c);
      assert [d] + [] == [d];
    } else if ds[0].confidence >= d.confidence {
      var x, rest := ds[0], ds[1..];
      SortedTail(ds);
      InsertAtLevel(rest, d, c);
      calc {
        AtLevel(InsertByConfidence(ds, d), c);
        { assert InsertByConfidence(ds, d) == [x] + InsertByConfidence(rest, d); }
        AtLevel([x] + InsertByConfidence(rest, d), c);
        { InsertBehind(x, rest, d, c); }
        AtLevel([x] + rest, c) + Level(d, c);
        { assert [x] + rest == ds; }
        AtLevel(ds, c) + Level(d, c);
      }
    } else {
      InsertInFront(ds, d, c);
    }
  }

  lemma SortedTail(ds: seq<TradingDecision>)
    requires ds != [] && SortedByConfidence(ds)
    ensures SortedByConfidence(ds[1..])
  {
    var rest := ds[1..];
    forall i, j | 0 <= i < j < |rest|
      ensures rest[i].confidence >= rest[j].confidence
    {
      assert rest[i] == ds[i + 1] && rest[j] == ds[j + 1];
    }
  }

  /** `d` goes behind the head: the head's level contribution comes first. */
  lemma InsertBehind(x: TradingDecision, rest: seq<TradingDecision>, d: TradingDecision, c: int)
    requires AtLevel(InsertByConfidence(rest, d), c) == AtLevel(rest, c) + Level(d, c)
    ensures AtLevel([x] + InsertByConfidence(rest, d), c) == AtLevel([x] + rest, c) + Level(d, c)
  {
    var lx, lr, ld := Level(x, c), AtLevel(rest, c), Level(d, c);
    AtLevelCons(x, InsertByConfidence(rest, d), c);
    AtLevelCons(x, rest, c);
    AppendAssoc(lx, lr, ld);
  }

  lemma AppendAssoc<T>(a: seq<T>, b: seq<T>, c: seq<T>)
    ensures a + (b + c) == (a + b) + c
  {
  }

  /** `d` goes in front of a sorted list of less confident decisions. */
  lemma InsertInFront(ds: seq<TradingDecision>, d: TradingDecision, c: int)
    requires ds != [] && ds[0].confidence < d.confidence && SortedByConfidence(ds)
    ensures AtLevel(InsertByConfidence(ds, d), c) == AtLevel(ds, c) + Level(d, c)
  {
    assert InsertByConfidence(ds, d) == [d] + ds;
    AtLevelCons(d, ds, c);
    if d.confidence == c {
      forall k | 0 <= k < |ds|
        ensures ds[k].confidence < c
      {
        if k > 0 { assert ds[0].confidence >= ds[k].confidence; }
      }
      NoneAtLevel(ds, c);
      assert [d] + [] == [] + [d];
    } else {
      assert [] + AtLevel(ds, c) == AtLevel(ds, c) + [];
    }
  }

  lemma AtLevelCons(x: TradingDecision, ds: seq<TradingDecision>, c: int)
    ensures AtLevel([x] + ds, c) == Level(x, c) + AtLevel(ds, c)
  {
    assert ([x] + ds)[1..] == ds;
  }

  lemma {:induction false} AtLevelSnoc(ds: seq<TradingDecision>, x: TradingDecision, c: int)
    ensures AtLevel(ds + [x], c) == AtLevel(ds, c) + Level(x, c)
  {
    if ds == [] {
      assert [] + [x] == [x] + [];
    } else {
      var h, rest := ds[0], ds[1..];
      AtLevelSnoc(rest, x, c);
      assert AtLevel(ds + [x], c) == Level(h, c) + AtLevel(rest + [x], c) by {
        assert ds + [x] == [h] + (rest + [x]);
        AtLevelCons(h, rest + [x], c);
      }
      assert AtLevel(ds, c) == Level(h, c) + AtLevel(rest, c);
      AppendAssoc(Level(h, c), AtLevel(rest, c), Level(x, c));
    }
  }

  lemma {:induction false} NoneAtLevel(ds: seq<TradingDecision>, c: int)
    requires forall k :: 0 <= k < |ds| ==> ds[k].confidence < c
    ensures AtLevel(ds, c) == []
  {
    if ds != [] {
      NoneAtLevel(ds[1..], c);
    }
  }

  /**
   * The order is by descending confidence, and the sort is stable: each
   * confidence level keeps the decisions' original order.
   */
  lemma {:induction false} SortByConfidenceSpec(ds: seq<TradingDecision>)
    ensures multiset(SortByConfidence(ds)) == multiset(ds)
    ensures SortedByConfidence(SortByConfidence(ds))
    ensures forall c :: AtLevel(SortByConfidence(ds), c) == AtLevel(ds, c)
  {
    SortPermutes(ds);
    if ds != [] {
      var prefix, last := ds[..|ds| - 1], ds[|ds| - 1];
      var sorted := SortByConfidence(prefix);
      assert SortByConfidence(ds) == InsertByConfidence(sorted, last);
      assert ds == prefix + [last];
      SortByConfidenceSpec(prefix);
      InsertSorted(sorted, last);
      forall c
        ensures AtLevel(SortByConfidence(ds), c) == AtLevel(ds, c)
      {
        InsertAtLevel(sorted, last, c);
        AtLevelSnoc(prefix, last, c);
      }
    }
  }

  // ---------------------------------------------------------------- one trading cycle

  /** `min(2, config.max_daily_trades)` */
  function MaxTradesPerCycle(maxDailyTrades: int): (n: int)
    ensures n <= 2 && n <= maxDailyTrades && (n == 2 || n == maxDailyTrades)
  {
    if maxDailyTrades < 2 then maxDailyTrades else 2
  }

  /** The decisions a cycle tries to execute, most confident first. */
  function Attempts(trending: seq<string>, held: seq<string>, decisions: map<string, TradingDecision>,
                    maxDailyTrades: int): seq<TradingDecision>
  {
    PyTake(SortByConfidence(Confident(AnalysisList(trending, held), decisions)), MaxTradesPerCycle(maxDailyTrades))
  }

  /**
   * `min(2, max_daily_trades)` decisions are attempted, or all queued ones
   * when fewer; together they are a sub-multiset of the queue, each of
   * confidence at least 5, and none is less confident than one left out.
   */
  lemma AttemptsSpec(trending: seq<string>, held: seq<string>, decisions: map<string, TradingDecision>,
                     maxDailyTrades: int)
    ensures var a := Attempts(trending, held, decisions, maxDailyTrades);
            var queued := Confident(AnalysisList(trending, held), decisions);
            && (maxDailyTrades >= 0 ==>
                  |a| == if MaxTradesPerCycle(maxDailyTrades) <= |queued| then MaxTradesPerCycle(maxDailyTrades) else |queued|)
            && multiset(a) <= multiset(queued)
            && (forall d :: d in a ==> d.confidence >= MIN_CONFIDENCE && d in queued)
            && SortedByConfidence(a)
            && (forall d, e :: d in a && e in queued && e !in a ==> d.confidence >= e.confidence)
  {
    var queued := Confident(AnalysisList(trending, held), decisions);
    var sorted := SortByConfidence(queued);
    var a := Attempts(trending, held, decisions, maxDailyTrades);
    ConfidentSpec(AnalysisList(trending, held), decisions);
    SortByConfidenceSpec(queued);
    assert a == sorted[..|a|];
    assert sorted == a + sorted[|a|..];
    PrefixOfSorted(sorted, |a|);
    forall d | d in a
      ensures d.confidence >= MIN_CONFIDENCE && d in queued
    {
      assert d in multiset(sorted);
    }
    forall d, e | d in a && e in queued && e !in a
      ensures d.confidence >= e.confidence
    {
      assert e in multiset(sorted);
    }
  }

  /** A prefix of a list sorted by confidence is sorted and outranks the rest. */
  lemma PrefixOfSorted(sorted: seq<TradingDecision>, n: nat)
    requires SortedByConfidence(sorted) && n <= |sorted|
    ensures SortedByConfidence(sorted[..n])
    ensures forall d, e :: d in sorted[..n] && e in sorted && e !in sorted[..n] ==> d.confidence >= e.confidence
  {
    var a := sorted[..n];
    assert forall k :: 0 <= k < n ==> a[k] == sorted[k];
    forall d, e | d in a && e in sorted && e !in a
      ensures d.confidence >= e.confidence
    {
      var i :| 0 <= i < n && a[i] == d;
      var j :| 0 <= j < |sorted| && sorted[j] == e;
    }
  }

  /** `get_status` */
  datatype ServiceStatus = ServiceStatus(isRunning: bool, tradingIntervalMinutes: int, lastTradeTime: Option<int>)

  /** The seconds `set_trading_interval(minutes)` stores: at least one minute. */
  function IntervalSeconds(minutes: int): (seconds: int)
    ensures seconds >= 60 && seconds >= minutes * 60
  {
    if minutes * 60 > 60 then minutes * 60 else 60
  }

  /** What is set is what the status reports: `max(60, m*60) // 60 == max(1, m)`. */
  lemma IntervalRoundTrip(minutes: int)
    ensures IntervalSeconds(minutes) / 60 == (if minutes > 1 then minutes else 1)
  {
  }

  /** One pass of `_trading_loop`, as seen from the loop. */
  datatype Tick = Tick(stopRequested: bool, configActive: bool, marketOpen: bool, canTrade: bool)

  /**
   * The number of trading cycles the loop runs: one for each pass with the
   * market open and a trade allowed, up to a stop or a deactivated config.
   */
  function TradingCycles(ticks: seq<Tick>): nat {
    if ticks == [] || ticks[0].stopRequested || !ticks[0].configActive then 0
    else (if ticks[0].marketOpen && ticks[0].canTrade then 1 else 0) + TradingCycles(ticks[1..])
  }

  lemma {:induction false} TradingCyclesBound(ticks: seq<Tick>)
    ensures TradingCycles(ticks) <= |ticks|
    ensures (forall k :: 0 <= k < |ticks| ==> !ticks[k].marketOpen) ==> TradingCycles(ticks) == 0
  {
    if ticks != [] {
      TradingCyclesBound(ticks[1..]);
    }
  }

  class TradingBot {
    var isRunning: bool
    var hasTask: bool
    var tradingInterval: int
    var lastTradeTime: Option<int>

    /** A new service is stopped, with no task and a one-minute interval. */
    constructor ()
      ensures !isRunning && !hasTask && tradingInterval == 60 && lastTradeTime.None?
    {
      isRunning := false;
      hasTask := false;
      tradingInterval := 60;
      lastTradeTime := None;
    }

    /** `start_continuous_trading`: a no-op when running; otherwise running with a loop task. */
    method StartContinuousTrading()
      modifies this
      ensures old(isRunning) ==> unchanged(this)
      ensures !old(isRunning) ==> isRunning && hasTask
      ensures isRunning
      ensures tradingInterval == old(tradingInterval) && lastTradeTime == old(lastTradeTime)
    {
      if isRunning {
        return;
      }
      isRunning := true;
      hasTask := true;
    }

    /** `stop_continuous_trading`: a no-op when stopped; otherwise stopped (the task is cancelled). */
    method StopContinuousTrading()
      modifies this
      ensures !old(isRunning) ==> unchanged(this)
      ensures !isRunning
      ensures hasTask == old(hasTask) && tradingInterval == old(tradingInterval)
      ensures lastTradeTime == old(lastTradeTime)
    {
      if !isRunning {
        return;
      }
      isRunning := false;
    }

    /** `set_trading_interval` */
    method SetTradingInterval(minutes: int)
      modifies this
      ensures tradingInterval == IntervalSeconds(minutes)
      ensures GetStatus().tradingIntervalMinutes == (if minutes > 1 then minutes else 1)
      ensures isRunning == old(isRunning) && hasTask == old(hasTask) && lastTradeTime == old(lastTradeTime)
    {
      tradingInterval := IntervalSeconds(minutes);
      IntervalRoundTrip(minutes);
    }

    /** `get_status` */
    function GetStatus(): (status: ServiceStatus)
      reads this
      ensures status.isRunning == isRunning && status.lastTradeTime == lastTradeTime
      ensures status.tradingIntervalMinutes * 60 <= tradingInterval < (status.tradingIntervalMinutes + 1) * 60
    {
      ServiceStatus(isRunning, tradingInterval / 60, lastTradeTime)
    }

    /**
     * `_trading_loop`: runs while the flag is set, ends at a deactivated
     * config, waits through closed markets and exhausted daily limits, and on
     * every way out (a stop, the end of the given passes standing for a
     * cancellation) clears the flag.
     */
    method TradingLoop(ticks: seq<Tick>) returns (cycles: nat)
      modifies this
      ensures !isRunning
      ensures cycles == if old(isRunning) then TradingCycles(ticks) else 0
      ensures hasTask == old(hasTask) && tradingInterval == old(tradingInterval)
      ensures lastTradeTime == old(lastTradeTime)
    {
      cycles := 0;
      var i := 0;
      while isRunning && i < |ticks|
        invariant 0 <= i <= |ticks|
        invariant hasTask == old(hasTask) && tradingInterval == old(tradingInterval)
        invariant lastTradeTime == old(lastTradeTime)
        invariant isRunning ==> old(isRunning)
        invariant isRunning ==> cycles + TradingCycles(ticks[i..]) == TradingCycles(ticks)
        invariant !isRunning ==> cycles == if old(isRunning) then TradingCycles(ticks) else 0
        decreases |ticks| - i, isRunning
      {
        var tick := ticks[i];
        if tick.stopRequested {
          isRunning := false;
          break;
        }
        if !tick.configActive {
          break;
        }
        if tick.marketOpen && tick.canTrade {
          cycles := cycles + 1;
        }
        i := i + 1;
      }
      if isRunning && i == |ticks| {
        assert ticks[i..] == [];
      }
      isRunning := false;
    }

    /**
     * `_analyze_and_trade` once the AI has answered: nothing without a
     * portfolio; otherwise the attempted decisions are taken in order,
     * stopping at the daily limit and skipping those that fail validation
     * against the current cash and holdings.  Executed trades are appended to
     * the ledger, all stamped `now`, and the last trade time moves to `now`
     * exactly when something was executed.
     */
    method AnalyzeAndTrade(ledger: Ledger, config: BotConfig, trending: seq<string>, held: seq<string>,
                           decisions: map<string, TradingDecision>, dayStart: int, now: int)
      returns (executed: nat)
      requires ledger.Valid() && dayStart <= now
      requires ListsHoldings(held, ledger.holdings)
      modifies this, ledger
      ensures ledger.Valid()
      ensures old(ledger.portfolio).None? ==> executed == 0 && unchanged(this) && unchanged(ledger)
      ensures forall s :: s in old(ledger.holdings) ==> s in AnalysisList(trending, held)
      ensures executed <= |Attempts(trending, held, decisions, config.maxDailyTrades)|
      ensures ledger.portfolio.Some? == old(ledger.portfolio).Some?
      ensures |ledger.trades| == |old(ledger.trades)| + executed
      ensures ledger.trades[..|old(ledger.trades)|] == old(ledger.trades)
      ensures forall k :: |old(ledger.trades)| <= k < |ledger.trades| ==>
                ledger.trades[k] in Records(Attempts(trending, held, decisions, config.maxDailyTrades), now)
      ensures TradesToday(ledger.trades, dayStart) <= TradesToday(old(ledger.trades), dayStart)
              || TradesToday(ledger.trades, dayStart) <= config.maxDailyTrades
      ensures old(ledger.portfolio).Some? ==>
                Cycle(executed, ledger.State()) == Run(old(ledger.State()), Attempts(trending, held, decisions, config.maxDailyTrades),
                                                  config.maxDailyTrades, dayStart, now)
      ensures executed > 0 ==> lastTradeTime == Some(now)
      ensures executed == 0 ==> lastTradeTime == old(lastTradeTime)
      ensures isRunning == old(isRunning) && hasTask == old(hasTask) && tradingInterval == old(tradingInterval)
    {
      executed := 0;
      HeldSymbolsAnalysed(trending, held, ledger.holdings);
      if ledger.portfolio.None? {
        return;
      }
      var attempts := PlanAttempts(trending, held, decisions, config.maxDailyTrades);
      executed := ExecuteDecisions(ledger, attempts, config.maxDailyTrades, dayStart, now);
      if executed > 0 {
        lastTradeTime := Some(now);
      }
    }
  }

  /**
   * The planning half of `_analyze_and_trade`: the symbols to analyse, the
   * confident decisions queued in that order, sorted most confident first and
   * cut to the per-cycle cap.
   */
  method PlanAttempts(trending: seq<string>, held: seq<string>, decisions: map<string, TradingDecision>,
                      maxDailyTrades: int) returns (attempts: seq<TradingDecision>)
    ensures attempts == Attempts(trending, held, decisions, maxDailyTrades)
  {
    var stocks := StocksToAnalyze(trending, held);
    var queued := QueueDecisions(stocks, decisions);
    attempts := PyTake(SortByConfidence(queued), MaxTradesPerCycle(maxDailyTrades));
  }

  /**
   * The execution loop of `_analyze_and_trade`: the decisions are tried in
   * order until the daily limit is reached; each executed one appends its
   * record, stamped `now`, to the ledger.
   */
  method ExecuteDecisions(ledger: Ledger, attempts: seq<TradingDecision>, maxDailyTrades: int, dayStart: int, now: int)
    returns (executed: nat)
    requires ledger.Valid() && ledger.portfolio.Some? && dayStart <= now
    modifies ledger
    ensures ledger.Valid() && ledger.portfolio.Some?
    ensures executed <= |attempts|
    ensures |ledger.trades| == |old(ledger.trades)| + executed
    ensures ledger.trades[..|old(ledger.trades)|] == old(ledger.trades)
    ensures forall k :: |old(ledger.trades)| <= k < |ledger.trades| ==> ledger.trades[k] in Records(attempts, now)
    ensures TradesToday(ledger.trades, dayStart) <= TradesToday(old(ledger.trades), dayStart)
            || TradesToday(ledger.trades, dayStart) <= maxDailyTrades
    ensures Cycle(executed, ledger.State()) == Run(old(ledger.State()), attempts, maxDailyTrades, dayStart, now)
  {
    executed := 0;
    ghost var start := ledger.State();
    var i := 0;
    while i < |attempts|
      invariant 0 <= i <= |attempts|
      invariant ledger.Valid() && ledger.portfolio.Some?
      invariant var rest := Run(ledger.State(), attempts[i..], maxDailyTrades, dayStart, now);
                Run(start, attempts, maxDailyTrades, dayStart, now) == Cycle(executed + rest.executed, rest.book)
    {
      ghost var current := ledger.State();
      var outcome := TryDecision(ledger, maxDailyTrades, attempts[i], dayStart, now);
      ghost var next := ledger.State();
      RunAdvance(start, attempts, i, executed, current, outcome, next, maxDailyTrades, dayStart, now);
      if outcome == LimitReached {
        break;
      }
      if outcome == Executed {
        executed := executed + 1;
      }
      ghost var rest := Run(next, attempts[i + 1..], maxDailyTrades, dayStart, now);
      assert Run(start, attempts, maxDailyTrades, dayStart, now) == Cycle(executed + rest.executed, rest.book);
      i := i + 1;
    }
    if i == |attempts| {
      assert attempts[i..] == [];
    }
    RunOutcome(start, attempts, maxDailyTrades, dayStart, now, executed, ledger.State());
  }

  /** What a finished cycle did to the trades, read off its end state. */
  lemma RunOutcome(b: Book, attempts: seq<TradingDecision>, maxDailyTrades: int, dayStart: int, now: int,
                   executed: nat, end: Book)
    requires b.portfolio.Some? && KeyedBySymbol(b.holdings) && dayStart <= now
    requires Cycle(executed, end) == Run(b, attempts, maxDailyTrades, dayStart, now)
    ensures executed <= |attempts|
    ensures |end.trades| == |b.trades| + executed
    ensures end.trades[..|b.trades|] == b.trades
    ensures forall k :: |b.trades| <= k < |end.trades| ==> end.trades[k] in Records(attempts, now)
    ensures TradesToday(end.trades, dayStart) <= TradesToday(b.trades, dayStart)
            || TradesToday(end.trades, dayStart) <= maxDailyTrades
  {
    RunTrades(b, attempts, maxDailyTrades, dayStart, now);
    RunWithinLimit(b, attempts, maxDailyTrades, dayStart, now);
  }

  /**
   * A cycle appends one record per executed attempt to the trades and keeps
   * the earlier ones.
   */
  lemma {:induction false} RunTrades(b: Book, attempts: seq<TradingDecision>, maxDailyTrades: int, dayStart: int,
                                     now: int)
    requires b.portfolio.Some? && KeyedBySymbol(b.holdings)
    ensures var r := Run(b, attempts, maxDailyTrades, dayStart, now);
            && |r.book.trades| == |b.trades| + r.executed
            && r.book.trades[..|b.trades|] == b.trades
            && (forall k :: |b.trades| <= k < |r.book.trades| ==> r.book.trades[k] in Records(attempts, now))
    decreases |attempts|
  {
    if attempts != [] {
      var s := Step(b, attempts[0], maxDailyTrades, dayStart, now);
      if s.outcome != LimitReached {
        var next := s.book;
        var after := Run(next, attempts[1..], maxDailyTrades, dayStart, now).book.trades;
        RunTrades(next, attempts[1..], maxDailyTrades, dayStart, now);
        RecordsTail(attempts, now);
        if s.outcome == Executed {
          RecordOfAttempt(attempts, 0, now);
          ExtendedPrefix(b.trades, TradeRecord(attempts[0], attempts[0].action, now), after);
          forall k | |b.trades| < k < |after|
            ensures after[k] in Records(attempts, now)
          {
            assert after[k] in Records(attempts[1..], now);
          }
        }
      }
    }
  }

  /** A sequence that starts with `a + [t]` starts with `a` and has `t` right after it. */
  lemma ExtendedPrefix<T>(a: seq<T>, t: T, after: seq<T>)
    requires |a| + 1 <= |after| && after[..|a| + 1] == a + [t]
    ensures after[..|a|] == a && after[|a|] == t
  {
    assert after[..|a|] == after[..|a| + 1][..|a|];
    assert after[|a|] == after[..|a| + 1][|a|];
  }

  /**
   * A cycle never takes today's trade count past the daily limit unless the
   * count was already past it.
   */
  lemma {:induction false} RunWithinLimit(b: Book, attempts: seq<TradingDecision>, maxDailyTrades: int,
                                          dayStart: int, now: int)
    requires b.portfolio.Some? && KeyedBySymbol(b.holdings) && dayStart <= now
    ensures var after := Run(b, attempts, maxDailyTrades, dayStart, now).book;
            TradesToday(after.trades, dayStart) <= TradesToday(b.trades, dayStart)
            || TradesToday(after.trades, dayStart) <= maxDailyTrades
    decreases |attempts|
  {
    if attempts != [] {
      var s := Step(b, attempts[0], maxDailyTrades, dayStart, now);
      if s.outcome != LimitReached {
        RunWithinLimit(s.book, attempts[1..], maxDailyTrades, dayStart, now);
        if s.outcome == Executed {
          DailyLimitRespected(b.trades, TradeRecord(attempts[0], attempts[0].action, now), dayStart, maxDailyTrades);
        }
      }
    }
  }

  /** Every record of the later decisions is a record of the whole list. */
  lemma RecordsTail(ds: seq<TradingDecision>, now: int)
    requires ds != []
    ensures forall t :: t in Records(ds[1..], now) ==> t in Records(ds, now)
  {
    forall t | t in Records(ds[1..], now)
      ensures t in Records(ds, now)
    {
      var k :| 0 <= k < |ds| - 1 && Records(ds[1..], now)[k] == t;
      assert Records(ds, now)[k + 1] == t;
    }
  }

  /** The loop's account of `Run` after one more step. */
  lemma RunAdvance(start: Book, attempts: seq<TradingDecision>, i: nat, executed: nat, current: Book, outcome: Outcome,
                   next: Book, maxDailyTrades: int, dayStart: int, now: int)
    requires start.portfolio.Some? && KeyedBySymbol(start.holdings)
    requires current.portfolio.Some? && KeyedBySymbol(current.holdings) && i < |attempts|
    requires var rest := Run(current, attempts[i..], maxDailyTrades, dayStart, now);
             Run(start, attempts, maxDailyTrades, dayStart, now) == Cycle(executed + rest.executed, rest.book)
    requires outcome == Step(current, attempts[i], maxDailyTrades, dayStart, now).outcome
    requires next == Step(current, attempts[i], maxDailyTrades, dayStart, now).book
    ensures outcome == LimitReached ==> Run(start, attempts, maxDailyTrades, dayStart, now) == Cycle(executed, current)
    ensures outcome != LimitReached ==>
              var rest := Run(next, attempts[i + 1..], maxDailyTrades, dayStart, now);
              Run(start, attempts, maxDailyTrades, dayStart, now)
                == Cycle((if outcome == Executed then executed + 1 else executed) + rest.executed, rest.book)
  {
    RunFrom(current, attempts, i, maxDailyTrades, dayStart, now);
  }

  /** `Run` from position `i` takes one step, then runs on unless the limit was reached. */
  lemma RunFrom(b: Book, attempts: seq<TradingDecision>, i: nat, maxDailyTrades: int, dayStart: int, now: int)
    requires b.portfolio.Some? && KeyedBySymbol(b.holdings) && i < |attempts|
    ensures Step(b, attempts[i], maxDailyTrades, dayStart, now).outcome == LimitReached ==>
              Run(b, attempts[i..], maxDailyTrades, dayStart, now) == Cycle(0, b)
    ensures var s := Step(b, attempts[i], maxDailyTrades, dayStart, now);
            var rest := Run(s.book, attempts[i + 1..], maxDailyTrades, dayStart, now);
            s.outcome != LimitReached ==>
              Run(b, attempts[i..], maxDailyTrades, dayStart, now)
                == Cycle((if s.outcome == Executed then 1 else 0) + rest.executed, rest.book)
  {
    assert attempts[i..][0] == attempts[i] && attempts[i..][1..] == attempts[i + 1..];
  }

  /** The trade records of a list of decisions executed at `now`. */
  function Records(ds: seq<TradingDecision>, now: int): (r: seq<Trade>)
    ensures |r| == |ds|
    ensures forall k :: 0 <= k < |ds| ==> r[k] == TradeRecord(ds[k], ds[k].action, now)
  {
    seq(|ds|, k requires 0 <= k < |ds| => TradeRecord(ds[k], ds[k].action, now))
  }

  lemma RecordOfAttempt(ds: seq<TradingDecision>, i: nat, now: int)
    requires i < |ds|
    ensures TradeRecord(ds[i], ds[i].action, now) in Records(ds, now)
  {
    assert Records(ds, now)[i] == TradeRecord(ds[i], ds[i].action, now);
  }

  /** What became of one attempted decision. */
  datatype Outcome = LimitReached | Skipped | Executed

  /** One decision's outcome and the tables after it. */
  datatype Stepped = Stepped(outcome: Outcome, book: Book)

  /** The number of trades a cycle executed and the tables after it. */
  datatype Cycle = Cycle(executed: nat, book: Book)

  /**
   * One pass of the execution loop on the tables as values: stop at the
   * daily limit, skip a decision that fails validation against the current
   * cash and holdings or that `execute_trade` refuses, else commit it.
   */
  function Step(b: Book, d: TradingDecision, maxDailyTrades: int, dayStart: int, now: int): (r: Stepped)
    requires b.portfolio.Some? && KeyedBySymbol(b.holdings)
    ensures r.book.portfolio.Some? && KeyedBySymbol(r.book.holdings)
    ensures r.outcome != Executed ==> r.book == b
    ensures r.outcome == Executed ==> r.book.trades == b.trades + [TradeRecord(d, d.action, now)]
  {
    if !CanMakeTrade(b.trades, dayStart, maxDailyTrades) then Stepped(LimitReached, b)
    else if !AiService.ValidateTradingDecision(d, b.portfolio.value.cashBalance, HoldingsDict(b.holdings)) then Stepped(Skipped, b)
    else match Committed(b, d, now)
      case None => Stepped(Skipped, b)
      case Some(after) => Stepped(Executed, after)
  }

  /**
   * The execution loop of `_analyze_and_trade` on the tables as values: the
   * number of trades executed and the tables afterwards.
   */
  function Run(b: Book, attempts: seq<TradingDecision>, maxDailyTrades: int, dayStart: int, now: int): (r: Cycle)
    requires b.portfolio.Some? && KeyedBySymbol(b.holdings)
    ensures r.executed <= |attempts|
    ensures r.book.portfolio.Some? && KeyedBySymbol(r.book.holdings)
    decreases |attempts|
  {
    if attempts == [] then Cycle(0, b)
    else
      var s := Step(b, attempts[0], maxDailyTrades, dayStart, now);
      if s.outcome == LimitReached then Cycle(0, b)
      else
        var rest := Run(s.book, attempts[1..], maxDailyTrades, dayStart, now);
        Cycle((if s.outcome == Executed then 1 else 0) + rest.executed, rest.book)
  }

  /**
   * On a long-only book, a positive-quantity decision is executed exactly
   * when the daily limit allows a trade and it validates: validation and the
   * portfolio service agree.
   */
  lemma StepExecutesValidated(b: Book, d: TradingDecision, maxDailyTrades: int, dayStart: int, now: int)
    requires b.portfolio.Some? && KeyedBySymbol(b.holdings) && LongOnly(b.holdings) && d.quantity > 0
    ensures Step(b, d, maxDailyTrades, dayStart, now).outcome == Executed <==>
              && CanMakeTrade(b.trades, dayStart, maxDailyTrades)
              && AiService.ValidateTradingDecision(d, b.portfolio.value.cashBalance, HoldingsDict(b.holdings))
  {
    AiService.ValidatedDecisionsExecute(d, b.portfolio.value.cashBalance, b.holdings);
  }

  /**
   * A cycle of positive-quantity decisions at non-negative prices keeps the
   * cash balance non-negative and every position long.
   */
  lemma {:induction false} RunKeepsBook(b: Book, attempts: seq<TradingDecision>, maxDailyTrades: int, dayStart: int,
                                        now: int)
    requires b.portfolio.Some? && KeyedBySymbol(b.holdings)
    requires b.portfolio.value.cashBalance >= 0.0 && LongOnly(b.holdings)
    requires forall k :: 0 <= k < |attempts| ==> attempts[k].quantity > 0 && attempts[k].currentPrice >= 0.0
    ensures var after := Run(b, attempts, maxDailyTrades, dayStart, now).book;
            after.portfolio.value.cashBalance >= 0.0 && LongOnly(after.holdings)
    decreases |attempts|
  {
    if attempts != [] {
      var d := attempts[0];
      var next := Step(b, d, maxDailyTrades, dayStart, now).book;
      if Step(b, d, maxDailyTrades, dayStart, now).outcome == Executed {
        var p := b.portfolio.value;
        OrdersKeepLongOnly(p.cashBalance, b.holdings, d);
        if d.action == SELL {
          assert Cost(d) >= 0.0 by { MulNonNegative(d.quantity as real, d.currentPrice); }
        }
      }
      RunKeepsBook(next, attempts[1..], maxDailyTrades, dayStart, now);
    }
  }

  lemma MulNonNegative(x: real, y: real)
    requires x >= 0.0 && y >= 0.0
    ensures x * y >= 0.0
  {
  }

  /**
   * One iteration of the execution loop of `_analyze_and_trade`: stop at the
   * daily limit, skip a decision that fails validation against the current
   * cash and holdings or that the portfolio service refuses, else record it.
   */
  method TryDecision(ledger: Ledger, maxDailyTrades: int, d: TradingDecision, dayStart: int, now: int)
    returns (outcome: Outcome)
    requires ledger.Valid() && ledger.portfolio.Some? && dayStart <= now
    modifies ledger
    ensures ledger.Valid() && ledger.portfolio.Some?
    ensures outcome == LimitReached <==> !CanMakeTrade(old(ledger.trades), dayStart, maxDailyTrades)
    ensures outcome != Executed ==> unchanged(ledger)
    ensures outcome == Executed ==>
              AiService.ValidateTradingDecision(d, old(ledger.portfolio.value.cashBalance), HoldingsDict(old(ledger.holdings)))
    ensures outcome == Executed ==>
              && ledger.trades == old(ledger.trades) + [TradeRecord(d, d.action, now)]
              && TradesToday(ledger.trades, dayStart) == TradesToday(old(ledger.trades), dayStart) + 1
              && TradesToday(ledger.trades, dayStart) <= maxDailyTrades
    ensures Stepped(outcome, ledger.State()) == Step(old(ledger.State()), d, maxDailyTrades, dayStart, now)
  {
    if !CanMakeTrade(ledger.trades, dayStart, maxDailyTrades) {
      return LimitReached;
    }
    var currentHoldings := HoldingsDict(ledger.holdings);
    if !AiService.ValidateTradingDecision(d, ledger.portfolio.value.cashBalance, currentHoldings) {
      return Skipped;
    }
    var trade := ledger.ExecuteTrade(d, now);
    if trade.None? {
      return Skipped;
    }
    DailyLimitRespected(old(ledger.trades), trade.value, dayStart, maxDailyTrades);
    outcome := Executed;
  }
}
