/**
 * The paper-trading ledger (backend/app/services/portfolio_service.py): one
 * portfolio with a cash balance, at most one holding per symbol, and the
 * append-only list of executed trades.  Market prices arrive inside the
 * trading decision; the clock is a parameter.
 */
module PortfolioService {
  import opened Wrappers
  import opened Models
  import opened Schemas

  // ---------------------------------------------------------------- sums over holdings

  /** The two per-holding amounts the service adds up. */
  datatype Measure = CostBasisOf | MarketValueOf

  /** `quantity * average_cost` or `quantity * current_price` of one holding. */
  function Worth(h: Holding, m: Measure): real {
    match m
    case CostBasisOf => h.quantity as real * h.averageCost
    case MarketValueOf => h.quantity as real * h.currentPrice
  }

  ghost function Pick(m: map<string, Holding>): string
    requires m != map[]
  {
    var k :| k in m; k
  }

  /** Sum of a measure over every holding (the order of addition is immaterial). */
  ghost function SumOf(m: map<string, Holding>, which: Measure): real
    decreases m.Keys
  {
    if m == map[] then 0.0
    else
      var k := Pick(m);
      Worth(m[k], which) + SumOf(m - {k}, which)
  }

  /** Σ quantity × average cost: the money put into the open positions. */
  ghost function CostBasis(m: map<string, Holding>): real {
    SumOf(m, CostBasisOf)
  }

  /** Σ quantity × current price: what the open positions are worth now. */
  ghost function MarketValue(m: map<string, Holding>): real {
    SumOf(m, MarketValueOf)
  }

  /** The sum may be taken apart at any holding. */
  lemma {:induction false} SumOfRemove(m: map<string, Holding>, which: Measure, k: string)
    requires k in m
    ensures SumOf(m, which) == Worth(m[k], which) + SumOf(m - {k}, which)
    decreases m.Keys
  {
    var j := Pick(m);
    if j != k {
      SumOfRemove(m - {j}, which, k);
      SumOfRemove(m - {k}, which, j);
      assert m - {j} - {k} == m - {k} - {j};
    }
  }

  /** Replacing (or adding) one holding changes the sum by the difference of its terms. */
  lemma SumOfUpdate(m: map<string, Holding>, which: Measure, k: string, h: Holding)
    ensures SumOf(m[k := h], which) ==
            SumOf(m, which) - (if k in m then Worth(m[k], which) else 0.0) + Worth(h, which)
  {
    SumOfRemove(m[k := h], which, k);
    assert m[k := h] - {k} == m - {k};
    if k in m {
      SumOfRemove(m, which, k);
    } else {
      assert m - {k} == m;
    }
  }

  // ---------------------------------------------------------------- buying and selling

  /** `total_cost` / `total_proceeds`: quantity × price of the decision. */
  function Cost(d: TradingDecision): real {
    d.quantity as real * d.currentPrice
  }

  /** Holdings are keyed by their own symbol (the query filters on `Holdings.symbol`). */
  predicate KeyedBySymbol(holdings: map<string, Holding>) {
    forall s :: s in holdings ==> holdings[s].symbol == s
  }

  /** Every open position holds shares (there is no short sale). */
  predicate LongOnly(holdings: map<string, Holding>) {
    forall s :: s in holdings ==> holdings[s].quantity > 0
  }

  /**
   * `_execute_buy_order` commits: the cash covers the cost, and the new average
   * cost can be computed (a zero total share count raises `ZeroDivisionError`,
   * which rolls the session back).
   */
  predicate BuyAccepted(cash: real, holdings: map<string, Holding>, d: TradingDecision) {
    && cash >= Cost(d)
    && !(d.symbol in holdings && holdings[d.symbol].quantity + d.quantity == 0)
  }

  /** The holding of `d.symbol` after a committed BUY. */
  function BoughtHolding(holdings: map<string, Holding>, d: TradingDecision): (h: Holding)
    requires !(d.symbol in holdings && holdings[d.symbol].quantity + d.quantity == 0)
    ensures h.symbol == (if d.symbol in holdings then holdings[d.symbol].symbol else d.symbol)
    ensures h.quantity == (if d.symbol in holdings then holdings[d.symbol].quantity else 0) + d.quantity
    ensures Worth(h, CostBasisOf) ==
            (if d.symbol in holdings then Worth(holdings[d.symbol], CostBasisOf) else 0.0) + Cost(d)
    ensures d.symbol !in holdings ==> h.averageCost == d.currentPrice
    ensures h.currentPrice == d.currentPrice
  {
    if d.symbol in holdings then
      var old_ := holdings[d.symbol];
      var totalShares := old_.quantity + d.quantity;
      var totalCostBasis := old_.quantity as real * old_.averageCost + Cost(d);
      var h := old_.(averageCost := totalCostBasis / totalShares as real, quantity := totalShares,
                     currentPrice := d.currentPrice);
      assert totalShares as real * (totalCostBasis / totalShares as real) == totalCostBasis;
      h
    else
      Holding(d.symbol, d.quantity, d.currentPrice, d.currentPrice)
  }

  function BuyHoldings(holdings: map<string, Holding>, d: TradingDecision): map<string, Holding>
    requires !(d.symbol in holdings && holdings[d.symbol].quantity + d.quantity == 0)
  {
    holdings[d.symbol := BoughtHolding(holdings, d)]
  }

  /** `_execute_sell_order` commits: the symbol is held, in at least the quantity sold. */
  predicate SellAccepted(holdings: map<string, Holding>, d: TradingDecision) {
    d.symbol in holdings && holdings[d.symbol].quantity >= d.quantity
  }

  /** The holdings after a committed SELL: reduced, and deleted when none remain. */
  function SellHoldings(holdings: map<string, Holding>, d: TradingDecision): (r: map<string, Holding>)
    requires SellAccepted(holdings, d)
    ensures d.symbol !in r <==> holdings[d.symbol].quantity == d.quantity
    ensures d.symbol in r ==>
              && r[d.symbol].quantity == holdings[d.symbol].quantity - d.quantity
              && r[d.symbol].averageCost == holdings[d.symbol].averageCost
              && r[d.symbol].currentPrice == d.currentPrice
              && r[d.symbol].symbol == holdings[d.symbol].symbol
    ensures forall s :: s != d.symbol ==> (s in r <==> s in holdings) && (s in r ==> r[s] == holdings[s])
  {
    var h := holdings[d.symbol];
    if h.quantity - d.quantity == 0 then holdings - {d.symbol}
    else holdings[d.symbol := h.(quantity := h.quantity - d.quantity, currentPrice := d.currentPrice)]
  }

  /** The `trades` row written by a committed order, stamped by the server clock. */
  function TradeRecord(d: TradingDecision, action: TradeAction, now: int): (t: Trade)
    ensures t.totalAmount == t.quantity as real * t.price
    ensures t.symbol == d.symbol && t.action == action && t.quantity == d.quantity && t.price == d.currentPrice
  {
    Trade(d.symbol, action, d.quantity, d.currentPrice, Cost(d), Some(d.reasoning), now)
  }

  /** A BUY raises the money invested by exactly its cost. */
  lemma BuyCostBasis(holdings: map<string, Holding>, d: TradingDecision)
    requires !(d.symbol in holdings && holdings[d.symbol].quantity + d.quantity == 0)
    ensures CostBasis(BuyHoldings(holdings, d)) == CostBasis(holdings) + Cost(d)
  {
    SumOfUpdate(holdings, CostBasisOf, d.symbol, BoughtHolding(holdings, d));
  }

  /** A SELL lowers the money invested by the sold shares at their average cost. */
  lemma SellCostBasis(holdings: map<string, Holding>, d: TradingDecision)
    requires SellAccepted(holdings, d)
    ensures CostBasis(SellHoldings(holdings, d)) ==
            CostBasis(holdings) - d.quantity as real * holdings[d.symbol].averageCost
  {
    var h := holdings[d.symbol];
    var r := SellHoldings(holdings, d);
    SellShape(holdings, d);
    if h.quantity == d.quantity {
      assert r == holdings - {d.symbol};
      SumOfRemove(holdings, CostBasisOf, d.symbol);
      assert Worth(h, CostBasisOf) == d.quantity as real * h.averageCost;
    } else {
      var nh := h.(quantity := h.quantity - d.quantity, currentPrice := d.currentPrice);
      assert r == holdings[d.symbol := nh];
      SellPartCostBasis(holdings, d.symbol, h, nh, d.quantity);
    }
  }

  /** Selling `q` of a holding's shares lowers the money invested by `q` at the average cost. */
  lemma SellPartCostBasis(holdings: map<string, Holding>, symbol: string, h: Holding, nh: Holding, q: int)
    requires symbol in holdings && holdings[symbol] == h
    requires nh.quantity == h.quantity - q && nh.averageCost == h.averageCost
    ensures SumOf(holdings[symbol := nh], CostBasisOf) == SumOf(holdings, CostBasisOf) - q as real * h.averageCost
  {
    SumOfUpdate(holdings, CostBasisOf, symbol, nh);
    SplitProduct(h.quantity - q, q, h.averageCost);
  }

  /** The two shapes a committed SELL leaves the holdings in. */
  lemma SellShape(holdings: map<string, Holding>, d: TradingDecision)
    requires SellAccepted(holdings, d)
    ensures var h := holdings[d.symbol];
            h.quantity == d.quantity ==> SellHoldings(holdings, d) == holdings - {d.symbol}
    ensures var h := holdings[d.symbol];
            h.quantity != d.quantity ==>
              SellHoldings(holdings, d) ==
              holdings[d.symbol := h.(quantity := h.quantity - d.quantity, currentPrice := d.currentPrice)]
  {
  }

  /** (a + b) × p == a × p + b × p, kept apart so that no other proof sees the product. */
  lemma SplitProduct(a: int, b: int, p: real)
    ensures (a + b) as real * p == a as real * p + b as real * p
  {
  }

  /**
   * Trading at the price the position is already marked at moves money between
   * cash and shares without changing the portfolio's total value.
   */
  lemma BuyAtMarkKeepsValue(cash: real, holdings: map<string, Holding>, d: TradingDecision)
    requires BuyAccepted(cash, holdings, d)
    requires d.symbol in holdings ==> holdings[d.symbol].currentPrice == d.currentPrice
    ensures (cash - Cost(d)) + MarketValue(BuyHoldings(holdings, d)) == cash + MarketValue(holdings)
  {
    var h := BoughtHolding(holdings, d);
    SumOfUpdate(holdings, MarketValueOf, d.symbol, h);
    var oq := if d.symbol in holdings then holdings[d.symbol].quantity else 0;
    assert h.quantity == oq + d.quantity && h.currentPrice == d.currentPrice;
    SplitProduct(oq, d.quantity, d.currentPrice);
    assert Worth(h, MarketValueOf) == oq as real * d.currentPrice + Cost(d);
  }

  lemma SellAtMarkKeepsValue(cash: real, holdings: map<string, Holding>, d: TradingDecision)
    requires SellAccepted(holdings, d)
    requires holdings[d.symbol].currentPrice == d.currentPrice
    ensures (cash + Cost(d)) + MarketValue(SellHoldings(holdings, d)) == cash + MarketValue(holdings)
  {
    var h := holdings[d.symbol];
    var r := SellHoldings(holdings, d);
    SumOfRemove(holdings, MarketValueOf, d.symbol);
    if h.quantity != d.quantity {
      var nh := h.(quantity := h.quantity - d.quantity, currentPrice := d.currentPrice);
      assert r == holdings[d.symbol := nh];
      SumOfUpdate(holdings, MarketValueOf, d.symbol, nh);
      SoldWorth(h, d);
    } else {
      assert r == holdings - {d.symbol};
      assert Worth(h, MarketValueOf) == Cost(d);
    }
  }

  lemma SoldWorth(h: Holding, d: TradingDecision)
    requires h.currentPrice == d.currentPrice
    ensures Worth(h.(quantity := h.quantity - d.quantity, currentPrice := d.currentPrice), MarketValueOf)
            == Worth(h, MarketValueOf) - Cost(d)
  {
    assert (h.quantity - d.quantity) as real * d.currentPrice
        == h.quantity as real * d.currentPrice - d.quantity as real * d.currentPrice;
  }

  /** Orders for a positive number of shares keep every position long. */
  lemma OrdersKeepLongOnly(cash: real, holdings: map<string, Holding>, d: TradingDecision)
    requires LongOnly(holdings)
    ensures BuyAccepted(cash, holdings, d) && d.quantity > 0 ==> LongOnly(BuyHoldings(holdings, d))
    ensures SellAccepted(holdings, d) ==> LongOnly(SellHoldings(holdings, d))
  {
  }

  // ---------------------------------------------------------------- trading statistics

  /** The trades of one symbol, in the order they were executed. */
  function SymbolTrades(ts: seq<Trade>, s: string): (r: seq<Trade>)
    ensures |r| <= |ts|
    ensures forall k :: 0 <= k < |r| ==> r[k].symbol == s
  {
    if ts == [] then []
    else SymbolTrades(ts[..|ts| - 1], s) + (if ts[|ts| - 1].symbol == s then [ts[|ts| - 1]] else [])
  }

  /** The traded symbols in the order of their first trade (the grouping dict's key order). */
  function SymbolOrder(ts: seq<Trade>): seq<string> {
    if ts == [] then []
    else
      var o := SymbolOrder(ts[..|ts| - 1]);
      if ts[|ts| - 1].symbol in o then o else o + [ts[|ts| - 1].symbol]
  }

  /** Every traded symbol occurs in the order exactly once, and nothing else does. */
  lemma {:induction false} SymbolOrderSpec(ts: seq<Trade>)
    ensures forall i, j :: 0 <= i < j < |SymbolOrder(ts)| ==> SymbolOrder(ts)[i] != SymbolOrder(ts)[j]
    ensures forall s :: s in SymbolOrder(ts) <==> exists k :: 0 <= k < |ts| && ts[k].symbol == s
  {
    if ts != [] {
      var prefix := ts[..|ts| - 1];
      var last := ts[|ts| - 1];
      var o := SymbolOrder(prefix);
      SymbolOrderSpec(prefix);
      assert SymbolOrder(ts) == if last.symbol in o then o else o + [last.symbol];
      forall s | s in SymbolOrder(ts)
        ensures exists k :: 0 <= k < |ts| && ts[k].symbol == s
      {
        if s in o {
          var k :| 0 <= k < |prefix| && prefix[k].symbol == s;
          assert ts[k].symbol == s;
        } else {
          assert last.symbol == s;
        }
      }
      forall s | exists k :: 0 <= k < |ts| && ts[k].symbol == s
        ensures s in SymbolOrder(ts)
      {
        var k :| 0 <= k < |ts| && ts[k].symbol == s;
        if k < |prefix| {
          assert prefix[k].symbol == s;
          assert s in o;
        }
      }
    }
  }

  lemma SymbolTradesSnoc(ts: seq<Trade>, t: Trade, s: string)
    ensures SymbolTrades(ts + [t], s) == SymbolTrades(ts, s) + (if t.symbol == s then [t] else [])
  {
    assert (ts + [t])[..|ts|] == ts;
  }

  lemma SymbolOrderSnoc(ts: seq<Trade>, t: Trade)
    ensures SymbolOrder(ts + [t]) == if t.symbol in SymbolOrder(ts) then SymbolOrder(ts) else SymbolOrder(ts) + [t.symbol]
  {
    assert (ts + [t])[..|ts|] == ts;
  }

  /** Some trade of the group has the given action (`buys` / `sells` is non-empty). */
  predicate HasAction(group: seq<Trade>, a: TradeAction) {
    exists k :: 0 <= k < |group| && group[k].action == a
  }

  /** `sum(t['quantity'] for t in …)` over the trades with action `a`. */
  function Quantity(group: seq<Trade>, a: TradeAction): int {
    if group == [] then 0
    else Quantity(group[..|group| - 1], a) + (if group[|group| - 1].action == a then group[|group| - 1].quantity else 0)
  }

  /** `sum(t['total'] for t in …)` over the trades with action `a`. */
  function Amount(group: seq<Trade>, a: TradeAction): real {
    if group == [] then 0.0
    else Amount(group[..|group| - 1], a) + (if group[|group| - 1].action == a then group[|group| - 1].totalAmount else 0.0)
  }

  /**
   * What one symbol contributes: nothing unless it was both bought and sold;
   * otherwise the average sell price minus the average buy price, weighted by
   * the smaller side.  A zero share total on either side makes the division
   * fail, and the whole computation with it.
   */
  datatype Outcome = Open | Closed(ret: real, matched: int) | Undefined

  function OutcomeOf(group: seq<Trade>): Outcome {
    if !HasAction(group, BUY) || !HasAction(group, SELL) then Open
    else
      var bought := Quantity(group, BUY);
      var sold := Quantity(group, SELL);
      if bought == 0 || sold == 0 then Undefined
      else Closed(Amount(group, SELL) / sold as real - Amount(group, BUY) / bought as real,
                  if bought <= sold then bought else sold)
  }

  /** The `(return, matched shares)` of every closed symbol of `order`, or `None` once a division fails. */
  function ClosedReturns(ts: seq<Trade>, order: seq<string>): Option<seq<(real, int)>> {
    if order == [] then Some([])
    else
      match ClosedReturns(ts, order[..|order| - 1])
      case None => None
      case Some(rs) =>
        match OutcomeOf(SymbolTrades(ts, order[|order| - 1]))
        case Open => Some(rs)
        case Undefined => None
        case Closed(r, m) => Some(rs + [(r, m)])
  }

  /** One more symbol of `order` extends the returns by its outcome. */
  lemma ClosedReturnsStep(ts: seq<Trade>, order: seq<string>, j: nat, rs: seq<(real, int)>)
    requires j < |order| && ClosedReturns(ts, order[..j]) == Some(rs)
    ensures ClosedReturns(ts, order[..j + 1]) ==
            match OutcomeOf(SymbolTrades(ts, order[j]))
            case Open => Some(rs)
            case Undefined => None
            case Closed(r, m) => Some(rs + [(r, m)])
  {
    assert order[..j + 1][..j] == order[..j];
    assert order[..j + 1][j] == order[j];
  }

  /** Once a division has failed, the whole computation has failed. */
  lemma {:induction false} ClosedReturnsFailurePersists(ts: seq<Trade>, order: seq<string>, j: nat)
    requires j <= |order|
    requires ClosedReturns(ts, order[..j]).None?
    ensures ClosedReturns(ts, order).None?
    decreases |order| - j
  {
    if j < |order| {
      assert order[..j + 1][..j] == order[..j];
      ClosedReturnsFailurePersists(ts, order, j + 1);
    } else {
      assert order[..j] == order;
    }
  }

  /** Number of strictly positive returns. */
  function Wins(rs: seq<(real, int)>): (n: nat)
    ensures n <= |rs|
  {
    if rs == [] then 0 else Wins(rs[..|rs| - 1]) + (if rs[|rs| - 1].0 > 0.0 then 1 else 0)
  }

  /** Number of returns that are not positive: a return of exactly zero is a loss. */
  function Losses(rs: seq<(real, int)>): (n: nat)
    ensures n <= |rs|
  {
    if rs == [] then 0 else Losses(rs[..|rs| - 1]) + (if rs[|rs| - 1].0 <= 0.0 then 1 else 0)
  }

  /** `total_profit_loss`: Σ return × matched shares. */
  function ProfitLoss(rs: seq<(real, int)>): real {
    if rs == [] then 0.0 else ProfitLoss(rs[..|rs| - 1]) + rs[|rs| - 1].0 * rs[|rs| - 1].1 as real
  }

  function SumReturns(rs: seq<(real, int)>): real {
    if rs == [] then 0.0 else SumReturns(rs[..|rs| - 1]) + rs[|rs| - 1].0
  }

  /** `max(trade_returns)` */
  function MaxReturn(rs: seq<(real, int)>): real
    requires rs != []
  {
    if |rs| == 1 then rs[0].0
    else
      var m := MaxReturn(rs[..|rs| - 1]);
      if rs[|rs| - 1].0 > m then rs[|rs| - 1].0 else m
  }

  /** `min(trade_returns)` */
  function MinReturn(rs: seq<(real, int)>): real
    requires rs != []
  {
    if |rs| == 1 then rs[0].0
    else
      var m := MinReturn(rs[..|rs| - 1]);
      if rs[|rs| - 1].0 < m then rs[|rs| - 1].0 else m
  }

  /** The best and worst trade are the largest and smallest return, and both occur. */
  lemma {:induction false} ExtremeReturns(rs: seq<(real, int)>)
    requires rs != []
    ensures forall k :: 0 <= k < |rs| ==> MinReturn(rs) <= rs[k].0 <= MaxReturn(rs)
    ensures exists k :: 0 <= k < |rs| && rs[k].0 == MaxReturn(rs)
    ensures exists k :: 0 <= k < |rs| && rs[k].0 == MinReturn(rs)
  {
    if |rs| > 1 {
      var p := rs[..|rs| - 1];
      var last := rs[|rs| - 1].0;
      ExtremeReturns(p);
      assert MaxReturn(rs) == if last > MaxReturn(p) then last else MaxReturn(p);
      assert MinReturn(rs) == if last < MinReturn(p) then last else MinReturn(p);
      forall k | 0 <= k < |rs|
        ensures MinReturn(rs) <= rs[k].0 <= MaxReturn(rs)
      {
        if k < |p| {
          assert rs[k] == p[k];
        }
      }
      var i :| 0 <= i < |p| && p[i].0 == MaxReturn(p);
      var j :| 0 <= j < |p| && p[j].0 == MinReturn(p);
      assert rs[i] == p[i] && rs[j] == p[j];
      if last <= MaxReturn(p) {
        assert rs[i].0 == MaxReturn(rs);
      } else {
        assert rs[|rs| - 1].0 == MaxReturn(rs);
      }
      if last >= MinReturn(p) {
        assert rs[j].0 == MinReturn(rs);
      } else {
        assert rs[|rs| - 1].0 == MinReturn(rs);
      }
    } else {
      assert rs[0].0 == MaxReturn(rs) && rs[0].0 == MinReturn(rs);
    }
  }

  /** The statistics reported for a list of closed returns. */
  function StatsFromReturns(totalTrades: nat, rs: seq<(real, int)>): TradingStats {
    var w := Wins(rs);
    var l := Losses(rs);
    TradingStats(
      totalTrades, w, l,
      if w + l > 0 then w as real / (w + l) as real * 100.0 else 0.0,
      ProfitLoss(rs),
      if rs != [] then SumReturns(rs) / |rs| as real else 0.0,
      if rs != [] then Some(MaxReturn(rs)) else None,
      if rs != [] then Some(MinReturn(rs)) else None)
  }

  /** `get_trading_stats` as a function of the trades table; `None` when it fails. */
  function StatsOf(ts: seq<Trade>): Option<TradingStats> {
    if ts == [] then Some(TradingStats(0, 0, 0, 0.0, 0.0, 0.0, None, None))
    else
      match ClosedReturns(ts, SymbolOrder(ts))
      case None => None
      case Some(rs) => Some(StatsFromReturns(|ts|, rs))
  }

  /** The symbols of `order` that were both bought and sold. */
  function BothSides(ts: seq<Trade>, order: seq<string>): nat {
    if order == [] then 0
    else
      var g := SymbolTrades(ts, order[|order| - 1]);
      BothSides(ts, order[..|order| - 1]) + (if HasAction(g, BUY) && HasAction(g, SELL) then 1 else 0)
  }

  lemma {:induction false} ClosedReturnsCount(ts: seq<Trade>, order: seq<string>)
    requires ClosedReturns(ts, order).Some?
    ensures |ClosedReturns(ts, order).value| == BothSides(ts, order)
  {
    if order != [] {
      ClosedReturnsCount(ts, order[..|order| - 1]);
    }
  }

  lemma {:induction false} WinsPlusLosses(rs: seq<(real, int)>)
    ensures Wins(rs) + Losses(rs) == |rs|
  {
    if rs != [] {
      WinsPlusLosses(rs[..|rs| - 1]);
    }
  }

  lemma MulMono(c: real, a: real, b: real)
    requires 0.0 <= c && a <= b
    ensures c * a <= c * b
  {
  }

  lemma {:induction false} AverageBetweenExtremes(rs: seq<(real, int)>)
    requires rs != []
    ensures |rs| as real * MinReturn(rs) <= SumReturns(rs) <= |rs| as real * MaxReturn(rs)
  {
    var p := rs[..|rs| - 1];
    var x := rs[|rs| - 1].0;
    assert SumReturns(rs) == SumReturns(p) + x;
    if |rs| == 1 {
      assert p == [];
    } else {
      AverageBetweenExtremes(p);
      ExtremesStep(rs);
      StepBound(|p| as real, |rs| as real, SumReturns(p), x, MinReturn(p), MinReturn(rs), MaxReturn(p), MaxReturn(rs));
    }
  }

  /** The extremes of a list bound those of its prefix and its last return. */
  lemma ExtremesStep(rs: seq<(real, int)>)
    requires |rs| > 1
    ensures var p, x := rs[..|rs| - 1], rs[|rs| - 1].0;
            && MinReturn(rs) <= MinReturn(p) && MinReturn(rs) <= x
            && MaxReturn(p) <= MaxReturn(rs) && x <= MaxReturn(rs)
  {
  }

  /** One more term keeps the running sum between count × minimum and count × maximum. */
  lemma StepBound(n: real, m: real, sum: real, x: real, lo: real, lo': real, hi: real, hi': real)
    requires 0.0 <= n && m == n + 1.0 && n * lo <= sum <= n * hi
    requires lo' <= lo && lo' <= x && hi <= hi' && x <= hi'
    ensures m * lo' <= sum + x <= m * hi'
  {
    MulMono(n, lo', lo);
    MulMono(n, hi, hi');
  }

  lemma DivBounds(s: real, n: real, lo: real, hi: real)
    requires n > 0.0 && n * lo <= s <= n * hi
    ensures lo <= s / n <= hi
  {
  }

  lemma RateBound(w: nat, total: nat)
    requires 0 < total && w <= total
    ensures 0.0 <= w as real / total as real * 100.0 <= 100.0
  {
    DivBounds(w as real, total as real, 0.0, 1.0);
  }

  /**
   * The promises of the statistics: no trades gives all zeros; otherwise every
   * symbol traded on both sides is counted once as a win or a loss, the win
   * rate is a percentage, and the average return lies between the worst and the
   * best one.
   */
  lemma StatsProperties(ts: seq<Trade>)
    ensures ts == [] ==> StatsOf(ts) == Some(TradingStats(0, 0, 0, 0.0, 0.0, 0.0, None, None))
    ensures StatsOf(ts).Some? ==>
              var st := StatsOf(ts).value;
              && st.totalTrades == |ts|
              && st.winningTrades + st.losingTrades == BothSides(ts, SymbolOrder(ts))
              && 0.0 <= st.winRate <= 100.0
              && (st.bestTrade.Some? <==> st.worstTrade.Some?)
              && (st.bestTrade.Some? ==>
                    st.worstTrade.value <= st.averageTradeReturn <= st.bestTrade.value)
  {
    if ts != [] && StatsOf(ts).Some? {
      var rs := ClosedReturns(ts, SymbolOrder(ts)).value;
      ClosedReturnsCount(ts, SymbolOrder(ts));
      StatsFromReturnsProperties(|ts|, rs);
    }
  }

  lemma StatsFromReturnsProperties(totalTrades: nat, rs: seq<(real, int)>)
    ensures var st := StatsFromReturns(totalTrades, rs);
            && st.winningTrades + st.losingTrades == |rs|
            && 0.0 <= st.winRate <= 100.0
            && (st.bestTrade.Some? <==> rs != []) && (st.worstTrade.Some? <==> rs != [])
            && (rs != [] ==> st.worstTrade.value <= st.averageTradeReturn <= st.bestTrade.value)
  {
    WinsPlusLosses(rs);
    StatsWinRate(totalTrades, rs);
    if rs != [] {
      StatsAverage(totalTrades, rs);
    }
  }

  lemma StatsWinRate(totalTrades: nat, rs: seq<(real, int)>)
    ensures 0.0 <= StatsFromReturns(totalTrades, rs).winRate <= 100.0
  {
    var w, l := Wins(rs), Losses(rs);
    if w + l > 0 {
      RateBound(w, w + l);
    }
  }

  lemma StatsAverage(totalTrades: nat, rs: seq<(real, int)>)
    requires rs != []
    ensures var st := StatsFromReturns(totalTrades, rs);
            st.worstTrade == Some(MinReturn(rs)) && st.bestTrade == Some(MaxReturn(rs))
            && MinReturn(rs) <= st.averageTradeReturn <= MaxReturn(rs)
  {
    AverageBounds(rs);
  }

  /** The mean of the returns lies between the smallest and the largest. */
  lemma AverageBounds(rs: seq<(real, int)>)
    requires rs != []
    ensures MinReturn(rs) <= SumReturns(rs) / |rs| as real <= MaxReturn(rs)
  {
    AverageBetweenExtremes(rs);
    DivBounds(SumReturns(rs), |rs| as real, MinReturn(rs), MaxReturn(rs));
  }

  /** A sell at exactly the average buy price is reported as a loss, not a win. */
  lemma BreakEvenIsLoss(buy: Trade, sell: Trade)
    requires buy.symbol == sell.symbol && buy.action == BUY && sell.action == SELL
    requires buy.quantity == sell.quantity > 0 && buy.totalAmount == sell.totalAmount
    ensures StatsOf([buy, sell]).Some?
    ensures StatsOf([buy, sell]).value.winningTrades == 0
    ensures StatsOf([buy, sell]).value.losingTrades == 1
  {
    var ts := [buy, sell];
    assert ts[..1] == [buy] && ts[..1][..0] == [];
    assert SymbolOrder(ts[..1]) == [buy.symbol];
    assert SymbolOrder(ts) == [buy.symbol];
    assert SymbolTrades(ts[..1], buy.symbol) == [buy];
    assert SymbolTrades(ts, buy.symbol) == [buy, sell];
    BreakEvenOutcome(buy, sell);
    assert [buy.symbol][..0] == [];
    assert ClosedReturns(ts, [buy.symbol][..0]) == Some([]);
    var rs: seq<(real, int)> := [(0.0, buy.quantity)];
    var none: seq<(real, int)> := [];
    assert none + rs == rs;
    assert OutcomeOf(SymbolTrades(ts, [buy.symbol][0])) == Closed(0.0, buy.quantity);
    assert ClosedReturns(ts, [buy.symbol]) == Some(none + [(0.0, buy.quantity)]);
    assert ClosedReturns(ts, SymbolOrder(ts)) == Some(rs);
    assert rs[..0] == [];
    assert Wins(rs) == 0 && Losses(rs) == 1;
  }

  lemma BreakEvenOutcome(buy: Trade, sell: Trade)
    requires buy.action == BUY && sell.action == SELL
    requires buy.quantity == sell.quantity > 0 && buy.totalAmount == sell.totalAmount
    ensures OutcomeOf([buy, sell]) == Closed(0.0, buy.quantity)
  {
    var g := [buy, sell];
    var b1 := [buy];
    assert b1[..0] == [] && g[..1] == b1;
    assert HasAction(g, BUY) && HasAction(g, SELL) by {
      assert g[0].action == BUY && g[1].action == SELL;
    }
    assert Quantity(b1, BUY) == Quantity([], BUY) + buy.quantity;
    assert Quantity(b1, SELL) == Quantity([], SELL);
    assert Amount(b1, BUY) == Amount([], BUY) + buy.totalAmount;
    assert Amount(b1, SELL) == Amount([], SELL);
    assert Quantity(g, BUY) == buy.quantity && Quantity(g, SELL) == sell.quantity;
    assert Amount(g, BUY) == buy.totalAmount && Amount(g, SELL) == sell.totalAmount;
  }

  /** Trades for a positive number of shares never make the statistics fail. */
  lemma {:induction false} PositiveQuantitiesGiveStats(ts: seq<Trade>, order: seq<string>)
    requires forall k :: 0 <= k < |ts| ==> ts[k].quantity > 0
    ensures ClosedReturns(ts, order).Some?
  {
    if order != [] {
      PositiveQuantitiesGiveStats(ts, order[..|order| - 1]);
      var g := SymbolTrades(ts, order[|order| - 1]);
      SymbolTradesFrom(ts, order[|order| - 1]);
      PositiveQuantity(g, BUY);
      PositiveQuantity(g, SELL);
    }
  }

  lemma {:induction false} SymbolTradesFrom(ts: seq<Trade>, s: string)
    ensures forall k :: 0 <= k < |SymbolTrades(ts, s)| ==> SymbolTrades(ts, s)[k] in ts
  {
    if ts != [] {
      SymbolTradesFrom(ts[..|ts| - 1], s);
      assert forall t :: t in ts[..|ts| - 1] ==> t in ts;
    }
  }

  lemma {:induction false} PositiveQuantity(g: seq<Trade>, a: TradeAction)
    requires forall k :: 0 <= k < |g| ==> g[k].quantity > 0
    ensures HasAction(g, a) ==> Quantity(g, a) > 0
    ensures Quantity(g, a) >= 0
  {
    if g != [] {
      var p := g[..|g| - 1];
      PositiveQuantity(p, a);
      if HasAction(g, a) && g[|g| - 1].action != a {
        var k :| 0 <= k < |g| && g[k].action == a;
        assert p[k].action == a;
      }
    }
  }

  // ---------------------------------------------------------------- history and daily limit

  /**
   * `get_trading_history`: newest first, skipping `offset` trades and keeping
   * at most `limit`.  Rows are stamped by the server clock as they are
   * inserted, so newest first is the reverse of insertion order.
   */
  function TradingHistory(trades: seq<Trade>, limit: nat, offset: nat): (page: seq<Trade>)
    ensures |page| == (if offset >= |trades| then 0 else if |trades| - offset < limit then |trades| - offset else limit)
    ensures forall k :: 0 <= k < |page| ==> page[k] == trades[|trades| - 1 - offset - k]
  {
    if offset >= |trades| || limit == 0 then []
    else [trades[|trades| - 1 - offset]] + TradingHistory(trades, limit - 1, offset + 1)
  }

  /** Trades recorded with non-decreasing clock readings come back newest first. */
  lemma HistoryNewestFirst(trades: seq<Trade>, limit: nat, offset: nat)
    requires forall i, j :: 0 <= i < j < |trades| ==> trades[i].executedAt <= trades[j].executedAt
    ensures var page := TradingHistory(trades, limit, offset);
            forall i, j :: 0 <= i < j < |page| ==> page[i].executedAt >= page[j].executedAt
  {
  }

  /** `get_current_holdings_dict`: symbol ↦ (quantity, average cost, current price). */
  function HoldingsDict(holdings: map<string, Holding>): (r: map<string, (int, real, real)>)
    requires KeyedBySymbol(holdings)
    ensures forall s :: s in holdings ==>
              holdings[s].symbol in r
              && r[holdings[s].symbol] == (holdings[s].quantity, holdings[s].averageCost, holdings[s].currentPrice)
    ensures forall s :: s in r ==> exists t :: t in holdings && holdings[t].symbol == s
  {
    map s | s in holdings :: (holdings[s].quantity, holdings[s].averageCost, holdings[s].currentPrice)
  }

  /** `get_trades_today`: trades executed at or after the start of today. */
  function TradesToday(trades: seq<Trade>, dayStart: int): (n: nat)
    ensures n <= |trades|
  {
    if trades == [] then 0
    else TradesToday(trades[..|trades| - 1], dayStart) + (if trades[|trades| - 1].executedAt >= dayStart then 1 else 0)
  }

  /** `can_make_trade` */
  predicate CanMakeTrade(trades: seq<Trade>, dayStart: int, maxDailyTrades: int) {
    TradesToday(trades, dayStart) < maxDailyTrades
  }

  /**
   * The daily limit holds: a trade recorded today, when another trade was
   * still allowed, brings today's count up by one and never past the limit.
   */
  lemma DailyLimitRespected(trades: seq<Trade>, t: Trade, dayStart: int, maxDailyTrades: int)
    requires CanMakeTrade(trades, dayStart, maxDailyTrades)
    requires t.executedAt >= dayStart
    ensures TradesToday(trades + [t], dayStart) == TradesToday(trades, dayStart) + 1
    ensures TradesToday(trades + [t], dayStart) <= maxDailyTrades
  {
    assert (trades + [t])[..|trades|] == trades;
  }

  /** The first loop of `get_trading_stats`: the trades of each symbol, and the symbols in dict order. */
  method GroupBySymbol(trades: seq<Trade>) returns (groups: map<string, seq<Trade>>, order: seq<string>)
    ensures order == SymbolOrder(trades)
    ensures forall s :: s in groups <==> s in order
    ensures forall s :: s in groups ==> groups[s] == SymbolTrades(trades, s)
  {
    groups, order := map[], [];
    var i := 0;
    while i < |trades|
      invariant 0 <= i <= |trades|
      invariant order == SymbolOrder(trades[..i])
      invariant forall s :: s in groups <==> s in order
      invariant forall s :: s in groups ==> groups[s] == SymbolTrades(trades[..i], s)
      invariant forall s :: s !in groups ==> SymbolTrades(trades[..i], s) == []
    {
      var t := trades[i];
      assert trades[..i + 1] == trades[..i] + [t];
      SymbolOrderSnoc(trades[..i], t);
      forall s {
        SymbolTradesSnoc(trades[..i], t, s);
      }
      if t.symbol !in groups {
        groups := groups[t.symbol := []];
        order := order + [t.symbol];
      }
      groups := groups[t.symbol := groups[t.symbol] + [t]];
      i := i + 1;
    }
    assert trades[..|trades|] == trades;
  }

  /** The portfolio row, the holdings and the trades, as one value. */
  datatype Book = Book(portfolio: Option<Portfolio>, holdings: map<string, Holding>, trades: seq<Trade>)

  /**
   * The tables after `execute_trade` commits `d`, or `None` when it returns
   * nothing and rolls back: no portfolio, a BUY the cash does not cover (or
   * whose average cost cannot be computed), a SELL of more than is held.
   */
  function Committed(b: Book, d: TradingDecision, now: int): (r: Option<Book>)
    ensures r.Some? <==> b.portfolio.Some? && (if d.action == BUY then BuyAccepted(b.portfolio.value.cashBalance, b.holdings, d)
                                               else SellAccepted(b.holdings, d))
    ensures r.Some? ==> && r.value.portfolio.Some?
                        && r.value.portfolio.value.totalValue == b.portfolio.value.totalValue
                        && r.value.trades == b.trades + [TradeRecord(d, d.action, now)]
    ensures r.Some? && d.action == BUY ==> r.value.portfolio.value.cashBalance == b.portfolio.value.cashBalance - Cost(d) >= 0.0
    ensures r.Some? && d.action == SELL ==> r.value.portfolio.value.cashBalance == b.portfolio.value.cashBalance + Cost(d)
    ensures r.Some? && KeyedBySymbol(b.holdings) ==> KeyedBySymbol(r.value.holdings)
  {
    if b.portfolio.None? then None
    else
      var p := b.portfolio.value;
      match d.action
      case BUY =>
        if BuyAccepted(p.cashBalance, b.holdings, d) then
          Some(Book(Some(p.(cashBalance := p.cashBalance - Cost(d))), BuyHoldings(b.holdings, d),
                    b.trades + [TradeRecord(d, BUY, now)]))
        else None
      case SELL =>
        if SellAccepted(b.holdings, d) then
          Some(Book(Some(p.(cashBalance := p.cashBalance + Cost(d))), SellHoldings(b.holdings, d),
                    b.trades + [TradeRecord(d, SELL, now)]))
        else None
  }

  // ---------------------------------------------------------------- the ledger

  /** The tables the service reads and writes. */
  class Ledger {
    var portfolio: Option<Portfolio>
    var holdings: map<string, Holding>
    var trades: seq<Trade>

    ghost predicate Valid()
      reads this
    {
      KeyedBySymbol(holdings)
    }

    /** The three tables as a value. */
    function State(): Book
      reads this
    {
      Book(portfolio, holdings, trades)
    }

    constructor ()
      ensures Valid()
      ensures portfolio.None? && holdings == map[] && trades == []
    {
      portfolio, holdings, trades := None, map[], [];
    }

    /** `initialize_portfolio`: keep an existing portfolio, otherwise open one with `initialBalance`. */
    method InitializePortfolio(initialBalance: real) returns (p: Portfolio)
      modifies this
      ensures portfolio == Some(p)
      ensures old(portfolio).Some? ==> p == old(portfolio).value
      ensures old(portfolio).None? ==> p == Portfolio(initialBalance, initialBalance)
      ensures holdings == old(holdings) && trades == old(trades)
    {
      if portfolio.Some? {
        return portfolio.value;
      }
      p := Portfolio(initialBalance, initialBalance);
      portfolio := Some(p);
    }

    /** `_execute_buy_order` */
    method ExecuteBuy(d: TradingDecision, now: int) returns (trade: Option<Trade>)
      requires Valid() && portfolio.Some?
      modifies this
      ensures Valid()
      ensures !BuyAccepted(old(portfolio.value.cashBalance), old(holdings), d) ==>
                trade.None? && unchanged(this)
      ensures BuyAccepted(old(portfolio.value.cashBalance), old(holdings), d) ==>
                && trade == Some(TradeRecord(d, BUY, now))
                && portfolio == Some(old(portfolio.value).(cashBalance := old(portfolio.value.cashBalance) - Cost(d)))
                && portfolio.value.cashBalance >= 0.0
                && holdings == BuyHoldings(old(holdings), d)
                && trades == old(trades) + [trade.value]
    {
      var cash := portfolio.value.cashBalance;
      var totalCost := Cost(d);
      if cash < totalCost {
        return None;
      }
      if d.symbol in holdings && holdings[d.symbol].quantity + d.quantity == 0 {
        // the average-cost division fails and the session is rolled back
        return None;
      }
      portfolio := Some(portfolio.value.(cashBalance := cash - totalCost));
      holdings := holdings[d.symbol := BoughtHolding(holdings, d)];
      var t := TradeRecord(d, BUY, now);
      trades := trades + [t];
      return Some(t);
    }

    /** `_execute_sell_order` */
    method ExecuteSell(d: TradingDecision, now: int) returns (trade: Option<Trade>)
      requires Valid() && portfolio.Some?
      modifies this
      ensures Valid()
      ensures !SellAccepted(old(holdings), d) ==> trade.None? && unchanged(this)
      ensures SellAccepted(old(holdings), d) ==>
                && trade == Some(TradeRecord(d, SELL, now))
                && portfolio == Some(old(portfolio.value).(cashBalance := old(portfolio.value.cashBalance) + Cost(d)))
                && holdings == SellHoldings(old(holdings), d)
                && trades == old(trades) + [trade.value]
    {
      if d.symbol !in holdings || holdings[d.symbol].quantity < d.quantity {
        return None;
      }
      var totalProceeds := Cost(d);
      portfolio := Some(portfolio.value.(cashBalance := portfolio.value.cashBalance + totalProceeds));
      var h := holdings[d.symbol];
      var remaining := h.quantity - d.quantity;
      if remaining == 0 {
        holdings := holdings - {d.symbol};
      } else {
        holdings := holdings[d.symbol := h.(quantity := remaining, currentPrice := d.currentPrice)];
      }
      var t := TradeRecord(d, SELL, now);
      trades := trades + [t];
      return Some(t);
    }

    /** `execute_trade`: nothing happens without a portfolio. */
    method ExecuteTrade(d: TradingDecision, now: int) returns (trade: Option<Trade>)
      requires Valid()
      modifies this
      ensures Valid()
      ensures old(portfolio).None? ==> trade.None? && unchanged(this)
      ensures trade.None? ==> unchanged(this)
      ensures trade.Some? ==>
                && old(portfolio).Some? && portfolio.Some?
                && trade.value == TradeRecord(d, d.action, now)
                && trades == old(trades) + [trade.value]
                && (d.action == BUY ==>
                      && BuyAccepted(old(portfolio.value.cashBalance), old(holdings), d)
                      && portfolio.value.cashBalance == old(portfolio.value.cashBalance) - Cost(d)
                      && holdings == BuyHoldings(old(holdings), d))
                && (d.action == SELL ==>
                      && SellAccepted(old(holdings), d)
                      && portfolio.value.cashBalance == old(portfolio.value.cashBalance) + Cost(d)
                      && holdings == SellHoldings(old(holdings), d))
      ensures old(portfolio).Some? && d.action == BUY && BuyAccepted(old(portfolio.value.cashBalance), old(holdings), d) ==> trade.Some?
      ensures old(portfolio).Some? && d.action == SELL && SellAccepted(old(holdings), d) ==> trade.Some?
      ensures trade.Some? <==> Committed(old(State()), d, now).Some?
      ensures trade.Some? ==> State() == Committed(old(State()), d, now).value
    {
      if portfolio.None? {
        return None;
      }
      match d.action
      case BUY => trade := ExecuteBuy(d, now);
      case SELL => trade := ExecuteSell(d, now);
    }

    /** `get_trading_stats`: group the trades by symbol, then total up every closed symbol. */
    method GetTradingStats() returns (stats: Option<TradingStats>)
      ensures stats == StatsOf(trades)
    {
      if trades == [] {
        return Some(TradingStats(0, 0, 0, 0.0, 0.0, 0.0, None, None));
      }
      var groups, order := GroupBySymbol(trades);
      var tradeReturns: seq<(real, int)> := [];
      var j := 0;
      while j < |order|
        invariant 0 <= j <= |order|
        invariant ClosedReturns(trades, order[..j]) == Some(tradeReturns)
      {
        assert groups[order[j]] == SymbolTrades(trades, order[j]);
        var outcome := OutcomeOf(groups[order[j]]);
        ClosedReturnsStep(trades, order, j, tradeReturns);
        if outcome.Undefined? {
          ClosedReturnsFailurePersists(trades, order, j + 1);
          return None;
        } else if outcome.Closed? {
          tradeReturns := tradeReturns + [(outcome.ret, outcome.matched)];
        }
        j := j + 1;
      }
      assert order[..|order|] == order;
      return Some(StatsFromReturns(|trades|, tradeReturns));
    }

    /**
     * `get_portfolio_summary` with the holdings' current prices already
     * refreshed: values the holdings, stores the new total value and reports
     * the return against `initialBalance`.
     */
    method GetPortfolioSummary(initialBalance: real) returns (summary: Option<PortfolioSummary>)
      modifies this
      ensures old(portfolio).None? ==> summary.None? && unchanged(this)
      ensures old(portfolio).Some? ==>
                && summary.Some?
                && summary.value.cashBalance == old(portfolio).value.cashBalance
                && summary.value.totalValue == summary.value.cashBalance + MarketValue(holdings)
                && summary.value.totalInvested == CostBasis(holdings)
                && summary.value.totalReturn == summary.value.totalValue - initialBalance
                && (initialBalance > 0.0 ==>
                      summary.value.returnPercentage == summary.value.totalReturn / initialBalance * 100.0)
                && (initialBalance <= 0.0 ==> summary.value.returnPercentage == 0.0)
                && summary.value.holdingsCount == |holdings|
                && portfolio == Some(old(portfolio).value.(totalValue := summary.value.totalValue))
      ensures holdings == old(holdings) && trades == old(trades)
    {
      if portfolio.None? {
        return None;
      }
      var totalInvested := 0.0;
      var currentHoldingsValue := 0.0;
      var rest := holdings;
      while rest != map[]
        invariant portfolio == old(portfolio) && holdings == old(holdings) && trades == old(trades)
        invariant totalInvested + CostBasis(rest) == CostBasis(holdings)
        invariant currentHoldingsValue + MarketValue(rest) == MarketValue(holdings)
        decreases rest.Keys
      {
        var s :| s in rest;
        SumOfRemove(rest, CostBasisOf, s);
        SumOfRemove(rest, MarketValueOf, s);
        totalInvested := totalInvested + Worth(rest[s], CostBasisOf);
        currentHoldingsValue := currentHoldingsValue + Worth(rest[s], MarketValueOf);
        rest := rest - {s};
      }
      var totalValue := portfolio.value.cashBalance + currentHoldingsValue;
      portfolio := Some(portfolio.value.(totalValue := totalValue));
      var totalReturn := totalValue - initialBalance;
      var returnPercentage := if initialBalance > 0.0 then totalReturn / initialBalance * 100.0 else 0.0;
      summary := Some(PortfolioSummary(portfolio.value.cashBalance, totalValue, totalInvested, totalReturn,
                                       returnPercentage, |holdings|));
    }
  }
}
