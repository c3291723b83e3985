/**
 * The log endpoints (backend/app/routers/logs.py): adding activity and
 * trading log rows with their validation, listing recent activity, clearing
 * old rows, and the debug view that sorts recent trading logs into buckets
 * by level and by keyword.  Timestamps are whole seconds on the server
 * clock, passed in as `now`; "newest first" is the reverse of insertion
 * order.
 */
module LogsRouter {
  import opened Wrappers
  import opened Text
  import opened Models
  import opened Schemas

  // ---------------------------------------------------------------- helpers

  /** The elements of `s` satisfying `p`, in their order. */
  function Keep<T>(s: seq<T>, p: T -> bool): (r: seq<T>)
    ensures |r| <= |s|
  {
    if s == [] then [] else Keep(s[..|s| - 1], p) + (if p(s[|s| - 1]) then [s[|s| - 1]] else [])
  }

  /** An element is kept exactly when it is in the list and satisfies the condition. */
  lemma {:induction false} KeepMembers<T>(s: seq<T>, p: T -> bool, x: T)
    ensures x in Keep(s, p) <==> x in s && p(x)
  {
    if s != [] {
      KeepMembers(s[..|s| - 1], p, x);
      assert s == s[..|s| - 1] + [s[|s| - 1]];
    }
  }

  function Reverse<T>(s: seq<T>): (r: seq<T>)
    ensures |r| == |s|
    ensures forall k :: 0 <= k < |s| ==> r[k] == s[|s| - 1 - k]
  {
    if s == [] then [] else [s[|s| - 1]] + Reverse(s[..|s| - 1])
  }

  /** `.limit(n)` */
  function Limit<T>(s: seq<T>, n: nat): (r: seq<T>)
    ensures |r| == if n < |s| then n else |s|
    ensures r == s[..|r|]
  {
    if n < |s| then s[..n] else s
  }

  // ---------------------------------------------------------------- validation

  const TRADING_LOG_LEVELS := ["INFO", "WARNING", "ERROR", "SUCCESS"]

  const MISSING_FIELDS := HttpError(400, "Both 'action' and 'details' are required")
  const INVALID_LEVEL := HttpError(400, "Invalid level. Must be one of: INFO, WARNING, ERROR, SUCCESS")
  const INTERNAL_ERROR := HttpError(500, "Internal server error")

  /** Python truthiness of an optional string: present and non-empty. */
  predicate Truthy(s: Option<string>) {
    s.Some? && s.value != ""
  }

  /** A trade id is truthy when present and not 0. */
  predicate TruthyId(id: Option<int>) {
    id.Some? && id.value != 0
  }

  // ---------------------------------------------------------------- the debug view

  const API_KEYWORDS := ["api", "rate limit", "quota", "request"]
  const TRADE_KEYWORDS := ["trade", "buy", "sell", "order"]

  /** Some keyword occurs in the lower-cased message. */
  predicate MentionsAny(message: string, keywords: seq<string>) {
    exists k :: 0 <= k < |keywords| && Contains(Lower(message), keywords[k])
  }

  predicate IsApiCall(l: TradingLog) {
    MentionsAny(l.message, API_KEYWORDS)
  }

  predicate IsTradeLog(l: TradingLog) {
    TruthyId(l.tradeId) || MentionsAny(l.message, TRADE_KEYWORDS)
  }

  /** The `debug_info` of `get_debug_info`. */
  datatype DebugInfo = DebugInfo(
    recentActivity: seq<ActivityLog>,
    recentTrading: seq<TradingLog>,
    errors: seq<TradingLog>,
    warnings: seq<TradingLog>,
    info: seq<TradingLog>,
    apiCalls: seq<TradingLog>,
    trades: seq<TradingLog>,
    summary: DebugSummary)

  datatype DebugSummary = DebugSummary(
    totalActivityLogs: nat,
    totalTradingLogs: nat,
    errorCount: nat,
    warningCount: nat,
    infoCount: nat,
    apiCallCount: nat,
    tradeCount: nat)

  function LevelIs(level: string): TradingLog -> bool {
    (l: TradingLog) => l.level == level
  }

  /** The logs of one exact level. */
  function AtLevel(logs: seq<TradingLog>, level: string): seq<TradingLog> {
    Keep(logs, LevelIs(level))
  }

  function ApiCalls(logs: seq<TradingLog>): seq<TradingLog> {
    Keep(logs, IsApiCall)
  }

  function TradeLogs(logs: seq<TradingLog>): seq<TradingLog> {
    Keep(logs, IsTradeLog)
  }

  /**
   * A trading log sits in the errors, warnings or info bucket exactly when
   * its level is that one, so in at most one of them, and a SUCCESS log in
   * none; it is an API call or a trade exactly by its keywords and trade id.
   */
  lemma BucketMembership(logs: seq<TradingLog>, l: TradingLog)
    requires l in logs
    ensures l in AtLevel(logs, "ERROR") <==> l.level == "ERROR"
    ensures l in AtLevel(logs, "WARNING") <==> l.level == "WARNING"
    ensures l in AtLevel(logs, "INFO") <==> l.level == "INFO"
    ensures l in AtLevel(logs, "ERROR") ==> l !in AtLevel(logs, "WARNING") && l !in AtLevel(logs, "INFO")
    ensures l in AtLevel(logs, "WARNING") ==> l !in AtLevel(logs, "INFO")
    ensures l.level == "SUCCESS" ==>
              l !in AtLevel(logs, "ERROR") && l !in AtLevel(logs, "WARNING") && l !in AtLevel(logs, "INFO")
    ensures l in ApiCalls(logs) <==> IsApiCall(l)
    ensures l in TradeLogs(logs) <==> IsTradeLog(l)
  {
    KeepMembers(logs, LevelIs("ERROR"), l);
    KeepMembers(logs, LevelIs("WARNING"), l);
    KeepMembers(logs, LevelIs("INFO"), l);
    KeepMembers(logs, IsApiCall, l);
    KeepMembers(logs, IsTradeLog, l);
  }

  /** A log with a truthy trade id is a trade log whatever its message says. */
  lemma TradeIdMakesTradeLog(logs: seq<TradingLog>, l: TradingLog)
    requires l in logs && TruthyId(l.tradeId)
    ensures l in TradeLogs(logs)
  {
    KeepMembers(logs, IsTradeLog, l);
  }

  function TradingSince(cutoff: int): TradingLog -> bool {
    (l: TradingLog) => l.timestamp >= cutoff
  }

  function ActivitySince(cutoff: int): ActivityLog -> bool {
    (l: ActivityLog) => l.timestamp >= cutoff
  }

  /** The trading rows that are not older than the cutoff. */
  function NotOlderThan(logs: seq<TradingLog>, cutoff: int): seq<TradingLog> {
    Keep(logs, TradingSince(cutoff))
  }

  /** The activity rows that are not older than the cutoff. */
  function ActivityNotOlderThan(logs: seq<ActivityLog>, cutoff: int): seq<ActivityLog> {
    Keep(logs, ActivitySince(cutoff))
  }

  const SECONDS_PER_DAY := 86400

  /** The activity rows `get_activity_logs` returns: those since the cutoff, newest first, at most `limit`. */
  function RecentActivity(logs: seq<ActivityLog>, since: int, limit: nat): (r: seq<ActivityLog>)
    ensures |r| <= limit
    ensures forall k :: 0 <= k < |r| ==> r[k].timestamp >= since && r[k] in logs
    ensures var w := ActivityNotOlderThan(logs, since);
              && |r| == (if limit <= |w| then limit else |w|)
              && forall k :: 0 <= k < |r| ==> r[k] == w[|w| - 1 - k]
  {
    var recent := Reverse(ActivityNotOlderThan(logs, since));
    forall k | 0 <= k < |Limit(recent, limit)|
      ensures Limit(recent, limit)[k].timestamp >= since && Limit(recent, limit)[k] in logs
    {
      var x := recent[k];
      assert x in ActivityNotOlderThan(logs, since);
      KeepMembers(logs, ActivitySince(since), x);
    }
    Limit(recent, limit)
  }

  /**
   * The log tables.  Ids come from per-table counters that only grow, as the
   * database's sequences do.
   */
  class LogStore {
    var activityLogs: seq<ActivityLog>
    var tradingLogs: seq<TradingLog>
    var nextActivityId: nat
    var nextTradingId: nat

    constructor ()
      ensures activityLogs == [] && tradingLogs == [] && nextActivityId == 1 && nextTradingId == 1
    {
      activityLogs, tradingLogs := [], [];
      nextActivityId, nextTradingId := 1, 1;
    }

    /** `add_activity_log`: 400 and nothing stored unless both fields are non-empty. */
    method AddActivityLog(action: Option<string>, details: Option<string>, now: int) returns (r: HttpResult<nat>)
      modifies this
      ensures !(Truthy(action) && Truthy(details)) ==> r == Fail(MISSING_FIELDS) && unchanged(this)
      ensures Truthy(action) && Truthy(details) ==>
                && r == Ok(old(nextActivityId))
                && activityLogs == old(activityLogs) + [ActivityLog(old(nextActivityId), action.value, details.value, now)]
                && nextActivityId == old(nextActivityId) + 1
                && tradingLogs == old(tradingLogs) && nextTradingId == old(nextTradingId)
    {
      if !Truthy(action) || !Truthy(details) {
        return Fail(MISSING_FIELDS);
      }
      var id := nextActivityId;
      activityLogs := activityLogs + [ActivityLog(id, action.value, details.value, now)];
      nextActivityId := nextActivityId + 1;
      r := Ok(id);
    }

    /**
     * `add_trading_log`: 400 and nothing stored for a level outside the four
     * accepted ones; a missing message violates the column's NOT NULL and the
     * insert is rolled back with a 500.
     */
    method AddTradingLog(level: Option<string>, message: Option<string>, symbol: Option<string>,
                         tradeId: Option<int>, now: int) returns (r: HttpResult<nat>)
      modifies this
      ensures !(level.Some? && level.value in TRADING_LOG_LEVELS) ==> r == Fail(INVALID_LEVEL) && unchanged(this)
      ensures level.Some? && level.value in TRADING_LOG_LEVELS && message.None? ==> r == Fail(INTERNAL_ERROR) && unchanged(this)
      ensures r.Ok? ==>
                && level.Some? && level.value in TRADING_LOG_LEVELS && message.Some?
                && r.value == old(nextTradingId)
                && tradingLogs == old(tradingLogs) + [TradingLog(old(nextTradingId), level.value, message.value, symbol, tradeId, now)]
                && nextTradingId == old(nextTradingId) + 1
                && activityLogs == old(activityLogs) && nextActivityId == old(nextActivityId)
      ensures level.Some? && level.value in TRADING_LOG_LEVELS && message.Some? ==> r.Ok?
    {
      if level.None? || level.value !in TRADING_LOG_LEVELS {
        return Fail(INVALID_LEVEL);
      }
      if message.None? {
        return Fail(INTERNAL_ERROR);
      }
      var id := nextTradingId;
      tradingLogs := tradingLogs + [TradingLog(id, level.value, message.value, symbol, tradeId, now)];
      nextTradingId := nextTradingId + 1;
      r := Ok(id);
    }

    /** `get_activity_logs`: the newest `limit` activity rows of the last `hours` hours, newest first. */
    function GetActivityLogs(limit: nat, hours: nat, now: int): (r: seq<ActivityLog>)
      requires 1 <= limit <= 100 && 1 <= hours <= 168
      reads this
      ensures |r| <= limit
      ensures forall k :: 0 <= k < |r| ==> r[k] in activityLogs && r[k].timestamp >= now - hours * 3600
      ensures var w := ActivityNotOlderThan(activityLogs, now - hours * 3600);
                && |r| == (if limit <= |w| then limit else |w|)
                && forall k :: 0 <= k < |r| ==> r[k] == w[|w| - 1 - k]
    {
      RecentActivity(activityLogs, now - hours * 3600, limit)
    }

    /**
     * `clear_activity_logs` as written: it deletes the TRADING log rows older
     * than `days` days and leaves the activity log alone.
     */
    method ClearActivityLogsAsWritten(days: int, now: int) returns (deleted: nat)
      requires 1 <= days <= 30
      modifies this
      ensures tradingLogs == NotOlderThan(old(tradingLogs), now - days * SECONDS_PER_DAY)
      ensures deleted == |old(tradingLogs)| - |tradingLogs|
      ensures activityLogs == old(activityLogs)
      ensures nextActivityId == old(nextActivityId) && nextTradingId == old(nextTradingId)
    {
      var kept := NotOlderThan(tradingLogs, now - days * SECONDS_PER_DAY);
      deleted := |tradingLogs| - |kept|;
      tradingLogs := kept;
    }

    /** `clear_activity_logs` as its route and name describe it: old activity rows go. */
    method ClearActivityLogs(days: int, now: int) returns (deleted: nat)
      requires 1 <= days <= 30
      modifies this
      ensures activityLogs == ActivityNotOlderThan(old(activityLogs), now - days * SECONDS_PER_DAY)
      ensures deleted == |old(activityLogs)| - |activityLogs|
      ensures tradingLogs == old(tradingLogs)
      ensures nextActivityId == old(nextActivityId) && nextTradingId == old(nextTradingId)
    {
      var kept := ActivityNotOlderThan(activityLogs, now - days * SECONDS_PER_DAY);
      deleted := |activityLogs| - |kept|;
      activityLogs := kept;
    }

    /**
     * `get_debug_info`: the newest `limit // 2` rows of each table; every
     * trading row goes to the bucket of its level and to the API-call and
     * trade buckets its message and trade id call for, in query order, and
     * the summary counts the buckets.
     */
    method GetDebugInfo(limit: int) returns (d: DebugInfo)
      requires 1 <= limit <= 200
      ensures |d.recentActivity| <= limit / 2 && |d.recentTrading| <= limit / 2
      ensures d.recentActivity == Limit(Reverse(activityLogs), limit / 2)
      ensures d.recentTrading == Limit(Reverse(tradingLogs), limit / 2)
      ensures d.errors == AtLevel(d.recentTrading, "ERROR")
      ensures d.warnings == AtLevel(d.recentTrading, "WARNING")
      ensures d.info == AtLevel(d.recentTrading, "INFO")
      ensures d.apiCalls == ApiCalls(d.recentTrading)
      ensures d.trades == TradeLogs(d.recentTrading)
      ensures d.summary == DebugSummary(|d.recentActivity|, |d.recentTrading|, |d.errors|, |d.warnings|,
                                        |d.info|, |d.apiCalls|, |d.trades|)
    {
      var activity := Limit(Reverse(activityLogs), limit / 2);
      var trading := Limit(Reverse(tradingLogs), limit / 2);
      var errors, warnings, info, apiCalls, trades := [], [], [], [], [];
      var i := 0;
      while i < |trading|
        invariant 0 <= i <= |trading|
        invariant errors == AtLevel(trading[..i], "ERROR")
        invariant warnings == AtLevel(trading[..i], "WARNING")
        invariant info == AtLevel(trading[..i], "INFO")
        invariant apiCalls == ApiCalls(trading[..i])
        invariant trades == TradeLogs(trading[..i])
      {
        var l := trading[i];
        assert trading[..i + 1][..i] == trading[..i];
        assert trading[..i + 1][i] == l;
        if l.level == "ERROR" {
          errors := errors + [l];
        } else if l.level == "WARNING" {
          warnings := warnings + [l];
        } else if l.level == "INFO" {
          info := info + [l];
        }
        if IsApiCall(l) {
          apiCalls := apiCalls + [l];
        }
        if IsTradeLog(l) {
          trades := trades + [l];
        }
        i := i + 1;
      }
      assert trading[..|trading|] == trading;
      d := DebugInfo(activity, trading, errors, warnings, info, apiCalls, trades,
                     DebugSummary(|activity|, |trading|, |errors|, |warnings|, |info|, |apiCalls|, |trades|));
    }
  }

  /**
   * The discrepancy in `clear_activity_logs`: an activity row thirty days
   * old is left in place by the call as written (which never touches the
   * activity table), although it is older than the seven-day cutoff and the
   * corrected call removes it.
   */
  lemma ClearingLeavesOldActivity()
    ensures var row := ActivityLog(1, "BOT_STARTED", "started", 0);
            var now := 30 * SECONDS_PER_DAY;
            var cutoff := now - 7 * SECONDS_PER_DAY;
            && row.timestamp < cutoff
            && ActivityNotOlderThan([row], cutoff) == []
            && ActivityNotOlderThan([row], cutoff) != [row]
  {
    var row := ActivityLog(1, "BOT_STARTED", "started", 0);
    assert [row][..0] == [];
  }

  /** The corrected clearing keeps exactly the activity rows not older than the cutoff. */
  lemma ClearedActivitySpec(logs: seq<ActivityLog>, cutoff: int, x: ActivityLog)
    ensures x in ActivityNotOlderThan(logs, cutoff) <==> x in logs && x.timestamp >= cutoff
  {
    KeepMembers(logs, ActivitySince(cutoff), x);
  }

  /** The clearing as written keeps exactly the trading rows not older than the cutoff. */
  lemma ClearedTradingSpec(logs: seq<TradingLog>, cutoff: int, x: TradingLog)
    ensures x in NotOlderThan(logs, cutoff) <==> x in logs && x.timestamp >= cutoff
  {
    KeepMembers(logs, TradingSince(cutoff), x);
  }
}
