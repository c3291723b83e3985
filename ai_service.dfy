/**
 * The deterministic parts of the AI trading service
 * (backend/app/services/ai_service.py): the cash a position may use, the
 * parser that turns the model's free-text reply into a trading decision, the
 * feasibility check of a decision, and the `SYMBOL: sentiment` line parser.
 * The reply text itself is an input.
 */
module AiService {
  import opened Wrappers
  import opened Text
  import opened Models
  import opened Schemas
  import PortfolioService

  // ---------------------------------------------------------------- available cash

  /** `available_cash = min(portfolio_cash, portfolio_value * max_position_size)` */
  function AvailableCash(portfolioCash: real, portfolioValue: real, maxPositionSize: real): (r: real)
    ensures r <= portfolioCash && r <= portfolioValue * maxPositionSize
    ensures r == portfolioCash || r == portfolioValue * maxPositionSize
  {
    var maxInvestment := portfolioValue * maxPositionSize;
    if portfolioCash <= maxInvestment then portfolioCash else maxInvestment
  }

  // ---------------------------------------------------------------- regular-expression pieces

  /** End of the maximal whitespace run starting at `i` (what a greedy `\s*` consumes). */
  function SkipSpaces(s: string, i: nat): (j: nat)
    requires i <= |s|
    ensures i <= j <= |s|
    ensures forall k :: i <= k < j ==> IsSpace(s[k])
    ensures j == |s| || !IsSpace(s[j])
    decreases |s| - i
  {
    if i < |s| && IsSpace(s[i]) then SkipSpaces(s, i + 1) else i
  }

  /** End of the maximal digit run starting at `i` (what a greedy `\d+` consumes). */
  function DigitRunEnd(s: string, i: nat): (j: nat)
    requires i <= |s|
    ensures i <= j <= |s|
    ensures forall k :: i <= k < j ==> IsDigit(s[k])
    ensures j == |s| || !IsDigit(s[j])
    decreases |s| - i
  {
    if i < |s| && IsDigit(s[i]) then DigitRunEnd(s, i + 1) else i
  }

  /** `lit` occurs at `i` when letters are compared without regard to case (`re.IGNORECASE`). */
  predicate OccursAtIgnoreCase(s: string, lit: string, i: nat) {
    i + |lit| <= |s| && forall j :: 0 <= j < |lit| ==> UpperChar(s[i + j]) == UpperChar(lit[j])
  }

  const ACTION_LABEL: string := "ACTION:"
  const QUANTITY_LABEL: string := "QUANTITY:"
  const CONFIDENCE_LABEL: string := "CONFIDENCE:"
  const REASONING_LABEL: string := "REASONING:"

  /** The alternatives of `(BUY|SELL|HOLD)`. */
  datatype Verdict = BuyVerdict | SellVerdict | HoldVerdict

  /** The action word at `j`, tried in the order the alternation lists them. */
  function ActionWordAt(s: string, j: nat): Option<Verdict> {
    if OccursAtIgnoreCase(s, "BUY", j) then Some(BuyVerdict)
    else if OccursAtIgnoreCase(s, "SELL", j) then Some(SellVerdict)
    else if OccursAtIgnoreCase(s, "HOLD", j) then Some(HoldVerdict)
    else None
  }

  /** `LABEL\s*(\d+)` matches at `i` (case-sensitive). */
  predicate NumberAt(s: string, tag: string, i: nat) {
    && OccursAt(s, tag, i)
    && var j := SkipSpaces(s, i + |tag|);
       j < |s| && IsDigit(s[j])
  }

  /** The four searches of `_parse_ai_response`. */
  datatype Pattern = ActionPattern | QuantityPattern | ConfidencePattern | ReasoningPattern

  /**
   * The pattern matches starting at `i`.  `REASONING:\s*(.+?)(?:\n|$)` (with
   * `re.DOTALL`) matches wherever its label is followed by at least one more
   * character: the lazy group then runs to the next newline or the end.
   */
  predicate MatchAt(p: Pattern, s: string, i: nat) {
    match p
    case ActionPattern =>
      OccursAtIgnoreCase(s, ACTION_LABEL, i) && ActionWordAt(s, SkipSpaces(s, i + |ACTION_LABEL|)).Some?
    case QuantityPattern => NumberAt(s, QUANTITY_LABEL, i)
    case ConfidencePattern => NumberAt(s, CONFIDENCE_LABEL, i)
    case ReasoningPattern => OccursAt(s, REASONING_LABEL, i) && i + |REASONING_LABEL| < |s|
  }

  /** `re.search`: the leftmost position at or after `i` where the pattern matches. */
  function LeftmostMatch(p: Pattern, s: string, i: nat): (r: Option<nat>)
    requires i <= |s|
    ensures r.Some? ==> i <= r.value <= |s| && MatchAt(p, s, r.value)
    ensures r.Some? ==> forall m :: i <= m < r.value ==> !MatchAt(p, s, m)
    ensures r.None? ==> forall m :: i <= m <= |s| ==> !MatchAt(p, s, m)
    decreases |s| - i
  {
    if MatchAt(p, s, i) then Some(i)
    else if i == |s| then None
    else LeftmostMatch(p, s, i + 1)
  }

  /** The action of the first `ACTION:` match, upper-cased. */
  function ParsedAction(s: string): Option<Verdict> {
    match LeftmostMatch(ActionPattern, s, 0)
    case None => None
    case Some(k) => ActionWordAt(s, SkipSpaces(s, k + |ACTION_LABEL|))
  }

  /** `int(m.group(1))` for the first match of `LABEL\s*(\d+)`. */
  function ParsedNumber(s: string, p: Pattern): Option<nat>
    requires p == QuantityPattern || p == ConfidencePattern
  {
    var tag := if p == QuantityPattern then QUANTITY_LABEL else CONFIDENCE_LABEL;
    match LeftmostMatch(p, s, 0)
    case None => None
    case Some(k) =>
      var j := SkipSpaces(s, k + |tag|);
      Some(DigitsValue(s[j..DigitRunEnd(s, j)]))
  }

  const DEFAULT_REASONING: string := "AI analysis completed"

  /** The reasoning text of a `REASONING:` match at `k`: the rest of its line after the spaces, stripped. */
  function ReasoningAt(s: string, k: nat): string
    requires k + |REASONING_LABEL| <= |s|
  {
    Strip(RestOfLine(s, SkipSpaces(s, k + |REASONING_LABEL|)))
  }

  /** The text from `w` up to the next newline or the end. */
  function RestOfLine(s: string, w: nat): string
    requires w <= |s|
  {
    s[w..w + Find(s[w..], '\n')]
  }

  /** The reasoning of the first `REASONING:` match, or a default text. */
  function ParsedReasoning(s: string): string {
    match LeftmostMatch(ReasoningPattern, s, 0)
    case None => DEFAULT_REASONING
    case Some(k) => ReasoningAt(s, k)
  }

  /** `max(1, min(10, c))` */
  function ClampConfidence(c: int): (r: int)
    ensures ValidConfidence(r)
    ensures ValidConfidence(c) ==> r == c
  {
    if c > 10 then 10 else if c < 1 then 1 else c
  }

  /** Python's `int(x)` on a float: truncation toward zero. */
  function Trunc(x: real): (n: int)
    ensures x >= 0.0 ==> n as real <= x < n as real + 1.0
    ensures x < 0.0 ==> n as real - 1.0 < x <= n as real
  {
    if x >= 0.0 then x.Floor else -((-x).Floor)
  }

  /** The note appended to the reasoning when a BUY is scaled down. */
  function AdjustmentNote(original: int, adjusted: int): string {
    " (Adjusted quantity from " + IntToString(original) + " to " + IntToString(adjusted)
    + " shares based on available cash)"
  }

  /** The fields of a reply that names a BUY or SELL of a positive quantity. */
  datatype ReplyFields = ReplyFields(action: TradeAction, quantity: nat, confidence: int, reasoning: string)

  /**
   * The searches of `_parse_ai_response`: nothing for a missing action, a
   * HOLD, or a missing or zero quantity; otherwise the action, the quantity,
   * the clamped confidence (5 when absent) and the reasoning.
   */
  function ReadFields(response: string): (f: Option<ReplyFields>)
    ensures f.Some? ==> f.value.quantity > 0 && ValidConfidence(f.value.confidence)
  {
    match ParsedAction(response)
    case None => None
    case Some(verdict) =>
      if verdict == HoldVerdict then None
      else
        match ParsedNumber(response, QuantityPattern)
        case None => None
        case Some(parsed) =>
          if parsed == 0 then None
          else
            Some(ReplyFields(if verdict == BuyVerdict then BUY else SELL, parsed,
                             ClampConfidence(ParsedNumber(response, ConfidencePattern).GetOr(5)),
                             ParsedReasoning(response)))
  }

  /**
   * The tail of `_parse_ai_response` once the fields are read: a BUY priced
   * at zero raises (no decision); a BUY beyond the whole shares available cash
   * buys is cut down to them with a note in the reasoning, and dropped when
   * that leaves nothing to buy.
   */
  function DecisionFor(f: ReplyFields, info: StockInfo, availableCash: real): (r: Option<TradingDecision>)
    ensures r.Some? ==> r.value.quantity > 0 && r.value.action == f.action && r.value.confidence == f.confidence
    ensures r.Some? ==> r.value.symbol == info.symbol && r.value.currentPrice == info.currentPrice
  {
    if f.action == BUY && info.currentPrice == 0.0 then None
    else
      var maxShares := if f.action == BUY then Trunc(availableCash / info.currentPrice) else 0;
      var capped := f.action == BUY && f.quantity > maxShares;
      var quantity := if capped then maxShares else f.quantity;
      var reasoning := if capped then f.reasoning + AdjustmentNote(f.quantity, maxShares) else f.reasoning;
      if quantity <= 0 then None
      else Some(TradingDecision(f.action, info.symbol, quantity, f.confidence, reasoning, info.currentPrice))
  }

  /** `_parse_ai_response`: the decision, if any, that a reply yields for a stock. */
  function ParseAiResponse(response: string, info: StockInfo, availableCash: real): (r: Option<TradingDecision>)
    ensures r.Some? ==> r.value.quantity > 0 && ValidConfidence(r.value.confidence)
    ensures r.Some? ==> r.value.symbol == info.symbol && r.value.currentPrice == info.currentPrice
  {
    match ReadFields(response)
    case None => None
    case Some(f) => DecisionFor(f, info, availableCash)
  }

  /**
   * The early exits of `_parse_ai_response`, stated on the reply text: no
   * decision when `ACTION:` (in any case) or `QUANTITY:` occurs nowhere, and
   * a confidence of 5 when `CONFIDENCE:` occurs nowhere.
   */
  lemma MissingLabels(response: string, info: StockInfo, availableCash: real)
    ensures (forall m :: 0 <= m <= |response| ==> !OccursAtIgnoreCase(response, ACTION_LABEL, m))
              ==> ParseAiResponse(response, info, availableCash).None?
    ensures (forall m :: 0 <= m <= |response| ==> !OccursAt(response, QUANTITY_LABEL, m))
              ==> ParseAiResponse(response, info, availableCash).None?
    ensures && (forall m :: 0 <= m <= |response| ==> !OccursAt(response, CONFIDENCE_LABEL, m))
            && ParseAiResponse(response, info, availableCash).Some?
            ==> ParseAiResponse(response, info, availableCash).value.confidence == 5
  {
    var q := LeftmostMatch(QuantityPattern, response, 0);
    if q.Some? {
      MatchNeedsLabel(QuantityPattern, response, q.value);
    }
    var c := LeftmostMatch(ConfidencePattern, response, 0);
    if c.Some? {
      MatchNeedsLabel(ConfidencePattern, response, c.value);
    }
  }

  /** A reply that opens with `ACTION: HOLD` yields no decision, whatever follows. */
  lemma HoldReply(rest: string, info: StockInfo, availableCash: real)
    ensures ParseAiResponse(ACTION_LABEL + " HOLD" + rest, info, availableCash).None?
  {
    var s := ACTION_LABEL + " HOLD" + rest;
    var line := ACTION_LABEL + " HOLD";
    assert forall j :: 0 <= j < |line| ==> s[j] == line[j];
    assert OccursAtIgnoreCase(s, ACTION_LABEL, 0);
    SkipOneSpace(s, 7);
    assert UpperChar(s[8]) != UpperChar("BUY"[0]) && UpperChar(s[8]) != UpperChar("SELL"[0]);
    assert OccursAtIgnoreCase(s, "HOLD", 8);
    assert MatchAt(ActionPattern, s, 0);
  }

  /** A well-formed reply whose quantity line reads 0 yields no decision. */
  lemma ZeroQuantityReply(a: TradeAction, after: string, info: StockInfo, availableCash: real)
    ensures ParseAiResponse(ActionLine(a) + NumberLine(QUANTITY_LABEL, 0) + after, info, availableCash).None?
  {
    var s := ActionLine(a) + NumberLine(QUANTITY_LABEL, 0) + after;
    ActionFieldFound(s, a, NumberLine(QUANTITY_LABEL, 0) + after);
    ReplyQuantity(s, a, 0, after);
  }

  /**
   * A SELL keeps the read quantity and reasoning; a BUY never exceeds the read
   * quantity nor the whole shares available cash buys, and its reasoning
   * carries the adjustment note exactly when it was cut down.
   */
  lemma DecisionForContents(f: ReplyFields, info: StockInfo, availableCash: real)
    ensures var r := DecisionFor(f, info, availableCash);
            r.Some? ==>
              && (f.action == SELL ==> r.value.quantity == f.quantity && r.value.reasoning == f.reasoning)
              && (f.action == BUY ==>
                    && info.currentPrice != 0.0
                    && r.value.quantity <= Trunc(availableCash / info.currentPrice)
                    && r.value.quantity <= f.quantity
                    && (r.value.quantity < f.quantity <==>
                          r.value.reasoning == f.reasoning + AdjustmentNote(f.quantity, r.value.quantity)))
    ensures f.action == SELL ==> (DecisionFor(f, info, availableCash).Some? <==> f.quantity > 0)
  {
    var r := DecisionFor(f, info, availableCash);
    if r.Some? && f.action == BUY {
      var note := AdjustmentNote(f.quantity, r.value.quantity);
      assert |note| > 0;
      if r.value.quantity == f.quantity {
        assert |f.reasoning + note| > |f.reasoning|;
      }
    }
  }

  /** A quantity that needs no cutting down is kept as it is, with its reasoning. */
  lemma DecisionForExact(f: ReplyFields, info: StockInfo, availableCash: real)
    requires f.quantity > 0
    requires f.action == BUY ==> info.currentPrice != 0.0 && f.quantity <= Trunc(availableCash / info.currentPrice)
    ensures DecisionFor(f, info, availableCash)
         == Some(TradingDecision(f.action, info.symbol, f.quantity, f.confidence, f.reasoning, info.currentPrice))
  {
  }

  /**
   * A parsed BUY is for at most the whole shares available cash buys at the
   * quoted price (which `DecisionForAffordable` turns into a cost bound).
   */
  lemma ParsedBuyWithinCash(response: string, info: StockInfo, availableCash: real)
    ensures var r := ParseAiResponse(response, info, availableCash);
            r.Some? && r.value.action == BUY ==>
              info.currentPrice != 0.0 && r.value.quantity <= Trunc(availableCash / info.currentPrice)
  {
    var fields := ReadFields(response);
    if fields.Some? {
      DecisionForContents(fields.value, info, availableCash);
    }
  }

  /** Missing reasoning falls back to the default text. */
  lemma DefaultReasoning(response: string)
    requires forall m :: 0 <= m <= |response| ==> !OccursAt(response, REASONING_LABEL, m)
    ensures ParsedReasoning(response) == DEFAULT_REASONING
  {
  }

  /** A positive quantity within `Trunc(cash / price)` costs at most `cash`. */
  lemma WithinCashBound(q: int, cash: real, price: real)
    requires price > 0.0 && 0 < q <= Trunc(cash / price)
    ensures q as real * price <= cash
  {
    var x := cash / price;
    assert x >= 0.0;
    assert q as real <= x;
    assert x * price == cash;
  }

  /** With a positive price, a BUY never costs more than the cash made available. */
  lemma DecisionForAffordable(f: ReplyFields, info: StockInfo, availableCash: real)
    requires info.currentPrice > 0.0
    ensures var r := DecisionFor(f, info, availableCash);
            r.Some? && f.action == BUY ==> r.value.quantity as real * info.currentPrice <= availableCash
  {
    var r := DecisionFor(f, info, availableCash);
    if r.Some? && f.action == BUY {
      DecisionForContents(f, info, availableCash);
      WithinCashBound(r.value.quantity, availableCash, info.currentPrice);
    }
  }

  // ---------------------------------------------------------------- formatting a reply

  function VerdictWord(a: TradeAction): string {
    match a
    case BUY => "BUY"
    case SELL => "SELL"
  }

  function LabelOf(p: Pattern): string {
    match p
    case ActionPattern => ACTION_LABEL
    case QuantityPattern => QUANTITY_LABEL
    case ConfidencePattern => CONFIDENCE_LABEL
    case ReasoningPattern => REASONING_LABEL
  }

  function ActionLine(a: TradeAction): string {
    ACTION_LABEL + " " + VerdictWord(a) + "\n"
  }

  function NumberLine(tag: string, n: nat): string {
    tag + " " + NatToString(n) + "\n"
  }

  /** A reply in the format the prompt asks for, one field per line. */
  function FormatReply(d: TradingDecision): string
    requires d.quantity >= 0 && d.confidence >= 0
  {
    ActionLine(d.action) + NumberLine(QUANTITY_LABEL, d.quantity)
    + NumberLine(CONFIDENCE_LABEL, d.confidence) + (REASONING_LABEL + " " + d.reasoning)
  }

  /** No label starts inside a stretch that lacks the label's first character. */
  lemma LabelAbsent(s: string, lo: nat, hi: nat, lit: string)
    requires |lit| > 0 && lo <= hi <= |s| && lit[0] !in s[lo..hi]
    ensures forall m :: lo <= m < hi ==> !OccursAt(s, lit, m)
  {
  }

  /** A case-sensitive search finds the first place its label occurs, when it matches there. */
  lemma FirstMatchAt(p: Pattern, s: string, k: nat)
    requires p != ActionPattern && k <= |s| && MatchAt(p, s, k)
    requires forall m :: 0 <= m < k ==> !OccursAt(s, LabelOf(p), m)
    ensures LeftmostMatch(p, s, 0) == Some(k)
  {
    var r := LeftmostMatch(p, s, 0);
    if r.Some? && r.value < k {
      MatchNeedsLabel(p, s, r.value);
    }
  }

  lemma MatchNeedsLabel(p: Pattern, s: string, m: nat)
    requires p != ActionPattern
    ensures MatchAt(p, s, m) ==> OccursAt(s, LabelOf(p), m)
  {
  }

  /** The pieces of a concatenation sit at their offsets. */
  lemma PieceAt(a: string, b: string, c: string, i: nat, j: nat)
    requires i <= j <= |b|
    ensures (a + b + c)[|a| + i..|a| + j] == b[i..j]
    ensures i < |b| ==> (a + b + c)[|a| + i] == b[i]
  {
  }

  lemma SkipOneSpace(s: string, e: nat)
    requires e + 1 < |s| && s[e] == ' ' && !IsSpace(s[e + 1])
    ensures SkipSpaces(s, e) == e + 1
  {
    assert SkipSpaces(s, e) == SkipSpaces(s, e + 1);
  }

  /** The digit run of a printed number ends where the number does. */
  lemma NumberRun(s: string, j: nat, n: nat)
    requires j + |NatToString(n)| < |s|
    requires s[j..j + |NatToString(n)|] == NatToString(n)
    requires !IsDigit(s[j + |NatToString(n)|])
    ensures DigitRunEnd(s, j) == j + |NatToString(n)|
    ensures DigitsValue(s[j..DigitRunEnd(s, j)]) == n
  {
    var e := j + |NatToString(n)|;
    var digits := NatToString(n);
    assert forall k :: j <= k < e ==> s[k] == digits[k - j];
    NatToStringRoundTrip(n);
  }

  /** A `LABEL: n` line is read back as `n` when the label does not occur earlier. */
  lemma NumberFieldFound(s: string, before: string, p: Pattern, n: nat, after: string)
    requires p == QuantityPattern || p == ConfidencePattern
    requires s == before + NumberLine(LabelOf(p), n) + after
    requires forall m :: 0 <= m < |before| ==> !OccursAt(s, LabelOf(p), m)
    ensures ParsedNumber(s, p) == Some(n)
  {
    var tag := LabelOf(p);
    var k := |before|;
    var e := k + |tag|;
    NumberLineLayout(s, before, tag, n, after);
    SkipOneSpace(s, e);
    NumberRun(s, e + 1, n);
    assert MatchAt(p, s, k);
    FirstMatchAt(p, s, k);
  }

  /** Where the label, the space, the digits and the newline of a number line sit. */
  lemma NumberLineLayout(s: string, before: string, tag: string, n: nat, after: string)
    requires s == before + NumberLine(tag, n) + after
    ensures var e := |before| + |tag|;
            var digits := NatToString(n);
            && OccursAt(s, tag, |before|)
            && s[e] == ' '
            && e + 1 + |digits| < |s| && s[e + 1..e + 1 + |digits|] == digits
            && s[e + 1 + |digits|] == '\n'
            && !IsSpace(s[e + 1])
  {
    var digits := NatToString(n);
    var rest := " " + digits + "\n";
    assert NumberLine(tag, n) == tag + rest;
    LineLabel(s, before, tag, rest, after);
    var t := before + tag;
    assert s == t + rest + after;
    LineRest(s, t, digits, after);
  }

  lemma LineLabel(s: string, before: string, tag: string, rest: string, after: string)
    requires s == before + (tag + rest) + after
    ensures OccursAt(s, tag, |before|)
  {
    PieceAt(before, tag + rest, after, 0, |tag|);
    PieceAt([], tag, rest, 0, |tag|);
  }

  lemma LineRest(s: string, t: string, digits: string, after: string)
    requires |digits| > 0
    requires s == t + (" " + digits + "\n") + after
    ensures var e := |t|;
            && s[e] == ' '
            && e + 1 + |digits| < |s| && s[e + 1..e + 1 + |digits|] == digits
            && s[e + 1 + |digits|] == '\n'
            && s[e + 1] == digits[0]
  {
    var rest := " " + digits + "\n";
    forall i | 0 <= i < |rest|
      ensures s[|t| + i] == rest[i]
    {
      PieceAt(t, rest, after, i, i + 1);
    }
    assert s[|t| + 1..|t| + 1 + |digits|] == digits by {
      PieceAt(t, rest, after, 1, 1 + |digits|);
      assert rest[1..1 + |digits|] == digits;
    }
  }

  /** The action line at the start of a reply is read back. */
  lemma ActionFieldFound(s: string, a: TradeAction, rest: string)
    requires s == ActionLine(a) + rest
    ensures ParsedAction(s) == Some(if a == BUY then BuyVerdict else SellVerdict)
  {
    var line := ActionLine(a);
    var w := VerdictWord(a);
    assert line == ACTION_LABEL + " " + w + "\n";
    assert OccursAtIgnoreCase(s, ACTION_LABEL, 0) by {
      forall j | 0 <= j < |ACTION_LABEL|
        ensures UpperChar(s[j]) == UpperChar(ACTION_LABEL[j])
      {
        assert s[j] == line[j];
      }
    }
    assert s[7] == ' ' && s[8] == w[0] by {
      assert s[7] == line[7] && s[8] == line[8];
    }
    SkipOneSpace(s, 7);
    assert ActionWordAt(s, 8) == Some(if a == BUY then BuyVerdict else SellVerdict) by {
      forall j | 0 <= j < |w|
        ensures s[8 + j] == w[j]
      {
        assert s[8 + j] == line[8 + j];
      }
      if a == SELL {
        assert UpperChar(s[8]) != UpperChar("BUY"[0]);
      }
    }
    assert MatchAt(ActionPattern, s, 0);
  }

  /** A final `REASONING: text` line is read back as its text. */
  lemma ReasoningFieldFound(s: string, before: string, text: string)
    requires '\n' !in text && (text == [] || !IsSpace(text[0]))
    requires s == before + (REASONING_LABEL + " " + text)
    requires 'R' !in before
    ensures ParsedReasoning(s) == Strip(text)
  {
    var k := |before|;
    ReasoningLineFound(s, before, text);
    PieceAt(before + REASONING_LABEL + " ", text, [], 0, |text|);
    PieceAt(before, REASONING_LABEL + " " + text, [], |REASONING_LABEL|, |REASONING_LABEL|);
    ReasoningValue(s, k, text);
  }

  lemma ReasoningValue(s: string, k: nat, text: string)
    requires k + 11 <= |s| && s[k + 10] == ' ' && s[k + 11..] == text
    requires '\n' !in text && (text == [] || !IsSpace(text[0]))
    ensures ReasoningAt(s, k) == Strip(text)
  {
    assert |REASONING_LABEL| == 10;
    assert SkipSpaces(s, k + |REASONING_LABEL|) == k + 11 by {
      SpaceAfterLabel(s, k + |REASONING_LABEL|, text);
    }
    LineToEnd(s, k + 11);
  }

  /** A tail without a newline is the whole rest of its line. */
  lemma LineToEnd(s: string, w: nat)
    requires w <= |s| && '\n' !in s[w..]
    ensures RestOfLine(s, w) == s[w..]
  {
    var tail := s[w..];
    FindAbsent(tail, '\n');
    assert s[w..w + |tail|] == tail;
  }

  /** One space, then text that does not start with a space: the search skips just the space. */
  lemma SpaceAfterLabel(s: string, e: nat, text: string)
    requires e + 1 <= |s| && s[e] == ' ' && s[e + 1..] == text
    requires text == [] || !IsSpace(text[0])
    ensures SkipSpaces(s, e) == e + 1
  {
    if text == [] {
      assert SkipSpaces(s, e) == SkipSpaces(s, e + 1);
    } else {
      assert s[e + 1] == text[0];
      SkipOneSpace(s, e);
    }
  }

  lemma ReasoningLineFound(s: string, before: string, text: string)
    requires s == before + (REASONING_LABEL + " " + text)
    requires 'R' !in before
    ensures LeftmostMatch(ReasoningPattern, s, 0) == Some(|before|)
  {
    var k := |before|;
    PieceAt(before, REASONING_LABEL + " " + text, [], 0, |REASONING_LABEL|);
    PieceAt(before, [], REASONING_LABEL + " " + text, 0, 0);
    LabelAbsent(s, 0, k, REASONING_LABEL);
    FirstMatchAt(ReasoningPattern, s, k);
  }

  /**
   * Parsing a well-formed reply gives the decision back: every SELL, and every
   * BUY within the available cash, written in the prompt's format and with a
   * one-line stripped reasoning, is read back as itself.
   */
  lemma ParseFormatRoundTrip(d: TradingDecision, availableCash: real)
    requires d.quantity > 0 && ValidConfidence(d.confidence)
    requires '\n' !in d.reasoning && Strip(d.reasoning) == d.reasoning
    requires d.action == BUY ==> d.currentPrice != 0.0 && d.quantity <= Trunc(availableCash / d.currentPrice)
    ensures ParseAiResponse(FormatReply(d), StockInfo(d.symbol, d.currentPrice, 0.0, 0), availableCash) == Some(d)
  {
    var f := ReplyFields(d.action, d.quantity, d.confidence, d.reasoning);
    ReadFormatFields(d);
    DecisionForExact(f, StockInfo(d.symbol, d.currentPrice, 0.0, 0), availableCash);
  }

  /** The four searches find the four lines of a well-formed reply. */
  lemma ReadFormatFields(d: TradingDecision)
    requires d.quantity > 0 && ValidConfidence(d.confidence)
    requires '\n' !in d.reasoning && Strip(d.reasoning) == d.reasoning
    ensures ReadFields(FormatReply(d)) == Some(ReplyFields(d.action, d.quantity, d.confidence, d.reasoning))
  {
    FormatAction(d);
    FormatQuantity(d);
    FormatConfidence(d);
    FormatReasoning(d);
    ReadFieldsFrom(FormatReply(d), ReplyFields(d.action, d.quantity, d.confidence, d.reasoning));
  }

  lemma FormatAction(d: TradingDecision)
    requires d.quantity >= 0 && d.confidence >= 0
    ensures ParsedAction(FormatReply(d)) == Some(if d.action == BUY then BuyVerdict else SellVerdict)
  {
    var q := NumberLine(QUANTITY_LABEL, d.quantity);
    var c := NumberLine(CONFIDENCE_LABEL, d.confidence);
    var r := REASONING_LABEL + " " + d.reasoning;
    assert FormatReply(d) == ActionLine(d.action) + (q + c + r);
    ActionFieldFound(FormatReply(d), d.action, q + c + r);
  }

  lemma FormatQuantity(d: TradingDecision)
    requires d.quantity >= 0 && d.confidence >= 0
    ensures ParsedNumber(FormatReply(d), QuantityPattern) == Some(d.quantity)
  {
    var c := NumberLine(CONFIDENCE_LABEL, d.confidence);
    var r := REASONING_LABEL + " " + d.reasoning;
    assert FormatReply(d) == ActionLine(d.action) + NumberLine(QUANTITY_LABEL, d.quantity) + (c + r);
    ReplyQuantity(FormatReply(d), d.action, d.quantity, c + r);
  }

  lemma FormatConfidence(d: TradingDecision)
    requires d.quantity >= 0 && d.confidence >= 0
    ensures ParsedNumber(FormatReply(d), ConfidencePattern) == Some(d.confidence)
  {
    ReplyConfidence(FormatReply(d), d.action, d.quantity, d.confidence, REASONING_LABEL + " " + d.reasoning);
  }

  lemma FormatReasoning(d: TradingDecision)
    requires d.quantity >= 0 && d.confidence >= 0
    requires '\n' !in d.reasoning && Strip(d.reasoning) == d.reasoning
    ensures ParsedReasoning(FormatReply(d)) == d.reasoning
  {
    var before := ActionLine(d.action) + NumberLine(QUANTITY_LABEL, d.quantity) + NumberLine(CONFIDENCE_LABEL, d.confidence);
    ReplyNoR(d.action, d.quantity, d.confidence);
    ReasoningFieldFound(FormatReply(d), before, d.reasoning);
  }

  lemma ReadFieldsFrom(s: string, f: ReplyFields)
    requires f.quantity > 0 && ValidConfidence(f.confidence)
    requires ParsedAction(s) == Some(if f.action == BUY then BuyVerdict else SellVerdict)
    requires ParsedNumber(s, QuantityPattern) == Some(f.quantity)
    requires ParsedNumber(s, ConfidencePattern) == Some(f.confidence)
    requires ParsedReasoning(s) == f.reasoning
    ensures ReadFields(s) == Some(f)
  {
  }

  lemma ReplyQuantity(s: string, a: TradeAction, n: nat, after: string)
    requires s == ActionLine(a) + NumberLine(QUANTITY_LABEL, n) + after
    ensures ParsedNumber(s, QuantityPattern) == Some(n)
  {
    var before := ActionLine(a);
    assert 'Q' !in before;
    assert s[..|before|] == before;
    LabelAbsent(s, 0, |before|, QUANTITY_LABEL);
    NumberFieldFound(s, before, QuantityPattern, n, after);
  }

  lemma ReplyConfidence(s: string, a: TradeAction, q: nat, n: nat, after: string)
    requires s == ActionLine(a) + NumberLine(QUANTITY_LABEL, q) + NumberLine(CONFIDENCE_LABEL, n) + after
    ensures ParsedNumber(s, ConfidencePattern) == Some(n)
  {
    var before := ActionLine(a) + NumberLine(QUANTITY_LABEL, q);
    ConfidenceNotBefore(s, a, q, NumberLine(CONFIDENCE_LABEL, n) + after);
    NumberFieldFound(s, before, ConfidencePattern, n, after);
  }

  /** Only one 'C' precedes the confidence line, and it is followed by 'T', not 'O'. */
  lemma ConfidenceNotBefore(s: string, a: TradeAction, q: nat, rest: string)
    requires s == ActionLine(a) + NumberLine(QUANTITY_LABEL, q) + rest
    ensures forall m :: 0 <= m < |ActionLine(a) + NumberLine(QUANTITY_LABEL, q)| ==> !OccursAt(s, CONFIDENCE_LABEL, m)
  {
    var tail := "TION: " + VerdictWord(a) + "\n" + QUANTITY_LABEL + " " + NatToString(q) + "\n";
    assert ActionLine(a) + NumberLine(QUANTITY_LABEL, q) == "AC" + tail;
    NoCInQuantityTail(a, q);
    NoConfidenceAfterAC(s, tail, rest);
  }

  /** After "AC", a stretch without 'C' holds no confidence label. */
  lemma NoConfidenceAfterAC(s: string, tail: string, rest: string)
    requires s == "AC" + tail + rest && 'C' !in tail && |tail| > 0 && tail[0] == 'T'
    ensures forall m :: 0 <= m < 2 + |tail| ==> !OccursAt(s, CONFIDENCE_LABEL, m)
  {
    assert s[2..2 + |tail|] == tail by {
      PieceAt("AC", tail, rest, 0, |tail|);
    }
    LabelAbsent(s, 2, 2 + |tail|, CONFIDENCE_LABEL);
    assert s[0] == 'A' && s[1] == 'C';
    if 11 <= |s| {
      assert s[0..11][0] == 'A' != CONFIDENCE_LABEL[0];
    }
    if 12 <= |s| {
      assert s[2] == tail[0];
      assert s[1..12][1] == 'T' != CONFIDENCE_LABEL[1];
    }
  }

  lemma NoCInQuantityTail(a: TradeAction, q: nat)
    ensures 'C' !in "TION: " + VerdictWord(a) + "\n" + QUANTITY_LABEL + " " + NatToString(q) + "\n"
  {
    assert 'C' !in "TION: " + VerdictWord(a) + "\n" + QUANTITY_LABEL + " ";
    assert 'C' !in NatToString(q);
  }

  /** No 'R' precedes the reasoning line. */
  lemma ReplyNoR(a: TradeAction, q: nat, c: nat)
    ensures 'R' !in ActionLine(a) + NumberLine(QUANTITY_LABEL, q) + NumberLine(CONFIDENCE_LABEL, c)
  {
    assert 'R' !in NatToString(q) && 'R' !in NatToString(c);
  }

  // ---------------------------------------------------------------- feasibility

  /**
   * `validate_trading_decision` against the cash balance and the holdings
   * dict (`symbol ↦ (quantity, average cost, current price)`); an unheld
   * symbol counts as zero shares.
   */
  function ValidateTradingDecision(d: TradingDecision, portfolioCash: real,
                                   currentHoldings: map<string, (int, real, real)>): (ok: bool)
  {
    match d.action
    case BUY => d.quantity as real * d.currentPrice <= portfolioCash
    case SELL =>
      var currentShares := if d.symbol in currentHoldings then currentHoldings[d.symbol].0 else 0;
      d.quantity <= currentShares
  }

  /**
   * A validated decision is one the ledger executes: a validated BUY is
   * covered by the cash balance, and a validated SELL of a positive quantity
   * is accepted; conversely every SELL the ledger accepts validates.
   */
  lemma ValidatedDecisionsExecute(d: TradingDecision, cash: real, holdings: map<string, Holding>)
    requires PortfolioService.KeyedBySymbol(holdings)
    ensures d.action == BUY ==>
              (ValidateTradingDecision(d, cash, PortfolioService.HoldingsDict(holdings)) <==> cash >= PortfolioService.Cost(d))
    ensures d.action == SELL && d.quantity > 0 ==>
              (ValidateTradingDecision(d, cash, PortfolioService.HoldingsDict(holdings)) <==>
               PortfolioService.SellAccepted(holdings, d))
  {
    var dict := PortfolioService.HoldingsDict(holdings);
    if d.symbol in holdings {
      assert holdings[d.symbol].symbol == d.symbol;
    }
  }

  // ---------------------------------------------------------------- market sentiment

  /** `line.split(':', 1)` stripped on both sides, for a line that contains a colon. */
  function SentimentEntry(line: string): (e: (string, string))
    requires ':' in line
  {
    var i := Find(line, ':');
    (Strip(line[..i]), Strip(line[i + 1..]))
  }

  /** The sentiment dict after the given lines, later lines overwriting earlier ones. */
  function SentimentOf(lines: seq<string>): map<string, string> {
    if lines == [] then map[]
    else
      var m := SentimentOf(lines[..|lines| - 1]);
      var line := lines[|lines| - 1];
      if ':' in line then m[SentimentEntry(line).0 := SentimentEntry(line).1] else m
  }

  /**
   * The sentiment parser of `get_market_sentiment`: no symbols, no request and
   * no entries; otherwise one entry per line containing a colon.
   */
  method ParseMarketSentiment(symbols: seq<string>, content: string) returns (sentiment: map<string, string>)
    ensures symbols == [] ==> sentiment == map[]
    ensures symbols != [] ==> sentiment == SentimentOf(Split(content, '\n'))
  {
    if symbols == [] {
      return map[];
    }
    sentiment := map[];
    var lines := Split(content, '\n');
    var i := 0;
    while i < |lines|
      invariant 0 <= i <= |lines|
      invariant sentiment == SentimentOf(lines[..i])
    {
      SentimentStep(lines, i);
      var line := lines[i];
      if ':' in line {
        var (symbol, text) := SentimentEntry(line);
        sentiment := sentiment[symbol := text];
      }
      i := i + 1;
    }
    assert lines[..|lines|] == lines;
  }

  /** One more line updates the dict by its entry, if it has one. */
  lemma SentimentStep(lines: seq<string>, i: nat)
    requires i < |lines|
    ensures SentimentOf(lines[..i + 1]) ==
            if ':' in lines[i] then SentimentOf(lines[..i])[SentimentEntry(lines[i]).0 := SentimentEntry(lines[i]).1]
            else SentimentOf(lines[..i])
  {
    assert lines[..i + 1][..i] == lines[..i];
    assert lines[..i + 1][i] == lines[i];
  }

  /** The line has a colon and names `k` before it. */
  predicate Names(line: string, k: string) {
    ':' in line && SentimentEntry(line).0 == k
  }

  /** A symbol is in the dict exactly when some line with a colon names it. */
  lemma {:induction false} SentimentKeys(lines: seq<string>, k: string)
    ensures k in SentimentOf(lines) <==> exists i :: 0 <= i < |lines| && Names(lines[i], k)
  {
    if lines != [] {
      var prefix := lines[..|lines| - 1];
      SentimentKeys(prefix, k);
      SentimentKeysSnoc(lines, k);
      SomeSnoc(lines, prefix, (line: string) => Names(line, k));
    }
  }

  lemma SentimentKeysSnoc(lines: seq<string>, k: string)
    requires lines != []
    ensures k in SentimentOf(lines) <==> k in SentimentOf(lines[..|lines| - 1]) || Names(lines[|lines| - 1], k)
  {
  }

  /** Some element satisfies `p` when some earlier element does or the last one does. */
  lemma SomeSnoc<T>(xs: seq<T>, prefix: seq<T>, p: T -> bool)
    requires xs != [] && prefix == xs[..|xs| - 1]
    ensures (exists i :: 0 <= i < |xs| && p(xs[i])) <==>
            (exists i :: 0 <= i < |prefix| && p(prefix[i])) || p(xs[|xs| - 1])
  {
    if exists i :: 0 <= i < |prefix| && p(prefix[i]) {
      var i :| 0 <= i < |prefix| && p(prefix[i]);
      assert xs[i] == prefix[i];
    }
    if exists i :: 0 <= i < |xs| && p(xs[i]) {
      var i :| 0 <= i < |xs| && p(xs[i]);
      if i < |prefix| {
        assert prefix[i] == xs[i];
      }
    }
  }

  /** The value of a symbol comes from the last line with a colon that names it. */
  lemma {:induction false} SentimentLastLineWins(lines: seq<string>, k: string, i: nat)
    requires i < |lines| && ':' in lines[i] && SentimentEntry(lines[i]).0 == k
    requires forall j :: i < j < |lines| && ':' in lines[j] ==> SentimentEntry(lines[j]).0 != k
    ensures k in SentimentOf(lines) && SentimentOf(lines)[k] == SentimentEntry(lines[i]).1
  {
    var prefix := lines[..|lines| - 1];
    if i < |lines| - 1 {
      assert forall j :: 0 <= j < |prefix| ==> prefix[j] == lines[j];
      SentimentLastLineWins(prefix, k, i);
    }
  }
}
