/**
 * Application settings (backend/app/config.py): the bot's starting balance and
 * defaults, and the list of e-mail addresses allowed to sign in.
 */
module Config {
  import opened Wrappers
  import opened Text
  import opened Models

  /** `initial_balance`: cash of every new portfolio, and the baseline of its return. */
  const INITIAL_BALANCE: real := 20.00
  /** `default_max_daily_trades` */
  const DEFAULT_MAX_DAILY_TRADES: int := 5
  /** `default_risk_tolerance` */
  const DEFAULT_RISK_TOLERANCE: string := "MEDIUM"
  /** Trading hours in US Eastern time. */
  const TRADING_START_HOUR: int := 9
  const TRADING_START_MINUTE: int := 30
  const TRADING_END_HOUR: int := 16
  const TRADING_END_MINUTE: int := 0

  /**
   * `allowed_emails_list`: the comma-separated `allowed_emails` setting cut at
   * every comma, each piece stripped of surrounding whitespace; empty pieces
   * are kept.  An absent or empty setting gives no entries.
   */
  function AllowedEmailsList(allowedEmails: Option<string>): (emails: seq<string>)
    ensures allowedEmails.None? || allowedEmails == Some("") ==> emails == []
    ensures allowedEmails.Some? && allowedEmails.value != "" ==>
              && |emails| == Count(allowedEmails.value, ',') + 1
              && forall k :: 0 <= k < |emails| ==> emails[k] == Strip(Split(allowedEmails.value, ',')[k])
    ensures forall k :: 0 <= k < |emails| ==>
              ',' !in emails[k] && (emails[k] == [] || (!IsSpace(emails[k][0]) && !IsSpace(emails[k][|emails[k]| - 1])))
  {
    if allowedEmails.None? || allowedEmails.value == "" then []
    else
      var pieces := Split(allowedEmails.value, ',');
      seq(|pieces|, k requires 0 <= k < |pieces| => Strip(pieces[k]))
  }

  /**
   * A setting without whitespace is reproduced exactly by joining its entries
   * with commas: nothing is lost or reordered.
   */
  lemma AllowedEmailsRoundTrip(s: string)
    requires s != ""
    requires forall i :: 0 <= i < |s| ==> !IsSpace(s[i])
    ensures Join(AllowedEmailsList(Some(s)), ',') == s
  {
    var pieces := Split(s, ',');
    var emails := AllowedEmailsList(Some(s));
    SplitChars(s, ',');
    assert forall c :: c in s ==> !IsSpace(c);
    forall k | 0 <= k < |pieces|
      ensures emails[k] == pieces[k]
    {
      if pieces[k] != [] {
        assert pieces[k][0] in pieces[k] && pieces[k][|pieces[k]| - 1] in pieces[k];
        StripOfStripped(pieces[k]);
      }
    }
    assert emails == pieces;
    JoinSplit(s, ',');
  }

  /** The default risk tolerance names a member of `RiskTolerance`. */
  lemma DefaultRiskToleranceParses()
    ensures ParseRiskTolerance(DEFAULT_RISK_TOLERANCE) == Some(MEDIUM)
  {
  }
}
