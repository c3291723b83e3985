/**
 * Sign-in (backend/app/services/auth_service.py): the checks applied to a
 * verified Google ID token, and the first-sign-in provisioning that gives every
 * new user a portfolio and a bot configuration.
 */
module AuthService {
  import opened Wrappers
  import opened Models
  import opened Config

  /** The claims of a Google ID token whose signature and expiry Google's library accepted. */
  datatype IdInfo = IdInfo(aud: string, sub: string, email: string, name: string, picture: Option<string>)

  /** The user data handed on after a successful sign-in check. */
  datatype GoogleUser = GoogleUser(googleId: string, email: string, name: string, picture: string)

  /** `is_email_allowed`: an empty allow-list admits every address. */
  predicate IsEmailAllowed(allowedEmails: seq<string>, email: string) {
    allowedEmails == [] || email in allowedEmails
  }

  /**
   * `verify_google_token`.  `idinfo` is `None` when the library rejected the
   * token (the `ValueError` branch).  A token issued for another client, or an
   * address outside the configured allow-list, is refused.
   */
  function VerifyGoogleToken(idinfo: Option<IdInfo>, clientId: string, allowedSetting: Option<string>): (r: Option<GoogleUser>)
    ensures r.Some? <==>
              && idinfo.Some?
              && idinfo.value.aud == clientId
              && IsEmailAllowed(AllowedEmailsList(allowedSetting), idinfo.value.email)
    ensures r.Some? ==> r.value.googleId == idinfo.value.sub && r.value.email == idinfo.value.email
    ensures r.Some? ==> r.value.name == idinfo.value.name
    ensures r.Some? && idinfo.value.picture.Some? ==> r.value.picture == idinfo.value.picture.value
    ensures r.Some? && idinfo.value.picture.None? ==> r.value.picture == ""
  {
    match idinfo
    case None => None
    case Some(info) =>
      if info.aud != clientId then None
      else
        var allowed := AllowedEmailsList(allowedSetting);
        if |allowed| > 0 && info.email !in allowed then None
        else Some(GoogleUser(info.sub, info.email, info.name, info.picture.GetOr("")))
  }

  /** With no allow-list configured, every token issued for this client signs in. */
  lemma UnrestrictedAdmitsEveryone(info: IdInfo, clientId: string, allowedSetting: Option<string>)
    requires allowedSetting.None? || allowedSetting == Some("")
    requires info.aud == clientId
    ensures VerifyGoogleToken(Some(info), clientId, allowedSetting).Some?
  {
  }

  /** The bot configuration created with a new user, from the settings. */
  function NewUserBotConfig(): (c: BotConfig)
    ensures c.maxDailyTrades == DEFAULT_MAX_DAILY_TRADES
    ensures RiskToleranceValue(c.riskTolerance) == DEFAULT_RISK_TOLERANCE
    ensures !c.isActive
  {
    DefaultRiskToleranceParses();
    DefaultBotConfig().(
      maxDailyTrades := DEFAULT_MAX_DAILY_TRADES,
      riskTolerance := ParseRiskTolerance(DEFAULT_RISK_TOLERANCE).value)
  }

  /** The settings agree with the column defaults, so a new user's configuration is the default one. */
  lemma NewUserBotConfigIsDefault()
    ensures NewUserBotConfig() == DefaultBotConfig()
  {
  }

  // ---------------------------------------------------------------- users table

  /** Position of the first user with the given Google id, or `|users|` when there is none. */
  function IndexOfGoogleId(users: seq<User>, googleId: string): (i: nat)
    ensures i <= |users|
    ensures i < |users| ==> users[i].googleId == googleId
    ensures forall k :: 0 <= k < i ==> users[k].googleId != googleId
  {
    if users == [] then 0
    else if users[0].googleId == googleId then 0
    else 1 + IndexOfGoogleId(users[1..], googleId)
  }

  /** Some row other than `except` already holds `email` (the `unique=True` e-mail column). */
  predicate EmailTakenByOther(users: seq<User>, email: string, except: int) {
    exists k :: 0 <= k < |users| && k != except && users[k].email == email
  }

  /**
   * The `users` table as the database keeps it: ids assigned 1, 2, 3, ... in
   * insertion order, and Google ids and e-mail addresses unique.
   */
  predicate WellFormedUsers(users: seq<User>) {
    && (forall i :: 0 <= i < |users| ==> users[i].id == i + 1)
    && (forall i, j :: 0 <= i < j < |users| ==> users[i].googleId != users[j].googleId)
    && (forall i, j :: 0 <= i < j < |users| ==> users[i].email != users[j].email)
  }

  /**
   * The users table after `get_or_create_user`, with the position of the
   * returned user; `None` when the commit breaks the unique e-mail constraint
   * (the `IntegrityError` propagates and nothing is stored).
   */
  function UpsertUser(users: seq<User>, data: GoogleUser, now: int): (r: Option<(seq<User>, nat)>)
  {
    var i := IndexOfGoogleId(users, data.googleId);
    if EmailTakenByOther(users, data.email, i) then None
    else if i < |users| then
      Some((users[i := users[i].(email := data.email, name := data.name, picture := Some(data.picture), updatedAt := now)], i))
    else
      Some((users + [User(|users| + 1, data.email, data.name, data.googleId, Some(data.picture), true, now)], i))
  }

  /**
   * What `get_or_create_user` promises: the returned row carries the token's
   * data, it is the only row with that Google id, at most one row is added,
   * every other row is untouched and the table stays well formed.
   */
  lemma UpsertUserSpec(users: seq<User>, data: GoogleUser, now: int)
    requires WellFormedUsers(users)
    ensures var r := UpsertUser(users, data, now);
            r.None? <==> exists k :: 0 <= k < |users| && users[k].email == data.email && users[k].googleId != data.googleId
    ensures var r := UpsertUser(users, data, now);
            r.Some? ==>
              var (t, i) := r.value;
              && WellFormedUsers(t)
              && i < |t|
              && t[i].googleId == data.googleId && t[i].email == data.email && t[i].name == data.name
              && t[i].picture == Some(data.picture) && t[i].updatedAt == now
              && (forall k :: 0 <= k < |t| && k != i ==> t[k].googleId != data.googleId)
              && |users| <= |t| <= |users| + 1
              && (forall k :: 0 <= k < |users| && k != i ==> t[k] == users[k])
  {
    var i := IndexOfGoogleId(users, data.googleId);
    if i < |users| {
      forall k | 0 <= k < |users| && k != i
        ensures users[k].googleId != data.googleId
      {
        if k < i { } else { assert users[i].googleId != users[k].googleId; }
      }
    }
  }

  /** Signing in twice with the same data stores the same table the second time. */
  lemma {:induction false} UpsertUserIdempotent(users: seq<User>, data: GoogleUser, now: int)
    requires WellFormedUsers(users)
    requires UpsertUser(users, data, now).Some?
    ensures UpsertUser(UpsertUser(users, data, now).value.0, data, now) == UpsertUser(users, data, now)
  {
    UpsertUserSpec(users, data, now);
    var (t, i) := UpsertUser(users, data, now).value;
    assert IndexOfGoogleId(t, data.googleId) == i;
    assert !EmailTakenByOther(t, data.email, i);
    assert t[i := t[i].(email := data.email, name := data.name, picture := Some(data.picture), updatedAt := now)] == t;
  }

  /**
   * The tables `get_or_create_user` writes: users, and the portfolio and bot
   * configuration rows keyed by the owner's user id.
   */
  class UserStore {
    var users: seq<User>
    var portfolios: seq<(nat, Portfolio)>
    var configs: seq<(nat, BotConfig)>

    ghost predicate Valid()
      reads this
    {
      WellFormedUsers(users)
    }

    constructor ()
      ensures Valid()
      ensures users == [] && portfolios == [] && configs == []
    {
      users, portfolios, configs := [], [], [];
    }

    /**
     * `get_or_create_user`: refresh the stored profile of a returning user, or
     * insert a new user together with a portfolio holding the initial balance
     * and a bot configuration with the configured defaults.
     */
    method GetOrCreateUser(data: GoogleUser, now: int) returns (user: Option<User>)
      requires Valid()
      modifies this
      ensures Valid()
      ensures UpsertUser(old(users), data, now).None? ==>
                user.None? && users == old(users) && portfolios == old(portfolios) && configs == old(configs)
      ensures UpsertUser(old(users), data, now).Some? ==>
                var (t, i) := UpsertUser(old(users), data, now).value;
                && users == t
                && user == Some(t[i])
                && (i < |old(users)| ==> portfolios == old(portfolios) && configs == old(configs))
                && (i == |old(users)| ==>
                      && portfolios == old(portfolios) + [(t[i].id, Portfolio(INITIAL_BALANCE, INITIAL_BALANCE))]
                      && configs == old(configs) + [(t[i].id, NewUserBotConfig())])
    {
      UpsertUserSpec(users, data, now);
      var i := IndexOfGoogleId(users, data.googleId);
      if EmailTakenByOther(users, data.email, i) {
        return None;
      }
      if i < |users| {
        var u := users[i].(email := data.email, name := data.name, picture := Some(data.picture), updatedAt := now);
        users := users[i := u];
        return Some(u);
      }
      var u := User(|users| + 1, data.email, data.name, data.googleId, Some(data.picture), true, now);
      users := users + [u];
      portfolios := portfolios + [(u.id, Portfolio(INITIAL_BALANCE, INITIAL_BALANCE))];
      configs := configs + [(u.id, NewUserBotConfig())];
      return Some(u);
    }
  }
}
