/** The front end's session bookkeeping: the access token, its expiry and the signed-in
    user live in `localStorage` under three keys. Logging in or refreshing writes a
    fifteen-minute expiry as decimal text; the session counts as signed in until that
    moment, and in its last minute a background refresh is started. The network is a
    parameter: each call receives the outcome of its request. */
module AuthSession {
  import opened Optional
  import opened Text

  const TokenKey: string := "authToken"
  const ExpiryKey: string := "tokenExpiry"
  const UserKey: string := "user"

  /** Fifteen minutes, the lifetime written with every new token. */
  const TokenLifetime: int := 15 * 60 * 1000
  /** One minute, the window before expiry in which a refresh starts. */
  const RefreshWindow: int := 60 * 1000

  const ServerError: string := "Server error. Please try again."
  const LoginFailed: string := "Login failed"
  const NetworkError: string := "Network error. Please check your connection."

  /** `localStorage`, read and written directly. */
  type Local = map<string, string>

  /** `getItem`: the stored text, or null. */
  function Read(local: Local, key: string): (r: Option<string>)
    ensures r.Some? <==> key in local
    ensures r.Some? ==> r.value == local[key]
  {
    if key in local then Some(local[key]) else None
  }

  // ---------------------------------------------------------------------------
  // parseInt

  /** The digits `u` starts with, read as a number; `None` when it does not start
      with one. */
  function LeadingNumber(u: string): (r: Option<nat>)
    ensures r.None? <==> u == [] || !IsDigit(u[0])
  {
    var n := DigitSpan(u);
    if n == 0 then None else Some(DigitsValue(u[..n]))
  }

  /** `parseInt(s)` on decimal text: leading whitespace is skipped, one sign is
      allowed, and the longest run of digits after it is read; with no digit the
      result is NaN (`None`). */
  function ParseInt(s: string): (r: Option<int>)
    ensures s == [] ==> r.None?
    ensures s != [] && !IsSpace(s[0]) && !IsDigit(s[0]) && s[0] != '+' && s[0] != '-' ==> r.None?
    ensures s != [] && IsDigit(s[0]) ==> r.Some? && r.value >= 0
  {
    ParseTrimmed(TrimStart(s))
  }

  /** `parseInt` after the whitespace: an optional sign, then the digits. */
  function ParseTrimmed(t: string): (r: Option<int>)
    ensures r.None? <==> t == [] || (t[0] in "+-" && LeadingNumber(t[1..]).None?) || (t[0] !in "+-" && !IsDigit(t[0]))
  {
    if t == [] then None
    else if t[0] == '-' then
      match LeadingNumber(t[1..])
      case None => None
      case Some(m) => Some(-(m as int))
    else if t[0] == '+' then
      match LeadingNumber(t[1..])
      case None => None
      case Some(m) => Some(m)
    else
      match LeadingNumber(t)
      case None => None
      case Some(m) => Some(m)
  }

  /** Leading whitespace does not change the reading. */
  lemma ParseIntSkipsSpace(s: string)
    requires s != [] && IsSpace(s[0])
    ensures ParseInt(s) == ParseInt(s[1..])
  {
  }

  /** A digit is never whitespace, so text starting with one is not trimmed. */
  lemma NoTrimBeforeSign(s: string)
    requires s != [] && (IsDigit(s[0]) || s[0] == '-')
    ensures TrimStart(s) == s
  {
  }

  /** A whole run of digits reads as its value. */
  lemma LeadingNumberAll(u: string)
    requires u != [] && AllDigits(u)
    ensures LeadingNumber(u) == Some(DigitsValue(u))
  {
    DigitSpanAll(u);
    assert u[..|u|] == u;
  }

  /** Reading back a printed integer gives the integer. */
  lemma ParseIntRoundTrip(n: int)
    ensures ParseInt(IntToString(n)) == Some(n)
  {
    var s := IntToString(n);
    NoTrimBeforeSign(s);
    var m: nat := if n < 0 then -n else n;
    var d := if n < 0 then s[1..] else s;
    assert d == NatToString(m);
    LeadingNumberAll(d);
    NatToStringRoundTrip(m);
  }

  // ---------------------------------------------------------------------------
  // Login, refresh, logout

  /** The login endpoint's JSON body, and the value `login` resolves to. The user is
      kept as its JSON text. */
  datatype LoginResponse = LoginResponse(success: bool, message: Option<string>, token: Option<string>, user: Option<string>)

  function Failure(message: string): LoginResponse {
    LoginResponse(false, Some(message), None, None)
  }

  /** What the login request comes to: a reply that is not JSON, a JSON reply with
      its `ok` status, or a request (or body parse) that threw. */
  datatype LoginOutcome = NonJson | Json(ok: bool, body: LoginResponse) | Threw

  /** `JSON.stringify(data.user)` as stored: an absent user is stored as the text
      "undefined". */
  function UserText(user: Option<string>): string {
    user.GetOr("undefined")
  }

  /** `login`: on an `ok` reply carrying a token, the token, an expiry fifteen minutes
      from `now` and the user are stored and the reply is returned as is; every
      failure leaves storage alone and resolves to a message. */
  function Login(local: Local, outcome: LoginOutcome, now: int): (r: (Local, LoginResponse))
    ensures outcome.NonJson? ==> r == (local, Failure(ServerError))
    ensures outcome.Threw? ==> r == (local, Failure(NetworkError))
    ensures outcome.Json? && !outcome.ok ==>
              r.0 == local && !r.1.success && r.1.message == Some(OrString(outcome.body.message, LoginFailed))
    ensures outcome.Json? && outcome.ok ==> r.1 == outcome.body
    ensures outcome.Json? && outcome.ok && TruthyString(outcome.body.token) ==>
              && Read(r.0, TokenKey) == outcome.body.token
              && Read(r.0, ExpiryKey) == Some(IntToString(now + TokenLifetime))
              && Read(r.0, UserKey) == Some(UserText(outcome.body.user))
    ensures !(outcome.Json? && outcome.ok && TruthyString(outcome.body.token)) ==> r.0 == local
    ensures forall k :: k != TokenKey && k != ExpiryKey && k != UserKey ==> Read(r.0, k) == Read(local, k)
  {
    match outcome
    case NonJson => (local, Failure(ServerError))
    case Threw => (local, Failure(NetworkError))
    case Json(ok, body) =>
      if !ok then (local, Failure(OrString(body.message, LoginFailed)))
      else if TruthyString(body.token) then
        (local[TokenKey := body.token.value][ExpiryKey := IntToString(now + TokenLifetime)][UserKey := UserText(body.user)], body)
      else (local, body)
  }

  /** What the refresh request comes to: a status that is not `ok`, an `ok` reply with
      its token, or a request that threw. */
  datatype RefreshOutcome = NotOk | Refreshed(token: Option<string>) | RefreshThrew

  /** `refreshAccessToken`: true exactly when an `ok` reply carries a token, which is
      then stored with a new fifteen-minute expiry; the user is left as it was. */
  function Refresh(local: Local, outcome: RefreshOutcome, now: int): (r: (Local, bool))
    ensures r.1 <==> outcome.Refreshed? && TruthyString(outcome.token)
    ensures r.1 ==> Read(r.0, TokenKey) == outcome.token && Read(r.0, ExpiryKey) == Some(IntToString(now + TokenLifetime))
    ensures !r.1 ==> r.0 == local
    ensures forall k :: k != TokenKey && k != ExpiryKey ==> Read(r.0, k) == Read(local, k)
  {
    if outcome.Refreshed? && TruthyString(outcome.token) then
      (local[TokenKey := outcome.token.value][ExpiryKey := IntToString(now + TokenLifetime)], true)
    else (local, false)
  }

  /** `logout`: whatever the request does, the three keys are removed. */
  function Logout(local: Local): (r: Local)
    ensures TokenKey !in r && ExpiryKey !in r && UserKey !in r
    ensures forall k :: k != TokenKey && k != ExpiryKey && k != UserKey ==> Read(r, k) == Read(local, k)
  {
    local - {TokenKey, ExpiryKey, UserKey}
  }

  /** `getUser`: the stored user text when it is not empty. */
  function GetUser(local: Local): (r: Option<string>)
    ensures r.Some? <==> TruthyString(Read(local, UserKey))
    ensures r.Some? ==> r.value == local[UserKey]
  {
    if UserKey in local && local[UserKey] != "" then Some(local[UserKey]) else None
  }

  // ---------------------------------------------------------------------------
  // isAuthenticated

  /** The answer of `isAuthenticated`, and whether it started a background refresh. */
  datatype Check = Check(authenticated: bool, refresh: bool)

  /** `isAuthenticated`: false without a token or an expiry, or once `now` is past the
      expiry; a background refresh starts when less than a minute is left. An expiry
      that does not parse compares false both ways, so it counts as signed in. */
  function IsAuthenticated(local: Local, now: int): (r: Check)
    ensures r.refresh ==> r.authenticated
    ensures !TruthyString(Read(local, TokenKey)) || !TruthyString(Read(local, ExpiryKey)) ==> !r.authenticated
    ensures TruthyString(Read(local, TokenKey)) && TruthyString(Read(local, ExpiryKey)) ==>
              var e := ParseInt(local[ExpiryKey]);
              && (e.None? ==> r == Check(true, false))
              && (e.Some? ==> (r.authenticated <==> now <= e.value) && (r.refresh <==> now <= e.value < now + RefreshWindow))
  {
    var token := Read(local, TokenKey);
    var expiry := Read(local, ExpiryKey);
    if !TruthyString(token) || !TruthyString(expiry) then Check(false, false)
    else
      match ParseInt(expiry.value)
      case None => Check(true, false)
      case Some(e) =>
        if now > e then Check(false, false)
        else Check(true, e - now < RefreshWindow)
  }

  /** After a login that stored a token, the session is signed in through the next
      fifteen minutes and not after, and the refresh starts in the last minute. */
  lemma LoginThenAuthenticated(local: Local, body: LoginResponse, now: int, later: int)
    requires TruthyString(body.token)
    ensures var c := IsAuthenticated(Login(local, Json(true, body), now).0, later);
            && (c.authenticated <==> later <= now + TokenLifetime)
            && (c.refresh <==> now + TokenLifetime - RefreshWindow < later <= now + TokenLifetime)
  {
    ParseIntRoundTrip(now + TokenLifetime);
  }

  /** The same holds after a successful refresh. */
  lemma RefreshThenAuthenticated(local: Local, token: string, now: int, later: int)
    requires token != ""
    ensures var c := IsAuthenticated(Refresh(local, Refreshed(Some(token)), now).0, later);
            && (c.authenticated <==> later <= now + TokenLifetime)
            && (c.refresh <==> now + TokenLifetime - RefreshWindow < later <= now + TokenLifetime)
  {
    ParseIntRoundTrip(now + TokenLifetime);
  }

  /** A failed login or refresh leaves the answer of `isAuthenticated` as it was. */
  lemma FailureKeepsSession(local: Local, outcome: LoginOutcome, refresh: RefreshOutcome, now: int, later: int)
    requires !(outcome.Json? && outcome.ok && TruthyString(outcome.body.token))
    requires !(refresh.Refreshed? && TruthyString(refresh.token))
    ensures IsAuthenticated(Login(local, outcome, now).0, later) == IsAuthenticated(local, later)
    ensures IsAuthenticated(Refresh(local, refresh, now).0, later) == IsAuthenticated(local, later)
  {
  }

  /** After a logout nobody is signed in and there is no user. */
  lemma LogoutSignsOut(local: Local, now: int)
    ensures !IsAuthenticated(Logout(local), now).authenticated
    ensures GetUser(Logout(local)) == None
  {
  }

  /** A token with an expiry that is not a number counts as signed in at every time,
      and never triggers a refresh. */
  lemma GarbledExpiryNeverExpires(local: Local, now: int)
    requires TruthyString(Read(local, TokenKey)) && TruthyString(Read(local, ExpiryKey))
    requires ParseInt(local[ExpiryKey]).None?
    ensures IsAuthenticated(local, now) == Check(true, false)
  {
  }
}
