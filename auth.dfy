/**
 * The session check every authenticated endpoint depends on (apps/server/middleware/auth.py).
 * The bearer token comes from the Authorization header, or else from the `access_token`
 * cookie; the identity service that turns a token into a user is a parameter.
 */
module Auth {
  import opened Text
  import opened Http

  /** What the `HTTPBearer` dependency yields for an Authorization header: its scheme and credentials. */
  datatype Credentials = Credentials(scheme: string, credentials: string)

  /** A signed-in user, as the identity service returns it. */
  datatype User = User(id: string, email: string)

  /** The identity service: the user a token belongs to, if the session is valid. */
  type IdentityLookup = string -> Option<User>

  const BearerPrefix: string := "Bearer "

  predicate IsBearer(header: Option<Credentials>)
  {
    header.Some? && header.value.scheme == "Bearer"
  }

  /**
   * The token of a request. A Bearer header supplies it and the cookie is then ignored;
   * otherwise a cookie of the form "Bearer <token>" supplies the text after its first space.
   */
  function SelectToken(header: Option<Credentials>, cookie: Option<string>): (token: Option<string>)
    ensures IsBearer(header) ==> token == Some(header.value.credentials)
    ensures !IsBearer(header) ==>
              (token.Some? <==> cookie.Some? && StartsWith(cookie.value, BearerPrefix))
              && (token.Some? ==> cookie.value == BearerPrefix + token.value)
  {
    if IsBearer(header) then Some(header.value.credentials)
    else if cookie.Some? && cookie.value != "" && StartsWith(cookie.value, BearerPrefix) then
      BearerSpaceFirst(cookie.value);
      Some(AfterFirst(cookie.value, ' '))
    else None
  }

  /** In a text starting with "Bearer " the first space is the one that ends the prefix. */
  lemma {:induction false} BearerSpaceFirst(s: string)
    requires StartsWith(s, BearerPrefix)
    ensures IndexOf(s, ' ') == Some(|BearerPrefix| - 1)
    ensures s == BearerPrefix + s[|BearerPrefix|..]
  {
    assert s[6] == BearerPrefix[6];
  }

  /**
   * `verify_session`: 401 "Not authenticated" without a (non-empty) token, before the
   * identity service is asked; 401 "Invalid or expired session" when it knows no user for
   * the token; the user otherwise.
   */
  function VerifySession(header: Option<Credentials>, cookie: Option<string>, getUser: IdentityLookup): (r: Response<User>)
  {
    var token := SelectToken(header, cookie);
    if token.None? || token.value == "" then Failure(HttpError(401, "Not authenticated"))
    else match getUser(token.value)
         case None => Failure(HttpError(401, "Invalid or expired session"))
         case Some(user) => Success(user)
  }

  /**
   * A request is let through exactly when it carries a non-empty token that the identity
   * service knows, and then as that token's user; every refusal is a 401.
   */
  lemma {:induction false} SessionOutcome(header: Option<Credentials>, cookie: Option<string>, getUser: IdentityLookup)
    ensures var token := SelectToken(header, cookie);
      var r := VerifySession(header, cookie, getUser);
      (r.Success? <==> token.Some? && token.value != "" && getUser(token.value).Some?)
      && (r.Success? ==> r.value == getUser(token.value).value)
      && (r.Failure? ==> r.error.status == 401)
      && (r == Failure(HttpError(401, "Not authenticated")) <==> token.None? || token.value == "")
  {
  }

  /** With a Bearer header the cookie plays no part. */
  lemma {:induction false} HeaderOverridesCookie(header: Option<Credentials>, cookie1: Option<string>, cookie2: Option<string>, getUser: IdentityLookup)
    requires IsBearer(header)
    ensures VerifySession(header, cookie1, getUser) == VerifySession(header, cookie2, getUser)
  {
  }

  /** A header with another scheme counts as no header at all. */
  lemma {:induction false} OtherSchemeFallsBack(header: Option<Credentials>, cookie: Option<string>, getUser: IdentityLookup)
    requires header.Some? && !IsBearer(header)
    ensures VerifySession(header, cookie, getUser) == VerifySession(None, cookie, getUser)
  {
  }

  /** Without a token the identity service is never consulted: any two services give the same answer. */
  lemma {:induction false} NoTokenNoLookup(header: Option<Credentials>, cookie: Option<string>, getUser1: IdentityLookup, getUser2: IdentityLookup)
    requires SelectToken(header, cookie).None? || SelectToken(header, cookie).value == ""
    ensures VerifySession(header, cookie, getUser1) == VerifySession(header, cookie, getUser2)
  {
  }

  /** The cookie "Bearer <t>" yields exactly `t`, spaces in `t` included, and a cookie without the prefix yields nothing. */
  lemma {:induction false} CookieTokenRoundTrip(t: string, other: string)
    requires !StartsWith(other, BearerPrefix)
    ensures SelectToken(None, Some(BearerPrefix + t)) == Some(t)
    ensures SelectToken(None, Some(other)) == None
  {
    var cookie := BearerPrefix + t;
    assert cookie[..|BearerPrefix|] == BearerPrefix;
    BearerSpaceFirst(cookie);
    assert cookie[|BearerPrefix|..] == t;
  }
}
