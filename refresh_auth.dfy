/**
 * The refresh-capable authentication service (src/services/AuthService.ts):
 * the authorization-code grant (section 4.1.3 of RFC 6749), the refresh grant
 * (section 6 of RFC 6749), the 5-minute freshness check, and logout.
 *
 * Each operation is first a function from one `Session` to a result and the
 * next `Session`; the class `AuthService` performs the same steps on its
 * fields and is proved to agree with that function.
 */
module RefreshAuth {
  import opened Maybe
  import opened Text
  import opened Tokens

  /** `clearTokens`: the three authentication keys are deleted and nothing else. */
  function Cleared(m: Store): (r: Store)
    ensures r.Keys == m.Keys - {ACCESS_TOKEN_KEY, TOKEN_EXPIRY_KEY, REFRESH_TOKEN_KEY}
    ensures forall k :: k in r ==> r[k] == m[k]
  {
    m - {ACCESS_TOKEN_KEY, TOKEN_EXPIRY_KEY, REFRESH_TOKEN_KEY}
  }

  /** The writes of a successful grant: token and expiry, then the refresh token only if one came back. */
  function WithGrant(m: Store, reply: TokenReply, now: nat): Store {
    var r := WithAccessToken(m, reply, now);
    if Truthy(reply.refreshToken) then r[REFRESH_TOKEN_KEY := reply.refreshToken.value] else r
  }

  /** `isAuthenticated`: a non-empty access token is stored, and the store could be read. */
  predicate SignedIn(m: Store, readOk: bool) {
    readOk && Holds(m, ACCESS_TOKEN_KEY)
  }

  /** `exchangeCodeForToken(code, redirectUri)`. */
  function Exchange(s: Session, c: Credentials, code: string, redirectUri: string, now: nat): (TokenResult, Session) {
    if !c.Present() then (Failed(AuthenticationFailed), s)
    else
      var (o, s1) := s.Post(TokenRequest(AuthorizationCode(code, redirectUri), c.clientId, c.clientSecret));
      match o
      case Refused => (Failed(AuthenticationFailed), s1)
      case Granted(reply) => (Token(reply.accessToken), s1.(store := WithGrant(s1.store, reply, now)))
  }

  /** `refreshAccessToken()`; `readOk` is whether reading the refresh token succeeded. */
  function Refresh(s: Session, c: Credentials, now: nat, readOk: bool): (TokenResult, Session) {
    if !readOk || !Holds(s.store, REFRESH_TOKEN_KEY) || !c.Present() then
      (Failed(SessionExpired), s.(store := Cleared(s.store)))
    else
      var (o, s1) := s.Post(TokenRequest(RefreshGrant(s.store[REFRESH_TOKEN_KEY]), c.clientId, c.clientSecret));
      match o
      case Refused => (Failed(SessionExpired), s1.(store := Cleared(s1.store)))
      case Granted(reply) => (Token(reply.accessToken), s1.(store := WithGrant(s1.store, reply, now)))
  }

  /** `getValidToken()`; `readOk` is whether reading the token and the expiry succeeded. */
  function ValidToken(s: Session, c: Credentials, now: nat, readOk: bool): (TokenResult, Session) {
    if !readOk then (Failed(StorageUnreadable), s)
    else if !(Holds(s.store, ACCESS_TOKEN_KEY) && Holds(s.store, TOKEN_EXPIRY_KEY)) then (Failed(NoToken), s)
    else if FreshAt(s.store, now) then (Token(s.store[ACCESS_TOKEN_KEY]), s)
    else Refresh(s, c, now, true)
  }

  class AuthService {
    const credentials: Credentials
    var store: Store
    var posted: seq<TokenRequest>
    var replies: seq<PostOutcome>

    function State(): Session
      reads this
    {
      Session(store, posted, replies)
    }

    constructor (credentials: Credentials, store: Store, replies: seq<PostOutcome>)
      ensures this.credentials == credentials
      ensures State() == Session(store, [], replies)
    {
      this.credentials := credentials;
      this.store := store;
      this.posted := [];
      this.replies := replies;
    }

    /** `axios.post` to the token endpoint. */
    method Post(req: TokenRequest) returns (o: PostOutcome)
      modifies this
      ensures (o, State()) == old(State()).Post(req)
    {
      posted := posted + [req];
      if replies == [] {
        o := Refused;
      } else {
        o := replies[0];
        replies := replies[1..];
      }
    }

    method ExchangeCodeForToken(code: string, redirectUri: string, now: nat) returns (r: TokenResult)
      modifies this
      ensures (r, State()) == Exchange(old(State()), credentials, code, redirectUri, now)
    {
      if !credentials.Present() {
        return Failed(AuthenticationFailed);
      }
      var o := Post(TokenRequest(AuthorizationCode(code, redirectUri), credentials.clientId, credentials.clientSecret));
      if o.Refused? {
        return Failed(AuthenticationFailed);
      }
      var reply := o.reply;
      store := store[ACCESS_TOKEN_KEY := reply.accessToken];
      store := store[TOKEN_EXPIRY_KEY := NatToDecimal(ExpiryTime(now, reply.expiresIn))];
      if Truthy(reply.refreshToken) {
        store := store[REFRESH_TOKEN_KEY := reply.refreshToken.value];
      }
      return Token(reply.accessToken);
    }

    method RefreshAccessToken(now: nat, readOk: bool) returns (r: TokenResult)
      modifies this
      ensures (r, State()) == Refresh(old(State()), credentials, now, readOk)
    {
      if !readOk || !Holds(store, REFRESH_TOKEN_KEY) || !credentials.Present() {
        ClearTokens();
        return Failed(SessionExpired);
      }
      var o := Post(TokenRequest(RefreshGrant(store[REFRESH_TOKEN_KEY]), credentials.clientId, credentials.clientSecret));
      if o.Refused? {
        ClearTokens();
        return Failed(SessionExpired);
      }
      var reply := o.reply;
      store := store[ACCESS_TOKEN_KEY := reply.accessToken];
      store := store[TOKEN_EXPIRY_KEY := NatToDecimal(ExpiryTime(now, reply.expiresIn))];
      if Truthy(reply.refreshToken) {
        store := store[REFRESH_TOKEN_KEY := reply.refreshToken.value];
      }
      return Token(reply.accessToken);
    }

    method GetValidToken(now: nat, readOk: bool) returns (r: TokenResult)
      modifies this
      ensures (r, State()) == ValidToken(old(State()), credentials, now, readOk)
    {
      if !readOk {
        return Failed(StorageUnreadable);
      }
      if Holds(store, ACCESS_TOKEN_KEY) && Holds(store, TOKEN_EXPIRY_KEY) {
        if FreshAt(store, now) {
          return Token(store[ACCESS_TOKEN_KEY]);
        }
        r := RefreshAccessToken(now, true);
        return;
      }
      return Failed(NoToken);
    }

    method IsAuthenticated(readOk: bool) returns (b: bool)
      ensures b == SignedIn(store, readOk)
    {
      b := readOk && ACCESS_TOKEN_KEY in store && store[ACCESS_TOKEN_KEY] != "";
    }

    method ClearTokens()
      modifies this
      ensures State() == old(State()).(store := Cleared(old(store)))
    {
      store := store - {ACCESS_TOKEN_KEY};
      store := store - {TOKEN_EXPIRY_KEY};
      store := store - {REFRESH_TOKEN_KEY};
    }
  }

  /** A fresh stored token is returned as it is: no POST, nothing written. */
  lemma FreshTokenServedFromStore(s: Session, c: Credentials, now: nat)
    requires Holds(s.store, ACCESS_TOKEN_KEY) && Holds(s.store, TOKEN_EXPIRY_KEY)
    requires FreshAt(s.store, now)
    ensures ValidToken(s, c, now, true) == (Token(s.store[ACCESS_TOKEN_KEY]), s)
  {
  }

  /**
   * A stored but stale token is handed to the refresh grant exactly once: at most
   * one POST, and when the refresh token and credentials are there, exactly the
   * refresh grant for the stored refresh token.
   */
  lemma StaleTokenRefreshedOnce(s: Session, c: Credentials, now: nat)
    requires Holds(s.store, ACCESS_TOKEN_KEY) && Holds(s.store, TOKEN_EXPIRY_KEY)
    requires !FreshAt(s.store, now)
    ensures ValidToken(s, c, now, true) == Refresh(s, c, now, true)
    ensures var s' := ValidToken(s, c, now, true).1;
      if Holds(s.store, REFRESH_TOKEN_KEY) && c.Present() then
        s'.posted == s.posted + [TokenRequest(RefreshGrant(s.store[REFRESH_TOKEN_KEY]), c.clientId, c.clientSecret)]
      else
        s'.posted == s.posted
  {
  }

  /** Without a stored token or expiry there is no refresh, even when a refresh token is stored. */
  lemma MissingTokenNotRefreshed(s: Session, c: Credentials, now: nat)
    requires !(Holds(s.store, ACCESS_TOKEN_KEY) && Holds(s.store, TOKEN_EXPIRY_KEY))
    ensures ValidToken(s, c, now, true) == (Failed(NoToken), s)
  {
  }

  /**
   * The exchange fails exactly when the client id or secret is missing or the
   * POST is refused; every failure is the one authentication error and writes
   * nothing; without a client id and secret nothing is posted at all; otherwise
   * exactly the authorization-code request is posted.
   */
  lemma ExchangeFailures(s: Session, c: Credentials, code: string, redirectUri: string, now: nat)
    ensures var (r, s') := Exchange(s, c, code, redirectUri, now);
      && (r.Failed? ==> r.error == AuthenticationFailed && s'.store == s.store)
      && (!c.Present() ==> s' == s)
      && (c.Present() ==> s'.posted == s.posted + [TokenRequest(AuthorizationCode(code, redirectUri), c.clientId, c.clientSecret)])
      && (r.Failed? <==> !c.Present() || s.replies == [] || s.replies[0].Refused?)
  {
  }

  /**
   * What a successful grant leaves in the store: the returned token, an expiry
   * that `parseInt` reads back as `now + expires_in * 1000`, the new refresh
   * token when one was returned and otherwise the old one (or none) untouched,
   * and every other key as it was.
   */
  lemma {:induction false} GrantWritten(m: Store, reply: TokenReply, now: nat)
    ensures var r := WithGrant(m, reply, now);
      && r[ACCESS_TOKEN_KEY] == reply.accessToken
      && ParseInt(r[TOKEN_EXPIRY_KEY]) == Some(ExpiryTime(now, reply.expiresIn))
      && (Truthy(reply.refreshToken) ==> r[REFRESH_TOKEN_KEY] == reply.refreshToken.value)
      && (!Truthy(reply.refreshToken) ==> (REFRESH_TOKEN_KEY in r <==> REFRESH_TOKEN_KEY in m))
      && (!Truthy(reply.refreshToken) && REFRESH_TOKEN_KEY in m ==> r[REFRESH_TOKEN_KEY] == m[REFRESH_TOKEN_KEY])
      && (forall k :: k in m && k !in {ACCESS_TOKEN_KEY, TOKEN_EXPIRY_KEY, REFRESH_TOKEN_KEY} ==> k in r && r[k] == m[k])
      && PairStoredTogether(r)
  {
    AccessTokenWritten(m, reply, now);
  }

  /** A successful exchange returns the token and stores it as `GrantWritten` describes. */
  lemma ExchangeSuccess(s: Session, c: Credentials, code: string, redirectUri: string, now: nat)
    requires c.Present() && s.replies != [] && s.replies[0].Granted?
    ensures var reply := s.replies[0].reply;
      var (r, s') := Exchange(s, c, code, redirectUri, now);
      && r == Token(reply.accessToken)
      && s'.store == WithGrant(s.store, reply, now)
      && s'.replies == s.replies[1..]
      && SignedIn(s'.store, true) == (reply.accessToken != "")
  {
    GrantWritten(s.store, s.replies[0].reply, now);
  }

  /** A successful refresh returns the new token and overwrites token and expiry, keeping an old refresh token unless a new one came. */
  lemma RefreshSuccess(s: Session, c: Credentials, now: nat)
    requires c.Present() && Holds(s.store, REFRESH_TOKEN_KEY)
    requires s.replies != [] && s.replies[0].Granted?
    ensures var reply := s.replies[0].reply;
      var (r, s') := Refresh(s, c, now, true);
      && r == Token(reply.accessToken)
      && s'.store == WithGrant(s.store, reply, now)
      && s'.store[REFRESH_TOKEN_KEY] == (if Truthy(reply.refreshToken) then reply.refreshToken.value else s.store[REFRESH_TOKEN_KEY])
  {
    GrantWritten(s.store, s.replies[0].reply, now);
  }

  /**
   * Any refresh failure — no refresh token, no credentials, an unreadable store
   * or a refused POST — is the session-expired error and erases all three keys.
   */
  lemma RefreshFailureErases(s: Session, c: Credentials, now: nat, readOk: bool)
    ensures var (r, s') := Refresh(s, c, now, readOk);
      && (r.Failed? ==> r.error == SessionExpired && s'.store == Cleared(s.store))
      && (r.Failed? <==> !readOk || !Holds(s.store, REFRESH_TOKEN_KEY) || !c.Present() || s.replies == [] || s.replies[0].Refused?)
  {
  }

  /**
   * After `clearTokens` nobody is signed in, clearing again changes nothing, and
   * `getValidToken` fails without posting anything or writing to the store.
   */
  lemma ClearedSessionHasNoToken(s: Session, c: Credentials, now: nat, readOk: bool)
    ensures Cleared(Cleared(s.store)) == Cleared(s.store)
    ensures !SignedIn(Cleared(s.store), readOk)
    ensures var cleared := s.(store := Cleared(s.store));
      ValidToken(cleared, c, now, readOk) == (Failed(if readOk then NoToken else StorageUnreadable), cleared)
  {
  }

  /** A token `getValidToken` resolves to is the access token left in the store. */
  lemma IssuedTokenIsStored(s: Session, c: Credentials, now: nat, readOk: bool)
    ensures var (r, s') := ValidToken(s, c, now, readOk);
      r.Token? ==> ACCESS_TOKEN_KEY in s'.store && s'.store[ACCESS_TOKEN_KEY] == r.value
  {
    if readOk && Holds(s.store, ACCESS_TOKEN_KEY) && Holds(s.store, TOKEN_EXPIRY_KEY) && !FreshAt(s.store, now)
      && Holds(s.store, REFRESH_TOKEN_KEY) && c.Present() && s.replies != [] && s.replies[0].Granted? {
      GrantWritten(s.store, s.replies[0].reply, now);
    }
  }

  /** No operation ever leaves an access token without an expiry, or an expiry without a token. */
  lemma PairKeptTogether(s: Session, c: Credentials, code: string, redirectUri: string, now: nat, readOk: bool)
    requires PairStoredTogether(s.store)
    ensures PairStoredTogether(Exchange(s, c, code, redirectUri, now).1.store)
    ensures PairStoredTogether(Refresh(s, c, now, readOk).1.store)
    ensures PairStoredTogether(ValidToken(s, c, now, readOk).1.store)
    ensures PairStoredTogether(Cleared(s.store))
  {
    if s.replies != [] && s.replies[0].Granted? {
      GrantWritten(s.store, s.replies[0].reply, now);
    }
  }

  /** A refresh of a stale token whose new lifetime exceeds the buffer moves the deadline strictly later. */
  lemma RefreshExtendsDeadline(s: Session, c: Credentials, now: nat)
    requires Holds(s.store, ACCESS_TOKEN_KEY) && Holds(s.store, TOKEN_EXPIRY_KEY)
    requires ParseInt(s.store[TOKEN_EXPIRY_KEY]).Some? && !FreshAt(s.store, now)
    requires c.Present() && Holds(s.store, REFRESH_TOKEN_KEY)
    requires s.replies != [] && s.replies[0].Granted? && s.replies[0].reply.expiresIn > 300
    ensures var s' := ValidToken(s, c, now, true).1;
      && ParseInt(s'.store[TOKEN_EXPIRY_KEY]).Some?
      && ParseInt(s'.store[TOKEN_EXPIRY_KEY]).value > ParseInt(s.store[TOKEN_EXPIRY_KEY]).value
      && FreshAt(s'.store, now)
  {
    AccessTokenWritten(s.store, s.replies[0].reply, now);
    GrantWritten(s.store, s.replies[0].reply, now);
  }

  /**
   * Signing in with code "abc" and redirect "app://cb", answered with token "T1",
   * lifetime 7200 s and refresh token "R1": afterwards the user is signed in and
   * `getValidToken` returns "T1" without another POST.
   */
  lemma SignInScenario(store: Store, c: Credentials, now: nat)
    requires c.Present()
    ensures var s := Session(store, [], [Granted(TokenReply("T1", 7200, Some("R1")))]);
      var (r, s1) := Exchange(s, c, "abc", "app://cb", now);
      && r == Token("T1")
      && SignedIn(s1.store, true)
      && ValidToken(s1, c, now, true) == (Token("T1"), s1)
  {
    var reply := TokenReply("T1", 7200, Some("R1"));
    var s := Session(store, [], [Granted(reply)]);
    ExchangeSuccess(s, c, "abc", "app://cb", now);
    var s1 := Exchange(s, c, "abc", "app://cb", now).1;
    GrantWritten(store, reply, now);
    assert s1.store[TOKEN_EXPIRY_KEY] == NatToDecimal(ExpiryTime(now, 7200));
    assert Holds(s1.store, ACCESS_TOKEN_KEY) && Holds(s1.store, TOKEN_EXPIRY_KEY);
    assert FreshAt(s1.store, now);
    FreshTokenServedFromStore(s1, c, now);
  }

  /**
   * A token expiring in 60 s (inside the buffer) with refresh token "R1", refreshed
   * to "T2" with lifetime 7200 s and no new refresh token: `getValidToken` returns
   * "T2" and "R1" stays stored.
   */
  lemma ExpiryScenario(c: Credentials, now: nat)
    requires c.Present()
    ensures var store := map[ACCESS_TOKEN_KEY := "T1", TOKEN_EXPIRY_KEY := NatToDecimal(now + 60000), REFRESH_TOKEN_KEY := "R1"];
      var s := Session(store, [], [Granted(TokenReply("T2", 7200, None))]);
      var (r, s1) := ValidToken(s, c, now, true);
      && r == Token("T2")
      && s1.store[REFRESH_TOKEN_KEY] == "R1"
      && s1.posted == [TokenRequest(RefreshGrant("R1"), c.clientId, c.clientSecret)]
  {
    var store := map[ACCESS_TOKEN_KEY := "T1", TOKEN_EXPIRY_KEY := NatToDecimal(now + 60000), REFRESH_TOKEN_KEY := "R1"];
    assert store[TOKEN_EXPIRY_KEY] == NatToDecimal(now + 60000);
    ParseIntOfDecimal(now + 60000);
    assert Holds(store, ACCESS_TOKEN_KEY) && Holds(store, TOKEN_EXPIRY_KEY) && Holds(store, REFRESH_TOKEN_KEY);
    assert !FreshAt(store, now);
    var s := Session(store, [], [Granted(TokenReply("T2", 7200, None))]);
    StaleTokenRefreshedOnce(s, c, now);
    RefreshSuccess(s, c, now);
  }
}
