/**
 * The earlier authentication service (services/AuthService.ts): an access
 * token from the client-credentials grant (section 4.4 of RFC 6749), no
 * refresh token, and a fallback to a new grant whenever the stored token is
 * missing, stale or unreadable.
 *
 * As in `RefreshAuth`, each operation is a function on `Session` and the class
 * `AuthService` is proved to perform it.
 */
module ClientCredentialsAuth {
  import opened Maybe
  import opened Text
  import opened Tokens

  /** `clearTokens`: the token and its expiry are deleted; any other key, `refresh_token` too, stays. */
  function Cleared(m: Store): (r: Store)
    ensures r.Keys == m.Keys - {ACCESS_TOKEN_KEY, TOKEN_EXPIRY_KEY}
    ensures forall k :: k in r ==> r[k] == m[k]
  {
    m - {ACCESS_TOKEN_KEY, TOKEN_EXPIRY_KEY}
  }

  /** `authenticate()`: the client-credentials grant. */
  function Authentication(s: Session, c: Credentials, now: nat): (TokenResult, Session) {
    if !c.Present() then (Failed(AuthenticationFailed), s)
    else
      var (o, s1) := s.Post(TokenRequest(ClientCredentials, c.clientId, c.clientSecret));
      match o
      case Refused => (Failed(AuthenticationFailed), s1)
      case Granted(reply) => (Token(reply.accessToken), s1.(store := WithAccessToken(s1.store, reply, now)))
  }

  /**
   * `getValidToken()`; `readOk` is whether reading the token and the expiry
   * succeeded. A missing or stale token calls `authenticate` inside the `try`;
   * when that call fails, the `catch` calls `authenticate` a second time and its
   * outcome is final. An unreadable store goes straight to the `catch`.
   */
  function ValidToken(s: Session, c: Credentials, now: nat, readOk: bool): (TokenResult, Session) {
    if !readOk then Authentication(s, c, now)
    else if Holds(s.store, ACCESS_TOKEN_KEY) && Holds(s.store, TOKEN_EXPIRY_KEY) && FreshAt(s.store, now) then
      (Token(s.store[ACCESS_TOKEN_KEY]), s)
    else
      var (r, s1) := Authentication(s, c, now);
      if r.Token? then (r, s1) else Authentication(s1, c, now)
  }

  class AuthService {
    const credentials: Credentials
    var store: Store
    var posted: seq<TokenRequest>
    var replies: seq<PostOutcome>

    function State(): Session
      reads this
    {
      Session(store, posted, replies)
    }

    constructor (credentials: Credentials, store: Store, replies: seq<PostOutcome>)
      ensures this.credentials == credentials
      ensures State() == Session(store, [], replies)
    {
      this.credentials := credentials;
      this.store := store;
      this.posted := [];
      this.replies := replies;
    }

    /** `axios.post` to the token endpoint. */
    method Post(req: TokenRequest) returns (o: PostOutcome)
      modifies this
      ensures (o, State()) == old(State()).Post(req)
    {
      posted := posted + [req];
      if replies == [] {
        o := Refused;
      } else {
        o := replies[0];
        replies := replies[1..];
      }
    }

    method Authenticate(now: nat) returns (r: TokenResult)
      modifies this
      ensures (r, State()) == Authentication(old(State()), credentials, now)
    {
      if !credentials.Present() {
        return Failed(AuthenticationFailed);
      }
      var o := Post(TokenRequest(ClientCredentials, credentials.clientId, credentials.clientSecret));
      if o.Refused? {
        return Failed(AuthenticationFailed);
      }
      var reply := o.reply;
      store := store[ACCESS_TOKEN_KEY := reply.accessToken];
      store := store[TOKEN_EXPIRY_KEY := NatToDecimal(ExpiryTime(now, reply.expiresIn))];
      return Token(reply.accessToken);
    }

    method GetValidToken(now: nat, readOk: bool) returns (r: TokenResult)
      modifies this
      ensures (r, State()) == ValidToken(old(State()), credentials, now, readOk)
    {
      if !readOk {
        r := Authenticate(now);
        return;
      }
      if Holds(store, ACCESS_TOKEN_KEY) && Holds(store, TOKEN_EXPIRY_KEY) && FreshAt(store, now) {
        return Token(store[ACCESS_TOKEN_KEY]);
      }
      r := Authenticate(now);
      if r.Failed? {
        r := Authenticate(now);
      }
    }

    method ClearTokens()
      modifies this
      ensures State() == old(State()).(store := Cleared(old(store)))
    {
      store := store - {ACCESS_TOKEN_KEY};
      store := store - {TOKEN_EXPIRY_KEY};
    }
  }

  /** A fresh stored token is returned as it is: no grant is requested, nothing written. */
  lemma FreshTokenServedFromStore(s: Session, c: Credentials, now: nat)
    requires Holds(s.store, ACCESS_TOKEN_KEY) && Holds(s.store, TOKEN_EXPIRY_KEY)
    requires FreshAt(s.store, now)
    ensures ValidToken(s, c, now, true) == (Token(s.store[ACCESS_TOKEN_KEY]), s)
  {
  }

  /**
   * A missing, empty or stale token leads to `authenticate`: when that first call
   * succeeds its token is the result and exactly one grant was posted; when it
   * fails, a second call is made and its outcome is the result.
   */
  lemma UnusableTokenAuthenticates(s: Session, c: Credentials, now: nat)
    requires !(Holds(s.store, ACCESS_TOKEN_KEY) && Holds(s.store, TOKEN_EXPIRY_KEY) && FreshAt(s.store, now))
    ensures var (r1, s1) := Authentication(s, c, now);
      && (r1.Token? ==> ValidToken(s, c, now, true) == (r1, s1)
                        && s1.posted == s.posted + [TokenRequest(ClientCredentials, c.clientId, c.clientSecret)])
      && (r1.Failed? ==> ValidToken(s, c, now, true) == Authentication(s1, c, now))
  {
  }

  /** A store that cannot be read leads to exactly one `authenticate`, whose outcome is the result. */
  lemma UnreadableStoreAuthenticates(s: Session, c: Credentials, now: nat)
    ensures ValidToken(s, c, now, false) == Authentication(s, c, now)
    ensures |ValidToken(s, c, now, false).1.posted| <= |s.posted| + 1
  {
  }

  /**
   * `authenticate` fails exactly when the client id or secret is missing or the
   * POST is refused; every failure is the one authentication error and writes
   * nothing; without a client id and secret nothing is posted; otherwise exactly
   * the client-credentials request is.
   */
  lemma AuthenticateFailures(s: Session, c: Credentials, now: nat)
    ensures var (r, s') := Authentication(s, c, now);
      && (r.Failed? ==> r.error == AuthenticationFailed && s'.store == s.store)
      && (!c.Present() ==> s' == s)
      && (c.Present() ==> s'.posted == s.posted + [TokenRequest(ClientCredentials, c.clientId, c.clientSecret)])
      && (r.Failed? <==> !c.Present() || s.replies == [] || s.replies[0].Refused?)
  {
  }

  /**
   * A successful `authenticate` returns the granted token, stores it with an
   * expiry that reads back as `now + expires_in * 1000`, and leaves every other
   * key, `refresh_token` included, as it was.
   */
  lemma AuthenticateSuccess(s: Session, c: Credentials, now: nat)
    requires c.Present() && s.replies != [] && s.replies[0].Granted?
    ensures var reply := s.replies[0].reply;
      var (r, s') := Authentication(s, c, now);
      && r == Token(reply.accessToken)
      && s'.store[ACCESS_TOKEN_KEY] == reply.accessToken
      && ParseInt(s'.store[TOKEN_EXPIRY_KEY]) == Some(ExpiryTime(now, reply.expiresIn))
      && (forall k :: k in s.store && k != ACCESS_TOKEN_KEY && k != TOKEN_EXPIRY_KEY ==> k in s'.store && s'.store[k] == s.store[k])
      && PairStoredTogether(s'.store)
  {
    AccessTokenWritten(s.store, s.replies[0].reply, now);
  }

  /**
   * A token just granted with a lifetime over the 5-minute buffer is served from
   * the store by the next `getValidToken` at the same instant, with no new grant.
   */
  lemma GrantedTokenServedAgain(s: Session, c: Credentials, now: nat)
    requires c.Present() && s.replies != [] && s.replies[0].Granted?
    requires s.replies[0].reply.accessToken != "" && s.replies[0].reply.expiresIn > 300
    ensures var (r, s1) := Authentication(s, c, now);
      ValidToken(s1, c, now, true) == (r, s1)
  {
    AccessTokenWritten(s.store, s.replies[0].reply, now);
  }

  /** A token `getValidToken` resolves to is the access token left in the store. */
  lemma IssuedTokenIsStored(s: Session, c: Credentials, now: nat, readOk: bool)
    ensures var (r, s') := ValidToken(s, c, now, readOk);
      r.Token? ==> ACCESS_TOKEN_KEY in s'.store && s'.store[ACCESS_TOKEN_KEY] == r.value
  {
    AuthenticationStoresToken(s, c, now);
    var s1 := Authentication(s, c, now).1;
    AuthenticationStoresToken(s1, c, now);
  }

  /** A token `authenticate` resolves to is the access token it stored. */
  lemma AuthenticationStoresToken(s: Session, c: Credentials, now: nat)
    ensures var (r, s') := Authentication(s, c, now);
      r.Token? ==> ACCESS_TOKEN_KEY in s'.store && s'.store[ACCESS_TOKEN_KEY] == r.value
  {
    if c.Present() && s.replies != [] && s.replies[0].Granted? {
      var reply := s.replies[0].reply;
      assert WithAccessToken(s.store, reply, now)[ACCESS_TOKEN_KEY] == reply.accessToken;
    }
  }

  /** After `clearTokens` the next `getValidToken` always asks for a new grant when credentials are set. */
  lemma ClearedSessionReauthenticates(s: Session, c: Credentials, now: nat, readOk: bool)
    requires c.Present()
    ensures Cleared(Cleared(s.store)) == Cleared(s.store)
    ensures var cleared := s.(store := Cleared(s.store));
      var s' := ValidToken(cleared, c, now, readOk).1;
      |s'.posted| > |s.posted| && s'.posted[|s.posted|] == TokenRequest(ClientCredentials, c.clientId, c.clientSecret)
  {
  }
}
