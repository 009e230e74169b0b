/**
 * What both generations of the authentication service share: the persisted
 * keys, the shape of a reply from `POST /oauth/token`, the request the client
 * sends there, and the scripted identity endpoint that answers it.
 */
module Tokens {
  import opened Maybe
  import opened Text

  const ACCESS_TOKEN_KEY := "access_token"
  const TOKEN_EXPIRY_KEY := "token_expiry"
  const REFRESH_TOKEN_KEY := "refresh_token"

  /** A token counts as expired this many milliseconds before its deadline (5 minutes). */
  const BUFFER_MS := 5 * 60 * 1000

  /** The key-value store behind the storage wrapper (web storage or the secure store). */
  type Store = map<string, string>

  /** The fields of a token response the services read; `expires_in` is in seconds. */
  datatype TokenReply = TokenReply(accessToken: string, expiresIn: nat, refreshToken: Option<string>)

  /** How a POST to the token endpoint ends: a 2xx body, or any failure axios throws. */
  datatype PostOutcome = Granted(reply: TokenReply) | Refused

  datatype Grant =
    | AuthorizationCode(code: string, redirectUri: string)
    | RefreshGrant(refreshToken: string)
    | ClientCredentials

  /** The body of one POST to `/oauth/token`. */
  datatype TokenRequest = TokenRequest(grant: Grant, clientId: string, clientSecret: string)

  /** The client id and secret read from the application configuration ("" when unset). */
  datatype Credentials = Credentials(clientId: string, clientSecret: string) {
    /** The negation of `!API_UID || !API_SECRET`. */
    predicate Present() {
      clientId != "" && clientSecret != ""
    }
  }

  datatype AuthError =
    | AuthenticationFailed  // "Échec de l'authentification avec l'API 42"
    | SessionExpired        // "Session expirée, veuillez vous reconnecter"
    | NoToken               // "Pas de token disponible"
    | StorageUnreadable     // whatever the storage wrapper's read threw

  /** A resolved token, or the error the promise is rejected with. */
  datatype TokenResult = Token(value: string) | Failed(error: AuthError)

  /**
   * The store, the log of POSTs sent to the identity endpoint, and the replies
   * the endpoint has yet to give, in order.
   */
  datatype Session = Session(store: Store, posted: seq<TokenRequest>, replies: seq<PostOutcome>) {

    /** One POST: logged, and answered by the next scripted reply, or refused when none is left. */
    function Post(req: TokenRequest): (out: (PostOutcome, Session))
      ensures out.1.store == store && out.1.posted == posted + [req]
      ensures replies == [] ==> out.0 == Refused && out.1.replies == []
      ensures replies != [] ==> out.0 == replies[0] && out.1.replies == replies[1..]
    {
      if replies == [] then (Refused, this.(posted := posted + [req]))
      else (replies[0], this.(posted := posted + [req], replies := replies[1..]))
    }
  }

  /** JavaScript truthiness of a stored value: present and not the empty string. */
  predicate Holds(m: Store, k: string) {
    k in m && m[k] != ""
  }

  /** JavaScript truthiness of an optional string field. */
  predicate Truthy(o: Option<string>) {
    o.Some? && o.value != ""
  }

  /** `Date.now() + expires_in * 1000`. */
  function ExpiryTime(now: nat, expiresIn: nat): nat {
    now + expiresIn * 1000
  }

  /** `Date.now() < parseInt(expiry) - bufferTime`; a NaN expiry compares false. */
  predicate FreshAt(m: Store, now: nat) {
    TOKEN_EXPIRY_KEY in m &&
    var deadline := ParseInt(m[TOKEN_EXPIRY_KEY]);
    deadline.Some? && now < deadline.value - BUFFER_MS
  }

  /** The store holds an access token exactly when it holds an expiry. */
  predicate PairStoredTogether(m: Store) {
    ACCESS_TOKEN_KEY in m <==> TOKEN_EXPIRY_KEY in m
  }

  /** The two writes every successful grant makes: the access token, then its expiry as a decimal string. */
  function WithAccessToken(m: Store, reply: TokenReply, now: nat): Store {
    m[ACCESS_TOKEN_KEY := reply.accessToken][TOKEN_EXPIRY_KEY := NatToDecimal(ExpiryTime(now, reply.expiresIn))]
  }

  /** The expiry a grant writes is read back by `parseInt` as `now + expires_in * 1000`. */
  lemma ExpiryReadBack(m: Store, reply: TokenReply, now: nat)
    ensures ParseInt(WithAccessToken(m, reply, now)[TOKEN_EXPIRY_KEY]) == Some(ExpiryTime(now, reply.expiresIn))
  {
    var deadline := ExpiryTime(now, reply.expiresIn);
    assert WithAccessToken(m, reply, now)[TOKEN_EXPIRY_KEY] == NatToDecimal(deadline);
    ParseIntOfDecimal(deadline);
  }

  /**
   * After the two writes the token is stored, the expiry reads back as
   * `now + expires_in * 1000`, no other key changed, and the token is fresh
   * at the same instant exactly when its lifetime exceeds the 5-minute buffer.
   */
  lemma AccessTokenWritten(m: Store, reply: TokenReply, now: nat)
    ensures var r := WithAccessToken(m, reply, now);
      && r.Keys == m.Keys + {ACCESS_TOKEN_KEY, TOKEN_EXPIRY_KEY}
      && r[ACCESS_TOKEN_KEY] == reply.accessToken
      && ParseInt(r[TOKEN_EXPIRY_KEY]) == Some(ExpiryTime(now, reply.expiresIn))
      && (forall k :: k in m && k != ACCESS_TOKEN_KEY && k != TOKEN_EXPIRY_KEY ==> r[k] == m[k])
      && PairStoredTogether(r)
      && (FreshAt(r, now) <==> reply.expiresIn > 300)
  {
    ExpiryReadBack(m, reply, now);
  }
}
