/**
 * The axios client both generations of `Api42Service` build (src/services/Api42Service.ts
 * lines 16-41, services/Api42Service.ts lines 17-45; the two are the same code): a
 * request interceptor that sets `Authorization: Bearer <token>` from
 * `getValidToken`, and a response interceptor that, on a 401, clears the tokens,
 * asks `getValidToken` again, rewrites the header and resends the request through
 * `client.request` — which runs both interceptors again.
 *
 * The code puts no bound on that re-entry, so `Dispatch` takes `fuel`: the number
 * of resends it follows before it stops with `OutOfFuel`.
 */
module Interceptors {
  import opened Maybe
  import opened Tokens
  import opened ApiTypes
  import RefreshAuth
  import ClientCredentialsAuth

  /** Which authentication service the client calls. */
  datatype Generation =
    | RefreshCapable         // src/services/AuthService.ts
    | ClientCredentialsOnly  // services/AuthService.ts

  /** `getValidToken`, with the service's configuration and the current instant fixed. */
  type TokenSource = Session -> (TokenResult, Session)

  function TokensOf(g: Generation, cred: Credentials, now: nat, readOk: bool): TokenSource {
    match g
    case RefreshCapable => s => RefreshAuth.ValidToken(s, cred, now, readOk)
    case ClientCredentialsOnly => s => ClientCredentialsAuth.ValidToken(s, cred, now, readOk)
  }

  /** `clearTokens` of each generation, as a change to the store. */
  function ClearOf(g: Generation): Store -> Store {
    match g
    case RefreshCapable => RefreshAuth.Cleared
    case ClientCredentialsOnly => ClientCredentialsAuth.Cleared
  }

  /** The parts of an axios request config the model keeps: path, query parameters, Authorization header. */
  datatype RequestConfig = RequestConfig(path: string, params: seq<(string, string)>, authorization: Option<string>)

  /**
   * How one HTTP exchange with the resource server ends: a 2xx body; an error
   * status, with or without the request config attached to the error; or no
   * response at all (the 10-second timeout, an unreachable host).
   */
  datatype Transport = Delivered(body: Body) | ErrorStatus(status: nat, withConfig: bool) | NoResponse

  /**
   * Why a request's promise is rejected: an error response, an axios error
   * without a response, or the error `getValidToken` threw inside an interceptor.
   */
  datatype Cause = HttpStatus(status: nat) | Unanswered | Thrown(error: AuthError)

  datatype Outcome = Resolved(body: Body) | Rejected(cause: Cause) | OutOfFuel

  /** The token service, the requests sent to the resource server, and its responses still to come. */
  datatype ClientState = ClientState(auth: Session, sent: seq<RequestConfig>, responses: seq<Transport>)

  const UNAUTHORIZED: nat := 401

  function Bearer(token: string): string {
    "Bearer " + token
  }

  /** `config.headers.Authorization = \`Bearer ${token}\``: the header is set, nothing else changes. */
  function Authorized(cfg: RequestConfig, token: string): RequestConfig {
    cfg.(authorization := Some(Bearer(token)))
  }

  /** The response the server gives next; none once the script is used up. */
  function NextResponse(c: ClientState): Transport {
    if c.responses == [] then NoResponse else c.responses[0]
  }

  /** One HTTP exchange: the request is logged and the next scripted response consumed. */
  function Send(c: ClientState, req: RequestConfig): (out: (Transport, ClientState))
    ensures out.0 == NextResponse(c)
    ensures out.1.auth == c.auth && out.1.sent == c.sent + [req]
    ensures out.1.responses == if c.responses == [] then [] else c.responses[1..]
  {
    (NextResponse(c), c.(sent := c.sent + [req], responses := if c.responses == [] then [] else c.responses[1..]))
  }

  /** What one pass through both interceptors leaves: a settled outcome, or a request to send again. */
  datatype Step = Done(outcome: Outcome, state: ClientState) | Resend(state: ClientState, next: RequestConfig)

  /**
   * One pass: the request interceptor, the exchange, and the response
   * interceptor up to the point where it calls `client.request` again.
   */
  function Pass(tokens: TokenSource, clear: Store -> Store, c: ClientState, cfg: RequestConfig): Step {
    var (t, auth1) := tokens(c.auth);
    if t.Failed? then Done(Rejected(Thrown(t.error)), c.(auth := auth1))
    else
      var req := Authorized(cfg, t.value);
      var (o, c2) := Send(c.(auth := auth1), req);
      match o
      case Delivered(body) => Done(Resolved(body), c2)
      case NoResponse => Done(Rejected(Unanswered), c2)
      case ErrorStatus(status, withConfig) =>
        if status != UNAUTHORIZED then Done(Rejected(HttpStatus(status)), c2)
        else
          var (t2, auth3) := tokens(c2.auth.(store := clear(c2.auth.store)));
          var c3 := c2.(auth := auth3);
          if t2.Failed? then Done(Rejected(Thrown(t2.error)), c3)
          else if !withConfig then Done(Rejected(HttpStatus(status)), c3)
          else Resend(c3, Authorized(req, t2.value))
  }

  /** `client.request(cfg)` through both interceptors, following at most `fuel` resends. */
  function Dispatch(tokens: TokenSource, clear: Store -> Store, c: ClientState, cfg: RequestConfig, fuel: nat): (Outcome, ClientState)
    decreases fuel
  {
    match Pass(tokens, clear, c, cfg)
    case Done(o, c') => (o, c')
    case Resend(c3, next) =>
      if fuel == 0 then (OutOfFuel, c3) else Dispatch(tokens, clear, c3, next, fuel - 1)
  }

  /** A request that went out is the original config with only a bearer Authorization header set. */
  predicate SameRequestWithBearer(req: RequestConfig, cfg: RequestConfig) {
    && req.path == cfg.path
    && req.params == cfg.params
    && req.authorization.Some?
    && |req.authorization.value| >= 7
    && req.authorization.value[..7] == "Bearer "
  }

  /** The token source only ever adds to the log of token POSTs. */
  ghost predicate KeepsLog(tokens: TokenSource) {
    forall s: Session :: s.posted <= tokens(s).1.posted
  }

  /** Both generations' `getValidToken` only ever add to the log of token POSTs. */
  lemma ServicesKeepLog(g: Generation, cred: Credentials, now: nat, readOk: bool)
    ensures KeepsLog(TokensOf(g, cred, now, readOk))
  {
  }

  /**
   * One pass sends exactly the config with the resolved token's bearer header,
   * or nothing when `getValidToken` throws; it resends only after a 401 that
   * carries its config, and then the same config with a new bearer header.
   */
  lemma PassFacts(tokens: TokenSource, clear: Store -> Store, c: ClientState, cfg: RequestConfig)
    ensures var (t, auth1) := tokens(c.auth);
      var p := Pass(tokens, clear, c, cfg);
      && (t.Failed? ==> p == Done(Rejected(Thrown(t.error)), c.(auth := auth1)))
      && (t.Token? ==> p.state.sent == c.sent + [Authorized(cfg, t.value)] && p.state.responses == Send(c, cfg).1.responses)
      && (p.Resend? ==> t.Token? && NextResponse(c) == ErrorStatus(UNAUTHORIZED, true) && SameRequestWithBearer(p.next, cfg))
      && (KeepsLog(tokens) ==> c.auth.posted <= p.state.auth.posted)
  {
    var (t, auth1) := tokens(c.auth);
    if t.Token? {
      var (o, c2) := Send(c.(auth := auth1), Authorized(cfg, t.value));
      if KeepsLog(tokens) && o.ErrorStatus? && o.status == UNAUTHORIZED {
        var cleared := c2.auth.(store := clear(c2.auth.store));
        assert cleared.posted <= tokens(cleared).1.posted;
      }
    }
  }

  /**
   * The first request sent carries "Bearer " + the token `getValidToken` resolved
   * to; when `getValidToken` fails nothing is sent and its error is the rejection;
   * every request sent, resends included, is the caller's config with only a
   * bearer header set; and the logs of requests and token POSTs only grow.
   */
  lemma {:induction false} RequestsCarryBearer(tokens: TokenSource, clear: Store -> Store, c: ClientState, cfg: RequestConfig, fuel: nat)
    ensures var t := tokens(c.auth).0;
      var (r, c') := Dispatch(tokens, clear, c, cfg, fuel);
      && c.sent <= c'.sent
      && (KeepsLog(tokens) ==> c.auth.posted <= c'.auth.posted)
      && (t.Failed? ==> r == Rejected(Thrown(t.error)) && c'.sent == c.sent)
      && (t.Token? ==> |c'.sent| > |c.sent| && c'.sent[|c.sent|] == Authorized(cfg, t.value))
      && (forall i :: |c.sent| <= i < |c'.sent| ==> SameRequestWithBearer(c'.sent[i], cfg))
    decreases fuel
  {
    PassFacts(tokens, clear, c, cfg);
    var p := Pass(tokens, clear, c, cfg);
    if p.Resend? && fuel > 0 {
      RequestsCarryBearer(tokens, clear, p.state, p.next, fuel - 1);
      var c' := Dispatch(tokens, clear, p.state, p.next, fuel - 1).1;
      assert c'.sent[|c.sent|] == p.state.sent[|c.sent|];
    }
  }

  /**
   * A response other than a 401 carrying its config is never resent: exactly one
   * request goes out; a body resolves, no response rejects as unanswered, a
   * non-401 status is rejected unchanged, and a 401 without config is rejected
   * with its status unless the second `getValidToken` threw first.
   */
  lemma NotResentUnlessUnauthorized(tokens: TokenSource, clear: Store -> Store, c: ClientState, cfg: RequestConfig, fuel: nat)
    requires tokens(c.auth).0.Token?
    requires NextResponse(c).ErrorStatus? ==> !(NextResponse(c).status == UNAUTHORIZED && NextResponse(c).withConfig)
    ensures var (r, c') := Dispatch(tokens, clear, c, cfg, fuel);
      && |c'.sent| == |c.sent| + 1
      && match NextResponse(c)
         case Delivered(body) => r == Resolved(body)
         case NoResponse => r == Rejected(Unanswered)
         case ErrorStatus(status, _) =>
           if status != UNAUTHORIZED then r == Rejected(HttpStatus(status))
           else r == Rejected(HttpStatus(status)) || (r.Rejected? && r.cause.Thrown?)
  {
    PassFacts(tokens, clear, c, cfg);
  }

  /** The first `k` scripted responses are all 401s that carry their config. */
  predicate UnauthorizedRun(responses: seq<Transport>, k: nat) {
    k <= |responses| && forall i :: 0 <= i < k ==> responses[i] == ErrorStatus(UNAUTHORIZED, true)
  }

  lemma UnauthorizedRunExtends(responses: seq<Transport>, k: nat)
    requires responses != [] && responses[0] == ErrorStatus(UNAUTHORIZED, true)
    requires UnauthorizedRun(responses[1..], k)
    ensures UnauthorizedRun(responses, k + 1)
  {
    forall i | 0 < i < k + 1
      ensures responses[i] == ErrorStatus(UNAUTHORIZED, true)
    {
      assert responses[1..][i - 1] == responses[i];
    }
  }

  /**
   * Resends follow 401s only: at most `fuel` + 1 requests go out, every one but
   * the last was answered 401 with its config, and the chain runs out of fuel
   * only when all `fuel` + 1 of them were.
   */
  lemma {:induction false} ResentOnlyAfterUnauthorized(tokens: TokenSource, clear: Store -> Store, c: ClientState, cfg: RequestConfig, fuel: nat)
    ensures var (r, c') := Dispatch(tokens, clear, c, cfg, fuel);
      var n := |c'.sent| - |c.sent|;
      && 0 <= n <= fuel + 1
      && (n > 0 ==> UnauthorizedRun(c.responses, n - 1))
      && (r == OutOfFuel ==> n == fuel + 1 && UnauthorizedRun(c.responses, n))
    decreases fuel
  {
    PassFacts(tokens, clear, c, cfg);
    var p := Pass(tokens, clear, c, cfg);
    if p.Resend? && fuel > 0 {
      var c3 := p.state;
      ResentOnlyAfterUnauthorized(tokens, clear, c3, p.next, fuel - 1);
      RequestsCarryBearer(tokens, clear, c3, p.next, fuel - 1);
      var (r, c') := Dispatch(tokens, clear, c3, p.next, fuel - 1);
      var n := |c'.sent| - |c3.sent|;
      assert c3.responses == c.responses[1..];
      if n > 0 {
        UnauthorizedRunExtends(c.responses, n - 1);
      }
      if r == OutOfFuel {
        UnauthorizedRunExtends(c.responses, n);
      }
    } else {
      RequestsCarryBearer(tokens, clear, c, cfg, fuel);
    }
  }

  /**
   * In the refresh-capable generation no request is ever resent: after a 401 the
   * cleared store holds no token, so the second `getValidToken` throws the
   * no-token error, posts nothing, and that error is the rejection. Fuel is never
   * needed.
   */
  lemma RefreshCapableNeverResends(c: ClientState, cred: Credentials, cfg: RequestConfig, now: nat, readOk: bool, fuel: nat)
    ensures var tokens := TokensOf(RefreshCapable, cred, now, readOk);
      var (t, auth1) := tokens(c.auth);
      var (r, c') := Dispatch(tokens, ClearOf(RefreshCapable), c, cfg, fuel);
      && |c'.sent| <= |c.sent| + 1
      && r != OutOfFuel
      && (t.Token? && NextResponse(c).ErrorStatus? && NextResponse(c).status == UNAUTHORIZED ==>
            && r == Rejected(Thrown(NoToken))
            && c'.auth == auth1.(store := RefreshAuth.Cleared(auth1.store)))
  {
    var tokens := TokensOf(RefreshCapable, cred, now, readOk);
    var (t, auth1) := tokens(c.auth);
    if t.Token? {
      var c2 := Send(c.(auth := auth1), Authorized(cfg, t.value)).1;
      RefreshAuth.ClearedSessionHasNoToken(c2.auth, cred, now, readOk);
    }
    assert Pass(tokens, ClearOf(RefreshCapable), c, cfg).Done?;
  }

  /**
   * In the client-credentials generation a 401 is recovered from: with a fresh
   * stored token, a 401 carrying its config, credentials set and fuel left, the
   * tokens are cleared, exactly one client-credentials grant is posted, and when
   * it grants a token that outlives the buffer the same request is sent again
   * with that token as its only change.
   */
  lemma ClientCredentialsResendsAfterUnauthorized(c: ClientState, cred: Credentials, cfg: RequestConfig, now: nat, fuel: nat, reply: TokenReply)
    requires Holds(c.auth.store, ACCESS_TOKEN_KEY) && Holds(c.auth.store, TOKEN_EXPIRY_KEY) && FreshAt(c.auth.store, now)
    requires cred.Present() && fuel > 0
    requires NextResponse(c) == ErrorStatus(UNAUTHORIZED, true)
    requires c.auth.replies != [] && c.auth.replies[0] == Granted(reply)
    requires reply.accessToken != "" && reply.expiresIn > 300
    ensures var c' := Dispatch(TokensOf(ClientCredentialsOnly, cred, now, true), ClearOf(ClientCredentialsOnly), c, cfg, fuel).1;
      && |c'.sent| >= |c.sent| + 2
      && c'.sent[|c.sent|] == Authorized(cfg, c.auth.store[ACCESS_TOKEN_KEY])
      && c'.sent[|c.sent| + 1] == Authorized(cfg, reply.accessToken)
      && |c'.auth.posted| > |c.auth.posted|
      && c'.auth.posted[|c.auth.posted|] == TokenRequest(ClientCredentials, cred.clientId, cred.clientSecret)
  {
    var tokens := TokensOf(ClientCredentialsOnly, cred, now, true);
    FirstPassReauthenticates(c, cred, cfg, now, reply);
    ServicesKeepLog(ClientCredentialsOnly, cred, now, true);
    ResendFollowsPass(tokens, ClearOf(ClientCredentialsOnly), c, cfg, fuel);
  }

  /** When a pass ends in a resend and fuel is left, the resend is the next request sent. */
  lemma ResendFollowsPass(tokens: TokenSource, clear: Store -> Store, c: ClientState, cfg: RequestConfig, fuel: nat)
    requires fuel > 0 && KeepsLog(tokens)
    requires Pass(tokens, clear, c, cfg).Resend?
    requires tokens(Pass(tokens, clear, c, cfg).state.auth).0.Token?
    ensures var p := Pass(tokens, clear, c, cfg);
      var c' := Dispatch(tokens, clear, c, cfg, fuel).1;
      && p.state.sent <= c'.sent
      && p.state.auth.posted <= c'.auth.posted
      && |c'.sent| > |p.state.sent|
      && c'.sent[|p.state.sent|] == Authorized(p.next, tokens(p.state.auth).0.value)
  {
    var p := Pass(tokens, clear, c, cfg);
    RequestsCarryBearer(tokens, clear, p.state, p.next, fuel - 1);
  }

  /** The first pass of `ClientCredentialsResendsAfterUnauthorized`. */
  lemma FirstPassReauthenticates(c: ClientState, cred: Credentials, cfg: RequestConfig, now: nat, reply: TokenReply)
    requires Holds(c.auth.store, ACCESS_TOKEN_KEY) && Holds(c.auth.store, TOKEN_EXPIRY_KEY) && FreshAt(c.auth.store, now)
    requires cred.Present()
    requires NextResponse(c) == ErrorStatus(UNAUTHORIZED, true)
    requires c.auth.replies != [] && c.auth.replies[0] == Granted(reply)
    requires reply.accessToken != "" && reply.expiresIn > 300
    ensures var tokens := TokensOf(ClientCredentialsOnly, cred, now, true);
      var p := Pass(tokens, ClearOf(ClientCredentialsOnly), c, cfg);
      && p.Resend?
      && p.state.sent == c.sent + [Authorized(cfg, c.auth.store[ACCESS_TOKEN_KEY])]
      && p.state.auth.posted == c.auth.posted + [TokenRequest(ClientCredentials, cred.clientId, cred.clientSecret)]
      && p.next == Authorized(cfg, reply.accessToken)
      && tokens(p.state.auth).0 == Token(reply.accessToken)
  {
    var tokens := TokensOf(ClientCredentialsOnly, cred, now, true);
    var clear := ClearOf(ClientCredentialsOnly);
    ClientCredentialsAuth.FreshTokenServedFromStore(c.auth, cred, now);
    var req := Authorized(cfg, c.auth.store[ACCESS_TOKEN_KEY]);
    var c2 := Send(c, req).1;
    var cleared := c2.auth.(store := clear(c2.auth.store));
    assert !Holds(cleared.store, ACCESS_TOKEN_KEY);
    ClientCredentialsAuth.UnusableTokenAuthenticates(cleared, cred, now);
    ClientCredentialsAuth.AuthenticateSuccess(cleared, cred, now);
    ClientCredentialsAuth.GrantedTokenServedAgain(cleared, cred, now);
    assert Authorized(Authorized(cfg, c.auth.store[ACCESS_TOKEN_KEY]), reply.accessToken) == Authorized(cfg, reply.accessToken);
  }
}
