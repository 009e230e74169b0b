/**
 * `Api42Service` of src/services/Api42Service.ts: an axios client for the 42
 * API wired to the refresh-capable `AuthService`, and its three calls.
 *
 * The resource server is scripted like the identity endpoint: `sent` logs every
 * request that went out and `responses` holds the answers still to come. Each
 * method is proved to do what `Interceptors.Dispatch` and `ApiErrors` say.
 */
module Api42Service {
  import opened Maybe
  import opened Text
  import opened ApiTypes
  import opened Interceptors
  import opened ApiErrors
  import opened Tokens
  import RefreshAuth

  const ME_PATH := "/me"
  const USERS_PATH := "/users"

  /** The config `client.get` builds for `/users/${login}`. */
  function UserConfig(login: string): RequestConfig {
    RequestConfig(USERS_PATH + "/" + login, [], None)
  }

  /** The config `client.get` builds for the `/users` search, with its two query parameters. */
  function SearchConfig(query: string, perPage: nat): RequestConfig {
    RequestConfig(USERS_PATH, [("search", query), ("per_page", NatToDecimal(perPage))], None)
  }

  class Api42Service {
    const auth: RefreshAuth.AuthService
    var sent: seq<RequestConfig>
    var responses: seq<Transport>

    function State(): ClientState
      reads this, auth
    {
      ClientState(auth.State(), sent, responses)
    }

    constructor (auth: RefreshAuth.AuthService, responses: seq<Transport>)
      ensures this.auth == auth
      ensures this.sent == [] && this.responses == responses
    {
      this.auth := auth;
      this.sent := [];
      this.responses := responses;
    }

    /** One HTTP exchange with the resource server. */
    method Send(req: RequestConfig) returns (o: Transport)
      modifies this
      ensures (o, State()) == Interceptors.Send(old(State()), req)
    {
      sent := sent + [req];
      if responses == [] {
        o := NoResponse;
      } else {
        o := responses[0];
        responses := responses[1..];
      }
    }

    /**
     * `client.request(cfg)` through the request and response interceptors
     * (lines 16-41). `fuel` is that of `Dispatch`; this generation never uses it.
     */
    method Request(cfg: RequestConfig, now: nat, readOk: bool, fuel: nat) returns (o: Outcome)
      modifies this, auth
      ensures (o, State()) == Dispatch(TokensOf(RefreshCapable, auth.credentials, now, readOk), ClearOf(RefreshCapable), old(State()), cfg, fuel)
      decreases fuel
    {
      var t := auth.GetValidToken(now, readOk);
      if t.Failed? {
        return Rejected(Thrown(t.error));
      }
      var req := Authorized(cfg, t.value);
      var response := Send(req);
      match response
      case Delivered(body) =>
        return Resolved(body);
      case NoResponse =>
        return Rejected(Unanswered);
      case ErrorStatus(status, withConfig) =>
        if status != UNAUTHORIZED {
          return Rejected(HttpStatus(status));
        }
        auth.ClearTokens();
        var t2 := auth.GetValidToken(now, readOk);
        if t2.Token? {
          // The store was just cleared, so `getValidToken` throws the no-token
          // error (`RefreshAuth.ClearedSessionHasNoToken`): the header rewrite
          // and the `client.request` resend of lines 34-37 never run.
          assert false;
        }
        return Rejected(Thrown(t2.error));
    }

    /** `getCurrentUser()`: `GET /me`, with the lookup error mapping. */
    method GetCurrentUser(now: nat, readOk: bool, fuel: nat) returns (r: Call<Body>)
      modifies this, auth
      ensures var (o, c) := Dispatch(TokensOf(RefreshCapable, auth.credentials, now, readOk), ClearOf(RefreshCapable), old(State()), RequestConfig(ME_PATH, [], None), fuel);
        r == Lookup(o) && State() == c
    {
      var o := Request(RequestConfig(ME_PATH, [], None), now, readOk, fuel);
      r := Lookup(o);
    }

    /** `getUserByLogin(login)`: `GET /users/<login>`, with the lookup error mapping. */
    method GetUserByLogin(login: string, now: nat, readOk: bool, fuel: nat) returns (r: Call<Body>)
      modifies this, auth
      ensures var (o, c) := Dispatch(TokensOf(RefreshCapable, auth.credentials, now, readOk), ClearOf(RefreshCapable), old(State()), UserConfig(login), fuel);
        r == Lookup(o) && State() == c
    {
      var o := Request(UserConfig(login), now, readOk, fuel);
      r := Lookup(o);
    }

    /** `searchUsers(query, perPage = 10)`: `GET /users?search=...&per_page=...`; a failure is the empty list. */
    method SearchUsers(query: string, now: nat, readOk: bool, fuel: nat, perPage: nat := 10) returns (r: Call<Body>)
      modifies this, auth
      ensures var (o, c) := Dispatch(TokensOf(RefreshCapable, auth.credentials, now, readOk), ClearOf(RefreshCapable), old(State()), SearchConfig(query, perPage), fuel);
        r == Search(o) && State() == c
    {
      var o := Request(SearchConfig(query, perPage), now, readOk, fuel);
      r := Search(o);
    }
  }

  /**
   * With this generation a 401 never leads to the profile: the tokens are
   * cleared, the second `getValidToken` throws before any resend, and the
   * caller sees the network error with status 0.
   */
  lemma UnauthorizedLookupIsNetworkError(c: ClientState, cred: Credentials, cfg: RequestConfig, now: nat, readOk: bool, fuel: nat)
    requires TokensOf(RefreshCapable, cred, now, readOk)(c.auth).0.Token?
    requires NextResponse(c).ErrorStatus? && NextResponse(c).status == UNAUTHORIZED
    ensures var (o, c') := Dispatch(TokensOf(RefreshCapable, cred, now, readOk), ClearOf(RefreshCapable), c, cfg, fuel);
      && Lookup(o) == Threw(ApiError(NETWORK_MESSAGE, 0, "API_ERROR_0"))
      && Search(o) == Returned(UserList([]))
      && |c'.sent| == |c.sent| + 1
  {
    RefreshCapableNeverResends(c, cred, cfg, now, readOk, fuel);
    RequestsCarryBearer(TokensOf(RefreshCapable, cred, now, readOk), ClearOf(RefreshCapable), c, cfg, fuel);
  }
}
