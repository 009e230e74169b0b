/**
 * The earlier `Api42Service` of services/Api42Service.ts: the same axios client
 * wired to the client-credentials `AuthService`, with `getUserByLogin` and
 * `searchUsers`. Here a 401 is recovered from: the tokens are cleared, a new
 * grant is obtained and the request is sent again.
 */
module LegacyApi42Service {
  import opened Maybe
  import opened Text
  import opened Tokens
  import opened ApiTypes
  import opened Interceptors
  import opened ApiErrors
  import ClientCredentialsAuth

  const USERS_PATH := "/users"

  /** The config `client.get` builds for `/users/${login}`. */
  function UserConfig(login: string): RequestConfig {
    RequestConfig(USERS_PATH + "/" + login, [], None)
  }

  /** The config `client.get` builds for the `/users` search, with its two query parameters. */
  function SearchConfig(query: string, perPage: nat): RequestConfig {
    RequestConfig(USERS_PATH, [("search", query), ("per_page", NatToDecimal(perPage))], None)
  }

  class Api42Service {
    const auth: ClientCredentialsAuth.AuthService
    var sent: seq<RequestConfig>
    var responses: seq<Transport>

    function State(): ClientState
      reads this, auth
    {
      ClientState(auth.State(), sent, responses)
    }

    constructor (auth: ClientCredentialsAuth.AuthService, responses: seq<Transport>)
      ensures this.auth == auth
      ensures this.sent == [] && this.responses == responses
    {
      this.auth := auth;
      this.sent := [];
      this.responses := responses;
    }

    /** One HTTP exchange with the resource server. */
    method Send(req: RequestConfig) returns (o: Transport)
      modifies this
      ensures (o, State()) == Interceptors.Send(old(State()), req)
    {
      sent := sent + [req];
      if responses == [] {
        o := NoResponse;
      } else {
        o := responses[0];
        responses := responses[1..];
      }
    }

    /**
     * One pass through the request interceptor, the exchange and the response
     * interceptor (lines 17-45), up to the `client.request` that resends.
     */
    method Attempt(cfg: RequestConfig, now: nat, readOk: bool) returns (settled: Option<Outcome>, next: RequestConfig)
      modifies this, auth
      ensures var p := Pass(TokensOf(ClientCredentialsOnly, auth.credentials, now, readOk), ClearOf(ClientCredentialsOnly), old(State()), cfg);
        && State() == p.state
        && (p.Done? ==> settled == Some(p.outcome))
        && (p.Resend? ==> settled == None && next == p.next)
    {
      next := cfg;
      var t := auth.GetValidToken(now, readOk);
      if t.Failed? {
        return Some(Rejected(Thrown(t.error))), next;
      }
      var req := Authorized(cfg, t.value);
      var response := Send(req);
      match response
      case Delivered(body) =>
        return Some(Resolved(body)), next;
      case NoResponse =>
        return Some(Rejected(Unanswered)), next;
      case ErrorStatus(status, withConfig) =>
        if status != UNAUTHORIZED {
          return Some(Rejected(HttpStatus(status))), next;
        }
        auth.ClearTokens();
        var t2 := auth.GetValidToken(now, readOk);
        if t2.Failed? {
          return Some(Rejected(Thrown(t2.error))), next;
        }
        if !withConfig {
          return Some(Rejected(HttpStatus(status))), next;
        }
        return None, Authorized(req, t2.value);
    }

    /** `client.request(cfg)`: each resend re-enters both interceptors; `fuel` bounds how many are followed. */
    method Request(cfg: RequestConfig, now: nat, readOk: bool, fuel: nat) returns (o: Outcome)
      modifies this, auth
      ensures (o, State()) == Dispatch(TokensOf(ClientCredentialsOnly, auth.credentials, now, readOk), ClearOf(ClientCredentialsOnly), old(State()), cfg, fuel)
      decreases fuel
    {
      var settled, next := Attempt(cfg, now, readOk);
      if settled.Some? {
        o := settled.value;
      } else {
        if fuel == 0 {
          o := OutOfFuel;
        } else {
          o := Request(next, now, readOk, fuel - 1);
        }
      }
    }

    /** `getUserByLogin(login)`: `GET /users/<login>`, with the lookup error mapping. */
    method GetUserByLogin(login: string, now: nat, readOk: bool, fuel: nat) returns (r: Call<Body>)
      modifies this, auth
      ensures var (o, c) := Dispatch(TokensOf(ClientCredentialsOnly, auth.credentials, now, readOk), ClearOf(ClientCredentialsOnly), old(State()), UserConfig(login), fuel);
        r == Lookup(o) && State() == c
    {
      var o := Request(UserConfig(login), now, readOk, fuel);
      r := Lookup(o);
    }

    /** `searchUsers(query, perPage = 10)`: `GET /users?search=...&per_page=...`; a failure is the empty list. */
    method SearchUsers(query: string, now: nat, readOk: bool, fuel: nat, perPage: nat := 10) returns (r: Call<Body>)
      modifies this, auth
      ensures var (o, c) := Dispatch(TokensOf(ClientCredentialsOnly, auth.credentials, now, readOk), ClearOf(ClientCredentialsOnly), old(State()), SearchConfig(query, perPage), fuel);
        r == Search(o) && State() == c
    {
      var o := Request(SearchConfig(query, perPage), now, readOk, fuel);
      r := Search(o);
    }
  }
}
