/**
 * `createError` and the `catch` blocks of `getUserByLogin`, `getCurrentUser`
 * and `searchUsers`, identical in both generations of `Api42Service`: how a
 * request's outcome becomes the value a caller sees.
 */
module ApiErrors {
  import opened Maybe
  import opened Text
  import opened Tokens
  import opened ApiTypes
  import opened Interceptors

  const NOT_FOUND_MESSAGE := "Utilisateur non trouvé"
  const NETWORK_MESSAGE := "Erreur de connexion réseau"
  const FETCH_MESSAGE := "Erreur lors de la récupération des données"
  const CODE_PREFIX := "API_ERROR_"

  /** `createError(message, status)`: the code is the prefix followed by the status written in decimal. */
  function CreateError(message: string, status: nat): (e: ApiError)
    ensures e.message == message && e.status == status
    ensures e.code == CODE_PREFIX + NatToDecimal(status)
    ensures |e.code| > |CODE_PREFIX| && e.code[..|CODE_PREFIX|] == CODE_PREFIX
    ensures ParseInt(e.code[|CODE_PREFIX|..]) == Some(status)
  {
    var digits := NatToDecimal(status);
    ParseIntOfDecimal(status);
    assert (CODE_PREFIX + digits)[|CODE_PREFIX|..] == digits;
    ApiError(message, status, CODE_PREFIX + digits)
  }

  /** The codes of the statuses the `catch` blocks name. */
  lemma NamedCodes()
    ensures CreateError(NOT_FOUND_MESSAGE, 404).code == "API_ERROR_404"
    ensures CreateError(NETWORK_MESSAGE, 0).code == "API_ERROR_0"
  {
    assert CODE_PREFIX + NatToDecimal(404) == "API_ERROR_404" by {
      assert NatToDecimal(404) == "404";
    }
    assert CODE_PREFIX + NatToDecimal(0) == "API_ERROR_0" by {
      assert NatToDecimal(0) == "0";
    }
  }

  /**
   * The `catch` of `getUserByLogin` and `getCurrentUser`: a 404 is "user not
   * found"; an error without a response (a timeout, a network failure, or an
   * error `getValidToken` threw inside an interceptor) is the network error
   * with status 0; any other status is kept with the generic message.
   */
  function LookupError(c: Cause): (e: ApiError)
    ensures c == HttpStatus(404) ==> e == ApiError(NOT_FOUND_MESSAGE, 404, "API_ERROR_404")
    ensures !c.HttpStatus? ==> e == ApiError(NETWORK_MESSAGE, 0, "API_ERROR_0")
    ensures c.HttpStatus? && c.status != 404 ==> e.message == FETCH_MESSAGE && e.status == c.status
    ensures e == CreateError(e.message, e.status)
  {
    NamedCodes();
    if c == HttpStatus(404) then CreateError(NOT_FOUND_MESSAGE, 404)
    else if !c.HttpStatus? then CreateError(NETWORK_MESSAGE, 0)
    else CreateError(FETCH_MESSAGE, c.status)
  }

  /** How a call of a service method ends: a value, a thrown `ApiError`, or not within the fuel given. */
  datatype Call<+T> = Returned(value: T) | Threw(error: ApiError) | Unfinished

  /** `try { return (await request).data } catch { throw LookupError(...) }`. */
  function Lookup(o: Outcome): Call<Body> {
    match o
    case Resolved(body) => Returned(body)
    case Rejected(cause) => Threw(LookupError(cause))
    case OutOfFuel => Unfinished
  }

  /** `try { return (await request).data } catch { return [] }`. */
  function Search(o: Outcome): Call<Body> {
    match o
    case Resolved(body) => Returned(body)
    case Rejected(_) => Returned(UserList([]))
    case OutOfFuel => Unfinished
  }

  /**
   * A lookup returns the response data unchanged on success and throws exactly
   * when the request was rejected, with the error `LookupError` assigns; a search
   * never throws, returns the data unchanged on success and the empty list on
   * any failure.
   */
  lemma CallsSettle(o: Outcome)
    ensures o.Resolved? ==> Lookup(o) == Returned(o.body) && Search(o) == Returned(o.body)
    ensures Lookup(o).Threw? <==> o.Rejected?
    ensures o.Rejected? ==> Lookup(o).error == LookupError(o.cause)
    ensures !Search(o).Threw?
    ensures o.Rejected? ==> Search(o) == Returned(UserList([]))
    ensures Lookup(o).Unfinished? <==> Search(o).Unfinished?
  {
  }

  /** The three classes are told apart by status alone: 404, 0, or the status that came back. */
  lemma LookupErrorStatus(c: Cause)
    ensures LookupError(c).status == 404 <==> c == HttpStatus(404)
    ensures LookupError(c).status == 0 <==> !c.HttpStatus? || c == HttpStatus(0)
    ensures c.HttpStatus? ==> LookupError(c).status == c.status
  {
  }

  /**
   * End to end, in either generation: once a token is in hand and the answer is
   * not a 401, a body reaches a lookup and a search unchanged; a 404 reaches a
   * lookup as "user not found"; no response as the network error; any other
   * status as an error with that status; and a search of any failure is the
   * empty list.
   */
  lemma ResponsesClassified(tokens: TokenSource, clear: Store -> Store, c: ClientState, cfg: RequestConfig, fuel: nat)
    requires tokens(c.auth).0.Token?
    requires !(NextResponse(c).ErrorStatus? && NextResponse(c).status == UNAUTHORIZED)
    ensures var o := Dispatch(tokens, clear, c, cfg, fuel).0;
      var n := NextResponse(c);
      && (n.Delivered? ==> Lookup(o) == Returned(n.body) && Search(o) == Returned(n.body))
      && (n.NoResponse? ==> Lookup(o) == Threw(ApiError(NETWORK_MESSAGE, 0, "API_ERROR_0")))
      && (n.ErrorStatus? && n.status == 404 ==> Lookup(o) == Threw(ApiError(NOT_FOUND_MESSAGE, 404, "API_ERROR_404")))
      && (n.ErrorStatus? ==> Lookup(o).Threw? && Lookup(o).error.status == n.status)
      && (!n.Delivered? ==> Search(o) == Returned(UserList([])))
  {
    NotResentUnlessUnauthorized(tokens, clear, c, cfg, fuel);
  }
}
