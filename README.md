# swifty-companion: token lifecycle, 42 API client, search validation and profile cache

This is a Dafny model of the logic inside the swifty-companion mobile app, a client for the
42 intranet API. It covers four parts:

- **Token lifecycle**, in two generations.
  - The refresh-capable `AuthService` (src/services/AuthService.ts) runs the OAuth 2.0
    authorization-code grant and the refresh grant. These are sections 4.1.3 and 6 of RFC 6749.
  - The earlier `AuthService` (services/AuthService.ts) runs only the client-credentials grant, which
    is section 4.4 of RFC 6749.
  - Both keep `access_token` and `token_expiry` in a key-value store. A token counts as expired
    5 minutes before its deadline.
- **The 42 API client** (`Api42Service`, in both generations).
  - Its request interceptor adds `Authorization: Bearer <token>`.
  - Its response interceptor reacts to a 401: it clears the tokens, gets a token again and resends
    the request.
  - `createError` and the `catch` blocks turn failures into `ApiError` values. A search turns any
    failure into an empty list.
- **Username validation** in the `SearchInput` component: an ordered chain of checks on the
  trimmed text, plus the component's `text` and `validationError` state.
- **The one-slot profile cache** of `ProfileProvider`.

Host capabilities become values:
- The storage wrapper is a `map<string, string>`.
- `Date.now()` is a `now: nat` parameter, fixed for one call.
- A failed storage read is a `readOk: bool` parameter.
- The identity endpoint is a script of replies plus a log of the POSTs sent to it. An empty script
  refuses the POST.
- The resource server is a script of responses plus a log of the requests sent to it. An empty
  script gives no response.

Each state-changing operation has two forms:
- a pure function from the old state to a result and the new state, for example
  `RefreshAuth.ValidToken` or `Interceptors.Dispatch`;
- a class method that performs the same steps on its fields, proved to agree with that function.

The properties are proved as lemmas about the functions.

Three JavaScript primitives are written out in `Text`, because the code depends on their exact
behaviour:
- `trim`, over the ECMAScript white-space set;
- `length`, counted in UTF-16 code units;
- `toString` and `parseInt` for the expiry timestamp.

Three behaviours of the code that are easy to miss, modelled as written:
- **Legacy `getValidToken` may authenticate twice.** It calls `authenticate()` inside its `try` with
  `return await`, so a failed grant is caught by its own `catch`, which calls `authenticate()` again
  (services/AuthService.ts:96-101). A missing or stale token therefore leads to one grant when it
  succeeds and two when the first fails. See `ClientCredentialsAuth.ValidToken` and
  `ClientCredentialsAuth.UnusableTokenAuthenticates`.
- **The refresh-capable generation never resends.** The response interceptor clears the tokens and
  then calls `getValidToken` again. That call finds no token and throws, so the header rewrite and
  the resend (src/services/Api42Service.ts:34-37) never run. The caller sees the network error with
  status 0, not the 401. See `Interceptors.RefreshCapableNeverResends` and
  `Api42Service.UnauthorizedLookupIsNetworkError`.
- **The resend has no bound.** The resend goes back through `client.request`, so it re-enters both
  interceptors, and the code sets no limit. `Interceptors.Dispatch` therefore takes `fuel`, the
  number of resends it follows. `Interceptors.ResentOnlyAfterUnauthorized` proves that running out
  of fuel takes one 401 per resend.

## Model

| member | source | states |
|---|---|---|
| Text.Trim | src/components/SearchInput.tsx:15-32 | `trim`: the result is a window `s[i..j]` of the input with only white space outside it; neither end of the result is white space; the result is empty exactly when the input is all white space |
| Text.TrimWindow | src/components/SearchInput.tsx:31 | the text left after cutting the leading and then the trailing white space is a window of the input with only white space outside it |
| Text.TrimIdempotent | src/components/SearchInput.tsx:31-32 | trimming twice is trimming once |
| Text.Utf16Length | src/components/SearchInput.tsx:15-19 | the JavaScript length lies between the number of characters and twice that; it equals the number of characters when all are in the Basic Multilingual Plane |
| Text.NatToDecimal | src/services/AuthService.ts:72 | `toString` of a non-negative integer is a non-empty run of decimal digits with no leading zero |
| Text.DigitRunOfDigits | src/services/AuthService.ts:129-132 | `parseInt` reads the whole of a string made only of digits |
| Text.DecimalValue | src/services/AuthService.ts:72 | the digits `toString` writes denote the number written |
| Text.ParseIntOfDigits | src/services/AuthService.ts:129-132 | a run of decimal digits without a leading zero is parsed as the number it denotes |
| Text.ParseIntOfDecimal | src/services/AuthService.ts:129-132 | the stored expiry `Date.now() + expires_in * 1000`, written with `toString`, is read back by `parseInt` as the same integer |
| Text.ParseInt | src/services/AuthService.ts:132 | `parseInt` without a radix, with NaN as `None`; no contract of its own: `ParseIntOfDigits` and `ParseIntOfDecimal` describe what it reads back, and `CreateError` uses it on the error code |
| Tokens.Session.Post | src/services/AuthService.ts:57-66 | a POST to the token endpoint is logged and changes no key; its outcome is the next scripted reply, which is consumed, or a refusal when no reply is left |
| Tokens.FreshAt | src/services/AuthService.ts:132-135 | the 5-minute freshness test, false for a NaN expiry; no contract of its own: `AccessTokenWritten` proves a just-written token fresh exactly when its lifetime is over 300 s, and `RefreshExtendsDeadline` uses it |
| Tokens.ExpiryReadBack | src/services/AuthService.ts:69-72 | the expiry a grant writes, `Date.now() + expires_in * 1000` in decimal, is read back by `parseInt` as that same integer |
| Tokens.AccessTokenWritten | src/services/AuthService.ts:68-72 | after the two writes of a grant the token is stored, the expiry reads back as `now + expires_in * 1000`, no other key changed, both keys are present, and the token is fresh at once exactly when its lifetime is over 300 s |
| RefreshAuth.Cleared | src/services/AuthService.ts:158-162 | `clearTokens` deletes exactly the three keys and nothing else |
| RefreshAuth.Exchange | src/services/AuthService.ts:51-83 | `exchangeCodeForToken` on a session; no contract of its own: `ExchangeFailures`, `ExchangeSuccess`, `PairKeptTogether` and `SignInScenario` describe it |
| RefreshAuth.Refresh | src/services/AuthService.ts:86-124 | `refreshAccessToken` on a session; no contract of its own: `RefreshSuccess`, `RefreshFailureErases`, `PairKeptTogether` and `ExpiryScenario` describe it |
| RefreshAuth.ValidToken | src/services/AuthService.ts:126-147 | `getValidToken` on a session; no contract of its own: `FreshTokenServedFromStore`, `StaleTokenRefreshedOnce`, `MissingTokenNotRefreshed`, `IssuedTokenIsStored`, `ClearedSessionHasNoToken` and `RefreshExtendsDeadline` describe it |
| RefreshAuth.AuthService.constructor | src/services/AuthService.ts:50 | a service starts with the given store, an empty POST log and the given replies |
| RefreshAuth.AuthService.Post | src/services/AuthService.ts:57-66 | the method performs `Session.Post` on the fields |
| RefreshAuth.AuthService.ExchangeCodeForToken | src/services/AuthService.ts:51-83 | the method has the result and the new state of `Exchange` |
| RefreshAuth.AuthService.RefreshAccessToken | src/services/AuthService.ts:86-124 | the method has the result and the new state of `Refresh` |
| RefreshAuth.AuthService.GetValidToken | src/services/AuthService.ts:126-147 | the method has the result and the new state of `ValidToken` |
| RefreshAuth.AuthService.IsAuthenticated | src/services/AuthService.ts:149-156 | the answer is `SignedIn` of the store: true exactly when the store was readable and holds a non-empty access token |
| RefreshAuth.AuthService.ClearTokens | src/services/AuthService.ts:158-162 | the store becomes `Cleared` of the old store; the logs stay |
| RefreshAuth.FreshTokenServedFromStore | src/services/AuthService.ts:128-136 | a token that is stored and fresh is returned as it is, with no POST and nothing written |
| RefreshAuth.StaleTokenRefreshedOnce | src/services/AuthService.ts:131-139 | a stored but stale token leads to `refreshAccessToken` once: exactly one refresh-grant POST when the refresh token and credentials are there, otherwise no POST |
| RefreshAuth.MissingTokenNotRefreshed | src/services/AuthService.ts:131-142 | without a token or an expiry the result is the no-token error, with nothing posted or written, even when a refresh token is stored |
| RefreshAuth.ExchangeFailures | src/services/AuthService.ts:53-82 | the exchange fails exactly when the client id or secret is missing or the POST is refused; every failed exchange is the one authentication error and writes nothing; without credentials nothing is posted; otherwise exactly the authorization-code request is posted |
| RefreshAuth.GrantWritten | src/services/AuthService.ts:108-118 | a grant stores the token and an expiry that `parseInt` reads back; it writes `refresh_token` only when one came back and otherwise keeps the old value or its absence; every other key is kept |
| RefreshAuth.ExchangeSuccess | src/services/AuthService.ts:68-78 | a granted exchange returns the token, makes the grant's writes, consumes one reply, and signs in exactly when the token is non-empty |
| RefreshAuth.RefreshSuccess | src/services/AuthService.ts:98-118 | a granted refresh returns the new token, makes the grant's writes, and replaces `refresh_token` only when a new one came back |
| RefreshAuth.RefreshFailureErases | src/services/AuthService.ts:88-123 | the refresh fails exactly when the store is unreadable, there is no refresh token, there are no credentials or the POST is refused; every failure is the session-expired error and erases the three keys |
| RefreshAuth.ClearedSessionHasNoToken | src/services/AuthService.ts:142-162 | clearing is idempotent; after it nobody is signed in; `getValidToken` then fails with no POST and no write |
| RefreshAuth.IssuedTokenIsStored | src/services/AuthService.ts:126-147 | every token `getValidToken` returns is the access token left in the store |
| RefreshAuth.PairKeptTogether | src/services/AuthService.ts:68-162 | exchange, refresh, `getValidToken` and `clearTokens` never leave a token without an expiry, or an expiry without a token |
| RefreshAuth.RefreshExtendsDeadline | src/services/AuthService.ts:108-139 | refreshing a stale token whose new lifetime is over the buffer moves the deadline strictly later and makes the token fresh |
| RefreshAuth.SignInScenario | src/services/AuthService.ts:51-136 | one concrete sign-in: the exchange returns the token, the user is signed in, and the next `getValidToken` serves the token with no POST |
| RefreshAuth.ExpiryScenario | src/services/AuthService.ts:98-139 | one concrete refresh of a token 60 s from expiry: the new token is returned, one refresh grant is posted, and the old refresh token is kept |
| ClientCredentialsAuth.Cleared | services/AuthService.ts:105-109 | `clearTokens` deletes exactly the token and its expiry |
| ClientCredentialsAuth.Authentication | services/AuthService.ts:50-79 | `authenticate` on a session; no contract of its own: `AuthenticateFailures`, `AuthenticateSuccess` and `AuthenticationStoresToken` describe it |
| ClientCredentialsAuth.ValidToken | services/AuthService.ts:81-102 | `getValidToken` on a session; no contract of its own: `FreshTokenServedFromStore`, `UnusableTokenAuthenticates`, `UnreadableStoreAuthenticates`, `IssuedTokenIsStored` and `ClearedSessionReauthenticates` describe it |
| ClientCredentialsAuth.AuthService.constructor | services/AuthService.ts:49 | a service starts with the given store, an empty POST log and the given replies |
| ClientCredentialsAuth.AuthService.Post | services/AuthService.ts:58-65 | the method performs `Session.Post` on the fields |
| ClientCredentialsAuth.AuthService.Authenticate | services/AuthService.ts:50-79 | the method has the result and the new state of `Authentication` |
| ClientCredentialsAuth.AuthService.GetValidToken | services/AuthService.ts:81-102 | the method has the result and the new state of `ValidToken` |
| ClientCredentialsAuth.AuthService.ClearTokens | services/AuthService.ts:105-109 | the store becomes `Cleared` of the old store |
| ClientCredentialsAuth.FreshTokenServedFromStore | services/AuthService.ts:83-93 | a token that is stored and fresh is returned with no grant and nothing written |
| ClientCredentialsAuth.UnusableTokenAuthenticates | services/AuthService.ts:86-101 | a missing, empty or stale token leads to `authenticate`: one grant and its token when it succeeds, and a second `authenticate` whose outcome is final when it fails |
| ClientCredentialsAuth.UnreadableStoreAuthenticates | services/AuthService.ts:98-101 | an unreadable store leads to exactly one `authenticate`, whose outcome is the result |
| ClientCredentialsAuth.AuthenticateFailures | services/AuthService.ts:52-78 | `authenticate` fails exactly when the client id or secret is missing or the POST is refused; every failure is the one authentication error and writes nothing; without credentials nothing is posted; otherwise exactly the client-credentials request is posted |
| ClientCredentialsAuth.AuthenticateSuccess | services/AuthService.ts:67-74 | a granted `authenticate` returns the token, stores it with an expiry that reads back as `now + expires_in * 1000`, and keeps every other key |
| ClientCredentialsAuth.GrantedTokenServedAgain | services/AuthService.ts:67-93 | a token just granted with a lifetime over the buffer is served from the store by the next `getValidToken` |
| ClientCredentialsAuth.IssuedTokenIsStored | services/AuthService.ts:81-102 | every token `getValidToken` returns is the access token left in the store |
| ClientCredentialsAuth.AuthenticationStoresToken | services/AuthService.ts:67-74 | a token `authenticate` returns is the access token it stored |
| ClientCredentialsAuth.ClearedSessionReauthenticates | services/AuthService.ts:96-109 | clearing is idempotent; after it `getValidToken` always posts a client-credentials grant |
| Interceptors.Pass | src/services/Api42Service.ts:16-41 | one pass through both interceptors; no contract of its own: `PassFacts` describes it |
| Interceptors.Dispatch | src/services/Api42Service.ts:16-41 | `client.request` with resends followed up to `fuel`; no contract of its own: `RequestsCarryBearer`, `NotResentUnlessUnauthorized`, `ResentOnlyAfterUnauthorized`, `RefreshCapableNeverResends` and `ClientCredentialsResendsAfterUnauthorized` describe it |
| Interceptors.Send | src/services/Api42Service.ts:36 | one HTTP exchange logs the request, consumes the next scripted response and leaves the token service alone |
| Interceptors.ServicesKeepLog | src/services/Api42Service.ts:18-32 | neither generation's `getValidToken` ever removes a logged token POST |
| Interceptors.PassFacts | src/services/Api42Service.ts:16-41 | one pass sends the config with the resolved bearer token, or sends nothing when `getValidToken` throws; it resends only after a 401 that carries its config, and then the same config with a bearer header |
| Interceptors.RequestsCarryBearer | src/services/Api42Service.ts:16-36 | the first request sent carries "Bearer " plus the token `getValidToken` returned; a thrown token error is the rejection, with nothing sent; every request sent is the caller's config with only a bearer header set |
| Interceptors.NotResentUnlessUnauthorized | src/services/Api42Service.ts:30-39 | unless the answer is a 401 carrying its config, exactly one request goes out: a body resolves, no response is rejected as unanswered, and another status is rejected unchanged |
| Interceptors.UnauthorizedRunExtends | src/services/Api42Service.ts:30-36 | one 401 in front of a run of 401s gives a run one longer |
| Interceptors.ResentOnlyAfterUnauthorized | src/services/Api42Service.ts:27-41 | at most `fuel` + 1 requests go out; every one but the last was answered 401 with its config; running out of fuel needs all `fuel` + 1 answers to be such 401s |
| Interceptors.RefreshCapableNeverResends | src/services/Api42Service.ts:30-37 | in this generation at most one request goes out and fuel never runs out; after a 401 the tokens are cleared and the rejection is the no-token error |
| Interceptors.ClientCredentialsResendsAfterUnauthorized | services/Api42Service.ts:32-40 | in the legacy generation a 401 with its config clears the tokens, posts one client-credentials grant, and resends the same config with only the new bearer token changed |
| Interceptors.ResendFollowsPass | services/Api42Service.ts:38-40 | when a pass ends in a resend and fuel is left, the resend is the next request sent |
| Interceptors.FirstPassReauthenticates | services/Api42Service.ts:17-40 | with a fresh token answered by a 401, the first pass sends the stored token, posts one grant, and asks to resend with the granted token |
| ApiErrors.CreateError | src/services/Api42Service.ts:104-110 | the error keeps its message and status; its code is exactly "API_ERROR_" followed by the status written in decimal, and `parseInt` reads that suffix back as the status |
| ApiErrors.NamedCodes | src/services/Api42Service.ts:53-57 | the not-found error's code is "API_ERROR_404" and the network error's is "API_ERROR_0" |
| ApiErrors.LookupError | src/services/Api42Service.ts:49-64 | a 404 is the "Utilisateur non trouvé" error, no response is the network error with status 0, and any other status is kept with the generic message |
| ApiErrors.Lookup | src/services/Api42Service.ts:67-87 | the `try`/`catch` of `getUserByLogin` and `getCurrentUser`; no contract of its own: `CallsSettle` and `ResponsesClassified` describe it |
| ApiErrors.Search | src/services/Api42Service.ts:89-102 | the `try`/`catch` of `searchUsers`; no contract of its own: `CallsSettle` and `ResponsesClassified` describe it |
| ApiErrors.CallsSettle | src/services/Api42Service.ts:67-101 | a lookup returns the data unchanged and throws exactly when the request was rejected; a search never throws, returns the data unchanged, and gives an empty list on any failure |
| ApiErrors.LookupErrorStatus | src/services/Api42Service.ts:71-86 | the status is 404 exactly for a 404 and 0 exactly for no response or a status 0; a status that came back is kept |
| ApiErrors.ResponsesClassified | src/services/Api42Service.ts:67-101 | with a token in hand and an answer other than a 401, the body reaches both calls unchanged, a 404 is "user not found", no response is the network error, any status is kept, and a failed search is the empty list |
| Api42Service.Api42Service.constructor | src/services/Api42Service.ts:10-14 | a client starts with no request sent and the given responses to come |
| Api42Service.Api42Service.Send | src/services/Api42Service.ts:36-46 | the method performs `Interceptors.Send` on the fields |
| Api42Service.Api42Service.Request | src/services/Api42Service.ts:16-41 | the method has the outcome and the new state of `Dispatch` with the refresh-capable service |
| Api42Service.Api42Service.GetCurrentUser | src/services/Api42Service.ts:44-65 | `GET /me` through `Dispatch`, with the lookup error mapping |
| Api42Service.Api42Service.GetUserByLogin | src/services/Api42Service.ts:67-87 | `GET /users/<login>` through `Dispatch`, with the lookup error mapping |
| Api42Service.Api42Service.SearchUsers | src/services/Api42Service.ts:89-102 | `GET /users` with `search` and `per_page` through `Dispatch`, with the empty list on failure |
| Api42Service.UnauthorizedLookupIsNetworkError | src/services/Api42Service.ts:30-58 | a 401 ends every lookup as the network error with status 0 and every search as the empty list, with exactly one request sent |
| LegacyApi42Service.Api42Service.constructor | services/Api42Service.ts:10-14 | a client starts with no request sent and the given responses to come |
| LegacyApi42Service.Api42Service.Send | services/Api42Service.ts:40-54 | the method performs `Interceptors.Send` on the fields |
| LegacyApi42Service.Api42Service.Attempt | services/Api42Service.ts:17-45 | the method has the state and the settled outcome, or the request to resend, of `Pass` with the client-credentials service |
| LegacyApi42Service.Api42Service.Request | services/Api42Service.ts:17-45 | the method has the outcome and the new state of `Dispatch` with the client-credentials service |
| LegacyApi42Service.Api42Service.GetUserByLogin | services/Api42Service.ts:51-73 | `GET /users/<login>` through `Dispatch`, with the lookup error mapping |
| LegacyApi42Service.Api42Service.SearchUsers | services/Api42Service.ts:78-91 | `GET /users` with `search` and `per_page` through `Dispatch`, with the empty list on failure |
| SearchInput.ValidateInput | src/components/SearchInput.tsx:14-28 | the checks run in order on the trimmed input: the empty message exactly when it is empty, the too-short message exactly at length 1, the charset message exactly at length 2 or more with a character outside `[a-zA-Z0-9_-]`, and no message exactly otherwise |
| SearchInput.ValidateTrimmed | src/components/SearchInput.tsx:31-32 | validating the trimmed text gives the same answer as validating the text |
| SearchInput.AcceptedIsLogin | src/components/SearchInput.tsx:19-27 | an accepted input trims to at least two characters, all in the class |
| SearchInput.LoginLength | src/components/SearchInput.tsx:19-23 | for a text made only of characters of the class, the JavaScript length is the number of characters |
| SearchInput.AfterSearch | src/components/SearchInput.tsx:30-42 | what `handleSearch` leaves in the message slot and the `onPress` log; no contract of its own: `SearchPassesOnlyAccepted` and `SearchesStayAccepted` describe it |
| SearchInput.SearchPassesOnlyAccepted | src/components/SearchInput.tsx:30-42 | a search clears the message exactly when the trimmed text passes; otherwise it sets the validation message and calls nothing; `onPress` gets only the trimmed, accepted text |
| SearchInput.SearchesStayAccepted | src/components/SearchInput.tsx:30-42 | if every earlier search was an accepted username, so is every search after one more `handleSearch` |
| SearchInput.AcceptedAppends | src/components/SearchInput.tsx:41 | appending an accepted username keeps the log of searches accepted |
| SearchInput.SearchInput.constructor | src/components/SearchInput.tsx:10-12 | the component starts with empty text, no message and no search |
| SearchInput.SearchInput.HandleSearch | src/components/SearchInput.tsx:30-42 | the text is kept, the message and the `onPress` log are those of `AfterSearch`, and every search stays accepted |
| SearchInput.SearchInput.HandleTextChange | src/components/SearchInput.tsx:44-49 | the text becomes the new text, the message is cleared, and no search is made |
| SearchInput.SearchInput.DisplayError | src/components/SearchInput.tsx:51 | the local message when it is non-empty, otherwise the `error` prop |
| ProfileContext.ProfileCache.constructor | src/contexts/ProfileContext.tsx:14 | the slot starts empty |
| ProfileContext.ProfileCache.GetCachedProfile | src/contexts/ProfileContext.tsx:20-25 | a profile is returned exactly when one is cached under that login, and it is the cached one; the slot is only read |
| ProfileContext.ProfileCache.CacheProfile | src/contexts/ProfileContext.tsx:14-18 | the slot holds the new profile; a lookup of its login returns it; a lookup of any other login misses |
| ProfileContext.ProfileCache.ClearCache | src/contexts/ProfileContext.tsx:27-29 | the slot is empty and every lookup misses |

## Left out

- The storage wrapper's platform branching between `localStorage` and `SecureStore`. This is a
  foreign capability (src/services/AuthService.ts:15-39, services/AuthService.ts:14-38). The model
  has one map.
- Storage writes and deletes that fail. The model assumes every `setItem` and `deleteItem` succeeds.
- Storage reads that fail. A failed read is one `readOk` flag per call. The model does not cover the
  token read succeeding while the expiry read fails.
- The axios transport, the 10 000 ms timeout, `expo-constants` and the API base URL. A response is a
  scripted `Transport` value, and a timeout is only "no response". The credentials are a parameter.
- `Date.now()`. It is the parameter `now`, which stays the same for the whole of one call.
- Concurrent calls: interleaved `getValidToken` or `request` promises. The code has no locking or
  coalescing. Every call is modelled as if it runs alone.
- `expires_in` arrives as a JSON number. The model gives it as a `nat`, so a fractional, negative
  or huge value and the floating-point product `expires_in * 1000` are not modelled.
- A non-numeric expiry string. `parseInt` is modelled on unbounded integers, with NaN as `None`. The
  model does not round values above 2^53 to a double as JavaScript does. A store can hold a
  non-numeric string only if something other than the services wrote it.
- The request interceptor's rejection handler (src/services/Api42Service.ts:22-24). It only passes
  the error on, and the model does the same.
- The HTTP method, base URL and other headers of a request. A request is its path, its query
  parameters and its Authorization header.
- `console.log` and `console.error` calls. They only log.
- React state updates. `SearchInput` and `ProfileProvider` are modelled as if each `setState` takes
  effect at once. In the code, state is read through the closures of the last render, so a read in
  the same event still sees the old value. Re-rendering and batching are not modelled.
- `Keyboard.dismiss()` in `handleSearch` (src/components/SearchInput.tsx:40). It is a UI effect.
- The rendering of `SearchInput`, and components/SearchInput.tsx, which has no logic.
- `src/contexts/AuthContext.tsx` and the `user_login` key. They call service methods that the
  services do not define.
- Screens, routing and the OAuth browser prompt.
- `User42` fields other than `id`, `login` and `displayname`. The services only pass profiles on.
- Interceptors.Dispatch: the resend loop has no bound in the code. The model follows at most `fuel`
  resends and ends with `OutOfFuel` (a call of `Unfinished`) once they run out. A chain of 401s
  longer than the fuel is therefore not followed to its end.
- The message of an `AuthError`. The model keeps only which error was thrown: authentication
  failed, session expired, no token, or storage unreadable.
