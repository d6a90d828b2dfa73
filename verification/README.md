# Admin console session and API-access layer, in Dafny

This project models the session and token logic of the super-admin console's
HTTP client module, `admin-service/src/api/axios.js`. It proves properties of
that model.

The browser is modelled as a `Browser` object with three fields:

- `local`: `localStorage`, the durable storage area, as a `map<string, string>`;
- `session`: `sessionStorage`, the per-tab storage area, as a `map<string, string>`;
- `location`: the current path.

Over that state the model covers:

- **Token lookup** (`getAdminToken`). A left-associated `||` chain over four
  (store, key) lookups, ending in `""`. It is proved equal to a reference
  definition: the first candidate that is present and non-empty.
- **Login side effect** (the storage part of `adminLogin`). An imperative method
  runs the conditional `setItem` calls. It is proved equal to a declarative
  merge of the login entries into `localStorage`.
- **Logout** (`logout`). A loop removes the five credential keys from both
  areas, then the method sets the location to `/login`. It is proved equal to
  a declarative "remove these keys" specification.
- **Request interceptor**. It adds `Authorization: Bearer <token>` exactly when
  the token is non-empty.
- **Response interceptor**. It forces a logout exactly on status 401 or 403
  while the browser is away from `/login`. It always hands the outcome back
  unchanged.
- **Representative endpoint wrappers**. Each one is a pure function from its
  arguments to a request descriptor: method, path, query parameters and body.
  Their contracts state the paths' `/`-separated segments. These show that the
  static segments and the trailing slash survive any id.

Modules: `WebStorage` (web_storage.dfy), `TokenLookup` (token_lookup.dfy),
`Session` (session.dfy), `Endpoints` (endpoints.dfy), `Interceptors`
(interceptors.dfy).

Three behaviours of the code that a reader might not expect, all followed by
the model:

- The refund action's path segment is `process_refund`, with an underscore
  (admin-service/src/api/axios.js:261).
- Login always writes the credentials to `localStorage`; no caller can choose
  `sessionStorage` (admin-service/src/api/axios.js:73-77).
- A login whose response has no truthy `refresh` leaves any `refreshToken`
  stored earlier in place, so the stored bundle can mix two logins
  (admin-service/src/api/axios.js:75).

## Model

| member | source | states |
|---|---|---|
| `TokenLookup.FirstTruthy` | admin-service/src/api/axios.js:13-18 | Reference lookup: returns `""` iff no candidate is present and non-empty; otherwise returns the value of the first such candidate, and every candidate before it is absent or empty |
| `TokenLookup.AdminToken` | admin-service/src/api/axios.js:13-18 | The chain of JavaScript or-operators over `localStorage.accessToken`, `localStorage.authToken`, `sessionStorage.accessToken`, `sessionStorage.authToken`, then `""`, equals the reference lookup over those four candidates in that order |
| `TokenLookup.DurableFirst` | admin-service/src/api/axios.js:13-18 | The durable area's token wins whenever it has one, whatever `sessionStorage` holds; only otherwise is the per-tab area consulted |
| `TokenLookup.AccessTokenWins` | admin-service/src/api/axios.js:14 | A present, non-empty `localStorage.accessToken` is always the token returned |
| `TokenLookup.NoTokenIsEmpty` | admin-service/src/api/axios.js:13-18 | With all four candidates absent or empty, the lookup returns `""` |
| `Session.AfterLogin` | admin-service/src/api/axios.js:71-78 | Without a truthy `access` the store is unchanged. With one, `accessToken` and `authToken` hold `access`, `adminAuthenticated` is `"true"` and `adminUsername` is the username. `refreshToken` is `refresh` when that is truthy and the old entry otherwise. Every other key is unchanged |
| `Session.Browser.AdminLogin` | admin-service/src/api/axios.js:65-81 | The conditional `setItem` sequence leaves `localStorage` equal to `AfterLogin` of its old value. `sessionStorage` and the location are unchanged. The response body is returned unchanged |
| `Session.LoginTokenWins` | admin-service/src/api/axios.js:71-78 | After a successful login the lookup returns exactly `access`, even when stale tokens remain in `sessionStorage`; the session is authenticated |
| `Session.Cleared` | admin-service/src/api/axios.js:84-93 | The five credential keys are absent afterwards; every other key keeps its value |
| `Session.AfterLogout` | admin-service/src/api/axios.js:83-96 | Both areas lose exactly the five credential keys and keep every other entry; the location becomes `/login` |
| `Session.Browser.Logout` | admin-service/src/api/axios.js:83-96 | The removal loop over the five keys, followed by the navigation, leaves the browser in state `AfterLogout` of its old state |
| `Session.LogoutSignsOut` | admin-service/src/api/axios.js:83-96 | After logout the lookup returns `""`, the session is anonymous and the location is `/login` |
| `Session.LogoutIdempotent` | admin-service/src/api/axios.js:83-96 | Logging out twice leaves the same state as logging out once |
| `Session.LogoutUndoesLogin` | admin-service/src/api/axios.js:71-93 | Login writes only credential keys, so clearing after a login gives the same store as clearing without it |
| `Interceptors.BearerToken` | admin-service/src/api/axios.js:37 | Parsing a header as `Bearer <token>` yields a token only when the header is exactly that token's bearer form |
| `Interceptors.BearerRoundTrip` | admin-service/src/api/axios.js:37 | The token read back from `Bearer <token>` is the token that was sent |
| `Interceptors.AttachToken` | admin-service/src/api/axios.js:33-40 | With a non-empty token, `Authorization` carries exactly that token in bearer form; with `""`, the configuration is unchanged. Other headers and the request are never touched |
| `Interceptors.InterceptRequest` | admin-service/src/api/axios.js:33-40 | The interceptor returns the configuration with the token from the current storage attached, and never rejects |
| `Interceptors.AuthorizationIffAuthenticated` | admin-service/src/api/axios.js:23-40 | A request starting from the client's default headers carries `Authorization` iff the session is authenticated, with the current token's bearer form; `Content-Type` stays `application/json` |
| `Interceptors.AfterResponse` | admin-service/src/api/axios.js:47-58 | A rejected 401/403 away from `/login` leaves the browser exactly in the state `logout` produces, which is anonymous and on `/login`; any other outcome leaves the state unchanged |
| `Interceptors.InterceptResponse` | admin-service/src/api/axios.js:47-58 | The outcome is handed back unchanged (a success passes through; a failure is rejected with the same error). The browser changes exactly as `AfterResponse` says |
| `Interceptors.NoRedirectLoop` | admin-service/src/api/axios.js:51-55 | On `/login` no response changes the state |
| `Interceptors.AtMostOneForcedLogout` | admin-service/src/api/axios.js:47-58 | With navigation taking effect at once, as the model has it, a sequence of settled requests forces at most one logout. It forces one exactly when the browser started away from `/login` and some response was a 401 or 403 |
| `Interceptors.Configure` | admin-service/src/api/axios.js:23-28 | The shared client keeps the request as given and starts every configuration with `Content-Type: application/json` and no `Authorization` header |
| `Endpoints.AdminLoginRequest` | admin-service/src/api/axios.js:66-69 | POST with body exactly `{username, password}` and no query parameters, to a path with segments `superAdmin/api/admin-login` and a trailing slash |
| `Endpoints.ApproveVendorRequest` | admin-service/src/api/axios.js:119-122 | POST to `/superAdmin/api/vendor-requests/{id}/approve/` for any id, with static segments and trailing slash preserved. The body is exactly `{reason}`, and `reason` defaults to `""` |
| `Endpoints.RejectVendorRequest` | admin-service/src/api/axios.js:124-127 | POST to `.../vendor-requests/{id}/reject/`. An omitted reason has no default and gives an empty body object |
| `Endpoints.FetchAllProducts` | admin-service/src/api/axios.js:142-145 | GET `/superAdmin/api/products/` with the caller's query parameters, `{}` by default, and no body |
| `Endpoints.FetchProductsByVendor` | admin-service/src/api/axios.js:147-148 | GET of a URL that is `fetchAllProducts`' path followed by the query string `vendor_id=<v>`, with no further parameters and no body |
| `Endpoints.UnblockDeliveryAgent` | admin-service/src/api/axios.js:171-172 | POST `{}` to `.../delivery-agents/{id}/unblock/` |
| `Endpoints.DeleteCategoryCommission` | admin-service/src/api/axios.js:192-193 | DELETE, without a body, to `.../commission-settings/{id}/` |
| `Endpoints.ToggleUserBlock` | admin-service/src/api/axios.js:207-208 | POST `{action, reason}` to `.../users/{id}/toggle-block/`. `reason` defaults to `""`, and an omitted `action` is dropped from the body |
| `Endpoints.ProcessRefund` | admin-service/src/api/axios.js:259-262 | POST, without a body, to `.../order-returns/{id}/process_refund/` |

## Left out

- The HTTP client library, network dispatch, promises and async sequencing
  (the `.then((r) => r.data)` chains). A response enters the model as an
  abstract `Outcome`, and a login response as its body.
- The base-URL fallback from a deployment variable (lines 6-8). It is
  configuration. Only the default `Content-Type` header of the shared client is
  kept, as `DefaultHeaders`.
- The request interceptor's error handler (line 41). It only re-rejects the
  error.
- Browser navigation. Assigning `window.location.href` and reading
  `window.location.pathname` are both modelled as the one `location` field.
  No page reload happens.
- Interceptors.InterceptRequest: returns a new configuration value. The source
  mutates `config.headers` in place and returns the same object, so aliasing of
  that object is not modelled.
- Session.Browser.AdminLogin: takes the login response body as a parameter. It
  does not dispatch the request, which is `Endpoints.AdminLoginRequest`, and the
  password only appears in that request.
- JavaScript values that are not strings. Storage values and the response's
  `access`/`refresh` are strings or absent; absent covers `null` and
  `undefined`. A non-string truthy `access` and `setItem`'s conversion to string
  are not modelled.
- A default parameter applies only when an argument is omitted. An explicit
  `null` is not modelled.
- Ids are taken in their string form; template interpolation of numbers and
  `undefined` is not modelled.
- The other endpoint wrappers. Each is the same one-line mapping as the
  representative ones.
- Concurrent in-flight requests. `AtMostOneForcedLogout` covers responses that
  settle one after another, and logout is idempotent.
- Interceptors.AtMostOneForcedLogout: holds for the model's instant navigation
  only. In a browser, `window.location.pathname` keeps its old value after
  `logout` assigns `href`, until the login page loads. Further 401/403
  responses that settle in that window call `logout` again. By
  `Session.LogoutIdempotent` those extra calls leave the same storage and
  location, but the source can redirect more than once.
- Storage failures such as quota errors or unavailable storage.
- admin-service/src/components/AdminLayout.jsx is not part of this model. It is
  presentational UI state.
