# Authenticated API client with transparent token refresh

A Dafny model of the browser-side HTTP client of the health-monitoring
dashboard (`Frontend/src/api.js`). The client is an axios instance with two
interceptors around a credential store (`localStorage`):

- the **request interceptor** attaches `Authorization: Bearer <access_token>`
  whenever a truthy access token is stored;
- the **response interceptor** (the refresh coordinator) answers a 401 on a
  config not yet marked `_retry`. It marks the config. If a truthy
  `refresh_token` is stored and the url does not include
  `/auth/token/refresh/`, it POSTs the refresh token through bare axios. A
  granted refresh stores the new access token, and rotates the refresh token
  only when a truthy one was issued. It then sets the instance default and the
  config's `Authorization`, and replays the config once. A refused refresh, or
  a 401 that cannot be refreshed, clears both tokens and redirects to
  `/login`. Everything else is rejected unchanged;
- the **endpoint groups** (`authAPI`, `patientAPI`, `measurementAPI`,
  `predictionAPI`) map their arguments to one call shape each: HTTP method,
  path and body.

Modules, one per part:

- `Wrappers` (`wrappers.dfy`): `Option`, for JavaScript's `null`/`undefined`.
- `Text` (`text.dfy`): `Contains` is `String.prototype.includes`, proved equal
  to "occurs at some index". `NatToString` is the decimal rendering that a
  template literal gives a non-negative safe integer id, proved to round-trip.
- `Endpoints` (`endpoints.dfy`): the endpoint groups as the pure function
  `Route`.
- `Client` (`client.dfy`): the browser state is the class `ApiClient`. Its
  fields are `store` for `localStorage`, `defaultAuth` for
  `api.defaults.headers.common.Authorization`, `redirect` for the last value
  given to `window.location.href`, and `sent`, the log of requests put on the
  wire. An axios config is the class `RequestConfig`, whose `headers` and
  `retry` (`_retry`) the interceptors update in place. Server replies are
  method parameters.
- `Scenarios` (`scenarios.dfy`): client methods that walk through concrete
  lifecycles using only the contracts: refresh and replay (through `Request`
  and through `Invoke`), refused refresh, no refresh token, rejected replay,
  and the stale default header after a refused refresh.

axios copies a config over the instance defaults on every dispatch. `Send`
models this: it creates a fresh `RequestConfig`, runs the request interceptor
on it in place, and logs it. That copy is the `error.config` the response
interceptor later mutates and replays. The replay is not awaited inside the
`try`, so a rejected replay bypasses the `catch` and goes to the response
interceptor again. There its `_retry` is already set, so it passes through.
`OnError` models this by calling itself on the replayed copy. So a failed
replay ends with the rejection of the replay, and the tokens that the refresh
just stored remain in place.

Behaviour of the code the model keeps as it is:

- A request made with no stored access token still carries the instance
  default `Authorization` if an earlier refresh set one. The interceptor's own
  logout clears the store but not that default. `redirect` records the
  navigation to `/login`, and that page load would build a new `api` without
  the default. So the stale header reaches only requests issued on the same
  page before the navigation takes effect, and requests after a client-side
  logout that does not reload the page. `Scenarios.StaleDefaultAfterLogout`
  shows the first case.
- A stored empty string counts as absent, because the tokens are tested for
  truthiness (`Truthy`).
- The refresh-endpoint guard is a substring test on the url
  (`IsRefreshRequest`). A config without a url is not treated as the refresh
  endpoint.

## Model

| member | source | states |
|---|---|---|
| `Text.ContainsIffOccurs` | Frontend/src/api.js:37 | `url.includes(p)` as modelled holds exactly when `p` occurs at some index of `url` |
| `Text.NatToString` | Frontend/src/api.js:79-94 | an id in a path (a non-negative safe integer) is a non-empty string of decimal digits, with no leading zero unless the id is 0 |
| `Text.NatToStringRoundTrip` | Frontend/src/api.js:79-94 | reading the rendered digits back gives the id |
| `Endpoints.Route` | Frontend/src/api.js:68-95 | every operation targets a path delimited by `/` at both ends; the GET and DELETE calls carry no body, every other call does |
| `Endpoints.RefreshPathOnlyForRefresh` | Frontend/src/api.js:68-95 | an operation's path includes `/auth/token/refresh/` if and only if it is `authAPI.refresh`, for every id |
| `Endpoints.IdPathInjective` | Frontend/src/api.js:79-94 | two paths from the same template are equal only when their ids are equal |
| `Endpoints.RouteNamesId` | Frontend/src/api.js:79-94 | patient, measurement-list, measurement and prediction calls for different ids differ |
| `Client.Authorized` | Frontend/src/api.js:17-23 | with a truthy stored access token, `Authorization` is `Bearer <token>`; otherwise the headers are returned unchanged; other headers are never touched |
| `Client.Merged` | Frontend/src/api.js:45 | a config's own `Authorization` wins over the instance default; without one, the default (possibly stale) is what goes out; other headers are the config's |
| `Client.Cleared` | Frontend/src/api.js:48-58 | after a logout both tokens are absent and every other stored key is kept |
| `Client.Rotated` | Frontend/src/api.js:40-44 | after a granted refresh the access token is `data.access`; the refresh token is `data.refresh` when that is truthy and keeps its old value (or absence) otherwise; other keys are kept |
| `Client.ReplayKeepsHeaders` | Frontend/src/api.js:45-47 | once the config's own `Authorization` is `Bearer <access>` and the store holds `access`, dispatching the replay leaves its headers exactly as they are |
| `Client.ApiClient.constructor` | Frontend/src/api.js:9-14 | a new instance has no default `Authorization`, no redirect and nothing sent, over the given store and base url |
| `Client.ApiClient.InterceptRequest` | Frontend/src/api.js:17-23 | the config's headers become `Authorized(old headers, store)`, updated in place |
| `Client.ApiClient.Send` | Frontend/src/api.js:17-23 | a dispatched request is a fresh copy of the config (same method, url, body and retry marker) whose headers are the defaults merged under the config's own and then authorized; exactly that copy is appended to the wire log |
| `Client.ApiClient.OnError` | Frontend/src/api.js:28-62 | the retry marker ends up set exactly when it was set before or the status is 401. Not a 401, or already retried: rejects with the same error and changes nothing. 401 without a truthy refresh token, or on a url including the refresh path: clears both tokens, redirects to `/login`, sends nothing, rejects with the original error. Refresh refused: exactly one bare refresh POST `{refresh: stored token}`, tokens cleared, redirect to `/login`, rejects with the refresh error. Refresh granted: exactly one refresh POST, the store is `Rotated`, the default and the config's `Authorization` are `Bearer <access>`, exactly one replay with those headers is sent, no redirect, and the caller gets the replay's outcome, success or failure |
| `Client.ApiClient.Request` | Frontend/src/api.js:26-63 | for a whole request: the first send is authorized from the store; successes and non-401 errors reach the caller unchanged with the store untouched; at most three requests go out, and exactly one of them is a refresh POST when the coordinator attempts a refresh, none otherwise; each branch's store, redirect, outcome and number of requests as for `OnError`; on a granted refresh the third request is the original one (same method, url and body) resubmitted with its first headers except `Authorization`, which is `Bearer <access>` |
| `Client.ApiClient.Invoke` | Frontend/src/api.js:68-95 | an endpoint operation sends its `Route` call; `authAPI.refresh` never causes a refresh POST and a 401 from it logs out with the original error; a 401 from any other operation with a truthy refresh token stored causes exactly one refresh POST; a refused refresh then logs out with the refresh error after two requests, and a granted one replays the same call with `Bearer <access>` as the third and last request and hands its outcome to the caller |

## Left out

- Environment-based selection of `API_URL`: the base url is a parameter of the `ApiClient` constructor.
- Network transport and axios internals: every server reply is a method parameter (the first reply, the refresh reply, the replay reply), already split into resolved and rejected. Status validation, timeouts and the `Content-Type` default header are not modelled.
- URL joining: `FullUrl` concatenates the base url and the relative url. It does not model axios's slash normalisation or absolute config urls.
- The browser redirect: only the target assigned to `window.location.href` is recorded, as `redirect`. The page navigation itself is not modelled.
- Asynchrony and concurrent requests: one failure event is handled at a time, with the steps in program order. The retry marker is set before the refresh POST in that order. Interleavings of several in-flight requests are not modelled, and no single-flight guard is added, since the code has none.
- A refresh reply without `access`: `data.access` is a string in the model. The browser would store the text "undefined" in that case.
- Ids other than non-negative safe integers: the endpoint ids are `nat`, rendered as plain decimal digits. JavaScript renders negative and fractional ids with `-` and `.`, ids of 1e21 and above in exponent form, and integers above 2^53 inexactly; a string id could put any text, the refresh path included, into a path.
- The page load after the redirect to `/login`: it would build a new `api` instance without the default `Authorization`. The model keeps `defaultAuth` across the redirect and records only its target.
- A rejection without `error.config`: the handler always receives the dispatched config.
- `Frontend/src/components/Layout.jsx` (rendering and a browser-side token decode), `Backend/apps/healthmonitor/views_health.py` (database and clock I/O), `Backend/backend/settings/prod.py` (configuration), `Backend/backend/urls.py` (framework routing) and `Backend/apps/healthmonitor/exception_handler.py` (a logging wrapper around a framework call) are not part of this model.
