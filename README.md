# Session, navigation guard and request wrapper — a Dafny model

This project models the decision and state logic of a small web client:

- **the session store** (`src/stores/auth.ts`): a token and a username kept in
  memory and mirrored into durable browser storage (`localStorage`), with
  `login`, `logout`, `getToken` and the computed `isAuthenticated` flag;
- **the navigation guard** (`src/router/index.ts`): a constant table of three
  routes (`login` at `/`, `query` at `/query` requiring authentication,
  `about` at `/about`) and the `beforeEach` hook that either proceeds or
  redirects to `login` or to `query`;
- **the request wrapper** (`src/utils/api.ts`): `apiRequest` builds the
  headers (a JSON `Content-Type` by default, the caller's headers over it, and
  the bearer credential of section 2.1 of RFC 6750 over those), defaults the
  method to GET, sends a body only when the caller's body is truthy, and
  classifies the response: 401 (section 15.5.2 of RFC 9110) first, with one
  logout and one navigation to `/`; any other status outside the "ok status"
  range 200–299 of the WHATWG Fetch Standard rejects with the payload's message
  or a generic one; an ok status resolves with the payload. `apiGet` and
  `apiPost` delegate with a fixed method.

Files: `wrappers.dfy` (an `Option` type), `auth_store.dfy` (module
`AuthStore`), `router.dfy` (module `Router`), `api.dfy` (module `Api`).

`AuthStore` describes the store twice: the value `SessionState` with the
functions `Hydrate`, `LoggedIn` and `LoggedOut` that say what start-up, login
and logout produce, and the class `Session` whose fields the methods update
in place, each method proved to leave `State()` equal to the corresponding
function of the old state. Histories of calls are the sequences of `Op`
run by `Run`; the lemmas show that after any non-empty history memory and
storage agree, token and username are paired, and only the last call is
visible. The ghost counter `Session.logoutCalls` makes "exactly one logout"
statable.

`Router.Decide` is the guard as a pure function; `Navigate` is where an
attempt lands after at most one redirect. `Router.Navigator` is a log of the
paths given to `router.push`, in call order.

In `Api`, the network exchange is a parameter `fetch: Request -> Response`:
the methods state what request they build (`Prepared`, `HeadersFor`),
which requests `fetch` refuses with a `TypeError` before any exchange
(`Refused`: a GET carrying a body, or a header name or value that the
`Headers` interface rejects), how they settle for the response it returns
(`Classify`) and what they do to the session and the push log (`Settled`).

Two facts about the code worth keeping in mind: `isAuthenticated` is
`!!token`, so a stored empty token counts as logged out; and the caller's
`Content-Type` replaces the default.

An error payload is read as the code reads it: `errorData.message` of the
parsed value (of `{}` when the body does not parse), taken when truthy and
converted to a string by `new Error`. That conversion throws a `TypeError`
for an object with its own `toString` member, or an array holding one; a
`null` payload makes the member access itself throw a `TypeError`.

## Model

| member | source | states |
|---|---|---|
| AuthStore.Hydrate | src/stores/auth.ts:6-7 | start-up reads each field from its own storage key, so memory agrees with storage |
| AuthStore.HydrateRoundTrip | src/stores/auth.ts:6-7 | a state is reproduced by reloading from its storage exactly when memory agrees with storage |
| AuthStore.HydrateMayBeUnpaired | src/stores/auth.ts:6-7 | start-up does not ensure token and username are both set or both clear: a storage holding only a token hydrates unpaired |
| AuthStore.LoggedIn | src/stores/auth.ts:13-18 | after login both fields hold the arguments, both storage keys hold them, memory and storage agree and are paired, every other key is unchanged, and the session is authenticated iff the token is non-empty |
| AuthStore.LoggedOut | src/stores/auth.ts:21-26 | after logout both fields are null, neither key is in storage, the session is unauthenticated, every other key is unchanged |
| AuthStore.LogoutIdempotent | src/stores/auth.ts:21-26 | two logouts leave the same state as one |
| AuthStore.EmptyTokenLoginIsLoggedOut | src/stores/auth.ts:10-18 | `login("", u)` stores the empty token yet leaves the session unauthenticated |
| AuthStore.ApplyAbsorbs | src/stores/auth.ts:13-26 | a login or logout after another call gives the same state as on its own |
| AuthStore.RunIsLastOp | src/stores/auth.ts:13-26 | after any non-empty history of calls the state is what the last call makes of the start state |
| AuthStore.RunEstablishesInvariant | src/stores/auth.ts:13-26 | after any non-empty history memory and storage agree, the fields are paired, other keys are as at start, and the session is authenticated iff the last call was a login with a non-empty token |
| AuthStore.Session.constructor | src/stores/auth.ts:6-7 | the new store's state is the one hydrated from the given storage |
| AuthStore.Session.IsAuthenticated | src/stores/auth.ts:10 | true iff the token is non-null and not the empty string |
| AuthStore.Session.GetToken | src/stores/auth.ts:29-31 | returns exactly the in-memory token, changes nothing, and is truthy iff the session is authenticated |
| AuthStore.Session.Login | src/stores/auth.ts:13-18 | the new state is `LoggedIn` of the old state; the logout count is unchanged |
| AuthStore.Session.Logout | src/stores/auth.ts:21-26 | the new state is `LoggedOut` of the old state; the logout count grows by one |
| Router.Decide | src/router/index.ts:28-42 | redirect to `login` iff the target requires auth and the session is unauthenticated; redirect to `query` iff the target is named `login` and the session is authenticated; proceed in every other case |
| Router.Find | src/router/index.ts:7-24 | a found route is in the table and matches; when none is found no route of the table matches |
| Router.RouteLookups | src/router/index.ts:8-23 | the names `login` and `query` and the paths `/` and `/query` resolve to the login and query routes |
| Router.RouteTableWellFormed | src/router/index.ts:8-23 | route names and paths are pairwise distinct, every route is named, and the query route is the only one requiring auth |
| Router.RedirectsConverge | src/router/index.ts:32-41 | every redirect target exists in the table and the guard proceeds on it with the same auth state, so redirects never chain |
| Router.UnauthenticatedNeverReachesProtected | src/router/index.ts:32-35 | an unauthenticated navigation never lands on a route requiring auth; from the table it never lands on `/query` |
| Router.Navigate | src/router/index.ts:32-41 | when the guard proceeds the attempt lands on its target; after `next({ name })` it lands on the table route of that name |
| Router.AuthenticatedNeverSentToLogin | src/router/index.ts:37-41 | an authenticated navigation to any target is never redirected to, and never lands on, the login route |
| Router.BeforeEach | src/router/index.ts:28-42 | the hook yields one decision, the guard's decision for the session's current flag, and changes nothing |
| Router.Navigator.Push | src/utils/api.ts:42 | pushing a path appends it to the push log |
| Api.IsTruthy | src/utils/api.ts:36 | a value is truthy iff it is not `null`, `false`, `0` or the empty string |
| Api.BuildHeaders | src/utils/api.ts:23-31 | `Content-Type` is the caller's or `application/json`; a truthy token sets `Authorization` to `Bearer ` + token over any caller value; otherwise `Authorization` is the caller's or absent; every other header is the caller's |
| Api.HeadersForUnique | src/utils/api.ts:23-31 | the header description above determines the header map completely |
| Api.PrepareRequest | src/utils/api.ts:20-37 | the URL is the base prefix followed by the endpoint, the method is the caller's or GET, a body is sent iff the caller's body is truthy, and the headers are those above |
| Api.PreparedUnique | src/utils/api.ts:33-37 | the request description determines the request completely |
| Api.NatToString | src/utils/api.ts:49 | a status prints as a non-empty string of decimal digits without a leading zero |
| Api.DecimalRoundTrip | src/utils/api.ts:49 | the printed status reads back as the same number |
| Api.ImplicitGetWithBodyRefused | src/utils/api.ts:33-37 | a caller that leaves the method unset and passes a truthy body builds a GET with a body, which `fetch` refuses |
| Api.WellFormedHeadersAccepted | src/utils/api.ts:23-37 | with acceptable caller headers and a token made of `b64token` characters, every header built is one `fetch` accepts |
| Api.MemberValue | src/utils/api.ts:49 | a member found is the last one of that key; when none is found no member has the key |
| Api.MessageField | src/utils/api.ts:48-49 | `errorData.message` is undefined for an unparsable body (read from `{}`) and for any non-object payload other than `null` (on which the access throws, so `null` is excluded), and for an object is its last `message` member |
| Api.JsString | src/utils/api.ts:49 | the string `new Error` makes of a message: a string is itself; an object is `[object Object]`, or the conversion throws when it has its own `toString`; an array throws iff one of its non-null elements does; only objects and arrays can throw |
| Api.Classify | src/utils/api.ts:40-52 | 401 rejects with the fixed unauthorized message whatever the payload; any other non-ok status rejects with the payload's truthy `message` as a string (a `TypeError` when that conversion throws), or else the generic status message, also when the payload does not parse, and a `null` payload throws a `TypeError`; the call resolves iff the status is ok and the payload parses, and then with that payload, and rejects with a syntax error iff the status is ok and it does not parse |
| Api.ClassifyExamples | src/utils/api.ts:40-52 | a 500 with message `boom` rejects with `boom`; an unparsable, empty-object or empty-message 500 rejects with `Request failed with status 500`; a `null` 500 throws; a 401 ignores the payload; a 200 resolves with its payload |
| Api.ObjectMessageExample | src/utils/api.ts:47-49 | a 500 whose message is an empty object rejects with `[object Object]` |
| Api.OwnToStringMessageExample | src/utils/api.ts:47-49 | a 500 whose message object has its own `toString` rejects with a `TypeError` |
| Api.ArrayMessageExample | src/utils/api.ts:47-49 | a 500 whose message is `["a", null, "b"]` rejects with `a,,b` |
| Api.ApiRequest | src/utils/api.ts:19-53 | builds the prepared request for the token held at the call; a request `fetch` refuses rejects with a `TypeError` and changes nothing; otherwise the call settles as `Classify` says, and on 401 logs out exactly once and pushes `/` exactly once, otherwise touching neither session nor push log |
| Api.ApiGet | src/utils/api.ts:58-60 | delegates with method GET, no body and no caller headers, so `fetch` refuses it only for an unacceptable header |
| Api.ApiPost | src/utils/api.ts:65-67 | delegates with method POST and the given body, which is sent iff it is truthy |
| Api.UnauthorizedLandsOnLogin | src/utils/api.ts:40-44 | the path pushed on 401 is the login route, and the guard proceeds to it for the logged-out session |

## Left out

- The network call `fetch`, and every `await`: the exchange is the parameter `fetch`, a function from request to response; the ordering of several requests in flight at once is not modelled (two 401s each log out and push; `LogoutIdempotent` shows the second logout changes nothing further).
- `JSON.stringify` and `response.json()`: a body is kept as a `Value` and stands for its serialisation; a payload is given as already parsed (a `Value`) or unparsable.
- Api.Classify: the rejections by the JSON parser (`RejectedSyntaxError`) and by the member access on `null` (`RejectedTypeError`) carry no message text; the engine's wording is not modelled.
- Api.JsString: numbers are integers and print in plain decimal; exponent notation and fractions are not represented.
- `localStorage.setItem` treated as total: a write that throws (a full quota, say) would leave `login` with memory updated and storage not; the model assumes every storage write succeeds, and `Synced()` after login rests on that.
- `fetch` treated as total once a request passes `Refused`: a transport failure (network down, CORS, an unparsable URL) rejects the call with no logout and no push; the parameter `fetch` always returns a response, so this path is not modelled.
- Forbidden request-header names (`Cookie`, `Host` and the like) are silently dropped by `fetch` in browsers; the model sends the headers as built.
- Api.IsTruthy: numbers are integers, so the falsy `NaN` and `-0` of floating point are not represented.
- The build-mode switch of the base URL (`src/utils/api.ts:5`): the base is the production prefix `/api`.
- Header names are compared exactly: a caller header spelled `authorization` in lower case is kept beside the bearer header, as in the code's object, and the case-insensitive merging done later by the HTTP layer is not modelled.
- Vue reactivity, the Pinia store registration, `createRouter`/`createWebHistory`, the lazily imported view components and the views themselves: framework plumbing and UI.
- What the router does with a redirect (running the guard again on the new target) is stated as `Router.Navigate` and its lemmas rather than as a router object.
