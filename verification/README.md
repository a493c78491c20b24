# Session logic of the savi-mobile client, in Dafny

This project models the client-side session logic of a personal-finance mobile
app. It has three parts, and a fourth module that joins them:

- **Session store** (`AuthStore`, after `store/auth.ts`). A record holding
  `user`, `token` and `isHydrated`. Its transitions are `setCredentials`,
  `logout` and `setHydrated`, plus the `onRehydrateStorage` callback. Each one is
  a pure function from the old record to the new one.
- **Routing decisions** (`Routing`, after `app/_layout.tsx` and
  `app/index.tsx`). `AuthGate` maps the hydration flag, the token and the route
  segments to no redirect, `/login` or `/home`. `Index` maps the hydration flag
  and the token to nothing, `/home` or `/login`.
- **Request pipeline** (`Http`, after `services/axios.customize.ts`). The
  request interceptor injects `Authorization: Bearer <token>`. The success
  interceptor passes the response through. The error interceptor logs out on
  401, picks a message through a three-level fallback and rejects with a
  normalised value. The store is passed in and returned explicitly. The
  transport is a function parameter.
- **Session flow** (`SessionFlow`). Runs of events that mix store calls with
  request completions. Its lemmas link the parts: a 401 ends the session until
  the next sign-in, and the gate then sends the user to `/login`.

`Js` holds the JavaScript semantics the source depends on: optional values,
truthiness (`!!token`, `a || b`) and `String.prototype.startsWith`.

Three behaviours of the code are worth knowing, because a reader might
expect otherwise:

- The rehydration callback is `state?.setHydrated(true)` (store/auth.ts:33-35).
  When loading the persisted snapshot fails, zustand calls it with
  `undefined`, so `isHydrated` stays `false`. Nothing else in the app sets the
  flag, so the gate then never makes a decision (`AuthStore.OnRehydrate`,
  `SessionFlow.NoDecisionBeforeHydration`).
- `setCredentials` takes an optional token (store/auth.ts:14,26), so the store
  does not keep user and token together (`AuthStore.UserWithoutToken`). Only
  "a token implies a user" is invariant (`AuthStore.TokenHasUserInvariant`).
  This holds provided each merged state handed to the rehydration callback
  satisfies it. The merge overlays the loaded snapshot on the current state.
  A snapshot written after `logout` has no `token` key, because JSON drops
  `undefined`, so the merge alone does not guarantee the invariant.
- The rejection's `message` is whatever `data.message || error.message ||
  "Network error"` yields (services/axios.customize.ts:63-66). That can be a
  non-string, such as an array of validation messages, so it is modelled as a
  `JsValue` and not a `string`.

## Model

| member | source | states |
|---|---|---|
| AuthStore.Initial | store/auth.ts:23-25 | The store starts with no user, no token and `isHydrated` false |
| AuthStore.SetCredentials | store/auth.ts:26 | `setCredentials` sets the user and the token to exactly the given values, an omitted token included, and keeps the hydration flag |
| AuthStore.Logout | store/auth.ts:27 | `logout` leaves neither user nor token and keeps the hydration flag |
| AuthStore.SetHydrated | store/auth.ts:28 | `setHydrated(b)` makes the flag `b` and leaves user and token unchanged |
| AuthStore.OnRehydrate | store/auth.ts:33-35 | A delivered rehydration state becomes hydrated and keeps its loaded user and token; when no state is delivered, the store is unchanged |
| AuthStore.LogoutIdempotent | store/auth.ts:27 | Logging out twice gives the same state as logging out once |
| AuthStore.LogoutAfterSetCredentials | store/auth.ts:26-27 | A logout erases every trace of an earlier `setCredentials` |
| AuthStore.SetCredentialsOverwrites | store/auth.ts:26 | The result of `setCredentials` does not depend on the previous user or token (last write wins) |
| AuthStore.SetHydratedCommutes | store/auth.ts:26-28 | The hydration flag is independent of the session fields: `setHydrated` commutes with `logout` and `setCredentials` |
| AuthStore.UserWithoutToken | store/auth.ts:10-26 | The store does not enforce "both or neither": a login without a token leaves a user with no token |
| AuthStore.HydrationIsLastSet | store/auth.ts:26-35 | After any sequence of store calls, `isHydrated` is the value set by the last `setHydrated` call or delivered rehydration, or its starting value when there is none |
| AuthStore.TokenHasUserInvariant | store/auth.ts:14-27 | Every sequence of store calls keeps "a token implies a user", given that rehydration only hands back states that satisfy it |
| Js.StartsWith | app/_layout.tsx:12 | The character-by-character prefix test holds exactly when the prefix is no longer than the string and equals its leading slice |
| Js.PresentMeansNonEmpty | app/_layout.tsx:16 | `!!token` holds exactly when the token is defined and non-empty |
| Routing.InAuthMeaning | app/_layout.tsx:11-12 | `inAuth` holds exactly when a first segment exists and begins with `(auth)`; with no segment it is false |
| Routing.AuthGate | app/_layout.tsx:8-25 | No redirect before hydration. Once hydrated, there is no redirect exactly when token presence matches being outside `(auth)`. A `/login` redirect implies no token outside `(auth)`, and a `/home` redirect implies a token inside it |
| Routing.GateSeesOnlyPresence | app/_layout.tsx:16 | The gate's decision depends on the token only through its truthiness, so an empty token counts as none |
| Routing.GateSendsToLogin | app/_layout.tsx:16-19 | A hydrated gate redirects to `/login` if and only if the token is absent or empty and the route is outside `(auth)` |
| Routing.GateSendsHome | app/_layout.tsx:21-23 | A hydrated gate redirects to `/home` if and only if the token is non-empty and the route is inside `(auth)` |
| Routing.GateSettles | app/_layout.tsx:14-25 | Following a redirect leads to a route where the gate makes no further redirect, so the gate cannot loop |
| Routing.PathIsScreenSegment | app/_layout.tsx:18-22 | The `/login` and `/home` hrefs are the screen segments of their routes; the parenthesised route group does not appear in the URL |
| Routing.Index | app/index.tsx:4-9 | The start route returns nothing exactly when not hydrated. Once hydrated it goes to `/home` exactly when the token is non-empty and to `/login` exactly when it is absent or empty |
| Routing.IndexAgreesWithGate | app/index.tsx:7-8 | Once hydrated, `Index` always redirects, and the gate accepts the route it redirects to |
| Routing.RootAgreement | app/_layout.tsx:11-19 | At the root route (no segments), the gate either makes no decision or makes the same redirect as `Index` |
| Http.BaseUrl | services/axios.customize.ts:7-10 | The base address is the first truthy of the two configured `API_URL` values, else `http://localhost:3000`, so it is always truthy |
| Http.ParseBearer | services/axios.customize.ts:30 | A parsed bearer token rebuilds the header value it came from |
| Http.BearerRoundTrip | services/axios.customize.ts:30 | Parsing `Bearer <token>` gives back the token |
| Http.OnRequest | services/axios.customize.ts:25-43 | With a non-empty token, the headers (created empty if absent) gain `Authorization: Bearer <token>` and every other header is kept. Without one, the configuration is returned unchanged. Method and URL are never changed |
| Http.RequestCarriesStoreToken | services/axios.customize.ts:27-31 | A request sent while the store holds a non-empty token carries exactly that token |
| Http.NoTokenAfterLogout | services/axios.customize.ts:27-31 | The token is read at send time, so a request sent after `logout` carries no token |
| Http.ErrorMessage | services/axios.customize.ts:63-66 | The message is the server's `data.message` if truthy, else `error.message` if non-empty, else `"Network error"`; it is never falsy |
| Http.OnError | services/axios.customize.ts:55-87 | A 401 clears user and token; any other status, or none, leaves the store unchanged. The rejection carries the status, the chosen message, the response data and the original error |
| Http.Dispatch | services/axios.customize.ts:25-87 | The transport receives exactly the request stage's configuration: same method and URL, with the store's token when there is one. A success reaches the caller unchanged and leaves the store alone. A failure reaches the caller as `{status, message, data, original}` built from the transport's error, with the store logged out exactly when the status is 401 |
| SessionFlow.HydrationOnlyFromStore | store/auth.ts:26-35 | Completed requests never change `isHydrated`: after any run of events it is the value set by the last hydrating store call |
| SessionFlow.UnauthorizedEndsSession | services/axios.customize.ts:56-61 | After a 401, with no sign-in afterwards, the token stays absent whatever else completes. The hydrated gate then sends every route outside `(auth)` to `/login`, `Index` picks `/login`, and the next request carries no token |
| SessionFlow.SignInScenario | store/auth.ts:26 | After the login screen's sign-in with token `abc`, the store holds it, the gate sends the login screen home, `Index` picks `/home`, and requests carry `abc` |
| SessionFlow.TransactionsUnauthorizedScenario | services/axios.customize.ts:55-61 | A request rejected with 401 ends the session, and the gate then sends the transactions screen to `/login` |
| SessionFlow.NoDecisionBeforeHydration | app/_layout.tsx:14 | As long as no store call has set the hydration flag, neither the gate nor `Index` makes a decision, whatever the session holds |

## Left out

- Console logging and the `Date.now()` latency stamps (`_ts`) in all three interceptors: these are side effects with no behaviour of their own.
- `Toast.show` in the error interceptor, and the `Stack`, `QueryClientProvider` and `Toast` composition of the root layout: these are presentation.
- Axios transport settings (default headers, `withCredentials`, the 20-second timeout), and deciding which statuses count as failures. The transport is a parameter that returns either a response or an error.
- The `try { … } catch {}` around the store access in both interceptors: reading or updating the modelled store cannot fail.
- Axios header-name case-insensitivity: headers are an exact-key map.
- AsyncStorage persistence and zustand's merge of the loaded snapshot. Rehydration is modelled as the merged state, or nothing when loading fails.
- Asynchrony: requests complete as events in some order. Any interleaving is a sequence of `SessionFlow.Event`s.
- services/api.ts: its functions only pass a fixed path and body to `api.post`.
- The screens themselves (login, signup, verify, home, add, schedule, transactions), and the voice-capture controller, which is not part of this model.
- Strings are sequences of Unicode code points, while JavaScript's `startsWith` compares UTF-16 code units. The prefixes compared here, `(auth)` and `Bearer `, are ASCII, where the two agree.
