# Session-token authority and CRM gate, modelled in Dafny

This project models the two services of a small information system:

- **The authentication service.** It holds a user table (`username ↦ (password, role)`) and an in-process session map (`token ↦ {name, role}`). `register` inserts a user unless the name is taken. `login` compares the credentials by plaintext equality; on a match it mints a fresh token, stores the identity under it and redirects to the CRM dashboard with `?token=<T>`. `/api/validate` looks up the query argument `token` and answers `{"status":"ok", name, role}` with 200, or `{"status":"error"}` with 403.
- **The CRM service.** Its gate `validate_session` reads the `auth_token` cookie. With no cookie it denies without a network call. Otherwise it asks the authority, forwarding the token as the cookie `session_id`. It admits only a 200 reply whose body has `status == "ok"`, and a network failure is a denial. Four order handlers (create, list, delete, update) and the dashboard work on an order store in which every read and write is filtered by the session's `name`.

The state is immutable maps. Every request is a pure transition that returns the new state and the response.

- `Wrappers` (`wrappers.dfy`): `Option`.
- `Wire` (`wire.dfy`): JSON scalars, Python truthiness, requests and replies.
- `AuthService` (`auth_service.dfy`): the authority as a state machine. It defines runs of requests and the lemmas about them: monotone sessions, a consistency invariant, the login/validate round trip and rejection of forged tokens.
- `CrmService` (`crm_service.dfy`): the gate and the order handlers, with owner isolation.
- `Handoff` (`handoff.dfy`): the two services composed. It proves that the hand-off fails as written. It also gives the corrected hand-off and proves that one works end to end.

Nondeterminism is passed in as parameters. A uuid4 token or a Mongo ObjectId is a `minted`/`newId` argument that must not already be a key. The network is a function `Request -> Reply`, where `Reply` is `NetErr` or a decoded response.

Sessions have no expiry and no logout, so they only ever grow. Validation reads the token only from the query string, never from a cookie, and login sets no cookie.

A handler admits a request only when `validate_session` returned a non-empty session dict, because Python's `if not session` treats both `None` and `{}` as "no session". The handlers below say "no session" for both.

## Model

| member | source | states |
|---|---|---|
| AuthService.StartIsConsistent | src/auth_service/app.py:24-34 | at start the session map is empty, the table is empty unless rows already exist on disk, and the state satisfies the session/user consistency invariant |
| AuthService.Register | src/auth_service/app.py:54-67 | a new username adds exactly that one user, with the submitted password and role "user", and redirects to /login; a taken name leaves the table unchanged and re-renders with "Username already exists."; existing users and all sessions are never changed |
| AuthService.Login | src/auth_service/app.py:36-52 | matching credentials add exactly one new token, mapped to the username and its stored role, and redirect to the dashboard with `?token=`; existing sessions and the user table are unchanged; any mismatch leaves the state unchanged and shows "Invalid credentials" |
| AuthService.LoginFailureUniform | src/auth_service/app.py:42-52 | an unknown username and a wrong password for a known one give the identical state and response |
| AuthService.Validate | src/auth_service/app.py:69-74 | status 200 exactly when the query argument `token` is present and is a live session, with body status/name/role of that session; every other case is 403 with `{"status":"error"}` |
| AuthService.Apply | src/auth_service/app.py:36-74 | any single request keeps every user and every session unchanged, adds a token only on a successful login, preserves the consistency invariant, and validation leaves the state untouched |
| AuthService.RunExtends | src/auth_service/app.py:46-48 | over any sequence of requests, the session map and the user table only grow: no entry is ever removed or rewritten |
| AuthService.RunPreservesConsistent | src/auth_service/app.py:42-48 | in every reachable state each session names a registered user and carries that user's current role |
| AuthService.RunSessions | src/auth_service/app.py:46-48 | the live tokens after a run are exactly the initial ones plus the tokens minted by its successful logins |
| AuthService.ApplySessionCount | src/auth_service/app.py:46-48 | one request adds one session if it is a successful login and none otherwise |
| AuthService.RunSessionCount | src/auth_service/app.py:46-48 | N successful logins yield N new distinct live tokens |
| AuthService.ForgedTokenRejected | src/auth_service/app.py:71-74 | a token that was never live at the start or minted in the run is refused with 403 after any run |
| AuthService.LoginThenValidate | src/auth_service/app.py:47-73 | after a login mints T, validating `?token=T` returns ok with the same name and role, after any later requests |
| CrmService.OutboundCall | src/crm_service/app.py:51-61 | no request is made exactly when the `auth_token` cookie is missing or empty; otherwise the request carries no query arguments and only the cookie `session_id` holding the token |
| CrmService.Decide | src/crm_service/app.py:62-67 | a session is returned exactly for a 200 reply whose body has status "ok", and it is that body; a network failure or any other reply is a denial |
| CrmService.ValidateSession | src/crm_service/app.py:51-67 | without a usable cookie the result is a denial, whatever the network would answer; with one, the result is exactly the reply decision applied to the network's answer to the outbound request; an admitted session is always the non-empty body of a 200 "ok" reply (fail closed) |
| CrmService.CreateOrder | src/crm_service/app.py:98-119 | no session gives 403 and a falsy item or price (absent, null, false, 0, "") gives 400, both with the store unchanged; a session without a "name" gives 500 (the KeyError) with the store unchanged; otherwise exactly one order is added under the new id, owned by the session name, and every other order is unchanged |
| CrmService.GetOrders | src/crm_service/app.py:123-135 | no session gives 403 and a session without a "name" gives 500; otherwise the list holds exactly the orders whose owner equals the session name, with their stored contents; the store is never changed |
| CrmService.DeleteOrder | src/crm_service/app.py:139-155 | an order is deleted exactly when the id exists and is owned by the session name, and only that order disappears; otherwise the store is unchanged and the response is 403 without a session, 500 for a session without a "name", and 404 for a missing or foreign id |
| CrmService.UpdateOrder | src/crm_service/app.py:159-188 | no session gives 403, no truthy field gives 400, a session without a "name" gives 500, a missing or foreign id gives 404, all with the store unchanged; an owned order gets exactly its truthy fields overwritten and keeps its owner, and every other order is unchanged |
| CrmService.Dashboard | src/crm_service/app.py:73-85 | no session redirects to the authority's login page; with a session the page lists exactly the orders owned by the session name, with their stored contents; a session without a name lists the orders whose owner is null |
| CrmService.DashboardAgreesWithList | src/crm_service/app.py:79-81 | for a session with a name, the dashboard lists exactly the orders that GET /api/orders returns |
| CrmService.Handle | src/crm_service/app.py:98-188 | owner isolation: no order request ever adds, changes or removes another user's order, never changes an order's owner, and without a session changes nothing and answers 403; the store changes only with a 200 or 201 response |
| CrmService.DeleteUndoesCreate | src/crm_service/app.py:111-155 | deleting a just-created order with the same session restores the previous store exactly |
| CrmService.CreateThenList | src/crm_service/app.py:111-135 | a created order appears in its creator's list with the item and price sent |
| Handoff.CrmValidationAlwaysFails | src/crm_service/app.py:56-67 | as written, composed with the authority, the CRM gate denies every request whatever the authority's state and the browser's cookies |
| Handoff.LiveTokenDenied | src/crm_service/app.py:52-67 | as written, even a cookie holding a live token is denied |
| Handoff.LoginNeverReachesCrm | src/auth_service/app.py:46-49 | as written, a successful login sets no `auth_token` cookie, so a browser without one still has none and the dashboard redirects to login without contacting the authority |
| Handoff.OutboundCallFixed | src/crm_service/app.py:56-61 | corrected request: it is made under the same conditions as the original, and it carries the token as the query argument `token` |
| Handoff.ValidateSessionFixed | src/crm_service/app.py:51-67 | corrected gate: denies without a cookie, and with one the result is exactly the unchanged reply decision applied to the network's answer to the corrected request |
| Handoff.FixedValidationAccepts | src/crm_service/app.py:51-67 | with the corrected request, the CRM admits exactly the browsers whose `auth_token` is a live session, and receives that session's name and role |
| Handoff.LoginFixed | src/auth_service/app.py:46-49 | corrected login: the same state change as the original login, plus an `auth_token` cookie holding the minted token on success |
| Handoff.FixedHandoffRoundTrip | src/auth_service/app.py:46-49 | with both corrections, a successful login is followed by admission at the CRM with the user's name and stored role, after any later requests to the authority |

## Findings

| source | as written | input that shows it | evidently intended | confidence | as-written member | corrected member |
|---|---|---|---|---|---|---|
| src/crm_service/app.py:57-60 | the CRM forwards the token only as the cookie `session_id`, while the authority reads it only from the query argument `token` (src/auth_service/app.py:71) | a CRM request whose `auth_token` cookie holds a live token T: the authority answers 403, so the CRM denies | forward the token as `params={"token": token}` (the load generator validates this way) | high; not executed | Handoff.CrmValidationAlwaysFails | Handoff.FixedValidationAccepts |
| src/auth_service/app.py:49 | a successful login passes the token only in the redirect's query string and sets no cookie, while the CRM reads only the `auth_token` cookie (src/crm_service/app.py:52) | register alice/secret, then log in: the dashboard redirects straight back to /login | set the `auth_token` cookie on the login redirect (the load generator expects one) | high; not executed | Handoff.LoginNeverReachesCrm | Handoff.FixedHandoffRoundTrip |

## Left out

- Session expiry, the active-session monitor, logout and "storage unavailable" errors are not modelled, because none of them exists in the code.
- Flask routing, template rendering, flash-message delivery, the `/` redirect, Prometheus counters and `/metrics` are left out. They are I/O and observability. A page is modelled as its template name plus the flashed message.
- SQLite and MongoDB are replaced by maps. The `users.id` autoincrement column is left out because nothing reads it.
- The generation of uuid4 tokens and ObjectIds is left out. Each becomes a parameter that must not already be a key.
- Failures raised by libraries are left out. These are an `ObjectId(order_id)` parse error, `resp.json()` on a non-JSON body, a request body that is not a JSON object, and missing form fields. Order ids are opaque and bodies arrive already decoded.
- JSON arrays and objects as `item` or `price` values are left out. Numbers are exact reals, not IEEE floats.
- The order in which Mongo returns documents is left out. Order lists are modelled as maps keyed by id.
- The 1-second timeout and concurrent request dispatch are left out. A timeout is one of the `NetErr` replies.
- The load generator (`src/db_stresser/app.py`) is left out. It is a threaded, randomised test harness that talks HTTP.
