# servitor gateway core, modelled in Dafny

servitor is an HTTP gateway that lets clients start, stop, restart, reload
and inspect systemd units over a REST interface. Each request becomes a
D-Bus call to the systemd unit manager. This project models the decision
logic of that gateway as pure Dafny functions and proves properties about it:

- the **allowlist gate** (`ensure_service_allowed`);
- the **dispatch template** shared by the four job verbs, and the
  **two-stage status lookup** (resolve the unit path, then read
  `ActiveState`, `SubState` and a best-effort `StateChangeTimestamp`);
- the **error translator**: three error kinds, a classifier over
  (D-Bus error name, optional message), and fixed status codes and texts;
- the **bearer-token middleware**, and the lifting of the configured hash
  text into a parsed hash;
- the **configuration** derived from `SERV_*` environment variables,
  including the comma-split-and-trim allowlist parser.

Modules:

| file | module | models |
|---|---|---|
| wrappers.dfy | `Wrappers` | `Option`, `Result` |
| text.dfy | `Text` | `starts_with`, `ends_with`, `split(',')`, `trim` with the Unicode White_Space set |
| errors.dfy | `Errors` | `src/errors.rs` |
| config.dfy | `Config` | `src/config.rs` |
| auth.dfy | `Auth` | `src/middleware/auth.rs` |
| services.dfy | `Services` | the handlers of `src/controllers/services.rs` |
| router.dfy | `Router` | the conditional auth layer of `src/controllers/services.rs`, HTTP rendering, the config-to-context wiring |

Three outside parties are modelled as oracle parameters:

- The systemd manager and unit objects are `Services.Manager`, a record of
  total functions from call arguments to `Result<_, DBusError>`. Every
  handler returns `Handled(result, calls)`: `calls` lists the remote calls
  it made, in order. So the model states both what reaches the manager and
  what comes back.
- The token verifier, running on the blocking pool, is a function
  `string -> Join`. It either finishes with a verdict or fails to join.
- Hash parsing is a function `string -> Result<H, string>`. The calendar
  conversion `DateTime::from_timestamp_micros` is an in-range predicate
  `int -> bool`.

The shared context is modelled abstractly as
`Gateway(allowlist: Option<seq<string>>, authEnabled: bool)`. The source
files do not agree on its shape:

- `services.rs` uses `state.has_auth()` and `state.allowed_services`, which
  `src/state.rs` does not define.
- `main.rs` builds `AppState` with a `config` field that `state.rs` does not
  declare.
- `verify_token` returns `bool` in `state.rs`, but `auth.rs` matches on
  `Ok`/`Err`.

`Router.GatewayOf` assumes that `has_auth()` means "a token is configured"
and that `allowed_services` is the configured allowlist.

Two behaviours of the code differ from what a reader would expect; the
model follows the code:

- A `NoSuchUnit` reply would be expected to mean "unit not found" (400),
  but one without a message becomes `Unexpected` (500). The match arm
  requires `Some(msg)` before it looks at the name.
- Any configured allowlist restricts access, including the one-entry list
  `[""]` that an empty `SERV_ALLOWLIST` produces. Because empty names are
  refused first, that list admits nothing (`Router.GateFromEnvironment`).

## Model

| member | source | states |
|---|---|---|
| Text.SplitCount | src/config.rs:22 | splitting on ',' gives exactly one more piece than there are commas, so "" gives one piece |
| Text.SplitPiecesFree | src/config.rs:22 | no piece produced by the split contains the separator |
| Text.JoinSplit | src/config.rs:22 | re-joining the pieces with the separator gives back the original text, so nothing is lost or reordered |
| Text.SplitJoin | src/config.rs:22 | splitting a join of separator-free pieces gives back those pieces, so split and join are inverse |
| Text.TrimStartIndex | src/config.rs:22 | trimming starts after the maximal run of leading whitespace |
| Text.TrimEndIndex | src/config.rs:22 | trimming stops before the maximal run of trailing whitespace |
| Text.Trim | src/config.rs:22 | a trimmed entry neither starts nor ends with whitespace and uses only characters of the input |
| Text.TrimIsInfix | src/config.rs:22 | the trimmed text is a contiguous part of the input with only whitespace around it |
| Text.TrimIdempotent | src/config.rs:22 | trimming twice is trimming once |
| Errors.FromDBus | src/errors.rs:21-30 | a D-Bus failure never becomes `Unauthorized` |
| Errors.FromDBusClassification | src/errors.rs:21-30 | `InvalidUnit` exactly for a method error that has a message and is either `NoSuchUnit` or an `InvalidArgs` whose message has the invalid-name shape; `Unexpected` for everything else |
| Errors.InvalidArgsDependsOnMessage | src/errors.rs:64-70 | an `InvalidArgs` error is `InvalidUnit` if and only if its message starts with "Unit name" and ends with "is not valid." |
| Errors.MessagelessIsUnexpected | src/errors.rs:24-27 | a method error without a message is `Unexpected` whatever its name, `NoSuchUnit` included |
| Errors.KnownSignatures | src/errors.rs:64-70 | known systemd messages classify as expected; a message missing the final period, another error name, or a transport error is `Unexpected` |
| Errors.HeaderRejectionIs401 | src/errors.rs:32-36 | every header rejection, whatever its reason, is rendered as 401 with the fixed unauthorized text |
| Errors.Render | src/errors.rs:38-62 | `InvalidUnit` gives 400, `Unauthorized` 401 and `Unexpected` 500, each with its fixed text |
| Errors.RenderInjective | src/errors.rs:9-19 | distinct kinds give distinct statuses and distinct texts |
| Errors.DBusReplyIsFixed | src/errors.rs:38-62 | a D-Bus failure reaches the client as either 400 "Invalid unit name" or 500 with the fixed unexpected-error text, never with remote text |
| Config.Var | src/config.rs:12-22 | reading a variable succeeds exactly when it is set to Unicode text; it is `NotPresent` exactly when unset |
| Config.ParseBool | src/config.rs:13 | only "true" and "false" parse, to true and false |
| Config.AuthEnabled | src/config.rs:13 | authentication is off if and only if `SERV_AUTH_ENABLED` reads as exactly "false" |
| Config.ParseAllowlist | src/config.rs:20-22 | the allowlist has (commas + 1) entries, each the trimmed piece at its position, none holding a comma or surrounding whitespace |
| Config.FromEnvs | src/config.rs:11-29 | fails exactly when auth is on and the token variable is unreadable; the bind address is the variable's text, or "0.0.0.0" when it is unset or not Unicode; the token is present exactly with auth on; the allowlist is absent exactly when its variable is unreadable |
| Config.BlankAllowlist | src/config.rs:22 | an empty or whitespace-only `SERV_ALLOWLIST` yields the allowlist `[""]` |
| Auth.ReadPasswordHash | src/middleware/auth.rs:15-25 | `Ok(None)` if and only if no token is configured; a configured token gives `Ok(Some(h))` when it parses and the prefixed parse error otherwise |
| Auth.AuthMiddleware | src/middleware/auth.rs:28-47 | missing header gives 401, join failure gives 500, a false verdict gives 401; the handler's response is returned unchanged exactly when the verdict is true |
| Auth.RejectedHeaderRunsNothing | src/middleware/auth.rs:28-36 | with a rejected header the outcome is `Unauthorized` whatever the verifier and the handler would do |
| Auth.FailedVerificationSkipsHandler | src/middleware/auth.rs:37-46 | unless verification succeeds, the outcome is an error and does not depend on the handler |
| Auth.OnlyTokenVerdictMatters | src/middleware/auth.rs:37-46 | only the verifier's verdict on the presented token decides the outcome |
| Services.EnsureServiceAllowed | src/controllers/services.rs:155-172 | an empty name is refused even if the allowlist contains ""; with no allowlist every other name passes; with one, a name passes if and only if it is listed; every refusal is `InvalidUnit` |
| Services.HandleVerb | src/controllers/services.rs:38-108 | a refused name makes no remote call; an allowed one makes exactly one call, the verb with mode "replace"; success returns the name unchanged and the verb's status word, and failure is the converted remote error |
| Services.AsI64 | src/controllers/services.rs:141 | the u64-to-i64 cast keeps values below 2^63 and wraps larger ones modulo 2^64 into the negative range |
| Services.Since | src/controllers/services.rs:137-141 | `since` is present if and only if the timestamp read succeeded and the signed value converts, and then it carries that value |
| Services.HandleStatus | src/controllers/services.rs:110-153 | a refused name makes no call; otherwise the calls are a prefix of GetUnit, bind, ActiveState, SubState, timestamp on the resolved path; a failure stops at the first call the manager answers with an error and returns that error converted; success means every required stage succeeded and returns the name, both states and the best-effort `since` |
| Services.StatusFailsIffRequiredCallFails | src/controllers/services.rs:117-135 | the lookup fails exactly when the manager answers one of its required calls (all but the timestamp read) with an error, and no call is issued twice |
| Services.TimestampIsBestEffort | src/controllers/services.rs:137-152 | whatever the timestamp read returns, the lookup succeeds or fails alike, with the same calls and the same state and sub-state |
| Services.CallsConcernRequestedUnit | src/controllers/services.rs:38-141 | every remote call names the requested unit or the path its lookup returned, and every job uses mode "replace" |
| Services.StatusWordsDistinct | src/controllers/services.rs:50-107 | the four status words are distinct, one per verb |
| Router.Dispatch | src/controllers/services.rs:38-153 | a refused name gives 400 "Invalid unit name" with no remote call; a job route makes one call and answers 200 with the name and status word when the manager accepts, or the rendered converted error otherwise; a status route answers 200 with the lookup's record or its rendered error; a handler never answers 401 |
| Router.Serve | src/controllers/services.rs:17-36 | without auth the handlers run directly; with auth a missing header gives 401 and no call, and a remote call happens only after a true verdict |
| Router.NoAuthNeedsNoHeader | src/controllers/services.rs:25-33 | without auth a request with a missing or malformed header runs its handler and is never answered 401 |
| Router.NoAuthIgnoresHeader | src/controllers/services.rs:25-33 | without auth the response does not depend on the header or the verifier |
| Router.AuthGuardsHandlers | src/controllers/services.rs:25-33 | with auth, an authenticated request reaches the handlers unchanged; any other request makes no remote call and gets 401, or 500 exactly when the verification task fails to join |
| Router.RefusedNameNeverReachesManager | src/controllers/services.rs:155-172 | a refused name never reaches the manager, and an authenticated caller receives 400 "Invalid unit name" |
| Router.StatusCodesClosed | src/errors.rs:38-62 | the service routes answer only 200, 400, 401 or 500, and 200 exactly with a non-error body |
| Router.StartAllowedUnit | src/controllers/services.rs:38-54 | with allowlist {"nginx"} and a correct token, starting nginx answers 200 `{nginx, starting}` after one `StartUnit(nginx, replace)` call |
| Router.StartUnlistedUnit | src/controllers/services.rs:155-172 | with allowlist {"nginx"}, starting sshd answers 400 "Invalid unit name" and calls nothing |
| Router.StatusWithoutHeader | src/middleware/auth.rs:28-36 | with auth on and no header, a status request answers 401 and calls nothing |
| Router.GateFromEnvironment | src/config.rs:20-22 | from the environment: with `SERV_ALLOWLIST` set, the gate admits exactly the non-empty trimmed entries; a name with a comma or surrounding whitespace is never admitted, and a blank variable admits nothing |

## Left out

- The lifecycle (startup and shutdown). `main.rs` connects to the session
  bus, binds the listener and awaits `axum::serve`. This is I/O, and no
  signal handling or drain phase is visible, so there is no state machine
  to model.
- The health route and the route nesting in `controllers.rs`. These are a
  constant response and framework wiring.
- `AppState::verify_token` in `state.rs` is a stub that always accepts. The
  model uses an unconstrained verifier oracle instead.
- PHC hash parsing and verification (the `password_hash` crate). These are
  foreign code and appear as oracle parameters.
- `spawn_blocking`, async/await and the middleware plumbing. The blocking
  task is reduced to its join result.
- The D-Bus proxies of the `systemd` module, which is not part of this
  model. They are the `Manager` oracle.
- Extraction of the `Authorization: Bearer` header by `axum_extra`. The
  middleware receives the extracted token or the rejection.
- `DateTime::from_timestamp_micros`: its calendar range check is the
  `inRange` oracle. The `as i64` cast before it is modelled exactly.
- JSON encoding. The response records are plain datatypes, and omitting a
  `None` `since` is not modelled.
- Logging (`info!`, `error!`).
