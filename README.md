# GarminConnect client facade, modelled in Dafny

This project models the `GarminConnect` class of an authenticated client for the
Garmin Connect web service. The class has two parts:

- **Session state.** It holds the credentials given at construction, which `login` may
  overwrite in place. Its transport holds the two-part token (`oauth1Token`,
  `oauth2Token`). `exportToken` reads the token pair and `loadToken` replaces it.
- **Request shaping.** Each typed operation checks its arguments locally. It then either
  fails before any request is made, or issues exactly one request to a fixed endpoint
  with fixed options. The operations are `getUserSettings`, `getUserProfile`,
  `getActivities`, `getActivity`, `countActivities`, `downloadOriginalActivityData`,
  `getWorkouts` and `getWorkoutDetail`, plus the pass-throughs `get`, `post` and `put`.

The network is abstract. The transport (`HttpClient`) keeps an append-only log of the
calls made through it. Each call is either a login handshake carrying credentials, or
one `Request` (verb, target, options, body).

Files:

- `wrappers.dfy`: `Option`, `Result` and `Outcome`.
- `url.dfy`: the named endpoints, which stand in for `UrlClass`. It also holds
  `DecimalString`, the text JavaScript produces when a numeric activity id below 2^53 is
  appended to a URL, and the proof that the id can be read back from that text.
- `http_client.dfy`: the transport seen from the client. It has the two token fields and
  the call log. Its login logs one call and installs the token pair its handshake
  obtains; that pair is a parameter, since the handshake is not part of this model.
- `garmin_connect.dfy`: the errors, one request-shaping function per operation, `Shape`
  (the request a query issues, or its error), the pure step `Apply` on a `Session` value,
  and the classes `GCCredentials` and `GarminConnect`. Every method of `GarminConnect` is
  proved to move the object's abstract state (`Abs()`) exactly as `Apply` does.
- `session_laws.dfy`: `Run`, which applies a sequence of operations, and the laws that
  hold over any such sequence.

JavaScript truthiness is modelled explicitly:

- An activity id is a `nat`, and it is falsy exactly when it is `0`.
- A workout id, or a `login` argument, is a `string`, and it is falsy exactly when it is
  `""`. An omitted `login` argument is `""`.
- An optional `getActivities` argument is an `Option`. When it is omitted, it is still
  present in the params as `Undefined`.
- "Today" is a string argument to `countActivities`, already formatted as `yyyy-MM-dd`.
  It replaces the clock.

## Model

| member | source | states |
|---|---|---|
| `Garmin.Construct` | src/garmin/GarminConnect.ts:54-61 | construction fails with the error "Missing credentials" exactly when none are given; otherwise the credentials are stored, no token is held and nothing is sent |
| `Garmin.GarminConnect.Create` | src/garmin/GarminConnect.ts:50-62 | fails iff no credentials object is given; otherwise a fresh client that keeps the caller's own credentials object (aliased), an empty listener map, an undefined user hash, the given domain ("garmin.com" by default), and an abstract state equal to `Construct`'s |
| `Garmin.GarminConnect.Init` | src/garmin/GarminConnect.ts:57-61 | the field initialisation: credentials and domain stored, a fresh transport with no tokens and an empty log, no listeners, no user hash |
| `Garmin.LoginCredentials` | src/garmin/GarminConnect.ts:65-68 | login overwrites both credential fields, or neither; it overwrites them exactly when both arguments are non-empty |
| `Garmin.GarminConnect.Login` | src/garmin/GarminConnect.ts:64-74 | the credentials object is updated as `LoginCredentials` says; exactly one transport login is logged, carrying the credentials as they are after the update; the transport's login installs the token pair its handshake obtains (a parameter); the client itself is returned |
| `SessionLaws.LoginSendsStoredCredentials` | src/garmin/GarminConnect.ts:65-72 | the logged login carries the new arguments when both are given, and the previously stored credentials otherwise |
| `Garmin.TokenExport` | src/garmin/GarminConnect.ts:76-84 | exportToken fails with the error "exportToken: Token not found" iff either half is absent; otherwise it returns both halves as stored |
| `Garmin.GarminConnect.ExportToken` | src/garmin/GarminConnect.ts:76-84 | changes nothing; fails iff either token field is empty; otherwise returns exactly the pair held by the transport |
| `Garmin.GarminConnect.LoadToken` | src/garmin/GarminConnect.ts:86-89 | sets both token fields and leaves the log and credentials unchanged |
| `SessionLaws.LoadThenExport` | src/garmin/GarminConnect.ts:76-89 | after loadToken(a, b), and any calls except login or another load, exportToken returns exactly {oauth1: a, oauth2: b} |
| `SessionLaws.ExportLoadTransfers` | src/garmin/GarminConnect.ts:76-89 | loading a pair exported from one client into another gives it the same tokens and the same export, and leaves its credentials and log unchanged |
| `SessionLaws.LoginThenExport` | src/garmin/GarminConnect.ts:69-83 | after a login, and any calls except another login or a load, exportToken returns exactly the pair that login's handshake installed |
| `SessionLaws.ExportBeforeLoadFails` | src/garmin/GarminConnect.ts:76-79 | on a freshly constructed client, exportToken fails with "exportToken: Token not found" until a loadToken or a login installs a pair |
| `SessionLaws.RunTokens` | src/garmin/GarminConnect.ts:69-89 | over any run, the tokens held are those installed by the last loadToken or login, or the initial ones |
| `Garmin.GarminConnect.GetUserSettings` | src/garmin/GarminConnect.ts:91-93 | logs exactly one GET to the user-settings endpoint with no options |
| `Garmin.GarminConnect.GetUserProfile` | src/garmin/GarminConnect.ts:95-97 | logs exactly one GET to the user-profile endpoint with no options |
| `Garmin.ActivitiesRequest` | src/garmin/GarminConnect.ts:99-108 | one GET to the activities endpoint; its params have exactly the keys start, limit, activityType and subActivityType, and each argument can be read back unchanged from its own key (undefined when omitted) |
| `Garmin.GarminConnect.GetActivities` | src/garmin/GarminConnect.ts:99-108 | never fails; logs exactly the request `ActivitiesRequest` describes |
| `Url.DecimalString` | src/garmin/GarminConnect.ts:115 | the text of an appended numeric id below 2^53: non-empty, all digits, no leading zero, and "0" only for 0 |
| `Url.DecimalRoundTrip` | src/garmin/GarminConnect.ts:114-116 | reading the appended digits back gives the activity id |
| `Url.DecimalStringInjective` | src/garmin/GarminConnect.ts:114-116 | distinct activity ids give distinct URL suffixes |
| `Garmin.ActivityRequest` | src/garmin/GarminConnect.ts:110-117 | fails with the error "Missing activityId" iff the id is falsy; otherwise one GET with no options to the activity endpoint, with the id appended so that it reads back |
| `Garmin.GarminConnect.GetActivity` | src/garmin/GarminConnect.ts:110-117 | a falsy id fails and logs nothing; otherwise exactly the one request `ActivityRequest` describes is logged |
| `Garmin.CountActivitiesRequest` | src/garmin/GarminConnect.ts:119-128 | one GET to the activity-statistics endpoint with exactly the params aggregation=lifetime, startDate=1970-01-01, endDate=today and metric=duration |
| `Garmin.GarminConnect.CountActivities` | src/garmin/GarminConnect.ts:119-128 | never fails; logs exactly the request `CountActivitiesRequest` describes |
| `Garmin.DownloadRequest` | src/garmin/GarminConnect.ts:130-160 | a falsy id fails first ("Missing activityId"), whatever the type; a type outside {tcx, gpx, kml, zip} fails next ("downloadOriginalActivityData - Invalid type: " followed by the type); otherwise one GET with no params to the endpoint that serves that type, with the id appended; an arraybuffer response is requested iff the type is zip |
| `Garmin.GarminConnect.DownloadOriginalActivityData` | src/garmin/GarminConnect.ts:130-165 | the type defaults to zip; the method fails exactly when the id is falsy or the type is unknown, and then logs nothing; otherwise it logs exactly the request `DownloadRequest` describes and returns nothing |
| `Garmin.WorkoutsRequest` | src/garmin/GarminConnect.ts:167-174 | one GET to the workouts endpoint with exactly the params start and limit, each read back unchanged |
| `Garmin.WorkoutDetailRequest` | src/garmin/GarminConnect.ts:175-182 | fails with the error "Missing workoutId" iff the id is empty; otherwise one GET with no options to the workout endpoint for that id |
| `Garmin.GarminConnect.GetWorkoutDetail` | src/garmin/GarminConnect.ts:175-182 | an empty id fails and logs nothing; otherwise exactly one GET to the workout endpoint for that id is logged |
| `Garmin.GarminConnect.GetWorkouts` | src/garmin/GarminConnect.ts:167-174 | never fails; logs exactly the request `WorkoutsRequest` describes |
| `Garmin.GarminConnect.Get` | src/garmin/GarminConnect.ts:184-187 | logs one GET to the caller's URL, with the caller's options forwarded unchanged |
| `Garmin.GarminConnect.Post` | src/garmin/GarminConnect.ts:189-192 | logs one POST to the caller's URL, with the caller's body and empty options |
| `Garmin.GarminConnect.Put` | src/garmin/GarminConnect.ts:194-197 | logs one PUT to the caller's URL, with the caller's body and empty options |
| `Garmin.Shape` | src/garmin/GarminConnect.ts:91-197 | a query yields a request iff its local checks pass; every catalog operation issues a GET with no body to a named endpoint; across all catalog operations, only a zip download asks for an arraybuffer; get, post and put forward their arguments verbatim |
| `Garmin.Apply` | src/garmin/GarminConnect.ts:64-197 | every failure leaves the state unchanged; only login writes the credentials; only login (through the pair its handshake installs) and loadToken write the tokens, always both halves; exportToken and loadToken send nothing; a query adds its one request, or nothing when it fails |
| `SessionLaws.RunExtendsLog` | src/garmin/GarminConnect.ts:64-197 | over any sequence of calls, the request log only grows |
| `SessionLaws.RunCallCount` | src/garmin/GarminConnect.ts:64-197 | the number of requests a sequence of calls makes depends on the arguments alone: one per login, one per query that passes its checks |
| `SessionLaws.RejectedQueriesChangeNothing` | src/garmin/GarminConnect.ts:113-181 | any sequence of queries that all fail their local checks sends nothing and changes nothing |
| `SessionLaws.CredentialsStaySet` | src/garmin/GarminConnect.ts:65-68 | once both credential fields are non-empty, no sequence of calls empties either |
| `SessionLaws.RunCredentials` | src/garmin/GarminConnect.ts:64-68 | after any sequence of calls, the credentials are those of the last login given both arguments, or the initial ones |

## Left out

- The transport (`HttpClient`) is not part of this model. This leaves out the real
  network, the steps of the OAuth1-to-OAuth2 handshake inside its `login`, the
  attachment of tokens to requests, and any refresh or retry. Its `login` is one log
  entry that installs a token pair given as a parameter.
- A rejected transport login is not modelled: every login installs a pair. The
  credentials are overwritten before the transport is called, so they would stay
  overwritten even if it rejected.
- The URL strings built by `UrlClass` are not part of this model. Endpoints are
  enumerated names, and the domain is only stored.
- Responses are opaque. Every request-issuing method returns only success or its local
  error, and the decoded payload and its `as T` cast are left out.
- The clock and luxon's `yyyy-MM-dd` formatting are foreign code. Today's date is an
  argument.
- `async`/`await`: the operations run one after another. Concurrent calls in flight are
  not modelled.
- Event listeners: the map is only initialised, to empty, and nothing in the class
  subscribes or emits.
- The module-level `config` default is left out. A missing constructor argument is
  `None`.
- Writing the downloaded file is disabled in the source, and `dir` is unused. The model
  keeps the argument and ignores it.
- Ids that are `undefined`, `NaN`, negative or fractional are not modelled. An activity
  id is a `nat`, and JavaScript's `undefined` and `NaN` are falsy just like `0`.
- Activity ids of 2^53 or more are not modelled. A JavaScript number cannot hold them
  exactly, and from 10^21 on it appends them in exponent form (`1e+21`). Below 2^53
  JavaScript appends the plain decimal digits, which is what `Url.DecimalString` gives.
- Credentials fields and login arguments are strings. A login argument given as
  `undefined` is modelled as `""`, which is also falsy.
- The options argument of `get` is the transport's options record, modelled as params
  plus response type. The request body of `post` and `put` is an opaque string.
- The class has no "not authenticated" fast-fail before a request, no retry on token
  expiry, no `sessionChange` emission and no credentials check inside `login`. The model
  has none either.
