/** The GarminConnect client facade: credentials, the two-part token it exports and
    loads, and the typed operations, each of which validates its arguments locally and
    then either fails before any request or issues exactly one request. */
module Garmin {
  import opened Wrappers
  import opened Url
  import opened Http

  datatype Error =
    | MissingCredentials
    | TokenNotFound
    | MissingActivityId
    | MissingWorkoutId
    | InvalidType(fileType: string)

  /** The text of the error each failure throws. */
  function Message(e: Error): string {
    match e
    case MissingCredentials => "Missing credentials"
    case TokenNotFound => "exportToken: Token not found"
    case MissingActivityId => "Missing activityId"
    case MissingWorkoutId => "Missing workoutId"
    case InvalidType(t) => "downloadOriginalActivityData - Invalid type: " + t
  }

  datatype Credentials = Credentials(username: string, password: string)

  datatype TokenPair = TokenPair(oauth1: OAuth1Token, oauth2: OAuth2Token)

  /** The export formats the download accepts, and the one it uses when none is given. */
  const ExportFileTypes: set<string> := {"tcx", "gpx", "kml", "zip"}
  const DefaultExportFileType: string := "zip"

  /* ---------------------------------------------------------------------------------
     Request shaping, one function per typed operation.
     --------------------------------------------------------------------------------- */

  /** The numeric query parameter stored under `key`, or None when it is undefined or
      absent: how the provider reads back a passed-through argument. */
  function ParamNum(params: map<string, ParamValue>, key: string): Option<int> {
    if key in params && params[key].Num? then Some(params[key].n) else None
  }

  function ParamText(params: map<string, ParamValue>, key: string): Option<string> {
    if key in params && params[key].Text? then Some(params[key].s) else None
  }

  function NumArg(x: Option<int>): ParamValue {
    if x.Some? then Num(x.value) else Undefined
  }

  function TextArg(x: Option<string>): ParamValue {
    if x.Some? then Text(x.value) else Undefined
  }

  function GetNamed(e: Endpoint): Request {
    Request(Get, Named(e), NoOptions, None)
  }

  /** getActivities: the four optional arguments go through as query parameters, each
      under its own name, with no range check. */
  function ActivitiesRequest(start: Option<int>, limit: Option<int>,
                             activityType: Option<string>, subActivityType: Option<string>): (r: Request)
    ensures r.verb == Get && r.target == Named(Activities) && r.body == None
    ensures r.options.responseType == Unspecified
    ensures r.options.params.Keys == {"start", "limit", "activityType", "subActivityType"}
    ensures ParamNum(r.options.params, "start") == start
    ensures ParamNum(r.options.params, "limit") == limit
    ensures ParamText(r.options.params, "activityType") == activityType
    ensures ParamText(r.options.params, "subActivityType") == subActivityType
  {
    var params := map["start" := NumArg(start), "limit" := NumArg(limit),
                      "activityType" := TextArg(activityType),
                      "subActivityType" := TextArg(subActivityType)];
    Request(Get, Named(Activities), Options(params, Unspecified), None)
  }

  /** getActivity: a falsy id fails; otherwise one GET to the activity endpoint with
      the id appended, from which the id can be read back. */
  function ActivityRequest(activityId: nat): (r: Result<Request, Error>)
    ensures r.Failure? <==> activityId == 0
    ensures r.Failure? ==> r.error == MissingActivityId && Message(r.error) == "Missing activityId"
    ensures r.Success? ==> r.value.verb == Get && r.value.options == NoOptions && r.value.body == None
    ensures r.Success? ==> r.value.target.WithId? && r.value.target.endpoint == Activity
    ensures r.Success? ==> AllDigits(r.value.target.id) && DecimalValue(r.value.target.id) == activityId
  {
    if activityId == 0 then Failure(MissingActivityId)
    else
      DecimalRoundTrip(activityId);
      Success(Request(Get, WithId(Activity, DecimalString(activityId)), NoOptions, None))
  }

  /** countActivities: the lifetime aggregate of duration from the epoch to `today`
      (the caller's clock, already formatted as yyyy-MM-dd). */
  function CountActivitiesRequest(today: string): (r: Request)
    ensures r.verb == Get && r.target == Named(StatActivities) && r.body == None
    ensures r.options.responseType == Unspecified
    ensures r.options.params.Keys == {"aggregation", "startDate", "endDate", "metric"}
    ensures ParamText(r.options.params, "aggregation") == Some("lifetime")
    ensures ParamText(r.options.params, "startDate") == Some("1970-01-01")
    ensures ParamText(r.options.params, "endDate") == Some(today)
    ensures ParamText(r.options.params, "metric") == Some("duration")
  {
    var params := map["aggregation" := Text("lifetime"), "startDate" := Text("1970-01-01"),
                      "endDate" := Text(today), "metric" := Text("duration")];
    Request(Get, Named(StatActivities), Options(params, Unspecified), None)
  }

  /** The endpoint each export format is downloaded from. */
  function DownloadEndpoint(fileType: string): (e: Endpoint)
    requires fileType in ExportFileTypes
  {
    if fileType == "tcx" then DownloadTcx
    else if fileType == "gpx" then DownloadGpx
    else if fileType == "kml" then DownloadKml
    else DownloadZip
  }

  /** The export format a download endpoint serves; the inverse of DownloadEndpoint. */
  function ExportFileTypeOf(e: Endpoint): Option<string> {
    match e
    case DownloadTcx => Some("tcx")
    case DownloadGpx => Some("gpx")
    case DownloadKml => Some("kml")
    case DownloadZip => Some("zip")
    case _ => None
  }

  /** downloadOriginalActivityData: the id is checked before the format; a format
      outside the four fails; otherwise one GET to that format's endpoint with the id
      appended, asking for raw bytes exactly when the format is zip. */
  function DownloadRequest(activityId: nat, fileType: string): (r: Result<Request, Error>)
    ensures activityId == 0 ==> r == Failure(MissingActivityId)
    ensures activityId != 0 && fileType !in ExportFileTypes ==> r == Failure(InvalidType(fileType))
    ensures r.Failure? ==> Message(r.error) == if activityId == 0 then "Missing activityId"
                                                else "downloadOriginalActivityData - Invalid type: " + fileType
    ensures r.Success? <==> activityId != 0 && fileType in ExportFileTypes
    ensures r.Success? ==> r.value.verb == Get && r.value.body == None && r.value.options.params == map[]
    ensures r.Success? ==> r.value.target.WithId? && ExportFileTypeOf(r.value.target.endpoint) == Some(fileType)
    ensures r.Success? ==> AllDigits(r.value.target.id) && DecimalValue(r.value.target.id) == activityId
    ensures r.Success? ==> (r.value.options.responseType == ArrayBuffer <==> fileType == "zip")
  {
    if activityId == 0 then Failure(MissingActivityId)
    else if fileType !in ExportFileTypes then Failure(InvalidType(fileType))
    else
      DecimalRoundTrip(activityId);
      var options := if fileType == "zip" then Options(map[], ArrayBuffer) else NoOptions;
      Success(Request(Get, WithId(DownloadEndpoint(fileType), DecimalString(activityId)), options, None))
  }

  /** getWorkouts: start and limit go through as query parameters, unchecked. */
  function WorkoutsRequest(start: int, limit: int): (r: Request)
    ensures r.verb == Get && r.target == Named(Workouts) && r.body == None
    ensures r.options.responseType == Unspecified
    ensures r.options.params.Keys == {"start", "limit"}
    ensures ParamNum(r.options.params, "start") == Some(start)
    ensures ParamNum(r.options.params, "limit") == Some(limit)
  {
    Request(Get, Named(Workouts), Options(map["start" := Num(start), "limit" := Num(limit)], Unspecified), None)
  }

  /** getWorkoutDetail: an empty id fails; otherwise one GET to the workout endpoint
      for that id. */
  function WorkoutDetailRequest(workoutId: string): (r: Result<Request, Error>)
    ensures r.Failure? <==> workoutId == ""
    ensures r.Failure? ==> r.error == MissingWorkoutId && Message(r.error) == "Missing workoutId"
    ensures r.Success? ==> r.value.verb == Get && r.value.options == NoOptions && r.value.body == None
    ensures r.Success? ==> r.value.target.WithId? && r.value.target.endpoint == Workout
    ensures r.Success? ==> r.value.target.id == workoutId
  {
    if workoutId == "" then Failure(MissingWorkoutId)
    else Success(Request(Get, WithId(Workout, workoutId), NoOptions, None))
  }

  /** The request-issuing operations, with their arguments. `RawGet`, `RawPost` and
      `RawPut` are the escape hatches get, post and put. */
  datatype Query =
    | GetUserSettings
    | GetUserProfile
    | GetActivities(start: Option<int>, limit: Option<int>,
                    activityType: Option<string>, subActivityType: Option<string>)
    | GetActivity(activityId: nat)
    | CountActivities(today: string)
    | DownloadOriginalActivityData(activityId: nat, dir: string, fileType: string)
    | GetWorkouts(wStart: int, wLimit: int)
    | GetWorkoutDetail(workoutId: string)
    | RawGet(url: string, options: Options)
    | RawPost(postUrl: string, postBody: string)
    | RawPut(putUrl: string, putBody: string)

  /** The local argument checks, stated on their own: falsy ids and unknown export
      formats are refused; everything else goes through. */
  predicate LocallyValid(q: Query) {
    match q
    case GetActivity(id) => id != 0
    case DownloadOriginalActivityData(id, _, t) => id != 0 && t in ExportFileTypes
    case GetWorkoutDetail(w) => w != ""
    case _ => true
  }

  predicate IsCatalog(q: Query) {
    !q.RawGet? && !q.RawPost? && !q.RawPut?
  }

  /** The request a query issues, or the error it fails with before issuing any. */
  function Shape(q: Query): (r: Result<Request, Error>)
    ensures r.Success? <==> LocallyValid(q)
    ensures r.Success? && IsCatalog(q) ==> r.value.verb == Get && r.value.body == None && !r.value.target.Raw?
    ensures r.Success? && IsCatalog(q) ==>
              (r.value.options.responseType == ArrayBuffer <==> q.DownloadOriginalActivityData? && q.fileType == "zip")
    ensures q.RawGet? ==> r == Success(Request(Get, Raw(q.url), q.options, None))
    ensures q.RawPost? ==> r == Success(Request(Post, Raw(q.postUrl), NoOptions, Some(q.postBody)))
    ensures q.RawPut? ==> r == Success(Request(Put, Raw(q.putUrl), NoOptions, Some(q.putBody)))
  {
    match q
    case GetUserSettings => Success(GetNamed(UserSettings))
    case GetUserProfile => Success(GetNamed(UserProfile))
    case GetActivities(start, limit, activityType, subActivityType) =>
      Success(ActivitiesRequest(start, limit, activityType, subActivityType))
    case GetActivity(id) => ActivityRequest(id)
    case CountActivities(today) => Success(CountActivitiesRequest(today))
    case DownloadOriginalActivityData(id, _, t) => DownloadRequest(id, t)
    case GetWorkouts(start, limit) => Success(WorkoutsRequest(start, limit))
    case GetWorkoutDetail(w) => WorkoutDetailRequest(w)
    case RawGet(url, options) => Success(Request(Get, Raw(url), options, None))
    case RawPost(url, body) => Success(Request(Post, Raw(url), NoOptions, Some(body)))
    case RawPut(url, body) => Success(Request(Put, Raw(url), NoOptions, Some(body)))
  }

  /** What a shaped query adds to the log: its one request, or nothing. */
  function Dispatched(r: Result<Request, Error>): seq<Call> {
    if r.Success? then [Send(r.value)] else []
  }

  /* ---------------------------------------------------------------------------------
     The client's state and one step of it.
     --------------------------------------------------------------------------------- */

  /** The client's observable state: the stored credentials, the two token fields of
      its transport, and the calls made so far. */
  datatype Session = Session(credentials: Credentials, oauth1: Option<OAuth1Token>,
                             oauth2: Option<OAuth2Token>, log: seq<Call>)

  datatype Op =
    | Login(username: string, password: string, oauth1: OAuth1Token, oauth2: OAuth2Token)
    | ExportToken
    | LoadToken(oauth1: OAuth1Token, oauth2: OAuth2Token)
    | Call(query: Query)

  datatype Reply = Done | Exported(pair: TokenPair) | Failed(error: Error)

  /** Construction: no credentials fails; otherwise the credentials are stored, no
      token is held and nothing has been sent. */
  function Construct(credentials: Option<Credentials>): (r: Result<Session, Error>)
    ensures r.Failure? <==> credentials.None?
    ensures r.Failure? ==> r.error == MissingCredentials && Message(r.error) == "Missing credentials"
    ensures r.Success? ==> r.value.credentials == credentials.value && r.value.log == []
    ensures r.Success? ==> r.value.oauth1.None? && r.value.oauth2.None?
  {
    if credentials.None? then Failure(MissingCredentials)
    else Success(Session(credentials.value, None, None, []))
  }

  /** The credentials after login(username, password): an empty argument counts as
      omitted, and both fields are overwritten, or neither. */
  function LoginCredentials(c: Credentials, username: string, password: string): (r: Credentials)
    ensures r == c || r == Credentials(username, password)
    ensures r != c ==> username != "" && password != ""
    ensures username != "" && password != "" ==> r.username == username && r.password == password
  {
    if username != "" && password != "" then Credentials(username, password) else c
  }

  /** exportToken: fails unless both halves are present; otherwise returns them as
      stored. */
  function TokenExport(oauth1: Option<OAuth1Token>, oauth2: Option<OAuth2Token>): (r: Result<TokenPair, Error>)
    ensures r.Failure? <==> oauth1.None? || oauth2.None?
    ensures r.Failure? ==> r.error == TokenNotFound && Message(r.error) == "exportToken: Token not found"
    ensures r.Success? ==> Some(r.value.oauth1) == oauth1 && Some(r.value.oauth2) == oauth2
  {
    if oauth1.None? || oauth2.None? then Failure(TokenNotFound)
    else Success(TokenPair(oauth1.value, oauth2.value))
  }

  /** One operation on the client. A login carries the token pair its handshake
      obtains, since the handshake itself is not part of this model. Every failure is
      local and leaves the state as it was; only login writes the credentials, only
      login and loadToken write the tokens (both halves at once), and only login and a
      valid query add to the log, one call each. */
  function Apply(s: Session, op: Op): (r: (Session, Reply))
    ensures r.1.Failed? ==> r.0 == s
    ensures !op.Login? ==> r.0.credentials == s.credentials
    ensures !op.LoadToken? && !op.Login? ==> r.0.oauth1 == s.oauth1 && r.0.oauth2 == s.oauth2
    ensures op.Login? ==> r.0.credentials == LoginCredentials(s.credentials, op.username, op.password)
    ensures op.Login? ==> r.0.log == s.log + [LoginCall(r.0.credentials.username, r.0.credentials.password)]
    ensures op.LoadToken? || op.Login? ==> r.0.oauth1 == Some(op.oauth1) && r.0.oauth2 == Some(op.oauth2)
    ensures op.ExportToken? || op.LoadToken? ==> r.0.log == s.log
    ensures op.ExportToken? ==> (r.1.Failed? <==> s.oauth1.None? || s.oauth2.None?)
    ensures op.Call? ==> r.0.log == s.log + Dispatched(Shape(op.query))
    ensures op.Call? ==> (r.1.Failed? <==> !LocallyValid(op.query))
  {
    match op
    case Login(username, password, a, b) =>
      var c := LoginCredentials(s.credentials, username, password);
      (s.(credentials := c, oauth1 := Some(a), oauth2 := Some(b),
          log := s.log + [LoginCall(c.username, c.password)]), Done)
    case ExportToken =>
      var e := TokenExport(s.oauth1, s.oauth2);
      (s, if e.Success? then Exported(e.value) else Failed(e.error))
    case LoadToken(a, b) =>
      (s.(oauth1 := Some(a), oauth2 := Some(b)), Done)
    case Call(q) =>
      var shaped := Shape(q);
      (s.(log := s.log + Dispatched(shaped)), if shaped.Success? then Done else Failed(shaped.error))
  }

  function ReplyOf(o: Outcome<Error>): Reply {
    if o.Pass? then Done else Failed(o.error)
  }

  /* ---------------------------------------------------------------------------------
     The client object.
     --------------------------------------------------------------------------------- */

  /** The credentials record; login writes its fields in place, so the object the
      caller handed to the constructor sees the change. */
  class GCCredentials {
    var username: string
    var password: string

    constructor (username: string, password: string)
      ensures this.username == username && this.password == password
    {
      this.username := username;
      this.password := password;
    }

    function Value(): Credentials
      reads this
    {
      Credentials(username, password)
    }
  }

  class GarminConnect {
    const client: HttpClient
    const credentials: GCCredentials
    const domain: string
    var userHash: Option<string>
    var listeners: map<string, seq<nat>>

    function Abs(): Session
      reads this, client, credentials
    {
      Session(credentials.Value(), client.oauth1Token, client.oauth2Token, client.log)
    }

    constructor Init(credentials: GCCredentials, domain: string)
      ensures this.credentials == credentials && this.domain == domain
      ensures fresh(client) && Construct(Some(credentials.Value())) == Success(Abs())
      ensures userHash == None && listeners == map[]
    {
      this.credentials := credentials;
      this.domain := domain;
      this.client := new HttpClient();
      this.userHash := None;
      this.listeners := map[];
    }

    /** `new GarminConnect(credentials, domain)`: throws without credentials; otherwise
        a client holding the caller's credentials object itself, no listener, no user
        hash, no token, and no request made. */
    static method Create(credentials: Option<GCCredentials>, domain: string := "garmin.com")
      returns (r: Result<GarminConnect, Error>)
      ensures r.Failure? <==> credentials.None?
      ensures r.Failure? ==> r.error == MissingCredentials
      ensures r.Success? ==> fresh(r.value) && fresh(r.value.client)
      ensures r.Success? ==> r.value.credentials == credentials.value && r.value.domain == domain
      ensures r.Success? ==> r.value.userHash == None && r.value.listeners == map[]
      ensures r.Success? ==> Construct(Some(credentials.value.Value())) == Success(r.value.Abs())
    {
      if credentials.None? {
        return Failure(MissingCredentials);
      }
      var c := new GarminConnect.Init(credentials.value, domain);
      r := Success(c);
    }

    /** login: overwrites both credential fields when both arguments are given, then
        runs the transport's login with the credentials as they now stand; that login
        installs the token pair its handshake obtains (`issued`, a parameter because the
        handshake is not part of this model). Returns the client itself, for chaining. */
    method Login(issued: TokenPair, username: string := "", password: string := "")
      returns (self: GarminConnect)
      modifies credentials, client
      ensures self == this
      ensures credentials.Value() == LoginCredentials(old(credentials.Value()), username, password)
      ensures client.log == old(client.log) + [LoginCall(credentials.username, credentials.password)]
      ensures client.oauth1Token == Some(issued.oauth1) && client.oauth2Token == Some(issued.oauth2)
      ensures Abs() == Apply(old(Abs()), Op.Login(username, password, issued.oauth1, issued.oauth2)).0
    {
      if username != "" && password != "" {
        credentials.username := username;
        credentials.password := password;
      }
      client.Login(credentials.username, credentials.password, issued.oauth1, issued.oauth2);
      self := this;
    }

    /** exportToken: changes nothing; fails unless both tokens are held. */
    method ExportToken() returns (r: Result<TokenPair, Error>)
      ensures r.Failure? <==> client.oauth1Token.None? || client.oauth2Token.None?
      ensures r.Failure? ==> r.error == TokenNotFound
      ensures r.Success? ==> r.value == TokenPair(client.oauth1Token.value, client.oauth2Token.value)
      ensures (if r.Success? then Exported(r.value) else Failed(r.error)) == Apply(Abs(), Op.ExportToken).1
    {
      if client.oauth1Token.None? || client.oauth2Token.None? {
        return Failure(TokenNotFound);
      }
      r := Success(TokenPair(client.oauth1Token.value, client.oauth2Token.value));
    }

    /** loadToken: replaces both tokens and nothing else. */
    method LoadToken(oauth1: OAuth1Token, oauth2: OAuth2Token)
      modifies client
      ensures client.oauth1Token == Some(oauth1) && client.oauth2Token == Some(oauth2)
      ensures client.log == old(client.log)
      ensures Abs() == Apply(old(Abs()), Op.LoadToken(oauth1, oauth2)).0
    {
      client.oauth1Token := Some(oauth1);
      client.oauth2Token := Some(oauth2);
    }

    method GetUserSettings()
      modifies client
      ensures Abs() == Apply(old(Abs()), Call(Query.GetUserSettings)).0
      ensures client.log == old(client.log) + [Send(Request(Verb.Get, Named(UserSettings), NoOptions, None))]
    {
      client.Dispatch(GetNamed(UserSettings));
    }

    method GetUserProfile()
      modifies client
      ensures Abs() == Apply(old(Abs()), Call(Query.GetUserProfile)).0
      ensures client.log == old(client.log) + [Send(Request(Verb.Get, Named(UserProfile), NoOptions, None))]
    {
      client.Dispatch(GetNamed(UserProfile));
    }

    method GetActivities(start: Option<int> := None, limit: Option<int> := None,
                         activityType: Option<string> := None, subActivityType: Option<string> := None)
      modifies client
      ensures Abs() == Apply(old(Abs()), Call(Query.GetActivities(start, limit, activityType, subActivityType))).0
      ensures client.log == old(client.log) + [Send(ActivitiesRequest(start, limit, activityType, subActivityType))]
    {
      client.Dispatch(ActivitiesRequest(start, limit, activityType, subActivityType));
    }

    method GetActivity(activityId: nat) returns (r: Outcome<Error>)
      modifies client
      ensures r.Fail? <==> activityId == 0
      ensures r.Fail? ==> r.error == MissingActivityId && client.log == old(client.log)
      ensures r.Pass? ==> client.log == old(client.log) + [Send(ActivityRequest(activityId).value)]
      ensures (Abs(), ReplyOf(r)) == Apply(old(Abs()), Call(Query.GetActivity(activityId)))
    {
      if activityId == 0 {
        return Fail(MissingActivityId);
      }
      client.Dispatch(ActivityRequest(activityId).value);
      r := Pass;
    }

    method CountActivities(today: string)
      modifies client
      ensures Abs() == Apply(old(Abs()), Call(Query.CountActivities(today))).0
      ensures client.log == old(client.log) + [Send(CountActivitiesRequest(today))]
    {
      client.Dispatch(CountActivitiesRequest(today));
    }

    /** downloadOriginalActivityData: `dir` is unused, as the file write is disabled. */
    method DownloadOriginalActivityData(activityId: nat, dir: string, fileType: string := DefaultExportFileType)
      returns (r: Outcome<Error>)
      modifies client
      ensures r.Fail? <==> activityId == 0 || fileType !in ExportFileTypes
      ensures activityId == 0 ==> r == Fail(MissingActivityId)
      ensures r.Fail? ==> client.log == old(client.log)
      ensures r.Pass? ==> client.log == old(client.log) + [Send(DownloadRequest(activityId, fileType).value)]
      ensures (Abs(), ReplyOf(r)) == Apply(old(Abs()), Call(Query.DownloadOriginalActivityData(activityId, dir, fileType)))
    {
      if activityId == 0 {
        return Fail(MissingActivityId);
      }
      if fileType !in ExportFileTypes {
        return Fail(InvalidType(fileType));
      }
      client.Dispatch(DownloadRequest(activityId, fileType).value);
      r := Pass;
    }

    method GetWorkouts(start: int, limit: int)
      modifies client
      ensures Abs() == Apply(old(Abs()), Call(Query.GetWorkouts(start, limit))).0
      ensures client.log == old(client.log) + [Send(WorkoutsRequest(start, limit))]
    {
      client.Dispatch(WorkoutsRequest(start, limit));
    }

    method GetWorkoutDetail(workoutId: string) returns (r: Outcome<Error>)
      modifies client
      ensures r.Fail? <==> workoutId == ""
      ensures r.Fail? ==> r.error == MissingWorkoutId && client.log == old(client.log)
      ensures r.Pass? ==> client.log == old(client.log) + [Send(Request(Verb.Get, WithId(Workout, workoutId), NoOptions, None))]
      ensures (Abs(), ReplyOf(r)) == Apply(old(Abs()), Call(Query.GetWorkoutDetail(workoutId)))
    {
      if workoutId == "" {
        return Fail(MissingWorkoutId);
      }
      client.Dispatch(WorkoutDetailRequest(workoutId).value);
      r := Pass;
    }

    /** get: forwards the caller's URL and options unchanged. */
    method Get(url: string, options: Options := NoOptions)
      modifies client
      ensures Abs() == Apply(old(Abs()), Call(RawGet(url, options))).0
      ensures client.log == old(client.log) + [Send(Request(Verb.Get, Raw(url), options, None))]
    {
      client.Dispatch(Request(Verb.Get, Raw(url), options, None));
    }

    /** post: forwards the caller's URL and body with empty options. */
    method Post(url: string, body: string)
      modifies client
      ensures Abs() == Apply(old(Abs()), Call(RawPost(url, body))).0
      ensures client.log == old(client.log) + [Send(Request(Verb.Post, Raw(url), NoOptions, Some(body)))]
    {
      client.Dispatch(Request(Verb.Post, Raw(url), Options(map[], Unspecified), Some(body)));
    }

    /** put: forwards the caller's URL and body with empty options. */
    method Put(url: string, body: string)
      modifies client
      ensures Abs() == Apply(old(Abs()), Call(RawPut(url, body))).0
      ensures client.log == old(client.log) + [Send(Request(Verb.Put, Raw(url), NoOptions, Some(body)))]
    {
      client.Dispatch(Request(Verb.Put, Raw(url), Options(map[], Unspecified), Some(body)));
    }
  }
}
