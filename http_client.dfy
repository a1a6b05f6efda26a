/** The transport the client delegates to. HttpClient itself is not part of this model:
    what the client sees of it is the pair of token fields it reads and writes (and that
    its login installs), and the calls it makes, recorded here in an append-only log in
    place of the network. */
module Http {
  import opened Wrappers
  import opened Url

  /** A query-parameter value; `Undefined` is an optional argument the caller omitted. */
  datatype ParamValue = Undefined | Num(n: int) | Text(s: string)

  /** `Unspecified` leaves the decoding to the transport's default; `ArrayBuffer` asks
      for the raw bytes. */
  datatype ResponseType = Unspecified | ArrayBuffer

  datatype Options = Options(params: map<string, ParamValue>, responseType: ResponseType)

  /** No options at all, or the empty options object `{}`. */
  const NoOptions := Options(map[], Unspecified)

  datatype Verb = Get | Post | Put

  /** One request: verb, target, options, and the body of a post or put (opaque). */
  datatype Request = Request(verb: Verb, target: Target, options: Options, body: Option<string>)

  /** What the log records: a login handshake with the credentials it was given, or one
      request. */
  datatype Call = LoginCall(username: string, password: string) | Send(request: Request)

  /** The two halves of a session, opaque to the client. */
  datatype OAuth1Token = OAuth1Token(raw: string)
  datatype OAuth2Token = OAuth2Token(raw: string)

  class HttpClient {
    var oauth1Token: Option<OAuth1Token>
    var oauth2Token: Option<OAuth2Token>
    var log: seq<Call>

    constructor ()
      ensures oauth1Token == None && oauth2Token == None && log == []
    {
      oauth1Token, oauth2Token, log := None, None, [];
    }

    /** The provider's login handshake, recorded as one call. The handshake's own steps
        are not part of this model: the token pair it obtains is a parameter, and it
        installs both halves. */
    method Login(username: string, password: string, oauth1: OAuth1Token, oauth2: OAuth2Token)
      modifies this
      ensures log == old(log) + [LoginCall(username, password)]
      ensures oauth1Token == Some(oauth1) && oauth2Token == Some(oauth2)
    {
      log := log + [LoginCall(username, password)];
      oauth1Token, oauth2Token := Some(oauth1), Some(oauth2);
    }

    /** One request to the provider, recorded as one call. */
    method Dispatch(request: Request)
      modifies this`log
      ensures log == old(log) + [Send(request)]
    {
      log := log + [Send(request)];
    }
  }
}
