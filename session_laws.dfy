/** Laws of the GarminConnect client over any sequence of calls: the log of requests
    only grows, by exactly one call per login and per locally valid query; the token
    pair is what the last loadToken or login installed; credentials once set are never
    emptied. */
module SessionLaws {
  import opened Wrappers
  import opened Http
  import opened Garmin

  /** The state after running `ops` in order from `s`. */
  function Run(s: Session, ops: seq<Op>): Session
    decreases |ops|
  {
    if ops == [] then s else Run(Apply(s, ops[0]).0, ops[1..])
  }

  /** The number of network calls `ops` make, read off the arguments alone. */
  function CallCount(ops: seq<Op>): nat
    decreases |ops|
  {
    if ops == [] then 0
    else
      var here := if ops[0].Login? || (ops[0].Call? && LocallyValid(ops[0].query)) then 1 else 0;
      here + CallCount(ops[1..])
  }

  predicate NoTokenWrite(ops: seq<Op>) {
    forall i :: 0 <= i < |ops| ==> !ops[i].LoadToken? && !ops[i].Login?
  }

  /** The tokens held after `ops`: those installed by the last loadToken or login,
      else the initial ones. */
  function LastLoaded(ops: seq<Op>, tokens: (Option<OAuth1Token>, Option<OAuth2Token>))
    : (Option<OAuth1Token>, Option<OAuth2Token>)
    decreases |ops|
  {
    if ops == [] then tokens
    else if ops[0].LoadToken? || ops[0].Login? then LastLoaded(ops[1..], (Some(ops[0].oauth1), Some(ops[0].oauth2)))
    else LastLoaded(ops[1..], tokens)
  }

  /** The request log is append-only: every run extends it. */
  lemma {:induction false} RunExtendsLog(s: Session, ops: seq<Op>)
    ensures s.log <= Run(s, ops).log
    decreases |ops|
  {
    if ops != [] {
      RunExtendsLog(Apply(s, ops[0]).0, ops[1..]);
    }
  }

  /** Exactly one call per login and per locally valid query, none otherwise: failures
      are decided before any request is made. */
  lemma {:induction false} RunCallCount(s: Session, ops: seq<Op>)
    ensures |Run(s, ops).log| == |s.log| + CallCount(ops)
    decreases |ops|
  {
    if ops != [] {
      RunCallCount(Apply(s, ops[0]).0, ops[1..]);
    }
  }

  /** A run of only failing queries sends nothing and changes nothing. */
  lemma {:induction false} RejectedQueriesChangeNothing(s: Session, ops: seq<Op>)
    requires forall i :: 0 <= i < |ops| ==> ops[i].Call? && !LocallyValid(ops[i].query)
    ensures Run(s, ops) == s
    decreases |ops|
  {
    if ops != [] {
      RejectedQueriesChangeNothing(Apply(s, ops[0]).0, ops[1..]);
    }
  }

  /** The tokens after a run are those of its last loadToken or login, or the initial
      ones. */
  lemma {:induction false} RunTokens(s: Session, ops: seq<Op>)
    ensures (Run(s, ops).oauth1, Run(s, ops).oauth2) == LastLoaded(ops, (s.oauth1, s.oauth2))
    decreases |ops|
  {
    if ops != [] {
      RunTokens(Apply(s, ops[0]).0, ops[1..]);
    }
  }

  /** loadToken then exportToken, with any other calls except login or a second load
      between them, gives back exactly the pair loaded. */
  lemma {:induction false} LoadThenExport(s: Session, a: OAuth1Token, b: OAuth2Token, ops: seq<Op>)
    requires NoTokenWrite(ops)
    ensures Apply(Run(s, [LoadToken(a, b)] + ops), ExportToken).1 == Exported(TokenPair(a, b))
  {
    var loaded := Apply(s, LoadToken(a, b)).0;
    assert ([LoadToken(a, b)] + ops)[1..] == ops;
    assert Run(s, [LoadToken(a, b)] + ops) == Run(loaded, ops);
    RunTokens(loaded, ops);
    UntouchedTokens(ops, (Some(a), Some(b)));
  }

  /** A login, followed by any calls except another login or a load, leaves exportToken
      returning exactly the pair that login's handshake installed. */
  lemma {:induction false} LoginThenExport(s: Session, username: string, password: string,
                                           a: OAuth1Token, b: OAuth2Token, ops: seq<Op>)
    requires NoTokenWrite(ops)
    ensures Apply(Run(s, [Login(username, password, a, b)] + ops), ExportToken).1 == Exported(TokenPair(a, b))
  {
    var loggedIn := Apply(s, Login(username, password, a, b)).0;
    assert ([Login(username, password, a, b)] + ops)[1..] == ops;
    assert Run(s, [Login(username, password, a, b)] + ops) == Run(loggedIn, ops);
    RunTokens(loggedIn, ops);
    UntouchedTokens(ops, (Some(a), Some(b)));
  }

  lemma {:induction false} UntouchedTokens(ops: seq<Op>, tokens: (Option<OAuth1Token>, Option<OAuth2Token>))
    requires NoTokenWrite(ops)
    ensures LastLoaded(ops, tokens) == tokens
    decreases |ops|
  {
    if ops != [] {
      UntouchedTokens(ops[1..], tokens);
    }
  }

  /** A freshly constructed client cannot export a token until one is loaded or a
      login installs one. */
  lemma {:induction false} ExportBeforeLoadFails(c: Credentials, ops: seq<Op>)
    requires NoTokenWrite(ops)
    ensures Construct(Some(c)).Success?
    ensures Apply(Run(Construct(Some(c)).value, ops), ExportToken).1 == Failed(TokenNotFound)
  {
    var s := Construct(Some(c)).value;
    RunTokens(s, ops);
    UntouchedTokens(ops, (None, None));
  }

  /** Exporting from one client and loading the pair into another leaves the second
      holding the same tokens and exporting the same pair; nothing else of it changes. */
  lemma ExportLoadTransfers(s: Session, t: Session)
    requires Apply(s, ExportToken).1.Exported?
    ensures var p := Apply(s, ExportToken).1.pair;
            var t' := Apply(t, LoadToken(p.oauth1, p.oauth2)).0;
            t'.oauth1 == s.oauth1 && t'.oauth2 == s.oauth2
            && t'.credentials == t.credentials && t'.log == t.log
            && Apply(t', ExportToken).1 == Apply(s, ExportToken).1
  {
  }

  /** Login writes only non-empty values, so credentials that are set stay set. */
  lemma {:induction false} CredentialsStaySet(s: Session, ops: seq<Op>)
    requires s.credentials.username != "" && s.credentials.password != ""
    ensures Run(s, ops).credentials.username != "" && Run(s, ops).credentials.password != ""
    decreases |ops|
  {
    if ops != [] {
      CredentialsStaySet(Apply(s, ops[0]).0, ops[1..]);
    }
  }

  /** The credentials after a run are those of its last login with both arguments
      given, or the initial ones. */
  function LastLogin(ops: seq<Op>, c: Credentials): Credentials
    decreases |ops|
  {
    if ops == [] then c
    else if ops[0].Login? then LastLogin(ops[1..], LoginCredentials(c, ops[0].username, ops[0].password))
    else LastLogin(ops[1..], c)
  }

  lemma {:induction false} RunCredentials(s: Session, ops: seq<Op>)
    ensures Run(s, ops).credentials == LastLogin(ops, s.credentials)
    decreases |ops|
  {
    if ops != [] {
      RunCredentials(Apply(s, ops[0]).0, ops[1..]);
    }
  }

  /** Every login in the log carries the credentials stored at that moment, which are
      the last ones given in full. */
  lemma LoginSendsStoredCredentials(s: Session, username: string, password: string,
                                    a: OAuth1Token, b: OAuth2Token)
    ensures var s' := Apply(s, Login(username, password, a, b)).0;
            s'.log[|s'.log| - 1] == LoginCall(s'.credentials.username, s'.credentials.password)
            && (username != "" && password != "" ==> s'.log[|s'.log| - 1] == LoginCall(username, password))
            && (username == "" || password == "" ==>
                  s'.log[|s'.log| - 1] == LoginCall(s.credentials.username, s.credentials.password))
  {
  }
}
