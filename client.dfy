/** The API client of an SMA Data Manager M: its session state, the request
    executor with retries and re-authentication, log-in and log-out, and the
    component and live-measurement queries.  The HTTP session is replaced by
    a scripted transport: `transport` holds what the wire will do with the
    next requests, and `sent` logs every request put on the wire together
    with what happened to it. */
module Client {

  import opened Wrappers
  import opened Json
  import opened Text
  import opened Model
  import opened BaseClient
  import opened Retry

  /** The `LOGIN_RESULT_*` constants. */
  datatype LoginResult = AlreadyLoggedIn | TokenRefreshed | NewToken

  /** A token is kept while it stays valid for more than five minutes. */
  const ReloginMargin: int := 5 * 60 * MicrosPerSecond

  predicate StillValid(authData: Option<AuthTokenInfo>, now: int)
  {
    authData.Some? && TimeUntilExpiration(authData.value, now) > ReloginMargin
  }

  const FormHeaders: Headers := map["Content-Type" := "application/x-www-form-urlencoded", "Accept" := "application/json"]

  /** The password grant of `_get_new_token`. */
  function NewTokenRequest(baseUrl: string, host: string, username: string, password: string): Request
  {
    Request("POST", "token",
      Some(JDict(map["grant_type" := JStr("password"), "username" := JStr(username), "password" := JStr(password)])),
      OriginHeaders(baseUrl, host) + FormHeaders, false)
  }

  /** The refresh grant of `_refresh_token`, sent with the session cookie. */
  function RefreshTokenRequest(baseUrl: string, host: string, sessionId: string, refreshToken: string): Request
  {
    Request("POST", "token",
      Some(JDict(map["grant_type" := JStr("refresh_token"), "refresh_token" := JStr(refreshToken)])),
      OriginHeaders(baseUrl, host) + SessionHeaders(Some(sessionId)).value + FormHeaders, false)
  }

  function LogoutEndpoint(refreshToken: string): string
  {
    "refreshtoken?refreshToken=" + Quote(refreshToken)
  }

  /** The token deletion of `logout`; it is sent without headers. */
  function LogoutRequest(refreshToken: string): Request
  {
    Request("DELETE", LogoutEndpoint(refreshToken), None, map[], true)
  }

  /** `navigation`, with `?parentId=` only for a non-empty parent id. */
  function NavigationEndpoint(parentId: Option<string>): string
  {
    "navigation" + (if parentId.Some? && parentId.value != "" then "?parentId=" + Quote(parentId.value) else "")
  }

  /** The device-info endpoint; the component id is inserted unquoted. */
  function DeviceInfoEndpoint(componentId: string): string
  {
    "widgets/deviceinfo?deviceId=" + componentId
  }

  const JsonAccept: Headers := map["Accept" := "application/json"]
  const JsonHeaders: Headers := map["Content-Type" := "application/json", "Accept" := "application/json"]

  /** The body of `get_live_measurements`. */
  function QueryPayload(query: seq<LiveMeasurementQueryItem>): (p: Json)
    ensures p.JList? && |p.items| == |query|
    ensures forall i :: 0 <= i < |query| ==> QueryItemOfDict(p.items[i]) == Some(query[i])
  {
    var p := JList(seq(|query|, i requires 0 <= i < |query| => QueryItemToDict(query[i])));
    assert forall i :: 0 <= i < |query| ==> QueryItemOfDict(p.items[i]) == Some(query[i]) by {
      forall i | 0 <= i < |query| ensures QueryItemOfDict(p.items[i]) == Some(query[i]) {
        QueryItemRoundTrip(query[i]);
      }
    }
    p
  }

  /** The body of `get_all_live_measurements`: one `{"componentId": id}` per id. */
  function ComponentPayload(componentIds: seq<string>): (p: Json)
    ensures p.JList? && |p.items| == |componentIds|
    ensures forall i :: 0 <= i < |componentIds| ==>
      p.items[i].JDict? && p.items[i].fields.Keys == {"componentId"} && p.items[i].fields["componentId"] == JStr(componentIds[i])
  {
    JList(seq(|componentIds|, i requires 0 <= i < |componentIds| => JDict(map["componentId" := JStr(componentIds[i])])))
  }

  /** The token endpoints never trigger a re-authentication. */
  lemma LogoutEndpointIsTokenEndpoint(refreshToken: string)
    ensures IsTokenEndpoint(LogoutEndpoint(refreshToken))
  {
    assert LogoutEndpoint(refreshToken) == "refreshtoken" + ("?refreshToken=" + Quote(refreshToken));
    StartsWithAppend("refreshtoken", "?refreshToken=" + Quote(refreshToken));
  }

  /** A quoted parameter cannot end the parameter it is in or start another. */
  lemma QuotedParameterStaysOne(s: string)
    ensures forall i :: 0 <= i < |Quote(s)| ==> Quote(s)[i] !in {'&', '=', '?', '#', ' '}
  {
  }

  /** `_parse_measurements` on the decoded response. */
  function ParseMeasurements(body: Json): (r: Result<seq<ChannelValues>, Error>)
    ensures !body.JList? ==> r == Err(Error(ClientError, "received invalid response: not a list"))
    ensures body.JList? ==> r == ChannelValuesFromList(body.items)
  {
    if !body.JList? then Err(Error(ClientError, "received invalid response: not a list"))
    else ChannelValuesFromList(body.items)
  }

  /** `chain.from_iterable`: the lists one after the other. */
  function Flatten<T>(lists: seq<seq<T>>): seq<T>
  {
    if |lists| == 0 then [] else lists[0] + Flatten(lists[1..])
  }

  /** The entries a record parses into, or none when it does not parse. */
  function ParsedRecord(item: Json): seq<ChannelValues>
  {
    match ChannelValuesFromDict(item)
    case Ok(entries) => entries
    case Err(_) => []
  }

  /** The lists `ChannelValues.from_dict` gives for the records, in order. */
  function ParsedRecords(items: seq<Json>): (lists: seq<seq<ChannelValues>>)
    ensures |lists| == |items|
    ensures forall i :: 0 <= i < |items| ==> lists[i] == ParsedRecord(items[i])
  {
    seq(|items|, i requires 0 <= i < |items| => ParsedRecord(items[i]))
  }

  /** Every record parsed and the resulting lists concatenated in order; the
      error of the first record that fails otherwise. */
  function ChannelValuesFromList(items: seq<Json>): (r: Result<seq<ChannelValues>, Error>)
    ensures r.Ok? <==> forall i :: 0 <= i < |items| ==> ChannelValuesFromDict(items[i]).Ok?
    ensures r.Err? ==> r.error.kind == ParsingError
    ensures r.Ok? ==> r.value == Flatten(ParsedRecords(items))
    ensures r.Err? ==> exists k :: 0 <= k < |items| && ChannelValuesFromDict(items[k]) == Err(r.error)
                                 && forall j :: 0 <= j < k ==> ChannelValuesFromDict(items[j]).Ok?
    decreases |items|
  {
    if |items| == 0 then Ok([])
    else
      match ChannelValuesFromDict(items[0])
      case Err(e) => Err(e)
      case Ok(first) =>
        match ChannelValuesFromList(items[1..])
        case Err(e) =>
          FirstFailureInTail(items, e);
          Err(e)
        case Ok(rest) =>
          ParsedRecordsTail(items);
          Ok(first + rest)
  }

  /** The parsed lists of the records after the first are the parsed lists
      of the tail. */
  lemma ParsedRecordsTail(items: seq<Json>)
    requires |items| > 0
    ensures Flatten(ParsedRecords(items)) == ParsedRecord(items[0]) + Flatten(ParsedRecords(items[1..]))
  {
    assert forall i :: 1 <= i < |items| ==> items[i] == items[1..][i - 1];
    assert ParsedRecords(items)[1..] == ParsedRecords(items[1..]);
  }

  /** A first failing record of the tail, after a first record that parses,
      is the first failing record of the list. */
  lemma FirstFailureInTail(items: seq<Json>, e: Error)
    requires |items| > 0 && ChannelValuesFromDict(items[0]).Ok?
    requires exists k :: 0 <= k < |items[1..]| && ChannelValuesFromDict(items[1..][k]) == Err(e)
                         && forall j :: 0 <= j < k ==> ChannelValuesFromDict(items[1..][j]).Ok?
    ensures exists k :: 0 <= k < |items| && ChannelValuesFromDict(items[k]) == Err(e)
                        && forall j :: 0 <= j < k ==> ChannelValuesFromDict(items[j]).Ok?
  {
    var k :| 0 <= k < |items[1..]| && ChannelValuesFromDict(items[1..][k]) == Err(e)
             && forall j :: 0 <= j < k ==> ChannelValuesFromDict(items[1..][j]).Ok?;
    assert items[1..][k] == items[k + 1];
    assert forall j :: 1 <= j < k + 1 ==> items[j] == items[1..][j - 1];
  }

  /** An entry is in the concatenation exactly when it is in one of the lists. */
  lemma {:induction false} InFlatten<T>(lists: seq<seq<T>>, c: T)
    ensures c in Flatten(lists) <==> exists i :: 0 <= i < |lists| && c in lists[i]
    decreases |lists|
  {
    if |lists| > 0 {
      InFlatten(lists[1..], c);
      assert forall i :: 1 <= i < |lists| ==> lists[i] == lists[1..][i - 1];
      if c in Flatten(lists[1..]) {
        var i :| 0 <= i < |lists[1..]| && c in lists[1..][i];
        assert c in lists[i + 1];
      }
    }
  }

  /** Hence every entry of every record is in the result, and every entry of
      the result comes from a record. */
  lemma EntriesComeFromRecords(items: seq<Json>, c: ChannelValues)
    requires ChannelValuesFromList(items).Ok?
    ensures c in ChannelValuesFromList(items).value <==>
      exists i :: 0 <= i < |items| && c in ChannelValuesFromDict(items[i]).value
  {
    InFlatten(ParsedRecords(items), c);
    assert forall i :: 0 <= i < |items| ==> ParsedRecords(items)[i] == ChannelValuesFromDict(items[i]).value;
  }

  /** A component as it ends up after discovery: components of type `Plant`
      get no extra information. */
  function Enriched(v: ComponentView, extra: Json): ComponentView
  {
    if v.componentType == "Plant" then v else WithExtra(v, extra)
  }

  /** The termination measure of the request methods: requests to the token
      endpoints never lead to a re-authentication. */
  function Rank(req: Request): nat
  {
    if IsTokenEndpoint(req.endpoint) then 0 else 5
  }

  /** The retries left, as a termination measure. */
  function Budget(tries: int, retries: int): nat
  {
    if tries <= retries then retries + 1 - tries else 0
  }

  // ---------------------------------------------------------------------
  // Requests and what the client makes of their answers
  // ---------------------------------------------------------------------

  function NavigationRequest(headers: Headers, parentId: Option<string>): Request
  {
    Request("GET", NavigationEndpoint(parentId), None, headers + JsonAccept, true)
  }

  function DeviceInfoRequest(headers: Headers, componentId: string): Request
  {
    Request("GET", DeviceInfoEndpoint(componentId), None, headers + JsonAccept, true)
  }

  function MeasurementsRequest(headers: Headers, payload: Json): Request
  {
    Request("POST", "measurements/live", Some(payload), headers + JsonHeaders, true)
  }

  /** Whether an exchange got an answer with a status below 400. */
  predicate AnsweredOk(x: Exchange)
  {
    x.event.Answered? && x.event.reply.status < 400
  }

  /** What `_get_new_token` makes of the last exchange of its password grant:
      the request's exception, the client error of a response without a
      session cookie, or the token parsed from the response. */
  function NewTokenResult(baseUrl: string, last: Exchange, now: int): Result<AuthTokenInfo, Error>
  {
    match Classify(last.event, Url(baseUrl, last.request.endpoint))
    case Err(e) => Err(e)
    case Ok(reply) =>
      if SessionCookie(reply).None? then Err(Error(ClientError, "session cookie not found"))
      else AuthTokenInfoFromDict(reply.body, now)
  }

  /** What `_refresh_token` makes of the last exchange of its refresh grant. */
  function RefreshResult(baseUrl: string, last: Exchange, now: int): Result<AuthTokenInfo, Error>
  {
    match Classify(last.event, Url(baseUrl, last.request.endpoint))
    case Err(e) => Err(e)
    case Ok(reply) => AuthTokenInfoFromDict(reply.body, now)
  }

  /** The session id after a password grant whose last exchange is `last`:
      `update_session_id` runs once the request succeeded. */
  function GrantSession(last: Exchange, current: Option<string>): Option<string>
  {
    if AnsweredOk(last) then SessionCookie(last.event.reply) else current
  }

  /** The last exchange of `log` went to `endpoint` and got an answer with a
      status below 400. */
  predicate EndsAnswered(log: seq<Exchange>, endpoint: string)
  {
    |log| > 0 && log[|log| - 1].request.endpoint == endpoint && AnsweredOk(log[|log| - 1])
  }

  /** Logs are extended at the end. */
  lemma AppendAssociates<T>(a: seq<T>, b: seq<T>, c: seq<T>)
    ensures a + (b + c) == (a + b) + c
  {
  }

  /** A log that starts with an attempt of `req`: the attempt's outcome
      comes first, and it is not one of the other exchanges. */
  lemma OneAttemptFirst(baseUrl: string, attempt: Exchange, rest: seq<Exchange>, req: Request)
    requires attempt.request == req
    ensures Outcomes(baseUrl, [attempt] + rest, req) == [Classify(attempt.event, Url(baseUrl, req.endpoint))] + Outcomes(baseUrl, rest, req)
    ensures Others([attempt] + rest, req) == Others(rest, req)
  {
    assert ([attempt] + rest)[1..] == rest;
  }

  /** The exchanges of a re-authentication, given the session before it:
      none when there is no session, since `logout` raises at once;
      otherwise the token deletion first, repeated by its retries, and then,
      exactly when there are credentials, the password grant. */
  predicate ReloginLog(baseUrl: string, host: string, authData: Option<AuthTokenInfo>, sessionId: Option<string>,
                       username: Option<string>, password: Option<string>, log: seq<Exchange>)
  {
    if authData.None? || sessionId.None? then log == []
    else
      var logout := LogoutRequest(authData.value.refreshToken);
      && |log| > 0 && log[0].request == logout
      && (forall i :: 0 <= i < |log| ==>
            || log[i].request == logout
            || (username.Some? && password.Some? && log[i].request == NewTokenRequest(baseUrl, host, username.value, password.value)))
      && (forall i, j :: 0 <= i < j < |log| && log[i].request != logout ==> log[j].request != logout)
      && (log[|log| - 1].request != logout <==> username.Some? && password.Some?)
  }

  /** What the password grant at the end of `login()` does, from the token
      `authData0` and session id `sessionId0` before it to `authData` and
      `sessionId` after it: without credentials it raises `ValueError` and
      sends nothing; otherwise it sends the grant, repeated by its retries,
      and the last exchange decides the result, the token and the session
      id. */
  ghost predicate PasswordGrant(baseUrl: string, host: string, username: Option<string>, password: Option<string>,
                                authData0: Option<AuthTokenInfo>, sessionId0: Option<string>,
                                authData: Option<AuthTokenInfo>, sessionId: Option<string>,
                                log: seq<Exchange>, r: Result<LoginResult, Error>, now: int)
  {
    if username.None? || password.None? then
      && r == Err(Error(ValueError, "username and password are required for login"))
      && log == [] && authData == authData0 && sessionId == sessionId0
    else
      && |log| > 0
      && (forall i :: 0 <= i < |log| ==> log[i].request == NewTokenRequest(baseUrl, host, username.value, password.value))
      && var grant := NewTokenResult(baseUrl, log[|log| - 1], now);
      && (r.Ok? <==> grant.Ok?)
      && (r.Err? ==> r.error == grant.error && authData == authData0)
      && (r.Ok? ==> r.value == NewToken && authData == Some(grant.value))
      && sessionId == GrantSession(log[|log| - 1], sessionId0)
  }

  /** A re-authentication's log is the token deletion `a`, repeated by its
      retries, followed by the password grant `b`. */
  lemma ReloginLogOfParts(baseUrl: string, host: string, authData: Option<AuthTokenInfo>, sessionId: Option<string>,
                          username: Option<string>, password: Option<string>, a: seq<Exchange>, b: seq<Exchange>,
                          authData': Option<AuthTokenInfo>, sessionId': Option<string>, login: Result<LoginResult, Error>, now: int)
    requires authData.Some? && sessionId.Some?
    requires |a| > 0 && forall i :: 0 <= i < |a| ==> a[i].request == LogoutRequest(authData.value.refreshToken)
    requires PasswordGrant(baseUrl, host, username, password, None, None, authData', sessionId', b, login, now)
    ensures ReloginLog(baseUrl, host, authData, sessionId, username, password, a + b)
    ensures forall i :: 0 <= i < |a + b| ==> IsTokenEndpoint((a + b)[i].request.endpoint)
  {
    var log := a + b;
    var logout := LogoutRequest(authData.value.refreshToken);
    LogoutEndpointIsTokenEndpoint(authData.value.refreshToken);
    assert forall i :: |a| <= i < |log| ==> log[i] == b[i - |a|];
    assert forall i :: 0 <= i < |a| ==> log[i] == a[i];
    assert "POST" != "DELETE";
    forall i, j | 0 <= i < j < |log| && log[i].request != logout
      ensures log[j].request != logout
    {
      assert i >= |a|;
    }
  }

  /** How a re-authentication ends, given the session before it and its
      exchanges: `logout` raises without a session, `login` raises
      `ValueError` without credentials, and otherwise the password grant,
      the last exchange, decides. */
  function ReloginOutcome(baseUrl: string, authData: Option<AuthTokenInfo>, sessionId: Option<string>,
                          hasCredentials: bool, log: seq<Exchange>, now: int): Reauth
  {
    if authData.None? || sessionId.None? then ReauthFailed(Error(ClientError, "session not available"))
    else if !hasCredentials then ReauthFailed(Error(ValueError, "username and password are required for login"))
    else if |log| == 0 then ReauthOk  // not a re-authentication: with a session the deletion is always sent
    else
      match NewTokenResult(baseUrl, log[|log| - 1], now)
      case Ok(_) => ReauthOk
      case Err(e) => ReauthFailed(e)
  }

  /** The token and the session id after the re-authentication whose
      exchanges are `others`, from `authData` and `sessionId` before it:
      unchanged when it sent nothing (there was none, or `logout` raised for
      want of a session); otherwise the log-out cleared both, and the
      password grant, when there are credentials, set what its last exchange
      gave: the token it parsed, and the cookie of an answer below 400. */
  function SessionAfter(baseUrl: string, hasCredentials: bool, authData: Option<AuthTokenInfo>, sessionId: Option<string>,
                        others: seq<Exchange>, now: int): (Option<AuthTokenInfo>, Option<string>)
  {
    if |others| == 0 then (authData, sessionId)
    else if !hasCredentials then (None, None)
    else
      var last := others[|others| - 1];
      var grant := NewTokenResult(baseUrl, last, now);
      (if grant.Ok? then Some(grant.value) else None, GrantSession(last, None))
  }

  /** No exchange of `log` went to a token endpoint. */
  ghost predicate NoTokenRequests(log: seq<Exchange>)
  {
    forall i :: 0 <= i < |log| ==> !IsTokenEndpoint(log[i].request.endpoint)
  }

  /** A log without token requests has none in any of its parts. */
  lemma NoTokenRequestsOfParts(a: seq<Exchange>, b: seq<Exchange>)
    ensures NoTokenRequests(a + b) ==> NoTokenRequests(a) && NoTokenRequests(b)
  {
    if NoTokenRequests(a + b) {
      assert forall i :: 0 <= i < |a| ==> a[i] == (a + b)[i];
      assert forall i :: 0 <= i < |b| ==> b[i] == (a + b)[|a| + i];
    }
  }

  /** A request that was only repeated, without a token request in between,
      has no other exchanges. */
  lemma NoTokenRequestsNoOthers(log: seq<Exchange>, req: Request)
    requires forall i :: 0 <= i < |log| ==> log[i].request == req || IsTokenEndpoint(log[i].request.endpoint)
    ensures NoTokenRequests(log) ==> Others(log, req) == []
  {
    OthersOfOneRequest(log, req);
  }

  /** How a re-authentication with a session ends: as the password grant `b`
      after the token deletion `a` ends. */
  lemma ReloginOutcomeOfParts(baseUrl: string, host: string, authData: Option<AuthTokenInfo>, sessionId: Option<string>,
                              username: Option<string>, password: Option<string>, a: seq<Exchange>, b: seq<Exchange>,
                              authData': Option<AuthTokenInfo>, sessionId': Option<string>, login: Result<LoginResult, Error>, now: int)
    requires authData.Some? && sessionId.Some? && |a| > 0
    requires PasswordGrant(baseUrl, host, username, password, None, None, authData', sessionId', b, login, now)
    ensures ReloginOutcome(baseUrl, authData, sessionId, username.Some? && password.Some?, a + b, now)
            == if login.Err? then ReauthFailed(login.error) else ReauthOk
    ensures SessionAfter(baseUrl, username.Some? && password.Some?, authData, sessionId, a + b, now) == (authData', sessionId')
  {
    if username.Some? && password.Some? {
      assert (a + b)[|a + b| - 1] == b[|b| - 1];
    }
  }

  /** A successful re-authentication leaves a session: the token and the
      session cookie of the password grant's last answer. */
  lemma ReloginSession(baseUrl: string, host: string, username: Option<string>, password: Option<string>,
                       a: seq<Exchange>, b: seq<Exchange>,
                       authData': Option<AuthTokenInfo>, sessionId': Option<string>, login: Result<LoginResult, Error>, now: int)
    requires PasswordGrant(baseUrl, host, username, password, None, None, authData', sessionId', b, login, now) && login.Ok?
    ensures |b| > 0 && (a + b)[|a + b| - 1] == b[|b| - 1]
    ensures authData'.Some? && sessionId'.Some?
    ensures NewTokenResult(baseUrl, b[|b| - 1], now) == Ok(authData'.value)
    ensures sessionId' == SessionCookie(b[|b| - 1].event.reply)
  {
  }

  /** What a run of `_make_request_w` from attempt `tries` on promises about
      its result `r` and the exchanges `log` it puts on the wire, given the
      session before it: `log` holds the attempts of `req` and, after one of
      them, the exchanges of at most one re-authentication; the outcomes of
      the attempts, run through `Replay` with the re-authentication going as
      its own exchanges decide, give `r`; a response is the answer to the
      last exchange; and on a token endpoint, or once re-authenticated, the
      call only repeats `req` and ends with its last outcome. */
  ghost predicate RequestRun(baseUrl: string, host: string, username: Option<string>, password: Option<string>, retries: int,
                             authData: Option<AuthTokenInfo>, sessionId: Option<string>, req: Request, now: int,
                             tries: int, didReauth: bool, log: seq<Exchange>, r: Result<Reply, Error>)
  {
    && RunReplays(baseUrl, username.Some? && password.Some?, retries, authData, sessionId, req, now, tries, didReauth, log, r)
    && RunReauthLog(baseUrl, host, username, password, retries, authData, sessionId, req, tries, didReauth, log)
    && RunShape(baseUrl, req, didReauth, log, r)
  }

  /** The outcomes of the attempts in `log`, run through `Replay` with the
      re-authentication going as the other exchanges decide, give `r`. */
  ghost predicate RunReplays(baseUrl: string, hasCredentials: bool, retries: int,
                             authData: Option<AuthTokenInfo>, sessionId: Option<string>, req: Request, now: int,
                             tries: int, didReauth: bool, log: seq<Exchange>, r: Result<Reply, Error>)
  {
    var reauth := ReloginOutcome(baseUrl, authData, sessionId, hasCredentials, Others(log, req), now);
    Replay(req.endpoint, retries, Outcomes(baseUrl, log, req), reauth, tries, didReauth) == Some(r)
  }

  /** The exchanges of `log` that are not attempts of `req` are those of a
      re-authentication, and there are none unless the attempts led to
      one. */
  ghost predicate RunReauthLog(baseUrl: string, host: string, username: Option<string>, password: Option<string>, retries: int,
                               authData: Option<AuthTokenInfo>, sessionId: Option<string>, req: Request,
                               tries: int, didReauth: bool, log: seq<Exchange>)
  {
    if ReauthCount(req.endpoint, retries, Outcomes(baseUrl, log, req), tries, didReauth) == 0 then Others(log, req) == []
    else ReloginLog(baseUrl, host, authData, sessionId, username, password, Others(log, req))
  }

  /** `log` is not empty, a response is the answer to its last exchange,
      every exchange carries `req` or goes to a token endpoint, and on a
      token endpoint, or once re-authenticated, every exchange carries `req`
      and the last one's outcome is the result. */
  ghost predicate RunShape(baseUrl: string, req: Request, didReauth: bool, log: seq<Exchange>, r: Result<Reply, Error>)
  {
    && |log| > 0
    && (r.Ok? <==> EndsAnswered(log, req.endpoint))
    && (r.Ok? ==> log[|log| - 1] == Exchange(req, Answered(r.value)))
    && (forall i :: 0 <= i < |log| ==> log[i].request == req || IsTokenEndpoint(log[i].request.endpoint))
    && (IsTokenEndpoint(req.endpoint) || didReauth ==>
          && (forall i :: 0 <= i < |log| ==> log[i].request == req)
          && r == Classify(log[|log| - 1].event, Url(baseUrl, req.endpoint)))
  }

  /** The shape of a run that is one attempt. */
  lemma ShapeFinish(baseUrl: string, req: Request, didReauth: bool, attempt: Exchange, r: Result<Reply, Error>)
    requires attempt.request == req && r == Classify(attempt.event, Url(baseUrl, req.endpoint))
    ensures RunShape(baseUrl, req, didReauth, [attempt], r)
  {
  }

  /** The shape of a run survives an attempt of `req` in front. */
  lemma ShapeAgain(baseUrl: string, req: Request, didReauth: bool, attempt: Exchange, retried: seq<Exchange>, r: Result<Reply, Error>)
    requires attempt.request == req && RunShape(baseUrl, req, didReauth, retried, r)
    ensures RunShape(baseUrl, req, didReauth, [attempt] + retried, r)
  {
    var log := [attempt] + retried;
    assert log[|log| - 1] == retried[|retried| - 1];
    assert forall i :: 1 <= i < |log| ==> log[i] == retried[i - 1];
  }

  /** The shape of a run that ends with a failed re-authentication. */
  lemma ShapeReauthFailed(baseUrl: string, req: Request, attempt: Exchange, others: seq<Exchange>, r: Result<Reply, Error>)
    requires attempt.request == req && !IsTokenEndpoint(req.endpoint) && r.Err?
    requires Classify(attempt.event, Url(baseUrl, req.endpoint)).Err?
    requires forall i :: 0 <= i < |others| ==> IsTokenEndpoint(others[i].request.endpoint)
    ensures RunShape(baseUrl, req, false, [attempt] + others, r)
  {
    var log := [attempt] + others;
    assert |others| > 0 ==> log[|log| - 1] == others[|others| - 1];
    assert forall i :: 1 <= i < |log| ==> log[i] == others[i - 1];
  }

  /** The shape of a run that re-authenticates and then retries. */
  lemma ShapeReauthOk(baseUrl: string, req: Request, attempt: Exchange, others: seq<Exchange>, retried: seq<Exchange>,
                      r: Result<Reply, Error>)
    requires attempt.request == req && !IsTokenEndpoint(req.endpoint)
    requires forall i :: 0 <= i < |others| ==> IsTokenEndpoint(others[i].request.endpoint)
    requires RunShape(baseUrl, req, true, retried, r)
    ensures RunShape(baseUrl, req, false, [attempt] + (others + retried), r)
  {
    var log := [attempt] + (others + retried);
    assert log[|log| - 1] == retried[|retried| - 1];
    assert forall i :: 1 <= i <= |others| ==> log[i] == others[i - 1];
    assert forall i :: |others| < i < |log| ==> log[i] == retried[i - 1 - |others|];
  }

  /** An attempt whose outcome ends the call is the whole run. */
  lemma RunFinish(baseUrl: string, host: string, username: Option<string>, password: Option<string>, retries: int,
                  authData: Option<AuthTokenInfo>, sessionId: Option<string>, req: Request, now: int,
                  tries: int, didReauth: bool, attempt: Exchange, r: Result<Reply, Error>)
    requires attempt.request == req
    requires NextStep(req.endpoint, retries, tries, didReauth, Classify(attempt.event, Url(baseUrl, req.endpoint))) == Finish(r)
    ensures RequestRun(baseUrl, host, username, password, retries, authData, sessionId, req, now, tries, didReauth, [attempt], r)
    ensures Others([attempt], req) == []
  {
    OneAttemptFirst(baseUrl, attempt, [], req);
    assert [attempt] + [] == [attempt];
    ShapeFinish(baseUrl, req, didReauth, attempt, r);
  }

  /** A retried attempt followed by the run of the retry is a run. */
  lemma RunAgain(baseUrl: string, host: string, username: Option<string>, password: Option<string>, retries: int,
                 authData: Option<AuthTokenInfo>, sessionId: Option<string>, req: Request, now: int,
                 tries: int, didReauth: bool, attempt: Exchange, retried: seq<Exchange>, r: Result<Reply, Error>)
    requires attempt.request == req
    requires NextStep(req.endpoint, retries, tries, didReauth, Classify(attempt.event, Url(baseUrl, req.endpoint))) == Again
    requires RequestRun(baseUrl, host, username, password, retries, authData, sessionId, req, now, tries + 1, didReauth, retried, r)
    ensures RequestRun(baseUrl, host, username, password, retries, authData, sessionId, req, now, tries, didReauth, [attempt] + retried, r)
    ensures Others([attempt] + retried, req) == Others(retried, req)
  {
    OneAttemptFirst(baseUrl, attempt, retried, req);
    ReplayAfterRetry(req.endpoint, retries, Classify(attempt.event, Url(baseUrl, req.endpoint)), Outcomes(baseUrl, retried, req),
      ReloginOutcome(baseUrl, authData, sessionId, username.Some? && password.Some?, Others(retried, req), now), tries, didReauth);
    ShapeAgain(baseUrl, req, didReauth, attempt, retried, r);
  }

  /** The exchanges of a re-authentication never carry a request to an
      endpoint that re-authenticates, so they add no outcomes of it. */
  lemma ReauthExchangesAreOthers(baseUrl: string, others: seq<Exchange>, req: Request)
    requires !IsTokenEndpoint(req.endpoint)
    requires forall i :: 0 <= i < |others| ==> IsTokenEndpoint(others[i].request.endpoint)
    ensures Outcomes(baseUrl, others, req) == []
    ensures Others(others, req) == others
  {
    assert forall i :: 0 <= i < |others| ==> others[i].request != req;
    OutcomesOfOthers(baseUrl, others, req);
    OthersOfOneRequest(others, req);
  }

  /** An authentication error followed by a failed re-authentication is a
      whole run, which raises the original error or the failure. */
  lemma RunReauthFailed(baseUrl: string, host: string, username: Option<string>, password: Option<string>, retries: int,
                        authData: Option<AuthTokenInfo>, sessionId: Option<string>, req: Request, now: int,
                        tries: int, attempt: Exchange, original: Error, others: seq<Exchange>, e: Error)
    requires attempt.request == req && !IsTokenEndpoint(req.endpoint) && original.kind == AuthenticationError
    requires Classify(attempt.event, Url(baseUrl, req.endpoint)) == Err(original)
    requires forall i :: 0 <= i < |others| ==> IsTokenEndpoint(others[i].request.endpoint)
    requires ReloginLog(baseUrl, host, authData, sessionId, username, password, others)
    requires ReloginOutcome(baseUrl, authData, sessionId, username.Some? && password.Some?, others, now) == ReauthFailed(e)
    ensures RequestRun(baseUrl, host, username, password, retries, authData, sessionId, req, now, tries, false,
                       [attempt] + others, Err(if e.kind.IsApiError() then original else e))
    ensures Others([attempt] + others, req) == others
  {
    var log := [attempt] + others;
    OneAttemptFirst(baseUrl, attempt, others, req);
    ReauthExchangesAreOthers(baseUrl, others, req);
    assert Outcomes(baseUrl, log, req) == [Err(original)];
    ReplayAfterReauth(req.endpoint, retries, original, [], tries);
    ShapeReauthFailed(baseUrl, req, attempt, others, Err(if e.kind.IsApiError() then original else e));
  }

  /** An authentication error, a successful re-authentication and the run
      of the retry that follows it make a run. */
  lemma RunReauthOk(baseUrl: string, host: string, username: Option<string>, password: Option<string>, retries: int,
                    authData: Option<AuthTokenInfo>, sessionId: Option<string>, req: Request, now: int,
                    tries: int, attempt: Exchange, original: Error, others: seq<Exchange>,
                    authData': Option<AuthTokenInfo>, sessionId': Option<string>, retried: seq<Exchange>, r: Result<Reply, Error>)
    requires attempt.request == req && !IsTokenEndpoint(req.endpoint) && original.kind == AuthenticationError
    requires Classify(attempt.event, Url(baseUrl, req.endpoint)) == Err(original)
    requires forall i :: 0 <= i < |others| ==> IsTokenEndpoint(others[i].request.endpoint)
    requires ReloginLog(baseUrl, host, authData, sessionId, username, password, others)
    requires ReloginOutcome(baseUrl, authData, sessionId, username.Some? && password.Some?, others, now) == ReauthOk
    requires RequestRun(baseUrl, host, username, password, retries, authData', sessionId', req, now, tries + 1, true, retried, r)
    ensures RequestRun(baseUrl, host, username, password, retries, authData, sessionId, req, now, tries, false,
                       [attempt] + (others + retried), r)
    ensures Others([attempt] + (others + retried), req) == others
  {
    OneAttemptFirst(baseUrl, attempt, others + retried, req);
    ReauthExchangesAreOthers(baseUrl, others, req);
    OutcomesConcat(baseUrl, others, retried, req);
    OthersConcat(others, retried, req);
    OthersOfOneRequest(retried, req);
    assert [] + Outcomes(baseUrl, retried, req) == Outcomes(baseUrl, retried, req);
    assert others + [] == others;
    ReplayAfterReauth(req.endpoint, retries, original, Outcomes(baseUrl, retried, req), tries);
    ReauthOutcomeUnused(req.endpoint, retries, Outcomes(baseUrl, retried, req), ReauthOk,
      ReloginOutcome(baseUrl, authData', sessionId', username.Some? && password.Some?, [], now), tries + 1, true);
    ShapeReauthOk(baseUrl, req, attempt, others, retried, r);
  }

  /** `response` is what the exchanges `log` of one request to `endpoint`
      came to: a response exactly when the last exchange was answered below
      400, and then that answer; every exchange went to `endpoint` or to a
      token endpoint. */
  ghost predicate AnsweredBy(log: seq<Exchange>, endpoint: string, response: Result<Reply, Error>)
  {
    && |log| > 0
    && (response.Ok? <==> EndsAnswered(log, endpoint))
    && (response.Ok? ==> log[|log| - 1].event == Answered(response.value))
    && (forall i :: 0 <= i < |log| ==> log[i].request.endpoint == endpoint || IsTokenEndpoint(log[i].request.endpoint))
  }

  /** Every exchange of `log` carries `req` or goes to a token endpoint. */
  ghost predicate SentOnly(log: seq<Exchange>, req: Request)
  {
    forall i :: 0 <= i < |log| ==> log[i].request == req || IsTokenEndpoint(log[i].request.endpoint)
  }

  /** A run of `make_request` sends only its request, apart from a
      re-authentication, and comes to the answer of its last exchange. */
  lemma RunIsAnswered(baseUrl: string, host: string, username: Option<string>, password: Option<string>, retries: int,
                      authData: Option<AuthTokenInfo>, sessionId: Option<string>, req: Request, now: int,
                      log: seq<Exchange>, r: Result<Reply, Error>)
    requires RequestRun(baseUrl, host, username, password, retries, authData, sessionId, req, now, 0, false, log, r)
    ensures AnsweredBy(log, req.endpoint, r) && SentOnly(log, req)
  {
  }

  /** `components` are distinct objects that hold `views` with the device
      information `extras` added, in order. */
  ghost predicate HoldEnriched(components: seq<ComponentInfo>, views: seq<ComponentView>, extras: seq<Json>)
    reads components
  {
    && |components| == |views| && |extras| == |views|
    && (forall i :: 0 <= i < |views| ==> components[i].View() == Enriched(views[i], extras[i]))
    && (forall i, j :: 0 <= i < j < |views| ==> components[i] != components[j])
  }

  /** The components `[ComponentInfo.from_dict(c) for c in items]` builds, or
      the error of the first entry that fails. */
  function ComponentViewsFromList(items: seq<Json>): (r: Result<seq<ComponentView>, Error>)
    ensures r.Ok? <==> forall i :: 0 <= i < |items| ==> IsComponentDict(items[i])
    ensures r.Ok? ==> |r.value| == |items| && forall i :: 0 <= i < |items| ==> ComponentViewFromDict(items[i]) == Ok(r.value[i])
    decreases |items|
  {
    if |items| == 0 then Ok([])
    else
      match ComponentViewFromDict(items[0])
      case Err(e) => Err(e)
      case Ok(v) =>
        match ComponentViewsFromList(items[1..])
        case Err(e) =>
          assert exists i :: 0 <= i < |items| && !IsComponentDict(items[i]) by {
            var j :| 0 <= j < |items[1..]| && !IsComponentDict(items[1..][j]);
            assert items[1..][j] == items[j + 1];
          }
          Err(e)
        case Ok(vs) =>
          assert forall i :: 1 <= i < |items| ==> items[i] == items[1..][i - 1];
          Ok([v] + vs)
  }

  /** When every entry before `k` is a component and entry `k` is not, the
      list fails with the error of entry `k`. */
  lemma {:induction false} FirstBadComponent(items: seq<Json>, k: nat)
    requires k < |items| && !IsComponentDict(items[k])
    requires forall j :: 0 <= j < k ==> IsComponentDict(items[j])
    ensures ComponentViewsFromList(items) == Err(ComponentViewFromDict(items[k]).error)
    decreases k
  {
    if k > 0 {
      assert forall j :: 0 <= j < k - 1 ==> items[1..][j] == items[j + 1];
      FirstBadComponent(items[1..], k - 1);
    }
  }

  /** The parse of a navigation response: a list of components. */
  function NavigationViews(body: Json): (r: Result<seq<ComponentView>, Error>)
    ensures !body.JList? ==> r == Err(Error(ClientError, "received invalid response: not a list"))
    ensures body.JList? ==> r == ComponentViewsFromList(body.items)
  {
    if !body.JList? then Err(Error(ClientError, "received invalid response: not a list"))
    else ComponentViewsFromList(body.items)
  }

  /** What `_get_navigation_int` makes of the response to its request: the
      request's error, or the parse of the answer. */
  function NavigationOf(response: Result<Reply, Error>): Result<seq<ComponentView>, Error>
  {
    if response.Err? then Err(response.error) else NavigationViews(response.value.body)
  }

  /** The root `get_all_components` takes from the top-level navigation: its
      first component, which must be a `Plant`. */
  function RootOf(response: Result<Reply, Error>): Result<ComponentView, Error>
  {
    match NavigationOf(response)
    case Err(e) => Err(e)
    case Ok(views) =>
      if |views| == 0 then Err(Error(ClientError, "received invalid response: no root component"))
      else if views[0].componentType != "Plant" then
        Err(Error(ClientError, "received invalid response: root componentType is not 'Plant' but '"
                               + views[0].componentType + "'"))
      else Ok(views[0])
  }

  /** The device-information requests of `get_all_components` over the
      components `views`, in order: none for a `Plant`; for any other
      component, the exchanges `logs[k]` of its request come to
      `responses[k]`, and `extras[k]` is the body of that answer.  The calls
      stop at the first request that fails. */
  ghost predicate ExtraInfoCalls(views: seq<ComponentView>, extras: seq<Json>, logs: seq<seq<Exchange>>,
                                 responses: seq<Result<Reply, Error>>)
  {
    && |logs| == |responses| <= |views|
    && |extras| <= |logs| <= |extras| + 1
    && (forall k :: 0 <= k < |logs| && views[k].componentType == "Plant" ==> logs[k] == [])
    && (forall k :: 0 <= k < |logs| && views[k].componentType != "Plant" ==>
          AnsweredBy(logs[k], DeviceInfoEndpoint(views[k].componentId), responses[k]))
    && (forall k :: 0 <= k < |extras| && views[k].componentType != "Plant" ==>
          responses[k].Ok? && extras[k] == responses[k].value.body)
    && (|logs| > |extras| ==> views[|extras|].componentType != "Plant" && responses[|extras|].Err?)
  }

  /** One more component handled: skipped for a `Plant`, or answered. */
  lemma ExtraInfoCallsStep(views: seq<ComponentView>, extras: seq<Json>, logs: seq<seq<Exchange>>,
                           responses: seq<Result<Reply, Error>>, extra: Json, log: seq<Exchange>, response: Result<Reply, Error>)
    requires ExtraInfoCalls(views, extras, logs, responses) && |extras| == |logs| < |views|
    requires views[|logs|].componentType == "Plant" ==> log == []
    requires views[|logs|].componentType != "Plant" ==>
      AnsweredBy(log, DeviceInfoEndpoint(views[|logs|].componentId), response) && response.Ok? && extra == response.value.body
    ensures ExtraInfoCalls(views, extras + [extra], logs + [log], responses + [response])
  {
  }

  /** The request for a component fails, and the calls stop. */
  lemma ExtraInfoCallsStop(views: seq<ComponentView>, extras: seq<Json>, logs: seq<seq<Exchange>>,
                           responses: seq<Result<Reply, Error>>, log: seq<Exchange>, response: Result<Reply, Error>)
    requires ExtraInfoCalls(views, extras, logs, responses) && |extras| == |logs| < |views|
    requires views[|logs|].componentType != "Plant"
    requires AnsweredBy(log, DeviceInfoEndpoint(views[|logs|].componentId), response) && response.Err?
    ensures ExtraInfoCalls(views, extras, logs + [log], responses + [response])
  {
  }

  /** The root followed by its children: the components are distinct and
      hold the views in the same order. */
  lemma RootThenChildren(root: ComponentInfo, children: seq<ComponentInfo>, rootView: ComponentView, childViews: seq<ComponentView>)
    requires root.View() == rootView && |children| == |childViews|
    requires forall i :: 0 <= i < |children| ==> children[i].View() == childViews[i] && children[i] != root
    requires forall i, j :: 0 <= i < j < |children| ==> children[i] != children[j]
    ensures |[root] + children| == |[rootView] + childViews|
    ensures forall k :: 0 <= k < |[root] + children| ==> ([root] + children)[k].View() == ([rootView] + childViews)[k]
    ensures forall k, l :: 0 <= k < l < |[root] + children| ==> ([root] + children)[k] != ([root] + children)[l]
  {
    var all := [root] + children;
    forall k, l | 0 <= k < l < |all|
      ensures all[k] != all[l]
    {
      assert all[l] == children[l - 1];
      if k > 0 {
        assert all[k] == children[k - 1];
      }
    }
  }

  /** The concatenation grows by the list added at the end. */
  lemma {:induction false} FlattenAppend<T>(lists: seq<seq<T>>, last: seq<T>)
    ensures Flatten(lists + [last]) == Flatten(lists) + last
    decreases |lists|
  {
    if |lists| == 0 {
      assert Flatten([last]) == last + Flatten([last][1..]);
      assert [last][1..] == [];
    } else {
      assert (lists + [last])[1..] == lists[1..] + [last];
      FlattenAppend(lists[1..], last);
      AppendAssociates(lists[0], Flatten(lists[1..]), last);
    }
  }

  /** One more request's exchanges appended to the logs of a loop: what
      was sent, what the transport played and whether a token was requested
      all follow the concatenation. */
  lemma LogsGrow(sent0: seq<Exchange>, t0: seq<TransportEvent>, logs: seq<seq<Exchange>>,
                 t1: seq<TransportEvent>, log: seq<Exchange>, t2: seq<TransportEvent>)
    requires Plays(t0, Flatten(logs), t1) && Plays(t1, log, t2)
    ensures sent0 + Flatten(logs) + log == sent0 + Flatten(logs + [log])
    ensures Plays(t0, Flatten(logs + [log]), t2)
    ensures NoTokenRequests(Flatten(logs + [log])) ==> NoTokenRequests(Flatten(logs)) && NoTokenRequests(log)
  {
    FlattenAppend(logs, log);
    AppendAssociates(sent0, Flatten(logs), log);
    PlaysConcat(t0, Flatten(logs), t1, log, t2);
    NoTokenRequestsOfParts(Flatten(logs), log);
  }

  /** `[ComponentInfo.from_dict(c) for c in navigation]`: a new component
      per entry, or the error of the first entry that fails to parse. */
  method ComponentsFromList(items: seq<Json>) returns (r: Result<seq<ComponentInfo>, Error>)
    ensures r.Ok? <==> ComponentViewsFromList(items).Ok?
    ensures r.Err? ==> r.error == ComponentViewsFromList(items).error
    ensures r.Ok? ==>
      && |r.value| == |items|
      && (forall i :: 0 <= i < |items| ==> fresh(r.value[i]) && r.value[i].View() == ComponentViewsFromList(items).value[i])
      && (forall i, j :: 0 <= i < j < |items| ==> r.value[i] != r.value[j])
  {
    var components: seq<ComponentInfo> := [];
    var i := 0;
    while i < |items|
      invariant 0 <= i <= |items| && |components| == i
      invariant forall k :: 0 <= k < i ==> IsComponentDict(items[k])
      invariant forall k :: 0 <= k < i ==> fresh(components[k]) && Ok(components[k].View()) == ComponentViewFromDict(items[k])
      invariant forall k, l :: 0 <= k < l < i ==> components[k] != components[l]
    {
      var c := ComponentInfo.FromDict(items[i]);
      if c.Err? {
        FirstBadComponent(items, i);
        return Err(c.error);
      }
      components := components + [c.value];
      i := i + 1;
    }
    r := Ok(components);
  }

  /** The client and its session state. */
  class Client {
    const host: string
    const baseUrl: string
    const username: Option<string>
    const password: Option<string>
    const requestRetries: int

    var authData: Option<AuthTokenInfo>
    var sessionId: Option<string>

    /** What the wire does with the next requests, in order. */
    var transport: seq<TransportEvent>
    /** Every request put on the wire so far and what happened to it. */
    var sent: seq<Exchange>

    constructor(host: string, useSsl: bool, username: Option<string>, password: Option<string>,
                requestRetries: int, transport: seq<TransportEvent>)
      ensures this.host == host && baseUrl == BaseUrl(host, useSsl)
      ensures this.username == username && this.password == password && this.requestRetries == requestRetries
      ensures authData == None && sessionId == None
      ensures this.transport == transport && sent == []
    {
      this.host := host;
      this.baseUrl := BaseUrl(host, useSsl);
      this.username := username;
      this.password := password;
      this.requestRetries := requestRetries;
      authData := None;
      sessionId := None;
      this.transport := transport;
      sent := [];
    }

    predicate HasCredentials()
    {
      username.Some? && password.Some?
    }

    predicate HasSession()
      reads this
    {
      authData.Some? && sessionId.Some?
    }

    /** Puts one request on the wire.  Once the script is used up every
        further request times out. */
    method Send(req: Request) returns (o: Result<Reply, Error>)
      modifies this`transport, this`sent
      ensures |old(transport)| > 0 ==> transport == old(transport)[1..] && sent == old(sent) + [Exchange(req, old(transport)[0])]
      ensures |old(transport)| == 0 ==> transport == [] && sent == old(sent) + [Exchange(req, TimedOut)]
      ensures o == Classify(sent[|sent| - 1].event, Url(baseUrl, req.endpoint))
      ensures Plays(old(transport), [sent[|sent| - 1]], transport)
    {
      var event := if |transport| > 0 then transport[0] else TimedOut;
      if |transport| > 0 {
        transport := transport[1..];
      }
      sent := sent + [Exchange(req, event)];
      o := Classify(event, Url(baseUrl, req.endpoint));
    }

    /** `make_request`: the run of `_make_request_w` from the first attempt.
        `log` is what the call puts on the wire; `RequestRun` says how it
        decides the result. */
    method MakeRequest(req: Request, now: int) returns (r: Result<Reply, Error>, ghost log: seq<Exchange>)
      modifies this
      decreases Rank(req), 2
      ensures sent == old(sent) + log
      ensures RequestRun(baseUrl, host, username, password, requestRetries, old(authData), old(sessionId), req, now, 0, false, log, r)
      ensures Plays(old(transport), log, transport)
      ensures (authData, sessionId) == SessionAfter(baseUrl, HasCredentials(), old(authData), old(sessionId), Others(log, req), now)
      ensures NoTokenRequests(log) ==> authData == old(authData) && sessionId == old(sessionId)
      ensures AnsweredBy(log, req.endpoint, r) && SentOnly(log, req)
      ensures |log| > 0 && log[0].request == req
      ensures AnsweredOk(log[0]) ==>
        && log == [log[0]] && r == Ok(log[0].event.reply)
        && authData == old(authData) && sessionId == old(sessionId)
      ensures r.Ok? <==> EndsAnswered(log, req.endpoint)
      ensures r.Ok? ==> log[|log| - 1] == Exchange(req, Answered(r.value))
      ensures r.Ok? && old(HasSession()) ==> HasSession()
      ensures forall i :: 0 <= i < |log| ==> log[i].request == req || IsTokenEndpoint(log[i].request.endpoint)
      ensures IsTokenEndpoint(req.endpoint) ==>
        && authData == old(authData) && sessionId == old(sessionId)
        && (forall i :: 0 <= i < |log| ==> log[i].request == req)
        && r == Classify(log[|log| - 1].event, Url(baseUrl, req.endpoint))
    {
      r, log := Attempt(req, now, 0, false);
      RunIsAnswered(baseUrl, host, username, password, requestRetries, old(authData), old(sessionId), req, now, log, r);
      NoTokenRequestsNoOthers(log, req);
    }

    /** `_make_request_w(tries, did_reauth)`: one attempt of `req`, then what
        `NextStep` decides: return or raise its outcome, retry, or
        re-authenticate and retry.  `log` is what the call puts on the
        wire. */
    method Attempt(req: Request, now: int, tries: int, didReauth: bool) returns (r: Result<Reply, Error>, ghost log: seq<Exchange>)
      modifies this
      decreases Rank(req), (if didReauth then 0 else 1), Budget(tries, requestRetries)
      ensures sent == old(sent) + log
      ensures RequestRun(baseUrl, host, username, password, requestRetries, old(authData), old(sessionId), req, now, tries, didReauth, log, r)
      ensures Plays(old(transport), log, transport)
      ensures (authData, sessionId) == SessionAfter(baseUrl, HasCredentials(), old(authData), old(sessionId), Others(log, req), now)
      ensures r.Ok? && old(HasSession()) ==> HasSession()
      ensures IsTokenEndpoint(req.endpoint) || didReauth ==> authData == old(authData) && sessionId == old(sessionId)
      ensures |log| > 0 && log[0].request == req
      ensures AnsweredOk(log[0]) ==> log == [log[0]] && r == Ok(log[0].event.reply)
    {
      ghost var start := sent;
      var outcome := Send(req);
      ghost var attempt := sent[|sent| - 1];
      ghost var script := transport;
      assert AnsweredOk(attempt) ==> outcome == Ok(attempt.event.reply);
      match NextStep(req.endpoint, requestRetries, tries, didReauth, outcome) {
        case Finish(result) =>
          r, log := result, [attempt];
          RunFinish(baseUrl, host, username, password, requestRetries, authData, sessionId, req, now, tries, didReauth, attempt, r);
        case Again =>
          ghost var retried;
          r, retried := Attempt(req, now, tries + 1, didReauth);
          log := [attempt] + retried;
          AppendAssociates(start, [attempt], retried);
          PlaysConcat(old(transport), [attempt], script, retried, transport);
          RunAgain(baseUrl, host, username, password, requestRetries, old(authData), old(sessionId), req, now, tries, didReauth,
            attempt, retried, r);
        case Reauthenticate(original) =>
          ghost var rest;
          r, rest := ReauthenticateAndRetry(req, now, tries, original, attempt);
          log := [attempt] + rest;
          AppendAssociates(start, [attempt], rest);
          PlaysConcat(old(transport), [attempt], script, rest, transport);
      }
    }

    /** The authentication-error branch of `_make_request_w`, after
        `attempt`: log out and in again, then attempt `req` once more; when
        the re-authentication fails, raise the original error if the failure
        was a client error.  `log` is what it puts on the wire after
        `attempt`. */
    method ReauthenticateAndRetry(req: Request, now: int, tries: int, original: Error, ghost attempt: Exchange)
      returns (r: Result<Reply, Error>, ghost log: seq<Exchange>)
      requires original.kind == AuthenticationError && !IsTokenEndpoint(req.endpoint)
      requires |sent| > 0 && sent[|sent| - 1] == attempt && attempt.request == req
      requires Classify(attempt.event, Url(baseUrl, req.endpoint)) == Err(original)
      modifies this
      decreases Rank(req), 0
      ensures sent == old(sent) + log
      ensures RequestRun(baseUrl, host, username, password, requestRetries, old(authData), old(sessionId), req, now, tries, false,
                         [attempt] + log, r)
      ensures Plays(old(transport), log, transport)
      ensures (authData, sessionId) == SessionAfter(baseUrl, HasCredentials(), old(authData), old(sessionId), Others([attempt] + log, req), now)
      ensures r.Ok? ==> HasSession()
    {
      ghost var start := sent;
      var outcome;
      ghost var others;
      outcome, others := Relogin(now);
      if outcome.ReauthFailed? {
        var e := outcome.error;
        r, log := Err(if e.kind.IsApiError() then original else e), others;
        RunReauthFailed(baseUrl, host, username, password, requestRetries, old(authData), old(sessionId), req, now, tries,
          attempt, original, others, e);
      } else {
        ghost var authData', sessionId' := authData, sessionId;
        ghost var script := transport;
        ghost var retried;
        r, retried := Attempt(req, now, tries + 1, true);
        log := others + retried;
        AppendAssociates(start, others, retried);
        PlaysConcat(old(transport), others, script, retried, transport);
        RunReauthOk(baseUrl, host, username, password, requestRetries, old(authData), old(sessionId), req, now, tries,
          attempt, original, others, authData', sessionId', retried, r);
      }
    }

    /** The re-authentication inside `make_request`: `logout()`, then
        `login()`, with `log` the exchanges the two put on the wire.  Its
        outcome is decided by those exchanges: a log-out without a session
        fails at once; otherwise the session is cleared and re-established by
        the password grant, which needs the credentials. */
    method Relogin(now: int) returns (outcome: Reauth, ghost log: seq<Exchange>)
      modifies this
      decreases 4
      ensures sent == old(sent) + log
      ensures forall i :: 0 <= i < |log| ==> IsTokenEndpoint(log[i].request.endpoint)
      ensures ReloginLog(baseUrl, host, old(authData), old(sessionId), username, password, log)
      ensures outcome == ReloginOutcome(baseUrl, old(authData), old(sessionId), HasCredentials(), log, now)
      ensures Plays(old(transport), log, transport)
      ensures (authData, sessionId) == SessionAfter(baseUrl, HasCredentials(), old(authData), old(sessionId), log, now)
      ensures !old(HasSession()) ==> authData == old(authData) && sessionId == old(sessionId)
      ensures old(HasSession()) && outcome.ReauthFailed? ==> authData.None?
      ensures outcome.ReauthOk? ==>
        && |log| > 0 && HasSession()
        && NewTokenResult(baseUrl, log[|log| - 1], now) == Ok(authData.value)
        && sessionId == SessionCookie(log[|log| - 1].event.reply)
    {
      var out;
      ghost var outLog;
      out, outLog := Logout(now);
      if out.Err? {
        return ReauthFailed(out.error), [];
      }
      ghost var script := transport;
      var login;
      ghost var grantLog;
      login, grantLog := LoginAfterLogout(now);
      log := outLog + grantLog;
      AppendAssociates(old(sent), outLog, grantLog);
      PlaysConcat(old(transport), outLog, script, grantLog, transport);
      ReloginLogOfParts(baseUrl, host, old(authData), old(sessionId), username, password, outLog, grantLog,
        authData, sessionId, login, now);
      ReloginOutcomeOfParts(baseUrl, host, old(authData), old(sessionId), username, password, outLog, grantLog,
        authData, sessionId, login, now);
      if login.Err? {
        return ReauthFailed(login.error), log;
      }
      ReloginSession(baseUrl, host, username, password, outLog, grantLog, authData, sessionId, login, now);
      outcome := ReauthOk;
    }

    /** The `login()` of a re-authentication, after `logout()` has cleared
        the token and the session id: without either there is nothing to
        refresh, so it is the password grant. */
    method LoginAfterLogout(now: int) returns (r: Result<LoginResult, Error>, ghost log: seq<Exchange>)
      requires authData.None? && sessionId.None?
      modifies this
      decreases 3, 1
      ensures sent == old(sent) + log
      ensures PasswordGrant(baseUrl, host, username, password, None, None, authData, sessionId, log, r, now)
      ensures Plays(old(transport), log, transport)
    {
      ghost var refreshLog;
      r, refreshLog, log := Login(now);
      assert refreshLog + log == log;
    }

    /** `update_session_id`: takes the session cookie of a response, and
        forgets the session when there is none. */
    method UpdateSessionId(reply: Reply) returns (r: Result<(), Error>)
      modifies this`sessionId
      ensures sessionId == SessionCookie(reply)
      ensures r.Ok? <==> sessionId.Some?
      ensures r.Err? ==> r.error == Error(ClientError, "session cookie not found")
    {
      sessionId := SessionCookie(reply);
      if sessionId.None? {
        r := Err(Error(ClientError, "session cookie not found"));
      } else {
        r := Ok(());
      }
    }

    /** `_get_new_token`: the password grant, with `log` its exchanges.  Its
        last exchange decides the result and the new session id. */
    method GetNewToken(user: string, pass: string, now: int) returns (r: Result<AuthTokenInfo, Error>, ghost log: seq<Exchange>)
      modifies this
      decreases 1
      ensures sent == old(sent) + log && |log| > 0
      ensures forall i :: 0 <= i < |log| ==> log[i].request == NewTokenRequest(baseUrl, host, user, pass)
      ensures r == NewTokenResult(baseUrl, log[|log| - 1], now)
      ensures authData == old(authData)
      ensures sessionId == GrantSession(log[|log| - 1], old(sessionId))
      ensures Plays(old(transport), log, transport)
    {
      var req := NewTokenRequest(baseUrl, host, user, pass);
      var response;
      response, log := MakeRequest(req, now);
      if response.Err? {
        return Err(response.error), log;
      }
      var updated := UpdateSessionId(response.value);
      if updated.Err? {
        return Err(updated.error), log;
      }
      r := AuthTokenInfoFromDict(response.value.body, now);
    }

    /** `_refresh_token`: the refresh grant, which needs the session cookie,
        with `log` its exchanges.  Its last exchange decides the result. */
    method RefreshToken(refreshToken: string, now: int) returns (r: Result<AuthTokenInfo, Error>, ghost log: seq<Exchange>)
      modifies this
      decreases 1
      ensures sent == old(sent) + log
      ensures authData == old(authData) && sessionId == old(sessionId)
      ensures sessionId.None? ==> r == Err(Error(ClientError, "session id not available")) && log == []
      ensures sessionId.Some? ==>
        && |log| > 0
        && (forall i :: 0 <= i < |log| ==> log[i].request == RefreshTokenRequest(baseUrl, host, sessionId.value, refreshToken))
        && r == RefreshResult(baseUrl, log[|log| - 1], now)
      ensures Plays(old(transport), log, transport)
    {
      var session := SessionHeaders(sessionId);
      if session.Err? {
        PlaysNothing(transport);
        return Err(session.error), [];
      }
      var req := RefreshTokenRequest(baseUrl, host, sessionId.value, refreshToken);
      var response;
      response, log := MakeRequest(req, now);
      if response.Err? {
        return Err(response.error), log;
      }
      r := AuthTokenInfoFromDict(response.value.body, now);
    }

    /** `login()`: keeps a token valid for more than five more minutes;
        otherwise, with a session, tries the refresh grant first, whose
        exchanges are `refreshLog`; otherwise, or when that fails, the
        password grant, whose exchanges are `grantLog`. */
    method Login(now: int) returns (r: Result<LoginResult, Error>, ghost refreshLog: seq<Exchange>, ghost grantLog: seq<Exchange>)
      modifies this
      decreases 3, 0
      ensures sent == old(sent) + refreshLog + grantLog
      ensures Plays(old(transport), refreshLog + grantLog, transport)
      ensures r == Ok(AlreadyLoggedIn) <==> StillValid(old(authData), now)
      ensures StillValid(old(authData), now) ==>
        authData == old(authData) && sessionId == old(sessionId) && refreshLog == [] && grantLog == []
      ensures !StillValid(old(authData), now) && !old(HasSession()) ==> refreshLog == []
      ensures !StillValid(old(authData), now) && old(HasSession()) ==>
        && |refreshLog| > 0
        && (forall i :: 0 <= i < |refreshLog| ==>
              refreshLog[i].request == RefreshTokenRequest(baseUrl, host, old(sessionId).value, old(authData).value.refreshToken))
        && (r == Ok(TokenRefreshed) <==> RefreshResult(baseUrl, refreshLog[|refreshLog| - 1], now).Ok?)
      ensures r == Ok(TokenRefreshed) ==>
        && |refreshLog| > 0 && grantLog == [] && sessionId == old(sessionId)
        && authData == Some(RefreshResult(baseUrl, refreshLog[|refreshLog| - 1], now).value)
      ensures !StillValid(old(authData), now) && r != Ok(TokenRefreshed) ==>
        PasswordGrant(baseUrl, host, username, password, old(authData), old(sessionId), authData, sessionId, grantLog, r, now)
    {
      refreshLog, grantLog := [], [];
      if StillValid(authData, now) {
        PlaysNothing(transport);
        return Ok(AlreadyLoggedIn), refreshLog, grantLog;
      }
      var refreshed;
      refreshed, refreshLog := TryRefresh(now);
      assert refreshLog + [] == refreshLog;
      if refreshed.Some? {
        return Ok(TokenRefreshed), refreshLog, grantLog;
      }
      // no session, or a refresh that failed with a client error: a new token
      ghost var script := transport;
      r, grantLog := LoginWithCredentials(now);
      PlaysConcat(old(transport), refreshLog, script, grantLog, transport);
    }

    /** The refresh grant `login()` tries first, when it has a session:
        `refreshed` is the new token, or nothing when there is no session or
        the grant failed, which `login()` swallows; `refreshLog` is its
        exchanges. */
    method TryRefresh(now: int) returns (refreshed: Option<AuthTokenInfo>, ghost refreshLog: seq<Exchange>)
      modifies this
      decreases 2
      ensures sent == old(sent) + refreshLog
      ensures Plays(old(transport), refreshLog, transport)
      ensures sessionId == old(sessionId)
      ensures authData == if refreshed.Some? then refreshed else old(authData)
      ensures !old(HasSession()) ==> refreshed.None? && refreshLog == []
      ensures old(HasSession()) ==>
        && |refreshLog| > 0
        && (forall i :: 0 <= i < |refreshLog| ==>
              refreshLog[i].request == RefreshTokenRequest(baseUrl, host, old(sessionId).value, old(authData).value.refreshToken))
        && (refreshed.Some? <==> RefreshResult(baseUrl, refreshLog[|refreshLog| - 1], now).Ok?)
        && (refreshed.Some? ==> refreshed.value == RefreshResult(baseUrl, refreshLog[|refreshLog| - 1], now).value)
    {
      if sessionId.None? || authData.None? {
        PlaysNothing(transport);
        return None, [];
      }
      var result;
      result, refreshLog := RefreshToken(authData.value.refreshToken, now);
      if result.Err? {
        return None, refreshLog;
      }
      authData := Some(result.value);
      refreshed := Some(result.value);
    }

    /** The last resort of `login()`: a new token for the configured
        credentials, which must both be present; `log` is its exchanges. */
    method LoginWithCredentials(now: int) returns (r: Result<LoginResult, Error>, ghost log: seq<Exchange>)
      modifies this
      decreases 2
      ensures sent == old(sent) + log
      ensures PasswordGrant(baseUrl, host, username, password, old(authData), old(sessionId), authData, sessionId, log, r, now)
      ensures Plays(old(transport), log, transport)
    {
      if username.None? || password.None? {
        PlaysNothing(transport);
        return Err(Error(ValueError, "username and password are required for login")), [];
      }
      var token;
      token, log := GetNewToken(username.value, password.value, now);
      if token.Err? {
        return Err(token.error), log;
      }
      authData := Some(token.value);
      r := Ok(NewToken);
    }

    /** `logout()`: deletes the refresh token on the appliance, ignoring any
        failure of that request, and forgets the session; `log` is the
        deletion's exchanges. */
    method Logout(now: int) returns (r: Result<(), Error>, ghost log: seq<Exchange>)
      modifies this
      decreases 1
      ensures sent == old(sent) + log
      ensures r.Ok? <==> old(HasSession())
      ensures r.Err? ==> r.error == Error(ClientError, "session not available")
                         && authData == old(authData) && sessionId == old(sessionId) && log == []
      ensures r.Ok? ==> authData.None? && sessionId.None? && |log| > 0
      ensures r.Ok? ==> forall i :: 0 <= i < |log| ==> log[i].request == LogoutRequest(old(authData).value.refreshToken)
      ensures Plays(old(transport), log, transport)
    {
      var missing := RequireSession(authData, sessionId);
      if missing.Some? {
        PlaysNothing(transport);
        return Err(missing.value), [];
      }
      var req := LogoutRequest(authData.value.refreshToken);
      LogoutEndpointIsTokenEndpoint(authData.value.refreshToken);
      var ignored;
      ignored, log := MakeRequest(req, now);
      authData := None;
      sessionId := None;
      r := Ok(());
    }

    /** `_get_navigation_int(parent_id)`: the components listed by the
        navigation response, each parsed into a new `ComponentInfo`.  `log`
        is the request's exchanges and `response` what `make_request` made
        of them. */
    method Navigation(parentId: Option<string>, now: int)
      returns (r: Result<seq<ComponentInfo>, Error>, ghost log: seq<Exchange>, ghost response: Result<Reply, Error>)
      modifies this
      ensures sent == old(sent) + log
      ensures Plays(old(transport), log, transport)
      ensures NoTokenRequests(log) ==> authData == old(authData) && sessionId == old(sessionId)
      ensures !old(HasSession()) ==> log == [] && response == Err(Error(ClientError, "session not available"))
      ensures old(HasSession()) ==>
        && SentOnly(log, NavigationRequest(AuthHeaders(baseUrl, host, old(authData), old(sessionId)).value, parentId))
        && AnsweredBy(log, NavigationEndpoint(parentId), response)
      ensures r.Ok? <==> NavigationOf(response).Ok?
      ensures r.Err? ==> r.error == NavigationOf(response).error
      ensures r.Ok? ==>
        && |r.value| == |NavigationOf(response).value|
        && (forall i :: 0 <= i < |r.value| ==> fresh(r.value[i]) && r.value[i].View() == NavigationOf(response).value[i])
        && (forall i, j :: 0 <= i < j < |r.value| ==> r.value[i] != r.value[j])
        && HasSession()
    {
      var headers := AuthHeaders(baseUrl, host, authData, sessionId);
      if headers.Err? {
        PlaysNothing(transport);
        return Err(headers.error), [], Err(headers.error);
      }
      var req := NavigationRequest(headers.value, parentId);
      var reply;
      reply, log := MakeRequest(req, now);
      response := reply;
      if reply.Err? {
        return Err(reply.error), log, response;
      }
      var body := reply.value.body;
      if !body.JList? {
        return Err(Error(ClientError, "received invalid response: not a list")), log, response;
      }
      r := ComponentsFromList(body.items);
    }

    /** `_add_extra_info(component)`: fetches the device information of a
        component and adds it.  `log` is the request's exchanges and
        `response` what `make_request` made of them. */
    method AddExtraInfo(component: ComponentInfo, now: int)
      returns (r: Result<(), Error>, ghost log: seq<Exchange>, ghost response: Result<Reply, Error>)
      modifies this, component`serialNumber, component`firmwareVersion
      ensures sent == old(sent) + log
      ensures Plays(old(transport), log, transport)
      ensures NoTokenRequests(log) ==> authData == old(authData) && sessionId == old(sessionId)
      ensures !old(HasSession()) ==>
        && log == [] && response == Err(Error(ClientError, "session not available"))
        && authData == old(authData) && sessionId == old(sessionId)
      ensures old(HasSession()) ==>
        && RequestRun(baseUrl, host, username, password, requestRetries, old(authData), old(sessionId),
             DeviceInfoRequest(AuthHeaders(baseUrl, host, old(authData), old(sessionId)).value, component.componentId),
             now, 0, false, log, response)
        && AnsweredBy(log, DeviceInfoEndpoint(component.componentId), response)
      ensures r.Ok? <==> response.Ok?
      ensures r.Err? ==> r.error == response.error && component.View() == old(component.View())
      ensures r.Ok? ==> component.View() == WithExtra(old(component.View()), response.value.body) && HasSession()
    {
      var headers := AuthHeaders(baseUrl, host, authData, sessionId);
      if headers.Err? {
        PlaysNothing(transport);
        return Err(headers.error), [], Err(headers.error);
      }
      var req := DeviceInfoRequest(headers.value, component.componentId);
      var reply;
      reply, log := MakeRequest(req, now);
      response := reply;
      if reply.Err? {
        return Err(reply.error), log, response;
      }
      component.AddExtra(reply.value.body);
      r := Ok(());
    }

    /** `get_all_components()`: the first top-level component, which must be
        a `Plant`, followed by its children; every component that is not a
        `Plant` gets its device information added.  The ghost results are
        the exchanges and responses of the top-level navigation, of the
        navigation below the root, and of the device-information requests,
        with `extras` the answers those requests got. */
    method GetAllComponents(now: int)
      returns (r: Result<seq<ComponentInfo>, Error>,
               ghost rootLog: seq<Exchange>, ghost rootResponse: Result<Reply, Error>,
               ghost childLog: seq<Exchange>, ghost childResponse: Result<Reply, Error>,
               ghost extras: seq<Json>, ghost infoLogs: seq<seq<Exchange>>, ghost infoResponses: seq<Result<Reply, Error>>)
      modifies this
      ensures sent == old(sent) + rootLog + childLog + Flatten(infoLogs)
      ensures Plays(old(transport), rootLog + childLog + Flatten(infoLogs), transport)
      ensures NoTokenRequests(rootLog + childLog + Flatten(infoLogs)) ==> authData == old(authData) && sessionId == old(sessionId)
      // the top-level navigation
      ensures !old(HasSession()) ==> rootLog == [] && rootResponse == Err(Error(ClientError, "session not available"))
      ensures old(HasSession()) ==>
        && SentOnly(rootLog, NavigationRequest(AuthHeaders(baseUrl, host, old(authData), old(sessionId)).value, None))
        && AnsweredBy(rootLog, NavigationEndpoint(None), rootResponse)
      ensures RootOf(rootResponse).Err? ==> r == Err(RootOf(rootResponse).error) && childLog == [] && infoLogs == []
      // the navigation below the root
      ensures RootOf(rootResponse).Ok? ==>
        AnsweredBy(childLog, NavigationEndpoint(Some(RootOf(rootResponse).value.componentId)), childResponse)
      ensures RootOf(rootResponse).Ok? && NavigationOf(childResponse).Err? ==>
        r == Err(NavigationOf(childResponse).error) && infoLogs == []
      // the device information, in order
      ensures RootOf(rootResponse).Ok? && NavigationOf(childResponse).Ok? ==>
        var views := [RootOf(rootResponse).value] + NavigationOf(childResponse).value;
        && ExtraInfoCalls(views, extras, infoLogs, infoResponses)
        && (r.Ok? <==> |extras| == |views|)
        && (r.Err? ==> |infoLogs| == |extras| + 1 && r.error == infoResponses[|extras|].error)
        && (r.Ok? ==>
              && HoldEnriched(r.value, views, extras)
              && (forall c :: c in r.value ==> fresh(c)))
    {
      childLog, childResponse, extras, infoLogs, infoResponses := [], Err(Error(ClientError, "not requested")), [], [], [];
      var root;
      root, rootLog, rootResponse := RootComponent(now);
      if root.Err? {
        assert old(sent) + rootLog + [] + Flatten(infoLogs) == old(sent) + rootLog;
        assert rootLog + [] + Flatten(infoLogs) == rootLog;
        return Err(root.error), rootLog, rootResponse, childLog, childResponse, extras, infoLogs, infoResponses;
      }
      ghost var script := transport;
      r, childLog, childResponse, extras, infoLogs, infoResponses := ComponentsFromRoot(root.value, RootOf(rootResponse).value, now);
      AppendAssociates(old(sent) + rootLog, childLog, Flatten(infoLogs));
      AppendAssociates(rootLog, childLog, Flatten(infoLogs));
      PlaysConcat(old(transport), rootLog, script, childLog + Flatten(infoLogs), transport);
      NoTokenRequestsOfParts(rootLog, childLog + Flatten(infoLogs));
      if r.Ok? {
        forall c | c in r.value
          ensures fresh(c)
        {
          if c != root.value {
            assert fresh(c);
          }
        }
      }
    }

    /** The second half of `get_all_components`, from the root component
        `root`, which holds `rootView`, on: the navigation below it, and the
        device information of the root followed by its children.  The
        ghost results are as in `GetAllComponents`. */
    method ComponentsFromRoot(root: ComponentInfo, ghost rootView: ComponentView, now: int)
      returns (r: Result<seq<ComponentInfo>, Error>,
               ghost childLog: seq<Exchange>, ghost childResponse: Result<Reply, Error>,
               ghost extras: seq<Json>, ghost infoLogs: seq<seq<Exchange>>, ghost infoResponses: seq<Result<Reply, Error>>)
      requires HasSession() && root.View() == rootView
      modifies this, root
      ensures sent == old(sent) + (childLog + Flatten(infoLogs))
      ensures Plays(old(transport), childLog + Flatten(infoLogs), transport)
      ensures NoTokenRequests(childLog + Flatten(infoLogs)) ==> authData == old(authData) && sessionId == old(sessionId)
      ensures SentOnly(childLog, NavigationRequest(AuthHeaders(baseUrl, host, old(authData), old(sessionId)).value, Some(rootView.componentId)))
      ensures AnsweredBy(childLog, NavigationEndpoint(Some(rootView.componentId)), childResponse)
      ensures NavigationOf(childResponse).Err? ==> r == Err(NavigationOf(childResponse).error) && infoLogs == []
      ensures NavigationOf(childResponse).Ok? ==>
        var views := [rootView] + NavigationOf(childResponse).value;
        && ExtraInfoCalls(views, extras, infoLogs, infoResponses)
        && (r.Ok? <==> |extras| == |views|)
        && (r.Err? ==> |infoLogs| == |extras| + 1 && r.error == infoResponses[|extras|].error)
        && (r.Ok? ==>
              && HoldEnriched(r.value, views, extras) && r.value[0] == root
              && (forall c :: c in r.value ==> c == root || fresh(c)))
    {
      extras, infoLogs, infoResponses := [], [], [];
      var below;
      below, childLog, childResponse := Navigation(Some(root.componentId), now);
      if below.Err? {
        assert childLog + Flatten(infoLogs) == childLog;
        return Err(below.error), childLog, childResponse, extras, infoLogs, infoResponses;
      }
      forall i | 0 <= i < |below.value|
        ensures below.value[i] != root
      {
        assert fresh(below.value[i]);
      }
      ghost var script := transport;
      r, extras, infoLogs, infoResponses := AddExtraInfoRootAndChildren(root, below.value, rootView, NavigationOf(childResponse).value, now);
      AppendAssociates(old(sent), childLog, Flatten(infoLogs));
      PlaysConcat(old(transport), childLog, script, Flatten(infoLogs), transport);
      NoTokenRequestsOfParts(childLog, Flatten(infoLogs));
      if r.Ok? {
        forall c | c in r.value && c != root
          ensures fresh(c)
        {
          assert c in below.value;
        }
      }
    }

    /** The list `get_all_components` builds, the root followed by its
        children, and the device information of each of its components in
        that order.  `rootView` and `childViews` are what they hold
        before. */
    method AddExtraInfoRootAndChildren(root: ComponentInfo, children: seq<ComponentInfo>,
                                       ghost rootView: ComponentView, ghost childViews: seq<ComponentView>, now: int)
      returns (r: Result<seq<ComponentInfo>, Error>, ghost extras: seq<Json>, ghost logs: seq<seq<Exchange>>,
               ghost responses: seq<Result<Reply, Error>>)
      requires HasSession() && root.View() == rootView && |children| == |childViews|
      requires forall i :: 0 <= i < |children| ==> children[i].View() == childViews[i] && children[i] != root
      requires forall i, j :: 0 <= i < j < |children| ==> children[i] != children[j]
      modifies this, root, children
      ensures sent == old(sent) + Flatten(logs)
      ensures Plays(old(transport), Flatten(logs), transport)
      ensures NoTokenRequests(Flatten(logs)) ==> authData == old(authData) && sessionId == old(sessionId)
      ensures ExtraInfoCalls([rootView] + childViews, extras, logs, responses)
      ensures r.Ok? <==> |extras| == |children| + 1
      ensures r.Ok? ==> r.value == [root] + children && HoldEnriched(r.value, [rootView] + childViews, extras)
      ensures r.Err? ==> |logs| == |extras| + 1 && r.error == responses[|extras|].error
      ensures forall k :: 0 <= k < |extras| ==> ([root] + children)[k].View() == Enriched(([rootView] + childViews)[k], extras[k])
      ensures forall k :: |extras| <= k <= |children| ==> ([root] + children)[k].View() == ([rootView] + childViews)[k]
      ensures forall k, l :: 0 <= k < l <= |children| ==> ([root] + children)[k] != ([root] + children)[l]
    {
      RootThenChildren(root, children, rootView, childViews);
      var added;
      added, extras, logs, responses := AddExtraInfoAll([root] + children, [rootView] + childViews, now);
      if added.Err? {
        return Err(added.error), extras, logs, responses;
      }
      r := Ok([root] + children);
    }

    /** The first half of `get_all_components`: the first component of the
        top-level navigation, which must be a `Plant`.  `log` and `response`
        are that navigation's exchanges and response. */
    method RootComponent(now: int)
      returns (r: Result<ComponentInfo, Error>, ghost log: seq<Exchange>, ghost response: Result<Reply, Error>)
      modifies this
      ensures sent == old(sent) + log
      ensures Plays(old(transport), log, transport)
      ensures NoTokenRequests(log) ==> authData == old(authData) && sessionId == old(sessionId)
      ensures !old(HasSession()) ==> log == [] && response == Err(Error(ClientError, "session not available"))
      ensures old(HasSession()) ==>
        && SentOnly(log, NavigationRequest(AuthHeaders(baseUrl, host, old(authData), old(sessionId)).value, None))
        && AnsweredBy(log, NavigationEndpoint(None), response)
      ensures r.Ok? <==> RootOf(response).Ok?
      ensures r.Err? ==> r.error == RootOf(response).error
      ensures r.Ok? ==> fresh(r.value) && r.value.View() == RootOf(response).value && HasSession()
    {
      var rootList;
      rootList, log, response := Navigation(None, now);
      if rootList.Err? {
        return Err(rootList.error), log, response;
      }
      if |rootList.value| == 0 {
        return Err(Error(ClientError, "received invalid response: no root component")), log, response;
      }
      var root := rootList.value[0];
      if root.componentType != "Plant" {
        return Err(Error(ClientError, "received invalid response: root componentType is not 'Plant' but '"
                                      + root.componentType + "'")), log, response;
      }
      r := Ok(root);
    }

    /** The loop of `get_all_components` over the discovered components:
        device information for every one that is not a `Plant`, in order,
        stopping at the first request that fails.  `views` is what the
        components hold before. */
    method AddExtraInfoAll(all: seq<ComponentInfo>, ghost views: seq<ComponentView>, now: int)
      returns (r: Result<(), Error>, ghost extras: seq<Json>, ghost logs: seq<seq<Exchange>>, ghost responses: seq<Result<Reply, Error>>)
      requires |all| == |views| && HasSession()
      requires forall k, l :: 0 <= k < l < |all| ==> all[k] != all[l]
      requires forall k :: 0 <= k < |all| ==> all[k].View() == views[k]
      modifies this, all
      ensures sent == old(sent) + Flatten(logs)
      ensures Plays(old(transport), Flatten(logs), transport)
      ensures NoTokenRequests(Flatten(logs)) ==> authData == old(authData) && sessionId == old(sessionId)
      ensures ExtraInfoCalls(views, extras, logs, responses)
      ensures r.Ok? <==> |extras| == |all|
      ensures r.Err? ==> |logs| == |extras| + 1 && r.error == responses[|extras|].error
      ensures forall k :: 0 <= k < |extras| ==> all[k].View() == Enriched(views[k], extras[k])
      ensures forall k :: |extras| <= k < |all| ==> all[k].View() == views[k]
    {
      extras, logs, responses := [], [], [];
      PlaysNothing(transport);
      var i := 0;
      while i < |all|
        invariant 0 <= i <= |all| && |extras| == i && |logs| == i
        invariant sent == old(sent) + Flatten(logs) && HasSession()
        invariant Plays(old(transport), Flatten(logs), transport)
        invariant NoTokenRequests(Flatten(logs)) ==> authData == old(authData) && sessionId == old(sessionId)
        invariant ExtraInfoCalls(views, extras, logs, responses)
        invariant forall k :: 0 <= k < |all| ==> all[k].View() == if k < i then Enriched(views[k], extras[k]) else views[k]
      {
        var added;
        ghost var extra, log, response;
        ghost var script := transport;
        added, extra, log, response := AddExtraInfoUnlessPlant(all[i], now);
        LogsGrow(old(sent), old(transport), logs, script, log, transport);
        if added.Err? {
          ExtraInfoCallsStop(views, extras, logs, responses, log, response);
          return Err(added.error), extras, logs + [log], responses + [response];
        }
        ExtraInfoCallsStep(views, extras, logs, responses, extra, log, response);
        forall k | 0 <= k < |all|
          ensures all[k].View() == if k <= i then Enriched(views[k], (extras + [extra])[k]) else views[k]
        {
          if k != i {
            assert all[k] != all[i];
          }
        }
        extras, logs, responses := extras + [extra], logs + [log], responses + [response];
        i := i + 1;
      }
      r := Ok(());
    }

    /** One round of the loop over the components: the device information
        of `component`, unless it is a `Plant`, which is left as it is.
        `extra` is the answer that was added. */
    method AddExtraInfoUnlessPlant(component: ComponentInfo, now: int)
      returns (r: Result<(), Error>, ghost extra: Json, ghost log: seq<Exchange>, ghost response: Result<Reply, Error>)
      requires HasSession()
      modifies this, component`serialNumber, component`firmwareVersion
      ensures sent == old(sent) + log
      ensures Plays(old(transport), log, transport)
      ensures NoTokenRequests(log) ==> authData == old(authData) && sessionId == old(sessionId)
      ensures component.componentType == "Plant" ==> r.Ok? && log == []
      ensures component.componentType != "Plant" ==>
        && AnsweredBy(log, DeviceInfoEndpoint(component.componentId), response)
        && (r.Ok? <==> response.Ok?)
        && (r.Ok? ==> extra == response.value.body)
        && (r.Err? ==> r.error == response.error)
      ensures r.Ok? ==> component.View() == Enriched(old(component.View()), extra) && HasSession()
      ensures r.Err? ==> component.View() == old(component.View())
    {
      extra, log, response := JNull, [], Err(Error(ClientError, "not requested"));
      if component.componentType != "Plant" {
        r, log, response := AddExtraInfo(component, now);
        if r.Ok? {
          extra := response.value.body;
        }
      } else {
        PlaysNothing(transport);
        r := Ok(());
      }
    }

    /** `get_live_measurements(query)`: the channel values of the requested
        channels.  `log` is the request's exchanges and `response` what
        `make_request` made of them; an answer is parsed by
        `_parse_measurements`. */
    method GetLiveMeasurements(query: seq<LiveMeasurementQueryItem>, now: int)
      returns (r: Result<seq<ChannelValues>, Error>, ghost log: seq<Exchange>, ghost response: Result<Reply, Error>)
      modifies this
      ensures sent == old(sent) + log
      ensures Plays(old(transport), log, transport)
      ensures NoTokenRequests(log) ==> authData == old(authData) && sessionId == old(sessionId)
      ensures !old(HasSession()) ==> log == [] && response == Err(Error(ClientError, "session not available"))
      ensures old(HasSession()) ==>
        RequestRun(baseUrl, host, username, password, requestRetries, old(authData), old(sessionId),
          MeasurementsRequest(AuthHeaders(baseUrl, host, old(authData), old(sessionId)).value, QueryPayload(query)),
          now, 0, false, log, response)
      ensures response.Err? ==> r == Err(response.error)
      ensures response.Ok? ==> r == ParseMeasurements(response.value.body)
    {
      var headers := AuthHeaders(baseUrl, host, authData, sessionId);
      if headers.Err? {
        PlaysNothing(transport);
        return Err(headers.error), [], Err(headers.error);
      }
      var req := MeasurementsRequest(headers.value, QueryPayload(query));
      var reply;
      reply, log := MakeRequest(req, now);
      response := reply;
      if reply.Err? {
        return Err(reply.error), log, response;
      }
      r := ParseMeasurements(reply.value.body);
    }

    /** `get_all_live_measurements(component_ids)`: the channel values of
        every channel of the requested components. */
    method GetAllLiveMeasurements(componentIds: seq<string>, now: int)
      returns (r: Result<seq<ChannelValues>, Error>, ghost log: seq<Exchange>, ghost response: Result<Reply, Error>)
      modifies this
      ensures sent == old(sent) + log
      ensures Plays(old(transport), log, transport)
      ensures NoTokenRequests(log) ==> authData == old(authData) && sessionId == old(sessionId)
      ensures !old(HasSession()) ==> log == [] && response == Err(Error(ClientError, "session not available"))
      ensures old(HasSession()) ==>
        RequestRun(baseUrl, host, username, password, requestRetries, old(authData), old(sessionId),
          MeasurementsRequest(AuthHeaders(baseUrl, host, old(authData), old(sessionId)).value, ComponentPayload(componentIds)),
          now, 0, false, log, response)
      ensures response.Err? ==> r == Err(response.error)
      ensures response.Ok? ==> r == ParseMeasurements(response.value.body)
    {
      var headers := AuthHeaders(baseUrl, host, authData, sessionId);
      if headers.Err? {
        PlaysNothing(transport);
        return Err(headers.error), [], Err(headers.error);
      }
      var req := MeasurementsRequest(headers.value, ComponentPayload(componentIds));
      var reply;
      reply, log := MakeRequest(req, now);
      response := reply;
      if reply.Err? {
        return Err(reply.error), log, response;
      }
      r := ParseMeasurements(reply.value.body);
    }
  }
}
