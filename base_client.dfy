/** The value-level half of the base client: the API base URL, the three
    header sets, the session check, and how one HTTP exchange is turned into
    a response or one of the client's exceptions. */
module BaseClient {

  import opened Wrappers
  import opened Json
  import opened Text
  import opened Model

  /** `http[s]://{host}/api/v1` */
  function BaseUrl(host: string, useSsl: bool): (url: string)
    ensures url == (if useSsl then "https://" else "http://") + host + "/api/v1"
    ensures StartsWith(url, "https://") <==> useSsl
    ensures EndsWith(url, "/api/v1")
  {
    var prefix := if useSsl then "https://" else "http://";
    var url := prefix + host + "/api/v1";
    assert url == prefix + (host + "/api/v1");
    StartsWithAppend(prefix, host + "/api/v1");
    EndsWithAppend(prefix + host, "/api/v1");
    assert !useSsl ==> url[4] == ':';
    url
  }

  /** The full URL of an endpoint. */
  function Url(baseUrl: string, endpoint: string): string
  {
    baseUrl + "/" + endpoint
  }

  type Headers = map<string, string>

  /** `_origin_headers` */
  function OriginHeaders(baseUrl: string, host: string): (h: Headers)
    ensures h.Keys == {"Origin", "Host"}
    ensures h["Origin"] == baseUrl && h["Host"] == host
  {
    map["Origin" := baseUrl, "Host" := host]
  }

  /** `_session_headers`: the session cookie, or an error without a session. */
  function SessionHeaders(sessionId: Option<string>): (r: Result<Headers, Error>)
    ensures r.Ok? <==> sessionId.Some?
    ensures r.Ok? ==> r.value.Keys == {"Cookie"} && r.value["Cookie"] == "JSESSIONID=" + sessionId.value
    ensures r.Err? ==> r.error == Error(ClientError, "session id not available")
  {
    match sessionId
    case None => Err(Error(ClientError, "session id not available"))
    case Some(id) => Ok(map["Cookie" := "JSESSIONID=" + id])
  }

  /** `require_session()`: there is a session only with both a token and a
      session id.  (The token's access token is always a string here, so the
      source's third test never fires.) */
  function RequireSession(authData: Option<AuthTokenInfo>, sessionId: Option<string>): (r: Option<Error>)
    ensures r.None? <==> authData.Some? && sessionId.Some?
    ensures r.Some? ==> r.value == Error(ClientError, "session not available")
  {
    if authData.None? || sessionId.None? then Some(Error(ClientError, "session not available")) else None
  }

  /** `_auth_headers`: origin and session headers plus the bearer token. */
  function AuthHeaders(baseUrl: string, host: string, authData: Option<AuthTokenInfo>, sessionId: Option<string>): (r: Result<Headers, Error>)
    ensures r.Ok? <==> authData.Some? && sessionId.Some?
    ensures r.Err? ==> r.error == Error(ClientError, "session not available")
    ensures r.Ok? ==>
      && r.value.Keys == {"Origin", "Host", "Cookie", "Authorization"}
      && r.value["Origin"] == baseUrl && r.value["Host"] == host
      && r.value["Cookie"] == "JSESSIONID=" + sessionId.value
      && r.value["Authorization"] == "Bearer " + authData.value.accessToken
  {
    match RequireSession(authData, sessionId)
    case Some(e) => Err(e)
    case None =>
      Ok(OriginHeaders(baseUrl, host) + SessionHeaders(sessionId).value
         + map["Authorization" := "Bearer " + authData.value.accessToken])
  }

  // ---------------------------------------------------------------------
  // Transport
  // ---------------------------------------------------------------------

  /** An HTTP response: status, decoded JSON body and the cookies it set. */
  datatype Reply = Reply(status: int, body: Json, cookies: map<string, string>)

  /** What happened to one request on the wire. */
  datatype TransportEvent =
    | Answered(reply: Reply)
    | TimedOut          // the request timeout elapsed
    | ConnectionFailed  // an aiohttp client error or a DNS failure
    | Crashed           // any other exception

  /** The session cookie a response set, if any. */
  function SessionCookie(reply: Reply): Option<string>
  {
    if "JSESSIONID" in reply.cookies then Some(reply.cookies["JSESSIONID"]) else None
  }

  /** The base `make_request`: a response with a status below 400, or the
      client exception the exchange turns into. */
  function Classify(event: TransportEvent, url: string): (r: Result<Reply, Error>)
    ensures r.Ok? <==> event.Answered? && event.reply.status < 400
    ensures r.Ok? ==> r.value == event.reply
    ensures r.Err? ==> r.error.kind.IsApiError()
    ensures r.Err? ==> (r.error.kind == AuthenticationError <==> event.Answered? && event.reply.status in {401, 403})
    ensures r.Err? ==> (r.error.kind == CommunicationError <==>
                          event.TimedOut? || event.ConnectionFailed? || (event.Answered? && event.reply.status !in {401, 403}))
    ensures r.Err? ==> (r.error.kind == ClientError <==> event.Crashed?)
    ensures event.Crashed? ==> r == Err(Error(ClientError, "error fetching " + url))
  {
    match event
    case Answered(reply) =>
      if reply.status == 401 || reply.status == 403 then Err(Error(AuthenticationError, "Invalid credentials"))
      // raise_for_status: an aiohttp.ClientResponseError, caught as a communication error
      else if reply.status >= 400 then Err(Error(CommunicationError, "communication error fetching " + url))
      else Ok(reply)
    case TimedOut => Err(Error(CommunicationError, "timeout fetching " + url))
    case ConnectionFailed => Err(Error(CommunicationError, "communication error fetching " + url))
    case Crashed => Err(Error(ClientError, "error fetching " + url))
  }

  /** The arguments of one `make_request` call; `data` goes out as a JSON
      payload when `asJson` holds and as form data otherwise. */
  datatype Request = Request(verb: string, endpoint: string, data: Option<Json>, headers: Headers, asJson: bool)

  /** One request put on the wire and what came back. */
  datatype Exchange = Exchange(request: Request, event: TransportEvent)

  /** The classified outcomes of the exchanges of `log` that carried `req`, in
      order. */
  function Outcomes(baseUrl: string, log: seq<Exchange>, req: Request): (r: seq<Result<Reply, Error>>)
    ensures |r| <= |log|
    decreases |log|
  {
    if |log| == 0 then []
    else
      var first := if log[0].request == req then [Classify(log[0].event, Url(baseUrl, req.endpoint))] else [];
      first + Outcomes(baseUrl, log[1..], req)
  }

  /** Outcomes of consecutive stretches of the log concatenate. */
  lemma {:induction false} OutcomesConcat(baseUrl: string, a: seq<Exchange>, b: seq<Exchange>, req: Request)
    ensures Outcomes(baseUrl, a + b, req) == Outcomes(baseUrl, a, req) + Outcomes(baseUrl, b, req)
    decreases |a|
  {
    if |a| == 0 {
      assert a + b == b;
    } else {
      assert (a + b)[1..] == a[1..] + b;
      OutcomesConcat(baseUrl, a[1..], b, req);
    }
  }

  /** The exchanges of `log` that carried some other request than `req`, in
      order. */
  function Others(log: seq<Exchange>, req: Request): (r: seq<Exchange>)
    ensures |r| <= |log|
    decreases |log|
  {
    if |log| == 0 then []
    else (if log[0].request != req then [log[0]] else []) + Others(log[1..], req)
  }

  /** The other requests of consecutive stretches of the log concatenate. */
  lemma {:induction false} OthersConcat(a: seq<Exchange>, b: seq<Exchange>, req: Request)
    ensures Others(a + b, req) == Others(a, req) + Others(b, req)
    decreases |a|
  {
    if |a| == 0 {
      assert a + b == b;
    } else {
      assert (a + b)[1..] == a[1..] + b;
      OthersConcat(a[1..], b, req);
    }
  }

  /** A stretch that carried only `req` has no other requests, and one that
      never carried it consists of other requests only. */
  lemma {:induction false} OthersOfOneRequest(log: seq<Exchange>, req: Request)
    ensures (forall i :: 0 <= i < |log| ==> log[i].request == req) ==> Others(log, req) == []
    ensures (forall i :: 0 <= i < |log| ==> log[i].request != req) ==> Others(log, req) == log
    decreases |log|
  {
    if |log| > 0 {
      OthersOfOneRequest(log[1..], req);
      assert log == [log[0]] + log[1..];
    }
  }

  /** Exchanges for other requests do not contribute outcomes. */
  lemma {:induction false} OutcomesOfOthers(baseUrl: string, log: seq<Exchange>, req: Request)
    requires forall i :: 0 <= i < |log| ==> log[i].request != req
    ensures Outcomes(baseUrl, log, req) == []
    decreases |log|
  {
    if |log| > 0 {
      OutcomesOfOthers(baseUrl, log[1..], req);
    }
  }
  /** What the wire does with the `i`-th of the next requests, given the
      script `transport`: the scripted event, or a timeout once the script
      is used up. */
  function ScriptedEvent(transport: seq<TransportEvent>, i: nat): TransportEvent
  {
    if i < |transport| then transport[i] else TimedOut
  }

  /** What is left of the script `transport` after `n` more requests. */
  function ScriptAfter(transport: seq<TransportEvent>, n: nat): (rest: seq<TransportEvent>)
    ensures |rest| == if n <= |transport| then |transport| - n else 0
  {
    if n <= |transport| then transport[n..] else []
  }

  /** The exchanges `log` got the next events of the script `before`, in
      order, and `after` is what is left of it. */
  ghost predicate Plays(before: seq<TransportEvent>, log: seq<Exchange>, after: seq<TransportEvent>)
  {
    && after == ScriptAfter(before, |log|)
    && forall i :: 0 <= i < |log| ==> log[i].event == ScriptedEvent(before, i)
  }

  /** Sending nothing leaves the script as it is. */
  lemma PlaysNothing(transport: seq<TransportEvent>)
    ensures Plays(transport, [], transport)
  {
    assert transport[0..] == transport;
  }

  /** Consecutive stretches of the log play consecutive stretches of the
      script. */
  lemma PlaysConcat(t0: seq<TransportEvent>, a: seq<Exchange>, t1: seq<TransportEvent>, b: seq<Exchange>, t2: seq<TransportEvent>)
    requires Plays(t0, a, t1) && Plays(t1, b, t2)
    ensures Plays(t0, a + b, t2)
  {
    forall i | |a| <= i < |a + b|
      ensures (a + b)[i].event == ScriptedEvent(t0, i)
    {
      assert (a + b)[i] == b[i - |a|];
      if |a| <= |t0| {
        assert t1 == t0[|a|..];
      }
    }
    if |a| <= |t0| && |b| <= |t1| {
      assert t1[|b|..] == t0[|a| + |b|..];
    }
  }

  /** While the script lasts, the log's events are the head of it and the
      rest is what is left; past its end every further request timed
      out. */
  lemma PlaysSplitsScript(before: seq<TransportEvent>, log: seq<Exchange>, after: seq<TransportEvent>)
    requires Plays(before, log, after)
    ensures |log| <= |before| ==> before == seq(|log|, i requires 0 <= i < |log| => log[i].event) + after
    ensures |log| > |before| ==>
      && after == []
      && before == seq(|before|, i requires 0 <= i < |before| => log[i].event)
      && forall i :: |before| <= i < |log| ==> log[i].event == TimedOut
  {
    if |log| <= |before| {
      var events := seq(|log|, i requires 0 <= i < |log| => log[i].event);
      assert before == before[..|log|] + before[|log|..];
      assert events == before[..|log|];
    }
  }
}
