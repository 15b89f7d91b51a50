/** The retry and re-authentication policy of the client's `make_request`,
    as a function of the outcomes its attempts produce.  `NextStep` is the
    decision taken after one attempt; `Replay` runs a whole sequence of
    attempt outcomes through it and says what the call returns, if that
    sequence is exactly the attempts the call makes. */
module Retry {

  import opened Wrappers
  import opened Text
  import opened Model
  import opened BaseClient

  /** The endpoints on which an authentication error is never answered by
      re-authenticating: the token endpoint and the token-deletion endpoint. */
  predicate IsTokenEndpoint(endpoint: string)
  {
    endpoint == "token" || StartsWith(endpoint, "refreshtoken")
  }

  /** What the call does after an attempt. */
  datatype Step =
    | Finish(result: Result<Reply, Error>)  // return or raise this
    | Again                                 // retry with tries + 1
    | Reauthenticate(original: Error)       // log out, log in, retry once

  /** The decision after an attempt made with `tries` earlier retries. */
  function NextStep(endpoint: string, retries: int, tries: int, didReauth: bool, outcome: Result<Reply, Error>): (s: Step)
    ensures outcome.Ok? ==> s == Finish(outcome)
    ensures s.Reauthenticate? <==>
      outcome.Err? && outcome.error.kind == AuthenticationError && !didReauth && !IsTokenEndpoint(endpoint)
    ensures s.Reauthenticate? ==> s.original == outcome.error
    ensures s.Again? <==>
      outcome.Err? && outcome.error.kind != AuthenticationError && outcome.error.kind.IsApiError() && tries <= retries
    ensures s.Finish? ==> s.result == outcome
  {
    match outcome
    case Ok(_) => Finish(outcome)
    case Err(e) =>
      if e.kind == AuthenticationError then
        if !didReauth && !IsTokenEndpoint(endpoint) then Reauthenticate(e) else Finish(outcome)
      else if e.kind.IsApiError() && tries <= retries then Again
      else Finish(outcome)
  }

  /** How the log-out and log-in of a re-authentication went. */
  datatype Reauth = ReauthOk | ReauthFailed(error: Error)

  /** What `make_request` returns or raises when its attempts produce exactly
      `outcomes`, re-authentication going as `reauth` says; `None` when the
      call would have stopped earlier or would go on. */
  function Replay(endpoint: string, retries: int, outcomes: seq<Result<Reply, Error>>, reauth: Reauth, tries: int, didReauth: bool): Option<Result<Reply, Error>>
    decreases |outcomes|
  {
    if |outcomes| == 0 then None
    else
      match NextStep(endpoint, retries, tries, didReauth, outcomes[0])
      case Finish(result) => if |outcomes| == 1 then Some(result) else None
      case Again => Replay(endpoint, retries, outcomes[1..], reauth, tries + 1, didReauth)
      case Reauthenticate(original) =>
        match reauth
        case ReauthOk => Replay(endpoint, retries, outcomes[1..], reauth, tries + 1, true)
        case ReauthFailed(e) =>
          // a client error during re-authentication surfaces the original
          // authentication error; anything else propagates
          if |outcomes| == 1 then Some(Err(if e.kind.IsApiError() then original else e)) else None
  }

  function Max(a: int, b: int): int
  {
    if a >= b then a else b
  }

  /** Bound on the attempts still possible from a given state. */
  lemma {:induction false} ReplayLengthFrom(endpoint: string, retries: int, outcomes: seq<Result<Reply, Error>>, reauth: Reauth, tries: int, didReauth: bool)
    requires Replay(endpoint, retries, outcomes, reauth, tries, didReauth).Some?
    ensures |outcomes| <= Max(retries - tries + 1, 0) + (if didReauth then 0 else 1) + 1
    decreases |outcomes|
  {
    match NextStep(endpoint, retries, tries, didReauth, outcomes[0])
    case Finish(_) =>
    case Again => ReplayLengthFrom(endpoint, retries, outcomes[1..], reauth, tries + 1, didReauth);
    case Reauthenticate(_) =>
      if reauth.ReauthOk? {
        ReplayLengthFrom(endpoint, retries, outcomes[1..], reauth, tries + 1, true);
      }
  }

  /** A call makes at most `request_retries + 3` attempts: the first, one
      per allowed retry (retries happen while `tries <= request_retries`),
      and one after a re-authentication. */
  lemma AttemptsBounded(endpoint: string, retries: int, outcomes: seq<Result<Reply, Error>>, reauth: Reauth)
    requires Replay(endpoint, retries, outcomes, reauth, 0, false).Some?
    ensures |outcomes| <= Max(retries, -1) + 3
  {
    ReplayLengthFrom(endpoint, retries, outcomes, reauth, 0, false);
  }

  /** The number of attempts that were followed by a re-authentication. */
  function ReauthCount(endpoint: string, retries: int, outcomes: seq<Result<Reply, Error>>, tries: int, didReauth: bool): nat
    decreases |outcomes|
  {
    if |outcomes| == 0 then 0
    else
      match NextStep(endpoint, retries, tries, didReauth, outcomes[0])
      case Finish(_) => 0
      case Again => ReauthCount(endpoint, retries, outcomes[1..], tries + 1, didReauth)
      case Reauthenticate(_) => 1 + ReauthCount(endpoint, retries, outcomes[1..], tries + 1, true)
  }

  /** A call re-authenticates at most once, and never on a token endpoint. */
  lemma {:induction false} AtMostOneReauth(endpoint: string, retries: int, outcomes: seq<Result<Reply, Error>>, tries: int, didReauth: bool)
    ensures ReauthCount(endpoint, retries, outcomes, tries, didReauth) <= (if didReauth then 0 else 1)
    ensures IsTokenEndpoint(endpoint) ==> ReauthCount(endpoint, retries, outcomes, tries, didReauth) == 0
    decreases |outcomes|
  {
    if |outcomes| > 0 {
      match NextStep(endpoint, retries, tries, didReauth, outcomes[0])
      case Finish(_) =>
      case Again => AtMostOneReauth(endpoint, retries, outcomes[1..], tries + 1, didReauth);
      case Reauthenticate(_) => AtMostOneReauth(endpoint, retries, outcomes[1..], tries + 1, true);
    }
  }

  /** Only the last attempt can succeed: a response is returned as soon as
      one arrives, and it is the response of the last attempt. */
  lemma {:induction false} SuccessIsLastAttempt(endpoint: string, retries: int, outcomes: seq<Result<Reply, Error>>, reauth: Reauth, tries: int, didReauth: bool)
    requires Replay(endpoint, retries, outcomes, reauth, tries, didReauth).Some?
    ensures forall i :: 0 <= i < |outcomes| - 1 ==> outcomes[i].Err?
    ensures Replay(endpoint, retries, outcomes, reauth, tries, didReauth).value.Ok? ==>
      outcomes[|outcomes| - 1] == Replay(endpoint, retries, outcomes, reauth, tries, didReauth).value
    decreases |outcomes|
  {
    var rest := outcomes[1..];
    match NextStep(endpoint, retries, tries, didReauth, outcomes[0])
    case Finish(_) =>
    case Again =>
      SuccessIsLastAttempt(endpoint, retries, rest, reauth, tries + 1, didReauth);
      assert forall i :: 1 <= i < |outcomes| ==> outcomes[i] == rest[i - 1];
    case Reauthenticate(_) =>
      if reauth.ReauthOk? {
        SuccessIsLastAttempt(endpoint, retries, rest, reauth, tries + 1, true);
        assert forall i :: 1 <= i < |outcomes| ==> outcomes[i] == rest[i - 1];
      }
  }

  /** A raised exception is the last attempt's, except that a failed
      re-authentication that did not fail with a client error raises its
      own exception. */
  lemma {:induction false} ErrorIsLastAttemptOrReauth(endpoint: string, retries: int, outcomes: seq<Result<Reply, Error>>, reauth: Reauth, tries: int, didReauth: bool)
    requires Replay(endpoint, retries, outcomes, reauth, tries, didReauth).Some?
    requires Replay(endpoint, retries, outcomes, reauth, tries, didReauth).value.Err?
    ensures
      var e := Replay(endpoint, retries, outcomes, reauth, tries, didReauth).value.error;
      || outcomes[|outcomes| - 1] == Err(e)
      || (reauth == ReauthFailed(e) && !e.kind.IsApiError())
    decreases |outcomes|
  {
    var rest := outcomes[1..];
    match NextStep(endpoint, retries, tries, didReauth, outcomes[0])
    case Finish(_) =>
    case Again =>
      ErrorIsLastAttemptOrReauth(endpoint, retries, rest, reauth, tries + 1, didReauth);
      assert rest[|rest| - 1] == outcomes[|outcomes| - 1];
    case Reauthenticate(_) =>
      if reauth.ReauthOk? {
        ErrorIsLastAttemptOrReauth(endpoint, retries, rest, reauth, tries + 1, true);
        assert rest[|rest| - 1] == outcomes[|outcomes| - 1];
      }
  }

  /** On a token endpoint, and once a re-authentication has happened, how a
      re-authentication would go plays no part. */
  lemma {:induction false} ReauthOutcomeUnused(endpoint: string, retries: int, outcomes: seq<Result<Reply, Error>>, r1: Reauth, r2: Reauth, tries: int, didReauth: bool)
    requires IsTokenEndpoint(endpoint) || didReauth
    ensures Replay(endpoint, retries, outcomes, r1, tries, didReauth) == Replay(endpoint, retries, outcomes, r2, tries, didReauth)
    decreases |outcomes|
  {
    if |outcomes| > 0 {
      ReauthOutcomeUnused(endpoint, retries, outcomes[1..], r1, r2, tries + 1, didReauth);
    }
  }

  /** An authentication error after a re-authentication ends the call. */
  lemma SecondAuthErrorIsFinal(endpoint: string, retries: int, tries: int, e: Error, reauth: Reauth)
    requires e.kind == AuthenticationError
    ensures Replay(endpoint, retries, [Err(e)], reauth, tries, true) == Some(Err(e))
  {
  }

  /** An error that is not a client error is never retried. */
  lemma ForeignErrorIsFinal(endpoint: string, retries: int, tries: int, didReauth: bool, e: Error, reauth: Reauth)
    requires !e.kind.IsApiError()
    ensures Replay(endpoint, retries, [Err(e)], reauth, tries, didReauth) == Some(Err(e))
  {
  }

  /** The retry budget: a failing attempt is retried while `tries` is at most
      `request_retries`, and the error of the attempt after that is raised. */
  lemma RetriesExhausted(endpoint: string, retries: int, tries: int, didReauth: bool, e: Error, reauth: Reauth)
    requires e.kind != AuthenticationError && e.kind.IsApiError()
    ensures Replay(endpoint, retries, [Err(e)], reauth, tries, didReauth).Some? <==> tries > retries
  {
  }

  /** A retried attempt is followed by the rest of the call, one try later. */
  lemma ReplayAfterRetry(endpoint: string, retries: int, outcome: Result<Reply, Error>, outcomes: seq<Result<Reply, Error>>,
                         reauth: Reauth, tries: int, didReauth: bool)
    requires NextStep(endpoint, retries, tries, didReauth, outcome) == Again
    ensures Replay(endpoint, retries, [outcome] + outcomes, reauth, tries, didReauth)
            == Replay(endpoint, retries, outcomes, reauth, tries + 1, didReauth)
    ensures ReauthCount(endpoint, retries, [outcome] + outcomes, tries, didReauth)
            == ReauthCount(endpoint, retries, outcomes, tries + 1, didReauth)
  {
    assert ([outcome] + outcomes)[1..] == outcomes;
  }

  /** An authentication error that leads to a re-authentication: when that
      succeeds, the rest of the call runs one try later with the
      re-authentication spent; when it fails, the call ends, raising the
      original error for a client error and the failure otherwise. */
  lemma ReplayAfterReauth(endpoint: string, retries: int, original: Error, outcomes: seq<Result<Reply, Error>>, tries: int)
    requires NextStep(endpoint, retries, tries, false, Err(original)) == Reauthenticate(original)
    ensures Replay(endpoint, retries, [Err(original)] + outcomes, ReauthOk, tries, false)
            == Replay(endpoint, retries, outcomes, ReauthOk, tries + 1, true)
    ensures forall e :: Replay(endpoint, retries, [Err(original)], ReauthFailed(e), tries, false)
                        == Some(Err(if e.kind.IsApiError() then original else e))
    ensures ReauthCount(endpoint, retries, [Err(original)] + outcomes, tries, false)
            == 1 + ReauthCount(endpoint, retries, outcomes, tries + 1, true)
  {
    assert ([Err(original)] + outcomes)[1..] == outcomes;
  }
}
