# SMA Data Manager client, modelled in Dafny

This project models the core of the Home Assistant integration for the SMA
Data Manager M, together with its API client:

- the wire-to-model parsers of `sma/model.py`: access tokens and their expiry,
  time/value readings, channel values with the array-channel fan-out, and
  components with their in-place enrichment;
- the client's session state (`_auth_data`, `_session_id`) and the request
  executor of `sma/client.py` and `sma/base_client.py`:
  - log-in, with its three outcomes, and log-out;
  - one re-authentication on 401/403 and bounded retries;
  - component discovery and live measurements;
- the known-channel lookup of `sma/known_channels.py`, which maps an indexed
  array channel back to its `[]` table key;
- the fully qualified channel ids of `util.py`;
- the sensor metadata decisions of `sensor.py`.

The model is split into modules:

| file | module | contents |
|---|---|---|
| `wrappers.dfy` | `Wrappers` | `Option` and `Result` |
| `json.dfy` | `Json` | decoded JSON values and Python's `isinstance` tests on them (a `bool` passes as an `int`) |
| `text.dfy` | `Text` | the Python string operations the code relies on: `startswith`, `endswith`, `rfind`, slicing with a negative stop, `str(n)`, `split`, `join` and `urllib.parse.quote` |
| `model.dfy` | `Model` | the exception classes and the parsers; `ComponentInfo` is a class whose `AddExtra` updates its fields in place; `WireDict` is the caller's dict that `TimeValuePair.from_dict` writes into |
| `base_client.dfy` | `BaseClient` | the base URL, the header sets, the session check, and the classification of one HTTP exchange into a response or an exception |
| `retry.dfy` | `Retry` | the retry and re-authentication policy of `make_request` as a pure function over attempt outcomes (`Replay`), with its lemmas |
| `client.dfy` | `Client` | the class `Client`: session state, a scripted transport, and the request, log-in, log-out, discovery and measurement methods |
| `known_channels.dfy` | `KnownChannels` | the constants, a representative part of the table, and `get_known_channel` |
| `util.dfy` | `Util` | `channel_parts_to_fqid` and `channel_fqid_to_parts` |
| `sensor.dfy` | `Sensor` | the decision tables, the sensor description, and `native_value` |

The design choices:

- **Clock.** The clock is a parameter `now`, an integer count of microseconds
  (the resolution of Python's `datetime`). Expiry arithmetic is exact. The
  truncation of `int(total_seconds())` toward zero is written out, so a token
  counts as expired once less than one second is left.
- **Transport.** HTTP is replaced by a script. `Client.transport` is the
  sequence of what the wire does with the next requests: an answer with a
  status, a JSON body and cookies; a timeout; a connection failure; or any
  other exception. `Client.sent` logs every request with what happened to it.
  The contracts of the request methods speak about that log, and every one
  of them states `BaseClient.Plays`: the log's exchanges took the script's
  events in order (a timeout once the script is used up), and the
  transport left is the rest of the script.
- **Retry recursion.** `make_request`'s recursive closure becomes mutually
  recursive methods (`MakeRequest`, `Attempt`, `ReauthenticateAndRetry`,
  `Relogin`), with the same two counters `tries` and `did_reauth`.
  `Retry.Replay` states what a call returns for a given sequence of attempt
  outcomes and a given re-authentication outcome. The predicate
  `Client.RequestRun` ties the two to the log of one call:
  - the attempts' outcomes, run through `Replay`, give the result;
  - the re-authentication outcome `Replay` uses is `ReloginOutcome` of the
    logged exchanges that are not attempts, so it is decided by the logged
    log-out and password grant;
  - those exchanges are exactly a re-authentication's (`ReloginLog`): the
    token deletion, then the password grant when there are credentials;
  - there are none unless the attempts led to a re-authentication.

  `Client.SessionAfter` states the token and session id a call leaves: the
  old ones when nothing but the request went out; none at all when a
  re-authentication ran without credentials; otherwise the token of the
  password grant's last answer (none when it failed) and that answer's
  `JSESSIONID` cookie when it was answered below 400 (none otherwise, since
  the log-out cleared it).
- **Queries.** `MakeRequest` states the whole run through `RequestRun`.
  The component queries state, for each request, `SentOnly` (only that
  request and token requests went out) and `AnsweredBy` (the response is
  the answer to the last exchange, exactly when that was answered below
  400); `MakeRequest` derives these two from `RequestRun` with
  `Client.RunIsAnswered`. Every query also states `Plays` for all of its
  exchanges, and that the token and session id are unchanged when none of
  them went to a token endpoint (`NoTokenRequests`).
  `ExtraInfoCalls` ties the device-information requests to the components,
  one by one, in order.

## Model

| member | source | states |
|---|---|---|
| Model.TimeUntilExpiration | custom_components/sma_data_manager/sma/model.py:42-46 | the time left is the grant time plus `expires_in` seconds minus now |
| Model.WholeSeconds | custom_components/sma_data_manager/sma/model.py:49-51 | `int(total_seconds())` truncates toward zero: the whole seconds bracket the exact duration from the side of zero, for positive and negative time left |
| Model.IsExpiredIff | custom_components/sma_data_manager/sma/model.py:48-56 | a token is expired exactly when less than one second (1 000 000 µs) is left, because the whole seconds are truncated toward zero before the `<= 0` test |
| Model.FreshTokenNotExpired | custom_components/sma_data_manager/sma/model.py:42-56 | a token granted with a positive lifetime is not expired at its grant time, and has exactly `expires_in` seconds left |
| Model.AuthTokenInfoFromDict | custom_components/sma_data_manager/sma/model.py:58-95 | succeeds exactly for a dict with string `access_token`, `refresh_token` and `token_type` and an int (or bool) `expires_in`; every failure is a parsing error; on success the four fields are copied unchanged and the grant time is now |
| Model.AuthTokenInfoRoundTrip | custom_components/sma_data_manager/sma/model.py:59-95 | parsing the token response of a token gives back that token |
| Model.MissingTokenFieldNamed | custom_components/sma_data_manager/sma/model.py:64-67 | the fields are checked in order: with `access_token` present and `refresh_token` missing, the error names `refresh_token` |
| Model.TimeValuePairFromDict | custom_components/sma_data_manager/sma/model.py:109-130 | succeeds exactly for a dict with a string `time` and, when `value` is present, a str/int/float `value`; the time is copied, a present value is copied, an absent value becomes null; failures are parsing errors |
| Model.ExplicitNullRejected | custom_components/sma_data_manager/sma/model.py:120-130 | an explicit `"value": null` is rejected, while a missing `value` is accepted as null |
| Model.TimeValuePairRoundTrip | custom_components/sma_data_manager/sma/model.py:110-130 | every pair whose value is null or a scalar survives a trip through its wire form |
| Model.WireDict.ReadTimeValuePair | custom_components/sma_data_manager/sma/model.py:109-130 | returns what `TimeValuePairFromDict` gives for the dict; when it succeeds on a dict without `value`, the caller's dict gains `"value": null`; otherwise the dict is unchanged |
| Model.LatestValue | custom_components/sma_data_manager/sma/model.py:148-154 | the last reading when there is one; a `ValueError` exactly when there is none |
| Model.ParseChannelRecord | custom_components/sma_data_manager/sma/model.py:156-183 | succeeds exactly for a dict with string `channelId` and `componentId` and a list `values`, which are copied; failures are parsing errors |
| Model.ArrayBaseId | custom_components/sma_data_manager/sma/model.py:203 | a trailing `[]` is removed (appending `[]` again gives the id back); any other id is kept |
| Model.FanOut | custom_components/sma_data_manager/sma/model.py:208-219 | one entry per element, in index order: entry `i` is `base[i]` of the component, holding the shared time and the `i`-th element |
| Model.TimeValuePairsFromList | custom_components/sma_data_manager/sma/model.py:223 | succeeds exactly when every record is a valid pair, giving each record's pair in order; otherwise fails with the error of the first record that is not valid |
| Model.ChannelValuesFromDict | custom_components/sma_data_manager/sma/model.py:186-232 | failures are parsing errors, and success implies a valid channel record |
| Model.PlainChannelOneEntry | custom_components/sma_data_manager/sma/model.py:220-232 | a plain record succeeds exactly when all its readings are valid, and then gives exactly one entry with the record's ids and the readings parsed in order |
| Model.EmptyChannelHasNoLatest | custom_components/sma_data_manager/sma/model.py:193-232 | an empty `values` list still gives one entry, whose latest value fails |
| Model.PlainChannelLatestIsLast | custom_components/sma_data_manager/sma/model.py:148-154 | the latest value of a plain channel is its last record, parsed |
| Model.ArrayChannelFanOut | custom_components/sma_data_manager/sma/model.py:193-219 | a record whose first reading is a dict with a string `time` and a list `values` gives exactly `len(values)` entries `base[i]`, each holding the shared time and the `i`-th element |
| Model.ArrayChannelIgnoresLaterRecords | custom_components/sma_data_manager/sma/model.py:200-219 | for an array channel, readings after the first do not change the result, even invalid ones |
| Model.FanOutIdsDistinct | custom_components/sma_data_manager/sma/model.py:211 | different indices give different channel ids |
| Model.ComponentViewFromDict | custom_components/sma_data_manager/sma/model.py:285-312 | succeeds exactly for a dict with string `componentId`, `componentType` and `name`, which are copied; serial number and firmware version start out absent; failures are parsing errors |
| Model.FirmwareVersionIsFirstMatch | custom_components/sma_data_manager/sma/model.py:270-282 | the firmware version found is the value of the first feature with `infoWidgetType == "FirmwareVersion"` and a string value; there is none exactly when no feature qualifies |
| Model.ExtraSerial | custom_components/sma_data_manager/sma/model.py:265-266 | a serial number is taken only from a string `serial` of a dict |
| Model.WithExtra | custom_components/sma_data_manager/sma/model.py:259-282 | the component's id, type and name are kept |
| Model.WithExtraChangesOnlyWhatItFinds | custom_components/sma_data_manager/sma/model.py:259-282 | non-dict extra data changes nothing; the serial number changes only to the string `serial` of the dict; the firmware version changes only to the first firmware-version feature |
| Model.ComponentInfo.constructor | custom_components/sma_data_manager/sma/model.py:244-257 | the new component has the given fields |
| Model.ComponentInfo.FromDict | custom_components/sma_data_manager/sma/model.py:285-312 | a new component with the fields `ComponentViewFromDict` gives, or its parsing error |
| Model.ComponentInfo.AddExtra | custom_components/sma_data_manager/sma/model.py:259-282 | the search loop with `break` leaves the component as `WithExtra` describes, and changes only the serial number and firmware version |
| Model.QueryItemToDict | custom_components/sma_data_manager/sma/model.py:326-328 | the wire form has exactly the keys `componentId` and `channelId` |
| Model.QueryItemRoundTrip | custom_components/sma_data_manager/sma/model.py:326-328 | the two keys carry the item's component id and channel id, so reading the dict back gives the item |
| BaseClient.BaseUrl | custom_components/sma_data_manager/sma/base_client.py:54 | the base URL is exactly `https://` with SSL, or `http://` without, then the host, then `/api/v1`; so it starts with `https://` exactly when SSL is used |
| BaseClient.OriginHeaders | custom_components/sma_data_manager/sma/base_client.py:147-153 | exactly `Origin` = base URL and `Host` = host |
| BaseClient.SessionHeaders | custom_components/sma_data_manager/sma/base_client.py:137-145 | exactly `Cookie: JSESSIONID=<id>` with a session id; the client error "session id not available" without one |
| BaseClient.RequireSession | custom_components/sma_data_manager/sma/base_client.py:155-162 | no error exactly when both token and session id are present; otherwise the client error "session not available" |
| BaseClient.AuthHeaders | custom_components/sma_data_manager/sma/base_client.py:123-135 | requires a session; the origin headers, the session cookie and `Authorization: Bearer <access token>`, and no other key |
| BaseClient.PlaysNothing | custom_components/sma_data_manager/sma/base_client.py:60-111 | a call that sends nothing leaves the transport script as it was |
| BaseClient.PlaysConcat | custom_components/sma_data_manager/sma/base_client.py:60-111 | two calls one after the other play the script as their logs together |
| BaseClient.PlaysSplitsScript | custom_components/sma_data_manager/sma/base_client.py:60-111 | the script is the events the log took followed by the transport left, or, when the log is longer, the log took the whole script and then timed out |
| BaseClient.Classify | custom_components/sma_data_manager/sma/base_client.py:60-111 | a response exactly for an answer below 400; every failure is a client error; an authentication error exactly for 401/403; a communication error exactly for a timeout, a connection failure or another error status; the generic client error "error fetching <url>" exactly for any other exception |
| BaseClient.Outcomes | custom_components/sma_data_manager/sma/client.py:300-305 | no more outcomes than exchanges in the log |
| BaseClient.OutcomesConcat | custom_components/sma_data_manager/sma/client.py:300-346 | the outcomes of two consecutive stretches of the log concatenate |
| BaseClient.Others | custom_components/sma_data_manager/sma/client.py:306-333 | the exchanges of a log that carry another request, a sublist of the log |
| BaseClient.OthersConcat | custom_components/sma_data_manager/sma/client.py:306-333 | the other requests of two consecutive stretches of the log concatenate |
| BaseClient.OthersOfOneRequest | custom_components/sma_data_manager/sma/client.py:300-333 | a stretch of attempts alone has no other exchanges, and one without attempts is all other exchanges |
| BaseClient.OutcomesOfOthers | custom_components/sma_data_manager/sma/client.py:306-333 | requests to other endpoints (the log-out and log-in of a re-authentication) contribute no outcomes |
| Retry.NextStep | custom_components/sma_data_manager/sma/client.py:300-346 | a response is returned; a re-authentication happens exactly for an authentication error when none has happened yet, on an endpoint other than `token` or `refreshtoken…`; a retry happens exactly for another client error while `tries <= request_retries`; everything else is raised |
| Retry.ReplayLengthFrom | custom_components/sma_data_manager/sma/client.py:300-346 | from any state, at most one attempt per retry left, one after a re-authentication, plus the current one |
| Retry.AttemptsBounded | custom_components/sma_data_manager/sma/client.py:300-346 | a call makes at most `request_retries + 3` attempts |
| Retry.AtMostOneReauth | custom_components/sma_data_manager/sma/client.py:306-333 | a call re-authenticates at most once, and never on a token endpoint |
| Retry.SuccessIsLastAttempt | custom_components/sma_data_manager/sma/client.py:300-305 | every attempt but the last failed, and a returned response is the last attempt's |
| Retry.ErrorIsLastAttemptOrReauth | custom_components/sma_data_manager/sma/client.py:306-346 | a raised error is the last attempt's, or an error of the re-authentication that is not a client error |
| Retry.ReauthOutcomeUnused | custom_components/sma_data_manager/sma/client.py:311-315 | on a token endpoint, and once re-authenticated, how a re-authentication would go plays no part |
| Retry.ReplayAfterRetry | custom_components/sma_data_manager/sma/client.py:334-344 | a retried outcome in front: the call goes on from the next try |
| Retry.ReplayAfterReauth | custom_components/sma_data_manager/sma/client.py:306-331 | after a successful re-authentication the call goes on from the next try with `did_reauth` set; after a failed one it raises the original error when the failure is a client error, and the failure otherwise |
| Retry.SecondAuthErrorIsFinal | custom_components/sma_data_manager/sma/client.py:311-333 | an authentication error after a re-authentication is raised as it is |
| Retry.ForeignErrorIsFinal | custom_components/sma_data_manager/sma/client.py:300-346 | an exception that is not a client error is never retried |
| Retry.RetriesExhausted | custom_components/sma_data_manager/sma/client.py:334-344 | a communication, parsing or generic client error ends the call exactly when `tries > request_retries` |
| Client.QueryPayload | custom_components/sma_data_manager/sma/client.py:255-273 | one dict per query item, in order, each reading back as its item |
| Client.ComponentPayload | custom_components/sma_data_manager/sma/client.py:234-253 | one `{"componentId": id}` per requested id, in order |
| Client.LogoutEndpointIsTokenEndpoint | custom_components/sma_data_manager/sma/client.py:153 | the log-out endpoint starts with `refreshtoken`, so an authentication error there is never answered by a re-authentication |
| Client.QuotedParameterStaysOne | custom_components/sma_data_manager/sma/client.py:153 | a quoted refresh token or parent id holds no `&`, `=`, `?`, `#` or space |
| Client.ParseMeasurements | custom_components/sma_data_manager/sma/client.py:275-287 | a non-list is the client error "received invalid response: not a list"; a list is parsed record by record |
| Client.ParsedRecords | custom_components/sma_data_manager/sma/client.py:283-286 | one parsed list per record, in order |
| Client.ChannelValuesFromList | custom_components/sma_data_manager/sma/client.py:283-287 | succeeds exactly when every record parses, and then is the records' lists concatenated in order; otherwise fails with the error of the first record that fails, which is a parsing error |
| Client.ParsedRecordsTail | custom_components/sma_data_manager/sma/client.py:283-287 | the concatenation of the records' lists is the first record's list followed by the concatenation for the rest |
| Client.FirstFailureInTail | custom_components/sma_data_manager/sma/client.py:283-286 | after a first record that parses, the first failing record of the rest is the first failing record of the list |
| Client.InFlatten | custom_components/sma_data_manager/sma/client.py:287 | an entry is in the concatenation exactly when it is in one of the lists |
| Client.EntriesComeFromRecords | custom_components/sma_data_manager/sma/client.py:283-287 | every entry of every record is in the result, and every entry of the result comes from some record |
| Client.ReloginLogOfParts | custom_components/sma_data_manager/sma/client.py:320-321 | a token deletion, repeated by its retries, followed by a password grant from an empty session is a re-authentication's log |
| Client.ReloginOutcomeOfParts | custom_components/sma_data_manager/sma/client.py:320-328 | the re-authentication ends as the password grant after the deletion ends: failed with its error, or well |
| Client.ReloginSession | custom_components/sma_data_manager/sma/client.py:87-92 | a successful password grant leaves the parsed token of its last answer and that answer's session cookie |
| Client.OneAttemptFirst | custom_components/sma_data_manager/sma/client.py:300-305 | a log that starts with an attempt of the request has that attempt's outcome first, and the attempt is not one of the other exchanges |
| Client.ShapeFinish | custom_components/sma_data_manager/sma/client.py:300-305 | one attempt is a whole run whose result is its outcome |
| Client.ShapeAgain | custom_components/sma_data_manager/sma/client.py:334-344 | a retried attempt in front keeps the shape of a run |
| Client.ShapeReauthFailed | custom_components/sma_data_manager/sma/client.py:316-326 | an attempt followed by only token requests, ending in an error, has the shape of a run |
| Client.ShapeReauthOk | custom_components/sma_data_manager/sma/client.py:316-331 | an attempt, the token requests of a re-authentication and the run of the retry have the shape of a run |
| Client.NoTokenRequestsOfParts | custom_components/sma_data_manager/sma/client.py:310-315 | a log with no token request is made of parts with none |
| Client.NoTokenRequestsNoOthers | custom_components/sma_data_manager/sma/client.py:306-331 | a run with no token request has no other exchanges, so no re-authentication ran |
| Client.RunFinish | custom_components/sma_data_manager/sma/client.py:300-346 | an attempt whose outcome the policy returns or raises is a whole run |
| Client.RunAgain | custom_components/sma_data_manager/sma/client.py:334-346 | an attempt the policy retries, followed by the run from the next try, is a run |
| Client.ReauthExchangesAreOthers | custom_components/sma_data_manager/sma/client.py:306-331 | a re-authentication's exchanges add no outcomes of the request and are all other exchanges |
| Client.RunReauthFailed | custom_components/sma_data_manager/sma/client.py:306-326 | an authentication error and a failed re-authentication make a whole run, which raises the original error when the failure was a client error and the failure otherwise |
| Client.RunReauthOk | custom_components/sma_data_manager/sma/client.py:306-331 | an authentication error, a successful re-authentication and the run of the retry with `did_reauth` set make a run |
| Client.RunIsAnswered | custom_components/sma_data_manager/sma/client.py:289-346 | a run of `make_request` sends only its request and token requests, and its response is the answer to its last exchange exactly when that was answered below 400 |
| Client.ComponentViewsFromList | custom_components/sma_data_manager/sma/client.py:183 | succeeds exactly when every entry is a component dict, and then gives each entry's fields in order |
| Client.FirstBadComponent | custom_components/sma_data_manager/sma/client.py:183 | the list fails with the error of its first entry that is not a component dict |
| Client.NavigationViews | custom_components/sma_data_manager/sma/client.py:179-183 | a non-list is the client error "received invalid response: not a list"; a list is parsed entry by entry |
| Client.ExtraInfoCallsStep | custom_components/sma_data_manager/sma/client.py:227-229 | a `Plant` skipped, or a component answered, extends the device-information calls by one |
| Client.ExtraInfoCallsStop | custom_components/sma_data_manager/sma/client.py:227-229 | a failed device-information request ends the calls |
| Client.RootThenChildren | custom_components/sma_data_manager/sma/client.py:223 | the root followed by its children holds their views in the same order, and its components are distinct |
| Client.FlattenAppend | custom_components/sma_data_manager/sma/client.py:227-229 | the exchanges of the loop grow by those of the last request |
| Client.LogsGrow | custom_components/sma_data_manager/sma/client.py:227-229 | one more request of the loop: what was sent, what the script played and whether a token was requested follow the concatenated exchanges |
| Client.ComponentsFromList | custom_components/sma_data_manager/sma/client.py:183 | succeeds exactly when every entry is a component dict; then one new, distinct component per entry, in order, with the entry's fields |
| Client.Client.constructor | custom_components/sma_data_manager/sma/base_client.py:44-58 | a client starts without token and session, with the base URL of its host |
| Client.Client.Send | custom_components/sma_data_manager/sma/base_client.py:60-111 | one request goes on the wire and is logged with what happened to it; the result is its classification; it takes the next scripted event, or a timeout when there is none, and the transport left is the rest |
| Client.Client.MakeRequest | custom_components/sma_data_manager/sma/client.py:289-346 | the logged exchanges are a `RequestRun` from the first attempt, so the result is what `Replay` gives for the attempts' outcomes and the re-authentication the log shows, and every `Retry` lemma applies; a response is the last exchange's answer; only the request and token requests go out; on a token endpoint the session is untouched and the last exchange decides; the log plays the transport script, and the token and session id afterwards are `SessionAfter` the exchanges that are not attempts: unchanged without a re-authentication; the first exchange is the request, and when it is answered below 400 it is the whole log and its answer the result; with the session untouched |
| Client.Client.Attempt | custom_components/sma_data_manager/sma/client.py:300-346 | one attempt followed by what the policy decides is a `RequestRun` from the current counters; after a re-authentication, or on a token endpoint, the session is untouched; the log plays the transport script, and the token and session id afterwards are `SessionAfter` the exchanges that are not attempts; the first exchange is the request, and when it is answered below 400 it is the whole log and its answer the result |
| Client.Client.ReauthenticateAndRetry | custom_components/sma_data_manager/sma/client.py:306-331 | the attempt, log-out and log-in and, when they succeed, the run of the retry with `did_reauth` set, make a `RequestRun`; a failed re-authentication raises the original error when it failed with a client error; the log plays the transport script, and the token and session id afterwards are `SessionAfter` the re-authentication's exchanges |
| Client.Client.Relogin | custom_components/sma_data_manager/sma/client.py:320-328 | without a session nothing is sent and the client error "session not available" is the outcome; otherwise the log is the token deletion and then the password grant, its outcome is that of the password grant, a failure leaves no token, and success leaves the last answer's token and session cookie; the log plays the transport script, and the token and session id afterwards are `SessionAfter` the log |
| Client.Client.LoginAfterLogout | custom_components/sma_data_manager/sma/client.py:61-92 | `login()` after `logout()` cleared the session is the password grant alone; the log plays the transport script |
| Client.Client.UpdateSessionId | custom_components/sma_data_manager/sma/base_client.py:113-121 | the session id becomes the response's `JSESSIONID` cookie, or none; the client error "session cookie not found" exactly when there is none |
| Client.Client.GetNewToken | custom_components/sma_data_manager/sma/client.py:94-119 | sends only the password grant; its last exchange decides: the exception of a failed request, the client error of an answer without a cookie, or the parsed token; the session id becomes that answer's cookie when it was answered below 400; the log plays the transport script |
| Client.Client.RefreshToken | custom_components/sma_data_manager/sma/client.py:121-141 | without a session id, the client error "session id not available" and nothing is sent; otherwise only the refresh grant with the session cookie, and its last exchange decides the result; the session state is untouched; the log plays the transport script |
| Client.Client.Login | custom_components/sma_data_manager/sma/client.py:61-92 | already logged in, with nothing changed or sent, exactly when the old token has more than five minutes left; otherwise, with a session, the refresh grant with the old refresh token is sent first (`TryRefresh`), and the result is `TokenRefreshed` exactly when its last exchange gives a token, which is stored; otherwise the password grant follows, as `PasswordGrant` states; the log plays the transport script (the refresh grant's exchanges, then the password grant's) |
| Client.Client.TryRefresh | custom_components/sma_data_manager/sma/client.py:75-85 | without a session nothing is sent and the token stays; otherwise only the refresh grant with the old refresh token and session cookie is sent, a new token comes back exactly when its last exchange gives one, and then it is stored; a failure is caught and leaves the token; the session id is untouched; the log plays the transport script |
| Client.Client.LoginWithCredentials | custom_components/sma_data_manager/sma/client.py:87-92 | missing credentials raise `ValueError` without a request; otherwise only the password grant is sent, and its last exchange decides the result, the stored token and the session id, as `PasswordGrant` states; the log plays the transport script |
| Client.Client.Logout | custom_components/sma_data_manager/sma/client.py:143-158 | without a session, the client error "session not available" and nothing changes; otherwise token and session id are cleared whatever the deletion request did, and only that request to `refreshtoken?refreshToken=<quoted token>` was sent; the log plays the transport script |
| Client.Client.Navigation | custom_components/sma_data_manager/sma/client.py:163-183 | without a session nothing is sent; otherwise only the `navigation` request with the quoted parent id goes out, apart from a re-authentication, and the result is `NavigationOf` its answer: the request's error, a client error for a non-list, or one new, distinct component per entry, in server order; the log plays the transport script, and token and session id are unchanged when no token request went out |
| Client.Client.AddExtraInfo | custom_components/sma_data_manager/sma/client.py:185-202 | without a session nothing is sent; otherwise the device-info request is a `RequestRun`; success exactly when it is answered, and then the component is enriched by that answer's body as `WithExtra` describes; on failure the component is unchanged; the log plays the transport script, and token and session id are unchanged when no token request went out |
| Client.Client.GetAllComponents | custom_components/sma_data_manager/sma/client.py:160-232 | the top-level navigation comes first; when it gives no root or a root that is not a `Plant`, that error is raised and nothing more is sent; otherwise the navigation below the root follows, and its error is raised before any device-information request; otherwise the device-information requests follow in list order, each component's request answering it, and the result is the root and its children, as listed, each enriched unless it is a `Plant`, or the error of the first request that failed; the log plays the transport script, and token and session id are unchanged when no token request went out |
| Client.Client.RootComponent | custom_components/sma_data_manager/sma/client.py:204-215 | only the top-level navigation request is sent; the result is `RootOf` its answer: the first component, which must be a `Plant`; the log plays the transport script, and token and session id are unchanged when no token request went out |
| Client.Client.ComponentsFromRoot | custom_components/sma_data_manager/sma/client.py:217-229 | only the navigation request for the root's id is sent before the device-information requests; its error ends the call; otherwise the result is the root followed by the listed children, each enriched by its own answer unless it is a `Plant`; the log plays the transport script, and token and session id are unchanged when no token request went out |
| Client.Client.AddExtraInfoRootAndChildren | custom_components/sma_data_manager/sma/client.py:222-229 | the loop over the root followed by its children, in that order, giving back the root followed by the children, each enriched unless it is a `Plant`; the log plays the transport script, and token and session id are unchanged when no token request went out |
| Client.Client.AddExtraInfoAll | custom_components/sma_data_manager/sma/client.py:225-229 | one device-information request per component that is not a `Plant`, in list order, stopping at the first that fails; each component before that point holds its view enriched by its own answer, and every later one is unchanged; the log plays the transport script, and token and session id are unchanged when no token request went out |
| Client.Client.AddExtraInfoUnlessPlant | custom_components/sma_data_manager/sma/client.py:227-229 | a `Plant` is skipped without a request; any other component sends its device-info request and is enriched by the answer; the log plays the transport script, and token and session id are unchanged when no token request went out |
| Client.Client.GetLiveMeasurements | custom_components/sma_data_manager/sma/client.py:255-273 | without a session nothing is sent; otherwise the post of the query items to `measurements/live` is a `RequestRun`, and its response is parsed by `_parse_measurements`; the log plays the transport script, and token and session id are unchanged when no token request went out |
| Client.Client.GetAllLiveMeasurements | custom_components/sma_data_manager/sma/client.py:234-253 | without a session nothing is sent; otherwise the post of the component ids to `measurements/live` is a `RequestRun`, and its response is parsed by `_parse_measurements`; the log plays the transport script, and token and session id are unchanged when no token request went out |
| Text.RFind | custom_components/sma_data_manager/sma/known_channels.py:657 | the index of the last occurrence, or -1 when there is none |
| Text.PyPrefix | custom_components/sma_data_manager/sma/known_channels.py:658 | a slice `[0:stop]` is a prefix of the string: `stop` characters long when it lies within the string, the whole string past the end, the length plus `stop` characters for a negative stop within the string, and empty before the start |
| Text.PyPrefixFromEnd | custom_components/sma_data_manager/sma/known_channels.py:658 | a negative stop is the same slice as the stop that many characters before the end |
| Text.PyPrefixMinusOne | custom_components/sma_data_manager/sma/known_channels.py:657-658 | the slice `[0:-1]` taken when `rfind` finds nothing drops the last character, and is empty for an empty string |
| Text.NatToStringRoundTrip | custom_components/sma_data_manager/sma/model.py:211 | the decimal digits of an index read back as the index |
| Text.Split | custom_components/sma_data_manager/util.py:40 | `split` always gives at least one piece |
| Text.SplitJoin | custom_components/sma_data_manager/util.py:40 | joining the pieces of a split with the separator gives the string back |
| Text.SplitAt | custom_components/sma_data_manager/util.py:40 | a separator after a separator-free prefix ends the first piece there |
| Text.Quote | custom_components/sma_data_manager/sma/client.py:153 | `quote` leaves only unreserved characters, `/` and `%` escapes |
| KnownChannels.NormalizeChannelId | custom_components/sma_data_manager/sma/known_channels.py:655-658 | an id ending in `]` is looked up under a key ending in `[]`; any other id under itself |
| KnownChannels.GetKnownChannel | custom_components/sma_data_manager/sma/known_channels.py:649-662 | an entry exactly when the normalised id is a key, and then the entry stored under that key; an id not ending in `]` is looked up verbatim and an unknown one finds nothing |
| KnownChannels.RFindLast | custom_components/sma_data_manager/sma/known_channels.py:657 | in `s + "[" + t` with no `[` in `t`, the last `[` is the one after `s` |
| KnownChannels.IndexedLookup | custom_components/sma_data_manager/sma/known_channels.py:656-658 | `base[index]` is looked up as `base[]`, whatever the index |
| KnownChannels.IndexIsIgnored | custom_components/sma_data_manager/sma/known_channels.py:649-662 | two indices of one array channel find the same entry |
| KnownChannels.DcVoltageOfAnyString | custom_components/sma_data_manager/sma/known_channels.py:626-630 | `Measurement.DcMs.Vol[0]` and `Measurement.DcMs.Vol[7]` find the same entry, the PV dc voltage in volts |
| KnownChannels.GridPowerIsKnown | custom_components/sma_data_manager/sma/known_channels.py:81-85 | `Measurement.GridMs.TotW` finds the grid power in watts |
| KnownChannels.ArrayKeyIsFixed | custom_components/sma_data_manager/sma/known_channels.py:656-658 | a key already ending in `[]` is its own key |
| KnownChannels.NormalizeIdempotent | custom_components/sma_data_manager/sma/known_channels.py:656-658 | normalising twice is normalising once |
| KnownChannels.ClosingBracketWithoutOpening | custom_components/sma_data_manager/sma/known_channels.py:657-658 | an id ending in `]` without any `[` loses its last character, which is replaced by `[]` |
| KnownChannels.TableKeyIsFixed | custom_components/sma_data_manager/sma/known_channels.py:67-658 | every table key ends in `[]` or has no closing bracket, and normalising it gives it back |
| KnownChannels.TableKeysAreNormal | custom_components/sma_data_manager/sma/known_channels.py:67-647 | every table key ends in `[]` or has no closing bracket, and every entry is found by its own key |
| KnownChannels.FannedOutIdsFindArrayEntry | custom_components/sma_data_manager/sma/known_channels.py:656-658 | the ids a fan-out produces from `base[]` all find the entry of `base[]` |
| Util.ChannelPartsToFqid | custom_components/sma_data_manager/util.py:24-31 | the fqid starts with the channel id, ends with the component id, and has one `@` more than the two together |
| Util.SplitPieces | custom_components/sma_data_manager/util.py:40 | `split` gives one piece more than there are separators, and no piece holds a separator |
| Util.ChannelFqidToParts | custom_components/sma_data_manager/util.py:34-45 | succeeds exactly for a string with exactly one `@`, giving two `@`-free parts; otherwise `ValueError("Invalid channel fqid: …")` |
| Util.FqidRoundTrip | custom_components/sma_data_manager/util.py:24-45 | splitting a joined fqid gives back `(component, channel)`, the part after the `@` first, when neither part holds an `@` |
| Util.PartsRoundTrip | custom_components/sma_data_manager/util.py:24-45 | joining the parts of a valid fqid gives back the fqid |
| Sensor.DeviceKindToIcon | custom_components/sma_data_manager/sensor.py:210-220 | the generic `mdi:flash` exactly for kinds other than grid, battery and PV |
| Sensor.OwnIconsDistinct | custom_components/sma_data_manager/sensor.py:210-220 | grid, battery and PV have pairwise distinct icons |
| Sensor.ChannelToDeviceClassAndUnit | custom_components/sma_data_manager/sensor.py:223-263 | the battery charge state is (battery, %) and the battery operating time (duration, s) whatever the unit; otherwise ENUM is (enum, none); reactive power, seconds and percent have a unit but no device class; PLAIN_NUMBER and unrecognised units give (none, none); every other device class comes with a unit |
| Sensor.UnitAloneDecides | custom_components/sma_data_manager/sensor.py:241-263 | outside the two special channels the channel id plays no part |
| Sensor.CumulativeModeToStateClass | custom_components/sma_data_manager/sensor.py:266-284 | COUNTER and TOTAL are total-increasing; MINIMUM and MAXIMUM are total; every other mode is a measurement |
| Sensor.DescriptionFor | custom_components/sma_data_manager/sensor.py:152-207 | key and name are the fqid; an unknown channel gets no icon, device class or unit and the measurement state class; a known one gets its kind's icon and the device class and unit of its id and unit; an enum device class has no state class, and every other one has the state class of the entry's cumulative mode, `NONE` when the entry has none |
| Sensor.EnumValuesFor | custom_components/sma_data_manager/sensor.py:178-180 | a known channel of unit ENUM gets the entry's enum table, or an empty one; otherwise the sensor's table is unchanged |
| Sensor.EnumChannelHasNoStateClass | custom_components/sma_data_manager/sensor.py:170-184 | a known ENUM channel is an enum sensor without a state class, holding an enum table |
| Sensor.HealthUsesCommonStatusCodes | custom_components/sma_data_manager/sma/known_channels.py:246-251 | the device health channel translates the common status codes and has no state class |
| Sensor.EnumKey | custom_components/sma_data_manager/sensor.py:146 | a dict lookup hashes ints, booleans (`True == 1`) and integral floats to their integer; a float with a fractional part, strings and null never match; lists and dicts are unhashable, a `TypeError` |
| Sensor.TranslateValue | custom_components/sma_data_manager/sensor.py:143-150 | without an enum table the raw value; with one, the label of a known code (an int, a boolean, or an integral float) or the value in brackets; strings, null and floats with a fractional part are always bracketed; lists and dicts raise `TypeError`; a label always comes from the table |
| Sensor.CommonStatusCodes | custom_components/sma_data_manager/sma/known_channels.py:33-56 | code 307 reads "Ok"; an unknown code is shown in brackets |
| Sensor.FirstMatch | custom_components/sma_data_manager/sensor.py:133-138 | the position of the first entry for the sensor's component and channel, or none when there is no such entry |
| Sensor.NativeValueOf | custom_components/sma_data_manager/sensor.py:127-150 | `StopIteration` when the channel has no entry; a `ValueError` when the first entry has no reading; otherwise the translation of the first entry's latest reading |
| Sensor.SMASensor.constructor | custom_components/sma_data_manager/sensor.py:107-125 | a new sensor has the description and enum table `_set_description` gives it |
| Sensor.SMASensor.SetDescription | custom_components/sma_data_manager/sensor.py:152-207 | the sensor's description becomes `DescriptionFor` and its enum table becomes `EnumValuesFor` |
| Sensor.SMASensor.NativeValue | custom_components/sma_data_manager/sensor.py:127-150 | the search loop over the coordinator's data returns what `NativeValueOf` gives |

## Left out

- HTTP I/O. `aiohttp` sessions, `async_timeout`, the cookie jar and JSON
  decoding of response bodies are replaced by the scripted transport (see
  `base_client.py:76-88`). A body that is not valid JSON is not modelled.
- `async`/`await`. Every call runs to completion before the next one starts,
  so the methods are ordinary sequential methods.
- `datetime.now`. The clock is the parameter `now`, in microseconds, and it
  does not advance during one call.
- Logging and the `DummyLogger`. They have no effect on the results.
- The exact text of a few messages. Where the source formats a Python value
  with `str()`, the model keeps the parts it can state: the `"[<value>]"` of
  `native_value` is the constructor `Bracketed(value)`, and the `TypeError`
  message of an unhashable key is Python's fixed text.
- The class split between `SMABaseClient` and `SMAApiClient`. It is merged
  into one class `Client`: the base class's pure parts are the functions of
  `BaseClient`, and `update_session_id` is a method of `Client`.
- The test in `client.py:114` that the session id is set after
  `update_session_id`. It cannot fail, because `update_session_id` raises
  before it can be reached.
- The `access_token is None` test of `require_session`. The access token is
  always a string here, because `from_dict` checks it.
- Client.Client.ReauthenticateAndRetry: the retry after a re-authentication
  sends the request with the headers computed before it, as the source does
  (`client.py:331`), so it carries the token the log-out revoked. An
  authentication error on that retry is raised as it is
  (`Retry.SecondAuthErrorIsFinal`). The model does not state what the
  appliance answers to a revoked token.
- Client.Client.Navigation: states the request it sends and the answer it
  gets (`SentOnly`, `AnsweredBy`), not the whole retry run; `MakeRequest`
  states that run once, and `RunIsAnswered` derives these two from it.
- Client.Client.RootComponent: as `Navigation`, the request and its answer,
  not the whole retry run.
- Client.Client.ComponentsFromRoot: as `Navigation`, the request and its
  answer, not the whole retry run.
- Client.Client.Navigation: states the token and session id only when no
  token request went out (unchanged); what a re-authentication during the
  request leaves is stated by `MakeRequest` (`SessionAfter`), not here.
- Client.Client.AddExtraInfo: as `Navigation`, the session only when no
  token request went out.
- Client.Client.RootComponent: as `Navigation`, the session only when no
  token request went out.
- Client.Client.ComponentsFromRoot: as `Navigation`, the session only when
  no token request went out.
- Client.Client.AddExtraInfoRootAndChildren: as `Navigation`, the session
  only when no token request went out.
- Client.Client.AddExtraInfoUnlessPlant: as `Navigation`, the session only
  when no token request went out.
- Client.Client.AddExtraInfoAll: as `Navigation`, the session only when no
  token request went out.
- Client.Client.GetLiveMeasurements: as `Navigation`, the session only when
  no token request went out.
- Client.Client.GetAllLiveMeasurements: as `Navigation`, the session only
  when no token request went out.
- Client.Client.GetAllComponents: as `Navigation`, the session only when no
  token request went out.
- Client.Client.GetAllComponents: for the navigation below the root it
  states the endpoint and the answer, not the headers the request carried,
  because a re-authentication during the top-level navigation may have
  changed the session they are built from.
- Model.TimeUntilExpiration: `granted_at + timedelta(seconds=expires_in)`
  (`model.py:45`) raises `OverflowError` once the expiry passes
  `datetime.max`, for an `expires_in` of about 2.5e11 seconds; the model's
  integers do not overflow, so there it gives a value where the source
  raises.
- Model.SecondsUntilExpiration: `int(total_seconds())` (`model.py:51`) goes
  through a float, which can round across a whole second once more than
  about 9e9 seconds are left; the model truncates the exact duration.
- Model.TimeValuePairsFromList: `TimeValuePair.from_dict` writes
  `"value": None` into a record that has no `value` key (`model.py:127`),
  so parsing a channel's value list (`model.py:223`) also changes the
  caller's dictionaries. The model's JSON values are immutable; it returns
  the parsed pairs and does not model that write.
- The rest of `known_channels.py`'s table. Thirteen entries stand for the
  111: plain, cumulative, enum and array channels. Its other entries are
  presentation data of the same shape.
- The Home Assistant glue: `__init__.py`, `coordinator.py`,
  `config_flow.py`, `base_entity.py`, `const.py`, and entity registration in
  `sensor.py:55-95`. The coordinator's data list is a parameter of
  `NativeValue`.
- The computed but unused `name` of `_set_description` (`sensor.py:166`).
  The description is named by the fqid (`sensor.py:202`), and so is the
  model's.
- Floating-point values are real numbers. NaN and infinities are not
  modelled, so an integral float matches an enum code by value.
