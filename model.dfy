/** The client's data model: the exception kinds it raises, the access token
    with its expiry arithmetic, and the parsers that turn decoded JSON into
    time/value pairs, channel values (with array-channel fan-out), component
    information and live-measurement queries. */
module Model {

  import opened Wrappers
  import opened Json
  import opened Text

  // ---------------------------------------------------------------------
  // Exceptions
  // ---------------------------------------------------------------------

  /** The exception classes the client raises.  The first four are
      `SMAApiClientError` and its three subclasses; the others are Python
      built-ins that are NOT `SMAApiClientError`s. */
  datatype ErrorKind =
    | ClientError
    | CommunicationError
    | AuthenticationError
    | ParsingError
    | ValueError
    | TypeError
    | StopIteration
  {
    /** `isinstance(e, SMAApiClientError)` */
    predicate IsApiError()
    {
      ClientError? || CommunicationError? || AuthenticationError? || ParsingError?
    }
  }

  /** A raised exception: its class and its message. */
  datatype Error = Error(kind: ErrorKind, message: string)

  function ParseFailure(message: string): Error
  {
    Error(ParsingError, message)
  }

  // ---------------------------------------------------------------------
  // AuthTokenInfo
  // ---------------------------------------------------------------------

  /** The clock counts microseconds, the resolution of Python's `datetime`. */
  const MicrosPerSecond: int := 1_000_000

  /** An access token as granted by the `token` endpoint; `grantedAt` is the
      clock reading when the token object was built. */
  datatype AuthTokenInfo = AuthTokenInfo(
    accessToken: string,
    refreshToken: string,
    tokenType: string,
    expiresIn: int,
    grantedAt: int)

  /** `time_until_expiration`, in microseconds: `granted_at + expires_in - now`. */
  function TimeUntilExpiration(t: AuthTokenInfo, now: int): (d: int)
    ensures d + now == t.grantedAt + t.expiresIn * MicrosPerSecond
  {
    t.grantedAt + t.expiresIn * MicrosPerSecond - now
  }

  /** `int(total_seconds())` of a duration of `micros` microseconds: the
      whole seconds, truncated toward zero (Dafny's `/` rounds toward
      negative infinity for a negative dividend). */
  function WholeSeconds(micros: int): (q: int)
    ensures micros >= 0 ==> q >= 0 && q * MicrosPerSecond <= micros < q * MicrosPerSecond + MicrosPerSecond
    ensures micros < 0 ==> q <= 0 && q * MicrosPerSecond - MicrosPerSecond < micros <= q * MicrosPerSecond
  {
    if micros >= 0 then micros / MicrosPerSecond else -((-micros) / MicrosPerSecond)
  }

  /** `seconds_until_expiration`: the whole seconds left, truncated toward
      zero. */
  function SecondsUntilExpiration(t: AuthTokenInfo, now: int): int
  {
    WholeSeconds(TimeUntilExpiration(t, now))
  }

  /** `is_expired` */
  predicate IsExpired(t: AuthTokenInfo, now: int)
  {
    SecondsUntilExpiration(t, now) <= 0
  }

  /** Because the seconds are truncated toward zero, a token with less than
      one second left already counts as expired, and so does one that ran
      out less than a second ago. */
  lemma IsExpiredIff(t: AuthTokenInfo, now: int)
    ensures IsExpired(t, now) <==> TimeUntilExpiration(t, now) < MicrosPerSecond
  {
  }

  /** A token that grants a positive lifetime is not expired when granted. */
  lemma FreshTokenNotExpired(t: AuthTokenInfo)
    requires t.expiresIn > 0
    ensures !IsExpired(t, t.grantedAt)
    ensures SecondsUntilExpiration(t, t.grantedAt) == t.expiresIn
  {
    IsExpiredIff(t, t.grantedAt);
  }

  /** What `AuthTokenInfo.from_dict` accepts: a dict with the four fields,
      three strings and an int. */
  predicate IsTokenDict(data: Json)
  {
    && data.JDict?
    && "access_token" in data.fields && "refresh_token" in data.fields
    && "token_type" in data.fields && "expires_in" in data.fields
    && IsStr(data.fields["access_token"]) && IsStr(data.fields["refresh_token"])
    && IsStr(data.fields["token_type"]) && IsInt(data.fields["expires_in"])
  }

  /** `AuthTokenInfo.from_dict(data)`, run when the clock reads `now`. */
  function AuthTokenInfoFromDict(data: Json, now: int): (r: Result<AuthTokenInfo, Error>)
    ensures r.Ok? <==> IsTokenDict(data)
    ensures r.Err? ==> r.error.kind == ParsingError
    ensures r.Ok? ==>
      && JStr(r.value.accessToken) == data.fields["access_token"]
      && JStr(r.value.refreshToken) == data.fields["refresh_token"]
      && JStr(r.value.tokenType) == data.fields["token_type"]
      && r.value.expiresIn == IntValue(data.fields["expires_in"])
      && r.value.grantedAt == now
  {
    if !data.JDict? then Err(ParseFailure("auth token info is not a dict"))
    else
      var f := data.fields;
      if "access_token" !in f then Err(ParseFailure("missing field 'access_token' in auth token info"))
      else if "refresh_token" !in f then Err(ParseFailure("missing field 'refresh_token' in auth token info"))
      else if "token_type" !in f then Err(ParseFailure("missing field 'token_type' in auth token info"))
      else if "expires_in" !in f then Err(ParseFailure("missing field 'expires_in' in auth token info"))
      else if !IsStr(f["access_token"]) then Err(ParseFailure("field 'access_token' in auth token info is not a string"))
      else if !IsStr(f["refresh_token"]) then Err(ParseFailure("field 'refresh_token' in auth token info is not a string"))
      else if !IsStr(f["token_type"]) then Err(ParseFailure("field 'token_type' in auth token info is not a string"))
      else if !IsInt(f["expires_in"]) then Err(ParseFailure("field 'expires_in' in auth token info is not an int"))
      else Ok(AuthTokenInfo(
        f["access_token"].str, f["refresh_token"].str, f["token_type"].str,
        IntValue(f["expires_in"]), now))
  }

  /** The token response the appliance sends for a token. */
  function AuthTokenInfoToDict(t: AuthTokenInfo): Json
  {
    JDict(map[
      "access_token" := JStr(t.accessToken),
      "refresh_token" := JStr(t.refreshToken),
      "token_type" := JStr(t.tokenType),
      "expires_in" := JInt(t.expiresIn)])
  }

  /** Parsing a token response gives back the token it describes. */
  lemma AuthTokenInfoRoundTrip(t: AuthTokenInfo)
    ensures AuthTokenInfoFromDict(AuthTokenInfoToDict(t), t.grantedAt) == Ok(t)
  {
  }

  /** A missing field is reported by name, the first missing one in the
      order access_token, refresh_token, token_type, expires_in. */
  lemma MissingTokenFieldNamed(data: Json, now: int)
    requires data.JDict? && "access_token" in data.fields && "refresh_token" !in data.fields
    ensures AuthTokenInfoFromDict(data, now) == Err(ParseFailure("missing field 'refresh_token' in auth token info"))
  {
  }

  // ---------------------------------------------------------------------
  // TimeValuePair
  // ---------------------------------------------------------------------

  /** One reading: an opaque ISO-8601 time string and a value (`JNull` when
      the record had no value). */
  datatype TimeValuePair = TimeValuePair(time: string, value: Json)

  /** What `TimeValuePair.from_dict` accepts: a dict with a string `time`
      and, when `value` is present, a str, int or float `value`. */
  predicate IsTimeValueDict(data: Json)
  {
    && data.JDict?
    && "time" in data.fields && IsStr(data.fields["time"])
    && ("value" in data.fields ==> IsScalar(data.fields["value"]))
  }

  /** The pair `TimeValuePair.from_dict(data)` returns. */
  function TimeValuePairFromDict(data: Json): (r: Result<TimeValuePair, Error>)
    ensures r.Ok? <==> IsTimeValueDict(data)
    ensures r.Err? ==> r.error.kind == ParsingError
    ensures r.Ok? ==> JStr(r.value.time) == data.fields["time"]
    ensures r.Ok? && "value" in data.fields ==> r.value.value == data.fields["value"]
    ensures r.Ok? && "value" !in data.fields ==> r.value.value == JNull
  {
    if !data.JDict? then Err(ParseFailure("time value pair is not a dict"))
    else
      var f := data.fields;
      if "time" !in f then Err(ParseFailure("missing field 'time' in time value pair"))
      else if !IsStr(f["time"]) then Err(ParseFailure("field 'time' in time value pair is not a string"))
      else if "value" in f then
        if !IsScalar(f["value"]) then
          Err(ParseFailure("field 'value' in time value pair is not a string, int or float"))
        else Ok(TimeValuePair(f["time"].str, f["value"]))
      else Ok(TimeValuePair(f["time"].str, JNull))
  }

  /** A record whose `value` is an explicit `null` is rejected, while a
      record without `value` is accepted with value `None`. */
  lemma ExplicitNullRejected(time: string)
    ensures TimeValuePairFromDict(JDict(map["time" := JStr(time), "value" := JNull])).Err?
    ensures TimeValuePairFromDict(JDict(map["time" := JStr(time)])) == Ok(TimeValuePair(time, JNull))
  {
  }

  /** The wire record of a pair: `value` is left out for a pair without one. */
  function TimeValuePairToDict(p: TimeValuePair): Json
  {
    if p.value == JNull then JDict(map["time" := JStr(p.time)])
    else JDict(map["time" := JStr(p.time), "value" := p.value])
  }

  /** Every pair the parser can produce survives a trip through its wire
      record. */
  lemma TimeValuePairRoundTrip(p: TimeValuePair)
    requires p.value == JNull || IsScalar(p.value)
    ensures TimeValuePairFromDict(TimeValuePairToDict(p)) == Ok(p)
  {
  }

  /** A decoded JSON object that the caller holds a reference to: the one
      place where the parser writes into its input. */
  class WireDict {
    var entries: map<string, Json>

    constructor(entries: map<string, Json>)
      ensures this.entries == entries
    {
      this.entries := entries;
    }

    /** `TimeValuePair.from_dict(data)` on this dict: besides returning the
        pair it stores `"value": None` into the dict when the field was
        missing and the record is otherwise valid. */
    method ReadTimeValuePair() returns (r: Result<TimeValuePair, Error>)
      modifies this
      ensures r == TimeValuePairFromDict(JDict(old(entries)))
      ensures entries == if r.Ok? && "value" !in old(entries)
                         then old(entries)["value" := JNull] else old(entries)
    {
      if "time" !in entries {
        r := Err(ParseFailure("missing field 'time' in time value pair"));
      } else if !IsStr(entries["time"]) {
        r := Err(ParseFailure("field 'time' in time value pair is not a string"));
      } else {
        if "value" in entries {
          if !IsScalar(entries["value"]) {
            r := Err(ParseFailure("field 'value' in time value pair is not a string, int or float"));
            return;
          }
        } else {
          entries := entries["value" := JNull];
        }
        r := Ok(TimeValuePair(entries["time"].str, entries["value"]));
      }
    }
  }

  // ---------------------------------------------------------------------
  // ChannelValues
  // ---------------------------------------------------------------------

  /** The readings of one channel of one component, oldest first. */
  datatype ChannelValues = ChannelValues(channelId: string, componentId: string, values: seq<TimeValuePair>)

  /** `channel_id@component_id`, as the error message of `latest_value` and
      the fully qualified channel ids write it. */
  function AtJoin(channelId: string, componentId: string): string
  {
    channelId + "@" + componentId
  }

  /** `latest_value()`: the last reading, or a `ValueError` when there is none. */
  function LatestValue(cv: ChannelValues): (r: Result<TimeValuePair, Error>)
    ensures r.Ok? <==> |cv.values| > 0
    ensures r.Ok? ==> r.value == cv.values[|cv.values| - 1]
    ensures r.Err? ==> r.error.kind == ValueError
  {
    if |cv.values| == 0 then
      Err(Error(ValueError, "no values available for " + AtJoin(cv.channelId, cv.componentId)))
    else Ok(cv.values[|cv.values| - 1])
  }

  /** The validated fields of one wire record of `measurements/live`. */
  datatype ChannelRecord = ChannelRecord(channelId: string, componentId: string, values: seq<Json>)

  predicate IsChannelDict(data: Json)
  {
    && data.JDict?
    && "channelId" in data.fields && "componentId" in data.fields && "values" in data.fields
    && IsStr(data.fields["channelId"]) && IsStr(data.fields["componentId"])
    && data.fields["values"].JList?
  }

  /** `ChannelValues.__parse_dict(data)` */
  function ParseChannelRecord(data: Json): (r: Result<ChannelRecord, Error>)
    ensures r.Ok? <==> IsChannelDict(data)
    ensures r.Err? ==> r.error.kind == ParsingError
    ensures r.Ok? ==>
      && data.fields["channelId"] == JStr(r.value.channelId)
      && data.fields["componentId"] == JStr(r.value.componentId)
      && data.fields["values"] == JList(r.value.values)
  {
    if !data.JDict? then Err(ParseFailure("channel values is not a dict"))
    else
      var f := data.fields;
      if "channelId" !in f then Err(ParseFailure("missing field 'channelId' in channel values"))
      else if "componentId" !in f then Err(ParseFailure("missing field 'componentId' in channel values"))
      else if "values" !in f then Err(ParseFailure("missing field 'values' in channel values"))
      else if !IsStr(f["channelId"]) then Err(ParseFailure("field 'channelId' in channel values is not a string"))
      else if !IsStr(f["componentId"]) then Err(ParseFailure("field 'componentId' in channel values is not a string"))
      else if !f["values"].JList? then Err(ParseFailure("field 'values' in channel values is not a list"))
      else Ok(ChannelRecord(f["channelId"].str, f["componentId"].str, f["values"].items))
  }

  /** The array-channel test of `from_dict`: the first value record is a dict
      with a string `time` and a list `values`. */
  predicate IsArrayRecord(values: seq<Json>)
  {
    && |values| > 0
    && values[0].JDict?
    && "time" in values[0].fields && IsStr(values[0].fields["time"])
    && "values" in values[0].fields && values[0].fields["values"].JList?
  }

  /** The channel id with a trailing `[]` removed. */
  function ArrayBaseId(channelId: string): (base: string)
    ensures EndsWith(channelId, "[]") ==> base + "[]" == channelId
    ensures !EndsWith(channelId, "[]") ==> base == channelId
  {
    if EndsWith(channelId, "[]") then channelId[..|channelId| - 2] else channelId
  }

  /** `f"{base}[{i}]"` */
  function IndexedChannelId(base: string, i: nat): string
  {
    base + "[" + NatToString(i) + "]"
  }

  /** One single-reading entry per element of an array record. */
  function FanOut(base: string, componentId: string, time: string, items: seq<Json>): (r: seq<ChannelValues>)
    ensures |r| == |items|
    ensures forall i :: 0 <= i < |items| ==>
      r[i] == ChannelValues(IndexedChannelId(base, i), componentId, [TimeValuePair(time, items[i])])
  {
    seq(|items|, i requires 0 <= i < |items| =>
      ChannelValues(IndexedChannelId(base, i), componentId, [TimeValuePair(time, items[i])]))
  }

  /** `[TimeValuePair.from_dict(v) for v in values]`: every record parsed in
      order, or the error of the first record that fails. */
  function TimeValuePairsFromList(values: seq<Json>): (r: Result<seq<TimeValuePair>, Error>)
    ensures r.Ok? <==> forall i :: 0 <= i < |values| ==> IsTimeValueDict(values[i])
    ensures r.Ok? ==> |r.value| == |values|
    ensures r.Ok? ==> forall i :: 0 <= i < |values| ==> TimeValuePairFromDict(values[i]) == Ok(r.value[i])
    ensures r.Err? ==> exists k :: 0 <= k < |values| && TimeValuePairFromDict(values[k]) == Err(r.error)
                        && forall j :: 0 <= j < k ==> IsTimeValueDict(values[j])
    decreases |values|
  {
    if |values| == 0 then Ok([])
    else
      match TimeValuePairFromDict(values[0])
      case Err(e) => Err(e)
      case Ok(p) =>
        match TimeValuePairsFromList(values[1..])
        case Err(e) =>
          assert exists k :: 0 <= k < |values[1..]| && TimeValuePairFromDict(values[1..][k]) == Err(e)
                  && forall j :: 0 <= j < k ==> IsTimeValueDict(values[1..][j]);
          var k :| 0 <= k < |values[1..]| && TimeValuePairFromDict(values[1..][k]) == Err(e)
                  && forall j :: 0 <= j < k ==> IsTimeValueDict(values[1..][j]);
          assert forall j :: 0 <= j < k + 1 ==> IsTimeValueDict(values[j]) by {
            forall j | 0 <= j < k + 1 ensures IsTimeValueDict(values[j]) {
              if j > 0 { assert values[j] == values[1..][j - 1]; }
            }
          }
          Err(e)
        case Ok(ps) =>
          assert forall i :: 1 <= i < |values| ==> values[i] == values[1..][i - 1];
          Ok([p] + ps)
  }

  /** `ChannelValues.from_dict(data)`: a list of channel values, one entry for
      a plain channel, one entry per array element for an array channel. */
  function ChannelValuesFromDict(data: Json): (r: Result<seq<ChannelValues>, Error>)
    ensures r.Err? ==> r.error.kind == ParsingError
    ensures r.Ok? ==> IsChannelDict(data)
  {
    match ParseChannelRecord(data)
    case Err(e) => Err(e)
    case Ok(rec) =>
      if IsArrayRecord(rec.values) then
        var first := rec.values[0].fields;
        Ok(FanOut(ArrayBaseId(rec.channelId), rec.componentId, first["time"].str, first["values"].items))
      else
        match TimeValuePairsFromList(rec.values)
        case Err(e) => Err(e)
        case Ok(pairs) => Ok([ChannelValues(rec.channelId, rec.componentId, pairs)])
  }

  /** A plain channel gives exactly one entry with the record's ids and every
      value record parsed, in order; it fails exactly when one of the value
      records is malformed. */
  lemma PlainChannelOneEntry(data: Json, rec: ChannelRecord)
    requires ParseChannelRecord(data) == Ok(rec) && !IsArrayRecord(rec.values)
    ensures ChannelValuesFromDict(data).Ok? <==> forall i :: 0 <= i < |rec.values| ==> IsTimeValueDict(rec.values[i])
    ensures ChannelValuesFromDict(data).Ok? ==>
      var r := ChannelValuesFromDict(data).value;
      && |r| == 1
      && r[0].channelId == rec.channelId && r[0].componentId == rec.componentId
      && |r[0].values| == |rec.values|
      && forall i :: 0 <= i < |rec.values| ==> TimeValuePairFromDict(rec.values[i]) == Ok(r[0].values[i])
  {
  }

  /** With an empty `values` list there is still one entry, and asking it for
      its latest value fails. */
  lemma EmptyChannelHasNoLatest(data: Json, rec: ChannelRecord)
    requires ParseChannelRecord(data) == Ok(rec) && rec.values == []
    ensures ChannelValuesFromDict(data).Ok?
    ensures |ChannelValuesFromDict(data).value| == 1
    ensures LatestValue(ChannelValuesFromDict(data).value[0]).Err?
  {
  }

  /** Otherwise the latest value of a plain channel is its last record. */
  lemma PlainChannelLatestIsLast(data: Json, rec: ChannelRecord)
    requires ParseChannelRecord(data) == Ok(rec) && !IsArrayRecord(rec.values)
    requires ChannelValuesFromDict(data).Ok? && |rec.values| > 0
    ensures LatestValue(ChannelValuesFromDict(data).value[0]) == TimeValuePairFromDict(rec.values[|rec.values| - 1])
  {
    PlainChannelOneEntry(data, rec);
  }

  /** An array record yields one entry per element of its first record's
      `values` list, in index order, named `base[i]`, each holding the shared
      time and the i-th element. */
  lemma ArrayChannelFanOut(data: Json, rec: ChannelRecord)
    requires ParseChannelRecord(data) == Ok(rec) && IsArrayRecord(rec.values)
    ensures ChannelValuesFromDict(data).Ok?
    ensures
      var r := ChannelValuesFromDict(data).value;
      var items := rec.values[0].fields["values"].items;
      var time := rec.values[0].fields["time"].str;
      && |r| == |items|
      && forall i :: 0 <= i < |items| ==>
           && r[i].channelId == IndexedChannelId(ArrayBaseId(rec.channelId), i)
           && r[i].componentId == rec.componentId
           && r[i].values == [TimeValuePair(time, items[i])]
  {
  }

  /** Only the first record of an array channel is read: any later records
      are ignored, whatever they hold. */
  lemma ArrayChannelIgnoresLaterRecords(channelId: string, componentId: string, first: Json, later: seq<Json>)
    requires IsArrayRecord([first])
    ensures
      var record := (vs: seq<Json>) => JDict(map[
        "channelId" := JStr(channelId), "componentId" := JStr(componentId), "values" := JList(vs)]);
      ChannelValuesFromDict(record([first] + later)) == ChannelValuesFromDict(record([first]))
  {
    assert ([first] + later)[0] == first;
  }

  /** The fan-out names distinct channels. */
  lemma FanOutIdsDistinct(base: string, i: nat, j: nat)
    requires IndexedChannelId(base, i) == IndexedChannelId(base, j)
    ensures i == j
  {
    var si, sj := NatToString(i), NatToString(j);
    assert base + "[" + si + "]" == IndexedChannelId(base, i);
    assert (base + "[" + si + "]")[|base| + 1..|base| + 1 + |si|] == si;
    assert (base + "[" + sj + "]")[|base| + 1..|base| + 1 + |sj|] == sj;
    // the digits are followed by ']' in both names, so they have equal length
    assert |si| == |sj|;
    NatToStringInjective(i, j);
  }

  // ---------------------------------------------------------------------
  // ComponentInfo
  // ---------------------------------------------------------------------

  /** The fields of a `ComponentInfo`, as a value. */
  datatype ComponentView = ComponentView(
    componentId: string,
    componentType: string,
    name: string,
    serialNumber: Option<string>,
    firmwareVersion: Option<string>)

  predicate IsComponentDict(data: Json)
  {
    && data.JDict?
    && "componentId" in data.fields && "componentType" in data.fields && "name" in data.fields
    && IsStr(data.fields["componentId"]) && IsStr(data.fields["componentType"]) && IsStr(data.fields["name"])
  }

  /** The component `ComponentInfo.from_dict(data)` builds. */
  function ComponentViewFromDict(data: Json): (r: Result<ComponentView, Error>)
    ensures r.Ok? <==> IsComponentDict(data)
    ensures r.Err? ==> r.error.kind == ParsingError
    ensures r.Ok? ==>
      && data.fields["componentId"] == JStr(r.value.componentId)
      && data.fields["componentType"] == JStr(r.value.componentType)
      && data.fields["name"] == JStr(r.value.name)
      && r.value.serialNumber == None && r.value.firmwareVersion == None
  {
    if !data.JDict? then Err(ParseFailure("component info is not a dict"))
    else
      var f := data.fields;
      if "componentId" !in f then Err(ParseFailure("missing field 'componentId' in component info"))
      else if "componentType" !in f then Err(ParseFailure("missing field 'componentType' in component info"))
      else if "name" !in f then Err(ParseFailure("missing field 'name' in component info"))
      else if !IsStr(f["componentId"]) then Err(ParseFailure("field 'componentId' in component info is not a string"))
      else if !IsStr(f["componentType"]) then Err(ParseFailure("field 'componentType' in component info is not a string"))
      else if !IsStr(f["name"]) then Err(ParseFailure("field 'name' in component info is not a string"))
      else Ok(ComponentView(f["componentId"].str, f["componentType"].str, f["name"].str, None, None))
  }

  /** A feature entry that carries the firmware version. */
  predicate IsFirmwareFeature(feature: Json)
  {
    && feature.JDict?
    && "infoWidgetType" in feature.fields && feature.fields["infoWidgetType"] == JStr("FirmwareVersion")
    && "value" in feature.fields && IsStr(feature.fields["value"])
  }

  /** The value of the first firmware-version feature, if any. */
  function FirmwareVersionIn(features: seq<Json>): Option<string>
    decreases |features|
  {
    if |features| == 0 then None
    else if IsFirmwareFeature(features[0]) then Some(features[0].fields["value"].str)
    else FirmwareVersionIn(features[1..])
  }

  /** The firmware version found is that of the FIRST matching entry; when
      none is found, no entry matches. */
  lemma {:induction false} FirmwareVersionIsFirstMatch(features: seq<Json>)
    ensures FirmwareVersionIn(features).None? <==> forall k :: 0 <= k < |features| ==> !IsFirmwareFeature(features[k])
    ensures FirmwareVersionIn(features).Some? ==>
      exists k :: 0 <= k < |features| && IsFirmwareFeature(features[k])
        && features[k].fields["value"] == JStr(FirmwareVersionIn(features).value)
        && forall j :: 0 <= j < k ==> !IsFirmwareFeature(features[j])
    decreases |features|
  {
    if |features| > 0 && !IsFirmwareFeature(features[0]) {
      var rest := features[1..];
      FirmwareVersionIsFirstMatch(rest);
      assert forall k :: 1 <= k < |features| ==> features[k] == rest[k - 1];
      if FirmwareVersionIn(rest).Some? {
        var k :| 0 <= k < |rest| && IsFirmwareFeature(rest[k])
          && rest[k].fields["value"] == JStr(FirmwareVersionIn(rest).value)
          && forall j :: 0 <= j < k ==> !IsFirmwareFeature(rest[j]);
        assert IsFirmwareFeature(features[k + 1]);
        assert forall j :: 0 <= j < k + 1 ==> !IsFirmwareFeature(features[j]);
      }
    } else if |features| > 0 {
      assert IsFirmwareFeature(features[0]);
    }
  }

  /** The serial number `add_extra` takes from an extra-data dict. */
  function ExtraSerial(extra: Json): (r: Option<string>)
    ensures r.Some? ==> Has(extra, "serial") && extra.fields["serial"] == JStr(r.value)
  {
    StrField(extra, "serial")
  }

  /** The firmware version `add_extra` takes from an extra-data dict. */
  function ExtraFirmwareVersion(extra: Json): Option<string>
  {
    if Has(extra, "deviceInfoFeatures") && extra.fields["deviceInfoFeatures"].JList?
    then FirmwareVersionIn(extra.fields["deviceInfoFeatures"].items)
    else None
  }

  /** What `add_extra(extra)` makes of a component. */
  function WithExtra(c: ComponentView, extra: Json): (r: ComponentView)
    ensures r.componentId == c.componentId && r.componentType == c.componentType && r.name == c.name
  {
    c.(serialNumber := if ExtraSerial(extra).Some? then ExtraSerial(extra) else c.serialNumber,
       firmwareVersion := if ExtraFirmwareVersion(extra).Some? then ExtraFirmwareVersion(extra) else c.firmwareVersion)
  }

  /** Extra data that is not a dict changes nothing; otherwise only a string
      `serial` and a matching feature entry change anything. */
  lemma WithExtraChangesOnlyWhatItFinds(c: ComponentView, extra: Json)
    ensures !extra.JDict? ==> WithExtra(c, extra) == c
    ensures WithExtra(c, extra).serialNumber != c.serialNumber ==>
      Has(extra, "serial") && extra.fields["serial"] == JStr(WithExtra(c, extra).serialNumber.value)
    ensures WithExtra(c, extra).firmwareVersion != c.firmwareVersion ==>
      && Has(extra, "deviceInfoFeatures") && extra.fields["deviceInfoFeatures"].JList?
      && exists k :: 0 <= k < |extra.fields["deviceInfoFeatures"].items|
           && IsFirmwareFeature(extra.fields["deviceInfoFeatures"].items[k])
  {
    if WithExtra(c, extra).firmwareVersion != c.firmwareVersion {
      FirmwareVersionIsFirstMatch(extra.fields["deviceInfoFeatures"].items);
    }
  }

  /** A component of the appliance; `add_extra` fills in its serial number
      and firmware version after discovery. */
  class ComponentInfo {
    const componentId: string
    const componentType: string
    const name: string
    var serialNumber: Option<string>
    var firmwareVersion: Option<string>

    function View(): ComponentView
      reads this
    {
      ComponentView(componentId, componentType, name, serialNumber, firmwareVersion)
    }

    constructor(v: ComponentView)
      ensures View() == v
    {
      componentId := v.componentId;
      componentType := v.componentType;
      name := v.name;
      serialNumber := v.serialNumber;
      firmwareVersion := v.firmwareVersion;
    }

    /** `ComponentInfo.from_dict(data)`: a new component, or the parsing
        error of the first failed check. */
    static method FromDict(data: Json) returns (r: Result<ComponentInfo, Error>)
      ensures r.Ok? <==> ComponentViewFromDict(data).Ok?
      ensures r.Ok? ==> fresh(r.value) && r.value.View() == ComponentViewFromDict(data).value
      ensures r.Err? ==> r.error == ComponentViewFromDict(data).error
    {
      var v := ComponentViewFromDict(data);
      if v.Err? {
        r := Err(v.error);
      } else {
        var c := new ComponentInfo(v.value);
        r := Ok(c);
      }
    }

    /** `add_extra(extra_data)`: only the serial number and the firmware
        version can change, as the frame says. */
    method AddExtra(extra: Json)
      modifies this`serialNumber, this`firmwareVersion
      ensures View() == WithExtra(old(View()), extra)
    {
      if extra.JDict? {
        if "serial" in extra.fields && IsStr(extra.fields["serial"]) {
          serialNumber := Some(extra.fields["serial"].str);
        }
        if "deviceInfoFeatures" in extra.fields && extra.fields["deviceInfoFeatures"].JList? {
          var features := extra.fields["deviceInfoFeatures"].items;
          var i := 0;
          while i < |features|
            invariant 0 <= i <= |features|
            invariant FirmwareVersionIn(features[i..]) == FirmwareVersionIn(features)
            invariant firmwareVersion == old(firmwareVersion)
          {
            assert features[i..][1..] == features[i + 1..];
            if IsFirmwareFeature(features[i]) {
              firmwareVersion := Some(features[i].fields["value"].str);
              break;
            }
            i := i + 1;
          }
        }
      }
    }
  }

  // ---------------------------------------------------------------------
  // LiveMeasurementQueryItem
  // ---------------------------------------------------------------------

  /** One channel to poll. */
  datatype LiveMeasurementQueryItem = LiveMeasurementQueryItem(componentId: string, channelId: string)

  /** `to_dict()`: the wire shape of a query item. */
  function QueryItemToDict(q: LiveMeasurementQueryItem): (d: Json)
    ensures d.JDict? && d.fields.Keys == {"componentId", "channelId"}
  {
    JDict(map["componentId" := JStr(q.componentId), "channelId" := JStr(q.channelId)])
  }

  /** Reads a query item back from exactly its two string fields. */
  function QueryItemOfDict(d: Json): Option<LiveMeasurementQueryItem>
  {
    if d.JDict? && d.fields.Keys == {"componentId", "channelId"}
       && IsStr(d.fields["componentId"]) && IsStr(d.fields["channelId"])
    then Some(LiveMeasurementQueryItem(d.fields["componentId"].str, d.fields["channelId"].str))
    else None
  }

  lemma QueryItemRoundTrip(q: LiveMeasurementQueryItem)
    ensures QueryItemOfDict(QueryItemToDict(q)) == Some(q)
  {
  }
}
