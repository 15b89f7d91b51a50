/** The sensor entities: how a channel's known-channel entry becomes a Home
    Assistant sensor description (icon, device class, unit, state class),
    and how a sensor reads its value from the coordinator's latest
    measurements, translating enum codes to labels. */
module Sensor {

  import opened Wrappers
  import opened Json
  import opened Model
  import opened KnownChannels
  import opened Util

  /** Home Assistant's sensor device classes used by the integration. */
  datatype DeviceClass = Battery | Duration | Voltage | Current | Power | Energy | Temperature | Frequency | Enum

  /** Home Assistant's units of measurement used by the integration. */
  datatype UnitOfMeasurement = Percentage | Seconds | Volt | Ampere | Watt | WattHour | Celsius | Hertz | VoltAmpereReactive

  /** Home Assistant's sensor state classes. */
  datatype StateClass = Measurement | Total | TotalIncreasing

  /** The device kinds that have an icon of their own. */
  predicate HasOwnIcon(deviceKind: string)
  {
    deviceKind == DeviceKindGrid || deviceKind == DeviceKindBattery || deviceKind == DeviceKindPv
  }

  /** `device_kind_to_icon`: grid, battery and PV get their own icons, every
      other kind the generic flash. */
  function DeviceKindToIcon(deviceKind: string): (icon: string)
    ensures icon == "mdi:flash" <==> !HasOwnIcon(deviceKind)
  {
    if deviceKind == DeviceKindGrid then "mdi:transmission-tower"
    else if deviceKind == DeviceKindBattery then "mdi:battery"
    else if deviceKind == DeviceKindPv then "mdi:solar-panel"
    else "mdi:flash"
  }

  /** The three kinds with icons of their own are told apart by their icons. */
  lemma OwnIconsDistinct(a: string, b: string)
    requires HasOwnIcon(a) && HasOwnIcon(b)
    requires DeviceKindToIcon(a) == DeviceKindToIcon(b)
    ensures a == b
  {
  }

  /** The channels whose device class does not follow from their unit. */
  predicate IsSpecialChannel(channelId: string)
  {
    channelId == "Measurement.Bat.ChaStt" || channelId == "Measurement.Bat.Diag.StatTm"
  }

  /** The units the unit table recognises; everything else counts as a plain
      number. */
  predicate IsRecognisedUnit(unit: string)
  {
    unit in {UnitVolt, UnitAmpere, UnitWatt, UnitWattHour, UnitCelsius, UnitHertz,
             UnitVoltAmpereReactive, UnitSecond, UnitPercent, UnitEnum}
  }

  /** `channel_to_device_class_and_unit`: the battery charge state and the
      battery operating time are fixed; otherwise the unit alone decides. */
  function ChannelToDeviceClassAndUnit(channelId: string, unit: string): (r: (Option<DeviceClass>, Option<UnitOfMeasurement>))
    ensures channelId == "Measurement.Bat.ChaStt" ==> r == (Some(Battery), Some(Percentage))
    ensures channelId == "Measurement.Bat.Diag.StatTm" ==> r == (Some(Duration), Some(Seconds))
    ensures r.0 == Some(Enum) <==> !IsSpecialChannel(channelId) && unit == UnitEnum
    ensures r == (None, None) <==> !IsSpecialChannel(channelId) && (!IsRecognisedUnit(unit) || unit == UnitPlainNumber)
    ensures r.0.None? && r.1.Some? <==>
      !IsSpecialChannel(channelId) && unit in {UnitVoltAmpereReactive, UnitSecond, UnitPercent}
    ensures r.0.Some? && r.0 != Some(Enum) ==> r.1.Some?
  {
    if channelId == "Measurement.Bat.ChaStt" then (Some(Battery), Some(Percentage))
    else if channelId == "Measurement.Bat.Diag.StatTm" then (Some(Duration), Some(Seconds))
    else if unit == UnitVolt then (Some(Voltage), Some(Volt))
    else if unit == UnitAmpere then (Some(Current), Some(Ampere))
    else if unit == UnitWatt then (Some(Power), Some(Watt))
    else if unit == UnitWattHour then (Some(Energy), Some(WattHour))
    else if unit == UnitCelsius then (Some(Temperature), Some(Celsius))
    else if unit == UnitHertz then (Some(Frequency), Some(Hertz))
    else if unit == UnitVoltAmpereReactive then (None, Some(VoltAmpereReactive))
    else if unit == UnitSecond then (None, Some(Seconds))
    else if unit == UnitPercent then (None, Some(Percentage))
    else if unit == UnitEnum then (Some(Enum), None)
    else (None, None)
  }

  /** Outside the two special channels the channel id plays no part. */
  lemma UnitAloneDecides(a: string, b: string, unit: string)
    requires !IsSpecialChannel(a) && !IsSpecialChannel(b)
    ensures ChannelToDeviceClassAndUnit(a, unit) == ChannelToDeviceClassAndUnit(b, unit)
  {
  }

  /** `cumulative_mode_to_state_class`: counters and totals only increase,
      minima and maxima are totals, everything else is a measurement. */
  function CumulativeModeToStateClass(mode: string): (s: StateClass)
    ensures s == TotalIncreasing <==> mode == CumulativeModeCounter || mode == CumulativeModeTotal
    ensures s == Total <==> mode == CumulativeModeMinimum || mode == CumulativeModeMaximum
    ensures s == Measurement <==> mode !in {CumulativeModeCounter, CumulativeModeTotal, CumulativeModeMinimum, CumulativeModeMaximum}
  {
    if mode == CumulativeModeCounter then TotalIncreasing
    else if mode == CumulativeModeTotal then TotalIncreasing
    else if mode == CumulativeModeMinimum then Total
    else if mode == CumulativeModeMaximum then Total
    else Measurement
  }

  /** The `SensorEntityDescription` a sensor gets. */
  datatype SensorDescription = SensorDescription(
    key: string,
    name: string,
    icon: Option<string>,
    deviceClass: Option<DeviceClass>,
    unit: Option<UnitOfMeasurement>,
    stateClass: Option<StateClass>)

  function GetOr<T>(o: Option<T>, default: T): T
  {
    if o.Some? then o.value else default
  }

  /** The description `_set_description` gives the sensor of a channel: a
      generic measurement for an unknown channel, otherwise the entry's icon,
      device class, unit and state class, where an enum device class has no
      state class.  Key and name are both the fqid. */
  function DescriptionFor(componentId: string, channelId: string): (d: SensorDescription)
    ensures d.key == ChannelPartsToFqid(componentId, channelId) && d.name == d.key
    ensures GetKnownChannel(channelId).None? ==>
      d.icon.None? && d.deviceClass.None? && d.unit.None? && d.stateClass == Some(Measurement)
    ensures GetKnownChannel(channelId).Some? ==>
      var entry := GetKnownChannel(channelId).value;
      && d.icon == Some(DeviceKindToIcon(entry.deviceKind))
      && (d.deviceClass, d.unit) == ChannelToDeviceClassAndUnit(channelId, entry.unit)
    ensures d.deviceClass == Some(Enum) ==> d.stateClass.None?
    ensures d.deviceClass != Some(Enum) ==> d.stateClass.Some?
    ensures GetKnownChannel(channelId).Some? && d.deviceClass != Some(Enum) ==>
      var mode := GetKnownChannel(channelId).value.cumulativeMode;
      d.stateClass == Some(CumulativeModeToStateClass(GetOr(mode, CumulativeModeNone)))
  {
    var fqid := ChannelPartsToFqid(componentId, channelId);
    match GetKnownChannel(channelId)
    case None => SensorDescription(fqid, fqid, None, None, None, Some(Measurement))
    case Some(entry) =>
      var (deviceClass, unit) := ChannelToDeviceClassAndUnit(channelId, entry.unit);
      var stateClass := CumulativeModeToStateClass(GetOr(entry.cumulativeMode, CumulativeModeNone));
      SensorDescription(fqid, fqid, Some(DeviceKindToIcon(entry.deviceKind)), deviceClass, unit,
                        if deviceClass == Some(Enum) then None else Some(stateClass))
  }

  /** The enum table a sensor holds after `_set_description`: the entry's
      table (or an empty one) for a known channel of unit ENUM, and whatever
      it held before otherwise. */
  function EnumValuesFor(channelId: string, current: Option<map<int, string>>): (r: Option<map<int, string>>)
    ensures r != current ==> GetKnownChannel(channelId).Some? && GetKnownChannel(channelId).value.unit == UnitEnum
    ensures GetKnownChannel(channelId).Some? && GetKnownChannel(channelId).value.unit == UnitEnum ==>
      r == Some(GetOr(GetKnownChannel(channelId).value.enumValues, map[]))
  {
    match GetKnownChannel(channelId)
    case Some(entry) => if entry.unit == UnitEnum then Some(GetOr(entry.enumValues, map[])) else current
    case None => current
  }

  /** A known channel of unit ENUM is an enum sensor without a state class
      (unless it is one of the two special channels). */
  lemma EnumChannelHasNoStateClass(componentId: string, channelId: string)
    requires GetKnownChannel(channelId).Some? && GetKnownChannel(channelId).value.unit == UnitEnum
    requires !IsSpecialChannel(channelId)
    ensures DescriptionFor(componentId, channelId).deviceClass == Some(Enum)
    ensures DescriptionFor(componentId, channelId).stateClass.None?
    ensures EnumValuesFor(channelId, None).Some?
  {
  }

  /** The device health channel translates the common status codes. */
  lemma HealthUsesCommonStatusCodes(componentId: string)
    ensures EnumValuesFor("Measurement.Operation.Health", None) == Some(CommonEnumValues)
    ensures DescriptionFor(componentId, "Measurement.Operation.Health").stateClass.None?
  {
    assert GetKnownChannel("Measurement.Operation.Health") == Some(KnownChannelTable["Measurement.Operation.Health"]);
  }

  /** What a sensor shows: the label of an enum code, the code in brackets
      when the enum table does not have it (`"[<value>]"`), or the raw value
      of a channel without an enum table. */
  datatype SensorValue = Label(text: string) | Bracketed(code: Json) | Raw(value: Json)

  /** The key a value stands for in a `dict[int, str]` lookup: ints, booleans
      (`True == 1`) and integral floats (`2.0 == 2`) can match, strings and
      `None` never do, and lists and dicts cannot be hashed. */
  function EnumKey(value: Json): (r: Result<Option<int>, Error>)
    ensures r.Err? <==> value.JList? || value.JDict?
    ensures r.Err? ==> r.error.kind == TypeError
    ensures value.JInt? ==> r == Ok(Some(value.n))
    ensures IsInt(value) ==> r == Ok(Some(IntValue(value)))
    ensures value.JStr? || value.JNull? ==> r == Ok(None)
    ensures value.JFloat? && value.x == value.x.Floor as real ==> r == Ok(Some(value.x.Floor))
    ensures value.JFloat? && value.x != value.x.Floor as real ==> r == Ok(None)
  {
    match value
    case JNull => Ok(None)
    case JBool(b) => Ok(Some(if b then 1 else 0))
    case JInt(n) => Ok(Some(n))
    case JFloat(x) => Ok(if x == x.Floor as real then Some(x.Floor) else None)
    case JStr(_) => Ok(None)
    case JList(_) => Err(Error(TypeError, "unhashable type: 'list'"))
    case JDict(_) => Err(Error(TypeError, "unhashable type: 'dict'"))
  }

  /** The enum translation of `native_value`. */
  function TranslateValue(value: Json, enumValues: Option<map<int, string>>): (r: Result<SensorValue, Error>)
    ensures enumValues.None? ==> r == Ok(Raw(value))
    ensures enumValues.Some? && (value.JList? || value.JDict?) ==> r.Err? && r.error.kind == TypeError
    ensures enumValues.Some? && IsInt(value) ==>
      r == Ok(if IntValue(value) in enumValues.value then Label(enumValues.value[IntValue(value)]) else Bracketed(value))
    ensures enumValues.Some? && (value.JStr? || value.JNull?) ==> r == Ok(Bracketed(value))
    ensures enumValues.Some? && value.JFloat? && value.x == value.x.Floor as real ==>
      r == Ok(if value.x.Floor in enumValues.value then Label(enumValues.value[value.x.Floor]) else Bracketed(value))
    ensures enumValues.Some? && value.JFloat? && value.x != value.x.Floor as real ==> r == Ok(Bracketed(value))
    ensures enumValues.Some? && r.Ok? ==> r.value.Label? || r.value == Bracketed(value)
    ensures r.Ok? && r.value.Label? ==> r.value.text in enumValues.value.Values
  {
    match enumValues
    case None => Ok(Raw(value))
    case Some(table) =>
      match EnumKey(value)
      case Err(e) => Err(e)
      case Ok(key) => Ok(if key.Some? && key.value in table then Label(table[key.value]) else Bracketed(value))
  }

  /** Status code 307 of the common table reads "Ok"; an unknown code is shown
      in brackets. */
  lemma CommonStatusCodes()
    ensures TranslateValue(JInt(307), Some(CommonEnumValues)) == Ok(Label("Ok"))
    ensures TranslateValue(JInt(1), Some(CommonEnumValues)) == Ok(Bracketed(JInt(1)))
  {
  }

  predicate IsChannelOf(cv: ChannelValues, componentId: string, channelId: string)
  {
    cv.componentId == componentId && cv.channelId == channelId
  }

  /** The position of the first entry of `data` for the channel, if any. */
  function FirstMatch(data: seq<ChannelValues>, componentId: string, channelId: string): (k: Option<nat>)
    ensures k.Some? ==> k.value < |data| && IsChannelOf(data[k.value], componentId, channelId)
    ensures k.Some? ==> forall j :: 0 <= j < k.value ==> !IsChannelOf(data[j], componentId, channelId)
    ensures k.None? ==> forall j :: 0 <= j < |data| ==> !IsChannelOf(data[j], componentId, channelId)
    decreases |data|
  {
    if |data| == 0 then None
    else if IsChannelOf(data[0], componentId, channelId) then Some(0)
    else
      match FirstMatch(data[1..], componentId, channelId)
      case None => None
      case Some(k) => Some(k + 1)
  }

  /** `native_value` over the coordinator's data: `StopIteration` when the
      channel has no entry, the `ValueError` of `latest_value` when the entry
      holds no reading, and otherwise the translated latest reading. */
  function NativeValueOf(data: seq<ChannelValues>, componentId: string, channelId: string,
                         enumValues: Option<map<int, string>>): (r: Result<SensorValue, Error>)
    ensures FirstMatch(data, componentId, channelId).None? ==> r == Err(Error(StopIteration, ""))
    ensures FirstMatch(data, componentId, channelId).Some? ==>
      var cv := data[FirstMatch(data, componentId, channelId).value];
      && (|cv.values| == 0 ==> r.Err? && r.error.kind == ValueError)
      && (|cv.values| > 0 ==> r == TranslateValue(cv.values[|cv.values| - 1].value, enumValues))
  {
    match FirstMatch(data, componentId, channelId)
    case None => Err(Error(StopIteration, ""))
    case Some(k) =>
      match LatestValue(data[k])
      case Err(e) => Err(e)
      case Ok(pair) => TranslateValue(pair.value, enumValues)
  }

  /** A sensor entity for one channel of one component. */
  class SMASensor {
    const componentId: string
    const channelId: string
    var enumValues: Option<map<int, string>>
    var description: SensorDescription

    constructor(componentId: string, channelId: string)
      ensures this.componentId == componentId && this.channelId == channelId
      ensures enumValues == EnumValuesFor(channelId, None)
      ensures description == DescriptionFor(componentId, channelId)
    {
      this.componentId := componentId;
      this.channelId := channelId;
      enumValues := None;
      description := SensorDescription("", "", None, None, None, None);
      new;
      SetDescription();
    }

    /** `_set_description` */
    method SetDescription()
      modifies this`enumValues, this`description
      ensures description == DescriptionFor(componentId, channelId)
      ensures enumValues == EnumValuesFor(channelId, old(enumValues))
    {
      var fqid := ChannelPartsToFqid(componentId, channelId);
      var known := GetKnownChannel(channelId);
      var icon: Option<string> := None;
      var deviceClass: Option<DeviceClass> := None;
      var unit: Option<UnitOfMeasurement> := None;
      var stateClass: Option<StateClass> := Some(Measurement);
      if known.Some? {
        var entry := known.value;
        icon := Some(DeviceKindToIcon(entry.deviceKind));
        var classAndUnit := ChannelToDeviceClassAndUnit(channelId, entry.unit);
        deviceClass, unit := classAndUnit.0, classAndUnit.1;
        stateClass := Some(CumulativeModeToStateClass(GetOr(entry.cumulativeMode, CumulativeModeNone)));
        if entry.unit == UnitEnum {
          enumValues := Some(GetOr(entry.enumValues, map[]));
        }
        if deviceClass == Some(Enum) {
          stateClass := None;
        }
      }
      description := SensorDescription(fqid, fqid, icon, deviceClass, unit, stateClass);
    }

    /** `native_value`: searches the coordinator's data for this sensor's
        channel and shows its latest reading. */
    method NativeValue(data: seq<ChannelValues>) returns (r: Result<SensorValue, Error>)
      ensures r == NativeValueOf(data, componentId, channelId, enumValues)
    {
      var i := 0;
      while i < |data| && !IsChannelOf(data[i], componentId, channelId)
        invariant 0 <= i <= |data|
        invariant forall j :: 0 <= j < i ==> !IsChannelOf(data[j], componentId, channelId)
      {
        i := i + 1;
      }
      if i == |data| {
        return Err(Error(StopIteration, ""));
      }
      var latest := LatestValue(data[i]);
      if latest.Err? {
        return Err(latest.error);
      }
      var value := latest.value.value;
      if enumValues.None? {
        return Ok(Raw(value));
      }
      var key := EnumKey(value);
      if key.Err? {
        return Err(key.error);
      }
      if key.value.Some? && key.value.value in enumValues.value {
        r := Ok(Label(enumValues.value[key.value.value]));
      } else {
        r := Ok(Bracketed(value));
      }
    }
  }
}
