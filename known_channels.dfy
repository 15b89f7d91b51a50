/** The table of channels the integration knows how to present, and the
    lookup that maps an indexed array channel such as
    `Measurement.DcMs.Vol[3]` back to its table key `Measurement.DcMs.Vol[]`.
    The table here holds a representative selection of the real one. */
module KnownChannels {

  import opened Wrappers
  import opened Text

  // units of the SMA data manager's channels
  const UnitPlainNumber := "PLAIN_NUMBER"
  const UnitVolt := "VOLT"
  const UnitAmpere := "AMPERE"
  const UnitWatt := "WATT"
  const UnitWattHour := "WATT_HOUR"
  const UnitCelsius := "CELSIUS"
  const UnitHertz := "HERTZ"
  const UnitVoltAmpereReactive := "VOLT_AMPERE_REACTIVE"
  const UnitSecond := "SECOND"
  const UnitPercent := "PERCENT"
  const UnitEnum := "ENUM"  // the channel's values are codes of `enumValues`

  // kinds of device a channel belongs to
  const DeviceKindGrid := "GRID"
  const DeviceKindBattery := "BATTERY"
  const DeviceKindPv := "PV"
  const DeviceKindOther := "OTHER"

  // how a channel's values accumulate
  const CumulativeModeNone := "NONE"
  const CumulativeModeCounter := "COUNTER"
  const CumulativeModeTotal := "TOTAL"
  const CumulativeModeMinimum := "MINIMUM"
  const CumulativeModeMaximum := "MAXIMUM"

  /** The status codes shared by the enum channels. */
  const CommonEnumValues: map<int, string> := map[
    55 := "Communication error",
    303 := "Off",
    304 := "Island operation",
    305 := "Island operation",
    306 := "SMA island operation 60 Hz",
    307 := "Ok",
    308 := "On",
    309 := "Operating",
    310 := "General operating mode",
    311 := "Open",
    312 := "Phase assignment",
    313 := "SMA island operation 50 Hz",
    314 := "Maximum active power",
    315 := "Maximum active power output",
    316 := "Active power setpoint operating mode",
    317 := "All phases",
    318 := "Overload",
    319 := "Overtemperature",
    454 := "Calibration",
    455 := "Warning",
    456 := "Waiting for DC start conditions",
    457 := "Waiting for grid voltage"
  ]

  /** One table entry; `cumulative_mode` and `enum_values` are keys an entry
      may leave out. */
  datatype KnownChannelEntry = KnownChannelEntry(
    name: string,
    deviceKind: string,
    unit: string,
    cumulativeMode: Option<string>,
    enumValues: Option<map<int, string>>)

  function Plain(name: string, deviceKind: string, unit: string): KnownChannelEntry
  {
    KnownChannelEntry(name, deviceKind, unit, None, None)
  }

  function Cumulative(name: string, deviceKind: string, unit: string, mode: string): KnownChannelEntry
  {
    KnownChannelEntry(name, deviceKind, unit, Some(mode), None)
  }

  /** The known channels, keyed by channel id; array channels end in `[]`. */
  const KnownChannelTable: map<string, KnownChannelEntry> := map[
    "Measurement.GridMs.TotVAr" := Plain("Grid Reactive Power", DeviceKindGrid, UnitVoltAmpereReactive),
    "Measurement.GridMs.TotW" := Plain("Grid Power", DeviceKindGrid, UnitWatt),
    "Measurement.GridMs.TotW.Pv" := Plain("PV Power", DeviceKindPv, UnitWatt),
    "Measurement.Metering.GridMs.TotWhIn.Bat" :=
      Cumulative("total power drawn by Battery", DeviceKindBattery, UnitWattHour, CumulativeModeTotal),
    "Measurement.Operation.Health" :=
      KnownChannelEntry("device health status", DeviceKindOther, UnitEnum, None, Some(CommonEnumValues)),
    "Measurement.Bat.ChaStt" := Plain("Battery Charge State", DeviceKindBattery, UnitPercent),
    "Measurement.Bat.Diag.CntErrOvV" :=
      Cumulative("battery overvoltage error count", DeviceKindBattery, UnitPlainNumber, CumulativeModeCounter),
    "Measurement.Bat.Diag.StatTm" := Plain("battery operating time", DeviceKindBattery, UnitSecond),
    "Measurement.Bat.Diag.TmpValMax" :=
      Cumulative("maximum battery temperature", DeviceKindBattery, UnitCelsius, CumulativeModeMaximum),
    "Measurement.DcMs.Vol[]" := Plain("dc voltage", DeviceKindPv, UnitVolt),
    "Measurement.DcMs.Amp[]" := Plain("dc current", DeviceKindPv, UnitAmpere),
    "Measurement.DcMs.Watt[]" := Plain("dc power", DeviceKindPv, UnitWatt),
    "Measurement.MltFncSw.SttMstr" :=
      KnownChannelEntry("multi-function relay status", DeviceKindOther, UnitEnum, None, Some(CommonEnumValues))
  ]

  /** The table key a channel id is looked up under: an id ending in `]` has
      everything from its last `[` replaced by `[]`. */
  function NormalizeChannelId(channelId: string): (key: string)
    ensures EndsWith(channelId, "]") ==> EndsWith(key, "[]")
    ensures !EndsWith(channelId, "]") ==> key == channelId
  {
    if EndsWith(channelId, "]") then
      var key := PyPrefix(channelId, RFind(channelId, '[')) + "[]";
      EndsWithAppend(PyPrefix(channelId, RFind(channelId, '[')), "[]");
      key
    else channelId
  }

  /** `get_known_channel`: the entry of the normalised id, if there is one.
      An id that does not end in `]` is looked up verbatim. */
  function GetKnownChannel(channelId: string): (r: Option<KnownChannelEntry>)
    ensures r.Some? <==> NormalizeChannelId(channelId) in KnownChannelTable
    ensures r.Some? ==> r.value == KnownChannelTable[NormalizeChannelId(channelId)]
    ensures r.Some? ==> r.value in KnownChannelTable.Values
    ensures !EndsWith(channelId, "]") ==>
      r == (if channelId in KnownChannelTable then Some(KnownChannelTable[channelId]) else None)
  {
    var key := NormalizeChannelId(channelId);
    if key in KnownChannelTable then Some(KnownChannelTable[key]) else None
  }

  /** The last `c` of `s + [c] + t` is the one after `s` when `t` has none. */
  lemma RFindLast(s: string, t: string, c: char)
    requires c !in t
    ensures RFind(s + [c] + t, c) == |s|
  {
    var u := s + [c] + t;
    var k := RFind(u, c);
    assert u[|s|] == c;
  }

  /** `base[index]` is looked up as `base[]`, whatever the index is. */
  lemma IndexedLookup(base: string, index: string)
    requires '[' !in index
    ensures NormalizeChannelId(base + "[" + index + "]") == base + "[]"
  {
    var id := base + "[" + index + "]";
    assert id == base + ['['] + (index + "]");
    assert '[' !in index + "]";
    RFindLast(base, index + "]", '[');
    EndsWithAppend(base + "[" + index, "]");
    assert id[..|base|] == base;
  }

  /** Hence two indices of one array channel find the same entry. */
  lemma IndexIsIgnored(base: string, i: string, j: string)
    requires '[' !in i && '[' !in j
    ensures GetKnownChannel(base + "[" + i + "]") == GetKnownChannel(base + "[" + j + "]")
  {
    IndexedLookup(base, i);
    IndexedLookup(base, j);
  }

  /** `Measurement.DcMs.Vol[0]` and `Measurement.DcMs.Vol[7]` are both the dc
      voltage of the PV strings. */
  lemma DcVoltageOfAnyString()
    ensures GetKnownChannel("Measurement.DcMs.Vol[0]") == GetKnownChannel("Measurement.DcMs.Vol[7]")
    ensures GetKnownChannel("Measurement.DcMs.Vol[0]").Some?
    ensures GetKnownChannel("Measurement.DcMs.Vol[0]").value.deviceKind == DeviceKindPv
    ensures GetKnownChannel("Measurement.DcMs.Vol[0]").value.unit == UnitVolt
  {
    assert "Measurement.DcMs.Vol[0]" == "Measurement.DcMs.Vol" + "[" + "0" + "]";
    assert "Measurement.DcMs.Vol[7]" == "Measurement.DcMs.Vol" + "[" + "7" + "]";
    IndexedLookup("Measurement.DcMs.Vol", "0");
    IndexedLookup("Measurement.DcMs.Vol", "7");
    assert "Measurement.DcMs.Vol" + "[]" == "Measurement.DcMs.Vol[]";
  }

  /** The plain channel `Measurement.GridMs.TotW` is the grid power in watts. */
  lemma GridPowerIsKnown()
    ensures GetKnownChannel("Measurement.GridMs.TotW").Some?
    ensures GetKnownChannel("Measurement.GridMs.TotW").value.deviceKind == DeviceKindGrid
    ensures GetKnownChannel("Measurement.GridMs.TotW").value.unit == UnitWatt
  {
    assert "Measurement.GridMs.TotW"[|"Measurement.GridMs.TotW"| - 1] == 'W';
  }

  /** A key that already ends in `[]` is its own key. */
  lemma ArrayKeyIsFixed(base: string)
    ensures NormalizeChannelId(base + "[]") == base + "[]"
  {
    assert base + "[]" == base + "[" + "" + "]";
    IndexedLookup(base, "");
  }

  /** Normalising twice is normalising once. */
  lemma NormalizeIdempotent(channelId: string)
    ensures NormalizeChannelId(NormalizeChannelId(channelId)) == NormalizeChannelId(channelId)
  {
    if EndsWith(channelId, "]") {
      var key := NormalizeChannelId(channelId);
      ArrayKeyIsFixed(key[..|key| - 2]);
      assert key[..|key| - 2] + "[]" == key;
    }
  }

  /** An id ending in `]` without any `[` (where `rfind` gives -1) loses its
      last character, which becomes `[]`. */
  lemma ClosingBracketWithoutOpening(channelId: string)
    requires EndsWith(channelId, "]") && '[' !in channelId
    ensures NormalizeChannelId(channelId) == channelId[..|channelId| - 1] + "[]"
  {
    assert RFind(channelId, '[') == -1;
  }

  /** Every key of the table is an array key ending in `[]` or a key without
      a closing bracket, so every entry can be found by its own key. */
  lemma TableKeysAreNormal(key: string)
    requires key in KnownChannelTable
    ensures !EndsWith(key, "]") || EndsWith(key, "[]")
    ensures NormalizeChannelId(key) == key
    ensures GetKnownChannel(key) == Some(KnownChannelTable[key])
  {
    TableKeyIsFixed(key);
  }

  /** Every key of the table is its own normal form. */
  lemma TableKeyIsFixed(key: string)
    requires key in KnownChannelTable
    ensures !EndsWith(key, "]") || EndsWith(key, "[]")
    ensures NormalizeChannelId(key) == key
  {
    if EndsWith(key, "[]") {
      ArrayKeyIsFixed(key[..|key| - 2]);
      assert key[..|key| - 2] + "[]" == key;
    }
  }

  /** The channel ids produced by fanning out an array record `base[]` all
      find the entry of `base[]`. */
  lemma FannedOutIdsFindArrayEntry(base: string, i: nat)
    ensures GetKnownChannel(base + "[" + NatToString(i) + "]") == GetKnownChannel(base + "[]")
  {
    var digits := NatToString(i);
    assert '[' !in digits;
    IndexedLookup(base, digits);
    ArrayKeyIsFixed(base);
  }
}
