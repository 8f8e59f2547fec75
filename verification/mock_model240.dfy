/** The mock Model 240 used in place of the hardware: a record of small
    per-channel stores plus a few scalars, and the device calls on it as pure
    functions that either fail (the mock raising) or yield the updated record. */
module Mock240 {
  import opened Outcomes
  import opened Text
  import opened Model240

  datatype Device = Device(
    connected: bool,
    modname: string,
    brightness: int,
    sensorNames: map<int, string>,
    filters: map<int, string>,
    readings: map<int, Reading>,
    inputParams: map<int, InputParameter>,
    curveHeaders: map<int, CurveHeader>,
    curveData: map<int, seq<CurvePoint>>)
  {
    /** Every per-channel store covers exactly channels 1..8 and every curve table holds 200 points. */
    predicate Valid() {
      && sensorNames.Keys == Channels
      && filters.Keys == Channels
      && readings.Keys == Channels
      && inputParams.Keys == Channels
      && curveHeaders.Keys == Channels
      && curveData.Keys == Channels
      && forall ch :: ch in curveData ==> |curveData[ch]| == CurvePoints
    }
  }

  /** Decimal text of j * 0.1, written exactly. */
  function Tenths(j: nat): Numeral {
    DigitsHaveNoComma(DecimalText(j / 10), DecimalText(j % 10));
    DecimalText(j / 10) + "." + DecimalText(j % 10)
  }

  /** Decimal text of j * 1.0. */
  function Whole(j: nat): Numeral {
    DigitsHaveNoComma(DecimalText(j), "0");
    DecimalText(j) + ".0"
  }

  /** The curve every channel starts with: point j (1-based) is (j * 0.1, j * 1.0). */
  function InitialCurve(): (t: seq<CurvePoint>)
    ensures |t| == CurvePoints
    ensures forall k :: 0 <= k < CurvePoints ==> t[k] == CurvePoint(Tenths(k + 1), Whole(k + 1))
  {
    seq(CurvePoints, k requires 0 <= k => CurvePoint(Tenths(k + 1), Whole(k + 1)))
  }

  /** A freshly constructed mock. */
  function Fresh(): (m: Device)
    ensures m.Valid()
    ensures m.connected && m.brightness == 50 && m.modname == "Mock Model240"
  {
    Device(
      true,
      "Mock Model240",
      50,
      map ch | ch in Channels :: "Sensor " + DecimalText(ch),
      map ch | ch in Channels :: "No filter",
      map ch | ch in Channels :: Reading(25.0, 77.0, 298.15, 100.0),
      map ch | ch in Channels :: InputParameter(NtcRtd, Kelvin, true, false, true, 1),
      map ch | ch in Channels ::
        CurveHeader("Curve " + DecimalText(ch), "SN" + DecimalText(ch), VoltsPerKelvin, 400.0, Negative),
      map ch | ch in Channels :: InitialCurve())
  }

  /** What a fresh mock reports for each channel. */
  lemma FreshChannel(ch: int)
    requires IsChannel(ch)
    ensures GetSensorName(Fresh(), ch) == Ok("Sensor " + DecimalText(ch))
    ensures GetFilter(Fresh(), ch) == Ok("No filter")
    ensures GetInputParameter(Fresh(), ch) == Ok(InputParameter(NtcRtd, Kelvin, true, false, true, 1))
    ensures GetCurveHeader(Fresh(), ch) ==
      Ok(CurveHeader("Curve " + DecimalText(ch), "SN" + DecimalText(ch), VoltsPerKelvin, 400.0, Negative))
    ensures GetCelsiusReading(Fresh(), ch) == Ok(25.0) && GetFahrenheitReading(Fresh(), ch) == Ok(77.0)
    ensures GetKelvinReading(Fresh(), ch) == Ok(298.15) && GetSensorReading(Fresh(), ch) == Ok(100.0)
  {
  }

  /** Point `index` of every channel of a fresh mock reads as "index * 0.1,index * 1.0". */
  lemma FreshCurvePoint(ch: int, index: int)
    requires IsChannel(ch) && IsPointIndex(index)
    ensures GetCurveDataPoint(Fresh(), ch, index) == Ok(Tenths(index) + [Comma] + Whole(index))
  {
  }

  /** Marks the mock as no longer connected; nothing else changes. */
  function DisconnectUsb(m: Device): (r: Device)
    ensures !r.connected
    ensures r.(connected := m.connected) == m
  {
    m.(connected := false)
  }

  function GetIdentification(m: Device): (r: Identification)
    ensures r.manufacturer == "Mock Lakeshore" && r.model == "Model240"
    ensures r.serialNumber == "12345" && r.firmwareVersion == "1.0"
  {
    Identification("Mock Lakeshore", "Model240", "12345", "1.0")
  }

  /** Writing back the module name just read changes nothing. */
  function GetModname(m: Device): (r: string)
    ensures SetModname(m, r) == m
  {
    m.modname
  }

  function SetModname(m: Device, name: string): (r: Device)
    ensures r.modname == name
    ensures r.(modname := m.modname) == m
  {
    m.(modname := name)
  }

  /** Stores an in-range brightness unchanged; anything outside 0..100 raises. */
  function SetBrightness(m: Device, brightness: int): (r: Result<Device>)
    ensures r.Ok? <==> 0 <= brightness <= 100
    ensures r.Err? ==> r.error == MockBrightnessRange(brightness)
    ensures r.Ok? ==> r.value.brightness == brightness && r.value.(brightness := m.brightness) == m
  {
    if !(0 <= brightness <= 100) then Err(MockBrightnessRange(brightness))
    else Ok(m.(brightness := brightness))
  }

  /** The uniform channel check every per-channel call starts with. */
  function ValidateChannel(ch: int): (r: Result<int>)
    ensures r.Ok? <==> ch in Channels
    ensures r.Ok? ==> r.value == ch
    ensures r.Err? ==> r.error == MockChannelRange(ch)
  {
    if !(1 <= ch <= 8) then Err(MockChannelRange(ch)) else Ok(ch)
  }

  function GetSensorName(m: Device, ch: int): (r: Result<string>)
    requires m.Valid()
    ensures r.Ok? <==> IsChannel(ch)
    ensures r.Err? ==> r.error == MockChannelRange(ch)
    ensures r.Ok? ==> r.value == m.sensorNames[ch]
  {
    var c :- ValidateChannel(ch);
    Ok(m.sensorNames[c])
  }

  function SetSensorName(m: Device, ch: int, name: string): (r: Result<Device>)
    requires m.Valid()
    ensures r.Ok? <==> IsChannel(ch)
    ensures r.Err? ==> r.error == MockChannelRange(ch)
    ensures r.Ok? ==> r.value.Valid() && GetSensorName(r.value, ch) == Ok(name)
    ensures r.Ok? ==> forall c :: c != ch ==> GetSensorName(r.value, c) == GetSensorName(m, c)
    ensures r.Ok? ==> r.value.(sensorNames := m.sensorNames) == m
  {
    var c :- ValidateChannel(ch);
    Ok(m.(sensorNames := m.sensorNames[c := name]))
  }

  function GetFilter(m: Device, ch: int): (r: Result<string>)
    requires m.Valid()
    ensures r.Ok? <==> IsChannel(ch)
    ensures r.Err? ==> r.error == MockChannelRange(ch)
    ensures r.Ok? ==> r.value == m.filters[ch]
  {
    var c :- ValidateChannel(ch);
    Ok(m.filters[c])
  }

  function SetFilter(m: Device, ch: int, setting: string): (r: Result<Device>)
    requires m.Valid()
    ensures r.Ok? <==> IsChannel(ch)
    ensures r.Err? ==> r.error == MockChannelRange(ch)
    ensures r.Ok? ==> r.value.Valid() && GetFilter(r.value, ch) == Ok(setting)
    ensures r.Ok? ==> forall c :: c != ch ==> GetFilter(r.value, c) == GetFilter(m, c)
    ensures r.Ok? ==> r.value.(filters := m.filters) == m
  {
    var c :- ValidateChannel(ch);
    Ok(m.(filters := m.filters[c := setting]))
  }

  function GetInputParameter(m: Device, ch: int): (r: Result<InputParameter>)
    requires m.Valid()
    ensures r.Ok? <==> IsChannel(ch)
    ensures r.Err? ==> r.error == MockChannelRange(ch)
    ensures r.Ok? ==> r.value == m.inputParams[ch]
  {
    var c :- ValidateChannel(ch);
    Ok(m.inputParams[c])
  }

  function SetInputParameter(m: Device, ch: int, params: InputParameter): (r: Result<Device>)
    requires m.Valid()
    ensures r.Ok? <==> IsChannel(ch)
    ensures r.Err? ==> r.error == MockChannelRange(ch)
    ensures r.Ok? ==> r.value.Valid() && GetInputParameter(r.value, ch) == Ok(params)
    ensures r.Ok? ==> forall c :: c != ch ==> GetInputParameter(r.value, c) == GetInputParameter(m, c)
    ensures r.Ok? ==> r.value.(inputParams := m.inputParams) == m
  {
    var c :- ValidateChannel(ch);
    Ok(m.(inputParams := m.inputParams[c := params]))
  }

  function GetCelsiusReading(m: Device, ch: int): (r: Result<real>)
    requires m.Valid()
    ensures r.Ok? <==> IsChannel(ch)
    ensures r.Err? ==> r.error == MockChannelRange(ch)
    ensures r.Ok? ==> r.value == m.readings[ch].celsius
  {
    var c :- ValidateChannel(ch);
    Ok(m.readings[c].celsius)
  }

  function GetFahrenheitReading(m: Device, ch: int): (r: Result<real>)
    requires m.Valid()
    ensures r.Ok? <==> IsChannel(ch)
    ensures r.Err? ==> r.error == MockChannelRange(ch)
    ensures r.Ok? ==> r.value == m.readings[ch].fahrenheit
  {
    var c :- ValidateChannel(ch);
    Ok(m.readings[c].fahrenheit)
  }

  function GetKelvinReading(m: Device, ch: int): (r: Result<real>)
    requires m.Valid()
    ensures r.Ok? <==> IsChannel(ch)
    ensures r.Err? ==> r.error == MockChannelRange(ch)
    ensures r.Ok? ==> r.value == m.readings[ch].kelvin
  {
    var c :- ValidateChannel(ch);
    Ok(m.readings[c].kelvin)
  }

  function GetSensorReading(m: Device, ch: int): (r: Result<real>)
    requires m.Valid()
    ensures r.Ok? <==> IsChannel(ch)
    ensures r.Err? ==> r.error == MockChannelRange(ch)
    ensures r.Ok? ==> r.value == m.readings[ch].sensor
  {
    var c :- ValidateChannel(ch);
    Ok(m.readings[c].sensor)
  }

  /** The mock reports every status flag clear on every valid channel. */
  function GetChannelReadingStatus(m: Device, ch: int): (r: Result<ChannelStatus>)
    ensures r.Ok? <==> IsChannel(ch)
    ensures r.Err? ==> r.error == MockChannelRange(ch)
    ensures r.Ok? ==> r.value == ChannelStatus(false, false, false, false, false, false)
  {
    var _ :- ValidateChannel(ch);
    Ok(ChannelStatus(false, false, false, false, false, false))
  }

  function GetCurveHeader(m: Device, ch: int): (r: Result<CurveHeader>)
    requires m.Valid()
    ensures r.Ok? <==> IsChannel(ch)
    ensures r.Err? ==> r.error == MockChannelRange(ch)
    ensures r.Ok? ==> r.value == m.curveHeaders[ch]
  {
    var c :- ValidateChannel(ch);
    Ok(m.curveHeaders[c])
  }

  function SetCurveHeader(m: Device, ch: int, header: CurveHeader): (r: Result<Device>)
    requires m.Valid()
    ensures r.Ok? <==> IsChannel(ch)
    ensures r.Err? ==> r.error == MockChannelRange(ch)
    ensures r.Ok? ==> r.value.Valid() && GetCurveHeader(r.value, ch) == Ok(header)
    ensures r.Ok? ==> forall c :: c != ch ==> GetCurveHeader(r.value, c) == GetCurveHeader(m, c)
    ensures r.Ok? ==> r.value.(curveHeaders := m.curveHeaders) == m
  {
    var c :- ValidateChannel(ch);
    Ok(m.(curveHeaders := m.curveHeaders[c := header]))
  }

  /** Reports a stored point as "sensor,temperature": the channel is checked
      first, then the index, and the reply splits back into the stored pair. */
  function GetCurveDataPoint(m: Device, ch: int, index: int): (r: Result<string>)
    requires m.Valid()
    ensures r.Ok? <==> IsChannel(ch) && IsPointIndex(index)
    ensures !IsChannel(ch) ==> r == Err(MockChannelRange(ch))
    ensures IsChannel(ch) && !IsPointIndex(index) ==> r == Err(MockIndexRange(index))
    ensures r.Ok? ==>
      Split(r.value, Comma) == [m.curveData[ch][index - 1].sensor, m.curveData[ch][index - 1].temperature]
  {
    var c :- ValidateChannel(ch);
    if !(1 <= index <= 200) then Err(MockIndexRange(index))
    else
      var p := m.curveData[c][index - 1];
      SplitPair(p.sensor, p.temperature, Comma);
      Ok(p.sensor + [Comma] + p.temperature)
  }

  /** Overwrites one point of one channel's curve; the table keeps its 200 entries. */
  function SetCurveDataPoint(m: Device, ch: int, index: int, sensor: Numeral, temperature: Numeral): (r: Result<Device>)
    requires m.Valid()
    ensures r.Ok? <==> IsChannel(ch) && IsPointIndex(index)
    ensures !IsChannel(ch) ==> r == Err(MockChannelRange(ch))
    ensures IsChannel(ch) && !IsPointIndex(index) ==> r == Err(MockIndexRange(index))
    ensures r.Ok? ==> r.value.Valid() && |r.value.curveData[ch]| == CurvePoints
    ensures r.Ok? ==> GetCurveDataPoint(r.value, ch, index) == Ok(sensor + [Comma] + temperature)
    ensures r.Ok? ==> r.value.(curveData := m.curveData) == m
  {
    var c :- ValidateChannel(ch);
    if !(1 <= index <= 200) then Err(MockIndexRange(index))
    else Ok(m.(curveData := m.curveData[c := m.curveData[c][index - 1 := CurvePoint(sensor, temperature)]]))
  }

  /** Writing one point leaves the reply for every other (channel, index) as it was. */
  lemma SetCurveDataPointFrame(m: Device, ch: int, index: int, sensor: Numeral, temperature: Numeral, c: int, j: int)
    requires m.Valid() && IsChannel(ch) && IsPointIndex(index)
    requires c != ch || j != index
    ensures GetCurveDataPoint(SetCurveDataPoint(m, ch, index, sensor, temperature).value, c, j) == GetCurveDataPoint(m, c, j)
  {
  }

  /** Whether the mock accepts a command; this depends on its arguments only, never on the device state. */
  predicate Accepts(cmd: Command) {
    match cmd
    case SetModname(_) => true
    case SetBrightness(b) => 0 <= b <= 100
    case SetInputParameter(ch, _) => IsChannel(ch)
    case SetFilter(ch, _) => IsChannel(ch)
    case SetSensorName(ch, _) => IsChannel(ch)
    case SetCurveHeader(ch, _) => IsChannel(ch)
    case SetCurveDataPoint(ch, index, _, _) => IsChannel(ch) && IsPointIndex(index)
    case DisconnectUsb => true
  }

  /** Issues one command on the mock. */
  function Apply(m: Device, cmd: Command): (r: Result<Device>)
    requires m.Valid()
    ensures r.Ok? <==> Accepts(cmd)
    ensures r.Ok? ==> r.value.Valid()
  {
    match cmd
    case SetModname(name) => Ok(SetModname(m, name))
    case SetBrightness(b) => SetBrightness(m, b)
    case SetInputParameter(ch, params) => SetInputParameter(m, ch, params)
    case SetFilter(ch, setting) => SetFilter(m, ch, setting)
    case SetSensorName(ch, name) => SetSensorName(m, ch, name)
    case SetCurveHeader(ch, header) => SetCurveHeader(m, ch, header)
    case SetCurveDataPoint(ch, index, sensor, temperature) => SetCurveDataPoint(m, ch, index, sensor, temperature)
    case DisconnectUsb => Ok(DisconnectUsb(m))
  }

  /** Issues the commands of `plan` in order, stopping at the first one the mock refuses. */
  function ApplyAll(m: Device, plan: seq<Command>): (r: Result<Device>)
    requires m.Valid()
    ensures r.Ok? <==> forall k :: 0 <= k < |plan| ==> Accepts(plan[k])
    ensures r.Ok? ==> r.value.Valid()
    decreases |plan|
  {
    if |plan| == 0 then Ok(m)
    else
      var d :- Apply(m, plan[0]);
      var rest := ApplyAll(d, plan[1..]);
      assert forall k :: 1 <= k < |plan| ==> plan[k] == plan[1..][k - 1];
      rest
  }

  /** A one-command plan is that command applied. */
  lemma ApplyAllSingle(m: Device, cmd: Command)
    requires m.Valid()
    ensures ApplyAll(m, [cmd]) == Apply(m, cmd)
  {
    assert [cmd][1..] == [];
  }
}
