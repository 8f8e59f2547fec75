/** The Model 240 device as the repository sees it: the channel and curve-index
    ranges, the records exchanged with the device, and the calls the repository
    can issue on a device handle. */
module Model240 {
  import opened Text

  const MinChannel: int := 1
  const MaxChannel: int := 8
  /** Number of (sensor, temperature) points in one channel's calibration curve. */
  const CurvePoints: int := 200

  predicate IsChannel(ch: int) {
    MinChannel <= ch <= MaxChannel
  }

  predicate IsPointIndex(index: int) {
    1 <= index <= CurvePoints
  }

  /** The channels every per-channel store is keyed by. */
  const Channels: set<int> := set ch: int | 1 <= ch <= 8

  /** The decimal text of a floating-point value as the device reports it; such
      text never contains the comma that separates the two fields of a curve point. */
  type Numeral = s: string | Comma !in s witness ""

  // The vendor enumerations are not part of this model: each names the member the
  // mock uses by default and carries every other member as its numeric code.
  datatype SensorType = NtcRtd | OtherSensorType(code: int)
  datatype TemperatureUnit = Kelvin | OtherUnit(code: int)
  datatype CurveFormat = VoltsPerKelvin | OtherCurveFormat(code: int)
  datatype Coefficient = Negative | OtherCoefficient(code: int)

  /** The device's atomic input-parameter record of one channel. */
  datatype InputParameter = InputParameter(
    sensorType: SensorType,
    temperatureUnit: TemperatureUnit,
    autoRangeEnable: bool,
    currentReversalEnable: bool,
    inputEnable: bool,
    inputRange: int)

  datatype CurveHeader = CurveHeader(
    curveName: string,
    serialNumber: string,
    curveDataFormat: CurveFormat,
    temperatureLimit: real,
    coefficient: Coefficient)

  /** One stored calibration point. */
  datatype CurvePoint = CurvePoint(sensor: Numeral, temperature: Numeral)

  /** The four live readings of a channel. */
  datatype Reading = Reading(celsius: real, fahrenheit: real, kelvin: real, sensor: real)

  /** The reading-status flags of a channel; `unknown` is the flag the device reports under an empty name. */
  datatype ChannelStatus = ChannelStatus(
    invalidReading: bool,
    unknown: bool,
    tempUnderRange: bool,
    tempOverRange: bool,
    sensorUnitsOverRange: bool,
    sensorUnitsUnderRange: bool)

  datatype Identification = Identification(
    manufacturer: string,
    model: string,
    serialNumber: string,
    firmwareVersion: string)

  /** A device call that only reads. */
  datatype Request =
    | GetIdentification
    | GetModname
    | Query(command: string)
    | GetChannelReadingStatus(channel: int)
    | GetInputParameter(channel: int)
    | GetSensorName(channel: int)
    | GetFilter(channel: int)
    | GetCelsiusReading(channel: int)
    | GetFahrenheitReading(channel: int)
    | GetKelvinReading(channel: int)
    | GetSensorReading(channel: int)
    | GetCurveHeader(channel: int)
    | GetCurveDataPoint(channel: int, index: int)

  /** A device call that changes the device. */
  datatype Command =
    | SetModname(name: string)
    | SetBrightness(brightness: int)
    | SetInputParameter(channel: int, params: InputParameter)
    | SetFilter(channel: int, setting: string)
    | SetSensorName(channel: int, name: string)
    | SetCurveHeader(channel: int, header: CurveHeader)
    | SetCurveDataPoint(channel: int, index: int, sensor: Numeral, temperature: Numeral)
    | DisconnectUsb

  /** One entry of the trace of calls issued on the device handle. */
  datatype Call = Read(request: Request) | Write(command: Command)

  /** The trace a sequence of commands leaves when every one of them is issued. */
  function Writes(plan: seq<Command>): (calls: seq<Call>)
    ensures |calls| == |plan|
    ensures forall k :: 0 <= k < |plan| ==> calls[k] == Write(plan[k])
  {
    seq(|plan|, k requires 0 <= k < |plan| => Write(plan[k]))
  }
}
