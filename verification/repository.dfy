/** The Lakeshore repository: the process-wide session holding at most one
    device handle, and the operations built on it. Every operation is one
    atomic step that returns its result (or the exception it raised), the
    session afterwards, and the trace of calls it issued on the device. */
module Repository {
  import opened Outcomes
  import opened Text
  import opened Model240
  import Mock240

  /** Which constructor produced the handle: the mock, or the vendor driver. */
  datatype DeviceKind = MockDevice | Hardware

  /** A live device handle. A vendor handle's state is described by the same
      stores as the mock's. */
  datatype Handle = Handle(kind: DeviceKind, dev: Mock240.Device)

  /** The repository's only state: the optional device handle. */
  datatype Session = Session(device: Option<Handle>) {
    predicate Valid() {
      device.Some? ==> device.value.dev.Valid()
    }
  }

  /** The state at process start: no handle held. */
  const Disconnected: Session := Session(None)

  /** The outcome of one repository call. */
  datatype Step<+T> = Step(result: Result<T>, session: Session, calls: seq<Call>)

  /** The input-parameter schema: the device record plus the two per-channel
      settings the device keeps apart from it, each optional. */
  datatype InputSettings = InputSettings(sensorName: Option<string>, params: InputParameter, filter: Option<string>)

  datatype Monitor = Monitor(celsius: real, fahrenheit: real, kelvin: real, sensor: real)

  datatype CurveDataPoint = CurveDataPoint(temperature: Numeral, sensor: Numeral)

  datatype CurveDataPoints = CurveDataPoints(channel: int, temperatures: seq<Numeral>, sensors: seq<Numeral>)

  /** `r` failed with `e` and neither changed the session nor called the device. */
  predicate Refused<T>(r: Step<T>, s: Session, e: Error) {
    r.result.Err? && r.result.error == e && r.session == s && r.calls == []
  }

  /** The guard of every channel-taking operation: a channel outside 1..8 is
      refused with ChannelError before the handle is even looked up, so it
      takes precedence over DeviceNotConnected; a valid channel without a
      handle is refused with DeviceNotConnected. */
  predicate Guarded<T>(s: Session, ch: int, r: Step<T>) {
    && (!IsChannel(ch) ==> Refused(r, s, ChannelError(ch)))
    && (IsChannel(ch) && s.device.None? ==> Refused(r, s, DeviceNotConnected))
  }

  /** Installs a handle only when none is held and reports whether it did.
      `useMock` is the environment switch; `constructed` is what constructing the
      vendor handle yields, None when the constructor raised. */
  function Connect(s: Session, useMock: bool, constructed: Option<Mock240.Device>): (r: Step<bool>)
    requires s.Valid()
    requires constructed.Some? ==> constructed.value.Valid()
    ensures r.session.Valid() && r.calls == []
    ensures s.device.Some? ==> r.result == Ok(false) && r.session == s
    ensures s.device.None? && useMock ==>
      r.result == Ok(true) && r.session.device == Some(Handle(MockDevice, Mock240.Fresh()))
    ensures s.device.None? && !useMock ==> (r.result.Ok? <==> constructed.Some?)
    ensures s.device.None? && !useMock && constructed.Some? ==>
      r.session.device == Some(Handle(Hardware, constructed.value))
    ensures r.result == Ok(true) <==> s.device.None? && r.session.device.Some?
    ensures r.result.Err? ==> r.result.error == ConnectionFailure && r.session == s
  {
    if s.device.None? then
      if useMock then Step(Ok(true), Session(Some(Handle(MockDevice, Mock240.Fresh()))), [])
      else match constructed
        case Some(d) => Step(Ok(true), Session(Some(Handle(Hardware, d))), [])
        case None => Step(Err(ConnectionFailure), s, [])
    else Step(Ok(false), s, [])
  }

  /** Releases the hardware, then clears the handle. A release failure on a
      vendor handle (`releaseFails`) propagates and leaves the handle held. */
  function Disconnect(s: Session, releaseFails: bool): (r: Step<()>)
    requires s.Valid()
    ensures r.session.Valid()
    ensures s.device.None? ==> r.result.Ok? && r.session == s && r.calls == []
    ensures s.device.Some? ==> r.calls == [Write(DisconnectUsb)]
    ensures r.result.Ok? <==> r.session.device.None?
    ensures r.result.Err? <==> s.device.Some? && s.device.value.kind == Hardware && releaseFails
    ensures r.result.Err? ==> r.result.error == ReleaseFailure && r.session == s
  {
    match s.device
    case None => Step(Ok(()), s, [])
    case Some(h) =>
      if h.kind == Hardware && releaseFails then Step(Err(ReleaseFailure), s, [Write(DisconnectUsb)])
      else Step(Ok(()), Disconnected, [Write(DisconnectUsb)])
  }

  /** The single read path to the handle. */
  function GetDevice(s: Session): (r: Result<Handle>)
    ensures r.Err? <==> s.device.None?
    ensures r.Err? ==> r.error == DeviceNotConnected
    ensures r.Ok? ==> s.device == Some(r.value)
  {
    match s.device
    case None => Err(DeviceNotConnected)
    case Some(h) => Ok(h)
  }

  /** Issues the commands of `plan` in order on the held handle, stopping at
      the first one the device refuses; commands already applied stay applied. */
  function RunWrites(s: Session, plan: seq<Command>): (r: Step<()>)
    requires s.Valid() && s.device.Some?
    ensures r.session.Valid() && r.session.device.Some?
    ensures r.session.device.value.kind == s.device.value.kind
    ensures r.result.Ok? ==> r.calls == Writes(plan)
    ensures r.result.Err? ==> 1 <= |r.calls| <= |plan|
    ensures r.result.Err? && |r.calls| == 1 ==> r.session == s
    decreases |plan|
  {
    if |plan| == 0 then Step(Ok(()), s, [])
    else
      var h := s.device.value;
      match Mock240.Apply(h.dev, plan[0])
      case Err(e) => Step(Err(e), s, [Write(plan[0])])
      case Ok(d) =>
        var rest := RunWrites(Session(Some(h.(dev := d))), plan[1..]);
        assert rest.result.Ok? ==> Writes(plan) == [Write(plan[0])] + Writes(plan[1..]);
        Step(rest.result, rest.session, [Write(plan[0])] + rest.calls)
  }

  /** One accepted write: the trace is that write, and the handle now holds the
      device with the command applied. */
  lemma SingleWrite(s: Session, cmd: Command)
    requires s.Valid() && s.device.Some? && Mock240.Accepts(cmd)
    ensures RunWrites(s, [cmd]) ==
      Step(Ok(()), Session(Some(s.device.value.(dev := Mock240.Apply(s.device.value.dev, cmd).value))), [Write(cmd)])
  {
    assert [cmd][1..] == [];
  }

  /** A plan runs to completion exactly when the device accepts every command in it. */
  lemma {:induction false} RunWritesSucceeds(s: Session, plan: seq<Command>)
    requires s.Valid() && s.device.Some?
    ensures RunWrites(s, plan).result.Ok? <==> forall k :: 0 <= k < |plan| ==> Mock240.Accepts(plan[k])
    decreases |plan|
  {
    if |plan| > 0 {
      var h := s.device.value;
      var applied := Mock240.Apply(h.dev, plan[0]);
      if applied.Ok? {
        RunWritesSucceeds(Session(Some(h.(dev := applied.value))), plan[1..]);
        assert forall k :: 1 <= k < |plan| ==> plan[k] == plan[1..][k - 1];
      }
    }
  }

  /** A refused plan stops at its first refused command: the trace is the plan
      up to and including that command. */
  lemma {:induction false} RunWritesStops(s: Session, plan: seq<Command>)
    requires s.Valid() && s.device.Some?
    ensures var r := RunWrites(s, plan);
      r.result.Err? ==> r.calls == Writes(plan[..|r.calls|])
    decreases |plan|
  {
    if |plan| > 0 {
      var h := s.device.value;
      var applied := Mock240.Apply(h.dev, plan[0]);
      if applied.Ok? {
        var next := Session(Some(h.(dev := applied.value)));
        RunWritesStops(next, plan[1..]);
        var rest := RunWrites(next, plan[1..]);
        assert RunWrites(s, plan).calls == [Write(plan[0])] + rest.calls;
        if rest.result.Err? {
          var n := |rest.calls|;
          assert plan[..1 + n] == [plan[0]] + plan[1..][..n];
          assert Writes(plan[..1 + n]) == [Write(plan[0])] + Writes(plan[1..][..n]);
        }
      } else {
        assert plan[..1] == [plan[0]];
      }
    }
  }

  /** The last command in the trace of a refused plan is the refused one, and
      every command before it was accepted. */
  lemma {:induction false} RunWritesRefuses(s: Session, plan: seq<Command>)
    requires s.Valid() && s.device.Some?
    ensures var r := RunWrites(s, plan);
      r.result.Err? ==>
        && !Mock240.Accepts(plan[|r.calls| - 1])
        && (forall k :: 0 <= k < |r.calls| - 1 ==> Mock240.Accepts(plan[k]))
    decreases |plan|
  {
    if |plan| > 0 {
      var h := s.device.value;
      var applied := Mock240.Apply(h.dev, plan[0]);
      if applied.Ok? {
        var next := Session(Some(h.(dev := applied.value)));
        RunWritesRefuses(next, plan[1..]);
        var rest := RunWrites(next, plan[1..]);
        assert |RunWrites(s, plan).calls| == 1 + |rest.calls|;
        assert forall k :: 1 <= k < |plan| ==> plan[k] == plan[1..][k - 1];
      }
    }
  }

  /** No rollback: after RunWrites the device holds exactly the commands that
      were accepted, applied in order: all of them on success, every one before
      the refused command on failure. */
  lemma {:induction false} RunWritesApplies(s: Session, plan: seq<Command>)
    requires s.Valid() && s.device.Some?
    ensures var r := RunWrites(s, plan);
      r.result.Ok? ==> Mock240.ApplyAll(s.device.value.dev, plan) == Ok(r.session.device.value.dev)
    ensures var r := RunWrites(s, plan);
      r.result.Err? ==> Mock240.ApplyAll(s.device.value.dev, plan[..|r.calls| - 1]) == Ok(r.session.device.value.dev)
    decreases |plan|
  {
    if |plan| > 0 {
      var h := s.device.value;
      var applied := Mock240.Apply(h.dev, plan[0]);
      if applied.Ok? {
        var next := Session(Some(h.(dev := applied.value)));
        RunWritesApplies(next, plan[1..]);
        var rest := RunWrites(next, plan[1..]);
        if rest.result.Err? {
          assert plan[..|rest.calls|][1..] == plan[1..][..|rest.calls| - 1];
        }
      } else {
        assert plan[..0] == [];
      }
    }
  }

  function GetStatus(s: Session, ch: int): (r: Step<ChannelStatus>)
    requires s.Valid()
    ensures Guarded(s, ch, r)
    ensures r.session == s
    ensures r.result.Ok? <==> IsChannel(ch) && s.device.Some?
    ensures r.result.Ok? ==> r.calls == [Read(Request.GetChannelReadingStatus(ch))]
    ensures r.result.Ok? ==> r.result == Mock240.GetChannelReadingStatus(s.device.value.dev, ch)
  {
    if !(1 <= ch <= 8) then Step(Err(ChannelError(ch)), s, [])
    else match GetDevice(s)
      case Err(e) => Step(Err(e), s, [])
      case Ok(h) =>
        Step(Mock240.GetChannelReadingStatus(h.dev, ch), s, [Read(Request.GetChannelReadingStatus(ch))])
  }

  function GetIdentification(s: Session): (r: Step<Identification>)
    requires s.Valid()
    ensures s.device.None? ==> Refused(r, s, DeviceNotConnected)
    ensures r.session == s
    ensures s.device.Some? ==> r.result.Ok? && r.calls == [Read(Request.GetIdentification)]
    ensures s.device.Some? ==> r.result == Ok(Mock240.GetIdentification(s.device.value.dev))
  {
    match GetDevice(s)
    case Err(e) => Step(Err(e), s, [])
    case Ok(h) => Step(Ok(Mock240.GetIdentification(h.dev)), s, [Read(Request.GetIdentification)])
  }

  /** Composes the device record with the channel's sensor name and filter,
      read in that order after it. */
  function GetInputParameter(s: Session, ch: int): (r: Step<InputSettings>)
    requires s.Valid()
    ensures Guarded(s, ch, r)
    ensures r.session == s
    ensures r.result.Ok? <==> IsChannel(ch) && s.device.Some?
    ensures r.result.Ok? ==>
      r.calls == [Read(Request.GetInputParameter(ch)), Read(Request.GetSensorName(ch)), Read(Request.GetFilter(ch))]
    ensures r.result.Ok? ==>
      var dev := s.device.value.dev;
      && Mock240.GetInputParameter(dev, ch) == Ok(r.result.value.params)
      && r.result.value.sensorName.Some? && Mock240.GetSensorName(dev, ch) == Ok(r.result.value.sensorName.value)
      && r.result.value.filter.Some? && Mock240.GetFilter(dev, ch) == Ok(r.result.value.filter.value)
  {
    if !(1 <= ch <= 8) then Step(Err(ChannelError(ch)), s, [])
    else match GetDevice(s)
      case Err(e) => Step(Err(e), s, [])
      case Ok(h) =>
        var params := Mock240.GetInputParameter(h.dev, ch).value;
        var name := Mock240.GetSensorName(h.dev, ch).value;
        var filter := Mock240.GetFilter(h.dev, ch).value;
        Step(Ok(InputSettings(Some(name), params, Some(filter))), s,
             [Read(Request.GetInputParameter(ch)), Read(Request.GetSensorName(ch)), Read(Request.GetFilter(ch))])
  }

  function GetModname(s: Session): (r: Step<string>)
    requires s.Valid()
    ensures s.device.None? ==> Refused(r, s, DeviceNotConnected)
    ensures r.session == s
    ensures s.device.Some? ==>
      r.result == Ok(s.device.value.dev.modname) && r.calls == [Read(Request.GetModname)]
  {
    match GetDevice(s)
    case Err(e) => Step(Err(e), s, [])
    case Ok(h) => Step(Ok(Mock240.GetModname(h.dev)), s, [Read(Request.GetModname)])
  }

  function SetModname(s: Session, name: string): (r: Step<()>)
    requires s.Valid()
    ensures r.session.Valid()
    ensures s.device.None? ==> Refused(r, s, DeviceNotConnected)
    ensures s.device.Some? ==> r.result.Ok? && r.calls == [Write(Command.SetModname(name))]
    ensures r.result.Ok? ==> GetModname(r.session).result == Ok(name)
    ensures r.result.Ok? ==>
      r.session == Session(Some(s.device.value.(dev := Mock240.SetModname(s.device.value.dev, name))))
  {
    match GetDevice(s)
    case Err(e) => Step(Err(e), s, [])
    case Ok(h) =>
      SingleWrite(s, Command.SetModname(name));
      RunWrites(s, [Command.SetModname(name)])
  }

  /** Maps the device's brightness level 0..4 onto the 0..100 scale in steps of 25. */
  function BrightnessOfLevel(level: int): (r: Result<int>)
    ensures r.Ok? <==> 0 <= level <= 4
    ensures r.Ok? ==> r.value == 25 * level
    ensures r.Err? ==> r.error == InvalidBrightnessLevel(level)
  {
    if level == 0 then Ok(0)
    else if level == 1 then Ok(25)
    else if level == 2 then Ok(50)
    else if level == 3 then Ok(75)
    else if level == 4 then Ok(100)
    else Err(InvalidBrightnessLevel(level))
  }

  /** Queries the device's brightness level and maps level L in 0..4 to 25 * L.
      `reply` is the vendor device's answer to the query; the mock has no query
      method at all. */
  function GetBrightness(s: Session, reply: int): (r: Step<int>)
    requires s.Valid()
    ensures r.session == s
    ensures s.device.None? ==> Refused(r, s, DeviceNotConnected)
    ensures s.device.Some? && s.device.value.kind == MockDevice ==> Refused(r, s, MissingAttribute("query"))
    ensures s.device.Some? && s.device.value.kind == Hardware ==> r.calls == [Read(Query("BRIGT?"))]
    ensures r.result.Ok? <==> s.device.Some? && s.device.value.kind == Hardware && 0 <= reply <= 4
    ensures r.result.Ok? ==> r.result.value == 25 * reply
    ensures r.result.Err? && s.device.Some? && s.device.value.kind == Hardware ==>
      r.result.error == InvalidBrightnessLevel(reply)
  {
    match GetDevice(s)
    case Err(e) => Step(Err(e), s, [])
    case Ok(h) =>
      if h.kind == MockDevice then Step(Err(MissingAttribute("query")), s, [])
      else
        assert s.device == Some(h) && h.kind == Hardware;
        Step(BrightnessOfLevel(reply), s, [Read(Query("BRIGT?"))])
  }

  /** Refuses a brightness outside 0..100 before touching the device and
      forwards an in-range value unchanged. */
  function SetBrightness(s: Session, brightness: int): (r: Step<()>)
    requires s.Valid()
    ensures r.session.Valid()
    ensures !(0 <= brightness <= 100) ==> Refused(r, s, BrightnessOutOfRange(brightness))
    ensures 0 <= brightness <= 100 && s.device.None? ==> Refused(r, s, DeviceNotConnected)
    ensures 0 <= brightness <= 100 && s.device.Some? ==>
      && r.result.Ok?
      && r.calls == [Write(Command.SetBrightness(brightness))]
      && r.session.device.Some? && r.session.device.value.dev.brightness == brightness
    ensures r.result.Ok? ==>
      r.session == Session(Some(s.device.value.(dev := Mock240.SetBrightness(s.device.value.dev, brightness).value)))
  {
    if brightness < 0 || brightness > 100 then Step(Err(BrightnessOutOfRange(brightness)), s, [])
    else match GetDevice(s)
      case Err(e) => Step(Err(e), s, [])
      case Ok(h) =>
        SingleWrite(s, Command.SetBrightness(brightness));
        var r := RunWrites(s, [Command.SetBrightness(brightness)]);
        assert r.result.Ok?;
        r
  }

  /** The write sequence of set_input_config: the device record always, then
      the filter if one is given, then the sensor name if one is given. */
  function InputConfigPlan(settings: InputSettings, ch: int): (plan: seq<Command>)
    ensures |plan| == 1 + (if settings.filter.Some? then 1 else 0) + (if settings.sensorName.Some? then 1 else 0)
    ensures plan[0] == SetInputParameter(ch, settings.params)
    ensures settings.filter.Some? ==> plan[1] == SetFilter(ch, settings.filter.value)
    ensures settings.sensorName.Some? ==> plan[|plan| - 1] == SetSensorName(ch, settings.sensorName.value)
    ensures forall k :: 0 <= k < |plan| ==> (Mock240.Accepts(plan[k]) <==> IsChannel(ch))
  {
    [SetInputParameter(ch, settings.params)]
    + (if settings.filter.Some? then [SetFilter(ch, settings.filter.value)] else [])
    + (if settings.sensorName.Some? then [SetSensorName(ch, settings.sensorName.value)] else [])
  }

  /** Writes the input configuration without checking the channel itself;
      an invalid channel is refused by the device on the first write. */
  function SetInputConfig(s: Session, settings: InputSettings, ch: int): (r: Step<()>)
    requires s.Valid()
    ensures r.session.Valid()
    ensures s.device.None? ==> Refused(r, s, DeviceNotConnected)
    ensures s.device.Some? && !IsChannel(ch) ==>
      && r.result == Err(MockChannelRange(ch))
      && r.session == s
      && r.calls == [Write(SetInputParameter(ch, settings.params))]
    ensures s.device.Some? && IsChannel(ch) ==>
      r.result.Ok? && r.calls == Writes(InputConfigPlan(settings, ch))
    ensures s.device.Some? ==> r.session.device.Some? && r.session.device.value.kind == s.device.value.kind
  {
    match GetDevice(s)
    case Err(e) => Step(Err(e), s, [])
    case Ok(h) =>
      var plan := InputConfigPlan(settings, ch);
      RunWritesSucceeds(s, plan);
      var r := RunWrites(s, plan);
      assert !IsChannel(ch) ==> r.result.Err? && |r.calls| == 1 && r.result.error == Mock240.Apply(h.dev, plan[0]).error;
      r
  }

  /** Reads the four live values of a channel. */
  function GetMonitor(s: Session, ch: int): (r: Step<Monitor>)
    requires s.Valid()
    ensures Guarded(s, ch, r)
    ensures r.session == s
    ensures r.result.Ok? <==> IsChannel(ch) && s.device.Some?
    ensures r.result.Ok? ==>
      && r.calls == [Read(GetCelsiusReading(ch)), Read(GetFahrenheitReading(ch)),
                     Read(GetKelvinReading(ch)), Read(GetSensorReading(ch))]
      && var reading := s.device.value.dev.readings[ch];
         r.result.value == Monitor(reading.celsius, reading.fahrenheit, reading.kelvin, reading.sensor)
  {
    if !(1 <= ch <= 8) then Step(Err(ChannelError(ch)), s, [])
    else match GetDevice(s)
      case Err(e) => Step(Err(e), s, [])
      case Ok(h) =>
        var celsius := Mock240.GetCelsiusReading(h.dev, ch).value;
        var fahrenheit := Mock240.GetFahrenheitReading(h.dev, ch).value;
        var kelvin := Mock240.GetKelvinReading(h.dev, ch).value;
        var sensor := Mock240.GetSensorReading(h.dev, ch).value;
        Step(Ok(Monitor(celsius, fahrenheit, kelvin, sensor)), s,
             [Read(GetCelsiusReading(ch)), Read(GetFahrenheitReading(ch)),
              Read(GetKelvinReading(ch)), Read(GetSensorReading(ch))])
  }

  function GetCurveHeader(s: Session, ch: int): (r: Step<CurveHeader>)
    requires s.Valid()
    ensures Guarded(s, ch, r)
    ensures r.session == s
    ensures r.result.Ok? <==> IsChannel(ch) && s.device.Some?
    ensures r.result.Ok? ==>
      r.calls == [Read(Request.GetCurveHeader(ch))]
      && Mock240.GetCurveHeader(s.device.value.dev, ch) == r.result
  {
    if !(1 <= ch <= 8) then Step(Err(ChannelError(ch)), s, [])
    else match GetDevice(s)
      case Err(e) => Step(Err(e), s, [])
      case Ok(h) => Step(Mock240.GetCurveHeader(h.dev, ch), s, [Read(Request.GetCurveHeader(ch))])
  }

  function SetCurveHeader(s: Session, header: CurveHeader, ch: int): (r: Step<()>)
    requires s.Valid()
    ensures r.session.Valid()
    ensures Guarded(s, ch, r)
    ensures r.result.Ok? <==> IsChannel(ch) && s.device.Some?
    ensures r.result.Ok? ==> r.calls == [Write(Command.SetCurveHeader(ch, header))]
    ensures r.result.Ok? ==>
      r.session == Session(Some(s.device.value.(dev := Mock240.SetCurveHeader(s.device.value.dev, ch, header).value)))
  {
    if !(1 <= ch <= 8) then Step(Err(ChannelError(ch)), s, [])
    else match GetDevice(s)
      case Err(e) => Step(Err(e), s, [])
      case Ok(h) =>
        SingleWrite(s, Command.SetCurveHeader(ch, header));
        RunWrites(s, [Command.SetCurveHeader(ch, header)])
  }

  /** Splits a curve-point reply on the comma, sensor first, and fails unless
      there are exactly two fields. */
  function ParsePoint(raw: string): (r: Result<CurveDataPoint>)
    ensures r.Ok? <==> |Split(raw, Comma)| == 2
    ensures r.Ok? ==> raw == r.value.sensor + [Comma] + r.value.temperature
    ensures r.Err? ==> r.error == MalformedPoint(raw)
  {
    var fields := Split(raw, Comma);
    if |fields| != 2 then Err(MalformedPoint(raw))
    else
      assert Join(fields, Comma) == fields[0] + [Comma] + Join(fields[1..], Comma);
      Ok(CurveDataPoint(fields[1], fields[0]))
  }

  /** Reads one point. The channel is checked here; the index only by the device. */
  function GetCurveDataPoint(s: Session, ch: int, index: int): (r: Step<CurveDataPoint>)
    requires s.Valid()
    ensures Guarded(s, ch, r)
    ensures r.session == s
    ensures IsChannel(ch) && s.device.Some? ==> r.calls == [Read(Request.GetCurveDataPoint(ch, index))]
    ensures r.result.Ok? <==> IsChannel(ch) && s.device.Some? && IsPointIndex(index)
    ensures IsChannel(ch) && s.device.Some? && !IsPointIndex(index) ==> r.result == Err(MockIndexRange(index))
    ensures r.result.Ok? ==>
      s.device.value.dev.curveData[ch][index - 1] == CurvePoint(r.result.value.sensor, r.result.value.temperature)
  {
    if !(1 <= ch <= 8) then Step(Err(ChannelError(ch)), s, [])
    else match GetDevice(s)
      case Err(e) => Step(Err(e), s, [])
      case Ok(h) =>
        var reply := Mock240.GetCurveDataPoint(h.dev, ch, index);
        var point := (var raw :- reply; ParsePoint(raw));
        Step(point, s, [Read(Request.GetCurveDataPoint(ch, index))])
  }

  /** A reply split on the comma: at least one field, none containing a comma. */
  predicate IsFieldList(fields: seq<string>) {
    |fields| >= 1 && forall j :: 0 <= j < |fields| ==> Comma !in fields[j]
  }

  /** The fields of every reply from `index` to the last point, in index order;
      the first refused read ends the walk. */
  function ReadCurve(dev: Mock240.Device, ch: int, index: int): (r: Result<seq<seq<string>>>)
    requires dev.Valid() && 1 <= index <= CurvePoints + 1
    ensures r.Ok? <==> IsChannel(ch) || index == CurvePoints + 1
    ensures r.Ok? ==> |r.value| == CurvePoints + 1 - index
    ensures r.Ok? ==> forall k :: 0 <= k < |r.value| ==> IsFieldList(r.value[k])
    ensures r.Ok? && IsChannel(ch) ==> forall k :: 0 <= k < |r.value| ==>
      r.value[k] == [dev.curveData[ch][index - 1 + k].sensor, dev.curveData[ch][index - 1 + k].temperature]
    decreases CurvePoints + 1 - index
  {
    if index > CurvePoints then Ok([])
    else
      var raw :- Mock240.GetCurveDataPoint(dev, ch, index);
      var rest := ReadCurve(dev, ch, index + 1).value;
      Ok([Split(raw, Comma)] + rest)
  }

  /** The first field of every row, and the second field of every row; the
      second column fails at the first row that has only one field. */
  function Columns(rows: seq<seq<string>>): (r: Result<(seq<Numeral>, seq<Numeral>)>)
    requires forall k :: 0 <= k < |rows| ==> IsFieldList(rows[k])
    ensures r.Ok? <==> forall k :: 0 <= k < |rows| ==> |rows[k]| >= 2
    ensures r.Ok? ==> |r.value.0| == |rows| && |r.value.1| == |rows|
    ensures r.Ok? ==> forall k :: 0 <= k < |rows| ==> r.value.0[k] == rows[k][0] && r.value.1[k] == rows[k][1]
    ensures r.Err? ==> exists k :: 0 <= k < |rows| && |rows[k]| == 1 && r.error == MalformedPoint(rows[k][0])
    decreases |rows|
  {
    if |rows| == 0 then Ok(([], []))
    else if |rows[0]| < 2 then
      assert IsFieldList(rows[0]);
      Err(MalformedPoint(rows[0][0]))
    else
      assert forall k :: 1 <= k < |rows| ==> rows[k] == rows[1..][k - 1];
      var rest :- Columns(rows[1..]);
      assert IsFieldList(rows[0]);
      var sensor: Numeral := rows[0][0];
      var temperature: Numeral := rows[0][1];
      Ok(([sensor] + rest.0, [temperature] + rest.1))
  }

  /** Reads every point of a valid channel and splits the replies into a
      sensor column and a temperature column, both in index order. */
  function ReadAllPoints(dev: Mock240.Device, ch: int): (r: (seq<Numeral>, seq<Numeral>))
    requires dev.Valid() && IsChannel(ch)
    ensures |r.0| == CurvePoints && |r.1| == CurvePoints
    ensures forall k :: 0 <= k < CurvePoints ==> dev.curveData[ch][k] == CurvePoint(r.0[k], r.1[k])
  {
    var curve := dev.curveData[ch];
    var rows := ReadCurve(dev, ch, 1).value;
    var columns := Columns(rows).value;
    forall k | 0 <= k < CurvePoints
      ensures curve[k] == CurvePoint(columns.0[k], columns.1[k])
    {
      assert rows[k] == [curve[k].sensor, curve[k].temperature];
    }
    columns
  }

  /** The trace of the full-curve read: point 1, point 2, ..., point 200. */
  function AllPointReads(ch: int): (calls: seq<Call>)
    ensures |calls| == CurvePoints
    ensures forall k :: 0 <= k < CurvePoints ==> calls[k] == Read(Request.GetCurveDataPoint(ch, k + 1))
  {
    seq(CurvePoints, k => Read(Request.GetCurveDataPoint(ch, k + 1)))
  }

  /** Reads all 200 points of a channel, in ascending index order, into two
      index-aligned sequences. */
  function GetCurveDataPoints(s: Session, ch: int): (r: Step<CurveDataPoints>)
    requires s.Valid()
    ensures Guarded(s, ch, r)
    ensures r.session == s
    ensures r.result.Ok? <==> IsChannel(ch) && s.device.Some?
    ensures r.result.Ok? ==>
      && |r.calls| == CurvePoints
      && forall k :: 0 <= k < CurvePoints ==> r.calls[k] == Read(Request.GetCurveDataPoint(ch, k + 1))
    ensures r.result.Ok? ==>
      var points := r.result.value;
      && points.channel == ch
      && |points.sensors| == CurvePoints && |points.temperatures| == CurvePoints
      && forall k :: 0 <= k < CurvePoints ==>
           s.device.value.dev.curveData[ch][k] == CurvePoint(points.sensors[k], points.temperatures[k])
  {
    if !(1 <= ch <= 8) then Step(Err(ChannelError(ch)), s, [])
    else match GetDevice(s)
      case Err(e) => Step(Err(e), s, [])
      case Ok(h) =>
        var columns := ReadAllPoints(h.dev, ch);
        Step(Ok(CurveDataPoints(ch, columns.1, columns.0)), s, AllPointReads(ch))
  }

  /** Writes one point. The channel is checked here; the index only by the device. */
  function SetCurveDataPoint(s: Session, point: CurveDataPoint, ch: int, index: int): (r: Step<()>)
    requires s.Valid()
    ensures r.session.Valid()
    ensures Guarded(s, ch, r)
    ensures r.result.Ok? <==> IsChannel(ch) && s.device.Some? && IsPointIndex(index)
    ensures IsChannel(ch) && s.device.Some? ==>
      r.calls == [Write(Command.SetCurveDataPoint(ch, index, point.sensor, point.temperature))]
    ensures IsChannel(ch) && s.device.Some? && !IsPointIndex(index) ==>
      r.result == Err(MockIndexRange(index)) && r.session == s
    ensures r.result.Ok? ==>
      r.session == Session(Some(s.device.value.(dev :=
        Mock240.SetCurveDataPoint(s.device.value.dev, ch, index, point.sensor, point.temperature).value)))
  {
    if !(1 <= ch <= 8) then Step(Err(ChannelError(ch)), s, [])
    else match GetDevice(s)
      case Err(e) => Step(Err(e), s, [])
      case Ok(h) =>
        var cmd := Command.SetCurveDataPoint(ch, index, point.sensor, point.temperature);
        RunWritesApplies(s, [cmd]);
        Mock240.ApplyAllSingle(h.dev, cmd);
        RunWrites(s, [cmd])
  }
}
