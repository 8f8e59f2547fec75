/** Properties that relate several repository calls: round trips through the
    mock, agreement of the bulk and single-point curve reads, and the
    idempotence of the session transitions. */
module SessionProperties {
  import opened Outcomes
  import opened Text
  import Model240
  import Mock240
  import opened Repository

  /** The wire text of a point parses back into that point. */
  lemma ParsePointOfWire(point: CurveDataPoint)
    ensures ParsePoint(point.sensor + [Comma] + point.temperature) == Ok(point)
  {
    SplitPair(point.sensor, point.temperature, Comma);
  }

  /** A point written through the repository is read back unchanged, and every
      other (channel, index) reads as before. */
  lemma CurvePointRoundTrip(s: Session, point: CurveDataPoint, ch: int, index: int)
    requires s.Valid() && s.device.Some? && Model240.IsChannel(ch) && Model240.IsPointIndex(index)
    ensures SetCurveDataPoint(s, point, ch, index).result.Ok?
    ensures GetCurveDataPoint(SetCurveDataPoint(s, point, ch, index).session, ch, index).result == Ok(point)
    ensures forall c, j :: c != ch || j != index ==>
      GetCurveDataPoint(SetCurveDataPoint(s, point, ch, index).session, c, j).result == GetCurveDataPoint(s, c, j).result
  {
    var r := SetCurveDataPoint(s, point, ch, index);
    var cmd := Model240.Command.SetCurveDataPoint(ch, index, point.sensor, point.temperature);
    var before := s.device.value.dev;
    RunWritesApplies(s, [cmd]);
    ApplyAllCons(before, cmd, []);
    assert [cmd] + [] == [cmd];
    assert r.session.device.value.dev == Mock240.Apply(before, cmd).value;
    ParsePointOfWire(point);
    forall c, j | c != ch || j != index
      ensures GetCurveDataPoint(r.session, c, j).result == GetCurveDataPoint(s, c, j).result
    {
      Mock240.SetCurveDataPointFrame(before, ch, index, point.sensor, point.temperature, c, j);
      SameReplySameRead(r.session, s, c, j);
    }
  }

  /** The repository's point read depends on the device only through the mock's reply. */
  lemma SameReplySameRead(s1: Session, s2: Session, ch: int, index: int)
    requires s1.Valid() && s1.device.Some? && s2.Valid() && s2.device.Some?
    requires Mock240.GetCurveDataPoint(s1.device.value.dev, ch, index) == Mock240.GetCurveDataPoint(s2.device.value.dev, ch, index)
    ensures GetCurveDataPoint(s1, ch, index).result == GetCurveDataPoint(s2, ch, index).result
  {
  }

  /** A header written through the repository reads back unchanged, and every
      other channel's header reads as before. */
  lemma CurveHeaderRoundTrip(s: Session, header: Model240.CurveHeader, ch: int)
    requires s.Valid() && s.device.Some? && Model240.IsChannel(ch)
    ensures SetCurveHeader(s, header, ch).result.Ok?
    ensures GetCurveHeader(SetCurveHeader(s, header, ch).session, ch).result == Ok(header)
    ensures forall c :: c != ch ==>
      GetCurveHeader(SetCurveHeader(s, header, ch).session, c).result == GetCurveHeader(s, c).result
  {
  }

  /** Point k + 1 of the full-curve read is what a single read of index k + 1 returns. */
  lemma BulkMatchesSingle(s: Session, ch: int)
    requires s.Valid() && s.device.Some? && Model240.IsChannel(ch)
    ensures GetCurveDataPoints(s, ch).result.Ok?
    ensures forall k :: 0 <= k < Model240.CurvePoints ==>
      GetCurveDataPoint(s, ch, k + 1).result ==
      Ok(CurveDataPoint(GetCurveDataPoints(s, ch).result.value.temperatures[k], GetCurveDataPoints(s, ch).result.value.sensors[k]))
  {
  }

  /** After set_input_config on a valid channel, get_input_parameter returns the
      written record, the given name and filter, and the stored ones where none
      was given. */
  lemma InputConfigRoundTrip(s: Session, settings: InputSettings, ch: int)
    requires s.Valid() && s.device.Some? && Model240.IsChannel(ch)
    ensures SetInputConfig(s, settings, ch).result.Ok?
    ensures
      var dev := s.device.value.dev;
      GetInputParameter(SetInputConfig(s, settings, ch).session, ch).result == Ok(InputSettings(
        if settings.sensorName.Some? then settings.sensorName else Some(dev.sensorNames[ch]),
        settings.params,
        if settings.filter.Some? then settings.filter else Some(dev.filters[ch])))
    ensures SetInputConfig(s, settings, ch).session ==
      Session(Some(s.device.value.(dev := Configured(s.device.value.dev, settings, ch))))
  {
    var dev := s.device.value.dev;
    var r := SetInputConfig(s, settings, ch);
    InputWritesLand(dev, settings, ch);
    ConfiguredReads(dev, settings, ch);
    RunWritesApplies(s, InputConfigPlan(settings, ch));
    assert r.session.device.value.dev == Configured(dev, settings, ch);
  }

  /** The mock after set_input_config on a valid channel: the record replaced,
      and the filter and sensor name replaced where one was given. */
  function Configured(dev: Mock240.Device, settings: InputSettings, ch: int): Mock240.Device
    requires Model240.IsChannel(ch)
  {
    dev.(inputParams := dev.inputParams[ch := settings.params],
         filters := if settings.filter.Some? then dev.filters[ch := settings.filter.value] else dev.filters,
         sensorNames := if settings.sensorName.Some? then dev.sensorNames[ch := settings.sensorName.value] else dev.sensorNames)
  }

  /** What the mock reports for the configured channel after set_input_config. */
  lemma ConfiguredReads(dev: Mock240.Device, settings: InputSettings, ch: int)
    requires dev.Valid() && Model240.IsChannel(ch)
    ensures Configured(dev, settings, ch).Valid()
    ensures Mock240.GetInputParameter(Configured(dev, settings, ch), ch) == Ok(settings.params)
    ensures Mock240.GetFilter(Configured(dev, settings, ch), ch) ==
      Ok(if settings.filter.Some? then settings.filter.value else dev.filters[ch])
    ensures Mock240.GetSensorName(Configured(dev, settings, ch), ch) ==
      Ok(if settings.sensorName.Some? then settings.sensorName.value else dev.sensorNames[ch])
  {
  }

  /** The write plan of set_input_config, applied to the mock on a valid
      channel, yields the configured device. */
  lemma InputWritesLand(dev: Mock240.Device, settings: InputSettings, ch: int)
    requires dev.Valid() && Model240.IsChannel(ch)
    ensures Mock240.ApplyAll(dev, InputConfigPlan(settings, ch)) == Ok(Configured(dev, settings, ch))
  {
    var filterWrites := if settings.filter.Some? then [Model240.Command.SetFilter(ch, settings.filter.value)] else [];
    var nameWrites := if settings.sensorName.Some? then [Model240.Command.SetSensorName(ch, settings.sensorName.value)] else [];
    assert InputConfigPlan(settings, ch) == [Model240.Command.SetInputParameter(ch, settings.params)] + (filterWrites + nameWrites);
    var d1 := ParameterWriteLands(dev, ch, settings.params, filterWrites + nameWrites);
    var d2 := FilterWriteLands(d1, ch, settings.filter, filterWrites, nameWrites);
    var after := NameWriteLands(d2, ch, settings.sensorName, nameWrites);
    assert after == Configured(dev, settings, ch);
  }

  /** The input-parameter write, then the rest of a plan. */
  lemma ParameterWriteLands(dev: Mock240.Device, ch: int, params: Model240.InputParameter, plan: seq<Model240.Command>)
    returns (after: Mock240.Device)
    requires dev.Valid() && Model240.IsChannel(ch)
    ensures after == dev.(inputParams := dev.inputParams[ch := params]) && after.Valid()
    ensures Mock240.ApplyAll(dev, [Model240.Command.SetInputParameter(ch, params)] + plan) == Mock240.ApplyAll(after, plan)
  {
    ApplyAllCons(dev, Model240.Command.SetInputParameter(ch, params), plan);
    after := Mock240.SetInputParameter(dev, ch, params).value;
  }

  /** The filter write, if a filter was given, then the rest of a plan. */
  lemma FilterWriteLands(dev: Mock240.Device, ch: int, filter: Option<string>, writes: seq<Model240.Command>, plan: seq<Model240.Command>)
    returns (after: Mock240.Device)
    requires dev.Valid() && Model240.IsChannel(ch)
    requires writes == if filter.Some? then [Model240.Command.SetFilter(ch, filter.value)] else []
    ensures after == (if filter.Some? then dev.(filters := dev.filters[ch := filter.value]) else dev) && after.Valid()
    ensures Mock240.ApplyAll(dev, writes + plan) == Mock240.ApplyAll(after, plan)
  {
    if filter.Some? {
      ApplyAllCons(dev, writes[0], plan);
      after := Mock240.SetFilter(dev, ch, filter.value).value;
    } else {
      assert writes + plan == plan;
      after := dev;
    }
  }

  /** The sensor-name write, if a name was given, which ends the plan. */
  lemma NameWriteLands(dev: Mock240.Device, ch: int, name: Option<string>, writes: seq<Model240.Command>)
    returns (after: Mock240.Device)
    requires dev.Valid() && Model240.IsChannel(ch)
    requires writes == if name.Some? then [Model240.Command.SetSensorName(ch, name.value)] else []
    ensures after == (if name.Some? then dev.(sensorNames := dev.sensorNames[ch := name.value]) else dev) && after.Valid()
    ensures Mock240.ApplyAll(dev, writes) == Ok(after)
  {
    if name.Some? {
      ApplyAllCons(dev, writes[0], []);
      assert writes + [] == writes;
      after := Mock240.SetSensorName(dev, ch, name.value).value;
    } else {
      after := dev;
    }
    assert Mock240.ApplyAll(after, []) == Ok(after);
  }

  /** Applying a command followed by a plan is applying the command, then the plan. */
  lemma ApplyAllCons(dev: Mock240.Device, cmd: Model240.Command, plan: seq<Model240.Command>)
    requires dev.Valid() && Mock240.Accepts(cmd)
    ensures Mock240.Apply(dev, cmd).Ok?
    ensures Mock240.ApplyAll(dev, [cmd] + plan) == Mock240.ApplyAll(Mock240.Apply(dev, cmd).value, plan)
  {
    assert ([cmd] + plan)[1..] == plan;
  }

  /** With neither a filter nor a sensor name, set_input_config issues exactly one write. */
  lemma InputConfigSingleWrite(s: Session, params: Model240.InputParameter, ch: int)
    requires s.Valid() && s.device.Some? && Model240.IsChannel(ch)
    ensures SetInputConfig(s, InputSettings(None, params, None), ch).calls == [Model240.Write(Model240.Command.SetInputParameter(ch, params))]
  {
  }

  /** A second connect reports false and keeps the handle the first one installed. */
  lemma ConnectIdempotent(s: Session, useMock: bool, constructed: Option<Mock240.Device>, again: Option<Mock240.Device>)
    requires s.Valid()
    requires constructed.Some? ==> constructed.value.Valid()
    requires again.Some? ==> again.value.Valid()
    ensures var first := Connect(s, useMock, constructed);
      Connect(first.session, useMock, again) == Step(Ok(false), first.session, []) || first.result.Err?
  {
  }

  /** A second disconnect after a successful one changes nothing and calls nothing. */
  lemma DisconnectIdempotent(s: Session, releaseFails: bool, again: bool)
    requires s.Valid()
    ensures var first := Disconnect(s, releaseFails);
      first.result.Ok? ==> Disconnect(first.session, again) == Step(Ok(()), Disconnected, [])
  {
  }

  /** Every brightness get_brightness reports is one set_brightness accepts and
      stores unchanged; a value set_brightness accepts, such as 30, need not be
      one get_brightness can ever report. */
  lemma BrightnessQuantization(s: Session, reply: int)
    requires s.Valid()
    ensures var got := GetBrightness(s, reply).result;
      got.Ok? ==>
        && got.value % 25 == 0
        && SetBrightness(s, got.value).result.Ok?
        && SetBrightness(s, got.value).session.device.value.dev.brightness == got.value
    ensures s.device.Some? ==> SetBrightness(s, 30).result.Ok? && GetBrightness(s, reply).result != Ok(30)
  {
  }
}
