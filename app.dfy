/**
 * The main program (main.go) around the aggregation engine: the sensor
 * polling interval, the choice of sensor, the construction of the output
 * entries, and one tick of the sensor reader and of an output worker.
 * Goroutines, tickers and signals are not modelled: each tick is one step
 * of one loop, taken on its own.
 */
module App {
  import opened Wrappers
  import opened Text
  import opened Readings
  import opened Configuration
  import opened ChannelSettings
  import opened Aggregation
  import Ads1115
  import FakeSensors
  import Mqtt
  import opened Seqs

  // ---------------------------------------------------------------------
  // computeSensorInterval
  // ---------------------------------------------------------------------

  /** The rate used when neither the channel nor the configuration gives a positive one. */
  const FallbackRate: int := 128

  /** Fixed time added to every conversion, in milliseconds. */
  const PerSampleOverheadMs: real := 2.0

  /** A rate that is not positive is replaced by the fallback rate. */
  function PositiveRate(sr: int): int {
    if sr <= 0 then FallbackRate else sr
  }

  /** The rate an enabled channel is polled at: its own, or the global one when its own is zero, then made positive. */
  function EffectiveRate(c: ChannelConfig, global: int): (sr: int)
    ensures sr > 0
  {
    PositiveRate(if c.sampleRate == 0 then global else c.sampleRate)
  }

  /**
   * The rate chain: a positive channel rate is used as is; a negative one
   * goes straight to the fallback, without consulting the global rate; a
   * zero one defers to the global rate, or to the fallback when that is
   * not positive either.
   */
  lemma EffectiveRateChain(c: ChannelConfig, global: int)
    ensures c.sampleRate > 0 ==> EffectiveRate(c, global) == c.sampleRate
    ensures c.sampleRate < 0 ==> EffectiveRate(c, global) == FallbackRate
    ensures c.sampleRate == 0 && global > 0 ==> EffectiveRate(c, global) == global
    ensures c.sampleRate == 0 && global <= 0 ==> EffectiveRate(c, global) == FallbackRate
  {
  }

  /** The time of one conversion at rate `sr`, plus the overhead, in milliseconds. */
  function SampleCost(sr: int): real
    requires sr > 0
  {
    1000.0 / (sr as real) + PerSampleOverheadMs
  }

  /** One conversion costs more than the overhead and at most a second plus the overhead. */
  lemma SampleCostBounds(sr: int)
    requires sr > 0
    ensures 2.0 < SampleCost(sr) <= 1002.0
  {
    var r := sr as real;
    var q := 1000.0 / r;
    assert q * r == 1000.0;
    assert q <= 0.0 ==> q * r <= 0.0;
    assert q > 1000.0 ==> q * r >= q * 1.0;
  }

  /** The summed cost of the enabled channels, each at its effective rate. */
  function TotalCost(cs: seq<ChannelConfig>, global: int): real {
    if cs == [] then 0.0
    else
      var c := cs[|cs| - 1];
      TotalCost(cs[..|cs| - 1], global) + (if c.enabled then SampleCost(EffectiveRate(c, global)) else 0.0)
  }

  /** Go's conversion of a float to an int: the fraction is dropped, toward zero. */
  function Truncate(x: real): (n: int)
    ensures x >= 0.0 ==> n as real <= x < n as real + 1.0
    ensures x < 0.0 ==> n as real - 1.0 < x <= n as real
  {
    if x >= 0.0 then x.Floor else -((-x).Floor)
  }

  /**
   * The sensor polling interval in milliseconds: the total cost of the
   * enabled channels, rounded half up; with no enabled channel, the cost
   * of one conversion at the global rate.
   */
  function SensorInterval(cfg: Config): int {
    if |EnabledIds(cfg.channels)| == 0 then Truncate(SampleCost(PositiveRate(cfg.sampleRate)) + 0.5)
    else Truncate(TotalCost(cfg.channels, cfg.sampleRate) + 0.5)
  }

  /** computeSensorInterval: one pass over the channels summing the costs of the enabled ones. */
  method ComputeSensorInterval(cfg: Config) returns (ms: int)
    ensures ms == SensorInterval(cfg)
  {
    var total := 0.0;
    var enabled := 0;
    var i := 0;
    while i < |cfg.channels|
      invariant 0 <= i <= |cfg.channels|
      invariant total == TotalCost(cfg.channels[..i], cfg.sampleRate)
      invariant enabled == |EnabledIds(cfg.channels[..i])|
    {
      var c := cfg.channels[i];
      assert cfg.channels[..i + 1][..i] == cfg.channels[..i];
      if !c.enabled {
        i := i + 1;
        continue;
      }
      enabled := enabled + 1;
      var sr := c.sampleRate;
      if sr == 0 {
        sr := cfg.sampleRate;
      }
      if sr <= 0 {
        sr := FallbackRate;
      }
      total := total + (1000.0 / (sr as real) + PerSampleOverheadMs);
      i := i + 1;
    }
    assert cfg.channels[..i] == cfg.channels;
    if enabled == 0 {
      var sr := cfg.sampleRate;
      if sr <= 0 {
        sr := FallbackRate;
      }
      return Truncate(1000.0 / (sr as real) + PerSampleOverheadMs + 0.5);
    }
    ms := Truncate(total + 0.5);
  }

  /** The total cost lies between two and 1002 milliseconds per enabled channel, strictly above the lower end when there is one. */
  lemma {:induction false} TotalCostBounds(cs: seq<ChannelConfig>, global: int)
    ensures var n := |EnabledIds(cs)| as real;
      2.0 * n <= TotalCost(cs, global) <= 1002.0 * n
    ensures |EnabledIds(cs)| > 0 ==> TotalCost(cs, global) > 2.0 * (|EnabledIds(cs)| as real)
  {
    if cs != [] {
      var c := cs[|cs| - 1];
      TotalCostBounds(cs[..|cs| - 1], global);
      if c.enabled {
        SampleCostBounds(EffectiveRate(c, global));
      }
    }
  }

  /**
   * The interval is at least two and at most 1002 milliseconds per
   * enabled channel (one channel when none is enabled), so it is always
   * positive.
   */
  lemma SensorIntervalBounds(cfg: Config)
    ensures var n := if |EnabledIds(cfg.channels)| == 0 then 1 else |EnabledIds(cfg.channels)|;
      2 * n <= SensorInterval(cfg) <= 1002 * n
  {
    TotalCostBounds(cfg.channels, cfg.sampleRate);
    SampleCostBounds(PositiveRate(cfg.sampleRate));
  }

  /** With enabled channels the interval is the total cost rounded to the nearest millisecond, halves up. */
  lemma SensorIntervalRounds(cfg: Config)
    requires |EnabledIds(cfg.channels)| > 0
    ensures var t := TotalCost(cfg.channels, cfg.sampleRate);
      (SensorInterval(cfg) as real) - 0.5 <= t < (SensorInterval(cfg) as real) + 0.5
  {
    TotalCostBounds(cfg.channels, cfg.sampleRate);
  }

  /** The total cost of a concatenation is the sum of the totals. */
  lemma {:induction false} TotalCostAppend(a: seq<ChannelConfig>, b: seq<ChannelConfig>, global: int)
    ensures TotalCost(a + b, global) == TotalCost(a, global) + TotalCost(b, global)
  {
    if b == [] {
      assert a + b == a;
    } else {
      var init := b[..|b| - 1];
      assert (a + b)[..|a + b| - 1] == a + init;
      TotalCostAppend(a, init, global);
    }
  }

  /** A disabled channel, wherever it stands, does not change the interval. */
  lemma DisabledChannelIgnored(cfg: Config, a: seq<ChannelConfig>, c: ChannelConfig, b: seq<ChannelConfig>)
    requires !c.enabled
    ensures SensorInterval(cfg.(channels := a + [c] + b)) == SensorInterval(cfg.(channels := a + b))
  {
    var g := cfg.sampleRate;
    TotalCostAppend(a + [c], b, g);
    TotalCostAppend(a, [c], g);
    TotalCostAppend(a, b, g);
    assert [c][..0] == [];
    EnabledIdsAppend(a + [c], b);
    EnabledIdsAppend(a, [c]);
    EnabledIdsAppend(a, b);
  }

  /** A configuration with only a global rate and channels, every other field zero. */
  function RateConfig(sampleRate: int, cs: seq<ChannelConfig>): Config {
    Config("", 0, sampleRate, 0.0, 0.0, [], "", cs, 0)
  }

  /**
   * The intervals of the program's own examples: no enabled channel at
   * 128 samples per second gives 10 ms, one channel 10 ms, two channels
   * 20 ms, and channels at 128 and 250 give 16 ms.
   */
  lemma SensorIntervalExamples()
    ensures SensorInterval(RateConfig(128, [])) == 10
    ensures SensorInterval(RateConfig(128, [ChannelConfig(0, true, 0.0, 0.0, 0)])) == 10
    ensures SensorInterval(RateConfig(128, [ChannelConfig(0, true, 0.0, 0.0, 0), ChannelConfig(1, true, 0.0, 0.0, 0)])) == 20
    ensures SensorInterval(RateConfig(128, [ChannelConfig(0, true, 0.0, 0.0, 128), ChannelConfig(1, true, 0.0, 0.0, 250)])) == 16
  {
    var one := [ChannelConfig(0, true, 0.0, 0.0, 0)];
    var two := one + [ChannelConfig(1, true, 0.0, 0.0, 0)];
    var mixed := [ChannelConfig(0, true, 0.0, 0.0, 128), ChannelConfig(1, true, 0.0, 0.0, 250)];
    assert two[..1] == one && one[..0] == [] && mixed[..1][..0] == [];
    assert TotalCost(one, 128) == 9.8125;
    assert TotalCost(two, 128) == 19.625;
    assert TotalCost(mixed, 128) == 15.8125;
    assert |EnabledIds(one)| == 1 && |EnabledIds(two)| == 2 && |EnabledIds(mixed)| == 2;
  }

  // ---------------------------------------------------------------------
  // initSensor
  // ---------------------------------------------------------------------

  datatype SensorKind = Simulated | Device

  /** The sensor type names the simulator when it lower-cases to "simulation", "sim" or "fake"; anything else is the device. */
  function SensorKindOf(sensorType: string): SensorKind {
    var t := ToLower(sensorType);
    if t == "simulation" || t == "sim" || t == "fake" then Simulated else Device
  }

  /** The choice ignores letter case. */
  lemma SensorKindIgnoresCase(sensorType: string)
    ensures SensorKindOf(ToLower(sensorType)) == SensorKindOf(sensorType)
  {
    ToLowerIdempotent(sensorType);
  }

  /** Capitalised names of the simulator select it. */
  lemma SimulatorNames()
    ensures SensorKindOf("SIM") == Simulated && SensorKindOf("Fake") == Simulated
  {
    assert ToLower("SIM") == "sim";
    assert ToLower("Fake") == "fake";
  }

  /** Other names select the device, including the empty name and a name that only starts like "sim". */
  lemma DeviceNames()
    ensures SensorKindOf("real") == Device && SensorKindOf("") == Device && SensorKindOf("sims") == Device
  {
    assert |ToLower("sims")| == 4;
  }

  /** The sensor the program reads. */
  datatype Sensor = FakeDevice(fake: FakeSensors.FakeSensor) | AdsDevice(ads: Ads1115.Ads1115Sensor)

  /**
   * initSensor: the simulator, built from the channel settings, or the
   * device driver, which needs the bus (`busOpened`).
   */
  method InitSensor(cfg: Config, busOpened: bool) returns (r: Result<Sensor, Ads1115.SensorError>)
    ensures SensorKindOf(cfg.sensorType) == Simulated ==>
      r == Ok(FakeDevice(FakeSensors.FakeSensor(EnabledIds(cfg.channels), Scales(cfg.channels), Offsets(cfg.channels))))
    ensures SensorKindOf(cfg.sensorType) == Device ==> (r.Ok? <==> busOpened)
    ensures SensorKindOf(cfg.sensorType) == Device && r.Ok? ==>
      r.value == AdsDevice(Ads1115.NewAds1115Sensor(cfg, busOpened).value)
  {
    var t := ToLower(cfg.sensorType);
    if t == "simulation" || t == "sim" || t == "fake" {
      var f := FakeSensors.NewFakeSensor(cfg.channels);
      r := Ok(FakeDevice(f.value));
    } else {
      var d := Ads1115.NewAds1115Sensor(cfg, busOpened);
      if d.Err? {
        return Err(d.error);
      }
      r := Ok(AdsDevice(d.value));
    }
  }

  /** A device driver built from a loaded configuration has a positive rate, which its batch read requires. */
  lemma LoadedDeviceReadable(base: Config, f: Flags, busOpened: bool)
    requires Load(base, f).Ok? && busOpened
    ensures Ads1115.NewAds1115Sensor(Load(base, f).value, busOpened).Ok?
    ensures Ads1115.NewAds1115Sensor(Load(base, f).value, busOpened).value.sampleRate > 0
  {
    LoadSucceeds(base, f);
  }

  // ---------------------------------------------------------------------
  // initOutputs
  // ---------------------------------------------------------------------

  /** The MQTT settings of an output: its own, or the default server, client id and state topic. */
  function MqttSettings(o: OutputConfig): MqttConfig {
    if o.mqtt.Some? then o.mqtt.value
    else EmptyMqtt.(server := Mqtt.DefaultServer, clientId := Mqtt.DefaultClientId, stateTopic := Mqtt.DefaultStateTopic)
  }

  predicate IsConsoleOutput(o: OutputConfig) {
    ToLower(o.kind) == "console"
  }

  /** An output type the program knows: console or mqtt, in any letter case. */
  predicate KnownOutput(o: OutputConfig) {
    IsConsoleOutput(o) || IsMqttOutput(o)
  }

  /** The outputs of known type, in order. */
  function KnownOutputs(outs: seq<OutputConfig>): seq<OutputConfig> {
    if outs == [] then []
    else KnownOutputs(outs[..|outs| - 1]) + (if KnownOutput(outs[|outs| - 1]) then [outs[|outs| - 1]] else [])
  }

  datatype InitError = MqttInitFailed(cause: Mqtt.MqttError) | NoOutputs

  /** The broker's answer to a connection with the given settings. */
  type Connector = MqttConfig -> bool

  /** The entries planned so far (sink and interval of each) or the error, and the discovery messages sent so far. */
  datatype Plan = Plan(result: Result<seq<(Sink, int)>, InitError>, sent: seq<Mqtt.Message>)

  /** What one output yields: no entry, a sink, or an error; and the discovery messages it sent. */
  datatype Step = Step(entry: Result<Option<Sink>, InitError>, sent: seq<Mqtt.Message>)

  /**
   * The switch of initOutputs on one output: a console sink; an MQTT sink
   * once connected with the output's settings, after its discovery
   * messages, or the connection error; nothing for an unknown type.
   */
  function EntryOf(o: OutputConfig, cs: seq<ChannelConfig>, connect: Connector): Step {
    if IsConsoleOutput(o) then Step(Ok(Some(ConsoleSink)), [])
    else if IsMqttOutput(o) then
      var mc := MqttSettings(o);
      var conn := Mqtt.Connected(mc, connect(mc));
      if conn.Err? then Step(Err(MqttInitFailed(conn.error)), [])
      else Step(Ok(Some(MqttSink(conn.value))), Mqtt.DiscoveryMessages(mc, cs))
    else Step(Ok(None), [])
  }

  /**
   * The loop of initOutputs over the configured outputs: an entry per
   * known output, at its defaulted interval; unknown types are skipped;
   * the first failed connection stops it.
   */
  function OutputPlan(outs: seq<OutputConfig>, si: int, cs: seq<ChannelConfig>, connect: Connector): Plan {
    if outs == [] then Plan(Ok([]), [])
    else
      var before := OutputPlan(outs[..|outs| - 1], si, cs, connect);
      var o := outs[|outs| - 1];
      var step := EntryOf(o, cs, connect);
      if before.result.Err? then before
      else if step.entry.Err? then Plan(Err(step.entry.error), before.sent + step.sent)
      else if step.entry.value.None? then before
      else Plan(Ok(before.result.value + [(step.entry.value.value, WithDefaultInterval(o, si).intervalMs)]), before.sent + step.sent)
  }

  /** The result of initOutputs: the planned entries, unless there are none. */
  function InitOutputsResult(p: Plan): Result<seq<(Sink, int)>, InitError> {
    if p.result.Ok? && p.result.value == [] then Err(NoOutputs) else p.result
  }

  /** Once a connection has failed, the later outputs are not visited. */
  lemma {:induction false} OutputPlanErrSticks(outs: seq<OutputConfig>, si: int, cs: seq<ChannelConfig>, connect: Connector, i: nat)
    requires i <= |outs| && OutputPlan(outs[..i], si, cs, connect).result.Err?
    ensures OutputPlan(outs, si, cs, connect) == OutputPlan(outs[..i], si, cs, connect)
  {
    if i < |outs| {
      var init := outs[..|outs| - 1];
      assert init[..i] == outs[..i];
      OutputPlanErrSticks(init, si, cs, connect, i);
    } else {
      assert outs[..i] == outs;
    }
  }

  /**
   * A successful plan has one entry per known output, in order: a console
   * sink exactly for the console outputs, and the output's interval, or
   * the sensor interval when it is zero.
   */
  lemma {:induction false} OutputPlanEntries(outs: seq<OutputConfig>, si: int, cs: seq<ChannelConfig>, connect: Connector)
    requires OutputPlan(outs, si, cs, connect).result.Ok?
    ensures var es, known := OutputPlan(outs, si, cs, connect).result.value, KnownOutputs(outs);
      && |es| == |known|
      && (forall k :: 0 <= k < |es| ==> es[k].1 == WithDefaultInterval(known[k], si).intervalMs)
      && (forall k :: 0 <= k < |es| ==> (es[k].0.ConsoleSink? <==> IsConsoleOutput(known[k])))
  {
    if outs != [] {
      OutputPlanEntries(outs[..|outs| - 1], si, cs, connect);
    }
  }

  /** Some output of `outs` is an MQTT output whose connection fails. */
  predicate SomeConnectionFails(outs: seq<OutputConfig>, connect: Connector) {
    exists k :: 0 <= k < |outs| && IsMqttOutput(outs[k]) && !connect(MqttSettings(outs[k]))
  }

  /** The plan fails exactly when some MQTT output cannot connect. */
  lemma {:induction false} OutputPlanFails(outs: seq<OutputConfig>, si: int, cs: seq<ChannelConfig>, connect: Connector)
    ensures OutputPlan(outs, si, cs, connect).result.Err? <==> SomeConnectionFails(outs, connect)
  {
    if outs != [] {
      var init := outs[..|outs| - 1];
      var o := outs[|outs| - 1];
      OutputPlanFails(init, si, cs, connect);
      assert forall k :: 0 <= k < |init| ==> init[k] == outs[k];
      assert "console" != "mqtt";
    }
  }

  /** With no console or mqtt output, initialisation fails with "no outputs configured". */
  lemma NoKnownOutputsFails(outs: seq<OutputConfig>, si: int, cs: seq<ChannelConfig>, connect: Connector)
    requires KnownOutputs(outs) == []
    ensures InitOutputsResult(OutputPlan(outs, si, cs, connect)) == Err(NoOutputs)
  {
    OutputPlanFails(outs, si, cs, connect);
    if SomeConnectionFails(outs, connect) {
      var k :| 0 <= k < |outs| && IsMqttOutput(outs[k]) && !connect(MqttSettings(outs[k]));
      KnownOutputsHas(outs, k);
    } else {
      OutputPlanEntries(outs, si, cs, connect);
    }
  }

  /** Every known output appears among the known outputs. */
  lemma {:induction false} KnownOutputsHas(outs: seq<OutputConfig>, k: nat)
    requires k < |outs| && KnownOutput(outs[k])
    ensures outs[k] in KnownOutputs(outs)
  {
    var init := outs[..|outs| - 1];
    if k < |init| {
      assert init[k] == outs[k];
      KnownOutputsHas(init, k);
    }
  }

  /** Pairwise distinct objects. */
  predicate Distinct(es: seq<OutputEntry>) {
    forall k, l :: 0 <= k < l < |es| ==> es[k] != es[l]
  }

  /** The entries hold the planned sinks and intervals. */
  ghost predicate EntriesMatch(es: seq<OutputEntry>, plan: seq<(Sink, int)>) {
    && |es| == |plan|
    && forall k :: 0 <= k < |es| ==> es[k].sink == plan[k].0 && es[k].intervalMs == plan[k].1
  }

  /** One more output extends a successful plan by the step that output yields. */
  lemma OutputPlanStep(outs: seq<OutputConfig>, i: nat, si: int, cs: seq<ChannelConfig>, connect: Connector)
    requires i < |outs| && OutputPlan(outs[..i], si, cs, connect).result.Ok?
    ensures var before, step, next := OutputPlan(outs[..i], si, cs, connect), EntryOf(outs[i], cs, connect), OutputPlan(outs[..i + 1], si, cs, connect);
      && (step.entry.Err? ==> next == Plan(Err(step.entry.error), before.sent + step.sent))
      && (step.entry.Ok? && step.entry.value.None? ==> next == before)
      && (step.entry.Ok? && step.entry.value.Some? ==>
            next == Plan(Ok(before.result.value + [(step.entry.value.value, WithDefaultInterval(outs[i], si).intervalMs)]), before.sent + step.sent))
  {
    assert outs[..i + 1][..i] == outs[..i];
  }

  /** A fresh entry made from the next planned sink and interval keeps the entries matching the plan. */
  lemma EntriesMatchSnoc(es: seq<OutputEntry>, plan: seq<(Sink, int)>, e: OutputEntry, s: (Sink, int))
    requires EntriesMatch(es, plan)
    requires e.sink == s.0 && e.intervalMs == s.1
    ensures EntriesMatch(es + [e], plan + [s])
  {
  }

  /** The first `i` outputs have their interval defaulted and the rest are untouched. */
  predicate DefaultedUpTo(outs: seq<OutputConfig>, si: int, i: int, outputs: seq<OutputConfig>) {
    && 0 <= i <= |outs| == |outputs|
    && (forall k :: 0 <= k < i ==> outputs[k] == WithDefaultInterval(outs[k], si))
    && (forall k :: i <= k < |outputs| ==> outputs[k] == outs[k])
  }

  lemma DefaultedNext(outs: seq<OutputConfig>, si: int, i: int, outputs: seq<OutputConfig>)
    requires DefaultedUpTo(outs, si, i, outputs) && i < |outs|
    ensures DefaultedUpTo(outs, si, i + 1, outputs[i := WithDefaultInterval(outs[i], si)])
  {
  }

  /**
   * The state of initOutputs after the first `i` outputs: those have their
   * interval defaulted and the rest are untouched, the plan for them
   * succeeded, its discovery messages follow `hist`, and the entries match it.
   */
  ghost predicate Progress(outs: seq<OutputConfig>, si: int, cs: seq<ChannelConfig>, connect: Connector, hist: seq<Mqtt.Message>,
                           i: int, outputs: seq<OutputConfig>, entries: seq<OutputEntry>, plan: Plan, sent: seq<Mqtt.Message>)
  {
    && DefaultedUpTo(outs, si, i, outputs)
    && plan == OutputPlan(outs[..i], si, cs, connect)
    && plan.result.Ok? && sent == hist + plan.sent && EntriesMatch(entries, plan.result.value)
  }

  /** An output that yields no entry is only defaulted. */
  lemma ProgressSkip(outs: seq<OutputConfig>, si: int, cs: seq<ChannelConfig>, connect: Connector, hist: seq<Mqtt.Message>,
                     i: int, outputs: seq<OutputConfig>, entries: seq<OutputEntry>, plan: Plan, sent: seq<Mqtt.Message>)
    requires Progress(outs, si, cs, connect, hist, i, outputs, entries, plan, sent) && i < |outs|
    requires EntryOf(outs[i], cs, connect).entry == Ok(None)
    ensures Progress(outs, si, cs, connect, hist, i + 1, outputs[i := WithDefaultInterval(outs[i], si)], entries,
                     OutputPlan(outs[..i + 1], si, cs, connect), sent)
  {
    DefaultedNext(outs, si, i, outputs);
    OutputPlanStep(outs, i, si, cs, connect);
  }

  /** An output that yields a sink adds one matching entry, after its discovery messages. */
  lemma ProgressExtend(outs: seq<OutputConfig>, si: int, cs: seq<ChannelConfig>, connect: Connector, hist: seq<Mqtt.Message>,
                       i: int, outputs: seq<OutputConfig>, entries: seq<OutputEntry>, plan: Plan, sent: seq<Mqtt.Message>, e: OutputEntry)
    requires Progress(outs, si, cs, connect, hist, i, outputs, entries, plan, sent) && i < |outs|
    requires EntryOf(outs[i], cs, connect).entry.Ok? && EntryOf(outs[i], cs, connect).entry.value.Some?
    requires e.sink == EntryOf(outs[i], cs, connect).entry.value.value
    requires e.intervalMs == WithDefaultInterval(outs[i], si).intervalMs
    ensures Progress(outs, si, cs, connect, hist, i + 1, outputs[i := WithDefaultInterval(outs[i], si)], entries + [e],
                     OutputPlan(outs[..i + 1], si, cs, connect), sent + EntryOf(outs[i], cs, connect).sent)
  {
    DefaultedNext(outs, si, i, outputs);
    OutputPlanStep(outs, i, si, cs, connect);
    var step := EntryOf(outs[i], cs, connect);
    EntriesMatchSnoc(entries, plan.result.value, e, (step.entry.value.value, WithDefaultInterval(outs[i], si).intervalMs));
    AppendAssoc(hist, plan.sent, step.sent);
  }

  /** The entry an output added, as a list of zero or one entries. */
  function Listed(made: Option<OutputEntry>): (es: seq<OutputEntry>)
    ensures |es| == (if made.Some? then 1 else 0)
  {
    if made.Some? then [made.value] else []
  }

  /** A successful step keeps the progress of the loop, whether or not it added an entry. */
  lemma ProgressNext(outs: seq<OutputConfig>, si: int, cs: seq<ChannelConfig>, connect: Connector, hist: seq<Mqtt.Message>,
                     i: int, outputs: seq<OutputConfig>, entries: seq<OutputEntry>, plan: Plan, sent: seq<Mqtt.Message>, made: Option<OutputEntry>)
    requires Progress(outs, si, cs, connect, hist, i, outputs, entries, plan, sent) && i < |outs|
    requires var step := EntryOf(outs[i], cs, connect);
      && step.entry.Ok? && (made.Some? <==> step.entry.value.Some?)
      && (made.Some? ==>
            && made.value.sink == step.entry.value.value
            && made.value.intervalMs == WithDefaultInterval(outs[i], si).intervalMs)
    ensures Progress(outs, si, cs, connect, hist, i + 1, outputs[i := WithDefaultInterval(outs[i], si)], entries + Listed(made),
                     OutputPlan(outs[..i + 1], si, cs, connect), sent + EntryOf(outs[i], cs, connect).sent)
  {
    if made.Some? {
      ProgressExtend(outs, si, cs, connect, hist, i, outputs, entries, plan, sent, made.value);
    } else {
      ProgressSkip(outs, si, cs, connect, hist, i, outputs, entries, plan, sent);
      assert entries + Listed(made) == entries;
      assert sent + EntryOf(outs[i], cs, connect).sent == sent + [];
    }
  }

  /** An output whose connection fails ends the plan with that error. */
  lemma ProgressFail(outs: seq<OutputConfig>, si: int, cs: seq<ChannelConfig>, connect: Connector, hist: seq<Mqtt.Message>,
                     i: int, outputs: seq<OutputConfig>, entries: seq<OutputEntry>, plan: Plan, sent: seq<Mqtt.Message>)
    requires Progress(outs, si, cs, connect, hist, i, outputs, entries, plan, sent) && i < |outs|
    requires EntryOf(outs[i], cs, connect).entry.Err?
    ensures var p, step := OutputPlan(outs, si, cs, connect), EntryOf(outs[i], cs, connect);
      p.result == Err(step.entry.error) && sent + step.sent == hist + p.sent
  {
    OutputPlanStep(outs, i, si, cs, connect);
    OutputPlanErrSticks(outs, si, cs, connect, i + 1);
    var step := EntryOf(outs[i], cs, connect);
    AppendAssoc(hist, plan.sent, step.sent);
  }

  /** The body of initOutputs for one output, at the interval it now has. */
  method MakeEntry(o: OutputConfig, interval: int, cs: seq<ChannelConfig>, connect: Connector, broker: Mqtt.Broker, hist: seq<Mqtt.Message>)
    returns (r: Result<Option<OutputEntry>, InitError>, sent: seq<Mqtt.Message>)
    ensures var step := EntryOf(o, cs, connect);
      && sent == hist + step.sent
      && (r.Err? <==> step.entry.Err?)
      && (r.Err? ==> r.error == step.entry.error)
      && (r.Ok? ==> (r.value.Some? <==> step.entry.value.Some?))
    ensures r.Ok? && r.value.Some? ==>
      && fresh(r.value.value)
      && r.value.value.sink == EntryOf(o, cs, connect).entry.value.value
      && r.value.value.intervalMs == interval && r.value.value.aggs == map[]
  {
    sent := hist;
    var typ := ToLower(o.kind);
    if typ == "console" {
      var e := new OutputEntry(ConsoleSink, interval);
      return Ok(Some(e)), sent;
    } else if typ == "mqtt" {
      var mc: MqttConfig;
      if o.mqtt.Some? {
        mc := o.mqtt.value;
      } else {
        mc := EmptyMqtt.(server := Mqtt.DefaultServer, clientId := Mqtt.DefaultClientId, stateTopic := Mqtt.DefaultStateTopic);
      }
      var mo;
      mo, sent := Mqtt.NewMqtt(mc, cs, connect(mc), broker, sent);
      if mo.Err? {
        return Err(MqttInitFailed(mo.error)), sent;
      }
      var e := new OutputEntry(MqttSink(mo.value), interval);
      return Ok(Some(e)), sent;
    }
    assert sent == hist + [];
    r := Ok(None);
  }

  /** The write-back of initOutputs: output `i` takes the sensor interval when its own is zero. */
  method DefaultIntervalAt(outputs: seq<OutputConfig>, i: nat, si: int) returns (r: seq<OutputConfig>)
    requires i < |outputs|
    ensures r == outputs[i := WithDefaultInterval(outputs[i], si)]
  {
    r := outputs;
    if outputs[i].intervalMs == 0 {
      r := outputs[i := outputs[i].(intervalMs := si)];
    }
  }

  /** At the end of the loop every output is defaulted and the plan covers them all. */
  lemma ProgressDone(outs: seq<OutputConfig>, si: int, cs: seq<ChannelConfig>, connect: Connector, hist: seq<Mqtt.Message>,
                     outputs: seq<OutputConfig>, entries: seq<OutputEntry>, plan: Plan, sent: seq<Mqtt.Message>)
    requires Progress(outs, si, cs, connect, hist, |outs|, outputs, entries, plan, sent)
    ensures outputs == DefaultIntervals(outs, si)
    ensures plan == OutputPlan(outs, si, cs, connect)
  {
    assert outs[..|outs|] == outs;
  }

  /**
   * One pass of the loop of initOutputs: default output `i`'s interval,
   * then make its entry; the progress of the loop moves on by one output
   * unless the connection failed, which ends the plan.
   */
  method InitStep(outs: seq<OutputConfig>, si: int, cs: seq<ChannelConfig>, connect: Connector, broker: Mqtt.Broker, hist: seq<Mqtt.Message>,
                  i: int, outputs: seq<OutputConfig>, ghost entries: seq<OutputEntry>, ghost plan: Plan, sent: seq<Mqtt.Message>)
    returns (made: Result<Option<OutputEntry>, InitError>, outputs': seq<OutputConfig>, sent': seq<Mqtt.Message>)
    requires Progress(outs, si, cs, connect, hist, i, outputs, entries, plan, sent) && i < |outs|
    ensures made.Err? ==>
      var p := OutputPlan(outs, si, cs, connect);
      p.result == Err(made.error) && sent' == hist + p.sent
    ensures made.Ok? ==>
      Progress(outs, si, cs, connect, hist, i + 1, outputs', entries + Listed(made.value), OutputPlan(outs[..i + 1], si, cs, connect), sent')
    ensures made.Ok? && made.value.Some? ==> fresh(made.value.value) && made.value.value.aggs == map[]
  {
    var o := outputs[i];
    outputs' := DefaultIntervalAt(outputs, i, si);
    made, sent' := MakeEntry(o, outputs'[i].intervalMs, cs, connect, broker, sent);
    if made.Err? {
      ProgressFail(outs, si, cs, connect, hist, i, outputs, entries, plan, sent);
      return;
    }
    ProgressNext(outs, si, cs, connect, hist, i, outputs, entries, plan, sent, made.value);
  }

  /**
   * The loop of initOutputs: the first failed connection, or the entries
   * for all known outputs, with every output's interval defaulted.
   */
  method MakeEntries(cfg: Config, si: int, connect: Connector, broker: Mqtt.Broker, hist: seq<Mqtt.Message>)
    returns (err: Option<InitError>, outputs: seq<OutputConfig>, entries: seq<OutputEntry>, sent: seq<Mqtt.Message>)
    ensures var p := OutputPlan(cfg.outputs, si, cfg.channels, connect);
      && (err.Some? ==> p.result == Err(err.value) && sent == hist + p.sent)
      && (err.None? ==> Progress(cfg.outputs, si, cfg.channels, connect, hist, |cfg.outputs|, outputs, entries, p, sent))
    ensures err.None? ==> Distinct(entries) && forall k :: 0 <= k < |entries| ==> fresh(entries[k]) && entries[k].aggs == map[]
  {
    entries := [];
    outputs := cfg.outputs;
    sent := hist;
    ghost var plan := OutputPlan([], si, cfg.channels, connect);
    var i := 0;
    while i < |cfg.outputs|
      invariant Progress(cfg.outputs, si, cfg.channels, connect, hist, i, outputs, entries, plan, sent)
      invariant Distinct(entries) && forall k :: 0 <= k < |entries| ==> fresh(entries[k]) && entries[k].aggs == map[]
    {
      var made;
      made, outputs, sent := InitStep(cfg.outputs, si, cfg.channels, connect, broker, hist, i, outputs, entries, plan, sent);
      if made.Err? {
        return Some(made.error), outputs, entries, sent;
      }
      entries := entries + Listed(made.value);
      plan := OutputPlan(cfg.outputs[..i + 1], si, cfg.channels, connect);
      i := i + 1;
    }
    assert cfg.outputs[..i] == cfg.outputs;
    err := None;
  }

  /**
   * initOutputs: walk the configured outputs, write the sensor interval
   * into every output whose interval is zero, and make an entry for each
   * console or mqtt output; an MQTT output connects and announces itself
   * first. `outputs` is the configuration's output list after the loop.
   */
  method InitOutputs(cfg: Config, si: int, connect: Connector, broker: Mqtt.Broker, hist: seq<Mqtt.Message>)
    returns (r: Result<seq<OutputEntry>, InitError>, outputs: seq<OutputConfig>, sent: seq<Mqtt.Message>)
    ensures var p := OutputPlan(cfg.outputs, si, cfg.channels, connect);
      && sent == hist + p.sent
      && (r.Ok? <==> InitOutputsResult(p).Ok?)
      && (r.Err? ==> r.error == InitOutputsResult(p).error)
      && (r.Ok? ==> outputs == DefaultIntervals(cfg.outputs, si) && EntriesMatch(r.value, p.result.value))
    ensures r.Ok? ==> Distinct(r.value)
    ensures r.Ok? ==> forall k :: 0 <= k < |r.value| ==> fresh(r.value[k]) && r.value[k].aggs == map[] && r.value[k].Valid()
  {
    var err, entries;
    err, outputs, entries, sent := MakeEntries(cfg, si, connect, broker, hist);
    if err.Some? {
      return Err(err.value), outputs, sent;
    }
    ghost var p := OutputPlan(cfg.outputs, si, cfg.channels, connect);
    ProgressDone(cfg.outputs, si, cfg.channels, connect, hist, outputs, entries, p, sent);
    if |entries| == 0 {
      return Err(NoOutputs), outputs, sent;
    }
    r := Ok(entries);
  }

  // ---------------------------------------------------------------------
  // One tick of the sensor reader and of an output worker
  // ---------------------------------------------------------------------

  /**
   * A tick of the sensor reader, given the outcome of the sensor's read:
   * a failed read changes nothing; a batch is absorbed into every entry.
   */
  method SampleTick(entries: seq<OutputEntry>, read: Result<seq<Reading>, Ads1115.SensorError>)
    requires Distinct(entries)
    modifies set e | e in entries
    ensures forall k :: 0 <= k < |entries| ==>
      entries[k].aggs == (if read.Ok? then AbsorbAll(old(entries[k].aggs), read.value) else old(entries[k].aggs))
    ensures forall k :: 0 <= k < |entries| && old(entries[k].Valid()) ==> entries[k].Valid()
  {
    if read.Err? {
      return;
    }
    var i := 0;
    while i < |entries|
      invariant 0 <= i <= |entries|
      invariant forall k :: 0 <= k < i ==>
        entries[k].aggs == AbsorbAll(old(entries[k].aggs), read.value) && (old(entries[k].Valid()) ==> entries[k].Valid())
      invariant forall k :: i <= k < |entries| ==> entries[k].aggs == old(entries[k].aggs)
    {
      entries[i].Absorb(read.value);
      i := i + 1;
    }
  }

  /** What a publish tick led to: nothing to publish, a publish, or a fatal publish error that ends the program. */
  datatype TickOutcome = Idle | Published | Fatal(cause: Mqtt.MqttError)

  /**
   * A tick of an output worker: drain the entry; publish the snapshot
   * unless it is empty; a publish error is fatal. The console output
   * always succeeds; its printing is not modelled.
   */
  method PublishTick(entry: OutputEntry, broker: Mqtt.Broker, hist: seq<Mqtt.Message>)
    returns (outcome: TickOutcome, snapshot: seq<Reading>, sent: seq<Mqtt.Message>)
    modifies entry
    ensures IsSnapshot(snapshot, old(entry.aggs)) && entry.aggs == Leftover(old(entry.aggs))
    ensures old(entry.Valid()) ==> entry.aggs == map[] && entry.Valid() && (outcome == Idle <==> old(entry.aggs) == map[])
    ensures snapshot == [] ==> outcome == Idle && sent == hist
    ensures snapshot != [] && entry.sink.ConsoleSink? ==> outcome == Published && sent == hist
    ensures snapshot != [] && entry.sink.MqttSink? ==>
      var o := Mqtt.PublishRun(entry.sink.out, snapshot, broker, hist);
      sent == o.sent && outcome == (if o.result.Pass? then Published else Fatal(o.result.error))
  {
    snapshot := entry.Drain();
    sent := hist;
    if old(entry.Valid()) {
      SnapshotEmptyIff(snapshot, old(entry.aggs));
    }
    if |snapshot| == 0 {
      return Idle, snapshot, sent;
    }
    match entry.sink
    case ConsoleSink =>
      outcome := Published;
    case MqttSink(m) =>
      var res;
      res, sent := Mqtt.Publish(m, snapshot, broker, hist);
      if res.Fail? {
        outcome := Fatal(res.error);
      } else {
        outcome := Published;
      }
  }
}
