/**
 * The simulated sensor (pkg/sensor/fake.go): it resolves the enabled
 * channels and their calibration once, and each read draws one arbitrary
 * raw code per channel.
 */
module FakeSensors {
  import opened Wrappers
  import opened Readings
  import opened Configuration
  import opened ChannelSettings
  import opened Ads1115

  /** The exclusive upper bound of the random raw code, and the divisor of the simulated voltage. */
  const RawSpan: int := 32767

  /** The fields of the simulated sensor; the mutex is not modelled. */
  datatype FakeSensor = FakeSensor(channels: seq<int>, scales: map<int, real>, offsets: map<int, real>)

  /**
   * NewFakeSensor: the resolution loop of the channel resolver without the
   * sample rates; it never fails.
   */
  method NewFakeSensor(cs: seq<ChannelConfig>) returns (r: Result<FakeSensor, SensorError>)
    ensures r == Ok(FakeSensor(EnabledIds(cs), Scales(cs), Offsets(cs)))
  {
    var chans: seq<int> := [];
    var scales: map<int, real> := map[];
    var offs: map<int, real> := map[];
    var i := 0;
    while i < |cs|
      invariant 0 <= i <= |cs|
      invariant chans == EnabledIds(cs[..i]) && scales == Scales(cs[..i]) && offs == Offsets(cs[..i])
    {
      var c := cs[i];
      assert cs[..i + 1] == cs[..i] + [c];
      Tables.EntriesOfSnoc(cs[..i], ScaleEntry, c);
      Tables.EntriesOfSnoc(cs[..i], OffsetEntry, c);
      scales := scales[c.channel := c.calibrationScale];
      offs := offs[c.channel := c.calibrationOffset];
      if c.enabled {
        chans := chans + [c.channel];
      }
      i := i + 1;
    }
    assert cs[..i] == cs;
    r := Ok(FakeSensor(chans, scales, offs));
  }

  /** The scale of a channel, 1.0 when it has none. */
  function ScaleOf(f: FakeSensor, ch: int): real {
    if ch in f.scales then f.scales[ch] else 1.0
  }

  /** The offset of a channel, 0.0 when it has none. */
  function OffsetOf(f: FakeSensor, ch: int): real {
    if ch in f.offsets then f.offsets[ch] else 0.0
  }

  /** The simulated voltage of a raw code: a fraction of the 4.096 V range, then calibrated. */
  function SimulatedValue(raw: int, scale: real, offset: real): real {
    (raw as real) / (RawSpan as real) * 4.096 * scale + offset
  }

  /** A reading that the simulated sensor may produce for channel `ch` at instant `now`. */
  predicate SimulatedReading(f: FakeSensor, r: Reading, ch: int, now: Time) {
    && r.channel == ch
    && 0 <= r.raw < RawSpan
    && r.timestamp == now
    && r.value == SimulatedValue(r.raw, ScaleOf(f, ch), OffsetOf(f, ch))
  }

  /** A constructed sensor has a scale and an offset for every channel it reads, so the defaults never apply to it. */
  lemma ConstructedCalibrated(cs: seq<ChannelConfig>, k: nat)
    requires k < |EnabledIds(cs)|
    ensures var f := FakeSensor(EnabledIds(cs), Scales(cs), Offsets(cs));
      var ch := EnabledIds(cs)[k];
      && ch in Scales(cs) && ch in Offsets(cs)
      && ScaleOf(f, ch) == Scales(cs)[ch] && OffsetOf(f, ch) == Offsets(cs)[ch]
  {
    EnabledCalibrated(cs);
  }

  /**
   * Read: one reading per channel, in order, each with an arbitrary raw
   * code in [0, 32767) and the one instant `now`; it never fails. The
   * random draw is an arbitrary choice in that range.
   */
  method Read(f: FakeSensor, now: Time) returns (r: Result<seq<Reading>, SensorError>)
    ensures r.Ok?
    ensures |r.value| == |f.channels|
    ensures forall k :: 0 <= k < |f.channels| ==> SimulatedReading(f, r.value[k], f.channels[k], now)
  {
    var out: seq<Reading> := [];
    var i := 0;
    while i < |f.channels|
      invariant 0 <= i <= |f.channels|
      invariant |out| == i
      invariant forall k :: 0 <= k < i ==> SimulatedReading(f, out[k], f.channels[k], now)
    {
      var ch := f.channels[i];
      var raw :| 0 <= raw < RawSpan;
      var scale := 1.0;
      var off := 0.0;
      if ch in f.scales {
        scale := f.scales[ch];
      }
      if ch in f.offsets {
        off := f.offsets[ch];
      }
      var value := SimulatedValue(raw, scale, off);
      out := out + [Reading(ch, raw, value, now)];
      i := i + 1;
    }
    r := Ok(out);
  }

  /** Close: the simulated sensor holds nothing to release. */
  function Close(f: FakeSensor): (r: Outcome<SensorError>)
    ensures r.Pass?
  {
    Pass
  }
}
