/**
 * The channel resolver of the sensor package (pkg/sensor/helpers.go): one
 * pass over the configured channels that lists the enabled channel numbers
 * and fills the per-channel scale, offset and sample-rate tables.
 */
module ChannelSettings {
  import opened Wrappers
  import opened Tables
  import opened Configuration
  import opened Seqs
  import Text

  /** The channel numbers of the enabled entries, in configuration order, repeats included. */
  function EnabledIds(cs: seq<ChannelConfig>): seq<int>
  {
    if cs == [] then []
    else
      var c := cs[|cs| - 1];
      EnabledIds(cs[..|cs| - 1]) + (if c.enabled then [c.channel] else [])
  }

  /** The channels made from a list of numbers enable exactly those numbers, in order. */
  lemma {:induction false} EnabledIdsOfRecords(ids: seq<int>)
    ensures EnabledIds(ChannelRecords(ids)) == ids
  {
    if ids != [] {
      var init := ids[..|ids| - 1];
      assert ChannelRecords(ids)[..|ids| - 1] == ChannelRecords(init);
      EnabledIdsOfRecords(init);
      assert ids == init + [ids[|ids| - 1]];
    }
  }

  /** A channels flag that loads enables exactly the channels it lists, in the order listed. */
  lemma LoadedChannelsEnabled(base: Config, f: Flags)
    requires Load(base, f).Ok? && f.channels != ""
    ensures EnabledIds(Load(base, f).value.channels) == ChannelsOf(Text.Split(f.channels, ',')).value
  {
    LoadOverrides(base, f);
    EnabledIdsOfRecords(ChannelsOf(Text.Split(f.channels, ',')).value);
  }

  /** The positions of the enabled entries, in increasing order. */
  function EnabledPositions(cs: seq<ChannelConfig>): seq<int>
  {
    if cs == [] then []
    else EnabledPositions(cs[..|cs| - 1]) + (if cs[|cs| - 1].enabled then [|cs| - 1] else [])
  }

  /** A strictly increasing sequence of positions. */
  predicate Increasing(ps: seq<int>) {
    forall a, b :: 0 <= a < b < |ps| ==> ps[a] < ps[b]
  }

  /** Position `p` of `cs` is an enabled entry. */
  predicate EnabledAt(cs: seq<ChannelConfig>, p: int) {
    0 <= p < |cs| && cs[p].enabled
  }

  /** Each listed position is an enabled entry, and the list holds its channel at the same index. */
  lemma {:induction false} EnabledPositionsSound(cs: seq<ChannelConfig>)
    ensures var ids, ps := EnabledIds(cs), EnabledPositions(cs);
      && |ids| == |ps|
      && (forall k :: 0 <= k < |ps| ==> EnabledAt(cs, ps[k]) && ids[k] == cs[ps[k]].channel)
  {
    if cs != [] {
      var init, last := cs[..|cs| - 1], |cs| - 1;
      EnabledPositionsSound(init);
      var ids0, ps0 := EnabledIds(init), EnabledPositions(init);
      var ids, ps := EnabledIds(cs), EnabledPositions(cs);
      if cs[last].enabled {
        assert ids == ids0 + [cs[last].channel] && ps == ps0 + [last];
        forall k | 0 <= k < |ps| ensures EnabledAt(cs, ps[k]) && ids[k] == cs[ps[k]].channel {
          if k < |ps0| {
            assert ps[k] == ps0[k] && ids[k] == ids0[k] && init[ps0[k]] == cs[ps0[k]];
          }
        }
      } else {
        AppendEmpty(ids0);
        AppendEmpty(ps0);
        forall k | 0 <= k < |ps| ensures EnabledAt(cs, ps[k]) && ids[k] == cs[ps[k]].channel {
          assert init[ps0[k]] == cs[ps0[k]];
        }
      }
    }
  }

  /** The listed positions increase and stay below the length. */
  lemma {:induction false} EnabledPositionsIncreasing(cs: seq<ChannelConfig>)
    ensures var ps := EnabledPositions(cs);
      Increasing(ps) && forall k :: 0 <= k < |ps| ==> ps[k] < |cs|
  {
    if cs != [] {
      var init, last := cs[..|cs| - 1], |cs| - 1;
      EnabledPositionsIncreasing(init);
      var ps0, ps := EnabledPositions(init), EnabledPositions(cs);
      if cs[last].enabled {
        assert ps == ps0 + [last];
      } else {
        AppendEmpty(ps0);
      }
    }
  }

  /** Every enabled entry's position is listed. */
  lemma {:induction false} EnabledPositionsComplete(cs: seq<ChannelConfig>)
    ensures forall p :: EnabledAt(cs, p) ==> p in EnabledPositions(cs)
  {
    if cs != [] {
      var init, last := cs[..|cs| - 1], |cs| - 1;
      EnabledPositionsComplete(init);
      var ps0, ps := EnabledPositions(init), EnabledPositions(cs);
      forall p | EnabledAt(cs, p) ensures p in ps {
        if p < last {
          assert init[p] == cs[p];
          assert EnabledAt(init, p);
          InAppend(ps0, if cs[last].enabled then [last] else [], p);
        } else {
          assert ps[|ps| - 1] == last;
        }
      }
    }
  }

  /**
   * The enabled list picks exactly the enabled entries, each once and in
   * configuration order: its k-th element is the channel of the k-th
   * enabled position.
   */
  lemma EnabledIdsExact(cs: seq<ChannelConfig>)
    ensures var ids, ps := EnabledIds(cs), EnabledPositions(cs);
      && |ids| == |ps|
      && Increasing(ps)
      && (forall k :: 0 <= k < |ps| ==> EnabledAt(cs, ps[k]) && ids[k] == cs[ps[k]].channel)
      && (forall p :: EnabledAt(cs, p) ==> p in ps)
  {
    EnabledPositionsSound(cs);
    EnabledPositionsIncreasing(cs);
    EnabledPositionsComplete(cs);
  }

  /** The enabled list of a concatenation is the concatenation of the enabled lists. */
  lemma {:induction false} EnabledIdsAppend(a: seq<ChannelConfig>, b: seq<ChannelConfig>)
    ensures EnabledIds(a + b) == EnabledIds(a) + EnabledIds(b)
  {
    if b == [] {
      assert a + b == a;
    } else {
      var init := b[..|b| - 1];
      assert (a + b)[..|a + b| - 1] == a + init;
      EnabledIdsAppend(a, init);
    }
  }

  /** The scale entry that every configured channel stores. */
  function ScaleEntry(c: ChannelConfig): Option<(int, real)> {
    Some((c.channel, c.calibrationScale))
  }

  /** The offset entry that every configured channel stores. */
  function OffsetEntry(c: ChannelConfig): Option<(int, real)> {
    Some((c.channel, c.calibrationOffset))
  }

  /** The sample-rate entry, stored only for a non-zero rate. */
  function RateEntry(c: ChannelConfig): Option<(int, int)> {
    if c.sampleRate != 0 then Some((c.channel, c.sampleRate)) else None
  }

  function Scales(cs: seq<ChannelConfig>): map<int, real> {
    TableOf(EntriesOf(cs, ScaleEntry))
  }

  function Offsets(cs: seq<ChannelConfig>): map<int, real> {
    TableOf(EntriesOf(cs, OffsetEntry))
  }

  function Rates(cs: seq<ChannelConfig>): map<int, int> {
    TableOf(EntriesOf(cs, RateEntry))
  }

  /** Channel `ch` is configured by some entry. */
  predicate Configured(cs: seq<ChannelConfig>, ch: int) {
    exists j :: 0 <= j < |cs| && cs[j].channel == ch
  }

  /** Channel `ch` has an entry with a non-zero sample rate. */
  predicate RateConfigured(cs: seq<ChannelConfig>, ch: int) {
    exists j :: 0 <= j < |cs| && cs[j].channel == ch && cs[j].sampleRate != 0
  }

  /**
   * The scale and offset tables hold every configured channel, enabled or
   * not, and nothing else; the rate table holds exactly the channels that
   * some entry gives a non-zero rate.
   */
  lemma SettingsKeys(cs: seq<ChannelConfig>, ch: int)
    ensures ch in Scales(cs) <==> Configured(cs, ch)
    ensures ch in Offsets(cs) <==> Configured(cs, ch)
    ensures ch in Rates(cs) <==> RateConfigured(cs, ch)
  {
    EntriesOfKeys(cs, ScaleEntry, ch);
    EntriesOfKeys(cs, OffsetEntry, ch);
    EntriesOfKeys(cs, RateEntry, ch);
  }

  /** For a repeated channel the last entry's scale and offset win. */
  lemma CalibrationLastWins(cs: seq<ChannelConfig>, j: nat)
    requires j < |cs|
    requires forall k :: j < k < |cs| ==> cs[k].channel != cs[j].channel
    ensures cs[j].channel in Scales(cs) && Scales(cs)[cs[j].channel] == cs[j].calibrationScale
    ensures cs[j].channel in Offsets(cs) && Offsets(cs)[cs[j].channel] == cs[j].calibrationOffset
  {
    EntriesOfLastWins(cs, ScaleEntry, j);
    EntriesOfLastWins(cs, OffsetEntry, j);
  }

  /**
   * The rate of a channel is the one of its last entry with a non-zero
   * rate: a later entry with rate zero does not erase it.
   */
  lemma RateLastWins(cs: seq<ChannelConfig>, j: nat)
    requires j < |cs| && cs[j].sampleRate != 0
    requires forall k :: j < k < |cs| && cs[k].sampleRate != 0 ==> cs[k].channel != cs[j].channel
    ensures cs[j].channel in Rates(cs) && Rates(cs)[cs[j].channel] == cs[j].sampleRate
  {
    EntriesOfLastWins(cs, RateEntry, j);
  }

  /** Every enabled channel has a scale and an offset. */
  lemma EnabledCalibrated(cs: seq<ChannelConfig>)
    ensures forall k :: 0 <= k < |EnabledIds(cs)| ==>
      EnabledIds(cs)[k] in Scales(cs) && EnabledIds(cs)[k] in Offsets(cs)
  {
    EnabledIdsExact(cs);
    var ids, ps := EnabledIds(cs), EnabledPositions(cs);
    forall k | 0 <= k < |ids| ensures ids[k] in Scales(cs) && ids[k] in Offsets(cs) {
      assert EnabledAt(cs, ps[k]);
      SettingsKeys(cs, ids[k]);
    }
  }

  /**
   * buildChannelSettings: the enabled channel list and the scale, offset
   * and sample-rate tables, filled entry by entry.
   */
  method BuildChannelSettings(cs: seq<ChannelConfig>)
    returns (channels: seq<int>, scales: map<int, real>, offsets: map<int, real>, sampleRates: map<int, int>)
    ensures channels == EnabledIds(cs)
    ensures scales == Scales(cs) && offsets == Offsets(cs) && sampleRates == Rates(cs)
  {
    channels, scales, offsets, sampleRates := [], map[], map[], map[];
    var i := 0;
    while i < |cs|
      invariant 0 <= i <= |cs|
      invariant channels == EnabledIds(cs[..i])
      invariant scales == Scales(cs[..i]) && offsets == Offsets(cs[..i]) && sampleRates == Rates(cs[..i])
    {
      var c := cs[i];
      assert cs[..i + 1] == cs[..i] + [c];
      EntriesOfSnoc(cs[..i], ScaleEntry, c);
      EntriesOfSnoc(cs[..i], OffsetEntry, c);
      EntriesOfSnoc(cs[..i], RateEntry, c);
      scales := scales[c.channel := c.calibrationScale];
      offsets := offsets[c.channel := c.calibrationOffset];
      if c.sampleRate != 0 {
        sampleRates := sampleRates[c.channel := c.sampleRate];
      }
      if c.enabled {
        channels := channels + [c.channel];
      }
      i := i + 1;
    }
    assert cs[..i] == cs;
  }
}
