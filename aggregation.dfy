/**
 * The per-output aggregation engine of main.go: every output keeps one
 * accumulator per channel, absorbs each batch of readings into it, and at
 * its own interval drains the accumulators into one averaged reading per
 * channel.
 */
module Aggregation {
  import opened Readings
  import opened Ads1115
  import Mqtt

  /** channelAgg: the running sum of values and of raw codes, the count, and the latest timestamp. */
  datatype ChannelAgg = ChannelAgg(sum: real, rawSum: int, count: nat, last: Time)

  /** The accumulator a new channel starts from (Go's zero value). */
  const Fresh: ChannelAgg := ChannelAgg(0.0, 0, 0, ZeroTime)

  /** The accumulator of a channel, or a fresh one when the channel has none. */
  function Get(m: map<int, ChannelAgg>, ch: int): ChannelAgg {
    if ch in m then m[ch] else Fresh
  }

  /** `last` moved to `t` only when `t` is strictly after it (time.Time.After). */
  function Later(last: Time, t: Time): (r: Time)
    ensures r >= last && r >= t && (r == last || r == t)
  {
    if t > last then t else last
  }

  // ---------------------------------------------------------------------
  // Absorbing a batch (updateEntryWithReadings)
  // ---------------------------------------------------------------------

  /** One reading added to the accumulator of its channel, created if missing. */
  function AbsorbOne(m: map<int, ChannelAgg>, r: Reading): map<int, ChannelAgg> {
    var a := Get(m, r.channel);
    m[r.channel := ChannelAgg(a.sum + r.value, a.rawSum + r.raw, a.count + 1, Later(a.last, r.timestamp))]
  }

  /** The accumulators after absorbing a batch, reading by reading. */
  function AbsorbAll(m: map<int, ChannelAgg>, rs: seq<Reading>): map<int, ChannelAgg> {
    if rs == [] then m
    else AbsorbOne(AbsorbAll(m, rs[..|rs| - 1]), rs[|rs| - 1])
  }

  /** How many readings of the batch are of channel `ch`. */
  function CountFor(rs: seq<Reading>, ch: int): nat {
    if rs == [] then 0
    else CountFor(rs[..|rs| - 1], ch) + (if rs[|rs| - 1].channel == ch then 1 else 0)
  }

  /** The sum of the raw codes of channel `ch` in the batch. */
  function RawSumFor(rs: seq<Reading>, ch: int): int {
    if rs == [] then 0
    else RawSumFor(rs[..|rs| - 1], ch) + (if rs[|rs| - 1].channel == ch then rs[|rs| - 1].raw else 0)
  }

  /** The sum of the values of channel `ch` in the batch. */
  function ValueSumFor(rs: seq<Reading>, ch: int): real {
    if rs == [] then 0.0
    else ValueSumFor(rs[..|rs| - 1], ch) + (if rs[|rs| - 1].channel == ch then rs[|rs| - 1].value else 0.0)
  }

  /** The latest of `t` and the timestamps of channel `ch` in the batch. */
  function LatestFor(t: Time, rs: seq<Reading>, ch: int): Time {
    if rs == [] then t
    else
      var before := LatestFor(t, rs[..|rs| - 1], ch);
      if rs[|rs| - 1].channel == ch then Later(before, rs[|rs| - 1].timestamp) else before
  }

  /** Some reading of the batch is of channel `ch`. */
  predicate HasChannel(rs: seq<Reading>, ch: int) {
    exists k :: 0 <= k < |rs| && rs[k].channel == ch
  }

  /**
   * Absorbing a batch adds, to the accumulator of every channel, the
   * number, the raw sum and the value sum of that channel's readings, and
   * moves its timestamp to the latest of them.
   */
  lemma {:induction false} AbsorbAllGet(m: map<int, ChannelAgg>, rs: seq<Reading>, ch: int)
    ensures var a, b := Get(m, ch), Get(AbsorbAll(m, rs), ch);
      && b.count == a.count + CountFor(rs, ch)
      && b.rawSum == a.rawSum + RawSumFor(rs, ch)
      && b.sum == a.sum + ValueSumFor(rs, ch)
      && b.last == LatestFor(a.last, rs, ch)
  {
    if rs != [] {
      AbsorbAllGet(m, rs[..|rs| - 1], ch);
    }
  }

  /** A channel has an accumulator after the batch exactly when it had one before or the batch has a reading of it. */
  lemma {:induction false} AbsorbAllKeys(m: map<int, ChannelAgg>, rs: seq<Reading>, ch: int)
    ensures ch in AbsorbAll(m, rs) <==> ch in m || HasChannel(rs, ch)
  {
    if rs != [] {
      var init := rs[..|rs| - 1];
      AbsorbAllKeys(m, init, ch);
      if HasChannel(init, ch) {
        var k :| 0 <= k < |init| && init[k].channel == ch;
        assert rs[k] == init[k];
      }
      if HasChannel(rs, ch) && rs[|rs| - 1].channel != ch {
        var k :| 0 <= k < |rs| && rs[k].channel == ch;
        assert init[k] == rs[k];
      }
    }
  }

  /** A batch without readings of `ch` adds nothing to its accumulator. */
  lemma {:induction false} NoReadingsFor(t: Time, rs: seq<Reading>, ch: int)
    requires !HasChannel(rs, ch)
    ensures CountFor(rs, ch) == 0 && RawSumFor(rs, ch) == 0 && ValueSumFor(rs, ch) == 0.0
    ensures LatestFor(t, rs, ch) == t
  {
    if rs != [] {
      var init := rs[..|rs| - 1];
      assert !HasChannel(init, ch) by {
        forall k | 0 <= k < |init| ensures init[k].channel != ch {
          assert init[k] == rs[k];
        }
      }
      NoReadingsFor(t, init, ch);
    }
  }

  /** The accumulator of a channel absent from the batch is unchanged. */
  lemma AbsorbAllUntouched(m: map<int, ChannelAgg>, rs: seq<Reading>, ch: int)
    requires !HasChannel(rs, ch)
    ensures ch in AbsorbAll(m, rs) <==> ch in m
    ensures ch in m ==> AbsorbAll(m, rs)[ch] == m[ch]
  {
    AbsorbAllKeys(m, rs, ch);
    AbsorbAllGet(m, rs, ch);
    NoReadingsFor(Get(m, ch).last, rs, ch);
  }

  /**
   * The latest timestamp is the maximum of the old one and the batch's
   * timestamps for that channel: at least each of them, and one of them.
   */
  lemma {:induction false} LatestForIsMax(t: Time, rs: seq<Reading>, ch: int)
    ensures LatestFor(t, rs, ch) >= t
    ensures forall k :: 0 <= k < |rs| && rs[k].channel == ch ==> LatestFor(t, rs, ch) >= rs[k].timestamp
    ensures LatestFor(t, rs, ch) == t ||
      exists k :: 0 <= k < |rs| && rs[k].channel == ch && LatestFor(t, rs, ch) == rs[k].timestamp
  {
    if rs != [] {
      var init := rs[..|rs| - 1];
      LatestForIsMax(t, init, ch);
      var before := LatestFor(t, init, ch);
      forall k | 0 <= k < |init| ensures rs[k] == init[k] {
      }
      if before != t {
        var k :| 0 <= k < |init| && init[k].channel == ch && before == init[k].timestamp;
        assert rs[k] == init[k];
      }
    }
  }

  // ---------------------------------------------------------------------
  // The accumulator invariant
  // ---------------------------------------------------------------------

  /** Every accumulator present has counted at least one reading. */
  predicate AllCounted(m: map<int, ChannelAgg>) {
    forall ch :: ch in m ==> m[ch].count >= 1
  }

  /** Every raw sum is one of `count` int16 codes. */
  predicate RawBounded(m: map<int, ChannelAgg>) {
    forall ch :: ch in m ==> -0x8000 * m[ch].count <= m[ch].rawSum <= 0x7FFF * m[ch].count
  }

  /** Absorbing keeps both invariants. */
  lemma {:induction false} AbsorbAllKeepsInvariant(m: map<int, ChannelAgg>, rs: seq<Reading>)
    requires AllCounted(m) && RawBounded(m)
    ensures AllCounted(AbsorbAll(m, rs)) && RawBounded(AbsorbAll(m, rs))
  {
    if rs != [] {
      var init := rs[..|rs| - 1];
      AbsorbAllKeepsInvariant(m, init);
      var before := AbsorbAll(m, init);
      var r := rs[|rs| - 1];
      var a := Get(before, r.channel);
      assert -0x8000 * a.count <= a.rawSum <= 0x7FFF * a.count;
      assert -0x8000 * (a.count + 1) == -0x8000 * a.count - 0x8000;
      assert 0x7FFF * (a.count + 1) == 0x7FFF * a.count + 0x7FFF;
    }
  }

  // ---------------------------------------------------------------------
  // Draining (buildSnapshotAndReset)
  // ---------------------------------------------------------------------

  /** `n / d` rounded to the nearest integer, halves away from zero (math.Round). */
  function RoundHalfAway(n: int, d: int): (q: int)
    requires d > 0
    ensures n >= 0 ==> 2 * q * d - d <= 2 * n < 2 * q * d + d
    ensures n < 0 ==> 2 * q * d - d < 2 * n <= 2 * q * d + d
  {
    if n >= 0 then
      var q := (2 * n + d) / (2 * d);
      DivBounds(2 * n + d, 2 * d);
      q
    else
      var p := (2 * -n + d) / (2 * d);
      DivBounds(2 * -n + d, 2 * d);
      -p
  }

  lemma DivBounds(x: int, y: int)
    requires y > 0
    ensures (x / y) * y <= x < (x / y) * y + y
  {
  }

  /** An average of int16 codes rounds to an int16 code. */
  lemma RoundHalfAwayInRange(n: int, d: int)
    requires d > 0 && -0x8000 * d <= n <= 0x7FFF * d
    ensures -0x8000 <= RoundHalfAway(n, d) <= 0x7FFF
  {
    var q := RoundHalfAway(n, d);
    MulAtLeast(q, 0x8000, d);
    MulAtLeast(-0x8001, q, d);
  }

  lemma MulAtLeast(a: int, b: int, d: int)
    requires d > 0
    ensures a >= b ==> a * d >= b * d
  {
    if a >= b {
      assert (a - b) * d >= 0;
    }
  }

  /** Rounding a whole number of units gives it back. */
  lemma RoundHalfAwayExact(n: int)
    ensures RoundHalfAway(n, 1) == n
  {
  }

  /** `int16(math.Round(rawSum / count))`: the average raw code. */
  function AvgRaw(a: ChannelAgg): Int16
    requires a.count > 0
  {
    WrapInt16(RoundHalfAway(a.rawSum, a.count))
  }

  /** The averaged reading of one accumulator. */
  function Averaged(ch: int, a: ChannelAgg): Reading
    requires a.count > 0
  {
    Reading(ch, AvgRaw(a), a.sum / (a.count as real), a.last)
  }

  /** A bounded accumulator's average raw code is the rounded mean itself; the int16 conversion changes nothing. */
  lemma AvgRawIsMean(a: ChannelAgg)
    requires a.count > 0 && -0x8000 * a.count <= a.rawSum <= 0x7FFF * a.count
    ensures AvgRaw(a) == RoundHalfAway(a.rawSum, a.count)
  {
    RoundHalfAwayInRange(a.rawSum, a.count);
  }

  /** A single absorbed reading drains back to the same raw code, value and (for a time after the zero time) timestamp. */
  lemma SingleReadingRoundTrip(r: Reading)
    ensures var a := AbsorbOne(map[], r)[r.channel];
      && a.count == 1
      && Averaged(r.channel, a).raw == r.raw
      && Averaged(r.channel, a).value == r.value
      && (r.timestamp > ZeroTime ==> Averaged(r.channel, a).timestamp == r.timestamp)
  {
    RoundHalfAwayExact(r.raw);
  }

  /** A channel whose accumulator has counted something. */
  predicate Live(m: map<int, ChannelAgg>, ch: int) {
    ch in m && m[ch].count > 0
  }

  /**
   * `snap` holds one averaged reading for every live channel of `m` that
   * is not in `todo`, each channel once, in some order.
   */
  ghost predicate SnapshotExcept(snap: seq<Reading>, m: map<int, ChannelAgg>, todo: set<int>) {
    && (forall k :: 0 <= k < |snap| ==>
          Live(m, snap[k].channel) && snap[k].channel !in todo
          && snap[k] == Averaged(snap[k].channel, m[snap[k].channel]))
    && (forall k, l :: 0 <= k < l < |snap| ==> snap[k].channel != snap[l].channel)
    && (forall ch :: Live(m, ch) && ch !in todo ==> exists k :: 0 <= k < |snap| && snap[k].channel == ch)
  }

  /**
   * `snap` is a snapshot of `m`: one averaged reading per live channel,
   * each channel once, in some order (Go's map order is unspecified).
   */
  ghost predicate IsSnapshot(snap: seq<Reading>, m: map<int, ChannelAgg>) {
    SnapshotExcept(snap, m, {})
  }

  /** Visiting one more channel: a dead one adds nothing, a live one adds its average. */
  lemma DrainStep(snap: seq<Reading>, m: map<int, ChannelAgg>, todo: set<int>, ch: int)
    requires SnapshotExcept(snap, m, todo) && ch in todo && ch in m
    ensures m[ch].count == 0 ==> SnapshotExcept(snap, m, todo - {ch})
    ensures m[ch].count > 0 ==> SnapshotExcept(snap + [Averaged(ch, m[ch])], m, todo - {ch})
  {
    var todo' := todo - {ch};
    if m[ch].count > 0 {
      var snap' := snap + [Averaged(ch, m[ch])];
      forall k | 0 <= k < |snap| ensures snap'[k] == snap[k] {
      }
      forall c | Live(m, c) && c !in todo' ensures exists k :: 0 <= k < |snap'| && snap'[k].channel == c {
        if c == ch {
          assert snap'[|snap|].channel == c;
        } else {
          var k :| 0 <= k < |snap| && snap[k].channel == c;
          assert snap'[k].channel == c;
        }
      }
    }
  }

  /** The accumulators not yet visited, and those visited that never counted anything. */
  function Remaining(m: map<int, ChannelAgg>, todo: set<int>): map<int, ChannelAgg> {
    map ch | ch in m && (ch in todo || m[ch].count == 0) :: m[ch]
  }

  /** The accumulators a drain leaves behind: those that never counted anything. */
  function Leftover(m: map<int, ChannelAgg>): map<int, ChannelAgg> {
    Remaining(m, {})
  }

  lemma RemainingStep(m: map<int, ChannelAgg>, todo: set<int>, ch: int)
    requires ch in todo && ch in m
    ensures m[ch].count == 0 ==> Remaining(m, todo - {ch}) == Remaining(m, todo)
    ensures m[ch].count > 0 ==> Remaining(m, todo - {ch}) == Remaining(m, todo) - {ch}
  {
  }

  /** Under the invariant a drain empties the map. */
  lemma LeftoverOfCounted(m: map<int, ChannelAgg>)
    requires AllCounted(m)
    ensures Leftover(m) == map[]
  {
    forall ch ensures ch !in Leftover(m) {
      assert ch in m ==> m[ch].count >= 1;
    }
    assert Leftover(m).Keys == {};
  }

  /** The only snapshot of an emptied map is empty: a second drain publishes nothing. */
  lemma SnapshotOfEmpty(snap: seq<Reading>)
    requires IsSnapshot(snap, map[])
    ensures snap == []
  {
    assert |snap| > 0 ==> Live(map[], snap[0].channel);
  }

  /** Under the invariant a drain yields nothing exactly when there is no accumulator. */
  lemma SnapshotEmptyIff(snap: seq<Reading>, m: map<int, ChannelAgg>)
    requires IsSnapshot(snap, m) && AllCounted(m)
    ensures snap == [] <==> m == map[]
  {
    if m == map[] {
      SnapshotOfEmpty(snap);
    } else {
      assert m.Keys != {};
      HasKey(m.Keys);
      var ch :| ch in m;
      assert Live(m, ch);
    }
  }

  /** The next key of a map range loop: Go visits the keys in an unspecified order. */
  method AnyKey(keys: set<int>) returns (k: int)
    requires keys != {}
    ensures k in keys
  {
    HasKey(keys);
    k :| k in keys;
  }

  lemma HasKey(keys: set<int>)
    requires keys != {}
    ensures exists k :: k in keys
  {
    if forall k: int :: k !in keys {
      assert false;
    }
  }

  // ---------------------------------------------------------------------
  // The output entry
  // ---------------------------------------------------------------------

  /** The output an entry publishes to. */
  datatype Sink = ConsoleSink | MqttSink(out: Mqtt.MqttOutput)

  /** outputEntry: an output, its interval and its accumulators (the mutex is not modelled). */
  class OutputEntry {
    const sink: Sink
    const intervalMs: int
    var aggs: map<int, ChannelAgg>

    /** The accumulator invariant. */
    ghost predicate Valid()
      reads this
    {
      AllCounted(aggs) && RawBounded(aggs)
    }

    /** makeOutputEntry: no accumulator yet. */
    constructor (out: Sink, interval: int)
      ensures sink == out && intervalMs == interval && aggs == map[]
      ensures Valid()
    {
      sink := out;
      intervalMs := interval;
      aggs := map[];
    }

    /** updateEntryWithReadings: absorb a batch, reading by reading. */
    method Absorb(readings: seq<Reading>)
      modifies this
      ensures aggs == AbsorbAll(old(aggs), readings)
      ensures old(Valid()) ==> Valid()
    {
      var i := 0;
      while i < |readings|
        invariant 0 <= i <= |readings|
        invariant aggs == AbsorbAll(old(aggs), readings[..i])
      {
        var r := readings[i];
        var a := Fresh;
        if r.channel in aggs {
          a := aggs[r.channel];
        }
        var last := a.last;
        if r.timestamp > a.last {
          last := r.timestamp;
        }
        aggs := aggs[r.channel := ChannelAgg(a.sum + r.value, a.rawSum + r.raw, a.count + 1, last)];
        assert readings[..i + 1][..i] == readings[..i];
        i := i + 1;
      }
      assert readings[..i] == readings;
      if old(Valid()) {
        AbsorbAllKeepsInvariant(old(aggs), readings);
      }
    }

    /**
     * buildSnapshotAndReset: visit every channel once, in an arbitrary
     * order; emit and delete each accumulator that has counted something.
     */
    method Drain() returns (snapshot: seq<Reading>)
      modifies this
      ensures IsSnapshot(snapshot, old(aggs))
      ensures aggs == Leftover(old(aggs))
      ensures old(Valid()) ==> aggs == map[] && Valid()
    {
      snapshot := [];
      ghost var m0 := aggs;
      var todo := aggs.Keys;
      assert aggs == Remaining(m0, todo);
      while todo != {}
        invariant todo <= m0.Keys
        invariant aggs == Remaining(m0, todo)
        invariant SnapshotExcept(snapshot, m0, todo)
        decreases todo
      {
        var ch := AnyKey(todo);
        RemainingStep(m0, todo, ch);
        DrainStep(snapshot, m0, todo, ch);
        todo := todo - {ch};
        var a := aggs[ch];
        assert a == m0[ch];
        if a.count == 0 {
          continue;
        }
        var avg := a.sum / (a.count as real);
        var avgRaw := WrapInt16(RoundHalfAway(a.rawSum, a.count));
        assert Reading(ch, avgRaw, avg, a.last) == Averaged(ch, m0[ch]);
        snapshot := snapshot + [Reading(ch, avgRaw, avg, a.last)];
        aggs := aggs - {ch};
      }
      if old(Valid()) {
        LeftoverOfCounted(old(aggs));
      }
    }
  }
}
