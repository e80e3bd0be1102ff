/**
 * The ADS1115 driver (pkg/sensor/ads1115.go): the configuration register
 * word for a single-shot conversion, the decoding of the conversion
 * register, and the bus transactions of one batch read.
 *
 * The I2C device is abstracted as a transact capability: given the bus
 * events so far, the bytes written and the number of bytes to read, it
 * either fails or returns that many bytes. Sleeps are recorded as events.
 */
module Ads1115 {
  import opened Wrappers
  import opened Readings
  import Configuration
  import opened Seqs

  /** Register pointers of the device. */
  const PointerConv: bv8 := 0x00
  const PointerConfig: bv8 := 0x01

  /** Full-scale range of the ±4.096 V gain setting, in volts. */
  const PgaFullScale: real := 4.096

  /** Settling time added to every conversion wait, in milliseconds. */
  const SettleMs: int := 2

  /** The sample rates the device offers, in the order of their data-rate codes. */
  const SampleRates: seq<int> := [8, 16, 32, 64, 128, 250, 475, 860]

  datatype SensorError = InvalidChannel(channel: int) | WriteConfigFailed | ReadConvFailed | BusUnavailable

  // ---------------------------------------------------------------------
  // Configuration register
  // ---------------------------------------------------------------------

  /** The multiplexer code that selects single-ended input `channel`. */
  function MuxCode(channel: int): (r: Option<bv8>)
    ensures r.Some? <==> 0 <= channel < 4
    ensures r.Some? ==> r.value as int == channel + 4
  {
    match channel
    case 0 => Some(0x4)
    case 1 => Some(0x5)
    case 2 => Some(0x6)
    case 3 => Some(0x7)
    case _ => None
  }

  /** The data-rate code for a sample rate; a rate the device does not offer gets the code of 128. */
  function DataRateCode(rate: int): (dr: bv8)
    ensures dr < 8
  {
    match rate
    case 8 => 0x0
    case 16 => 0x1
    case 32 => 0x2
    case 64 => 0x3
    case 128 => 0x4
    case 250 => 0x5
    case 475 => 0x6
    case 860 => 0x7
    case _ => 0x4
  }

  /** The code of an offered rate indexes that rate in SampleRates; any other rate maps to 4. */
  lemma DataRateCodeTable(rate: int)
    ensures rate in SampleRates ==> SampleRates[DataRateCode(rate) as int] == rate
    ensures rate !in SampleRates ==> DataRateCode(rate) == 4
  {
  }

  /**
   * The configuration word for a single-shot conversion on `channel` at
   * `sampleRate`, returned as its big-endian bytes (msb, lsb).
   */
  function ConfigForChannel(channel: int, sampleRate: int): (r: Result<(bv8, bv8), SensorError>)
    ensures r.Err? <==> !(0 <= channel < 4)
    ensures r.Err? ==> r.error == InvalidChannel(channel)
    ensures r.Ok? ==> r.value.0 == 0x83 | (MuxCode(channel).value << 4)
    ensures r.Ok? ==> r.value.1 == (DataRateCode(sampleRate) << 5) | 0x03
  {
    match MuxCode(channel)
    case None => Err(InvalidChannel(channel))
    case Some(mux) =>
      var pga: bv16 := 0x1;
      var dr := DataRateCode(sampleRate);
      var config: bv16 := 0x8000;
      var config := config | ((mux as bv16) << 12);
      var config := config | (pga << 9);
      var config := config | ((1 as bv16) << 8);
      var config := config | ((dr as bv16) << 5);
      var config := config | 0x3;
      Ok(((config >> 8) as bv8, (config & 0xFF) as bv8))
  }

  /** The channel that a configuration msb selects. */
  function ChannelOfConfig(msb: bv8): int {
    (((msb >> 4) & 0x7) as int) - 4
  }

  /** The data-rate code that a configuration lsb selects. */
  function RateCodeOfConfig(lsb: bv8): bv8 {
    lsb >> 5
  }

  /**
   * The channel and the data-rate code can be read back from the bytes, and
   * the fixed fields always hold: start bit set, gain 001, single-shot mode,
   * comparator in traditional mode, active low, non-latching and disabled.
   */
  lemma ConfigRoundTrip(channel: int, sampleRate: int)
    requires 0 <= channel < 4
    ensures var (msb, lsb) := ConfigForChannel(channel, sampleRate).value;
      && ChannelOfConfig(msb) == channel
      && RateCodeOfConfig(lsb) == DataRateCode(sampleRate)
      && msb & 0x80 == 0x80
      && (msb >> 1) & 0x7 == 0x1
      && msb & 0x1 == 0x1
      && lsb & 0x1F == 0x03
  {
  }

  /** The msb depends only on the channel and the lsb only on the rate. */
  lemma ConfigFieldsIndependent(c1: int, c2: int, r1: int, r2: int)
    requires 0 <= c1 < 4 && 0 <= c2 < 4
    ensures ConfigForChannel(c1, r1).value.0 == ConfigForChannel(c1, r2).value.0
    ensures ConfigForChannel(c1, r1).value.1 == ConfigForChannel(c2, r1).value.1
  {
  }

  /** The byte values that the driver's tests expect. */
  lemma ConfigForChannelExamples()
    ensures ConfigForChannel(0, 128) == Ok((0xC3, 0x83))
    ensures ConfigForChannel(1, 128) == Ok((0xD3, 0x83))
    ensures ConfigForChannel(0, 8) == Ok((0xC3, 0x03))
    ensures ConfigForChannel(9, 128).Err?
  {
  }

  // ---------------------------------------------------------------------
  // Conversion register
  // ---------------------------------------------------------------------

  /** Go's conversion of an integer to int16: keep the low 16 bits, as two's complement. */
  function WrapInt16(x: int): Int16 {
    var m := x % 0x10000;
    if m < 0x8000 then m else m - 0x10000
  }

  /**
   * `int16(b0)<<8 | int16(b1)`: the shift wraps in int16 and the low byte
   * of the shifted value is zero, so the OR adds b1.
   */
  function DecodeRaw(b0: bv8, b1: bv8): (r: Int16)
    ensures var u := (b0 as int) * 256 + (b1 as int);
      r == if u < 0x8000 then u else u - 0x10000
  {
    WrapInt16((b0 as int) * 256) + (b1 as int)
  }

  /** The 16-bit two's complement pattern of an int16, as an unsigned number. */
  function Unsigned16(x: Int16): int {
    if x < 0 then x + 0x10000 else x
  }

  /** The byte whose value is `k`, counted up from zero. */
  function ByteOf(k: nat): bv8
    requires k < 256
  {
    if k == 0 then 0 else ByteOf(k - 1) + 1
  }

  /** The big-endian bytes in which the device reports a conversion result. */
  function EncodeRaw(x: Int16): (bv8, bv8) {
    var u := Unsigned16(x);
    (ByteOf(u / 256), ByteOf(u % 256))
  }

  lemma ByteSucc(b: bv8)
    requires b as int < 255
    ensures (b + 1) as int == b as int + 1
  {
    assert b < 255;
  }

  /** `ByteOf(k)` has the value `k`. */
  lemma {:induction false} ByteOfValue(k: nat)
    requires k < 256
    ensures ByteOf(k) as int == k
  {
    if k > 0 {
      ByteOfValue(k - 1);
      ByteSucc(ByteOf(k - 1));
    }
  }

  /** Every byte is the `ByteOf` its value. */
  lemma ByteOfByte(b: bv8)
    ensures ByteOf(b as int) == b
  {
    ByteOfValue(b as int);
    var c := ByteOf(b as int);
    assert c as int == b as int;
  }

  /** Decoding the bytes of an int16 gives back that int16. */
  lemma DecodeEncodeRaw(x: Int16)
    ensures DecodeRaw(EncodeRaw(x).0, EncodeRaw(x).1) == x
  {
    var u := Unsigned16(x);
    var hi, lo := u / 256, u % 256;
    ByteOfValue(hi);
    ByteOfValue(lo);
    assert hi * 256 + lo == u;
    if x < 0 {
      assert u >= 0x8000 && u - 0x10000 == x;
    } else {
      assert u < 0x8000 && u == x;
    }
  }

  lemma UnsignedDecodeRaw(b0: bv8, b1: bv8)
    ensures Unsigned16(DecodeRaw(b0, b1)) == (b0 as int) * 256 + (b1 as int)
  {
  }

  lemma Split256(hi: int, lo: int)
    requires 0 <= lo < 256
    ensures (hi * 256 + lo) / 256 == hi && (hi * 256 + lo) % 256 == lo
  {
  }

  lemma EncodeDecodeRawBytes(b0: bv8, b1: bv8)
    ensures EncodeRaw(DecodeRaw(b0, b1)) == (ByteOf(b0 as int), ByteOf(b1 as int))
  {
    UnsignedDecodeRaw(b0, b1);
    EncodeRawOf(DecodeRaw(b0, b1), b0 as int, b1 as int);
  }

  /** The bytes of an int16 are the high and low halves of its unsigned pattern. */
  lemma EncodeRawOf(x: Int16, hi: int, lo: int)
    requires 0 <= hi < 256 && 0 <= lo < 256 && Unsigned16(x) == hi * 256 + lo
    ensures EncodeRaw(x) == (ByteOf(hi), ByteOf(lo))
  {
    Split256(hi, lo);
  }

  /** Every byte pair is the encoding of the int16 it decodes to. */
  lemma EncodeDecodeRaw(b0: bv8, b1: bv8)
    ensures EncodeRaw(DecodeRaw(b0, b1)) == (b0, b1)
  {
    EncodeDecodeRawBytes(b0, b1);
    ByteOfByte(b0);
    ByteOfByte(b1);
  }

  /** The calibrated value of a raw code, in exact arithmetic. */
  function RawToValue(raw: Int16, pgaFS: real, scale: real, offset: real): real {
    (raw as real) * pgaFS / 32768.0 * scale + offset
  }

  /**
   * `int(1000.0/float64(rate)) + 2`: the wait before reading a conversion.
   * For a positive integer rate the float64 quotient truncates to the
   * integer quotient.
   */
  function ConversionDelayMs(sampleRate: int): int
    requires sampleRate > 0
  {
    1000 / sampleRate + SettleMs
  }

  // ---------------------------------------------------------------------
  // Batch read
  // ---------------------------------------------------------------------

  /** What happened on the bus: a transaction with its outcome, or a sleep. */
  datatype BusEvent =
    | Tx(write: seq<bv8>, readLen: nat, reply: Option<seq<bv8>>)
    | Sleep(ms: int)

  /** The bus capability: the outcome of a transaction, given the events so far. */
  type Transact = (seq<BusEvent>, seq<bv8>, nat) -> Option<seq<bv8>>

  /** A successful transaction fills the whole read buffer. */
  ghost predicate FillsBuffer(tx: Transact) {
    forall h, w, n :: tx(h, w, n).Some? ==> |tx(h, w, n).value| == n
  }

  /** The fields of the driver that a read uses. */
  datatype Ads1115Sensor = Ads1115Sensor(channels: seq<int>, sampleRate: int, scale: real, offset: real, pgaFS: real)

  /**
   * NewADS1115Sensor, given whether the host initialised and the bus
   * opened: the driver reads every configured channel number, in order,
   * at the global sample rate and calibration, on the 4.096 V range.
   */
  function NewAds1115Sensor(cfg: Configuration.Config, busOpened: bool): (r: Result<Ads1115Sensor, SensorError>)
    ensures r.Ok? <==> busOpened
    ensures r.Ok? ==>
      && |r.value.channels| == |cfg.channels|
      && (forall k :: 0 <= k < |cfg.channels| ==> r.value.channels[k] == cfg.channels[k].channel)
      && r.value.sampleRate == cfg.sampleRate
      && r.value.scale == cfg.calibrationScale && r.value.offset == cfg.calibrationOffset
      && r.value.pgaFS == PgaFullScale
  {
    if busOpened then
      var chans := seq(|cfg.channels|, k requires 0 <= k < |cfg.channels| => cfg.channels[k].channel);
      Ok(Ads1115Sensor(chans, cfg.sampleRate, cfg.calibrationScale, cfg.calibrationOffset, PgaFullScale))
    else Err(BusUnavailable)
  }

  /** The readings (or the error) of a batch, and the bus events after it. */
  datatype ReadOutcome = ReadOutcome(result: Result<seq<Reading>, SensorError>, bus: seq<BusEvent>)

  /** Puts `out` in front of the readings of a successful outcome. */
  function Prepend(out: seq<Reading>, o: ReadOutcome): ReadOutcome {
    ReadOutcome(if o.result.Ok? then Ok(out + o.result.value) else o.result, o.bus)
  }

  /** Sequence bookkeeping for the Read loop: prepending twice is prepending the concatenation. */
  lemma PrependPrepend(a: seq<Reading>, b: seq<Reading>, o: ReadOutcome)
    ensures Prepend(a, Prepend(b, o)) == Prepend(a + b, o)
  {
    if o.result.Ok? {
      assert a + (b + o.result.value) == (a + b) + o.result.value;
    }
  }

  /** Sequence bookkeeping for the Read loop: prepending nothing changes nothing. */
  lemma PrependEmpty(o: ReadOutcome)
    ensures Prepend([], o) == o
  {
    if o.result.Ok? {
      assert [] + o.result.value == o.result.value;
    }
  }

  /** The specification of a batch read over `chans`, starting from bus events `hist`. */
  function ReadFrom(s: Ads1115Sensor, tx: Transact, chans: seq<int>, hist: seq<BusEvent>, now: Time): ReadOutcome
    requires s.sampleRate > 0 && FillsBuffer(tx)
    decreases |chans|
  {
    if chans == [] then ReadOutcome(Ok([]), hist)
    else
      var ch := chans[0];
      match ConfigForChannel(ch, s.sampleRate)
      case Err(e) => ReadOutcome(Err(e), hist)
      case Ok((msb, lsb)) =>
        var w := [PointerConfig, msb, lsb];
        var r1 := tx(hist, w, 0);
        var h1 := hist + [Tx(w, 0, r1)];
        if r1.None? then ReadOutcome(Err(WriteConfigFailed), h1)
        else
          var h2 := h1 + [Sleep(ConversionDelayMs(s.sampleRate))];
          var r2 := tx(h2, [PointerConv], 2);
          var h3 := h2 + [Tx([PointerConv], 2, r2)];
          if r2.None? then ReadOutcome(Err(ReadConvFailed), h3)
          else
            var raw := DecodeRaw(r2.value[0], r2.value[1]);
            var reading := Reading(ch, raw, RawToValue(raw, s.pgaFS, s.scale, s.offset), now);
            Prepend([reading], ReadFrom(s, tx, chans[1..], h3, now))
  }

  /** The three bus events of one channel whose conversion was read successfully. */
  predicate ChannelTransactions(ev: seq<BusEvent>, ch: int, sampleRate: int)
    requires sampleRate > 0
  {
    && |ev| == 3
    && ConfigForChannel(ch, sampleRate).Ok?
    && var (msb, lsb) := ConfigForChannel(ch, sampleRate).value;
    && ev[0].Tx? && ev[0].write == [PointerConfig, msb, lsb] && ev[0].readLen == 0 && ev[0].reply.Some?
    && ev[1] == Sleep(ConversionDelayMs(sampleRate))
    && ev[2].Tx? && ev[2].write == [PointerConv] && ev[2].readLen == 2 && ev[2].reply.Some?
    && |ev[2].reply.value| == 2
  }

  /** The channel and raw code that one channel's events yield. */
  predicate ReadingFromEvents(r: Reading, ev: seq<BusEvent>, ch: int, sampleRate: int, now: Time)
    requires sampleRate > 0
  {
    && ChannelTransactions(ev, ch, sampleRate)
    && r.channel == ch
    && r.raw == DecodeRaw(ev[2].reply.value[0], ev[2].reply.value[1])
    && r.timestamp == now
  }

  /** The bus events after one channel's two transactions and the wait between them. */
  function AfterChannel(s: Ads1115Sensor, tx: Transact, ch: int, hist: seq<BusEvent>): (h: seq<BusEvent>)
    requires s.sampleRate > 0 && ConfigForChannel(ch, s.sampleRate).Ok?
    ensures |h| == |hist| + 3 && h[..|hist|] == hist
  {
    var (msb, lsb) := ConfigForChannel(ch, s.sampleRate).value;
    var w := [PointerConfig, msb, lsb];
    var h1 := hist + [Tx(w, 0, tx(hist, w, 0))];
    var h2 := h1 + [Sleep(ConversionDelayMs(s.sampleRate))];
    h2 + [Tx([PointerConv], 2, tx(h2, [PointerConv], 2))]
  }

  /** The first channel of a successful batch: its reading, and the events it leaves for the rest. */
  lemma ReadFromHead(s: Ads1115Sensor, tx: Transact, chans: seq<int>, hist: seq<BusEvent>, now: Time)
    requires s.sampleRate > 0 && FillsBuffer(tx)
    requires chans != [] && ReadFrom(s, tx, chans, hist, now).result.Ok?
    ensures ConfigForChannel(chans[0], s.sampleRate).Ok?
    ensures var o := ReadFrom(s, tx, chans, hist, now);
      var h3 := AfterChannel(s, tx, chans[0], hist);
      var rest := ReadFrom(s, tx, chans[1..], h3, now);
      && rest.result.Ok?
      && o.bus == rest.bus
      && o.result.value == [o.result.value[0]] + rest.result.value
      && ReadingFromEvents(o.result.value[0], h3[|hist|..], chans[0], s.sampleRate, now)
  {
    var h3 := AfterChannel(s, tx, chans[0], hist);
    assert |h3[|hist|..]| == 3;
  }

  /**
   * Readings `rs` come from the events of `bus` laid out three per channel
   * from position `base` on: the i-th reading from the i-th group of three.
   */
  predicate ReadingsFromEvents(rs: seq<Reading>, bus: seq<BusEvent>, base: int, chans: seq<int>, sampleRate: int, now: Time)
    requires sampleRate > 0
  {
    && |rs| == |chans| && 0 <= base && base + 3 * |chans| <= |bus|
    && forall i :: 0 <= i < |chans| ==>
         ReadingFromEvents(rs[i], bus[base + 3 * i..base + 3 * i + 3], chans[i], sampleRate, now)
  }

  /** One channel's reading in front of the readings of the channels after it. */
  lemma ReadingsFromEventsCons(r: Reading, rs: seq<Reading>, bus: seq<BusEvent>, base: int, ch: int, chans: seq<int>, sampleRate: int, now: Time)
    requires sampleRate > 0 && 0 <= base && base + 3 <= |bus|
    requires ReadingFromEvents(r, bus[base..base + 3], ch, sampleRate, now)
    requires ReadingsFromEvents(rs, bus, base + 3, chans, sampleRate, now)
    ensures ReadingsFromEvents([r] + rs, bus, base, [ch] + chans, sampleRate, now)
  {
    var rs', chans' := [r] + rs, [ch] + chans;
    forall i | 0 < i < |chans'|
      ensures ReadingFromEvents(rs'[i], bus[base + 3 * i..base + 3 * i + 3], chans'[i], sampleRate, now)
    {
      assert base + 3 * i == (base + 3) + 3 * (i - 1);
      assert rs'[i] == rs[i - 1] && chans'[i] == chans[i - 1];
    }
  }

  /**
   * A successful batch has one reading per channel, in order, all stamped
   * with the one instant, each decoded from the reply of its own
   * transactions; the bus saw exactly three events per channel.
   */
  lemma {:induction false} ReadFromOk(s: Ads1115Sensor, tx: Transact, chans: seq<int>, hist: seq<BusEvent>, now: Time)
    requires s.sampleRate > 0 && FillsBuffer(tx)
    requires ReadFrom(s, tx, chans, hist, now).result.Ok?
    ensures var o := ReadFrom(s, tx, chans, hist, now);
      && |o.bus| == |hist| + 3 * |chans|
      && o.bus[..|hist|] == hist
      && ReadingsFromEvents(o.result.value, o.bus, |hist|, chans, s.sampleRate, now)
    decreases |chans|
  {
    if chans != [] {
      ReadFromHead(s, tx, chans, hist, now);
      var h3 := AfterChannel(s, tx, chans[0], hist);
      var rest := ReadFrom(s, tx, chans[1..], h3, now);
      ReadFromOk(s, tx, chans[1..], h3, now);
      var o := ReadFrom(s, tx, chans, hist, now);
      PrefixOfPrefix(o.bus, h3, hist);
      PrefixSlice(o.bus, h3, |hist|, |hist| + 3);
      assert h3[|hist|..|hist| + 3] == h3[|hist|..];
      ReadingsFromEventsCons(o.result.value[0], rest.result.value, o.bus, |hist|, chans[0], chans[1..], s.sampleRate, now);
      HeadTail(chans);
    } else {
      TakeAll(hist);
    }
  }

  /** A batch fails when one of its channels is not an input of the device. */
  lemma {:induction false} InvalidChannelAborts(s: Ads1115Sensor, tx: Transact, chans: seq<int>, hist: seq<BusEvent>, now: Time, k: nat)
    requires s.sampleRate > 0 && FillsBuffer(tx)
    requires k < |chans| && !(0 <= chans[k] < 4)
    ensures ReadFrom(s, tx, chans, hist, now).result.Err?
    decreases |chans|
  {
    if k > 0 && 0 <= chans[0] < 4 {
      var (msb, lsb) := ConfigForChannel(chans[0], s.sampleRate).value;
      var w := [PointerConfig, msb, lsb];
      var h1 := hist + [Tx(w, 0, tx(hist, w, 0))];
      var h2 := h1 + [Sleep(ConversionDelayMs(s.sampleRate))];
      var h3 := h2 + [Tx([PointerConv], 2, tx(h2, [PointerConv], 2))];
      InvalidChannelAborts(s, tx, chans[1..], h3, now, k - 1);
    }
  }

  /** When every channel is an input of the device and the bus never fails, the batch succeeds. */
  lemma {:induction false} ReadFromSucceeds(s: Ads1115Sensor, tx: Transact, chans: seq<int>, hist: seq<BusEvent>, now: Time)
    requires s.sampleRate > 0 && FillsBuffer(tx)
    requires forall i :: 0 <= i < |chans| ==> 0 <= chans[i] < 4
    requires forall h, w, n :: tx(h, w, n).Some?
    ensures ReadFrom(s, tx, chans, hist, now).result.Ok?
    decreases |chans|
  {
    if chans != [] {
      var (msb, lsb) := ConfigForChannel(chans[0], s.sampleRate).value;
      var w := [PointerConfig, msb, lsb];
      var h1 := hist + [Tx(w, 0, tx(hist, w, 0))];
      var h2 := h1 + [Sleep(ConversionDelayMs(s.sampleRate))];
      var h3 := h2 + [Tx([PointerConv], 2, tx(h2, [PointerConv], 2))];
      ReadFromSucceeds(s, tx, chans[1..], h3, now);
    }
  }

  /** A batch fails when one of its transactions fails, and nothing happens on the bus after that. */
  lemma {:induction false} FailedTransactionAborts(s: Ads1115Sensor, tx: Transact, chans: seq<int>, hist: seq<BusEvent>, now: Time)
    requires s.sampleRate > 0 && FillsBuffer(tx)
    ensures var o := ReadFrom(s, tx, chans, hist, now);
      && |hist| <= |o.bus| <= |hist| + 3 * |chans|
      && o.bus[..|hist|] == hist
      && (forall j :: |hist| <= j < |o.bus| && o.bus[j].Tx? && o.bus[j].reply.None? ==> j == |o.bus| - 1 && o.result.Err?)
    decreases |chans|
  {
    if chans != [] && 0 <= chans[0] < 4 {
      var (msb, lsb) := ConfigForChannel(chans[0], s.sampleRate).value;
      var w := [PointerConfig, msb, lsb];
      var r1 := tx(hist, w, 0);
      var h1 := hist + [Tx(w, 0, r1)];
      if r1.Some? {
        var h2 := h1 + [Sleep(ConversionDelayMs(s.sampleRate))];
        var r2 := tx(h2, [PointerConv], 2);
        var h3 := h2 + [Tx([PointerConv], 2, r2)];
        if r2.Some? {
          FailedTransactionAborts(s, tx, chans[1..], h3, now);
          var o := ReadFrom(s, tx, chans, hist, now);
          assert o.bus == ReadFrom(s, tx, chans[1..], h3, now).bus;
          assert o.bus[..|h3|] == h3;
          assert o.bus[..|hist|] == h3[..|hist|];
          forall j | |hist| <= j < |h3| ensures o.bus[j] == h3[j] && !(h3[j].Tx? && h3[j].reply.None?) {
          }
        }
      }
    }
  }

  /**
   * Read: for each configured channel in order, write the configuration,
   * wait for the conversion, read the two result bytes and decode them. Any
   * invalid channel or failed transaction ends the batch with an error and
   * no readings.
   */
  method Read(s: Ads1115Sensor, tx: Transact, hist: seq<BusEvent>, now: Time)
    returns (result: Result<seq<Reading>, SensorError>, bus: seq<BusEvent>)
    requires s.sampleRate > 0 && FillsBuffer(tx)
    ensures ReadOutcome(result, bus) == ReadFrom(s, tx, s.channels, hist, now)
  {
    var out: seq<Reading> := [];
    bus := hist;
    var i := 0;
    assert s.channels[0..] == s.channels;
    PrependEmpty(ReadFrom(s, tx, s.channels, hist, now));
    while i < |s.channels|
      invariant 0 <= i <= |s.channels|
      invariant ReadFrom(s, tx, s.channels, hist, now) == Prepend(out, ReadFrom(s, tx, s.channels[i..], bus, now))
    {
      var ch := s.channels[i];
      assert s.channels[i..][0] == ch && s.channels[i..][1..] == s.channels[i + 1..];
      ghost var before := bus;
      var config := ConfigForChannel(ch, s.sampleRate);
      if config.Err? {
        assert ReadFrom(s, tx, s.channels[i..], bus, now) == ReadOutcome(Err(config.error), bus);
        return Err(config.error), bus;
      }
      var (msb, lsb) := config.value;
      // write config
      var w := [PointerConfig, msb, lsb];
      var r1 := tx(bus, w, 0);
      bus := bus + [Tx(w, 0, r1)];
      if r1.None? {
        assert ReadFrom(s, tx, s.channels[i..], before, now) == ReadOutcome(Err(WriteConfigFailed), bus);
        return Err(WriteConfigFailed), bus;
      }
      // wait for conversion
      bus := bus + [Sleep(ConversionDelayMs(s.sampleRate))];
      // read conversion
      var r2 := tx(bus, [PointerConv], 2);
      bus := bus + [Tx([PointerConv], 2, r2)];
      if r2.None? {
        assert ReadFrom(s, tx, s.channels[i..], before, now) == ReadOutcome(Err(ReadConvFailed), bus);
        return Err(ReadConvFailed), bus;
      }
      var raw := DecodeRaw(r2.value[0], r2.value[1]);
      var reading := Reading(ch, raw, RawToValue(raw, s.pgaFS, s.scale, s.offset), now);
      PrependPrepend(out, [reading], ReadFrom(s, tx, s.channels[i + 1..], bus, now));
      out := out + [reading];
      i := i + 1;
    }
    assert s.channels[i..] == [];
    assert out + [] == out;
    result := Ok(out);
  }
}
