/**
 * The configuration package (pkg/config/config.go): the configuration
 * records, their defaults, the small string parsers, and the rules by
 * which command-line flags override a configuration.
 *
 * The channel and MQTT records take the shape their users read
 * (per-channel objects; MQTT state/discovery fields).
 */
module Configuration {
  import opened Wrappers
  import opened Text
  import opened Tables
  import opened Seqs

  // ---------------------------------------------------------------------
  // Records
  // ---------------------------------------------------------------------

  /** One configured ADC input and its per-channel calibration. */
  datatype ChannelConfig = ChannelConfig(
    channel: int,
    enabled: bool,
    calibrationScale: real,
    calibrationOffset: real,
    sampleRate: int)

  /** Broker connection, state topic and Home Assistant discovery settings. */
  datatype MqttConfig = MqttConfig(
    server: string,
    username: string,
    password: string,
    clientId: string,
    topic: string,
    stateTopic: string,
    discoveryTopic: string,
    discoveryName: string,
    discoveryUniqueId: string)

  /** The zero MQTTConfig value. */
  const EmptyMqtt: MqttConfig := MqttConfig("", "", "", "", "", "", "", "", "")

  /** One output: its type name ("console", "mqtt", ...), its publish interval and its MQTT settings. */
  datatype OutputConfig = OutputConfig(kind: string, intervalMs: int, mqtt: Option<MqttConfig>)

  datatype Config = Config(
    i2cBus: string,
    i2cAddress: int,
    sampleRate: int,
    calibrationScale: real,
    calibrationOffset: real,
    outputs: seq<OutputConfig>,
    sensorType: string,
    channels: seq<ChannelConfig>,
    intervalMs: int)

  /** A channel named by its number alone: enabled, uncalibrated, at the global rate. */
  function PlainChannel(id: int): ChannelConfig {
    ChannelConfig(id, true, 1.0, 0.0, 0)
  }

  /** One plain channel per listed number, in the order listed. */
  function ChannelRecords(ids: seq<int>): (cs: seq<ChannelConfig>)
    ensures |cs| == |ids| && forall i :: 0 <= i < |ids| ==> cs[i] == PlainChannel(ids[i])
  {
    seq(|ids|, i requires 0 <= i < |ids| => PlainChannel(ids[i]))
  }

  /** The four inputs of the device, each a plain channel. */
  function DefaultChannels(): seq<ChannelConfig> {
    ChannelRecords([0, 1, 2, 3])
  }

  function DefaultConfig(): (c: Config)
    ensures c.sampleRate == 128 && c.intervalMs == 1000
    ensures c.outputs == [OutputConfig("console", 1000, None)]
    ensures |c.channels| == 4 && forall i :: 0 <= i < 4 ==> c.channels[i].channel == i && c.channels[i].enabled
  {
    Config("2", 0x48, 128, 1.0, 0.0, [OutputConfig("console", 1000, None)], "real", DefaultChannels(), 1000)
  }

  datatype ConfigError =
    | InvalidI2cAddress(text: string)
    | InvalidChannel(text: string)
    | NonPositiveSampleRate

  // ---------------------------------------------------------------------
  // parseIntOrHex
  // ---------------------------------------------------------------------

  /** A hexadecimal number after a "0x" or "0X" prefix, otherwise a decimal number. */
  function ParseIntOrHex(s: string): (r: Option<int>)
    ensures r.Some? ==> InIntRange(r.value)
  {
    if HasPrefix(s, "0x") || HasPrefix(s, "0X") then ParseInt(s[2..], 16) else Atoi(s)
  }

  /** A prefixed hexadecimal numeral reads back as its value. */
  lemma ParseIntOrHexHex(n: nat, upper: bool)
    requires n <= IntMax
    ensures ParseIntOrHex((if upper then "0X" else "0x") + FormatNat(n, 16)) == Some(n)
  {
    var digits := FormatNat(n, 16);
    var s := (if upper then "0X" else "0x") + digits;
    assert s[2..] == digits;
    ParseFormatNat(n, 16);
    assert IsDigit(digits[0], 16);
  }

  /**
   * Every input reads as a numeral: after "0x" or "0X" a base-16 one,
   * otherwise a base-10 one, each valued positionally (see NumeralValue).
   */
  lemma ParseIntOrHexValue(s: string)
    ensures HasPrefix(s, "0x") || HasPrefix(s, "0X") ==> ParseIntOrHex(s) == NumeralValue(s[2..], 16)
    ensures !HasPrefix(s, "0x") && !HasPrefix(s, "0X") ==> ParseIntOrHex(s) == NumeralValue(s, 10)
  {
    if HasPrefix(s, "0x") || HasPrefix(s, "0X") {
      ParseIntNumeral(s[2..], 16);
    } else {
      ParseIntNumeral(s, 10);
    }
  }

  /** "0x" or "0X" and hex digits of either case, leading zeros allowed, read as their positional value. */
  lemma ParseIntOrHexHexDigits(digits: string, upper: bool)
    requires AllDigits(digits, 16)
    requires DigitsValue(digits, 16) <= IntMax
    ensures ParseIntOrHex((if upper then "0X" else "0x") + digits) == Some(DigitsValue(digits, 16))
  {
    var s := (if upper then "0X" else "0x") + digits;
    assert s[..2] == (if upper then "0X" else "0x") && s[2..] == digits;
    ParseIntOrHexValue(s);
    assert IsDigit(digits[0], 16);
    assert Unsigned(digits) == digits;
  }

  /** Decimal digits, leading zeros allowed, read as their positional value. */
  lemma ParseIntOrHexDecimalDigits(digits: string)
    requires AllDigits(digits, 10)
    requires DigitsValue(digits, 10) <= IntMax
    ensures ParseIntOrHex(digits) == Some(DigitsValue(digits, 10))
  {
    assert IsDigit(digits[0], 10);
    if |digits| >= 2 {
      assert IsDigit(digits[1], 10);
      NotHexPrefixed(digits);
    }
    assert Unsigned(digits) == digits;
    assert ParseIntOrHex(digits) == ParseInt(digits, 10);
    ParseIntNumeral(digits, 10);
  }

  /** A sign and decimal digits read as the signed positional value. */
  lemma ParseIntOrHexSignedDigits(sign: char, digits: string)
    requires sign == '+' || sign == '-'
    requires AllDigits(digits, 10)
    requires DigitsValue(digits, 10) <= IntMax
    ensures var v: int := DigitsValue(digits, 10);
      ParseIntOrHex([sign] + digits) == Some(if sign == '-' then -v else v)
  {
    SignNotHexPrefixed(sign, digits);
    ParseIntSigned(sign, digits, 10);
  }

  /** The device's own address written in upper case reads as its value. */
  lemma ParseIntOrHexUpperCase()
    ensures ParseIntOrHex("0x4A") == Some(0x4A)
  {
    assert "4A"[1..] == "A";
    ParseIntOrHexHexDigits("4A", false);
    assert "0x" + "4A" == "0x4A";
  }

  /** A hexadecimal address with a leading zero reads as its value. */
  lemma ParseIntOrHexHexLeadingZero()
    ensures ParseIntOrHex("0x048") == Some(0x48)
  {
    assert "048"[1..] == "48" && "48"[1..] == "8";
    ParseIntOrHexHexDigits("048", false);
    assert "0x" + "048" == "0x048";
  }

  /** A decimal address with a leading zero reads as its value. */
  lemma ParseIntOrHexLeadingZero()
    ensures ParseIntOrHex("072") == Some(72)
  {
    assert "072"[1..] == "72" && "72"[1..] == "2";
    ParseIntOrHexDecimalDigits("072");
  }

  /** A decimal address with a plus sign reads as its value. */
  lemma ParseIntOrHexPlusSign()
    ensures ParseIntOrHex("+72") == Some(72)
  {
    assert "72"[1..] == "2";
    ParseIntOrHexSignedDigits('+', "72");
    assert ['+'] + "72" == "+72";
  }

  lemma SignNotHexPrefixed(sign: char, digits: string)
    requires sign != '0'
    ensures ParseIntOrHex([sign] + digits) == Atoi([sign] + digits)
  {
    var s := [sign] + digits;
    if |s| >= 2 {
      assert s[..2][0] == sign;
    }
  }

  lemma NotHexPrefixed(s: string)
    requires |s| >= 2 && s[1] != 'x' && s[1] != 'X'
    ensures !HasPrefix(s, "0x") && !HasPrefix(s, "0X")
  {
    assert s[..2][1] == s[1];
  }

  /** A decimal numeral reads back as its value: it can never look like a hex prefix. */
  lemma ParseIntOrHexDecimal(n: int)
    requires InIntRange(n)
    ensures ParseIntOrHex(FormatDecimal(n)) == Some(n)
  {
    var s := FormatDecimal(n);
    if |s| >= 2 {
      if n >= 0 {
        assert IsDigit(s[1], 10);
      }
      NotHexPrefixed(s);
    }
    AtoiFormatDecimal(n);
  }

  // ---------------------------------------------------------------------
  // parseCSV
  // ---------------------------------------------------------------------

  /** The trimmed pieces that are not blank, in order (built piece by piece, as the loop does). */
  function NonBlankTrimmed(parts: seq<string>): seq<string>
  {
    FlatMap(parts, Kept)
  }

  /** What one piece contributes: its trimmed form, unless that is blank. */
  function Kept(p: string): seq<string> {
    var t := TrimSpace(p);
    if t != "" then [t] else []
  }

  /** What parseCSV returns for `s`. */
  function CsvFields(s: string): seq<string> {
    NonBlankTrimmed(Split(s, ','))
  }

  /** A CSV field: non-empty, without surrounding white space, without a comma. */
  predicate IsField(t: string) {
    t != "" && Trimmed(t) && ',' !in t
  }

  /** Every element is a CSV field. */
  predicate AllFields(ps: seq<string>) {
    forall i :: 0 <= i < |ps| ==> IsField(ps[i])
  }

  /** Every piece kept is a field, and no more pieces are kept than given. */
  lemma {:induction false} NonBlankTrimmedFields(parts: seq<string>)
    requires forall i :: 0 <= i < |parts| ==> ',' !in parts[i]
    ensures |NonBlankTrimmed(parts)| <= |parts| && AllFields(NonBlankTrimmed(parts))
  {
    if parts != [] {
      var init := parts[..|parts| - 1];
      assert forall i :: 0 <= i < |init| ==> init[i] == parts[i];
      NonBlankTrimmedFields(init);
      var t := TrimSpace(parts[|parts| - 1]);
      var before := NonBlankTrimmed(init);
      TrimSpaceLacks(parts[|parts| - 1], ',');
      if t != "" {
        var out := before + [t];
        assert NonBlankTrimmed(parts) == out;
        forall k | 0 <= k < |out| ensures IsField(out[k]) {
          if k < |before| {
            assert out[k] == before[k];
          }
        }
      } else {
        AppendEmpty(before);
        assert NonBlankTrimmed(parts) == before + [];
      }
    }
  }

  /** Every non-blank input piece is kept, trimmed. */
  lemma NonBlankTrimmedKeeps(parts: seq<string>, j: nat)
    requires j < |parts| && TrimSpace(parts[j]) != ""
    ensures TrimSpace(parts[j]) in NonBlankTrimmed(parts)
  {
    assert Kept(parts[j]) == [TrimSpace(parts[j])];
    FlatMapHas(parts, Kept, j, TrimSpace(parts[j]));
  }

  lemma AllFieldsInit(ps: seq<string>)
    requires ps != [] && AllFields(ps)
    ensures IsField(ps[|ps| - 1]) && AllFields(ps[..|ps| - 1])
  {
    var init := ps[..|ps| - 1];
    forall i | 0 <= i < |init| ensures IsField(init[i]) {
      assert init[i] == ps[i];
    }
  }

  /** Fields are kept as they are. */
  lemma {:induction false} NonBlankTrimmedOfFields(ps: seq<string>)
    requires AllFields(ps)
    ensures NonBlankTrimmed(ps) == ps
  {
    if ps != [] {
      AllFieldsInit(ps);
      var init := ps[..|ps| - 1];
      var t := ps[|ps| - 1];
      TrimSpaceOfTrimmed(t);
      NonBlankTrimmedOfFields(init);
      assert NonBlankTrimmed(ps) == init + [t];
      InitLast(ps);
    }
  }

  /** parseCSV returns fields, and every piece between commas that is not blank is among them, trimmed. */
  lemma CsvFieldsAreFields(s: string)
    ensures AllFields(CsvFields(s))
    ensures var parts := Split(s, ',');
      forall j :: 0 <= j < |parts| && TrimSpace(parts[j]) != "" ==> TrimSpace(parts[j]) in CsvFields(s)
  {
    var parts := Split(s, ',');
    SplitPiecesLackSep(s, ',');
    NonBlankTrimmedFields(parts);
    forall j | 0 <= j < |parts| && TrimSpace(parts[j]) != ""
      ensures TrimSpace(parts[j]) in CsvFields(s)
    {
      NonBlankTrimmedKeeps(parts, j);
    }
  }

  lemma CsvFieldsEmpty()
    ensures CsvFields("") == []
  {
    var parts := Split("", ',');
    assert parts == [""];
    assert |TrimSpace("")| == 0;
    assert parts[..0] == [];
  }

  /** Joining fields with commas and parsing the result gives the fields back. */
  lemma CsvFieldsOfJoin(ps: seq<string>)
    requires AllFields(ps)
    ensures CsvFields(Join(ps, ',')) == ps
  {
    if ps == [] {
      CsvFieldsEmpty();
    } else {
      SplitJoin(ps, ',');
      NonBlankTrimmedOfFields(ps);
    }
  }

  /** parseCSV is idempotent through a comma join. */
  lemma CsvFieldsIdempotent(s: string)
    ensures CsvFields(Join(CsvFields(s), ',')) == CsvFields(s)
  {
    CsvFieldsAreFields(s);
    CsvFieldsOfJoin(CsvFields(s));
  }

  /** The loop of parseCSV: trim every piece and keep the non-blank ones, in order. */
  method KeepNonBlankTrimmed(parts: seq<string>) returns (out: seq<string>)
    ensures out == NonBlankTrimmed(parts)
  {
    out := [];
    var i := 0;
    while i < |parts|
      invariant 0 <= i <= |parts|
      invariant out == NonBlankTrimmed(parts[..i])
    {
      TakeNext(parts, i);
      var t := TrimSpace(parts[i]);
      if t != "" {
        out := out + [t];
      }
      i := i + 1;
    }
    TakeAll(parts);
  }

  /** parseCSV: split on commas, trim every piece, keep the non-blank ones. */
  method ParseCSV(s: string) returns (out: seq<string>)
    ensures out == CsvFields(s)
  {
    var parts := Split(s, ',');
    out := KeepNonBlankTrimmed(parts);
  }

  // ---------------------------------------------------------------------
  // parseChannels
  // ---------------------------------------------------------------------

  /** The channel numbers of the non-blank pieces, or the first piece that is not an integer. */
  function ChannelsOf(parts: seq<string>): Result<seq<int>, ConfigError>
  {
    if parts == [] then Ok([])
    else
      match ChannelsOf(parts[..|parts| - 1])
      case Err(e) => Err(e)
      case Ok(vs) =>
        var t := TrimSpace(parts[|parts| - 1]);
        if t == "" then Ok(vs)
        else match Atoi(t)
          case None => Err(InvalidChannel(t))
          case Some(v) => Ok(vs + [v])
  }

  /** Once a prefix has failed, the whole input fails with the same error. */
  lemma {:induction false} ChannelsOfErrSticks(parts: seq<string>, i: nat)
    requires i <= |parts| && ChannelsOf(parts[..i]).Err?
    ensures ChannelsOf(parts) == ChannelsOf(parts[..i])
    decreases |parts|
  {
    if i < |parts| {
      var init := parts[..|parts| - 1];
      TakeOfInit(parts, i);
      ChannelsOfErrSticks(init, i);
    } else {
      TakeAll(parts);
    }
  }

  /** Every field is a decimal integer. */
  predicate AllIntegers(fs: seq<string>) {
    forall k :: 0 <= k < |fs| ==> Atoi(fs[k]).Some?
  }

  /** `vs` holds the values of the fields, in order. */
  predicate IntegersAre(fs: seq<string>, vs: seq<int>) {
    |vs| == |fs| && forall k :: 0 <= k < |fs| ==> Atoi(fs[k]) == Some(vs[k])
  }

  lemma AllIntegersSnoc(fs: seq<string>, t: string)
    ensures AllIntegers(fs + [t]) <==> AllIntegers(fs) && Atoi(t).Some?
  {
    var gs := fs + [t];
    assert gs[|fs|] == t;
    assert forall k :: 0 <= k < |fs| ==> gs[k] == fs[k];
  }

  lemma IntegersAreSnoc(fs: seq<string>, vs: seq<int>, t: string, v: int)
    requires IntegersAre(fs, vs) && Atoi(t) == Some(v)
    ensures IntegersAre(fs + [t], vs + [v])
  {
    var gs := fs + [t];
    forall k | 0 <= k < |gs| ensures Atoi(gs[k]) == Some((vs + [v])[k]) {
      if k < |fs| {
        assert gs[k] == fs[k];
        assert (vs + [v])[k] == vs[k];
      }
    }
  }

  /**
   * Channel parsing agrees with the CSV fields: it succeeds exactly when
   * every field is an integer, and then yields those integers in order; a
   * failure names a field that is not an integer.
   */
  lemma {:induction false} ChannelsOfFields(parts: seq<string>)
    ensures var fs := NonBlankTrimmed(parts);
      && (ChannelsOf(parts).Ok? <==> AllIntegers(fs))
      && (ChannelsOf(parts).Ok? ==> IntegersAre(fs, ChannelsOf(parts).value))
      && (ChannelsOf(parts).Err? ==>
            ChannelsOf(parts).error.InvalidChannel? && ChannelsOf(parts).error.text in fs
            && Atoi(ChannelsOf(parts).error.text).None?)
  {
    if parts != [] {
      var init := parts[..|parts| - 1];
      ChannelsOfFields(init);
      var t := TrimSpace(parts[|parts| - 1]);
      var before := NonBlankTrimmed(init);
      if t != "" {
        assert NonBlankTrimmed(parts) == before + [t];
        AllIntegersSnoc(before, t);
        if ChannelsOf(init).Ok? && Atoi(t).Some? {
          IntegersAreSnoc(before, ChannelsOf(init).value, t, Atoi(t).value);
        }
      } else {
        AppendEmpty(before);
        assert NonBlankTrimmed(parts) == before + [];
      }
    }
  }

  /** One more piece, `t` trimmed, after a prefix that parsed. */
  lemma ChannelsOfStep(parts: seq<string>, i: nat, out: seq<int>, t: string)
    requires i < |parts| && ChannelsOf(parts[..i]) == Ok(out) && t == TrimSpace(parts[i])
    ensures ChannelsOf(parts[..i + 1]) ==
      if t == "" then Ok(out)
      else if Atoi(t).None? then Err(InvalidChannel(t))
      else Ok(out + [Atoi(t).value])
  {
    TakeNext(parts, i);
  }

  /** One pass of the loop of parseChannels: skip a blank piece, keep an integer, or fail. */
  method ChannelsOfNext(parts: seq<string>, i: nat, out: seq<int>) returns (next: Result<seq<int>, ConfigError>)
    requires i < |parts| && ChannelsOf(parts[..i]) == Ok(out)
    ensures next == ChannelsOf(parts[..i + 1])
  {
    var t := TrimSpace(parts[i]);
    ChannelsOfStep(parts, i, out, t);
    if t == "" {
      next := Ok(out);
    } else {
      var v := Atoi(t);
      if v.None? {
        next := Err(InvalidChannel(t));
      } else {
        next := Ok(out + [v.value]);
      }
    }
  }

  /** The loop of parseChannels: skip blank pieces, fail on the first piece that is not an integer. */
  method ChannelsOfPieces(parts: seq<string>) returns (r: Result<seq<int>, ConfigError>)
    ensures r == ChannelsOf(parts)
  {
    var out: seq<int> := [];
    var i := 0;
    while i < |parts|
      invariant 0 <= i <= |parts|
      invariant ChannelsOf(parts[..i]) == Ok(out)
    {
      var next := ChannelsOfNext(parts, i, out);
      if next.Err? {
        ChannelsOfErrSticks(parts, i + 1);
        return next;
      }
      out := next.value;
      i := i + 1;
    }
    TakeAll(parts);
    r := Ok(out);
  }

  /** parseChannels: the channel numbers of the comma-separated fields, or the first field that is not one. */
  method ParseChannels(s: string) returns (r: Result<seq<int>, ConfigError>)
    ensures r == ChannelsOf(Split(s, ','))
  {
    var parts := Split(s, ',');
    r := ChannelsOfPieces(parts);
  }

  // ---------------------------------------------------------------------
  // Output intervals ("type=ms,...")
  // ---------------------------------------------------------------------

  /** The (trimmed key, value) of one "key=value" field, if it has an '=' and an integer value. */
  function IntervalEntry(p: string): (r: Option<(string, int)>)
    ensures r.None? <==> '=' !in p || Atoi(SplitN2(p, '=')[1]).None?
    ensures r.Some? ==> r.value.0 == TrimSpace(SplitN2(p, '=')[0]) && Atoi(SplitN2(p, '=')[1]) == Some(r.value.1)
  {
    var kv := SplitN2(p, '=');
    if |kv| != 2 then None
    else match Atoi(kv[1])
      case None => None
      case Some(v) => Some((TrimSpace(kv[0]), v))
  }

  /** The interval table built from the fields of the output-intervals flag. */
  function IntervalTable(parts: seq<string>): map<string, int> {
    TableOf(EntriesOf(parts, IntervalEntry))
  }

  /** A key is in the table exactly when some field has an entry with that key. */
  lemma IntervalTableKeys(parts: seq<string>, key: string)
    ensures key in IntervalTable(parts) <==>
      exists j :: 0 <= j < |parts| && IntervalEntry(parts[j]).Some? && IntervalEntry(parts[j]).value.0 == key
  {
    EntriesOfKeys(parts, IntervalEntry, key);
  }

  /** The value stored under a key is the one of the last field with that key: later keys win. */
  lemma IntervalTableLastWins(parts: seq<string>, j: nat)
    requires j < |parts| && IntervalEntry(parts[j]).Some?
    requires forall k :: j < k < |parts| && IntervalEntry(parts[k]).Some? ==> IntervalEntry(parts[k]).value.0 != IntervalEntry(parts[j]).value.0
    ensures IntervalEntry(parts[j]).value.0 in IntervalTable(parts)
    ensures IntervalTable(parts)[IntervalEntry(parts[j]).value.0] == IntervalEntry(parts[j]).value.1
  {
    EntriesOfLastWins(parts, IntervalEntry, j);
  }

  /** Fills the interval table from the fields, one field after another. */
  method BuildIntervalTable(parts: seq<string>) returns (m: map<string, int>)
    ensures m == IntervalTable(parts)
  {
    m := map[];
    var i := 0;
    while i < |parts|
      invariant 0 <= i <= |parts|
      invariant m == IntervalTable(parts[..i])
    {
      var kv := SplitN2(parts[i], '=');
      TakeNext(parts, i);
      EntriesOfSnoc(parts[..i], IntervalEntry, parts[i]);
      assert IntervalEntry(parts[i]) ==
        if |kv| == 2 && Atoi(kv[1]).Some? then Some((TrimSpace(kv[0]), Atoi(kv[1]).value)) else None;
      if |kv| == 2 {
        var v := Atoi(kv[1]);
        if v.Some? {
          m := m[TrimSpace(kv[0]) := v.value];
        }
      }
      i := i + 1;
    }
    TakeAll(parts);
  }

  /** An output whose type is exactly a key of the table takes that key's interval. */
  function WithInterval(o: OutputConfig, table: map<string, int>): OutputConfig {
    if o.kind in table then o.(intervalMs := table[o.kind]) else o
  }

  /** Every output with its interval looked up in the table. */
  function ApplyIntervals(outs: seq<OutputConfig>, table: map<string, int>): seq<OutputConfig> {
    seq(|outs|, i requires 0 <= i < |outs| => WithInterval(outs[i], table))
  }

  /** Only the interval changes, and only for an output whose type is exactly a key. */
  lemma ApplyIntervalsMatchesExactly(outs: seq<OutputConfig>, table: map<string, int>, i: nat)
    requires i < |outs|
    ensures |ApplyIntervals(outs, table)| == |outs|
    ensures ApplyIntervals(outs, table)[i].kind == outs[i].kind
    ensures ApplyIntervals(outs, table)[i].mqtt == outs[i].mqtt
    ensures ApplyIntervals(outs, table)[i].intervalMs == if outs[i].kind in table then table[outs[i].kind] else outs[i].intervalMs
  {
  }

  /** The loop that writes the table's intervals into the outputs. */
  method ApplyIntervalsInPlace(outs: seq<OutputConfig>, table: map<string, int>) returns (r: seq<OutputConfig>)
    ensures r == ApplyIntervals(outs, table)
  {
    r := outs;
    var i := 0;
    while i < |r|
      invariant 0 <= i <= |r| == |outs|
      invariant forall k :: 0 <= k < i ==> r[k] == WithInterval(outs[k], table)
      invariant forall k :: i <= k < |r| ==> r[k] == outs[k]
    {
      if r[i].kind in table {
        r := r[i := r[i].(intervalMs := table[r[i].kind])];
      }
      i := i + 1;
    }
  }

  // ---------------------------------------------------------------------
  // MQTT flags
  // ---------------------------------------------------------------------

  /** The flag values, with the flag package's defaults ("" and -1) meaning "not given". */
  datatype Flags = Flags(
    i2cBus: string,
    i2cAddress: string,
    sampleRate: int,
    calibration: Option<real>,
    calibrationOffset: Option<real>,
    outputs: string,
    outputIntervals: string,
    mqttServer: string,
    mqttUser: string,
    mqttPass: string,
    sensorType: string,
    channels: string,
    intervalMs: int,
    mqttClientId: string,
    mqttTopic: string)

  /** No flag given. */
  const NoFlags: Flags := Flags("", "", -1, None, None, "", "", "", "", "", "", "", -1, "", "")

  predicate AnyMqttFlag(f: Flags) {
    f.mqttServer != "" || f.mqttUser != "" || f.mqttPass != "" || f.mqttClientId != "" || f.mqttTopic != ""
  }

  function Override(current: string, flag: string): string {
    if flag != "" then flag else current
  }

  /** The MQTT settings with every given MQTT flag written over them. */
  function ApplyMqttFlags(m: MqttConfig, f: Flags): MqttConfig {
    m.(server := Override(m.server, f.mqttServer),
       username := Override(m.username, f.mqttUser),
       password := Override(m.password, f.mqttPass),
       clientId := Override(m.clientId, f.mqttClientId),
       topic := Override(m.topic, f.mqttTopic))
  }

  /** The MQTT settings carry every given MQTT flag. */
  predicate CarriesMqttFlags(m: MqttConfig, f: Flags) {
    && (f.mqttServer != "" ==> m.server == f.mqttServer)
    && (f.mqttUser != "" ==> m.username == f.mqttUser)
    && (f.mqttPass != "" ==> m.password == f.mqttPass)
    && (f.mqttClientId != "" ==> m.clientId == f.mqttClientId)
    && (f.mqttTopic != "" ==> m.topic == f.mqttTopic)
  }

  /**
   * Every field that no given MQTT flag names keeps its value: an unset
   * flag leaves its field alone, and the state topic and the discovery
   * settings have no flag at all.
   */
  predicate KeepsUnflagged(before: MqttConfig, m: MqttConfig, f: Flags) {
    && (f.mqttServer == "" ==> m.server == before.server)
    && (f.mqttUser == "" ==> m.username == before.username)
    && (f.mqttPass == "" ==> m.password == before.password)
    && (f.mqttClientId == "" ==> m.clientId == before.clientId)
    && (f.mqttTopic == "" ==> m.topic == before.topic)
    && m.stateTopic == before.stateTopic
    && m.discoveryTopic == before.discoveryTopic
    && m.discoveryName == before.discoveryName
    && m.discoveryUniqueId == before.discoveryUniqueId
  }

  /** The MQTT section of an output, or an empty one when it has none. */
  function MqttOrEmpty(o: OutputConfig): MqttConfig {
    if o.mqtt.Some? then o.mqtt.value else EmptyMqtt
  }

  predicate IsMqttOutput(o: OutputConfig) {
    ToLower(o.kind) == "mqtt"
  }

  /** A missing MQTT section is created empty, then the flags are written over it. */
  function WithMqttFlags(o: OutputConfig, f: Flags): OutputConfig {
    if IsMqttOutput(o) then o.(mqtt := Some(ApplyMqttFlags(MqttOrEmpty(o), f))) else o
  }

  function ApplyMqttToAll(outs: seq<OutputConfig>, f: Flags): seq<OutputConfig> {
    seq(|outs|, i requires 0 <= i < |outs| => WithMqttFlags(outs[i], f))
  }

  predicate HasMqttOutput(outs: seq<OutputConfig>) {
    exists i :: 0 <= i < |outs| && IsMqttOutput(outs[i])
  }

  /** The output appended when MQTT flags are given and no mqtt output exists. */
  function NewMqttOutput(f: Flags, interval: int): OutputConfig {
    OutputConfig("mqtt", interval, Some(ApplyMqttFlags(EmptyMqtt, f)))
  }

  /** The outputs after the MQTT flags: applied to every mqtt output, or to one new mqtt output. */
  function MergeMqtt(outs: seq<OutputConfig>, f: Flags, interval: int): seq<OutputConfig> {
    if !AnyMqttFlag(f) then outs
    else if HasMqttOutput(outs) then ApplyMqttToAll(outs, f)
    else outs + [NewMqttOutput(f, interval)]
  }

  /** The number of outputs whose lower-cased type is "mqtt". */
  function CountMqtt(outs: seq<OutputConfig>): nat {
    if outs == [] then 0 else (if IsMqttOutput(outs[0]) then 1 else 0) + CountMqtt(outs[1..])
  }

  lemma {:induction false} CountMqttZero(outs: seq<OutputConfig>)
    ensures CountMqtt(outs) == 0 <==> !HasMqttOutput(outs)
  {
    if outs != [] {
      CountMqttZero(outs[1..]);
      if HasMqttOutput(outs[1..]) {
        var i :| 0 <= i < |outs[1..]| && IsMqttOutput(outs[1..][i]);
        assert IsMqttOutput(outs[i + 1]);
      }
      if HasMqttOutput(outs) && !IsMqttOutput(outs[0]) {
        var i :| 0 <= i < |outs| && IsMqttOutput(outs[i]);
        assert IsMqttOutput(outs[1..][i - 1]);
      }
    }
  }

  lemma {:induction false} CountMqttAppend(a: seq<OutputConfig>, b: seq<OutputConfig>)
    ensures CountMqtt(a + b) == CountMqtt(a) + CountMqtt(b)
  {
    if a == [] {
      assert a + b == b;
    } else {
      assert (a + b)[0] == a[0];
      assert (a + b)[1..] == a[1..] + b;
      CountMqttAppend(a[1..], b);
    }
  }

  /**
   * With an MQTT flag given, every mqtt output afterwards carries the flags
   * and keeps every field no flag names, and the others are unchanged; when
   * there was no mqtt output, exactly one is appended, with the given
   * interval and otherwise empty settings.
   */
  lemma MergeMqttApplies(outs: seq<OutputConfig>, f: Flags, interval: int)
    requires AnyMqttFlag(f)
    ensures var r := MergeMqtt(outs, f, interval);
      && (forall i :: 0 <= i < |r| && IsMqttOutput(r[i]) ==> r[i].mqtt.Some? && CarriesMqttFlags(r[i].mqtt.value, f))
      && (forall i :: 0 <= i < |outs| && !IsMqttOutput(outs[i]) ==> r[i] == outs[i])
      && (forall i :: 0 <= i < |outs| && IsMqttOutput(outs[i]) ==>
            r[i].mqtt.Some? && KeepsUnflagged(MqttOrEmpty(outs[i]), r[i].mqtt.value, f))
      && (forall i :: 0 <= i < |outs| ==> r[i].kind == outs[i].kind && r[i].intervalMs == outs[i].intervalMs)
      && (HasMqttOutput(outs) ==> |r| == |outs|)
      && (!HasMqttOutput(outs) ==> |r| == |outs| + 1 && CountMqtt(r) == 1 && r[|outs|].intervalMs == interval)
      && (!HasMqttOutput(outs) ==> r[|outs|].mqtt.Some? && KeepsUnflagged(EmptyMqtt, r[|outs|].mqtt.value, f))
  {
    var r := MergeMqtt(outs, f, interval);
    if HasMqttOutput(outs) {
      forall i | 0 <= i < |r|
        ensures IsMqttOutput(r[i]) ==> r[i].mqtt.Some? && CarriesMqttFlags(r[i].mqtt.value, f)
        ensures !IsMqttOutput(outs[i]) ==> r[i] == outs[i]
        ensures IsMqttOutput(outs[i]) ==> r[i].mqtt.Some? && KeepsUnflagged(MqttOrEmpty(outs[i]), r[i].mqtt.value, f)
        ensures r[i].kind == outs[i].kind && r[i].intervalMs == outs[i].intervalMs
      {
        WithMqttFlagsCarries(outs[i], f);
      }
    } else {
      var n := NewMqttOutput(f, interval);
      assert r == outs + [n];
      NewMqttOutputCarries(f, interval);
      assert forall i :: 0 <= i < |outs| ==> r[i] == outs[i];
      CountMqttZero(outs);
      CountMqttAppend(outs, [n]);
      assert CountMqtt([n]) == 1 by {
        assert [n][1..] == [];
      }
    }
  }

  /** The flags reach an mqtt output and leave every other output as it is. */
  lemma WithMqttFlagsCarries(o: OutputConfig, f: Flags)
    ensures var w := WithMqttFlags(o, f);
      && (IsMqttOutput(w) ==> w.mqtt.Some? && CarriesMqttFlags(w.mqtt.value, f))
      && (!IsMqttOutput(o) ==> w == o)
      && (IsMqttOutput(o) ==> w.mqtt.Some? && KeepsUnflagged(MqttOrEmpty(o), w.mqtt.value, f))
      && w.kind == o.kind && w.intervalMs == o.intervalMs
  {
  }

  /** The appended output is an mqtt output carrying the flags. */
  lemma NewMqttOutputCarries(f: Flags, interval: int)
    ensures var n := NewMqttOutput(f, interval);
      IsMqttOutput(n) && n.mqtt.Some? && CarriesMqttFlags(n.mqtt.value, f) && KeepsUnflagged(EmptyMqtt, n.mqtt.value, f)
  {
    assert ToLower("mqtt") == "mqtt";
  }

  /** Without an MQTT flag the outputs are unchanged. */
  lemma MergeMqttNoFlags(outs: seq<OutputConfig>, f: Flags, interval: int)
    requires !AnyMqttFlag(f)
    ensures MergeMqtt(outs, f, interval) == outs
  {
  }

  /** The MQTT settings of one output after the flags given are written over them. */
  method ApplyMqttFlagsTo(o: OutputConfig, f: Flags) returns (m: MqttConfig)
    ensures m == ApplyMqttFlags(MqttOrEmpty(o), f)
  {
    m := if o.mqtt.None? then EmptyMqtt else o.mqtt.value;
    if f.mqttServer != "" {
      m := m.(server := f.mqttServer);
    }
    if f.mqttUser != "" {
      m := m.(username := f.mqttUser);
    }
    if f.mqttPass != "" {
      m := m.(password := f.mqttPass);
    }
    if f.mqttClientId != "" {
      m := m.(clientId := f.mqttClientId);
    }
    if f.mqttTopic != "" {
      m := m.(topic := f.mqttTopic);
    }
  }

  /** Applies the MQTT flags to every mqtt output, or appends a new one when there is none. */
  method MergeMqttFlags(outs: seq<OutputConfig>, f: Flags, interval: int) returns (r: seq<OutputConfig>)
    ensures r == MergeMqtt(outs, f, interval)
  {
    r := outs;
    if AnyMqttFlag(f) {
      var applied := false;
      var i := 0;
      while i < |r|
        invariant 0 <= i <= |r| == |outs|
        invariant forall k :: 0 <= k < i ==> r[k] == WithMqttFlags(outs[k], f)
        invariant forall k :: i <= k < |r| ==> r[k] == outs[k]
        invariant applied <==> exists k :: 0 <= k < i && IsMqttOutput(outs[k])
      {
        if ToLower(r[i].kind) == "mqtt" {
          var m := ApplyMqttFlagsTo(r[i], f);
          r := r[i := r[i].(mqtt := Some(m))];
          applied := true;
        }
        i := i + 1;
      }
      if !applied {
        r := r + [NewMqttOutput(f, interval)];
      } else {
        assert r == ApplyMqttToAll(outs, f);
      }
    }
  }

  // ---------------------------------------------------------------------
  // Interval defaulting
  // ---------------------------------------------------------------------

  function WithDefaultInterval(o: OutputConfig, interval: int): OutputConfig {
    if o.intervalMs == 0 then o.(intervalMs := interval) else o
  }

  function DefaultIntervals(outs: seq<OutputConfig>, interval: int): seq<OutputConfig> {
    seq(|outs|, i requires 0 <= i < |outs| => WithDefaultInterval(outs[i], interval))
  }

  /** After defaulting, no output has a zero interval unless the default itself is zero, and a set interval is kept. */
  lemma DefaultIntervalsNonZero(outs: seq<OutputConfig>, interval: int)
    ensures |DefaultIntervals(outs, interval)| == |outs|
    ensures forall i :: 0 <= i < |outs| ==> DefaultIntervals(outs, interval)[i].intervalMs != 0 || interval == 0
    ensures forall i :: 0 <= i < |outs| && outs[i].intervalMs != 0 ==> DefaultIntervals(outs, interval)[i] == outs[i]
    ensures forall i :: 0 <= i < |outs| && outs[i].intervalMs == 0 ==> DefaultIntervals(outs, interval)[i] == outs[i].(intervalMs := interval)
  {
  }

  method DefaultIntervalsInPlace(outs: seq<OutputConfig>, interval: int) returns (r: seq<OutputConfig>)
    ensures r == DefaultIntervals(outs, interval)
  {
    r := outs;
    var i := 0;
    while i < |r|
      invariant 0 <= i <= |r| == |outs|
      invariant forall k :: 0 <= k < i ==> r[k] == WithDefaultInterval(outs[k], interval)
      invariant forall k :: i <= k < |r| ==> r[k] == outs[k]
    {
      if r[i].intervalMs == 0 {
        r := r[i := r[i].(intervalMs := interval)];
      }
      i := i + 1;
    }
  }

  // ---------------------------------------------------------------------
  // Merging the flags into a configuration
  // ---------------------------------------------------------------------

  /** One output per type name, each with the given interval and no MQTT settings. */
  function OutputsOfTypes(types: seq<string>, interval: int): seq<OutputConfig> {
    seq(|types|, i requires 0 <= i < |types| => OutputConfig(types[i], interval, None))
  }

  method OutputsFromTypes(types: seq<string>, interval: int) returns (outs: seq<OutputConfig>)
    ensures outs == OutputsOfTypes(types, interval)
  {
    outs := [];
    var i := 0;
    while i < |types|
      invariant 0 <= i <= |types|
      invariant outs == OutputsOfTypes(types[..i], interval)
    {
      outs := outs + [OutputConfig(types[i], interval, None)];
      i := i + 1;
    }
    TakeAll(types);
  }

  /**
   * The outputs after the flags: rebuilt from the outputs flag, retimed by
   * the output-intervals flag, merged with the MQTT flags, and defaulted.
   * `before` is the global interval before the interval flag, `after` the
   * one after it.
   */
  function MergeOutputs(outs: seq<OutputConfig>, f: Flags, before: int, after: int): seq<OutputConfig> {
    var o1 := if f.outputs != "" then OutputsOfTypes(CsvFields(f.outputs), before) else outs;
    var o2 := if f.outputIntervals != "" then ApplyIntervals(o1, IntervalTable(CsvFields(f.outputIntervals))) else o1;
    var o3 := MergeMqtt(o2, f, before);
    DefaultIntervals(o3, after)
  }

  /** The scalar fields after the flags; the outputs are merged separately. */
  function MergeScalars(base: Config, f: Flags, address: int): Config {
    base.(
      i2cBus := Override(base.i2cBus, f.i2cBus),
      i2cAddress := address,
      sampleRate := if f.sampleRate != -1 then f.sampleRate else base.sampleRate,
      calibrationScale := if f.calibration.Some? then f.calibration.value else base.calibrationScale,
      calibrationOffset := if f.calibrationOffset.Some? then f.calibrationOffset.value else base.calibrationOffset,
      sensorType := Override(base.sensorType, f.sensorType),
      intervalMs := if f.intervalMs != -1 then f.intervalMs else base.intervalMs)
  }

  /** The I2C address after the flag, when the flag parses. */
  function AddressOf(base: Config, f: Flags): Option<int> {
    if f.i2cAddress == "" then Some(base.i2cAddress) else ParseIntOrHex(f.i2cAddress)
  }

  /** The channels after the channels flag: the listed numbers as plain channels, or the base's channels. */
  function ChannelsFrom(base: Config, f: Flags): Result<seq<ChannelConfig>, ConfigError> {
    if f.channels == "" then Ok(base.channels)
    else match ChannelsOf(Split(f.channels, ','))
      case Err(e) => Err(e)
      case Ok(ids) => Ok(ChannelRecords(ids))
  }

  /**
   * The configuration that the flags make of `base` (the defaults, or the
   * decoded configuration file), or the first error.
   */
  function Load(base: Config, f: Flags): Result<Config, ConfigError> {
    match AddressOf(base, f)
    case None => Err(InvalidI2cAddress(f.i2cAddress))
    case Some(address) =>
      match ChannelsFrom(base, f)
      case Err(e) => Err(e)
      case Ok(channels) =>
        var c := MergeScalars(base, f, address).(channels := channels);
        if c.sampleRate <= 0 then Err(NonPositiveSampleRate)
        else Ok(c.(outputs := MergeOutputs(base.outputs, f, base.intervalMs, c.intervalMs)))
  }

  /** The configuration loads exactly when the address and channels parse and the resulting sample rate is positive. */
  lemma LoadSucceeds(base: Config, f: Flags)
    ensures Load(base, f).Ok? <==>
      && (f.i2cAddress == "" || ParseIntOrHex(f.i2cAddress).Some?)
      && (f.channels == "" || ChannelsOf(Split(f.channels, ',')).Ok?)
      && (if f.sampleRate != -1 then f.sampleRate else base.sampleRate) > 0
    ensures Load(base, f).Ok? ==> Load(base, f).value.sampleRate > 0
  {
    var a := AddressOf(base, f);
    var chs := ChannelsFrom(base, f);
    assert a.Some? <==> (f.i2cAddress == "" || ParseIntOrHex(f.i2cAddress).Some?);
    assert chs.Ok? <==> (f.channels == "" || ChannelsOf(Split(f.channels, ',')).Ok?);
    if a.None? {
      assert Load(base, f).Err?;
    } else if chs.Err? {
      assert Load(base, f).Err?;
    } else {
      var c := MergeScalars(base, f, a.value).(channels := chs.value);
      assert c.sampleRate == if f.sampleRate != -1 then f.sampleRate else base.sampleRate;
      if c.sampleRate > 0 {
        assert Load(base, f) == Ok(c.(outputs := MergeOutputs(base.outputs, f, base.intervalMs, c.intervalMs)));
      } else {
        assert Load(base, f).Err?;
      }
    }
  }

  /**
   * Every flag that is given overrides its field, and one that is not keeps
   * it; a channels flag replaces the channels by the listed numbers.
   */
  lemma LoadOverrides(base: Config, f: Flags)
    requires Load(base, f).Ok?
    ensures var c := Load(base, f).value;
      && c.i2cBus == (if f.i2cBus != "" then f.i2cBus else base.i2cBus)
      && c.i2cAddress == (if f.i2cAddress != "" then ParseIntOrHex(f.i2cAddress).value else base.i2cAddress)
      && c.sampleRate == (if f.sampleRate != -1 then f.sampleRate else base.sampleRate)
      && c.calibrationScale == (if f.calibration.Some? then f.calibration.value else base.calibrationScale)
      && c.calibrationOffset == (if f.calibrationOffset.Some? then f.calibrationOffset.value else base.calibrationOffset)
      && c.sensorType == (if f.sensorType != "" then f.sensorType else base.sensorType)
      && c.intervalMs == (if f.intervalMs != -1 then f.intervalMs else base.intervalMs)
      && c.channels == (if f.channels != "" then ChannelRecords(ChannelsOf(Split(f.channels, ',')).value) else base.channels)
  {
  }

  /** The outputs of a loaded configuration are the merged outputs of the base. */
  lemma LoadOutputs(base: Config, f: Flags)
    requires Load(base, f).Ok?
    ensures Load(base, f).value.outputs == MergeOutputs(base.outputs, f, base.intervalMs, Load(base, f).value.intervalMs)
  {
    var a := AddressOf(base, f);
    var chs := ChannelsFrom(base, f);
    assert a.Some? && chs.Ok?;
    var c := MergeScalars(base, f, a.value).(channels := chs.value);
    assert Load(base, f) == Ok(c.(outputs := MergeOutputs(base.outputs, f, base.intervalMs, c.intervalMs)));
  }

  /** After loading, every output has a non-zero interval unless the global interval is zero. */
  lemma LoadDefaultsIntervals(base: Config, f: Flags)
    requires Load(base, f).Ok?
    ensures var c := Load(base, f).value;
      forall i :: 0 <= i < |c.outputs| ==> c.outputs[i].intervalMs != 0 || c.intervalMs == 0
  {
    var c := Load(base, f).value;
    var before := base.intervalMs;
    var o1 := if f.outputs != "" then OutputsOfTypes(CsvFields(f.outputs), before) else base.outputs;
    var o2 := if f.outputIntervals != "" then ApplyIntervals(o1, IntervalTable(CsvFields(f.outputIntervals))) else o1;
    var o3 := MergeMqtt(o2, f, before);
    LoadOutputs(base, f);
    assert c.outputs == DefaultIntervals(o3, c.intervalMs);
    DefaultIntervalsNonZero(o3, c.intervalMs);
  }

  /**
   * Outputs made from the outputs flag take the interval that was in effect
   * before the interval flag: with a non-zero configured interval, the
   * interval flag does not reach them.
   */
  lemma LoadOutputsFlagInterval(base: Config, f: Flags)
    requires Load(base, f).Ok?
    requires f.outputs != "" && f.outputIntervals == "" && !AnyMqttFlag(f) && base.intervalMs != 0
    ensures Load(base, f).value.outputs == OutputsOfTypes(CsvFields(f.outputs), base.intervalMs)
  {
    var outs := OutputsOfTypes(CsvFields(f.outputs), base.intervalMs);
    var c := Load(base, f).value;
    LoadOutputs(base, f);
    assert c.outputs == DefaultIntervals(outs, c.intervalMs);
    DefaultIntervalsNonZero(outs, c.intervalMs);
  }

  /** Loading the defaults with no flag given returns the defaults. */
  lemma LoadDefaults()
    ensures Load(DefaultConfig(), NoFlags) == Ok(DefaultConfig())
  {
    var d := DefaultConfig();
    assert DefaultIntervals(d.outputs, 1000) == d.outputs;
  }

  /** The outputs part of LoadFromFlags, its steps in the source's order. */
  method MergeOutputsFromFlags(outs: seq<OutputConfig>, f: Flags, before: int, after: int) returns (r: seq<OutputConfig>)
    ensures r == MergeOutputs(outs, f, before, after)
  {
    r := outs;
    if f.outputs != "" {
      var parts := ParseCSV(f.outputs);
      r := OutputsFromTypes(parts, before);
    }
    if f.outputIntervals != "" {
      var parts := ParseCSV(f.outputIntervals);
      var table := BuildIntervalTable(parts);
      r := ApplyIntervalsInPlace(r, table);
    }
    r := MergeMqttFlags(r, f, before);
    r := DefaultIntervalsInPlace(r, after);
  }

  /**
   * The scalar overrides of LoadFromFlags, field by field in the order the
   * flags are read: bus, the already parsed address, sample rate,
   * calibration, offset, sensor type and interval.
   */
  method ApplyScalarFlags(base: Config, f: Flags, address: int) returns (cfg: Config)
    ensures cfg == MergeScalars(base, f, address)
  {
    cfg := base;
    if f.i2cBus != "" {
      cfg := cfg.(i2cBus := f.i2cBus);
    }
    cfg := cfg.(i2cAddress := address);
    if f.sampleRate != -1 {
      cfg := cfg.(sampleRate := f.sampleRate);
    }
    if f.calibration.Some? {
      cfg := cfg.(calibrationScale := f.calibration.value);
    }
    if f.calibrationOffset.Some? {
      cfg := cfg.(calibrationOffset := f.calibrationOffset.value);
    }
    if f.sensorType != "" {
      cfg := cfg.(sensorType := f.sensorType);
    }
    if f.intervalMs != -1 {
      cfg := cfg.(intervalMs := f.intervalMs);
    }
  }

  /**
   * LoadFromFlags, after the file has been read. The steps are grouped
   * rather than interleaved as in the source: parse the address, parse the
   * channels, apply the scalar overrides, then rebuild, retime, merge and
   * default the outputs, and check the sample rate. Only the failing steps'
   * order matters to the outcome, and it is the source's: the address,
   * then the channels, then the sample rate.
   */
  method LoadFromFlags(base: Config, f: Flags) returns (r: Result<Config, ConfigError>)
    ensures r == Load(base, f)
  {
    var address := base.i2cAddress;
    if f.i2cAddress != "" {
      var v := ParseIntOrHex(f.i2cAddress);
      if v.None? {
        return Err(InvalidI2cAddress(f.i2cAddress));
      }
      address := v.value;
    }
    var channels := base.channels;
    if f.channels != "" {
      var chs := ParseChannels(f.channels);
      if chs.Err? {
        return Err(chs.error);
      }
      channels := ChannelRecords(chs.value);
    }
    var cfg := ApplyScalarFlags(base, f, address);
    cfg := cfg.(channels := channels);
    var outs := MergeOutputsFromFlags(base.outputs, f, base.intervalMs, cfg.intervalMs);
    cfg := cfg.(outputs := outs);
    if cfg.sampleRate <= 0 {
      return Err(NonPositiveSampleRate);
    }
    r := Ok(cfg);
  }
}
