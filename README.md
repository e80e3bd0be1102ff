# ads1115-to-mqtt, modelled in Dafny

The program reads an ADS1115 analog-to-digital converter over I2C, or a
simulator in its place. Each output (console or MQTT) keeps one accumulator
per channel. At its own interval, an output averages what it has gathered
and publishes it. Before the first publish, an MQTT output announces its
sensors to Home Assistant with retained discovery messages.

This project models the core of the program:

- loading the configuration (`pkg/config/config.go`);
- the channel resolver (`pkg/sensor/helpers.go`);
- the simulated sensor (`pkg/sensor/fake.go`);
- the ADS1115 driver (`pkg/sensor/ads1115.go`), as its register codec and a batch read over an abstract bus;
- the MQTT output (`pkg/output/mqtt/mqtt.go`): topics, discovery names, ids and payloads, and publishing over an abstract broker;
- the main program (`main.go`): the sensor polling interval, the choice of sensor, the construction of the output entries, the per-output aggregation, and one tick of the sensor reader and of an output worker.

Modules:

| module | file | models |
|---|---|---|
| `Wrappers` | wrappers.dfy | `Option`, `Result` and `Outcome` (success or an error) |
| `Readings` | readings.dfy | the sensor reading record and the `int16` raw code |
| `Text` | text.dfy | the few Go `strings`/`strconv`/`fmt` operations the core uses |
| `Tables` | tables.dfy | a Go map filled by a loop of assignments (last write wins) |
| `Configuration` | config.dfy | `config.go` |
| `ChannelSettings` | channel_settings.dfy | `helpers.go` |
| `Ads1115` | ads1115.dfy | `ads1115.go` |
| `FakeSensors` | fake_sensor.dfy | `fake.go` |
| `Mqtt` | mqtt.dfy | `mqtt.go` |
| `Aggregation` | aggregation.dfy | the `channelAgg`/`outputEntry` engine of `main.go` |
| `App` | app.dfy | the rest of `main.go` |

Modelling choices:

- **Loops become methods.** Each loop of the source is a method with a loop. The method is proved equal to a recursive specification function, and the properties are proved about that function.
- **The output entry is a class.** It holds a sink and an interval, both fixed when the entry is made, and a map of accumulators; absorbing and draining update the map in place.
- **The outside world is a parameter.** The I2C bus is a function from the history of bus events to the outcome of the next transaction. The MQTT broker is a function from the history of sent messages to whether the next publish is accepted. Whether a connection succeeds, and whether the host and bus opened, are given as booleans. Methods return the history they extend.
- **Times are integers.** A time is nanoseconds, with Go's zero time at 0.
- **Floats are exact reals.** `float64` is modelled by `real`. Go's float-to-int conversions (truncation toward zero) and `math.Round` (halves away from zero) are written out.

Where the source is not consistent with itself, the model follows the use sites:

- **Channel settings.** `config.go` declares `Channels []int` and an `MQTTConfig` of five fields. `helpers.go`, `fake.go`, `mqtt.go` and `main.go` use channel records (number, enabled flag, calibration, sample rate) and MQTT state and discovery fields. The model's configuration uses the channel records and the full MQTT settings.
  - The default channels 0 to 3 are four enabled channels with scale 1.0, offset 0.0 and rate 0.
  - The channels flag gives a list of numbers. Each becomes a channel record of the same kind as the defaults.
  - The ADS1115 driver takes the channel numbers of all configured channels, as `cfg.Channels` is passed to it whole.
- **Single timestamp.** The driver and the simulator stamp a whole batch with one instant.
- **Global sample rate.** The driver converts at the global sample rate. Per-channel rates only affect the polling interval.
- **Scaling divisors.** The simulator scales by 32767 and the driver by 32768.
- **Fatal publish errors.** A publish error is fatal to the program (`log.Fatalf`), and the model reports it as the `Fatal` outcome of a tick.
- **Output intervals.** Outputs made from the outputs flag take the interval that was in effect *before* the interval flag was applied (`config.go:112` runs before `config.go:194`); the model does the same.

## Model

| member | source | states |
|---|---|---|
| Text.TrimSpace | pkg/config/config.go:224 | the result has no leading or trailing white space and is no longer than the input |
| Text.TrimSpaceSlice | pkg/config/config.go:224 | the result is a slice of the input; everything dropped before and after it is white space |
| Text.TrimSpaceOfTrimmed | pkg/config/config.go:224 | trimming text that is already trimmed changes nothing |
| Text.Split | pkg/config/config.go:221 | splitting always yields at least one piece |
| Text.SplitPiecesLackSep | pkg/config/config.go:221 | no piece contains the separator |
| Text.JoinSplit | pkg/config/config.go:221 | joining the pieces with the separator gives back the input |
| Text.SplitJoin | pkg/config/config.go:221 | splitting a join of separator-free pieces gives back the pieces |
| Text.SplitN2 | pkg/config/config.go:121-124 | without the separator: the input as one piece; with it: two pieces around its first occurrence |
| Text.IndexOf | pkg/output/mqtt/mqtt.go:62 | the first occurrence of the pattern, and none exactly when the pattern does not occur |
| Text.ParseDigits | pkg/config/config.go:213 | succeeds exactly on a non-empty string of digits of the base |
| Text.ParseDigitsValue | pkg/config/config.go:213 | a parsed digit string has its positional value, each digit times a power of the base; leading zeros and both letter cases allowed |
| Text.ParseInt | pkg/config/config.go:213 | a parsed value lies in the 64-bit `int` range |
| Text.ParseIntNumeral | pkg/config/config.go:213 | on every input, the parse is the positional reading of an optional sign and one or more digits, when it lies in the `int` range, and fails otherwise |
| Text.ParseIntSigned | pkg/config/config.go:216 | a `+` or `-` followed by digits reads as the signed positional value of the digits |
| Text.ParseFormatNat | pkg/config/config.go:213 | parsing the digits of a number gives the number back |
| Text.AtoiFormatDecimal | pkg/config/config.go:239 | `Atoi` of the decimal text of any `int` gives it back |
| Text.FormatDecimalInjective | pkg/output/mqtt/mqtt.go:67 | different numbers have different decimal texts |
| Text.ToLower | main.go:107 | same length; every character lowered |
| Text.ToLowerIdempotent | main.go:144 | lowering twice is lowering once |
| Tables.EntriesOfKeys | pkg/sensor/helpers.go:12-17 | a key is in the map filled by the loop exactly when some element stores an entry under it |
| Tables.EntriesOfLastWins | pkg/sensor/helpers.go:12-17 | the value under a key is the one stored by its last assignment |
| Configuration.DefaultConfig | pkg/config/config.go:40-52 | rate 128, interval 1000, one console output at 1000 ms, channels 0 to 3 enabled |
| Configuration.ParseIntOrHex | pkg/config/config.go:211-218 | a parsed address lies in the `int` range |
| Configuration.ParseIntOrHexValue | pkg/config/config.go:211-218 | with a `0x` or `0X` prefix the rest reads as a base-16 numeral, otherwise the whole text as a base-10 numeral |
| Configuration.ParseIntOrHexHexDigits | pkg/config/config.go:212-214 | `0x` or `0X` followed by hex digits of either case, leading zeros allowed, reads as their positional value |
| Configuration.ParseIntOrHexDecimalDigits | pkg/config/config.go:216-217 | decimal digits, leading zeros allowed, read as their positional value |
| Configuration.ParseIntOrHexSignedDigits | pkg/config/config.go:216-217 | a `+` or `-` and decimal digits read as the signed positional value |
| Configuration.ParseIntOrHexUpperCase | pkg/config/config.go:212-214 | "0x4A" reads as 0x4A |
| Configuration.ParseIntOrHexHexLeadingZero | pkg/config/config.go:212-214 | "0x048" reads as 0x48 |
| Configuration.ParseIntOrHexLeadingZero | pkg/config/config.go:216-217 | "072" reads as 72 |
| Configuration.ParseIntOrHexPlusSign | pkg/config/config.go:216-217 | "+72" reads as 72 |
| Configuration.ParseIntOrHexHex | pkg/config/config.go:212-214 | "0x" or "0X" followed by the hex digits of a number parses to it |
| Configuration.ParseIntOrHexDecimal | pkg/config/config.go:216-217 | the decimal text of any `int` parses to it |
| Configuration.NonBlankTrimmedKeeps | pkg/config/config.go:223-227 | every piece that is not blank after trimming is kept, trimmed |
| Configuration.CsvFieldsAreFields | pkg/config/config.go:220-229 | every field is non-empty, trimmed and free of commas, and every non-blank piece is a field |
| Configuration.CsvFieldsEmpty | pkg/config/config.go:220-229 | the empty flag gives no fields |
| Configuration.CsvFieldsOfJoin | pkg/config/config.go:220-229 | parsing a comma-join of fields gives back the fields |
| Configuration.CsvFieldsIdempotent | pkg/config/config.go:220-229 | re-parsing the joined fields gives the same fields |
| Configuration.ParseCSV | pkg/config/config.go:220-229 | the loop computes the trimmed non-blank pieces |
| Configuration.ChannelsOfErrSticks | pkg/config/config.go:239-242 | after the first piece that is not an integer, later pieces change nothing |
| Configuration.ChannelsOfFields | pkg/config/config.go:231-245 | succeeds exactly when every non-blank trimmed piece is an integer, and then yields those integers in order |
| Configuration.ChannelsOfNext | pkg/config/config.go:234-244 | one pass of the loop extends the parse by one piece: skipped if blank, kept if an integer, an error otherwise |
| Configuration.ParseChannels | pkg/config/config.go:231-245 | the loop computes the channel list or the first invalid piece's error |
| Configuration.IntervalEntry | pkg/config/config.go:121-127 | no entry exactly when there is no "=" or the value is not an integer; otherwise the trimmed key and the value |
| Configuration.IntervalTableKeys | pkg/config/config.go:117-128 | a type is in the table exactly when some piece gives an entry for it |
| Configuration.IntervalTableLastWins | pkg/config/config.go:117-128 | for a repeated type the last entry wins |
| Configuration.BuildIntervalTable | pkg/config/config.go:117-128 | the loop computes the table |
| Configuration.ApplyIntervalsMatchesExactly | pkg/config/config.go:130-134 | an output's interval is replaced exactly when its type, case-sensitively, has an entry; type and MQTT settings are kept |
| Configuration.ApplyIntervalsInPlace | pkg/config/config.go:130-134 | the in-place loop computes the retimed outputs |
| Configuration.CountMqttZero | pkg/config/config.go:139-163 | no MQTT output exactly when the count of MQTT outputs is zero |
| Configuration.CountMqttAppend | pkg/config/config.go:139-163 | the count of MQTT outputs adds up over concatenation |
| Configuration.MergeMqttApplies | pkg/config/config.go:136-183 | with an MQTT flag set, every MQTT output (any case) gets the flags and keeps every field no flag names (unset flags, state topic, discovery settings), and other outputs are unchanged; with no MQTT output, one is appended carrying the flags over empty settings |
| Configuration.MergeMqttNoFlags | pkg/config/config.go:137 | without MQTT flags the outputs are unchanged |
| Configuration.ApplyMqttFlagsTo | pkg/config/config.go:142-159 | a missing MQTT section starts empty, and each non-empty flag overrides its field |
| Configuration.MergeMqttFlags | pkg/config/config.go:136-183 | the loop computes the merged outputs |
| Configuration.DefaultIntervalsNonZero | pkg/config/config.go:197-202 | after defaulting, an interval is zero only if the default is; set intervals are kept |
| Configuration.DefaultIntervalsInPlace | pkg/config/config.go:197-202 | the in-place loop computes the defaulted outputs |
| Configuration.OutputsFromTypes | pkg/config/config.go:107-115 | one output per type, at the configuration's interval |
| Configuration.LoadSucceeds | pkg/config/config.go:91-206 | loading fails exactly on a bad address, a bad channel list or a non-positive rate, and a loaded rate is positive |
| Configuration.LoadOverrides | pkg/config/config.go:88-196 | every scalar flag that is set overrides its field and an unset one keeps the file's value; a channels flag replaces the channels by the listed numbers as enabled, uncalibrated channels, and without it the file's channels stay |
| Configuration.LoadDefaultsIntervals | pkg/config/config.go:197-202 | after loading, no output has a zero interval unless the configuration's interval is zero |
| Configuration.LoadOutputsFlagInterval | pkg/config/config.go:107-115 | outputs made from the outputs flag take the interval in effect before the interval flag |
| Configuration.LoadDefaults | pkg/config/config.go:56-209 | with no file and no flags, the defaults load unchanged |
| Configuration.MergeOutputsFromFlags | pkg/config/config.go:107-202 | the output steps (rebuild, retime, MQTT merge, defaulting) in source order |
| Configuration.ApplyScalarFlags | pkg/config/config.go:88-196 | the scalar overrides field by field, in the order the source reads the flags |
| Configuration.LoadFromFlags | pkg/config/config.go:56-209 | the whole load after reading the file, with its steps grouped rather than interleaved; the outcome equals Load, and the errors come in the source's order: the address error first, then the channel error, then the rate check; the parsed channels are stored |
| ChannelSettings.EnabledIdsOfRecords | pkg/config/config.go:187-193 | the channels made from a list of numbers enable exactly those numbers, in order |
| ChannelSettings.LoadedChannelsEnabled | pkg/config/config.go:187-193 | after a channels flag, the enabled channels are exactly the listed numbers, in the order listed |
| ChannelSettings.EnabledIdsExact | pkg/sensor/helpers.go:18-20 | the channel list is the enabled entries' channels, each enabled entry once, in configuration order |
| ChannelSettings.EnabledIdsAppend | pkg/sensor/helpers.go:18-20 | the channel list of a concatenation is the concatenation of the lists |
| ChannelSettings.SettingsKeys | pkg/sensor/helpers.go:13-17 | scales and offsets hold every configured channel, enabled or not; rates hold exactly the channels given a non-zero rate |
| ChannelSettings.CalibrationLastWins | pkg/sensor/helpers.go:13-14 | for a repeated channel the last entry's scale and offset win |
| ChannelSettings.RateLastWins | pkg/sensor/helpers.go:15-17 | a channel's rate is its last non-zero rate; a later zero does not erase it |
| ChannelSettings.EnabledCalibrated | pkg/sensor/helpers.go:12-21 | every listed channel has a scale and an offset |
| ChannelSettings.BuildChannelSettings | pkg/sensor/helpers.go:7-23 | the loop computes the channel list and the three tables |
| Ads1115.MuxCode | pkg/sensor/ads1115.go:75-87 | a code exists exactly for channels 0 to 3, and it is the channel plus 4 |
| Ads1115.DataRateCodeTable | pkg/sensor/ads1115.go:91-111 | a listed rate maps to its position among 8..860; any other rate to code 4 |
| Ads1115.ConfigForChannel | pkg/sensor/ads1115.go:74-120 | an invalid-channel error exactly outside 0 to 3; otherwise the high byte is 0x83 with the mux code at bit 4 and the low byte is the rate code at bit 5 with 0x03 |
| Ads1115.ConfigRoundTrip | pkg/sensor/ads1115.go:112-119 | channel and rate code read back from the bytes; start bit, gain 001, single-shot and comparator-disabled bits always set |
| Ads1115.ConfigFieldsIndependent | pkg/sensor/ads1115.go:112-119 | the high byte depends only on the channel, the low byte only on the rate |
| Ads1115.ConfigForChannelExamples | pkg/sensor/ads1115_test.go:7-42 | the register bytes of the driver's test cases |
| Ads1115.DecodeRaw | pkg/sensor/ads1115.go:67 | the big-endian 16-bit pattern read as two's complement |
| Ads1115.DecodeEncodeRaw | pkg/sensor/ads1115.go:67 | decoding the bytes of any `int16` gives it back |
| Ads1115.EncodeDecodeRaw | pkg/sensor/ads1115.go:67 | every byte pair is the encoding of the value it decodes to |
| Ads1115.NewAds1115Sensor | pkg/sensor/ads1115.go:28-38 | fails exactly when the bus did not open; otherwise all configured channel numbers in order, the global rate and calibration, and the 4.096 V range |
| Ads1115.ReadFromOk | pkg/sensor/ads1115.go:47-72 | a successful batch has one reading per channel in order, one instant, each raw code decoded from its own reply; three bus events per channel |
| Ads1115.InvalidChannelAborts | pkg/sensor/ads1115.go:51-54 | a channel outside 0 to 3 anywhere makes the batch fail |
| Ads1115.ReadFromSucceeds | pkg/sensor/ads1115.go:47-72 | with valid channels and a bus that never fails, the batch succeeds |
| Ads1115.FailedTransactionAborts | pkg/sensor/ads1115.go:56-66 | a failed transaction is the last bus event and the batch fails; at most three events per channel |
| Ads1115.Read | pkg/sensor/ads1115.go:47-72 | the loop computes the batch specification: readings or the first error, and the bus events |
| FakeSensors.NewFakeSensor | pkg/sensor/fake.go:18-30 | never fails; the enabled channels and the scale and offset tables of the channel resolver |
| FakeSensors.ConstructedCalibrated | pkg/sensor/fake.go:42-47 | every channel of a constructed simulator has its configured calibration, so the defaults never apply |
| FakeSensors.Read | pkg/sensor/fake.go:32-52 | never fails; one reading per channel in order, raw code in [0, 32767), value raw/32767·4.096·scale+offset, one instant |
| FakeSensors.Close | pkg/sensor/fake.go:54 | always succeeds |
| Aggregation.Later | main.go:216-218 | the timestamp moves only forward: the later of the two |
| Aggregation.AbsorbAllGet | main.go:204-220 | each channel's count, raw sum and value sum grow by that channel's readings, and its time becomes the latest of them |
| Aggregation.AbsorbAllKeys | main.go:208-212 | a channel has an accumulator after the batch exactly when it had one or the batch has one of its readings |
| Aggregation.AbsorbAllUntouched | main.go:204-220 | a channel without readings in the batch is left as it was |
| Aggregation.LatestForIsMax | main.go:216-218 | the stored time is the maximum of the previous one and the batch's timestamps for the channel |
| Aggregation.AbsorbAllKeepsInvariant | main.go:204-220 | every accumulator has counted something and its raw sum stays within the int16 bounds times its count |
| Aggregation.RoundHalfAway | main.go:259-260 | the nearest integer to n/d, halves away from zero (`math.Round`) |
| Aggregation.RoundHalfAwayInRange | main.go:260 | a mean of int16 codes rounds into the int16 range, so the conversion does not wrap |
| Aggregation.AvgRawIsMean | main.go:258-261 | the average raw code is the rounded mean of the raw codes |
| Aggregation.SingleReadingRoundTrip | main.go:204-265 | one reading absorbed and drained gives back its raw code and value, and its timestamp whenever that is later than Go's zero time |
| Aggregation.DrainStep | main.go:254-263 | visiting a channel adds its average exactly when it counted something |
| Aggregation.LeftoverOfCounted | main.go:262 | draining accumulators that all counted something leaves none |
| Aggregation.SnapshotEmptyIff | main.go:253-264 | the snapshot is empty exactly when there were no accumulators |
| Aggregation.AnyKey | main.go:254 | picks some channel that is still to be visited |
| Aggregation.OutputEntry.constructor | main.go:138-140 | an entry with the given output and interval and no accumulators |
| Aggregation.OutputEntry.Absorb | main.go:204-220 | the accumulators become the batch absorbed into the old ones, keeping the accumulator invariant |
| Aggregation.OutputEntry.Drain | main.go:250-265 | returns one average per live channel, each once, in some order; removes the drained channels |
| Mqtt.SprintfDAt | pkg/output/mqtt/mqtt.go:20 | the channel number replaces the first `%d` |
| Mqtt.SprintfDInjective | pkg/output/mqtt/mqtt.go:67 | a template with `%d` gives different channels different texts |
| Mqtt.FormatStateTopicCases | pkg/output/mqtt/mqtt.go:135-143 | an empty base gives "ads1115/channel/N"; a base with `%d` gets the channel; any other base is used as is |
| Mqtt.FormatStateTopicNonEmpty | pkg/output/mqtt/mqtt.go:135-143 | the state topic is never empty |
| Mqtt.StateTopicsDistinct | pkg/output/mqtt/mqtt.go:135-143 | with an empty base or one with `%d`, different channels get different topics |
| Mqtt.PublishTopicAgrees | pkg/output/mqtt/mqtt.go:92-99 | the topic a reading is published to is the discovery state topic of its channel |
| Mqtt.DiscoveryName | pkg/output/mqtt/mqtt.go:146-155 | the name is never empty; the device's name is the configured name, or "ADS1115 " and the client id when none is configured |
| Mqtt.ChannelNames | pkg/output/mqtt/mqtt.go:151-153 | a channel's name is the base name plus " chN"; different channels get different names |
| Mqtt.DiscoveryUniqueId | pkg/output/mqtt/mqtt.go:158-167 | the id is empty exactly when both the configured id and the client id are; the device's id is the configured id, or the client id when none is configured |
| Mqtt.ChannelUniqueIdsDistinct | pkg/output/mqtt/mqtt.go:163-165 | a channel's id is the base id plus "_N"; different channels get different ids |
| Mqtt.FixedKeysCount | pkg/output/mqtt/mqtt.go:171-179 | the seven fixed keys are distinct and do not include the unique-id key |
| Mqtt.DiscoveryPayloadKeys | pkg/output/mqtt/mqtt.go:170-184 | the payload has the seven fixed keys, plus the unique id exactly when it is non-empty |
| Mqtt.DiscoveryPayloadValues | pkg/output/mqtt/mqtt.go:171-182 | name, state topic (twice), unit V, class voltage, measurement, the voltage template, and the id |
| Mqtt.PublishRunFailSticks | pkg/output/mqtt/mqtt.go:109-111 | after the first rejected publish, later readings change nothing |
| Mqtt.PublishRunLength | pkg/output/mqtt/mqtt.go:89-114 | the earlier messages are kept; on success one message per reading; on failure at least one and at most that many |
| Mqtt.PublishRunMessages | pkg/output/mqtt/mqtt.go:92-107 | the k-th message goes to the reading's topic, carries its voltage and raw code, and is not retained |
| Mqtt.PublishRunAccepted | pkg/output/mqtt/mqtt.go:107-111 | success exactly when the broker accepted every message; on failure, only the last message was rejected |
| Mqtt.PublishNothing | pkg/output/mqtt/mqtt.go:89-114 | publishing no readings sends nothing and succeeds |
| Mqtt.Publish | pkg/output/mqtt/mqtt.go:89-114 | the loop computes the publish specification |
| Mqtt.Close | pkg/output/mqtt/mqtt.go:116-121 | always succeeds; the client disconnect it makes is not modelled |
| Mqtt.ChannelDiscoveriesFollowEnabled | pkg/output/mqtt/mqtt.go:63-75 | one discovery message per enabled channel, in order, skipping disabled ones |
| Mqtt.DiscoveryPlan | pkg/output/mqtt/mqtt.go:60-84 | no messages without a discovery topic; one per enabled channel for a topic with `%d`; else one; all retained |
| Mqtt.ChannelDiscoveryTopicsDistinct | pkg/output/mqtt/mqtt.go:67 | different channels are announced on different topics |
| Mqtt.Connected | pkg/output/mqtt/mqtt.go:51-57 | the output exists exactly when the connection succeeded, with the configured state and discovery topics |
| Mqtt.NewMqtt | pkg/output/mqtt/mqtt.go:42-87 | after connecting, sends the discovery messages (failures only logged); sends nothing when the connection fails |
| App.EffectiveRate | main.go:59-65 | the rate used for a channel is always positive |
| App.EffectiveRateChain | main.go:59-65 | a positive channel rate is used; a negative one falls back to 128; a zero one takes the global rate, or 128 when that is not positive |
| App.SampleCostBounds | main.go:66 | one conversion costs more than 2 ms and at most 1002 ms |
| App.Truncate | main.go:74-76 | Go's float-to-int conversion drops the fraction toward zero |
| App.ComputeSensorInterval | main.go:50-77 | the loop computes the interval specification |
| App.TotalCostBounds | main.go:54-67 | the summed cost lies between 2 and 1002 ms per enabled channel |
| App.SensorIntervalBounds | main.go:50-77 | the interval is between 2 and 1002 ms per enabled channel (one channel when none is enabled), so always positive |
| App.SensorIntervalRounds | main.go:76 | with enabled channels the interval is the total cost rounded to the nearest millisecond |
| App.DisabledChannelIgnored | main.go:55-57 | inserting a disabled channel anywhere does not change the interval |
| App.SensorIntervalExamples | main_test.go:9-33 | the intervals of the program's own test cases: 10, 10, 20 and 16 ms |
| App.SensorKindIgnoresCase | main.go:144 | the sensor choice ignores letter case |
| App.SimulatorNames | main.go:145-146 | "SIM" and "Fake" select the simulator |
| App.DeviceNames | main.go:147-148 | "real", "" and "sims" select the device |
| App.InitSensor | main.go:143-150 | a simulator name gives the simulator built from the channels; any other gives the device, which fails exactly when the bus did not open |
| App.LoadedDeviceReadable | main.go:22-36 | a device built from a loaded configuration has a positive rate |
| App.OutputPlanErrSticks | main.go:122-125 | after the first failed connection, later outputs change nothing |
| App.OutputPlanEntries | main.go:103-130 | a successful plan has one entry per console or MQTT output, in order, a console sink exactly for console outputs, at the defaulted interval |
| App.OutputPlanFails | main.go:115-125 | the plan fails exactly when some MQTT output cannot connect |
| App.NoKnownOutputsFails | main.go:127-133 | with no console or MQTT output, initialisation fails with "no outputs configured" |
| App.MakeEntry | main.go:111-129 | console gives a console entry; MQTT connects with its own or the default settings, announces, and gives an MQTT entry or the connection error; other types give nothing |
| App.DefaultIntervalAt | main.go:108-110 | an output with a zero interval takes the sensor interval |
| App.InitStep | main.go:106-129 | one output: its interval is defaulted and its entry made; the loop's progress moves past it, or the plan fails with its connection error; a made entry is fresh and has no accumulators |
| App.MakeEntries | main.go:104-130 | the loop computes the plan: the first connection error, or entries matching the plan with every output defaulted |
| App.InitOutputs | main.go:103-135 | matches the plan's result and messages; on success, outputs defaulted in place and fresh, distinct, empty entries |
| App.SampleTick | main.go:187-195 | a failed read changes nothing; a batch is absorbed into every entry |
| App.PublishTick | main.go:232-239 | drains the entry; an empty snapshot publishes nothing; the console always succeeds; an MQTT publish error is fatal |

## Left out

- Concurrency: the goroutines, tickers, signal handling and mutexes of `main.go` (`runLoop`, `startSensorReader`, `startOutputWorkers`) and of `fake.go`. One tick of each loop is modelled on its own.
- Startup: the order of steps in `main` and `loadConfig` is not modelled, nor the startup log and configuration dump, nor `Version`, `Commit` and `BuildDate`.
- Files and flags: reading the JSON file and the `flag` package. The model starts from the decoded configuration and the flag values, with the flag package's sentinel values.
- Floating point: `float64` is modelled as exact reals. Rounding, NaN and infinity are not modelled. NaN only appears as the "calibration flag not set" sentinel, modelled as an option.
- I2C: host initialisation and opening the bus are a boolean parameter. `ADS1115Sensor.Close` and the device address are not modelled.
- Driver conversion delay: the wait is recorded as a bus event; no time passes.
- MQTT client: the paho client is a broker function and a connection boolean. Client options (username, password, client id), QoS and `PublishRaw`, which the core never calls, are not modelled, and neither is the `Disconnect` that `Close` makes.
- JSON: payloads are structured values. A discovery message carries the name, state topic and unique id, and `Mqtt.BaseDiscoveryPayload` gives its fields. The text `json.Marshal` would produce, and its error, are not modelled.
- Discovery failures: a failed discovery publish is only logged by the source. The model sends the message and ignores the broker's answer.
- Console output: printing is not modelled; its `Publish` always succeeds.
- Randomness: `rand.Intn` in the simulator is an arbitrary choice in its range.
- Overflow: `channelAgg.RawSum` is an `int64` and is unbounded in the model. Overflowing it would take about 2^48 readings between two publishes.
- Accumulator pointers: accumulators are values in a map, not pointers. A nil accumulator cannot occur.
- `fmt.Sprintf`: modelled for templates with a single `%d` verb only. A template with other verbs or several `%d` is not modelled.
- `strings.ToLower`: modelled for ASCII letters only.
- Logging: `log.Printf` warnings are not modelled, including unknown output types and read errors.
- Ads1115.Read: requires a positive sample rate. With rate 0 the source's float division gives infinity and the int conversion is not defined. A loaded configuration always has a positive rate (`App.LoadedDeviceReadable`).
- Ads1115.ReadFromOk: states each reading's channel, raw code and time, but not its calibrated value. The value is fixed by the specification function `ReadFrom`.
- App.SampleTick: takes the outcome of the sensor read instead of calling the sensor itself.
- App.PublishTick: `log.Fatalf` is modelled as the `Fatal` outcome; the program's exit is not modelled.
