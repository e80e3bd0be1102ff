/**
 * The MQTT output (pkg/output/mqtt/mqtt.go): state and discovery topic
 * names, Home Assistant discovery names, unique ids and payloads, and the
 * messages the output hands to the broker. The broker is a capability that
 * accepts or rejects each publish; the client library is not modelled.
 */
module Mqtt {
  import opened Wrappers
  import opened Text
  import opened Readings
  import opened Configuration
  import opened ChannelSettings

  const DefaultServer: string := "tcp://localhost:1883"
  const DefaultClientId: string := "ads1115-client"
  const DefaultStateTopic: string := "ads1115"
  /** The state topic used for a reading when no state topic is configured. */
  const PerChannelTopicFmt: string := "ads1115/channel/%d"

  // Discovery payload keys and fixed values.
  const KeyName: string := "name"
  const KeyStateTopic: string := "state_topic"
  const KeyUnitOfMeasurement: string := "unit_of_measurement"
  const KeyDeviceClass: string := "device_class"
  const KeyStateClass: string := "state_class"
  const KeyValueTemplate: string := "value_template"
  const KeyJsonAttributesTopic: string := "json_attributes_topic"
  const KeyUniqueId: string := "unique_id"
  const UnitVolts: string := "V"
  const DeviceClassVoltage: string := "voltage"
  const StateClassMeasurement: string := "measurement"
  const ValueTemplateVoltage: string := "{{ value_json.voltage }}"

  // ---------------------------------------------------------------------
  // Formatting with one "%d"
  // ---------------------------------------------------------------------

  /** When the first "%d" of a template is at `i`, the channel's digits replace it there. */
  lemma SprintfDAt(template: string, i: nat, n: int)
    requires OccursAt(template, IntVerb, i)
    requires forall j :: 0 <= j < i ==> template[j] != '%'
    ensures Contains(template, IntVerb)
    ensures SprintfD(template, n) == template[..i] + FormatDecimal(n) + template[i + 2..]
  {
    var r := IndexOf(template, IntVerb);
    assert r.Some?;
    var k := r.value;
    assert k <= i;
    assert template[k] == '%' by {
      assert template[k..k + 2] == IntVerb;
      assert template[k] == template[k..k + 2][0];
    }
    assert k == i;
  }

  /** The digits of two numbers between the same prefix and suffix are the same only for the same number. */
  lemma InfixInjective(p: string, q: string, a: int, b: int)
    requires p + FormatDecimal(a) + q == p + FormatDecimal(b) + q
    ensures a == b
  {
    var x := p + FormatDecimal(a) + q;
    var y := p + FormatDecimal(b) + q;
    assert |FormatDecimal(a)| == |FormatDecimal(b)| by {
      assert |x| == |y|;
    }
    assert FormatDecimal(a) == x[|p|..|p| + |FormatDecimal(a)|];
    assert FormatDecimal(b) == y[|p|..|p| + |FormatDecimal(b)|];
    FormatDecimalInjective(a, b);
  }

  /** Substituting distinct numbers into a template with a "%d" gives distinct strings. */
  lemma SprintfDInjective(template: string, a: int, b: int)
    requires Contains(template, IntVerb)
    ensures SprintfD(template, a) == SprintfD(template, b) ==> a == b
  {
    var i := IndexOf(template, IntVerb).value;
    if SprintfD(template, a) == SprintfD(template, b) {
      InfixInjective(template[..i], template[i + 2..], a, b);
    }
  }

  // ---------------------------------------------------------------------
  // State topics
  // ---------------------------------------------------------------------

  /** formatStateTopic: the configured topic, with the channel substituted when it has a "%d", or the per-channel default. */
  function FormatStateTopic(base: string, ch: int): string {
    if base != "" then
      if Contains(base, IntVerb) then SprintfD(base, ch) else base
    else SprintfD(PerChannelTopicFmt, ch)
  }

  /** Without a configured topic a channel publishes to "ads1115/channel/" and its number. */
  lemma FormatStateTopicDefault(ch: int)
    ensures FormatStateTopic("", ch) == "ads1115/channel/" + FormatDecimal(ch)
  {
    SprintfDAt(PerChannelTopicFmt, 16, ch);
    assert PerChannelTopicFmt[..16] == "ads1115/channel/";
    assert PerChannelTopicFmt[18..] == "";
  }

  /**
   * The three cases of a state topic: the default per-channel topic, a
   * fixed topic returned unchanged, or the first "%d" replaced by the
   * channel's digits.
   */
  lemma FormatStateTopicCases(base: string, ch: int)
    ensures base == "" ==> FormatStateTopic(base, ch) == "ads1115/channel/" + FormatDecimal(ch)
    ensures base != "" && !Contains(base, IntVerb) ==> FormatStateTopic(base, ch) == base
    ensures Contains(base, IntVerb) ==>
      var i := IndexOf(base, IntVerb).value;
      && (forall j :: 0 <= j < i ==> !OccursAt(base, IntVerb, j))
      && FormatStateTopic(base, ch) == base[..i] + FormatDecimal(ch) + base[i + 2..]
  {
    if base == "" {
      FormatStateTopicDefault(ch);
    }
  }

  /** A state topic is never empty. */
  lemma FormatStateTopicNonEmpty(base: string, ch: int)
    ensures FormatStateTopic(base, ch) != ""
  {
    FormatStateTopicCases(base, ch);
  }

  /** A default or "%d" topic tells the channels apart: distinct channels publish to distinct topics. */
  lemma StateTopicsDistinct(base: string, a: int, b: int)
    requires base == "" || Contains(base, IntVerb)
    ensures FormatStateTopic(base, a) == FormatStateTopic(base, b) ==> a == b
  {
    if base == "" {
      FormatStateTopicDefault(a);
      FormatStateTopicDefault(b);
      if FormatStateTopic(base, a) == FormatStateTopic(base, b) {
        InfixInjective("ads1115/channel/", "", a, b);
      }
    } else {
      SprintfDInjective(base, a, b);
    }
  }

  /** The topic Publish computes inline for a reading of channel `ch`. */
  function PublishTopic(stateTopic: string, ch: int): string {
    var topic := if Contains(stateTopic, IntVerb) then SprintfD(stateTopic, ch) else stateTopic;
    if topic == "" then SprintfD(PerChannelTopicFmt, ch) else topic
  }

  /** Publish sends each reading to the topic formatStateTopic gives its channel. */
  lemma PublishTopicAgrees(stateTopic: string, ch: int)
    ensures PublishTopic(stateTopic, ch) == FormatStateTopic(stateTopic, ch)
  {
    if Contains(stateTopic, IntVerb) {
      var i := IndexOf(stateTopic, IntVerb).value;
      assert |SprintfD(stateTopic, ch)| >= |FormatDecimal(ch)| > 0;
    }
  }

  // ---------------------------------------------------------------------
  // Discovery names, unique ids and payloads
  // ---------------------------------------------------------------------

  /** discoveryName: the configured name or "ADS1115 <client id>", with " ch<N>" for a channel. */
  function DiscoveryName(cfg: MqttConfig, ch: Option<int>): (name: string)
    ensures name != ""
    ensures ch.None? && cfg.discoveryName != "" ==> name == cfg.discoveryName
    ensures ch.None? && cfg.discoveryName == "" ==> name == "ADS1115 " + cfg.clientId
  {
    var base := if cfg.discoveryName == "" then "ADS1115 " + cfg.clientId else cfg.discoveryName;
    if ch.Some? then base + " ch" + FormatDecimal(ch.value) else base
  }

  /**
   * The name of a channel extends the device's name, and distinct
   * channels have distinct names.
   */
  lemma ChannelNames(cfg: MqttConfig, a: int, b: int)
    ensures DiscoveryName(cfg, Some(a)) == DiscoveryName(cfg, None) + " ch" + FormatDecimal(a)
    ensures DiscoveryName(cfg, Some(a)) == DiscoveryName(cfg, Some(b)) ==> a == b
  {
    var p := DiscoveryName(cfg, None) + " ch";
    if DiscoveryName(cfg, Some(a)) == DiscoveryName(cfg, Some(b)) {
      assert p + FormatDecimal(a) + "" == p + FormatDecimal(b) + "";
      InfixInjective(p, "", a, b);
    }
  }

  /** discoveryUniqueID: the configured id or the client id, with "_<N>" for a channel when it is not empty. */
  function DiscoveryUniqueId(cfg: MqttConfig, ch: Option<int>): (uid: string)
    ensures uid == "" <==> cfg.discoveryUniqueId == "" && cfg.clientId == ""
    ensures ch.None? && cfg.discoveryUniqueId != "" ==> uid == cfg.discoveryUniqueId
    ensures ch.None? && cfg.discoveryUniqueId == "" ==> uid == cfg.clientId
  {
    var base := if cfg.discoveryUniqueId == "" then cfg.clientId else cfg.discoveryUniqueId;
    if base != "" && ch.Some? then base + "_" + FormatDecimal(ch.value) else base
  }

  /** Distinct channels of a device with a unique id have distinct unique ids. */
  lemma ChannelUniqueIdsDistinct(cfg: MqttConfig, a: int, b: int)
    requires DiscoveryUniqueId(cfg, None) != ""
    ensures DiscoveryUniqueId(cfg, Some(a)) == DiscoveryUniqueId(cfg, None) + "_" + FormatDecimal(a)
    ensures DiscoveryUniqueId(cfg, Some(a)) == DiscoveryUniqueId(cfg, Some(b)) ==> a == b
  {
    var p := DiscoveryUniqueId(cfg, None) + "_";
    if DiscoveryUniqueId(cfg, Some(a)) == DiscoveryUniqueId(cfg, Some(b)) {
      assert p + FormatDecimal(a) + "" == p + FormatDecimal(b) + "";
      InfixInjective(p, "", a, b);
    }
  }

  /** The seven keys every discovery payload carries. */
  function FixedKeys(): set<string> {
    {KeyName, KeyStateTopic, KeyUnitOfMeasurement, KeyDeviceClass, KeyStateClass, KeyValueTemplate, KeyJsonAttributesTopic}
  }

  /** baseDiscoveryPayload: the fields of a discovery message. */
  function BaseDiscoveryPayload(name: string, stateTopic: string, uniqueId: string): map<string, string> {
    var p := map[
      KeyName := name,
      KeyStateTopic := stateTopic,
      KeyUnitOfMeasurement := UnitVolts,
      KeyDeviceClass := DeviceClassVoltage,
      KeyStateClass := StateClassMeasurement,
      KeyValueTemplate := ValueTemplateVoltage,
      KeyJsonAttributesTopic := stateTopic];
    if uniqueId != "" then p[KeyUniqueId := uniqueId] else p
  }

  /** The unique-id key is none of the fixed keys: it differs from each in length. */
  lemma UniqueIdKeyNotFixed()
    ensures KeyUniqueId !in FixedKeys()
  {
    assert |KeyUniqueId| == 9;
    forall k | k in FixedKeys() ensures |k| != 9 {
    }
  }

  /** The payload keys are distinct: seven fixed ones, and the unique id is not among them. */
  lemma FixedKeysCount()
    ensures |FixedKeys()| == 7 && KeyUniqueId !in FixedKeys()
  {
    UniqueIdKeyNotFixed();
    assert KeyStateTopic[6] != KeyStateClass[6];
    var s1 := {KeyName};
    var s2 := s1 + {KeyStateTopic};
    var s3 := s2 + {KeyUnitOfMeasurement};
    var s4 := s3 + {KeyDeviceClass};
    var s5 := s4 + {KeyStateClass};
    var s6 := s5 + {KeyValueTemplate};
    var s7 := s6 + {KeyJsonAttributesTopic};
    assert s7 == FixedKeys();
  }

  /**
   * A discovery payload has the seven fixed keys, and the unique id only
   * when there is one: seven or eight fields.
   */
  lemma DiscoveryPayloadKeys(name: string, stateTopic: string, uniqueId: string)
    ensures var p := BaseDiscoveryPayload(name, stateTopic, uniqueId);
      && p.Keys == FixedKeys() + (if uniqueId != "" then {KeyUniqueId} else {})
      && |p| == (if uniqueId != "" then 8 else 7)
  {
    FixedKeysCount();
    var p := BaseDiscoveryPayload(name, stateTopic, uniqueId);
    assert p.Keys == FixedKeys() + (if uniqueId != "" then {KeyUniqueId} else {});
  }

  /**
   * Both topic fields of a discovery payload are the state topic, the
   * unit, classes and template are constant, and the unique id field is
   * present exactly when the id is not empty.
   */
  lemma DiscoveryPayloadValues(name: string, stateTopic: string, uniqueId: string)
    ensures var p := BaseDiscoveryPayload(name, stateTopic, uniqueId);
      && KeyName in p && p[KeyName] == name
      && KeyStateTopic in p && p[KeyStateTopic] == stateTopic
      && KeyJsonAttributesTopic in p && p[KeyJsonAttributesTopic] == stateTopic
      && KeyUnitOfMeasurement in p && p[KeyUnitOfMeasurement] == "V"
      && KeyDeviceClass in p && p[KeyDeviceClass] == "voltage"
      && KeyStateClass in p && p[KeyStateClass] == "measurement"
      && KeyValueTemplate in p && p[KeyValueTemplate] == "{{ value_json.voltage }}"
      && (KeyUniqueId in p <==> uniqueId != "")
      && (uniqueId != "" ==> p[KeyUniqueId] == uniqueId)
  {
    FixedKeysCount();
  }

  // ---------------------------------------------------------------------
  // Messages and the broker
  // ---------------------------------------------------------------------

  /** What a message carries: a reading's averaged voltage and raw code, or discovery fields. */
  datatype Payload =
    | StatePayload(voltage: real, raw: int)
    | DiscoveryPayload(name: string, stateTopic: string, uniqueId: string)
  {
    /** The JSON fields of a discovery payload. */
    function Fields(): map<string, string>
      requires DiscoveryPayload?
    {
      BaseDiscoveryPayload(name, stateTopic, uniqueId)
    }
  }

  datatype Message = Message(topic: string, payload: Payload, retained: bool)

  /** The broker's answer to a publish, given the messages published before it: accepted or not. */
  type Broker = (seq<Message>, Message) -> bool

  datatype MqttError = ConnectFailed | PublishFailed

  /** MQTTOutput: the topics the output keeps after connecting. */
  datatype MqttOutput = MqttOutput(stateTopic: string, discoveryTopic: string)

  /** The message Publish sends for one reading: not retained. */
  function StateMessage(stateTopic: string, r: Reading): Message {
    Message(PublishTopic(stateTopic, r.channel), StatePayload(r.value, r.raw), false)
  }

  /** The outcome of a series of publishes and the messages attempted so far. */
  datatype PublishOutcome = PublishOutcome(result: Outcome<MqttError>, sent: seq<Message>)

  /** Publish, after messages `hist`: one message per reading in order, stopping at the first one the broker rejects. */
  function PublishRun(m: MqttOutput, rs: seq<Reading>, broker: Broker, hist: seq<Message>): PublishOutcome {
    if rs == [] then PublishOutcome(Pass, hist)
    else
      var before := PublishRun(m, rs[..|rs| - 1], broker, hist);
      if before.result.Fail? then before
      else
        var msg := StateMessage(m.stateTopic, rs[|rs| - 1]);
        PublishOutcome(if broker(before.sent, msg) then Pass else Fail(PublishFailed), before.sent + [msg])
  }

  /** Once a publish has failed, the later readings are not sent. */
  lemma {:induction false} PublishRunFailSticks(m: MqttOutput, rs: seq<Reading>, broker: Broker, hist: seq<Message>, i: nat)
    requires i <= |rs| && PublishRun(m, rs[..i], broker, hist).result.Fail?
    ensures PublishRun(m, rs, broker, hist) == PublishRun(m, rs[..i], broker, hist)
  {
    if i < |rs| {
      var init := rs[..|rs| - 1];
      assert init[..i] == rs[..i];
      PublishRunFailSticks(m, init, broker, hist, i);
    } else {
      assert rs[..i] == rs;
    }
  }

  /** Every message of `sent` from position `from` up to, not including, `to` was accepted by the broker. */
  predicate AcceptedBetween(sent: seq<Message>, broker: Broker, from: int, to: int)
    requires 0 <= from && to <= |sent|
  {
    forall j :: from <= j < to ==> broker(sent[..j], sent[j])
  }

  /** Publish extends `hist`: by all the readings when it succeeds, and by at least one when it fails. */
  lemma {:induction false} PublishRunLength(m: MqttOutput, rs: seq<Reading>, broker: Broker, hist: seq<Message>)
    ensures var o := PublishRun(m, rs, broker, hist);
      && |hist| <= |o.sent| <= |hist| + |rs|
      && o.sent[..|hist|] == hist
      && (o.result.Pass? ==> |o.sent| == |hist| + |rs|)
      && (o.result.Fail? ==> |o.sent| > |hist|)
  {
    if rs != [] {
      var init := rs[..|rs| - 1];
      PublishRunLength(m, init, broker, hist);
      var before := PublishRun(m, init, broker, hist);
      if before.result.Pass? {
        var sent := before.sent + [StateMessage(m.stateTopic, rs[|rs| - 1])];
        assert sent[..|hist|] == before.sent[..|hist|];
      }
    }
  }

  /** The messages Publish sends after `hist` are those of the readings, in order. */
  lemma {:induction false} PublishRunMessages(m: MqttOutput, rs: seq<Reading>, broker: Broker, hist: seq<Message>)
    ensures var o := PublishRun(m, rs, broker, hist);
      forall j :: |hist| <= j < |o.sent| ==> j - |hist| < |rs| && o.sent[j] == StateMessage(m.stateTopic, rs[j - |hist|])
  {
    if rs != [] {
      var init := rs[..|rs| - 1];
      var x := rs[|rs| - 1];
      PublishRunMessages(m, init, broker, hist);
      PublishRunLength(m, init, broker, hist);
      var before := PublishRun(m, init, broker, hist);
      var o := PublishRun(m, rs, broker, hist);
      if before.result.Pass? {
        assert o.sent == before.sent + [StateMessage(m.stateTopic, x)];
        assert rs == init + [x];
        MessagesSnoc(m, init, x, |hist|, before.sent);
      } else {
        assert o == before;
        forall j | |hist| <= j < |o.sent| ensures o.sent[j] == StateMessage(m.stateTopic, rs[j - |hist|]) {
          assert init[j - |hist|] == rs[j - |hist|];
        }
      }
    }
  }

  /** The message of one more reading extends the messages of the readings before it. */
  lemma MessagesSnoc(m: MqttOutput, init: seq<Reading>, x: Reading, h: nat, before: seq<Message>)
    requires |before| == h + |init|
    requires forall j :: h <= j < |before| ==> before[j] == StateMessage(m.stateTopic, init[j - h])
    ensures var s := before + [StateMessage(m.stateTopic, x)];
      forall j :: h <= j < |s| ==> j - h < |init + [x]| && s[j] == StateMessage(m.stateTopic, (init + [x])[j - h])
  {
    var s := before + [StateMessage(m.stateTopic, x)];
    var rs := init + [x];
    forall j | h <= j < |s| ensures s[j] == StateMessage(m.stateTopic, rs[j - h]) {
      if j < |before| {
        assert s[j] == before[j] && rs[j - h] == init[j - h];
      }
    }
  }

  /**
   * Every message Publish sent before its last one was accepted; it
   * succeeds only when the last one was accepted too, and when it fails
   * the last one sent is the one the broker rejected.
   */
  lemma {:induction false} PublishRunAccepted(m: MqttOutput, rs: seq<Reading>, broker: Broker, hist: seq<Message>)
    ensures var o := PublishRun(m, rs, broker, hist);
      && |hist| <= |o.sent|
      && AcceptedBetween(o.sent, broker, |hist|, |o.sent| - 1)
      && (o.result.Pass? ==> AcceptedBetween(o.sent, broker, |hist|, |o.sent|))
      && (o.result.Fail? ==> |o.sent| > |hist| && !broker(o.sent[..|o.sent| - 1], o.sent[|o.sent| - 1]))
  {
    if rs != [] {
      var init := rs[..|rs| - 1];
      PublishRunAccepted(m, init, broker, hist);
      var before := PublishRun(m, init, broker, hist);
      var o := PublishRun(m, rs, broker, hist);
      if before.result.Pass? {
        var msg := StateMessage(m.stateTopic, rs[|rs| - 1]);
        assert o.sent == before.sent + [msg];
        assert o.result.Pass? <==> broker(before.sent, msg);
        AcceptedSnoc(before.sent, msg, broker, |hist|);
      } else {
        assert o == before;
      }
    }
  }

  /** Sending one more message keeps what was accepted, and extends it when the broker accepts the message. */
  lemma AcceptedSnoc(sent: seq<Message>, msg: Message, broker: Broker, from: int)
    requires 0 <= from <= |sent| && AcceptedBetween(sent, broker, from, |sent|)
    ensures var s := sent + [msg];
      && s[..|sent|] == sent && s[|sent|] == msg
      && AcceptedBetween(s, broker, from, |sent|)
      && (broker(sent, msg) ==> AcceptedBetween(s, broker, from, |sent| + 1))
  {
    var s := sent + [msg];
    assert s[..|sent|] == sent;
    forall j | from <= j < |sent| ensures broker(s[..j], s[j]) {
      assert s[..j] == sent[..j] && s[j] == sent[j];
    }
  }

  /** A publish of no readings sends nothing and succeeds. */
  lemma PublishNothing(m: MqttOutput, broker: Broker, hist: seq<Message>)
    ensures PublishRun(m, [], broker, hist) == PublishOutcome(Pass, hist)
  {
  }

  /** One more reading after a prefix that was all accepted: its message is sent, and the broker decides. */
  lemma PublishRunNext(m: MqttOutput, rs: seq<Reading>, i: nat, broker: Broker, hist: seq<Message>, sent: seq<Message>)
    requires i < |rs| && PublishRun(m, rs[..i], broker, hist) == PublishOutcome(Pass, sent)
    ensures var msg := StateMessage(m.stateTopic, rs[i]);
      PublishRun(m, rs[..i + 1], broker, hist)
        == PublishOutcome(if broker(sent, msg) then Pass else Fail(PublishFailed), sent + [msg])
  {
    assert rs[..i + 1][..i] == rs[..i];
  }

  /** The body of Publish's loop before the send: the topic for the reading's channel, and its state message. */
  method StateMessageOf(stateTopic: string, r: Reading) returns (msg: Message)
    ensures msg == StateMessage(stateTopic, r)
  {
    var topic := stateTopic;
    if Contains(topic, IntVerb) {
      topic := SprintfD(topic, r.channel);
    }
    if topic == "" {
      topic := SprintfD(PerChannelTopicFmt, r.channel);
    }
    msg := Message(topic, StatePayload(r.value, r.raw), false);
  }

  /** Publish: send the readings one by one, returning the first error. */
  method Publish(m: MqttOutput, readings: seq<Reading>, broker: Broker, hist: seq<Message>)
    returns (result: Outcome<MqttError>, sent: seq<Message>)
    ensures PublishOutcome(result, sent) == PublishRun(m, readings, broker, hist)
  {
    sent := hist;
    var i := 0;
    while i < |readings|
      invariant 0 <= i <= |readings|
      invariant PublishRun(m, readings[..i], broker, hist) == PublishOutcome(Pass, sent)
    {
      var msg := StateMessageOf(m.stateTopic, readings[i]);
      var accepted := broker(sent, msg);
      PublishRunNext(m, readings, i, broker, hist, sent);
      sent := sent + [msg];
      if !accepted {
        PublishRunFailSticks(m, readings, broker, hist, i + 1);
        return Fail(PublishFailed), sent;
      }
      i := i + 1;
    }
    assert readings[..i] == readings;
    result := Pass;
  }

  /** Close: disconnecting never reports an error. */
  function Close(m: MqttOutput): (r: Outcome<MqttError>)
    ensures r.Pass?
  {
    Pass
  }

  // ---------------------------------------------------------------------
  // Construction and discovery
  // ---------------------------------------------------------------------

  /** The retained discovery message of one channel. */
  function ChannelDiscovery(cfg: MqttConfig, ch: int): Message {
    var payload := DiscoveryPayload(DiscoveryName(cfg, Some(ch)), FormatStateTopic(cfg.stateTopic, ch), DiscoveryUniqueId(cfg, Some(ch)));
    Message(SprintfD(cfg.discoveryTopic, ch), payload, true)
  }

  /** The discovery messages of the enabled channels, in configuration order. */
  function ChannelDiscoveries(cfg: MqttConfig, cs: seq<ChannelConfig>): seq<Message> {
    if cs == [] then []
    else
      var c := cs[|cs| - 1];
      ChannelDiscoveries(cfg, cs[..|cs| - 1]) + (if c.enabled then [ChannelDiscovery(cfg, c.channel)] else [])
  }

  /** The single retained discovery message of the whole device, with the state topic as configured. */
  function DeviceDiscovery(cfg: MqttConfig): Message {
    var payload := DiscoveryPayload(DiscoveryName(cfg, None), cfg.stateTopic, DiscoveryUniqueId(cfg, None));
    Message(cfg.discoveryTopic, payload, true)
  }

  /** The discovery messages NewMQTT publishes after connecting. */
  function DiscoveryMessages(cfg: MqttConfig, cs: seq<ChannelConfig>): seq<Message> {
    if cfg.discoveryTopic == "" then []
    else if Contains(cfg.discoveryTopic, IntVerb) then ChannelDiscoveries(cfg, cs)
    else [DeviceDiscovery(cfg)]
  }

  /** The per-channel discoveries follow the enabled channel list: one message per enabled entry, in order. */
  lemma {:induction false} ChannelDiscoveriesFollowEnabled(cfg: MqttConfig, cs: seq<ChannelConfig>)
    ensures |ChannelDiscoveries(cfg, cs)| == |EnabledIds(cs)|
    ensures forall k :: 0 <= k < |EnabledIds(cs)| ==> ChannelDiscoveries(cfg, cs)[k] == ChannelDiscovery(cfg, EnabledIds(cs)[k])
  {
    if cs != [] {
      ChannelDiscoveriesFollowEnabled(cfg, cs[..|cs| - 1]);
    }
  }

  /**
   * Nothing is announced without a discovery topic; a topic with "%d"
   * announces each enabled channel on its own topic; any other topic
   * announces the device once. Every discovery message is retained.
   */
  lemma DiscoveryPlan(cfg: MqttConfig, cs: seq<ChannelConfig>)
    ensures var msgs := DiscoveryMessages(cfg, cs);
      && |msgs| == (if cfg.discoveryTopic == "" then 0
                    else if Contains(cfg.discoveryTopic, IntVerb) then |EnabledIds(cs)|
                    else 1)
      && (forall k :: 0 <= k < |msgs| ==> msgs[k].retained && msgs[k].payload.DiscoveryPayload?)
      && (cfg.discoveryTopic != "" && Contains(cfg.discoveryTopic, IntVerb) ==>
            forall k :: 0 <= k < |msgs| ==> msgs[k] == ChannelDiscovery(cfg, EnabledIds(cs)[k]))
  {
    ChannelDiscoveriesFollowEnabled(cfg, cs);
  }

  /** Per-channel discovery topics of distinct channels are distinct, so no retained announcement replaces another. */
  lemma ChannelDiscoveryTopicsDistinct(cfg: MqttConfig, a: int, b: int)
    requires Contains(cfg.discoveryTopic, IntVerb)
    ensures ChannelDiscovery(cfg, a).topic == ChannelDiscovery(cfg, b).topic ==> a == b
  {
    SprintfDInjective(cfg.discoveryTopic, a, b);
  }

  /** The output NewMQTT returns after a connection attempt. */
  function Connected(cfg: MqttConfig, connected: bool): (r: Result<MqttOutput, MqttError>)
    ensures r.Ok? <==> connected
    ensures r.Ok? ==> r.value.stateTopic == cfg.stateTopic && r.value.discoveryTopic == cfg.discoveryTopic
  {
    if connected then Ok(MqttOutput(cfg.stateTopic, cfg.discoveryTopic)) else Err(ConnectFailed)
  }

  /**
   * NewMQTT: connect (`connected` is the broker's answer), then publish
   * the discovery messages. A rejected discovery message is only logged:
   * it neither stops the announcements nor fails the construction.
   */
  method NewMqtt(cfg: MqttConfig, cs: seq<ChannelConfig>, connected: bool, broker: Broker, hist: seq<Message>)
    returns (r: Result<MqttOutput, MqttError>, sent: seq<Message>)
    ensures r == Connected(cfg, connected)
    ensures sent == if connected then hist + DiscoveryMessages(cfg, cs) else hist
  {
    sent := hist;
    if !connected {
      return Err(ConnectFailed), sent;
    }
    var m := MqttOutput(cfg.stateTopic, cfg.discoveryTopic);
    if m.discoveryTopic != "" {
      if Contains(m.discoveryTopic, IntVerb) {
        var i := 0;
        while i < |cs|
          invariant 0 <= i <= |cs|
          invariant sent == hist + ChannelDiscoveries(cfg, cs[..i])
        {
          var c := cs[i];
          assert cs[..i + 1][..i] == cs[..i];
          if c.enabled {
            var msg := ChannelDiscovery(cfg, c.channel);
            var _ := broker(sent, msg);
            sent := sent + [msg];
          }
          i := i + 1;
        }
        assert cs[..i] == cs;
      } else {
        var msg := DeviceDiscovery(cfg);
        var _ := broker(sent, msg);
        sent := sent + [msg];
      }
    }
    r := Ok(m);
  }
}
