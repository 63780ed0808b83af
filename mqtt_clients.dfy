/**
 * The MQTT subscription client, which turns each inbound payload into a
 * SensorThings Observation and hands it to the delivery channel, and the MQTT
 * publish client, which drains that channel and publishes to the outbound
 * broker unless it is still connecting.
 */
module MqttClients {
  import opened Wrappers
  import opened Models
  import opened MqttClientBase

  const ResultField := "result"
  const PhenomenonTimeField := "phenomenonTime"

  /** The type assertion `incVal.(string)` is reached and fails. */
  predicate AssertionFails(tv: ToValue, v: Value) {
    ((tv.name == ResultField && tv.toFloat) || tv.name == PhenomenonTimeField) && !v.Str?
  }

  /** Payload key `k` is present and mapped to Observation field `field`. */
  predicate Targets(msg: map<string, Value>, mapping: map<string, ToValue>, k: string, field: string)
    requires k in mapping
  {
    k in msg && mapping[k].name == field
  }

  /** No payload field visited in `order` makes a type assertion fail. */
  predicate AssertionsHold(msg: map<string, Value>, mapping: map<string, ToValue>, order: seq<string>)
    requires forall j :: 0 <= j < |order| ==> order[j] in mapping
  {
    forall j :: 0 <= j < |order| && order[j] in msg ==> !AssertionFails(mapping[order[j]], msg[order[j]])
  }

  /** The index of the last key in `order` that sets `field`, or -1 when none does. */
  function LastTarget(order: seq<string>, msg: map<string, Value>, mapping: map<string, ToValue>,
                      field: string): (r: int)
    requires forall j :: 0 <= j < |order| ==> order[j] in mapping
    ensures -1 <= r < |order|
    ensures r >= 0 ==> Targets(msg, mapping, order[r], field)
    ensures forall j :: r < j < |order| ==> !Targets(msg, mapping, order[j], field)
    decreases |order|
  {
    if order == [] then -1
    else if Targets(msg, mapping, order[|order| - 1], field) then |order| - 1
    else LastTarget(order[..|order| - 1], msg, mapping, field)
  }

  /** The result for a payload value: the parsed float when asked for and parseable, the raw value otherwise. */
  function ResultValue(v: Value, toFloat: bool, parseFloat: string -> Option<real>): (r: Value)
    requires toFloat ==> v.Str?
    ensures !toFloat ==> r == v
    ensures toFloat && parseFloat(v.s).Some? ==> r == Number(parseFloat(v.s).value)
    ensures toFloat && parseFloat(v.s).None? ==> r == v
  {
    if !toFloat then v
    else match parseFloat(v.s)
      case Some(f) => Number(f)
      case None => v
  }

  /**
   * The Observation built from a payload: each of `result` and `phenomenonTime`
   * holds what the last key visited that targets it wrote; everything else is zero.
   */
  function Observe(msg: map<string, Value>, mapping: map<string, ToValue>, order: seq<string>,
                   parseFloat: string -> Option<real>): Observation
    requires forall j :: 0 <= j < |order| ==> order[j] in mapping
    requires AssertionsHold(msg, mapping, order)
  {
    var ri := LastTarget(order, msg, mapping, ResultField);
    var ti := LastTarget(order, msg, mapping, PhenomenonTimeField);
    ZeroObservation.(
      result := if ri < 0 then Null else ResultValue(msg[order[ri]], mapping[order[ri]].toFloat, parseFloat),
      phenomenonTime := if ti < 0 then "" else msg[order[ti]].s)
  }

  /** What handleIncomingMessage does with one payload. */
  datatype Handling = Ignored | Emitted(message: PublishMessage) | AssertionPanic

  /**
   * The transform of one inbound payload, given the stream's mapping, the
   * decoded payload (None when it is not a JSON object), the order in which the
   * mapping is visited and the float parser.
   */
  function Transform(payload: Option<map<string, Value>>, mapping: map<string, ToValue>,
                     outgoingTopic: string, order: seq<string>,
                     parseFloat: string -> Option<real>): (h: Handling)
    requires IsEnumeration(order, mapping.Keys)
    ensures |mapping| == 0 ==> h == Ignored
    ensures payload.None? ==> h == Ignored
    ensures h == AssertionPanic <==>
      |mapping| > 0 && payload.Some? &&
      exists k :: k in mapping && k in payload.value && AssertionFails(mapping[k], payload.value[k])
    ensures |mapping| > 0 && payload.Some? && h != AssertionPanic ==>
      h == Emitted(PublishMessage(outgoingTopic, Observe(payload.value, mapping, order, parseFloat)))
    ensures h.Emitted? ==>
      && h.message.topic == outgoingTopic
      && h.message.observation.resultTime == ""
      && h.message.observation.resultQuality == ""
      && h.message.observation.validTime == ""
      && h.message.observation.parameters == map[]
      && h.message.observation.featureOfInterest == None
  {
    if |mapping| == 0 || payload.None? then Ignored
    else if !AssertionsHold(payload.value, mapping, order) then AssertionPanic
    else Emitted(PublishMessage(outgoingTopic, Observe(payload.value, mapping, order, parseFloat)))
  }

  lemma LastTargetExtend(order: seq<string>, i: int, msg: map<string, Value>,
                         mapping: map<string, ToValue>, field: string)
    requires 0 <= i < |order|
    requires forall j :: 0 <= j < |order| ==> order[j] in mapping
    ensures LastTarget(order[..i + 1], msg, mapping, field) ==
      if Targets(msg, mapping, order[i], field) then i else LastTarget(order[..i], msg, mapping, field)
  {
    assert order[..i + 1][..i] == order[..i];
  }

  /** What visiting one mapped key `k` does to the Observation under construction. */
  function Write(obs: Observation, msg: map<string, Value>, k: string, tv: ToValue,
                 parseFloat: string -> Option<real>): Observation
    requires k in msg ==> !AssertionFails(tv, msg[k])
  {
    if k !in msg then obs
    else if tv.name == ResultField then obs.(result := ResultValue(msg[k], tv.toFloat, parseFloat))
    else if tv.name == PhenomenonTimeField then obs.(phenomenonTime := msg[k].s)
    else obs
  }

  /** Observe over one more key is Observe over the prefix followed by that key's write. */
  lemma ObserveExtend(order: seq<string>, i: int, msg: map<string, Value>, mapping: map<string, ToValue>,
                      parseFloat: string -> Option<real>)
    requires 0 <= i < |order|
    requires forall j :: 0 <= j < |order| ==> order[j] in mapping
    requires AssertionsHold(msg, mapping, order[..i + 1])
    ensures AssertionsHold(msg, mapping, order[..i])
    ensures Observe(msg, mapping, order[..i + 1], parseFloat) ==
      Write(Observe(msg, mapping, order[..i], parseFloat), msg, order[i], mapping[order[i]], parseFloat)
  {
    assert forall j :: 0 <= j < i ==> order[..i + 1][j] == order[..i][j];
    LastTargetExtend(order, i, msg, mapping, ResultField);
    LastTargetExtend(order, i, msg, mapping, PhenomenonTimeField);
  }

  /** The mapping loop of handleIncomingMessage; None when a type assertion panics. */
  method BuildObservation(msg: map<string, Value>, mapping: map<string, ToValue>, order: seq<string>,
                          parseFloat: string -> Option<real>) returns (o: Option<Observation>)
    requires IsEnumeration(order, mapping.Keys)
    ensures o.None? <==> exists k :: k in mapping && k in msg && AssertionFails(mapping[k], msg[k])
    ensures o.Some? ==> AssertionsHold(msg, mapping, order) && o.value == Observe(msg, mapping, order, parseFloat)
  {
    var obs := ZeroObservation;
    var i := 0;
    while i < |order|
      invariant 0 <= i <= |order|
      invariant AssertionsHold(msg, mapping, order[..i])
      invariant obs == Observe(msg, mapping, order[..i], parseFloat)
    {
      var k := order[i];
      var v := mapping[k];
      if k in msg {
        var incVal := msg[k];
        if v.name == ResultField {
          if v.toFloat {
            if !incVal.Str? {
              return None;
            }
            match parseFloat(incVal.s)
            case Some(f) => obs := obs.(result := Number(f));
            case None => obs := obs.(result := incVal);
          } else {
            obs := obs.(result := incVal);
          }
        } else if v.name == PhenomenonTimeField {
          if !incVal.Str? {
            return None;
          }
          obs := obs.(phenomenonTime := incVal.s);
        }
      }
      assert AssertionsHold(msg, mapping, order[..i + 1]) by {
        assert forall j :: 0 <= j < i ==> order[..i + 1][j] == order[..i][j];
      }
      ObserveExtend(order, i, msg, mapping, parseFloat);
      i := i + 1;
    }
    assert order[..i] == order;
    o := Some(obs);
  }

  /** Two payloads that agree on which visited keys set `field` give the same last writer. */
  lemma {:induction false} LastTargetAgree(order: seq<string>, msg1: map<string, Value>, msg2: map<string, Value>,
                                           mapping: map<string, ToValue>, field: string)
    requires forall j :: 0 <= j < |order| ==> order[j] in mapping
    requires forall j :: 0 <= j < |order| ==>
      (Targets(msg1, mapping, order[j], field) <==> Targets(msg2, mapping, order[j], field))
    ensures LastTarget(order, msg1, mapping, field) == LastTarget(order, msg2, mapping, field)
    decreases |order|
  {
    if order != [] {
      LastTargetAgree(order[..|order| - 1], msg1, msg2, mapping, field);
    }
  }

  /** A payload field that the mapping does not mention changes nothing. */
  lemma UnmappedFieldIgnored(msg: map<string, Value>, k: string, v: Value, mapping: map<string, ToValue>,
                             outgoingTopic: string, order: seq<string>, parseFloat: string -> Option<real>)
    requires IsEnumeration(order, mapping.Keys)
    requires k !in mapping
    ensures Transform(Some(msg[k := v]), mapping, outgoingTopic, order, parseFloat) ==
            Transform(Some(msg), mapping, outgoingTopic, order, parseFloat)
  {
    var msg' := msg[k := v];
    assert forall j :: 0 <= j < |order| ==> order[j] != k && order[j] in mapping;
    assert AssertionsHold(msg', mapping, order) == AssertionsHold(msg, mapping, order) by {
      forall j | 0 <= j < |order|
        ensures (order[j] in msg' <==> order[j] in msg) && (order[j] in msg ==> msg'[order[j]] == msg[order[j]])
      {
      }
    }
    if |mapping| > 0 && AssertionsHold(msg, mapping, order) {
      ObserveAgree(msg', msg, mapping, order, parseFloat);
    }
  }

  /**
   * A payload field mapped to any Observation field other than `result` and
   * `phenomenonTime` changes nothing: dropping it from the payload gives the same outcome.
   */
  lemma OtherTargetIgnored(msg: map<string, Value>, k: string, mapping: map<string, ToValue>,
                           outgoingTopic: string, order: seq<string>, parseFloat: string -> Option<real>)
    requires IsEnumeration(order, mapping.Keys)
    requires k in mapping && mapping[k].name != ResultField && mapping[k].name != PhenomenonTimeField
    ensures Transform(Some(msg - {k}), mapping, outgoingTopic, order, parseFloat) ==
            Transform(Some(msg), mapping, outgoingTopic, order, parseFloat)
  {
    var msg' := msg - {k};
    assert forall j :: 0 <= j < |order| ==> order[j] in mapping;
    assert !AssertionFails(mapping[k], Null);
    assert AssertionsHold(msg', mapping, order) == AssertionsHold(msg, mapping, order) by {
      forall j | 0 <= j < |order| && order[j] in msg
        ensures order[j] == k || (order[j] in msg' && msg'[order[j]] == msg[order[j]])
      {
      }
    }
    if |mapping| > 0 && AssertionsHold(msg, mapping, order) {
      ObserveAgree(msg', msg, mapping, order, parseFloat);
    }
  }

  /** Payloads that agree on every visited key targeting `result` or `phenomenonTime` build the same Observation. */
  lemma ObserveAgree(msg1: map<string, Value>, msg2: map<string, Value>, mapping: map<string, ToValue>,
                     order: seq<string>, parseFloat: string -> Option<real>)
    requires forall j :: 0 <= j < |order| ==> order[j] in mapping
    requires AssertionsHold(msg1, mapping, order) && AssertionsHold(msg2, mapping, order)
    requires forall j :: 0 <= j < |order| && mapping[order[j]].name in {ResultField, PhenomenonTimeField} ==>
      (order[j] in msg1 <==> order[j] in msg2) && (order[j] in msg1 ==> msg1[order[j]] == msg2[order[j]])
    ensures Observe(msg1, mapping, order, parseFloat) == Observe(msg2, mapping, order, parseFloat)
  {
    LastTargetAgree(order, msg1, msg2, mapping, ResultField);
    LastTargetAgree(order, msg1, msg2, mapping, PhenomenonTimeField);
  }

  /** At most one payload field sets `result`, and at most one sets `phenomenonTime`. */
  ghost predicate SingleWriters(msg: map<string, Value>, mapping: map<string, ToValue>) {
    forall k1, k2, f ::
      (k1 in mapping && k2 in mapping && (f == ResultField || f == PhenomenonTimeField) &&
       Targets(msg, mapping, k1, f) && Targets(msg, mapping, k2, f)) ==> k1 == k2
  }

  lemma LastTargetFinds(order: seq<string>, msg: map<string, Value>, mapping: map<string, ToValue>,
                        field: string, k: string)
    requires IsEnumeration(order, mapping.Keys)
    requires k in mapping && Targets(msg, mapping, k, field)
    ensures LastTarget(order, msg, mapping, field) >= 0
  {
    var j :| 0 <= j < |order| && order[j] == k;
  }

  /**
   * The order in which Go visits the mapping matters only when several payload
   * fields set the same Observation field: otherwise every order builds the same Observation.
   */
  lemma ObserveOrderIndependent(msg: map<string, Value>, mapping: map<string, ToValue>,
                                order1: seq<string>, order2: seq<string>, parseFloat: string -> Option<real>)
    requires IsEnumeration(order1, mapping.Keys) && IsEnumeration(order2, mapping.Keys)
    requires AssertionsHold(msg, mapping, order1)
    requires SingleWriters(msg, mapping)
    ensures AssertionsHold(msg, mapping, order2)
    ensures Observe(msg, mapping, order1, parseFloat) == Observe(msg, mapping, order2, parseFloat)
  {
    forall j | 0 <= j < |order2| && order2[j] in msg
      ensures !AssertionFails(mapping[order2[j]], msg[order2[j]])
    {
      var i :| 0 <= i < |order1| && order1[i] == order2[j];
    }
    forall f | f == ResultField || f == PhenomenonTimeField
      ensures var r1, r2 := LastTarget(order1, msg, mapping, f), LastTarget(order2, msg, mapping, f);
        (r1 < 0 <==> r2 < 0) && (r1 >= 0 ==> order1[r1] == order2[r2])
    {
      var r1, r2 := LastTarget(order1, msg, mapping, f), LastTarget(order2, msg, mapping, f);
      if r1 >= 0 {
        LastTargetFinds(order2, msg, mapping, f, order1[r1]);
      }
      if r2 >= 0 {
        LastTargetFinds(order1, msg, mapping, f, order2[r2]);
      }
    }
  }

  /**
   * The float coercion of a `result` field: "12.5" becomes the number 12.5 and
   * "abc", which does not parse, is passed on unchanged.
   */
  lemma FloatCoercionExample(parseFloat: string -> Option<real>)
    requires parseFloat("12.5") == Some(12.5) && parseFloat("abc") == None
    ensures IsEnumeration(["val"], {"val"})
    ensures Transform(Some(map["val" := Str("12.5")]), map["val" := ToValue(ResultField, true)], "out", ["val"], parseFloat)
      == Emitted(PublishMessage("out", ZeroObservation.(result := Number(12.5))))
    ensures Transform(Some(map["val" := Str("abc")]), map["val" := ToValue(ResultField, true)], "out", ["val"], parseFloat)
      == Emitted(PublishMessage("out", ZeroObservation.(result := Str("abc"))))
  {
    var mapping := map["val" := ToValue(ResultField, true)];
    assert mapping.Keys == {"val"};
  }

  /** The subscribe calls for a list of streams, in order. */
  function Subscriptions(streams: seq<Stream>, qos: byte): (r: seq<ClientCall>)
    ensures |r| == |streams|
    ensures forall i :: 0 <= i < |streams| ==>
      r[i] == Subscribe(streams[i].incomingTopic, qos, streams[i])
    decreases |streams|
  {
    if streams == [] then []
    else
      var last := streams[|streams| - 1];
      Subscriptions(streams[..|streams| - 1], qos) + [Subscribe(last.incomingTopic, qos, last)]
  }

  /** MqttSubClient: a client base plus the streams it subscribes to. */
  class SubClient {
    const base: ClientBase
    var streams: seq<Stream>

    constructor CreateSubClient(host: string, qos: byte, streams: seq<Stream>, clientId: string,
                                channel: Channel?, username: string, password: string,
                                keepAlive: int, pingTimeout: int)
      ensures fresh(base) && base.Valid()
      ensures base.Config() == ClientConfig(qos, CreatePahoClient(host, clientId, username, password, keepAlive, pingTimeout),
                                            host, username, password, channel)
      ensures base.State() == ConnState(false, false, 0) && base.calls == []
      ensures this.streams == streams
    {
      base := new ClientBase.SetClientBase(host, qos, clientId, channel, username, password, keepAlive, pingTimeout);
      this.streams := streams;
    }

    /**
     * Connects, then subscribes to every stream's incoming topic, whatever the
     * connect outcome; a refused subscription is only logged.
     */
    method Start(connectOk: bool)
      requires base.Valid()
      modifies base
      ensures base.Valid()
      ensures base.calls == old(base.calls) + [ClientCall.Connect] + Subscriptions(streams, base.qos)
      ensures base.State() == AfterConnect(old(base.State()), connectOk)
      ensures base.Config() == old(base.Config())
    {
      base.Connect(connectOk);
      var i := 0;
      while i < |streams|
        invariant 0 <= i <= |streams|
        invariant base.Valid()
        invariant base.State() == AfterConnect(old(base.State()), connectOk)
        invariant base.Config() == old(base.Config())
        invariant base.calls == old(base.calls) + [ClientCall.Connect] + Subscriptions(streams[..i], base.qos)
      {
        var st := streams[i];
        base.Subscribe(st.incomingTopic, st);
        assert streams[..i + 1][..i] == streams[..i];
        i := i + 1;
      }
      assert streams[..i] == streams;
    }

    /**
     * handleIncomingMessage: transform one payload and, when a message results,
     * hand it to the delivery channel.
     */
    method HandleIncomingMessage(payload: Option<map<string, Value>>, mapping: map<string, ToValue>,
                                 outgoingTopic: string, order: seq<string>,
                                 parseFloat: string -> Option<real>) returns (h: Handling)
      requires IsEnumeration(order, mapping.Keys)
      requires base.publishChannel != null
      modifies base.publishChannel
      ensures h == Transform(payload, mapping, outgoingTopic, order, parseFloat)
      ensures base.publishChannel.queue ==
        old(base.publishChannel.queue) + if h.Emitted? then [h.message] else []
    {
      if |mapping| == 0 {
        return Ignored;
      }
      if payload.None? {
        return Ignored;
      }
      var o := BuildObservation(payload.value, mapping, order, parseFloat);
      if o.None? {
        return AssertionPanic;
      }
      var m := PublishMessage(outgoingTopic, o.value);
      base.publishChannel.Send(m);
      h := Emitted(m);
    }
  }

  /** The bytes json.Marshal produced; nil, that is empty, when marshalling failed. */
  function Payload(marshalled: Option<Bytes>): Bytes {
    match marshalled
    case Some(b) => b
    case None => []
  }

  /** The publish calls for messages taken while the client is not connecting, in order. */
  function Published(qos: byte, msgs: seq<PublishMessage>, marshal: Observation -> Option<Bytes>): (r: seq<ClientCall>)
    ensures |r| == |msgs|
    ensures forall i :: 0 <= i < |msgs| ==>
      r[i] == Publish(msgs[i].topic, qos, false, Payload(marshal(msgs[i].observation)))
    decreases |msgs|
  {
    if msgs == [] then []
    else
      var last := msgs[|msgs| - 1];
      Published(qos, msgs[..|msgs| - 1], marshal) + [Publish(last.topic, qos, false, Payload(marshal(last.observation)))]
  }

  /** The observable state of a publish client: its supervision, the channel it drains and the calls it made. */
  datatype PubState = PubState(conn: ConnState, queue: seq<PublishMessage>, calls: seq<ClientCall>)

  /** One iteration of listen: take a message; drop it while connecting, publish it otherwise. */
  function TakeStep(s: PubState, qos: byte, marshal: Observation -> Option<Bytes>): (t: PubState)
    ensures s.queue != [] ==> t.queue == s.queue[1..]
    ensures s.queue == [] ==> t == s
    ensures t.conn == s.conn
    ensures s.conn.connecting ==> t.calls == s.calls
  {
    if s.queue == [] then s
    else
      var pm := s.queue[0];
      PubState(s.conn, s.queue[1..],
               if s.conn.connecting then s.calls else s.calls + Published(qos, [pm], marshal))
  }

  /** An event of the publish client: a listen iteration or a connection event. */
  datatype PubEvent = Listen | Conn(e: ConnEvent)

  function PubStep(s: PubState, e: PubEvent, qos: byte, marshal: Observation -> Option<Bytes>): PubState
    requires Supervised(s.conn)
  {
    match e
    case Listen => TakeStep(s, qos, marshal)
    case Conn(ce) =>
      var connects := if ce.Tick? && !s.conn.retryTicker then [] else [ClientCall.Connect];
      PubState(Step(s.conn, ce), s.queue, s.calls + connects)
  }

  function PubRun(s: PubState, events: seq<PubEvent>, qos: byte, marshal: Observation -> Option<Bytes>): PubState
    requires Supervised(s.conn)
    decreases |events|
  {
    if events == [] then s
    else
      StepSupervised(s.conn, if events[0].Conn? then events[0].e else ConnectAttempt(true));
      PubRun(PubStep(s, events[0], qos, marshal), events[1..], qos, marshal)
  }

  predicate NoPublishCalls(calls: seq<ClientCall>) {
    forall i :: 0 <= i < |calls| ==> !calls[i].Publish?
  }

  /**
   * While the client is connecting and no retry tick finds it connected, every
   * message taken from the channel is dropped: nothing is published and nothing
   * is put back, so what remains of the channel is a suffix of what was there.
   */
  lemma {:induction false} NoPublishWhileConnecting(s: PubState, events: seq<PubEvent>, qos: byte,
                                                    marshal: Observation -> Option<Bytes>)
    requires Supervised(s.conn) && s.conn.connecting
    requires forall i :: 0 <= i < |events| ==> !(events[i].Conn? && FindsConnection(events[i].e))
    ensures var t := PubRun(s, events, qos, marshal);
      && t.conn == s.conn
      && |t.calls| >= |s.calls| && t.calls[..|s.calls|] == s.calls
      && NoPublishCalls(t.calls[|s.calls|..])
      && |t.queue| <= |s.queue| && t.queue == s.queue[|s.queue| - |t.queue|..]
    decreases |events|
  {
    if events != [] {
      var s' := PubStep(s, events[0], qos, marshal);
      if events[0].Conn? {
        assert Step(s.conn, events[0].e) == s.conn;
      }
      assert s'.conn == s.conn;
      NoPublishWhileConnecting(s', events[1..], qos, marshal);
      var t := PubRun(s', events[1..], qos, marshal);
      assert t == PubRun(s, events, qos, marshal);
      assert t.calls[..|s'.calls|][..|s.calls|] == t.calls[..|s.calls|];
      assert s'.calls[..|s.calls|] == s.calls;
      assert forall i :: |s.calls| <= i < |s'.calls| ==> s'.calls[i] == ClientCall.Connect;
      assert forall i :: |s.calls| <= i < |t.calls| ==> !t.calls[i].Publish? by {
        forall i | |s.calls| <= i < |t.calls|
          ensures !t.calls[i].Publish?
        {
          if i < |s'.calls| {
            assert t.calls[i] == t.calls[..|s'.calls|][i] == s'.calls[i];
          } else {
            assert t.calls[i] == t.calls[|s'.calls|..][i - |s'.calls|];
          }
        }
      }
    }
  }

  /**
   * Once a retry tick finds the client connected, the next message taken from the
   * channel is published to its own topic with the client's QoS, not retained.
   */
  lemma ResumesOnceConnected(s: PubState, ok: bool, pm: PublishMessage, rest: seq<PublishMessage>,
                             qos: byte, marshal: Observation -> Option<Bytes>)
    requires Supervised(s.conn) && s.conn.connecting && s.queue == [pm] + rest
    ensures var t := PubRun(s, [Conn(Tick(ok, true)), Listen], qos, marshal);
      && !t.conn.connecting
      && t.queue == rest
      && t.calls == s.calls + [ClientCall.Connect, Publish(pm.topic, qos, false, Payload(marshal(pm.observation)))]
  {
    var s1 := PubStep(s, Conn(Tick(ok, true)), qos, marshal);
    assert !s1.conn.connecting && s1.queue == s.queue;
    var s2 := PubStep(s1, Listen, qos, marshal);
    assert [Conn(Tick(ok, true)), Listen][1..] == [Listen];
    assert PubRun(s1, [Listen], qos, marshal) == PubRun(s2, [], qos, marshal);
  }

  function Listens(n: nat): (r: seq<PubEvent>)
    ensures |r| == n && forall i :: 0 <= i < n ==> r[i] == Listen
  {
    if n == 0 then [] else [Listen] + Listens(n - 1)
  }

  /** Draining the whole channel while connected publishes every message, in channel order. */
  lemma {:induction false} DrainWhileConnected(s: PubState, qos: byte, marshal: Observation -> Option<Bytes>)
    requires Supervised(s.conn) && !s.conn.connecting
    ensures var t := PubRun(s, Listens(|s.queue|), qos, marshal);
      t.queue == [] && t.calls == s.calls + Published(qos, s.queue, marshal)
    decreases |s.queue|
  {
    if s.queue != [] {
      var s' := TakeStep(s, qos, marshal);
      assert Listens(|s.queue|)[1..] == Listens(|s'.queue|);
      DrainWhileConnected(s', qos, marshal);
      assert [s.queue[0]] + s'.queue == s.queue;
      PublishedConcat(qos, [s.queue[0]], s'.queue, marshal);
    }
  }

  lemma PublishedConcat(qos: byte, a: seq<PublishMessage>, b: seq<PublishMessage>,
                        marshal: Observation -> Option<Bytes>)
    ensures Published(qos, a + b, marshal) == Published(qos, a, marshal) + Published(qos, b, marshal)
  {
    var l := Published(qos, a + b, marshal);
    var r := Published(qos, a, marshal) + Published(qos, b, marshal);
    assert |l| == |r|;
    forall i | 0 <= i < |l|
      ensures l[i] == r[i]
    {
      if i >= |a| {
        assert (a + b)[i] == b[i - |a|];
      }
    }
  }

  /** MqttPubClient: a client base that drains the delivery channel. */
  class PubClient {
    const base: ClientBase
    /** Whether the listen loop has been launched. */
    ghost var listening: bool

    constructor CreatePubClient(host: string, qos: byte, clientId: string, channel: Channel?,
                                username: string, password: string, keepAlive: int, pingTimeout: int)
      ensures fresh(base) && base.Valid() && !listening
      ensures base.Config() == ClientConfig(qos, CreatePahoClient(host, clientId, username, password, keepAlive, pingTimeout),
                                            host, username, password, channel)
      ensures base.State() == ConnState(false, false, 0) && base.calls == []
    {
      base := new ClientBase.SetClientBase(host, qos, clientId, channel, username, password, keepAlive, pingTimeout);
      listening := false;
    }

    function Snapshot(): PubState
      reads this, base, base.publishChannel
      requires base.publishChannel != null
    {
      PubState(base.State(), base.publishChannel.queue, base.calls)
    }

    /** Launches connect and the listen loop. */
    method Start(connectOk: bool)
      requires base.Valid()
      modifies this, base
      ensures listening && base.Valid()
      ensures base.calls == old(base.calls) + [ClientCall.Connect]
      ensures base.State() == AfterConnect(old(base.State()), connectOk)
      ensures base.Config() == old(base.Config())
    {
      base.Connect(connectOk);
      listening := true;
    }

    /** One iteration of listen; None while the channel is empty and the receive blocks. */
    method ListenStep(marshal: Observation -> Option<Bytes>) returns (taken: Option<PublishMessage>)
      requires base.publishChannel != null
      modifies base, base.publishChannel
      ensures base.Config() == old(base.Config()) && base.State() == old(base.State())
      ensures Snapshot() == TakeStep(old(Snapshot()), base.qos, marshal)
      ensures taken == if old(base.publishChannel.queue) == [] then None else Some(old(base.publishChannel.queue)[0])
    {
      var channel := base.publishChannel;
      if channel.queue == [] {
        return None;
      }
      var pm := channel.Receive();
      if !base.connecting {
        var jsonString := marshal(pm.observation);
        if jsonString.None? {
          // the marshalling error is only logged; the publish is still attempted
        }
        base.Publish(pm.topic, false, Payload(jsonString));
      }
      taken := Some(pm);
    }
  }
}
