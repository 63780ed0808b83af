/** Option, for values the Go code represents with nil. */
module Wrappers {

  datatype Option<+T> = None | Some(value: T)
}

/**
 * The shared record types of the connector: SensorThings observations and
 * publish messages, the MQTT bridge configuration, the persisted connector
 * record, the delivery channel every producer writes to and the base every
 * module embeds.
 */
module Models {
  import opened Wrappers

  newtype byte = x: int | 0 <= x < 256

  /** Go's int64, used for time.Duration and for BeeClear readings. */
  newtype int64 = x: int | -0x8000_0000_0000_0000 <= x < 0x8000_0000_0000_0000

  type Bytes = seq<byte>

  /** json.RawMessage: serialized settings, interpreted only by the owning module. */
  type RawMessage = Bytes

  /** A value held by a Go interface{}: what encoding/json decodes, a parsed float, an int64. */
  datatype Value =
    | Null
    | Bool(b: bool)
    | Number(n: real)
    | Integer(i: int64)
    | Str(s: string)
    | Array(elems: seq<Value>)
    | Object(fields: map<string, Value>)

  /** Whether a call ran to completion or ended in a Go panic. */
  datatype Completion = Returned | Panicked

  datatype FeatureOfInterest = FeatureOfInterest(
    navSelf: string,
    description: string,
    encodingType: string,
    feature: map<string, Value>)

  /**
   * The SensorThings Observation entity (OGC 15-078r6, section 8.2.7) as the
   * connector carries it; `Null` and the empty string are Go's zero values.
   */
  datatype Observation = Observation(
    phenomenonTime: string,
    result: Value,
    resultTime: string,
    resultQuality: string,
    validTime: string,
    parameters: map<string, Value>,
    featureOfInterest: Option<FeatureOfInterest>)

  /** `order` lists every key of the set exactly once: the order in which `range` visits a Go map. */
  ghost predicate IsEnumeration(order: seq<string>, keys: set<string>) {
    && (forall i, j :: 0 <= i < j < |order| ==> order[i] != order[j])
    && (forall k :: k in keys <==> k in order)
  }

  /** An enumeration of a set is as long as the set is large. */
  lemma {:induction false} EnumerationSize(order: seq<string>, keys: set<string>)
    requires IsEnumeration(order, keys)
    ensures |order| == |keys|
    decreases |order|
  {
    if order != [] {
      var last := order[|order| - 1];
      var init := order[..|order| - 1];
      assert forall k :: k in keys - {last} <==> k in init by {
        forall k | k in init
          ensures k != last
        {
          var i :| 0 <= i < |init| && init[i] == k;
          assert order[i] == k;
        }
        forall k | k in keys - {last}
          ensures k in init
        {
          var i :| 0 <= i < |order| && order[i] == k;
          assert i != |order| - 1;
          assert init[i] == k;
        }
      }
      EnumerationSize(init, keys - {last});
    }
  }

  /** Go's int64 arithmetic: the mathematical value wrapped into the 64-bit two's-complement range. */
  function Wrap64(x: int): (r: int64)
    ensures (r as int - x) % 0x1_0000_0000_0000_0000 == 0
    ensures -0x8000_0000_0000_0000 <= x < 0x8000_0000_0000_0000 ==> r as int == x
  {
    ((x + 0x8000_0000_0000_0000) % 0x1_0000_0000_0000_0000 - 0x8000_0000_0000_0000) as int64
  }

  /** Nanoseconds in a second: time.Second. */
  const NanosPerSecond := 1_000_000_000

  /** The longest interval, in seconds, whose time.Duration does not overflow. */
  const MaxIntervalSeconds := 9_223_372_036

  /** A polling interval: the configured number of seconds, or the module default when it is 0. */
  function EffectiveInterval(configured: int64, default: int64): (r: int64)
    ensures configured != 0 ==> r == configured
    ensures configured == 0 ==> r == default
  {
    if configured == 0 then default else configured
  }

  /** `time.Second * interval`, a time.Duration product that wraps around on overflow. */
  function TickerPeriod(interval: int64): (r: int64)
    ensures 0 < interval as int <= MaxIntervalSeconds ==> r as int == NanosPerSecond * interval as int > 0
    ensures -MaxIntervalSeconds <= interval as int <= 0 ==> r <= 0
  {
    Wrap64(NanosPerSecond * interval as int)
  }

  /** A time.Ticker: its period in nanoseconds and whether Stop was called on it. */
  datatype Ticker = Ticker(periodNanos: int64, stopped: bool)

  /**
   * time.NewTicker: a ticker for a positive period; a non-positive period panics,
   * which is reported as None.
   */
  function NewTicker(period: int64): (r: Option<Ticker>)
    ensures r.Some? <==> period > 0
    ensures r.Some? ==> r.value == Ticker(period, false)
  {
    if period > 0 then Some(Ticker(period, false)) else None
  }

  /** `&models.Observation{}`: every field at its zero value. */
  const ZeroObservation := Observation("", Null, "", "", "", map[], None)

  datatype PublishMessage = PublishMessage(topic: string, observation: Observation)

  /** Target of one payload field: the Observation field name and whether to parse a float. */
  datatype ToValue = ToValue(name: string, toFloat: bool)

  datatype Stream = Stream(incomingTopic: string, outgoingTopic: string, mapping: map<string, ToValue>)

  datatype SubBroker = SubBroker(
    clientId: string,
    qos: byte,
    host: string,
    username: string,
    password: string,
    streams: seq<Stream>)

  /** What a connector persists: ConnectorBase without its module (tagged json:"-"). */
  datatype ConnectorRecord = ConnectorRecord(
    id: string,
    name: string,
    description: string,
    moduleName: string,
    running: bool,
    settings: RawMessage)

  /**
   * The delivery channel `chan *PublishMessage` shared by every producer and the
   * publish client, as the sequence of messages handed over and not yet taken.
   */
  class Channel {
    var queue: seq<PublishMessage>

    constructor ()
      ensures queue == []
    {
      queue := [];
    }

    method Send(m: PublishMessage)
      modifies this
      ensures queue == old(queue) + [m]
    {
      queue := queue + [m];
    }

    method Receive() returns (m: PublishMessage)
      requires queue != []
      modifies this
      ensures m == old(queue)[0] && queue == old(queue)[1..]
    {
      m := queue[0];
      queue := queue[1..];
    }
  }

  /** ConnectorModuleBase: the name, description and channel every module embeds. */
  class ModuleBase {
    var name: string
    var description: string
    var publishChannel: Channel?

    constructor ()
      ensures name == "" && description == "" && publishChannel == null
    {
      name := "";
      description := "";
      publishChannel := null;
    }

    function GetName(): (r: string)
      reads this
      ensures r == name
    {
      name
    }

    function GetDescription(): (r: string)
      reads this
      ensures r == description
    {
      description
    }

    /** Called by the system so that the module can hand messages to the publish client. */
    method SetPublishChannel(channel: Channel?)
      modifies this
      ensures publishChannel == channel
      ensures name == old(name) && description == old(description)
    {
      publishChannel := channel;
    }
  }
}
