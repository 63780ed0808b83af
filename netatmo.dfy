/**
 * The Netatmo module: polls a Netatmo account's weather station modules and
 * publishes the mapped readings as SensorThings observations.
 */
module Netatmo {
  import opened Wrappers
  import opened Models

  const ModuleName := "Netatmo"
  const ModuleDescription := "Publish Netatmo readings to a SensorThings server"

  /** The polling interval, in seconds, used when the settings give none. */
  const DefaultFetchIntervalSeconds: int64 := 10

  /** Which reading of which station module to publish, and the topic to publish it to. */
  datatype Mapping = Mapping(moduleId: string, dataType: string, publishTopic: string)

  /** NetatmoSettings; `fetchInterval` is in seconds. */
  datatype Settings = Settings(
    clientId: string,
    clientSecret: string,
    username: string,
    password: string,
    fetchInterval: int64,
    mappings: seq<Mapping>)

  const ZeroSettings := Settings("", "", "", "", 0, [])

  /** The account details a Netatmo API client is created with. */
  datatype Credentials = Credentials(clientId: string, clientSecret: string, username: string, password: string)

  /** A station module as the Netatmo API reports it: its id, the reading's Unix time and the readings. */
  datatype Device = Device(id: string, timestamp: int64, data: map<string, Value>)

  /** Start goes ahead only when every account detail is filled in. */
  predicate CredentialsComplete(s: Settings) {
    |s.clientId| > 0 && |s.clientSecret| > 0 && |s.username| > 0 && |s.password| > 0
  }

  function CredentialsOf(s: Settings): (c: Credentials)
    ensures c.clientId == s.clientId && c.clientSecret == s.clientSecret
    ensures c.username == s.username && c.password == s.password
  {
    Credentials(s.clientId, s.clientSecret, s.username, s.password)
  }

  /** Mapping `m` selects a reading of device `d`. */
  predicate Selects(m: Mapping, d: Device) {
    m.moduleId == d.id && m.dataType in d.data
  }

  /** The message published for a reading selected by a mapping. */
  function ReadingMessage(d: Device, m: Mapping, formatTime: int64 -> string): PublishMessage
    requires m.dataType in d.data
  {
    PublishMessage(m.publishTopic,
                   ZeroObservation.(result := d.data[m.dataType], phenomenonTime := formatTime(d.timestamp)))
  }

  /** The messages for one device, in mapping order. */
  function DeviceMessages(d: Device, mappings: seq<Mapping>, formatTime: int64 -> string): (r: seq<PublishMessage>)
    ensures |r| <= |mappings|
    decreases |mappings|
  {
    if mappings == [] then []
    else
      var last := mappings[|mappings| - 1];
      DeviceMessages(d, mappings[..|mappings| - 1], formatTime) +
        (if Selects(last, d) then [ReadingMessage(d, last, formatTime)] else [])
  }

  /** The messages handleReadings publishes: device by device, each in mapping order. */
  function ReadingMessages(devices: seq<Device>, mappings: seq<Mapping>, formatTime: int64 -> string)
    : seq<PublishMessage>
    decreases |devices|
  {
    if devices == [] then []
    else
      ReadingMessages(devices[..|devices| - 1], mappings, formatTime) +
        DeviceMessages(devices[|devices| - 1], mappings, formatTime)
  }

  lemma {:induction false} DeviceMessagesMembership(d: Device, mappings: seq<Mapping>,
                                                    formatTime: int64 -> string, pm: PublishMessage)
    ensures pm in DeviceMessages(d, mappings, formatTime) <==>
      exists j :: 0 <= j < |mappings| && Selects(mappings[j], d) && pm == ReadingMessage(d, mappings[j], formatTime)
    decreases |mappings|
  {
    if mappings != [] {
      var init := mappings[..|mappings| - 1];
      DeviceMessagesMembership(d, init, formatTime, pm);
      if pm in DeviceMessages(d, mappings, formatTime) && pm !in DeviceMessages(d, init, formatTime) {
        assert pm == ReadingMessage(d, mappings[|mappings| - 1], formatTime);
      }
      if exists j :: 0 <= j < |mappings| && Selects(mappings[j], d) && pm == ReadingMessage(d, mappings[j], formatTime) {
        var j :| 0 <= j < |mappings| && Selects(mappings[j], d) && pm == ReadingMessage(d, mappings[j], formatTime);
        if j < |init| {
          assert init[j] == mappings[j];
        }
      }
    }
  }

  /**
   * The join: a message is published exactly when some mapping names a device's
   * id and a data type that device reports, and it carries that reading to that
   * mapping's topic.
   */
  lemma {:induction false} ReadingMessagesMembership(devices: seq<Device>, mappings: seq<Mapping>,
                                                     formatTime: int64 -> string, pm: PublishMessage)
    ensures pm in ReadingMessages(devices, mappings, formatTime) <==>
      exists i, j :: 0 <= i < |devices| && 0 <= j < |mappings| && Selects(mappings[j], devices[i]) &&
        pm == ReadingMessage(devices[i], mappings[j], formatTime)
    decreases |devices|
  {
    if devices != [] {
      var init := devices[..|devices| - 1];
      var d := devices[|devices| - 1];
      assert ReadingMessages(devices, mappings, formatTime) ==
        ReadingMessages(init, mappings, formatTime) + DeviceMessages(d, mappings, formatTime);
      ReadingMessagesMembership(init, mappings, formatTime, pm);
      DeviceMessagesMembership(d, mappings, formatTime, pm);
      if pm in ReadingMessages(init, mappings, formatTime) {
        var i, j :| 0 <= i < |init| && 0 <= j < |mappings| && Selects(mappings[j], init[i]) &&
                    pm == ReadingMessage(init[i], mappings[j], formatTime);
        assert devices[i] == init[i];
      } else if pm in DeviceMessages(d, mappings, formatTime) {
        var j :| 0 <= j < |mappings| && Selects(mappings[j], d) && pm == ReadingMessage(d, mappings[j], formatTime);
        assert devices[|devices| - 1] == d;
      } else {
        forall i, j | 0 <= i < |devices| && 0 <= j < |mappings| && Selects(mappings[j], devices[i])
          ensures pm != ReadingMessage(devices[i], mappings[j], formatTime)
        {
          if i < |init| {
            assert init[i] == devices[i];
          }
        }
      }
    }
  }

  /** The messages for a device over two runs of mappings are those of the first run, then those of the second. */
  lemma {:induction false} DeviceMessagesConcat(d: Device, a: seq<Mapping>, b: seq<Mapping>, formatTime: int64 -> string)
    ensures DeviceMessages(d, a + b, formatTime) == DeviceMessages(d, a, formatTime) + DeviceMessages(d, b, formatTime)
    decreases |b|
  {
    if b == [] {
      assert a + b == a;
    } else {
      var init := b[..|b| - 1];
      var last := b[|b| - 1];
      assert (a + b)[..|a + b| - 1] == a + init;
      assert (a + b)[|a + b| - 1] == last;
      var ra, ri, rl := DeviceMessages(d, a, formatTime), DeviceMessages(d, init, formatTime),
                        (if Selects(last, d) then [ReadingMessage(d, last, formatTime)] else []);
      assert DeviceMessages(d, b, formatTime) == ri + rl;
      calc {
        DeviceMessages(d, a + b, formatTime);
        DeviceMessages(d, a + init, formatTime) + rl;
        { DeviceMessagesConcat(d, a, init, formatTime); }
        (ra + ri) + rl;
        ra + (ri + rl);
      }
    }
  }

  /**
   * Each mapping contributes its own message, in its place: exactly one when it
   * selects a reading of the device, none otherwise.
   */
  lemma DeviceMessagesSplit(d: Device, pre: seq<Mapping>, m: Mapping, post: seq<Mapping>, formatTime: int64 -> string)
    ensures DeviceMessages(d, pre + [m] + post, formatTime) ==
      DeviceMessages(d, pre, formatTime) +
      (if Selects(m, d) then [ReadingMessage(d, m, formatTime)] else []) +
      DeviceMessages(d, post, formatTime)
  {
    DeviceMessagesConcat(d, pre + [m], post, formatTime);
    DeviceMessagesConcat(d, pre, [m], formatTime);
    assert [m][..0] == [];
  }

  /** When every mapping selects a reading of the device, each publishes once, in mapping order. */
  lemma {:induction false} DeviceMessagesAllSelect(d: Device, mappings: seq<Mapping>, formatTime: int64 -> string)
    requires forall j :: 0 <= j < |mappings| ==> mappings[j].moduleId == d.id && mappings[j].dataType in d.data
    ensures |DeviceMessages(d, mappings, formatTime)| == |mappings|
    ensures forall j :: 0 <= j < |mappings| ==>
      DeviceMessages(d, mappings, formatTime)[j] == ReadingMessage(d, mappings[j], formatTime)
    decreases |mappings|
  {
    if mappings != [] {
      DeviceMessagesAllSelect(d, mappings[..|mappings| - 1], formatTime);
    }
  }

  /** The messages for two runs of devices are those of the first run, then those of the second. */
  lemma {:induction false} ReadingMessagesConcat(a: seq<Device>, b: seq<Device>, mappings: seq<Mapping>,
                                                 formatTime: int64 -> string)
    ensures ReadingMessages(a + b, mappings, formatTime) ==
      ReadingMessages(a, mappings, formatTime) + ReadingMessages(b, mappings, formatTime)
    decreases |b|
  {
    if b == [] {
      assert a + b == a;
    } else {
      var init := b[..|b| - 1];
      var last := b[|b| - 1];
      assert (a + b)[..|a + b| - 1] == a + init;
      assert (a + b)[|a + b| - 1] == last;
      var ra, ri, rl := ReadingMessages(a, mappings, formatTime), ReadingMessages(init, mappings, formatTime),
                        DeviceMessages(last, mappings, formatTime);
      assert ReadingMessages(b, mappings, formatTime) == ri + rl;
      calc {
        ReadingMessages(a + b, mappings, formatTime);
        ReadingMessages(a + init, mappings, formatTime) + rl;
        { ReadingMessagesConcat(a, init, mappings, formatTime); }
        (ra + ri) + rl;
        ra + (ri + rl);
      }
    }
  }

  /** Each device contributes its own messages, in its place among the devices. */
  lemma ReadingMessagesSplit(pre: seq<Device>, d: Device, post: seq<Device>, mappings: seq<Mapping>,
                             formatTime: int64 -> string)
    ensures ReadingMessages(pre + [d] + post, mappings, formatTime) ==
      ReadingMessages(pre, mappings, formatTime) + DeviceMessages(d, mappings, formatTime) +
      ReadingMessages(post, mappings, formatTime)
  {
    ReadingMessagesConcat(pre + [d], post, mappings, formatTime);
    ReadingMessagesConcat(pre, [d], mappings, formatTime);
    assert [d][..0] == [];
  }

  /** A device that no mapping names contributes nothing. */
  lemma {:induction false} UnmappedDeviceSilent(d: Device, mappings: seq<Mapping>, formatTime: int64 -> string)
    requires forall j :: 0 <= j < |mappings| ==> mappings[j].moduleId != d.id
    ensures DeviceMessages(d, mappings, formatTime) == []
    decreases |mappings|
  {
    if mappings != [] {
      UnmappedDeviceSilent(d, mappings[..|mappings| - 1], formatTime);
    }
  }

  /**
   * The innermost loop of handleReadings: the device's readings are visited in
   * map order, and only the one whose data type the mapping names is sent.
   */
  method SendSelectedReading(channel: Channel, d: Device, mapping: Mapping, formatTime: int64 -> string)
    requires mapping.moduleId == d.id
    modifies channel
    ensures channel.queue ==
      old(channel.queue) + if mapping.dataType in d.data then [ReadingMessage(d, mapping, formatTime)] else []
  {
    var unvisited := d.data.Keys;
    while unvisited != {}
      invariant unvisited <= d.data.Keys
      invariant channel.queue == old(channel.queue) +
        if mapping.dataType in d.data && mapping.dataType !in unvisited then [ReadingMessage(d, mapping, formatTime)] else []
      decreases |unvisited|
    {
      var dataType :| dataType in unvisited;
      if mapping.dataType == dataType {
        var pm := PublishMessage(mapping.publishTopic,
                                 ZeroObservation.(result := d.data[dataType], phenomenonTime := formatTime(d.timestamp)));
        channel.Send(pm);
      }
      unvisited := unvisited - {dataType};
    }
  }

  /** The middle loop of handleReadings: every mapping, for one device. */
  method SendDeviceReadings(channel: Channel, d: Device, mappings: seq<Mapping>, formatTime: int64 -> string)
    modifies channel
    ensures channel.queue == old(channel.queue) + DeviceMessages(d, mappings, formatTime)
  {
    var j := 0;
    while j < |mappings|
      invariant 0 <= j <= |mappings|
      invariant channel.queue == old(channel.queue) + DeviceMessages(d, mappings[..j], formatTime)
    {
      assert mappings[..j + 1][..j] == mappings[..j];
      if mappings[j].moduleId == d.id {
        SendSelectedReading(channel, d, mappings[j], formatTime);
      }
      j := j + 1;
    }
    assert mappings[..j] == mappings;
  }

  /** NetatmoModule. `client` and `ticker` are None while Go's fields are nil. */
  class NetatmoModule {
    const base: ModuleBase
    var settings: Settings
    /** The default polling interval, in seconds. */
    var fetchInterval: int64
    var client: Option<Credentials>
    var ticker: Option<Ticker>

    constructor ()
      ensures fresh(base) && base.name == "" && base.description == "" && base.publishChannel == null
      ensures settings == ZeroSettings && fetchInterval == 0 && client == None && ticker == None
    {
      base := new ModuleBase();
      settings := ZeroSettings;
      fetchInterval := 0;
      client := None;
      ticker := None;
    }

    /** Setup: name, description and the default polling interval. */
    method Setup()
      modifies this, base
      ensures base.name == ModuleName && base.description == ModuleDescription
      ensures base.publishChannel == old(base.publishChannel)
      ensures fetchInterval == DefaultFetchIntervalSeconds
      ensures settings == old(settings) && client == old(client) && ticker == old(ticker)
    {
      base.name := ModuleName;
      base.description := ModuleDescription;
      fetchInterval := DefaultFetchIntervalSeconds;
    }

    /** SettingsChanged: on a decoding failure the settings stay as they were; otherwise they are replaced. */
    method SettingsChanged(raw: RawMessage, decode: RawMessage -> Option<Settings>) returns (ok: bool)
      modifies this
      ensures ok <==> decode(raw).Some?
      ensures settings == if ok then decode(raw).value else old(settings)
      ensures fetchInterval == old(fetchInterval) && client == old(client) && ticker == old(ticker)
    {
      var s := decode(raw);
      if s.None? {
        return false;
      }
      settings := s.value;
      ok := true;
    }

    /**
     * Start: nothing unless every account detail is set. Otherwise an API client
     * is created (`clientOk` says whether that succeeds; on failure the module
     * stops there) and a ticker with the effective interval is set; a
     * non-positive period makes time.NewTicker panic.
     */
    method Start(clientOk: bool) returns (c: Completion)
      modifies this
      ensures settings == old(settings) && fetchInterval == old(fetchInterval)
      ensures !CredentialsComplete(settings) ==> client == old(client) && ticker == old(ticker) && c == Returned
      ensures CredentialsComplete(settings) && !clientOk ==> client == None && ticker == old(ticker) && c == Returned
      ensures CredentialsComplete(settings) && clientOk ==>
        var period := TickerPeriod(EffectiveInterval(settings.fetchInterval, fetchInterval));
        && client == Some(CredentialsOf(settings))
        && (c == Panicked <==> period <= 0)
        && ticker == if period <= 0 then old(ticker) else Some(Ticker(period, false))
    {
      if |settings.clientId| == 0 || |settings.clientSecret| == 0 || |settings.username| == 0 || |settings.password| == 0 {
        return Returned;
      }
      if !clientOk {
        client := None;
        return Returned;
      }
      client := Some(Credentials(settings.clientId, settings.clientSecret, settings.username, settings.password));
      var interval := settings.fetchInterval;
      if interval == 0 {
        interval := fetchInterval;
      }
      var t := NewTicker(TickerPeriod(interval));
      if t.None? {
        return Panicked;
      }
      ticker := t;
      c := Returned;
    }

    /** Stop: stop the ticker; when Start never set one the ticker is nil and Stop panics. */
    method Stop() returns (c: Completion)
      modifies this
      ensures c == Panicked <==> old(ticker).None?
      ensures ticker == if old(ticker).None? then None else Some(old(ticker).value.(stopped := true))
      ensures settings == old(settings) && fetchInterval == old(fetchInterval) && client == old(client)
    {
      if ticker.None? {
        return Panicked;
      }
      ticker := Some(ticker.value.(stopped := true));
      c := Returned;
    }

    /** Stop with the nil check the MQTT module makes: it never panics. */
    method StopGuarded() returns (c: Completion)
      modifies this
      ensures c == Returned
      ensures ticker == if old(ticker).None? then None else Some(old(ticker).value.(stopped := true))
      ensures settings == old(settings) && fetchInterval == old(fetchInterval) && client == old(client)
    {
      if ticker.Some? {
        ticker := Some(ticker.value.(stopped := true));
      }
      c := Returned;
    }

    /** handleReadings: publish every mapped reading of the given station modules. */
    method HandleReadings(devices: seq<Device>, formatTime: int64 -> string)
      requires base.publishChannel != null
      modifies base.publishChannel
      ensures base.publishChannel.queue ==
        old(base.publishChannel.queue) + ReadingMessages(devices, settings.mappings, formatTime)
    {
      var channel := base.publishChannel;
      var i := 0;
      while i < |devices|
        invariant 0 <= i <= |devices|
        invariant channel.queue == old(channel.queue) + ReadingMessages(devices[..i], settings.mappings, formatTime)
      {
        assert devices[..i + 1][..i] == devices[..i];
        SendDeviceReadings(channel, devices[i], settings.mappings, formatTime);
        i := i + 1;
      }
      assert devices[..i] == devices;
    }
  }

  /** A module whose account details are incomplete never gets a ticker, so stopping it panics. */
  method StopIncompleteSettings(raw: RawMessage, decode: RawMessage -> Option<Settings>) returns (c: Completion)
    requires decode(raw).Some? && !CredentialsComplete(decode(raw).value)
    ensures c == Panicked
  {
    var m := new NetatmoModule();
    m.Setup();
    var ok := m.SettingsChanged(raw, decode);
    var started := m.Start(true);
    c := m.Stop();
  }

  /** With the nil check, the same sequence stops quietly. */
  method StopGuardedIncompleteSettings(raw: RawMessage, decode: RawMessage -> Option<Settings>) returns (c: Completion)
    requires decode(raw).Some? && !CredentialsComplete(decode(raw).value)
    ensures c == Returned
  {
    var m := new NetatmoModule();
    m.Setup();
    var ok := m.SettingsChanged(raw, decode);
    var started := m.Start(true);
    c := m.StopGuarded();
  }
}
