/**
 * The BeeClear module: polls a BeeClear energy monitor for its usage readings
 * and publishes the mapped readings as SensorThings observations.
 */
module BeeClear {
  import opened Wrappers
  import opened Models

  const ModuleName := "BeeClear"
  const ModuleDescription := "Publish BeeClear readings to a SensorThings server"

  /** The polling interval, in seconds, used when the settings give none. */
  const DefaultFetchIntervalSeconds: int64 := 600

  /** The usage query appended to the host. */
  const UsageQuery := "/bc_usage?date=1445554800&duration=168&period=24"

  /** The usage field holding the reading's Unix time. */
  const DateField := "d"

  /** Which usage reading to publish, and the SensorThings topic to publish it to. */
  datatype Mapping = Mapping(dataType: string, publishTopic: string)

  /** BeeClearSettings; `fetchInterval` is in seconds. */
  datatype Settings = Settings(host: string, fetchInterval: int64, mappings: seq<Mapping>)

  const ZeroSettings := Settings("", 0, [])

  /** The host with one trailing '/' removed, when it has one. */
  function StripTrailingSlash(h: string): (r: string)
    ensures r == h || r + "/" == h
    ensures |r| < |h| <==> |h| > 0 && h[|h| - 1] == '/'
  {
    if |h| > 0 && h[|h| - 1] == '/' then h[..|h| - 1] else h
  }

  /** Only one slash goes: "h//" is stored as "h/". */
  lemma StripTrailingSlashOnce()
    ensures StripTrailingSlash("h//") == "h/"
  {
    assert "h//"[..2] == "h/";
  }

  /** Stripping undoes appending a slash. */
  lemma StripTrailingSlashInverse(h: string)
    ensures StripTrailingSlash(h + "/") == h
  {
    assert (h + "/")[..|h|] == h;
  }

  /** The settings as SettingsChanged stores them. */
  function Normalize(s: Settings): (r: Settings)
    ensures r.fetchInterval == s.fetchInterval && r.mappings == s.mappings
    ensures r.host == StripTrailingSlash(s.host)
  {
    s.(host := StripTrailingSlash(s.host))
  }

  /** The URL polled for usage readings. */
  function UsageUrl(host: string): (r: string)
    ensures |r| == |host| + |UsageQuery|
    ensures r[..|host|] == host && r[|host|..] == UsageQuery
  {
    host + UsageQuery
  }

  /** The message published for one mapping whose reading is present. */
  function UsageMessage(m: Mapping, usage: map<string, int64>, formatTime: int64 -> string): PublishMessage
    requires m.dataType in usage
  {
    var date := if DateField in usage then usage[DateField] else 0;
    PublishMessage(m.publishTopic,
                   ZeroObservation.(result := Integer(usage[m.dataType]), phenomenonTime := formatTime(date)))
  }

  /**
   * The messages one fetch publishes, in mapping order: one per mapping whose
   * data type the usage reading holds.
   */
  function UsageMessages(mappings: seq<Mapping>, usage: map<string, int64>, formatTime: int64 -> string)
    : (r: seq<PublishMessage>)
    ensures |r| <= |mappings|
    decreases |mappings|
  {
    if mappings == [] then []
    else
      var last := mappings[|mappings| - 1];
      UsageMessages(mappings[..|mappings| - 1], usage, formatTime) +
        (if last.dataType in usage then [UsageMessage(last, usage, formatTime)] else [])
  }

  /**
   * A message is published exactly when some mapping's data type is in the
   * usage reading, and it is that mapping's message.
   */
  lemma {:induction false} UsageMessagesMembership(mappings: seq<Mapping>, usage: map<string, int64>,
                                                   formatTime: int64 -> string, pm: PublishMessage)
    ensures pm in UsageMessages(mappings, usage, formatTime) <==>
      exists i :: 0 <= i < |mappings| && mappings[i].dataType in usage &&
        pm == UsageMessage(mappings[i], usage, formatTime)
    decreases |mappings|
  {
    if mappings != [] {
      var init := mappings[..|mappings| - 1];
      var last := mappings[|mappings| - 1];
      var tail := if last.dataType in usage then [UsageMessage(last, usage, formatTime)] else [];
      assert UsageMessages(mappings, usage, formatTime) == UsageMessages(init, usage, formatTime) + tail;
      UsageMessagesMembership(init, usage, formatTime, pm);
      if pm in UsageMessages(mappings, usage, formatTime) {
        if pm in UsageMessages(init, usage, formatTime) {
          var i :| 0 <= i < |init| && init[i].dataType in usage && pm == UsageMessage(init[i], usage, formatTime);
          assert mappings[i] == init[i];
        } else {
          assert pm in tail;
        }
      } else {
        forall i | 0 <= i < |mappings| && mappings[i].dataType in usage
          ensures pm != UsageMessage(mappings[i], usage, formatTime)
        {
          if i < |init| {
            assert mappings[i] == init[i];
          } else {
            assert mappings[i] == last;
          }
        }
      }
    }
  }

  /** When every mapped reading is present, each mapping publishes once, in order. */
  lemma {:induction false} UsageMessagesAllPresent(mappings: seq<Mapping>, usage: map<string, int64>,
                                                   formatTime: int64 -> string)
    requires forall i :: 0 <= i < |mappings| ==> mappings[i].dataType in usage
    ensures |UsageMessages(mappings, usage, formatTime)| == |mappings|
    ensures forall i :: 0 <= i < |mappings| ==>
      UsageMessages(mappings, usage, formatTime)[i] == UsageMessage(mappings[i], usage, formatTime)
    decreases |mappings|
  {
    if mappings != [] {
      UsageMessagesAllPresent(mappings[..|mappings| - 1], usage, formatTime);
    }
  }

  /** A mapping whose reading is absent publishes nothing: dropping it changes nothing. */
  lemma {:induction false} AbsentMappingSkipped(pre: seq<Mapping>, m: Mapping, post: seq<Mapping>,
                                                usage: map<string, int64>, formatTime: int64 -> string)
    requires m.dataType !in usage
    ensures UsageMessages(pre + [m] + post, usage, formatTime) == UsageMessages(pre + post, usage, formatTime)
    decreases |post|
  {
    if post == [] {
      assert pre + [m] + post == pre + [m];
      assert (pre + [m])[..|pre|] == pre;
      assert pre + post == pre;
    } else {
      var init := post[..|post| - 1];
      AbsentMappingSkipped(pre, m, init, usage, formatTime);
      assert (pre + [m] + post)[..|pre + [m] + post| - 1] == pre + [m] + init;
      assert (pre + post)[..|pre + post| - 1] == pre + init;
    }
  }

  /** BeeClearModule. `ticker` is None while Go's ticker is nil. */
  class BeeClearModule {
    const base: ModuleBase
    var settings: Settings
    /** The default polling interval, in seconds. */
    var fetchInterval: int64
    var ticker: Option<Ticker>

    constructor ()
      ensures fresh(base) && base.name == "" && base.description == "" && base.publishChannel == null
      ensures settings == ZeroSettings && fetchInterval == 0 && ticker == None
    {
      base := new ModuleBase();
      settings := ZeroSettings;
      fetchInterval := 0;
      ticker := None;
    }

    /** Setup: name, description and the default polling interval. */
    method Setup()
      modifies this, base
      ensures base.name == ModuleName && base.description == ModuleDescription
      ensures base.publishChannel == old(base.publishChannel)
      ensures fetchInterval == DefaultFetchIntervalSeconds
      ensures settings == old(settings) && ticker == old(ticker)
    {
      base.name := ModuleName;
      base.description := ModuleDescription;
      fetchInterval := DefaultFetchIntervalSeconds;
    }

    /**
     * SettingsChanged: on a decoding failure the settings stay as they were;
     * otherwise they are replaced, with one trailing '/' removed from the host.
     */
    method SettingsChanged(raw: RawMessage, decode: RawMessage -> Option<Settings>) returns (ok: bool)
      modifies this
      ensures ok <==> decode(raw).Some?
      ensures settings == if ok then Normalize(decode(raw).value) else old(settings)
      ensures fetchInterval == old(fetchInterval) && ticker == old(ticker)
    {
      var d := decode(raw);
      if d.None? {
        return false;
      }
      var s := d.value;
      if |s.host| > 0 && s.host[|s.host| - 1] == '/' {
        s := s.(host := s.host[..|s.host| - 1]);
      }
      settings := s;
      ok := true;
    }

    /**
     * Start, which runs without checking the settings: a ticker with the
     * effective interval. A non-positive period makes time.NewTicker panic,
     * and then no ticker is set.
     */
    method Start() returns (c: Completion)
      modifies this
      ensures settings == old(settings) && fetchInterval == old(fetchInterval)
      ensures var period := TickerPeriod(EffectiveInterval(settings.fetchInterval, fetchInterval));
        && (c == Panicked <==> period <= 0)
        && ticker == if period <= 0 then old(ticker) else Some(Ticker(period, false))
    {
      var interval := settings.fetchInterval;
      if interval == 0 {
        interval := fetchInterval;
      }
      var t := NewTicker(TickerPeriod(interval));
      if t.None? {
        return Panicked;
      }
      ticker := t;
      c := Returned;
    }

    /** Stop: stop the ticker; before any Start the ticker is nil and Stop panics. */
    method Stop() returns (c: Completion)
      modifies this
      ensures c == Panicked <==> old(ticker).None?
      ensures ticker == if old(ticker).None? then None else Some(old(ticker).value.(stopped := true))
      ensures settings == old(settings) && fetchInterval == old(fetchInterval)
    {
      if ticker.None? {
        return Panicked;
      }
      ticker := Some(ticker.value.(stopped := true));
      c := Returned;
    }

    /**
     * Stop with the nil check the MQTT module makes: the ticker, when there is
     * one, is stopped, and a module that never started stops quietly.
     */
    method StopGuarded() returns (c: Completion)
      modifies this
      ensures c == Returned
      ensures ticker == if old(ticker).None? then None else Some(old(ticker).value.(stopped := true))
      ensures settings == old(settings) && fetchInterval == old(fetchInterval)
    {
      if ticker.Some? {
        ticker := Some(ticker.value.(stopped := true));
      }
      c := Returned;
    }

    /**
     * One tick of the polling loop: `fetch` is the HTTP GET and JSON decoding of
     * the usage URL, None on any error, in which case nothing is published.
     */
    method FetchOnce(fetch: string -> Option<map<string, int64>>, formatTime: int64 -> string)
      requires base.publishChannel != null
      modifies base.publishChannel
      ensures var usage := fetch(UsageUrl(settings.host));
        base.publishChannel.queue ==
          old(base.publishChannel.queue) + if usage.None? then [] else UsageMessages(settings.mappings, usage.value, formatTime)
    {
      var usage := fetch(UsageUrl(settings.host));
      if usage.None? {
        return;
      }
      var bcUsage := usage.value;
      var mappings := settings.mappings;
      var channel := base.publishChannel;
      var i := 0;
      while i < |mappings|
        invariant 0 <= i <= |mappings|
        invariant channel.queue == old(channel.queue) + UsageMessages(mappings[..i], bcUsage, formatTime)
      {
        var mapping := mappings[i];
        assert mappings[..i + 1][..i] == mappings[..i];
        if mapping.dataType !in bcUsage {
          assert UsageMessages(mappings[..i + 1], bcUsage, formatTime) == UsageMessages(mappings[..i], bcUsage, formatTime);
          i := i + 1;
          continue;
        }
        var date := if DateField in bcUsage then bcUsage[DateField] else 0;
        var pm := PublishMessage(mapping.publishTopic,
                                 ZeroObservation.(result := Integer(bcUsage[mapping.dataType]),
                                                  phenomenonTime := formatTime(date)));
        assert UsageMessages(mappings[..i + 1], bcUsage, formatTime) == UsageMessages(mappings[..i], bcUsage, formatTime) + [pm];
        channel.Send(pm);
        i := i + 1;
      }
      assert mappings[..i] == mappings;
    }
  }

  /** A module that was set up but never started panics when stopped. */
  method StopBeforeStart() returns (c: Completion)
    ensures c == Panicked
  {
    var m := new BeeClearModule();
    m.Setup();
    c := m.Stop();
  }

  /** With the nil check, the same sequence stops quietly. */
  method StopGuardedBeforeStart() returns (c: Completion)
    ensures c == Returned
  {
    var m := new BeeClearModule();
    m.Setup();
    c := m.StopGuarded();
  }
}
