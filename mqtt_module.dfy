/**
 * The MQTT module: subscribes to one or more MQTT brokers and turns their
 * structured payloads into SensorThings observations, one subscription client
 * per configured broker.
 */
module MqttMod {
  import opened Wrappers
  import opened Models
  import opened MqttClientBase
  import opened MqttClients

  const ModuleName := "MQTT"
  const ModuleDescription := "Map a structured non MQTT stream to a SensorThings observation stream"

  /** Keep-alive and ping timeout, in seconds, that Start gives every subscription client. */
  const SubKeepAliveSeconds := 300
  const SubPingTimeoutSeconds := 20

  /** MQTTModuleSettings: the brokers to subscribe to. */
  datatype Settings = Settings(subBrokers: seq<SubBroker>)

  /** The settings of a module that has not been configured. */
  const ZeroSettings := Settings([])

  /** What Start's result is judged by: a sub-client's streams, configuration, flags and calls. */
  datatype ClientView = ClientView(streams: seq<Stream>, config: ClientConfig, state: ConnState, calls: seq<ClientCall>)

  ghost function View(client: SubClient): ClientView
    reads client, client.base
  {
    ClientView(client.streams, client.base.Config(), client.base.State(), client.base.calls)
  }

  /**
   * The view of a sub-client built for broker `sb`, writing to `channel`, with the
   * fixed keep-alive and ping timeout, and then started with connection outcome `ok`:
   * one connect call followed by one subscription per stream.
   */
  function StartedView(sb: SubBroker, channel: Channel?, ok: bool): ClientView
  {
    ClientView(
      sb.streams,
      ClientConfig(
        sb.qos,
        CreatePahoClient(sb.host, sb.clientId, sb.username, sb.password, SubKeepAliveSeconds, SubPingTimeoutSeconds),
        sb.host, sb.username, sb.password, channel),
      AfterConnect(ConnState(false, false, 0), ok),
      [ClientCall.Connect] + Subscriptions(sb.streams, sb.qos))
  }

  /**
   * What a started sub-client is: connected with the broker's own settings and
   * the fixed keep-alive and ping timeout, connecting (with its retry ticker) iff
   * the broker refused, and having made one connect call and then one
   * subscription per stream, in order.
   */
  lemma StartedViewMeans(sb: SubBroker, channel: Channel?, ok: bool)
    ensures var v := StartedView(sb, channel, ok);
      && Supervised(v.state)
      && v.streams == sb.streams && v.config.qos == sb.qos && v.config.publishChannel == channel
      && v.config.options.keepAliveSeconds == SubKeepAliveSeconds
      && v.config.options.pingTimeoutSeconds == SubPingTimeoutSeconds
      && (v.config.options.credentials.Some? <==> |sb.username| > 0 && |sb.password| > 0)
      && (v.state.connecting <==> !ok) && v.state.retryProcedures == (if ok then 0 else 1)
      && |v.calls| == |sb.streams| + 1 && v.calls[0] == ClientCall.Connect
      && forall i :: 0 <= i < |sb.streams| ==>
           v.calls[i + 1] == ClientCall.Subscribe(sb.streams[i].incomingTopic, sb.qos, sb.streams[i])
  {
  }

  /** `client` was built for broker `sb` by Start and then started with connection outcome `ok`. */
  ghost predicate Started(client: SubClient, sb: SubBroker, channel: Channel?, ok: bool)
    reads client, client.base
  {
    View(client) == StartedView(sb, channel, ok)
  }

  /** One iteration of Start's loop: create the sub-client for `sb` and start it. */
  method StartSubClient(sb: SubBroker, channel: Channel?, connectOk: bool)
    returns (client: SubClient)
    ensures fresh(client) && fresh(client.base)
    ensures Started(client, sb, channel, connectOk)
  {
    client := new SubClient.CreateSubClient(sb.host, sb.qos, sb.streams, sb.clientId, channel,
                                            sb.username, sb.password, SubKeepAliveSeconds, SubPingTimeoutSeconds);
    client.Start(connectOk);
  }

  /** Start's loop: one fresh sub-client per broker, in order, each started at once. */
  method StartSubClients(brokers: seq<SubBroker>, channel: Channel?, connectOk: seq<bool>)
    returns (clients: seq<SubClient>)
    requires |connectOk| == |brokers|
    ensures |clients| == |brokers|
    ensures forall j, k :: 0 <= j < k < |clients| ==> clients[j].base != clients[k].base
    ensures forall j :: 0 <= j < |clients| ==> fresh(clients[j]) && fresh(clients[j].base)
    ensures forall j :: 0 <= j < |clients| ==> Started(clients[j], brokers[j], channel, connectOk[j])
  {
    clients := [];
    var i := 0;
    while i < |brokers|
      invariant 0 <= i <= |brokers|
      invariant |clients| == i
      invariant forall j, k :: 0 <= j < k < i ==> clients[j].base != clients[k].base
      invariant forall j :: 0 <= j < i ==> fresh(clients[j]) && fresh(clients[j].base)
      invariant forall j :: 0 <= j < i ==> Started(clients[j], brokers[j], channel, connectOk[j])
    {
      label before:
      var client := StartSubClient(brokers[i], channel, connectOk[i]);
      forall j | 0 <= j < i
        ensures Started(clients[j], brokers[j], channel, connectOk[j])
      {
        assert unchanged@before(clients[j], clients[j].base);
      }
      clients := clients + [client];
      i := i + 1;
    }
  }

  /** MQTTModule. `subClients` is None while Go's slice is nil, that is before the first Start. */
  class MqttModule {
    const base: ModuleBase
    var settings: Settings
    var subClients: Option<seq<SubClient>>

    /** No two sub-clients share a client base. */
    ghost predicate Valid()
      reads this
    {
      subClients.Some? ==>
        forall i, j :: 0 <= i < j < |subClients.value| ==> subClients.value[i].base != subClients.value[j].base
    }

    /** The client bases of the sub-clients: what Stop changes. */
    ghost function Bases(): set<object>
      reads this
    {
      if subClients.None? then {} else set i | 0 <= i < |subClients.value| :: subClients.value[i].base
    }

    constructor ()
      ensures fresh(base) && base.name == "" && base.description == "" && base.publishChannel == null
      ensures settings == ZeroSettings && subClients == None
      ensures Valid()
    {
      base := new ModuleBase();
      settings := ZeroSettings;
      subClients := None;
    }

    /** Setup: the module's name and description. */
    method Setup()
      modifies base
      ensures base.name == ModuleName && base.description == ModuleDescription
      ensures base.publishChannel == old(base.publishChannel)
    {
      base.name := ModuleName;
      base.description := ModuleDescription;
    }

    /**
     * SettingsChanged: `decode` is the JSON decoding of the raw settings; when it
     * fails the error is reported and the settings stay as they were.
     */
    method SettingsChanged(raw: RawMessage, decode: RawMessage -> Option<Settings>) returns (ok: bool)
      modifies this
      ensures ok <==> decode(raw).Some?
      ensures settings == if ok then decode(raw).value else old(settings)
      ensures subClients == old(subClients)
    {
      var s := decode(raw);
      if s.None? {
        return false;
      }
      settings := s.value;
      ok := true;
    }

    /**
     * Start: a new list of subscription clients, one per configured broker and in
     * the same order, each created with the fixed keep-alive and ping timeout and
     * started at once; `connectOk(i)` is whether the i-th broker accepts the connection.
     */
    method Start(connectOk: nat -> bool)
      modifies this
      ensures Valid()
      ensures settings == old(settings)
      ensures subClients.Some? && |subClients.value| == |settings.subBrokers|
      ensures forall i :: 0 <= i < |subClients.value| ==>
        fresh(subClients.value[i]) && fresh(subClients.value[i].base)
      ensures forall i :: 0 <= i < |subClients.value| ==>
        Started(subClients.value[i], settings.subBrokers[i], base.publishChannel, connectOk(i))
    {
      var outcomes := seq(|settings.subBrokers|, i requires 0 <= i => connectOk(i));
      var clients := StartSubClients(settings.subBrokers, base.publishChannel, outcomes);
      subClients := Some(clients);
    }

    /** Stop: nothing before the first Start; afterwards every sub-client disconnects. */
    method Stop()
      requires Valid()
      modifies Bases()
      ensures subClients == old(subClients)
      ensures subClients.Some? ==> forall i :: 0 <= i < |subClients.value| ==>
        var b := subClients.value[i].base;
        && b.calls == old(b.calls) + [Disconnect(DisconnectQuiesceMs)]
        && b.State() == old(b.State()) && b.Config() == old(b.Config())
    {
      if subClients.None? {
        return;
      }
      var clients := subClients.value;
      var i := 0;
      while i < |clients|
        invariant 0 <= i <= |clients|
        invariant forall j :: 0 <= j < i ==>
          var b := clients[j].base;
          && b.calls == old(b.calls) + [Disconnect(DisconnectQuiesceMs)]
          && b.State() == old(b.State()) && b.Config() == old(b.Config())
        invariant forall j :: i <= j < |clients| ==>
          var b := clients[j].base;
          && b.calls == old(b.calls) && b.State() == old(b.State()) && b.Config() == old(b.Config())
      {
        clients[i].base.Stop();
        i := i + 1;
      }
    }
  }
}
