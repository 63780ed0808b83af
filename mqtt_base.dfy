/**
 * The MQTT client base shared by the publish and the subscription clients:
 * its configuration, the paho client it drives (seen only through the calls
 * made on it) and the `Connecting` flag with its retry supervision.
 */
module MqttClientBase {
  import opened Wrappers
  import opened Models

  /** Grace period, in milliseconds, that Stop gives the broker to finish in-flight work. */
  const DisconnectQuiesceMs := 500

  /** Period, in seconds, of the retry ticker. */
  const RetryIntervalSeconds := 10

  /** The paho client options built by createPahoClient. */
  datatype ClientOptions = ClientOptions(
    broker: string,
    clientId: string,
    keepAliveSeconds: int,
    pingTimeoutSeconds: int,
    autoReconnect: bool,
    credentials: Option<(string, string)>)

  /** A call made on the paho client, which is outside the model. */
  datatype ClientCall =
    | Connect
    | Subscribe(topic: string, qos: byte, stream: Stream)
    | Publish(topic: string, qos: byte, retained: bool, payload: Bytes)
    | Disconnect(quiesceMs: int)

  /** Builds the client options; credentials are set only when both are non-empty. */
  function CreatePahoClient(host: string, clientId: string, username: string, password: string,
                            keepAlive: int, pingTimeout: int): (opts: ClientOptions)
    ensures opts.broker == host && opts.clientId == clientId
    ensures opts.keepAliveSeconds == keepAlive && opts.pingTimeoutSeconds == pingTimeout
    ensures opts.autoReconnect
    ensures opts.credentials.Some? <==> |username| > 0 && |password| > 0
    ensures opts.credentials.Some? ==> opts.credentials.value == (username, password)
  {
    var opts := ClientOptions(host, clientId, 0, 0, false, None);
    var opts := opts.(keepAliveSeconds := keepAlive, pingTimeoutSeconds := pingTimeout);
    var opts := opts.(autoReconnect := true);
    if |username| > 0 && |password| > 0 then opts.(credentials := Some((username, password))) else opts
  }

  /**
   * The connection supervision state: the `Connecting` flag, whether the retry
   * ticker is live, and how many retry procedures have been started so far.
   */
  datatype ConnState = ConnState(connecting: bool, retryTicker: bool, retryProcedures: nat)

  /** A retry ticker runs exactly while the client is marked as connecting. */
  predicate Supervised(s: ConnState) {
    s.connecting == s.retryTicker
  }

  /** connect(): a failure starts the retry procedure unless one is already running. */
  function AfterConnect(s: ConnState, ok: bool): (t: ConnState)
    ensures ok ==> t == s
    ensures !ok && s.connecting ==> t == s
    ensures !ok && !s.connecting ==>
      t.connecting && t.retryTicker && t.retryProcedures == s.retryProcedures + 1
  {
    if !ok && !s.connecting then ConnState(true, true, s.retryProcedures + 1) else s
  }

  /**
   * One tick of the retry ticker: connect again, and when the client then
   * reports itself connected stop the ticker and clear `Connecting`.
   */
  function AfterTick(s: ConnState, ok: bool, isConnected: bool): (t: ConnState)
    requires Supervised(s) && s.retryTicker
    ensures isConnected ==> !t.connecting && !t.retryTicker
    ensures !isConnected ==> t == s
    ensures t.retryProcedures == s.retryProcedures
    ensures Supervised(t)
  {
    var t := AfterConnect(s, ok);
    if isConnected then t.(connecting := false, retryTicker := false) else t
  }

  /** What can happen to a client: a connect attempt, or a tick of the retry ticker. */
  datatype ConnEvent = ConnectAttempt(ok: bool) | Tick(ok: bool, isConnected: bool)

  /** A tick only arrives while the retry ticker is live. */
  function Step(s: ConnState, e: ConnEvent): ConnState
    requires Supervised(s)
  {
    match e
    case ConnectAttempt(ok) => AfterConnect(s, ok)
    case Tick(ok, isConnected) => if s.retryTicker then AfterTick(s, ok, isConnected) else s
  }

  function Run(s: ConnState, events: seq<ConnEvent>): ConnState
    requires Supervised(s)
    decreases |events|
  {
    if events == [] then s
    else
      StepSupervised(s, events[0]);
      Run(Step(s, events[0]), events[1..])
  }

  lemma StepSupervised(s: ConnState, e: ConnEvent)
    requires Supervised(s)
    ensures Supervised(Step(s, e))
  {
  }

  /** Whatever happens, at most one retry ticker runs and it runs exactly while connecting. */
  lemma {:induction false} RunSupervised(s: ConnState, events: seq<ConnEvent>)
    requires Supervised(s)
    ensures Supervised(Run(s, events))
    decreases |events|
  {
    if events != [] {
      StepSupervised(s, events[0]);
      RunSupervised(Step(s, events[0]), events[1..]);
    }
  }

  predicate FindsConnection(e: ConnEvent) {
    e.Tick? && e.isConnected
  }

  /**
   * Once connecting, the client stays connecting, and no further retry procedure
   * is started, until a tick finds the client connected.
   */
  lemma {:induction false} ConnectingUntilTickConnects(s: ConnState, events: seq<ConnEvent>)
    requires Supervised(s) && s.connecting
    requires forall i :: 0 <= i < |events| ==> !FindsConnection(events[i])
    ensures Run(s, events) == s
    decreases |events|
  {
    if events != [] {
      assert Step(s, events[0]) == s;
      ConnectingUntilTickConnects(s, events[1..]);
    }
  }

  /** Starting from a supervised state, retry procedures are counted only on failures. */
  lemma {:induction false} RetriesOnlyOnFailures(s: ConnState, events: seq<ConnEvent>)
    requires Supervised(s)
    ensures Run(s, events).retryProcedures <= s.retryProcedures + Failures(events)
    decreases |events|
  {
    if events != [] {
      RetriesOnlyOnFailures(Step(s, events[0]), events[1..]);
    }
  }

  function Failures(events: seq<ConnEvent>): nat {
    if events == [] then 0
    else (if events[0] == ConnectAttempt(false) then 1 else 0) + Failures(events[1..])
  }

  /** The configuration part of a client, which nothing after SetClientBase changes. */
  datatype ClientConfig = ClientConfig(
    qos: byte,
    options: ClientOptions,
    host: string,
    username: string,
    password: string,
    publishChannel: Channel?)

  /** MqttClientBase. */
  class ClientBase {
    var qos: byte
    var options: ClientOptions
    var host: string
    var username: string
    var password: string
    var connecting: bool
    var publishChannel: Channel?
    var retryTicker: bool
    var retryProcedures: nat
    /** The calls made on the paho client, oldest first. */
    var calls: seq<ClientCall>

    ghost predicate Valid()
      reads this
    {
      Supervised(State())
    }

    function State(): ConnState
      reads this
    {
      ConnState(connecting, retryTicker, retryProcedures)
    }

    function Config(): ClientConfig
      reads this
    {
      ClientConfig(qos, options, host, username, password, publishChannel)
    }

    constructor SetClientBase(host: string, qos: byte, clientId: string, channel: Channel?,
                              username: string, password: string, keepAlive: int, pingTimeout: int)
      ensures Valid()
      ensures this.qos == qos && this.host == host
      ensures this.username == username && this.password == password
      ensures options == CreatePahoClient(host, clientId, username, password, keepAlive, pingTimeout)
      ensures publishChannel == channel
      ensures !connecting && !retryTicker && retryProcedures == 0 && calls == []
    {
      this.qos := qos;
      this.host := host;
      this.username := username;
      this.password := password;
      connecting := false;
      options := CreatePahoClient(host, clientId, username, password, keepAlive, pingTimeout);
      publishChannel := channel;
      retryTicker := false;
      retryProcedures := 0;
      calls := [];
    }

    method Stop()
      modifies this
      ensures calls == old(calls) + [Disconnect(DisconnectQuiesceMs)]
      ensures State() == old(State()) && Config() == old(Config())
    {
      calls := calls + [Disconnect(DisconnectQuiesceMs)];
    }

    /** Client.Subscribe with the client's QoS and a handler for `stream`. */
    method Subscribe(topic: string, stream: Stream)
      modifies this
      ensures calls == old(calls) + [ClientCall.Subscribe(topic, qos, stream)]
      ensures State() == old(State()) && Config() == old(Config())
    {
      calls := calls + [ClientCall.Subscribe(topic, qos, stream)];
    }

    /** Client.Publish with the client's QoS. */
    method Publish(topic: string, retained: bool, payload: Bytes)
      modifies this
      ensures calls == old(calls) + [ClientCall.Publish(topic, qos, retained, payload)]
      ensures State() == old(State()) && Config() == old(Config())
    {
      calls := calls + [ClientCall.Publish(topic, qos, retained, payload)];
    }

    /** connect(); `ok` is whether the broker accepted the connection. */
    method Connect(ok: bool)
      requires Valid()
      modifies this
      ensures Valid()
      ensures calls == old(calls) + [ClientCall.Connect]
      ensures State() == AfterConnect(old(State()), ok)
      ensures Config() == old(Config())
    {
      calls := calls + [ClientCall.Connect];
      if !ok {
        if !connecting {
          RetryConnect();
        }
      }
    }

    /** retryConnect(): mark the client as connecting and start the retry ticker. */
    method RetryConnect()
      modifies this
      ensures connecting && retryTicker && retryProcedures == old(retryProcedures) + 1
      ensures calls == old(calls) && Config() == old(Config())
    {
      connecting := true;
      retryTicker := true;
      retryProcedures := retryProcedures + 1;
    }

    /** One tick of the retry ticker; `isConnected` is what the paho client reports after connecting. */
    method RetryTick(ok: bool, isConnected: bool)
      requires Valid() && retryTicker
      modifies this
      ensures Valid()
      ensures calls == old(calls) + [ClientCall.Connect]
      ensures State() == AfterTick(old(State()), ok, isConnected)
      ensures Config() == old(Config())
    {
      Connect(ok);
      if isConnected {
        retryTicker := false;
        connecting := false;
      }
    }
  }
}
