/**
 * The connector modules as the system sees them: the ConnectorModule
 * interface over the MQTT, BeeClear and Netatmo modules, the kinds the type
 * registry instantiates, and the settings each kind decodes.
 */
module ModuleRegistry {
  import opened Wrappers
  import opened Models
  import MqttClients
  import MqttMod
  import BeeClear
  import Netatmo

  /** A module type that can be registered and instantiated. */
  datatype ModuleKind = MqttKind | BeeClearKind | NetatmoKind

  /** The name a module of this kind gives itself in Setup, under which it is registered. */
  function DisplayName(kind: ModuleKind): string
  {
    match kind
    case MqttKind => MqttMod.ModuleName
    case BeeClearKind => BeeClear.ModuleName
    case NetatmoKind => Netatmo.ModuleName
  }

  /** Different kinds register under different names. */
  lemma DisplayNamesDistinct(k1: ModuleKind, k2: ModuleKind)
    ensures DisplayName(k1) == DisplayName(k2) ==> k1 == k2
  {
    if k1 != k2 {
      assert DisplayName(k1)[0] != DisplayName(k2)[0];
    }
  }

  /** The type registry after AddModule has registered `kinds`, in order, on top of `registry`. */
  function Register(registry: map<string, ModuleKind>, kinds: seq<ModuleKind>): map<string, ModuleKind>
    decreases |kinds|
  {
    if kinds == [] then registry
    else
      var last := kinds[|kinds| - 1];
      Register(registry, kinds[..|kinds| - 1])[DisplayName(last) := last]
  }

  /** No registration shadows another: every registered kind's name still resolves to that kind. */
  lemma {:induction false} RegisterResolves(registry: map<string, ModuleKind>, kinds: seq<ModuleKind>, i: int)
    requires 0 <= i < |kinds|
    ensures DisplayName(kinds[i]) in Register(registry, kinds)
    ensures Register(registry, kinds)[DisplayName(kinds[i])] == kinds[i]
    decreases |kinds|
  {
    var last := kinds[|kinds| - 1];
    if i < |kinds| - 1 {
      var init := kinds[..|kinds| - 1];
      RegisterResolves(registry, init, i);
      assert init[i] == kinds[i];
      DisplayNamesDistinct(last, kinds[i]);
    }
  }

  function DisplayDescription(kind: ModuleKind): string {
    match kind
    case MqttKind => MqttMod.ModuleDescription
    case BeeClearKind => BeeClear.ModuleDescription
    case NetatmoKind => Netatmo.ModuleDescription
  }

  /** A ConnectorModule: an instance of one of the three module types. */
  datatype Module =
    | MqttInstance(mq: MqttMod.MqttModule)
    | BeeClearInstance(bc: BeeClear.BeeClearModule)
    | NetatmoInstance(nm: Netatmo.NetatmoModule)
  {
    function Kind(): ModuleKind {
      match this
      case MqttInstance(_) => MqttKind
      case BeeClearInstance(_) => BeeClearKind
      case NetatmoInstance(_) => NetatmoKind
    }

    /** The embedded ConnectorModuleBase. */
    function Base(): ModuleBase {
      match this
      case MqttInstance(mq) => mq.base
      case BeeClearInstance(bc) => bc.base
      case NetatmoInstance(nm) => nm.base
    }

    function Instance(): object {
      match this
      case MqttInstance(mq) => mq
      case BeeClearInstance(bc) => bc
      case NetatmoInstance(nm) => nm
    }

    /** The objects of the module: the instance and its base. */
    function Objects(): set<object> {
      {Instance(), Base()}
    }
  }

  /** The settings a module holds, by kind. */
  datatype ModuleSettings =
    | MqttSettings(mqtt: MqttMod.Settings)
    | BeeClearSettings(beeClear: BeeClear.Settings)
    | NetatmoSettings(netatmo: Netatmo.Settings)

  function SettingsOf(m: Module): ModuleSettings
    reads m.Instance()
  {
    match m
    case MqttInstance(mq) => MqttSettings(mq.settings)
    case BeeClearInstance(bc) => BeeClearSettings(bc.settings)
    case NetatmoInstance(nm) => NetatmoSettings(nm.settings)
  }

  /** What the system observes of a module: its base's name, description and channel, and its settings. */
  datatype ModuleState = ModuleState(name: string, description: string, channel: Channel?, settings: ModuleSettings)

  ghost function StateOf(m: Module): ModuleState
    reads m.Objects()
  {
    ModuleState(m.Base().name, m.Base().description, m.Base().publishChannel, SettingsOf(m))
  }

  /** What a module holds besides its settings: its default interval and what Start creates. */
  datatype Runtime =
    | MqttRuntime(subClients: Option<seq<MqttClients.SubClient>>)
    | BeeClearRuntime(fetchInterval: int64, ticker: Option<Ticker>)
    | NetatmoRuntime(fetchInterval: int64, client: Option<Netatmo.Credentials>, ticker: Option<Ticker>)

  function RuntimeOf(m: Module): Runtime
    reads m.Instance()
  {
    match m
    case MqttInstance(mq) => MqttRuntime(mq.subClients)
    case BeeClearInstance(bc) => BeeClearRuntime(bc.fetchInterval, bc.ticker)
    case NetatmoInstance(nm) => NetatmoRuntime(nm.fetchInterval, nm.client, nm.ticker)
  }

  /** Nothing Start creates is there yet: no sub-client list, no API client, no ticker. */
  predicate Idle(r: Runtime) {
    match r
    case MqttRuntime(subClients) => subClients == None
    case BeeClearRuntime(_, ticker) => ticker == None
    case NetatmoRuntime(_, client, ticker) => client == None && ticker == None
  }

  /** The settings of a freshly instantiated module. */
  function ZeroSettings(kind: ModuleKind): ModuleSettings {
    match kind
    case MqttKind => MqttSettings(MqttMod.ZeroSettings)
    case BeeClearKind => BeeClearSettings(BeeClear.ZeroSettings)
    case NetatmoKind => NetatmoSettings(Netatmo.ZeroSettings)
  }

  /** The JSON decoding of each kind's settings; None when json.Unmarshal fails. */
  datatype SettingsCodecs = SettingsCodecs(
    mqtt: RawMessage -> Option<MqttMod.Settings>,
    beeClear: RawMessage -> Option<BeeClear.Settings>,
    netatmo: RawMessage -> Option<Netatmo.Settings>)

  /** The settings SettingsChanged stores for `raw`, or None when it reports an error. */
  function DecodeSettings(kind: ModuleKind, raw: RawMessage, codecs: SettingsCodecs): Option<ModuleSettings>
  {
    match kind
    case MqttKind =>
      (match codecs.mqtt(raw) case None => None case Some(s) => Some(MqttSettings(s)))
    case BeeClearKind =>
      (match codecs.beeClear(raw) case None => None case Some(s) => Some(BeeClearSettings(BeeClear.Normalize(s))))
    case NetatmoKind =>
      (match codecs.netatmo(raw) case None => None case Some(s) => Some(NetatmoSettings(s)))
  }

  /** What a module that was set up and given `raw` holds: the decoded settings, or still the zero ones. */
  function ConfiguredSettings(kind: ModuleKind, raw: RawMessage, codecs: SettingsCodecs): ModuleSettings {
    var d := DecodeSettings(kind, raw, codecs);
    if d.Some? then d.value else ZeroSettings(kind)
  }

  /** The module's base carries its kind's name and description and the given channel. */
  ghost predicate SetUp(m: Module, channel: Channel?)
    reads m.Base()
  {
    && m.Base().name == DisplayName(m.Kind())
    && m.Base().description == DisplayDescription(m.Kind())
    && m.Base().publishChannel == channel
  }

  /** A module with its kind's zero settings, that has not started. */
  ghost predicate Pristine(m: Module)
    reads m.Instance()
  {
    SettingsOf(m) == ZeroSettings(m.Kind()) && Idle(RuntimeOf(m))
  }

  /** reflect.New on the registered type: a fresh module of that kind with every field at its zero value. */
  method NewModule(kind: ModuleKind) returns (m: Module)
    ensures fresh(m.Instance()) && fresh(m.Base())
    ensures m.Kind() == kind && Pristine(m)
    ensures m.Base().name == "" && m.Base().description == "" && m.Base().publishChannel == null
  {
    match kind
    case MqttKind =>
      var mq := new MqttMod.MqttModule();
      m := MqttInstance(mq);
    case BeeClearKind =>
      var bc := new BeeClear.BeeClearModule();
      m := BeeClearInstance(bc);
    case NetatmoKind =>
      var nm := new Netatmo.NetatmoModule();
      m := NetatmoInstance(nm);
  }

  /** ConnectorModule.Setup. */
  method Setup(m: Module)
    modifies m.Objects()
    ensures m.Base().name == DisplayName(m.Kind()) && m.Base().description == DisplayDescription(m.Kind())
    ensures m.Base().publishChannel == old(m.Base().publishChannel)
    ensures SettingsOf(m) == old(SettingsOf(m))
    ensures Pristine(m) == old(Pristine(m))
  {
    match m
    case MqttInstance(mq) => mq.Setup();
    case BeeClearInstance(bc) => bc.Setup();
    case NetatmoInstance(nm) => nm.Setup();
  }

  /** ConnectorModule.SettingsChanged: false when the settings do not decode, which leaves them as they were. */
  method SettingsChanged(m: Module, raw: RawMessage, codecs: SettingsCodecs) returns (ok: bool)
    modifies m.Instance()
    ensures ok <==> DecodeSettings(m.Kind(), raw, codecs).Some?
    ensures SettingsOf(m) == if ok then DecodeSettings(m.Kind(), raw, codecs).value else old(SettingsOf(m))
    ensures RuntimeOf(m) == old(RuntimeOf(m))
  {
    match m
    case MqttInstance(mq) => ok := mq.SettingsChanged(raw, codecs.mqtt);
    case BeeClearInstance(bc) => ok := bc.SettingsChanged(raw, codecs.beeClear);
    case NetatmoInstance(nm) => ok := nm.SettingsChanged(raw, codecs.netatmo);
  }
}
