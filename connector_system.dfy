/**
 * The SensorThings connector system: the registry of module types, the
 * connectors users create from them, their persistence, and the publish
 * client every module's messages go out through.
 */
module ConnectorSystem {
  import opened Wrappers
  import opened Models
  import opened MqttClientBase
  import opened MqttClients
  import opened ModuleRegistry
  import opened Connectors
  import opened ConnectorStore

  /** The errors the system reports; a store error from SetConnectorState is passed on as it is. */
  datatype Error = NotFound | BadRequest | InternalServerError | StoreFailed(cause: DbError)

  /** Keep-alive and ping timeout, in seconds, of the publish client. */
  const PubKeepAliveSeconds := 300
  const PubPingTimeoutSeconds := 20

  /** The settings of the publish broker and client. */
  datatype PubConfig = PubConfig(host: string, qos: byte, clientId: string, username: string, password: string)

  /** What the system observes of a connector: its record, its launches, its module and that module's state. */
  datatype ConnectorView = ConnectorView(
    record: ConnectorRecord,
    launched: seq<Launch>,
    instance: Option<Module>,
    state: Option<ModuleState>)

  ghost function ViewOf(c: ConnectorBase): ConnectorView
    reads c, if c.instance.Some? then c.instance.value.Objects() else {}
  {
    ConnectorView(c.Record(), c.launched, c.instance,
                  if c.instance.Some? then Some(StateOf(c.instance.value)) else None)
  }

  /**
   * A connector in view `v` holds a module of kind `kind`, set up, writing to
   * `channel`, whose settings are what its own settings decode to (the zero
   * settings when they do not decode).
   */
  ghost predicate AttachedView(v: ConnectorView, kind: ModuleKind, channel: Channel, codecs: SettingsCodecs) {
    && v.instance.Some? && v.state.Some?
    && v.instance.value.Kind() == kind
    && v.state.value == ModuleState(DisplayName(kind), DisplayDescription(kind), channel,
                                    ConfiguredSettings(kind, v.record.settings, codecs))
  }

  ghost predicate Attached(c: ConnectorBase, kind: ModuleKind, channel: Channel, codecs: SettingsCodecs)
    reads c, if c.instance.Some? then c.instance.value.Objects() else {}
  {
    AttachedView(ViewOf(c), kind, channel, codecs)
  }

  /** A connector in view `v` was loaded from record `r`: attached, and started exactly when `r` says it was running. */
  ghost predicate LoadedView(v: ConnectorView, r: ConnectorRecord, registry: map<string, ModuleKind>,
                             channel: Channel, codecs: SettingsCodecs) {
    && r.moduleName in registry
    && v.record == r
    && AttachedView(v, registry[r.moduleName], channel, codecs)
    && v.launched == if r.running then [StartLaunched(v.instance.value)] else []
  }

  ghost predicate LoadedFrom(c: ConnectorBase, r: ConnectorRecord, registry: map<string, ModuleKind>,
                             channel: Channel, codecs: SettingsCodecs)
    reads c, if c.instance.Some? then c.instance.value.Objects() else {}
  {
    LoadedView(ViewOf(c), r, registry, channel, codecs)
  }

  /**
   * The connector each id ends up with when the records are loaded in order:
   * the last record with that id whose module is registered.
   */
  function Resolved(records: seq<ConnectorRecord>, registry: map<string, ModuleKind>): (m: map<string, ConnectorRecord>)
    ensures forall id :: id in m ==> m[id].id == id && m[id].moduleName in registry
    decreases |records|
  {
    if records == [] then map[]
    else Resolve(Resolved(records[..|records| - 1], registry), records[|records| - 1], registry)
  }

  /** One step of Resolved: a record with a registered module replaces any under its id. */
  function Resolve(m: map<string, ConnectorRecord>, r: ConnectorRecord, registry: map<string, ModuleKind>)
    : map<string, ConnectorRecord>
  {
    if r.moduleName in registry then m[r.id := r] else m
  }

  /** An id is loaded exactly when some record with that id has a registered module. */
  lemma {:induction false} ResolvedMembership(records: seq<ConnectorRecord>, registry: map<string, ModuleKind>, id: string)
    ensures id in Resolved(records, registry) <==>
      exists i :: 0 <= i < |records| && records[i].id == id && records[i].moduleName in registry
    decreases |records|
  {
    if records != [] {
      var init := records[..|records| - 1];
      ResolvedMembership(init, registry, id);
      if exists i :: 0 <= i < |init| && init[i].id == id && init[i].moduleName in registry {
        var i :| 0 <= i < |init| && init[i].id == id && init[i].moduleName in registry;
        assert records[i] == init[i];
      }
      if exists i :: 0 <= i < |records| && records[i].id == id && records[i].moduleName in registry {
        var i :| 0 <= i < |records| && records[i].id == id && records[i].moduleName in registry;
        if i < |init| {
          assert init[i] == records[i];
        }
      }
    }
  }

  /** A loaded id holds a record that no later record with that id and a registered module follows. */
  lemma {:induction false} ResolvedIsLast(records: seq<ConnectorRecord>, registry: map<string, ModuleKind>, id: string)
    requires id in Resolved(records, registry)
    ensures exists i ::
      && 0 <= i < |records| && records[i] == Resolved(records, registry)[id]
      && (forall j :: i < j < |records| ==> !(records[j].id == id && records[j].moduleName in registry))
    decreases |records|
  {
    var init := records[..|records| - 1];
    var last := records[|records| - 1];
    if last.id == id && last.moduleName in registry {
      assert records[|records| - 1] == Resolved(records, registry)[id];
    } else {
      ResolvedIsLast(init, registry, id);
      var i :| 0 <= i < |init| && init[i] == Resolved(init, registry)[id] &&
        forall j :: i < j < |init| ==> !(init[j].id == id && init[j].moduleName in registry);
      assert records[i] == init[i];
      assert forall j :: i < j < |records| - 1 ==> records[j] == init[j];
    }
  }

  /** A record whose module is not registered is skipped without affecting any other. */
  lemma {:induction false} UnresolvedRecordSkipped(pre: seq<ConnectorRecord>, r: ConnectorRecord,
                                                   post: seq<ConnectorRecord>, registry: map<string, ModuleKind>)
    requires r.moduleName !in registry
    ensures Resolved(pre + [r] + post, registry) == Resolved(pre + post, registry)
    decreases |post|
  {
    if post == [] {
      assert pre + [r] + post == pre + [r];
      assert (pre + [r])[..|pre|] == pre;
      assert pre + post == pre;
    } else {
      var init := post[..|post| - 1];
      UnresolvedRecordSkipped(pre, r, init, registry);
      assert (pre + [r] + post)[..|pre + [r] + post| - 1] == pre + [r] + init;
      assert (pre + post)[..|pre + post| - 1] == pre + init;
    }
  }

  /** SensorThingsConnector. */
  class SensorThingsConnector {
    var typeRegistry: map<string, ModuleKind>
    var connectors: map<string, ConnectorBase>
    var modules: seq<Module>
    const pubChannel: Channel
    const pubClient: PubClient
    const db: Database
    const codecs: SettingsCodecs

    /** Every connector is held under its own id and has its module. */
    ghost predicate Valid()
      reads this, connectors.Values
    {
      forall id :: id in connectors ==> connectors[id].id == id && connectors[id].instance.Some?
    }

    /** CreateSystem: an empty registry and connector map, and a publish client on a new channel. */
    constructor CreateSystem(config: PubConfig, codec: RecordCodec, persisted: Store, codecs: SettingsCodecs)
      ensures Valid()
      ensures typeRegistry == map[] && connectors == map[] && modules == []
      ensures fresh(pubChannel) && pubChannel.queue == []
      ensures fresh(pubClient) && fresh(pubClient.base) && pubClient.base.Valid() && !pubClient.listening
      ensures pubClient.base.Config() == ClientConfig(
        config.qos,
        CreatePahoClient(config.host, config.clientId, config.username, config.password,
                         PubKeepAliveSeconds, PubPingTimeoutSeconds),
        config.host, config.username, config.password, pubChannel)
      ensures fresh(db) && !db.open && db.store == persisted && db.codec == codec
      ensures this.codecs == codecs
    {
      typeRegistry := map[];
      connectors := map[];
      modules := [];
      var channel := new Channel();
      pubChannel := channel;
      pubClient := new PubClient.CreatePubClient(config.host, config.qos, config.clientId, channel,
                                                 config.username, config.password,
                                                 PubKeepAliveSeconds, PubPingTimeoutSeconds);
      db := new Database(codec, persisted);
      this.codecs := codecs;
    }

    /** AddModule: set the module up, keep it, and register its kind under the name Setup gave it. */
    method AddModule(m: Module)
      modifies this, m.Objects()
      ensures modules == old(modules) + [m]
      ensures typeRegistry == Register(old(typeRegistry), [m.Kind()])
      ensures DisplayName(m.Kind()) in typeRegistry && typeRegistry[DisplayName(m.Kind())] == m.Kind()
      ensures m.Base().name == DisplayName(m.Kind()) && m.Base().description == DisplayDescription(m.Kind())
      ensures connectors == old(connectors)
    {
      Setup(m);
      modules := modules + [m];
      typeRegistry := typeRegistry[m.Base().name := m.Kind()];
    }

    /** GetConnectors: every connector once, in the order `order` visits the map. */
    method GetConnectors(order: seq<string>) returns (cs: seq<ConnectorBase>)
      requires IsEnumeration(order, connectors.Keys)
      ensures |cs| == |connectors| == |order|
      ensures forall i :: 0 <= i < |cs| ==> cs[i] == connectors[order[i]]
      ensures forall c :: c in cs <==> c in connectors.Values
    {
      EnumerationSize(order, connectors.Keys);
      cs := [];
      var i := 0;
      while i < |order|
        invariant 0 <= i <= |order|
        invariant |cs| == i
        invariant forall j :: 0 <= j < i ==> cs[j] == connectors[order[j]]
      {
        cs := cs + [connectors[order[i]]];
        i := i + 1;
      }
      forall c | c in connectors.Values
        ensures c in cs
      {
        var id :| id in connectors && connectors[id] == c;
        var j :| 0 <= j < |order| && order[j] == id;
        assert cs[j] == c;
      }
    }

    /** checkConnectorExist. */
    method CheckConnectorExist(id: string) returns (exist: bool, err: Option<Error>)
      ensures exist <==> id in connectors
      ensures err == if exist then None else Some(NotFound)
    {
      if id !in connectors {
        return false, Some(NotFound);
      }
      return true, None;
    }

    method GetConnector(id: string) returns (c: ConnectorBase?, err: Option<Error>)
      ensures id in connectors ==> c == connectors[id] && err == None
      ensures id !in connectors ==> c == null && err == Some(NotFound)
    {
      var exist;
      exist, err := CheckConnectorExist(id);
      if !exist {
        return null, err;
      }
      c := connectors[id];
    }

    /**
     * setupConnector: when the connector's module name is registered, a fresh
     * module of that kind, set up and given the system channel, is attached.
     */
    method SetupConnector(connector: ConnectorBase) returns (ok: bool)
      modifies connector
      ensures ok <==> connector.moduleName in typeRegistry
      ensures connector.Record() == old(connector.Record()) && connector.launched == old(connector.launched)
      ensures !ok ==> connector.instance == old(connector.instance)
      ensures ok ==> connector.instance.Some?
      ensures ok ==>
        var m := connector.instance.value;
        && fresh(m.Instance()) && fresh(m.Base())
        && m.Kind() == typeRegistry[connector.moduleName]
        && SetUp(m, pubChannel) && Pristine(m)
    {
      if connector.moduleName !in typeRegistry {
        return false;
      }
      var m := NewModule(typeRegistry[connector.moduleName]);
      Setup(m);
      m.Base().SetPublishChannel(pubChannel);
      connector.instance := Some(m);
      ok := true;
    }

    /** Resolve a connector's module and hand it the connector's settings, ignoring a decoding error. */
    method Configure(connector: ConnectorBase) returns (ok: bool)
      modifies connector
      ensures ok <==> connector.moduleName in typeRegistry
      ensures connector.Record() == old(connector.Record()) && connector.launched == old(connector.launched)
      ensures !ok ==> connector.instance == old(connector.instance)
      ensures ok ==>
        && connector.instance.Some?
        && fresh(connector.instance.value.Instance()) && fresh(connector.instance.value.Base())
        && Attached(connector, typeRegistry[connector.moduleName], pubChannel, codecs)
        && Idle(RuntimeOf(connector.instance.value))
    {
      ok := SetupConnector(connector);
      if ok {
        var m := connector.instance.value;
        var decoded := SettingsChanged(m, connector.settings, codecs);
      }
    }

    /**
     * CreateConnector: the connector gets the new id and is persisted first;
     * only then is its module resolved. It is not started.
     */
    method CreateConnector(connector: ConnectorBase, newId: string) returns (c: ConnectorBase?, err: Option<Error>)
      requires Valid() && connector !in connectors.Values
      modifies this, db, connector
      ensures Valid()
      ensures typeRegistry == old(typeRegistry) && modules == old(modules)
      ensures connector.Record() == old(connector.Record()).(id := newId)
      ensures connector.launched == old(connector.launched)
      ensures db.open == old(db.open)
      ensures db.store == Insert(old(db.open), old(db.store), db.codec, connector.Record()).store
      ensures Insert(old(db.open), old(db.store), db.codec, connector.Record()).err.Some? ==>
        c == null && err == Some(InternalServerError) && connectors == old(connectors)
      ensures Insert(old(db.open), old(db.store), db.codec, connector.Record()).err.None? &&
              connector.moduleName !in typeRegistry ==>
        c == null && err == Some(InternalServerError) && connectors == old(connectors)
      ensures Insert(old(db.open), old(db.store), db.codec, connector.Record()).err.None? &&
              connector.moduleName in typeRegistry ==>
        && c == connector && err == None
        && connectors == old(connectors)[newId := connector]
        && connector.instance.Some? && fresh(connector.instance.value.Instance())
        && Attached(connector, typeRegistry[connector.moduleName], pubChannel, codecs)
    {
      connector.id := newId;
      var dbErr := db.InsertConnector(connector.Record());
      if dbErr.Some? {
        return null, Some(InternalServerError);
      }
      var ok := Configure(connector);
      if !ok {
        return null, Some(InternalServerError);
      }
      connectors := connectors[newId := connector];
      c, err := connector, None;
    }

    /** SetConnectorState: start or stop the connector, then save its state. */
    method SetConnectorState(id: string, running: bool) returns (err: Option<Error>)
      requires Valid()
      modifies db, if id in connectors then {connectors[id]} else {}
      ensures Valid()
      ensures id !in connectors ==> err == Some(NotFound) && db.store == old(db.store)
      ensures id in connectors ==>
        var c := connectors[id];
        && c.Record() == (if running then Started(old(c.Record())) else Stopped(old(c.Record())))
        && c.instance == old(c.instance)
        && c.launched == old(c.launched) +
             [if running then StartLaunched(c.instance.value) else StopLaunched(c.instance.value)]
      ensures id in connectors ==>
        var o := SaveState(old(db.open), old(db.store), db.codec, id, running);
        db.store == o.store && err == if o.err.None? then None else Some(StoreFailed(o.err.value))
      ensures db.open == old(db.open)
    {
      var exist;
      exist, err := CheckConnectorExist(id);
      if !exist {
        return err;
      }
      var c := connectors[id];
      if running {
        c.Start();
      } else {
        c.Stop();
      }
      var dbErr := db.SaveConnectorState(id, running);
      err := if dbErr.None? then None else Some(StoreFailed(dbErr.value));
    }

    /**
     * PatchConnector: the new connector keeps the id and the running state of
     * the one it replaces; the old one is stopped only once the new one is
     * set up, configured and persisted.
     */
    method PatchConnector(id: string, connector: ConnectorBase) returns (c: ConnectorBase?, err: Option<Error>)
      requires Valid() && connector !in connectors.Values
      modifies this, db, connector, if id in connectors then {connectors[id]} else {}
      ensures Valid()
      ensures typeRegistry == old(typeRegistry) && modules == old(modules) && db.open == old(db.open)
      ensures id !in old(connectors) ==>
        c == null && err == Some(NotFound) && connectors == old(connectors) && db.store == old(db.store) &&
        connector.Record() == old(connector.Record()) && connector.instance == old(connector.instance)
      ensures id in old(connectors) ==>
        connector.Record() == old(connector.Record()).(id := id, running := old(connectors[id].running))
      ensures id in old(connectors) && connector.moduleName !in typeRegistry ==>
        c == connector && err == Some(InternalServerError) &&
        connectors == old(connectors) && db.store == old(db.store) && unchanged(old(connectors)[id])
      ensures id in old(connectors) && connector.moduleName in typeRegistry &&
              DecodeSettings(typeRegistry[connector.moduleName], connector.settings, codecs).None? ==>
        c == null && err == Some(BadRequest) &&
        connectors == old(connectors) && db.store == old(db.store) && unchanged(old(connectors)[id])
      ensures id in old(connectors) && connector.moduleName in typeRegistry &&
              DecodeSettings(typeRegistry[connector.moduleName], connector.settings, codecs).Some? ==>
        var ins := Insert(old(db.open), old(db.store), db.codec, connector.Record());
        && db.store == ins.store
        && (ins.err.Some? ==>
              c == connector && err == Some(InternalServerError) &&
              connectors == old(connectors) && unchanged(old(connectors)[id]))
        && (ins.err.None? ==>
              var prev := old(connectors)[id];
              && c == connector && err == None
              && connectors == old(connectors)[id := connector]
              && prev.instance == old(prev.instance) && prev.instance.Some?
              && prev.Record() == Stopped(old(prev.Record()))
              && prev.launched == old(prev.launched) + [StopLaunched(prev.instance.value)]
              && Attached(connector, typeRegistry[connector.moduleName], pubChannel, codecs)
              && connector.launched == old(connector.launched) +
                   if connector.running then [StartLaunched(connector.instance.value)] else [])
    {
      var exist;
      exist, err := CheckConnectorExist(id);
      if !exist {
        return null, err;
      }
      err := Prepare(connector, id, connectors[id].running);
      if err == Some(InternalServerError) {
        return connector, err;
      } else if err.Some? {
        return null, err;
      }
      c, err := Commit(id, connector, typeRegistry[connector.moduleName]);
    }

    /**
     * The first steps of PatchConnector: the new connector takes the id and the
     * running state of the old one, then its module is resolved, set up and
     * handed its settings; a decoding error is a bad request.
     */
    method Prepare(connector: ConnectorBase, id: string, running: bool) returns (err: Option<Error>)
      modifies connector
      ensures connector.Record() == old(connector.Record()).(id := id, running := running)
      ensures connector.launched == old(connector.launched)
      ensures connector.moduleName !in typeRegistry ==>
        err == Some(InternalServerError) && connector.instance == old(connector.instance)
      ensures connector.moduleName in typeRegistry ==>
        && connector.instance.Some?
        && fresh(connector.instance.value.Instance()) && fresh(connector.instance.value.Base())
        && Idle(RuntimeOf(connector.instance.value))
      ensures connector.moduleName in typeRegistry &&
              DecodeSettings(typeRegistry[connector.moduleName], connector.settings, codecs).None? ==>
        err == Some(BadRequest)
      ensures connector.moduleName in typeRegistry &&
              DecodeSettings(typeRegistry[connector.moduleName], connector.settings, codecs).Some? ==>
        err == None && Attached(connector, typeRegistry[connector.moduleName], pubChannel, codecs)
    {
      connector.id := id;
      connector.running := running;
      var ok := SetupConnector(connector);
      if !ok {
        return Some(InternalServerError);
      }
      var settingsOk := SettingsChanged(connector.instance.value, connector.settings, codecs);
      if !settingsOk {
        return Some(BadRequest);
      }
      err := None;
    }

    /**
     * The last step of PatchConnector: persist the new connector, then swap it
     * in for the old one.
     */
    method Commit(id: string, connector: ConnectorBase, ghost kind: ModuleKind) returns (c: ConnectorBase?, err: Option<Error>)
      requires Valid() && id in connectors && connector !in connectors.Values
      requires connector.id == id && Attached(connector, kind, pubChannel, codecs)
      modifies this, db, connector, connectors[id]
      ensures Valid()
      ensures Attached(connector, kind, pubChannel, codecs)
      ensures typeRegistry == old(typeRegistry) && modules == old(modules) && db.open == old(db.open)
      ensures connector.instance == old(connector.instance)
      ensures connector.settings == old(connector.settings) && connector.Record() == old(connector.Record())
      ensures var ins := Insert(old(db.open), old(db.store), db.codec, connector.Record());
        && db.store == ins.store
        && c == connector
        && (ins.err.Some? ==>
              err == Some(InternalServerError) && connectors == old(connectors) &&
              unchanged(old(connectors)[id]) && connector.launched == old(connector.launched))
        && (ins.err.None? ==>
              var prev := old(connectors)[id];
              && err == None
              && connectors == old(connectors)[id := connector]
              && prev.instance == old(prev.instance) && prev.instance.Some?
              && prev.Record() == Stopped(old(prev.Record()))
              && prev.launched == old(prev.launched) + [StopLaunched(prev.instance.value)]
              && connector.launched == old(connector.launched) +
                   if connector.running then [StartLaunched(connector.instance.value)] else [])
    {
      var dbErr := db.InsertConnector(connector.Record());
      if dbErr.Some? {
        return connector, Some(InternalServerError);
      }
      SwapIn(id, connector, kind);
      c, err := connector, None;
    }

    /** Stop the old connector, put the new one in its place and start it when it runs. */
    method SwapIn(id: string, connector: ConnectorBase, ghost kind: ModuleKind)
      requires Valid() && id in connectors && connector !in connectors.Values
      requires connector.id == id && Attached(connector, kind, pubChannel, codecs)
      modifies this, connector, connectors[id]
      ensures Valid()
      ensures Attached(connector, kind, pubChannel, codecs)
      ensures typeRegistry == old(typeRegistry) && modules == old(modules)
      ensures connector.instance == old(connector.instance) && connector.Record() == old(connector.Record())
      ensures var prev := old(connectors)[id];
        && connectors == old(connectors)[id := connector]
        && prev.instance == old(prev.instance) && prev.instance.Some?
        && prev.Record() == Stopped(old(prev.Record()))
        && prev.launched == old(prev.launched) + [StopLaunched(prev.instance.value)]
        && connector.launched == old(connector.launched) +
             if connector.running then [StartLaunched(connector.instance.value)] else []
    {
      ghost var m := connector.instance.value;
      ghost var st := StateOf(m);
      NotModuleObject(m);
      OutsideModule(m, connector, connectors[id], db);
      var prev := connectors[id];
      prev.Stop();
      connectors := connectors[id := connector];
      if connector.running {
        connector.Start();
      }
      assert StateOf(m) == st;
    }

    /** DeleteConnector: stop it if it runs, forget it, and delete it from the store, ignoring a store error. */
    method DeleteConnector(id: string) returns (err: Option<Error>)
      requires Valid()
      modifies this, db, if id in connectors then {connectors[id]} else {}
      ensures Valid()
      ensures typeRegistry == old(typeRegistry) && modules == old(modules) && db.open == old(db.open)
      ensures id !in old(connectors) ==>
        err == Some(NotFound) && connectors == old(connectors) && db.store == old(db.store)
      ensures id in old(connectors) ==>
        var prev := old(connectors)[id];
        && err == None
        && connectors == old(connectors) - {id}
        && db.store == Delete(old(db.open), old(db.store), id).store
        && prev.instance == old(prev.instance)
        && prev.Record() == (if old(prev.running) then Stopped(old(prev.Record())) else old(prev.Record()))
        && prev.launched == old(prev.launched) + if old(prev.running) then [StopLaunched(prev.instance.value)] else []
    {
      var exist;
      exist, err := CheckConnectorExist(id);
      if !exist {
        return err;
      }
      var prev := connectors[id];
      if prev.running {
        prev.Stop();
      }
      connectors := connectors - {id};
      var dbErr := db.DeleteConnector(id);
      err := None;
    }

    /** One record of the load loop: a new connector, configured and started as the record says; null when its module is unknown. */
    method Instantiate(r: ConnectorRecord) returns (con: ConnectorBase?)
      ensures con == null <==> r.moduleName !in typeRegistry
      ensures con != null ==>
        && fresh(con) && con.instance.Some? && fresh(con.instance.value.Instance()) && fresh(con.instance.value.Base())
        && LoadedFrom(con, r, typeRegistry, pubChannel, codecs)
    {
      con := new ConnectorBase.FromRecord(r);
      var ok := Configure(con);
      if !ok {
        return null;
      }
      if con.running {
        con.Start();
      }
    }

    /** Connectors and the database are none of a module's objects. */
    static lemma OutsideModule(m: Module, c: ConnectorBase, prev: ConnectorBase, d: Database)
      ensures c !in m.Objects() && prev !in m.Objects() && d !in m.Objects()
    {
      match m
      case MqttInstance(mq) =>
      case BeeClearInstance(bc) =>
      case NetatmoInstance(nm) =>
    }

    /** The system is none of a module's objects. */
    lemma NotModuleObject(m: Module)
      ensures this !in m.Objects()
    {
      match m
      case MqttInstance(mq) =>
      case BeeClearInstance(bc) =>
      case NetatmoInstance(nm) =>
    }

    /**
     * One record of the load loop: its connector, when its module is known,
     * replaces any loaded earlier under the same id.
     */
    method LoadRecord(r: ConnectorRecord, loaded: map<string, ConnectorBase>, ghost resolved: map<string, ConnectorRecord>)
      returns (loaded': map<string, ConnectorBase>)
      requires loaded.Keys == resolved.Keys
      requires forall id :: id in loaded ==> LoadedFrom(loaded[id], resolved[id], typeRegistry, pubChannel, codecs)
      ensures loaded'.Keys == Resolve(resolved, r, typeRegistry).Keys
      ensures forall id :: id in loaded' ==>
        LoadedFrom(loaded'[id], Resolve(resolved, r, typeRegistry)[id], typeRegistry, pubChannel, codecs)
      ensures forall id :: id in loaded' ==> (id in loaded && loaded'[id] == loaded[id]) || fresh(loaded'[id])
    {
      var con := Instantiate(r);
      forall id | id in loaded
        ensures LoadedFrom(loaded[id], resolved[id], typeRegistry, pubChannel, codecs)
      {
        var m := loaded[id].instance.value;
        assert old(allocated(m.Instance()) && allocated(m.Base()));
      }
      if con == null {
        return loaded;
      }
      loaded' := loaded[con.id := con];
    }

    /**
     * The load loop of Start: each record whose module is registered becomes a
     * connector under its id (a later record with the same id replacing an
     * earlier one), configured and started when it was running; the others are
     * skipped. The loop builds the loaded connectors and adds them to the map at
     * the end; nothing reads the map while the records are loaded.
     */
    method LoadConnectors(records: seq<ConnectorRecord>)
      requires Valid()
      modifies this
      ensures Valid()
      ensures typeRegistry == old(typeRegistry) && modules == old(modules)
      ensures connectors.Keys == old(connectors).Keys + Resolved(records, typeRegistry).Keys
      ensures forall id :: id in connectors && id !in Resolved(records, typeRegistry) ==>
        connectors[id] == old(connectors)[id]
      ensures forall id :: id in Resolved(records, typeRegistry) ==>
        fresh(connectors[id]) &&
        LoadedFrom(connectors[id], Resolved(records, typeRegistry)[id], typeRegistry, pubChannel, codecs)
    {
      var loaded := LoadAll(records);
      AddLoaded(loaded, Resolved(records, typeRegistry));
    }

    /** The load loop: a new connector for each record whose module is registered, the last one per id kept. */
    method LoadAll(records: seq<ConnectorRecord>) returns (loaded: map<string, ConnectorBase>)
      ensures loaded.Keys == Resolved(records, typeRegistry).Keys
      ensures forall id :: id in loaded ==> fresh(loaded[id])
      ensures forall id :: id in loaded ==>
        LoadedFrom(loaded[id], Resolved(records, typeRegistry)[id], typeRegistry, pubChannel, codecs)
    {
      ghost var resolved: map<string, ConnectorRecord> := map[];
      loaded := map[];
      var i := 0;
      while i < |records|
        invariant 0 <= i <= |records|
        invariant resolved == Resolved(records[..i], typeRegistry)
        invariant loaded.Keys == resolved.Keys
        invariant forall id :: id in loaded ==> fresh(loaded[id])
        invariant forall id :: id in loaded ==> LoadedFrom(loaded[id], resolved[id], typeRegistry, pubChannel, codecs)
      {
        assert records[..i + 1][..i] == records[..i];
        loaded := LoadRecord(records[i], loaded, resolved);
        resolved := Resolve(resolved, records[i], typeRegistry);
        i := i + 1;
      }
      assert records[..i] == records;
    }

    /** Put the loaded connectors in the map, replacing any under the same ids. */
    method AddLoaded(loaded: map<string, ConnectorBase>, ghost resolved: map<string, ConnectorRecord>)
      requires Valid()
      requires loaded.Keys == resolved.Keys
      requires forall id :: id in resolved ==> resolved[id].id == id
      requires forall id :: id in loaded ==> LoadedFrom(loaded[id], resolved[id], typeRegistry, pubChannel, codecs)
      modifies this
      ensures Valid()
      ensures typeRegistry == old(typeRegistry) && modules == old(modules)
      ensures connectors == old(connectors) + loaded
      ensures forall id :: id in loaded ==> LoadedFrom(loaded[id], resolved[id], typeRegistry, pubChannel, codecs)
    {
      connectors := connectors + loaded;
      forall id | id in loaded
        ensures LoadedFrom(loaded[id], resolved[id], typeRegistry, pubChannel, codecs)
      {
        NotModuleObject(loaded[id].instance.value);
      }
    }

    /**
     * Start: start the publish client, open the store and load every stored
     * connector; `order` is the order in which the store's cursor visits the keys.
     */
    method Start(connectOk: bool, order: seq<string>)
      requires Valid() && pubClient.base.Valid()
      requires IsEnumeration(order, db.store.Keys)
      modifies this, db, pubClient, pubClient.base
      ensures Valid()
      ensures pubClient.listening && pubClient.base.Valid()
      ensures pubClient.base.calls == old(pubClient.base.calls) + [ClientCall.Connect]
      ensures pubClient.base.State() == AfterConnect(old(pubClient.base.State()), connectOk)
      ensures db.open && db.store == old(db.store)
      ensures var loaded := Resolved(Loaded(order, db.store, db.codec.decode), typeRegistry);
        && connectors.Keys == old(connectors).Keys + loaded.Keys
        && (forall id :: id in connectors && id !in loaded ==> connectors[id] == old(connectors)[id])
        && (forall id :: id in loaded ==>
              fresh(connectors[id]) && LoadedFrom(connectors[id], loaded[id], typeRegistry, pubChannel, codecs))
    {
      pubClient.Start(connectOk);
      db.Open();
      var err, records := db.GetConnectors(order);
      if err.None? {
        LoadConnectors(records);
      }
    }
  }
}
