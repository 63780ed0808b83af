/**
 * A connector: a user-created, persisted configuration of one module, with the
 * module instance that runs it.
 */
module Connectors {
  import opened Wrappers
  import opened Models
  import opened ModuleRegistry

  /**
   * A goroutine launched on the connector's module. Start and Stop run the
   * module's own Start and Stop concurrently, so the connector only records
   * that they were launched.
   */
  datatype Launch = StartLaunched(m: Module) | StopLaunched(m: Module)

  /** ConnectorBase; its Module field is `instance`, None while Go's interface value is nil. */
  class ConnectorBase {
    var id: string
    var name: string
    var description: string
    var moduleName: string
    var running: bool
    var settings: RawMessage
    var instance: Option<Module>
    /** The module goroutines launched so far, oldest first. */
    ghost var launched: seq<Launch>

    /** A connector as decoded from JSON: the record's fields, no module, nothing launched. */
    constructor FromRecord(r: ConnectorRecord)
      ensures Record() == r && instance == None && launched == []
    {
      id := r.id;
      name := r.name;
      description := r.description;
      moduleName := r.moduleName;
      running := r.running;
      settings := r.settings;
      instance := None;
      launched := [];
    }

    /** The fields that are serialized: everything but the module. */
    function Record(): ConnectorRecord
      reads this
    {
      ConnectorRecord(id, name, description, moduleName, running, settings)
    }

    function GetID(): (r: string)
      reads this
      ensures r == Record().id
    {
      id
    }

    function GetName(): (r: string)
      reads this
      ensures r == Record().name
    {
      name
    }

    function GetModuleName(): (r: string)
      reads this
      ensures r == Record().moduleName
    {
      moduleName
    }

    function GetDescription(): (r: string)
      reads this
      ensures r == Record().description
    {
      description
    }

    function GetSettings(): (r: RawMessage)
      reads this
      ensures r == Record().settings
    {
      settings
    }

    function GetIsRunning(): (r: bool)
      reads this
      ensures r == Record().running
    {
      running
    }

    function GetModule(): (r: Option<Module>)
      reads this
      ensures r == instance
    {
      instance
    }

    /** Start: launch the module's Start and mark the connector as running, whatever it was. */
    method Start()
      requires instance.Some?
      modifies this
      ensures running
      ensures Record() == Started(old(Record()))
      ensures instance == old(instance)
      ensures launched == old(launched) + [StartLaunched(instance.value)]
    {
      launched := launched + [StartLaunched(instance.value)];
      running := true;
    }

    /** Stop: launch the module's Stop and mark the connector as not running, whatever it was. */
    method Stop()
      requires instance.Some?
      modifies this
      ensures !running
      ensures Record() == Stopped(old(Record()))
      ensures instance == old(instance)
      ensures launched == old(launched) + [StopLaunched(instance.value)]
    {
      launched := launched + [StopLaunched(instance.value)];
      running := false;
    }
  }

  /** Start on a record: what it leaves of the serialized fields. */
  function Started(r: ConnectorRecord): (t: ConnectorRecord)
    ensures t.running
    ensures t.(running := r.running) == r
  {
    r.(running := true)
  }

  /** Stop on a record: what it leaves of the serialized fields. */
  function Stopped(r: ConnectorRecord): (t: ConnectorRecord)
    ensures !t.running
    ensures t.(running := r.running) == r
  {
    r.(running := false)
  }

  /** Starting twice leaves the same record as starting once, and likewise for stopping. */
  lemma StartStopIdempotent(r: ConnectorRecord)
    ensures Started(Started(r)) == Started(r)
    ensures Stopped(Stopped(r)) == Stopped(r)
    ensures Started(Stopped(r)) == Started(r) && Stopped(Started(r)) == Stopped(r)
  {
  }
}
