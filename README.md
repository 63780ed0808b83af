# SensorThings connector — a Dafny model

This project models the core of the SensorThings connector. The connector is a
Go service that lets users create *connectors*. Each connector is a persisted
configuration of one *module* (MQTT, BeeClear or Netatmo). A running module
produces SensorThings Observations (OGC 15-078r6, section 8.2.7) and hands
them to a shared delivery channel. A publish client drains that channel
towards an outbound MQTT broker.

The model covers:

- **The orchestrator** (`ConnectorSystem.SensorThingsConnector`). It holds the
  type registry, the `connectors` map, the module list and the store. It
  models AddModule, GetConnectors, GetConnector, CreateConnector,
  SetConnectorState, PatchConnector, DeleteConnector, checkConnectorExist,
  setupConnector and the load loop of Start.
- **The connector** (`Connectors.ConnectorBase`). This covers its getters,
  and Start/Stop, which set the running flag and launch the module's own
  Start/Stop as a goroutine. The launch is recorded in a log.
- **The connector store** (`ConnectorStore`). This is the bolt bucket as a
  map from id to bytes, guarded by the `open` flag, with Open, Close,
  InsertConnector, GetConnectors, DeleteConnector and SaveConnectorState.
- **The MQTT client base** (`MqttClientBase`). This covers the client
  options and their credential rule, the `Connecting` flag and its retry
  supervision as a state machine, and Stop.
- **The subscription client** (`MqttClients.SubClient`). This covers
  one subscription per stream, and the payload-to-Observation transform of
  handleIncomingMessage, including the type assertions that panic.
- **The publish client** (`MqttClients.PubClient`). This covers one listen
  iteration: take a message, then drop it while connecting or publish it
  otherwise.
- **The three modules** (`MqttMod`, `BeeClear`, `Netatmo`). This covers
  their Setup, SettingsChanged, Start and Stop, the interval default with
  Go's `time.Duration` arithmetic, BeeClear's trailing-slash strip and
  mapping filter, and Netatmo's credential guard and module/mapping/data-type
  join.
- **The module registry** (`ModuleRegistry`). It joins the three module types
  behind the ConnectorModule interface.

Everything foreign is an oracle passed in as a parameter:

- JSON encoding and decoding (`RecordCodec`, `SettingsCodecs`, `Option`
  payloads, `marshal`);
- `strconv.ParseFloat` (`parseFloat`);
- whether the broker accepts a connection (`connectOk`) and whether the
  Netatmo API client can be created (`clientOk`). A refused subscription is
  only logged, so its outcome is not modelled;
- the HTTP fetch of BeeClear usage (`fetch`);
- RFC 3339 time formatting (`formatTime`);
- `RandomString(8)` (`newId`);
- the order in which Go visits a map or the bolt cursor visits its keys
  (`order`, an `IsEnumeration` of the keys).

## Model

| member | source | states |
|---|---|---|
| Models.ModuleBase.GetName | src/connector/models/connector.go:24-26 | returns the stored module name |
| Models.ModuleBase.GetDescription | src/connector/models/connector.go:29-31 | returns the stored module description |
| Models.ModuleBase.SetPublishChannel | src/connector/models/connector.go:35-37 | stores exactly the given channel and leaves name and description alone |
| Models.EffectiveInterval | src/connector/modules/beeclear/beeclear_module.go:70-73 | the configured interval when it is non-zero, the module default when it is 0 (Netatmo's run, lines 85-88 of its file, uses the same rule) |
| Models.TickerPeriod | src/connector/modules/beeclear/beeclear_module.go:75 | `time.Second * interval` is the exact nanosecond count, and positive, for intervals from 1 to 9223372036 s; intervals from -9223372036 to 0 s give a non-positive period. Further out the int64 product wraps around, and its sign is not stated |
| Models.NewTicker | src/connector/modules/beeclear/beeclear_module.go:75 | a ticker exists exactly when the period is positive (time.NewTicker panics otherwise) |
| MqttClientBase.CreatePahoClient | src/mqtt.go:75-93 | broker, client id, keep-alive and ping timeout as given, auto-reconnect on; credentials set iff both username and password are non-empty |
| MqttClientBase.AfterConnect | src/mqtt.go:47-54 | a successful connect changes nothing; a failure while not connecting starts exactly one retry procedure and sets Connecting; a failure while connecting starts none |
| MqttClientBase.AfterTick | src/mqtt.go:64-70 | a tick that finds the client connected stops the ticker and clears Connecting; otherwise the state is unchanged; no retry procedure is started |
| MqttClientBase.RunSupervised | src/mqtt.go:47-72 | under any sequence of connects and ticks, a retry ticker runs exactly while Connecting is set |
| MqttClientBase.ConnectingUntilTickConnects | src/mqtt.go:58-72 | once connecting, nothing changes (no new retry procedure, Connecting stays set) until a tick finds the client connected |
| MqttClientBase.RetriesOnlyOnFailures | src/mqtt.go:47-61 | the number of retry procedures started grows by at most the number of failed connects |
| MqttClientBase.ClientBase.SetClientBase | src/mqtt.go:31-39 | stores qos, host, username, password and channel, builds the options, and starts with Connecting false and no calls |
| MqttClientBase.ClientBase.Stop | src/mqtt.go:42-44 | disconnects with the fixed 500 ms grace period and changes nothing else |
| MqttClientBase.ClientBase.Connect | src/mqtt.go:47-54 | one connect call; the new flag state is AfterConnect of the old one; supervision is kept |
| MqttClientBase.ClientBase.RetryConnect | src/mqtt.go:58-62 | sets Connecting, starts the retry ticker and counts one more retry procedure |
| MqttClientBase.ClientBase.RetryTick | src/mqtt.go:64-70 | one connect call; the new state is AfterTick of the old one |
| MqttClientBase.ClientBase.Subscribe | src/connector/mqtt/subclient.go:36-40 | one subscribe call with the client's QoS |
| MqttClientBase.ClientBase.Publish | src/connector/mqtt/pubclient.go:40-41 | one publish call with the client's QoS |
| MqttClients.LastTarget | src/connector/mqtt/subclient.go:59-81 | the last visited key that is in the payload and mapped to the field; no later key is |
| MqttClients.ResultValue | src/connector/mqtt/subclient.go:65-74 | the parsed float when ToFloat is set and the string parses; the raw value otherwise |
| MqttClients.Transform | src/connector/mqtt/subclient.go:47-85 | an empty mapping or an undecodable payload emits nothing; a panic iff some mapped key present in the payload fails its string assertion; otherwise exactly one message is emitted, to outgoingTopic, carrying the Observation that Observe builds (result and phenomenonTime from the last visited key writing each, every other field at its zero value) |
| MqttClients.BuildObservation | src/connector/mqtt/subclient.go:58-82 | the mapping loop panics iff some present mapped value fails its assertion; otherwise it builds exactly the Observation the last writers determine |
| MqttClients.UnmappedFieldIgnored | src/connector/mqtt/subclient.go:59-61 | a payload field the mapping does not mention changes nothing |
| MqttClients.OtherTargetIgnored | src/connector/mqtt/subclient.go:62-80 | a field mapped to a target other than result and phenomenonTime changes nothing |
| MqttClients.ObserveOrderIndependent | src/connector/mqtt/subclient.go:59 | when at most one present field writes each target, the map iteration order does not change the Observation |
| MqttClients.FloatCoercionExample | src/connector/mqtt/subclient.go:65-71 | "12.5" becomes the number 12.5; "abc" is passed on as the string |
| MqttClients.Subscriptions | src/connector/mqtt/subclient.go:33-42 | one subscription per stream, in order, on its incoming topic with the client's QoS |
| MqttClients.SubClient.CreateSubClient | src/connector/mqtt/subclient.go:21-26 | the base is configured by SetClientBase and the streams are stored |
| MqttClients.SubClient.Start | src/connector/mqtt/subclient.go:29-43 | connects first, then subscribes to every stream whatever the broker answers |
| MqttClients.SubClient.HandleIncomingMessage | src/connector/mqtt/subclient.go:47-85 | the outcome is Transform of the payload, and the channel gains exactly the emitted message |
| MqttClients.Published | src/connector/mqtt/pubclient.go:35-41 | one publish per message, to its topic, with the client's QoS, not retained, carrying the marshalled Observation (empty when marshalling failed) |
| MqttClients.TakeStep | src/connector/mqtt/pubclient.go:33-42 | one listen iteration removes exactly the head of the channel; while connecting nothing is published |
| MqttClients.NoPublishWhileConnecting | src/connector/mqtt/pubclient.go:33-42 | while connecting and no tick finds a connection, no publish call is made and the channel only loses its head messages |
| MqttClients.ResumesOnceConnected | src/connector/mqtt/pubclient.go:33-42 | after a tick finds the client connected, the next message taken is published |
| MqttClients.DrainWhileConnected | src/connector/mqtt/pubclient.go:33-42 | draining the channel while connected publishes every message in channel order |
| MqttClients.PubClient.CreatePubClient | src/connector/mqtt/pubclient.go:17-21 | all fields are set up by SetClientBase |
| MqttClients.PubClient.Start | src/connector/mqtt/pubclient.go:24-28 | launches connect and the listen loop |
| MqttClients.PubClient.ListenStep | src/connector/mqtt/pubclient.go:31-44 | the client and channel after one iteration are TakeStep of those before |
| MqttMod.StartSubClient | src/connector/modules/mqtt/mqtt_module.go:34-36 | a fresh sub-client for the broker with keep-alive 300 and ping timeout 20, started |
| MqttMod.StartedViewMeans | src/connector/modules/mqtt/mqtt_module.go:34-35 | a started sub-client keeps its streams, QoS and channel, has keep-alive 300 and ping timeout 20, credentials iff both username and password are set, is connecting (with one retry procedure) iff the connect failed, and issued Connect followed by one Subscribe per stream in order |
| MqttMod.StartSubClients | src/connector/modules/mqtt/mqtt_module.go:33-38 | one fresh sub-client per broker, in order, with pairwise distinct client bases, each started with its own connect outcome |
| MqttMod.MqttModule.Setup | src/connector/modules/mqtt/mqtt_module.go:25-28 | name "MQTT" and the fixed description |
| MqttMod.MqttModule.SettingsChanged | src/connector/modules/mqtt/mqtt_module.go:53-61 | reports an error and keeps the settings when they do not decode; replaces them otherwise |
| MqttMod.MqttModule.Start | src/connector/modules/mqtt/mqtt_module.go:31-39 | a new list of fresh sub-clients, one per broker and in order, each built with 300/20 and started |
| MqttMod.MqttModule.Stop | src/connector/modules/mqtt/mqtt_module.go:42-50 | nothing before the first Start; afterwards every sub-client disconnects once |
| BeeClear.StripTrailingSlash | src/connector/modules/beeclear/beeclear_module.go:61-63 | removes one '/' exactly when the host ends with one |
| BeeClear.StripTrailingSlashOnce | src/connector/modules/beeclear/beeclear_module.go:61-63 | "h//" is stored as "h/" |
| BeeClear.StripTrailingSlashInverse | src/connector/modules/beeclear/beeclear_module.go:61-63 | stripping undoes appending one slash |
| BeeClear.Normalize | src/connector/modules/beeclear/beeclear_module.go:54-66 | only the host changes, by StripTrailingSlash |
| BeeClear.UsageUrl | src/connector/modules/beeclear/beeclear_module.go:83 | the host followed by the fixed usage query |
| BeeClear.UsageMessagesMembership | src/connector/modules/beeclear/beeclear_module.go:87-100 | a message is sent exactly when some mapping's data type is in the reading, and it is that mapping's message |
| BeeClear.UsageMessagesAllPresent | src/connector/modules/beeclear/beeclear_module.go:87-100 | with every reading present, one message per mapping, in mapping order, with that mapping's topic and reading |
| BeeClear.AbsentMappingSkipped | src/connector/modules/beeclear/beeclear_module.go:89-91 | a mapping whose reading is absent sends nothing and does not affect the others |
| BeeClear.BeeClearModule.Setup | src/connector/modules/beeclear/beeclear_module.go:36-40 | name "BeeClear", the description and a default interval of 600 s |
| BeeClear.BeeClearModule.SettingsChanged | src/connector/modules/beeclear/beeclear_module.go:54-67 | keeps the settings on a decoding error; otherwise stores them with one trailing '/' removed from the host |
| BeeClear.BeeClearModule.Start | src/connector/modules/beeclear/beeclear_module.go:43-46 | unconditionally sets a ticker with the effective interval; panics iff the period is not positive |
| BeeClear.BeeClearModule.Stop | src/connector/modules/beeclear/beeclear_module.go:49-51 | stops the ticker; panics iff there is none |
| BeeClear.BeeClearModule.StopGuarded | src/connector/modules/beeclear/beeclear_module.go:49-51 | with a nil check, Stop never panics and stops the ticker when there is one |
| BeeClear.BeeClearModule.FetchOnce | src/connector/modules/beeclear/beeclear_module.go:83-101 | a failed fetch sends nothing; otherwise the channel gains exactly the mapping-filtered messages |
| BeeClear.StopBeforeStart | src/connector/modules/beeclear/beeclear_module.go:49-51 | Setup followed by Stop panics |
| BeeClear.StopGuardedBeforeStart | src/connector/modules/beeclear/beeclear_module.go:49-51 | the guarded Stop after Setup returns normally |
| Netatmo.CredentialsOf | src/connector/modules/netatmo/netatmo_module.go:74-79 | the API client gets exactly the four account details |
| Netatmo.DeviceMessages | src/connector/modules/netatmo/netatmo_module.go:115-130 | a device sends no more messages than there are mappings; the exact count and order are stated by DeviceMessagesSplit |
| Netatmo.DeviceMessagesMembership | src/connector/modules/netatmo/netatmo_module.go:115-130 | a device sends a message exactly for each mapping naming its id and a data type it reports |
| Netatmo.DeviceMessagesSplit | src/connector/modules/netatmo/netatmo_module.go:115-130 | every mapping contributes in its own place in mapping order: exactly one message when it names the device and a data type the device reports, none otherwise |
| Netatmo.DeviceMessagesAllSelect | src/connector/modules/netatmo/netatmo_module.go:115-130 | when every mapping selects a reading of the device, there is one message per mapping and the j-th carries the j-th mapping's reading |
| Netatmo.ReadingMessagesSplit | src/connector/modules/netatmo/netatmo_module.go:113-131 | every device contributes its own messages in its own place in device order, so there is exactly one message per (device, selecting mapping) pair, devices outermost |
| Netatmo.ReadingMessagesMembership | src/connector/modules/netatmo/netatmo_module.go:113-132 | the join: a message is sent iff some mapping matches some device's id and one of its data types, carrying that value to that mapping's topic |
| Netatmo.UnmappedDeviceSilent | src/connector/modules/netatmo/netatmo_module.go:116 | a device no mapping names sends nothing |
| Netatmo.SendSelectedReading | src/connector/modules/netatmo/netatmo_module.go:117-128 | visiting the device's data in any order sends the named reading exactly once when present |
| Netatmo.SendDeviceReadings | src/connector/modules/netatmo/netatmo_module.go:115-130 | the channel gains DeviceMessages for the device |
| Netatmo.NetatmoModule.Setup | src/connector/modules/netatmo/netatmo_module.go:40-44 | name "Netatmo", the description and a default interval of 10 s |
| Netatmo.NetatmoModule.SettingsChanged | src/connector/modules/netatmo/netatmo_module.go:62-70 | keeps the settings on a decoding error; replaces them otherwise |
| Netatmo.NetatmoModule.Start | src/connector/modules/netatmo/netatmo_module.go:47-54 | does nothing when an account detail is empty; otherwise creates the client and, on success, a ticker with the effective interval (panic iff the period is not positive) |
| Netatmo.NetatmoModule.Stop | src/connector/modules/netatmo/netatmo_module.go:57-59 | stops the ticker; panics iff run never set one |
| Netatmo.NetatmoModule.StopGuarded | src/connector/modules/netatmo/netatmo_module.go:57-59 | with a nil check, Stop never panics |
| Netatmo.NetatmoModule.HandleReadings | src/connector/modules/netatmo/netatmo_module.go:113-132 | the channel gains exactly ReadingMessages for the devices and the configured mappings; their count and order follow from ReadingMessagesSplit and DeviceMessagesSplit |
| Netatmo.StopIncompleteSettings | src/connector/modules/netatmo/netatmo_module.go:47-59 | with an empty account detail, Setup, SettingsChanged, Start and Stop end in a panic |
| Netatmo.StopGuardedIncompleteSettings | src/connector/modules/netatmo/netatmo_module.go:47-59 | the same sequence with the guarded Stop returns normally |
| ModuleRegistry.DisplayNamesDistinct | src/connector/system/connector_system.go:74 | different kinds never share a registry name |
| ModuleRegistry.RegisterResolves | src/connector/system/connector_system.go:71-75 | after AddModule has registered any sequence of modules, each one's name resolves to its own kind: no registration shadows a different kind |
| ModuleRegistry.NewModule | src/connector/system/connector_system.go:208-209 | a fresh module of the registered kind with every field at its zero value |
| ModuleRegistry.Setup | src/connector/models/connector.go:11 | the module's name and description are its kind's, and nothing else changes |
| ModuleRegistry.SettingsChanged | src/connector/models/connector.go:10 | ok iff the settings decode; the module then holds the decoded settings, else the old ones; its default interval, sub-client list, API client and ticker stay as they were |
| Connectors.ConnectorBase.GetID | src/connector/models/connector.go:65-67 | the stored id |
| Connectors.ConnectorBase.GetName | src/connector/models/connector.go:70-72 | the stored name |
| Connectors.ConnectorBase.GetModuleName | src/connector/models/connector.go:75-77 | the stored module name |
| Connectors.ConnectorBase.GetDescription | src/connector/models/connector.go:80-82 | the stored description |
| Connectors.ConnectorBase.GetSettings | src/connector/models/connector.go:85-87 | the stored settings |
| Connectors.ConnectorBase.GetIsRunning | src/connector/models/connector.go:90-92 | the stored running flag |
| Connectors.ConnectorBase.GetModule | src/connector/models/connector.go:95-97 | the attached module |
| Connectors.ConnectorBase.Start | src/connector/models/connector.go:100-103 | running is true whatever it was, no other field changes, and the module's Start is launched |
| Connectors.ConnectorBase.Stop | src/connector/models/connector.go:106-109 | running is false whatever it was, no other field changes, and the module's Stop is launched |
| Connectors.Started | src/connector/models/connector.go:100-103 | the running flag set and every other field kept |
| Connectors.Stopped | src/connector/models/connector.go:106-109 | the running flag cleared and every other field kept |
| Connectors.StartStopIdempotent | src/connector/models/connector.go:100-109 | starting or stopping twice is the same as once, and the last of Start and Stop wins |
| ConnectorStore.Put | src/connector/database/database.go:55 | stores the value under a non-empty key, replacing any old value, and leaves every other key alone; an empty key is refused |
| ConnectorStore.Insert | src/connector/database/database.go:44-59 | not open or unencodable: an error and the store unchanged; otherwise the encoding under the record's id |
| ConnectorStore.Delete | src/connector/database/database.go:95-107 | not open: an error; otherwise exactly the key is removed and no error is returned |
| ConnectorStore.SaveState | src/connector/database/database.go:110-136 | not open: an error; an absent id is a no-op; an undecodable value is an error; otherwise the record is re-put with the new running flag |
| ConnectorStore.LoadedMembership | src/connector/database/database.go:72-80 | a record is loaded exactly when some stored value decodes to it |
| ConnectorStore.LoadedAllDecodable | src/connector/database/database.go:72-80 | when every value decodes, one record per key in cursor order |
| ConnectorStore.InsertThenLoad | src/connector/database/database.go:44-59 | what InsertConnector stores is loaded back |
| ConnectorStore.SaveStateSetsRunning | src/connector/database/database.go:117-129 | for a record under its own id, only the running flag changes and every other key is untouched |
| ConnectorStore.SaveStateWritesUnderDecodedId | src/connector/database/database.go:125 | a record whose decoded id differs from its key is written under the decoded id, and the old key keeps its value |
| ConnectorStore.Database.Open | src/connector/database/database.go:20-36 | the store becomes open and its contents stay |
| ConnectorStore.Database.Close | src/connector/database/database.go:38-41 | the store becomes closed and its contents stay |
| ConnectorStore.Database.InsertConnector | src/connector/database/database.go:44-59 | the error and new contents are Insert of the old ones |
| ConnectorStore.Database.GetConnectors | src/connector/database/database.go:62-92 | not open: an error and nothing; otherwise the decodable records in cursor order |
| ConnectorStore.Database.DeleteConnector | src/connector/database/database.go:95-107 | the error and new contents are Delete of the old ones |
| ConnectorStore.Database.SaveConnectorState | src/connector/database/database.go:110-136 | the error and new contents are SaveState of the old ones |
| ConnectorSystem.Resolved | src/connector/system/connector_system.go:52-66 | every loaded id holds a record with that id whose module is registered |
| ConnectorSystem.ResolvedMembership | src/connector/system/connector_system.go:52-66 | an id is loaded iff some record with that id has a registered module |
| ConnectorSystem.ResolvedIsLast | src/connector/system/connector_system.go:59 | a loaded id holds the last such record: a later record with the same id replaces an earlier one |
| ConnectorSystem.UnresolvedRecordSkipped | src/connector/system/connector_system.go:54-57 | a record whose module is not registered is skipped without affecting any other |
| ConnectorSystem.SensorThingsConnector.CreateSystem | src/connector/system/connector_system.go:28-39 | empty registry and map, a new channel, a publish client on it configured from the settings, and a closed store |
| ConnectorSystem.SensorThingsConnector.AddModule | src/connector/system/connector_system.go:71-75 | the module is set up and appended, and the registry takes one Register step, so its name resolves to its kind |
| ConnectorSystem.SensorThingsConnector.GetConnectors | src/connector/system/connector_system.go:83-91 | every connector exactly once, in map iteration order |
| ConnectorSystem.SensorThingsConnector.CheckConnectorExist | src/connector/system/connector_system.go:193-199 | true iff the id is in the map; NotFound otherwise |
| ConnectorSystem.SensorThingsConnector.GetConnector | src/connector/system/connector_system.go:94-100 | the connector under the id, or NotFound with nothing changed |
| ConnectorSystem.SensorThingsConnector.SetupConnector | src/connector/system/connector_system.go:204-216 | fails iff the module name is unregistered; on success a fresh module of that kind, set up, pristine, on the system channel |
| ConnectorSystem.SensorThingsConnector.Configure | src/connector/system/connector_system.go:117-122 | setupConnector followed by SettingsChanged, whose error is ignored: the module holds the decoded settings or its zero ones, and has no sub-clients, API client or ticker yet |
| ConnectorSystem.SensorThingsConnector.CreateConnector | src/connector/system/connector_system.go:111-125 | the new id is set and the record persisted first; store or resolution failure gives InternalServerError with the map unchanged (the record stays persisted after a resolution failure); otherwise the connector is in the map, configured and not started |
| ConnectorSystem.SensorThingsConnector.SetConnectorState | src/connector/system/connector_system.go:129-142 | NotFound with nothing changed for an absent id; otherwise the connector is started or stopped and SaveConnectorState's result is returned |
| ConnectorSystem.SensorThingsConnector.PatchConnector | src/connector/system/connector_system.go:145-173 | NotFound for an absent id; the new connector takes the id and running flag of the old; unknown module: InternalServerError; bad settings: BadRequest with map and store unchanged; store error: InternalServerError; otherwise the old connector is stopped, replaced, and the new one started iff running |
| ConnectorSystem.SensorThingsConnector.Prepare | src/connector/system/connector_system.go:150-159 | the connector takes the given id and running flag; unknown module: InternalServerError with no module attached; otherwise a fresh module of the registered kind with no sub-clients, API client or ticker; bad settings: BadRequest; otherwise no error and the module holds the decoded settings |
| ConnectorSystem.SensorThingsConnector.Commit | src/connector/system/connector_system.go:161-172 | persist first; on a store error nothing else changes; only on success stop the old connector, swap in the new one, and start it iff running, its module untouched |
| ConnectorSystem.SensorThingsConnector.SwapIn | src/connector/system/connector_system.go:165-170 | the old connector is stopped and keeps its module, the map holds the new one under the id, and the new one is started iff running, its module untouched |
| ConnectorSystem.SensorThingsConnector.DeleteConnector | src/connector/system/connector_system.go:176-189 | NotFound for an absent id; otherwise stopped iff running, removed from the map and the store, nil error even when the store delete fails |
| ConnectorSystem.SensorThingsConnector.Instantiate | src/connector/system/connector_system.go:53-63 | null iff the module is unregistered; otherwise a connector configured from the record and started iff the record says running |
| ConnectorSystem.SensorThingsConnector.LoadRecord | src/connector/system/connector_system.go:52-66 | one record of the load loop: the loaded ids become those of one more Resolve step; every connector already loaded stays loaded from its record, a new one is fresh and loaded from this record |
| ConnectorSystem.SensorThingsConnector.LoadAll | src/connector/system/connector_system.go:52-66 | after the loop the loaded ids are exactly the Resolved ids, each with a fresh connector loaded from the last record for that id |
| ConnectorSystem.SensorThingsConnector.AddLoaded | src/connector/system/connector_system.go:59 | the loaded connectors are put into the map, replacing any under the same ids, and stay loaded from their records |
| ConnectorSystem.SensorThingsConnector.LoadConnectors | src/connector/system/connector_system.go:52-66 | the map gains exactly the Resolved ids, each with a fresh connector loaded from its record; other ids are unchanged |
| ConnectorSystem.SensorThingsConnector.Start | src/connector/system/connector_system.go:42-68 | the publish client is started, the store opened, and the stored connectors loaded as LoadConnectors states |

## Left out

- GetModules and GetEndpoints: GetModules returns the `modules` field as it is. The REST endpoints that GetEndpoints returns, and the whole HTTP layer, are not part of this model.
- Goroutines: `go c.GetModule().Start()`/`Stop()`, the per-message handler goroutines, the ticker loops and the 10 s retry timer are modelled as single sequential steps. A connector's module Start/Stop is recorded as a launch in `ConnectorBase.launched`, not run.
- Channel blocking and backpressure: a send always succeeds. A receive on an empty channel is reported as "nothing taken" (`PubClient.ListenStep` returns None).
- The paho MQTT client is seen only through the calls made on it (`ClientBase.calls`). Its connection, QoS delivery and auto-reconnect are out; `IsConnected` and the connect outcome are parameters.
- bolt: transactions, the on-disk file and the `bolt.Open` failure (which ends the process via log.Fatal) are out. Of bolt's key and value limits, only the refusal of an empty key is modelled. The cursor's sorted key order is abstracted to any enumeration of the keys.
- The package-level `open` flag of database.go is a field of `ConnectorStore.Database`.
- `RandomString(8)` is the `newId` parameter of CreateConnector. The source checks nothing for collisions, and neither does the model.
- encoding/json, strconv.ParseFloat, RFC 3339 formatting, net/http, and the Netatmo API client are oracles. Netatmo's getReadings (the device collection fetch and its per-station goroutines) and its initial fetch at start are not modelled; HandleReadings takes the devices directly.
- CreateConnector and PatchConnector require the connector object not to be in the map already. The REST handlers always pass a freshly decoded one.
- MqttMod.MqttModule.Start: Go stores the sub-clients in the slice by value, so Stop acts on copies of the started clients. The model keeps one object per client.
- ConnectorSystem.SensorThingsConnector.CreateSystem: this snapshot passes six arguments to an eight-argument CreatePubClient. The model gives the publish client the keep-alive and ping timeout (300 s and 20 s) that every other client gets.
- MqttClientBase.CreatePahoClient: src/mqtt.go fixes keep-alive 300 s and ping timeout 20 s. The eight-argument client base of the connector/mqtt package is not part of this model. Keep-alive and ping timeout are therefore parameters, and every caller passes 300 and 20.
- MqttClients.ObserveOrderIndependent: the source's result depends on Go's random map order when two present payload fields write the same Observation field. The model fixes the order as a parameter, and it proves order independence only when each field has a single writer.
- ConnectorSystem.SensorThingsConnector.LoadConnectors: Go puts each connector into `sc.connectors` inside the load loop. The model collects them in a local map and adds that map after the loop. Nothing else runs in between, so the final map is the same.
- MqttMod.MqttModule.Start: Go appends each started client to `mq.subClients` inside the loop. The model assigns the whole list after the loop, which gives the same final list.
- Code and prose disagree on CreateConnector. The model follows the code: an unknown module gives InternalServerError, and the record has already been persisted.
- The system's Start loads each connector by configuring it before putting it in the map, where the source puts it in the map first. No caller can observe the difference because the loop holds no other reference to the map.

## Findings

| source | as written | input that shows it | evidently intended | confidence | as-written member | corrected member |
|---|---|---|---|---|---|---|
| src/connector/modules/beeclear/beeclear_module.go:49-51 | Stop calls `bc.ticker.Stop()` with no nil check, so stopping a module that was never started dereferences a nil ticker and panics the process from its goroutine | create a BeeClear connector, then patch it (PatchConnector always stops the old connector) or set its state to stopped before it ever ran | stop quietly when there is no ticker, as the MQTT module's Stop does for its nil client list | high; not executed | BeeClear.StopBeforeStart | BeeClear.StopGuardedBeforeStart |
| src/connector/modules/netatmo/netatmo_module.go:57-59 | Stop calls `nm.ticker.Stop()`; Start returns early without a ticker when an account detail is empty (or the API client cannot be created), so a later Stop panics | a Netatmo connector with an empty password that is started and then stopped | stop quietly when run never set a ticker | high; not executed | Netatmo.StopIncompleteSettings | Netatmo.StopGuardedIncompleteSettings |

In both rows, the as-written Stop is `BeeClearModule.Stop` or `NetatmoModule.Stop`, and the corrected one is `StopGuarded`. The orchestrator records module Start/Stop as launches rather than running them, so neither version is called from `ConnectorSystem`.
