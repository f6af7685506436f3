# A Dafny model of the Polaris naming plugins for tRPC-Cpp

The repository adapts the Polaris SDK to the naming interfaces of tRPC-Cpp: a
selector (service discovery and result reports), a registry (registration and
heartbeats) and a rate limiter. The SDK does the real discovery; what the adapter
itself keeps and translates is modelled here. `dafny verify dfyconfig.toml` checks
every proof.

| file | what it models |
|---|---|
| `DoubleBuffer.dfy` | the lock-free two-slot whitelist: all interleavings of one writer with any number of readers, and the class |
| `Lifecycle.dfy`, `LifecycleRuns.dfy` | Init and Destroy of the three plugins over one shared SDK context, with owner counts and users who keep the context, and what holds over all runs |
| `Plugins.dfy` | the same as objects with fields: the shared holder, the three plugins, the process |
| `Yaml.dfy`, `ConfigCodec.dfy`, `ConfigDocument.dfy`, `ConfigRoundTrip.dfy`, `ConfigObjects.dfy` | the configuration codec over a YAML node tree, which key of a document means which field, the round trips, and the branching encoders and decoders as methods |
| `Json.dfy`, `JsonGrammar.dfy`, `ExtendInfo.dfy`, `SelectorContext.dfy`, `SourceMetadata.dfy` | the per-call state in the client context: extend info, metadata stored as JSON text, the grammar of such texts, namespace resolution, source metadata |
| `RegistryConf.dfy`, `RegistryCalls.dfy`, `RegistryRuns.dfy` | the service table, Register, Unregister and the heartbeats against a set of registered instances, and runs of these calls |
| `BatchSelect.dfy`, `LimiterFilters.dfy` | conversion of instance lists; the limiter and its two filters |
| `Prelude.dfy` | optional values and first-write-wins maps |

Conventions. Code that updates state is a class or a method proved equal to a
function on values; theorems over runs are lemmas about those functions. Answers of
the SDK, the framework's global configuration, framework code numbers, SDK metadata
keys, `atoi` and the printing and reading of YAML scalars are parameters. Assumptions:

- The double buffer is sequentially consistent, has one writer, and each operation on
  a slot (clear, insert of one code, lookup) is one step.
- A printed YAML scalar is read back (`Yaml.Faithful`, which some library meets:
  `Yaml.FaithfulScalarsExist`); a `float` is its 32 bits, with one NaN. Subscripts on a scalar node
  throw, on a null or sequence node find nothing; a node nothing was assigned to is null.
- Registering succeeds with a new non-empty id for a new endpoint, or answers "existed"
  with the id of the instance at that endpoint; deregistering removes the named instance
  (`RegistryCalls.Registers`, `RegistryCalls.Deregisters`). Over runs an id is never given
  out twice and nobody else registers the same endpoint (`RegistryRuns.OtherStep`), and
  at the start at most one instance is at it (`RegistryRuns.Starts`).
- A context is owned by the holder, the selector and users of `GetPolarisContext` only
  (trpc_share_context.h:45-52); the SDK's API objects own none of it.
- A character of a JSON text stands for one byte.

Results that say where the code departs from what one would expect, with the exact
conditions and concrete inputs:

- The shared context holder does not count its users. A limiter or registry API stays
  on a live context exactly until the first effective Destroy of any plugin, unless the
  selector or the program's own code, through the public `GetPolarisContext`, still holds
  that context (`ApiStaysOwned`, `SelectorDestroyEndsAllContexts`,
  `LimiterDestroyBreaksRegistry`).
- A plugin whose Init failed at its API leaves a context alive that its own Destroy does
  not free: in the holder (`FailedRegistryRun`), or pinned by the selector
  (`FailedSelectorPinsContext`, `PinnedUntilNextContext`, `FailedSelectorRun`).
  `LeftAlive` says exactly which runs leave which contexts alive with no plugin
  initialised.
- A borrowed whitelist is stable only until the update that begins after the first
  publication following the borrow; that update empties it (`NextUpdateClearsTheBorrow`,
  `OvertakenReader`, `OvertakenWithOne`).
- Metadata survives storing exactly when no name or value contains a NUL
  (`MetadataRoundTrip`, `NulIsLost`). The comment at polarismesh_selector.h:140 promises
  an empty map when nothing is found; the code returns a null pointer, and the model
  follows it.
- Namespace resolution is sticky unless the key was stored with an empty value
  (`NamespaceIsSticky`, `StoredEmptyIsNotSticky`, `StoredEmptyEachItsOwn`); with a global namespace Select and
  SelectBatch may ask for different callee namespaces (`SelectAndBatchAgree`,
  `SelectAndBatchPart`).
- Register followed by Unregister restores the provider exactly when nothing was at the
  endpoint before (`RegisterThenUnregister`, `PairRemovesEarlierInstance`); heartbeats
  name the instance just registered exactly when no id is configured or it is the
  returned one (`HeartbeatNamesInstance`, `HeartbeatMissesInstance`).
- Unregister by an id that the caller put into the info, which is a supported use
  (polarismesh_registry_test.cc:262-273), removes whatever instance has that id, also
  one at another endpoint (`UnregisterSparesOthersIff`, `ForeignIdIsRemoved`); with an id
  that Register wrote that cannot happen (`OnlyOwnEndpoint`).
- The repository's README.md:277 says that the limiter's method label is the last segment
  of the function name; that holds for the server's question, but not for the client's
  and not for either side's reports (`DocumentedLabelIff`, `SameLabelIff`,
  `LabelsOfOneCall`).
- The repository's README.md:78 passes the hash key, and lines 124 and 145 some
  configuration keys, under names that the code does not read; the model has the code's.

## Model

| member | source | states |
|---|---|---|
| DoubleBuffer.PublishedSlotIsWhole | trpc/naming/polarismesh/readers_writer_data.h:29-43 | in every interleaving the slot named by the reader index holds a whole published set, also mid-swap where both indices agree (and only there), and no next step of any thread writes it |
| DoubleBuffer.BorrowAndRelease | trpc/naming/polarismesh/readers_writer_data.h:29 | after any interleaving a reader's borrow gives it the published slot until its release, without a trace elsewhere |
| DoubleBuffer.StepKeepsInv | trpc/naming/polarismesh/readers_writer_data.h:29-43 | each micro-step of the writer (clear, one insert, each assignment of the swap) and of a reader keeps the correspondence with a single variable `current` that only the publication changes |
| DoubleBuffer.BorrowedSetIsStable | trpc/naming/polarismesh/common.cc:29-36 | a reader that borrows the set sees exactly the set current at that moment, through any steps of all threads, while no update has begun since the first publication after the borrow |
| DoubleBuffer.NextUpdateClearsTheBorrow | trpc/naming/polarismesh/polarismesh_selector.cc:375-381 | that window is exact: the update beginning after the first publication following the borrow empties the borrowed set at its first step |
| DoubleBuffer.OvertakenReader | trpc/naming/polarismesh/polarismesh_selector.cc:375-381 | this happens to every reader that borrows after any run with an idle writer: a whole update later its set is intact, and the next one empties it at once |
| DoubleBuffer.OvertakenWithOne | trpc/naming/polarismesh/polarismesh_selector.cc:375-381 | a concrete run in which a reader loses the set {1} that it holds |
| DoubleBuffer.SlotsNeverMix | trpc/naming/polarismesh/polarismesh_selector.cc:375-381 | in every interleaving each slot holds a prefix of one update's codes, so even an overtaken reader never sees a mixture of two updates |
| DoubleBuffer.UpdateAlone | trpc/naming/polarismesh/polarismesh_selector.cc:375-381 | the micro-steps of one update without interference equal the sequential update: the new set published, the old one kept in the other slot, and nothing else changed in the specification than one update begun and published |
| DoubleBuffer.RunIsSequential | trpc/naming/polarismesh/polarismesh_selector.cc:375-381 | readers leave no trace: after any interleaving in which the writer is idle the buffer is the fold of the sequential update over the codes of all updates begun |
| DoubleBuffer.RunOnTheWay | trpc/naming/polarismesh/readers_writer_data.h:34 | and at any other moment it is a definite stage between the fold before and after the last update: the inserted prefix, or one of the three states of the swap |
| DoubleBuffer.CurrentIsPublished | trpc/naming/polarismesh/readers_writer_data.h:29-43 | at any moment the slot that readers get holds the last update begun, or the one before it until the second assignment of the swap |
| DoubleBuffer.ReadersWriterData.Swap | trpc/naming/polarismesh/readers_writer_data.h:34 | the three assignments exchange the indices and leave the slots alone |
| DoubleBuffer.ReadersWriterData.Refresh | trpc/naming/polarismesh/polarismesh_selector.cc:375-381 | the clear, insert and swap loop on the array is the sequential update |
| DoubleBuffer.ReadersWriterData.InWhiteList | trpc/naming/polarismesh/common.cc:29-36 | a code is found exactly when it is in the current set |
| Lifecycle.Exec | trpc/naming/polarismesh/trpc_share_context.cc:26-64 | in every reachable state the holder's flag agrees with its pointer, each plugin's flag with its API, an initialised selector's API with its own pointer, and the owner counts are exactly the pointers of holder, selector and users of GetPolarisContext |
| Lifecycle.InitSelectorKeepsInv | trpc/naming/polarismesh/polarismesh_selector.cc:59-99 | an Init of the selector, failed at any point or not, keeps all of this, including the context pointer that a failed Init leaves behind |
| Lifecycle.DestroySelectorKeepsInv | trpc/naming/polarismesh/polarismesh_selector.cc:101-111 | so does its Destroy |
| LifecycleRuns.InitSucceedsIff | trpc/naming/polarismesh/polarismesh_registry.cc:28-68 | Init of any plugin returns 0 exactly when the plugin is initialised afterwards, which is exactly when it was before or the API could be made on a context that existed or could be made |
| LifecycleRuns.DestroyClosesPlugin | trpc/naming/polarismesh/polarismesh_limiter.cc:56-66 | in every reachable state a plugin's Destroy leaves it without flag and API (the selector without its context, the registry without its table) and, if it was initialised, the holder empty; the other plugins and the whitelist are untouched, and without an effect nothing changes |
| LifecycleRuns.InitBuildsOnHolder | trpc/naming/polarismesh/polarismesh_limiter.cc:28-54 | in every reachable state the holder, the API and the flag after a plugin's Init, from the SDK's answers and the holder before; the other plugins are untouched, and an initialised plugin is left alone |
| LifecycleRuns.ReinitialisedOnLiveContext | trpc/naming/polarismesh/polarismesh_limiter.cc:28-66 | after its Destroy a plugin's next Init, with a working SDK, builds its API on a live context, and on a new one if the Destroy had an effect |
| LifecycleRuns.HolderCalls | trpc/naming/polarismesh/trpc_share_context.cc:26-64 | the holder's own Init and Destroy in every reachable state: return code, flag, pointer and contexts made |
| LifecycleRuns.UserPointers | trpc/naming/polarismesh/trpc_share_context.h:45-52 | in every state the runs reach, taking the holder's pointer is one more user of its context, dropping one is one less, and nothing else changes |
| LifecycleRuns.ApiStaysOwned | trpc/naming/polarismesh/polarismesh_limiter.cc:28-66 | the context behind an API just built stays owned over any further run exactly when no plugin has effectively destroyed the shared holder, or the selector or a user of GetPolarisContext still holds that context |
| LifecycleRuns.SelectorContextOwned | trpc/naming/polarismesh/polarismesh_selector.cc:78-111 | while the selector is initialised its own context stays owned, whatever the other plugins do |
| LifecycleRuns.SelectorDestroyEndsAllContexts | trpc/naming/polarismesh/polarismesh_selector.cc:101-111 | after an effective Destroy of the selector exactly the contexts that users kept are alive, so any API another plugin still has is dangling unless a user kept its context |
| LifecycleRuns.LimiterDestroyBreaksRegistry | trpc/naming/polarismesh/polarismesh_limiter.cc:56-66 | a concrete run that leaves the registry initialised on a deleted context |
| LifecycleRuns.FailedSelectorPinsContext | trpc/naming/polarismesh/polarismesh_selector.cc:78-89 | a selector that failed after taking the context keeps it, and keeps it alive, until its next Init, whatever else is initialised or destroyed |
| LifecycleRuns.PinnedUntilNextContext | trpc/naming/polarismesh/polarismesh_selector.cc:78-89 | that Init frees the pinned context exactly if the holder has dropped it, has another or can make one, and no user keeps it |
| LifecycleRuns.FailedSelectorRun | trpc/naming/polarismesh/polarismesh_selector.cc:78-89 | a concrete run from the start to a state where no plugin and no holder is initialised and context 0 is pinned |
| LifecycleRuns.FailedRegistryRun | trpc/naming/polarismesh/polarismesh_registry.cc:54-80 | a concrete run after which no plugin is initialised and the holder keeps context 0: the failed registry's Destroy does nothing |
| LifecycleRuns.LeftAlive | trpc/naming/polarismesh/trpc_share_context.cc:26-64 | exactly which contexts are alive in a reachable state with no plugin initialised, and stay so over any calls but Init, by the run alone: the one that some Init opened or found in the holder with no Destroy closing it since, the one that the last selector Init with a successful shared Init got when it failed at its API with no effective Destroy since, and those that users kept |
| LifecycleRuns.ContextsMade | trpc/naming/polarismesh/trpc_share_context.cc:26-64 | conservation: contexts made equal effective Destroys plus one if the holder is initialised, so between two effective Destroys at most one is made |
| LifecycleRuns.OneContextPerSpan | trpc/naming/polarismesh/trpc_share_context.cc:26-64 | all plugins initialised in a span without effective shared Destroy use the same context |
| LifecycleRuns.WhiteListIsCurrent | trpc/naming/polarismesh/polarismesh_selector.cc:91-97 | after any run of all plugins' events the double buffer is the fold of the updates that effective Inits (overload and limited code) and SetCircuitBreakWhiteList wrote, and its current set is the last of them |
| LifecycleRuns.ReportedStatus | trpc/naming/polarismesh/common.cc:88-98 | after any run a code maps to Ok exactly when it is success or in the list last written, else to Timeout exactly for the three timeout codes, else to Error |
| LifecycleRuns.DefaultsCountAsSuccess | trpc/naming/polarismesh/polarismesh_selector.cc:91-97 | from an effective Init on, through Destroys and other Inits, exactly success, overload and limited map to Ok until the whitelist is set |
| LifecycleRuns.WhiteListWithReaders | trpc/naming/polarismesh/polarismesh_selector.cc:375-381 | every run of events can be carried out in micro-steps, and any interleaving of the same updates with readers that ends with an idle writer leaves the buffer of the sequential run |
| LifecycleRuns.StatusOfReader | trpc/naming/polarismesh/common.cc:88-98 | what a reporting thread computes at any moment of any interleaving, also mid-update: the status due for the last list published when it borrowed the set, as long as at most one further update has begun |
| LifecycleRuns.ServicesAreFirstWins | trpc/naming/polarismesh/polarismesh_registry.cc:49-52 | the service table is the first-wins table over all lists tried since the last effective Destroy, failed attempts included |
| LifecycleRuns.FirstTriedIsFound | trpc/naming/polarismesh/polarismesh_registry.cc:49-52 | after any run a lookup finds the first configuration with its namespace and name in all those lists |
| LifecycleRuns.RetriesLeaveNoTrace | trpc/naming/polarismesh/polarismesh_registry.cc:28-68 | with one fixed configuration any failed attempts before a successful Init leave the table of one Init |
| Plugins.TrpcShareContext.Init | trpc/naming/polarismesh/trpc_share_context.cc:26-53 | the method's new fields, owner counts and return code are those of the value model |
| Plugins.TrpcShareContext.Destroy | trpc/naming/polarismesh/trpc_share_context.cc:55-64 | likewise |
| Plugins.PolarisMeshSelector.Init | trpc/naming/polarismesh/polarismesh_selector.cc:59-99 | likewise, with the whitelist reset only on success |
| Plugins.PolarisMeshSelector.Destroy | trpc/naming/polarismesh/polarismesh_selector.cc:101-111 | likewise, with the whitelist untouched |
| Plugins.PolarisMeshRegistry.Init | trpc/naming/polarismesh/polarismesh_registry.cc:28-68 | likewise, with the loop that inserts the services before the shared Init |
| Plugins.PolarisMeshRegistry.Destroy | trpc/naming/polarismesh/polarismesh_registry.cc:70-80 | likewise, clearing the table |
| Plugins.PolarisMeshLimiter.Init | trpc/naming/polarismesh/polarismesh_limiter.cc:28-54 | likewise |
| Plugins.PolarisMeshLimiter.Destroy | trpc/naming/polarismesh/polarismesh_limiter.cc:56-66 | likewise |
| Plugins.Process.TakeContext | trpc/naming/polarismesh/trpc_share_context.h:45-52 | a user's copy of the shared pointer is one more owner of the holder's context |
| Plugins.Process.Do | trpc/naming/polarismesh/trpc_share_context.h:27-30 | every event on the four wired objects, and every copy of the pointer that a user takes or drops, is a step of the value model |
| Plugins.Process.DoAll | trpc/naming/polarismesh/trpc_share_context.h:27-30 | any run of events on the objects ends in the state of the value model's run |
| Plugins.Started | trpc/naming/polarismesh/trpc_share_context.h:27-30 | every run of a new process is a run from the value model's start, so the theorems over runs are about the objects |
| ConfigRoundTrip.RoundTrip | trpc/naming/polarismesh/config/polarismesh_naming_conf.h:733-769 | for every configuration, decoding its encoding into any configuration never throws and gives the normal form of the one encoded |
| ConfigDocument.SelectorRead | trpc/naming/polarismesh/config/polarismesh_naming_conf.h:747-768 | a document decodes to a configuration exactly when it describes it: the relation gives, for every key of every section, the field that its converted value reaches, and for every absent key the header's default; it throws exactly if it describes none |
| ConfigDocument.GlobalRead | trpc/naming/polarismesh/config/polarismesh_naming_conf.h:541-558 | likewise for the global section and its four parts |
| ConfigDocument.ConnectorRead | trpc/naming/polarismesh/config/polarismesh_naming_conf.h:466-492 | likewise for the connector, with each of its six keys and defaults |
| ConfigDocument.ConsumerRead | trpc/naming/polarismesh/config/polarismesh_naming_conf.h:678-711 | likewise for the consumer section, its five parts, services and flag |
| ConfigDocument.ServiceRead | trpc/naming/polarismesh/config/polarismesh_naming_conf.h:627-657 | likewise for a service, whose flags say which sections are present |
| ConfigDocument.BreakerRead | trpc/naming/polarismesh/config/polarismesh_naming_conf.h:1107-1126 | likewise for the circuit breaker with its plugin sections |
| ConfigDocument.RouterRead | trpc/naming/polarismesh/config/polarismesh_naming_conf.h:965-980 | likewise for the router with its plugin section |
| ConfigDocument.GlobalThrows | trpc/naming/polarismesh/config/polarismesh_naming_conf.h:747-751 | if the global section describes nothing, an exception leaves the whole configuration as it was |
| ConfigDocument.ConsumerThrows | trpc/naming/polarismesh/config/polarismesh_naming_conf.h:752-754 | if the consumer section describes nothing, only the global section is the document's afterwards |
| ConfigDocument.WeightThrows | trpc/naming/polarismesh/config/polarismesh_naming_conf.h:763-765 | if only the dynamic weight section describes nothing, the other two are the document's |
| ConfigDocument.SelectorWrites | trpc/naming/polarismesh/config/polarismesh_naming_conf.h:735-745 | encoding writes under exactly which keys which printed values, section by section, those of unset options left out |
| Yaml.FaithfulScalarsExist | trpc/naming/polarismesh/config/polarismesh_naming_conf.h:733-769 | the assumption of the round trips, that every printed scalar is read back, is met by a concrete library over all integers, booleans and 32-bit floats |
| ConfigRoundTrip.SettledTwice | trpc/naming/polarismesh/config/polarismesh_naming_conf.h:733-769 | normalisation is idempotent |
| ConfigRoundTrip.UnchangedIff | trpc/naming/polarismesh/config/polarismesh_naming_conf.h:331-369 | exactly which configurations come back unchanged: default connector interval, metric name "trpc", known clusters only, defaults behind unset flags |
| ConfigRoundTrip.ReadIsSettled | trpc/naming/polarismesh/config/polarismesh_naming_conf.h:627-657 | whatever is decoded from any document already has the normal form's clusters, metric name and service sections |
| ConfigRoundTrip.ReadWriteRead | trpc/naming/polarismesh/config/polarismesh_naming_conf.h:733-769 | a configuration decoded from any document survives encoding and decoding, into any configuration, but for the connector's interval |
| ConfigRoundTrip.SystemBack | trpc/naming/polarismesh/config/polarismesh_naming_conf.h:331-369 | clusters come back restricted to the three known names, also when none is left and the node is null |
| ConfigRoundTrip.ConnectorBack | trpc/naming/polarismesh/config/polarismesh_naming_conf.h:446-493 | the connector comes back but for its refresh interval, which is read and not written |
| ConfigRoundTrip.MetricBack | trpc/naming/polarismesh/config/polarismesh_naming_conf.h:495-520 | the metric comes back but for its name, which is written and not read |
| ConfigRoundTrip.GlobalBack | trpc/naming/polarismesh/config/polarismesh_naming_conf.h:522-559 | the global section comes back normalised |
| ConfigRoundTrip.BreakerBack | trpc/naming/polarismesh/config/polarismesh_naming_conf.h:1096-1127 | the circuit breaker section with both plugin sections comes back as it was |
| ConfigRoundTrip.RouterBack | trpc/naming/polarismesh/config/polarismesh_naming_conf.h:955-981 | the router section with its plugin comes back as it was |
| ConfigRoundTrip.ServiceBack | trpc/naming/polarismesh/config/polarismesh_naming_conf.h:598-658 | a service comes back with defaults behind its unset flags |
| ConfigRoundTrip.ConsumerBack | trpc/naming/polarismesh/config/polarismesh_naming_conf.h:660-712 | the consumer section comes back with its services in order, each normalised |
| ConfigRoundTrip.IntervalMigration | trpc/naming/polarismesh/config/polarismesh_naming_conf.h:752-761 | after decoding a consumer section the effective interval is the configured one, or the connector's if that is the default |
| ConfigRoundTrip.EffectiveIntervalKept | trpc/naming/polarismesh/config/polarismesh_naming_conf.h:733-769 | encoding and decoding keeps the effective interval of every configuration |
| ConfigRoundTrip.ReadTwice | trpc/naming/polarismesh/config/polarismesh_naming_conf.h:747-768 | decoding any document twice into any configuration equals decoding it once, also when it throws half way |
| ConfigRoundTrip.ReadConsumerTwice | trpc/naming/polarismesh/config/polarismesh_naming_conf.h:678-711 | the consumer section alone appends its services again: twice equals once exactly when it lists none |
| ConfigObjects.EncodeSystem | trpc/naming/polarismesh/config/polarismesh_naming_conf.h:332-351 | the conditional assignments build the node of the value model |
| ConfigObjects.EncodeGlobal | trpc/naming/polarismesh/config/polarismesh_naming_conf.h:524-538 | likewise, with the system section only if there are clusters |
| ConfigObjects.EncodeBalancer | trpc/naming/polarismesh/config/polarismesh_naming_conf.h:840-855 | likewise, with two fields only when set |
| ConfigObjects.EncodeService | trpc/naming/polarismesh/config/polarismesh_naming_conf.h:600-625 | likewise, with a section only when its flag is set |
| ConfigObjects.EncodeServices | trpc/naming/polarismesh/config/polarismesh_naming_conf.h:673 | the sequence has the node of each service, in order |
| ConfigObjects.EncodeConsumer | trpc/naming/polarismesh/config/polarismesh_naming_conf.h:662-677 | the assignments of all sections and of the services build the node of the value model |
| ConfigObjects.DecodeServices | trpc/naming/polarismesh/config/polarismesh_naming_conf.h:699-704 | the loop appends every converted service in order, or throws at the first that does not convert |
| ConfigObjects.DecodeConsumer | trpc/naming/polarismesh/config/polarismesh_naming_conf.h:678-711 | the field by field updates are the value model's decode |
| ConfigObjects.SelectorConfig.Decode | trpc/naming/polarismesh/config/polarismesh_naming_conf.h:747-768 | the in-place decode, including what an exception half way leaves assigned |
| ConfigObjects.SelectorConfig.Encode | trpc/naming/polarismesh/config/polarismesh_naming_conf.h:735-745 | the node of the whole configuration, by the encoders of its sections |
| Json.ReadWrittenObject | trpc/naming/polarismesh/polarismesh_selector.h:112-121 | every object of strings is read back as it was written, whatever bytes its names and values hold |
| Json.WriteObjectIsNulFree | trpc/naming/polarismesh/polarismesh_selector.h:117-121 | the written text has no NUL, so passing it as a C string loses nothing |
| JsonGrammar.ReadsEveryObject | trpc/naming/polarismesh/polarismesh_selector.h:149-155 | every spelling of an object of strings, with any white space, escapes and surrogate pairs, is parsed as what it means |
| JsonGrammar.ReadsOnlyObjects | trpc/naming/polarismesh/polarismesh_selector.h:149-155 | and nothing else: a text that is parsed is one of the spellings of what it is parsed as |
| JsonGrammar.Utf8IsStandard | trpc/naming/polarismesh/polarismesh_selector.h:149-155 | escaped code points become their shortest UTF-8 bytes, read back by the standard's decoding |
| JsonGrammar.EscapesAreSpellings | trpc/naming/polarismesh/polarismesh_selector.h:117-121 | each written character is spelled as itself, by its letter, or by its code if it is another control character |
| ExtendInfo.MetadataRoundTrip | trpc/naming/polarismesh/polarismesh_selector.h:102-161 | set then get, on a context without that type: the same map exactly when it is non-empty and NUL-free, null exactly for the empty map, never a failed assertion |
| ExtendInfo.NulIsLost | trpc/naming/polarismesh/polarismesh_selector.h:102-161 | a concrete map with a NUL in a value, of which only the part before it comes back |
| ExtendInfo.ReadBack | trpc/naming/polarismesh/polarismesh_selector.h:148-156 | what any stored map reads back as: its entries cut at NULs, the first of colliding names winning |
| ExtendInfo.GetAbortsIff | trpc/naming/polarismesh/polarismesh_selector.h:148-156 | a get fails the library's assertion exactly if a text is stored that is, up to its first NUL, no object of strings |
| ExtendInfo.MetadataKeysAre | trpc/naming/polarismesh/polarismesh_selector.h:105 | the keys under which users of the extend info find the metadata |
| ExtendInfo.FirstWriteWins | trpc/naming/polarismesh/polarismesh_selector.h:56-95 | after any history of writes a get returns the first value ever given for the key, or the empty string |
| ExtendInfo.RegroupingIsInvisible | trpc/naming/polarismesh/polarismesh_selector.h:56-67 | histories with the same flattened pairs answer every get alike, for info and for metadata |
| ExtendInfo.MetadataTypesDoNotInterfere | trpc/naming/polarismesh/polarismesh_selector.h:102-161 | over any history the metadata of a type is what its own first call stored |
| SelectorContext.ClientContext.SetSelectorExtendInfo | trpc/naming/polarismesh/polarismesh_selector.h:56-67 | the loop of emplace calls is the value model's write |
| SelectorContext.ClientContext.SetFilterMetadataOfNaming | trpc/naming/polarismesh/polarismesh_selector.h:102-135 | the loop builds and stores the text of the value model |
| SelectorContext.ClientContext.GetFilterMetadataOfNaming | trpc/naming/polarismesh/polarismesh_selector.h:141-161 | parsing and collecting gives the value model's answer, with the failed assertion on other texts |
| SelectorContext.ClientContext.GetNamespace | trpc/naming/polarismesh/polarismesh_selector.cc:465-485 | answer and new context of the value model |
| SelectorContext.NamespacePriority | trpc/naming/polarismesh/polarismesh_selector.cc:465-485 | the namespace is the first non-empty of context, extend info and proxy option |
| SelectorContext.NamespacesSent | trpc/naming/polarismesh/polarismesh_selector.cc:418-429 | for every global namespace and context the source and callee namespace of Select, SelectBatch and ReportInvokeResult, as the first non-empty of global namespace, context, extend info and proxy option; a global namespace keeps SelectBatch and Report from touching the context |
| SelectorContext.NamespaceStored | trpc/naming/polarismesh/polarismesh_selector.cc:465-485 | what each of these calls leaves in the context: the namespace it resolved if none was stored, and nothing else |
| SelectorContext.ChangeStores | trpc/naming/polarismesh/polarismesh_selector.h:56-67 | a user's change sends nothing and stores, for each free key, the first value it gives |
| SelectorContext.ValuePriority | trpc/naming/polarismesh/polarismesh_selector.cc:455-463 | any other field is the first non-empty of context and extend info |
| SelectorContext.NamespaceIsSticky | trpc/naming/polarismesh/polarismesh_selector.cc:465-485 | once non-empty, every later resolution returns the same, whatever is passed, exactly unless the key was stored empty |
| SelectorContext.StoredEmptyIsNotSticky | trpc/naming/polarismesh/polarismesh_selector.cc:465-485 | a concrete context with the key stored empty that resolves to two namespaces in a row |
| SelectorContext.NamespacesAgree | trpc/naming/polarismesh/polarismesh_selector.cc:115-122 | without a global namespace, over any run of Select, SelectBatch, ReportInvokeResult and user writes on one context that does not end with the namespace stored empty, all non-empty namespaces sent are one and the same, as source and as callee |
| SelectorContext.StoredEmptyEachItsOwn | trpc/naming/polarismesh/polarismesh_selector.cc:465-485 | over every other run each call sends the namespace of its own extend info or proxy option |
| SelectorContext.SelectAndBatchAgree | trpc/naming/polarismesh/polarismesh_selector.cc:245-250 | Select and SelectBatch ask for the same callee namespace exactly when there is no global namespace or the first non-empty of context, extend info and proxy option, before the call, is the global one |
| SelectorContext.SelectAndBatchPart | trpc/naming/polarismesh/polarismesh_selector.cc:245-250 | a concrete call with a global namespace and another one in the proxy option for which they differ |
| SourceMetadata.SetTransSelectorMeta | trpc/naming/polarismesh/polarismesh_selector.cc:47-57 | the loop's result is the same for every order of the keys: all stripped entries over the given metadata |
| SourceMetadata.FillMetadata | trpc/naming/polarismesh/polarismesh_selector.cc:383-416 | the method builds the layers of the value model from the context |
| SourceMetadata.LabelAt | trpc/naming/polarismesh/polarismesh_selector.cc:383-416 | for every key which layer wins: set name if non-empty, set-force flag, trans info under the prefix `selector-meta-` if enabled, env, stored labels |
| RegistryCalls.SetupClosedForm | trpc/naming/polarismesh/polarismesh_registry.cc:82-103 | token and metadata in closed form; the early return never changes them |
| RegistryCalls.RegisterRequestIs | trpc/naming/polarismesh/polarismesh_registry.cc:116-136 | the whole Register request from the caller's metadata, the configured service and the framework's configuration, with all defaults and the health check's fallback |
| RegistryCalls.ReservedEntryHasItsField | trpc/naming/polarismesh/common.h:217-244 | changing one reserved metadata entry changes its own request field and no other |
| RegistryCalls.KeyAndMetadataOfEntry | trpc/naming/polarismesh/polarismesh_registry.cc:82-103 | of the reserved entries only the namespace reaches the service key, where no global one is set, and the metadata, through the configured service |
| RegistryCalls.TokenOfEntry | trpc/naming/polarismesh/polarismesh_registry.cc:93-98 | a token entry is the request's token; of the others only the namespace can change it |
| RegistryCalls.HealthCheckOfEntry | trpc/naming/polarismesh/polarismesh_registry.cc:120-123 | only its own entry changes the health check flag |
| RegistryCalls.DeregisterRequestIs | trpc/naming/polarismesh/polarismesh_registry.cc:160-171 | the whole Deregister request: by id when the info has one, otherwise by the endpoint, with the token of Register in both cases |
| RegistryCalls.HeartbeatRequestIs | trpc/naming/polarismesh/polarismesh_registry.cc:197-220 | the whole heartbeat request with the configured token, and none exactly for services that are not configured |
| RegistryCalls.CopyCustom | trpc/naming/polarismesh/common.h:217-232 | the loop over the metadata keeps exactly the entries with non-reserved keys |
| RegistryCalls.RegistryApi.Register | trpc/naming/polarismesh/polarismesh_registry.cc:105-147 | which request is sent, what is written back into the caller's info and what is returned, null pointer and uninitialised registry included |
| RegistryCalls.RegistryApi.Unregister | trpc/naming/polarismesh/polarismesh_registry.cc:149-183 | which request is sent and what is returned |
| RegistryCalls.RegistryApi.HeartBeat | trpc/naming/polarismesh/polarismesh_registry.cc:185-229 | which request is sent and what is returned |
| RegistryCalls.RegistryApi.AsyncHeartBeat | trpc/naming/polarismesh/polarismesh_registry.cc:231-286 | the same request as HeartBeat in every state, and when the future is ready |
| RegistryCalls.WriteBackIsInvisible | trpc/naming/polarismesh/common.h:217-245 | writing the id back changes nothing in a later request but the id |
| RegistryCalls.RegisterThenUnregister | trpc/naming/polarismesh/polarismesh_registry.cc:105-183 | Unregister names the instance that Register returned; the pair removes exactly it and restores the provider exactly when nothing was registered at the info's endpoint before |
| RegistryCalls.PairRemovesEarlierInstance | trpc/naming/polarismesh/polarismesh_registry.cc:105-183 | for every info a provider at which the pair is not neutral: an instance left there by an earlier process is gone afterwards |
| RegistryCalls.UnregisterWithoutId | trpc/naming/polarismesh/polarismesh_registry.cc:162-170 | an info without an id removes the same instance by its endpoint |
| RegistryCalls.EveryRequestIsTheFirst | trpc/naming/polarismesh/polarismesh_registry.cc:105-147 | after any number of Register calls with any answers the next request is the first one again |
| RegistryCalls.HeartbeatNamesInstance | trpc/naming/polarismesh/polarismesh_registry.cc:201-220 | of the registered instances a heartbeat after Register names exactly the one just registered, if and only if no id is configured or it is the returned one |
| RegistryCalls.HeartbeatMissesInstance | trpc/naming/polarismesh/polarismesh_registry.cc:201-220 | a new registration after which the heartbeat by the configured id names no instance |
| RegistryRuns.RunKeepsInv | trpc/naming/polarismesh/polarismesh_registry.cc:105-183 | over any run of Register and Unregister on one info, next to other users of the provider, the next request is always the first one; the info is the caller's until the first accepted Register, and from then on, or from the start if the caller's id is none or a right one, its id names the instance at its endpoint if there is one, and nothing else |
| RegistryRuns.OnlyOwnEndpoint | trpc/naming/polarismesh/polarismesh_registry.cc:149-183 | in any such run a Register or Unregister, also a repeated one with a stale id, leaves every instance at other endpoints alone exactly unless it is a successful Unregister by an id that names one of them, which cannot be after an accepted Register nor from a start without such an id |
| RegistryRuns.UnregisterClearsEndpoint | trpc/naming/polarismesh/polarismesh_registry.cc:149-183 | in any such run nothing is registered at the endpoint after a successful Unregister, exactly unless its id named an instance elsewhere and one is at the endpoint still |
| RegistryRuns.UnregisterSparesOthersIff | trpc/naming/polarismesh/polarismesh_registry.cc:162-170 | one successful Unregister with any info: all other endpoints keep their instances exactly when the info has no id or one that names an instance at its own endpoint |
| RegistryRuns.ForeignIdIsRemoved | trpc/naming/polarismesh/polarismesh_registry_test.cc:262-273 | a concrete run in which an Unregister with a caller-supplied id removes an instance at another endpoint |
| BatchSelect.ConvertInstance | trpc/naming/polarismesh/common.h:82-95 | each field of the endpoint is the instance's own; the metadata is the instance's with `instance_id` overriding, or untouched |
| BatchSelect.BatchEndpoints | trpc/naming/polarismesh/common.h:82-109 | in a batch every endpoint has its own instance's values and metadata with the id |
| BatchSelect.UsableInOrder | trpc/naming/polarismesh/common.h:116-127 | what is kept are exactly the non-isolated instances of non-zero weight, each once, in order |
| BatchSelect.ConvertInstancesNoIsolated | trpc/naming/polarismesh/common.h:116-127 | the loop appends exactly the converted usable instances |
| BatchSelect.ConvertPolarisInstances | trpc/naming/polarismesh/common.h:101-109 | the loop appends every converted instance in order |
| BatchSelect.SelectBatch | trpc/naming/polarismesh/polarismesh_selector.cc:223-318 | only policy ALL filters; every policy appends; a failed call leaves the output alone |
| LimiterFilters.LastSegment | trpc/naming/polarismesh/polarismesh_limiter_server_filter.cc:40-47 | the search from the back gives the part after the last slash |
| LimiterFilters.SegmentIsLongest | trpc/naming/polarismesh/polarismesh_limiter_server_filter.cc:40-47 | that part is the longest slash-free suffix |
| LimiterFilters.LimiterFilter.Invoke | trpc/naming/polarismesh/polarismesh_limiter_server_filter.cc:81-99 | one invocation on either side, from the call and the SDK's answer alone: it is stopped, with the limited error, exactly when an initialised limiter got a limiting answer for a named service before the call; what was asked, under which labels; and what is reported |
| LimiterFilters.AskLimiter | trpc/naming/polarismesh/polarismesh_limiter.cc:69-112 | the question goes to the SDK exactly for an initialised limiter and a named service, and OK and Reject are exactly the SDK's two answers; all else is an error |
| LimiterFilters.ReportsAreExact | trpc/naming/polarismesh/polarismesh_limiter_client_filter.cc:62-80 | over any run the reports are one Reject for each call that an initialised limiter was told to limit and one OK for each finished call, none else, and none with reporting off |
| LimiterFilters.ReportsInOrder | trpc/naming/polarismesh/polarismesh_limiter_client_filter.cc:62-80 | with reporting on the reports are, in order, those of the rejections and finished calls of the run, each with its own call's information and result |
| LimiterFilters.SameLabelIff | trpc/naming/polarismesh/polarismesh_limiter_server_filter.cc:56-74 | a report carries the label that was asked with, on the server exactly when the function name has no slash |
| LimiterFilters.DocumentedLabelIff | README.md:277 | the documented label is used by the server always and by the client exactly without a slash |
| LimiterFilters.LabelsOfOneCall | README.md:277 | a concrete function name with a slash under which server and client ask with different labels |

## Left out

- The SDK behind the API objects: routing, load balancing, circuit breaking and quota are arbitrary answers.
- Weak memory: the double buffer's plain integers are taken as sequentially consistent; so are unlocked reads of the shared pointer, and Init and Destroy of different plugins do not overlap.
- YAML text and PolarisMeshNamingConfig's concatenated text: the codec is modelled on node trees; duplicate keys and key order are not represented.
- SetPolarisMeshSelectorConf: loading the framework's configuration and its fallback for the bind address.
- The codecs of RegistryConfig, ServiceConfig and RateLimiterConfig: plain field by field codecs without conditions.
- ConfigCodec: the encoders and decoders of records without branches or loops are functions on values and not methods; they overwrite fields of a fresh value that no one else sees.
- ConfigObjects.DecodeConsumer: what a half-way exception leaves in the section is not stated, because the section is a local value that the exception discards.
- LimiterFilters.LimiterFilter: one class with a side stands for the two filter classes, which differ in label, error code and where they read names; the numbers in a report (codes, cost) are not represented.
- RegistryCalls.RegistryApi: the registry's calls are modelled on a fixed configuration; its Init and Destroy, which build the service table, are in Plugins.
- Other parts of a Select request: hash key, replica index, canary label, timeout, destination metadata and locality information are copied through lookups that are modelled, but the request object is not.
- Plugin settings copied at Init (timeouts, switches), the plugin id, logging, display functions, metric reports, futures and timestamps.
- Select's assertion that the SDK returned one instance, and PolarisMeshLimiter::FinishLimit, which does nothing.
