/** Register, Unregister and the two heartbeats of PolarisMeshRegistry
    (polarismesh_registry.cc, common.h), against a provider that is just a set of
    registered instances. */
module RegistryCalls {
  import opened Prelude
  import opened RegistryConf

  type Meta = map<string, string>

  /** The framework's RegistryInfo. */
  datatype Info = Info(name: string, host: string, port: int, meta: Meta)

  /** PolarisMeshRegistryInfo, without its never-set flow id. */
  datatype PolarisInfo = PolarisInfo(
    key: ServiceKey, token: string, host: string, port: int, timeout: nat, instanceId: string,
    protocol: string, weight: int, priority: int, version: string, metadata: Meta,
    healthCheck: bool, healthCheckType: int, ttl: int)

  /** What the calls read from elsewhere: the table built by Init, the heartbeat
      timeout, the framework's global configuration, and the C library's atoi. */
  datatype Config = Config(
    services: Services, timeout: nat, globalNamespace: string, heartbeatEnabled: bool,
    atoi: string -> int)

  const RESERVED := {"token", "instance_id", "protocol", "weight", "priority", "version",
                     "enable_health_check", "health_check_type", "ttl", "namespace"}

  predicate Reserved(key: string) {
    key in RESERVED
  }

  /** GetStringFromMetadata. */
  function StringOf(meta: Meta, key: string, default: string): string {
    if key in meta then meta[key] else default
  }

  /** GetIntFromMetadata. */
  function IntOf(c: Config, meta: Meta, key: string, default: int): int {
    if key in meta then c.atoi(meta[key]) else default
  }

  function Custom(meta: Meta): Meta {
    map key | key in meta && !Reserved(key) :: meta[key]
  }

  /** ConvertToPolarisMeshRegistryInfo, into a fresh value; it leaves the namespace
      and the timeout to its caller. */
  function Converted(c: Config, i: Info): PolarisInfo {
    PolarisInfo(
      ServiceKey("", i.name), StringOf(i.meta, "token", ""), i.host, i.port, 0,
      StringOf(i.meta, "instance_id", ""), StringOf(i.meta, "protocol", ""),
      IntOf(c, i.meta, "weight", 100), IntOf(c, i.meta, "priority", 0),
      StringOf(i.meta, "version", ""), Custom(i.meta),
      IntOf(c, i.meta, "enable_health_check", 0) != 0,
      IntOf(c, i.meta, "health_check_type", 0), IntOf(c, i.meta, "ttl", 0))
  }

  function KeyOf(c: Config, i: Info): ServiceKey {
    ServiceKey(if c.globalNamespace != "" then c.globalNamespace else StringOf(i.meta, "namespace", ""), i.name)
  }

  /** What the configured service adds, with the early return when no token is found. */
  function Completed(c: Config, p: PolarisInfo): PolarisInfo {
    if p.token == "" && p.key !in c.services then p else
    var q := if p.token == "" then p.(token := c.services[p.key].token) else p;
    if q.key in c.services then q.(metadata := c.services[q.key].metadata) else q
  }

  /** SetupPolarisMeshRegistryInfo. */
  function Setup(c: Config, i: Info): PolarisInfo {
    Completed(c, Converted(c, i).(key := KeyOf(c, i), timeout := c.timeout))
  }

  /** The early return never costs anything: token and metadata in closed form. */
  lemma SetupClosedForm(c: Config, i: Info)
    ensures
      var p, key, given := Setup(c, i), KeyOf(c, i), StringOf(i.meta, "token", "");
      && p.key == key
      && p.token == (if given != "" then given else if key in c.services then c.services[key].token else "")
      && p.metadata.Keys == (if key in c.services then c.services[key].metadata.Keys
                             else set k | k in i.meta && !Reserved(k))
      && forall k :: k in p.metadata ==>
           p.metadata[k] == if key in c.services then c.services[key].metadata[k] else i.meta[k]
  {
  }

  // ---- Requests ----

  datatype RegisterRequest = RegisterRequest(
    key: ServiceKey, token: string, host: string, port: int, timeout: nat, protocol: string,
    weight: int, priority: int, version: string, metadata: Meta, healthCheck: bool,
    healthCheckType: int, ttl: int)

  /** How Deregister and Heartbeat name an instance. */
  datatype InstanceRequest =
    | ByEndpoint(key: ServiceKey, token: string, host: string, port: int, timeout: nat)
    | ById(token: string, id: string, timeout: nat)

  function RequestOf(p: PolarisInfo, healthCheck: bool): RegisterRequest {
    RegisterRequest(p.key, p.token, p.host, p.port, p.timeout, p.protocol, p.weight, p.priority,
                    p.version, p.metadata, healthCheck, p.healthCheckType, p.ttl)
  }

  function ToRegister(c: Config, i: Info): RegisterRequest {
    var p := Setup(c, i);
    RequestOf(p, if "enable_health_check" in i.meta then p.healthCheck else c.heartbeatEnabled)
  }

  function ToDeregister(c: Config, i: Info): InstanceRequest {
    var p := Setup(c, i);
    if p.instanceId == "" then ByEndpoint(p.key, p.token, p.host, p.port, p.timeout)
    else ById(p.token, p.instanceId, p.timeout)
  }

  /** None when the service is not configured. */
  function ToHeartbeat(c: Config, i: Info): Option<InstanceRequest> {
    var key := KeyOf(c, i);
    if key !in c.services then None else
    var s := c.services[key];
    Some(if s.instanceId == "" then ByEndpoint(key, s.token, i.host, i.port, c.timeout)
         else ById(s.token, s.instanceId, c.timeout))
  }

  lemma CompletedOnly(c: Config, p: PolarisInfo)
    ensures var q := Completed(c, p); q == p.(token := q.token, metadata := q.metadata)
  {
  }

  lemma ConvertedIs(c: Config, i: Info)
    ensures
      var p := Converted(c, i);
      && p.host == i.host && p.port == i.port
      && p.protocol == (if "protocol" in i.meta then i.meta["protocol"] else "")
      && p.weight == (if "weight" in i.meta then c.atoi(i.meta["weight"]) else 100)
      && p.priority == (if "priority" in i.meta then c.atoi(i.meta["priority"]) else 0)
      && p.version == (if "version" in i.meta then i.meta["version"] else "")
      && p.healthCheckType == (if "health_check_type" in i.meta then c.atoi(i.meta["health_check_type"]) else 0)
      && p.ttl == (if "ttl" in i.meta then c.atoi(i.meta["ttl"]) else 0)
  {
  }

  lemma PlainFields(c: Config, i: Info)
    ensures
      var r, p := ToRegister(c, i), Converted(c, i);
      && r.host == p.host && r.port == p.port && r.timeout == c.timeout && r.protocol == p.protocol
      && r.weight == p.weight && r.priority == p.priority && r.version == p.version
      && r.healthCheckType == p.healthCheckType && r.ttl == p.ttl
  {
    CompletedOnly(c, Converted(c, i).(key := KeyOf(c, i), timeout := c.timeout));
  }

  lemma KeyedFields(c: Config, i: Info)
    ensures
      var r := ToRegister(c, i);
      && r.key == KeyOf(c, i)
      && r.healthCheck == (if "enable_health_check" in i.meta then c.atoi(i.meta["enable_health_check"]) != 0
                           else c.heartbeatEnabled)
      && r.metadata == if r.key in c.services then c.services[r.key].metadata else i.meta - RESERVED
  {
    assert Custom(i.meta) == i.meta - RESERVED;
  }

  /** The whole Register request, from the caller's metadata, the configured service
      and the framework's configuration. */
  lemma RegisterRequestIs(c: Config, i: Info)
    ensures
      var namespace := if c.globalNamespace != "" then c.globalNamespace
                       else if "namespace" in i.meta then i.meta["namespace"] else "";
      var key := ServiceKey(namespace, i.name);
      var given := if "token" in i.meta then i.meta["token"] else "";
      ToRegister(c, i) == RegisterRequest(
        key,
        if given != "" then given else if key in c.services then c.services[key].token else "",
        i.host, i.port, c.timeout,
        if "protocol" in i.meta then i.meta["protocol"] else "",
        if "weight" in i.meta then c.atoi(i.meta["weight"]) else 100,
        if "priority" in i.meta then c.atoi(i.meta["priority"]) else 0,
        if "version" in i.meta then i.meta["version"] else "",
        if key in c.services then c.services[key].metadata else i.meta - RESERVED,
        if "enable_health_check" in i.meta then c.atoi(i.meta["enable_health_check"]) != 0 else c.heartbeatEnabled,
        if "health_check_type" in i.meta then c.atoi(i.meta["health_check_type"]) else 0,
        if "ttl" in i.meta then c.atoi(i.meta["ttl"]) else 0)
  {
    ConvertedIs(c, i);
    PlainFields(c, i);
    KeyedFields(c, i);
    SetupClosedForm(c, i);
  }

  /** How Unregister names its instance, with the same key and token as Register. */
  lemma DeregisterRequestIs(c: Config, i: Info)
    ensures
      var r := ToRegister(c, i);
      ToDeregister(c, i)
      == if "instance_id" in i.meta && i.meta["instance_id"] != "" then ById(r.token, i.meta["instance_id"], c.timeout)
         else ByEndpoint(r.key, r.token, i.host, i.port, c.timeout)
  {
  }

  /** How a heartbeat names its instance: with the configured token, also where
      Register would take another from the info, and for configured services only. */
  lemma HeartbeatRequestIs(c: Config, i: Info)
    ensures
      var key := ToRegister(c, i).key;
      && (ToHeartbeat(c, i).None? <==> key !in c.services)
      && (key in c.services ==>
            ToHeartbeat(c, i).value
            == var s := c.services[key];
               if s.instanceId != "" then ById(s.token, s.instanceId, c.timeout)
               else ByEndpoint(key, s.token, i.host, i.port, c.timeout))
  {
    RegisterRequestIs(c, i);
  }

  /** Each reserved entry of the metadata reaches its own field of the request and no
      other. */
  lemma ReservedEntryHasItsField(c: Config, i: Info, key: string, v: string)
    requires Reserved(key)
    ensures
      var r, r' := ToRegister(c, i), ToRegister(c, i.(meta := i.meta[key := v]));
      && r'.host == r.host && r'.port == r.port && r'.timeout == r.timeout
      && r'.protocol == (if key == "protocol" then v else r.protocol)
      && r'.weight == (if key == "weight" then c.atoi(v) else r.weight)
      && r'.priority == (if key == "priority" then c.atoi(v) else r.priority)
      && r'.version == (if key == "version" then v else r.version)
      && r'.healthCheckType == (if key == "health_check_type" then c.atoi(v) else r.healthCheckType)
      && r'.ttl == (if key == "ttl" then c.atoi(v) else r.ttl)
  {
    var i' := i.(meta := i.meta[key := v]);
    ConvertedIs(c, i);
    PlainFields(c, i);
    ConvertedIs(c, i');
    PlainFields(c, i');
  }

  lemma KeyOfEntry(c: Config, i: Info, key: string, v: string)
    ensures
      KeyOf(c, i.(meta := i.meta[key := v]))
      == if key == "namespace" && c.globalNamespace == "" then ServiceKey(v, i.name) else KeyOf(c, i)
  {
  }

  /** A token goes into the token; only the namespace matters for it besides. */
  lemma TokenOfEntry(c: Config, i: Info, key: string, v: string)
    ensures
      var i' := i.(meta := i.meta[key := v]);
      && (key !in {"token", "namespace"} ==> ToRegister(c, i').token == ToRegister(c, i).token)
      && (key == "token" && v != "" ==> ToRegister(c, i').token == v)
  {
    var i' := i.(meta := i.meta[key := v]);
    KeyOfEntry(c, i, key, v);
    SetupClosedForm(c, i);
    SetupClosedForm(c, i');
    assert key != "token" ==> StringOf(i'.meta, "token", "") == StringOf(i.meta, "token", "");
  }

  /** The namespace decides which service is registered and configured; no other
      reserved entry reaches the key or the metadata. */
  lemma KeyAndMetadataOfEntry(c: Config, i: Info, key: string, v: string)
    requires Reserved(key)
    ensures
      var r, r' := ToRegister(c, i), ToRegister(c, i.(meta := i.meta[key := v]));
      && r'.key == (if key == "namespace" && c.globalNamespace == "" then ServiceKey(v, i.name) else r.key)
      && (key != "namespace" ==> r'.metadata == r.metadata)
  {
    var i' := i.(meta := i.meta[key := v]);
    KeyOfEntry(c, i, key, v);
    KeyedFields(c, i);
    KeyedFields(c, i');
    assert i'.meta - RESERVED == i.meta - RESERVED;
  }

  lemma HealthCheckOfEntry(c: Config, i: Info, key: string, v: string)
    ensures
      ToRegister(c, i.(meta := i.meta[key := v])).healthCheck
      == if key == "enable_health_check" then c.atoi(v) != 0 else ToRegister(c, i).healthCheck
  {
    KeyedFields(c, i);
    KeyedFields(c, i.(meta := i.meta[key := v]));
  }

  datatype ReturnCode = ReturnOk | ExistedResource | OtherError

  /** The SDK's answer to a Register: a code and the instance id it wrote. */
  datatype Answer = Answer(code: ReturnCode, id: string)

  predicate Accepted(a: Answer) {
    a.code == ReturnOk || a.code == ExistedResource
  }

  /** What Register leaves in the caller's info. */
  function Registered(i: Info, a: Answer): Info {
    if Accepted(a) then i.(meta := i.meta["instance_id" := a.id]) else i
  }

  // ---- The objects ----

  class RegistryInfo {
    const name: string
    const host: string
    const port: int
    var meta: Meta

    ghost function Value(): Info
      reads this
    {
      Info(name, host, port, meta)
    }

    constructor (i: Info)
      ensures Value() == i
    {
      name, host, port, meta := i.name, i.host, i.port, i.meta;
    }
  }

  /** The loop of ConvertToPolarisMeshRegistryInfo over the metadata. */
  method CopyCustom(meta: Meta) returns (custom: Meta)
    ensures custom == Custom(meta)
  {
    custom := map[];
    var todo := meta.Keys;
    while todo != {}
      invariant todo <= meta.Keys
      invariant custom == map key | key in meta && key !in todo && !Reserved(key) :: meta[key]
      decreases todo
    {
      var key :| key in todo;
      todo := todo - {key};
      if Reserved(key) {
        continue;
      }
      custom := custom[key := meta[key]];
    }
  }

  /** The three calls of an initialised or uninitialised registry. `sent` is the
      request handed to the SDK, None when the call fails before that. */
  class RegistryApi {
    const init: bool
    const config: Config

    constructor (init: bool, config: Config)
      ensures this.init == init && this.config == config
    {
      this.init, this.config := init, config;
    }

    method SetupInfo(info: RegistryInfo) returns (p: PolarisInfo)
      ensures p == Setup(config, info.Value())
    {
      var i := Info(info.name, info.host, info.port, info.meta);
      var custom := CopyCustom(info.meta);
      p := Converted(config, i).(metadata := custom);
      p := p.(key := ServiceKey(config.globalNamespace, info.name));
      if p.key.namespace == "" {
        p := p.(key := ServiceKey(StringOf(info.meta, "namespace", ""), info.name));
      }
      p := p.(timeout := config.timeout);
      if p.token == "" {
        if p.key !in config.services {
          return;
        }
        p := p.(token := config.services[p.key].token);
      }
      if p.key in config.services {
        p := p.(metadata := config.services[p.key].metadata);
      }
    }

    method Register(info: RegistryInfo?, answer: Answer) returns (rc: int, sent: Option<RegisterRequest>)
      modifies info
      ensures sent.Some? <==> init && info != null
      ensures info != null && init ==>
        && sent == Some(ToRegister(config, old(info.Value())))
        && info.Value() == Registered(old(info.Value()), answer)
      ensures info != null && !init ==> info.Value() == old(info.Value())
      ensures rc == if sent.Some? && Accepted(answer) then 0 else -1
    {
      if !init || info == null {
        return -1, None;
      }
      var p := SetupInfo(info);
      if "enable_health_check" !in info.meta {
        p := p.(healthCheck := config.heartbeatEnabled);
      }
      sent := Some(RegisterRequest(p.key, p.token, p.host, p.port, p.timeout, p.protocol, p.weight, p.priority,
                                   p.version, p.metadata, p.healthCheck, p.healthCheckType, p.ttl));
      if answer.code == ReturnOk || answer.code == ExistedResource {
        info.meta := info.meta["instance_id" := answer.id];
        return 0, sent;
      }
      return -1, sent;
    }

    method Unregister(info: RegistryInfo?, answer: ReturnCode) returns (rc: int, sent: Option<InstanceRequest>)
      ensures sent == if init && info != null then Some(ToDeregister(config, info.Value())) else None
      ensures rc == if sent.Some? && answer == ReturnOk then 0 else -1
    {
      if !init || info == null {
        return -1, None;
      }
      var p := SetupInfo(info);
      if p.instanceId == "" {
        sent := Some(ByEndpoint(p.key, p.token, p.host, p.port, p.timeout));
      } else {
        sent := Some(ById(p.token, p.instanceId, p.timeout));
      }
      return if answer == ReturnOk then 0 else -1, sent;
    }

    method HeartBeat(info: RegistryInfo?, answer: ReturnCode) returns (rc: int, sent: Option<InstanceRequest>)
      ensures sent == if init && info != null then ToHeartbeat(config, info.Value()) else None
      ensures rc == if sent.Some? && answer == ReturnOk then 0 else -1
    {
      if !init || info == null {
        return -1, None;
      }
      var namespace := config.globalNamespace;
      if namespace == "" {
        namespace := StringOf(info.meta, "namespace", "");
      }
      var key := ServiceKey(namespace, info.name);
      if key !in config.services {
        return -1, None;
      }
      var service := config.services[key];
      if service.instanceId == "" {
        sent := Some(ByEndpoint(key, service.token, info.host, info.port, config.timeout));
      } else {
        sent := Some(ById(service.token, service.instanceId, config.timeout));
      }
      return if answer == ReturnOk then 0 else -1, sent;
    }

    /** The synchronous part of AsyncHeartBeat: whether the future is ready or
        failed, and the same request as HeartBeat in every state. */
    method AsyncHeartBeat(info: RegistryInfo?, answer: ReturnCode) returns (ready: bool, sent: Option<InstanceRequest>)
      ensures sent == if init && info != null then ToHeartbeat(config, info.Value()) else None
      ensures ready <==> sent.Some? && answer == ReturnOk
    {
      if !init {
        return false, None;
      }
      if info == null {
        return false, None;
      }
      var namespace := config.globalNamespace;
      if namespace == "" {
        namespace := StringOf(info.meta, "namespace", "");
      }
      var key := ServiceKey(namespace, info.name);
      if key !in config.services {
        return false, None;
      }
      if config.services[key].instanceId == "" {
        sent := Some(ByEndpoint(key, config.services[key].token, info.host, info.port, config.timeout));
      } else {
        sent := Some(ById(config.services[key].token, config.services[key].instanceId, config.timeout));
      }
      ready := answer == ReturnOk;
    }
  }

  // ---- The provider ----

  /** Registered instances by id. */
  type Provider = map<string, RegisterRequest>

  predicate SameEndpoint(a: RegisterRequest, key: ServiceKey, host: string, port: int) {
    a.key == key && a.host == host && a.port == port
  }

  ghost predicate Vacant(p: Provider, key: ServiceKey, host: string, port: int) {
    forall id :: id in p ==> !SameEndpoint(p[id], key, host, port)
  }

  /** A Register that succeeds adds one instance under a new id, or finds the one
      that is already at this endpoint. */
  ghost predicate Registers(p: Provider, r: RegisterRequest, a: Answer, p': Provider) {
    match a.code
    case ReturnOk =>
      a.id != "" && a.id !in p && Vacant(p, r.key, r.host, r.port) && p' == p[a.id := r]
    case ExistedResource =>
      a.id != "" && a.id in p && SameEndpoint(p[a.id], r.key, r.host, r.port) && p' == p
    case OtherError => p' == p
  }

  /** The registered instances that a Deregister or Heartbeat names. */
  ghost function Names(p: Provider, r: InstanceRequest): set<string> {
    match r
    case ById(_, id, _) => p.Keys * {id}
    case ByEndpoint(key, _, host, port, _) => set id | id in p && SameEndpoint(p[id], key, host, port)
  }

  /** A Deregister that succeeds removes an instance that it names. */
  ghost predicate Deregisters(p: Provider, r: InstanceRequest, code: ReturnCode, p': Provider) {
    if code != ReturnOk then p' == p else exists id :: id in Names(p, r) && p' == p - {id}
  }

  /** No two registered instances share an endpoint. */
  ghost predicate UniqueEndpoints(p: Provider) {
    forall a, b :: a in p && b in p && SameEndpoint(p[a], p[b].key, p[b].host, p[b].port) ==> a == b
  }

  lemma EndpointsStayUnique(p: Provider, r: RegisterRequest, a: Answer, p': Provider)
    requires UniqueEndpoints(p) && Registers(p, r, a, p')
    ensures UniqueEndpoints(p')
  {
  }

  lemma OneInstanceAt(p: Provider, r: InstanceRequest, id: string)
    requires UniqueEndpoints(p) && r.ByEndpoint? && id in p && SameEndpoint(p[id], r.key, r.host, r.port)
    ensures Names(p, r) == {id}
  {
    forall x | x in Names(p, r) ensures x == id {
      assert SameEndpoint(p[x], p[id].key, p[id].host, p[id].port);
    }
  }

  /** An info without an instance id, such as a copy made before Register, removes
      the very instance that Register named: by endpoint instead of by id. */
  lemma UnregisterWithoutId(c: Config, i: Info, p0: Provider, a: Answer, p1: Provider, p2: Provider)
    requires UniqueEndpoints(p0) && StringOf(i.meta, "instance_id", "") == ""
    requires Registers(p0, ToRegister(c, i), a, p1) && Accepted(a)
    requires Deregisters(p1, ToDeregister(c, i), ReturnOk, p2)
    ensures ToDeregister(c, i).ByEndpoint?
    ensures p2 == p1 - {a.id}
  {
    var r := ToRegister(c, i);
    EndpointsStayUnique(p0, r, a, p1);
    assert SameEndpoint(p1[a.id], r.key, r.host, r.port);
    OneInstanceAt(p1, ToDeregister(c, i), a.id);
  }

  lemma OtherKeyKept(meta: Meta, id: string, key: string)
    requires |key| != |"instance_id"|
    ensures Get(meta["instance_id" := id], key) == Get(meta, key)
  {
  }

  lemma ConvertedWriteBack(c: Config, i: Info, id: string)
    ensures Converted(c, i.(meta := i.meta["instance_id" := id])) == Converted(c, i).(instanceId := id)
  {
    var m, m' := i.meta, i.meta["instance_id" := id];
    OtherKeyKept(m, id, "token");
    OtherKeyKept(m, id, "protocol");
    OtherKeyKept(m, id, "weight");
    OtherKeyKept(m, id, "priority");
    OtherKeyKept(m, id, "version");
    OtherKeyKept(m, id, "enable_health_check");
    OtherKeyKept(m, id, "health_check_type");
    OtherKeyKept(m, id, "ttl");
    assert Reserved("instance_id");
    assert Custom(m') == Custom(m);
  }

  lemma CompletedKeepsId(c: Config, p: PolarisInfo, id: string)
    ensures Completed(c, p.(instanceId := id)) == Completed(c, p).(instanceId := id)
  {
  }

  lemma SetupWriteBack(c: Config, i: Info, id: string)
    ensures
      var i' := i.(meta := i.meta["instance_id" := id]);
      Setup(c, i') == Setup(c, i).(instanceId := id)
  {
    ConvertedWriteBack(c, i, id);
    OtherKeyKept(i.meta, id, "namespace");
    CompletedKeepsId(c, Converted(c, i).(key := KeyOf(c, i), timeout := c.timeout), id);
  }

  /** Nothing in the request comes from the reserved `instance_id`. */
  lemma WriteBackIsInvisible(c: Config, i: Info, id: string)
    ensures
      var i' := i.(meta := i.meta["instance_id" := id]);
      && ToRegister(c, i') == ToRegister(c, i)
      && Setup(c, i') == Setup(c, i).(instanceId := id)
  {
    SetupWriteBack(c, i, id);
    OtherKeyKept(i.meta, id, "enable_health_check");
  }

  /** Unregister finds the instance that Register named. The pair restores the
      provider exactly when nothing was registered at the endpoint before; an
      instance that was there before is removed. */
  lemma RegisterThenUnregister(c: Config, i: Info, p0: Provider, a: Answer, p1: Provider, p2: Provider)
    requires Registers(p0, ToRegister(c, i), a, p1) && Accepted(a)
    requires Deregisters(p1, ToDeregister(c, Registered(i, a)), ReturnOk, p2)
    ensures ToDeregister(c, Registered(i, a)) == ById(ToRegister(c, i).token, a.id, c.timeout)
    ensures p2 == p0 - {a.id}
    ensures p2 == p0 <==> Vacant(p0, KeyOf(c, i), i.host, i.port)
  {
    WriteBackIsInvisible(c, i, a.id);
    assert a.code == ReturnOk ==> p0 - {a.id} == p0;
    assert a.code == ExistedResource ==> a.id in p0;
  }

  /** The other case, at a provider that knows the endpoint: an instance that an
      earlier process registered is gone after the pair. */
  lemma PairRemovesEarlierInstance(c: Config, i: Info)
    ensures
      var before, a := map["earlier" := ToRegister(c, i)], Answer(ExistedResource, "earlier");
      && Registers(before, ToRegister(c, i), a, before) && Accepted(a)
      && Deregisters(before, ToDeregister(c, Registered(i, a)), ReturnOk, map[])
  {
    var before := map["earlier" := ToRegister(c, i)];
    WriteBackIsInvisible(c, i, "earlier");
    assert "earlier" in Names(before, ToDeregister(c, Registered(i, Answer(ExistedResource, "earlier"))));
    assert before - {"earlier"} == map[];
  }

  /** The info after a run of Register calls with any answers. */
  function RegisteredAll(i: Info, answers: seq<Answer>): Info {
    if answers == [] then i
    else Registered(RegisteredAll(i, answers[..|answers| - 1]), answers[|answers| - 1])
  }

  /** However often an info has been registered, the next request is the first
      one again. */
  lemma {:induction false} EveryRequestIsTheFirst(c: Config, i: Info, answers: seq<Answer>)
    ensures ToRegister(c, RegisteredAll(i, answers)) == ToRegister(c, i)
  {
    if answers != [] {
      var n := |answers| - 1;
      EveryRequestIsTheFirst(c, i, answers[..n]);
      WriteBackIsInvisible(c, RegisteredAll(i, answers[..n]), answers[n].id);
    }
  }

  /** A heartbeat after Register names the instance just registered and no other,
      exactly when no id is configured or the configured one is the returned one:
      it looks at the configuration and not at what Register wrote back. */
  lemma HeartbeatNamesInstance(c: Config, i: Info, p0: Provider, a: Answer, p1: Provider)
    requires UniqueEndpoints(p0) && Registers(p0, ToRegister(c, i), a, p1) && Accepted(a)
    requires KeyOf(c, i) in c.services
    ensures
      var configured := c.services[KeyOf(c, i)].instanceId;
      Names(p1, ToHeartbeat(c, Registered(i, a)).value) == {a.id}
      <==> configured == "" || configured == a.id
  {
    var r, i' := ToRegister(c, i), Registered(i, a);
    EndpointsStayUnique(p0, r, a, p1);
    OtherKeyKept(i.meta, a.id, "namespace");
    assert KeyOf(c, i') == KeyOf(c, i) == r.key;
    if c.services[r.key].instanceId == "" {
      OneInstanceAt(p1, ToHeartbeat(c, i').value, a.id);
    }
  }

  /** The other case, at an empty provider: a heartbeat that names no instance. */
  lemma HeartbeatMissesInstance(c: Config, i: Info)
    requires KeyOf(c, i) in c.services && c.services[KeyOf(c, i)].instanceId == "configured"
    ensures
      var r, a := ToRegister(c, i), Answer(ReturnOk, "new");
      && Registers(map[], r, a, map["new" := r])
      && Names(map["new" := r], ToHeartbeat(c, Registered(i, a)).value) == {}
  {
    OtherKeyKept(i.meta, "new", "namespace");
    assert KeyOf(c, Registered(i, Answer(ReturnOk, "new"))) == KeyOf(c, i);
  }
}
