/** The registry part of the configuration (default_naming_conf.h) and the table
    that PolarisMeshRegistry builds from it. */
module RegistryConf {
  import opened Prelude

  /** polaris::ServiceKey. */
  datatype ServiceKey = ServiceKey(namespace: string, name: string)

  datatype ServiceConfig = ServiceConfig(
    name: string,
    namespace: string,
    token: string,
    instanceId: string,
    metadata: map<string, string>)

  type Services = map<ServiceKey, ServiceConfig>

  /** The pairs that the loop of Init inserts, in order. */
  function Entries(configs: seq<ServiceConfig>): (r: seq<(ServiceKey, ServiceConfig)>)
    ensures |r| == |configs|
  {
    seq(|configs|, i requires 0 <= i < |configs| => (ServiceKey(configs[i].namespace, configs[i].name), configs[i]))
  }

  /** `services_config_.insert` of every service: the first one for a key stays. */
  function InsertServices(services: Services, configs: seq<ServiceConfig>): Services {
    EmplaceAll(services, Entries(configs))
  }

  lemma InsertServicesAppend(services: Services, a: seq<ServiceConfig>, b: seq<ServiceConfig>)
    ensures InsertServices(services, a + b) == InsertServices(InsertServices(services, a), b)
  {
    assert Entries(a + b) == Entries(a) + Entries(b);
    EmplaceAllAppend(services, Entries(a), Entries(b));
  }

  lemma InsertServicesOne(services: Services, a: seq<ServiceConfig>, c: ServiceConfig)
    ensures InsertServices(services, a + [c])
         == Emplace(InsertServices(services, a), ServiceKey(c.namespace, c.name), c)
  {
    assert Entries(a + [c]) == Entries(a) + [(ServiceKey(c.namespace, c.name), c)];
    EmplaceAllOne(services, Entries(a), ServiceKey(c.namespace, c.name), c);
  }

  /** Inserting a list again, after anything that contains it, changes nothing. */
  lemma InsertServicesTwice(configs: seq<ServiceConfig>)
    ensures InsertServices(InsertServices(map[], configs), configs) == InsertServices(map[], configs)
  {
    var once := InsertServices(map[], configs);
    forall k ensures Get(InsertServices(once, configs), k) == Get(once, k) {
      EmplaceAllGet(once, Entries(configs), k);
      EmplaceAllGet(map[], Entries(configs), k);
    }
    EqualByGet(InsertServices(once, configs), once);
  }

  /** The first configuration listed for a service. */
  function FirstListed(configs: seq<ServiceConfig>, key: ServiceKey): Option<ServiceConfig> {
    if configs == [] then None
    else if configs[0].namespace == key.namespace && configs[0].name == key.name then Some(configs[0])
    else FirstListed(configs[1..], key)
  }

  lemma {:induction false} FirstListedIsFirstEntry(configs: seq<ServiceConfig>, key: ServiceKey)
    ensures FirstValue(Entries(configs), key) == FirstListed(configs, key)
  {
    if configs != [] {
      assert Entries(configs)[1..] == Entries(configs[1..]);
      FirstListedIsFirstEntry(configs[1..], key);
    }
  }
}
