/** What survives writing a selector configuration and reading it again. */
module ConfigRoundTrip {
  import opened Prelude
  import opened Yaml
  import opened ConfigCodec

  // ---- The parts ----

  lemma ClusterBack(y: Scalars, c: Cluster)
    ensures FreshCluster(y, ClusterNode(c)) == Ok(c)
  {
  }

  lemma SystemField(s: System, name: ClusterName)
    requires name in KNOWN_CLUSTERS
    ensures Field(SystemNode(s), ClusterKey(name)) == if name in s then Some(ClusterNode(s[name])) else None
  {
    var f1 := AssignCluster(map[], s, DiscoverCluster);
    var f3 := AssignCluster(AssignCluster(f1, s, HealthCheckCluster), s, MonitorCluster);
    assert Get(f3, ClusterKey(name)) == if name in s then Some(ClusterNode(s[name])) else None;
  }

  lemma ReadClusterBack(y: Scalars, s: System, name: ClusterName, r: System)
    requires name in KNOWN_CLUSTERS
    ensures ReadCluster(y, SystemNode(s), name, r) == Ok(if name in s then r[name := s[name]] else r)
  {
    SystemField(s, name);
    if name in s { ClusterBack(y, s[name]); }
  }

  lemma SystemBackByName(y: Scalars, s: System)
    ensures
      var r1 := if DiscoverCluster in s then map[DiscoverCluster := s[DiscoverCluster]] else map[];
      var r2 := if HealthCheckCluster in s then r1[HealthCheckCluster := s[HealthCheckCluster]] else r1;
      FreshSystem(y, SystemNode(s)) == Ok(if MonitorCluster in s then r2[MonitorCluster := s[MonitorCluster]] else r2)
  {
    var r1 := if DiscoverCluster in s then map[DiscoverCluster := s[DiscoverCluster]] else map[];
    var r2 := if HealthCheckCluster in s then r1[HealthCheckCluster := s[HealthCheckCluster]] else r1;
    ReadClusterBack(y, s, DiscoverCluster, map[]);
    ReadClusterBack(y, s, HealthCheckCluster, r1);
    ReadClusterBack(y, s, MonitorCluster, r2);
    assert FreshSystem(y, SystemNode(s)) == ReadCluster(y, SystemNode(s), MonitorCluster, r2);
  }

  function KnownOnly(s: System): System {
    map name | name in s && name in KNOWN_CLUSTERS :: s[name]
  }

  lemma SystemBack(y: Scalars, s: System)
    ensures FreshSystem(y, SystemNode(s)) == Ok(KnownOnly(s))
  {
    SystemBackByName(y, s);
    var r1 := if DiscoverCluster in s then map[DiscoverCluster := s[DiscoverCluster]] else map[];
    var r2 := if HealthCheckCluster in s then r1[HealthCheckCluster := s[HealthCheckCluster]] else r1;
    assert (if MonitorCluster in s then r2[MonitorCluster := s[MonitorCluster]] else r2) == KnownOnly(s);
  }

  lemma LocationBack(y: Scalars, c: Location)
    requires Faithful(y)
    ensures FreshLocation(y, LocationNode(y, c)) == Ok(c)
  {
  }

  lemma ApiBack(y: Scalars, c: Api)
    requires Faithful(y)
    ensures FreshApi(y, ApiNode(y, c)) == Ok(c)
  {
    LocationBack(y, c.location);
  }

  lemma ConnectorBack(y: Scalars, c: Connector)
    requires Faithful(y)
    ensures FreshConnector(y, ConnectorNode(y, c)) == Ok(c.(refreshInterval := REFRESH_INTERVAL))
  {
    StringsBack(y, c.addresses);
  }

  lemma MetricBack(y: Scalars, c: Metric)
    requires Faithful(y)
    ensures FreshMetric(y, MetricNode(y, c)) == Ok(c.(name := "trpc"))
  {
  }

  lemma LocalCacheBack(y: Scalars, c: LocalCache)
    requires Faithful(y)
    ensures FreshLocalCache(y, LocalCacheNode(y, c)) == Ok(c)
  {
  }

  lemma ErrorCountBack(y: Scalars, c: ErrorCount)
    requires Faithful(y)
    ensures FreshErrorCount(y, ErrorCountNode(y, c)) == Ok(c)
  {
  }

  lemma ErrorRateBack(y: Scalars, c: ErrorRate)
    requires Faithful(y)
    ensures FreshErrorRate(y, ErrorRateNode(y, c)) == Ok(c)
  {
  }

  lemma BreakerBack(y: Scalars, c: Breaker)
    requires Faithful(y)
    ensures FreshBreaker(y, BreakerNode(y, c)) == Ok(c)
  {
    StringsBack(y, c.chain);
    ErrorCountBack(y, c.plugin.errorCount);
    ErrorRateBack(y, c.plugin.errorRate);
    assert FreshBreakerPlugin(y, BreakerPluginNode(y, c.plugin)) == Ok(c.plugin);
  }

  lemma OutlierBack(y: Scalars, c: Outlier)
    requires Faithful(y)
    ensures FreshOutlier(y, OutlierNode(y, c)) == Ok(c)
  {
    StringsBack(y, c.chain);
  }

  lemma BalancerBack(y: Scalars, c: Balancer)
    requires Faithful(y)
    ensures FreshBalancer(y, BalancerNode(y, c)) == Ok(c)
  {
  }

  lemma NearbyBack(y: Scalars, c: Nearby)
    requires Faithful(y)
    ensures FreshNearby(y, NearbyNode(y, c)) == Ok(c)
  {
  }

  lemma RouterBack(y: Scalars, c: Router)
    requires Faithful(y)
    ensures FreshRouter(y, RouterNode(y, c)) == Ok(c)
  {
    StringsBack(y, c.chain);
    NearbyBack(y, c.plugin);
  }

  function SettledGlobal(c: Global): Global {
    Global(KnownOnly(c.system), c.api, c.connector, c.metric.(name := "trpc"))
  }

  lemma GlobalBack(y: Scalars, c: Global)
    requires Faithful(y)
    ensures
      var connector := c.connector.(refreshInterval := REFRESH_INTERVAL);
      FreshGlobal(y, GlobalNode(y, c)) == Ok(SettledGlobal(c).(connector := connector))
  {
    SystemBack(y, c.system);
    ApiBack(y, c.api);
    ConnectorBack(y, c.connector);
    MetricBack(y, c.metric);
  }

  // ---- Normal form ----

  /** A sub-configuration whose flag is not set counts as the default. */
  function SettledService(c: Service): Service {
    c.(breaker := if c.setBreaker then c.breaker else DEFAULT_BREAKER,
       outlier := if c.setOutlier then c.outlier else DEFAULT_OUTLIER,
       balancer := if c.setBalancer then c.balancer else DEFAULT_BALANCER,
       router := if c.setRouter then c.router else DEFAULT_ROUTER)
  }

  function SettledServices(s: seq<Service>): (r: seq<Service>)
    ensures |r| == |s|
  {
    seq(|s|, i requires 0 <= i < |s| => SettledService(s[i]))
  }

  /** Everything the format can express, other than the refresh interval of the
      connector, which it can read but does not write. */
  function Settled(c: Selector): Selector {
    c.(global := SettledGlobal(c.global), consumer := c.consumer.(services := SettledServices(c.consumer.services)))
  }

  function ForgetInterval(c: Selector): Selector {
    c.(global := c.global.(connector := c.global.connector.(refreshInterval := REFRESH_INTERVAL)))
  }

  function Normal(c: Selector): Selector {
    ForgetInterval(Settled(c))
  }

  predicate FieldIs(n: Node, k: Key, written: bool, v: Node) {
    Field(n, k) == if written then Some(v) else None
  }

  lemma ServiceFields(y: Scalars, c: Service)
    ensures
      var n := ServiceNode(y, c);
      && FieldIs(n, KName, true, Scalar(c.name)) && FieldIs(n, KNamespace, true, Scalar(c.namespace))
      && FieldIs(n, KCircuitBreaker, c.setBreaker, BreakerNode(y, c.breaker))
      && FieldIs(n, KOutlierDetection, c.setOutlier, OutlierNode(y, c.outlier))
      && FieldIs(n, KLoadBalancer, c.setBalancer, BalancerNode(y, c.balancer))
      && FieldIs(n, KServiceRouter, c.setRouter, RouterNode(y, c.router))
  {
  }

  lemma ServiceFromFields(y: Scalars, n: Node, c: Service, breaker: Node, outlier: Node, balancer: Node, router: Node)
    requires !n.Scalar?
    requires FieldIs(n, KName, true, Scalar(c.name)) && FieldIs(n, KNamespace, true, Scalar(c.namespace))
    requires FieldIs(n, KCircuitBreaker, c.setBreaker, breaker) && FreshBreaker(y, breaker) == Ok(c.breaker)
    requires FieldIs(n, KOutlierDetection, c.setOutlier, outlier) && FreshOutlier(y, outlier) == Ok(c.outlier)
    requires FieldIs(n, KLoadBalancer, c.setBalancer, balancer) && FreshBalancer(y, balancer) == Ok(c.balancer)
    requires FieldIs(n, KServiceRouter, c.setRouter, router) && FreshRouter(y, router) == Ok(c.router)
    ensures FreshService(y, n) == Ok(SettledService(c))
  {
  }

  lemma ServiceBack(y: Scalars, c: Service)
    requires Faithful(y)
    ensures FreshService(y, ServiceNode(y, c)) == Ok(SettledService(c))
  {
    BreakerBack(y, c.breaker);
    OutlierBack(y, c.outlier);
    BalancerBack(y, c.balancer);
    RouterBack(y, c.router);
    ServiceFields(y, c);
    ServiceFromFields(y, ServiceNode(y, c), c, BreakerNode(y, c.breaker), OutlierNode(y, c.outlier),
                      BalancerNode(y, c.balancer), RouterNode(y, c.router));
  }

  lemma ServicesBack(y: Scalars, s: seq<Service>)
    requires Faithful(y)
    ensures ReadAll(item => FreshService(y, item), ServiceNodes(y, s)) == Ok(SettledServices(s))
  {
    var read := item => FreshService(y, item);
    forall i | 0 <= i < |s| ensures read(ServiceNodes(y, s)[i]) == Ok(SettledServices(s)[i]) {
      ServiceBack(y, s[i]);
    }
    ReadAllBack(read, ServiceNodes(y, s), SettledServices(s));
  }

  lemma ConsumerFromFields(y: Scalars, n: Node, c: Consumer, cache: Node, breaker: Node, outlier: Node, balancer: Node,
                           router: Node, services: seq<Node>, settled: seq<Service>)
    requires Faithful(y) && !n.Scalar?
    requires FieldIs(n, KLocalCache, true, cache) && FreshLocalCache(y, cache) == Ok(c.localCache)
    requires FieldIs(n, KCircuitBreaker, true, breaker) && FreshBreaker(y, breaker) == Ok(c.breaker)
    requires FieldIs(n, KOutlierDetection, true, outlier) && FreshOutlier(y, outlier) == Ok(c.outlier)
    requires FieldIs(n, KLoadBalancer, true, balancer) && FreshBalancer(y, balancer) == Ok(c.balancer)
    requires FieldIs(n, KServiceRouter, true, router) && FreshRouter(y, router) == Ok(c.router)
    requires FieldIs(n, KService, true, Sequence(services))
    requires ReadAll(item => FreshService(y, item), services) == Ok(settled)
    requires FieldIs(n, KEnableTransMeta, true, FromBool(y, c.enableTransMeta))
    ensures FreshConsumer(y, n) == Ok(c.(services := settled))
  {
    assert [] + settled == settled;
  }

  lemma ConsumerFields(y: Scalars, c: Consumer)
    ensures
      var n := ConsumerNode(y, c);
      && FieldIs(n, KLocalCache, true, LocalCacheNode(y, c.localCache))
      && FieldIs(n, KCircuitBreaker, true, BreakerNode(y, c.breaker))
      && FieldIs(n, KOutlierDetection, true, OutlierNode(y, c.outlier))
      && FieldIs(n, KLoadBalancer, true, BalancerNode(y, c.balancer))
      && FieldIs(n, KServiceRouter, true, RouterNode(y, c.router))
      && FieldIs(n, KService, true, Sequence(ServiceNodes(y, c.services)))
      && FieldIs(n, KEnableTransMeta, true, FromBool(y, c.enableTransMeta))
  {
  }

  lemma ConsumerBack(y: Scalars, c: Consumer)
    requires Faithful(y)
    ensures FreshConsumer(y, ConsumerNode(y, c)) == Ok(c.(services := SettledServices(c.services)))
  {
    LocalCacheBack(y, c.localCache);
    BreakerBack(y, c.breaker);
    OutlierBack(y, c.outlier);
    BalancerBack(y, c.balancer);
    RouterBack(y, c.router);
    ServicesBack(y, c.services);
    ConsumerFields(y, c);
    ConsumerFromFields(y, ConsumerNode(y, c), c, LocalCacheNode(y, c.localCache), BreakerNode(y, c.breaker),
                       OutlierNode(y, c.outlier), BalancerNode(y, c.balancer), RouterNode(y, c.router),
                       ServiceNodes(y, c.services), SettledServices(c.services));
  }

  // ---- The theorems ----

  lemma SelectorFromFields(y: Scalars, n: Node, g: Node, k: Node, w: bool, global: Global, consumer: Consumer,
                           target: Selector)
    requires Faithful(y) && !n.Scalar?
    requires FieldIs(n, KGlobal, true, g) && FreshGlobal(y, g) == Ok(global)
    requires FieldIs(n, KConsumer, true, k) && FreshConsumer(y, k) == Ok(consumer)
    requires FieldIs(n, KDynamicWeight, true, DynamicWeightNode(y, w))
    ensures ReadSelector(y, n, target) == (Selector(global, Migrated(consumer, global), w), true)
  {
  }

  lemma SelectorFields(y: Scalars, c: Selector)
    ensures
      var n := SelectorNode(y, c);
      && FieldIs(n, KGlobal, true, GlobalNode(y, c.global)) && FieldIs(n, KConsumer, true, ConsumerNode(y, c.consumer))
      && FieldIs(n, KDynamicWeight, true, DynamicWeightNode(y, c.dynamicWeight))
  {
  }

  /** Reading what was written, into any configuration, gives the normal form of what
      was written: for every configuration and without an exception. */
  lemma RoundTrip(y: Scalars, c: Selector, target: Selector)
    requires Faithful(y)
    ensures ReadSelector(y, SelectorNode(y, c), target) == (Normal(c), true)
  {
    GlobalBack(y, c.global);
    ConsumerBack(y, c.consumer);
    SelectorFields(y, c);
    SelectorFromFields(y, SelectorNode(y, c), GlobalNode(y, c.global), ConsumerNode(y, c.consumer), c.dynamicWeight,
                       Normal(c).global, Normal(c).consumer, target);
  }

  lemma SettledTwice(c: Selector)
    ensures Settled(Settled(c)) == Settled(c) && Normal(Normal(c)) == Normal(c)
  {
    assert SettledServices(SettledServices(c.consumer.services)) == SettledServices(c.consumer.services);
  }

  /** Exactly which configurations come back unchanged. */
  lemma UnchangedIff(c: Selector)
    ensures
      Normal(c) == c <==>
        && c.global.connector.refreshInterval == REFRESH_INTERVAL
        && c.global.metric.name == "trpc"
        && c.global.system.Keys <= KNOWN_CLUSTERS
        && forall i :: 0 <= i < |c.consumer.services| ==>
             var s := c.consumer.services[i];
             && (s.setBreaker || s.breaker == DEFAULT_BREAKER) && (s.setOutlier || s.outlier == DEFAULT_OUTLIER)
             && (s.setBalancer || s.balancer == DEFAULT_BALANCER) && (s.setRouter || s.router == DEFAULT_ROUTER)
  {
    var s, t := c.consumer.services, SettledServices(c.consumer.services);
    if Normal(c) == c {
      assert t == s;
      forall i | 0 <= i < |s| ensures SettledService(s[i]) == s[i] { assert t[i] == s[i]; }
      assert KnownOnly(c.global.system) == c.global.system;
    }
    if c.global.system.Keys <= KNOWN_CLUSTERS { assert KnownOnly(c.global.system) == c.global.system; }
  }

  lemma FreshSystemIsKnown(y: Scalars, n: Node)
    requires FreshSystem(y, n).Ok?
    ensures KnownOnly(FreshSystem(y, n).value) == FreshSystem(y, n).value
  {
  }

  lemma FreshServiceIsSettled(y: Scalars, n: Node)
    requires FreshService(y, n).Ok?
    ensures SettledService(FreshService(y, n).value) == FreshService(y, n).value
  {
  }

  lemma AllServicesAreSettled(y: Scalars, items: seq<Node>)
    requires ReadAll(item => FreshService(y, item), items).Ok?
    ensures
      var s := ReadAll(item => FreshService(y, item), items).value;
      SettledServices(s) == s
  {
    var read := item => FreshService(y, item);
    ReadAllFrom(read, items);
    var s := ReadAll(read, items).value;
    forall i | 0 <= i < |s| ensures SettledService(s[i]) == s[i] {
      assert read(items[i]) == Ok(s[i]);
      FreshServiceIsSettled(y, items[i]);
    }
  }

  lemma FreshGlobalIsSettled(y: Scalars, n: Node)
    requires FreshGlobal(y, n).Ok?
    ensures SettledGlobal(FreshGlobal(y, n).value) == FreshGlobal(y, n).value
  {
    var k := Field(n, KSystem);
    if k.Some? { FreshSystemIsKnown(y, k.value); }
  }

  lemma FreshConsumerIsSettled(y: Scalars, n: Node)
    requires FreshConsumer(y, n).Ok?
    ensures SettledServices(FreshConsumer(y, n).value.services) == FreshConsumer(y, n).value.services
  {
    var k := Field(n, KService);
    if k.Some? && Items(k.value).Ok? { AllServicesAreSettled(y, Items(k.value).value); }
  }

  /** Whatever was read from any document is already settled. */
  lemma ReadIsSettled(y: Scalars, n: Node)
    requires ReadSelector(y, n, DEFAULT_SELECTOR).1
    ensures Settled(ReadSelector(y, n, DEFAULT_SELECTOR).0) == ReadSelector(y, n, DEFAULT_SELECTOR).0
  {
    var global, consumer := Field(n, KGlobal), Field(n, KConsumer);
    if global.Some? { FreshGlobalIsSettled(y, global.value); }
    if consumer.Some? { FreshConsumerIsSettled(y, consumer.value); }
  }

  /** A configuration read from any document loses nothing when it is written and
      read again, into any configuration, but the connector's own refresh interval. */
  lemma ReadWriteRead(y: Scalars, n: Node, target: Selector)
    requires Faithful(y) && ReadSelector(y, n, DEFAULT_SELECTOR).1
    ensures
      var c := ReadSelector(y, n, DEFAULT_SELECTOR).0;
      ReadSelector(y, SelectorNode(y, c), target) == (ForgetInterval(c), true)
  {
    ReadIsSettled(y, n);
    RoundTrip(y, ReadSelector(y, n, DEFAULT_SELECTOR).0, target);
  }

  /** The interval that service discovery will use. */
  function EffectiveInterval(c: Selector): uint64 {
    c.consumer.localCache.refreshInterval
  }

  /** With a consumer section the effective interval is the configured one unless
      that is the default, and then the old one. */
  lemma IntervalMigration(y: Scalars, n: Node, c: Selector)
    requires ReadSelector(y, n, c).1 && Field(n, KConsumer).Some?
    ensures
      var d := ReadSelector(y, n, c).0;
      var consumer := FreshConsumer(y, Field(n, KConsumer).value);
      && consumer.Ok?
      && var configured := consumer.value.localCache.refreshInterval;
      EffectiveInterval(d) == if configured != REFRESH_INTERVAL then configured else d.global.connector.refreshInterval
  {
  }

  /** Writing and reading keeps the effective interval of every configuration,
      although the old interval is not written. */
  lemma EffectiveIntervalKept(y: Scalars, c: Selector, target: Selector)
    requires Faithful(y)
    ensures EffectiveInterval(ReadSelector(y, SelectorNode(y, c), target).0) == EffectiveInterval(c)
  {
    RoundTrip(y, c, target);
  }

  /** Reading a document twice into one configuration is reading it once, also when
      it throws half way. */
  lemma ReadTwice(y: Scalars, n: Node, c: Selector)
    ensures ReadSelector(y, n, ReadSelector(y, n, c).0) == ReadSelector(y, n, c)
  {
  }

  /** The consumer section on its own is read twice without effect exactly when it
      lists no service: its services are appended. */
  lemma ReadConsumerTwice(y: Scalars, n: Node, c: Consumer)
    requires ReadConsumer(y, n, c).Ok?
    ensures
      var once := ReadConsumer(y, n, c).value;
      var twice := ReadConsumer(y, n, once);
      && twice.Ok?
      && twice.value == once.(services := once.services + ServicesAt(y, n).value)
      && (twice.value == once <==> ServicesAt(y, n).value == [])
  {
    var once := ReadConsumer(y, n, c).value;
    var more := ServicesAt(y, n).value;
    assert |once.services + more| == |once.services| + |more|;
    if more == [] { assert once.services + more == once.services; }
  }
}
