/** Which key of a document reaches which field of a configuration, and the other way
    round: every section as a relation between a node and a value, with the defaults
    of the header (polarismesh_naming_conf.h), apart from how the codec computes it. */
module ConfigDocument {
  import opened Prelude
  import opened Yaml
  import opened ConfigCodec

  // ---- Scalars: the value at a key, or the default when the key is absent ----

  predicate ShowsStr(y: Scalars, n: Node, v: string) {
    match n
    case Scalar(text) => v == text
    case Null => y.nullText == Some(v)
    case _ => false
  }

  predicate StrIs(y: Scalars, n: Node, k: Key, default: string, v: string) {
    if Field(n, k).None? then v == default else ShowsStr(y, Field(n, k).value, v)
  }

  predicate IntIs(y: Scalars, n: Node, k: Key, default: int, v: int) {
    match Field(n, k)
    case None => v == default
    case Some(Scalar(text)) => y.readInt(text) == Some(v)
    case _ => false
  }

  predicate BoolIs(y: Scalars, n: Node, k: Key, default: bool, v: bool) {
    match Field(n, k)
    case None => v == default
    case Some(Scalar(text)) => y.readBool(text) == Some(v)
    case _ => false
  }

  predicate FloatIs(y: Scalars, n: Node, k: Key, default: float32, v: float32) {
    match Field(n, k)
    case None => v == default
    case Some(Scalar(text)) => y.readFloat(text) == Some(v)
    case _ => false
  }

  predicate StrsIs(y: Scalars, n: Node, k: Key, default: seq<string>, v: seq<string>) {
    match Field(n, k)
    case None => v == default
    case Some(Sequence(items)) => |v| == |items| && forall i :: 0 <= i < |v| ==> ShowsStr(y, items[i], v[i])
    case _ => false
  }

  lemma StrsRead(y: Scalars, n: Node, k: Key, default: seq<string>, v: seq<string>)
    ensures StrsAt(y, n, k, default) == Ok(v) <==> StrsIs(y, n, k, default, v)
  {
    if Field(n, k).Some? && Field(n, k).value.Sequence? {
      var items, read := Field(n, k).value.items, item => AsString(y, item);
      if StrsIs(y, n, k, default, v) { ReadAllBack(read, items, v); }
      if ReadAll(read, items).Ok? { ReadAllFrom(read, items); }
    }
  }

  /** A section that is absent reads like an empty one: every field has its default. */
  function SectionAt(n: Node, k: Key): Node {
    if Field(n, k).Some? then Field(n, k).value else Null
  }

  // ---- Sections: what a node says, and that decode finds exactly that ----

  ghost predicate ClusterIs(y: Scalars, n: Node, c: Cluster) {
    && !n.Scalar?
    && StrIs(y, n, KNamespace, "", c.namespace)
    && StrIs(y, n, KService, "", c.service)
  }

  lemma ClusterRead(y: Scalars, n: Node, c: Cluster)
    ensures FreshCluster(y, n) == Ok(c) <==> ClusterIs(y, n, c)
  {
  }

  ghost predicate LocationIs(y: Scalars, n: Node, c: Location) {
    && !n.Scalar?
    && StrIs(y, n, KRegion, "", c.region)
    && StrIs(y, n, KZone, "", c.zone)
    && StrIs(y, n, KCampus, "", c.campus)
    && BoolIs(y, n, KEnableUpdate, true, c.enableUpdate)
  }

  lemma LocationRead(y: Scalars, n: Node, c: Location)
    ensures FreshLocation(y, n) == Ok(c) <==> LocationIs(y, n, c)
  {
  }

  ghost predicate ApiIs(y: Scalars, n: Node, c: Api) {
    && !n.Scalar?
    && StrIs(y, n, KBindIp, "", c.bindIp)
    && StrIs(y, n, KBindIf, "", c.bindIf)
    && IntIs(y, n, KReportInterval, 600000, c.reportInterval)
    && LocationIs(y, SectionAt(n, KLocation), c.location)
  }

  lemma ApiRead(y: Scalars, n: Node, c: Api)
    ensures FreshApi(y, n) == Ok(c) <==> ApiIs(y, n, c)
  {
    LocationRead(y, SectionAt(n, KLocation), c.location);
  }

  ghost predicate ConnectorIs(y: Scalars, n: Node, c: Connector) {
    && !n.Scalar?
    && IntIs(y, n, KTimeout, 2000, c.timeout)
    && StrIs(y, n, KJoinPoint, "default", c.joinPoint)
    && StrIs(y, n, KProtocol, "grpc", c.protocol)
    && IntIs(y, n, KRefreshInterval, 10000, c.refreshInterval)
    && StrsIs(y, n, KAddresses, [], c.addresses)
    && IntIs(y, n, KServerSwitchInterval, 600000, c.serverSwitchInterval)
  }

  lemma ConnectorRead(y: Scalars, n: Node, c: Connector)
    ensures FreshConnector(y, n) == Ok(c) <==> ConnectorIs(y, n, c)
  {
    StrsRead(y, n, KAddresses, [], c.addresses);
  }

  ghost predicate MetricIs(y: Scalars, n: Node, c: Metric) {
    && !n.Scalar?
    && c.name == "trpc"
    && BoolIs(y, n, KEnable, true, c.enable)
    && StrIs(y, n, KMetricsName, "", c.metricsName)
  }

  lemma MetricRead(y: Scalars, n: Node, c: Metric)
    ensures FreshMetric(y, n) == Ok(c) <==> MetricIs(y, n, c)
  {
  }

  ghost predicate LocalCacheIs(y: Scalars, n: Node, c: LocalCache) {
    && !n.Scalar?
    && StrIs(y, n, KType, "inmemory", c.kind)
    && StrIs(y, n, KServiceExpireTime, "24h", c.expireTime)
    && IntIs(y, n, KServiceRefreshInterval, 10000, c.refreshInterval)
    && StrIs(y, n, KPersistDir, "/usr/local/trpc/data/polarismesh/backup", c.persistDir)
  }

  lemma LocalCacheRead(y: Scalars, n: Node, c: LocalCache)
    ensures FreshLocalCache(y, n) == Ok(c) <==> LocalCacheIs(y, n, c)
  {
  }

  ghost predicate ErrorCountIs(y: Scalars, n: Node, c: ErrorCount) {
    && !n.Scalar?
    && IntIs(y, n, KContinuousErrorThreshold, 10, c.continuousErrorThreshold)
    && IntIs(y, n, KSleepWindow, 30000, c.sleepWindow)
    && IntIs(y, n, KRequestCount, 10, c.requestCount)
    && IntIs(y, n, KSuccessCount, 8, c.successCount)
    && IntIs(y, n, KMetricExpiredTime, 3600000, c.metricExpiredTime)
  }

  lemma ErrorCountRead(y: Scalars, n: Node, c: ErrorCount)
    ensures FreshErrorCount(y, n) == Ok(c) <==> ErrorCountIs(y, n, c)
  {
  }

  ghost predicate ErrorRateIs(y: Scalars, n: Node, c: ErrorRate) {
    && !n.Scalar?
    && IntIs(y, n, KRequestVolumeThreshold, 10, c.requestVolumeThreshold)
    && FloatIs(y, n, KErrorRateThreshold, 0x3F00_0000, c.errorRateThreshold)
    && IntIs(y, n, KMetricStatTimeWindow, 60000, c.metricStatTimeWindow)
    && IntIs(y, n, KMetricNumBuckets, 12, c.metricNumBuckets)
    && IntIs(y, n, KSleepWindow, 30000, c.sleepWindow)
    && IntIs(y, n, KRequestCount, 10, c.requestCount)
    && IntIs(y, n, KSuccessCount, 8, c.successCount)
    && IntIs(y, n, KMetricExpiredTime, 3600000, c.metricExpiredTime)
  }

  lemma ErrorRateSaid(y: Scalars, n: Node, c: ErrorRate)
    requires FreshErrorRate(y, n) == Ok(c)
    ensures ErrorRateIs(y, n, c)
  {
  }

  lemma ErrorRateFound(y: Scalars, n: Node, c: ErrorRate)
    requires ErrorRateIs(y, n, c)
    ensures FreshErrorRate(y, n) == Ok(c)
  {
  }

  lemma ErrorRateRead(y: Scalars, n: Node, c: ErrorRate)
    ensures FreshErrorRate(y, n) == Ok(c) <==> ErrorRateIs(y, n, c)
  {
    if FreshErrorRate(y, n) == Ok(c) {
      ErrorRateSaid(y, n, c);
    } else if ErrorRateIs(y, n, c) {
      ErrorRateFound(y, n, c);
    }
  }

  ghost predicate BreakerPluginIs(y: Scalars, n: Node, c: BreakerPlugin) {
    && !n.Scalar?
    && ErrorCountIs(y, SectionAt(n, KErrorCount), c.errorCount)
    && ErrorRateIs(y, SectionAt(n, KErrorRate), c.errorRate)
  }

  lemma BreakerPluginRead(y: Scalars, n: Node, c: BreakerPlugin)
    ensures FreshBreakerPlugin(y, n) == Ok(c) <==> BreakerPluginIs(y, n, c)
  {
    ErrorCountRead(y, SectionAt(n, KErrorCount), c.errorCount);
    ErrorRateRead(y, SectionAt(n, KErrorRate), c.errorRate);
  }

  ghost predicate SetBreakerIs(y: Scalars, n: Node, c: bool) {
    && !n.Scalar?
    && BoolIs(y, n, KEnable, false, c)
  }

  lemma SetBreakerRead(y: Scalars, n: Node, c: bool)
    ensures FreshSetBreaker(y, n) == Ok(c) <==> SetBreakerIs(y, n, c)
  {
  }

  ghost predicate BreakerIs(y: Scalars, n: Node, c: Breaker) {
    && !n.Scalar?
    && BoolIs(y, n, KEnable, true, c.enable)
    && StrIs(y, n, KCheckPeriod, "500", c.checkPeriod)
    && StrsIs(y, n, KChain, ["errorCount", "errorRate"], c.chain)
    && BreakerPluginIs(y, SectionAt(n, KPlugin), c.plugin)
    && SetBreakerIs(y, SectionAt(n, KSetCircuitBreaker), c.setBreaker)
  }

  lemma BreakerRead(y: Scalars, n: Node, c: Breaker)
    ensures FreshBreaker(y, n) == Ok(c) <==> BreakerIs(y, n, c)
  {
    StrsRead(y, n, KChain, ["errorCount", "errorRate"], c.chain);
    BreakerPluginRead(y, SectionAt(n, KPlugin), c.plugin);
    SetBreakerRead(y, SectionAt(n, KSetCircuitBreaker), c.setBreaker);
  }

  ghost predicate OutlierIs(y: Scalars, n: Node, c: Outlier) {
    && !n.Scalar?
    && BoolIs(y, n, KEnable, false, c.enable)
    && StrIs(y, n, KCheckPeriod, "10s", c.checkPeriod)
    && StrsIs(y, n, KChain, ["tcp"], c.chain)
  }

  lemma OutlierRead(y: Scalars, n: Node, c: Outlier)
    ensures FreshOutlier(y, n) == Ok(c) <==> OutlierIs(y, n, c)
  {
    StrsRead(y, n, KChain, ["tcp"], c.chain);
  }

  ghost predicate BalancerIs(y: Scalars, n: Node, c: Balancer) {
    && !n.Scalar?
    && StrIs(y, n, KType, "weightedRandom", c.kind)
    && BoolIs(y, n, KEnableDynamicWeight, false, c.dynamicWeight)
    && IntIs(y, n, KVnodeCount, 0, c.vnodeCount)
    && BoolIs(y, n, KCompatibleGo, false, c.compatibleGo)
  }

  lemma BalancerRead(y: Scalars, n: Node, c: Balancer)
    ensures FreshBalancer(y, n) == Ok(c) <==> BalancerIs(y, n, c)
  {
  }

  ghost predicate NearbyIs(y: Scalars, n: Node, c: Nearby) {
    && !n.Scalar?
    && StrIs(y, n, KMatchLevel, "zone", c.matchLevel)
    && StrIs(y, n, KMaxMatchLevel, "none", c.maxMatchLevel)
    && BoolIs(y, n, KStrictNearby, false, c.strictNearby)
    && BoolIs(y, n, KEnableDegrade, true, c.enableDegrade)
    && IntIs(y, n, KUnhealthyPercent, 100, c.unhealthyPercent)
    && BoolIs(y, n, KEnableRecoverAll, true, c.enableRecoverAll)
  }

  lemma NearbyRead(y: Scalars, n: Node, c: Nearby)
    ensures FreshNearby(y, n) == Ok(c) <==> NearbyIs(y, n, c)
  {
  }

  ghost predicate RouterPluginIs(y: Scalars, n: Node, c: Nearby) {
    && !n.Scalar?
    && NearbyIs(y, SectionAt(n, KNearbyBasedRouter), c)
  }

  lemma RouterPluginRead(y: Scalars, n: Node, c: Nearby)
    ensures FreshRouterPlugin(y, n) == Ok(c) <==> RouterPluginIs(y, n, c)
  {
    NearbyRead(y, SectionAt(n, KNearbyBasedRouter), c);
  }

  ghost predicate RouterIs(y: Scalars, n: Node, c: Router) {
    && !n.Scalar?
    && FloatIs(y, n, KPercentOfMinInstances, 0, c.percentOfMinInstances)
    && BoolIs(y, n, KEnable, true, c.enable)
    && StrsIs(y, n, KChain, ["ruleRouter", "setDivisionRouter", "nearbyRouter", "canaryRouter"], c.chain)
    && RouterPluginIs(y, SectionAt(n, KPlugin), c.plugin)
  }

  lemma RouterRead(y: Scalars, n: Node, c: Router)
    ensures FreshRouter(y, n) == Ok(c) <==> RouterIs(y, n, c)
  {
    StrsRead(y, n, KChain, ["ruleRouter", "setDivisionRouter", "nearbyRouter", "canaryRouter"], c.chain);
    RouterPluginRead(y, SectionAt(n, KPlugin), c.plugin);
  }

  ghost predicate DynamicWeightIs(y: Scalars, n: Node, c: bool) {
    && !n.Scalar?
    && BoolIs(y, n, KIsOpenDynamicWeight, false, c)
  }

  lemma DynamicWeightRead(y: Scalars, n: Node, c: bool)
    ensures FreshDynamicWeight(y, n) == Ok(c) <==> DynamicWeightIs(y, n, c)
  {
  }

  ghost predicate ClusterAt(y: Scalars, n: Node, k: Key, name: ClusterName, s: System) {
    && (name in s <==> Field(n, k).Some?)
    && (name in s ==> ClusterIs(y, Field(n, k).value, s[name]))
  }

  ghost predicate SystemIs(y: Scalars, n: Node, s: System) {
    && !n.Scalar?
    && s.Keys <= {DiscoverCluster, HealthCheckCluster, MonitorCluster}
    && ClusterAt(y, n, KDiscoverCluster, DiscoverCluster, s)
    && ClusterAt(y, n, KHealthCheckCluster, HealthCheckCluster, s)
    && ClusterAt(y, n, KMonitorCluster, MonitorCluster, s)
  }

  lemma ClusterAtRead(y: Scalars, n: Node, name: ClusterName, s: System, r: System)
    requires name in KNOWN_CLUSTERS && ClusterAt(y, n, ClusterKey(name), name, s)
    ensures ReadCluster(y, n, name, r) == Ok(if name in s then r[name := s[name]] else r)
  {
    if name in s { ClusterRead(y, Field(n, ClusterKey(name)).value, s[name]); }
  }

  lemma SystemFound(y: Scalars, n: Node, s: System)
    requires SystemIs(y, n, s)
    ensures FreshSystem(y, n) == Ok(s)
  {
    var r1: System := if DiscoverCluster in s then map[DiscoverCluster := s[DiscoverCluster]] else map[];
    var r2 := if HealthCheckCluster in s then r1[HealthCheckCluster := s[HealthCheckCluster]] else r1;
    var r3 := if MonitorCluster in s then r2[MonitorCluster := s[MonitorCluster]] else r2;
    ClusterAtRead(y, n, DiscoverCluster, s, map[]);
    ClusterAtRead(y, n, HealthCheckCluster, s, r1);
    ClusterAtRead(y, n, MonitorCluster, s, r2);
    assert r3 == s;
  }

  lemma ClusterAtSaid(y: Scalars, n: Node, name: ClusterName, r: System, s: System)
    requires name in KNOWN_CLUSTERS && ReadCluster(y, n, name, r) == Ok(s)
    ensures
      var v := Field(n, ClusterKey(name));
      if v.None? then s == r else name in s && s == r[name := s[name]] && ClusterIs(y, v.value, s[name])
  {
    if name in s && Field(n, ClusterKey(name)).Some? { ClusterRead(y, Field(n, ClusterKey(name)).value, s[name]); }
  }

  lemma SystemSaid(y: Scalars, n: Node, s: System)
    requires FreshSystem(y, n) == Ok(s)
    ensures SystemIs(y, n, s)
  {
    var s1 := ReadCluster(y, n, DiscoverCluster, map[]).value;
    var s2 := ReadCluster(y, n, HealthCheckCluster, s1).value;
    ClusterAtSaid(y, n, DiscoverCluster, map[], s1);
    ClusterAtSaid(y, n, HealthCheckCluster, s1, s2);
    ClusterAtSaid(y, n, MonitorCluster, s2, s);
  }

  lemma SystemRead(y: Scalars, n: Node, s: System)
    ensures FreshSystem(y, n) == Ok(s) <==> SystemIs(y, n, s)
  {
    if SystemIs(y, n, s) {
      SystemFound(y, n, s);
    } else if FreshSystem(y, n) == Ok(s) {
      SystemSaid(y, n, s);
    }
  }

  ghost predicate GlobalIs(y: Scalars, n: Node, c: Global) {
    && !n.Scalar?
    && SystemIs(y, SectionAt(n, KSystem), c.system)
    && ApiIs(y, SectionAt(n, KApi), c.api)
    && ConnectorIs(y, SectionAt(n, KServerConnector), c.connector)
    && MetricIs(y, SectionAt(n, KServerMetric), c.metric)
  }

  lemma GlobalRead(y: Scalars, n: Node, c: Global)
    ensures FreshGlobal(y, n) == Ok(c) <==> GlobalIs(y, n, c)
  {
    SystemRead(y, SectionAt(n, KSystem), c.system);
    ApiRead(y, SectionAt(n, KApi), c.api);
    ConnectorRead(y, SectionAt(n, KServerConnector), c.connector);
    MetricRead(y, SectionAt(n, KServerMetric), c.metric);
  }

  ghost predicate ServiceIs(y: Scalars, n: Node, c: Service) {
    && !n.Scalar?
    && StrIs(y, n, KName, "", c.name) && StrIs(y, n, KNamespace, "", c.namespace)
    && c.setBreaker == Field(n, KCircuitBreaker).Some? && BreakerIs(y, SectionAt(n, KCircuitBreaker), c.breaker)
    && c.setOutlier == Field(n, KOutlierDetection).Some? && OutlierIs(y, SectionAt(n, KOutlierDetection), c.outlier)
    && c.setBalancer == Field(n, KLoadBalancer).Some? && BalancerIs(y, SectionAt(n, KLoadBalancer), c.balancer)
    && c.setRouter == Field(n, KServiceRouter).Some? && RouterIs(y, SectionAt(n, KServiceRouter), c.router)
  }

  lemma ServiceParts(y: Scalars, n: Node, c: Service)
    ensures
      FreshService(y, n) == Ok(c) <==>
        && !n.Scalar?
        && StrIs(y, n, KName, "", c.name) && StrIs(y, n, KNamespace, "", c.namespace)
        && c.setBreaker == Field(n, KCircuitBreaker).Some?
        && FreshBreaker(y, SectionAt(n, KCircuitBreaker)) == Ok(c.breaker)
        && c.setOutlier == Field(n, KOutlierDetection).Some?
        && FreshOutlier(y, SectionAt(n, KOutlierDetection)) == Ok(c.outlier)
        && c.setBalancer == Field(n, KLoadBalancer).Some?
        && FreshBalancer(y, SectionAt(n, KLoadBalancer)) == Ok(c.balancer)
        && c.setRouter == Field(n, KServiceRouter).Some?
        && FreshRouter(y, SectionAt(n, KServiceRouter)) == Ok(c.router)
  {
  }

  lemma ServiceRead(y: Scalars, n: Node, c: Service)
    ensures FreshService(y, n) == Ok(c) <==> ServiceIs(y, n, c)
  {
    ServiceParts(y, n, c);
    BreakerRead(y, SectionAt(n, KCircuitBreaker), c.breaker);
    OutlierRead(y, SectionAt(n, KOutlierDetection), c.outlier);
    BalancerRead(y, SectionAt(n, KLoadBalancer), c.balancer);
    RouterRead(y, SectionAt(n, KServiceRouter), c.router);
  }

  /** The services listed; a node that is no list lists none, but the pairs of a map
      do not convert. */
  ghost predicate ServicesAre(y: Scalars, n: Node, s: seq<Service>) {
    match n
    case Sequence(items) => |s| == |items| && forall i :: 0 <= i < |s| ==> ServiceIs(y, items[i], s[i])
    case Map(fields) => fields == map[] && s == []
    case _ => s == []
  }

  lemma ServicesRead(y: Scalars, n: Node, s: seq<Service>)
    ensures ServicesAt(y, n) == Ok(s) <==> ServicesAre(y, SectionAt(n, KService), s)
  {
    var list, read := SectionAt(n, KService), item => FreshService(y, item);
    if list.Sequence? {
      if ServicesAre(y, list, s) {
        forall i | 0 <= i < |s| ensures read(list.items[i]) == Ok(s[i]) { ServiceRead(y, list.items[i], s[i]); }
        ReadAllBack(read, list.items, s);
      }
      if ReadAll(read, list.items) == Ok(s) {
        ReadAllFrom(read, list.items);
        forall i | 0 <= i < |s| ensures ServiceIs(y, list.items[i], s[i]) {
          assert read(list.items[i]) == Ok(s[i]);
          ServiceRead(y, list.items[i], s[i]);
        }
      }
    }
  }

  ghost predicate ConsumerIs(y: Scalars, n: Node, c: Consumer) {
    && !n.Scalar?
    && LocalCacheIs(y, SectionAt(n, KLocalCache), c.localCache)
    && BreakerIs(y, SectionAt(n, KCircuitBreaker), c.breaker)
    && OutlierIs(y, SectionAt(n, KOutlierDetection), c.outlier)
    && BalancerIs(y, SectionAt(n, KLoadBalancer), c.balancer)
    && RouterIs(y, SectionAt(n, KServiceRouter), c.router)
    && ServicesAre(y, SectionAt(n, KService), c.services)
    && BoolIs(y, n, KEnableTransMeta, false, c.enableTransMeta)
  }

  lemma SectionsParts(y: Scalars, n: Node, c: Consumer)
    ensures
      ReadSections(y, n, DEFAULT_CONSUMER) == Ok(c) <==>
        && FreshLocalCache(y, SectionAt(n, KLocalCache)) == Ok(c.localCache)
        && FreshBreaker(y, SectionAt(n, KCircuitBreaker)) == Ok(c.breaker)
        && FreshOutlier(y, SectionAt(n, KOutlierDetection)) == Ok(c.outlier)
        && FreshBalancer(y, SectionAt(n, KLoadBalancer)) == Ok(c.balancer)
        && FreshRouter(y, SectionAt(n, KServiceRouter)) == Ok(c.router)
        && c.services == [] && !c.enableTransMeta
  {
  }

  lemma ConsumerParts(y: Scalars, n: Node, c: Consumer)
    ensures
      FreshConsumer(y, n) == Ok(c) <==>
        && !n.Scalar?
        && FreshLocalCache(y, SectionAt(n, KLocalCache)) == Ok(c.localCache)
        && FreshBreaker(y, SectionAt(n, KCircuitBreaker)) == Ok(c.breaker)
        && FreshOutlier(y, SectionAt(n, KOutlierDetection)) == Ok(c.outlier)
        && FreshBalancer(y, SectionAt(n, KLoadBalancer)) == Ok(c.balancer)
        && FreshRouter(y, SectionAt(n, KServiceRouter)) == Ok(c.router)
        && ServicesAt(y, n) == Ok(c.services)
        && BoolIs(y, n, KEnableTransMeta, false, c.enableTransMeta)
  {
    SectionsParts(y, n, c.(services := [], enableTransMeta := false));
    assert forall s: seq<Service> :: [] + s == s;
    var sections := ReadSections(y, n, DEFAULT_CONSUMER);
    if sections.Ok? { SectionsParts(y, n, sections.value); }
  }

  lemma ConsumerRead(y: Scalars, n: Node, c: Consumer)
    ensures FreshConsumer(y, n) == Ok(c) <==> ConsumerIs(y, n, c)
  {
    ConsumerParts(y, n, c);
    LocalCacheRead(y, SectionAt(n, KLocalCache), c.localCache);
    BreakerRead(y, SectionAt(n, KCircuitBreaker), c.breaker);
    OutlierRead(y, SectionAt(n, KOutlierDetection), c.outlier);
    BalancerRead(y, SectionAt(n, KLoadBalancer), c.balancer);
    RouterRead(y, SectionAt(n, KServiceRouter), c.router);
    ServicesRead(y, n, c.services);
  }

  /** The consumer section with the connector's interval where its own is the default. */
  function WithInterval(c: Consumer, connector: Connector): Consumer {
    if c.localCache.refreshInterval != 10000 then c
    else c.(localCache := c.localCache.(refreshInterval := connector.refreshInterval))
  }

  ghost predicate GlobalSet(y: Scalars, n: Node, before: Global, after: Global) {
    if Field(n, KGlobal).None? then after == before else GlobalIs(y, Field(n, KGlobal).value, after)
  }

  ghost predicate ConsumerSet(y: Scalars, n: Node, before: Consumer, global: Global, after: Consumer) {
    if Field(n, KConsumer).None? then after == before
    else exists c: Consumer ::
      ConsumerIs(y, Field(n, KConsumer).value, c) && after == WithInterval(c, global.connector)
  }

  ghost predicate WeightSet(y: Scalars, n: Node, before: bool, after: bool) {
    if Field(n, KDynamicWeight).None? then after == before
    else DynamicWeightIs(y, Field(n, KDynamicWeight).value, after)
  }

  /** What a document makes of the configuration `before`: each of the three sections
      it has replaces that section, and those it lacks stay. */
  ghost predicate SelectorIs(y: Scalars, n: Node, before: Selector, after: Selector) {
    && !n.Scalar?
    && GlobalSet(y, n, before.global, after.global)
    && ConsumerSet(y, n, before.consumer, after.global, after.consumer)
    && WeightSet(y, n, before.dynamicWeight, after.dynamicWeight)
  }

  lemma ConsumerSetRead(y: Scalars, n: Node, before: Consumer, global: Global, after: Consumer)
    ensures
      ConsumerSet(y, n, before, global, after) <==>
        if Field(n, KConsumer).None? then after == before
        else
          var r := FreshConsumer(y, Field(n, KConsumer).value);
          r.Ok? && after == Migrated(r.value, global)
  {
    if Field(n, KConsumer).Some? {
      var v := Field(n, KConsumer).value;
      forall c: Consumer ensures FreshConsumer(y, v) == Ok(c) <==> ConsumerIs(y, v, c) { ConsumerRead(y, v, c); }
    }
  }

  lemma SelectorParts(y: Scalars, n: Node, before: Selector, after: Selector)
    ensures
      ReadSelector(y, n, before) == (after, true) <==>
        && !n.Scalar?
        && (if Field(n, KGlobal).None? then after.global == before.global
            else FreshGlobal(y, Field(n, KGlobal).value) == Ok(after.global))
        && (if Field(n, KConsumer).None? then after.consumer == before.consumer
            else
              var r := FreshConsumer(y, Field(n, KConsumer).value);
              r.Ok? && after.consumer == Migrated(r.value, after.global))
        && (if Field(n, KDynamicWeight).None? then after.dynamicWeight == before.dynamicWeight
            else FreshDynamicWeight(y, Field(n, KDynamicWeight).value) == Ok(after.dynamicWeight))
  {
  }

  /** Decoding comes to the end with exactly the configuration that the document
      describes, and throws exactly if it describes none. */
  lemma SelectorRead(y: Scalars, n: Node, before: Selector, after: Selector)
    ensures ReadSelector(y, n, before) == (after, true) <==> SelectorIs(y, n, before, after)
  {
    SelectorParts(y, n, before, after);
    if Field(n, KGlobal).Some? { GlobalRead(y, Field(n, KGlobal).value, after.global); }
    ConsumerSetRead(y, n, before.consumer, after.global, after.consumer);
    if Field(n, KDynamicWeight).Some? { DynamicWeightRead(y, Field(n, KDynamicWeight).value, after.dynamicWeight); }
  }

  lemma GlobalSetRead(y: Scalars, n: Node, before: Global, after: Global)
    ensures
      GlobalSet(y, n, before, after) <==>
        if Field(n, KGlobal).None? then after == before
        else FreshGlobal(y, Field(n, KGlobal).value) == Ok(after)
  {
    if Field(n, KGlobal).Some? { GlobalRead(y, Field(n, KGlobal).value, after); }
  }

  /** What an exception leaves. If the global section does not convert, everything is
      as it was. */
  lemma GlobalThrows(y: Scalars, n: Node, before: Selector)
    requires n.Scalar? || forall g :: !GlobalSet(y, n, before.global, g)
    ensures ReadSelector(y, n, before) == (before, false)
  {
    if !n.Scalar? {
      var g := if Field(n, KGlobal).None? then before.global
               else if FreshGlobal(y, Field(n, KGlobal).value).Ok? then FreshGlobal(y, Field(n, KGlobal).value).value
               else before.global;
      GlobalSetRead(y, n, before.global, g);
    }
  }

  /** If the global section converts and the consumer section does not, only the
      global section is the document's. */
  lemma ConsumerThrows(y: Scalars, n: Node, before: Selector, global: Global)
    requires !n.Scalar? && GlobalSet(y, n, before.global, global)
    requires forall c :: !ConsumerSet(y, n, before.consumer, global, c)
    ensures ReadSelector(y, n, before) == (before.(global := global), false)
  {
    GlobalSetRead(y, n, before.global, global);
    var v := Field(n, KConsumer);
    var c := if v.Some? && FreshConsumer(y, v.value).Ok? then Migrated(FreshConsumer(y, v.value).value, global)
             else before.consumer;
    ConsumerSetRead(y, n, before.consumer, global, c);
  }

  /** If only the last section does not convert, the other two are the document's. */
  lemma WeightThrows(y: Scalars, n: Node, before: Selector, global: Global, consumer: Consumer)
    requires !n.Scalar? && GlobalSet(y, n, before.global, global)
    requires ConsumerSet(y, n, before.consumer, global, consumer)
    requires forall w :: !WeightSet(y, n, before.dynamicWeight, w)
    ensures ReadSelector(y, n, before) == (Selector(global, consumer, before.dynamicWeight), false)
  {
    GlobalSetRead(y, n, before.global, global);
    ConsumerSetRead(y, n, before.consumer, global, consumer);
    var v := Field(n, KDynamicWeight);
    if v.None? {
      assert WeightSet(y, n, before.dynamicWeight, before.dynamicWeight);
    } else if FreshDynamicWeight(y, v.value).Ok? {
      DynamicWeightRead(y, v.value, FreshDynamicWeight(y, v.value).value);
      assert WeightSet(y, n, before.dynamicWeight, FreshDynamicWeight(y, v.value).value);
    }
  }

  // ---- Sections: what encode puts under each key ----

  predicate TextAt(n: Node, k: Key, text: string) {
    Field(n, k) == Some(Scalar(text))
  }

  predicate TextsAt(n: Node, k: Key, texts: seq<string>) {
    match Field(n, k)
    case Some(Sequence(items)) => |items| == |texts| && forall i :: 0 <= i < |texts| ==> items[i] == Scalar(texts[i])
    case _ => false
  }

  predicate HasKeys(n: Node, keys: set<Key>) {
    n.Map? && n.fields.Keys == keys
  }

  predicate ClusterWritten(y: Scalars, c: Cluster, n: Node) {
    && HasKeys(n, {KNamespace, KService})
    && TextAt(n, KNamespace, c.namespace)
    && TextAt(n, KService, c.service)
  }

  lemma ClusterWrites(y: Scalars, c: Cluster)
    ensures ClusterWritten(y, c, ClusterNode(c))
  {
  }

  predicate LocationWritten(y: Scalars, c: Location, n: Node) {
    && HasKeys(n, {KRegion, KZone, KCampus, KEnableUpdate})
    && TextAt(n, KRegion, c.region)
    && TextAt(n, KZone, c.zone)
    && TextAt(n, KCampus, c.campus)
    && TextAt(n, KEnableUpdate, y.showBool(c.enableUpdate))
  }

  lemma LocationWrites(y: Scalars, c: Location)
    ensures LocationWritten(y, c, LocationNode(y, c))
  {
  }

  predicate ApiWritten(y: Scalars, c: Api, n: Node) {
    && HasKeys(n, {KBindIp, KBindIf, KReportInterval, KLocation})
    && TextAt(n, KBindIp, c.bindIp)
    && TextAt(n, KBindIf, c.bindIf)
    && TextAt(n, KReportInterval, y.showInt(c.reportInterval))
    && LocationWritten(y, c.location, SectionAt(n, KLocation))
  }

  lemma ApiWrites(y: Scalars, c: Api)
    ensures ApiWritten(y, c, ApiNode(y, c))
  {
    LocationWrites(y, c.location);
  }

  predicate ConnectorWritten(y: Scalars, c: Connector, n: Node) {
    && HasKeys(n, {KTimeout, KJoinPoint, KProtocol, KAddresses, KServerSwitchInterval, KMessageTimeout})
    && TextAt(n, KTimeout, y.showInt(c.timeout))
    && TextAt(n, KJoinPoint, c.joinPoint)
    && TextAt(n, KProtocol, c.protocol)
    && TextsAt(n, KAddresses, c.addresses)
    && TextAt(n, KServerSwitchInterval, y.showInt(c.serverSwitchInterval))
    && TextAt(n, KMessageTimeout, y.showInt(c.timeout))
  }

  lemma ConnectorWrites(y: Scalars, c: Connector)
    ensures ConnectorWritten(y, c, ConnectorNode(y, c))
  {
  }

  predicate MetricWritten(y: Scalars, c: Metric, n: Node) {
    && HasKeys(n, {KName, KEnable, KMetricsName})
    && TextAt(n, KName, c.name)
    && TextAt(n, KEnable, y.showBool(c.enable))
    && TextAt(n, KMetricsName, c.metricsName)
  }

  lemma MetricWrites(y: Scalars, c: Metric)
    ensures MetricWritten(y, c, MetricNode(y, c))
  {
  }

  predicate LocalCacheWritten(y: Scalars, c: LocalCache, n: Node) {
    && HasKeys(n, {KType, KServiceExpireTime, KServiceRefreshInterval, KPersistDir})
    && TextAt(n, KType, c.kind)
    && TextAt(n, KServiceExpireTime, c.expireTime)
    && TextAt(n, KServiceRefreshInterval, y.showInt(c.refreshInterval))
    && TextAt(n, KPersistDir, c.persistDir)
  }

  lemma LocalCacheWrites(y: Scalars, c: LocalCache)
    ensures LocalCacheWritten(y, c, LocalCacheNode(y, c))
  {
  }

  predicate ErrorCountWritten(y: Scalars, c: ErrorCount, n: Node) {
    && HasKeys(n, {KContinuousErrorThreshold, KSleepWindow, KRequestCount, KSuccessCount, KMetricExpiredTime})
    && TextAt(n, KContinuousErrorThreshold, y.showInt(c.continuousErrorThreshold))
    && TextAt(n, KSleepWindow, y.showInt(c.sleepWindow))
    && TextAt(n, KRequestCount, y.showInt(c.requestCount))
    && TextAt(n, KSuccessCount, y.showInt(c.successCount))
    && TextAt(n, KMetricExpiredTime, y.showInt(c.metricExpiredTime))
  }

  lemma ErrorCountWrites(y: Scalars, c: ErrorCount)
    ensures ErrorCountWritten(y, c, ErrorCountNode(y, c))
  {
  }

  predicate ErrorRateWritten(y: Scalars, c: ErrorRate, n: Node) {
    && HasKeys(n, {KRequestVolumeThreshold, KErrorRateThreshold, KMetricStatTimeWindow, KMetricNumBuckets,
                   KSleepWindow, KRequestCount, KSuccessCount, KMetricExpiredTime})
    && TextAt(n, KRequestVolumeThreshold, y.showInt(c.requestVolumeThreshold))
    && TextAt(n, KErrorRateThreshold, y.showFloat(c.errorRateThreshold))
    && TextAt(n, KMetricStatTimeWindow, y.showInt(c.metricStatTimeWindow))
    && TextAt(n, KMetricNumBuckets, y.showInt(c.metricNumBuckets))
    && TextAt(n, KSleepWindow, y.showInt(c.sleepWindow))
    && TextAt(n, KRequestCount, y.showInt(c.requestCount))
    && TextAt(n, KSuccessCount, y.showInt(c.successCount))
    && TextAt(n, KMetricExpiredTime, y.showInt(c.metricExpiredTime))
  }

  lemma ErrorRateWrites(y: Scalars, c: ErrorRate)
    ensures ErrorRateWritten(y, c, ErrorRateNode(y, c))
  {
  }

  predicate BreakerPluginWritten(y: Scalars, c: BreakerPlugin, n: Node) {
    && HasKeys(n, {KErrorCount, KErrorRate})
    && ErrorCountWritten(y, c.errorCount, SectionAt(n, KErrorCount))
    && ErrorRateWritten(y, c.errorRate, SectionAt(n, KErrorRate))
  }

  lemma BreakerPluginWrites(y: Scalars, c: BreakerPlugin)
    ensures BreakerPluginWritten(y, c, BreakerPluginNode(y, c))
  {
    ErrorCountWrites(y, c.errorCount);
    ErrorRateWrites(y, c.errorRate);
  }

  predicate SetBreakerWritten(y: Scalars, c: bool, n: Node) {
    && HasKeys(n, {KEnable})
    && TextAt(n, KEnable, y.showBool(c))
  }

  lemma SetBreakerWrites(y: Scalars, c: bool)
    ensures SetBreakerWritten(y, c, SetBreakerNode(y, c))
  {
  }

  predicate BreakerWritten(y: Scalars, c: Breaker, n: Node) {
    && HasKeys(n, {KEnable, KCheckPeriod, KChain, KPlugin, KSetCircuitBreaker})
    && TextAt(n, KEnable, y.showBool(c.enable))
    && TextAt(n, KCheckPeriod, c.checkPeriod)
    && TextsAt(n, KChain, c.chain)
    && BreakerPluginWritten(y, c.plugin, SectionAt(n, KPlugin))
    && SetBreakerWritten(y, c.setBreaker, SectionAt(n, KSetCircuitBreaker))
  }

  lemma BreakerWrites(y: Scalars, c: Breaker)
    ensures BreakerWritten(y, c, BreakerNode(y, c))
  {
    BreakerPluginWrites(y, c.plugin);
    SetBreakerWrites(y, c.setBreaker);
  }

  predicate OutlierWritten(y: Scalars, c: Outlier, n: Node) {
    && HasKeys(n, {KEnable, KCheckPeriod, KChain})
    && TextAt(n, KEnable, y.showBool(c.enable))
    && TextAt(n, KCheckPeriod, c.checkPeriod)
    && TextsAt(n, KChain, c.chain)
  }

  lemma OutlierWrites(y: Scalars, c: Outlier)
    ensures OutlierWritten(y, c, OutlierNode(y, c))
  {
  }

  predicate BalancerWritten(y: Scalars, c: Balancer, n: Node) {
    && HasKeys(n, {KType, KEnableDynamicWeight} + (if c.vnodeCount > 0 then {KVnodeCount} else {})
                  + (if c.compatibleGo then {KCompatibleGo} else {}))
    && TextAt(n, KType, c.kind)
    && TextAt(n, KEnableDynamicWeight, y.showBool(c.dynamicWeight))
    && (c.vnodeCount > 0 ==> TextAt(n, KVnodeCount, y.showInt(c.vnodeCount)))
    && (c.compatibleGo ==> TextAt(n, KCompatibleGo, y.showBool(c.compatibleGo)))
  }

  lemma BalancerWrites(y: Scalars, c: Balancer)
    ensures BalancerWritten(y, c, BalancerNode(y, c))
  {
  }

  predicate NearbyWritten(y: Scalars, c: Nearby, n: Node) {
    && HasKeys(n, {KMatchLevel, KMaxMatchLevel, KStrictNearby, KEnableDegrade, KUnhealthyPercent, KEnableRecoverAll})
    && TextAt(n, KMatchLevel, c.matchLevel)
    && TextAt(n, KMaxMatchLevel, c.maxMatchLevel)
    && TextAt(n, KStrictNearby, y.showBool(c.strictNearby))
    && TextAt(n, KEnableDegrade, y.showBool(c.enableDegrade))
    && TextAt(n, KUnhealthyPercent, y.showInt(c.unhealthyPercent))
    && TextAt(n, KEnableRecoverAll, y.showBool(c.enableRecoverAll))
  }

  lemma NearbyWrites(y: Scalars, c: Nearby)
    ensures NearbyWritten(y, c, NearbyNode(y, c))
  {
  }

  predicate RouterPluginWritten(y: Scalars, c: Nearby, n: Node) {
    && HasKeys(n, {KNearbyBasedRouter})
    && NearbyWritten(y, c, SectionAt(n, KNearbyBasedRouter))
  }

  lemma RouterPluginWrites(y: Scalars, c: Nearby)
    ensures RouterPluginWritten(y, c, RouterPluginNode(y, c))
  {
    NearbyWrites(y, c);
  }

  predicate RouterWritten(y: Scalars, c: Router, n: Node) {
    && HasKeys(n, {KPercentOfMinInstances, KEnable, KChain, KPlugin})
    && TextAt(n, KPercentOfMinInstances, y.showFloat(c.percentOfMinInstances))
    && TextAt(n, KEnable, y.showBool(c.enable))
    && TextsAt(n, KChain, c.chain)
    && RouterPluginWritten(y, c.plugin, SectionAt(n, KPlugin))
  }

  lemma RouterWrites(y: Scalars, c: Router)
    ensures RouterWritten(y, c, RouterNode(y, c))
  {
    RouterPluginWrites(y, c.plugin);
  }

  predicate DynamicWeightWritten(y: Scalars, c: bool, n: Node) {
    && HasKeys(n, {KIsOpenDynamicWeight})
    && TextAt(n, KIsOpenDynamicWeight, y.showBool(c))
  }

  lemma DynamicWeightWrites(y: Scalars, c: bool)
    ensures DynamicWeightWritten(y, c, DynamicWeightNode(y, c))
  {
  }

  /** A node to which nothing is assigned is null. */
  predicate SystemWritten(y: Scalars, c: System, n: Node) {
    var keys := (if DiscoverCluster in c then {KDiscoverCluster} else {})
                + (if HealthCheckCluster in c then {KHealthCheckCluster} else {})
                + (if MonitorCluster in c then {KMonitorCluster} else {});
    && (if keys == {} then n == Null else HasKeys(n, keys))
    && (DiscoverCluster in c ==> ClusterWritten(y, c[DiscoverCluster], SectionAt(n, KDiscoverCluster)))
    && (HealthCheckCluster in c ==> ClusterWritten(y, c[HealthCheckCluster], SectionAt(n, KHealthCheckCluster)))
    && (MonitorCluster in c ==> ClusterWritten(y, c[MonitorCluster], SectionAt(n, KMonitorCluster)))
  }

  lemma SystemWrites(y: Scalars, c: System)
    ensures SystemWritten(y, c, SystemNode(c))
  {
    var f1 := AssignCluster(map[], c, DiscoverCluster);
    var f2 := AssignCluster(f1, c, HealthCheckCluster);
    var f3 := AssignCluster(f2, c, MonitorCluster);
    if f3 == map[] {
      assert KDiscoverCluster !in f3 && KHealthCheckCluster !in f3 && KMonitorCluster !in f3;
    }
  }

  predicate GlobalWritten(y: Scalars, c: Global, n: Node) {
    && HasKeys(n, {KApi, KServerConnector, KServerMetric} + (if c.system != map[] then {KSystem} else {}))
    && (c.system != map[] ==> SystemWritten(y, c.system, SectionAt(n, KSystem)))
    && ApiWritten(y, c.api, SectionAt(n, KApi))
    && ConnectorWritten(y, c.connector, SectionAt(n, KServerConnector))
    && MetricWritten(y, c.metric, SectionAt(n, KServerMetric))
  }

  lemma GlobalWrites(y: Scalars, c: Global)
    ensures GlobalWritten(y, c, GlobalNode(y, c))
  {
    SystemWrites(y, c.system);
    ApiWrites(y, c.api);
    ConnectorWrites(y, c.connector);
    MetricWrites(y, c.metric);
  }

  predicate ServiceWritten(y: Scalars, c: Service, n: Node) {
    && HasKeys(n, {KName, KNamespace} + (if c.setBreaker then {KCircuitBreaker} else {})
                  + (if c.setOutlier then {KOutlierDetection} else {})
                  + (if c.setBalancer then {KLoadBalancer} else {}) + (if c.setRouter then {KServiceRouter} else {}))
    && TextAt(n, KName, c.name) && TextAt(n, KNamespace, c.namespace)
    && (c.setBreaker ==> BreakerWritten(y, c.breaker, SectionAt(n, KCircuitBreaker)))
    && (c.setOutlier ==> OutlierWritten(y, c.outlier, SectionAt(n, KOutlierDetection)))
    && (c.setBalancer ==> BalancerWritten(y, c.balancer, SectionAt(n, KLoadBalancer)))
    && (c.setRouter ==> RouterWritten(y, c.router, SectionAt(n, KServiceRouter)))
  }

  lemma FourAssigned(f: map<Key, Node>, w1: bool, v1: Node, w2: bool, v2: Node, w3: bool, v3: Node, w4: bool, v4: Node)
    requires f.Keys == {KName, KNamespace}
    ensures
      var f2 := Assign(Assign(f, w1, KCircuitBreaker, v1), w2, KOutlierDetection, v2);
      var n := Map(Assign(Assign(f2, w3, KLoadBalancer, v3), w4, KServiceRouter, v4));
      && HasKeys(n, {KName, KNamespace} + (if w1 then {KCircuitBreaker} else {})
                    + (if w2 then {KOutlierDetection} else {}) + (if w3 then {KLoadBalancer} else {})
                    + (if w4 then {KServiceRouter} else {}))
      && Field(n, KName) == Some(f[KName]) && Field(n, KNamespace) == Some(f[KNamespace])
      && (w1 ==> SectionAt(n, KCircuitBreaker) == v1) && (w2 ==> SectionAt(n, KOutlierDetection) == v2)
      && (w3 ==> SectionAt(n, KLoadBalancer) == v3) && (w4 ==> SectionAt(n, KServiceRouter) == v4)
  {
  }

  lemma ServiceWrites(y: Scalars, c: Service)
    ensures ServiceWritten(y, c, ServiceNode(y, c))
  {
    BreakerWrites(y, c.breaker);
    OutlierWrites(y, c.outlier);
    BalancerWrites(y, c.balancer);
    RouterWrites(y, c.router);
    FourAssigned(map[KName := Scalar(c.name), KNamespace := Scalar(c.namespace)],
                 c.setBreaker, BreakerNode(y, c.breaker), c.setOutlier, OutlierNode(y, c.outlier),
                 c.setBalancer, BalancerNode(y, c.balancer), c.setRouter, RouterNode(y, c.router));
  }

  predicate ServicesWritten(y: Scalars, s: seq<Service>, n: Node) {
    && n.Sequence? && |n.items| == |s|
    && forall i :: 0 <= i < |s| ==> ServiceWritten(y, s[i], n.items[i])
  }

  predicate ConsumerWritten(y: Scalars, c: Consumer, n: Node) {
    && HasKeys(n, {KLocalCache, KCircuitBreaker, KOutlierDetection, KLoadBalancer, KServiceRouter, KService,
                   KEnableTransMeta})
    && LocalCacheWritten(y, c.localCache, SectionAt(n, KLocalCache))
    && BreakerWritten(y, c.breaker, SectionAt(n, KCircuitBreaker))
    && OutlierWritten(y, c.outlier, SectionAt(n, KOutlierDetection))
    && BalancerWritten(y, c.balancer, SectionAt(n, KLoadBalancer))
    && RouterWritten(y, c.router, SectionAt(n, KServiceRouter))
    && ServicesWritten(y, c.services, SectionAt(n, KService))
    && TextAt(n, KEnableTransMeta, y.showBool(c.enableTransMeta))
  }

  lemma ServicesWrite(y: Scalars, s: seq<Service>)
    ensures ServicesWritten(y, s, Sequence(ServiceNodes(y, s)))
  {
    forall i | 0 <= i < |s| ensures ServiceWritten(y, s[i], ServiceNodes(y, s)[i]) {
      ServiceWrites(y, s[i]);
    }
  }

  lemma ConsumerFromSections(y: Scalars, c: Consumer, n: Node, cache: Node, breaker: Node, outlier: Node,
                             balancer: Node, router: Node, services: Node)
    requires n == Map(map[KLocalCache := cache, KCircuitBreaker := breaker, KOutlierDetection := outlier,
                          KLoadBalancer := balancer, KServiceRouter := router, KService := services,
                          KEnableTransMeta := Scalar(y.showBool(c.enableTransMeta))])
    requires LocalCacheWritten(y, c.localCache, cache) && BreakerWritten(y, c.breaker, breaker)
    requires OutlierWritten(y, c.outlier, outlier) && BalancerWritten(y, c.balancer, balancer)
    requires RouterWritten(y, c.router, router) && ServicesWritten(y, c.services, services)
    ensures ConsumerWritten(y, c, n)
  {
  }

  lemma ConsumerWrites(y: Scalars, c: Consumer)
    ensures ConsumerWritten(y, c, ConsumerNode(y, c))
  {
    LocalCacheWrites(y, c.localCache);
    BreakerWrites(y, c.breaker);
    OutlierWrites(y, c.outlier);
    BalancerWrites(y, c.balancer);
    RouterWrites(y, c.router);
    ServicesWrite(y, c.services);
    ConsumerFromSections(y, c, ConsumerNode(y, c), LocalCacheNode(y, c.localCache), BreakerNode(y, c.breaker),
                         OutlierNode(y, c.outlier), BalancerNode(y, c.balancer), RouterNode(y, c.router),
                         Sequence(ServiceNodes(y, c.services)));
  }

  predicate SelectorWritten(y: Scalars, c: Selector, n: Node) {
    && HasKeys(n, {KGlobal, KConsumer, KDynamicWeight})
    && GlobalWritten(y, c.global, SectionAt(n, KGlobal))
    && ConsumerWritten(y, c.consumer, SectionAt(n, KConsumer))
    && DynamicWeightWritten(y, c.dynamicWeight, SectionAt(n, KDynamicWeight))
  }

  lemma SelectorSections(y: Scalars, c: Selector)
    ensures
      var n := SelectorNode(y, c);
      && HasKeys(n, {KGlobal, KConsumer, KDynamicWeight})
      && SectionAt(n, KGlobal) == GlobalNode(y, c.global) && SectionAt(n, KConsumer) == ConsumerNode(y, c.consumer)
      && SectionAt(n, KDynamicWeight) == DynamicWeightNode(y, c.dynamicWeight)
  {
  }

  /** Encoding writes every field under its key, those of unset options left out, and
      nothing else. */
  lemma SelectorWrites(y: Scalars, c: Selector)
    ensures SelectorWritten(y, c, SelectorNode(y, c))
  {
    SelectorSections(y, c);
    GlobalWrites(y, c.global);
    ConsumerWrites(y, c.consumer);
    DynamicWeightWrites(y, c.dynamicWeight);
  }
}
