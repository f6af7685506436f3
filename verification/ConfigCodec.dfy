/** The selector configuration and its YAML::convert specialisations
    (polarismesh_naming_conf.h). `XNode` is encode, `ReadX` is decode into a given
    value, and `FreshX` is `node.as<X>()`: decode into a default one. */
module ConfigCodec {
  import opened Prelude
  import opened Yaml

  // ---- Clusters and the global section ----

  datatype Cluster = Cluster(namespace: string, service: string)

  function ClusterNode(c: Cluster): Node {
    Map(map[KNamespace := Scalar(c.namespace), KService := Scalar(c.service)])
  }

  function FreshCluster(y: Scalars, n: Node): Result<Cluster> {
    if n.Scalar? then Err else
    var namespace :- StrAt(y, n, KNamespace, "");
    var service :- StrAt(y, n, KService, "");
    Ok(Cluster(namespace, service))
  }

  /** SystemConfig: clusters by name; the codec knows three names. */
  datatype ClusterName = DiscoverCluster | HealthCheckCluster | MonitorCluster | OtherCluster(name: string)

  type System = map<ClusterName, Cluster>

  const KNOWN_CLUSTERS := {DiscoverCluster, HealthCheckCluster, MonitorCluster}

  function ClusterKey(n: ClusterName): Key {
    match n
    case DiscoverCluster => KDiscoverCluster
    case HealthCheckCluster => KHealthCheckCluster
    case MonitorCluster => KMonitorCluster
    case OtherCluster(name) => Other(name)
  }

  function AssignCluster(fields: map<Key, Node>, s: System, n: ClusterName): map<Key, Node> {
    if n in s then fields[ClusterKey(n) := ClusterNode(s[n])] else fields
  }

  /** A node to which nothing is assigned stays null. */
  function SystemNode(s: System): Node {
    var f1 := AssignCluster(map[], s, DiscoverCluster);
    var f2 := AssignCluster(f1, s, HealthCheckCluster);
    var f3 := AssignCluster(f2, s, MonitorCluster);
    if f3 == map[] then Null else Map(f3)
  }

  function ReadCluster(y: Scalars, n: Node, name: ClusterName, s: System): Result<System> {
    match Field(n, ClusterKey(name))
    case None => Ok(s)
    case Some(v) => var c :- FreshCluster(y, v); Ok(s[name := c])
  }

  function FreshSystem(y: Scalars, n: Node): Result<System> {
    if n.Scalar? then Err else
    var s1 :- ReadCluster(y, n, DiscoverCluster, map[]);
    var s2 :- ReadCluster(y, n, HealthCheckCluster, s1);
    ReadCluster(y, n, MonitorCluster, s2)
  }

  datatype Location = Location(region: string, zone: string, campus: string, enableUpdate: bool)

  const DEFAULT_LOCATION := Location("", "", "", true)

  function LocationNode(y: Scalars, c: Location): Node {
    Map(map[KRegion := Scalar(c.region), KZone := Scalar(c.zone), KCampus := Scalar(c.campus),
            KEnableUpdate := FromBool(y, c.enableUpdate)])
  }

  function FreshLocation(y: Scalars, n: Node): Result<Location> {
    if n.Scalar? then Err else
    var d := DEFAULT_LOCATION;
    var region :- StrAt(y, n, KRegion, d.region);
    var zone :- StrAt(y, n, KZone, d.zone);
    var campus :- StrAt(y, n, KCampus, d.campus);
    var enableUpdate :- BoolAt(y, n, KEnableUpdate, d.enableUpdate);
    Ok(Location(region, zone, campus, enableUpdate))
  }

  datatype Api = Api(bindIp: string, bindIf: string, reportInterval: uint64, location: Location)

  const DEFAULT_API := Api("", "", 600000, DEFAULT_LOCATION)

  function ApiNode(y: Scalars, c: Api): Node {
    Map(map[KBindIp := Scalar(c.bindIp), KBindIf := Scalar(c.bindIf),
            KReportInterval := FromInt(y, c.reportInterval), KLocation := LocationNode(y, c.location)])
  }

  function FreshApi(y: Scalars, n: Node): Result<Api> {
    if n.Scalar? then Err else
    var d := DEFAULT_API;
    var bindIp :- StrAt(y, n, KBindIp, d.bindIp);
    var bindIf :- StrAt(y, n, KBindIf, d.bindIf);
    var reportInterval :- U64At(y, n, KReportInterval, d.reportInterval);
    var location :- match Field(n, KLocation) case None => Ok(d.location) case Some(v) => FreshLocation(y, v);
    Ok(Api(bindIp, bindIf, reportInterval, location))
  }

  const REFRESH_INTERVAL: uint64 := 10000

  datatype Connector = Connector(
    timeout: uint64, joinPoint: string, protocol: string, refreshInterval: uint64,
    addresses: seq<string>, serverSwitchInterval: uint64)

  const DEFAULT_CONNECTOR := Connector(2000, "default", "grpc", REFRESH_INTERVAL, [], 600000)

  /** The timeout is written twice, the refresh interval not at all. */
  function ConnectorNode(y: Scalars, c: Connector): Node {
    Map(map[KTimeout := FromInt(y, c.timeout), KMessageTimeout := FromInt(y, c.timeout),
            KJoinPoint := Scalar(c.joinPoint), KProtocol := Scalar(c.protocol),
            KAddresses := FromStrings(c.addresses), KServerSwitchInterval := FromInt(y, c.serverSwitchInterval)])
  }

  function FreshConnector(y: Scalars, n: Node): Result<Connector> {
    if n.Scalar? then Err else
    var d := DEFAULT_CONNECTOR;
    var timeout :- U64At(y, n, KTimeout, d.timeout);
    var joinPoint :- StrAt(y, n, KJoinPoint, d.joinPoint);
    var protocol :- StrAt(y, n, KProtocol, d.protocol);
    var refreshInterval :- U64At(y, n, KRefreshInterval, d.refreshInterval);
    var addresses :- StrsAt(y, n, KAddresses, d.addresses);
    var serverSwitchInterval :- U64At(y, n, KServerSwitchInterval, d.serverSwitchInterval);
    Ok(Connector(timeout, joinPoint, protocol, refreshInterval, addresses, serverSwitchInterval))
  }

  datatype Metric = Metric(name: string, enable: bool, metricsName: string)

  const DEFAULT_METRIC := Metric("trpc", true, "")

  function MetricNode(y: Scalars, c: Metric): Node {
    Map(map[KName := Scalar(c.name), KEnable := FromBool(y, c.enable), KMetricsName := Scalar(c.metricsName)])
  }

  /** The name is written but never read. */
  function FreshMetric(y: Scalars, n: Node): Result<Metric> {
    if n.Scalar? then Err else
    var d := DEFAULT_METRIC;
    var enable :- BoolAt(y, n, KEnable, d.enable);
    var metricsName :- StrAt(y, n, KMetricsName, d.metricsName);
    Ok(Metric(d.name, enable, metricsName))
  }

  datatype Global = Global(system: System, api: Api, connector: Connector, metric: Metric)

  const DEFAULT_GLOBAL := Global(map[], DEFAULT_API, DEFAULT_CONNECTOR, DEFAULT_METRIC)

  function GlobalNode(y: Scalars, c: Global): Node {
    var system := Assign(map[], c.system != map[], KSystem, SystemNode(c.system));
    Map(system[KApi := ApiNode(y, c.api)][KServerConnector := ConnectorNode(y, c.connector)]
          [KServerMetric := MetricNode(y, c.metric)])
  }

  function FreshGlobal(y: Scalars, n: Node): Result<Global> {
    if n.Scalar? then Err else
    var d := DEFAULT_GLOBAL;
    var system :- match Field(n, KSystem) case None => Ok(d.system) case Some(v) => FreshSystem(y, v);
    var api :- match Field(n, KApi) case None => Ok(d.api) case Some(v) => FreshApi(y, v);
    var connector :- match Field(n, KServerConnector) case None => Ok(d.connector) case Some(v) => FreshConnector(y, v);
    var metric :- match Field(n, KServerMetric) case None => Ok(d.metric) case Some(v) => FreshMetric(y, v);
    Ok(Global(system, api, connector, metric))
  }

  // ---- The consumer section ----

  datatype LocalCache = LocalCache(kind: string, expireTime: string, refreshInterval: uint64, persistDir: string)

  const DEFAULT_LOCAL_CACHE :=
    LocalCache("inmemory", "24h", REFRESH_INTERVAL, "/usr/local/trpc/data/polarismesh/backup")

  function LocalCacheNode(y: Scalars, c: LocalCache): Node {
    Map(map[KType := Scalar(c.kind), KServiceExpireTime := Scalar(c.expireTime),
            KServiceRefreshInterval := FromInt(y, c.refreshInterval), KPersistDir := Scalar(c.persistDir)])
  }

  function FreshLocalCache(y: Scalars, n: Node): Result<LocalCache> {
    if n.Scalar? then Err else
    var d := DEFAULT_LOCAL_CACHE;
    var kind :- StrAt(y, n, KType, d.kind);
    var expireTime :- StrAt(y, n, KServiceExpireTime, d.expireTime);
    var refreshInterval :- U64At(y, n, KServiceRefreshInterval, d.refreshInterval);
    var persistDir :- StrAt(y, n, KPersistDir, d.persistDir);
    Ok(LocalCache(kind, expireTime, refreshInterval, persistDir))
  }

  datatype ErrorCount = ErrorCount(
    continuousErrorThreshold: int32, sleepWindow: uint64, requestCount: int32, successCount: int32,
    metricExpiredTime: uint64)

  const DEFAULT_ERROR_COUNT := ErrorCount(10, 30000, 10, 8, 3600000)

  function ErrorCountNode(y: Scalars, c: ErrorCount): Node {
    Map(map[KContinuousErrorThreshold := FromInt(y, c.continuousErrorThreshold),
            KSleepWindow := FromInt(y, c.sleepWindow), KRequestCount := FromInt(y, c.requestCount),
            KSuccessCount := FromInt(y, c.successCount), KMetricExpiredTime := FromInt(y, c.metricExpiredTime)])
  }

  function FreshErrorCount(y: Scalars, n: Node): Result<ErrorCount> {
    if n.Scalar? then Err else
    var d := DEFAULT_ERROR_COUNT;
    var threshold :- I32At(y, n, KContinuousErrorThreshold, d.continuousErrorThreshold);
    var sleepWindow :- U64At(y, n, KSleepWindow, d.sleepWindow);
    var requestCount :- I32At(y, n, KRequestCount, d.requestCount);
    var successCount :- I32At(y, n, KSuccessCount, d.successCount);
    var expired :- U64At(y, n, KMetricExpiredTime, d.metricExpiredTime);
    Ok(ErrorCount(threshold, sleepWindow, requestCount, successCount, expired))
  }

  datatype ErrorRate = ErrorRate(
    requestVolumeThreshold: int32, errorRateThreshold: float32, metricStatTimeWindow: uint64, metricNumBuckets: int32,
    sleepWindow: uint64, requestCount: int32, successCount: int32, metricExpiredTime: uint64)

  const DEFAULT_ERROR_RATE := ErrorRate(10, FLOAT_HALF, 60000, 12, 30000, 10, 8, 3600000)

  function ErrorRateNode(y: Scalars, c: ErrorRate): Node {
    Map(map[KRequestVolumeThreshold := FromInt(y, c.requestVolumeThreshold),
            KErrorRateThreshold := FromFloat(y, c.errorRateThreshold),
            KMetricStatTimeWindow := FromInt(y, c.metricStatTimeWindow),
            KMetricNumBuckets := FromInt(y, c.metricNumBuckets), KSleepWindow := FromInt(y, c.sleepWindow),
            KRequestCount := FromInt(y, c.requestCount), KSuccessCount := FromInt(y, c.successCount),
            KMetricExpiredTime := FromInt(y, c.metricExpiredTime)])
  }

  function FreshErrorRate(y: Scalars, n: Node): Result<ErrorRate> {
    if n.Scalar? then Err else
    var d := DEFAULT_ERROR_RATE;
    var volume :- I32At(y, n, KRequestVolumeThreshold, d.requestVolumeThreshold);
    var rate :- FloatAt(y, n, KErrorRateThreshold, d.errorRateThreshold);
    var window :- U64At(y, n, KMetricStatTimeWindow, d.metricStatTimeWindow);
    var buckets :- I32At(y, n, KMetricNumBuckets, d.metricNumBuckets);
    var sleepWindow :- U64At(y, n, KSleepWindow, d.sleepWindow);
    var requestCount :- I32At(y, n, KRequestCount, d.requestCount);
    var successCount :- I32At(y, n, KSuccessCount, d.successCount);
    var expired :- U64At(y, n, KMetricExpiredTime, d.metricExpiredTime);
    Ok(ErrorRate(volume, rate, window, buckets, sleepWindow, requestCount, successCount, expired))
  }

  datatype BreakerPlugin = BreakerPlugin(errorCount: ErrorCount, errorRate: ErrorRate)

  const DEFAULT_BREAKER_PLUGIN := BreakerPlugin(DEFAULT_ERROR_COUNT, DEFAULT_ERROR_RATE)

  function BreakerPluginNode(y: Scalars, c: BreakerPlugin): Node {
    Map(map[KErrorCount := ErrorCountNode(y, c.errorCount), KErrorRate := ErrorRateNode(y, c.errorRate)])
  }

  function FreshBreakerPlugin(y: Scalars, n: Node): Result<BreakerPlugin> {
    if n.Scalar? then Err else
    var d := DEFAULT_BREAKER_PLUGIN;
    var errorCount :- match Field(n, KErrorCount) case None => Ok(d.errorCount) case Some(v) => FreshErrorCount(y, v);
    var errorRate :- match Field(n, KErrorRate) case None => Ok(d.errorRate) case Some(v) => FreshErrorRate(y, v);
    Ok(BreakerPlugin(errorCount, errorRate))
  }

  /** SetCircuitBreakerConfig is its one flag. */
  function SetBreakerNode(y: Scalars, enable: bool): Node {
    Map(map[KEnable := FromBool(y, enable)])
  }

  function FreshSetBreaker(y: Scalars, n: Node): Result<bool> {
    if n.Scalar? then Err else BoolAt(y, n, KEnable, false)
  }

  datatype Breaker = Breaker(
    enable: bool, checkPeriod: string, chain: seq<string>, plugin: BreakerPlugin, setBreaker: bool)

  const DEFAULT_BREAKER := Breaker(true, "500", ["errorCount", "errorRate"], DEFAULT_BREAKER_PLUGIN, false)

  function BreakerNode(y: Scalars, c: Breaker): Node {
    Map(map[KEnable := FromBool(y, c.enable), KChain := FromStrings(c.chain), KCheckPeriod := Scalar(c.checkPeriod),
            KPlugin := BreakerPluginNode(y, c.plugin), KSetCircuitBreaker := SetBreakerNode(y, c.setBreaker)])
  }

  function FreshBreaker(y: Scalars, n: Node): Result<Breaker> {
    if n.Scalar? then Err else
    var d := DEFAULT_BREAKER;
    var enable :- BoolAt(y, n, KEnable, d.enable);
    var chain :- StrsAt(y, n, KChain, d.chain);
    var checkPeriod :- StrAt(y, n, KCheckPeriod, d.checkPeriod);
    var plugin :- match Field(n, KPlugin) case None => Ok(d.plugin) case Some(v) => FreshBreakerPlugin(y, v);
    var setBreaker :-
      match Field(n, KSetCircuitBreaker) case None => Ok(d.setBreaker) case Some(v) => FreshSetBreaker(y, v);
    Ok(Breaker(enable, checkPeriod, chain, plugin, setBreaker))
  }

  datatype Outlier = Outlier(enable: bool, checkPeriod: string, chain: seq<string>)

  const DEFAULT_OUTLIER := Outlier(false, "10s", ["tcp"])

  function OutlierNode(y: Scalars, c: Outlier): Node {
    Map(map[KEnable := FromBool(y, c.enable), KCheckPeriod := Scalar(c.checkPeriod), KChain := FromStrings(c.chain)])
  }

  function FreshOutlier(y: Scalars, n: Node): Result<Outlier> {
    if n.Scalar? then Err else
    var d := DEFAULT_OUTLIER;
    var enable :- BoolAt(y, n, KEnable, d.enable);
    var checkPeriod :- StrAt(y, n, KCheckPeriod, d.checkPeriod);
    var chain :- StrsAt(y, n, KChain, d.chain);
    Ok(Outlier(enable, checkPeriod, chain))
  }

  datatype Balancer = Balancer(kind: string, dynamicWeight: bool, vnodeCount: uint32, compatibleGo: bool)

  const DEFAULT_BALANCER := Balancer("weightedRandom", false, 0, false)

  /** Two fields are written only when they differ from the default. */
  function BalancerNode(y: Scalars, c: Balancer): Node {
    var always := map[KType := Scalar(c.kind), KEnableDynamicWeight := FromBool(y, c.dynamicWeight)];
    var vnodes := Assign(always, c.vnodeCount > 0, KVnodeCount, FromInt(y, c.vnodeCount));
    Map(Assign(vnodes, c.compatibleGo, KCompatibleGo, FromBool(y, c.compatibleGo)))
  }

  function FreshBalancer(y: Scalars, n: Node): Result<Balancer> {
    if n.Scalar? then Err else
    var d := DEFAULT_BALANCER;
    var kind :- StrAt(y, n, KType, d.kind);
    var dynamicWeight :- BoolAt(y, n, KEnableDynamicWeight, d.dynamicWeight);
    var vnodeCount :- U32At(y, n, KVnodeCount, d.vnodeCount);
    var compatibleGo :- BoolAt(y, n, KCompatibleGo, d.compatibleGo);
    Ok(Balancer(kind, dynamicWeight, vnodeCount, compatibleGo))
  }

  datatype Nearby = Nearby(
    matchLevel: string, maxMatchLevel: string, strictNearby: bool, enableDegrade: bool,
    unhealthyPercent: int32, enableRecoverAll: bool)

  const DEFAULT_NEARBY := Nearby("zone", "none", false, true, 100, true)

  function NearbyNode(y: Scalars, c: Nearby): Node {
    Map(map[KMatchLevel := Scalar(c.matchLevel), KMaxMatchLevel := Scalar(c.maxMatchLevel),
            KStrictNearby := FromBool(y, c.strictNearby), KEnableDegrade := FromBool(y, c.enableDegrade),
            KUnhealthyPercent := FromInt(y, c.unhealthyPercent), KEnableRecoverAll := FromBool(y, c.enableRecoverAll)])
  }

  function FreshNearby(y: Scalars, n: Node): Result<Nearby> {
    if n.Scalar? then Err else
    var d := DEFAULT_NEARBY;
    var matchLevel :- StrAt(y, n, KMatchLevel, d.matchLevel);
    var maxMatchLevel :- StrAt(y, n, KMaxMatchLevel, d.maxMatchLevel);
    var strictNearby :- BoolAt(y, n, KStrictNearby, d.strictNearby);
    var enableDegrade :- BoolAt(y, n, KEnableDegrade, d.enableDegrade);
    var unhealthyPercent :- I32At(y, n, KUnhealthyPercent, d.unhealthyPercent);
    var enableRecoverAll :- BoolAt(y, n, KEnableRecoverAll, d.enableRecoverAll);
    Ok(Nearby(matchLevel, maxMatchLevel, strictNearby, enableDegrade, unhealthyPercent, enableRecoverAll))
  }

  /** RouterPluginConfig is its one member. */
  function RouterPluginNode(y: Scalars, c: Nearby): Node {
    Map(map[KNearbyBasedRouter := NearbyNode(y, c)])
  }

  function FreshRouterPlugin(y: Scalars, n: Node): Result<Nearby> {
    if n.Scalar? then Err else
    match Field(n, KNearbyBasedRouter) case None => Ok(DEFAULT_NEARBY) case Some(v) => FreshNearby(y, v)
  }

  datatype Router = Router(percentOfMinInstances: float32, enable: bool, chain: seq<string>, plugin: Nearby)

  const DEFAULT_ROUTER :=
    Router(FLOAT_ZERO, true, ["ruleRouter", "setDivisionRouter", "nearbyRouter", "canaryRouter"], DEFAULT_NEARBY)

  function RouterNode(y: Scalars, c: Router): Node {
    Map(map[KEnable := FromBool(y, c.enable), KPercentOfMinInstances := FromFloat(y, c.percentOfMinInstances),
            KChain := FromStrings(c.chain), KPlugin := RouterPluginNode(y, c.plugin)])
  }

  function FreshRouter(y: Scalars, n: Node): Result<Router> {
    if n.Scalar? then Err else
    var d := DEFAULT_ROUTER;
    var enable :- BoolAt(y, n, KEnable, d.enable);
    var percent :- FloatAt(y, n, KPercentOfMinInstances, d.percentOfMinInstances);
    var chain :- StrsAt(y, n, KChain, d.chain);
    var plugin :- match Field(n, KPlugin) case None => Ok(d.plugin) case Some(v) => FreshRouterPlugin(y, v);
    Ok(Router(percent, enable, chain, plugin))
  }

  /** ServiceConsumerConfig: each sub-configuration counts only if its flag is set. */
  datatype Service = Service(
    name: string, namespace: string,
    setBreaker: bool, breaker: Breaker, setOutlier: bool, outlier: Outlier,
    setBalancer: bool, balancer: Balancer, setRouter: bool, router: Router)

  function ServiceNode(y: Scalars, c: Service): Node {
    var f1 := Assign(map[KName := Scalar(c.name), KNamespace := Scalar(c.namespace)],
                     c.setBreaker, KCircuitBreaker, BreakerNode(y, c.breaker));
    var f2 := Assign(f1, c.setOutlier, KOutlierDetection, OutlierNode(y, c.outlier));
    var f3 := Assign(f2, c.setBalancer, KLoadBalancer, BalancerNode(y, c.balancer));
    Map(Assign(f3, c.setRouter, KServiceRouter, RouterNode(y, c.router)))
  }

  function FreshService(y: Scalars, n: Node): Result<Service> {
    if n.Scalar? then Err else
    var name :- StrAt(y, n, KName, "");
    var namespace :- StrAt(y, n, KNamespace, "");
    var breaker :- match Field(n, KCircuitBreaker) case None => Ok(DEFAULT_BREAKER) case Some(v) => FreshBreaker(y, v);
    var outlier :-
      match Field(n, KOutlierDetection) case None => Ok(DEFAULT_OUTLIER) case Some(v) => FreshOutlier(y, v);
    var balancer :- match Field(n, KLoadBalancer) case None => Ok(DEFAULT_BALANCER) case Some(v) => FreshBalancer(y, v);
    var router :- match Field(n, KServiceRouter) case None => Ok(DEFAULT_ROUTER) case Some(v) => FreshRouter(y, v);
    Ok(Service(name, namespace,
               Field(n, KCircuitBreaker).Some?, breaker, Field(n, KOutlierDetection).Some?, outlier,
               Field(n, KLoadBalancer).Some?, balancer, Field(n, KServiceRouter).Some?, router))
  }

  datatype Consumer = Consumer(
    localCache: LocalCache, breaker: Breaker, outlier: Outlier, balancer: Balancer, router: Router,
    services: seq<Service>, enableTransMeta: bool)

  const DEFAULT_CONSUMER :=
    Consumer(DEFAULT_LOCAL_CACHE, DEFAULT_BREAKER, DEFAULT_OUTLIER, DEFAULT_BALANCER, DEFAULT_ROUTER, [], false)

  function ServiceNodes(y: Scalars, s: seq<Service>): (r: seq<Node>)
    ensures |r| == |s|
  {
    seq(|s|, i requires 0 <= i < |s| => ServiceNode(y, s[i]))
  }

  function ConsumerNode(y: Scalars, c: Consumer): Node {
    Map(map[KLocalCache := LocalCacheNode(y, c.localCache), KCircuitBreaker := BreakerNode(y, c.breaker),
            KOutlierDetection := OutlierNode(y, c.outlier), KLoadBalancer := BalancerNode(y, c.balancer),
            KServiceRouter := RouterNode(y, c.router), KService := Sequence(ServiceNodes(y, c.services)),
            KEnableTransMeta := FromBool(y, c.enableTransMeta)])
  }

  function ServicesAt(y: Scalars, n: Node): Result<seq<Service>> {
    match Field(n, KService) case None => Ok([]) case Some(v) =>
      var items :- Items(v); ReadAll(item => FreshService(y, item), items)
  }

  function ReadSections(y: Scalars, n: Node, c: Consumer): Result<Consumer> {
    var localCache :- match Field(n, KLocalCache) case None => Ok(c.localCache) case Some(v) => FreshLocalCache(y, v);
    var breaker :- match Field(n, KCircuitBreaker) case None => Ok(c.breaker) case Some(v) => FreshBreaker(y, v);
    var outlier :- match Field(n, KOutlierDetection) case None => Ok(c.outlier) case Some(v) => FreshOutlier(y, v);
    var balancer :- match Field(n, KLoadBalancer) case None => Ok(c.balancer) case Some(v) => FreshBalancer(y, v);
    var router :- match Field(n, KServiceRouter) case None => Ok(c.router) case Some(v) => FreshRouter(y, v);
    Ok(Consumer(localCache, breaker, outlier, balancer, router, c.services, c.enableTransMeta))
  }

  /** Everything but the services is replaced; the services are appended. */
  function ReadConsumer(y: Scalars, n: Node, c: Consumer): Result<Consumer> {
    if n.Scalar? then Err else
    var d :- ReadSections(y, n, c);
    var services :- ServicesAt(y, n);
    var trans :- BoolAt(y, n, KEnableTransMeta, c.enableTransMeta);
    Ok(d.(services := c.services + services, enableTransMeta := trans))
  }

  function FreshConsumer(y: Scalars, n: Node): Result<Consumer> {
    ReadConsumer(y, n, DEFAULT_CONSUMER)
  }

  // ---- The whole ----

  /** DynamicWeightConfig is its one flag. */
  function DynamicWeightNode(y: Scalars, open: bool): Node {
    Map(map[KIsOpenDynamicWeight := FromBool(y, open)])
  }

  function FreshDynamicWeight(y: Scalars, n: Node): Result<bool> {
    if n.Scalar? then Err else BoolAt(y, n, KIsOpenDynamicWeight, false)
  }

  datatype Selector = Selector(global: Global, consumer: Consumer, dynamicWeight: bool)

  const DEFAULT_SELECTOR := Selector(DEFAULT_GLOBAL, DEFAULT_CONSUMER, false)

  function SelectorNode(y: Scalars, c: Selector): Node {
    Map(map[KGlobal := GlobalNode(y, c.global), KConsumer := ConsumerNode(y, c.consumer),
            KDynamicWeight := DynamicWeightNode(y, c.dynamicWeight)])
  }

  /** The old place of the refresh interval counts when the new one has its default. */
  function Migrated(consumer: Consumer, global: Global): Consumer {
    if consumer.localCache.refreshInterval == REFRESH_INTERVAL && global.connector.refreshInterval != REFRESH_INTERVAL
    then consumer.(localCache := consumer.localCache.(refreshInterval := global.connector.refreshInterval))
    else consumer
  }

  /** Decode into `c`: what `c` holds afterwards, and whether it came to the end
      without an exception. */
  function ReadSelector(y: Scalars, n: Node, c: Selector): (Selector, bool) {
    if n.Scalar? then (c, false) else
    var global := match Field(n, KGlobal) case None => Ok(c.global) case Some(v) => FreshGlobal(y, v);
    if global.Err? then (c, false) else
    var c1 := c.(global := global.value);
    var consumer := match Field(n, KConsumer) case None => Ok(c.consumer) case Some(v) => FreshConsumer(y, v);
    if consumer.Err? then (c1, false) else
    var c2 := if Field(n, KConsumer).Some? then c1.(consumer := Migrated(consumer.value, c1.global)) else c1;
    var weight :=
      match Field(n, KDynamicWeight) case None => Ok(c.dynamicWeight) case Some(v) => FreshDynamicWeight(y, v);
    if weight.Err? then (c2, false) else (c2.(dynamicWeight := weight.value), true)
  }
}
