/** The encoders and decoders that branch, loop or couple two sections, as the
    program has them: a node filled by assignments, a configuration whose fields
    are overwritten one by one. `false` stands for a thrown exception. */
module ConfigObjects {
  import opened Prelude
  import opened Yaml
  import opened ConfigCodec

  method EncodeSystem(clusters: System) returns (node: Node)
    ensures node == SystemNode(clusters)
  {
    var fields: map<Key, Node> := map[];
    if DiscoverCluster in clusters {
      fields := fields[KDiscoverCluster := ClusterNode(clusters[DiscoverCluster])];
    }
    if HealthCheckCluster in clusters {
      fields := fields[KHealthCheckCluster := ClusterNode(clusters[HealthCheckCluster])];
    }
    if MonitorCluster in clusters {
      fields := fields[KMonitorCluster := ClusterNode(clusters[MonitorCluster])];
    }
    node := if fields == map[] then Null else Map(fields);
  }

  method EncodeGlobal(y: Scalars, c: Global) returns (node: Node)
    ensures node == GlobalNode(y, c)
  {
    var fields: map<Key, Node> := map[];
    if c.system != map[] {
      var system := EncodeSystem(c.system);
      fields := fields[KSystem := system];
    }
    fields := fields[KApi := ApiNode(y, c.api)];
    fields := fields[KServerConnector := ConnectorNode(y, c.connector)];
    fields := fields[KServerMetric := MetricNode(y, c.metric)];
    node := Map(fields);
  }

  method EncodeBalancer(y: Scalars, c: Balancer) returns (node: Node)
    ensures node == BalancerNode(y, c)
  {
    var fields: map<Key, Node> := map[KType := Scalar(c.kind)];
    fields := fields[KEnableDynamicWeight := FromBool(y, c.dynamicWeight)];
    if c.vnodeCount > 0 {
      fields := fields[KVnodeCount := FromInt(y, c.vnodeCount)];
    }
    if c.compatibleGo {
      fields := fields[KCompatibleGo := FromBool(y, c.compatibleGo)];
    }
    node := Map(fields);
  }

  method EncodeService(y: Scalars, c: Service) returns (node: Node)
    ensures node == ServiceNode(y, c)
  {
    var fields: map<Key, Node> := map[KName := Scalar(c.name)];
    fields := fields[KNamespace := Scalar(c.namespace)];
    if c.setBreaker {
      fields := fields[KCircuitBreaker := BreakerNode(y, c.breaker)];
    }
    if c.setOutlier {
      fields := fields[KOutlierDetection := OutlierNode(y, c.outlier)];
    }
    if c.setBalancer {
      var balancer := EncodeBalancer(y, c.balancer);
      fields := fields[KLoadBalancer := balancer];
    }
    if c.setRouter {
      fields := fields[KServiceRouter := RouterNode(y, c.router)];
    }
    node := Map(fields);
  }

  /** The `service` vector is a sequence of its items. */
  method EncodeServices(y: Scalars, s: seq<Service>) returns (nodes: seq<Node>)
    ensures nodes == ServiceNodes(y, s)
  {
    nodes := [];
    for i := 0 to |s|
      invariant nodes == ServiceNodes(y, s)[..i]
    {
      var node := EncodeService(y, s[i]);
      nodes := nodes + [node];
    }
  }

  method EncodeConsumer(y: Scalars, c: Consumer) returns (node: Node)
    ensures node == ConsumerNode(y, c)
  {
    var fields: map<Key, Node> := map[KLocalCache := LocalCacheNode(y, c.localCache)];
    fields := fields[KCircuitBreaker := BreakerNode(y, c.breaker)];
    fields := fields[KOutlierDetection := OutlierNode(y, c.outlier)];
    var balancer := EncodeBalancer(y, c.balancer);
    fields := fields[KLoadBalancer := balancer];
    fields := fields[KServiceRouter := RouterNode(y, c.router)];
    var services := EncodeServices(y, c.services);
    fields := fields[KService := Sequence(services)];
    fields := fields[KEnableTransMeta := FromBool(y, c.enableTransMeta)];
    node := Map(fields);
  }

  /** The loop over the `service` node: each item is converted and pushed. */
  method DecodeServices(y: Scalars, n: Node, before: seq<Service>) returns (ok: bool, services: seq<Service>)
    requires !n.Scalar?
    ensures ok <==> ServicesAt(y, n).Ok?
    ensures ok ==> services == before + ServicesAt(y, n).value
  {
    services := before;
    var service := Field(n, KService);
    if service.None? {
      return true, services;
    }
    var items := Items(service.value);
    if items.Err? {
      return false, services;
    }
    ghost var read := item => FreshService(y, item);
    var nodes := items.value;
    var i := 0;
    while i < |nodes|
      invariant 0 <= i <= |nodes|
      invariant ReadAll(read, nodes).Ok? <==> ReadAll(read, nodes[i..]).Ok?
      invariant ReadAll(read, nodes).Ok? ==>
        before + ReadAll(read, nodes).value == services + ReadAll(read, nodes[i..]).value
    {
      assert nodes[i..][0] == nodes[i] && nodes[i..][1..] == nodes[i + 1..];
      var one := FreshService(y, nodes[i]);
      assert one == read(nodes[i]);
      if one.Err? {
        return false, services;
      }
      services := services + [one.value];
      i := i + 1;
    }
    assert nodes[i..] == [];
    ok := true;
  }

  method DecodeSections(y: Scalars, n: Node, before: Consumer) returns (ok: bool, c: Consumer)
    requires !n.Scalar?
    ensures ok <==> ReadSections(y, n, before).Ok?
    ensures ok ==> c == ReadSections(y, n, before).value
  {
    c := before;
    var cache := Field(n, KLocalCache);
    if cache.Some? {
      var r := FreshLocalCache(y, cache.value);
      if r.Err? { return false, c; }
      c := c.(localCache := r.value);
    }
    var breaker := Field(n, KCircuitBreaker);
    if breaker.Some? {
      var r := FreshBreaker(y, breaker.value);
      if r.Err? { return false, c; }
      c := c.(breaker := r.value);
    }
    var outlier := Field(n, KOutlierDetection);
    if outlier.Some? {
      var r := FreshOutlier(y, outlier.value);
      if r.Err? { return false, c; }
      c := c.(outlier := r.value);
    }
    var balancer := Field(n, KLoadBalancer);
    if balancer.Some? {
      var r := FreshBalancer(y, balancer.value);
      if r.Err? { return false, c; }
      c := c.(balancer := r.value);
    }
    var router := Field(n, KServiceRouter);
    if router.Some? {
      var r := FreshRouter(y, router.value);
      if r.Err? { return false, c; }
      c := c.(router := r.value);
    }
    ok := true;
  }

  method DecodeConsumer(y: Scalars, n: Node, before: Consumer) returns (ok: bool, c: Consumer)
    ensures ok <==> ReadConsumer(y, n, before).Ok?
    ensures ok ==> c == ReadConsumer(y, n, before).value
  {
    c := before;
    if n.Scalar? {
      return false, c;
    }
    var read;
    read, c := DecodeSections(y, n, before);
    if !read { return false, c; }
    var done, services := DecodeServices(y, n, c.services);
    if !done { return false, c; }
    c := c.(services := services);
    var trans := BoolAt(y, n, KEnableTransMeta, c.enableTransMeta);
    if trans.Err? { return false, c; }
    c := c.(enableTransMeta := trans.value);
    ok := true;
  }

  /** The caller's SelectorConfig, which decode fills in place; an exception leaves
      what was assigned before it. */
  class SelectorConfig {
    var global: Global
    var consumer: Consumer
    var dynamicWeight: bool

    ghost function Value(): Selector
      reads this
    {
      Selector(global, consumer, dynamicWeight)
    }

    constructor ()
      ensures Value() == DEFAULT_SELECTOR
    {
      global, consumer, dynamicWeight := DEFAULT_GLOBAL, DEFAULT_CONSUMER, false;
    }

    method Decode(y: Scalars, n: Node) returns (ok: bool)
      modifies this
      ensures (Value(), ok) == ReadSelector(y, n, old(Value()))
    {
      if n.Scalar? {
        return false;
      }
      var globalNode := Field(n, KGlobal);
      if globalNode.Some? {
        var r := FreshGlobal(y, globalNode.value);
        if r.Err? { return false; }
        global := r.value;
      }
      var consumerNode := Field(n, KConsumer);
      if consumerNode.Some? {
        var done, r := DecodeConsumer(y, consumerNode.value, DEFAULT_CONSUMER);
        if !done { return false; }
        consumer := r;
        if consumer.localCache.refreshInterval == REFRESH_INTERVAL
           && global.connector.refreshInterval != REFRESH_INTERVAL {
          var cache := consumer.localCache.(refreshInterval := global.connector.refreshInterval);
          consumer := consumer.(localCache := cache);
        }
      }
      var weightNode := Field(n, KDynamicWeight);
      if weightNode.Some? {
        var r := FreshDynamicWeight(y, weightNode.value);
        if r.Err? { return false; }
        dynamicWeight := r.value;
      }
      return true;
    }

    method Encode(y: Scalars) returns (node: Node)
      ensures node == SelectorNode(y, Value())
    {
      var globalNode := EncodeGlobal(y, global);
      var consumerNode := EncodeConsumer(y, consumer);
      node := Map(map[KGlobal := globalNode, KConsumer := consumerNode,
                      KDynamicWeight := DynamicWeightNode(y, dynamicWeight)]);
    }
  }
}
