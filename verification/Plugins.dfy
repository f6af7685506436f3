/** The singleton context holder and the three plugin objects, in the form the
    program has them: objects whose Init and Destroy update fields. Each method is
    proved to do exactly what the function of the same name in Lifecycle does. */
module Plugins {
  import opened Prelude
  import opened RegistryConf
  import L = Lifecycle
  import B = DoubleBuffer

  /** The control blocks of the `shared_ptr<polaris::Context>`s. */
  class Contexts {
    var created: nat
    var owners: map<nat, nat>

    ghost function Value(): L.Heap
      reads this
    {
      L.Heap(created, owners)
    }

    constructor ()
      ensures Value() == L.BOOT.heap
    {
      created, owners := 0, map[];
    }

    method Make() returns (p: L.Ptr)
      modifies this
      ensures p == Some(old(created)) && Value() == L.Make(old(Value()))
    {
      p := Some(created);
      owners := owners[created := 1];
      created := created + 1;
    }

    method Retain(p: L.Ptr)
      modifies this
      ensures Value() == L.Retain(old(Value()), p)
    {
      if p.Some? {
        var n := if p.value in owners then owners[p.value] else 0;
        owners := owners[p.value := n + 1];
      }
    }

    method Release(p: L.Ptr)
      modifies this
      ensures Value() == L.Release(old(Value()), p)
    {
      if p.Some? {
        if p.value in owners && owners[p.value] > 1 {
          owners := owners[p.value := owners[p.value] - 1];
        } else {
          owners := owners - {p.value};
        }
      }
    }
  }

  class TrpcShareContext {
    const contexts: Contexts
    var init: bool
    var context: L.Ptr

    ghost function Value(): L.Share
      reads this
    {
      L.Share(init, context)
    }

    constructor (contexts: Contexts)
      ensures this.contexts == contexts && Value() == L.BOOT.share
    {
      this.contexts := contexts;
      init, context := false, None;
    }

    method Init(sdk: L.Sdk) returns (rc: int)
      modifies this, contexts
      ensures (contexts.Value(), Value(), rc) == L.ShareInit(old(contexts.Value()), old(Value()), sdk)
    {
      if init {
        return 0;
      }
      if !sdk.configOk {
        return -1;
      }
      var before := context;
      if sdk.contextOk {
        context := contexts.Make();
      } else {
        context := None;
      }
      contexts.Release(before);
      if context.None? {
        return -1;
      }
      init := true;
      return 0;
    }

    method Destroy()
      modifies this, contexts
      ensures (contexts.Value(), Value()) == L.ShareDestroy(old(contexts.Value()), old(Value()))
    {
      if !init {
        return;
      }
      contexts.Release(context);
      context := None;
      init := false;
    }
  }

  class PolarisMeshSelector {
    const share: TrpcShareContext
    const whitelist: B.ReadersWriterData
    var init: bool
    var context: L.Ptr
    var consumerApi: L.Ptr

    ghost predicate Valid()
      reads this, whitelist, whitelist.instances
    {
      whitelist.Valid()
    }

    ghost function Value(): L.Selector
      reads this, whitelist, whitelist.instances
    {
      L.Selector(init, context, consumerApi, whitelist.Value())
    }

    constructor (share: TrpcShareContext)
      ensures Valid() && fresh(whitelist) && fresh(whitelist.instances)
      ensures this.share == share && Value() == L.BOOT.selector
    {
      this.share := share;
      whitelist := new B.ReadersWriterData();
      init, context, consumerApi := false, None, None;
    }

    method Init(sdk: L.Sdk, defaults: seq<int>) returns (rc: int)
      requires Valid()
      modifies this, share, share.contexts, whitelist, whitelist.instances
      ensures Valid()
      ensures (share.contexts.Value(), share.Value(), Value(), rc)
           == L.SelectorInit(old(share.contexts.Value()), old(share.Value()), old(Value()), sdk, defaults)
    {
      if init {
        return 0;
      }
      var shared := share.Init(sdk);
      if shared != 0 {
        return -1;
      }
      var before := context;
      context := share.context;
      share.contexts.Retain(context);
      share.contexts.Release(before);
      consumerApi := if sdk.apiOk then context else None;
      if consumerApi.None? {
        return -1;
      }
      whitelist.Refresh(defaults);
      init := true;
      return 0;
    }

    method Destroy()
      requires Valid()
      modifies this, share, share.contexts
      ensures Valid()
      ensures (share.contexts.Value(), share.Value(), Value())
           == L.SelectorDestroy(old(share.contexts.Value()), old(share.Value()), old(Value()))
    {
      if !init {
        return;
      }
      consumerApi := None;
      share.contexts.Release(context);
      context := None;
      share.Destroy();
      init := false;
    }

    method SetCircuitBreakWhiteList(codes: seq<int>)
      requires Valid()
      modifies whitelist, whitelist.instances
      ensures Valid() && Value() == old(Value()).(whitelist := B.Update(old(whitelist.Value()), codes))
    {
      whitelist.Refresh(codes);
    }
  }

  class PolarisMeshRegistry {
    const share: TrpcShareContext
    var init: bool
    var providerApi: L.Ptr
    var services: Services

    ghost function Value(): L.Registry
      reads this
    {
      L.Registry(init, providerApi, services)
    }

    constructor (share: TrpcShareContext)
      ensures this.share == share && Value() == L.BOOT.registry
    {
      this.share := share;
      init, providerApi, services := false, None, map[];
    }

    method Init(sdk: L.Sdk, configs: seq<ServiceConfig>) returns (rc: int)
      modifies this, share, share.contexts
      ensures (share.contexts.Value(), share.Value(), Value(), rc)
           == L.RegistryInit(old(share.contexts.Value()), old(share.Value()), old(Value()), sdk, configs)
    {
      if init {
        return 0;
      }
      var i := 0;
      while i < |configs|
        invariant 0 <= i <= |configs|
        invariant services == InsertServices(old(services), configs[..i])
        invariant init == old(init) && providerApi == old(providerApi)
        invariant share.contexts.Value() == old(share.contexts.Value()) && share.Value() == old(share.Value())
      {
        InsertServicesOne(old(services), configs[..i], configs[i]);
        assert configs[..i + 1] == configs[..i] + [configs[i]];
        var key := ServiceKey(configs[i].namespace, configs[i].name);
        services := Emplace(services, key, configs[i]);
        i := i + 1;
      }
      assert configs[..i] == configs;
      var shared := share.Init(sdk);
      if shared != 0 {
        return -1;
      }
      var shareContext := share.context;
      providerApi := if sdk.apiOk then shareContext else None;
      if providerApi.None? {
        return -1;
      }
      init := true;
      return 0;
    }

    method Destroy()
      modifies this, share, share.contexts
      ensures (share.contexts.Value(), share.Value(), Value())
           == L.RegistryDestroy(old(share.contexts.Value()), old(share.Value()), old(Value()))
    {
      if !init {
        return;
      }
      services := map[];
      providerApi := None;
      share.Destroy();
      init := false;
    }
  }

  class PolarisMeshLimiter {
    const share: TrpcShareContext
    var init: bool
    var limitApi: L.Ptr

    ghost function Value(): L.Limiter
      reads this
    {
      L.Limiter(init, limitApi)
    }

    constructor (share: TrpcShareContext)
      ensures this.share == share && Value() == L.BOOT.limiter
    {
      this.share := share;
      init, limitApi := false, None;
    }

    method Init(sdk: L.Sdk) returns (rc: int)
      modifies this, share, share.contexts
      ensures (share.contexts.Value(), share.Value(), Value(), rc)
           == L.LimiterInit(old(share.contexts.Value()), old(share.Value()), old(Value()), sdk)
    {
      if init {
        return 0;
      }
      var shared := share.Init(sdk);
      if shared != 0 {
        return -1;
      }
      var shareContext := share.context;
      limitApi := if sdk.apiOk then shareContext else None;
      if limitApi.None? {
        return -1;
      }
      init := true;
      return 0;
    }

    method Destroy()
      modifies this, share, share.contexts
      ensures (share.contexts.Value(), share.Value(), Value())
           == L.LimiterDestroy(old(share.contexts.Value()), old(share.Value()), old(Value()))
    {
      if !init {
        return;
      }
      limitApi := None;
      share.Destroy();
      init := false;
    }
  }

  /** The objects of one process, wired to the one holder; a run of events on the
      objects is a run of Lifecycle. */
  class Process {
    const share: TrpcShareContext
    const selector: PolarisMeshSelector
    const registry: PolarisMeshRegistry
    const limiter: PolarisMeshLimiter
    var users: map<nat, nat>  // pointers that the program's own code keeps

    ghost predicate Valid()
      reads this, selector, selector.whitelist, selector.whitelist.instances
    {
      && selector.share == registry.share == limiter.share == share
      && selector.Valid()
    }

    ghost function World(): L.World
      reads this, share, share.contexts, selector, selector.whitelist, selector.whitelist.instances, registry, limiter
    {
      L.World(share.contexts.Value(), share.Value(), selector.Value(), registry.Value(), limiter.Value(), users)
    }

    constructor ()
      ensures Valid() && World() == L.BOOT
      ensures fresh(share) && fresh(share.contexts) && fresh(selector) && fresh(selector.whitelist)
      ensures fresh(selector.whitelist.instances) && fresh(registry) && fresh(limiter)
    {
      var contexts := new Contexts();
      var holder := new TrpcShareContext(contexts);
      share := holder;
      selector := new PolarisMeshSelector(holder);
      registry := new PolarisMeshRegistry(holder);
      limiter := new PolarisMeshLimiter(holder);
      users := map[];
    }

    /** A user's copy of what GetPolarisContext returns. */
    method TakeContext()
      requires Valid()
      modifies this, share.contexts
      ensures Valid() && World() == L.Step(old(World()), L.TakeContext)
    {
      var p := share.context;
      share.contexts.Retain(p);
      if p.Some? {
        users := users[p.value := 1 + if p.value in users then users[p.value] else 0];
      }
    }

    method DropContext(g: nat)
      requires Valid()
      modifies this, share.contexts
      ensures Valid() && World() == L.Step(old(World()), L.DropContext(g))
    {
      if g !in users {
        return;
      }
      share.contexts.Release(Some(g));
      users := if users[g] > 1 then users[g := users[g] - 1] else users - {g};
    }

    method Do(e: L.Event)
      requires Valid()
      modifies this, share, share.contexts, selector, selector.whitelist, selector.whitelist.instances,
               registry, limiter
      ensures Valid() && World() == L.Step(old(World()), e)
    {
      var rc;
      match e
      case InitSelector(sdk, defaults) => rc := selector.Init(sdk, defaults);
      case DestroySelector => selector.Destroy();
      case SetWhiteList(codes) => selector.SetCircuitBreakWhiteList(codes);
      case InitRegistry(sdk, configs) => rc := registry.Init(sdk, configs);
      case DestroyRegistry => registry.Destroy();
      case InitLimiter(sdk) => rc := limiter.Init(sdk);
      case DestroyLimiter => limiter.Destroy();
      case TakeContext => TakeContext();
      case DropContext(g) => DropContext(g);
    }

    /** A whole run of events on the objects is a run of the value model. */
    method DoAll(es: seq<L.Event>)
      requires Valid() && L.Inv(World())
      modifies this, share, share.contexts, selector, selector.whitelist, selector.whitelist.instances,
               registry, limiter
      ensures Valid() && L.Inv(World()) && World() == L.Exec(old(World()), es)
      decreases |es|
    {
      if es == [] {
        return;
      }
      L.StepKeepsInv(World(), es[0]);
      Do(es[0]);
      DoAll(es[1..]);
    }
  }

  /** Every run of a new process: what the theorems say of `Exec(BOOT, es)` they say
      of these objects. */
  method Started(es: seq<L.Event>) returns (p: Process)
    ensures fresh(p) && p.Valid() && p.World() == L.Exec(L.BOOT, es)
  {
    p := new Process();
    p.DoAll(es);
  }
}
