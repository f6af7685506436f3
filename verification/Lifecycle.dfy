/** Init and Destroy of the three plugins over the one shared context
    (trpc_share_context.cc, polarismesh_selector.cc, polarismesh_registry.cc,
    polarismesh_limiter.cc), as functions on values.

    A polaris::Context is a generation number; `owners` counts the `shared_ptr`s
    that hold it, and a context whose last owner lets go is deleted. An API object
    remembers the generation of the raw pointer it was built from. */
module Lifecycle {
  import opened Prelude
  import opened RegistryConf
  import B = DoubleBuffer

  datatype Heap = Heap(created: nat, owners: map<nat, nat>)

  type Ptr = Option<nat>

  function Times(m: map<nat, nat>, g: nat): nat {
    if g in m then m[g] else 0
  }

  function OneMore(m: map<nat, nat>, g: nat): map<nat, nat> {
    m[g := Times(m, g) + 1]
  }

  function OneLess(m: map<nat, nat>, g: nat): map<nat, nat> {
    if Times(m, g) <= 1 then m - {g} else m[g := m[g] - 1]
  }

  predicate Live(h: Heap, g: nat) {
    g in h.owners
  }

  /** A new context, with one owner. */
  function Make(h: Heap): Heap {
    Heap(h.created + 1, h.owners[h.created := 1])
  }

  function Retain(h: Heap, p: Ptr): Heap {
    if p.None? then h else h.(owners := OneMore(h.owners, p.value))
  }

  function Release(h: Heap, p: Ptr): Heap {
    if p.None? then h else h.(owners := OneLess(h.owners, p.value))
  }

  /** What the SDK answers during one Init: whether a polaris::Config, a
      polaris::Context and the plugin's API object could be created. */
  datatype Sdk = Sdk(configOk: bool, contextOk: bool, apiOk: bool)

  datatype Share = Share(init: bool, ctx: Ptr)
  datatype Selector = Selector(init: bool, ctx: Ptr, api: Ptr, whitelist: B.Buffer)
  datatype Registry = Registry(init: bool, api: Ptr, services: Services)
  datatype Limiter = Limiter(init: bool, api: Ptr)

  // ---- TrpcShareContext ----

  function ShareInit(h: Heap, s: Share, sdk: Sdk): (Heap, Share, int) {
    if s.init then (h, s, 0)
    else if !sdk.configOk then (h, s, -1)
    else if !sdk.contextOk then (Release(h, s.ctx), s.(ctx := None), -1)
    else (Release(Make(h), s.ctx), Share(true, Some(h.created)), 0)
  }

  function ShareDestroy(h: Heap, s: Share): (Heap, Share) {
    if !s.init then (h, s) else (Release(h, s.ctx), Share(false, None))
  }

  // ---- The plugins ----

  function SelectorInit(h: Heap, s: Share, p: Selector, sdk: Sdk, defaults: seq<int>): (Heap, Share, Selector, int)
    requires B.AtRest(p.whitelist)
  {
    if p.init then (h, s, p, 0) else
    var (h1, s1, rc) := ShareInit(h, s, sdk);
    if rc != 0 then (h1, s1, p, -1) else
    var h2 := Release(Retain(h1, s1.ctx), p.ctx);
    var api := if sdk.apiOk then s1.ctx else None;
    if api.None? then (h2, s1, p.(ctx := s1.ctx, api := api), -1)
    else (h2, s1, Selector(true, s1.ctx, api, B.Update(p.whitelist, defaults)), 0)
  }

  function SelectorDestroy(h: Heap, s: Share, p: Selector): (Heap, Share, Selector) {
    if !p.init then (h, s, p) else
    var (h1, s1) := ShareDestroy(Release(h, p.ctx), s);
    (h1, s1, p.(init := false, ctx := None, api := None))
  }

  function RegistryInit(h: Heap, s: Share, p: Registry, sdk: Sdk, configs: seq<ServiceConfig>)
    : (Heap, Share, Registry, int)
  {
    if p.init then (h, s, p, 0) else
    var p1 := p.(services := InsertServices(p.services, configs));
    var (h1, s1, rc) := ShareInit(h, s, sdk);
    if rc != 0 then (h1, s1, p1, -1) else
    var api := if sdk.apiOk then s1.ctx else None;
    if api.None? then (h1, s1, p1.(api := api), -1)
    else (h1, s1, p1.(api := api, init := true), 0)
  }

  function RegistryDestroy(h: Heap, s: Share, p: Registry): (Heap, Share, Registry) {
    if !p.init then (h, s, p) else
    var (h1, s1) := ShareDestroy(h, s);
    (h1, s1, Registry(false, None, map[]))
  }

  function LimiterInit(h: Heap, s: Share, p: Limiter, sdk: Sdk): (Heap, Share, Limiter, int) {
    if p.init then (h, s, p, 0) else
    var (h1, s1, rc) := ShareInit(h, s, sdk);
    if rc != 0 then (h1, s1, p, -1) else
    var api := if sdk.apiOk then s1.ctx else None;
    if api.None? then (h1, s1, p.(api := api), -1)
    else (h1, s1, Limiter(true, api), 0)
  }

  function LimiterDestroy(h: Heap, s: Share, p: Limiter): (Heap, Share, Limiter) {
    if !p.init then (h, s, p) else
    var (h1, s1) := ShareDestroy(h, s);
    (h1, s1, Limiter(false, None))
  }

  // ---- The process ----

  /** `users` counts the pointers that the program's own code got from the public
      GetPolarisContext and still has. */
  datatype World = World(
    heap: Heap, share: Share, selector: Selector, registry: Registry, limiter: Limiter, users: map<nat, nat>)

  const BOOT := World(Heap(0, map[]), Share(false, None), Selector(false, None, None, B.EMPTY_BUFFER),
                      Registry(false, None, map[]), Limiter(false, None), map[])

  datatype Event =
    | InitSelector(sdk: Sdk, defaults: seq<int>)
    | DestroySelector
    | SetWhiteList(codes: seq<int>)
    | InitRegistry(sdk: Sdk, configs: seq<ServiceConfig>)
    | DestroyRegistry
    | InitLimiter(sdk: Sdk)
    | DestroyLimiter
    | TakeContext         // a user calls GetPolarisContext and keeps the pointer
    | DropContext(g: nat) // a user lets go of one

  function Step(w: World, e: Event): World
    requires B.AtRest(w.selector.whitelist)
  {
    match e
    case InitSelector(sdk, defaults) =>
      var (h, s, p, _) := SelectorInit(w.heap, w.share, w.selector, sdk, defaults);
      w.(heap := h, share := s, selector := p)
    case DestroySelector =>
      var (h, s, p) := SelectorDestroy(w.heap, w.share, w.selector);
      w.(heap := h, share := s, selector := p)
    case SetWhiteList(codes) => w.(selector := w.selector.(whitelist := B.Update(w.selector.whitelist, codes)))
    case InitRegistry(sdk, configs) =>
      var (h, s, p, _) := RegistryInit(w.heap, w.share, w.registry, sdk, configs);
      w.(heap := h, share := s, registry := p)
    case DestroyRegistry =>
      var (h, s, p) := RegistryDestroy(w.heap, w.share, w.registry);
      w.(heap := h, share := s, registry := p)
    case InitLimiter(sdk) =>
      var (h, s, p, _) := LimiterInit(w.heap, w.share, w.limiter, sdk);
      w.(heap := h, share := s, limiter := p)
    case DestroyLimiter =>
      var (h, s, p) := LimiterDestroy(w.heap, w.share, w.limiter);
      w.(heap := h, share := s, limiter := p)
    case TakeContext =>
      if w.share.ctx.None? then w
      else w.(heap := Retain(w.heap, w.share.ctx), users := OneMore(w.users, w.share.ctx.value))
    case DropContext(g) =>
      if g !in w.users then w else w.(heap := Release(w.heap, Some(g)), users := OneLess(w.users, g))
  }

  predicate Made(h: Heap, p: Ptr) {
    p.Some? ==> p.value < h.created
  }

  function Holds(p: Ptr, g: nat): nat {
    if p == Some(g) then 1 else 0
  }

  ghost predicate Positive(m: map<nat, nat>) {
    forall g :: g in m ==> m[g] > 0
  }

  /** The owner counts are exactly the pointers `p` and `q` and those of the users,
      and what no pointer holds is deleted. */
  ghost predicate Accounts(h: Heap, p: Ptr, q: Ptr, users: map<nat, nat>) {
    && Positive(h.owners) && Positive(users)
    && forall g :: Times(h.owners, g) == Holds(p, g) + Holds(q, g) + Times(users, g)
  }

  /** What holds in every reachable state. */
  ghost predicate Inv(w: World) {
    && (w.share.init <==> w.share.ctx.Some?)
    && (w.selector.init <==> w.selector.api.Some?)
    && (w.registry.init <==> w.registry.api.Some?)
    && (w.limiter.init <==> w.limiter.api.Some?)
    && (w.selector.init ==> w.selector.ctx == w.selector.api)
    && B.AtRest(w.selector.whitelist)
    && Accounts(w.heap, w.share.ctx, w.selector.ctx, w.users)
    && (forall g :: g in w.users ==> g < w.heap.created)
    && Made(w.heap, w.share.ctx) && Made(w.heap, w.selector.ctx)
    && Made(w.heap, w.registry.api) && Made(w.heap, w.limiter.api)
  }

  lemma LiveIsHeld(w: World, g: nat)
    requires Inv(w)
    ensures Live(w.heap, g) <==> w.share.ctx == Some(g) || w.selector.ctx == Some(g) || g in w.users
  {
    assert Times(w.heap.owners, g) == Holds(w.share.ctx, g) + Holds(w.selector.ctx, g) + Times(w.users, g);
  }

  lemma ReleaseAccounts(h: Heap, p: Ptr, q: Ptr, users: map<nat, nat>)
    requires Accounts(h, p, q, users)
    ensures Accounts(Release(h, p), None, q, users) && Accounts(Release(h, q), p, None, users)
  {
    var hp, hq := Release(h, p), Release(h, q);
    forall g
      ensures Times(hp.owners, g) == Holds(None, g) + Holds(q, g) + Times(users, g)
      ensures Times(hq.owners, g) == Holds(p, g) + Holds(None, g) + Times(users, g)
    {
      assert Times(h.owners, g) == Holds(p, g) + Holds(q, g) + Times(users, g);
    }
  }

  lemma ShareInitAccounts(h: Heap, s: Share, q: Ptr, users: map<nat, nat>, sdk: Sdk)
    requires Accounts(h, s.ctx, q, users) && (s.init <==> s.ctx.Some?) && Made(h, q) && h.created !in users
    ensures var (h', s', _) := ShareInit(h, s, sdk); Accounts(h', s'.ctx, q, users)
  {
    var (h', s', _) := ShareInit(h, s, sdk);
    forall g ensures Times(h'.owners, g) == Holds(s'.ctx, g) + Holds(q, g) + Times(users, g) {
      assert Times(h.owners, g) == Holds(s.ctx, g) + Holds(q, g) + Times(users, g);
    }
  }

  /** `polarismesh_context_ = GetPolarisContext()`. */
  lemma AssignAccounts(h: Heap, p: Ptr, q: Ptr, users: map<nat, nat>)
    requires Accounts(h, p, q, users)
    ensures Accounts(Release(Retain(h, p), q), p, p, users)
  {
    var h1 := Retain(h, p);
    var h2 := Release(h1, q);
    forall g
      ensures Times(h1.owners, g) == 2 * Holds(p, g) + Holds(q, g) + Times(users, g)
      ensures Times(h2.owners, g) == 2 * Holds(p, g) + Times(users, g)
    {
      assert Times(h.owners, g) == Holds(p, g) + Holds(q, g) + Times(users, g);
    }
  }

  lemma TakeAccounts(h: Heap, p: Ptr, q: Ptr, users: map<nat, nat>)
    requires Accounts(h, p, q, users) && p.Some?
    ensures Accounts(Retain(h, p), p, q, OneMore(users, p.value))
  {
    var h', users' := Retain(h, p), OneMore(users, p.value);
    forall g ensures Times(h'.owners, g) == Holds(p, g) + Holds(q, g) + Times(users', g) {
      assert Times(h.owners, g) == Holds(p, g) + Holds(q, g) + Times(users, g);
    }
  }

  lemma DropAccounts(h: Heap, p: Ptr, q: Ptr, users: map<nat, nat>, g: nat)
    requires Accounts(h, p, q, users) && g in users
    ensures Accounts(Release(h, Some(g)), p, q, OneLess(users, g))
  {
    var h', users' := Release(h, Some(g)), OneLess(users, g);
    forall x ensures Times(h'.owners, x) == Holds(p, x) + Holds(q, x) + Times(users', x) {
      assert Times(h.owners, x) == Holds(p, x) + Holds(q, x) + Times(users, x);
    }
  }

  lemma InitSelectorKeepsInv(w: World, sdk: Sdk, defaults: seq<int>)
    requires Inv(w)
    ensures Inv(Step(w, InitSelector(sdk, defaults)))
  {
    ShareInitAccounts(w.heap, w.share, w.selector.ctx, w.users, sdk);
    var (h, s, _) := ShareInit(w.heap, w.share, sdk);
    AssignAccounts(h, s.ctx, w.selector.ctx, w.users);
  }

  lemma DestroySelectorKeepsInv(w: World)
    requires Inv(w)
    ensures Inv(Step(w, DestroySelector))
  {
    ReleaseAccounts(w.heap, w.share.ctx, w.selector.ctx, w.users);
    ReleaseAccounts(Release(w.heap, w.selector.ctx), w.share.ctx, None, w.users);
  }

  lemma InitOtherKeepsInv(w: World, e: Event)
    requires Inv(w) && (e.InitRegistry? || e.InitLimiter?)
    ensures Inv(Step(w, e))
  {
    ShareInitAccounts(w.heap, w.share, w.selector.ctx, w.users, e.sdk);
  }

  lemma UserKeepsInv(w: World, e: Event)
    requires Inv(w) && (e.TakeContext? || e.DropContext?)
    ensures Inv(Step(w, e))
  {
    if e.TakeContext? {
      if w.share.ctx.Some? { TakeAccounts(w.heap, w.share.ctx, w.selector.ctx, w.users); }
    } else if e.g in w.users {
      DropAccounts(w.heap, w.share.ctx, w.selector.ctx, w.users, e.g);
    }
  }

  lemma StepKeepsInv(w: World, e: Event)
    requires Inv(w)
    ensures Inv(Step(w, e))
  {
    match e
    case InitSelector(sdk, defaults) => InitSelectorKeepsInv(w, sdk, defaults);
    case DestroySelector => DestroySelectorKeepsInv(w);
    case SetWhiteList(_) =>
    case InitRegistry(_, _) => InitOtherKeepsInv(w, e);
    case InitLimiter(_) => InitOtherKeepsInv(w, e);
    case TakeContext => UserKeepsInv(w, e);
    case DropContext(_) => UserKeepsInv(w, e);
    case _ => ReleaseAccounts(w.heap, w.share.ctx, w.selector.ctx, w.users);
  }

  function Exec(w: World, es: seq<Event>): (r: World)
    requires Inv(w)
    ensures Inv(r)
    decreases |es|
  {
    if es == [] then w else
    StepKeepsInv(w, es[0]);
    Exec(Step(w, es[0]), es[1..])
  }
}
