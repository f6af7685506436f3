/** What holds over all runs of Init and Destroy: who keeps a context alive, how
    many contexts are made, what the whitelist and the service table hold. */
module LifecycleRuns {
  import opened Prelude
  import opened RegistryConf
  import opened Lifecycle
  import B = DoubleBuffer

  datatype Plugin = SelectorPlugin | RegistryPlugin | LimiterPlugin

  predicate IsInit(w: World, p: Plugin) {
    match p
    case SelectorPlugin => w.selector.init
    case RegistryPlugin => w.registry.init
    case LimiterPlugin => w.limiter.init
  }

  function ApiOf(w: World, p: Plugin): Ptr {
    match p
    case SelectorPlugin => w.selector.api
    case RegistryPlugin => w.registry.api
    case LimiterPlugin => w.limiter.api
  }

  ghost predicate Initialises(w: World, e: Event, p: Plugin)
    requires Inv(w)
  {
    !IsInit(w, p) && IsInit(Step(w, e), p)
  }

  /** A Destroy that gets as far as dropping the shared pointer. */
  predicate DestroysShare(w: World, e: Event) {
    w.share.init && match e
    case DestroySelector => w.selector.init
    case DestroyRegistry => w.registry.init
    case DestroyLimiter => w.limiter.init
    case _ => false
  }

  function Destroys(w: World, es: seq<Event>): nat
    requires Inv(w)
    decreases |es|
  {
    if es == [] then 0 else
    StepKeepsInv(w, es[0]);
    (if DestroysShare(w, es[0]) then 1 else 0) + Destroys(Step(w, es[0]), es[1..])
  }

  // ---- Return codes ----

  function InitCode(w: World, p: Plugin, sdk: Sdk, defaults: seq<int>, configs: seq<ServiceConfig>): int
    requires Inv(w)
  {
    match p
    case SelectorPlugin => SelectorInit(w.heap, w.share, w.selector, sdk, defaults).3
    case RegistryPlugin => RegistryInit(w.heap, w.share, w.registry, sdk, configs).3
    case LimiterPlugin => LimiterInit(w.heap, w.share, w.limiter, sdk).3
  }

  function InitEvent(p: Plugin, sdk: Sdk, defaults: seq<int>, configs: seq<ServiceConfig>): Event {
    match p
    case SelectorPlugin => InitSelector(sdk, defaults)
    case RegistryPlugin => InitRegistry(sdk, configs)
    case LimiterPlugin => InitLimiter(sdk)
  }

  /** Exactly when an Init succeeds in a reachable state, and that its code says so. */
  lemma InitSucceedsIff(before: seq<Event>, p: Plugin, sdk: Sdk, defaults: seq<int>, configs: seq<ServiceConfig>)
    ensures
      var w := Exec(BOOT, before);
      var w' := Step(w, InitEvent(p, sdk, defaults, configs));
      var code := InitCode(w, p, sdk, defaults, configs);
      && (code == 0 || code == -1)
      && (code == 0 <==> IsInit(w', p))
      && (code == 0 <==> IsInit(w, p) || (sdk.apiOk && (w.share.init || (sdk.configOk && sdk.contextOk))))
  {
    assert Inv(Exec(BOOT, before));
  }

  // ---- What one call changes ----

  function DestroyEvent(p: Plugin): Event {
    match p
    case SelectorPlugin => DestroySelector
    case RegistryPlugin => DestroyRegistry
    case LimiterPlugin => DestroyLimiter
  }

  /** Nothing of plugin `q` has changed. */
  predicate SamePlugin(q: Plugin, w: World, w': World) {
    match q
    case SelectorPlugin => w'.selector == w.selector
    case RegistryPlugin => w'.registry == w.registry
    case LimiterPlugin => w'.limiter == w.limiter
  }

  /** Destroy of a plugin in any reachable state: afterwards it has neither flag nor
      API nor what it kept for them, and if it was initialised the holder is empty,
      whoever else uses it; the other plugins are as they were. */
  lemma DestroyClosesPlugin(before: seq<Event>, p: Plugin)
    ensures
      var w := Exec(BOOT, before);
      var w' := Step(w, DestroyEvent(p));
      && !IsInit(w', p) && ApiOf(w', p) == None
      && (!IsInit(w, p) ==> w' == w)
      && (IsInit(w, p) ==> w'.share == Share(false, None))
      && (IsInit(w, p) && p == SelectorPlugin ==> w'.selector.ctx == None)
      && (IsInit(w, p) && p == RegistryPlugin ==> w'.registry.services == map[])
      && w'.selector.whitelist == w.selector.whitelist
      && w'.heap.created == w.heap.created && w'.users == w.users
      && forall q: Plugin :: q != p ==> SamePlugin(q, w, w')
  {
    assert Inv(Exec(BOOT, before));
  }

  /** Init of a plugin in any reachable state. One that is initialised is left alone.
      Otherwise the holder is open afterwards if it was or could be opened, with its
      old context or a new one; the API is built on the holder's context if it could
      be made, and the flag says so; the other plugins are as they were. */
  lemma InitBuildsOnHolder(before: seq<Event>, p: Plugin, sdk: Sdk, defaults: seq<int>, configs: seq<ServiceConfig>)
    ensures
      var w := Exec(BOOT, before);
      var w' := Step(w, InitEvent(p, sdk, defaults, configs));
      && (IsInit(w, p) ==> w' == w)
      && (!IsInit(w, p) ==>
            && w'.share == (if w.share.init then w.share
                            else if sdk.configOk && sdk.contextOk then Share(true, Some(w.heap.created))
                            else Share(false, None))
            && ApiOf(w', p) == (if sdk.apiOk then w'.share.ctx else None)
            && IsInit(w', p) == (sdk.apiOk && w'.share.init))
      && w'.users == w.users
      && forall q: Plugin :: q != p ==> SamePlugin(q, w, w')
  {
    assert Inv(Exec(BOOT, before));
  }

  /** A plugin that was destroyed can be used again: its next Init, if the SDK works,
      builds its API on a live context, a new one if the Destroy had an effect. */
  lemma ReinitialisedOnLiveContext(before: seq<Event>, p: Plugin, defaults: seq<int>, configs: seq<ServiceConfig>)
    ensures
      var w := Exec(BOOT, before);
      var w1 := Step(w, DestroyEvent(p));
      && Inv(w1)
      && var w2 := Step(w1, InitEvent(p, Sdk(true, true, true), defaults, configs));
      && IsInit(w2, p) && ApiOf(w2, p).Some? && Live(w2.heap, ApiOf(w2, p).value)
      && (IsInit(w, p) ==> ApiOf(w2, p) == Some(w.heap.created))
  {
    var w := Exec(BOOT, before);
    StepKeepsInv(w, DestroyEvent(p));
    DestroyClosesPlugin(before, p);
    var w1 := Step(w, DestroyEvent(p));
    var e := InitEvent(p, Sdk(true, true, true), defaults, configs);
    StepKeepsInv(w1, e);
    LiveIsHeld(Step(w1, e), ApiOf(Step(w1, e), p).value);
  }

  /** The holder's own Init and Destroy in any reachable state: code, flag, pointer
      and number of contexts made. */
  lemma HolderCalls(before: seq<Event>, sdk: Sdk)
    ensures
      var w := Exec(BOOT, before);
      var (h, s, code) := ShareInit(w.heap, w.share, sdk);
      var opens := !w.share.init && sdk.configOk && sdk.contextOk;
      && code == (if w.share.init || opens then 0 else -1)
      && s == (if w.share.init then w.share
               else if opens then Share(true, Some(w.heap.created)) else Share(false, None))
      && h.created == w.heap.created + (if opens then 1 else 0)
      && ShareDestroy(w.heap, w.share).1 == Share(false, None)
      && ShareDestroy(w.heap, w.share).0.created == w.heap.created
  {
    assert Inv(Exec(BOOT, before));
  }

  /** Holder and plugins are as they were, and no context was made. */
  predicate OnlyUsersChange(w: World, w': World) {
    && w'.share == w.share && w'.heap.created == w.heap.created
    && w'.selector == w.selector && w'.registry == w.registry && w'.limiter == w.limiter
  }

  /** A user's copy of the holder's pointer is one more pointer to its context, and
      letting go of one is one less; nothing else changes. */
  lemma UserPointers(w: World, g: nat, x: nat)
    requires Inv(w)
    ensures
      var taken, dropped := Step(w, TakeContext), Step(w, DropContext(g));
      && Times(taken.users, x) == Times(w.users, x) + (if w.share.ctx == Some(x) then 1 else 0)
      && Times(dropped.users, x) == Times(w.users, x) - (if x == g && g in w.users then 1 else 0)
      && OnlyUsersChange(w, taken) && OnlyUsersChange(w, dropped)
  {
  }

  // ---- Ownership ----

  /** One step: the shared pointer is kept, dropped, or set to a context never
      seen before. */
  lemma ShareStep(w: World, e: Event)
    requires Inv(w)
    ensures
      var w' := Step(w, e);
      && w.heap.created <= w'.heap.created
      && (w.share.init ==> w'.heap.created == w.heap.created)
      && (w.share.init ==> if DestroysShare(w, e) then w'.share.ctx == None else w'.share == w.share)
      && (!w.share.init ==> w'.share.ctx == None || w'.share.ctx == Some(w.heap.created))
      && w'.heap.created == w.heap.created + if !w.share.init && w'.share.init then 1 else 0
  {
  }

  lemma {:induction false} NeverShared(w: World, g: nat, es: seq<Event>)
    requires Inv(w) && g < w.heap.created && w.share.ctx != Some(g)
    ensures Exec(w, es).share.ctx != Some(g)
    decreases |es|
  {
    if es != [] {
      ShareStep(w, es[0]);
      StepKeepsInv(w, es[0]);
      NeverShared(Step(w, es[0]), g, es[1..]);
    }
  }

  lemma {:induction false} SharedUntilDestroy(w: World, g: nat, es: seq<Event>)
    requires Inv(w) && w.share.ctx == Some(g)
    ensures Exec(w, es).share.ctx == Some(g) <==> Destroys(w, es) == 0
    decreases |es|
  {
    if es != [] {
      ShareStep(w, es[0]);
      StepKeepsInv(w, es[0]);
      if DestroysShare(w, es[0]) {
        NeverShared(Step(w, es[0]), g, es[1..]);
      } else {
        SharedUntilDestroy(Step(w, es[0]), g, es[1..]);
      }
    }
  }

  lemma FreshApi(w: World, e: Event, p: Plugin)
    requires Inv(w) && Initialises(w, e, p)
    ensures var w' := Step(w, e); ApiOf(w', p).Some? && ApiOf(w', p) == w'.share.ctx
  {
  }

  /** The context behind an API that plugin `p` has just built stays owned through
      a run exactly when no plugin has destroyed the shared holder since, or the
      selector or a user of the public GetPolarisContext still holds that context. */
  lemma ApiStaysOwned(before: seq<Event>, e: Event, p: Plugin, after: seq<Event>)
    requires Initialises(Exec(BOOT, before), e, p)
    ensures
      var w := Step(Exec(BOOT, before), e);
      && Inv(w) && ApiOf(w, p).Some?
      && var w' := Exec(w, after);
      (Live(w'.heap, ApiOf(w, p).value)
       <==> Destroys(w, after) == 0 || w'.selector.ctx == ApiOf(w, p) || ApiOf(w, p).value in w'.users)
  {
    var w0 := Exec(BOOT, before);
    FreshApi(w0, e, p);
    StepKeepsInv(w0, e);
    var w := Step(w0, e);
    var g := ApiOf(w, p).value;
    SharedUntilDestroy(w, g, after);
    var w' := Exec(w, after);
    LiveIsHeld(w', g);
  }

  predicate SameSelector(p: Selector, q: Selector) {
    p.init == q.init && p.ctx == q.ctx && p.api == q.api
  }

  lemma {:induction false} SelectorKept(w: World, es: seq<Event>)
    requires Inv(w) && w.selector.init && DestroySelector !in es
    ensures SameSelector(Exec(w, es).selector, w.selector)
    decreases |es|
  {
    if es != [] {
      StepKeepsInv(w, es[0]);
      SelectorKept(Step(w, es[0]), es[1..]);
    }
  }

  /** While the selector is initialised nothing the other plugins do takes away
      the context its ConsumerApi was built from. */
  lemma SelectorContextOwned(before: seq<Event>, es: seq<Event>)
    requires Exec(BOOT, before).selector.init && DestroySelector !in es
    ensures
      var w, w' := Exec(BOOT, before), Exec(Exec(BOOT, before), es);
      && SameSelector(w'.selector, w.selector)
      && w.selector.api.Some? && Live(w'.heap, w.selector.api.value)
  {
    var w := Exec(BOOT, before);
    SelectorKept(w, es);
    var w' := Exec(w, es);
    LiveIsHeld(w', w.selector.api.value);
  }

  /** After an effective Destroy of the selector exactly the contexts that users
      kept are alive, each with exactly their pointers; every other plugin that is
      still initialised has an API that only such a user saves from dangling. */
  lemma SelectorDestroyEndsAllContexts(before: seq<Event>, p: Plugin)
    requires Exec(BOOT, before).selector.init
    ensures
      var w := Step(Exec(BOOT, before), DestroySelector);
      && w.heap.owners == w.users
      && (IsInit(w, p) ==> ApiOf(w, p).Some? && (Live(w.heap, ApiOf(w, p).value) <==> ApiOf(w, p).value in w.users))
  {
    var w0 := Exec(BOOT, before);
    StepKeepsInv(w0, DestroySelector);
    var w := Step(w0, DestroySelector);
    assert w.share.ctx == None && w.selector.ctx == None;
    forall g ensures Get(w.heap.owners, g) == Get(w.users, g) {
      assert Times(w.heap.owners, g) == Holds(None, g) + Holds(None, g) + Times(w.users, g);
    }
    EqualByGet(w.heap.owners, w.users);
  }

  const WORKS := Sdk(true, true, true)

  lemma ExecOne(w: World, es: seq<Event>)
    requires Inv(w) && es != []
    ensures Inv(Step(w, es[0])) && Exec(w, es) == Exec(Step(w, es[0]), es[1..])
  {
    StepKeepsInv(w, es[0]);
  }

  lemma ExecTwo(w: World, e: Event, f: Event)
    requires Inv(w)
    ensures Inv(Step(w, e)) && Exec(w, [e, f]) == Step(Step(w, e), f)
  {
    ExecOne(w, [e, f]);
    ExecOne(Step(w, e), [f]);
    assert [e, f][1..] == [f] && [f][1..] == [];
  }

  lemma ExecThree(w: World, e: Event, f: Event, g: Event)
    requires Inv(w)
    ensures Inv(Step(w, e)) && Inv(Step(Step(w, e), f)) && Exec(w, [e, f, g]) == Step(Step(Step(w, e), f), g)
  {
    ExecOne(w, [e, f, g]);
    StepKeepsInv(Step(w, e), f);
    ExecTwo(Step(w, e), f, g);
    assert [e, f, g][1..] == [f, g];
  }

  /** The smallest run that leaves a plugin initialised on a deleted context: the
      shared holder does not count its users. */
  lemma LimiterDestroyBreaksRegistry()
    ensures
      var w := Exec(BOOT, [InitLimiter(WORKS), InitRegistry(WORKS, []), DestroyLimiter]);
      w.registry.init && w.registry.api == Some(0) && !Live(w.heap, 0)
  {
    ExecThree(BOOT, InitLimiter(WORKS), InitRegistry(WORKS, []), DestroyLimiter);
  }

  // ---- Contexts that nobody uses ----

  /** A selector whose Init failed after the context was made keeps that context
      alive until it is initialised again: its Destroy does nothing. */
  lemma {:induction false} FailedSelectorPinsContext(w: World, g: nat, es: seq<Event>)
    requires Inv(w) && !w.selector.init && w.selector.ctx == Some(g)
    requires forall e :: e in es ==> !e.InitSelector?
    ensures
      var w' := Exec(w, es);
      Live(w'.heap, g) && !w'.selector.init && w'.selector.ctx == Some(g)
    decreases |es|
  {
    if es == [] {
      LiveIsHeld(w, g);
    } else {
      assert es[0] in es;
      StepKeepsInv(w, es[0]);
      FailedSelectorPinsContext(Step(w, es[0]), g, es[1..]);
    }
  }

  /** The next Init frees it exactly if the holder has dropped it, has another by
      now or can make one, and no user keeps the old one. */
  lemma PinnedUntilNextContext(w: World, g: nat, sdk: Sdk, defaults: seq<int>)
    requires Inv(w) && !w.selector.init && w.selector.ctx == Some(g)
    ensures
      Live(Step(w, InitSelector(sdk, defaults)).heap, g)
      <==>
      w.share.ctx == Some(g) || !(w.share.init || (sdk.configOk && sdk.contextOk)) || g in w.users
  {
    StepKeepsInv(w, InitSelector(sdk, defaults));
    var w' := Step(w, InitSelector(sdk, defaults));
    LiveIsHeld(w', g);
  }

  /** The selector's Init fails at the API and the registry is destroyed later:
      the holder is empty, no plugin is initialised, and context 0 is pinned. */
  lemma FailedSelectorRun()
    ensures
      var w := Exec(BOOT, [InitSelector(Sdk(true, true, false), []), InitRegistry(WORKS, []), DestroyRegistry]);
      && (forall p: Plugin :: !IsInit(w, p)) && !w.share.init
      && w.selector.ctx == Some(0) && Live(w.heap, 0)
  {
    ExecThree(BOOT, InitSelector(Sdk(true, true, false), []), InitRegistry(WORKS, []), DestroyRegistry);
  }

  /** The registry's Init fails at the API: its Destroy does nothing, and the holder
      keeps a context for no plugin. */
  lemma FailedRegistryRun()
    ensures
      var w := Exec(BOOT, [InitRegistry(Sdk(true, true, false), []), DestroyRegistry]);
      && (forall p: Plugin :: !IsInit(w, p)) && w.share == Share(true, Some(0)) && Live(w.heap, 0)
  {
    ExecTwo(BOOT, InitRegistry(Sdk(true, true, false), []), DestroyRegistry);
  }

  /** An Init that gets as far as opening the holder: its plugin was not initialised,
      and configuration and context could be made. */
  predicate Opens(w: World, e: Event) {
    match e
    case InitSelector(sdk, _) => !w.selector.init && sdk.configOk && sdk.contextOk
    case InitRegistry(sdk, _) => !w.registry.init && sdk.configOk && sdk.contextOk
    case InitLimiter(sdk) => !w.limiter.init && sdk.configOk && sdk.contextOk
    case _ => false
  }

  /** The holder's pointer `g` is due to an Init of the run that opened the holder or
      found it open, and no Destroy closed it afterwards. */
  ghost predicate HolderOpened(w: World, es: seq<Event>, g: nat)
    requires Inv(w)
    decreases |es|
  {
    if es == [] then false else
    StepKeepsInv(w, es[0]);
    var w1, more := Step(w, es[0]), es[1..];
    (Opens(w, es[0]) && w1.share.ctx == Some(g) && Destroys(w1, more) == 0) || HolderOpened(w1, more, g)
  }

  lemma OpenStep(w: World, e: Event)
    requires Inv(w)
    ensures
      var w' := Step(w, e);
      && (Opens(w, e) ==> w'.share.ctx.Some? && !DestroysShare(w, e))
      && (!Opens(w, e) ==> w'.share.ctx == if DestroysShare(w, e) then None else w.share.ctx)
      && (w.share.init && !DestroysShare(w, e) ==> w'.share == w.share)
  {
    ShareStep(w, e);
  }

  lemma {:induction false} HolderIsOpened(w: World, es: seq<Event>, g: nat)
    requires Inv(w)
    ensures
      Exec(w, es).share.ctx == Some(g)
      <==> HolderOpened(w, es, g) || (w.share.ctx == Some(g) && Destroys(w, es) == 0)
    decreases |es|
  {
    if es != [] {
      StepKeepsInv(w, es[0]);
      OpenStep(w, es[0]);
      HolderIsOpened(Step(w, es[0]), es[1..], g);
    }
  }

  /** An Init of the selector whose shared Init succeeds: it takes the pointer. */
  predicate Takes(w: World, e: Event) {
    e.InitSelector? && !w.selector.init && (w.share.init || (e.sdk.configOk && e.sdk.contextOk))
  }

  /** The selector neither takes another pointer nor drops the one it has. */
  ghost predicate KeepsPointer(w: World, es: seq<Event>)
    requires Inv(w)
    decreases |es|
  {
    if es == [] then true else
    StepKeepsInv(w, es[0]);
    && !Takes(w, es[0]) && !(es[0].DestroySelector? && w.selector.init)
    && KeepsPointer(Step(w, es[0]), es[1..])
  }

  /** The last Init of the selector whose shared Init succeeded got context `g` and
      failed at its API, and no effective Destroy of the selector followed. */
  ghost predicate Pinned(w: World, es: seq<Event>, g: nat)
    requires Inv(w)
    decreases |es|
  {
    if es == [] then false else
    StepKeepsInv(w, es[0]);
    var w1, more := Step(w, es[0]), es[1..];
    || (Takes(w, es[0]) && !es[0].sdk.apiOk && w1.share.ctx == Some(g) && KeepsPointer(w1, more))
    || Pinned(w1, more, g)
  }

  lemma PointerStep(w: World, e: Event)
    requires Inv(w)
    ensures
      var p, p' := w.selector, Step(w, e).selector;
      if Takes(w, e) then p'.init == e.sdk.apiOk && p'.ctx == Step(w, e).share.ctx
      else if e.DestroySelector? && p.init then !p'.init && p'.ctx == None
      else p'.init == p.init && p'.ctx == p.ctx
  {
  }

  lemma {:induction false} PointerIsPinned(w: World, es: seq<Event>, g: nat)
    requires Inv(w) && !Exec(w, es).selector.init
    ensures
      Exec(w, es).selector.ctx == Some(g)
      <==> Pinned(w, es, g) || (!w.selector.init && w.selector.ctx == Some(g) && KeepsPointer(w, es))
    decreases |es|
  {
    if es != [] {
      StepKeepsInv(w, es[0]);
      PointerStep(w, es[0]);
      PointerIsPinned(Step(w, es[0]), es[1..], g);
    }
  }

  predicate IsInitEvent(e: Event) {
    e.InitSelector? || e.InitRegistry? || e.InitLimiter?
  }

  lemma NothingToDestroyNow(w: World, e: Event)
    requires Inv(w) && !IsInitEvent(e) && forall p: Plugin :: !IsInit(w, p)
    ensures
      var w' := Step(w, e);
      (forall p: Plugin :: !IsInit(w', p)) && w'.share == w.share && SameSelector(w'.selector, w.selector)
  {
    assert !IsInit(w, SelectorPlugin) && !IsInit(w, RegistryPlugin) && !IsInit(w, LimiterPlugin);
    forall p: Plugin ensures !IsInit(Step(w, e), p) {
      assert !IsInit(w, p);
    }
  }

  lemma {:induction false} NothingToDestroy(w: World, es: seq<Event>)
    requires Inv(w) && forall p: Plugin :: !IsInit(w, p)
    requires forall e :: e in es ==> !IsInitEvent(e)
    ensures
      var w' := Exec(w, es);
      w'.share == w.share && SameSelector(w'.selector, w.selector)
    decreases |es|
  {
    if es != [] {
      assert es[0] in es;
      StepKeepsInv(w, es[0]);
      NothingToDestroyNow(w, es[0]);
      NothingToDestroy(Step(w, es[0]), es[1..]);
    }
  }

  /** Exactly which contexts are alive when no plugin is initialised: the holder's,
      if some Init since the holder was last destroyed got that far, the one a failed
      selector pins, and those that users kept; no Destroy will free the first two. */
  lemma LeftAlive(before: seq<Event>, es: seq<Event>, g: nat)
    requires forall p: Plugin :: !IsInit(Exec(BOOT, before), p)
    requires forall e :: e in es ==> !IsInitEvent(e)
    ensures
      var w' := Exec(Exec(BOOT, before), es);
      Live(w'.heap, g) <==> HolderOpened(BOOT, before, g) || Pinned(BOOT, before, g) || g in w'.users
  {
    var w := Exec(BOOT, before);
    NothingToDestroy(w, es);
    LiveIsHeld(Exec(w, es), g);
    HolderIsOpened(BOOT, before, g);
    assert !IsInit(w, SelectorPlugin);
    PointerIsPinned(BOOT, before, g);
  }

  // ---- Counting contexts ----

  function Int(b: bool): int { if b then 1 else 0 }

  /** Every context made is the current one or was dropped by an effective Destroy:
      between two such Destroys at most one is made. */
  lemma {:induction false} ContextsMade(w: World, es: seq<Event>)
    requires Inv(w)
    ensures
      var w' := Exec(w, es);
      w'.heap.created + Int(w.share.init) == w.heap.created + Destroys(w, es) + Int(w'.share.init)
    decreases |es|
  {
    if es != [] {
      ShareStep(w, es[0]);
      StepKeepsInv(w, es[0]);
      ContextsMade(Step(w, es[0]), es[1..]);
    }
  }

  lemma ApiStep(w: World, e: Event, p: Plugin)
    requires Inv(w) && IsInit(Step(w, e), p)
    ensures Initialises(w, e, p) || (IsInit(w, p) && ApiOf(Step(w, e), p) == ApiOf(w, p))
  {
  }

  lemma {:induction false} SpanApi(w: World, p: Plugin, es: seq<Event>)
    requires Inv(w) && Destroys(w, es) == 0 && IsInit(Exec(w, es), p)
    ensures
      var w' := Exec(w, es);
      ApiOf(w', p) == w'.share.ctx || (IsInit(w, p) && ApiOf(w', p) == ApiOf(w, p))
    decreases |es|
  {
    if es != [] {
      var e := es[0];
      StepKeepsInv(w, e);
      var w1 := Step(w, e);
      SpanApi(w1, p, es[1..]);
      if IsInit(w1, p) { ApiStep(w, e, p); }
      if Initialises(w, e, p) {
        FreshApi(w, e, p);
        SharedUntilDestroy(w1, w1.share.ctx.value, es[1..]);
      }
    }
  }

  /** All plugins initialised within a span without an effective shared Destroy
      use the same context. */
  lemma OneContextPerSpan(before: seq<Event>, es: seq<Event>, p: Plugin, q: Plugin)
    requires Destroys(Exec(BOOT, before), es) == 0
    requires forall r :: r in {p, q} ==> !IsInit(Exec(BOOT, before), r) && IsInit(Exec(Exec(BOOT, before), es), r)
    ensures
      var w, w' := Exec(BOOT, before), Exec(Exec(BOOT, before), es);
      && ApiOf(w', p) == ApiOf(w', q) == w'.share.ctx
      && w'.heap.created <= w.heap.created + 1
  {
    var w := Exec(BOOT, before);
    SpanApi(w, p, es);
    SpanApi(w, q, es);
    ContextsMade(w, es);
  }

  // ---- The whitelist ----

  /** The framework codes that common.cc and the selector name; their numbers are
      the framework's. */
  datatype RetCodes = RetCodes(
    success: int, overload: int, limited: int,
    connect: int, invokeTimeout: int, fullLinkTimeout: int)

  /** Init puts the two codes that the source names into the whitelist. */
  predicate PutsDefaults(k: RetCodes, es: seq<Event>) {
    forall e :: e in es && e.InitSelector? ==> e.defaults == [k.overload, k.limited]
  }

  /** The lists that one event, and a run, write into the whitelist: Destroy writes
      none, and Init only when it takes effect. */
  ghost function Written(k: RetCodes, w: World, e: Event): seq<seq<int>>
    requires Inv(w)
  {
    match e
    case SetWhiteList(codes) => [codes]
    case InitSelector(_, _) => if Initialises(w, e, SelectorPlugin) then [[k.overload, k.limited]] else []
    case _ => []
  }

  ghost function AllWritten(k: RetCodes, w: World, es: seq<Event>): seq<seq<int>>
    requires Inv(w)
    decreases |es|
  {
    if es == [] then [] else
    StepKeepsInv(w, es[0]);
    Written(k, w, es[0]) + AllWritten(k, Step(w, es[0]), es[1..])
  }

  lemma WhiteListStep(k: RetCodes, w: World, e: Event)
    requires Inv(w) && (e.InitSelector? ==> e.defaults == [k.overload, k.limited])
    ensures Step(w, e).selector.whitelist == B.UpdateAll(w.selector.whitelist, Written(k, w, e))
  {
    var b, b' := w.selector.whitelist, Step(w, e).selector.whitelist;
    match e
    case SetWhiteList(codes) => B.UpdateAllOne(b, codes);
    case InitSelector(_, defaults) =>
      if Initialises(w, e, SelectorPlugin) {
        B.UpdateAllOne(b, defaults);
      } else {
        assert b' == b;
      }
    case _ => assert b' == b;
  }

  /** After any run of all plugins' events the whitelist holds the list last written
      by an effective Init or by SetCircuitBreakWhiteList; the buffer is that of all
      these updates in sequence. */
  lemma {:induction false} WhiteListIsCurrent(k: RetCodes, w: World, es: seq<Event>)
    requires Inv(w) && PutsDefaults(k, es)
    ensures
      var before, after, lists := w.selector.whitelist, Exec(w, es).selector.whitelist, AllWritten(k, w, es);
      && after == B.UpdateAll(before, lists)
      && B.Current(after) == if lists == [] then B.Current(before) else B.Elements(lists[|lists| - 1])
    decreases |es|
  {
    if es != [] {
      StepKeepsInv(w, es[0]);
      var w1 := Step(w, es[0]);
      assert es[0] in es;
      WhiteListStep(k, w, es[0]);
      WhiteListIsCurrent(k, w1, es[1..]);
      B.UpdateAllAppend(w.selector.whitelist, Written(k, w, es[0]), AllWritten(k, w1, es[1..]));
    }
  }

  datatype CallRetStatus = CallRetOk | CallRetTimeout | CallRetError

  /** FrameworkRetToPolarisRet. */
  function RetStatus(k: RetCodes, whitelist: set<int>, ret: int): CallRetStatus {
    if ret == k.success || ret in whitelist then CallRetOk
    else if ret == k.connect || ret == k.invokeTimeout || ret == k.fullLinkTimeout then CallRetTimeout
    else CallRetError
  }

  predicate LastHas(lists: seq<seq<int>>, ret: int) {
    lists != [] && ret in lists[|lists| - 1]
  }

  /** The status that is due for a code: a whitelisted timeout is a success. */
  predicate IsDue(k: RetCodes, listed: bool, ret: int, status: CallRetStatus) {
    var timeout := ret in {k.connect, k.invokeTimeout, k.fullLinkTimeout};
    && (status == CallRetOk <==> ret == k.success || listed)
    && (status == CallRetTimeout <==> timeout && ret != k.success && !listed)
    && (status == CallRetError <==> !timeout && ret != k.success && !listed)
  }

  lemma StatusIsDue(k: RetCodes, current: set<int>, lists: seq<seq<int>>, ret: int)
    requires ret in current <==> LastHas(lists, ret)
    ensures IsDue(k, LastHas(lists, ret), ret, RetStatus(k, current, ret))
  {
  }

  /** After any run a code counts as a success exactly when it is the success code
      or in the list last written. */
  lemma ReportedStatus(k: RetCodes, es: seq<Event>, ret: int)
    requires PutsDefaults(k, es)
    ensures
      var status := RetStatus(k, B.Current(Exec(BOOT, es).selector.whitelist), ret);
      IsDue(k, LastHas(AllWritten(k, BOOT, es), ret), ret, status)
  {
    WhiteListIsCurrent(k, BOOT, es);
  }

  lemma InitWritesDefaults(w: World, e: Event)
    requires Inv(w) && Initialises(w, e, SelectorPlugin)
    ensures e.InitSelector? && B.Current(Step(w, e).selector.whitelist) == B.Elements(e.defaults)
  {
  }

  lemma {:induction false} DefaultsStay(k: RetCodes, w: World, es: seq<Event>)
    requires Inv(w) && PutsDefaults(k, es) && forall e :: e in es ==> !e.SetWhiteList?
    requires B.Current(w.selector.whitelist) == B.Elements([k.overload, k.limited])
    ensures B.Current(Exec(w, es).selector.whitelist) == B.Elements([k.overload, k.limited])
    decreases |es|
  {
    if es != [] {
      assert es[0] in es;
      StepKeepsInv(w, es[0]);
      WhiteListStep(k, w, es[0]);
      DefaultsStay(k, Step(w, es[0]), es[1..]);
    }
  }

  /** From an effective Init on, through Destroys and other Inits, exactly success,
      overload and limit errors count as success until the whitelist is set. */
  lemma DefaultsCountAsSuccess(k: RetCodes, before: seq<Event>, e: Event, after: seq<Event>, ret: int)
    requires Initialises(Exec(BOOT, before), e, SelectorPlugin)
    requires PutsDefaults(k, [e] + after) && forall f :: f in after ==> !f.SetWhiteList?
    ensures
      var w := Step(Exec(BOOT, before), e);
      && Inv(w)
      && (RetStatus(k, B.Current(Exec(w, after).selector.whitelist), ret) == CallRetOk
          <==> ret in {k.success, k.overload, k.limited})
  {
    var w := Exec(BOOT, before);
    StepKeepsInv(w, e);
    assert e in [e] + after && forall f :: f in after ==> f in [e] + after;
    InitWritesDefaults(w, e);
    DefaultsStay(k, Step(w, e), after);
  }

  /** Every run of events can be carried out in micro-steps, and however these are
      interleaved with those of reporting threads, it leaves the same buffer. */
  lemma WhiteListWithReaders(k: RetCodes, es: seq<Event>, steps: seq<B.Event>)
    requires PutsDefaults(k, es)
    ensures
      var alone := B.AllUpdateEvents(AllWritten(k, BOOT, es));
      B.Begun(alone) == AllWritten(k, BOOT, es) && B.Exec(alone).0.pc.Idle?
    ensures
      B.Begun(steps) == AllWritten(k, BOOT, es) && B.Exec(steps).0.pc.Idle? ==>
        B.Exec(steps).0.buffer == Exec(BOOT, es).selector.whitelist
  {
    B.UpdatesAlone(AllWritten(k, BOOT, es));
    WhiteListIsCurrent(k, BOOT, es);
    if B.Exec(steps).0.pc.Idle? { B.RunIsSequential(steps); }
  }

  /** What a reporting thread computes in any interleaving, also in the middle of an
      update: if it borrows the set after `steps` and looks after `more`, its status
      is the one due for the last list published when it borrowed, as long as at most
      one update beyond that list has begun. */
  lemma StatusOfReader(k: RetCodes, steps: seq<B.Event>, t: int, more: seq<B.Event>, ret: int)
    requires forall e :: e in more ==> !B.Concerns(e, t)
    ensures
      var s := B.Exec(steps + [B.Borrow(t)] + more).0;
      var published := B.Published(steps);
      && t in s.held && s.held[t] < |s.buffer.slots|
      && (|B.Begun(steps + [B.Borrow(t)] + more)| <= |published| + 1 ==>
            IsDue(k, LastHas(published, ret), ret, RetStatus(k, s.buffer.slots[s.held[t]], ret)))
  {
    var a0, all := B.Exec(steps).1, steps + [B.Borrow(t)] + more;
    B.BorrowedSetIsStable(steps, t, more);
    B.CurrentIsPublished(steps);
    B.Counted(steps);
    B.Counted(all);
    assert ret in a0.current <==> LastHas(B.Published(steps), ret);
    StatusIsDue(k, a0.current, B.Published(steps), ret);
  }

  // ---- The service table ----

  /** The services of every Init tried since the last Destroy that took effect. */
  ghost function Tried(w: World, soFar: seq<ServiceConfig>, es: seq<Event>): seq<ServiceConfig>
    requires Inv(w)
    decreases |es|
  {
    if es == [] then soFar else
    StepKeepsInv(w, es[0]);
    var next :=
      match es[0]
      case InitRegistry(_, configs) => if w.registry.init then soFar else soFar + configs
      case DestroyRegistry => if w.registry.init then [] else soFar
      case _ => soFar;
    Tried(Step(w, es[0]), next, es[1..])
  }

  /** `services_config_` is the first-wins table over all the lists tried, failed
      attempts included. */
  lemma {:induction false} ServicesAreFirstWins(w: World, soFar: seq<ServiceConfig>, es: seq<Event>)
    requires Inv(w) && w.registry.services == InsertServices(map[], soFar)
    ensures Exec(w, es).registry.services == InsertServices(map[], Tried(w, soFar, es))
    decreases |es|
  {
    if es != [] {
      var e := es[0];
      StepKeepsInv(w, e);
      if e.InitRegistry? && !w.registry.init {
        InsertServicesAppend(map[], soFar, e.configs);
        ServicesAreFirstWins(Step(w, e), soFar + e.configs, es[1..]);
      } else if e.DestroyRegistry? && w.registry.init {
        ServicesAreFirstWins(Step(w, e), [], es[1..]);
      } else {
        ServicesAreFirstWins(Step(w, e), soFar, es[1..]);
      }
    }
  }

  /** What a heartbeat or Register then finds for a service: the first configuration
      with its namespace and name in all the lists tried. */
  lemma FirstTriedIsFound(es: seq<Event>, key: ServiceKey)
    ensures Get(Exec(BOOT, es).registry.services, key) == FirstListed(Tried(BOOT, [], es), key)
  {
    ServicesAreFirstWins(BOOT, [], es);
    EmplaceAllGet(map[], RegistryConf.Entries(Tried(BOOT, [], es)), key);
    FirstListedIsFirstEntry(Tried(BOOT, [], es), key);
  }

  /** The table of one Init, or none yet. */
  predicate OneTable(p: Registry, configs: seq<ServiceConfig>) {
    p.services == InsertServices(map[], configs) || (!p.init && p.services == map[])
  }

  lemma RetryStep(w: World, configs: seq<ServiceConfig>, e: Event)
    requires Inv(w) && OneTable(w.registry, configs) && (e.InitRegistry? ==> e.configs == configs)
    ensures OneTable(Step(w, e).registry, configs)
  {
    InsertServicesTwice(configs);
  }

  /** With one fixed configuration failed attempts leave no trace: an initialised
      registry has the table of a single Init. */
  lemma {:induction false} RetriesLeaveNoTrace(w: World, configs: seq<ServiceConfig>, es: seq<Event>)
    requires Inv(w) && OneTable(w.registry, configs)
    requires forall e :: e in es && e.InitRegistry? ==> e.configs == configs
    ensures OneTable(Exec(w, es).registry, configs)
    decreases |es|
  {
    if es != [] {
      assert es[0] in es;
      StepKeepsInv(w, es[0]);
      RetryStep(w, configs, es[0]);
      RetriesLeaveNoTrace(Step(w, es[0]), configs, es[1..]);
    }
  }
}
