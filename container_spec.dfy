/** The service container and its provider registry as values: the tables of a
    container, the registry attached to it, and the effect of every container
    operation on them. Factories, extenders, callbacks and providers, which are
    Go closures and interface values, are data here; what a callback or a
    provider's `Boot` does is recorded as an event in a trace. */
module ContainerSpec {
  import opened Wrappers

  // ---------------------------------------------------------------------------
  // Data
  // ---------------------------------------------------------------------------

  /** The values the container hands out (Go's `any`). */
  datatype Value =
    | Nil                              // Go's nil interface value
    | Num(n: int)
    | Text(s: string)
    | Self                             // the container itself, bound as "container" by New
    | Wrap(ext: string, inner: Value)  // `inner` decorated by the extender named `ext`
    | Items(values: seq<Value>)        // what a `Nested` factory builds from its dependencies

  /** A factory: a constant, a fresh number on every call (which tells a
      transient from a singleton), a value built from other keys resolved
      first, or the lazy trigger a deferred provider installs for one key. */
  datatype Factory =
    | Const(v: Value)
    | Fresh
    | Nested(deps: seq<string>)
    | Lazy(provider: Provider, key: string)

  datatype Binding = Binding(factory: Factory, singleton: bool)

  /** One `Bind` (singleton false) or `Singleton` (singleton true) call. */
  datatype BindOp = BindOp(name: string, factory: Factory, singleton: bool)

  /** A service provider: its identity, `IsDeferred()`, `Provides()`, and the
      binds its `Register` performs. */
  datatype Provider = Provider(id: string, deferred: bool, provided: seq<string>, binds: seq<BindOp>)

  /** What a callback or a provider method observes. Callbacks are named by
      numbers chosen by the caller of `Rebinding` and `AfterResolving`. */
  datatype Event =
    | Rebound(callback: nat, value: Value)
    | Resolution(callback: nat, key: string, value: Value)
    | ProviderRegistered(id: string)
    | ProviderBooted(id: string)

  /** The container's panics, and exhaustion of the nesting depth. */
  datatype Error = AliasedToItself(alias: string) | NoBinding(name: string) | TooDeep

  /** The fields of a provider registry. */
  datatype Registry = Registry(eager: seq<Provider>, deferred: map<string, Provider>,
                               booted: bool, registered: set<Provider>)

  /** The fields of a container, the registry attached to it, a counter for
      `Fresh` factories and the trace of events. */
  datatype State = State(
    bindings: map<string, Binding>,
    instances: map<string, Value>,
    aliases: map<string, string>,
    extenders: map<string, seq<string>>,
    tags: map<string, seq<string>>,
    contextual: map<string, map<string, Factory>>,
    rebound: map<string, seq<nat>>,
    afterResolving: seq<nat>,
    stack: seq<string>,
    counter: nat,
    trace: seq<Event>,
    reg: Option<Registry>)

  datatype Outcome<T> = Outcome(result: Result<T, Error>, state: State)

  /** How deeply factories may nest before resolution gives up. */
  const MaxDepth: nat := 64

  // ---------------------------------------------------------------------------
  // Lookups
  // ---------------------------------------------------------------------------

  /** One lookup in the alias table, not a chase through it. */
  function Canonical(aliases: map<string, string>, name: string): string
  {
    if name in aliases then aliases[name] else name
  }

  /** Go's `m[k]` on a map of slices: a missing key reads as the empty slice. */
  function Lookup<K, V>(m: map<K, seq<V>>, k: K): seq<V>
  {
    if k in m then m[k] else []
  }

  function ContextualFactory(contextual: map<string, map<string, Factory>>, concrete: string,
                             name: string): Option<Factory>
  {
    if concrete in contextual && name in contextual[concrete]
    then Some(contextual[concrete][name]) else None
  }

  /** The extenders applied left to right: the last one is outermost. */
  function ApplyChain(exts: seq<string>, v: Value): Value
  {
    if exts == [] then v else Wrap(exts[|exts| - 1], ApplyChain(exts[..|exts| - 1], v))
  }

  /** The rebound callbacks fire in registration order, each with the new value. */
  function ReboundEvents(callbacks: seq<nat>, v: Value): (es: seq<Event>)
    ensures |es| == |callbacks|
    ensures forall i :: 0 <= i < |callbacks| ==> es[i] == Rebound(callbacks[i], v)
  {
    if callbacks == [] then []
    else ReboundEvents(callbacks[..|callbacks| - 1], v) + [Rebound(callbacks[|callbacks| - 1], v)]
  }

  /** The after-resolving callbacks fire in registration order, each with
      the canonical key and the value. */
  function ResolvedEvents(callbacks: seq<nat>, key: string, v: Value): (es: seq<Event>)
    ensures |es| == |callbacks|
    ensures forall i :: 0 <= i < |callbacks| ==> es[i] == Resolution(callbacks[i], key, v)
  {
    if callbacks == [] then []
    else ResolvedEvents(callbacks[..|callbacks| - 1], key, v) + [Resolution(callbacks[|callbacks| - 1], key, v)]
  }

  /** The providers boot in the order given. */
  function BootEvents(ps: seq<Provider>): (es: seq<Event>)
    ensures |es| == |ps|
    ensures forall i :: 0 <= i < |ps| ==> es[i] == ProviderBooted(ps[i].id)
  {
    if ps == [] then [] else BootEvents(ps[..|ps| - 1]) + [ProviderBooted(ps[|ps| - 1].id)]
  }

  /** Dropping the top of the build stack, as `buildStack[:len-1]` does. */
  function Pop(stack: seq<string>): seq<string>
  {
    if stack == [] then [] else stack[..|stack| - 1]
  }

  predicate IsBound(s: State, name: string)
  {
    Canonical(s.aliases, name) in s.bindings || Canonical(s.aliases, name) in s.instances
  }

  predicate IsResolved(s: State, name: string)
  {
    Canonical(s.aliases, name) in s.instances
  }

  // ---------------------------------------------------------------------------
  // Resolution: make, runFactory, the factories, bind and the lazy trigger
  // ---------------------------------------------------------------------------

  /** `make`: the cached instance, else the contextual factory for the top of
      the build stack and the name as written, else the binding, else the
      unregistered-key panic. */
  function Resolve(s: State, name: string, fuel: nat): Outcome<Value>
    decreases fuel, 3
  {
    var key := Canonical(s.aliases, name);
    if key in s.instances then Outcome(Ok(s.instances[key]), s)
    else
      var ctx := if s.stack == [] then None
                 else ContextualFactory(s.contextual, s.stack[|s.stack| - 1], name);
      if ctx.Some? then RunWith(s, key, ctx.value, false, fuel)
      else if key !in s.bindings then Outcome(Err(NoBinding(name)), s)
      else RunWith(s, key, s.bindings[key].factory, s.bindings[key].singleton, fuel)
  }

  /** `runFactory`: push the key, run the factory, pop (only when the factory
      returns normally), apply the extenders, cache when singleton, and fire
      the after-resolving callbacks. */
  function RunWith(s: State, key: string, f: Factory, singleton: bool, fuel: nat): Outcome<Value>
    decreases fuel, 2
  {
    var built := Build(s.(stack := s.stack + [key]), f, fuel);
    match built.result
    case Err(e) => Outcome(Err(e), built.state)
    case Ok(v0) =>
      var v := Finished(built.state, key, v0);
      Outcome(Ok(v), Finish(built.state, key, singleton, v))
  }

  /** What `runFactory` returns for the factory's value `v0`. */
  function Finished(s: State, key: string, v0: Value): Value
  {
    ApplyChain(Lookup(s.extenders, key), v0)
  }

  /** The state after a factory returned normally and its value was
      extended to `v`: popped, cached when singleton, with the after-resolving
      callbacks fired. */
  function Finish(s: State, key: string, singleton: bool, v: Value): State
  {
    var s1 := s.(stack := Pop(s.stack));
    var s2 := if singleton then s1.(instances := s1.instances[key := v]) else s1;
    s2.(trace := s2.trace + ResolvedEvents(s2.afterResolving, key, v))
  }

  /** Calling a factory. Nesting costs one unit of fuel. */
  function Build(s: State, f: Factory, fuel: nat): Outcome<Value>
    decreases fuel, 1
  {
    match f
    case Const(v) => Outcome(Ok(v), s)
    case Fresh => Outcome(Ok(Num(s.counter)), s.(counter := s.counter + 1))
    case Nested(deps) =>
      if fuel == 0 then Outcome(Err(TooDeep), s)
      else
        var all := ResolveAll(s, deps, fuel - 1);
        (match all.result
         case Err(e) => Outcome(Err(e), all.state)
         case Ok(vs) => Outcome(Ok(Items(vs)), all.state))
    case Lazy(p, abs) =>
      if fuel == 0 then Outcome(Err(TooDeep), s) else Trigger(s, p, abs, fuel - 1)
  }

  /** Resolving keys one after the other, stopping at the first panic. */
  function ResolveAll(s: State, keys: seq<string>, fuel: nat): Outcome<seq<Value>>
    decreases fuel, 5, |keys|
  {
    if keys == [] then Outcome(Ok([]), s)
    else
      var first := Resolve(s, keys[0], fuel);
      match first.result
      case Err(e) => Outcome(Err(e), first.state)
      case Ok(v) =>
        var rest := ResolveAll(first.state, keys[1..], fuel);
        match rest.result
        case Err(e) => Outcome(Err(e), rest.state)
        case Ok(vs) => Outcome(Ok([v] + vs), rest.state)
  }

  /** `bind`: drop the cached instance, store the binding, and when a non-nil
      instance had been cached, make the name again and fire its rebound
      callbacks with the new value. */
  function BindWith(s: State, name: string, f: Factory, singleton: bool, fuel: nat): Outcome<()>
    decreases fuel, 4
  {
    var key := Canonical(s.aliases, name);
    var wasBound := key in s.instances && s.instances[key] != Nil;
    var s1 := s.(instances := s.instances - {key}, bindings := s.bindings[key := Binding(f, singleton)]);
    if !wasBound then Outcome(Ok(()), s1)
    else
      var made := Resolve(s1, name, fuel);
      match made.result
      case Err(e) => Outcome(Err(e), made.state)
      case Ok(v) =>
        Outcome(Ok(()), made.state.(trace := made.state.trace + ReboundEvents(Lookup(made.state.rebound, name), v)))
  }

  /** A sequence of binds, stopping at the first panic. */
  function BindAll(s: State, ops: seq<BindOp>, fuel: nat): Outcome<()>
    decreases fuel, 6, |ops|
  {
    if ops == [] then Outcome(Ok(()), s)
    else
      var o := BindWith(s, ops[0].name, ops[0].factory, ops[0].singleton, fuel);
      if o.result.Err? then o else BindAll(o.state, ops[1..], fuel)
  }

  /** The lazy factory a deferred provider installs for `abs`: unless the
      provider is registered and no provider is deferred for `abs` any more,
      run the provider's `Register`, drop the deferred marker of `abs` (of this
      key only), boot the provider when the registry is booted; then make
      `abs`. */
  function Trigger(s: State, p: Provider, abs: string, fuel: nat): Outcome<Value>
    decreases fuel, 7
  {
    match s.reg
    case None => Resolve(s, abs, fuel)
    case Some(r) =>
      if p in r.registered && abs !in r.deferred then Resolve(s, abs, fuel)
      else
        var o := BindAll(s.(trace := s.trace + [ProviderRegistered(p.id)]), p.binds, fuel);
        if o.result.Err? then Outcome(Err(o.result.error), o.state)
        else Resolve(Unmark(o.state, p, abs), abs, fuel)
  }

  /** After the provider's `Register` in the lazy trigger: the deferred marker
      of `abs` goes, and the provider boots when the registry is booted. */
  function Unmark(s: State, p: Provider, abs: string): State
  {
    match s.reg
    case None => s
    case Some(r) =>
      var s1 := s.(reg := Some(r.(deferred := r.deferred - {abs})));
      if r.booted then s1.(trace := s1.trace + [ProviderBooted(p.id)]) else s1
  }

  // ---------------------------------------------------------------------------
  // The other container operations
  // ---------------------------------------------------------------------------

  /** `New`: empty tables, then the container bound to itself as "container". */
  function Initial(): State
  {
    AfterInstance(State(map[], map[], map[], map[], map[], map[], map[], [], [], 0, [], None),
                  "container", Self)
  }

  /** `Instance`: drop the binding, cache the value, fire the rebound callbacks. */
  function AfterInstance(s: State, name: string, v: Value): State
  {
    var key := Canonical(s.aliases, name);
    s.(bindings := s.bindings - {key}, instances := s.instances[key := v],
       trace := s.trace + ReboundEvents(Lookup(s.rebound, name), v))
  }

  /** `Alias`: panics when the two names are equal, otherwise stores the
      canonical key of `name` as it is now. */
  function AfterAlias(s: State, name: string, alias: string): Outcome<()>
  {
    if name == alias then Outcome(Err(AliasedToItself(name)), s)
    else Outcome(Ok(()), s.(aliases := s.aliases[alias := Canonical(s.aliases, name)]))
  }

  /** `Extend`: append to the chain; a cached instance gets the whole chain
      applied to it and the rebound callbacks fire. */
  function AfterExtend(s: State, name: string, ext: string): State
  {
    var key := Canonical(s.aliases, name);
    var chain := Lookup(s.extenders, key) + [ext];
    var s1 := s.(extenders := s.extenders[key := chain]);
    if key !in s.instances then s1
    else
      var v := ApplyChain(chain, s.instances[key]);
      s1.(instances := s.instances[key := v], trace := s.trace + ReboundEvents(Lookup(s.rebound, name), v))
  }

  function AfterTag(s: State, names: seq<string>, tag: string): State
  {
    s.(tags := s.tags[tag := Lookup(s.tags, tag) + names])
  }

  function AfterForget(s: State, name: string): State
  {
    var key := Canonical(s.aliases, name);
    s.(bindings := s.bindings - {key}, instances := s.instances - {key})
  }

  function AfterFlush(s: State): State
  {
    s.(bindings := map[], instances := map[], aliases := map[], extenders := map[], tags := map[],
       contextual := map[])
  }

  function AfterRebinding(s: State, name: string, callback: nat): State
  {
    s.(rebound := s.rebound[name := Lookup(s.rebound, name) + [callback]])
  }

  function AfterAddResolving(s: State, callback: nat): State
  {
    s.(afterResolving := s.afterResolving + [callback])
  }

  /** `Give`: one entry of the nested contextual table, the inner table
      created when missing. */
  function AfterGive(s: State, concrete: string, needs: string, f: Factory): State
  {
    var inner := if concrete in s.contextual then s.contextual[concrete] else map[];
    s.(contextual := s.contextual[concrete := inner[needs := f]])
  }

  // ---------------------------------------------------------------------------
  // The provider registry
  // ---------------------------------------------------------------------------

  /** The registry as `NewProviderRegistry` creates it. */
  const EmptyRegistry := Registry([], map[], false, {})

  /** Every key of `keys` marked as deferred to `p`. */
  function DeferAll(deferred: map<string, Provider>, keys: seq<string>, p: Provider): map<string, Provider>
  {
    if keys == [] then deferred else DeferAll(deferred, keys[..|keys| - 1], p)[keys[|keys| - 1] := p]
  }

  /** The transient lazy binds `interceptDeferred` performs. */
  function LazyBinds(p: Provider, keys: seq<string>): (ops: seq<BindOp>)
    ensures |ops| == |keys|
    ensures forall i :: 0 <= i < |keys| ==> ops[i] == BindOp(keys[i], Lazy(p, keys[i]), false)
  {
    seq(|keys|, i requires 0 <= i < |keys| => BindOp(keys[i], Lazy(p, keys[i]), false))
  }

  /** `Register`: a provider already registered is ignored; a deferred one is
      marked for each key it provides and gets a lazy bind per key; an eager
      one has its `Register` run, joins the eager list and is booted at once
      when the registry is booted. */
  function AfterRegister(s: State, p: Provider): Outcome<()>
  {
    match s.reg
    case None => Outcome(Ok(()), s)
    case Some(r) =>
      if p in r.registered then Outcome(Ok(()), s)
      else
        var s1 := s.(reg := Some(r.(registered := r.registered + {p})));
        if p.deferred then AfterDefer(s1, p) else AfterEager(s1, p)
  }

  /** The deferred branch of `Register`: the markers, then `interceptDeferred`. */
  function AfterDefer(s: State, p: Provider): Outcome<()>
  {
    match s.reg
    case None => Outcome(Ok(()), s)
    case Some(r) =>
      BindAll(s.(reg := Some(r.(deferred := DeferAll(r.deferred, p.provided, p)))),
              LazyBinds(p, p.provided), MaxDepth)
  }

  /** The eager branch of `Register`: the provider's `Register`, then the
      eager list, then `Boot` when already booted. */
  function AfterEager(s: State, p: Provider): Outcome<()>
  {
    var o := BindAll(s.(trace := s.trace + [ProviderRegistered(p.id)]), p.binds, MaxDepth);
    if o.result.Err? then o else Outcome(Ok(()), Enlist(o.state, p))
  }

  function Enlist(s: State, p: Provider): State
  {
    match s.reg
    case None => s
    case Some(r) =>
      var s1 := s.(reg := Some(r.(eager := r.eager + [p])));
      if r.booted then s1.(trace := s1.trace + [ProviderBooted(p.id)]) else s1
  }

  /** `Boot`: the first call sets the flag and boots the eager providers in
      order; later calls do nothing. */
  function AfterBoot(s: State): State
  {
    match s.reg
    case None => s
    case Some(r) =>
      if r.booted then s
      else s.(reg := Some(r.(booted := true)), trace := s.trace + BootEvents(r.eager))
  }

  // ---------------------------------------------------------------------------
  // What resolution leaves alone
  // ---------------------------------------------------------------------------

  /** Resolution and binding never change the aliases, extenders, tags,
      contextual table or callback lists, nor the registry's eager list, boot
      flag and registered set; the counter only grows and the trace only
      gets longer. */
  predicate Kept(s: State, t: State)
  {
    && t.aliases == s.aliases && t.extenders == s.extenders && t.tags == s.tags
    && t.contextual == s.contextual && t.rebound == s.rebound && t.afterResolving == s.afterResolving
    && s.counter <= t.counter && s.trace <= t.trace
    && (s.reg.None? <==> t.reg.None?)
    && (s.reg.Some? && t.reg.Some? ==>
          && t.reg.value.eager == s.reg.value.eager
          && t.reg.value.booted == s.reg.value.booted
          && t.reg.value.registered == s.reg.value.registered)
  }

  lemma KeptTrans(s: State, t: State, u: State)
    requires Kept(s, t) && Kept(t, u)
    ensures Kept(s, u)
  {
    assert s.trace == t.trace[..|s.trace|] && t.trace == u.trace[..|t.trace|];
    assert s.trace == u.trace[..|s.trace|];
  }

  /** `make` keeps the frame and, when it returns normally, leaves the build
      stack as it found it. */
  lemma {:induction false} ResolveKeeps(s: State, name: string, fuel: nat)
    ensures Kept(s, Resolve(s, name, fuel).state)
    ensures Resolve(s, name, fuel).result.Ok? ==> Resolve(s, name, fuel).state.stack == s.stack
    decreases fuel, 3
  {
    var key := Canonical(s.aliases, name);
    if key !in s.instances {
      var ctx := if s.stack == [] then None
                 else ContextualFactory(s.contextual, s.stack[|s.stack| - 1], name);
      if ctx.Some? {
        RunWithKeeps(s, key, ctx.value, false, fuel);
      } else if key in s.bindings {
        RunWithKeeps(s, key, s.bindings[key].factory, s.bindings[key].singleton, fuel);
      }
    }
  }

  lemma {:induction false} RunWithKeeps(s: State, key: string, f: Factory, singleton: bool, fuel: nat)
    ensures Kept(s, RunWith(s, key, f, singleton, fuel).state)
    ensures RunWith(s, key, f, singleton, fuel).result.Ok? ==> RunWith(s, key, f, singleton, fuel).state.stack == s.stack
    decreases fuel, 2
  {
    var pushed := s.(stack := s.stack + [key]);
    BuildKeeps(pushed, f, fuel);
    var built := Build(pushed, f, fuel);
    if built.result.Ok? {
      FinishKeeps(s, built.state, key, singleton, Finished(built.state, key, built.result.value));
    }
  }

  lemma FinishKeeps(s: State, t: State, key: string, singleton: bool, v: Value)
    requires Kept(s.(stack := s.stack + [key]), t) && t.stack == s.stack + [key]
    ensures Kept(s, Finish(t, key, singleton, v)) && Finish(t, key, singleton, v).stack == s.stack
  {
    var t1 := t.(stack := Pop(t.stack));
    var t2 := if singleton then t1.(instances := t1.instances[key := v]) else t1;
    assert t1.stack == s.stack;
    TraceGrows(t2, ResolvedEvents(t2.afterResolving, key, v));
    KeptTrans(s, t2, Finish(t, key, singleton, v));
  }

  lemma UnmarkKeeps(s: State, p: Provider, abs: string)
    ensures Kept(s, Unmark(s, p, abs)) && Unmark(s, p, abs).stack == s.stack
  {
    if s.reg.Some? && s.reg.value.booted {
      var r := s.reg.value;
      var s1 := s.(reg := Some(r.(deferred := r.deferred - {abs})));
      TraceGrows(s1, [ProviderBooted(p.id)]);
    }
  }

  lemma TraceGrows(s: State, es: seq<Event>)
    ensures Kept(s, s.(trace := s.trace + es))
  {
    assert s.trace == (s.trace + es)[..|s.trace|];
  }

  lemma {:induction false} BuildKeeps(s: State, f: Factory, fuel: nat)
    ensures Kept(s, Build(s, f, fuel).state)
    ensures Build(s, f, fuel).result.Ok? ==> Build(s, f, fuel).state.stack == s.stack
    decreases fuel, 1
  {
    match f
    case Const(_) =>
    case Fresh =>
    case Nested(deps) =>
      if fuel > 0 {
        ResolveAllKeeps(s, deps, fuel - 1);
      }
    case Lazy(p, abs) =>
      if fuel > 0 {
        TriggerKeeps(s, p, abs, fuel - 1);
      }
  }

  lemma {:induction false} ResolveAllKeeps(s: State, keys: seq<string>, fuel: nat)
    ensures Kept(s, ResolveAll(s, keys, fuel).state)
    ensures ResolveAll(s, keys, fuel).result.Ok? ==> ResolveAll(s, keys, fuel).state.stack == s.stack
    decreases fuel, 5, |keys|
  {
    if keys != [] {
      ResolveKeeps(s, keys[0], fuel);
      var first := Resolve(s, keys[0], fuel);
      if first.result.Ok? {
        ResolveAllKeeps(first.state, keys[1..], fuel);
        KeptTrans(s, first.state, ResolveAll(first.state, keys[1..], fuel).state);
      }
    }
  }

  lemma {:induction false} BindWithKeeps(s: State, name: string, f: Factory, singleton: bool, fuel: nat)
    ensures Kept(s, BindWith(s, name, f, singleton, fuel).state)
    ensures BindWith(s, name, f, singleton, fuel).result.Ok? ==> BindWith(s, name, f, singleton, fuel).state.stack == s.stack
    decreases fuel, 4
  {
    var key := Canonical(s.aliases, name);
    var s1 := s.(instances := s.instances - {key}, bindings := s.bindings[key := Binding(f, singleton)]);
    if key in s.instances && s.instances[key] != Nil {
      ResolveKeeps(s1, name, fuel);
      var made := Resolve(s1, name, fuel);
      if made.result.Ok? {
        var t := BindWith(s, name, f, singleton, fuel).state;
        assert made.state.trace <= t.trace;
      }
    }
  }

  lemma {:induction false} BindAllKeeps(s: State, ops: seq<BindOp>, fuel: nat)
    ensures Kept(s, BindAll(s, ops, fuel).state)
    ensures BindAll(s, ops, fuel).result.Ok? ==> BindAll(s, ops, fuel).state.stack == s.stack
    decreases fuel, 6, |ops|
  {
    if ops != [] {
      BindWithKeeps(s, ops[0].name, ops[0].factory, ops[0].singleton, fuel);
      var o := BindWith(s, ops[0].name, ops[0].factory, ops[0].singleton, fuel);
      if o.result.Ok? {
        BindAllKeeps(o.state, ops[1..], fuel);
        KeptTrans(s, o.state, BindAll(o.state, ops[1..], fuel).state);
      }
    }
  }

  lemma {:induction false} TriggerKeeps(s: State, p: Provider, abs: string, fuel: nat)
    ensures Kept(s, Trigger(s, p, abs, fuel).state)
    ensures Trigger(s, p, abs, fuel).result.Ok? ==> Trigger(s, p, abs, fuel).state.stack == s.stack
    decreases fuel, 7
  {
    match s.reg
    case None => ResolveKeeps(s, abs, fuel);
    case Some(r) =>
      if p in r.registered && abs !in r.deferred {
        ResolveKeeps(s, abs, fuel);
      } else {
        var s0 := s.(trace := s.trace + [ProviderRegistered(p.id)]);
        BindAllKeeps(s0, p.binds, fuel);
        var o := BindAll(s0, p.binds, fuel);
        KeptTrans(s, s0, o.state);
        if o.result.Ok? {
          var s2 := Unmark(o.state, p, abs);
          UnmarkKeeps(o.state, p, abs);
          KeptTrans(s, o.state, s2);
          ResolveKeeps(s2, abs, fuel);
          KeptTrans(s, s2, Resolve(s2, abs, fuel).state);
        }
      }
  }

  // ---------------------------------------------------------------------------
  // Aliases
  // ---------------------------------------------------------------------------

  /** `Alias` panics exactly when the two raw names are equal; otherwise the
      alias resolves to what `name` resolved to when the alias was made, and
      no other name changes what it resolves to. */
  lemma AliasStoresCanonical(s: State, name: string, alias: string)
    ensures AfterAlias(s, name, alias).result.Err? <==> name == alias
    ensures name == alias ==> AfterAlias(s, name, alias).state == s
    ensures name != alias ==>
      && Canonical(AfterAlias(s, name, alias).state.aliases, alias) == Canonical(s.aliases, name)
      && forall other :: other != alias ==>
           Canonical(AfterAlias(s, name, alias).state.aliases, other) == Canonical(s.aliases, other)
  {
  }

  /** Aliases are not chased: when `y` is later made an alias of `z`, an
      older alias `x` of `y` still resolves to `y` itself. */
  lemma AliasNotChased(s: State, x: string, y: string, z: string)
    requires x != y && y != z && x != z && y !in s.aliases && Canonical(s.aliases, z) != y
    ensures var s2 := AfterAlias(AfterAlias(s, y, x).state, z, y).state;
      && Canonical(s2.aliases, x) == y
      && Canonical(s2.aliases, y) == Canonical(s.aliases, z)
      && Canonical(s2.aliases, x) != Canonical(s2.aliases, y)
  {
    var s1 := AfterAlias(s, y, x).state;
    assert Canonical(s1.aliases, z) == Canonical(s.aliases, z);
  }

  // ---------------------------------------------------------------------------
  // Bind, Singleton and Instance
  // ---------------------------------------------------------------------------

  /** Without a cached non-nil instance, `bind` only stores the binding under
      the canonical key and drops a cached (nil) instance. */
  lemma BindStores(s: State, name: string, f: Factory, singleton: bool, fuel: nat)
    requires var key := Canonical(s.aliases, name); !(key in s.instances && s.instances[key] != Nil)
    ensures var key := Canonical(s.aliases, name); var o := BindWith(s, name, f, singleton, fuel);
      && o.result.Ok?
      && o.state.bindings == s.bindings[key := Binding(f, singleton)]
      && o.state.instances == s.instances - {key}
      && o.state.trace == s.trace
  {
  }

  /** When an instance had been cached, `bind` makes the name again at once:
      with a constant factory the new value, extended, is what the
      after-resolving and then the rebound callbacks observe. */
  lemma BindRemakes(s: State, name: string, v: Value, singleton: bool, fuel: nat)
    requires var key := Canonical(s.aliases, name); key in s.instances && s.instances[key] != Nil
    requires s.stack == []
    ensures var key := Canonical(s.aliases, name);
      var w := ApplyChain(Lookup(s.extenders, key), v);
      var o := BindWith(s, name, Const(v), singleton, fuel);
      && o.result.Ok?
      && o.state.bindings == s.bindings[key := Binding(Const(v), singleton)]
      && (singleton ==> o.state.instances == s.instances[key := w])
      && (!singleton ==> o.state.instances == s.instances - {key})
      && o.state.trace == s.trace + ResolvedEvents(s.afterResolving, key, w) + ReboundEvents(Lookup(s.rebound, name), w)
  {
    var key := Canonical(s.aliases, name);
    var s1 := s.(instances := s.instances - {key}, bindings := s.bindings[key := Binding(Const(v), singleton)]);
    ResolveConst(s1, name, v, singleton, fuel);
  }

  /** Making a name bound to a constant, with no cached instance and no
      contextual factory for it under the top of the build stack. */
  lemma ResolveConst(s: State, name: string, v: Value, singleton: bool, fuel: nat)
    requires var key := Canonical(s.aliases, name);
      key !in s.instances && key in s.bindings && s.bindings[key] == Binding(Const(v), singleton)
    requires s.stack != [] ==> ContextualFactory(s.contextual, s.stack[|s.stack| - 1], name) == None
    ensures var key := Canonical(s.aliases, name);
      var w := ApplyChain(Lookup(s.extenders, key), v);
      var cached := if singleton then s.(instances := s.instances[key := w]) else s;
      Resolve(s, name, fuel) == Outcome(Ok(w), cached.(trace := s.trace + ResolvedEvents(s.afterResolving, key, w)))
  {
    var key := Canonical(s.aliases, name);
    var pushed := s.(stack := s.stack + [key]);
    assert Build(pushed, Const(v), fuel) == Outcome(Ok(v), pushed);
    assert Resolve(s, name, fuel) == RunWith(s, key, Const(v), singleton, fuel);
    assert Pop(pushed.stack) == s.stack;
  }

  /** `Instance` drops the binding and caches the value; making the name
      afterwards returns exactly that value and changes nothing. */
  lemma InstanceThenMake(s: State, name: string, v: Value, fuel: nat)
    ensures var t := AfterInstance(s, name, v);
      && Canonical(s.aliases, name) !in t.bindings
      && IsResolved(t, name)
      && t.trace == s.trace + ReboundEvents(Lookup(s.rebound, name), v)
      && Resolve(t, name, fuel) == Outcome(Ok(v), t)
  {
  }

  // ---------------------------------------------------------------------------
  // The order in which make looks
  // ---------------------------------------------------------------------------

  /** A cached instance wins, even over a contextual entry; then the
      contextual entry for the top of the build stack and the name as written
      runs uncached; then the binding; else the unregistered-key panic. */
  lemma MakeOrder(s: State, name: string, fuel: nat)
    ensures var key := Canonical(s.aliases, name);
      key in s.instances ==> Resolve(s, name, fuel) == Outcome(Ok(s.instances[key]), s)
    ensures var key := Canonical(s.aliases, name);
      key !in s.instances && s.stack != [] && ContextualFactory(s.contextual, s.stack[|s.stack| - 1], name).Some? ==>
        Resolve(s, name, fuel) == RunWith(s, key, ContextualFactory(s.contextual, s.stack[|s.stack| - 1], name).value, false, fuel)
    ensures var key := Canonical(s.aliases, name);
      key !in s.instances && (s.stack == [] || ContextualFactory(s.contextual, s.stack[|s.stack| - 1], name).None?) ==>
        if key in s.bindings
        then Resolve(s, name, fuel) == RunWith(s, key, s.bindings[key].factory, s.bindings[key].singleton, fuel)
        else Resolve(s, name, fuel) == Outcome(Err(NoBinding(name)), s)
  {
  }

  /** A contextual constant is extended and reported to the after-resolving
      callbacks, but never cached: the instances are untouched. */
  lemma ContextualNotCached(s: State, name: string, v: Value, fuel: nat)
    requires Canonical(s.aliases, name) !in s.instances && s.stack != []
    requires ContextualFactory(s.contextual, s.stack[|s.stack| - 1], name) == Some(Const(v))
    ensures var key := Canonical(s.aliases, name);
      var w := ApplyChain(Lookup(s.extenders, key), v);
      Resolve(s, name, fuel) == Outcome(Ok(w), s.(trace := s.trace + ResolvedEvents(s.afterResolving, key, w)))
  {
    var key := Canonical(s.aliases, name);
    var pushed := s.(stack := s.stack + [key]);
    assert Build(pushed, Const(v), fuel) == Outcome(Ok(v), pushed);
    assert Pop(pushed.stack) == s.stack;
  }

  // ---------------------------------------------------------------------------
  // Singletons and transients
  // ---------------------------------------------------------------------------

  /** A singleton binding caches what it built: making the name again returns
      the same value without running anything. */
  lemma SingletonCached(s: State, name: string, fuel: nat, fuel2: nat)
    requires var key := Canonical(s.aliases, name);
      key !in s.instances && s.stack == [] && key in s.bindings && s.bindings[key].singleton
    requires Resolve(s, name, fuel).result.Ok?
    ensures var o := Resolve(s, name, fuel);
      Resolve(o.state, name, fuel2) == Outcome(Ok(o.result.value), o.state)
  {
    var key := Canonical(s.aliases, name);
    var o := Resolve(s, name, fuel);
    ResolveKeeps(s, name, fuel);
    var b := s.bindings[key];
    var built := Build(s.(stack := s.stack + [key]), b.factory, fuel);
    var v := Finished(built.state, key, built.result.value);
    assert o == Outcome(Ok(v), Finish(built.state, key, true, v));
  }

  /** Extenders are injective: different values stay different. */
  lemma {:induction false} ApplyChainInjective(exts: seq<string>, v: Value, w: Value)
    requires ApplyChain(exts, v) == ApplyChain(exts, w)
    ensures v == w
    decreases |exts|
  {
    if exts != [] {
      ApplyChainInjective(exts[..|exts| - 1], v, w);
    }
  }

  /** A transient `Fresh` binding builds a new value on every make. */
  lemma TransientFreshDiffers(s: State, name: string, fuel: nat, fuel2: nat)
    requires var key := Canonical(s.aliases, name);
      key !in s.instances && s.stack == [] && key in s.bindings && s.bindings[key] == Binding(Fresh, false)
    ensures var o1 := Resolve(s, name, fuel); var o2 := Resolve(o1.state, name, fuel2);
      o1.result.Ok? && o2.result.Ok? && o1.result.value != o2.result.value
  {
    var key := Canonical(s.aliases, name);
    var exts := Lookup(s.extenders, key);
    var pushed := s.(stack := s.stack + [key]);
    var t := pushed.(counter := s.counter + 1);
    assert Build(pushed, Fresh, fuel) == Outcome(Ok(Num(s.counter)), t);
    assert Resolve(s, name, fuel) == RunWith(s, key, Fresh, false, fuel);
    var w1 := ApplyChain(exts, Num(s.counter));
    var s1 := Finish(t, key, false, w1);
    assert Pop(t.stack) == [];
    assert s1.stack == [] && s1.bindings == s.bindings && s1.instances == s.instances;
    var pushed2 := s1.(stack := s1.stack + [key]);
    var t2 := pushed2.(counter := s1.counter + 1);
    assert Build(pushed2, Fresh, fuel2) == Outcome(Ok(Num(s1.counter)), t2);
    assert Resolve(s1, name, fuel2) == RunWith(s1, key, Fresh, false, fuel2);
    var w2 := ApplyChain(exts, Num(s1.counter));
    if w1 == w2 {
      ApplyChainInjective(exts, Num(s.counter), Num(s1.counter));
    }
  }

  // ---------------------------------------------------------------------------
  // Extend
  // ---------------------------------------------------------------------------

  lemma ApplyChainSnoc(chain: seq<string>, ext: string, v: Value)
    ensures ApplyChain(chain + [ext], v) == Wrap(ext, ApplyChain(chain, v))
  {
    assert (chain + [ext])[..|chain|] == chain;
  }

  /** `Extend` appends to the chain of the canonical key only; a cached
      instance gets the whole chain applied to it, the new extender outermost,
      and the rebound callbacks fire with the result. */
  lemma ExtendReapplies(s: State, name: string, ext: string)
    ensures var key := Canonical(s.aliases, name); var t := AfterExtend(s, name, ext);
      && Lookup(t.extenders, key) == Lookup(s.extenders, key) + [ext]
      && (forall k :: k != key ==> Lookup(t.extenders, k) == Lookup(s.extenders, k))
      && (key in s.instances ==>
            && t.instances == s.instances[key := Wrap(ext, ApplyChain(Lookup(s.extenders, key), s.instances[key]))]
            && t.trace == s.trace + ReboundEvents(Lookup(s.rebound, name), t.instances[key]))
      && (key !in s.instances ==> t.instances == s.instances && t.trace == s.trace)
  {
    var key := Canonical(s.aliases, name);
    if key in s.instances {
      ApplyChainSnoc(Lookup(s.extenders, key), ext, s.instances[key]);
    }
  }

  /** Because the whole chain is re-applied, an extender that had already
      decorated a cached singleton decorates it a second time. */
  lemma ExtendWrapsCachedTwice(s: State, name: string, e1: string, e2: string, v: Value)
    requires var key := Canonical(s.aliases, name);
      Lookup(s.extenders, key) == [e1] && key in s.instances && s.instances[key] == Wrap(e1, v)
    ensures AfterExtend(s, name, e2).instances[Canonical(s.aliases, name)] == Wrap(e2, Wrap(e1, Wrap(e1, v)))
  {
    ExtendReapplies(s, name, e2);
    assert ApplyChain([e1], Wrap(e1, v)) == Wrap(e1, ApplyChain([], Wrap(e1, v)));
  }

  // ---------------------------------------------------------------------------
  // Tags
  // ---------------------------------------------------------------------------

  /** `Tag` appends in order (duplicates kept) and touches no other tag. */
  lemma TagAppends(s: State, names: seq<string>, tag: string)
    ensures Lookup(AfterTag(s, names, tag).tags, tag) == Lookup(s.tags, tag) + names
    ensures forall t :: t != tag ==> Lookup(AfterTag(s, names, tag).tags, t) == Lookup(s.tags, t)
  {
  }

  /** `Tagged` yields one value per entry of the tag. */
  lemma {:induction false} ResolveAllLength(s: State, keys: seq<string>, fuel: nat)
    ensures ResolveAll(s, keys, fuel).result.Ok? ==> |ResolveAll(s, keys, fuel).result.value| == |keys|
    decreases |keys|
  {
    if keys != [] {
      var first := Resolve(s, keys[0], fuel);
      if first.result.Ok? {
        ResolveAllLength(first.state, keys[1..], fuel);
      }
    }
  }

  /** When every entry has a cached instance, `Tagged` returns them in tag
      order and changes nothing. */
  lemma {:induction false} ResolveAllCached(s: State, keys: seq<string>, fuel: nat)
    requires forall i :: 0 <= i < |keys| ==> Canonical(s.aliases, keys[i]) in s.instances
    ensures var o := ResolveAll(s, keys, fuel);
      && o.state == s && o.result.Ok? && |o.result.value| == |keys|
      && forall i :: 0 <= i < |keys| ==> o.result.value[i] == s.instances[Canonical(s.aliases, keys[i])]
    decreases |keys|
  {
    if keys != [] {
      assert Canonical(s.aliases, keys[0]) in s.instances;
      assert Resolve(s, keys[0], fuel) == Outcome(Ok(s.instances[Canonical(s.aliases, keys[0])]), s);
      ResolveAllCached(s, keys[1..], fuel);
      var rest := ResolveAll(s, keys[1..], fuel).result.value;
      assert forall i :: 1 <= i < |keys| ==> ([s.instances[Canonical(s.aliases, keys[0])]] + rest)[i] == rest[i - 1];
    }
  }

  // ---------------------------------------------------------------------------
  // Queries and resets
  // ---------------------------------------------------------------------------

  /** `Forget` drops the binding and the instance of the canonical key only. */
  lemma ForgetClears(s: State, name: string)
    ensures !IsBound(AfterForget(s, name), name) && !IsResolved(AfterForget(s, name), name)
    ensures forall k :: k != Canonical(s.aliases, name) ==>
      && (k in AfterForget(s, name).bindings <==> k in s.bindings)
      && (k in AfterForget(s, name).instances <==> k in s.instances)
    ensures AfterForget(s, name).aliases == s.aliases && AfterForget(s, name).extenders == s.extenders
  {
  }

  /** `Flush` empties the six tables, the container's own entry included, and
      keeps the callbacks, the build stack and the registry. */
  lemma FlushResets(s: State, name: string)
    ensures var t := AfterFlush(s);
      && !IsBound(t, name) && Canonical(t.aliases, name) == name
      && t.extenders == map[] && t.tags == map[] && t.contextual == map[]
      && t.rebound == s.rebound && t.afterResolving == s.afterResolving
      && t.stack == s.stack && t.trace == s.trace && t.reg == s.reg
  {
  }

  /** `New` binds the container to itself; `Flush` removes that entry too. */
  lemma NewBindsItself(fuel: nat)
    ensures IsResolved(Initial(), "container")
    ensures Resolve(Initial(), "container", fuel) == Outcome(Ok(Self), Initial())
    ensures !IsBound(AfterFlush(Initial()), "container")
  {
  }

  /** A resolved name is bound. */
  lemma ResolvedIsBound(s: State, name: string)
    ensures IsResolved(s, name) ==> IsBound(s, name)
  {
  }

  // ---------------------------------------------------------------------------
  // Contextual binding
  // ---------------------------------------------------------------------------

  /** After `Give`, the lookup for (concrete, needs) yields the factory; every
      other pair and every other table is as before. */
  lemma GiveThenLookup(s: State, concrete: string, needs: string, f: Factory)
    ensures var t := AfterGive(s, concrete, needs, f);
      && ContextualFactory(t.contextual, concrete, needs) == Some(f)
      && (forall c, n :: (c != concrete || n != needs) ==>
            ContextualFactory(t.contextual, c, n) == ContextualFactory(s.contextual, c, n))
      && t == s.(contextual := t.contextual)
  {
  }

  // ---------------------------------------------------------------------------
  // The provider registry
  // ---------------------------------------------------------------------------

  /** A provider already registered is ignored. */
  lemma RegisterTwiceIgnored(s: State, p: Provider)
    requires s.reg.Some? && p in s.reg.value.registered
    ensures AfterRegister(s, p) == Outcome(Ok(()), s)
  {
  }

  /** `Register` marks the provider registered, so a second `Register` is a
      no-op; it never changes the boot flag; a deferred provider stays out of
      the eager list, an eager one joins its end. */
  lemma RegisterFrame(s: State, p: Provider)
    requires s.reg.Some?
    ensures var t := AfterRegister(s, p).state;
      && t.reg.Some? && p in t.reg.value.registered
      && t.reg.value.registered == s.reg.value.registered + {p}
      && t.reg.value.booted == s.reg.value.booted
      && AfterRegister(t, p) == Outcome(Ok(()), t)
      && (p.deferred || p in s.reg.value.registered || AfterRegister(s, p).result.Err? ==>
            t.reg.value.eager == s.reg.value.eager)
      && (!p.deferred && p !in s.reg.value.registered && AfterRegister(s, p).result.Ok? ==>
            t.reg.value.eager == s.reg.value.eager + [p])
  {
    var r := s.reg.value;
    if p !in r.registered {
      var s1 := s.(reg := Some(r.(registered := r.registered + {p})));
      var r1 := s1.reg.value;
      if p.deferred {
        BindAllKeeps(s1.(reg := Some(r1.(deferred := DeferAll(r1.deferred, p.provided, p)))),
                     LazyBinds(p, p.provided), MaxDepth);
      } else {
        var s2 := s1.(trace := s1.trace + [ProviderRegistered(p.id)]);
        BindAllKeeps(s2, p.binds, MaxDepth);
      }
    }
  }

  /** An eager provider has its `Register` run at once (its first event), and
      when the registry is already booted its `Boot` runs last. */
  lemma RegisterEagerRuns(s: State, p: Provider)
    requires s.reg.Some? && p !in s.reg.value.registered && !p.deferred
    requires AfterRegister(s, p).result.Ok?
    ensures var t := AfterRegister(s, p).state;
      && s.trace + [ProviderRegistered(p.id)] <= t.trace
      && (s.reg.value.booted ==> t.trace[|t.trace| - 1] == ProviderBooted(p.id))
  {
    var r := s.reg.value;
    var s1 := s.(reg := Some(r.(registered := r.registered + {p})));
    var s2 := s1.(trace := s1.trace + [ProviderRegistered(p.id)]);
    BindAllKeeps(s2, p.binds, MaxDepth);
    var o := BindAll(s2, p.binds, MaxDepth);
    var t := Enlist(o.state, p);
    UnmarkKeeps(o.state.(reg := Some(o.state.reg.value.(eager := o.state.reg.value.eager + [p]))), p, "");
    assert s2.trace <= t.trace;
  }

  /** `Boot` sets the flag and boots the eager providers once, in order; a
      second `Boot` does nothing. */
  lemma BootOnce(s: State)
    requires s.reg.Some?
    ensures var t := AfterBoot(s);
      && t.reg.Some? && t.reg.value.booted
      && AfterBoot(t) == t
      && (s.reg.value.booted ==> t == s)
      && (!s.reg.value.booted ==>
            t.trace == s.trace + BootEvents(s.reg.value.eager) && t.reg.value == s.reg.value.(booted := true))
  {
    var r := s.reg.value;
    if !r.booted {
      var t := s.(reg := Some(r.(booted := true)), trace := s.trace + BootEvents(r.eager));
      assert AfterBoot(s) == t;
      assert t.reg.value.booted;
    }
  }

  /** A fresh registry is not booted, has no providers, and booting it fires
      nothing. */
  lemma NewRegistryUnbooted(s: State)
    ensures !EmptyRegistry.booted && EmptyRegistry.eager == []
    ensures AfterBoot(s.(reg := Some(EmptyRegistry))).trace == s.trace
  {
    assert BootEvents([]) == [];
    assert s.trace + [] == s.trace;
  }

  /** A lazy trigger whose provider is registered and whose key is no longer
      deferred just makes the key. */
  lemma TriggerSkips(s: State, p: Provider, abs: string, fuel: nat)
    requires s.reg.Some? && p in s.reg.value.registered && abs !in s.reg.value.deferred
    ensures Trigger(s, p, abs, fuel) == Resolve(s, abs, fuel)
  {
  }

  /** The deferred marker is per key: while `abs` is still marked, its
      trigger runs the provider's `Register` again, whatever other keys of
      the same provider have triggered before. */
  lemma TriggerRegistersPerKey(s: State, p: Provider, abs: string, fuel: nat)
    requires s.reg.Some? && abs in s.reg.value.deferred
    ensures s.trace + [ProviderRegistered(p.id)] <= Trigger(s, p, abs, fuel).state.trace
  {
    var s0 := s.(trace := s.trace + [ProviderRegistered(p.id)]);
    BindAllKeeps(s0, p.binds, fuel);
    var o := BindAll(s0, p.binds, fuel);
    if o.result.Ok? {
      UnmarkKeeps(o.state, p, abs);
      ResolveKeeps(Unmark(o.state, p, abs), abs, fuel);
      KeptTrans(o.state, Unmark(o.state, p, abs), Resolve(Unmark(o.state, p, abs), abs, fuel).state);
      KeptTrans(s0, o.state, Resolve(Unmark(o.state, p, abs), abs, fuel).state);
    }
  }

  // ---------------------------------------------------------------------------
  // Deferred registration
  // ---------------------------------------------------------------------------

  /** The binding table after binds that replace no cached instance. */
  function BindTable(b: map<string, Binding>, aliases: map<string, string>, ops: seq<BindOp>): map<string, Binding>
    decreases |ops|
  {
    if ops == [] then b
    else BindTable(b[Canonical(aliases, ops[0].name) := Binding(ops[0].factory, ops[0].singleton)], aliases, ops[1..])
  }

  /** Binds over keys with no cached instance make nothing and fire nothing:
      they only store bindings. */
  lemma {:induction false} BindAllQuiet(s: State, ops: seq<BindOp>, fuel: nat)
    requires forall i :: 0 <= i < |ops| ==> Canonical(s.aliases, ops[i].name) !in s.instances
    ensures BindAll(s, ops, fuel) == Outcome(Ok(()), s.(bindings := BindTable(s.bindings, s.aliases, ops)))
    decreases |ops|
  {
    if ops != [] {
      var key := Canonical(s.aliases, ops[0].name);
      assert s.instances - {key} == s.instances;
      var s1 := s.(bindings := s.bindings[key := Binding(ops[0].factory, ops[0].singleton)]);
      assert BindWith(s, ops[0].name, ops[0].factory, ops[0].singleton, fuel) == Outcome(Ok(()), s1);
      assert forall i :: 0 <= i < |ops[1..]| ==> ops[1..][i] == ops[i + 1];
      BindAllQuiet(s1, ops[1..], fuel);
    }
  }

  lemma {:induction false} BindTableKeeps(b: map<string, Binding>, aliases: map<string, string>, ops: seq<BindOp>, k: string)
    requires forall j :: 0 <= j < |ops| ==> Canonical(aliases, ops[j].name) != k
    ensures k in BindTable(b, aliases, ops) <==> k in b
    ensures k in b ==> BindTable(b, aliases, ops)[k] == b[k]
    decreases |ops|
  {
    if ops != [] {
      assert forall j :: 0 <= j < |ops[1..]| ==> ops[1..][j] == ops[j + 1];
      BindTableKeeps(b[Canonical(aliases, ops[0].name) := Binding(ops[0].factory, ops[0].singleton)], aliases, ops[1..], k);
    }
  }

  /** A bind that no later bind overwrites is in the table. */
  lemma {:induction false} BindTableAt(b: map<string, Binding>, aliases: map<string, string>, ops: seq<BindOp>, i: nat)
    requires i < |ops|
    requires forall j :: i < j < |ops| ==> Canonical(aliases, ops[j].name) != Canonical(aliases, ops[i].name)
    ensures Canonical(aliases, ops[i].name) in BindTable(b, aliases, ops)
    ensures BindTable(b, aliases, ops)[Canonical(aliases, ops[i].name)] == Binding(ops[i].factory, ops[i].singleton)
    decreases |ops|
  {
    var b1 := b[Canonical(aliases, ops[0].name) := Binding(ops[0].factory, ops[0].singleton)];
    assert forall j :: 0 <= j < |ops[1..]| ==> ops[1..][j] == ops[j + 1];
    if i == 0 {
      BindTableKeeps(b1, aliases, ops[1..], Canonical(aliases, ops[0].name));
    } else {
      BindTableAt(b1, aliases, ops[1..], i - 1);
    }
  }

  /** `DeferAll` marks exactly the given keys, each for `p`, and keeps the
      other markers. */
  lemma {:induction false} DeferAllMarks(d: map<string, Provider>, keys: seq<string>, p: Provider)
    ensures forall k :: k in DeferAll(d, keys, p) <==> k in d || k in keys
    ensures forall k :: k in keys ==> DeferAll(d, keys, p)[k] == p
    ensures forall k :: k !in keys && k in d ==> DeferAll(d, keys, p)[k] == d[k]
    decreases |keys|
  {
    if keys != [] {
      var init := keys[..|keys| - 1];
      DeferAllMarks(d, init, p);
      assert forall k :: k in keys <==> k in init || k == keys[|keys| - 1];
    }
  }

  /** Registering a deferred provider over keys with no cached instance runs
      nothing of the provider: no event, no eager entry, only the markers and
      the lazy bindings. */
  lemma RegisterDeferredQuiet(s: State, p: Provider)
    requires s.reg.Some? && p !in s.reg.value.registered && p.deferred
    requires forall i :: 0 <= i < |p.provided| ==> Canonical(s.aliases, p.provided[i]) !in s.instances
    ensures var o := AfterRegister(s, p); var r := s.reg.value;
      && o.result.Ok? && o.state.trace == s.trace && o.state.instances == s.instances
      && o.state.reg == Some(r.(registered := r.registered + {p}, deferred := DeferAll(r.deferred, p.provided, p)))
      && o.state.bindings == BindTable(s.bindings, s.aliases, LazyBinds(p, p.provided))
  {
    var r := s.reg.value;
    var s1 := s.(reg := Some(r.(registered := r.registered + {p})));
    var s2 := s1.(reg := Some(s1.reg.value.(deferred := DeferAll(r.deferred, p.provided, p))));
    BindAllQuiet(s2, LazyBinds(p, p.provided), MaxDepth);
  }

  /** With distinct canonical keys, each provided key ends up bound to the
      transient lazy factory for itself. */
  lemma RegisterDeferredInstallsLazy(s: State, p: Provider)
    requires s.reg.Some? && p !in s.reg.value.registered && p.deferred
    requires forall i :: 0 <= i < |p.provided| ==> Canonical(s.aliases, p.provided[i]) !in s.instances
    requires forall i, j :: 0 <= i < j < |p.provided| ==>
      Canonical(s.aliases, p.provided[i]) != Canonical(s.aliases, p.provided[j])
    ensures forall i :: 0 <= i < |p.provided| ==>
      && Canonical(s.aliases, p.provided[i]) in AfterRegister(s, p).state.bindings
      && AfterRegister(s, p).state.bindings[Canonical(s.aliases, p.provided[i])] == Binding(Lazy(p, p.provided[i]), false)
  {
    RegisterDeferredQuiet(s, p);
    forall i | 0 <= i < |p.provided|
      ensures Canonical(s.aliases, p.provided[i]) in AfterRegister(s, p).state.bindings
      ensures AfterRegister(s, p).state.bindings[Canonical(s.aliases, p.provided[i])] == Binding(Lazy(p, p.provided[i]), false)
    {
      BindTableAt(s.bindings, s.aliases, LazyBinds(p, p.provided), i);
    }
  }

  /** The lazy trigger of a deferred key whose provider binds it as a
      singleton constant: the provider's `Register` runs, the marker goes, and
      the inner make caches the extended constant. */
  lemma FirstTrigger(s: State, p: Provider, abs: string, v: Value, e: string, fuel: nat)
    requires s.reg.Some? && abs in s.reg.value.deferred
    requires abs !in s.aliases && abs !in s.instances && s.stack == [abs] && abs !in s.contextual
    requires p.binds == [BindOp(abs, Const(v), true)]
    requires Lookup(s.extenders, abs) == [e]
    ensures var o := Trigger(s, p, abs, fuel);
      && o.result == Ok(Wrap(e, v))
      && o.state.stack == [abs] && o.state.extenders == s.extenders
      && abs in o.state.instances && o.state.instances[abs] == Wrap(e, v)
      && o.state.reg.Some? && abs !in o.state.reg.value.deferred
  {
    var s2 := s.(trace := s.trace + [ProviderRegistered(p.id)]);
    assert s2.instances - {abs} == s2.instances;
    var s3 := s2.(bindings := s2.bindings[abs := Binding(Const(v), true)]);
    assert BindWith(s2, abs, Const(v), true, fuel) == Outcome(Ok(()), s3);
    assert BindAll(s2, p.binds, fuel) == Outcome(Ok(()), s3);
    var s4 := Unmark(s3, p, abs);
    assert s4 == s3.(reg := s4.reg, trace := s4.trace);
    assert ContextualFactory(s4.contextual, abs, abs) == None;
    assert ApplyChain([e], v) == Wrap(e, v) by {
      assert ApplyChain([], v) == v;
    }
    ResolveConst(s4, abs, v, true, fuel);
  }

  /** The first `Make` of a deferred key whose provider binds it as a
      singleton: the transient lazy binding runs the provider's `Register`,
      drops the marker, and makes the key again inside its own factory. The
      inner make caches the extended value; the outer `runFactory` applies the
      extenders once more to what it returns, so the caller gets the
      extenders applied twice while the cache holds them applied once. */
  lemma DeferredFirstMake(s: State, p: Provider, abs: string, v: Value, e: string, fuel: nat)
    requires s.reg.Some? && abs in s.reg.value.deferred
    requires abs !in s.aliases && abs !in s.instances && s.stack == [] && abs !in s.contextual
    requires abs in s.bindings && s.bindings[abs] == Binding(Lazy(p, abs), false)
    requires p.binds == [BindOp(abs, Const(v), true)]
    requires Lookup(s.extenders, abs) == [e]
    requires fuel >= 1
    ensures var o := Resolve(s, abs, fuel);
      && o.result == Ok(Wrap(e, Wrap(e, v)))
      && abs in o.state.instances && o.state.instances[abs] == Wrap(e, v)
      && o.state.reg.Some? && abs !in o.state.reg.value.deferred
      && o.state.stack == []
  {
    var s1 := s.(stack := [abs]);
    FirstTrigger(s1, p, abs, v, e, fuel - 1);
    var inner := Trigger(s1, p, abs, fuel - 1);
    var w := Wrap(e, v);
    assert Resolve(s, abs, fuel) == Outcome(Ok(Finished(inner.state, abs, w)), Finish(inner.state, abs, false, Finished(inner.state, abs, w))) by {
      assert Build(s1, Lazy(p, abs), fuel) == inner;
      assert s.(stack := s.stack + [abs]) == s1;
      assert Resolve(s, abs, fuel) == RunWith(s, abs, Lazy(p, abs), false, fuel);
    }
    assert Finished(inner.state, abs, w) == Wrap(e, w) by {
      assert ApplyChain([], w) == w;
    }
  }
}
