/** The service container, the fluent contextual-binding builder and the
    provider registry, as classes whose fields are the Go structs' fields.
    Each operation is proved to change the fields exactly as the matching
    function of `ContainerSpec` says. */
module Container {
  import opened Wrappers
  import opened ContainerSpec

  class Container {
    var bindings: map<string, Binding>
    var instances: map<string, Value>
    var aliases: map<string, string>
    var extenders: map<string, seq<string>>
    var tags: map<string, seq<string>>
    var contextual: map<string, map<string, Factory>>
    var reboundCallbacks: map<string, seq<nat>>
    var afterResolving: seq<nat>
    var buildStack: seq<string>
    /** The next value a `Fresh` factory returns. */
    var counter: nat
    /** What the callbacks and the providers' methods have observed so far. */
    var trace: seq<Event>
    /** The registry whose deferred providers the lazy factories consult. */
    var registry: ProviderRegistry?

    /** The container and its registry as a value. */
    function Snapshot(): State
      reads this, registry
    {
      State(bindings, instances, aliases, extenders, tags, contextual, reboundCallbacks,
            afterResolving, buildStack, counter, trace,
            if registry == null then None else Some(registry.Snapshot()))
    }

    /** `New`: empty tables and the container bound to itself. */
    constructor New()
      ensures Snapshot() == Initial() && registry == null
    {
      bindings, instances, aliases, extenders := map[], map[], map[], map[];
      tags, contextual, reboundCallbacks := map[], map[], map[];
      afterResolving, buildStack, counter, trace, registry := [], [], 0, [], null;
      new;
      Instance("container", Self);
    }

    // -------------------------------------------------------------------------
    // Registration
    // -------------------------------------------------------------------------

    method Bind(name: string, f: Factory) returns (r: Result<(), Error>)
      modifies this, registry
      ensures registry == old(registry)
      ensures Snapshot() == BindWith(old(Snapshot()), name, f, false, MaxDepth).state
      ensures r == BindWith(old(Snapshot()), name, f, false, MaxDepth).result
    {
      r := BindAt(name, f, false, MaxDepth);
    }

    method Singleton(name: string, f: Factory) returns (r: Result<(), Error>)
      modifies this, registry
      ensures registry == old(registry)
      ensures Snapshot() == BindWith(old(Snapshot()), name, f, true, MaxDepth).state
      ensures r == BindWith(old(Snapshot()), name, f, true, MaxDepth).result
    {
      r := BindAt(name, f, true, MaxDepth);
    }

    method Instance(name: string, v: Value)
      modifies this
      ensures registry == old(registry)
      ensures Snapshot() == AfterInstance(old(Snapshot()), name, v)
    {
      bindings := bindings - {Canonical(aliases, name)};
      var key := Canonical(aliases, name);
      instances := instances[key := v];
      FireRebound(name, v);
    }

    /** `bind`, with the depth left for the nested `make`. */
    method BindAt(name: string, f: Factory, singleton: bool, fuel: nat) returns (r: Result<(), Error>)
      modifies this, registry
      ensures registry == old(registry)
      ensures Snapshot() == BindWith(old(Snapshot()), name, f, singleton, fuel).state
      ensures r == BindWith(old(Snapshot()), name, f, singleton, fuel).result
      decreases fuel, 4
    {
      var key := Canonical(aliases, name);
      var wasBound := key in instances && instances[key] != Nil;
      instances := instances - {key};
      bindings := bindings[key := Binding(f, singleton)];
      if wasBound {
        var made := MakeAt(name, fuel);
        if made.Err? {
          return Err(made.error);
        }
        FireRebound(name, made.value);
      }
      r := Ok(());
    }

    method Alias(name: string, alias: string) returns (r: Result<(), Error>)
      modifies this
      ensures registry == old(registry)
      ensures Snapshot() == AfterAlias(old(Snapshot()), name, alias).state
      ensures r == AfterAlias(old(Snapshot()), name, alias).result
    {
      if name == alias {
        return Err(AliasedToItself(name));
      }
      aliases := aliases[alias := Canonical(aliases, name)];
      r := Ok(());
    }

    // -------------------------------------------------------------------------
    // Contextual binding
    // -------------------------------------------------------------------------

    method When(concrete: string) returns (b: ContextualBuilder)
      ensures fresh(b) && b.container == this && b.concrete == concrete && b.needs == ""
    {
      b := new ContextualBuilder(this, concrete);
    }

    /** `getContextual`: the factory registered for (concrete, name), if any. */
    function GetContextual(concrete: string, name: string): (r: Option<Factory>)
      reads this
      ensures r.Some? <==> concrete in contextual && name in contextual[concrete]
      ensures r.Some? ==> r.value == contextual[concrete][name]
    {
      ContextualFactory(contextual, concrete, name)
    }

    // -------------------------------------------------------------------------
    // Extend and tags
    // -------------------------------------------------------------------------

    method Extend(name: string, ext: string)
      modifies this
      ensures registry == old(registry)
      ensures Snapshot() == AfterExtend(old(Snapshot()), name, ext)
    {
      var key := Canonical(aliases, name);
      extenders := extenders[key := Lookup(extenders, key) + [ext]];
      if key in instances {
        var extended := ApplyExtenders(key, instances[key]);
        instances := instances[key := extended];
        FireRebound(name, extended);
      }
    }

    method Tag(names: seq<string>, tag: string)
      modifies this
      ensures registry == old(registry)
      ensures Snapshot() == AfterTag(old(Snapshot()), names, tag)
    {
      tags := tags[tag := Lookup(tags, tag) + names];
    }

    /** `Tagged`: every name under the tag made in order. */
    method Tagged(tag: string) returns (r: Result<seq<Value>, Error>)
      modifies this, registry
      ensures registry == old(registry)
      ensures Snapshot() == ResolveAll(old(Snapshot()), Lookup(old(tags), tag), MaxDepth).state
      ensures r == ResolveAll(old(Snapshot()), Lookup(old(tags), tag), MaxDepth).result
    {
      r := MakeEach(Lookup(tags, tag), MaxDepth);
    }

    // -------------------------------------------------------------------------
    // Resolution
    // -------------------------------------------------------------------------

    method Make(name: string) returns (r: Result<Value, Error>)
      modifies this, registry
      ensures registry == old(registry)
      ensures Snapshot() == Resolve(old(Snapshot()), name, MaxDepth).state
      ensures r == Resolve(old(Snapshot()), name, MaxDepth).result
    {
      r := MakeAt(name, MaxDepth);
    }

    /** `make`, with the depth of factory nesting still allowed. */
    method MakeAt(name: string, fuel: nat) returns (r: Result<Value, Error>)
      modifies this, registry
      ensures registry == old(registry)
      ensures Snapshot() == Resolve(old(Snapshot()), name, fuel).state
      ensures r == Resolve(old(Snapshot()), name, fuel).result
      decreases fuel, 3
    {
      var key := Canonical(aliases, name);
      if key in instances {
        return Ok(instances[key]);
      }
      if |buildStack| > 0 {
        var caller := buildStack[|buildStack| - 1];
        var f := GetContextual(caller, name);
        if f.Some? {
          r := RunFactory(key, f.value, false, fuel);
          return;
        }
      }
      if key !in bindings {
        return Err(NoBinding(name));
      }
      var b := bindings[key];
      r := RunFactory(key, b.factory, b.singleton, fuel);
    }

    method RunFactory(key: string, f: Factory, singleton: bool, fuel: nat) returns (r: Result<Value, Error>)
      modifies this, registry
      ensures registry == old(registry)
      ensures Snapshot() == RunWith(old(Snapshot()), key, f, singleton, fuel).state
      ensures r == RunWith(old(Snapshot()), key, f, singleton, fuel).result
      decreases fuel, 2
    {
      buildStack := buildStack + [key];
      ghost var pushed := Snapshot();
      assert pushed == old(Snapshot()).(stack := old(Snapshot()).stack + [key]);
      var built := Call(f, fuel);
      if built.Err? {
        return Err(built.error);
      }
      BuildKeeps(pushed, f, fuel);
      ghost var afterCall := Snapshot();
      var v := Complete(key, singleton, built.value);
      assert v == Finished(afterCall, key, built.value);
      assert RunWith(old(Snapshot()), key, f, singleton, fuel) == Outcome(Ok(v), Snapshot()) by {
        assert Build(pushed, f, fuel) == Outcome(built, afterCall);
      }
      r := Ok(v);
    }

    /** The rest of `runFactory` once the factory has returned `v0`: pop the
        build stack, apply the extenders, cache when singleton, fire the
        after-resolving callbacks. */
    method Complete(key: string, singleton: bool, v0: Value) returns (v: Value)
      requires buildStack != []
      modifies this
      ensures registry == old(registry)
      ensures v == ApplyChain(Lookup(old(extenders), key), v0)
      ensures Snapshot() == Finish(old(Snapshot()), key, singleton, v)
    {
      buildStack := buildStack[..|buildStack| - 1];
      v := ExtendedValue(key, v0);
      if singleton {
        instances := instances[key := v];
      }
      FireAfterResolving(key, v);
    }

    /** `exts := c.extenders[key]`, and `applyExtenders` when there are any. */
    method ExtendedValue(key: string, v0: Value) returns (v: Value)
      ensures v == ApplyChain(Lookup(extenders, key), v0)
    {
      v := v0;
      if |Lookup(extenders, key)| > 0 {
        v := ApplyExtenders(key, v);
      }
    }

    /** Calling a factory, `f(c)`. */
    method Call(f: Factory, fuel: nat) returns (r: Result<Value, Error>)
      modifies this, registry
      ensures registry == old(registry)
      ensures Snapshot() == Build(old(Snapshot()), f, fuel).state
      ensures r == Build(old(Snapshot()), f, fuel).result
      decreases fuel, 1
    {
      match f
      case Const(v) =>
        r := Ok(v);
      case Fresh =>
        r := Ok(Num(counter));
        counter := counter + 1;
      case Nested(deps) =>
        if fuel == 0 {
          r := Err(TooDeep);
        } else {
          var all := MakeEach(deps, fuel - 1);
          r := if all.Ok? then Ok(Items(all.value)) else Err(all.error);
        }
      case Lazy(p, abs) =>
        if fuel == 0 {
          r := Err(TooDeep);
        } else {
          r := RunLazy(p, abs, fuel - 1);
        }
    }

    /** Making each of `keys` in order, stopping at the first panic. */
    method MakeEach(keys: seq<string>, fuel: nat) returns (r: Result<seq<Value>, Error>)
      modifies this, registry
      ensures registry == old(registry)
      ensures Snapshot() == ResolveAll(old(Snapshot()), keys, fuel).state
      ensures r == ResolveAll(old(Snapshot()), keys, fuel).result
      decreases fuel, 5
    {
      var values: seq<Value> := [];
      var i := 0;
      PrefixedNone(ResolveAll(Snapshot(), keys, fuel));
      while i < |keys|
        invariant 0 <= i <= |keys|
        invariant registry == old(registry)
        invariant ResolveAll(old(Snapshot()), keys, fuel) == Prefixed(values, ResolveAll(Snapshot(), keys[i..], fuel))
        decreases |keys| - i
      {
        ghost var before := Snapshot();
        assert keys[i..][0] == keys[i] && keys[i..][1..] == keys[i + 1..];
        var made := MakeAt(keys[i], fuel);
        if made.Err? {
          return Err(made.error);
        }
        PrefixedStep(values, made.value, ResolveAll(Snapshot(), keys[i + 1..], fuel));
        values := values + [made.value];
        i := i + 1;
      }
      assert values + [] == values;
      r := Ok(values);
    }

    /** The lazy factory a deferred provider installs for `abs`. */
    method RunLazy(p: Provider, abs: string, fuel: nat) returns (r: Result<Value, Error>)
      modifies this, registry
      ensures registry == old(registry)
      ensures Snapshot() == Trigger(old(Snapshot()), p, abs, fuel).state
      ensures r == Trigger(old(Snapshot()), p, abs, fuel).result
      decreases fuel, 7
    {
      if registry != null && (p !in registry.registered || abs in registry.deferred) {
        trace := trace + [ProviderRegistered(p.id)];
        var o := ApplyBinds(p.binds, fuel);
        if o.Err? {
          return Err(o.error);
        }
        registry.deferred := registry.deferred - {abs};
        if registry.booted {
          trace := trace + [ProviderBooted(p.id)];
        }
      }
      r := MakeAt(abs, fuel);
    }

    /** The binds a provider's `Register` performs, in order. */
    method ApplyBinds(ops: seq<BindOp>, fuel: nat) returns (r: Result<(), Error>)
      modifies this, registry
      ensures registry == old(registry)
      ensures Snapshot() == BindAll(old(Snapshot()), ops, fuel).state
      ensures r == BindAll(old(Snapshot()), ops, fuel).result
      decreases fuel, 6
    {
      var i := 0;
      while i < |ops|
        invariant 0 <= i <= |ops|
        invariant registry == old(registry)
        invariant BindAll(old(Snapshot()), ops, fuel) == BindAll(Snapshot(), ops[i..], fuel)
        decreases |ops| - i
      {
        assert ops[i..][0] == ops[i] && ops[i..][1..] == ops[i + 1..];
        var o := BindAt(ops[i].name, ops[i].factory, ops[i].singleton, fuel);
        if o.Err? {
          return o;
        }
        i := i + 1;
      }
      r := Ok(());
    }

    method ApplyExtenders(key: string, v: Value) returns (w: Value)
      ensures w == ApplyChain(Lookup(extenders, key), v)
    {
      var exts := Lookup(extenders, key);
      w := v;
      var i := 0;
      while i < |exts|
        invariant 0 <= i <= |exts|
        invariant w == ApplyChain(exts[..i], v)
      {
        assert exts[..i + 1][..i] == exts[..i];
        w := Wrap(exts[i], w);
        i := i + 1;
      }
      assert exts[..i] == exts;
    }

    // -------------------------------------------------------------------------
    // Queries and resets
    // -------------------------------------------------------------------------

    function Bound(name: string): (b: bool)
      reads this, registry
      ensures b == IsBound(Snapshot(), name)
    {
      var key := Canonical(aliases, name);
      key in bindings || key in instances
    }

    function Resolved(name: string): (b: bool)
      reads this, registry
      ensures b == IsResolved(Snapshot(), name)
    {
      Canonical(aliases, name) in instances
    }

    method Forget(name: string)
      modifies this
      ensures registry == old(registry)
      ensures Snapshot() == AfterForget(old(Snapshot()), name)
    {
      var key := Canonical(aliases, name);
      bindings := bindings - {key};
      instances := instances - {key};
    }

    method Flush()
      modifies this
      ensures registry == old(registry)
      ensures Snapshot() == AfterFlush(old(Snapshot()))
    {
      bindings, instances, aliases, extenders := map[], map[], map[], map[];
      tags, contextual := map[], map[];
    }

    /** `Bindings`: the bound keys, then the keys with only an instance, each
      once, in the maps' (unspecified) iteration order. */
    method Bindings() returns (out: seq<string>)
      ensures forall k :: k in out <==> k in bindings || k in instances
      ensures forall i, j :: 0 <= i < j < |out| ==> out[i] != out[j]
      ensures |bindings| <= |out|
      ensures forall i :: 0 <= i < |out| ==> (out[i] in bindings <==> i < |bindings|)
    {
      out := [];
      var todo := bindings.Keys;
      while todo != {}
        invariant todo <= bindings.Keys
        invariant forall k :: k in out <==> k in bindings && k !in todo
        invariant forall i, j :: 0 <= i < j < |out| ==> out[i] != out[j]
        invariant |out| + |todo| == |bindings|
        invariant forall i :: 0 <= i < |out| ==> out[i] in bindings
        decreases |todo|
      {
        var k :| k in todo;
        out := out + [k];
        todo := todo - {k};
      }
      var rest := instances.Keys;
      ghost var bound := |out|;
      while rest != {}
        invariant rest <= instances.Keys
        invariant forall k :: k in out <==> k in bindings || (k in instances && k !in rest)
        invariant forall i, j :: 0 <= i < j < |out| ==> out[i] != out[j]
        invariant bound == |bindings| <= |out|
        invariant forall i :: 0 <= i < |out| ==> (out[i] in bindings <==> i < |bindings|)
        decreases |rest|
      {
        var k :| k in rest;
        if k !in bindings {
          out := out + [k];
        }
        rest := rest - {k};
      }
    }

    // -------------------------------------------------------------------------
    // Callbacks
    // -------------------------------------------------------------------------

    method Rebinding(name: string, callback: nat)
      modifies this
      ensures registry == old(registry)
      ensures Snapshot() == AfterRebinding(old(Snapshot()), name, callback)
    {
      reboundCallbacks := reboundCallbacks[name := Lookup(reboundCallbacks, name) + [callback]];
    }

    method AfterResolving(callback: nat)
      modifies this
      ensures registry == old(registry)
      ensures Snapshot() == AfterAddResolving(old(Snapshot()), callback)
    {
      afterResolving := afterResolving + [callback];
    }

    method FireRebound(name: string, v: Value)
      modifies this
      ensures registry == old(registry)
      ensures Snapshot() == old(Snapshot()).(trace := old(trace) + ReboundEvents(Lookup(reboundCallbacks, name), v))
    {
      var callbacks := Lookup(reboundCallbacks, name);
      var fired: seq<Event> := [];
      var i := 0;
      while i < |callbacks|
        invariant 0 <= i <= |callbacks|
        invariant fired == ReboundEvents(callbacks[..i], v)
      {
        assert callbacks[..i + 1][..i] == callbacks[..i];
        fired := fired + [Rebound(callbacks[i], v)];
        i := i + 1;
      }
      assert callbacks[..i] == callbacks;
      trace := trace + fired;
    }

    method FireAfterResolving(key: string, v: Value)
      modifies this
      ensures registry == old(registry)
      ensures Snapshot() == old(Snapshot()).(trace := old(trace) + ResolvedEvents(afterResolving, key, v))
    {
      var fired: seq<Event> := [];
      var i := 0;
      while i < |afterResolving|
        invariant 0 <= i <= |afterResolving|
        invariant fired == ResolvedEvents(afterResolving[..i], key, v)
      {
        assert afterResolving[..i + 1][..i] == afterResolving[..i];
        fired := fired + [Resolution(afterResolving[i], key, v)];
        i := i + 1;
      }
      assert afterResolving[..i] == afterResolving;
      trace := trace + fired;
    }
  }

  /** The values made so far in front of what the remaining keys yield. */
  function Prefixed(values: seq<Value>, o: Outcome<seq<Value>>): Outcome<seq<Value>>
  {
    match o.result
    case Err(_) => o
    case Ok(rest) => Outcome(Ok(values + rest), o.state)
  }

  lemma PrefixedNone(o: Outcome<seq<Value>>)
    ensures Prefixed([], o) == o
  {
    if o.result.Ok? {
      assert [] + o.result.value == o.result.value;
    }
  }

  lemma PrefixedStep(values: seq<Value>, v: Value, o: Outcome<seq<Value>>)
    ensures Prefixed(values, match o.result case Err(e) => Outcome(Err(e), o.state)
                                         case Ok(vs) => Outcome(Ok([v] + vs), o.state))
         == Prefixed(values + [v], o)
  {
    if o.result.Ok? {
      assert values + ([v] + o.result.value) == values + [v] + o.result.value;
    }
  }

  // ---------------------------------------------------------------------------
  // Contextual binding builder
  // ---------------------------------------------------------------------------

  class ContextualBuilder {
    const container: Container
    const concrete: string
    var needs: string

    constructor (container: Container, concrete: string)
      ensures this.container == container && this.concrete == concrete && needs == ""
    {
      this.container := container;
      this.concrete := concrete;
      needs := "";
    }

    /** `Needs`: the last call wins; the builder itself is returned. */
    method Needs(name: string) returns (b: ContextualBuilder)
      modifies this
      ensures needs == name && b == this
    {
      needs := name;
      b := this;
    }

    method Give(f: Factory)
      modifies container
      ensures container.registry == old(container.registry)
      ensures container.Snapshot() == AfterGive(old(container.Snapshot()), concrete, needs, f)
    {
      var inner := if concrete in container.contextual then container.contextual[concrete] else map[];
      container.contextual := container.contextual[concrete := inner[needs := f]];
    }

    /** `GiveValue`: a factory that ignores the container and yields `v`. */
    method GiveValue(v: Value)
      modifies container
      ensures container.registry == old(container.registry)
      ensures container.Snapshot() == AfterGive(old(container.Snapshot()), concrete, needs, Const(v))
    {
      Give(Const(v));
    }
  }

  // ---------------------------------------------------------------------------
  // Provider registry
  // ---------------------------------------------------------------------------

  class ProviderRegistry {
    const app: Container
    var eager: seq<Provider>
    var deferred: map<string, Provider>
    var booted: bool
    var registered: set<Provider>

    function Snapshot(): Registry
      reads this
    {
      Registry(eager, deferred, booted, registered)
    }

    /** `NewProviderRegistry`; the container's lazy factories consult the
        registry created for it last. */
    constructor NewProviderRegistry(app: Container)
      modifies app
      ensures this.app == app && app.registry == this
      ensures app.Snapshot() == old(app.Snapshot()).(reg := Some(EmptyRegistry))
    {
      this.app := app;
      eager, deferred, booted, registered := [], map[], false, {};
      new;
      app.registry := this;
    }

    method Register(p: Provider) returns (r: Result<(), Error>)
      requires app.registry == this
      modifies this, app
      ensures app.registry == this
      ensures app.Snapshot() == AfterRegister(old(app.Snapshot()), p).state
      ensures r == AfterRegister(old(app.Snapshot()), p).result
    {
      if p in registered {
        return Ok(());
      }
      registered := registered + {p};
      if p.deferred {
        r := RegisterDeferred(p);
      } else {
        r := RegisterEager(p);
      }
    }

    method RegisterDeferred(p: Provider) returns (r: Result<(), Error>)
      requires app.registry == this
      modifies this, app
      ensures app.registry == this
      ensures app.Snapshot() == AfterDefer(old(app.Snapshot()), p).state
      ensures r == AfterDefer(old(app.Snapshot()), p).result
    {
      var i := 0;
      while i < |p.provided|
        invariant 0 <= i <= |p.provided|
        invariant deferred == DeferAll(old(deferred), p.provided[..i], p)
        invariant Snapshot() == old(Snapshot()).(deferred := deferred)
        modifies this
      {
        assert p.provided[..i + 1][..i] == p.provided[..i];
        deferred := deferred[p.provided[i] := p];
        i := i + 1;
      }
      assert p.provided[..i] == p.provided;
      ghost var s0 := old(app.Snapshot());
      assert app.Snapshot() == s0.(reg := Some(s0.reg.value.(deferred := DeferAll(s0.reg.value.deferred, p.provided, p))));
      r := InterceptDeferred(p);
    }

    method RegisterEager(p: Provider) returns (r: Result<(), Error>)
      requires app.registry == this
      modifies this, app
      ensures app.registry == this
      ensures app.Snapshot() == AfterEager(old(app.Snapshot()), p).state
      ensures r == AfterEager(old(app.Snapshot()), p).result
    {
      app.trace := app.trace + [ProviderRegistered(p.id)];
      r := app.ApplyBinds(p.binds, MaxDepth);
      if r.Err? {
        return;
      }
      eager := eager + [p];
      if booted {
        app.trace := app.trace + [ProviderBooted(p.id)];
      }
      r := Ok(());
    }

    /** `interceptDeferred`: a transient lazy bind for every provided key. */
    method InterceptDeferred(p: Provider) returns (r: Result<(), Error>)
      requires app.registry == this
      modifies this, app
      ensures app.registry == this
      ensures app.Snapshot() == BindAll(old(app.Snapshot()), LazyBinds(p, p.provided), MaxDepth).state
      ensures r == BindAll(old(app.Snapshot()), LazyBinds(p, p.provided), MaxDepth).result
    {
      var ops := LazyBinds(p, p.provided);
      var i := 0;
      while i < |p.provided|
        invariant 0 <= i <= |p.provided|
        invariant app.registry == this
        invariant BindAll(old(app.Snapshot()), ops, MaxDepth) == BindAll(app.Snapshot(), ops[i..], MaxDepth)
      {
        assert ops[i..][0] == ops[i] && ops[i..][1..] == ops[i + 1..];
        var abs := p.provided[i];
        var o := app.BindAt(abs, Lazy(p, abs), false, MaxDepth);
        if o.Err? {
          return o;
        }
        i := i + 1;
      }
      r := Ok(());
    }

    method Boot()
      requires app.registry == this
      modifies this, app
      ensures app.registry == this
      ensures app.Snapshot() == AfterBoot(old(app.Snapshot()))
    {
      if booted {
        return;
      }
      booted := true;
      var fired: seq<Event> := [];
      var i := 0;
      while i < |eager|
        invariant 0 <= i <= |eager|
        invariant fired == BootEvents(eager[..i])
      {
        assert eager[..i + 1][..i] == eager[..i];
        fired := fired + [ProviderBooted(eager[i].id)];
        i := i + 1;
      }
      assert eager[..i] == eager;
      app.trace := app.trace + fired;
    }

    function Booted(): bool
      reads this
    {
      booted
    }

    /** `Providers`: the eager providers, in registration order. */
    function Providers(): seq<Provider>
      reads this
    {
      eager
    }
  }

  /** A provider built on `BaseProvider`: eager, providing nothing, with a
      `Boot` that does nothing beyond being called. */
  function BaseProvider(id: string, binds: seq<BindOp>): (p: Provider)
    ensures p.id == id && !p.deferred && p.provided == [] && p.binds == binds
  {
    Provider(id, false, [], binds)
  }
}
