# go-laravel container and validator, modelled in Dafny

This project models two parts of go-laravel, a Go framework in the style of
Laravel:

- **The service container** (`framework/container`). A container keeps
  bindings, cached instances, aliases, extenders, tags and contextual
  bindings. It resolves a name with `Make`, which looks in the cached
  instances, then the contextual table, then the bindings. Its provider
  registry registers service providers eagerly or lazily (deferred) and
  boots them.
- **The validation engine** (`framework/http/validation`). Pipe-separated
  rule strings are checked field by field. A field stops at its first
  failing rule, and the messages go into an error bag.

The files:

- `wrappers.dfy` (module `Wrappers`): `Option` and `Result`.
- `strings.dfy` (module `Strings`): the parts of Go's `strings` and `strconv`
  packages the validator relies on: `TrimSpace`, `Split`, `Cut`, `Atoi` with
  64-bit clamping, and decimal rendering as `%d` does it. Each comes with
  lemmas that say what it computes.
- `validator.dfy` (module `Validation`): the rules as the pure function
  `RuleVerdict`, and the outcome of one field's rule string as
  `FieldOutcome`. The error bag (`Errors`) and the validator (`Validator`)
  are classes. Their methods are proved against the functions
  `Outcomes`/`AfterFields`.
- `container_spec.dfy` (module `ContainerSpec`): the container and its
  registry as a value (`State`). Every operation is a function on that
  value: `Resolve` is `make`, `RunWith` is `runFactory`, `BindWith` is
  `bind`, `Trigger` is the lazy factory of a deferred provider,
  `AfterRegister` is `Register`, and so on. Lemmas state the container's
  behaviour on those functions.
- `container.dfy` (module `Container`): the classes `Container`,
  `ContextualBuilder` and `ProviderRegistry`, with the Go structs' fields.
  Each method's contract says that its new state (`Snapshot()`) and its
  result are what the matching `ContainerSpec` function gives for the old
  state.

Factories, extenders, callbacks and providers are Go closures and interface
values. Here they are data:

- A factory is `Const(v)`, `Fresh` (a new number on every call), `Nested(deps)`
  (resolves other keys first) or `Lazy(p, key)` (the closure
  `interceptDeferred` installs).
- An extender is a name. Applying it wraps the value: `Wrap(ext, v)`.
- A callback is a number. Firing it appends an event to the container's
  trace.
- A provider is its identity, `IsDeferred()`, `Provides()`, and the list of
  binds its `Register` performs. Its `Register` and `Boot` also record
  events.

Go panics become `Err` results.

A deferred provider is not always quiet. When one of its keys already holds
a non-nil cached instance, `bind` makes that key again at once
(container.go:126-135). That make goes through the lazy factory
`interceptDeferred` has just installed (provider.go:124-126), so the
provider's `Register` runs during its own registration. The model does
this too. `RegisterDeferredQuiet` and `RegisterDeferredInstallsLazy` are
stated only for keys with no cached instance.

## Model

| member | source | states |
|---|---|---|
| Strings.TrimLeftSpec | framework/http/validation/validator.go:80 | the left trim is empty exactly on an all-space string, never starts with a space, and drops only white space |
| Strings.TrimRightSpec | framework/http/validation/validator.go:80 | the right trim is empty exactly on an all-space string, never ends with a space, and drops only white space |
| Strings.TrimSpaceSpec | framework/http/validation/validator.go:80-81 | a trimmed rule is empty exactly when the piece was all white space; otherwise it neither starts nor ends with white space |
| Strings.TrimSpaceIdempotent | framework/http/validation/validator.go:80 | trimming twice equals trimming once |
| Strings.TrimUntouched | framework/http/validation/validator.go:80 | a string with no white space at its ends is left unchanged |
| Strings.Split | framework/http/validation/validator.go:77 | splitting on a separator gives one more piece than there are separators, and no piece contains the separator |
| Strings.JoinSplit | framework/http/validation/validator.go:77 | joining the pieces with the separator gives back the rule string |
| Strings.SplitJoin | framework/http/validation/validator.go:77 | splitting a join of separator-free pieces gives back those pieces |
| Strings.SplitNoSeparator | framework/http/validation/validator.go:77 | a string without the separator is a single piece |
| Strings.SplitPrefix | framework/http/validation/validator.go:77 | a separator-free head and the separator give the head as first piece, followed by the split of the rest |
| Strings.Cut | framework/http/validation/validator.go:86 | the name has no ':'; when found, name + ':' + param is the rule; when not found, the name is the whole rule and the param is empty |
| Strings.CutAt | framework/http/validation/validator.go:86 | a rule cuts at its first ':'; later colons stay in the parameter |
| Strings.Atoi | framework/http/validation/validator.go:140 | the result always lies in the 64-bit range, because out-of-range input clamps as strconv.Atoi does |
| Strings.AtoiCases | framework/http/validation/validator.go:140 | a syntax error (nothing after the sign, or a non-digit before any overflow) gives (0, false); any other error is an overflow and gives the 64-bit bound on the side of the sign; success means the scan of the digits gave a value, which is the result with the sign applied |
| Strings.AtoiOk | framework/http/validation/validator.go:113-117 | Atoi succeeds exactly on an optional sign followed by one or more digits and nothing else, with a value inside the 64-bit range; the result is then the decimal value of the digits with the sign applied |
| Strings.ScanOverflow | framework/http/validation/validator.go:140 | digits whose value leaves 64 bits make the scan report an overflow at that digit, whatever comes after |
| Strings.AtoiOverflowBeforeJunk | framework/http/validation/validator.go:140 | the digits of a number beyond 64 bits followed by anything, junk included, parse as MaxInt64 with an error, not as 0 |
| Strings.AtoiFormatInt | framework/http/validation/validator.go:140-142 | parsing the decimal rendering of any 64-bit integer gives that integer, with no error |
| Strings.FormatNat | framework/http/validation/validator.go:142 | a rendered natural is a non-empty string of digits |
| Strings.FormatIntPlain | framework/http/validation/validator.go:160-166 | a rendered number has no white space at its ends, no ',' and no '\|' |
| Validation.AsciiLower | framework/http/validation/validator.go:119-125 | lower-casing keeps the length |
| Validation.AsciiLowerAt | framework/http/validation/validator.go:119-125 | each upper-case ASCII letter becomes its lower-case letter, and every other character stays |
| Validation.BooleanRule | framework/http/validation/validator.go:119-125 | `boolean` passes exactly when the lower-cased value is one of true, false, 1, 0, yes, no, and otherwise fails with its message; values equal up to case get the same verdict |
| Validation.BooleanExamples | tests/validator_test.go:134-141 | "True" and "False" pass `boolean`, and "maybe" fails it |
| Validation.Errors.constructor | framework/http/validation/validator.go:16-18 | a new bag is empty |
| Validation.Errors.Add | framework/http/validation/validator.go:20-25 | add appends the message to the field's messages (a missing field's messages read as empty) and changes no other field |
| Validation.FirstKept | framework/http/validation/validator.go:31-36 | appending never changes a field's first message; the first message added to a field without messages becomes its first |
| Validation.Validator.Make | framework/http/validation/validator.go:52-58 | the validator holds the data and rules and a fresh, empty bag |
| Validation.Validator.Validate | framework/http/validation/validator.go:74-93 | after one pass, in any field order, the bag is the old bag plus each field's outcome: the first failing rule's message, or nothing |
| Validation.Validator.ValidateField | framework/http/validation/validator.go:75-91 | validating one field adds exactly that field's outcome to the bag |
| Validation.Validator.Fails | framework/http/validation/validator.go:61-64 | the pass is run, and the result is true exactly when the bag has messages |
| Validation.Validator.Passes | framework/http/validation/validator.go:67 | the pass is run, and the result is true exactly when the bag has no messages |
| Validation.Validator.ApplyRule | framework/http/validation/validator.go:96-282 | a rule returns true exactly when its verdict is a pass; a failing rule adds its message to the field; `sometimes` stops silently; nothing else changes |
| Validation.FindListed | framework/http/validation/validator.go:174-181 | the search finds the value exactly when some trimmed entry equals it |
| Validation.Outcomes | framework/http/validation/validator.go:75 | the pass has one outcome per field of the rules |
| Validation.OutcomeAt | framework/http/validation/validator.go:75-91 | the outcome of a field is its rule string's outcome on data[field] |
| Validation.RequiredRule | framework/http/validation/validator.go:98-102 | `required` fails exactly on a value of white space only, empty value included, with the message naming the field |
| Validation.LengthRules | framework/http/validation/validator.go:139-158 | with a well-formed bound n, `min`, `max` and `size` compare the character count with n and render n in the message |
| Validation.MalformedBound | framework/http/validation/validator.go:139-158 | a parameter with a syntax error (empty, a lone sign, or a non-digit before any overflow) reads as 0: `min` always passes, and `max` and `size` pass only the empty value |
| Validation.OverflowBound | framework/http/validation/validator.go:139-151 | a parameter that overflows reads as the 64-bit bound on the side of its sign: a positive one makes `max` pass and `min` fail on any value shorter than MaxInt64 characters (`min` passes exactly when the length is at least MaxInt64, `max` exactly when it is at most MaxInt64); if negative, `min` always passes and `max` and `size` always fail |
| Validation.JunkAfterOverflow | framework/http/validation/validator.go:139-144 | digits beyond 64 bits followed by junk (as in `min:99999999999999999999x`) read as MaxInt64, so `min` fails "abc" |
| Validation.LengthVerdicts | framework/http/validation/validator.go:139-158 | `min`, `max` and `size` pass exactly when the character count is at least, at most, or equal to the bound, and never stop the field |
| Validation.BetweenRule | framework/http/validation/validator.go:160-171 | `between:lo,hi` fails exactly outside the closed range [lo, hi], with both bounds in the message |
| Validation.BetweenWithoutComma | framework/http/validation/validator.go:161-164 | `between` with no comma in its parameter passes whatever the value |
| Validation.ListedJoin | framework/http/validation/validator.go:174-177 | a comma-joined list lists a value exactly when some trimmed entry equals it |
| Validation.InRules | framework/http/validation/validator.go:173-194 | `in` passes exactly on a listed value; `not_in` fails exactly on a listed value |
| Validation.ConfirmedRule | framework/http/validation/validator.go:196-201 | `confirmed` fails exactly when the `_confirmation` field differs; when that field is missing, only the empty value passes |
| Validation.SameDifferent | framework/http/validation/validator.go:203-213 | for the same other field, `same` fails exactly when `different` passes, and `same` passes exactly on equal values |
| Validation.PassiveRules | framework/http/validation/validator.go:240-247 | `sometimes` stops on an empty value and otherwise passes; `nullable`, `string` and unknown rule names always pass |
| Validation.ClassRules | framework/http/validation/validator.go:215-231 | `alpha`, `alpha_num` and `alpha_dash` pass exactly on non-empty values whose every character is in the ASCII class |
| Validation.UrlRule | framework/http/validation/validator.go:133-137 | `url` passes exactly on values that start with `http://` or `https://` |
| Validation.MatchesPlusAll | framework/http/validation/validator.go:215-231 | the matcher of `^[class]+$` accepts exactly the non-empty strings whose every character is in the class, which is what ClassRules states of the three rules |
| Validation.UrlSchemeMatches | framework/http/validation/validator.go:133-137 | the matcher of `^https?://` agrees with the prefix test of UrlRule |
| Validation.IntegerRule | framework/http/validation/validator.go:113-117 | `integer` passes exactly when Atoi reports no error, and otherwise fails with its message; every rendered 64-bit integer passes; "", "3.14" and "abc" fail |
| Validation.RunRulesCons | framework/http/validation/validator.go:79-91 | blank pieces are skipped; a non-blank piece runs its rule, and only a pass lets the next piece run |
| Validation.FirstRuleDecides | framework/http/validation/validator.go:79-91 | the first piece of a rule string decides the field unless it is blank or passes (bail) |
| Validation.ParamAfterFirstColon | framework/http/validation/validator.go:86-88 | a single `name:param` piece runs rule `name` with everything after the first ':' |
| Validation.PlainFirstRule | framework/http/validation/validator.go:86-88 | a first piece without ':' runs that rule with the empty parameter, then the remaining pieces |
| Validation.SometimesFirst | framework/http/validation/validator.go:243-247 | `sometimes\|rest` gives no message for an empty value, and otherwise is decided by rest alone |
| Validation.NullableDoesNotStop | framework/http/validation/validator.go:240-241 | `nullable\|min:n` with n > 0 on a missing field still fails `min`, as the code is written |
| Validation.MinAlone | framework/http/validation/validator.go:139-144 | a missing field fails `min:n` for positive n, with the message that renders n |
| Validation.AtMostOnePerField | framework/http/validation/validator.go:88-90 | a pass adds at most one message per field, only to the fields it validates, after that field's earlier messages |
| Validation.SecondPass | framework/http/validation/validator.go:61-67 | a second pass appends every message of the first again and keeps the set of fields with messages |
| Validation.HasAfterPass | framework/http/validation/validator.go:28 | after a pass, the bag has messages exactly when it had some before or some validated field fails |
| ContainerSpec.ReboundEvents | framework/container/container.go:395-402 | one rebound event per registered callback: the i-th goes to the i-th callback, with the new value |
| ContainerSpec.ResolvedEvents | framework/container/container.go:404-411 | one after-resolving event per registered callback: the i-th goes to the i-th callback, with the key and the value |
| ContainerSpec.BootEvents | framework/container/provider.go:145-147 | one boot event per eager provider, in registration order |
| ContainerSpec.LazyBinds | framework/container/provider.go:121-122 | one transient lazy bind per provided key, the i-th for the i-th key |
| ContainerSpec.ResolveKeeps | framework/container/container.go:238-268 | make never changes aliases, extenders, tags, the contextual table, the callbacks, or the registry's eager list, boot flag and registered set; the trace only grows; a make that does not panic leaves the build stack as it was |
| ContainerSpec.RunWithKeeps | framework/container/container.go:271-294 | runFactory keeps what make keeps, and when the factory does not panic, the pop restores the build stack |
| ContainerSpec.BuildKeeps | framework/container/container.go:274 | calling a factory keeps what make keeps |
| ContainerSpec.ResolveAllKeeps | framework/container/container.go:215-225 | resolving a list of keys keeps what make keeps |
| ContainerSpec.BindWithKeeps | framework/container/container.go:122-136 | bind, including its remake, keeps what make keeps |
| ContainerSpec.BindAllKeeps | framework/container/provider.go:120-133 | a provider's sequence of binds keeps what make keeps |
| ContainerSpec.TriggerKeeps | framework/container/provider.go:123-131 | the lazy trigger keeps what make keeps |
| ContainerSpec.AliasStoresCanonical | framework/container/container.go:142-149 | Alias panics exactly when the two names are equal, and then changes nothing; otherwise the alias resolves to what the name resolved to, and no other name changes |
| ContainerSpec.AliasNotChased | framework/container/container.go:368-373 | aliases are looked up once, not chased: re-aliasing y later leaves an older alias x of y resolving to y |
| ContainerSpec.BindStores | framework/container/container.go:122-136 | with no non-nil cached instance, bind stores the binding under the canonical key, drops the cached instance, and fires nothing |
| ContainerSpec.BindRemakes | framework/container/container.go:126-135 | with a constant factory `Const(v)` and an empty build stack, over a non-nil cached instance, bind makes the name again at once: the after-resolving and then the rebound callbacks see the new, extended value, which is cached only for a singleton |
| ContainerSpec.ResolveConst | framework/container/container.go:258-294 | making a name bound to a constant returns the extended constant, caches it for a singleton, and fires the after-resolving callbacks |
| ContainerSpec.InstanceThenMake | framework/container/container.go:112-119 | Instance drops the binding, caches the value and fires the rebound callbacks; a later make returns that value and changes nothing |
| ContainerSpec.MakeOrder | framework/container/container.go:238-268 | make tries the cached instance first, then the contextual factory for the top of the build stack (run uncached), then the binding, and otherwise panics with an unregistered key |
| ContainerSpec.ContextualNotCached | framework/container/container.go:250-255 | a contextual constant is extended and reported to the callbacks but never cached |
| ContainerSpec.SingletonCached | framework/container/container.go:286-290 | after a singleton is made, making it again returns the same value and changes nothing |
| ContainerSpec.ApplyChainInjective | framework/container/container.go:296-301 | the same extender chain never maps two different values to one |
| ContainerSpec.TransientFreshDiffers | framework/container/container.go:258-267 | a transient binding runs its factory on every make, so two makes of a `Fresh` factory give different values |
| ContainerSpec.ExtendReapplies | framework/container/container.go:183-197 | Extend appends to the chain of the canonical key only; a cached instance is re-wrapped with the whole chain and the rebound callbacks see it; without a cached instance nothing else changes |
| ContainerSpec.ExtendWrapsCachedTwice | framework/container/container.go:190-195 | a cached instance already extended by e1 is wrapped by e1 again, and then by e2 |
| ContainerSpec.TagAppends | framework/container/container.go:205-209 | Tag appends the names to that tag's list and changes no other tag |
| ContainerSpec.ResolveAllLength | framework/container/container.go:215-225 | Tagged returns one value per tagged name when nothing panics |
| ContainerSpec.ResolveAllCached | framework/container/container.go:215-225 | when every tagged name is cached, Tagged returns the cached values in tag order and changes nothing |
| ContainerSpec.ForgetClears | framework/container/container.go:331-337 | after Forget the name is neither bound nor resolved; other keys, the aliases and the extenders stay |
| ContainerSpec.FlushResets | framework/container/container.go:340-349 | Flush empties the bindings, instances, aliases, extenders, tags and contextual table, and keeps the callbacks, the build stack, the trace and the registry |
| ContainerSpec.NewBindsItself | framework/container/container.go:67-80 | a new container has "container" resolved to itself, and after Flush that name is no longer bound |
| ContainerSpec.ResolvedIsBound | framework/container/container.go:308-326 | a resolved name is always bound |
| ContainerSpec.GiveThenLookup | framework/container/contextual.go:23-31 | Give sets the (concrete, needs) entry and changes no other entry and nothing else in the container |
| ContainerSpec.RegisterTwiceIgnored | framework/container/provider.go:94-96 | registering a provider a second time does nothing |
| ContainerSpec.RegisterFrame | framework/container/provider.go:93-115 | Register marks the provider registered and keeps the boot flag, so a second Register changes nothing; an eager provider that registers without a panic joins the eager list, and otherwise the list is unchanged |
| ContainerSpec.RegisterEagerRuns | framework/container/provider.go:108-114 | an eager provider's Register runs right away; when the registry is already booted, its Boot is the last thing that happens |
| ContainerSpec.BootOnce | framework/container/provider.go:140-148 | the first Boot sets the flag and boots the eager providers in order; every later Boot changes nothing |
| ContainerSpec.NewRegistryUnbooted | framework/container/provider.go:82-88 | a new registry is unbooted with no eager providers, so booting it fires nothing |
| ContainerSpec.RegisterDeferredQuiet | framework/container/provider.go:99-106 | when no provided key (after aliasing) holds a cached instance, a deferred provider's Register is not run: the keys are marked deferred, only lazy bindings are added, and nothing fires |
| ContainerSpec.RegisterDeferredInstallsLazy | framework/container/provider.go:119-134 | when no provided key holds a cached instance and the provided keys are distinct after aliasing, each provided key gets a transient lazy binding for that key |
| ContainerSpec.TriggerSkips | framework/container/provider.go:124 | once the provider is registered and the key is no longer deferred, the lazy factory only makes the key |
| ContainerSpec.TriggerRegistersPerKey | framework/container/provider.go:124-126 | while the key is deferred, the lazy factory runs the provider's Register first |
| ContainerSpec.DeferredFirstMake | framework/container/provider.go:119-134 | the first make of a deferred singleton with one extender registers the provider, caches the value extended once, and returns it extended twice (the inner make and the outer runFactory both extend); the deferred marker is gone |
| Container.Container.New | framework/container/container.go:67-80 | a new container is the initial state: empty tables, with "container" bound to itself |
| Container.Container.Bind | framework/container/container.go:90-94 | Bind is a transient bind |
| Container.Container.Singleton | framework/container/container.go:102-106 | Singleton is a singleton bind |
| Container.Container.BindAt | framework/container/container.go:122-136 | the new state and the result are those of bind on the old state |
| Container.Container.Instance | framework/container/container.go:112-119 | the new state is that of Instance on the old state |
| Container.Container.Alias | framework/container/container.go:142-149 | the new state and the result (a panic on a self-alias) are those of Alias on the old state |
| Container.Container.When | framework/container/container.go:159-161 | When returns a fresh builder for this container and the concrete name, with nothing named yet |
| Container.Container.GetContextual | framework/container/container.go:164-173 | a contextual factory is found exactly when the inner table of the concrete name has the needed name, and it is that entry |
| Container.Container.Extend | framework/container/container.go:183-197 | the new state is that of Extend on the old state |
| Container.Container.Tag | framework/container/container.go:205-209 | the new state is that of Tag on the old state |
| Container.Container.Tagged | framework/container/container.go:215-225 | the values of the tagged names resolved in order, stopping at the first panic |
| Container.Container.Make | framework/container/container.go:233-235 | the result and new state are those of make on the old state |
| Container.Container.MakeAt | framework/container/container.go:238-268 | the result and new state are those of make at the given depth |
| Container.Container.RunFactory | framework/container/container.go:271-294 | the result and new state are those of runFactory |
| Container.Container.Complete | framework/container/container.go:276-292 | after a normal return from the factory: pop, extend with the key's chain, cache when singleton, fire the after-resolving callbacks |
| Container.Container.ExtendedValue | framework/container/container.go:279-284 | the value with the key's extender chain applied, or unchanged when the chain is empty |
| Container.Container.ApplyExtenders | framework/container/container.go:296-301 | the extenders applied in order, the last one outermost |
| Container.Container.Call | framework/container/container.go:274 | the factory's result and new state |
| Container.Container.MakeEach | framework/container/container.go:218-224 | the keys resolved one after the other, stopping at the first panic |
| Container.Container.RunLazy | framework/container/provider.go:123-131 | the lazy factory's result and new state |
| Container.Container.ApplyBinds | framework/container/provider.go:120-133 | the binds applied in order, stopping at the first panic |
| Container.Container.Bound | framework/container/container.go:308-315 | true exactly when the canonical key has a binding or an instance |
| Container.Container.Resolved | framework/container/container.go:320-326 | true exactly when the canonical key has an instance |
| Container.Container.Forget | framework/container/container.go:331-337 | the new state is that of Forget on the old state |
| Container.Container.Flush | framework/container/container.go:340-349 | the new state is that of Flush on the old state |
| Container.Container.Bindings | framework/container/container.go:352-365 | every bound or cached key is listed exactly once, the bound keys first |
| Container.Container.Rebinding | framework/container/container.go:380-384 | the callback is appended to the name's rebound list |
| Container.Container.AfterResolving | framework/container/container.go:389-393 | the callback is appended to the after-resolving list |
| Container.Container.FireRebound | framework/container/container.go:395-402 | the name's rebound callbacks fire in order with the value, and nothing else changes |
| Container.Container.FireAfterResolving | framework/container/container.go:404-411 | the after-resolving callbacks fire in order with the key and the value, and nothing else changes |
| Container.ContextualBuilder.constructor | framework/container/contextual.go:9-13 | the builder holds the container and the concrete name, with nothing named yet |
| Container.ContextualBuilder.Needs | framework/container/contextual.go:16-19 | Needs records the needed name and returns the same builder |
| Container.ContextualBuilder.Give | framework/container/contextual.go:23-31 | the container state is that of Give on the old state |
| Container.ContextualBuilder.GiveValue | framework/container/contextual.go:38-40 | GiveValue is Give with a factory that returns the value |
| Container.ProviderRegistry.NewProviderRegistry | framework/container/provider.go:82-88 | the container gets an empty, unbooted registry |
| Container.ProviderRegistry.Register | framework/container/provider.go:93-115 | the container and registry state and the result are those of Register on the old state |
| Container.ProviderRegistry.RegisterDeferred | framework/container/provider.go:99-106 | mark each provided key deferred, then install the lazy bindings |
| Container.ProviderRegistry.RegisterEager | framework/container/provider.go:108-114 | run the provider's Register, add it to the eager list, and boot it when the registry is already booted |
| Container.ProviderRegistry.InterceptDeferred | framework/container/provider.go:119-134 | one transient lazy bind per provided key, in order |
| Container.ProviderRegistry.Boot | framework/container/provider.go:140-148 | the new state is that of Boot on the old state |
| Container.BaseProvider | framework/container/provider.go:60-64 | the default provider is eager, provides nothing, and its Register performs the given binds |

## Left out

- Locks and concurrency. The `sync.RWMutex` discipline and the unlock/relock around the nested `make` calls in `bind` and `Extend` are not modelled; the container is sequential. In Go, `Instance` calls `fireRebound`, which takes the read lock while the write lock is held (container.go:113, 396), so it blocks. `New` calls `Instance` (container.go:78), so it blocks too, and Go never hands out a container. The model gives `Instance`, and therefore `New` and `Initial`, the effect they would have if they did not block. `Container.New` and `NewBindsItself` describe that state, not a behaviour Go shows.
- Panics are `Err` results, and the state a panic leaves behind is the state at the point of the panic. When a factory panics, `runFactory` does not pop the build stack, and the model does not pop it either.
- Nesting depth. Nested resolution is cut off after `MaxDepth` (64) levels with `Err(TooDeep)`. Go has no such bound: it recurses until the stack overflows. A deferred provider whose `Register` does not bind its own key does exactly that, since the lazy factory makes the key again. `Make` always starts at depth 64.
- Closures are data. A factory is `Const`, `Fresh`, `Nested` or `Lazy`. An extender is a name that wraps the value. A callback is a number whose firing is a trace event. A provider's `Register` is its list of binds plus an event, and its `Boot` is an event. Arbitrary Go code in these closures, such as a factory that calls `Flush`, is outside the model.
- The link from a lazy factory to its registry is the container's `registry` field, which `NewProviderRegistry` sets. In Go, the closure captures the registry. The model's registry methods require `app.registry == this`, so a container with two registries is not modelled.
- Provider identity. `BaseProvider`'s methods have pointer receivers (provider.go:62-64), so a provider is a pointer (`&eagerProvider{}`), and the registry's `registered` map compares pointers by identity. The model compares `Provider` values, and `id` stands for the pointer: distinct providers need distinct ids. Two distinct pointers to equal structs are one provider in the model.
- `TypeKey`, `Resolve` and `MustResolve` (container.go:421-445) rely on reflection and generics and are not part of this model.
- `Errors.Has`, `Errors.First`, `ProviderRegistry.Booted` and `ProviderRegistry.Providers` are one-line reads. They are plain functions without contracts of their own. `Validator.Fails`, `Passes`, `FirstKept` and `HasAfterPass` state what they return.
- `BaseProvider`'s `Boot` does nothing, and the model records nothing for it beyond the boot event every provider gets.
- Rules that rest on library code are given as parameters (`Foreign`): `numeric` and the float comparisons of `gt`, `gte`, `lt` and `lte`, where a value that does not parse reads as 0; `email` (RFC 5322 address parsing); and `regex`. Their messages and their place in the rule chain are modelled.
- The order in which `validate` visits fields (Go map order) is left open: `Validate` picks any order, and its contract holds for every order.
- `boolean` lower-cases by ASCII rules only, where Go's `strings.ToLower` covers all of Unicode. The verdict is the same: the only non-ASCII characters that lower to ASCII letters are U+0130 and U+212A, which lower to `i` and `k`. Neither letter occurs in `true`, `false`, `yes` or `no`, so such a value fails either way. The message is modelled.
- `nullable` follows the code: it always passes and does not stop the field. The package documentation and tests/validator_test.go:290-295 expect an empty value to skip the later rules. The model does what the code does (`NullableDoesNotStop`).
- Values are strings of Unicode characters, so `utf8.RuneCountInString` is the string's length. Invalid UTF-8 byte sequences are not modelled.
- HTTP plumbing, routing, configuration and application start-up are not part of this model.
- ContainerSpec.RegisterEagerRuns: states the provider's Register event and, when already booted, its final Boot event. It does not state the whole trace of the binds in between.
- ContainerSpec.TriggerRegistersPerKey: states only that Register runs first, not the full resulting state.
