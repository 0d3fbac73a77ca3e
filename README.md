# fast-pool, modelled in Dafny

fast-pool is a small JavaScript object pool. `fastPool(options)` returns the pool registered
under `options.name`, or creates, pre-allocates and registers one. A `Pool` hands objects out
with `transfer()`. It takes them back with `takeBack(o)`, first running the optional
`resetObject`. It grows with `preAllocate(n)` and `ensureSize(size)`.

This project models that logic (`src/fast-pool.js`) in four modules:

- `Wrappers` (`wrappers.dfy`): `Option` and `Result`.
- `PoolState` (`pool_state.dfy`): the state the pools work on, as a value. Each Pool
  operation is a function on that value, and lemmas state what each operation promises.
- `FastPool` (`fast_pool.dfy`): the source's objects as classes. `Registry` is the
  library's closure state: the registry map `_pools`, the object array, the generator of new
  objects, and a ghost record of every call into user code. `Pool` has the four Pool methods.
  `Options` is the mutable options object. `Registry.FastPool` is `fastPool`, with the
  own-key registry lookup (the corrected behaviour, see Findings). The `ensures` of
  the Pool methods, of `Registry.Create` and of the success branches of `Registry.FastPool`
  tie the new state to the `PoolState` function of the old state.
- `Scenarios` (`scenarios.dfy`): the cases of the library's own test suite and its documented
  usage, written as client code. They are proved from the contracts of the other modules.

How the source's behaviour is represented:

- **One shared array.** The source declares the array `_pool` on `Pool.prototype`
  (`src/fast-pool.js:69`). The constructor never gives an instance its own array. So every
  pool pushes to and pops from the SAME array, and the model keeps it that way: the array is
  the field `Registry.pool`, and every `Pool` reaches it through its `registry`. The practical
  effects are proved. An object one pool takes back is the next object another pool transfers
  (`PoolState.TakeBackThenTransfer`, `Scenarios.SharedArray`). `ensureSize` and the hit path of
  `fastPool` measure the shared array, not a per-pool one.
- **Objects and user code.** Objects are opaque serials (`Obj = nat`). User callables are
  known only by identity (`FnId`). A pool's factory is a `Maker`: either the given
  `createObject`, or the wrapper that runs `new ctor()`. A factory call returns the next
  serial, one that no earlier creation returned, and is recorded as `Create(maker, obj)`. A reset is recorded as
  `Reset(fn, obj)`. This makes "calls `createObject` exactly n times", "returns an object no
  earlier creation returned" and "resets `o` exactly once" statable.
- **Errors.** The two `throw`s of `fastPool` become `Failure(MissingName)` and
  `Failure(MissingFactory)`. Truthiness is modelled on typed values. A name is truthy when it
  is present and non-empty. A callable is truthy when present. `preAllocate || 0` is
  `GetOr(0)`.
- **`preAllocate` sizes** are `nat`. `while (size--)` never stops for a negative, fractional
  or infinite count.
  `ensureSize` takes any `int`, since a negative or small size is a no-op there.

Further facts about the code that the model keeps:

- Every Pool shares one array (`src/fast-pool.js:69`).
- Both `ctor` and `createObject` may be given, and then `createObject` wins
  (`src/fast-pool.js:221`, `:234`).
- The code throws a plain `Error` with a message; the model names the two errors.

## Model

| member | source | states |
|---|---|---|
| PoolState.CreateObject | src/fast-pool.js:78 | one factory call leaves the array alone, records exactly one creation by the pool's factory, and keeps the state consistent with a never-before-created result |
| PoolState.PreAllocate | src/fast-pool.js:76-80 | `preAllocate(size)` grows the array by exactly `size`, keeps its old contents as a prefix, and adds exactly `size` calls after the old ones |
| PoolState.Transfer | src/fast-pool.js:88-91 | `transfer()` leaves a prefix of the array, one shorter (or empty when it was empty), returns an available object or the next new one, and only adds calls |
| PoolState.TakeBack | src/fast-pool.js:99-104 | `takeBack(o)` pushes `o`, creates nothing, and adds at most one call after the old ones |
| PoolState.EnsureSize | src/fast-pool.js:111-116 | after `ensureSize(size)` the array holds at least `size` objects with the old ones as a prefix, and nothing changes when it already did |
| PoolState.PreAllocateEffect | src/fast-pool.js:76-80 | closed form of `preAllocate(n)`: the array gains the next `n` serials in order, the serial counter advances by `n`, and `n` creations by the pool's factory are recorded |
| PoolState.PreAllocateAppends | src/fast-pool.js:76-80 | `preAllocate(n)` grows the array by exactly `n` and keeps its old prefix. It makes exactly `n` calls, all to the pool's factory, and pushes exactly what those calls returned, in call order |
| PoolState.PreAllocateFresh | src/fast-pool.js:76-80 | the objects `preAllocate` pushes are pairwise distinct and none was created before; the freshness invariant is kept |
| PoolState.TransferNonEmpty | src/fast-pool.js:88-91 | on a non-empty array `transfer()` returns the last element, removes exactly that one, and runs no user code |
| PoolState.TransferEmpty | src/fast-pool.js:88-91 | on an empty array `transfer()` calls the factory exactly once, returns a never-before-created object, and leaves the array empty |
| PoolState.TakeBackPushes | src/fast-pool.js:99-104 | `takeBack(o)` appends `o` and leaves the rest unchanged. It runs one reset, on `o`, when a reset function is present, and none otherwise |
| PoolState.TakeBackThenTransfer | src/fast-pool.js:88-104 | `takeBack(o)` then `transfer()` returns `o`, restores the array, and creates nothing, whichever pools the two calls go through |
| PoolState.EnsureSizeLength | src/fast-pool.js:111-116 | after `ensureSize(size)` the array length is `max(old length, size)`, the old contents are a prefix, the old calls are kept, and exactly one call of the pool's factory was added per added object, returning that object, in order |
| PoolState.EnsureSizeNoOp | src/fast-pool.js:111-116 | `ensureSize(size)` changes nothing when the array already holds `size` objects |
| PoolState.EnsureSizeIdempotent | src/fast-pool.js:111-116 | calling `ensureSize(size)` twice equals calling it once |
| PoolState.EnsureSizeFresh | src/fast-pool.js:111-116 | `ensureSize` keeps the freshness invariant and adds only new objects |
| FastPool.Validate | src/fast-pool.js:217-223 | options are rejected with MissingName exactly when absent or unnamed (or named ""). They are rejected with MissingFactory exactly when named but without `ctor` and `createObject`. They are accepted exactly otherwise |
| FastPool.ResolvedMaker | src/fast-pool.js:234-237 | a new pool's factory is the given `createObject` when there is one, and otherwise the wrapper that constructs with `ctor` |
| FastPool.LookupAsWritten | src/fast-pool.js:227 | `_pools[name]` on a plain object: an own entry exactly for registered names, an inherited property exactly for unregistered names of `Object.prototype`, `undefined` otherwise |
| FastPool.StepAsWritten | src/fast-pool.js:227-232 | the registry step as written: it throws a TypeError exactly for unregistered inherited names, registers exactly for other unregistered names, and returns the registered pool otherwise |
| FastPool.StepIntended | src/fast-pool.js:227-232 | the registry step by own key: a registered name gives back its pool, any other name registers a new one, nothing throws |
| FastPool.InheritedNameThrows | src/fast-pool.js:227-230 | for an unregistered name inherited from `Object.prototype`, the lookup as written throws a TypeError, where the intended lookup registers a new pool |
| FastPool.AsWrittenAgreesElsewhere | src/fast-pool.js:227-232 | for every other name, the as-written and intended registry steps coincide |
| FastPool.Registry.constructor | src/fast-pool.js:125 | the library starts with an empty registry, an empty shared array, and no calls into user code |
| FastPool.Registry.Create | src/fast-pool.js:78 | one factory call returns a new object, and it is recorded |
| FastPool.Registry.Reset | src/fast-pool.js:101 | one reset call on `o` is recorded, and nothing else changes |
| FastPool.Registry.FastPool | src/fast-pool.js:215-242 | with the own-key lookup (the corrected behaviour, see Findings): validation runs first; on error the registry and options are unchanged. On a hit the same pool comes back, topped up by `ensureSize(preAllocate or 0)`, with its factory and reset kept. On a miss a fresh pool with the resolved factory is registered and pre-allocated. No key is ever removed or replaced. The options object is updated as in the source |
| FastPool.Pool.constructor | src/fast-pool.js:40-44 | the pool takes its factory and reset from the options, then pre-allocates `options.preAllocate` objects into the shared array |
| FastPool.Pool.PreAllocate | src/fast-pool.js:76-80 | the countdown loop has exactly the effect of `PoolState.PreAllocate` on the shared state, and the registry map is untouched |
| FastPool.Pool.Transfer | src/fast-pool.js:88-91 | the new shared state and the returned object are those of `PoolState.Transfer` |
| FastPool.Pool.TakeBack | src/fast-pool.js:99-104 | the new shared state is that of `PoolState.TakeBack` |
| FastPool.Pool.EnsureSize | src/fast-pool.js:111-116 | the new shared state is that of `PoolState.EnsureSize` |
| Scenarios.RejectsIncompleteOptions | test/fast-pool-spec.js:5-42 | no options, no name, or an empty name gives MissingName. A name without a factory gives MissingFactory, even when that name is already registered |
| Scenarios.SameNameSamePool | test/fast-pool-spec.js:74-90 | two calls with one name return the identical pool, and the second `createObject` is ignored |
| Scenarios.FactoryResolution | test/fast-pool-spec.js:97-115 | a given `createObject` becomes the pool's factory. With only `ctor`, both the pool and the options object get the constructing wrapper |
| Scenarios.PreAllocatedTransfers | src/fast-pool.js:76-91 | with `preAllocate: 2`, two transfers give distinct objects and empty the array, and a third transfer returns a new, third object |
| Scenarios.SharedArray | src/fast-pool.js:69-104 | an object taken back by pool "a" is the next object transferred by pool "b" |

## Left out

- The UMD wrapper (`src/fast-pool.js:14-25`). It only chooses how the function is exported.
- What `new ctor()`, `createObject` and `resetObject` do. They are user code: a factory call
  is modelled as "returns a new object", and a reset call as a recorded event.
- Exceptions thrown by user code. A throwing factory or reset is not modelled; the source
  lets it propagate without recovering.
- JavaScript's dynamic typing. Non-string names, non-function `createObject` values (the test
  suite passes strings), and non-integer or negative `preAllocate` counts are not modelled.
  Options are typed, and counts are `nat`. A negative or fractional `preAllocate` makes
  `while (size--)` loop forever in the source (an absent count stops at once, since `NaN` is
  falsy).
- Object identity of caller-supplied objects. `takeBack(o)` accepts any serial, including one
  the generator has not reached yet. So the model does not rule out a later creation returning
  an object equal to one the caller handed back. Freshness in the model means only that no
  earlier creation returned the object, not that it differs from every object in the array or
  held by the caller (in JavaScript a new object is never `===` an existing one).
- The late binding of the `ctor` wrapper (`src/fast-pool.js:235-237`). The wrapper reads
  `options.ctor` at each call, so reassigning `options.ctor` after registration changes what
  the pool builds. The model fixes `Construct(ctor)` once, at registration, and does not
  capture this aliasing between the options object and the pool.
- The prototype defaults `createObject: null` and `resetObject: null`
  (`src/fast-pool.js:55`, `:62`). No constructed Pool ever sees them: every constructed Pool
  shadows them with own properties (`:41-42`).
- The test suite's `deep.equal` comparison. The model proves the stronger identity of the
  two handles.
- The build and test-runner configuration (Gruntfile.js, karma.conf.js). It holds no library
  logic.

## Findings

| source | as written | input that shows it | evidently intended | confidence | as-written member | corrected member |
|---|---|---|---|---|---|---|
| src/fast-pool.js:125, 227-230 | `_pools` is a plain object, so `_pools[options.name]` also finds properties inherited from `Object.prototype`. Any value other than `undefined` is taken for a registered pool, and calling `ensureSize` on it throws a TypeError | `fastPool({name: 'toString', createObject: f})` on a registry without "toString" (also "constructor", "__proto__", and the other inherited names) | every non-empty name can be registered; only the registry's own keys count | not executed; high (standard property-lookup semantics) | FastPool.InheritedNameThrows (about FastPool.StepAsWritten) | FastPool.StepIntended, used by FastPool.Registry.FastPool |
