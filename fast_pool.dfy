/**
 * The library's two components: `Pool`, and the registry behind `fastPool(options)`
 * that keeps one Pool per name.
 *
 * The module's closure state is one `Registry` object: the registry map `_pools`,
 * the array `_pool` that every Pool shares (it lives on `Pool.prototype`), and the
 * world of user code (the fresh-object generator behind the factories and the record
 * of the calls into user code).
 */
module FastPool {
  import opened Wrappers
  import opened PoolState

  /** The two errors `fastPool` throws. */
  datatype Error = MissingName | MissingFactory

  /** The options object as a value: each property may be absent. */
  datatype Settings = Settings(
    name: Option<string>,
    ctor: Option<FnId>,
    createObject: Option<Maker>,
    preAllocate: Option<nat>,
    resetObject: Option<FnId>)

  /** `options.name` is present and truthy, that is, a non-empty string. */
  predicate HasName(o: Settings) {
    o.name.Some? && o.name.value != ""
  }

  /** At least one of `options.ctor` and `options.createObject` is present. */
  predicate HasFactory(o: Settings) {
    o.ctor.Some? || o.createObject.Some?
  }

  /**
   * The validation `fastPool` performs before anything else: the name first, then
   * the factory. `None` means the options are accepted.
   */
  function Validate(options: Option<Settings>): (e: Option<Error>)
    ensures e == Some(MissingName) <==> options.None? || !HasName(options.value)
    ensures e == Some(MissingFactory) <==> options.Some? && HasName(options.value) && !HasFactory(options.value)
    ensures e.None? <==> options.Some? && HasName(options.value) && HasFactory(options.value)
  {
    if options.None? || options.value.name.None? || options.value.name.value == "" then Some(MissingName)
    else if options.value.ctor.None? && options.value.createObject.None? then Some(MissingFactory)
    else None
  }

  /** The factory a new pool receives: the given `createObject`, else a wrapper around `new ctor()`. */
  function ResolvedMaker(o: Settings): (r: Maker)
    requires HasFactory(o)
    ensures o.createObject.Some? ==> r == o.createObject.value
    ensures o.createObject.None? ==> r == Construct(o.ctor.value)
  {
    if o.createObject.Some? then o.createObject.value else Construct(o.ctor.value)
  }

  /** The mutable options object the caller passes to `fastPool`. */
  class Options {
    var name: Option<string>
    var ctor: Option<FnId>
    var createObject: Option<Maker>
    var preAllocate: Option<nat>
    var resetObject: Option<FnId>

    constructor (name: Option<string>, ctor: Option<FnId>, createObject: Option<Maker>,
                 preAllocate: Option<nat>, resetObject: Option<FnId>)
      ensures Fields() == Settings(name, ctor, createObject, preAllocate, resetObject)
    {
      this.name := name;
      this.ctor := ctor;
      this.createObject := createObject;
      this.preAllocate := preAllocate;
      this.resetObject := resetObject;
    }

    function Fields(): Settings
      reads this
    {
      Settings(name, ctor, createObject, preAllocate, resetObject)
    }
  }

  /** The options as `fastPool` sees them, `None` when no options object was passed. */
  function SettingsOf(options: Options?): Option<Settings>
    reads options
  {
    if options == null then None else Some(options.Fields())
  }

  class Registry {
    /** `Pool.prototype._pool`: one array of available objects shared by every Pool. */
    var pool: seq<Obj>
    /** `_pools`: the pool registered under each name. */
    var pools: map<string, Pool>
    /** The object the next call of a factory returns. */
    var next: Obj
    /** Every call into user code, oldest first. */
    ghost var calls: seq<Call>

    ghost function Snapshot(): State
      reads this
    {
      State(pool, next, calls)
    }

    /** Every registered pool works on this registry's shared array. */
    ghost predicate Valid()
      reads this
    {
      && Consistent(Snapshot())
      && forall n | n in pools :: pools[n].registry == this
    }

    /** The state when the library is loaded: no pools, an empty shared array. */
    constructor ()
      ensures Valid()
      ensures pool == [] && pools == map[] && next == 0 && calls == []
    {
      pool := [];
      pools := map[];
      next := 0;
      calls := [];
    }

    /** A call of the factory `maker`; it returns a new object. */
    method Create(maker: Maker) returns (o: Obj)
      requires Valid()
      modifies this
      ensures Valid()
      ensures (Snapshot(), o) == CreateObject(old(Snapshot()), maker)
      ensures pools == old(pools)
    {
      o := next;
      next := next + 1;
      calls := calls + [PoolState.Create(maker, o)];
    }

    /** A call of the reset function `fn` on `o`. */
    method Reset(fn: FnId, o: Obj)
      requires Valid()
      modifies this
      ensures Valid()
      ensures Snapshot() == old(Snapshot()).(calls := old(calls) + [PoolState.Reset(fn, o)])
      ensures pools == old(pools)
    {
      calls := calls + [PoolState.Reset(fn, o)];
    }

    /**
     * `fastPool(options)`: validate, default `preAllocate` to 0, then return the pool
     * registered under the name (topped up to `preAllocate`, its own factory and reset
     * kept) or register a new one. The options object is updated as in the source.
     */
    method FastPool(options: Options?) returns (r: Result<Pool, Error>)
      requires Valid()
      modifies this, options
      ensures Valid()
      // Registered pools are never removed or replaced.
      ensures forall n | n in old(pools) :: n in pools && pools[n] == old(pools)[n]
      // Validation comes first and changes nothing.
      ensures old(Validate(SettingsOf(options))).Some? ==>
        && r == Failure(old(Validate(SettingsOf(options))).value)
        && unchanged(this)
        && (options != null ==> unchanged(options))
      ensures old(Validate(SettingsOf(options))).None? ==>
        options != null &&
        var o := old(options.Fields());
        var name, count := o.name.value, o.preAllocate.GetOr(0);
        && r.Success?
        && r.value.registry == this
        && options.Fields() == o.(preAllocate := Some(count), createObject := options.createObject)
        // A registered name: the same pool, only topped up; the new factory and reset are ignored.
        && (name in old(pools) ==>
              && r.value == old(pools)[name]
              && pools == old(pools)
              && options.createObject == o.createObject
              && Snapshot() == EnsureSize(old(Snapshot()), r.value.createObject, count))
        // A new name: a new pool, registered, built from the resolved factory.
        && (name !in old(pools) ==>
              && fresh(r.value)
              && pools == old(pools)[name := r.value]
              && options.createObject == Some(ResolvedMaker(o))
              && r.value.createObject == ResolvedMaker(o)
              && r.value.resetObject == o.resetObject
              && Snapshot() == PreAllocate(old(Snapshot()), ResolvedMaker(o), count))
    {
      if options == null || options.name.None? || options.name.value == "" {
        return Failure(MissingName);
      }
      if options.ctor.None? && options.createObject.None? {
        return Failure(MissingFactory);
      }
      options.preAllocate := Some(options.preAllocate.GetOr(0));
      var name := options.name.value;
      var step := StepIntended(pools, name);
      if step.ReturnsExisting? {
        step.pool.EnsureSize(options.preAllocate.value);
        return Success(step.pool);
      }
      if options.createObject.None? {
        options.createObject := Some(Construct(options.ctor.value));
      }
      var created := new Pool(this, options);
      pools := pools[name := created];
      return Success(created);
    }
  }

  class Pool {
    /** The registry whose shared array this pool pushes to and pops from. */
    const registry: Registry
    /** `createObject`: the factory. */
    const createObject: Maker
    /** `resetObject`: the optional reset function. */
    const resetObject: Option<FnId>

    /** `new Pool(options)`: take factory and reset from the options, then pre-allocate. */
    constructor (registry: Registry, options: Options)
      requires registry.Valid()
      requires options.createObject.Some? && options.preAllocate.Some?
      modifies registry
      ensures registry.Valid()
      ensures this.registry == registry
      ensures createObject == options.createObject.value && resetObject == options.resetObject
      ensures registry.Snapshot()
           == PoolState.PreAllocate(old(registry.Snapshot()), createObject, options.preAllocate.value)
      ensures registry.pools == old(registry.pools)
    {
      this.registry := registry;
      createObject := options.createObject.value;
      resetObject := options.resetObject;
      new;
      PreAllocate(options.preAllocate.value);
    }

    /** `preAllocate(size)`: create `size` objects and push each one. */
    method PreAllocate(size: nat)
      requires registry.Valid()
      modifies registry
      ensures registry.Valid()
      ensures registry.Snapshot() == PoolState.PreAllocate(old(registry.Snapshot()), createObject, size)
      ensures registry.pools == old(registry.pools)
    {
      var n := size;
      while n != 0
        invariant registry.Valid()
        invariant PoolState.PreAllocate(registry.Snapshot(), createObject, n)
               == PoolState.PreAllocate(old(registry.Snapshot()), createObject, size)
        invariant registry.pools == old(registry.pools)
        decreases n
      {
        n := n - 1;
        var o := registry.Create(createObject);
        registry.pool := registry.pool + [o];
      }
    }

    /** `transfer()`: pop the top of the shared array, or create an object when it is empty. */
    method Transfer() returns (o: Obj)
      requires registry.Valid()
      modifies registry
      ensures registry.Valid()
      ensures (registry.Snapshot(), o) == PoolState.Transfer(old(registry.Snapshot()), createObject)
      ensures registry.pools == old(registry.pools)
    {
      var available := registry.pool;
      if |available| > 0 {
        o := available[|available| - 1];
        registry.pool := available[..|available| - 1];
      } else {
        o := registry.Create(createObject);
      }
    }

    /** `takeBack(o)`: reset `o` when there is a reset function, then push it. */
    method TakeBack(o: Obj)
      requires registry.Valid()
      modifies registry
      ensures registry.Valid()
      ensures registry.Snapshot() == PoolState.TakeBack(old(registry.Snapshot()), resetObject, o)
      ensures registry.pools == old(registry.pools)
    {
      if resetObject.Some? {
        registry.Reset(resetObject.value, o);
      }
      registry.pool := registry.pool + [o];
    }

    /** `ensureSize(size)`: top the shared array up to `size` objects. */
    method EnsureSize(size: int)
      requires registry.Valid()
      modifies registry
      ensures registry.Valid()
      ensures registry.Snapshot() == PoolState.EnsureSize(old(registry.Snapshot()), createObject, size)
      ensures registry.pools == old(registry.pools)
    {
      var diff := size - |registry.pool|;
      if diff > 0 {
        PreAllocate(diff);
      }
    }
  }

  /** The property names every plain JavaScript object inherits from `Object.prototype`. */
  const InheritedKeys: set<string> := {
    "constructor", "hasOwnProperty", "isPrototypeOf", "propertyIsEnumerable",
    "toLocaleString", "toString", "valueOf", "__proto__",
    "__defineGetter__", "__defineSetter__", "__lookupGetter__", "__lookupSetter__"
  }

  /** What `_pools[name]` yields on the plain object `_pools`. */
  datatype Lookup<P> = Own(pool: P) | Inherited | Undefined

  /** What `fastPool` does after validation, given the lookup. */
  datatype Step<P> = ReturnsExisting(pool: P) | RegistersNew | ThrowsTypeError

  /** The registry lookup as written: a property read that also sees inherited properties. */
  function LookupAsWritten<P>(pools: map<string, P>, name: string): (r: Lookup<P>)
    ensures r.Own? <==> name in pools
    ensures r.Own? ==> r.pool == pools[name]
    ensures r == Inherited <==> name !in pools && name in InheritedKeys
  {
    if name in pools then Own(pools[name])
    else if name in InheritedKeys then Inherited
    else Undefined
  }

  /**
   * The registry step as written: anything but `undefined` counts as a registered
   * pool and gets `ensureSize` called on it; an inherited property has no such
   * method, so the call throws a TypeError.
   */
  function StepAsWritten<P>(pools: map<string, P>, name: string): (r: Step<P>)
    ensures r == ThrowsTypeError <==> name !in pools && name in InheritedKeys
    ensures r == RegistersNew <==> name !in pools && name !in InheritedKeys
    ensures r.ReturnsExisting? ==> name in pools && r.pool == pools[name]
  {
    match LookupAsWritten(pools, name)
    case Own(p) => ReturnsExisting(p)
    case Inherited => ThrowsTypeError
    case Undefined => RegistersNew
  }

  /** The registry step as intended, an own-key lookup as `Registry.FastPool` does it. */
  function StepIntended<P>(pools: map<string, P>, name: string): (r: Step<P>)
    ensures r != ThrowsTypeError
    ensures r == RegistersNew <==> name !in pools
    ensures r.ReturnsExisting? ==> name in pools && r.pool == pools[name]
  {
    if name in pools then ReturnsExisting(pools[name]) else RegistersNew
  }

  /** An unregistered name inherited from `Object.prototype` (such as "toString") makes the source throw. */
  lemma InheritedNameThrows<P>(pools: map<string, P>, name: string)
    requires name in InheritedKeys && name !in pools
    ensures StepAsWritten(pools, name) == ThrowsTypeError
    ensures StepIntended(pools, name) == RegistersNew
  {
  }

  /** For every other name the source's lookup and the intended one agree. */
  lemma AsWrittenAgreesElsewhere<P>(pools: map<string, P>, name: string)
    requires name !in InheritedKeys || name in pools
    ensures StepAsWritten(pools, name) == StepIntended(pools, name)
  {
  }
}
