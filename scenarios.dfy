/**
 * The cases of the library's own test suite, and its documented usage, as client
 * code proved against the contracts of `Registry` and `Pool` alone.
 */
module Scenarios {
  import opened Wrappers
  import opened PoolState
  import opened FastPool

  /**
   * No options, options without a name, and a name without `ctor` or `createObject`
   * are rejected; the factory check fires even for a name already registered.
   */
  method RejectsIncompleteOptions() returns (noOptions: Error, noName: Error, emptyName: Error, noFactory: Error, noFactoryKnownName: Error)
    ensures noOptions == MissingName && noName == MissingName && emptyName == MissingName
    ensures noFactory == MissingFactory && noFactoryKnownName == MissingFactory
  {
    var registry := new Registry();
    var r := registry.FastPool(null);
    noOptions := r.error;
    var nameless := new Options(None, None, Some(Given(1)), None, None);
    r := registry.FastPool(nameless);
    noName := r.error;
    var empty := new Options(Some(""), Some(1), None, None, None);
    r := registry.FastPool(empty);
    emptyName := r.error;
    var bare := new Options(Some("test"), None, None, None, None);
    r := registry.FastPool(bare);
    noFactory := r.error;
    var full := new Options(Some("test"), Some(1), None, None, None);
    r := registry.FastPool(full);
    assert r.Success?;
    var again := new Options(Some("test"), None, None, None, None);
    r := registry.FastPool(again);
    noFactoryKnownName := r.error;
  }

  /**
   * Two calls with one name return the identical pool; the second call's
   * `createObject` is ignored.
   */
  method SameNameSamePool() returns (identical: bool, kept: Maker)
    ensures identical && kept == Given(1)
  {
    var registry := new Registry();
    var first := new Options(Some("test_1"), None, Some(Given(1)), None, None);
    var r1 := registry.FastPool(first);
    var second := new Options(Some("test_1"), None, Some(Given(2)), None, None);
    var r2 := registry.FastPool(second);
    identical := r1.value == r2.value;
    kept := r2.value.createObject;
  }

  /**
   * A given `createObject` becomes the pool's factory; with only `ctor`, the options
   * and the pool receive a wrapper that constructs with `ctor`.
   */
  method FactoryResolution() returns (given: Maker, wrapped: Maker, written: Option<Maker>)
    ensures given == Given(5) && wrapped == Construct(7) && written == Some(Construct(7))
  {
    var registry := new Registry();
    var withFactory := new Options(Some("__name_1__"), None, Some(Given(5)), None, None);
    var r := registry.FastPool(withFactory);
    given := r.value.createObject;
    var withCtor := new Options(Some("__name_2__"), Some(7), None, None, None);
    r := registry.FastPool(withCtor);
    wrapped := r.value.createObject;
    written := withCtor.createObject;
  }

  /**
   * A pool pre-allocated with two objects hands out two distinct objects and is then
   * empty; a third transfer creates a new object.
   */
  method PreAllocatedTransfers() returns (x: Obj, y: Obj, z: Obj, left: nat)
    ensures x != y && z != x && z != y && left == 0
  {
    var registry := new Registry();
    var options := new Options(Some("a"), None, Some(Given(0)), Some(2), None);
    var r := registry.FastPool(options);
    var pool := r.value;
    PreAllocateEffect(State([], 0, []), Given(0), 2);
    x := pool.Transfer();
    y := pool.Transfer();
    left := |registry.pool|;
    z := pool.Transfer();
  }

  /**
   * Pools of different names share one array: an object taken back by one pool
   * is the next one another pool transfers.
   */
  method SharedArray() returns (given: Obj, received: Obj)
    ensures received == given
  {
    var registry := new Registry();
    var optionsA := new Options(Some("a"), None, Some(Given(1)), None, Some(3));
    var ra := registry.FastPool(optionsA);
    var optionsB := new Options(Some("b"), None, Some(Given(2)), None, None);
    var rb := registry.FastPool(optionsB);
    given := ra.value.Transfer();
    ra.value.TakeBack(given);
    received := rb.value.Transfer();
  }
}
