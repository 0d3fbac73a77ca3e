/**
 * The state every Pool of the library works on, as a value, and the effect of
 * each Pool operation on it.
 *
 * The source declares the object array `_pool` on `Pool.prototype` and never
 * gives an instance its own, so there is ONE array, shared by all pools. A
 * State therefore holds that one array, the generator of fresh objects behind
 * `createObject`, and the record of every call into user code.
 */
module PoolState {
  import opened Wrappers

  /** An object handed out by a pool. Objects are opaque; a created one is identified by a serial. */
  type Obj = nat

  /** A user-supplied callable (`ctor`, `createObject` or `resetObject`), known only by identity. */
  type FnId = nat

  /** How a pool creates objects: the user's own `createObject`, or a wrapper running `new ctor()`. */
  datatype Maker = Given(fn: FnId) | Construct(ctor: FnId)

  /** A call into user code: a creation that returned `obj`, or a reset of `obj`. */
  datatype Call = Create(maker: Maker, obj: Obj) | Reset(fn: FnId, obj: Obj)

  /**
   * `pool`: the shared array of available objects, used as a stack (its end is the top);
   * `next`: the object the next creation returns;
   * `calls`: every call into user code so far, oldest first.
   */
  datatype State = State(pool: seq<Obj>, next: Obj, calls: seq<Call>)

  /** Every object created so far is below `next`, so the next creation is new. */
  predicate Consistent(s: State) {
    forall i | 0 <= i < |s.calls| :: s.calls[i].Create? ==> s.calls[i].obj < s.next
  }

  /** `o` was returned by some earlier creation. */
  predicate CreatedBefore(s: State, o: Obj) {
    exists i | 0 <= i < |s.calls| :: s.calls[i].Create? && s.calls[i].obj == o
  }

  /** One call of the pool's factory: it returns a new object and is recorded. */
  function CreateObject(s: State, m: Maker): (r: (State, Obj))
    ensures r.0.pool == s.pool
    ensures r.0.calls == s.calls + [Create(m, r.1)]
    ensures Consistent(s) ==> Consistent(r.0) && !CreatedBefore(s, r.1)
  {
    (s.(next := s.next + 1, calls := s.calls + [Create(m, s.next)]), s.next)
  }

  /** `preAllocate(size)`: `size` times, create an object and push it. */
  function PreAllocate(s: State, m: Maker, size: nat): (r: State)
    ensures |r.pool| == |s.pool| + size && r.pool[..|s.pool|] == s.pool
    ensures |r.calls| == |s.calls| + size && r.calls[..|s.calls|] == s.calls
    decreases size
  {
    if size == 0 then s
    else
      var (s', o) := CreateObject(s, m);
      PreAllocate(s'.(pool := s'.pool + [o]), m, size - 1)
  }

  /** `transfer()`: pop the top object, or create one when the array is empty. */
  function Transfer(s: State, m: Maker): (r: (State, Obj))
    ensures r.0.pool <= s.pool && |r.0.pool| == if |s.pool| > 0 then |s.pool| - 1 else 0
    ensures r.1 in s.pool || r.1 == s.next
    ensures s.calls <= r.0.calls
  {
    if |s.pool| > 0 then (s.(pool := s.pool[..|s.pool| - 1]), s.pool[|s.pool| - 1])
    else CreateObject(s, m)
  }

  /** `takeBack(o)`: reset `o` when the pool has a reset function, then push it. */
  function TakeBack(s: State, reset: Option<FnId>, o: Obj): (r: State)
    ensures r.pool == s.pool + [o] && r.next == s.next
    ensures s.calls <= r.calls && |r.calls| <= |s.calls| + 1
  {
    var s' := if reset.Some? then s.(calls := s.calls + [Reset(reset.value, o)]) else s;
    s'.(pool := s'.pool + [o])
  }

  /** `ensureSize(size)`: pre-allocate the difference when the array is shorter than `size`. */
  function EnsureSize(s: State, m: Maker, size: int): (r: State)
    ensures |r.pool| >= size && |r.pool| >= |s.pool| && r.pool[..|s.pool|] == s.pool
    ensures |s.pool| >= size ==> r == s
  {
    var diff := size - |s.pool|;
    if diff > 0 then PreAllocate(s, m, diff) else s
  }

  /** The `n` consecutive serials starting at `from`. */
  function Serials(from: nat, n: nat): seq<Obj> {
    seq(n, i requires 0 <= i < n => from + i)
  }

  /** The record of `n` creations by `m` that returned the serials starting at `from`. */
  function Creations(m: Maker, from: nat, n: nat): seq<Call> {
    seq(n, i requires 0 <= i < n => Create(m, from + i))
  }

  function Max(a: int, b: int): int {
    if a < b then b else a
  }

  /** The closed form of `preAllocate`: `n` new serials pushed, `n` creations recorded. */
  lemma {:induction false} PreAllocateEffect(s: State, m: Maker, n: nat)
    ensures PreAllocate(s, m, n)
         == State(s.pool + Serials(s.next, n), s.next + n, s.calls + Creations(m, s.next, n))
    decreases n
  {
    if n > 0 {
      var s1 := State(s.pool + [s.next], s.next + 1, s.calls + [Create(m, s.next)]);
      PreAllocateEffect(s1, m, n - 1);
      assert [s.next] + Serials(s.next + 1, n - 1) == Serials(s.next, n);
      assert [Create(m, s.next)] + Creations(m, s.next + 1, n - 1) == Creations(m, s.next, n);
    }
  }

  /**
   * `preAllocate(n)` grows the array by exactly `n`, keeps what was there, calls the
   * factory exactly `n` times and nothing else, and pushes exactly what those calls
   * returned, in order.
   */
  lemma PreAllocateAppends(s: State, m: Maker, n: nat)
    ensures var r := PreAllocate(s, m, n);
      && |r.pool| == |s.pool| + n
      && r.pool[..|s.pool|] == s.pool
      && |r.calls| == |s.calls| + n
      && r.calls[..|s.calls|] == s.calls
      && forall k | |s.calls| <= k < |r.calls| :: r.calls[k] == Create(m, r.pool[k - |s.calls| + |s.pool|])
  {
    PreAllocateEffect(s, m, n);
  }

  /**
   * The objects `preAllocate(n)` pushes are pairwise distinct and none of them was
   * created before; the state stays consistent.
   */
  lemma PreAllocateFresh(s: State, m: Maker, n: nat)
    requires Consistent(s)
    ensures var r := PreAllocate(s, m, n);
      && Consistent(r)
      && (forall j, k | |s.pool| <= j < k < |r.pool| :: r.pool[j] != r.pool[k])
      && (forall k | |s.pool| <= k < |r.pool| :: !CreatedBefore(s, r.pool[k]))
  {
    PreAllocateEffect(s, m, n);
  }

  /** `transfer()` on a non-empty array hands out its top and calls no user code. */
  lemma TransferNonEmpty(s: State, m: Maker)
    requires |s.pool| > 0
    ensures var (r, o) := Transfer(s, m);
      && o == s.pool[|s.pool| - 1]
      && r.pool + [o] == s.pool
      && r.calls == s.calls && r.next == s.next
  {
  }

  /**
   * `transfer()` on an empty array calls the factory exactly once, returns a new
   * object and leaves the array empty.
   */
  lemma TransferEmpty(s: State, m: Maker)
    requires s.pool == [] && Consistent(s)
    ensures var (r, o) := Transfer(s, m);
      && r.pool == []
      && r.calls == s.calls + [Create(m, o)]
      && !CreatedBefore(s, o)
      && Consistent(r)
  {
  }

  /**
   * `takeBack(o)` pushes `o`, and calls the reset function exactly once, on `o`,
   * when there is one; no other user code runs.
   */
  lemma TakeBackPushes(s: State, reset: Option<FnId>, o: Obj)
    ensures var r := TakeBack(s, reset, o);
      && r.pool == s.pool + [o]
      && r.next == s.next
      && r.calls[..|s.calls|] == s.calls
      && |r.calls| == |s.calls| + (if reset.Some? then 1 else 0)
      && (reset.Some? ==> r.calls[|s.calls|] == Reset(reset.value, o))
      && (Consistent(s) ==> Consistent(r))
  {
  }

  /**
   * `takeBack(o)` immediately followed by `transfer()` returns `o` and restores the
   * array, whichever pools the two calls go through (they share the array).
   */
  lemma TakeBackThenTransfer(s: State, reset: Option<FnId>, o: Obj, m: Maker)
    ensures var (r, o') := Transfer(TakeBack(s, reset, o), m);
      && o' == o
      && r.pool == s.pool
      && r.next == s.next
      && r.calls == TakeBack(s, reset, o).calls
  {
    assert (s.pool + [o])[..|s.pool|] == s.pool;
  }

  /**
   * After `ensureSize(size)` the array holds `max(old length, size)` objects, the old
   * ones unchanged below the new ones; the factory ran once per added object.
   */
  lemma EnsureSizeLength(s: State, m: Maker, size: int)
    ensures var r := EnsureSize(s, m, size);
      && |r.pool| == Max(|s.pool|, size)
      && r.pool[..|s.pool|] == s.pool
      && |r.calls| == |s.calls| + (|r.pool| - |s.pool|)
      && r.calls[..|s.calls|] == s.calls
      && forall k | |s.calls| <= k < |r.calls| :: r.calls[k] == Create(m, r.pool[k - |s.calls| + |s.pool|])
  {
    if size - |s.pool| > 0 {
      PreAllocateAppends(s, m, size - |s.pool|);
    }
  }

  /** `ensureSize(size)` is a no-op when the array already holds `size` objects. */
  lemma EnsureSizeNoOp(s: State, m: Maker, size: int)
    requires |s.pool| >= size
    ensures EnsureSize(s, m, size) == s
  {
  }

  /** Calling `ensureSize(size)` twice has the effect of calling it once. */
  lemma EnsureSizeIdempotent(s: State, m: Maker, size: int)
    ensures EnsureSize(EnsureSize(s, m, size), m, size) == EnsureSize(s, m, size)
  {
    EnsureSizeLength(s, m, size);
  }

  /** `ensureSize` keeps the state consistent and adds only new objects. */
  lemma EnsureSizeFresh(s: State, m: Maker, size: int)
    requires Consistent(s)
    ensures var r := EnsureSize(s, m, size);
      && Consistent(r)
      && (forall k | |s.pool| <= k < |r.pool| :: !CreatedBefore(s, r.pool[k]))
  {
    if size - |s.pool| > 0 {
      PreAllocateFresh(s, m, size - |s.pool|);
    }
  }
}
