/**
  The cache discipline shared by the synchronous providers of both runtime
  libraries: `getValue` returns the cached value when there is one, and
  otherwise runs the factory once and caches what it returns. The fallible
  variant caches successes only.

  A factory is a total function of the container it is handed and of a
  `seed`, the state of the environment when it runs (what makes two runs of
  the same factory differ, e.g. a freshly drawn identifier).
*/
module Memo {
  import opened Basics

  /** One `getValue` call: the container passed in and the environment at the call. */
  datatype Call<C> = Call(container: C, seed: nat)

  /** One provider operation: the new cache, what the caller gets, and whether the factory ran. */
  datatype Step<S, R> = Step(next: S, result: R, ran: bool)

  /** A run of consecutive calls: the final cache, each caller's result in order, and how many times the factory ran. */
  datatype Trace<S, R> = Trace(final: S, results: seq<R>, runs: nat)

  function Produce<C, V>(factory: (C, nat) -> V, call: Call<C>): V {
    factory(call.container, call.seed)
  }

  /** `getValue` of a non-failing provider, on the cache `cached`. */
  function Resolve<C, V>(cached: Option<V>, factory: (C, nat) -> V, call: Call<C>): (r: Step<Option<V>, V>)
    ensures r.next == Some(r.result)
    ensures r.ran <==> cached.None?
  {
    match cached
    case Some(v) => Step(cached, v, false)
    case None =>
      var v := Produce(factory, call);
      Step(Some(v), v, true)
  }

  /** `getValue` of a failable provider: a thrown error leaves the cache as it was. */
  function ResolveFallible<C, V>(cached: Option<V>, factory: (C, nat) -> Outcome<V>, call: Call<C>): (r: Step<Option<V>, Outcome<V>>)
    ensures r.result.Ok? ==> r.next == Some(r.result.value)
    ensures r.result.Err? ==> r.next == cached == None
    ensures r.ran <==> cached.None?
  {
    match cached
    case Some(v) => Step(cached, Ok(v), false)
    case None =>
      match Produce(factory, call)
      case Ok(v) => Step(Some(v), Ok(v), true)
      case Err(e) => Step(None, Err(e), true)
  }

  /** Consecutive `getValue` calls of a non-failing provider. */
  function ResolveAll<C, V>(cached: Option<V>, factory: (C, nat) -> V, calls: seq<Call<C>>): Trace<Option<V>, V>
    decreases |calls|
  {
    if calls == [] then Trace(cached, [], 0)
    else
      var first := Resolve(cached, factory, calls[0]);
      var rest := ResolveAll(first.next, factory, calls[1..]);
      Trace(rest.final, [first.result] + rest.results, rest.runs + if first.ran then 1 else 0)
  }

  /** Consecutive `getValue` calls of a failable provider. */
  function ResolveAllFallible<C, V>(cached: Option<V>, factory: (C, nat) -> Outcome<V>, calls: seq<Call<C>>): Trace<Option<V>, Outcome<V>>
    decreases |calls|
  {
    if calls == [] then Trace(cached, [], 0)
    else
      var first := ResolveFallible(cached, factory, calls[0]);
      var rest := ResolveAllFallible(first.next, factory, calls[1..]);
      Trace(rest.final, [first.result] + rest.results, rest.runs + if first.ran then 1 else 0)
  }

  /** The index of the first call whose factory run succeeds, or `|calls|` when none does. */
  function FirstSuccess<C, V>(factory: (C, nat) -> Outcome<V>, calls: seq<Call<C>>): (k: nat)
    ensures k <= |calls|
    ensures forall i :: 0 <= i < k ==> Produce(factory, calls[i]).Err?
    ensures k < |calls| ==> Produce(factory, calls[k]).Ok?
    decreases |calls|
  {
    if calls == [] then 0
    else if Produce(factory, calls[0]).Ok? then 0
    else 1 + FirstSuccess(factory, calls[1..])
  }

  /** Once a value is cached, every later call returns it and the factory never runs. */
  lemma {:induction false} ResolveAllFromCache<C, V>(v: V, factory: (C, nat) -> V, calls: seq<Call<C>>)
    ensures ResolveAll(Some(v), factory, calls) == Trace(Some(v), seq(|calls|, _ => v), 0)
    decreases |calls|
  {
    if calls != [] {
      ResolveAllFromCache(v, factory, calls[1..]);
    }
  }

  /**
    Idempotent memoization: however many consecutive calls are made, the
    factory runs at most once (exactly once when the cache starts empty) and
    every caller gets the same value, which stays cached.
  */
  lemma {:induction false} ResolveAllAgree<C, V>(cached: Option<V>, factory: (C, nat) -> V, calls: seq<Call<C>>)
    requires calls != []
    ensures var t := ResolveAll(cached, factory, calls);
      && |t.results| == |calls|
      && (forall i :: 0 <= i < |calls| ==> t.results[i] == t.results[0])
      && t.final == Some(t.results[0])
      && t.runs == (if cached.None? then 1 else 0)
      && t.results[0] == (if cached.Some? then cached.value else Produce(factory, calls[0]))
  {
    var first := Resolve(cached, factory, calls[0]);
    ResolveAllFromCache(first.result, factory, calls[1..]);
  }

  /** Once a value is cached, a failable provider returns it to every later call without running the factory. */
  lemma {:induction false} ResolveAllFallibleFromCache<C, V>(v: V, factory: (C, nat) -> Outcome<V>, calls: seq<Call<C>>)
    ensures ResolveAllFallible(Some(v), factory, calls) == Trace(Some(v), seq(|calls|, _ => Ok(v)), 0)
    decreases |calls|
  {
    if calls != [] {
      ResolveAllFallibleFromCache(v, factory, calls[1..]);
    }
  }

  /**
    Failures are never cached: starting from an empty cache, every call runs
    the factory and reports its own failure until the first success; that
    success is cached and returned to every later call, so the factory runs
    exactly once per failed call plus once for the success.
  */
  lemma {:induction false} FallibleRetriesUntilSuccess<C, V>(factory: (C, nat) -> Outcome<V>, calls: seq<Call<C>>)
    ensures var t := ResolveAllFallible(None, factory, calls);
      var k := FirstSuccess(factory, calls);
      && |t.results| == |calls|
      && t.runs == (if k < |calls| then k + 1 else |calls|)
      && (forall i :: 0 <= i < k ==> t.results[i] == Produce(factory, calls[i]))
      && (forall i :: k <= i < |calls| ==> t.results[i] == Produce(factory, calls[k]))
      && t.final == (if k < |calls| then Some(Produce(factory, calls[k]).value) else None)
    decreases |calls|
  {
    if calls != [] {
      var first := ResolveFallible(None, factory, calls[0]);
      match Produce(factory, calls[0])
      case Ok(v) =>
        ResolveAllFallibleFromCache(v, factory, calls[1..]);
      case Err(_) =>
        FallibleRetriesUntilSuccess(factory, calls[1..]);
        var t := ResolveAllFallible(None, factory, calls);
        var t' := ResolveAllFallible(None, factory, calls[1..]);
        var k := FirstSuccess(factory, calls);
        assert k == 1 + FirstSuccess(factory, calls[1..]);
        forall i | 1 <= i < |calls| ensures t.results[i] == t'.results[i - 1] && calls[i] == calls[1..][i - 1] { }
    }
  }
}
