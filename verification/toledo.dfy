/**
  The runtime of the Toledo library: the `SharedContainer` keyed by
  dependency-key identity, and the three memoizing providers
  (`_DependencyProvider`, `_ThrowingDependencyProvider`,
  `_AsyncThrowingDependencyProvider`).

  Everything in the library is `@MainActor`, so operations never overlap
  except at an `await`. The asynchronous `getValue` is therefore split at its
  only `await` into `Begin` (everything before it) and `Finish` (everything
  after it); any other operation may run between the two.
*/
module Toledo {
  import opened Basics
  import Memo

  /** A `DependencyKey` type: its identity (`ObjectIdentifier(key)`) and its static `defaultValue`. */
  datatype Key<V> = Key(id: nat, defaultValue: V)

  /** `SharedContainer`: the values written through its subscript, by key identity. */
  class SharedContainer<V> {
    var values: map<nat, V>

    constructor ()
      ensures values == map[]
    {
      values := map[];
    }

    /** The subscript's getter: the stored value, or the key's default when none was stored. */
    function Get(key: Key<V>): (r: V)
      reads this
      ensures key.id in values ==> r == values[key.id]
      ensures key.id !in values ==> r == key.defaultValue
    {
      if key.id in values then values[key.id] else key.defaultValue
    }

    /** The subscript's setter: only the slot of `key` changes. */
    method Set(key: Key<V>, v: V)
      modifies this
      ensures values == old(values)[key.id := v]
      ensures Get(key) == v
      ensures forall id :: id != key.id ==> (id in values <==> id in old(values))
      ensures forall id :: id != key.id && id in values ==> values[id] == old(values)[id]
    {
      values := values[key.id := v];
    }
  }

  /** The factory a provider runs on a miss: the installed override, or else `V(with: container)`. */
  function Effective<C, V>(provider: Option<nat -> V>, initializer: (C, nat) -> V): (C, nat) -> V {
    match provider
    case Some(p) => (_: C, seed: nat) => p(seed)
    case None => initializer
  }

  /** `_DependencyProvider<V>`. */
  class DependencyProvider<C, V> {
    /** `V(with:)`, the initializer every `Dependency` type declares. */
    const initializer: (C, nat) -> V
    var value: Option<V>
    var provider: Option<nat -> V>

    constructor (initializer: (C, nat) -> V)
      ensures this.initializer == initializer && value == None && provider == None
    {
      this.initializer := initializer;
      value := None;
      provider := None;
    }

    method GetValue(container: C, seed: nat) returns (v: V)
      modifies this
      ensures var step := Memo.Resolve(old(value), Effective(old(provider), initializer), Memo.Call(container, seed));
        value == step.next && v == step.result
      ensures provider == old(provider)
    {
      match value {
        case Some(cached) =>
          return cached;
        case None =>
      }
      var made: V;
      match provider {
        case Some(p) => made := p(seed);
        case None => made := initializer(container, seed);
      }
      value := Some(made);
      v := made;
    }

    method ReplaceProvider(p: nat -> V)
      modifies this
      ensures value == None && provider == Some(p)
    {
      value := None;
      provider := Some(p);
    }
  }

  /** `_ThrowingDependencyProvider<V>`. */
  class ThrowingDependencyProvider<C, V> {
    const initializer: (C, nat) -> Outcome<V>
    var value: Option<V>
    var provider: Option<nat -> Outcome<V>>

    constructor (initializer: (C, nat) -> Outcome<V>)
      ensures this.initializer == initializer && value == None && provider == None
    {
      this.initializer := initializer;
      value := None;
      provider := None;
    }

    method GetValue(container: C, seed: nat) returns (o: Outcome<V>)
      modifies this
      ensures var step := Memo.ResolveFallible(old(value), Effective(old(provider), initializer), Memo.Call(container, seed));
        value == step.next && o == step.result
      ensures provider == old(provider)
    {
      match value {
        case Some(cached) =>
          return Ok(cached);
        case None =>
      }
      var produced: Outcome<V>;
      match provider {
        case Some(p) => produced := p(seed);
        case None => produced := initializer(container, seed);
      }
      match produced {
        case Err(e) =>
          return Err(e);
        case Ok(made) =>
          value := Some(made);
          o := Ok(made);
      }
    }

    method ReplaceProvider(p: nat -> Outcome<V>)
      modifies this
      ensures value == None && provider == Some(p)
    {
      value := None;
      provider := Some(p);
    }
  }

  /** Replacing the provider of a non-failing provider: the next call runs the new override, whatever was cached. */
  lemma ReplaceThenResolve<C, V>(initializer: (C, nat) -> V, p: nat -> V, call: Memo.Call<C>)
    ensures var step := Memo.Resolve(None, Effective(Some(p), initializer), call);
      step.result == p(call.seed) && step.ran
  {
  }

  /** Replacing the provider of a throwing provider: the next call runs the new override. */
  lemma ReplaceThenResolveFallible<C, V>(initializer: (C, nat) -> Outcome<V>, p: nat -> Outcome<V>, call: Memo.Call<C>)
    ensures var step := Memo.ResolveFallible(None, Effective(Some(p), initializer), call);
      step.result == p(call.seed) && step.ran
  {
  }

  // ---------------------------------------------------------------------
  // _AsyncThrowingDependencyProvider

  /**
    The abstract state of an `_AsyncThrowingDependencyProvider`. Every `Task`
    it spawns runs the factory once; `tasks[t]` is the outcome of the t-th
    one, and `task` is the one currently held in `_task`.
  */
  datatype AsyncState<V> = AsyncState(value: Option<V>, provider: Option<nat -> Outcome<V>>, task: Option<nat>, tasks: seq<Outcome<V>>)
  {
    predicate Valid() {
      task.Some? ==> task.value < |tasks|
    }
  }

  /** Where a `getValue` call stands at its `await`: it returned the cached value, or it waits on a task. */
  datatype Begin<V, T> = Cached(value: V) | Awaiting(task: T)

  datatype AsyncStep<V, R> = AsyncStep(next: AsyncState<V>, result: R)

  function EmptyAsync<V>(): AsyncState<V> {
    AsyncState(None, None, None, [])
  }

  /** `getValue` up to its `await`: a hit returns, a held task is joined, otherwise a new task is spawned and held. */
  function AsyncBegin<C, V>(s: AsyncState<V>, initializer: (C, nat) -> Outcome<V>, call: Memo.Call<C>): (r: AsyncStep<V, Begin<V, nat>>)
    requires s.Valid()
    ensures r.next.Valid()
    ensures r.next.value == s.value && r.next.provider == s.provider
    ensures s.tasks <= r.next.tasks && |r.next.tasks| <= |s.tasks| + 1
    ensures r.result.Awaiting? ==> r.next.task == Some(r.result.task)
  {
    if s.value.Some? then AsyncStep(s, Cached(s.value.value))
    else if s.task.Some? then AsyncStep(s, Awaiting(s.task.value))
    else
      var t := |s.tasks|;
      var outcome := Memo.Produce(Effective(s.provider, initializer), call);
      AsyncStep(s.(task := Some(t), tasks := s.tasks + [outcome]), Awaiting(t))
  }

  /** `getValue` after the `await` on task `t`, as written: a success is stored in `_value` unconditionally. */
  function AsyncFinish<V>(s: AsyncState<V>, t: nat): (r: AsyncStep<V, Outcome<V>>)
    requires s.Valid() && t < |s.tasks|
    ensures r.next.Valid()
    ensures r.result == s.tasks[t]
    ensures r.next.value == (if s.tasks[t].Ok? then Some(s.tasks[t].value) else s.value)
    ensures r.next.task == s.task && r.next.tasks == s.tasks && r.next.provider == s.provider
  {
    match s.tasks[t]
    case Ok(v) => AsyncStep(s.(value := Some(v)), Ok(v))
    case Err(e) => AsyncStep(s, Err(e))
  }

  /** `replaceProvider`: forgets the held task and the cached value, installs `p`. */
  function AsyncReplace<V>(s: AsyncState<V>, p: nat -> Outcome<V>): (r: AsyncState<V>)
    ensures r.value == None && r.task == None && r.provider == Some(p) && r.tasks == s.tasks
  {
    s.(value := None, task := None, provider := Some(p))
  }

  /**
    A `getValue` call with nothing else running during its `await`: a hit
    returns the cached value and changes nothing; otherwise the call gets the
    outcome of the held task, or of a task it spawns, and leaves the slot
    `Settled` on that outcome.
  */
  function AsyncGet<C, V>(s: AsyncState<V>, initializer: (C, nat) -> Outcome<V>, call: Memo.Call<C>): (r: AsyncStep<V, Outcome<V>>)
    requires s.Valid()
    ensures r.next.Valid()
    ensures s.tasks <= r.next.tasks && |r.next.tasks| <= |s.tasks| + 1
    ensures s.value.Some? ==> r == AsyncStep(s, Ok(s.value.value))
    ensures s.value.None? && s.task.Some? ==> r.result == s.tasks[s.task.value] && r.next.tasks == s.tasks
    ensures s.value.None? && s.task.None? ==>
      r.result == Memo.Produce(Effective(s.provider, initializer), call) && r.next.tasks == s.tasks + [r.result]
    ensures Settled(r.next, r.result)
  {
    var begun := AsyncBegin(s, initializer, call);
    match begun.result
    case Cached(v) => AsyncStep(begun.next, Ok(v))
    case Awaiting(t) => AsyncFinish(begun.next, t)
  }

  /**
    The slot after a call that got `o`: a success is cached, and a failure is
    held as the outcome of the task held in `_task`, with nothing cached.
  */
  ghost predicate Settled<V>(s: AsyncState<V>, o: Outcome<V>) {
    && s.Valid()
    && (o.Ok? ==> s.value == Some(o.value))
    && (o.Err? ==> s.value.None? && s.task.Some? && s.tasks[s.task.value] == o)
  }

  /** A call on a settled slot gets the outcome it settled on, and changes nothing: no factory runs. */
  lemma SettledGetRepeats<C, V>(s: AsyncState<V>, o: Outcome<V>, initializer: (C, nat) -> Outcome<V>, call: Memo.Call<C>)
    requires Settled(s, o)
    ensures AsyncGet(s, initializer, call) == AsyncStep(s, o)
  {
    if o.Ok? {
      assert AsyncBegin(s, initializer, call).result == Cached(o.value);
    } else {
      assert AsyncBegin(s, initializer, call) == AsyncStep(s, Awaiting(s.task.value));
    }
  }

  /** Callers that reach the `await` one after another, before any of them resumes. */
  function AsyncBeginAll<C, V>(s: AsyncState<V>, initializer: (C, nat) -> Outcome<V>, calls: seq<Memo.Call<C>>): (r: AsyncStep<V, seq<Begin<V, nat>>>)
    requires s.Valid()
    ensures r.next.Valid() && |r.result| == |calls|
    ensures r.next.value == s.value && r.next.provider == s.provider && s.tasks <= r.next.tasks
    decreases |calls|
  {
    if calls == [] then AsyncStep(s, [])
    else
      var first := AsyncBegin(s, initializer, calls[0]);
      var rest := AsyncBeginAll(first.next, initializer, calls[1..]);
      AsyncStep(rest.next, [first.result] + rest.result)
  }

  /** Suspended callers resuming, in order, from their `await`s on the tasks `ts`. */
  function AsyncFinishAll<V>(s: AsyncState<V>, ts: seq<nat>): (r: AsyncStep<V, seq<Outcome<V>>>)
    requires s.Valid() && forall i :: 0 <= i < |ts| ==> ts[i] < |s.tasks|
    ensures r.next.Valid() && |r.result| == |ts|
    ensures r.next.task == s.task && r.next.tasks == s.tasks && r.next.provider == s.provider
    decreases |ts|
  {
    if ts == [] then AsyncStep(s, [])
    else
      var first := AsyncFinish(s, ts[0]);
      var rest := AsyncFinishAll(first.next, ts[1..]);
      AsyncStep(rest.next, [first.result] + rest.result)
  }

  /** The tasks the suspended callers wait on (a cached hit waits on nothing and is given task 0). */
  function Awaited<V>(begins: seq<Begin<V, nat>>): (ts: seq<nat>)
    ensures |ts| == |begins|
    ensures forall i :: 0 <= i < |begins| && begins[i].Awaiting? ==> ts[i] == begins[i].task
  {
    seq(|begins|, i requires 0 <= i < |begins| => if begins[i].Awaiting? then begins[i].task else 0)
  }

  /**
    Consecutive `getValue` calls, each finishing before the next begins. The
    provider memoizes: every call gets the first call's outcome, at most one
    task is spawned, and nothing changes after the first call.
  */
  function AsyncGetAll<C, V>(s: AsyncState<V>, initializer: (C, nat) -> Outcome<V>, calls: seq<Memo.Call<C>>): (r: AsyncStep<V, seq<Outcome<V>>>)
    requires s.Valid()
    ensures r.next.Valid() && |r.result| == |calls|
    ensures s.tasks <= r.next.tasks && |r.next.tasks| <= |s.tasks| + 1
    ensures calls != [] ==> r.next == AsyncGet(s, initializer, calls[0]).next
    ensures forall i :: 0 <= i < |calls| ==> r.result[i] == AsyncGet(s, initializer, calls[0]).result
    ensures s.value.Some? ==> r.next == s && forall i :: 0 <= i < |calls| ==> r.result[i] == Ok(s.value.value)
    decreases |calls|
  {
    if calls == [] then AsyncStep(s, [])
    else
      var first := AsyncGet(s, initializer, calls[0]);
      var rest := AsyncGetAll(first.next, initializer, calls[1..]);
      if calls[1..] != [] then
        SettledGetRepeats(first.next, first.result, initializer, calls[1]);
        AsyncStep(rest.next, [first.result] + rest.result)
      else
        AsyncStep(rest.next, [first.result] + rest.result)
  }

  /**
    Memoization across calls: after a call that got `o`, later calls all get
    `o` without running any factory, and the slot stays as that call left it.
  */
  lemma LaterCallsRepeat<C, V>(s: AsyncState<V>, initializer: (C, nat) -> Outcome<V>, first: Memo.Call<C>, later: seq<Memo.Call<C>>)
    requires s.Valid()
    ensures var done := AsyncGet(s, initializer, first);
      var r := AsyncGetAll(done.next, initializer, later);
      && r.next == done.next
      && forall i :: 0 <= i < |later| ==> r.result[i] == done.result
  {
    var done := AsyncGet(s, initializer, first);
    if later != [] {
      SettledGetRepeats(done.next, done.result, initializer, later[0]);
    }
  }

  /** While a task is held and nothing is cached, every caller joins that task and none spawns another. */
  lemma {:induction false} BeginAllJoins<C, V>(s: AsyncState<V>, initializer: (C, nat) -> Outcome<V>, calls: seq<Memo.Call<C>>)
    requires s.Valid() && s.value.None? && s.task.Some?
    ensures var r := AsyncBeginAll(s, initializer, calls);
      r.next == s && forall i :: 0 <= i < |calls| ==> r.result[i] == Awaiting(s.task.value)
    decreases |calls|
  {
    if calls != [] {
      BeginAllJoins(s, initializer, calls[1..]);
    }
  }

  /**
    Single flight: when callers reach the `await` before any value is cached,
    at most one task is spawned (one when none was held), it runs the factory
    of the first caller, and every caller waits on that same task.
  */
  lemma {:induction false} SingleFlight<C, V>(s: AsyncState<V>, initializer: (C, nat) -> Outcome<V>, calls: seq<Memo.Call<C>>)
    requires s.Valid() && s.value.None? && calls != []
    ensures var r := AsyncBeginAll(s, initializer, calls);
      && r.next.task.Some?
      && (s.task.Some? ==> r.next.task == s.task && r.next.tasks == s.tasks)
      && (s.task.None? ==> r.next.task == Some(|s.tasks|)
                           && r.next.tasks == s.tasks + [Memo.Produce(Effective(s.provider, initializer), calls[0])])
      && forall i :: 0 <= i < |calls| ==> r.result[i] == Awaiting(r.next.task.value)
  {
    var first := AsyncBegin(s, initializer, calls[0]);
    BeginAllJoins(first.next, initializer, calls[1..]);
  }

  /** Callers waiting on the same task all receive its outcome, whatever order they resume in. */
  lemma {:induction false} FinishAllShare<V>(s: AsyncState<V>, t: nat, ts: seq<nat>)
    requires s.Valid() && t < |s.tasks| && forall i :: 0 <= i < |ts| ==> ts[i] == t
    ensures forall i :: 0 <= i < |ts| ==> AsyncFinishAll(s, ts).result[i] == s.tasks[t]
    ensures AsyncFinishAll(s, ts).next.value == (if ts != [] && s.tasks[t].Ok? then Some(s.tasks[t].value) else s.value)
    decreases |ts|
  {
    if ts != [] {
      var first := AsyncFinish(s, t);
      FinishAllShare(first.next, t, ts[1..]);
      var rest := AsyncFinishAll(first.next, ts[1..]);
      assert AsyncFinishAll(s, ts).result == [first.result] + rest.result;
    }
  }

  /**
    The concurrency scenario of the library's tests: callers on a fresh slot
    all reach the `await` before the first completion. The factory runs
    exactly once, and every caller gets that run's outcome.
  */
  lemma ConcurrentCallersAgree<C, V>(s: AsyncState<V>, initializer: (C, nat) -> Outcome<V>, calls: seq<Memo.Call<C>>)
    requires s.Valid() && s.value.None? && s.task.None? && calls != []
    ensures var begun := AsyncBeginAll(s, initializer, calls);
      && (forall i :: 0 <= i < |calls| ==> Awaited(begun.result)[i] == |s.tasks| < |begun.next.tasks|)
      && var done := AsyncFinishAll(begun.next, Awaited(begun.result));
      && |done.next.tasks| == |s.tasks| + 1
      && forall i :: 0 <= i < |calls| ==> done.result[i] == Memo.Produce(Effective(s.provider, initializer), calls[0])
  {
    SingleFlight(s, initializer, calls);
    var begun := AsyncBeginAll(s, initializer, calls);
    FinishAllShare(begun.next, |s.tasks|, Awaited(begun.result));
  }

  /**
    The concurrency scenario, continued: once the callers have resumed, the
    shared outcome is what the slot settled on, so a success is cached and
    every later call gets it without running the factory again.
  */
  lemma ConcurrentSuccessCached<C, V>(s: AsyncState<V>, initializer: (C, nat) -> Outcome<V>, calls: seq<Memo.Call<C>>, later: seq<Memo.Call<C>>)
    requires s.Valid() && s.value.None? && s.task.None? && calls != []
    ensures var o := Memo.Produce(Effective(s.provider, initializer), calls[0]);
      var begun := AsyncBeginAll(s, initializer, calls);
      && (forall i :: 0 <= i < |calls| ==> Awaited(begun.result)[i] < |begun.next.tasks|)
      && var done := AsyncFinishAll(begun.next, Awaited(begun.result));
      && (o.Ok? ==> done.next.value == Some(o.value))
      && Settled(done.next, o)
      && AsyncGetAll(done.next, initializer, later).next == done.next
      && forall i :: 0 <= i < |later| ==> AsyncGetAll(done.next, initializer, later).result[i] == o
  {
    var o := Memo.Produce(Effective(s.provider, initializer), calls[0]);
    SingleFlight(s, initializer, calls);
    var begun := AsyncBeginAll(s, initializer, calls);
    var t := |s.tasks|;
    assert begun.next.tasks[t] == o;
    FinishAllShare(begun.next, t, Awaited(begun.result));
    var done := AsyncFinishAll(begun.next, Awaited(begun.result));
    assert Settled(done.next, o);
    if later != [] {
      SettledGetRepeats(done.next, o, initializer, later[0]);
    }
  }

  /** While the held task failed and nothing is cached, every call gets that failure and nothing changes. */
  lemma {:induction false} GetAllReplaysFailure<C, V>(s: AsyncState<V>, initializer: (C, nat) -> Outcome<V>, calls: seq<Memo.Call<C>>)
    requires s.Valid() && s.value.None? && s.task.Some? && s.tasks[s.task.value].Err?
    ensures var r := AsyncGetAll(s, initializer, calls);
      r.next == s && forall i :: 0 <= i < |calls| ==> r.result[i] == s.tasks[s.task.value]
    decreases |calls|
  {
    if calls != [] {
      GetAllReplaysFailure(s, initializer, calls[1..]);
    }
  }

  /**
    Failure replay: once a call has failed, every later call gets the same
    failure without running any factory, until `replaceProvider` runs.
  */
  lemma FailureReplayed<C, V>(s: AsyncState<V>, initializer: (C, nat) -> Outcome<V>, first: Memo.Call<C>, later: seq<Memo.Call<C>>)
    requires s.Valid()
    requires AsyncGet(s, initializer, first).result.Err?
    ensures var failed := AsyncGet(s, initializer, first);
      var r := AsyncGetAll(failed.next, initializer, later);
      && r.next == failed.next
      && forall i :: 0 <= i < |later| ==> r.result[i] == failed.result
  {
    var failed := AsyncGet(s, initializer, first);
    GetAllReplaysFailure(failed.next, initializer, later);
  }

  /** After `replaceProvider`, a call runs the new override in a new task, whatever was cached or held before. */
  lemma ReplaceThenGet<C, V>(s: AsyncState<V>, initializer: (C, nat) -> Outcome<V>, p: nat -> Outcome<V>, call: Memo.Call<C>)
    requires s.Valid()
    ensures var r := AsyncGet(AsyncReplace(s, p), initializer, call);
      r.result == p(call.seed) && r.next.tasks == s.tasks + [p(call.seed)]
  {
  }

  /**
    Until a failure, the asynchronous provider behaves like the throwing one:
    a call on a slot with nothing cached or held gets the factory's outcome
    and caches it exactly when it is a success.
  */
  lemma FirstGetMatchesThrowing<C, V>(s: AsyncState<V>, initializer: (C, nat) -> Outcome<V>, call: Memo.Call<C>)
    requires s.Valid() && s.value.None? && s.task.None?
    ensures var r := AsyncGet(s, initializer, call);
      var step := Memo.ResolveFallible(None, Effective(s.provider, initializer), call);
      r.result == step.result && r.next.value == step.next
  {
  }

  /**
    As written, a caller that was suspended on a task spawned before
    `replaceProvider` stores that task's value when it resumes, so a call
    that begins after the replacement returns the old factory's value and the
    new override never runs.
  */
  lemma ResumeAfterReplaceKeepsOldValue<C, V>(s: AsyncState<V>, initializer: (C, nat) -> Outcome<V>, p: nat -> Outcome<V>, before: Memo.Call<C>, after: Memo.Call<C>)
    requires s.Valid() && s.value.None? && s.task.None?
    requires Memo.Produce(Effective(s.provider, initializer), before).Ok?
    ensures var begun := AsyncBegin(s, initializer, before);
      var replaced := AsyncReplace(begun.next, p);
      var resumed := AsyncFinish(replaced, begun.result.task);
      var r := AsyncGet(resumed.next, initializer, after);
      && r.result == Memo.Produce(Effective(s.provider, initializer), before)
      && r.next.tasks == s.tasks + [r.result]
  {
  }

  /** A concrete instance: the old factory yields 1, the override 2, and the call after the replacement gets 1. */
  lemma StaleValueExample()
    ensures var initializer: (int, nat) -> Outcome<int> := (_, _) => Ok(1);
      var p: nat -> Outcome<int> := _ => Ok(2);
      var begun := AsyncBegin(EmptyAsync(), initializer, Memo.Call(0, 0));
      var resumed := AsyncFinish(AsyncReplace(begun.next, p), 0);
      AsyncGet(resumed.next, initializer, Memo.Call(0, 1)).result == Ok(1)
  {
  }

  /**
    `getValue` after its `await` on `t`, corrected: the outcome is stored only
    if `t` is still the one held in `_task`.
  */
  function AsyncFinishChecked<V>(s: AsyncState<V>, t: nat): (r: AsyncStep<V, Outcome<V>>)
    requires s.Valid() && t < |s.tasks|
    ensures r.next.Valid()
    ensures r.result == s.tasks[t]
    ensures r.next.task == s.task && r.next.tasks == s.tasks && r.next.provider == s.provider
    ensures s.task != Some(t) ==> r.next == s
  {
    match s.tasks[t]
    case Ok(v) => AsyncStep(if s.task == Some(t) then s.(value := Some(v)) else s, Ok(v))
    case Err(e) => AsyncStep(s, Err(e))
  }

  /** The correction changes nothing for the caller that waits on the held task, hence nothing for uninterrupted calls. */
  lemma FinishCheckedOnHeldTask<V>(s: AsyncState<V>, t: nat)
    requires s.Valid() && s.task == Some(t)
    ensures AsyncFinishChecked(s, t) == AsyncFinish(s, t)
  {
  }

  function AsyncFinishAllChecked<V>(s: AsyncState<V>, ts: seq<nat>): (r: AsyncStep<V, seq<Outcome<V>>>)
    requires s.Valid() && forall i :: 0 <= i < |ts| ==> ts[i] < |s.tasks|
    ensures r.next.Valid() && |r.result| == |ts|
    ensures r.next.task == s.task && r.next.tasks == s.tasks && r.next.provider == s.provider
    decreases |ts|
  {
    if ts == [] then AsyncStep(s, [])
    else
      var first := AsyncFinishChecked(s, ts[0]);
      var rest := AsyncFinishAllChecked(first.next, ts[1..]);
      AsyncStep(rest.next, [first.result] + rest.result)
  }

  /**
    With the correction, callers still suspended on tasks spawned before
    `replaceProvider` get their tasks' outcomes but leave the slot empty, so
    the first call that begins after the replacement runs the new override.
  */
  lemma {:induction false} ReplaceIsolatesOldTasks<C, V>(s: AsyncState<V>, p: nat -> Outcome<V>, olds: seq<nat>, initializer: (C, nat) -> Outcome<V>, call: Memo.Call<C>)
    requires s.Valid() && forall i :: 0 <= i < |olds| ==> olds[i] < |s.tasks|
    ensures var resumed := AsyncFinishAllChecked(AsyncReplace(s, p), olds);
      && resumed.next == AsyncReplace(s, p)
      && (forall i :: 0 <= i < |olds| ==> resumed.result[i] == s.tasks[olds[i]])
      && AsyncGet(resumed.next, initializer, call).result == p(call.seed)
    decreases |olds|
  {
    if olds != [] {
      ReplaceIsolatesOldTasks(s, p, olds[1..], initializer, call);
    }
  }

  /** A Swift `Task`: it runs the factory once, and every `await` of it yields that run's outcome. */
  class Task<V> {
    const outcome: Outcome<V>
    /** Position of this task among those its provider spawned. */
    ghost const serial: nat

    constructor (outcome: Outcome<V>, ghost serial: nat)
      ensures this.outcome == outcome && this.serial == serial
    {
      this.outcome := outcome;
      this.serial := serial;
    }
  }

  function Outcomes<V>(ts: seq<Task<V>>): (r: seq<Outcome<V>>)
    ensures |r| == |ts| && forall i :: 0 <= i < |ts| ==> r[i] == ts[i].outcome
  {
    seq(|ts|, i requires 0 <= i < |ts| => ts[i].outcome)
  }

  /** `_AsyncThrowingDependencyProvider<V>`. */
  class AsyncThrowingDependencyProvider<C, V> {
    const initializer: (C, nat) -> Outcome<V>
    var value: Option<V>
    var provider: Option<nat -> Outcome<V>>
    var task: Option<Task<V>>
    /** Every task this provider has spawned, in order. */
    ghost var spawned: seq<Task<V>>

    ghost predicate Valid()
      reads this
    {
      && (forall i :: 0 <= i < |spawned| ==> spawned[i].serial == i)
      && (task.Some? ==> Spawned(task.value))
    }

    ghost predicate Spawned(t: Task<V>)
      reads this
    {
      t.serial < |spawned| && spawned[t.serial] == t
    }

    ghost function State(): AsyncState<V>
      reads this
    {
      AsyncState(value, provider, if task.Some? then Some(task.value.serial) else None, Outcomes(spawned))
    }

    constructor (initializer: (C, nat) -> Outcome<V>)
      ensures Valid() && this.initializer == initializer && State() == EmptyAsync()
    {
      this.initializer := initializer;
      value := None;
      provider := None;
      task := None;
      spawned := [];
    }

    /** `getValue` up to its `await`. */
    method Begin(container: C, seed: nat) returns (b: Begin<V, Task<V>>)
      requires Valid()
      modifies this
      ensures Valid() && old(spawned) <= spawned
      ensures var r := AsyncBegin(old(State()), initializer, Memo.Call(container, seed));
        && State() == r.next
        && (b.Cached? <==> r.result.Cached?)
        && (b.Cached? ==> b.value == r.result.value)
        && (b.Awaiting? ==> Spawned(b.task) && b.task.serial == r.result.task)
    {
      match value {
        case Some(cached) =>
          return Cached(cached);
        case None =>
      }
      match task {
        case Some(t) =>
          return Awaiting(t);
        case None =>
      }
      var produced: Outcome<V>;
      match provider {
        case Some(p) => produced := p(seed);
        case None => produced := initializer(container, seed);
      }
      var t := new Task(produced, |spawned|);
      task := Some(t);
      spawned := spawned + [t];
      b := Awaiting(t);
      assert Outcomes(spawned) == Outcomes(old(spawned)) + [produced];
    }

    /** `getValue` after its `await` on `t` has produced its outcome. */
    method Finish(t: Task<V>) returns (o: Outcome<V>)
      requires Valid() && Spawned(t)
      modifies this
      ensures Valid() && spawned == old(spawned)
      ensures var r := AsyncFinish(old(State()), t.serial);
        State() == r.next && o == r.result
    {
      o := t.outcome;
      match o {
        case Ok(v) => value := Some(v);
        case Err(_) =>
      }
    }

    /** `getValue` with nothing else running during its `await`. */
    method GetValue(container: C, seed: nat) returns (o: Outcome<V>)
      requires Valid()
      modifies this
      ensures Valid() && old(spawned) <= spawned
      ensures var r := AsyncGet(old(State()), initializer, Memo.Call(container, seed));
        State() == r.next && o == r.result
    {
      var b := Begin(container, seed);
      match b {
        case Cached(v) => o := Ok(v);
        case Awaiting(t) => o := Finish(t);
      }
    }

    method ReplaceProvider(p: nat -> Outcome<V>)
      requires Valid()
      modifies this
      ensures Valid() && spawned == old(spawned)
      ensures State() == AsyncReplace(old(State()), p)
    {
      task := None;
      value := None;
      provider := Some(p);
    }
  }
}
