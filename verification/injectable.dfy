/**
  The runtime of the older Injectable library: the same keyed
  `SharedContainer`, and three providers whose factory is a closure taking
  the container, given at construction and replaceable. The asynchronous
  provider is an `actor` that keeps no task handle: it is re-entered at its
  `await`, so its `getValue` is split there into `Begin` and `Finish`.
*/
module Injectable {
  import opened Basics
  import Memo

  /** A `DependencyKey` type: its identity (`ObjectIdentifier(key)`) and its static `defaultValue`. */
  datatype Key<V> = Key(id: nat, defaultValue: V)

  /** `SharedContainer`: the values written through its subscript, by key identity. */
  class SharedContainer<V> {
    var values: map<nat, V>

    constructor ()
      ensures values == map[]
    {
      values := map[];
    }

    /** The subscript's getter: the stored value, or the key's default when none was stored. */
    function Get(key: Key<V>): (r: V)
      reads this
      ensures key.id in values ==> r == values[key.id]
      ensures key.id !in values ==> r == key.defaultValue
    {
      if key.id in values then values[key.id] else key.defaultValue
    }

    /** The subscript's setter: only the slot of `key` changes. */
    method Set(key: Key<V>, v: V)
      modifies this
      ensures values == old(values)[key.id := v]
      ensures Get(key) == v
      ensures forall id :: id != key.id ==> (id in values <==> id in old(values))
      ensures forall id :: id != key.id && id in values ==> values[id] == old(values)[id]
    {
      values := values[key.id := v];
    }
  }

  /** `_DependencyProvider<V>`. */
  class DependencyProvider<C, V> {
    var value: Option<V>
    var closure: (C, nat) -> V

    constructor (closure: (C, nat) -> V)
      ensures value == None && this.closure == closure
    {
      value := None;
      this.closure := closure;
    }

    method GetValue(container: C, seed: nat) returns (v: V)
      modifies this
      ensures var step := Memo.Resolve(old(value), old(closure), Memo.Call(container, seed));
        value == step.next && v == step.result
      ensures closure == old(closure)
    {
      match value {
        case Some(cached) =>
          return cached;
        case None =>
      }
      var made := closure(container, seed);
      value := Some(made);
      v := made;
    }

    method ReplaceProvider(closure: (C, nat) -> V)
      modifies this
      ensures value == None && this.closure == closure
    {
      value := None;
      this.closure := closure;
    }
  }

  /** `_FailableDependencyProvider<V>`. */
  class FailableDependencyProvider<C, V> {
    var value: Option<V>
    var closure: (C, nat) -> Outcome<V>

    constructor (closure: (C, nat) -> Outcome<V>)
      ensures value == None && this.closure == closure
    {
      value := None;
      this.closure := closure;
    }

    method GetValue(container: C, seed: nat) returns (o: Outcome<V>)
      modifies this
      ensures var step := Memo.ResolveFallible(old(value), old(closure), Memo.Call(container, seed));
        value == step.next && o == step.result
      ensures closure == old(closure)
    {
      match value {
        case Some(cached) =>
          return Ok(cached);
        case None =>
      }
      var produced := closure(container, seed);
      match produced {
        case Err(e) =>
          return Err(e);
        case Ok(made) =>
          value := Some(made);
          o := Ok(made);
      }
    }

    method ReplaceProvider(closure: (C, nat) -> Outcome<V>)
      modifies this
      ensures value == None && this.closure == closure
    {
      value := None;
      this.closure := closure;
    }
  }

  /** Where an actor `getValue` stands at its `await`: it returned the cached value, or it runs the closure. */
  datatype Begin<V> = Cached(value: V) | Running(outcome: Outcome<V>)

  /** `getValue` up to its `await`: a hit returns, a miss starts a run of the closure; the actor's state is untouched. */
  function ActorBegin<C, V>(cached: Option<V>, closure: (C, nat) -> Outcome<V>, call: Memo.Call<C>): Begin<V> {
    match cached
    case Some(v) => Cached(v)
    case None => Running(Memo.Produce(closure, call))
  }

  /** `getValue` after the closure's run produced `o`: a success is stored in `_value` unconditionally. */
  function ActorFinish<V>(cached: Option<V>, o: Outcome<V>): (r: Memo.Step<Option<V>, Outcome<V>>)
    ensures r.result == o
    ensures r.next == if o.Ok? then Some(o.value) else cached
  {
    match o
    case Ok(v) => Memo.Step(Some(v), Ok(v), false)
    case Err(e) => Memo.Step(cached, Err(e), false)
  }

  /** `_AsyncFailableDependencyProvider<V>`, an actor. */
  class AsyncFailableDependencyProvider<C, V> {
    var value: Option<V>
    var closure: (C, nat) -> Outcome<V>

    constructor (closure: (C, nat) -> Outcome<V>)
      ensures value == None && this.closure == closure
    {
      value := None;
      this.closure := closure;
    }

    /** `getValue` up to its `await`. */
    method Begin(container: C, seed: nat) returns (b: Begin<V>)
      ensures b == ActorBegin(value, closure, Memo.Call(container, seed))
    {
      match value {
        case Some(cached) =>
          return Cached(cached);
        case None =>
      }
      b := Running(closure(container, seed));
    }

    /** `getValue` once the closure's run has produced `o`. */
    method Finish(o: Outcome<V>) returns (r: Outcome<V>)
      modifies this
      ensures var step := ActorFinish(old(value), o);
        value == step.next && r == step.result
      ensures closure == old(closure)
    {
      match o {
        case Err(e) =>
          return Err(e);
        case Ok(made) =>
          value := Some(made);
          r := Ok(made);
      }
    }

    /** `getValue` with no other actor call running during its `await`. */
    method GetValue(container: C, seed: nat) returns (o: Outcome<V>)
      modifies this
      ensures var step := Memo.ResolveFallible(old(value), old(closure), Memo.Call(container, seed));
        value == step.next && o == step.result
      ensures closure == old(closure)
    {
      var b := Begin(container, seed);
      match b {
        case Cached(v) =>
          o := Ok(v);
        case Running(outcome) =>
          UninterruptedActorIsFailable(value, closure, Memo.Call(container, seed));
          o := Finish(outcome);
      }
    }

    method ReplaceProvider(closure: (C, nat) -> Outcome<V>)
      modifies this
      ensures value == None && this.closure == closure
    {
      value := None;
      this.closure := closure;
    }
  }

  /**
    A call to the actor that nothing interleaves with behaves exactly like the
    failable provider: failures are not cached and are retried.
  */
  lemma UninterruptedActorIsFailable<C, V>(cached: Option<V>, closure: (C, nat) -> Outcome<V>, call: Memo.Call<C>)
    ensures var step := Memo.ResolveFallible(cached, closure, call);
      match ActorBegin(cached, closure, call)
      case Cached(v) => step == Memo.Step(cached, Ok(v), false)
      case Running(o) => ActorFinish(cached, o).next == step.next && ActorFinish(cached, o).result == step.result
  {
  }

  /** Suspended `getValue` calls resuming in turn with the outcomes `os` of their own closure runs. */
  function ActorFinishAll<V>(cached: Option<V>, os: seq<Outcome<V>>): Memo.Trace<Option<V>, Outcome<V>>
    decreases |os|
  {
    if os == [] then Memo.Trace(cached, [], 0)
    else
      var prev := ActorFinishAll(cached, os[..|os| - 1]);
      var step := ActorFinish(prev.final, os[|os| - 1]);
      Memo.Trace(step.next, prev.results + [step.result], prev.runs + 1)
  }

  /**
    Resuming calls each return their own run's outcome, and the cache ends
    with the value of the last successful run, or as it was if none succeeded.
  */
  lemma FinishAllKeepsLastSuccess<V>(cached: Option<V>, os: seq<Outcome<V>>)
    ensures ActorFinishAll(cached, os).results == os
    ensures ActorFinishAll(cached, os).runs == |os|
    ensures (forall i :: 0 <= i < |os| ==> os[i].Err?) ==> ActorFinishAll(cached, os).final == cached
    ensures forall i :: 0 <= i < |os| && os[i].Ok? && (forall j :: i < j < |os| ==> os[j].Err?) ==>
      ActorFinishAll(cached, os).final == Some(os[i].value)
  {
    FinishAllResults(cached, os);
    FinishAllFailed(cached, os);
    forall i | 0 <= i < |os| && os[i].Ok? && (forall j :: i < j < |os| ==> os[j].Err?)
      ensures ActorFinishAll(cached, os).final == Some(os[i].value)
    {
      FinishAllLastSuccess(cached, os, i);
    }
  }

  /** Each resuming caller returns its own run's outcome. */
  lemma {:induction false} FinishAllResults<V>(cached: Option<V>, os: seq<Outcome<V>>)
    ensures ActorFinishAll(cached, os).results == os
    ensures ActorFinishAll(cached, os).runs == |os|
    decreases |os|
  {
    if os != [] {
      var n := |os| - 1;
      FinishAllResults(cached, os[..n]);
      FinishAllStep(cached, os);
      assert os[..n] + [os[n]] == os;
    }
  }

  /** When every run failed, the cache is as it was. */
  lemma {:induction false} FinishAllFailed<V>(cached: Option<V>, os: seq<Outcome<V>>)
    ensures (forall i :: 0 <= i < |os| ==> os[i].Err?) ==> ActorFinishAll(cached, os).final == cached
    decreases |os|
  {
    if os != [] && forall i :: 0 <= i < |os| ==> os[i].Err? {
      var n := |os| - 1;
      var front := os[..n];
      forall i | 0 <= i < |front| ensures front[i].Err? {
        assert front[i] == os[i];
      }
      FinishAllFailed(cached, front);
      FinishAllStep(cached, os);
    }
  }

  /** The cache ends with the value of run `i` when every later run failed. */
  lemma {:induction false} FinishAllLastSuccess<V>(cached: Option<V>, os: seq<Outcome<V>>, i: nat)
    requires i < |os| && os[i].Ok? && forall j :: i < j < |os| ==> os[j].Err?
    ensures ActorFinishAll(cached, os).final == Some(os[i].value)
    decreases |os|
  {
    var n := |os| - 1;
    FinishAllStep(cached, os);
    if i < n {
      var front := os[..n];
      assert front[i] == os[i];
      forall j | i < j < |front| ensures front[j].Err? {
        assert front[j] == os[j];
      }
      FinishAllLastSuccess(cached, front, i);
    }
  }

  /** One more resuming caller: its outcome is appended, and it replaces the cache exactly when it succeeded. */
  lemma FinishAllStep<V>(cached: Option<V>, os: seq<Outcome<V>>)
    requires os != []
    ensures var prev := ActorFinishAll(cached, os[..|os| - 1]);
      && ActorFinishAll(cached, os).results == prev.results + [os[|os| - 1]]
      && ActorFinishAll(cached, os).runs == prev.runs + 1
      && ActorFinishAll(cached, os).final
        == if os[|os| - 1].Ok? then Some(os[|os| - 1].value) else prev.final
  {
  }

  /**
    No single flight: callers that all reach the `await` before a value is
    cached each run the closure themselves, each gets its own run's outcome,
    and the value left cached is the last successful run's, not the first's.
  */
  lemma InterleavedCallersEachRun<C, V>(closure: (C, nat) -> Outcome<V>, calls: seq<Memo.Call<C>>, os: seq<Outcome<V>>)
    requires |os| == |calls| && forall i :: 0 <= i < |calls| ==> os[i] == Memo.Produce(closure, calls[i])
    ensures forall i :: 0 <= i < |calls| ==> ActorBegin(None, closure, calls[i]) == Running(os[i])
    ensures ActorFinishAll(None, os).results == os && ActorFinishAll(None, os).runs == |calls|
    ensures forall i :: 0 <= i < |os| && os[i].Ok? && (forall j :: i < j < |os| ==> os[j].Err?) ==>
      ActorFinishAll(None, os).final == Some(os[i].value)
  {
    FinishAllKeepsLastSuccess(None, os);
  }

  /**
    A caller suspended while `replaceProvider` runs still stores the old
    closure's value when it resumes, and a call that begins afterwards returns
    that value instead of running the new closure.
  */
  lemma ResumeAfterReplaceKeepsOldValue<C, V>(closure: (C, nat) -> Outcome<V>, replacement: (C, nat) -> Outcome<V>, before: Memo.Call<C>, after: Memo.Call<C>)
    requires Memo.Produce(closure, before).Ok?
    ensures var o := Memo.Produce(closure, before);
      // ActorBegin(None, closure, before) == Running(o); then replaceProvider empties the cache
      var resumed := ActorFinish(None, o);
      ActorBegin(resumed.next, replacement, after) == Cached(o.value)
  {
  }
}
