/**
 * The Autofac ContainerBuilder as the registrars drive it. The builder is
 * observed only through the calls made on it and on the registration
 * builders it hands out: each call is appended to one log, and the calls
 * that configure a component follow the RegisterType call that created it.
 */
module Builder {
  import opened Wrappers
  import opened Runtime
  import opened ConfigurationExtensions

  /** Autofac's TypedService and KeyedService. */
  datatype Service =
    | TypedService(serviceType: TypeRef)
    | KeyedService(serviceKey: string, serviceType: TypeRef)

  /** The four lifetime scopes the configuration grammar can select. */
  datatype InstanceScope = SingleInstance | InstancePerLifetimeScope | InstancePerDependency | InstancePerRequest

  /** The two ownership models the configuration grammar can select. */
  datatype Ownership = OwnedByLifetimeScope | ExternallyOwned

  /** Autofac's PropertyWiringOptions, as passed to PropertiesAutowired. */
  datatype PropertyWiringOptions = NoWiringOptions | AllowCircularDependencies | PreserveSetValues

  /** One call on the container builder or on a registration builder. */
  datatype BuilderCall =
    | RegisterModule(moduleInstance: Obj)
    | RegisterType(implementationType: TypeRef)
    | As(service: Service)
    | WithParameter(parameter: ConfiguredParameter)
    | WithProperty(property: ConfiguredParameter)
    | WithMetadata(key: Option<string>, value: Obj)
    | SetInstanceScope(scope: InstanceScope)
    | SetOwnership(ownership: Ownership)
    | PropertiesAutowired(wiring: PropertyWiringOptions)
    | AutoActivate

  /**
   * What a sequence of steps produced before it stopped, and the exception
   * that stopped it, if one did: the items a lazy enumeration yielded, or
   * the builder calls a registrar made.
   */
  datatype Outcome<T> = Outcome(produced: seq<T>, error: Option<Error>)

  /** Runs `next` only when `first` completed: an exception ends the sequence. */
  function Then<T>(first: Outcome<T>, next: Outcome<T>): Outcome<T> {
    if first.error.Some? then first else Outcome(first.produced + next.produced, next.error)
  }

  /** Calls recorded after `start`: a completed first outcome's, then the next one's. */
  lemma ThenAfter<T>(start: seq<T>, first: Outcome<T>, next: Outcome<T>)
    requires first.error.None?
    ensures start + first.produced + next.produced == start + Then(first, next).produced
    ensures Then(first, next).error == next.error
  {
  }

  /**
   * Applies `step` to each item in order and keeps its results, stopping at
   * the first exception: a foreach over a lazily produced sequence.
   */
  function Collect<S, T>(items: seq<S>, step: S -> Result<T, Error>): (r: Outcome<T>)
    ensures |r.produced| <= |items|
    ensures forall i :: 0 <= i < |r.produced| ==> step(items[i]) == Success(r.produced[i])
    ensures r.error.None? ==> |r.produced| == |items|
    ensures r.error.Some? ==> |r.produced| < |items| && step(items[|r.produced|]) == Failure(r.error.value)
    decreases |items|
  {
    if items == [] then Outcome([], None)
    else
      var prefix := Collect(items[..|items| - 1], step);
      if prefix.error.Some? then prefix
      else
        match step(items[|items| - 1])
        case Success(t) => Outcome(prefix.produced + [t], None)
        case Failure(e) => Outcome(prefix.produced, Some(e))
  }

  /** Once a prefix of the items has failed, the later items are never reached. */
  lemma {:induction false} CollectStopsAtFailure<S, T>(items: seq<S>, step: S -> Result<T, Error>, k: nat)
    requires k <= |items| && Collect(items[..k], step).error.Some?
    ensures Collect(items, step) == Collect(items[..k], step)
    decreases |items|
  {
    if k < |items| {
      var init := items[..|items| - 1];
      assert init[..k] == items[..k];
      CollectStopsAtFailure(init, step, k);
    } else {
      assert items[..k] == items;
    }
  }

  /** Runs the steps in order; the first that throws ends the run. */
  function RunSteps<T>(steps: seq<Outcome<T>>): Outcome<T>
    decreases |steps|
  {
    if steps == [] then Outcome([], None)
    else Then(RunSteps(steps[..|steps| - 1]), steps[|steps| - 1])
  }

  /** One more step after a run that completed: its items follow, its exception ends the run. */
  lemma RunStepsNext<T>(steps: seq<Outcome<T>>, k: nat)
    requires k < |steps| && RunSteps(steps[..k]).error.None?
    ensures RunSteps(steps[..k + 1]) == Outcome(RunSteps(steps[..k]).produced + steps[k].produced, steps[k].error)
  {
    assert steps[..k + 1][..k] == steps[..k];
  }

  /** The same, for calls appended after `start`. */
  lemma RunStepsNextAfter<T>(steps: seq<Outcome<T>>, k: nat, start: seq<T>)
    requires k < |steps| && RunSteps(steps[..k]).error.None?
    ensures start + RunSteps(steps[..k + 1]).produced == start + RunSteps(steps[..k]).produced + steps[k].produced
    ensures RunSteps(steps[..k + 1]).error == steps[k].error
  {
    RunStepsNext(steps, k);
  }

  /** Once a step has thrown, the later steps are never run. */
  lemma {:induction false} RunStepsStopsAtFailure<T>(steps: seq<Outcome<T>>, k: nat)
    requires k <= |steps| && RunSteps(steps[..k]).error.Some?
    ensures RunSteps(steps) == RunSteps(steps[..k])
    decreases |steps|
  {
    if k < |steps| {
      var init := steps[..|steps| - 1];
      assert init[..k] == steps[..k];
      RunStepsStopsAtFailure(init, k);
    } else {
      assert steps[..k] == steps;
    }
  }

  /** A run that completed had no step that threw. */
  lemma {:induction false} RunStepsCompleted<T>(steps: seq<Outcome<T>>)
    requires RunSteps(steps).error.None?
    ensures forall k :: 0 <= k < |steps| ==> steps[k].error.None?
    decreases |steps|
  {
    if steps != [] {
      var init := steps[..|steps| - 1];
      RunStepsCompleted(init);
      forall k | 0 <= k < |steps|
        ensures steps[k].error.None?
      {
        if k < |steps| - 1 {
          assert steps[k] == init[k];
        }
      }
    }
  }

  /** A property every step's items have is had by every item of the run. */
  lemma {:induction false} RunStepsKeeps<T>(steps: seq<Outcome<T>>, p: T -> bool)
    requires forall k, i :: 0 <= k < |steps| && 0 <= i < |steps[k].produced| ==> p(steps[k].produced[i])
    ensures forall i :: 0 <= i < |RunSteps(steps).produced| ==> p(RunSteps(steps).produced[i])
    decreases |steps|
  {
    if steps != [] {
      var n := |steps| - 1;
      var init := steps[..n];
      RunStepsKeeps(init, p);
      var prefix := RunSteps(init);
      if prefix.error.None? {
        var all := prefix.produced + steps[n].produced;
        forall i | 0 <= i < |all|
          ensures p(all[i])
        {
          if i >= |prefix.produced| {
            assert all[i] == steps[n].produced[i - |prefix.produced|];
          }
        }
      }
    }
  }

  /** The container builder, as the log of calls made on it so far. */
  class ContainerBuilder {
    var calls: seq<BuilderCall>

    constructor()
      ensures calls == []
    {
      calls := [];
    }

    method Record(call: BuilderCall)
      modifies this
      ensures calls == old(calls) + [call]
    {
      calls := calls + [call];
    }

    /** A foreach whose body makes one call per item: each item's call in turn, until one item throws. */
    method RecordEach<S>(items: seq<S>, step: S -> Result<BuilderCall, Error>) returns (r: Option<Error>)
      modifies this
      ensures calls == old(calls) + Collect(items, step).produced
      ensures r == Collect(items, step).error
    {
      var i := 0;
      while i < |items|
        invariant 0 <= i <= |items|
        invariant Collect(items[..i], step).error.None?
        invariant calls == old(calls) + Collect(items[..i], step).produced
      {
        assert items[..i + 1][..i] == items[..i];
        match step(items[i])
        case Failure(e) =>
          CollectStopsAtFailure(items, step, i + 1);
          return Some(e);
        case Success(call) =>
          Record(call);
        i := i + 1;
      }
      assert items[..i] == items;
      return None;
    }
  }
}
