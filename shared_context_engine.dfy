/**
 * The earlier AlgorithmEngine of SimpleCoinTrading.Core/IAlgorithmEngine.cs:
 * one context, given at construction, is handed to every algorithm it
 * starts; the registry holds runtimes only, and no context is ever
 * disposed. Its AlgorithmRuntime is the same status machine as the one in
 * AlgorithmEngines, which this module reuses.
 */
module SharedContextEngines {
  import opened Common
  import opened AlgorithmEngines

  /**
   * StartAlgorithm's try/catch, on a new runtime: Running if Initialize and
   * Run both return, otherwise Faulted with the error one of them threw.
   */
  method LaunchRuntime(algorithm: Algorithm, initialize: Outcome<()>, run: Outcome<()>)
    returns (r: Outcome<()>, runtime: AlgorithmRuntime)
    ensures fresh(runtime) && runtime.Valid() && runtime.algorithm == algorithm
    ensures r == StartOutcome(initialize, run)
    ensures r.Returned? ==> runtime.marks == [ToRunning] && runtime.status == Running && runtime.lastError == None
    ensures r.Threw? ==>
      runtime.marks == [ToFaulted(r.message)] && runtime.status == Faulted && runtime.lastError == Some(r.message)
  {
    runtime := new AlgorithmRuntime(algorithm);
    r := StartOutcome(initialize, run);
    if r.Threw? {
      runtime.MarkFaulted(r.message);
    } else {
      runtime.MarkRunning();
    }
  }

  class SharedContextEngine {
    /** The context every algorithm is initialised with. */
    const context: object
    var algorithms: map<string, AlgorithmRuntime>
    ghost var calls: seq<Call>
    /** Every runtime this engine has registered. */
    ghost var Repr: set<object>

    /**
     * Every registered runtime is Running under its own name, and every
     * Initialize call so far was given the one shared context.
     */
    ghost predicate Valid()
      reads this, Repr
    {
      && (forall k :: k in algorithms ==>
            algorithms[k] in Repr && algorithms[k].marks == [ToRunning] && algorithms[k].status == Running
            && algorithms[k].lastError == None && algorithms[k].algorithm.name == k)
      && (forall i :: 0 <= i < |calls| && calls[i].InitializeCall? ==> calls[i].context == context)
    }

    constructor(context: object)
      ensures Valid() && this.context == context && algorithms == map[] && calls == []
    {
      this.context := context;
      algorithms := map[];
      calls := [];
      Repr := {};
    }

    /**
     * StartAlgorithm, where `initialize` and `run` are what the algorithm's
     * Initialize and Run do. A name already registered throws and changes
     * nothing. Otherwise Initialize gets the shared context; if both calls
     * return, the new runtime is Running and registered; if one throws, the
     * runtime is Faulted with that error, nothing is registered, and the
     * exception propagates.
     */
    method StartAlgorithm(algorithm: Algorithm, initialize: Outcome<()>, run: Outcome<()>)
      returns (r: Outcome<()>, ghost runtime: AlgorithmRuntime?)
      requires Valid()
      modifies this
      ensures Valid() && old(Repr) <= Repr && fresh(Repr - old(Repr))
      ensures algorithm.name in old(algorithms) ==>
        r == Threw(AlreadyRunning(algorithm.name)) && algorithms == old(algorithms) && calls == old(calls)
      ensures algorithm.name !in old(algorithms) ==>
        && runtime != null && fresh(runtime) && runtime.algorithm == algorithm
        && r == StartOutcome(initialize, run)
        && calls == old(calls) + StartCalls(algorithm, context, initialize)
      ensures algorithm.name !in old(algorithms) && r.Returned? ==>
        algorithms == old(algorithms)[algorithm.name := runtime] && runtime.status == Running
      ensures algorithm.name !in old(algorithms) && r.Threw? ==>
        algorithms == old(algorithms) && runtime.status == Faulted && runtime.lastError == Some(r.message)
    {
      runtime := null;
      if algorithm.name in algorithms {
        return Threw(AlreadyRunning(algorithm.name)), runtime;
      }
      var rt;
      r, rt := LaunchRuntime(algorithm, initialize, run);
      runtime := rt;
      calls := calls + StartCalls(algorithm, context, initialize);
      if r.Threw? {
        return;
      }
      algorithms := algorithms[algorithm.name := rt];
      Repr := Repr + {rt};
    }

    /**
     * StopAlgorithm, where `stop` is what the algorithm's Stop does. An
     * unknown name changes nothing; a known one is unregistered, its Stop
     * called, and its runtime Stopped, or Faulted with the error Stop threw.
     */
    method StopAlgorithm(name: string, stop: Outcome<()>) returns (r: Outcome<()>)
      requires Valid()
      modifies this, if name in algorithms then {algorithms[name]} else {}
      ensures Valid() && Repr == old(Repr) && r == (if name in old(algorithms) then stop else Returned(()))
      ensures name !in old(algorithms) ==> algorithms == old(algorithms) && calls == old(calls)
      ensures name in old(algorithms) ==>
        var rt := old(algorithms)[name];
        && algorithms == old(algorithms) - {name}
        && calls == old(calls) + [StopCall(rt.algorithm)]
        && (stop.Returned? ==> rt.status == Stopped && rt.lastError == None)
        && (stop.Threw? ==> rt.status == Faulted && rt.lastError == Some(stop.message))
    {
      if name !in algorithms {
        return Returned(());
      }
      var rt := algorithms[name];
      algorithms := algorithms - {name};
      calls := calls + [StopCall(rt.algorithm)];
      rt.RunningOnce();
      r := stop;
      if stop.Threw? {
        rt.MarkFaulted(stop.message);
      } else {
        rt.MarkStopped();
      }
    }

    /** RunningAlgorithms: the registered names, each once. */
    method RunningAlgorithms() returns (names: seq<string>)
      ensures forall k :: k in names <==> k in algorithms
      ensures forall i, j :: 0 <= i < j < |names| ==> names[i] != names[j]
    {
      names := Enumerate(algorithms.Keys);
    }

    /** StopAlgorithm as StopAll sees it: the registry loses the name, and nothing else changes. */
    method StopRegistered(name: string, stop: Outcome<()>) returns (r: Outcome<()>)
      requires Valid() && name in algorithms
      modifies this, Repr
      ensures Valid() && Repr == old(Repr) && r == stop && algorithms == old(algorithms) - {name}
    {
      r := StopAlgorithm(name, stop);
    }

    /**
     * StopAll, where `faults` holds the message of every algorithm whose
     * Stop throws. The first such Stop ends the loop and its exception
     * propagates; the registry ends empty exactly when none throws.
     */
    method StopAll(faults: map<string, string>) returns (r: Outcome<()>)
      requires Valid()
      modifies this, Repr
      ensures Valid() && Repr == old(Repr)
      ensures r.Returned? <==> forall k :: k in old(algorithms) ==> k !in faults
      ensures r.Returned? ==> algorithms == map[]
      ensures r.Threw? ==> exists k :: k in old(algorithms) && k !in algorithms && k in faults && r == Threw(faults[k])
      ensures forall k :: k in algorithms ==> k in old(algorithms) && algorithms[k] == old(algorithms)[k]
    {
      var names := Enumerate(algorithms.Keys);
      var i := 0;
      while i < |names|
        invariant 0 <= i <= |names|
        invariant Valid() && Repr == old(Repr)
        invariant forall k :: k in old(algorithms) && k !in algorithms ==> k !in faults
        invariant |algorithms.Keys| == |names| - i
        invariant forall j :: i <= j < |names| ==> names[j] in algorithms
        invariant forall k :: k in algorithms ==> k in old(algorithms) && algorithms[k] == old(algorithms)[k]
      {
        var name := names[i];
        var stop := if name in faults then Threw(faults[name]) else Returned(());
        r := StopRegistered(name, stop);
        if name in faults {
          assert name in old(algorithms) && name !in algorithms && r == Threw(faults[name]);
          return r;
        }
        i := i + 1;
      }
      r := Returned(());
    }
  }
}
