/**
 * The algorithm host: AlgorithmRuntime's status machine, the per-algorithm
 * AlgorithmContext, and AlgorithmEngine, which starts, stops and lists
 * algorithms by name.
 *
 * An algorithm's own Initialize, Run and Stop are code outside the model:
 * each call appears in a ghost log, and whether it returns or throws (and
 * with which message) is a parameter of the engine operation that makes it.
 */
module AlgorithmEngines {
  import opened Common

  datatype AlgorithmStatus = Created | Running | Stopped | Faulted

  /** An algorithm as the engine sees it: the name it registers under, and an identity. */
  datatype Algorithm = Algorithm(name: string, id: nat)

  // ---------------------------------------------------------------------
  // The runtime's status machine, on values
  // ---------------------------------------------------------------------

  datatype RuntimeState = RuntimeState(status: AlgorithmStatus, lastError: Option<string>)

  /** The three ways a runtime is marked. */
  datatype Mark = ToRunning | ToStopped | ToFaulted(error: string)

  /** A new runtime: Created, with no error. */
  const Fresh := RuntimeState(Created, None)

  function Apply(s: RuntimeState, m: Mark): RuntimeState
  {
    match m
    case ToRunning => s.(status := Running)
    case ToStopped => s.(status := Stopped)
    case ToFaulted(e) => RuntimeState(Faulted, Some(e))
  }

  /** The state after the marks, applied in order. */
  function ApplyAll(s: RuntimeState, ms: seq<Mark>): RuntimeState
  {
    if ms == [] then s else Apply(ApplyAll(s, ms[..|ms| - 1]), ms[|ms| - 1])
  }

  /** The error of the last fault among the marks, if there was one. */
  function LastFault(ms: seq<Mark>): Option<string>
  {
    if ms == [] then None
    else if LastFault(ms[1..]).Some? then LastFault(ms[1..])
    else if ms[0].ToFaulted? then Some(ms[0].error)
    else None
  }

  /** The status the mark sets. */
  function StatusOf(m: Mark): AlgorithmStatus
  {
    match m
    case ToRunning => Running
    case ToStopped => Stopped
    case ToFaulted(_) => Faulted
  }

  /**
   * LastError changes only in MarkFaulted: after any marks it is the error
   * of the last fault among them, or the one before them when none
   * faulted; the status is the one the last mark set.
   */
  lemma {:induction false} MarksHistory(s: RuntimeState, ms: seq<Mark>)
    ensures ApplyAll(s, ms).lastError == if LastFault(ms).Some? then LastFault(ms) else s.lastError
    ensures ApplyAll(s, ms).status == if ms == [] then s.status else StatusOf(ms[|ms| - 1])
    decreases |ms|
  {
    if ms != [] {
      var n := |ms| - 1;
      MarksHistory(s, ms[..n]);
      LastFaultSnoc(ms[..n], ms[n]);
      assert ms[..n] + [ms[n]] == ms;
    }
  }

  lemma {:induction false} LastFaultSnoc(ms: seq<Mark>, m: Mark)
    ensures LastFault(ms + [m]) == if m.ToFaulted? then Some(m.error) else LastFault(ms)
    decreases |ms|
  {
    if ms == [] {
      assert ([m])[1..] == [];
    } else {
      assert (ms + [m])[1..] == ms[1..] + [m];
      LastFaultSnoc(ms[1..], m);
    }
  }

  /** A runtime that was never faulted has no error; one whose last mark was a fault carries that fault's error. */
  lemma NeverFaulted(ms: seq<Mark>)
    ensures (forall i :: 0 <= i < |ms| ==> !ms[i].ToFaulted?) ==> ApplyAll(Fresh, ms).lastError == None
    ensures ms != [] && ms[|ms| - 1].ToFaulted? ==>
      ApplyAll(Fresh, ms) == RuntimeState(Faulted, Some(ms[|ms| - 1].error))
  {
    MarksHistory(Fresh, ms);
    if forall i :: 0 <= i < |ms| ==> !ms[i].ToFaulted? {
      NoFault(ms);
    }
  }

  lemma {:induction false} NoFault(ms: seq<Mark>)
    requires forall i :: 0 <= i < |ms| ==> !ms[i].ToFaulted?
    ensures LastFault(ms) == None
    decreases |ms|
  {
    if ms != [] {
      NoFault(ms[1..]);
    }
  }

  // ---------------------------------------------------------------------
  // AlgorithmRuntime
  // ---------------------------------------------------------------------

  class AlgorithmRuntime {
    const algorithm: Algorithm
    var status: AlgorithmStatus
    var lastError: Option<string>
    /** Every mark this runtime has received, oldest first. */
    ghost var marks: seq<Mark>

    function State(): RuntimeState
      reads this
    {
      RuntimeState(status, lastError)
    }

    ghost predicate Valid()
      reads this
    {
      State() == ApplyAll(Fresh, marks)
    }

    constructor(algorithm: Algorithm)
      ensures Valid() && this.algorithm == algorithm && marks == []
      ensures status == Created && lastError == None
    {
      this.algorithm := algorithm;
      status := Created;
      lastError := None;
      marks := [];
    }

    /** A runtime marked Running once, and nothing else, is in the state that one mark gives. */
    lemma RunningOnce()
      requires marks == [ToRunning] && status == Running && lastError == None
      ensures Valid()
    {
    }

    method MarkRunning()
      requires Valid()
      modifies this
      ensures Valid() && marks == old(marks) + [ToRunning]
      ensures status == Running && lastError == old(lastError)
    {
      status := Running;
      marks := marks + [ToRunning];
    }

    method MarkStopped()
      requires Valid()
      modifies this
      ensures Valid() && marks == old(marks) + [ToStopped]
      ensures status == Stopped && lastError == old(lastError)
    {
      status := Stopped;
      marks := marks + [ToStopped];
    }

    method MarkFaulted(error: string)
      requires Valid()
      modifies this
      ensures Valid() && marks == old(marks) + [ToFaulted(error)]
      ensures status == Faulted && lastError == Some(error)
    {
      status := Faulted;
      lastError := Some(error);
      marks := marks + [ToFaulted(error)];
    }
  }

  // ---------------------------------------------------------------------
  // AlgorithmContext (only its identity and its disposal)
  // ---------------------------------------------------------------------

  class AlgorithmContext {
    const algorithmId: string
    var disposed: bool

    constructor(algorithmId: string)
      ensures this.algorithmId == algorithmId && !disposed
    {
      this.algorithmId := algorithmId;
      disposed := false;
    }

    method Dispose()
      modifies this
      ensures disposed
    {
      disposed := true;
    }
  }

  // ---------------------------------------------------------------------
  // AlgorithmEngine
  // ---------------------------------------------------------------------

  /** A call the engine makes into an algorithm. */
  datatype Call = InitializeCall(algorithm: Algorithm, context: object) | RunCall(algorithm: Algorithm) | StopCall(algorithm: Algorithm)

  datatype Registration = Registration(runtime: AlgorithmRuntime, context: AlgorithmContext)

  function AlreadyRunning(name: string): string
  {
    "InvalidOperationException: Algorithm '" + name + "' already running."
  }

  /** What a start that passed the duplicate check returns: Initialize's exception, else Run's outcome. */
  function StartOutcome(initialize: Outcome<()>, run: Outcome<()>): Outcome<()>
  {
    if initialize.Threw? then initialize else run
  }

  /** The calls such a start makes: Initialize, then Run unless Initialize threw. */
  function StartCalls(algorithm: Algorithm, context: object, initialize: Outcome<()>): seq<Call>
  {
    [InitializeCall(algorithm, context)] + if initialize.Returned? then [RunCall(algorithm)] else []
  }

  /**
   * StartAlgorithm's try/catch, on a new runtime and a new context named for
   * the algorithm: if Initialize and Run both return, the runtime is marked
   * Running; if one throws, the runtime is Faulted with that error and the
   * context disposed.
   */
  method Launch(algorithm: Algorithm, initialize: Outcome<()>, run: Outcome<()>)
    returns (r: Outcome<()>, runtime: AlgorithmRuntime, context: AlgorithmContext)
    ensures fresh(runtime) && fresh(context) && runtime.Valid()
    ensures runtime.algorithm == algorithm && context.algorithmId == algorithm.name
    ensures r == StartOutcome(initialize, run)
    ensures r.Returned? ==>
      runtime.marks == [ToRunning] && runtime.status == Running && runtime.lastError == None && !context.disposed
    ensures r.Threw? ==>
      runtime.marks == [ToFaulted(r.message)] && runtime.status == Faulted && runtime.lastError == Some(r.message)
      && context.disposed
  {
    runtime := new AlgorithmRuntime(algorithm);
    context := new AlgorithmContext(algorithm.name);
    r := StartOutcome(initialize, run);
    if r.Threw? {
      runtime.MarkFaulted(r.message);
      context.Dispose();
    } else {
      runtime.MarkRunning();
    }
  }

  class AlgorithmEngine {
    var algorithms: map<string, Registration>
    ghost var calls: seq<Call>
    /** Every runtime and context this engine has registered. */
    ghost var Repr: set<object>

    /** What a registration under `name` holds: a running runtime of that name, with its own live context. */
    ghost predicate Registered(name: string, e: Registration)
      reads e.runtime, e.context
    {
      && e.runtime.marks == [ToRunning] && e.runtime.status == Running && e.runtime.lastError == None
      && e.runtime.algorithm.name == name
      && e.context.algorithmId == name && !e.context.disposed
    }

    /**
     * Every registration is as Registered says. (Registrations under
     * different names share no runtime and no context, since each carries
     * its own name.)
     */
    ghost predicate Valid()
      reads this, Repr
    {
      forall k :: k in algorithms ==>
        algorithms[k].runtime in Repr && algorithms[k].context in Repr && Registered(k, algorithms[k])
    }

    constructor()
      ensures Valid() && algorithms == map[] && calls == []
    {
      algorithms := map[];
      calls := [];
      Repr := {};
    }

    /** The objects the registration under `name` owns. */
    ghost function Footprint(name: string): set<object>
      reads this
    {
      if name in algorithms then {algorithms[name].runtime as object, algorithms[name].context as object} else {}
    }

    /**
     * StartAlgorithm, where `initialize` and `run` are what the algorithm's
     * Initialize and Run do. A name already registered throws and changes
     * nothing. Otherwise a new runtime and a new context named for the
     * algorithm are made; if both calls return, the runtime is Running and
     * registered with that context; if one throws, the runtime is Faulted
     * with that error, the context is disposed, nothing is registered and
     * the exception propagates.
     */
    method StartAlgorithm(algorithm: Algorithm, initialize: Outcome<()>, run: Outcome<()>)
      returns (r: Outcome<()>, ghost runtime: AlgorithmRuntime?, ghost context: AlgorithmContext?)
      requires Valid()
      modifies this
      ensures Valid() && old(Repr) <= Repr && fresh(Repr - old(Repr))
      ensures algorithm.name in old(algorithms) ==>
        r == Threw(AlreadyRunning(algorithm.name)) && algorithms == old(algorithms) && calls == old(calls)
      ensures algorithm.name !in old(algorithms) ==>
        && runtime != null && context != null && fresh(runtime) && fresh(context)
        && runtime.algorithm == algorithm && context.algorithmId == algorithm.name
        && r == StartOutcome(initialize, run)
        && calls == old(calls) + StartCalls(algorithm, context, initialize)
      ensures algorithm.name !in old(algorithms) && r.Returned? ==>
        && algorithms == old(algorithms)[algorithm.name := Registration(runtime, context)]
        && runtime.status == Running && runtime.marks == [ToRunning] && !context.disposed
      ensures algorithm.name !in old(algorithms) && r.Threw? ==>
        && algorithms == old(algorithms)
        && runtime.status == Faulted && runtime.lastError == Some(r.message) && context.disposed
    {
      runtime, context := null, null;
      if algorithm.name in algorithms {
        return Threw(AlreadyRunning(algorithm.name)), runtime, context;
      }
      var rt, ctx;
      r, rt, ctx := Launch(algorithm, initialize, run);
      runtime, context := rt, ctx;
      calls := calls + StartCalls(algorithm, ctx, initialize);
      if r.Threw? {
        return;
      }
      algorithms := algorithms[algorithm.name := Registration(rt, ctx)];
      Repr := Repr + {rt, ctx};
    }

    /**
     * StopAlgorithm, where `stop` is what the algorithm's Stop does. An
     * unknown name changes nothing. A known one is unregistered first and
     * its Stop called; if Stop returns, its context is disposed and its
     * runtime Stopped; if Stop throws, its runtime is Faulted with that
     * error, its context is left as it was, and the exception propagates.
     */
    method StopAlgorithm(name: string, stop: Outcome<()>) returns (r: Outcome<()>)
      requires Valid()
      modifies this, Footprint(name)
      ensures Valid() && Repr == old(Repr)
      ensures name !in old(algorithms) ==> r == Returned(()) && algorithms == old(algorithms) && calls == old(calls)
      ensures name in old(algorithms) ==>
        var e := old(algorithms)[name];
        && algorithms == old(algorithms) - {name} && r == stop
        && calls == old(calls) + [StopCall(e.runtime.algorithm)]
        && (stop.Returned? ==> e.runtime.status == Stopped && e.runtime.lastError == None && e.context.disposed)
        && (stop.Threw? ==> e.runtime.status == Faulted && e.runtime.lastError == Some(stop.message) && !e.context.disposed)
    {
      if name !in algorithms {
        return Returned(());
      }
      var e := algorithms[name];
      algorithms := algorithms - {name};
      calls := calls + [StopCall(e.runtime.algorithm)];
      e.runtime.RunningOnce();
      if stop.Threw? {
        e.runtime.MarkFaulted(stop.message);
        return stop;
      }
      e.context.Dispose();
      e.runtime.MarkStopped();
      r := stop;
    }

    /**
     * Algorithms: the registered runtimes by name; every one of them is
     * Running and carries the name it is listed under.
     */
    function Algorithms(): (r: map<string, AlgorithmRuntime>)
      requires Valid()
      reads this, Repr
      ensures r.Keys == algorithms.Keys
      ensures forall k :: k in r ==> r[k].status == Running && r[k].algorithm.name == k
    {
      map k | k in algorithms :: algorithms[k].runtime
    }

    /** RunningAlgorithms: the registered names, each once. */
    method RunningAlgorithms() returns (names: seq<string>)
      ensures forall k :: k in names <==> k in algorithms
      ensures forall i, j :: 0 <= i < j < |names| ==> names[i] != names[j]
    {
      names := Enumerate(algorithms.Keys);
    }

    /** StopAlgorithm as StopAll sees it: the registry loses the name, and nothing else changes. */
    method StopRegistered(name: string, stop: Outcome<()>) returns (r: Outcome<()>)
      requires Valid() && name in algorithms
      modifies this, Repr
      ensures Valid() && Repr == old(Repr) && r == stop && algorithms == old(algorithms) - {name}
    {
      r := StopAlgorithm(name, stop);
    }

    /**
     * StopAll, where `faults` holds the message of every algorithm whose
     * Stop throws (the others' Stop returns). Names
     * are stopped one by one over a snapshot of the registry; the first
     * Stop that throws ends the loop and its exception propagates. So the
     * registry ends empty exactly when no Stop throws; otherwise what
     * remains is a part of the old registry.
     */
    method StopAll(faults: map<string, string>) returns (r: Outcome<()>)
      requires Valid()
      modifies this, Repr
      ensures Valid() && Repr == old(Repr)
      ensures r.Returned? <==> forall k :: k in old(algorithms) ==> k !in faults
      ensures r.Returned? ==> algorithms == map[]
      ensures r.Threw? ==> exists k :: k in old(algorithms) && k !in algorithms && k in faults && r == Threw(faults[k])
      ensures forall k :: k in algorithms ==> k in old(algorithms) && algorithms[k] == old(algorithms)[k]
    {
      var names := Enumerate(algorithms.Keys);
      var i := 0;
      while i < |names|
        invariant 0 <= i <= |names|
        invariant Valid() && Repr == old(Repr)
        invariant forall k :: k in old(algorithms) && k !in algorithms ==> k !in faults
        invariant |algorithms.Keys| == |names| - i
        invariant forall j :: i <= j < |names| ==> names[j] in algorithms
        invariant forall k :: k in algorithms ==> k in old(algorithms) && algorithms[k] == old(algorithms)[k]
      {
        var name := names[i];
        var stop := if name in faults then Threw(faults[name]) else Returned(());
        r := StopRegistered(name, stop);
        if name in faults {
          assert name in old(algorithms) && name !in algorithms && r == Threw(faults[name]);
          return r;
        }
        i := i + 1;
      }
      r := Returned(());
    }
  }
}
