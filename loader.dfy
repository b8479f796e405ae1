/**
 * The once-loader: the compiler library is delay-loaded, and it can be loaded and globally
 * initialised only once per process. The first caller decides; every caller, including later
 * ones that pass a different path, observes that first result for the rest of the process.
 */
module Loader {

  import opened Options

  /** A call into the native compiler library, as recorded in the process's call log. */
  datatype NativeCall = LoadLibrary(path: string) | GlobalInitialize(initializeCommandLine: bool)

  /** The function-local static `loaded_path`: not yet initialised, or set once to its result. */
  datatype LoadState = Uninit | Done(loadedPath: Option<string>)

  /** What one call of the once-loader does: the state after it, what it returns, the native calls it makes. */
  datatype Outcome = Outcome(next: LoadState, result: Option<string>, calls: seq<NativeCall>)

  /** What a sequence of calls does: the final state, what each call returned, all native calls made. */
  datatype RunOutcome = RunOutcome(next: LoadState, results: seq<Option<string>>, calls: seq<NativeCall>)

  /** The native calls of one load-and-initialise attempt: global initialisation only after a load that succeeded. */
  function InitCalls(loads: string -> bool, path: string): seq<NativeCall>
  {
    [LoadLibrary(path)] + if loads(path) then [GlobalInitialize(false)] else []
  }

  /** The result of one load-and-initialise attempt: the path on success, nothing on failure. */
  function InitResult(loads: string -> bool, path: string): Option<string>
  {
    if loads(path) then Some(path) else None
  }

  /** One call of the once-loader from state `s`: only the first call reaches the native library. */
  function Step(s: LoadState, loads: string -> bool, path: string): Outcome
  {
    match s
    case Uninit => Outcome(Done(InitResult(loads, path)), InitResult(loads, path), InitCalls(loads, path))
    case Done(loaded) => Outcome(s, loaded, [])
  }

  /** Calls with the given paths, in process order, starting from state `s`. */
  function Run(s: LoadState, loads: string -> bool, paths: seq<string>): (o: RunOutcome)
    ensures |o.results| == |paths|
    decreases |paths|
  {
    if paths == [] then RunOutcome(s, [], [])
    else
      var first := Step(s, loads, paths[0]);
      var rest := Run(first.next, loads, paths[1..]);
      RunOutcome(rest.next, [first.result] + rest.results, first.calls + rest.calls)
  }

  function LoadCount(calls: seq<NativeCall>): nat
  {
    if calls == [] then 0 else (if calls[0].LoadLibrary? then 1 else 0) + LoadCount(calls[1..])
  }

  function InitializeCount(calls: seq<NativeCall>): nat
  {
    if calls == [] then 0 else (if calls[0].GlobalInitialize? then 1 else 0) + InitializeCount(calls[1..])
  }

  /** One attempt loads once, and initialises once exactly when the load succeeded, never parsing the command line. */
  lemma InitCallsCounts(loads: string -> bool, path: string)
    ensures LoadCount(InitCalls(loads, path)) == 1
    ensures InitializeCount(InitCalls(loads, path)) == (if loads(path) then 1 else 0)
    ensures forall k :: 0 <= k < |InitCalls(loads, path)| && InitCalls(loads, path)[k].GlobalInitialize? ==>
              !InitCalls(loads, path)[k].initializeCommandLine
  {
    var c := InitCalls(loads, path);
    if loads(path) {
      assert c == [LoadLibrary(path), GlobalInitialize(false)];
      assert c[1..] == [GlobalInitialize(false)] && c[1..][1..] == [];
      assert LoadCount(c[1..]) == LoadCount(c[1..][1..]) == 0;
      assert InitializeCount(c[1..]) == 1 + InitializeCount(c[1..][1..]);
    } else {
      assert c == [LoadLibrary(path)] && c[1..] == [];
      assert LoadCount(c) == 1 + LoadCount(c[1..]);
    }
  }

  /** Once the static is set, calls change nothing, make no native call and return the stored result. */
  lemma {:induction false} RunFromDone(s: LoadState, loads: string -> bool, paths: seq<string>)
    requires s.Done?
    ensures Run(s, loads, paths).next == s
    ensures Run(s, loads, paths).calls == []
    ensures forall k :: 0 <= k < |paths| ==> Run(s, loads, paths).results[k] == s.loadedPath
    decreases |paths|
  {
    if paths != [] {
      RunFromDone(s, loads, paths[1..]);
      var rest := Run(s, loads, paths[1..]);
      forall k | 1 <= k < |paths| ensures Run(s, loads, paths).results[k] == s.loadedPath {
        assert Run(s, loads, paths).results[k] == rest.results[k - 1];
      }
    }
  }

  /**
   * The first call decides: every call of the process returns the first call's result, whatever
   * path it passes, and the native calls are those of the first call's single attempt.
   */
  lemma FirstCallDecides(loads: string -> bool, paths: seq<string>)
    requires paths != []
    ensures Run(Uninit, loads, paths).next == Done(InitResult(loads, paths[0]))
    ensures Run(Uninit, loads, paths).calls == InitCalls(loads, paths[0])
    ensures forall k :: 0 <= k < |paths| ==> Run(Uninit, loads, paths).results[k] == InitResult(loads, paths[0])
  {
    var s := Done(InitResult(loads, paths[0]));
    RunFromDone(s, loads, paths[1..]);
    var o := Run(Uninit, loads, paths);
    forall k | 1 <= k < |paths| ensures o.results[k] == InitResult(loads, paths[0]) {
      assert o.results[k] == Run(s, loads, paths[1..]).results[k - 1];
    }
  }

  /** However many calls are made, the library is loaded at most once and initialised at most once. */
  lemma AtMostOneAttempt(loads: string -> bool, paths: seq<string>)
    ensures LoadCount(Run(Uninit, loads, paths).calls) == (if paths == [] then 0 else 1)
    ensures InitializeCount(Run(Uninit, loads, paths).calls) == (if paths != [] && loads(paths[0]) then 1 else 0)
  {
    if paths != [] {
      FirstCallDecides(loads, paths);
      InitCallsCounts(loads, paths[0]);
    }
  }

  /** A failed first load is permanent: later calls, even with a loadable path, get nothing and retry nothing. */
  lemma FailureIsPermanent(loads: string -> bool, first: string, later: seq<string>)
    requires !loads(first)
    ensures var o := Run(Uninit, loads, [first] + later);
            && o.next == Done(None)
            && LoadCount(o.calls) == 1 && InitializeCount(o.calls) == 0
            && forall k :: 0 <= k < |o.results| ==> o.results[k] == None
  {
    FirstCallDecides(loads, [first] + later);
    AtMostOneAttempt(loads, [first] + later);
  }

  /**
   * The process-wide state of the delay-loaded compiler library: the function-local static of the
   * once-loader and a ghost log of the calls made into the native library, whose load succeeds
   * or fails per path as `loads` says.
   */
  class CompilerStub {
    const loads: string -> bool
    var loaded: LoadState
    ghost var calls: seq<NativeCall>
    ghost var firstPath: string

    /** The static is set exactly by the one attempt the log records, made with the first caller's path. */
    ghost predicate Valid()
      reads this
    {
      match loaded
      case Uninit => calls == []
      case Done(r) => calls == InitCalls(loads, firstPath) && r == InitResult(loads, firstPath)
    }

    constructor(loads: string -> bool)
      ensures Valid() && this.loads == loads && loaded == Uninit && calls == []
    {
      this.loads := loads;
      loaded := Uninit;
      calls := [];
      firstPath := "";
    }

    /** The native log never shows more than one load and one global initialisation. */
    lemma AtMostOneLoad()
      requires Valid()
      ensures LoadCount(calls) <= 1 && InitializeCount(calls) <= 1
    {
      if loaded.Done? {
        InitCallsCounts(loads, firstPath);
      }
    }

    /** Loads the library; runs the global initialiser, without command-line parsing, only if the load succeeded. */
    method InitializeCompilerForProcess(path: string) returns (r: Option<string>)
      modifies this`calls
      ensures r.Some? <==> loads(path)
      ensures r.Some? ==> r.value == path
      ensures calls == old(calls) + [LoadLibrary(path)] + (if r.Some? then [GlobalInitialize(false)] else [])
    {
      calls := calls + [LoadLibrary(path)];
      if !loads(path) {
        return None;
      }
      calls := calls + [GlobalInitialize(false)];
      return Some(path);
    }

    /** The once-loader: the first call attempts the load and stores its result; every call returns the stored result. */
    method LoadCompilerStubOnce(path: string) returns (r: Option<string>)
      requires Valid()
      modifies this
      ensures Valid()
      ensures loaded == Step(old(loaded), loads, path).next
      ensures r == Step(old(loaded), loads, path).result
      ensures calls == old(calls) + Step(old(loaded), loads, path).calls
    {
      if loaded.Uninit? {
        var result := InitializeCompilerForProcess(path);
        loaded := Done(result);
        firstPath := path;
      }
      r := loaded.loadedPath;
    }
  }

  /** Two callers with different paths: the second gets the first one's result and no second load happens. */
  method SecondCallerObservesFirst(loads: string -> bool, p: string, q: string)
    returns (r1: Option<string>, r2: Option<string>)
    ensures r1 == r2 == InitResult(loads, p)
  {
    var stub := new CompilerStub(loads);
    r1 := stub.LoadCompilerStubOnce(p);
    r2 := stub.LoadCompilerStubOnce(q);
    stub.AtMostOneLoad();
    assert LoadCount(stub.calls) <= 1;
  }
}
