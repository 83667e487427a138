// `monitor_node_calibration` of the tergite_acl package
// (tergite_acl/functions/node_supervisor.py): how a node's sweep is compiled,
// measured and analysed. The collaborators it drives (precompile,
// measure_node, post_process and the node's pre-measurement operation) are
// not modelled; the supervisor is modelled by the calls it makes to them, in
// order, and the node fields it writes.
module NodeSupervisor {

  import opened Common
  import opened Dicts

  /** A call to a collaborator, with what it is handed. */
  datatype Call =
    | Compile(parameter: Option<Sample>)               // precompile; the node's external_parameter_value then
    | PreMeasure(reduced: Dict<Dict<Sample>>)          // pre_measurement_operation(reduced_ext_space=...)
    | Measure(position: Option<(nat, nat)>)            // measure_node(..., measurement=(i, iterations))
    | PostProcess(first: nat, last: nat)               // post_process on the merge of measurements first..last-1

  /** What one run leaves behind: the calls made, the exception raised if
      any, and the node fields it writes. */
  datatype Sweep = Sweep(
    calls: seq<Call>,
    error: Option<Error>,
    reduced: Dict<Dict<Sample>>,
    parameter: Option<Sample>,
    parameters: Dict<Sample>)

  const SimpleSweep := "simple_sweep"
  const ParameterizedSweep := "parameterized_sweep"

  function TypeError(sweepType: string): Error
  {
    ValueError(sweepType + " is node a valid node type")
  }

  // ---------------------------------------------------------------------
  // simple_sweep

  /** `{q: external_samplespace[settable][q][i] for q in all_qubits}`,
      failing on the first qubit without values or with fewer than i + 1. */
  function ReducedAt(values: Dict<seq<Sample>>, qubits: seq<string>, i: nat): Result<Dict<Sample>>
  {
    if |qubits| == 0 then Ok([])
    else
      var init := ReducedAt(values, qubits[..|qubits| - 1], i);
      var qubit := qubits[|qubits| - 1];
      if init.Err? then init
      else if !Has(values, qubit) then Err(KeyError(qubit))
      else if i >= |Get(values, qubit)| then Err(IndexError)
      else Ok(Put(init.value, qubit, Get(values, qubit)[i]))
  }

  /** The i-th slice holds, for each qubit and nothing else, its i-th value;
      it is missing exactly when some qubit has no i-th value. */
  lemma {:induction false} ReducedAtSpec(values: Dict<seq<Sample>>, qubits: seq<string>, i: nat, q: string)
    ensures var r := ReducedAt(values, qubits, i);
      (r.Err? <==> exists j :: 0 <= j < |qubits| && (!Has(values, qubits[j]) || i >= |Get(values, qubits[j])|)) &&
      (r.Ok? ==> (Valid(r.value) && (Has(r.value, q) <==> q in qubits))) &&
      (r.Ok? && q in qubits ==> Has(values, q) && i < |Get(values, q)| && Get(r.value, q) == Get(values, q)[i])
  {
    if |qubits| > 0 {
      var init := qubits[..|qubits| - 1];
      var qubit := qubits[|qubits| - 1];
      ReducedAtSpec(values, init, i, q);
      var ri := ReducedAt(values, init, i);
      assert forall j :: 0 <= j < |init| ==> init[j] == qubits[j];
      if ri.Ok? && Has(values, qubit) && i < |Get(values, qubit)| {
        PutValid(ri.value, qubit, Get(values, qubit)[i]);
        PutGet(ri.value, qubit, Get(values, qubit)[i], q);
        assert q in qubits <==> q in init || q == qubit;
      }
    }
  }

  /** The slices of the external samplespace, by iteration. */
  function Slices(values: Dict<seq<Sample>>, qubits: seq<string>): nat -> Result<Dict<Sample>>
  {
    (i: nat) => ReducedAt(values, qubits, i)
  }

  /** `{settable: slice}`, the reduced external samplespace. */
  function ReducedSpace(settable: string, slice: Dict<Sample>): Dict<Dict<Sample>>
  {
    [(settable, slice)]
  }

  /** Where a loop stands: the calls made, the exception raised if any, and
      the reduced samplespace last stored on the node. */
  datatype Pass = Pass(calls: seq<Call>, error: Option<Error>, last: Dict<Dict<Sample>>)

  /** Iterations 0..n-1 of the external loop, out of `total`, on the
      settable's slices: each passes its slice to the pre-measurement
      operation, stores it on the node and measures. */
  function SimpleLoop(slices: nat -> Result<Dict<Sample>>, settable: string, n: nat, total: nat,
                      reduced: Dict<Dict<Sample>>): Pass
  {
    if n == 0 then Pass([], None, reduced)
    else
      var p := SimpleLoop(slices, settable, n - 1, total, reduced);
      if p.error.Some? then p
      else
        var slice := slices(n - 1);
        if slice.Err? then p.(error := Some(slice.error))
        else Pass(p.calls + [PreMeasure(ReducedSpace(settable, slice.value)), Measure(Some((n - 1, total)))], None,
                  ReducedSpace(settable, slice.value))
  }

  /** The loop makes two calls per completed iteration and stops at the
      first iteration whose slice cannot be taken, with that iteration's
      error. */
  lemma {:induction false} SimpleLoopLength(slices: nat -> Result<Dict<Sample>>, settable: string, n: nat,
                                            total: nat, reduced: Dict<Dict<Sample>>)
    ensures var p := SimpleLoop(slices, settable, n, total, reduced);
      |p.calls| % 2 == 0 && |p.calls| <= 2 * n &&
      (p.error.None? ==> |p.calls| == 2 * n) &&
      (p.error.Some? ==> |p.calls| < 2 * n && slices(|p.calls| / 2).Err? &&
                         p.error == Some(slices(|p.calls| / 2).error))
  {
    if n > 0 {
      SimpleLoopLength(slices, settable, n - 1, total, reduced);
    }
  }

  /** In increasing order, the i-th slice goes to the pre-measurement
      operation right before the i-th measurement, which is told its
      position. */
  lemma {:induction false} SimpleLoopCallAt(slices: nat -> Result<Dict<Sample>>, settable: string, n: nat,
                                            total: nat, reduced: Dict<Dict<Sample>>, i: nat)
    requires 2 * i + 1 < |SimpleLoop(slices, settable, n, total, reduced).calls|
    ensures var p := SimpleLoop(slices, settable, n, total, reduced);
      slices(i).Ok? &&
      p.calls[2 * i] == PreMeasure(ReducedSpace(settable, slices(i).value)) &&
      p.calls[2 * i + 1] == Measure(Some((i, total)))
  {
    var p := SimpleLoop(slices, settable, n - 1, total, reduced);
    SimpleLoopLength(slices, settable, n - 1, total, reduced);
    if 2 * i + 1 < |p.calls| {
      SimpleLoopCallAt(slices, settable, n - 1, total, reduced, i);
    }
  }

  /** The node keeps the last slice handed out. */
  lemma {:induction false} SimpleLoopLast(slices: nat -> Result<Dict<Sample>>, settable: string, n: nat,
                                          total: nat, reduced: Dict<Dict<Sample>>)
    ensures var p := SimpleLoop(slices, settable, n, total, reduced);
      (|p.calls| < 2 ==> p.last == reduced) &&
      (|p.calls| >= 2 ==> slices(|p.calls| / 2 - 1).Ok? &&
                          p.last == ReducedSpace(settable, slices(|p.calls| / 2 - 1).value))
  {
    if n > 0 {
      SimpleLoopLength(slices, settable, n - 1, total, reduced);
      SimpleLoopLast(slices, settable, n - 1, total, reduced);
    }
  }

  /** Once an iteration has raised, the later ones change nothing. */
  lemma {:induction false} SimpleLoopStops(slices: nat -> Result<Dict<Sample>>, settable: string, n: nat, m: nat,
                                           total: nat, reduced: Dict<Dict<Sample>>)
    requires n <= m
    requires SimpleLoop(slices, settable, n, total, reduced).error.Some?
    ensures SimpleLoop(slices, settable, m, total, reduced) == SimpleLoop(slices, settable, n, total, reduced)
    decreases m - n
  {
    if n < m {
      SimpleLoopStops(slices, settable, n, m - 1, total, reduced);
    }
  }

  /** The simple sweep: compiled once; without an external samplespace
      measured once, otherwise once per external iteration on the first
      settable; then analysed on all measurements merged. */
  function Simple(ext: Dict<Dict<seq<Sample>>>, dimensions: seq<nat>, qubits: seq<string>,
                  reduced: Dict<Dict<Sample>>, parameter: Option<Sample>, parameters: Dict<Sample>): Sweep
  {
    var compile := [Compile(parameter)];
    if |ext| == 0 then Sweep(compile + [Measure(None), PostProcess(0, 1)], None, reduced, parameter, parameters)
    else if |dimensions| == 0 then Sweep(compile, Some(IndexError), reduced, parameter, parameters)
    else
      var iterations := dimensions[0];
      // `list(node.external_samplespace.keys())[0]` and its value
      var (settable, values) := ext[0];
      var p := SimpleLoop(Slices(values, qubits), settable, iterations, iterations, reduced);
      Sweep(compile + p.calls + (if p.error.None? then [PostProcess(0, iterations)] else []), p.error, p.last,
            parameter, parameters)
  }

  // ---------------------------------------------------------------------
  // parameterized_sweep

  /** The calls of the i-th iteration once `node_externals[i]` is set. */
  function ParamBlock(externals: seq<Sample>, i: nat, each: bool): seq<Call>
    requires i < |externals|
  {
    [Compile(Some(externals[i])), Measure(None)] + (if each then [PostProcess(i, i + 1)] else [])
  }

  /** The calls of iterations 0..n-1 of the parameterized loop: each sets
      the node's parameter to the next external, recompiles and measures,
      analysing the measurement at once when `each`. */
  function ParamCalls(externals: seq<Sample>, n: nat, each: bool): seq<Call>
    requires n <= |externals|
  {
    if n == 0 then [] else ParamCalls(externals, n - 1, each) + ParamBlock(externals, n - 1, each)
  }

  /** Where the i-th iteration's calls start: two calls per iteration, or
      three when each is analysed. */
  function BlockStart(i: nat, each: bool): nat
  {
    if each then 3 * i else 2 * i
  }

  /** Each iteration compiles once with its own external, and measures;
      with `each` it is analysed right after, and otherwise never. */
  lemma {:induction false} ParamCallsSpec(externals: seq<Sample>, n: nat, each: bool)
    requires n <= |externals|
    ensures var calls := ParamCalls(externals, n, each);
      |calls| == BlockStart(n, each) &&
      (forall i :: 0 <= i < n ==>
        calls[BlockStart(i, each)] == Compile(Some(externals[i])) &&
        calls[BlockStart(i, each) + 1] == Measure(None) &&
        (each ==> calls[BlockStart(i, each) + 2] == PostProcess(i, i + 1))) &&
      (forall j :: 0 <= j < |calls| && calls[j].PostProcess? ==> each)
  {
    if n > 0 {
      ParamCallsSpec(externals, n - 1, each);
      var prev := ParamCalls(externals, n - 1, each);
      var block := ParamBlock(externals, n - 1, each);
      var calls := prev + block;
      forall i | 0 <= i < n
        ensures calls[BlockStart(i, each)] == Compile(Some(externals[i])) &&
                calls[BlockStart(i, each) + 1] == Measure(None) &&
                (each ==> calls[BlockStart(i, each) + 2] == PostProcess(i, i + 1))
      {
        if i < n - 1 {
          assert BlockStart(i, each) + (if each then 3 else 2) <= |prev|;
        }
      }
      forall j | 0 <= j < |calls| && calls[j].PostProcess? ensures each {
        if j >= |prev| {
          assert calls[j] == block[j - |prev|];
        }
      }
    }
  }

  /** The parameterized sweep: the iterations the externals allow, an
      IndexError when asked for more iterations than there are externals,
      and one analysis at the end unless each iteration had its own. The
      node keeps the last external it was given. */
  function Parameterized(externals: seq<Sample>, iterations: nat, name: string, each: bool,
                         reduced: Dict<Dict<Sample>>, parameter: Option<Sample>, parameters: Dict<Sample>): Sweep
  {
    var done := if iterations <= |externals| then iterations else |externals|;
    var calls := ParamCalls(externals, done, each);
    var p := if done == 0 then parameter else Some(externals[done - 1]);
    var ps := if done == 0 then parameters else [(name, externals[done - 1])];
    if iterations > |externals| then Sweep(calls, Some(IndexError), reduced, p, ps)
    else Sweep(calls + (if each then [] else [PostProcess(0, iterations)]), None, reduced, p, ps)
  }

  /** `monitor_node_calibration`, dispatching on the sweep type. */
  function Monitor(sweepType: string, ext: Dict<Dict<seq<Sample>>>, dimensions: seq<nat>, qubits: seq<string>,
                   externals: seq<Sample>, iterations: nat, name: string, each: bool,
                   reduced: Dict<Dict<Sample>>, parameter: Option<Sample>, parameters: Dict<Sample>): Sweep
  {
    if sweepType == SimpleSweep then Simple(ext, dimensions, qubits, reduced, parameter, parameters)
    else if sweepType == ParameterizedSweep then
      Parameterized(externals, iterations, name, each, reduced, parameter, parameters)
    else Sweep([], Some(TypeError(sweepType)), reduced, parameter, parameters)
  }

  function CompileCount(calls: seq<Call>): nat
  {
    if |calls| == 0 then 0
    else CompileCount(calls[..|calls| - 1]) + (if calls[|calls| - 1].Compile? then 1 else 0)
  }

  lemma {:induction false} CompileCountAppend(a: seq<Call>, b: seq<Call>)
    ensures CompileCount(a + b) == CompileCount(a) + CompileCount(b)
    decreases |b|
  {
    if |b| > 0 {
      assert (a + b)[..|a + b| - 1] == a + b[..|b| - 1];
      CompileCountAppend(a, b[..|b| - 1]);
    } else {
      assert a + b == a;
    }
  }

  /** Every call the simple loop makes is a pre-measurement or a measurement. */
  lemma {:induction false} SimpleLoopCompilesNothing(slices: nat -> Result<Dict<Sample>>, settable: string,
                                                     n: nat, total: nat, reduced: Dict<Dict<Sample>>)
    ensures CompileCount(SimpleLoop(slices, settable, n, total, reduced).calls) == 0
  {
    if n > 0 {
      var p := SimpleLoop(slices, settable, n - 1, total, reduced);
      SimpleLoopCompilesNothing(slices, settable, n - 1, total, reduced);
      var slice := slices(n - 1);
      if p.error.None? && slice.Ok? {
        var block := [PreMeasure(ReducedSpace(settable, slice.value)), Measure(Some((n - 1, total)))];
        CompileCountAppend(p.calls, block);
        assert block[..1] == [PreMeasure(ReducedSpace(settable, slice.value))];
        assert block[..1][..0] == [];
        assert CompileCount(block[..1]) == 0;
      }
    }
  }

  /** A simple sweep compiles exactly once, whatever happens after; without
      an external samplespace it measures exactly once and analyses that
      one measurement. */
  lemma SimpleCompilesOnce(ext: Dict<Dict<seq<Sample>>>, dimensions: seq<nat>, qubits: seq<string>,
                           reduced: Dict<Dict<Sample>>, parameter: Option<Sample>, parameters: Dict<Sample>)
    ensures var s := Simple(ext, dimensions, qubits, reduced, parameter, parameters);
      CompileCount(s.calls) == 1 && s.calls[0] == Compile(parameter)
    ensures |ext| == 0 ==>
      Simple(ext, dimensions, qubits, reduced, parameter, parameters).calls == [Compile(parameter), Measure(None), PostProcess(0, 1)]
  {
    var s := Simple(ext, dimensions, qubits, reduced, parameter, parameters);
    if |ext| == 0 {
      assert CompileCount(s.calls[..2]) == 1 by {
        assert s.calls[..2][..1] == [Compile(parameter)];
      }
    } else if |dimensions| > 0 {
      var (settable, values) := ext[0];
      var p := SimpleLoop(Slices(values, qubits), settable, dimensions[0], dimensions[0], reduced);
      SimpleLoopCompilesNothing(Slices(values, qubits), settable, dimensions[0], dimensions[0], reduced);
      var tail := if p.error.None? then [PostProcess(0, dimensions[0])] else [];
      CompileCountAppend([Compile(parameter)] + p.calls, tail);
      CompileCountAppend([Compile(parameter)], p.calls);
      assert s.calls == [Compile(parameter)] + p.calls + tail;
    }
  }

  /** A parameterized sweep is analysed after every iteration when asked
      to, and otherwise exactly once, at the end, on all the measurements. */
  lemma ParameterizedPostProcess(externals: seq<Sample>, iterations: nat, name: string, each: bool,
                                 reduced: Dict<Dict<Sample>>, parameter: Option<Sample>, parameters: Dict<Sample>)
    requires iterations <= |externals|
    ensures var s := Parameterized(externals, iterations, name, each, reduced, parameter, parameters);
      s.error.None? &&
      (!each ==> s.calls[|s.calls| - 1] == PostProcess(0, iterations) &&
                 forall i :: 0 <= i < |s.calls| - 1 ==> !s.calls[i].PostProcess?) &&
      (each ==> |s.calls| == 3 * iterations &&
                forall i :: 0 <= i < iterations ==> s.calls[3 * i + 2] == PostProcess(i, i + 1))
  {
    ParamCallsSpec(externals, iterations, each);
    var calls := ParamCalls(externals, iterations, each);
    if each {
      assert calls + [] == calls;
      forall i | 0 <= i < iterations ensures calls[3 * i + 2] == PostProcess(i, i + 1) {
        assert BlockStart(i, each) == 3 * i;
      }
    }
  }

  /** Any sweep type but the two known raises a ValueError before any call. */
  lemma UnknownTypeRejected(sweepType: string, ext: Dict<Dict<seq<Sample>>>, dimensions: seq<nat>, qubits: seq<string>,
                            externals: seq<Sample>, iterations: nat, name: string, each: bool,
                            reduced: Dict<Dict<Sample>>, parameter: Option<Sample>, parameters: Dict<Sample>)
    ensures var s := Monitor(sweepType, ext, dimensions, qubits, externals, iterations, name, each, reduced, parameter, parameters);
      (s.error.Some? && s.error.value.ValueError? && s.calls == []) <==>
      (sweepType != SimpleSweep && sweepType != ParameterizedSweep)
  {
    if sweepType == SimpleSweep {
      SimpleCompilesOnce(ext, dimensions, qubits, reduced, parameter, parameters);
    }
  }

  // ---------------------------------------------------------------------
  // The node as the supervisor sees it

  class SweepNode {
    var sweepType: string
    var allQubits: seq<string>
    /** settable -> qubit -> the settable's values for that qubit */
    var externalSamplespace: Dict<Dict<seq<Sample>>>
    var externalDimensions: seq<nat>
    var reducedExternalSamplespace: Dict<Dict<Sample>>
    var nodeExternals: seq<Sample>
    var externalIterations: nat
    var externalParameterName: string
    var externalParameterValue: Option<Sample>
    var externalParameters: Dict<Sample>
    var postProcessEachIteration: bool
    var measurementIsCompleted: bool

    constructor(sweepType: string, allQubits: seq<string>, externalSamplespace: Dict<Dict<seq<Sample>>>,
                externalDimensions: seq<nat>, nodeExternals: seq<Sample>, externalIterations: nat,
                externalParameterName: string, postProcessEachIteration: bool)
      ensures this.sweepType == sweepType && this.allQubits == allQubits
      ensures this.externalSamplespace == externalSamplespace && this.externalDimensions == externalDimensions
      ensures this.nodeExternals == nodeExternals && this.externalIterations == externalIterations
      ensures this.externalParameterName == externalParameterName
      ensures this.postProcessEachIteration == postProcessEachIteration
      ensures reducedExternalSamplespace == [] && externalParameterValue == None && externalParameters == []
      ensures !measurementIsCompleted
    {
      this.sweepType := sweepType;
      this.allQubits := allQubits;
      this.externalSamplespace := externalSamplespace;
      this.externalDimensions := externalDimensions;
      this.nodeExternals := nodeExternals;
      this.externalIterations := externalIterations;
      this.externalParameterName := externalParameterName;
      this.postProcessEachIteration := postProcessEachIteration;
      reducedExternalSamplespace := [];
      externalParameterValue := None;
      externalParameters := [];
      measurementIsCompleted := false;
    }
  }

  /** The inner loop building one slice of the external samplespace. */
  method ReduceExternal(values: Dict<seq<Sample>>, qubits: seq<string>, i: nat) returns (r: Result<Dict<Sample>>)
    ensures r == ReducedAt(values, qubits, i)
  {
    var qubitValues: Dict<Sample> := [];
    var j := 0;
    while j < |qubits|
      invariant 0 <= j <= |qubits|
      invariant ReducedAt(values, qubits[..j], i) == Ok(qubitValues)
    {
      assert qubits[..j + 1][..j] == qubits[..j];
      var qubit := qubits[j];
      var specific := Lookup(values, qubit);
      if specific.None? {
        ReducedAtPrefix(values, qubits, i, j + 1);
        return Err(KeyError(qubit));
      }
      if i >= |specific.value| {
        ReducedAtPrefix(values, qubits, i, j + 1);
        return Err(IndexError);
      }
      qubitValues := Put(qubitValues, qubit, specific.value[i]);
      j := j + 1;
    }
    assert qubits[..|qubits|] == qubits;
    return Ok(qubitValues);
  }

  lemma {:induction false} ReducedAtPrefix(values: Dict<seq<Sample>>, qubits: seq<string>, i: nat, n: nat)
    requires n <= |qubits|
    requires ReducedAt(values, qubits[..n], i).Err?
    ensures ReducedAt(values, qubits, i) == ReducedAt(values, qubits[..n], i)
    decreases |qubits| - n
  {
    if n < |qubits| {
      assert qubits[..n + 1][..n] == qubits[..n];
      ReducedAtPrefix(values, qubits, i, n + 1);
    } else {
      assert qubits[..n] == qubits;
    }
  }

  /** `monitor_node_calibration(node, ...)`: the calls it makes and the
      exception it raises, if any. `measurement_is_completed` is never set:
      its guard `iteration_index == node.external_iterations` cannot hold
      inside `range(node.external_iterations)`. */
  method MonitorNodeCalibration(node: SweepNode) returns (calls: seq<Call>, err: Option<Error>)
    modifies node
    ensures var s := Monitor(old(node.sweepType), old(node.externalSamplespace), old(node.externalDimensions),
                             old(node.allQubits), old(node.nodeExternals), old(node.externalIterations),
                             old(node.externalParameterName), old(node.postProcessEachIteration),
                             old(node.reducedExternalSamplespace), old(node.externalParameterValue),
                             old(node.externalParameters));
      calls == s.calls && err == s.error &&
      node.reducedExternalSamplespace == s.reduced &&
      node.externalParameterValue == s.parameter &&
      node.externalParameters == s.parameters
    ensures node.measurementIsCompleted == old(node.measurementIsCompleted)
    ensures node.sweepType == old(node.sweepType) && node.allQubits == old(node.allQubits)
    ensures node.externalSamplespace == old(node.externalSamplespace)
    ensures node.nodeExternals == old(node.nodeExternals) && node.externalIterations == old(node.externalIterations)
  {
    if node.sweepType == SimpleSweep {
      calls, err := SimpleSweepRun(node);
    } else if node.sweepType == ParameterizedSweep {
      calls, err := ParameterizedSweepRun(node);
    } else {
      return [], Some(TypeError(node.sweepType));
    }
  }

  method SimpleSweepRun(node: SweepNode) returns (calls: seq<Call>, err: Option<Error>)
    modifies node`reducedExternalSamplespace
    ensures var s := Simple(node.externalSamplespace, node.externalDimensions, node.allQubits,
                            old(node.reducedExternalSamplespace), node.externalParameterValue, node.externalParameters);
      calls == s.calls && err == s.error && node.reducedExternalSamplespace == s.reduced
  {
    calls := [Compile(node.externalParameterValue)];
    if |node.externalSamplespace| == 0 {
      return calls + [Measure(None), PostProcess(0, 1)], None;
    }
    if |node.externalDimensions| == 0 {
      return calls, Some(IndexError);
    }
    var iterations := node.externalDimensions[0];
    var (settable, values) := node.externalSamplespace[0];
    var loopCalls;
    loopCalls, err := ExternalLoop(node, settable, values, iterations);
    calls := calls + loopCalls;
    if err.None? {
      calls := calls + [PostProcess(0, iterations)];
    }
  }

  /** The external loop of a simple sweep over the first settable. */
  method ExternalLoop(node: SweepNode, settable: string, values: Dict<seq<Sample>>, iterations: nat)
    returns (calls: seq<Call>, err: Option<Error>)
    modifies node`reducedExternalSamplespace
    ensures Pass(calls, err, node.reducedExternalSamplespace) ==
            SimpleLoop(Slices(values, node.allQubits), settable, iterations, iterations, old(node.reducedExternalSamplespace))
  {
    var qubits := node.allQubits;
    ghost var slices := Slices(values, qubits);
    ghost var reduced0 := node.reducedExternalSamplespace;
    calls := [];
    var i := 0;
    while i < iterations
      invariant 0 <= i <= iterations
      invariant SimpleLoop(slices, settable, i, iterations, reduced0) ==
                Pass(calls, None, node.reducedExternalSamplespace)
    {
      var slice := ReduceExternal(values, qubits, i);
      assert slices(i) == slice;
      if slice.Err? {
        SimpleLoopStops(slices, settable, i + 1, iterations, iterations, reduced0);
        return calls, Some(slice.error);
      }
      var reduced := ReducedSpace(settable, slice.value);
      assert SimpleLoop(slices, settable, i + 1, iterations, reduced0) ==
             Pass(calls + [PreMeasure(reduced), Measure(Some((i, iterations)))], None, reduced);
      node.reducedExternalSamplespace := reduced;
      calls := calls + [PreMeasure(reduced), Measure(Some((i, iterations)))];
      i := i + 1;
    }
    return calls, None;
  }

  method ParameterizedSweepRun(node: SweepNode) returns (calls: seq<Call>, err: Option<Error>)
    modifies node`externalParameterValue, node`externalParameters
    ensures var s := Parameterized(node.nodeExternals, node.externalIterations, node.externalParameterName,
                                   node.postProcessEachIteration, node.reducedExternalSamplespace,
                                   old(node.externalParameterValue), old(node.externalParameters));
      calls == s.calls && err == s.error &&
      node.externalParameterValue == s.parameter && node.externalParameters == s.parameters
  {
    var externals := node.nodeExternals;
    var iterations := node.externalIterations;
    var name := node.externalParameterName;
    var each := node.postProcessEachIteration;
    calls := [];
    var i := 0;
    while i < iterations
      invariant 0 <= i <= iterations && i <= |externals|
      invariant calls == ParamCalls(externals, i, each)
      invariant i == 0 ==> node.externalParameterValue == old(node.externalParameterValue) &&
                           node.externalParameters == old(node.externalParameters)
      invariant i > 0 ==> node.externalParameterValue == Some(externals[i - 1]) &&
                          node.externalParameters == [(name, externals[i - 1])]
    {
      if i >= |externals| {
        return calls, Some(IndexError);
      }
      var parameter := externals[i];
      node.externalParameterValue := Some(parameter);
      node.externalParameters := [(name, parameter)];
      calls := calls + [Compile(Some(parameter)), Measure(None)];
      if each {
        calls := calls + [PostProcess(i, i + 1)];
      }
      i := i + 1;
    }
    if !each {
      calls := calls + [PostProcess(0, iterations)];
    }
    return calls, None;
  }
}
