// The single-qubit characterisation nodes of
// tergite_acl/lib/nodes/characterization_nodes.py: All_XY, T1, randomized
// benchmarking, T2 and T2 echo. Their base class (tergite_acl/lib/node_base.py)
// is not part of this model: a node here holds only the fields these
// subclasses assign, and a field a subclass leaves to the base is `None`.
module Characterization {

  import opened Common
  import opened Dicts
  import opened Dataset
  import BaseNode

  datatype Kind = AllXY | T1 | RandomizedBenchmarking | T2 | T2Echo

  /** `sleep_time` of the T1 node, in seconds. */
  const T1SleepTime: nat := 3

  /** `[2, 16, 128, 256, 512, 768, 1024, 0, 1]`, the sequence lengths of
      randomized benchmarking. */
  const CliffordLengths: seq<int> := [2, 16, 128, 256, 512, 768, 1024, 0, 1]

  /** The sweep a node assigns to every one of its qubits. Delays are
      `8e-9 + np.arange(0, stop, step)`; only their number is modelled, the
      length numpy computes, `ceil(stop / step)` in double precision: 50 for
      `(300e-6, 6e-6)` and 101 for `(100e-6, 1e-6)`. */
  function Sweep(kind: Kind): seq<Sample>
  {
    match kind
    case AllXY => Range(1, 22, 1)
    case T1 => Grid(8, 50)
    case RandomizedBenchmarking => CliffordLengths
    case T2 => Grid(8, 101)
    case T2Echo => Grid(8, 50)
  }

  /** The single schedule quantity of each node. */
  function SweptQuantity(kind: Kind): string
  {
    match kind
    case AllXY => "XY_index"
    case RandomizedBenchmarking => "number_of_cliffords"
    case _ => "delays"
  }

  /** `redis_field`: the value the node calibrates. */
  function RedisField(kind: Kind): seq<string>
  {
    match kind
    case AllXY => ["error_syndromes"]
    case T1 => ["t1_time"]
    case RandomizedBenchmarking => ["fidelity"]
    case _ => ["t2_time"]
  }

  /** The schedule: the node's sweep for every qubit. */
  function Schedule(kind: Kind, allQubits: seq<string>): Samplespace
  {
    [(SweptQuantity(kind), BaseNode.PerQubit(allQubits, Values(Sweep(kind))))]
  }

  /** The sweeps the nodes promise: XY indices 1 to 21, 50 T1 delays, the
      nine benchmarking lengths, and one quantity whatever the node. */
  lemma SweepSpec(kind: Kind)
    ensures kind == AllXY ==> |Sweep(kind)| == 21 && forall i :: 0 <= i < 21 ==> Sweep(kind)[i] == i + 1
    ensures kind == T1 || kind == T2Echo ==> |Sweep(kind)| == 50
    ensures kind == T2 ==> |Sweep(kind)| == 101
    ensures kind == RandomizedBenchmarking ==> |Sweep(kind)| == 9
  {
    RangeLength(1, 22, 1, 21);
    RangeSpec(1, 22, 1);
  }

  class CharacterizationNode {
    var kind: Kind
    var name: string
    var allQubits: seq<string>
    /** `type`, when the node sets it. */
    var nodeType: Option<string>
    var redisField: seq<string>
    var backup: Option<bool>
    var qubitState: Option<nat>
    var scheduleSamplespace: Samplespace
    /** The external parameter's name and values, when the node has one. */
    var externalSweep: Option<(string, seq<int>)>
    /** `node_externals` of the T1 node. */
    var nodeExternals: seq<int>
    var externalParameterName: Option<string>
    var externalParameterValue: Option<int>
    var sleepTime: nat

    /** The fields the constructor of `kind` assigns. `repeats` is
        `number_or_repeated_T1`, which the T1 node reads from its base class;
        only T1 uses it. */
    constructor (kind: Kind, name: string, allQubits: seq<string>, repeats: nat)
      ensures this.kind == kind && this.name == name && this.allQubits == allQubits
      ensures redisField == RedisField(kind) && scheduleSamplespace == Schedule(kind, allQubits)
      ensures nodeType == (match kind
                           case T1 => Some("parameterized_simple_sweep")
                           case RandomizedBenchmarking => Some("parameterized_sweep")
                           case _ => None)
      ensures backup == (if kind in {AllXY, T1, RandomizedBenchmarking} then Some(false) else None)
      ensures qubitState == (if kind in {T2, T2Echo} then Some(0) else None)
      ensures externalSweep == (match kind
                                case T1 => Some(("repeat", Range(0, repeats, 1)))
                                case RandomizedBenchmarking => Some(("seed", Range(0, 5, 1)))
                                case _ => None)
      ensures nodeExternals == (if kind == T1 then Range(0, 2, 1) else [])
      ensures externalParameterName == (if kind == T1 then Some("repeat") else None)
      ensures externalParameterValue == (if kind in {T1, RandomizedBenchmarking} then Some(0) else None)
      ensures sleepTime == (if kind == T1 then T1SleepTime else 0)
    {
      this.kind := kind;
      this.name := name;
      this.allQubits := allQubits;
      redisField := RedisField(kind);
      scheduleSamplespace := Schedule(kind, allQubits);
      nodeType := match kind
        case T1 => Some("parameterized_simple_sweep")
        case RandomizedBenchmarking => Some("parameterized_sweep")
        case _ => None;
      backup := if kind in {AllXY, T1, RandomizedBenchmarking} then Some(false) else None;
      qubitState := if kind in {T2, T2Echo} then Some(0) else None;
      externalSweep := match kind
        case T1 => Some(("repeat", Range(0, repeats, 1)))
        case RandomizedBenchmarking => Some(("seed", Range(0, 5, 1)))
        case _ => None;
      nodeExternals := if kind == T1 then Range(0, 2, 1) else [];
      externalParameterName := if kind == T1 then Some("repeat") else None;
      externalParameterValue := if kind in {T1, RandomizedBenchmarking} then Some(0) else None;
      sleepTime := if kind == T1 then T1SleepTime else 0;
    }

    /** T1's `pre_measurement_operation(external)`: the sleeps it performs.
        It sleeps once, for `sleep_time`, exactly when `external` is
        positive. */
    method PreMeasurementOperation(external: int) returns (slept: seq<nat>)
      requires kind == T1
      ensures |slept| <= 1
      ensures |slept| == 1 <==> external > 0
      ensures forall k :: 0 <= k < |slept| ==> slept[k] == sleepTime
    {
      slept := [];
      if external > 0 {
        slept := slept + [sleepTime];
      }
    }

    /** The call without an argument, `external=1`: a T1 node sleeps three
        seconds before it measures. */
    method PreMeasurementDefault() returns (slept: seq<nat>)
      requires kind == T1 && sleepTime == T1SleepTime
      ensures slept == [3]
    {
      slept := PreMeasurementOperation(1);
    }

    /** `dimensions` of T1 and randomized benchmarking:
        `(len(samplespace[quantity][all_qubits[0]]), 1)`. Looking up the
        quantity comes first (a KeyError), then the first qubit (an
        IndexError when there is none, a KeyError when it has no sweep). */
    method Dimensions() returns (r: Result<seq<nat>>)
      requires kind == T1 || kind == RandomizedBenchmarking
      ensures !Has(scheduleSamplespace, SweptQuantity(kind)) ==> r == Err(KeyError(SweptQuantity(kind)))
      ensures Has(scheduleSamplespace, SweptQuantity(kind)) && |allQubits| == 0 ==> r == Err(IndexError)
      ensures r.Ok? <==> (Has(scheduleSamplespace, SweptQuantity(kind)) && |allQubits| > 0 &&
        Has(Get(scheduleSamplespace, SweptQuantity(kind)), allQubits[0]))
      ensures r.Ok? ==> (|r.value| == 2 && r.value[1] == 1 &&
        r.value[0] == BaseNode.SweepLength(Get(Get(scheduleSamplespace, SweptQuantity(kind)), allQubits[0])))
      ensures r.Err? ==> r.error.KeyError? || r.error.IndexError?
    {
      var quantity := SweptQuantity(kind);
      if !Has(scheduleSamplespace, quantity) {
        return Err(KeyError(quantity));
      }
      var sweeps := Get(scheduleSamplespace, quantity);
      if |allQubits| == 0 {
        return Err(IndexError);
      }
      if !Has(sweeps, allQubits[0]) {
        return Err(KeyError(allQubits[0]));
      }
      r := Ok([BaseNode.SweepLength(Get(sweeps, allQubits[0])), 1]);
    }
  }

  /** A freshly built T1 node is 50 delays by 1, and a benchmarking node 9
      sequence lengths by 1; without qubits both raise an IndexError. */
  method CharacterizationDimensions(kind: Kind, allQubits: seq<string>, repeats: nat)
    returns (dims: Result<seq<nat>>)
    requires kind == T1 || kind == RandomizedBenchmarking
    ensures |allQubits| == 0 ==> dims == Err(IndexError)
    ensures |allQubits| > 0 && kind == T1 ==> dims == Ok([50, 1])
    ensures |allQubits| > 0 && kind == RandomizedBenchmarking ==> dims == Ok([9, 1])
  {
    var node := new CharacterizationNode(kind, "characterization", allQubits, repeats);
    BaseNode.PerQubitShape(allQubits, Values(Sweep(kind)));
    SweepSpec(kind);
    assert node.scheduleSamplespace[0].0 == SweptQuantity(kind);
    assert IndexOf(node.scheduleSamplespace, SweptQuantity(kind)) == 0;
    dims := node.Dimensions();
    if |allQubits| > 0 {
      assert dims.Ok? && dims.value == [|Sweep(kind)|, 1];
    }
  }

  /** The externals of a fresh node: T1 repeats `repeats` times and takes
      two node externals; benchmarking runs the five seeds 0 to 4. */
  method CharacterizationExternals(kind: Kind, allQubits: seq<string>, repeats: nat)
    returns (node: CharacterizationNode)
    ensures fresh(node)
    ensures kind == T1 ==> (node.externalSweep.Some? && node.externalSweep.value.0 == "repeat" &&
      |node.externalSweep.value.1| == repeats &&
      (forall i :: 0 <= i < repeats ==> node.externalSweep.value.1[i] == i) &&
      node.nodeExternals == [0, 1])
    ensures kind == RandomizedBenchmarking ==> node.externalSweep == Some(("seed", [0, 1, 2, 3, 4]))
    ensures kind !in {T1, RandomizedBenchmarking} ==> node.externalSweep.None?
  {
    node := new CharacterizationNode(kind, "characterization", allQubits, repeats);
    RangeLength(0, repeats, 1, repeats);
    RangeSpec(0, repeats, 1);
    RangeLength(0, 2, 1, 2);
    RangeSpec(0, 2, 1);
    RangeLength(0, 5, 1, 5);
    RangeSpec(0, 5, 1);
    assert Range(0, 5, 1) == [0, 1, 2, 3, 4];
  }
}
