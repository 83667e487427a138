// `BaseNode` (tergite_autocalibration/lib/base/node.py): the state every
// calibration node carries, its `redis_fields` choice, the `dimensions` of
// its raw dataset, and the measure/save/post-process sequence of
// `calibrate`. Subclasses set the class attributes `qubit_qois` and
// `coupler_qois` and assign their samplespaces after the base constructor.
module BaseNode {

  import opened Common
  import opened Dicts
  import opened Dataset

  /** `redis_fields`: the qubit quantities of interest, followed by the
      coupler ones when the node has both; a node with neither is refused. */
  function RedisFields(qubitQois: Option<seq<string>>, couplerQois: Option<seq<string>>): (r: Result<seq<string>>)
    ensures r.Err? <==> qubitQois.None? && couplerQois.None?
    ensures r.Err? ==> r.error.ValueError?
    ensures qubitQois.Some? && couplerQois.None? ==> r == Ok(qubitQois.value)
    ensures qubitQois.Some? && couplerQois.Some? ==> r == Ok(qubitQois.value + couplerQois.value)
    ensures qubitQois.None? && couplerQois.Some? ==> r == Ok(couplerQois.value)
  {
    if qubitQois.Some? then
      if couplerQois.Some? then Ok(qubitQois.value + couplerQois.value) else Ok(qubitQois.value)
    else if couplerQois.Some? then Ok(couplerQois.value)
    else Err(ValueError("Quantities of Interest are missing from the node implementation"))
  }

  /** How a node is run: `MeasurementMode`. */
  datatype MeasurementMode = Real | Dummy | ReAnalyse

  /** The steps `calibrate` takes, in order. */
  datatype Step = Measure | Save | PostProcess

  /** Length of a settable's sweep; a non-iterable value counts as one. */
  function SweepLength(v: Settable): nat
  {
    match v
    case Values(s) => |s|
    case Scalar(_) => 1
  }

  /** `{qubit: sweep for qubit in qubits}`. */
  function PerQubit(qubits: seq<string>, sweep: Settable): Quantity
  {
    Comprehension(qubits, _ => sweep)
  }

  /** Every listed qubit gets the sweep, and the first qubit comes first. */
  lemma PerQubitShape(qubits: seq<string>, sweep: Settable)
    ensures |qubits| == 0 ==> PerQubit(qubits, sweep) == []
    ensures |qubits| > 0 ==> |PerQubit(qubits, sweep)| > 0 && PerQubit(qubits, sweep)[0].0 == qubits[0]
    ensures forall q :: q in qubits ==> Has(PerQubit(qubits, sweep), q) && Get(PerQubit(qubits, sweep), q) == sweep
  {
    ComprehensionSpec(qubits, _ => sweep);
  }

  class BaseNode {
    var name: string
    var allQubits: seq<string>
    var backup: bool
    var qubitState: nat
    var plotsPerQubit: nat
    var couplers: Option<seq<string>>
    var measuredElements: string
    var scheduleSamplespace: Samplespace
    var externalSamplespace: Samplespace
    var reducedExternalSamplespace: Samplespace
    var samplespace: Samplespace
    var loops: Option<nat>
    var redisFields: seq<string>
    /** `redis_field`, the attribute node subclasses assign after the base
        constructor; it is not read by the base class. */
    var redisField: Option<seq<string>>
    /** `node_dictionary`, the keyword arguments of the constructor; only
        numeric entries are modelled. */
    var nodeDictionary: Dict<real>
    /** `coupler`, the coupler a coupler node works on, assigned by those
        subclasses. */
    var coupler: Option<string>

    /** `__init__` once the quantities of interest are known to be there. */
    constructor (name: string, allQubits: seq<string>, nodeDictionary: Dict<real>, redisFields: seq<string>)
      ensures this.name == name && this.allQubits == allQubits && this.redisFields == redisFields
      ensures this.nodeDictionary == nodeDictionary && coupler.None?
      ensures !backup && qubitState == 0 && plotsPerQubit == 1 && couplers.None?
      ensures measuredElements == "Single_Qubits" && loops.None?
      ensures scheduleSamplespace == [] && externalSamplespace == [] && reducedExternalSamplespace == []
      ensures samplespace == [] && redisField.None?
    {
      this.name := name;
      this.allQubits := allQubits;
      this.redisFields := redisFields;
      this.nodeDictionary := nodeDictionary;
      coupler := None;
      backup := false;
      qubitState := 0;
      plotsPerQubit := 1;
      couplers := None;
      measuredElements := "Single_Qubits";
      scheduleSamplespace := [];
      externalSamplespace := [];
      reducedExternalSamplespace := [];
      // `schedule_samplespace | external_samplespace`, taken while both are
      // still empty; later assignments by subclasses do not update it.
      samplespace := [];
      loops := None;
      redisField := None;
    }

    /** `__init__` followed by the assignments of a coupler subclass: the
        couplers, the first of them as `coupler`, the fields it writes back,
        ground state, and its schedule. */
    constructor Coupled(name: string, allQubits: seq<string>, nodeDictionary: Dict<real>, redisFields: seq<string>,
                        couplers: seq<string>, redisField: seq<string>, schedule: Samplespace)
      requires |couplers| > 0
      ensures this.name == name && this.allQubits == allQubits && this.redisFields == redisFields
      ensures this.nodeDictionary == nodeDictionary && this.couplers == Some(couplers) && coupler == Some(couplers[0])
      ensures !backup && qubitState == 0 && plotsPerQubit == 1
      ensures measuredElements == "Single_Qubits" && loops.None?
      ensures scheduleSamplespace == schedule && externalSamplespace == [] && reducedExternalSamplespace == []
      ensures samplespace == [] && this.redisField == Some(redisField)
    {
      this.name := name;
      this.allQubits := allQubits;
      this.redisFields := redisFields;
      this.nodeDictionary := nodeDictionary;
      this.couplers := Some(couplers);
      coupler := Some(couplers[0]);
      backup := false;
      qubitState := 0;
      plotsPerQubit := 1;
      measuredElements := "Single_Qubits";
      scheduleSamplespace := schedule;
      externalSamplespace := [];
      reducedExternalSamplespace := [];
      samplespace := [];
      loops := None;
      this.redisField := Some(redisField);
    }

    /** `BaseNode(name, all_qubits, **node_dictionary)` for a class with the given quantities of
        interest: a ValueError when it has none. */
    static method Create(name: string, allQubits: seq<string>, nodeDictionary: Dict<real>,
                         qubitQois: Option<seq<string>>, couplerQois: Option<seq<string>>)
      returns (r: Result<BaseNode>)
      ensures r.Err? <==> RedisFields(qubitQois, couplerQois).Err?
      ensures r.Err? ==> r.error == RedisFields(qubitQois, couplerQois).error
      ensures r.Ok? ==> (fresh(r.value) && r.value.redisFields == RedisFields(qubitQois, couplerQois).value &&
        r.value.name == name && r.value.allQubits == allQubits && r.value.samplespace == [] &&
        !r.value.backup && r.value.qubitState == 0 && r.value.plotsPerQubit == 1 && r.value.loops.None? &&
        r.value.scheduleSamplespace == [] && r.value.externalSamplespace == [] && r.value.redisField.None? &&
        r.value.couplers.None? && r.value.coupler.None? && r.value.nodeDictionary == nodeDictionary)
    {
      var fields := RedisFields(qubitQois, couplerQois);
      if fields.Err? {
        return Err(fields.error);
      }
      var node := new BaseNode(name, allQubits, nodeDictionary, fields.value);
      return Ok(node);
    }

    /** `dimensions`: one entry per schedule quantity, in insertion order,
        the sweep length of the first quantity's first element, then `loops`
        when set. An empty samplespace or first quantity is an IndexError,
        and a later quantity without that element a KeyError. */
    method Dimensions() returns (r: Result<seq<nat>>)
      ensures |scheduleSamplespace| == 0 ==> r == Err(IndexError)
      ensures |scheduleSamplespace| > 0 && |scheduleSamplespace[0].1| == 0 ==> r == Err(IndexError)
      ensures |scheduleSamplespace| > 0 && |scheduleSamplespace[0].1| > 0 ==>
        var first := scheduleSamplespace[0].1[0].0;
        (r.Ok? <==> forall i :: 0 <= i < |scheduleSamplespace| ==> Has(scheduleSamplespace[i].1, first)) &&
        (r.Err? ==> r.error == KeyError(first)) &&
        (r.Ok? ==>
          |r.value| == |scheduleSamplespace| + (if loops.Some? then 1 else 0) &&
          (forall i :: 0 <= i < |scheduleSamplespace| ==>
            r.value[i] == SweepLength(Dicts.Get(scheduleSamplespace[i].1, first))) &&
          (loops.Some? ==> r.value[|scheduleSamplespace|] == loops.value))
    {
      var ss := scheduleSamplespace;
      if |ss| == 0 || |ss[0].1| == 0 {
        return Err(IndexError);
      }
      var first := ss[0].1[0].0;
      var dims: seq<nat> := [];
      var i := 0;
      while i < |ss|
        invariant 0 <= i <= |ss| && |dims| == i
        invariant forall j :: 0 <= j < i ==> Has(ss[j].1, first) && dims[j] == SweepLength(Dicts.Get(ss[j].1, first))
      {
        var v := Lookup(ss[i].1, first);
        if v.None? {
          return Err(KeyError(first));
        }
        dims := dims + [SweepLength(v.value)];
        i := i + 1;
      }
      if loops.Some? {
        dims := dims + [loops.value];
      }
      return Ok(dims);
    }

    /** `calibrate`: in re-analyse mode the measurement and its saving are
        skipped; the analysis always runs, last. */
    method Calibrate(mode: MeasurementMode) returns (steps: seq<Step>)
      ensures |steps| > 0 && steps[|steps| - 1] == PostProcess
      ensures Measure in steps <==> mode != ReAnalyse
      ensures Save in steps <==> mode != ReAnalyse
      ensures mode != ReAnalyse ==> steps[0] == Measure
    {
      steps := [];
      if mode != ReAnalyse {
        steps := steps + [Measure, Save];
      }
      steps := steps + [PostProcess];
    }

    /** `precompile`: 'tof' short-cuts to `(None, 1)` before any schedule is
        built; any other node compiles its schedule samplespace. */
    function Precompile(schedule: Samplespace): (r: Compiled)
      reads this
      ensures r == TofShortcut <==> name == "tof"
      ensures r.Schedule? ==> r.samplespace == schedule
    {
      if name == "tof" then TofShortcut else Schedule(schedule)
    }
  }

  /** What `precompile` hands on: the `(None, 1)` pair of 'tof' or the
      samplespace a schedule is compiled from (the compilation itself is
      quantify-scheduler's and is not modelled). */
  datatype Compiled = TofShortcut | Schedule(samplespace: Samplespace)
}
