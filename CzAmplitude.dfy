// `CZ_Amplitude_Node` of tergite_autocalibration/lib/nodes/coupler/cz_amplitude/node.py:
// a parameterized sweep of CZ pulse amplitudes per coupler and pulse
// frequencies per coupled qubit, with the coupler's DC current as the
// external parameter. The parameterized sweep base class is not part of
// this model; the node's own fields are.
module CzAmplitude {

  import opened Common
  import opened Dicts
  import opened Dataset
  import BaseNode
  import CouplerNodes

  const AmplitudeField: seq<string> := ["cz_pulse_frequency", "cz_pulse_amplitude"]
  const DurationKey: string := "cz_pulse_duration"
  /** 120 ns, the pulse duration the node always runs with. */
  const Duration: real := 0.000000120

  // ---------------------------------------------------------------------
  // The external current sweep, in microamperes (`... * 1e-6` amperes).

  /** `np.arange(-1200, -600, -10)`: counting down from -1200 never reaches
      -600, so no current is produced. */
  function CurrentsAsWritten(): seq<int>
  {
    Range(-1200, -600, -10)
  }

  /** `np.arange(-1200, -600, 10)`: from -1200 up to -600, in steps of 10. */
  function Currents(): seq<int>
  {
    Range(-1200, -600, 10)
  }

  /** `{"current": {coupler: currents for coupler in couplers}}`. */
  function CurrentSamplespace(couplers: seq<string>, currents: seq<int>): Samplespace
  {
    [("current", BaseNode.PerQubit(couplers, Values(currents)))]
  }

  /** As written, every coupler's external sweep is empty, so the external
      loop measures nothing. */
  lemma CurrentsAsWrittenEmpty(couplers: seq<string>, c: string)
    requires c in couplers
    ensures var space := CurrentSamplespace(couplers, CurrentsAsWritten());
      |space| == 1 && space[0].0 == "current" && Has(space[0].1, c) && Get(space[0].1, c) == Values([])
  {
    assert Range(-1200, -600, -10) == [];
    BaseNode.PerQubitShape(couplers, Values([]));
  }

  /** The intended sweep: 60 currents from -1200 to -610, 10 apart, for
      every coupler. */
  lemma CurrentsSpec(couplers: seq<string>, c: string)
    requires c in couplers
    ensures |Currents()| == 60
    ensures forall i :: 0 <= i < |Currents()| ==> Currents()[i] == -1200 + 10 * i
    ensures var space := CurrentSamplespace(couplers, Currents());
      |space| == 1 && space[0].0 == "current" && Has(space[0].1, c) && Get(space[0].1, c) == Values(Currents())
  {
    RangeLength(-1200, -600, 10, 60);
    RangeSpec(-1200, -600, 10);
    BaseNode.PerQubitShape(couplers, Values(Currents()));
  }

  // ---------------------------------------------------------------------
  // The node.

  /** 15 amplitudes for every coupler and 21 frequencies for every qubit of
      the couplers. */
  function AmplitudeSchedule(couplers: seq<string>): Samplespace
  {
    [("cz_pulse_amplitudes", BaseNode.PerQubit(couplers, Values(Grid(0, 15)))),
     ("cz_pulse_frequencies", BaseNode.PerQubit(CouplerNodes.CoupledQubits(couplers), Values(Grid(0, 21))))]
  }

  class CzAmplitudeNode {
    var name: string
    var nodeType: string
    /** The qubits of all couplers, in order. */
    var allQubits: seq<string>
    var couplers: seq<string>
    var coupler: string
    var backup: bool
    var qubitState: nat
    var redisField: seq<string>
    /** `node_dictionary`; only numeric entries are modelled. */
    var nodeDictionary: Dict<real>
    var scheduleSamplespace: Samplespace
    var externalSamplespace: Samplespace

    /** The fields `__init__` assigns, once `couplers[0]` exists; the current
        sweep is the empty one written. */
    constructor (name: string, couplers: seq<string>, nodeDictionary: Dict<real>)
      requires |couplers| > 0
      ensures this.name == name && nodeType == "parameterized_sweep"
      ensures allQubits == CouplerNodes.CoupledQubits(couplers) && this.couplers == couplers && coupler == couplers[0]
      ensures !backup && qubitState == 0 && redisField == AmplitudeField
      ensures this.nodeDictionary == Put(nodeDictionary, DurationKey, Duration)
      ensures scheduleSamplespace == AmplitudeSchedule(couplers)
      ensures externalSamplespace == CurrentSamplespace(couplers, CurrentsAsWritten())
    {
      this.name := name;
      nodeType := "parameterized_sweep";
      allQubits := CouplerNodes.CoupledQubits(couplers);
      this.couplers := couplers;
      coupler := couplers[0];
      backup := false;
      qubitState := 0;
      redisField := AmplitudeField;
      this.nodeDictionary := Put(nodeDictionary, DurationKey, Duration);
      scheduleSamplespace := AmplitudeSchedule(couplers);
      externalSamplespace := CurrentSamplespace(couplers, CurrentsAsWritten());
    }
  }

  /** `CZ_Amplitude_Node(name, couplers, **keywords)`: an IndexError without
      couplers, the ValueError of `validate` when couplers share a qubit,
      and otherwise the node. */
  method NewCzAmplitude(name: string, couplers: seq<string>, nodeDictionary: Dict<real>)
    returns (r: Result<CzAmplitudeNode>)
    ensures |couplers| == 0 ==> r == Err(IndexError)
    ensures (|couplers| > 0 && !Distinct(CouplerNodes.CoupledQubits(couplers))) ==> r == Err(ValueError("Improper Couplers"))
    ensures r.Ok? <==> (|couplers| > 0 && Distinct(CouplerNodes.CoupledQubits(couplers)))
    ensures r.Ok? ==> (fresh(r.value) && r.value.name == name && r.value.nodeType == "parameterized_sweep" &&
      r.value.allQubits == CouplerNodes.CoupledQubits(couplers) && r.value.couplers == couplers &&
      r.value.coupler == couplers[0] && !r.value.backup && r.value.qubitState == 0 &&
      r.value.redisField == AmplitudeField &&
      r.value.nodeDictionary == Put(nodeDictionary, DurationKey, Duration) &&
      r.value.scheduleSamplespace == AmplitudeSchedule(couplers) &&
      r.value.externalSamplespace == CurrentSamplespace(couplers, CurrentsAsWritten()))
  {
    if |couplers| == 0 {
      return Err(IndexError);
    }
    var node := new CzAmplitudeNode(name, couplers, nodeDictionary);
    var valid := CouplerNodes.Validate(couplers);
    if valid.Err? {
      return Err(valid.error);
    }
    r := Ok(node);
  }

  /** The node as intended: built as written, with the external sweep of
      60 currents per coupler; every error and every other field is that of
      the node as written. */
  method NewCzAmplitudeCorrected(name: string, couplers: seq<string>, nodeDictionary: Dict<real>)
    returns (r: Result<CzAmplitudeNode>)
    ensures |couplers| == 0 ==> r == Err(IndexError)
    ensures (|couplers| > 0 && !Distinct(CouplerNodes.CoupledQubits(couplers))) ==> r == Err(ValueError("Improper Couplers"))
    ensures r.Ok? <==> (|couplers| > 0 && Distinct(CouplerNodes.CoupledQubits(couplers)))
    ensures r.Ok? ==> (fresh(r.value) && r.value.name == name && r.value.nodeType == "parameterized_sweep" &&
      r.value.allQubits == CouplerNodes.CoupledQubits(couplers) && r.value.couplers == couplers &&
      r.value.coupler == couplers[0] && !r.value.backup && r.value.qubitState == 0 &&
      r.value.redisField == AmplitudeField &&
      r.value.nodeDictionary == Put(nodeDictionary, DurationKey, Duration) &&
      r.value.scheduleSamplespace == AmplitudeSchedule(couplers) &&
      r.value.externalSamplespace == CurrentSamplespace(couplers, Currents()))
  {
    r := NewCzAmplitude(name, couplers, nodeDictionary);
    if r.Ok? {
      r.value.externalSamplespace := CurrentSamplespace(couplers, Currents());
    }
  }

  /** What a valid node sweeps as written: 15 amplitudes on each coupler and
      21 frequencies on each of its qubits, always with a 120 ns pulse
      whatever duration the caller passed, and no current on any coupler. */
  method CzAmplitudeShape(couplers: seq<string>, nodeDictionary: Dict<real>, c: string, q: string)
    returns (node: Result<CzAmplitudeNode>)
    requires Valid(nodeDictionary) && Distinct(CouplerNodes.CoupledQubits(couplers))
    requires c in couplers && q in Split(c, '_')
    ensures node.Ok?
    ensures var schedule := node.value.scheduleSamplespace;
      |schedule| == 2 && Has(schedule[0].1, c) && Get(schedule[0].1, c) == Values(Grid(0, 15)) &&
      Has(schedule[1].1, q) && Get(schedule[1].1, q) == Values(Grid(0, 21))
    ensures var external := node.value.externalSamplespace;
      |external| == 1 && Has(external[0].1, c) && Get(external[0].1, c) == Values([])
    ensures Has(node.value.nodeDictionary, DurationKey) && Get(node.value.nodeDictionary, DurationKey) == Duration
  {
    node := NewCzAmplitude("cz_amplitude", couplers, nodeDictionary);
    BaseNode.PerQubitShape(couplers, Values(Grid(0, 15)));
    CouplerNodes.InCoupledQubits(couplers, q);
    BaseNode.PerQubitShape(CouplerNodes.CoupledQubits(couplers), Values(Grid(0, 21)));
    CurrentsAsWrittenEmpty(couplers, c);
    PutHas(nodeDictionary, DurationKey, Duration, DurationKey);
    PutGet(nodeDictionary, DurationKey, Duration, DurationKey);
  }

  /** What a valid node as intended sweeps: the same amplitudes, frequencies
      and duration, and 60 currents on each coupler. */
  method CzAmplitudeShapeCorrected(couplers: seq<string>, nodeDictionary: Dict<real>, c: string, q: string)
    returns (node: Result<CzAmplitudeNode>)
    requires Valid(nodeDictionary) && Distinct(CouplerNodes.CoupledQubits(couplers))
    requires c in couplers && q in Split(c, '_')
    ensures node.Ok?
    ensures var schedule := node.value.scheduleSamplespace;
      |schedule| == 2 && Has(schedule[0].1, c) && Get(schedule[0].1, c) == Values(Grid(0, 15)) &&
      Has(schedule[1].1, q) && Get(schedule[1].1, q) == Values(Grid(0, 21))
    ensures var external := node.value.externalSamplespace;
      |external| == 1 && Has(external[0].1, c) && Get(external[0].1, c).Values? &&
      |Get(external[0].1, c).samples| == 60
    ensures Has(node.value.nodeDictionary, DurationKey) && Get(node.value.nodeDictionary, DurationKey) == Duration
  {
    node := NewCzAmplitudeCorrected("cz_amplitude", couplers, nodeDictionary);
    BaseNode.PerQubitShape(couplers, Values(Grid(0, 15)));
    CouplerNodes.InCoupledQubits(couplers, q);
    BaseNode.PerQubitShape(CouplerNodes.CoupledQubits(couplers), Values(Grid(0, 21)));
    CurrentsSpec(couplers, c);
    PutHas(nodeDictionary, DurationKey, Duration, DurationKey);
    PutGet(nodeDictionary, DurationKey, Duration, DurationKey);
  }
}
