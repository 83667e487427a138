// The node classes of the Rabi-oscillation and resonator-spectroscopy
// families (tergite_autocalibration/lib/nodes/qubit_control/rabi_oscillations/node.py
// and tergite_autocalibration/lib/nodes/readout/resonator_spectroscopy/node.py).
// Each constructor runs `BaseNode.__init__`, then assigns `redis_field`, the
// qubit state and the schedule samplespace. The base constructor refuses a
// class that sets neither `qubit_qois` nor `coupler_qois`; the class
// attribute is therefore a parameter of the constructors below, and the
// classes as they are written pass `None` for it.
module NodeSpecs {

  import opened Common
  import opened Dicts
  import opened Dataset
  import BaseNode

  // ---------------------------------------------------------------------
  // Rabi oscillations.

  const RabiField: seq<string> := ["rxy:amp180"]
  const RabiField12: seq<string> := ["r12:ef_amp180"]

  /** `Rabi_Oscillations_Node` for a class whose `qubit_qois` is `qubitQois`:
      61 amplitudes per qubit, ground state. */
  method NewRabiOscillations(name: string, allQubits: seq<string>, nodeDictionary: Dict<real>, qubitQois: Option<seq<string>>)
    returns (r: Result<BaseNode.BaseNode>)
    ensures r.Err? <==> qubitQois.None?
    ensures r.Err? ==> r.error.ValueError?
    ensures r.Ok? ==> (fresh(r.value) && r.value.name == name && r.value.allQubits == allQubits &&
      r.value.redisFields == qubitQois.value && r.value.redisField == Some(RabiField) &&
      r.value.qubitState == 0 && r.value.loops.None? &&
      r.value.scheduleSamplespace == [("mw_amplitudes", BaseNode.PerQubit(allQubits, Values(Grid(0, 61))))])
  {
    r := BaseNode.BaseNode.Create(name, allQubits, nodeDictionary, qubitQois, None);
    if r.Ok? {
      var node := r.value;
      node.redisField := Some(RabiField);
      node.scheduleSamplespace := [("mw_amplitudes", BaseNode.PerQubit(allQubits, Values(Grid(0, 61))))];
    }
  }

  /** `Rabi_Oscillations_12_Node`: the same sweep length, first excited state. */
  method NewRabiOscillations12(name: string, allQubits: seq<string>, nodeDictionary: Dict<real>, qubitQois: Option<seq<string>>)
    returns (r: Result<BaseNode.BaseNode>)
    ensures r.Err? <==> qubitQois.None?
    ensures r.Err? ==> r.error.ValueError?
    ensures r.Ok? ==> (fresh(r.value) && r.value.name == name && r.value.allQubits == allQubits &&
      r.value.redisFields == qubitQois.value && r.value.redisField == Some(RabiField12) &&
      r.value.qubitState == 1 && r.value.loops.None? &&
      r.value.scheduleSamplespace == [("mw_amplitudes", BaseNode.PerQubit(allQubits, Values(Grid(0, 61))))])
  {
    r := BaseNode.BaseNode.Create(name, allQubits, nodeDictionary, qubitQois, None);
    if r.Ok? {
      var node := r.value;
      node.redisField := Some(RabiField12);
      node.qubitState := 1;
      node.scheduleSamplespace := [("mw_amplitudes", BaseNode.PerQubit(allQubits, Values(Grid(0, 61))))];
    }
  }

  /** `N_Rabi_Oscillations_Node`: 40 amplitudes and the repetitions
      `np.arange(1, 19, 6)`, ground state, no backup. */
  method NewNRabiOscillations(name: string, allQubits: seq<string>, nodeDictionary: Dict<real>, qubitQois: Option<seq<string>>)
    returns (r: Result<BaseNode.BaseNode>)
    ensures r.Err? <==> qubitQois.None?
    ensures r.Err? ==> r.error.ValueError?
    ensures r.Ok? ==> (fresh(r.value) && r.value.name == name && r.value.allQubits == allQubits &&
      r.value.redisFields == qubitQois.value && r.value.redisField == Some(RabiField) &&
      r.value.qubitState == 0 && !r.value.backup && r.value.loops.None? &&
      r.value.scheduleSamplespace == [
        ("mw_amplitudes_sweep", BaseNode.PerQubit(allQubits, Values(Grid(0, 40)))),
        ("X_repetitions", BaseNode.PerQubit(allQubits, Values(Range(1, 19, 6))))])
  {
    r := BaseNode.BaseNode.Create(name, allQubits, nodeDictionary, qubitQois, None);
    if r.Ok? {
      var node := r.value;
      node.redisField := Some(RabiField);
      node.backup := false;
      node.qubitState := 0;
      node.scheduleSamplespace := [
        ("mw_amplitudes_sweep", BaseNode.PerQubit(allQubits, Values(Grid(0, 40)))),
        ("X_repetitions", BaseNode.PerQubit(allQubits, Values(Range(1, 19, 6))))];
    }
  }

  /** `N_Rabi_Oscillations_12_Node`: 51 amplitudes and the repetitions
      `np.arange(1, 4, 1)`, first excited state, no backup. */
  method NewNRabiOscillations12(name: string, allQubits: seq<string>, nodeDictionary: Dict<real>, qubitQois: Option<seq<string>>)
    returns (r: Result<BaseNode.BaseNode>)
    ensures r.Err? <==> qubitQois.None?
    ensures r.Err? ==> r.error.ValueError?
    ensures r.Ok? ==> (fresh(r.value) && r.value.name == name && r.value.allQubits == allQubits &&
      r.value.redisFields == qubitQois.value && r.value.redisField == Some(RabiField12) &&
      r.value.qubitState == 1 && !r.value.backup && r.value.loops.None? &&
      r.value.scheduleSamplespace == [
        ("mw_amplitudes_sweep", BaseNode.PerQubit(allQubits, Values(Grid(0, 51)))),
        ("X_repetitions", BaseNode.PerQubit(allQubits, Values(Range(1, 4, 1))))])
  {
    r := BaseNode.BaseNode.Create(name, allQubits, nodeDictionary, qubitQois, None);
    if r.Ok? {
      var node := r.value;
      node.redisField := Some(RabiField12);
      node.backup := false;
      node.qubitState := 1;
      node.scheduleSamplespace := [
        ("mw_amplitudes_sweep", BaseNode.PerQubit(allQubits, Values(Grid(0, 51)))),
        ("X_repetitions", BaseNode.PerQubit(allQubits, Values(Range(1, 4, 1))))];
    }
  }

  lemma RepetitionCounts()
    ensures Range(1, 19, 6) == [1, 7, 13]
    ensures Range(1, 4, 1) == [1, 2, 3]
  {
    assert Range(13, 19, 6) == [13] + Range(19, 19, 6);
    assert Range(3, 4, 1) == [3] + Range(4, 4, 1);
  }

  /** None of the four classes sets `qubit_qois`, so building any of them
      raises the base constructor's ValueError. */
  method RabiNodesAsWritten(name: string, allQubits: seq<string>, nodeDictionary: Dict<real>)
    returns (rabi: Result<BaseNode.BaseNode>, rabi12: Result<BaseNode.BaseNode>,
             nRabi: Result<BaseNode.BaseNode>, nRabi12: Result<BaseNode.BaseNode>)
    ensures rabi.Err? && rabi.error.ValueError?
    ensures rabi12.Err? && rabi12.error.ValueError?
    ensures nRabi.Err? && nRabi.error.ValueError?
    ensures nRabi12.Err? && nRabi12.error.ValueError?
  {
    rabi := NewRabiOscillations(name, allQubits, nodeDictionary, None);
    rabi12 := NewRabiOscillations12(name, allQubits, nodeDictionary, None);
    nRabi := NewNRabiOscillations(name, allQubits, nodeDictionary, None);
    nRabi12 := NewNRabiOscillations12(name, allQubits, nodeDictionary, None);
  }

  /** With `qubit_qois` set to `rxy:amp180` the node is built and its
      dataset has one axis of 61 amplitudes; without qubits the first
      quantity is empty and `dimensions` fails on `[0]`. */
  method RabiDimensions(allQubits: seq<string>) returns (dims: Result<seq<nat>>)
    ensures |allQubits| == 0 ==> dims == Err(IndexError)
    ensures |allQubits| > 0 ==> dims == Ok([61])
  {
    BaseNode.PerQubitShape(allQubits, Values(Grid(0, 61)));
    var node := NewRabiOscillations("rabi_oscillations", allQubits, [], Some(RabiField));
    dims := node.value.Dimensions();
    if |allQubits| > 0 {
      assert dims.Ok? && dims.value == [61];
    }
  }

  /** The same for `Rabi_Oscillations_12_Node` with `r12:ef_amp180`. */
  method Rabi12Dimensions(allQubits: seq<string>) returns (dims: Result<seq<nat>>)
    ensures |allQubits| == 0 ==> dims == Err(IndexError)
    ensures |allQubits| > 0 ==> dims == Ok([61])
  {
    BaseNode.PerQubitShape(allQubits, Values(Grid(0, 61)));
    var node := NewRabiOscillations12("rabi_oscillations_12", allQubits, [], Some(RabiField12));
    dims := node.value.Dimensions();
    if |allQubits| > 0 {
      assert dims.Ok? && dims.value == [61];
    }
  }

  /** `N_Rabi_Oscillations_Node` measures 40 amplitudes by 3 repetition counts. */
  method NRabiDimensions(allQubits: seq<string>) returns (dims: Result<seq<nat>>)
    ensures |allQubits| == 0 ==> dims == Err(IndexError)
    ensures |allQubits| > 0 ==> dims == Ok([40, 3])
  {
    BaseNode.PerQubitShape(allQubits, Values(Grid(0, 40)));
    BaseNode.PerQubitShape(allQubits, Values(Range(1, 19, 6)));
    RepetitionCounts();
    var node := NewNRabiOscillations("n_rabi_oscillations", allQubits, [], Some(RabiField));
    dims := node.value.Dimensions();
    if |allQubits| > 0 {
      assert dims.Ok? && dims.value == [40, 3];
    }
  }

  /** `N_Rabi_Oscillations_12_Node` measures 51 amplitudes by 3 repetition counts. */
  method NRabi12Dimensions(allQubits: seq<string>) returns (dims: Result<seq<nat>>)
    ensures |allQubits| == 0 ==> dims == Err(IndexError)
    ensures |allQubits| > 0 ==> dims == Ok([51, 3])
  {
    BaseNode.PerQubitShape(allQubits, Values(Grid(0, 51)));
    BaseNode.PerQubitShape(allQubits, Values(Range(1, 4, 1)));
    RepetitionCounts();
    var node := NewNRabiOscillations12("n_rabi_oscillations_12", allQubits, [], Some(RabiField12));
    dims := node.value.Dimensions();
    if |allQubits| > 0 {
      assert dims.Ok? && dims.value == [51, 3];
    }
  }

  // ---------------------------------------------------------------------
  // Resonator spectroscopy. `resonator_samples` comes from the user-input
  // module and is a parameter here: each qubit's frequency grid.

  const ResonatorQois: seq<string> := ["clock_freqs:readout", "Ql", "resonator_minimum"]
  const ResonatorField1: seq<string> := ["extended_clock_freqs:readout_1", "Ql_1", "resonator_minimum_1"]
  const ResonatorField2: seq<string> := ["extended_clock_freqs:readout_2"]

  function ResonatorSchedule(allQubits: seq<string>, resonatorSamples: string -> seq<Sample>): Samplespace
  {
    [("ro_frequencies", Comprehension(allQubits, q => Values(resonatorSamples(q))))]
  }

  lemma ResonatorScheduleShape(allQubits: seq<string>, resonatorSamples: string -> seq<Sample>)
    ensures |allQubits| == 0 ==> ResonatorSchedule(allQubits, resonatorSamples)[0].1 == []
    ensures |allQubits| > 0 ==>
      var quantity := ResonatorSchedule(allQubits, resonatorSamples)[0].1;
      |quantity| > 0 && quantity[0].0 == allQubits[0] && Has(quantity, allQubits[0]) &&
      Get(quantity, allQubits[0]) == Values(resonatorSamples(allQubits[0]))
  {
    ComprehensionSpec(allQubits, q => Values(resonatorSamples(q)));
    if |allQubits| > 0 {
      assert allQubits[0] in allQubits;
    }
  }

  /** `Resonator_Spectroscopy_Node`: the class sets `qubit_qois`, so it is
      built, its `redis_fields` are those quantities and the schedule sweeps
      each qubit's resonator grid. */
  method NewResonatorSpectroscopy(name: string, allQubits: seq<string>, nodeDictionary: Dict<real>, resonatorSamples: string -> seq<Sample>)
    returns (r: Result<BaseNode.BaseNode>)
    ensures r.Ok?
    ensures fresh(r.value) && r.value.name == name && r.value.allQubits == allQubits
    ensures r.value.redisFields == ResonatorQois && r.value.redisField.None? && r.value.qubitState == 0
    ensures r.value.loops.None? && r.value.scheduleSamplespace == ResonatorSchedule(allQubits, resonatorSamples)
  {
    r := BaseNode.BaseNode.Create(name, allQubits, nodeDictionary, Some(ResonatorQois), None);
    var node := r.value;
    node.scheduleSamplespace := ResonatorSchedule(allQubits, resonatorSamples);
  }

  /** `Resonator_Spectroscopy_1_Node`, for a class whose `qubit_qois` is `qubitQois`. */
  method NewResonatorSpectroscopy1(name: string, allQubits: seq<string>, nodeDictionary: Dict<real>, resonatorSamples: string -> seq<Sample>,
                                   qubitQois: Option<seq<string>>)
    returns (r: Result<BaseNode.BaseNode>)
    ensures r.Err? <==> qubitQois.None?
    ensures r.Err? ==> r.error.ValueError?
    ensures r.Ok? ==> (fresh(r.value) && r.value.name == name && r.value.allQubits == allQubits &&
      r.value.redisFields == qubitQois.value && r.value.redisField == Some(ResonatorField1) &&
      r.value.qubitState == 1 && r.value.loops.None? &&
      r.value.scheduleSamplespace == ResonatorSchedule(allQubits, resonatorSamples))
  {
    r := BaseNode.BaseNode.Create(name, allQubits, nodeDictionary, qubitQois, None);
    if r.Ok? {
      var node := r.value;
      node.redisField := Some(ResonatorField1);
      node.qubitState := 1;
      node.scheduleSamplespace := ResonatorSchedule(allQubits, resonatorSamples);
    }
  }

  /** `Resonator_Spectroscopy_2_Node`, for a class whose `qubit_qois` is `qubitQois`. */
  method NewResonatorSpectroscopy2(name: string, allQubits: seq<string>, nodeDictionary: Dict<real>, resonatorSamples: string -> seq<Sample>,
                                   qubitQois: Option<seq<string>>)
    returns (r: Result<BaseNode.BaseNode>)
    ensures r.Err? <==> qubitQois.None?
    ensures r.Err? ==> r.error.ValueError?
    ensures r.Ok? ==> (fresh(r.value) && r.value.name == name && r.value.allQubits == allQubits &&
      r.value.redisFields == qubitQois.value && r.value.redisField == Some(ResonatorField2) &&
      r.value.qubitState == 2 && r.value.loops.None? &&
      r.value.scheduleSamplespace == ResonatorSchedule(allQubits, resonatorSamples))
  {
    r := BaseNode.BaseNode.Create(name, allQubits, nodeDictionary, qubitQois, None);
    if r.Ok? {
      var node := r.value;
      node.redisField := Some(ResonatorField2);
      node.qubitState := 2;
      node.scheduleSamplespace := ResonatorSchedule(allQubits, resonatorSamples);
    }
  }

  /** The _1 and _2 classes set no `qubit_qois`: building them raises the
      base constructor's ValueError. */
  method ResonatorNodesAsWritten(name: string, allQubits: seq<string>, nodeDictionary: Dict<real>, resonatorSamples: string -> seq<Sample>)
    returns (first: Result<BaseNode.BaseNode>, second: Result<BaseNode.BaseNode>)
    ensures first.Err? && first.error.ValueError?
    ensures second.Err? && second.error.ValueError?
  {
    first := NewResonatorSpectroscopy1(name, allQubits, nodeDictionary, resonatorSamples, None);
    second := NewResonatorSpectroscopy2(name, allQubits, nodeDictionary, resonatorSamples, None);
  }

  /** The resonator dataset has one axis, as long as the first qubit's
      grid; without qubits `dimensions` fails on `[0]`. */
  method ResonatorDimensions(allQubits: seq<string>, resonatorSamples: string -> seq<Sample>)
    returns (dims: Result<seq<nat>>)
    ensures |allQubits| == 0 ==> dims == Err(IndexError)
    ensures |allQubits| > 0 ==> dims == Ok([|resonatorSamples(allQubits[0])|])
  {
    ResonatorScheduleShape(allQubits, resonatorSamples);
    var node := NewResonatorSpectroscopy("resonator_spectroscopy", allQubits, [], resonatorSamples);
    dims := node.value.Dimensions();
    if |allQubits| > 0 {
      assert dims.Ok? && dims.value == [|resonatorSamples(allQubits[0])|];
    }
  }

  /** With `qubit_qois` set to its fields, `Resonator_Spectroscopy_1_Node`
      measures the same shape. */
  method Resonator1Dimensions(allQubits: seq<string>, resonatorSamples: string -> seq<Sample>)
    returns (dims: Result<seq<nat>>)
    ensures |allQubits| == 0 ==> dims == Err(IndexError)
    ensures |allQubits| > 0 ==> dims == Ok([|resonatorSamples(allQubits[0])|])
  {
    ResonatorScheduleShape(allQubits, resonatorSamples);
    var node := NewResonatorSpectroscopy1("resonator_spectroscopy_1", allQubits, [], resonatorSamples, Some(ResonatorField1));
    dims := node.value.Dimensions();
    if |allQubits| > 0 {
      assert dims.Ok? && dims.value == [|resonatorSamples(allQubits[0])|];
    }
  }

  /** The same for `Resonator_Spectroscopy_2_Node`. */
  method Resonator2Dimensions(allQubits: seq<string>, resonatorSamples: string -> seq<Sample>)
    returns (dims: Result<seq<nat>>)
    ensures |allQubits| == 0 ==> dims == Err(IndexError)
    ensures |allQubits| > 0 ==> dims == Ok([|resonatorSamples(allQubits[0])|])
  {
    ResonatorScheduleShape(allQubits, resonatorSamples);
    var node := NewResonatorSpectroscopy2("resonator_spectroscopy_2", allQubits, [], resonatorSamples, Some(ResonatorField2));
    dims := node.value.Dimensions();
    if |allQubits| > 0 {
      assert dims.Ok? && dims.value == [|resonatorSamples(allQubits[0])|];
    }
  }
}
