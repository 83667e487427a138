// The coupler calibration nodes of
// tergite_autocalibration/lib/nodes/coupler_nodes.py: how a coupler name
// yields its qubits, the "couplers share qubits" check, the current handed
// to a coupler's DAC before each measurement, the coupler-spectroscopy
// constructors and the two-qubit-gate randomized-benchmarking nodes. The
// base class these nodes extend (tergite_autocalibration/lib/node_base.py)
// is not part of this model; `CouplerNode` holds the fields the constructors
// here assign.
module CouplerNodes {

  import opened Common
  import opened Dicts
  import opened Dataset
  import BaseNode
  import NodeSupervisor

  /** `RB_REPEATS`: the number of random seeds of the benchmarking nodes. */
  const RbRepeats: nat := 10

  // ---------------------------------------------------------------------
  // Coupled qubits.

  /** `[q for bus in couplers for q in bus.split('_')]`: the qubits of every
      coupler, coupler after coupler, each in its own order. */
  function CoupledQubits(couplers: seq<string>): seq<string>
  {
    if |couplers| == 0 then []
    else CoupledQubits(couplers[..|couplers| - 1]) + Split(couplers[|couplers| - 1], '_')
  }

  /** The flattening of a concatenation is the concatenation of the flattenings. */
  lemma {:induction false} CoupledQubitsAppend(a: seq<string>, b: seq<string>)
    ensures CoupledQubits(a + b) == CoupledQubits(a) + CoupledQubits(b)
    decreases |b|
  {
    if |b| > 0 {
      var n := |b| - 1;
      assert (a + b)[..|a + b| - 1] == a + b[..n];
      CoupledQubitsAppend(a, b[..n]);
    } else {
      assert a + b == a;
    }
  }

  /** A qubit is coupled exactly when it is a part of one of the coupler names. */
  lemma {:induction false} InCoupledQubits(couplers: seq<string>, q: string)
    ensures q in CoupledQubits(couplers) <==> exists k :: 0 <= k < |couplers| && q in Split(couplers[k], '_')
  {
    if q in CoupledQubits(couplers) {
      CoupledQubitsFrom(couplers, q);
    }
    if exists k :: 0 <= k < |couplers| && q in Split(couplers[k], '_') {
      var k :| 0 <= k < |couplers| && q in Split(couplers[k], '_');
      CoupledQubitsHas(couplers, k, q);
    }
  }

  /** Every qubit in the list comes from some coupler. */
  lemma {:induction false} CoupledQubitsFrom(couplers: seq<string>, q: string)
    requires q in CoupledQubits(couplers)
    ensures exists k :: 0 <= k < |couplers| && q in Split(couplers[k], '_')
    decreases |couplers|
  {
    var n := |couplers| - 1;
    if q in CoupledQubits(couplers[..n]) {
      CoupledQubitsFrom(couplers[..n], q);
      var k :| 0 <= k < n && q in Split(couplers[..n][k], '_');
      assert couplers[..n][k] == couplers[k];
    } else {
      assert q in Split(couplers[n], '_');
    }
  }

  /** Every qubit of every coupler is in the list. */
  lemma {:induction false} CoupledQubitsHas(couplers: seq<string>, k: nat, q: string)
    requires k < |couplers| && q in Split(couplers[k], '_')
    ensures q in CoupledQubits(couplers)
    decreases |couplers|
  {
    var n := |couplers| - 1;
    if k < n {
      assert couplers[..n][k] == couplers[k];
      CoupledQubitsHas(couplers[..n], k, q);
    }
  }

  /** Each coupler's qubits come before those of the couplers after it: the
      first coupler's split opens the list. */
  lemma FirstCouplerOpens(couplers: seq<string>)
    requires |couplers| > 0
    ensures |CoupledQubits(couplers)| >= |Split(couplers[0], '_')|
    ensures CoupledQubits(couplers)[..|Split(couplers[0], '_')|] == Split(couplers[0], '_')
  {
    CoupledQubitsAppend([couplers[0]], couplers[1..]);
    assert [couplers[0]] + couplers[1..] == couplers;
    assert [couplers[0]][..0] == [];
  }

  // ---------------------------------------------------------------------
  // validate

  /** `validate`: the coupled qubits are gathered coupler by coupler; when
      `set` of them is smaller than the list, some qubit occurs twice and the
      couplers are refused. */
  method Validate(couplers: seq<string>) returns (r: Result<()>)
    ensures r.Err? <==> !Distinct(CoupledQubits(couplers))
    ensures r.Err? ==> r.error == ValueError("Improper Couplers")
  {
    var allCoupledQubits: seq<string> := [];
    var i := 0;
    while i < |couplers|
      invariant 0 <= i <= |couplers|
      invariant allCoupledQubits == CoupledQubits(couplers[..i])
    {
      allCoupledQubits := allCoupledQubits + Split(couplers[i], '_');
      i := i + 1;
      assert couplers[..i][..i - 1] == couplers[..i - 1];
    }
    assert couplers[..i] == couplers;
    ElementsCount(allCoupledQubits);
    if |allCoupledQubits| > |set q | q in allCoupledQubits| {
      return Err(ValueError("Improper Couplers"));
    }
    return Ok(());
  }

  /** The qubits of the couplers around one coupler are those before it,
      then its own, then those after it. */
  lemma CoupledQubitsAround(front: seq<string>, coupler: string, back: seq<string>)
    ensures CoupledQubits(front + [coupler] + back) ==
      CoupledQubits(front) + Split(coupler, '_') + CoupledQubits(back)
  {
    var middle := [coupler];
    assert CoupledQubits(middle) == Split(coupler, '_') by {
      assert middle[..0] == [];
    }
    assert front + middle + back == front + (middle + back);
    CoupledQubitsAppend(front, middle + back);
    CoupledQubitsAppend(middle, back);
  }

  /** A sequence is what comes before position `j`, its element, and what follows. */
  lemma Around<T>(xs: seq<T>, j: nat)
    requires j < |xs|
    ensures xs == xs[..j] + [xs[j]] + xs[j + 1..]
  {
  }

  /** A sequence with the same element at two positions is not distinct. */
  lemma RepeatedAt<T>(xs: seq<T>, x: nat, y: nat)
    requires x < y < |xs| && xs[x] == xs[y]
    ensures !Distinct(xs)
  {
  }

  /** A qubit shared by the couplers before a coupler and by that coupler. */
  lemma SharedAround(front: seq<string>, coupler: string, back: seq<string>, q: string)
    requires q in CoupledQubits(front) && q in Split(coupler, '_')
    ensures !Distinct(CoupledQubits(front + [coupler] + back))
  {
    var a := CoupledQubits(front);
    var b := Split(coupler, '_');
    var all := CoupledQubits(front + [coupler] + back);
    CoupledQubitsAround(front, coupler, back);
    var x :| 0 <= x < |a| && a[x] == q;
    var y :| 0 <= y < |b| && b[y] == q;
    assert all[x] == a[x];
    assert all[|a| + y] == b[y];
    RepeatedAt(all, x, |a| + y);
  }

  /** Two different couplers that share a qubit are refused. */
  lemma SharedQubitRefused(couplers: seq<string>, i: nat, j: nat, q: string)
    requires i < j < |couplers|
    requires q in Split(couplers[i], '_') && q in Split(couplers[j], '_')
    ensures !Distinct(CoupledQubits(couplers))
  {
    var front := couplers[..j];
    assert q in CoupledQubits(front) by {
      InCoupledQubits(front, q);
      assert front[i] == couplers[i];
    }
    Around(couplers, j);
    SharedAround(front, couplers[j], couplers[j + 1..], q);
  }

  /** A qubit written twice in one coupler's name. */
  lemma RepeatedAround(front: seq<string>, coupler: string, back: seq<string>)
    requires !Distinct(Split(coupler, '_'))
    ensures !Distinct(CoupledQubits(front + [coupler] + back))
  {
    CoupledQubitsAround(front, coupler, back);
    RepeatedInMiddle(CoupledQubits(front), Split(coupler, '_'), CoupledQubits(back));
  }

  /** A repetition inside the middle part repeats in the whole. */
  lemma RepeatedInMiddle<T>(a: seq<T>, b: seq<T>, c: seq<T>)
    requires !Distinct(b)
    ensures !Distinct(a + b + c)
  {
    var x, y :| 0 <= x < y < |b| && b[x] == b[y];
    assert (a + b + c)[|a| + x] == b[x];
    assert (a + b + c)[|a| + y] == b[y];
    RepeatedAt(a + b + c, |a| + x, |a| + y);
  }

  /** A qubit written twice in one coupler's name is refused as well. */
  lemma RepeatedQubitRefused(couplers: seq<string>, i: nat)
    requires i < |couplers| && !Distinct(Split(couplers[i], '_'))
    ensures !Distinct(CoupledQubits(couplers))
  {
    Around(couplers, i);
    RepeatedAround(couplers[..i], couplers[i], couplers[i + 1..]);
  }

  // ---------------------------------------------------------------------
  // The pre-measurement DAC current.

  /** `pre_measurement_operation`: the value sent to the coupler's DAC, the
      first value of the reduced `dc_currents` dict. */
  function DacCurrent(reduced: Dict<Dict<Sample>>): (r: Result<Sample>)
    ensures r.Ok? <==> Has(reduced, "dc_currents") && |Get(reduced, "dc_currents")| > 0
    ensures !Has(reduced, "dc_currents") ==> r == Err(KeyError("dc_currents"))
  {
    if !Has(reduced, "dc_currents") then Err(KeyError("dc_currents"))
    else
      var iteration := Get(reduced, "dc_currents");
      if |iteration| == 0 then Err(IndexError) else Ok(iteration[0].1)
  }

  /** A slice of the external sweep over keys `keys` opens with the first key. */
  lemma {:induction false} ReducedAtFirst(values: Dict<seq<Sample>>, keys: seq<string>, i: nat)
    requires |keys| > 0 && NodeSupervisor.ReducedAt(values, keys, i).Ok?
    ensures var slice := NodeSupervisor.ReducedAt(values, keys, i).value;
      |slice| > 0 && slice[0].0 == keys[0]
    decreases |keys|
  {
    var n := |keys| - 1;
    if n > 0 {
      var init := NodeSupervisor.ReducedAt(values, keys[..n], i);
      ReducedAtFirst(values, keys[..n], i);
      assert keys[..n][0] == keys[0];
      var v := Get(values, keys[n])[i];
      assert Has(init.value, keys[n]) ==> Put(init.value, keys[n], v)[0].0 == init.value[0].0;
    }
  }

  /** In iteration `i` of the external `dc_currents` sweep, the DAC receives
      the `i`-th current of the first swept element. */
  lemma DacCurrentOfIteration(values: Dict<seq<Sample>>, keys: seq<string>, i: nat)
    requires |keys| > 0 && NodeSupervisor.ReducedAt(values, keys, i).Ok?
    ensures Has(values, keys[0]) && i < |Get(values, keys[0])| &&
      DacCurrent(NodeSupervisor.ReducedSpace("dc_currents", NodeSupervisor.ReducedAt(values, keys, i).value))
        == Ok(Get(values, keys[0])[i])
  {
    var slice := NodeSupervisor.ReducedAt(values, keys, i).value;
    ReducedAtFirst(values, keys, i);
    NodeSupervisor.ReducedAtSpec(values, keys, i, keys[0]);
    assert IndexOf(slice, keys[0]) == 0;
    var reduced := NodeSupervisor.ReducedSpace("dc_currents", slice);
    assert reduced[0].0 == "dc_currents";
  }

  // ---------------------------------------------------------------------
  // The nodes.

  class CouplerNode {
    var name: string
    var nodeType: string
    var allQubits: seq<string>
    var couplers: seq<string>
    var coupler: Option<string>
    var coupledQubits: seq<string>
    var backup: bool
    var qubitState: nat
    var redisField: seq<string>
    var scheduleSamplespace: Samplespace
    var externalSamplespace: Samplespace
    /** `node_externals` of the benchmarking nodes: the random seeds. */
    var nodeExternals: seq<int>
    var externalParameterName: string
    /** Whether this is the interleaved benchmarking node, which also puts
        `interleaving_clifford_id` into its node dictionary. */
    var interleaved: bool
    var interleavingCliffordId: Option<nat>

    /** The part of construction common to the nodes here: the base
        constructor (whose own fields are not modelled) and the couplers. */
    constructor (name: string, allQubits: seq<string>, couplers: seq<string>)
      ensures this.name == name && this.allQubits == allQubits && this.couplers == couplers
      ensures coupler.None? && coupledQubits == [] && redisField == [] && qubitState == 0
      ensures scheduleSamplespace == [] && externalSamplespace == [] && nodeExternals == []
      ensures !interleaved && interleavingCliffordId.None?
    {
      this.name := name;
      this.allQubits := allQubits;
      this.couplers := couplers;
      coupler := None;
      coupledQubits := [];
      redisField := [];
      qubitState := 0;
      scheduleSamplespace := [];
      externalSamplespace := [];
      nodeExternals := [];
      interleaved := false;
      interleavingCliffordId := None;
    }

    /** The benchmarking node's fields, once `couplers[0]` exists. */
    constructor RandomizedBenchmarking(name: string, allQubits: seq<string>, couplers: seq<string>, interleaved: bool)
      requires |couplers| > 0
      ensures this.name == name && this.allQubits == allQubits && this.couplers == couplers
      ensures nodeType == "parameterized_sweep" && !backup && qubitState == 0
      ensures coupler == Some(couplers[0]) && coupledQubits == Split(couplers[0], '_')
      ensures redisField == (if interleaved then ["tqg_fidelity_interleaved"] else ["tqg_fidelity"])
      ensures scheduleSamplespace == RbSamplespace(allQubits, interleaved) && externalSamplespace == []
      ensures nodeExternals == Seeds() && externalParameterName == "seed"
      ensures this.interleaved == interleaved
      ensures interleavingCliffordId == (if interleaved then Some(4386) else None)
    {
      this.name := name;
      nodeType := "parameterized_sweep";
      this.allQubits := allQubits;
      this.couplers := couplers;
      coupler := Some(couplers[0]);
      coupledQubits := Split(couplers[0], '_');
      backup := false;
      qubitState := 0;
      redisField := if interleaved then ["tqg_fidelity_interleaved"] else ["tqg_fidelity"];
      scheduleSamplespace := RbSamplespace(allQubits, interleaved);
      externalSamplespace := [];
      this.interleaved := interleaved;
      interleavingCliffordId := if interleaved then Some(4386) else None;
      nodeExternals := Seeds();
      externalParameterName := "seed";
    }

    /** The fields coupler spectroscopy assigns once its coupled qubits are
        known: it measures those qubits, each over its own grid, and sweeps
        the first coupler's current externally. */
    method SpectroscopyFields(coupled: seq<string>, qubitSamples: string -> seq<Sample>, currents: seq<Sample>)
      requires |couplers| > 0
      modifies this`coupledQubits, this`coupler, this`allQubits, this`scheduleSamplespace, this`externalSamplespace
      ensures coupledQubits == coupled && coupler == Some(couplers[0]) && allQubits == coupled
      ensures scheduleSamplespace == [("spec_frequencies", Comprehension(coupled, q => Values(qubitSamples(q))))]
      ensures externalSamplespace == [("dc_currents", [(couplers[0], Values(currents))])]
    {
      coupledQubits := coupled;
      coupler := Some(couplers[0]);
      allQubits := coupledQubits;
      scheduleSamplespace := [("spec_frequencies", Comprehension(allQubits, q => Values(qubitSamples(q))))];
      externalSamplespace := [("dc_currents", [(couplers[0], Values(currents))])];
    }

    /** `get_coupled_qubits`: only the first coupler is used; its qubits are
        returned and it becomes `coupler`. Without couplers, `[0]` fails. */
    method GetCoupledQubits() returns (r: Result<seq<string>>)
      modifies this`coupler
      ensures |couplers| == 0 ==> r == Err(IndexError) && coupler == old(coupler)
      ensures |couplers| > 0 ==> r == Ok(Split(couplers[0], '_')) && coupler == Some(couplers[0])
    {
      if |couplers| == 0 {
        return Err(IndexError);
      }
      r := Ok(Split(couplers[0], '_'));
      coupler := Some(couplers[0]);
    }

    /** `dimensions` of a benchmarking node: the number of Clifford lengths
        swept for the first qubit, by one. */
    method RbDimensions() returns (r: Result<seq<nat>>)
      ensures |allQubits| == 0 ==> r == Err(IndexError)
      ensures |allQubits| > 0 ==> r == Ok([if interleaved then 12 else 11, 1])
    {
      var space := RbSamplespace(allQubits, interleaved);
      if |allQubits| == 0 {
        return Err(IndexError);
      }
      BaseNode.PerQubitShape(allQubits, Values(CliffordLengths(interleaved)));
      assert space[0].0 == "number_of_cliffords";
      var cliffords := Get(space, "number_of_cliffords");
      r := Ok([BaseNode.SweepLength(Get(cliffords, allQubits[0])), 1]);
    }
  }

  /** `Coupler_Spectroscopy_Node(...)`: with a coupler, construction reaches
      `MeasurementMode.real`, a name the module never imports, and stops with
      a NameError; without one, `couplers[0]` fails first. */
  method NewCouplerSpectroscopy(name: string, allQubits: seq<string>, couplers: seq<string>)
    returns (r: Result<CouplerNode>)
    ensures |couplers| == 0 ==> r == Err(IndexError)
    ensures |couplers| > 0 ==> r == Err(UnboundLocal("MeasurementMode"))
  {
    var node := new CouplerNode(name, allQubits, couplers);
    node.redisField := ["parking_current"];
    node.qubitState := 0;
    var coupled := node.GetCoupledQubits();
    if coupled.Err? {
      return Err(coupled.error);
    }
    node.coupledQubits := coupled.value;
    node.coupler := Some(couplers[0]);
    return Err(UnboundLocal("MeasurementMode"));
  }

  /** `Coupler_Spectroscopy_Node(...)` as it reads once `MeasurementMode` is
      in scope (the DAC it then opens is not modelled): the node measures the
      first coupler's qubits, each over its own spectroscopy grid, and sweeps
      that coupler's current externally. */
  method NewCouplerSpectroscopyCorrected(name: string, allQubits: seq<string>, couplers: seq<string>,
                                         qubitSamples: string -> seq<Sample>, currents: seq<Sample>)
    returns (r: Result<CouplerNode>)
    ensures |couplers| == 0 ==> r == Err(IndexError)
    ensures |couplers| > 0 ==> r.Ok? && fresh(r.value)
    ensures r.Ok? ==> (r.value.coupler == Some(couplers[0]) &&
      r.value.allQubits == r.value.coupledQubits == Split(couplers[0], '_') &&
      r.value.redisField == ["parking_current"] && r.value.qubitState == 0 &&
      r.value.scheduleSamplespace == [("spec_frequencies", Comprehension(r.value.allQubits, q => Values(qubitSamples(q))))] &&
      r.value.externalSamplespace == [("dc_currents", [(couplers[0], Values(currents))])])
  {
    var node := new CouplerNode(name, allQubits, couplers);
    node.redisField := ["parking_current"];
    node.qubitState := 0;
    var coupled := node.GetCoupledQubits();
    if coupled.Err? {
      return Err(coupled.error);
    }
    node.SpectroscopyFields(coupled.value, qubitSamples, currents);
    return Ok(node);
  }

  /** Once built, the corrected node sweeps every qubit of the first coupler
      over its grid, those qubits open the flattening of all couplers, and
      iteration `i` of the external sweep sends the coupler's `i`-th current. */
  method CouplerSpectroscopyMeasures(name: string, allQubits: seq<string>, couplers: seq<string>,
                                     qubitSamples: string -> seq<Sample>, currents: seq<Sample>, i: nat)
    returns (node: Result<CouplerNode>, current: Result<Sample>)
    requires |couplers| > 0 && i < |currents|
    ensures node.Ok?
    ensures var sweeps := node.value.scheduleSamplespace;
      Has(sweeps, "spec_frequencies") &&
      forall q :: q in Split(couplers[0], '_') ==>
        Has(Get(sweeps, "spec_frequencies"), q) && Get(Get(sweeps, "spec_frequencies"), q) == Values(qubitSamples(q))
    ensures |node.value.allQubits| <= |CoupledQubits(couplers)| &&
      node.value.allQubits == CoupledQubits(couplers)[..|node.value.allQubits|]
    ensures current == Ok(currents[i])
  {
    node := NewCouplerSpectroscopyCorrected(name, allQubits, couplers, qubitSamples, currents);
    ComprehensionSpec(node.value.allQubits, q => Values(qubitSamples(q)));
    assert node.value.scheduleSamplespace[0].0 == "spec_frequencies";
    FirstCouplerOpens(couplers);
    var values: Dict<seq<Sample>> := [(couplers[0], currents)];
    assert values[0].0 == couplers[0];
    assert Get(values, couplers[0]) == currents;
    var slice := NodeSupervisor.ReducedAt(values, [couplers[0]], i);
    assert [couplers[0]][..0] == [];
    DacCurrentOfIteration(values, [couplers[0]], i);
    current := DacCurrent(NodeSupervisor.ReducedSpace("dc_currents", slice.value));
  }

  /** `Coupler_Resonator_Spectroscopy_Node(...)`: `couplers[0]` fails without
      couplers; with one, `MeasurementMode` is the same missing name. */
  method NewCouplerResonatorSpectroscopy(name: string, allQubits: seq<string>, couplers: seq<string>)
    returns (r: Result<CouplerNode>)
    ensures |couplers| == 0 ==> r == Err(IndexError)
    ensures |couplers| > 0 ==> r == Err(UnboundLocal("MeasurementMode"))
  {
    var node := new CouplerNode(name, allQubits, couplers);
    node.redisField := ["resonator_flux_quantum"];
    node.qubitState := 0;
    if |couplers| == 0 {
      return Err(IndexError);
    }
    node.coupler := Some(couplers[0]);
    return Err(UnboundLocal("MeasurementMode"));
  }

  // ---------------------------------------------------------------------
  // Two-qubit-gate randomized benchmarking.

  /** The Clifford sequence lengths swept for every qubit. */
  function CliffordLengths(interleaved: bool): seq<int>
  {
    if interleaved then [0, 1, 2, 3, 4, 8, 16, 32, 64, 128, 0, 1]
    else [0, 2, 4, 8, 16, 32, 64, 128, 0, 1, 2]
  }

  /** The `samplespace` property: the Clifford lengths for every qubit. */
  function RbSamplespace(allQubits: seq<string>, interleaved: bool): Samplespace
  {
    [("number_of_cliffords", BaseNode.PerQubit(allQubits, Values(CliffordLengths(interleaved))))]
  }

  /** `42 * np.arange(RB_REPEATS)`. */
  function Seeds(): seq<int>
  {
    var base := Range(0, RbRepeats, 1);
    seq(|base|, k requires 0 <= k < |base| => 42 * base[k])
  }

  /** The seeds are the first ten multiples of 42. */
  lemma SeedsSpec()
    ensures |Seeds()| == RbRepeats
    ensures forall k :: 0 <= k < RbRepeats ==> Seeds()[k] == 42 * k
  {
    RangeSpec(0, RbRepeats, 1);
  }

  /** `TQG_Randomized_Benchmarking_Node(...)` and its interleaved variant: a
      parameterized sweep without backup whose samplespace sweeps the Clifford
      lengths per qubit and whose externals are the seeds; `couplers[0]`
      fails without couplers. */
  method NewTqgRandomizedBenchmarking(name: string, allQubits: seq<string>, couplers: seq<string>, interleaved: bool)
    returns (r: Result<CouplerNode>)
    ensures |couplers| == 0 <==> r.Err?
    ensures r.Err? ==> r.error == IndexError
    ensures r.Ok? ==> (fresh(r.value) && r.value.name == name && r.value.allQubits == allQubits &&
      r.value.nodeType == "parameterized_sweep" && !r.value.backup &&
      r.value.coupler == Some(couplers[0]) && r.value.coupledQubits == Split(couplers[0], '_') &&
      r.value.redisField == (if interleaved then ["tqg_fidelity_interleaved"] else ["tqg_fidelity"]) &&
      r.value.scheduleSamplespace == RbSamplespace(allQubits, interleaved) &&
      r.value.nodeExternals == Seeds() && r.value.externalParameterName == "seed" &&
      r.value.interleaved == interleaved &&
      r.value.interleavingCliffordId == (if interleaved then Some(4386) else None))
  {
    if |couplers| == 0 {
      return Err(IndexError);
    }
    var node := new CouplerNode.RandomizedBenchmarking(name, allQubits, couplers, interleaved);
    return Ok(node);
  }

  /** The benchmarking datasets are 11 by 1, or 12 by 1 when interleaved,
      and each of the ten seeds is 42 times its index. */
  method TqgRandomizedBenchmarkingShape(allQubits: seq<string>, couplers: seq<string>, interleaved: bool)
    returns (dims: Result<seq<nat>>, seeds: seq<int>)
    requires |couplers| > 0 && |allQubits| > 0
    ensures dims == Ok([if interleaved then 12 else 11, 1])
    ensures |seeds| == RbRepeats && forall k :: 0 <= k < |seeds| ==> seeds[k] == 42 * k
  {
    var node := NewTqgRandomizedBenchmarking("tqg_randomized_benchmarking", allQubits, couplers, interleaved);
    dims := node.value.RbDimensions();
    seeds := node.value.nodeExternals;
    SeedsSpec();
  }
}
