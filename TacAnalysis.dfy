// analysis/tac_quantify_analysis.py: `Multiplexed_Analysis`. The node name
// selects an analysis class and the transmon field it calibrates; each data
// variable is analysed on its own and its quantity written to the store as
// trusted. The analysis classes' fitting is the parameter `fit`, applied to
// the class, the qubit and the variable's name.
module TacAnalysis {

  import opened Common
  import opened Dicts
  import opened Store
  import opened Analysis

  /** The analysis classes the node names select. */
  datatype AnalysisClass =
    | ResonatorSpectroscopyAnalysis
    | QubitSpectroscopyAnalysis
    | RabiAnalysis
    | RamseyAnalysis
    | MotzoiAnalysis
    | ResonatorSpectroscopy1Analysis

  /** Three columns; `np.min((n_coords, column_grid))` of them exist. */
  const ColumnGrid := 3

  /** The node names the dispatch knows. */
  const TacNodes: set<string> := {"resonator_spectroscopy", "qubit_01_spectroscopy_pulsed", "rabi_oscillations",
                                  "ramsey_correction", "motzoi_parameter", "resonator_spectroscopy_1"}

  /** The if-chain selecting `analysis_class` and `redis_field`; any other
      name leaves both unbound. */
  function Dispatch(node: string): (r: Option<(AnalysisClass, string)>)
    ensures r.Some? <==> node in TacNodes
  {
    if node == "resonator_spectroscopy" then Some((ResonatorSpectroscopyAnalysis, "ro_freq"))
    else if node == "qubit_01_spectroscopy_pulsed" then Some((QubitSpectroscopyAnalysis, "freq_01"))
    else if node == "rabi_oscillations" then Some((RabiAnalysis, "mw_amp180"))
    else if node == "ramsey_correction" then Some((RamseyAnalysis, "freq_01"))
    else if node == "motzoi_parameter" then Some((MotzoiAnalysis, "mw_motzoi"))
    else if node == "resonator_spectroscopy_1" then Some((ResonatorSpectroscopy1Analysis, "ro_freq_1"))
    else None
  }

  /** The frequency nodes share a field: the Ramsey correction refines what
      the pulsed spectroscopy found, and each resonator node has its own. */
  lemma DispatchFields()
    ensures Dispatch("qubit_01_spectroscopy_pulsed").value.1 == Dispatch("ramsey_correction").value.1 == "freq_01"
    ensures Dispatch("resonator_spectroscopy").value.1 != Dispatch("resonator_spectroscopy_1").value.1
    ensures forall a, b :: a in TacNodes && b in TacNodes && Dispatch(a).value.0 == Dispatch(b).value.0 ==> a == b
  {
  }

  /** The field a node's updates write; a name outside the table never
      reaches an update, so its field is immaterial. */
  function FieldFor(node: string): string
  {
    if Dispatch(node).Some? then Dispatch(node).value.1 else ""
  }

  /** One pass of the per-variable loop: its qubit, its axis, its class, its fit. */
  function Step(node: string, nCoords: nat, fit: (AnalysisClass, string, string) -> Qoi)
    : (DataVar, nat) -> Result<(string, Qoi)>
  {
    (v: DataVar, indx: nat) =>
      match v.qubit
      case None => Err(NoQubit)
      case Some(q) =>
        if AxisCheck(indx, ColumnGrid, Min(nCoords, ColumnGrid)).Some? then Err(IndexError)
        else if Dispatch(node).None? then Err(UnboundLocal("analysis_class"))
        else Ok((q, fit(Dispatch(node).value.0, q, v.name)))
  }

  lemma StepSpec(node: string, nCoords: nat, fit: (AnalysisClass, string, string) -> Qoi, vars: seq<DataVar>, i: nat)
    requires i < |vars|
    ensures var r := Step(node, nCoords, fit)(vars[i], i);
      r == if vars[i].qubit.None? then Err(NoQubit)
        else if AxisCheck(i, ColumnGrid, Min(nCoords, ColumnGrid)).Some? then Err(IndexError)
        else if node !in TacNodes then Err(UnboundLocal("analysis_class"))
        else Ok((vars[i].qubit.value, fit(Dispatch(node).value.0, vars[i].qubit.value, vars[i].name)))
  {
    assert Dispatch(node).Some? <==> node in TacNodes;
  }

  /** What one analysis leaves behind: the updates issued, in order, as
      (qubit, quantity); its `node_result`; and the error raised, if any. */
  datatype Outcome = Outcome(updates: seq<(string, Qoi)>, nodeResult: Dict<Qoi>, error: Option<Error>)

  /** `Multiplexed_Analysis(result_dataset, node)`. For 'tof' it calls a
      `plot` that is not defined anywhere; otherwise the figure is drawn
      before the first variable is looked at. */
  function Analysed(node: string, vars: seq<DataVar>, nCoords: nat, fit: (AnalysisClass, string, string) -> Qoi): Outcome
  {
    if node == "tof" then Outcome([], [], Some(UnboundLocal("plot")))
    else if BaseGrid(|vars|, nCoords).Some? then Outcome([], [], BaseGrid(|vars|, nCoords))
    else
      var (done, err) := Analyses(Step(node, nCoords, fit), vars, |vars|);
      Outcome(done, NodeResult(done), err)
  }

  /** The store writes of an analysis. */
  function Writes(node: string, o: Outcome): seq<Write>
  {
    AllTrustedWrites(node, FieldFor(node), o.updates)
  }

  /** Besides 'tof', the analysis fails exactly for a dataset without
      variables or without coordinates (an empty figure, before any update),
      for a node outside the table, and for a variable without a qubit or
      without a column. */
  lemma AnalysedFails(node: string, vars: seq<DataVar>, nCoords: nat, fit: (AnalysisClass, string, string) -> Qoi)
    requires node != "tof"
    ensures Analysed(node, vars, nCoords, fit).error.None? <==>
      |vars| > 0 && nCoords > 0 && node in TacNodes &&
      forall i :: 0 <= i < |vars| ==> vars[i].qubit.Some? && AxisCheck(i, ColumnGrid, Min(nCoords, ColumnGrid)).None?
    ensures |vars| == 0 || nCoords == 0 ==>
      Analysed(node, vars, nCoords, fit).updates == [] && Analysed(node, vars, nCoords, fit).error.Some? &&
      Analysed(node, vars, nCoords, fit).error.value.ValueError?
  {
    if BaseGrid(|vars|, nCoords).Some? {
      return;
    }
    var step := Step(node, nCoords, fit);
    AnalysesSpec(step, vars, |vars|);
    var (done, err) := Analyses(step, vars, |vars|);
    if err.Some? {
      StepSpec(node, nCoords, fit, vars, |done|);
    } else {
      forall i | 0 <= i < |vars|
        ensures vars[i].qubit.Some? && AxisCheck(i, ColumnGrid, Min(nCoords, ColumnGrid)).None?
      {
        StepSpec(node, nCoords, fit, vars, i);
      }
      if |vars| > 0 {
        StepSpec(node, nCoords, fit, vars, 0);
      }
    }
  }

  /** A node outside the table writes nothing: the first variable whose qubit
      and column exist fails on the unbound class. */
  lemma UnknownNodeWritesNothing(node: string, vars: seq<DataVar>, nCoords: nat, fit: (AnalysisClass, string, string) -> Qoi)
    requires node != "tof" && node !in TacNodes
    ensures Analysed(node, vars, nCoords, fit).updates == []
    ensures |vars| > 0 && vars[0].qubit.Some? && nCoords > 0 ==>
      Analysed(node, vars, nCoords, fit).error == Some(UnboundLocal("analysis_class"))
  {
    var step := Step(node, nCoords, fit);
    AnalysesSpec(step, vars, |vars|);
    var (done, err) := Analyses(step, vars, |vars|);
    if |vars| > 0 {
      StepSpec(node, nCoords, fit, vars, 0);
    }
  }

  /** Each variable, in order, triggers exactly one update, for its own qubit,
      with the quantity its class fits on that variable alone. */
  lemma AnalysedUpdates(node: string, vars: seq<DataVar>, nCoords: nat, fit: (AnalysisClass, string, string) -> Qoi, i: nat)
    requires node != "tof"
    requires Analysed(node, vars, nCoords, fit).error.None?
    requires i < |vars|
    ensures |Analysed(node, vars, nCoords, fit).updates| == |vars|
    ensures vars[i].qubit.Some? && node in TacNodes
    ensures Analysed(node, vars, nCoords, fit).updates[i] ==
      (vars[i].qubit.value, fit(Dispatch(node).value.0, vars[i].qubit.value, vars[i].name))
  {
    var step := Step(node, nCoords, fit);
    AnalysesSpec(step, vars, |vars|);
    StepSpec(node, nCoords, fit, vars, i);
  }

  /** The updates of a successful analysis follow the variables' qubits. */
  lemma UpdatesFollowVars(node: string, vars: seq<DataVar>, nCoords: nat, fit: (AnalysisClass, string, string) -> Qoi)
    requires node != "tof"
    requires Analysed(node, vars, nCoords, fit).error.None?
    ensures var done := Analysed(node, vars, nCoords, fit).updates;
      |done| == |vars| && (|vars| > 0 ==> node in TacNodes) &&
      forall i :: 0 <= i < |done| ==>
        vars[i].qubit.Some? && done[i] == (vars[i].qubit.value, fit(Dispatch(node).value.0, vars[i].qubit.value, vars[i].name))
  {
    var step := Step(node, nCoords, fit);
    AnalysesSpec(step, vars, |vars|);
    var done := Analyses(step, vars, |vars|).0;
    forall i | 0 <= i < |done|
      ensures vars[i].qubit.Some? && done[i] == (vars[i].qubit.value, fit(Dispatch(node).value.0, vars[i].qubit.value, vars[i].name))
    {
      StepSpec(node, nCoords, fit, vars, i);
    }
    if |vars| > 0 {
      StepSpec(node, nCoords, fit, vars, 0);
    }
  }

  /** After an analysis, a qubit without variables keeps its field and its
      node flag, and has no result. */
  lemma AnalysedUntouched(h: Hashes, node: string, vars: seq<DataVar>, nCoords: nat, fit: (AnalysisClass, string, string) -> Qoi, q: string)
    requires node != "tof"
    requires Analysed(node, vars, nCoords, fit).error.None?
    requires forall i :: 0 <= i < |vars| ==> vars[i].qubit != Some(q)
    ensures var o := Analysed(node, vars, nCoords, fit);
      var h' := SetAll(h, Writes(node, o));
      FieldOf(h', TransmonKey(q), FieldFor(node)) == FieldOf(h, TransmonKey(q), FieldFor(node)) &&
      FieldOf(h', StatusKey(q), node) == FieldOf(h, StatusKey(q), node) &&
      !Has(Analysed(node, vars, nCoords, fit).nodeResult, q)
  {
    var o := Analysed(node, vars, nCoords, fit);
    UpdatesFollowVars(node, vars, nCoords, fit);
    TrustedField(node, FieldFor(node), o.updates, q);
    TrustedFlag(node, FieldFor(node), o.updates, q);
    SetAllValue(h, Writes(node, o), TransmonKey(q), FieldFor(node));
    SetAllValue(h, Writes(node, o), StatusKey(q), node);
  }

  /** After an analysis, a qubit's field holds the quantity fitted on its
      last variable, its node flag reads 'calibrated', and `node_result`
      records the same quantity: a later variable of a qubit overrides an
      earlier one. */
  lemma AnalysedLast(h: Hashes, node: string, vars: seq<DataVar>, nCoords: nat, fit: (AnalysisClass, string, string) -> Qoi, q: string, i: nat)
    requires node != "tof"
    requires Analysed(node, vars, nCoords, fit).error.None?
    requires i < |vars| && vars[i].qubit == Some(q)
    requires forall j :: i < j < |vars| ==> vars[j].qubit != Some(q)
    ensures node in TacNodes
    ensures var o := Analysed(node, vars, nCoords, fit);
      var h' := SetAll(h, Writes(node, o));
      var qoi := fit(Dispatch(node).value.0, q, vars[i].name);
      FieldOf(h', TransmonKey(q), FieldFor(node)) == Some(qoi) &&
      FieldOf(h', StatusKey(q), node) == Some(Calibrated) &&
      Has(o.nodeResult, q) && Get(o.nodeResult, q) == qoi
  {
    var o := Analysed(node, vars, nCoords, fit);
    var done := o.updates;
    UpdatesFollowVars(node, vars, nCoords, fit);
    var qoi := fit(Dispatch(node).value.0, q, vars[i].name);
    assert done[i] == (q, qoi);
    assert forall j :: i < j < |done| ==> done[j].0 != q;
    LastForAt(done, q, i);
    TrustedField(node, FieldFor(node), done, q);
    TrustedFlag(node, FieldFor(node), done, q);
    SetAllValue(h, Writes(node, o), TransmonKey(q), FieldFor(node));
    SetAllValue(h, Writes(node, o), StatusKey(q), node);
  }

  /** The analysis on the store. */
  method MultiplexedAnalysis(store: ParameterStore, node: string, vars: seq<DataVar>, nCoords: nat,
                             fit: (AnalysisClass, string, string) -> Qoi)
    returns (o: Outcome)
    modifies store
    ensures o == Analysed(node, vars, nCoords, fit)
    ensures store.hashes == SetAll(old(store.hashes), Writes(node, o))
  {
    if node == "tof" {
      return Outcome([], [], Some(UnboundLocal("plot")));
    }
    var grid := BaseGrid(|vars|, nCoords);
    if grid.Some? {
      return Outcome([], [], grid);
    }
    var analysis := new TrustedAnalysis();
    var done, err := AnalyseEach(store, analysis, node, FieldFor(node), vars, Step(node, nCoords, fit));
    return Outcome(done, analysis.nodeResult, err);
  }
}
