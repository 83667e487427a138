// workers/post_processing_worker.py: `post_process` and `Multiplexed_Analysis`.
// The variables of the measured dataset are grouped by qubit; then, variable
// by variable, the node's analysis is fitted to the merged dataset of the
// variable's qubit and its quantity is written to the store as trusted. The
// node's analysis class is the parameter `fit`, applied to the qubit and the
// names of the variables merged into its dataset.
module WorkersPostProcessing {

  import opened Common
  import opened Dicts
  import opened Store
  import opened Analysis

  /** The node attributes the analysis reads. */
  datatype PostNode = PostNode(name: string, redisField: string)

  /** Three columns; `np.min((n_coords, column_grid))` of them exist. */
  const ColumnGrid := 3

  /** What one run leaves behind: the updates issued, in order, as (qubit,
      quantity); the analysis' `node_result`; whether `measurement_dataset`
      was attached; and the error raised, if any. */
  datatype Outcome = Outcome(updates: seq<(string, Qoi)>, nodeResult: Dict<Qoi>, withDataset: bool, error: Option<Error>)

  /** The variable has a qubit and its column exists. */
  predicate Analysable(vars: seq<DataVar>, nCoords: nat, i: nat)
    requires i < |vars|
  {
    vars[i].qubit.Some? && AxisCheck(i, ColumnGrid, Min(nCoords, ColumnGrid)).None?
  }

  /** One pass of the per-variable loop: its qubit, its axis, its fit. */
  function Step(groups: map<string, set<string>>, nCoords: nat, fit: (string, set<string>) -> Qoi)
    : (DataVar, nat) -> Result<(string, Qoi)>
  {
    (v: DataVar, indx: nat) =>
      match v.qubit
      case None => Err(NoQubit)
      case Some(q) =>
        if AxisCheck(indx, ColumnGrid, Min(nCoords, ColumnGrid)).Some? then Err(IndexError)
        else Ok((q, fit(q, GroupOf(groups, q))))
  }

  lemma StepSpec(groups: map<string, set<string>>, nCoords: nat, fit: (string, set<string>) -> Qoi, vars: seq<DataVar>, i: nat)
    requires i < |vars|
    ensures var r := Step(groups, nCoords, fit)(vars[i], i);
      (r.Ok? <==> Analysable(vars, nCoords, i)) &&
      (r.Ok? ==> r.value == (vars[i].qubit.value, fit(vars[i].qubit.value, GroupOf(groups, vars[i].qubit.value))))
  {
  }

  /** `Multiplexed_Analysis(result_dataset, node)` followed by the attachment
      of the dataset in `post_process`: the figure is drawn before the
      variables are grouped. */
  function PostProcessed(node: PostNode, vars: seq<DataVar>, nCoords: nat, fit: (string, set<string>) -> Qoi): Outcome
  {
    if node.name == "tof" then Outcome([], [], false, None)
    else if BaseGrid(|vars|, nCoords).Some? then Outcome([], [], false, BaseGrid(|vars|, nCoords))
    else
      var g := GroupVars(vars, |vars|);
      if g.Err? then Outcome([], [], false, Some(g.error))
      else
        var (done, err) := Analyses(Step(g.value, nCoords, fit), vars, |vars|);
        Outcome(done, NodeResult(done), err.None?, err)
  }

  /** The store writes of a run. */
  function Writes(node: PostNode, o: Outcome): seq<Write>
  {
    AllTrustedWrites(node.name, node.redisField, o.updates)
  }

  /** 'tof' runs its own analysis and touches neither the store nor a result. */
  lemma TofUntouched(node: PostNode, vars: seq<DataVar>, nCoords: nat, fit: (string, set<string>) -> Qoi)
    requires node.name == "tof"
    ensures Writes(node, PostProcessed(node, vars, nCoords, fit)) == []
    ensures PostProcessed(node, vars, nCoords, fit) == Outcome([], [], false, None)
  {
  }

  /** A run fails exactly for a dataset without variables or without
      coordinates (an empty figure, a ValueError before any update), when a
      variable has no qubit, or when a variable's column does not exist;
      otherwise the dataset is attached. */
  lemma PostProcessedFails(node: PostNode, vars: seq<DataVar>, nCoords: nat, fit: (string, set<string>) -> Qoi)
    requires node.name != "tof"
    ensures var o := PostProcessed(node, vars, nCoords, fit);
      (o.error.None? <==> |vars| > 0 && nCoords > 0 && forall i :: 0 <= i < |vars| ==> Analysable(vars, nCoords, i)) &&
      (o.withDataset <==> o.error.None?)
    ensures |vars| == 0 || nCoords == 0 ==>
      var o := PostProcessed(node, vars, nCoords, fit);
      o.updates == [] && o.error.Some? && o.error.value.ValueError?
  {
    if BaseGrid(|vars|, nCoords).Some? {
      return;
    }
    var g := GroupVars(vars, |vars|);
    GroupVarsSpec(vars, |vars|, "", "");
    if g.Ok? {
      var step := Step(g.value, nCoords, fit);
      AnalysesSpec(step, vars, |vars|);
      var (done, err) := Analyses(step, vars, |vars|);
      if err.Some? {
        StepSpec(g.value, nCoords, fit, vars, |done|);
        assert !Analysable(vars, nCoords, |done|);
      } else {
        forall i | 0 <= i < |vars| ensures Analysable(vars, nCoords, i) {
          StepSpec(g.value, nCoords, fit, vars, i);
        }
      }
    } else {
      var i :| 0 <= i < |vars| && vars[i].qubit.None?;
      assert !Analysable(vars, nCoords, i);
    }
  }

  /** Each variable, in order, triggers exactly one update, for its own qubit,
      with the quantity fitted on the merged dataset of all variables of that
      qubit. */
  lemma PostProcessedUpdates(node: PostNode, vars: seq<DataVar>, nCoords: nat, fit: (string, set<string>) -> Qoi, i: nat, name: string)
    requires node.name != "tof"
    requires PostProcessed(node, vars, nCoords, fit).error.None?
    requires i < |vars|
    ensures |PostProcessed(node, vars, nCoords, fit).updates| == |vars|
    ensures vars[i].qubit.Some?
    ensures var q := vars[i].qubit.value;
      var g := GroupVars(vars, |vars|).value;
      PostProcessed(node, vars, nCoords, fit).updates[i] == (q, fit(q, GroupOf(g, q))) &&
      (name in GroupOf(g, q) <==> exists j :: 0 <= j < |vars| && vars[j].qubit == Some(q) && vars[j].name == name)
  {
    var g := GroupVars(vars, |vars|);
    GroupVarsSpec(vars, |vars|, "", "");
    var step := Step(g.value, nCoords, fit);
    AnalysesSpec(step, vars, |vars|);
    StepSpec(g.value, nCoords, fit, vars, i);
    var q := vars[i].qubit.value;
    GroupVarsSpec(vars, |vars|, q, name);
  }

  /** All updates of a successful run for a qubit carry its fitted quantity. */
  lemma UpdatesUniform(node: PostNode, vars: seq<DataVar>, nCoords: nat, fit: (string, set<string>) -> Qoi, q: string)
    requires node.name != "tof"
    requires PostProcessed(node, vars, nCoords, fit).error.None?
    ensures var done := PostProcessed(node, vars, nCoords, fit).updates;
      var g := GroupVars(vars, |vars|).value;
      LastFor(done, q) == (if exists i :: 0 <= i < |vars| && vars[i].qubit == Some(q) then Some(fit(q, GroupOf(g, q))) else None)
  {
    var g := GroupVars(vars, |vars|).value;
    var step := Step(g, nCoords, fit);
    AnalysesSpec(step, vars, |vars|);
    var done := Analyses(step, vars, |vars|).0;
    forall i | 0 <= i < |done| ensures done[i].0 == vars[i].qubit.value && done[i].1 == fit(done[i].0, GroupOf(g, done[i].0)) {
      StepSpec(g, nCoords, fit, vars, i);
    }
    LastForUniform(done, q, fit(q, GroupOf(g, q)));
    if exists i :: 0 <= i < |vars| && vars[i].qubit == Some(q) {
      var i :| 0 <= i < |vars| && vars[i].qubit == Some(q);
      assert done[i].0 == q;
    } else {
      forall i | 0 <= i < |done| ensures done[i].0 != q {
        StepSpec(g, nCoords, fit, vars, i);
      }
    }
  }

  /** After a run, the field of every qubit that carries a variable holds the
      quantity fitted for it and `node_result` records it; every other qubit
      keeps its field and has no result. */
  lemma PostProcessedField(h: Hashes, node: PostNode, vars: seq<DataVar>, nCoords: nat, fit: (string, set<string>) -> Qoi, q: string)
    requires node.name != "tof"
    requires PostProcessed(node, vars, nCoords, fit).error.None?
    ensures var o := PostProcessed(node, vars, nCoords, fit);
      var g := GroupVars(vars, |vars|).value;
      var h' := SetAll(h, Writes(node, o));
      if exists i :: 0 <= i < |vars| && vars[i].qubit == Some(q) then
        FieldOf(h', TransmonKey(q), node.redisField) == Some(fit(q, GroupOf(g, q))) &&
        Has(o.nodeResult, q) && Get(o.nodeResult, q) == fit(q, GroupOf(g, q))
      else
        FieldOf(h', TransmonKey(q), node.redisField) == FieldOf(h, TransmonKey(q), node.redisField) &&
        !Has(o.nodeResult, q)
  {
    var o := PostProcessed(node, vars, nCoords, fit);
    UpdatesUniform(node, vars, nCoords, fit, q);
    TrustedField(node.name, node.redisField, o.updates, q);
    SetAllValue(h, Writes(node, o), TransmonKey(q), node.redisField);
  }

  /** After a run, the node's flag reads 'calibrated' for every qubit that
      carries a variable; every other flag keeps its value. */
  lemma PostProcessedFlag(h: Hashes, node: PostNode, vars: seq<DataVar>, nCoords: nat, fit: (string, set<string>) -> Qoi, q: string)
    requires node.name != "tof"
    requires PostProcessed(node, vars, nCoords, fit).error.None?
    ensures var h' := SetAll(h, Writes(node, PostProcessed(node, vars, nCoords, fit)));
      FieldOf(h', StatusKey(q), node.name) ==
        if exists i :: 0 <= i < |vars| && vars[i].qubit == Some(q) then Some(Calibrated)
        else FieldOf(h, StatusKey(q), node.name)
  {
    var o := PostProcessed(node, vars, nCoords, fit);
    UpdatesUniform(node, vars, nCoords, fit, q);
    TrustedFlag(node.name, node.redisField, o.updates, q);
    SetAllValue(h, Writes(node, o), StatusKey(q), node.name);
  }

  /** `post_process(result_dataset, node)`: the run on the store. */
  method PostProcess(store: ParameterStore, node: PostNode, vars: seq<DataVar>, nCoords: nat, fit: (string, set<string>) -> Qoi)
    returns (o: Outcome)
    modifies store
    ensures o == PostProcessed(node, vars, nCoords, fit)
    ensures store.hashes == SetAll(old(store.hashes), Writes(node, o))
  {
    if node.name == "tof" {
      return Outcome([], [], false, None);
    }
    var grid := BaseGrid(|vars|, nCoords);
    if grid.Some? {
      return Outcome([], [], false, grid);
    }
    var g := GroupByQubit(vars);
    if g.Err? {
      return Outcome([], [], false, Some(g.error));
    }
    var analysis := new TrustedAnalysis();
    var done, err := AnalyseEach(store, analysis, node.name, node.redisField, vars, Step(g.value, nCoords, fit));
    return Outcome(done, analysis.nodeResult, err.None?, err);
  }
}
