// tergite_acl/functions/post_processing_worker.py: `post_process`. The data
// variables are grouped by qubit; each variable's analysis is fitted on the
// merged dataset of its qubit and its quantities are filed under an element:
// the node's coupler for the two-qubit-gate nodes, the qubit otherwise. The
// node's analysis class is the parameter `fit` (the qubit and the merged
// variable names to the list `run_fitting` returns); its
// `update_redis_trusted_values` is not part of this model, so each call is
// recorded as an update of the element with the quantities.
module AclPostProcessing {

  import opened Common
  import opened Dicts
  import opened Analysis

  /** The node attributes `post_process` reads. */
  datatype AclPostNode = AclPostNode(name: string, redisField: seq<string>, plotsPerQubit: nat, coupler: Option<string>)

  /** `qubit_types` from the coupler configuration: 'Control' or 'Target'. */
  type QubitTypes = map<string, string>

  /** Five columns per row; `np.min((n_vars, n_coords, column_grid))` exist. */
  const ColumnGrid := 5

  /** A value of the returned results. */
  datatype Entry = Quantities(fields: Dict<Qoi>) | MeasurementDataset

  // ---------------------------------------------------------------------
  // The figure grid

  /** `int(np.ceil(n_vars / column_grid)) * node.plots_per_qubit`. */
  function Rows(nVars: nat, plotsPerQubit: nat): nat
  {
    ((nVars + ColumnGrid - 1) / ColumnGrid) * plotsPerQubit
  }

  /** Every variable's primary row and each of its secondary rows exists. */
  lemma RowsCover(nVars: nat, plotsPerQubit: nat, indx: nat, plotIndx: nat)
    requires indx < nVars && plotIndx < plotsPerQubit
    ensures plotsPerQubit * (indx / ColumnGrid) + plotIndx < Rows(nVars, plotsPerQubit)
  {
    var a, b := indx / ColumnGrid, (nVars + ColumnGrid - 1) / ColumnGrid;
    assert a + 1 <= b;
    assert plotsPerQubit * a + plotsPerQubit <= plotsPerQubit * b by {
      assert plotsPerQubit * (a + 1) <= plotsPerQubit * b;
    }
  }

  // ---------------------------------------------------------------------
  // Element routing

  /** The CZ nodes whose results belong to the coupler for a 'Target' qubit;
      'cz_dynamic_phase' is listed twice. */
  const TargetNodes: seq<string> := ["cz_calibration", "cz_dynamic_phase", "cz_dynamic_phase", "cz_calibration_ssro",
                                     "cz_calibration_swap_ssro", "cz_optimize_chevron"]

  /** The CZ nodes whose results belong to the coupler for a 'Control' qubit. */
  const ControlNodes: seq<string> := ["cz_chevron", "cz_chevron_amplitude", "cz_calibration_swap", "cz_dynamic_phase_swap"]

  /** The nodes whose results always belong to the coupler. */
  const CouplerNodes: seq<string> := ["coupler_spectroscopy", "tqg_randomized_benchmarking",
                                      "tqg_randomized_benchmarking_interleaved"]

  /** The node's coupler; a node without one raises AttributeError. */
  function CouplerOf(node: AclPostNode): Result<string>
  {
    if node.coupler.Some? then Ok(node.coupler.value) else Err(AttributeError)
  }

  /** The element the results of a variable of `qubit` go to. `qubit_types`
      is consulted only for the CZ names, and must know the qubit then. */
  function Element(node: AclPostNode, types: QubitTypes, qubit: string): Result<string>
  {
    if node.name in TargetNodes then
      if qubit !in types then Err(KeyError(qubit))
      else if types[qubit] == "Target" then CouplerOf(node) else Ok(qubit)
    else if node.name in ControlNodes then
      if qubit !in types then Err(KeyError(qubit))
      else if types[qubit] == "Control" then CouplerOf(node) else Ok(qubit)
    else if node.name in CouplerNodes then CouplerOf(node)
    else Ok(qubit)
  }

  /** The results go to the coupler. */
  predicate ToCoupler(node: AclPostNode, types: QubitTypes, qubit: string)
  {
    (node.name in TargetNodes && qubit in types && types[qubit] == "Target") ||
    (node.name in ControlNodes && qubit in types && types[qubit] == "Control") ||
    node.name in CouplerNodes
  }

  /** The three lists name different nodes. */
  lemma NodeListsDisjoint(name: string)
    ensures !(name in TargetNodes && name in ControlNodes)
    ensures !(name in TargetNodes && name in CouplerNodes)
    ensures !(name in ControlNodes && name in CouplerNodes)
  {
  }

  /** Routing: results go to the coupler in the three listed cases and to the
      qubit otherwise; it fails only on a CZ name with a qubit `qubit_types`
      lacks, or on a coupler the node does not have. */
  lemma ElementSpec(node: AclPostNode, types: QubitTypes, qubit: string)
    ensures Element(node, types, qubit).Err? <==>
      ((node.name in TargetNodes || node.name in ControlNodes) && qubit !in types) ||
      (ToCoupler(node, types, qubit) && node.coupler.None?)
    ensures Element(node, types, qubit).Ok? ==>
      Element(node, types, qubit).value == if ToCoupler(node, types, qubit) then node.coupler.value else qubit
  {
    NodeListsDisjoint(node.name);
  }

  // ---------------------------------------------------------------------
  // `dict(zip(redis_field, qoi))`

  /** The dictionary of the first n pairs: a later field overwrites. */
  function ZipUpTo(fields: seq<string>, qois: seq<Qoi>, n: nat): Dict<Qoi>
    requires n <= |fields| && n <= |qois|
  {
    if n == 0 then [] else Put(ZipUpTo(fields, qois, n - 1), fields[n - 1], qois[n - 1])
  }

  /** `dict(zip(fields, qois))`: zip stops at the shorter list. */
  function Zip(fields: seq<string>, qois: seq<Qoi>): Dict<Qoi>
  {
    ZipUpTo(fields, qois, Min(|fields|, |qois|))
  }

  /** A field is in the zip iff it is among the first `min` fields, and it
      maps to the quantity at its last position there. */
  lemma {:induction false} ZipUpToSpec(fields: seq<string>, qois: seq<Qoi>, n: nat, f: string)
    requires n <= |fields| && n <= |qois|
    ensures Valid(ZipUpTo(fields, qois, n))
    ensures Has(ZipUpTo(fields, qois, n), f) <==> f in fields[..n]
    ensures forall i :: (0 <= i < n && fields[i] == f && (forall j :: i < j < n ==> fields[j] != f)) ==>
      Get(ZipUpTo(fields, qois, n), f) == qois[i]
  {
    if n > 0 {
      ZipUpToSpec(fields, qois, n - 1, f);
      PutValid(ZipUpTo(fields, qois, n - 1), fields[n - 1], qois[n - 1]);
      PutGet(ZipUpTo(fields, qois, n - 1), fields[n - 1], qois[n - 1], f);
      assert fields[..n] == fields[..n - 1] + [fields[n - 1]];
    }
  }

  /** The zip truncates: fields past the shorter list are dropped. */
  lemma ZipTruncates(fields: seq<string>, qois: seq<Qoi>, f: string)
    ensures Has(Zip(fields, qois), f) <==> f in fields[..Min(|fields|, |qois|)]
    ensures forall i :: (0 <= i < Min(|fields|, |qois|) && fields[i] == f &&
      (forall j :: i < j < Min(|fields|, |qois|) ==> fields[j] != f)) ==> Get(Zip(fields, qois), f) == qois[i]
  {
    ZipUpToSpec(fields, qois, Min(|fields|, |qois|), f);
  }

  // ---------------------------------------------------------------------
  // The run

  /** The columns that exist. */
  function Columns(nVars: nat, nCoords: nat): nat
  {
    Min(Min(nVars, nCoords), ColumnGrid)
  }

  /** The figure of `plt.subplots`: it has rows and columns exactly when
      there is a variable, a coordinate and a plot per qubit. */
  function Figure(node: AclPostNode, nVars: nat, nCoords: nat): (r: Option<Error>)
    ensures r.None? <==> nVars > 0 && nCoords > 0 && node.plotsPerQubit > 0
    ensures r.Some? ==> r.value.ValueError?
  {
    assert nVars > 0 ==> (nVars + ColumnGrid - 1) / ColumnGrid > 0;
    Subplots(Rows(nVars, node.plotsPerQubit), Columns(nVars, nCoords))
  }

  /** One pass of the loop: its qubit, its primary axis, its fit, its element. */
  function Step(node: AclPostNode, types: QubitTypes, groups: map<string, set<string>>, nVars: nat, nCoords: nat,
                fit: (string, set<string>) -> seq<Qoi>)
    : (DataVar, nat) -> Result<(string, seq<Qoi>)>
  {
    (v: DataVar, indx: nat) =>
      match v.qubit
      case None => Err(NoQubit)
      case Some(q) =>
        if AxisCheck(indx, ColumnGrid, Columns(nVars, nCoords)).Some? then Err(IndexError)
        else
          var e := Element(node, types, q);
          if e.Err? then Err(e.error) else Ok((e.value, fit(q, GroupOf(groups, q))))
  }

  lemma StepSpec(node: AclPostNode, types: QubitTypes, groups: map<string, set<string>>, nCoords: nat,
                 fit: (string, set<string>) -> seq<Qoi>, vars: seq<DataVar>, i: nat)
    requires i < |vars|
    ensures var r := Step(node, types, groups, |vars|, nCoords, fit)(vars[i], i);
      r == if vars[i].qubit.None? then Err(NoQubit)
        else if AxisCheck(i, ColumnGrid, Columns(|vars|, nCoords)).Some? then Err(IndexError)
        else if Element(node, types, vars[i].qubit.value).Err? then Err(Element(node, types, vars[i].qubit.value).error)
        else Ok((Element(node, types, vars[i].qubit.value).value, fit(vars[i].qubit.value, GroupOf(groups, vars[i].qubit.value))))
  {
  }

  /** `all_results` after a run of updates: each element to the zip of its
      last quantities. */
  function AllResults(fields: seq<string>, done: seq<(string, seq<Qoi>)>): Dict<Entry>
  {
    if |done| == 0 then []
    else Put(AllResults(fields, done[..|done| - 1]), done[|done| - 1].0, Quantities(Zip(fields, done[|done| - 1].1)))
  }

  /** A later variable filed under the same element overwrites an earlier one. */
  lemma {:induction false} AllResultsSpec(fields: seq<string>, done: seq<(string, seq<Qoi>)>, e: string)
    ensures Valid(AllResults(fields, done))
    ensures Has(AllResults(fields, done), e) <==> LastFor(done, e).Some?
    ensures Has(AllResults(fields, done), e) ==> Get(AllResults(fields, done), e) == Quantities(Zip(fields, LastFor(done, e).value))
  {
    if |done| > 0 {
      var init := done[..|done| - 1];
      AllResultsSpec(fields, init, e);
      PutValid(AllResults(fields, init), done[|done| - 1].0, Quantities(Zip(fields, done[|done| - 1].1)));
      PutGet(AllResults(fields, init), done[|done| - 1].0, Quantities(Zip(fields, done[|done| - 1].1)), e);
    }
  }

  /** How `post_process` ends: 'tof' returns None; otherwise the updates
      issued, in order, as (element, quantities), and either the returned
      results or the error raised. */
  datatype Outcome =
    | Skipped
    | Finished(updates: seq<(string, seq<Qoi>)>, results: Dict<Entry>)
    | Failed(updates: seq<(string, seq<Qoi>)>, error: Error)

  /** The results returned: `measurement_dataset` is added whatever the node,
      since a node object never equals the string 'tof'. */
  function Returned(fields: seq<string>, done: seq<(string, seq<Qoi>)>): Dict<Entry>
  {
    Put(AllResults(fields, done), "measurement_dataset", MeasurementDataset)
  }

  /** `post_process(result_dataset, node, data_path)`. */
  function PostProcessed(node: AclPostNode, types: QubitTypes, vars: seq<DataVar>, nCoords: nat,
                         fit: (string, set<string>) -> seq<Qoi>): (o: Outcome)
    ensures o.Skipped? <==> node.name == "tof"
  {
    if node.name == "tof" then Skipped
    else if Figure(node, |vars|, nCoords).Some? then Failed([], Figure(node, |vars|, nCoords).value)
    else
      var g := GroupVars(vars, |vars|);
      if g.Err? then Failed([], g.error)
      else
        var (done, err) := Analyses(Step(node, types, g.value, |vars|, nCoords, fit), vars, |vars|);
        if err.Some? then Failed(done, err.value) else Finished(done, Returned(node.redisField, done))
  }

  /** A run fails exactly for an empty figure (no variable, no coordinate or
      no plot per qubit: a ValueError before any update), or when a variable
      has no qubit, has no column, or cannot be routed. */
  lemma PostProcessedFails(node: AclPostNode, types: QubitTypes, vars: seq<DataVar>, nCoords: nat,
                           fit: (string, set<string>) -> seq<Qoi>)
    requires node.name != "tof"
    ensures PostProcessed(node, types, vars, nCoords, fit).Failed? <==>
      |vars| == 0 || nCoords == 0 || node.plotsPerQubit == 0 ||
      exists i :: 0 <= i < |vars| &&
        (vars[i].qubit.None? || AxisCheck(i, ColumnGrid, Columns(|vars|, nCoords)).Some? ||
         Element(node, types, vars[i].qubit.value).Err?)
    ensures |vars| == 0 || nCoords == 0 || node.plotsPerQubit == 0 ==>
      var o := PostProcessed(node, types, vars, nCoords, fit);
      o.Failed? && o.updates == [] && o.error.ValueError?
  {
    if Figure(node, |vars|, nCoords).Some? {
      return;
    }
    var g := GroupVars(vars, |vars|);
    GroupVarsSpec(vars, |vars|, "", "");
    if g.Ok? {
      var step := Step(node, types, g.value, |vars|, nCoords, fit);
      AnalysesSpec(step, vars, |vars|);
      var (done, err) := Analyses(step, vars, |vars|);
      if err.Some? {
        StepSpec(node, types, g.value, nCoords, fit, vars, |done|);
      } else {
        forall i | 0 <= i < |vars|
          ensures !(vars[i].qubit.None? || AxisCheck(i, ColumnGrid, Columns(|vars|, nCoords)).Some? ||
                    Element(node, types, vars[i].qubit.value).Err?)
        {
          StepSpec(node, types, g.value, nCoords, fit, vars, i);
        }
      }
    }
  }

  /** Each variable, in order, is fitted on the merged dataset of its qubit
      and issues exactly one update, for its element. */
  lemma PostProcessedUpdates(node: AclPostNode, types: QubitTypes, vars: seq<DataVar>, nCoords: nat,
                             fit: (string, set<string>) -> seq<Qoi>, i: nat)
    requires PostProcessed(node, types, vars, nCoords, fit).Finished?
    requires i < |vars|
    ensures |PostProcessed(node, types, vars, nCoords, fit).updates| == |vars|
    ensures vars[i].qubit.Some? && Element(node, types, vars[i].qubit.value).Ok?
    ensures var q := vars[i].qubit.value;
      PostProcessed(node, types, vars, nCoords, fit).updates[i] ==
        (Element(node, types, q).value, fit(q, GroupOf(GroupVars(vars, |vars|).value, q)))
  {
    var g := GroupVars(vars, |vars|).value;
    var step := Step(node, types, g, |vars|, nCoords, fit);
    AnalysesSpec(step, vars, |vars|);
    StepSpec(node, types, g, nCoords, fit, vars, i);
  }

  /** The returned results hold `measurement_dataset` and, for every other
      key, exactly the elements updated, each with the zip of its last
      update's quantities. */
  lemma PostProcessedResults(node: AclPostNode, types: QubitTypes, vars: seq<DataVar>, nCoords: nat,
                             fit: (string, set<string>) -> seq<Qoi>, e: string)
    requires PostProcessed(node, types, vars, nCoords, fit).Finished?
    ensures var o := PostProcessed(node, types, vars, nCoords, fit);
      Valid(o.results) &&
      Has(o.results, "measurement_dataset") && Get(o.results, "measurement_dataset") == MeasurementDataset &&
      (e != "measurement_dataset" ==>
        (Has(o.results, e) <==> LastFor(o.updates, e).Some?) &&
        (Has(o.results, e) ==> Get(o.results, e) == Quantities(Zip(node.redisField, LastFor(o.updates, e).value))))
  {
    var o := PostProcessed(node, types, vars, nCoords, fit);
    AllResultsSpec(node.redisField, o.updates, e);
    PutValid(AllResults(node.redisField, o.updates), "measurement_dataset", MeasurementDataset);
    PutGet(AllResults(node.redisField, o.updates), "measurement_dataset", MeasurementDataset, e);
    PutGet(AllResults(node.redisField, o.updates), "measurement_dataset", MeasurementDataset, "measurement_dataset");
  }

  /** `post_process`: grouping, then the per-variable loop filling
      `all_results`. */
  method PostProcess(node: AclPostNode, types: QubitTypes, vars: seq<DataVar>, nCoords: nat,
                     fit: (string, set<string>) -> seq<Qoi>)
    returns (o: Outcome)
    ensures o == PostProcessed(node, types, vars, nCoords, fit)
  {
    if node.name == "tof" {
      return Skipped;
    }
    var figure := Figure(node, |vars|, nCoords);
    if figure.Some? {
      return Failed([], figure.value);
    }
    var g := GroupByQubit(vars);
    if g.Err? {
      return Failed([], g.error);
    }
    var step := Step(node, types, g.value, |vars|, nCoords, fit);
    var done: seq<(string, seq<Qoi>)> := [];
    var allResults: Dict<Entry> := [];
    var indx := 0;
    while indx < |vars|
      invariant 0 <= indx <= |vars|
      invariant Analyses(step, vars, indx) == (done, None) && |done| == indx
      invariant allResults == AllResults(node.redisField, done)
    {
      var r := step(vars[indx], indx);
      if r.Err? {
        assert Analyses(step, vars, indx + 1) == (done, Some(r.error));
        AnalysesStops(step, vars, indx + 1, |vars|);
        return Failed(done, r.error);
      }
      var (element, qoi) := r.value;
      allResults := Put(allResults, element, Quantities(Zip(node.redisField, qoi)));
      var done' := done + [(element, qoi)];
      assert done'[..|done'| - 1] == done;
      assert Analyses(step, vars, indx + 1) == (done', None);
      done := done';
      indx := indx + 1;
    }
    allResults := Put(allResults, "measurement_dataset", MeasurementDataset);
    return Finished(done, allResults);
  }
}
