// What the post-processing workers share: the measured dataset's data
// variables, each tagged with its qubit; their grouping by qubit; the figure
// grid the analyses draw on; the per-variable loop of analyses; and
// `BaseAnalysis.update_redis_trusted_values`, identical in
// workers/post_processing_worker.py and analysis/tac_quantify_analysis.py.
// The fitting itself is a parameter: it yields the quantity of interest as
// the text the store holds.
module Analysis {

  import opened Common
  import opened Dicts
  import opened Store

  /** A data variable of the result dataset and its `attrs['qubit']`. */
  datatype DataVar = DataVar(name: string, qubit: Option<string>)

  /** A quantity of interest, as the store holds it. */
  type Qoi = string

  /** The error of `result_dataset[var].attrs['qubit']` without the attribute. */
  const NoQubit := KeyError("qubit")

  // ---------------------------------------------------------------------
  // Grouping the data variables by qubit

  /** `data_vars_dict` after the first n variables. */
  function GroupVars(vars: seq<DataVar>, n: nat): Result<map<string, set<string>>>
    requires n <= |vars|
  {
    if n == 0 then Ok(map[])
    else
      var g := GroupVars(vars, n - 1);
      var v := vars[n - 1];
      if g.Err? then g
      else if v.qubit.None? then Err(NoQubit)
      else
        var q := v.qubit.value;
        Ok(g.value[q := (if q in g.value then g.value[q] else {}) + {v.name}])
  }

  /** The grouping fails exactly when a variable has no qubit; otherwise each
      qubit's group holds exactly the names of the variables tagged with it. */
  lemma {:induction false} GroupVarsSpec(vars: seq<DataVar>, n: nat, q: string, name: string)
    requires n <= |vars|
    ensures var g := GroupVars(vars, n);
      (g.Err? <==> exists i :: 0 <= i < n && vars[i].qubit.None?) &&
      (g.Ok? ==> (q in g.value <==> exists i :: 0 <= i < n && vars[i].qubit == Some(q))) &&
      (g.Ok? ==> (q in g.value && name in g.value[q] <==>
                  exists i :: 0 <= i < n && vars[i].qubit == Some(q) && vars[i].name == name))
  {
    if n > 0 {
      GroupVarsSpec(vars, n - 1, q, name);
    }
  }

  /** The merged dataset of a qubit (`data_vars_dict[qubit]`, a
      defaultdict): the names grouped under it. */
  function GroupOf(groups: map<string, set<string>>, qubit: string): set<string>
  {
    if qubit in groups then groups[qubit] else {}
  }

  /** The grouping loop. */
  method GroupByQubit(vars: seq<DataVar>) returns (r: Result<map<string, set<string>>>)
    ensures r == GroupVars(vars, |vars|)
  {
    var groups: map<string, set<string>> := map[];
    var i := 0;
    while i < |vars|
      invariant 0 <= i <= |vars|
      invariant GroupVars(vars, i) == Ok(groups)
    {
      var v := vars[i];
      if v.qubit.None? {
        GroupVarsStops(vars, i + 1, |vars|);
        return Err(NoQubit);
      }
      var q := v.qubit.value;
      groups := groups[q := (if q in groups then groups[q] else {}) + {v.name}];
      i := i + 1;
    }
    return Ok(groups);
  }

  lemma {:induction false} GroupVarsStops(vars: seq<DataVar>, n: nat, m: nat)
    requires n <= m <= |vars|
    requires GroupVars(vars, n).Err?
    ensures GroupVars(vars, m) == GroupVars(vars, n)
    decreases m - n
  {
    if n < m {
      GroupVarsStops(vars, n, m - 1);
    }
  }

  // ---------------------------------------------------------------------
  // The figure grid

  /** `(n_vars + 2) // 3`, the rows of a three-column grid. */
  function GridRows(nVars: nat): nat
  {
    (nVars + 2) / 3
  }

  /** Every variable's row `indx // 3` exists. */
  lemma GridRowsCover(nVars: nat, indx: nat)
    requires indx < nVars
    ensures indx / 3 < GridRows(nVars)
  {
  }

  /** The analysis of the `indx`-th variable draws on column `indx % grid`
      of `ncols`; a column past the grid is an IndexError. */
  function AxisCheck(indx: nat, grid: nat, ncols: nat): Option<Error>
    requires grid > 0
  {
    if indx % grid < ncols then None else Some(IndexError)
  }

  function Min(a: nat, b: nat): nat
  {
    if a <= b then a else b
  }

  /** `plt.subplots(nrows=rows, ncols=cols)`: a grid without rows or without
      columns is a ValueError, rows checked first. */
  function Subplots(rows: nat, cols: nat): (r: Option<Error>)
    ensures r.None? <==> rows > 0 && cols > 0
    ensures r.Some? ==> r.value.ValueError?
  {
    if rows == 0 then Some(ValueError("Number of rows must be a positive integer"))
    else if cols == 0 then Some(ValueError("Number of columns must be a positive integer"))
    else None
  }

  /** The figure `BaseAnalysis.__init__` draws: `(n_vars + 2) // 3` rows and
      `min(n_coords, 3)` columns. */
  function BaseGrid(nVars: nat, nCoords: nat): (r: Option<Error>)
    ensures r.None? <==> nVars > 0 && nCoords > 0
  {
    Subplots(GridRows(nVars), Min(nCoords, 3))
  }

  // ---------------------------------------------------------------------
  // The per-variable loop

  /** The analyses of the first n variables: the (qubit, qoi) of each, up to
      the first one that raises, and its error. */
  function Analyses<T>(step: (DataVar, nat) -> Result<T>, vars: seq<DataVar>, n: nat)
    : (seq<T>, Option<Error>)
    requires n <= |vars|
  {
    if n == 0 then ([], None)
    else
      var (done, err) := Analyses(step, vars, n - 1);
      if err.Some? then (done, err)
      else
        var r := step(vars[n - 1], n - 1);
        if r.Err? then (done, Some(r.error)) else (done + [r.value], None)
  }

  /** The loop analyses the variables in order, one result per variable, and
      stops at the first that raises, with its error. */
  lemma {:induction false} AnalysesSpec<T>(step: (DataVar, nat) -> Result<T>, vars: seq<DataVar>, n: nat)
    requires n <= |vars|
    ensures var (done, err) := Analyses(step, vars, n);
      |done| <= n &&
      (forall i :: 0 <= i < |done| ==> step(vars[i], i) == Ok(done[i])) &&
      (err.None? ==> |done| == n) &&
      (err.Some? ==> |done| < n && step(vars[|done|], |done|).Err? && err == Some(step(vars[|done|], |done|).error))
  {
    if n > 0 {
      AnalysesSpec(step, vars, n - 1);
    }
  }

  lemma {:induction false} AnalysesStops<T>(step: (DataVar, nat) -> Result<T>, vars: seq<DataVar>, n: nat, m: nat)
    requires n <= m <= |vars|
    requires Analyses(step, vars, n).1.Some?
    ensures Analyses(step, vars, m) == Analyses(step, vars, n)
    decreases m - n
  {
    if n < m {
      AnalysesStops(step, vars, n, m - 1);
    }
  }

  // ---------------------------------------------------------------------
  // `update_redis_trusted_values`

  /** The two writes of one update: the quantity into the transmon's field,
      and the node's flag for the qubit. */
  function TrustedWrites(node: string, qubit: string, field: string, qoi: Qoi): seq<Write>
  {
    [Write(TransmonKey(qubit), field, qoi), Write(StatusKey(qubit), node, Calibrated)]
  }

  /** The writes of a run of updates, in order. */
  function AllTrustedWrites(node: string, field: string, done: seq<(string, Qoi)>): seq<Write>
  {
    if |done| == 0 then []
    else AllTrustedWrites(node, field, done[..|done| - 1]) + TrustedWrites(node, done[|done| - 1].0, field, done[|done| - 1].1)
  }

  /** `node_result` after a run of updates: each qubit to its last quantity. */
  function NodeResult(done: seq<(string, Qoi)>): Dict<Qoi>
  {
    if |done| == 0 then []
    else Put(NodeResult(done[..|done| - 1]), done[|done| - 1].0, done[|done| - 1].1)
  }

  /** The value of the last entry for `qubit`, if any. */
  function LastFor<T>(done: seq<(string, T)>, qubit: string): (r: Option<T>)
    ensures r.None? <==> forall i :: 0 <= i < |done| ==> done[i].0 != qubit
  {
    if |done| == 0 then None
    else if done[|done| - 1].0 == qubit then Some(done[|done| - 1].1)
    else
      var r := LastFor(done[..|done| - 1], qubit);
      assert forall i :: 0 <= i < |done| - 1 ==> done[..|done| - 1][i] == done[i];
      r
  }

  /** The update of a qubit that no later update of it follows is the last. */
  lemma {:induction false} LastForAt<T>(done: seq<(string, T)>, qubit: string, i: nat)
    requires i < |done| && done[i].0 == qubit
    requires forall j :: i < j < |done| ==> done[j].0 != qubit
    ensures LastFor(done, qubit) == Some(done[i].1)
  {
    if i < |done| - 1 {
      var init := done[..|done| - 1];
      assert forall j :: 0 <= j < |init| ==> init[j] == done[j];
      LastForAt(init, qubit, i);
    }
  }

  /** When every update of a qubit carries the same quantity, the last one does. */
  lemma {:induction false} LastForUniform<T>(done: seq<(string, T)>, qubit: string, qoi: T)
    requires forall i :: 0 <= i < |done| && done[i].0 == qubit ==> done[i].1 == qoi
    ensures LastFor(done, qubit).Some? ==> LastFor(done, qubit) == Some(qoi)
  {
    if |done| > 0 && done[|done| - 1].0 != qubit {
      var init := done[..|done| - 1];
      assert forall i :: 0 <= i < |init| ==> init[i] == done[i];
      LastForUniform(init, qubit, qoi);
    }
  }

  lemma TransmonKeyInjective(a: string, b: string)
    requires TransmonKey(a) == TransmonKey(b)
    ensures a == b
  {
    assert a == TransmonKey(a)[10..] && b == TransmonKey(b)[10..];
  }

  lemma StatusNotTransmon(a: string, b: string)
    ensures StatusKey(a) != TransmonKey(b)
  {
    assert StatusKey(a)[0] == 'c' && TransmonKey(b)[0] == 't';
  }

  lemma StatusKeyInjective(a: string, b: string)
    requires StatusKey(a) == StatusKey(b)
    ensures a == b
  {
    assert a == StatusKey(a)[3..] && b == StatusKey(b)[3..];
  }

  /** After the updates, the qubit's field holds the quantity of its last
      update, and `node_result` agrees; a qubit never updated keeps its field
      and has no result. */
  lemma {:induction false} TrustedField(node: string, field: string, done: seq<(string, Qoi)>, qubit: string)
    ensures LastWrite(AllTrustedWrites(node, field, done), TransmonKey(qubit), field) == LastFor(done, qubit)
    ensures Valid(NodeResult(done))
    ensures Has(NodeResult(done), qubit) <==> LastFor(done, qubit).Some?
    ensures Has(NodeResult(done), qubit) ==> Get(NodeResult(done), qubit) == LastFor(done, qubit).value
  {
    if |done| > 0 {
      var init := done[..|done| - 1];
      var (q, qoi) := done[|done| - 1];
      TrustedField(node, field, init, qubit);
      var ws := TrustedWrites(node, q, field, qoi);
      LastWriteAppend(AllTrustedWrites(node, field, init), ws, TransmonKey(qubit), field);
      StatusNotTransmon(q, qubit);
      if q != qubit {
        if TransmonKey(q) == TransmonKey(qubit) {
          TransmonKeyInjective(q, qubit);
        }
        assert ws[..1][..0] == [];
        assert LastWrite(ws, TransmonKey(qubit), field).None?;
      } else {
        assert LastWrite(ws, TransmonKey(qubit), field) == Some(qoi) by {
          assert ws[..1] == [Write(TransmonKey(q), field, qoi)];
        }
      }
      PutValid(NodeResult(init), q, qoi);
      PutGet(NodeResult(init), q, qoi, qubit);
    }
  }

  /** After the updates, the node is flagged calibrated for exactly the
      qubits that were updated; other flags keep their values. */
  lemma {:induction false} TrustedFlag(node: string, field: string, done: seq<(string, Qoi)>, qubit: string)
    ensures LastWrite(AllTrustedWrites(node, field, done), StatusKey(qubit), node) ==
      (if LastFor(done, qubit).Some? then Some(Calibrated) else None)
  {
    if |done| > 0 {
      var init := done[..|done| - 1];
      var (q, qoi) := done[|done| - 1];
      TrustedFlag(node, field, init, qubit);
      var ws := TrustedWrites(node, q, field, qoi);
      LastWriteAppend(AllTrustedWrites(node, field, init), ws, StatusKey(qubit), node);
      StatusNotTransmon(qubit, q);
      if q != qubit {
        if StatusKey(q) == StatusKey(qubit) {
          StatusKeyInjective(q, qubit);
        }
      }
    }
  }

  /** Every write of the updates is to a transmon's field or to a node's
      flag of an updated qubit: nothing else in the store changes. */
  lemma {:induction false} TrustedWritesOnly(node: string, field: string, done: seq<(string, Qoi)>, w: Write)
    requires w in AllTrustedWrites(node, field, done)
    ensures exists i :: (0 <= i < |done| &&
      (w == Write(TransmonKey(done[i].0), field, done[i].1) || w == Write(StatusKey(done[i].0), node, Calibrated)))
  {
    var init := done[..|done| - 1];
    var (q, qoi) := done[|done| - 1];
    if w in AllTrustedWrites(node, field, init) {
      TrustedWritesOnly(node, field, init, w);
      var i :| 0 <= i < |init| &&
        (w == Write(TransmonKey(init[i].0), field, init[i].1) || w == Write(StatusKey(init[i].0), node, Calibrated));
      assert init[i] == done[i];
    } else {
      assert w in TrustedWrites(node, q, field, qoi);
    }
  }

  /** `BaseAnalysis`: the quantity last fitted and the results so far. */
  class TrustedAnalysis {
    var qoi: Qoi
    var nodeResult: Dict<Qoi>

    constructor()
      ensures qoi == "0" && nodeResult == []
    {
      qoi := "0";
      nodeResult := [];
    }

    /** `update_redis_trusted_values(node, this_qubit, transmon_parameter)`. */
    method UpdateRedisTrustedValues(store: ParameterStore, node: string, qubit: string, field: string)
      modifies this, store
      ensures store.hashes == SetAll(old(store.hashes), TrustedWrites(node, qubit, field, old(qoi)))
      ensures nodeResult == Put(old(nodeResult), qubit, old(qoi)) && qoi == old(qoi)
    {
      ghost var h0 := store.hashes;
      store.HSet(TransmonKey(qubit), field, qoi);
      store.HSet(StatusKey(qubit), node, Calibrated);
      var ws := TrustedWrites(node, qubit, field, qoi);
      assert ws[..1][..0] == [] && ws[..1] == [ws[0]];
      assert SetAll(h0, ws[..1]) == SetField(h0, TransmonKey(qubit), field, qoi);
      assert SetAll(h0, ws) == SetField(SetAll(h0, ws[..1]), StatusKey(qubit), node, Calibrated);
      nodeResult := Put(nodeResult, qubit, qoi);
    }
  }

  /** The per-variable loop of `Multiplexed_Analysis.__init__`: each
      variable's analysis, then its update, up to the first that raises. */
  method AnalyseEach(store: ParameterStore, analysis: TrustedAnalysis, node: string, field: string,
                     vars: seq<DataVar>, step: (DataVar, nat) -> Result<(string, Qoi)>)
    returns (done: seq<(string, Qoi)>, err: Option<Error>)
    requires analysis.nodeResult == []
    modifies store, analysis
    ensures (done, err) == Analyses(step, vars, |vars|)
    ensures store.hashes == SetAll(old(store.hashes), AllTrustedWrites(node, field, done))
    ensures analysis.nodeResult == NodeResult(done)
  {
    ghost var h0 := store.hashes;
    done := [];
    var writes: seq<Write> := [];
    var indx := 0;
    while indx < |vars|
      invariant 0 <= indx <= |vars|
      invariant Analyses(step, vars, indx) == (done, None) && |done| == indx
      invariant writes == AllTrustedWrites(node, field, done)
      invariant store.hashes == SetAll(h0, writes)
      invariant analysis.nodeResult == NodeResult(done)
    {
      var r := step(vars[indx], indx);
      if r.Err? {
        assert Analyses(step, vars, indx + 1) == (done, Some(r.error));
        AnalysesStops(step, vars, indx + 1, |vars|);
        return done, Some(r.error);
      }
      var (q, qoi) := r.value;
      analysis.qoi := qoi;
      analysis.UpdateRedisTrustedValues(store, node, q, field);
      var ws := TrustedWrites(node, q, field, qoi);
      SetAllAppend(h0, writes, ws);
      var done' := done + [(q, qoi)];
      assert done'[..|done'| - 1] == done;
      assert Analyses(step, vars, indx + 1) == (done', None);
      done := done';
      writes := writes + ws;
      indx := indx + 1;
    }
    return done, None;
  }
}
