// The execution worker's own `configure_dataset` (workers/execution_worker.py):
// acquisition keys in sorted order, each key indexing the elements of the
// first swept quantity directly, the complex data of the key's first row laid
// out by the reversed sweep lengths and split into `y<q>_real` and
// `y<q>_imag`; then `to_complex_dataset`, which puts the parts back together,
// and the acquisition count of the dummy cluster.
module ExecutionDataset {

  import opened Common
  import opened Dicts
  import opened Layout
  import opened Dataset

  /** A complex acquisition value. */
  datatype IQ = IQ(re: Sample, im: Sample)

  /** `raw_ds[key].values`: rows of complex acquisitions. */
  type Acquisition = seq<seq<IQ>>

  // ---------------------------------------------------------------------
  // `sorted(raw_ds.data_vars.keys())`: insertion sort on the keys. Keys of
  // an xarray dataset are distinct, so visiting the (key, data) pairs in key
  // order visits the sorted keys.

  predicate SortedByKey<V>(s: seq<(nat, V)>)
  {
    forall i, j :: 0 <= i < j < |s| ==> s[i].0 <= s[j].0
  }

  function InsertByKey<V>(x: (nat, V), s: seq<(nat, V)>): (r: seq<(nat, V)>)
    ensures |r| == |s| + 1
  {
    if |s| == 0 || x.0 <= s[0].0 then [x] + s else [s[0]] + InsertByKey(x, s[1..])
  }

  function SortByKey<V>(s: seq<(nat, V)>): (r: seq<(nat, V)>)
    ensures |r| == |s|
  {
    if |s| == 0 then [] else InsertByKey(s[0], SortByKey(s[1..]))
  }

  lemma {:induction false} InsertByKeySpec<V>(x: (nat, V), s: seq<(nat, V)>)
    requires SortedByKey(s)
    ensures SortedByKey(InsertByKey(x, s))
    ensures multiset(InsertByKey(x, s)) == multiset(s) + multiset{x}
  {
    InsertByKeyMultiset(x, s);
    if |s| > 0 && x.0 > s[0].0 {
      var rest := InsertByKey(x, s[1..]);
      InsertByKeySpec(x, s[1..]);
      InsertByKeyAbove(x, s[1..], s[0].0);
      assert InsertByKey(x, s) == [s[0]] + rest;
    }
  }

  /** Inserting keeps a lower bound on the keys. */
  lemma {:induction false} InsertByKeyAbove<V>(x: (nat, V), s: seq<(nat, V)>, b: nat)
    requires b <= x.0 && forall i :: 0 <= i < |s| ==> b <= s[i].0
    ensures forall i :: 0 <= i < |InsertByKey(x, s)| ==> b <= InsertByKey(x, s)[i].0
    decreases |s|
  {
    if |s| > 0 && x.0 > s[0].0 {
      InsertByKeyAbove(x, s[1..], b);
      assert InsertByKey(x, s) == [s[0]] + InsertByKey(x, s[1..]);
    }
  }

  /** Inserting adds the one pair and keeps the others. */
  lemma {:induction false} InsertByKeyMultiset<V>(x: (nat, V), s: seq<(nat, V)>)
    ensures multiset(InsertByKey(x, s)) == multiset(s) + multiset{x}
    decreases |s|
  {
    if |s| > 0 && x.0 > s[0].0 {
      InsertByKeyMultiset(x, s[1..]);
      assert s == [s[0]] + s[1..];
    }
  }

  /** Sorting orders the pairs by key and keeps every pair, as often as it occurs. */
  lemma {:induction false} SortByKeySpec<V>(s: seq<(nat, V)>)
    ensures SortedByKey(SortByKey(s))
    ensures multiset(SortByKey(s)) == multiset(s)
  {
    if |s| > 0 {
      var rest := SortByKey(s[1..]);
      SortByKeySpec(s[1..]);
      InsertByKeySpec(s[0], rest);
      ConsMultiset(s);
    }
  }

  lemma ConsMultiset<T>(s: seq<T>)
    requires |s| > 0
    ensures multiset(s) == multiset(s[1..]) + multiset{s[0]}
  {
    assert s == [s[0]] + s[1..];
  }

  // ---------------------------------------------------------------------
  // One acquisition key.

  /** `values.real` / `values.imag` of a complex array. */
  function RealPart(a: NdArray<IQ>): (r: NdArray<Sample>)
    ensures r.shape == a.shape && |r.data| == |a.data|
  {
    NdArray(a.shape, seq(|a.data|, i requires 0 <= i < |a.data| => a.data[i].re))
  }

  function ImagPart(a: NdArray<IQ>): (r: NdArray<Sample>)
    ensures r.shape == a.shape && |r.data| == |a.data|
  {
    NdArray(a.shape, seq(|a.data|, i requires 0 <= i < |a.data| => a.data[i].im))
  }

  /** `coords_dict` after the first `k` quantities: `quantity + q` holds
      `samplespace[quantity][q]`; a quantity without `q` is a KeyError. */
  function QubitCoords(ss: Samplespace, q: string, k: nat): Result<Dict<Coord>>
    requires k <= |ss|
  {
    if k == 0 then Ok([])
    else
      match QubitCoords(ss, q, k - 1)
      case Err(e) => Err(e)
      case Ok(coords) =>
        var (quantity, elements) := ss[k - 1];
        if !Has(elements, q) then Err(KeyError(q))
        else
          var values := match Dicts.Get(elements, q) case Values(xs) => xs case Scalar(x) => [x];
          Ok(Put(coords, quantity + q, Coord(values, QubitElement, q)))
  }

  /** `[len(samplespace[quantity][q]) for quantity in ...]`, for the first
      `k` quantities; `len` of a non-iterable is a TypeError. */
  function SweepLengths(ss: Samplespace, q: string, k: nat): Result<seq<nat>>
    requires k <= |ss|
    requires forall i :: 0 <= i < k ==> Has(ss[i].1, q)
  {
    if k == 0 then Ok([])
    else
      match SweepLengths(ss, q, k - 1)
      case Err(e) => Err(e)
      case Ok(dims) =>
        match Dicts.Get(ss[k - 1].1, q)
        case Values(xs) => Ok(dims + [|xs|])
        case Scalar(_) => Err(TypeError)
  }

  lemma {:induction false} QubitCoordsOk(ss: Samplespace, q: string, k: nat)
    requires k <= |ss|
    ensures QubitCoords(ss, q, k).Ok? <==> forall i :: 0 <= i < k ==> Has(ss[i].1, q)
    ensures QubitCoords(ss, q, k).Err? ==> QubitCoords(ss, q, k).error == KeyError(q)
  {
    if k > 0 {
      QubitCoordsOk(ss, q, k - 1);
    }
  }

  lemma {:induction false} SweepLengthsSpec(ss: Samplespace, q: string, k: nat)
    requires k <= |ss|
    requires forall i :: 0 <= i < k ==> Has(ss[i].1, q)
    ensures SweepLengths(ss, q, k).Ok? <==> forall i :: 0 <= i < k ==> Dicts.Get(ss[i].1, q).Values?
    ensures SweepLengths(ss, q, k).Err? ==> SweepLengths(ss, q, k).error == TypeError
    ensures SweepLengths(ss, q, k).Ok? ==>
      |SweepLengths(ss, q, k).value| == k &&
      forall i :: 0 <= i < k ==> SweepLengths(ss, q, k).value[i] == |Dicts.Get(ss[i].1, q).samples|
  {
    if k > 0 {
      SweepLengthsSpec(ss, q, k - 1);
    }
  }

  /** What one key adds: its coordinates and its real and imaginary variables. */
  datatype IQPartial = IQPartial(coords: Dict<Coord>, qubit: string, reVar: Variable, imVar: Variable)

  /** The qubit of key `key`: `qubits[key]`, with no modulo. */
  function KeyElement(ss: Samplespace, key: nat): (r: Result<string>)
    ensures r.Ok? <==> |ss| > 0 && key < |ss[0].1|
    ensures r.Ok? ==> r.value == ss[0].1[key].0
    ensures r.Err? ==> r.error == IndexError
  {
    if |ss| == 0 || key >= |ss[0].1| then Err(IndexError) else Ok(Keys(ss[0].1)[key])
  }

  /** The body of the loop over sorted keys. */
  function IQKey(ss: Samplespace, key: nat, rows: Acquisition): Result<IQPartial>
  {
    match KeyElement(ss, key)
    case Err(e) => Err(e)
    case Ok(q) =>
      match QubitCoords(ss, q, |ss|)
      case Err(e) => Err(e)
      case Ok(coords) =>
        QubitCoordsOk(ss, q, |ss|);
        // `xarray.Dataset(coords=coords_dict)` refuses a zero-dimensional
        // coordinate before any length is taken: the lengths fail exactly
        // on a scalar sweep.
        match SweepLengths(ss, q, |ss|)
        case Err(_) => Err(ValueError("coordinate has no dimension"))
        case Ok(dims) =>
          if |rows| == 0 then Err(IndexError)
          else
            match Reshape(rows[0], Reverse(dims))
            case Err(e) => Err(e)
            case Ok(a) =>
              var t := Transpose(a);
              Ok(IQPartial(coords, q, Variable(Keys(coords), RealPart(t), q, None), Variable(Keys(coords), ImagPart(t), q, None)))
  }

  /** A key succeeds iff it indexes an element of the first quantity, every
      quantity sweeps that element over an array, there is a first row, and
      its length is the product of the sweep lengths. A quantity without the
      element is a KeyError, and then a scalar sweep a ValueError. Element
      (i0, ..., ik) of each part is the first row's element
      i0 + d0 * (i1 + d1 * (...)). */
  lemma IQKeySpec(ss: Samplespace, key: nat, rows: Acquisition)
    ensures var r := IQKey(ss, key, rows);
      r.Ok? <==> (|ss| > 0 && key < |ss[0].1| &&
        (forall i :: 0 <= i < |ss| ==> Has(ss[i].1, ss[0].1[key].0)) &&
        (forall i :: 0 <= i < |ss| ==> Dicts.Get(ss[i].1, ss[0].1[key].0).Values?) &&
        SweepLengths(ss, ss[0].1[key].0, |ss|).Ok? &&
        |rows| > 0 && |rows[0]| == Product(SweepLengths(ss, ss[0].1[key].0, |ss|).value))
    ensures var r := IQKey(ss, key, rows);
      |ss| > 0 && key < |ss[0].1| && (exists i :: 0 <= i < |ss| && !Has(ss[i].1, ss[0].1[key].0)) ==>
        r == Err(KeyError(ss[0].1[key].0))
    ensures var r := IQKey(ss, key, rows);
      |ss| > 0 && key < |ss[0].1| && (forall i :: 0 <= i < |ss| ==> Has(ss[i].1, ss[0].1[key].0)) &&
      (exists i :: 0 <= i < |ss| && Dicts.Get(ss[i].1, ss[0].1[key].0).Scalar?) ==>
        r.Err? && r.error.ValueError?
    ensures var r := IQKey(ss, key, rows);
      r.Ok? ==> (r.value.qubit == ss[0].1[key].0 &&
        r.value.reVar.qubit == r.value.qubit && r.value.imVar.qubit == r.value.qubit &&
        r.value.reVar.data.shape == SweepLengths(ss, r.value.qubit, |ss|).value &&
        r.value.imVar.data.shape == r.value.reVar.data.shape)
  {
    var r := IQKey(ss, key, rows);
    if KeyElement(ss, key).Ok? {
      var q := ss[0].1[key].0;
      QubitCoordsOk(ss, q, |ss|);
      if QubitCoords(ss, q, |ss|).Ok? {
        SweepLengthsSpec(ss, q, |ss|);
        if SweepLengths(ss, q, |ss|).Ok? && |rows| > 0 {
          ProductReverse(SweepLengths(ss, q, |ss|).value);
        }
      }
    }
  }

  /** The layout law for both parts of a key's data. */
  lemma IQKeyLaw(ss: Samplespace, key: nat, rows: Acquisition, idx: seq<nat>)
    requires IQKey(ss, key, rows).Ok?
    requires InBounds(IQKey(ss, key, rows).value.reVar.data.shape, idx)
    ensures var p := IQKey(ss, key, rows).value; var dims := p.reVar.data.shape;
      WellFormed(p.reVar.data) && WellFormed(p.imVar.data) &&
      Layout.Get(p.reVar.data, idx) == rows[0][FIndex(dims, idx)].re &&
      Layout.Get(p.imVar.data, idx) == rows[0][FIndex(dims, idx)].im
  {
    var q := ss[0].1[key].0;
    QubitCoordsOk(ss, q, |ss|);
    var dims := SweepLengths(ss, q, |ss|).value;
    ProductReverse(dims);
    var t := Transpose(Reshape(rows[0], Reverse(dims)).value);
    var p := IQKey(ss, key, rows).value;
    assert p.reVar.data == RealPart(t) && p.imVar.data == ImagPart(t);
    PartsLaw(rows[0], dims, idx);
  }

  lemma PartsLaw(flat: seq<IQ>, dims: seq<nat>, idx: seq<nat>)
    requires |flat| == Product(dims) && InBounds(dims, idx)
    ensures Reshape(flat, Reverse(dims)).Ok?
    ensures var t := Transpose(Reshape(flat, Reverse(dims)).value);
      t.shape == dims && WellFormed(RealPart(t)) && WellFormed(ImagPart(t)) &&
      Layout.Get(RealPart(t), idx) == flat[FIndex(dims, idx)].re &&
      Layout.Get(ImagPart(t), idx) == flat[FIndex(dims, idx)].im
  {
    ReshapeTransposeLaw(flat, dims, idx);
    var t := Transpose(Reshape(flat, Reverse(dims)).value);
    GetAt(t, idx);
    GetAt(RealPart(t), idx);
    GetAt(ImagPart(t), idx);
  }

  // ---------------------------------------------------------------------
  // The loop over keys.

  function RealName(q: string): string { "y" + q + "_real" }

  function ImagName(q: string): string { "y" + q + "_imag" }

  /** One turn of the loop: from a key and its data, the key's contribution. */
  type IQStepFn = (nat, Acquisition) -> Result<IQPartial>

  function IQStepOf(ss: Samplespace): IQStepFn
  {
    (key: nat, rows: Acquisition) => IQKey(ss, key, rows)
  }

  /** The dataset after the first `k` keys of `sorted`. */
  function IQUpTo(step: IQStepFn, sorted: seq<(nat, Acquisition)>, k: nat): Result<DatasetValue>
    requires k <= |sorted|
  {
    if k == 0 then Ok(DatasetValue([], []))
    else
      match IQUpTo(step, sorted, k - 1)
      case Err(e) => Err(e)
      case Ok(ds) =>
        match step(sorted[k - 1].0, sorted[k - 1].1)
        case Err(e) => Err(e)
        case Ok(p) =>
          Ok(DatasetValue(Merge(ds.coords, p.coords),
            Put(Put(ds.vars, RealName(p.qubit), p.reVar), ImagName(p.qubit), p.imVar)))
  }

  /** `configure_dataset(raw_ds, samplespace)`: the first quantity's element
      list is read before the loop, so an empty samplespace is an IndexError. */
  function IQConfigure(ss: Samplespace, raw: seq<(nat, Acquisition)>): Result<DatasetValue>
  {
    if |ss| == 0 then Err(IndexError) else IQUpTo(IQStepOf(ss), SortByKey(raw), |raw|)
  }

  method ConfigureIQ(ss: Samplespace, raw: seq<(nat, Acquisition)>) returns (r: Result<DatasetValue>)
    ensures r == IQConfigure(ss, raw)
  {
    if |ss| == 0 {
      return Err(IndexError);
    }
    ghost var f := IQStepOf(ss);
    var sorted := SortByKey(raw);
    var dataset := DatasetValue([], []);
    var k := 0;
    while k < |sorted|
      invariant 0 <= k <= |sorted|
      invariant IQUpTo(f, sorted, k).Ok? && IQUpTo(f, sorted, k).value == dataset
    {
      var p := IQKey(ss, sorted[k].0, sorted[k].1);
      assert p == f(sorted[k].0, sorted[k].1);
      if p.Err? {
        IQFails(f, sorted, k, p.error);
        return Err(p.error);
      }
      IQOneOk(f, sorted, k, dataset, p.value);
      dataset := DatasetValue(Merge(dataset.coords, p.value.coords),
        Put(Put(dataset.vars, RealName(p.value.qubit), p.value.reVar), ImagName(p.value.qubit), p.value.imVar));
      k := k + 1;
    }
    return Ok(dataset);
  }

  lemma IQOneOk(step: IQStepFn, sorted: seq<(nat, Acquisition)>, k: nat, ds: DatasetValue, p: IQPartial)
    requires k < |sorted| && IQUpTo(step, sorted, k).Ok? && IQUpTo(step, sorted, k).value == ds
    requires step(sorted[k].0, sorted[k].1) == Ok(p)
    ensures IQUpTo(step, sorted, k + 1) ==
      Ok(DatasetValue(Merge(ds.coords, p.coords), Put(Put(ds.vars, RealName(p.qubit), p.reVar), ImagName(p.qubit), p.imVar)))
  {
  }

  lemma IQFails(step: IQStepFn, sorted: seq<(nat, Acquisition)>, k: nat, e: Error)
    requires k < |sorted| && IQUpTo(step, sorted, k).Ok?
    requires step(sorted[k].0, sorted[k].1) == Err(e)
    ensures IQUpTo(step, sorted, |sorted|) == Err(e)
  {
    IQOneFails(step, sorted, k, e);
    IQErrStays(step, sorted, k + 1, |sorted|);
  }

  lemma IQOneFails(step: IQStepFn, sorted: seq<(nat, Acquisition)>, k: nat, e: Error)
    requires k < |sorted| && IQUpTo(step, sorted, k).Ok?
    requires step(sorted[k].0, sorted[k].1) == Err(e)
    ensures IQUpTo(step, sorted, k + 1) == Err(e)
  {
  }

  lemma {:induction false} IQErrStays(step: IQStepFn, sorted: seq<(nat, Acquisition)>, k: nat, m: nat)
    requires k <= m <= |sorted| && IQUpTo(step, sorted, k).Err?
    ensures IQUpTo(step, sorted, m) == IQUpTo(step, sorted, k)
    decreases m - k
  {
    if k < m {
      IQErrStays(step, sorted, k, m - 1);
    }
  }

  /** After the first `k` keys, every one of them has succeeded and left
      its two variables, named after its qubit. */
  lemma {:induction false} IQUpToVariables(step: IQStepFn, sorted: seq<(nat, Acquisition)>, k: nat, i: nat)
    requires i < k <= |sorted| && IQUpTo(step, sorted, k).Ok?
    ensures step(sorted[i].0, sorted[i].1).Ok?
    ensures Has(IQUpTo(step, sorted, k).value.vars, RealName(step(sorted[i].0, sorted[i].1).value.qubit))
    ensures Has(IQUpTo(step, sorted, k).value.vars, ImagName(step(sorted[i].0, sorted[i].1).value.qubit))
  {
    var ds := IQUpTo(step, sorted, k - 1).value;
    var p := step(sorted[k - 1].0, sorted[k - 1].1).value;
    if i < k - 1 {
      IQUpToVariables(step, sorted, k - 1, i);
    }
    var q := step(sorted[i].0, sorted[i].1).value.qubit;
    var v1 := Put(ds.vars, RealName(p.qubit), p.reVar);
    PutHas(ds.vars, RealName(p.qubit), p.reVar, RealName(q));
    PutHas(ds.vars, RealName(p.qubit), p.reVar, ImagName(q));
    PutHas(v1, ImagName(p.qubit), p.imVar, RealName(q));
    PutHas(v1, ImagName(p.qubit), p.imVar, ImagName(q));
  }

  /** Every acquisition key of a configured dataset indexes an element of
      the first quantity, and that element has both of its variables. */
  lemma ConfigureIQVariables(ss: Samplespace, raw: seq<(nat, Acquisition)>, key: nat, rows: Acquisition)
    requires IQConfigure(ss, raw).Ok? && (key, rows) in raw
    ensures |ss| > 0 && key < |ss[0].1|
    ensures Has(IQConfigure(ss, raw).value.vars, RealName(ss[0].1[key].0))
    ensures Has(IQConfigure(ss, raw).value.vars, ImagName(ss[0].1[key].0))
  {
    var sorted := SortByKey(raw);
    SortByKeySpec(raw);
    assert (key, rows) in multiset(sorted);
    var i :| 0 <= i < |sorted| && sorted[i] == (key, rows);
    IQUpToVariables(IQStepOf(ss), sorted, |sorted|, i);
    IQKeySpec(ss, key, rows);
  }

  // ---------------------------------------------------------------------
  // `to_complex_dataset`: real and imaginary parts put back together.

  /** A complex variable of the output dataset. */
  datatype CVariable = CVariable(dims: seq<string>, data: NdArray<IQ>, qubit: string)

  datatype ComplexDataset = ComplexDataset(coords: Dict<Coord>, vars: Dict<CVariable>)

  /** `dataset_dict[qubit]`: the parts seen so far. */
  datatype Parts = Parts(re: Option<NdArray<Sample>>, im: Option<NdArray<Sample>>)

  predicate Complete(p: Parts) { p.re.Some? && p.im.Some? }

  /** A variable whose name contains 'real' is a real part, even if it also
      contains 'imag'; otherwise one containing 'imag' is an imaginary part. */
  function Classify(p: Parts, name: string, data: NdArray<Sample>): Parts
  {
    if IsSubstring("real", name) then p.(re := Some(data))
    else if IsSubstring("imag", name) then p.(im := Some(data))
    else p
  }

  /** The parts of qubit `q` after the first `k` variables. */
  function PartsAt(vars: Dict<Variable>, q: string, k: nat): Parts
    requires k <= |vars|
  {
    if k == 0 then Parts(None, None)
    else
      var p := PartsAt(vars, q, k - 1);
      if vars[k - 1].1.qubit == q then Classify(p, vars[k - 1].0, vars[k - 1].1.data) else p
  }

  /** `real + 1j * imag` on arrays of one shape; numpy refuses operands it
      cannot broadcast together. */
  function Combine(re: NdArray<Sample>, im: NdArray<Sample>): (r: Result<NdArray<IQ>>)
    ensures r.Ok? <==> re.shape == im.shape && |re.data| == |im.data|
    ensures r.Ok? ==> (r.value.shape == re.shape && |r.value.data| == |re.data| &&
      forall i :: 0 <= i < |re.data| ==> r.value.data[i] == IQ(re.data[i], im.data[i]))
  {
    if re.shape == im.shape && |re.data| == |im.data| then
      Ok(NdArray(re.shape, seq(|re.data|, i requires 0 <= i < |re.data| => IQ(re.data[i], im.data[i]))))
    else Err(ValueError("operands could not be broadcast together"))
  }

  function ComplexName(q: string): string { "y" + q }

  lemma ComplexNameInjective(a: string, b: string)
    ensures ComplexName(a) == ComplexName(b) <==> a == b
  {
    assert a == ComplexName(a)[1..];
    assert b == ComplexName(b)[1..];
  }

  datatype CState = CState(parts: map<string, Parts>, cvars: Dict<CVariable>)

  function PartsOf(parts: map<string, Parts>, q: string): Parts
  {
    if q in parts then parts[q] else Parts(None, None)
  }

  /** The loop of `to_complex_dataset` after the first `k` variables: a
      qubit whose parts are complete gets `y<q>` rewritten from its latest
      parts, with the coordinates of `y<q>_real` (a KeyError without it). */
  function ComplexUpTo(iq: DatasetValue, k: nat): Result<CState>
    requires k <= |iq.vars|
  {
    if k == 0 then Ok(CState(map[], []))
    else
      match ComplexUpTo(iq, k - 1)
      case Err(e) => Err(e)
      case Ok(st) =>
        var (name, v) := iq.vars[k - 1];
        var p := Classify(PartsOf(st.parts, v.qubit), name, v.data);
        var parts := st.parts[v.qubit := p];
        if !Complete(p) then Ok(CState(parts, st.cvars))
        else if !Has(iq.vars, RealName(v.qubit)) then Err(KeyError(RealName(v.qubit)))
        else
          match Combine(p.re.value, p.im.value)
          case Err(e) => Err(e)
          case Ok(c) =>
            var dims := Dicts.Get(iq.vars, RealName(v.qubit)).dims;
            Ok(CState(parts, Put(st.cvars, ComplexName(v.qubit), CVariable(dims, c, v.qubit))))
  }

  function ToComplex(iq: DatasetValue): Result<ComplexDataset>
  {
    match ComplexUpTo(iq, |iq.vars|)
    case Err(e) => Err(e)
    case Ok(st) => Ok(ComplexDataset(iq.coords, st.cvars))
  }

  method ToComplexDataset(iq: DatasetValue) returns (r: Result<ComplexDataset>)
    ensures r == ToComplex(iq)
  {
    var parts: map<string, Parts> := map[];
    var cvars: Dict<CVariable> := [];
    var k := 0;
    while k < |iq.vars|
      invariant 0 <= k <= |iq.vars|
      invariant ComplexUpTo(iq, k).Ok? && ComplexUpTo(iq, k).value == CState(parts, cvars)
    {
      var (name, v) := iq.vars[k];
      var p := if v.qubit in parts then parts[v.qubit] else Parts(None, None);
      if IsSubstring("real", name) {
        p := p.(re := Some(v.data));
      } else if IsSubstring("imag", name) {
        p := p.(im := Some(v.data));
      }
      parts := parts[v.qubit := p];
      if p.re.Some? && p.im.Some? {
        if !Has(iq.vars, RealName(v.qubit)) {
          ComplexFails(iq, k, KeyError(RealName(v.qubit)));
          return Err(KeyError(RealName(v.qubit)));
        }
        var c := Combine(p.re.value, p.im.value);
        if c.Err? {
          ComplexFails(iq, k, c.error);
          return Err(c.error);
        }
        cvars := Put(cvars, ComplexName(v.qubit), CVariable(Dicts.Get(iq.vars, RealName(v.qubit)).dims, c.value, v.qubit));
      }
      k := k + 1;
    }
    return Ok(ComplexDataset(iq.coords, cvars));
  }

  lemma ComplexFails(iq: DatasetValue, k: nat, e: Error)
    requires k < |iq.vars| && ComplexUpTo(iq, k + 1) == Err(e)
    ensures ComplexUpTo(iq, |iq.vars|) == Err(e)
  {
    ComplexErrStays(iq, k + 1, |iq.vars|);
  }

  lemma {:induction false} ComplexErrStays(iq: DatasetValue, k: nat, m: nat)
    requires k <= m <= |iq.vars| && ComplexUpTo(iq, k).Err?
    ensures ComplexUpTo(iq, m) == ComplexUpTo(iq, k)
    decreases m - k
  {
    if k < m {
      ComplexErrStays(iq, k, m - 1);
    }
  }

  /** The loop tracks exactly the latest real and imaginary part of each qubit. */
  lemma {:induction false} ComplexParts(iq: DatasetValue, k: nat, q: string)
    requires k <= |iq.vars| && ComplexUpTo(iq, k).Ok?
    ensures PartsOf(ComplexUpTo(iq, k).value.parts, q) == PartsAt(iq.vars, q, k)
  {
    if k > 0 {
      ComplexParts(iq, k - 1, q);
    }
  }

  /** Complete parts stay complete. */
  lemma {:induction false} CompleteStays(vars: Dict<Variable>, q: string, j: nat, k: nat)
    requires j <= k <= |vars| && Complete(PartsAt(vars, q, j))
    ensures Complete(PartsAt(vars, q, k))
    decreases k - j
  {
    if j < k {
      CompleteStays(vars, q, j, k - 1);
    }
  }

  /** One turn of the loop, on the qubit of the `k`-th variable. */
  lemma ComplexStep(iq: DatasetValue, k: nat)
    requires 0 < k <= |iq.vars| && ComplexUpTo(iq, k).Ok?
    ensures ComplexUpTo(iq, k - 1).Ok?
    ensures var v := iq.vars[k - 1].1; var p := PartsAt(iq.vars, v.qubit, k);
      var before := ComplexUpTo(iq, k - 1).value.cvars;
      if Complete(p) then
        Has(iq.vars, RealName(v.qubit)) && Combine(p.re.value, p.im.value).Ok? &&
        ComplexUpTo(iq, k).value.cvars == Put(before, ComplexName(v.qubit),
          CVariable(Dicts.Get(iq.vars, RealName(v.qubit)).dims, Combine(p.re.value, p.im.value).value, v.qubit))
      else ComplexUpTo(iq, k).value.cvars == before
  {
    ComplexParts(iq, k - 1, iq.vars[k - 1].1.qubit);
  }

  /** `to_complex_dataset` holds `y<q>` exactly for the qubits that have both
      a real and an imaginary part, made of the latest of each. */
  lemma {:induction false} ComplexContent(iq: DatasetValue, k: nat, q: string)
    requires k <= |iq.vars| && ComplexUpTo(iq, k).Ok?
    ensures Valid(ComplexUpTo(iq, k).value.cvars)
    ensures Has(ComplexUpTo(iq, k).value.cvars, ComplexName(q)) <==> Complete(PartsAt(iq.vars, q, k))
    ensures Complete(PartsAt(iq.vars, q, k)) ==>
      Has(iq.vars, RealName(q)) &&
      Combine(PartsAt(iq.vars, q, k).re.value, PartsAt(iq.vars, q, k).im.value).Ok? &&
      Dicts.Get(ComplexUpTo(iq, k).value.cvars, ComplexName(q)) ==
        CVariable(Dicts.Get(iq.vars, RealName(q)).dims,
          Combine(PartsAt(iq.vars, q, k).re.value, PartsAt(iq.vars, q, k).im.value).value, q)
  {
    if k > 0 {
      ComplexStep(iq, k);
      ComplexContent(iq, k - 1, q);
      var before := ComplexUpTo(iq, k - 1).value.cvars;
      var w := iq.vars[k - 1].1.qubit;
      var p := PartsAt(iq.vars, w, k);
      ComplexNameInjective(w, q);
      if Complete(p) {
        var cv := CVariable(Dicts.Get(iq.vars, RealName(w)).dims, Combine(p.re.value, p.im.value).value, w);
        PutValid(before, ComplexName(w), cv);
        PutGet(before, ComplexName(w), cv, ComplexName(q));
      }
      if w != q {
        assert PartsAt(iq.vars, q, k) == PartsAt(iq.vars, q, k - 1);
      }
    }
  }

  /** The `j`-th turn of the loop can go on: when it completes the parts of
      its qubit, `y<q>_real` exists and the two parts have one shape. */
  predicate StepOk(vars: Dict<Variable>, j: nat)
    requires j < |vars|
  {
    var q := vars[j].1.qubit;
    var p := PartsAt(vars, q, j + 1);
    Complete(p) ==> Has(vars, RealName(q)) && Combine(p.re.value, p.im.value).Ok?
  }

  lemma ComplexOneStep(iq: DatasetValue, k: nat)
    requires 0 < k <= |iq.vars|
    ensures ComplexUpTo(iq, k).Ok? <==> ComplexUpTo(iq, k - 1).Ok? && StepOk(iq.vars, k - 1)
  {
    if ComplexUpTo(iq, k - 1).Ok? {
      ComplexParts(iq, k - 1, iq.vars[k - 1].1.qubit);
    }
  }

  /** The conversion succeeds iff every turn of its loop can go on. */
  lemma {:induction false} ComplexUpToOk(iq: DatasetValue, k: nat)
    requires k <= |iq.vars|
    ensures ComplexUpTo(iq, k).Ok? <==> forall j :: 0 <= j < k ==> StepOk(iq.vars, j)
  {
    if k > 0 {
      ComplexUpToOk(iq, k - 1);
      ComplexOneStep(iq, k);
    }
  }

  // ---------------------------------------------------------------------
  // The dummy cluster's acquisition count.

  /** `dimension`: the product over quantities, in order, of the sweep
      length of each quantity's first element. An empty quantity has no
      first element (IndexError); a non-iterable has no length (TypeError). */
  function DummyAcquisitions(ss: Samplespace): Result<nat>
  {
    if |ss| == 0 then Ok(1)
    else if |ss[0].1| == 0 then Err(IndexError)
    else
      match ss[0].1[0].1
      case Scalar(_) => Err(TypeError)
      case Values(xs) =>
        match DummyAcquisitions(ss[1..])
        case Err(e) => Err(e)
        case Ok(rest) => Ok(|xs| * rest)
  }

  /** A quantity whose first element sweeps an array. */
  predicate Countable(ss: Samplespace, i: nat)
    requires i < |ss|
  {
    |ss[i].1| > 0 && ss[i].1[0].1.Values?
  }

  /** The count exists iff every quantity is countable, and is then the
      product of the first elements' sweep lengths; otherwise the first
      quantity that is not decides the error. */
  lemma {:induction false} DummyAcquisitionsSpec(ss: Samplespace)
    ensures DummyAcquisitions(ss).Ok? <==> forall i :: 0 <= i < |ss| ==> Countable(ss, i)
    ensures DummyAcquisitions(ss).Ok? ==>
      DummyAcquisitions(ss).value == Product(seq(|ss|, i requires 0 <= i < |ss| && Countable(ss, i) => |ss[i].1[0].1.samples|))
    ensures forall j :: 0 <= j < |ss| && !Countable(ss, j) && (forall i :: 0 <= i < j ==> Countable(ss, i)) ==>
      DummyAcquisitions(ss) == Err(if |ss[j].1| == 0 then IndexError else TypeError)
  {
    if |ss| > 0 && Countable(ss, 0) {
      DummyAcquisitionsSpec(ss[1..]);
      forall i | 0 <= i < |ss| - 1 ensures Countable(ss[1..], i) == Countable(ss, i + 1) { }
      if DummyAcquisitions(ss).Ok? {
        var lens := seq(|ss|, i requires 0 <= i < |ss| && Countable(ss, i) => |ss[i].1[0].1.samples|);
        var rest := seq(|ss| - 1, i requires 0 <= i < |ss| - 1 && Countable(ss[1..], i) => |ss[1..][i].1[0].1.samples|);
        assert lens == [lens[0]] + rest;
      }
      forall j | 0 <= j < |ss| && !Countable(ss, j) && (forall i :: 0 <= i < j ==> Countable(ss, i))
        ensures DummyAcquisitions(ss) == Err(if |ss[j].1| == 0 then IndexError else TypeError)
      {
        assert j > 0;
        assert !Countable(ss[1..], j - 1);
        assert forall i :: 0 <= i < j - 1 ==> Countable(ss[1..], i) by {
          forall i | 0 <= i < j - 1 ensures Countable(ss[1..], i) { assert Countable(ss, i + 1); }
        }
      }
    }
  }

  /** When every quantity sweeps its first element and element `q` over
      arrays of one length, the dummy cluster produces exactly as many
      acquisitions as the key of `q` needs for its reshape. */
  lemma {:induction false} DummyFitsReshape(ss: Samplespace, q: string)
    requires forall i :: 0 <= i < |ss| ==> |ss[i].1| > 0 && Has(ss[i].1, q)
    requires forall i :: 0 <= i < |ss| ==> ss[i].1[0].1.Values? && Dicts.Get(ss[i].1, q).Values?
    requires forall i :: 0 <= i < |ss| ==> |ss[i].1[0].1.samples| == |Dicts.Get(ss[i].1, q).samples|
    ensures SweepLengths(ss, q, |ss|).Ok? && DummyAcquisitions(ss).Ok?
    ensures DummyAcquisitions(ss).value == Product(SweepLengths(ss, q, |ss|).value)
  {
    SweepLengthsSpec(ss, q, |ss|);
    var dims := SweepLengths(ss, q, |ss|).value;
    if |ss| > 0 {
      DummyFitsReshape(ss[1..], q);
      SweepLengthsSpec(ss[1..], q, |ss| - 1);
      var rest := SweepLengths(ss[1..], q, |ss| - 1).value;
      assert dims == [dims[0]] + rest;
    }
  }
}
