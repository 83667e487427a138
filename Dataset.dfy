// `configure_dataset`: turning the instrument coordinator's bare acquisition
// (one flat array per acquisition key) into a labelled dataset. Three copies
// of the configurator exist (tergite_acl/lib/nodes/graph.py,
// tergite_acl/utils/dataset_utils.py, workers/dataset_utils.py); they share
// the per-key loop modelled here and differ in the options gathered in
// `Options`. Datasets are dictionaries of coordinates and variables;
// xarray's alignment and conflict checks on merge are not modelled.
module Dataset {

  import opened Common
  import opened Dicts
  import opened Layout
  import opened Reshuffle

  /** A settable's sweep values: a sample array, or a single non-iterable value. */
  datatype Settable = Values(samples: seq<Sample>) | Scalar(value: Sample)

  /** `samplespace[quantity]`: element (qubit or coupler) -> sweep values. */
  type Quantity = Dict<Settable>

  /** quantity -> element -> sweep values, in insertion order. */
  type Samplespace = Dict<Quantity>

  datatype ElementType = QubitElement | CouplerElement

  /** A dataset coordinate: its values and the element it belongs to. */
  datatype Coord = Coord(values: seq<Sample>, elementType: ElementType, element: string)

  /** A data variable: the coordinate names of its axes, its values and attributes. */
  datatype Variable = Variable(dims: seq<string>, data: NdArray<Sample>, qubit: string, qubitState: Option<nat>)

  datatype DatasetValue = DatasetValue(coords: Dict<Coord>, vars: Dict<Variable>)

  // ---------------------------------------------------------------------
  // Scoping a settable on the measured qubit.

  /** `[s for s in elements if qubit in s]`. */
  function Matching(elements: seq<string>, qubit: string): seq<string>
  {
    if |elements| == 0 then []
    else (if IsSubstring(qubit, elements[0]) then [elements[0]] else []) + Matching(elements[1..], qubit)
  }

  /** The matches are exactly the elements containing the qubit's name. */
  lemma {:induction false} MatchingSpec(elements: seq<string>, qubit: string)
    ensures forall s :: s in Matching(elements, qubit) <==> s in elements && IsSubstring(qubit, s)
  {
    if |elements| > 0 {
      MatchingSpec(elements[1..], qubit);
      assert elements == [elements[0]] + elements[1..];
    }
  }

  /** Which element of a quantity the measured qubit's coordinate uses. */
  function Scope(elements: seq<string>, qubit: string): Result<(string, ElementType)>
  {
    if qubit in elements then Ok((qubit, QubitElement))
    else
      var m := Matching(elements, qubit);
      if |m| == 1 && '_' in m[0] then Ok((m[0], CouplerElement))
      else Err(ValueError(""))
  }

  /** The qubit itself when it is an element; otherwise the one element
      containing the qubit's name, which must be a coupler (its name holds
      '_'); anything else is a ValueError. */
  lemma ScopeSpec(elements: seq<string>, qubit: string)
    ensures qubit in elements ==> Scope(elements, qubit) == Ok((qubit, QubitElement))
    ensures Scope(elements, qubit).Ok? && qubit !in elements ==>
      var (element, kind) := Scope(elements, qubit).value;
      kind == CouplerElement && element in elements && IsSubstring(qubit, element) && '_' in element &&
      forall s :: s in elements && IsSubstring(qubit, s) ==> s == element
    ensures Scope(elements, qubit).Err? ==> Scope(elements, qubit).error == ValueError("")
    ensures Scope(elements, qubit).Ok? ==> Scope(elements, qubit).value.0 in elements
  {
    MatchingSpec(elements, qubit);
    var m := Matching(elements, qubit);
    if qubit !in elements && |m| == 1 && '_' in m[0] {
      assert m[0] in m;
      forall s | s in elements && IsSubstring(qubit, s) ensures s == m[0] {
        assert s in m;
      }
    }
  }

  /** Conversely, among the distinct elements of a quantity, a unique
      coupler containing the qubit's name is found. */
  lemma ScopeFindsCoupler(elements: seq<string>, qubit: string, e: string)
    requires Distinct(elements) && qubit !in elements
    requires e in elements && IsSubstring(qubit, e) && '_' in e
    requires forall s :: s in elements && IsSubstring(qubit, s) ==> s == e
    ensures Scope(elements, qubit) == Ok((e, CouplerElement))
  {
    MatchingSingle(elements, qubit, e);
  }

  lemma {:induction false} MatchingNone(elements: seq<string>, qubit: string)
    requires forall s :: s in elements ==> !IsSubstring(qubit, s)
    ensures Matching(elements, qubit) == []
  {
    if |elements| > 0 {
      assert elements[0] in elements;
      MatchingNone(elements[1..], qubit);
    }
  }

  lemma {:induction false} MatchingSingle(elements: seq<string>, qubit: string, e: string)
    requires Distinct(elements) && e in elements && IsSubstring(qubit, e)
    requires forall s :: s in elements && IsSubstring(qubit, s) ==> s == e
    ensures Matching(elements, qubit) == [e]
  {
    assert elements[0] in elements;
    if elements[0] == e {
      forall s | s in elements[1..] ensures !IsSubstring(qubit, s) {
        var b :| 0 <= b < |elements[1..]| && elements[1..][b] == s;
        assert elements[b + 1] == s;
      }
      MatchingNone(elements[1..], qubit);
    } else {
      var b :| 0 <= b < |elements| && elements[b] == e;
      assert elements[1..][b - 1] == e;
      MatchingSingle(elements[1..], qubit, e);
    }
  }

  /** The coordinate values of a settable: a scalar becomes a one-element
      array where the configurator wraps it, and is otherwise rejected by
      xarray (a zero-dimensional value for a one-dimensional coordinate). */
  function CoordValues(v: Settable, scalarAsArray: bool): (r: Result<seq<Sample>>)
    ensures v.Values? ==> r == Ok(v.samples)
    ensures v.Scalar? && scalarAsArray ==> r == Ok([v.value])
    ensures v.Scalar? && !scalarAsArray ==> r.Err? && r.error.ValueError?
  {
    match v
    case Values(xs) => Ok(xs)
    case Scalar(x) => if scalarAsArray then Ok([x]) else Err(ValueError("dimensions mismatch"))
  }

  lemma HasKey<V>(d: Dict<V>, k: string)
    requires k in Keys(d)
    ensures Has(d, k)
  {
    var i :| 0 <= i < |Keys(d)| && Keys(d)[i] == k;
  }

  /** The coordinate of quantity number `i` for the measured qubit. */
  function QuantityCoord(ss: Samplespace, i: nat, qubit: string, scalarAsArray: bool): Result<(string, Coord)>
    requires i < |ss|
  {
    var (quantity, elements) := ss[i];
    match Scope(Keys(elements), qubit)
    case Err(e) => Err(e)
    case Ok((element, kind)) =>
      ScopeSpec(Keys(elements), qubit);
      HasKey(elements, element);
      match CoordValues(Dicts.Get(elements, element), scalarAsArray)
      case Err(e) => Err(e)
      case Ok(values) => Ok((quantity + element, Coord(values, kind, element)))
  }

  /** `coords_dict` after the first `k` quantities. */
  function CoordsUpTo(ss: Samplespace, k: nat, qubit: string, scalarAsArray: bool): Result<Dict<Coord>>
    requires k <= |ss|
  {
    if k == 0 then Ok([])
    else
      match CoordsUpTo(ss, k - 1, qubit, scalarAsArray)
      case Err(e) => Err(e)
      case Ok(coords) =>
        match QuantityCoord(ss, k - 1, qubit, scalarAsArray)
        case Err(e) => Err(e)
        case Ok((name, c)) => Ok(Put(coords, name, c))
  }

  /** The coordinates for one measured qubit: one per quantity, then the
      external parameter's single value when the node has externals. */
  function CoordsFor(ss: Samplespace, qubit: string, scalarAsArray: bool, external: Option<(string, Sample)>): Result<Dict<Coord>>
  {
    match CoordsUpTo(ss, |ss|, qubit, scalarAsArray)
    case Err(e) => Err(e)
    case Ok(coords) =>
      if external.Some? then Ok(Put(coords, external.value.0 + qubit, Coord([external.value.1], QubitElement, qubit)))
      else Ok(coords)
  }

  /** Building the coordinates fails exactly when some quantity fails. */
  lemma {:induction false} CoordsUpToOk(ss: Samplespace, k: nat, qubit: string, scalarAsArray: bool)
    requires k <= |ss|
    ensures CoordsUpTo(ss, k, qubit, scalarAsArray).Ok? <==>
      forall i :: 0 <= i < k ==> QuantityCoord(ss, i, qubit, scalarAsArray).Ok?
  {
    if k > 0 {
      CoordsUpToOk(ss, k - 1, qubit, scalarAsArray);
    }
  }

  /** Every quantity's coordinate is present, holding that quantity's values
      unless a later quantity produced the same name. */
  lemma {:induction false} CoordsUpToContent(ss: Samplespace, k: nat, qubit: string, scalarAsArray: bool, i: nat)
    requires i < k <= |ss| && CoordsUpTo(ss, k, qubit, scalarAsArray).Ok?
    ensures QuantityCoord(ss, i, qubit, scalarAsArray).Ok?
    ensures Valid(CoordsUpTo(ss, k, qubit, scalarAsArray).value)
    ensures Has(CoordsUpTo(ss, k, qubit, scalarAsArray).value, QuantityCoord(ss, i, qubit, scalarAsArray).value.0)
    ensures (forall j :: i < j < k ==> (QuantityCoord(ss, j, qubit, scalarAsArray).Ok? &&
        QuantityCoord(ss, j, qubit, scalarAsArray).value.0 != QuantityCoord(ss, i, qubit, scalarAsArray).value.0)) ==>
      Dicts.Get(CoordsUpTo(ss, k, qubit, scalarAsArray).value, QuantityCoord(ss, i, qubit, scalarAsArray).value.0) ==
      QuantityCoord(ss, i, qubit, scalarAsArray).value.1
  {
    var prev := CoordsUpTo(ss, k - 1, qubit, scalarAsArray);
    var last := QuantityCoord(ss, k - 1, qubit, scalarAsArray);
    assert prev.Ok? && last.Ok?;
    if i < k - 1 {
      CoordsUpToContent(ss, k - 1, qubit, scalarAsArray, i);
    } else {
      CoordsValid(ss, k - 1, qubit, scalarAsArray);
    }
    var (name, c) := QuantityCoord(ss, i, qubit, scalarAsArray).value;
    PutValid(prev.value, last.value.0, last.value.1);
    PutGet(prev.value, last.value.0, last.value.1, name);
    if i < k - 1 && forall j :: i < j < k ==> (QuantityCoord(ss, j, qubit, scalarAsArray).Ok? &&
        QuantityCoord(ss, j, qubit, scalarAsArray).value.0 != name) {
      assert last.value.0 != name;
      assert Dicts.Get(prev.value, name) == c;
    }
  }

  lemma {:induction false} CoordsValid(ss: Samplespace, k: nat, qubit: string, scalarAsArray: bool)
    requires k <= |ss| && CoordsUpTo(ss, k, qubit, scalarAsArray).Ok?
    ensures Valid(CoordsUpTo(ss, k, qubit, scalarAsArray).value)
  {
    if k > 0 {
      var prev := CoordsUpTo(ss, k - 1, qubit, scalarAsArray);
      var last := QuantityCoord(ss, k - 1, qubit, scalarAsArray);
      CoordsValid(ss, k - 1, qubit, scalarAsArray);
      PutValid(prev.value, last.value.0, last.value.1);
    }
  }

  /** The inner loop of the configurator: one coordinate per quantity, then
      the external coordinate. */
  method BuildCoords(ss: Samplespace, qubit: string, scalarAsArray: bool, external: Option<(string, Sample)>)
    returns (r: Result<Dict<Coord>>)
    ensures r == CoordsFor(ss, qubit, scalarAsArray, external)
  {
    r := ScopeQuantities(ss, qubit, scalarAsArray);
    if r.Ok? && external.Some? {
      r := Ok(Put(r.value, external.value.0 + qubit, Coord([external.value.1], QubitElement, qubit)));
    }
  }

  /** The loop over the samplespace's quantities, each scoped to the qubit. */
  method ScopeQuantities(ss: Samplespace, qubit: string, scalarAsArray: bool) returns (r: Result<Dict<Coord>>)
    ensures r == CoordsUpTo(ss, |ss|, qubit, scalarAsArray)
  {
    var coords: Dict<Coord> := [];
    var k := 0;
    while k < |ss|
      invariant 0 <= k <= |ss|
      invariant CoordsUpTo(ss, k, qubit, scalarAsArray) == Ok(coords)
    {
      var c := QuantityCoord(ss, k, qubit, scalarAsArray);
      CoordsOneStep(ss, k, qubit, scalarAsArray, coords, c);
      if c.Err? {
        CoordsErrStays(ss, k + 1, |ss|, qubit, scalarAsArray);
        return Err(c.error);
      }
      coords := Put(coords, c.value.0, c.value.1);
      k := k + 1;
    }
    return Ok(coords);
  }

  /** One step of the coordinate fold. */
  lemma CoordsOneStep(ss: Samplespace, k: nat, qubit: string, scalarAsArray: bool, coords: Dict<Coord>, c: Result<(string, Coord)>)
    requires k < |ss| && CoordsUpTo(ss, k, qubit, scalarAsArray) == Ok(coords)
    requires QuantityCoord(ss, k, qubit, scalarAsArray) == c
    ensures c.Err? ==> CoordsUpTo(ss, k + 1, qubit, scalarAsArray) == Err(c.error)
    ensures c.Ok? ==> CoordsUpTo(ss, k + 1, qubit, scalarAsArray) == Ok(Put(coords, c.value.0, c.value.1))
  {
  }

  /** The first failing quantity decides the outcome. */
  lemma {:induction false} CoordsErrStays(ss: Samplespace, k: nat, m: nat, qubit: string, scalarAsArray: bool)
    requires k <= m <= |ss| && CoordsUpTo(ss, k, qubit, scalarAsArray).Err?
    ensures CoordsUpTo(ss, m, qubit, scalarAsArray) == CoordsUpTo(ss, k, qubit, scalarAsArray)
    decreases m - k
  {
    if k < m {
      CoordsErrStays(ss, k, m - 1, qubit, scalarAsArray);
    }
  }

  // ---------------------------------------------------------------------
  // One acquisition key.

  /** Acquisition key `k` belongs to `all_qubits[k % n]`: keys n, 2n, ... are
      the extra measurements of the frequency-optimisation nodes. */
  function KeyQubit(allQubits: seq<string>, key: nat): (r: Result<string>)
    ensures r.Err? <==> |allQubits| == 0
    ensures r.Err? ==> r.error == ZeroDivisionError
    ensures r.Ok? ==> r.value in allQubits && r.value == allQubits[key % |allQubits|]
  {
    if |allQubits| == 0 then Err(ZeroDivisionError) else Ok(allQubits[key % |allQubits|])
  }

  /** The state a frequency-optimisation key measures: `[0, 1, 2][k // n]`. */
  function KeyState(key: nat, n: nat): (r: Result<nat>)
    requires n > 0
    ensures r.Ok? <==> key < 3 * n
    ensures r.Ok? ==> r.value == key / n && r.value <= 2
    ensures r.Err? ==> r.error == IndexError
  {
    if key / n < 3 then Ok([0, 1, 2][key / n]) else Err(IndexError)
  }

  /** `f'y{qubit}{qubit_state}'`, with an empty suffix when there is no state. */
  function VarName(qubit: string, state: Option<nat>): string
  {
    "y" + qubit + (if state.Some? then NatToString(state.value) else "")
  }

  /** Reshaping by the reversed dimensions and transposing, then attaching
      the coordinates as the axes: a ValueError when the sizes disagree. */
  function LayOut(data: seq<Sample>, dims: seq<nat>, coords: Dict<Coord>): (r: Result<NdArray<Sample>>)
    ensures r.Ok? <==> (|data| == Product(dims) && |coords| == |dims| &&
      forall i :: 0 <= i < |dims| ==> |coords[i].1.values| == dims[i])
    ensures r.Ok? ==> WellFormed(r.value) && r.value.shape == dims
    ensures r.Err? ==> r.error.ValueError?
  {
    match Reshape(data, Reverse(dims))
    case Err(e) =>
      ProductReverse(dims);
      Err(e)
    case Ok(a) =>
      ProductReverse(dims);
      ReverseReverse(dims);
      if |coords| == |dims| && forall i :: 0 <= i < |dims| ==> |coords[i].1.values| == dims[i] then Ok(Transpose(a))
      else Err(ValueError("conflicting sizes"))
  }

  /** Each axis of a laid-out variable is labelled by one coordinate, and
      element (i0, ..., ik) is acquisition i0 + d0 * (i1 + d1 * (...)). */
  lemma LayOutLaw(data: seq<Sample>, dims: seq<nat>, coords: Dict<Coord>, idx: seq<nat>)
    requires LayOut(data, dims, coords).Ok? && InBounds(dims, idx)
    ensures Layout.Get(LayOut(data, dims, coords).value, idx) == data[FIndex(dims, idx)]
  {
    ReshapeTransposeLaw(data, dims, idx);
  }

  /** What the configurator needs to know about a node. */
  datatype DatasetNode = DatasetNode(
    name: string,
    allQubits: seq<string>,
    samplespace: Samplespace,          // `node.samplespace`
    schedule: Samplespace,             // `node.schedule_samplespace`
    reducedExternal: Samplespace,      // `node.reduced_external_samplespace`
    spi: Option<Samplespace>,          // `node.spi_samplespace`, when the node has one
    externals: Option<(string, Sample)>, // (`external_parameter_name`, `external_parameter_value`) when it has `node_externals`
    dimensions: seq<nat>,
    loopRepetitions: Option<nat>)      // `node_dictionary['loop_repetitions']`

  /** The points where the three configurators differ. */
  datatype Options = Options(
    samplespace: Samplespace,
    external: Option<(string, Sample)>,
    stateSuffix: bool,     // name the variable y<qubit><state>
    reshuffle: bool,       // readout-amplitude optimisation: reshuffle loops first
    scalarAsArray: bool)   // wrap a non-iterable settable into a one-element array

  predicate IsFrequencyOptimisation(name: string)
  {
    name == "ro_frequency_two_state_optimization" || name == "ro_frequency_three_state_optimization"
  }

  predicate IsAmplitudeOptimisation(name: string)
  {
    name == "ro_amplitude_two_state_optimization" || name == "ro_amplitude_three_state_optimization"
  }

  /** tergite_acl/lib/nodes/graph.py */
  function GraphOptions(node: DatasetNode): (o: Options)
    ensures o.samplespace == node.samplespace && o.external == node.externals
    ensures o.stateSuffix <==> IsFrequencyOptimisation(node.name)
    ensures o.reshuffle <==> IsAmplitudeOptimisation(node.name)
    ensures !o.scalarAsArray
  {
    Options(node.samplespace, node.externals, IsFrequencyOptimisation(node.name), IsAmplitudeOptimisation(node.name), false)
  }

  /** tergite_acl/utils/dataset_utils.py: the schedule samplespace merged
      with the reduced external one. */
  function AclOptions(node: DatasetNode): (o: Options)
    ensures o.samplespace == Merge(node.schedule, node.reducedExternal) && o.external.None?
    ensures !o.stateSuffix && o.scalarAsArray
    ensures o.reshuffle <==> IsAmplitudeOptimisation(node.name)
  {
    Options(Merge(node.schedule, node.reducedExternal), None, false, IsAmplitudeOptimisation(node.name), true)
  }

  /** workers/dataset_utils.py: the spi samplespace merged in when present,
      state suffixes when 'ro_opt_frequencies' is swept. */
  function WorkerOptions(node: DatasetNode): (o: Options)
    ensures o.samplespace == if node.spi.Some? then Merge(node.samplespace, node.spi.value) else node.samplespace
    ensures o.external == node.externals && !o.reshuffle && !o.scalarAsArray
    ensures o.stateSuffix <==> "ro_opt_frequencies" in Keys(o.samplespace)
  {
    var ss := if node.spi.Some? then Merge(node.samplespace, node.spi.value) else node.samplespace;
    Options(ss, node.externals, "ro_opt_frequencies" in Keys(ss), false, false)
  }

  /** In the merged samplespace an external quantity replaces the schedule's
      quantity of the same name; every other quantity is kept. */
  lemma AclSamplespaceMerge(node: DatasetNode, quantity: string)
    requires Valid(node.schedule) && Valid(node.reducedExternal)
    ensures var ss := AclOptions(node).samplespace;
      (Has(ss, quantity) <==> Has(node.schedule, quantity) || Has(node.reducedExternal, quantity)) &&
      (Has(node.reducedExternal, quantity) ==> Dicts.Get(ss, quantity) == Dicts.Get(node.reducedExternal, quantity)) &&
      (!Has(node.reducedExternal, quantity) && Has(node.schedule, quantity) ==> Dicts.Get(ss, quantity) == Dicts.Get(node.schedule, quantity))
  {
    MergeGet(node.schedule, node.reducedExternal, quantity);
  }

  /** The spi samplespace wins over the node's samplespace on a clash. */
  lemma WorkerSpiMerge(node: DatasetNode, quantity: string)
    requires node.spi.Some? && Valid(node.samplespace) && Valid(node.spi.value)
    ensures var ss := WorkerOptions(node).samplespace;
      (Has(ss, quantity) <==> Has(node.samplespace, quantity) || Has(node.spi.value, quantity)) &&
      (Has(node.spi.value, quantity) ==> Dicts.Get(ss, quantity) == Dicts.Get(node.spi.value, quantity)) &&
      (!Has(node.spi.value, quantity) && Has(node.samplespace, quantity) ==> Dicts.Get(ss, quantity) == Dicts.Get(node.samplespace, quantity))
  {
    MergeGet(node.samplespace, node.spi.value, quantity);
  }

  /** `ampls` and `states` of the amplitude-optimisation branch: Python keeps
      them from an earlier key when the current key's coordinates lack them. */
  datatype Carry = Carry(ampls: Option<seq<Sample>>, states: Option<seq<Sample>>)

  /** The scan over the coordinate names of the amplitude-optimisation branch. */
  function ScanFrom(coords: Dict<Coord>, k: nat, qubit: string, carry: Carry): (c: Carry)
    requires k <= |coords|
    ensures carry.ampls.Some? ==> c.ampls.Some?
    ensures carry.states.Some? ==> c.states.Some?
  {
    if k == 0 then carry
    else
      var c := ScanFrom(coords, k - 1, qubit, carry);
      var (name, coord) := coords[k - 1];
      if IsSubstring(qubit, name) && IsSubstring("ro_amplitudes", name) then c.(ampls := Some(coord.values))
      else if IsSubstring(qubit, name) && IsSubstring("qubit_states", name) then c.(states := Some(coord.values))
      else c
  }

  /** A coordinate of the measured qubit that names the amplitudes is found by the scan. */
  lemma {:induction false} ScanFinds(coords: Dict<Coord>, k: nat, qubit: string, carry: Carry, i: nat)
    requires i < k <= |coords|
    requires IsSubstring(qubit, coords[i].0) && IsSubstring("ro_amplitudes", coords[i].0)
    ensures ScanFrom(coords, k, qubit, carry).ampls.Some?
  {
    if i < k - 1 {
      ScanFinds(coords, k - 1, qubit, carry, i);
    }
  }

  /** The acquisition of one key after the optional amplitude reshuffle. */
  function Reordered(opts: Options, node: DatasetNode, flat: seq<Sample>, coords: Dict<Coord>, qubit: string, carry: Carry, blank: Sample)
    : (r: Result<(seq<Sample>, Carry)>)
    ensures r.Ok? && !opts.reshuffle ==> r.value == (flat, carry)
  {
    if !opts.reshuffle then Ok((flat, carry))
    else if node.loopRepetitions.None? then Err(KeyError("loop_repetitions"))
    else
      var c := ScanFrom(coords, |coords|, qubit, carry);
      if c.ampls.None? then Err(UnboundLocal("ampls"))
      else if c.states.None? then Err(UnboundLocal("states"))
      else
        match Reshuffled(flat, |c.ampls.value|, DistinctCount(c.states.value), node.loopRepetitions.value, blank)
        case Err(e) => Err(e)
        case Ok(data) => Ok((data, c))
  }

  /** Everything one acquisition key contributes: its coordinates, its
      variable's name and the variable. */
  datatype Partial = Partial(coords: Dict<Coord>, name: string, variable: Variable)

  function KeyStep(opts: Options, node: DatasetNode, key: nat, flat: seq<Sample>, carry: Carry, blank: Sample)
    : Result<(Partial, Carry)>
  {
    match KeyQubit(node.allQubits, key)
    case Err(e) => Err(e)
    case Ok(qubit) =>
      match CoordsFor(opts.samplespace, qubit, opts.scalarAsArray, opts.external)
      case Err(e) => Err(e)
      case Ok(coords) => KeyVariable(opts, node, key, qubit, coords, flat, carry, blank)
  }

  /** The variable of one key, once its qubit and coordinates are known. */
  function KeyVariable(opts: Options, node: DatasetNode, key: nat, qubit: string, coords: Dict<Coord>, flat: seq<Sample>, carry: Carry, blank: Sample)
    : Result<(Partial, Carry)>
  {
    match Reordered(opts, node, flat, coords, qubit, carry, blank)
    case Err(e) => Err(e)
    case Ok((data, carry')) =>
      match LayOut(data, node.dimensions, coords)
      case Err(e) => Err(e)
      case Ok(laidOut) =>
        if opts.stateSuffix && |node.allQubits| == 0 then Err(ZeroDivisionError)
        else
          var state := if opts.stateSuffix then KeyState(key, |node.allQubits|) else Ok(0);
          if state.Err? then Err(state.error)
          else
            var qubitState := if opts.stateSuffix then Some(state.value) else None;
            Ok((Partial(coords, VarName(qubit, qubitState), Variable(Keys(coords), laidOut, qubit, qubitState)), carry'))
  }

  /** What one key contributes: the variable `y<qubit>[<state>]` of the key's
      qubit, whose axes are the key's coordinates and whose element idx is
      the (reordered) acquisition at i0 + d0 * (i1 + d1 * (...)). */
  lemma KeyStepSpec(opts: Options, node: DatasetNode, key: nat, flat: seq<Sample>, carry: Carry, blank: Sample, idx: seq<nat>)
    requires KeyStep(opts, node, key, flat, carry, blank).Ok?
    requires InBounds(node.dimensions, idx)
    ensures var (p, _) := KeyStep(opts, node, key, flat, carry, blank).value;
      |node.allQubits| > 0 &&
      p.variable.qubit == node.allQubits[key % |node.allQubits|] &&
      (opts.stateSuffix <==> p.variable.qubitState.Some?) &&
      (opts.stateSuffix ==> p.variable.qubitState == Some(key / |node.allQubits|) && key / |node.allQubits| <= 2) &&
      p.name == VarName(p.variable.qubit, p.variable.qubitState) &&
      Ok(p.coords) == CoordsFor(opts.samplespace, p.variable.qubit, opts.scalarAsArray, opts.external) &&
      p.variable.dims == Keys(p.coords) &&
      p.variable.data.shape == node.dimensions &&
      (!opts.reshuffle ==> Layout.Get(p.variable.data, idx) == flat[FIndex(node.dimensions, idx)])
  {
    var qubit := KeyQubit(node.allQubits, key).value;
    var coords := CoordsFor(opts.samplespace, qubit, opts.scalarAsArray, opts.external).value;
    var (data, _) := Reordered(opts, node, flat, coords, qubit, carry, blank).value;
    LayOutLaw(data, node.dimensions, coords, idx);
  }

  // ---------------------------------------------------------------------
  // The loop over acquisition keys.

  /** One turn of the loop over acquisition keys: from the key, its flat
      acquisition and what `ampls`/`states` hold, the key's contribution. */
  type KeyStepFn = (nat, seq<Sample>, Carry) -> Result<(Partial, Carry)>

  function StepOf(opts: Options, node: DatasetNode, blank: Sample): KeyStepFn
  {
    (key: nat, flat: seq<Sample>, carry: Carry) => KeyStep(opts, node, key, flat, carry, blank)
  }

  /** The dataset after the first `k` acquisition keys: each key's
      coordinates merged in, its variable stored under its name. */
  function Accumulate(step: KeyStepFn, raw: seq<(nat, seq<Sample>)>, k: nat): Result<(DatasetValue, Carry)>
    requires k <= |raw|
  {
    if k == 0 then Ok((DatasetValue([], []), Carry(None, None)))
    else
      match Accumulate(step, raw, k - 1)
      case Err(e) => Err(e)
      case Ok((ds, carry)) =>
        match step(raw[k - 1].0, raw[k - 1].1, carry)
        case Err(e) => Err(e)
        case Ok((p, carry')) =>
          Ok((DatasetValue(Merge(ds.coords, p.coords), Put(ds.vars, p.name, p.variable)), carry'))
  }

  /** The configured dataset, or the error of the first key that fails. */
  function Configure(opts: Options, node: DatasetNode, raw: seq<(nat, seq<Sample>)>, blank: Sample): Result<DatasetValue>
  {
    match Accumulate(StepOf(opts, node, blank), raw, |raw|)
    case Err(e) => Err(e)
    case Ok((ds, _)) => Ok(ds)
  }

  /** `configure_dataset(raw_ds, node)` with the configurator's options. */
  method ConfigureDataset(opts: Options, node: DatasetNode, raw: seq<(nat, seq<Sample>)>, blank: Sample)
    returns (r: Result<DatasetValue>)
    ensures r == Configure(opts, node, raw, blank)
  {
    ghost var f := StepOf(opts, node, blank);
    var dataset := DatasetValue([], []);
    var carry := Carry(None, None);
    var k := 0;
    while k < |raw|
      invariant 0 <= k <= |raw|
      invariant Accumulate(f, raw, k).Ok? && Accumulate(f, raw, k).value.0 == dataset
      invariant Accumulate(f, raw, k).value.1 == carry
    {
      var step := ConfigureKey(opts, node, raw[k].0, raw[k].1, carry, blank);
      assert step == f(raw[k].0, raw[k].1, carry);
      if step.Err? {
        KeyFails(f, raw, k, carry);
        return Err(step.error);
      }
      AccumulateOneOk(f, raw, k, dataset, carry, step.value.0, step.value.1);
      dataset := DatasetValue(Merge(dataset.coords, step.value.0.coords), Put(dataset.vars, step.value.0.name, step.value.0.variable));
      carry := step.value.1;
      k := k + 1;
    }
    return Ok(dataset);
  }

  /** The body of the loop over acquisition keys. */
  method ConfigureKey(opts: Options, node: DatasetNode, key: nat, flat: seq<Sample>, carry: Carry, blank: Sample)
    returns (r: Result<(Partial, Carry)>)
    ensures r == KeyStep(opts, node, key, flat, carry, blank)
  {
    var qubit := KeyQubit(node.allQubits, key);
    if qubit.Err? {
      return Err(qubit.error);
    }
    var coords := BuildCoords(opts.samplespace, qubit.value, opts.scalarAsArray, opts.external);
    if coords.Err? {
      return Err(coords.error);
    }
    r := LayOutKey(opts, node, key, qubit.value, coords.value, flat, carry, blank);
  }

  /** Reordering, reshaping and naming the variable of one key. */
  method LayOutKey(opts: Options, node: DatasetNode, key: nat, qubit: string, coords: Dict<Coord>, flat: seq<Sample>, carry: Carry, blank: Sample)
    returns (r: Result<(Partial, Carry)>)
    ensures r == KeyVariable(opts, node, key, qubit, coords, flat, carry, blank)
  {
    var reordered := Reorder(opts, node, flat, coords, qubit, carry, blank);
    if reordered.Err? {
      return Err(reordered.error);
    }
    var (data, carry') := reordered.value;
    var laidOut := LayOut(data, node.dimensions, coords);
    if laidOut.Err? {
      return Err(laidOut.error);
    }
    var qubitState: Option<nat> := None;
    if opts.stateSuffix {
      if |node.allQubits| == 0 {
        return Err(ZeroDivisionError);
      }
      var state := KeyState(key, |node.allQubits|);
      if state.Err? {
        return Err(state.error);
      }
      qubitState := Some(state.value);
    }
    var variable := Variable(Keys(coords), laidOut.value, qubit, qubitState);
    return Ok((Partial(coords, VarName(qubit, qubitState), variable), carry'));
  }

  /** The amplitude-optimisation branch: find the amplitudes and states
      among the coordinates, then reshuffle. */
  method Reorder(opts: Options, node: DatasetNode, flat: seq<Sample>, coords: Dict<Coord>, qubit: string, carry: Carry, blank: Sample)
    returns (r: Result<(seq<Sample>, Carry)>)
    ensures r == Reordered(opts, node, flat, coords, qubit, carry, blank)
  {
    if !opts.reshuffle {
      return Ok((flat, carry));
    }
    if node.loopRepetitions.None? {
      return Err(KeyError("loop_repetitions"));
    }
    var c := Scan(coords, qubit, carry);
    if c.ampls.None? {
      return Err(UnboundLocal("ampls"));
    }
    if c.states.None? {
      return Err(UnboundLocal("states"));
    }
    var data := ReshuffleLoop(flat, c.ampls.value, c.states.value, node.loopRepetitions.value, blank);
    if data.Err? {
      return Err(data.error);
    }
    return Ok((data.value, c));
  }

  /** The coordinate scan of the amplitude-optimisation branch. */
  method Scan(coords: Dict<Coord>, qubit: string, carry: Carry) returns (c: Carry)
    ensures c == ScanFrom(coords, |coords|, qubit, carry)
  {
    c := carry;
    var k := 0;
    while k < |coords|
      invariant 0 <= k <= |coords|
      invariant c == ScanFrom(coords, k, qubit, carry)
    {
      var (name, coord) := coords[k];
      if IsSubstring(qubit, name) && IsSubstring("ro_amplitudes", name) {
        c := c.(ampls := Some(coord.values));
      } else if IsSubstring(qubit, name) && IsSubstring("qubit_states", name) {
        c := c.(states := Some(coord.values));
      }
      k := k + 1;
    }
  }

  /** A key that fails makes the whole loop fail with its error. */
  lemma KeyFails(step: KeyStepFn, raw: seq<(nat, seq<Sample>)>, k: nat, carry: Carry)
    requires k < |raw| && Accumulate(step, raw, k).Ok? && Accumulate(step, raw, k).value.1 == carry
    requires step(raw[k].0, raw[k].1, carry).Err?
    ensures Accumulate(step, raw, |raw|) == Err(step(raw[k].0, raw[k].1, carry).error)
  {
    var e := step(raw[k].0, raw[k].1, carry).error;
    AccumulateOneFails(step, raw, k, carry, e);
    AccumulateErrStays(step, raw, k + 1, |raw|);
  }

  /** One step of the fold: a key that succeeds adds its coordinates and
      its variable and passes on its carried state. */
  lemma AccumulateOneOk(step: KeyStepFn, raw: seq<(nat, seq<Sample>)>, k: nat, ds: DatasetValue, carry: Carry, p: Partial, carry': Carry)
    requires k < |raw| && Accumulate(step, raw, k).Ok?
    requires Accumulate(step, raw, k).value.0 == ds && Accumulate(step, raw, k).value.1 == carry
    requires step(raw[k].0, raw[k].1, carry) == Ok((p, carry'))
    ensures Accumulate(step, raw, k + 1).Ok?
    ensures Accumulate(step, raw, k + 1).value.0 == DatasetValue(Merge(ds.coords, p.coords), Put(ds.vars, p.name, p.variable))
    ensures Accumulate(step, raw, k + 1).value.1 == carry'
  {
  }

  /** One step of the fold: the failing key's error is the result. */
  lemma AccumulateOneFails(step: KeyStepFn, raw: seq<(nat, seq<Sample>)>, k: nat, carry: Carry, e: Error)
    requires k < |raw| && Accumulate(step, raw, k).Ok? && Accumulate(step, raw, k).value.1 == carry
    requires step(raw[k].0, raw[k].1, carry) == Err(e)
    ensures Accumulate(step, raw, k + 1) == Err(e)
  {
  }

  /** An error, once raised, is the outcome. */
  lemma {:induction false} AccumulateErrStays(step: KeyStepFn, raw: seq<(nat, seq<Sample>)>, k: nat, m: nat)
    requires k <= m <= |raw| && Accumulate(step, raw, k).Err?
    ensures Accumulate(step, raw, m) == Accumulate(step, raw, k)
    decreases m - k
  {
    if k < m {
      AccumulateErrStays(step, raw, k, m - 1);
    }
  }

  /** The carried state before key `i`, when the keys before it succeed. */
  function CarryBefore(step: KeyStepFn, raw: seq<(nat, seq<Sample>)>, i: nat): Carry
    requires i <= |raw|
  {
    var prev := Accumulate(step, raw, i);
    if prev.Err? then Carry(None, None) else prev.value.1
  }

  /** The variable name key `j` produces, when the keys before it succeed. */
  function KeyName(step: KeyStepFn, raw: seq<(nat, seq<Sample>)>, j: nat): string
    requires j < |raw|
  {
    var r := step(raw[j].0, raw[j].1, CarryBefore(step, raw, j));
    if r.Err? then "" else r.value.0.name
  }

  /** A configured dataset holds the variable of every acquisition key, and
      a key's variable is the one its step built unless a later key reused
      its name. */
  lemma {:induction false} AccumulateVariables(step: KeyStepFn, raw: seq<(nat, seq<Sample>)>, k: nat, i: nat)
    requires i < k <= |raw| && Accumulate(step, raw, k).Ok?
    ensures Accumulate(step, raw, i).Ok?
    ensures step(raw[i].0, raw[i].1, CarryBefore(step, raw, i)).Ok?
    ensures Valid(Accumulate(step, raw, k).value.0.vars)
    ensures Has(Accumulate(step, raw, k).value.0.vars, KeyName(step, raw, i))
    ensures (forall j :: i < j < k ==> KeyName(step, raw, j) != KeyName(step, raw, i)) ==>
      Dicts.Get(Accumulate(step, raw, k).value.0.vars, KeyName(step, raw, i)) ==
      step(raw[i].0, raw[i].1, CarryBefore(step, raw, i)).value.0.variable
  {
    var (ds, carry) := Accumulate(step, raw, k - 1).value;
    var (p, _) := step(raw[k - 1].0, raw[k - 1].1, carry).value;
    AccumulateValid(step, raw, k - 1);
    PutValid(ds.vars, p.name, p.variable);
    if i < k - 1 {
      AccumulateVariables(step, raw, k - 1, i);
    }
    PutGet(ds.vars, p.name, p.variable, KeyName(step, raw, i));
    if i < k - 1 && forall j :: i < j < k ==> KeyName(step, raw, j) != KeyName(step, raw, i) {
      assert KeyName(step, raw, k - 1) == p.name;
    }
  }

  lemma {:induction false} AccumulateValid(step: KeyStepFn, raw: seq<(nat, seq<Sample>)>, k: nat)
    requires k <= |raw| && Accumulate(step, raw, k).Ok?
    ensures Valid(Accumulate(step, raw, k).value.0.vars)
  {
    if k > 0 {
      var (ds, carry) := Accumulate(step, raw, k - 1).value;
      var (p, _) := step(raw[k - 1].0, raw[k - 1].1, carry).value;
      AccumulateValid(step, raw, k - 1);
      PutValid(ds.vars, p.name, p.variable);
    }
  }
}
