// reset_redis.py: the script that forgets calibrations. Its argument is
// 'all' or one listed node. For every configured qubit and every coupler of
// adjacent qubits it sets quantities of interest back to "nan" and the node
// flags under `cs:` back to "not_calibrated": all existing fields and every
// listed node for 'all', only the node's own quantities and flag otherwise.
// The QOI tables of the device configuration are parameters.
module ResetRedis {

  import opened Common
  import opened Store

  /** The nodes the script knows, as listed in it. */
  const Nodes: seq<string> := [
    "cz_calibration_ssro", "cz_calibration", "cz_chevron", "ro_amplitude_optimization_gef",
    "ro_frequency_optimization_gef", "resonator_spectroscopy_2", "n_rabi_oscillations", "motzoi_parameter", "tof",
    "resonator_spectroscopy", "qubit_01_spectroscopy_pulsed", "qubit_01_spectroscopy_multidim", "rabi_oscillations",
    "ramsey_correction", "resonator_spectroscopy_1", "ro_frequency_optimization", "T1", "T2",
    "qubit_12_spectroscopy_pulsed", "ro_amplitude_optimization", "qubit_12_spectroscopy_multidim",
    "rabi_oscillations_12", "state_discrimination", "ramsey_correction_12", "coupler_spectroscopy",
    "coupler_resonator_spectroscopy", "punchout"]

  const NodeSet: set<string> := set n | n in Nodes

  /** argparse rejects an argument outside `['all'] + nodes` and exits. */
  const InvalidChoice := ValueError("argument node: invalid choice")

  /** The QOI table of the device configuration: node to its fields. */
  type QoiTable = map<string, set<string>>

  /** The couplers: each pair of adjacent qubits, joined by '_'. */
  function Couplers(qubits: seq<string>): (cs: seq<string>)
    ensures |cs| == if |qubits| == 0 then 0 else |qubits| - 1
    ensures forall i {:trigger cs[i]} :: 0 <= i < |cs| ==> cs[i] == qubits[i] + "_" + qubits[i + 1]
  {
    if |qubits| <= 1 then [] else seq(|qubits| - 1, i requires 0 <= i < |qubits| - 1 => qubits[i] + "_" + qubits[i + 1])
  }

  // ---------------------------------------------------------------------
  // Setting fields

  /** `HSET key f value` for every f in `fields`; the order is immaterial. */
  function Assign(h: Hashes, key: string, fields: set<string>, value: string): Hashes
  {
    if fields == {} then h else h[key := HashAt(h, key) + map f | f in fields :: value]
  }

  /** The fields named are set and nothing else changes; with no field the
      key is not created. */
  lemma AssignValue(h: Hashes, key: string, fields: set<string>, value: string, k: string, f: string)
    ensures FieldOf(Assign(h, key, fields, value), k, f) ==
      if k == key && f in fields then Some(value) else FieldOf(h, k, f)
    ensures k in Assign(h, key, fields, value) <==> k in h || (k == key && fields != {})
  {
  }

  lemma AssignStep(h: Hashes, key: string, done: set<string>, f: string, value: string)
    ensures SetField(Assign(h, key, done, value), key, f, value) == Assign(h, key, done + {f}, value)
  {
    var a := Assign(h, key, done, value);
    var m1 := HashAt(a, key)[f := value];
    var m2 := HashAt(h, key) + map g | g in done + {f} :: value;
    assert m1.Keys == m2.Keys;
    assert m1 == m2;
    assert a[key := m1] == h[key := m2];
  }

  /** The writes for one element: its hash under `hashKey`, its flags under
      `csKey`. */
  datatype Reset = ResetAll | ResetNode(node: string, fields: set<string>)

  function ResetOne(h: Hashes, hashKey: string, csKey: string, r: Reset): Hashes
  {
    match r
    case ResetAll => Assign(Assign(h, hashKey, HashAt(h, hashKey).Keys, Nan), csKey, NodeSet, NotCalibrated)
    case ResetNode(node, fields) => Assign(Assign(h, hashKey, fields, Nan), csKey, {node}, NotCalibrated)
  }

  /** The elements in order: the qubits, then the couplers. */
  function Elements(qubits: seq<string>): (es: seq<(string, string)>)
    ensures |es| == |qubits| + |Couplers(qubits)|
    ensures forall i {:trigger es[i]} :: 0 <= i < |qubits| ==> es[i] == (TransmonKey(qubits[i]), StatusKey(qubits[i]))
    ensures forall i {:trigger es[i]} :: |qubits| <= i < |es| ==>
      es[i] == (CouplerKey(Couplers(qubits)[i - |qubits|]), StatusKey(Couplers(qubits)[i - |qubits|]))
  {
    seq(|qubits|, i requires 0 <= i < |qubits| => (TransmonKey(qubits[i]), StatusKey(qubits[i]))) +
    seq(|Couplers(qubits)|, i requires 0 <= i < |Couplers(qubits)| =>
      (CouplerKey(Couplers(qubits)[i]), StatusKey(Couplers(qubits)[i])))
  }

  function ResetUpTo(h: Hashes, elements: seq<(string, string)>, r: Reset, n: nat): Hashes
    requires n <= |elements|
  {
    if n == 0 then h else ResetOne(ResetUpTo(h, elements, r, n - 1), elements[n - 1].0, elements[n - 1].1, r)
  }

  /** The flag hashes are never element hashes. */
  predicate Separate(elements: seq<(string, string)>)
  {
    forall i, j :: 0 <= i < |elements| && 0 <= j < |elements| ==> elements[i].0 != elements[j].1
  }

  /** A field after the reset, given whether its key is an element hash or
      a flag hash of a reset element. */
  function AfterReset(h: Hashes, r: Reset, isHash: bool, isFlag: bool, k: string, f: string): Option<string>
  {
    if isHash then
      match r
      case ResetAll => if FieldOf(h, k, f).Some? then Some(Nan) else None
      case ResetNode(_, fields) => if f in fields then Some(Nan) else FieldOf(h, k, f)
    else if isFlag then
      match r
      case ResetAll => if f in NodeSet then Some(NotCalibrated) else FieldOf(h, k, f)
      case ResetNode(node, _) => if f == node then Some(NotCalibrated) else FieldOf(h, k, f)
    else FieldOf(h, k, f)
  }

  lemma ResetOneField(h: Hashes, hk: string, ck: string, r: Reset, k: string, f: string)
    requires hk != ck
    ensures FieldOf(ResetOne(h, hk, ck, r), k, f) == AfterReset(h, r, k == hk, k == ck, k, f)
  {
    var mid := Assign(h, hk, if r.ResetAll? then HashAt(h, hk).Keys else r.fields, Nan);
    AssignValue(h, hk, if r.ResetAll? then HashAt(h, hk).Keys else r.fields, Nan, k, f);
    AssignValue(mid, ck, if r.ResetAll? then NodeSet else {r.node}, NotCalibrated, k, f);
  }

  predicate HashIn(elements: seq<(string, string)>, n: nat, k: string)
    requires n <= |elements|
  {
    exists i :: 0 <= i < n && elements[i].0 == k
  }

  predicate FlagIn(elements: seq<(string, string)>, n: nat, k: string)
    requires n <= |elements|
  {
    exists i :: 0 <= i < n && elements[i].1 == k
  }

  /** An element hash field becomes "nan" where it existed ('all') or where
      the node names it; a flag becomes "not_calibrated" for every listed node
      ('all') or for the node; everything else is left alone. */
  lemma {:induction false} ResetUpToField(h: Hashes, elements: seq<(string, string)>, r: Reset, n: nat, k: string, f: string)
    requires n <= |elements| && Separate(elements)
    ensures FieldOf(ResetUpTo(h, elements, r, n), k, f) ==
      AfterReset(h, r, HashIn(elements, n, k), FlagIn(elements, n, k), k, f)
  {
    if n > 0 {
      var prev := ResetUpTo(h, elements, r, n - 1);
      var (hk, ck) := elements[n - 1];
      ResetUpToField(h, elements, r, n - 1, k, f);
      ResetOneField(prev, hk, ck, r, k, f);
      assert HashIn(elements, n, k) <==> HashIn(elements, n - 1, k) || hk == k;
      assert FlagIn(elements, n, k) <==> FlagIn(elements, n - 1, k) || ck == k;
      if HashIn(elements, n, k) {
        assert !FlagIn(elements, n, k);
      }
    }
  }

  /** Element hashes (`transmons:`, `couplers:`) and flag hashes (`cs:`) differ. */
  lemma ElementsSeparate(qubits: seq<string>)
    ensures Separate(Elements(qubits))
  {
    var es := Elements(qubits);
    forall i, j | 0 <= i < |es| && 0 <= j < |es| ensures es[i].0 != es[j].1 {
      assert es[j].1[..3] == "cs:";
      assert es[i].0[..3] != "cs:" by {
        assert es[i].0[1] == 'r' || es[i].0[1] == 'o';
      }
    }
  }

  /** The reset hashes are the qubits' `transmons:` hashes and the couplers'
      `couplers:` hashes. */
  lemma ElementsHashes(qubits: seq<string>, k: string)
    ensures var es := Elements(qubits);
      var cs := Couplers(qubits);
      HashIn(es, |es|, k) <==> (exists i :: 0 <= i < |qubits| && k == TransmonKey(qubits[i])) ||
                               (exists i :: 0 <= i < |cs| && k == CouplerKey(cs[i]))
  {
    var es := Elements(qubits);
    var cs := Couplers(qubits);
    var n := |qubits|;
    if HashIn(es, |es|, k) {
      var i :| 0 <= i < |es| && es[i].0 == k;
      if i < n {
        assert k == TransmonKey(qubits[i]);
      } else {
        assert k == CouplerKey(cs[i - n]);
      }
    } else {
      forall i | 0 <= i < n ensures k != TransmonKey(qubits[i]) {
        assert es[i].0 == TransmonKey(qubits[i]);
      }
      forall i | 0 <= i < |cs| ensures k != CouplerKey(cs[i]) {
        assert es[n + i].0 == CouplerKey(cs[i]);
      }
    }
  }

  /** The reset flags are the `cs:` hashes of the qubits and the couplers. */
  lemma ElementsFlags(qubits: seq<string>, k: string)
    ensures var es := Elements(qubits);
      FlagIn(es, |es|, k) <==> exists e :: e in qubits + Couplers(qubits) && k == StatusKey(e)
  {
    var es := Elements(qubits);
    var all := qubits + Couplers(qubits);
    if FlagIn(es, |es|, k) {
      var i :| 0 <= i < |es| && es[i].1 == k;
      assert all[i] in all;
    }
    if exists e :: e in all && k == StatusKey(e) {
      var e :| e in all && k == StatusKey(e);
      var i :| 0 <= i < |all| && all[i] == e;
      assert es[i].1 == k;
    }
  }

  // ---------------------------------------------------------------------
  // The script

  /** The script's effect on the store, or the error it stops with. */
  function Resetted(h: Hashes, qubits: seq<string>, arg: string, qubitQois: QoiTable, couplerQois: QoiTable): Result<Hashes>
  {
    var es := Elements(qubits);
    if arg != "all" && arg !in NodeSet then Err(InvalidChoice)
    else if arg == "all" then Ok(ResetUpTo(h, es, ResetAll, |es|))
    else if arg in qubitQois then Ok(ResetUpTo(h, es, ResetNode(arg, qubitQois[arg]), |es|))
    else if arg in couplerQois then Ok(ResetUpTo(h, es, ResetNode(arg, couplerQois[arg]), |es|))
    else if |es| == 0 then Ok(h)
    else Err(UnboundLocal("remove_fields"))
  }

  /** The script fails only on an argument argparse rejects, or on a listed
      node missing from both QOI tables when there is a qubit; its
      'Invalid Field' error is never raised. */
  lemma ResettedFails(h: Hashes, qubits: seq<string>, arg: string, qubitQois: QoiTable, couplerQois: QoiTable)
    ensures var r := Resetted(h, qubits, arg, qubitQois, couplerQois);
      (r.Err? <==> (arg != "all" && arg !in NodeSet) ||
                   (arg in NodeSet && arg !in qubitQois && arg !in couplerQois && |qubits| > 0)) &&
      (r.Err? ==> r.error == InvalidChoice || r.error == UnboundLocal("remove_fields")) &&
      r != Err(ValueError("Invalid Field"))
  {
    assert "all" !in NodeSet;
  }

  /** 'all' sets every existing field of every qubit's and coupler's hash to
      "nan" without creating one, and flags every listed node
      "not_calibrated" for each of them; nothing else changes. */
  lemma ResetAllState(h: Hashes, qubits: seq<string>, qubitQois: QoiTable, couplerQois: QoiTable, k: string, f: string)
    ensures Resetted(h, qubits, "all", qubitQois, couplerQois).Ok?
    ensures var h' := Resetted(h, qubits, "all", qubitQois, couplerQois).value;
      var es := Elements(qubits);
      FieldOf(h', k, f) ==
        if HashIn(es, |es|, k) then (if FieldOf(h, k, f).Some? then Some(Nan) else None)
        else if FlagIn(es, |es|, k) && f in NodeSet then Some(NotCalibrated)
        else FieldOf(h, k, f)
  {
    ElementsSeparate(qubits);
    ResetUpToField(h, Elements(qubits), ResetAll, |Elements(qubits)|, k, f);
  }

  /** A single node sets only its own QOI fields to "nan" (from the qubit
      table, else the coupler table) and resets only its own flag. */
  lemma ResetNodeState(h: Hashes, qubits: seq<string>, arg: string, qubitQois: QoiTable, couplerQois: QoiTable, k: string, f: string)
    requires arg != "all" && Resetted(h, qubits, arg, qubitQois, couplerQois).Ok?
    ensures var h' := Resetted(h, qubits, arg, qubitQois, couplerQois).value;
      var es := Elements(qubits);
      var fields := if arg in qubitQois then qubitQois[arg] else if arg in couplerQois then couplerQois[arg] else {};
      FieldOf(h', k, f) ==
        if HashIn(es, |es|, k) && f in fields then Some(Nan)
        else if FlagIn(es, |es|, k) && f == arg then Some(NotCalibrated)
        else FieldOf(h, k, f)
  {
    ElementsSeparate(qubits);
    var es := Elements(qubits);
    if arg in qubitQois {
      ResetUpToField(h, es, ResetNode(arg, qubitQois[arg]), |es|, k, f);
    } else if arg in couplerQois {
      ResetUpToField(h, es, ResetNode(arg, couplerQois[arg]), |es|, k, f);
    }
  }

  /** `HSET key f value` for every f in `fields`. */
  method AssignEach(store: ParameterStore, key: string, fields: set<string>, value: string)
    modifies store
    ensures store.hashes == Assign(old(store.hashes), key, fields, value)
  {
    ghost var h0 := store.hashes;
    var remaining := fields;
    while remaining != {}
      invariant remaining <= fields
      invariant store.hashes == Assign(h0, key, fields - remaining, value)
      decreases remaining
    {
      var f :| f in remaining;
      store.HSet(key, f, value);
      AssignStep(h0, key, fields - remaining, f, value);
      assert fields - (remaining - {f}) == (fields - remaining) + {f};
      remaining := remaining - {f};
    }
    assert fields - remaining == fields;
  }

  /** The body of either loop for one element. */
  method ResetElement(store: ParameterStore, hashKey: string, csKey: string, r: Reset)
    modifies store
    ensures store.hashes == ResetOne(old(store.hashes), hashKey, csKey, r)
  {
    match r
    case ResetAll =>
      var fields := store.GetAll(hashKey).Keys;
      AssignEach(store, hashKey, fields, Nan);
      AssignEach(store, csKey, NodeSet, NotCalibrated);
    case ResetNode(node, fields) =>
      AssignEach(store, hashKey, fields, Nan);
      AssignEach(store, csKey, {node}, NotCalibrated);
  }

  /** The qubit loop and then the coupler loop. */
  method ResetAllElements(store: ParameterStore, elements: seq<(string, string)>, r: Reset)
    modifies store
    ensures store.hashes == ResetUpTo(old(store.hashes), elements, r, |elements|)
  {
    ghost var h0 := store.hashes;
    var i := 0;
    while i < |elements|
      invariant 0 <= i <= |elements|
      invariant store.hashes == ResetUpTo(h0, elements, r, i)
    {
      ResetElement(store, elements[i].0, elements[i].1, r);
      i := i + 1;
    }
  }

  /** The script, run with `qubits` from the user input and argument `arg`. */
  method ResetStore(store: ParameterStore, qubits: seq<string>, arg: string, qubitQois: QoiTable, couplerQois: QoiTable)
    returns (err: Option<Error>)
    modifies store
    ensures var r := Resetted(old(store.hashes), qubits, arg, qubitQois, couplerQois);
      (r.Ok? ==> err.None? && store.hashes == r.value) &&
      (r.Err? ==> err == Some(r.error) && store.hashes == old(store.hashes))
  {
    if arg != "all" && arg !in NodeSet {
      return Some(InvalidChoice);
    }
    var es := Elements(qubits);
    var r: Reset;
    if arg == "all" {
      r := ResetAll;
    } else if arg in qubitQois {
      r := ResetNode(arg, qubitQois[arg]);
    } else if arg in couplerQois {
      r := ResetNode(arg, couplerQois[arg]);
    } else if |es| == 0 {
      return None;
    } else {
      return Some(UnboundLocal("remove_fields"));
    }
    ResetAllElements(store, es, r);
    return None;
  }
}
