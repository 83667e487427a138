// The calibration supervisor of the `tergite_autocalibration` package
// (tergite_autocalibration/scripts/calibration_supervisor.py): the user's
// samplespace override of a freshly built node, the status of a node read
// from the `cs:` flags of its couplers or qubits, and the decision to
// calibrate, node by node along the calibration order. The parameter store
// is the `ParameterStore` of the Store module; node construction, the three
// `populate_*` functions, the data path and the measurement itself are
// services handed in as functions.
module TacSupervisor {

  import opened Common
  import opened Dicts
  import opened Dataset
  import opened Store
  import opened Supervisor
  import Graph
  import BaseNode

  // ---------------------------------------------------------------------
  // `update_to_user_samplespace`.

  /** The two samplespaces of a node after an override, and the error that
      stopped it, if any. */
  datatype Override = Override(schedule: Samplespace, external: Samplespace, error: Option<Error>)

  predicate Missing(schedule: Samplespace, external: Samplespace, settable: string)
  {
    !Has(schedule, settable) && !Has(external, settable)
  }

  /** The override loop: a settable of the schedule samplespace is replaced
      there, else one of the external samplespace there, and any other
      settable raises KeyError; the replacements made before it stay. */
  function OverrideFrom(schedule: Samplespace, external: Samplespace, updates: Samplespace): Override
    decreases |updates|
  {
    if |updates| == 0 then Override(schedule, external, None)
    else
      var (settable, values) := updates[0];
      if Has(schedule, settable) then OverrideFrom(Put(schedule, settable, values), external, updates[1..])
      else if Has(external, settable) then OverrideFrom(schedule, Put(external, settable, values), updates[1..])
      else Override(schedule, external, Some(KeyError(settable + " not in any samplespace")))
  }

  /** An override never adds nor reorders settables. */
  lemma {:induction false} OverrideKeys(schedule: Samplespace, external: Samplespace, updates: Samplespace)
    ensures Keys(OverrideFrom(schedule, external, updates).schedule) == Keys(schedule)
    ensures Keys(OverrideFrom(schedule, external, updates).external) == Keys(external)
    decreases |updates|
  {
    if |updates| > 0 {
      var (settable, values) := updates[0];
      if Has(schedule, settable) {
        PutKeepsKeys(schedule, settable, values);
        OverrideKeys(Put(schedule, settable, values), external, updates[1..]);
      } else if Has(external, settable) {
        PutKeepsKeys(external, settable, values);
        OverrideKeys(schedule, Put(external, settable, values), updates[1..]);
      }
    }
  }

  /** The override fails exactly when some settable is in neither
      samplespace, and then with the KeyError of the first such one. */
  lemma {:induction false} OverrideError(schedule: Samplespace, external: Samplespace, updates: Samplespace)
    ensures OverrideFrom(schedule, external, updates).error.Some? <==>
      exists i :: 0 <= i < |updates| && Missing(schedule, external, updates[i].0)
    ensures OverrideFrom(schedule, external, updates).error.Some? ==>
      exists i :: (0 <= i < |updates| && Missing(schedule, external, updates[i].0) &&
        (forall j :: 0 <= j < i ==> !Missing(schedule, external, updates[j].0)) &&
        OverrideFrom(schedule, external, updates).error == Some(KeyError(updates[i].0 + " not in any samplespace")))
    decreases |updates|
  {
    if |updates| > 0 {
      var (settable, values) := updates[0];
      var rest := updates[1..];
      if !Missing(schedule, external, settable) {
        var s' := if Has(schedule, settable) then Put(schedule, settable, values) else schedule;
        var e' := if Has(schedule, settable) then external else Put(external, settable, values);
        assert forall k :: Missing(s', e', k) <==> Missing(schedule, external, k) by {
          forall k ensures Missing(s', e', k) <==> Missing(schedule, external, k) {
            PutHas(schedule, settable, values, k);
            PutHas(external, settable, values, k);
          }
        }
        assert OverrideFrom(schedule, external, updates) == OverrideFrom(s', e', rest);
        OverrideError(s', e', rest);
        if exists i :: 0 <= i < |updates| && Missing(schedule, external, updates[i].0) {
          var i :| 0 <= i < |updates| && Missing(schedule, external, updates[i].0);
          assert rest[i - 1] == updates[i];
        }
        if OverrideFrom(s', e', rest).error.Some? {
          var i :| (0 <= i < |rest| && Missing(s', e', rest[i].0) &&
            (forall j :: 0 <= j < i ==> !Missing(s', e', rest[j].0)) &&
            OverrideFrom(s', e', rest).error == Some(KeyError(rest[i].0 + " not in any samplespace")));
          assert updates[i + 1] == rest[i];
          assert forall j :: 0 <= j < i + 1 ==> !Missing(schedule, external, updates[j].0) by {
            forall j | 0 <= j < i + 1 ensures !Missing(schedule, external, updates[j].0) {
              if j > 0 {
                assert updates[j] == rest[j - 1];
              }
            }
          }
        }
      }
    }
  }

  /** A settable that is not overridden keeps its place and value. */
  lemma {:induction false} OverrideUntouched(schedule: Samplespace, external: Samplespace, updates: Samplespace, k: string)
    requires Valid(schedule) && Valid(external)
    requires forall i :: 0 <= i < |updates| ==> updates[i].0 != k
    ensures Lookup(OverrideFrom(schedule, external, updates).schedule, k) == Lookup(schedule, k)
    ensures Lookup(OverrideFrom(schedule, external, updates).external, k) == Lookup(external, k)
    decreases |updates|
  {
    if |updates| > 0 {
      var (settable, values) := updates[0];
      assert settable != k;
      if Has(schedule, settable) {
        PutValid(schedule, settable, values);
        PutGet(schedule, settable, values, k);
        OverrideUntouched(Put(schedule, settable, values), external, updates[1..], k);
      } else if Has(external, settable) {
        PutValid(external, settable, values);
        PutGet(external, settable, values, k);
        OverrideUntouched(schedule, Put(external, settable, values), updates[1..], k);
      }
    }
  }

  /** A complete override leaves every settable of the user's samplespace
      with the user's values: in the schedule samplespace when it is one of
      its settables, otherwise in the external one. */
  lemma {:induction false} OverrideApplied(schedule: Samplespace, external: Samplespace, updates: Samplespace)
    requires Valid(schedule) && Valid(external) && Valid(updates)
    requires OverrideFrom(schedule, external, updates).error.None?
    ensures var r := OverrideFrom(schedule, external, updates);
      forall i :: 0 <= i < |updates| ==>
        (Has(schedule, updates[i].0) && Lookup(r.schedule, updates[i].0) == Some(updates[i].1)) ||
        (!Has(schedule, updates[i].0) && Has(external, updates[i].0) && Lookup(r.external, updates[i].0) == Some(updates[i].1))
    decreases |updates|
  {
    if |updates| > 0 {
      var (settable, values) := updates[0];
      var rest := updates[1..];
      var r := OverrideFrom(schedule, external, updates);
      assert forall i :: 0 <= i < |rest| ==> rest[i].0 != settable by {
        forall i | 0 <= i < |rest| ensures rest[i].0 != settable {
          assert rest[i] == updates[i + 1];
        }
      }
      if Has(schedule, settable) {
        var s' := Put(schedule, settable, values);
        PutValid(schedule, settable, values);
        PutGet(schedule, settable, values, settable);
        OverrideApplied(s', external, rest);
        OverrideUntouched(s', external, rest, settable);
        forall i | 1 <= i < |updates|
          ensures (Has(schedule, updates[i].0) && Lookup(r.schedule, updates[i].0) == Some(updates[i].1)) ||
            (!Has(schedule, updates[i].0) && Has(external, updates[i].0) && Lookup(r.external, updates[i].0) == Some(updates[i].1))
        {
          assert updates[i] == rest[i - 1];
          PutHas(schedule, settable, values, updates[i].0);
        }
      } else {
        var e' := Put(external, settable, values);
        PutValid(external, settable, values);
        PutGet(external, settable, values, settable);
        OverrideApplied(schedule, e', rest);
        OverrideUntouched(schedule, e', rest, settable);
        forall i | 1 <= i < |updates|
          ensures (Has(schedule, updates[i].0) && Lookup(r.schedule, updates[i].0) == Some(updates[i].1)) ||
            (!Has(schedule, updates[i].0) && Has(external, updates[i].0) && Lookup(r.external, updates[i].0) == Some(updates[i].1))
        {
          assert updates[i] == rest[i - 1];
          PutHas(external, settable, values, updates[i].0);
        }
      }
    }
  }

  /** Replacements made before a failing settable persist: overriding with
      `a + b` is overriding with `a`, then, if that went through, with `b`. */
  lemma {:induction false} OverrideAppend(schedule: Samplespace, external: Samplespace, a: Samplespace, b: Samplespace)
    ensures OverrideFrom(schedule, external, a + b) ==
      var r := OverrideFrom(schedule, external, a);
      if r.error.Some? then r else OverrideFrom(r.schedule, r.external, b)
    decreases |a|
  {
    if |a| > 0 {
      assert (a + b)[0] == a[0];
      assert (a + b)[1..] == a[1..] + b;
      var (settable, values) := a[0];
      if Has(schedule, settable) {
        OverrideAppend(Put(schedule, settable, values), external, a[1..], b);
      } else if Has(external, settable) {
        OverrideAppend(schedule, Put(external, settable, values), a[1..], b);
      }
    } else {
      assert a + b == b;
    }
  }

  /** `update_to_user_samplespace(node, user_samplespace)`: the node's two
      samplespaces are updated in place, settable by settable. */
  method UpdateToUserSamplespace(node: BaseNode.BaseNode, user: Dict<Samplespace>) returns (error: Option<Error>)
    modifies node`scheduleSamplespace, node`externalSamplespace
    ensures !Has(user, node.name) ==> error == Some(KeyError(node.name)) && unchanged(node)
    ensures Has(user, node.name) ==>
      var r := OverrideFrom(old(node.scheduleSamplespace), old(node.externalSamplespace), Dicts.Get(user, node.name));
      node.scheduleSamplespace == r.schedule && node.externalSamplespace == r.external && error == r.error
  {
    if !Has(user, node.name) {
      return Some(KeyError(node.name));
    }
    var updates := Dicts.Get(user, node.name);
    var i := 0;
    while i < |updates|
      invariant 0 <= i <= |updates|
      invariant OverrideFrom(node.scheduleSamplespace, node.externalSamplespace, updates[i..]) ==
        OverrideFrom(old(node.scheduleSamplespace), old(node.externalSamplespace), updates)
    {
      assert updates[i..][1..] == updates[i + 1..];
      var (settable, values) := updates[i];
      if Has(node.scheduleSamplespace, settable) {
        node.scheduleSamplespace := Put(node.scheduleSamplespace, settable, values);
      } else if Has(node.externalSamplespace, settable) {
        node.externalSamplespace := Put(node.externalSamplespace, settable, values);
      } else {
        return Some(KeyError(settable + " not in any samplespace"));
      }
      i := i + 1;
    }
    assert updates[i..] == [];
    return None;
  }

  // ---------------------------------------------------------------------
  // Which flags decide a node.

  /** The nodes whose "already calibrated" answer is read from the couplers. */
  const CalibrationCheckNodes: seq<string> := [
    "coupler_spectroscopy", "cz_chevron", "cz_chevron_amplitude", "cz_calibration", "cz_calibration_ssro",
    "cz_calibration_swap_ssro", "cz_dynamic_phase", "cz_dynamic_phase_swap", "tqg_randomized_benchmarking",
    "tqg_randomized_benchmarking_interleaved"]

  /** The nodes whose status is read from the couplers. */
  const StatusCouplerNodes: seq<string> := [
    "coupler_spectroscopy", "cz_chevron", "cz_optimize_chevron", "cz_chevron_amplitude", "cz_calibration",
    "cz_calibration_ssro", "cz_calibration_swap_ssro", "cz_dynamic_phase", "cz_dynamic_phase_swap",
    "tqg_randomized_benchmarking", "tqg_randomized_benchmarking_interleaved"]

  function CalibrationEntities(node: string, qubits: seq<string>, couplers: seq<string>): seq<string>
  {
    if node in CalibrationCheckNodes then couplers else qubits
  }

  function StatusEntities(node: string, qubits: seq<string>, couplers: seq<string>): seq<string>
  {
    if node in StatusCouplerNodes then couplers else qubits
  }

  /** `is_node_calibrated`: every entity's flag for the node is 'calibrated'. */
  function IsNodeCalibrated(h: Hashes, node: string, qubits: seq<string>, couplers: seq<string>): (b: bool)
    ensures b <==> forall e :: e in CalibrationEntities(node, qubits, couplers) ==>
      FieldOf(h, StatusKey(e), node) == Some(Calibrated)
  {
    var entities := CalibrationEntities(node, qubits, couplers);
    var flags := Flags(h, entities, node);
    assert forall e :: e in entities ==> exists i :: 0 <= i < |entities| && entities[i] == e;
    CalibratedUpTo(flags, |flags|)
  }

  /** The status loop of `inspect_node` over the node's entities. */
  function NodeStatus(h: Hashes, node: string, qubits: seq<string>, couplers: seq<string>): Result<Status>
  {
    Aggregate(Flags(h, StatusEntities(node, qubits, couplers), node))
  }

  /** The status of a node from the flags of its entities: undefined for
      none, in spec when all are 'calibrated', out of spec at a first
      'not_calibrated' past 'calibrated' ones, and an error at a first other
      value (a missing flag included). */
  lemma NodeStatusSpec(h: Hashes, node: string, qubits: seq<string>, couplers: seq<string>)
    ensures var es := StatusEntities(node, qubits, couplers);
      var s := NodeStatus(h, node, qubits, couplers);
      (s == Ok(Undefined) <==> |es| == 0) &&
      (s == Ok(InSpec) <==> |es| > 0 && forall i :: 0 <= i < |es| ==> FieldOf(h, StatusKey(es[i]), node) == Some(Calibrated)) &&
      (s == Ok(OutOfSpec) <==> exists i :: (0 <= i < |es| && FieldOf(h, StatusKey(es[i]), node) == Some(NotCalibrated) &&
        forall j :: 0 <= j < i ==> FieldOf(h, StatusKey(es[j]), node) == Some(Calibrated))) &&
      (s.Err? <==> exists i :: (0 <= i < |es| && FieldOf(h, StatusKey(es[i]), node) != Some(NotCalibrated) &&
        FieldOf(h, StatusKey(es[i]), node) != Some(Calibrated) &&
        forall j :: 0 <= j < i ==> FieldOf(h, StatusKey(es[j]), node) == Some(Calibrated)))
  {
    var es := StatusEntities(node, qubits, couplers);
    var flags := Flags(h, es, node);
    AggregateSpec(flags);
  }

  /** 'cz_optimize_chevron' is the one node on which the two lists differ:
      whether it is already calibrated is read from the qubits, its status
      from the couplers. */
  lemma OptimizeChevronLists(h: Hashes, qubits: seq<string>, couplers: seq<string>)
    ensures forall n :: n != "cz_optimize_chevron" ==> (n in CalibrationCheckNodes <==> n in StatusCouplerNodes)
    ensures IsNodeCalibrated(h, "cz_optimize_chevron", qubits, couplers) <==>
      forall q :: q in qubits ==> FieldOf(h, StatusKey(q), "cz_optimize_chevron") == Some(Calibrated)
    ensures NodeStatus(h, "cz_optimize_chevron", qubits, couplers) == Aggregate(Flags(h, couplers, "cz_optimize_chevron"))
  {
    assert "cz_optimize_chevron" in StatusCouplerNodes;
  }

  // ---------------------------------------------------------------------
  // Inspecting a node.

  /** What the node factory builds for a name: its quantities of interest
      and its two samplespaces. */
  datatype NodeSpec = NodeSpec(redisFields: seq<string>, schedule: Samplespace, external: Samplespace)

  /** What a measurement of a node sees. */
  datatype NodeRun = NodeRun(name: string, schedule: Samplespace, external: Samplespace)

  /** The store after a measurement and its result. */
  datatype Measurement = Measurement(hashes: Hashes, result: string)

  /** The services the supervisor calls: the node factory, the three
      `populate_*` functions of the store utilities (each with the device
      configuration, qubits and couplers already bound), the data path of a
      node and `monitor_node_calibration`. */
  datatype Services = Services(
    createNode: string -> Result<NodeSpec>,
    populateQois: Hashes -> Hashes,
    populateInitial: Hashes -> Hashes,
    populateNode: (Hashes, string, bool) -> Hashes,
    dataPath: NodeRun -> string,
    monitor: (Hashes, NodeRun) -> Measurement)

  /** The node built for `name`, with the user's samplespace applied. */
  function Prepare(user: Dict<Samplespace>, svc: Services, name: string): (r: Result<NodeRun>)
    ensures r.Ok? ==> r.value.name == name
    ensures svc.createNode(name).Err? ==> r == Err(svc.createNode(name).error)
    ensures svc.createNode(name).Ok? && !Has(user, name) ==>
      r == Ok(NodeRun(name, svc.createNode(name).value.schedule, svc.createNode(name).value.external))
  {
    var spec := svc.createNode(name);
    if spec.Err? then Err(spec.error)
    else if !Has(user, name) then Ok(NodeRun(name, spec.value.schedule, spec.value.external))
    else
      var o := OverrideFrom(spec.value.schedule, spec.value.external, Dicts.Get(user, name));
      if o.error.Some? then Err(o.error.value) else Ok(NodeRun(name, o.schedule, o.external))
  }

  /** The store once the initial and the node parameters are populated. */
  function Populated(h: Hashes, qubits: seq<string>, couplers: seq<string>, svc: Services, name: string): Hashes
  {
    var h1 := svc.populateInitial(h);
    svc.populateNode(h1, name, IsNodeCalibrated(h1, name, qubits, couplers))
  }

  /** The outcome of `inspect_node`: the store, whether `calibrate_node` was
      called, and the error raised, if any. */
  datatype Inspected = Inspected(hashes: Hashes, calibrated: bool, error: Option<Error>)

  function InspectOutcome(h: Hashes, qubits: seq<string>, couplers: seq<string>, user: Dict<Samplespace>,
                          svc: Services, name: string): Inspected
  {
    var run := Prepare(user, svc, name);
    if run.Err? then Inspected(h, false, Some(run.error))
    else
      var h2 := Populated(h, qubits, couplers, svc, name);
      var status := NodeStatus(h2, name, qubits, couplers);
      if status.Err? then Inspected(h2, false, Some(status.error))
      else if status.value == OutOfSpec then Inspected(svc.monitor(h2, run.value).hashes, true, None)
      else Inspected(h2, false, None)
  }

  /** A node whose entities are all flagged 'calibrated' once populated is
      in spec: it is not calibrated and the store is only populated. */
  lemma InspectInSpec(h: Hashes, qubits: seq<string>, couplers: seq<string>, user: Dict<Samplespace>,
                      svc: Services, name: string)
    requires Prepare(user, svc, name).Ok?
    requires var h2 := Populated(h, qubits, couplers, svc, name);
      var es := StatusEntities(name, qubits, couplers);
      forall i :: 0 <= i < |es| ==> FieldOf(h2, StatusKey(es[i]), name) == Some(Calibrated)
    ensures InspectOutcome(h, qubits, couplers, user, svc, name) == Inspected(Populated(h, qubits, couplers, svc, name), false, None)
  {
    NodeStatusSpec(Populated(h, qubits, couplers, svc, name), name, qubits, couplers);
  }

  /** A node with a 'not_calibrated' entity past 'calibrated' ones is out of
      spec and is measured exactly once, on the populated store. */
  lemma InspectOutOfSpec(h: Hashes, qubits: seq<string>, couplers: seq<string>, user: Dict<Samplespace>,
                         svc: Services, name: string, i: nat)
    requires Prepare(user, svc, name).Ok?
    requires var h2 := Populated(h, qubits, couplers, svc, name);
      var es := StatusEntities(name, qubits, couplers);
      i < |es| && FieldOf(h2, StatusKey(es[i]), name) == Some(NotCalibrated) &&
      forall j :: 0 <= j < i ==> FieldOf(h2, StatusKey(es[j]), name) == Some(Calibrated)
    ensures InspectOutcome(h, qubits, couplers, user, svc, name) ==
      Inspected(svc.monitor(Populated(h, qubits, couplers, svc, name), Prepare(user, svc, name).value).hashes, true, None)
  {
    NodeStatusSpec(Populated(h, qubits, couplers, svc, name), name, qubits, couplers);
  }

  /** `calibrate_node` is called only for a node found out of spec, and a
      failed inspection leaves the store as it was before the failing step. */
  lemma InspectCalibratesOnlyOutOfSpec(h: Hashes, qubits: seq<string>, couplers: seq<string>, user: Dict<Samplespace>,
                                       svc: Services, name: string)
    ensures var r := InspectOutcome(h, qubits, couplers, user, svc, name);
      r.calibrated <==>
        Prepare(user, svc, name).Ok? && NodeStatus(Populated(h, qubits, couplers, svc, name), name, qubits, couplers) == Ok(OutOfSpec)
    ensures Prepare(user, svc, name).Err? ==> InspectOutcome(h, qubits, couplers, user, svc, name).hashes == h
  {
  }

  /** `calibrate_node` takes a node or the name of one. */
  datatype NodeArg = ByName(name: string) | ByNode(run: NodeRun)

  function Resolve(node: NodeArg, svc: Services): (r: Result<NodeRun>)
    ensures node.ByNode? ==> r == Ok(node.run)
    ensures node.ByName? ==> (r.Ok? <==> svc.createNode(node.name).Ok?)
    ensures node.ByName? && r.Ok? ==> r.value.name == node.name && r.value.schedule == svc.createNode(node.name).value.schedule
  {
    match node
    case ByNode(run) => Ok(run)
    case ByName(name) =>
      var spec := svc.createNode(name);
      if spec.Err? then Err(spec.error) else Ok(NodeRun(name, spec.value.schedule, spec.value.external))
  }

  /** One inspection after another along `nodes`: the store, the nodes
      inspected and those calibrated, in order, and the error that stopped
      the walk. */
  datatype Pass = Pass(hashes: Hashes, inspected: seq<string>, calibrated: seq<string>, error: Option<Error>)

  /** The walk `p` preceded by the inspection of `node`. */
  function Prepend(node: string, calibrated: bool, p: Pass): Pass
  {
    Pass(p.hashes, [node] + p.inspected, (if calibrated then [node] else []) + p.calibrated, p.error)
  }

  /** The walk `p` preceded by nodes already inspected and calibrated. */
  function Extend(inspected: seq<string>, calibrated: seq<string>, p: Pass): Pass
  {
    Pass(p.hashes, inspected + p.inspected, calibrated + p.calibrated, p.error)
  }

  lemma ExtendPrepend(inspected: seq<string>, calibrated: seq<string>, node: string, c: bool, p: Pass)
    ensures Extend(inspected, calibrated, Prepend(node, c, p)) ==
      Extend(inspected + [node], calibrated + (if c then [node] else []), p)
  {
    assert inspected + ([node] + p.inspected) == (inspected + [node]) + p.inspected;
    var now := if c then [node] else [];
    assert calibrated + (now + p.calibrated) == (calibrated + now) + p.calibrated;
  }

  /** How one node is inspected, the store given. */
  type Step = (Hashes, string) -> Inspected

  /** One step after another along `nodes`, up to the first error. */
  function Walk(h: Hashes, step: Step, nodes: seq<string>): Pass
    decreases |nodes|
  {
    if |nodes| == 0 then Pass(h, [], [], None)
    else
      var ins := step(h, nodes[0]);
      if ins.error.Some? then Pass(ins.hashes, [nodes[0]], [], ins.error)
      else Prepend(nodes[0], ins.calibrated, Walk(ins.hashes, step, nodes[1..]))
  }

  function Inspector(qubits: seq<string>, couplers: seq<string>, user: Dict<Samplespace>, svc: Services): Step
  {
    (h: Hashes, name: string) => InspectOutcome(h, qubits, couplers, user, svc, name)
  }

  /** `inspect_node` for each node of `nodes` in turn. */
  function InspectNodes(h: Hashes, qubits: seq<string>, couplers: seq<string>, user: Dict<Samplespace>,
                        svc: Services, nodes: seq<string>): Pass
  {
    Walk(h, Inspector(qubits, couplers, user, svc), nodes)
  }

  /** Every node is inspected once, in order, up to the first failure, and
      the calibrated nodes are among the inspected ones, in the same order. */
  lemma {:induction false} WalkOrder(h: Hashes, step: Step, nodes: seq<string>)
    ensures var p := Walk(h, step, nodes);
      (p.error.None? ==> p.inspected == nodes) &&
      (p.error.Some? ==> 0 < |p.inspected| <= |nodes| && p.inspected == nodes[..|p.inspected|]) &&
      Graph.Subsequence(p.calibrated, p.inspected)
    decreases |nodes|
  {
    if |nodes| > 0 {
      var ins := step(h, nodes[0]);
      if ins.error.None? {
        var rest := Walk(ins.hashes, step, nodes[1..]);
        WalkOrder(ins.hashes, step, nodes[1..]);
        var inspected := [nodes[0]] + rest.inspected;
        assert inspected[1..] == rest.inspected;
        if ins.calibrated {
          assert ([nodes[0]] + rest.calibrated)[1..] == rest.calibrated;
        } else {
          assert [] + rest.calibrated == rest.calibrated;
        }
        if rest.error.Some? {
          assert nodes[..|inspected|] == [nodes[0]] + nodes[1..][..|rest.inspected|];
        }
      } else {
        EmptySubsequence([nodes[0]]);
      }
    }
  }

  /** `calibrate_system` inspects the order node by node, up to the first
      failure, and calibrates only nodes it inspected, in order. */
  lemma InspectNodesOrder(h: Hashes, qubits: seq<string>, couplers: seq<string>, user: Dict<Samplespace>,
                          svc: Services, nodes: seq<string>)
    ensures var p := InspectNodes(h, qubits, couplers, user, svc, nodes);
      (p.error.None? ==> p.inspected == nodes) &&
      (p.error.Some? ==> 0 < |p.inspected| <= |nodes| && p.inspected == nodes[..|p.inspected|]) &&
      Graph.Subsequence(p.calibrated, p.inspected)
  {
    WalkOrder(h, Inspector(qubits, couplers, user, svc), nodes);
  }

  // ---------------------------------------------------------------------
  // The supervisor.

  /** The user's calibration request. */
  datatype Request = Request(allQubits: seq<string>, couplers: seq<string>, targetNode: string,
                             userSamplespace: Dict<Samplespace>)

  class CalibrationSupervisor {
    var mode: BaseNode.MeasurementMode
    var qubits: seq<string>
    var couplers: seq<string>
    var targetNode: string
    var userSamplespace: Dict<Samplespace>
    var topoOrder: seq<string>

    constructor (mode: BaseNode.MeasurementMode, request: Request, topoOrder: seq<string>)
      ensures this.mode == mode && this.topoOrder == topoOrder
      ensures qubits == request.allQubits && couplers == request.couplers
      ensures targetNode == request.targetNode && userSamplespace == request.userSamplespace
    {
      this.mode := mode;
      qubits := request.allQubits;
      couplers := request.couplers;
      targetNode := request.targetNode;
      userSamplespace := request.userSamplespace;
      this.topoOrder := topoOrder;
    }

    /** `CalibrationSupervisor(cluster_mode, cluster_ip)`: only a real
        cluster can be reached; `order` is the filtered topological order. */
    static method Create(mode: BaseNode.MeasurementMode, clusterIp: string, request: Request,
                         order: string -> seq<string>) returns (r: Result<CalibrationSupervisor>)
      ensures r.Err? <==> mode != BaseNode.Real
      ensures r.Err? ==> r.error == ClusterNotFound("Cannot create cluster object from " + clusterIp)
      ensures r.Ok? ==> (fresh(r.value) && r.value.mode == mode && r.value.qubits == request.allQubits &&
        r.value.couplers == request.couplers && r.value.userSamplespace == request.userSamplespace &&
        r.value.topoOrder == order(request.targetNode))
    {
      if mode != BaseNode.Real {
        return Err(ClusterNotFound("Cannot create cluster object from " + clusterIp));
      }
      var supervisor := new CalibrationSupervisor(mode, request, order(request.targetNode));
      return Ok(supervisor);
    }

    /** `calibrate_node`: the data path of the node and the result of its
        measurement. */
    method CalibrateNode(store: ParameterStore, node: NodeArg, svc: Services) returns (r: Result<(string, string)>)
      modifies store
      ensures Resolve(node, svc).Err? ==> r == Err(Resolve(node, svc).error) && store.hashes == old(store.hashes)
      ensures Resolve(node, svc).Ok? ==>
        var run := Resolve(node, svc).value;
        var m := svc.monitor(old(store.hashes), run);
        r == Ok((svc.dataPath(run), m.result)) && store.hashes == m.hashes
    {
      var run: NodeRun;
      match node {
        case ByNode(n) => run := n;
        case ByName(name) =>
          var spec := svc.createNode(name);
          if spec.Err? {
            return Err(spec.error);
          }
          run := NodeRun(name, spec.value.schedule, spec.value.external);
      }
      var path := svc.dataPath(run);
      var m := svc.monitor(store.hashes, run);
      store.hashes := m.hashes;
      return Ok((path, m.result));
    }

    /** `inspect_node`. */
    method InspectNode(store: ParameterStore, name: string, svc: Services) returns (calibrated: bool, error: Option<Error>)
      modifies store
      ensures Inspected(store.hashes, calibrated, error) ==
        InspectOutcome(old(store.hashes), qubits, couplers, userSamplespace, svc, name)
    {
      var spec := svc.createNode(name);
      if spec.Err? {
        return false, Some(spec.error);
      }
      // `couplers=self.couplers` is a keyword of the node dictionary, whose
      // non-numeric entries are not modelled: the dictionary is empty.
      var node := new BaseNode.BaseNode(name, qubits, [], spec.value.redisFields);
      node.scheduleSamplespace := spec.value.schedule;
      node.externalSamplespace := spec.value.external;
      if Has(userSamplespace, node.name) {
        var e := UpdateToUserSamplespace(node, userSamplespace);
        if e.Some? {
          return false, e;
        }
      }
      store.hashes := svc.populateInitial(store.hashes);
      var isCalibrated := IsNodeCalibrated(store.hashes, name, qubits, couplers);
      store.hashes := svc.populateNode(store.hashes, name, isCalibrated);
      var status := ScanStatus(store, StatusEntities(name, qubits, couplers), name);
      if status.Err? {
        return false, Some(status.error);
      }
      calibrated := false;
      if status.value == OutOfSpec {
        var _ := CalibrateNode(store, ByNode(NodeRun(node.name, node.scheduleSamplespace, node.externalSamplespace)), svc);
        calibrated := true;
      }
      error := None;
    }

    /** One turn of the `calibrate_system` loop, stated against the walk. */
    method InspectFirst(store: ParameterStore, nodes: seq<string>, svc: Services) returns (wasCalibrated: bool, error: Option<Error>)
      requires |nodes| > 0
      modifies store
      ensures var p := Walk(old(store.hashes), Inspector(qubits, couplers, userSamplespace, svc), nodes);
        (error.Some? ==> p == Pass(store.hashes, [nodes[0]], [], error)) &&
        (error.None? ==> p == Prepend(nodes[0], wasCalibrated, Walk(store.hashes, Inspector(qubits, couplers, userSamplespace, svc), nodes[1..])))
    {
      ghost var step := Inspector(qubits, couplers, userSamplespace, svc);
      ghost var ins := step(store.hashes, nodes[0]);
      assert ins == InspectOutcome(store.hashes, qubits, couplers, userSamplespace, svc, nodes[0]);
      wasCalibrated, error := InspectNode(store, nodes[0], svc);
    }

    /** `calibrate_system`: populate the quantities of interest, then inspect
        each node of the order in turn. */
    method CalibrateSystem(store: ParameterStore, svc: Services) returns (r: Pass)
      modifies store
      ensures r == InspectNodes(svc.populateQois(old(store.hashes)), qubits, couplers, userSamplespace, svc, topoOrder)
      ensures store.hashes == r.hashes
    {
      var qubits, couplers, user, order := this.qubits, this.couplers, this.userSamplespace, this.topoOrder;
      store.hashes := svc.populateQois(store.hashes);
      ghost var start := store.hashes;
      ghost var step := Inspector(qubits, couplers, user, svc);
      var inspected: seq<string> := [];
      var calibrated: seq<string> := [];
      var i := 0;
      while i < |order|
        invariant 0 <= i <= |order|
        invariant Extend(inspected, calibrated, Walk(store.hashes, step, order[i..])) == Walk(start, step, order)
      {
        var node := order[i];
        ghost var before := store.hashes;
        assert order[i..][0] == node && order[i..][1..] == order[i + 1..];
        var wasCalibrated, error := InspectFirst(store, order[i..], svc);
        if error.Some? {
          assert Walk(before, step, order[i..]) == Pass(store.hashes, [node], [], error);
          assert calibrated + [] == calibrated;
          return Pass(store.hashes, inspected + [node], calibrated, error);
        }
        ghost var rest := Walk(store.hashes, step, order[i + 1..]);
        assert Walk(before, step, order[i..]) == Prepend(node, wasCalibrated, rest);
        ExtendPrepend(inspected, calibrated, node, wasCalibrated, rest);
        inspected := inspected + [node];
        if wasCalibrated {
          calibrated := calibrated + [node];
        } else {
          assert calibrated + [] == calibrated;
        }
        i := i + 1;
      }
      assert order[i..] == [];
      assert inspected + [] == inspected && calibrated + [] == calibrated;
      return Pass(store.hashes, inspected, calibrated, None);
    }
  }
}
