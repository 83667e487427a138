// The dependency graph of tergite_acl/lib/nodes/graph.py and its resolver
// `filtered_topological_order`, which prepends the coupler branch and removes
// 'coupler_spectroscopy' from the module-level graph as it does so.
module AclGraph {
  import opened Common
  import opened Graph

  /** The node names of this graph; `Other` stands for any name outside it. */
  datatype Node =
    | Tof | ResonatorSpectroscopy | Qubit01Spectroscopy | CouplerSpectroscopy
    | RabiOscillations | RamseyCorrection | AdaptiveRamseyCorrection | AdaptiveMotzoiParameter
    | NRabiOscillations | ResonatorSpectroscopy1 | RandomizedBenchmarking | T1
    | AllXY | RoFrequencyTwoStateOptimization | RoAmplitudeTwoStateOptimization | T2
    | T2Echo | Qubit12Spectroscopy | RabiOscillations12 | RamseyCorrection12
    | ResonatorSpectroscopy2 | RoFrequencyThreeStateOptimization | RoAmplitudeThreeStateOptimization | CzChevron
    | Punchout
    | Other(name: string)

  /** The name networkx stores for each node. */
  function Name(n: Node): string
  {
    match n
    case Tof => "tof"
    case ResonatorSpectroscopy => "resonator_spectroscopy"
    case Qubit01Spectroscopy => "qubit_01_spectroscopy"
    case CouplerSpectroscopy => "coupler_spectroscopy"
    case RabiOscillations => "rabi_oscillations"
    case RamseyCorrection => "ramsey_correction"
    case AdaptiveRamseyCorrection => "adaptive_ramsey_correction"
    case AdaptiveMotzoiParameter => "adaptive_motzoi_parameter"
    case NRabiOscillations => "n_rabi_oscillations"
    case ResonatorSpectroscopy1 => "resonator_spectroscopy_1"
    case RandomizedBenchmarking => "randomized_benchmarking"
    case T1 => "T1"
    case AllXY => "all_XY"
    case RoFrequencyTwoStateOptimization => "ro_frequency_two_state_optimization"
    case RoAmplitudeTwoStateOptimization => "ro_amplitude_two_state_optimization"
    case T2 => "T2"
    case T2Echo => "T2_echo"
    case Qubit12Spectroscopy => "qubit_12_spectroscopy"
    case RabiOscillations12 => "rabi_oscillations_12"
    case RamseyCorrection12 => "ramsey_correction_12"
    case ResonatorSpectroscopy2 => "resonator_spectroscopy_2"
    case RoFrequencyThreeStateOptimization => "ro_frequency_three_state_optimization"
    case RoAmplitudeThreeStateOptimization => "ro_amplitude_three_state_optimization"
    case CzChevron => "cz_chevron"
    case Punchout => "punchout"
    case Other(name) => name
  }

  const Root: Node := ResonatorSpectroscopy
  const CouplerSpec: Node := CouplerSpectroscopy

  /** `graph_dependencies`; the edge into 'resonator_spectroscopy_1' is listed twice. */
  function Dependencies(): seq<(Node, Node)>
  {
    [ (Tof, ResonatorSpectroscopy),
      (Qubit01Spectroscopy, CouplerSpectroscopy),
      (ResonatorSpectroscopy, Qubit01Spectroscopy),
      (Qubit01Spectroscopy, RabiOscillations),
      (RabiOscillations, RamseyCorrection),
      (AdaptiveRamseyCorrection, AdaptiveMotzoiParameter),
      (AdaptiveMotzoiParameter, NRabiOscillations),
      (NRabiOscillations, ResonatorSpectroscopy1),
      (RandomizedBenchmarking, T1),
      (NRabiOscillations, ResonatorSpectroscopy1),
      (NRabiOscillations, AllXY),
      (NRabiOscillations, RandomizedBenchmarking),
      (ResonatorSpectroscopy1, RoFrequencyTwoStateOptimization),
      (RoFrequencyTwoStateOptimization, RoAmplitudeTwoStateOptimization),
      (T1, T2),
      (T2, T2Echo),
      (ResonatorSpectroscopy1, Qubit12Spectroscopy),
      (Qubit12Spectroscopy, RabiOscillations12),
      (RabiOscillations12, RamseyCorrection12),
      (RamseyCorrection12, ResonatorSpectroscopy2),
      (ResonatorSpectroscopy2, RoFrequencyThreeStateOptimization),
      (RoFrequencyThreeStateOptimization, RoAmplitudeThreeStateOptimization),
      (RoAmplitudeThreeStateOptimization, CzChevron) ]
  }

  /** The module-level graph after the import-time statements. */
  function Built(): Graph<Node>
  {
    Graph(
      Dependencies(),
      [Tof, Punchout, Qubit01Spectroscopy],
      map[(ResonatorSpectroscopy1, Qubit12Spectroscopy) := 1],
      map[Tof := "refine"])
  }

  /** The import-time statements on an edge list `deps`: the edges, three
      `add_node` calls, and the weight of one edge written twice (2, then 1);
      the weight writes raise KeyError when that edge is missing. */
  method BuildGraphFrom(deps: seq<(Node, Node)>) returns (graph: DiGraph<Node>, r: Result<()>)
    ensures fresh(graph)
    ensures r.Ok? <==> (ResonatorSpectroscopy1, Qubit12Spectroscopy) in deps
    ensures r.Err? ==> r.error == MissingEdge
    ensures graph.g == Graph(
      deps,
      [Tof, Punchout, Qubit01Spectroscopy],
      if r.Ok? then map[(ResonatorSpectroscopy1, Qubit12Spectroscopy) := 1] else map[],
      map[Tof := "refine"])
  {
    graph := new DiGraph();
    graph.AddEdgesFrom(deps);
    graph.AddNodeWith(Tof, Some("refine"));
    graph.AddNodeWith(Punchout, None);
    graph.AddNodeWith(Qubit01Spectroscopy, None);
    assert graph.g.extra == [Tof, Punchout, Qubit01Spectroscopy];
    r := graph.SetEdgeWeight(ResonatorSpectroscopy1, Qubit12Spectroscopy, 2);
    if r.Ok? {
      r := graph.SetEdgeWeight(ResonatorSpectroscopy1, Qubit12Spectroscopy, 1);
    }
  }

  /** The module-level graph is `Built()`. */
  method BuildGraph() returns (graph: DiGraph<Node>)
    ensures fresh(graph) && graph.g == Built()
  {
    assert Dependencies()[16] == (ResonatorSpectroscopy1, Qubit12Spectroscopy);
    var r;
    graph, r := BuildGraphFrom(Dependencies());
  }

  // ---------------------------------------------------------------------
  // The resolver.

  /** The order computed once the coupler path is known, on graph `g`. */
  function MainOrder(g: Graph<Node>, target: Node, couplerPath: seq<Node>): Result<seq<Node>>
  {
    if target == Punchout then Ok(couplerPath + FilterOrder(g, [Punchout], "refine"))
    else
      match ShortestPath(g, Root, target)
      case Err(e) => Err(e)
      case Ok(p) => Ok(couplerPath + FilterOrder(g, p, "refine"))
  }

  /** What `filtered_topological_order(target)` returns on graph `g`, and the
      graph it leaves behind. */
  function Resolve(g: Graph<Node>, target: Node): (Result<seq<Node>>, Graph<Node>)
  {
    match AncestorQuery(g, CouplerSpec, target)
    case Err(e) => (Err(e), g)
    case Ok(isAncestor) =>
      if !isAncestor then (MainOrder(g, target, []), g)
      else
        match ShortestPath(Unweighted(g), Root, CouplerSpec)
        case Err(e) => (Err(e), g)
        case Ok(couplerPath) =>
          var g' := RemoveNode(g, CouplerSpec);
          (MainOrder(g', target, couplerPath), g')
  }

  /** `filtered_topological_order(target_node)` on the module-level graph. */
  method FilteredTopologicalOrder(graph: DiGraph<Node>, target: Node) returns (r: Result<seq<Node>>)
    modifies graph
    ensures (r, graph.g) == Resolve(old(graph.g), target)
  {
    var ancestors := AncestorQuery(graph.g, CouplerSpec, target);
    if ancestors.Err? {
      return Err(ancestors.error);
    }
    var couplerPath: seq<Node> := [];
    if ancestors.value {
      var cp := ShortestPath(Unweighted(graph.g), Root, CouplerSpec);
      if cp.Err? {
        return Err(cp.error);
      }
      couplerPath := cp.value;
      var removed := graph.RemoveNodeFrom(CouplerSpec);
    }
    var topoOrder: seq<Node>;
    if target == Punchout {
      topoOrder := [Punchout];
    } else {
      var sp := ShortestPath(graph.g, Root, target);
      if sp.Err? {
        return Err(sp.error);
      }
      topoOrder := sp.value;
    }
    r := Ok(couplerPath + FilterOrder(graph.g, topoOrder, "refine"));
  }

  // ---------------------------------------------------------------------
  // Properties of the resolver on any acyclic graph.

  /** Without the coupler branch the graph is left alone and, for targets
      other than 'punchout', the order is a minimum-weight path from the root,
      filtered; it exists exactly when the target is reachable. A name that
      is not in the graph raises at the ancestors query. */
  lemma ResolveWithoutCoupler(g: Graph<Node>, target: Node)
    requires Acyclic(g) && !IsAncestor(g, CouplerSpec, target)
    ensures target !in Nodes(g) ==> Resolve(g, target) == (Err(NodeNotFound), g)
    ensures target in Nodes(g) ==> Resolve(g, target).1 == g
    ensures target in Nodes(g) && target == Punchout ==> Resolve(g, target).0 == Ok(FilterOrder(g, [Punchout], "refine"))
    ensures target in Nodes(g) && target != Punchout ==>
      (Resolve(g, target).0.Ok? <==> exists q :: PathFrom(g, q, Root, target))
    ensures target in Nodes(g) && target != Punchout && Resolve(g, target).0.Ok? ==>
      exists p :: IsShortestPath(g, p, Root, target) && Resolve(g, target).0.value == FilterOrder(g, p, "refine")
  {
    if target in Nodes(g) {
      AncestorQueryCorrect(g, CouplerSpec, target);
      if target != Punchout {
        ShortestPathCorrect(g, Root, target);
        if ShortestPath(g, Root, target).Ok? {
          var p := ShortestPath(g, Root, target).value;
          assert [] + FilterOrder(g, p, "refine") == FilterOrder(g, p, "refine");
        }
      } else {
        assert [] + FilterOrder(g, [Punchout], "refine") == FilterOrder(g, [Punchout], "refine");
      }
    }
  }

  /** The coupler branch: when 'coupler_spectroscopy' is an ancestor of the
      target and reachable from the root, the result starts with a
      fewest-edges path to it, and the node is gone from the graph afterwards. */
  lemma ResolveWithCoupler(g: Graph<Node>, target: Node)
    requires Acyclic(g) && target in Nodes(g) && IsAncestor(g, CouplerSpec, target)
    ensures ShortestPath(Unweighted(g), Root, CouplerSpec).Err? ==>
      Resolve(g, target).1 == g && Resolve(g, target).0.Err?
    ensures ShortestPath(Unweighted(g), Root, CouplerSpec).Ok? ==>
      var cp := ShortestPath(Unweighted(g), Root, CouplerSpec).value;
      PathFrom(g, cp, Root, CouplerSpec)
      && (forall q :: PathFrom(g, q, Root, CouplerSpec) ==> |cp| <= |q|)
      && Resolve(g, target).1 == RemoveNode(g, CouplerSpec)
      && CouplerSpec !in Nodes(Resolve(g, target).1)
      && (Resolve(g, target).0.Ok? ==> cp <= Resolve(g, target).0.value)
  {
    AncestorQueryCorrect(g, CouplerSpec, target);
    FewestEdges(g, Root, CouplerSpec);
    var cp := ShortestPath(Unweighted(g), Root, CouplerSpec);
    if cp.Ok? {
      var g' := RemoveNode(g, CouplerSpec);
      var main := MainOrder(g', target, cp.value);
      assert Resolve(g, target) == (main, g');
      if main.Ok? {
        assert main.value[..|cp.value|] == cp.value;
      }
    }
  }

  /** Repeated calls are not idempotent: the first call of the coupler branch
      puts 'coupler_spectroscopy' in the order and removes it from the graph,
      so a second call for the same target can never return it again. */
  lemma NotIdempotent(g: Graph<Node>, target: Node)
    requires Acyclic(g) && target in Nodes(g) && IsAncestor(g, CouplerSpec, target)
    requires Resolve(g, target).0.Ok?
    ensures CouplerSpec in Resolve(g, target).0.value
    ensures var g' := Resolve(g, target).1;
      Resolve(g', target).0.Ok? ==> CouplerSpec !in Resolve(g', target).0.value
    ensures Resolve(Resolve(g, target).1, target).0 != Resolve(g, target).0
  {
    ResolveWithCoupler(g, target);
    var cp := ShortestPath(Unweighted(g), Root, CouplerSpec).value;
    var first := Resolve(g, target).0.value;
    assert cp[|cp| - 1] == CouplerSpec;
    assert first[|cp| - 1] == CouplerSpec;
    var g' := RemoveNode(g, CouplerSpec);
    var second := Resolve(g', target).0;
    if second.Ok? {
      RemoveNodeAcyclic(g, CouplerSpec);
      assert !IsAncestor(g', CouplerSpec, target) by {
        forall q | PathFrom(g', q, CouplerSpec, target)
          ensures false
        {
          PathVerticesAreNodes(g', q);
        }
      }
      ResolveWithoutCoupler(g', target);
      if target != Punchout {
        var p :| IsShortestPath(g', p, Root, target) && second.value == FilterOrder(g', p, "refine");
        PathVerticesAreNodes(g', p);
        FilterOrderCorrect(g', p, "refine");
      }
    }
  }

  // ---------------------------------------------------------------------
  // Properties of the graph actually built.

  /** The nodes with an edge into `v`, read off `graph_dependencies`. */
  function Predecessors(v: Node): set<Node>
  {
    match v
    case ResonatorSpectroscopy => {Tof}
    case CouplerSpectroscopy => {Qubit01Spectroscopy}
    case Qubit01Spectroscopy => {ResonatorSpectroscopy}
    case RabiOscillations => {Qubit01Spectroscopy}
    case RamseyCorrection => {RabiOscillations}
    case AdaptiveMotzoiParameter => {AdaptiveRamseyCorrection}
    case NRabiOscillations => {AdaptiveMotzoiParameter}
    case ResonatorSpectroscopy1 => {NRabiOscillations}
    case T1 => {RandomizedBenchmarking}
    case AllXY => {NRabiOscillations}
    case RandomizedBenchmarking => {NRabiOscillations}
    case RoFrequencyTwoStateOptimization => {ResonatorSpectroscopy1}
    case RoAmplitudeTwoStateOptimization => {RoFrequencyTwoStateOptimization}
    case T2 => {T1}
    case T2Echo => {T2}
    case Qubit12Spectroscopy => {ResonatorSpectroscopy1}
    case RabiOscillations12 => {Qubit12Spectroscopy}
    case RamseyCorrection12 => {RabiOscillations12}
    case ResonatorSpectroscopy2 => {RamseyCorrection12}
    case RoFrequencyThreeStateOptimization => {ResonatorSpectroscopy2}
    case RoAmplitudeThreeStateOptimization => {RoFrequencyThreeStateOptimization}
    case CzChevron => {RoAmplitudeThreeStateOptimization}
    case _ => {}
  }

  lemma DependencyAt0(u: Node, v: Node, i: nat)
    requires i < 6 && Dependencies()[i] == (u, v)
    ensures u in Predecessors(v)
  {
    var d := Dependencies();
    if i == 0 { assert d[0] == (u, v); }
    else if i == 1 { assert d[1] == (u, v); }
    else if i == 2 { assert d[2] == (u, v); }
    else if i == 3 { assert d[3] == (u, v); }
    else if i == 4 { assert d[4] == (u, v); }
    else { assert d[5] == (u, v); }
  }

  lemma DependencyAt6(u: Node, v: Node, i: nat)
    requires 6 <= i < 12 && Dependencies()[i] == (u, v)
    ensures u in Predecessors(v)
  {
    var d := Dependencies();
    if i == 6 { assert d[6] == (u, v); }
    else if i == 7 { assert d[7] == (u, v); }
    else if i == 8 { assert d[8] == (u, v); }
    else if i == 9 { assert d[9] == (u, v); }
    else if i == 10 { assert d[10] == (u, v); }
    else { assert d[11] == (u, v); }
  }

  lemma DependencyAt12(u: Node, v: Node, i: nat)
    requires 12 <= i < 18 && Dependencies()[i] == (u, v)
    ensures u in Predecessors(v)
  {
    var d := Dependencies();
    if i == 12 { assert d[12] == (u, v); }
    else if i == 13 { assert d[13] == (u, v); }
    else if i == 14 { assert d[14] == (u, v); }
    else if i == 15 { assert d[15] == (u, v); }
    else if i == 16 { assert d[16] == (u, v); }
    else { assert d[17] == (u, v); }
  }

  lemma DependencyAt18(u: Node, v: Node, i: nat)
    requires 18 <= i < 23 && Dependencies()[i] == (u, v)
    ensures u in Predecessors(v)
  {
    var d := Dependencies();
    if i == 18 { assert d[18] == (u, v); }
    else if i == 19 { assert d[19] == (u, v); }
    else if i == 20 { assert d[20] == (u, v); }
    else if i == 21 { assert d[21] == (u, v); }
    else { assert d[22] == (u, v); }
  }

  lemma EdgeHasPredecessor(u: Node, v: Node)
    requires (u, v) in Dependencies()
    ensures u in Predecessors(v)
  {
    var d := Dependencies();
    var i :| 0 <= i < |d| && d[i] == (u, v);
    if i < 6 {
      DependencyAt0(u, v, i);
    } else if i < 12 {
      DependencyAt6(u, v, i);
    } else if i < 18 {
      DependencyAt12(u, v, i);
    } else {
      DependencyAt18(u, v, i);
    }
  }

  lemma PredecessorHasEdgeEarly(u: Node, v: Node)
    requires u in Predecessors(v) && v in {ResonatorSpectroscopy, CouplerSpectroscopy, Qubit01Spectroscopy, RabiOscillations, RamseyCorrection, AdaptiveMotzoiParameter, NRabiOscillations, ResonatorSpectroscopy1, T1, AllXY, RandomizedBenchmarking}
    ensures (u, v) in Dependencies()
  {
    var d := Dependencies();
    match v
    case ResonatorSpectroscopy => assert d[0] == (u, v);
    case CouplerSpectroscopy => assert d[1] == (u, v);
    case Qubit01Spectroscopy => assert d[2] == (u, v);
    case RabiOscillations => assert d[3] == (u, v);
    case RamseyCorrection => assert d[4] == (u, v);
    case AdaptiveMotzoiParameter => assert d[5] == (u, v);
    case NRabiOscillations => assert d[6] == (u, v);
    case ResonatorSpectroscopy1 => assert d[7] == (u, v);
    case T1 => assert d[8] == (u, v);
    case AllXY => assert d[10] == (u, v);
    case RandomizedBenchmarking => assert d[11] == (u, v);
  }

  lemma PredecessorHasEdgeLate(u: Node, v: Node)
    requires u in Predecessors(v) && v in {RoFrequencyTwoStateOptimization, RoAmplitudeTwoStateOptimization, T2, T2Echo, Qubit12Spectroscopy, RabiOscillations12, RamseyCorrection12, ResonatorSpectroscopy2, RoFrequencyThreeStateOptimization, RoAmplitudeThreeStateOptimization, CzChevron}
    ensures (u, v) in Dependencies()
  {
    var d := Dependencies();
    match v
    case RoFrequencyTwoStateOptimization => assert d[12] == (u, v);
    case RoAmplitudeTwoStateOptimization => assert d[13] == (u, v);
    case T2 => assert d[14] == (u, v);
    case T2Echo => assert d[15] == (u, v);
    case Qubit12Spectroscopy => assert d[16] == (u, v);
    case RabiOscillations12 => assert d[17] == (u, v);
    case RamseyCorrection12 => assert d[18] == (u, v);
    case ResonatorSpectroscopy2 => assert d[19] == (u, v);
    case RoFrequencyThreeStateOptimization => assert d[20] == (u, v);
    case RoAmplitudeThreeStateOptimization => assert d[21] == (u, v);
    case CzChevron => assert d[22] == (u, v);
  }

  lemma PredecessorHasEdge(u: Node, v: Node)
    requires u in Predecessors(v)
    ensures (u, v) in Dependencies()
  {
    if v in {ResonatorSpectroscopy, CouplerSpectroscopy, Qubit01Spectroscopy, RabiOscillations, RamseyCorrection, AdaptiveMotzoiParameter, NRabiOscillations, ResonatorSpectroscopy1, T1, AllXY, RandomizedBenchmarking} {
      PredecessorHasEdgeEarly(u, v);
    } else {
      PredecessorHasEdgeLate(u, v);
    }
  }

  /** The edge list and the predecessor table describe the same edges. */
  lemma BuiltEdge(u: Node, v: Node)
    ensures HasEdge(Built(), u, v) <==> u in Predecessors(v)
  {
    if HasEdge(Built(), u, v) {
      EdgeHasPredecessor(u, v);
    }
    if u in Predecessors(v) {
      PredecessorHasEdge(u, v);
    }
  }

  lemma PredecessorsNamed(u: Node, v: Node)
    requires u in Predecessors(v)
    ensures !u.Other? && !v.Other?
  {
    match v
    case ResonatorSpectroscopy =>
    case CouplerSpectroscopy =>
    case Qubit01Spectroscopy =>
    case RabiOscillations =>
    case RamseyCorrection =>
    case AdaptiveMotzoiParameter =>
    case NRabiOscillations =>
    case ResonatorSpectroscopy1 =>
    case T1 =>
    case AllXY =>
    case RandomizedBenchmarking =>
    case RoFrequencyTwoStateOptimization =>
    case RoAmplitudeTwoStateOptimization =>
    case T2 =>
    case T2Echo =>
    case Qubit12Spectroscopy =>
    case RabiOscillations12 =>
    case RamseyCorrection12 =>
    case ResonatorSpectroscopy2 =>
    case RoFrequencyThreeStateOptimization =>
    case RoAmplitudeThreeStateOptimization =>
    case CzChevron =>
  }

  lemma NamedIsNode(n: Node)
    requires !n.Other?
    ensures n in Nodes(Built())
  {
    var g := Built();
    match n
    case Tof => assert g.extra[0] == n;
    case Punchout => assert g.extra[1] == n;
    case AdaptiveRamseyCorrection =>
      PredecessorHasEdge(n, AdaptiveMotzoiParameter);
      NodeWitness(g, n);
    case ResonatorSpectroscopy =>
      PredecessorHasEdge(Tof, n);
      NodeWitness(g, n);
    case CouplerSpectroscopy =>
      PredecessorHasEdge(Qubit01Spectroscopy, n);
      NodeWitness(g, n);
    case Qubit01Spectroscopy =>
      PredecessorHasEdge(ResonatorSpectroscopy, n);
      NodeWitness(g, n);
    case RabiOscillations =>
      PredecessorHasEdge(Qubit01Spectroscopy, n);
      NodeWitness(g, n);
    case RamseyCorrection =>
      PredecessorHasEdge(RabiOscillations, n);
      NodeWitness(g, n);
    case AdaptiveMotzoiParameter =>
      PredecessorHasEdge(AdaptiveRamseyCorrection, n);
      NodeWitness(g, n);
    case NRabiOscillations =>
      PredecessorHasEdge(AdaptiveMotzoiParameter, n);
      NodeWitness(g, n);
    case ResonatorSpectroscopy1 =>
      PredecessorHasEdge(NRabiOscillations, n);
      NodeWitness(g, n);
    case T1 =>
      PredecessorHasEdge(RandomizedBenchmarking, n);
      NodeWitness(g, n);
    case AllXY =>
      PredecessorHasEdge(NRabiOscillations, n);
      NodeWitness(g, n);
    case RandomizedBenchmarking =>
      PredecessorHasEdge(NRabiOscillations, n);
      NodeWitness(g, n);
    case RoFrequencyTwoStateOptimization =>
      PredecessorHasEdge(ResonatorSpectroscopy1, n);
      NodeWitness(g, n);
    case RoAmplitudeTwoStateOptimization =>
      PredecessorHasEdge(RoFrequencyTwoStateOptimization, n);
      NodeWitness(g, n);
    case T2 =>
      PredecessorHasEdge(T1, n);
      NodeWitness(g, n);
    case T2Echo =>
      PredecessorHasEdge(T2, n);
      NodeWitness(g, n);
    case Qubit12Spectroscopy =>
      PredecessorHasEdge(ResonatorSpectroscopy1, n);
      NodeWitness(g, n);
    case RabiOscillations12 =>
      PredecessorHasEdge(Qubit12Spectroscopy, n);
      NodeWitness(g, n);
    case RamseyCorrection12 =>
      PredecessorHasEdge(RabiOscillations12, n);
      NodeWitness(g, n);
    case ResonatorSpectroscopy2 =>
      PredecessorHasEdge(RamseyCorrection12, n);
      NodeWitness(g, n);
    case RoFrequencyThreeStateOptimization =>
      PredecessorHasEdge(ResonatorSpectroscopy2, n);
      NodeWitness(g, n);
    case RoAmplitudeThreeStateOptimization =>
      PredecessorHasEdge(RoFrequencyThreeStateOptimization, n);
      NodeWitness(g, n);
    case CzChevron =>
      PredecessorHasEdge(RoAmplitudeThreeStateOptimization, n);
      NodeWitness(g, n);
  }

  /** The nodes of the built graph are exactly the named nodes. */
  lemma BuiltNodes(n: Node)
    ensures n in Nodes(Built()) <==> !n.Other?
  {
    var g := Built();
    if n in Nodes(g) && n !in g.extra {
      NodeWitness(g, n);
      if v :| HasEdge(g, n, v) {
        EdgeHasPredecessor(n, v);
        PredecessorsNamed(n, v);
      } else {
        var u :| HasEdge(g, u, n);
        EdgeHasPredecessor(u, n);
        PredecessorsNamed(u, n);
      }
    }
    if !n.Other? {
      NamedIsNode(n);
    }
  }

  /** A rank that grows along every edge. */
  function Rank(n: Node): nat
  {
    match n
    case Tof => 0
    case ResonatorSpectroscopy => 1
    case Qubit01Spectroscopy => 2
    case CouplerSpectroscopy => 3
    case RabiOscillations => 3
    case RamseyCorrection => 4
    case AdaptiveRamseyCorrection => 0
    case AdaptiveMotzoiParameter => 1
    case NRabiOscillations => 2
    case ResonatorSpectroscopy1 => 3
    case RandomizedBenchmarking => 3
    case AllXY => 3
    case T1 => 4
    case T2 => 5
    case T2Echo => 6
    case RoFrequencyTwoStateOptimization => 4
    case RoAmplitudeTwoStateOptimization => 5
    case Qubit12Spectroscopy => 4
    case RabiOscillations12 => 5
    case RamseyCorrection12 => 6
    case ResonatorSpectroscopy2 => 7
    case RoFrequencyThreeStateOptimization => 8
    case RoAmplitudeThreeStateOptimization => 9
    case CzChevron => 10
    case _ => 0
  }

  /** Every predecessor ranks below its successor. */
  lemma PredecessorsRanked()
    ensures forall u, v :: u in Predecessors(v) ==> Rank(u) < Rank(v)
  {
    forall u, v | u in Predecessors(v)
      ensures Rank(u) < Rank(v)
    {
      match v
      case ResonatorSpectroscopy =>
      case CouplerSpectroscopy =>
      case Qubit01Spectroscopy =>
      case RabiOscillations =>
      case RamseyCorrection =>
      case AdaptiveMotzoiParameter =>
      case NRabiOscillations =>
      case ResonatorSpectroscopy1 =>
      case T1 =>
      case AllXY =>
      case RandomizedBenchmarking =>
      case RoFrequencyTwoStateOptimization =>
      case RoAmplitudeTwoStateOptimization =>
      case T2 =>
      case T2Echo =>
      case Qubit12Spectroscopy =>
      case RabiOscillations12 =>
      case RamseyCorrection12 =>
      case ResonatorSpectroscopy2 =>
      case RoFrequencyThreeStateOptimization =>
      case RoAmplitudeThreeStateOptimization =>
      case CzChevron =>
    }
  }

  /** What the lemmas below use of the built graph: its edges are those of
      the predecessor table, its nodes are the named nodes, and only 'tof'
      carries a type. */
  ghost predicate BuiltShape(g: Graph<Node>)
  {
    && (forall u, v :: HasEdge(g, u, v) <==> u in Predecessors(v))
    && (forall n :: n in Nodes(g) <==> !n.Other?)
    && g.types == map[Tof := "refine"]
  }

  lemma BuiltHasShape()
    ensures BuiltShape(Built())
  {
    forall u, v
      ensures HasEdge(Built(), u, v) <==> u in Predecessors(v)
    {
      BuiltEdge(u, v);
    }
    forall n
      ensures n in Nodes(Built()) <==> !n.Other?
    {
      BuiltNodes(n);
    }
  }

  /** The built graph has no cycle, so networkx's queries on it terminate
      with the answers `ShortestPathCorrect` describes. */
  lemma BuiltAcyclic()
    ensures Acyclic(Built())
  {
    BuiltHasShape();
    PredecessorsRanked();
    PredecessorsAcyclic(Built(), Predecessors, Rank);
  }

  lemma CouplerNoSuccessor(v: Node)
    ensures CouplerSpec !in Predecessors(v)
  {
    match v
    case ResonatorSpectroscopy =>
    case CouplerSpectroscopy =>
    case Qubit01Spectroscopy =>
    case RabiOscillations =>
    case RamseyCorrection =>
    case AdaptiveMotzoiParameter =>
    case NRabiOscillations =>
    case ResonatorSpectroscopy1 =>
    case T1 =>
    case AllXY =>
    case RandomizedBenchmarking =>
    case RoFrequencyTwoStateOptimization =>
    case RoAmplitudeTwoStateOptimization =>
    case T2 =>
    case T2Echo =>
    case Qubit12Spectroscopy =>
    case RabiOscillations12 =>
    case RamseyCorrection12 =>
    case ResonatorSpectroscopy2 =>
    case RoFrequencyThreeStateOptimization =>
    case RoAmplitudeThreeStateOptimization =>
    case CzChevron =>
    case _ =>
  }

  lemma ShapeCouplerDormant(g: Graph<Node>, target: Node)
    requires BuiltShape(g)
    ensures Acyclic(g) && !IsAncestor(g, CouplerSpec, target)
  {
    PredecessorsRanked();
    PredecessorsAcyclic(g, Predecessors, Rank);
    forall q | PathFrom(g, q, CouplerSpec, target) && |q| >= 2
      ensures false
    {
      assert HasEdge(g, q[0], q[1]);
      CouplerNoSuccessor(q[1]);
    }
  }

  /** 'coupler_spectroscopy' has no successor in the built graph, so the
      coupler branch never runs and the graph is never changed. */
  lemma CouplerBranchDormant(target: Node)
    ensures !IsAncestor(Built(), CouplerSpec, target)
    ensures Resolve(Built(), target).1 == Built()
  {
    BuiltHasShape();
    ShapeCouplerDormant(Built(), target);
    ResolveWithoutCoupler(Built(), target);
  }

  /** Every node type present is a substring of 'refine', so this resolver's
      filter keeps every node. */
  lemma RefineKeepsAll(g: Graph<Node>, order: seq<Node>)
    requires BuiltShape(g)
    ensures FilterOrder(g, order, "refine") == order
  {
    assert Keep(g, Tof, "refine") by {
      SubstringOfItself("refine");
    }
    KeepAllFilter(g, order, "refine");
  }

  lemma {:induction false} KeepAllFilter(g: Graph<Node>, order: seq<Node>, types: string)
    requires forall i :: 0 <= i < |order| ==> Keep(g, order[i], types)
    ensures FilterOrder(g, order, types) == order
  {
    if |order| > 0 {
      KeepAllFilter(g, order[1..], types);
    }
  }

  /** Every path into 'rabi_oscillations' is a suffix of the chain from 'tof'. */
  lemma PathsIntoRabi(g: Graph<Node>, q: seq<Node>)
    requires BuiltShape(g) && IsPath(g, q) && q[|q| - 1] == RabiOscillations
    ensures |q| <= 4 && q == [Tof, ResonatorSpectroscopy, Qubit01Spectroscopy, RabiOscillations][4 - |q|..]
  {
    var chain := [Tof, ResonatorSpectroscopy, Qubit01Spectroscopy, RabiOscillations];
    var n := |q|;
    if n >= 2 {
      assert HasEdge(g, q[n - 2], q[n - 1]);
      assert q[n - 2] == Qubit01Spectroscopy;
    }
    if n >= 3 {
      assert HasEdge(g, q[n - 3], q[n - 2]);
      assert q[n - 3] == ResonatorSpectroscopy;
    }
    if n >= 4 {
      assert HasEdge(g, q[n - 4], q[n - 3]);
      assert q[n - 4] == Tof;
      SourceOnlyFirst(g, q, Tof);
    }
    assert n <= 4;
    assert forall i :: 0 <= i < n ==> q[i] == chain[4 - n + i];
  }

  lemma ShapeRabiOrder(g: Graph<Node>)
    requires BuiltShape(g)
    ensures Resolve(g, RabiOscillations) == (Ok([ResonatorSpectroscopy, Qubit01Spectroscopy, RabiOscillations]), g)
  {
    var target := RabiOscillations;
    ShapeCouplerDormant(g, target);
    ResolveWithoutCoupler(g, target);
    var path := [ResonatorSpectroscopy, Qubit01Spectroscopy, RabiOscillations];
    assert PathFrom(g, path, Root, target) by {
      assert HasEdge(g, path[0], path[1]);
      assert HasEdge(g, path[1], path[2]);
    }
    var p :| IsShortestPath(g, p, Root, target) && Resolve(g, target).0.value == FilterOrder(g, p, "refine");
    PathsIntoRabi(g, p);
    RefineKeepsAll(g, p);
  }

  /** 'rabi_oscillations' resolves to the single root path through
      'qubit_01_spectroscopy'. */
  lemma RabiOrder()
    ensures Resolve(Built(), RabiOscillations) ==
      (Ok([ResonatorSpectroscopy, Qubit01Spectroscopy, RabiOscillations]), Built())
  {
    BuiltHasShape();
    ShapeRabiOrder(Built());
  }

  /** Walking back from 'n_rabi_oscillations' ends at a node without predecessors. */
  lemma PathsIntoNRabi(g: Graph<Node>, q: seq<Node>)
    requires BuiltShape(g) && IsPath(g, q) && q[|q| - 1] == NRabiOscillations
    ensures q[0] in {NRabiOscillations, AdaptiveMotzoiParameter, AdaptiveRamseyCorrection}
  {
    SourceOnlyFirst(g, q, AdaptiveRamseyCorrection);
    var n := |q|;
    if n >= 2 {
      assert HasEdge(g, q[n - 2], q[n - 1]);
    }
    if n >= 3 {
      assert HasEdge(g, q[n - 3], q[n - 2]);
    }
  }

  lemma ShapeNRabiUnreachable(g: Graph<Node>)
    requires BuiltShape(g)
    ensures Resolve(g, NRabiOscillations).0 == Err(NoPath)
  {
    var target := NRabiOscillations;
    ShapeCouplerDormant(g, target);
    ResolveWithoutCoupler(g, target);
    forall q
      ensures !PathFrom(g, q, Root, target)
    {
      if IsPath(g, q) && q[|q| - 1] == target {
        PathsIntoNRabi(g, q);
      }
    }
  }

  /** 'n_rabi_oscillations' hangs below 'adaptive_ramsey_correction', which
      has no incoming edge: the target is unreachable from the root. */
  lemma NRabiUnreachable()
    ensures Resolve(Built(), NRabiOscillations).0 == Err(NoPath)
  {
    BuiltHasShape();
    ShapeNRabiUnreachable(Built());
  }

  /** 'punchout' is an isolated node and resolves to itself. */
  lemma PunchoutOrder()
    ensures Resolve(Built(), Punchout) == (Ok([Punchout]), Built())
  {
    BuiltHasShape();
    ShapeCouplerDormant(Built(), Punchout);
    ResolveWithoutCoupler(Built(), Punchout);
    RefineKeepsAll(Built(), [Punchout]);
  }

  /** A name that is not a node raises before anything else happens. */
  lemma UnknownTarget(target: Node)
    requires target.Other?
    ensures Resolve(Built(), target) == (Err(NodeNotFound), Built())
  {
    BuiltHasShape();
    ShapeCouplerDormant(Built(), target);
    ResolveWithoutCoupler(Built(), target);
  }
}
