// The older dependency graph of nodes/node.py: its import-time construction,
// its resolver `filtered_topological_order` (which filters with 'none' and
// leaves the graph alone), the `node_definitions` table and the sample-grid
// helpers `qubit_samples` and `resonator_samples`.
module NodesGraph {
  import opened Common
  import opened Graph

  /** The node names of this module; `Other` stands for any other name. */
  datatype Node =
    | Tof | ResonatorSpectroscopy | CouplerSpectroscopy | Qubit01SpectroscopyPulsed
    | Qubit01SpectroscopyMultidim | RabiOscillations | RamseyCorrection | ResonatorSpectroscopy1
    | RoFrequencyOptimization | RoAmplitudeOptimization | StateDiscrimination | T1
    | Qubit12SpectroscopyPulsed | RabiOscillations12 | RamseyCorrection12 | Punchout
    | MotzoiParameter | TwoToneMultidim | ResonatorSpectroscopy2 | RoFrequencyOptimizationGef
    | Other(name: string)

  /** The name networkx and `node_definitions` use for each node. */
  function Name(n: Node): string
  {
    match n
    case Tof => "tof"
    case ResonatorSpectroscopy => "resonator_spectroscopy"
    case CouplerSpectroscopy => "coupler_spectroscopy"
    case Qubit01SpectroscopyPulsed => "qubit_01_spectroscopy_pulsed"
    case Qubit01SpectroscopyMultidim => "qubit_01_spectroscopy_multidim"
    case RabiOscillations => "rabi_oscillations"
    case RamseyCorrection => "ramsey_correction"
    case ResonatorSpectroscopy1 => "resonator_spectroscopy_1"
    case RoFrequencyOptimization => "ro_frequency_optimization"
    case RoAmplitudeOptimization => "ro_amplitude_optimization"
    case StateDiscrimination => "state_discrimination"
    case T1 => "T1"
    case Qubit12SpectroscopyPulsed => "qubit_12_spectroscopy_pulsed"
    case RabiOscillations12 => "rabi_oscillations_12"
    case RamseyCorrection12 => "ramsey_correction_12"
    case Punchout => "punchout"
    case MotzoiParameter => "motzoi_parameter"
    case TwoToneMultidim => "two_tone_multidim"
    case ResonatorSpectroscopy2 => "resonator_spectroscopy_2"
    case RoFrequencyOptimizationGef => "ro_frequency_optimization_gef"
    case Other(name) => name
  }

  const Root: Node := ResonatorSpectroscopy

  /** `graph_dependencies`. */
  function Dependencies(): seq<(Node, Node)>
  {
    [ (Tof, ResonatorSpectroscopy),
      (ResonatorSpectroscopy, CouplerSpectroscopy),
      (ResonatorSpectroscopy, Qubit01SpectroscopyPulsed),
      (ResonatorSpectroscopy, Qubit01SpectroscopyMultidim),
      (Qubit01SpectroscopyPulsed, RabiOscillations),
      (Qubit01SpectroscopyMultidim, RabiOscillations),
      (RabiOscillations, RamseyCorrection),
      (RamseyCorrection, ResonatorSpectroscopy1),
      (RamseyCorrection, RoFrequencyOptimization),
      (RoFrequencyOptimization, RoAmplitudeOptimization),
      (RoAmplitudeOptimization, StateDiscrimination),
      (RamseyCorrection, T1),
      (ResonatorSpectroscopy1, Qubit12SpectroscopyPulsed),
      (Qubit12SpectroscopyPulsed, RabiOscillations12),
      (RabiOscillations12, RamseyCorrection12) ]
  }

  /** The nodes given a 'type' attribute, all with the type 'refine'. */
  function Types(): map<Node, string>
  {
    map[Tof := "refine", RamseyCorrection := "refine", RamseyCorrection12 := "refine",
        RoFrequencyOptimization := "refine", RoAmplitudeOptimization := "refine"]
  }

  /** The two edges whose weight is written: 1 to the pulsed spectroscopy,
      2 to the multidimensional one. */
  function Weights(): map<(Node, Node), nat>
  {
    map[(ResonatorSpectroscopy, Qubit01SpectroscopyPulsed) := 1,
        (ResonatorSpectroscopy, Qubit01SpectroscopyMultidim) := 2]
  }

  /** The module-level graph after the import-time statements. */
  function Built(): Graph<Node>
  {
    Graph(
      Dependencies(),
      [Tof, Punchout, Qubit01SpectroscopyPulsed, Qubit01SpectroscopyMultidim,
       RamseyCorrection, RamseyCorrection12, RoFrequencyOptimization, RoAmplitudeOptimization],
      Weights(),
      Types())
  }

  /** The import-time statements on an edge list `deps`: the edges, eight
      `add_node` calls (five of them with type 'refine'), and the two weight
      writes, which raise KeyError when their edge is missing. */
  method BuildGraphFrom(deps: seq<(Node, Node)>) returns (graph: DiGraph<Node>, r: Result<()>)
    ensures fresh(graph)
    ensures r.Ok? <==>
      (ResonatorSpectroscopy, Qubit01SpectroscopyPulsed) in deps
      && (ResonatorSpectroscopy, Qubit01SpectroscopyMultidim) in deps
    ensures r.Err? ==> r.error == MissingEdge
    ensures graph.g.edges == deps && graph.g.types == Types()
    ensures r.Ok? ==> graph.g == Built().(edges := deps)
  {
    graph := new DiGraph();
    graph.AddEdgesFrom(deps);
    graph.AddNodeWith(Tof, Some("refine"));
    graph.AddNodeWith(Punchout, None);
    graph.AddNodeWith(Qubit01SpectroscopyPulsed, None);
    graph.AddNodeWith(Qubit01SpectroscopyMultidim, None);
    graph.AddNodeWith(RamseyCorrection, Some("refine"));
    graph.AddNodeWith(RamseyCorrection12, Some("refine"));
    graph.AddNodeWith(RoFrequencyOptimization, Some("refine"));
    graph.AddNodeWith(RoAmplitudeOptimization, Some("refine"));
    assert graph.g.extra == Built().extra;
    assert graph.g.types == Types();
    r := graph.SetEdgeWeight(ResonatorSpectroscopy, Qubit01SpectroscopyPulsed, 1);
    if r.Ok? {
      r := graph.SetEdgeWeight(ResonatorSpectroscopy, Qubit01SpectroscopyMultidim, 2);
      assert r.Ok? ==> graph.g.weight == Weights();
    }
  }

  /** The module-level graph is `Built()`. */
  method BuildGraph() returns (graph: DiGraph<Node>)
    ensures fresh(graph) && graph.g == Built()
  {
    assert Dependencies()[2] == (ResonatorSpectroscopy, Qubit01SpectroscopyPulsed);
    assert Dependencies()[3] == (ResonatorSpectroscopy, Qubit01SpectroscopyMultidim);
    var r;
    graph, r := BuildGraphFrom(Dependencies());
  }

  // ---------------------------------------------------------------------
  // The resolver.

  /** What `filtered_topological_order(target)` returns: the minimum-weight
      root path (or just 'punchout'), keeping the nodes whose type is a
      substring of 'none'. */
  function Resolve(g: Graph<Node>, target: Node): Result<seq<Node>>
  {
    if target == Punchout then Ok(FilterOrder(g, [Punchout], "none"))
    else
      match ShortestPath(g, Root, target)
      case Err(e) => Err(e)
      case Ok(p) => Ok(FilterOrder(g, p, "none"))
  }

  /** On any acyclic graph the order is a filtered minimum-weight path,
      present exactly when the target is reachable from the root. */
  lemma ResolveCorrect(g: Graph<Node>, target: Node)
    requires Acyclic(g)
    ensures target == Punchout ==> Resolve(g, target) == Ok(FilterOrder(g, [Punchout], "none"))
    ensures target != Punchout ==>
      (Resolve(g, target).Ok? <==> exists q :: PathFrom(g, q, Root, target))
    ensures target != Punchout && Resolve(g, target).Ok? ==>
      exists p :: IsShortestPath(g, p, Root, target) && Resolve(g, target).value == FilterOrder(g, p, "none")
    ensures target != Punchout && Resolve(g, target).Err? ==>
      Resolve(g, target).error == (if Root in Nodes(g) && target in Nodes(g) then NoPath else NodeNotFound)
  {
    if target != Punchout {
      ShortestPathCorrect(g, Root, target);
    }
  }

  lemma RefineNotInNone()
    ensures !IsSubstring("refine", "none")
  {
    forall i: nat
      ensures !OccursAt("refine", "none", i)
    {
    }
  }

  /** With every type equal to 'refine', the filter with 'none' keeps exactly
      the untyped nodes, in order. */
  lemma NoneDropsTyped(g: Graph<Node>, order: seq<Node>)
    requires forall n :: n in g.types ==> g.types[n] == "refine"
    ensures Subsequence(FilterOrder(g, order, "none"), order)
    ensures forall n :: n in FilterOrder(g, order, "none") <==> n in order && n !in g.types
  {
    RefineNotInNone();
    FilterOrderCorrect(g, order, "none");
  }

  // ---------------------------------------------------------------------
  // Properties of the graph actually built.

  /** The nodes with an edge into `v`, read off `graph_dependencies`. */
  function Predecessors(v: Node): set<Node>
  {
    match v
    case ResonatorSpectroscopy => {Tof}
    case CouplerSpectroscopy => {ResonatorSpectroscopy}
    case Qubit01SpectroscopyPulsed => {ResonatorSpectroscopy}
    case Qubit01SpectroscopyMultidim => {ResonatorSpectroscopy}
    case RabiOscillations => {Qubit01SpectroscopyPulsed, Qubit01SpectroscopyMultidim}
    case RamseyCorrection => {RabiOscillations}
    case ResonatorSpectroscopy1 => {RamseyCorrection}
    case RoFrequencyOptimization => {RamseyCorrection}
    case RoAmplitudeOptimization => {RoFrequencyOptimization}
    case StateDiscrimination => {RoAmplitudeOptimization}
    case T1 => {RamseyCorrection}
    case Qubit12SpectroscopyPulsed => {ResonatorSpectroscopy1}
    case RabiOscillations12 => {Qubit12SpectroscopyPulsed}
    case RamseyCorrection12 => {RabiOscillations12}
    case _ => {}
  }

  lemma DependencyAt0(u: Node, v: Node, i: nat)
    requires 0 <= i < 8 && Dependencies()[i] == (u, v)
    ensures u in Predecessors(v)
  {
    var d := Dependencies();
    if i == 0 { assert d[0] == (u, v); }
    else if i == 1 { assert d[1] == (u, v); }
    else if i == 2 { assert d[2] == (u, v); }
    else if i == 3 { assert d[3] == (u, v); }
    else if i == 4 { assert d[4] == (u, v); }
    else if i == 5 { assert d[5] == (u, v); }
    else if i == 6 { assert d[6] == (u, v); }
    else { assert d[7] == (u, v); }
  }

  lemma DependencyAt8(u: Node, v: Node, i: nat)
    requires 8 <= i < 15 && Dependencies()[i] == (u, v)
    ensures u in Predecessors(v)
  {
    var d := Dependencies();
    if i == 8 { assert d[8] == (u, v); }
    else if i == 9 { assert d[9] == (u, v); }
    else if i == 10 { assert d[10] == (u, v); }
    else if i == 11 { assert d[11] == (u, v); }
    else if i == 12 { assert d[12] == (u, v); }
    else if i == 13 { assert d[13] == (u, v); }
    else { assert d[14] == (u, v); }
  }

  lemma EdgeHasPredecessor(u: Node, v: Node)
    requires (u, v) in Dependencies()
    ensures u in Predecessors(v)
  {
    var d := Dependencies();
    var i :| 0 <= i < |d| && d[i] == (u, v);
    if i < 8 {
      DependencyAt0(u, v, i);
    } else {
      DependencyAt8(u, v, i);
    }
  }

  lemma PredecessorHasEdge(u: Node, v: Node)
    requires u in Predecessors(v)
    ensures (u, v) in Dependencies()
  {
    var d := Dependencies();
    match v
    case ResonatorSpectroscopy => assert d[0] == (u, v);
    case CouplerSpectroscopy => assert d[1] == (u, v);
    case Qubit01SpectroscopyPulsed => assert d[2] == (u, v);
    case Qubit01SpectroscopyMultidim => assert d[3] == (u, v);
    case RabiOscillations =>
      if u == Qubit01SpectroscopyPulsed { assert d[4] == (u, v); } else { assert d[5] == (u, v); }
    case RamseyCorrection => assert d[6] == (u, v);
    case ResonatorSpectroscopy1 => assert d[7] == (u, v);
    case RoFrequencyOptimization => assert d[8] == (u, v);
    case RoAmplitudeOptimization => assert d[9] == (u, v);
    case StateDiscrimination => assert d[10] == (u, v);
    case T1 => assert d[11] == (u, v);
    case Qubit12SpectroscopyPulsed => assert d[12] == (u, v);
    case RabiOscillations12 => assert d[13] == (u, v);
    case RamseyCorrection12 => assert d[14] == (u, v);
  }

  /** The edge list and the predecessor table describe the same edges. */
  lemma BuiltEdge(u: Node, v: Node)
    ensures HasEdge(Built(), u, v) <==> u in Predecessors(v)
  {
    if HasEdge(Built(), u, v) {
      EdgeHasPredecessor(u, v);
    }
    if u in Predecessors(v) {
      PredecessorHasEdge(u, v);
    }
  }

  /** The nodes of the graph: everything except the table-only names. */
  predicate InGraph(n: Node)
  {
    !n.Other? && n != MotzoiParameter && n != TwoToneMultidim
    && n != ResonatorSpectroscopy2 && n != RoFrequencyOptimizationGef
  }

  lemma PredecessorsInGraph(u: Node, v: Node)
    requires u in Predecessors(v)
    ensures InGraph(u) && InGraph(v)
  {
    match v
    case ResonatorSpectroscopy =>
    case CouplerSpectroscopy =>
    case Qubit01SpectroscopyPulsed =>
    case Qubit01SpectroscopyMultidim =>
    case RabiOscillations =>
    case RamseyCorrection =>
    case ResonatorSpectroscopy1 =>
    case RoFrequencyOptimization =>
    case RoAmplitudeOptimization =>
    case StateDiscrimination =>
    case T1 =>
    case Qubit12SpectroscopyPulsed =>
    case RabiOscillations12 =>
    case RamseyCorrection12 =>
  }

  lemma InGraphIsNode(n: Node)
    requires InGraph(n)
    ensures n in Nodes(Built())
  {
    var g := Built();
    match n
    case Tof => assert g.extra[0] == n;
    case Punchout => assert g.extra[1] == n;
    case ResonatorSpectroscopy =>
      PredecessorHasEdge(Tof, n);
      NodeWitness(g, n);
    case CouplerSpectroscopy =>
      PredecessorHasEdge(ResonatorSpectroscopy, n);
      NodeWitness(g, n);
    case Qubit01SpectroscopyPulsed =>
      PredecessorHasEdge(ResonatorSpectroscopy, n);
      NodeWitness(g, n);
    case Qubit01SpectroscopyMultidim =>
      PredecessorHasEdge(ResonatorSpectroscopy, n);
      NodeWitness(g, n);
    case RabiOscillations =>
      PredecessorHasEdge(Qubit01SpectroscopyPulsed, n);
      NodeWitness(g, n);
    case RamseyCorrection =>
      PredecessorHasEdge(RabiOscillations, n);
      NodeWitness(g, n);
    case ResonatorSpectroscopy1 =>
      PredecessorHasEdge(RamseyCorrection, n);
      NodeWitness(g, n);
    case RoFrequencyOptimization =>
      PredecessorHasEdge(RamseyCorrection, n);
      NodeWitness(g, n);
    case RoAmplitudeOptimization =>
      PredecessorHasEdge(RoFrequencyOptimization, n);
      NodeWitness(g, n);
    case StateDiscrimination =>
      PredecessorHasEdge(RoAmplitudeOptimization, n);
      NodeWitness(g, n);
    case T1 =>
      PredecessorHasEdge(RamseyCorrection, n);
      NodeWitness(g, n);
    case Qubit12SpectroscopyPulsed =>
      PredecessorHasEdge(ResonatorSpectroscopy1, n);
      NodeWitness(g, n);
    case RabiOscillations12 =>
      PredecessorHasEdge(Qubit12SpectroscopyPulsed, n);
      NodeWitness(g, n);
    case RamseyCorrection12 =>
      PredecessorHasEdge(RabiOscillations12, n);
      NodeWitness(g, n);
  }

  /** Every node of the built graph is one of the graph's nodes. */
  lemma NodeIsInGraph(n: Node)
    requires n in Nodes(Built())
    ensures InGraph(n)
  {
    var g := Built();
    if n !in g.extra {
      NodeWitness(g, n);
      if v :| HasEdge(g, n, v) {
        EdgeHasPredecessor(n, v);
        PredecessorsInGraph(n, v);
      } else {
        var u :| HasEdge(g, u, n);
        EdgeHasPredecessor(u, n);
        PredecessorsInGraph(u, n);
      }
    }
  }

  lemma BuiltNodes(n: Node)
    ensures n in Nodes(Built()) <==> InGraph(n)
  {
    if n in Nodes(Built()) {
      NodeIsInGraph(n);
    }
    if InGraph(n) {
      InGraphIsNode(n);
    }
  }

  /** What the lemmas below use of the built graph. */
  ghost predicate BuiltShape(g: Graph<Node>)
  {
    && (forall u, v :: HasEdge(g, u, v) <==> u in Predecessors(v))
    && (forall n :: n in Nodes(g) <==> InGraph(n))
    && g.types == Types()
    && g.weight == Weights()
  }

  lemma BuiltHasShape()
    ensures BuiltShape(Built())
  {
    forall u, v
      ensures HasEdge(Built(), u, v) <==> u in Predecessors(v)
    {
      BuiltEdge(u, v);
    }
    forall n
      ensures n in Nodes(Built()) <==> InGraph(n)
    {
      BuiltNodes(n);
    }
  }

  /** A rank that grows along every edge. */
  function Rank(n: Node): nat
  {
    match n
    case Tof => 0
    case ResonatorSpectroscopy => 1
    case CouplerSpectroscopy => 2
    case Qubit01SpectroscopyPulsed => 2
    case Qubit01SpectroscopyMultidim => 2
    case RabiOscillations => 3
    case RamseyCorrection => 4
    case ResonatorSpectroscopy1 => 5
    case RoFrequencyOptimization => 5
    case RoAmplitudeOptimization => 6
    case StateDiscrimination => 7
    case T1 => 5
    case Qubit12SpectroscopyPulsed => 6
    case RabiOscillations12 => 7
    case RamseyCorrection12 => 8
    case Punchout => 0
    case _ => 0
  }

  /** Every predecessor ranks below its successor. */
  lemma PredecessorsRanked()
    ensures forall u, v :: u in Predecessors(v) ==> Rank(u) < Rank(v)
  {
    forall u, v | u in Predecessors(v)
      ensures Rank(u) < Rank(v)
    {
      match v
      case ResonatorSpectroscopy =>
      case CouplerSpectroscopy =>
      case Qubit01SpectroscopyPulsed =>
      case Qubit01SpectroscopyMultidim =>
      case RabiOscillations =>
      case RamseyCorrection =>
      case ResonatorSpectroscopy1 =>
      case RoFrequencyOptimization =>
      case RoAmplitudeOptimization =>
      case StateDiscrimination =>
      case T1 =>
      case Qubit12SpectroscopyPulsed =>
      case RabiOscillations12 =>
      case RamseyCorrection12 =>
    }
  }

  /** `list(nx.topological_sort(graph))` runs at import and succeeds only on
      an acyclic graph: the built graph is one. */
  lemma BuiltAcyclic()
    ensures Acyclic(Built())
  {
    BuiltHasShape();
    PredecessorsRanked();
    PredecessorsAcyclic(Built(), Predecessors, Rank);
  }

  /** Every root path into 'rabi_oscillations' goes through one of the two
      first-transition spectroscopies. */
  lemma RootPathsIntoRabi(g: Graph<Node>, q: seq<Node>)
    requires BuiltShape(g) && PathFrom(g, q, Root, RabiOscillations)
    ensures q == [Root, Qubit01SpectroscopyPulsed, RabiOscillations]
         || q == [Root, Qubit01SpectroscopyMultidim, RabiOscillations]
  {
    PredecessorsRanked();
    PredecessorsAcyclic(g, Predecessors, Rank);
    AcyclicPathDistinct(g, q);
    var n := |q|;
    assert HasEdge(g, q[n - 2], q[n - 1]);
    assert HasEdge(g, q[n - 3], q[n - 2]);
  }

  lemma ShapeWeight(g: Graph<Node>, u: Node, v: Node)
    requires BuiltShape(g)
    ensures W(g, u, v) == if u == Root && v == Qubit01SpectroscopyMultidim then 2 else 1
  {
  }

  /** The two root paths into 'rabi_oscillations' weigh 2 (pulsed) and 3 (multidim). */
  lemma RabiPathWeights(g: Graph<Node>)
    requires BuiltShape(g)
    ensures PathWeight(g, [Root, Qubit01SpectroscopyPulsed, RabiOscillations]) == 2
    ensures PathWeight(g, [Root, Qubit01SpectroscopyMultidim, RabiOscillations]) == 3
  {
    ShapeWeight(g, Root, Qubit01SpectroscopyPulsed);
    ShapeWeight(g, Qubit01SpectroscopyPulsed, RabiOscillations);
    ShapeWeight(g, Root, Qubit01SpectroscopyMultidim);
    ShapeWeight(g, Qubit01SpectroscopyMultidim, RabiOscillations);
    PathWeightSnoc(g, [Root], Qubit01SpectroscopyPulsed);
    PathWeightSnoc(g, [Root, Qubit01SpectroscopyPulsed], RabiOscillations);
    PathWeightSnoc(g, [Root], Qubit01SpectroscopyMultidim);
    PathWeightSnoc(g, [Root, Qubit01SpectroscopyMultidim], RabiOscillations);
    assert [Root] + [Qubit01SpectroscopyPulsed] == [Root, Qubit01SpectroscopyPulsed];
    assert [Root, Qubit01SpectroscopyPulsed] + [RabiOscillations] == [Root, Qubit01SpectroscopyPulsed, RabiOscillations];
    assert [Root] + [Qubit01SpectroscopyMultidim] == [Root, Qubit01SpectroscopyMultidim];
    assert [Root, Qubit01SpectroscopyMultidim] + [RabiOscillations] == [Root, Qubit01SpectroscopyMultidim, RabiOscillations];
  }

  /** The nodes of the pulsed root path carry no type. */
  lemma PulsedPathUntyped(g: Graph<Node>, order: seq<Node>)
    requires BuiltShape(g) && order == [Root, Qubit01SpectroscopyPulsed, RabiOscillations]
    ensures FilterOrder(g, order, "none") == order
  {
    assert forall i :: 0 <= i < |order| ==> order[i] !in Types();
    FilterUntyped(g, order, "none");
  }

  /** The pulsed root path into 'rabi_oscillations' exists. */
  lemma PulsedPath(g: Graph<Node>)
    requires BuiltShape(g)
    ensures PathFrom(g, [Root, Qubit01SpectroscopyPulsed, RabiOscillations], Root, RabiOscillations)
  {
    var pulsed := [Root, Qubit01SpectroscopyPulsed, RabiOscillations];
    assert HasEdge(g, pulsed[0], pulsed[1]);
    assert HasEdge(g, pulsed[1], pulsed[2]);
  }

  /** The weights make the pulsed spectroscopy the only minimum-weight way
      to 'rabi_oscillations'. */
  lemma ShapeRabiShortest(g: Graph<Node>, p: seq<Node>)
    requires BuiltShape(g) && IsShortestPath(g, p, Root, RabiOscillations)
    ensures p == [Root, Qubit01SpectroscopyPulsed, RabiOscillations]
  {
    PulsedPath(g);
    RabiPathWeights(g);
    RootPathsIntoRabi(g, p);
  }

  lemma ShapeRabiOrder(g: Graph<Node>)
    requires BuiltShape(g)
    ensures Resolve(g, RabiOscillations) == Ok([ResonatorSpectroscopy, Qubit01SpectroscopyPulsed, RabiOscillations])
  {
    PredecessorsRanked();
    PredecessorsAcyclic(g, Predecessors, Rank);
    ResolveCorrect(g, RabiOscillations);
    PulsedPath(g);
    var p :| IsShortestPath(g, p, Root, RabiOscillations) && Resolve(g, RabiOscillations).value == FilterOrder(g, p, "none");
    ShapeRabiShortest(g, p);
    PulsedPathUntyped(g, p);
  }

  /** Every minimum-weight root path into 'ramsey_correction' runs through
      the pulsed spectroscopy and 'rabi_oscillations'. */
  lemma ShapeRamseyShortest(g: Graph<Node>, p: seq<Node>)
    requires BuiltShape(g) && IsShortestPath(g, p, Root, RamseyCorrection)
    ensures p == [Root, Qubit01SpectroscopyPulsed, RabiOscillations, RamseyCorrection]
  {
    var pulsed := [Root, Qubit01SpectroscopyPulsed, RabiOscillations];
    PulsedPath(g);
    RabiPathWeights(g);
    assert HasEdge(g, RabiOscillations, RamseyCorrection);
    SnocPath(g, pulsed, Root, RabiOscillations, RamseyCorrection);
    ShapeWeight(g, RabiOscillations, RamseyCorrection);
    var n := |p|;
    assert HasEdge(g, p[n - 2], p[n - 1]);
    PrefixPath(g, p, Root, RamseyCorrection);
    var front := p[..n - 1];
    RootPathsIntoRabi(g, front);
    var multidim := [Root, Qubit01SpectroscopyMultidim, RabiOscillations];
    PathWeightSnoc(g, front, RamseyCorrection);
    PathWeightSnoc(g, pulsed, RamseyCorrection);
    assert p == front + [RamseyCorrection];
  }

  /** 'ramsey_correction' is dropped from its own order by the 'none' filter. */
  lemma ShapeRamseyOrder(g: Graph<Node>)
    requires BuiltShape(g)
    ensures Resolve(g, RamseyCorrection) == Ok([ResonatorSpectroscopy, Qubit01SpectroscopyPulsed, RabiOscillations])
  {
    PredecessorsRanked();
    PredecessorsAcyclic(g, Predecessors, Rank);
    ResolveCorrect(g, RamseyCorrection);
    RamseyReachable(g);
    assert PathFrom(g, [Root, Qubit01SpectroscopyPulsed, RabiOscillations, RamseyCorrection], Root, RamseyCorrection);
    var p :| IsShortestPath(g, p, Root, RamseyCorrection) && Resolve(g, RamseyCorrection).value == FilterOrder(g, p, "none");
    ShapeRamseyShortest(g, p);
    RamseyPathFiltered(g);
  }

  /** 'ramsey_correction' is reached through the pulsed spectroscopy and Rabi. */
  lemma RamseyReachable(g: Graph<Node>)
    requires BuiltShape(g)
    ensures PathFrom(g, [Root, Qubit01SpectroscopyPulsed, RabiOscillations, RamseyCorrection], Root, RamseyCorrection)
  {
    var pulsed := [Root, Qubit01SpectroscopyPulsed, RabiOscillations];
    PulsedPath(g);
    assert HasEdge(g, RabiOscillations, RamseyCorrection);
    SnocPath(g, pulsed, Root, RabiOscillations, RamseyCorrection);
    assert pulsed + [RamseyCorrection] == [Root, Qubit01SpectroscopyPulsed, RabiOscillations, RamseyCorrection];
  }

  /** The 'none' filter keeps the pulsed path and drops the 'refine' target. */
  lemma RamseyPathFiltered(g: Graph<Node>)
    requires BuiltShape(g)
    ensures FilterOrder(g, [Root, Qubit01SpectroscopyPulsed, RabiOscillations, RamseyCorrection], "none")
         == [Root, Qubit01SpectroscopyPulsed, RabiOscillations]
  {
    var pulsed := [Root, Qubit01SpectroscopyPulsed, RabiOscillations];
    assert pulsed + [RamseyCorrection] == [Root, Qubit01SpectroscopyPulsed, RabiOscillations, RamseyCorrection];
    FilterOrderAppend(g, pulsed, [RamseyCorrection], "none");
    PulsedPathUntyped(g, pulsed);
    assert RamseyCorrection in g.types;
    RefineNotInNone();
  }

  /** `filtered_topological_order('ramsey_correction')` leaves out the target. */
  lemma RamseyOrder()
    ensures Resolve(Built(), RamseyCorrection) == Ok([ResonatorSpectroscopy, Qubit01SpectroscopyPulsed, RabiOscillations])
  {
    BuiltHasShape();
    ShapeRamseyOrder(Built());
  }

  /** 'tof' precedes the root, so it cannot be resolved. */
  lemma TofUnreachable()
    ensures Resolve(Built(), Tof) == Err(NoPath)
  {
    var g := Built();
    BuiltHasShape();
    PredecessorsRanked();
    PredecessorsAcyclic(g, Predecessors, Rank);
    ResolveCorrect(g, Tof);
    forall q
      ensures !PathFrom(g, q, Root, Tof)
    {
      if IsPath(g, q) {
        SourceOnlyFirst(g, q, Tof);
      }
    }
  }

  lemma ShapePunchout(g: Graph<Node>)
    requires BuiltShape(g)
    ensures Resolve(g, Punchout) == Ok([Punchout])
  {
    assert Punchout !in g.types;
    FilterUntyped(g, [Punchout], "none");
  }

  /** 'punchout' resolves to itself. */
  lemma PunchoutOrder()
    ensures Resolve(Built(), Punchout) == Ok([Punchout])
  {
    BuiltHasShape();
    ShapePunchout(Built());
  }

  /** A name outside the graph raises NodeNotFound. */
  lemma UnknownTarget(target: Node)
    requires !InGraph(target)
    ensures Resolve(Built(), target) == Err(NodeNotFound)
  {
    BuiltHasShape();
    PredecessorsRanked();
    PredecessorsAcyclic(Built(), Predecessors, Rank);
    ResolveCorrect(Built(), target);
  }

  // ---------------------------------------------------------------------
  // `node_definitions` and the sample grids.

  /** One entry of `node_definitions`: the four keys every entry has. The
      measurement and analysis objects are classes, named here. */
  datatype Definition = Definition(
    redisField: string,
    qubitState: int,
    measurementObj: string,
    analysisObj: string)

  /** `node_definitions[name]`: KeyError for a name without an entry. */
  function NodeDefinition(n: Node): (r: Result<Definition>)
    ensures r.Ok? ==> r.value.qubitState in {0, 1, 2}
    ensures r.Err? ==> r.error == KeyError(Name(n))
  {
    match n
    case ResonatorSpectroscopy => Ok(Definition("ro_freq", 0, "Resonator_Spectroscopy", "ResonatorSpectroscopyAnalysis"))
    case Qubit01SpectroscopyPulsed => Ok(Definition("freq_01", 0, "Two_Tones_Spectroscopy", "QubitSpectroscopyAnalysis"))
    case RabiOscillations => Ok(Definition("mw_amp180", 0, "Rabi_Oscillations", "RabiAnalysis"))
    case RamseyCorrection => Ok(Definition("freq_01", 0, "Ramsey_fringes", "RamseyAnalysis"))
    case MotzoiParameter => Ok(Definition("mw_motzoi", 0, "Motzoi_parameter", "MotzoiAnalysis"))
    case ResonatorSpectroscopy1 => Ok(Definition("ro_freq_1", 1, "Resonator_Spectroscopy", "ResonatorSpectroscopy_1_Analysis"))
    case T1 => Ok(Definition("t1_time", 0, "T1_BATCHED", "T1Analysis"))
    case TwoToneMultidim => Ok(Definition("freq_01", 0, "Two_Tones_Multidim", "QubitSpectroscopyMultidim"))
    case Qubit12SpectroscopyPulsed => Ok(Definition("freq_12", 1, "Two_Tones_Spectroscopy", "QubitSpectroscopyAnalysis"))
    case RabiOscillations12 => Ok(Definition("mw_ef_amp180", 1, "Rabi_Oscillations", "RabiAnalysis"))
    case RamseyCorrection12 => Ok(Definition("freq_12", 1, "Ramsey_fringes", "RamseyAnalysis"))
    case ResonatorSpectroscopy2 => Ok(Definition("ro_freq_2", 2, "Resonator_Spectroscopy", "ResonatorSpectroscopy_2_Analysis"))
    case Punchout => Ok(Definition("ro_amp", 0, "Punchout", "PunchoutAnalysis"))
    case RoFrequencyOptimization => Ok(Definition("ro_freq_opt", 0, "RO_frequency_optimization", "OptimalROFrequencyAnalysis"))
    case RoFrequencyOptimizationGef => Ok(Definition("ro_freq_opt", 2, "RO_frequency_optimization", "OptimalROFrequencyAnalysis"))
    case RoAmplitudeOptimization => Ok(Definition("ro_pulse_amp_opt", 0, "RO_amplitude_optimization", "OptimalROAmplitudeAnalysis"))
    case StateDiscrimination => Ok(Definition("discriminator", 0, "Single_Shots_RO", "StateDiscrimination"))
    case CouplerSpectroscopy => Ok(Definition("", 0, "Two_Tones_Spectroscopy", "CouplerSpectroscopyAnalysis"))
    case _ => Err(KeyError(Name(n)))
  }

  /** The table has 18 entries; two graph nodes have none. */
  lemma DefinitionsCoverage(n: Node)
    ensures NodeDefinition(n).Ok? <==>
      !n.Other? && n != Tof && n != Qubit01SpectroscopyMultidim
  {
  }

  /** `qubit_samples(qubit, transition)`: 45 points around the qubit's
      frequency for the transition '01' or '12'; any other transition raises
      ValueError, a qubit missing from the frequency table KeyError. */
  function QubitSamples(vna01: map<string, Sample>, vna12: map<string, Sample>, qubit: string, transition: string): (r: Result<seq<Sample>>)
    ensures r.Ok? <==> (transition == "01" && qubit in vna01) || (transition == "12" && qubit in vna12)
    ensures r.Ok? ==> |r.value| == 45
    ensures transition != "01" && transition != "12" ==> r == Err(ValueError("Invalid transition"))
  {
    if transition == "01" then
      if qubit in vna01 then Ok(Grid(vna01[qubit], 45)) else Err(KeyError(qubit))
    else if transition == "12" then
      if qubit in vna12 then Ok(Grid(vna12[qubit], 45)) else Err(KeyError(qubit))
    else Err(ValueError("Invalid transition"))
  }

  /** `resonator_samples(qubit)`: 55 points around the resonator frequency. */
  function ResonatorSamples(vna: map<string, Sample>, qubit: string): (r: Result<seq<Sample>>)
    ensures r.Ok? <==> qubit in vna
    ensures r.Ok? ==> |r.value| == 55
  {
    if qubit in vna then Ok(Grid(vna[qubit], 55)) else Err(KeyError(qubit))
  }
}
