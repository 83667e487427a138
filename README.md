# Calibration orchestration of Tergite autocalibration, in Dafny

Tergite autocalibration calibrates a superconducting quantum chip node by
node. A calibration node, such as resonator spectroscopy, Rabi
oscillations or a CZ chevron, measures one sweep and fits from it the
quantities of interest (QOIs) it is responsible for. The orchestration
around the measurement and the fit decides:

- which nodes run, and in what order;
- how each node's raw acquisition becomes a labelled dataset;
- what the Redis parameter store holds before, during and after a node.

This project models that orchestration and proves what it promises. One
Dafny module per file covers one part of it:

- **Dependency graphs and resolvers** (`Graph`, `AclGraph`, `NodesGraph`).
  - The node graph is a weighted DAG. A missing weight counts as 1.
  - `filtered_topological_order` picks a minimal-weight path from
    'resonator_spectroscopy' to the target. It then filters the path by
    each node's 'type' attribute.
  - The tergite_acl version also prepends the coupler branch and removes
    'coupler_spectroscopy' from the module-level graph. The graph is a
    class whose methods change it in place.
- **Dataset configurator** (`Dicts`, `Dataset`, `ExecutionDataset`,
  `Layout`, `Reshuffle`, `Validators`).
  - Acquisition key `k` belongs to qubit `k mod n`.
  - A settable is scoped to a qubit, or to the one coupler that contains
    the qubit.
  - Flat data is reshaped by the reversed dimensions and then transposed.
  - The loop-reshuffle permutation and the axis moves of
    `tunneling_qubits` are modelled.
  - So are the batched-samplespace helpers.
- **Nodes** (`BaseNode`, `NodeSpecs`, `Characterization`, `CouplerNodes`,
  `CzChevron`, `CzAmplitude`).
  - Nodes are classes. A constructor assigns the node's `redis_fields`,
    states and samplespaces.
  - `dimensions` computes the shape of the node's dataset.
  - `calibrate` and `precompile` carry their mode short-cuts.
- **Parameter store** (`Store`, `Backup`, `ResetRedis`).
  - The store is a class holding one string hash per Redis key, with the
    "nan" sentinel for unknown values.
  - Calibration flags live in `cs:<element>` hashes.
  - Modelled operations: populate-if-absent, backup to `<field>_backup`,
    mark calibrated, and bulk reset.
- **Supervisors** (`Supervisor`, `TacSupervisor`, `NodeSupervisor`).
  - Store population and couplers built from adjacent qubits.
  - Status aggregation into in-spec, out-of-spec or an error.
  - Calibrating along the resolved order.
  - The user's samplespace override.
  - The loop over the external sweep, which fixes the reduced samplespace
    each measurement sees.
- **Workers** (`WorkersCompilation`, `AclCompilation`, `Analysis`,
  `WorkersPostProcessing`, `AclPostProcessing`, `TacAnalysis`).
  - Compilation reads the device from the store, with its NaN fallbacks,
    and merges the user's node dictionary.
  - Post-processing groups the data variables by qubit and routes each
    result to its qubit or coupler.
  - The analysis writes trusted values back to the store.
- **String utilities** (`Common`, `Parsers`, `Naming`).
  - Qubit lists are parsed with ranges.
  - Measurement ids and tuids are named, and the date key is read back
    from a dataset's file name.
  - Coupler names are split into their qubits.

How the model is written:

- Python exceptions are values of `Common.Error`, returned in a `Result`,
  so every error path of the code is part of a contract.
- Sample arrays are opaque sequences of tokens, and only their lengths and
  order matter.
- Collaborators the orchestration only calls are function parameters, and
  the model records what is passed to them. These are the fits, the
  measurement and the construction of schedules.

## Model

| member | source | states |
|---|---|---|
| Graph.ShortestPath | tergite_acl/lib/nodes/graph.py:422-424 | `nx.shortest_path(graph, s, t, weight='weight')`: NodeNotFound when either end is not a node; otherwise a result that starts at `s` and ends at `t` |
| Graph.ShortestPathCorrect | tergite_acl/lib/nodes/graph.py:422-424 | on an acyclic graph the result is a path of minimal total weight (a missing weight counts 1) exactly when some path exists, NoPath exactly when none does, NodeNotFound exactly when an end is missing |
| Graph.BestCorrect | tergite_acl/lib/nodes/graph.py:422-424 | the bounded search returns a path of at most k edges that is no heavier than any other such path, and none only when there is none |
| Graph.FewestEdges | tergite_acl/lib/nodes/graph.py:414 | the unweighted `nx.shortest_path` (no weight argument) returns a path with the fewest edges |
| Graph.AncestorQuery | tergite_acl/lib/nodes/graph.py:412-413 | `a in nx.ancestors(graph, t)` raises NodeNotFound exactly when `t` is not a node |
| Graph.AncestorQueryCorrect | tergite_acl/lib/nodes/graph.py:412-413 | for a node `t`, the answer is true iff some path leads from `a` to `t` |
| Graph.AddNode | tergite_acl/lib/nodes/graph.py:351-354 | `add_node` adds the node, replaces its type only when one is given, and keeps edges and weights |
| Graph.AddNodeNodes | tergite_acl/lib/nodes/graph.py:351-354 | after `add_node(n)` the node set is the old one plus `n` |
| Graph.RemoveNode | tergite_acl/lib/nodes/graph.py:415 | `remove_node` leaves no edge touching the node and removes it from the node set |
| Graph.RemoveNodePaths | tergite_acl/lib/nodes/graph.py:415 | every path of the reduced graph is a path of the original that avoids the removed node |
| Graph.RemoveNodeAcyclic | tergite_acl/lib/nodes/graph.py:415 | removing a node keeps the graph acyclic |
| Graph.FilterOrder | tergite_acl/lib/nodes/graph.py:426-433 | the filtered order is no longer than the order it filters |
| Graph.FilterOrderCorrect | tergite_acl/lib/nodes/graph.py:426-433 | the filter keeps a node iff it has no type or its type is a substring of the argument, and the result is an order-preserving subsequence |
| Graph.FilterOrderAppend | tergite_acl/lib/nodes/graph.py:433-434 | filtering distributes over concatenation |
| Graph.FilterUntyped | tergite_acl/lib/nodes/graph.py:426-429 | when no node of the order has a type, the filter changes nothing |
| Graph.DiGraph.constructor | tergite_acl/lib/nodes/graph.py:299 | a new DiGraph has no edges, nodes, weights or types |
| Graph.DiGraph.AddEdgesFrom | tergite_acl/lib/nodes/graph.py:348 | `add_edges_from` appends the listed edges and changes nothing else |
| Graph.DiGraph.AddNodeWith | tergite_acl/lib/nodes/graph.py:351-354 | `add_node` on the object is `AddNode` on its value |
| Graph.DiGraph.SetEdgeWeight | tergite_acl/lib/nodes/graph.py:370-371 | `graph[u][v]['weight'] = w` sets the weight of an existing edge, and raises KeyError and changes nothing when the edge is missing |
| Graph.DiGraph.RemoveNodeFrom | tergite_acl/lib/nodes/graph.py:415 | `graph.remove_node(n)` is `RemoveNode` on the value, and raises NetworkXError with nothing changed when `n` is not a node |
| Graph.RankedIsAcyclic | tergite_acl/lib/nodes/graph.py:299-346 | a graph with a rank that grows along every edge is acyclic |
| AclGraph.BuildGraphFrom | tergite_acl/lib/nodes/graph.py:348-371 | the import-time statements give the listed edges, the nodes 'tof' (type 'refine'), 'punchout' and 'qubit_01_spectroscopy', and weight 1 on the resonator_spectroscopy_1 → qubit_12_spectroscopy edge; a KeyError iff that edge is missing |
| AclGraph.BuildGraph | tergite_acl/lib/nodes/graph.py:299-371 | the module-level graph is the built graph `Built()` |
| AclGraph.FilteredTopologicalOrder | tergite_acl/lib/nodes/graph.py:411-437 | the result and the graph left behind are those of `Resolve` on the old graph |
| AclGraph.ResolveWithoutCoupler | tergite_acl/lib/nodes/graph.py:411-437 | without the coupler branch: NodeNotFound for a missing name; the graph is unchanged; 'punchout' gives the filtered ['punchout']; any other target succeeds iff it is reachable from 'resonator_spectroscopy', and the result is a filtered minimum-weight path |
| AclGraph.ResolveWithCoupler | tergite_acl/lib/nodes/graph.py:412-418 | with 'coupler_spectroscopy' an ancestor: an error with the graph unchanged if it is unreachable; otherwise the result starts with a fewest-edges root path to it, and the node is removed from the graph |
| AclGraph.NotIdempotent | tergite_acl/lib/nodes/graph.py:413-415 | after a successful coupler-branch call, the result contains 'coupler_spectroscopy', a second call cannot contain it, and so the two results differ |
| AclGraph.BuiltEdge | tergite_acl/lib/nodes/graph.py:299-346 | an edge of the built graph is exactly an entry of the predecessor table |
| AclGraph.BuiltNodes | tergite_acl/lib/nodes/graph.py:299-354 | the nodes of the built graph are exactly the named nodes |
| AclGraph.BuiltAcyclic | tergite_acl/lib/nodes/graph.py:299-346 | the built graph has no cycle |
| AclGraph.CouplerBranchDormant | tergite_acl/lib/nodes/graph.py:306 | 'coupler_spectroscopy' has no successor, so it is an ancestor of no target, and the call leaves the graph unchanged |
| AclGraph.RefineKeepsAll | tergite_acl/lib/nodes/graph.py:351 | the only type present is 'refine', so the 'refine' filter keeps every node of any order |
| AclGraph.RabiOrder | tergite_acl/lib/nodes/graph.py:307-309 | 'rabi_oscillations' resolves to ['resonator_spectroscopy', 'qubit_01_spectroscopy', 'rabi_oscillations'] and leaves the graph unchanged |
| AclGraph.NRabiUnreachable | tergite_acl/lib/nodes/graph.py:314-316 | 'n_rabi_oscillations' is unreachable from the root, so resolving it raises NoPath |
| AclGraph.PunchoutOrder | tergite_acl/lib/nodes/graph.py:419-420 | 'punchout' resolves to ['punchout'] |
| AclGraph.UnknownTarget | tergite_acl/lib/nodes/graph.py:412 | a name that is not a node raises NodeNotFound at the ancestors query, with the graph unchanged |
| NodesGraph.BuildGraphFrom | nodes/node.py:65-79 | from an edge list: those edges, 'refine' on the five typed nodes, and weights 1 and 2 on the two spectroscopy edges; a KeyError iff either weighted edge is missing |
| NodesGraph.BuildGraph | nodes/node.py:47-79 | the module-level graph is `Built()` |
| NodesGraph.ResolveCorrect | nodes/node.py:84-100 | on an acyclic graph: 'punchout' gives the filtered ['punchout']; any other target succeeds iff it is reachable from 'resonator_spectroscopy', and the result is a minimum-weight root path filtered with 'none' |
| NodesGraph.NoneDropsTyped | nodes/node.py:92-99 | when every type is 'refine', the 'none' filter keeps exactly the untyped nodes, in their order |
| NodesGraph.BuiltEdge | nodes/node.py:47-65 | an edge of the built graph is exactly an entry of the predecessor table |
| NodesGraph.BuiltNodes | nodes/node.py:47-75 | the nodes of the built graph are exactly the graph's named nodes |
| NodesGraph.BuiltAcyclic | nodes/node.py:81 | the built graph is acyclic, so the import-time `topological_sort` succeeds |
| NodesGraph.ShapeRabiShortest | nodes/node.py:78-79 | the weights make [resonator_spectroscopy, qubit_01_spectroscopy_pulsed, rabi_oscillations] the only minimum-weight path to 'rabi_oscillations' |
| NodesGraph.ShapeRabiOrder | nodes/node.py:84-100 | 'rabi_oscillations' resolves through the pulsed spectroscopy, on any graph with the built shape |
| NodesGraph.RamseyOrder | nodes/node.py:72 | 'ramsey_correction' has type 'refine', so the 'none' filter drops the target from its own order |
| NodesGraph.TofUnreachable | nodes/node.py:48 | 'tof' comes before the root, so resolving it raises NoPath |
| NodesGraph.PunchoutOrder | nodes/node.py:85-86 | 'punchout' resolves to ['punchout'] |
| NodesGraph.UnknownTarget | nodes/node.py:88-90 | a name outside the graph raises NodeNotFound |
| NodesGraph.NodeDefinition | nodes/node.py:210-319 | `node_definitions[name]`: each entry's qubit state is 0, 1 or 2; a KeyError names the missing node |
| NodesGraph.DefinitionsCoverage | nodes/node.py:210-319 | the table has an entry for every graph node except 'tof' and 'qubit_01_spectroscopy_multidim' |
| NodesGraph.QubitSamples | nodes/node.py:112-124 | succeeds iff the transition is '01' or '12' and the qubit is in that frequency table; 45 points; ValueError('Invalid transition') for any other transition |
| NodesGraph.ResonatorSamples | nodes/node.py:103-109 | succeeds iff the qubit has a resonator frequency, with 55 points |
| Common.RangeSpec | tergite_autocalibration/lib/nodes/coupler/cz_amplitude/node.py:33 | `np.arange(start, stop, step)` on integers: the i-th value is start + i·step, every value lies before `stop` in the direction of the step, and one step more would not |
| Common.RangeLength | tergite_autocalibration/lib/nodes/coupler/cz_amplitude/node.py:33 | an upward range whose stop is n steps past its start has n values |
| Common.IsSubstring | tergite_acl/lib/nodes/graph.py:430 | Python's `sub in s` holds iff `sub` occurs at some position of `s` |
| Common.FirstIndexOf | tergite_autocalibration/lib/nodes/coupler_nodes.py:166 | the position of the first separator, or the length when there is none |
| Common.Split | tergite_autocalibration/lib/nodes/coupler_nodes.py:166 | `s.split(c)` always returns at least one part |
| Common.SplitPartsAvoidSeparator | tergite_autocalibration/lib/nodes/coupler_nodes.py:166 | no part of `s.split(c)` contains `c` |
| Common.JoinSplit | tergite_autocalibration/lib/nodes/coupler_nodes.py:166 | `c.join(s.split(c)) == s` |
| Common.SplitJoin | tergite_autocalibration/lib/nodes/coupler_nodes.py:166 | splitting a join of separator-free parts gives back the parts |
| Common.SplitMax | tergite_autocalibration/utils/io/load_dataset.py:22 | `s.split(c, maxsplit)` returns between 1 and maxsplit + 1 parts |
| Common.SplitMaxAgrees | tergite_autocalibration/utils/io/load_dataset.py:22 | when no more than `maxsplit` cuts are needed, `split(c, maxsplit)` equals `split(c)` |
| Common.ElementsCount | tergite_autocalibration/lib/nodes/coupler_nodes.py:167 | `len(set(xs)) <= len(xs)`, with equality iff no element repeats |
| Common.FlattenAppend | tergite_autocalibration/lib/nodes/coupler_nodes.py:139 | flattening one more list appends that list |
| Common.InFlatten | tergite_autocalibration/lib/nodes/coupler_nodes.py:139 | an element is in the flattening iff it is in one of the lists |
| Common.ParseInt | tergite_autocalibration/utils/io/load_dataset.py:23 | `int(s)` on decimal text succeeds iff `s` is non-empty and all digits, and gives the digits' value |
| Common.NatToString | tergite_autocalibration/tools/cli/config/parsers.py:35 | `str(n)` is a non-empty digit string |
| Common.NatToStringRoundTrip | tergite_autocalibration/tools/cli/config/parsers.py:35 | reading `str(n)` back gives `n` |
| Common.Pad2 | tergite_autocalibration/tools/cli/config/parsers.py:35 | `f"{n:02}"` has at least two digits |
| Common.Pad2RoundTrip | tergite_autocalibration/tools/cli/config/parsers.py:35 | reading `f"{n:02}"` back gives `n` |
| Common.EnumerateSpec | tergite_acl/functions/compilation_worker.py:112-116 | a loop over `enumerate(xs)` whose steps may raise succeeds iff every step succeeds, and then holds every step's result in order |
| Common.EnumeratePrefix | tergite_acl/functions/compilation_worker.py:112-116 | the first failing step ends the loop with that failure |
| Dicts.Keys | tergite_acl/utils/dataset_utils.py:30 | `d.keys()` lists the keys in insertion order |
| Dicts.IndexOf | tergite_acl/utils/dataset_utils.py:30 | the position of a present key is its first occurrence |
| Dicts.Lookup | workers/compilation_worker.py:136-146 | `d.get(k)` is present iff `k` is a key |
| Dicts.PutValid | workers/compilation_worker.py:136-146 | `d[k] = v` keeps the keys distinct |
| Dicts.PutHas | workers/compilation_worker.py:136-146 | after `d[k] = v` the keys are the old keys and `k` |
| Dicts.PutGet | workers/compilation_worker.py:136-146 | after `d[k] = v`, `d[k]` is `v` and every other key keeps its value |
| Dicts.SnocGet | tergite_acl/utils/dataset_utils.py:30 | reading a dict that gained one entry at the end |
| Dicts.PutKeepsKeys | workers/compilation_worker.py:136-146 | overwriting an existing key keeps the key order |
| Dicts.MergeValid | tergite_acl/utils/dataset_utils.py:28 | the union of two dicts with distinct keys has distinct keys |
| Dicts.MergeHas | tergite_acl/utils/dataset_utils.py:28 | the keys of the dict union of `a` and `b` are those of either side |
| Dicts.MergeGet | tergite_acl/utils/dataset_utils.py:28 | in the dict union of `a` and `b` a key of `b` takes `b`'s value and any other key keeps `a`'s |
| Dicts.ComprehensionSpec | tergite_autocalibration/lib/nodes/coupler/cz_amplitude/node.py:33 | `{k: f(k) for k in ks}` holds exactly the listed keys, each with its value, and starts with the first |
| Layout.Reverse | tergite_acl/lib/nodes/graph.py:93 | `reversed(dims)` lists the same entries back to front |
| Layout.ReverseReverse | tergite_acl/lib/nodes/graph.py:93-95 | reversing twice gives back the sequence |
| Layout.ProductReverse | tergite_acl/lib/nodes/graph.py:93-94 | reversing the dimensions keeps their product, the size of the array |
| Layout.CIndex | tergite_acl/lib/nodes/graph.py:94 | numpy's row-major offset of an in-bounds index lies within the array |
| Layout.FIndex | tergite_acl/lib/nodes/graph.py:93-95 | the first-axis-fastest offset of an in-bounds index lies within the array |
| Layout.CIndexReverse | tergite_acl/lib/nodes/graph.py:93-95 | the row-major offset over reversed axes is the first-axis-fastest offset over the axes themselves |
| Layout.CUnflatten | tergite_acl/lib/nodes/graph.py:94 | every offset within the array is the row-major offset of an in-bounds index |
| Layout.UnflattenIndex | tergite_acl/lib/nodes/graph.py:94 | unflattening the offset of an index gives back the index |
| Layout.CIndexInjective | tergite_acl/lib/nodes/graph.py:94 | distinct in-bounds indices have distinct offsets |
| Layout.Reshape | tergite_acl/lib/nodes/graph.py:94 | `flat.reshape(*shape)` succeeds iff the length is the product of the shape, keeping the data; otherwise a ValueError |
| Layout.Transpose | tergite_acl/lib/nodes/graph.py:95 | `np.transpose` reverses the shape |
| Layout.TransposeGet | tergite_acl/lib/nodes/graph.py:95 | element `idx` of the transpose is element `reversed(idx)` of the input |
| Layout.ReshapeTransposeLaw | tergite_acl/lib/nodes/graph.py:93-95 | reshaping by the reversed dimensions and transposing gives an array of shape `dims` whose entry (i0, …, ik) is `flat[i0 + d0·(i1 + d1·(…))]`: the first dimension varies fastest |
| Layout.ReshapeMismatch | tergite_acl/lib/nodes/graph.py:94 | a flat length other than the product of the dimensions raises ValueError |
| Layout.Block | tergite_acl/lib/nodes/graph.py:290 | `a[q]` has the shape without its leading axis |
| Layout.BlockGet | tergite_acl/lib/nodes/graph.py:290 | element `idx` of `a[q]` is element (q, idx) of `a` |
| Layout.GetAt | tergite_acl/lib/nodes/graph.py:94 | an element of an array is read at the row-major offset of its index |
| Layout.Tunneling | tergite_acl/utils/dataset_utils.py:197-208 | `tunneling_qubits` raises IndexError on a 0-d array; a leading axis of size 1 is dropped and the rest reversed; otherwise axis 0 is kept and the others reversed |
| Layout.TunnelingSingle | tergite_acl/utils/dataset_utils.py:198-203 | with one qubit, element `idx` of the result is element (0, reversed idx) of the input |
| Layout.TunnelingMultiData | tergite_acl/utils/dataset_utils.py:204-208 | with several qubits, block q of the result is the transposed block q of the input |
| Layout.TunnelingMultiBlock | tergite_acl/utils/dataset_utils.py:204-208 | element (q, idx) of the result is element idx of the transposed block q |
| Layout.TunnelingMulti | tergite_acl/utils/dataset_utils.py:204-208 | with several qubits, element (q, idx) of the result is element (q, reversed idx) of the input |
| Reshuffle.LastWriter | tergite_acl/lib/nodes/graph.py:219-225 | the last of the first k measurements written to a position is the latest one whose new index is that position, and none means no such write |
| Reshuffle.Reshuffled | tergite_acl/lib/nodes/graph.py:211-227 | the reshuffled acquisition has the input's length: the final reshape is discarded, so the result is always flat |
| Reshuffle.ReshuffleLoop | tergite_acl/lib/nodes/graph.py:211-227 | the loop writing `out[new(i)] = in[i]` computes `Reshuffled`, with S the number of distinct states |
| Reshuffle.NewIndexInRange | tergite_acl/lib/nodes/graph.py:220-224 | for i < A·S·loops, `new(i)` is below A·S·loops and the loop-major source index of `new(i)` is i |
| Reshuffle.SourceIndexInRange | tergite_acl/lib/nodes/graph.py:220-224 | the source index of every position is in range and `new` maps it back to the position |
| Reshuffle.FullBlocksInRange | tergite_acl/lib/nodes/graph.py:220-225 | with a length of A·S·loops every write lands inside the array |
| Reshuffle.FullBlocksPermute | tergite_acl/lib/nodes/graph.py:219-225 | with A·S·loops measurements, every cell receives exactly one measurement and none is lost |
| Reshuffle.ReshufflePermutation | tergite_acl/utils/dataset_utils.py:114-130 | with a length of A·S·loops the reshuffle succeeds, moves measurement i to `new(i)`, fills cell j from its source index, and is a permutation of [0, N) |
| Reshuffle.ReshuffleExample | tergite_acl/lib/nodes/graph.py:220-224 | for A = 3, S = 2, loops = 2 the source indices are [0,1,6,7,2,3,8,9,4,5,10,11] |
| Reshuffle.ReshuffleExampleResult | tergite_acl/lib/nodes/graph.py:211-227 | the acquisition [0..11] with A = 3, S = 2, loops = 2 becomes [0,1,6,7,2,3,8,9,4,5,10,11] |
| Dataset.MatchingSpec | tergite_acl/lib/nodes/graph.py:54 | the matching elements are exactly those containing the qubit's name |
| Dataset.ScopeSpec | tergite_acl/lib/nodes/graph.py:50-59 | the qubit itself when it is an element; otherwise only the unique matching element, which must contain '_'; anything else raises ValueError |
| Dataset.ScopeFindsCoupler | tergite_acl/utils/dataset_utils.py:49-53 | among distinct elements, the unique coupler containing the qubit's name is found |
| Dataset.MatchingNone | workers/dataset_utils.py:52 | with no element containing the qubit, nothing matches |
| Dataset.MatchingSingle | workers/dataset_utils.py:52 | with exactly one element containing the qubit, the match is that element |
| Dataset.CoordValues | tergite_acl/utils/dataset_utils.py:66-67 | a swept settable gives its values; a scalar becomes a length-1 coordinate where the copy wraps it, and is refused as a coordinate where it does not |
| Dataset.CoordsUpToOk | tergite_acl/lib/nodes/graph.py:44-70 | building the coordinates fails exactly when some quantity fails |
| Dataset.CoordsUpToContent | tergite_acl/lib/nodes/graph.py:61-70 | every quantity has its coordinate `quantity + element`, holding its values unless a later quantity makes the same name |
| Dataset.CoordsValid | tergite_acl/lib/nodes/graph.py:41-70 | the coordinate names are distinct |
| Dataset.BuildCoords | workers/dataset_utils.py:39-68 | the inner loop computes the coordinates of the key's qubit, then the external coordinate |
| Dataset.ScopeQuantities | tergite_acl/lib/nodes/graph.py:44-70 | the loop over quantities computes the fold `CoordsUpTo` over all of them |
| Dataset.CoordsOneStep | tergite_acl/lib/nodes/graph.py:44-70 | one quantity adds its coordinate or ends the loop with its error |
| Dataset.CoordsErrStays | tergite_acl/lib/nodes/graph.py:59 | the first quantity that raises decides the outcome |
| Dataset.KeyQubit | tergite_acl/lib/nodes/graph.py:39-42 | key k is measured on `all_qubits[k % n]`; with no qubits the modulo raises ZeroDivisionError |
| Dataset.KeyState | tergite_acl/lib/nodes/graph.py:101-103 | the frequency-optimisation state is `[0,1,2][k // n]`: defined iff k < 3n, otherwise IndexError |
| Dataset.LayOut | tergite_acl/lib/nodes/graph.py:93-106 | laying out succeeds iff the length is the product of the dimensions and each coordinate has its dimension's length; the array has shape `dimensions`; otherwise ValueError |
| Dataset.LayOutLaw | tergite_acl/utils/dataset_utils.py:88-102 | element (i0..ik) of the stored variable is acquisition i0 + d0·(i1 + d1·(…)) |
| Dataset.GraphOptions | tergite_acl/lib/nodes/graph.py:30-106 | the graph.py copy uses the node's samplespace, its externals, state suffixes for the frequency-optimisation nodes and the reshuffle for the amplitude ones |
| Dataset.AclOptions | tergite_acl/utils/dataset_utils.py:25-102 | the utils copy uses schedule ∪ reduced external, no external coordinate or suffix, wraps scalars, and reshuffles the amplitude-optimisation nodes |
| Dataset.WorkerOptions | workers/dataset_utils.py:22-84 | the workers copy merges the spi samplespace when present, adds the external coordinate, and adds state suffixes iff 'ro_opt_frequencies' is swept |
| Dataset.AclSamplespaceMerge | tergite_acl/utils/dataset_utils.py:25-28 | in schedule ∪ external, an external quantity replaces the schedule's quantity of the same name, and every other quantity is kept |
| Dataset.WorkerSpiMerge | workers/dataset_utils.py:24-27 | the spi samplespace wins over the node's samplespace on a clash |
| Dataset.ScanFrom | tergite_acl/lib/nodes/graph.py:83-87 | the coordinate scan never forgets amplitudes or states it has found |
| Dataset.ScanFinds | tergite_acl/lib/nodes/graph.py:84-85 | a coordinate naming the measured qubit and 'ro_amplitudes' is found by the scan |
| Dataset.Reordered | tergite_acl/lib/nodes/graph.py:81-88 | without the reshuffle, the acquisition is passed on unchanged |
| Dataset.KeyStepSpec | tergite_acl/lib/nodes/graph.py:38-106 | a key that succeeds is laid out on qubit `all_qubits[k % n]`, with suffix `k // n` exactly when suffixes are on, named `y<q><state>`, with the qubit's coordinates as its axes and element idx = flat[FIndex(dims, idx)] |
| Dataset.ConfigureDataset | tergite_acl/lib/nodes/graph.py:20-106 | the loop over keys computes `Configure`, the fold of the key step |
| Dataset.ConfigureKey | tergite_acl/lib/nodes/graph.py:39-106 | the body of the loop computes the key step |
| Dataset.LayOutKey | tergite_acl/lib/nodes/graph.py:81-106 | reordering, reshaping and naming one key's variable computes `KeyVariable` |
| Dataset.Reorder | tergite_acl/lib/nodes/graph.py:81-88 | the amplitude branch computes `Reordered` |
| Dataset.Scan | tergite_acl/lib/nodes/graph.py:83-87 | the scan loop computes `ScanFrom` |
| Dataset.KeyFails | tergite_acl/lib/nodes/graph.py:59 | a key that raises makes `configure_dataset` raise that error |
| Dataset.AccumulateOneOk | tergite_acl/lib/nodes/graph.py:77-103 | a successful key merges its coordinates and adds its variable to the dataset |
| Dataset.AccumulateOneFails | tergite_acl/lib/nodes/graph.py:59 | a failing key's error is the result |
| Dataset.AccumulateErrStays | tergite_acl/lib/nodes/graph.py:38-106 | once raised, an error is the outcome |
| Dataset.AccumulateVariables | tergite_acl/lib/nodes/graph.py:103 | every key's variable is in the dataset, holding its value unless a later key has the same name |
| Dataset.AccumulateValid | tergite_acl/lib/nodes/graph.py:103 | the variable names of the dataset are distinct |
| ExecutionDataset.InsertByKey | workers/execution_worker.py:38 | inserting one key into a list adds one entry |
| ExecutionDataset.SortByKey | workers/execution_worker.py:38 | sorting keeps the number of keys |
| ExecutionDataset.InsertByKeySpec | workers/execution_worker.py:38 | inserting into a sorted list keeps it sorted and adds exactly that entry |
| ExecutionDataset.InsertByKeyAbove | workers/execution_worker.py:38 | inserting a key above a lower bound keeps every key above it |
| ExecutionDataset.InsertByKeyMultiset | workers/execution_worker.py:38 | inserting adds the one entry and keeps the others |
| ExecutionDataset.SortByKeySpec | workers/execution_worker.py:38 | `sorted(keys)` orders the acquisitions by key and is a permutation of them |
| ExecutionDataset.RealPart | workers/execution_worker.py:54 | `.real` keeps the shape and the number of elements |
| ExecutionDataset.ImagPart | workers/execution_worker.py:55 | `.imag` keeps the shape and the number of elements |
| ExecutionDataset.QubitCoordsOk | workers/execution_worker.py:47-49 | the coordinates of a qubit exist iff every quantity has that qubit, else KeyError |
| ExecutionDataset.SweepLengthsSpec | workers/execution_worker.py:51 | the per-quantity lengths of the qubit's sweeps, in order; they fail exactly on a scalar sweep |
| ExecutionDataset.KeyElement | workers/execution_worker.py:40-41 | key k names `qubits[k]` of the first quantity directly, with no modulo: an IndexError past the end |
| ExecutionDataset.IQKeySpec | workers/execution_worker.py:44-55 | a key succeeds iff its qubit exists, every quantity sweeps it, there is a first row and its length is the product of the lengths; a quantity without the qubit is a KeyError, then a scalar sweep is the ValueError of `xarray.Dataset(coords=...)`; both variables carry the qubit and the shape of the lengths |
| ExecutionDataset.IQKeyLaw | workers/execution_worker.py:51-55 | element idx of `y<q>_real` and `y<q>_imag` is the real and imaginary part of `values[0][i0 + d0·(i1 + …)]` |
| ExecutionDataset.PartsLaw | workers/execution_worker.py:52-55 | reshaping by the reversed lengths and transposing, then splitting the parts, puts element idx at the first-axis-fastest offset |
| ExecutionDataset.ConfigureIQ | workers/execution_worker.py:30-57 | `configure_dataset` computes `IQConfigure`: sorted keys, one step per key |
| ExecutionDataset.IQOneOk | workers/execution_worker.py:54-56 | a successful key merges its coordinates and adds exactly `y<q>_real` and `y<q>_imag` |
| ExecutionDataset.IQFails | workers/execution_worker.py:44-56 | a failing key makes the whole call fail with its error |
| ExecutionDataset.IQOneFails | workers/execution_worker.py:44-56 | one failing step ends the fold with its error |
| ExecutionDataset.IQErrStays | workers/execution_worker.py:44-56 | once raised, an error is the outcome |
| ExecutionDataset.IQUpToVariables | workers/execution_worker.py:54-56 | every key processed has left both of its variables |
| ExecutionDataset.ConfigureIQVariables | workers/execution_worker.py:40-56 | in a configured dataset, every key indexes an element of the first quantity, and that element has both variables |
| ExecutionDataset.Combine | workers/execution_worker.py:75 | `real + 1j*imag` succeeds iff the shapes agree, and combines the parts elementwise |
| ExecutionDataset.ComplexNameInjective | workers/execution_worker.py:76 | distinct qubits give distinct `y<q>` names |
| ExecutionDataset.ToComplexDataset | workers/execution_worker.py:59-78 | `to_complex_dataset` computes `ToComplex` |
| ExecutionDataset.ComplexFails | workers/execution_worker.py:62-76 | a failing turn makes the conversion fail with its error |
| ExecutionDataset.ComplexErrStays | workers/execution_worker.py:62-76 | once raised, an error is the outcome |
| ExecutionDataset.ComplexParts | workers/execution_worker.py:65-71 | the loop keeps exactly the latest real and imaginary part of each qubit, a name containing 'real' counting as real before the 'imag' test |
| ExecutionDataset.CompleteStays | workers/execution_worker.py:73 | once a qubit has both parts, it keeps both |
| ExecutionDataset.ComplexStep | workers/execution_worker.py:62-76 | each turn writes `y<q>` for the turn's qubit iff it has both parts, and otherwise changes nothing |
| ExecutionDataset.ComplexContent | workers/execution_worker.py:59-78 | the result holds `y<q>` iff the qubit has both a real and an imaginary part, made of the latest of each, on the coordinates of `y<q>_real` |
| ExecutionDataset.ComplexOneStep | workers/execution_worker.py:62-76 | the first k turns succeed iff the first k-1 do and turn k can go on |
| ExecutionDataset.ComplexUpToOk | workers/execution_worker.py:62-76 | the conversion succeeds iff every turn can go on |
| ExecutionDataset.DummyAcquisitionsSpec | workers/execution_worker.py:101-103 | the dummy acquisition count exists iff every quantity's first element sweeps an array, and is then the product of those lengths; the first quantity that is empty (IndexError) or scalar (TypeError) decides the error |
| ExecutionDataset.DummyFitsReshape | workers/execution_worker.py:101-103 | in dummy mode the number of acquisitions is the product of the first element's sweep lengths, which is what a qubit with equally long sweeps needs for its reshape |
| BaseNode.RedisFields | tergite_autocalibration/lib/base/node.py:80-89 | `qubit_qois` alone, `qubit_qois + coupler_qois` when both, `coupler_qois` alone, and a ValueError exactly when neither is set |
| BaseNode.PerQubitShape | tergite_autocalibration/lib/nodes/readout/resonator_spectroscopy/node.py:32-36 | `{q: sweep for q in qubits}` gives every listed qubit the sweep, first qubit first |
| BaseNode.BaseNode.constructor | tergite_autocalibration/lib/base/node.py:54-78 | the defaults after `__init__`: backup False, qubit state 0, one plot per qubit, 'Single_Qubits', loops None, empty samplespaces, and `samplespace` frozen as the union of two empty dicts |
| BaseNode.BaseNode.Coupled | tergite_autocalibration/lib/base/node.py:54-78 | the base defaults, with the couplers, the first coupler, `redis_field` and the schedule a coupler subclass assigns afterwards |
| BaseNode.BaseNode.Create | tergite_autocalibration/lib/base/node.py:54-89 | construction fails with the ValueError of `RedisFields` exactly when there are no quantities of interest; otherwise a fresh node with the defaults and those `redis_fields` |
| BaseNode.BaseNode.Dimensions | tergite_autocalibration/lib/base/node.py:124-148 | IndexError on an empty schedule or an empty first quantity; KeyError when a later quantity lacks the first element; otherwise one length per quantity, in order, for the first element (a scalar counts 1), then `loops` when set |
| BaseNode.BaseNode.Calibrate | tergite_autocalibration/lib/base/node.py:150-155 | measure and save happen iff the mode is not re-analyse, measuring first; post-processing always happens, last |
| BaseNode.BaseNode.Precompile | tergite_autocalibration/lib/base/node.py:162-164 | the (None, 1) short-cut happens iff the node is 'tof'; any other node compiles its schedule samplespace |
| Validators.BatchAt | tergite_autocalibration/lib/utils/validators.py:70 | `samples[batch]` with Python's indices: defined iff -len ≤ batch < len, negative indices counting from the end |
| Validators.ReduceBatch | tergite_autocalibration/lib/utils/validators.py:60-71 | succeeds iff every settable can be reduced; keeps the settable keys in order; simple entries are copied and batched entries map each element to `samples[batch]`; otherwise the error of the first settable that cannot |
| Validators.ReducedIsSimple | tergite_autocalibration/lib/utils/validators.py:65-70 | every sweep of a reduced non-empty settable is a plain sample array |
| Validators.NumberOfBatches | tergite_autocalibration/lib/utils/validators.py:39-48 | when every settable is batched, the batch count of the last element of the last non-empty settable; TypeError at the first simple settable; unbound when all are empty |
| Validators.BatchedCoord | tergite_autocalibration/lib/utils/validators.py:51-57 | the last batched settable, in iteration order; a validation error when a dict is neither kind; unbound when none is batched |
| CouplerNodes.CoupledQubitsAppend | tergite_autocalibration/lib/nodes/coupler_nodes.py:165-166 | the qubits of two lists of couplers are the qubits of the first, then of the second |
| CouplerNodes.InCoupledQubits | tergite_autocalibration/lib/nodes/coupler_nodes.py:139 | a qubit is in `[q for bus in couplers for q in bus.split('_')]` iff it is a part of some coupler's name |
| CouplerNodes.CoupledQubitsFrom | tergite_autocalibration/lib/nodes/coupler_nodes.py:139 | every qubit of the flattening comes from some coupler |
| CouplerNodes.CoupledQubitsHas | tergite_autocalibration/lib/nodes/coupler_nodes.py:139 | every part of every coupler is in the flattening |
| CouplerNodes.FirstCouplerOpens | tergite_autocalibration/lib/nodes/coupler_nodes.py:139 | the flattening is in order: it opens with the first coupler's split |
| CouplerNodes.Validate | tergite_autocalibration/lib/nodes/coupler_nodes.py:163-169 | `validate` raises ValueError('Improper Couplers') iff the concatenated splits repeat a qubit |
| CouplerNodes.CoupledQubitsAround | tergite_autocalibration/lib/nodes/coupler_nodes.py:165-166 | the qubits around one coupler are those before it, its own split, then those after |
| CouplerNodes.SharedAround | tergite_autocalibration/lib/nodes/coupler_nodes.py:165-167 | a qubit shared by an earlier coupler and this one is repeated |
| CouplerNodes.SharedQubitRefused | tergite_autocalibration/lib/nodes/coupler_nodes.py:163-169 | two different couplers that share a qubit are refused |
| CouplerNodes.RepeatedAround | tergite_autocalibration/lib/nodes/coupler_nodes.py:165-167 | a qubit written twice in one coupler's name is repeated in the whole list |
| CouplerNodes.RepeatedQubitRefused | tergite_autocalibration/lib/nodes/coupler_nodes.py:163-169 | a qubit written twice in one coupler's name is refused as well |
| CouplerNodes.DacCurrent | tergite_autocalibration/lib/nodes/coupler_nodes.py:68-75 | the value sent to the DAC exists iff the reduced space has a non-empty 'dc_currents'; without the key, KeyError |
| CouplerNodes.ReducedAtFirst | tergite_acl/functions/node_supervisor.py:48-60 | a reduced slice of the external sweep opens with the first swept element |
| CouplerNodes.DacCurrentOfIteration | tergite_autocalibration/lib/nodes/coupler_nodes.py:68-75 | in iteration i of the external sweep, the DAC receives exactly the i-th current of the first swept element |
| CouplerNodes.CouplerNode.constructor | tergite_autocalibration/lib/nodes/coupler_nodes.py:33-39 | the common start of construction: the name, the qubits and the couplers, with every other field unset |
| CouplerNodes.CouplerNode.RandomizedBenchmarking | tergite_autocalibration/lib/nodes/coupler_nodes.py:548-574 | the benchmarking fields: 'parameterized_sweep', backup False, the first coupler and its qubits, 'tqg_fidelity' (or the interleaved field and Clifford id 4386), the Clifford schedule and the ten seeds |
| CouplerNodes.CouplerNode.SpectroscopyFields | tergite_autocalibration/lib/nodes/coupler_nodes.py:42-58 | the fields the spectroscopy constructor assigns after the DAC: the first coupler's qubits become `all_qubits`, each swept over its qubit samples, and the coupler's DC currents are the external sweep |
| CouplerNodes.CouplerNode.GetCoupledQubits | tergite_autocalibration/lib/nodes/coupler_nodes.py:61-66 | `get_coupled_qubits` uses only the first coupler: it returns its split and sets it as `coupler`; an IndexError without couplers |
| CouplerNodes.CouplerNode.RbDimensions | tergite_autocalibration/lib/nodes/coupler_nodes.py:577-579 | `dimensions` is (11, 1), or (12, 1) for the interleaved node; an IndexError without qubits |
| CouplerNodes.NewCouplerSpectroscopy | tergite_autocalibration/lib/nodes/coupler_nodes.py:33-46 | as written: an IndexError without couplers, otherwise a NameError at `MeasurementMode`, which the module never imports |
| CouplerNodes.NewCouplerSpectroscopyCorrected | tergite_autocalibration/lib/nodes/coupler_nodes.py:33-58 | with the name bound: an IndexError without couplers, otherwise a node on the first coupler's qubits with 'parking_current', the spectroscopy sweep and the coupler's currents |
| CouplerNodes.CouplerSpectroscopyMeasures | tergite_autocalibration/lib/nodes/coupler_nodes.py:42-75 | the corrected node sweeps every qubit of the first coupler, its qubits open the flattening of all couplers, and iteration i sends the i-th current |
| CouplerNodes.NewCouplerResonatorSpectroscopy | tergite_autocalibration/lib/nodes/coupler_nodes.py:82-92 | an IndexError without couplers; otherwise the same NameError at `MeasurementMode` |
| CouplerNodes.SeedsSpec | tergite_autocalibration/lib/nodes/coupler_nodes.py:572 | the seeds `42 * np.arange(RB_REPEATS)` are ten, the k-th being 42·k |
| CouplerNodes.NewTqgRandomizedBenchmarking | tergite_autocalibration/lib/nodes/coupler_nodes.py:544-636 | an IndexError exactly without couplers; otherwise a fresh node with the benchmarking fields |
| CouplerNodes.TqgRandomizedBenchmarkingShape | tergite_autocalibration/lib/nodes/coupler_nodes.py:638-640 | a benchmarking dataset is 11 by 1, 12 by 1 when interleaved, over ten seeds 42·k |
| NodeSpecs.NewRabiOscillations | tergite_autocalibration/lib/nodes/qubit_control/rabi_oscillations/node.py:25-36 | construction fails with the base node's ValueError exactly when the class has no `qubit_qois`; otherwise the node calibrates `rabi_oscillations` on state 0 and sweeps 61 amplitudes for every qubit |
| NodeSpecs.NewRabiOscillations12 | tergite_autocalibration/lib/nodes/qubit_control/rabi_oscillations/node.py:39-52 | as the plain Rabi node, but calibrating `rabi_oscillations_12` from state 1 |
| NodeSpecs.NewNRabiOscillations | tergite_autocalibration/lib/nodes/qubit_control/rabi_oscillations/node.py:55-70 | the N-Rabi node sweeps 40 amplitudes and the repetitions `arange(1, 19, 6)` per qubit, on state 0, with backup off |
| NodeSpecs.NewNRabiOscillations12 | tergite_autocalibration/lib/nodes/qubit_control/rabi_oscillations/node.py:73-88 | the 1-2 N-Rabi node sweeps 51 amplitudes and the repetitions `arange(1, 4, 1)` per qubit, from state 1 |
| NodeSpecs.RepetitionCounts | tergite_autocalibration/lib/nodes/qubit_control/rabi_oscillations/node.py:69 | the repetition sweeps are exactly `[1, 7, 13]` and `[1, 2, 3]` |
| NodeSpecs.RabiNodesAsWritten | tergite_autocalibration/lib/nodes/qubit_control/rabi_oscillations/node.py:25-30 | none of the four Rabi classes sets `qubit_qois`, so each constructor raises a ValueError |
| NodeSpecs.RabiDimensions | tergite_autocalibration/lib/nodes/qubit_control/rabi_oscillations/node.py:32-36 | once it can be built, a Rabi node's dataset is 61 amplitudes long; without qubits `dimensions` raises an IndexError |
| NodeSpecs.Rabi12Dimensions | tergite_autocalibration/lib/nodes/qubit_control/rabi_oscillations/node.py:48-52 | a 1-2 Rabi node's dataset is 61 amplitudes long, or an IndexError without qubits |
| NodeSpecs.NRabiDimensions | tergite_autocalibration/lib/nodes/qubit_control/rabi_oscillations/node.py:65-70 | an N-Rabi dataset is 40 amplitudes by 3 repetitions, or an IndexError without qubits |
| NodeSpecs.NRabi12Dimensions | tergite_autocalibration/lib/nodes/qubit_control/rabi_oscillations/node.py:83-88 | a 1-2 N-Rabi dataset is 51 amplitudes by 3 repetitions, or an IndexError without qubits |
| NodeSpecs.ResonatorScheduleShape | tergite_autocalibration/lib/nodes/readout/resonator_spectroscopy/node.py:32-36 | the resonator schedule has one quantity, `ro_frequencies`, holding each qubit's own resonator samples |
| NodeSpecs.NewResonatorSpectroscopy | tergite_autocalibration/lib/nodes/readout/resonator_spectroscopy/node.py:24-36 | the resonator node always builds, calibrates its `qubit_qois` fields from state 0 and sweeps each qubit's resonator frequencies |
| NodeSpecs.NewResonatorSpectroscopy1 | tergite_autocalibration/lib/nodes/readout/resonator_spectroscopy/node.py:39-56 | the state-1 resonator node raises the base ValueError without `qubit_qois`; otherwise it calibrates the `_1` readout fields from state 1 |
| NodeSpecs.NewResonatorSpectroscopy2 | tergite_autocalibration/lib/nodes/readout/resonator_spectroscopy/node.py:59-70 | the state-2 resonator node raises the base ValueError without `qubit_qois`; otherwise it calibrates the `_2` readout fields from state 2 |
| NodeSpecs.ResonatorNodesAsWritten | tergite_autocalibration/lib/nodes/readout/resonator_spectroscopy/node.py:39-44 | neither the state-1 nor the state-2 class sets `qubit_qois`, so both raise a ValueError |
| NodeSpecs.ResonatorDimensions | tergite_autocalibration/lib/nodes/readout/resonator_spectroscopy/node.py:24-36 | the resonator dataset is as long as the first qubit's resonator sweep, or an IndexError without qubits |
| NodeSpecs.Resonator1Dimensions | tergite_autocalibration/lib/nodes/readout/resonator_spectroscopy/node.py:39-56 | the state-1 dataset is as long as the first qubit's resonator sweep, or an IndexError without qubits |
| NodeSpecs.Resonator2Dimensions | tergite_autocalibration/lib/nodes/readout/resonator_spectroscopy/node.py:59-70 | the state-2 dataset is as long as the first qubit's resonator sweep, or an IndexError without qubits |
| CzChevron.WithAmplitudeSpec | tergite_autocalibration/lib/nodes/coupler/cz_chevron/node.py:37-49 | the amplitude lookup fails with a TypeError exactly when the caller gave no amplitude and the store has none; otherwise the amplitude is the caller's, the stored one or 0.375 for NaN, and every other entry is unchanged |
| CzChevron.WithAmplitudeIdempotent | tergite_autocalibration/lib/nodes/coupler/cz_chevron/node.py:37-49 | once the amplitude is in the dictionary, a second lookup leaves the dictionary as it is, whatever the store holds |
| CzChevron.AcFrequency | tergite_autocalibration/lib/nodes/coupler/cz_chevron/node.py:88-94 | the transition frequency is the larger of the two detunings rounded down to a multiple of 10 kHz |
| CzChevron.TransitionFrequency | tergite_autocalibration/lib/nodes/coupler/cz_chevron/node.py:71-98 | a coupler's transition frequency exists exactly when it names two qubits whose stored f01 and f12 are all numbers; a coupler without '_' is an IndexError unless the first read already raised the TypeError of a missing field |
| CzChevron.FrequencySweepsSpec | tergite_autocalibration/lib/nodes/coupler/cz_chevron/node.py:55-58 | the frequency sweeps exist iff every coupler's transition frequency does, and then hold each coupler with 26 frequencies around it |
| CzChevron.FrequencySweepsFirstError | tergite_autocalibration/lib/nodes/coupler/cz_chevron/node.py:55-58 | the first coupler whose transition frequency fails decides the error |
| CzChevron.NewCzChevron | tergite_autocalibration/lib/nodes/coupler/cz_chevron/node.py:20-98 | construction fails, in order, on missing `coupler_qois`, no coupler, a missing amplitude, a failing transition frequency and couplers that share a qubit; a built node measures the qubits of all couplers and sweeps durations and frequencies per coupler |
| CzChevron.CzChevronDimensions | tergite_autocalibration/lib/nodes/coupler/cz_chevron/node.py:51-61 | with distinct couplers, an amplitude and every transition frequency, the chevron dataset is 21 durations by 26 frequencies |
| CzChevron.NewResetChevron | tergite_autocalibration/lib/nodes/coupler/cz_chevron/node.py:312-336 | the reset chevron fails on missing `coupler_qois` or no coupler; otherwise it sweeps 26 durations and 26 amplitudes on the qubits of the first coupler |
| CzChevron.ResetChevronDimensions | tergite_autocalibration/lib/nodes/coupler/cz_chevron/node.py:328-336 | the reset chevron dataset is 26 by 26 |
| CzChevron.CzChevronNodesAsWritten | tergite_autocalibration/lib/nodes/coupler/cz_chevron/node.py:27 | neither chevron class sets `coupler_qois`, so both constructors raise a ValueError |
| CzAmplitude.CurrentsAsWrittenEmpty | tergite_autocalibration/lib/nodes/coupler/cz_amplitude/node.py:32-34 | `arange(-1200, -600, -10)` is empty: every coupler's current sweep has no value |
| CzAmplitude.CurrentsSpec | tergite_autocalibration/lib/nodes/coupler/cz_amplitude/node.py:32-34 | the intended sweep holds the 60 currents -1200, -1190, ..., -610 for every coupler |
| CzAmplitude.CzAmplitudeNode.constructor | tergite_autocalibration/lib/nodes/coupler/cz_amplitude/node.py:6-34 | the node measures the qubits of all couplers, calibrates frequency and amplitude on state 0, forces a 120 ns pulse and sweeps amplitudes, frequencies and the current range as written (empty) |
| CzAmplitude.NewCzAmplitude | tergite_autocalibration/lib/nodes/coupler/cz_amplitude/node.py:6-44 | construction succeeds exactly when there is a coupler and no two couplers share a qubit; otherwise an IndexError or the ValueError of `validate`; the current sweep is the one written |
| CzAmplitude.NewCzAmplitudeCorrected | tergite_autocalibration/lib/nodes/coupler/cz_amplitude/node.py:6-44 | the intended node: the same errors and fields as written, with the 60-current sweep |
| CzAmplitude.CzAmplitudeShape | tergite_autocalibration/lib/nodes/coupler/cz_amplitude/node.py:21-34 | a built node sweeps 15 amplitudes per coupler and 21 frequencies per qubit with a 120 ns duration whatever the caller passed, and no current on any coupler |
| CzAmplitude.CzAmplitudeShapeCorrected | tergite_autocalibration/lib/nodes/coupler/cz_amplitude/node.py:21-34 | the intended node sweeps the same amplitudes, frequencies and duration, and 60 currents per coupler |
| Characterization.SweepSpec | tergite_acl/lib/nodes/characterization_nodes.py:26-96 | All_XY sweeps the indices 1 to 21, T1 and T2 echo 50 delays, T2 101 delays and benchmarking nine sequence lengths |
| Characterization.CharacterizationNode.constructor | tergite_acl/lib/nodes/characterization_nodes.py:17-154 | each of the five nodes sets its own calibrated field, type, backup, qubit state, schedule and externals, and nothing else |
| Characterization.CharacterizationNode.PreMeasurementOperation | tergite_acl/lib/nodes/characterization_nodes.py:60-63 | a T1 node sleeps once, for its `sleep_time`, exactly when the external value is positive |
| Characterization.CharacterizationNode.PreMeasurementDefault | tergite_acl/lib/nodes/characterization_nodes.py:48-63 | called without an argument, a fresh T1 node sleeps three seconds |
| Characterization.CharacterizationNode.Dimensions | tergite_acl/lib/nodes/characterization_nodes.py:65-67 | T1 and benchmarking datasets are the first qubit's sweep length by 1; a missing quantity or qubit is a KeyError, no qubit an IndexError |
| Characterization.CharacterizationDimensions | tergite_acl/lib/nodes/characterization_nodes.py:98-100 | a fresh T1 node is 50 by 1 and a benchmarking node 9 by 1; without qubits both raise an IndexError |
| Characterization.CharacterizationExternals | tergite_acl/lib/nodes/characterization_nodes.py:44-96 | T1 repeats `number_or_repeated_T1` times over two node externals, benchmarking runs the seeds 0 to 4, the other nodes have no external sweep |
| Store.SetField | workers/calibration_supervisor.py:133 | `HSET key field value`: that field reads back the value, every other field of every key is unchanged, and the key exists afterwards |
| Store.LastWrite | workers/calibration_supervisor.py:130-137 | the value of the last write to a field, or nothing exactly when no write touches it |
| Store.FirstWrite | workers/calibration_supervisor.py:109-112 | the value of the first write to a field, or nothing exactly when no write touches it |
| Store.SetAllValue | workers/calibration_supervisor.py:130-145 | after a run of unconditional `HSET`s a field holds its last write, and a field nobody wrote keeps its old value |
| Store.SetAllAppend | workers/calibration_supervisor.py:130-145 | writing one run and then another is writing their concatenation |
| Store.LastWriteAppend | workers/calibration_supervisor.py:132-137 | of the shared and the qubit-specific initial values, the later run wins where both write a field |
| Store.FirstWriteAppend | workers/calibration_supervisor.py:104-125 | of two runs of populating writes, the earlier run's first write wins |
| Store.FieldWrites | workers/calibration_supervisor.py:132-133 | one `HSET` per dict entry, in the dict's order, all under one key |
| Store.LastWriteFields | workers/calibration_supervisor.py:132-133 | writing a dict's entries leaves each of its fields with its entry and writes no other field |
| Store.FirstWriteFields | workers/calibration_supervisor.py:109-112 | populating from a dict offers each field its dict entry first |
| Store.FieldWritesOther | workers/calibration_supervisor.py:106-112 | writing a dict under one key never writes another key |
| Store.Broadcast | workers/calibration_supervisor.py:188-193 | one `HSET` of the same field and value for each key, in order |
| Store.LastWriteBroadcast | workers/calibration_supervisor.py:188-193 | after a broadcast, exactly the listed keys hold the value in that field |
| Store.DefaultAllValue | workers/calibration_supervisor.py:109-115 | populating with `HEXISTS`-guarded writes never overwrites: a present field keeps its value, an absent one takes the first write to it |
| Store.SetIfAbsentValue | workers/calibration_supervisor.py:111-112 | one guarded write sets the field only when it was absent |
| Store.DefaultAllPresent | workers/calibration_supervisor.py:104-125 | after populating, every field written to is present |
| Store.DefaultAllNoop | workers/calibration_supervisor.py:101-102 | populating a store that already holds every field changes nothing |
| Store.DefaultAllIdempotent | workers/calibration_supervisor.py:101-125 | populating twice is populating once |
| Store.ReadFields | workers/compilation_worker.py:26-34 | `config[name]` for each name on the `HGETALL` result: all values in order, or a KeyError naming the first missing field |
| Store.ReadFieldsAgrees | workers/compilation_worker.py:26-34 | two hashes that agree on the fields read give the same result |
| Store.ParameterStore.constructor | workers/compilation_worker.py:22 | a connection sees the store's current hashes |
| Store.ParameterStore.HSet | workers/calibration_supervisor.py:133 | the store after `HSET` is the old store with that one field set |
| Store.ParameterStore.SetEach | workers/calibration_supervisor.py:130-145 | issuing writes in order leaves the store as the run of writes specifies |
| Store.ParameterStore.DefaultEach | workers/calibration_supervisor.py:104-125 | issuing the guarded writes in order leaves the store as populating specifies |
| Backup.BackupNameDiffers | workers/compilation_worker.py:86 | the backup field `<field>_backup` is never the field itself, so the copy and the blanking do not collide |
| Backup.TransmonKeys | workers/compilation_worker.py:87-88 | one `transmons:<qubit>` key per qubit, in order |
| Backup.CouplerKeys | workers/compilation_worker.py:95-96 | one `couplers:<coupler>` key per coupler, in order |
| Backup.BackupOneSpec | workers/compilation_worker.py:89-92 | on one hash holding the field, its value moves to the backup field and the field becomes "nan"; a hash without it is untouched; no hash is created |
| Backup.BackupKeysSpec | workers/compilation_worker.py:87-92 | over distinct keys, every hash holding the field is backed up exactly once and no hash is created |
| Backup.KeysDisjoint | workers/compilation_worker.py:88 | a transmon key is never a coupler key |
| Backup.BackupFieldSpec | workers/compilation_worker.py:85-100 | one field is backed up in the transmon hashes of the qubits and, when the node has couplers, in their coupler hashes |
| Backup.BackupAllOthers | workers/compilation_worker.py:82-100 | fields that are neither recalibrated nor backup names keep their values in every hash |
| Backup.BackupAllElsewhere | workers/compilation_worker.py:82-100 | hashes other than those of the node's qubits and couplers are never touched |
| Backup.BackupEach | workers/compilation_worker.py:87-92 | the guarded copy-and-blank loop over keys leaves the store as the backup of those keys specifies |
| Backup.BackupStore | tergite_acl/functions/compilation_worker.py:88-106 | the whole backup step leaves the store as the backup of every field over the node's qubits and couplers specifies |
| Supervisor.Couplers | workers/calibration_supervisor.py:76-81 | a chain of n qubits has n - 1 couplers, none for no qubits |
| Supervisor.CouplerNameSplit | workers/calibration_supervisor.py:78 | splitting a coupler name on '_' gives back its two qubits when the qubit names hold no '_' |
| Supervisor.CouplersSplit | workers/calibration_supervisor.py:77-78 | the i-th coupler joins the i-th and the next qubit of the chain |
| Supervisor.KeysDisjoint | workers/calibration_supervisor.py:107-108 | transmon, coupler and `cs:` flag hashes never share a key |
| Supervisor.KeysInjective | workers/calibration_supervisor.py:107-108 | distinct qubits, couplers or flag entities have distinct keys |
| Supervisor.QubitsPopulationShape | workers/calibration_supervisor.py:106-115 | the qubit loop offers every quantity of interest to every qubit and a 'not_calibrated' flag per qubit, and no other flag value |
| Supervisor.CouplersPopulationShape | workers/calibration_supervisor.py:116-125 | the coupler loop offers every quantity of interest to every coupler and a 'not_calibrated' flag per coupler |
| Supervisor.PopulationShape | workers/calibration_supervisor.py:103-125 | population offers a 'not_calibrated' flag for every node and entity and every quantity of interest of every entity, and no other flag value |
| Supervisor.PopulateKeeps | workers/calibration_supervisor.py:101-102 | population never overwrites a field that is already present |
| Supervisor.PopulateFlags | workers/calibration_supervisor.py:113-115 | after population each qubit and coupler has a flag for every node: the one it had, or 'not_calibrated' |
| Supervisor.PopulatePresent | workers/calibration_supervisor.py:109-112 | after population every quantity of interest is present in every qubit and coupler hash |
| Supervisor.PopulateIdempotent | workers/calibration_supervisor.py:101-125 | running the population twice is running it once |
| Supervisor.PopulateStore | workers/calibration_supervisor.py:103-125 | the nested `HEXISTS`-guarded loops leave the store as population specifies |
| Supervisor.QubitInitials | workers/calibration_supervisor.py:130-137 | the qubit loop completes exactly when the 'all' table exists (or there is no qubit) and every qubit has its table; otherwise a KeyError names the first table missing |
| Supervisor.CouplerInitials | workers/calibration_supervisor.py:139-145 | the coupler loop fails, with a KeyError on 'all', exactly when there is a coupler and no 'all' table; a coupler's own table is optional |
| Supervisor.InitialWrites | workers/calibration_supervisor.py:128-145 | both initial loops complete exactly when the 'all' table exists (or nothing is looped over) and every qubit has its own table |
| Supervisor.QubitInitialsLast | workers/calibration_supervisor.py:132-137 | the last value a qubit's field receives is its own table's entry, else the common one |
| Supervisor.QubitInitialsOther | workers/calibration_supervisor.py:130 | a qubit outside the loop receives no write |
| Supervisor.CouplerInitialsLast | workers/calibration_supervisor.py:139-145 | the last value a coupler's field receives is its own table's entry if it has one, else the common one, and only listed couplers are written |
| Supervisor.CouplerInitialsKeys | workers/calibration_supervisor.py:139-145 | the coupler loop writes only coupler hashes |
| Supervisor.InitialQubitValue | workers/calibration_supervisor.py:130-137 | after the initial parameters a qubit's field holds its own entry, else the common one, else what it held before |
| Supervisor.InitialCouplerValue | workers/calibration_supervisor.py:139-145 | after the initial parameters a coupler's field holds its own entry, else the common one, else what it held before |
| Supervisor.QubitInitialsKeys | workers/calibration_supervisor.py:130-137 | the qubit loop writes only qubit hashes |
| Supervisor.WriteInitials | workers/calibration_supervisor.py:128-145 | the loops leave the store as the planned writes specify and report the KeyError that stops them; writes issued before it stay |
| Supervisor.CoupledCoupler | workers/calibration_supervisor.py:169-178 | the coupler is `coupled_qubits[0] + '_' + coupled_qubits[1]`; a missing node dictionary or `coupled_qubits` is the 'Misformated user input' error, fewer than two qubits an IndexError |
| Supervisor.ParkingCurrent | workers/calibration_supervisor.py:49-54 | the parking current is read exactly when the coupler's hash holds it; otherwise the ValueError 'parking current is not present on redis' |
| Supervisor.Flags | workers/calibration_supervisor.py:181 | one `HGET cs:<entity> node` per entity, in order |
| Supervisor.AggregateFromSpec | workers/calibration_supervisor.py:198-208 | from a running status, the loop reaches out of spec at a 'not_calibrated' flag after only 'calibrated' ones, fails at the first other flag, and otherwise ends in spec, or keeps the status for no flag |
| Supervisor.AggregateSpec | workers/calibration_supervisor.py:196-208 | the status of a node over its qubits: out of spec, an error, in spec when every flag says calibrated, and undefined exactly for no qubit |
| Supervisor.ScanStatus | workers/calibration_supervisor.py:198-208 | the status loop, stopping at the first 'not_calibrated', returns what the aggregate specifies |
| Supervisor.EntityKeys | workers/calibration_supervisor.py:188-193 | the node-specific writes go to every qubit and coupler hash and never to a flag hash |
| Supervisor.ConfigWritesValue | workers/calibration_supervisor.py:186-193 | after the node-specific writes each qubit and coupler hash holds the node's value for each of its fields, and nothing else is written |
| Supervisor.NodeCalibrated | workers/calibration_supervisor.py:169-182 | a coupler node is calibrated when its coupler's flag says so, failing when the user input names no coupler; any other node is decided by its qubits' flags |
| Supervisor.CalibratedIsInSpec | workers/calibration_supervisor.py:181-182 | a qubit node counts as calibrated exactly when its status is in spec, or undefined for no qubit |
| Supervisor.ConfigKeepsFlags | workers/calibration_supervisor.py:186-193 | the node-specific writes touch no flag |
| Supervisor.InspectStatus | workers/calibration_supervisor.py:195-227 | the inspected status is the aggregate of the qubit flags, and for a coupler node the coupler's flag alone decides between in and out of spec |
| Supervisor.InspectCalibratedKeeps | workers/calibration_supervisor.py:186 | inspecting a calibrated node leaves the store as it was |
| Supervisor.InspectWritesConfig | workers/calibration_supervisor.py:186-193 | inspecting a node that is not calibrated writes each value of its configuration to every qubit and coupler |
| Supervisor.InspectNode | workers/calibration_supervisor.py:166-235 | `inspect_node` leaves the store and returns the status as the inspection specifies |
| Supervisor.RunNodesStep | workers/calibration_supervisor.py:161-163 | one step of the order: an error stops the run, out of spec calibrates the node and goes on, any other status goes on |
| Supervisor.RunNodesOrder | workers/calibration_supervisor.py:161-163 | the nodes calibrated form a subsequence of the calibration order |
| Supervisor.RunNodesAllCalibrated | workers/calibration_supervisor.py:229-235 | when every qubit flag of every node says calibrated, no node is calibrated and nothing is written |
| Supervisor.SystemRunOrder | workers/calibration_supervisor.py:93-163 | the whole run calibrates nodes only in the calibration order |
| Supervisor.InspectAll | workers/calibration_supervisor.py:161-163 | the loop over the calibration order leaves the store and returns the nodes calibrated as the run specifies |
| Supervisor.CalibrateSystem | workers/calibration_supervisor.py:93-163 | `calibrate_system` populates, writes the initial parameters, parks the coupler for `cz_chevron` and inspects every node, leaving the store as the run specifies |
| TacSupervisor.OverrideKeys | tergite_autocalibration/scripts/calibration_supervisor.py:62-71 | a user override replaces values in place: it never adds nor reorders settables of either samplespace |
| TacSupervisor.OverrideError | tergite_autocalibration/scripts/calibration_supervisor.py:64-70 | the override fails exactly when some settable is in neither samplespace, with the KeyError '<settable> not in any samplespace' of the first such one |
| TacSupervisor.OverrideUntouched | tergite_autocalibration/scripts/calibration_supervisor.py:64-68 | a settable the user does not override keeps its value in both samplespaces |
| TacSupervisor.OverrideApplied | tergite_autocalibration/scripts/calibration_supervisor.py:65-68 | after a successful override each user settable holds the user's value, in the schedule samplespace when it is there and in the external one otherwise |
| TacSupervisor.OverrideAppend | tergite_autocalibration/scripts/calibration_supervisor.py:64-70 | replacements made before a failing settable persist: overriding with `a + b` is overriding with `a` and then, if that went through, with `b` |
| TacSupervisor.UpdateToUserSamplespace | tergite_autocalibration/scripts/calibration_supervisor.py:62-71 | a node the user gave no samplespace is a KeyError and is left unchanged; otherwise the node's samplespaces become the override's result |
| TacSupervisor.IsNodeCalibrated | tergite_autocalibration/scripts/calibration_supervisor.py:184-209 | a node is calibrated exactly when the flag of each of its couplers (coupler nodes) or qubits (the rest) says 'calibrated' |
| TacSupervisor.NodeStatusSpec | tergite_autocalibration/scripts/calibration_supervisor.py:220-258 | the status is undefined for no entity, in spec when every flag says calibrated, out of spec at a 'not_calibrated' after only calibrated ones, and a ValueError at any other flag there |
| TacSupervisor.OptimizeChevronLists | tergite_autocalibration/scripts/calibration_supervisor.py:184-235 | the two coupler-node lists differ only in `cz_optimize_chevron`, whose calibration is judged on the qubits and whose status on the couplers |
| TacSupervisor.Prepare | tergite_autocalibration/scripts/calibration_supervisor.py:169-174 | the node built for a name, failing when construction fails, and with the factory's samplespaces when the user gave none |
| TacSupervisor.InspectInSpec | tergite_autocalibration/scripts/calibration_supervisor.py:260-264 | a node whose entities are all flagged calibrated is not calibrated, and the store is only populated |
| TacSupervisor.InspectOutOfSpec | tergite_autocalibration/scripts/calibration_supervisor.py:266-271 | a node with a 'not_calibrated' entity after calibrated ones is measured exactly once, on the populated store |
| TacSupervisor.InspectCalibratesOnlyOutOfSpec | tergite_autocalibration/scripts/calibration_supervisor.py:165-271 | `calibrate_node` runs exactly when the node was built and its status is out of spec; a node that cannot be built leaves the store as it was |
| TacSupervisor.Resolve | tergite_autocalibration/scripts/calibration_supervisor.py:279-282 | `calibrate_node` takes a node as it is and builds one from a name, failing when the factory fails |
| TacSupervisor.ExtendPrepend | tergite_autocalibration/scripts/calibration_supervisor.py:161-163 | inspecting one node and then the rest adds that node before the rest in both the inspected and the calibrated lists |
| TacSupervisor.WalkOrder | tergite_autocalibration/scripts/calibration_supervisor.py:161-163 | every node is inspected once, in order, up to the first failure, and the calibrated nodes are inspected nodes in the same order |
| TacSupervisor.InspectNodesOrder | tergite_autocalibration/scripts/calibration_supervisor.py:151-163 | `calibrate_system` inspects the calibration order node by node up to the first failure and calibrates only inspected nodes, in order |
| TacSupervisor.CalibrationSupervisor.constructor | tergite_autocalibration/scripts/calibration_supervisor.py:83-104 | the supervisor holds the mode, the user's qubits, couplers, target and samplespace, and the calibration order |
| TacSupervisor.CalibrationSupervisor.Create | tergite_autocalibration/scripts/calibration_supervisor.py:75-124 | a supervisor is built exactly in the real mode; any other mode raises 'Cannot create cluster object from <ip>', and the order is the filtered order of the target |
| TacSupervisor.CalibrationSupervisor.CalibrateNode | tergite_autocalibration/scripts/calibration_supervisor.py:278-305 | a node that cannot be built leaves the store as it was; otherwise the result is its data path and measurement result, and the store is as the measurement left it |
| TacSupervisor.CalibrationSupervisor.InspectNode | tergite_autocalibration/scripts/calibration_supervisor.py:165-271 | `inspect_node` leaves the store and reports calibration and failure as the inspection specifies |
| TacSupervisor.CalibrationSupervisor.InspectFirst | tergite_autocalibration/scripts/calibration_supervisor.py:161-163 | one turn of the loop either fails on its node or inspects it and leaves the rest of the walk to the new store |
| TacSupervisor.CalibrationSupervisor.CalibrateSystem | tergite_autocalibration/scripts/calibration_supervisor.py:151-163 | `calibrate_system` populates the quantities of interest and then walks the calibration order, leaving the store as the walk does |
| WorkersCompilation.LoadTransmonSpec | workers/compilation_worker.py:24-65 | `load_redis_config` succeeds exactly when every field it reads is in the hash, else a KeyError on the first missing one; a NaN motzoi becomes 0, the optimal spectroscopy amplitude is used unless it is NaN, and the three measurements share the readout settings and the channel |
| WorkersCompilation.DefaultUnreadWhenOptimal | workers/compilation_worker.py:36-39 | while the optimal amplitude is a number, the default amplitude may hold anything or be missing without changing the result |
| WorkersCompilation.DefaultNotRead | workers/compilation_worker.py:36-37 | when the optimal amplitude is used, the default one is not among the fields read |
| WorkersCompilation.LoadedAllChannels | workers/compilation_worker.py:107-112 | the device fails exactly when some qubit's hash fails to load; otherwise it has one transmon per qubit, in order, whose readout acquires on the channel of its position |
| WorkersCompilation.ForEach | workers/compilation_worker.py:139 | `{q: value for q in qubits}` holds exactly the qubits, each with the value |
| WorkersCompilation.MergeAllKeys | workers/compilation_worker.py:136-146 | merging `node_dictionary` adds no key to either dict and moves none |
| WorkersCompilation.MergeAllSpec | workers/compilation_worker.py:136-146 | after the merge a static parameter named in `node_dictionary` holds its broadcast value, a swept one that is not static holds its broadcast sweep, and every other entry is left alone |
| WorkersCompilation.MergeEntryLookup | workers/compilation_worker.py:137-146 | one entry of `node_dictionary` rewrites at most the one key it names, static parameters first |
| WorkersCompilation.RepetitionsOverride | workers/compilation_worker.py:133-140 | the `repetitions` argument is a static parameter, and one given in `node_dictionary` is applied after it and wins |
| WorkersCompilation.ScheduleCall | workers/compilation_worker.py:207 | `schedule_function(**static_parameters, **samplespace)` raises a TypeError exactly when a key is in both; otherwise it receives the keys of both |
| WorkersCompilation.KeysAppend | workers/compilation_worker.py:207 | the keys of two concatenated keyword dicts are the keys of the first, then of the second |
| WorkersCompilation.CompiledSchedule | workers/compilation_worker.py:103-217 | the samplespace keeps its keys, a compiled schedule holds the loaded device and the keyword keys of both dicts, and a swept key named in `node_dictionary` carries the user's value |
| WorkersCompilation.CompilationNode.constructor | workers/compilation_worker.py:76-84 | the node fields `precompile` reads |
| WorkersCompilation.LoadDevice | workers/compilation_worker.py:107-112 | the channel loop builds the device the specification of loading gives, or its first KeyError |
| WorkersCompilation.MergeNodeDictionary | workers/compilation_worker.py:136-146 | the `node_dictionary` loop updates the statics and the node's samplespace as the merge specifies |
| WorkersCompilation.Precompile | workers/compilation_worker.py:76-229 | 'tof' compiles nothing and changes nothing; any other node backs up its fields when `backup` is set and compiles as specified on the backed-up store |
| AclCompilation.ModuleKeyJoin | tergite_acl/functions/compilation_worker.py:43 | a key `split(':')` cuts in two is its halves joined by the colon |
| AclCompilation.GroupOverPlain | tergite_acl/functions/compilation_worker.py:38 | a store key without a colon plays no part in the grouping |
| AclCompilation.ModuleOverStep | tergite_acl/functions/compilation_worker.py:43-44 | grouping `'sub:field'` adds that field to that submodule alone |
| AclCompilation.GroupOverStep | tergite_acl/functions/compilation_worker.py:40-44 | grouping one more key merges `{field: value}` into its submodule's dict, creating it when absent |
| AclCompilation.GroupedSpec | tergite_acl/functions/compilation_worker.py:38-44 | `device_redis_dict[sub][field]` exists exactly when the store holds `'sub:field'`, and holds its value |
| AclCompilation.GroupedFails | tergite_acl/functions/compilation_worker.py:43 | the grouping fails exactly when a store key has more than one colon |
| AclCompilation.GroupEntries | tergite_acl/functions/compilation_worker.py:38-44 | the grouping loop returns what the grouping specifies |
| AclCompilation.UpdateAllSpec | tergite_acl/functions/compilation_worker.py:48-56 | the template keeps its submodules in order, each updated on its own, and the update fails exactly when one submodule's does |
| AclCompilation.UpdateModuleSpec | tergite_acl/functions/compilation_worker.py:46-56 | a submodule fails exactly when it is the dict 'name' (updated with the qubit's name) or a 'measure' entry that is no dict; a measurement acquires on the channel, a dict submodule takes every grouped store field, and anything else is unchanged |
| AclCompilation.UpdateTemplate | tergite_acl/functions/compilation_worker.py:48-56 | the submodule loop returns the updated template the specification gives, or its failure |
| AclCompilation.UpdateAllPrefix | tergite_acl/functions/compilation_worker.py:48-56 | once a prefix of the template fails, the rest of it is never looked at |
| AclCompilation.LoadRedisConfig | tergite_acl/functions/compilation_worker.py:29-70 | `load_redis_config` reads the qubit's hash and returns the template loaded from it |
| AclCompilation.LoadEdgeSpec | tergite_acl/functions/compilation_worker.py:73-80 | an edge loads exactly when its name has one underscore and its coupler hash has the four CZ fields; control and target join back to the name and the CZ frequency and amplitude come from the store |
| AclCompilation.LoadedEdgesFails | tergite_acl/functions/compilation_worker.py:120-128 | the edges load exactly when each one does |
| AclCompilation.LoadedEdgesKeys | tergite_acl/functions/compilation_worker.py:122-128 | the loaded edges are keyed by exactly the node's buses |
| AclCompilation.LoadedEdgesGet | tergite_acl/functions/compilation_worker.py:123-128 | every bus holds its own loaded edge |
| AclCompilation.LoadEdges | tergite_acl/functions/compilation_worker.py:120-128 | the edge loop returns what loading the edges specifies |
| AclCompilation.LoadedEdgesPrefix | tergite_acl/functions/compilation_worker.py:123-128 | once an edge fails, the later ones are never loaded |
| AclCompilation.CompileFromSpec | tergite_acl/functions/compilation_worker.py:108-173 | a `repetitions` argument always fails, on the unbound `static_parameters` once device and edges load; a compiled schedule demodulates 1024 repetitions, holds one loaded transmon per qubit in channel order, and sweeps the union of both samplespaces, the external one winning |
| AclCompilation.LoadAclDevice | tergite_acl/functions/compilation_worker.py:111-116 | the channel loop returns the device loading specifies, or its first failure |
| AclCompilation.Precompile | tergite_acl/functions/compilation_worker.py:82-173 | 'tof' compiles nothing and changes nothing; any other node backs up its fields when `backup` is set and compiles as specified on the backed-up store |
| NodeSupervisor.ReducedAtSpec | tergite_acl/functions/node_supervisor.py:67-72 | the i-th slice holds, for each qubit and nothing else, its i-th external value; it fails exactly when some qubit has no values or no i-th one |
| NodeSupervisor.ReduceExternal | tergite_acl/functions/node_supervisor.py:68-72 | the qubit loop builds the slice the specification gives, or its failure |
| NodeSupervisor.ReducedAtPrefix | tergite_acl/functions/node_supervisor.py:69-71 | once a qubit fails, the later qubits are never looked at |
| NodeSupervisor.SimpleLoopLength | tergite_acl/functions/node_supervisor.py:66-93 | each iteration makes exactly a pre-measurement and a measurement; the loop runs all iterations or stops at the first slice that fails, with its error |
| NodeSupervisor.SimpleLoopCallAt | tergite_acl/functions/node_supervisor.py:81-92 | iteration i hands the pre-measurement operation the i-th reduced samplespace and measures with `measurement=(i, iterations)` |
| NodeSupervisor.SimpleLoopLast | tergite_acl/functions/node_supervisor.py:82 | the node keeps the last slice handed out, or its old one when none was |
| NodeSupervisor.SimpleLoopStops | tergite_acl/functions/node_supervisor.py:66-93 | once an iteration has raised, the later ones change nothing |
| NodeSupervisor.ParamCallsSpec | tergite_acl/functions/node_supervisor.py:106-128 | each parameterized iteration compiles once with its own external value and measures, and is analysed right after exactly when `post_process_each_iteration` is set |
| NodeSupervisor.CompileCountAppend | tergite_acl/functions/node_supervisor.py:33-116 | the compilations of two runs of calls add up |
| NodeSupervisor.SimpleLoopCompilesNothing | tergite_acl/functions/node_supervisor.py:66-93 | the external loop of a simple sweep never recompiles |
| NodeSupervisor.SimpleCompilesOnce | tergite_acl/functions/node_supervisor.py:32-45 | a simple sweep compiles exactly once, first; without an external samplespace it compiles, measures once and analyses |
| NodeSupervisor.ParameterizedPostProcess | tergite_acl/functions/node_supervisor.py:100-133 | a parameterized sweep never fails; it is analysed after every iteration when asked to, and otherwise exactly once, at the end, on all the measurements |
| NodeSupervisor.UnknownTypeRejected | tergite_acl/functions/node_supervisor.py:134-135 | exactly a sweep type other than the two known raises a ValueError, before any call |
| NodeSupervisor.SweepNode.constructor | tergite_acl/functions/node_supervisor.py:31 | the node fields `monitor_node_calibration` reads, with nothing reduced or set yet |
| NodeSupervisor.MonitorNodeCalibration | tergite_acl/functions/node_supervisor.py:31-135 | the calls made, the error raised and the fields written are those the sweep specifies; `measurement_is_completed` is never set, since the loop index never reaches `external_iterations` |
| NodeSupervisor.SimpleSweepRun | tergite_acl/functions/node_supervisor.py:32-96 | the simple-sweep branch makes the calls and writes the slice the simple sweep specifies |
| NodeSupervisor.ExternalLoop | tergite_acl/functions/node_supervisor.py:63-93 | the external loop over the first settable makes the calls and leaves the slice the loop specifies |
| NodeSupervisor.ParameterizedSweepRun | tergite_acl/functions/node_supervisor.py:100-133 | the parameterized branch makes the calls and writes the external parameter the parameterized sweep specifies |
| AclPostProcessing.RowsCover | tergite_acl/functions/post_processing_worker.py:29-32 | the figure has a row for every variable's primary plot and each of its secondary plots |
| AclPostProcessing.NodeListsDisjoint | tergite_acl/functions/post_processing_worker.py:85-94 | the target, control and coupler node lists name different nodes, so at most one routing branch applies |
| AclPostProcessing.ElementSpec | tergite_acl/functions/post_processing_worker.py:84-97 | routing fails exactly on a target or control node whose qubit has no type, or when the result goes to a coupler the node does not have; otherwise it files under the coupler or the qubit |
| AclPostProcessing.ZipUpToSpec | tergite_acl/functions/post_processing_worker.py:99 | a field is in the zip of the first n pairs exactly when it is among the first n fields, and holds the quantity at its last position there |
| AclPostProcessing.ZipTruncates | tergite_acl/functions/post_processing_worker.py:99 | `dict(zip(redis_field, qoi))` drops what is past the shorter list, and a repeated field keeps its last quantity |
| AclPostProcessing.StepSpec | tergite_acl/functions/post_processing_worker.py:53-99 | one variable fails without a qubit, on a missing axis or on routing; otherwise it is fitted on its qubit's merged variables and filed under its element |
| AclPostProcessing.AllResultsSpec | tergite_acl/functions/post_processing_worker.py:99 | an element holds the zip of the last variable filed under it: later variables overwrite earlier ones |
| AclPostProcessing.PostProcessed | tergite_acl/functions/post_processing_worker.py:20-24 | a 'tof' node is exactly the one whose analysis is skipped |
| AclPostProcessing.PostProcessedFails | tergite_acl/functions/post_processing_worker.py:31-97 | a run fails exactly when the figure is empty (no variable, no coordinate or no plot per qubit: a ValueError before any update) or some variable has no qubit, no plot column, or cannot be routed |
| AclPostProcessing.Figure | tergite_acl/functions/post_processing_worker.py:26-42 | `plt.subplots` of `ceil(n_vars / 5) * plots_per_qubit` rows and `min(n_vars, n_coords, 5)` columns raises ValueError exactly when there is no variable, no coordinate or no plot per qubit |
| AclPostProcessing.PostProcessedUpdates | tergite_acl/functions/post_processing_worker.py:53-97 | each variable, in order, is fitted on the merged dataset of its qubit and makes exactly one update, for its element |
| AclPostProcessing.PostProcessedResults | tergite_acl/functions/post_processing_worker.py:99-123 | the results hold the measurement dataset and, for each element, the zip of the redis fields with its last update's quantities |
| AclPostProcessing.PostProcess | tergite_acl/functions/post_processing_worker.py:20-123 | the figure check, the grouping and the per-variable loop return what the run specifies |
| WorkersPostProcessing.StepSpec | workers/post_processing_worker.py:64-84 | one variable succeeds exactly when it has a qubit and its plot axis exists, and then updates its qubit with the fit of its qubit's merged variables |
| WorkersPostProcessing.TofUntouched | workers/post_processing_worker.py:54-56 | 'tof' runs its own analysis and writes nothing to the store nor to a result |
| WorkersPostProcessing.PostProcessedFails | workers/post_processing_worker.py:26-84 | a run fails exactly when the figure is empty (no variable or no coordinate: a ValueError before any update and before grouping) or a variable has no qubit or no plot axis; the measurement dataset is attached exactly when it does not fail |
| WorkersPostProcessing.PostProcessedUpdates | workers/post_processing_worker.py:59-84 | each variable, in order, updates its qubit with the fit of the dataset merged from exactly the variables of that qubit |
| WorkersPostProcessing.UpdatesUniform | workers/post_processing_worker.py:59-84 | the last update for a qubit carries its fitted quantity, and a qubit without variables gets none |
| WorkersPostProcessing.PostProcessedField | workers/post_processing_worker.py:46-49 | after a run each qubit with a variable holds its fitted quantity in the node's field and in the node result; any other qubit keeps its field and has no result |
| WorkersPostProcessing.PostProcessedFlag | workers/post_processing_worker.py:48 | after a run the node's flag reads 'calibrated' for every qubit that carries a variable, and every other flag keeps its value |
| WorkersPostProcessing.PostProcess | workers/post_processing_worker.py:17-84 | `post_process` returns the run the specification gives, the empty-figure ValueError included, and leaves the store with its writes applied in order |
| Analysis.GroupVarsSpec | workers/post_processing_worker.py:59-62 | grouping fails exactly when a variable has no qubit; otherwise each qubit's group holds exactly the names of the variables tagged with it |
| Analysis.GroupByQubit | workers/post_processing_worker.py:59-62 | the grouping loop returns the grouping the specification gives |
| Analysis.GroupVarsStops | workers/post_processing_worker.py:60-62 | once a variable without a qubit raises, the later ones are never looked at |
| Analysis.GridRowsCover | workers/post_processing_worker.py:37-38 | with `(n_vars + 2) // 3` rows, every variable's row `indx // 3` exists |
| Analysis.Subplots | workers/post_processing_worker.py:41-43 | `plt.subplots` raises ValueError exactly when the grid has no row or no column |
| Analysis.BaseGrid | workers/post_processing_worker.py:34-43 | the three-column figure of `BaseAnalysis.__init__` exists exactly when there is a variable and a coordinate |
| Analysis.AnalysesSpec | workers/post_processing_worker.py:64-84 | the loop analyses the variables in order, one result per variable, and stops at the first that raises, with its error |
| Analysis.AnalysesStops | workers/post_processing_worker.py:64-84 | once a variable has raised, later variables change nothing |
| Analysis.LastFor | workers/post_processing_worker.py:49 | the last update's value for a qubit, or nothing exactly when no update is for it |
| Analysis.LastForAt | workers/post_processing_worker.py:49 | the update of a qubit that no later update of it follows is its last |
| Analysis.LastForUniform | workers/post_processing_worker.py:49 | when every update of a qubit carries the same quantity, so does the last |
| Analysis.TransmonKeyInjective | workers/post_processing_worker.py:47 | distinct qubits write distinct transmon hashes |
| Analysis.StatusNotTransmon | workers/post_processing_worker.py:47-48 | a flag hash is never a transmon hash |
| Analysis.StatusKeyInjective | workers/post_processing_worker.py:48 | distinct qubits have distinct flag hashes |
| Analysis.TrustedField | workers/post_processing_worker.py:46-49 | after the updates a qubit's field holds its last quantity and the node result holds exactly the updated qubits, each with its last quantity |
| Analysis.TrustedFlag | workers/post_processing_worker.py:48 | after the updates the node is flagged calibrated for exactly the updated qubits |
| Analysis.TrustedWritesOnly | workers/post_processing_worker.py:46-48 | every write is an updated qubit's field or its node flag: nothing else in the store changes |
| Analysis.TrustedAnalysis.constructor | workers/post_processing_worker.py:40-44 | a fresh analysis has quantity 0 and an empty node result |
| Analysis.TrustedAnalysis.UpdateRedisTrustedValues | workers/post_processing_worker.py:46-49 | `update_redis_trusted_values` writes the quantity to the qubit's field, flags the node calibrated for the qubit and records the quantity in the node result |
| Analysis.AnalyseEach | workers/post_processing_worker.py:64-84 | the per-variable loop returns what the analyses specify, leaves the store with every trusted write applied in order, and the node result as the updates give it |
| TacAnalysis.Dispatch | analysis/tac_quantify_analysis.py:58-75 | the if-chain binds an analysis class and a field exactly for the six node names it lists |
| TacAnalysis.DispatchFields | analysis/tac_quantify_analysis.py:58-75 | pulsed qubit spectroscopy and the Ramsey correction both calibrate `freq_01`, the two resonator nodes calibrate different fields, and each node has its own class |
| TacAnalysis.StepSpec | analysis/tac_quantify_analysis.py:51-82 | one variable fails without a qubit, on a missing axis, or on the unbound `analysis_class` of an unlisted node; otherwise it updates its qubit with its class's fit of that variable alone |
| TacAnalysis.AnalysedFails | analysis/tac_quantify_analysis.py:22-82 | an analysis fails exactly when the figure is empty (no variable or no coordinate: a ValueError before any update), the node is unlisted, or a variable has no qubit or no axis |
| TacAnalysis.UnknownNodeWritesNothing | analysis/tac_quantify_analysis.py:58-77 | an unlisted node writes nothing, and its first variable with a qubit and an axis fails on the unbound class |
| TacAnalysis.AnalysedUpdates | analysis/tac_quantify_analysis.py:51-82 | each variable, in order, makes exactly one update, for its own qubit, with the quantity its class fits on that variable alone |
| TacAnalysis.UpdatesFollowVars | analysis/tac_quantify_analysis.py:51-82 | the updates of a successful analysis follow the variables' qubits one for one |
| TacAnalysis.AnalysedUntouched | analysis/tac_quantify_analysis.py:37-40 | a qubit without variables keeps its field and its node flag, and has no result |
| TacAnalysis.AnalysedLast | analysis/tac_quantify_analysis.py:37-40 | a qubit's field, flag and result come from its last variable: its fitted quantity, 'calibrated', and that quantity |
| TacAnalysis.MultiplexedAnalysis | analysis/tac_quantify_analysis.py:22-82 | `Multiplexed_Analysis` returns the analysis the specification gives, the empty-figure ValueError included, and leaves the store with its writes applied in order |
| ResetRedis.Couplers | reset_redis.py:12-13 | a chain of n qubits has n - 1 couplers, the i-th joining qubits i and i + 1 with '_' |
| ResetRedis.AssignValue | reset_redis.py:37-38 | setting a set of fields to a value sets exactly those fields of that key, and creates the key only when there is a field |
| ResetRedis.AssignStep | reset_redis.py:37-38 | setting one more field is one more `HSET` |
| ResetRedis.Elements | reset_redis.py:32-51 | the elements reset are the qubits' transmon hashes, then the couplers' hashes, each with its `cs:` flag hash |
| ResetRedis.ResetOneField | reset_redis.py:33-44 | resetting one element changes only its hash and its flag hash, as the reset specifies |
| ResetRedis.ResetUpToField | reset_redis.py:32-60 | after the loops each element's hash and flags are reset as the argument asks, and every other hash is left alone |
| ResetRedis.ElementsSeparate | reset_redis.py:34-51 | element hashes and flag hashes never coincide |
| ResetRedis.ElementsHashes | reset_redis.py:34-50 | the hashes reset are exactly the qubits' `transmons:` hashes and the couplers' `couplers:` hashes |
| ResetRedis.ElementsFlags | reset_redis.py:35-51 | the flag hashes reset are exactly the `cs:` hashes of the qubits and the couplers |
| ResetRedis.ResettedFails | reset_redis.py:16-62 | the script fails exactly on an argument it does not list, or on a listed node in neither QOI table when there is a qubit (the unbound `remove_fields`); 'Invalid Field' is never raised |
| ResetRedis.ResetAllState | reset_redis.py:36-40 | 'all' always succeeds: every existing field of every element becomes "nan", every listed node's flag becomes "not_calibrated", and nothing else changes |
| ResetRedis.ResetNodeState | reset_redis.py:24-44 | a single node sets only its own QOI fields to "nan", from the qubit table or else the coupler table, and resets only its own flag |
| ResetRedis.AssignEach | reset_redis.py:37-38 | the field loop leaves the store as setting those fields specifies |
| ResetRedis.ResetElement | reset_redis.py:33-44 | the loop body for one element leaves the store as resetting that element specifies |
| ResetRedis.ResetAllElements | reset_redis.py:32-60 | the qubit loop and then the coupler loop leave the store as the reset of all elements specifies |
| ResetRedis.ResetStore | reset_redis.py:7-62 | the script leaves the store reset as specified, or unchanged with the error when it fails |
| Parsers.SpaceRun | tergite_autocalibration/tools/cli/config/parsers.py:19 | the whitespace run that opens a string: all of it whitespace, stopping at the first other character |
| Parsers.Strip | tergite_autocalibration/tools/cli/config/parsers.py:19 | `strip()` leaves neither leading nor trailing whitespace |
| Parsers.FirstSeparator | tergite_autocalibration/tools/cli/config/parsers.py:19 | the first comma or whitespace character, with none before it; the length when there is none |
| Parsers.MatchEnd | tergite_autocalibration/tools/cli/config/parsers.py:19 | a separator match is non-empty and ends inside the string |
| Parsers.SplitTokens | tergite_autocalibration/tools/cli/config/parsers.py:19 | `re.split` always yields at least one piece |
| Parsers.TokensAvoidSeparators | tergite_autocalibration/tools/cli/config/parsers.py:19 | no piece of the split holds a comma or whitespace |
| Parsers.TokensKeepCharacters | tergite_autocalibration/tools/cli/config/parsers.py:19 | the pieces, concatenated, are the input minus its commas and whitespace: no other character is lost, added or reordered |
| Parsers.LetterRun | tergite_autocalibration/tools/cli/config/parsers.py:27 | the prefix of a range is the maximal run of ASCII letters opening its first end |
| Parsers.DigitRun | tergite_autocalibration/tools/cli/config/parsers.py:28 | the maximal run of digits at a position |
| Parsers.FirstNumber | tergite_autocalibration/tools/cli/config/parsers.py:28-29 | `re.search(r"\d+")` fails, raising AttributeError on `.group()`, exactly when the string has no digit |
| Parsers.NamesSpec | tergite_autocalibration/tools/cli/config/parsers.py:35 | `f"{prefix}{i:02}"` over `range(lo, hi + 1)`: hi - lo + 1 names, name k the prefix followed by digits reading lo + k, all different |
| Parsers.ExpandRangeSpec | tergite_autocalibration/tools/cli/config/parsers.py:26-35 | a range token expands iff it has exactly one '-', a letter prefix and a digit on both ends; then one zero-padded name per number between the ends in either order, all different |
| Parsers.CollectedOk | tergite_autocalibration/tools/cli/config/parsers.py:23-38 | the token loop succeeds iff every range token expands |
| Parsers.CollectedLast | tergite_autocalibration/tools/cli/config/parsers.py:23-38 | one more token adds exactly that token's contribution to the result |
| Parsers.CollectedSound | tergite_autocalibration/tools/cli/config/parsers.py:23-38 | every collected name comes from some token |
| Parsers.CollectedComplete | tergite_autocalibration/tools/cli/config/parsers.py:23-38 | every token's contribution is collected |
| Parsers.CollectedMembers | tergite_autocalibration/tools/cli/config/parsers.py:23-38 | a name is collected iff it is in a range token's expansion or is a non-empty plain token, stripped; empty tokens add nothing |
| Parsers.CollectedPrefix | tergite_autocalibration/tools/cli/config/parsers.py:23-38 | the first token that raises decides the outcome: later tokens do not matter |
| Parsers.CollectTokens | tergite_autocalibration/tools/cli/config/parsers.py:21-38 | the loop with its `result` list computes the collected names or the first exception |
| Parsers.KeyOf | tergite_autocalibration/tools/cli/config/parsers.py:41 | the key `(x[:2], int(x[2:]))` exists iff the name is longer than two characters and its tail is all digits (otherwise ValueError) |
| Parsers.StrLessTotal | tergite_autocalibration/tools/cli/config/parsers.py:41 | string comparison of the key's first part is total |
| Parsers.KeyLeTotal | tergite_autocalibration/tools/cli/config/parsers.py:41 | the tuple order on keys is total |
| Parsers.SortByKey | tergite_autocalibration/tools/cli/config/parsers.py:41 | sorting keeps the number of names |
| Parsers.SortByKeySpec | tergite_autocalibration/tools/cli/config/parsers.py:41 | the sort returns the same names ordered by key, still distinct |
| Parsers.Dedup | tergite_autocalibration/tools/cli/config/parsers.py:41 | `set(result)`: the same members, each once |
| Parsers.KeyAll | tergite_autocalibration/tools/cli/config/parsers.py:41 | every name gets its key, or the sort raises when one has none |
| Parsers.SortedUniqueSpec | tergite_autocalibration/tools/cli/config/parsers.py:41 | `sorted(set(result), key=...)` succeeds iff every name has a key; then it holds each collected name exactly once, in key order |
| Parsers.ParseQubitsSpec | tergite_autocalibration/tools/cli/config/parsers.py:17-41 | the parser fails iff a range does not expand or a name has no key; otherwise a name is returned iff some token of the stripped input contributes it |
| Parsers.ParseInputQubit | tergite_autocalibration/tools/cli/config/parsers.py:17-41 | `parse_input_qubit` returns distinct names, every one with a key, in non-decreasing key order |
| Naming.Digits | tergite_acl/utils/dataset_utils.py:153-154 | a strftime field is exactly its width of decimal digits |
| Naming.DigitsRoundTrip | tergite_acl/utils/dataset_utils.py:153-154 | a field that fits its width reads back as the number it was written from |
| Naming.DigitsPrefix | tergite_acl/utils/dataset_utils.py:154 | cutting `%f` to its first three digits, as `[:19]` does, gives the milliseconds |
| Naming.StampDigits | tergite_acl/utils/dataset_utils.py:153-154 | a stamp of zero-padded fields holds digits only |
| Naming.StampValue | tergite_autocalibration/utils/io/load_dataset.py:23 | the digits of a stamp read back as its fields weighted by the widths after them |
| Naming.HornerMonotone | tergite_autocalibration/utils/io/load_dataset.py:23 | a stamp that is earlier field by field reads as a smaller number |
| Naming.DayStamp | tergite_acl/utils/dataset_utils.py:153 | `%Y%m%d` is eight digits |
| Naming.ClockStamp | tergite_acl/utils/dataset_utils.py:154 | `%H%M%S` is six digits |
| Naming.TimeId | tergite_acl/utils/dataset_utils.py:154 | the time id is 19 characters long |
| Naming.TimeIdShape | tergite_acl/utils/dataset_utils.py:154 | the time id is day stamp, '-', clock stamp, '-', milliseconds, and holds no '.' |
| Naming.Prefix | tergite_acl/utils/dataset_utils.py:155 | `str(uuid4())[:6]` is a prefix of at most six characters |
| Naming.CreateNodeDataPath | tergite_acl/utils/dataset_utils.py:151-157 | the path is the day's directory named by the date, then a measurement id opening with the 19-character time id |
| Naming.LastIndexOf | tergite_acl/utils/dataset_utils.py:191 | `rfind`: the last occurrence of the character, or -1 when there is none |
| Naming.Stem | tergite_acl/utils/dataset_utils.py:191 | the stem is a prefix of the file name |
| Naming.TuidRoundTrip | tergite_acl/utils/dataset_utils.py:189-192 | the tuid `save_dataset` reads from `stem[0:19]` is the time id the path was made from, whatever the UUID and node name hold |
| Naming.ExtractDsDate | tergite_autocalibration/utils/io/load_dataset.py:20-24 | the date is read iff the name has the five '-'-separated fields to unpack and its first three fields join into a digit string |
| Naming.SplitMaxJoin | tergite_autocalibration/utils/io/load_dataset.py:22 | `split("-", 4)` of five parts joined by '-' gives them back when the first four hold no '-' |
| Naming.MeasurementIdFields | tergite_autocalibration/utils/io/load_dataset.py:22 | a measurement id splits into day, clock, milliseconds, UUID prefix and the whole node name, '-' in the name included |
| Naming.ExtractDsDateOfMeasurementId | tergite_autocalibration/utils/io/load_dataset.py:20-24 | the date read back from a measurement id is the key of the instant it was made at |
| Naming.DateKeyMonotone | tergite_autocalibration/utils/io/load_dataset.py:23 | a later instant, to the millisecond, gives a larger date key |
| Naming.Matching | tergite_autocalibration/utils/io/load_dataset.py:29 | the filter keeps exactly the names containing the substring |
| Naming.MaxByOk | tergite_autocalibration/utils/io/load_dataset.py:30 | `max` with a key succeeds iff every key can be computed |
| Naming.MaxByLargest | tergite_autocalibration/utils/io/load_dataset.py:30 | `max` returns a name of the list whose key no other key exceeds |
| Naming.MaxByFirst | tergite_autocalibration/utils/io/load_dataset.py:30 | on a tie `max` returns the earliest name |
| Naming.LatestFileSpec | tergite_autocalibration/utils/io/load_dataset.py:27-30 | a latest file exists iff some name matches and every match has a date; it then matches and has the largest date |

## Left out

- I/O is not modelled: Redis connections, netCDF files, directory walks and `mkdir`. The store is a class holding its hashes, and a dataset on disk is its file name.
- Hardware is not modelled: the SPI DAC and its current ramps, attenuation settings, the cluster and the instrument coordinator set up by `CalibrationSupervisor`. The current a node hands to its DAC is recorded as a value.
- Concurrency is not modelled, in particular the threaded measurement of the execution worker. Every step runs sequentially.
- Plotting is not modelled: figures, axes and the `quantifiles` UI. Only the grid size the post-processing workers compute is kept.
- Floating-point values are not modelled. Grid values, frequencies, amplitudes and durations become opaque sample tokens, and only the number of samples of `linspace`/`arange` is kept. Store values stay the strings Redis holds, so the `float()` parse of a store value is left out. Currents are counted in whole microamperes.
- Fitting and the analysis classes' numerics are a function parameter that returns the QOI list. The time-of-flight analysis `analyze_tof` is one of these parameters.
- networkx's choice among several minimal-weight paths is not modelled. The resolvers promise a path of minimal total weight, not a particular one.
- Schedule construction by quantify-scheduler is not modelled. The model records the arguments a schedule is built from.
- `qubit_samples` keeps the transition frequency as a parameter. `number_or_repeated_T1` of the T1 node is also a parameter.
- tergite_acl/lib/node_base.py, tergite_autocalibration/lib/node_base.py, the parameterized sweep base class, user_input and node_utils are not part of this model. Only the fields that the modelled node classes assign themselves are kept.
- The `Node` class of nodes/node.py is not modelled, because its nested `initialize_node` makes it unusable as written. The graph and `node_definitions` of that file are modelled.
- The other CZ classes of coupler_nodes.py and cz_chevron/node.py are not modelled: characterisation chevron, chevron amplitude, optimize chevron, CZ calibration (SSRO, swap), reset calibration, dynamic phase. Their `validate` is the shared `CouplerNodes.Validate`, but their fields are not modelled.
- Characterization.CharacterizationNode.Dimensions: reads `scheduleSamplespace` where the source reads the base class's `samplespace`, because the base class is not part of this model.
- AclPostProcessing: the tergite_acl analysis's own `update_redis_trusted_values` is not part of this model, so each call is recorded as an update of the element with its quantities.
- Common.ParseInt: accepts ASCII digits only. Python's `int()` also accepts surrounding whitespace, a sign, underscores between digits and other Unicode digits.
- Parsers.KeyOf: inherits the ASCII-only restriction of `Common.ParseInt`.
- Naming.ExtractDsDateOfMeasurementId: holds for instants with a four-digit year. strftime pads other years differently.
- Graph.ShortestPath: computes with a fuel bound equal to the number of nodes, which is enough for a DAG. Its minimality is proved for acyclic graphs only, the only kind the code builds.
- ResetRedis.InvalidChoice: argparse prints its usage and exits with SystemExit(2) on a node outside its choices. The model returns this ValueError in its place, because process exit is not modelled.
- CzChevron.AcFrequency: computes on exact reals. The floating-point rounding of the sums and of `/ 1e4` is not modelled.
- CzChevron.TransitionFrequency: a stored text that `float()` cannot read (a ValueError) is not modelled. A stored frequency is missing, NaN or a number.

## Findings

| source | as written | input that shows it | evidently intended | confidence | as-written member | corrected member |
|---|---|---|---|---|---|---|
| tergite_autocalibration/lib/nodes/qubit_control/rabi_oscillations/node.py:25-30 | none of the Rabi classes sets `qubit_qois` or `coupler_qois`, so `BaseNode.__init__` raises ValueError before the node exists | `Rabi_Oscillations_Node("rabi_oscillations", ["q06"])` | the class declares its QOIs, and the node is built with a 61-amplitude sweep | not executed | NodeSpecs.RabiNodesAsWritten | NodeSpecs.RabiDimensions |
| tergite_autocalibration/lib/nodes/readout/resonator_spectroscopy/node.py:39-44 | the state-1 and state-2 resonator classes set no `qubit_qois`, so construction raises ValueError | `Resonator_Spectroscopy_1_Node("resonator_spectroscopy_1", ["q06"])` | the classes declare their QOIs as the state-0 class does, and the dataset has one frequency sweep per qubit | not executed | NodeSpecs.ResonatorNodesAsWritten | NodeSpecs.Resonator1Dimensions |
| tergite_autocalibration/lib/nodes/coupler/cz_chevron/node.py:27 | `CZ_Chevron_Node` and `Reset_Chevron_Node` set no `coupler_qois`, so construction raises ValueError | `CZ_Chevron_Node("cz_chevron", ["q06", "q07"], ["q06_q07"])` | the classes declare their coupler QOIs, and the chevron dataset is 21 durations by 26 frequencies | not executed | CzChevron.CzChevronNodesAsWritten | CzChevron.CzChevronDimensions |
| tergite_autocalibration/lib/nodes/coupler_nodes.py:44 | `MeasurementMode` is never imported, so building a coupler spectroscopy node raises NameError | `Coupler_Spectroscopy_Node("coupler_spectroscopy", ["q06", "q07"], ["q06_q07"])` | the name is imported, and the node sweeps the first coupler's qubits and sends the i-th current before measurement i | not executed | CouplerNodes.NewCouplerSpectroscopy | CouplerNodes.CouplerSpectroscopyMeasures |
| tergite_autocalibration/lib/nodes/coupler/cz_amplitude/node.py:33 | `np.arange(-1200, -600, -10)` counts down from below the stop and yields no value, so the external current loop measures nothing | any coupler list, e.g. `["q06_q07"]` | a step of +10: 60 currents from -1200 to -610 µA | not executed | CzAmplitude.CzAmplitudeShape | CzAmplitude.CzAmplitudeShapeCorrected |
