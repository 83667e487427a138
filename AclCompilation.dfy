// `precompile` of the tergite_acl package (tergite_acl/functions/compilation_worker.py).
// The transmon is configured by grouping the store's `'submodule:field'`
// entries and writing them over the serialized transmon template; coupler
// edges are read for nodes that have them; the schedule gets the schedule
// and external samplespaces together. Store values are float tokens kept as
// the strings the store holds.
module AclCompilation {

  import opened Common
  import opened Dicts
  import opened Store
  import opened Backup
  import Dataset

  // ---------------------------------------------------------------------
  // Grouping the transmon hash by submodule

  /** A value written into the template: a float read from the store, or
      the acquisition channel. */
  datatype Val = Stored(text: string) | Channel(n: nat)

  /** A submodule of the grouped store entries: field to value. */
  type Fields = map<string, Val>

  /** A store key that `split(':')` cuts into a submodule and a field. */
  predicate ModuleKey(k: string)
  {
    |Split(k, ':')| == 2
  }

  /** The value error `submodule, field = k.split(':')` raises on a key with
      two or more colons. */
  const UnpackError := ValueError("too many values to unpack (expected 2)")

  /** The submodules named by the keys in `done`. */
  function SubsOver(h: Hash, done: set<string>): set<string>
    requires done <= h.Keys
  {
    set k | k in done && ModuleKey(k) :: Split(k, ':')[0]
  }

  /** A key that splits in two is its halves joined by the colon. */
  lemma ModuleKeyJoin(k: string)
    requires ModuleKey(k)
    ensures k == Split(k, ':')[0] + ":" + Split(k, ':')[1]
  {
    JoinSplit(k, ':');
    assert Join(Split(k, ':'), ':') == Split(k, ':')[0] + ":" + Split(k, ':')[1];
  }

  /** The fields of submodule `sub` named by the keys in `done`. */
  function FieldsOver(done: set<string>, sub: string): (fields: set<string>)
    ensures forall f :: f in fields ==> sub + ":" + f in done
  {
    var fields := set k | k in done && ModuleKey(k) && Split(k, ':')[0] == sub :: Split(k, ':')[1];
    assert forall f :: f in fields ==> sub + ":" + f in done by {
      forall f | f in fields ensures sub + ":" + f in done {
        var k :| k in done && ModuleKey(k) && Split(k, ':')[0] == sub && Split(k, ':')[1] == f;
        ModuleKeyJoin(k);
      }
    }
    fields
  }

  /** Submodule `sub` of the keys in `done`: each field with its value. */
  function ModuleOver(h: Hash, done: set<string>, sub: string): Fields
    requires done <= h.Keys
  {
    map f | f in FieldsOver(done, sub) :: Stored(h[sub + ":" + f])
  }

  /** `device_redis_dict` once the keys in `done` have been grouped. */
  function GroupOver(h: Hash, done: set<string>): map<string, Fields>
    requires done <= h.Keys
  {
    map sub | sub in SubsOver(h, done) :: ModuleOver(h, done, sub)
  }

  /** Some key with a colon does not split into exactly two parts. */
  predicate Malformed(h: Hash)
  {
    exists k :: k in h && ':' in k && !ModuleKey(k)
  }

  /** The grouping loop of `load_redis_config`. */
  function Grouped(h: Hash): Result<map<string, Fields>>
  {
    if Malformed(h) then Err(UnpackError) else Ok(GroupOver(h, h.Keys))
  }

  lemma ColonFreeSplit(k: string)
    requires ':' !in k
    ensures Split(k, ':') == [k]
  {
    assert FirstIndexOf(k, ':') == |k|;
  }

  /** Grouping a key without a colon changes nothing. */
  lemma GroupOverPlain(h: Hash, done: set<string>, k: string)
    requires done <= h.Keys && k in h && ':' !in k
    ensures GroupOver(h, done + {k}) == GroupOver(h, done)
  {
    ColonFreeSplit(k);
    assert !ModuleKey(k);
    assert SubsOver(h, done + {k}) == SubsOver(h, done);
    forall sub ensures ModuleOver(h, done + {k}, sub) == ModuleOver(h, done, sub) {
    }
  }

  /** Grouping `'sub:field'` adds the field to that submodule alone. */
  lemma ModuleOverStep(h: Hash, done: set<string>, k: string, s: string)
    requires done <= h.Keys && k in h && k !in done && ModuleKey(k)
    ensures ModuleOver(h, done + {k}, s) ==
      if s == Split(k, ':')[0] then ModuleOver(h, done, s)[Split(k, ':')[1] := Stored(h[k])]
      else ModuleOver(h, done, s)
  {
    var sub, field := Split(k, ':')[0], Split(k, ':')[1];
    ModuleKeyJoin(k);
    assert FieldsOver(done + {k}, s) == FieldsOver(done, s) + (if s == sub then {field} else {});
  }

  /** Grouping one more key. */
  lemma GroupOverStep(h: Hash, done: set<string>, k: string)
    requires done <= h.Keys && k in h && k !in done && ModuleKey(k)
    ensures var sub, field := Split(k, ':')[0], Split(k, ':')[1];
      var g := GroupOver(h, done);
      GroupOver(h, done + {k}) == g[sub := (if sub in g then g[sub] else map[])[field := Stored(h[k])]]
  {
    var done' := done + {k};
    var sub, field := Split(k, ':')[0], Split(k, ':')[1];
    var g, g' := GroupOver(h, done), GroupOver(h, done');
    var expected := g[sub := (if sub in g then g[sub] else map[])[field := Stored(h[k])]];
    assert SubsOver(h, done') == SubsOver(h, done) + {sub};
    assert g'.Keys == expected.Keys;
    forall s | s in g' ensures g'[s] == expected[s] {
      ModuleOverStep(h, done, k, s);
      if s == sub && sub !in g {
        assert FieldsOver(done, sub) == {};
      }
    }
  }

  /** `device_redis_dict[sub][field]` is exactly the store's `'sub:field'`:
      every such entry is there, and nothing else is. */
  lemma GroupedSpec(h: Hash, sub: string, field: string)
    requires ':' !in sub && ':' !in field
    requires Grouped(h).Ok?
    ensures var g := Grouped(h).value;
      (sub in g && field in g[sub]) <==> sub + ":" + field in h
    ensures var g := Grouped(h).value;
      sub in g && field in g[sub] ==> g[sub][field] == Stored(h[sub + ":" + field])
  {
    var k := sub + ":" + field;
    assert Join([sub, field], ':') == k;
    SplitJoin([sub, field], ':');
    if k in h {
      assert ModuleKey(k);
      assert sub in SubsOver(h, h.Keys);
      assert field in FieldsOver(h.Keys, sub);
    }
  }

  /** The grouping fails exactly on a key with more than one colon. */
  lemma GroupedFails(h: Hash)
    ensures Grouped(h).Err? <==> exists k :: k in h && |Split(k, ':')| > 2
  {
    forall k | k in h && ':' in k ensures |Split(k, ':')| >= 2 {
      var i := FirstIndexOf(k, ':');
      assert i < |k|;
    }
    forall k | k in h && |Split(k, ':')| > 2 ensures ':' in k {
      if ':' !in k {
        ColonFreeSplit(k);
      }
    }
  }

  method GroupEntries(h: Hash) returns (r: Result<map<string, Fields>>)
    ensures r == Grouped(h)
  {
    var device: map<string, Fields> := map[];
    var todo := h.Keys;
    while todo != {}
      invariant todo <= h.Keys
      invariant forall k :: k in h.Keys - todo && ':' in k ==> ModuleKey(k)
      invariant device == GroupOver(h, h.Keys - todo)
      decreases |todo|
    {
      var k :| k in todo;
      if ':' in k {
        var parts := Split(k, ':');
        if |parts| != 2 {
          assert Malformed(h);
          return Err(UnpackError);
        }
        var sub, field := parts[0], parts[1];
        device := device[sub := (if sub in device then device[sub] else map[])[field := Stored(h[k])]];
        GroupOverStep(h, h.Keys - todo, k);
      } else {
        GroupOverPlain(h, h.Keys - todo, k);
      }
      assert h.Keys - (todo - {k}) == (h.Keys - todo) + {k};
      todo := todo - {k};
    }
    assert h.Keys - todo == h.Keys;
    return Ok(device);
  }

  // ---------------------------------------------------------------------
  // Writing the groups over the serialized transmon

  /** A submodule of the serialized transmon's `data`: a dict of fields, or
      any other JSON value. */
  datatype Module = Group(fields: Fields) | Plain(text: string)

  /** `decoded_transmon['data']`, in its JSON order. */
  type Template = Dict<Module>

  /** `dict.update` with a non-empty string, which is not a sequence of pairs. */
  const UpdateSeqError := ValueError("dictionary update sequence element #0 has length 1; 2 is required")

  /** One submodule of the template: a dict present in the grouped entries
      takes them (they win on a clash); 'name' is the qubit's name string;
      a submodule whose name contains 'measure' then gets the channel. */
  function UpdateModule(sub: string, content: Module, device: map<string, Fields>, qubit: string, channel: nat)
    : Result<Module>
  {
    var updated :=
      if content.Group? && sub == "name" then
        if qubit == "" then Ok(content) else Err(UpdateSeqError)
      else if content.Group? && sub in device then Ok(Group(content.fields + device[sub]))
      else Ok(content);
    if updated.Err? || !IsSubstring("measure", sub) then updated
    else if updated.value.Group? then Ok(Group(updated.value.fields["acq_channel" := Channel(channel)]))
    else Err(AttributeError)
  }

  /** The template loop, stopping at the first failure. */
  function UpdateAll(t: Template, device: map<string, Fields>, qubit: string, channel: nat): Result<Template>
  {
    if |t| == 0 then Ok([])
    else
      var init := UpdateAll(t[..|t| - 1], device, qubit, channel);
      var (sub, content) := t[|t| - 1];
      if init.Err? then init
      else
        var m := UpdateModule(sub, content, device, qubit, channel);
        if m.Err? then Err(m.error) else Ok(init.value + [(sub, m.value)])
  }

  /** The template keeps its submodules in order, each updated on its own;
      the update fails exactly when one submodule's does. */
  lemma {:induction false} UpdateAllSpec(t: Template, device: map<string, Fields>, qubit: string, channel: nat)
    ensures var r := UpdateAll(t, device, qubit, channel);
      (r.Err? <==> exists i :: 0 <= i < |t| && UpdateModule(t[i].0, t[i].1, device, qubit, channel).Err?) &&
      (r.Ok? ==> (|r.value| == |t| &&
        forall i :: 0 <= i < |t| ==>
          r.value[i].0 == t[i].0 && Ok(r.value[i].1) == UpdateModule(t[i].0, t[i].1, device, qubit, channel)))
  {
    if |t| > 0 {
      var init := t[..|t| - 1];
      UpdateAllSpec(init, device, qubit, channel);
      var r := UpdateAll(t, device, qubit, channel);
      if UpdateAll(init, device, qubit, channel).Err? {
        var i :| 0 <= i < |init| && UpdateModule(init[i].0, init[i].1, device, qubit, channel).Err?;
        assert init[i] == t[i];
      } else if r.Ok? {
        forall i | 0 <= i < |t|
          ensures r.value[i].0 == t[i].0 && Ok(r.value[i].1) == UpdateModule(t[i].0, t[i].1, device, qubit, channel)
        {
          if i < |init| {
            assert init[i] == t[i];
            assert r.value[i] == UpdateAll(init, device, qubit, channel).value[i];
          }
        }
      }
    }
  }

  /** What one submodule ends up holding: every measurement operation
      acquires on the channel; a dict submodule other than 'name' takes the
      store's fields over its own; a submodule neither in the store nor a
      measurement is left as it was. It fails only on a non-empty qubit
      name written over a dict 'name', or on a measurement that is no dict. */
  lemma UpdateModuleSpec(sub: string, content: Module, device: map<string, Fields>, qubit: string, channel: nat)
    ensures var r := UpdateModule(sub, content, device, qubit, channel);
      (r.Err? <==> (content.Group? && sub == "name" && qubit != "") || (content.Plain? && IsSubstring("measure", sub))) &&
      (r.Ok? && IsSubstring("measure", sub) ==>
         r.value.Group? && "acq_channel" in r.value.fields && r.value.fields["acq_channel"] == Channel(channel)) &&
      (r.Ok? && content.Group? && sub != "name" && sub in device ==>
         r.value.Group? &&
         forall f :: f in device[sub] && (f != "acq_channel" || !IsSubstring("measure", sub)) ==>
           f in r.value.fields && r.value.fields[f] == device[sub][f]) &&
      (r.Ok? && content.Group? && sub != "name" && sub !in device && !IsSubstring("measure", sub) ==> r.value == content) &&
      (content.Plain? && !IsSubstring("measure", sub) ==> r == Ok(content))
  {
  }

  /** `load_redis_config(transmon, channel)`: the template of the qubit's
      transmon, configured from its hash. */
  function LoadTransmon(h: Hash, qubit: string, channel: nat, template: Template): Result<Template>
  {
    var g := Grouped(h);
    if g.Err? then Err(g.error) else UpdateAll(template, g.value, qubit, channel)
  }

  method UpdateTemplate(t: Template, device: map<string, Fields>, qubit: string, channel: nat)
    returns (r: Result<Template>)
    ensures r == UpdateAll(t, device, qubit, channel)
  {
    var data := t;
    var i := 0;
    while i < |t|
      invariant 0 <= i <= |t| && |data| == |t|
      invariant data[i..] == t[i..]
      invariant UpdateAll(t[..i], device, qubit, channel) == Ok(data[..i])
    {
      assert t[..i + 1][..i] == t[..i];
      assert data[i] == t[i];
      var (sub, content) := data[i];
      var m := UpdateModule(sub, content, device, qubit, channel);
      if m.Err? {
        UpdateAllPrefix(t, device, qubit, channel, i + 1);
        return Err(m.error);
      }
      data := data[i := (sub, m.value)];
      assert data[..i + 1] == data[..i] + [(sub, m.value)];
      i := i + 1;
    }
    assert t[..|t|] == t && data[..|t|] == data;
    return Ok(data);
  }

  lemma {:induction false} UpdateAllPrefix(t: Template, device: map<string, Fields>, qubit: string, channel: nat, n: nat)
    requires n <= |t|
    requires UpdateAll(t[..n], device, qubit, channel).Err?
    ensures UpdateAll(t, device, qubit, channel) == UpdateAll(t[..n], device, qubit, channel)
    decreases |t| - n
  {
    if n < |t| {
      assert t[..n + 1][..n] == t[..n];
      UpdateAllPrefix(t, device, qubit, channel, n + 1);
    } else {
      assert t[..n] == t;
    }
  }

  method LoadRedisConfig(store: ParameterStore, qubit: string, channel: nat, template: Template)
    returns (r: Result<Template>)
    ensures r == LoadTransmon(store.GetAll(TransmonKey(qubit)), qubit, channel, template)
  {
    var device := GroupEntries(store.GetAll(TransmonKey(qubit)));
    if device.Err? {
      return Err(device.error);
    }
    r := UpdateTemplate(template, device.value, qubit, channel);
  }

  // ---------------------------------------------------------------------
  // Coupler edges

  /** A `CompositeSquareEdge` with the CZ parameters from the store. */
  datatype Edge = Edge(control: string, target: string, czFreq: string, squareAmp: string,
                       squareDuration: string, czWidth: string)

  /** The fields `load_redis_config_coupler` reads, in order. */
  const CouplerFields: seq<string> := ["cz_pulse_frequency", "cz_pulse_amplitude", "cz_pulse_duration", "cz_pulse_width"]

  /** `control, target = bus.split(sep='_')` and the coupler's parameters. */
  function LoadEdge(h: Hashes, bus: string): Result<Edge>
  {
    var parts := Split(bus, '_');
    if |parts| < 2 then Err(ValueError("not enough values to unpack (expected 2, got 1)"))
    else if |parts| > 2 then Err(UnpackError)
    else
      var values := ReadFields(HashAt(h, CouplerKey(bus)), CouplerFields);
      if values.Err? then Err(values.error)
      else Ok(Edge(parts[0], parts[1], values.value[0], values.value[1], values.value[2], values.value[3]))
  }

  /** An edge loads exactly when its name has one underscore and its coupler
      hash has the four CZ fields; its halves join back to the name. */
  lemma LoadEdgeSpec(h: Hashes, bus: string)
    ensures var r := LoadEdge(h, bus);
      (r.Ok? <==> |Split(bus, '_')| == 2 && forall f :: f in CouplerFields ==> f in HashAt(h, CouplerKey(bus))) &&
      (r.Ok? ==> r.value.control + "_" + r.value.target == bus &&
                 '_' !in r.value.control && '_' !in r.value.target &&
                 r.value.czFreq == HashAt(h, CouplerKey(bus))["cz_pulse_frequency"] &&
                 r.value.squareAmp == HashAt(h, CouplerKey(bus))["cz_pulse_amplitude"])
  {
    var parts := Split(bus, '_');
    JoinSplit(bus, '_');
    SplitPartsAvoidSeparator(bus, '_');
    if |parts| == 2 {
      assert Join(parts, '_') == parts[0] + "_" + parts[1];
    }
    assert forall f :: f in CouplerFields <==> exists i :: 0 <= i < 4 && CouplerFields[i] == f;
  }

  /** `edges[bus] = coupler` for each bus of the node, in order. */
  function LoadedEdges(h: Hashes, buses: seq<string>): Result<Dict<Edge>>
  {
    if |buses| == 0 then Ok([])
    else
      var init := LoadedEdges(h, buses[..|buses| - 1]);
      var bus := buses[|buses| - 1];
      if init.Err? then init
      else
        var e := LoadEdge(h, bus);
        if e.Err? then Err(e.error) else Ok(Put(init.value, bus, e.value))
  }

  /** The edges are loaded exactly when each one loads. */
  lemma {:induction false} LoadedEdgesFails(h: Hashes, buses: seq<string>)
    ensures LoadedEdges(h, buses).Err? <==> exists i :: 0 <= i < |buses| && LoadEdge(h, buses[i]).Err?
  {
    if |buses| > 0 {
      var init := buses[..|buses| - 1];
      LoadedEdgesFails(h, init);
      if LoadedEdges(h, init).Err? {
        var i :| 0 <= i < |init| && LoadEdge(h, init[i]).Err?;
        assert init[i] == buses[i];
      } else {
        assert forall i :: 0 <= i < |init| ==> init[i] == buses[i];
      }
    }
  }

  /** Loaded edges are keyed by exactly the node's buses. */
  lemma {:induction false} LoadedEdgesKeys(h: Hashes, buses: seq<string>)
    requires LoadedEdges(h, buses).Ok?
    ensures Valid(LoadedEdges(h, buses).value)
    ensures forall bus :: Has(LoadedEdges(h, buses).value, bus) <==> bus in buses
  {
    if |buses| > 0 {
      var init := buses[..|buses| - 1];
      var bus := buses[|buses| - 1];
      LoadedEdgesKeys(h, init);
      var ri := LoadedEdges(h, init).value;
      var e := LoadEdge(h, bus).value;
      PutValid(ri, bus, e);
      forall b ensures Has(Put(ri, bus, e), b) <==> b in buses {
        PutHas(ri, bus, e, b);
        assert b in buses <==> b in init || b == bus;
      }
    }
  }

  /** Every bus of the node holds its own edge. */
  lemma {:induction false} LoadedEdgesGet(h: Hashes, buses: seq<string>, i: nat)
    requires LoadedEdges(h, buses).Ok? && i < |buses|
    ensures Has(LoadedEdges(h, buses).value, buses[i])
    ensures Ok(Get(LoadedEdges(h, buses).value, buses[i])) == LoadEdge(h, buses[i])
  {
    var init := buses[..|buses| - 1];
    var bus := buses[|buses| - 1];
    LoadedEdgesKeys(h, init);
    var ri := LoadedEdges(h, init).value;
    var e := LoadEdge(h, bus).value;
    PutGet(ri, bus, e, buses[i]);
    PutHas(ri, bus, e, buses[i]);
    if i < |init| && buses[i] != bus {
      assert init[i] == buses[i];
      LoadedEdgesGet(h, init, i);
    }
  }

  method LoadEdges(store: ParameterStore, buses: seq<string>) returns (r: Result<Dict<Edge>>)
    ensures r == LoadedEdges(store.hashes, buses)
  {
    var edges: Dict<Edge> := [];
    var i := 0;
    while i < |buses|
      invariant 0 <= i <= |buses|
      invariant LoadedEdges(store.hashes, buses[..i]) == Ok(edges)
    {
      assert buses[..i + 1][..i] == buses[..i];
      var bus := buses[i];
      var parts := Split(bus, '_');
      if |parts| != 2 {
        assert LoadedEdges(store.hashes, buses[..i + 1]).Err?;
        LoadedEdgesPrefix(store.hashes, buses, i + 1);
        return Err(if |parts| < 2 then ValueError("not enough values to unpack (expected 2, got 1)") else UnpackError);
      }
      var values := ReadFields(store.GetAll(CouplerKey(bus)), CouplerFields);
      if values.Err? {
        assert LoadedEdges(store.hashes, buses[..i + 1]).Err?;
        LoadedEdgesPrefix(store.hashes, buses, i + 1);
        return Err(values.error);
      }
      var edge := Edge(parts[0], parts[1], values.value[0], values.value[1], values.value[2], values.value[3]);
      edges := Put(edges, bus, edge);
      i := i + 1;
    }
    assert buses[..|buses|] == buses;
    return Ok(edges);
  }

  lemma {:induction false} LoadedEdgesPrefix(h: Hashes, buses: seq<string>, n: nat)
    requires n <= |buses|
    requires LoadedEdges(h, buses[..n]).Err?
    ensures LoadedEdges(h, buses) == LoadedEdges(h, buses[..n])
    decreases |buses| - n
  {
    if n < |buses| {
      assert buses[..n + 1][..n] == buses[..n];
      LoadedEdgesPrefix(h, buses, n + 1);
    } else {
      assert buses[..n] == buses;
    }
  }

  // ---------------------------------------------------------------------
  // `precompile`

  /** The node as `precompile` reads it; `coupler` and `edges` are absent
      when the node has no such attribute. */
  datatype AclNode = AclNode(
    name: string,
    allQubits: seq<string>,
    backup: bool,
    redisField: seq<string>,
    coupler: Option<seq<string>>,
    edges: Option<seq<string>>,
    scheduleSamplespace: Dataset.Samplespace,
    externalSamplespace: Dataset.Samplespace)

  /** Nodes measured single-shot: the device runs each schedule once. */
  const SingleShotNodes: seq<string> := ["ro_amplitude_three_state_optimization", "cz_calibration_ssro"]

  /** `2**10`, the demodulation repetitions when none is given. */
  const DefaultRepetitions: nat := 1024

  /** What `precompile` returns: `(None, 1)` for 'tof', otherwise what the
      schedule is built and compiled from. */
  datatype Compiled =
    | Tof
    | Schedule(samplespace: Dataset.Samplespace, device: seq<Template>, edges: Dict<Edge>,
               singleShot: bool, demodRepetitions: nat)

  /** The transmons of the device, each configured on the channel of its
      position in `all_qubits`. */
  function LoadedDevice(h: Hashes, qubits: seq<string>, templateOf: string -> Template): Result<seq<Template>>
  {
    Enumerate(FromStore(h, templateOf), qubits)
  }

  /** The transmon of a qubit, configured on a channel from the store. */
  function FromStore(h: Hashes, templateOf: string -> Template): (string, nat) -> Result<Template>
  {
    (q: string, channel: nat) => LoadTransmon(HashAt(h, TransmonKey(q)), q, channel, templateOf(q))
  }

  /** The part of `precompile` after the backup, on the hashes it reads and
      the transmon template of each qubit. */
  function CompileFrom(h: Hashes, node: AclNode, repetitions: Option<int>, templateOf: string -> Template)
    : Result<Compiled>
  {
    var device := LoadedDevice(h, node.allQubits, templateOf);
    if device.Err? then Err(device.error)
    else
      var edges := if node.edges.Some? then LoadedEdges(h, node.edges.value) else Ok([]);
      if edges.Err? then Err(edges.error)
      // `static_parameters["repetitions"] = repetitions`: the name was never bound
      else if repetitions.Some? then Err(UnboundLocal("static_parameters"))
      else
        Ok(Schedule(Merge(node.scheduleSamplespace, node.externalSamplespace), device.value, edges.value,
                    node.name in SingleShotNodes, DefaultRepetitions))
  }

  /** Passing a repetition count never compiles: once the device and edges
      load, it fails on the unbound `static_parameters`. Without one, the
      demodulation runs 1024 times, each qubit is configured on its own
      channel, and the schedule gets the union of the two samplespaces,
      the external one winning on a shared quantity. */
  lemma CompileFromSpec(h: Hashes, node: AclNode, repetitions: Option<int>, templateOf: string -> Template,
                        quantity: string)
    requires Dicts.Valid(node.scheduleSamplespace) && Dicts.Valid(node.externalSamplespace)
    ensures var r := CompileFrom(h, node, repetitions, templateOf);
      (repetitions.Some? ==> r.Err?) &&
      ((repetitions.Some? && LoadedDevice(h, node.allQubits, templateOf).Ok? &&
        (node.edges.Some? ==> LoadedEdges(h, node.edges.value).Ok?)) ==> r == Err(UnboundLocal("static_parameters"))) &&
      (r.Ok? ==> r.value.demodRepetitions == 1024 &&
                 |r.value.device| == |node.allQubits| &&
                 (forall i :: 0 <= i < |node.allQubits| ==>
                   LoadTransmon(HashAt(h, TransmonKey(node.allQubits[i])), node.allQubits[i], i,
                                templateOf(node.allQubits[i])) == Ok(r.value.device[i])) &&
                 (Has(r.value.samplespace, quantity) <==>
                   Has(node.scheduleSamplespace, quantity) || Has(node.externalSamplespace, quantity)) &&
                 (Has(node.externalSamplespace, quantity) ==>
                   Get(r.value.samplespace, quantity) == Get(node.externalSamplespace, quantity)) &&
                 (!Has(node.externalSamplespace, quantity) && Has(node.scheduleSamplespace, quantity) ==>
                   Get(r.value.samplespace, quantity) == Get(node.scheduleSamplespace, quantity)))
  {
    EnumerateSpec(FromStore(h, templateOf), node.allQubits);
    MergeGet(node.scheduleSamplespace, node.externalSamplespace, quantity);
  }

  method LoadAclDevice(store: ParameterStore, qubits: seq<string>, templateOf: string -> Template)
    returns (r: Result<seq<Template>>)
    ensures r == LoadedDevice(store.hashes, qubits, templateOf)
  {
    ghost var load := FromStore(store.hashes, templateOf);
    var device: seq<Template> := [];
    var channel := 0;
    while channel < |qubits|
      invariant 0 <= channel <= |qubits|
      invariant LoadedDevice(store.hashes, qubits[..channel], templateOf) == Ok(device)
    {
      assert qubits[..channel + 1][..channel] == qubits[..channel];
      var qubit := qubits[channel];
      var transmon := LoadRedisConfig(store, qubit, channel, templateOf(qubit));
      if transmon.Err? {
        assert Enumerate(load, qubits[..channel + 1]).Err?;
        EnumeratePrefix(load, qubits, channel + 1);
        return Err(transmon.error);
      }
      device := device + [transmon.value];
      channel := channel + 1;
    }
    assert qubits[..|qubits|] == qubits;
    return Ok(device);
  }

  /** `precompile(node, bin_mode, repetitions)`, with `templateOf` the
      serialized `ExtendedTransmon` of each qubit. */
  method Precompile(store: ParameterStore, node: AclNode, repetitions: Option<int>, templateOf: string -> Template)
    returns (r: Result<Compiled>)
    modifies store
    ensures node.name == "tof" ==> r == Ok(Tof) && store.hashes == old(store.hashes)
    ensures node.name != "tof" ==>
      store.hashes == (if node.backup then BackupAll(old(store.hashes), node.redisField, node.allQubits, node.coupler)
                       else old(store.hashes))
    ensures node.name != "tof" ==> r == CompileFrom(store.hashes, node, repetitions, templateOf)
  {
    if node.name == "tof" {
      return Ok(Tof);
    }
    if node.backup {
      BackupStore(store, node.redisField, node.allQubits, node.coupler);
    }
    var device := LoadAclDevice(store, node.allQubits, templateOf);
    if device.Err? {
      return Err(device.error);
    }
    var edges: Dict<Edge> := [];
    if node.edges.Some? {
      var loaded := LoadEdges(store, node.edges.value);
      if loaded.Err? {
        return Err(loaded.error);
      }
      edges := loaded.value;
    }
    var singleShot := node.name in SingleShotNodes;
    if repetitions.Some? {
      return Err(UnboundLocal("static_parameters"));
    }
    var samplespace := Merge(node.scheduleSamplespace, node.externalSamplespace);
    return Ok(Schedule(samplespace, device.value, edges, singleShot, DefaultRepetitions));
  }
}
