// The calibration supervisor of the worker-based pipeline
// (workers/calibration_supervisor.py): the couplers of a qubit chain, the
// population of the parameter store with the quantities of interest and
// the initial parameters, the status of a node read from the `cs:` flags,
// and the loop over the nodes of the calibration order.
module Supervisor {

  import opened Common
  import opened Dicts
  import opened Store
  import Graph

  // ---------------------------------------------------------------------
  // Couplers.

  /** The name of the coupler between two qubits. */
  function CouplerName(a: string, b: string): string
  {
    a + "_" + b
  }

  /** The couplers of a qubit chain: each pair of neighbours, in order. */
  function Couplers(qubits: seq<string>): (cs: seq<string>)
    ensures |cs| == if |qubits| == 0 then 0 else |qubits| - 1
  {
    if |qubits| <= 1 then []
    else seq(|qubits| - 1, i requires 0 <= i < |qubits| - 1 => CouplerName(qubits[i], qubits[i + 1]))
  }

  /** Splitting a coupler name on '_' gives back its two qubits, as long as
      qubit names contain no '_'. */
  lemma CouplerNameSplit(a: string, b: string)
    requires '_' !in a && '_' !in b
    ensures Split(CouplerName(a, b), '_') == [a, b]
  {
    JoinCons(a, [b], '_');
    SplitJoin([a, b], '_');
  }

  /** The couplers are the names of the neighbouring pairs of the chain. */
  lemma CouplersSplit(qubits: seq<string>, i: nat)
    requires forall q :: q in qubits ==> '_' !in q
    requires i + 1 < |qubits|
    ensures Split(Couplers(qubits)[i], '_') == [qubits[i], qubits[i + 1]]
  {
    var a, b := qubits[i], qubits[i + 1];
    assert a in qubits && b in qubits;
    var c := Couplers(qubits)[i];
    assert c == CouplerName(a, b);
    CouplerNameSplit(a, b);
  }

  // ---------------------------------------------------------------------
  // Store keys.

  predicate StartsWith(s: string, prefix: string)
  {
    |prefix| <= |s| && s[..|prefix|] == prefix
  }

  const StatusPrefix := "cs:"

  lemma KeysDisjoint(q: string, c: string, e: string)
    ensures !StartsWith(TransmonKey(q), StatusPrefix) && !StartsWith(CouplerKey(c), StatusPrefix)
    ensures StartsWith(StatusKey(e), StatusPrefix)
    ensures TransmonKey(q) != CouplerKey(c)
  {
    assert TransmonKey(q)[0] == 't' && TransmonKey(q)[1] == 'r';
    assert CouplerKey(c)[0] == 'c' && CouplerKey(c)[1] == 'o';
    assert StatusKey(e)[..3] == StatusPrefix;
  }

  lemma KeysInjective(a: string, b: string)
    ensures TransmonKey(a) == TransmonKey(b) <==> a == b
    ensures CouplerKey(a) == CouplerKey(b) <==> a == b
    ensures StatusKey(a) == StatusKey(b) <==> a == b
  {
    if TransmonKey(a) == TransmonKey(b) {
      assert a == TransmonKey(a)[10..] && b == TransmonKey(b)[10..];
    }
    if CouplerKey(a) == CouplerKey(b) {
      assert a == CouplerKey(a)[9..] && b == CouplerKey(b)[9..];
    }
    if StatusKey(a) == StatusKey(b) {
      assert a == StatusKey(a)[3..] && b == StatusKey(b)[3..];
    }
  }

  // ---------------------------------------------------------------------
  // Quantities of interest: written only where absent.

  /** node -> quantity of interest -> value it starts with ("nan"). */
  type Qois = Dict<Dict<string>>

  /** One entity's writes for one node: its quantities of interest under
      `key`, then the node's flag under `flag`. */
  function EntityPopulation(key: string, flag: string, node: string, params: Dict<string>): seq<Write>
  {
    FieldWrites(key, params) + [Write(flag, node, NotCalibrated)]
  }

  /** The writes for one node, qubit by qubit, then coupler by coupler. */
  function QubitsPopulation(qubits: seq<string>, node: string, params: Dict<string>): seq<Write>
  {
    if |qubits| == 0 then []
    else
      EntityPopulation(TransmonKey(qubits[0]), StatusKey(qubits[0]), node, params) +
      QubitsPopulation(qubits[1..], node, params)
  }

  function CouplersPopulation(couplers: seq<string>, node: string, params: Dict<string>): seq<Write>
  {
    if |couplers| == 0 then []
    else
      EntityPopulation(CouplerKey(couplers[0]), StatusKey(couplers[0]), node, params) +
      CouplersPopulation(couplers[1..], node, params)
  }

  /** Every write `calibrate_system` tries, in order, node by node. */
  function Population(qois: Qois, qubits: seq<string>, couplers: seq<string>): seq<Write>
  {
    if |qois| == 0 then []
    else
      QubitsPopulation(qubits, qois[0].0, qois[0].1) + CouplersPopulation(couplers, qois[0].0, qois[0].1) +
      Population(qois[1..], qubits, couplers)
  }

  /** The store after population. */
  function Populate(h: Hashes, qois: Qois, qubits: seq<string>, couplers: seq<string>): Hashes
  {
    DefaultAll(h, Population(qois, qubits, couplers))
  }

  /** The only writes to a `cs:` hash are 'not_calibrated' flags. */
  predicate FlagsNotCalibrated(ws: seq<Write>)
  {
    forall w :: w in ws && StartsWith(w.key, StatusPrefix) ==> w.value == NotCalibrated
  }

  lemma {:induction false} QubitsPopulationShape(qubits: seq<string>, node: string, params: Dict<string>)
    ensures FlagsNotCalibrated(QubitsPopulation(qubits, node, params))
    ensures forall q :: q in qubits ==> Write(StatusKey(q), node, NotCalibrated) in QubitsPopulation(qubits, node, params)
    ensures forall q, i :: q in qubits && 0 <= i < |params| ==>
      Write(TransmonKey(q), params[i].0, params[i].1) in QubitsPopulation(qubits, node, params)
  {
    if |qubits| > 0 {
      QubitsPopulationShape(qubits[1..], node, params);
      KeysDisjoint(qubits[0], "", qubits[0]);
      var e := EntityPopulation(TransmonKey(qubits[0]), StatusKey(qubits[0]), node, params);
      assert forall i :: 0 <= i < |params| ==> e[i] == Write(TransmonKey(qubits[0]), params[i].0, params[i].1);
      assert forall q :: q in qubits ==> q == qubits[0] || q in qubits[1..];
    }
  }

  lemma {:induction false} CouplersPopulationShape(couplers: seq<string>, node: string, params: Dict<string>)
    ensures FlagsNotCalibrated(CouplersPopulation(couplers, node, params))
    ensures forall c :: c in couplers ==> Write(StatusKey(c), node, NotCalibrated) in CouplersPopulation(couplers, node, params)
    ensures forall c, i :: c in couplers && 0 <= i < |params| ==>
      Write(CouplerKey(c), params[i].0, params[i].1) in CouplersPopulation(couplers, node, params)
  {
    if |couplers| > 0 {
      CouplersPopulationShape(couplers[1..], node, params);
      KeysDisjoint("", couplers[0], couplers[0]);
      var e := EntityPopulation(CouplerKey(couplers[0]), StatusKey(couplers[0]), node, params);
      assert forall i :: 0 <= i < |params| ==> e[i] == Write(CouplerKey(couplers[0]), params[i].0, params[i].1);
      assert forall c :: c in couplers ==> c == couplers[0] || c in couplers[1..];
    }
  }

  /** Population writes a flag for every node and entity, each one
      'not_calibrated', and every quantity of interest of every entity. */
  lemma {:induction false} PopulationShape(qois: Qois, qubits: seq<string>, couplers: seq<string>)
    ensures FlagsNotCalibrated(Population(qois, qubits, couplers))
    ensures forall e, k :: (e in qubits || e in couplers) && 0 <= k < |qois| ==>
      Write(StatusKey(e), qois[k].0, NotCalibrated) in Population(qois, qubits, couplers)
    ensures forall q, k, i :: q in qubits && 0 <= k < |qois| && 0 <= i < |qois[k].1| ==>
      Write(TransmonKey(q), qois[k].1[i].0, qois[k].1[i].1) in Population(qois, qubits, couplers)
    ensures forall c, k, i :: c in couplers && 0 <= k < |qois| && 0 <= i < |qois[k].1| ==>
      Write(CouplerKey(c), qois[k].1[i].0, qois[k].1[i].1) in Population(qois, qubits, couplers)
  {
    if |qois| > 0 {
      PopulationShape(qois[1..], qubits, couplers);
      QubitsPopulationShape(qubits, qois[0].0, qois[0].1);
      CouplersPopulationShape(couplers, qois[0].0, qois[0].1);
      assert forall k :: 1 <= k < |qois| ==> qois[k] == qois[1..][k - 1];
    }
  }

  /** Population never overwrites: a field present before keeps its value. */
  lemma PopulateKeeps(h: Hashes, qois: Qois, qubits: seq<string>, couplers: seq<string>, key: string, field: string)
    requires FieldOf(h, key, field).Some?
    ensures FieldOf(Populate(h, qois, qubits, couplers), key, field) == FieldOf(h, key, field)
  {
    DefaultAllValue(h, Population(qois, qubits, couplers), key, field);
  }

  /** After population every qubit and coupler has a flag for every node:
      the one it had, or 'not_calibrated'. */
  lemma PopulateFlags(h: Hashes, qois: Qois, qubits: seq<string>, couplers: seq<string>, e: string, node: string)
    requires e in qubits || e in couplers
    requires Has(qois, node)
    ensures FieldOf(Populate(h, qois, qubits, couplers), StatusKey(e), node) ==
      (if FieldOf(h, StatusKey(e), node).Some? then FieldOf(h, StatusKey(e), node) else Some(NotCalibrated))
  {
    var ws := Population(qois, qubits, couplers);
    DefaultAllValue(h, ws, StatusKey(e), node);
    PopulationShape(qois, qubits, couplers);
    var k := IndexOf(qois, node);
    var i :| 0 <= i < |ws| && ws[i] == Write(StatusKey(e), node, NotCalibrated);
    assert Writes(ws[i], StatusKey(e), node);
    var r := FirstWrite(ws, StatusKey(e), node);
    var j :| 0 <= j < |ws| && Writes(ws[j], StatusKey(e), node) && ws[j].value == r.value;
    KeysDisjoint("", "", e);
    assert ws[j] in ws;
  }

  /** After population every quantity of interest of every node is present
      for every qubit and coupler. */
  lemma PopulatePresent(h: Hashes, qois: Qois, qubits: seq<string>, couplers: seq<string>, k: nat, i: nat)
    requires k < |qois| && i < |qois[k].1|
    ensures forall q :: q in qubits ==> FieldOf(Populate(h, qois, qubits, couplers), TransmonKey(q), qois[k].1[i].0).Some?
    ensures forall c :: c in couplers ==> FieldOf(Populate(h, qois, qubits, couplers), CouplerKey(c), qois[k].1[i].0).Some?
  {
    var ws := Population(qois, qubits, couplers);
    PopulationShape(qois, qubits, couplers);
    DefaultAllPresent(h, ws);
  }

  /** Running the population twice is running it once. */
  lemma PopulateIdempotent(h: Hashes, qois: Qois, qubits: seq<string>, couplers: seq<string>)
    ensures Populate(Populate(h, qois, qubits, couplers), qois, qubits, couplers) == Populate(h, qois, qubits, couplers)
  {
    DefaultAllIdempotent(h, Population(qois, qubits, couplers));
  }

  /** The population loop of `calibrate_system`: each write is issued only
      when its field is absent. */
  method PopulateStore(store: ParameterStore, qois: Qois, qubits: seq<string>, couplers: seq<string>)
    modifies store
    ensures store.hashes == Populate(old(store.hashes), qois, qubits, couplers)
  {
    store.DefaultEach(Population(qois, qubits, couplers));
  }

  // ---------------------------------------------------------------------
  // Initial parameters: written unconditionally.

  /** A run of writes that may stop on an exception: the writes issued
      before it stopped, and the exception. */
  datatype Plan = Plan(writes: seq<Write>, error: Option<Error>)

  /** `initial_parameters`: 'all' and entity names -> field -> value. */
  type Initials = Dict<Dict<string>>

  /** Every dict of the configuration has distinct keys, as TOML tables do. */
  predicate ValidInitials(initials: Initials)
  {
    forall i :: 0 <= i < |initials| ==> Valid(initials[i].1)
  }

  const AllKey := "all"

  /** The qubit loop: the common entries, then the qubit's own; a missing
      'all' table or qubit table raises KeyError where it is looked up. */
  function QubitInitials(initials: Initials, qubits: seq<string>): (r: Plan)
    ensures r.error.None? <==>
      ((|qubits| == 0 || Has(initials, AllKey)) && forall i :: 0 <= i < |qubits| ==> Has(initials, qubits[i]))
    ensures r.error.Some? && !Has(initials, AllKey) ==> r == Plan([], Some(KeyError(AllKey)))
    ensures r.error.Some? && Has(initials, AllKey) ==> exists i :: (0 <= i < |qubits| && !Has(initials, qubits[i]) &&
      (forall j :: 0 <= j < i ==> Has(initials, qubits[j])) && r.error == Some(KeyError(qubits[i])))
  {
    if |qubits| == 0 then Plan([], None)
    else if !Has(initials, AllKey) then Plan([], Some(KeyError(AllKey)))
    else
      var common := FieldWrites(TransmonKey(qubits[0]), Get(initials, AllKey));
      if !Has(initials, qubits[0]) then Plan(common, Some(KeyError(qubits[0])))
      else
        var rest := QubitInitials(initials, qubits[1..]);
        Plan(common + FieldWrites(TransmonKey(qubits[0]), Get(initials, qubits[0])) + rest.writes, rest.error)
  }

  /** The coupler loop: the common entries, then the coupler's own if it
      has any. */
  function CouplerInitials(initials: Initials, couplers: seq<string>): (r: Plan)
    ensures r.error.None? <==> |couplers| == 0 || Has(initials, AllKey)
    ensures r.error.Some? ==> r == Plan([], Some(KeyError(AllKey)))
  {
    if |couplers| == 0 then Plan([], None)
    else if !Has(initials, AllKey) then Plan([], Some(KeyError(AllKey)))
    else
      var own := if Has(initials, couplers[0]) then FieldWrites(CouplerKey(couplers[0]), Get(initials, couplers[0])) else [];
      var rest := CouplerInitials(initials, couplers[1..]);
      Plan(FieldWrites(CouplerKey(couplers[0]), Get(initials, AllKey)) + own + rest.writes, rest.error)
  }

  /** The writes of both loops; the coupler loop runs only when the qubit
      loop completed. */
  function InitialWrites(initials: Initials, qubits: seq<string>, couplers: seq<string>): (r: Plan)
    ensures r.error.None? <==> ((|qubits| + |couplers| == 0 || Has(initials, AllKey)) &&
      forall i :: 0 <= i < |qubits| ==> Has(initials, qubits[i]))
  {
    var q := QubitInitials(initials, qubits);
    if q.error.Some? then q
    else
      var c := CouplerInitials(initials, couplers);
      Plan(q.writes + c.writes, c.error)
  }

  /** The value a qubit's field gets: its own entry, else the common one. */
  function QubitInitial(initials: Initials, q: string, f: string): Option<string>
    requires Has(initials, AllKey) && Has(initials, q)
  {
    if Has(Get(initials, q), f) then Some(Get(Get(initials, q), f))
    else if Has(Get(initials, AllKey), f) then Some(Get(Get(initials, AllKey), f))
    else None
  }

  /** The value a coupler's field gets: its own entry if it has a table,
      else the common one. */
  function CouplerInitial(initials: Initials, c: string, f: string): Option<string>
    requires Has(initials, AllKey)
  {
    if Has(initials, c) && Has(Get(initials, c), f) then Some(Get(Get(initials, c), f))
    else if Has(Get(initials, AllKey), f) then Some(Get(Get(initials, AllKey), f))
    else None
  }

  lemma GetValid(initials: Initials, k: string)
    requires ValidInitials(initials) && Has(initials, k)
    ensures Valid(Get(initials, k))
  {
    assert Get(initials, k) == initials[IndexOf(initials, k)].1;
  }

  lemma {:induction false} QubitInitialsLast(initials: Initials, qubits: seq<string>, q: string, f: string)
    requires ValidInitials(initials)
    requires QubitInitials(initials, qubits).error.None? && q in qubits
    ensures Has(initials, AllKey) && Has(initials, q)
    ensures LastWrite(QubitInitials(initials, qubits).writes, TransmonKey(q), f) == QubitInitial(initials, q, f)
  {
    var q0 := qubits[0];
    assert Has(initials, q0) && Has(initials, AllKey);
    var common := FieldWrites(TransmonKey(q0), Get(initials, AllKey));
    var own := FieldWrites(TransmonKey(q0), Get(initials, q0));
    var rest := QubitInitials(initials, qubits[1..]);
    assert QubitInitials(initials, qubits).writes == common + own + rest.writes;
    LastWriteAppend(common + own, rest.writes, TransmonKey(q), f);
    LastWriteAppend(common, own, TransmonKey(q), f);
    GetValid(initials, AllKey);
    GetValid(initials, q0);
    LastWriteFields(TransmonKey(q0), Get(initials, AllKey), TransmonKey(q), f);
    LastWriteFields(TransmonKey(q0), Get(initials, q0), TransmonKey(q), f);
    KeysInjective(q, q0);
    if q in qubits[1..] {
      QubitInitialsLast(initials, qubits[1..], q, f);
    } else {
      assert q == q0;
      QubitInitialsOther(initials, qubits[1..], q, f);
    }
  }

  /** A qubit outside the loop gets no write. */
  lemma {:induction false} QubitInitialsOther(initials: Initials, qubits: seq<string>, q: string, f: string)
    requires q !in qubits
    ensures LastWrite(QubitInitials(initials, qubits).writes, TransmonKey(q), f).None?
  {
    if |qubits| > 0 && Has(initials, AllKey) {
      var q0 := qubits[0];
      var common := FieldWrites(TransmonKey(q0), Get(initials, AllKey));
      KeysInjective(q, q0);
      if Has(initials, q0) {
        var own := FieldWrites(TransmonKey(q0), Get(initials, q0));
        var rest := QubitInitials(initials, qubits[1..]);
        LastWriteAppend(common + own, rest.writes, TransmonKey(q), f);
        LastWriteAppend(common, own, TransmonKey(q), f);
        QubitInitialsOther(initials, qubits[1..], q, f);
      }
    }
  }

  lemma {:induction false} CouplerInitialsLast(initials: Initials, couplers: seq<string>, c: string, f: string)
    requires ValidInitials(initials) && Has(initials, AllKey)
    ensures LastWrite(CouplerInitials(initials, couplers).writes, CouplerKey(c), f) ==
      (if c in couplers then CouplerInitial(initials, c, f) else None)
  {
    if |couplers| > 0 {
      var c0 := couplers[0];
      var common := FieldWrites(CouplerKey(c0), Get(initials, AllKey));
      var own := if Has(initials, c0) then FieldWrites(CouplerKey(c0), Get(initials, c0)) else [];
      var rest := CouplerInitials(initials, couplers[1..]);
      assert CouplerInitials(initials, couplers).writes == common + own + rest.writes;
      LastWriteAppend(common + own, rest.writes, CouplerKey(c), f);
      LastWriteAppend(common, own, CouplerKey(c), f);
      GetValid(initials, AllKey);
      LastWriteFields(CouplerKey(c0), Get(initials, AllKey), CouplerKey(c), f);
      if Has(initials, c0) {
        GetValid(initials, c0);
        LastWriteFields(CouplerKey(c0), Get(initials, c0), CouplerKey(c), f);
      }
      KeysInjective(c, c0);
      CouplerInitialsLast(initials, couplers[1..], c, f);
      assert c in couplers <==> c == c0 || c in couplers[1..];
    }
  }

  /** The coupler loop writes only coupler hashes. */
  lemma {:induction false} CouplerInitialsKeys(initials: Initials, couplers: seq<string>, q: string, f: string)
    ensures LastWrite(CouplerInitials(initials, couplers).writes, TransmonKey(q), f).None?
  {
    if |couplers| > 0 && Has(initials, AllKey) {
      var c0 := couplers[0];
      var common := FieldWrites(CouplerKey(c0), Get(initials, AllKey));
      var own := if Has(initials, c0) then FieldWrites(CouplerKey(c0), Get(initials, c0)) else [];
      var rest := CouplerInitials(initials, couplers[1..]);
      KeysDisjoint(q, c0, "");
      FieldWritesOther(CouplerKey(c0), Get(initials, AllKey), TransmonKey(q), f);
      if Has(initials, c0) {
        FieldWritesOther(CouplerKey(c0), Get(initials, c0), TransmonKey(q), f);
      }
      LastWriteAppend(common + own, rest.writes, TransmonKey(q), f);
      LastWriteAppend(common, own, TransmonKey(q), f);
      CouplerInitialsKeys(initials, couplers[1..], q, f);
    }
  }

  /** After the initial parameters are written, a qubit's field holds its
      own entry, else the common one, else what it held before. */
  lemma InitialQubitValue(h: Hashes, initials: Initials, qubits: seq<string>, couplers: seq<string>, q: string, f: string)
    requires ValidInitials(initials)
    requires InitialWrites(initials, qubits, couplers).error.None? && q in qubits
    ensures Has(initials, AllKey) && Has(initials, q)
    ensures FieldOf(SetAll(h, InitialWrites(initials, qubits, couplers).writes), TransmonKey(q), f) ==
      (if QubitInitial(initials, q, f).Some? then QubitInitial(initials, q, f) else FieldOf(h, TransmonKey(q), f))
  {
    var qp := QubitInitials(initials, qubits);
    var cp := CouplerInitials(initials, couplers);
    SetAllValue(h, qp.writes + cp.writes, TransmonKey(q), f);
    LastWriteAppend(qp.writes, cp.writes, TransmonKey(q), f);
    QubitInitialsLast(initials, qubits, q, f);
    CouplerInitialsKeys(initials, couplers, q, f);
  }

  /** After the initial parameters are written, a coupler's field holds its
      own entry, else the common one, else what it held before. */
  lemma InitialCouplerValue(h: Hashes, initials: Initials, qubits: seq<string>, couplers: seq<string>, c: string, f: string)
    requires ValidInitials(initials)
    requires InitialWrites(initials, qubits, couplers).error.None? && c in couplers
    ensures Has(initials, AllKey)
    ensures FieldOf(SetAll(h, InitialWrites(initials, qubits, couplers).writes), CouplerKey(c), f) ==
      (if CouplerInitial(initials, c, f).Some? then CouplerInitial(initials, c, f) else FieldOf(h, CouplerKey(c), f))
  {
    var qp := QubitInitials(initials, qubits);
    var cp := CouplerInitials(initials, couplers);
    SetAllValue(h, qp.writes + cp.writes, CouplerKey(c), f);
    LastWriteAppend(qp.writes, cp.writes, CouplerKey(c), f);
    CouplerInitialsLast(initials, couplers, c, f);
    QubitInitialsKeys(initials, qubits, c, f);
  }

  /** The qubit loop writes only qubit hashes. */
  lemma {:induction false} QubitInitialsKeys(initials: Initials, qubits: seq<string>, c: string, f: string)
    ensures LastWrite(QubitInitials(initials, qubits).writes, CouplerKey(c), f).None?
  {
    if |qubits| > 0 && Has(initials, AllKey) {
      var q0 := qubits[0];
      KeysDisjoint(q0, c, "");
      var common := FieldWrites(TransmonKey(q0), Get(initials, AllKey));
      FieldWritesOther(TransmonKey(q0), Get(initials, AllKey), CouplerKey(c), f);
      if Has(initials, q0) {
        var own := FieldWrites(TransmonKey(q0), Get(initials, q0));
        var rest := QubitInitials(initials, qubits[1..]);
        FieldWritesOther(TransmonKey(q0), Get(initials, q0), CouplerKey(c), f);
        LastWriteAppend(common + own, rest.writes, CouplerKey(c), f);
        LastWriteAppend(common, own, CouplerKey(c), f);
        QubitInitialsKeys(initials, qubits[1..], c, f);
      }
    }
  }

  /** The initial-parameter loops of `calibrate_system`; on a KeyError the
      writes issued before it stay. */
  method WriteInitials(store: ParameterStore, initials: Initials, qubits: seq<string>, couplers: seq<string>)
    returns (error: Option<Error>)
    modifies store
    ensures store.hashes == SetAll(old(store.hashes), InitialWrites(initials, qubits, couplers).writes)
    ensures error == InitialWrites(initials, qubits, couplers).error
  {
    var plan := InitialWrites(initials, qubits, couplers);
    store.SetEach(plan.writes);
    error := plan.error;
  }

  // ---------------------------------------------------------------------
  // User input and the coupler of the two-qubit nodes.

  /** The entries of `user_requested_calibration` the supervisor reads;
      `node_dictionary` is optional and only its 'coupled_qubits' is read. */
  datatype UserInput = UserInput(targetNode: string, allQubits: seq<string>,
                                 nodeDictionary: Option<map<string, seq<string>>>)

  const Misformatted := ValueError("Misformated user input")

  /** The coupler named by `node_dictionary['coupled_qubits']`. */
  function CoupledCoupler(user: UserInput): (r: Result<string>)
    ensures r.Ok? <==> (user.nodeDictionary.Some? && "coupled_qubits" in user.nodeDictionary.value &&
      |user.nodeDictionary.value["coupled_qubits"]| >= 2)
    ensures (user.nodeDictionary.None? || "coupled_qubits" !in user.nodeDictionary.value) ==> r == Err(Misformatted)
    ensures r.Ok? ==> r.value == CouplerName(user.nodeDictionary.value["coupled_qubits"][0],
                                             user.nodeDictionary.value["coupled_qubits"][1])
    ensures r.Err? ==> r.error == Misformatted || r.error == IndexError
  {
    match user.nodeDictionary
    case None => Err(Misformatted)
    case Some(nd) =>
      if "coupled_qubits" !in nd then Err(Misformatted)
      else
        var cq := nd["coupled_qubits"];
        if |cq| < 2 then Err(IndexError)
        else Ok(CouplerName(cq[0], cq[1]))
  }

  /** `set_parking_current`: the coupler's parking current must be in the
      store (the DAC it is sent to is not modelled). */
  function ParkingCurrent(h: Hashes, coupler: string): (r: Result<string>)
    ensures r.Ok? <==> FieldOf(h, CouplerKey(coupler), "parking_current").Some?
    ensures r.Ok? ==> Some(r.value) == FieldOf(h, CouplerKey(coupler), "parking_current")
    ensures r.Err? ==> r.error == ValueError("parking current is not present on redis")
  {
    match FieldOf(h, CouplerKey(coupler), "parking_current")
    case Some(v) => Ok(v)
    case None => Err(ValueError("parking current is not present on redis"))
  }

  // ---------------------------------------------------------------------
  // Status of a node.

  /** `DataStatus`, as far as the supervisor uses it. */
  datatype Status = Undefined | InSpec | OutOfSpec

  function StatusName(s: Status): string
  {
    match s
    case Undefined => "DataStatus.undefined"
    case InSpec => "DataStatus.in_spec"
    case OutOfSpec => "DataStatus.out_of_spec"
  }

  /** The flags of `entities` for `node`, in order (`HGET cs:<e> node`). */
  function Flags(h: Hashes, entities: seq<string>, node: string): (flags: seq<Option<string>>)
    ensures |flags| == |entities|
    ensures forall i :: 0 <= i < |entities| ==> flags[i] == FieldOf(h, StatusKey(entities[i]), node)
  {
    seq(|entities|, i requires 0 <= i < |entities| => FieldOf(h, StatusKey(entities[i]), node))
  }

  /** The status loop, continued from `status`: 'not_calibrated' ends it
      out of spec, 'calibrated' makes it in spec, anything else (a missing
      flag included) raises ValueError naming the status so far. */
  function AggregateFrom(flags: seq<Option<string>>, status: Status): Result<Status>
  {
    if |flags| == 0 then Ok(status)
    else if flags[0] == Some(NotCalibrated) then Ok(OutOfSpec)
    else if flags[0] == Some(Calibrated) then AggregateFrom(flags[1..], InSpec)
    else Err(ValueError("status: " + StatusName(status)))
  }

  function Aggregate(flags: seq<Option<string>>): Result<Status>
  {
    AggregateFrom(flags, Undefined)
  }

  /** A scan from `status` over flags starting with `calibrated` ones. */
  predicate CalibratedUpTo(flags: seq<Option<string>>, n: int)
  {
    forall j :: 0 <= j < n && j < |flags| ==> flags[j] == Some(Calibrated)
  }

  lemma {:induction false} AggregateFromSpec(flags: seq<Option<string>>, status: Status)
    requires status != OutOfSpec
    ensures AggregateFrom(flags, status) == Ok(OutOfSpec) <==>
      exists i :: 0 <= i < |flags| && flags[i] == Some(NotCalibrated) && CalibratedUpTo(flags, i)
    ensures AggregateFrom(flags, status).Err? <==>
      exists i :: (0 <= i < |flags| && flags[i] != Some(NotCalibrated) && flags[i] != Some(Calibrated) &&
        CalibratedUpTo(flags, i))
    ensures AggregateFrom(flags, status) == Ok(if |flags| == 0 then status else InSpec) <==>
      CalibratedUpTo(flags, |flags|)
    ensures AggregateFrom(flags, status) == Ok(Undefined) ==> |flags| == 0
  {
    if |flags| > 0 {
      var rest := flags[1..];
      AggregateFromSpec(rest, InSpec);
      assert forall n :: 1 <= n ==> (CalibratedUpTo(flags, n) <==> flags[0] == Some(Calibrated) && CalibratedUpTo(rest, n - 1));
      if exists i :: 0 <= i < |rest| && rest[i] == Some(NotCalibrated) && CalibratedUpTo(rest, i) {
        var i :| 0 <= i < |rest| && rest[i] == Some(NotCalibrated) && CalibratedUpTo(rest, i);
        assert flags[i + 1] == rest[i];
      }
      if exists i :: 0 <= i < |flags| && flags[i] == Some(NotCalibrated) && CalibratedUpTo(flags, i) {
        var i :| 0 <= i < |flags| && flags[i] == Some(NotCalibrated) && CalibratedUpTo(flags, i);
        if i > 0 { assert rest[i - 1] == flags[i]; }
      }
      if exists i :: (0 <= i < |rest| && rest[i] != Some(NotCalibrated) && rest[i] != Some(Calibrated) &&
        CalibratedUpTo(rest, i)) {
        var i :| 0 <= i < |rest| && rest[i] != Some(NotCalibrated) && rest[i] != Some(Calibrated) && CalibratedUpTo(rest, i);
        assert flags[i + 1] == rest[i];
      }
      if exists i :: (0 <= i < |flags| && flags[i] != Some(NotCalibrated) && flags[i] != Some(Calibrated) &&
        CalibratedUpTo(flags, i)) {
        var i :| 0 <= i < |flags| && flags[i] != Some(NotCalibrated) && flags[i] != Some(Calibrated) && CalibratedUpTo(flags, i);
        if i > 0 { assert rest[i - 1] == flags[i]; }
      }
    }
  }

  /** The status of a node from its flags: out of spec at the first
      'not_calibrated' reached past 'calibrated' flags only, in spec when
      every flag is 'calibrated', an error at the first other value so
      reached, and undefined for no entity at all. */
  lemma AggregateSpec(flags: seq<Option<string>>)
    ensures Aggregate(flags) == Ok(OutOfSpec) <==>
      exists i :: 0 <= i < |flags| && flags[i] == Some(NotCalibrated) && CalibratedUpTo(flags, i)
    ensures Aggregate(flags).Err? <==>
      exists i :: (0 <= i < |flags| && flags[i] != Some(NotCalibrated) && flags[i] != Some(Calibrated) &&
        CalibratedUpTo(flags, i))
    ensures Aggregate(flags) == Ok(InSpec) <==> |flags| > 0 && CalibratedUpTo(flags, |flags|)
    ensures Aggregate(flags) == Ok(Undefined) <==> |flags| == 0
  {
    AggregateFromSpec(flags, Undefined);
  }

  /** The status loop over `entities`, stopping at the first
      'not_calibrated'. */
  method ScanStatus(store: ParameterStore, entities: seq<string>, node: string) returns (r: Result<Status>)
    ensures r == Aggregate(Flags(store.hashes, entities, node))
  {
    ghost var flags := Flags(store.hashes, entities, node);
    var status := Undefined;
    var i := 0;
    while i < |entities|
      invariant 0 <= i <= |entities|
      invariant status == if i == 0 then Undefined else InSpec
      invariant AggregateFrom(flags[i..], status) == Aggregate(flags)
    {
      assert flags[i..][1..] == flags[i + 1..];
      var flag := store.Get(StatusKey(entities[i]), node);
      if flag == Some(NotCalibrated) {
        return Ok(OutOfSpec);
      } else if flag == Some(Calibrated) {
        status := InSpec;
      } else {
        return Err(ValueError("status: " + StatusName(status)));
      }
      i := i + 1;
    }
    return Ok(status);
  }

  // ---------------------------------------------------------------------
  // `inspect_node`.

  /** `transmon_configuration`: node -> section -> field -> value. */
  type NodeConfig = Dict<Dict<Dict<string>>>

  /** The two nodes whose status is a coupler's. */
  predicate IsCouplerNode(node: string)
  {
    node == "coupler_spectroscopy" || node == "cz_chevron"
  }

  /** The hashes of every qubit, then of every coupler. */
  function EntityKeys(qubits: seq<string>, couplers: seq<string>): (keys: seq<string>)
    ensures forall k :: k in keys ==> !StartsWith(k, StatusPrefix)
    ensures forall q :: q in qubits ==> TransmonKey(q) in keys
    ensures forall c :: c in couplers ==> CouplerKey(c) in keys
  {
    var tks := seq(|qubits|, i requires 0 <= i < |qubits| => TransmonKey(qubits[i]));
    var cks := seq(|couplers|, i requires 0 <= i < |couplers| => CouplerKey(couplers[i]));
    forall i | 0 <= i < |qubits|
      ensures !StartsWith(tks[i], StatusPrefix)
    {
      KeysDisjoint(qubits[i], "", "");
    }
    forall i | 0 <= i < |couplers|
      ensures !StartsWith(cks[i], StatusPrefix)
    {
      KeysDisjoint("", couplers[i], "");
    }
    forall q | q in qubits
      ensures TransmonKey(q) in tks
    {
      var i :| 0 <= i < |qubits| && qubits[i] == q;
      assert tks[i] == TransmonKey(q);
    }
    forall c | c in couplers
      ensures CouplerKey(c) in cks
    {
      var i :| 0 <= i < |couplers| && couplers[i] == c;
      assert cks[i] == CouplerKey(c);
    }
    tks + cks
  }

  /** The node-specific writes: field by field, to every hash of `keys`. */
  function ConfigWrites(all: Dict<string>, keys: seq<string>): seq<Write>
  {
    if |all| == 0 then []
    else ConfigWrites(all[..|all| - 1], keys) + Broadcast(keys, all[|all| - 1].0, all[|all| - 1].1)
  }

  /** After the node-specific writes each hash of `keys` holds the node's
      value for each of its fields; nothing else is written. */
  lemma {:induction false} ConfigWritesValue(all: Dict<string>, keys: seq<string>, k: string, f: string)
    requires Valid(all)
    ensures LastWrite(ConfigWrites(all, keys), k, f) == (if k in keys && Has(all, f) then Some(Get(all, f)) else None)
  {
    if |all| > 0 {
      var n := |all| - 1;
      var init := all[..n];
      assert Valid(init);
      ConfigWritesValue(init, keys, k, f);
      LastWriteAppend(ConfigWrites(init, keys), Broadcast(keys, all[n].0, all[n].1), k, f);
      LastWriteBroadcast(keys, all[n].0, all[n].1, k, f);
      SnocGet(init, all[n].0, all[n].1, f);
      assert all == init + [all[n]];
    }
  }

  /** `is_node_calibrated`: the coupler's flag for the two coupler nodes,
      every qubit's flag otherwise (an empty qubit list counts as
      calibrated, as `all([])` does). */
  function NodeCalibrated(h: Hashes, user: UserInput, qubits: seq<string>, node: string): (r: Result<bool>)
    ensures IsCouplerNode(node) ==> (r.Err? <==> CoupledCoupler(user).Err?)
    ensures IsCouplerNode(node) && r.Ok? ==>
      (r.value <==> FieldOf(h, StatusKey(CoupledCoupler(user).value), node) == Some(Calibrated))
    ensures !IsCouplerNode(node) ==> r.Ok?
  {
    if IsCouplerNode(node) then
      match CoupledCoupler(user)
      case Ok(c) => Ok(FieldOf(h, StatusKey(c), node) == Some(Calibrated))
      case Err(e) => Err(e)
    else Ok(CalibratedUpTo(Flags(h, qubits, node), |qubits|))
  }

  /** For a qubit node, the decision to write the node's configuration and
      the status agree: calibrated exactly when the status is in spec (or
      undefined, for no qubits). */
  lemma CalibratedIsInSpec(h: Hashes, user: UserInput, qubits: seq<string>, node: string)
    requires !IsCouplerNode(node)
    ensures NodeCalibrated(h, user, qubits, node).value <==>
      Aggregate(Flags(h, qubits, node)) == Ok(if |qubits| == 0 then Undefined else InSpec)
  {
    AggregateSpec(Flags(h, qubits, node));
  }

  /** The node-specific configuration, written when the node has an entry
      and is not calibrated; an entry without an 'all' table is a KeyError. */
  function ConfigUpdate(h: Hashes, config: NodeConfig, node: string, calibrated: bool, keys: seq<string>): Result<Hashes>
  {
    if Has(config, node) && !calibrated then
      if Has(Get(config, node), AllKey) then Ok(SetAll(h, ConfigWrites(Get(Get(config, node), AllKey), keys)))
      else Err(KeyError(AllKey))
    else Ok(h)
  }

  /** The coupler's flag overriding the status found from the qubits. */
  function CouplerOverride(h: Hashes, coupler: string, node: string, status: Status): Result<Status>
  {
    match FieldOf(h, StatusKey(coupler), node)
    case Some(v) =>
      if v == NotCalibrated then Ok(OutOfSpec)
      else if v == Calibrated then Ok(InSpec)
      else Err(ValueError("status: " + StatusName(status)))
    case None => Err(ValueError("status: " + StatusName(status)))
  }

  /** What `inspect_node` leaves in the store and the status it acts on. */
  datatype Inspection = Inspection(hashes: Hashes, status: Result<Status>)

  function Inspect(h: Hashes, user: UserInput, qubits: seq<string>, couplers: seq<string>,
                   config: NodeConfig, node: string): Inspection
  {
    match NodeCalibrated(h, user, qubits, node)
    case Err(e) => Inspection(h, Err(e))
    case Ok(calibrated) =>
      match ConfigUpdate(h, config, node, calibrated, EntityKeys(qubits, couplers))
      case Err(e) => Inspection(h, Err(e))
      case Ok(h') =>
        var s := Aggregate(Flags(h', qubits, node));
        if s.Err? || !IsCouplerNode(node) then Inspection(h', s)
        else Inspection(h', CouplerOverride(h', CoupledCoupler(user).value, node, s.value))
  }

  /** The node-specific writes touch no flag. */
  lemma ConfigKeepsFlags(h: Hashes, config: NodeConfig, node: string, calibrated: bool,
                         keys: seq<string>, e: string, f: string)
    requires forall k :: k in keys ==> !StartsWith(k, StatusPrefix)
    requires ConfigUpdate(h, config, node, calibrated, keys).Ok?
    ensures FieldOf(ConfigUpdate(h, config, node, calibrated, keys).value, StatusKey(e), f) == FieldOf(h, StatusKey(e), f)
  {
    if Has(config, node) && !calibrated {
      var ws := ConfigWrites(Get(Get(config, node), AllKey), keys);
      SetAllValue(h, ws, StatusKey(e), f);
      KeysDisjoint("", "", e);
      if LastWrite(ws, StatusKey(e), f).Some? {
        var i :| 0 <= i < |ws| && Writes(ws[i], StatusKey(e), f);
        ConfigWritesKeys(Get(Get(config, node), AllKey), keys, i);
      }
    }
  }

  lemma {:induction false} ConfigWritesKeys(all: Dict<string>, keys: seq<string>, i: nat)
    requires i < |ConfigWrites(all, keys)|
    ensures ConfigWrites(all, keys)[i].key in keys
  {
    var n := |all| - 1;
    var init := ConfigWrites(all[..n], keys);
    if i < |init| {
      ConfigWritesKeys(all[..n], keys, i);
    } else {
      assert ConfigWrites(all, keys)[i] == Broadcast(keys, all[n].0, all[n].1)[i - |init|];
    }
  }

  /** The node-specific writes never change the decision: the status is
      the one the flags held before them. For the two coupler nodes the
      qubits' flags still raise on a bad value, but the coupler's flag
      alone decides between in and out of spec. */
  lemma InspectStatus(h: Hashes, user: UserInput, qubits: seq<string>, couplers: seq<string>, config: NodeConfig, node: string)
    ensures var r := Inspect(h, user, qubits, couplers, config, node);
      (!IsCouplerNode(node) && r.status != Err(KeyError(AllKey)) ==> r.status == Aggregate(Flags(h, qubits, node))) &&
      (IsCouplerNode(node) && CoupledCoupler(user).Ok? && r.status.Ok? ==>
        (r.status == Ok(InSpec) <==> FieldOf(h, StatusKey(CoupledCoupler(user).value), node) == Some(Calibrated)) &&
        (r.status == Ok(OutOfSpec) <==> FieldOf(h, StatusKey(CoupledCoupler(user).value), node) == Some(NotCalibrated)))
  {
    var cal := NodeCalibrated(h, user, qubits, node);
    if cal.Ok? {
      var keys := EntityKeys(qubits, couplers);
      var up := ConfigUpdate(h, config, node, cal.value, keys);
      if up.Ok? {
        forall e, f | true
          ensures FieldOf(up.value, StatusKey(e), f) == FieldOf(h, StatusKey(e), f)
        {
          ConfigKeepsFlags(h, config, node, cal.value, keys, e, f);
        }
        assert Flags(up.value, qubits, node) == Flags(h, qubits, node);
      }
    }
  }

  /** A calibrated node leaves the store as it was. */
  lemma InspectCalibratedKeeps(h: Hashes, user: UserInput, qubits: seq<string>, couplers: seq<string>,
                               config: NodeConfig, node: string)
    requires NodeCalibrated(h, user, qubits, node) == Ok(true)
    ensures Inspect(h, user, qubits, couplers, config, node).hashes == h
  {
  }

  /** A node that is not calibrated writes each value of its configuration
      to every qubit and every coupler. */
  lemma InspectWritesConfig(h: Hashes, user: UserInput, qubits: seq<string>, couplers: seq<string>,
                            config: NodeConfig, node: string, key: string, f: string)
    requires NodeCalibrated(h, user, qubits, node) == Ok(false)
    requires Has(config, node) && Has(Get(config, node), AllKey)
    requires Valid(Get(Get(config, node), AllKey)) && Has(Get(Get(config, node), AllKey), f)
    requires key in EntityKeys(qubits, couplers)
    ensures FieldOf(Inspect(h, user, qubits, couplers, config, node).hashes, key, f) ==
      Some(Get(Get(Get(config, node), AllKey), f))
  {
    var all := Get(Get(config, node), AllKey);
    var keys := EntityKeys(qubits, couplers);
    SetAllValue(h, ConfigWrites(all, keys), key, f);
    ConfigWritesValue(all, keys, key, f);
  }

  /** `inspect_node` up to its decision: the caller calibrates the node
      when the status is out of spec, and does nothing otherwise. */
  method InspectNode(store: ParameterStore, user: UserInput, qubits: seq<string>, couplers: seq<string>,
                     config: NodeConfig, node: string) returns (status: Result<Status>)
    modifies store
    ensures Inspection(store.hashes, status) == Inspect(old(store.hashes), user, qubits, couplers, config, node)
  {
    var calibrated := NodeCalibrated(store.hashes, user, qubits, node);
    if calibrated.Err? {
      return Err(calibrated.error);
    }
    if Has(config, node) && !calibrated.value {
      var sections := Get(config, node);
      if !Has(sections, AllKey) {
        return Err(KeyError(AllKey));
      }
      store.SetEach(ConfigWrites(Get(sections, AllKey), EntityKeys(qubits, couplers)));
    }
    status := ScanStatus(store, qubits, node);
    if status.Ok? && IsCouplerNode(node) {
      status := CouplerOverride(store.hashes, CoupledCoupler(user).value, node, status.value);
    }
  }

  // ---------------------------------------------------------------------
  // `calibrate_system`.

  /** How a run ends: the store, the nodes calibrated, in order, and the
      exception that stopped it, if any. */
  datatype Run = Run(hashes: Hashes, calibrated: seq<string>, error: Option<Error>)

  /** The loop over the calibration order: each node is inspected, and
      calibrated when out of spec. `calibrate` stands for `calibrate_node`
      (measurement and analysis), seen through what it leaves in the store. */
  function RunNodes(h: Hashes, user: UserInput, qubits: seq<string>, couplers: seq<string>, config: NodeConfig,
                    nodes: seq<string>, calibrate: (Hashes, string) -> Hashes): Run
    decreases |nodes|
  {
    if |nodes| == 0 then Run(h, [], None)
    else
      var ins := Inspect(h, user, qubits, couplers, config, nodes[0]);
      if ins.status.Err? then Run(ins.hashes, [], Some(ins.status.error))
      else
        var out := ins.status.value == OutOfSpec;
        var r := RunNodes(if out then calibrate(ins.hashes, nodes[0]) else ins.hashes,
                          user, qubits, couplers, config, nodes[1..], calibrate);
        Run(r.hashes, (if out then [nodes[0]] else []) + r.calibrated, r.error)
  }

  /** Nodes are calibrated in the calibration order, each at most once per
      place in it, and only after every node before it was inspected. */
  lemma {:induction false} RunNodesOrder(h: Hashes, user: UserInput, qubits: seq<string>, couplers: seq<string>,
                                         config: NodeConfig, nodes: seq<string>, calibrate: (Hashes, string) -> Hashes)
    ensures Graph.Subsequence(RunNodes(h, user, qubits, couplers, config, nodes, calibrate).calibrated, nodes)
    decreases |nodes|
  {
    if |nodes| > 0 {
      var ins := Inspect(h, user, qubits, couplers, config, nodes[0]);
      if ins.status.Ok? {
        var out := ins.status.value == OutOfSpec;
        var h' := if out then calibrate(ins.hashes, nodes[0]) else ins.hashes;
        var r := RunNodes(h', user, qubits, couplers, config, nodes[1..], calibrate);
        RunNodesOrder(h', user, qubits, couplers, config, nodes[1..], calibrate);
        if out {
          assert ([nodes[0]] + r.calibrated)[1..] == r.calibrated;
        } else {
          assert [] + r.calibrated == r.calibrated;
        }
      } else {
        EmptySubsequence(nodes);
      }
    }
  }

  /** A node found in spec is not calibrated: when every node's flags say
      calibrated for every qubit, nothing is. */
  lemma {:induction false} RunNodesAllCalibrated(h: Hashes, user: UserInput, qubits: seq<string>, couplers: seq<string>,
                                                 config: NodeConfig, nodes: seq<string>, calibrate: (Hashes, string) -> Hashes)
    requires forall n :: n in nodes ==> !IsCouplerNode(n) && CalibratedUpTo(Flags(h, qubits, n), |qubits|)
    ensures RunNodes(h, user, qubits, couplers, config, nodes, calibrate) == Run(h, [], None)
    decreases |nodes|
  {
    if |nodes| > 0 {
      var n := nodes[0];
      assert n in nodes;
      CalibratedIsInSpec(h, user, qubits, n);
      InspectCalibratedKeeps(h, user, qubits, couplers, config, n);
      InspectStatus(h, user, qubits, couplers, config, n);
      assert forall m :: m in nodes[1..] ==> m in nodes;
      RunNodesAllCalibrated(h, user, qubits, couplers, config, nodes[1..], calibrate);
    }
  }

  /** `calibrate_system`: population, initial parameters, the parking
      current of the two-qubit target, then the loop over the order. */
  function SystemRun(h: Hashes, user: UserInput, qois: Qois, initials: Initials, config: NodeConfig,
                     topo: seq<string>, calibrate: (Hashes, string) -> Hashes): Run
  {
    var qubits := user.allQubits;
    var couplers := Couplers(qubits);
    var plan := InitialWrites(initials, qubits, couplers);
    var h' := SetAll(Populate(h, qois, qubits, couplers), plan.writes);
    if plan.error.Some? then Run(h', [], plan.error)
    else if user.targetNode == "cz_chevron" && CoupledCoupler(user).Err? then Run(h', [], Some(CoupledCoupler(user).error))
    else if user.targetNode == "cz_chevron" && ParkingCurrent(h', CoupledCoupler(user).value).Err? then
      Run(h', [], Some(ParkingCurrent(h', CoupledCoupler(user).value).error))
    else RunNodes(h', user, qubits, couplers, config, topo, calibrate)
  }

  lemma SystemRunOrder(h: Hashes, user: UserInput, qois: Qois, initials: Initials, config: NodeConfig,
                       topo: seq<string>, calibrate: (Hashes, string) -> Hashes)
    ensures Graph.Subsequence(SystemRun(h, user, qois, initials, config, topo, calibrate).calibrated, topo)
  {
    var qubits := user.allQubits;
    var couplers := Couplers(qubits);
    var plan := InitialWrites(initials, qubits, couplers);
    var h' := SetAll(Populate(h, qois, qubits, couplers), plan.writes);
    RunNodesOrder(h', user, qubits, couplers, config, topo, calibrate);
    EmptySubsequence(topo);
  }

  lemma {:induction false} EmptySubsequence(s: seq<string>)
    ensures Graph.Subsequence([], s)
  {
    if |s| > 0 {
      EmptySubsequence(s[1..]);
    }
  }

  /** The loop of `calibrate_system` over the calibration order. */
  method InspectAll(store: ParameterStore, user: UserInput, qubits: seq<string>, couplers: seq<string>,
                    config: NodeConfig, topo: seq<string>, calibrate: (Hashes, string) -> Hashes)
    returns (calibrated: seq<string>, error: Option<Error>)
    modifies store
    ensures Run(store.hashes, calibrated, error) == RunNodes(old(store.hashes), user, qubits, couplers, config, topo, calibrate)
  {
    calibrated := [];
    var i := 0;
    while i < |topo|
      invariant 0 <= i <= |topo|
      invariant var rest := RunNodes(store.hashes, user, qubits, couplers, config, topo[i..], calibrate);
        Run(rest.hashes, calibrated + rest.calibrated, rest.error) ==
        RunNodes(old(store.hashes), user, qubits, couplers, config, topo, calibrate)
    {
      assert topo[i..][1..] == topo[i + 1..];
      ghost var before := store.hashes;
      var status := InspectNode(store, user, qubits, couplers, config, topo[i]);
      RunNodesStep(before, user, qubits, couplers, config, topo[i..], calibrate);
      if status.Err? {
        return calibrated, Some(status.error);
      }
      if status.value == OutOfSpec {
        store.hashes := calibrate(store.hashes, topo[i]);
        calibrated := calibrated + [topo[i]];
      }
      i := i + 1;
    }
    assert topo[i..] == [];
    error := None;
  }

  lemma RunNodesStep(h: Hashes, user: UserInput, qubits: seq<string>, couplers: seq<string>, config: NodeConfig,
                     nodes: seq<string>, calibrate: (Hashes, string) -> Hashes)
    requires |nodes| > 0
    ensures var ins := Inspect(h, user, qubits, couplers, config, nodes[0]);
      var r := RunNodes(h, user, qubits, couplers, config, nodes, calibrate);
      (ins.status.Err? ==> r == Run(ins.hashes, [], Some(ins.status.error))) &&
      (ins.status == Ok(OutOfSpec) ==> r == var rest := RunNodes(calibrate(ins.hashes, nodes[0]), user, qubits, couplers, config, nodes[1..], calibrate);
        Run(rest.hashes, [nodes[0]] + rest.calibrated, rest.error)) &&
      (ins.status.Ok? && ins.status != Ok(OutOfSpec) ==> r == RunNodes(ins.hashes, user, qubits, couplers, config, nodes[1..], calibrate))
  {
    var ins := Inspect(h, user, qubits, couplers, config, nodes[0]);
    if ins.status.Ok? && ins.status != Ok(OutOfSpec) {
      var rest := RunNodes(ins.hashes, user, qubits, couplers, config, nodes[1..], calibrate);
      assert [] + rest.calibrated == rest.calibrated;
    }
  }

  /** `calibrate_system`, in the order of its steps. */
  method CalibrateSystem(store: ParameterStore, user: UserInput, qois: Qois, initials: Initials, config: NodeConfig,
                         topo: seq<string>, calibrate: (Hashes, string) -> Hashes) returns (r: Run)
    modifies store
    ensures r == SystemRun(old(store.hashes), user, qois, initials, config, topo, calibrate)
    ensures store.hashes == r.hashes
  {
    var qubits := user.allQubits;
    var couplers := Couplers(qubits);
    PopulateStore(store, qois, qubits, couplers);
    var error := WriteInitials(store, initials, qubits, couplers);
    if error.Some? {
      return Run(store.hashes, [], error);
    }
    if user.targetNode == "cz_chevron" {
      var coupler := CoupledCoupler(user);
      if coupler.Err? {
        return Run(store.hashes, [], Some(coupler.error));
      }
      var current := ParkingCurrent(store.hashes, coupler.value);
      if current.Err? {
        return Run(store.hashes, [], Some(current.error));
      }
    }
    var calibrated, failure := InspectAll(store, user, qubits, couplers, config, topo, calibrate);
    return Run(store.hashes, calibrated, failure);
  }
}
