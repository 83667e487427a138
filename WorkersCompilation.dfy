// `precompile` of the workers package (workers/compilation_worker.py): the
// 'tof' short-cut, the backup of the quantities the node recalibrates, the
// transmon device read from the store with its NaN fallbacks, and the merge
// of the user's `node_dictionary` into the schedule's keyword arguments.
// Store values are float tokens kept as the strings the store holds; the
// quantify-scheduler objects are replaced by records of what they are given.
module WorkersCompilation {

  import opened Common
  import opened Dicts
  import opened Store
  import opened Backup
  import Parsers

  // ---------------------------------------------------------------------
  // `load_redis_config`

  /** `isnan(float(s))`: Python reads "nan" in any letter case, with an
      optional sign and surrounding whitespace. */
  predicate IsNanText(s: string)
  {
    var u := Parsers.Strip(s);
    var t := if |u| > 0 && (u[0] == '+' || u[0] == '-') then u[1..] else u;
    |t| == 3 && (t[0] == 'n' || t[0] == 'N') && (t[1] == 'a' || t[1] == 'A') && (t[2] == 'n' || t[2] == 'N')
  }

  /** A number handed to the transmon: a value read from the store, or the
      literal 0 that replaces a NaN motzoi. */
  datatype Num = Stored(text: string) | Zero

  /** One of the three measurement operations of the transmon. */
  datatype Measure = Measure(pulseAmp: string, pulseDuration: string, acqChannel: nat,
                             acqDelay: string, integrationTime: string)

  /** The parameters `load_redis_config` sets on an `ExtendedTransmon`. */
  datatype Transmon = Transmon(
    name: string,
    resetDuration: string,
    amp180: string,
    efAmp180: string,
    motzoi: Num,
    rxyDuration: string,
    specAmp: string,
    specDuration: string,
    f01: string,
    f12: string,
    roFreq: string,
    roFreq1: string,
    roFreqOpt: string,
    measure: Measure,
    measure1: Measure,
    measureOpt: Measure)

  /** The fields read before the spectroscopy amplitude. */
  const Head: seq<string> := ["init_duration", "mw_amp180", "mw_ef_amp180", "mw_motzoi", "mw_pulse_duration",
                              "spec_ampl_optimal"]

  /** The fields read after it. */
  const Tail: seq<string> := ["spec_pulse_duration", "freq_01", "freq_12", "ro_freq", "ro_freq_1", "ro_freq_opt",
                              "ro_pulse_amp", "ro_pulse_duration", "ro_acq_delay", "ro_acq_integration_time"]

  /** Where `spec_amp` comes from: the optimal amplitude unless it is NaN. */
  function SpecSource(h: Hash): string
  {
    if "spec_ampl_optimal" in h && IsNanText(h["spec_ampl_optimal"]) then "spec_ampl_default" else "spec_ampl_optimal"
  }

  /** Every field `load_redis_config` reads, in the order it reads them. */
  function AccessOrder(h: Hash): seq<string>
  {
    Head + [SpecSource(h)] + Tail
  }

  /** `load_redis_config(transmon, channel)` on the hash of the qubit. */
  function LoadTransmon(qubit: string, h: Hash, channel: nat): Result<Transmon>
  {
    var read := ReadFields(h, AccessOrder(h));
    if read.Err? then Err(read.error)
    else
      var v := read.value;
      var m := Measure(v[13], v[14], channel, v[15], v[16]);
      Ok(Transmon(qubit, v[0], v[1], v[2], if IsNanText(v[3]) then Zero else Stored(v[3]), v[4],
                  v[6], v[7], v[8], v[9], v[10], v[11], v[12], m, m, m))
  }

  /** The transmon is configured exactly when every field read is present;
      otherwise the first missing one, in reading order, is the KeyError. A
      NaN motzoi becomes 0, the spectroscopy amplitude falls back to the
      default only when the optimal one is NaN, and all three readout
      operations acquire on the given channel. */
  lemma LoadTransmonSpec(qubit: string, h: Hash, channel: nat)
    ensures var r := LoadTransmon(qubit, h, channel);
      (r.Ok? <==> forall i :: 0 <= i < |AccessOrder(h)| ==> AccessOrder(h)[i] in h) &&
      (r.Err? ==> exists i :: 0 <= i < |AccessOrder(h)| && AccessOrder(h)[i] !in h &&
                              r.error == KeyError(AccessOrder(h)[i]) &&
                              forall j :: 0 <= j < i ==> AccessOrder(h)[j] in h) &&
      (r.Ok? ==> "mw_motzoi" in h && SpecSource(h) in h && "freq_01" in h && "freq_12" in h &&
                 "ro_freq" in h && "ro_pulse_amp" in h && "ro_pulse_duration" in h &&
                 "ro_acq_delay" in h && "ro_acq_integration_time" in h &&
                 r.value.name == qubit &&
                 r.value.motzoi == (if IsNanText(h["mw_motzoi"]) then Zero else Stored(h["mw_motzoi"])) &&
                 r.value.specAmp == h[SpecSource(h)] &&
                 r.value.f01 == h["freq_01"] && r.value.f12 == h["freq_12"] && r.value.roFreq == h["ro_freq"] &&
                 r.value.measure == r.value.measure1 == r.value.measureOpt &&
                 r.value.measure == Measure(h["ro_pulse_amp"], h["ro_pulse_duration"], channel,
                                            h["ro_acq_delay"], h["ro_acq_integration_time"]))
  {
    var order := AccessOrder(h);
    assert |order| == 17;
    assert order[3] == "mw_motzoi" && order[6] == SpecSource(h) && order[8] == "freq_01" && order[9] == "freq_12";
    assert order[10] == "ro_freq" && order[13] == "ro_pulse_amp" && order[14] == "ro_pulse_duration";
    assert order[15] == "ro_acq_delay" && order[16] == "ro_acq_integration_time";
  }

  /** The default amplitude is never read while the optimal one is a number:
      it may then be missing or hold anything. */
  lemma DefaultUnreadWhenOptimal(qubit: string, h: Hash, channel: nat, default: string)
    requires "spec_ampl_optimal" in h && !IsNanText(h["spec_ampl_optimal"])
    ensures LoadTransmon(qubit, h, channel) == LoadTransmon(qubit, h["spec_ampl_default" := default], channel)
    ensures LoadTransmon(qubit, h, channel) == LoadTransmon(qubit, h - {"spec_ampl_default"}, channel)
  {
    var h1 := h["spec_ampl_default" := default];
    var h2 := h - {"spec_ampl_default"};
    assert SpecSource(h) == SpecSource(h1) == SpecSource(h2) == "spec_ampl_optimal";
    var names := AccessOrder(h);
    DefaultNotRead(h);
    assert AccessOrder(h1) == names && AccessOrder(h2) == names;
    ReadFieldsAgrees(h, h1, names);
    ReadFieldsAgrees(h, h2, names);
  }

  /** While the optimal amplitude is used, the default is not among the
      fields read. */
  lemma DefaultNotRead(h: Hash)
    requires SpecSource(h) == "spec_ampl_optimal"
    ensures forall i :: 0 <= i < |AccessOrder(h)| ==> AccessOrder(h)[i] != "spec_ampl_default"
  {
    assert AccessOrder(h) == Head + ["spec_ampl_optimal"] + Tail;
  }

  /** `load_redis_config` against the store's hashes. */
  function FromStore(h: Hashes): (string, nat) -> Result<Transmon>
  {
    (q: string, channel: nat) => LoadTransmon(q, HashAt(h, TransmonKey(q)), channel)
  }

  function LoadedAll(h: Hashes, qubits: seq<string>): Result<seq<Transmon>>
  {
    Enumerate(FromStore(h), qubits)
  }

  /** The device is refused exactly when some qubit's hash misses a field
      that is read; otherwise it holds the qubits in order, and each one's
      readout acquires on the channel of its position in the qubit list. */
  lemma LoadedAllChannels(h: Hashes, qubits: seq<string>)
    ensures var r := LoadedAll(h, qubits);
      (r.Err? <==> exists i :: 0 <= i < |qubits| && LoadTransmon(qubits[i], HashAt(h, TransmonKey(qubits[i])), i).Err?) &&
      (r.Ok? ==> (|r.value| == |qubits| &&
        forall i :: 0 <= i < |qubits| ==>
          r.value[i].name == qubits[i] && r.value[i].measure.acqChannel == i &&
          LoadTransmon(qubits[i], HashAt(h, TransmonKey(qubits[i])), i) == Ok(r.value[i])))
  {
    EnumerateSpec(FromStore(h), qubits);
    var r := LoadedAll(h, qubits);
    if r.Ok? {
      forall i | 0 <= i < |qubits|
        ensures r.value[i].name == qubits[i] && r.value[i].measure.acqChannel == i
      {
        LoadTransmonSpec(qubits[i], HashAt(h, TransmonKey(qubits[i])), i);
      }
    }
  }

  // ---------------------------------------------------------------------
  // Keyword arguments of the schedule function

  /** A value of `static_kwargs`, of the samplespace or of `node_dictionary`:
      a number, a sequence, or a dict keyed by qubit. */
  datatype Param = Atom(a: Sample) | Items(items: seq<Sample>) | PerElement(entries: Dict<Param>)

  /** `np.iterable(value)`: only numbers are not. */
  predicate Iterable(v: Param)
  {
    !v.Atom?
  }

  /** `{q: value for q in qubits}`. */
  function ForEach(qubits: seq<string>, v: Param): (d: Dict<Param>)
    ensures Valid(d)
    ensures forall q :: Has(d, q) <==> q in qubits
    ensures forall q :: Has(d, q) ==> Get(d, q) == v
  {
    if |qubits| == 0 then []
    else
      var init := ForEach(qubits[..|qubits| - 1], v);
      var last := qubits[|qubits| - 1];
      PutValid(init, last, v);
      forall q ensures Has(Put(init, last, v), q) <==> Has(init, q) || q == last {
        PutHas(init, last, v, q);
      }
      forall q | Has(Put(init, last, v), q) ensures Get(Put(init, last, v), q) == v {
        PutGet(init, last, v, q);
      }
      assert forall q :: q in qubits <==> q in qubits[..|qubits| - 1] || q == last;
      Put(init, last, v)
  }

  /** A static parameter supplied by the user: a number is broadcast to every
      qubit, anything iterable is taken as is. */
  function StaticValue(v: Param, qubits: seq<string>): Param
  {
    if Iterable(v) then v else PerElement(ForEach(qubits, v))
  }

  /** A swept quantity supplied by the user: anything but a dict is
      broadcast to every qubit. */
  function SweepValue(v: Param, qubits: seq<string>): Param
  {
    if v.PerElement? then v else PerElement(ForEach(qubits, v))
  }

  /** `static_parameters` and `samplespace` as the schedule function gets them. */
  datatype Kwargs = Kwargs(statics: Dict<Param>, samplespace: Dict<Param>)

  /** One entry of `node_dictionary`: a static parameter wins, then a swept
      quantity; any other key is ignored. */
  function MergeEntry(k: Kwargs, key: string, value: Param, qubits: seq<string>): Kwargs
  {
    if Has(k.statics, key) then Kwargs(Put(k.statics, key, StaticValue(value, qubits)), k.samplespace)
    else if Has(k.samplespace, key) then Kwargs(k.statics, Put(k.samplespace, key, SweepValue(value, qubits)))
    else k
  }

  function MergeAll(k: Kwargs, entries: Dict<Param>, qubits: seq<string>): Kwargs
  {
    if |entries| == 0 then k
    else
      var last := entries[|entries| - 1];
      MergeEntry(MergeAll(k, entries[..|entries| - 1], qubits), last.0, last.1, qubits)
  }

  /** Two dicts with the same keys in the same order hold the same keys. */
  lemma SameKeysHas<V, W>(a: Dict<V>, b: Dict<W>, key: string)
    requires Keys(a) == Keys(b)
    ensures Has(a, key) <==> Has(b, key)
  {
    assert forall i :: 0 <= i < |a| ==> a[i].0 == Keys(a)[i];
    assert forall i :: 0 <= i < |b| ==> b[i].0 == Keys(b)[i];
  }

  /** The merge adds no key and moves none. */
  lemma {:induction false} MergeAllKeys(k: Kwargs, entries: Dict<Param>, qubits: seq<string>)
    requires Valid(k.statics) && Valid(k.samplespace)
    ensures var r := MergeAll(k, entries, qubits);
      Keys(r.statics) == Keys(k.statics) && Keys(r.samplespace) == Keys(k.samplespace) &&
      Valid(r.statics) && Valid(r.samplespace)
  {
    if |entries| > 0 {
      var init := entries[..|entries| - 1];
      var last := entries[|entries| - 1];
      MergeAllKeys(k, init, qubits);
      var m := MergeAll(k, init, qubits);
      if Has(m.statics, last.0) {
        PutKeepsKeys(m.statics, last.0, StaticValue(last.1, qubits));
        PutValid(m.statics, last.0, StaticValue(last.1, qubits));
      } else if Has(m.samplespace, last.0) {
        PutKeepsKeys(m.samplespace, last.0, SweepValue(last.1, qubits));
        PutValid(m.samplespace, last.0, SweepValue(last.1, qubits));
      }
    }
  }

  /** A static parameter named in `node_dictionary` takes the user's value,
      a swept quantity named there (and not also static) takes it, and every
      other entry is left alone. */
  lemma {:induction false} MergeAllSpec(k: Kwargs, entries: Dict<Param>, qubits: seq<string>, key: string)
    requires Valid(k.statics) && Valid(k.samplespace) && Valid(entries)
    ensures var r := MergeAll(k, entries, qubits);
      Lookup(r.statics, key) ==
        (if Has(k.statics, key) && Has(entries, key) then Some(StaticValue(Get(entries, key), qubits))
         else Lookup(k.statics, key)) &&
      Lookup(r.samplespace, key) ==
        (if !Has(k.statics, key) && Has(k.samplespace, key) && Has(entries, key)
         then Some(SweepValue(Get(entries, key), qubits))
         else Lookup(k.samplespace, key))
  {
    if |entries| > 0 {
      var init := entries[..|entries| - 1];
      var last := entries[|entries| - 1];
      assert entries == init + [last];
      assert Valid(init);
      MergeAllSpec(k, init, qubits, key);
      MergeAllKeys(k, init, qubits);
      var m := MergeAll(k, init, qubits);
      SameKeysHas(m.statics, k.statics, last.0);
      SameKeysHas(m.samplespace, k.samplespace, last.0);
      SameKeysHas(m.statics, k.statics, key);
      SnocGet(init, last.0, last.1, key);
      MergeEntryLookup(m, last.0, last.1, qubits, key);
    }
  }

  /** One entry of `node_dictionary` rewrites at most the one key it names. */
  lemma MergeEntryLookup(m: Kwargs, name: string, value: Param, qubits: seq<string>, key: string)
    requires Valid(m.statics) && Valid(m.samplespace)
    ensures var r := MergeEntry(m, name, value, qubits);
      Lookup(r.statics, key) ==
        (if Has(m.statics, name) && name == key then Some(StaticValue(value, qubits)) else Lookup(m.statics, key)) &&
      Lookup(r.samplespace, key) ==
        (if !Has(m.statics, name) && Has(m.samplespace, name) && name == key
         then Some(SweepValue(value, qubits)) else Lookup(m.samplespace, key))
  {
    if Has(m.statics, name) {
      PutGet(m.statics, name, StaticValue(value, qubits), key);
    } else if Has(m.samplespace, name) {
      PutGet(m.samplespace, name, SweepValue(value, qubits), key);
    }
  }

  /** `static_parameters["repetitions"] = repetitions` when one is given. */
  function WithRepetitions(statics: Dict<Param>, repetitions: Option<int>): Dict<Param>
  {
    if repetitions.Some? then Put(statics, "repetitions", Atom(repetitions.value)) else statics
  }

  /** An explicit repetition count is what the schedule gets, unless
      `node_dictionary` names "repetitions" too: that entry is merged later
      and wins. */
  lemma RepetitionsOverride(statics: Dict<Param>, samplespace: Dict<Param>, entries: Dict<Param>,
                            qubits: seq<string>, n: int)
    requires Valid(statics) && Valid(samplespace) && Valid(entries)
    ensures var r := MergeAll(Kwargs(WithRepetitions(statics, Some(n)), samplespace), entries, qubits);
      Lookup(r.statics, "repetitions") ==
        Some(if Has(entries, "repetitions") then StaticValue(Get(entries, "repetitions"), qubits) else Atom(n))
  {
    var s := WithRepetitions(statics, Some(n));
    PutValid(statics, "repetitions", Atom(n));
    PutGet(statics, "repetitions", Atom(n), "repetitions");
    MergeAllSpec(Kwargs(s, samplespace), entries, qubits, "repetitions");
  }

  /** `schedule_function(**static_parameters, **samplespace)`: a key in both
      is passed twice, which Python refuses with a TypeError. */
  function ScheduleCall(k: Kwargs): (r: Result<Dict<Param>>)
    ensures r.Err? <==> exists key :: Has(k.statics, key) && Has(k.samplespace, key)
    ensures r.Ok? ==> Keys(r.value) == Keys(k.statics) + Keys(k.samplespace)
  {
    if exists i :: 0 <= i < |k.statics| && Has(k.samplespace, k.statics[i].0) then
      assert exists i :: 0 <= i < |k.statics| && Has(k.statics, k.statics[i].0) && Has(k.samplespace, k.statics[i].0);
      Err(TypeError)
    else
      KeysAppend(k.statics, k.samplespace);
      Ok(k.statics + k.samplespace)
  }

  lemma {:induction false} KeysAppend<V>(a: Dict<V>, b: Dict<V>)
    ensures Keys(a + b) == Keys(a) + Keys(b)
  {
    assert |Keys(a + b)| == |Keys(a) + Keys(b)|;
    forall i | 0 <= i < |a + b| ensures Keys(a + b)[i] == (Keys(a) + Keys(b))[i] {
      if i >= |a| {
        assert (a + b)[i] == b[i - |a|];
      }
    }
  }

  // ---------------------------------------------------------------------
  // `precompile`

  /** What `precompile` returns: `(None, 1)` for 'tof', otherwise the keyword
      arguments the schedule is built from and the device it is compiled
      for (the compilation itself is quantify-scheduler's). */
  datatype Compiled = Tof | Schedule(kwargs: Dict<Param>, device: seq<Transmon>)

  /** The part of `precompile` after the backup, given the hashes it reads
      and the `static_kwargs` of the measurement object: the result and the
      node's samplespace, which the merge rewrites in place. */
  function CompileFrom(h: Hashes, qubits: seq<string>, repetitions: Option<int>, statics: Dict<Param>,
                       samplespace: Dict<Param>, entries: Dict<Param>): (Result<Compiled>, Dict<Param>)
  {
    var device := LoadedAll(h, qubits);
    if device.Err? then (Err(device.error), samplespace)
    else
      var k := MergeAll(Kwargs(WithRepetitions(statics, repetitions), samplespace), entries, qubits);
      var call := ScheduleCall(k);
      (if call.Err? then Err(call.error) else Ok(Schedule(call.value, device.value)), k.samplespace)
  }

  /** What a compiled schedule is built from: the device loaded from the
      store after the backup, every default keyword and every swept
      quantity in their order, and the user's value for a swept quantity
      named in `node_dictionary`. */
  lemma CompiledSchedule(h: Hashes, qubits: seq<string>, repetitions: Option<int>, statics: Dict<Param>,
                         samplespace: Dict<Param>, entries: Dict<Param>, key: string)
    requires Valid(statics) && Valid(samplespace) && Valid(entries)
    ensures var (r, ss) := CompileFrom(h, qubits, repetitions, statics, samplespace, entries);
      Keys(ss) == Keys(samplespace) &&
      (r.Ok? ==> r.value.device == LoadedAll(h, qubits).value &&
                 Keys(r.value.kwargs) == Keys(WithRepetitions(statics, repetitions)) + Keys(samplespace)) &&
      (r.Ok? && Has(entries, key) && Has(samplespace, key) && !Has(statics, key) && key != "repetitions" ==>
         Lookup(ss, key) == Some(SweepValue(Get(entries, key), qubits)))
  {
    var s := WithRepetitions(statics, repetitions);
    if repetitions.Some? {
      PutValid(statics, "repetitions", Atom(repetitions.value));
      PutHas(statics, "repetitions", Atom(repetitions.value), key);
    }
    assert Has(s, key) <==> Has(statics, key) || (repetitions.Some? && key == "repetitions");
    var device := LoadedAll(h, qubits);
    if device.Ok? {
      var k := MergeAll(Kwargs(s, samplespace), entries, qubits);
      MergeAllKeys(Kwargs(s, samplespace), entries, qubits);
      MergeAllSpec(Kwargs(s, samplespace), entries, qubits, key);
      var call := ScheduleCall(k);
      assert CompileFrom(h, qubits, repetitions, statics, samplespace, entries) ==
        (if call.Err? then Err(call.error) else Ok(Schedule(call.value, device.value)), k.samplespace);
    }
  }

  /** The node as `precompile` reads it; its samplespace is the dict the
      merge writes into. */
  class CompilationNode {
    var name: string
    var allQubits: seq<string>
    var backup: bool
    var redisField: seq<string>
    var coupler: Option<seq<string>>
    var samplespace: Dict<Param>
    var nodeDictionary: Dict<Param>

    constructor (name: string, allQubits: seq<string>, backup: bool, redisField: seq<string>,
                 coupler: Option<seq<string>>, samplespace: Dict<Param>, nodeDictionary: Dict<Param>)
      ensures this.name == name && this.allQubits == allQubits && this.backup == backup
      ensures this.redisField == redisField && this.coupler == coupler
      ensures this.samplespace == samplespace && this.nodeDictionary == nodeDictionary
    {
      this.name := name;
      this.allQubits := allQubits;
      this.backup := backup;
      this.redisField := redisField;
      this.coupler := coupler;
      this.samplespace := samplespace;
      this.nodeDictionary := nodeDictionary;
    }
  }

  /** The device of `precompile`, channel by channel. */
  method LoadDevice(store: ParameterStore, qubits: seq<string>) returns (r: Result<seq<Transmon>>)
    ensures r == LoadedAll(store.hashes, qubits)
  {
    var device: seq<Transmon> := [];
    var channel := 0;
    while channel < |qubits|
      invariant 0 <= channel <= |qubits|
      invariant LoadedAll(store.hashes, qubits[..channel]) == Ok(device)
    {
      assert qubits[..channel + 1][..channel] == qubits[..channel];
      var qubit := qubits[channel];
      var transmon := LoadTransmon(qubit, store.GetAll(TransmonKey(qubit)), channel);
      if transmon.Err? {
        assert Enumerate(FromStore(store.hashes), qubits[..channel + 1]).Err?;
        EnumeratePrefix(FromStore(store.hashes), qubits, channel + 1);
        return Err(transmon.error);
      }
      device := device + [transmon.value];
      channel := channel + 1;
    }
    assert qubits[..|qubits|] == qubits;
    return Ok(device);
  }

  /** The `node_dictionary` loop, writing into the node's samplespace. */
  method MergeNodeDictionary(node: CompilationNode, statics: Dict<Param>) returns (merged: Dict<Param>)
    modifies node`samplespace
    ensures Kwargs(merged, node.samplespace) == MergeAll(Kwargs(statics, old(node.samplespace)), node.nodeDictionary, node.allQubits)
  {
    var entries := node.nodeDictionary;
    var qubits := node.allQubits;
    merged := statics;
    var i := 0;
    while i < |entries|
      invariant 0 <= i <= |entries|
      invariant Kwargs(merged, node.samplespace) == MergeAll(Kwargs(statics, old(node.samplespace)), entries[..i], qubits)
    {
      assert entries[..i + 1][..i] == entries[..i];
      var (key, value) := entries[i];
      if Has(merged, key) {
        merged := Put(merged, key, StaticValue(value, qubits));
      } else if Has(node.samplespace, key) {
        node.samplespace := Put(node.samplespace, key, SweepValue(value, qubits));
      }
      i := i + 1;
    }
    assert entries[..|entries|] == entries;
  }

  /** `precompile(node, bin_mode, repetitions)`, with `statics` the
      `static_kwargs` of the node's measurement object. */
  method Precompile(store: ParameterStore, node: CompilationNode, repetitions: Option<int>, statics: Dict<Param>)
    returns (r: Result<Compiled>)
    modifies store, node`samplespace
    ensures node.name == "tof" ==>
      r == Ok(Tof) && store.hashes == old(store.hashes) && node.samplespace == old(node.samplespace)
    ensures node.name != "tof" ==>
      store.hashes == (if node.backup then BackupAll(old(store.hashes), node.redisField, node.allQubits, node.coupler)
                       else old(store.hashes))
    ensures node.name != "tof" ==>
      (r, node.samplespace) ==
        CompileFrom(store.hashes, node.allQubits, repetitions, statics, old(node.samplespace), node.nodeDictionary)
  {
    if node.name == "tof" {
      return Ok(Tof);
    }
    if node.backup {
      BackupStore(store, node.redisField, node.allQubits, node.coupler);
    }
    var device := LoadDevice(store, node.allQubits);
    if device.Err? {
      return Err(device.error);
    }
    var withReps := statics;
    if repetitions.Some? {
      withReps := Put(withReps, "repetitions", Atom(repetitions.value));
    }
    var merged := MergeNodeDictionary(node, withReps);
    var call := ScheduleCall(Kwargs(merged, node.samplespace));
    if call.Err? {
      return Err(call.error);
    }
    return Ok(Schedule(call.value, device.value));
  }
}
