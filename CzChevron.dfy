// The CZ chevron nodes of tergite_autocalibration/lib/nodes/coupler/cz_chevron/node.py:
// `CZ_Chevron_Node`, which sweeps pulse durations and frequencies for every
// coupler, and `Reset_Chevron_Node`, which sweeps reset pulses on the qubits
// of the first coupler. Both extend the base node without setting
// `qubit_qois` or `coupler_qois`; the class attribute is a parameter of the
// constructors below, and the classes as they are written pass `None`.
module CzChevron {

  import opened Common
  import opened Dicts
  import opened Dataset
  import BaseNode
  import CouplerNodes

  // ---------------------------------------------------------------------
  // The pulse amplitude.

  /** `float(...)` of a field read from the parameter store: a missing
      field is `float(None)`, which raises a TypeError. */
  datatype Stored = Missing | NotANumber | Number(value: real)

  const AmplitudeKey: string := "cz_pulse_amplitude"
  const DefaultAmplitude: real := 0.375

  /** The node dictionary after the amplitude lookup: an amplitude given by
      the caller is kept; otherwise the coupler's stored amplitude is used,
      or 0.375 when the store holds NaN, and written into the dictionary. */
  function WithAmplitude(nodeDictionary: Dict<real>, stored: Stored): Result<Dict<real>>
  {
    if Has(nodeDictionary, AmplitudeKey) then Ok(nodeDictionary)
    else
      match stored
      case Missing => Err(TypeError)
      case NotANumber => Ok(Put(nodeDictionary, AmplitudeKey, DefaultAmplitude))
      case Number(v) => Ok(Put(nodeDictionary, AmplitudeKey, v))
  }

  /** The amplitude the node ends up with. */
  function ChosenAmplitude(nodeDictionary: Dict<real>, stored: Stored): real
    requires Has(nodeDictionary, AmplitudeKey) || !stored.Missing?
  {
    if Has(nodeDictionary, AmplitudeKey) then Get(nodeDictionary, AmplitudeKey)
    else if stored.Number? then stored.value
    else DefaultAmplitude
  }

  /** The lookup fails only when neither the caller nor the store has an
      amplitude; otherwise the dictionary holds the chosen amplitude and is
      unchanged elsewhere. */
  lemma WithAmplitudeSpec(nodeDictionary: Dict<real>, stored: Stored, k: string)
    requires Valid(nodeDictionary)
    ensures var r := WithAmplitude(nodeDictionary, stored);
      (r.Err? <==> !Has(nodeDictionary, AmplitudeKey) && stored.Missing?) &&
      (r.Err? ==> r.error == TypeError) &&
      (r.Ok? ==> (Valid(r.value) && Has(r.value, AmplitudeKey) &&
        Get(r.value, AmplitudeKey) == ChosenAmplitude(nodeDictionary, stored))) &&
      (r.Ok? && k != AmplitudeKey ==>
        (Has(r.value, k) <==> Has(nodeDictionary, k)) &&
        (Has(nodeDictionary, k) ==> Get(r.value, k) == Get(nodeDictionary, k)))
  {
    if !Has(nodeDictionary, AmplitudeKey) && !stored.Missing? {
      var v := ChosenAmplitude(nodeDictionary, stored);
      PutValid(nodeDictionary, AmplitudeKey, v);
      PutHas(nodeDictionary, AmplitudeKey, v, k);
      PutHas(nodeDictionary, AmplitudeKey, v, AmplitudeKey);
      PutGet(nodeDictionary, AmplitudeKey, v, k);
      PutGet(nodeDictionary, AmplitudeKey, v, AmplitudeKey);
    }
  }

  /** Once chosen, the amplitude stays: building a node again with the
      resulting dictionary reads nothing from the store. */
  lemma WithAmplitudeIdempotent(nodeDictionary: Dict<real>, stored: Stored, later: Stored)
    requires Valid(nodeDictionary) && WithAmplitude(nodeDictionary, stored).Ok?
    ensures WithAmplitude(WithAmplitude(nodeDictionary, stored).value, later) == WithAmplitude(nodeDictionary, stored)
  {
    WithAmplitudeSpec(nodeDictionary, stored, AmplitudeKey);
  }

  // ---------------------------------------------------------------------
  // CZ_Chevron_Node

  const ChevronField: seq<string> := ["cz_pulse_frequency", "cz_pulse_duration"]

  const F01Key: string := "clock_freqs:f01"
  const F12Key: string := "clock_freqs:f12"

  /** The stored frequencies: `float(hget(f"transmons:{qubit}", field))`. */
  type Frequencies = (string, string) -> Stored

  function Abs(x: real): real { if x < 0.0 then -x else x }

  /** `int(ac_freq / 1e4) * 1e4` for `ac_freq` the larger of the two
      detunings `|f01_1 + f01_2 - (f01_1 + f12_1)|` and
      `|f01_1 + f01_2 - (f01_2 + f12_2)|`: the detuning rounded down to a
      multiple of 10 kHz. */
  function AcFrequency(f01a: real, f01b: real, f12a: real, f12b: real): (r: int)
    ensures var ac := if Abs(f01b - f12a) >= Abs(f01a - f12b) then Abs(f01b - f12a) else Abs(f01a - f12b);
      r >= 0 && r % 10000 == 0 && r as real <= ac < r as real + 10000.0
  {
    var d1, d2 := Abs(f01a + f01b - (f01a + f12a)), Abs(f01a + f01b - (f01b + f12b));
    var ac := if d1 >= d2 then d1 else d2;
    (ac / 10000.0).Floor * 10000
  }

  /** `transition_frequency(coupler)`: the reads happen in the order
      `f01` of the first qubit, `f01` of the second (a coupler without '_'
      has none: IndexError), then `f12` of each; a missing field is the
      TypeError of `float(None)`, and a NaN reaches `int(...)`, a
      ValueError. The result exists exactly when all four are numbers, and
      is then a multiple of 10 kHz within 10 kHz below the larger detuning. */
  function TransitionFrequency(coupler: string, freqs: Frequencies): (r: Result<Sample>)
    ensures var qs := Split(coupler, '_');
      r.Ok? <==>
        (|qs| >= 2 && freqs(qs[0], F01Key).Number? && freqs(qs[1], F01Key).Number? &&
         freqs(qs[0], F12Key).Number? && freqs(qs[1], F12Key).Number?)
    ensures var qs := Split(coupler, '_');
      |qs| < 2 ==> r == Err(if freqs(qs[0], F01Key).Missing? then TypeError else IndexError)
    ensures var qs := Split(coupler, '_');
      r.Ok? ==>
        var d1 := Abs(freqs(qs[1], F01Key).value - freqs(qs[0], F12Key).value);
        var d2 := Abs(freqs(qs[0], F01Key).value - freqs(qs[1], F12Key).value);
        var ac := if d1 >= d2 then d1 else d2;
        r.value >= 0 && r.value % 10000 == 0 && r.value as real <= ac < r.value as real + 10000.0
  {
    var qs := Split(coupler, '_');
    if freqs(qs[0], F01Key).Missing? then Err(TypeError)
    else if |qs| < 2 then Err(IndexError)
    else
      var a, b, c, d := freqs(qs[0], F01Key), freqs(qs[1], F01Key), freqs(qs[0], F12Key), freqs(qs[1], F12Key);
      if b.Missing? || c.Missing? || d.Missing? then Err(TypeError)
      else if a.NotANumber? || b.NotANumber? || c.NotANumber? || d.NotANumber? then
        Err(ValueError("cannot convert float NaN to integer"))
      else Ok(AcFrequency(a.value, b.value, c.value, d.value))
  }

  /** The `cz_pulse_frequencies` comprehension over the first couplers: 26
      frequencies around each coupler's transition frequency; the first
      coupler whose transition frequency fails raises. */
  function FrequencySweeps(couplers: seq<string>, freqs: Frequencies): Result<Quantity>
  {
    if |couplers| == 0 then Ok([])
    else
      match FrequencySweeps(couplers[..|couplers| - 1], freqs)
      case Err(e) => Err(e)
      case Ok(sweeps) =>
        match TransitionFrequency(couplers[|couplers| - 1], freqs)
        case Err(e) => Err(e)
        case Ok(f) => Ok(Put(sweeps, couplers[|couplers| - 1], Values(Grid(f, 26))))
  }

  /** The sweeps exist iff every coupler's transition frequency does, and
      then hold each coupler with its 26 frequencies. */
  lemma {:induction false} FrequencySweepsSpec(couplers: seq<string>, freqs: Frequencies)
    ensures FrequencySweeps(couplers, freqs).Ok? <==>
      forall i :: 0 <= i < |couplers| ==> TransitionFrequency(couplers[i], freqs).Ok?
    ensures FrequencySweeps(couplers, freqs).Ok? ==>
      var sweeps := FrequencySweeps(couplers, freqs).value;
      Valid(sweeps) && (forall k :: Has(sweeps, k) <==> k in couplers) &&
      forall k :: k in couplers ==> Get(sweeps, k) == Values(Grid(TransitionFrequency(k, freqs).value, 26))
  {
    if |couplers| > 0 {
      var init, last := couplers[..|couplers| - 1], couplers[|couplers| - 1];
      FrequencySweepsSpec(init, freqs);
      assert forall i :: 0 <= i < |init| ==> init[i] == couplers[i];
      if FrequencySweeps(couplers, freqs).Ok? {
        SweepsStep(init, last, FrequencySweeps(init, freqs).value, freqs);
        assert couplers == init + [last];
      }
    }
  }

  lemma SweepsStep(init: seq<string>, last: string, sweeps: Quantity, freqs: Frequencies)
    requires TransitionFrequency(last, freqs).Ok?
    requires Valid(sweeps) && forall k :: Has(sweeps, k) <==> k in init
    requires forall k :: k in init ==>
      TransitionFrequency(k, freqs).Ok? && Get(sweeps, k) == Values(Grid(TransitionFrequency(k, freqs).value, 26))
    ensures var v := Values(Grid(TransitionFrequency(last, freqs).value, 26));
      Valid(Put(sweeps, last, v)) && (forall k :: Has(Put(sweeps, last, v), k) <==> k in init + [last]) &&
      forall k :: k in init + [last] ==>
        TransitionFrequency(k, freqs).Ok? && Get(Put(sweeps, last, v), k) == Values(Grid(TransitionFrequency(k, freqs).value, 26))
  {
    var v := Values(Grid(TransitionFrequency(last, freqs).value, 26));
    PutValid(sweeps, last, v);
    forall k ensures Has(Put(sweeps, last, v), k) <==> k in init + [last] {
      PutHas(sweeps, last, v, k);
    }
    forall k | k in init + [last]
      ensures TransitionFrequency(k, freqs).Ok? && Get(Put(sweeps, last, v), k) == Values(Grid(TransitionFrequency(k, freqs).value, 26))
    {
      PutGet(sweeps, last, v, k);
    }
  }

  /** The first coupler whose transition frequency fails decides the error. */
  lemma {:induction false} FrequencySweepsFirstError(couplers: seq<string>, freqs: Frequencies, j: nat)
    requires j < |couplers| && TransitionFrequency(couplers[j], freqs).Err?
    requires forall i :: 0 <= i < j ==> TransitionFrequency(couplers[i], freqs).Ok?
    ensures FrequencySweeps(couplers, freqs) == Err(TransitionFrequency(couplers[j], freqs).error)
  {
    var init := couplers[..|couplers| - 1];
    if j < |couplers| - 1 {
      FrequencySweepsFirstError(init, freqs, j);
    } else {
      FrequencySweepsSpec(init, freqs);
    }
  }

  /** The chevron schedule: the 21 durations `arange(0, 401e-9, 20e-9) + 100e-9`
      for every coupler, and the frequency sweeps. */
  function ChevronSchedule(couplers: seq<string>, sweeps: Quantity): Samplespace
  {
    [("cz_pulse_durations", BaseNode.PerQubit(couplers, Values(Grid(100, 21)))),
     ("cz_pulse_frequencies", sweeps)]
  }

  /** `CZ_Chevron_Node(...)` for a class whose `coupler_qois` is
      `couplerQois`; `stored` is the first coupler's `cz_pulse_amplitude` in
      the store and `freqs` the qubits' stored frequencies. Construction
      fails, in this order, on missing quantities of interest, on an empty
      coupler list (`couplers[0]`), on a missing amplitude, on a coupler
      whose transition frequency fails, and in `validate` on couplers that
      share a qubit. */
  method NewCzChevron(name: string, allQubits: seq<string>, couplers: seq<string>, nodeDictionary: Dict<real>,
                      couplerQois: Option<seq<string>>, stored: Stored, freqs: Frequencies)
    returns (r: Result<BaseNode.BaseNode>)
    requires Valid(nodeDictionary)
    ensures couplerQois.None? ==> r.Err? && r.error.ValueError?
    ensures couplerQois.Some? && |couplers| == 0 ==> r == Err(IndexError)
    ensures couplerQois.Some? && |couplers| > 0 && WithAmplitude(nodeDictionary, stored).Err? ==> r == Err(TypeError)
    ensures (couplerQois.Some? && |couplers| > 0 && WithAmplitude(nodeDictionary, stored).Ok? &&
      FrequencySweeps(couplers, freqs).Err?) ==> r == Err(FrequencySweeps(couplers, freqs).error)
    ensures (couplerQois.Some? && |couplers| > 0 && WithAmplitude(nodeDictionary, stored).Ok? &&
      FrequencySweeps(couplers, freqs).Ok? &&
      !Distinct(CouplerNodes.CoupledQubits(couplers))) ==> r == Err(ValueError("Improper Couplers"))
    ensures r.Ok? <==> (couplerQois.Some? && |couplers| > 0 && WithAmplitude(nodeDictionary, stored).Ok? &&
      FrequencySweeps(couplers, freqs).Ok? && Distinct(CouplerNodes.CoupledQubits(couplers)))
    ensures r.Ok? ==> (fresh(r.value) && r.value.name == name &&
      r.value.allQubits == CouplerNodes.CoupledQubits(couplers) &&
      r.value.couplers == Some(couplers) && r.value.coupler == Some(couplers[0]) &&
      r.value.redisFields == couplerQois.value && r.value.redisField == Some(ChevronField) &&
      r.value.qubitState == 0 && r.value.loops.None? &&
      r.value.nodeDictionary == WithAmplitude(nodeDictionary, stored).value &&
      r.value.scheduleSamplespace == ChevronSchedule(couplers, FrequencySweeps(couplers, freqs).value))
  {
    var fields := BaseNode.RedisFields(None, couplerQois);
    if fields.Err? {
      return Err(fields.error);
    }
    if |couplers| == 0 {
      return Err(IndexError);
    }
    // The amplitude and `validate` are decided before the node is built; a
    // node that fails is discarded, so the order of assignments is invisible.
    var amplitude := WithAmplitude(nodeDictionary, stored);
    if amplitude.Err? {
      return Err(amplitude.error);
    }
    var sweeps := FrequencySweeps(couplers, freqs);
    if sweeps.Err? {
      return Err(sweeps.error);
    }
    var valid := CouplerNodes.Validate(couplers);
    if valid.Err? {
      return Err(valid.error);
    }
    var node := new BaseNode.BaseNode.Coupled(name, CouplerNodes.CoupledQubits(couplers), amplitude.value, fields.value,
                                              couplers, ChevronField, ChevronSchedule(couplers, sweeps.value));
    r := Ok(node);
  }

  /** Built with `coupler_qois` set to the fields it calibrates, the chevron
      dataset is 21 durations by 26 frequencies, and the node measures the
      qubits of all couplers. */
  method CzChevronDimensions(allQubits: seq<string>, couplers: seq<string>, nodeDictionary: Dict<real>,
                             stored: Stored, freqs: Frequencies)
    returns (node: Result<BaseNode.BaseNode>, dims: Result<seq<nat>>)
    requires Valid(nodeDictionary) && |couplers| > 0 && Distinct(CouplerNodes.CoupledQubits(couplers))
    requires Has(nodeDictionary, AmplitudeKey) || !stored.Missing?
    requires forall c :: c in couplers ==> TransitionFrequency(c, freqs).Ok?
    ensures node.Ok? && node.value.allQubits == CouplerNodes.CoupledQubits(couplers)
    ensures dims == Ok([21, 26])
  {
    FrequencySweepsSpec(couplers, freqs);
    node := NewCzChevron("cz_chevron", allQubits, couplers, nodeDictionary, Some(ChevronField), stored, freqs);
    BaseNode.PerQubitShape(couplers, Values(Grid(100, 21)));
    assert couplers[0] in couplers;
    dims := node.value.Dimensions();
    assert dims.Ok? && dims.value == [21, 26];
  }

  // ---------------------------------------------------------------------
  // Reset_Chevron_Node

  const ResetField: seq<string> := ["reset_amplitude_qc", "reset_duration_qc"]

  /** Two 26-point grids, durations and amplitudes, for each qubit of the
      first coupler. */
  function ResetSchedule(coupler: string): Samplespace
  {
    [("cz_pulse_durations", BaseNode.PerQubit(Split(coupler, '_'), Values(Grid(0, 26)))),
     ("cz_pulse_amplitudes", BaseNode.PerQubit(Split(coupler, '_'), Values(Grid(0, 26))))]
  }

  /** `Reset_Chevron_Node(...)` for a class whose `coupler_qois` is
      `couplerQois`: the quantities of interest must be there and
      `couplers[0]` must exist. */
  method NewResetChevron(name: string, allQubits: seq<string>, couplers: seq<string>, nodeDictionary: Dict<real>,
                         couplerQois: Option<seq<string>>)
    returns (r: Result<BaseNode.BaseNode>)
    ensures couplerQois.None? ==> r.Err? && r.error.ValueError?
    ensures couplerQois.Some? && |couplers| == 0 ==> r == Err(IndexError)
    ensures r.Ok? <==> couplerQois.Some? && |couplers| > 0
    ensures r.Ok? ==> (fresh(r.value) && r.value.name == name && r.value.allQubits == allQubits &&
      r.value.couplers == Some(couplers) && r.value.coupler == Some(couplers[0]) &&
      r.value.redisFields == couplerQois.value && r.value.redisField == Some(ResetField) &&
      r.value.qubitState == 0 && r.value.loops.None? &&
      r.value.scheduleSamplespace == ResetSchedule(couplers[0]))
  {
    var fields := BaseNode.RedisFields(None, couplerQois);
    if fields.Err? {
      return Err(fields.error);
    }
    if |couplers| == 0 {
      return Err(IndexError);
    }
    var node := new BaseNode.BaseNode.Coupled(name, allQubits, nodeDictionary, fields.value,
                                              couplers, ResetField, ResetSchedule(couplers[0]));
    r := Ok(node);
  }

  /** Built with `coupler_qois` set to its fields, the reset chevron dataset
      is 26 by 26, whatever the first coupler's qubits are. */
  method ResetChevronDimensions(allQubits: seq<string>, couplers: seq<string>, nodeDictionary: Dict<real>)
    returns (dims: Result<seq<nat>>)
    requires |couplers| > 0
    ensures dims == Ok([26, 26])
  {
    var node := NewResetChevron("reset_chevron", allQubits, couplers, nodeDictionary, Some(ResetField));
    var qubits := Split(couplers[0], '_');
    BaseNode.PerQubitShape(qubits, Values(Grid(0, 26)));
    assert qubits[0] in qubits;
    dims := node.value.Dimensions();
    assert dims.Ok? && dims.value == [26, 26];
  }

  /** Neither class sets `coupler_qois`, so both constructors raise the base
      constructor's ValueError before any field is assigned. */
  method CzChevronNodesAsWritten(name: string, allQubits: seq<string>, couplers: seq<string>,
                                 nodeDictionary: Dict<real>, stored: Stored, freqs: Frequencies)
    returns (chevron: Result<BaseNode.BaseNode>, reset: Result<BaseNode.BaseNode>)
    requires Valid(nodeDictionary)
    ensures chevron.Err? && chevron.error.ValueError?
    ensures reset.Err? && reset.error.ValueError?
  {
    chevron := NewCzChevron(name, allQubits, couplers, nodeDictionary, None, stored, freqs);
    reset := NewResetChevron(name, allQubits, couplers, nodeDictionary, None);
  }
}
