// The Redis parameter store shared by the calibration workers: one hash per
// key (`transmons:<qubit>`, `couplers:<coupler>`, `cs:<element>`), each a
// map from field to string value. Quantities of interest that are not yet
// known hold the sentinel "nan"; the calibration supervisor's flags under
// `cs:<element>` hold "calibrated" or "not_calibrated" per node.
// A Redis hash with no field does not exist, and `HGET` of a missing key
// or field gives nothing, which `FieldOf` returns as `None`.
module Store {

  import opened Common
  import opened Dicts

  type Hash = map<string, string>
  type Hashes = map<string, Hash>

  const Nan := "nan"
  const Calibrated := "calibrated"
  const NotCalibrated := "not_calibrated"

  function TransmonKey(q: string): string { "transmons:" + q }
  function CouplerKey(c: string): string { "couplers:" + c }
  function StatusKey(e: string): string { "cs:" + e }

  /** `HGETALL key`: a missing key reads as an empty hash. */
  function HashAt(h: Hashes, key: string): Hash
  {
    if key in h then h[key] else map[]
  }

  /** `HGET key field`. */
  function FieldOf(h: Hashes, key: string, field: string): Option<string>
  {
    if key in h && field in h[key] then Some(h[key][field]) else None
  }

  /** `HSET key field value`: the field reads back the value and nothing
      else changes. */
  function SetField(h: Hashes, key: string, field: string, value: string): (r: Hashes)
    ensures FieldOf(r, key, field) == Some(value)
    ensures forall k, f :: k != key || f != field ==> FieldOf(r, k, f) == FieldOf(h, k, f)
    ensures r.Keys == h.Keys + {key}
  {
    h[key := (if key in h then h[key] else map[])[field := value]]
  }

  /** One `HSET`, as issued by a loop of the workers. */
  datatype Write = Write(key: string, field: string, value: string)

  predicate Writes(w: Write, key: string, field: string)
  {
    w.key == key && w.field == field
  }

  /** Unconditional writes, issued in order. */
  function SetAll(h: Hashes, ws: seq<Write>): Hashes
  {
    if |ws| == 0 then h
    else
      var w := ws[|ws| - 1];
      SetField(SetAll(h, ws[..|ws| - 1]), w.key, w.field, w.value)
  }

  /** The value of the last write to `key`/`field`, if any. */
  function LastWrite(ws: seq<Write>, key: string, field: string): (r: Option<string>)
    ensures r.None? <==> forall i :: 0 <= i < |ws| ==> !Writes(ws[i], key, field)
    ensures r.Some? ==> exists i :: (0 <= i < |ws| && Writes(ws[i], key, field) && ws[i].value == r.value &&
      forall j :: i < j < |ws| ==> !Writes(ws[j], key, field))
  {
    if |ws| == 0 then None
    else if Writes(ws[|ws| - 1], key, field) then Some(ws[|ws| - 1].value)
    else
      var r := LastWrite(ws[..|ws| - 1], key, field);
      assert forall i :: 0 <= i < |ws| - 1 ==> ws[..|ws| - 1][i] == ws[i];
      r
  }

  /** The value of the first write to `key`/`field`, if any. */
  function FirstWrite(ws: seq<Write>, key: string, field: string): (r: Option<string>)
    ensures r.None? <==> forall i :: 0 <= i < |ws| ==> !Writes(ws[i], key, field)
    ensures r.Some? ==> exists i :: (0 <= i < |ws| && Writes(ws[i], key, field) && ws[i].value == r.value &&
      forall j :: 0 <= j < i ==> !Writes(ws[j], key, field))
  {
    if |ws| == 0 then None
    else
      var r := FirstWrite(ws[..|ws| - 1], key, field);
      assert forall i :: 0 <= i < |ws| - 1 ==> ws[..|ws| - 1][i] == ws[i];
      if r.Some? then r
      else if Writes(ws[|ws| - 1], key, field) then Some(ws[|ws| - 1].value)
      else None
  }

  /** After a run of unconditional writes the last write to a field wins;
      a field nobody wrote keeps its value. */
  lemma {:induction false} SetAllValue(h: Hashes, ws: seq<Write>, key: string, field: string)
    ensures FieldOf(SetAll(h, ws), key, field) ==
      (if LastWrite(ws, key, field).Some? then LastWrite(ws, key, field) else FieldOf(h, key, field))
  {
    if |ws| > 0 {
      SetAllValue(h, ws[..|ws| - 1], key, field);
    }
  }

  /** Writing `a` and then `b` is writing `a + b`. */
  lemma {:induction false} SetAllAppend(h: Hashes, a: seq<Write>, b: seq<Write>)
    ensures SetAll(h, a + b) == SetAll(SetAll(h, a), b)
    decreases |b|
  {
    if |b| > 0 {
      assert (a + b)[..|a + b| - 1] == a + b[..|b| - 1];
      SetAllAppend(h, a, b[..|b| - 1]);
    } else {
      assert a + b == a;
    }
  }

  /** Of two runs of writes, the later run's last write wins. */
  lemma {:induction false} LastWriteAppend(a: seq<Write>, b: seq<Write>, key: string, field: string)
    ensures LastWrite(a + b, key, field) ==
      (if LastWrite(b, key, field).Some? then LastWrite(b, key, field) else LastWrite(a, key, field))
    decreases |b|
  {
    if |b| > 0 {
      assert (a + b)[..|a + b| - 1] == a + b[..|b| - 1];
      LastWriteAppend(a, b[..|b| - 1], key, field);
    } else {
      assert a + b == a;
    }
  }

  /** Of two runs of writes, the earlier run's first write wins. */
  lemma {:induction false} FirstWriteAppend(a: seq<Write>, b: seq<Write>, key: string, field: string)
    ensures FirstWrite(a + b, key, field) ==
      (if FirstWrite(a, key, field).Some? then FirstWrite(a, key, field) else FirstWrite(b, key, field))
    decreases |b|
  {
    if |b| > 0 {
      assert (a + b)[..|a + b| - 1] == a + b[..|b| - 1];
      FirstWriteAppend(a, b[..|b| - 1], key, field);
    } else {
      assert a + b == a;
    }
  }

  /** `HSET key f v` for each entry `f: v` of a dict, in order. */
  function FieldWrites(key: string, d: Dict<string>): (ws: seq<Write>)
    ensures |ws| == |d|
    ensures forall i :: 0 <= i < |d| ==> ws[i] == Write(key, d[i].0, d[i].1)
  {
    seq(|d|, i requires 0 <= i < |d| => Write(key, d[i].0, d[i].1))
  }

  /** Writing a dict's entries leaves each field with its entry. */
  lemma LastWriteFields(key: string, d: Dict<string>, k: string, f: string)
    requires Valid(d)
    ensures LastWrite(FieldWrites(key, d), k, f) == (if k == key && Has(d, f) then Some(Get(d, f)) else None)
  {
    var ws := FieldWrites(key, d);
    var r := LastWrite(ws, k, f);
    if r.Some? {
      var i :| 0 <= i < |ws| && Writes(ws[i], k, f) && ws[i].value == r.value;
      assert d[i].0 == f;
      assert IndexOf(d, f) == i;
    }
  }

  /** Writing a dict's entries where absent: the first entry for a field. */
  lemma FirstWriteFields(key: string, d: Dict<string>, k: string, f: string)
    ensures FirstWrite(FieldWrites(key, d), k, f) == (if k == key && Has(d, f) then Some(Get(d, f)) else None)
  {
    var ws := FieldWrites(key, d);
    var r := FirstWrite(ws, k, f);
    if r.Some? {
      var i :| 0 <= i < |ws| && Writes(ws[i], k, f) && ws[i].value == r.value &&
        forall j :: 0 <= j < i ==> !Writes(ws[j], k, f);
      assert d[i].0 == f;
      assert IndexOf(d, f) == i;
    }
  }

  /** Writing a dict's entries under one key writes no other key. */
  lemma FieldWritesOther(key: string, d: Dict<string>, k: string, f: string)
    requires k != key
    ensures LastWrite(FieldWrites(key, d), k, f).None?
    ensures FirstWrite(FieldWrites(key, d), k, f).None?
  {
  }

  /** `HSET k field value` for each key `k`, in order. */
  function Broadcast(keys: seq<string>, field: string, value: string): (ws: seq<Write>)
    ensures |ws| == |keys|
    ensures forall i :: 0 <= i < |keys| ==> ws[i] == Write(keys[i], field, value)
  {
    seq(|keys|, i requires 0 <= i < |keys| => Write(keys[i], field, value))
  }

  lemma LastWriteBroadcast(keys: seq<string>, field: string, value: string, k: string, f: string)
    ensures LastWrite(Broadcast(keys, field, value), k, f) == (if k in keys && f == field then Some(value) else None)
  {
    var ws := Broadcast(keys, field, value);
    if k in keys && f == field {
      var i :| 0 <= i < |keys| && keys[i] == k;
      assert Writes(ws[i], k, f);
    }
  }

  /** `HSET` only when `HEXISTS` says the field is absent. */
  function SetIfAbsent(h: Hashes, w: Write): Hashes
  {
    if FieldOf(h, w.key, w.field).Some? then h else SetField(h, w.key, w.field, w.value)
  }

  /** Writes issued only where the field is absent, in order. */
  function DefaultAll(h: Hashes, ws: seq<Write>): Hashes
  {
    if |ws| == 0 then h else SetIfAbsent(DefaultAll(h, ws[..|ws| - 1]), ws[|ws| - 1])
  }

  /** Populating never overwrites: a field present before keeps its value,
      and an absent field gets the value of the first write to it. */
  lemma {:induction false} DefaultAllValue(h: Hashes, ws: seq<Write>, key: string, field: string)
    ensures FieldOf(DefaultAll(h, ws), key, field) ==
      (if FieldOf(h, key, field).Some? then FieldOf(h, key, field) else FirstWrite(ws, key, field))
  {
    if |ws| > 0 {
      var init := ws[..|ws| - 1];
      DefaultAllValue(h, init, key, field);
      SetIfAbsentValue(DefaultAll(h, init), ws[|ws| - 1], key, field);
    }
  }

  lemma SetIfAbsentValue(h: Hashes, w: Write, key: string, field: string)
    ensures FieldOf(SetIfAbsent(h, w), key, field) ==
      (if FieldOf(h, key, field).Some? then FieldOf(h, key, field)
       else if Writes(w, key, field) then Some(w.value) else None)
  {
  }

  /** Every written field is present afterwards. */
  predicate Present(h: Hashes, ws: seq<Write>)
  {
    forall i :: 0 <= i < |ws| ==> FieldOf(h, ws[i].key, ws[i].field).Some?
  }

  lemma DefaultAllPresent(h: Hashes, ws: seq<Write>)
    ensures Present(DefaultAll(h, ws), ws)
  {
    forall i | 0 <= i < |ws| ensures FieldOf(DefaultAll(h, ws), ws[i].key, ws[i].field).Some? {
      DefaultAllValue(h, ws, ws[i].key, ws[i].field);
    }
  }

  /** When every field is already present, populating changes nothing. */
  lemma {:induction false} DefaultAllNoop(h: Hashes, ws: seq<Write>)
    requires Present(h, ws)
    ensures DefaultAll(h, ws) == h
  {
    if |ws| > 0 {
      DefaultAllNoop(h, ws[..|ws| - 1]);
    }
  }

  /** Populating twice is populating once. */
  lemma DefaultAllIdempotent(h: Hashes, ws: seq<Write>)
    ensures DefaultAll(DefaultAll(h, ws), ws) == DefaultAll(h, ws)
  {
    DefaultAllPresent(h, ws);
    DefaultAllNoop(DefaultAll(h, ws), ws);
  }

  /** `config[name]` for each name in turn, on the dict `HGETALL` returned; the first missing one is a
      KeyError. */
  function ReadFields(h: Hash, names: seq<string>): (r: Result<seq<string>>)
    ensures r.Ok? <==> forall i :: 0 <= i < |names| ==> names[i] in h
    ensures r.Ok? ==> |r.value| == |names| && forall i :: 0 <= i < |names| ==> r.value[i] == h[names[i]]
    ensures r.Err? ==> exists i :: 0 <= i < |names| && names[i] !in h && r.error == KeyError(names[i]) &&
                                   forall j :: 0 <= j < i ==> names[j] in h
  {
    if |names| == 0 then Ok([])
    else if names[0] !in h then Err(KeyError(names[0]))
    else
      var rest := ReadFields(h, names[1..]);
      if rest.Err? then
        assert exists i :: 0 <= i < |names| && names[i] !in h && rest.error == KeyError(names[i]) &&
                           forall j :: 0 <= j < i ==> names[j] in h by {
          var i :| 0 <= i < |names| - 1 && names[1..][i] !in h && rest.error == KeyError(names[1..][i]) &&
                   forall j :: 0 <= j < i ==> names[1..][j] in h;
          assert forall j :: 0 <= j < i + 1 ==> names[j] in h by {
            forall j | 0 <= j < i + 1 ensures names[j] in h {
              if j > 0 { assert names[j] == names[1..][j - 1]; }
            }
          }
        }
        rest
      else Ok([h[names[0]]] + rest.value)
  }

  /** Only the fields read matter. */
  lemma {:induction false} ReadFieldsAgrees(h: Hash, h': Hash, names: seq<string>)
    requires forall i :: 0 <= i < |names| ==> (names[i] in h <==> names[i] in h')
    requires forall i :: 0 <= i < |names| && names[i] in h ==> h[names[i]] == h'[names[i]]
    ensures ReadFields(h, names) == ReadFields(h', names)
  {
    if |names| > 0 {
      ReadFieldsAgrees(h, h', names[1..]);
    }
  }

  /** The Redis server, as the workers see it. */
  class ParameterStore {
    var hashes: Hashes

    constructor (initial: Hashes)
      ensures hashes == initial
    {
      hashes := initial;
    }

    /** `HGET key field`. */
    function Get(key: string, field: string): Option<string>
      reads this
    {
      FieldOf(hashes, key, field)
    }

    /** `HGETALL key`: a missing key reads as an empty hash. */
    function GetAll(key: string): Hash
      reads this
    {
      HashAt(hashes, key)
    }

    method HSet(key: string, field: string, value: string)
      modifies this
      ensures hashes == SetField(old(hashes), key, field, value)
    {
      hashes := SetField(hashes, key, field, value);
    }

    /** Issues `ws` in order. */
    method SetEach(ws: seq<Write>)
      modifies this
      ensures hashes == SetAll(old(hashes), ws)
    {
      var i := 0;
      while i < |ws|
        invariant 0 <= i <= |ws|
        invariant hashes == SetAll(old(hashes), ws[..i])
      {
        assert ws[..i + 1][..i] == ws[..i];
        HSet(ws[i].key, ws[i].field, ws[i].value);
        i := i + 1;
      }
      assert ws[..|ws|] == ws;
    }

    /** Issues each write of `ws` whose field is still absent, in order. */
    method DefaultEach(ws: seq<Write>)
      modifies this
      ensures hashes == DefaultAll(old(hashes), ws)
    {
      var i := 0;
      while i < |ws|
        invariant 0 <= i <= |ws|
        invariant hashes == DefaultAll(old(hashes), ws[..i])
      {
        assert ws[..i + 1][..i] == ws[..i];
        if Get(ws[i].key, ws[i].field).None? {
          HSet(ws[i].key, ws[i].field, ws[i].value);
        }
        i := i + 1;
      }
      assert ws[..|ws|] == ws;
    }
  }
}
