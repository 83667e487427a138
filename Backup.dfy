// The backup step of `precompile`, identical in both compilation workers
// (workers/compilation_worker.py and tergite_acl/functions/compilation_worker.py):
// before a node with `backup` set is measured, every quantity of interest it
// will recalibrate is copied to `<field>_backup` and blanked to "nan", in the
// hash of each qubit and of each coupler of the node that holds it.
module Backup {

  import opened Common
  import opened Store

  function BackupName(field: string): string
  {
    field + "_backup"
  }

  lemma BackupNameDiffers(field: string)
    ensures BackupName(field) != field
  {
    assert |BackupName(field)| == |field| + 7;
  }

  function TransmonKeys(qubits: seq<string>): (keys: seq<string>)
    ensures |keys| == |qubits| && forall i :: 0 <= i < |qubits| ==> keys[i] == TransmonKey(qubits[i])
  {
    seq(|qubits|, i requires 0 <= i < |qubits| => TransmonKey(qubits[i]))
  }

  function CouplerKeys(couplers: seq<string>): (keys: seq<string>)
    ensures |keys| == |couplers| && forall i :: 0 <= i < |couplers| ==> keys[i] == CouplerKey(couplers[i])
  {
    seq(|couplers|, i requires 0 <= i < |couplers| => CouplerKey(couplers[i]))
  }

  /** The backup of `field` in the hash `key`, which happens only when the
      hash holds the field. */
  function BackupOne(h: Hashes, key: string, field: string): Hashes
  {
    if FieldOf(h, key, field).Some? then
      SetField(SetField(h, key, BackupName(field), FieldOf(h, key, field).value), key, field, Nan)
    else h
  }

  /** The value of `k`/`f` after backing up `field` in the hashes `keys`:
      a backed-up hash reads "nan" for the field and the old value under the
      backup name; everything else is as it was. */
  function AfterBackup(h: Hashes, keys: seq<string>, field: string, k: string, f: string): Option<string>
  {
    if k in keys && FieldOf(h, k, field).Some? then
      if f == field then Some(Nan)
      else if f == BackupName(field) then FieldOf(h, k, field)
      else FieldOf(h, k, f)
    else FieldOf(h, k, f)
  }

  /** `for key in keys: if field in HGETALL(key): ...`, in order. */
  function BackupKeys(h: Hashes, keys: seq<string>, field: string): Hashes
  {
    if |keys| == 0 then h
    else BackupOne(BackupKeys(h, keys[..|keys| - 1], field), keys[|keys| - 1], field)
  }

  lemma BackupOneSpec(h: Hashes, key: string, field: string, k: string, f: string)
    ensures FieldOf(BackupOne(h, key, field), k, f) == AfterBackup(h, [key], field, k, f)
    ensures BackupOne(h, key, field).Keys == h.Keys
  {
    BackupNameDiffers(field);
  }

  /** No hash is created, and over distinct keys each hash holding the field
      is backed up exactly once. */
  lemma {:induction false} BackupKeysSpec(h: Hashes, keys: seq<string>, field: string, k: string, f: string)
    requires Distinct(keys)
    ensures FieldOf(BackupKeys(h, keys, field), k, f) == AfterBackup(h, keys, field, k, f)
    ensures BackupKeys(h, keys, field).Keys == h.Keys
  {
    if |keys| > 0 {
      var init := keys[..|keys| - 1];
      var last := keys[|keys| - 1];
      var h' := BackupKeys(h, init, field);
      assert Distinct(init);
      BackupKeysSpec(h, init, field, k, f);
      BackupKeysSpec(h, init, field, k, field);
      BackupOneSpec(h', last, field, k, f);
      assert k in keys <==> k in init || k == last;
      if k == last {
        assert last !in init;
      }
    }
  }

  lemma KeysDisjoint(qubit: string, coupler: string)
    ensures TransmonKey(qubit) != CouplerKey(coupler)
  {
    assert TransmonKey(qubit)[0] == 't' && CouplerKey(coupler)[0] == 'c';
  }

  /** The backup of `field` over the node's qubits, then over its couplers
      when it has any. */
  function BackupField(h: Hashes, field: string, qubits: seq<string>, couplers: Option<seq<string>>): Hashes
  {
    var h' := BackupKeys(h, TransmonKeys(qubits), field);
    if couplers.Some? then BackupKeys(h', CouplerKeys(couplers.value), field) else h'
  }

  /** `if node.backup: for field in node.redis_field: ...`. */
  function BackupAll(h: Hashes, fields: seq<string>, qubits: seq<string>, couplers: Option<seq<string>>): Hashes
  {
    if |fields| == 0 then h
    else BackupField(BackupAll(h, fields[..|fields| - 1], qubits, couplers), fields[|fields| - 1], qubits, couplers)
  }

  /** One field over the qubits and couplers: the transmon hashes of the
      qubits and the coupler hashes of the couplers holding it are backed up. */
  lemma BackupFieldSpec(h: Hashes, field: string, qubits: seq<string>, couplers: Option<seq<string>>, k: string, f: string)
    requires Distinct(qubits)
    requires couplers.Some? ==> Distinct(couplers.value)
    ensures var keys := TransmonKeys(qubits) + (if couplers.Some? then CouplerKeys(couplers.value) else []);
      FieldOf(BackupField(h, field, qubits, couplers), k, f) == AfterBackup(h, keys, field, k, f)
    ensures BackupField(h, field, qubits, couplers).Keys == h.Keys
  {
    var qs := TransmonKeys(qubits);
    assert Distinct(qs) by {
      forall i, j | 0 <= i < j < |qs| ensures qs[i] != qs[j] {
        assert qs[i][|"transmons:"|..] == qubits[i] && qs[j][|"transmons:"|..] == qubits[j];
      }
    }
    BackupKeysSpec(h, qs, field, k, f);
    if couplers.Some? {
      var cs := CouplerKeys(couplers.value);
      assert Distinct(cs) by {
        forall i, j | 0 <= i < j < |cs| ensures cs[i] != cs[j] {
          assert cs[i][|"couplers:"|..] == couplers.value[i] && cs[j][|"couplers:"|..] == couplers.value[j];
        }
      }
      var h' := BackupKeys(h, qs, field);
      BackupKeysSpec(h', cs, field, k, f);
      BackupKeysSpec(h, qs, field, k, field);
      assert k in qs + cs <==> k in qs || k in cs;
      if k in cs {
        var j :| 0 <= j < |cs| && cs[j] == k;
        forall i | 0 <= i < |qs| ensures qs[i] != k {
          KeysDisjoint(qubits[i], couplers.value[j]);
        }
      }
    } else {
      assert qs + [] == qs;
    }
  }

  /** The backup never creates a hash, and fields that are neither backed
      up nor backup names keep their values everywhere. */
  lemma {:induction false} BackupAllOthers(h: Hashes, fields: seq<string>, qubits: seq<string>,
                                           couplers: Option<seq<string>>, k: string, f: string)
    requires Distinct(qubits)
    requires couplers.Some? ==> Distinct(couplers.value)
    requires forall i :: 0 <= i < |fields| ==> f != fields[i] && f != BackupName(fields[i])
    ensures FieldOf(BackupAll(h, fields, qubits, couplers), k, f) == FieldOf(h, k, f)
    ensures BackupAll(h, fields, qubits, couplers).Keys == h.Keys
  {
    if |fields| > 0 {
      var init := fields[..|fields| - 1];
      var h' := BackupAll(h, init, qubits, couplers);
      BackupAllOthers(h, init, qubits, couplers, k, f);
      BackupFieldSpec(h', fields[|fields| - 1], qubits, couplers, k, f);
    }
  }

  /** Hashes other than those of the node's qubits and couplers are never
      touched. */
  lemma {:induction false} BackupAllElsewhere(h: Hashes, fields: seq<string>, qubits: seq<string>,
                                              couplers: Option<seq<string>>, k: string, f: string)
    requires Distinct(qubits)
    requires couplers.Some? ==> Distinct(couplers.value)
    requires k !in TransmonKeys(qubits) && (couplers.Some? ==> k !in CouplerKeys(couplers.value))
    ensures FieldOf(BackupAll(h, fields, qubits, couplers), k, f) == FieldOf(h, k, f)
  {
    if |fields| > 0 {
      var init := fields[..|fields| - 1];
      var h' := BackupAll(h, init, qubits, couplers);
      BackupAllElsewhere(h, init, qubits, couplers, k, f);
      BackupFieldSpec(h', fields[|fields| - 1], qubits, couplers, k, f);
    }
  }

  /** The backup loops of `precompile`, issued against the store. */
  method BackupEach(store: ParameterStore, keys: seq<string>, field: string)
    modifies store
    ensures store.hashes == BackupKeys(old(store.hashes), keys, field)
  {
    var i := 0;
    while i < |keys|
      invariant 0 <= i <= |keys|
      invariant store.hashes == BackupKeys(old(store.hashes), keys[..i], field)
    {
      assert keys[..i + 1][..i] == keys[..i];
      var key := keys[i];
      if field in store.GetAll(key) {
        var value := store.Get(key, field).value;
        store.HSet(key, BackupName(field), value);
        store.HSet(key, field, Nan);
      }
      i := i + 1;
    }
    assert keys[..|keys|] == keys;
  }

  method BackupStore(store: ParameterStore, fields: seq<string>, qubits: seq<string>, couplers: Option<seq<string>>)
    modifies store
    ensures store.hashes == BackupAll(old(store.hashes), fields, qubits, couplers)
  {
    var i := 0;
    while i < |fields|
      invariant 0 <= i <= |fields|
      invariant store.hashes == BackupAll(old(store.hashes), fields[..i], qubits, couplers)
    {
      assert fields[..i + 1][..i] == fields[..i];
      BackupEach(store, TransmonKeys(qubits), fields[i]);
      if couplers.Some? {
        BackupEach(store, CouplerKeys(couplers.value), fields[i]);
      }
      i := i + 1;
    }
    assert fields[..|fields|] == fields;
  }
}
