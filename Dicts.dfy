// Python dictionaries keyed by strings, as association lists in insertion
// order. Insertion order matters to the model: the dataset coordinates and
// `BaseNode.dimensions` follow the order in which settables were added.
module Dicts {

  import opened Common

  type Dict<V> = seq<(string, V)>

  function Keys<V>(d: Dict<V>): (ks: seq<string>)
    ensures |ks| == |d|
    ensures forall i :: 0 <= i < |d| ==> ks[i] == d[i].0
  {
    if |d| == 0 then [] else [d[0].0] + Keys(d[1..])
  }

  /** Keys are unique, as in every Python dict. */
  predicate Valid<V>(d: Dict<V>)
  {
    forall i, j :: 0 <= i < j < |d| ==> d[i].0 != d[j].0
  }

  predicate Has<V>(d: Dict<V>, k: string)
  {
    exists i :: 0 <= i < |d| && d[i].0 == k
  }

  /** Position of key `k` in `d`. */
  function IndexOf<V>(d: Dict<V>, k: string): (i: nat)
    requires Has(d, k)
    ensures i < |d| && d[i].0 == k
    ensures forall j :: 0 <= j < i ==> d[j].0 != k
  {
    if d[0].0 == k then 0
    else
      assert Has(d[1..], k) by {
        var j :| 0 <= j < |d| && d[j].0 == k;
        assert d[1..][j - 1].0 == k;
      }
      1 + IndexOf(d[1..], k)
  }

  /** `d[k]`. */
  function Get<V>(d: Dict<V>, k: string): V
    requires Has(d, k)
  {
    d[IndexOf(d, k)].1
  }

  /** `d.get(k)`. */
  function Lookup<V>(d: Dict<V>, k: string): (r: Option<V>)
    ensures r.Some? <==> Has(d, k)
  {
    if Has(d, k) then Some(Get(d, k)) else None
  }

  /** `d[k] = v`: an existing key keeps its position, a new key goes last. */
  function Put<V>(d: Dict<V>, k: string, v: V): (r: Dict<V>)
  {
    if Has(d, k) then d[IndexOf(d, k) := (k, v)] else d + [(k, v)]
  }

  /** `a | b`: keys of `a` in order, then the new keys of `b`; `b` wins on a clash. */
  function Merge<V>(a: Dict<V>, b: Dict<V>): Dict<V>
    decreases |b|
  {
    if |b| == 0 then a else Merge(Put(a, b[0].0, b[0].1), b[1..])
  }

  lemma PutValid<V>(d: Dict<V>, k: string, v: V)
    requires Valid(d)
    ensures Valid(Put(d, k, v))
  {
  }

  /** Writing adds the written key and keeps every other key. */
  lemma PutHas<V>(d: Dict<V>, k: string, v: V, k': string)
    ensures Has(Put(d, k, v), k') <==> Has(d, k') || k' == k
  {
    var r := Put(d, k, v);
    if Has(d, k) {
      assert forall j :: 0 <= j < |d| ==> r[j].0 == d[j].0;
    } else {
      assert r[|d|].0 == k;
      assert forall j :: 0 <= j < |d| ==> r[j] == d[j];
    }
  }

  /** Reading after writing: the written key has the new value, others are untouched. */
  lemma PutGet<V>(d: Dict<V>, k: string, v: V, k': string)
    requires Valid(d)
    ensures Has(Put(d, k, v), k') <==> Has(d, k') || k' == k
    ensures k' == k ==> Get(Put(d, k, v), k') == v
    ensures k' != k && Has(d, k') ==> Get(Put(d, k, v), k') == Get(d, k')
  {
    var r := Put(d, k, v);
    if Has(d, k) {
      var i := IndexOf(d, k);
      assert forall j :: 0 <= j < |d| ==> r[j].0 == d[j].0;
    } else {
      assert forall j :: 0 <= j < |d| ==> r[j] == d[j];
      assert r[|d|] == (k, v);
    }
    if Has(r, k') {
      var i := IndexOf(r, k');
      if Has(d, k') {
        var i0 := IndexOf(d, k');
        assert i == i0;
      }
    }
  }

  /** Reading a dict with one more entry at the end. */
  lemma SnocGet<V>(d: Dict<V>, k: string, v: V, k': string)
    requires Valid(d + [(k, v)])
    ensures Has(d + [(k, v)], k') <==> Has(d, k') || k' == k
    ensures k' == k ==> Get(d + [(k, v)], k') == v
    ensures k' != k && Has(d, k') ==> Get(d + [(k, v)], k') == Get(d, k')
  {
    var e := d + [(k, v)];
    if k' == k {
      assert e[|d|].0 == k;
      assert IndexOf(e, k') == |d|;
    } else {
      if Has(e, k') {
        assert d[IndexOf(e, k')].0 == k';
      }
      if Has(d, k') {
        assert e[IndexOf(d, k')].0 == k';
        assert IndexOf(e, k') == IndexOf(d, k');
      }
    }
  }

  /** Writing an existing key keeps the order of the keys. */
  lemma PutKeepsKeys<V>(d: Dict<V>, k: string, v: V)
    requires Has(d, k)
    ensures Keys(Put(d, k, v)) == Keys(d)
  {
  }

  lemma {:induction false} MergeValid<V>(a: Dict<V>, b: Dict<V>)
    requires Valid(a)
    ensures Valid(Merge(a, b))
    decreases |b|
  {
    if |b| > 0 {
      PutValid(a, b[0].0, b[0].1);
      MergeValid(Put(a, b[0].0, b[0].1), b[1..]);
    }
  }

  /** The keys of a union are the keys of either side. */
  lemma {:induction false} MergeHas<V>(a: Dict<V>, b: Dict<V>, k: string)
    ensures Has(Merge(a, b), k) <==> Has(a, k) || Has(b, k)
    decreases |b|
  {
    if |b| > 0 {
      PutHas(a, b[0].0, b[0].1, k);
      MergeHas(Put(a, b[0].0, b[0].1), b[1..], k);
      HasTail(b, k);
    }
  }

  /** A key is in a non-empty dict when it is the first key or a later one. */
  lemma HasTail<V>(b: Dict<V>, k: string)
    requires |b| > 0
    ensures Has(b, k) <==> b[0].0 == k || Has(b[1..], k)
  {
    if Has(b[1..], k) {
      var i :| 0 <= i < |b[1..]| && b[1..][i].0 == k;
      assert b[i + 1].0 == k;
    }
    if Has(b, k) && b[0].0 != k {
      var i :| 0 <= i < |b| && b[i].0 == k;
      assert b[1..][i - 1].0 == k;
    }
  }

  /** In a valid dict the first key is not repeated later, and a later key
      is read from the rest. */
  lemma GetTail<V>(b: Dict<V>, k: string)
    requires Valid(b) && |b| > 0 && Has(b, k)
    ensures b[0].0 == k ==> !Has(b[1..], k)
    ensures b[0].0 != k ==> Has(b[1..], k) && Get(b, k) == Get(b[1..], k)
  {
    if b[0].0 == k {
      forall i | 0 <= i < |b[1..]|
        ensures b[1..][i].0 != k
      {
        assert b[1..][i] == b[i + 1];
      }
    } else {
      HasTail(b, k);
      var i := IndexOf(b, k);
      assert i >= 1;
      assert IndexOf(b[1..], k) == i - 1;
    }
  }

  /** The dict union law: a key of `b` takes `b`'s value, any other key keeps `a`'s. */
  lemma {:induction false} MergeGet<V>(a: Dict<V>, b: Dict<V>, k: string)
    requires Valid(a) && Valid(b)
    ensures Has(Merge(a, b), k) <==> Has(a, k) || Has(b, k)
    ensures Has(b, k) ==> Get(Merge(a, b), k) == Get(b, k)
    ensures !Has(b, k) && Has(a, k) ==> Get(Merge(a, b), k) == Get(a, k)
    decreases |b|
  {
    if |b| > 0 {
      var a' := Put(a, b[0].0, b[0].1);
      PutValid(a, b[0].0, b[0].1);
      PutGet(a, b[0].0, b[0].1, k);
      assert Valid(b[1..]);
      MergeGet(a', b[1..], k);
      HasTail(b, k);
      if Has(b, k) {
        GetTail(b, k);
      }
    }
  }

  /** `{k: f(k) for k in ks}`: a repeated key keeps its first position. */
  function Comprehension<V>(ks: seq<string>, f: string -> V): Dict<V>
  {
    if |ks| == 0 then [] else Put(Comprehension(ks[..|ks| - 1], f), ks[|ks| - 1], f(ks[|ks| - 1]))
  }

  /** The comprehension holds exactly the listed keys, each with its value,
      and the first listed key comes first. */
  lemma {:induction false} ComprehensionSpec<V>(ks: seq<string>, f: string -> V)
    ensures Valid(Comprehension(ks, f))
    ensures forall k :: Has(Comprehension(ks, f), k) <==> k in ks
    ensures forall k :: k in ks ==> Get(Comprehension(ks, f), k) == f(k)
    ensures |ks| > 0 ==> |Comprehension(ks, f)| > 0 && Comprehension(ks, f)[0].0 == ks[0]
    decreases |ks|
  {
    if |ks| > 0 {
      var n := |ks| - 1;
      var init := Comprehension(ks[..n], f);
      ComprehensionSpec(ks[..n], f);
      PutValid(init, ks[n], f(ks[n]));
      forall k ensures Has(Comprehension(ks, f), k) <==> k in ks {
        PutHas(init, ks[n], f(ks[n]), k);
        assert k in ks <==> k in ks[..n] || k == ks[n] by {
          assert ks == ks[..n] + [ks[n]];
        }
      }
      forall k | k in ks ensures Get(Comprehension(ks, f), k) == f(k) {
        PutGet(init, ks[n], f(ks[n]), k);
        if k != ks[n] {
          assert ks == ks[..n] + [ks[n]];
          assert k in ks[..n];
        }
      }
      if n > 0 {
        assert ks[..n][0] == ks[0];
        assert Has(init, ks[n]) ==> Put(init, ks[n], f(ks[n]))[0].0 == init[0].0;
      }
    }
  }
}
