// Index algebra of the dataset configurator: numpy arrays as a shape plus a
// flat row-major (C-order) data sequence, `reshape`, full `transpose`, the
// axis moves of `tunneling_qubits` and the index permutation of
// `reshufle_loop_dataset`.
module Layout {

  import opened Common

  // ---------------------------------------------------------------------
  // Shapes and mixed-radix indices.

  function Product(s: seq<nat>): nat
  {
    if |s| == 0 then 1 else s[0] * Product(s[1..])
  }

  function Reverse<T>(s: seq<T>): (r: seq<T>)
    ensures |r| == |s|
    ensures forall i :: 0 <= i < |s| ==> r[i] == s[|s| - 1 - i]
  {
    if |s| == 0 then [] else Reverse(s[1..]) + [s[0]]
  }

  lemma ReverseReverse<T>(s: seq<T>)
    ensures Reverse(Reverse(s)) == s
  {
  }

  lemma ReverseSnoc<T>(s: seq<T>, x: T)
    ensures Reverse(s + [x]) == [x] + Reverse(s)
  {
  }

  lemma {:induction false} ProductSnoc(s: seq<nat>, x: nat)
    ensures Product(s + [x]) == Product(s) * x
  {
    if |s| > 0 {
      assert (s + [x])[1..] == s[1..] + [x];
      ProductSnoc(s[1..], x);
      calc {
        Product(s + [x]);
        s[0] * (Product(s[1..]) * x);
        (s[0] * Product(s[1..])) * x;
      }
    }
  }

  lemma {:induction false} ProductReverse(s: seq<nat>)
    ensures Product(Reverse(s)) == Product(s)
  {
    if |s| > 0 {
      ProductReverse(s[1..]);
      ProductSnoc(Reverse(s[1..]), s[0]);
    }
  }

  /** `idx` addresses an element of an array of shape `shape`. */
  predicate InBounds(shape: seq<nat>, idx: seq<nat>)
  {
    |idx| == |shape| && forall k :: 0 <= k < |shape| ==> idx[k] < shape[k]
  }

  lemma ReverseInBounds(shape: seq<nat>, idx: seq<nat>)
    requires InBounds(shape, idx)
    ensures InBounds(Reverse(shape), Reverse(idx))
  {
  }

  // Nonlinear arithmetic facts, each proved from the previous ones.

  lemma MulDistrib(a: int, b: int, c: int)
    ensures a * (b + c) == a * b + a * c
  {
  }

  lemma MulAssoc(a: int, b: int, c: int)
    ensures a * (b * c) == (a * b) * c
  {
  }

  lemma MulMonotone(a: nat, b: nat, m: nat)
    requires a <= b
    ensures a * m <= b * m
  {
    MulDistrib(m, a, b - a);
  }

  lemma MulCancelLt(a: nat, b: nat, m: nat)
    requires a * m < b * m
    ensures a < b
  {
    if b <= a {
      MulMonotone(b, a, m);
    }
  }

  lemma MulStep(a: nat, b: nat, m: nat, c: nat)
    requires a < b && c < m
    ensures a * m + c < b * m
  {
    MulDistrib(m, a, 1);
    MulMonotone(a + 1, b, m);
  }

  lemma DivModUnique(x: nat, m: nat, q: nat, r: nat)
    requires r < m && x == q * m + r
    ensures x / m == q && x % m == r
  {
    var q', r' := x / m, x % m;
    assert x == q' * m + r';
    MulDistrib(m, q, 1);
    MulDistrib(m, q', 1);
    assert q' * m < (q + 1) * m;
    MulCancelLt(q', q + 1, m);
    assert q * m < (q' + 1) * m;
    MulCancelLt(q, q' + 1, m);
  }

  lemma DivBelow(p: nat, b: nat, m: nat)
    requires p < b * m
    ensures m > 0 && 0 <= p / m < b && 0 <= p % m < m
  {
    assert b * m > 0;
    assert (p / m) * m <= p;
    MulCancelLt(p / m, b, m);
  }

  /** Row-major offset: the LAST axis varies fastest (numpy's default order). */
  function CIndex(shape: seq<nat>, idx: seq<nat>): (p: nat)
    requires InBounds(shape, idx)
    ensures p < Product(shape)
  {
    if |shape| == 0 then 0
    else
      var rest := CIndex(shape[1..], idx[1..]);
      MulStep(idx[0], shape[0], Product(shape[1..]), rest);
      idx[0] * Product(shape[1..]) + rest
  }

  /** Column-major offset: the FIRST axis varies fastest. */
  function FIndex(dims: seq<nat>, idx: seq<nat>): (p: nat)
    requires InBounds(dims, idx)
    ensures p < Product(dims)
  {
    if |dims| == 0 then 0
    else
      var rest := FIndex(dims[1..], idx[1..]);
      MulStep(rest, Product(dims[1..]), dims[0], idx[0]);
      idx[0] + dims[0] * rest
  }

  lemma {:induction false} FIndexSnoc(dims: seq<nat>, idx: seq<nat>, x: nat, j: nat)
    requires InBounds(dims, idx) && j < x
    ensures InBounds(dims + [x], idx + [j])
    ensures FIndex(dims + [x], idx + [j]) == FIndex(dims, idx) + Product(dims) * j
  {
    if |dims| > 0 {
      assert (dims + [x])[1..] == dims[1..] + [x];
      assert (idx + [j])[1..] == idx[1..] + [j];
      FIndexSnoc(dims[1..], idx[1..], x, j);
      var f, m := FIndex(dims[1..], idx[1..]), Product(dims[1..]);
      MulDistrib(dims[0], f, m * j);
      MulAssoc(dims[0], m, j);
    }
  }

  /** Row-major order over the reversed shape is column-major order over the
      shape itself: reversing the axes makes the first axis the fastest. */
  lemma {:induction false} CIndexReverse(dims: seq<nat>, idx: seq<nat>)
    requires InBounds(dims, idx)
    ensures InBounds(Reverse(dims), Reverse(idx))
    ensures CIndex(Reverse(dims), Reverse(idx)) == FIndex(dims, idx)
    decreases |dims|
  {
    ReverseInBounds(dims, idx);
    if |dims| > 0 {
      var n := |dims| - 1;
      var d, x := dims[..n], dims[n];
      var i, j := idx[..n], idx[n];
      assert dims == d + [x];
      assert idx == i + [j];
      CIndexReverse(d, i);
      ProductReverse(d);
      FIndexSnoc(d, i, x, j);
      CIndexCons(Reverse(d), Reverse(i), x, j);
      ReverseSnoc(d, x);
      ReverseSnoc(i, j);
    }
  }

  /** The row-major offset of a leading index `j` on a leading axis of size `x`. */
  lemma CIndexCons(shape: seq<nat>, idx: seq<nat>, x: nat, j: nat)
    requires InBounds(shape, idx) && j < x
    ensures InBounds([x] + shape, [j] + idx)
    ensures CIndex([x] + shape, [j] + idx) == j * Product(shape) + CIndex(shape, idx)
  {
    assert ([x] + shape)[1..] == shape;
    assert ([j] + idx)[1..] == idx;
  }


  /** The row-major index of offset `p`: the inverse of `CIndex`. */
  function CUnflatten(shape: seq<nat>, p: nat): (idx: seq<nat>)
    requires p < Product(shape)
    ensures InBounds(shape, idx) && CIndex(shape, idx) == p
  {
    if |shape| == 0 then []
    else
      var m := Product(shape[1..]);
      DivBelow(p, shape[0], m);
      var rest := CUnflatten(shape[1..], p % m);
      UnflattenCons(shape, p, rest);
      [p / m] + rest
  }

  /** One step of `CUnflatten`: the leading index is the quotient by the
      size of the trailing axes, the rest indexes the remainder. */
  lemma UnflattenCons(shape: seq<nat>, p: nat, rest: seq<nat>)
    requires |shape| > 0 && p < Product(shape) && Product(shape[1..]) > 0
    requires p / Product(shape[1..]) < shape[0]
    requires InBounds(shape[1..], rest) && CIndex(shape[1..], rest) == p % Product(shape[1..])
    ensures InBounds(shape, [p / Product(shape[1..])] + rest)
    ensures CIndex(shape, [p / Product(shape[1..])] + rest) == p
  {
    var m := Product(shape[1..]);
    assert shape == [shape[0]] + shape[1..];
    CIndexCons(shape[1..], rest, shape[0], p / m);
    DivModParts(p, m);
  }

  lemma DivModParts(p: nat, m: nat)
    requires m > 0
    ensures p == (p / m) * m + p % m
  {
  }

  lemma {:induction false} UnflattenIndex(shape: seq<nat>, idx: seq<nat>)
    requires InBounds(shape, idx)
    ensures CUnflatten(shape, CIndex(shape, idx)) == idx
  {
    if |shape| > 0 {
      var m := Product(shape[1..]);
      var rest := CIndex(shape[1..], idx[1..]);
      DivModUnique(CIndex(shape, idx), m, idx[0], rest);
      UnflattenIndex(shape[1..], idx[1..]);
    }
  }

  /** Distinct in-bounds indices have distinct row-major offsets. */
  lemma CIndexInjective(shape: seq<nat>, a: seq<nat>, b: seq<nat>)
    requires InBounds(shape, a) && InBounds(shape, b) && CIndex(shape, a) == CIndex(shape, b)
    ensures a == b
  {
    UnflattenIndex(shape, a);
    UnflattenIndex(shape, b);
  }

  // ---------------------------------------------------------------------
  // Arrays.

  datatype NdArray<T> = NdArray(shape: seq<nat>, data: seq<T>)

  predicate WellFormed<T>(a: NdArray<T>)
  {
    |a.data| == Product(a.shape)
  }

  /** `a[idx]`. */
  function Get<T>(a: NdArray<T>, idx: seq<nat>): T
    requires WellFormed(a) && InBounds(a.shape, idx)
  {
    a.data[CIndex(a.shape, idx)]
  }

  /** `flat.reshape(*shape)`: a ValueError unless the sizes agree. */
  function Reshape<T>(flat: seq<T>, shape: seq<nat>): (r: Result<NdArray<T>>)
    ensures r.Ok? <==> |flat| == Product(shape)
    ensures r.Ok? ==> WellFormed(r.value) && r.value.shape == shape && r.value.data == flat
    ensures r.Err? ==> r.error.ValueError?
  {
    if |flat| == Product(shape) then Ok(NdArray(shape, flat))
    else Err(ValueError("cannot reshape array"))
  }

  /** `np.transpose(a)`: all axes reversed. */
  function Transpose<T>(a: NdArray<T>): (r: NdArray<T>)
    requires WellFormed(a)
    ensures WellFormed(r) && r.shape == Reverse(a.shape)
  {
    var shape' := Reverse(a.shape);
    ProductReverse(a.shape);
    NdArray(shape', seq(|a.data|, p requires 0 <= p < |a.data| =>
      var idx := CUnflatten(shape', p);
      ReverseInBounds(shape', idx);
      ReverseReverse(a.shape);
      a.data[CIndex(a.shape, Reverse(idx))]))
  }

  /** The element at `idx` of the transpose is the element at the reversed index. */
  lemma TransposeGet<T>(a: NdArray<T>, idx: seq<nat>)
    requires WellFormed(a) && InBounds(Reverse(a.shape), idx)
    ensures InBounds(a.shape, Reverse(idx))
    ensures Get(Transpose(a), idx) == Get(a, Reverse(idx))
  {
    ReverseInBounds(Reverse(a.shape), idx);
    ReverseReverse(a.shape);
    UnflattenIndex(Reverse(a.shape), idx);
  }

  /** The configurator's layout law: reshaping a flat acquisition by the
      reversed dimensions and transposing yields an array of shape `dims`
      whose element (i0, i1, ..., ik) is the flat element at
      i0 + d0 * (i1 + d1 * (...)): the first dimension varies fastest. */
  lemma ReshapeTransposeLaw<T>(flat: seq<T>, dims: seq<nat>, idx: seq<nat>)
    requires |flat| == Product(dims) && InBounds(dims, idx)
    ensures Reshape(flat, Reverse(dims)).Ok?
    ensures Transpose(Reshape(flat, Reverse(dims)).value).shape == dims
    ensures Get(Transpose(Reshape(flat, Reverse(dims)).value), idx) == flat[FIndex(dims, idx)]
  {
    ProductReverse(dims);
    var a := Reshape(flat, Reverse(dims)).value;
    ReverseReverse(dims);
    TransposeGet(a, idx);
    CIndexReverse(dims, idx);
  }

  /** A flat sequence whose length is not the product of the dimensions cannot be laid out. */
  lemma ReshapeMismatch<T>(flat: seq<T>, dims: seq<nat>)
    requires |flat| != Product(dims)
    ensures Reshape(flat, Reverse(dims)) == Err(ValueError("cannot reshape array"))
  {
    ProductReverse(dims);
  }

  // ---------------------------------------------------------------------
  // `tunneling_qubits`.

  /** `a[q]` for the leading axis: the q-th row-major block. */
  function Block<T>(a: NdArray<T>, q: nat): (r: NdArray<T>)
    requires WellFormed(a) && |a.shape| >= 1 && q < a.shape[0]
    ensures WellFormed(r) && r.shape == a.shape[1..]
  {
    var m := Product(a.shape[1..]);
    MulMonotone(q, q + 1, m);
    MulMonotone(q + 1, a.shape[0], m);
    NdArray(a.shape[1..], a.data[q * m..(q + 1) * m])
  }

  lemma BlockGet<T>(a: NdArray<T>, q: nat, idx: seq<nat>)
    requires WellFormed(a) && |a.shape| >= 1 && q < a.shape[0] && InBounds(a.shape[1..], idx)
    ensures InBounds(a.shape, [q] + idx)
    ensures Get(Block(a, q), idx) == Get(a, [q] + idx)
  {
    var full := [q] + idx;
    assert full[0] == q && full[1..] == idx;
    var m, c := Product(a.shape[1..]), CIndex(a.shape[1..], idx);
    assert CIndex(a.shape, full) == q * m + c;
    MulStep(q, q + 1, m, c);
    MulMonotone(q + 1, a.shape[0], m);
    assert Block(a, q).data == a.data[q * m..(q + 1) * m];
  }

  /** Concatenation of `n` arrays of one shape along a new leading axis. */
  function Stack<T>(blocks: seq<NdArray<T>>, shape: seq<nat>): (r: seq<T>)
    requires forall b :: 0 <= b < |blocks| ==> WellFormed(blocks[b]) && blocks[b].shape == shape
    ensures |r| == |blocks| * Product(shape)
  {
    if |blocks| == 0 then []
    else
      var n, m := |blocks|, Product(shape);
      var front := Stack(blocks[..n - 1], shape);
      assert |front| == (n - 1) * m;
      assert WellFormed(blocks[n - 1]) && blocks[n - 1].shape == shape;
      var r := front + blocks[n - 1].data;
      MulDistrib(m, n - 1, 1);
      r
  }

  lemma {:induction false} StackAt<T>(blocks: seq<NdArray<T>>, shape: seq<nat>, q: nat, p: nat)
    requires forall b :: 0 <= b < |blocks| ==> WellFormed(blocks[b]) && blocks[b].shape == shape
    requires q < |blocks| && p < Product(shape)
    ensures q * Product(shape) + p < |Stack(blocks, shape)|
    ensures Stack(blocks, shape)[q * Product(shape) + p] == blocks[q].data[p]
    decreases |blocks|
  {
    var n := |blocks| - 1;
    MulStep(q, |blocks|, Product(shape), p);
    if q < n {
      StackAt(blocks[..n], shape, q, p);
    } else {
      assert q * Product(shape) == |Stack(blocks[..n], shape)|;
    }
  }

  /** `tunneling_qubits`: a leading axis of size one is dropped and the
      remaining axes are reversed; otherwise the leading (qubit) axis stays
      and the other axes are reversed. A zero-dimensional array has no
      `shape[0]` (IndexError). */
  function Tunneling<T>(a: NdArray<T>): (r: Result<NdArray<T>>)
    requires WellFormed(a)
    ensures r.Err? <==> |a.shape| == 0
    ensures r.Err? ==> r.error == IndexError
    ensures r.Ok? ==> WellFormed(r.value)
    ensures r.Ok? && a.shape[0] == 1 ==> r.value.shape == Reverse(a.shape[1..])
    ensures r.Ok? && a.shape[0] != 1 ==> r.value.shape == [a.shape[0]] + Reverse(a.shape[1..])
  {
    if |a.shape| == 0 then Err(IndexError)
    else if a.shape[0] == 1 then Ok(Transpose(Block(a, 0)))
    else
      var rest := Reverse(a.shape[1..]);
      var blocks := seq(a.shape[0], q requires 0 <= q < a.shape[0] => Transpose(Block(a, q)));
      ProductReverse(a.shape[1..]);
      var r := NdArray([a.shape[0]] + rest, Stack(blocks, rest));
      assert r.shape[1..] == rest;
      Ok(r)
  }

  /** Single-qubit demodulation: element `idx` is the input's (0, reversed idx). */
  lemma TunnelingSingle<T>(a: NdArray<T>, idx: seq<nat>)
    requires WellFormed(a) && |a.shape| >= 1 && a.shape[0] == 1
    requires InBounds(Reverse(a.shape[1..]), idx)
    ensures Tunneling(a).Ok? && InBounds(a.shape, [0] + Reverse(idx))
    ensures Get(Tunneling(a).value, idx) == Get(a, [0] + Reverse(idx))
  {
    TransposeGet(Block(a, 0), idx);
    BlockGet(a, 0, Reverse(idx));
  }

  /** Multi-qubit demodulation keeps each qubit's block contiguous: block q
      of the result is the transposed block q of the input. */
  lemma TunnelingMultiData<T>(a: NdArray<T>, q: nat, p: nat)
    requires WellFormed(a) && |a.shape| >= 1 && a.shape[0] != 1 && q < a.shape[0]
    requires p < Product(Reverse(a.shape[1..]))
    ensures Tunneling(a).Ok?
    ensures q * Product(Reverse(a.shape[1..])) + p < |Tunneling(a).value.data|
    ensures Tunneling(a).value.data[q * Product(Reverse(a.shape[1..])) + p] == Transpose(Block(a, q)).data[p]
  {
    var rest := Reverse(a.shape[1..]);
    var blocks := seq(a.shape[0], q requires 0 <= q < a.shape[0] => Transpose(Block(a, q)));
    StackAt(blocks, rest, q, p);
  }

  /** Element (q, idx) of the multi-qubit result is element idx of the
      transposed block q. */
  lemma TunnelingMultiBlock<T>(a: NdArray<T>, q: nat, idx: seq<nat>)
    requires WellFormed(a) && |a.shape| >= 1 && a.shape[0] != 1 && q < a.shape[0]
    requires InBounds(Reverse(a.shape[1..]), idx)
    ensures Tunneling(a).Ok? && InBounds(Tunneling(a).value.shape, [q] + idx)
    ensures WellFormed(Transpose(Block(a, q))) && InBounds(Transpose(Block(a, q)).shape, idx)
    ensures Get(Tunneling(a).value, [q] + idx) == Get(Transpose(Block(a, q)), idx)
  {
    var r := Tunneling(a).value;
    var rest := Reverse(a.shape[1..]);
    var c := CIndex(rest, idx);
    assert r.shape == [a.shape[0]] + rest;
    CIndexCons(rest, idx, a.shape[0], q);
    TunnelingMultiData(a, q, c);
    GetAt(r, [q] + idx);
    GetAt(Transpose(Block(a, q)), idx);
  }

  /** Multi-qubit demodulation: element (q, idx) is the input's (q, reversed idx). */
  lemma TunnelingMulti<T>(a: NdArray<T>, q: nat, idx: seq<nat>)
    requires WellFormed(a) && |a.shape| >= 1 && a.shape[0] != 1 && q < a.shape[0]
    requires InBounds(Reverse(a.shape[1..]), idx)
    ensures Tunneling(a).Ok? && InBounds(Tunneling(a).value.shape, [q] + idx)
    ensures InBounds(a.shape, [q] + Reverse(idx))
    ensures Get(Tunneling(a).value, [q] + idx) == Get(a, [q] + Reverse(idx))
  {
    TunnelingMultiBlock(a, q, idx);
    TransposeGet(Block(a, q), idx);
    BlockGet(a, q, Reverse(idx));
  }

  /** `a[idx]` reads the row-major offset of `idx`. */
  lemma GetAt<T>(a: NdArray<T>, idx: seq<nat>)
    requires WellFormed(a) && InBounds(a.shape, idx)
    ensures CIndex(a.shape, idx) < |a.data| && Get(a, idx) == a.data[CIndex(a.shape, idx)]
  {
  }
}
