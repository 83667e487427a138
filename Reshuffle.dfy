// `reshufle_loop_dataset`: the readout-amplitude optimisation nodes measure
// `loops` repetitions of (amplitude x state) blocks; the acquisition comes
// back loop-major and is rewritten amplitude-major. The same function is
// defined in tergite_acl/lib/nodes/graph.py and tergite_acl/utils/dataset_utils.py.
module Reshuffle {

  import opened Common
  import opened Layout

  /** `len(np.unique(states))`. */
  function DistinctCount(states: seq<Sample>): nat
  {
    |set s | s in states|
  }

  lemma PositiveFactors(a: nat, b: nat)
    requires a * b > 0
    ensures a > 0 && b > 0
  {
  }

  lemma PositiveProduct(a: nat, b: nat)
    requires a > 0 && b > 0
    ensures a * b > 0
  {
  }

  /** The target position of measurement `i`: with S states and A amplitudes,
      `i` = loop·(A·S) + amplitude·S + state is sent to
      amplitude·(loops·S) + loop·S + state. */
  function NewIndex(i: nat, ampls: nat, nStates: nat, loops: nat): nat
    requires ampls * nStates > 0
  {
    PositiveFactors(ampls, nStates);
    var perLoop := ampls * nStates;
    var amplitudeGroup: nat := (i % perLoop) / nStates;
    var loopNumber: nat := i / perLoop;
    var groupStart: nat := amplitudeGroup * loops * nStates;
    var loopStart: nat := loopNumber * nStates;
    groupStart + loopStart + i % nStates
  }

  /** Every measurement of an `n`-element acquisition has its target inside the array. */
  predicate TargetsInRange(n: nat, ampls: nat, nStates: nat, loops: nat)
    requires ampls * nStates > 0
  {
    forall i :: 0 <= i < n ==> NewIndex(i, ampls, nStates, loops) < n
  }

  /** The last of the first `k` measurements written to position `j`, if any:
      a later write to the same position overwrites an earlier one. */
  function LastWriter(k: nat, j: nat, ampls: nat, nStates: nat, loops: nat): (w: Option<nat>)
    requires ampls * nStates > 0
    ensures w.Some? ==> w.value < k && NewIndex(w.value, ampls, nStates, loops) == j
    ensures w.Some? ==> forall i :: w.value < i < k ==> NewIndex(i, ampls, nStates, loops) != j
    ensures w.None? ==> forall i :: 0 <= i < k ==> NewIndex(i, ampls, nStates, loops) != j
  {
    if k == 0 then None
    else if NewIndex(k - 1, ampls, nStates, loops) == j then Some(k - 1)
    else LastWriter(k - 1, j, ampls, nStates, loops)
  }

  /** Content of position `j` after the first `k` writes into a buffer whose
      untouched cells hold `blank` (the unspecified contents of `np.empty_like`). */
  function CellAfter<T>(initial: seq<T>, k: nat, j: nat, ampls: nat, nStates: nat, loops: nat, blank: T): T
    requires ampls * nStates > 0 && k <= |initial|
  {
    match LastWriter(k, j, ampls, nStates, loops)
    case None => blank
    case Some(i) => initial[i]
  }

  /** `reshufle_loop_dataset(initial, ampls, states, loops)` on the flattened
      acquisition, stated declaratively: a zero block size fails on the first
      `%`; a target outside the buffer fails on the write; otherwise every cell
      holds the last measurement sent to it, or `blank` when none was. The
      result is always flat: the final `reshape` is computed and discarded. */
  function Reshuffled<T>(initial: seq<T>, ampls: nat, nStates: nat, loops: nat, blank: T): (r: Result<seq<T>>)
    ensures r.Ok? ==> |r.value| == |initial|
  {
    if |initial| == 0 then Ok([])
    else if ampls * nStates == 0 then Err(ZeroDivisionError)
    else if !TargetsInRange(|initial|, ampls, nStates, loops) then Err(IndexError)
    else Ok(seq(|initial|, j requires 0 <= j < |initial| => CellAfter(initial, |initial|, j, ampls, nStates, loops, blank)))
  }

  method ReshuffleLoop<T>(initial: seq<T>, ampls: seq<Sample>, states: seq<Sample>, loops: nat, blank: T)
    returns (r: Result<seq<T>>)
    ensures r == Reshuffled(initial, |ampls|, DistinctCount(states), loops, blank)
  {
    var n := |initial|;
    var nStates := DistinctCount(states);
    var perLoop := |ampls| * nStates;
    if n == 0 {
      return Ok([]);
    }
    if perLoop == 0 {
      return Err(ZeroDivisionError);
    }
    PositiveFactors(|ampls|, nStates);
    var buffer := new T[n](_ => blank);
    var i := 0;
    while i < n
      invariant 0 <= i <= n
      invariant forall i' :: 0 <= i' < i ==> NewIndex(i', |ampls|, nStates, loops) < n
      invariant forall j :: 0 <= j < n ==> buffer[j] == CellAfter(initial, i, j, |ampls|, nStates, loops, blank)
    {
      var amplitudeGroup := (i % perLoop) / nStates;
      var newIndexGroup := amplitudeGroup * loops * nStates;
      var loopNumber := i / perLoop;
      var newIndex := newIndexGroup + loopNumber * nStates + i % nStates;
      assert newIndex == NewIndex(i, |ampls|, nStates, loops);
      if newIndex >= n {
        return Err(IndexError);
      }
      buffer[newIndex] := initial[i];
      i := i + 1;
    }
    assert TargetsInRange(n, |ampls|, nStates, loops);
    assert buffer[..] == seq(n, j requires 0 <= j < n => CellAfter(initial, n, j, |ampls|, nStates, loops, blank));
    return Ok(buffer[..]);
  }

  // ---------------------------------------------------------------------
  // When the acquisition holds exactly `loops` blocks of A·S measurements,
  // the rewrite is a permutation with an explicit inverse.

  /** Mixed-radix digits are recovered by division and remainder. */
  lemma Digits3(x: nat, b: nat, c: nat, d0: nat, d1: nat, d2: nat)
    requires d1 < b && d2 < c && x == d0 * (b * c) + d1 * c + d2
    ensures x / (b * c) == d0 && (x % (b * c)) / c == d1 && x % c == d2
  {
    MulStep(d1, b, c, d2);
    DivModUnique(x, b * c, d0, d1 * c + d2);
    DivModUnique(d1 * c + d2, c, d1, d2);
    MulAssoc(d0, b, c);
    MulDistrib(c, d0 * b, d1);
    DivModUnique(x, c, d0 * b + d1, d2);
  }

  /** Every position below A·S·loops has digits (loop, amplitude, state). */
  lemma Decompose(i: nat, ampls: nat, nStates: nat, loops: nat)
    requires ampls * nStates > 0 && i < ampls * nStates * loops
    ensures var perLoop := ampls * nStates;
      i / perLoop < loops && (i % perLoop) / nStates < ampls && (i % perLoop) % nStates < nStates &&
      i == (i / perLoop) * perLoop + ((i % perLoop) / nStates) * nStates + (i % perLoop) % nStates
  {
    var perLoop := ampls * nStates;
    assert i < loops * perLoop;
    DivBelow(i, loops, perLoop);
    DivBelow(i % perLoop, ampls, nStates);
  }

  /** The position a reshuffled cell was read from. */
  function SourceIndex(j: nat, ampls: nat, nStates: nat, loops: nat): nat
    requires loops * nStates > 0
  {
    PositiveFactors(loops, nStates);
    var perAmplitude := loops * nStates;
    var amplitudeGroup: nat := j / perAmplitude;
    var loopNumber: nat := (j % perAmplitude) / nStates;
    var loopStart: nat := loopNumber * (ampls * nStates);
    var groupStart: nat := amplitudeGroup * nStates;
    loopStart + groupStart + j % nStates
  }

  lemma NewIndexInRange(i: nat, ampls: nat, nStates: nat, loops: nat)
    requires ampls * nStates > 0 && i < ampls * nStates * loops
    ensures loops * nStates > 0
    ensures NewIndex(i, ampls, nStates, loops) < ampls * nStates * loops
    ensures SourceIndex(NewIndex(i, ampls, nStates, loops), ampls, nStates, loops) == i
  {
    var perLoop := ampls * nStates;
    Decompose(i, ampls, nStates, loops);
    var l, g, s := i / perLoop, (i % perLoop) / nStates, (i % perLoop) % nStates;
    Digits3(i, ampls, nStates, l, g, s);
    assert loops > 0;
    var j := NewIndex(i, ampls, nStates, loops);
    MulAssoc(g, loops, nStates);
    assert j == g * (loops * nStates) + l * nStates + s;
    MulStep(l, loops, nStates, s);
    MulStep(g, ampls, loops * nStates, l * nStates + s);
    MulAssoc(ampls, loops, nStates);
    MulAssoc(ampls, nStates, loops);
    Digits3(j, loops, nStates, g, l, s);
  }

  /** Every position below A·S·loops has digits (amplitude, loop, state),
      and `SourceIndex` reassembles them loop-major. */
  lemma SourceDigits(j: nat, ampls: nat, nStates: nat, loops: nat)
    requires ampls * nStates > 0 && j < ampls * nStates * loops
    ensures loops > 0 && nStates > 0 && loops * nStates > 0
    ensures j / (loops * nStates) < ampls
    ensures (j % (loops * nStates)) / nStates < loops
    ensures (j % (loops * nStates)) % nStates < nStates
    ensures j == (j / (loops * nStates)) * (loops * nStates) + ((j % (loops * nStates)) / nStates) * nStates + (j % (loops * nStates)) % nStates
    ensures SourceIndex(j, ampls, nStates, loops) ==
      ((j % (loops * nStates)) / nStates) * (ampls * nStates) + (j / (loops * nStates)) * nStates + j % nStates
  {
    PositiveFactors(ampls * nStates, loops);
    PositiveFactors(ampls, nStates);
    MulAssoc(ampls, nStates, loops);
    MulAssoc(loops, nStates, ampls);
    Decompose(j, loops, nStates, ampls);
  }

  lemma SourceIndexInRange(j: nat, ampls: nat, nStates: nat, loops: nat)
    requires ampls * nStates > 0 && j < ampls * nStates * loops
    ensures loops * nStates > 0
    ensures SourceIndex(j, ampls, nStates, loops) < ampls * nStates * loops
    ensures NewIndex(SourceIndex(j, ampls, nStates, loops), ampls, nStates, loops) == j
  {
    SourceDigits(j, ampls, nStates, loops);
    var perAmplitude := loops * nStates;
    var g, l, s := j / perAmplitude, (j % perAmplitude) / nStates, (j % perAmplitude) % nStates;
    Digits3(j, loops, nStates, g, l, s);
    var i := SourceIndex(j, ampls, nStates, loops);
    MulStep(g, ampls, nStates, s);
    MulStep(l, loops, ampls * nStates, g * nStates + s);
    Digits3(i, ampls, nStates, l, g, s);
    MulAssoc(g, loops, nStates);
  }

  /** With `loops` full blocks, every target lies inside the acquisition. */
  lemma FullBlocksInRange(n: nat, ampls: nat, nStates: nat, loops: nat)
    requires ampls * nStates > 0 && n == ampls * nStates * loops
    ensures TargetsInRange(n, ampls, nStates, loops)
  {
    forall i | 0 <= i < n
      ensures NewIndex(i, ampls, nStates, loops) < n
    {
      NewIndexInRange(i, ampls, nStates, loops);
    }
  }

  /** With `loops` full blocks, cell `j` of the result is measurement
      `SourceIndex(j)`, and measurement `i` lands in cell `NewIndex(i)`: no
      cell keeps the blank value and no measurement is lost. */
  lemma FullBlocksPermute<T>(initial: seq<T>, ampls: nat, nStates: nat, loops: nat, blank: T)
    requires ampls * nStates > 0 && |initial| == ampls * nStates * loops
    ensures forall j :: 0 <= j < |initial| ==>
      SourceIndex(j, ampls, nStates, loops) < |initial| &&
      CellAfter(initial, |initial|, j, ampls, nStates, loops, blank) == initial[SourceIndex(j, ampls, nStates, loops)]
    ensures forall i :: 0 <= i < |initial| ==>
      NewIndex(i, ampls, nStates, loops) < |initial| &&
      CellAfter(initial, |initial|, NewIndex(i, ampls, nStates, loops), ampls, nStates, loops, blank) == initial[i]
  {
    var n := |initial|;
    forall j | 0 <= j < n
      ensures SourceIndex(j, ampls, nStates, loops) < n
      ensures CellAfter(initial, n, j, ampls, nStates, loops, blank) == initial[SourceIndex(j, ampls, nStates, loops)]
    {
      SourceIndexInRange(j, ampls, nStates, loops);
      var src := SourceIndex(j, ampls, nStates, loops);
      var w := LastWriter(n, j, ampls, nStates, loops);
      assert w.Some?;
      NewIndexInRange(w.value, ampls, nStates, loops);
    }
    forall i | 0 <= i < n
      ensures NewIndex(i, ampls, nStates, loops) < n
      ensures CellAfter(initial, n, NewIndex(i, ampls, nStates, loops), ampls, nStates, loops, blank) == initial[i]
    {
      NewIndexInRange(i, ampls, nStates, loops);
      var j := NewIndex(i, ampls, nStates, loops);
      SourceIndexInRange(j, ampls, nStates, loops);
      var w := LastWriter(n, j, ampls, nStates, loops);
      assert w.Some?;
      NewIndexInRange(w.value, ampls, nStates, loops);
    }
  }

  /** With `loops` full blocks of A·S measurements, `reshufle_loop_dataset`
      succeeds and is the permutation `NewIndex` of [0, N), whose inverse is
      `SourceIndex`: measurement i lands in cell `NewIndex(i)`, and cell j holds
      measurement `SourceIndex(j)`. */
  lemma ReshufflePermutation<T>(initial: seq<T>, ampls: nat, nStates: nat, loops: nat, blank: T)
    requires ampls * nStates > 0 && |initial| == ampls * nStates * loops
    ensures |initial| > 0 ==> loops * nStates > 0
    ensures Reshuffled(initial, ampls, nStates, loops, blank).Ok?
    ensures var r := Reshuffled(initial, ampls, nStates, loops, blank).value;
      (forall i :: 0 <= i < |initial| ==>
        NewIndex(i, ampls, nStates, loops) < |r| && r[NewIndex(i, ampls, nStates, loops)] == initial[i]) &&
      (forall j :: 0 <= j < |r| ==>
        SourceIndex(j, ampls, nStates, loops) < |initial| && r[j] == initial[SourceIndex(j, ampls, nStates, loops)])
    ensures forall i :: 0 <= i < |initial| ==>
      SourceIndex(NewIndex(i, ampls, nStates, loops), ampls, nStates, loops) == i
  {
    if |initial| > 0 {
      PositiveFactors(ampls, nStates);
      PositiveFactors(ampls * nStates, loops);
      PositiveProduct(loops, nStates);
    }
    FullBlocksInRange(|initial|, ampls, nStates, loops);
    FullBlocksPermute(initial, ampls, nStates, loops, blank);
    forall i | 0 <= i < |initial|
      ensures SourceIndex(NewIndex(i, ampls, nStates, loops), ampls, nStates, loops) == i
    {
      NewIndexInRange(i, ampls, nStates, loops);
    }
  }

  /** Three amplitudes, two states, two loops: the measurements 0..11 are
      read back in the order [0, 1, 6, 7, 2, 3, 8, 9, 4, 5, 10, 11], so by
      `FullBlocksPermute` the acquisition [0, ..., 11] is rewritten to that list. */
  lemma ReshuffleExample()
    ensures seq(12, j requires 0 <= j < 12 => SourceIndex(j, 3, 2, 2)) == [0, 1, 6, 7, 2, 3, 8, 9, 4, 5, 10, 11]
  {
    assert 0 / 4 == 0 && 0 % 4 == 0 && 0 / 2 == 0 && 0 % 2 == 0;
    assert 1 / 4 == 0 && 1 % 4 == 1 && 1 / 2 == 0 && 1 % 2 == 1;
    assert 2 / 4 == 0 && 2 % 4 == 2 && 2 / 2 == 1 && 2 % 2 == 0;
    assert 3 / 4 == 0 && 3 % 4 == 3 && 3 / 2 == 1 && 3 % 2 == 1;
    assert 4 / 4 == 1 && 4 % 4 == 0 && 0 / 2 == 0 && 4 % 2 == 0;
    assert 5 / 4 == 1 && 5 % 4 == 1 && 1 / 2 == 0 && 5 % 2 == 1;
    assert 6 / 4 == 1 && 6 % 4 == 2 && 2 / 2 == 1 && 6 % 2 == 0;
    assert 7 / 4 == 1 && 7 % 4 == 3 && 3 / 2 == 1 && 7 % 2 == 1;
    assert 8 / 4 == 2 && 8 % 4 == 0 && 0 / 2 == 0 && 8 % 2 == 0;
    assert 9 / 4 == 2 && 9 % 4 == 1 && 1 / 2 == 0 && 9 % 2 == 1;
    assert 10 / 4 == 2 && 10 % 4 == 2 && 2 / 2 == 1 && 10 % 2 == 0;
    assert 11 / 4 == 2 && 11 % 4 == 3 && 3 / 2 == 1 && 11 % 2 == 1;
  }

  /** The acquisition [0, ..., 11] with three amplitudes, two states and two
      loops comes out as [0, 1, 6, 7, 2, 3, 8, 9, 4, 5, 10, 11]. */
  lemma ReshuffleExampleResult(initial: seq<int>, blank: int)
    requires initial == seq(12, i => i)
    ensures Reshuffled(initial, 3, 2, 2, blank) == Ok([0, 1, 6, 7, 2, 3, 8, 9, 4, 5, 10, 11])
  {
    ReshufflePermutation(initial, 3, 2, 2, blank);
    ReshuffleExample();
    var expected := [0, 1, 6, 7, 2, 3, 8, 9, 4, 5, 10, 11];
    var r := Reshuffled(initial, 3, 2, 2, blank).value;
    forall j | 0 <= j < 12
      ensures r[j] == expected[j]
    {
      assert seq(12, j requires 0 <= j < 12 => SourceIndex(j, 3, 2, 2))[j] == expected[j];
    }
    assert |r| == 12;
    assert r == expected;
  }
}
