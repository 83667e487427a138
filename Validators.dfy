// Batched samplespaces (tergite_autocalibration/lib/utils/validators.py).
// A settable of a mixed samplespace maps each element either to one sample
// array or to a list of sample arrays, its batches; a measurement runs one
// batch at a time. pydantic decides which of the two a settable's dict is:
// a dict with batches only is a `BatchedArray` (an empty dict included, as
// that union member is tried first), one with arrays only a `SimpleArray`,
// and anything else fails validation, with an error that is a ValueError.
module Validators {

  import opened Common
  import opened Dicts

  /** One element's sweep: a sample array, or a list of batches. */
  datatype Entry = Samples(samples: seq<Sample>) | Batches(batches: seq<seq<Sample>>)

  type EntryDict = Dict<Entry>

  /** settable -> element -> sweep. */
  type MixedSamplespace = Dict<EntryDict>

  datatype ArrayKind = Simple | Batched | Invalid

  /** `Array(qubit_dict)`. */
  function KindOf(d: EntryDict): ArrayKind
  {
    if forall i :: 0 <= i < |d| ==> d[i].1.Batches? then Batched
    else if forall i :: 0 <= i < |d| ==> d[i].1.Samples? then Simple
    else Invalid
  }

  const ValidationFailed := ValueError("validation error for Array")

  /** `samples[batch]`, with Python's negative indices. */
  function BatchAt(batches: seq<seq<Sample>>, batch: int): (r: Result<seq<Sample>>)
    ensures r.Ok? <==> -|batches| <= batch < |batches|
    ensures 0 <= batch < |batches| ==> r == Ok(batches[batch])
    ensures -|batches| <= batch < 0 ==> r == Ok(batches[|batches| + batch])
  {
    if 0 <= batch < |batches| then Ok(batches[batch])
    else if -|batches| <= batch < 0 then Ok(batches[|batches| + batch])
    else Err(IndexError)
  }

  /** What `reduce_batch` makes of one element's sweep. */
  function ReduceEntry(e: Entry, batch: int): Result<Entry>
  {
    match e
    case Samples(_) => Ok(e)
    case Batches(bs) =>
      match BatchAt(bs, batch)
      case Ok(s) => Ok(Samples(s))
      case Err(err) => Err(err)
  }

  /** A settable `reduce_batch` can reduce. */
  predicate Reducible(d: EntryDict, batch: int)
  {
    KindOf(d) != Invalid && forall e :: 0 <= e < |d| ==> ReduceEntry(d[e].1, batch).Ok?
  }

  /** The error `reduce_batch` raises on a settable it cannot reduce. */
  function ReduceError(d: EntryDict): Error
  {
    if KindOf(d) == Invalid then ValidationFailed else IndexError
  }

  /** The settable `d` reduced to batch `batch`, entry by entry. */
  predicate ReducedFrom(r: EntryDict, d: EntryDict, batch: int)
  {
    |r| == |d| &&
    forall e :: 0 <= e < |d| ==> r[e].0 == d[e].0 && ReduceEntry(d[e].1, batch) == Ok(r[e].1)
  }

  /** `reduce_batch(samplespace, batch)`: the samplespace of one batch. Every
      settable is kept, in order; a simple one unchanged, a batched one with
      each element's sweep replaced by that element's batch `batch`. */
  method ReduceBatch(ss: MixedSamplespace, batch: int) returns (r: Result<MixedSamplespace>)
    ensures r.Ok? <==> forall i :: 0 <= i < |ss| ==> Reducible(ss[i].1, batch)
    ensures r.Ok? ==> (|r.value| == |ss| &&
      forall i :: 0 <= i < |ss| ==> r.value[i].0 == ss[i].0 && ReducedFrom(r.value[i].1, ss[i].1, batch))
    ensures r.Ok? ==> Keys(r.value) == Keys(ss)
    ensures r.Err? ==> exists i :: (0 <= i < |ss| && !Reducible(ss[i].1, batch) &&
      (forall j :: 0 <= j < i ==> Reducible(ss[j].1, batch)) && r.error == ReduceError(ss[i].1))
  {
    var reduced: MixedSamplespace := [];
    var i := 0;
    while i < |ss|
      invariant 0 <= i <= |ss|
      invariant forall j :: 0 <= j < i ==> Reducible(ss[j].1, batch)
      invariant |reduced| == i
      invariant forall j :: 0 <= j < i ==> reduced[j].0 == ss[j].0 && ReducedFrom(reduced[j].1, ss[j].1, batch)
    {
      var (settable, d) := ss[i];
      var kind := KindOf(d);
      if kind == Invalid {
        return Err(ValidationFailed);
      }
      var out: EntryDict := [];
      if kind == Simple {
        out := d;
      } else {
        var e := 0;
        while e < |d|
          invariant 0 <= e <= |d| && |out| == e
          invariant forall m :: 0 <= m < e ==> out[m].0 == d[m].0 && ReduceEntry(d[m].1, batch) == Ok(out[m].1)
        {
          var s := BatchAt(d[e].1.batches, batch);
          if s.Err? {
            return Err(IndexError);
          }
          out := out + [(d[e].0, Samples(s.value))];
          e := e + 1;
        }
      }
      reduced := reduced + [(settable, out)];
      i := i + 1;
    }
    return Ok(reduced);
  }

  /** Every sweep of a reduced samplespace is a plain sample array, so a
      reduced samplespace is no longer batched (unless a settable is empty). */
  lemma ReducedIsSimple(d: EntryDict, r: EntryDict, batch: int)
    requires ReducedFrom(r, d, batch) && |d| > 0
    ensures KindOf(r) == Simple
  {
    assert r[0].1.Samples?;
  }

  /** `get_number_of_batches(samplespace)`: the number of batches of the last
      element of the last non-empty settable. Every settable must be batched
      (TypeError for a simple one), and a samplespace without any element
      leaves the result unbound. */
  method NumberOfBatches(ss: MixedSamplespace) returns (r: Result<nat>)
    ensures r.Ok? <==> ((forall i :: 0 <= i < |ss| ==> KindOf(ss[i].1) == Batched) &&
      exists i :: 0 <= i < |ss| && |ss[i].1| > 0)
    ensures r.Ok? ==> exists i :: (0 <= i < |ss| && |ss[i].1| > 0 &&
      r.value == |ss[i].1[|ss[i].1| - 1].1.batches| &&
      forall j :: i < j < |ss| ==> |ss[j].1| == 0)
    ensures forall i :: (0 <= i < |ss| && KindOf(ss[i].1) != Batched &&
      (forall j :: 0 <= j < i ==> KindOf(ss[j].1) == Batched)) ==>
      r == Err(if KindOf(ss[i].1) == Simple then TypeError else ValidationFailed)
    ensures (forall i :: 0 <= i < |ss| ==> KindOf(ss[i].1) == Batched && |ss[i].1| == 0) ==>
      r == Err(UnboundLocal("number_of_batches"))
  {
    var n: Option<nat> := None;
    var i := 0;
    while i < |ss|
      invariant 0 <= i <= |ss|
      invariant forall j :: 0 <= j < i ==> KindOf(ss[j].1) == Batched
      invariant n.None? <==> forall j :: 0 <= j < i ==> |ss[j].1| == 0
      invariant n.Some? ==> exists j :: (0 <= j < i && |ss[j].1| > 0 &&
        n.value == |ss[j].1[|ss[j].1| - 1].1.batches| && forall m :: j < m < i ==> |ss[m].1| == 0)
    {
      var d := ss[i].1;
      var kind := KindOf(d);
      if kind == Invalid {
        return Err(ValidationFailed);
      } else if kind == Simple {
        return Err(TypeError);
      }
      var e := 0;
      while e < |d|
        invariant 0 <= e <= |d|
        invariant e > 0 ==> n == Some(|d[e - 1].1.batches|)
        invariant n.None? <==> e == 0 && forall j :: 0 <= j < i ==> |ss[j].1| == 0
        invariant e == 0 && n.Some? ==> exists j :: (0 <= j < i && |ss[j].1| > 0 &&
          n.value == |ss[j].1[|ss[j].1| - 1].1.batches| && forall m :: j < m < i ==> |ss[m].1| == 0)
      {
        n := Some(|d[e].1.batches|);
        e := e + 1;
      }
      i := i + 1;
    }
    if n.None? {
      return Err(UnboundLocal("number_of_batches"));
    }
    return Ok(n.value);
  }

  /** `get_batched_coord(samplespace)`: the last settable, in iteration
      order, whose dict is batched; unbound when there is none. */
  method BatchedCoord(ss: MixedSamplespace) returns (r: Result<string>)
    ensures r.Ok? <==> ((forall i :: 0 <= i < |ss| ==> KindOf(ss[i].1) != Invalid) &&
      exists i :: 0 <= i < |ss| && KindOf(ss[i].1) == Batched)
    ensures r.Ok? ==> exists i :: (0 <= i < |ss| && KindOf(ss[i].1) == Batched && r.value == ss[i].0 &&
      forall j :: i < j < |ss| ==> KindOf(ss[j].1) == Simple)
    ensures (exists i :: 0 <= i < |ss| && KindOf(ss[i].1) == Invalid) ==> r == Err(ValidationFailed)
    ensures (forall i :: 0 <= i < |ss| ==> KindOf(ss[i].1) == Simple) ==> r == Err(UnboundLocal("batched_coord"))
  {
    var coord: Option<string> := None;
    // The position of the last batched settable seen so far, -1 for none.
    ghost var at: int := -1;
    var i := 0;
    while i < |ss|
      invariant 0 <= i <= |ss| && -1 <= at < i
      invariant forall j :: 0 <= j < i ==> KindOf(ss[j].1) != Invalid
      invariant coord.None? <==> at == -1
      invariant at == -1 ==> forall j :: 0 <= j < i ==> KindOf(ss[j].1) == Simple
      invariant at >= 0 ==> (KindOf(ss[at].1) == Batched && coord == Some(ss[at].0) &&
        forall m :: at < m < i ==> KindOf(ss[m].1) == Simple)
    {
      var kind := KindOf(ss[i].1);
      if kind == Invalid {
        return Err(ValidationFailed);
      } else if kind == Batched {
        coord := Some(ss[i].0);
        at := i;
      }
      i := i + 1;
    }
    if coord.None? {
      return Err(UnboundLocal("batched_coord"));
    }
    assert KindOf(ss[at].1) == Batched;
    return Ok(coord.value);
  }
}
