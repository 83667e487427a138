// Shared vocabulary of the model: Python exceptions as an error datatype,
// results, opaque sample tokens, and the handful of Python string operations
// (`sub in s`, `str.split`, `int(...)`, zero-padded formatting) the
// orchestration code relies on.
module Common {

  datatype Option<T> = None | Some(value: T)

  /** The Python exceptions the modelled code can raise. */
  datatype Error =
    | ValueError(msg: string)
    | KeyError(key: string)
    | IndexError
    | TypeError
    | AttributeError
    | ZeroDivisionError
    | UnboundLocal(name: string)   // UnboundLocalError / NameError on a never-assigned name
    | NodeNotFound                 // networkx.NodeNotFound / NetworkXError on a missing node
    | MissingEdge                  // KeyError from `graph[u][v]` on a missing edge
    | NoPath                       // networkx.NetworkXNoPath
    | ClusterNotFound(msg: string) // ClusterNotFoundError

  datatype Result<T> = Ok(value: T) | Err(error: Error)

  /** A sample value (a frequency, an amplitude, ...). Sample values are never
      computed with, so an opaque integer token stands for each of them. */
  type Sample = int

  /** `np.linspace(..., n)` / `np.arange(...)` of `n` points: only the number
      of points is modelled, the points are tokens derived from `anchor`. */
  function Grid(anchor: Sample, n: nat): (r: seq<Sample>)
    ensures |r| == n
  {
    seq(n, i => anchor + i)
  }

  /** `range(start, stop, step)` (and `np.arange` on integers): the values
      `start + i * step` that lie before `stop` in the direction of `step`. */
  function Range(start: int, stop: int, step: int): seq<int>
    requires step != 0
    decreases if step > 0 then stop - start else start - stop
  {
    if (step > 0 && start >= stop) || (step < 0 && start <= stop) then []
    else [start] + Range(start + step, stop, step)
  }

  /** The values of `range` are evenly spaced from `start`, all of them lie
      before `stop`, and the next one would not. */
  lemma {:induction false} RangeSpec(start: int, stop: int, step: int)
    requires step != 0
    ensures forall i :: 0 <= i < |Range(start, stop, step)| ==>
      Range(start, stop, step)[i] == start + i * step
    ensures forall i :: 0 <= i < |Range(start, stop, step)| ==>
      (if step > 0 then Range(start, stop, step)[i] < stop else Range(start, stop, step)[i] > stop)
    ensures var n := |Range(start, stop, step)|;
      if step > 0 then start + n * step >= stop else start + n * step <= stop
    decreases if step > 0 then stop - start else start - stop
  {
    var r := Range(start, stop, step);
    if |r| > 0 {
      var rest := Range(start + step, stop, step);
      RangeSpec(start + step, stop, step);
      assert r == [start] + rest;
      forall i | 0 < i < |r| ensures r[i] == start + i * step {
        StepShift(start, step, i);
        assert r[i] == rest[i - 1];
      }
      StepShift(start, step, |r|);
    }
  }

  /** One step, then `i - 1` more, is `i` steps. */
  lemma StepShift(start: int, step: int, i: int)
    ensures start + step + (i - 1) * step == start + i * step
  {
  }

  /** A range whose stop is `n` steps past its start has `n` values. */
  lemma {:induction false} RangeLength(start: int, stop: int, step: int, n: nat)
    requires step > 0 && stop == start + n * step
    ensures |Range(start, stop, step)| == n
    decreases n
  {
    if n > 0 {
      RangeLength(start + step, stop, step, n - 1);
    }
  }

  // ---------------------------------------------------------------------
  // Substrings: Python's `sub in s` on strings.

  predicate OccursAt(sub: string, s: string, i: nat)
  {
    i + |sub| <= |s| && s[i..i + |sub|] == sub
  }

  /** `sub in s`, searching from position `from`. */
  function SubstringFrom(sub: string, s: string, from: nat): (r: bool)
    ensures r <==> exists i: nat :: from <= i && OccursAt(sub, s, i)
    decreases |s| - from
  {
    if from + |sub| > |s| then
      assert forall i: nat :: from <= i ==> !OccursAt(sub, s, i);
      false
    else if s[from..from + |sub|] == sub then
      assert OccursAt(sub, s, from);
      true
    else
      var r := SubstringFrom(sub, s, from + 1);
      assert forall i: nat :: from <= i && OccursAt(sub, s, i) ==> i == from || from + 1 <= i;
      r
  }

  /** Python's `sub in s`. */
  function IsSubstring(sub: string, s: string): (r: bool)
    ensures r <==> exists i: nat :: OccursAt(sub, s, i)
  {
    SubstringFrom(sub, s, 0)
  }

  lemma SubstringOfItself(s: string)
    ensures IsSubstring(s, s)
  {
    assert OccursAt(s, s, 0);
  }

  // ---------------------------------------------------------------------
  // `s.split(c)` for a one-character separator, and its inverse `c.join(parts)`.

  /** Index of the first `c` in `s`, or |s| when there is none. */
  function FirstIndexOf(s: string, c: char): (i: nat)
    ensures i <= |s|
    ensures i < |s| ==> s[i] == c
    ensures forall j :: 0 <= j < i ==> s[j] != c
  {
    if |s| == 0 then 0
    else if s[0] == c then 0
    else 1 + FirstIndexOf(s[1..], c)
  }

  /** Python's `s.split(c)`: always at least one part, parts free of `c`. */
  function Split(s: string, c: char): (parts: seq<string>)
    ensures |parts| >= 1
    decreases |s|
  {
    var i := FirstIndexOf(s, c);
    if i == |s| then [s] else [s[..i]] + Split(s[i + 1..], c)
  }

  /** Python's `c.join(parts)`. */
  function Join(parts: seq<string>, c: char): string
  {
    if |parts| == 0 then ""
    else if |parts| == 1 then parts[0]
    else parts[0] + [c] + Join(parts[1..], c)
  }

  lemma {:induction false} SplitPartsAvoidSeparator(s: string, c: char)
    ensures forall k :: 0 <= k < |Split(s, c)| ==> c !in Split(s, c)[k]
    decreases |s|
  {
    var i := FirstIndexOf(s, c);
    if i < |s| {
      SplitPartsAvoidSeparator(s[i + 1..], c);
      var parts := Split(s, c);
      assert parts == [s[..i]] + Split(s[i + 1..], c);
      forall k | 0 <= k < |parts|
        ensures c !in parts[k]
      {
        if k == 0 {
          assert forall j :: 0 <= j < i ==> s[..i][j] != c;
        } else {
          assert parts[k] == Split(s[i + 1..], c)[k - 1];
        }
      }
    }
  }

  /** Joining the parts of a split with the same separator gives back the string. */
  lemma {:induction false} JoinSplit(s: string, c: char)
    ensures Join(Split(s, c), c) == s
    decreases |s|
  {
    var i := FirstIndexOf(s, c);
    if i < |s| {
      var rest := Split(s[i + 1..], c);
      JoinSplit(s[i + 1..], c);
      JoinCons(s[..i], rest, c);
      assert s == s[..i] + [c] + s[i + 1..];
    }
  }

  /** Joining a head onto a non-empty list of parts puts one separator between. */
  lemma JoinCons(head: string, rest: seq<string>, c: char)
    requires |rest| >= 1
    ensures Join([head] + rest, c) == head + [c] + Join(rest, c)
  {
    assert ([head] + rest)[1..] == rest;
  }

  /** Splitting a join of separator-free parts gives back the parts. */
  lemma {:induction false} SplitJoin(parts: seq<string>, c: char)
    requires |parts| >= 1
    requires forall k :: 0 <= k < |parts| ==> c !in parts[k]
    ensures Split(Join(parts, c), c) == parts
    decreases |parts|
  {
    if |parts| == 1 {
      var i := FirstIndexOf(parts[0], c);
      assert i == |parts[0]|;
    } else {
      var s := Join(parts, c);
      var rest := Join(parts[1..], c);
      assert s == parts[0] + [c] + rest;
      var i := FirstIndexOf(s, c);
      assert s[|parts[0]|] == c;
      assert forall j :: 0 <= j < |parts[0]| ==> s[j] == parts[0][j];
      assert i == |parts[0]|;
      assert s[..i] == parts[0];
      assert s[i + 1..] == rest;
      SplitJoin(parts[1..], c);
    }
  }

  /** Python's `s.split(c, maxsplit)`: at most `maxsplit` cuts, from the left. */
  function SplitMax(s: string, c: char, maxsplit: nat): (parts: seq<string>)
    ensures 1 <= |parts| <= maxsplit + 1
    decreases |s|
  {
    var i := FirstIndexOf(s, c);
    if i == |s| || maxsplit == 0 then [s] else [s[..i]] + SplitMax(s[i + 1..], c, maxsplit - 1)
  }

  /** With enough cuts allowed, `split(c, maxsplit)` agrees with `split(c)`. */
  lemma {:induction false} SplitMaxAgrees(s: string, c: char, maxsplit: nat)
    requires |Split(s, c)| <= maxsplit + 1
    ensures SplitMax(s, c, maxsplit) == Split(s, c)
    decreases |s|
  {
    var i := FirstIndexOf(s, c);
    if i < |s| {
      assert maxsplit >= 1;
      SplitMaxAgrees(s[i + 1..], c, maxsplit - 1);
    }
  }

  /** No element occurs twice. */
  predicate Distinct<T(==)>(xs: seq<T>)
  {
    forall i, j :: 0 <= i < j < |xs| ==> xs[i] != xs[j]
  }

  /** `len(set(xs))`: at most `len(xs)`, and equal exactly when no element
      occurs twice. */
  lemma {:induction false} ElementsCount<T>(xs: seq<T>)
    ensures |set x | x in xs| <= |xs|
    ensures |set x | x in xs| == |xs| <==> Distinct(xs)
  {
    if |xs| > 0 {
      var tail := xs[1..];
      ElementsCount(tail);
      assert (set x | x in xs) == {xs[0]} + (set x | x in tail) by {
        assert xs == [xs[0]] + tail;
      }
      if xs[0] in tail {
        assert (set x | x in xs) == (set x | x in tail);
        var k :| 0 <= k < |tail| && tail[k] == xs[0];
        assert xs[k + 1] == xs[0];
      } else {
        if Distinct(tail) {
          forall i, j | 0 <= i < j < |xs|
            ensures xs[i] != xs[j]
          {
            if i > 0 {
              assert xs[i] == tail[i - 1] && xs[j] == tail[j - 1];
            } else {
              assert xs[j] == tail[j - 1];
            }
          }
        } else {
          var i, j :| 0 <= i < j < |tail| && tail[i] == tail[j];
          assert xs[i + 1] == xs[j + 1];
        }
      }
    }
  }

  // ---------------------------------------------------------------------
  // Flattening a list of lists (`[q for c in cs for q in c]`).

  function Flatten<T>(xss: seq<seq<T>>): (r: seq<T>)
  {
    if |xss| == 0 then [] else xss[0] + Flatten(xss[1..])
  }

  lemma {:induction false} FlattenAppend<T>(xss: seq<seq<T>>, ys: seq<T>)
    ensures Flatten(xss + [ys]) == Flatten(xss) + ys
  {
    if |xss| == 0 {
      assert xss + [ys] == [ys];
    } else {
      assert (xss + [ys])[1..] == xss[1..] + [ys];
      FlattenAppend(xss[1..], ys);
    }
  }

  /** An element is in the flattening iff it is in one of the lists. */
  lemma {:induction false} InFlatten<T>(xss: seq<seq<T>>, x: T)
    ensures x in Flatten(xss) <==> exists k :: 0 <= k < |xss| && x in xss[k]
  {
    if |xss| > 0 {
      InFlatten(xss[1..], x);
      if x in Flatten(xss[1..]) {
        var k :| 0 <= k < |xss[1..]| && x in xss[1..][k];
        assert x in xss[k + 1];
      }
      if exists k :: 0 <= k < |xss| && x in xss[k] {
        var k :| 0 <= k < |xss| && x in xss[k];
        if k > 0 {
          assert x in xss[1..][k - 1];
        }
      }
    }
  }

  // ---------------------------------------------------------------------
  // Decimal digits: `int(s)` on a string of digits and `f"{i:02}"`.

  predicate IsDigit(ch: char) { '0' <= ch <= '9' }

  predicate IsLetter(ch: char) { 'a' <= ch <= 'z' || 'A' <= ch <= 'Z' }

  /** The ASCII characters of Python's `\s` class (and of `str.strip()`):
      space, tab, line feed, carriage return, vertical tab, form feed and the
      four separators 0x1C-0x1F. */
  predicate IsSpace(ch: char)
  {
    ch == ' ' || ch == '\t' || ch == '\n' || ch == '\r' || ch == '\U{B}' || ch == '\U{C}' || '\U{1C}' <= ch <= '\U{1F}'
  }

  predicate AllDigits(s: string) { forall i :: 0 <= i < |s| ==> IsDigit(s[i]) }

  /** The value of a string of decimal digits (most significant first). */
  function DigitsValue(s: string): nat
    requires AllDigits(s)
  {
    if |s| == 0 then 0
    else 10 * DigitsValue(s[..|s| - 1]) + (s[|s| - 1] as int - '0' as int)
  }

  /** Python's `int(s)` restricted to decimal digit strings: empty or
      non-digit input raises ValueError. */
  function ParseInt(s: string): (r: Result<nat>)
    ensures r.Ok? <==> |s| > 0 && AllDigits(s)
    ensures r.Ok? ==> r.value == DigitsValue(s)
  {
    if |s| > 0 && AllDigits(s) then Ok(DigitsValue(s)) else Err(ValueError("invalid literal for int()"))
  }

  function DigitChar(d: nat): char
    requires d < 10
  {
    ('0' as int + d) as char
  }

  /** `str(n)` for a natural number. */
  function NatToString(n: nat): (s: string)
    ensures |s| > 0 && AllDigits(s)
    decreases n
  {
    if n < 10 then [DigitChar(n)] else NatToString(n / 10) + [DigitChar(n % 10)]
  }

  /** `f"{n:02}"`: at least two digits, zero-padded on the left. */
  function Pad2(n: nat): (s: string)
    ensures |s| >= 2 && AllDigits(s)
  {
    if n < 10 then ['0', DigitChar(n)] else NatToString(n)
  }

  lemma {:induction false} NatToStringRoundTrip(n: nat)
    ensures DigitsValue(NatToString(n)) == n
    decreases n
  {
    var s := NatToString(n);
    if n >= 10 {
      NatToStringRoundTrip(n / 10);
      assert s[..|s| - 1] == NatToString(n / 10);
    } else {
      assert s[..|s| - 1] == [];
    }
  }

  /** Reading a zero-padded number back gives the number. */
  lemma Pad2RoundTrip(n: nat)
    ensures DigitsValue(Pad2(n)) == n
  {
    if n < 10 {
      var s := Pad2(n);
      assert s[..|s| - 1] == ['0'];
      assert ['0'][..0] == [];
    } else {
      NatToStringRoundTrip(n);
    }
  }

  // ---------------------------------------------------------------------
  // `for i, x in enumerate(xs): ys.append(f(x, i))`, where any call may raise.

  function Enumerate<T>(f: (string, nat) -> Result<T>, xs: seq<string>): Result<seq<T>>
  {
    if |xs| == 0 then Ok([])
    else
      var init := Enumerate(f, xs[..|xs| - 1]);
      if init.Err? then init
      else
        var y := f(xs[|xs| - 1], |xs| - 1);
        if y.Err? then Err(y.error) else Ok(init.value + [y.value])
  }

  /** The loop succeeds exactly when every element succeeds at its position,
      and then holds their results in order. */
  lemma {:induction false} EnumerateSpec<T>(f: (string, nat) -> Result<T>, xs: seq<string>)
    ensures var r := Enumerate(f, xs);
      (r.Err? <==> exists i :: 0 <= i < |xs| && f(xs[i], i).Err?) &&
      (r.Ok? ==> |r.value| == |xs| && forall i :: 0 <= i < |xs| ==> f(xs[i], i) == Ok(r.value[i]))
  {
    if |xs| > 0 {
      var init := xs[..|xs| - 1];
      var last := |xs| - 1;
      EnumerateSpec(f, init);
      var r := Enumerate(f, xs);
      if Enumerate(f, init).Err? {
        var i :| 0 <= i < |init| && f(init[i], i).Err?;
        assert init[i] == xs[i];
      } else if r.Ok? {
        forall i | 0 <= i < |xs| ensures f(xs[i], i) == Ok(r.value[i]) {
          if i < last {
            assert init[i] == xs[i];
            assert r.value[i] == Enumerate(f, init).value[i];
          }
        }
      }
    }
  }

  /** The first failure ends the loop: a failing prefix is the outcome. */
  lemma {:induction false} EnumeratePrefix<T>(f: (string, nat) -> Result<T>, xs: seq<string>, n: nat)
    requires n <= |xs|
    requires Enumerate(f, xs[..n]).Err?
    ensures Enumerate(f, xs) == Enumerate(f, xs[..n])
    decreases |xs| - n
  {
    if n < |xs| {
      var longer := xs[..n + 1];
      assert longer[..n] == xs[..n];
      EnumeratePrefix(f, xs, n + 1);
    } else {
      assert xs[..n] == xs;
    }
  }
}
