/** Names of measurement directories and the date key read back from them:
    `create_node_data_path` and `save_dataset` (tergite_acl/utils/dataset_utils.py)
    and `extract_ds_date` with the latest-file selection of
    `load_multiplexed_dataset` (tergite_autocalibration/utils/io/load_dataset.py). */
module Naming {
  import opened Common

  // ---------------------------------------------------------------------
  // Fixed-width decimal fields.

  function Pow10(w: nat): (p: nat)
    ensures p > 0
  {
    if w == 0 then 1 else 10 * Pow10(w - 1)
  }

  /** The last `w` decimal digits of `n`, zero-padded: strftime's `%Y`, `%m`,
      `%d`, `%H`, `%M`, `%S` and `%f` fields. */
  function Digits(n: nat, w: nat): (s: string)
    ensures |s| == w && AllDigits(s)
  {
    if w == 0 then [] else Digits(n / 10, w - 1) + [DigitChar(n % 10)]
  }

  /** A field that fits its width reads back as itself. */
  lemma {:induction false} DigitsRoundTrip(n: nat, w: nat)
    requires n < Pow10(w)
    ensures DigitsValue(Digits(n, w)) == n
  {
    if w > 0 {
      var s := Digits(n, w);
      assert s[..w - 1] == Digits(n / 10, w - 1);
      DigitsRoundTrip(n / 10, w - 1);
    }
  }

  /** The quotient is the only multiple that leaves a remainder below the divisor. */
  lemma DivUnique(n: int, d: int, q: int, r: int)
    requires d > 0 && 0 <= r < d && n == d * q + r
    ensures n / d == q
  {
    var q', r' := n / d, n % d;
    assert d * (q - q') == r' - r;
    if q > q' {
      MulMonotone(1, q - q', d);
    } else if q < q' {
      MulMonotone(1, q' - q, d);
    }
  }

  /** Quotient by a product is the quotient of the quotient. */
  lemma DivDiv(n: nat, m: nat)
    requires m > 0
    ensures n / 10 / m == n / (10 * m)
  {
    var q, r := n / 10, n % 10;
    var big, small := q / m, q % m;
    assert q == m * big + small;
    assert n == 10 * q + r;
    assert 10 * q == (10 * m) * big + 10 * small;
    assert 0 <= 10 * small + r < 10 * m;
    DivUnique(n, 10 * m, big, 10 * small + r);
  }

  /** The leading `a` digits of an `a + b` digit field are the field of
      `n / 10^b`: this is how `[:19]` turns `%f` into milliseconds. */
  lemma {:induction false} DigitsPrefix(n: nat, a: nat, b: nat)
    ensures Digits(n, a + b)[..a] == Digits(n / Pow10(b), a)
    decreases b
  {
    if b > 0 {
      var s := Digits(n, a + b);
      assert s[..a] == Digits(n / 10, a + (b - 1))[..a];
      DigitsPrefix(n / 10, a, b - 1);
      DivDiv(n, Pow10(b - 1));
    }
  }

  /** Reading a concatenation of digit strings. */
  lemma {:induction false} DigitsValueAppend(x: string, y: string)
    requires AllDigits(x) && AllDigits(y)
    ensures AllDigits(x + y)
    ensures DigitsValue(x + y) == DigitsValue(x) * Pow10(|y|) + DigitsValue(y)
    decreases |y|
  {
    if |y| > 0 {
      var xy, y' := x + y, y[..|y| - 1];
      var d := y[|y| - 1] as int - '0' as int;
      assert xy[..|xy| - 1] == x + y';
      DigitsValueAppend(x, y');
      assert DigitsValue(xy) == 10 * DigitsValue(x + y') + d;
      assert DigitsValue(y) == 10 * DigitsValue(y') + d;
      ShiftDigit(DigitsValue(x), Pow10(|y'|), DigitsValue(y'), d);
    } else {
      assert x + y == x;
    }
  }

  lemma ShiftDigit(a: int, p: int, v: int, d: int)
    ensures 10 * (a * p + v) + d == a * (10 * p) + (10 * v + d)
  {
  }

  // ---------------------------------------------------------------------
  // Stamps: fields written one after another and read as one number.

  /** The digits of `fields`, each zero-padded to its width. */
  function StampDigits(fields: seq<nat>, widths: seq<nat>): (s: string)
    requires |fields| == |widths|
    ensures AllDigits(s)
  {
    if |fields| == 0 then []
    else
      var n := |fields| - 1;
      StampDigits(fields[..n], widths[..n]) + Digits(fields[n], widths[n])
  }

  /** The number a stamp denotes: every field shifted past the ones after it. */
  function Horner(fields: seq<nat>, widths: seq<nat>): nat
    requires |fields| == |widths|
  {
    if |fields| == 0 then 0
    else
      var n := |fields| - 1;
      Horner(fields[..n], widths[..n]) * Pow10(widths[n]) + fields[n]
  }

  predicate FieldsFit(fields: seq<nat>, widths: seq<nat>)
    requires |fields| == |widths|
  {
    forall i :: 0 <= i < |fields| ==> fields[i] < Pow10(widths[i])
  }

  lemma {:induction false} StampValue(fields: seq<nat>, widths: seq<nat>)
    requires |fields| == |widths| && FieldsFit(fields, widths)
    ensures DigitsValue(StampDigits(fields, widths)) == Horner(fields, widths)
    decreases |fields|
  {
    if |fields| > 0 {
      var n := |fields| - 1;
      StampValue(fields[..n], widths[..n]);
      DigitsRoundTrip(fields[n], widths[n]);
      DigitsValueAppend(StampDigits(fields[..n], widths[..n]), Digits(fields[n], widths[n]));
    }
  }

  /** `Horner` stays below the product of the radices. */
  lemma {:induction false} HornerBound(fields: seq<nat>, widths: seq<nat>)
    requires |fields| == |widths| && FieldsFit(fields, widths)
    ensures Horner(fields, widths) < Pow10(Sum(widths))
    decreases |fields|
  {
    if |fields| > 0 {
      var n := |fields| - 1;
      var h := Horner(fields[..n], widths[..n]);
      var p := Pow10(widths[n]);
      HornerBound(fields[..n], widths[..n]);
      PowAdd(Sum(widths[..n]), widths[n]);
      assert h + 1 <= Pow10(Sum(widths[..n]));
      assert h * p + fields[n] < (h + 1) * p;
      MulMonotone(h + 1, Pow10(Sum(widths[..n])), p);
    }
  }

  function Sum(ws: seq<nat>): nat
  {
    if |ws| == 0 then 0 else Sum(ws[..|ws| - 1]) + ws[|ws| - 1]
  }

  lemma {:induction false} PowAdd(a: nat, b: nat)
    ensures Pow10(a + b) == Pow10(a) * Pow10(b)
    decreases b
  {
    if b > 0 {
      PowAdd(a, b - 1);
    }
  }

  lemma MulMonotone(x: nat, y: nat, p: nat)
    requires x <= y
    ensures x * p <= y * p
  {
  }

  /** Lexicographic order on field lists of the same length. */
  predicate LexLess(xs: seq<nat>, ys: seq<nat>)
    requires |xs| == |ys|
  {
    |xs| > 0 &&
      var n := |xs| - 1;
      LexLess(xs[..n], ys[..n]) || (xs[..n] == ys[..n] && xs[n] < ys[n])
  }

  /** A stamp that is lexicographically earlier denotes a smaller number. */
  lemma {:induction false} HornerMonotone(xs: seq<nat>, ys: seq<nat>, widths: seq<nat>)
    requires |xs| == |ys| == |widths|
    requires FieldsFit(xs, widths) && FieldsFit(ys, widths)
    requires LexLess(xs, ys)
    ensures Horner(xs, widths) < Horner(ys, widths)
    decreases |xs|
  {
    var n := |xs| - 1;
    var p := Pow10(widths[n]);
    var hx, hy := Horner(xs[..n], widths[..n]), Horner(ys[..n], widths[..n]);
    assert Horner(xs, widths) == hx * p + xs[n];
    assert Horner(ys, widths) == hy * p + ys[n];
    if LexLess(xs[..n], ys[..n]) {
      assert FieldsFit(xs[..n], widths[..n]) && FieldsFit(ys[..n], widths[..n]);
      HornerMonotone(xs[..n], ys[..n], widths[..n]);
      assert xs[n] < p;
      ShiftLess(hx, hy, p, xs[n], ys[n]);
    } else {
      assert hx == hy;
    }
  }

  /** A smaller leading part wins whatever the digit after it. */
  lemma ShiftLess(hx: nat, hy: nat, p: nat, x: nat, y: nat)
    requires hx < hy && x < p
    ensures hx * p + x < hy * p + y
  {
    assert hx * p + x < (hx + 1) * p;
    MulMonotone(hx + 1, hy, p);
  }

  // ---------------------------------------------------------------------
  // The clock reading and the identifiers built from it.

  /** A reading of `datetime.now()`. */
  datatype Instant = Instant(year: nat, month: nat, day: nat,
                             hour: nat, minute: nat, second: nat, micro: nat)

  /** Readings the clock can produce, with four-digit years. */
  predicate ValidInstant(t: Instant)
  {
    1000 <= t.year <= 9999 && 1 <= t.month <= 12 && 1 <= t.day <= 31 &&
    t.hour < 24 && t.minute < 60 && t.second < 60 && t.micro < 1000000
  }

  /** `strftime('%Y%m%d')`: the name of the day's directory. */
  function DayStamp(t: Instant): (s: string)
    ensures |s| == 8 && AllDigits(s)
  {
    Digits(t.year, 4) + Digits(t.month, 2) + Digits(t.day, 2)
  }

  /** `strftime('%H%M%S')`. */
  function ClockStamp(t: Instant): (s: string)
    ensures |s| == 6 && AllDigits(s)
  {
    Digits(t.hour, 2) + Digits(t.minute, 2) + Digits(t.second, 2)
  }

  /** `strftime('%Y%m%d-%H%M%S-%f')[:19]`: day, time and the first three
      digits of the microseconds. */
  function TimeId(t: Instant): (id: string)
    ensures |id| == 19
  {
    (DayStamp(t) + "-" + ClockStamp(t) + "-" + Digits(t.micro, 6))[..19]
  }

  /** The time id is the day stamp, the clock stamp and the milliseconds,
      separated by '-', and holds no other '-' and no '.'. */
  lemma TimeIdShape(t: Instant)
    ensures TimeId(t) == DayStamp(t) + "-" + ClockStamp(t) + "-" + Digits(t.micro / 1000, 3)
    ensures forall i :: 0 <= i < 19 ==> TimeId(t)[i] != '.'
  {
    var head := DayStamp(t) + "-" + ClockStamp(t) + "-";
    var whole := head + Digits(t.micro, 6);
    assert whole[..19] == head + Digits(t.micro, 6)[..3];
    DigitsPrefix(t.micro, 3, 3);
    assert Pow10(3) == 1000;
  }

  /** `measurement_id`: the time id, the first six characters of a random
      UUID and the node name, joined by '-'. */
  function MeasurementId(t: Instant, uuid: string, nodeName: string): string
  {
    TimeId(t) + "-" + Prefix(uuid, 6) + "-" + nodeName
  }

  /** Python's `s[:n]`. */
  function Prefix(s: string, n: nat): (r: string)
    ensures |r| <= n && r <= s
  {
    if |s| <= n then s else s[..n]
  }

  /** The data directory of a run, below the configured data root. */
  datatype DataPath = DataPath(dayDirectory: string, measurementId: string)

  /** `create_node_data_path`: the day's directory, then the measurement id. */
  function CreateNodeDataPath(t: Instant, uuid: string, nodeName: string): (p: DataPath)
    ensures p.dayDirectory == TimeId(t)[..8]
    ensures |p.measurementId| > 19 && p.measurementId[..19] == TimeId(t)
  {
    TimeIdShape(t);
    DataPath(DayStamp(t), MeasurementId(t, uuid, nodeName))
  }

  /** `str.rfind(c)`: the last index of `c`, or -1. */
  function LastIndexOf(s: string, c: char): (i: int)
    ensures -1 <= i < |s|
    ensures i >= 0 ==> s[i] == c
    ensures forall j :: i < j < |s| ==> s[j] != c
  {
    if |s| == 0 then -1
    else if s[|s| - 1] == c then |s| - 1
    else LastIndexOf(s[..|s| - 1], c)
  }

  /** `PurePath.stem`: the name without its last suffix; a leading dot or a
      trailing dot does not start a suffix. */
  function Stem(name: string): (r: string)
    ensures r <= name
  {
    var i := LastIndexOf(name, '.');
    if 0 < i < |name| - 1 then name[..i] else name
  }

  /** The `tuid` attribute `save_dataset` stores: `data_path.stem[0:19]`. */
  function SavedTuid(p: DataPath): string
  {
    Prefix(Stem(p.measurementId), 19)
  }

  /** The tuid recovered from a data path is the time id it was made from,
      whatever the UUID and the node name hold (dots included). */
  lemma TuidRoundTrip(t: Instant, uuid: string, nodeName: string)
    ensures SavedTuid(CreateNodeDataPath(t, uuid, nodeName)) == TimeId(t)
  {
    var id := MeasurementId(t, uuid, nodeName);
    TimeIdShape(t);
    assert forall j :: 0 <= j < 19 ==> id[j] == TimeId(t)[j];
    assert id[19] == '-';
    var i := LastIndexOf(id, '.');
    assert i == -1 || i > 19;
    assert id[..19] == TimeId(t);
  }

  // ---------------------------------------------------------------------
  // `extract_ds_date`.

  /** `ym, day, time, node, tuid = filename.split("-", 4)` followed by
      `int(ym + day + time)`: fewer than five fields cannot be unpacked. */
  function ExtractDsDate(filename: string): (r: Result<nat>)
    ensures r.Ok? <==> var parts := SplitMax(filename, '-', 4);
      |parts| == 5 && |parts[0] + parts[1] + parts[2]| > 0 && AllDigits(parts[0] + parts[1] + parts[2])
  {
    var parts := SplitMax(filename, '-', 4);
    if |parts| != 5 then Err(ValueError("not enough values to unpack"))
    else ParseInt(parts[0] + parts[1] + parts[2])
  }

  /** Splitting at a first separator that follows `head`. */
  lemma SplitMaxAt(head: string, rest: string, c: char, maxsplit: nat)
    requires c !in head
    ensures SplitMax(head + [c] + rest, c, maxsplit + 1) == [head] + SplitMax(rest, c, maxsplit)
  {
    var s := head + [c] + rest;
    assert s[|head|] == c;
    assert forall j :: 0 <= j < |head| ==> s[j] == head[j];
    assert FirstIndexOf(s, c) == |head|;
    assert s[..|head|] == head;
    assert s[|head| + 1..] == rest;
  }

  lemma NoDash(s: string)
    requires AllDigits(s)
    ensures '-' !in s
  {
    forall i | 0 <= i < |s| ensures s[i] != '-' {
      assert IsDigit(s[i]);
    }
  }

  /** `split(c, n - 1)` of `n` parts joined by `c` gives the parts back when
      all but the last are free of `c`: the last may hold `c`. */
  lemma {:induction false} SplitMaxJoin(parts: seq<string>, c: char)
    requires |parts| >= 1
    requires forall k :: 0 <= k < |parts| - 1 ==> c !in parts[k]
    ensures SplitMax(Join(parts, c), c, |parts| - 1) == parts
    decreases |parts|
  {
    if |parts| > 1 {
      var rest := parts[1..];
      assert c !in parts[0];
      forall k | 0 <= k < |rest| - 1 ensures c !in rest[k] {
        assert rest[k] == parts[k + 1];
      }
      SplitMaxJoin(rest, c);
      JoinCons(parts[0], rest, c);
      assert [parts[0]] + rest == parts;
      SplitMaxAt(parts[0], Join(rest, c), c, |parts| - 2);
      assert SplitMax(Join(parts, c), c, |parts| - 1) == [parts[0]] + rest;
    }
  }

  /** Five parts joined by `c`. */
  lemma JoinFive(a: string, b: string, d: string, e: string, f: string, c: char)
    ensures Join([a, b, d, e, f], c) == a + [c] + b + [c] + d + [c] + e + [c] + f
  {
    var parts := [a, b, d, e, f];
    assert Join(parts[4..], c) == f;
    JoinCons(e, parts[4..], c);
    assert parts[3..] == [e] + parts[4..];
    JoinCons(d, parts[3..], c);
    assert parts[2..] == [d] + parts[3..];
    JoinCons(b, parts[2..], c);
    assert parts[1..] == [b] + parts[2..];
    JoinCons(a, parts[1..], c);
    assert parts == [a] + parts[1..];
  }

  /** The fields of a measurement id, as `split("-", 4)` cuts them: the
      node name stays whole even when it holds '-'. */
  lemma MeasurementIdFields(t: Instant, uuid: string, nodeName: string)
    requires '-' !in Prefix(uuid, 6)
    ensures SplitMax(MeasurementId(t, uuid, nodeName), '-', 4) ==
      [DayStamp(t), ClockStamp(t), Digits(t.micro / 1000, 3), Prefix(uuid, 6), nodeName]
  {
    TimeIdShape(t);
    var day, clock, ms, u := DayStamp(t), ClockStamp(t), Digits(t.micro / 1000, 3), Prefix(uuid, 6);
    NoDash(day);
    NoDash(clock);
    NoDash(ms);
    var parts := [day, clock, ms, u, nodeName];
    JoinFive(day, clock, ms, u, nodeName, '-');
    SplitMaxJoin(parts, '-');
  }

  /** The fields of an instant that the date key keeps, most significant
      first, and their widths. */
  function KeyFields(t: Instant): seq<nat>
  {
    [t.year, t.month, t.day, t.hour, t.minute, t.second, t.micro / 1000]
  }

  const KeyWidths: seq<nat> := [4, 2, 2, 2, 2, 2, 3]

  lemma StampStep(fields: seq<nat>, widths: seq<nat>, k: nat)
    requires |fields| == |widths| && k < |fields|
    ensures StampDigits(fields[..k + 1], widths[..k + 1]) ==
      StampDigits(fields[..k], widths[..k]) + Digits(fields[k], widths[k])
  {
    assert fields[..k + 1][..k] == fields[..k];
    assert widths[..k + 1][..k] == widths[..k];
  }

  /** A seven-field stamp is its fields' digits side by side. */
  lemma StampDigitsSeven(f: seq<nat>, w: seq<nat>)
    requires |f| == 7 && |w| == 7
    ensures StampDigits(f, w) == Digits(f[0], w[0]) + Digits(f[1], w[1]) + Digits(f[2], w[2]) +
      Digits(f[3], w[3]) + Digits(f[4], w[4]) + Digits(f[5], w[5]) + Digits(f[6], w[6])
  {
    var d0, d1, d2, d3 := Digits(f[0], w[0]), Digits(f[1], w[1]), Digits(f[2], w[2]), Digits(f[3], w[3]);
    var d4, d5, d6 := Digits(f[4], w[4]), Digits(f[5], w[5]), Digits(f[6], w[6]);
    assert StampDigits(f[..0], w[..0]) == [];
    StampStep(f, w, 0);
    assert StampDigits(f[..1], w[..1]) == d0;
    StampStep(f, w, 1);
    StampStep(f, w, 2);
    StampStep(f, w, 3);
    assert StampDigits(f[..4], w[..4]) == d0 + d1 + d2 + d3;
    StampStep(f, w, 4);
    StampStep(f, w, 5);
    StampStep(f, w, 6);
    assert StampDigits(f[..7], w[..7]) == d0 + d1 + d2 + d3 + d4 + d5 + d6;
    assert f[..7] == f && w[..7] == w;
  }

  lemma KeyDigits(t: Instant)
    ensures StampDigits(KeyFields(t), KeyWidths) ==
      DayStamp(t) + ClockStamp(t) + Digits(t.micro / 1000, 3)
  {
    StampDigitsSeven(KeyFields(t), KeyWidths);
  }

  /** The date key of a measurement id is the time stamp read as one
      number: year, month, day, hour, minute, second and millisecond, each
      shifted by the widths of those after it. */
  lemma ExtractDsDateOfMeasurementId(t: Instant, uuid: string, nodeName: string)
    requires ValidInstant(t)
    requires '-' !in Prefix(uuid, 6)
    ensures ExtractDsDate(MeasurementId(t, uuid, nodeName)) == Ok(Horner(KeyFields(t), KeyWidths))
  {
    MeasurementIdFields(t, uuid, nodeName);
    KeyDigits(t);
    assert FieldsFit(KeyFields(t), KeyWidths) by {
      assert Pow10(2) == 100 && Pow10(3) == 1000 && Pow10(4) == 10000;
    }
    StampValue(KeyFields(t), KeyWidths);
  }

  /** A later clock reading (to the millisecond) gives a larger date key. */
  lemma DateKeyMonotone(t1: Instant, t2: Instant)
    requires ValidInstant(t1) && ValidInstant(t2)
    requires LexLess(KeyFields(t1), KeyFields(t2))
    ensures Horner(KeyFields(t1), KeyWidths) < Horner(KeyFields(t2), KeyWidths)
  {
    assert Pow10(2) == 100 && Pow10(3) == 1000 && Pow10(4) == 10000;
    assert FieldsFit(KeyFields(t1), KeyWidths);
    assert FieldsFit(KeyFields(t2), KeyWidths);
    HornerMonotone(KeyFields(t1), KeyFields(t2), KeyWidths);
  }

  // ---------------------------------------------------------------------
  // Choosing the latest matching file.

  /** `filter(lambda x: user_substr in x, filenames)`. */
  function Matching(filenames: seq<string>, sub: string): (r: seq<string>)
    ensures forall x :: x in r <==> x in filenames && IsSubstring(sub, x)
  {
    if |filenames| == 0 then []
    else
      var init := Matching(filenames[..|filenames| - 1], sub);
      var last := filenames[|filenames| - 1];
      assert filenames == filenames[..|filenames| - 1] + [last];
      if IsSubstring(sub, last) then init + [last] else init
  }

  /** `max(names, key=key)`: keys are read in order and the first
      one that raises is the error; a later name replaces the best one only
      when its key is strictly larger. Returns the name and its key. */
  function MaxBy(names: seq<string>, key: string -> Result<nat>): Result<(string, nat)>
    requires |names| > 0
  {
    var n := |names| - 1;
    var last := key(names[n]);
    if n == 0 then (if last.Err? then Err(last.error) else Ok((names[0], last.value)))
    else
      var best := MaxBy(names[..n], key);
      if best.Err? then best
      else if last.Err? then Err(last.error)
      else if last.value > best.value.1 then Ok((names[n], last.value))
      else best
  }

  /** `max` succeeds iff every key can be read. */
  lemma {:induction false} MaxByOk(names: seq<string>, key: string -> Result<nat>)
    requires |names| > 0
    ensures MaxBy(names, key).Ok? <==> forall j :: 0 <= j < |names| ==> key(names[j]).Ok?
    decreases |names|
  {
    var n := |names| - 1;
    if n > 0 {
      MaxByOk(names[..n], key);
      if MaxBy(names[..n], key).Err? {
        var j :| 0 <= j < n && key(names[..n][j]).Err?;
        assert key(names[j]).Err?;
      }
    }
  }

  /** The chosen key belongs to the chosen name and no key is larger. */
  lemma {:induction false} MaxByLargest(names: seq<string>, key: string -> Result<nat>)
    requires |names| > 0 && MaxBy(names, key).Ok?
    ensures key(MaxBy(names, key).value.0) == Ok(MaxBy(names, key).value.1)
    ensures MaxBy(names, key).value.0 in names
    ensures forall j :: 0 <= j < |names| ==>
      key(names[j]).Ok? && key(names[j]).value <= MaxBy(names, key).value.1
    decreases |names|
  {
    MaxByOk(names, key);
    var n := |names| - 1;
    if n > 0 {
      MaxByLargest(names[..n], key);
      assert forall j :: 0 <= j < n ==> names[..n][j] == names[j];
    }
  }

  /** On a tie the earliest name wins: every name before the chosen one has
      a strictly smaller key. */
  lemma {:induction false} MaxByFirst(names: seq<string>, key: string -> Result<nat>)
    requires |names| > 0 && MaxBy(names, key).Ok?
    ensures exists i :: (0 <= i < |names| && names[i] == MaxBy(names, key).value.0 &&
      forall j :: 0 <= j < i ==> key(names[j]).Ok? && key(names[j]).value < MaxBy(names, key).value.1)
    decreases |names|
  {
    MaxByOk(names, key);
    var n := |names| - 1;
    var r := MaxBy(names, key).value;
    if n == 0 {
      assert names[0] == r.0;
    } else {
      var init := names[..n];
      assert forall j :: 0 <= j < n ==> init[j] == names[j];
      MaxByFirst(init, key);
      MaxByLargest(init, key);
      var best := MaxBy(init, key).value;
      var last := key(names[n]);
      assert last.Ok?;
      var i :| 0 <= i < n && init[i] == best.0 &&
        forall j :: 0 <= j < i ==> key(init[j]).value < best.1;
      if last.value > best.1 {
        assert r == (names[n], last.value);
        assert forall j :: 0 <= j < n ==> key(names[j]).value < r.1;
      } else {
        assert r == best;
        assert names[i] == r.0;
        assert forall j :: 0 <= j < i ==> key(names[j]).value < r.1;
      }
    }
  }

  /** The file `load_multiplexed_dataset` opens among the data directory's
      `filenames`: the latest of those holding `userSubstr`. */
  function LatestFile(filenames: seq<string>, userSubstr: string): Result<string>
  {
    var matched := Matching(filenames, userSubstr);
    if |matched| == 0 then Err(ValueError("max() arg is an empty sequence"))
    else
      var best := MaxBy(matched, ExtractDsDate);
      if best.Err? then Err(best.error) else Ok(best.value.0)
  }

  /** No matching name is an error; a matching name whose date cannot be read
      is an error; otherwise the result holds the substring, comes from the
      listing, and has the largest date key of the matching names. */
  lemma LatestFileSpec(filenames: seq<string>, userSubstr: string)
    ensures var matched := Matching(filenames, userSubstr);
      LatestFile(filenames, userSubstr).Ok? <==>
        |matched| > 0 && forall j :: 0 <= j < |matched| ==> ExtractDsDate(matched[j]).Ok?
    ensures LatestFile(filenames, userSubstr).Ok? ==>
      var f := LatestFile(filenames, userSubstr).value;
      f in filenames && IsSubstring(userSubstr, f) && ExtractDsDate(f).Ok? &&
      forall g :: g in filenames && IsSubstring(userSubstr, g) ==>
        ExtractDsDate(g).Ok? && ExtractDsDate(g).value <= ExtractDsDate(f).value
  {
    var matched := Matching(filenames, userSubstr);
    if |matched| > 0 {
      MaxByOk(matched, ExtractDsDate);
      if MaxBy(matched, ExtractDsDate).Ok? {
        MaxByLargest(matched, ExtractDsDate);
        var f := MaxBy(matched, ExtractDsDate).value.0;
        forall g | g in filenames && IsSubstring(userSubstr, g)
          ensures ExtractDsDate(g).Ok? && ExtractDsDate(g).value <= ExtractDsDate(f).value
        {
          assert g in matched;
          var j :| 0 <= j < |matched| && matched[j] == g;
        }
      }
    }
  }
}
