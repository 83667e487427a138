// `parse_input_qubit` (tergite_autocalibration/tools/cli/config/parsers.py):
// the qubit list typed by a user — "q01, q03-q05 q07" — becomes a sorted
// list of distinct qubit names. The input is split on `,\s*|\s+`, ranges
// `pA-pB` expand to zero-padded names, and the collected names are sorted by
// (first two characters, integer value of the rest).
module Parsers {

  import opened Common

  // ---------------------------------------------------------------------
  // Tokenising: `re.split(r",\s*|\s+", qubit_str.strip())`.

  predicate IsSeparator(ch: char) { ch == ',' || IsSpace(ch) }

  /** Length of the run of whitespace that starts `t`. */
  function SpaceRun(t: string): (n: nat)
    ensures n <= |t|
    ensures forall k :: 0 <= k < n ==> IsSpace(t[k])
    ensures n < |t| ==> !IsSpace(t[n])
  {
    if |t| == 0 || !IsSpace(t[0]) then 0 else 1 + SpaceRun(t[1..])
  }

  /** Index of the first separator character, or |s| when there is none. */
  function FirstSeparator(s: string): (i: nat)
    ensures i <= |s|
    ensures i < |s| ==> IsSeparator(s[i])
    ensures forall k :: 0 <= k < i ==> !IsSeparator(s[k])
  {
    if |s| == 0 then 0
    else if IsSeparator(s[0]) then 0
    else 1 + FirstSeparator(s[1..])
  }

  /** `str.strip()`: leading and trailing whitespace removed. */
  function Strip(s: string): (r: string)
    ensures |r| > 0 ==> !IsSpace(r[0]) && !IsSpace(r[|r| - 1])
    decreases |s|
  {
    if |s| > 0 && IsSpace(s[0]) then Strip(s[1..])
    else if |s| > 0 && IsSpace(s[|s| - 1]) then Strip(s[..|s| - 1])
    else s
  }

  /** End of the separator match that starts at the separator `s[i]`: a comma
      takes the whitespace after it (`,\s*`), whitespace takes its whole run
      (`\s+`). */
  function MatchEnd(s: string, i: nat): (j: nat)
    requires i < |s| && IsSeparator(s[i])
    ensures i < j <= |s|
  {
    if s[i] == ',' then i + 1 + SpaceRun(s[i + 1..]) else i + SpaceRun(s[i..])
  }

  /** `re.split(r",\s*|\s+", s)`: the pieces between separator matches,
      empty pieces included. */
  function SplitTokens(s: string): (tokens: seq<string>)
    ensures |tokens| >= 1
    decreases |s|
  {
    var i := FirstSeparator(s);
    if i == |s| then [s] else [s[..i]] + SplitTokens(s[MatchEnd(s, i)..])
  }

  /** The characters of `s` that are not separators, in order. */
  function NonSeparators(s: string): string
  {
    if |s| == 0 then [] else (if IsSeparator(s[0]) then [] else [s[0]]) + NonSeparators(s[1..])
  }

  lemma {:induction false} NonSeparatorsAppend(a: string, b: string)
    ensures NonSeparators(a + b) == NonSeparators(a) + NonSeparators(b)
    decreases |a|
  {
    if |a| > 0 {
      assert (a + b)[1..] == a[1..] + b;
      NonSeparatorsAppend(a[1..], b);
    } else {
      assert a + b == b;
    }
  }

  lemma {:induction false} NonSeparatorsPlain(s: string)
    requires forall k :: 0 <= k < |s| ==> !IsSeparator(s[k])
    ensures NonSeparators(s) == s
    decreases |s|
  {
    if |s| > 0 {
      NonSeparatorsPlain(s[1..]);
    }
  }

  lemma {:induction false} NonSeparatorsGone(s: string)
    requires forall k :: 0 <= k < |s| ==> IsSeparator(s[k])
    ensures NonSeparators(s) == []
    decreases |s|
  {
    if |s| > 0 {
      NonSeparatorsGone(s[1..]);
    }
  }

  /** No piece of the split holds a comma or whitespace. */
  lemma {:induction false} TokensAvoidSeparators(s: string)
    ensures forall t :: t in SplitTokens(s) ==> forall k :: 0 <= k < |t| ==> !IsSeparator(t[k])
    decreases |s|
  {
    var i := FirstSeparator(s);
    if i < |s| {
      TokensAvoidSeparators(s[MatchEnd(s, i)..]);
    }
  }

  /** A separator match consists of separator characters only. */
  lemma MatchEndSeparators(s: string, i: nat)
    requires i < |s| && IsSeparator(s[i])
    ensures forall k :: 0 <= k < MatchEnd(s, i) - i ==> IsSeparator(s[i..MatchEnd(s, i)][k])
  {
    var j := MatchEnd(s, i);
    if s[i] == ',' {
      var n := SpaceRun(s[i + 1..]);
      assert forall k :: 1 <= k < j - i ==> s[i..j][k] == s[i + 1..][k - 1];
    } else {
      assert forall k :: 0 <= k < j - i ==> s[i..j][k] == s[i..][k];
    }
  }

  /** Removing the separators from the text up to the end of the first
      match leaves the piece before that match. */
  lemma NonSeparatorsThroughMatch(s: string, i: nat)
    requires i < |s| && IsSeparator(s[i])
    requires forall k :: 0 <= k < i ==> !IsSeparator(s[k])
    ensures NonSeparators(s[..MatchEnd(s, i)]) == s[..i]
  {
    var j := MatchEnd(s, i);
    var head, sep := s[..i], s[i..j];
    MatchEndSeparators(s, i);
    NonSeparatorsGone(sep);
    NonSeparatorsPlain(head);
    assert s[..j] == head + sep;
    NonSeparatorsAppend(head, sep);
  }

  /** Removing the separators from `s` keeps the piece before the first
      match and whatever follows the match. */
  lemma NonSeparatorsAroundMatch(s: string, i: nat)
    requires i < |s| && IsSeparator(s[i])
    requires forall k :: 0 <= k < i ==> !IsSeparator(s[k])
    ensures NonSeparators(s) == s[..i] + NonSeparators(s[MatchEnd(s, i)..])
  {
    NonSeparatorsThroughMatch(s, i);
    NonSeparatorsSplitAt(s, MatchEnd(s, i));
  }

  /** Removing the separators works piecewise on any cut of `s`. */
  lemma NonSeparatorsSplitAt(s: string, j: nat)
    requires j <= |s|
    ensures NonSeparators(s) == NonSeparators(s[..j]) + NonSeparators(s[j..])
  {
    assert s == s[..j] + s[j..];
    NonSeparatorsAppend(s[..j], s[j..]);
  }

  /** The pieces, put back together, are the input with every comma and
      whitespace character removed: no other character is lost or moved. */
  lemma {:induction false} TokensKeepCharacters(s: string)
    ensures Flatten(SplitTokens(s)) == NonSeparators(s)
    decreases |s|
  {
    var i := FirstSeparator(s);
    var tokens := SplitTokens(s);
    if i == |s| {
      NonSeparatorsPlain(s);
      assert tokens == [s];
      assert Flatten(tokens) == s + Flatten(tokens[1..]);
    } else {
      var rest := s[MatchEnd(s, i)..];
      TokensKeepCharacters(rest);
      assert tokens == [s[..i]] + SplitTokens(rest);
      assert Flatten(tokens) == s[..i] + Flatten(tokens[1..]);
      NonSeparatorsAroundMatch(s, i);
    }
  }

  // ---------------------------------------------------------------------
  // Ranges: `start, end = token.split("-")`, the letters that open `start`,
  // the first digit run of each side, and `f"{prefix}{i:02}"` from the
  // smaller number to the larger.

  /** Length of the run of ASCII letters that opens `s` (`re.match(r"[a-zA-Z]+")`). */
  function LetterRun(s: string): (n: nat)
    ensures n <= |s|
    ensures forall k :: 0 <= k < n ==> IsLetter(s[k])
    ensures n < |s| ==> !IsLetter(s[n])
  {
    if |s| == 0 || !IsLetter(s[0]) then 0 else 1 + LetterRun(s[1..])
  }

  /** Length of the run of digits that opens `s`. */
  function DigitRun(s: string): (n: nat)
    ensures n <= |s|
    ensures forall k :: 0 <= k < n ==> IsDigit(s[k])
    ensures n < |s| ==> !IsDigit(s[n])
  {
    if |s| == 0 || !IsDigit(s[0]) then 0 else 1 + DigitRun(s[1..])
  }

  /** `int(re.search(r"\d+", s).group())`: the value of the first run of
      digits; with no digit at all `.group()` is called on None. */
  function FirstNumber(s: string): (r: Result<nat>)
    ensures r.Err? <==> forall k :: 0 <= k < |s| ==> !IsDigit(s[k])
    ensures r.Err? ==> r.error == AttributeError
  {
    if |s| == 0 then Err(AttributeError)
    else if IsDigit(s[0]) then Ok(DigitsValue(s[..DigitRun(s)]))
    else FirstNumber(s[1..])
  }

  /** The names `prefix + f"{i:02}"` for i from `lo` to `hi`. */
  function Names(prefix: string, lo: nat, hi: nat): (names: seq<string>)
    requires lo <= hi
  {
    seq(hi - lo + 1, k requires 0 <= k <= hi - lo => prefix + Pad2(lo + k))
  }

  /** Name k carries the prefix and reads back as the number lo + k, so the
      names are pairwise different. */
  lemma NamesSpec(prefix: string, lo: nat, hi: nat)
    requires lo <= hi
    ensures |Names(prefix, lo, hi)| == hi - lo + 1
    ensures forall k :: 0 <= k < hi - lo + 1 ==>
      Names(prefix, lo, hi)[k][..|prefix|] == prefix &&
      AllDigits(Names(prefix, lo, hi)[k][|prefix|..]) &&
      DigitsValue(Names(prefix, lo, hi)[k][|prefix|..]) == lo + k
    ensures forall i, j :: 0 <= i < j < hi - lo + 1 ==> Names(prefix, lo, hi)[i] != Names(prefix, lo, hi)[j]
  {
    var names := Names(prefix, lo, hi);
    forall k | 0 <= k < hi - lo + 1
      ensures names[k][..|prefix|] == prefix && names[k][|prefix|..] == Pad2(lo + k)
      ensures DigitsValue(Pad2(lo + k)) == lo + k
    {
      assert names[k] == prefix + Pad2(lo + k);
      Pad2RoundTrip(lo + k);
    }
    forall i, j | 0 <= i < j < hi - lo + 1
      ensures names[i] != names[j]
    {
      assert names[i][|prefix|..] != names[j][|prefix|..];
    }
  }

  /** `start, end = token.split("-")`, the prefix of `start` and the two
      numbers, in the order the source evaluates them. */
  function RangeBounds(token: string): (r: Result<(string, nat, nat)>)
  {
    var parts := Split(token, '-');
    if |parts| != 2 then Err(ValueError("wrong number of values to unpack"))
    else
      var start := parts[0];
      var prefix := start[..LetterRun(start)];
      if |prefix| == 0 then Err(AttributeError)
      else
        var a := FirstNumber(start);
        if a.Err? then Err(a.error)
        else
          var b := FirstNumber(parts[1]);
          if b.Err? then Err(b.error)
          else Ok((prefix, a.value, b.value))
  }

  /** One range token expanded, from the smaller number to the larger. */
  function ExpandRange(token: string): (r: Result<seq<string>>)
  {
    var bounds := RangeBounds(token);
    if bounds.Err? then Err(bounds.error)
    else
      var (prefix, a, b) := bounds.value;
      if a > b then Ok(Names(prefix, b, a)) else Ok(Names(prefix, a, b))
  }

  /** A range expands iff it has exactly one '-', its first end opens with a
      letter and both ends hold a digit. It then gives one name per number
      between the two ends, both included and in either order, each the
      letters opening the first end followed by the zero-padded number; the
      letters of the second end play no part. */
  lemma ExpandRangeSpec(token: string)
    ensures var parts := Split(token, '-');
      ExpandRange(token).Ok? <==>
        |parts| == 2 && LetterRun(parts[0]) > 0 && FirstNumber(parts[0]).Ok? && FirstNumber(parts[1]).Ok?
    ensures ExpandRange(token).Ok? ==>
      var parts := Split(token, '-');
      var prefix := parts[0][..LetterRun(parts[0])];
      var a := FirstNumber(parts[0]).value;
      var b := FirstNumber(parts[1]).value;
      var lo := if a <= b then a else b;
      var hi := if a <= b then b else a;
      var names := ExpandRange(token).value;
      |names| == hi - lo + 1 &&
      (forall k :: 0 <= k < |names| ==>
        names[k][..|prefix|] == prefix && AllDigits(names[k][|prefix|..]) &&
        DigitsValue(names[k][|prefix|..]) == lo + k) &&
      (forall i, j :: 0 <= i < j < |names| ==> names[i] != names[j])
  {
    if ExpandRange(token).Ok? {
      var (prefix, a, b) := RangeBounds(token).value;
      if a > b { NamesSpec(prefix, b, a); } else { NamesSpec(prefix, a, b); }
    }
  }

  // ---------------------------------------------------------------------
  // The token loop.

  /** What the loop over `tokens` has appended to `result` once it has gone
      through all of them, or the exception one of them raised. */
  function Collected(tokens: seq<string>): Result<seq<string>>
  {
    CollectedBy(tokens, ExpandRange)
  }

  /** The loop with the range expansion as a parameter; the properties of
      the loop below hold whatever the expansion does. */
  function CollectedBy(tokens: seq<string>, expand: string -> Result<seq<string>>): Result<seq<string>>
  {
    if |tokens| == 0 then Ok([])
    else
      var init := CollectedBy(tokens[..|tokens| - 1], expand);
      var token := tokens[|tokens| - 1];
      if init.Err? then init
      else if IsRange(token) then
        var names := expand(token);
        if names.Err? then Err(names.error) else Ok(init.value + names.value)
      else if |token| > 0 then Ok(init.value + [Strip(token)])
      else init
  }

  predicate IsRange(token: string) { IsSubstring("-", token) }

  /** The loop succeeds iff every range token expands. */
  lemma {:induction false} CollectedOk(tokens: seq<string>, expand: string -> Result<seq<string>>)
    ensures CollectedBy(tokens, expand).Ok? <==>
      forall i :: 0 <= i < |tokens| && IsRange(tokens[i]) ==> expand(tokens[i]).Ok?
  {
    if |tokens| > 0 {
      var init := tokens[..|tokens| - 1];
      CollectedOk(init, expand);
      assert forall i :: 0 <= i < |init| ==> init[i] == tokens[i];
    }
  }

  /** A token's contribution to the loop's result. */
  predicate Contributes(token: string, x: string, expand: string -> Result<seq<string>>)
    requires IsRange(token) ==> expand(token).Ok?
  {
    if IsRange(token) then x in expand(token).value else |token| > 0 && x == Strip(token)
  }

  /** One more token: the loop's result gains exactly that token's
      contribution. */
  lemma CollectedLast(tokens: seq<string>, x: string, expand: string -> Result<seq<string>>)
    requires |tokens| > 0 && CollectedBy(tokens, expand).Ok?
    ensures CollectedBy(tokens[..|tokens| - 1], expand).Ok?
    ensures IsRange(tokens[|tokens| - 1]) ==> expand(tokens[|tokens| - 1]).Ok?
    ensures x in CollectedBy(tokens, expand).value <==>
      x in CollectedBy(tokens[..|tokens| - 1], expand).value || Contributes(tokens[|tokens| - 1], x, expand)
  {
  }

  /** Everything the loop collected comes from some token. */
  lemma {:induction false} CollectedSound(tokens: seq<string>, x: string, expand: string -> Result<seq<string>>)
    requires CollectedBy(tokens, expand).Ok? && x in CollectedBy(tokens, expand).value
    ensures exists i :: (0 <= i < |tokens| && (IsRange(tokens[i]) ==> expand(tokens[i]).Ok?) &&
      Contributes(tokens[i], x, expand))
  {
    var n := |tokens| - 1;
    var init := tokens[..n];
    CollectedLast(tokens, x, expand);
    if x in CollectedBy(init, expand).value {
      CollectedSound(init, x, expand);
      var i :| 0 <= i < n && (IsRange(init[i]) ==> expand(init[i]).Ok?) && Contributes(init[i], x, expand);
      assert init[i] == tokens[i];
    } else {
      assert Contributes(tokens[n], x, expand);
    }
  }

  /** Every token's contribution is collected. */
  lemma {:induction false} CollectedComplete(tokens: seq<string>, i: nat, x: string, expand: string -> Result<seq<string>>)
    requires CollectedBy(tokens, expand).Ok? && i < |tokens|
    requires IsRange(tokens[i]) ==> expand(tokens[i]).Ok?
    requires Contributes(tokens[i], x, expand)
    ensures x in CollectedBy(tokens, expand).value
  {
    var n := |tokens| - 1;
    var init := tokens[..n];
    CollectedLast(tokens, x, expand);
    if i < n {
      assert init[i] == tokens[i];
      CollectedComplete(init, i, x, expand);
    }
  }

  /** A successful loop holds exactly the expansions of the range tokens and
      the other non-empty tokens, stripped; empty tokens contribute nothing. */
  lemma CollectedMembers(tokens: seq<string>, x: string)
    requires Collected(tokens).Ok?
    ensures forall i :: 0 <= i < |tokens| && IsRange(tokens[i]) ==> ExpandRange(tokens[i]).Ok?
    ensures x in Collected(tokens).value <==> exists i :: 0 <= i < |tokens| && Contributes(tokens[i], x, ExpandRange)
  {
    CollectedOk(tokens, ExpandRange);
    if x in Collected(tokens).value {
      CollectedSound(tokens, x, ExpandRange);
    }
    if exists i :: 0 <= i < |tokens| && Contributes(tokens[i], x, ExpandRange) {
      var i :| 0 <= i < |tokens| && Contributes(tokens[i], x, ExpandRange);
      CollectedComplete(tokens, i, x, ExpandRange);
    }
  }

  /** `for token in tokens: ...`, appending to `result`. */
  method CollectTokens(tokens: seq<string>) returns (r: Result<seq<string>>)
    ensures r == Collected(tokens)
  {
    var result: seq<string> := [];
    var i := 0;
    while i < |tokens|
      invariant 0 <= i <= |tokens|
      invariant CollectedBy(tokens[..i], ExpandRange) == Ok(result)
    {
      var token := tokens[i];
      assert tokens[..i + 1][..i] == tokens[..i];
      if IsRange(token) {
        var names := ExpandRange(token);
        if names.Err? {
          CollectedPrefix(tokens, i + 1, ExpandRange);
          return Err(names.error);
        }
        result := result + names.value;
      } else if |token| > 0 {
        result := result + [Strip(token)];
      }
      i := i + 1;
    }
    assert tokens[..i] == tokens;
    return Ok(result);
  }

  /** Once a prefix has raised, the loop's outcome is that exception. */
  lemma {:induction false} CollectedPrefix(tokens: seq<string>, n: nat, expand: string -> Result<seq<string>>)
    requires n <= |tokens|
    requires CollectedBy(tokens[..n], expand).Err?
    ensures CollectedBy(tokens, expand) == CollectedBy(tokens[..n], expand)
    decreases |tokens| - n
  {
    if n < |tokens| {
      assert tokens[..n + 1][..n] == tokens[..n];
      CollectedPrefix(tokens, n + 1, expand);
    } else {
      assert tokens[..n] == tokens;
    }
  }

  // ---------------------------------------------------------------------
  // `sorted(set(result), key=lambda x: (x[:2], int(x[2:])))`.

  datatype Key = Key(head: string, number: nat)

  /** The sort key; `int` of a non-numeric tail raises ValueError. */
  function KeyOf(x: string): (r: Result<Key>)
    ensures r.Ok? <==> |x| > 2 && AllDigits(x[2..])
  {
    var n := ParseInt(x[if |x| < 2 then |x| else 2..]);
    if n.Err? then Err(n.error) else Ok(Key(x[..if |x| < 2 then |x| else 2], n.value))
  }

  /** Python's `<` on strings: lexicographic by character code. */
  predicate StrLess(a: string, b: string)
  {
    if |a| == 0 then |b| > 0
    else if |b| == 0 then false
    else a[0] < b[0] || (a[0] == b[0] && StrLess(a[1..], b[1..]))
  }

  /** Python's `<=` on the key tuples. */
  predicate KeyLe(a: Key, b: Key)
  {
    StrLess(a.head, b.head) || (a.head == b.head && a.number <= b.number)
  }

  lemma {:induction false} StrLessTotal(a: string, b: string)
    ensures StrLess(a, b) || a == b || StrLess(b, a)
  {
    if |a| > 0 && |b| > 0 && a[0] == b[0] {
      StrLessTotal(a[1..], b[1..]);
      if a[1..] == b[1..] {
        assert a == [a[0]] + a[1..] && b == [b[0]] + b[1..];
      }
    }
  }

  lemma KeyLeTotal(a: Key, b: Key)
    ensures KeyLe(a, b) || KeyLe(b, a)
  {
    StrLessTotal(a.head, b.head);
  }

  /** A name paired with its key. */
  type Keyed = (string, Key)

  predicate Sorted(s: seq<Keyed>)
  {
    forall i :: 0 < i < |s| ==> KeyLe(s[i - 1].1, s[i].1)
  }

  predicate NamesDistinct(s: seq<Keyed>)
  {
    forall i, j :: 0 <= i < j < |s| ==> s[i].0 != s[j].0
  }

  function Insert(x: Keyed, s: seq<Keyed>): (r: seq<Keyed>)
    ensures |r| == |s| + 1
  {
    if |s| == 0 then [x]
    else if KeyLe(x.1, s[0].1) then [x] + s
    else [s[0]] + Insert(x, s[1..])
  }

  lemma {:induction false} InsertMembers(x: Keyed, s: seq<Keyed>)
    ensures forall p :: p in Insert(x, s) <==> p == x || p in s
  {
    if |s| > 0 && !KeyLe(x.1, s[0].1) {
      InsertMembers(x, s[1..]);
      assert s == [s[0]] + s[1..];
    }
  }

  lemma {:induction false} InsertSorted(x: Keyed, s: seq<Keyed>)
    requires Sorted(s)
    ensures Sorted(Insert(x, s))
    ensures |s| > 0 ==> Insert(x, s)[0] == x || Insert(x, s)[0] == s[0]
  {
    if |s| > 0 && !KeyLe(x.1, s[0].1) {
      KeyLeTotal(x.1, s[0].1);
      InsertSorted(x, s[1..]);
    }
  }

  lemma {:induction false} InsertDistinct(x: Keyed, s: seq<Keyed>)
    requires NamesDistinct(s)
    requires forall p :: p in s ==> p.0 != x.0
    ensures NamesDistinct(Insert(x, s))
  {
    if |s| > 0 && !KeyLe(x.1, s[0].1) {
      InsertDistinct(x, s[1..]);
      InsertMembers(x, s[1..]);
      var r := Insert(x, s);
      assert r[1..] == Insert(x, s[1..]);
      forall j | 1 <= j < |r| ensures r[0].0 != r[j].0 {
        assert r[j] in Insert(x, s[1..]);
      }
    }
  }

  /** Insertion sort of the keyed names. */
  function SortByKey(s: seq<Keyed>): (r: seq<Keyed>)
    ensures |r| == |s|
  {
    if |s| == 0 then [] else Insert(s[0], SortByKey(s[1..]))
  }

  /** The sort returns its input, ordered by key; names stay distinct. */
  lemma {:induction false} SortByKeySpec(s: seq<Keyed>)
    ensures Sorted(SortByKey(s))
    ensures forall p :: p in SortByKey(s) <==> p in s
    ensures NamesDistinct(s) ==> NamesDistinct(SortByKey(s))
  {
    if |s| > 0 {
      SortByKeySpec(s[1..]);
      InsertSorted(s[0], SortByKey(s[1..]));
      InsertMembers(s[0], SortByKey(s[1..]));
      assert s == [s[0]] + s[1..];
      if NamesDistinct(s) {
        forall p | p in SortByKey(s[1..]) ensures p.0 != s[0].0 {
          var j :| 0 <= j < |s[1..]| && s[1..][j] == p;
          assert s[j + 1] == p;
        }
        InsertDistinct(s[0], SortByKey(s[1..]));
      }
    }
  }

  /** `set(result)`, kept in order of first appearance. */
  function Dedup(xs: seq<string>): (r: seq<string>)
    ensures forall x :: x in r <==> x in xs
    ensures Distinct(r)
  {
    if |xs| == 0 then []
    else
      var init := Dedup(xs[..|xs| - 1]);
      var last := xs[|xs| - 1];
      assert xs == xs[..|xs| - 1] + [last];
      if last in init then init else init + [last]
  }

  /** The names paired with their keys, or the first key that raised. */
  function KeyAll(xs: seq<string>): (r: Result<seq<Keyed>>)
    ensures r.Ok? <==> forall i :: 0 <= i < |xs| ==> KeyOf(xs[i]).Ok?
    ensures r.Ok? ==> (|r.value| == |xs| &&
      forall i :: 0 <= i < |xs| ==> r.value[i] == (xs[i], KeyOf(xs[i]).value))
  {
    if |xs| == 0 then Ok([])
    else
      var k := KeyOf(xs[0]);
      var rest := KeyAll(xs[1..]);
      if k.Err? then Err(k.error)
      else if rest.Err? then
        assert exists i :: 1 <= i < |xs| && KeyOf(xs[i]).Err? by {
          var j :| 0 <= j < |xs[1..]| && KeyOf(xs[1..][j]).Err?;
          assert xs[j + 1] == xs[1..][j];
        }
        Err(rest.error)
      else
        assert forall i :: 1 <= i < |xs| ==> xs[i] == xs[1..][i - 1];
        Ok([(xs[0], k.value)] + rest.value)
  }

  function NamesOf(s: seq<Keyed>): (xs: seq<string>)
    ensures |xs| == |s| && forall i :: 0 <= i < |s| ==> xs[i] == s[i].0
  {
    seq(|s|, i requires 0 <= i < |s| => s[i].0)
  }

  function SortedUnique(xs: seq<string>): Result<seq<string>>
  {
    var keyed := KeyAll(Dedup(xs));
    if keyed.Err? then Err(keyed.error) else Ok(NamesOf(SortByKey(keyed.value)))
  }

  /** The final expression raises iff some collected name has no numeric
      tail after its first two characters; otherwise it returns every
      collected name exactly once, ordered by the key. */
  lemma SortedUniqueSpec(xs: seq<string>)
    ensures SortedUnique(xs).Ok? <==> forall x :: x in xs ==> KeyOf(x).Ok?
    ensures SortedUnique(xs).Ok? ==>
      var out := SortedUnique(xs).value;
      Distinct(out) &&
      (forall x :: x in out <==> x in xs) &&
      (forall i :: 0 <= i < |out| ==> KeyOf(out[i]).Ok?) &&
      (forall i :: 0 < i < |out| ==> KeyLe(KeyOf(out[i - 1]).value, KeyOf(out[i]).value))
  {
    var d := Dedup(xs);
    var keyed := KeyAll(d);
    if keyed.Ok? {
      var k := keyed.value;
      assert NamesDistinct(k);
      SortByKeySpec(k);
      var sorted := SortByKey(k);
      var out := NamesOf(sorted);
      forall i | 0 <= i < |sorted|
        ensures KeyOf(sorted[i].0) == Ok(sorted[i].1)
      {
        assert sorted[i] in k;
      }
      forall x ensures x in out <==> x in xs {
        if x in out {
          var i :| 0 <= i < |out| && out[i] == x;
          assert sorted[i] in k;
        }
        if x in xs {
          var i :| 0 <= i < |d| && d[i] == x;
          assert k[i] in sorted;
        }
      }
    } else {
      var i :| 0 <= i < |d| && KeyOf(d[i]).Err?;
      assert d[i] in xs;
    }
  }

  // ---------------------------------------------------------------------
  // The whole parser.

  function ParseQubits(qubitStr: string): Result<seq<string>>
  {
    var collected := Collected(SplitTokens(Strip(qubitStr)));
    if collected.Err? then collected else SortedUnique(collected.value)
  }

  /** The parser fails iff a range token does not expand or a collected name
      has no key; when it succeeds, a name is in the result iff some token of
      the stripped, split input contributes it. */
  lemma ParseQubitsSpec(qubitStr: string, x: string)
    ensures var tokens := SplitTokens(Strip(qubitStr));
      ParseQubits(qubitStr).Ok? <==>
        (forall i :: 0 <= i < |tokens| && IsRange(tokens[i]) ==> ExpandRange(tokens[i]).Ok?) &&
        Collected(tokens).Ok? && (forall y :: y in Collected(tokens).value ==> KeyOf(y).Ok?)
    ensures var tokens := SplitTokens(Strip(qubitStr));
      ParseQubits(qubitStr).Ok? ==>
        (x in ParseQubits(qubitStr).value <==>
          exists i :: 0 <= i < |tokens| && Contributes(tokens[i], x, ExpandRange))
  {
    var tokens := SplitTokens(Strip(qubitStr));
    CollectedOk(tokens, ExpandRange);
    if Collected(tokens).Ok? {
      SortedUniqueSpec(Collected(tokens).value);
      CollectedMembers(tokens, x);
    }
  }

  /** `parse_input_qubit`: the distinct names, ordered by key. */
  method ParseInputQubit(qubitStr: string) returns (r: Result<seq<string>>)
    ensures r == ParseQubits(qubitStr)
    ensures r.Ok? ==> (Distinct(r.value) &&
      (forall i :: 0 <= i < |r.value| ==> KeyOf(r.value[i]).Ok?) &&
      (forall i :: 0 < i < |r.value| ==> KeyLe(KeyOf(r.value[i - 1]).value, KeyOf(r.value[i]).value)))
  {
    var tokens := SplitTokens(Strip(qubitStr));
    var collected := CollectTokens(tokens);
    if collected.Err? {
      return collected;
    }
    SortedUniqueSpec(collected.value);
    r := SortedUnique(collected.value);
  }
}
