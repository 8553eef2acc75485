/** The slice of Python's `str` behaviour the assistant relies on: prefix tests,
    `find`, `count`, `replace`, `split`, `join`, `strip`, `lower`, slicing with
    negative or out-of-range bounds, and decimal rendering of integers.
    Whitespace and case are ASCII only. */
module Text {
  import opened Wrappers

  /** Python's `str.isspace`, restricted to ASCII: the blank, the control
      characters tab to carriage return, and the four information separators
      U+001C to U+001F. */
  predicate IsSpace(c: char) {
    c == ' ' || '\t' <= c <= '\r' || '\U{001C}' <= c <= '\U{001F}'
  }

  predicate StartsWith(s: string, p: string) {
    |p| <= |s| && s[..|p|] == p
  }

  predicate EndsWith(s: string, p: string) {
    |p| <= |s| && s[|s| - |p|..] == p
  }

  /** `p` occurs in `s` starting at index `i`. */
  predicate OccursAt(s: string, p: string, i: nat) {
    i + |p| <= |s| && s[i..i + |p|] == p
  }

  /** Index of the first occurrence of `p` in `s` at or after `from`. */
  function FindFrom(s: string, p: string, from: nat): (r: Option<nat>)
    decreases |s| - from
    ensures r.Some? ==> from <= r.value && OccursAt(s, p, r.value)
    ensures r.Some? ==> forall j :: from <= j < r.value ==> !OccursAt(s, p, j)
    ensures r.None? ==> forall j :: from <= j ==> !OccursAt(s, p, j)
  {
    if from + |p| > |s| then None
    else if s[from..from + |p|] == p then Some(from)
    else FindFrom(s, p, from + 1)
  }

  /** Python's `s.find(p)`, with `None` for -1. */
  function Find(s: string, p: string): Option<nat> {
    FindFrom(s, p, 0)
  }

  /** The first place `p` occurs is what `find` reports. */
  lemma FindFirst(s: string, p: string, i: nat)
    requires OccursAt(s, p, i)
    requires forall j :: 0 <= j < i ==> !OccursAt(s, p, j)
    ensures Find(s, p) == Some(i)
  {
  }

  /** Python's `p in s`. */
  predicate Contains(s: string, p: string) {
    Find(s, p).Some?
  }

  lemma ContainsIffOccurs(s: string, p: string)
    ensures Contains(s, p) <==> exists j :: OccursAt(s, p, j)
  {
  }

  /** Python's `s.count(p)`: non-overlapping occurrences scanned left to
      right, and `|s| + 1` for the empty pattern. */
  function Count(s: string, p: string): nat {
    if |p| == 0 then |s| + 1 else CountNonEmpty(s, p)
  }

  function CountNonEmpty(s: string, p: string): nat
    requires |p| > 0
    decreases |s|
  {
    if |s| < |p| then 0
    else if s[..|p|] == p then 1 + CountNonEmpty(s[|p|..], p)
    else CountNonEmpty(s[1..], p)
  }

  /** Python's `s.replace(p, r)`: every non-overlapping occurrence, left to
      right; the empty pattern inserts `r` around every character. */
  function ReplaceAll(s: string, p: string, r: string): string {
    if |p| == 0 then Interleave(s, r) else ReplaceNonEmpty(s, p, r)
  }

  function Interleave(s: string, r: string): string {
    if |s| == 0 then r else r + [s[0]] + Interleave(s[1..], r)
  }

  function ReplaceNonEmpty(s: string, p: string, r: string): string
    requires |p| > 0
    decreases |s|
  {
    if |s| < |p| then s
    else if s[..|p|] == p then r + ReplaceNonEmpty(s[|p|..], p, r)
    else [s[0]] + ReplaceNonEmpty(s[1..], p, r)
  }

  /** Python's `s.replace(p, r, 1)`: only the first occurrence. */
  function ReplaceFirst(s: string, p: string, r: string): (t: string)
    ensures Find(s, p).Some? ==>
              var i := Find(s, p).value;
              t == s[..i] + r + s[i + |p|..] && (forall j :: 0 <= j < i ==> !OccursAt(s, p, j))
    ensures Find(s, p).None? ==> t == s
    ensures Find(s, p).Some? ==> |t| == |s| - |p| + |r|
  {
    match Find(s, p)
    case Some(i) => s[..i] + r + s[i + |p|..]
    case None => s
  }

  /** A non-empty pattern has a positive count exactly when it occurs. */
  lemma {:induction false} CountNonEmptyPositive(s: string, p: string)
    requires |p| > 0
    ensures CountNonEmpty(s, p) > 0 <==> exists j :: OccursAt(s, p, j)
    decreases |s|
  {
    if |s| < |p| {
      assert forall j :: !OccursAt(s, p, j);
    } else if s[..|p|] == p {
      assert OccursAt(s, p, 0);
    } else {
      CountNonEmptyPositive(s[1..], p);
      if exists j: nat :: OccursAt(s[1..], p, j) {
        var j: nat :| OccursAt(s[1..], p, j);
        assert s[1..][j..j + |p|] == s[j + 1..j + 1 + |p|];
        assert OccursAt(s, p, j + 1);
      }
      if exists j: nat :: OccursAt(s, p, j) {
        var j: nat :| OccursAt(s, p, j);
        assert j != 0;
        assert s[1..][j - 1..j - 1 + |p|] == s[j..j + |p|];
        assert OccursAt(s[1..], p, j - 1);
      }
    }
  }

  /** `count` is positive exactly when `in` holds, so the edit tool's
      "not found" check and its occurrence count agree. */
  lemma CountPositiveIffContains(s: string, p: string)
    ensures Count(s, p) > 0 <==> Contains(s, p)
  {
    ContainsIffOccurs(s, p);
    if |p| > 0 {
      CountNonEmptyPositive(s, p);
    } else {
      assert OccursAt(s, p, 0);
    }
  }

  /** Replacing every occurrence changes the length by the count times the
      difference in pattern length. */
  lemma {:induction false} ReplaceNonEmptyLength(s: string, p: string, r: string)
    requires |p| > 0
    ensures |ReplaceNonEmpty(s, p, r)| == |s| + CountNonEmpty(s, p) * (|r| - |p|)
    decreases |s|
  {
    if |s| < |p| {
    } else if s[..|p|] == p {
      var t := s[|p|..];
      assert ReplaceNonEmpty(s, p, r) == r + ReplaceNonEmpty(t, p, r);
      assert CountNonEmpty(s, p) == 1 + CountNonEmpty(t, p);
      ReplaceNonEmptyLength(t, p, r);
      MulStep(CountNonEmpty(t, p), |r| - |p|);
    } else {
      assert ReplaceNonEmpty(s, p, r) == [s[0]] + ReplaceNonEmpty(s[1..], p, r);
      assert CountNonEmpty(s, p) == CountNonEmpty(s[1..], p);
      ReplaceNonEmptyLength(s[1..], p, r);
    }
  }

  lemma MulStep(c: int, d: int)
    ensures (1 + c) * d == d + c * d
  {
  }

  lemma {:induction false} InterleaveLength(s: string, r: string)
    ensures |Interleave(s, r)| == |s| + (|s| + 1) * |r|
    decreases |s|
  {
    if |s| > 0 {
      InterleaveLength(s[1..], r);
      assert (|s| + 1) * |r| == |r| + |s| * |r|;
    }
  }

  lemma ReplaceAllLength(s: string, p: string, r: string)
    ensures |ReplaceAll(s, p, r)| == |s| + Count(s, p) * (|r| - |p|)
  {
    if |p| == 0 {
      InterleaveLength(s, r);
    } else {
      ReplaceNonEmptyLength(s, p, r);
    }
  }

  /** Replacing a non-empty pattern by itself is the identity. */
  lemma {:induction false} ReplaceNonEmptySelf(s: string, p: string)
    requires |p| > 0
    ensures ReplaceNonEmpty(s, p, p) == s
    decreases |s|
  {
    if |s| < |p| {
    } else if s[..|p|] == p {
      ReplaceNonEmptySelf(s[|p|..], p);
      assert s == s[..|p|] + s[|p|..];
    } else {
      ReplaceNonEmptySelf(s[1..], p);
      assert s == [s[0]] + s[1..];
    }
  }

  /** A pattern that does not occur leaves the text unchanged. */
  lemma {:induction false} ReplaceNonEmptyAbsent(s: string, p: string, r: string)
    requires |p| > 0
    requires CountNonEmpty(s, p) == 0
    ensures ReplaceNonEmpty(s, p, r) == s
    decreases |s|
  {
    if |s| < |p| {
    } else {
      assert s[..|p|] != p;
      ReplaceNonEmptyAbsent(s[1..], p, r);
      assert s == [s[0]] + s[1..];
    }
  }

  /** Dropping the first character shifts the first occurrence by one. */
  lemma FindTail(s: string, p: string, i: nat)
    requires Find(s, p) == Some(i) && i > 0
    ensures Find(s[1..], p) == Some(i - 1)
  {
    var t := s[1..];
    assert t[i - 1..i - 1 + |p|] == s[i..i + |p|];
    assert OccursAt(t, p, i - 1);
    forall j: nat | j < i - 1
      ensures !OccursAt(t, p, j)
    {
      if j + |p| <= |t| {
        assert t[j..j + |p|] == s[j + 1..j + 1 + |p|];
        assert !OccursAt(s, p, j + 1);
      }
    }
  }

  lemma Assoc4(a: string, b: string, c: string, d: string)
    ensures a + ((b + c) + d) == ((a + b) + c) + d
  {
  }

  /** Replacing all occurrences is: the text before the first one, the
      replacement, then replacing all in the rest. */
  lemma ReplaceNonEmptyAtFirst(s: string, p: string, r: string, i: nat)
    requires |p| > 0 && Find(s, p) == Some(i)
    ensures ReplaceNonEmpty(s, p, r) == s[..i] + r + ReplaceNonEmpty(s[i + |p|..], p, r)
  {
    ReplaceNonEmptyFrom(s, p, r, i, 0);
    assert s[0..] == s && s[0..i] == s[..i];
  }

  /** `ReplaceNonEmptyAtFirst` for every suffix that starts at or before the
      first occurrence. */
  lemma {:induction false} ReplaceNonEmptyFrom(s: string, p: string, r: string, i: nat, k: nat)
    requires |p| > 0 && Find(s, p) == Some(i) && k <= i
    ensures ReplaceNonEmpty(s[k..], p, r) == s[k..i] + r + ReplaceNonEmpty(s[i + |p|..], p, r)
    decreases i - k
  {
    if k == i {
      ReplaceNonEmptyAtStart(s[i..], p, r);
      assert s[i..][|p|..] == s[i + |p|..] && s[i..][..0] == s[i..i];
    } else {
      ReplaceNonEmptyFrom(s, p, r, i, k + 1);
      ReplaceNonEmptyShift(s, p, r, i, k);
    }
  }

  lemma ReplaceNonEmptyAtStart(s: string, p: string, r: string)
    requires |p| > 0 && OccursAt(s, p, 0)
    ensures ReplaceNonEmpty(s, p, r) == s[..0] + r + ReplaceNonEmpty(s[|p|..], p, r)
  {
    assert s[..|p|] == p;
    assert s[..0] + r == r;
  }

  /** The step of `ReplaceNonEmptyFrom` at a position before the first occurrence. */
  lemma ReplaceNonEmptyShift(s: string, p: string, r: string, i: nat, k: nat)
    requires |p| > 0 && Find(s, p) == Some(i) && k < i
    requires ReplaceNonEmpty(s[k + 1..], p, r) == s[k + 1..i] + r + ReplaceNonEmpty(s[i + |p|..], p, r)
    ensures ReplaceNonEmpty(s[k..], p, r) == s[k..i] + r + ReplaceNonEmpty(s[i + |p|..], p, r)
  {
    var t := s[k..];
    assert !OccursAt(s, p, k);
    assert t[..|p|] == s[k..k + |p|];
    assert t[1..] == s[k + 1..];
    assert ReplaceNonEmpty(t, p, r) == [s[k]] + ReplaceNonEmpty(s[k + 1..], p, r);
    assert [s[k]] + s[k + 1..i] == s[k..i];
    Assoc4([s[k]], s[k + 1..i], r, ReplaceNonEmpty(s[i + |p|..], p, r));
  }

  /** The count splits the same way: one for the first occurrence, then the
      count in the rest. */
  lemma CountNonEmptyAtFirst(s: string, p: string, i: nat)
    requires |p| > 0 && Find(s, p) == Some(i)
    ensures CountNonEmpty(s, p) == 1 + CountNonEmpty(s[i + |p|..], p)
  {
    CountNonEmptyFrom(s, p, i, 0);
    assert s[0..] == s;
  }

  lemma {:induction false} CountNonEmptyFrom(s: string, p: string, i: nat, k: nat)
    requires |p| > 0 && Find(s, p) == Some(i) && k <= i
    ensures CountNonEmpty(s[k..], p) == 1 + CountNonEmpty(s[i + |p|..], p)
    decreases i - k
  {
    if k == i {
      assert s[i..][..|p|] == p && s[i..][|p|..] == s[i + |p|..];
    } else {
      CountNonEmptyFrom(s, p, i, k + 1);
      assert !OccursAt(s, p, k);
      assert s[k..][..|p|] == s[k..k + |p|];
      assert s[k..][1..] == s[k + 1..];
    }
  }

  /** With exactly one occurrence, replacing all and replacing the first agree. */
  lemma ReplaceAllSingle(s: string, p: string, r: string)
    requires Count(s, p) == 1
    ensures ReplaceAll(s, p, r) == ReplaceFirst(s, p, r)
  {
    CountPositiveIffContains(s, p);
    if |p| == 0 {
      assert s == "";
    } else {
      ReplaceNonEmptySingle(s, p, r, Find(s, p).value);
    }
  }

  lemma ReplaceNonEmptySingle(s: string, p: string, r: string, i: nat)
    requires |p| > 0 && Find(s, p) == Some(i) && CountNonEmpty(s, p) == 1
    ensures ReplaceNonEmpty(s, p, r) == s[..i] + r + s[i + |p|..]
  {
    CountNonEmptyAtFirst(s, p, i);
    ReplaceNonEmptyAtFirst(s, p, r, i);
    ReplaceNonEmptyAbsent(s[i + |p|..], p, r);
  }

  /** Python's `sep.join(xs)`. */
  function Join(xs: seq<string>, sep: string): string {
    if |xs| == 0 then ""
    else if |xs| == 1 then xs[0]
    else xs[0] + sep + Join(xs[1..], sep)
  }

  lemma {:induction false} JoinConcat(xs: seq<string>, ys: seq<string>, sep: string)
    requires |xs| > 0 && |ys| > 0
    ensures Join(xs + ys, sep) == Join(xs, sep) + sep + Join(ys, sep)
    decreases |xs|
  {
    if |xs| > 1 {
      assert (xs + ys)[1..] == xs[1..] + ys;
      JoinConcat(xs[1..], ys, sep);
    } else {
      assert (xs + ys)[1..] == ys;
    }
  }

  lemma OccursShift(a: string, b: string, p: string, j: nat)
    requires OccursAt(b, p, j)
    ensures OccursAt(a + b, p, |a| + j)
  {
    assert (a + b)[|a| + j..|a| + j + |p|] == b[j..j + |p|];
  }

  lemma OccursExtend(a: string, b: string, p: string, j: nat)
    requires OccursAt(a, p, j)
    ensures OccursAt(a + b, p, j)
  {
    assert (a + b)[j..j + |p|] == a[j..j + |p|];
  }

  /** A join begins with its first piece. */
  lemma JoinStartsWithFirst(xs: seq<string>, sep: string)
    requires |xs| > 0
    ensures StartsWith(Join(xs, sep), xs[0])
  {
    if |xs| > 1 {
      assert Join(xs, sep) == xs[0] + (sep + Join(xs[1..], sep));
    }
  }

  /** Each piece of a join occurs in the joined text. */
  lemma {:induction false} JoinContains(xs: seq<string>, sep: string, i: nat)
    requires i < |xs|
    ensures Contains(Join(xs, sep), xs[i])
    decreases |xs|
  {
    ContainsIffOccurs(Join(xs, sep), xs[i]);
    if |xs| == 1 {
      assert OccursAt(xs[0], xs[0], 0);
    } else if i == 0 {
      assert OccursAt(xs[0], xs[0], 0);
      OccursExtend(xs[0], sep + Join(xs[1..], sep), xs[0], 0);
      assert Join(xs, sep) == xs[0] + (sep + Join(xs[1..], sep));
    } else {
      JoinContains(xs[1..], sep, i - 1);
      ContainsIffOccurs(Join(xs[1..], sep), xs[i]);
      var j: nat :| OccursAt(Join(xs[1..], sep), xs[i], j);
      OccursShift(xs[0] + sep, Join(xs[1..], sep), xs[i], j);
    }
  }

  lemma JoinContainsEach(xs: seq<string>, sep: string)
    ensures forall i :: 0 <= i < |xs| ==> Contains(Join(xs, sep), xs[i])
  {
    forall i | 0 <= i < |xs|
      ensures Contains(Join(xs, sep), xs[i])
    {
      JoinContains(xs, sep, i);
    }
  }

  /** A text contains what it ends with. */
  lemma ContainsEnd(a: string, x: string)
    ensures Contains(a + x, x)
  {
    assert (a + x)[|a|..|a| + |x|] == x;
    assert OccursAt(a + x, x, |a|);
    ContainsIffOccurs(a + x, x);
  }

  /** Appending text keeps what a text contains. */
  lemma ContainsExtend(s: string, p: string, t: string)
    requires Contains(s, p)
    ensures Contains(s + t, p)
  {
    ContainsIffOccurs(s, p);
    var j :| OccursAt(s, p, j);
    OccursExtend(s, t, p, j);
    ContainsIffOccurs(s + t, p);
  }

  /** A first occurrence stays first when text is appended. */
  lemma FindPrefix(a: string, b: string, p: string, i: nat)
    requires Find(a, p) == Some(i)
    ensures Find(a + b, p) == Some(i)
  {
    OccursExtend(a, b, p, i);
    forall j: nat | j < i
      ensures !OccursAt(a + b, p, j)
    {
      assert !OccursAt(a, p, j);
      assert (a + b)[j..j + |p|] == a[j..j + |p|];
    }
  }

  /** Python's `s.split(c)` for a one-character separator: never empty. */
  function Split(s: string, c: char): (r: seq<string>)
    decreases |s|
    ensures |r| > 0
  {
    match Find(s, [c])
    case None => [s]
    case Some(i) => [s[..i]] + Split(s[i + 1..], c)
  }

  /** A text holding the separator splits into at least two pieces. */
  lemma SplitPresent(s: string, c: char)
    requires c in s
    ensures |Split(s, c)| >= 2
  {
    var k :| 0 <= k < |s| && s[k] == c;
    assert OccursAt(s, [c], k);
  }

  lemma FindCharAbsent(s: string, c: char)
    requires c !in s
    ensures Find(s, [c]).None?
  {
    forall j: nat | j + 1 <= |s|
      ensures !OccursAt(s, [c], j)
    {
      assert s[j..j + 1] == [s[j]];
    }
  }

  lemma FindCharAfter(a: string, c: char, b: string)
    requires c !in a
    ensures Find(a + [c] + b, [c]) == Some(|a|)
  {
    var s := a + [c] + b;
    assert OccursAt(s, [c], |a|) by {
      assert s[|a|..|a| + 1] == [c];
    }
    forall j: nat | j < |a|
      ensures !OccursAt(s, [c], j)
    {
      assert s[j..j + 1] == [a[j]];
    }
  }

  /** Splitting and re-joining on the same separator gives back the text. */
  lemma {:induction false} JoinSplit(s: string, c: char)
    ensures Join(Split(s, c), [c]) == s
    decreases |s|
  {
    match Find(s, [c])
    case None =>
    case Some(i) =>
      JoinSplit(s[i + 1..], c);
      assert s[i..i + 1] == [c];
      var rest := Split(s[i + 1..], c);
      assert Split(s, c) == [s[..i]] + rest;
      assert ([s[..i]] + rest)[1..] == rest;
      assert s == s[..i] + [c] + s[i + 1..];
  }

  /** Joining separator-free pieces and splitting again gives back the pieces. */
  lemma {:induction false} SplitJoin(xs: seq<string>, c: char)
    requires |xs| > 0
    requires forall k :: 0 <= k < |xs| ==> c !in xs[k]
    ensures Split(Join(xs, [c]), c) == xs
    decreases |xs|
  {
    if |xs| == 1 {
      FindCharAbsent(xs[0], c);
    } else {
      var rest := Join(xs[1..], [c]);
      FindCharAfter(xs[0], c, rest);
      var s := xs[0] + [c] + rest;
      assert s[..|xs[0]|] == xs[0];
      assert s[|xs[0]| + 1..] == rest;
      SplitJoin(xs[1..], c);
      assert xs == [xs[0]] + xs[1..];
    }
  }

  /** No piece of a split holds the separator. */
  lemma {:induction false} SplitPiecesFree(s: string, c: char)
    ensures forall k :: 0 <= k < |Split(s, c)| ==> c !in Split(s, c)[k]
    decreases |s|
  {
    match Find(s, [c])
    case None =>
      NoCharFindNone(s, c);
    case Some(i) =>
      SplitPiecesFree(s[i + 1..], c);
      forall j | 0 <= j < i
        ensures s[j] != c
      {
        assert !OccursAt(s, [c], j);
        assert s[j..j + 1] == [s[j]];
      }
      assert c !in s[..i];
  }

  lemma SplitAtFirst(s: string, c: char, i: nat)
    requires Find(s, [c]) == Some(i)
    ensures Split(s, c) == [s[..i]] + Split(s[i + 1..], c)
  {
  }

  lemma NoCharFindNone(a: string, c: char)
    requires Find(a, [c]).None?
    ensures c !in a
  {
    forall j | 0 <= j < |a|
      ensures a[j] != c
    {
      assert a[j..j + 1] == [a[j]];
      assert !OccursAt(a, [c], j);
    }
  }

  /** Splitting around one separator splits both sides independently. */
  lemma {:induction false} SplitConcat(a: string, c: char, b: string)
    ensures Split(a + [c] + b, c) == Split(a, c) + Split(b, c)
    decreases |a|
  {
    if Find(a, [c]).None? {
      SplitConcatNoSep(a, c, b);
    } else {
      var i := Find(a, [c]).value;
      SplitConcat(a[i + 1..], c, b);
      SplitConcatStep(a, c, b, i);
    }
  }

  lemma SplitConcatNoSep(a: string, c: char, b: string)
    requires Find(a, [c]).None?
    ensures Split(a + [c] + b, c) == Split(a, c) + Split(b, c)
  {
    var s := a + [c] + b;
    NoCharFindNone(a, c);
    FindCharAfter(a, c, b);
    SplitAtFirst(s, c, |a|);
    assert s[..|a|] == a && s[|a| + 1..] == b;
  }

  /** The step of `SplitConcat` when `a` itself holds the separator. */
  lemma SplitConcatStep(a: string, c: char, b: string, i: nat)
    requires Find(a, [c]) == Some(i)
    requires Split(a[i + 1..] + [c] + b, c) == Split(a[i + 1..], c) + Split(b, c)
    ensures Split(a + [c] + b, c) == Split(a, c) + Split(b, c)
  {
    SplitConcatHead(a, c, b, i);
    SplitAtFirst(a, c, i);
    ConcatAssoc([a[..i]], Split(a[i + 1..], c), Split(b, c));
  }

  /** A separator inside `a` cuts `a + [c] + b` at the same place. */
  lemma SplitConcatHead(a: string, c: char, b: string, i: nat)
    requires Find(a, [c]) == Some(i)
    ensures Split(a + [c] + b, c) == [a[..i]] + Split(a[i + 1..] + [c] + b, c)
  {
    var s := a + [c] + b;
    FindPrefix(a, [c] + b, [c], i);
    assert a + ([c] + b) == s;
    SplitAtFirst(s, c, i);
    assert s[..i] == a[..i];
    assert s[i + 1..] == a[i + 1..] + [c] + b;
  }

  lemma ConcatAssoc<T>(x: seq<T>, y: seq<T>, z: seq<T>)
    ensures x + (y + z) == (x + y) + z
  {
  }

  /** Every text of `xs` split on `c`, the pieces run together. */
  function SplitEach(xs: seq<string>, c: char): seq<string> {
    if |xs| == 0 then [] else Split(xs[0], c) + SplitEach(xs[1..], c)
  }

  lemma {:induction false} SplitEachAppend(a: seq<string>, b: seq<string>, c: char)
    ensures SplitEach(a + b, c) == SplitEach(a, c) + SplitEach(b, c)
    decreases |a|
  {
    if |a| == 0 {
      assert a + b == b;
    } else {
      assert (a + b)[1..] == a[1..] + b;
      SplitEachAppend(a[1..], b, c);
    }
  }

  /** Joining on a separator and splitting again splits every piece. */
  lemma {:induction false} SplitJoinAll(xs: seq<string>, c: char)
    requires |xs| > 0
    ensures Split(Join(xs, [c]), c) == SplitEach(xs, c)
    decreases |xs|
  {
    if |xs| > 1 {
      SplitConcat(xs[0], c, Join(xs[1..], [c]));
      assert Join(xs, [c]) == xs[0] + [c] + Join(xs[1..], [c]);
      SplitJoinAll(xs[1..], c);
    }
  }

  /** Python's `s.lstrip()`. */
  function LStrip(s: string): (r: string)
    ensures |r| <= |s| && r == s[|s| - |r|..]
    ensures forall k :: 0 <= k < |s| - |r| ==> IsSpace(s[k])
    ensures |r| > 0 ==> !IsSpace(r[0])
  {
    if |s| > 0 && IsSpace(s[0]) then LStrip(s[1..]) else s
  }

  /** Python's `s.rstrip()`. */
  function RStrip(s: string): (r: string)
    ensures |r| <= |s| && r == s[..|r|]
    ensures forall k :: |r| <= k < |s| ==> IsSpace(s[k])
    ensures |r| > 0 ==> !IsSpace(r[|r| - 1])
  {
    if |s| > 0 && IsSpace(s[|s| - 1]) then RStrip(s[..|s| - 1]) else s
  }

  /** Python's `s.strip()`. */
  function Strip(s: string): string {
    RStrip(LStrip(s))
  }

  /** Each text stripped. */
  function StripEach(xs: seq<string>): (r: seq<string>)
    ensures |r| == |xs|
    ensures forall k :: 0 <= k < |r| ==> r[k] == Strip(xs[k])
  {
    if |xs| == 0 then [] else [Strip(xs[0])] + StripEach(xs[1..])
  }

  lemma {:induction false} LStripSpacePrefix(w: string, s: string)
    requires forall k :: 0 <= k < |w| ==> IsSpace(w[k])
    ensures LStrip(w + s) == LStrip(s)
    decreases |w|
  {
    if |w| > 0 {
      assert (w + s)[0] == w[0];
      assert (w + s)[1..] == w[1..] + s;
      LStripSpacePrefix(w[1..], s);
    } else {
      assert w + s == s;
    }
  }

  lemma {:induction false} RStripSpaceSuffix(s: string, w: string)
    requires forall k :: 0 <= k < |w| ==> IsSpace(w[k])
    ensures RStrip(s + w) == RStrip(s)
    decreases |w|
  {
    if |w| > 0 {
      assert (s + w)[|s + w| - 1] == w[|w| - 1];
      assert (s + w)[..|s + w| - 1] == s + w[..|w| - 1];
      RStripSpaceSuffix(s, w[..|w| - 1]);
    } else {
      assert s + w == s;
    }
  }

  /** Stripping leading whitespace of a concatenation either keeps the tail
      whole, or (when the head is all whitespace) strips into the tail. */
  lemma {:induction false} LStripAppend(s: string, w: string)
    ensures LStrip(s + w) == LStrip(s) + w || (LStrip(s) == "" && LStrip(s + w) == LStrip(w))
    decreases |s|
  {
    if |s| == 0 {
      assert s + w == w;
    } else if IsSpace(s[0]) {
      assert (s + w)[1..] == s[1..] + w;
      LStripAppend(s[1..], w);
    }
  }

  /** Whitespace added around a text does not survive `strip`. */
  lemma StripPadded(w1: string, s: string, w2: string)
    requires forall k :: 0 <= k < |w1| ==> IsSpace(w1[k])
    requires forall k :: 0 <= k < |w2| ==> IsSpace(w2[k])
    ensures Strip(w1 + s + w2) == Strip(s)
  {
    assert w1 + s + w2 == w1 + (s + w2);
    LStripSpacePrefix(w1, s + w2);
    var l := LStrip(s);
    LStripAppend(s, w2);
    if LStrip(s + w2) == l + w2 {
      RStripSpaceSuffix(l, w2);
    } else {
      LStripSpacePrefix(w2, "");
      assert w2 + "" == w2;
    }
  }

  /** A stripped, non-empty text starts and ends with a non-space. */
  lemma StrippedEnds(s: string)
    requires Strip(s) == s && s != ""
    ensures !IsSpace(s[0]) && !IsSpace(s[|s| - 1])
  {
    var l := LStrip(s);
    assert |RStrip(l)| <= |l| <= |s|;
    assert l == s;
  }

  /** Text that starts and ends with a non-space is its own strip. */
  lemma StripKeeps(s: string)
    requires s != "" && !IsSpace(s[0]) && !IsSpace(s[|s| - 1])
    ensures Strip(s) == s
  {
  }

  /** `strip` is idempotent. */
  lemma StripStripped(s: string)
    ensures Strip(Strip(s)) == Strip(s)
  {
    var l := LStrip(s);
    var r := RStrip(l);
    if r != "" {
      assert r[0] == l[0];
      StripKeeps(r);
    }
  }

  /** Every character of `strip(s)` is a character of `s`. */
  lemma StripChars(s: string, c: char)
    requires c !in s
    ensures c !in Strip(s)
  {
    var l := LStrip(s);
    var r := RStrip(l);
    assert forall k :: 0 <= k < |r| ==> r[k] == l[k] == s[|s| - |l| + k];
  }

  /** Python's `s.lower()` on ASCII letters. */
  function LowerChar(c: char): char {
    if 'A' <= c <= 'Z' then (c as int + 32) as char else c
  }

  function Lower(s: string): (r: string)
    ensures |r| == |s|
    ensures forall k :: 0 <= k < |s| ==> r[k] == LowerChar(s[k])
  {
    if |s| == 0 then "" else [LowerChar(s[0])] + Lower(s[1..])
  }

  lemma LowerIdempotent(s: string)
    ensures Lower(Lower(s)) == Lower(s)
  {
  }

  function UpperChar(c: char): char {
    if 'a' <= c <= 'z' then (c as int - 32) as char else c
  }

  /** Python's `s.upper()` on ASCII letters. */
  function Upper(s: string): (r: string)
    ensures |r| == |s|
    ensures forall k :: 0 <= k < |s| ==> r[k] == UpperChar(s[k])
  {
    if |s| == 0 then "" else [UpperChar(s[0])] + Upper(s[1..])
  }

  function DigitChar(d: nat): (c: char)
    requires d < 10
    ensures '0' <= c <= '9'
  {
    ['0', '1', '2', '3', '4', '5', '6', '7', '8', '9'][d]
  }

  /** Python's `str(n)` for a natural number. */
  function NatToString(n: nat): (r: string)
    ensures |r| > 0
    ensures n >= 10 ==> |r| >= 2
    ensures forall k :: 0 <= k < |r| ==> '0' <= r[k] <= '9'
    decreases n
  {
    if n < 10 then [DigitChar(n)] else NatToString(n / 10) + [DigitChar(n % 10)]
  }

  lemma DigitCharInjective(a: nat, b: nat)
    requires a < 10 && b < 10 && DigitChar(a) == DigitChar(b)
    ensures a == b
  {
  }

  /** Distinct numbers render as distinct decimal strings. */
  lemma {:induction false} NatToStringInjective(a: nat, b: nat)
    requires NatToString(a) == NatToString(b)
    ensures a == b
    decreases a
  {
    var sa, sb := NatToString(a), NatToString(b);
    if a < 10 && b < 10 {
      DigitCharInjective(a, b);
    } else if a >= 10 && b >= 10 {
      assert sa[|sa| - 1] == DigitChar(a % 10);
      assert sb[|sb| - 1] == DigitChar(b % 10);
      DigitCharInjective(a % 10, b % 10);
      assert sa[..|sa| - 1] == NatToString(a / 10);
      assert sb[..|sb| - 1] == NatToString(b / 10);
      NatToStringInjective(a / 10, b / 10);
    }
  }

  /** Python's `str(i)` for any integer. */
  function IntToString(i: int): string {
    if i < 0 then "-" + NatToString(-i) else NatToString(i)
  }

  /** A Python slice bound after negative-index and out-of-range adjustment. */
  function SliceBound(k: int, n: nat): (r: nat)
    ensures r <= n
  {
    if k < 0 then (if k + n < 0 then 0 else k + n) else if k > n then n else k
  }

  /** Python's `s[i:j]`. */
  function PySlice<T>(s: seq<T>, i: int, j: int): (r: seq<T>)
    ensures 0 <= i <= j <= |s| ==> r == s[i..j]
  {
    var lo, hi := SliceBound(i, |s|), SliceBound(j, |s|);
    if lo < hi then s[lo..hi] else []
  }

  /** Python's `s[:n]` for `n >= 0`. */
  function Take<T>(s: seq<T>, n: nat): (r: seq<T>)
    ensures |r| == if n < |s| then n else |s|
    ensures r == s[..|r|]
  {
    if n < |s| then s[..n] else s
  }

  function Repeat(c: char, n: nat): (r: string)
    ensures |r| == n
    ensures forall k :: 0 <= k < n ==> r[k] == c
  {
    if n == 0 then "" else [c] + Repeat(c, n - 1)
  }

  /** Python's `s.rjust(w)` (and `f"{n:w}"` for a number). */
  function RJust(s: string, w: nat): (r: string)
    ensures |r| == if |s| < w then w else |s|
    ensures EndsWith(r, s)
  {
    if |s| < w then Repeat(' ', w - |s|) + s else s
  }

  /** Python's `s.ljust(w)`. */
  function LJust(s: string, w: nat): (r: string)
    ensures |r| == if |s| < w then w else |s|
    ensures StartsWith(r, s)
  {
    if |s| < w then s + Repeat(' ', w - |s|) else s
  }

  /** Python's `s.center(w)`: CPython puts the odd padding space on the left
      only when both the padding and the width are odd. */
  function Center(s: string, w: nat): (r: string)
    ensures |r| == if |s| < w then w else |s|
  {
    if |s| >= w then s
    else
      var marg := w - |s|;
      var left := marg / 2 + (if marg % 2 == 1 && w % 2 == 1 then 1 else 0);
      Repeat(' ', left) + s + Repeat(' ', marg - left)
  }

  predicate IsLetter(c: char) {
    ('a' <= c <= 'z') || ('A' <= c <= 'Z')
  }

  /** A character as title-casing leaves it, given whether the character
      before it is a letter. */
  function TitleChar(c: char, afterLetter: bool): char {
    if !IsLetter(c) then c else if afterLetter then LowerChar(c) else UpperChar(c)
  }

  /** Whether the character before index `k` is a letter; `before` stands
      for the character before the start. */
  predicate AfterLetterAt(s: string, k: nat, before: bool)
    requires k < |s|
  {
    if k == 0 then before else IsLetter(s[k - 1])
  }

  /** Title-casing from a position whose previous character is a letter
      exactly when `afterLetter` holds. */
  function TitleFrom(s: string, afterLetter: bool): (r: string)
    ensures |r| == |s|
    ensures forall k :: 0 <= k < |s| ==> r[k] == TitleChar(s[k], AfterLetterAt(s, k, afterLetter))
  {
    if |s| == 0 then ""
    else
      var tail := TitleFrom(s[1..], IsLetter(s[0]));
      var r := [TitleChar(s[0], afterLetter)] + tail;
      forall k | 1 <= k < |s|
        ensures r[k] == TitleChar(s[k], AfterLetterAt(s, k, afterLetter))
      {
        assert s[1..][k - 1] == s[k];
        assert AfterLetterAt(s[1..], k - 1, IsLetter(s[0])) == AfterLetterAt(s, k, afterLetter);
      }
      r
  }

  /** Python's `s.title()` on ASCII: a letter is upper-cased when it starts
      a run of letters and lower-cased otherwise; other characters stay. */
  function Title(s: string): string {
    TitleFrom(s, false)
  }

  lemma CaseChar(c: char)
    ensures IsLetter(LowerChar(c)) == IsLetter(c) && IsLetter(UpperChar(c)) == IsLetter(c)
    ensures LowerChar(LowerChar(c)) == LowerChar(c) && LowerChar(UpperChar(c)) == LowerChar(c)
    ensures UpperChar(UpperChar(c)) == UpperChar(c) && UpperChar(LowerChar(c)) == UpperChar(c)
  {
  }

  /** Title-casing changes case only, and doing it twice changes nothing
      more. */
  lemma TitleIdempotent(s: string)
    ensures Lower(Title(s)) == Lower(s)
    ensures Title(Title(s)) == Title(s)
  {
    var t := Title(s);
    forall k | 0 <= k < |s|
      ensures IsLetter(t[k]) == IsLetter(s[k])
      ensures LowerChar(t[k]) == LowerChar(s[k])
    {
      CaseChar(s[k]);
      assert t[k] == TitleChar(s[k], AfterLetterAt(s, k, false));
    }
    forall k | 0 <= k < |s|
      ensures Title(t)[k] == t[k]
    {
      CaseChar(s[k]);
      if k > 0 {
        CaseChar(s[k - 1]);
      }
    }
  }

  /** The text after the last `c` (all of `s` when there is none). */
  function AfterLast(s: string, c: char): (r: string)
    ensures c !in r
    ensures EndsWith(s, r)
    ensures |r| < |s| ==> s[|s| - |r| - 1] == c
  {
    if |s| == 0 || s[|s| - 1] == c then ""
    else
      var r := AfterLast(s[..|s| - 1], c);
      assert s[..|s| - 1][|s| - 1 - |r|..] == r;
      r + [s[|s| - 1]]
  }

  lemma {:induction false} AfterLastTail(s: string, c: char, i: nat)
    requires i < |s| && s[i] == c
    ensures AfterLast(s, c) == AfterLast(s[i + 1..], c)
    decreases |s|
  {
    var t := s[i + 1..];
    if |t| > 0 && s[|s| - 1] != c {
      var s' := s[..|s| - 1];
      var t' := t[..|t| - 1];
      assert t' == s'[i + 1..];
      assert t[|t| - 1] == s[|s| - 1];
      AfterLastTail(s', c, i);
      assert AfterLast(s, c) == AfterLast(s', c) + [s[|s| - 1]];
      assert AfterLast(t, c) == AfterLast(t', c) + [t[|t| - 1]];
    }
  }

  lemma {:induction false} AfterLastAbsent(s: string, c: char)
    requires c !in s
    ensures AfterLast(s, c) == s
    decreases |s|
  {
    if |s| > 0 {
      AfterLastAbsent(s[..|s| - 1], c);
    }
  }

  /** `s.split(c)[-1]` is the text after the last `c`. */
  lemma {:induction false} SplitLast(s: string, c: char)
    ensures Split(s, c)[|Split(s, c)| - 1] == AfterLast(s, c)
    decreases |s|
  {
    match Find(s, [c])
    case None =>
      NoCharFindNone(s, c);
      AfterLastAbsent(s, c);
    case Some(i) =>
      SplitLast(s[i + 1..], c);
      SplitLastStep(s, c, i);
  }

  lemma SplitLastStep(s: string, c: char, i: nat)
    requires Find(s, [c]) == Some(i)
    requires Split(s[i + 1..], c)[|Split(s[i + 1..], c)| - 1] == AfterLast(s[i + 1..], c)
    ensures Split(s, c)[|Split(s, c)| - 1] == AfterLast(s, c)
  {
    assert s[i] == c by { assert s[i..i + 1] == [c]; }
    AfterLastTail(s, c, i);
    SplitAtFirst(s, c, i);
    LastOfCons(s[..i], Split(s[i + 1..], c));
  }

  lemma LastOfCons<T>(x: T, t: seq<T>)
    requires |t| > 0
    ensures ([x] + t)[|[x] + t| - 1] == t[|t| - 1]
  {
  }
}
