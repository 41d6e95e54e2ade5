/** The Python and JavaScript string operations the scripts rely on:
    `"".join`, `sep.join`, `str.split` / `String.prototype.split` with a
    non-empty separator, `str.replace`, `in`, `str.strip` and the ordering
    `sorted` uses on strings. Strings are sequences of Unicode scalar values. */
module Strings {

  /** `"".join(parts)`: the parts one after another. */
  function Concat(parts: seq<string>): string
  {
    if parts == [] then "" else parts[0] + Concat(parts[1..])
  }

  lemma {:induction false} ConcatAppend(a: seq<string>, b: seq<string>)
    ensures Concat(a + b) == Concat(a) + Concat(b)
  {
    if a == [] {
      assert a + b == b;
    } else {
      assert (a + b)[1..] == a[1..] + b;
      ConcatAppend(a[1..], b);
    }
  }

  /** Where the `i`-th part begins in `Concat(parts)`. */
  function Offset(parts: seq<string>, i: nat): nat
    requires i <= |parts|
  {
    |Concat(parts[..i])|
  }

  /** `frag` is found in `doc` starting at index `at`. */
  predicate Occurs(doc: string, frag: string, at: nat)
  {
    at + |frag| <= |doc| && doc[at..at + |frag|] == frag
  }

  /** Every part of a concatenation is found at its offset, and the next
      part starts right after it: the parts appear in list order. */
  lemma {:induction false} ConcatPlaces(parts: seq<string>, i: nat)
    requires i < |parts|
    ensures Occurs(Concat(parts), parts[i], Offset(parts, i))
    ensures Offset(parts, i + 1) == Offset(parts, i) + |parts[i]|
  {
    var before, after := parts[..i], parts[i + 1..];
    assert parts == before + [parts[i]] + after;
    assert parts[..i + 1] == before + [parts[i]];
    ConcatAppend(before + [parts[i]], after);
    ConcatAppend(before, [parts[i]]);
    assert Concat([parts[i]]) == parts[i] by {
      assert [parts[i]][1..] == [];
    }
  }

  /** Later parts start no earlier. */
  lemma {:induction false} OffsetMonotone(parts: seq<string>, i: nat, j: nat)
    requires i <= j <= |parts|
    ensures Offset(parts, i) <= Offset(parts, j)
  {
    assert parts[..j] == parts[..i] + parts[i..j];
    ConcatAppend(parts[..i], parts[i..j]);
  }

  /** `sep.join(parts)`. */
  function Join(parts: seq<string>, sep: string): string
  {
    if parts == [] then ""
    else if |parts| == 1 then parts[0]
    else parts[0] + sep + Join(parts[1..], sep)
  }

  /** `s.startswith(p)`. */
  predicate StartsWith(s: string, p: string)
  {
    |p| <= |s| && s[..|p|] == p
  }

  /** `p in s`: `p` occurs in `s` at some position. */
  predicate Contains(s: string, p: string)
    decreases |s|
  {
    StartsWith(s, p) || (s != [] && Contains(s[1..], p))
  }

  lemma {:induction false} ContainsLength(s: string, p: string)
    requires Contains(s, p)
    ensures |p| <= |s|
    decreases |s|
  {
    if !StartsWith(s, p) {
      ContainsLength(s[1..], p);
    }
  }

  lemma {:induction false} ContainsChar(s: string, c: char)
    requires Contains(s, [c])
    ensures c in s
    decreases |s|
  {
    if StartsWith(s, [c]) {
      assert s[0] == [c][0];
    } else {
      ContainsChar(s[1..], c);
      assert s[1..] <= s[1..];
    }
  }

  /** `s.split(p)` (and JavaScript's `s.split(p)`) for a non-empty
      separator: the pieces between the leftmost non-overlapping
      occurrences of `p`; there is always at least one piece. */
  function SplitOn(s: string, p: string): (parts: seq<string>)
    requires p != []
    ensures parts != []
    decreases |s|
  {
    if |s| < |p| then [s]
    else if s[..|p|] == p then [""] + SplitOn(s[|p|..], p)
    else
      var rest := SplitOn(s[1..], p);
      [[s[0]] + rest[0]] + rest[1..]
  }

  lemma JoinConsChar(c: char, parts: seq<string>, sep: string)
    requires parts != []
    ensures Join([[c] + parts[0]] + parts[1..], sep) == [c] + Join(parts, sep)
  {
    var q := [[c] + parts[0]] + parts[1..];
    assert q[1..] == parts[1..];
  }

  /** Joining the pieces of a split with the same separator gives the
      string back. */
  lemma {:induction false} JoinSplitOn(s: string, p: string)
    requires p != []
    ensures Join(SplitOn(s, p), p) == s
    decreases |s|
  {
    if |s| < |p| {
    } else if s[..|p|] == p {
      var rest := SplitOn(s[|p|..], p);
      var parts := [""] + rest;
      assert SplitOn(s, p) == parts;
      assert |parts| >= 2 && parts[0] == "" && parts[1..] == rest;
      assert Join(parts, p) == p + Join(rest, p);
      JoinSplitOn(s[|p|..], p);
      assert s == s[..|p|] + s[|p|..];
    } else {
      var rest := SplitOn(s[1..], p);
      assert SplitOn(s, p) == [[s[0]] + rest[0]] + rest[1..];
      JoinSplitOn(s[1..], p);
      JoinConsChar(s[0], rest, p);
      assert s == [s[0]] + s[1..];
    }
  }

  /** The first piece of a split is a prefix of the string. */
  lemma {:induction false} SplitOnHeadIsPrefix(s: string, p: string)
    requires p != []
    ensures SplitOn(s, p)[0] <= s
    decreases |s|
  {
    if |s| < |p| {
    } else if s[..|p|] == p {
    } else {
      SplitOnHeadIsPrefix(s[1..], p);
      assert s == [s[0]] + s[1..];
    }
  }

  /** No piece of a split contains the separator; in particular
      `s.split(p)[0]` is the text before the first occurrence of `p`. */
  lemma {:induction false} SplitOnPiecesFree(s: string, p: string)
    requires p != []
    ensures forall i :: 0 <= i < |SplitOn(s, p)| ==> !Contains(SplitOn(s, p)[i], p)
    decreases |s|
  {
    var parts := SplitOn(s, p);
    if |s| < |p| {
      if Contains(s, p) {
        ContainsLength(s, p);
      }
    } else if s[..|p|] == p {
      SplitOnPiecesFree(s[|p|..], p);
      assert parts == [""] + SplitOn(s[|p|..], p);
      assert !Contains("", p);
    } else {
      var rest := SplitOn(s[1..], p);
      SplitOnPiecesFree(s[1..], p);
      SplitOnHeadIsPrefix(s[1..], p);
      var head := [s[0]] + rest[0];
      assert head <= s by {
        assert s == [s[0]] + s[1..];
      }
      assert !StartsWith(head, p);
      assert head[1..] == rest[0];
      assert !Contains(head, p);
      forall i | 1 <= i < |parts|
        ensures !Contains(parts[i], p)
      {
        assert parts[i] == rest[i];
      }
    }
  }

  /** A string without the separator splits into itself alone. */
  lemma {:induction false} SplitOnAbsent(s: string, p: string)
    requires p != [] && !Contains(s, p)
    ensures SplitOn(s, p) == [s]
    decreases |s|
  {
    if |s| < |p| {
    } else {
      assert !StartsWith(s, p);
      SplitOnAbsent(s[1..], p);
      assert s == [s[0]] + s[1..];
    }
  }

  /** Splitting on one character: a leading piece free of that character
      comes off as the first part. */
  lemma {:induction false} SplitOnAfterFree(x: string, c: char, y: string)
    requires c !in x
    ensures SplitOn(x + [c] + y, [c]) == [x] + SplitOn(y, [c])
    decreases |x|
  {
    var s := x + [c] + y;
    if x == [] {
      assert s == [c] + y;
      assert s[..1] == [c];
      assert s[1..] == y;
    } else {
      assert s[..1] == [x[0]];
      assert s[1..] == x[1..] + [c] + y;
      SplitOnAfterFree(x[1..], c, y);
      assert [x[0]] + x[1..] == x;
    }
  }

  /** Splitting at the first occurrence of a one-character separator. */
  lemma SplitOnAt(s: string, k: nat, c: char)
    requires k < |s| && s[k] == c && c !in s[..k]
    ensures SplitOn(s, [c]) == [s[..k]] + SplitOn(s[k + 1..], [c])
  {
    assert s == s[..k] + [c] + s[k + 1..];
    SplitOnAfterFree(s[..k], c, s[k + 1..]);
  }

  /** Splitting on one character undoes joining with it, when no part
      contains that character. */
  lemma {:induction false} SplitOnJoin(parts: seq<string>, c: char)
    requires parts != []
    requires forall i :: 0 <= i < |parts| ==> c !in parts[i]
    ensures SplitOn(Join(parts, [c]), [c]) == parts
    decreases |parts|
  {
    if |parts| == 1 {
      if Contains(parts[0], [c]) {
        ContainsChar(parts[0], c);
      }
      SplitOnAbsent(parts[0], [c]);
    } else {
      SplitOnJoin(parts[1..], c);
      SplitOnAfterFree(parts[0], c, Join(parts[1..], [c]));
      assert parts == [parts[0]] + parts[1..];
    }
  }

  /** `s.replace(p, n)` for a non-empty pattern: every leftmost
      non-overlapping occurrence of `p`, scanning left to right, becomes `n`. */
  function Replace(s: string, p: string, n: string): string
    requires p != []
    decreases |s|
  {
    if |s| < |p| then s
    else if s[..|p|] == p then n + Replace(s[|p|..], p, n)
    else [s[0]] + Replace(s[1..], p, n)
  }

  /** Python's own identity `s.replace(p, n) == n.join(s.split(p))`. */
  lemma {:induction false} ReplaceIsJoinOfSplit(s: string, p: string, n: string)
    requires p != []
    ensures Replace(s, p, n) == Join(SplitOn(s, p), n)
    decreases |s|
  {
    if |s| < |p| {
    } else if s[..|p|] == p {
      var rest := SplitOn(s[|p|..], p);
      ReplaceIsJoinOfSplit(s[|p|..], p, n);
      assert ([""] + rest)[1..] == rest;
    } else {
      var rest := SplitOn(s[1..], p);
      ReplaceIsJoinOfSplit(s[1..], p, n);
      JoinConsChar(s[0], rest, n);
    }
  }

  /** Replacing a pattern that does not occur changes nothing. */
  lemma ReplaceAbsent(s: string, p: string, n: string)
    requires p != [] && !Contains(s, p)
    ensures Replace(s, p, n) == s
  {
    ReplaceIsJoinOfSplit(s, p, n);
    SplitOnAbsent(s, p);
  }

  /** Python's `str.isspace` for one character. */
  predicate IsSpace(c: char)
  {
    c == ' ' || ('\t' <= c <= '\r') || ('\U{1C}' <= c <= '\U{1F}')
    || c == '\U{85}' || c == '\U{A0}' || c == '\U{1680}'
    || ('\U{2000}' <= c <= '\U{200A}') || c == '\U{2028}' || c == '\U{2029}'
    || c == '\U{202F}' || c == '\U{205F}' || c == '\U{3000}'
  }

  predicate AllSpace(s: string)
  {
    forall i :: 0 <= i < |s| ==> IsSpace(s[i])
  }

  function TrimStart(s: string): string
    decreases |s|
  {
    if s != [] && IsSpace(s[0]) then TrimStart(s[1..]) else s
  }

  function TrimEnd(s: string): string
    decreases |s|
  {
    if s != [] && IsSpace(s[|s| - 1]) then TrimEnd(s[..|s| - 1]) else s
  }

  /** `s.strip()`. */
  function Strip(s: string): string
  {
    TrimEnd(TrimStart(s))
  }

  lemma {:induction false} TrimStartShape(s: string)
    ensures |TrimStart(s)| <= |s|
    ensures TrimStart(s) == s[|s| - |TrimStart(s)|..]
    ensures AllSpace(s[..|s| - |TrimStart(s)|])
    ensures TrimStart(s) != [] ==> !IsSpace(TrimStart(s)[0])
    decreases |s|
  {
    if s != [] && IsSpace(s[0]) {
      TrimStartShape(s[1..]);
      var k := |s| - |TrimStart(s)|;
      assert s[..k] == [s[0]] + s[1..][..k - 1];
    }
  }

  lemma {:induction false} TrimEndShape(s: string)
    ensures |TrimEnd(s)| <= |s|
    ensures TrimEnd(s) == s[..|TrimEnd(s)|]
    ensures AllSpace(s[|TrimEnd(s)|..])
    ensures TrimEnd(s) != [] ==> !IsSpace(TrimEnd(s)[|TrimEnd(s)| - 1])
    decreases |s|
  {
    if s != [] && IsSpace(s[|s| - 1]) {
      var t := s[..|s| - 1];
      TrimEndShape(t);
      var k := |TrimEnd(s)|;
      assert s[k..] == t[k..] + [s[|s| - 1]];
    }
  }

  /** What `strip` removes is whitespace on both ends, and what it keeps
      is the middle of the string, beginning and ending with a character
      that is not whitespace. */
  lemma StripShape(s: string)
    ensures |TrimStart(s)| <= |s|
    ensures var r, lead := Strip(s), |s| - |TrimStart(s)|;
      && Occurs(s, r, lead)
      && AllSpace(s[..lead])
      && AllSpace(s[lead + |r|..])
      && (r != [] ==> !IsSpace(r[0]) && !IsSpace(r[|r| - 1]))
  {
    var t := TrimStart(s);
    var r := Strip(s);
    var lead := |s| - |t|;
    TrimStartShape(s);
    TrimEndShape(t);
    assert r == t[..|r|];
    assert s[lead..lead + |r|] == t[..|r|];
    assert s[lead + |r|..] == t[|r|..];
    if r != [] {
      assert r[0] == t[0];
    }
  }

  /** Stripping twice is stripping once. */
  lemma StripIdempotent(s: string)
    ensures Strip(Strip(s)) == Strip(s)
  {
    StripShape(s);
    var r := Strip(s);
    assert TrimStart(r) == r;
    assert TrimEnd(r) == r;
  }

  /** Python's `<` on strings: code point by code point, a proper prefix
      coming first. */
  predicate StrLess(a: string, b: string)
    decreases |a|
  {
    b != [] && (a == [] || a[0] < b[0] || (a[0] == b[0] && StrLess(a[1..], b[1..])))
  }

  /** No string sorts before itself. */
  lemma {:induction false} StrLessIrreflexive(s: string)
    ensures !StrLess(s, s)
    decreases |s|
  {
    if s != [] {
      StrLessIrreflexive(s[1..]);
    }
  }

  /** Inside `head + Concat(parts) + tail`, every part is found at its
      offset shifted by `|head|`. */
  lemma FramedPlaces(head: string, parts: seq<string>, tail: string, i: nat)
    requires i < |parts|
    ensures Occurs(head + Concat(parts) + tail, parts[i], |head| + Offset(parts, i))
    ensures Offset(parts, i + 1) == Offset(parts, i) + |parts[i]|
  {
    ConcatPlaces(parts, i);
    OccursFramed(head, Concat(parts), tail, parts[i], Offset(parts, i));
  }

  /** Appending each part in turn to `prefix`, as a loop of `s += part`. */
  method AppendAll(prefix: string, parts: seq<string>) returns (s: string)
    ensures s == prefix + Concat(parts)
  {
    s := prefix;
    var i := 0;
    while i < |parts|
      invariant 0 <= i <= |parts|
      invariant s == prefix + Concat(parts[..i])
    {
      var part := parts[i];
      s := s + part;
      assert parts[..i + 1] == parts[..i] + [part];
      assert Concat([part]) == part by { assert [part][1..] == []; }
      ConcatAppend(parts[..i], [part]);
      i := i + 1;
    }
    assert parts[..i] == parts;
  }

  /** Two parts of a concatenation appear in their list order. */
  lemma ConcatOrder(parts: seq<string>, i: nat, j: nat)
    requires i < j < |parts|
    ensures Occurs(Concat(parts), parts[i], Offset(parts, i))
    ensures Occurs(Concat(parts), parts[j], Offset(parts, j))
    ensures Offset(parts, i) + |parts[i]| <= Offset(parts, j)
  {
    ConcatPlaces(parts, i);
    ConcatPlaces(parts, j);
    OffsetMonotone(parts, i + 1, j);
  }

  /** Two parts of a framed concatenation appear in their list order. */
  lemma FramedOrder(head: string, parts: seq<string>, tail: string, i: nat, j: nat)
    requires i < j < |parts|
    ensures Occurs(head + Concat(parts) + tail, parts[i], |head| + Offset(parts, i))
    ensures Occurs(head + Concat(parts) + tail, parts[j], |head| + Offset(parts, j))
    ensures Offset(parts, i) + |parts[i]| <= Offset(parts, j)
  {
    FramedPlaces(head, parts, tail, i);
    FramedPlaces(head, parts, tail, j);
    OffsetMonotone(parts, i + 1, j);
  }

  /** The middle of three strings is found right after the first. */
  lemma OccursBetween(x: string, y: string, z: string)
    ensures Occurs(x + y + z, y, |x|)
  {
    assert (x + y + z)[|x|..|x| + |y|] == y;
  }

  /** A fragment found in `doc` is found in `pre + doc`, shifted by `|pre|`. */
  lemma OccursShift(pre: string, doc: string, frag: string, at: nat)
    requires Occurs(doc, frag, at)
    ensures Occurs(pre + doc, frag, |pre| + at)
  {
    assert (pre + doc)[|pre| + at..|pre| + at + |frag|] == doc[at..at + |frag|];
  }

  /** A fragment found in `doc` is still found after appending to it. */
  lemma OccursExtend(doc: string, post: string, frag: string, at: nat)
    requires Occurs(doc, frag, at)
    ensures Occurs(doc + post, frag, at)
  {
    assert (doc + post)[at..at + |frag|] == doc[at..at + |frag|];
  }

  /** In `sep.join(parts)` the `i`-th part begins after the parts before it
      and the `i` separators that follow them. */
  lemma {:induction false} JoinPlaces(parts: seq<string>, sep: string, i: nat)
    requires i < |parts|
    ensures Occurs(Join(parts, sep), parts[i], Offset(parts, i) + i * |sep|)
    decreases |parts|
  {
    if i == 0 {
      assert parts[..0] == [];
      if |parts| > 1 {
        OccursExtend(parts[0], sep + Join(parts[1..], sep), parts[0], 0);
        assert Join(parts, sep) == parts[0] + (sep + Join(parts[1..], sep));
      }
    } else {
      var rest := parts[1..];
      JoinPlaces(rest, sep, i - 1);
      OffsetTail(parts, i);
      var at := Offset(rest, i - 1) + (i - 1) * |sep|;
      OccursShift(parts[0] + sep, Join(rest, sep), parts[i], at);
      assert |parts[0] + sep| + at == Offset(parts, i) + i * |sep| by {
        assert (i - 1) * |sep| + |sep| == i * |sep|;
      }
    }
  }

  /** Offsets past the first part are offsets in the rest, shifted by it. */
  lemma OffsetTail(parts: seq<string>, i: nat)
    requires 0 < i <= |parts|
    ensures Offset(parts, i) == |parts[0]| + Offset(parts[1..], i - 1)
  {
    assert parts[..i] == [parts[0]] + parts[1..][..i - 1];
  }

  /** Appending one more part to a string built as `prefix + Concat(parts)`. */
  lemma AppendPart(prefix: string, parts: seq<string>, part: string)
    ensures prefix + Concat(parts) + part == prefix + Concat(parts + [part])
  {
    ConcatAppend(parts, [part]);
    assert Concat([part]) == part by { assert [part][1..] == []; }
  }

  /** `a` is found at `at` and `b` at `bt`, and `a` ends before `b` begins. */
  predicate Precedes(doc: string, a: string, at: nat, b: string, bt: nat)
  {
    Occurs(doc, a, at) && Occurs(doc, b, bt) && at + |a| <= bt
  }

  lemma FramedPrecedes(head: string, parts: seq<string>, tail: string, i: nat, a: string, j: nat, b: string)
    requires i < j < |parts| && a == parts[i] && b == parts[j]
    ensures Precedes(head + Concat(parts) + tail, a, |head| + Offset(parts, i), b, |head| + Offset(parts, j))
  {
    FramedOrder(head, parts, tail, i, j);
  }

  /** A fragment found in `body` is found in `head + body + tail`, shifted
      by `|head|`. */
  lemma OccursFramed(head: string, body: string, tail: string, frag: string, at: nat)
    requires Occurs(body, frag, at)
    ensures Occurs(head + body + tail, frag, |head| + at)
  {
    OccursShift(head, body, frag, at);
    OccursExtend(head + body, tail, frag, |head| + at);
  }

  /** `parts` separated by `sep`, between `head` and `foot`: a document
      whose sections are divided by a rule. */
  function Separated(head: string, parts: seq<string>, sep: string, foot: string): string
  {
    head + Join(parts, sep) + foot
  }

  /** Four separated sections appear in list order, each `|sep|` after the
      end of the one before. */
  lemma SeparatedFour(head: string, sep: string, foot: string, a: string, b: string, c: string, d: string)
    ensures var doc := Separated(head, [a, b, c, d], sep, foot);
      && Occurs(doc, a, |head|)
      && Occurs(doc, b, |head| + |a| + |sep|)
      && Occurs(doc, c, |head| + |a| + |b| + 2 * |sep|)
      && Occurs(doc, d, |head| + |a| + |b| + |c| + 3 * |sep|)
  {
    FourOffsets(a, b, c, d);
    var at := |head|;
    SeparatedPlace(head, sep, foot, a, b, c, d, 0, a, at);
    SeparatedPlace(head, sep, foot, a, b, c, d, 1, b, at + |a| + |sep|);
    SeparatedPlace(head, sep, foot, a, b, c, d, 2, c, at + |a| + |b| + 2 * |sep|);
    SeparatedPlace(head, sep, foot, a, b, c, d, 3, d, at + |a| + |b| + |c| + 3 * |sep|);
  }

  lemma FourOffsets(a: string, b: string, c: string, d: string)
    ensures Offset([a, b, c, d], 0) == 0
    ensures Offset([a, b, c, d], 1) == |a|
    ensures Offset([a, b, c, d], 2) == |a| + |b|
    ensures Offset([a, b, c, d], 3) == |a| + |b| + |c|
  {
    var parts := [a, b, c, d];
    assert parts[..0] == [];
    ConcatPlaces(parts, 0);
    ConcatPlaces(parts, 1);
    ConcatPlaces(parts, 2);
  }

  lemma SeparatedPlace(head: string, sep: string, foot: string, a: string, b: string, c: string, d: string,
                       i: nat, frag: string, at: nat)
    requires i < 4 && frag == [a, b, c, d][i] && at == |head| + Offset([a, b, c, d], i) + i * |sep|
    ensures Occurs(Separated(head, [a, b, c, d], sep, foot), frag, at)
  {
    var parts := [a, b, c, d];
    JoinPlaces(parts, sep, i);
    OccursFramed(head, Join(parts, sep), foot, frag, at - |head|);
  }

  /** Section `i` of a separated document starts after the head, the
      sections before it and one separator per section before it. */
  lemma SeparatedAt(head: string, parts: seq<string>, sep: string, foot: string, i: nat)
    requires i < |parts|
    ensures Occurs(Separated(head, parts, sep, foot), parts[i], |head| + Offset(parts, i) + i * |sep|)
  {
    JoinPlaces(parts, sep, i);
    OccursFramed(head, Join(parts, sep), foot, parts[i], Offset(parts, i) + i * |sep|);
  }

  /** What the head of a separated document holds stays where it is. */
  lemma SeparatedKeepsHead(head: string, parts: seq<string>, sep: string, foot: string, frag: string, at: nat)
    requires Occurs(head, frag, at)
    ensures Occurs(Separated(head, parts, sep, foot), frag, at)
  {
    OccursExtend(head, Join(parts, sep), frag, at);
    OccursExtend(head + Join(parts, sep), foot, frag, at);
  }

  lemma FiveOffsets(a: string, b: string, c: string, d: string, e: string)
    ensures Offset([a, b, c, d, e], 0) == 0
    ensures Offset([a, b, c, d, e], 1) == |a|
    ensures Offset([a, b, c, d, e], 2) == |a| + |b|
    ensures Offset([a, b, c, d, e], 3) == |a| + |b| + |c|
    ensures Offset([a, b, c, d, e], 4) == |a| + |b| + |c| + |d|
  {
    var parts := [a, b, c, d, e];
    assert parts[..0] == [];
    ConcatPlaces(parts, 0);
    ConcatPlaces(parts, 1);
    ConcatPlaces(parts, 2);
    ConcatPlaces(parts, 3);
  }

  lemma StartsWithConcat(p: string, rest: string)
    ensures StartsWith(p + rest, p)
  {
    assert (p + rest)[..|p|] == p;
  }

  /** In `a + x + b + y + c`, `x` is found right after `a`, and `y` right
      after `x` and `b`. */
  lemma PrecedesBetween(a: string, x: string, b: string, y: string, c: string)
    ensures Precedes(a + x + b + y + c, x, |a|, y, |a| + |x| + |b|)
  {
    OccursBetween(a, x, b + y + c);
    assert a + x + b + y + c == a + x + (b + y + c);
    OccursBetween(a + x + b, y, c);
  }
}
