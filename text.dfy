/**
 * The three Python string operations the request checks rely on:
 * `s.split(".")`, `s.lower()` and the substring test `t in s`.
 */
module Text {

  const Dot: char := '.'

  predicate DotFree(s: string) {
    Dot !in s
  }

  /** `s.split(".")`: the pieces between dots, in order; never empty. */
  function Split(s: string): (parts: seq<string>)
    ensures |parts| >= 1
    ensures forall i :: 0 <= i < |parts| ==> DotFree(parts[i])
  {
    if s == [] then [[]]
    else
      var rest := Split(s[1..]);
      if s[0] == Dot then [[]] + rest
      else [[s[0]] + rest[0]] + rest[1..]
  }

  /** `".".join(parts)`. */
  function Join(parts: seq<string>): string {
    if |parts| == 0 then []
    else if |parts| == 1 then parts[0]
    else parts[0] + [Dot] + Join(parts[1..])
  }

  /** Joining the pieces of a split gives back the original string. */
  lemma {:induction false} JoinSplit(s: string)
    ensures Join(Split(s)) == s
  {
    if s != [] {
      var rest := Split(s[1..]);
      JoinSplit(s[1..]);
      if s[0] == Dot {
        assert Split(s) == [[]] + rest;
        assert ([[]] + rest)[1..] == rest;
      } else if |rest| == 1 {
        assert Split(s) == [[s[0]] + rest[0]];
      } else {
        var parts := [[s[0]] + rest[0]] + rest[1..];
        assert Split(s) == parts;
        assert parts[1..] == rest[1..];
        assert Join(rest) == rest[0] + [Dot] + Join(rest[1..]);
        assert Join(parts) == [s[0]] + rest[0] + [Dot] + Join(rest[1..]);
        assert s == [s[0]] + s[1..];
      }
    }
  }

  /** Splitting a string that starts with a dot-free piece `p`. */
  lemma {:induction false} SplitDotFreePrefix(p: string, u: string)
    requires DotFree(p)
    ensures Split(p + u) == [p + Split(u)[0]] + Split(u)[1..]
  {
    if p != [] {
      SplitDotFreePrefix(p[1..], u);
      assert (p + u)[1..] == p[1..] + u;
      assert (p + u)[0] == p[0];
      assert [p[0]] + (p[1..] + Split(u)[0]) == p + Split(u)[0];
    } else {
      var parts := Split(u);
      assert p + u == u;
      assert p + parts[0] == parts[0];
      assert parts == [parts[0]] + parts[1..];
    }
  }

  /** Splitting a join of dot-free pieces gives back the pieces. */
  lemma {:induction false} SplitJoin(parts: seq<string>)
    requires |parts| >= 1
    requires forall i :: 0 <= i < |parts| ==> DotFree(parts[i])
    ensures Split(Join(parts)) == parts
  {
    if |parts| == 1 {
      SplitDotFreePrefix(parts[0], []);
      assert parts[0] + [] == parts[0];
    } else {
      var rest := parts[1..];
      SplitJoin(rest);
      var j := Join(rest);
      assert Join(parts) == parts[0] + ([Dot] + j);
      SplitDotFreePrefix(parts[0], [Dot] + j);
      assert ([Dot] + j)[1..] == j;
      assert Split([Dot] + j) == [[]] + rest;
      assert parts[0] + [] == parts[0];
      assert parts == [parts[0]] + rest;
    }
  }

  /**
   * `s.split(".")[-1]`: the longest dot-free suffix of `s`. It is all of `s`
   * when `s` has no dot, and otherwise is preceded by the last dot.
   */
  function LastSegment(s: string): (e: string)
    ensures DotFree(e)
    ensures |e| <= |s| && s[|s| - |e|..] == e
    ensures |e| < |s| ==> s[|s| - |e| - 1] == Dot
  {
    var parts := Split(s);
    JoinSplit(s);
    JoinEndsWithLast(parts);
    parts[|parts| - 1]
  }

  /** Joining many pieces puts a dot just before the last one. */
  lemma {:induction false} JoinLast(parts: seq<string>)
    requires |parts| >= 2
    ensures Join(parts) == Join(parts[..|parts| - 1]) + [Dot] + parts[|parts| - 1]
  {
    if |parts| > 2 {
      JoinLast(parts[1..]);
      assert parts[1..][..|parts| - 2] == parts[..|parts| - 1][1..];
    }
  }

  /** A join ends with its last piece, and with more than one piece a dot comes just before it. */
  lemma JoinEndsWithLast(parts: seq<string>)
    requires |parts| >= 1
    ensures var e, j := parts[|parts| - 1], Join(parts);
      && |e| <= |j| && j[|j| - |e|..] == e
      && (|parts| >= 2 ==> |e| < |j| && j[|j| - |e| - 1] == Dot)
  {
    var e := parts[|parts| - 1];
    if |parts| >= 2 {
      JoinLast(parts);
      var pre := Join(parts[..|parts| - 1]);
      var j := pre + [Dot] + e;
      assert j[|j| - |e|..] == e;
      assert j[|j| - |e| - 1] == Dot;
    }
  }

  /** Appending a dot and a dot-free piece to a string appends that piece to its split. */
  lemma {:induction false} SplitAppendSegment(x: string, ext: string)
    requires DotFree(ext)
    ensures Split(x + [Dot] + ext) == Split(x) + [ext]
  {
    if x == [] {
      SplitDotFreePrefix(ext, []);
      assert ext + [] == ext;
      assert [] + [Dot] + ext == [Dot] + ext;
      assert ([Dot] + ext)[1..] == ext;
    } else {
      var s := x + [Dot] + ext;
      SplitAppendSegment(x[1..], ext);
      assert s[1..] == x[1..] + [Dot] + ext;
      var tail := Split(x[1..]);
      var rest := tail + [ext];
      assert Split(s[1..]) == rest;
      if x[0] != Dot {
        assert rest[0] == tail[0];
        assert rest[1..] == tail[1..] + [ext];
      }
    }
  }

  /** Splitting a name built as `prefix + "." + ext` with a dot-free `ext` yields `ext` last. */
  lemma LastSegmentAfterDot(prefix: string, ext: string)
    requires DotFree(ext)
    ensures LastSegment(prefix + [Dot] + ext) == ext
  {
    SplitAppendSegment(prefix, ext);
  }

  /** A name with no dot is its own last segment. */
  lemma LastSegmentOfDotFree(s: string)
    requires DotFree(s)
    ensures LastSegment(s) == s
  {
    SplitJoin([s]);
  }

  /** Python's lower-casing of one character, restricted to ASCII letters. */
  function LowerChar(c: char): char {
    if 'A' <= c <= 'Z' then (c as int - 'A' as int + 'a' as int) as char else c
  }

  predicate IsUpper(c: char) {
    'A' <= c <= 'Z'
  }

  /** `s.lower()` for ASCII letters: same length, each letter folded, nothing upper-case left. */
  function AsciiLower(s: string): (r: string)
    ensures |r| == |s|
    ensures forall i :: 0 <= i < |s| ==> r[i] == LowerChar(s[i])
    ensures forall i :: 0 <= i < |r| ==> !IsUpper(r[i])
  {
    if s == [] then [] else [LowerChar(s[0])] + AsciiLower(s[1..])
  }

  /** Lower-casing twice is lower-casing once. */
  lemma AsciiLowerIdempotent(s: string)
    ensures AsciiLower(AsciiLower(s)) == AsciiLower(s)
  {
    var r := AsciiLower(s);
    assert forall i :: 0 <= i < |r| ==> AsciiLower(r)[i] == r[i];
  }

  /** `t` occurs in `s` starting at index `i`. */
  predicate OccursAt(s: string, t: string, i: int) {
    0 <= i && i + |t| <= |s| && s[i..i + |t|] == t
  }

  /** Python's `t in s`, scanning `s` from the left: true exactly when `t` occurs somewhere in `s`. */
  function Contains(s: string, t: string): (b: bool)
    ensures b <==> exists i :: OccursAt(s, t, i)
    decreases |s|
  {
    if |t| > |s| then
      assert forall i :: !OccursAt(s, t, i);
      false
    else if s[..|t|] == t then
      assert OccursAt(s, t, 0);
      true
    else
      OccursAfterFirst(s, t);
      Contains(s[1..], t)
  }

  /** When `t` does not start `s`, it occurs in `s` exactly when it occurs in `s[1..]`. */
  lemma OccursAfterFirst(s: string, t: string)
    requires |t| <= |s| && s[..|t|] != t
    ensures (exists i :: OccursAt(s, t, i)) <==> (exists i :: OccursAt(s[1..], t, i))
  {
    forall i | OccursAt(s[1..], t, i)
      ensures OccursAt(s, t, i + 1)
    {
      assert s[1..][i..i + |t|] == s[i + 1..i + 1 + |t|];
    }
    forall i | OccursAt(s, t, i)
      ensures OccursAt(s[1..], t, i - 1)
    {
      assert i != 0;
      assert s[1..][i - 1..i - 1 + |t|] == s[i..i + |t|];
    }
  }

  /** A string contains itself and anything it starts with. */
  lemma ContainsPrefix(t: string, u: string)
    ensures Contains(t + u, t)
  {
    assert (t + u)[0..|t|] == t;
    assert OccursAt(t + u, t, 0);
  }
}
