/**
 * Lexical path normalisation shared by Node's `path.resolve` and PHP's
 * `SafePath::normalizePath`: walk the segments, drop empty and `.` ones,
 * let `..` remove the last kept segment (nothing above the root), keep the rest.
 * Also the canonical absolute directory both validators take as a base.
 */
module Lexical {
  import opened Strings

  /** A segment of a canonical directory: no separator, not empty, not a dot segment. */
  predicate SegmentOk(s: string)
  {
    s != "" && s != "." && s != ".." && forall k :: 0 <= k < |s| ==> !IsSep(s[k])
  }

  /** An absolute directory already canonical (what `path.resolve` / `realpath` give), as its segments. */
  type Dir = segs: seq<string> | forall i :: 0 <= i < |segs| ==> SegmentOk(segs[i])

  predicate IsLetter(c: char)
  {
    'A' <= c <= 'Z' || 'a' <= c <= 'z'
  }

  /**
   * Absolute under Windows rules (Node's `path.win32.isAbsolute`, PHP's
   * `SafePath::isAbsolutePath`): a leading separator, or a drive letter,
   * a colon and a separator.
   */
  predicate Win32Absolute(s: string)
  {
    (|s| > 0 && IsSep(s[0])) || (|s| > 2 && IsLetter(s[0]) && s[1] == ':' && IsSep(s[2]))
  }

  /** The POSIX spelling of an absolute path given by its segments. */
  function Render(segs: seq<string>): string
  {
    "/" + Join(segs, "/")
  }

  /** `path.dirname` / `dirname` of an absolute path given by its segments: the root is its own parent. */
  function Parent(segs: Dir): (r: Dir)
    ensures segs != [] ==> segs == r + [segs[|segs| - 1]]
  {
    if segs == [] then [] else segs[..|segs| - 1]
  }

  /** One step of the walk. */
  function Step(acc: seq<string>, seg: string): seq<string>
  {
    if seg == "" || seg == "." then acc
    else if seg == ".." then (if acc == [] then [] else acc[..|acc| - 1])
    else acc + [seg]
  }

  /** The walk over `segs`, starting from the segments `acc`. */
  function Fold(acc: seq<string>, segs: seq<string>): seq<string>
  {
    if segs == [] then acc else Step(Fold(acc, segs[..|segs| - 1]), segs[|segs| - 1])
  }

  /** The segments a walk keeps when there is no `..`: all but the empty and `.` ones. */
  function Kept(segs: seq<string>): (r: seq<string>)
    ensures forall i :: 0 <= i < |r| ==> r[i] != "" && r[i] != "."
    ensures forall s :: s in r ==> s in segs
  {
    if segs == [] then []
    else
      var last := segs[|segs| - 1];
      Kept(segs[..|segs| - 1]) + (if last == "" || last == "." then [] else [last])
  }

  lemma {:induction false} FoldAppend(acc: seq<string>, a: seq<string>, b: seq<string>)
    ensures Fold(acc, a + b) == Fold(Fold(acc, a), b)
    decreases |b|
  {
    if b == [] {
      assert a + b == a;
    } else {
      assert (a + b)[..|a + b| - 1] == a + b[..|b| - 1];
      assert (a + b)[|a + b| - 1] == b[|b| - 1];
      FoldAppend(acc, a, b[..|b| - 1]);
    }
  }

  /** Without `..`, the walk appends exactly the kept segments: nothing above the start is reached. */
  lemma {:induction false} FoldWithoutDotDot(acc: seq<string>, segs: seq<string>)
    requires ".." !in segs
    ensures Fold(acc, segs) == acc + Kept(segs)
    decreases |segs|
  {
    if segs != [] {
      var init := segs[..|segs| - 1];
      assert forall s :: s in init ==> s in segs;
      FoldWithoutDotDot(acc, init);
    }
  }

  /** The walk ignores empty segments, so a split on runs of separators walks like a split on each one. */
  lemma {:induction false} FoldSkipsEmpty(acc: seq<string>, segs: seq<string>)
    ensures Fold(acc, NonEmpty(segs)) == Fold(acc, segs)
    decreases |segs|
  {
    if segs != [] {
      var init, last := segs[..|segs| - 1], segs[|segs| - 1];
      assert segs == init + [last];
      NonEmptyAppend(init, [last]);
      FoldSkipsEmpty(acc, init);
      if last == "" {
        assert NonEmpty([last]) == [];
        assert NonEmpty(segs) == NonEmpty(init);
      } else {
        assert NonEmpty([last]) == [last];
        assert NonEmpty(segs) == NonEmpty(init) + [last];
      }
    }
  }

  lemma {:induction false} FoldRunSplit(acc: seq<string>, s: string, sep: char -> bool)
    ensures Fold(acc, RunSplit(s, sep)) == Fold(acc, Pieces(s, sep))
  {
    var p := Pieces(s, sep);
    if |p| > 1 {
      var mid := p[1..|p| - 1];
      assert p == [p[0]] + mid + [p[|p| - 1]];
      FoldAppend(acc, [p[0]] + NonEmpty(mid), [p[|p| - 1]]);
      FoldAppend(acc, [p[0]], NonEmpty(mid));
      FoldSkipsEmpty(Fold(acc, [p[0]]), mid);
      FoldAppend(acc, [p[0]], mid);
      FoldAppend(acc, [p[0]] + mid, [p[|p| - 1]]);
    }
  }

  /** A canonical directory walks to itself. */
  lemma {:induction false} FoldDir(d: Dir)
    ensures Fold([], d) == d
    ensures Kept(d) == d
    decreases |d|
  {
    if d != [] {
      var init: Dir := d[..|d| - 1];
      FoldDir(init);
      assert d == init + [d[|d| - 1]];
    }
  }

  /** An empty or `.` segment anywhere in the walk changes nothing. */
  lemma FoldIgnoresSegment(acc: seq<string>, c: seq<string>, seg: string, e: seq<string>)
    requires seg == "" || seg == "."
    ensures Fold(acc, c + [seg] + e) == Fold(acc, c + e)
  {
    FoldAppend(acc, c + [seg], e);
    FoldAppend(acc, c, [seg]);
    assert Fold(Fold(acc, c), [seg]) == Fold(acc, c) by {
      assert [seg][..0] == [];
    }
    FoldAppend(acc, c, e);
  }
}
