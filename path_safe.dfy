/**
 * Model of path-safe.js: `resolveSafePath(baseDir, relPath)`, the Node path
 * sandbox. A fixed chain of rejections (not a string, NUL byte, absolute,
 * a `..` segment) is followed by resolving against the base and refusing any
 * result whose path relative to the base starts with `..` or is absolute.
 */
module PathSafe {
  import opened Common
  import opened Strings
  import opened JsonDoc
  import opened Lexical

  datatype SafeResult = Resolved(resolved: string) | Rejected(code: string, message: string)

  /** `path.isAbsolute` (POSIX). */
  predicate PosixAbsolute(s: string)
  {
    |s| > 0 && s[0] == '/'
  }

  /** Some segment of `s`, split on runs of `/` or `\`, is `..`. */
  predicate HasTraversal(s: string)
  {
    ".." in RunSplit(s, IsSep)
  }

  /** `path.resolve(base, rel)` for a relative `rel`: the base walked by the `/`-separated pieces of `rel`. */
  function ResolveSegments(base: Dir, rel: string): seq<string>
  {
    Fold(base, Pieces(rel, IsSlash))
  }

  /** The number of leading segments two paths share. */
  function CommonPrefixLength(a: seq<string>, b: seq<string>): (k: nat)
    ensures k <= |a| && k <= |b| && a[..k] == b[..k]
    ensures k < |a| && k < |b| ==> a[k] != b[k]
  {
    if a == [] || b == [] || a[0] != b[0] then 0
    else
      var k := 1 + CommonPrefixLength(a[1..], b[1..]);
      assert a[..k] == [a[0]] + a[1..][..k - 1];
      assert b[..k] == [b[0]] + b[1..][..k - 1];
      k
  }

  /** `path.relative(from, to)` between two normalised absolute paths: `..` per unshared segment of `from`, then the rest of `to`. */
  function Relative(from: seq<string>, to: seq<string>): string
  {
    var k := CommonPrefixLength(from, to);
    Join(seq(|from| - k, _ => "..") + to[k..], "/")
  }

  /** The first segment that the walk keeps merely begins with `..` (a name such as `..foo`). */
  predicate LeadsWithDots(kept: seq<string>)
  {
    kept != [] && StartsWith(kept[0], "..")
  }

  /** Every check of `resolveSafePath` passes for the string `s`. */
  predicate Accepted(s: string)
  {
    '\0' !in s && !PosixAbsolute(s) && !Win32Absolute(s) && !HasTraversal(s)
    && !LeadsWithDots(Kept(Pieces(s, IsSlash)))
  }

  function ResolveSafePath(base: Dir, relPath: Option<Json>): (r: SafeResult)
    // the checks run in a fixed order; the first that fails names the code
    ensures !(relPath.Some? && relPath.value.JStr?) ==> r.Rejected? && r.code == "PATH_NOT_STRING"
    ensures relPath.Some? && relPath.value.JStr? ==>
      var s := relPath.value.s;
      && ('\0' in s ==> r.Rejected? && r.code == "PATH_NULL_BYTE")
      && ('\0' !in s && (PosixAbsolute(s) || Win32Absolute(s)) ==> r.Rejected? && r.code == "PATH_ABSOLUTE")
      && ('\0' !in s && !PosixAbsolute(s) && !Win32Absolute(s) && HasTraversal(s) ==>
            r.Rejected? && r.code == "PATH_TRAVERSAL")
      // accepted exactly when every check passes
      && (r.Resolved? <==> Accepted(s))
      && (r.Rejected? && r.code == "PATH_OUTSIDE_ROOT" <==>
            '\0' !in s && !PosixAbsolute(s) && !Win32Absolute(s) && !HasTraversal(s)
            && LeadsWithDots(Kept(Pieces(s, IsSlash))))
      // containment: the base followed by the kept segments of `s`
      && (r.Resolved? ==> r.resolved == Render(base + Kept(Pieces(s, IsSlash))))
  {
    if !(relPath.Some? && relPath.value.JStr?) then
      Rejected("PATH_NOT_STRING", "Artifact path must be a string")
    else
      var s := relPath.value.s;
      if '\0' in s then
        Rejected("PATH_NULL_BYTE", "Artifact path contains null byte")
      else if PosixAbsolute(s) || Win32Absolute(s) then
        Rejected("PATH_ABSOLUTE", "Absolute paths are not allowed")
      else if ".." in RunSplit(s, IsSep) then
        Rejected("PATH_TRAVERSAL", "Artifact path contains directory traversal (..)")
      else
        var resolved := ResolveSegments(base, s);
        var relative := Relative(base, resolved);
        NoTraversalWalk(base, s);
        if StartsWith(relative, "..") || PosixAbsolute(relative) then
          Rejected("PATH_OUTSIDE_ROOT", "Artifact path escapes the package root")
        else
          Resolved(Render(resolved))
  }

  /**
   * For a path that passed the first four checks, the walk is the base plus
   * the kept segments, and the relative path starts with `..` exactly when
   * the first kept segment does.
   */
  lemma NoTraversalWalk(base: Dir, s: string)
    requires !HasTraversal(s)
    ensures ResolveSegments(base, s) == base + Kept(Pieces(s, IsSlash))
    ensures var rel := Relative(base, ResolveSegments(base, s));
      (StartsWith(rel, "..") <==> LeadsWithDots(Kept(Pieces(s, IsSlash)))) && !PosixAbsolute(rel)
  {
    var pieces := Pieces(s, IsSlash);
    NoDotDotPiece(s);
    FoldWithoutDotDot(base, pieces);
    var kept := Kept(pieces);
    var resolved := base + kept;
    var k := CommonPrefixLength(base, resolved);
    assert k == |base|;
    assert seq(|base| - k, _ => "..") + resolved[k..] == kept;
    PiecesHaveNoSep(s, IsSlash);
    forall i | 0 <= i < |kept| ensures forall c :: 0 <= c < |kept[i]| ==> kept[i][c] != '/' {
      assert kept[i] in pieces;
    }
    JoinLeadingDots(kept);
  }

  /** A path that passed the traversal check has no `..` among its `/`-pieces. */
  lemma NoDotDotPiece(s: string)
    requires !HasTraversal(s)
    ensures ".." !in Pieces(s, IsSlash)
  {
    RunSplitMembers(s, IsSep, "..");
    SlashPiecesAreSepPieces(s);
    var a, b := Pieces(s, IsSlash), Pieces(s, IsSep);
    assert '\\' !in "..";
    forall i | 0 <= i < |a| ensures a[i] != ".." {
      if i > 0 {
        assert a[i] in a[1..];
      }
    }
  }

  /** A `/`-piece without a backslash is also a piece of the split on both separators. */
  lemma {:induction false} SlashPiecesAreSepPieces(s: string)
    ensures var a, b := Pieces(s, IsSlash), Pieces(s, IsSep);
      && ('\\' !in a[0] ==> a[0] == b[0])
      && (forall p :: p in a[1..] && '\\' !in p ==> p in b[1..])
    decreases |s|
  {
    if s != [] {
      SlashPiecesAreSepPieces(s[1..]);
      var a, b := Pieces(s[1..], IsSlash), Pieces(s[1..], IsSep);
      if s[0] != '/' && s[0] != '\\' {
        assert Pieces(s, IsSlash)[0] == [s[0]] + a[0];
        assert '\\' !in [s[0]] + a[0] ==> '\\' !in a[0];
      } else if s[0] == '/' {
        forall p | p in a && '\\' !in p ensures p in b {
          if p == a[0] { } else { var i :| 0 <= i < |a| && a[i] == p; assert p in a[1..]; }
        }
      }
    }
  }

  /** A join of plain segments begins with `..` exactly when its first segment does, and never with `/`. */
  lemma JoinLeadingDots(kept: seq<string>)
    requires forall i :: 0 <= i < |kept| ==> kept[i] != "" && kept[i] != "."
    requires forall i :: 0 <= i < |kept| ==> forall c :: 0 <= c < |kept[i]| ==> kept[i][c] != '/'
    ensures StartsWith(Join(kept, "/"), "..") <==> LeadsWithDots(kept)
    ensures !PosixAbsolute(Join(kept, "/"))
  {
    if |kept| > 1 {
      var j := Join(kept, "/");
      assert j == kept[0] + "/" + Join(kept[1..], "/");
      if |kept[0]| >= 2 {
        assert j[..2] == kept[0][..2];
      } else {
        assert j[1] == '/';
      }
      assert j[0] == kept[0][0];
    }
  }

  /** The empty string is accepted and names the base itself. */
  lemma EmptyPathIsBase(base: Dir)
    ensures ResolveSafePath(base, Some(JStr(""))) == Resolved(Render(base))
  {
    assert Pieces("", IsSlash) == [""];
    assert Kept([""]) == [];
    assert RunSplit("", IsSep) == [""];
    assert base + [] == base;
  }

  /** A single name that only begins with `..` passes the traversal check but fails the containment test. */
  lemma DotDotNameOutsideRoot(base: Dir, n: string)
    requires StartsWith(n, "..") && n != ".."
    requires forall c :: 0 <= c < |n| ==> !IsSep(n[c]) && n[c] != '\0'
    ensures ResolveSafePath(base, Some(JStr(n))).Rejected?
    ensures ResolveSafePath(base, Some(JStr(n))).code == "PATH_OUTSIDE_ROOT"
  {
    PiecesOfName(n, IsSlash);
    PiecesOfName(n, IsSep);
    assert RunSplit(n, IsSep) == [n];
    assert Kept([n]) == Kept([]) + [n];
    assert n[0] == '.';
  }

  lemma DotDotFooOutsideRoot(base: Dir)
    ensures ResolveSafePath(base, Some(JStr("..foo"))).Rejected?
    ensures ResolveSafePath(base, Some(JStr("..foo"))).code == "PATH_OUTSIDE_ROOT"
  {
    DotDotNameOutsideRoot(base, "..foo");
  }

  /** The first three checks see `x/seg/y` and `x/y` alike. */
  lemma GuardsAround(x: string, seg: string, y: string)
    requires seg == "" || seg == "."
    ensures var long, short := x + "/" + seg + "/" + y, x + "/" + y;
      && ('\0' in long <==> '\0' in short)
      && PosixAbsolute(long) == PosixAbsolute(short)
      && Win32Absolute(long) == Win32Absolute(short)
  {
    var long, short := x + "/" + seg + "/" + y, x + "/" + y;
    assert forall c :: c in long <==> c in x || c == '/' || c in seg || c in y;
    assert forall c :: c in short <==> c in x || c == '/' || c in y;
    if |x| >= 2 {
      assert long[..3] == short[..3];
    } else if |x| == 1 {
      assert long[1] == short[1] == '/';
    }
  }

  /**
   * An empty or `.` segment between two separators changes nothing:
   * `x/./y` and `x//y` resolve, or are refused, exactly like `x/y`.
   */
  lemma IgnoredSegment(base: Dir, x: string, seg: string, y: string)
    requires seg == "" || seg == "."
    ensures ResolveSafePath(base, Some(JStr(x + "/" + seg + "/" + y))) == ResolveSafePath(base, Some(JStr(x + "/" + y)))
  {
    var long, short := x + "/" + seg + "/" + y, x + "/" + y;
    GuardsAround(x, seg, y);
    PiecesAround(x, seg, y, IsSep);
    PiecesAround(x, seg, y, IsSlash);
    RunSplitMembers(long, IsSep, "..");
    RunSplitMembers(short, IsSep, "..");
    assert HasTraversal(long) == HasTraversal(short);
    FoldIgnoresSegment(base, Pieces(x, IsSlash), seg, Pieces(y, IsSlash));
    SameChecksSameResult(base, long, short);
  }

  /** The result depends on a path only through the checks and the walk. */
  lemma SameChecksSameResult(base: Dir, s: string, t: string)
    requires '\0' in s <==> '\0' in t
    requires PosixAbsolute(s) == PosixAbsolute(t) && Win32Absolute(s) == Win32Absolute(t)
    requires HasTraversal(s) == HasTraversal(t)
    requires ResolveSegments(base, s) == ResolveSegments(base, t)
    ensures ResolveSafePath(base, Some(JStr(s))) == ResolveSafePath(base, Some(JStr(t)))
  {
  }
}
