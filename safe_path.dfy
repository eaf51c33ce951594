/**
 * Model of SafePath.php: the PHP path sandbox. `resolve` refuses blank,
 * NUL-bearing, absolute and `..`-bearing paths, then normalises base and
 * path lexically and requires the result to be the base or lie under it.
 * Every refusal carries the code `INVALID_PATH`. The directory separator is
 * `/` and the base is an already canonical absolute directory (what
 * `realpath` returns).
 */
module SafePath {
  import opened Common
  import opened Strings
  import opened Lexical

  /** The array `resolve` returns: `ok`, and `path` or `code` and `message`. */
  datatype SafePathResult = SafePathResult(ok: bool, path: Option<string>, code: Option<string>, message: Option<string>)

  /** `error($code, $message)`. */
  function Error(code: string, message: string): (r: SafePathResult)
    ensures !r.ok && r.path.None? && r.code == Some(code) && r.message == Some(message)
  {
    SafePathResult(false, None, Some(code), Some(message))
  }

  /** `str_replace(['\\', '/'], '/', $path)`. */
  function ToSlashes(s: string): (r: string)
    ensures |r| == |s|
    ensures forall k :: 0 <= k < |s| ==> r[k] == (if IsSep(s[k]) then '/' else s[k])
  {
    seq(|s|, k requires 0 <= k < |s| => if IsSep(s[k]) then '/' else s[k])
  }

  /** A leading drive prefix `<letter>:`. */
  predicate HasDrive(s: string)
  {
    |s| >= 2 && IsLetter(s[0]) && s[1] == ':'
  }

  /** The drive prefix `normalizePath` sets aside, or "". */
  function DrivePrefix(s: string): (r: string)
    ensures StartsWith(s, r)
  {
    if HasDrive(s) then s[..2] else ""
  }

  /** The segments `normalizePath` keeps for a path with its drive prefix removed. */
  function NormalSegments(rest: string): seq<string>
  {
    Fold([], RunSplit(rest, IsSep))
  }

  /** What `normalizePath` returns. */
  function Normalized(path: string): (r: string)
    // a normalised path never ends with a separator
    ensures r == [] || !IsSep(r[|r| - 1])
  {
    var p := ToSlashes(path);
    var prefix := DrivePrefix(p);
    TrimRight(prefix + "/" + Join(NormalSegments(p[|prefix|..]), "/"), IsSep)
  }

  /** `normalizePath`: the segment loop pushes names, skips empty and `.` ones and pops on `..`. */
  method NormalizePath(path: string) returns (r: string)
    ensures r == Normalized(path)
  {
    var p := ToSlashes(path);
    var prefix := "";
    if HasDrive(p) {
      prefix := p[..2];
      p := p[2..];
    }
    var segments := RunSplit(p, IsSep);
    var normalized: seq<string> := [];
    for i := 0 to |segments|
      invariant normalized == Fold([], segments[..i])
    {
      assert segments[..i + 1][..i] == segments[..i];
      var segment := segments[i];
      if segment == "" || segment == "." {
        continue;
      }
      if segment == ".." {
        if normalized != [] {
          normalized := normalized[..|normalized| - 1];
        }
        continue;
      }
      normalized := normalized + [segment];
    }
    assert segments[..|segments|] == segments;
    r := TrimRight(prefix + "/" + Join(normalized, "/"), IsSep);
  }

  /** `isInsideBase`: after trimming trailing separators, equal to the base or under `base/`. */
  predicate IsInsideBase(base: string, path: string)
  {
    var b, p := TrimRight(base, IsSep), TrimRight(path, IsSep);
    b == p || StartsWith(p, b + "/")
  }

  /** A canonical path in the form `normalizePath` gives it: the root comes out as "". */
  function Spelled(segs: seq<string>): (r: string)
    ensures segs != [] ==> r == Render(segs)
  {
    if segs == [] then "" else Render(segs)
  }

  /** The path passes every check before normalisation. */
  predicate Acceptable(rel: string)
  {
    !PhpBlank(rel) && '\0' !in rel && !Win32Absolute(rel) && ".." !in Pieces(rel, IsSep)
  }

  function Resolve(base: Dir, rel: string): (r: SafePathResult)
    // a failure has no path and a code, a success a path and no code
    ensures r.ok <==> r.path.Some?
    ensures r.ok <==> r.code.None? && r.message.None?
    ensures !r.ok ==> r.code == Some("INVALID_PATH")
    // the fixed order of the checks
    ensures PhpBlank(rel) ==> r.message == Some("Artifact path is empty")
    ensures !PhpBlank(rel) && '\0' in rel ==> r.message == Some("Artifact path contains null byte")
    ensures !PhpBlank(rel) && '\0' !in rel && Win32Absolute(rel) ==> r.message == Some("Absolute paths are not allowed")
    ensures !PhpBlank(rel) && '\0' !in rel && !Win32Absolute(rel) && ".." in Pieces(rel, IsSep) ==>
      r.message == Some("Artifact path contains directory traversal (..)")
    // the containment test can never fail for a canonical base: success is exactly passing the first four checks
    ensures r.ok <==> Acceptable(rel)
    // the path is the base followed by the segments of `rel` that are not empty or `.`
    ensures r.ok ==> r.path == Some(Spelled(base + Kept(Pieces(rel, IsSep))))
  {
    PhpTrimEmpty(rel);
    RunSplitMembers(rel, IsSep, "..");
    if rel == "" || PhpTrim(rel) == "" then
      Error("INVALID_PATH", "Artifact path is empty")
    else if '\0' in rel then
      Error("INVALID_PATH", "Artifact path contains null byte")
    else if Win32Absolute(rel) then
      Error("INVALID_PATH", "Absolute paths are not allowed")
    else if ".." in RunSplit(rel, IsSep) then
      Error("INVALID_PATH", "Artifact path contains directory traversal (..)")
    else
      // `realpath` of an existing canonical directory is that directory
      var normalizedBase := Normalized(Render(base));
      var combined := TrimRight(normalizedBase, IsSep) + "/" + TrimLeft(rel, IsSep);
      var normalized := Normalized(combined);
      Contained(base, rel);
      if !IsInsideBase(normalizedBase, normalized) then
        Error("INVALID_PATH", "Artifact path escapes the package root")
      else
        SafePathResult(true, Some(normalized), None, None)
  }

  /** Replacing `\` by `/` does not change a split on both separators. */
  lemma {:induction false} ToSlashesPieces(s: string)
    ensures Pieces(ToSlashes(s), IsSep) == Pieces(s, IsSep)
    decreases |s|
  {
    if s != [] {
      ToSlashesPieces(s[1..]);
      assert ToSlashes(s)[1..] == ToSlashes(s[1..]);
    }
  }

  /** The segments of `/` followed by a non-empty canonical directory. */
  lemma RenderPieces(base: Dir)
    requires base != []
    ensures Pieces(Render(base), IsSep) == [""] + base
  {
    assert Render(base) == "" + ['/'] + Join(base, "/");
    PiecesAppend("", '/', Join(base, "/"), IsSep);
    PiecesJoin(base, IsSep);
  }

  /** Normalising a path that starts with `/`: only its segments matter. */
  lemma NormalizedRooted(s: string)
    requires s != [] && s[0] == '/'
    ensures Normalized(s) == TrimRight("/" + Join(Fold([], Pieces(s, IsSep)), "/"), IsSep)
  {
    var p := ToSlashes(s);
    assert p[0] == '/';
    assert DrivePrefix(p) == "";
    assert p[|DrivePrefix(p)|..] == p;
    assert "" + "/" == "/";
    ToSlashesPieces(s);
    FoldRunSplit([], p, IsSep);
  }

  /** The spelling of a canonical path is already trimmed. */
  lemma SpelledTrimmed(segs: seq<string>)
    requires forall i :: 0 <= i < |segs| ==> segs[i] != "" && forall k :: 0 <= k < |segs[i]| ==> !IsSep(segs[i][k])
    ensures TrimRight("/" + Join(segs, "/"), IsSep) == Spelled(segs)
  {
    if segs == [] {
      assert TrimRight("/", IsSep) == TrimRight("", IsSep);
    } else {
      var last := segs[|segs| - 1];
      assert last != "" && !IsSep(last[|last| - 1]);
      JoinEnds(segs, "/");
      TrimRightNoop("/" + Join(segs, "/"), IsSep);
    }
  }

  /** A join ends with the last character of its last (non-empty) element. */
  lemma JoinEnds(segs: seq<string>, sep: string)
    requires segs != [] && segs[|segs| - 1] != ""
    ensures var j, last := Join(segs, sep), segs[|segs| - 1];
      j != [] && j[|j| - 1] == last[|last| - 1]
  {
    var last := segs[|segs| - 1];
    if |segs| > 1 {
      JoinSnoc(segs[..|segs| - 1], last, sep);
      assert segs[..|segs| - 1] + [last] == segs;
    }
  }

  /** The base normalises to its own spelling. */
  lemma NormalizedBase(base: Dir)
    ensures Normalized(Render(base)) == Spelled(base)
  {
    NormalizedRooted(Render(base));
    if base == [] {
      assert Render(base) == "" + ['/'] + "";
      PiecesAppend("", '/', "", IsSep);
      assert Pieces("", IsSep) == [""];
      assert Fold([], ["", ""]) == [] by {
        assert ["", ""][..1] == [""];
        assert [""][..0] == [];
      }
    } else {
      RenderPieces(base);
      FoldAppend([], [""], base);
      assert Fold([], [""]) == [] by { assert [""][..0] == []; }
      FoldDir(base);
    }
    SpelledTrimmed(base);
  }

  /** The segments of the spelled base, a `/` and a relative path. */
  lemma CombinedPieces(base: Dir, rel: string)
    ensures Pieces(Spelled(base) + "/" + rel, IsSep) == [""] + base + Pieces(rel, IsSep)
  {
    assert Spelled(base) + "/" + rel == Spelled(base) + ['/'] + rel;
    PiecesAppend(Spelled(base), '/', rel, IsSep);
    if base == [] {
      assert Pieces("", IsSep) == [""];
    } else {
      RenderPieces(base);
    }
  }

  /** The kept segments of a split: non-empty and free of separators. */
  lemma KeptPlain(rel: string)
    ensures var kept := Kept(Pieces(rel, IsSep));
      forall i :: 0 <= i < |kept| ==> kept[i] != "" && forall k :: 0 <= k < |kept[i]| ==> !IsSep(kept[i][k])
  {
    var pr := Pieces(rel, IsSep);
    var kept := Kept(pr);
    PiecesHaveNoSep(rel, IsSep);
    forall i | 0 <= i < |kept| ensures kept[i] != "" && forall k :: 0 <= k < |kept[i]| ==> !IsSep(kept[i][k]) {
      assert kept[i] in pr;
    }
  }

  /** Without `..`, the base, `/` and `rel` normalise to the base plus the kept segments of `rel`. */
  lemma CombinedNormalized(base: Dir, rel: string)
    requires ".." !in Pieces(rel, IsSep)
    ensures Normalized(Spelled(base) + "/" + rel) == Spelled(base + Kept(Pieces(rel, IsSep)))
  {
    var combined := Spelled(base) + "/" + rel;
    var pr := Pieces(rel, IsSep);
    var kept := Kept(pr);
    assert combined[0] == '/';
    NormalizedRooted(combined);
    CombinedPieces(base, rel);
    FoldRooted(base, pr);
    assert Fold([], Pieces(combined, IsSep)) == base + kept;
    PlainAfterBase(base, rel);
    SpelledTrimmed(base + kept);
  }

  /** The base followed by the kept segments of `rel` are all non-empty and free of separators. */
  lemma PlainAfterBase(base: Dir, rel: string)
    ensures var segs := base + Kept(Pieces(rel, IsSep));
      forall i :: 0 <= i < |segs| ==> segs[i] != "" && forall k :: 0 <= k < |segs[i]| ==> !IsSep(segs[i][k])
  {
    var kept := Kept(Pieces(rel, IsSep));
    KeptPlain(rel);
    var segs := base + kept;
    forall i | 0 <= i < |segs| ensures segs[i] != "" && forall k :: 0 <= k < |segs[i]| ==> !IsSep(segs[i][k]) {
      if i < |base| {
        assert segs[i] == base[i] && SegmentOk(base[i]);
      } else {
        assert segs[i] == kept[i - |base|];
      }
    }
  }

  /** Walking from the root over the base and then `..`-free segments. */
  lemma FoldRooted(base: Dir, segs: seq<string>)
    requires ".." !in segs
    ensures Fold([], [""] + base + segs) == base + Kept(segs)
  {
    FoldAppend([], [""] + base, segs);
    FoldAppend([], [""], base);
    assert Fold([], [""]) == [] by { assert [""][..0] == []; }
    FoldDir(base);
    FoldWithoutDotDot(base, segs);
  }

  /** Extending a canonical path gives the path itself or something under `path/`. */
  lemma SpelledExtends(base: seq<string>, kept: seq<string>)
    ensures Spelled(base + kept) == Spelled(base) || StartsWith(Spelled(base + kept), Spelled(base) + "/")
  {
    if kept == [] {
      assert base + kept == base;
    } else if base == [] {
      assert base + kept == kept;
    } else {
      JoinAppend(base, kept, "/");
    }
  }

  /**
   * For a path that passed the four checks, the combined path normalises to
   * the base plus the kept segments, which the containment test accepts.
   */
  lemma Contained(base: Dir, rel: string)
    requires rel != [] && !Win32Absolute(rel) && ".." !in Pieces(rel, IsSep)
    ensures var nb := Normalized(Render(base));
      var n := Normalized(TrimRight(nb, IsSep) + "/" + TrimLeft(rel, IsSep));
      n == Spelled(base + Kept(Pieces(rel, IsSep))) && IsInsideBase(nb, n)
  {
    var nb := Normalized(Render(base));
    NormalizedBase(base);
    TrimRightNoop(nb, IsSep);
    TrimLeftNoop(rel, IsSep);
    CombinedNormalized(base, rel);
    var n := Spelled(base + Kept(Pieces(rel, IsSep)));
    TrimRightNoop(n, IsSep);
    SpelledExtends(base, Kept(Pieces(rel, IsSep)));
  }

  /** Within the base: a successful result is the spelled base or starts with it and `/`. */
  lemma ResolvedWithinBase(base: Dir, rel: string)
    requires Resolve(base, rel).ok
    ensures var p := Resolve(base, rel).path.value;
      p == Spelled(base) || StartsWith(p, Spelled(base) + "/")
  {
    SpelledExtends(base, Kept(Pieces(rel, IsSep)));
  }

  /** `str_replace` works character by character. */
  lemma ToSlashesAppend(a: string, b: string)
    ensures ToSlashes(a + b) == ToSlashes(a) + ToSlashes(b)
  {
  }

  /** Normalisation through the separator split of the path after its drive prefix. */
  lemma NormalizedBySegments(path: string)
    ensures var d := DrivePrefix(path);
      Normalized(path) == TrimRight(d + "/" + Join(Fold([], Pieces(path[|d|..], IsSep)), "/"), IsSep)
  {
    var p := ToSlashes(path);
    var d := DrivePrefix(path);
    assert DrivePrefix(p) == d;
    assert p[|d|..] == ToSlashes(path[|d|..]);
    ToSlashesPieces(path[|d|..]);
    FoldRunSplit([], p[|d|..], IsSep);
  }

  /** The drive prefix and the rest of `x/seg/y` and of `x/y`. */
  lemma DriveAround(x: string, seg: string, y: string)
    requires seg == "" || seg == "."
    ensures var long, short := x + "/" + seg + "/" + y, x + "/" + y;
      var d := DrivePrefix(long);
      && DrivePrefix(short) == d && |d| <= |x|
      && long[|d|..] == x[|d|..] + "/" + seg + "/" + y
      && short[|d|..] == x[|d|..] + "/" + y
  {
    var long, short := x + "/" + seg + "/" + y, x + "/" + y;
    if |x| >= 2 {
      assert long[..2] == short[..2] == x[..2];
    } else if |x| == 1 {
      assert long[1] == short[1] == '/';
    }
  }

  /** `normalizePath` ignores an empty or `.` segment: `x/./y`, `x//y` and `x/y` normalise alike. */
  lemma NormalizeIgnoresSegment(x: string, seg: string, y: string)
    requires seg == "" || seg == "."
    ensures Normalized(x + "/" + seg + "/" + y) == Normalized(x + "/" + y)
  {
    var long, short := x + "/" + seg + "/" + y, x + "/" + y;
    NormalizedBySegments(long);
    NormalizedBySegments(short);
    DriveAround(x, seg, y);
    var x' := x[|DrivePrefix(long)|..];
    PiecesAround(x', seg, y, IsSep);
    FoldIgnoresSegment([], Pieces(x', IsSep), seg, Pieces(y, IsSep));
  }
}
