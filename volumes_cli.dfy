/**
 * Model of volumes-cli.js, the `sitepack-volumes` command. `create` collects
 * the files of an unpacked package under normalised relative keys, packs them
 * into size-bounded parts (manifest and catalog first, the rest in collation
 * order) and numbers the parts; `extract` reads a volume-set descriptor and
 * unpacks the parts in index order, aborting on the first unsafe entry.
 *
 * The file system is a `Tree` value threaded through the operations; ZIP
 * writing is an uninterpreted function from a part's entries to its bytes,
 * and `localeCompare` is an uninterpreted integer collation key.
 */
module VolumesCli {
  import opened Common
  import opened Strings
  import opened JsonDoc
  import opened JsNumbers
  import opened Env
  import opened Lexical
  import opened Sorting
  import opened Zip
  import opened PathSafe
  import SafePath
  import VolumesNode

  // ------------------------------------------------------ normalizeRelPath

  /** One step of `path.posix.normalize`'s walk: a relative path keeps a `..` it cannot cancel, an absolute one drops it. */
  function NormalStep(acc: seq<string>, seg: string, relative: bool): seq<string>
  {
    if seg == "" || seg == "." then acc
    else if seg == ".." then
      if acc != [] && acc[|acc| - 1] != ".." then acc[..|acc| - 1]
      else if relative then acc + [".."]
      else acc
    else acc + [seg]
  }

  function NormalFold(segs: seq<string>, relative: bool): seq<string>
  {
    if segs == [] then [] else NormalStep(NormalFold(segs[..|segs| - 1], relative), segs[|segs| - 1], relative)
  }

  /**
   * `path.posix.normalize` once the walk is done: an empty walk is `/`, `./`
   * or `.`; otherwise the joined segments keep the leading `/` of an
   * absolute path and a trailing `/`.
   */
  function Assemble(absolute: bool, trailing: bool, body: string): string
  {
    if body == "" then (if absolute then "/" else if trailing then "./" else ".")
    else (if absolute then "/" else "") + body + (if trailing then "/" else "")
  }

  /** `path.posix.normalize`: the empty path is `.`; otherwise the walk's segments, joined with `/`. */
  function PosixNormalize(p: string): string
  {
    if p == "" then "."
    else Assemble(p[0] == '/', p[|p| - 1] == '/', Join(NormalFold(Pieces(p, IsSlash), p[0] != '/'), "/"))
  }

  /** `normalizeRelPath`: backslashes become `/`, then POSIX normalisation, then a leading `./` is cut. */
  function NormalizeRelPath(relPath: string): (r: string)
  {
    var normalized := PosixNormalize(SafePath.ToSlashes(relPath));
    if StartsWith(normalized, "./") then normalized[2..] else normalized
  }

  /** Replacing backslashes and splitting on `/` is splitting on both separators. */
  lemma {:induction false} ToSlashesSlashPieces(s: string)
    ensures Pieces(SafePath.ToSlashes(s), IsSlash) == Pieces(s, IsSep)
    decreases |s|
  {
    if s != [] {
      ToSlashesSlashPieces(s[1..]);
      assert SafePath.ToSlashes(s)[1..] == SafePath.ToSlashes(s[1..]);
    }
  }

  /** Without `..`, the POSIX walk keeps exactly the non-empty, non-`.` segments. */
  lemma {:induction false} NormalFoldWithoutDotDot(segs: seq<string>, relative: bool)
    requires ".." !in segs
    ensures NormalFold(segs, relative) == Kept(segs)
    decreases |segs|
  {
    if segs != [] {
      assert forall s :: s in segs[..|segs| - 1] ==> s in segs;
      NormalFoldWithoutDotDot(segs[..|segs| - 1], relative);
    }
  }

  lemma {:induction false} KeptAppend(a: seq<string>, b: seq<string>)
    ensures Kept(a + b) == Kept(a) + Kept(b)
    decreases |b|
  {
    if b == [] {
      assert a + b == a;
    } else {
      assert (a + b)[..|a + b| - 1] == a + b[..|b| - 1];
      KeptAppend(a, b[..|b| - 1]);
    }
  }

  /** Segments that are already plain are all kept. */
  lemma {:induction false} KeptPlain(xs: seq<string>)
    requires forall i :: 0 <= i < |xs| ==> xs[i] != "" && xs[i] != "."
    ensures Kept(xs) == xs
    decreases |xs|
  {
    if xs != [] {
      KeptPlain(xs[..|xs| - 1]);
    }
  }

  /** A join starts with its first segment, followed by `/` when there is more. */
  lemma JoinHead(xs: seq<string>)
    requires xs != []
    ensures StartsWith(Join(xs, "/"), xs[0])
    ensures |xs| > 1 ==> |Join(xs, "/")| > |xs[0]| && Join(xs, "/")[|xs[0]|] == '/'
    ensures |xs| == 1 ==> Join(xs, "/") == xs[0]
  {
  }

  /** A plain first segment cannot make a join start with `./`. */
  lemma JoinNoDotSlash(xs: seq<string>)
    requires xs != [] && xs[0] != "" && xs[0] != "."
    requires forall k :: 0 <= k < |xs[0]| ==> xs[0][k] != '/'
    ensures !StartsWith(Join(xs, "/"), "./")
  {
    JoinHead(xs);
    var j := Join(xs, "/");
    assert j[..|xs[0]|] == xs[0];
    if |xs[0]| == 1 {
      assert j[0] == xs[0][0];
      assert xs[0] == [xs[0][0]];
      assert j[0] != '.';
    } else {
      assert j[1] == xs[0][1];
      assert j[1] != '/';
    }
  }

  /** A relative normalised body does not begin with `./`, whatever follows it. */
  lemma BodyNoDotSlash(segs: seq<string>, tail: string)
    requires segs != [] && segs[0] != "" && segs[0] != "."
    requires forall k :: 0 <= k < |segs[0]| ==> segs[0][k] != '/'
    ensures !StartsWith(Join(segs, "/") + tail, "./")
  {
    var body := Join(segs, "/");
    JoinHead(segs);
    JoinNoDotSlash(segs);
    var n := body + tail;
    if |body| >= 2 {
      assert n[..2] == body[..2];
    } else {
      assert body == segs[0];
      assert body == [body[0]];
      assert n[0] == body[0] && body[0] != '.';
    }
  }

  /** A leading `/` adds one empty piece. */
  lemma LeadPieces(body: string)
    ensures Pieces("/" + body, IsSlash) == [""] + Pieces(body, IsSlash)
  {
    assert "/" + body == "" + ['/'] + body;
    PiecesAppend("", '/', body, IsSlash);
  }

  /** A trailing `/` adds one empty piece. */
  lemma TailPieces(body: string)
    ensures Pieces(body + "/", IsSlash) == Pieces(body, IsSlash) + [""]
  {
    assert body + "/" == body + ['/'] + "";
    PiecesAppend(body, '/', "", IsSlash);
  }

  lemma KeptEmptyPiece()
    ensures Kept([""]) == []
  {
    assert [""][..0] == [];
  }

  /** An optional leading and trailing `/` around a body add only empty pieces. */
  lemma FramedPieces(absolute: bool, trailing: bool, body: string)
    ensures var n := (if absolute then "/" else "") + body + (if trailing then "/" else "");
      Kept(Pieces(n, IsSlash)) == Kept(Pieces(body, IsSlash))
  {
    var segs := Pieces(body, IsSlash);
    var front := (if absolute then "/" else "") + body;
    var lp: seq<string> := if absolute then [""] else [];
    var tp: seq<string> := if trailing then [""] else [];
    if absolute { LeadPieces(body); } else { assert front == body; }
    assert Pieces(front, IsSlash) == lp + segs;
    if trailing { TailPieces(front); } else { assert front + "" == front; }
    assert Pieces(front + (if trailing then "/" else ""), IsSlash) == lp + segs + tp;
    KeptAppend(lp + segs, tp);
    KeptAppend(lp, segs);
    KeptEmptyPiece();
    assert Kept(lp) == [] && Kept(tp) == [];
    assert Kept(lp + segs) == Kept(segs);
    assert Kept(lp + segs + tp) == Kept(segs);
  }

  /** A non-empty walk, assembled, does not begin with `./`. */
  lemma AssembleNoDotSlash(absolute: bool, trailing: bool, segs: seq<string>)
    requires segs != [] && segs[0] != "" && segs[0] != "."
    requires forall k :: 0 <= k < |segs[0]| ==> segs[0][k] != '/'
    ensures !StartsWith(Assemble(absolute, trailing, Join(segs, "/")), "./")
  {
    var body := Join(segs, "/");
    JoinHead(segs);
    assert |body| >= |segs[0]| > 0;
    var tail := if trailing then "/" else "";
    if absolute {
      var n := "/" + body + tail;
      assert Assemble(absolute, trailing, body) == n;
      assert n[0] == '/';
    } else {
      BodyNoDotSlash(segs, tail);
      assert Assemble(absolute, trailing, body) == body + tail;
    }
  }

  /** A non-empty walk, assembled, splits back into its plain segments. */
  lemma AssembleSegments(absolute: bool, trailing: bool, segs: seq<string>)
    requires segs != []
    requires forall i :: 0 <= i < |segs| ==> segs[i] != "" && segs[i] != "."
    requires forall i, k :: 0 <= i < |segs| && 0 <= k < |segs[i]| ==> segs[i][k] != '/'
    ensures Kept(Pieces(Assemble(absolute, trailing, Join(segs, "/")), IsSlash)) == segs
  {
    var body := Join(segs, "/");
    JoinHead(segs);
    assert |body| >= |segs[0]| > 0;
    var n := (if absolute then "/" else "") + body + (if trailing then "/" else "");
    assert Assemble(absolute, trailing, body) == n;
    PiecesJoin(segs, IsSlash);
    KeptPlain(segs);
    FramedPieces(absolute, trailing, body);
  }

  /** An empty walk normalises to `/`, `./` or `.`, none of which names a segment. */
  lemma NormalizedEmpty(p: string)
    requires p == [] || NormalFold(Pieces(p, IsSlash), p[0] != '/') == []
    ensures var n := PosixNormalize(p);
      Kept(Pieces(if StartsWith(n, "./") then n[2..] else n, IsSlash)) == []
  {
    assert "/" == "" + ['/'] + "";
    PiecesAppend("", '/', "", IsSlash);
    assert Kept(["", ""]) == [];
    PiecesOfName(".", IsSlash);
    assert Kept(["."]) == Kept([]) + [];
    assert StartsWith("./", "./") && "./"[2..] == "";
    assert Pieces("", IsSlash) == [""];
    assert Kept([""]) == Kept([]) + [];
  }

  /**
   * Normalising a path without `..` keeps its segments: split on `/`, the
   * key names the same non-empty, non-`.` segments as the original split on
   * both separators.
   */
  lemma NormalizedSegments(relPath: string)
    requires ".." !in Pieces(relPath, IsSep)
    ensures Kept(Pieces(NormalizeRelPath(relPath), IsSlash)) == Kept(Pieces(relPath, IsSep))
  {
    var p := SafePath.ToSlashes(relPath);
    var pieces := Pieces(p, IsSlash);
    ToSlashesSlashPieces(relPath);
    var segs := Kept(pieces);
    if p == "" {
      NormalizedEmpty(p);
      assert pieces == [""];
      assert Kept([""]) == Kept([]) + [];
    } else {
      NormalFoldWithoutDotDot(pieces, p[0] != '/');
      if segs == [] {
        NormalizedEmpty(p);
      } else {
        PiecesHaveNoSep(p, IsSlash);
        forall i, k | 0 <= i < |segs| && 0 <= k < |segs[i]| ensures segs[i][k] != '/' {
          assert segs[i] in pieces;
          var m :| 0 <= m < |pieces| && pieces[m] == segs[i];
        }
        assert PosixNormalize(p) == Assemble(p[0] == '/', p[|p| - 1] == '/', Join(segs, "/"));
        AssembleNoDotSlash(p[0] == '/', p[|p| - 1] == '/', segs);
        AssembleSegments(p[0] == '/', p[|p| - 1] == '/', segs);
      }
    }
  }

  /** A path without backslashes splits the same on `/` alone as on both separators. */
  lemma NoBackslashPieces(s: string)
    requires '\\' !in s
    ensures Pieces(s, IsSlash) == Pieces(s, IsSep)
  {
    assert SafePath.ToSlashes(s) == s;
    ToSlashesSlashPieces(s);
  }

  /**
   * The key `addPath` stores names the file it resolved: read under the
   * package directory, the normalised key walks to the resolved path (for a
   * path without backslashes; a backslash is a name character to
   * `path.resolve` on POSIX but a separator to `normalizeRelPath`).
   */
  lemma KeyNamesResolvedFile(base: Dir, relPath: string)
    requires '\\' !in relPath
    requires ResolveSafePath(base, Some(JStr(relPath))).Resolved?
    ensures ResolveSafePath(base, Some(JStr(relPath))).resolved
         == Render(base + Kept(Pieces(NormalizeRelPath(relPath), IsSlash)))
  {
    RunSplitMembers(relPath, IsSep, "..");
    NoBackslashPieces(relPath);
    NormalizedSegments(relPath);
  }

  /** A backslash is a separator for the key ... */
  lemma BackslashKey()
    ensures NormalizeRelPath("a\\b") == "a/b"
  {
    assert SafePath.ToSlashes("a\\b") == "a/b";
    NormalizeAB();
    assert !StartsWith("a/b", "./");
  }

  lemma NormalizeAB()
    ensures PosixNormalize("a/b") == "a/b"
  {
    PiecesAB();
    assert NormalFold(["a", "b"], true) == ["a", "b"] by {
      assert ["a", "b"][..1] == ["a"];
      assert NormalFold(["a"], true) == ["a"] by { assert ["a"][..0] == []; }
    }
    assert Join(["a", "b"], "/") == "a/b";
    assert Assemble(false, false, "a/b") == "a/b";
  }

  lemma PiecesAB()
    ensures Pieces("a/b", IsSlash) == ["a", "b"]
  {
    PiecesOfName("a", IsSlash);
    PiecesOfName("b", IsSlash);
    PiecesAppend("a", '/', "b", IsSlash);
    assert "a" + ['/'] + "b" == "a/b";
  }

  /** ... but part of the name for the resolved path. */
  lemma BackslashName(base: Dir)
    ensures ResolveSafePath(base, Some(JStr("a\\b"))).Resolved? ==>
      ResolveSafePath(base, Some(JStr("a\\b"))).resolved == Render(base + ["a\\b"])
  {
    ResolvedName(base, "a\\b");
  }

  /** A path of one name, without `/`, resolves to that name under the base. */
  lemma ResolvedName(base: Dir, n: string)
    requires n != "" && n != "."
    requires forall k :: 0 <= k < |n| ==> !IsSlash(n[k])
    ensures ResolveSafePath(base, Some(JStr(n))).Resolved? ==>
      ResolveSafePath(base, Some(JStr(n))).resolved == Render(base + [n])
  {
    var r := ResolveSafePath(base, Some(JStr(n)));
    if r.Resolved? {
      PiecesOfName(n, IsSlash);
      assert Kept([n]) == [n] by { assert [n][..0] == []; }
      assert r.resolved == Render(base + Kept(Pieces(n, IsSlash)));
    }
  }

  // ---------------------------------------------------------------- addPath

  /**
   * The `paths` map `collectPackageFiles` fills (normalised key to resolved
   * absolute path, in insertion order, as a JavaScript `Map` iterates) and
   * the `errors` array it appends to.
   */
  class PathIndex {
    var keys: seq<string>
    var paths: map<string, string>
    var errors: seq<string>

    /** The keys are the map's keys, each once. */
    ghost predicate Valid()
      reads this
    {
      && (forall i, j :: 0 <= i < j < |keys| ==> keys[i] != keys[j])
      && (forall k :: k in paths <==> k in keys)
    }

    /** Every recorded path is a regular file inside the package directory. */
    ghost predicate Within(h: Host, base: Dir)
      reads this
    {
      forall k :: k in paths ==> IsFile(h, paths[k]) && exists segs :: paths[k] == Render(base + segs)
    }

    constructor ()
      ensures keys == [] && paths == map[] && errors == []
      ensures Valid()
    {
      keys, paths, errors := [], map[], [];
    }

    /**
     * `addPath`: an unsafe, missing or non-regular path records an error and
     * inserts nothing; a regular file is inserted under its normalised key
     * unless that key is already present (the first path wins).
     */
    method AddPath(h: Host, base: Dir, relPath: string)
      requires Valid()
      modifies this
      ensures Valid()
      ensures old(Within(h, base)) ==> Within(h, base)
      ensures var safe := ResolveSafePath(base, Some(JStr(relPath)));
        var key := NormalizeRelPath(relPath);
        && (safe.Rejected? ==>
              keys == old(keys) && paths == old(paths)
              && errors == old(errors) + ["Unsafe path: " + relPath + " (" + safe.message + ")"])
        && (safe.Resolved? && !Exists(h, safe.resolved) ==>
              keys == old(keys) && paths == old(paths) && errors == old(errors) + ["Missing file: " + key])
        && (safe.Resolved? && Exists(h, safe.resolved) && !IsFile(h, safe.resolved) ==>
              keys == old(keys) && paths == old(paths) && errors == old(errors) + ["Not a regular file: " + key])
        && (safe.Resolved? && IsFile(h, safe.resolved) ==>
              errors == old(errors)
              && (key in old(paths) ==> keys == old(keys) && paths == old(paths))
              && (key !in old(paths) ==> keys == old(keys) + [key] && paths == old(paths)[key := safe.resolved]))
    {
      var safe := ResolveSafePath(base, Some(JStr(relPath)));
      if safe.Rejected? {
        errors := errors + ["Unsafe path: " + relPath + " (" + safe.message + ")"];
        return;
      }
      var normalized := NormalizeRelPath(relPath);
      if !Exists(h, safe.resolved) {
        errors := errors + ["Missing file: " + normalized];
        return;
      }
      if !IsFile(h, safe.resolved) {
        errors := errors + ["Not a regular file: " + normalized];
        return;
      }
      if normalized !in paths {
        ghost var s := Kept(Pieces(relPath, IsSlash));
        assert safe.resolved == Render(base + s);
        paths := paths[normalized := safe.resolved];
        keys := keys + [normalized];
      }
    }

    /**
     * The loop of `createVolumes` over `paths.entries()`: each key with its
     * path and its `fileSize`, in insertion order; a path that is not a
     * regular file any more throws.
     */
    method Entries(h: Host) returns (r: Result<seq<FileEntry>>)
      requires Valid()
      ensures r.Ok? <==> forall i :: 0 <= i < |keys| ==> IsFile(h, paths[keys[i]])
      ensures r.Ok? ==>
        && |r.value| == |keys| && UniqueNames(r.value)
        && forall i :: 0 <= i < |keys| ==>
             IsFile(h, paths[keys[i]]) && r.value[i] == FileEntry(keys[i], paths[keys[i]], Size(h, paths[keys[i]]))
    {
      var entries: seq<FileEntry> := [];
      for i := 0 to |keys|
        invariant |entries| == i
        invariant forall j :: 0 <= j < i ==>
          IsFile(h, paths[keys[j]]) && entries[j] == FileEntry(keys[j], paths[keys[j]], Size(h, paths[keys[j]]))
      {
        var absPath := paths[keys[i]];
        if !Exists(h, absPath) {
          return Failure("ENOENT: no such file or directory, stat '" + absPath + "'");
        }
        if !IsFile(h, absPath) {
          return Failure("Not a regular file: " + absPath);
        }
        entries := entries + [FileEntry(keys[i], absPath, Size(h, absPath))];
      }
      return Ok(entries);
    }
  }

  // ----------------------------------------------------------- buildVolumes

  const ManifestName := "sitepack.manifest.json"
  const CatalogName := "sitepack.catalog.json"
  /** The files the first part must hold, in this order. */
  const RequiredNames: seq<string> := [ManifestName, CatalogName]

  /** One file to pack: its key, its absolute path and its size in bytes. */
  datatype FileEntry = FileEntry(relPath: string, absPath: string, size: nat)

  /** The keys of a list of entries are pairwise different (as the keys of a `Map` are). */
  predicate UniqueNames(entries: seq<FileEntry>)
  {
    forall i, j :: 0 <= i < j < |entries| ==> entries[i].relPath != entries[j].relPath
  }

  /** The bytes of a part. */
  function Total(part: seq<FileEntry>): nat
  {
    if part == [] then 0 else Total(part[..|part| - 1]) + part[|part| - 1].size
  }

  /** The parts one after the other. */
  function Concat(parts: seq<seq<FileEntry>>): seq<FileEntry>
  {
    if parts == [] then [] else Concat(parts[..|parts| - 1]) + parts[|parts| - 1]
  }

  /** The entries whose key is a required name, in order. */
  function RequiredOf(entries: seq<FileEntry>): (r: seq<FileEntry>)
    ensures forall e :: e in r ==> e in entries && e.relPath in RequiredNames
  {
    if entries == [] then []
    else
      var last := entries[|entries| - 1];
      RequiredOf(entries[..|entries| - 1]) + (if last.relPath in RequiredNames then [last] else [])
  }

  /** The other entries, in order. */
  function RemainingOf(entries: seq<FileEntry>): (r: seq<FileEntry>)
    ensures forall e :: e in r ==> e in entries && e.relPath !in RequiredNames
  {
    if entries == [] then []
    else
      var last := entries[|entries| - 1];
      RemainingOf(entries[..|entries| - 1]) + (if last.relPath in RequiredNames then [] else [last])
  }

  /** `Array.prototype.find` by key: the first entry with that key. */
  function FindEntry(entries: seq<FileEntry>, name: string): (r: Option<FileEntry>)
    ensures r.Some? ==> r.value in entries && r.value.relPath == name
    ensures r.None? <==> forall i :: 0 <= i < |entries| ==> entries[i].relPath != name
  {
    if entries == [] then None
    else
      var prev := FindEntry(entries[..|entries| - 1], name);
      if prev.Some? then prev
      else if entries[|entries| - 1].relPath == name then Some(entries[|entries| - 1])
      else None
  }

  function Found(o: Option<FileEntry>): seq<FileEntry>
  {
    if o.Some? then [o.value] else []
  }

  /** `missingRequired`: the required names no required entry carries, in order. */
  function MissingOf(requiredEntries: seq<FileEntry>): seq<string>
  {
    (if FindEntry(requiredEntries, ManifestName).None? then [ManifestName] else [])
    + (if FindEntry(requiredEntries, CatalogName).None? then [CatalogName] else [])
  }

  /** `sortedRequired` without its holes: the first manifest entry, then the first catalog entry. */
  function HeadOf(entries: seq<FileEntry>): seq<FileEntry>
  {
    var required := RequiredOf(entries);
    Found(FindEntry(required, ManifestName)) + Found(FindEntry(required, CatalogName))
  }

  /** `localeCompare` on keys, as an integer collation key. */
  function RelPathKey(collate: string -> int): FileEntry -> int
  {
    (e: FileEntry) => collate(e.relPath)
  }

  /** `sortedRemaining`: the other entries in collation order (a stable sort). */
  function RestOf(entries: seq<FileEntry>, collate: string -> int): seq<FileEntry>
  {
    SortBy(RemainingOf(entries), ByKey(RelPathKey(collate)))
  }

  /** Every part is non-empty and within the bound. */
  predicate Fits(parts: seq<seq<FileEntry>>, maxPartSize: int)
  {
    forall i :: 0 <= i < |parts| ==> parts[i] != [] && Total(parts[i]) <= maxPartSize
  }

  /** A part ends only where its next part's first entry would not have fitted. */
  predicate SplitsOnOverflow(parts: seq<seq<FileEntry>>, maxPartSize: int)
  {
    forall i :: 1 <= i < |parts| ==> parts[i] != [] && Total(parts[i - 1]) + parts[i][0].size > maxPartSize
  }

  /** The parts hold `head` then `rest`, each non-empty and within the bound, split only on overflow, the first opening with `head`'s two entries. */
  predicate Packed(parts: seq<seq<FileEntry>>, head: seq<FileEntry>, rest: seq<FileEntry>, maxPartSize: int)
    requires |head| >= 2
  {
    && Concat(parts) == head + rest
    && Fits(parts, maxPartSize)
    && SplitsOnOverflow(parts, maxPartSize)
    && parts != [] && |parts[0]| >= 2 && parts[0][..2] == head[..2]
  }

  /** `rest[i]` is the first entry over the bound. */
  predicate FirstOversized(rest: seq<FileEntry>, i: int, maxPartSize: int)
  {
    0 <= i < |rest| && rest[i].size > maxPartSize && forall j :: 0 <= j < i ==> rest[j].size <= maxPartSize
  }

  function SizeClash(size: int, maxPartSize: int): string
  {
    "(" + IntToString(size) + " > " + IntToString(maxPartSize) + ")"
  }

  /** The packing loop's state: closed parts and the open one hold `head` then `done`, all part properties hold. */
  predicate Packing(parts: seq<seq<FileEntry>>, current: seq<FileEntry>, currentSize: int,
                    head: seq<FileEntry>, done: seq<FileEntry>, maxPartSize: int)
  {
    && current != [] && currentSize == Total(current) <= maxPartSize
    && |head| >= 2
    && Concat(parts + [current]) == head + done
    && Fits(parts + [current], maxPartSize) && SplitsOnOverflow(parts + [current], maxPartSize)
    && |(parts + [current])[0]| >= 2 && (parts + [current])[0][..2] == head[..2]
  }

  /** The loop starts with the required entries as the open part. */
  lemma StartPacking(head: seq<FileEntry>, maxPartSize: int)
    requires |head| >= 2 && Total(head) <= maxPartSize
    ensures Packing([], head, Total(head), head, [], maxPartSize)
  {
    assert [] + [head] == [head];
    assert [head][..0] == [];
  }

  /** Closing the open part and opening one with `e`, when `e` did not fit. */
  lemma ClosePart(parts: seq<seq<FileEntry>>, current: seq<FileEntry>, head: seq<FileEntry>, done: seq<FileEntry>,
                  e: FileEntry, maxPartSize: int)
    requires Packing(parts, current, Total(current), head, done, maxPartSize)
    requires Total(current) + e.size > maxPartSize && e.size <= maxPartSize
    ensures Packing(parts + [current], [e], e.size, head, done + [e], maxPartSize)
  {
    var ps: seq<seq<FileEntry>> := parts + [current];
    var qs: seq<seq<FileEntry>> := ps + [[e]];
    assert qs[..|ps|] == ps;
    assert Total([e]) == e.size by { assert [e][..0] == []; }
    assert Concat(qs) == head + done + [e];
    forall i | 1 <= i < |qs|
      ensures qs[i] != [] && Total(qs[i - 1]) + qs[i][0].size > maxPartSize
    {
      if i < |ps| { assert qs[i - 1] == ps[i - 1] && qs[i] == ps[i]; }
    }
    assert qs[0] == ps[0];
  }

  /** Adding `e` to the open part, when it fits. */
  lemma GrowPart(parts: seq<seq<FileEntry>>, current: seq<FileEntry>, head: seq<FileEntry>, done: seq<FileEntry>,
                 e: FileEntry, maxPartSize: int)
    requires Packing(parts, current, Total(current), head, done, maxPartSize)
    requires Total(current) + e.size <= maxPartSize
    ensures Packing(parts, current + [e], Total(current) + e.size, head, done + [e], maxPartSize)
  {
    var next := current + [e];
    assert next[..|current|] == current;
    assert Total(next) == Total(current) + e.size;
    ConcatSnoc(parts, current);
    ConcatSnoc(parts, next);
    Associative(Concat(parts), current, [e]);
    Associative(head, done, [e]);
    ReplaceOpenPart(parts, current, next, maxPartSize);
    if parts == [] {
      assert next[..2] == current[..2];
    } else {
      assert (parts + [next])[0] == (parts + [current])[0];
    }
  }

  lemma ConcatSnoc(parts: seq<seq<FileEntry>>, part: seq<FileEntry>)
    ensures Concat(parts + [part]) == Concat(parts) + part
  {
    assert (parts + [part])[..|parts|] == parts;
  }

  /** The open part may grow at its end while it stays within the bound. */
  lemma ReplaceOpenPart(parts: seq<seq<FileEntry>>, current: seq<FileEntry>, next: seq<FileEntry>, maxPartSize: int)
    requires current != [] && |next| >= |current| && next[0] == current[0] && Total(next) <= maxPartSize
    requires Fits(parts + [current], maxPartSize) && SplitsOnOverflow(parts + [current], maxPartSize)
    ensures Fits(parts + [next], maxPartSize) && SplitsOnOverflow(parts + [next], maxPartSize)
  {
    var ps: seq<seq<FileEntry>> := parts + [current];
    var qs: seq<seq<FileEntry>> := parts + [next];
    forall i | 0 <= i < |qs|
      ensures qs[i] != [] && Total(qs[i]) <= maxPartSize
    {
      if i < |parts| { assert qs[i] == ps[i]; }
    }
    forall i | 1 <= i < |qs|
      ensures qs[i] != [] && Total(qs[i - 1]) + qs[i][0].size > maxPartSize
    {
      assert qs[i - 1] == ps[i - 1];
      if i < |parts| { assert qs[i] == ps[i]; } else { assert qs[i][0] == ps[i][0]; }
    }
  }

  /** When the loop ends, closing the open part gives the packed parts. */
  lemma FinishPacking(parts: seq<seq<FileEntry>>, current: seq<FileEntry>, head: seq<FileEntry>, rest: seq<FileEntry>,
                      maxPartSize: int)
    requires Packing(parts, current, Total(current), head, rest, maxPartSize)
    ensures Packed(parts + [current], head, rest, maxPartSize)
  {
  }

  /** One step of the packing loop for an entry within the bound: open a new part if it would overflow, then add it. */
  method Place(volumes: seq<seq<FileEntry>>, current: seq<FileEntry>, currentSize: int, head: seq<FileEntry>,
               done: seq<FileEntry>, entry: FileEntry, maxPartSize: int)
    returns (volumes': seq<seq<FileEntry>>, current': seq<FileEntry>, currentSize': int)
    requires Packing(volumes, current, currentSize, head, done, maxPartSize) && entry.size <= maxPartSize
    ensures Packing(volumes', current', currentSize', head, done + [entry], maxPartSize)
    ensures currentSize + entry.size > maxPartSize ==> volumes' == volumes + [current] && current' == [entry]
    ensures currentSize + entry.size <= maxPartSize ==> volumes' == volumes && current' == current + [entry]
  {
    volumes', current', currentSize' := volumes, current, currentSize;
    if currentSize' + entry.size > maxPartSize {
      ClosePart(volumes, current, head, done, entry, maxPartSize);
      volumes' := volumes' + [current'];
      current' := [];
      currentSize' := 0;
    } else {
      GrowPart(volumes, current, head, done, entry, maxPartSize);
    }
    current' := current' + [entry];
    currentSize' := currentSize' + entry.size;
  }

  /** The first loop of `buildVolumes`: required entries to one side, the rest to the other, each in order. */
  method Partition(entries: seq<FileEntry>) returns (requiredEntries: seq<FileEntry>, remaining: seq<FileEntry>)
    ensures requiredEntries == RequiredOf(entries) && remaining == RemainingOf(entries)
  {
    requiredEntries, remaining := [], [];
    for i := 0 to |entries|
      invariant requiredEntries == RequiredOf(entries[..i])
      invariant remaining == RemainingOf(entries[..i])
    {
      assert entries[..i + 1][..i] == entries[..i];
      if entries[i].relPath in RequiredNames {
        requiredEntries := requiredEntries + [entries[i]];
      } else {
        remaining := remaining + [entries[i]];
      }
    }
    assert entries[..|entries|] == entries;
  }

  /**
   * The packing loop of `buildVolumes`, from the part holding the required
   * entries: an entry over the bound throws; otherwise parts are closed
   * exactly where the next entry would overflow.
   */
  method Pack(head: seq<FileEntry>, rest: seq<FileEntry>, maxPartSize: int) returns (r: Result<seq<seq<FileEntry>>>)
    requires |head| >= 2 && Total(head) <= maxPartSize
    ensures r.Failure? <==> exists i :: 0 <= i < |rest| && rest[i].size > maxPartSize
    ensures r.Failure? ==>
      exists i :: FirstOversized(rest, i, maxPartSize)
        && r.error == "File exceeds maxPartSize: " + rest[i].relPath + " " + SizeClash(rest[i].size, maxPartSize)
    ensures r.Ok? ==> Packed(r.value, head, rest, maxPartSize)
  {
    var volumes: seq<seq<FileEntry>> := [];
    var current := head;
    var currentSize := Total(head);
    StartPacking(head, maxPartSize);
    for i := 0 to |rest|
      invariant Packing(volumes, current, currentSize, head, rest[..i], maxPartSize)
      invariant forall j :: 0 <= j < i ==> rest[j].size <= maxPartSize
    {
      var entry := rest[i];
      if entry.size > maxPartSize {
        assert FirstOversized(rest, i, maxPartSize);
        return Failure("File exceeds maxPartSize: " + entry.relPath + " " + SizeClash(entry.size, maxPartSize));
      }
      assert rest[..i + 1] == rest[..i] + [entry];
      volumes, current, currentSize := Place(volumes, current, currentSize, head, rest[..i], entry, maxPartSize);
    }
    assert rest[..|rest|] == rest;
    FinishPacking(volumes, current, head, rest, maxPartSize);
    if current != [] {
      volumes := volumes + [current];
    }
    return Ok(volumes);
  }

  /**
   * `buildVolumes`: a missing manifest or catalog, required files over the
   * bound, or any other file over the bound throws; otherwise the parts hold
   * the required entries and then the others in collation order, every part
   * non-empty and within the bound, a new part opened only where the next
   * entry would overflow, and the first part starting with the manifest and
   * the catalog.
   */
  method BuildVolumes(entries: seq<FileEntry>, maxPartSize: int, collate: string -> int) returns (r: Result<seq<seq<FileEntry>>>)
    ensures var missing := MissingOf(RequiredOf(entries));
      missing != [] ==> r == Failure("Missing required files: " + Join(missing, ", "))
    ensures MissingOf(RequiredOf(entries)) == [] && Total(HeadOf(entries)) > maxPartSize ==>
      r == Failure("Required files exceed maxPartSize " + SizeClash(Total(HeadOf(entries)), maxPartSize))
    ensures MissingOf(RequiredOf(entries)) == [] && Total(HeadOf(entries)) <= maxPartSize ==>
      var rest := RestOf(entries, collate);
      && (r.Failure? <==> exists i :: 0 <= i < |rest| && rest[i].size > maxPartSize)
      && (r.Failure? ==>
            exists i :: FirstOversized(rest, i, maxPartSize)
              && r.error == "File exceeds maxPartSize: " + rest[i].relPath + " " + SizeClash(rest[i].size, maxPartSize))
    ensures r.Ok? ==> |HeadOf(entries)| == 2 && Packed(r.value, HeadOf(entries), RestOf(entries, collate), maxPartSize)
  {
    var requiredEntries, remaining := Partition(entries);
    var missing := MissingOf(requiredEntries);
    if missing != [] {
      return Failure("Missing required files: " + Join(missing, ", "));
    }
    var sortedRequired := Found(FindEntry(requiredEntries, ManifestName)) + Found(FindEntry(requiredEntries, CatalogName));
    var currentSize := Total(sortedRequired);
    if currentSize > maxPartSize {
      return Failure("Required files exceed maxPartSize " + SizeClash(currentSize, maxPartSize));
    }
    assert sortedRequired == HeadOf(entries) && |sortedRequired| == 2;
    var sortedRemaining := SortBy(remaining, ByKey(RelPathKey(collate)));
    assert sortedRemaining == RestOf(entries, collate);
    r := Pack(sortedRequired, sortedRemaining, maxPartSize);
  }

  /** Finding a required name among the required entries finds it among all entries. */
  lemma {:induction false} FindInRequired(entries: seq<FileEntry>, name: string)
    requires name in RequiredNames
    ensures FindEntry(RequiredOf(entries), name) == FindEntry(entries, name)
    decreases |entries|
  {
    if entries != [] {
      var init, last := entries[..|entries| - 1], entries[|entries| - 1];
      FindInRequired(init, name);
      var req := RequiredOf(init);
      var prev := FindEntry(init, name);
      assert FindEntry(entries, name) == if prev.Some? then prev else if last.relPath == name then Some(last) else None;
      if last.relPath in RequiredNames {
        var r := req + [last];
        assert RequiredOf(entries) == r;
        assert r[..|r| - 1] == req && r[|r| - 1] == last;
        assert FindEntry(r, name) == if prev.Some? then prev else if last.relPath == name then Some(last) else None;
      } else {
        assert RequiredOf(entries) == req;
        assert last.relPath != name;
      }
    }
  }

  /** A required name is reported missing exactly when no entry carries it. */
  lemma MissingMeansAbsent(entries: seq<FileEntry>)
    ensures forall n :: n in RequiredNames ==>
      (n in MissingOf(RequiredOf(entries)) <==> forall i :: 0 <= i < |entries| ==> entries[i].relPath != n)
  {
    FindInRequired(entries, ManifestName);
    FindInRequired(entries, CatalogName);
  }

  /** With nothing missing, the first part opens with the first manifest entry, then the first catalog entry. */
  lemma HeadIsManifestThenCatalog(entries: seq<FileEntry>)
    requires MissingOf(RequiredOf(entries)) == []
    ensures |HeadOf(entries)| == 2
    ensures HeadOf(entries)[0] == FindEntry(entries, ManifestName).value && HeadOf(entries)[0].relPath == ManifestName
    ensures HeadOf(entries)[1] == FindEntry(entries, CatalogName).value && HeadOf(entries)[1].relPath == CatalogName
  {
    FindInRequired(entries, ManifestName);
    FindInRequired(entries, CatalogName);
  }

  /** The other entries are sorted by collation key, and none is lost or repeated by the sort. */
  lemma RestInCollationOrder(entries: seq<FileEntry>, collate: string -> int)
    ensures var rest := RestOf(entries, collate);
      forall i, j :: 0 <= i <= j < |rest| ==> collate(rest[i].relPath) <= collate(rest[j].relPath)
    ensures multiset(RestOf(entries, collate)) == multiset(RemainingOf(entries))
  {
    SortByKeyOrders(RemainingOf(entries), RelPathKey(collate));
  }

  /** Every entry goes to exactly one side of the partition. */
  lemma {:induction false} PartitionKeepsAll(entries: seq<FileEntry>)
    ensures multiset(RequiredOf(entries)) + multiset(RemainingOf(entries)) == multiset(entries)
    decreases |entries|
  {
    if entries != [] {
      var init := entries[..|entries| - 1];
      PartitionKeepsAll(init);
      assert entries == init + [entries[|entries| - 1]];
    }
  }

  /** With distinct keys, the required side is exactly the found manifest and catalog entries. */
  lemma {:induction false} RequiredAreTheFound(entries: seq<FileEntry>)
    requires UniqueNames(entries)
    ensures multiset(RequiredOf(entries))
         == multiset(Found(FindEntry(entries, ManifestName)) + Found(FindEntry(entries, CatalogName)))
    decreases |entries|
  {
    if entries != [] {
      var init, last := entries[..|entries| - 1], entries[|entries| - 1];
      UniqueInit(entries);
      RequiredAreTheFound(init);
      FoundSnoc(entries, ManifestName, CatalogName);
      var added := if last.relPath in RequiredNames then [last] else [];
      assert (last.relPath in RequiredNames) == (last.relPath == ManifestName || last.relPath == CatalogName);
      assert multiset(RequiredOf(entries)) == multiset(RequiredOf(init) + added) == multiset(RequiredOf(init)) + multiset(added);
    }
  }

  /** Dropping the last entry keeps the keys distinct, and no earlier entry shares the last one's key. */
  lemma UniqueInit(entries: seq<FileEntry>)
    requires UniqueNames(entries) && entries != []
    ensures UniqueNames(entries[..|entries| - 1])
    ensures FindEntry(entries[..|entries| - 1], entries[|entries| - 1].relPath).None?
  {
    var init := entries[..|entries| - 1];
    forall i, j | 0 <= i < j < |init| ensures init[i].relPath != init[j].relPath {
      assert init[i] == entries[i] && init[j] == entries[j];
    }
    forall i | 0 <= i < |init| ensures init[i].relPath != entries[|entries| - 1].relPath {
      assert init[i] == entries[i];
    }
  }

  /** A last entry with a fresh key adds itself to the entries found under two distinct names when it carries one of them. */
  lemma FoundSnoc(entries: seq<FileEntry>, a: string, b: string)
    requires a != b && entries != []
    requires FindEntry(entries[..|entries| - 1], entries[|entries| - 1].relPath).None?
    ensures var init, last := entries[..|entries| - 1], entries[|entries| - 1];
      multiset(Found(FindEntry(entries, a)) + Found(FindEntry(entries, b)))
      == multiset(Found(FindEntry(init, a)) + Found(FindEntry(init, b)))
         + multiset(if last.relPath == a || last.relPath == b then [last] else [])
  {
    var init, last := entries[..|entries| - 1], entries[|entries| - 1];
    FoundAddsLast(FindEntry(init, a), FindEntry(init, b), FindEntry(entries, a), FindEntry(entries, b),
      last, last.relPath == a, last.relPath == b);
  }

  /** Two lookups that each gain `last` only when they had no match before: the found entries gain `last` once. */
  lemma FoundAddsLast(m: Option<FileEntry>, c: Option<FileEntry>, m': Option<FileEntry>, c': Option<FileEntry>,
                      last: FileEntry, hitA: bool, hitB: bool)
    requires !(hitA && hitB)
    requires hitA ==> m.None?
    requires hitB ==> c.None?
    requires m' == if m.Some? then m else if hitA then Some(last) else None
    requires c' == if c.Some? then c else if hitB then Some(last) else None
    ensures multiset(Found(m') + Found(c')) == multiset(Found(m) + Found(c)) + multiset(if hitA || hitB then [last] else [])
  {
    var before := Found(m) + Found(c);
    if hitA {
      assert Found(m) == [] && Found(m') == [last] && c' == c;
      assert before == Found(c);
      assert multiset(Found(m') + Found(c')) == multiset([last]) + multiset(before);
    } else if hitB {
      assert Found(c) == [] && Found(c') == [last] && m' == m;
      assert before == Found(m);
      assert multiset(Found(m') + Found(c')) == multiset(before) + multiset([last]);
    } else {
      assert m' == m && c' == c;
    }
  }

  /**
   * With distinct keys (as the `paths` map gives) and nothing missing, the
   * parts hold every entry exactly once: required entries first, the others after.
   */
  lemma NothingDroppedOrRepeated(entries: seq<FileEntry>, collate: string -> int)
    requires UniqueNames(entries)
    requires MissingOf(RequiredOf(entries)) == []
    ensures multiset(HeadOf(entries) + RestOf(entries, collate)) == multiset(entries)
  {
    FindInRequired(entries, ManifestName);
    FindInRequired(entries, CatalogName);
    RequiredAreTheFound(entries);
    RestInCollationOrder(entries, collate);
    PartitionKeepsAll(entries);
  }

  // ---------------------------------------------------------- createVolumes

  /** One part as the descriptor lists it. */
  datatype VolumeRecord = VolumeRecord(index: nat, file: string, size: nat, sha256: string)

  /** `options.baseName || 'sitepack'`. */
  function BaseNameOr(baseName: Option<string>): (r: string)
    ensures r != ""
  {
    if baseName.None? || baseName.value == "" then "sitepack" else baseName.value
  }

  /** The file name of part `index`. */
  function PartName(baseName: string, index: nat): string
  {
    baseName + ".part" + NatToString(index) + ".sitepack"
  }

  /** `path.join(outDir, name)` for a plain name. */
  function OutputPath(outDir: Dir, name: string): string
  {
    Render(outDir + [name])
  }

  const DescriptorName := "sitepack.volumes.json"

  /** `manifest.package.id` when `manifest.package` is truthy and the id a string. */
  function ManifestId(manifest: Json): Option<string>
  {
    var package := Prop(manifest, "package");
    var id := PropOf(package, "id");
    if JsTruthy(package) && id.Some? && id.value.JStr? then Some(id.value.s) else None
  }

  /** `path.basename` of a directory: its last segment, or nothing for the root. */
  function DirName(dir: Dir): string
  {
    if dir == [] then "" else dir[|dir| - 1]
  }

  /**
   * `packageId`: the option, else the manifest's id, else the package
   * directory's name, each skipped when empty (JavaScript `||`).
   */
  function PackageIdOf(packageId: Option<string>, manifest: Json, packageDir: Dir): (r: string)
    ensures packageId.Some? && packageId.value != "" ==> r == packageId.value
    ensures r == "" <==>
      && (packageId.None? || packageId.value == "")
      && (ManifestId(manifest).None? || ManifestId(manifest).value == "")
      && DirName(packageDir) == ""
    ensures r == "" || (packageId.Some? && r == packageId.value) || ManifestId(manifest) == Some(r) || r == DirName(packageDir)
  {
    if packageId.Some? && packageId.value != "" then packageId.value
    else if ManifestId(manifest).Some? && ManifestId(manifest).value != "" then ManifestId(manifest).value
    else DirName(packageDir)
  }

  /** One descriptor entry: the part's record with the number of parts. */
  function VolumeItem(v: VolumeRecord, count: nat): Json
  {
    JObj(map["index" := JInt(v.index), "count" := JInt(count), "file" := JStr(v.file),
             "size" := JInt(v.size), "sha256" := JStr(v.sha256)])
  }

  function VolumeItems(records: seq<VolumeRecord>): (r: seq<Json>)
    ensures |r| == |records|
    ensures forall i :: 0 <= i < |records| ==> r[i] == VolumeItem(records[i], |records|)
  {
    seq(|records|, i requires 0 <= i < |records| => VolumeItem(records[i], |records|))
  }

  /** The descriptor `createVolumes` writes. */
  function DescriptorOf(packageId: string, maxPartSize: int, records: seq<VolumeRecord>): Json
  {
    JObj(map[
      "spec" := JObj(map["name" := JStr("sitepack"), "version" := JStr("0.4.0")]),
      "kind" := JStr("volume-set"),
      "packageId" := JStr(packageId),
      "container" := JStr("zip"),
      "maxPartSize" := JInt(maxPartSize),
      "bootstrap" := JObj(map["volumeIndex" := JInt(1), "containsManifest" := JBool(true), "containsCatalog" := JBool(true)]),
      "volumes" := JArr(VolumeItems(records))])
  }

  /** A decimal rendering is one character long exactly for one-digit numbers. */
  lemma {:induction false} NatToStringShort(n: nat)
    ensures |NatToString(n)| == 1 <==> n < 10
  {
    if n >= 10 {
      assert |NatToString(n)| == |NatToString(n / 10)| + 1;
    }
  }

  /** Decimal renderings of different numbers differ. */
  lemma {:induction false} NatToStringInjective(a: nat, b: nat)
    requires NatToString(a) == NatToString(b)
    ensures a == b
    decreases a
  {
    var s := NatToString(a);
    NatToStringShort(a);
    NatToStringShort(b);
    if |s| == 1 {
      assert "0123456789"[a] == s[0] == "0123456789"[b];
    } else {
      var n := |s|;
      assert NatToString(a / 10) == s[..n - 1] == NatToString(b / 10);
      NatToStringInjective(a / 10, b / 10);
      assert "0123456789"[a % 10] == s[n - 1] == "0123456789"[b % 10];
    }
  }

  /** Different part numbers give different file names. */
  lemma PartNamesDistinct(baseName: string, i: nat, j: nat)
    requires i != j
    ensures PartName(baseName, i) != PartName(baseName, j)
  {
    if PartName(baseName, i) == PartName(baseName, j) {
      Framed(baseName + ".part", NatToString(i), NatToString(j), ".sitepack");
      NatToStringInjective(i, j);
    }
  }

  /** Different plain names in one directory are different paths. */
  lemma OutputPathsDistinct(outDir: Dir, a: string, b: string)
    requires a != b
    ensures OutputPath(outDir, a) != OutputPath(outDir, b)
  {
    var prefix := if outDir == [] then "/" else "/" + Join(outDir, "/") + "/";
    if outDir != [] {
      JoinSnoc(outDir, a, "/");
      JoinSnoc(outDir, b, "/");
    }
    assert OutputPath(outDir, a) == prefix + a && OutputPath(outDir, b) == prefix + b;
    assert (prefix + a)[|prefix|..] == a;
    assert (prefix + b)[|prefix|..] == b;
  }

  /** A part's name never is the descriptor's name: they end differently. */
  lemma PartIsNotDescriptor(baseName: string, index: nat)
    ensures PartName(baseName, index) != DescriptorName
  {
    var n := PartName(baseName, index);
    assert n[|n| - 1] == 'k';
    assert DescriptorName[|DescriptorName| - 1] == 'n';
  }

  /** The file names of `n` parts, numbered from 1. */
  function PartNames(baseName: string, n: nat): (r: seq<string>)
    ensures |r| == n
    ensures forall i :: 0 <= i < n ==> r[i] == PartName(baseName, i + 1)
  {
    seq(n, i requires 0 <= i < n => PartName(baseName, i + 1))
  }

  /** The paths of those names in the output directory. */
  function OutputPaths(outDir: Dir, names: seq<string>): (r: seq<string>)
    ensures |r| == |names|
    ensures forall i :: 0 <= i < |names| ==> r[i] == OutputPath(outDir, names[i])
  {
    seq(|names|, i requires 0 <= i < |names| => OutputPath(outDir, names[i]))
  }

  predicate NoRepeats(xs: seq<string>)
  {
    forall i, j :: 0 <= i < j < |xs| ==> xs[i] != xs[j]
  }

  /** Part paths never collide with each other nor with the descriptor. */
  lemma PartPathsDistinct(outDir: Dir, baseName: string, n: nat)
    ensures var paths := OutputPaths(outDir, PartNames(baseName, n));
      NoRepeats(paths) && OutputPath(outDir, DescriptorName) !in paths
  {
    var names := PartNames(baseName, n);
    var paths := OutputPaths(outDir, names);
    forall i, j | 0 <= i < j < n ensures paths[i] != paths[j] {
      PartNamesDistinct(baseName, i + 1, j + 1);
      OutputPathsDistinct(outDir, names[i], names[j]);
    }
    forall i | 0 <= i < n ensures paths[i] != OutputPath(outDir, DescriptorName) {
      PartIsNotDescriptor(baseName, i + 1);
      OutputPathsDistinct(outDir, names[i], DescriptorName);
    }
  }

  /** A part can go to `path`: the path is free or a file that may be overwritten, and the archive fits. */
  predicate PartWritable(tree: Tree, overwrite: bool, maxPartSize: int, path: string, archive: seq<bv8>)
  {
    (path !in tree || (overwrite && tree[path].File?)) && |archive| <= maxPartSize
  }

  predicate AllWritable(tree: Tree, zip: seq<FileEntry> -> seq<bv8>, volumes: seq<seq<FileEntry>>, paths: seq<string>,
                        overwrite: bool, maxPartSize: int)
    requires |paths| == |volumes|
  {
    forall i :: 0 <= i < |volumes| ==> PartWritable(tree, overwrite, maxPartSize, paths[i], zip(volumes[i]))
  }

  /**
   * The output directory can be made (it is not a file), every part of the
   * set can be written, and so can the descriptor: it may exist only when
   * overwriting, and only as a file.
   */
  predicate Creatable(tree: Tree, zip: seq<FileEntry> -> seq<bv8>, outDir: Dir, baseName: string,
                      overwrite: bool, maxPartSize: int, volumes: seq<seq<FileEntry>>)
  {
    && !(Render(outDir) in tree && tree[Render(outDir)].File?)
    && AllWritable(tree, zip, volumes, OutputPaths(outDir, PartNames(baseName, |volumes|)), overwrite, maxPartSize)
    && (OutputPath(outDir, DescriptorName) in tree ==>
          overwrite && tree[OutputPath(outDir, DescriptorName)].File?)
  }

  /** The tree once the first `n` parts are written to their paths. */
  function Written(tree: Tree, zip: seq<FileEntry> -> seq<bv8>, volumes: seq<seq<FileEntry>>, paths: seq<string>, n: nat): Tree
    requires n <= |volumes| == |paths|
    decreases n
  {
    if n == 0 then tree
    else Written(tree, zip, volumes, paths, n - 1)[paths[n - 1] := File(zip(volumes[n - 1]), true, true)]
  }

  /** The records of the parts: number, file name, size and digest. */
  function Records(sha256: seq<bv8> -> string, zip: seq<FileEntry> -> seq<bv8>, volumes: seq<seq<FileEntry>>,
                   names: seq<string>): (r: seq<VolumeRecord>)
    requires |names| == |volumes|
    ensures |r| == |volumes|
  {
    seq(|volumes|, i requires 0 <= i < |volumes| =>
      VolumeRecord(i + 1, names[i], |zip(volumes[i])|, sha256(zip(volumes[i]))))
  }

  /** Written parts hold their archives, when no two parts share a path. */
  lemma {:induction false} WrittenParts(tree: Tree, zip: seq<FileEntry> -> seq<bv8>, volumes: seq<seq<FileEntry>>,
                                        paths: seq<string>, n: nat, k: nat)
    requires k < n <= |volumes| == |paths|
    requires NoRepeats(paths)
    ensures paths[k] in Written(tree, zip, volumes, paths, n)
    ensures Written(tree, zip, volumes, paths, n)[paths[k]] == File(zip(volumes[k]), true, true)
    decreases n
  {
    if k < n - 1 {
      WrittenParts(tree, zip, volumes, paths, n - 1, k);
    }
  }

  /** Writing parts leaves every other path as it was. */
  lemma {:induction false} WrittenElsewhere(tree: Tree, zip: seq<FileEntry> -> seq<bv8>, volumes: seq<seq<FileEntry>>,
                                            paths: seq<string>, n: nat, p: string)
    requires n <= |volumes| == |paths|
    requires p !in paths[..n]
    ensures p in Written(tree, zip, volumes, paths, n) <==> p in tree
    ensures p in tree ==> Written(tree, zip, volumes, paths, n)[p] == tree[p]
    decreases n
  {
    if n > 0 {
      assert paths[..n - 1] == paths[..n][..n - 1];
      WrittenElsewhere(tree, zip, volumes, paths, n - 1, p);
    }
  }

  /**
   * The loop of `createVolumes` writing the parts: part `i` goes to
   * `paths[i]` unless that path exists and may not be overwritten, or the
   * archive exceeds the bound.
   */
  method WriteParts(tree: Tree, sha256: seq<bv8> -> string, zip: seq<FileEntry> -> seq<bv8>, volumes: seq<seq<FileEntry>>,
                    names: seq<string>, paths: seq<string>, maxPartSize: int, overwrite: bool)
    returns (r: Result<seq<VolumeRecord>>, tree': Tree)
    requires |names| == |paths| == |volumes|
    requires NoRepeats(paths)
    ensures r.Ok? <==> AllWritable(tree, zip, volumes, paths, overwrite, maxPartSize)
    ensures r.Ok? ==>
      && r.value == Records(sha256, zip, volumes, names)
      && tree' == Written(tree, zip, volumes, paths, |volumes|)
  {
    var records: seq<VolumeRecord> := [];
    tree' := tree;
    for i := 0 to |volumes|
      invariant records == Records(sha256, zip, volumes[..i], names[..i])
      invariant tree' == Written(tree, zip, volumes, paths, i)
      invariant forall k :: 0 <= k < i ==> PartWritable(tree, overwrite, maxPartSize, paths[k], zip(volumes[k]))
    {
      var outputPath := paths[i];
      WrittenElsewhere(tree, zip, volumes, paths, i, outputPath);
      if outputPath in tree' {
        if !overwrite {
          return Failure("Output file already exists: " + outputPath), tree';
        }
        if tree'[outputPath].Dir? {
          return Failure("EISDIR: illegal operation on a directory, unlink '" + outputPath + "'"), tree';
        }
      }
      var bytes := zip(volumes[i]);
      tree' := tree'[outputPath := File(bytes, true, true)];
      var size := |bytes|;
      if size > maxPartSize {
        return Failure("Volume exceeds maxPartSize: " + names[i] + " " + SizeClash(size, maxPartSize)), tree';
      }
      records := records + [VolumeRecord(i + 1, names[i], size, sha256(bytes))];
      assert records == Records(sha256, zip, volumes[..i + 1], names[..i + 1]);
    }
    assert volumes[..|volumes|] == volumes && names[..|names|] == names;
    return Ok(records), tree';
  }

  /** A file in a directory is never the directory itself: its path is longer. */
  lemma OutputPathIsNotDir(outDir: Dir, name: string)
    requires name != ""
    ensures OutputPath(outDir, name) != Render(outDir)
  {
    if outDir != [] {
      JoinSnoc(outDir, name, "/");
    }
  }

  /** Making the output directory changes no part's prospects. */
  lemma {:induction false} WritableAfterMkdir(tree: Tree, zip: seq<FileEntry> -> seq<bv8>, outDir: Dir, baseName: string,
                                              overwrite: bool, maxPartSize: int, volumes: seq<seq<FileEntry>>)
    ensures var paths := OutputPaths(outDir, PartNames(baseName, |volumes|));
      (AllWritable(tree[Render(outDir) := Dir], zip, volumes, paths, overwrite, maxPartSize)
       <==> AllWritable(tree, zip, volumes, paths, overwrite, maxPartSize))
  {
    var paths := OutputPaths(outDir, PartNames(baseName, |volumes|));
    forall i | 0 <= i < |volumes|
      ensures (PartWritable(tree[Render(outDir) := Dir], overwrite, maxPartSize, paths[i], zip(volumes[i]))
               <==> PartWritable(tree, overwrite, maxPartSize, paths[i], zip(volumes[i])))
    {
      OutputPathIsNotDir(outDir, PartName(baseName, i + 1));
    }
  }

  /** The tree after a successful run: the output directory made, the parts written, then the descriptor. */
  function Created(tree: Tree, zip: seq<FileEntry> -> seq<bv8>, outDir: Dir, baseName: string,
                   volumes: seq<seq<FileEntry>>, descriptor: FileNode): Tree
  {
    Written(tree[Render(outDir) := Dir], zip, volumes, OutputPaths(outDir, PartNames(baseName, |volumes|)), |volumes|)[
      OutputPath(outDir, DescriptorName) := descriptor]
  }

  /**
   * `createVolumes` once the parts are built: the output directory is made
   * (an existing file there stops the run); part `i + 1` is written as
   * `<base>.part<i + 1>.sitepack` unless its path exists and may not be
   * overwritten, or its archive exceeds the bound; then the descriptor,
   * which may not exist unless overwriting and cannot replace a directory,
   * lists every part.
   */
  method CreateVolumes(tree: Tree, sha256: seq<bv8> -> string, zip: seq<FileEntry> -> seq<bv8>, serialize: Json -> seq<bv8>,
                       outDir: Dir, volumes: seq<seq<FileEntry>>, maxPartSize: int, baseName: string,
                       packageId: string, overwrite: bool)
    returns (r: Result<seq<VolumeRecord>>, tree': Tree)
    ensures r.Ok? <==> Creatable(tree, zip, outDir, baseName, overwrite, maxPartSize, volumes)
    ensures r.Ok? ==>
      && r.value == Records(sha256, zip, volumes, PartNames(baseName, |volumes|))
      && tree' == Created(tree, zip, outDir, baseName, volumes,
                          File(serialize(DescriptorOf(packageId, maxPartSize, r.value)), true, true))
  {
    var dir := Render(outDir);
    if dir in tree && tree[dir].File? {
      return Failure("EEXIST: file already exists, mkdir '" + dir + "'"), tree;
    }
    var names := PartNames(baseName, |volumes|);
    var paths := OutputPaths(outDir, names);
    PartPathsDistinct(outDir, baseName, |volumes|);
    WritableAfterMkdir(tree, zip, outDir, baseName, overwrite, maxPartSize, volumes);
    var made := tree[dir := Dir];
    var written;
    written, tree' := WriteParts(made, sha256, zip, volumes, names, paths, maxPartSize, overwrite);
    if written.Failure? {
      return Failure(written.error), tree';
    }
    var records := written.value;
    var descriptorPath := OutputPath(outDir, DescriptorName);
    assert paths[..|volumes|] == paths;
    WrittenElsewhere(made, zip, volumes, paths, |volumes|, descriptorPath);
    OutputPathIsNotDir(outDir, DescriptorName);
    if descriptorPath in tree' && !overwrite {
      return Failure("Output file already exists: " + descriptorPath), tree';
    }
    if descriptorPath in tree' && tree'[descriptorPath].Dir? {
      return Failure("EISDIR: illegal operation on a directory, open '" + descriptorPath + "'"), tree';
    }
    tree' := tree'[descriptorPath := File(serialize(DescriptorOf(packageId, maxPartSize, records)), true, true)];
    return Ok(records), tree';
  }

  /**
   * After a successful `createVolumes`, part `i + 1` holds its archive, of at
   * most `maxPartSize` bytes, under `<base>.part<i + 1>.sitepack`, and its
   * record names that file, size and digest.
   */
  lemma CreatedParts(tree: Tree, sha256: seq<bv8> -> string, zip: seq<FileEntry> -> seq<bv8>, serialize: Json -> seq<bv8>,
                     outDir: Dir, volumes: seq<seq<FileEntry>>, maxPartSize: int, baseName: string,
                     packageId: string, overwrite: bool, i: nat)
    requires Creatable(tree, zip, outDir, baseName, overwrite, maxPartSize, volumes)
    requires i < |volumes|
    ensures var records := Records(sha256, zip, volumes, PartNames(baseName, |volumes|));
      var created := Created(tree, zip, outDir, baseName, volumes,
                             File(serialize(DescriptorOf(packageId, maxPartSize, records)), true, true));
      && records[i] == VolumeRecord(i + 1, PartName(baseName, i + 1), |zip(volumes[i])|, sha256(zip(volumes[i])))
      && records[i].size <= maxPartSize
      && OutputPath(outDir, records[i].file) in created
      && created[OutputPath(outDir, records[i].file)] == File(zip(volumes[i]), true, true)
  {
    var names := PartNames(baseName, |volumes|);
    var paths := OutputPaths(outDir, names);
    PartPathsDistinct(outDir, baseName, |volumes|);
    assert PartWritable(tree, overwrite, maxPartSize, paths[i], zip(volumes[i]));
    WrittenParts(tree[Render(outDir) := Dir], zip, volumes, paths, |volumes|, i);
  }

  /**
   * A successful `createVolumes` leaves the output directory a directory and
   * touches nothing but it, the parts and the descriptor.
   */
  lemma CreatedNothingElse(tree: Tree, zip: seq<FileEntry> -> seq<bv8>, outDir: Dir, baseName: string,
                           volumes: seq<seq<FileEntry>>, descriptor: FileNode, p: string)
    requires p != OutputPath(outDir, DescriptorName) && p != Render(outDir)
    requires forall i :: 1 <= i <= |volumes| ==> p != OutputPath(outDir, PartName(baseName, i))
    ensures var created := Created(tree, zip, outDir, baseName, volumes, descriptor);
      && Render(outDir) in created && created[Render(outDir)] == Dir
      && (p in created <==> p in tree)
      && (p in tree ==> created[p] == tree[p])
  {
    var paths := OutputPaths(outDir, PartNames(baseName, |volumes|));
    assert paths[..|volumes|] == paths;
    assert forall k :: 0 <= k < |volumes| ==> paths[k] == OutputPath(outDir, PartName(baseName, k + 1));
    WrittenElsewhere(tree[Render(outDir) := Dir], zip, volumes, paths, |volumes|, p);
    forall k | 0 <= k < |volumes| ensures paths[k] != Render(outDir) {
      OutputPathIsNotDir(outDir, PartName(baseName, k + 1));
    }
    WrittenElsewhere(tree[Render(outDir) := Dir], zip, volumes, paths, |volumes|, Render(outDir));
    OutputPathIsNotDir(outDir, DescriptorName);
  }

  /** The descriptor lists every part once, in order, each with the number of parts. */
  lemma DescriptorListsParts(packageId: string, maxPartSize: int, records: seq<VolumeRecord>, i: nat)
    requires i < |records|
    ensures var d := DescriptorOf(packageId, maxPartSize, records);
      && Prop(d, "volumes").Some? && Prop(d, "volumes").value.JArr?
      && |Prop(d, "volumes").value.items| == |records|
      && StrProp(Prop(d, "volumes").value.items[i], "file") == Some(records[i].file)
      && IntProp(Prop(d, "volumes").value.items[i], "index") == Some(records[i].index)
      && IntProp(Prop(d, "volumes").value.items[i], "count") == Some(|records|)
  {
  }

  // ------------------------------------------------------------- extractZip

  /**
   * One archive entry put in place: an unsafe name throws, otherwise the
   * entry becomes a directory or a file as the validator's unpacking does.
   */
  function PlaceEntry(tree: Tree, dest: Dir, e: ZipEntry): (r: Result<Tree>)
    ensures r.Ok? ==> ResolveSafePath(dest, Some(JStr(e.name))).Resolved?
  {
    if ResolveSafePath(dest, Some(JStr(e.name))).Rejected? then Failure("Unsafe entry path: " + e.name)
    else
      var u := VolumesNode.UnpackEntry(tree, dest, e);
      if u.failure.Some? then Failure(u.failure.value) else Ok(u.tree)
  }

  /** The entries in order; the first failure ends the archive. */
  function Placed(tree: Tree, dest: Dir, entries: seq<ZipEntry>): Result<Tree>
    decreases |entries|
  {
    if entries == [] then Ok(tree)
    else
      match Placed(tree, dest, entries[..|entries| - 1])
      case Failure(reason) => Failure(reason)
      case Ok(t) => PlaceEntry(t, dest, entries[|entries| - 1])
  }

  /** `extractZip`: the archive at `zip` opened, then its entries placed under `dest`. */
  function ExtractedZip(unzip: Unzip, tree: Tree, zip: string, dest: Dir): Result<Tree>
  {
    if !(zip in tree && tree[zip].File? && tree[zip].readable) then Failure("cannot open " + zip)
    else
      match unzip(tree[zip].data)
      case Failure(reason) => Failure(reason)
      case Ok(entries) => Placed(tree, dest, entries)
  }

  /** Nothing is removed, and every path that changes lies inside `dest`. */
  ghost predicate StaysInside(tree: Tree, tree': Tree, dest: Dir)
  {
    && tree.Keys <= tree'.Keys
    && forall p :: p in tree' && (p !in tree || tree'[p] != tree[p]) ==> exists k: seq<string> :: p == Render(dest + k)
  }

  lemma StaysInsideTrans(t0: Tree, t1: Tree, t2: Tree, dest: Dir)
    requires StaysInside(t0, t1, dest) && StaysInside(t1, t2, dest)
    ensures StaysInside(t0, t2, dest)
  {
    forall p | p in t2 && (p !in t0 || t2[p] != t0[p]) ensures exists k: seq<string> :: p == Render(dest + k) {
      if !(p in t1 && (p !in t0 || t1[p] != t0[p])) {
        assert p in t1 ==> t1[p] == t0[p];
      }
    }
  }

  /** A placed entry writes only inside the destination. */
  lemma PlaceEntryInside(tree: Tree, dest: Dir, e: ZipEntry)
    requires PlaceEntry(tree, dest, e).Ok?
    ensures StaysInside(tree, PlaceEntry(tree, dest, e).value, dest)
  {
    var t := PlaceEntry(tree, dest, e).value;
    forall p | p in t && (p !in tree || t[p] != tree[p]) ensures exists k: seq<string> :: p == Render(dest + k) {
      assert p == Render(dest + Kept(Pieces(e.name, IsSlash)));
    }
  }

  /** In an archive placed without failure, every entry had a safe name. */
  lemma {:induction false} PlacedSafe(tree: Tree, dest: Dir, entries: seq<ZipEntry>, i: nat)
    requires Placed(tree, dest, entries).Ok?
    requires i < |entries|
    ensures ResolveSafePath(dest, Some(JStr(entries[i].name))).Resolved?
    decreases |entries|
  {
    var n := |entries| - 1;
    var init := entries[..n];
    PlacedLast(tree, dest, entries);
    if i < n {
      PlacedSafe(tree, dest, init, i);
      assert entries[i] == init[i];
    } else {
      assert i == n;
      assert PlaceEntry(Placed(tree, dest, init).value, dest, entries[i]).Ok?;
    }
  }

  /** A placed archive is its prefix placed, then its last entry. */
  lemma PlacedLast(tree: Tree, dest: Dir, entries: seq<ZipEntry>)
    requires entries != [] && Placed(tree, dest, entries).Ok?
    ensures Placed(tree, dest, entries[..|entries| - 1]).Ok?
    ensures PlaceEntry(Placed(tree, dest, entries[..|entries| - 1]).value, dest, entries[|entries| - 1]) == Placed(tree, dest, entries)
  {
  }

  /** A whole archive placed without failure wrote nothing outside `dest`. */
  lemma {:induction false} PlacedInside(tree: Tree, dest: Dir, entries: seq<ZipEntry>)
    requires Placed(tree, dest, entries).Ok?
    ensures StaysInside(tree, Placed(tree, dest, entries).value, dest)
    decreases |entries|
  {
    if entries != [] {
      var init := entries[..|entries| - 1];
      var last := entries[|entries| - 1];
      PlacedInside(tree, dest, init);
      var t := Placed(tree, dest, init).value;
      PlaceEntryInside(t, dest, last);
      StaysInsideTrans(tree, t, PlaceEntry(t, dest, last).value, dest);
    }
  }

  /** `extractZip`'s loop over the archive's entries. */
  method ExtractZip(unzip: Unzip, tree: Tree, zip: string, dest: Dir) returns (r: Result<Tree>)
    ensures r == ExtractedZip(unzip, tree, zip, dest)
  {
    if !(zip in tree && tree[zip].File? && tree[zip].readable) {
      return Failure("cannot open " + zip);
    }
    var directory := unzip(tree[zip].data);
    if directory.Failure? {
      return Failure(directory.error);
    }
    var entries := directory.value;
    var t := tree;
    for i := 0 to |entries|
      invariant Placed(tree, dest, entries[..i]) == Ok(t)
    {
      var e := entries[i];
      PlacedSnoc(tree, dest, entries, i, t);
      if ResolveSafePath(dest, Some(JStr(e.name))).Rejected? {
        PlacedStopAt(tree, dest, entries, i + 1);
        return Failure("Unsafe entry path: " + e.name);
      }
      var u := VolumesNode.UnpackEntry(t, dest, e);
      if u.failure.Some? {
        PlacedStopAt(tree, dest, entries, i + 1);
        return Failure(u.failure.value);
      }
      t := u.tree;
    }
    assert entries[..|entries|] == entries;
    return Ok(t);
  }

  /** One more entry after a successful prefix. */
  lemma PlacedSnoc(tree: Tree, dest: Dir, entries: seq<ZipEntry>, i: nat, t: Tree)
    requires i < |entries| && Placed(tree, dest, entries[..i]) == Ok(t)
    ensures Placed(tree, dest, entries[..i + 1]) == PlaceEntry(t, dest, entries[i])
  {
    assert entries[..i + 1][..i] == entries[..i];
  }

  /** Once the entries up to `i` fail, the later ones change nothing. */
  lemma {:induction false} PlacedStopAt(tree: Tree, dest: Dir, entries: seq<ZipEntry>, i: nat)
    requires i <= |entries| && Placed(tree, dest, entries[..i]).Failure?
    ensures Placed(tree, dest, entries) == Placed(tree, dest, entries[..i])
    decreases |entries| - i
  {
    if i < |entries| {
      assert entries[..i + 1][..i] == entries[..i];
      PlacedStopAt(tree, dest, entries, i + 1);
    } else {
      assert entries[..i] == entries;
    }
  }

  // --------------------------------------------------------- extractVolumes

  /** A descriptor entry as `extractVolumes` maps it: `Number(entry.index) || 0` and `entry.file`. */
  datatype VolumeRef = VolumeRef(index: Ordinal, file: Option<Json>)

  function RefOf(entry: Json): VolumeRef
  {
    VolumeRef(JsNumberOrZero(Prop(entry, "index")), Prop(entry, "file"))
  }

  function Refs(entries: seq<Json>): (r: seq<VolumeRef>)
    ensures |r| == |entries|
    ensures forall i :: 0 <= i < |entries| ==> r[i] == RefOf(entries[i])
  {
    seq(|entries|, i requires 0 <= i < |entries| => RefOf(entries[i]))
  }

  function IndexKey(v: VolumeRef): Ordinal
  {
    v.index
  }

  /** The extraction order, `(a, b) => a.index - b.index`: by index, ties in descriptor order. */
  function Ordered(entries: seq<Json>): seq<VolumeRef>
  {
    SortBy(Refs(entries), ByDifference(IndexKey))
  }

  /**
   * Volumes are extracted in non-decreasing index order (infinite indexes
   * last or first), each descriptor entry exactly once, and entries with
   * tied indexes in descriptor order.
   */
  lemma OrderedByIndex(entries: seq<Json>, e: VolumeRef)
    ensures var o := Ordered(entries);
      && (forall i, j :: 0 <= i <= j < |o| ==> AtMost(o[i].index, o[j].index))
      && multiset(o) == multiset(Refs(entries))
      && Peers(o, ByDifference(IndexKey), e) == Peers(Refs(entries), ByDifference(IndexKey), e)
  {
    SortByDifferenceOrders(Refs(entries), IndexKey, e);
  }

  /** One volume: its `file` checked, resolved against the descriptor's directory, and its archive extracted into `out`. */
  function ExtractStep(unzip: Unzip, tree: Tree, base: Dir, out: Dir, v: VolumeRef): (r: Result<Tree>)
    ensures r.Ok? ==>
      && v.file.Some? && v.file.value.JStr? && !JsBlank(v.file.value.s)
      && ResolveSafePath(base, v.file).Resolved? && ResolveSafePath(base, v.file).resolved in tree
  {
    if !(v.file.Some? && v.file.value.JStr?) || JsBlank(v.file.value.s) then Failure("Volume file entry is missing")
    else
      var safe := ResolveSafePath(base, v.file);
      if safe.Rejected? then Failure("Unsafe volume file path: " + v.file.value.s)
      else if safe.resolved !in tree then Failure("Volume file not found: " + v.file.value.s)
      else ExtractedZip(unzip, tree, safe.resolved, out)
  }

  /** The volumes one after the other; the first failure ends the run. */
  function ExtractParts(unzip: Unzip, tree: Tree, base: Dir, out: Dir, vs: seq<VolumeRef>): Result<Tree>
    decreases |vs|
  {
    if vs == [] then Ok(tree)
    else
      match ExtractParts(unzip, tree, base, out, vs[..|vs| - 1])
      case Failure(reason) => Failure(reason)
      case Ok(t) => ExtractStep(unzip, t, base, out, vs[|vs| - 1])
  }

  /** The descriptor's `volumes` when it is an array, else nothing. */
  function VolumeEntries(doc: Json): seq<Json>
  {
    match Prop(doc, "volumes")
    case Some(JArr(items)) => items
    case _ => []
  }

  /** Some path lies strictly below `dir` (`readdirSync(dir).length > 0`). */
  predicate HasChildren(tree: Tree, dir: Dir)
  {
    var prefix := if dir == [] then "/" else Render(dir) + "/";
    exists p :: p in tree && |p| > |prefix| && p[..|prefix|] == prefix
  }

  /**
   * The checks of `extractVolumes` before anything is extracted, in their
   * order: the descriptor exists and parses, it lists volumes, the output
   * directory is empty (unless overwriting) and not a file, and no entry is
   * `null`. The result is the descriptor's entries.
   */
  function VolumeSetEntries(h: Host, descriptor: Dir, out: Dir, overwrite: bool): (r: Result<seq<Json>>)
    ensures !Exists(h, Render(descriptor)) ==> r == Failure("Volume set descriptor not found: " + Render(descriptor))
    ensures r.Ok? ==>
      && ReadJson(h, Render(descriptor)).Parsed?
      && r.value == VolumeEntries(ReadJson(h, Render(descriptor)).value)
      && r.value != [] && JNull !in r.value
      && (!overwrite && Exists(h, Render(out)) ==> !HasChildren(h.tree, out))
      && !IsFile(h, Render(out))
  {
    var volumesPath := Render(descriptor);
    var outPath := Render(out);
    if !Exists(h, volumesPath) then Failure("Volume set descriptor not found: " + volumesPath)
    else match ReadJson(h, volumesPath)
      case ParseFailed(reason) => Failure(reason)
      case Parsed(doc) =>
        var entries := VolumeEntries(doc);
        if entries == [] then Failure("Volume set contains no volumes")
        else if !overwrite && outPath in h.tree && h.tree[outPath].Dir? && HasChildren(h.tree, out) then
          Failure("Output directory is not empty: " + outPath)
        else if !overwrite && outPath in h.tree && h.tree[outPath].File? then
          Failure("ENOTDIR: not a directory, scandir '" + outPath + "'")
        else if outPath in h.tree && h.tree[outPath].File? then
          Failure("EEXIST: file already exists, mkdir '" + outPath + "'")
        else if JNull in entries then
          Failure("Cannot read properties of null (reading 'index')")
        else Ok(entries)
  }

  /** `extractVolumes`: the checks, the output directory made, then every volume in index order. */
  function ExtractVolumesRun(h: Host, unzip: Unzip, descriptor: Dir, out: Dir, overwrite: bool): Result<Tree>
  {
    match VolumeSetEntries(h, descriptor, out, overwrite)
    case Failure(reason) => Failure(reason)
    case Ok(entries) => ExtractParts(unzip, h.tree[Render(out) := Dir], Parent(descriptor), out, Ordered(entries))
  }
  /** One more volume after a successful prefix. */
  lemma ExtractPartsSnoc(unzip: Unzip, tree: Tree, base: Dir, out: Dir, vs: seq<VolumeRef>, i: nat, t: Tree)
    requires i < |vs| && ExtractParts(unzip, tree, base, out, vs[..i]) == Ok(t)
    ensures ExtractParts(unzip, tree, base, out, vs[..i + 1]) == ExtractStep(unzip, t, base, out, vs[i])
  {
    assert vs[..i + 1][..i] == vs[..i];
  }

  /** Once the volumes up to `i` fail, the later ones change nothing. */
  lemma {:induction false} ExtractPartsStopAt(unzip: Unzip, tree: Tree, base: Dir, out: Dir, vs: seq<VolumeRef>, i: nat)
    requires i <= |vs| && ExtractParts(unzip, tree, base, out, vs[..i]).Failure?
    ensures ExtractParts(unzip, tree, base, out, vs) == ExtractParts(unzip, tree, base, out, vs[..i])
    decreases |vs| - i
  {
    if i < |vs| {
      assert vs[..i + 1][..i] == vs[..i];
      ExtractPartsStopAt(unzip, tree, base, out, vs, i + 1);
    } else {
      assert vs[..i] == vs;
    }
  }

  /** Extracted volumes write nowhere but inside the output directory. */
  lemma {:induction false} ExtractPartsInside(unzip: Unzip, tree: Tree, base: Dir, out: Dir, vs: seq<VolumeRef>)
    requires ExtractParts(unzip, tree, base, out, vs).Ok?
    ensures StaysInside(tree, ExtractParts(unzip, tree, base, out, vs).value, out)
    decreases |vs|
  {
    if vs != [] {
      var init := vs[..|vs| - 1];
      ExtractPartsInside(unzip, tree, base, out, init);
      var t := ExtractParts(unzip, tree, base, out, init).value;
      var zip := ResolveSafePath(base, vs[|vs| - 1].file).resolved;
      var entries := unzip(t[zip].data).value;
      PlacedInside(t, out, entries);
      StaysInsideTrans(tree, t, ExtractParts(unzip, tree, base, out, vs).value, out);
    }
  }

  /** A successful `extractVolumes` removes nothing and writes only inside the output directory. */
  lemma ExtractVolumesInside(h: Host, unzip: Unzip, descriptor: Dir, out: Dir, overwrite: bool)
    requires ExtractVolumesRun(h, unzip, descriptor, out, overwrite).Ok?
    ensures StaysInside(h.tree, ExtractVolumesRun(h, unzip, descriptor, out, overwrite).value, out)
  {
    var entries := VolumeSetEntries(h, descriptor, out, overwrite).value;
    var t0 := h.tree[Render(out) := Dir];
    var run := ExtractParts(unzip, t0, Parent(descriptor), out, Ordered(entries));
    assert ExtractVolumesRun(h, unzip, descriptor, out, overwrite) == run;
    ExtractPartsInside(unzip, t0, Parent(descriptor), out, Ordered(entries));
    MadeDirInside(h.tree, out);
    StaysInsideTrans(h.tree, t0, run.value, out);
  }

  /** Making the output directory stays inside it. */
  lemma MadeDirInside(tree: Tree, out: Dir)
    ensures StaysInside(tree, tree[Render(out) := Dir], out)
  {
    assert out + [] == out;
  }

  /** One volume of the loop of `extractVolumes`. */
  method ExtractVolume(unzip: Unzip, tree: Tree, base: Dir, out: Dir, v: VolumeRef) returns (r: Result<Tree>)
    ensures r == ExtractStep(unzip, tree, base, out, v)
  {
    if !(v.file.Some? && v.file.value.JStr?) || JsBlank(v.file.value.s) {
      return Failure("Volume file entry is missing");
    }
    var safe := ResolveSafePath(base, v.file);
    if safe.Rejected? {
      return Failure("Unsafe volume file path: " + v.file.value.s);
    }
    if safe.resolved !in tree {
      return Failure("Volume file not found: " + v.file.value.s);
    }
    r := ExtractZip(unzip, tree, safe.resolved, out);
  }

  /** `extractVolumes`: its checks, then the loop over the ordered volumes. */
  method ExtractVolumes(h: Host, unzip: Unzip, descriptor: Dir, out: Dir, overwrite: bool) returns (r: Result<Tree>)
    ensures r == ExtractVolumesRun(h, unzip, descriptor, out, overwrite)
  {
    var checked := VolumeSetEntries(h, descriptor, out, overwrite);
    if checked.Failure? {
      return Failure(checked.error);
    }
    var t0 := h.tree[Render(out) := Dir];
    var base := Parent(descriptor);
    var ordered := Ordered(checked.value);
    var t := t0;
    for i := 0 to |ordered|
      invariant ExtractParts(unzip, t0, base, out, ordered[..i]) == Ok(t)
    {
      var step := ExtractVolume(unzip, t, base, out, ordered[i]);
      ExtractPartsSnoc(unzip, t0, base, out, ordered, i, t);
      if step.Failure? {
        ExtractPartsStopAt(unzip, t0, base, out, ordered, i + 1);
        return Failure(step.error);
      }
      t := step.value;
    }
    assert ordered[..|ordered|] == ordered;
    return Ok(t);
  }

  /** A descriptor item reads back as its part's number and file name. */
  lemma RefOfItem(v: VolumeRecord, count: nat)
    ensures RefOf(VolumeItem(v, count)) == VolumeRef(Finite(v.index as real), Some(JStr(v.file)))
  {
    var item := VolumeItem(v, count);
    assert Prop(item, "index") == Some(JInt(v.index));
    assert Prop(item, "file") == Some(JStr(v.file));
  }

  /** The descriptor's `volumes` are the items of the records. */
  lemma DescriptorEntries(packageId: string, maxPartSize: int, records: seq<VolumeRecord>)
    ensures VolumeEntries(DescriptorOf(packageId, maxPartSize, records)) == VolumeItems(records)
  {
    assert Prop(DescriptorOf(packageId, maxPartSize, records), "volumes") == Some(JArr(VolumeItems(records)));
  }

  /** Items of records numbered `1, 2, ...` are already in extraction order. */
  lemma NumberedItemsInOrder(records: seq<VolumeRecord>)
    requires forall i :: 0 <= i < |records| ==> records[i].index == i + 1
    ensures var o := Ordered(VolumeItems(records));
      && |o| == |records|
      && forall i :: 0 <= i < |records| ==> o[i] == VolumeRef(Finite((i + 1) as real), Some(JStr(records[i].file)))
  {
    var refs := Refs(VolumeItems(records));
    forall i | 0 <= i < |records| ensures refs[i] == VolumeRef(Finite((i + 1) as real), Some(JStr(records[i].file))) {
      RefOfItem(records[i], |records|);
    }
    assert Sorted(refs, ByDifference(IndexKey)) by {
      forall i | 0 <= i < |refs| - 1 ensures ByDifference(IndexKey)(refs[i], refs[i + 1]) {
        assert IndexKey(refs[i]) == Finite((i + 1) as real) && IndexKey(refs[i + 1]) == Finite((i + 2) as real);
        MayPrecedeIsAtMost(IndexKey(refs[i]), IndexKey(refs[i + 1]));
      }
    }
    SortByKeepsSorted(refs, ByDifference(IndexKey));
  }

  /**
   * A descriptor written by `createVolumes` is read back by `extractVolumes`
   * in the order the parts were written: part `i + 1` is visited `i`-th,
   * under the file name it was written as.
   */
  lemma CreatedSetExtractsInOrder(packageId: string, maxPartSize: int, sha256: seq<bv8> -> string,
                                  zip: seq<FileEntry> -> seq<bv8>, volumes: seq<seq<FileEntry>>, baseName: string)
    ensures var records := Records(sha256, zip, volumes, PartNames(baseName, |volumes|));
      var o := Ordered(VolumeEntries(DescriptorOf(packageId, maxPartSize, records)));
      && |o| == |volumes|
      && forall i :: 0 <= i < |volumes| ==> o[i] == VolumeRef(Finite((i + 1) as real), Some(JStr(PartName(baseName, i + 1))))
  {
    var records := Records(sha256, zip, volumes, PartNames(baseName, |volumes|));
    DescriptorEntries(packageId, maxPartSize, records);
    NumberedItemsInOrder(records);
  }
}
