/**
 * Model of DigestCalculator.php: SHA-256 of one file (prefixed or bare hex),
 * and of the concatenation of several files read in 8192-byte blocks.
 */
module Digest {
  import opened Common
  import opened Env

  const BlockSize: nat := 8192

  /** `computeSha256Hex`: the hex digest of a readable regular file; any other path throws. */
  function ComputeSha256Hex(h: Host, path: string): (r: Result<string>)
    ensures r.Ok? <==> Readable(h, path)
    ensures r.Ok? ==> r.value == h.sha256(h.tree[path].data)
  {
    if Readable(h, path) then Ok(h.sha256(h.tree[path].data))
    else Failure("Failed to compute sha256")
  }

  /** `computeSha256`: the same digest with the `sha256:` prefix. */
  function ComputeSha256(h: Host, path: string): (r: Result<string>)
    ensures r.Ok? <==> ComputeSha256Hex(h, path).Ok?
    ensures r.Ok? ==> r.value == "sha256:" + ComputeSha256Hex(h, path).value
  {
    if Readable(h, path) then Ok("sha256:" + h.sha256(h.tree[path].data))
    else Failure("Failed to compute sha256")
  }

  /** The bytes of the files, in the order given. */
  function Concat(h: Host, paths: seq<string>): seq<bv8>
    requires forall i :: 0 <= i < |paths| ==> IsFile(h, paths[i])
  {
    if paths == [] then []
    else
      var last := paths[|paths| - 1];
      assert IsFile(h, last);
      Concat(h, paths[..|paths| - 1]) + h.tree[last].data
  }

  /** Why reading `path` for hashing fails: open fails for a missing or unreadable file, read fails for a directory. */
  function HashReadError(h: Host, path: string): string
  {
    if path in h.tree && h.tree[path].Dir? then "Failed to read file for hashing: " + path
    else "Failed to open file for hashing: " + path
  }

  /** The first path, in list order, that cannot be hashed, if any. */
  function FirstUnhashable(h: Host, paths: seq<string>): (r: Option<nat>)
    ensures r.Some? ==> (r.value < |paths| && !Readable(h, paths[r.value])
      && forall i :: 0 <= i < r.value ==> Readable(h, paths[i]))
    ensures r.None? ==> forall i :: 0 <= i < |paths| ==> Readable(h, paths[i])
  {
    if paths == [] then None
    else
      match FirstUnhashable(h, paths[..|paths| - 1])
      case Some(k) => Some(k)
      case None => if Readable(h, paths[|paths| - 1]) then None else Some(|paths| - 1)
  }

  /**
   * What `computeSha256HexFromFiles` returns: the hash of the concatenation
   * of the files in the given order, or the error of the first file that
   * cannot be read.
   */
  function Sha256OfFiles(h: Host, paths: seq<string>): Result<string>
  {
    match FirstUnhashable(h, paths)
    case Some(k) => Failure(HashReadError(h, paths[k]))
    case None => Ok(h.sha256(Concat(h, paths)))
  }

  /** An empty list hashes the empty input. */
  lemma EmptyListHashesEmptyInput(h: Host)
    ensures Sha256OfFiles(h, []) == Ok(h.sha256([]))
  {
  }

  /** A list of one file hashes like `computeSha256Hex` and fails exactly when it does. */
  lemma {:induction false} SingleFileAgrees(h: Host, path: string)
    ensures Sha256OfFiles(h, [path]).Ok? <==> ComputeSha256Hex(h, path).Ok?
    ensures Sha256OfFiles(h, [path]).Ok? ==> Sha256OfFiles(h, [path]) == ComputeSha256Hex(h, path)
  {
    assert [path][..0] == [];
    assert FirstUnhashable(h, []) == None;
    if Readable(h, path) {
      assert FirstUnhashable(h, [path]) == None;
      assert [path][..|[path]| - 1] == [] && [path][|[path]| - 1] == path;
      assert Concat(h, [path]) == [] + h.tree[path].data;
      assert [] + h.tree[path].data == h.tree[path].data;
    } else {
      assert FirstUnhashable(h, [path]) == Some(0);
    }
  }

  /** `computeSha256HexFromFiles`: one hash context fed block by block, file by file. */
  method ComputeSha256HexFromFiles(h: Host, paths: seq<string>) returns (r: Result<string>)
    ensures r == Sha256OfFiles(h, paths)
  {
    // the hash context is modelled by the bytes fed to it so far
    var context: seq<bv8> := [];
    var i := 0;
    while i < |paths|
      invariant 0 <= i <= |paths|
      invariant FirstUnhashable(h, paths[..i]).None?
      invariant context == Concat(h, paths[..i])
    {
      var path := paths[i];
      assert paths[..i + 1][..i] == paths[..i];
      if !Readable(h, path) {
        assert FirstUnhashable(h, paths[..i + 1]) == Some(i);
        PrefixUnhashable(h, paths, i + 1);
        return Failure(HashReadError(h, path));
      }
      var data := h.tree[path].data;
      var pos := 0;
      while pos < |data|
        invariant 0 <= pos <= |data|
        invariant context == Concat(h, paths[..i]) + data[..pos]
      {
        var end := if pos + BlockSize <= |data| then pos + BlockSize else |data|;
        assert data[..end] == data[..pos] + data[pos..end];
        context := context + data[pos..end];
        pos := end;
      }
      assert data[..pos] == data;
      i := i + 1;
    }
    assert paths[..i] == paths;
    return Ok(h.sha256(context));
  }

  /** The first unhashable file of a prefix is the first of the whole list. */
  lemma {:induction false} PrefixUnhashable(h: Host, paths: seq<string>, n: nat)
    requires n <= |paths|
    requires FirstUnhashable(h, paths[..n]).Some?
    ensures FirstUnhashable(h, paths) == FirstUnhashable(h, paths[..n])
    decreases |paths| - n
  {
    if n < |paths| {
      assert paths[..n + 1][..n] == paths[..n];
      PrefixUnhashable(h, paths, n + 1);
    } else {
      assert paths[..n] == paths;
    }
  }
}
