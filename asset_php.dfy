/**
 * Model of the closure `buildAssetBlobChecker` returns in PackageValidator.php:
 * for asset-index NDJSON with blob checking on, each record's chunks or
 * single blob are checked. It follows the Node hook up to assembly, with
 * three differences: a path that is not a regular file is reported as
 * missing, an unreadable size is its own error, and the sorted chunks are
 * never checked for a gap in their indexes. Every detail is an error stamped
 * with the record's line.
 */
module AssetPhp {
  import opened Common
  import opened Strings
  import opened JsonDoc
  import opened Env
  import opened Lexical
  import opened SafePath
  import opened Digest
  import opened Sorting
  import opened AssetChunks
  import NdjsonPhp

  const AssetIndexType: string := "application/vnd.sitepack.asset-index+ndjson"

  /** The size and digest checks on a chunk whose size could be read. */
  function ChunkFileChecks(h: Host, chunk: Json, r: string): (fs: seq<Finding>)
    requires IsFile(h, r)
    ensures |fs| <= 2
  {
    var sizeCheck :=
      if IntProp(chunk, "size").Some? && Size(h, r) != IntProp(chunk, "size").value then
        [Finding("ASSET_CHUNK_SIZE_MISMATCH",
                 "Chunk size mismatch: " + NatToString(Size(h, r)) + " != " + IntToString(IntProp(chunk, "size").value))]
      else [];
    var digestCheck :=
      match StrProp(chunk, "sha256")
      case None => []
      case Some(sha) =>
        match ComputeSha256Hex(h, r)
        case Ok(actual) =>
          if actual != AsciiLower(sha) then [Finding("ASSET_CHUNK_DIGEST_MISMATCH", "Chunk digest mismatch: " + actual + " != " + sha)]
          else []
        case Failure(e) => [Finding("ASSET_CHUNK_DIGEST_ERROR", "Chunk digest error: " + e)];
    sizeCheck + digestCheck
  }

  /** One pass of the `foreach ($record->chunks as $chunk)` loop. */
  function ChunkStep(h: Host, base: Dir, st: Scan, chunk: Json): Scan
  {
    if !chunk.JObj? then Reject(st, st.seen, "ASSET_CHUNK_INVALID", "Chunk entry must be an object")
    else
      var index := IntProp(chunk, "index");
      if index.None? || index.value < 1 then
        Reject(st, st.seen, "ASSET_CHUNK_INDEX_INVALID", "Chunk index must be an integer >= 1")
      else if index.value in st.seen then
        Reject(st, st.seen, "ASSET_CHUNK_INDEX_DUPLICATE", "Duplicate chunk index: " + IntToString(index.value))
      else
        var seen := st.seen + {index.value};
        var path := StrProp(chunk, "path");
        if path.None? || PhpBlank(path.value) then
          Reject(st, seen, "ASSET_CHUNK_PATH_MISSING", "Chunk path is missing or invalid")
        else
          var safe := Resolve(base, path.value);
          if !safe.ok || safe.path.None? then Reject(st, seen, "ASSET_CHUNK_PATH_UNSAFE", "Unsafe chunk path: " + path.value)
          else if !IsFile(h, safe.path.value) then
            Reject(st, seen, "ASSET_CHUNK_MISSING", "Chunk file not found: " + path.value)
          else if FileSize(h, safe.path.value).None? then
            Reject(st, seen, "ASSET_CHUNK_SIZE_ERROR", "Failed to read chunk size: " + path.value)
          else
            var r := safe.path.value;
            Accept(st, seen, ChunkEntry(index.value, r, Size(h, r)), ChunkFileChecks(h, chunk, r))
  }

  /** The state after the chunk loop has seen `chunks`. */
  function ScanChunks(h: Host, base: Dir, chunks: seq<Json>): Scan
  {
    if chunks == [] then Start
    else ChunkStep(h, base, ScanChunks(h, base, chunks[..|chunks| - 1]), chunks[|chunks| - 1])
  }

  lemma StepOk(h: Host, base: Dir, st: Scan, chunk: Json)
    requires ScanOk(h, st)
    ensures ScanOk(h, ChunkStep(h, base, st, chunk))
  {
    if !chunk.JObj? {
      RejectOk(h, st, st.seen, "ASSET_CHUNK_INVALID", "Chunk entry must be an object");
      return;
    }
    var index := IntProp(chunk, "index");
    if index.None? || index.value < 1 {
      RejectOk(h, st, st.seen, "ASSET_CHUNK_INDEX_INVALID", "Chunk index must be an integer >= 1");
      return;
    }
    if index.value in st.seen {
      RejectOk(h, st, st.seen, "ASSET_CHUNK_INDEX_DUPLICATE", "Duplicate chunk index: " + IntToString(index.value));
      return;
    }
    var seen := st.seen + {index.value};
    var path := StrProp(chunk, "path");
    if path.None? || PhpBlank(path.value) {
      RejectOk(h, st, seen, "ASSET_CHUNK_PATH_MISSING", "Chunk path is missing or invalid");
      return;
    }
    var safe := Resolve(base, path.value);
    if !safe.ok || safe.path.None? {
      RejectOk(h, st, seen, "ASSET_CHUNK_PATH_UNSAFE", "Unsafe chunk path: " + path.value);
    } else if !IsFile(h, safe.path.value) {
      RejectOk(h, st, seen, "ASSET_CHUNK_MISSING", "Chunk file not found: " + path.value);
    } else if FileSize(h, safe.path.value).None? {
      RejectOk(h, st, seen, "ASSET_CHUNK_SIZE_ERROR", "Failed to read chunk size: " + path.value);
    } else {
      AcceptOk(h, st, index.value, safe.path.value, ChunkFileChecks(h, chunk, safe.path.value));
    }
  }

  lemma {:induction false} ScanChunksOk(h: Host, base: Dir, chunks: seq<Json>)
    ensures ScanOk(h, ScanChunks(h, base, chunks))
    decreases |chunks|
  {
    if chunks != [] {
      ScanChunksOk(h, base, chunks[..|chunks| - 1]);
      StepOk(h, base, ScanChunks(h, base, chunks[..|chunks| - 1]), chunks[|chunks| - 1]);
    }
  }

  /** The whole-asset checks on the sorted chunks; unlike Node, an empty expected digest is still compared. */
  function WholeAssetChecks(h: Host, sorted: seq<ChunkEntry>, record: Json): seq<Finding>
  {
    var total := SumSizes(sorted);
    var sizeCheck :=
      if IntProp(record, "size").Some? && total != IntProp(record, "size").value then
        [Finding("ASSET_SIZE_MISMATCH", "Asset size mismatch: " + NatToString(total) + " != " + IntToString(IntProp(record, "size").value))]
      else [];
    var expected := ExpectedSha(record, AsciiLower);
    var digestCheck :=
      if expected.Some? then
        match Sha256OfFiles(h, Paths(sorted))
        case Ok(actual) =>
          if actual != expected.value then [Finding("ASSET_DIGEST_MISMATCH", "Asset digest mismatch: " + actual + " != " + expected.value)]
          else []
        case Failure(e) => [Finding("ASSET_DIGEST_ERROR", "Asset digest error: " + e)]
      else [];
    sizeCheck + digestCheck
  }

  /** The findings for a record with a `chunks` array: no gap check before assembly. */
  function ChunkedFindings(h: Host, base: Dir, record: Json, chunks: seq<Json>): seq<Finding>
  {
    var st := ScanChunks(h, base, chunks);
    if st.entries == [] || !st.canAssemble then st.findings
    else st.findings + WholeAssetChecks(h, SortedEntries(st.entries), record)
  }

  /** The findings for a record that names one blob by `path`. */
  function BlobFindings(h: Host, base: Dir, record: Json): seq<Finding>
  {
    var path := StrProp(record, "path");
    if path.None? || PhpBlank(path.value) then []
    else
      var safe := Resolve(base, path.value);
      if !safe.ok || safe.path.None? then [Finding("ASSET_BLOB_PATH_UNSAFE", "Unsafe asset blob path: " + path.value)]
      else if !IsFile(h, safe.path.value) then [Finding("ASSET_BLOB_MISSING", "Asset blob file not found: " + path.value)]
      else if FileSize(h, safe.path.value).None? then
        [Finding("ASSET_BLOB_SIZE_ERROR", "Failed to read asset blob size: " + path.value)]
      else
        var r := safe.path.value;
        var sizeCheck :=
          if IntProp(record, "size").Some? && Size(h, r) != IntProp(record, "size").value then
            [Finding("ASSET_BLOB_SIZE_MISMATCH",
                     "Asset blob size mismatch: " + NatToString(Size(h, r)) + " != " + IntToString(IntProp(record, "size").value))]
          else [];
        var expected := ExpectedSha(record, AsciiLower);
        var digestCheck :=
          if expected.Some? then
            match ComputeSha256Hex(h, r)
            case Ok(actual) =>
              if actual != expected.value then
                [Finding("ASSET_BLOB_DIGEST_MISMATCH", "Asset blob digest mismatch: " + actual + " != " + expected.value)]
              else []
            case Failure(e) => [Finding("ASSET_BLOB_DIGEST_ERROR", "Asset blob digest error: " + e)]
          else [];
        sizeCheck + digestCheck
  }

  /** What the checker closure returns for one record. */
  function RecordFindings(h: Host, base: Dir, checkAssetBlobs: bool, mediaType: string, record: Json): (fs: seq<Finding>)
    // a no-op unless blob checking is on and the artifact is an asset index
    ensures !checkAssetBlobs || mediaType != AssetIndexType ==> fs == []
  {
    if !checkAssetBlobs || mediaType != AssetIndexType then []
    else
      match Prop(record, "chunks")
      case Some(JArr(chunks)) => ChunkedFindings(h, base, record, chunks)
      case _ => BlobFindings(h, base, record)
  }

  /** The findings as the detail arrays the closure returns, each an error on the record's line. */
  function AsDetails(fs: seq<Finding>, n: nat): (ds: seq<NdjsonPhp.HookDetail>)
    ensures |ds| == |fs|
    ensures forall i :: 0 <= i < |fs| ==> ds[i] == NdjsonPhp.HookDetail("error", fs[i].code, fs[i].message, Some(n))
  {
    seq(|fs|, i requires 0 <= i < |fs| => NdjsonPhp.HookDetail("error", fs[i].code, fs[i].message, Some(n)))
  }

  /** `buildAssetBlobChecker($packageRoot, $checkAssetBlobs, $mediaType)`. */
  function AssetHook(h: Host, base: Dir, checkAssetBlobs: bool, mediaType: string): NdjsonPhp.RecordHook
  {
    (record: Json, n: nat) => AsDetails(RecordFindings(h, base, checkAssetBlobs, mediaType, record), n)
  }

  /** The chunk loop of the closure. */
  method ScanChunkList(h: Host, base: Dir, chunks: seq<Json>)
    returns (details: seq<Finding>, chunkEntries: seq<ChunkEntry>, canAssemble: bool)
    ensures var st := ScanChunks(h, base, chunks);
      details == st.findings && chunkEntries == st.entries && canAssemble == st.canAssemble
  {
    details, chunkEntries, canAssemble := [], [], true;
    var seenIndexes: set<int> := {};
    for i := 0 to |chunks|
      invariant Scan(details, chunkEntries, seenIndexes, canAssemble) == ScanChunks(h, base, chunks[..i])
    {
      var chunk := chunks[i];
      assert chunks[..i + 1][..i] == chunks[..i];
      ghost var before := Scan(details, chunkEntries, seenIndexes, canAssemble);
      assert ScanChunks(h, base, chunks[..i + 1]) == ChunkStep(h, base, before, chunk);
      if !chunk.JObj? {
        details := details + [Finding("ASSET_CHUNK_INVALID", "Chunk entry must be an object")];
        canAssemble := false;
        continue;
      }
      var index := IntProp(chunk, "index");
      if index.None? || index.value < 1 {
        details := details + [Finding("ASSET_CHUNK_INDEX_INVALID", "Chunk index must be an integer >= 1")];
        canAssemble := false;
        continue;
      }
      if index.value in seenIndexes {
        details := details + [Finding("ASSET_CHUNK_INDEX_DUPLICATE", "Duplicate chunk index: " + IntToString(index.value))];
        canAssemble := false;
        continue;
      }
      seenIndexes := seenIndexes + {index.value};
      var path := StrProp(chunk, "path");
      if path.None? || PhpBlank(path.value) {
        details := details + [Finding("ASSET_CHUNK_PATH_MISSING", "Chunk path is missing or invalid")];
        canAssemble := false;
        continue;
      }
      var safe := Resolve(base, path.value);
      if !safe.ok || safe.path.None? {
        details := details + [Finding("ASSET_CHUNK_PATH_UNSAFE", "Unsafe chunk path: " + path.value)];
        canAssemble := false;
        continue;
      }
      if !IsFile(h, safe.path.value) {
        details := details + [Finding("ASSET_CHUNK_MISSING", "Chunk file not found: " + path.value)];
        canAssemble := false;
        continue;
      }
      var actualSize := FileSize(h, safe.path.value);
      if actualSize.None? {
        details := details + [Finding("ASSET_CHUNK_SIZE_ERROR", "Failed to read chunk size: " + path.value)];
        canAssemble := false;
        continue;
      }
      var checks := CheckChunkFile(h, chunk, safe.path.value);
      details := details + checks;
      if checks != [] {
        canAssemble := false;
      }
      chunkEntries := chunkEntries + [ChunkEntry(index.value, safe.path.value, actualSize.value)];
    }
    assert chunks[..|chunks|] == chunks;
  }

  /** The size and digest checks of one chunk, as the loop body performs them. */
  method CheckChunkFile(h: Host, chunk: Json, r: string) returns (checks: seq<Finding>)
    requires IsFile(h, r)
    ensures checks == ChunkFileChecks(h, chunk, r)
  {
    checks := [];
    var size := IntProp(chunk, "size");
    if size.Some? && Size(h, r) != size.value {
      checks := checks + [Finding("ASSET_CHUNK_SIZE_MISMATCH",
                                  "Chunk size mismatch: " + NatToString(Size(h, r)) + " != " + IntToString(size.value))];
    }
    var sha := StrProp(chunk, "sha256");
    if sha.Some? {
      var actual := ComputeSha256Hex(h, r);
      if actual.Failure? {
        checks := checks + [Finding("ASSET_CHUNK_DIGEST_ERROR", "Chunk digest error: " + actual.error)];
      } else if actual.value != AsciiLower(sha.value) {
        checks := checks + [Finding("ASSET_CHUNK_DIGEST_MISMATCH", "Chunk digest mismatch: " + actual.value + " != " + sha.value)];
      }
    }
  }

  /** The sum-and-collect loop over the sorted entries. */
  method SumAndPaths(sorted: seq<ChunkEntry>) returns (totalSize: nat, paths: seq<string>)
    ensures totalSize == SumSizes(sorted) && paths == Paths(sorted)
  {
    totalSize, paths := 0, [];
    for i := 0 to |sorted|
      invariant totalSize == SumSizes(sorted[..i]) && paths == Paths(sorted[..i])
    {
      assert sorted[..i + 1][..i] == sorted[..i];
      totalSize := totalSize + sorted[i].size;
      paths := paths + [sorted[i].path];
    }
    assert sorted[..|sorted|] == sorted;
  }

  /** The whole-asset checks as the closure performs them. */
  method CheckWholeAsset(h: Host, sorted: seq<ChunkEntry>, record: Json) returns (checks: seq<Finding>)
    ensures checks == WholeAssetChecks(h, sorted, record)
  {
    checks := [];
    var totalSize, paths := SumAndPaths(sorted);
    var expectedSize := IntProp(record, "size");
    if expectedSize.Some? && totalSize != expectedSize.value {
      checks := checks + [Finding("ASSET_SIZE_MISMATCH",
                                  "Asset size mismatch: " + NatToString(totalSize) + " != " + IntToString(expectedSize.value))];
    }
    var expectedSha := ExpectedSha(record, AsciiLower);
    if expectedSha.Some? {
      var actual := ComputeSha256HexFromFiles(h, paths);
      if actual.Failure? {
        checks := checks + [Finding("ASSET_DIGEST_ERROR", "Asset digest error: " + actual.error)];
      } else if actual.value != expectedSha.value {
        checks := checks + [Finding("ASSET_DIGEST_MISMATCH", "Asset digest mismatch: " + actual.value + " != " + expectedSha.value)];
      }
    }
  }

  /** The closure's body for one record. */
  method CheckRecord(h: Host, base: Dir, checkAssetBlobs: bool, mediaType: string, record: Json)
    returns (details: seq<Finding>)
    ensures details == RecordFindings(h, base, checkAssetBlobs, mediaType, record)
  {
    if !checkAssetBlobs || mediaType != AssetIndexType {
      return [];
    }
    var chunks := Prop(record, "chunks");
    if chunks.Some? && chunks.value.JArr? {
      var chunkEntries, canAssemble;
      details, chunkEntries, canAssemble := ScanChunkList(h, base, chunks.value.items);
      if |chunkEntries| > 0 && canAssemble {
        var sorted := SortedEntries(chunkEntries);
        var whole := CheckWholeAsset(h, sorted, record);
        details := details + whole;
      }
      return;
    }
    details := BlobFindings(h, base, record);
  }

  /** Any failing chunk disables assembly: the record's findings are then the chunk findings alone. */
  lemma FailedChunkBlocksAssembly(h: Host, base: Dir, record: Json, chunks: seq<Json>)
    requires ScanChunks(h, base, chunks).findings != []
    ensures ChunkedFindings(h, base, record, chunks) == ScanChunks(h, base, chunks).findings
  {
    ScanChunksOk(h, base, chunks);
  }

  /**
   * With every chunk good, the asset is checked whole whatever indexes the
   * chunks carry (gaps included): the size compared is the sum of all chunk
   * sizes, the digest is taken over the chunk files in ascending index
   * order, and every chunk takes part exactly once.
   */
  lemma AssembledWithoutGapCheck(h: Host, base: Dir, record: Json, chunks: seq<Json>)
    requires ScanChunks(h, base, chunks).findings == [] && ScanChunks(h, base, chunks).entries != []
    ensures var es := ScanChunks(h, base, chunks).entries;
      && ChunkedFindings(h, base, record, chunks) == WholeAssetChecks(h, SortedEntries(es), record)
      && SumSizes(SortedEntries(es)) == SumSizes(es)
      && multiset(SortedEntries(es)) == multiset(es)
      && (forall i, j :: 0 <= i <= j < |es| ==> SortedEntries(es)[i].index <= SortedEntries(es)[j].index)
  {
    ScanChunksOk(h, base, chunks);
    var es := ScanChunks(h, base, chunks).entries;
    SortedSum(es);
    SortByKeyOrders(es, IndexOf);
  }
}
