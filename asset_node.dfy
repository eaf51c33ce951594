/**
 * Model of `validateAssetIndexRecord` in the Node validator: the record hook
 * that, for asset-index NDJSON with `--check-asset-blobs`, checks either the
 * chunks a record lists or its single blob. Failing chunks are reported and
 * disable assembly; the surviving chunks are sorted by index, must form the
 * run 1..n, and are then checked as a whole (summed size, digest of their
 * concatenation in index order). Every finding is an error.
 */
module AssetNode {
  import opened Common
  import opened Strings
  import opened JsonDoc
  import opened JsNumbers
  import opened Env
  import opened Lexical
  import opened PathSafe
  import opened Digest
  import opened Sorting
  import opened AssetChunks
  import NdjsonNode

  const AssetIndexType: string := "application/vnd.sitepack.asset-index+ndjson"

  /** The size and digest checks on a chunk file that exists and is regular. */
  function ChunkFileChecks(h: Host, chunk: Json, r: string): (fs: seq<Finding>)
    requires IsFile(h, r)
    ensures |fs| <= 2
  {
    var sizeCheck :=
      if IntProp(chunk, "size").Some? && Size(h, r) != IntProp(chunk, "size").value then
        [Finding("ASSET_CHUNK_SIZE_MISMATCH",
                 "Chunk size mismatch: " + NatToString(Size(h, r)) + " != " + IntToString(IntProp(chunk, "size").value))]
      else [];
    var digestCheck :=
      match StrProp(chunk, "sha256")
      case None => []
      case Some(sha) =>
        match ComputeSha256Hex(h, r)
        case Ok(actual) =>
          if actual != h.jsLower(sha) then [Finding("ASSET_CHUNK_DIGEST_MISMATCH", "Chunk digest mismatch: " + actual + " != " + sha)]
          else []
        case Failure(e) => [Finding("ASSET_CHUNK_DIGEST_ERROR", "Chunk digest error: " + e)];
    sizeCheck + digestCheck
  }

  /** One pass of the chunk loop. */
  function ChunkStep(h: Host, base: Dir, st: Scan, chunk: Json): Scan
  {
    if !JsObjectLike(Some(chunk)) then Reject(st, st.seen, "ASSET_CHUNK_INVALID", "Chunk entry must be an object")
    else
      var index := PositiveInteger(JsNumber(Prop(chunk, "index")));
      if index.None? then
        Reject(st, st.seen, "ASSET_CHUNK_INDEX_INVALID", "Chunk index must be an integer >= 1")
      else if index.value in st.seen then
        Reject(st, st.seen, "ASSET_CHUNK_INDEX_DUPLICATE", "Duplicate chunk index: " + IntToString(index.value))
      else
        var seen := st.seen + {index.value};
        var path := StrProp(chunk, "path");
        if path.None? || JsBlank(path.value) then
          Reject(st, seen, "ASSET_CHUNK_PATH_MISSING", "Chunk path is missing or not a string")
        else
          match ResolveSafePath(base, Some(JStr(path.value)))
          case Rejected(_, _) => Reject(st, seen, "ASSET_CHUNK_PATH_UNSAFE", "Unsafe chunk path: " + path.value)
          case Resolved(r) =>
            if !Exists(h, r) then Reject(st, seen, "ASSET_CHUNK_MISSING", "Chunk file not found: " + path.value)
            else if !IsFile(h, r) then
              Reject(st, seen, "ASSET_CHUNK_NOT_REGULAR", "Chunk path is not a regular file: " + path.value)
            else
              Accept(st, seen, ChunkEntry(index.value, r, Size(h, r)), ChunkFileChecks(h, chunk, r))
  }

  /** The state after the chunk loop has seen `chunks`. */
  function ScanChunks(h: Host, base: Dir, chunks: seq<Json>): Scan
  {
    if chunks == [] then Start
    else ChunkStep(h, base, ScanChunks(h, base, chunks[..|chunks| - 1]), chunks[|chunks| - 1])
  }

  lemma StepOk(h: Host, base: Dir, st: Scan, chunk: Json)
    requires ScanOk(h, st)
    ensures ScanOk(h, ChunkStep(h, base, st, chunk))
  {
    if !JsObjectLike(Some(chunk)) {
      RejectOk(h, st, st.seen, "ASSET_CHUNK_INVALID", "Chunk entry must be an object");
      return;
    }
    var index := PositiveInteger(JsNumber(Prop(chunk, "index")));
    if index.None? {
      RejectOk(h, st, st.seen, "ASSET_CHUNK_INDEX_INVALID", "Chunk index must be an integer >= 1");
      return;
    }
    if index.value in st.seen {
      RejectOk(h, st, st.seen, "ASSET_CHUNK_INDEX_DUPLICATE", "Duplicate chunk index: " + IntToString(index.value));
      return;
    }
    var seen := st.seen + {index.value};
    var path := StrProp(chunk, "path");
    if path.None? || JsBlank(path.value) {
      RejectOk(h, st, seen, "ASSET_CHUNK_PATH_MISSING", "Chunk path is missing or not a string");
      return;
    }
    var safe := ResolveSafePath(base, Some(JStr(path.value)));
    if safe.Rejected? {
      RejectOk(h, st, seen, "ASSET_CHUNK_PATH_UNSAFE", "Unsafe chunk path: " + path.value);
    } else if !Exists(h, safe.resolved) {
      RejectOk(h, st, seen, "ASSET_CHUNK_MISSING", "Chunk file not found: " + path.value);
    } else if !IsFile(h, safe.resolved) {
      RejectOk(h, st, seen, "ASSET_CHUNK_NOT_REGULAR", "Chunk path is not a regular file: " + path.value);
    } else {
      AcceptOk(h, st, index.value, safe.resolved, ChunkFileChecks(h, chunk, safe.resolved));
    }
  }

  lemma {:induction false} ScanChunksOk(h: Host, base: Dir, chunks: seq<Json>)
    ensures ScanOk(h, ScanChunks(h, base, chunks))
    decreases |chunks|
  {
    if chunks != [] {
      ScanChunksOk(h, base, chunks[..|chunks| - 1]);
      StepOk(h, base, ScanChunks(h, base, chunks[..|chunks| - 1]), chunks[|chunks| - 1]);
    }
  }

  /** The first position whose index is not its 1-based position, searching from `k`. */
  function GapFrom(s: seq<ChunkEntry>, k: nat): (r: Option<nat>)
    requires k <= |s|
    ensures r.None? <==> forall i :: k <= i < |s| ==> s[i].index == i + 1
    ensures r.Some? ==> k <= r.value < |s| && s[r.value].index != r.value + 1
    ensures r.Some? ==> forall i :: k <= i < r.value ==> s[i].index == i + 1
    decreases |s| - k
  {
    if k == |s| then None
    else if s[k].index != k + 1 then Some(k)
    else GapFrom(s, k + 1)
  }

  /** The whole-asset checks on the sorted chunks: summed size, then the digest of the files in that order. */
  function WholeAssetChecks(h: Host, sorted: seq<ChunkEntry>, record: Json): seq<Finding>
  {
    var total := SumSizes(sorted);
    var sizeCheck :=
      if IntProp(record, "size").Some? && total != IntProp(record, "size").value then
        [Finding("ASSET_SIZE_MISMATCH", "Asset size mismatch: " + NatToString(total) + " != " + IntToString(IntProp(record, "size").value))]
      else [];
    var expected := ExpectedSha(record, h.jsLower);
    var digestCheck :=
      if expected.Some? && expected.value != "" then
        match Sha256OfFiles(h, Paths(sorted))
        case Ok(actual) =>
          if actual != expected.value then [Finding("ASSET_DIGEST_MISMATCH", "Asset digest mismatch: " + actual + " != " + expected.value)]
          else []
        case Failure(e) => [Finding("ASSET_DIGEST_ERROR", "Asset digest error: " + e)]
      else [];
    sizeCheck + digestCheck
  }

  /** The findings for a record with a `chunks` array. */
  function ChunkedFindings(h: Host, base: Dir, record: Json, chunks: seq<Json>): seq<Finding>
  {
    AfterScan(h, ScanChunks(h, base, chunks), record)
  }

  /** What follows the chunk scan: the index run and the whole asset, when every chunk was good. */
  function AfterScan(h: Host, st: Scan, record: Json): seq<Finding>
  {
    if st.entries == [] || !st.canAssemble then st.findings
    else
      var sorted := SortedEntries(st.entries);
      match GapFrom(sorted, 0)
      case Some(k) =>
        st.findings + [Finding("ASSET_CHUNK_INDEX_GAP",
                               "Chunk index gap: expected " + NatToString(k + 1) + ", got " + IntToString(sorted[k].index))]
      case None => st.findings + WholeAssetChecks(h, sorted, record)
  }

  /** The findings for a record that names one blob by `path`. */
  function BlobFindings(h: Host, base: Dir, record: Json): seq<Finding>
  {
    var path := StrProp(record, "path");
    if path.None? || JsBlank(path.value) then []
    else
      match ResolveSafePath(base, Some(JStr(path.value)))
      case Rejected(_, _) => [Finding("ASSET_BLOB_PATH_UNSAFE", "Unsafe asset blob path: " + path.value)]
      case Resolved(r) =>
        if !Exists(h, r) then [Finding("ASSET_BLOB_MISSING", "Asset blob file not found: " + path.value)]
        else if !IsFile(h, r) then [Finding("ASSET_BLOB_NOT_REGULAR", "Asset blob path is not a regular file: " + path.value)]
        else
          var sizeCheck :=
            if IntProp(record, "size").Some? && Size(h, r) != IntProp(record, "size").value then
              [Finding("ASSET_BLOB_SIZE_MISMATCH",
                       "Asset blob size mismatch: " + NatToString(Size(h, r)) + " != " + IntToString(IntProp(record, "size").value))]
            else [];
          var expected := ExpectedSha(record, h.jsLower);
          var digestCheck :=
            if expected.Some? && expected.value != "" then
              match ComputeSha256Hex(h, r)
              case Ok(actual) =>
                if actual != expected.value then
                  [Finding("ASSET_BLOB_DIGEST_MISMATCH", "Asset blob digest mismatch: " + actual + " != " + expected.value)]
                else []
              case Failure(e) => [Finding("ASSET_BLOB_DIGEST_ERROR", "Asset blob digest error: " + e)]
            else [];
          sizeCheck + digestCheck
  }

  /** What `validateAssetIndexRecord` returns for one record. */
  function RecordFindings(h: Host, base: Dir, checkAssetBlobs: bool, mediaType: Option<Json>, record: Json): (fs: seq<Finding>)
    // a no-op unless blob checking is on and the artifact is an asset index
    ensures !checkAssetBlobs || mediaType != Some(JStr(AssetIndexType)) ==> fs == []
  {
    if !checkAssetBlobs || mediaType != Some(JStr(AssetIndexType)) then []
    else if !JsObjectLike(Some(record)) then []
    else
      match Prop(record, "chunks")
      case Some(JArr(chunks)) => ChunkedFindings(h, base, record, chunks)
      case _ => BlobFindings(h, base, record)
  }

  /** The findings as the items `validateNdjson` receives from the hook. */
  function AsItems(fs: seq<Finding>): (items: seq<NdjsonNode.HookItem>)
    ensures |items| == |fs|
  {
    seq(|fs|, i requires 0 <= i < |fs| => NdjsonNode.HookItem(Some("error"), Some(fs[i].code), Some(fs[i].message)))
  }

  /** The `onRecord` hook `validatePackage` hands to `validateNdjson`. */
  function AssetHook(h: Host, base: Dir, checkAssetBlobs: bool, mediaType: Option<Json>): NdjsonNode.RecordHook
  {
    (record: Json, n: nat) => Some(AsItems(RecordFindings(h, base, checkAssetBlobs, mediaType, record)))
  }

  /** The chunk loop of `validateAssetIndexRecord`. */
  method ScanChunkList(h: Host, base: Dir, chunks: seq<Json>)
    returns (details: seq<Finding>, chunkEntries: seq<ChunkEntry>, canAssemble: bool)
    ensures var st := ScanChunks(h, base, chunks);
      details == st.findings && chunkEntries == st.entries && canAssemble == st.canAssemble
  {
    details, chunkEntries, canAssemble := [], [], true;
    var seenIndexes: set<int> := {};
    for i := 0 to |chunks|
      invariant Scan(details, chunkEntries, seenIndexes, canAssemble) == ScanChunks(h, base, chunks[..i])
    {
      var chunk := chunks[i];
      assert chunks[..i + 1][..i] == chunks[..i];
      ghost var before := Scan(details, chunkEntries, seenIndexes, canAssemble);
      assert ScanChunks(h, base, chunks[..i + 1]) == ChunkStep(h, base, before, chunk);
      if !JsObjectLike(Some(chunk)) {
        details := details + [Finding("ASSET_CHUNK_INVALID", "Chunk entry must be an object")];
        canAssemble := false;
        continue;
      }
      var index := PositiveInteger(JsNumber(Prop(chunk, "index")));
      if index.None? {
        details := details + [Finding("ASSET_CHUNK_INDEX_INVALID", "Chunk index must be an integer >= 1")];
        canAssemble := false;
        continue;
      }
      if index.value in seenIndexes {
        details := details + [Finding("ASSET_CHUNK_INDEX_DUPLICATE", "Duplicate chunk index: " + IntToString(index.value))];
        canAssemble := false;
        continue;
      }
      seenIndexes := seenIndexes + {index.value};
      var path := StrProp(chunk, "path");
      if path.None? || JsBlank(path.value) {
        details := details + [Finding("ASSET_CHUNK_PATH_MISSING", "Chunk path is missing or not a string")];
        canAssemble := false;
        continue;
      }
      var safe := ResolveSafePath(base, Some(JStr(path.value)));
      if safe.Rejected? {
        details := details + [Finding("ASSET_CHUNK_PATH_UNSAFE", "Unsafe chunk path: " + path.value)];
        canAssemble := false;
        continue;
      }
      if !Exists(h, safe.resolved) {
        details := details + [Finding("ASSET_CHUNK_MISSING", "Chunk file not found: " + path.value)];
        canAssemble := false;
        continue;
      }
      if !IsFile(h, safe.resolved) {
        details := details + [Finding("ASSET_CHUNK_NOT_REGULAR", "Chunk path is not a regular file: " + path.value)];
        canAssemble := false;
        continue;
      }
      var checks := CheckChunkFile(h, chunk, safe.resolved);
      details := details + checks;
      if checks != [] {
        canAssemble := false;
      }
      chunkEntries := chunkEntries + [ChunkEntry(index.value, safe.resolved, Size(h, safe.resolved))];
    }
    assert chunks[..|chunks|] == chunks;
  }

  /** The size and digest checks of one chunk, as the loop body performs them. */
  method CheckChunkFile(h: Host, chunk: Json, r: string) returns (checks: seq<Finding>)
    requires IsFile(h, r)
    ensures checks == ChunkFileChecks(h, chunk, r)
  {
    checks := [];
    var size := IntProp(chunk, "size");
    if size.Some? && Size(h, r) != size.value {
      checks := checks + [Finding("ASSET_CHUNK_SIZE_MISMATCH",
                                  "Chunk size mismatch: " + NatToString(Size(h, r)) + " != " + IntToString(size.value))];
    }
    var sha := StrProp(chunk, "sha256");
    if sha.Some? {
      var actual := ComputeSha256Hex(h, r);
      if actual.Failure? {
        checks := checks + [Finding("ASSET_CHUNK_DIGEST_ERROR", "Chunk digest error: " + actual.error)];
      } else if actual.value != h.jsLower(sha.value) {
        checks := checks + [Finding("ASSET_CHUNK_DIGEST_MISMATCH", "Chunk digest mismatch: " + actual.value + " != " + sha.value)];
      }
    }
  }

  /** The gap loop over the sorted entries: the first position whose index is not its 1-based position. */
  method FindGap(sorted: seq<ChunkEntry>) returns (gap: Option<nat>)
    ensures gap == GapFrom(sorted, 0)
  {
    var expectedIndex := 1;
    gap := None;
    for k := 0 to |sorted|
      invariant expectedIndex == k + 1
      invariant GapFrom(sorted, 0) == GapFrom(sorted, k)
    {
      if sorted[k].index != expectedIndex {
        gap := Some(k);
        break;
      }
      expectedIndex := expectedIndex + 1;
    }
  }

  /** `validateAssetIndexRecord(record, lineNumber, options)`. */
  method ValidateAssetIndexRecord(h: Host, base: Dir, checkAssetBlobs: bool, mediaType: Option<Json>, record: Json)
    returns (details: seq<Finding>)
    ensures details == RecordFindings(h, base, checkAssetBlobs, mediaType, record)
  {
    if !checkAssetBlobs || mediaType != Some(JStr(AssetIndexType)) {
      return [];
    }
    if !JsObjectLike(Some(record)) {
      return [];
    }
    var chunks := Prop(record, "chunks");
    if chunks.Some? && chunks.value.JArr? {
      details := CheckChunks(h, base, record, chunks.value.items);
      return;
    }
    details := BlobFindings(h, base, record);
  }

  /** The `chunks` branch: scan the chunk list, then, when every chunk is good, the index run and the whole asset. */
  method CheckChunks(h: Host, base: Dir, record: Json, chunks: seq<Json>) returns (details: seq<Finding>)
    ensures details == ChunkedFindings(h, base, record, chunks)
  {
    var chunkEntries, canAssemble;
    details, chunkEntries, canAssemble := ScanChunkList(h, base, chunks);
    ghost var st := ScanChunks(h, base, chunks);
    if |chunkEntries| > 0 && canAssemble {
      var sorted := SortedEntries(chunkEntries);
      assert sorted == SortedEntries(st.entries);
      var gap := FindGap(sorted);
      if gap.Some? {
        var k := gap.value;
        details := details + [Finding("ASSET_CHUNK_INDEX_GAP",
          "Chunk index gap: expected " + NatToString(k + 1) + ", got " + IntToString(sorted[k].index))];
        assert GapFrom(sorted, 0) == Some(k);
        return;
      }
      var whole := CheckWholeAsset(h, sorted, record);
      details := details + whole;
      assert GapFrom(sorted, 0).None?;
    } else {
      assert st.entries == [] || !st.canAssemble;
    }
  }

  /** The whole-asset checks as the method performs them, hashing through `computeSha256HexFromFiles`. */
  method CheckWholeAsset(h: Host, sorted: seq<ChunkEntry>, record: Json) returns (checks: seq<Finding>)
    ensures checks == WholeAssetChecks(h, sorted, record)
  {
    checks := [];
    var totalSize := SumSizes(sorted);
    var expectedSize := IntProp(record, "size");
    if expectedSize.Some? && totalSize != expectedSize.value {
      checks := checks + [Finding("ASSET_SIZE_MISMATCH",
                                  "Asset size mismatch: " + NatToString(totalSize) + " != " + IntToString(expectedSize.value))];
    }
    var expectedSha := ExpectedSha(record, h.jsLower);
    if expectedSha.Some? && expectedSha.value != "" {
      var actual := ComputeSha256HexFromFiles(h, Paths(sorted));
      if actual.Failure? {
        checks := checks + [Finding("ASSET_DIGEST_ERROR", "Asset digest error: " + actual.error)];
      } else if actual.value != expectedSha.value {
        checks := checks + [Finding("ASSET_DIGEST_MISMATCH", "Asset digest mismatch: " + actual.value + " != " + expectedSha.value)];
      }
    }
  }

  /** Any failing chunk disables assembly: the record's findings are then the chunk findings alone. */
  lemma FailedChunkBlocksAssembly(h: Host, base: Dir, record: Json, chunks: seq<Json>)
    requires ScanChunks(h, base, chunks).findings != []
    ensures ChunkedFindings(h, base, record, chunks) == ScanChunks(h, base, chunks).findings
  {
    ScanChunksOk(h, base, chunks);
  }

  /** With every chunk good, a hole or a stray index in the sorted run is the one and only finding. */
  lemma GapIsReported(h: Host, base: Dir, record: Json, chunks: seq<Json>)
    requires ScanChunks(h, base, chunks).findings == [] && ScanChunks(h, base, chunks).entries != []
    requires !(forall i :: 0 <= i < |ScanChunks(h, base, chunks).entries| ==>
                 SortedEntries(ScanChunks(h, base, chunks).entries)[i].index == i + 1)
    ensures |ChunkedFindings(h, base, record, chunks)| == 1
    ensures ChunkedFindings(h, base, record, chunks)[0].code == "ASSET_CHUNK_INDEX_GAP"
  {
    ScanChunksOk(h, base, chunks);
  }

  /** A sorted run numbered 1..n consists of the chunks themselves, each with an index in 1..n. */
  lemma RunWithinRange(es: seq<ChunkEntry>)
    requires forall i :: 0 <= i < |es| ==> SortedEntries(es)[i].index == i + 1
    ensures forall i :: 0 <= i < |es| ==> SortedEntries(es)[i] in es
    ensures forall e :: e in es ==> 1 <= e.index <= |es|
  {
    var sorted := SortedEntries(es);
    SortByKeyOrders(es, IndexOf);
    forall i | 0 <= i < |es| ensures sorted[i] in es {
      assert sorted[i] in multiset(sorted);
    }
    forall e | e in es ensures 1 <= e.index <= |es| {
      assert e in multiset(sorted);
      var i :| 0 <= i < |sorted| && sorted[i] == e;
    }
  }

  /**
   * An asset is assembled only from a gap-free run: the sorted chunks carry
   * the indexes 1..n in that order, so the n chunks have distinct indexes
   * all within 1..n; the size compared is the sum of all chunk sizes, and the
   * digest is taken over the chunk files in ascending index order.
   */
  lemma AssembledAsset(h: Host, base: Dir, record: Json, chunks: seq<Json>)
    requires ScanChunks(h, base, chunks).findings == [] && ScanChunks(h, base, chunks).entries != []
    requires forall i :: 0 <= i < |ScanChunks(h, base, chunks).entries| ==>
               SortedEntries(ScanChunks(h, base, chunks).entries)[i].index == i + 1
    ensures var es := ScanChunks(h, base, chunks).entries;
      && ChunkedFindings(h, base, record, chunks) == WholeAssetChecks(h, SortedEntries(es), record)
      && SumSizes(SortedEntries(es)) == SumSizes(es)
      && (forall i :: 0 <= i < |es| ==> SortedEntries(es)[i] in es)
      && (forall e :: e in es ==> 1 <= e.index <= |es|)
      && (forall i, j :: 0 <= i < j < |es| ==> es[i].index != es[j].index)
  {
    ScanChunksOk(h, base, chunks);
    var es := ScanChunks(h, base, chunks).entries;
    WholeAfterScan(h, ScanChunks(h, base, chunks), record);
    SortedSum(es);
    RunWithinRange(es);
  }

  lemma WholeAfterScan(h: Host, st: Scan, record: Json)
    requires ScanOk(h, st) && st.findings == [] && st.entries != []
    requires forall i :: 0 <= i < |st.entries| ==> SortedEntries(st.entries)[i].index == i + 1
    ensures AfterScan(h, st, record) == WholeAssetChecks(h, SortedEntries(st.entries), record)
  {
    assert GapFrom(SortedEntries(st.entries), 0).None?;
  }
}
