/**
 * What the Node and PHP asset-index hooks share: the state of the chunk loop
 * and the invariant it keeps, the collected chunk entries, their ordering by
 * index and their summed size.
 */
module AssetChunks {
  import opened Common
  import opened Strings
  import opened JsonDoc
  import opened Env
  import opened Sorting

  /** One error finding of the asset hook: its code and message (the level is always `error`). */
  datatype Finding = Finding(code: string, message: string)

  /** A collected chunk: its index, resolved path and the file's actual size. */
  datatype ChunkEntry = ChunkEntry(index: int, path: string, size: nat)

  /** The variables of the chunk loop: `details`, `chunkEntries`, `seenIndexes`, `canAssemble`. */
  datatype Scan = Scan(findings: seq<Finding>, entries: seq<ChunkEntry>, seen: set<int>, canAssemble: bool)

  const Start: Scan := Scan([], [], {}, true)

  /** A chunk rejected: one finding, assembly disabled, no entry. */
  function Reject(st: Scan, seen: set<int>, code: string, message: string): Scan
  {
    Scan(st.findings + [Finding(code, message)], st.entries, seen, false)
  }

  /** A chunk collected: its check findings (which disable assembly if any) and its entry. */
  function Accept(st: Scan, seen: set<int>, entry: ChunkEntry, checks: seq<Finding>): Scan
  {
    Scan(st.findings + checks, st.entries + [entry], seen, st.canAssemble && checks == [])
  }


  /**
   * What the loop keeps true: assembly is still possible exactly when nothing
   * was reported; every collected chunk has a distinct index of at least 1
   * that is recorded as seen, and names a regular file whose size it carries.
   */
  predicate ScanOk(h: Host, st: Scan)
  {
    && (st.canAssemble <==> st.findings == [])
    && (forall i :: 0 <= i < |st.entries| ==> st.entries[i].index >= 1 && st.entries[i].index in st.seen)
    && (forall i, j :: 0 <= i < j < |st.entries| ==> st.entries[i].index != st.entries[j].index)
    && (forall i :: 0 <= i < |st.entries| ==>
          IsFile(h, st.entries[i].path) && st.entries[i].size == Size(h, st.entries[i].path))
  }

  lemma RejectOk(h: Host, st: Scan, seen: set<int>, code: string, message: string)
    requires ScanOk(h, st) && st.seen <= seen
    ensures ScanOk(h, Reject(st, seen, code, message))
  {
  }

  lemma AcceptOk(h: Host, st: Scan, index: int, r: string, checks: seq<Finding>)
    requires ScanOk(h, st) && index >= 1 && index !in st.seen && IsFile(h, r)
    ensures ScanOk(h, Accept(st, st.seen + {index}, ChunkEntry(index, r, Size(h, r)), checks))
  {
    var next := Accept(st, st.seen + {index}, ChunkEntry(index, r, Size(h, r)), checks);
    forall i | 0 <= i < |next.entries| ensures next.entries[i].index >= 1 && next.entries[i].index in next.seen {
      if i < |st.entries| { assert next.entries[i] == st.entries[i]; }
    }
    forall i, j | 0 <= i < j < |next.entries| ensures next.entries[i].index != next.entries[j].index {
      assert next.entries[i] == st.entries[i];
      if j < |st.entries| { assert next.entries[j] == st.entries[j]; }
    }
    forall i | 0 <= i < |next.entries|
      ensures IsFile(h, next.entries[i].path) && next.entries[i].size == Size(h, next.entries[i].path)
    {
      if i < |st.entries| { assert next.entries[i] == st.entries[i]; }
    }
  }


  function IndexOf(e: ChunkEntry): int
  {
    e.index
  }

  /** The chunks sorted by ascending index (`sort` / `usort` with an index comparator). */
  function SortedEntries(entries: seq<ChunkEntry>): seq<ChunkEntry>
  {
    SortBy(entries, ByKey(IndexOf))
  }


  /** The summed size of the chunks. */
  function SumSizes(es: seq<ChunkEntry>): nat
  {
    if es == [] then 0 else SumSizes(es[..|es| - 1]) + es[|es| - 1].size
  }

  /** The chunk paths, in the order of the chunks. */
  function Paths(es: seq<ChunkEntry>): (ps: seq<string>)
    ensures |ps| == |es| && forall i :: 0 <= i < |es| ==> ps[i] == es[i].path
  {
    seq(|es|, i requires 0 <= i < |es| => es[i].path)
  }

  /** The record's `sha256` lower-cased by `lower` when it is a string. */
  function ExpectedSha(record: Json, lower: string -> string): Option<string>
  {
    if StrProp(record, "sha256").Some? then Some(lower(StrProp(record, "sha256").value)) else None
  }


  /** Adding one entry to a sorted prefix adds its size to the total. */
  lemma {:induction false} InsertSum(s: seq<ChunkEntry>, x: ChunkEntry)
    ensures SumSizes(Insert(s, x, ByKey(IndexOf))) == SumSizes(s) + x.size
    decreases |s|
  {
    var r := Insert(s, x, ByKey(IndexOf));
    if s == [] {
      assert r == [x];
      assert r[..0] == [];
    } else if ByKey(IndexOf)(s[|s| - 1], x) {
      assert r[..|r| - 1] == s;
    } else {
      InsertSum(s[..|s| - 1], x);
      assert r[..|r| - 1] == Insert(s[..|s| - 1], x, ByKey(IndexOf));
    }
  }

  /** Sorting does not change the total size. */
  lemma {:induction false} SortedSum(es: seq<ChunkEntry>)
    ensures SumSizes(SortedEntries(es)) == SumSizes(es)
    decreases |es|
  {
    if es != [] {
      SortedSum(es[..|es| - 1]);
      InsertSum(SortedEntries(es[..|es| - 1]), es[|es| - 1]);
    }
  }
}
