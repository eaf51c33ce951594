/**
 * The outside world both validators consult, as plain inputs: a file tree keyed
 * by normalised absolute path, SHA-256 as an uninterpreted function over bytes,
 * the text decoder and line reader, and the JSON parser.
 */
module Env {
  import opened Common
  import opened JsonDoc

  /**
   * A file-tree node. `readable` is false when opening the file fails;
   * `sizeKnown` is false when PHP's `filesize` fails on it.
   */
  datatype FileNode =
    | File(data: seq<bv8>, readable: bool, sizeKnown: bool)
    | Dir

  type Tree = map<string, FileNode>

  /** A JSON parse: the document, or the parser's error message. */
  datatype ParseResult = Parsed(value: Json) | ParseFailed(reason: string)

  datatype Host = Host(
    tree: Tree,
    /** SHA-256 (FIPS 180-4) as lower-case hex; its internals are not modelled. */
    sha256: seq<bv8> -> string,
    /** Bytes read as text; one decoding stands for both Node's UTF-8 reading and PHP's raw bytes. */
    text: seq<bv8> -> string,
    /** The lines Node's `readline` yields for a file's bytes, terminators removed (the PHP reader is `NdjsonPhp.SplLines`). */
    lines: seq<bv8> -> seq<string>,
    /** `JSON.parse` / `json_decode`. */
    parse: string -> ParseResult,
    /** `stat.size` of a directory, which the file system decides (4096 on ext4, for one). */
    dirSize: string -> nat,
    /** JavaScript `toLowerCase` (the Unicode case mapping); its tables are not modelled. */
    jsLower: string -> string)

  /** A JSON Schema check by schema name (PHP's `SchemaValidator::validate`): the verdict and its messages. */
  datatype SchemaVerdict = SchemaVerdict(valid: bool, errors: seq<string>)

  type SchemaCheck = (string, Json) -> SchemaVerdict

  /** `fs.stat` succeeds / `file_exists`. */
  predicate Exists(h: Host, p: string)
  {
    p in h.tree
  }

  /** `stat.isFile()` / `is_file`. */
  predicate IsFile(h: Host, p: string)
  {
    p in h.tree && h.tree[p].File?
  }

  /** A regular file that can be opened and read to the end. */
  predicate Readable(h: Host, p: string)
  {
    IsFile(h, p) && h.tree[p].readable
  }

  /** `stat.size` of a regular file. */
  function Size(h: Host, p: string): nat
    requires IsFile(h, p)
  {
    |h.tree[p].data|
  }

  /** PHP `filesize`: false (None) when the path is missing or its size cannot be read. */
  function FileSize(h: Host, p: string): (r: Option<nat>)
    ensures r.Some? ==> IsFile(h, p) && r.value == Size(h, p)
  {
    if IsFile(h, p) && h.tree[p].sizeKnown then Some(Size(h, p)) else None
  }

  /** Node `readJsonFile`: read as text, then parse; any read failure is an error. */
  function ReadJson(h: Host, p: string): (r: ParseResult)
    ensures !Readable(h, p) ==> r.ParseFailed?
    // a readable file gives whatever parsing its decoded text gives, `null` included
    ensures Readable(h, p) ==> r == h.parse(h.text(h.tree[p].data))
  {
    if Readable(h, p) then h.parse(h.text(h.tree[p].data))
    else ParseFailed("cannot read " + p)
  }

  /** PHP `FileUtil::readJsonFile`: missing, unreadable, undecodable or `null` documents fail with a reason. */
  function PhpReadJson(h: Host, p: string): (r: ParseResult)
    ensures r.Parsed? ==> Readable(h, p) && r.value != JNull
    ensures !IsFile(h, p) ==> r == ParseFailed("File not found")
    ensures IsFile(h, p) && !Readable(h, p) ==> r == ParseFailed("Failed to read file")
    // a readable file: the decoder's failure and reason, `Empty JSON` for `null`, otherwise the decoded value
    ensures Readable(h, p) && h.parse(h.text(h.tree[p].data)).ParseFailed? ==> r == h.parse(h.text(h.tree[p].data))
    ensures Readable(h, p) && h.parse(h.text(h.tree[p].data)) == Parsed(JNull) ==> r == ParseFailed("Empty JSON")
    ensures Readable(h, p) && h.parse(h.text(h.tree[p].data)).Parsed? && h.parse(h.text(h.tree[p].data)).value != JNull ==>
      r == h.parse(h.text(h.tree[p].data))
  {
    if !IsFile(h, p) then ParseFailed("File not found")
    else if !h.tree[p].readable then ParseFailed("Failed to read file")
    else
      match h.parse(h.text(h.tree[p].data))
      case ParseFailed(reason) => ParseFailed(reason)
      case Parsed(JNull) => ParseFailed("Empty JSON")
      case Parsed(data) => Parsed(data)
  }

  /**
   * Over one shared decoder and parser, the two reader wrappers agree on
   * every document PHP's accepts; they part only where PHP's fails and
   * Node's does not: on a document that decodes to `null`.
   */
  lemma ReadersAgree(h: Host, p: string)
    ensures PhpReadJson(h, p).Parsed? ==> ReadJson(h, p) == PhpReadJson(h, p)
    ensures ReadJson(h, p).Parsed? && PhpReadJson(h, p).ParseFailed? <==> ReadJson(h, p) == Parsed(JNull)
  {
  }
}
