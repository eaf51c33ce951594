/**
 * A zip archive as the volume-set validators see it: the entries of its
 * central directory, in order, each with its stored name and its bytes.
 * The container format and the decompression are not modelled.
 */
module Zip {
  import opened Common

  /** One entry: its stored name, and its bytes or `None` when they cannot be read. */
  datatype ZipEntry = ZipEntry(name: string, data: Option<seq<bv8>>)

  /** Opening an archive from the bytes of its file: the entries, or why it cannot be opened. */
  type Unzip = seq<bv8> -> Result<seq<ZipEntry>>

  /** A name ending in a separator, as directory entries are stored. */
  predicate EndsWithSlash(name: string)
  {
    |name| > 0 && name[|name| - 1] == '/'
  }
}
