/**
 * Model of VolumeSetValidator.php. The same pipeline as the Node validator:
 * the descriptor, a survey of each volume, extraction in index order into a
 * temporary directory, then the package validator over that directory. PHP
 * differs in its messages, in `is_file` where Node uses `stat`, in a file
 * size that can fail, and in extraction that reports a bad entry and goes on
 * with the next one instead of throwing.
 *
 * Every message goes through the `$addMessage` closure, which both adds it
 * to the report and logs it in `$volumeMessages`; the methods here thread
 * that log as a value beside the report.
 */
module VolumesPhp {
  import opened Common
  import opened Strings
  import opened JsonDoc
  import opened Env
  import opened Lexical
  import opened Digest
  import opened PhpReport
  import opened Sorting
  import opened Zip
  import SafePath
  import ObjectsPhp
  import PackagePhp

  /**
   * The arguments of `validate`, with the outside world: the named-schema
   * check, the zip reader and the directory `createTempDir` makes (`None`
   * when it fails).
   */
  datatype VolumeSet = VolumeSet(h: Host, descriptor: Dir, schema: SchemaCheck, unzip: Unzip, temp: Option<Dir>,
                                 profile: Option<string>, skipDigest: bool, checkAssetBlobs: bool, tool: map<string, string>)

  /** The clock readings: the volume report's start and end, and the package run's own two. */
  datatype Clock = Clock(started: string, packageStarted: string, packageFinished: string, finished: string)

  const EntryInvalid: Message := Message(Error, "VOLUME_ENTRY_INVALID", "Volume entry must be an object")
  const FileInvalid: Message := Message(Error, "VOLUME_FILE_INVALID", "Volume file name is missing or invalid")
  const EnvelopeMissing: Message :=
    Message(Error, "VOLUME_ENVELOPE_MISSING", "encryption.envelopeFile is required for age volumes")
  const Unsupported: Message :=
    Message(Error, "VOLUME_ENCRYPTION_UNSUPPORTED", "Encrypted volumes are not supported by this validator")
  const TempDirError: Message := Message(Error, "VOLUME_TEMP_DIR_ERROR", "Failed to create temporary directory")

  // ------------------------------------------------------------ descriptor

  /** The descriptor's messages and its `volumes` list; `stop` when the run ends right there. */
  datatype Descriptor = Descriptor(ms: seq<Message>, volumes: seq<Json>, stop: bool)

  /** `$data->volumes` when the document is an object and that property is an array, else nothing. */
  function VolumesOf(data: Json): seq<Json>
  {
    match data
    case JObj(fields) => if "volumes" in fields && fields["volumes"].JArr? then fields["volumes"].items else []
    case _ => []
  }

  /**
   * Reading the descriptor at `p`: a missing or undecodable one stops the
   * run; a decoded object is schema-checked; any other decoded value raises
   * a `TypeError` in the schema check (`None`).
   */
  function ReadDescriptor(h: Host, schema: SchemaCheck, p: string): (r: Option<Descriptor>)
    ensures r.None? <==> PhpReadJson(h, p).Parsed? && !PhpReadJson(h, p).value.JObj?
    ensures r.Some? ==> (r.value.stop <==> PhpReadJson(h, p).ParseFailed?)
    ensures !IsFile(h, p) ==> r == Some(Descriptor([Message(Error, "VOLUME_SET_MISSING", "Volume set descriptor not found")], [], true))
    ensures IsFile(h, p) && PhpReadJson(h, p).ParseFailed? ==>
      r == Some(Descriptor([Message(Error, "VOLUME_SET_PARSE_ERROR", "Failed to read volume set descriptor")], [], true))
    // a decoded descriptor is reported against only by its schema, and its volumes are still surveyed
    ensures r.Some? && !r.value.stop ==>
      && (r.value.ms == [] <==> schema("volume-set", PhpReadJson(h, p).value).valid
                                || schema("volume-set", PhpReadJson(h, p).value).errors == [])
      && r.value.volumes == VolumesOf(PhpReadJson(h, p).value)
    ensures r.Some? ==> forall m :: m in r.value.ms ==> m.level == Error
  {
    if !IsFile(h, p) then Some(Descriptor([Message(Error, "VOLUME_SET_MISSING", "Volume set descriptor not found")], [], true))
    else
      match PhpReadJson(h, p)
      case ParseFailed(_) => Some(Descriptor([Message(Error, "VOLUME_SET_PARSE_ERROR", "Failed to read volume set descriptor")], [], true))
      case Parsed(data) =>
        match ObjectsPhp.Validated(schema, "volume-set", data, "VOLUME_SET_SCHEMA_ERROR")
        case None => None
        case Some(ms) => Some(Descriptor(ms, VolumesOf(data), false))
  }

  // ---------------------------------------------------------------- survey

  /** What extraction needs of a volume: its index (an integer, else 0), its file name and its resolved path. */
  datatype VolumeEntry = VolumeEntry(index: int, file: string, path: string)

  /** One volume's messages, and its entry when it is kept for extraction. */
  datatype Surveyed = Surveyed(ms: seq<Message>, entry: Option<VolumeEntry>)

  /** `$volume->file` when it is a string that is not blank after `trim`. */
  function NamedFile(volume: Json): Option<string>
  {
    match StrProp(volume, "file")
    case Some(file) => if PhpBlank(file) then None else Some(file)
    case None => None
  }

  /** The size check: an integer `size` must equal the size `filesize` gave. */
  function SizeMessages(volume: Json, actual: nat): (ms: seq<Message>)
    ensures ms == [] <==> IntProp(volume, "size").None? || IntProp(volume, "size").value == actual
    ensures |ms| <= 1 && forall m :: m in ms ==> m.level == Error && m.code == "VOLUME_SIZE_MISMATCH"
  {
    match IntProp(volume, "size")
    case Some(size) =>
      if actual != size then
        [Message(Error, "VOLUME_SIZE_MISMATCH", "Volume size mismatch: " + IntToString(actual) + " != " + IntToString(size))]
      else []
    case None => []
  }

  /** The digest check: a string `sha256`, lower-cased, must equal the file's hex digest; a failing digest is reported. */
  function DigestMessages(h: Host, volume: Json, p: string): (ms: seq<Message>)
    ensures ms == [] <==>
      StrProp(volume, "sha256").None? || (Readable(h, p) && h.sha256(h.tree[p].data) == AsciiLower(StrProp(volume, "sha256").value))
    ensures StrProp(volume, "sha256").Some? && !Readable(h, p) ==>
      ms == [Message(Error, "VOLUME_DIGEST_ERROR", "Failed to compute volume digest: " + ComputeSha256Hex(h, p).error)]
    ensures |ms| <= 1 && forall m :: m in ms ==> m.level == Error
  {
    match StrProp(volume, "sha256")
    case Some(sha) =>
      (match ComputeSha256Hex(h, p)
       case Ok(actual) =>
         if actual != AsciiLower(sha) then
           [Message(Error, "VOLUME_DIGEST_MISMATCH", "Volume digest mismatch: " + actual + " != " + sha)]
         else []
       case Failure(reason) => [Message(Error, "VOLUME_DIGEST_ERROR", "Failed to compute volume digest: " + reason)])
    case None => []
  }

  /** `is_object($volume->encryption) && $volume->encryption->scheme === 'age'`. */
  predicate AgeEncrypted(volume: Json)
  {
    match Prop(volume, "encryption")
    case Some(JObj(fields)) => "scheme" in fields && fields["scheme"] == JStr("age")
    case _ => false
  }

  /** The envelope named by an age volume: a non-blank string, safe next to the descriptor, naming a regular file. */
  function EnvelopeFileMessages(h: Host, base: Dir, envelopeFile: Option<Json>): (ms: seq<Message>)
    ensures |ms| <= 1 && forall m :: m in ms ==> m.level == Error
    ensures ms == [] <==>
      && envelopeFile.Some? && envelopeFile.value.JStr? && !PhpBlank(envelopeFile.value.s)
      && SafePath.Resolve(base, envelopeFile.value.s).ok && IsFile(h, SafePath.Resolve(base, envelopeFile.value.s).path.value)
    ensures envelopeFile.Some? && envelopeFile.value.JStr? && !PhpBlank(envelopeFile.value.s)
            && !SafePath.Resolve(base, envelopeFile.value.s).ok ==>
      ms == [Message(Error, "INVALID_PATH", "Unsafe envelope file path: " + envelopeFile.value.s)]
  {
    match envelopeFile
    case Some(JStr(file)) =>
      if PhpBlank(file) then [EnvelopeMissing]
      else
        var safe := SafePath.Resolve(base, file);
        if !safe.ok || safe.path.None? then [Message(Error, "INVALID_PATH", "Unsafe envelope file path: " + file)]
        else if !IsFile(h, safe.path.value) then [Message(Error, "VOLUME_ENVELOPE_NOT_FOUND", "Envelope file not found: " + file)]
        else []
    case _ => [EnvelopeMissing]
  }

  /** The encryption check: an age volume is always refused, after any complaint about its envelope file. */
  function EncryptionMessages(h: Host, base: Dir, volume: Json): (ms: seq<Message>)
    ensures ms != [] <==> AgeEncrypted(volume)
    ensures AgeEncrypted(volume) ==> ms[|ms| - 1] == Unsupported && 1 <= |ms| <= 2
    ensures forall m :: m in ms ==> m.level == Error
  {
    if AgeEncrypted(volume) then
      EnvelopeFileMessages(h, base, PropOf(Prop(volume, "encryption"), "envelopeFile")) + [Unsupported]
    else []
  }

  /** The checks on a volume whose size is known, in order; none of them drops the volume. */
  function FileChecks(h: Host, base: Dir, volume: Json, p: string, size: nat): (ms: seq<Message>)
    ensures forall m :: m in ms ==> m.level == Error
  {
    SizeMessages(volume, size) + DigestMessages(h, volume, p) + EncryptionMessages(h, base, volume)
  }

  /** `is_int($volume->index) ? $volume->index : 0`. */
  function IndexOf(volume: Json): int
  {
    match IntProp(volume, "index")
    case Some(n) => n
    case None => 0
  }

  /**
   * One volume of the descriptor. A volume that is not an object, names no
   * file, names an unsafe one, one that is not a regular file, or one whose
   * size cannot be read gets exactly one error and is dropped; any other is
   * kept, whatever its size, digest or encryption checks report.
   */
  function Survey(h: Host, base: Dir, volume: Json): (r: Surveyed)
    ensures r.entry.Some? <==>
      && volume.JObj? && NamedFile(volume).Some?
      && SafePath.Resolve(base, NamedFile(volume).value).ok
      && FileSize(h, SafePath.Resolve(base, NamedFile(volume).value).path.value).Some?
    ensures r.entry.Some? ==>
      r.entry.value == VolumeEntry(IndexOf(volume), NamedFile(volume).value, SafePath.Resolve(base, NamedFile(volume).value).path.value)
    ensures r.entry.None? ==> |r.ms| == 1
    ensures !volume.JObj? ==> r.ms == [EntryInvalid]
    ensures volume.JObj? && NamedFile(volume).None? ==> r.ms == [FileInvalid]
    ensures forall m :: m in r.ms ==> m.level == Error
  {
    if !volume.JObj? then Surveyed([EntryInvalid], None)
    else
      match NamedFile(volume)
      case None => Surveyed([FileInvalid], None)
      case Some(file) =>
        var safeFile := SafePath.Resolve(base, file);
        if !safeFile.ok || safeFile.path.None? then
          Surveyed([Message(Error, "INVALID_PATH", "Unsafe volume file path: " + file)], None)
        else SurveyFile(h, base, volume, file, safeFile.path.value)
  }

  /** A volume whose file name resolved to `p`: kept when `p` is a regular file whose size can be read. */
  function SurveyFile(h: Host, base: Dir, volume: Json, file: string, p: string): (r: Surveyed)
    ensures r.entry.Some? <==> FileSize(h, p).Some?
    ensures r.entry.Some? ==> r.entry.value == VolumeEntry(IndexOf(volume), file, p)
    ensures r.entry.None? ==> |r.ms| == 1
    ensures !IsFile(h, p) ==> r.ms == [Message(Error, "VOLUME_FILE_MISSING", "Volume file not found: " + file)]
    ensures forall m :: m in r.ms ==> m.level == Error
  {
    if !IsFile(h, p) then Surveyed([Message(Error, "VOLUME_FILE_MISSING", "Volume file not found: " + file)], None)
    else
      match FileSize(h, p)
      case None => Surveyed([Message(Error, "VOLUME_SIZE_ERROR", "Failed to read volume file size: " + file)], None)
      case Some(size) => Surveyed(FileChecks(h, base, volume, p, size), Some(VolumeEntry(IndexOf(volume), file, p)))
  }

  /** The whole survey: every volume's messages in order, and the entries kept. */
  datatype Census = Census(ms: seq<Message>, entries: seq<VolumeEntry>)

  function SurveyAll(h: Host, base: Dir, volumes: seq<Json>): (r: Census)
    ensures |r.entries| <= |volumes|
    decreases |volumes|
  {
    if volumes == [] then Census([], [])
    else
      var prev := SurveyAll(h, base, volumes[..|volumes| - 1]);
      var s := Survey(h, base, volumes[|volumes| - 1]);
      Census(prev.ms + s.ms, prev.entries + (if s.entry.Some? then [s.entry.value] else []))
  }

  /** The survey reports errors only. */
  lemma {:induction false} SurveyAllOnlyErrors(h: Host, base: Dir, volumes: seq<Json>)
    ensures forall m :: m in SurveyAll(h, base, volumes).ms ==> m.level == Error
    decreases |volumes|
  {
    if volumes != [] {
      SurveyAllOnlyErrors(h, base, volumes[..|volumes| - 1]);
    }
  }

  /** Every entry kept by the survey is a regular file inside the descriptor's directory. */
  lemma {:induction false} SurveyAllEntries(h: Host, base: Dir, volumes: seq<Json>)
    ensures forall v :: v in SurveyAll(h, base, volumes).entries ==>
      IsFile(h, v.path) && exists k: seq<string> :: v.path == SafePath.Spelled(base + k)
    decreases |volumes|
  {
    if volumes != [] {
      var prev := volumes[..|volumes| - 1];
      SurveyAllEntries(h, base, prev);
      var volume := volumes[|volumes| - 1];
      var s := Survey(h, base, volume);
      if s.entry.Some? {
        var file := NamedFile(volume).value;
        var k := Kept(Pieces(file, IsSep));
        assert s.entry.value.path == SafePath.Spelled(base + k);
      }
    }
  }

  // ------------------------------------------------------------ extraction

  /** A tree and the messages that built it. */
  datatype Extracted = Extracted(tree: Tree, ms: seq<Message>)

  /**
   * One entry of `extractZip`'s loop. An empty name is skipped and an unsafe
   * one reported; a name ending in `/` is a directory, made only where
   * nothing stands; a file is written unless its bytes cannot be read or a
   * directory stands in its place, each of which is reported.
   */
  function UnpackEntry(tree: Tree, dest: Dir, e: ZipEntry): (r: Extracted)
    ensures e.name == "" ==> r == Extracted(tree, [])
    ensures e.name != "" && !SafePath.Resolve(dest, e.name).ok ==>
      r == Extracted(tree, [Message(Error, "VOLUME_ENTRY_PATH_UNSAFE", "Unsafe entry path: " + e.name)])
    ensures |r.ms| <= 1
    ensures forall m :: m in r.ms ==> m.level == Error && m.code in {"VOLUME_ENTRY_PATH_UNSAFE", "VOLUME_EXTRACT_ERROR"}
    // a reported entry changes nothing; only the entry's own resolved path can change
    ensures r.ms != [] ==> r.tree == tree
    ensures forall p :: p in r.tree && (p !in tree || r.tree[p] != tree[p]) ==>
      e.name != "" && SafePath.Resolve(dest, e.name).path == Some(p)
    ensures tree.Keys <= r.tree.Keys
  {
    if e.name == "" then Extracted(tree, [])
    else
      var safe := SafePath.Resolve(dest, e.name);
      if !safe.ok || safe.path.None? then
        Extracted(tree, [Message(Error, "VOLUME_ENTRY_PATH_UNSAFE", "Unsafe entry path: " + e.name)])
      else PlaceEntry(tree, safe.path.value, e)
  }

  /** An entry whose name resolved to `p`: a directory made, or a file written or reported. */
  function PlaceEntry(tree: Tree, p: string, e: ZipEntry): (r: Extracted)
    ensures |r.ms| <= 1 && forall m :: m in r.ms ==> m.level == Error && m.code == "VOLUME_EXTRACT_ERROR"
    ensures r.ms != [] ==> r.tree == tree
    ensures forall q :: q in r.tree && (q !in tree || r.tree[q] != tree[q]) ==> q == p
    ensures tree.Keys <= r.tree.Keys
    // a file entry whose bytes read is written unless a directory stands in its place
    ensures !EndsWithSlash(e.name) && e.data.Some? ==>
      (r.ms == [] <==> !(p in tree && tree[p].Dir?)) && (r.ms == [] ==> r.tree == tree[p := File(e.data.value, true, true)])
  {
    if EndsWithSlash(e.name) then
      // `mkdir` over an existing file fails with no message
      if p in tree then Extracted(tree, []) else Extracted(tree[p := Dir], [])
    else if e.data.None? then
      Extracted(tree, [Message(Error, "VOLUME_EXTRACT_ERROR", "Failed to read zip entry: " + e.name)])
    else if p in tree && tree[p].Dir? then
      Extracted(tree, [Message(Error, "VOLUME_EXTRACT_ERROR", "Failed to write zip entry: " + e.name)])
    else Extracted(tree[p := File(e.data.value, true, true)], [])
  }

  /** The entries in order; a reported entry does not stop the ones after it. */
  function Unpack(tree: Tree, dest: Dir, entries: seq<ZipEntry>): Extracted
    decreases |entries|
  {
    if entries == [] then Extracted(tree, [])
    else
      var prev := Unpack(tree, dest, entries[..|entries| - 1]);
      var step := UnpackEntry(prev.tree, dest, entries[|entries| - 1]);
      Extracted(step.tree, prev.ms + step.ms)
  }

  /**
   * Zip-slip containment: every path extraction adds or changes is where
   * `SafePath::resolve` put one of the archive's entry names, and nothing is
   * removed. Every message is an error about one entry, so there are at
   * most as many as entries.
   */
  lemma {:induction false} UnpackInside(tree: Tree, dest: Dir, entries: seq<ZipEntry>)
    ensures var r := Unpack(tree, dest, entries);
      && tree.Keys <= r.tree.Keys
      && (forall p :: p in r.tree && (p !in tree || r.tree[p] != tree[p]) ==>
            exists e :: e in entries && SafePath.Resolve(dest, e.name).path == Some(p))
      && (forall m :: m in r.ms ==> m.level == Error)
      && |r.ms| <= |entries|
    decreases |entries|
  {
    if entries != [] {
      var init := entries[..|entries| - 1];
      UnpackInside(tree, dest, init);
      var prev := Unpack(tree, dest, init);
      var e := entries[|entries| - 1];
      var r := Unpack(tree, dest, entries);
      forall p | p in r.tree && (p !in tree || r.tree[p] != tree[p])
        ensures exists e :: e in entries && SafePath.Resolve(dest, e.name).path == Some(p)
      {
        if p in prev.tree && (p !in tree || prev.tree[p] != tree[p]) {
          var e' :| e' in init && SafePath.Resolve(dest, e'.name).path == Some(p);
          assert e' in entries;
        } else {
          assert SafePath.Resolve(dest, e.name).path == Some(p);
          assert e in entries;
        }
      }
    }
  }

  /** `extractZip`: an archive that does not open is one error; otherwise its entries, in order. */
  function ExtractZip(unzip: Unzip, tree: Tree, zip: string, dest: Dir): (r: Extracted)
    // an archive that is missing, unreadable or not a zip is one error and changes nothing
    ensures !(zip in tree && tree[zip].File? && tree[zip].readable && unzip(tree[zip].data).Ok?) ==>
      r == Extracted(tree, [Message(Error, "VOLUME_EXTRACT_ERROR", "Failed to open volume archive: " + zip)])
  {
    if !(zip in tree && tree[zip].File? && tree[zip].readable) then
      Extracted(tree, [Message(Error, "VOLUME_EXTRACT_ERROR", "Failed to open volume archive: " + zip)])
    else
      match unzip(tree[zip].data)
      case Failure(_) => Extracted(tree, [Message(Error, "VOLUME_EXTRACT_ERROR", "Failed to open volume archive: " + zip)])
      case Ok(entries) => Unpack(tree, dest, entries)
  }

  /** The volumes unpacked one after the other into the same directory. */
  function ExtractAll(unzip: Unzip, tree: Tree, dest: Dir, vs: seq<VolumeEntry>): Extracted
    decreases |vs|
  {
    if vs == [] then Extracted(tree, [])
    else
      var prev := ExtractAll(unzip, tree, dest, vs[..|vs| - 1]);
      var step := ExtractZip(unzip, prev.tree, vs[|vs| - 1].path, dest);
      Extracted(step.tree, prev.ms + step.ms)
  }

  /** Extraction reports errors only, and writes nowhere but inside the destination directory. */
  lemma {:induction false} ExtractAllInside(unzip: Unzip, tree: Tree, dest: Dir, vs: seq<VolumeEntry>)
    ensures var r := ExtractAll(unzip, tree, dest, vs);
      && tree.Keys <= r.tree.Keys
      && (forall p :: p in r.tree && (p !in tree || r.tree[p] != tree[p]) ==>
            exists k: seq<string> :: p == SafePath.Spelled(dest + k))
      && (forall m :: m in r.ms ==> m.level == Error)
    decreases |vs|
  {
    if vs != [] {
      var init := vs[..|vs| - 1];
      ExtractAllInside(unzip, tree, dest, init);
      var prev := ExtractAll(unzip, tree, dest, init);
      var zip := vs[|vs| - 1].path;
      var r := ExtractAll(unzip, tree, dest, vs);
      if zip in prev.tree && prev.tree[zip].File? && prev.tree[zip].readable && unzip(prev.tree[zip].data).Ok? {
        var entries := unzip(prev.tree[zip].data).value;
        UnpackInside(prev.tree, dest, entries);
        forall p | p in r.tree && (p !in tree || r.tree[p] != tree[p])
          ensures exists k: seq<string> :: p == SafePath.Spelled(dest + k)
        {
          if p in prev.tree && (p !in tree || prev.tree[p] != tree[p]) {
          } else {
            var e :| e in entries && SafePath.Resolve(dest, e.name).path == Some(p);
            assert p == SafePath.Spelled(dest + Kept(Pieces(e.name, IsSep)));
          }
        }
      }
    }
  }

  /** The sort key of a kept volume: its integer index. */
  function IndexKey(v: VolumeEntry): int
  {
    v.index
  }

  /** The extraction order: `usort` by index, which is stable from PHP 8.0 on, so ties keep descriptor order. */
  function Ordered(entries: seq<VolumeEntry>): seq<VolumeEntry>
  {
    SortBy(entries, ByKey(IndexKey))
  }

  /** Volumes are unpacked in non-decreasing index order, each kept volume exactly once, tied volumes in survey order. */
  lemma OrderedByIndex(entries: seq<VolumeEntry>, e: VolumeEntry)
    ensures var o := Ordered(entries);
      && (forall i, j :: 0 <= i <= j < |o| ==> o[i].index <= o[j].index)
      && multiset(o) == multiset(entries)
      && Peers(o, ByKey(IndexKey), e) == Peers(entries, ByKey(IndexKey), e)
  {
    SortByKeyOrders(entries, IndexKey);
    KeyOrderIsTotal(IndexKey);
    SortByStable(entries, ByKey(IndexKey), e);
  }

  // --------------------------------------------------------------- the run

  /** `dirname($volumesPath)`, which volume and envelope names are resolved against. */
  function Base(s: VolumeSet): Dir
  {
    Parent(s.descriptor)
  }

  /** Everything the volume phase reports before extraction: the descriptor, then each volume; `None` when the descriptor throws. */
  function Survey0(s: VolumeSet): Option<Census>
  {
    match ReadDescriptor(s.h, s.schema, Render(s.descriptor))
    case None => None
    case Some(d) =>
      var c := SurveyAll(s.h, Base(s), d.volumes);
      Some(Census(d.ms + c.ms, c.entries))
  }

  /** The tree after `createTempDir` and extraction of every kept volume in index order; nothing when there is no directory. */
  function Extraction(s: VolumeSet, entries: seq<VolumeEntry>): Extracted
  {
    match s.temp
    case None => Extracted(s.h.tree, [])
    case Some(temp) => ExtractAll(s.unzip, s.h.tree[Render(temp) := Dir], temp, Ordered(entries))
  }

  /** The package run over the extracted tree, rooted at the temporary directory. */
  function PackageContext(s: VolumeSet, root: Dir, tree: Tree): PackagePhp.Context
  {
    PackagePhp.Context(s.h.(tree := tree), s.schema,
                       PackagePhp.Options(root, s.profile, s.skipDigest, s.checkAssetBlobs, s.tool))
  }

  /** The report `new ValidationReport($toolInfo, 'volume-set', $volumesPath)` starts as. */
  function Blank(path: string, t: Clock): PackagePhp.Summary
  {
    PackagePhp.Summary([], [], 0, 0, 0, 0, 0, 0, t.started, None, "volume-set", path)
  }

  /** A volume report that ends before the package step: its messages counted, then `markFinished`. */
  function VolumeReport(ms: seq<Message>, path: string, t: Clock): PackagePhp.Summary
  {
    PackagePhp.Said(Blank(path, t), ms).(finishedAt := Some(t.finished))
  }

  /** How a run ends: the report returned and its `usageError`. */
  datatype Ending = Ending(report: PackagePhp.Summary, usageError: bool)

  /**
   * The volume report a run ends with before the package step: as soon as
   * the survey counts an error, when there is no temporary directory, or
   * once extraction counts one; `None` when the package step runs.
   */
  function Stopped(survey: seq<Message>, temp: Option<Dir>, x: Extracted, path: string, t: Clock): Option<PackagePhp.Summary>
  {
    if MessageCount(survey, Error) > 0 then Some(VolumeReport(survey, path, t))
    else if temp.None? then Some(VolumeReport(survey + [TempDirError], path, t))
    else if MessageCount(survey + x.ms, Error) > 0 then Some(VolumeReport(survey + x.ms, path, t))
    else None
  }

  /** The package report with the volume messages added, retargeted to the volume set and refinished. */
  function Merged(pkg: PackagePhp.Summary, ms: seq<Message>, path: string, finishedAt: string): PackagePhp.Summary
  {
    PackagePhp.Said(pkg, ms).(targetType := "volume-set", targetPath := path, finishedAt := Some(finishedAt))
  }

  /**
   * How a run ends, from the survey's messages, the temporary directory, the
   * extraction and the package run over its tree: stopped with the volume
   * report and no usage error, or with the package report merged and the
   * package's usage error (`None` when the package run throws).
   */
  function Conclude(survey: seq<Message>, temp: Option<Dir>, x: Extracted, pkg: Option<PackagePhp.Summary>, usageError: bool,
                    path: string, t: Clock): Option<Ending>
  {
    if Stopped(survey, temp, x, path, t).Some? then Some(Ending(Stopped(survey, temp, x, path, t).value, false))
    else
      match pkg
      case None => None
      case Some(p) => Some(Ending(Merged(p, survey + x.ms, path, t.finished), usageError))
  }

  /** The package run of a volume set, over the tree `x` leaves; `None` when there is no directory to run it in. */
  function PackageRun(s: VolumeSet, x: Extracted, t: Clock): Option<PackagePhp.Summary>
  {
    match s.temp
    case None => None
    case Some(root) => PackagePhp.PackageOutcome(PackageContext(s, root, x.tree), t.packageStarted, t.packageFinished)
  }

  /** The package run's usage error, from its profile block. */
  function PackageUsage(s: VolumeSet, x: Extracted): bool
  {
    match s.temp
    case None => false
    case Some(root) =>
      match PackagePhp.Prepare(PackageContext(s, root, x.tree))
      case Some(p) => p.usageError
      case None => false
  }

  /** What `validate` returns, or `None` when the schema check of the descriptor or the package run throws. */
  function VolumesOutcome(s: VolumeSet, t: Clock): Option<Ending>
  {
    match Survey0(s)
    case None => None
    case Some(c) =>
      var x := Extraction(s, c.entries);
      Conclude(c.ms, s.temp, x, PackageRun(s, x, t), PackageUsage(s, x), Render(s.descriptor), t)
  }

  /** Everything the volume phase reports is an error. */
  lemma VolumePhaseOnlyErrors(s: VolumeSet)
    requires Survey0(s).Some?
    ensures forall m :: m in Survey0(s).value.ms ==> m.level == Error
    ensures forall m :: m in Extraction(s, Survey0(s).value.entries).ms ==> m.level == Error
  {
    var d := ReadDescriptor(s.h, s.schema, Render(s.descriptor)).value;
    SurveyAllOnlyErrors(s.h, Base(s), d.volumes);
    if s.temp.Some? {
      ExtractAllInside(s.unzip, s.h.tree[Render(s.temp.value) := Dir], s.temp.value, Ordered(Survey0(s).value.entries));
    }
  }

  /** Errors only: a count of zero means no message at all. */
  lemma NoErrorsNoMessages(ms: seq<Message>)
    requires forall m :: m in ms ==> m.level == Error
    ensures MessageCount(ms, Error) == 0 <==> ms == []
  {
    UniformCount(ms, Error, Warning);
  }

  /**
   * With a volume phase of errors only, a run ends in one of four ways:
   * any survey message ends it; a missing temporary directory ends it with
   * one more error; any extraction message ends it before the package
   * step; otherwise the result is the package report retargeted to the
   * volume set and refinished, with the package's usage error, since the
   * volume messages merged into it are none.
   */
  lemma {:induction false} ConcludeShape(survey: seq<Message>, temp: Option<Dir>, x: Extracted, pkg: Option<PackagePhp.Summary>,
                                         usageError: bool, path: string, t: Clock)
    requires forall m :: m in survey ==> m.level == Error
    requires forall m :: m in x.ms ==> m.level == Error
    ensures survey != [] ==> Conclude(survey, temp, x, pkg, usageError, path, t) == Some(Ending(VolumeReport(survey, path, t), false))
    ensures survey == [] && temp.None? ==>
      Conclude(survey, temp, x, pkg, usageError, path, t) == Some(Ending(VolumeReport([TempDirError], path, t), false))
    ensures survey == [] && temp.Some? && x.ms != [] ==>
      Conclude(survey, temp, x, pkg, usageError, path, t) == Some(Ending(VolumeReport(x.ms, path, t), false))
    ensures survey == [] && temp.Some? && x.ms == [] ==>
      && (Conclude(survey, temp, x, pkg, usageError, path, t).None? <==> pkg.None?)
      && (pkg.Some? ==> Conclude(survey, temp, x, pkg, usageError, path, t) ==
                          Some(Ending(pkg.value.(targetType := "volume-set", targetPath := path, finishedAt := Some(t.finished)),
                                      usageError)))
  {
    NoErrorsNoMessages(survey);
    NoErrorsNoMessages(x.ms);
    if survey == [] {
      assert survey + x.ms == x.ms;
      assert survey + [TempDirError] == [TempDirError];
      if pkg.Some? {
        assert pkg.value.messages + [] == pkg.value.messages;
      }
    }
  }

  /**
   * A run throws at once exactly when the descriptor decodes to something
   * other than an object; otherwise its volume phase reports errors only, so
   * `ConcludeShape` describes it.
   */
  lemma VolumesOutcomeShape(s: VolumeSet, t: Clock)
    ensures Survey0(s).None? <==> PhpReadJson(s.h, Render(s.descriptor)).Parsed?
                                  && !PhpReadJson(s.h, Render(s.descriptor)).value.JObj?
    ensures Survey0(s).None? ==> VolumesOutcome(s, t).None?
    ensures Survey0(s).Some? ==>
      var c := Survey0(s).value;
      var x := Extraction(s, c.entries);
      VolumesOutcome(s, t) == Conclude(c.ms, s.temp, x, PackageRun(s, x, t), PackageUsage(s, x), Render(s.descriptor), t)
      && (forall m :: m in c.ms ==> m.level == Error) && (forall m :: m in x.ms ==> m.level == Error)
  {
    if Survey0(s).Some? {
      VolumePhaseOnlyErrors(s);
    }
  }

  /** Extraction into the temporary directory writes nowhere else, whatever the volumes hold. */
  lemma ExtractionStaysInTemp(s: VolumeSet, entries: seq<VolumeEntry>)
    requires s.temp.Some?
    ensures var r := Extraction(s, entries).tree;
      forall p :: p in r && (p !in s.h.tree || r[p] != s.h.tree[p]) ==>
        p == Render(s.temp.value) || exists k: seq<string> :: p == SafePath.Spelled(s.temp.value + k)
  {
    var temp := s.temp.value;
    var t0 := s.h.tree[Render(temp) := Dir];
    var r := Extraction(s, entries).tree;
    ExtractAllInside(s.unzip, t0, temp, Ordered(entries));
    forall p | p in r && (p !in s.h.tree || r[p] != s.h.tree[p]) && p != Render(temp)
      ensures exists k: seq<string> :: p == SafePath.Spelled(temp + k)
    {
      assert p in t0 ==> t0[p] == s.h.tree[p];
    }
  }

  // --------------------------------------------------------------- methods

  /** `$addMessage('error', ...)` for each message: added to the report and logged in `$volumeMessages`. */
  method AddMessages(report: ValidationReport, log: seq<Message>, ms: seq<Message>) returns (log': seq<Message>)
    requires forall m :: m in ms ==> m.level == Error
    modifies report
    ensures PackagePhp.SummaryOf(report) == PackagePhp.Said(old(PackagePhp.SummaryOf(report)), ms)
    ensures log' == log + ms
  {
    AddErrors(report, ms);
    UniformCount(ms, Error, Warning);
    log' := log + ms;
  }

  /** Two batches through `$addMessage` are the two together, in the report and in the log. */
  lemma AddedTwice(s: PackagePhp.Summary, log: seq<Message>, a: seq<Message>, b: seq<Message>)
    ensures PackagePhp.Said(PackagePhp.Said(s, a), b) == PackagePhp.Said(s, a + b)
    ensures log + a + b == log + (a + b)
  {
    PackagePhp.SaidTwice(s, a, b);
  }

  /** The descriptor block of `validate`; it throws exactly when the descriptor is no object. */
  method CheckDescriptor(report: ValidationReport, log: seq<Message>, h: Host, schema: SchemaCheck, p: string)
    returns (log': seq<Message>, volumes: seq<Json>, stop: bool, thrown: bool)
    modifies report
    ensures thrown <==> ReadDescriptor(h, schema, p).None?
    ensures !thrown ==>
      var d := ReadDescriptor(h, schema, p).value;
      && PackagePhp.SummaryOf(report) == PackagePhp.Said(old(PackagePhp.SummaryOf(report)), d.ms)
      && log' == log + d.ms && volumes == d.volumes && stop == d.stop
  {
    volumes, stop, thrown := [], true, false;
    if !IsFile(h, p) {
      log' := AddMessages(report, log, [Message(Error, "VOLUME_SET_MISSING", "Volume set descriptor not found")]);
      return;
    }
    var volumeSetResult := PhpReadJson(h, p);
    if volumeSetResult.ParseFailed? {
      log' := AddMessages(report, log, [Message(Error, "VOLUME_SET_PARSE_ERROR", "Failed to read volume set descriptor")]);
      return;
    }
    if !volumeSetResult.value.JObj? {
      return log, [], true, true;
    }
    log' := AddMessages(report, log, ObjectsPhp.Validated(schema, "volume-set", volumeSetResult.value, "VOLUME_SET_SCHEMA_ERROR").value);
    volumes, stop := VolumesOf(volumeSetResult.value), false;
  }

  /** The checks on a volume whose size is known: size, digest, encryption. */
  method CheckFile(report: ValidationReport, log: seq<Message>, h: Host, base: Dir, volume: Json, p: string, size: nat)
    returns (log': seq<Message>)
    modifies report
    ensures PackagePhp.SummaryOf(report) == PackagePhp.Said(old(PackagePhp.SummaryOf(report)), FileChecks(h, base, volume, p, size))
    ensures log' == log + FileChecks(h, base, volume, p, size)
  {
    ghost var s0 := PackagePhp.SummaryOf(report);
    log' := AddMessages(report, log, SizeMessages(volume, size));
    log' := AddMessages(report, log', DigestMessages(h, volume, p));
    AddedTwice(s0, log, SizeMessages(volume, size), DigestMessages(h, volume, p));
    log' := AddMessages(report, log', EncryptionMessages(h, base, volume));
    AddedTwice(s0, log, SizeMessages(volume, size) + DigestMessages(h, volume, p), EncryptionMessages(h, base, volume));
  }

  /** One pass of the volume loop: the volume's messages, and its entry when it is kept. */
  method SurveyVolume(report: ValidationReport, log: seq<Message>, h: Host, base: Dir, volume: Json)
    returns (log': seq<Message>, entry: Option<VolumeEntry>)
    modifies report
    ensures PackagePhp.SummaryOf(report) == PackagePhp.Said(old(PackagePhp.SummaryOf(report)), Survey(h, base, volume).ms)
    ensures log' == log + Survey(h, base, volume).ms
    ensures entry == Survey(h, base, volume).entry
  {
    entry := None;
    if !volume.JObj? {
      log' := AddMessages(report, log, [EntryInvalid]);
      return;
    }
    var file := StrProp(volume, "file");
    if file.None? || PhpBlank(file.value) {
      log' := AddMessages(report, log, [FileInvalid]);
      return;
    }
    var safeFile := SafePath.Resolve(base, file.value);
    if !safeFile.ok || safeFile.path.None? {
      log' := AddMessages(report, log, [Message(Error, "INVALID_PATH", "Unsafe volume file path: " + file.value)]);
      return;
    }
    log', entry := SurveyVolumeFile(report, log, h, base, volume, file.value, safeFile.path.value);
  }

  /** The rest of the volume loop's pass, once the file name has resolved to `p`. */
  method SurveyVolumeFile(report: ValidationReport, log: seq<Message>, h: Host, base: Dir, volume: Json, file: string, p: string)
    returns (log': seq<Message>, entry: Option<VolumeEntry>)
    modifies report
    ensures PackagePhp.SummaryOf(report) == PackagePhp.Said(old(PackagePhp.SummaryOf(report)), SurveyFile(h, base, volume, file, p).ms)
    ensures log' == log + SurveyFile(h, base, volume, file, p).ms
    ensures entry == SurveyFile(h, base, volume, file, p).entry
  {
    entry := None;
    if !IsFile(h, p) {
      log' := AddMessages(report, log, [Message(Error, "VOLUME_FILE_MISSING", "Volume file not found: " + file)]);
      return;
    }
    var actualSize := FileSize(h, p);
    if actualSize.None? {
      log' := AddMessages(report, log, [Message(Error, "VOLUME_SIZE_ERROR", "Failed to read volume file size: " + file)]);
      return;
    }
    log' := CheckFile(report, log, h, base, volume, p, actualSize.value);
    entry := Some(VolumeEntry(IndexOf(volume), file, p));
  }

  /** The volume loop of `validate`. */
  method SurveyVolumes(report: ValidationReport, log: seq<Message>, h: Host, base: Dir, volumes: seq<Json>)
    returns (log': seq<Message>, entries: seq<VolumeEntry>)
    modifies report
    ensures PackagePhp.SummaryOf(report) == PackagePhp.Said(old(PackagePhp.SummaryOf(report)), SurveyAll(h, base, volumes).ms)
    ensures log' == log + SurveyAll(h, base, volumes).ms
    ensures entries == SurveyAll(h, base, volumes).entries
  {
    ghost var s0 := PackagePhp.SummaryOf(report);
    log', entries := log, [];
    for i := 0 to |volumes|
      invariant PackagePhp.SummaryOf(report) == PackagePhp.Said(s0, SurveyAll(h, base, volumes[..i]).ms)
      invariant log' == log + SurveyAll(h, base, volumes[..i]).ms
      invariant entries == SurveyAll(h, base, volumes[..i]).entries
    {
      assert volumes[..i + 1][..i] == volumes[..i];
      var entry;
      log', entry := SurveyVolume(report, log', h, base, volumes[i]);
      AddedTwice(s0, log, SurveyAll(h, base, volumes[..i]).ms, Survey(h, base, volumes[i]).ms);
      if entry.Some? {
        entries := entries + [entry.value];
      }
    }
    assert volumes[..|volumes|] == volumes;
  }

  /** One entry of `extractZip`'s loop, over the tree as it stands. */
  method ExtractEntry(report: ValidationReport, log: seq<Message>, tree: Tree, dest: Dir, e: ZipEntry)
    returns (log': seq<Message>, tree': Tree)
    modifies report
    ensures PackagePhp.SummaryOf(report) == PackagePhp.Said(old(PackagePhp.SummaryOf(report)), UnpackEntry(tree, dest, e).ms)
    ensures log' == log + UnpackEntry(tree, dest, e).ms
    ensures tree' == UnpackEntry(tree, dest, e).tree
  {
    tree', log' := tree, log;
    if e.name == "" {
      log' := AddMessages(report, log, []);
      return;
    }
    var safe := SafePath.Resolve(dest, e.name);
    if !safe.ok || safe.path.None? {
      log' := AddMessages(report, log, [Message(Error, "VOLUME_ENTRY_PATH_UNSAFE", "Unsafe entry path: " + e.name)]);
      return;
    }
    log', tree' := WriteEntry(report, log, tree, safe.path.value, e);
  }

  /** The rest of the entry's pass, once its name has resolved to `p`. */
  method WriteEntry(report: ValidationReport, log: seq<Message>, tree: Tree, p: string, e: ZipEntry)
    returns (log': seq<Message>, tree': Tree)
    modifies report
    ensures PackagePhp.SummaryOf(report) == PackagePhp.Said(old(PackagePhp.SummaryOf(report)), PlaceEntry(tree, p, e).ms)
    ensures log' == log + PlaceEntry(tree, p, e).ms
    ensures tree' == PlaceEntry(tree, p, e).tree
  {
    tree' := tree;
    if EndsWithSlash(e.name) {
      if !(p in tree && tree[p].Dir?) {
        // `mkdir` fails, with no message, where a file stands
        if p !in tree {
          tree' := tree[p := Dir];
        }
      }
      log' := AddMessages(report, log, []);
      return;
    }
    if e.data.None? {
      log' := AddMessages(report, log, [Message(Error, "VOLUME_EXTRACT_ERROR", "Failed to read zip entry: " + e.name)]);
      return;
    }
    if p in tree && tree[p].Dir? {
      log' := AddMessages(report, log, [Message(Error, "VOLUME_EXTRACT_ERROR", "Failed to write zip entry: " + e.name)]);
      return;
    }
    tree' := tree[p := File(e.data.value, true, true)];
    log' := AddMessages(report, log, []);
  }

  /** `extractZip`: the archive opened, then each of its entries in order. */
  method ExtractArchive(report: ValidationReport, log: seq<Message>, unzip: Unzip, tree: Tree, zip: string, dest: Dir)
    returns (log': seq<Message>, tree': Tree)
    modifies report
    ensures PackagePhp.SummaryOf(report) == PackagePhp.Said(old(PackagePhp.SummaryOf(report)), ExtractZip(unzip, tree, zip, dest).ms)
    ensures log' == log + ExtractZip(unzip, tree, zip, dest).ms
    ensures tree' == ExtractZip(unzip, tree, zip, dest).tree
  {
    ghost var s0 := PackagePhp.SummaryOf(report);
    tree' := tree;
    var archive := if zip in tree && tree[zip].File? && tree[zip].readable then unzip(tree[zip].data) else Failure("");
    if archive.Failure? {
      log' := AddMessages(report, log, [Message(Error, "VOLUME_EXTRACT_ERROR", "Failed to open volume archive: " + zip)]);
      return;
    }
    var entries := archive.value;
    log' := log;
    for i := 0 to |entries|
      invariant tree' == Unpack(tree, dest, entries[..i]).tree
      invariant PackagePhp.SummaryOf(report) == PackagePhp.Said(s0, Unpack(tree, dest, entries[..i]).ms)
      invariant log' == log + Unpack(tree, dest, entries[..i]).ms
    {
      assert entries[..i + 1][..i] == entries[..i];
      ghost var before := Unpack(tree, dest, entries[..i]).ms;
      log', tree' := ExtractEntry(report, log', tree', dest, entries[i]);
      AddedTwice(s0, log, before, UnpackEntry(Unpack(tree, dest, entries[..i]).tree, dest, entries[i]).ms);
    }
    assert entries[..|entries|] == entries;
  }

  /** The extraction loop of `validate`: each volume in order. */
  method ExtractVolumes(report: ValidationReport, log: seq<Message>, unzip: Unzip, tree: Tree, dest: Dir, vs: seq<VolumeEntry>)
    returns (log': seq<Message>, tree': Tree)
    modifies report
    ensures PackagePhp.SummaryOf(report) == PackagePhp.Said(old(PackagePhp.SummaryOf(report)), ExtractAll(unzip, tree, dest, vs).ms)
    ensures log' == log + ExtractAll(unzip, tree, dest, vs).ms
    ensures tree' == ExtractAll(unzip, tree, dest, vs).tree
  {
    ghost var s0 := PackagePhp.SummaryOf(report);
    log', tree' := log, tree;
    for i := 0 to |vs|
      invariant PackagePhp.SummaryOf(report) == PackagePhp.Said(s0, ExtractAll(unzip, tree, dest, vs[..i]).ms)
      invariant log' == log + ExtractAll(unzip, tree, dest, vs[..i]).ms
      invariant tree' == ExtractAll(unzip, tree, dest, vs[..i]).tree
    {
      assert vs[..i + 1][..i] == vs[..i];
      ghost var before := ExtractAll(unzip, tree, dest, vs[..i]).ms;
      log', tree' := ExtractArchive(report, log', unzip, tree', vs[i].path, dest);
      AddedTwice(s0, log, before, ExtractZip(unzip, ExtractAll(unzip, tree, dest, vs[..i]).tree, vs[i].path, dest).ms);
    }
    assert vs[..|vs|] == vs;
  }

  /** A fresh report, then the descriptor and the volume loop; it throws exactly when the survey does. */
  method SurveyPhase(s: VolumeSet, t: Clock)
    returns (report: ValidationReport, log: seq<Message>, entries: seq<VolumeEntry>, thrown: bool)
    ensures fresh(report)
    ensures thrown <==> Survey0(s).None?
    ensures !thrown ==> PackagePhp.SummaryOf(report) == PackagePhp.Said(Blank(Render(s.descriptor), t), Survey0(s).value.ms)
    ensures !thrown ==> log == Survey0(s).value.ms && entries == Survey0(s).value.entries
  {
    report := new ValidationReport(s.tool, "volume-set", Render(s.descriptor), t.started);
    entries := [];
    var volumes, stop;
    log, volumes, stop, thrown := CheckDescriptor(report, [], s.h, s.schema, Render(s.descriptor));
    if thrown {
      return;
    }
    log, entries := SurveyVolumes(report, log, s.h, Base(s), volumes);
    AddedTwice(Blank(Render(s.descriptor), t), [], ReadDescriptor(s.h, s.schema, Render(s.descriptor)).value.ms,
                         SurveyAll(s.h, Base(s), volumes).ms);
  }

  /**
   * The volume phase: the survey and, when that counts no error,
   * `createTempDir` and extraction; the report is finished when the run
   * stops here.
   */
  method VolumePhase(s: VolumeSet, t: Clock)
    returns (report: ValidationReport, log: seq<Message>, tree: Tree, stop: bool, thrown: bool)
    ensures fresh(report)
    ensures thrown <==> Survey0(s).None?
    ensures !thrown ==>
      var c := Survey0(s).value;
      var x := Extraction(s, c.entries);
      && (stop <==> Stopped(c.ms, s.temp, x, Render(s.descriptor), t).Some?)
      && (stop ==> PackagePhp.SummaryOf(report) == Stopped(c.ms, s.temp, x, Render(s.descriptor), t).value)
      && (!stop ==> s.temp.Some? && tree == x.tree && log == c.ms + x.ms)
      && (forall m :: m in log ==> m.level == Error)
  {
    var entries;
    tree, stop := s.h.tree, true;
    report, log, entries, thrown := SurveyPhase(s, t);
    if thrown {
      return;
    }
    VolumePhaseOnlyErrors(s);
    var errors := report.GetErrorCount();
    stop := errors > 0;
    if stop {
      report.MarkFinished(t.finished);
      return;
    }
    if s.temp.None? {
      log := AddMessages(report, log, [TempDirError]);
      AddedTwice(Blank(Render(s.descriptor), t), [], Survey0(s).value.ms, [TempDirError]);
      report.MarkFinished(t.finished);
      return report, log, tree, true, false;
    }
    var temp := s.temp.value;
    tree := s.h.tree[Render(temp) := Dir];
    log, tree := ExtractVolumes(report, log, s.unzip, tree, temp, Ordered(entries));
    AddedTwice(Blank(Render(s.descriptor), t), [], Survey0(s).value.ms, Extraction(s, entries).ms);
    errors := report.GetErrorCount();
    stop := errors > 0;
    if stop {
      report.MarkFinished(t.finished);
    }
  }

  /** The volume messages re-added to the package report, which is retargeted to the volume set and refinished. */
  method Merge(report: ValidationReport, ms: seq<Message>, path: string, finishedAt: string)
    requires forall m :: m in ms ==> m.level == Error
    modifies report
    ensures PackagePhp.SummaryOf(report) == Merged(old(PackagePhp.SummaryOf(report)), ms, path, finishedAt)
  {
    AddErrors(report, ms);
    UniformCount(ms, Error, Warning);
    report.SetTarget("volume-set", path);
    report.MarkFinished(finishedAt);
  }

  /** The package step: the package validated in the temporary directory, then the volume messages merged in. */
  method PackageStep(ctx: PackagePhp.Context, log: seq<Message>, path: string, t: Clock)
    returns (report: ValidationReport, usageError: bool, thrown: bool)
    requires forall m :: m in log ==> m.level == Error
    ensures thrown <==> PackagePhp.PackageOutcome(ctx, t.packageStarted, t.packageFinished).None?
    ensures !thrown ==>
      PackagePhp.SummaryOf(report) == Merged(PackagePhp.PackageOutcome(ctx, t.packageStarted, t.packageFinished).value, log, path, t.finished)
    ensures !thrown ==> usageError == PackagePhp.Prepare(ctx).value.usageError
  {
    report, usageError, thrown := PackagePhp.Validate(ctx, t.packageStarted, t.packageFinished);
    if !thrown {
      Merge(report, log, path, t.finished);
    }
  }

  /** `validate($volumesPath, $profile, $skipDigest, $checkAssetBlobs, $toolInfo)` up to writing the report, which is not part of this model. */
  method Validate(s: VolumeSet, t: Clock) returns (report: ValidationReport, usageError: bool, thrown: bool)
    ensures thrown <==> VolumesOutcome(s, t).None?
    ensures !thrown ==> PackagePhp.SummaryOf(report) == VolumesOutcome(s, t).value.report
    ensures !thrown ==> usageError == VolumesOutcome(s, t).value.usageError
  {
    var log, tree, stop;
    report, log, tree, stop, thrown := VolumePhase(s, t);
    if thrown {
      return report, false, true;
    }
    if stop {
      return report, false, false;
    }
    report, usageError, thrown := PackageStep(PackageContext(s, s.temp.value, tree), log, Render(s.descriptor), t);
  }
}
