/**
 * Model of `validateVolumes` and its `extractZip` in the Node validator. A
 * volume-set descriptor lists zip volumes next to it. Each volume is checked
 * (an object, a safe file name, a regular file, its size and digest, and
 * encryption, which is refused), the volumes are unpacked in index order into
 * a fresh temporary directory, and the package found there is validated. The
 * volume phase reports errors only, so the package step runs only on a clean
 * volume phase and then returns the package report, retargeted.
 *
 * The file tree during extraction is a local value the methods thread
 * through; the clock, `mkdtemp`'s directory and the zip reader are inputs.
 */
module VolumesNode {
  import opened Common
  import opened Strings
  import opened JsonDoc
  import opened JsNumbers
  import opened Env
  import opened Lexical
  import opened PathSafe
  import opened JsonValidate
  import opened Digest
  import opened NodeReport
  import opened Sorting
  import opened Zip
  import ArtifactsNode
  import PackageNode

  /**
   * The options of `validateVolumes`, with the outside world: the compiled
   * volume-set schema and package validators, the zip reader and the
   * directory `mkdtemp` creates.
   */
  datatype VolumeSet = VolumeSet(h: Host, descriptor: Dir, volumeSet: Validator, validators: ArtifactsNode.Validators,
                                 unzip: Unzip, temp: Dir, profile: string, noDigest: bool, checkAssetBlobs: bool,
                                 toolName: string, toolVersion: string)

  /** The clock readings: the volume report's start and end, and the package run's own two. */
  datatype Clock = Clock(started: string, packageStarted: string, packageFinished: string, finished: string)

  const EntryInvalid: Message := Message(Error, "VOLUME_ENTRY_INVALID", "Volume entry must be an object")
  const FileInvalid: Message := Message(Error, "VOLUME_FILE_INVALID", "Volume file name is missing or invalid")
  const EnvelopeMissing: Message :=
    Message(Error, "VOLUME_ENVELOPE_MISSING", "encryption.envelopeFile is required for age volumes")
  const EnvelopeNotFound: Message := Message(Error, "VOLUME_ENVELOPE_NOT_FOUND", "Envelope file not found")
  const Unsupported: Message :=
    Message(Error, "VOLUME_ENCRYPTION_UNSUPPORTED", "Encrypted volumes are not supported by this validator")

  // ------------------------------------------------------------ descriptor

  /** The descriptor's messages and its `volumes` list; `stop` when the run ends right there. */
  datatype Descriptor = Descriptor(ms: seq<Message>, volumes: seq<Json>, stop: bool)

  /** `data?.volumes` when it is an array, else nothing. */
  function VolumesOf(data: Json): seq<Json>
  {
    match Prop(data, "volumes")
    case Some(JArr(items)) => items
    case _ => []
  }

  /** Reading the descriptor at `p`: missing and unreadable descriptors stop the run; a parsed one is schema-checked. */
  function ReadDescriptor(h: Host, volumeSet: Validator, p: string): (d: Descriptor)
    ensures d.stop <==> !Exists(h, p) || ReadJson(h, p).ParseFailed?
    ensures d.stop ==> |d.ms| == 1 && d.volumes == []
    ensures !d.stop ==> d.volumes == VolumesOf(ReadJson(h, p).value)
    ensures forall m :: m in d.ms ==> m.level == Error
  {
    if !Exists(h, p) then Descriptor([Message(Error, "VOLUME_SET_MISSING", "Volume set descriptor not found")], [], true)
    else
      match ReadJson(h, p)
      case ParseFailed(reason) =>
        Descriptor([Message(Error, "VOLUME_SET_PARSE_ERROR", "Failed to read volume set: " + reason)], [], true)
      case Parsed(data) =>
        var ms := PackageNode.SchemaMessages(ValidateWithSchema(volumeSet, data), "VOLUME_SET_SCHEMA_ERROR");
        assert forall m :: m in ms ==> m.level == Error by {
          forall m | m in ms ensures m.level == Error {
            var i :| 0 <= i < |ms| && ms[i] == m;
          }
        }
        Descriptor(ms, VolumesOf(data), false)
  }

  // ---------------------------------------------------------------- survey

  /** What extraction needs of a volume: its index (`Number(index) || 0`), its resolved path and its file name. */
  datatype VolumeEntry = VolumeEntry(index: Ordinal, path: string, file: string)

  /** One volume's messages, and its entry when it is kept for extraction. */
  datatype Surveyed = Surveyed(ms: seq<Message>, entry: Option<VolumeEntry>)

  /** `volume.file` when it is a non-blank string. */
  function NamedFile(volume: Json): Option<string>
  {
    match Prop(volume, "file")
    case Some(JStr(file)) => if JsBlank(file) then None else Some(file)
    case _ => None
  }

  /** The size check: a numeric `size` must equal the file's size. */
  function SizeMessages(h: Host, volume: Json, p: string): (ms: seq<Message>)
    requires IsFile(h, p)
    ensures ms == [] <==> IntProp(volume, "size").None? || IntProp(volume, "size").value == Size(h, p)
    ensures |ms| <= 1 && forall m :: m in ms ==> m.level == Error && m.code == "VOLUME_SIZE_MISMATCH"
  {
    match Prop(volume, "size")
    case Some(JInt(size)) =>
      if Size(h, p) != size then
        [Message(Error, "VOLUME_SIZE_MISMATCH", "Volume size mismatch: " + IntToString(Size(h, p)) + " != " + IntToString(size))]
      else []
    case _ => []
  }

  /** The digest check: a string `sha256` must equal the file's hex digest once lower-cased; an unreadable file is a digest error. */
  function DigestMessages(h: Host, volume: Json, p: string): (ms: seq<Message>)
    ensures ms == [] <==>
      StrProp(volume, "sha256").None? || (Readable(h, p) && h.sha256(h.tree[p].data) == h.jsLower(StrProp(volume, "sha256").value))
    ensures StrProp(volume, "sha256").Some? && !Readable(h, p) ==>
      ms == [Message(Error, "VOLUME_DIGEST_ERROR", "Volume digest error: " + ComputeSha256Hex(h, p).error)]
    ensures |ms| <= 1 && forall m :: m in ms ==> m.level == Error
  {
    match Prop(volume, "sha256")
    case Some(JStr(sha)) =>
      (match ComputeSha256Hex(h, p)
       case Ok(actual) =>
         if actual != h.jsLower(sha) then
           [Message(Error, "VOLUME_DIGEST_MISMATCH", "Volume digest mismatch: " + actual + " != " + sha)]
         else []
       case Failure(reason) => [Message(Error, "VOLUME_DIGEST_ERROR", "Volume digest error: " + reason)])
    case _ => []
  }

  /** `encryption && encryption.scheme === 'age'`. */
  predicate AgeEncrypted(volume: Json)
  {
    JsTruthy(Prop(volume, "encryption")) && PropOf(Prop(volume, "encryption"), "scheme") == Some(JStr("age"))
  }

  /** The envelope named by an age volume: a non-blank string, safe next to the descriptor, naming something that exists. */
  function EnvelopeFileMessages(h: Host, base: Dir, envelopeFile: Option<Json>): (ms: seq<Message>)
    ensures |ms| <= 1 && forall m :: m in ms ==> m.level == Error
    ensures ms == [] <==>
      && envelopeFile.Some? && envelopeFile.value.JStr? && !JsBlank(envelopeFile.value.s)
      && ResolveSafePath(base, envelopeFile).Resolved? && Exists(h, ResolveSafePath(base, envelopeFile).resolved)
  {
    match envelopeFile
    case Some(JStr(file)) =>
      if JsBlank(file) then [EnvelopeMissing]
      else
        (match ResolveSafePath(base, envelopeFile)
         case Rejected(code, message) => [Message(Error, code, message)]
         case Resolved(resolved) => if Exists(h, resolved) then [] else [EnvelopeNotFound])
    case _ => [EnvelopeMissing]
  }

  /** The encryption check: an age volume is always refused, after any complaint about its envelope file. */
  function EncryptionMessages(h: Host, base: Dir, volume: Json): (ms: seq<Message>)
    ensures ms != [] <==> AgeEncrypted(volume)
    ensures AgeEncrypted(volume) ==> ms[|ms| - 1] == Unsupported && 1 <= |ms| <= 2
    ensures forall m :: m in ms ==> m.level == Error
  {
    if AgeEncrypted(volume) then
      EnvelopeFileMessages(h, base, PropOf(Prop(volume, "encryption"), "envelopeFile")) + [Unsupported]
    else []
  }

  /** The checks on a volume that is a regular file, in order; none of them drops the volume. */
  function FileChecks(h: Host, base: Dir, volume: Json, p: string): (ms: seq<Message>)
    requires IsFile(h, p)
    ensures forall m :: m in ms ==> m.level == Error
  {
    SizeMessages(h, volume, p) + DigestMessages(h, volume, p) + EncryptionMessages(h, base, volume)
  }

  /**
   * One volume of the descriptor. A volume that is not an object, names no
   * file, names an unsafe one or one that is missing or not a regular file
   * gets exactly one error and is dropped; any other is kept, whatever its
   * size, digest or encryption checks report.
   */
  function Survey(h: Host, base: Dir, volume: Json): (r: Surveyed)
    ensures r.entry.Some? <==>
      && JsObjectLike(Some(volume)) && NamedFile(volume).Some?
      && ResolveSafePath(base, Prop(volume, "file")).Resolved?
      && IsFile(h, ResolveSafePath(base, Prop(volume, "file")).resolved)
    ensures r.entry.Some? ==>
      r.entry.value == VolumeEntry(JsNumberOrZero(Prop(volume, "index")), ResolveSafePath(base, Prop(volume, "file")).resolved,
                                   NamedFile(volume).value)
    ensures r.entry.None? ==> |r.ms| == 1
    ensures !JsObjectLike(Some(volume)) ==> r.ms == [EntryInvalid]
    ensures JsObjectLike(Some(volume)) && NamedFile(volume).None? ==> r.ms == [FileInvalid]
    ensures forall m :: m in r.ms ==> m.level == Error
  {
    if !JsObjectLike(Some(volume)) then Surveyed([EntryInvalid], None)
    else
      match Prop(volume, "file")
      case Some(JStr(file)) =>
        if JsBlank(file) then Surveyed([FileInvalid], None)
        else
          (match ResolveSafePath(base, Some(JStr(file)))
           case Rejected(code, message) => Surveyed([Message(Error, code, message)], None)
           case Resolved(p) =>
             if !Exists(h, p) then Surveyed([Message(Error, "VOLUME_FILE_MISSING", "Volume file not found: " + file)], None)
             else if !IsFile(h, p) then
               Surveyed([Message(Error, "VOLUME_FILE_NOT_REGULAR", "Volume is not a regular file: " + file)], None)
             else Surveyed(FileChecks(h, base, volume, p), Some(VolumeEntry(JsNumberOrZero(Prop(volume, "index")), p, file))))
      case _ => Surveyed([FileInvalid], None)
  }

  /** The whole survey: every volume's messages in order, and the entries kept. */
  datatype Census = Census(ms: seq<Message>, entries: seq<VolumeEntry>)

  function SurveyAll(h: Host, base: Dir, volumes: seq<Json>): (r: Census)
    ensures |r.entries| <= |volumes|
    decreases |volumes|
  {
    if volumes == [] then Census([], [])
    else
      var prev := SurveyAll(h, base, volumes[..|volumes| - 1]);
      var s := Survey(h, base, volumes[|volumes| - 1]);
      Census(prev.ms + s.ms, prev.entries + (if s.entry.Some? then [s.entry.value] else []))
  }

  /** The survey reports errors only. */
  lemma {:induction false} SurveyAllOnlyErrors(h: Host, base: Dir, volumes: seq<Json>)
    ensures forall m :: m in SurveyAll(h, base, volumes).ms ==> m.level == Error
    decreases |volumes|
  {
    if volumes != [] {
      SurveyAllOnlyErrors(h, base, volumes[..|volumes| - 1]);
    }
  }

  /** Every entry kept by the survey is a regular file inside the descriptor's directory. */
  lemma {:induction false} SurveyAllEntries(h: Host, base: Dir, volumes: seq<Json>)
    ensures forall v :: v in SurveyAll(h, base, volumes).entries ==>
      IsFile(h, v.path) && exists k: seq<string> :: v.path == Render(base + k)
    decreases |volumes|
  {
    if volumes != [] {
      var prev := volumes[..|volumes| - 1];
      SurveyAllEntries(h, base, prev);
      var volume := volumes[|volumes| - 1];
      var s := Survey(h, base, volume);
      if s.entry.Some? {
        var file := NamedFile(volume).value;
        var k := Kept(Pieces(file, IsSlash));
        assert s.entry.value.path == Render(base + k);
      }
    }
  }

  // ------------------------------------------------------------ extraction

  /** The tree as extraction leaves it, what it reported, and the error that ended it, if one did. */
  datatype Unpacked = Unpacked(tree: Tree, ms: seq<Message>, failure: Option<string>)

  /** unzipper's entry type: an empty entry whose name ends in a separator is a directory. */
  predicate IsDirectoryEntry(e: ZipEntry)
  {
    |e.name| > 0 && IsSep(e.name[|e.name| - 1]) && e.data == Some([])
  }

  /**
   * One entry: an unsafe name is reported and skipped; a directory is made
   * (failing where a file stands); a file is written (failing where a
   * directory stands or its bytes cannot be read).
   */
  function UnpackEntry(tree: Tree, dest: Dir, e: ZipEntry): (r: Unpacked)
    ensures ResolveSafePath(dest, Some(JStr(e.name))).Rejected? ==>
      r == Unpacked(tree, [Message(Error, "VOLUME_ENTRY_PATH_UNSAFE", "Unsafe entry path: " + e.name)], None)
    ensures ResolveSafePath(dest, Some(JStr(e.name))).Resolved? ==> r.ms == []
    // a safe directory entry is made unless a file stands in its place
    ensures ResolveSafePath(dest, Some(JStr(e.name))).Resolved? && IsDirectoryEntry(e) ==>
      var p := ResolveSafePath(dest, Some(JStr(e.name))).resolved;
      (r.failure.None? <==> !(p in tree && tree[p].File?)) && (r.failure.None? ==> r.tree == tree[p := Dir])
    // a safe file entry is written with its bytes unless a directory stands in its place or its bytes cannot be read
    ensures ResolveSafePath(dest, Some(JStr(e.name))).Resolved? && !IsDirectoryEntry(e) ==>
      var p := ResolveSafePath(dest, Some(JStr(e.name))).resolved;
      && (r.failure.None? <==> !(p in tree && tree[p].Dir?) && e.data.Some?)
      && (r.failure.None? ==> e.data.Some? && r.tree == tree[p := File(e.data.value, true, true)])
    // only the entry's own resolved path can change, and only when nothing failed
    ensures r.failure.Some? ==> r.tree == tree
    ensures forall p :: p in r.tree && (p !in tree || r.tree[p] != tree[p]) ==>
      ResolveSafePath(dest, Some(JStr(e.name))) == Resolved(p)
    ensures tree.Keys <= r.tree.Keys
  {
    match ResolveSafePath(dest, Some(JStr(e.name)))
    case Rejected(_, _) => Unpacked(tree, [Message(Error, "VOLUME_ENTRY_PATH_UNSAFE", "Unsafe entry path: " + e.name)], None)
    case Resolved(p) =>
      if IsDirectoryEntry(e) then
        if p in tree && tree[p].File? then Unpacked(tree, [], Some("cannot make directory " + p))
        else Unpacked(tree[p := Dir], [], None)
      else if p in tree && tree[p].Dir? then Unpacked(tree, [], Some("cannot write over directory " + p))
      else if e.data.None? then Unpacked(tree, [], Some("cannot read entry " + e.name))
      else Unpacked(tree[p := File(e.data.value, true, true)], [], None)
  }

  /** The entries in order; an error ends the loop (it is thrown out of `extractZip`). */
  function Unpack(tree: Tree, dest: Dir, entries: seq<ZipEntry>): Unpacked
    decreases |entries|
  {
    if entries == [] then Unpacked(tree, [], None)
    else
      var prev := Unpack(tree, dest, entries[..|entries| - 1]);
      if prev.failure.Some? then prev
      else
        var step := UnpackEntry(prev.tree, dest, entries[|entries| - 1]);
        Unpacked(step.tree, prev.ms + step.ms, step.failure)
  }

  /** Once an entry fails, the entries after it change nothing. */
  lemma {:induction false} UnpackStops(tree: Tree, dest: Dir, entries: seq<ZipEntry>, i: nat)
    requires i <= |entries| && Unpack(tree, dest, entries[..i]).failure.Some?
    ensures Unpack(tree, dest, entries) == Unpack(tree, dest, entries[..i])
    decreases |entries| - i
  {
    if i < |entries| {
      var init := entries[..|entries| - 1];
      assert init[..i] == entries[..i];
      UnpackStops(tree, dest, init, i);
      assert Unpack(tree, dest, init).failure.Some?;
      assert Unpack(tree, dest, entries) == Unpack(tree, dest, init);
    } else {
      assert entries[..i] == entries;
    }
  }

  /**
   * Zip-slip containment: every path extraction adds or changes is where
   * `resolveSafePath` put one of the archive's entry names, and nothing is
   * removed. The only messages are about unsafe names.
   */
  lemma {:induction false} UnpackInside(tree: Tree, dest: Dir, entries: seq<ZipEntry>)
    ensures var r := Unpack(tree, dest, entries);
      && tree.Keys <= r.tree.Keys
      && (forall p :: p in r.tree && (p !in tree || r.tree[p] != tree[p]) ==>
            exists e :: e in entries && ResolveSafePath(dest, Some(JStr(e.name))) == Resolved(p))
      && (forall m :: m in r.ms ==> m.level == Error && m.code == "VOLUME_ENTRY_PATH_UNSAFE")
    decreases |entries|
  {
    if entries != [] {
      var init := entries[..|entries| - 1];
      UnpackInside(tree, dest, init);
      var prev := Unpack(tree, dest, init);
      if prev.failure.None? {
        var e := entries[|entries| - 1];
        var r := Unpack(tree, dest, entries);
        forall p | p in r.tree && (p !in tree || r.tree[p] != tree[p])
          ensures exists e :: e in entries && ResolveSafePath(dest, Some(JStr(e.name))) == Resolved(p)
        {
          if p in prev.tree && (p !in tree || prev.tree[p] != tree[p]) {
            var e' :| e' in init && ResolveSafePath(dest, Some(JStr(e'.name))) == Resolved(p);
            assert e' in entries;
          } else {
            assert ResolveSafePath(dest, Some(JStr(e.name))) == Resolved(p);
            assert e in entries;
          }
        }
      }
    }
  }

  /** The bytes of the archive at `zip` read as entries; a missing or unreadable file, or a broken archive, fails to open. */
  function ExtractZip(unzip: Unzip, tree: Tree, zip: string, dest: Dir): Unpacked
  {
    if !(zip in tree && tree[zip].File? && tree[zip].readable) then Unpacked(tree, [], Some("cannot open " + zip))
    else
      match unzip(tree[zip].data)
      case Failure(reason) => Unpacked(tree, [], Some(reason))
      case Ok(entries) => Unpack(tree, dest, entries)
  }

  /** A tree and the messages that built it. */
  datatype Extracted = Extracted(tree: Tree, ms: seq<Message>)

  /** One volume: its archive unpacked, and an error that ended it reported as `VOLUME_EXTRACT_ERROR`. */
  function ExtractVolume(unzip: Unzip, tree: Tree, dest: Dir, v: VolumeEntry): Extracted
  {
    var u := ExtractZip(unzip, tree, v.path, dest);
    Extracted(u.tree, u.ms + if u.failure.Some? then
                               [Message(Error, "VOLUME_EXTRACT_ERROR", "Failed to extract volume: " + u.failure.value)]
                             else [])
  }

  /** The volumes unpacked one after the other into the same directory; a failed volume does not stop the next. */
  function ExtractAll(unzip: Unzip, tree: Tree, dest: Dir, vs: seq<VolumeEntry>): Extracted
    decreases |vs|
  {
    if vs == [] then Extracted(tree, [])
    else
      var prev := ExtractAll(unzip, tree, dest, vs[..|vs| - 1]);
      var step := ExtractVolume(unzip, prev.tree, dest, vs[|vs| - 1]);
      Extracted(step.tree, prev.ms + step.ms)
  }

  /** Extraction reports errors only, and writes nowhere but inside the destination directory. */
  lemma {:induction false} ExtractAllInside(unzip: Unzip, tree: Tree, dest: Dir, vs: seq<VolumeEntry>)
    ensures var r := ExtractAll(unzip, tree, dest, vs);
      && tree.Keys <= r.tree.Keys
      && (forall p :: p in r.tree && (p !in tree || r.tree[p] != tree[p]) ==> exists k: seq<string> :: p == Render(dest + k))
      && (forall m :: m in r.ms ==> m.level == Error)
    decreases |vs|
  {
    if vs != [] {
      var init := vs[..|vs| - 1];
      ExtractAllInside(unzip, tree, dest, init);
      var prev := ExtractAll(unzip, tree, dest, init);
      var v := vs[|vs| - 1];
      var r := ExtractAll(unzip, tree, dest, vs);
      var zip := v.path;
      if zip in prev.tree && prev.tree[zip].File? && prev.tree[zip].readable && unzip(prev.tree[zip].data).Ok? {
        var entries := unzip(prev.tree[zip].data).value;
        UnpackInside(prev.tree, dest, entries);
        forall p | p in r.tree && (p !in tree || r.tree[p] != tree[p])
          ensures exists k: seq<string> :: p == Render(dest + k)
        {
          if p in prev.tree && (p !in tree || prev.tree[p] != tree[p]) {
          } else {
            var e :| e in entries && ResolveSafePath(dest, Some(JStr(e.name))) == Resolved(p);
            assert p == Render(dest + Kept(Pieces(e.name, IsSlash)));
          }
        }
      }
    }
  }

  function IndexKey(v: VolumeEntry): Ordinal
  {
    v.index
  }

  /** The extraction order, `(a, b) => a.index - b.index`: by index, ties in descriptor order. */
  function Ordered(entries: seq<VolumeEntry>): seq<VolumeEntry>
  {
    SortBy(entries, ByDifference(IndexKey))
  }

  /**
   * Volumes are unpacked in non-decreasing index order (infinite indexes
   * last or first), each kept volume exactly once, and volumes with tied
   * indexes in descriptor order.
   */
  lemma OrderedByIndex(entries: seq<VolumeEntry>, e: VolumeEntry)
    ensures var o := Ordered(entries);
      && (forall i, j :: 0 <= i <= j < |o| ==> AtMost(o[i].index, o[j].index))
      && multiset(o) == multiset(entries)
      && Peers(o, ByDifference(IndexKey), e) == Peers(entries, ByDifference(IndexKey), e)
  {
    SortByDifferenceOrders(entries, IndexKey, e);
  }

  // --------------------------------------------------------------- the run

  /** The descriptor's directory, which volume and envelope names are resolved against. */
  function Base(s: VolumeSet): Dir
  {
    Parent(s.descriptor)
  }

  /** Everything the volume phase reports before extraction: the descriptor, then each volume. */
  function Survey0(s: VolumeSet): Census
  {
    var d := ReadDescriptor(s.h, s.volumeSet, Render(s.descriptor));
    var c := SurveyAll(s.h, Base(s), d.volumes);
    Census(d.ms + c.ms, c.entries)
  }

  /** The tree after `mkdtemp` and extraction of every kept volume in index order. */
  function Extraction(s: VolumeSet, entries: seq<VolumeEntry>): Extracted
  {
    ExtractAll(s.unzip, s.h.tree[Render(s.temp) := Dir], s.temp, Ordered(entries))
  }

  /** The package run over the extracted tree, rooted at the temporary directory. */
  function PackageContext(s: VolumeSet, tree: Tree): ArtifactsNode.Context
  {
    ArtifactsNode.Context(s.h.(tree := tree),
                          ArtifactsNode.Options(s.temp, s.profile, s.noDigest, s.checkAssetBlobs, s.toolName, s.toolVersion),
                          s.validators)
  }

  /** A volume report that ends before the package step: its messages counted, nothing else. */
  function VolumeReport(ms: seq<Message>, t: Clock): PackageNode.Summary
  {
    PackageNode.Said(Blank(t), ms).(finishedAt := Some(t.finished))
  }

  /**
   * The volume report a run ends with before the package step: as soon as
   * the survey counts an error, or else once extraction has; `None` when
   * the package step runs.
   */
  function Stopped(survey: seq<Message>, x: Extracted, t: Clock): Option<PackageNode.Summary>
  {
    if MessageCount(survey, Error) > 0 then Some(VolumeReport(survey, t))
    else if MessageCount(survey + x.ms, Error) > 0 then Some(VolumeReport(survey + x.ms, t))
    else None
  }

  /** The package report with the volume messages added, refinished. */
  function Merged(pkg: PackageNode.Summary, ms: seq<Message>, finishedAt: string): PackageNode.Summary
  {
    PackageNode.Said(pkg, ms).(finishedAt := Some(finishedAt))
  }

  /**
   * How a run ends, from the survey's messages, the extraction and the
   * package run over its tree: stopped with the volume report, or with the
   * package report (`None` when it throws) and the volume messages merged.
   */
  function Conclude(survey: seq<Message>, x: Extracted, pkg: Option<PackageNode.Summary>, t: Clock): Option<PackageNode.Summary>
  {
    if Stopped(survey, x, t).Some? then Stopped(survey, x, t)
    else
      match pkg
      case None => None
      case Some(p) => Some(Merged(p, survey + x.ms, t.finished))
  }

  /** The report `validateVolumes` returns, or `None` when the package run throws. */
  function VolumesOutcome(s: VolumeSet, t: Clock): Option<PackageNode.Summary>
  {
    var c := Survey0(s);
    var x := Extraction(s, c.entries);
    Conclude(c.ms, x, PackageNode.PackageOutcome(PackageContext(s, x.tree), t.packageStarted, t.packageFinished), t)
  }

  /** Everything the volume phase reports is an error. */
  lemma VolumePhaseOnlyErrors(s: VolumeSet)
    ensures forall m :: m in Survey0(s).ms ==> m.level == Error
    ensures forall m :: m in Extraction(s, Survey0(s).entries).ms ==> m.level == Error
  {
    var d := ReadDescriptor(s.h, s.volumeSet, Render(s.descriptor));
    SurveyAllOnlyErrors(s.h, Base(s), d.volumes);
    ExtractAllInside(s.unzip, s.h.tree[Render(s.temp) := Dir], s.temp, Ordered(Survey0(s).entries));
  }

  /** Errors only: a count of zero means no message at all. */
  lemma NoErrorsNoMessages(ms: seq<Message>)
    requires forall m :: m in ms ==> m.level == Error
    ensures MessageCount(ms, Error) == 0 <==> ms == []
  {
    UniformCount(ms, Error, Warning);
  }

  /**
   * With a volume phase of errors only, a run ends in one of three ways:
   * any survey message ends it before extraction; any extraction message
   * ends it before the package step; otherwise the result is exactly the
   * package report, refinished, since the volume messages merged into it
   * are none.
   */
  lemma {:induction false} ConcludeShape(survey: seq<Message>, x: Extracted, pkg: Option<PackageNode.Summary>, t: Clock)
    requires forall m :: m in survey ==> m.level == Error
    requires forall m :: m in x.ms ==> m.level == Error
    ensures survey != [] ==> Conclude(survey, x, pkg, t) == Some(VolumeReport(survey, t))
    ensures survey == [] && x.ms != [] ==> Conclude(survey, x, pkg, t) == Some(VolumeReport(x.ms, t))
    ensures survey == [] && x.ms == [] ==>
      && (Conclude(survey, x, pkg, t).None? <==> pkg.None?)
      && (pkg.Some? ==> Conclude(survey, x, pkg, t) == Some(pkg.value.(finishedAt := Some(t.finished))))
  {
    NoErrorsNoMessages(survey);
    NoErrorsNoMessages(x.ms);
    if survey == [] {
      assert survey + x.ms == x.ms;
      if pkg.Some? {
        assert pkg.value.messages + [] == pkg.value.messages;
      }
    }
  }

  /** The volume phase of every run reports errors only, so `ConcludeShape` describes every run. */
  lemma VolumesOutcomeShape(s: VolumeSet, t: Clock)
    ensures var c := Survey0(s);
      var x := Extraction(s, c.entries);
      VolumesOutcome(s, t) == Conclude(c.ms, x, PackageNode.PackageOutcome(PackageContext(s, x.tree), t.packageStarted, t.packageFinished), t)
      && (forall m :: m in c.ms ==> m.level == Error) && (forall m :: m in x.ms ==> m.level == Error)
  {
    VolumePhaseOnlyErrors(s);
  }

  /** Extraction into the fresh temporary directory writes nowhere else, whatever the volumes hold. */
  lemma ExtractionStaysInTemp(s: VolumeSet, entries: seq<VolumeEntry>)
    ensures var r := Extraction(s, entries).tree;
      forall p :: p in r && (p !in s.h.tree || r[p] != s.h.tree[p]) ==> exists k: seq<string> :: p == Render(s.temp + k)
  {
    var t0 := s.h.tree[Render(s.temp) := Dir];
    var r := Extraction(s, entries).tree;
    ExtractAllInside(s.unzip, t0, s.temp, Ordered(entries));
    forall p | p in r && (p !in s.h.tree || r[p] != s.h.tree[p])
      ensures exists k: seq<string> :: p == Render(s.temp + k)
    {
      if p == Render(s.temp) {
        assert s.temp + [] == s.temp;
      } else {
        assert p in t0 ==> t0[p] == s.h.tree[p];
      }
    }
  }

  // --------------------------------------------------------------- methods

  /** `addMessage` for each message, seen as a change of the report's summary. */
  method Say(report: Report, ms: seq<Message>)
    modifies report
    ensures PackageNode.SummaryOf(report) == PackageNode.Said(old(PackageNode.SummaryOf(report)), ms)
    ensures report.targetType == old(report.targetType) && report.targetPath == old(report.targetPath)
  {
    AddMessages(report, ms);
  }

  /** The descriptor block of `validateVolumes`. */
  method CheckDescriptor(report: Report, h: Host, volumeSet: Validator, p: string) returns (volumes: seq<Json>, stop: bool)
    modifies report
    ensures PackageNode.SummaryOf(report) == PackageNode.Said(old(PackageNode.SummaryOf(report)), ReadDescriptor(h, volumeSet, p).ms)
    ensures volumes == ReadDescriptor(h, volumeSet, p).volumes && stop == ReadDescriptor(h, volumeSet, p).stop
    ensures report.targetType == old(report.targetType) && report.targetPath == old(report.targetPath)
  {
    volumes, stop := [], true;
    if !Exists(h, p) {
      Say(report, [Message(Error, "VOLUME_SET_MISSING", "Volume set descriptor not found")]);
      return;
    }
    var volumesResult := ReadJson(h, p);
    if volumesResult.ParseFailed? {
      Say(report, [Message(Error, "VOLUME_SET_PARSE_ERROR", "Failed to read volume set: " + volumesResult.reason)]);
      return;
    }
    var validation := ValidateWithSchema(volumeSet, volumesResult.value);
    Say(report, PackageNode.SchemaMessages(validation, "VOLUME_SET_SCHEMA_ERROR"));
    volumes, stop := VolumesOf(volumesResult.value), false;
  }

  /** The checks on a volume that is a regular file: size, digest, encryption. */
  method CheckFile(report: Report, h: Host, base: Dir, volume: Json, p: string)
    requires IsFile(h, p)
    modifies report
    ensures PackageNode.SummaryOf(report) == PackageNode.Said(old(PackageNode.SummaryOf(report)), FileChecks(h, base, volume, p))
    ensures report.targetType == old(report.targetType) && report.targetPath == old(report.targetPath)
  {
    ghost var s0 := PackageNode.SummaryOf(report);
    Say(report, SizeMessages(h, volume, p));
    Say(report, DigestMessages(h, volume, p));
    PackageNode.SaidTwice(s0, SizeMessages(h, volume, p), DigestMessages(h, volume, p));
    var encryption := Prop(volume, "encryption");
    if JsTruthy(encryption) && PropOf(encryption, "scheme") == Some(JStr("age")) {
      Say(report, EnvelopeFileMessages(h, base, PropOf(encryption, "envelopeFile")));
      Say(report, [Unsupported]);
      PackageNode.SaidTwice(PackageNode.Said(s0, SizeMessages(h, volume, p) + DigestMessages(h, volume, p)),
                            EnvelopeFileMessages(h, base, PropOf(encryption, "envelopeFile")), [Unsupported]);
    } else {
      Say(report, []);
    }
    PackageNode.SaidTwice(s0, SizeMessages(h, volume, p) + DigestMessages(h, volume, p), EncryptionMessages(h, base, volume));
  }

  /** One pass of the volume loop: the volume's messages, and its entry when it is kept. */
  method SurveyVolume(report: Report, h: Host, base: Dir, volume: Json) returns (entry: Option<VolumeEntry>)
    modifies report
    ensures PackageNode.SummaryOf(report) == PackageNode.Said(old(PackageNode.SummaryOf(report)), Survey(h, base, volume).ms)
    ensures entry == Survey(h, base, volume).entry
    ensures report.targetType == old(report.targetType) && report.targetPath == old(report.targetPath)
  {
    entry := None;
    if !JsObjectLike(Some(volume)) {
      Say(report, [EntryInvalid]);
      return;
    }
    var file := Prop(volume, "file");
    if !(file.Some? && file.value.JStr?) || JsBlank(file.value.s) {
      Say(report, [FileInvalid]);
      return;
    }
    var safeFile := ResolveSafePath(base, file);
    if safeFile.Rejected? {
      Say(report, [Message(Error, safeFile.code, safeFile.message)]);
      return;
    }
    if !Exists(h, safeFile.resolved) {
      Say(report, [Message(Error, "VOLUME_FILE_MISSING", "Volume file not found: " + file.value.s)]);
      return;
    }
    if !IsFile(h, safeFile.resolved) {
      Say(report, [Message(Error, "VOLUME_FILE_NOT_REGULAR", "Volume is not a regular file: " + file.value.s)]);
      return;
    }
    CheckFile(report, h, base, volume, safeFile.resolved);
    entry := Some(VolumeEntry(JsNumberOrZero(Prop(volume, "index")), safeFile.resolved, file.value.s));
  }

  /** The volume loop of `validateVolumes`. */
  method SurveyVolumes(report: Report, h: Host, base: Dir, volumes: seq<Json>) returns (entries: seq<VolumeEntry>)
    modifies report
    ensures PackageNode.SummaryOf(report) == PackageNode.Said(old(PackageNode.SummaryOf(report)), SurveyAll(h, base, volumes).ms)
    ensures entries == SurveyAll(h, base, volumes).entries
    ensures report.targetType == old(report.targetType) && report.targetPath == old(report.targetPath)
  {
    ghost var s0 := PackageNode.SummaryOf(report);
    entries := [];
    for i := 0 to |volumes|
      invariant PackageNode.SummaryOf(report) == PackageNode.Said(s0, SurveyAll(h, base, volumes[..i]).ms)
      invariant entries == SurveyAll(h, base, volumes[..i]).entries
      invariant report.targetType == old(report.targetType) && report.targetPath == old(report.targetPath)
    {
      assert volumes[..i + 1][..i] == volumes[..i];
      var entry := SurveyVolume(report, h, base, volumes[i]);
      PackageNode.SaidTwice(s0, SurveyAll(h, base, volumes[..i]).ms, Survey(h, base, volumes[i]).ms);
      if entry.Some? {
        entries := entries + [entry.value];
      }
    }
    assert volumes[..|volumes|] == volumes;
  }

  /** One entry of `extractZip`'s loop, over the tree as it stands. */
  method ExtractEntry(report: Report, tree: Tree, dest: Dir, e: ZipEntry) returns (tree': Tree, failure: Option<string>)
    modifies report
    ensures PackageNode.SummaryOf(report) == PackageNode.Said(old(PackageNode.SummaryOf(report)), UnpackEntry(tree, dest, e).ms)
    ensures tree' == UnpackEntry(tree, dest, e).tree && failure == UnpackEntry(tree, dest, e).failure
    ensures report.targetType == old(report.targetType) && report.targetPath == old(report.targetPath)
  {
    tree', failure := tree, None;
    var safe := ResolveSafePath(dest, Some(JStr(e.name)));
    if safe.Rejected? {
      Say(report, [Message(Error, "VOLUME_ENTRY_PATH_UNSAFE", "Unsafe entry path: " + e.name)]);
      return;
    }
    Say(report, []);
    if IsDirectoryEntry(e) {
      if safe.resolved in tree && tree[safe.resolved].File? {
        failure := Some("cannot make directory " + safe.resolved);
      } else {
        tree' := tree[safe.resolved := Dir];
      }
      return;
    }
    if safe.resolved in tree && tree[safe.resolved].Dir? {
      failure := Some("cannot write over directory " + safe.resolved);
    } else if e.data.None? {
      failure := Some("cannot read entry " + e.name);
    } else {
      tree' := tree[safe.resolved := File(e.data.value, true, true)];
    }
  }

  /** `extractZip`: the archive opened, then its entries in order until one fails. */
  method ExtractArchive(report: Report, unzip: Unzip, tree: Tree, zip: string, dest: Dir) returns (tree': Tree, failure: Option<string>)
    modifies report
    ensures PackageNode.SummaryOf(report) == PackageNode.Said(old(PackageNode.SummaryOf(report)), ExtractZip(unzip, tree, zip, dest).ms)
    ensures tree' == ExtractZip(unzip, tree, zip, dest).tree && failure == ExtractZip(unzip, tree, zip, dest).failure
    ensures report.targetType == old(report.targetType) && report.targetPath == old(report.targetPath)
  {
    ghost var s0 := PackageNode.SummaryOf(report);
    if !(zip in tree && tree[zip].File? && tree[zip].readable) {
      Say(report, []);
      return tree, Some("cannot open " + zip);
    }
    var directory := unzip(tree[zip].data);
    if directory.Failure? {
      Say(report, []);
      return tree, Some(directory.error);
    }
    var entries := directory.value;
    tree', failure := tree, None;
    var i := 0;
    Say(report, []);
    while i < |entries| && failure.None?
      invariant 0 <= i <= |entries|
      invariant Unpack(tree, dest, entries[..i]).tree == tree' && Unpack(tree, dest, entries[..i]).failure == failure
      invariant PackageNode.SummaryOf(report) == PackageNode.Said(s0, Unpack(tree, dest, entries[..i]).ms)
      invariant report.targetType == old(report.targetType) && report.targetPath == old(report.targetPath)
    {
      assert entries[..i + 1][..i] == entries[..i];
      ghost var before := Unpack(tree, dest, entries[..i]).ms;
      tree', failure := ExtractEntry(report, tree', dest, entries[i]);
      PackageNode.SaidTwice(s0, before, UnpackEntry(Unpack(tree, dest, entries[..i]).tree, dest, entries[i]).ms);
      i := i + 1;
    }
    if i < |entries| {
      UnpackStops(tree, dest, entries, i);
    } else {
      assert entries[..i] == entries;
    }
  }

  /** The extraction loop of `validateVolumes`: each volume in order, a thrown error reported against it. */
  method ExtractVolumes(report: Report, unzip: Unzip, tree: Tree, dest: Dir, vs: seq<VolumeEntry>) returns (tree': Tree)
    modifies report
    ensures PackageNode.SummaryOf(report) == PackageNode.Said(old(PackageNode.SummaryOf(report)), ExtractAll(unzip, tree, dest, vs).ms)
    ensures tree' == ExtractAll(unzip, tree, dest, vs).tree
    ensures report.targetType == old(report.targetType) && report.targetPath == old(report.targetPath)
  {
    ghost var s0 := PackageNode.SummaryOf(report);
    tree' := tree;
    for i := 0 to |vs|
      invariant PackageNode.SummaryOf(report) == PackageNode.Said(s0, ExtractAll(unzip, tree, dest, vs[..i]).ms)
      invariant tree' == ExtractAll(unzip, tree, dest, vs[..i]).tree
      invariant report.targetType == old(report.targetType) && report.targetPath == old(report.targetPath)
    {
      assert vs[..i + 1][..i] == vs[..i];
      ghost var before := ExtractAll(unzip, tree, dest, vs[..i]).ms;
      ghost var s1 := PackageNode.SummaryOf(report);
      var next, failure := ExtractArchive(report, unzip, tree', vs[i].path, dest);
      ghost var u := ExtractZip(unzip, tree', vs[i].path, dest);
      if failure.Some? {
        Say(report, [Message(Error, "VOLUME_EXTRACT_ERROR", "Failed to extract volume: " + failure.value)]);
      } else {
        Say(report, []);
      }
      PackageNode.SaidTwice(s1, u.ms, ExtractVolume(unzip, tree', dest, vs[i]).ms[|u.ms|..]);
      assert ExtractVolume(unzip, tree', dest, vs[i]).ms == u.ms + ExtractVolume(unzip, tree', dest, vs[i]).ms[|u.ms|..];
      PackageNode.SaidTwice(s0, before, ExtractVolume(unzip, tree', dest, vs[i]).ms);
      tree' := next;
    }
    assert vs[..|vs|] == vs;
  }

  /** The report `createReport` starts with: nothing counted yet. */
  function Blank(t: Clock): PackageNode.Summary
  {
    PackageNode.Summary([], [], 0, 0, 0, 0, 0, 0, t.started, None)
  }

  /** A fresh report, then the descriptor and the volume loop. */
  method SurveyPhase(s: VolumeSet, t: Clock) returns (report: Report, entries: seq<VolumeEntry>)
    ensures fresh(report)
    ensures report.targetType == "volume-set" && report.targetPath == Render(s.descriptor)
    ensures PackageNode.SummaryOf(report) == PackageNode.Said(Blank(t), Survey0(s).ms) && entries == Survey0(s).entries
  {
    report := new Report(s.toolName, s.toolVersion, "volume-set", Render(s.descriptor), t.started);
    var volumes, _ := CheckDescriptor(report, s.h, s.volumeSet, Render(s.descriptor));
    entries := SurveyVolumes(report, s.h, Base(s), volumes);
    PackageNode.SaidTwice(Blank(t), ReadDescriptor(s.h, s.volumeSet, Render(s.descriptor)).ms, SurveyAll(s.h, Base(s), volumes).ms);
  }

  /** The volume phase: the survey and, when that counts no error, `mkdtemp` and extraction; the report is finished if it counts one. */
  method VolumePhase(s: VolumeSet, t: Clock) returns (report: Report, tree: Tree, stop: bool)
    ensures fresh(report)
    ensures report.targetType == "volume-set" && report.targetPath == Render(s.descriptor)
    ensures var c := Survey0(s);
      var x := Extraction(s, c.entries);
      && (stop <==> Stopped(c.ms, x, t).Some?)
      && (stop ==> PackageNode.SummaryOf(report) == Stopped(c.ms, x, t).value)
      && (!stop ==> tree == x.tree && report.messages == c.ms + x.ms)
  {
    var entries;
    report, entries := SurveyPhase(s, t);
    ghost var survey := Survey0(s).ms;
    tree := s.h.tree;
    stop := report.errors > 0;
    if stop {
      FinalizeReport(report, t.finished);
      return;
    }
    tree := s.h.tree[Render(s.temp) := Dir];
    tree := ExtractVolumes(report, s.unzip, tree, s.temp, Ordered(entries));
    PackageNode.SaidTwice(Blank(t), survey, Extraction(s, entries).ms);
    stop := report.errors > 0;
    if stop {
      FinalizeReport(report, t.finished);
    }
  }

  /**
   * The package step: the package validated over the extracted tree, then
   * the volume messages merged in, the volume set made the target and a new
   * finish time.
   */
  method PackageStep(ctx: ArtifactsNode.Context, ms: seq<Message>, targetPath: string, t: Clock) returns (report: Report, thrown: bool)
    ensures thrown <==> PackageNode.PackageOutcome(ctx, t.packageStarted, t.packageFinished).None?
    ensures !thrown ==> PackageNode.SummaryOf(report) == Merged(PackageNode.PackageOutcome(ctx, t.packageStarted, t.packageFinished).value, ms, t.finished)
    ensures !thrown ==> report.targetType == "volume-set" && report.targetPath == targetPath
  {
    report, thrown := PackageNode.ValidatePackage(ctx, t.packageStarted, t.packageFinished);
    if !thrown {
      Merge(report, ms, targetPath, t.finished);
    }
  }

  /** The volume messages merged into the package report, which is retargeted to the volume set and refinished. */
  method Merge(report: Report, ms: seq<Message>, targetPath: string, finishedAt: string)
    modifies report
    ensures PackageNode.SummaryOf(report) == Merged(old(PackageNode.SummaryOf(report)), ms, finishedAt)
    ensures report.targetType == "volume-set" && report.targetPath == targetPath
  {
    Say(report, ms);
    report.targetType := "volume-set";
    report.targetPath := targetPath;
    FinalizeReport(report, finishedAt);
  }

  /** `validateVolumes(options)` up to writing the report, which is not part of this model. */
  method ValidateVolumes(s: VolumeSet, t: Clock) returns (report: Report, thrown: bool)
    ensures thrown <==> VolumesOutcome(s, t).None?
    ensures !thrown ==> PackageNode.SummaryOf(report) == VolumesOutcome(s, t).value
    ensures !thrown ==> report.targetType == "volume-set" && report.targetPath == Render(s.descriptor)
  {
    var tree, stop;
    report, tree, stop := VolumePhase(s, t);
    if stop {
      return report, false;
    }
    report, thrown := PackageStep(PackageContext(s, tree), report.messages, Render(s.descriptor), t);
  }
}
