/**
 * The artifact loop of `validatePackage` in the Node validator. Every catalog
 * artifact gets one entry: skipped when the profile leaves it out, otherwise
 * located through the path sandbox, measured, hashed and dispatched by media
 * type to the NDJSON or JSON checks, then finalized and pushed.
 *
 * The loop is written against a `Checks` record of the per-artifact
 * decisions; `NodeChecks` fills it with the Node validator's own (`Locate`,
 * `FileDetails`, `CheckDigest`, `Dispatch`).
 */
module ArtifactsNode {
  import opened Common
  import opened Strings
  import opened JsonDoc
  import opened Env
  import opened Lexical
  import opened PathSafe
  import opened JsonValidate
  import opened Digest
  import opened NodeReport
  import NdjsonNode
  import AssetNode
  import ObjectGraph
  import LineWalk

  /**
   * The compiled schemas `loadSchemas` hands back that the package run
   * consults. The loader has no object-index or object-passport schema, so
   * `validators.objectIndex` and `validators.objectPassport` are
   * `undefined` and have no field here.
   */
  datatype Validators = Validators(
    manifest: Validator, catalog: Validator,
    entity: Validator, assetIndex: Validator, configKv: Validator, recordset: Validator,
    capabilities: Validator, transformPlan: Validator)

  /** The options of `validatePackage`; the package root is already absolute. */
  datatype Options = Options(root: Dir, profile: string, noDigest: bool, checkAssetBlobs: bool,
                             toolName: string, toolVersion: string)

  /** Everything one run consults. */
  datatype Context = Context(h: Host, opts: Options, v: Validators)

  /** An artifact the profile leaves out (`selected` is `None` when every artifact is kept). */
  predicate Skipped(selected: Option<seq<Option<Json>>>, art: Json)
  {
    selected.Some? && !JsIn(Prop(art, "id"), selected.value)
  }

  /** `x || null`. */
  function OrNull(x: Option<Json>): Option<Json>
  {
    if JsTruthy(x) then x else None
  }

  /** The entry the loop first builds for an artifact. */
  function NewEntry(art: Json): Entry
  {
    Entry(Prop(art, "id"), OrNull(Prop(art, "mediaType")), OrNull(Prop(art, "path")), IntProp(art, "size"), None,
              OrNull(Prop(art, "digest")), None, StatusOk, [])
  }

  // ------------------------------------------------- the Node decisions

  /** Where the artifact's file is: rejected by the path sandbox, absent, or present at a resolved path. */
  datatype Located = Unsafe(code: string, message: string) | Absent(message: string) | Found(path: string)

  function Locate(ctx: Context, art: Json): (r: Located)
    ensures r.Unsafe? <==> ResolveSafePath(ctx.opts.root, Prop(art, "path")).Rejected?
    ensures r.Unsafe? ==> r.code == ResolveSafePath(ctx.opts.root, Prop(art, "path")).code
    ensures r.Found? ==> Exists(ctx.h, r.path) && ResolveSafePath(ctx.opts.root, Prop(art, "path")) == Resolved(r.path)
    ensures r.Absent? ==>
      && ResolveSafePath(ctx.opts.root, Prop(art, "path")).Resolved?
      && !Exists(ctx.h, ResolveSafePath(ctx.opts.root, Prop(art, "path")).resolved)
      && r.message == "Artifact file not found: " + Display(Prop(art, "path"))
  {
    match ResolveSafePath(ctx.opts.root, Prop(art, "path"))
    case Rejected(code, message) => Unsafe(code, message)
    case Resolved(p) => if Exists(ctx.h, p) then Found(p) else Absent("Artifact file not found: " + Display(Prop(art, "path")))
  }

  /** `stat.size` of an existing path: a file's length, or what the file system reports for a directory. */
  function StatSize(h: Host, p: string): nat
  {
    if IsFile(h, p) then |h.tree[p].data| else h.dirSize(p)
  }

  /** The regular-file check, which does not stop the run. */
  function NotRegular(h: Host, p: string): (ds: seq<Detail>)
    ensures ds != [] <==> !IsFile(h, p)
    ensures forall d :: d in ds ==> d.level == Error && d.code == "FILE_NOT_REGULAR"
  {
    if IsFile(h, p) then [] else [Detail(Error, "FILE_NOT_REGULAR", "Artifact is not a regular file", None)]
  }

  /** The size check: only a numeric declared size is compared with the measured one. */
  function SizeDetails(art: Json, size: nat): (ds: seq<Detail>)
    ensures ds != [] <==> IntProp(art, "size").Some? && IntProp(art, "size").value != size
    ensures forall d :: d in ds ==> d.level == Error && d.code == "SIZE_MISMATCH"
  {
    match IntProp(art, "size")
    case Some(n) =>
      if size != n then [Detail(Error, "SIZE_MISMATCH", "File size mismatch: " + NatToString(size) + " != " + IntToString(n), None)]
      else []
    case None => []
  }

  /** The regular-file and size checks. */
  function FileDetails(ctx: Context, art: Json, p: string): seq<Detail>
  {
    NotRegular(ctx.h, p) + SizeDetails(art, StatSize(ctx.h, p))
  }

  /** The digest the entry records, and the details the digest check adds. */
  datatype DigestCheck = DigestCheck(actual: Option<string>, details: seq<Detail>)

  function CheckDigest(ctx: Context, art: Json, p: string): (r: DigestCheck)
    ensures |r.details| <= 1 && forall d :: d in r.details ==> d.level == Error
    // skipped when digests are off or the artifact declares none
    ensures ctx.opts.noDigest || !JsTruthy(Prop(art, "digest")) ==> r == DigestCheck(None, [])
    // otherwise a readable file's digest is recorded, and it must be the declared string
    ensures !ctx.opts.noDigest && JsTruthy(Prop(art, "digest")) ==>
      && (r.actual.Some? <==> Readable(ctx.h, p))
      && (r.actual.Some? ==> r.actual.value == "sha256:" + ctx.h.sha256(ctx.h.tree[p].data))
      && (r.details == [] <==> r.actual.Some? && Prop(art, "digest") == Some(JStr(r.actual.value)))
  {
    var declared := Prop(art, "digest");
    if !JsTruthy(declared) || ctx.opts.noDigest then DigestCheck(None, [])
    else
      match ComputeSha256(ctx.h, p)
      case Ok(d) =>
        DigestCheck(Some(d), if Some(JStr(d)) == declared then []
                             else [Detail(Error, "DIGEST_MISMATCH", "Digest mismatch: " + d + " != " + Display(declared), None)])
      case Failure(e) => DigestCheck(None, [Detail(Error, "DIGEST_ERROR", "Digest calculation error: " + e, None)])
  }

  const EntityGraphType: string := "application/vnd.sitepack.entity-graph+ndjson"
  const ConfigKvType: string := "application/vnd.sitepack.config-kv+ndjson"
  const RecordsetType: string := "application/vnd.sitepack.recordset+ndjson"
  const CapabilitiesType: string := "application/vnd.sitepack.capabilities+json"
  const TransformPlanType: string := "application/vnd.sitepack.transform-plan+json"
  const ObjectPassportType: string := "application/vnd.sitepack.object-passport+json"

  const NdjsonTypes: set<string> := {EntityGraphType, AssetNode.AssetIndexType, ConfigKvType, RecordsetType}
  /**
   * The JSON types whose table entry is a validator. The object-index and
   * object-passport types are keys of the table too, but their entries are
   * `undefined`, so the dispatch treats them as unknown.
   */
  const JsonTypes: set<string> := {CapabilitiesType, TransformPlanType}

  /** `ndjsonValidators[key]`. */
  function NdjsonValidatorFor(v: Validators, key: string): (r: Option<Validator>)
    ensures r.Some? <==> key in NdjsonTypes
  {
    if key == EntityGraphType then Some(v.entity)
    else if key == AssetNode.AssetIndexType then Some(v.assetIndex)
    else if key == ConfigKvType then Some(v.configKv)
    else if key == RecordsetType then Some(v.recordset)
    else None
  }

  /** `jsonValidators[key]`: a validator for the capabilities and transform-plan types, `undefined` for every other key. */
  function JsonValidatorFor(v: Validators, key: string): (r: Option<Validator>)
    ensures r.Some? <==> key in JsonTypes
    ensures key == ObjectGraph.ObjectIndexType || key == ObjectPassportType ==> r.None?
  {
    if key == CapabilitiesType then Some(v.capabilities)
    else if key == TransformPlanType then Some(v.transformPlan)
    else None
  }

  /** The checks of a JSON artifact: it must be read and parsed, then pass its schema. */
  function JsonDetails(h: Host, p: string, validator: Validator): (ds: seq<Detail>)
    ensures forall d :: d in ds ==> d.level == Error && d.line.None?
    ensures ReadJson(h, p).ParseFailed? ==> |ds| == 1 && ds[0].code == "JSON_ARTIFACT_PARSE_ERROR"
    ensures ReadJson(h, p).Parsed? ==>
      |ds| == |ValidateWithSchema(validator, ReadJson(h, p).value).errors|
      && forall d :: d in ds ==> d.code == "JSON_ARTIFACT_SCHEMA_ERROR"
    // the parse error carries the reader's reason
    ensures ReadJson(h, p).ParseFailed? ==>
      ds == [Detail(Error, "JSON_ARTIFACT_PARSE_ERROR", "Failed to read JSON artifact: " + ReadJson(h, p).reason, None)]
    // each schema error carries its formatted message, in order
    ensures ReadJson(h, p).Parsed? ==>
      forall i :: 0 <= i < |ds| ==> ds[i].message == ValidateWithSchema(validator, ReadJson(h, p).value).errors[i].message
  {
    match ReadJson(h, p)
    case ParseFailed(reason) =>
      [Detail(Error, "JSON_ARTIFACT_PARSE_ERROR", "Failed to read JSON artifact: " + reason, None)]
    case Parsed(data) =>
      var outcome := ValidateWithSchema(validator, data);
      if outcome.valid then []
      else seq(|outcome.errors|, i requires 0 <= i < |outcome.errors| =>
                 Detail(Error, "JSON_ARTIFACT_SCHEMA_ERROR", outcome.errors[i].message, None))
  }

  /** What the media-type dispatch adds: details, and the NDJSON lines it counted. */
  datatype Dispatched = Dispatched(details: seq<Detail>, lines: nat)

  /** The NDJSON hook for an artifact: the asset-index record checks. */
  function Hook(ctx: Context, mediaType: Option<Json>): NdjsonNode.RecordHook
  {
    AssetNode.AssetHook(ctx.h, ctx.opts.root, ctx.opts.checkAssetBlobs, mediaType)
  }

  /**
   * Dispatch by media type (its property-key spelling). `None` is the
   * exception the NDJSON reader raises on a file it cannot read.
   */
  function Dispatch(ctx: Context, art: Json, p: string): (r: Option<Dispatched>)
    // the run stops exactly on an unreadable NDJSON artifact
    ensures r.None? <==> Display(Prop(art, "mediaType")) in NdjsonTypes && !Readable(ctx.h, p)
    // only NDJSON artifacts count lines
    ensures r.Some? && Display(Prop(art, "mediaType")) !in NdjsonTypes ==> r.value.lines == 0
    // an unknown type gets exactly one warning
    ensures Display(Prop(art, "mediaType")) !in NdjsonTypes && Display(Prop(art, "mediaType")) !in JsonTypes ==>
      r == Some(Dispatched([Detail(Warning, "UNKNOWN_MEDIA_TYPE", "Unknown mediaType: " + Display(Prop(art, "mediaType")), None)], 0))
    // an object index or passport in the catalog is never parsed here: it gets the unknown-type warning
    ensures Display(Prop(art, "mediaType")) in {ObjectGraph.ObjectIndexType, ObjectPassportType} ==>
      r == Some(Dispatched([Detail(Warning, "UNKNOWN_MEDIA_TYPE", "Unknown mediaType: " + Display(Prop(art, "mediaType")), None)], 0))
    // a readable NDJSON artifact is line-checked with the asset-index hook, and its line count is carried
    ensures Display(Prop(art, "mediaType")) in NdjsonTypes && Readable(ctx.h, p) ==>
      var res := NdjsonNode.Ndjson(ctx.h.lines(ctx.h.tree[p].data), ctx.h.parse,
                                   NdjsonValidatorFor(ctx.v, Display(Prop(art, "mediaType"))).value,
                                   Some(Hook(ctx, Prop(art, "mediaType"))));
      r == Some(Dispatched(res.details, res.linesValidated))
    // ... and that count is the number of its non-blank lines
    ensures Display(Prop(art, "mediaType")) in NdjsonTypes && Readable(ctx.h, p) ==>
      r.value.lines == |LineWalk.Where(ctx.h.lines(ctx.h.tree[p].data), NdjsonNode.NonBlank)|
    // a JSON type gets only the JSON checks
    ensures Display(Prop(art, "mediaType")) in JsonTypes ==>
      r == Some(Dispatched(JsonDetails(ctx.h, p, JsonValidatorFor(ctx.v, Display(Prop(art, "mediaType"))).value), 0))
  {
    var mediaType := Prop(art, "mediaType");
    var key := Display(mediaType);
    match NdjsonValidatorFor(ctx.v, key)
    case Some(validator) =>
      if !Readable(ctx.h, p) then None
      else
        var result := NdjsonNode.Ndjson(ctx.h.lines(ctx.h.tree[p].data), ctx.h.parse, validator, Some(Hook(ctx, mediaType)));
        NdjsonNode.NdjsonCountsNonBlank(ctx.h.lines(ctx.h.tree[p].data), ctx.h.parse, validator, Some(Hook(ctx, mediaType)));
        Some(Dispatched(result.details, result.linesValidated))
    case None =>
      match JsonValidatorFor(ctx.v, key)
      case Some(validator) => Some(Dispatched(JsonDetails(ctx.h, p, validator), 0))
      case None => Some(Dispatched([Detail(Warning, "UNKNOWN_MEDIA_TYPE", "Unknown mediaType: " + Display(mediaType), None)], 0))
  }

  // ------------------------------------------------------ one entry, generically

  /** The per-artifact decisions the loop consults. */
  datatype Checks = Checks(
    locate: Json -> Located,
    size: string -> nat,
    files: (Json, string) -> seq<Detail>,
    digest: (Json, string) -> DigestCheck,
    dispatch: (Json, string) -> Option<Dispatched>)

  /** The Node validator's decisions. */
  function NodeChecks(ctx: Context): Checks
  {
    Checks(art => Locate(ctx, art), p => StatSize(ctx.h, p), (art, p) => FileDetails(ctx, art, p),
           (art, p) => CheckDigest(ctx, art, p), (art, p) => Dispatch(ctx, art, p))
  }

  /** The entry with its details in place and its status finalized. */
  function Finished(e: Entry, ds: seq<Detail>): Entry
  {
    e.(details := ds, status := DeriveStatus(e.status, ds))
  }

  /** An entry as it is pushed, and the NDJSON lines it counted. */
  datatype Settled = Settled(entry: Entry, lines: nat)

  /** The one error of an artifact whose file was not found: the sandbox's rejection, or a missing file. */
  function Unlocated(l: Located): Detail
  {
    match l
    case Unsafe(code, message) => Detail(Error, code, message, None)
    case Absent(message) => Detail(Error, "FILE_MISSING", message, None)
    case Found(_) => Detail(Error, "FILE_MISSING", "", None)
  }

  /** What one turn of the loop pushes; `None` when the turn throws. */
  function Settle(c: Checks, selected: Option<seq<Option<Json>>>, art: Json): Option<Settled>
  {
    if Skipped(selected, art) then Some(Settled(NewEntry(art).(status := StatusSkipped), 0))
    else
      match c.locate(art)
      case Unsafe(_, _) => Some(Settled(Finished(NewEntry(art), [Unlocated(c.locate(art))]), 0))
      case Absent(_) => Some(Settled(Finished(NewEntry(art), [Unlocated(c.locate(art))]), 0))
      case Found(p) =>
        var digest := c.digest(art, p);
        match c.dispatch(art, p)
        case None => None
        case Some(d) =>
          var measured := NewEntry(art).(sizeActual := Some(c.size(p)), digestActual := digest.actual);
          Some(Settled(Finished(measured, c.files(art, p) + digest.details + d.details), d.lines))
  }

  /**
   * An entry keeps the artifact's id, type, path, size and digest; it is
   * `skipped` exactly when the profile leaves the artifact out, and then it
   * has no details and counts no lines; otherwise its status follows its details.
   */
  lemma SettleShape(c: Checks, selected: Option<seq<Option<Json>>>, art: Json)
    requires Settle(c, selected, art).Some?
    ensures var e := Settle(c, selected, art).value.entry;
      && e.id == Prop(art, "id") && e.mediaType == OrNull(Prop(art, "mediaType")) && e.path == OrNull(Prop(art, "path"))
      && e.sizeExpected == IntProp(art, "size") && e.digestExpected == OrNull(Prop(art, "digest"))
      && (e.status == StatusSkipped <==> Skipped(selected, art))
      && (Skipped(selected, art) ==> e.details == [] && Settle(c, selected, art).value.lines == 0)
      && (!Skipped(selected, art) ==> e.status == DeriveStatus(StatusOk, e.details))
  {
  }

  /** A rejected path or a missing file gives exactly one error and no measurements. */
  lemma UnlocatedStops(ctx: Context, selected: Option<seq<Option<Json>>>, art: Json)
    requires !Skipped(selected, art) && !Locate(ctx, art).Found?
    ensures Settle(NodeChecks(ctx), selected, art).Some?
    ensures var e := Settle(NodeChecks(ctx), selected, art).value.entry;
      && |e.details| == 1 && e.details[0].level == Error && e.status == StatusError
      && e.sizeActual.None? && e.digestActual.None?
      && (Locate(ctx, art).Unsafe? ==> e.details[0].code == ResolveSafePath(ctx.opts.root, Prop(art, "path")).code)
      && (Locate(ctx, art).Absent? ==> e.details[0].code == "FILE_MISSING")
  {
    var e := Settle(NodeChecks(ctx), selected, art).value.entry;
    assert HasLevel(e.details, Error) by {
      assert e.details[0].level == Error;
    }
  }

  /**
   * A found file is measured whatever its checks say: the size is recorded,
   * the digest check runs after a size mismatch, and the entry's details
   * are the file, digest and dispatch details in that order.
   */
  lemma FoundMeasured(ctx: Context, selected: Option<seq<Option<Json>>>, art: Json)
    requires !Skipped(selected, art) && Locate(ctx, art).Found?
    ensures var p := Locate(ctx, art).path;
      && (Settle(NodeChecks(ctx), selected, art).None? <==> Dispatch(ctx, art, p).None?)
      && (Settle(NodeChecks(ctx), selected, art).Some? ==>
            var e := Settle(NodeChecks(ctx), selected, art).value.entry;
            && e.sizeActual == Some(StatSize(ctx.h, p))
            && e.digestActual == CheckDigest(ctx, art, p).actual
            && e.details == FileDetails(ctx, art, p) + CheckDigest(ctx, art, p).details + Dispatch(ctx, art, p).value.details)
  {
  }

  // ---------------------------------------------------------- the loop

  /** The run over the artifacts so far: entries, lines counted, ids validated, entries skipped. */
  datatype Tally = Tally(entries: seq<Entry>, lines: nat, validated: seq<Option<Json>>, skipped: nat)

  /** The artifact loop, artifact by artifact; `None` once an artifact throws. */
  function Run(c: Checks, selected: Option<seq<Option<Json>>>, arts: seq<Json>): Option<Tally>
  {
    if arts == [] then Some(Tally([], 0, [], 0))
    else
      var art := arts[|arts| - 1];
      match Run(c, selected, arts[..|arts| - 1])
      case None => None
      case Some(t) =>
        match Settle(c, selected, art)
        case None => None
        case Some(s) => Some(Extend(t, s, Prop(art, "id"), Skipped(selected, art)))
  }

  /** The tally after one more entry, for an artifact with id `id` that was skipped or validated. */
  function Extend(t: Tally, s: Settled, id: Option<Json>, skipped: bool): Tally
  {
    Tally(t.entries + [s.entry], t.lines + s.lines, t.validated + (if skipped then [] else [id]),
          t.skipped + if skipped then 1 else 0)
  }

  /**
   * Each catalog artifact contributes exactly one entry, in catalog order,
   * and every artifact is either validated or skipped.
   */
  lemma {:induction false} RunShape(c: Checks, selected: Option<seq<Option<Json>>>, arts: seq<Json>)
    requires Run(c, selected, arts).Some?
    ensures var t := Run(c, selected, arts).value;
      && |t.entries| == |arts|
      && (forall k :: 0 <= k < |arts| ==> Settle(c, selected, arts[k]).Some? && t.entries[k] == Settle(c, selected, arts[k]).value.entry)
      && |t.validated| + t.skipped == |arts|
    decreases |arts|
  {
    if arts != [] {
      var init := arts[..|arts| - 1];
      RunShape(c, selected, init);
      assert forall k :: 0 <= k < |init| ==> arts[k] == init[k];
    }
  }

  /** The run throws exactly when some artifact does. */
  lemma {:induction false} RunThrows(c: Checks, selected: Option<seq<Option<Json>>>, arts: seq<Json>)
    ensures Run(c, selected, arts).None? <==> exists k :: 0 <= k < |arts| && Settle(c, selected, arts[k]).None?
    decreases |arts|
  {
    if arts != [] {
      var init := arts[..|arts| - 1];
      RunThrows(c, selected, init);
      assert forall k :: 0 <= k < |init| ==> arts[k] == init[k];
    }
  }

  /** The errors (or warnings) of all entries' details. */
  function EntriesCount(vs: seq<Entry>, l: Level): nat
  {
    if vs == [] then 0 else EntriesCount(vs[..|vs| - 1], l) + DetailCount(vs[|vs| - 1].details, l)
  }

  lemma EntriesCountSnoc(vs: seq<Entry>, v: Entry, l: Level)
    ensures EntriesCount(vs + [v], l) == EntriesCount(vs, l) + DetailCount(v.details, l)
  {
    assert (vs + [v])[..|vs|] == vs;
  }

  // ------------------------------------------------------- the methods

  /** The report's counters the artifact loop moves. */
  datatype Counts = Counts(errors: int, warnings: int, lines: int, validated: int, skipped: int)

  function CountsOf(report: Report): Counts
    reads report
  {
    Counts(report.errors, report.warnings, report.ndjsonLinesValidated, report.artifactsValidated, report.artifactsSkipped)
  }

  /** The counters after one more entry: its errors and warnings, its lines, and one validated or skipped artifact. */
  function AfterEntry(k: Counts, s: Settled, skipped: bool): Counts
  {
    Counts(k.errors + DetailCount(s.entry.details, Error), k.warnings + DetailCount(s.entry.details, Warning),
           k.lines + s.lines, k.validated + (if skipped then 0 else 1), k.skipped + (if skipped then 1 else 0))
  }

  /** The report fields the artifact loop leaves alone. */
  twostate predicate Untouched(report: Report)
    reads report
  {
    && report.messages == old(report.messages) && report.artifactsTotal == old(report.artifactsTotal)
    && report.finishedAt == old(report.finishedAt) && report.startedAt == old(report.startedAt)
  }

  /** The checks of a found file, in order: file details, size, digest, then the dispatch. */
  method Measure(report: Report, entry: ArtifactEntry, files: seq<Detail>, size: nat, digest: DigestCheck,
                 dispatched: Option<Dispatched>)
    returns (thrown: bool)
    modifies report, entry
    ensures thrown <==> dispatched.None?
    ensures !thrown ==>
      && entry.Snapshot() == old(entry.Snapshot()).(sizeActual := Some(size), digestActual := digest.actual,
                                                    details := old(entry.details) + files + digest.details + dispatched.value.details)
      && CountsOf(report) == old(CountsOf(report)).(
           errors := old(report.errors) + DetailCount(files, Error) + DetailCount(digest.details, Error)
                     + DetailCount(dispatched.value.details, Error),
           warnings := old(report.warnings) + DetailCount(files, Warning) + DetailCount(digest.details, Warning)
                       + DetailCount(dispatched.value.details, Warning),
           lines := old(report.ndjsonLinesValidated) + dispatched.value.lines)
    ensures report.artifacts == old(report.artifacts) && Untouched(report)
  {
    AddArtifactDetails(report, entry, files);
    entry.sizeActual := Some(size);
    entry.digestActual := digest.actual;
    AddArtifactDetails(report, entry, digest.details);
    if dispatched.None? {
      return true;
    }
    report.ndjsonLinesValidated := report.ndjsonLinesValidated + dispatched.value.lines;
    AddArtifactDetails(report, entry, dispatched.value.details);
    return false;
  }

  lemma SettleSkipped(c: Checks, selected: Option<seq<Option<Json>>>, art: Json)
    requires Skipped(selected, art)
    ensures Settle(c, selected, art) == Some(Settled(NewEntry(art).(status := StatusSkipped), 0))
  {
  }

  lemma SettleUnlocated(c: Checks, selected: Option<seq<Option<Json>>>, art: Json)
    requires !Skipped(selected, art) && !c.locate(art).Found?
    ensures Settle(c, selected, art) == Some(Settled(Finished(NewEntry(art), [Unlocated(c.locate(art))]), 0))
  {
  }

  lemma SettleFound(c: Checks, selected: Option<seq<Option<Json>>>, art: Json)
    requires !Skipped(selected, art) && c.locate(art).Found?
    ensures var p := c.locate(art).path;
      var digest, dispatched := c.digest(art, p), c.dispatch(art, p);
      && (Settle(c, selected, art).None? <==> dispatched.None?)
      && (dispatched.Some? ==>
            Settle(c, selected, art).value ==
              Settled(Finished(NewEntry(art).(sizeActual := Some(c.size(p)), digestActual := digest.actual),
                               c.files(art, p) + digest.details + dispatched.value.details),
                      dispatched.value.lines))
  {
  }

  /** A turn of the artifact loop up to the push: the new entry is checked and finalized. */
  method Examine(report: Report, entry: ArtifactEntry, c: Checks, selected: Option<seq<Option<Json>>>, art: Json)
    returns (thrown: bool)
    requires entry.Snapshot() == NewEntry(art)
    modifies report, entry
    ensures thrown <==> Settle(c, selected, art).None?
    ensures !thrown ==>
      && entry.Snapshot() == Settle(c, selected, art).value.entry
      && CountsOf(report) == AfterEntry(old(CountsOf(report)), Settle(c, selected, art).value, Skipped(selected, art))
    ensures report.artifacts == old(report.artifacts) && Untouched(report)
  {
    if Skipped(selected, art) {
      SettleSkipped(c, selected, art);
      MarkSkipped(report, entry);
      return false;
    }
    var located := c.locate(art);
    if !located.Found? {
      SettleUnlocated(c, selected, art);
      MarkUnlocated(report, entry, Unlocated(located));
      return false;
    }
    var p := located.path;
    var files, size, digest, dispatched := c.files(art, p), c.size(p), c.digest(art, p), c.dispatch(art, p);
    SettleFound(c, selected, art);
    thrown := ExamineFound(report, entry, files, size, digest, dispatched);
  }

  /** An artifact the profile leaves out: marked skipped and counted, nothing checked. */
  method MarkSkipped(report: Report, entry: ArtifactEntry)
    requires entry.details == []
    modifies report, entry
    ensures entry.Snapshot() == old(entry.Snapshot()).(status := StatusSkipped)
    ensures CountsOf(report) == AfterEntry(old(CountsOf(report)), Settled(entry.Snapshot(), 0), true)
    ensures report.artifacts == old(report.artifacts) && Untouched(report)
  {
    entry.status := StatusSkipped;
    report.artifactsSkipped := report.artifactsSkipped + 1;
  }

  /** An artifact whose file was not found: counted as validated, one error, then finalized. */
  method MarkUnlocated(report: Report, entry: ArtifactEntry, detail: Detail)
    requires entry.details == [] && detail.level == Error && detail.line.None?
    modifies report, entry
    ensures entry.Snapshot() == Finished(old(entry.Snapshot()), [detail])
    ensures CountsOf(report) == AfterEntry(old(CountsOf(report)), Settled(entry.Snapshot(), 0), false)
    ensures report.artifacts == old(report.artifacts) && Untouched(report)
  {
    report.artifactsValidated := report.artifactsValidated + 1;
    AddArtifactDetails(report, entry, [detail]);
    FinalizeArtifactStatus(entry);
  }

  /** A found file: counted as validated, measured, hashed, dispatched and finalized. */
  method ExamineFound(report: Report, entry: ArtifactEntry, files: seq<Detail>, size: nat, digest: DigestCheck,
                      dispatched: Option<Dispatched>)
    returns (thrown: bool)
    requires entry.details == []
    modifies report, entry
    ensures thrown <==> dispatched.None?
    ensures !thrown ==>
      var ds := files + digest.details + dispatched.value.details;
      && entry.Snapshot() == Finished(old(entry.Snapshot()).(sizeActual := Some(size), digestActual := digest.actual), ds)
      && CountsOf(report) == AfterEntry(old(CountsOf(report)), Settled(entry.Snapshot(), dispatched.value.lines), false)
    ensures report.artifacts == old(report.artifacts) && Untouched(report)
  {
    report.artifactsValidated := report.artifactsValidated + 1;
    thrown := Measure(report, entry, files, size, digest, dispatched);
    if thrown {
      return;
    }
    assert [] + files + digest.details + dispatched.value.details == files + digest.details + dispatched.value.details;
    DetailCountThree(files, digest.details, dispatched.value.details, Error);
    DetailCountThree(files, digest.details, dispatched.value.details, Warning);
    FinalizeArtifactStatus(entry);
  }

  /** One turn of the artifact loop: the entry is built, checked, finalized and pushed. */
  method CheckArtifact(report: Report, c: Checks, selected: Option<seq<Option<Json>>>, art: Json) returns (thrown: bool)
    modifies report
    ensures thrown <==> Settle(c, selected, art).None?
    ensures !thrown ==>
      && report.artifacts == old(report.artifacts) + [Settle(c, selected, art).value.entry]
      && CountsOf(report) == AfterEntry(old(CountsOf(report)), Settle(c, selected, art).value, Skipped(selected, art))
    ensures Untouched(report)
  {
    var entry := new ArtifactEntry(Prop(art, "id"), Prop(art, "mediaType"), Prop(art, "path"), Prop(art, "size"), Prop(art, "digest"));
    thrown := Examine(report, entry, c, selected, art);
    if !thrown {
      report.artifacts := report.artifacts + [entry.Snapshot()];
    }
  }

  /** One more artifact extends the run by its entry. */
  lemma RunStep(c: Checks, selected: Option<seq<Option<Json>>>, arts: seq<Json>, i: nat)
    requires i < |arts| && Run(c, selected, arts[..i]).Some? && Settle(c, selected, arts[i]).Some?
    ensures Run(c, selected, arts[..i + 1]) ==
      Some(Extend(Run(c, selected, arts[..i]).value, Settle(c, selected, arts[i]).value, Prop(arts[i], "id"), Skipped(selected, arts[i])))
  {
    assert arts[..i + 1][..i] == arts[..i];
  }

  /**
   * The report holds the run's tally `t`: its entries, its validated ids,
   * and counters that add the entries' errors and warnings to the counts the
   * loop started from.
   */
  predicate Tallied(report: Report, t: Tally, validatedIds: seq<Option<Json>>, errors0: int, warnings0: int)
    reads report
  {
    && report.artifacts == t.entries && validatedIds == t.validated
    && CountsOf(report) == TallyCounts(t, errors0, warnings0)
  }

  /** The counters the report holds for a tally. */
  function TallyCounts(t: Tally, errors0: int, warnings0: int): Counts
  {
    Counts(errors0 + EntriesCount(t.entries, Error), warnings0 + EntriesCount(t.entries, Warning),
           t.lines, |t.validated|, t.skipped)
  }

  /** One more entry moves the counters as it extends the tally. */
  lemma TallyCountsStep(t: Tally, s: Settled, id: Option<Json>, skipped: bool, errors0: int, warnings0: int)
    ensures TallyCounts(Extend(t, s, id, skipped), errors0, warnings0) == AfterEntry(TallyCounts(t, errors0, warnings0), s, skipped)
  {
    EntriesCountSnoc(t.entries, s.entry, Error);
    EntriesCountSnoc(t.entries, s.entry, Warning);
  }

  /** One turn of the artifact loop, taking the tally from `arts[..i]` to `arts[..i + 1]`. */
  method Advance(report: Report, c: Checks, selected: Option<seq<Option<Json>>>, arts: seq<Json>, i: nat,
                 ids: seq<Option<Json>>, ghost errors0: int, ghost warnings0: int)
    returns (ids': seq<Option<Json>>, thrown: bool)
    requires i < |arts| && Run(c, selected, arts[..i]).Some?
    requires Tallied(report, Run(c, selected, arts[..i]).value, ids, errors0, warnings0)
    modifies report
    ensures thrown <==> Settle(c, selected, arts[i]).None?
    ensures !thrown ==>
      && Run(c, selected, arts[..i + 1]).Some?
      && Tallied(report, Run(c, selected, arts[..i + 1]).value, ids', errors0, warnings0)
    ensures Untouched(report)
  {
    ghost var t := Run(c, selected, arts[..i]).value;
    var art := arts[i];
    thrown := CheckArtifact(report, c, selected, art);
    ids' := ids;
    if thrown {
      return;
    }
    if !Skipped(selected, art) {
      ids' := ids + [Prop(art, "id")];
    }
    RunStep(c, selected, arts, i);
    TallyCountsStep(t, Settle(c, selected, art).value, Prop(art, "id"), Skipped(selected, art), errors0, warnings0);
  }

  /** The artifact loop of `validatePackage`: one entry per catalog artifact, in catalog order. */
  method CheckArtifacts(report: Report, c: Checks, selected: Option<seq<Option<Json>>>, arts: seq<Json>)
    returns (validatedIds: seq<Option<Json>>, thrown: bool)
    requires report.artifacts == [] && report.artifactsValidated == 0 && report.artifactsSkipped == 0
    requires report.ndjsonLinesValidated == 0
    modifies report
    ensures thrown <==> Run(c, selected, arts).None?
    ensures !thrown ==> Tallied(report, Run(c, selected, arts).value, validatedIds, old(report.errors), old(report.warnings))
    ensures Untouched(report)
  {
    validatedIds := [];
    thrown := false;
    var i := 0;
    assert arts[..0] == [];
    while i < |arts|
      invariant 0 <= i <= |arts|
      invariant Run(c, selected, arts[..i]).Some?
      invariant Tallied(report, Run(c, selected, arts[..i]).value, validatedIds, old(report.errors), old(report.warnings))
      invariant Untouched(report)
    {
      validatedIds, thrown := Advance(report, c, selected, arts, i, validatedIds, old(report.errors), old(report.warnings));
      if thrown {
        assert Settle(c, selected, arts[i]).None?;
        RunThrows(c, selected, arts);
        return;
      }
      i := i + 1;
    }
    assert arts[..|arts|] == arts;
  }
}
