/**
 * Model of `PackageValidator::validate` in the PHP validator. The manifest and
 * the catalog are read and schema-checked (`loadJson`), their artifact ids are
 * cross-checked, a profile narrows the artifacts to validate, and every object
 * of the catalog's `artifacts` array then gets one `ArtifactResult`: skipped,
 * or located through `SafePath`, measured, hashed and dispatched by media type
 * to the NDJSON or JSON checks. The object layer runs last.
 *
 * As in the Node model, the per-artifact decisions are functions and the
 * loops are methods proved to apply them; the artifact loop is written
 * against a `Checks` record that `PhpChecks` fills with the PHP decisions.
 */
module PackagePhp {
  import opened Common
  import opened Strings
  import opened JsonDoc
  import opened Env
  import opened Lexical
  import SafePath
  import opened Digest
  import opened PhpReport
  import opened ProfilePhp
  import NdjsonPhp
  import AssetPhp
  import ObjectsPhp

  const ManifestFile: string := "sitepack.manifest.json"
  const CatalogFile: string := "sitepack.catalog.json"

  /** The arguments of `validate`; the package root is absolute and normalised. */
  datatype Options = Options(root: Dir, profile: Option<string>, skipDigest: bool, checkAssetBlobs: bool,
                             tool: map<string, string>)

  /** Everything one run consults: the file tree, the named-schema check and the options. */
  datatype Context = Context(h: Host, schema: SchemaCheck, opts: Options)

  // ------------------------------------------------------------ loadJson

  /** A document as `loadJson` returns it (`null` on failure), and the messages it added. */
  datatype Loaded = Loaded(doc: Option<Json>, ms: seq<Message>)

  /**
   * `loadJson($path, $schemaName, $report)`; `None` is the `TypeError` of a
   * document that decodes to anything but an object.
   */
  function LoadJson(h: Host, schema: SchemaCheck, p: string, schemaName: string): (r: Option<Loaded>)
    // it throws exactly on a file that decodes to a non-object
    ensures r.None? <==> IsFile(h, p) && PhpReadJson(h, p).Parsed? && !PhpReadJson(h, p).value.JObj?
    // otherwise the document is returned exactly when it is a file that reads and decodes
    ensures r.Some? ==> (r.value.doc.Some? <==> IsFile(h, p) && PhpReadJson(h, p).Parsed?)
    ensures r.Some? && r.value.doc.Some? ==> r.value.doc.value == PhpReadJson(h, p).value
    ensures r.Some? ==> forall m :: m in r.value.ms ==> m.level == Error
    ensures !IsFile(h, p) ==> r == Some(Loaded(None, [Message(Error, "MISSING_FILE", "File not found: " + p)]))
    ensures IsFile(h, p) && PhpReadJson(h, p).ParseFailed? ==>
      r == Some(Loaded(None, [Message(Error, "INVALID_JSON", "Failed to read JSON: " + PhpReadJson(h, p).reason)]))
    // a decoded document is still returned when its schema rejects it, with one error per schema message
    ensures r.Some? && r.value.doc.Some? ==>
      r.value.ms == ObjectsPhp.SchemaMessages(schema, schemaName, r.value.doc.value, "SCHEMA_VALIDATION_FAILED")
  {
    if !IsFile(h, p) then Some(Loaded(None, [Message(Error, "MISSING_FILE", "File not found: " + p)]))
    else
      match PhpReadJson(h, p)
      case ParseFailed(reason) => Some(Loaded(None, [Message(Error, "INVALID_JSON", "Failed to read JSON: " + reason)]))
      case Parsed(data) =>
        match ObjectsPhp.Validated(schema, schemaName, data, "SCHEMA_VALIDATION_FAILED")
        case None => None
        case Some(ms) => Some(Loaded(Some(data), ms))
  }

  // ------------------------------------------------------------ the report as a value

  /** What a package report holds, besides the tool description. */
  datatype Summary = Summary(messages: seq<Message>, artifacts: seq<ArtifactView>, errors: int, warnings: int,
                             total: int, validated: int, skipped: int, lines: int,
                             startedAt: string, finishedAt: Option<string>, targetType: string, targetPath: string)

  function SummaryOf(report: ValidationReport): Summary
    reads report
  {
    Summary(report.messages, report.artifacts, report.errors, report.warnings, report.artifactsTotal,
            report.artifactsValidated, report.artifactsSkipped, report.ndjsonLinesValidated,
            report.startedAt, report.finishedAt, report.targetType, report.targetPath)
  }

  /** `ms` appended to the message list, each message counted under its own level. */
  function Said(s: Summary, ms: seq<Message>): Summary
  {
    s.(messages := s.messages + ms, errors := s.errors + MessageCount(ms, Error),
       warnings := s.warnings + MessageCount(ms, Warning))
  }

  /** Saying two batches is saying them together. */
  lemma SaidTwice(s: Summary, a: seq<Message>, b: seq<Message>)
    ensures Said(Said(s, a), b) == Said(s, a + b)
  {
    MessageCountAppend(a, b, Error);
    MessageCountAppend(a, b, Warning);
    assert s.messages + a + b == s.messages + (a + b);
  }

  /** A step that adds `ms` through `addMessage` and changes nothing else leaves the report `Said(old, ms)`. */
  lemma SaidBy(before: Summary, after: Summary, ms: seq<Message>)
    requires after.messages == before.messages + ms
    requires after.errors == before.errors + MessageCount(ms, Error)
    requires after.warnings == before.warnings + MessageCount(ms, Warning)
    requires after.(messages := before.messages, errors := before.errors, warnings := before.warnings) == before
    ensures after == Said(before, ms)
  {
  }

  /** The `loadJson` block for one document. */
  method Load(report: ValidationReport, h: Host, schema: SchemaCheck, p: string, schemaName: string)
    returns (doc: Option<Json>, thrown: bool)
    modifies report
    ensures thrown <==> LoadJson(h, schema, p, schemaName).None?
    ensures !thrown ==> doc == LoadJson(h, schema, p, schemaName).value.doc
    ensures !thrown ==> SummaryOf(report) == Said(old(SummaryOf(report)), LoadJson(h, schema, p, schemaName).value.ms)
  {
    doc, thrown := None, false;
    if !IsFile(h, p) {
      report.AddMessage("error", "MISSING_FILE", "File not found: " + p);
      SaidBy(old(SummaryOf(report)), SummaryOf(report), LoadJson(h, schema, p, schemaName).value.ms);
      return;
    }
    var result := PhpReadJson(h, p);
    if result.ParseFailed? {
      report.AddMessage("error", "INVALID_JSON", "Failed to read JSON: " + result.reason);
      SaidBy(old(SummaryOf(report)), SummaryOf(report), LoadJson(h, schema, p, schemaName).value.ms);
      return;
    }
    if !result.value.JObj? {
      return None, true;
    }
    var ms := ObjectsPhp.SchemaMessages(schema, schemaName, result.value, "SCHEMA_VALIDATION_FAILED");
    UniformCount(ms, Error, Warning);
    doc := Some(result.value);
    AddErrors(report, ms);
    SaidBy(old(SummaryOf(report)), SummaryOf(report), ms);
  }

  // ------------------------------------------------------------ the artifact lists

  /** The JSON objects among `items`, in order (`if (is_object($artifact))`). */
  function Objects(items: seq<Json>): (r: seq<Json>)
    ensures |r| <= |items|
    ensures forall a :: a in r <==> a in items && a.JObj?
  {
    if items == [] then []
    else
      var init, last := items[..|items| - 1], items[|items| - 1];
      assert items == init + [last];
      Objects(init) + if last.JObj? then [last] else []
  }

  /** `$catalogArtifacts`: the objects of the catalog's `artifacts` array. */
  function CatalogArtifacts(catalog: Option<Json>): seq<Json>
  {
    match PropOf(catalog, "artifacts")
    case Some(JArr(items)) => Objects(items)
    case _ => []
  }

  /** The manifest as the object the profile lookup reads, when it is one. */
  function ManifestObject(manifest: Option<Json>): Option<map<string, Json>>
  {
    match manifest
    case Some(JObj(fields)) => Some(fields)
    case _ => None
  }

  /** `$manifestArtifacts`: the string ids of the manifest's `artifacts` array. */
  function ManifestIds(manifest: Option<Json>): seq<string>
  {
    match ManifestObject(manifest)
    case Some(fields) => ArtifactIds(fields)
    case None => []
  }

  /** `$catalogIds`: each artifact's string id, or `''`. */
  function CatalogIds(arts: seq<Json>): (r: seq<string>)
    ensures |r| == |arts| && forall i :: 0 <= i < |r| ==> r[i] == ObjectsPhp.StringOrEmpty(arts[i], "id")
  {
    seq(|arts|, i requires 0 <= i < |arts| => ObjectsPhp.StringOrEmpty(arts[i], "id"))
  }

  // ------------------------------------------------------------ cross-check

  function NotInCatalog(id: string): Message
  {
    Message(Error, "MISSING_FILE", "Artifact '" + id + "' is listed in manifest but missing in catalog")
  }

  function NotInManifest(id: string): Message
  {
    Message(Warning, "MISSING_FILE", "Artifact '" + id + "' is missing from manifest.artifacts")
  }

  /** The body of the manifest loop: the strict `in_array` test against the catalog ids. */
  function ManifestStep(catalogIds: seq<string>): string -> seq<Message>
  {
    id => if id in catalogIds then [] else [NotInCatalog(id)]
  }

  /** The body of the catalog loop: an empty id is never reported. */
  function CatalogStep(manifestIds: seq<string>): string -> seq<Message>
  {
    id => if id != "" && id !in manifestIds then [NotInManifest(id)] else []
  }

  /** The two loops of the manifest/catalog cross-check. */
  function CrossCheck(manifestIds: seq<string>, catalogIds: seq<string>): seq<Message>
  {
    Flatten(ManifestStep(catalogIds), manifestIds) + Flatten(CatalogStep(manifestIds), catalogIds)
  }

  /**
   * A manifest id the catalog lacks is an error, and a non-empty catalog id
   * the manifest lacks is a warning: each message names such an id, and
   * every such id is named.
   */
  lemma CrossCheckReports(manifestIds: seq<string>, catalogIds: seq<string>, id: string)
    ensures NotInCatalog(id) in CrossCheck(manifestIds, catalogIds) <==> id in manifestIds && id !in catalogIds
    ensures NotInManifest(id) in CrossCheck(manifestIds, catalogIds) <==>
      id in catalogIds && id != "" && id !in manifestIds
  {
    FlattenMember(ManifestStep(catalogIds), manifestIds, NotInCatalog(id));
    FlattenMember(ManifestStep(catalogIds), manifestIds, NotInManifest(id));
    FlattenMember(CatalogStep(manifestIds), catalogIds, NotInCatalog(id));
    FlattenMember(CatalogStep(manifestIds), catalogIds, NotInManifest(id));
    forall x | NotInCatalog(id) in ManifestStep(catalogIds)(x)
      ensures x == id
    {
      Framed("Artifact '", x, id, "' is listed in manifest but missing in catalog");
    }
    forall x | NotInManifest(id) in CatalogStep(manifestIds)(x)
      ensures x == id
    {
      Framed("Artifact '", x, id, "' is missing from manifest.artifacts");
    }
    if id in manifestIds && id !in catalogIds {
      assert NotInCatalog(id) in ManifestStep(catalogIds)(id);
    }
    if id in catalogIds && id != "" && id !in manifestIds {
      assert NotInManifest(id) in CatalogStep(manifestIds)(id);
    }
  }

  /** The report fields other than the message list and the error and warning tallies. */
  datatype Progress = Progress(artifacts: seq<ArtifactView>, total: int, validated: int, skipped: int, lines: int,
                               startedAt: string, finishedAt: Option<string>, targetType: string, targetPath: string)

  function ProgressOf(report: ValidationReport): Progress
    reads report
  {
    Progress(report.artifacts, report.artifactsTotal, report.artifactsValidated, report.artifactsSkipped,
             report.ndjsonLinesValidated, report.startedAt, report.finishedAt, report.targetType, report.targetPath)
  }

  /** The step touched only the message list and the tallies. */
  twostate predicate OnlyTallies(report: ValidationReport)
    reads report
  {
    ProgressOf(report) == old(ProgressOf(report))
  }

  /** The loop over the manifest ids: an error for each id the catalog lacks. */
  method CheckManifestIds(report: ValidationReport, manifestIds: seq<string>, catalogIds: seq<string>)
    modifies report
    ensures report.messages == old(report.messages) + Flatten(ManifestStep(catalogIds), manifestIds)
    ensures report.errors == old(report.errors) + |Flatten(ManifestStep(catalogIds), manifestIds)|
    ensures report.warnings == old(report.warnings)
    ensures OnlyTallies(report)
  {
    ghost var step := ManifestStep(catalogIds);
    for i := 0 to |manifestIds|
      invariant report.messages == old(report.messages) + Flatten(step, manifestIds[..i])
      invariant report.errors == old(report.errors) + |Flatten(step, manifestIds[..i])|
      invariant report.warnings == old(report.warnings)
      invariant OnlyTallies(report)
    {
      FlattenSnoc(step, manifestIds, i);
      var id := manifestIds[i];
      if id !in catalogIds {
        assert step(id) == [NotInCatalog(id)] && LevelOf("error") == Error;
        report.AddMessage("error", "MISSING_FILE", "Artifact '" + id + "' is listed in manifest but missing in catalog");
      } else {
        assert step(id) == [];
      }
    }
    assert manifestIds[..|manifestIds|] == manifestIds;
  }

  /** The loop over the catalog ids: a warning for each non-empty id the manifest lacks. */
  method CheckCatalogIds(report: ValidationReport, manifestIds: seq<string>, catalogIds: seq<string>)
    modifies report
    ensures report.messages == old(report.messages) + Flatten(CatalogStep(manifestIds), catalogIds)
    ensures report.warnings == old(report.warnings) + |Flatten(CatalogStep(manifestIds), catalogIds)|
    ensures report.errors == old(report.errors)
    ensures OnlyTallies(report)
  {
    ghost var step := CatalogStep(manifestIds);
    for i := 0 to |catalogIds|
      invariant report.messages == old(report.messages) + Flatten(step, catalogIds[..i])
      invariant report.warnings == old(report.warnings) + |Flatten(step, catalogIds[..i])|
      invariant report.errors == old(report.errors)
      invariant OnlyTallies(report)
    {
      FlattenSnoc(step, catalogIds, i);
      var id := catalogIds[i];
      if id != "" && id !in manifestIds {
        assert step(id) == [NotInManifest(id)] && LevelOf("warning") == Warning;
        report.AddMessage("warning", "MISSING_FILE", "Artifact '" + id + "' is missing from manifest.artifacts");
      } else {
        assert step(id) == [];
      }
    }
    assert catalogIds[..|catalogIds|] == catalogIds;
  }

  /** The manifest loop reports only errors, the catalog loop only warnings. */
  lemma CrossCheckCounts(manifestIds: seq<string>, catalogIds: seq<string>)
    ensures var front := Flatten(ManifestStep(catalogIds), manifestIds);
      MessageCount(front, Error) == |front| && MessageCount(front, Warning) == 0
    ensures var back := Flatten(CatalogStep(manifestIds), catalogIds);
      MessageCount(back, Warning) == |back| && MessageCount(back, Error) == 0
  {
    var front, back := Flatten(ManifestStep(catalogIds), manifestIds), Flatten(CatalogStep(manifestIds), catalogIds);
    forall m | m in front
      ensures m.level == Error
    {
      FlattenMember(ManifestStep(catalogIds), manifestIds, m);
    }
    forall m | m in back
      ensures m.level == Warning
    {
      FlattenMember(CatalogStep(manifestIds), catalogIds, m);
    }
    UniformCount(front, Error, Warning);
    UniformCount(back, Warning, Error);
  }

  /** The two cross-check loops, one after the other. */
  method CrossCheckIds(report: ValidationReport, manifestIds: seq<string>, catalogIds: seq<string>)
    modifies report
    ensures SummaryOf(report) == Said(old(SummaryOf(report)), CrossCheck(manifestIds, catalogIds))
  {
    ghost var front, back := Flatten(ManifestStep(catalogIds), manifestIds), Flatten(CatalogStep(manifestIds), catalogIds);
    CrossCheckCounts(manifestIds, catalogIds);
    CheckManifestIds(report, manifestIds, catalogIds);
    ghost var middle := SummaryOf(report);
    SaidBy(old(SummaryOf(report)), middle, front);
    CheckCatalogIds(report, manifestIds, catalogIds);
    SaidBy(middle, SummaryOf(report), back);
    SaidTwice(old(SummaryOf(report)), front, back);
  }

  // ------------------------------------------------------------ the profile

  /** What the profile block decides: the selected ids, the usage error, and the messages it adds. */
  datatype Scope = Scope(selected: seq<string>, usageError: bool, ms: seq<Message>)

  /** The profile block: without a profile the manifest ids, with one `resolveProfileSelection`. */
  function ProfileScope(manifest: Option<Json>, profile: Option<string>): Scope
  {
    match profile
    case None => Scope(ManifestIds(manifest), false, [])
    case Some(name) =>
      var r := Resolve(ManifestObject(manifest), name);
      Scope(r.selected, r.usageError, if r.complaint.Some? then [Message(Error, "PROFILE_NOT_FOUND", r.complaint.value)] else [])
  }

  /**
   * Without a profile nothing is reported; with one, a usage error comes
   * with exactly one `PROFILE_NOT_FOUND` error and an empty selection, and a
   * profile the manifest declares selects silently.
   */
  lemma ProfileScopeShape(manifest: Option<Json>, profile: Option<string>)
    ensures var s := ProfileScope(manifest, profile);
      && (profile.None? ==> s == Scope(ManifestIds(manifest), false, []))
      && (s.usageError <==> |s.ms| == 1)
      && (s.usageError ==> s.selected == [] && s.ms[0].level == Error && s.ms[0].code == "PROFILE_NOT_FOUND")
      && (profile.Some? ==>
            (s.usageError <==> !(ManifestObject(manifest).Some?
                                  && (Listed(ManifestObject(manifest).value, profile.value)
                                      || Mapped(ManifestObject(manifest).value, profile.value)))))
  {
  }

  /** The profile block of `validate`. */
  method ApplyProfile(report: ValidationReport, manifest: Option<Json>, profile: Option<string>, manifestIds: seq<string>)
    returns (selected: seq<string>, usageError: bool)
    requires manifestIds == ManifestIds(manifest)
    modifies report
    ensures selected == ProfileScope(manifest, profile).selected && usageError == ProfileScope(manifest, profile).usageError
    ensures SummaryOf(report) == Said(old(SummaryOf(report)), ProfileScope(manifest, profile).ms)
  {
    selected, usageError := manifestIds, false;
    if profile.Some? {
      selected, usageError := ResolveProfileSelection(ManifestObject(manifest), profile.value, report);
    }
    ghost var ms := ProfileScope(manifest, profile).ms;
    UniformCount(ms, Error, Warning);
    SaidBy(old(SummaryOf(report)), SummaryOf(report), ms);
  }

  // ------------------------------------------------------------ one artifact

  /** `$profile !== null && !in_array($artifactId, $selectedIds, true)`. */
  predicate Skipped(profile: Option<string>, selected: seq<string>, art: Json)
  {
    profile.Some? && ObjectsPhp.StringOrEmpty(art, "id") !in selected
  }

  /** The entry `new ArtifactResult(...)` builds for an artifact: only values of the right type are kept. */
  function NewView(art: Json): ArtifactView
  {
    ArtifactView(ObjectsPhp.StringOrEmpty(art, "id"), StrProp(art, "mediaType"), StrProp(art, "path"),
                 IntProp(art, "size"), None, StrProp(art, "digest"), None, StatusOk, [])
  }

  /** Where the artifact's file is: the one error that stops the checks, or the resolved path of a regular file. */
  datatype Located = Unlocated(detail: Detail) | Found(path: string)

  function Locate(ctx: Context, art: Json): (r: Located)
    // a file is found exactly when the path is a non-empty string the sandbox accepts and names a regular file
    ensures r.Found? <==>
      && StrProp(art, "path").Some? && StrProp(art, "path").value != ""
      && SafePath.Resolve(ctx.opts.root, StrProp(art, "path").value).ok
      && IsFile(ctx.h, SafePath.Resolve(ctx.opts.root, StrProp(art, "path").value).path.value)
    ensures r.Found? ==> r.path == SafePath.Resolve(ctx.opts.root, StrProp(art, "path").value).path.value
    ensures r.Unlocated? ==> r.detail.level == Error && r.detail.line.None?
    ensures r.Unlocated? && (StrProp(art, "path").None? || StrProp(art, "path").value == "") ==>
      r.detail == Detail(Error, "INVALID_PATH", "Missing path", None)
    ensures r.Unlocated? && StrProp(art, "path").Some? && StrProp(art, "path").value != ""
            && !SafePath.Resolve(ctx.opts.root, StrProp(art, "path").value).ok ==>
      r.detail == Detail(Error, "INVALID_PATH", SafePath.Resolve(ctx.opts.root, StrProp(art, "path").value).message.value, None)
    ensures r.Unlocated? && StrProp(art, "path").Some? && StrProp(art, "path").value != ""
            && SafePath.Resolve(ctx.opts.root, StrProp(art, "path").value).ok ==>
      r.detail == Detail(Error, "MISSING_FILE", "Artifact file not found", None)
  {
    match StrProp(art, "path")
    case None => Unlocated(Detail(Error, "INVALID_PATH", "Missing path", None))
    case Some(path) =>
      if path == "" then Unlocated(Detail(Error, "INVALID_PATH", "Missing path", None))
      else
        var safe := SafePath.Resolve(ctx.opts.root, path);
        if !safe.ok || safe.path.None? then
          Unlocated(Detail(Error, "INVALID_PATH", if safe.message.Some? then safe.message.value else "Invalid path", None))
        else if !IsFile(ctx.h, safe.path.value) then Unlocated(Detail(Error, "MISSING_FILE", "Artifact file not found", None))
        else Found(safe.path.value)
  }

  /** `(string) $sizeActual`: a failed `filesize` prints as the empty string. */
  function SizeText(size: Option<int>): string
  {
    if size.Some? then IntToString(size.value) else ""
  }

  /** The size check: only an integer declared size is compared, and an unreadable size never matches. */
  function SizeDetails(art: Json, actual: Option<int>): (ds: seq<Detail>)
    ensures ds != [] <==> IntProp(art, "size").Some? && actual != IntProp(art, "size")
    ensures forall d :: d in ds ==> d.level == Error && d.code == "SIZE_MISMATCH"
  {
    match IntProp(art, "size")
    case Some(n) =>
      if actual != Some(n) then [Detail(Error, "SIZE_MISMATCH", "File size mismatch: " + SizeText(actual) + " != " + IntToString(n), None)]
      else []
    case None => []
  }

  /** PHP `filesize` as the entry records it. */
  function MeasuredSize(h: Host, p: string): (r: Option<int>)
    ensures r.Some? <==> FileSize(h, p).Some?
    ensures r.Some? ==> r.value == FileSize(h, p).value
  {
    match FileSize(h, p)
    case Some(n) => Some(n)
    case None => None
  }

  /** The digest the entry records, and the details the digest check adds. */
  datatype DigestCheck = DigestCheck(actual: Option<string>, details: seq<Detail>)

  function CheckDigest(ctx: Context, art: Json, p: string): (r: DigestCheck)
    ensures |r.details| <= 1 && forall d :: d in r.details ==> d.level == Error && d.code == "DIGEST_MISMATCH"
    // skipped when digests are off or the declared digest is not a non-empty string
    ensures ctx.opts.skipDigest || StrProp(art, "digest").None? || StrProp(art, "digest").value == "" ==>
      r == DigestCheck(None, [])
    // otherwise a readable file's digest is recorded, and it must equal the declared one
    ensures !ctx.opts.skipDigest && StrProp(art, "digest").Some? && StrProp(art, "digest").value != "" ==>
      && (r.actual.Some? <==> Readable(ctx.h, p))
      && (r.actual.Some? ==> r.actual.value == "sha256:" + ctx.h.sha256(ctx.h.tree[p].data))
      && (r.details == [] <==> r.actual == StrProp(art, "digest"))
  {
    match StrProp(art, "digest")
    case None => DigestCheck(None, [])
    case Some(declared) =>
      if ctx.opts.skipDigest || declared == "" then DigestCheck(None, [])
      else
        match ComputeSha256(ctx.h, p)
        case Ok(d) =>
          DigestCheck(Some(d), if d != declared then [Detail(Error, "DIGEST_MISMATCH", "Digest mismatch: " + d + " != " + declared, None)]
                               else [])
        case Failure(e) => DigestCheck(None, [Detail(Error, "DIGEST_MISMATCH", "Digest calculation error: " + e, None)])
  }

  const EntityGraphType: string := "application/vnd.sitepack.entity-graph+ndjson"
  const ConfigKvType: string := "application/vnd.sitepack.config-kv+ndjson"
  const RecordsetType: string := "application/vnd.sitepack.recordset+ndjson"
  const CapabilitiesType: string := "application/vnd.sitepack.capabilities+json"
  const TransformPlanType: string := "application/vnd.sitepack.transform-plan+json"
  const ObjectIndexType: string := "application/vnd.sitepack.object-index+json"
  const ObjectPassportType: string := "application/vnd.sitepack.object-passport+json"

  /** `$ndjsonMap`: the NDJSON media types and their schema names. */
  function NdjsonSchema(mediaType: string): Option<string>
  {
    if mediaType == EntityGraphType then Some("entity")
    else if mediaType == AssetPhp.AssetIndexType then Some("asset-index")
    else if mediaType == ConfigKvType then Some("config-kv")
    else if mediaType == RecordsetType then Some("recordset")
    else None
  }

  /** `$jsonMap`: the JSON media types and their schema names. */
  function JsonSchema(mediaType: string): Option<string>
  {
    if mediaType == CapabilitiesType then Some("capabilities")
    else if mediaType == TransformPlanType then Some("transform-plan")
    else if mediaType == ObjectIndexType then Some("object-index")
    else if mediaType == ObjectPassportType then Some("object-passport")
    else None
  }

  /** The two maps share no media type, so the NDJSON branch always wins its own types. */
  lemma MapsDisjoint(mediaType: string)
    ensures !(NdjsonSchema(mediaType).Some? && JsonSchema(mediaType).Some?)
  {
  }

  /**
   * The checks of a JSON artifact: it must read and decode, then pass its
   * schema; one that decodes to anything but an object throws (`None`).
   */
  function JsonDetails(ctx: Context, p: string, schemaName: string): (r: Option<seq<Detail>>)
    ensures r.None? <==> PhpReadJson(ctx.h, p).Parsed? && !PhpReadJson(ctx.h, p).value.JObj?
    ensures r.Some? ==> forall d :: d in r.value ==> d.level == Error && d.line.None?
    ensures PhpReadJson(ctx.h, p).ParseFailed? ==> r == Some([Detail(Error, "INVALID_JSON", "Failed to read JSON artifact", None)])
    ensures PhpReadJson(ctx.h, p).Parsed? && r.Some? ==>
      var verdict := ctx.schema(schemaName, PhpReadJson(ctx.h, p).value);
      && (verdict.valid ==> r.value == [])
      && (!verdict.valid ==>
            |r.value| == |verdict.errors|
            && forall i :: 0 <= i < |r.value| ==> r.value[i] == Detail(Error, "SCHEMA_VALIDATION_FAILED", verdict.errors[i], None))
  {
    match PhpReadJson(ctx.h, p)
    case ParseFailed(_) => Some([Detail(Error, "INVALID_JSON", "Failed to read JSON artifact", None)])
    case Parsed(data) =>
      if !data.JObj? then None
      else
        var verdict := ctx.schema(schemaName, data);
        if verdict.valid then Some([])
        else Some(seq(|verdict.errors|, i requires 0 <= i < |verdict.errors| =>
                        Detail(Error, "SCHEMA_VALIDATION_FAILED", verdict.errors[i], None)))
  }

  /** What the media-type dispatch adds: details, and the NDJSON lines it counted. */
  datatype Dispatched = Dispatched(details: seq<Detail>, lines: nat)

  /** `is_string($artifact->mediaType ?? null) ? $artifact->mediaType : ''`. */
  function MediaType(art: Json): string
  {
    if StrProp(art, "mediaType").Some? then StrProp(art, "mediaType").value else ""
  }

  /**
   * Dispatch by media type. `None` is an exception: the one `SplFileObject`
   * raises when `validateFile` cannot open an NDJSON artifact, or the
   * `TypeError` of a JSON artifact that decodes to anything but an object.
   */
  function Dispatch(ctx: Context, art: Json, p: string): (r: Option<Dispatched>)
    // the run stops exactly on an NDJSON artifact that cannot be opened or a JSON artifact that is no object
    ensures r.None? <==>
      || (NdjsonSchema(MediaType(art)).Some? && !Readable(ctx.h, p))
      || (JsonSchema(MediaType(art)).Some? && PhpReadJson(ctx.h, p).Parsed? && !PhpReadJson(ctx.h, p).value.JObj?)
    // an NDJSON artifact gets the line checks, with empty-line warnings and the asset hook
    ensures r.Some? && NdjsonSchema(MediaType(art)).Some? ==>
      var result := NdjsonPhp.Ndjson(NdjsonPhp.SplLines(ctx.h.text(ctx.h.tree[p].data)), ctx.h.parse, ctx.schema,
                                     NdjsonSchema(MediaType(art)).value, true,
                                     Some(AssetPhp.AssetHook(ctx.h, ctx.opts.root, ctx.opts.checkAssetBlobs, MediaType(art))));
      r.value == Dispatched(result.details, result.linesValidated)
    // a JSON artifact gets only the JSON checks and counts no lines
    ensures JsonSchema(MediaType(art)).Some? && r.Some? ==>
      r.value == Dispatched(JsonDetails(ctx, p, JsonSchema(MediaType(art)).value).value, 0)
    // any other type, the empty string included, gets exactly one warning
    ensures NdjsonSchema(MediaType(art)).None? && JsonSchema(MediaType(art)).None? ==>
      r == Some(Dispatched([Detail(Warning, "UNKNOWN_MEDIA_TYPE", "Unknown mediaType: " + MediaType(art), None)], 0))
  {
    var mediaType := MediaType(art);
    match NdjsonSchema(mediaType)
    case Some(name) =>
      if !Readable(ctx.h, p) then None
      else
        var hook := AssetPhp.AssetHook(ctx.h, ctx.opts.root, ctx.opts.checkAssetBlobs, mediaType);
        var result := NdjsonPhp.Ndjson(NdjsonPhp.SplLines(ctx.h.text(ctx.h.tree[p].data)), ctx.h.parse, ctx.schema, name, true, Some(hook));
        Some(Dispatched(result.details, result.linesValidated))
    case None =>
      match JsonSchema(mediaType)
      case Some(name) =>
        (match JsonDetails(ctx, p, name)
         case None => None
         case Some(ds) => Some(Dispatched(ds, 0)))
      case None => Some(Dispatched([Detail(Warning, "UNKNOWN_MEDIA_TYPE", "Unknown mediaType: " + mediaType, None)], 0))
  }

  // ------------------------------------------------------ one entry, generically

  /** The per-artifact decisions the loop consults. */
  datatype Checks = Checks(
    locate: Json -> Located,
    size: string -> Option<int>,
    digest: (Json, string) -> DigestCheck,
    dispatch: (Json, string) -> Option<Dispatched>)

  /** The PHP validator's decisions. */
  function PhpChecks(ctx: Context): Checks
  {
    Checks(art => Locate(ctx, art), p => MeasuredSize(ctx.h, p), (art, p) => CheckDigest(ctx, art, p),
           (art, p) => Dispatch(ctx, art, p))
  }

  /** The entry with its details in place and its status finalized. */
  function Finished(e: ArtifactView, ds: seq<Detail>): ArtifactView
  {
    e.(details := ds, status := DeriveStatus(e.status, ds))
  }

  /** An entry as it is added, and the NDJSON lines it counted. */
  datatype Settled = Settled(entry: ArtifactView, lines: nat)

  /** What one turn of the artifact loop adds; `None` when the turn throws. */
  function Settle(c: Checks, profile: Option<string>, selected: seq<string>, art: Json): Option<Settled>
  {
    if Skipped(profile, selected, art) then Some(Settled(NewView(art).(status := StatusSkipped), 0))
    else
      match c.locate(art)
      case Unlocated(d) => Some(Settled(Finished(NewView(art), [d]), 0))
      case Found(p) =>
        var size, digest := c.size(p), c.digest(art, p);
        match c.dispatch(art, p)
        case None => None
        case Some(d) =>
          var measured := NewView(art).(sizeActual := size, digestActual := digest.actual);
          Some(Settled(Finished(measured, SizeDetails(art, size) + digest.details + d.details), d.lines))
  }

  /**
   * An entry keeps the artifact's id, type, path, size and digest when they
   * have the right type; it is `skipped` exactly when the profile leaves the
   * artifact out, and then it has no details and counts no lines; otherwise
   * its status follows its details.
   */
  lemma SettleShape(c: Checks, profile: Option<string>, selected: seq<string>, art: Json)
    requires Settle(c, profile, selected, art).Some?
    ensures var e := Settle(c, profile, selected, art).value.entry;
      && e.id == ObjectsPhp.StringOrEmpty(art, "id") && e.mediaType == StrProp(art, "mediaType")
      && e.path == StrProp(art, "path") && e.sizeExpected == IntProp(art, "size")
      && e.digestExpected == StrProp(art, "digest")
      && (e.status == StatusSkipped <==> Skipped(profile, selected, art))
      && (Skipped(profile, selected, art) ==> e.details == [] && Settle(c, profile, selected, art).value.lines == 0)
      && (!Skipped(profile, selected, art) ==> e.status == DeriveStatus(StatusOk, e.details))
  {
  }

  /** A missing path, a refused path or a missing file gives exactly one error and no measurements. */
  lemma UnlocatedStops(ctx: Context, profile: Option<string>, selected: seq<string>, art: Json)
    requires !Skipped(profile, selected, art) && Locate(ctx, art).Unlocated?
    ensures Settle(PhpChecks(ctx), profile, selected, art).Some?
    ensures var e := Settle(PhpChecks(ctx), profile, selected, art).value.entry;
      && e.details == [Locate(ctx, art).detail] && e.status == StatusError
      && e.sizeActual.None? && e.digestActual.None?
      && (e.details[0].code == "INVALID_PATH" || e.details[0].code == "MISSING_FILE")
  {
    var e := Settle(PhpChecks(ctx), profile, selected, art).value.entry;
    assert HasLevel(e.details, Error) by {
      assert e.details[0].level == Error;
    }
  }

  /**
   * A found file is measured whatever its checks say: the size is recorded,
   * the digest check runs after a size mismatch, and the entry's details
   * are the size, digest and dispatch details in that order.
   */
  lemma FoundMeasured(ctx: Context, profile: Option<string>, selected: seq<string>, art: Json)
    requires !Skipped(profile, selected, art) && Locate(ctx, art).Found?
    ensures var p := Locate(ctx, art).path;
      && (Settle(PhpChecks(ctx), profile, selected, art).None? <==> Dispatch(ctx, art, p).None?)
      && (Settle(PhpChecks(ctx), profile, selected, art).Some? ==>
            var e := Settle(PhpChecks(ctx), profile, selected, art).value.entry;
            && e.sizeActual == MeasuredSize(ctx.h, p)
            && e.digestActual == CheckDigest(ctx, art, p).actual
            && e.details == SizeDetails(art, MeasuredSize(ctx.h, p)) + CheckDigest(ctx, art, p).details
                            + Dispatch(ctx, art, p).value.details)
  {
  }

  // ---------------------------------------------------------- the loop

  /** The run over the artifacts so far: entries, lines counted, artifacts validated and skipped. */
  datatype Tally = Tally(entries: seq<ArtifactView>, lines: nat, validated: nat, skipped: nat)

  /** The tally after one more entry, for an artifact that was skipped or validated. */
  function Extend(t: Tally, s: Settled, skipped: bool): Tally
  {
    Tally(t.entries + [s.entry], t.lines + s.lines, t.validated + (if skipped then 0 else 1),
          t.skipped + if skipped then 1 else 0)
  }

  /** The artifact loop, artifact by artifact; `None` once an artifact throws. */
  function Run(c: Checks, profile: Option<string>, selected: seq<string>, arts: seq<Json>): Option<Tally>
  {
    if arts == [] then Some(Tally([], 0, 0, 0))
    else
      var art := arts[|arts| - 1];
      match Run(c, profile, selected, arts[..|arts| - 1])
      case None => None
      case Some(t) =>
        match Settle(c, profile, selected, art)
        case None => None
        case Some(s) => Some(Extend(t, s, Skipped(profile, selected, art)))
  }

  /**
   * Each catalog object contributes exactly one entry, in catalog order,
   * and every artifact is either validated or skipped.
   */
  lemma {:induction false} RunShape(c: Checks, profile: Option<string>, selected: seq<string>, arts: seq<Json>)
    requires Run(c, profile, selected, arts).Some?
    ensures var t := Run(c, profile, selected, arts).value;
      && |t.entries| == |arts|
      && (forall k :: 0 <= k < |arts| ==>
            Settle(c, profile, selected, arts[k]).Some? && t.entries[k] == Settle(c, profile, selected, arts[k]).value.entry)
      && t.validated + t.skipped == |arts|
    decreases |arts|
  {
    if arts != [] {
      var init, art := arts[..|arts| - 1], arts[|arts| - 1];
      RunShape(c, profile, selected, init);
      var t0, s := Run(c, profile, selected, init).value, Settle(c, profile, selected, art).value;
      assert Run(c, profile, selected, arts).value == Extend(t0, s, Skipped(profile, selected, art));
      EntriesSnoc(t0.entries, arts, a => Settle(c, profile, selected, a), s);
    }
  }

  /** One more artifact, settled to `s`, adds its entry at the end. */
  lemma EntriesSnoc(entries: seq<ArtifactView>, arts: seq<Json>, settle: Json -> Option<Settled>, s: Settled)
    requires |arts| == |entries| + 1
    requires forall k :: 0 <= k < |entries| ==> settle(arts[..|entries|][k]).Some? && entries[k] == settle(arts[..|entries|][k]).value.entry
    requires settle(arts[|entries|]) == Some(s)
    ensures forall k :: 0 <= k < |arts| ==> settle(arts[k]).Some? && (entries + [s.entry])[k] == settle(arts[k]).value.entry
  {
    forall k | 0 <= k < |arts|
      ensures settle(arts[k]).Some? && (entries + [s.entry])[k] == settle(arts[k]).value.entry
    {
      if k < |entries| {
        assert arts[..|entries|][k] == arts[k];
      }
    }
  }

  /** The run throws exactly when some artifact does. */
  lemma {:induction false} RunThrows(c: Checks, profile: Option<string>, selected: seq<string>, arts: seq<Json>)
    ensures Run(c, profile, selected, arts).None? <==> exists k :: 0 <= k < |arts| && Settle(c, profile, selected, arts[k]).None?
    decreases |arts|
  {
    if arts != [] {
      var init, art := arts[..|arts| - 1], arts[|arts| - 1];
      RunThrows(c, profile, selected, init);
      assert Run(c, profile, selected, arts).None? <==>
        Run(c, profile, selected, init).None? || Settle(c, profile, selected, art).None?;
      ThrowsSnoc(init, arts, a => Settle(c, profile, selected, a), Run(c, profile, selected, init).None?);
    }
  }

  /** Some artifact throws exactly when one before the last does or the last one does. */
  lemma ThrowsSnoc(init: seq<Json>, arts: seq<Json>, settle: Json -> Option<Settled>, before: bool)
    requires |arts| == |init| + 1 && init == arts[..|init|]
    requires before <==> exists k :: 0 <= k < |init| && settle(init[k]).None?
    ensures before || settle(arts[|init|]).None? <==> exists k :: 0 <= k < |arts| && settle(arts[k]).None?
  {
    if before {
      var k :| 0 <= k < |init| && settle(init[k]).None?;
      assert arts[k] == init[k];
    }
    if exists k :: 0 <= k < |arts| && settle(arts[k]).None? {
      var k :| 0 <= k < |arts| && settle(arts[k]).None?;
      if k < |init| {
        assert arts[k] == init[k];
      }
    }
  }

  /** The errors (or warnings) of all entries' details. */
  function EntriesCount(vs: seq<ArtifactView>, l: Level): nat
  {
    if vs == [] then 0 else EntriesCount(vs[..|vs| - 1], l) + DetailCount(vs[|vs| - 1].details, l)
  }

  lemma EntriesCountSnoc(vs: seq<ArtifactView>, v: ArtifactView, l: Level)
    ensures EntriesCount(vs + [v], l) == EntriesCount(vs, l) + DetailCount(v.details, l)
  {
    assert (vs + [v])[..|vs|] == vs;
  }

  // ------------------------------------------------------- the methods

  /** The report's counters the artifact loop moves. */
  datatype Counts = Counts(errors: int, warnings: int, lines: int, validated: int, skipped: int)

  function CountsOf(report: ValidationReport): Counts
    reads report
  {
    Counts(report.errors, report.warnings, report.ndjsonLinesValidated, report.artifactsValidated, report.artifactsSkipped)
  }

  /** The counters after one more entry: its errors and warnings, its lines, and one validated or skipped artifact. */
  function AfterEntry(k: Counts, s: Settled, skipped: bool): Counts
  {
    Counts(k.errors + DetailCount(s.entry.details, Error), k.warnings + DetailCount(s.entry.details, Warning),
           k.lines + s.lines, k.validated + (if skipped then 0 else 1), k.skipped + (if skipped then 1 else 0))
  }

  /** The report fields the artifact loop leaves alone. */
  twostate predicate Untouched(report: ValidationReport)
    reads report
  {
    && report.messages == old(report.messages) && report.artifactsTotal == old(report.artifactsTotal)
    && report.finishedAt == old(report.finishedAt) && report.startedAt == old(report.startedAt)
    && report.targetType == old(report.targetType) && report.targetPath == old(report.targetPath)
  }

  /** `incrementReportLevel($report, $level)`: only `error` and `warning` are tallied. */
  method IncrementReportLevel(report: ValidationReport, level: Level)
    modifies report
    ensures CountsOf(report) == old(CountsOf(report)).(errors := old(report.errors) + (if level == Error then 1 else 0),
                                                      warnings := old(report.warnings) + (if level == Warning then 1 else 0))
    ensures report.artifacts == old(report.artifacts) && Untouched(report)
  {
    if level == Error {
      report.IncrementError();
      return;
    }
    if level == Warning {
      report.IncrementWarning();
    }
  }

  /** Each detail added to the entry and tallied on the report by its level, in order. */
  method AddDetails(report: ValidationReport, entry: ArtifactResult, ds: seq<Detail>)
    modifies report, entry
    ensures entry.Snapshot() == old(entry.Snapshot()).(details := old(entry.details) + ds)
    ensures CountsOf(report) == old(CountsOf(report)).(errors := old(report.errors) + DetailCount(ds, Error),
                                                      warnings := old(report.warnings) + DetailCount(ds, Warning))
    ensures report.artifacts == old(report.artifacts) && Untouched(report)
  {
    for i := 0 to |ds|
      invariant entry.Snapshot() == old(entry.Snapshot()).(details := old(entry.details) + ds[..i])
      invariant CountsOf(report) == old(CountsOf(report)).(errors := old(report.errors) + DetailCount(ds[..i], Error),
                                                          warnings := old(report.warnings) + DetailCount(ds[..i], Warning))
      invariant report.artifacts == old(report.artifacts) && Untouched(report)
    {
      assert ds[..i + 1] == ds[..i] + [ds[i]];
      DetailCountAppend(ds[..i], [ds[i]], Error);
      DetailCountAppend(ds[..i], [ds[i]], Warning);
      entry.AddDetail(ds[i].level, ds[i].code, ds[i].message, ds[i].line);
      IncrementReportLevel(report, ds[i].level);
    }
    assert ds[..|ds|] == ds;
  }

  /** An artifact the profile leaves out: marked skipped and counted, nothing checked. */
  method MarkSkipped(report: ValidationReport, entry: ArtifactResult)
    requires entry.details == []
    modifies report, entry
    ensures entry.Snapshot() == old(entry.Snapshot()).(status := StatusSkipped)
    ensures CountsOf(report) == AfterEntry(old(CountsOf(report)), Settled(entry.Snapshot(), 0), true)
    ensures report.artifacts == old(report.artifacts) && Untouched(report)
  {
    entry.status := StatusSkipped;
    report.IncrementArtifactsSkipped(1);
  }

  /** An artifact whose file was not found: counted as validated, one error, then finalized. */
  method MarkUnlocated(report: ValidationReport, entry: ArtifactResult, detail: Detail)
    requires entry.details == []
    modifies report, entry
    ensures entry.Snapshot() == Finished(old(entry.Snapshot()), [detail])
    ensures CountsOf(report) == AfterEntry(old(CountsOf(report)), Settled(entry.Snapshot(), 0), false)
    ensures report.artifacts == old(report.artifacts) && Untouched(report)
  {
    report.IncrementArtifactsValidated(1);
    AddDetails(report, entry, [detail]);
    assert [] + [detail] == [detail];
    entry.FinalizeStatus();
  }

  /** The measurements of a found file, in order: size, digest, then the dispatch. */
  method Measure(report: ValidationReport, entry: ArtifactResult, size: Option<int>, sizeDetails: seq<Detail>,
                 digest: DigestCheck, dispatched: Option<Dispatched>)
    returns (thrown: bool)
    modifies report, entry
    ensures thrown <==> dispatched.None?
    ensures !thrown ==>
      && entry.Snapshot() == old(entry.Snapshot()).(sizeActual := size, digestActual := digest.actual,
                                                    details := old(entry.details) + sizeDetails + digest.details + dispatched.value.details)
      && CountsOf(report) == old(CountsOf(report)).(
           errors := old(report.errors) + DetailCount(sizeDetails, Error) + DetailCount(digest.details, Error)
                     + DetailCount(dispatched.value.details, Error),
           warnings := old(report.warnings) + DetailCount(sizeDetails, Warning) + DetailCount(digest.details, Warning)
                       + DetailCount(dispatched.value.details, Warning),
           lines := old(report.ndjsonLinesValidated) + dispatched.value.lines)
    ensures report.artifacts == old(report.artifacts) && Untouched(report)
  {
    entry.sizeActual := size;
    AddDetails(report, entry, sizeDetails);
    entry.digestActual := digest.actual;
    AddDetails(report, entry, digest.details);
    if dispatched.None? {
      return true;
    }
    // a JSON or unknown artifact counts no lines, so adding its zero is the branch that skips the call
    report.IncrementNdjsonLinesValidated(dispatched.value.lines);
    AddDetails(report, entry, dispatched.value.details);
    return false;
  }

  /** A found file: counted as validated, measured, hashed, dispatched and finalized. */
  method ExamineFound(report: ValidationReport, entry: ArtifactResult, size: Option<int>, sizeDetails: seq<Detail>,
                      digest: DigestCheck, dispatched: Option<Dispatched>)
    returns (thrown: bool)
    requires entry.details == []
    modifies report, entry
    ensures thrown <==> dispatched.None?
    ensures !thrown ==>
      var ds := sizeDetails + digest.details + dispatched.value.details;
      && entry.Snapshot() == Finished(old(entry.Snapshot()).(sizeActual := size, digestActual := digest.actual), ds)
      && CountsOf(report) == AfterEntry(old(CountsOf(report)), Settled(entry.Snapshot(), dispatched.value.lines), false)
    ensures report.artifacts == old(report.artifacts) && Untouched(report)
  {
    report.IncrementArtifactsValidated(1);
    thrown := Measure(report, entry, size, sizeDetails, digest, dispatched);
    if thrown {
      return;
    }
    assert [] + sizeDetails + digest.details + dispatched.value.details == sizeDetails + digest.details + dispatched.value.details;
    DetailCountThree(sizeDetails, digest.details, dispatched.value.details, Error);
    DetailCountThree(sizeDetails, digest.details, dispatched.value.details, Warning);
    entry.FinalizeStatus();
  }

  lemma SettleSkipped(c: Checks, profile: Option<string>, selected: seq<string>, art: Json)
    requires Skipped(profile, selected, art)
    ensures Settle(c, profile, selected, art) == Some(Settled(NewView(art).(status := StatusSkipped), 0))
  {
  }

  lemma SettleUnlocated(c: Checks, profile: Option<string>, selected: seq<string>, art: Json)
    requires !Skipped(profile, selected, art) && c.locate(art).Unlocated?
    ensures Settle(c, profile, selected, art) == Some(Settled(Finished(NewView(art), [c.locate(art).detail]), 0))
  {
  }

  lemma SettleFound(c: Checks, profile: Option<string>, selected: seq<string>, art: Json)
    requires !Skipped(profile, selected, art) && c.locate(art).Found?
    ensures var p := c.locate(art).path;
      var size, digest, dispatched := c.size(p), c.digest(art, p), c.dispatch(art, p);
      && (Settle(c, profile, selected, art).None? <==> dispatched.None?)
      && (dispatched.Some? ==>
            Settle(c, profile, selected, art).value ==
              Settled(Finished(NewView(art).(sizeActual := size, digestActual := digest.actual),
                               SizeDetails(art, size) + digest.details + dispatched.value.details),
                      dispatched.value.lines))
  {
  }

  /** A turn of the artifact loop up to `addArtifact`: the new entry is checked and finalized. */
  method Examine(report: ValidationReport, entry: ArtifactResult, c: Checks, profile: Option<string>, selected: seq<string>,
                 art: Json)
    returns (thrown: bool)
    requires entry.Snapshot() == NewView(art)
    modifies report, entry
    ensures thrown <==> Settle(c, profile, selected, art).None?
    ensures !thrown ==>
      && entry.Snapshot() == Settle(c, profile, selected, art).value.entry
      && CountsOf(report) == AfterEntry(old(CountsOf(report)), Settle(c, profile, selected, art).value, Skipped(profile, selected, art))
    ensures report.artifacts == old(report.artifacts) && Untouched(report)
  {
    if profile.Some? && ObjectsPhp.StringOrEmpty(art, "id") !in selected {
      SettleSkipped(c, profile, selected, art);
      MarkSkipped(report, entry);
      return false;
    }
    var located := c.locate(art);
    if located.Unlocated? {
      SettleUnlocated(c, profile, selected, art);
      MarkUnlocated(report, entry, located.detail);
      return false;
    }
    var p := located.path;
    var size, digest, dispatched := c.size(p), c.digest(art, p), c.dispatch(art, p);
    SettleFound(c, profile, selected, art);
    thrown := ExamineFound(report, entry, size, SizeDetails(art, size), digest, dispatched);
  }

  /** One turn of the artifact loop: the entry is built, checked, finalized and added. */
  method CheckArtifact(report: ValidationReport, c: Checks, profile: Option<string>, selected: seq<string>, art: Json)
    returns (thrown: bool)
    modifies report
    ensures thrown <==> Settle(c, profile, selected, art).None?
    ensures !thrown ==>
      && report.artifacts == old(report.artifacts) + [Settle(c, profile, selected, art).value.entry]
      && CountsOf(report) == AfterEntry(old(CountsOf(report)), Settle(c, profile, selected, art).value, Skipped(profile, selected, art))
    ensures Untouched(report)
  {
    var entry := new ArtifactResult(ObjectsPhp.StringOrEmpty(art, "id"), StrProp(art, "mediaType"), StrProp(art, "path"),
                                    IntProp(art, "size"), StrProp(art, "digest"));
    thrown := Examine(report, entry, c, profile, selected, art);
    if !thrown {
      report.AddArtifact(entry);
    }
  }

  /** One more artifact extends the run by its entry. */
  lemma RunStep(c: Checks, profile: Option<string>, selected: seq<string>, arts: seq<Json>, i: nat)
    requires i < |arts| && Run(c, profile, selected, arts[..i]).Some? && Settle(c, profile, selected, arts[i]).Some?
    ensures Run(c, profile, selected, arts[..i + 1]) ==
      Some(Extend(Run(c, profile, selected, arts[..i]).value, Settle(c, profile, selected, arts[i]).value,
                  Skipped(profile, selected, arts[i])))
  {
    assert arts[..i + 1][..i] == arts[..i];
  }

  /** The counters the report holds for a tally. */
  function TallyCounts(t: Tally, errors0: int, warnings0: int): Counts
  {
    Counts(errors0 + EntriesCount(t.entries, Error), warnings0 + EntriesCount(t.entries, Warning),
           t.lines, t.validated, t.skipped)
  }

  /** The report holds the run's tally `t`, its counters adding the entries' details to where the loop started. */
  predicate Tallied(report: ValidationReport, t: Tally, errors0: int, warnings0: int)
    reads report
  {
    report.artifacts == t.entries && CountsOf(report) == TallyCounts(t, errors0, warnings0)
  }

  /** One more entry moves the counters as it extends the tally. */
  lemma TallyCountsStep(t: Tally, s: Settled, skipped: bool, errors0: int, warnings0: int)
    ensures TallyCounts(Extend(t, s, skipped), errors0, warnings0) == AfterEntry(TallyCounts(t, errors0, warnings0), s, skipped)
  {
    EntriesCountSnoc(t.entries, s.entry, Error);
    EntriesCountSnoc(t.entries, s.entry, Warning);
  }

  /** The loop has run over `done` without throwing, and the report holds its tally. */
  predicate Reached(report: ValidationReport, c: Checks, profile: Option<string>, selected: seq<string>, done: seq<Json>,
                    errors0: int, warnings0: int)
    reads report
  {
    Run(c, profile, selected, done).Some? && Tallied(report, Run(c, profile, selected, done).value, errors0, warnings0)
  }

  /** One turn of the artifact loop, taking the tally from `arts[..i]` to `arts[..i + 1]`. */
  method Advance(report: ValidationReport, c: Checks, profile: Option<string>, selected: seq<string>, arts: seq<Json>, i: nat,
                 ghost errors0: int, ghost warnings0: int)
    returns (thrown: bool)
    requires i < |arts| && Reached(report, c, profile, selected, arts[..i], errors0, warnings0)
    modifies report
    ensures thrown <==> Settle(c, profile, selected, arts[i]).None?
    ensures thrown ==> Run(c, profile, selected, arts).None?
    ensures !thrown ==> Reached(report, c, profile, selected, arts[..i + 1], errors0, warnings0)
    ensures Untouched(report)
  {
    ghost var t := Run(c, profile, selected, arts[..i]).value;
    var art := arts[i];
    thrown := CheckArtifact(report, c, profile, selected, art);
    if thrown {
      RunThrows(c, profile, selected, arts);
      return;
    }
    RunStep(c, profile, selected, arts, i);
    TallyCountsStep(t, Settle(c, profile, selected, art).value, Skipped(profile, selected, art), errors0, warnings0);
  }

  /** The artifact loop of `validate`: one entry per catalog object, in catalog order. */
  method CheckArtifacts(report: ValidationReport, c: Checks, profile: Option<string>, selected: seq<string>, arts: seq<Json>)
    returns (thrown: bool)
    requires report.artifacts == [] && report.artifactsValidated == 0 && report.artifactsSkipped == 0
    requires report.ndjsonLinesValidated == 0
    modifies report
    ensures thrown <==> Run(c, profile, selected, arts).None?
    ensures !thrown ==> Tallied(report, Run(c, profile, selected, arts).value, old(report.errors), old(report.warnings))
    ensures Untouched(report)
  {
    thrown := false;
    var i := 0;
    assert arts[..0] == [];
    while i < |arts|
      invariant 0 <= i <= |arts|
      invariant Reached(report, c, profile, selected, arts[..i], old(report.errors), old(report.warnings))
      invariant Untouched(report)
    {
      thrown := Advance(report, c, profile, selected, arts, i, old(report.errors), old(report.warnings));
      if thrown {
        return;
      }
      i := i + 1;
    }
    assert arts[..|arts|] == arts;
  }

  // ------------------------------------------------------------ the run

  /** What the run decides before the artifact loop. */
  datatype Plan = Plan(arts: seq<Json>, profile: Option<string>, selected: seq<string>, usageError: bool, ms: seq<Message>)

  function ManifestPath(ctx: Context): string
  {
    Render(ctx.opts.root + [ManifestFile])
  }

  function CatalogPath(ctx: Context): string
  {
    Render(ctx.opts.root + [CatalogFile])
  }

  function ManifestLoad(ctx: Context): Option<Loaded>
  {
    LoadJson(ctx.h, ctx.schema, ManifestPath(ctx), "manifest")
  }

  function CatalogLoad(ctx: Context): Option<Loaded>
  {
    LoadJson(ctx.h, ctx.schema, CatalogPath(ctx), "catalog")
  }

  /** The work before the artifact loop; `None` when loading the manifest or the catalog throws. */
  function Prepare(ctx: Context): Option<Plan>
  {
    match (ManifestLoad(ctx), CatalogLoad(ctx))
    case (Some(manifest), Some(catalog)) =>
      var arts := CatalogArtifacts(catalog.doc);
      var scope := ProfileScope(manifest.doc, ctx.opts.profile);
      Some(Plan(arts, ctx.opts.profile, scope.selected, scope.usageError,
                manifest.ms + catalog.ms + (CrossCheck(ManifestIds(manifest.doc), CatalogIds(arts)) + scope.ms)))
    case _ => None
  }

  /**
   * The plan's parts, as the run produces them one phase at a time; there is
   * no plan exactly when a document decodes to something other than an object.
   */
  lemma PrepareParts(ctx: Context)
    ensures Prepare(ctx).None? <==> ManifestLoad(ctx).None? || CatalogLoad(ctx).None?
    ensures Prepare(ctx).Some? ==>
      var manifest, arts := ManifestLoad(ctx).value.doc, CatalogArtifacts(CatalogLoad(ctx).value.doc);
      && Prepare(ctx).value.arts == arts && Prepare(ctx).value.profile == ctx.opts.profile
      && Prepare(ctx).value.selected == ProfileScope(manifest, ctx.opts.profile).selected
      && Prepare(ctx).value.usageError == ProfileScope(manifest, ctx.opts.profile).usageError
      && Prepare(ctx).value.ms == ManifestLoad(ctx).value.ms + CatalogLoad(ctx).value.ms
                                  + (CrossCheck(ManifestIds(manifest), CatalogIds(arts)) + ProfileScope(manifest, ctx.opts.profile).ms)
  {
  }

  function ObjectsLayer(ctx: Context): ObjectsPhp.Layer
  {
    ObjectsPhp.Layer(ctx.h, ctx.opts.root, ctx.schema)
  }

  /** The report just before the artifact loop: the plan's messages counted by level, the artifact total, nothing else yet. */
  function Start(p: Plan, targetPath: string, startedAt: string): Summary
  {
    Said(Summary([], [], 0, 0, |p.arts|, 0, 0, 0, startedAt, None, "package", targetPath), p.ms)
  }

  /** The report once the artifact loop, the object layer and `markFinished` have run. */
  function Finish(s: Summary, t: Tally, layer: seq<Message>, finishedAt: string): Summary
  {
    Said(s, layer).(artifacts := t.entries,
                    errors := s.errors + MessageCount(layer, Error) + EntriesCount(t.entries, Error),
                    warnings := s.warnings + MessageCount(layer, Warning) + EntriesCount(t.entries, Warning),
                    validated := t.validated, skipped := t.skipped, lines := t.lines,
                    finishedAt := Some(finishedAt))
  }

  /** The report a run produces from its plan, its artifact checks and its object layer, or `None` when it throws. */
  function Outcome(p: Plan, c: Checks, layer: ObjectsPhp.Layer, targetPath: string, startedAt: string, finishedAt: string)
    : Option<Summary>
  {
    match (Run(c, p.profile, p.selected, p.arts), ObjectsPhp.LayerMessages(layer, p.arts))
    case (Some(t), Some(ms)) => Some(Finish(Start(p, targetPath, startedAt), t, ms, finishedAt))
    case _ => None
  }

  /** The PHP package run. */
  function PackageOutcome(ctx: Context, startedAt: string, finishedAt: string): Option<Summary>
  {
    match Prepare(ctx)
    case None => None
    case Some(p) => Outcome(p, PhpChecks(ctx), ObjectsLayer(ctx), Render(ctx.opts.root), startedAt, finishedAt)
  }

  /**
   * A finished report lists the plan's messages (loading, cross-check,
   * profile), then the object layer's; one entry per catalog object, each
   * validated or skipped; and tallies that count every message and every
   * detail by level.
   */
  lemma OutcomeShape(p: Plan, c: Checks, layer: ObjectsPhp.Layer, targetPath: string, startedAt: string, finishedAt: string)
    requires Outcome(p, c, layer, targetPath, startedAt, finishedAt).Some?
    ensures var r := Outcome(p, c, layer, targetPath, startedAt, finishedAt).value;
      && |r.artifacts| == r.total == |p.arts| && r.validated + r.skipped == r.total
      && r.messages[..|p.ms|] == p.ms
      && r.errors == MessageCount(r.messages, Error) + EntriesCount(r.artifacts, Error)
      && r.warnings == MessageCount(r.messages, Warning) + EntriesCount(r.artifacts, Warning)
      && r.startedAt == startedAt && r.finishedAt == Some(finishedAt)
      && r.targetType == "package" && r.targetPath == targetPath
  {
    var t := Run(c, p.profile, p.selected, p.arts).value;
    var ms := ObjectsPhp.LayerMessages(layer, p.arts).value;
    RunShape(c, p.profile, p.selected, p.arts);
    MessageCountAppend(p.ms, ms, Error);
    MessageCountAppend(p.ms, ms, Warning);
    assert [] + p.ms == p.ms;
    assert (p.ms + ms)[..|p.ms|] == p.ms;
  }

  /** A run throws exactly when one of its artifacts does or the object layer does. */
  lemma OutcomeThrows(p: Plan, c: Checks, layer: ObjectsPhp.Layer, targetPath: string, startedAt: string, finishedAt: string)
    ensures Outcome(p, c, layer, targetPath, startedAt, finishedAt).None? <==>
      || (exists k :: 0 <= k < |p.arts| && Settle(c, p.profile, p.selected, p.arts[k]).None?)
      || ObjectsPhp.LayerMessages(layer, p.arts).None?
  {
    RunThrows(c, p.profile, p.selected, p.arts);
  }

  /** The documents loaded, then the artifact total set; a document that is no object throws. */
  method LoadDocuments(report: ValidationReport, ctx: Context) returns (manifest: Option<Json>, catalog: Option<Json>, thrown: bool)
    modifies report
    ensures thrown <==> ManifestLoad(ctx).None? || CatalogLoad(ctx).None?
    ensures !thrown ==> manifest == ManifestLoad(ctx).value.doc && catalog == CatalogLoad(ctx).value.doc
    ensures !thrown ==> SummaryOf(report) == Said(old(SummaryOf(report)), ManifestLoad(ctx).value.ms + CatalogLoad(ctx).value.ms)
  {
    catalog := None;
    manifest, thrown := Load(report, ctx.h, ctx.schema, ManifestPath(ctx), "manifest");
    if thrown {
      return;
    }
    catalog, thrown := Load(report, ctx.h, ctx.schema, CatalogPath(ctx), "catalog");
    if thrown {
      return;
    }
    SaidTwice(old(SummaryOf(report)), ManifestLoad(ctx).value.ms, CatalogLoad(ctx).value.ms);
  }

  /** The cross-check and the profile block, once the documents are loaded. */
  method Prelude(report: ValidationReport, ctx: Context, manifest: Option<Json>, arts: seq<Json>)
    returns (selected: seq<string>, usageError: bool)
    modifies report
    ensures selected == ProfileScope(manifest, ctx.opts.profile).selected
    ensures usageError == ProfileScope(manifest, ctx.opts.profile).usageError
    ensures SummaryOf(report) == Said(old(SummaryOf(report)), CrossCheck(ManifestIds(manifest), CatalogIds(arts))
                                                              + ProfileScope(manifest, ctx.opts.profile).ms)
  {
    var manifestIds := ManifestIds(manifest);
    CrossCheckIds(report, manifestIds, CatalogIds(arts));
    selected, usageError := ApplyProfile(report, manifest, ctx.opts.profile, manifestIds);
    SaidTwice(old(SummaryOf(report)), CrossCheck(manifestIds, CatalogIds(arts)), ProfileScope(manifest, ctx.opts.profile).ms);
  }

  /**
   * `validate` up to the artifact loop: a fresh report, the documents loaded,
   * cross-checked and scoped; it throws exactly when there is no plan.
   */
  method Begin(ctx: Context, startedAt: string) returns (report: ValidationReport, arts: seq<Json>, selected: seq<string>,
                                                         usageError: bool, thrown: bool)
    ensures fresh(report)
    ensures thrown <==> Prepare(ctx).None?
    ensures !thrown ==>
      && arts == Prepare(ctx).value.arts && selected == Prepare(ctx).value.selected
      && usageError == Prepare(ctx).value.usageError
      && SummaryOf(report) == Start(Prepare(ctx).value, Render(ctx.opts.root), startedAt)
  {
    PrepareParts(ctx);
    report := new ValidationReport(ctx.opts.tool, "package", Render(ctx.opts.root), startedAt);
    arts, selected, usageError := [], [], false;
    ghost var s0 := SummaryOf(report);
    var manifest, catalog;
    manifest, catalog, thrown := LoadDocuments(report, ctx);
    if thrown {
      return;
    }
    arts := CatalogArtifacts(catalog);
    report.SetArtifactsTotal(|arts|);
    ghost var loads := ManifestLoad(ctx).value.ms + CatalogLoad(ctx).value.ms;
    ghost var checks := CrossCheck(ManifestIds(manifest), CatalogIds(arts)) + ProfileScope(manifest, ctx.opts.profile).ms;
    assert SummaryOf(report) == Said(s0.(total := |arts|), loads);
    selected, usageError := Prelude(report, ctx, manifest, arts);
    SaidTwice(s0.(total := |arts|), loads, checks);
  }

  /** `validate` from the artifact loop on: the entries, the object layer, then the finish time. */
  method Complete(report: ValidationReport, c: Checks, layer: ObjectsPhp.Layer, profile: Option<string>, selected: seq<string>,
                  arts: seq<Json>, finishedAt: string)
    returns (thrown: bool)
    requires report.artifacts == [] && report.artifactsValidated == 0 && report.artifactsSkipped == 0
    requires report.ndjsonLinesValidated == 0
    modifies report
    ensures thrown <==> Run(c, profile, selected, arts).None? || ObjectsPhp.LayerMessages(layer, arts).None?
    ensures !thrown ==>
      SummaryOf(report) == Finish(old(SummaryOf(report)), Run(c, profile, selected, arts).value,
                                  ObjectsPhp.LayerMessages(layer, arts).value, finishedAt)
  {
    thrown := CheckArtifacts(report, c, profile, selected, arts);
    if thrown {
      return;
    }
    thrown := ObjectsPhp.ValidateObjectsLayer(report, layer, arts);
    if thrown {
      return;
    }
    ObjectsPhp.PhpLayerOnlyErrors(layer, arts);
    UniformCount(ObjectsPhp.LayerMessages(layer, arts).value, Error, Warning);
    report.MarkFinished(finishedAt);
  }

  /**
   * `validate($packageRoot, $profile, $skipDigest, $checkAssetBlobs, $toolInfo)`
   * up to writing the report, which is not part of this model; `usageError`
   * is the profile block's.
   */
  method Validate(ctx: Context, startedAt: string, finishedAt: string)
    returns (report: ValidationReport, usageError: bool, thrown: bool)
    ensures fresh(report)
    ensures thrown <==> PackageOutcome(ctx, startedAt, finishedAt).None?
    ensures !thrown ==> usageError == Prepare(ctx).value.usageError
    ensures !thrown ==> SummaryOf(report) == PackageOutcome(ctx, startedAt, finishedAt).value
  {
    var arts, selected;
    report, arts, selected, usageError, thrown := Begin(ctx, startedAt);
    if thrown {
      return;
    }
    thrown := Complete(report, PhpChecks(ctx), ObjectsLayer(ctx), ctx.opts.profile, selected, arts, finishedAt);
  }
}
