/**
 * Model of `validatePackage` in the Node validator. The manifest and the
 * catalog are read and schema-checked, their artifact lists are cross-checked,
 * a `--profile` narrows the artifacts to validate, and every catalog artifact
 * then gets one report entry: skipped, or located, measured, hashed and
 * dispatched by media type to the NDJSON or JSON checks. The object layer
 * runs last over the artifacts that were validated.
 *
 * The per-artifact decisions are functions (`Locate`, `FileDetails`,
 * `CheckDigest`, `Dispatch`, `Settle`); the loops and the report updates are
 * methods proved to apply them.
 */
module PackageNode {
  import opened Common
  import opened Strings
  import opened JsonDoc
  import opened Env
  import opened Lexical
  import opened PathSafe
  import opened JsonValidate
  import opened Digest
  import opened NodeReport
  import opened ProfileNode
  import NdjsonNode
  import AssetNode
  import ObjectsNode
  import ObjectGraph
  import opened ArtifactsNode

  const ManifestFile: string := "sitepack.manifest.json"
  const CatalogFile: string := "sitepack.catalog.json"

  // ---------------------------------------------------------------- loading

  /** A document as the run holds it (`null` until it parses), and the messages reading it produced. */
  datatype Loaded = Loaded(doc: Option<Json>, ms: seq<Message>)

  /** One error per formatted schema error, all with the same code; none when the document is accepted. */
  function SchemaMessages(outcome: SchemaOutcome, code: string): (ms: seq<Message>)
    ensures |ms| == |outcome.errors|
    ensures forall i :: 0 <= i < |ms| ==> ms[i] == Message(Error, code, outcome.errors[i].message)
  {
    // `validateWithSchema` leaves no errors on an accepted document
    seq(|outcome.errors|, i requires 0 <= i < |outcome.errors| => Message(Error, code, outcome.errors[i].message))
  }

  /**
   * Reading the manifest or the catalog: `file` is its name, `name` the word
   * in the parse message and `prefix` the start of every code.
   */
  function LoadDocument(h: Host, p: string, validator: Validator, file: string, name: string, prefix: string): (r: Loaded)
    // the document is held exactly when the file exists and parses
    ensures r.doc.Some? <==> Exists(h, p) && ReadJson(h, p).Parsed?
    ensures r.doc.Some? ==> r.doc.value == ReadJson(h, p).value
    ensures forall m :: m in r.ms ==> m.level == Error
    // silent exactly when the document parses and the schema raised nothing
    ensures r.ms == [] <==> r.doc.Some? && (validator(r.doc.value).valid || ReportedErrors(validator(r.doc.value)) == [])
    ensures !Exists(h, p) ==> r.ms == [Message(Error, prefix + "_MISSING", file + " not found")]
    ensures Exists(h, p) && ReadJson(h, p).ParseFailed? ==>
      |r.ms| == 1 && r.ms[0].code == prefix + "_PARSE_ERROR"
    ensures r.doc.Some? ==> forall m :: m in r.ms ==> m.code == prefix + "_SCHEMA_ERROR"
  {
    if !Exists(h, p) then Loaded(None, [Message(Error, prefix + "_MISSING", file + " not found")])
    else
      match ReadJson(h, p)
      case ParseFailed(reason) =>
        Loaded(None, [Message(Error, prefix + "_PARSE_ERROR", "Failed to read " + name + ": " + reason)])
      case Parsed(data) =>
        Loaded(Some(data), SchemaMessages(ValidateWithSchema(validator, data), prefix + "_SCHEMA_ERROR"))
  }

  /** The report fields other than the message list and the error and warning tallies. */
  datatype Progress = Progress(artifacts: seq<Entry>, total: int, validated: int, skipped: int, lines: int,
                               startedAt: string, finishedAt: Option<string>)

  function ProgressOf(report: Report): Progress
    reads report
  {
    Progress(report.artifacts, report.artifactsTotal, report.artifactsValidated, report.artifactsSkipped,
             report.ndjsonLinesValidated, report.startedAt, report.finishedAt)
  }

  /** The step touched only the message list and the tallies. */
  twostate predicate OnlyTallies(report: Report)
    reads report
  {
    ProgressOf(report) == old(ProgressOf(report))
  }

  /** The manifest or catalog block of `validatePackage`. */
  method Load(report: Report, h: Host, p: string, validator: Validator, file: string, name: string, prefix: string)
    returns (doc: Option<Json>)
    modifies report
    ensures doc == LoadDocument(h, p, validator, file, name, prefix).doc
    ensures report.messages == old(report.messages) + LoadDocument(h, p, validator, file, name, prefix).ms
    ensures report.errors == old(report.errors) + MessageCount(LoadDocument(h, p, validator, file, name, prefix).ms, Error)
    ensures report.warnings == old(report.warnings) + MessageCount(LoadDocument(h, p, validator, file, name, prefix).ms, Warning)
    ensures OnlyTallies(report)
  {
    doc := None;
    if !Exists(h, p) {
      MessageCountAppend([], [Message(Error, prefix + "_MISSING", file + " not found")], Error);
      AddMessage(report, Error, prefix + "_MISSING", file + " not found");
      return;
    }
    var result := ReadJson(h, p);
    if result.ParseFailed? {
      AddMessage(report, Error, prefix + "_PARSE_ERROR", "Failed to read " + name + ": " + result.reason);
      return;
    }
    doc := Some(result.value);
    var validation := ValidateWithSchema(validator, result.value);
    AddMessages(report, SchemaMessages(validation, prefix + "_SCHEMA_ERROR"));
  }

  // ------------------------------------------------------------ cross-check

  /** `Array.isArray(catalog?.artifacts) ? catalog.artifacts : []`. */
  function CatalogArtifacts(catalog: Option<Json>): seq<Json>
  {
    match PropOf(catalog, "artifacts")
    case Some(JArr(items)) => items
    case _ => []
  }

  /** `catalogArtifacts.map((item) => item.id)`. */
  function Ids(arts: seq<Json>): (r: seq<Option<Json>>)
    ensures |r| == |arts| && forall i :: 0 <= i < |r| ==> r[i] == Prop(arts[i], "id")
  {
    seq(|arts|, i requires 0 <= i < |arts| => Prop(arts[i], "id"))
  }

  function NotInCatalog(id: Option<Json>): Message
  {
    Message(Error, "MANIFEST_ARTIFACT_MISSING", "Artifact '" + Display(id) + "' is listed in manifest but missing in catalog")
  }

  function NotInManifest(id: Option<Json>): Message
  {
    Message(Warning, "CATALOG_ARTIFACT_EXTRA", "Artifact '" + Display(id) + "' is missing from manifest.artifacts")
  }

  /** The body of the loop over the manifest ids. */
  function ManifestStep(catalogIds: seq<Option<Json>>): Option<Json> -> seq<Message>
  {
    id => if JsIn(id, catalogIds) then [] else [NotInCatalog(id)]
  }

  /** The body of the loop over the catalog artifacts. */
  function CatalogStep(manifestIds: seq<Option<Json>>): Json -> seq<Message>
  {
    art => if JsIn(Prop(art, "id"), manifestIds) then [] else [NotInManifest(Prop(art, "id"))]
  }

  /** The two loops of the manifest/catalog cross-check. */
  function CrossCheck(manifestIds: seq<Option<Json>>, arts: seq<Json>): seq<Message>
  {
    Flatten(ManifestStep(Ids(arts)), manifestIds) + Flatten(CatalogStep(manifestIds), arts)
  }

  /**
   * A manifest id the catalog lacks is an error and a catalog id the manifest
   * lacks is a warning: each message names such an id, and every such id is named.
   */
  lemma CrossCheckReports(manifestIds: seq<Option<Json>>, arts: seq<Json>, id: Option<Json>)
    ensures NotInCatalog(id) in CrossCheck(manifestIds, arts) <==>
      exists x :: x in manifestIds && Display(x) == Display(id) && !JsIn(x, Ids(arts))
    ensures NotInManifest(id) in CrossCheck(manifestIds, arts) <==>
      exists a :: a in arts && Display(Prop(a, "id")) == Display(id) && !JsIn(Prop(a, "id"), manifestIds)
  {
    var front, back := Flatten(ManifestStep(Ids(arts)), manifestIds), Flatten(CatalogStep(manifestIds), arts);
    FlattenMember(ManifestStep(Ids(arts)), manifestIds, NotInCatalog(id));
    FlattenMember(ManifestStep(Ids(arts)), manifestIds, NotInManifest(id));
    FlattenMember(CatalogStep(manifestIds), arts, NotInCatalog(id));
    FlattenMember(CatalogStep(manifestIds), arts, NotInManifest(id));
    forall x | NotInCatalog(id) in ManifestStep(Ids(arts))(x)
      ensures Display(x) == Display(id)
    {
      Framed("Artifact '", Display(x), Display(id), "' is listed in manifest but missing in catalog");
    }
    forall a | NotInManifest(id) in CatalogStep(manifestIds)(a)
      ensures Display(Prop(a, "id")) == Display(id)
    {
      Framed("Artifact '", Display(Prop(a, "id")), Display(id), "' is missing from manifest.artifacts");
    }
  }

  /** The loop over the manifest ids: an error for each id the catalog lacks. */
  method CheckManifestIds(report: Report, manifestIds: seq<Option<Json>>, catalogIds: seq<Option<Json>>)
    modifies report
    ensures report.messages == old(report.messages) + Flatten(ManifestStep(catalogIds), manifestIds)
    ensures report.errors == old(report.errors) + |Flatten(ManifestStep(catalogIds), manifestIds)|
    ensures report.warnings == old(report.warnings)
    ensures OnlyTallies(report)
  {
    for i := 0 to |manifestIds|
      invariant report.messages == old(report.messages) + Flatten(ManifestStep(catalogIds), manifestIds[..i])
      invariant report.errors == old(report.errors) + |Flatten(ManifestStep(catalogIds), manifestIds[..i])|
      invariant report.warnings == old(report.warnings)
      invariant OnlyTallies(report)
    {
      FlattenSnoc(ManifestStep(catalogIds), manifestIds, i);
      if !JsIn(manifestIds[i], catalogIds) {
        AddMessage(report, Error, "MANIFEST_ARTIFACT_MISSING",
                   "Artifact '" + Display(manifestIds[i]) + "' is listed in manifest but missing in catalog");
      }
    }
    assert manifestIds[..|manifestIds|] == manifestIds;
  }

  /** The loop over the catalog artifacts: a warning for each id the manifest lacks. */
  method CheckCatalogIds(report: Report, manifestIds: seq<Option<Json>>, arts: seq<Json>)
    modifies report
    ensures report.messages == old(report.messages) + Flatten(CatalogStep(manifestIds), arts)
    ensures report.warnings == old(report.warnings) + |Flatten(CatalogStep(manifestIds), arts)|
    ensures report.errors == old(report.errors)
    ensures OnlyTallies(report)
  {
    for i := 0 to |arts|
      invariant report.messages == old(report.messages) + Flatten(CatalogStep(manifestIds), arts[..i])
      invariant report.warnings == old(report.warnings) + |Flatten(CatalogStep(manifestIds), arts[..i])|
      invariant report.errors == old(report.errors)
      invariant OnlyTallies(report)
    {
      FlattenSnoc(CatalogStep(manifestIds), arts, i);
      if !JsIn(Prop(arts[i], "id"), manifestIds) {
        AddMessage(report, Warning, "CATALOG_ARTIFACT_EXTRA",
                   "Artifact '" + Display(Prop(arts[i], "id")) + "' is missing from manifest.artifacts");
      }
    }
    assert arts[..|arts|] == arts;
  }

  // ---------------------------------------------------------------- profile

  /** The order in which a JavaScript `Set` built from `xs` yields its members: first occurrences only. */
  function Distinct(xs: seq<Option<Json>>): (r: seq<Option<Json>>)
    ensures |r| <= |xs|
  {
    if xs == [] then []
    else
      var init := xs[..|xs| - 1];
      Distinct(init) + if JsIn(xs[|xs| - 1], init) then [] else [xs[|xs| - 1]]
  }

  /** `Distinct` keeps exactly the elements of its input. */
  lemma {:induction false} DistinctMembers(xs: seq<Option<Json>>, x: Option<Json>)
    ensures x in Distinct(xs) <==> x in xs
    decreases |xs|
  {
    if xs != [] {
      var init, last := xs[..|xs| - 1], xs[|xs| - 1];
      assert xs == init + [last];
      DistinctMembers(init, x);
      if JsIn(last, init) {
        // a dropped repeat is already in `init`
        var j :| 0 <= j < |init| && JsSame(last, init[j]);
        JsSameEqual(last, init[j]);
        assert Distinct(xs) == Distinct(init);
      } else {
        assert Distinct(xs) == Distinct(init) + [last];
      }
    }
  }

  function NotInCatalogForProfile(id: Option<Json>, profile: string): Message
  {
    Message(Error, "PROFILE_ARTIFACT_MISSING", "Artifact '" + Display(id) + ("' is missing in catalog for profile '" + profile + "'"))
  }

  /** The body of the loop over the profile's selected ids. */
  function ProfileStep(catalogIds: seq<Option<Json>>, profile: string): Option<Json> -> seq<Message>
  {
    id => if JsIn(id, catalogIds) then [] else [NotInCatalogForProfile(id, profile)]
  }

  /** Which artifacts the profile keeps (`None`: every catalog artifact), and the messages choosing them produced. */
  datatype Scope = Scope(selected: Option<seq<Option<Json>>>, ms: seq<Message>)

  function ProfileScope(manifest: Option<Json>, profile: string, catalogIds: seq<Option<Json>>): Scope
  {
    if profile == "" then Scope(None, [])
    else if !JsTruthy(manifest) then
      Scope(None, [Message(Error, "PROFILE_NO_MANIFEST", "Cannot apply profile filter without manifest")])
    else
      var c := ChooseProfile(manifest, profile);
      Scope(Some(c.selection.selectedIds), Complaints(c) + Missing(catalogIds, profile, c.selection))
  }

  /**
   * No profile keeps everything silently; a profile without a manifest keeps
   * everything with one error; otherwise the profile's selection decides.
   * Choosing the scope only ever reports errors.
   */
  lemma ProfileScopeShape(manifest: Option<Json>, profile: string, catalogIds: seq<Option<Json>>)
    ensures var s := ProfileScope(manifest, profile, catalogIds);
      && (profile == "" ==> s == Scope(None, []))
      && (profile != "" && !JsTruthy(manifest) ==>
            s == Scope(None, [Message(Error, "PROFILE_NO_MANIFEST", "Cannot apply profile filter without manifest")]))
      && (profile != "" && JsTruthy(manifest) ==> s.selected == Some(ChooseProfile(manifest, profile).selection.selectedIds))
      && (forall m :: m in s.ms ==> m.level == Error)
  {
  }

  /** The errors for a mapped profile's ids that the catalog lacks, each id once; nothing for a flat list or a fallback. */
  function Missing(catalogIds: seq<Option<Json>>, profile: string, selection: Selection): (ms: seq<Message>)
    ensures forall m :: m in ms ==> m.level == Error
  {
    if selection.usedProfileMap then
      var missing := Flatten(ProfileStep(catalogIds, profile), Distinct(selection.selectedIds));
      assert forall m :: m in missing ==> m.level == Error by {
        forall m | m in missing ensures m.level == Error {
          FlattenMember(ProfileStep(catalogIds, profile), Distinct(selection.selectedIds), m);
        }
      }
      missing
    else []
  }

  /** The loop over a mapped profile's distinct ids names exactly the ids the catalog lacks. */
  lemma ProfileStepReports(catalogIds: seq<Option<Json>>, profile: string, ids: seq<Option<Json>>, id: Option<Json>)
    ensures NotInCatalogForProfile(id, profile) in Flatten(ProfileStep(catalogIds, profile), Distinct(ids)) <==>
      exists x :: x in ids && Display(x) == Display(id) && !JsIn(x, catalogIds)
  {
    if NotInCatalogForProfile(id, profile) in Flatten(ProfileStep(catalogIds, profile), Distinct(ids)) {
      ProfileStepNamesMissing(catalogIds, profile, ids, id);
    }
    if exists x :: x in ids && Display(x) == Display(id) && !JsIn(x, catalogIds) {
      var x :| x in ids && Display(x) == Display(id) && !JsIn(x, catalogIds);
      ProfileStepReportsMissing(catalogIds, profile, ids, x, id);
    }
  }

  /** Every error of the profile loop names an id of the profile that the catalog lacks. */
  lemma ProfileStepNamesMissing(catalogIds: seq<Option<Json>>, profile: string, ids: seq<Option<Json>>, id: Option<Json>)
    requires NotInCatalogForProfile(id, profile) in Flatten(ProfileStep(catalogIds, profile), Distinct(ids))
    ensures exists x :: x in ids && Display(x) == Display(id) && !JsIn(x, catalogIds)
  {
    var step := ProfileStep(catalogIds, profile);
    FlattenMember(step, Distinct(ids), NotInCatalogForProfile(id, profile));
    var x :| x in Distinct(ids) && NotInCatalogForProfile(id, profile) in step(x);
    DistinctMembers(ids, x);
    Framed("Artifact '", Display(x), Display(id), ("' is missing in catalog for profile '" + profile + "'"));
  }

  /** An id of the profile that the catalog lacks is reported, under whatever id displays the same. */
  lemma ProfileStepReportsMissing(catalogIds: seq<Option<Json>>, profile: string, ids: seq<Option<Json>>, x: Option<Json>, id: Option<Json>)
    requires x in ids && Display(x) == Display(id) && !JsIn(x, catalogIds)
    ensures NotInCatalogForProfile(id, profile) in Flatten(ProfileStep(catalogIds, profile), Distinct(ids))
  {
    var step := ProfileStep(catalogIds, profile);
    DistinctMembers(ids, x);
    assert NotInCatalogForProfile(id, profile) in step(x);
    FlattenMember(step, Distinct(ids), NotInCatalogForProfile(id, profile));
  }

  /**
   * A mapped profile that names an id the catalog lacks is reported; a flat
   * list or a fallback never is.
   */
  lemma ProfileMissingReported(manifest: Option<Json>, profile: string, catalogIds: seq<Option<Json>>, id: Option<Json>)
    ensures NotInCatalogForProfile(id, profile) in ProfileScope(manifest, profile, catalogIds).ms <==>
      && profile != "" && JsTruthy(manifest)
      && ChooseProfile(manifest, profile).selection.usedProfileMap
      && exists x :: x in ChooseProfile(manifest, profile).selection.selectedIds
                     && Display(x) == Display(id) && !JsIn(x, catalogIds)
  {
    if profile != "" && JsTruthy(manifest) {
      var c := ChooseProfile(manifest, profile);
      var m := NotInCatalogForProfile(id, profile);
      assert m !in Complaints(c) by {
        if c.complaint.Some? {
          assert c.complaint.value.code != m.code;
        }
      }
      if c.selection.usedProfileMap {
        ProfileStepReports(catalogIds, profile, c.selection.selectedIds, id);
      }
    }
  }

  /** The profile block of `validatePackage`. */
  method ApplyProfile(report: Report, manifest: Option<Json>, profile: string, catalogIds: seq<Option<Json>>)
    returns (selected: Option<seq<Option<Json>>>)
    modifies report
    ensures selected == ProfileScope(manifest, profile, catalogIds).selected
    ensures SummaryOf(report) == Said(old(SummaryOf(report)), ProfileScope(manifest, profile, catalogIds).ms)
  {
    selected := None;
    if profile == "" {
      assert SummaryOf(report).messages + [] == SummaryOf(report).messages;
      return;
    }
    if !JsTruthy(manifest) {
      AddMessage(report, Error, "PROFILE_NO_MANIFEST", "Cannot apply profile filter without manifest");
      SaidBy(old(SummaryOf(report)), SummaryOf(report), ProfileScope(manifest, profile, catalogIds).ms);
      return;
    }
    selected := ApplyChosen(report, manifest, profile, catalogIds);
  }

  /** The profile block once there is a profile and a manifest: select, then report the mapped ids the catalog lacks. */
  method ApplyChosen(report: Report, manifest: Option<Json>, profile: string, catalogIds: seq<Option<Json>>)
    returns (selected: Option<seq<Option<Json>>>)
    requires profile != "" && JsTruthy(manifest)
    modifies report
    ensures selected == ProfileScope(manifest, profile, catalogIds).selected
    ensures SummaryOf(report) == Said(old(SummaryOf(report)), ProfileScope(manifest, profile, catalogIds).ms)
  {
    ProfileScopeChosen(manifest, profile, catalogIds);
    ghost var complaints := Complaints(ChooseProfile(manifest, profile));
    ComplaintCounts(ChooseProfile(manifest, profile));
    var selection := SelectArtifactsForProfile(manifest, profile, report);
    selected := Some(selection.selectedIds);
    ghost var chosen := SummaryOf(report);
    SaidBy(old(SummaryOf(report)), chosen, complaints);
    ReportMissing(report, catalogIds, profile, selection);
    SaidTwice(old(SummaryOf(report)), complaints, Missing(catalogIds, profile, selection));
  }

  /** The one complaint a profile choice may raise is an error. */
  lemma ComplaintCounts(c: Choice)
    requires c.complaint.Some? ==> c.complaint.value.level == Error
    ensures MessageCount(Complaints(c), Error) == |Complaints(c)| && MessageCount(Complaints(c), Warning) == 0
  {
    if c.complaint.Some? {
      assert Complaints(c)[..0] == [];
    }
  }

  /** With a profile and a manifest, the scope is the chosen selection, its complaint, then the missing ids. */
  lemma ProfileScopeChosen(manifest: Option<Json>, profile: string, catalogIds: seq<Option<Json>>)
    requires profile != "" && JsTruthy(manifest)
    ensures var c := ChooseProfile(manifest, profile);
      ProfileScope(manifest, profile, catalogIds) ==
        Scope(Some(c.selection.selectedIds), Complaints(c) + Missing(catalogIds, profile, c.selection))
  {
  }

  /** After the selection: the mapped ids the catalog lacks, when the map was used. */
  method ReportMissing(report: Report, catalogIds: seq<Option<Json>>, profile: string, selection: Selection)
    modifies report
    ensures SummaryOf(report) == Said(old(SummaryOf(report)), Missing(catalogIds, profile, selection))
  {
    var missing := Missing(catalogIds, profile, selection);
    if selection.usedProfileMap {
      UniformCount(missing, Error, Warning);
      ReportMissingForProfile(report, Distinct(selection.selectedIds), catalogIds, profile);
      SaidBy(old(SummaryOf(report)), SummaryOf(report), missing);
    } else {
      assert SummaryOf(report).messages + [] == SummaryOf(report).messages;
    }
  }

  /** The loop over a mapped profile's distinct ids: one error for each id the catalog lacks. */
  method ReportMissingForProfile(report: Report, ids: seq<Option<Json>>, catalogIds: seq<Option<Json>>, profile: string)
    modifies report
    ensures report.messages == old(report.messages) + Flatten(ProfileStep(catalogIds, profile), ids)
    ensures report.errors == old(report.errors) + |Flatten(ProfileStep(catalogIds, profile), ids)|
    ensures report.warnings == old(report.warnings)
    ensures OnlyTallies(report)
  {
    ghost var step := ProfileStep(catalogIds, profile);
    for i := 0 to |ids|
      invariant report.messages == old(report.messages) + Flatten(step, ids[..i])
      invariant report.errors == old(report.errors) + |Flatten(step, ids[..i])|
      invariant report.warnings == old(report.warnings)
      invariant OnlyTallies(report)
    {
      FlattenSnoc(step, ids, i);
      if !JsIn(ids[i], catalogIds) {
        AddMessage(report, Error, "PROFILE_ARTIFACT_MISSING",
                   "Artifact '" + Display(ids[i]) + ("' is missing in catalog for profile '" + profile + "'"));
      }
    }
    assert ids[..|ids|] == ids;
  }

  // ------------------------------------------------------------ the run

  /** What the run decides before the artifact loop. */
  datatype Plan = Plan(manifest: Option<Json>, arts: seq<Json>, selected: Option<seq<Option<Json>>>, ms: seq<Message>)

  function ManifestPath(ctx: Context): string
  {
    Render(ctx.opts.root + [ManifestFile])
  }

  function CatalogPath(ctx: Context): string
  {
    Render(ctx.opts.root + [CatalogFile])
  }

  function ManifestLoad(ctx: Context): Loaded
  {
    LoadDocument(ctx.h, ManifestPath(ctx), ctx.v.manifest, ManifestFile, "manifest", "MANIFEST")
  }

  function CatalogLoad(ctx: Context): Loaded
  {
    LoadDocument(ctx.h, CatalogPath(ctx), ctx.v.catalog, CatalogFile, "catalog", "CATALOG")
  }

  function Prepare(ctx: Context): Plan
  {
    var manifest, catalog := ManifestLoad(ctx), CatalogLoad(ctx);
    var arts := CatalogArtifacts(catalog.doc);
    var scope := ProfileScope(manifest.doc, ctx.opts.profile, Ids(arts));
    Plan(manifest.doc, arts, scope.selected,
         manifest.ms + catalog.ms + CrossCheck(ManifestArtifacts(manifest.doc), arts) + scope.ms)
  }

  /** The plan's parts, as the run produces them one phase at a time. */
  lemma PrepareParts(ctx: Context)
    ensures var manifest, arts := ManifestLoad(ctx).doc, CatalogArtifacts(CatalogLoad(ctx).doc);
      && Prepare(ctx).arts == arts
      && Prepare(ctx).selected == ProfileScope(manifest, ctx.opts.profile, Ids(arts)).selected
      && Prepare(ctx).ms == ManifestLoad(ctx).ms + CatalogLoad(ctx).ms
                            + (CrossCheck(ManifestArtifacts(manifest), arts) + ProfileScope(manifest, ctx.opts.profile, Ids(arts)).ms)
  {
  }

  function ObjectsLayer(ctx: Context): ObjectsNode.Layer
  {
    ObjectsNode.Layer(ctx.h, ctx.opts.root)
  }

  // ------------------------------------------------------------ tallies

  /** What a package report holds, besides the tool and target names. */
  datatype Summary = Summary(messages: seq<Message>, artifacts: seq<Entry>, errors: int, warnings: int,
                             total: int, validated: int, skipped: int, lines: int,
                             startedAt: string, finishedAt: Option<string>)

  function SummaryOf(report: Report): Summary
    reads report
  {
    Summary(report.messages, report.artifacts, report.errors, report.warnings, report.artifactsTotal,
            report.artifactsValidated, report.artifactsSkipped, report.ndjsonLinesValidated,
            report.startedAt, report.finishedAt)
  }

  /** `ms` appended to the message list, each message counted under its own level. */
  function Said(s: Summary, ms: seq<Message>): Summary
  {
    s.(messages := s.messages + ms, errors := s.errors + MessageCount(ms, Error),
       warnings := s.warnings + MessageCount(ms, Warning))
  }

  /** Saying two batches is saying them together. */
  lemma SaidTwice(s: Summary, a: seq<Message>, b: seq<Message>)
    ensures Said(Said(s, a), b) == Said(s, a + b)
  {
    MessageCountAppend(a, b, Error);
    MessageCountAppend(a, b, Warning);
    assert s.messages + a + b == s.messages + (a + b);
  }

  /** A step that adds `ms` through `addMessage` and changes nothing else leaves the report `Said(old, ms)`. */
  lemma SaidBy(before: Summary, after: Summary, ms: seq<Message>)
    requires after.messages == before.messages + ms
    requires after.errors == before.errors + MessageCount(ms, Error)
    requires after.warnings == before.warnings + MessageCount(ms, Warning)
    requires after.(messages := before.messages, errors := before.errors, warnings := before.warnings) == before
    ensures after == Said(before, ms)
  {
  }

  /** The manifest loop reports only errors, the catalog loop only warnings. */
  lemma CrossCheckCounts(manifestIds: seq<Option<Json>>, arts: seq<Json>)
    ensures var front := Flatten(ManifestStep(Ids(arts)), manifestIds);
      MessageCount(front, Error) == |front| && MessageCount(front, Warning) == 0
    ensures var back := Flatten(CatalogStep(manifestIds), arts);
      MessageCount(back, Warning) == |back| && MessageCount(back, Error) == 0
  {
    var front, back := Flatten(ManifestStep(Ids(arts)), manifestIds), Flatten(CatalogStep(manifestIds), arts);
    forall m | m in front
      ensures m.level == Error
    {
      FlattenMember(ManifestStep(Ids(arts)), manifestIds, m);
    }
    forall m | m in back
      ensures m.level == Warning
    {
      FlattenMember(CatalogStep(manifestIds), arts, m);
    }
    UniformCount(front, Error, Warning);
    UniformCount(back, Warning, Error);
  }

  // ------------------------------------------------------------ the phases

  /** The manifest block, then the catalog block. */
  method LoadDocuments(report: Report, ctx: Context) returns (manifest: Option<Json>, catalog: Option<Json>)
    modifies report
    ensures manifest == ManifestLoad(ctx).doc && catalog == CatalogLoad(ctx).doc
    ensures SummaryOf(report) == Said(old(SummaryOf(report)), ManifestLoad(ctx).ms + CatalogLoad(ctx).ms)
  {
    manifest := Load(report, ctx.h, ManifestPath(ctx), ctx.v.manifest, ManifestFile, "manifest", "MANIFEST");
    ghost var middle := SummaryOf(report);
    SaidBy(old(SummaryOf(report)), middle, ManifestLoad(ctx).ms);
    catalog := Load(report, ctx.h, CatalogPath(ctx), ctx.v.catalog, CatalogFile, "catalog", "CATALOG");
    SaidBy(middle, SummaryOf(report), CatalogLoad(ctx).ms);
    SaidTwice(old(SummaryOf(report)), ManifestLoad(ctx).ms, CatalogLoad(ctx).ms);
  }

  /** The two cross-check loops: errors for manifest ids the catalog lacks, then warnings for catalog ids the manifest lacks. */
  method CrossCheckIds(report: Report, manifestIds: seq<Option<Json>>, arts: seq<Json>)
    modifies report
    ensures SummaryOf(report) == Said(old(SummaryOf(report)), CrossCheck(manifestIds, arts))
  {
    ghost var front, back := Flatten(ManifestStep(Ids(arts)), manifestIds), Flatten(CatalogStep(manifestIds), arts);
    CrossCheckCounts(manifestIds, arts);
    CheckManifestIds(report, manifestIds, Ids(arts));
    ghost var middle := SummaryOf(report);
    SaidBy(old(SummaryOf(report)), middle, front);
    CheckCatalogIds(report, manifestIds, arts);
    SaidBy(middle, SummaryOf(report), back);
    SaidTwice(old(SummaryOf(report)), front, back);
  }

  /** The cross-check and the profile block, once the documents are loaded. */
  method Prelude(report: Report, ctx: Context, manifest: Option<Json>, arts: seq<Json>)
    returns (selected: Option<seq<Option<Json>>>)
    modifies report
    ensures selected == ProfileScope(manifest, ctx.opts.profile, Ids(arts)).selected
    ensures SummaryOf(report) == Said(old(SummaryOf(report)), CrossCheck(ManifestArtifacts(manifest), arts)
                                                              + ProfileScope(manifest, ctx.opts.profile, Ids(arts)).ms)
  {
    CrossCheckIds(report, ManifestArtifacts(manifest), arts);
    selected := ApplyProfile(report, manifest, ctx.opts.profile, Ids(arts));
    SaidTwice(old(SummaryOf(report)), CrossCheck(ManifestArtifacts(manifest), arts),
              ProfileScope(manifest, ctx.opts.profile, Ids(arts)).ms);
  }

  /** The report just before the artifact loop: the plan's messages counted by level, the artifact total, nothing else yet. */
  function Start(p: Plan, startedAt: string): Summary
  {
    Said(Summary([], [], 0, 0, |p.arts|, 0, 0, 0, startedAt, None), p.ms)
  }

  /** The report once the artifact loop, the object layer and `finalizeReport` have run. */
  function Finish(s: Summary, t: Tally, layer: seq<Message>, finishedAt: string): Summary
  {
    Said(s, layer).(artifacts := t.entries,
                    errors := s.errors + MessageCount(layer, Error) + EntriesCount(t.entries, Error),
                    warnings := s.warnings + MessageCount(layer, Warning) + EntriesCount(t.entries, Warning),
                    validated := |t.validated|, skipped := t.skipped, lines := t.lines,
                    finishedAt := Some(finishedAt))
  }

  /**
   * The report a run produces from its plan, its artifact checks and its
   * object layer, or `None` when it throws: on a `null` catalog artifact
   * (reading its `id`), when an artifact check throws, or when the object
   * layer does.
   */
  function Outcome(p: Plan, c: Checks, layer: ObjectsNode.Layer, startedAt: string, finishedAt: string): Option<Summary>
  {
    if JNull in p.arts then None
    else
      match Run(c, p.selected, p.arts)
      case None => None
      case Some(t) =>
        match ObjectsNode.LayerMessages(layer, p.arts, t.validated)
        case None => None
        case Some(ms) => Some(Finish(Start(p, startedAt), t, ms, finishedAt))
  }

  /** The Node package run. */
  function PackageOutcome(ctx: Context, startedAt: string, finishedAt: string): Option<Summary>
  {
    Outcome(Prepare(ctx), NodeChecks(ctx), ObjectsLayer(ctx), startedAt, finishedAt)
  }

  /**
   * A finished report lists the plan's messages (loading, cross-check,
   * profile), then the object layer's; one entry per catalog artifact, each
   * validated or skipped; and tallies that count every message and every
   * detail by level.
   */
  lemma OutcomeShape(p: Plan, c: Checks, layer: ObjectsNode.Layer, startedAt: string, finishedAt: string)
    requires Outcome(p, c, layer, startedAt, finishedAt).Some?
    ensures var r := Outcome(p, c, layer, startedAt, finishedAt).value;
      && |r.artifacts| == r.total == |p.arts| && r.validated + r.skipped == r.total
      && r.messages[..|p.ms|] == p.ms
      && r.errors == MessageCount(r.messages, Error) + EntriesCount(r.artifacts, Error)
      && r.warnings == MessageCount(r.messages, Warning) + EntriesCount(r.artifacts, Warning)
      && r.startedAt == startedAt && r.finishedAt == Some(finishedAt)
  {
    var t := Run(c, p.selected, p.arts).value;
    var ms := ObjectsNode.LayerMessages(layer, p.arts, t.validated).value;
    RunShape(c, p.selected, p.arts);
    MessageCountAppend(p.ms, ms, Error);
    MessageCountAppend(p.ms, ms, Warning);
    assert [] + p.ms == p.ms;
    assert (p.ms + ms)[..|p.ms|] == p.ms;
  }

  /**
   * A run throws exactly on a `null` catalog artifact, an artifact whose
   * checks throw, or an object layer that throws once every artifact was
   * checked.
   */
  lemma OutcomeThrows(p: Plan, c: Checks, layer: ObjectsNode.Layer, startedAt: string, finishedAt: string)
    ensures Outcome(p, c, layer, startedAt, finishedAt).None? <==>
      || JNull in p.arts
      || (exists k :: 0 <= k < |p.arts| && Settle(c, p.selected, p.arts[k]).None?)
      || (Run(c, p.selected, p.arts).Some?
          && ObjectsNode.LayerMessages(layer, p.arts, Run(c, p.selected, p.arts).value.validated).None?)
  {
    RunThrows(c, p.selected, p.arts);
  }

  /** `validatePackage` up to the artifact loop: a fresh report, the documents loaded, cross-checked and scoped. */
  method Begin(ctx: Context, startedAt: string) returns (report: Report, arts: seq<Json>, selected: Option<seq<Option<Json>>>, thrown: bool)
    ensures fresh(report)
    ensures arts == Prepare(ctx).arts
    ensures thrown <==> JNull in arts
    ensures !thrown ==> selected == Prepare(ctx).selected && SummaryOf(report) == Start(Prepare(ctx), startedAt)
  {
    PrepareParts(ctx);
    report := new Report(ctx.opts.toolName, ctx.opts.toolVersion, "package", Render(ctx.opts.root), startedAt);
    ghost var s0 := SummaryOf(report);
    var manifest, catalog := LoadDocuments(report, ctx);
    arts := CatalogArtifacts(catalog);
    report.artifactsTotal := |arts|;
    selected := None;
    thrown := JNull in arts;
    if thrown {
      // `catalogArtifacts.map((item) => item.id)` reads a property of `null`
      return;
    }
    ghost var loads := ManifestLoad(ctx).ms + CatalogLoad(ctx).ms;
    ghost var checks := CrossCheck(ManifestArtifacts(manifest), arts) + ProfileScope(manifest, ctx.opts.profile, Ids(arts)).ms;
    ghost var s1 := SummaryOf(report);
    assert s1 == Said(s0.(total := |arts|), loads);
    selected := Prelude(report, ctx, manifest, arts);
    SaidTwice(s0.(total := |arts|), loads, checks);
  }

  /** `validatePackage` from the artifact loop on: the entries, the object layer, then the finish time. */
  method Complete(report: Report, c: Checks, layer: ObjectsNode.Layer, selected: Option<seq<Option<Json>>>, arts: seq<Json>,
                  finishedAt: string)
    returns (thrown: bool)
    requires report.artifacts == [] && report.artifactsValidated == 0 && report.artifactsSkipped == 0
    requires report.ndjsonLinesValidated == 0
    modifies report
    ensures thrown <==> Run(c, selected, arts).None?
                        || ObjectsNode.LayerMessages(layer, arts, Run(c, selected, arts).value.validated).None?
    ensures !thrown ==>
      SummaryOf(report) == Finish(old(SummaryOf(report)), Run(c, selected, arts).value,
                                  ObjectsNode.LayerMessages(layer, arts, Run(c, selected, arts).value.validated).value, finishedAt)
  {
    var validatedIds;
    validatedIds, thrown := CheckArtifacts(report, c, selected, arts);
    if thrown {
      return;
    }
    thrown := ObjectsNode.ValidateObjectsLayer(report, layer, arts, validatedIds);
    if thrown {
      return;
    }
    FinalizeReport(report, finishedAt);
  }

  /** `validatePackage(options)` up to writing the report, which is not part of this model. */
  method ValidatePackage(ctx: Context, startedAt: string, finishedAt: string) returns (report: Report, thrown: bool)
    ensures fresh(report)
    ensures thrown <==> PackageOutcome(ctx, startedAt, finishedAt).None?
    ensures !thrown ==> SummaryOf(report) == PackageOutcome(ctx, startedAt, finishedAt).value
  {
    var arts, selected;
    report, arts, selected, thrown := Begin(ctx, startedAt);
    if thrown {
      return;
    }
    thrown := Complete(report, NodeChecks(ctx), ObjectsLayer(ctx), selected, arts, finishedAt);
  }
}
