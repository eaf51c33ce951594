/**
 * Model of `validateObjectsLayer` in the Node validator: every catalog
 * artifact of the object-index type names an index file; each object the
 * index lists names a passport file, whose identity and references are
 * checked against the index and the catalog. Every problem is an error
 * message on the report; nothing is attached to an artifact entry.
 */
module ObjectsNode {
  import opened Common
  import opened Strings
  import opened JsonDoc
  import opened Env
  import opened Lexical
  import opened PathSafe
  import opened NodeReport
  import opened ObjectGraph

  /** Node's blank test (`!x.trim()`), object test (`typeof x === 'object' && x`) and dataset code. */
  const Node: Dialect := Dialect(JsBlank, s => JsObjectLike(Some(s)), "OBJECT_PASSPORT_DATASET_MISSING")

  /**
   * What the layer consults besides the catalog: the file tree and the
   * package root. The two schema validators it names, `objectIndex` and
   * `objectPassport`, are never built by the schema loader, so the layer
   * holds none.
   */
  datatype Layer = Layer(h: Host, base: Dir)

  /** `artifactIds`: the string ids of the catalog. */
  function CatalogIds(catalog: seq<Json>): set<string>
  {
    if catalog == [] then {}
    else CatalogIds(catalog[..|catalog| - 1])
         + if StrProp(catalog[|catalog| - 1], "id").Some? then {StrProp(catalog[|catalog| - 1], "id").value} else {}
  }

  /** The catalog ids are exactly the string `id`s of the catalog's artifacts. */
  lemma {:induction false} CatalogIdsMembers(catalog: seq<Json>, id: string)
    ensures id in CatalogIds(catalog) <==> exists a :: a in catalog && StrProp(a, "id") == Some(id)
    decreases |catalog|
  {
    if catalog != [] {
      var init, last := catalog[..|catalog| - 1], catalog[|catalog| - 1];
      assert catalog == init + [last];
      CatalogIdsMembers(init, id);
      if exists a :: a in catalog && StrProp(a, "id") == Some(id) {
        var a :| a in catalog && StrProp(a, "id") == Some(id);
        if a != last {
          assert a in init;
        }
      }
    }
  }

  /** `artifactByPath.get(p)`: the last catalog artifact whose `path` is the string `p`, since later entries overwrite earlier ones. */
  function PathOwner(catalog: seq<Json>, p: string): (r: Option<Json>)
    ensures r.Some? ==> r.value in catalog && StrProp(r.value, "path") == Some(p)
    ensures r.None? ==> forall a :: a in catalog ==> StrProp(a, "path") != Some(p)
  {
    if catalog == [] then None
    else
      var init := catalog[..|catalog| - 1];
      var last := catalog[|catalog| - 1];
      assert catalog == init + [last];
      if StrProp(last, "path") == Some(p) then Some(last) else PathOwner(init, p)
  }

  /** `passportArtifact?.id`: the id of the catalog artifact that owns the passport path, `undefined` when none does. */
  function OwnerId(owner: Option<Json>): Option<Json>
  {
    if owner.Some? then Prop(owner.value, "id") else None
  }

  /**
   * What a parsed passport contributes. `validators.objectPassport` is
   * `undefined`, so a passport whose owning artifact was not validated in
   * the artifact loop throws a `TypeError` when it is schema-checked
   * (`None`); any other passport is checked for identity and references
   * only.
   */
  function PassportMessages(ids: set<string>, validatedIds: seq<Option<Json>>, owner: Option<Json>,
                            objectId: string, data: Json): (r: Option<seq<Message>>)
    ensures r.None? <==> !JsIn(OwnerId(owner), validatedIds)
    ensures ErrorsOnly(r)
  {
    if !JsIn(OwnerId(owner), validatedIds) then None
    else
      var objectRef := Prop(data, "objectRef");
      var objectRefId := if objectRef.Some? && StrProp(objectRef.value, "id").Some? then StrProp(objectRef.value, "id").value else "";
      var passportId := if StrProp(data, "id").Some? then StrProp(data, "id").value else "";
      Some(IdentityMessages(objectId, passportId, objectRefId)
           + PassportArtifactsMessages(Node, ids, ArrayProp(data, "artifacts"))
           + DatasetsMessages(Node, ids, ArrayProp(data, "datasets")))
  }

  /** One pass of the loop over `indexResult.data.objects`; it throws only through its passport. */
  function ObjectMessages(layer: Layer, catalog: seq<Json>, validatedIds: seq<Option<Json>>, obj: Json): (r: Option<seq<Message>>)
    ensures ErrorsOnly(r)
    ensures r.None? ==> JsObjectLike(Some(obj)) && StrProp(obj, "passportPath").Some? && StrProp(obj, "id").Some?
                        && PassportAt(layer, catalog, validatedIds, StrProp(obj, "id").value, StrProp(obj, "passportPath").value).None?
  {
    if !JsObjectLike(Some(obj)) then Some([Err("OBJECT_INDEX_ENTRY_INVALID", "Object index entry must be an object")])
    else
      var objectId := if StrProp(obj, "id").Some? then StrProp(obj, "id").value else "";
      var passportPath := if StrProp(obj, "passportPath").Some? then StrProp(obj, "passportPath").value else "";
      if JsBlank(objectId) then Some([Err("OBJECT_INDEX_ENTRY_INVALID", "Object id is missing or invalid")])
      else if JsBlank(passportPath) then
        Some([Err("OBJECT_PASSPORT_PATH_MISSING", "passportPath is missing for object '" + objectId + "'")])
      else
        var notListed :=
          if PathOwner(catalog, passportPath).None? then
            [Err("OBJECT_PASSPORT_NOT_IN_CATALOG", "passportPath is not listed in catalog: " + passportPath)]
          else [];
        match PassportAt(layer, catalog, validatedIds, objectId, passportPath)
        case None => None
        case Some(ms) => Some(notListed + ms)
  }

  /**
   * Resolving a passport path inside the package and reading the file
   * there; it throws exactly when the file is there, parses, and its
   * owning artifact was not validated.
   */
  function PassportAt(layer: Layer, catalog: seq<Json>, validatedIds: seq<Option<Json>>, objectId: string, passportPath: string)
    : (r: Option<seq<Message>>)
    ensures r.None? <==>
      && ResolveSafePath(layer.base, Some(JStr(passportPath))).Resolved?
      && Exists(layer.h, ResolveSafePath(layer.base, Some(JStr(passportPath))).resolved)
      && ReadJson(layer.h, ResolveSafePath(layer.base, Some(JStr(passportPath))).resolved).Parsed?
      && !JsIn(OwnerId(PathOwner(catalog, passportPath)), validatedIds)
    ensures ErrorsOnly(r)
  {
    match ResolveSafePath(layer.base, Some(JStr(passportPath)))
    case Rejected(code, message) => Some([Err(code, message)])
    case Resolved(p) =>
      if !Exists(layer.h, p) then Some([Err("OBJECT_PASSPORT_MISSING", "Object passport file not found")])
      else
        match ReadJson(layer.h, p)
        case ParseFailed(reason) => Some([Err("OBJECT_PASSPORT_PARSE_ERROR", "Failed to read object passport: " + reason)])
        case Parsed(data) => PassportMessages(CatalogIds(catalog), validatedIds, PathOwner(catalog, passportPath), objectId, data)
  }

  /**
   * A passport path the catalog does not list has no owner, so its schema
   * check is reached with `passportArtifact?.id` undefined: when every
   * validated artifact had an id, a passport there that parses throws
   * after its OBJECT_PASSPORT_NOT_IN_CATALOG error.
   */
  lemma UnlistedPassportThrows(layer: Layer, catalog: seq<Json>, validatedIds: seq<Option<Json>>, objectId: string, passportPath: string)
    requires !JsIn(None, validatedIds)
    requires PathOwner(catalog, passportPath).None?
    requires ResolveSafePath(layer.base, Some(JStr(passportPath))).Resolved?
    requires Exists(layer.h, ResolveSafePath(layer.base, Some(JStr(passportPath))).resolved)
    requires ReadJson(layer.h, ResolveSafePath(layer.base, Some(JStr(passportPath))).resolved).Parsed?
    ensures PassportAt(layer, catalog, validatedIds, objectId, passportPath).None?
  {
  }

  /** The body of the object loop, as a function of the object. */
  function ObjectCheck(layer: Layer, catalog: seq<Json>, validatedIds: seq<Option<Json>>): Json -> Option<seq<Message>>
  {
    obj => ObjectMessages(layer, catalog, validatedIds, obj)
  }

  /** Reading one object-index artifact: its path, then the file at the resolved path. */
  function OpenIndex(layer: Layer, validatedIds: seq<Option<Json>>, artifact: Json): (o: Option<IndexOpening>)
    ensures o.Some? ==> forall m :: m in o.value.ms ==> m.level == Error
    ensures o.Some? && o.value.Opened? ==> o.value.ms == []
  {
    var path := StrProp(artifact, "path");
    if path.None? || JsBlank(path.value) then Some(Stopped([Err("OBJECT_INDEX_PATH_MISSING", "Object index path is missing")]))
    else
      match ResolveSafePath(layer.base, Some(JStr(path.value)))
      case Rejected(code, message) => Some(Stopped([Err(code, message)]))
      case Resolved(r) => ReadIndex(layer, validatedIds, artifact, r)
  }

  /**
   * Reading an object-index file that resolved inside the package.
   * `validators.objectIndex` is `undefined`, so an index whose artifact was
   * not validated in the artifact loop throws a `TypeError` once it parses;
   * a validated one is opened with no schema check and no message.
   */
  function ReadIndex(layer: Layer, validatedIds: seq<Option<Json>>, artifact: Json, r: string): (o: Option<IndexOpening>)
    ensures o.None? <==> Exists(layer.h, r) && ReadJson(layer.h, r).Parsed? && !JsIn(Prop(artifact, "id"), validatedIds)
    ensures !Exists(layer.h, r) ==> o == Some(Stopped([Err("OBJECT_INDEX_MISSING", "Object index file not found")]))
    ensures o.Some? && o.value.Opened? ==>
      ReadJson(layer.h, r).Parsed? && o.value == Opened([], ArrayProp(ReadJson(layer.h, r).value, "objects"))
    ensures o.Some? ==> forall m :: m in o.value.ms ==> m.level == Error
  {
    if !Exists(layer.h, r) then Some(Stopped([Err("OBJECT_INDEX_MISSING", "Object index file not found")]))
    else
      match ReadJson(layer.h, r)
      case ParseFailed(reason) => Some(Stopped([Err("OBJECT_INDEX_PARSE_ERROR", "Failed to read object index: " + reason)]))
      case Parsed(data) =>
        if !JsIn(Prop(artifact, "id"), validatedIds) then None
        else Some(Opened([], ArrayProp(data, "objects")))
  }

  /** Opening an object-index artifact, as a function of the artifact. */
  function Opener(layer: Layer, validatedIds: seq<Option<Json>>): Json -> Option<IndexOpening>
  {
    artifact => OpenIndex(layer, validatedIds, artifact)
  }

  /** Everything the layer reports, or `None` when it throws. */
  function LayerMessages(layer: Layer, catalog: seq<Json>, validatedIds: seq<Option<Json>>): (r: Option<seq<Message>>)
    // nothing at all without an object-index artifact
    ensures ObjectIndexArtifacts(catalog) == [] ==> r == Some([])
  {
    FlattenOr(IndexStepOr(Opener(layer, validatedIds), ObjectCheck(layer, catalog, validatedIds)), ObjectIndexArtifacts(catalog))
  }

  /**
   * `validateObjectsLayer(options)`: it throws exactly when the layer does;
   * otherwise the report gains exactly the layer's messages, counted by
   * level, and nothing else changes.
   */
  method ValidateObjectsLayer(report: Report, layer: Layer, catalog: seq<Json>, validatedIds: seq<Option<Json>>)
    returns (thrown: bool)
    modifies report
    ensures thrown <==> LayerMessages(layer, catalog, validatedIds).None?
    ensures !thrown ==> report.messages == old(report.messages) + LayerMessages(layer, catalog, validatedIds).value
    ensures !thrown ==> report.errors == old(report.errors) + MessageCount(LayerMessages(layer, catalog, validatedIds).value, Error)
    ensures !thrown ==> report.warnings == old(report.warnings) + MessageCount(LayerMessages(layer, catalog, validatedIds).value, Warning)
    ensures report.artifacts == old(report.artifacts) && report.artifactsTotal == old(report.artifactsTotal)
    ensures report.artifactsValidated == old(report.artifactsValidated)
    ensures report.artifactsSkipped == old(report.artifactsSkipped)
    ensures report.ndjsonLinesValidated == old(report.ndjsonLinesValidated)
    ensures report.finishedAt == old(report.finishedAt) && report.startedAt == old(report.startedAt)
  {
    var indexes := ObjectIndexArtifacts(catalog);
    if |indexes| == 0 {
      return false;
    }
    thrown := CheckIndexes(report, Opener(layer, validatedIds), ObjectCheck(layer, catalog, validatedIds), indexes);
  }

  /** The loop over the object-index artifacts: open each, then run the object loop over what it lists; it stops at a throw. */
  method CheckIndexes(report: Report, open: Json -> Option<IndexOpening>, check: Json -> Option<seq<Message>>, indexes: seq<Json>)
    returns (thrown: bool)
    modifies report
    ensures thrown <==> FlattenOr(IndexStepOr(open, check), indexes).None?
    ensures !thrown ==> report.messages == old(report.messages) + FlattenOr(IndexStepOr(open, check), indexes).value
    ensures !thrown ==> report.errors == old(report.errors) + MessageCount(FlattenOr(IndexStepOr(open, check), indexes).value, Error)
    ensures !thrown ==> report.warnings == old(report.warnings) + MessageCount(FlattenOr(IndexStepOr(open, check), indexes).value, Warning)
    ensures report.artifacts == old(report.artifacts) && report.artifactsTotal == old(report.artifactsTotal)
    ensures report.artifactsValidated == old(report.artifactsValidated)
    ensures report.artifactsSkipped == old(report.artifactsSkipped)
    ensures report.ndjsonLinesValidated == old(report.ndjsonLinesValidated)
    ensures report.finishedAt == old(report.finishedAt) && report.startedAt == old(report.startedAt)
  {
    var step := IndexStepOr(open, check);
    for i := 0 to |indexes|
      invariant FlattenOr(step, indexes[..i]).Some?
      invariant report.messages == old(report.messages) + FlattenOr(step, indexes[..i]).value
      invariant report.errors == old(report.errors) + MessageCount(FlattenOr(step, indexes[..i]).value, Error)
      invariant report.warnings == old(report.warnings) + MessageCount(FlattenOr(step, indexes[..i]).value, Warning)
      invariant report.artifacts == old(report.artifacts) && report.artifactsTotal == old(report.artifactsTotal)
      invariant report.artifactsValidated == old(report.artifactsValidated)
      invariant report.artifactsSkipped == old(report.artifactsSkipped)
      invariant report.ndjsonLinesValidated == old(report.ndjsonLinesValidated)
      invariant report.finishedAt == old(report.finishedAt) && report.startedAt == old(report.startedAt)
    {
      FlattenOrSnoc(step, indexes, i);
      var opening := open(indexes[i]);
      if opening.None? {
        StepThrows(step, indexes, i);
        return true;
      }
      ghost var before := FlattenOr(step, indexes[..i]).value;
      ghost var ms;
      ms, thrown := AddOpening(report, opening.value, check);
      if thrown {
        StepThrows(step, indexes, i);
        return;
      }
      MessageCountAppend(before, ms, Error);
      MessageCountAppend(before, ms, Warning);
    }
    assert indexes[..|indexes|] == indexes;
    return false;
  }

  /** Records what an opened or stopped index contributes, running the object loop when it was opened. */
  method AddOpening(report: Report, opening: IndexOpening, check: Json -> Option<seq<Message>>)
    returns (ghost ms: seq<Message>, thrown: bool)
    modifies report
    ensures thrown <==> IndexFromOr(Some(opening), check).None?
    ensures !thrown ==> ms == IndexFromOr(Some(opening), check).value
    ensures !thrown ==> report.messages == old(report.messages) + ms
    ensures !thrown ==> report.errors == old(report.errors) + MessageCount(ms, Error)
    ensures !thrown ==> report.warnings == old(report.warnings) + MessageCount(ms, Warning)
    ensures report.artifacts == old(report.artifacts) && report.artifactsTotal == old(report.artifactsTotal)
    ensures report.artifactsValidated == old(report.artifactsValidated)
    ensures report.artifactsSkipped == old(report.artifactsSkipped)
    ensures report.ndjsonLinesValidated == old(report.ndjsonLinesValidated)
    ensures report.finishedAt == old(report.finishedAt) && report.startedAt == old(report.startedAt)
  {
    AddMessages(report, opening.ms);
    ms := opening.ms;
    thrown := false;
    if opening.Opened? {
      thrown := CheckObjects(report, check, opening.objects);
      if !thrown {
        var objects := FlattenOr(check, opening.objects).value;
        MessageCountAppend(opening.ms, objects, Error);
        MessageCountAppend(opening.ms, objects, Warning);
        ms := opening.ms + objects;
      }
    }
  }

  /** The loop over the objects of one index, with the body `check`; it throws when an object does. */
  method CheckObjects(report: Report, check: Json -> Option<seq<Message>>, objects: seq<Json>)
    returns (thrown: bool)
    modifies report
    ensures thrown <==> FlattenOr(check, objects).None?
    ensures !thrown ==> report.messages == old(report.messages) + FlattenOr(check, objects).value
    ensures !thrown ==> report.errors == old(report.errors) + MessageCount(FlattenOr(check, objects).value, Error)
    ensures !thrown ==> report.warnings == old(report.warnings) + MessageCount(FlattenOr(check, objects).value, Warning)
    ensures report.artifacts == old(report.artifacts) && report.artifactsTotal == old(report.artifactsTotal)
    ensures report.artifactsValidated == old(report.artifactsValidated)
    ensures report.artifactsSkipped == old(report.artifactsSkipped)
    ensures report.ndjsonLinesValidated == old(report.ndjsonLinesValidated)
    ensures report.finishedAt == old(report.finishedAt) && report.startedAt == old(report.startedAt)
  {
    for i := 0 to |objects|
      invariant FlattenOr(check, objects[..i]).Some?
      invariant report.messages == old(report.messages) + FlattenOr(check, objects[..i]).value
      invariant report.errors == old(report.errors) + MessageCount(FlattenOr(check, objects[..i]).value, Error)
      invariant report.warnings == old(report.warnings) + MessageCount(FlattenOr(check, objects[..i]).value, Warning)
      invariant report.artifacts == old(report.artifacts) && report.artifactsTotal == old(report.artifactsTotal)
      invariant report.artifactsValidated == old(report.artifactsValidated)
      invariant report.artifactsSkipped == old(report.artifactsSkipped)
      invariant report.ndjsonLinesValidated == old(report.ndjsonLinesValidated)
      invariant report.finishedAt == old(report.finishedAt) && report.startedAt == old(report.startedAt)
    {
      FlattenOrSnoc(check, objects, i);
      ghost var before := FlattenOr(check, objects[..i]).value;
      var ms := check(objects[i]);
      if ms.None? {
        StepThrows(check, objects, i);
        return true;
      }
      AddMessages(report, ms.value);
      MessageCountAppend(before, ms.value, Error);
      MessageCountAppend(before, ms.value, Warning);
    }
    assert objects[..|objects|] == objects;
    return false;
  }

  /** Every message of the layer is an error: a layer that does not throw never adds a warning. */
  lemma NodeLayerOnlyErrors(layer: Layer, catalog: seq<Json>, validatedIds: seq<Option<Json>>)
    ensures ErrorsOnly(LayerMessages(layer, catalog, validatedIds))
    ensures LayerMessages(layer, catalog, validatedIds).Some? ==>
      MessageCount(LayerMessages(layer, catalog, validatedIds).value, Warning) == 0
  {
    LayerOnlyErrors(Opener(layer, validatedIds), ObjectCheck(layer, catalog, validatedIds), ObjectIndexArtifacts(catalog));
  }

  /** A passport artifact id is reported missing exactly when it is a non-blank string no catalog artifact has as its id. */
  lemma PassportArtifactMissingIff(catalog: seq<Json>, items: seq<Json>, id: string)
    ensures MissingArtifact(id) in PassportArtifactsMessages(Node, CatalogIds(catalog), items)
      <==> JStr(id) in items && !JsBlank(id) && !(exists a :: a in catalog && StrProp(a, "id") == Some(id))
  {
    PassportArtifactsReported(Node, CatalogIds(catalog), items, id);
    CatalogIdsMembers(catalog, id);
  }

  /** A dataset selector's artifact id is reported missing exactly when the selector is an object and no catalog artifact has that non-blank id. */
  lemma DatasetMissingIff(catalog: seq<Json>, selectors: seq<Json>, id: string)
    ensures MissingDataset(Node, id) in DatasetsMessages(Node, CatalogIds(catalog), selectors)
      <==> (exists s :: s in selectors && JsObjectLike(Some(s)) && SelectorId(s) == id) && !JsBlank(id)
           && !(exists a :: a in catalog && StrProp(a, "id") == Some(id))
  {
    DatasetsReported(Node, CatalogIds(catalog), selectors, id);
    CatalogIdsMembers(catalog, id);
  }
}
