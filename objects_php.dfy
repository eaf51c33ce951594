/**
 * Model of `PackageValidator::validateObjectsLayer` in the PHP validator.
 * The flow matches the Node one: open each object-index artifact, then check
 * every object it lists and the passport it names. It differs in four ways:
 * both schemas are always checked, an entry or a selector must be a JSON
 * object (an array does not do), a passport file must be a regular file,
 * and blank means empty after PHP's `trim`.
 */
module ObjectsPhp {
  import opened Common
  import opened Strings
  import opened JsonDoc
  import opened Env
  import opened Lexical
  import opened SafePath
  import opened PhpReport
  import opened ObjectGraph

  /** PHP's blank test (`trim($x) === ''`), object test (`is_object`) and dataset code. */
  const Php: Dialect := Dialect(PhpBlank, (s: Json) => s.JObj?, "OBJECT_PASSPORT_DATASET_ARTIFACT_MISSING")

  /** What the layer consults besides the catalog: the file tree, the package root and the named-schema check. */
  datatype Layer = Layer(h: Host, base: Dir, schema: SchemaCheck)

  /** `is_string($v->key ?? null) ? $v->key : ''`. */
  function StringOrEmpty(v: Json, key: string): string
  {
    if StrProp(v, key).Some? then StrProp(v, key).value else ""
  }

  /** The keys of `$artifactIds`: the non-empty string ids of the catalog. */
  function CatalogIds(catalog: seq<Json>): set<string>
  {
    if catalog == [] then {}
    else
      var id := StringOrEmpty(catalog[|catalog| - 1], "id");
      CatalogIds(catalog[..|catalog| - 1]) + if id != "" then {id} else {}
  }

  /** The catalog ids are exactly the non-empty string `id`s of the catalog's artifacts. */
  lemma {:induction false} CatalogIdsMembers(catalog: seq<Json>, id: string)
    ensures id in CatalogIds(catalog) <==> id != "" && exists a :: a in catalog && StrProp(a, "id") == Some(id)
    decreases |catalog|
  {
    if catalog != [] {
      var init, last := catalog[..|catalog| - 1], catalog[|catalog| - 1];
      assert catalog == init + [last];
      CatalogIdsMembers(init, id);
      if exists a :: a in catalog && StrProp(a, "id") == Some(id) {
        var a :| a in catalog && StrProp(a, "id") == Some(id);
        if a != last {
          assert a in init;
        }
      }
    }
  }

  /** The keys of `$artifactByPath`: the non-empty string paths of the catalog. */
  function ListedPaths(catalog: seq<Json>): set<string>
  {
    if catalog == [] then {}
    else
      var path := StringOrEmpty(catalog[|catalog| - 1], "path");
      ListedPaths(catalog[..|catalog| - 1]) + if path != "" then {path} else {}
  }

  /** The listed paths are exactly the non-empty string `path`s of the catalog's artifacts. */
  lemma {:induction false} ListedPathsMembers(catalog: seq<Json>, p: string)
    ensures p in ListedPaths(catalog) <==> p != "" && exists a :: a in catalog && StrProp(a, "path") == Some(p)
    decreases |catalog|
  {
    if catalog != [] {
      var init, last := catalog[..|catalog| - 1], catalog[|catalog| - 1];
      assert catalog == init + [last];
      ListedPathsMembers(init, p);
      if exists a :: a in catalog && StrProp(a, "path") == Some(p) {
        var a :| a in catalog && StrProp(a, "path") == Some(p);
        if a != last {
          assert a in init;
        }
      }
    }
  }

  /** The schema errors, one message each with `code`, when the named schema rejects the document. */
  function SchemaMessages(check: SchemaCheck, name: string, data: Json, code: string): (ms: seq<Message>)
    ensures forall m :: m in ms ==> m.level == Error && m.code == code
    ensures check(name, data).valid ==> ms == []
    ensures !check(name, data).valid ==>
      |ms| == |check(name, data).errors| &&
      forall i :: 0 <= i < |ms| ==> ms[i].message == check(name, data).errors[i]
  {
    var validation := check(name, data);
    if validation.valid then []
    else seq(|validation.errors|, i requires 0 <= i < |validation.errors| => Err(code, validation.errors[i]))
  }

  /** The message for a path `SafePath::resolve` refused, with the fallbacks for a missing code or message. */
  function Unsafe(r: SafePathResult): Message
  {
    Err(if r.code.Some? then r.code.value else "INVALID_PATH", if r.message.Some? then r.message.value else "Invalid path")
  }

  /**
   * `SchemaValidator::validate` declares its document `object`: a decoded
   * array, number, string or boolean raises a `TypeError` (`None`), which
   * nothing in the validators catches. An object gets its schema messages.
   */
  function Validated(check: SchemaCheck, name: string, data: Json, code: string): (r: Option<seq<Message>>)
    ensures r.None? <==> !data.JObj?
    ensures r.Some? ==> r.value == SchemaMessages(check, name, data, code)
  {
    if data.JObj? then Some(SchemaMessages(check, name, data, code)) else None
  }

  /** What a decoded passport contributes: schema errors, identity, references; a passport that is not an object throws. */
  function PassportMessages(layer: Layer, ids: set<string>, objectId: string, data: Json): (r: Option<seq<Message>>)
    ensures r.None? <==> !data.JObj?
    ensures ErrorsOnly(r)
  {
    match Validated(layer.schema, "object-passport", data, "OBJECT_PASSPORT_SCHEMA_ERROR")
    case None => None
    case Some(schema) =>
      var objectRef := Prop(data, "objectRef");
      var objectRefId := if objectRef.Some? && objectRef.value.JObj? then StringOrEmpty(objectRef.value, "id") else "";
      var passportId := StringOrEmpty(data, "id");
      Some(schema + IdentityMessages(objectId, passportId, objectRefId)
           + PassportArtifactsMessages(Php, ids, ArrayProp(data, "artifacts"))
           + DatasetsMessages(Php, ids, ArrayProp(data, "datasets")))
  }

  /** One pass of the loop over the index's `objects`; it throws only through its passport. */
  function ObjectMessages(layer: Layer, catalog: seq<Json>, obj: Json): (r: Option<seq<Message>>)
    ensures ErrorsOnly(r)
    ensures r.None? ==> obj.JObj?
  {
    if !obj.JObj? then Some([Err("OBJECT_INDEX_ENTRY_INVALID", "Object index entry must be an object")])
    else
      var objectId := StringOrEmpty(obj, "id");
      var passportPath := StringOrEmpty(obj, "passportPath");
      if PhpBlank(objectId) then Some([Err("OBJECT_INDEX_ENTRY_INVALID", "Object id is missing or invalid")])
      else if PhpBlank(passportPath) then
        Some([Err("OBJECT_PASSPORT_PATH_MISSING", "passportPath is missing for object '" + objectId + "'")])
      else
        var notListed := NotListed(catalog, passportPath);
        match PassportAt(layer, catalog, objectId, passportPath)
        case None => None
        case Some(ms) => Some(notListed + ms)
  }

  /** The complaint about a passport path the catalog does not list. */
  function NotListed(catalog: seq<Json>, passportPath: string): (ms: seq<Message>)
    ensures |ms| <= 1 && forall m :: m in ms ==> m.level == Error
  {
    if passportPath !in ListedPaths(catalog) then
      [Err("OBJECT_PASSPORT_NOT_IN_CATALOG", "passportPath is not listed in catalog: " + passportPath)]
    else []
  }

  /** Resolving a passport path inside the layer, then reading the file there. */
  function PassportAt(layer: Layer, catalog: seq<Json>, objectId: string, passportPath: string): (r: Option<seq<Message>>)
    ensures ErrorsOnly(r)
  {
    var safe := Resolve(layer.base, passportPath);
    if !safe.ok || safe.path.None? then Some([Unsafe(safe)])
    else PassportFileMessages(layer, catalog, objectId, safe.path.value)
  }

  /** What the resolved passport file `path` contributes: missing, unreadable, or the decoded passport's checks. */
  function PassportFileMessages(layer: Layer, catalog: seq<Json>, objectId: string, path: string): (r: Option<seq<Message>>)
    ensures r.None? <==> IsFile(layer.h, path) && PhpReadJson(layer.h, path).Parsed? && !PhpReadJson(layer.h, path).value.JObj?
    ensures ErrorsOnly(r)
  {
    if !IsFile(layer.h, path) then Some([Err("OBJECT_PASSPORT_MISSING", "Object passport file not found")])
    else
      match PhpReadJson(layer.h, path)
      case ParseFailed(reason) => Some([Err("OBJECT_PASSPORT_PARSE_ERROR", "Failed to read object passport: " + reason)])
      case Parsed(data) => PassportMessages(layer, CatalogIds(catalog), objectId, data)
  }

  /** The body of the object loop, as a function of the object. */
  function ObjectCheck(layer: Layer, catalog: seq<Json>): Json -> Option<seq<Message>>
  {
    obj => ObjectMessages(layer, catalog, obj)
  }

  /** Reading one object-index artifact: its path, file and schema, and the `objects` array it holds. */
  function OpenIndex(layer: Layer, artifact: Json): (o: Option<IndexOpening>)
    ensures o.Some? ==> forall m :: m in o.value.ms ==> m.level == Error
  {
    var indexPath := StringOrEmpty(artifact, "path");
    if PhpBlank(indexPath) then Some(Stopped([Err("OBJECT_INDEX_PATH_MISSING", "Object index path is missing")]))
    else
      var safe := Resolve(layer.base, indexPath);
      if !safe.ok || safe.path.None? then Some(Stopped([Unsafe(safe)]))
      else ReadIndex(layer, safe.path.value)
  }

  /**
   * Reading an object-index file that resolved inside the layer: it must
   * exist, parse and match its schema; one that decodes to anything but an
   * object throws.
   */
  function ReadIndex(layer: Layer, path: string): (o: Option<IndexOpening>)
    ensures o.None? <==> IsFile(layer.h, path) && PhpReadJson(layer.h, path).Parsed? && !PhpReadJson(layer.h, path).value.JObj?
    ensures o.Some? ==> forall m :: m in o.value.ms ==> m.level == Error
  {
    if !IsFile(layer.h, path) then Some(Stopped([Err("OBJECT_INDEX_MISSING", "Object index file not found")]))
    else
      match PhpReadJson(layer.h, path)
      case ParseFailed(reason) => Some(Stopped([Err("OBJECT_INDEX_PARSE_ERROR", "Failed to read object index: " + reason)]))
      case Parsed(data) =>
        match Validated(layer.schema, "object-index", data, "OBJECT_INDEX_SCHEMA_ERROR")
        case None => None
        case Some(schema) => Some(Opened(schema, ArrayProp(data, "objects")))
  }

  /** Opening an object-index artifact, as a function of the artifact. */
  function Opener(layer: Layer): Json -> Option<IndexOpening>
  {
    artifact => OpenIndex(layer, artifact)
  }

  /** Everything the layer reports, or `None` when it throws. */
  function LayerMessages(layer: Layer, catalog: seq<Json>): (r: Option<seq<Message>>)
    // nothing at all without an object-index artifact
    ensures ObjectIndexArtifacts(catalog) == [] ==> r == Some([])
  {
    FlattenOr(IndexStepOr(Opener(layer), ObjectCheck(layer, catalog)), ObjectIndexArtifacts(catalog))
  }

  /**
   * `validateObjectsLayer`: it throws exactly when the layer does;
   * otherwise the report gains exactly the layer's messages, each one an
   * error, and nothing else changes.
   */
  method ValidateObjectsLayer(report: ValidationReport, layer: Layer, catalog: seq<Json>) returns (thrown: bool)
    modifies report
    ensures thrown <==> LayerMessages(layer, catalog).None?
    ensures !thrown ==> report.messages == old(report.messages) + LayerMessages(layer, catalog).value
    ensures !thrown ==> report.errors == old(report.errors) + |LayerMessages(layer, catalog).value|
    ensures !thrown ==> Untouched(report, old(report.warnings), old(report.ErrorsBeyondMessages()), old(report.artifacts),
                                  old(report.artifactsTotal), old(report.artifactsValidated), old(report.artifactsSkipped),
                                  old(report.ndjsonLinesValidated), old(report.targetType), old(report.targetPath),
                                  old(report.finishedAt), old(report.startedAt))
  {
    var indexes := ObjectIndexArtifacts(catalog);
    if |indexes| == 0 {
      return false;
    }
    thrown := CheckIndexes(report, Opener(layer), ObjectCheck(layer, catalog), indexes);
  }

  /** What the layer leaves as it was: everything but the messages and the error count. */
  predicate Untouched(report: ValidationReport, warnings: int, beyond: int, artifacts: seq<ArtifactView>,
                      total: int, validated: int, skipped: int, lines: int,
                      targetType: string, targetPath: string, finishedAt: Option<string>, startedAt: string)
    reads report
  {
    && report.warnings == warnings && report.ErrorsBeyondMessages() == beyond
    && report.artifacts == artifacts && report.artifactsTotal == total
    && report.artifactsValidated == validated && report.artifactsSkipped == skipped
    && report.ndjsonLinesValidated == lines
    && report.targetType == targetType && report.targetPath == targetPath
    && report.finishedAt == finishedAt && report.startedAt == startedAt
  }

  /** The loop over the object-index artifacts: open each, then run the object loop over what it lists. */
  method CheckIndexes(report: ValidationReport, open: Json -> Option<IndexOpening>, check: Json -> Option<seq<Message>>,
                      indexes: seq<Json>)
    returns (thrown: bool)
    requires forall x :: open(x).Some? ==> forall m :: m in open(x).value.ms ==> m.level == Error
    requires forall x :: ErrorsOnly(check(x))
    modifies report
    ensures thrown <==> FlattenOr(IndexStepOr(open, check), indexes).None?
    ensures !thrown ==> report.messages == old(report.messages) + FlattenOr(IndexStepOr(open, check), indexes).value
    ensures !thrown ==> report.errors == old(report.errors) + |FlattenOr(IndexStepOr(open, check), indexes).value|
    ensures !thrown ==> Untouched(report, old(report.warnings), old(report.ErrorsBeyondMessages()), old(report.artifacts),
                                  old(report.artifactsTotal), old(report.artifactsValidated), old(report.artifactsSkipped),
                                  old(report.ndjsonLinesValidated), old(report.targetType), old(report.targetPath),
                                  old(report.finishedAt), old(report.startedAt))
  {
    var step := IndexStepOr(open, check);
    for i := 0 to |indexes|
      invariant FlattenOr(step, indexes[..i]).Some?
      invariant report.messages == old(report.messages) + FlattenOr(step, indexes[..i]).value
      invariant report.errors == old(report.errors) + |FlattenOr(step, indexes[..i]).value|
      invariant Untouched(report, old(report.warnings), old(report.ErrorsBeyondMessages()), old(report.artifacts),
                          old(report.artifactsTotal), old(report.artifactsValidated), old(report.artifactsSkipped),
                          old(report.ndjsonLinesValidated), old(report.targetType), old(report.targetPath),
                          old(report.finishedAt), old(report.startedAt))
    {
      FlattenOrSnoc(step, indexes, i);
      var opening := open(indexes[i]);
      if opening.None? {
        StepThrows(step, indexes, i);
        return true;
      }
      thrown := AddOpening(report, opening.value, check);
      if thrown {
        StepThrows(step, indexes, i);
        return;
      }
    }
    assert indexes[..|indexes|] == indexes;
    return false;
  }

  /** Records what an opened or stopped index contributes, running the object loop when it was opened. */
  method AddOpening(report: ValidationReport, opening: IndexOpening, check: Json -> Option<seq<Message>>)
    returns (thrown: bool)
    requires forall m :: m in opening.ms ==> m.level == Error
    requires forall x :: ErrorsOnly(check(x))
    modifies report
    ensures thrown <==> IndexFromOr(Some(opening), check).None?
    ensures !thrown ==> report.messages == old(report.messages) + IndexFromOr(Some(opening), check).value
    ensures !thrown ==> report.errors == old(report.errors) + |IndexFromOr(Some(opening), check).value|
    ensures !thrown ==> Untouched(report, old(report.warnings), old(report.ErrorsBeyondMessages()), old(report.artifacts),
                                  old(report.artifactsTotal), old(report.artifactsValidated), old(report.artifactsSkipped),
                                  old(report.ndjsonLinesValidated), old(report.targetType), old(report.targetPath),
                                  old(report.finishedAt), old(report.startedAt))
  {
    AddErrors(report, opening.ms);
    thrown := false;
    if opening.Opened? {
      thrown := CheckObjects(report, check, opening.objects);
    }
  }

  /** The loop over the objects of one index, with the body `check`; it throws when an object does. */
  method CheckObjects(report: ValidationReport, check: Json -> Option<seq<Message>>, objects: seq<Json>)
    returns (thrown: bool)
    requires forall x :: ErrorsOnly(check(x))
    modifies report
    ensures thrown <==> FlattenOr(check, objects).None?
    ensures !thrown ==> report.messages == old(report.messages) + FlattenOr(check, objects).value
    ensures !thrown ==> report.errors == old(report.errors) + |FlattenOr(check, objects).value|
    ensures !thrown ==> Untouched(report, old(report.warnings), old(report.ErrorsBeyondMessages()), old(report.artifacts),
                                  old(report.artifactsTotal), old(report.artifactsValidated), old(report.artifactsSkipped),
                                  old(report.ndjsonLinesValidated), old(report.targetType), old(report.targetPath),
                                  old(report.finishedAt), old(report.startedAt))
  {
    for i := 0 to |objects|
      invariant FlattenOr(check, objects[..i]).Some?
      invariant report.messages == old(report.messages) + FlattenOr(check, objects[..i]).value
      invariant report.errors == old(report.errors) + |FlattenOr(check, objects[..i]).value|
      invariant Untouched(report, old(report.warnings), old(report.ErrorsBeyondMessages()), old(report.artifacts),
                          old(report.artifactsTotal), old(report.artifactsValidated), old(report.artifactsSkipped),
                          old(report.ndjsonLinesValidated), old(report.targetType), old(report.targetPath),
                          old(report.finishedAt), old(report.startedAt))
    {
      FlattenOrSnoc(check, objects, i);
      var ms := check(objects[i]);
      if ms.None? {
        StepThrows(check, objects, i);
        return true;
      }
      assert ErrorsOnly(ms);
      AddErrors(report, ms.value);
    }
    assert objects[..|objects|] == objects;
    return false;
  }

  /** Every message of the layer is an error: it never adds a warning. */
  lemma PhpLayerOnlyErrors(layer: Layer, catalog: seq<Json>)
    ensures ErrorsOnly(LayerMessages(layer, catalog))
    ensures LayerMessages(layer, catalog).Some? ==> MessageCount(LayerMessages(layer, catalog).value, Warning) == 0
  {
    LayerOnlyErrors(Opener(layer), ObjectCheck(layer, catalog), ObjectIndexArtifacts(catalog));
  }

  /** A passport artifact id is reported missing exactly when it is a non-blank string no catalog artifact has as its id. */
  lemma PassportArtifactMissingIff(catalog: seq<Json>, items: seq<Json>, id: string)
    ensures MissingArtifact(id) in PassportArtifactsMessages(Php, CatalogIds(catalog), items)
      <==> JStr(id) in items && !PhpBlank(id) && !(exists a :: a in catalog && StrProp(a, "id") == Some(id))
  {
    PassportArtifactsReported(Php, CatalogIds(catalog), items, id);
    CatalogIdsMembers(catalog, id);
  }

  /** A dataset selector's artifact id is reported missing exactly when the selector is an object and no catalog artifact has that non-blank id. */
  lemma DatasetMissingIff(catalog: seq<Json>, selectors: seq<Json>, id: string)
    ensures MissingDataset(Php, id) in DatasetsMessages(Php, CatalogIds(catalog), selectors)
      <==> (exists s :: s in selectors && s.JObj? && SelectorId(s) == id) && !PhpBlank(id)
           && !(exists a :: a in catalog && StrProp(a, "id") == Some(id))
  {
    DatasetsReported(Php, CatalogIds(catalog), selectors, id);
    CatalogIdsMembers(catalog, id);
  }
}
