/**
 * The object-graph checks both validators share: the three identity checks
 * between an object index entry and its passport, and the reference checks
 * of a passport's `artifacts` and `datasets` against the catalog ids. The
 * two implementations differ only in what counts as blank, what counts as
 * an object and the code of a missing dataset artifact; a `Dialect` carries
 * those differences.
 */
module ObjectGraph {
  import opened Common
  import opened Strings
  import opened JsonDoc

  /** Where the Node and PHP object layers part ways. */
  datatype Dialect = Dialect(
    /** `!x.trim()` in Node, `trim($x) === ''` in PHP. */
    blank: string -> bool,
    /** `typeof x === 'object' && x` in Node (arrays too), `is_object` in PHP. */
    isObject: Json -> bool,
    /** The code of a dataset selector naming an artifact the catalog lacks. */
    datasetMissingCode: string)

  const ObjectIndexType: string := "application/vnd.sitepack.object-index+json"

  /** The catalog artifacts whose `mediaType` is the object-index type, in catalog order. */
  function ObjectIndexArtifacts(catalog: seq<Json>): (r: seq<Json>)
    ensures |r| <= |catalog|
  {
    if catalog == [] then []
    else
      ObjectIndexArtifacts(catalog[..|catalog| - 1])
      + if Prop(catalog[|catalog| - 1], "mediaType") == Some(JStr(ObjectIndexType)) then [catalog[|catalog| - 1]] else []
  }

  /** The object-index artifacts are exactly the catalog artifacts of that media type. */
  lemma {:induction false} ObjectIndexMembers(catalog: seq<Json>, a: Json)
    ensures a in ObjectIndexArtifacts(catalog) <==> a in catalog && Prop(a, "mediaType") == Some(JStr(ObjectIndexType))
    decreases |catalog|
  {
    if catalog != [] {
      var init, last := catalog[..|catalog| - 1], catalog[|catalog| - 1];
      assert catalog == init + [last];
      ObjectIndexMembers(init, a);
    }
  }

  function Err(code: string, message: string): Message
  {
    Message(Error, code, message)
  }

  /**
   * The three identity checks between the object index id, the passport's
   * `id` and its `objectRef.id` (each "" when not a string). Each fires on
   * its own condition, and only when the ids it compares are present.
   */
  function IdentityMessages(objectId: string, passportId: string, objectRefId: string): (ms: seq<Message>)
    ensures |ms| <= 3
    ensures forall m :: m in ms ==> m.level == Error
  {
    (if passportId != "" && passportId != objectId then [IdMismatch(passportId, objectId)] else [])
    + (if passportId != "" && objectRefId != "" && passportId != objectRefId then [RefIdMismatch(passportId, objectRefId)] else [])
    + (if objectRefId != "" && objectRefId != objectId then [RefMismatch(objectRefId, objectId)] else [])
  }

  function IdMismatch(passportId: string, objectId: string): Message
  {
    Err("OBJECT_PASSPORT_ID_MISMATCH", "Passport id does not match object index id: " + passportId + " != " + objectId)
  }

  function RefIdMismatch(passportId: string, objectRefId: string): Message
  {
    Err("OBJECT_PASSPORT_ID_MISMATCH", "Passport id does not match objectRef.id: " + passportId + " != " + objectRefId)
  }

  function RefMismatch(objectRefId: string, objectId: string): Message
  {
    Err("OBJECT_PASSPORT_REF_MISMATCH", "objectRef.id does not match object index id: " + objectRefId + " != " + objectId)
  }

  /** The three checks are independent: each message is present exactly when its own condition holds. */
  lemma IdentityChecksIndependent(objectId: string, passportId: string, objectRefId: string)
    ensures IdMismatch(passportId, objectId) in IdentityMessages(objectId, passportId, objectRefId)
      <==> passportId != "" && passportId != objectId
    ensures RefIdMismatch(passportId, objectRefId) in IdentityMessages(objectId, passportId, objectRefId)
      <==> passportId != "" && objectRefId != "" && passportId != objectRefId
    ensures RefMismatch(objectRefId, objectId) in IdentityMessages(objectId, passportId, objectRefId)
      <==> objectRefId != "" && objectRefId != objectId
    ensures |IdentityMessages(objectId, passportId, objectRefId)| ==
      (if passportId != "" && passportId != objectId then 1 else 0)
      + (if passportId != "" && objectRefId != "" && passportId != objectRefId then 1 else 0)
      + (if objectRefId != "" && objectRefId != objectId then 1 else 0)
  {
    DistinctKinds(passportId, objectId, passportId, objectRefId, objectRefId, objectId);
  }

  /** The three identity messages never coincide, whatever ids they name. */
  lemma DistinctKinds(a: string, b: string, c: string, d: string, e: string, f: string)
    ensures IdMismatch(a, b) != RefIdMismatch(c, d)
    ensures IdMismatch(a, b) != RefMismatch(e, f) && RefIdMismatch(c, d) != RefMismatch(e, f)
  {
    var p := "Passport id does not match object index id: " + a;
    var q := "Passport id does not match objectRef.id: " + c;
    assert p[33] == ' ' && q[33] == 'R';
    assert IdMismatch(a, b).message[33] != RefIdMismatch(c, d).message[33];
  }

  function MissingArtifact(id: string): Message
  {
    Err("OBJECT_PASSPORT_ARTIFACT_MISSING", "Passport artifact is missing from catalog: " + id)
  }

  function MissingDataset(d: Dialect, id: string): Message
  {
    Err(d.datasetMissingCode, "Dataset artifact is missing from catalog: " + id)
  }

  /** The message for one entry of the passport's `artifacts` list. */
  function PassportArtifactMessages(d: Dialect, ids: set<string>, item: Json): (ms: seq<Message>)
    ensures |ms| <= 1
  {
    if !item.JStr? || d.blank(item.s) then [Err("OBJECT_PASSPORT_ARTIFACT_INVALID", "Passport artifacts entry must be a string")]
    else if item.s !in ids then [MissingArtifact(item.s)]
    else []
  }

  /** The loop over the passport's `artifacts`. */
  function PassportArtifactsMessages(d: Dialect, ids: set<string>, items: seq<Json>): (ms: seq<Message>)
    ensures |ms| <= |items|
    ensures forall m :: m in ms ==> m.level == Error
  {
    if items == [] then []
    else PassportArtifactsMessages(d, ids, items[..|items| - 1]) + PassportArtifactMessages(d, ids, items[|items| - 1])
  }

  /** A message `prefix + id` names exactly one id. */
  lemma PrefixNamesOne(prefix: string, x: string, y: string)
    requires prefix + x == prefix + y
    ensures x == y
  {
    assert x == (prefix + x)[|prefix|..];
    assert y == (prefix + y)[|prefix|..];
  }

  /** Every non-blank string id of the passport that the catalog lacks is reported, and no other id is. */
  lemma {:induction false} PassportArtifactsReported(d: Dialect, ids: set<string>, items: seq<Json>, id: string)
    ensures MissingArtifact(id) in PassportArtifactsMessages(d, ids, items) <==> JStr(id) in items && !d.blank(id) && id !in ids
    decreases |items|
  {
    if items != [] {
      var init, last := items[..|items| - 1], items[|items| - 1];
      assert items == init + [last];
      PassportArtifactsReported(d, ids, init, id);
      if MissingArtifact(id) in PassportArtifactMessages(d, ids, last) {
        PrefixNamesOne("Passport artifact is missing from catalog: ", id, last.s);
      }
    }
  }

  /** The selector's `artifactId` when it is a string, else "". */
  function SelectorId(selector: Json): string
  {
    if StrProp(selector, "artifactId").Some? then StrProp(selector, "artifactId").value else ""
  }

  /** The message for one dataset selector. */
  function DatasetMessages(d: Dialect, ids: set<string>, selector: Json): (ms: seq<Message>)
    ensures |ms| <= 1
  {
    if !d.isObject(selector) then [Err("OBJECT_PASSPORT_DATASET_INVALID", "Dataset selector must be an object")]
    else if d.blank(SelectorId(selector)) then [Err("OBJECT_PASSPORT_DATASET_INVALID", "datasetSelector.artifactId is missing")]
    else if SelectorId(selector) !in ids then [MissingDataset(d, SelectorId(selector))]
    else []
  }

  /** The loop over the passport's `datasets`. */
  function DatasetsMessages(d: Dialect, ids: set<string>, selectors: seq<Json>): (ms: seq<Message>)
    ensures |ms| <= |selectors|
    ensures forall m :: m in ms ==> m.level == Error
  {
    if selectors == [] then []
    else DatasetsMessages(d, ids, selectors[..|selectors| - 1]) + DatasetMessages(d, ids, selectors[|selectors| - 1])
  }

  /** Every selector object whose non-blank `artifactId` the catalog lacks is reported, and no other id is. */
  lemma {:induction false} DatasetsReported(d: Dialect, ids: set<string>, selectors: seq<Json>, id: string)
    ensures MissingDataset(d, id) in DatasetsMessages(d, ids, selectors) <==>
      (exists s :: s in selectors && d.isObject(s) && SelectorId(s) == id) && !d.blank(id) && id !in ids
    decreases |selectors|
  {
    if selectors != [] {
      var init, last := selectors[..|selectors| - 1], selectors[|selectors| - 1];
      assert selectors == init + [last];
      DatasetsReported(d, ids, init, id);
      DatasetMessageNames(d, ids, last, id);
      assert DatasetsMessages(d, ids, selectors) == DatasetsMessages(d, ids, init) + DatasetMessages(d, ids, last);
      if exists s :: s in selectors && d.isObject(s) && SelectorId(s) == id {
        var s :| s in selectors && d.isObject(s) && SelectorId(s) == id;
        if s != last {
          assert s in init;
        }
      }
    }
  }

  /** One selector's message names `id` exactly when the selector is an object whose non-blank `artifactId` is `id` and missing. */
  lemma DatasetMessageNames(d: Dialect, ids: set<string>, selector: Json, id: string)
    ensures MissingDataset(d, id) in DatasetMessages(d, ids, selector) <==>
      d.isObject(selector) && SelectorId(selector) == id && !d.blank(id) && id !in ids
  {
    if MissingDataset(d, id) in DatasetMessages(d, ids, selector) {
      PrefixNamesOne("Dataset artifact is missing from catalog: ", id, SelectorId(selector));
    }
  }

  /** A property when it holds an array, else no items. */
  function ArrayProp(v: Json, key: string): seq<Json>
  {
    match Prop(v, key)
    case Some(JArr(items)) => items
    case _ => []
  }

  /** What one object-index artifact contributes before its objects, and the objects when the index could be read. */
  datatype IndexOpening = Stopped(ms: seq<Message>) | Opened(ms: seq<Message>, objects: seq<Json>)

  /** An outcome that, unless it throws, reports errors only. */
  predicate ErrorsOnly(r: Option<seq<Message>>)
  {
    r.Some? ==> forall m :: m in r.value ==> m.level == Error
  }

  /** A loop whose steps may throw: `None` once a step does, otherwise every step's messages in order. */
  function FlattenOr(f: Json -> Option<seq<Message>>, xs: seq<Json>): Option<seq<Message>>
  {
    if xs == [] then Some([])
    else
      match (FlattenOr(f, xs[..|xs| - 1]), f(xs[|xs| - 1]))
      case (Some(a), Some(b)) => Some(a + b)
      case _ => None
  }

  lemma FlattenOrSnoc(f: Json -> Option<seq<Message>>, xs: seq<Json>, i: nat)
    requires i < |xs|
    ensures FlattenOr(f, xs[..i + 1]).Some? <==> FlattenOr(f, xs[..i]).Some? && f(xs[i]).Some?
    ensures FlattenOr(f, xs[..i + 1]).Some? ==> FlattenOr(f, xs[..i + 1]).value == FlattenOr(f, xs[..i]).value + f(xs[i]).value
  {
    assert xs[..i + 1][..i] == xs[..i];
  }

  /** The loop throws exactly when one of its steps does. */
  lemma {:induction false} FlattenOrThrows(f: Json -> Option<seq<Message>>, xs: seq<Json>)
    ensures FlattenOr(f, xs).None? <==> exists k :: 0 <= k < |xs| && f(xs[k]).None?
    decreases |xs|
  {
    if xs != [] {
      var init := xs[..|xs| - 1];
      FlattenOrThrows(f, init);
      if exists k :: 0 <= k < |init| && f(init[k]).None? {
        var k :| 0 <= k < |init| && f(init[k]).None?;
        assert xs[k] == init[k];
      }
      if exists k :: 0 <= k < |xs| && f(xs[k]).None? {
        var k :| 0 <= k < |xs| && f(xs[k]).None?;
        if k < |init| {
          assert init[k] == xs[k];
        }
      }
    }
  }

  /** One step that throws makes the whole loop throw. */
  lemma StepThrows(f: Json -> Option<seq<Message>>, xs: seq<Json>, i: nat)
    requires i < |xs| && f(xs[i]).None?
    ensures FlattenOr(f, xs).None?
  {
    FlattenOrThrows(f, xs);
  }

  /** A loop whose every step reports errors only reports errors only. */
  lemma {:induction false} FlattenOrOnlyErrors(f: Json -> Option<seq<Message>>, xs: seq<Json>)
    requires forall x :: ErrorsOnly(f(x))
    ensures ErrorsOnly(FlattenOr(f, xs))
    decreases |xs|
  {
    if xs != [] {
      FlattenOrOnlyErrors(f, xs[..|xs| - 1]);
      assert ErrorsOnly(f(xs[|xs| - 1]));
    }
  }

  /** What an index contributes, given the body of the object loop: it throws when opening or an object does. */
  function IndexFromOr(opening: Option<IndexOpening>, check: Json -> Option<seq<Message>>): Option<seq<Message>>
  {
    match opening
    case None => None
    case Some(Stopped(ms)) => Some(ms)
    case Some(Opened(ms, objects)) =>
      match FlattenOr(check, objects)
      case None => None
      case Some(os) => Some(ms + os)
  }

  /** The body of the loop over the object-index artifacts. */
  function IndexStepOr(open: Json -> Option<IndexOpening>, check: Json -> Option<seq<Message>>): Json -> Option<seq<Message>>
  {
    artifact => IndexFromOr(open(artifact), check)
  }

  /** An index whose opening and objects report errors only reports errors only. */
  lemma IndexFromOrOnlyErrors(opening: Option<IndexOpening>, check: Json -> Option<seq<Message>>)
    requires opening.Some? ==> forall m :: m in opening.value.ms ==> m.level == Error
    requires forall x :: ErrorsOnly(check(x))
    ensures ErrorsOnly(IndexFromOr(opening, check))
  {
    if opening.Some? && opening.value.Opened? {
      FlattenOrOnlyErrors(check, opening.value.objects);
    }
  }

  /** When opening an index and checking an object report errors only, the whole layer does, and adds no warning. */
  lemma LayerOnlyErrors(open: Json -> Option<IndexOpening>, check: Json -> Option<seq<Message>>, indexes: seq<Json>)
    requires forall x :: open(x).Some? ==> forall m :: m in open(x).value.ms ==> m.level == Error
    requires forall x :: ErrorsOnly(check(x))
    ensures ErrorsOnly(FlattenOr(IndexStepOr(open, check), indexes))
    ensures FlattenOr(IndexStepOr(open, check), indexes).Some? ==>
      MessageCount(FlattenOr(IndexStepOr(open, check), indexes).value, Warning) == 0
  {
    var step := IndexStepOr(open, check);
    forall artifact
      ensures ErrorsOnly(step(artifact))
    {
      IndexFromOrOnlyErrors(open(artifact), check);
    }
    FlattenOrOnlyErrors(step, indexes);
    if FlattenOr(step, indexes).Some? {
      MessageCountZero(FlattenOr(step, indexes).value, Warning);
    }
  }
}
