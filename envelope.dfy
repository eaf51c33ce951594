/**
 * The envelope validators: an encrypted package's header (`*.enc.json`) is
 * read, schema-checked, and, on request, its `payload.file` is resolved next
 * to the header and must exist. Node's `validateEnvelope` and PHP's
 * `EnvelopeValidator::validate` differ in their codes, in how they read the
 * header, and in what counts as an existing payload.
 */

module EnvelopeNode {
  import opened Common
  import opened Strings
  import opened JsonDoc
  import opened Env
  import opened Lexical
  import opened PathSafe
  import opened JsonValidate
  import opened NodeReport
  import PackageNode

  /** The options of `validateEnvelope`, with the envelope schema's validator already compiled. */
  datatype Envelope = Envelope(h: Host, header: Dir, validator: Validator, checkPayloadFile: bool,
                               toolName: string, toolVersion: string)

  const PayloadMissing: Message := Message(Error, "ENVELOPE_PAYLOAD_FILE_MISSING", "payload.file is missing or not a string")
  const PayloadNotFound: Message := Message(Error, "ENVELOPE_PAYLOAD_FILE_NOT_FOUND", "payload.file not found")

  /** `envelopeResult.data?.payload?.file`. */
  function PayloadFile(data: Json): Option<Json>
  {
    match Prop(data, "payload")
    case Some(payload) => Prop(payload, "file")
    case None => None
  }

  /** The payload-file check: a non-blank string, accepted by `resolveSafePath` next to the header, naming something that exists. */
  function PayloadMessages(h: Host, dir: Dir, data: Json): (ms: seq<Message>)
    ensures |ms| <= 1 && forall m :: m in ms ==> m.level == Error
    // silent exactly when the file is named, safe and present (a directory counts as present)
    ensures ms == [] <==>
      && PayloadFile(data).Some? && PayloadFile(data).value.JStr? && !JsBlank(PayloadFile(data).value.s)
      && ResolveSafePath(dir, PayloadFile(data)).Resolved? && Exists(h, ResolveSafePath(dir, PayloadFile(data)).resolved)
    ensures !(PayloadFile(data).Some? && PayloadFile(data).value.JStr? && !JsBlank(PayloadFile(data).value.s)) ==>
      ms == [PayloadMissing]
    // an unsafe name is reported under the sandbox's own code
    ensures PayloadFile(data).Some? && PayloadFile(data).value.JStr? && !JsBlank(PayloadFile(data).value.s)
            && ResolveSafePath(dir, PayloadFile(data)).Rejected? ==>
      var r := ResolveSafePath(dir, PayloadFile(data));
      ms == [Message(Error, r.code, r.message)]
  {
    match PayloadFile(data)
    case Some(JStr(s)) =>
      if JsBlank(s) then [PayloadMissing]
      else
        (match ResolveSafePath(dir, Some(JStr(s)))
         case Rejected(code, message) => [Message(Error, code, message)]
         case Resolved(resolved) => if Exists(h, resolved) then [] else [PayloadNotFound])
    case _ => [PayloadMissing]
  }

  /** The messages of a header that was read. */
  function ReadMessages(e: Envelope, data: Json): seq<Message>
  {
    PackageNode.SchemaMessages(ValidateWithSchema(e.validator, data), "ENVELOPE_SCHEMA_ERROR")
    + if e.checkPayloadFile then PayloadMessages(e.h, Parent(e.header), data) else []
  }

  /** Everything `validateEnvelope` reports, in order. */
  function EnvelopeMessages(e: Envelope): seq<Message>
  {
    var p := Render(e.header);
    if !Exists(e.h, p) then [Message(Error, "ENVELOPE_MISSING", "Envelope header file not found")]
    else
      match ReadJson(e.h, p)
      case ParseFailed(reason) => [Message(Error, "ENVELOPE_PARSE_ERROR", "Failed to read envelope: " + reason)]
      case Parsed(data) => ReadMessages(e, data)
  }

  /**
   * A header that is missing or cannot be read and parsed gives exactly one
   * error, and then neither the schema nor the payload is looked at.
   */
  lemma HeaderStops(e: Envelope)
    requires !Exists(e.h, Render(e.header)) || ReadJson(e.h, Render(e.header)).ParseFailed?
    ensures |EnvelopeMessages(e)| == 1
    ensures EnvelopeMessages(e)[0].code == (if Exists(e.h, Render(e.header)) then "ENVELOPE_PARSE_ERROR" else "ENVELOPE_MISSING")
  {
  }

  /**
   * A parsed header gets one `ENVELOPE_SCHEMA_ERROR` per formatted schema
   * error, and the payload verdict only when `checkPayloadFile` is set.
   */
  lemma ParsedHeader(e: Envelope)
    requires Exists(e.h, Render(e.header)) && ReadJson(e.h, Render(e.header)).Parsed?
    ensures var data := ReadJson(e.h, Render(e.header)).value;
      var errors := ValidateWithSchema(e.validator, data).errors;
      var ms := EnvelopeMessages(e);
      && |ms| == |errors| + (if e.checkPayloadFile then |PayloadMessages(e.h, Parent(e.header), data)| else 0)
      && (forall i :: 0 <= i < |errors| ==> ms[i] == Message(Error, "ENVELOPE_SCHEMA_ERROR", errors[i].message))
      && (!e.checkPayloadFile ==> |ms| == |errors|)
      && (e.checkPayloadFile ==> ms[|errors|..] == PayloadMessages(e.h, Parent(e.header), data))
  {
    var data := ReadJson(e.h, Render(e.header)).value;
    var schema := PackageNode.SchemaMessages(ValidateWithSchema(e.validator, data), "ENVELOPE_SCHEMA_ERROR");
    assert EnvelopeMessages(e) == ReadMessages(e, data);
    if e.checkPayloadFile {
      assert (schema + PayloadMessages(e.h, Parent(e.header), data))[|schema|..] == PayloadMessages(e.h, Parent(e.header), data);
    }
  }

  /** What a read header adds is errors only. */
  lemma ReadOnlyErrors(e: Envelope, data: Json)
    ensures forall m :: m in ReadMessages(e, data) ==> m.level == Error
    ensures MessageCount(ReadMessages(e, data), Error) == |ReadMessages(e, data)|
    ensures MessageCount(ReadMessages(e, data), Warning) == 0
  {
    var schema := PackageNode.SchemaMessages(ValidateWithSchema(e.validator, data), "ENVELOPE_SCHEMA_ERROR");
    var payload := if e.checkPayloadFile then PayloadMessages(e.h, Parent(e.header), data) else [];
    forall m: Message | m in schema + payload
      ensures m.level == Error
    {
      if m in schema {
        var i :| 0 <= i < |schema| && schema[i] == m;
      }
    }
    UniformCount(ReadMessages(e, data), Error, Warning);
  }

  /** The envelope validator only ever reports errors. */
  lemma OnlyErrors(e: Envelope)
    ensures forall m :: m in EnvelopeMessages(e) ==> m.level == Error
  {
    var p := Render(e.header);
    if Exists(e.h, p) && ReadJson(e.h, p).Parsed? {
      ReadOnlyErrors(e, ReadJson(e.h, p).value);
    }
  }

  /** The schema and payload blocks, once the header is parsed. */
  method CheckHeader(report: Report, e: Envelope, data: Json)
    modifies report
    ensures report.messages == old(report.messages) + ReadMessages(e, data)
    ensures report.errors == old(report.errors) + |ReadMessages(e, data)| && report.warnings == old(report.warnings)
    ensures report.finishedAt == old(report.finishedAt) && report.artifacts == old(report.artifacts)
    ensures report.artifactsTotal == old(report.artifactsTotal) && report.artifactsValidated == old(report.artifactsValidated)
    ensures report.artifactsSkipped == old(report.artifactsSkipped)
    ensures report.ndjsonLinesValidated == old(report.ndjsonLinesValidated)
    ensures report.targetType == old(report.targetType) && report.targetPath == old(report.targetPath)
    ensures report.startedAt == old(report.startedAt)
  {
    var schema := PackageNode.SchemaMessages(ValidateWithSchema(e.validator, data), "ENVELOPE_SCHEMA_ERROR");
    ghost var payload := if e.checkPayloadFile then PayloadMessages(e.h, Parent(e.header), data) else [];
    assert ReadMessages(e, data) == schema + payload;
    ReadOnlyErrors(e, data);
    MessageCountAppend(schema, payload, Error);
    MessageCountAppend(schema, payload, Warning);
    ghost var before := report.messages;
    AddMessages(report, schema);
    if e.checkPayloadFile {
      CheckPayload(report, e.h, Parent(e.header), data);
    }
    assert report.messages == (before + schema) + payload;
    Associative(before, schema, payload);
  }

  /** The payload-file block of `validateEnvelope`. */
  method CheckPayload(report: Report, h: Host, dir: Dir, data: Json)
    modifies report
    ensures report.messages == old(report.messages) + PayloadMessages(h, dir, data)
    ensures report.errors == old(report.errors) + |PayloadMessages(h, dir, data)| && report.warnings == old(report.warnings)
    ensures report.finishedAt == old(report.finishedAt) && report.artifacts == old(report.artifacts)
    ensures report.artifactsTotal == old(report.artifactsTotal) && report.artifactsValidated == old(report.artifactsValidated)
    ensures report.artifactsSkipped == old(report.artifactsSkipped)
    ensures report.ndjsonLinesValidated == old(report.ndjsonLinesValidated)
    ensures report.targetType == old(report.targetType) && report.targetPath == old(report.targetPath)
    ensures report.startedAt == old(report.startedAt)
  {
    var payloadFile := PayloadFile(data);
    if !(payloadFile.Some? && payloadFile.value.JStr?) || JsBlank(payloadFile.value.s) {
      AddMessage(report, Error, "ENVELOPE_PAYLOAD_FILE_MISSING", "payload.file is missing or not a string");
      return;
    }
    var safePayload := ResolveSafePath(dir, payloadFile);
    if safePayload.Rejected? {
      AddMessage(report, Error, safePayload.code, safePayload.message);
    } else if !Exists(h, safePayload.resolved) {
      AddMessage(report, Error, "ENVELOPE_PAYLOAD_FILE_NOT_FOUND", "payload.file not found");
    }
  }

  /** `validateEnvelope`, up to writing the report, which is not part of this model. */
  method ValidateEnvelope(e: Envelope, startedAt: string, finishedAt: string) returns (report: Report)
    ensures fresh(report)
    ensures report.messages == EnvelopeMessages(e)
    ensures report.errors == |EnvelopeMessages(e)| && report.warnings == 0
    ensures report.targetType == "envelope" && report.targetPath == Render(e.header)
    ensures report.startedAt == startedAt && report.finishedAt == Some(finishedAt)
    ensures report.artifacts == [] && report.artifactsTotal == 0 && report.artifactsValidated == 0
    ensures report.artifactsSkipped == 0 && report.ndjsonLinesValidated == 0
  {
    var p := Render(e.header);
    report := new Report(e.toolName, e.toolVersion, "envelope", p, startedAt);
    if !Exists(e.h, p) {
      AddMessage(report, Error, "ENVELOPE_MISSING", "Envelope header file not found");
      FinalizeReport(report, finishedAt);
      return;
    }
    var envelopeResult := ReadJson(e.h, p);
    if envelopeResult.ParseFailed? {
      AddMessage(report, Error, "ENVELOPE_PARSE_ERROR", "Failed to read envelope: " + envelopeResult.reason);
      FinalizeReport(report, finishedAt);
      return;
    }
    CheckHeader(report, e, envelopeResult.value);
    FinalizeReport(report, finishedAt);
  }
}

module EnvelopePhp {
  import opened Common
  import opened Strings
  import opened JsonDoc
  import opened Env
  import opened Lexical
  import opened PhpReport
  import SafePath
  import ObjectsPhp

  /** The arguments of `validate`, with the outside world. */
  datatype Envelope = Envelope(h: Host, header: Dir, schema: SchemaCheck, checkPayloadFile: bool, tool: map<string, string>)

  const PayloadMissing: Message := Message(Error, "MISSING_FILE", "payload.file is missing")
  const PayloadNotFound: Message := Message(Error, "MISSING_FILE", "payload.file not found")

  /** PHP's `(string)` cast of a decoded value; `None` where it throws, on an object. */
  function CastToString(v: Json): (r: Option<string>)
    ensures r.None? <==> v.JObj?
    ensures v.JStr? ==> r == Some(v.s)
  {
    match v
    case JNull => Some("")
    case JBool(b) => Some(if b then "1" else "")
    case JInt(n) => Some(IntToString(n))
    case JStr(s) => Some(s)
    case JArr(_) => Some("Array")
    case JObj(_) => None
  }

  /** `is_object($payload) && isset($payload->file) ? (string) $payload->file : ''`; `None` when the cast throws. */
  function PayloadFile(data: Json): Option<string>
  {
    match Prop(data, "payload")
    case Some(JObj(fields)) => if "file" in fields && fields["file"] != JNull then CastToString(fields["file"]) else Some("")
    case _ => Some("")
  }

  /** The payload-file check for the name `file`, next to the header. */
  function PayloadMessages(h: Host, dir: Dir, file: string): (ms: seq<Message>)
    ensures |ms| <= 1 && forall m :: m in ms ==> m.level == Error
    // silent exactly when the name is given, safe, and names a regular file (a directory is not found)
    ensures ms == [] <==> file != "" && SafePath.Resolve(dir, file).ok && IsFile(h, SafePath.Resolve(dir, file).path.value)
    ensures file == "" ==> ms == [PayloadMissing]
    // an unsafe name is reported under the sandbox's code and message
    ensures file != "" && !SafePath.Resolve(dir, file).ok ==>
      ms == [Message(Error, "INVALID_PATH", SafePath.Resolve(dir, file).message.value)]
  {
    if file == "" then [PayloadMissing]
    else
      var safe := SafePath.Resolve(dir, file);
      if !safe.ok then [ObjectsPhp.Unsafe(safe)]
      else if safe.path.Some? && !IsFile(h, safe.path.value) then [PayloadNotFound]
      else []
  }

  /** Everything `validate` reports, in order; `None` when it throws. */
  function EnvelopeMessages(e: Envelope): Option<seq<Message>>
  {
    match PhpReadJson(e.h, Render(e.header))
    case ParseFailed(reason) => Some([Message(Error, "INVALID_JSON", "Failed to read envelope: " + reason)])
    case Parsed(data) =>
      match ObjectsPhp.Validated(e.schema, "envelope", data, "SCHEMA_VALIDATION_FAILED")
      case None => None
      case Some(schema) =>
        if !e.checkPayloadFile then Some(schema)
        else
          match PayloadFile(data)
          case None => None
          case Some(file) => Some(schema + PayloadMessages(e.h, Parent(e.header), file))
  }

  /** A header that cannot be read or decoded (a missing file included) gives one `INVALID_JSON` error and nothing else. */
  lemma HeaderStops(e: Envelope)
    requires PhpReadJson(e.h, Render(e.header)).ParseFailed?
    ensures EnvelopeMessages(e).Some? && |EnvelopeMessages(e).value| == 1
    ensures EnvelopeMessages(e).value[0].code == "INVALID_JSON"
    ensures !IsFile(e.h, Render(e.header)) ==>
      EnvelopeMessages(e).value[0].message == "Failed to read envelope: File not found"
  {
  }

  /**
   * A decoded header gets one `SCHEMA_VALIDATION_FAILED` error per schema
   * message, then the payload verdict only when `checkPayloadFile` is set;
   * the run throws when the header decodes to something other than an
   * object (the schema check's `TypeError`) and on a `payload.file` that is
   * an object.
   */
  lemma ParsedHeader(e: Envelope)
    requires PhpReadJson(e.h, Render(e.header)).Parsed?
    ensures var data := PhpReadJson(e.h, Render(e.header)).value;
      var schema := ObjectsPhp.SchemaMessages(e.schema, "envelope", data, "SCHEMA_VALIDATION_FAILED");
      && (EnvelopeMessages(e).None? <==> !data.JObj? || (e.checkPayloadFile && PayloadFile(data).None?))
      && (data.JObj? && !e.checkPayloadFile ==> EnvelopeMessages(e) == Some(schema))
      && (EnvelopeMessages(e).Some? ==> EnvelopeMessages(e).value[..|schema|] == schema)
  {
    var data := PhpReadJson(e.h, Render(e.header)).value;
    var schema := ObjectsPhp.SchemaMessages(e.schema, "envelope", data, "SCHEMA_VALIDATION_FAILED");
    if data.JObj? && e.checkPayloadFile && PayloadFile(data).Some? {
      var payload := PayloadMessages(e.h, Parent(e.header), PayloadFile(data).value);
      assert (schema + payload)[..|schema|] == schema;
    }
  }

  /** The envelope validator only ever reports errors. */
  lemma OnlyErrors(e: Envelope)
    requires EnvelopeMessages(e).Some?
    ensures forall m :: m in EnvelopeMessages(e).value ==> m.level == Error
  {
  }

  /** The payload-file block of `validate`, for the cast name `file`. */
  method CheckPayload(report: ValidationReport, h: Host, dir: Dir, file: string)
    modifies report
    ensures report.messages == old(report.messages) + PayloadMessages(h, dir, file)
    ensures report.errors == old(report.errors) + |PayloadMessages(h, dir, file)| && report.warnings == old(report.warnings)
    ensures report.finishedAt == old(report.finishedAt) && report.artifacts == old(report.artifacts)
    ensures report.artifactsTotal == old(report.artifactsTotal) && report.artifactsValidated == old(report.artifactsValidated)
    ensures report.artifactsSkipped == old(report.artifactsSkipped)
    ensures report.ndjsonLinesValidated == old(report.ndjsonLinesValidated)
    ensures report.targetType == old(report.targetType) && report.targetPath == old(report.targetPath)
    ensures report.startedAt == old(report.startedAt)
  {
    if file == "" {
      report.AddMessage("error", "MISSING_FILE", "payload.file is missing");
      return;
    }
    var safe := SafePath.Resolve(dir, file);
    if !safe.ok {
      report.AddMessage("error", if safe.code.Some? then safe.code.value else "INVALID_PATH",
                        if safe.message.Some? then safe.message.value else "Invalid path");
    } else if safe.path.Some? && !IsFile(h, safe.path.value) {
      report.AddMessage("error", "MISSING_FILE", "payload.file not found");
    }
  }

  /** `validate($encJsonPath, $checkPayloadFile, $toolInfo)`, up to writing the report, which is not part of this model. */
  method Validate(e: Envelope, startedAt: string, finishedAt: string)
    returns (report: ValidationReport, usageError: bool, thrown: bool)
    ensures fresh(report) && !usageError
    ensures thrown <==> EnvelopeMessages(e).None?
    ensures !thrown ==>
      && report.messages == EnvelopeMessages(e).value
      && report.errors == |EnvelopeMessages(e).value| && report.warnings == 0
      && report.finishedAt == Some(finishedAt)
    ensures report.targetType == "envelope" && report.targetPath == Render(e.header) && report.startedAt == startedAt
    ensures report.artifacts == [] && report.artifactsTotal == 0 && report.artifactsValidated == 0
    ensures report.artifactsSkipped == 0 && report.ndjsonLinesValidated == 0
  {
    var p := Render(e.header);
    report := new ValidationReport(e.tool, "envelope", p, startedAt);
    usageError, thrown := false, false;
    var jsonResult := PhpReadJson(e.h, p);
    if jsonResult.ParseFailed? {
      report.AddMessage("error", "INVALID_JSON", "Failed to read envelope: " + jsonResult.reason);
      report.MarkFinished(finishedAt);
      return;
    }
    var data := jsonResult.value;
    if !data.JObj? {
      thrown := true;
      return;
    }
    AddErrors(report, ObjectsPhp.Validated(e.schema, "envelope", data, "SCHEMA_VALIDATION_FAILED").value);
    if e.checkPayloadFile {
      var payloadFile := PayloadFile(data);
      if payloadFile.None? {
        thrown := true;
        return;
      }
      CheckPayload(report, e.h, Parent(e.header), payloadFile.value);
    }
    report.MarkFinished(finishedAt);
  }
}
