/**
 * Model of report.js and the report helpers at the top of the Node
 * validator (`addMessage`, `addArtifactDetail`, `finalizeArtifactStatus`).
 * The report and each artifact entry are plain objects the helpers mutate;
 * here they are classes, and the helpers are methods that name what they
 * change. The clock is a parameter.
 */
module NodeReport {
  import opened Common
  import opened JsonDoc

  /**
   * An artifact entry as it stands in `report.artifacts`. The loop pushes an
   * entry only once it is finished and never touches it again, so the
   * report keeps its value.
   */
  datatype Entry = Entry(
    id: Option<Json>, mediaType: Option<Json>, path: Option<Json>,
    sizeExpected: Option<int>, sizeActual: Option<int>,
    digestExpected: Option<Json>, digestActual: Option<string>,
    status: Status, details: seq<Detail>)

  /** The artifact entry the loop fills in before pushing it. */
  class ArtifactEntry {
    /** `art.id` as the catalog has it (`None` when the field is absent). */
    var id: Option<Json>
    /** `art.mediaType || null`, `art.path || null`, `art.digest || null`: kept only when truthy. */
    var mediaType: Option<Json>
    var path: Option<Json>
    var sizeExpected: Option<int>
    var sizeActual: Option<int>
    var digestExpected: Option<Json>
    var digestActual: Option<string>
    var status: Status
    var details: seq<Detail>

    /** The entry as the artifact loop first builds it: status `ok`, no details, nothing measured. */
    constructor (id: Option<Json>, mediaType: Option<Json>, path: Option<Json>, size: Option<Json>, digest: Option<Json>)
      ensures this.id == id
      ensures this.mediaType == (if JsTruthy(mediaType) then mediaType else None)
      ensures this.path == (if JsTruthy(path) then path else None)
      ensures sizeExpected == (if size.Some? && size.value.JInt? then Some(size.value.n) else None)
      ensures digestExpected == (if JsTruthy(digest) then digest else None)
      ensures sizeActual.None? && digestActual.None?
      ensures status == StatusOk && details == []
    {
      this.id := id;
      this.mediaType := if JsTruthy(mediaType) then mediaType else None;
      this.path := if JsTruthy(path) then path else None;
      this.sizeExpected := if size.Some? && size.value.JInt? then Some(size.value.n) else None;
      this.sizeActual := None;
      this.digestExpected := if JsTruthy(digest) then digest else None;
      this.digestActual := None;
      this.status := StatusOk;
      this.details := [];
    }

    /** The entry's fields, as a value. */
    function Snapshot(): Entry
      reads this
    {
      Entry(id, mediaType, path, sizeExpected, sizeActual, digestExpected, digestActual, status, details)
    }
  }

  /** The report object `createReport` builds. */
  class Report {
    var toolName: string
    var toolVersion: string
    var startedAt: string
    var finishedAt: Option<string>
    var targetType: string
    var targetPath: string
    var errors: int
    var warnings: int
    var artifactsTotal: int
    var artifactsValidated: int
    var artifactsSkipped: int
    var ndjsonLinesValidated: int
    var artifacts: seq<Entry>
    var messages: seq<Message>

    /** `createReport`: started at `now`, unfinished, every counter zero, nothing listed. */
    constructor (toolName: string, toolVersion: string, targetType: string, targetPath: string, now: string)
      ensures this.toolName == toolName && this.toolVersion == toolVersion
      ensures this.targetType == targetType && this.targetPath == targetPath
      ensures startedAt == now && finishedAt.None?
      ensures errors == 0 && warnings == 0 && artifactsTotal == 0
      ensures artifactsValidated == 0 && artifactsSkipped == 0 && ndjsonLinesValidated == 0
      ensures artifacts == [] && messages == []
    {
      this.toolName := toolName;
      this.toolVersion := toolVersion;
      this.startedAt := now;
      this.finishedAt := None;
      this.targetType := targetType;
      this.targetPath := targetPath;
      this.errors := 0;
      this.warnings := 0;
      this.artifactsTotal := 0;
      this.artifactsValidated := 0;
      this.artifactsSkipped := 0;
      this.ndjsonLinesValidated := 0;
      this.artifacts := [];
      this.messages := [];
    }
  }

  /** The error (or warning) tally that one more item of level `level` adds to the `l` counter. */
  function Bump(level: Level, l: Level): (n: nat)
    ensures n == 1 <==> level == l
    ensures n <= 1
  {
    if level == l then 1 else 0
  }

  /** `addMessage`: the message is listed and its level tallied; other levels are listed but not counted. */
  method AddMessage(report: Report, level: Level, code: string, message: string)
    modifies report
    ensures report.messages == old(report.messages) + [Message(level, code, message)]
    ensures report.errors == old(report.errors) + Bump(level, Error)
    ensures report.warnings == old(report.warnings) + Bump(level, Warning)
    // the counters stay in step with the messages
    ensures report.errors - MessageCount(report.messages, Error) == old(report.errors - MessageCount(report.messages, Error))
    ensures report.warnings - MessageCount(report.messages, Warning) == old(report.warnings - MessageCount(report.messages, Warning))
    ensures report.artifacts == old(report.artifacts) && report.artifactsTotal == old(report.artifactsTotal)
    ensures report.artifactsValidated == old(report.artifactsValidated)
    ensures report.artifactsSkipped == old(report.artifactsSkipped)
    ensures report.ndjsonLinesValidated == old(report.ndjsonLinesValidated)
    ensures report.finishedAt == old(report.finishedAt) && report.startedAt == old(report.startedAt)
    ensures report.targetType == old(report.targetType) && report.targetPath == old(report.targetPath)
  {
    var m := Message(level, code, message);
    MessageCountAppend(report.messages, [m], Error);
    MessageCountAppend(report.messages, [m], Warning);
    report.messages := report.messages + [m];
    if level == Error {
      report.errors := report.errors + 1;
    } else if level == Warning {
      report.warnings := report.warnings + 1;
    }
  }

  /** `addArtifactDetail`: the detail goes on the entry, and its level is tallied in the report summary. */
  method AddArtifactDetail(report: Report, artifact: ArtifactEntry, level: Level, code: string, message: string,
                           line: Option<int>)
    modifies report, artifact
    ensures artifact.details == old(artifact.details) + [Detail(level, code, message, line)]
    ensures report.errors == old(report.errors) + Bump(level, Error)
    ensures report.warnings == old(report.warnings) + Bump(level, Warning)
    ensures artifact.status == old(artifact.status) && artifact.sizeActual == old(artifact.sizeActual)
    ensures artifact.digestActual == old(artifact.digestActual)
    ensures artifact.id == old(artifact.id) && artifact.mediaType == old(artifact.mediaType)
    ensures artifact.path == old(artifact.path) && artifact.sizeExpected == old(artifact.sizeExpected)
    ensures artifact.digestExpected == old(artifact.digestExpected)
    ensures report.messages == old(report.messages) && report.artifacts == old(report.artifacts)
    ensures report.artifactsTotal == old(report.artifactsTotal)
    ensures report.artifactsValidated == old(report.artifactsValidated)
    ensures report.artifactsSkipped == old(report.artifactsSkipped)
    ensures report.ndjsonLinesValidated == old(report.ndjsonLinesValidated)
    ensures report.finishedAt == old(report.finishedAt) && report.startedAt == old(report.startedAt)
  {
    artifact.details := artifact.details + [Detail(level, code, message, line)];
    if level == Error {
      report.errors := report.errors + 1;
    } else if level == Warning {
      report.warnings := report.warnings + 1;
    }
  }

  /** `addMessage` for each message in turn. */
  method AddMessages(report: Report, ms: seq<Message>)
    modifies report
    ensures report.messages == old(report.messages) + ms
    ensures report.errors == old(report.errors) + MessageCount(ms, Error)
    ensures report.warnings == old(report.warnings) + MessageCount(ms, Warning)
    ensures report.artifacts == old(report.artifacts) && report.artifactsTotal == old(report.artifactsTotal)
    ensures report.artifactsValidated == old(report.artifactsValidated)
    ensures report.artifactsSkipped == old(report.artifactsSkipped)
    ensures report.ndjsonLinesValidated == old(report.ndjsonLinesValidated)
    ensures report.finishedAt == old(report.finishedAt) && report.startedAt == old(report.startedAt)
    ensures report.targetType == old(report.targetType) && report.targetPath == old(report.targetPath)
  {
    for i := 0 to |ms|
      invariant report.messages == old(report.messages) + ms[..i]
      invariant report.errors == old(report.errors) + MessageCount(ms[..i], Error)
      invariant report.warnings == old(report.warnings) + MessageCount(ms[..i], Warning)
      invariant report.artifacts == old(report.artifacts) && report.artifactsTotal == old(report.artifactsTotal)
      invariant report.artifactsValidated == old(report.artifactsValidated)
      invariant report.artifactsSkipped == old(report.artifactsSkipped)
      invariant report.ndjsonLinesValidated == old(report.ndjsonLinesValidated)
      invariant report.finishedAt == old(report.finishedAt) && report.startedAt == old(report.startedAt)
      invariant report.targetType == old(report.targetType) && report.targetPath == old(report.targetPath)
    {
      assert ms[..i + 1] == ms[..i] + [ms[i]];
      MessageCountAppend(ms[..i], [ms[i]], Error);
      MessageCountAppend(ms[..i], [ms[i]], Warning);
      AddMessage(report, ms[i].level, ms[i].code, ms[i].message);
    }
    assert ms[..|ms|] == ms;
  }

  /** `addArtifactDetail` for each detail in turn. */
  method AddArtifactDetails(report: Report, artifact: ArtifactEntry, ds: seq<Detail>)
    modifies report, artifact
    ensures artifact.details == old(artifact.details) + ds
    ensures report.errors == old(report.errors) + DetailCount(ds, Error)
    ensures report.warnings == old(report.warnings) + DetailCount(ds, Warning)
    ensures artifact.status == old(artifact.status) && artifact.sizeActual == old(artifact.sizeActual)
    ensures artifact.digestActual == old(artifact.digestActual)
    ensures artifact.id == old(artifact.id) && artifact.mediaType == old(artifact.mediaType)
    ensures artifact.path == old(artifact.path) && artifact.sizeExpected == old(artifact.sizeExpected)
    ensures artifact.digestExpected == old(artifact.digestExpected)
    ensures report.messages == old(report.messages) && report.artifacts == old(report.artifacts)
    ensures report.artifactsTotal == old(report.artifactsTotal)
    ensures report.artifactsValidated == old(report.artifactsValidated)
    ensures report.artifactsSkipped == old(report.artifactsSkipped)
    ensures report.ndjsonLinesValidated == old(report.ndjsonLinesValidated)
    ensures report.finishedAt == old(report.finishedAt) && report.startedAt == old(report.startedAt)
  {
    for i := 0 to |ds|
      invariant artifact.details == old(artifact.details) + ds[..i]
      invariant report.errors == old(report.errors) + DetailCount(ds[..i], Error)
      invariant report.warnings == old(report.warnings) + DetailCount(ds[..i], Warning)
      invariant artifact.status == old(artifact.status) && artifact.sizeActual == old(artifact.sizeActual)
      invariant artifact.digestActual == old(artifact.digestActual)
      invariant artifact.id == old(artifact.id) && artifact.mediaType == old(artifact.mediaType)
      invariant artifact.path == old(artifact.path) && artifact.sizeExpected == old(artifact.sizeExpected)
      invariant artifact.digestExpected == old(artifact.digestExpected)
      invariant report.messages == old(report.messages) && report.artifacts == old(report.artifacts)
      invariant report.artifactsTotal == old(report.artifactsTotal)
      invariant report.artifactsValidated == old(report.artifactsValidated)
      invariant report.artifactsSkipped == old(report.artifactsSkipped)
      invariant report.ndjsonLinesValidated == old(report.ndjsonLinesValidated)
      invariant report.finishedAt == old(report.finishedAt) && report.startedAt == old(report.startedAt)
    {
      assert ds[..i + 1] == ds[..i] + [ds[i]];
      DetailCountAppend(ds[..i], [ds[i]], Error);
      DetailCountAppend(ds[..i], [ds[i]], Warning);
      AddArtifactDetail(report, artifact, ds[i].level, ds[i].code, ds[i].message, ds[i].line);
    }
    assert ds[..|ds|] == ds;
  }

  /** `finalizeArtifactStatus`: a skipped entry keeps its status; any other gets error, warning or ok from its details. */
  method FinalizeArtifactStatus(artifact: ArtifactEntry)
    modifies artifact
    ensures artifact.status == DeriveStatus(old(artifact.status), artifact.details)
    ensures artifact.details == old(artifact.details) && artifact.id == old(artifact.id)
    ensures artifact.sizeActual == old(artifact.sizeActual) && artifact.digestActual == old(artifact.digestActual)
    ensures artifact.mediaType == old(artifact.mediaType) && artifact.path == old(artifact.path)
    ensures artifact.sizeExpected == old(artifact.sizeExpected) && artifact.digestExpected == old(artifact.digestExpected)
  {
    if artifact.status == StatusSkipped {
      return;
    }
    var hasError := exists i :: 0 <= i < |artifact.details| && artifact.details[i].level == Error;
    var hasWarning := exists i :: 0 <= i < |artifact.details| && artifact.details[i].level == Warning;
    if hasError {
      artifact.status := StatusError;
    } else if hasWarning {
      artifact.status := StatusWarning;
    } else {
      artifact.status := StatusOk;
    }
  }

  /** `finalizeReport`: stamped with `now`; nothing else changes. */
  method FinalizeReport(report: Report, now: string)
    modifies report
    ensures report.finishedAt == Some(now)
    ensures report.messages == old(report.messages) && report.artifacts == old(report.artifacts)
    ensures report.errors == old(report.errors) && report.warnings == old(report.warnings)
    ensures report.artifactsTotal == old(report.artifactsTotal)
    ensures report.artifactsValidated == old(report.artifactsValidated)
    ensures report.artifactsSkipped == old(report.artifactsSkipped)
    ensures report.ndjsonLinesValidated == old(report.ndjsonLinesValidated)
    ensures report.startedAt == old(report.startedAt)
    ensures report.targetType == old(report.targetType) && report.targetPath == old(report.targetPath)
  {
    report.finishedAt := Some(now);
  }
}
