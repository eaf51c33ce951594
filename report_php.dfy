/**
 * Model of the PHP report objects: `ArtifactResult` (one artifact's entry,
 * its details and its status) and `ValidationReport` (the summary counters,
 * the artifact entries and the package-level messages). Both are mutable
 * objects; the clock that stamps the report is a parameter.
 */
module PhpReport {
  import opened Common

  /** What the report lists for one artifact once it has been added. */
  datatype ArtifactView = ArtifactView(id: string, mediaType: Option<string>, path: Option<string>,
                                       sizeExpected: Option<int>, sizeActual: Option<int>,
                                       digestExpected: Option<string>, digestActual: Option<string>,
                                       status: Status, details: seq<Detail>)

  /** ArtifactResult.php: one artifact as the report lists it. */
  class ArtifactResult {
    var id: string
    var mediaType: Option<string>
    var path: Option<string>
    var sizeExpected: Option<int>
    var sizeActual: Option<int>
    var digestExpected: Option<string>
    var digestActual: Option<string>
    var status: Status
    var details: seq<Detail>

    /** The entry's fields as a value. */
    function Snapshot(): ArtifactView
      reads this
    {
      ArtifactView(id, mediaType, path, sizeExpected, sizeActual, digestExpected, digestActual, status, details)
    }

    /** A fresh entry: nothing measured yet, no details, status `ok`. */
    constructor (id: string, mediaType: Option<string>, path: Option<string>, sizeExpected: Option<int>,
                 digestExpected: Option<string>)
      ensures Snapshot() == ArtifactView(id, mediaType, path, sizeExpected, None, digestExpected, None, StatusOk, [])
    {
      this.id := id;
      this.mediaType := mediaType;
      this.path := path;
      this.sizeExpected := sizeExpected;
      this.sizeActual := None;
      this.digestExpected := digestExpected;
      this.digestActual := None;
      this.status := StatusOk;
      this.details := [];
    }

    /**
     * `addDetail`: one more detail at the end; the status is left to
     * `finalizeStatus`. The PHP level string is modelled by its `Level`.
     */
    method AddDetail(level: Level, code: string, message: string, line: Option<int>)
      modifies this
      ensures Snapshot() == old(Snapshot()).(details := old(details) + [Detail(level, code, message, line)])
    {
      details := details + [Detail(level, code, message, line)];
    }

    /** `finalizeStatus`: the `foreach` over the details, then error before warning before ok; `skipped` stays. */
    method FinalizeStatus()
      modifies this
      ensures Snapshot() == old(Snapshot()).(status := DeriveStatus(old(status), details))
    {
      if status == StatusSkipped {
        return;
      }
      var hasError := false;
      var hasWarning := false;
      for i := 0 to |details|
        invariant hasError <==> HasLevel(details[..i], Error)
        invariant hasWarning <==> HasLevel(details[..i], Warning)
      {
        assert details[..i + 1] == details[..i] + [details[i]];
        if details[i].level == Error {
          hasError := true;
        } else if details[i].level == Warning {
          hasWarning := true;
        }
        assert details[..i + 1][i] == details[i];
      }
      assert details[..|details|] == details;
      if hasError {
        status := StatusError;
      } else if hasWarning {
        status := StatusWarning;
      } else {
        status := StatusOk;
      }
    }
  }

  /** ValidationReport.php: the report a validator fills in. */
  class ValidationReport {
    var tool: map<string, string>
    var startedAt: string
    var finishedAt: Option<string>
    var targetType: string
    var targetPath: string
    var errors: int
    var warnings: int
    var artifactsTotal: int
    var artifactsValidated: int
    var artifactsSkipped: int
    var ndjsonLinesValidated: int
    var artifacts: seq<ArtifactView>
    var messages: seq<Message>

    /**
     * The tallies beyond what the messages account for: `addMessage` keeps
     * these fixed, so they change only through `incrementError` and
     * `incrementWarning`, which the validators call for artifact details.
     */
    function ErrorsBeyondMessages(): int
      reads this
    {
      errors - MessageCount(messages, Error)
    }

    function WarningsBeyondMessages(): int
      reads this
    {
      warnings - MessageCount(messages, Warning)
    }

    /** A fresh report: started at `now`, not finished, every counter zero, nothing listed. */
    constructor (tool: map<string, string>, targetType: string, targetPath: string, now: string)
      ensures this.tool == tool && this.targetType == targetType && this.targetPath == targetPath
      ensures startedAt == now && finishedAt.None?
      ensures errors == 0 && warnings == 0 && artifactsTotal == 0
      ensures artifactsValidated == 0 && artifactsSkipped == 0 && ndjsonLinesValidated == 0
      ensures artifacts == [] && messages == []
      ensures ErrorsBeyondMessages() == 0 && WarningsBeyondMessages() == 0
    {
      this.tool := tool;
      this.startedAt := now;
      this.finishedAt := None;
      this.targetType := targetType;
      this.targetPath := targetPath;
      this.errors := 0;
      this.warnings := 0;
      this.artifactsTotal := 0;
      this.artifactsValidated := 0;
      this.artifactsSkipped := 0;
      this.ndjsonLinesValidated := 0;
      this.artifacts := [];
      this.messages := [];
    }

    /** `addMessage`: the message is listed and its level tallied (`incrementLevel`); any other level is not counted. */
    method AddMessage(level: string, code: string, message: string)
      modifies this
      ensures messages == old(messages) + [Message(LevelOf(level), code, message)]
      ensures errors == old(errors) + (if LevelOf(level) == Error then 1 else 0)
      ensures warnings == old(warnings) + (if LevelOf(level) == Warning then 1 else 0)
      ensures artifacts == old(artifacts) && tool == old(tool) && startedAt == old(startedAt)
      ensures finishedAt == old(finishedAt) && targetType == old(targetType) && targetPath == old(targetPath)
      ensures artifactsTotal == old(artifactsTotal) && artifactsValidated == old(artifactsValidated)
      ensures artifactsSkipped == old(artifactsSkipped) && ndjsonLinesValidated == old(ndjsonLinesValidated)
      // the tallies move in step with the messages
      ensures ErrorsBeyondMessages() == old(ErrorsBeyondMessages())
      ensures WarningsBeyondMessages() == old(WarningsBeyondMessages())
    {
      var m := Message(LevelOf(level), code, message);
      MessageCountAppend(messages, [m], Error);
      MessageCountAppend(messages, [m], Warning);
      messages := messages + [m];
      IncrementLevel(level);
    }

    /** `incrementLevel`: `error` and `warning` bump their counter; any other level changes nothing. */
    method IncrementLevel(level: string)
      modifies this
      ensures errors == old(errors) + (if LevelOf(level) == Error then 1 else 0)
      ensures warnings == old(warnings) + (if LevelOf(level) == Warning then 1 else 0)
      ensures messages == old(messages) && artifacts == old(artifacts) && tool == old(tool)
      ensures startedAt == old(startedAt) && finishedAt == old(finishedAt)
      ensures targetType == old(targetType) && targetPath == old(targetPath)
      ensures artifactsTotal == old(artifactsTotal) && artifactsValidated == old(artifactsValidated)
      ensures artifactsSkipped == old(artifactsSkipped) && ndjsonLinesValidated == old(ndjsonLinesValidated)
    {
      if level == "error" {
        errors := errors + 1;
        return;
      }
      if level == "warning" {
        warnings := warnings + 1;
      }
    }

    /**
     * `addArtifact`: the entry is appended; no counter moves. The report
     * keeps the entry as it is when added: the validator never changes an
     * entry after adding it.
     */
    method AddArtifact(artifact: ArtifactResult)
      modifies this
      ensures artifacts == old(artifacts) + [artifact.Snapshot()]
      ensures messages == old(messages) && tool == old(tool) && startedAt == old(startedAt)
      ensures finishedAt == old(finishedAt) && targetType == old(targetType) && targetPath == old(targetPath)
      ensures errors == old(errors) && warnings == old(warnings) && artifactsTotal == old(artifactsTotal)
      ensures artifactsValidated == old(artifactsValidated) && artifactsSkipped == old(artifactsSkipped)
      ensures ndjsonLinesValidated == old(ndjsonLinesValidated)
    {
      artifacts := artifacts + [artifact.Snapshot()];
    }

    method SetArtifactsTotal(count: int)
      modifies this
      ensures artifactsTotal == count
      ensures artifacts == old(artifacts) && messages == old(messages) && tool == old(tool)
      ensures startedAt == old(startedAt) && finishedAt == old(finishedAt)
      ensures targetType == old(targetType) && targetPath == old(targetPath)
      ensures errors == old(errors) && warnings == old(warnings)
      ensures artifactsValidated == old(artifactsValidated) && artifactsSkipped == old(artifactsSkipped)
      ensures ndjsonLinesValidated == old(ndjsonLinesValidated)
    {
      artifactsTotal := count;
    }

    method IncrementArtifactsValidated(count: int)
      modifies this
      ensures artifactsValidated == old(artifactsValidated) + count
      ensures artifacts == old(artifacts) && messages == old(messages) && tool == old(tool)
      ensures startedAt == old(startedAt) && finishedAt == old(finishedAt)
      ensures targetType == old(targetType) && targetPath == old(targetPath)
      ensures errors == old(errors) && warnings == old(warnings)
      ensures artifactsTotal == old(artifactsTotal) && artifactsSkipped == old(artifactsSkipped)
      ensures ndjsonLinesValidated == old(ndjsonLinesValidated)
    {
      artifactsValidated := artifactsValidated + count;
    }

    method IncrementArtifactsSkipped(count: int)
      modifies this
      ensures artifactsSkipped == old(artifactsSkipped) + count
      ensures artifacts == old(artifacts) && messages == old(messages) && tool == old(tool)
      ensures startedAt == old(startedAt) && finishedAt == old(finishedAt)
      ensures targetType == old(targetType) && targetPath == old(targetPath)
      ensures errors == old(errors) && warnings == old(warnings)
      ensures artifactsTotal == old(artifactsTotal) && artifactsValidated == old(artifactsValidated)
      ensures ndjsonLinesValidated == old(ndjsonLinesValidated)
    {
      artifactsSkipped := artifactsSkipped + count;
    }

    method IncrementNdjsonLinesValidated(count: int)
      modifies this
      ensures ndjsonLinesValidated == old(ndjsonLinesValidated) + count
      ensures artifacts == old(artifacts) && messages == old(messages) && tool == old(tool)
      ensures startedAt == old(startedAt) && finishedAt == old(finishedAt)
      ensures targetType == old(targetType) && targetPath == old(targetPath)
      ensures errors == old(errors) && warnings == old(warnings)
      ensures artifactsTotal == old(artifactsTotal) && artifactsValidated == old(artifactsValidated)
      ensures artifactsSkipped == old(artifactsSkipped)
    {
      ndjsonLinesValidated := ndjsonLinesValidated + count;
    }

    /** `incrementError`: a tally for an artifact detail; the messages are untouched. */
    method IncrementError()
      modifies this
      ensures errors == old(errors) + 1 && warnings == old(warnings)
      ensures ErrorsBeyondMessages() == old(ErrorsBeyondMessages()) + 1
      ensures artifacts == old(artifacts) && messages == old(messages) && tool == old(tool)
      ensures startedAt == old(startedAt) && finishedAt == old(finishedAt)
      ensures targetType == old(targetType) && targetPath == old(targetPath)
      ensures artifactsTotal == old(artifactsTotal) && artifactsValidated == old(artifactsValidated)
      ensures artifactsSkipped == old(artifactsSkipped) && ndjsonLinesValidated == old(ndjsonLinesValidated)
    {
      errors := errors + 1;
    }

    method IncrementWarning()
      modifies this
      ensures warnings == old(warnings) + 1 && errors == old(errors)
      ensures WarningsBeyondMessages() == old(WarningsBeyondMessages()) + 1
      ensures artifacts == old(artifacts) && messages == old(messages) && tool == old(tool)
      ensures startedAt == old(startedAt) && finishedAt == old(finishedAt)
      ensures targetType == old(targetType) && targetPath == old(targetPath)
      ensures artifactsTotal == old(artifactsTotal) && artifactsValidated == old(artifactsValidated)
      ensures artifactsSkipped == old(artifactsSkipped) && ndjsonLinesValidated == old(ndjsonLinesValidated)
    {
      warnings := warnings + 1;
    }

    /** `markFinished`: stamped with `now`; nothing else changes. */
    method MarkFinished(now: string)
      modifies this
      ensures finishedAt == Some(now)
      ensures artifacts == old(artifacts) && messages == old(messages) && tool == old(tool)
      ensures startedAt == old(startedAt) && targetType == old(targetType) && targetPath == old(targetPath)
      ensures errors == old(errors) && warnings == old(warnings)
      ensures artifactsTotal == old(artifactsTotal) && artifactsValidated == old(artifactsValidated)
      ensures artifactsSkipped == old(artifactsSkipped) && ndjsonLinesValidated == old(ndjsonLinesValidated)
    {
      finishedAt := Some(now);
    }

    method SetTarget(targetType: string, targetPath: string)
      modifies this
      ensures this.targetType == targetType && this.targetPath == targetPath
      ensures artifacts == old(artifacts) && messages == old(messages) && tool == old(tool)
      ensures startedAt == old(startedAt) && finishedAt == old(finishedAt)
      ensures errors == old(errors) && warnings == old(warnings)
      ensures artifactsTotal == old(artifactsTotal) && artifactsValidated == old(artifactsValidated)
      ensures artifactsSkipped == old(artifactsSkipped) && ndjsonLinesValidated == old(ndjsonLinesValidated)
    {
      this.targetType := targetType;
      this.targetPath := targetPath;
    }

    method GetErrorCount() returns (n: int)
      ensures n == errors
    {
      n := errors;
    }

    method GetWarningCount() returns (n: int)
      ensures n == warnings
    {
      n := warnings;
    }
  }

  /** A run of `addMessage('error', ...)` calls: the messages are listed in order and each is tallied as an error. */
  method AddErrors(report: ValidationReport, ms: seq<Message>)
    requires forall m :: m in ms ==> m.level == Error
    modifies report
    ensures report.messages == old(report.messages) + ms
    ensures report.errors == old(report.errors) + |ms| && report.warnings == old(report.warnings)
    ensures report.ErrorsBeyondMessages() == old(report.ErrorsBeyondMessages())
    ensures report.WarningsBeyondMessages() == old(report.WarningsBeyondMessages())
    ensures report.artifacts == old(report.artifacts) && report.tool == old(report.tool)
    ensures report.startedAt == old(report.startedAt) && report.finishedAt == old(report.finishedAt)
    ensures report.targetType == old(report.targetType) && report.targetPath == old(report.targetPath)
    ensures report.artifactsTotal == old(report.artifactsTotal) && report.artifactsValidated == old(report.artifactsValidated)
    ensures report.artifactsSkipped == old(report.artifactsSkipped)
    ensures report.ndjsonLinesValidated == old(report.ndjsonLinesValidated)
  {
    for i := 0 to |ms|
      invariant report.messages == old(report.messages) + ms[..i]
      invariant report.errors == old(report.errors) + i && report.warnings == old(report.warnings)
      invariant report.ErrorsBeyondMessages() == old(report.ErrorsBeyondMessages())
      invariant report.WarningsBeyondMessages() == old(report.WarningsBeyondMessages())
      invariant report.artifacts == old(report.artifacts) && report.tool == old(report.tool)
      invariant report.startedAt == old(report.startedAt) && report.finishedAt == old(report.finishedAt)
      invariant report.targetType == old(report.targetType) && report.targetPath == old(report.targetPath)
      invariant report.artifactsTotal == old(report.artifactsTotal) && report.artifactsValidated == old(report.artifactsValidated)
      invariant report.artifactsSkipped == old(report.artifactsSkipped)
      invariant report.ndjsonLinesValidated == old(report.ndjsonLinesValidated)
    {
      assert ms[i] in ms;
      report.AddMessage("error", ms[i].code, ms[i].message);
      assert ms[..i + 1] == ms[..i] + [ms[i]];
    }
    assert ms[..|ms|] == ms;
  }
}
