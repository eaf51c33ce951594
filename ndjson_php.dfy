/**
 * Model of NdjsonValidator.php: `validateFile` reads an NDJSON file line by
 * line. A line blank after `trim` is skipped, with a warning only when asked
 * for; any other line is counted, decoded, required to be an object, handed
 * to the record hook and checked against the named schema. The lines are
 * those `SplFileObject` yields (`SplLines`); the decoder, the hook and the
 * schema check are inputs.
 */
module NdjsonPhp {
  import opened Common
  import opened Strings
  import opened JsonDoc
  import opened Env
  import opened LineWalk

  /** One detail as a record hook returns it; its `line` may be null. */
  datatype HookDetail = HookDetail(level: string, code: string, message: string, line: Option<int>)

  /** `$onRecord($record, $lineNumber)`. */
  type RecordHook = (Json, nat) -> seq<HookDetail>

  datatype NdjsonResult = NdjsonResult(details: seq<Detail>, linesValidated: nat)

  /** A hook detail as recorded: its own line, or the current one when it has none. */
  function FromHook(d: HookDetail, n: nat): (r: Detail)
    ensures r.level == LevelOf(d.level) && r.code == d.code && r.message == d.message
    ensures d.line.None? ==> r.line == Some(n)
    ensures d.line.Some? ==> r.line == d.line
  {
    Detail(LevelOf(d.level), d.code, d.message, if d.line.Some? then d.line else Some(n))
  }

  function HookDetails(hook: Option<RecordHook>, record: Json, n: nat): (r: seq<Detail>)
    ensures hook.None? ==> r == []
    ensures hook.Some? ==> |r| == |hook.value(record, n)|
    ensures hook.Some? ==> forall i :: 0 <= i < |r| ==> r[i] == FromHook(hook.value(record, n)[i], n)
  {
    if hook.None? then []
    else
      var extra := hook.value(record, n);
      seq(|extra|, i requires 0 <= i < |extra| => FromHook(extra[i], n))
  }

  /** The schema detail: the first message only, or a fixed text when there is none. */
  function SchemaDetail(errors: seq<string>, n: nat): (d: Detail)
    ensures d.level == Error && d.code == "NDJSON_SCHEMA_FAILED" && d.line == Some(n)
    ensures errors != [] ==> d.message == errors[0]
    ensures errors == [] ==> d.message == "NDJSON schema error"
  {
    Detail(Error, "NDJSON_SCHEMA_FAILED", if errors != [] then errors[0] else "NDJSON schema error", Some(n))
  }

  /** What line `n` contributes. */
  function LineDetails(parse: string -> ParseResult, schema: SchemaCheck, schemaName: string, warnOnEmptyLine: bool,
                       hook: Option<RecordHook>, line: string, n: nat): seq<Detail>
  {
    var trimmed := PhpTrim(line);
    if trimmed == "" then
      if warnOnEmptyLine then [Detail(Warning, "EMPTY_LINE", "Empty NDJSON line skipped", Some(n))] else []
    else DecodedDetails(schema, schemaName, hook, parse(trimmed), n)
  }

  /** What a non-blank line contributes, from what decoding it gave. */
  function DecodedDetails(schema: SchemaCheck, schemaName: string, hook: Option<RecordHook>, decoded: ParseResult,
                          n: nat): seq<Detail>
  {
    match decoded
    case ParseFailed(reason) =>
      [Detail(Error, "NDJSON_INVALID_LINE_JSON", "Invalid JSON: " + reason, Some(n))]
    case Parsed(record) =>
      if !record.JObj? then
        [Detail(Error, "NDJSON_INVALID_LINE_JSON", "Expected JSON object", Some(n))]
      else
        RecordDetails(schema, schemaName, hook, record, n)
  }

  /** What a line contributes, case by case. */
  lemma LineDetailsCases(parse: string -> ParseResult, schema: SchemaCheck, schemaName: string, warnOnEmptyLine: bool,
                         hook: Option<RecordHook>, line: string, n: nat)
    ensures var r := LineDetails(parse, schema, schemaName, warnOnEmptyLine, hook, line, n);
      // a blank line: a warning when asked for, nothing otherwise
      && (PhpBlank(line) ==>
            r == if warnOnEmptyLine then [Detail(Warning, "EMPTY_LINE", "Empty NDJSON line skipped", Some(n))] else [])
      // undecodable or not an object: one error; hook and schema are skipped
      && (!PhpBlank(line) && !(parse(PhpTrim(line)).Parsed? && parse(PhpTrim(line)).value.JObj?) ==>
            |r| == 1 && r[0].level == Error && r[0].code == "NDJSON_INVALID_LINE_JSON" && r[0].line == Some(n))
    // otherwise the hook details in order, then one schema error exactly when the record is rejected
    ensures !PhpBlank(line) && parse(PhpTrim(line)).Parsed? && parse(PhpTrim(line)).value.JObj? ==>
      var r := LineDetails(parse, schema, schemaName, warnOnEmptyLine, hook, line, n);
      var record := parse(PhpTrim(line)).value;
      var hd := HookDetails(hook, record, n);
      var verdict := schema(schemaName, record);
      && |hd| <= |r| && r[..|hd|] == hd
      && (verdict.valid ==> |r| == |hd|)
      && (!verdict.valid ==> |r| == |hd| + 1 && r[|hd|] == SchemaDetail(verdict.errors, n))
  {
    PhpTrimEmpty(line);
  }

  /** What a decoded object contributes: the hook's details, then the schema verdict. */
  function RecordDetails(schema: SchemaCheck, schemaName: string, hook: Option<RecordHook>, record: Json, n: nat): seq<Detail>
  {
    var verdict := schema(schemaName, record);
    HookDetails(hook, record, n) + (if verdict.valid then [] else [SchemaDetail(verdict.errors, n)])
  }

  function PerLine(parse: string -> ParseResult, schema: SchemaCheck, schemaName: string, warnOnEmptyLine: bool,
                   hook: Option<RecordHook>): (string, nat) -> seq<Detail>
  {
    (line: string, n: nat) => LineDetails(parse, schema, schemaName, warnOnEmptyLine, hook, line, n)
  }

  /** A line `validateFile` counts. */
  predicate NonBlank(line: string)
  {
    !PhpBlank(line)
  }

  /** What `validateFile` computes for the lines of a file. */
  function Ndjson(lines: seq<string>, parse: string -> ParseResult, schema: SchemaCheck, schemaName: string,
                  warnOnEmptyLine: bool, hook: Option<RecordHook>): NdjsonResult
  {
    NdjsonResult(Walk(lines, PerLine(parse, schema, schemaName, warnOnEmptyLine, hook)), Counted(lines, NonBlank))
  }

  /** `validateFile`: the `while (!$file->eof())` loop with its counters. */
  method ValidateFile(lines: seq<string>, parse: string -> ParseResult, schema: SchemaCheck, schemaName: string,
                      warnOnEmptyLine: bool, hook: Option<RecordHook>) returns (r: NdjsonResult)
    ensures r == Ndjson(lines, parse, schema, schemaName, warnOnEmptyLine, hook)
  {
    ghost var perLine := PerLine(parse, schema, schemaName, warnOnEmptyLine, hook);
    var details: seq<Detail> := [];
    var linesValidated: nat := 0;
    var lineNumber: nat := 0;
    while lineNumber < |lines|
      invariant lineNumber <= |lines|
      invariant details == Walk(lines[..lineNumber], perLine)
      invariant linesValidated == Counted(lines[..lineNumber], NonBlank)
    {
      var line := lines[lineNumber];
      WalkSnoc(lines, perLine, lineNumber);
      CountedSnoc(lines, NonBlank, lineNumber);
      var trimmed := PhpTrim(line);
      PhpTrimEmpty(line);
      if trimmed != "" {
        linesValidated := linesValidated + 1;
      }
      details := ValidateLine(details, parse, schema, schemaName, warnOnEmptyLine, hook, line, lineNumber + 1);
      lineNumber := lineNumber + 1;
    }
    assert lines[..|lines|] == lines;
    return NdjsonResult(details, linesValidated);
  }

  /** The body of the loop for one line: the details appended to `$details`. */
  method ValidateLine(details: seq<Detail>, parse: string -> ParseResult, schema: SchemaCheck, schemaName: string,
                      warnOnEmptyLine: bool, hook: Option<RecordHook>, line: string, lineNumber: nat)
    returns (out: seq<Detail>)
    ensures out == details + LineDetails(parse, schema, schemaName, warnOnEmptyLine, hook, line, lineNumber)
  {
    var trimmed := PhpTrim(line);
    if trimmed == "" {
      out := details;
      if warnOnEmptyLine {
        out := out + [Detail(Warning, "EMPTY_LINE", "Empty NDJSON line skipped", Some(lineNumber))];
      }
    } else {
      out := ValidateDecoded(details, schema, schemaName, hook, parse(trimmed), lineNumber);
    }
  }

  /** The rest of the line's pass once it was decoded: an error, or the record's details. */
  method ValidateDecoded(details: seq<Detail>, schema: SchemaCheck, schemaName: string, hook: Option<RecordHook>,
                         decoded: ParseResult, lineNumber: nat)
    returns (out: seq<Detail>)
    ensures out == details + DecodedDetails(schema, schemaName, hook, decoded, lineNumber)
  {
    if decoded.ParseFailed? {
      return details + [Detail(Error, "NDJSON_INVALID_LINE_JSON", "Invalid JSON: " + decoded.reason, Some(lineNumber))];
    }
    var record := decoded.value;
    if !record.JObj? {
      return details + [Detail(Error, "NDJSON_INVALID_LINE_JSON", "Expected JSON object", Some(lineNumber))];
    }
    out := PushRecordDetails(details, schema, schemaName, hook, record, lineNumber);
  }

  /** The rest of the line's pass once it decoded to an object: the hook, then the schema. */
  method PushRecordDetails(details: seq<Detail>, schema: SchemaCheck, schemaName: string, hook: Option<RecordHook>,
                           record: Json, lineNumber: nat)
    returns (out: seq<Detail>)
    ensures out == details + RecordDetails(schema, schemaName, hook, record, lineNumber)
  {
    out := PushHookDetails(details, hook, record, lineNumber);
    var validation := schema(schemaName, record);
    if !validation.valid {
      out := out + [SchemaDetail(validation.errors, lineNumber)];
    }
  }

  /** The hook's details for a record, appended one by one. */
  method PushHookDetails(details: seq<Detail>, hook: Option<RecordHook>, record: Json, lineNumber: nat)
    returns (out: seq<Detail>)
    ensures out == details + HookDetails(hook, record, lineNumber)
  {
    out := details;
    if hook.Some? {
      var extra := hook.value(record, lineNumber);
      ghost var hd := HookDetails(hook, record, lineNumber);
      for k := 0 to |extra|
        invariant out == details + hd[..k]
      {
        var d := FromHook(extra[k], lineNumber);
        assert hd[k] == d;
        assert hd[..k + 1] == hd[..k] + [hd[k]];
        out := out + [d];
      }
      assert hd[..|extra|] == hd;
    }
  }

  /** The hook never sets a line of its own. */
  ghost predicate LeavesLine(hook: Option<RecordHook>)
  {
    hook.Some? ==> forall record: Json, n: nat :: forall d :: d in hook.value(record, n) ==> d.line.None?
  }

  /** Every detail of one line carries that line's number. */
  lemma LineStamped(parse: string -> ParseResult, schema: SchemaCheck, schemaName: string, warnOnEmptyLine: bool,
                    hook: Option<RecordHook>, l: string, n: nat)
    requires LeavesLine(hook)
    ensures forall d :: d in LineDetails(parse, schema, schemaName, warnOnEmptyLine, hook, l, n) ==> d.line == Some(n)
  {
    var trimmed := PhpTrim(l);
    if trimmed != "" && parse(trimmed).Parsed? && parse(trimmed).value.JObj? {
      var record := parse(trimmed).value;
      var hd := HookDetails(hook, record, n);
      assert LineDetails(parse, schema, schemaName, warnOnEmptyLine, hook, l, n)
        == RecordDetails(schema, schemaName, hook, record, n);
      forall d | d in hd ensures d.line == Some(n) {
        var i :| 0 <= i < |hd| && hd[i] == d;
        assert hook.value(record, n)[i] in hook.value(record, n);
      }
    }
  }

  lemma Stamping(parse: string -> ParseResult, schema: SchemaCheck, schemaName: string, warnOnEmptyLine: bool,
                 hook: Option<RecordHook>)
    requires LeavesLine(hook)
    ensures Stamped(PerLine(parse, schema, schemaName, warnOnEmptyLine, hook))
  {
    forall l: string, n: nat
      ensures forall d :: d in PerLine(parse, schema, schemaName, warnOnEmptyLine, hook)(l, n) ==> d.line == Some(n)
    {
      LineStamped(parse, schema, schemaName, warnOnEmptyLine, hook, l, n);
    }
  }

  /**
   * Lines are numbered from 1 and processed in file order: when the hook
   * leaves the line to the validator, every detail carries a line of the
   * file, line numbers never decrease, and the details of line `k` are
   * exactly what that line contributes.
   */
  lemma NdjsonInFileOrder(lines: seq<string>, parse: string -> ParseResult, schema: SchemaCheck, schemaName: string,
                          warnOnEmptyLine: bool, hook: Option<RecordHook>, k: nat)
    requires LeavesLine(hook)
    requires 1 <= k <= |lines|
    ensures var ds := Ndjson(lines, parse, schema, schemaName, warnOnEmptyLine, hook).details;
      Numbered(ds, |lines|) && Ascending(ds)
      && OnLine(ds, k) == LineDetails(parse, schema, schemaName, warnOnEmptyLine, hook, lines[k - 1], k)
  {
    Stamping(parse, schema, schemaName, warnOnEmptyLine, hook);
    WalkNumbered(lines, PerLine(parse, schema, schemaName, warnOnEmptyLine, hook));
    WalkProjects(lines, PerLine(parse, schema, schemaName, warnOnEmptyLine, hook), k);
  }

  /** `linesValidated` counts exactly the lines not blank after `trim`, including those that fail to decode. */
  lemma NdjsonCountsNonBlank(lines: seq<string>, parse: string -> ParseResult, schema: SchemaCheck, schemaName: string,
                             warnOnEmptyLine: bool, hook: Option<RecordHook>)
    ensures Ndjson(lines, parse, schema, schemaName, warnOnEmptyLine, hook).linesValidated == |Where(lines, NonBlank)|
  {
    CountedLines(lines, NonBlank);
  }

  predicate IsNewline(c: char)
  {
    c == '\n'
  }

  /**
   * The lines `$file->fgets()` yields under `while (!$file->eof())` with
   * `DROP_NEW_LINE`: the text cut at every newline. A file that is empty or
   * ends in a newline yields a last, empty line, read before `eof()` turns
   * true. (A carriage return left at the end of a line is removed by the
   * `trim` every line gets, so it changes nothing.)
   */
  function SplLines(text: string): (r: seq<string>)
    ensures |r| >= 1
    ensures forall i, k :: 0 <= i < |r| && 0 <= k < |r[i]| ==> r[i][k] != '\n'
  {
    PiecesHaveNoSep(text, IsNewline);
    Pieces(text, IsNewline)
  }

  /** A text that is empty or ends in a newline has an empty last line. */
  lemma SplTrailingEmpty(text: string)
    requires text == [] || text[|text| - 1] == '\n'
    ensures SplLines(text)[|SplLines(text)| - 1] == ""
  {
    if text != [] {
      var x := text[..|text| - 1];
      assert text == x + ['\n'] + [];
      PiecesAppend(x, '\n', [], IsNewline);
    }
  }

  /**
   * With `warnOnEmptyLine`, a file that is empty or ends in a newline always
   * ends in one `EMPTY_LINE` warning, on the line after its last newline.
   */
  lemma TrailingNewlineWarns(text: string, parse: string -> ParseResult, schema: SchemaCheck, schemaName: string,
                             hook: Option<RecordHook>)
    requires LeavesLine(hook)
    requires text == [] || text[|text| - 1] == '\n'
    ensures var lines := SplLines(text);
      OnLine(Ndjson(lines, parse, schema, schemaName, true, hook).details, |lines|)
        == [Detail(Warning, "EMPTY_LINE", "Empty NDJSON line skipped", Some(|lines|))]
  {
    var lines := SplLines(text);
    SplTrailingEmpty(text);
    NdjsonInFileOrder(lines, parse, schema, schemaName, true, hook, |lines|);
    assert PhpTrim(lines[|lines| - 1]) == "";
  }
}
