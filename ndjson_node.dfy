/**
 * Model of ndjson-validate.js: `validateNdjson` walks the lines of an NDJSON
 * file in order. A blank line gives a warning; any other line is counted,
 * parsed, handed to the record hook and checked against the schema. The line
 * reader, the parser, the hook and the validator are inputs.
 */
module NdjsonNode {
  import opened Common
  import opened Strings
  import opened JsonDoc
  import opened Env
  import opened JsonValidate
  import opened LineWalk

  /** One item a record hook hands back; a missing or empty field takes its default. */
  datatype HookItem = HookItem(level: Option<string>, code: Option<string>, message: Option<string>)

  /** `onRecord(record, lineNumber)`: an array of items, or `None` for anything that is not an array. */
  type RecordHook = (Json, nat) -> Option<seq<HookItem>>

  /** What `validateNdjson` resolves to. */
  datatype NdjsonResult = NdjsonResult(details: seq<Detail>, linesValidated: nat)

  /** `field || fallback` on a string field. */
  function OrDefault(t: Option<string>, fallback: string): (r: string)
    ensures HasText(t) ==> r == t.value
    ensures !HasText(t) ==> r == fallback
  {
    if HasText(t) then t.value else fallback
  }

  /** The detail a hook item becomes: its fields or the defaults, and always the current line. */
  function HookDetail(item: HookItem, n: nat): (d: Detail)
    ensures d.line == Some(n)
    ensures d.level == (if HasText(item.level) then LevelOf(item.level.value) else Warning)
    ensures d.code == (if HasText(item.code) then item.code.value else "NDJSON_RECORD_WARNING")
    ensures d.message == (if HasText(item.message) then item.message.value else "NDJSON record warning")
  {
    Detail(LevelOf(OrDefault(item.level, "warning")), OrDefault(item.code, "NDJSON_RECORD_WARNING"),
           OrDefault(item.message, "NDJSON record warning"), Some(n))
  }

  /** The items the hook hands back for a record on line `n`; no hook, or a non-array answer, gives none. */
  function HookItems(hook: Option<RecordHook>, record: Json, n: nat): (items: seq<HookItem>)
    ensures hook.Some? && hook.value(record, n).Some? ==> items == hook.value(record, n).value
    ensures hook.None? || hook.value(record, n).None? ==> items == []
  {
    if hook.Some? && hook.value(record, n).Some? then hook.value(record, n).value else []
  }

  /** The details the hook contributes for a record on line `n`: one per item, in order. */
  function HookDetails(hook: Option<RecordHook>, record: Json, n: nat): (r: seq<Detail>)
    ensures |r| == |HookItems(hook, record, n)|
    ensures forall i :: 0 <= i < |r| ==> r[i] == HookDetail(HookItems(hook, record, n)[i], n)
  {
    var items := HookItems(hook, record, n);
    seq(|items|, i requires 0 <= i < |items| => HookDetail(items[i], n))
  }

  /** Every detail the hook contributes carries the current line. */
  lemma HookDetailsStamped(hook: Option<RecordHook>, record: Json, n: nat)
    ensures forall d :: d in HookDetails(hook, record, n) ==> d.line == Some(n)
  {
    var hd := HookDetails(hook, record, n);
    forall d | d in hd ensures d.line == Some(n) {
      var i :| 0 <= i < |hd| && hd[i] == d;
    }
  }

  /** The schema detail for a rejected record: all formatted messages joined with `; `. */
  function SchemaDetail(errors: Option<seq<AjvError>>, n: nat): Detail
  {
    var message := Join(Messages(FormatAjvErrors(errors)), "; ");
    Detail(Error, "NDJSON_SCHEMA_ERROR", "Schema violation on line " + NatToString(n) + ": " + message, Some(n))
  }

  /** What line `n` contributes. */
  function LineDetails(parse: string -> ParseResult, validator: Validator, hook: Option<RecordHook>,
                       line: string, n: nat): seq<Detail>
  {
    if JsBlank(line) then
      [Detail(Warning, "NDJSON_EMPTY_LINE", "Empty NDJSON line skipped", Some(n))]
    else ParsedDetails(validator, hook, parse(line), n)
  }

  /** What a non-blank line contributes, from what parsing it gave. */
  function ParsedDetails(validator: Validator, hook: Option<RecordHook>, parsed: ParseResult, n: nat): seq<Detail>
  {
    match parsed
    case ParseFailed(reason) =>
      [Detail(Error, "NDJSON_PARSE_ERROR", "Invalid JSON on line " + NatToString(n) + ": " + reason, Some(n))]
    case Parsed(record) => RecordDetails(validator, hook, record, n)
  }

  /** What a parsed record contributes: the hook's details, then the schema verdict. */
  function RecordDetails(validator: Validator, hook: Option<RecordHook>, record: Json, n: nat): seq<Detail>
  {
    var verdict := validator(record);
    HookDetails(hook, record, n) + (if verdict.valid then [] else [SchemaDetail(verdict.errors, n)])
  }

  /** What a line contributes, case by case; every detail carries the line's number. */
  lemma LineDetailsCases(parse: string -> ParseResult, validator: Validator, hook: Option<RecordHook>,
                         line: string, n: nat)
    ensures var r := LineDetails(parse, validator, hook, line, n);
      && (forall d :: d in r ==> d.line == Some(n))
      // a blank line: one warning, nothing else
      && (JsBlank(line) ==> r == [Detail(Warning, "NDJSON_EMPTY_LINE", "Empty NDJSON line skipped", Some(n))])
      // a parse failure: one error; hook and schema are skipped
      && (!JsBlank(line) && parse(line).ParseFailed? ==>
            |r| == 1 && r[0].level == Error && r[0].code == "NDJSON_PARSE_ERROR")
    // otherwise the hook details first, then at most one schema error, present exactly when the record is rejected
    ensures !JsBlank(line) && parse(line).Parsed? ==>
      var r := LineDetails(parse, validator, hook, line, n);
      var record := parse(line).value;
      var hd := HookDetails(hook, record, n);
      && |hd| <= |r| && r[..|hd|] == hd
      && (validator(record).valid ==> |r| == |hd|)
      && (!validator(record).valid ==> |r| == |hd| + 1 && r[|hd|] == SchemaDetail(validator(record).errors, n))
  {
    if !JsBlank(line) && parse(line).Parsed? {
      HookDetailsStamped(hook, parse(line).value, n);
    }
  }

  /** The per-line contribution as the walk sees it. */
  function PerLine(parse: string -> ParseResult, validator: Validator, hook: Option<RecordHook>): (string, nat) -> seq<Detail>
  {
    (line: string, n: nat) => LineDetails(parse, validator, hook, line, n)
  }

  /** A line `validateNdjson` counts. */
  predicate NonBlank(line: string)
  {
    !JsBlank(line)
  }

  /** What `validateNdjson` computes for the lines of a file. */
  function Ndjson(lines: seq<string>, parse: string -> ParseResult, validator: Validator, hook: Option<RecordHook>): NdjsonResult
  {
    NdjsonResult(Walk(lines, PerLine(parse, validator, hook)), Counted(lines, NonBlank))
  }

  /** `validateNdjson`: the line loop with its counters. */
  method ValidateNdjson(lines: seq<string>, parse: string -> ParseResult, validator: Validator,
                        hook: Option<RecordHook>) returns (r: NdjsonResult)
    ensures r == Ndjson(lines, parse, validator, hook)
  {
    ghost var perLine := PerLine(parse, validator, hook);
    var details: seq<Detail> := [];
    var linesValidated: nat := 0;
    var lineNumber: nat := 0;
    while lineNumber < |lines|
      invariant lineNumber <= |lines|
      invariant details == Walk(lines[..lineNumber], perLine)
      invariant linesValidated == Counted(lines[..lineNumber], NonBlank)
    {
      var line := lines[lineNumber];
      WalkSnoc(lines, perLine, lineNumber);
      CountedSnoc(lines, NonBlank, lineNumber);
      if !JsBlank(line) {
        linesValidated := linesValidated + 1;
      }
      details := ValidateLine(details, parse, validator, hook, line, lineNumber + 1);
      lineNumber := lineNumber + 1;
    }
    assert lines[..|lines|] == lines;
    return NdjsonResult(details, linesValidated);
  }

  /** The body of the loop for one line: the details pushed onto `details`. */
  method ValidateLine(details: seq<Detail>, parse: string -> ParseResult, validator: Validator,
                      hook: Option<RecordHook>, line: string, lineNumber: nat) returns (out: seq<Detail>)
    ensures out == details + LineDetails(parse, validator, hook, line, lineNumber)
  {
    if JsBlank(line) {
      out := details + [Detail(Warning, "NDJSON_EMPTY_LINE", "Empty NDJSON line skipped", Some(lineNumber))];
    } else {
      out := ValidateParsed(details, validator, hook, parse(line), lineNumber);
    }
  }

  /** The rest of the line's pass once it was parsed: an error, or the record's details. */
  method ValidateParsed(details: seq<Detail>, validator: Validator, hook: Option<RecordHook>, parsed: ParseResult,
                        lineNumber: nat) returns (out: seq<Detail>)
    ensures out == details + ParsedDetails(validator, hook, parsed, lineNumber)
  {
    if parsed.ParseFailed? {
      return details + [Detail(Error, "NDJSON_PARSE_ERROR",
                               "Invalid JSON on line " + NatToString(lineNumber) + ": " + parsed.reason, Some(lineNumber))];
    }
    out := PushRecordDetails(details, validator, hook, parsed.value, lineNumber);
  }

  /** A parsed record: the hook's items, then the schema verdict. */
  method PushRecordDetails(details: seq<Detail>, validator: Validator, hook: Option<RecordHook>, record: Json,
                           lineNumber: nat) returns (out: seq<Detail>)
    ensures out == details + RecordDetails(validator, hook, record, lineNumber)
  {
    out := PushHookDetails(details, hook, record, lineNumber);
    var verdict := validator(record);
    if !verdict.valid {
      var errors := FormatAjvErrors(verdict.errors);
      var message := Join(Messages(errors), "; ");
      out := out + [Detail(Error, "NDJSON_SCHEMA_ERROR",
                           "Schema violation on line " + NatToString(lineNumber) + ": " + message, Some(lineNumber))];
    }
  }

  /** The hook's items for a record, pushed one by one. */
  method PushHookDetails(details: seq<Detail>, hook: Option<RecordHook>, record: Json, lineNumber: nat)
    returns (out: seq<Detail>)
    ensures out == details + HookDetails(hook, record, lineNumber)
  {
    out := details;
    var items := HookItems(hook, record, lineNumber);
    ghost var hd := HookDetails(hook, record, lineNumber);
    for k := 0 to |items|
      invariant out == details + hd[..k]
    {
      var d := HookDetail(items[k], lineNumber);
      assert hd[k] == d;
      assert hd[..k + 1] == hd[..k] + [hd[k]];
      out := out + [d];
    }
    assert hd[..|items|] == hd;
  }

  /** Every line's details carry its number. */
  lemma Stamping(parse: string -> ParseResult, validator: Validator, hook: Option<RecordHook>)
    ensures Stamped(PerLine(parse, validator, hook))
  {
    forall l: string, n: nat ensures forall d :: d in PerLine(parse, validator, hook)(l, n) ==> d.line == Some(n) {
      LineDetailsCases(parse, validator, hook, l, n);
    }
  }

  /**
   * Lines are numbered from 1 and processed in file order: every detail
   * carries a line of the file, line numbers never decrease along the list,
   * and the details of line `k` are exactly what that line contributes.
   */
  lemma NdjsonInFileOrder(lines: seq<string>, parse: string -> ParseResult, validator: Validator,
                          hook: Option<RecordHook>, k: nat)
    requires 1 <= k <= |lines|
    ensures var ds := Ndjson(lines, parse, validator, hook).details;
      Numbered(ds, |lines|) && Ascending(ds)
      && OnLine(ds, k) == LineDetails(parse, validator, hook, lines[k - 1], k)
  {
    Stamping(parse, validator, hook);
    WalkNumbered(lines, PerLine(parse, validator, hook));
    WalkProjects(lines, PerLine(parse, validator, hook), k);
  }

  /** `linesValidated` counts exactly the non-blank lines, whether or not they parse. */
  lemma NdjsonCountsNonBlank(lines: seq<string>, parse: string -> ParseResult, validator: Validator,
                             hook: Option<RecordHook>)
    ensures Ndjson(lines, parse, validator, hook).linesValidated == |Where(lines, NonBlank)|
  {
    CountedLines(lines, NonBlank);
  }
}
