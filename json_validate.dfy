/**
 * Model of json-validate.js: turning the schema validator's error objects
 * into report-ready entries, and running a compiled validator on a document.
 * The validator itself (Ajv) is an input: a function from a document to a
 * verdict and its error list.
 */
module JsonValidate {
  import opened Common
  import opened Strings
  import opened JsonDoc

  /** One error object as the validator reports it; absent or empty texts are falsy. */
  datatype AjvError = AjvError(keyword: string, instancePath: Option<string>, message: Option<string>, schemaPath: string, params: Json)

  /** What a compiled validator answers: the boolean it returns, and the `errors` it leaves (`null` is `None`). */
  datatype AjvVerdict = AjvVerdict(valid: bool, errors: Option<seq<AjvError>>)

  /** A compiled schema. */
  type Validator = Json -> AjvVerdict

  /** One formatted error. */
  datatype FormattedError = FormattedError(keyword: string, message: string, schemaPath: string, params: Json)

  /** `validateWithSchema`'s result. */
  datatype SchemaOutcome = SchemaOutcome(valid: bool, errors: seq<FormattedError>)

  /** A text present and non-empty: truthy in JavaScript. */
  predicate HasText(t: Option<string>)
  {
    t.Some? && t.value != ""
  }

  /** The formatting of one error. */
  function FormatError(e: AjvError): (r: FormattedError)
    ensures r.keyword == e.keyword && r.schemaPath == e.schemaPath && r.params == e.params
    // the path part: the instance path, or `/` when it is missing or empty
    ensures HasText(e.instancePath) ==> StartsWith(r.message, e.instancePath.value + " ")
    ensures !HasText(e.instancePath) ==> StartsWith(r.message, "/ ")
    // the text part: the message, or `invalid` when it is missing or empty
    ensures HasText(e.message) ==> EndsWith(r.message, " " + e.message.value)
    ensures !HasText(e.message) ==> EndsWith(r.message, " invalid")
  {
    var path := if HasText(e.instancePath) then e.instancePath.value else "/";
    var text := if HasText(e.message) then e.message.value else "invalid";
    SpacedEnds(path, text);
    FormattedError(e.keyword, path + " " + text, e.schemaPath, e.params)
  }

  /** `path text` starts with `path ` and ends with ` text`. */
  lemma SpacedEnds(path: string, text: string)
    ensures StartsWith(path + " " + text, path + " ") && EndsWith(path + " " + text, " " + text)
  {
    var message := path + " " + text;
    assert message[..|path + " "|] == path + " ";
    assert message[|message| - |" " + text|..] == " " + text;
  }

  /** `formatAjvErrors`: one formatted entry per error, in the same order; `null` or `[]` give `[]`. */
  function FormatAjvErrors(errors: Option<seq<AjvError>>): (r: seq<FormattedError>)
    ensures errors.None? ==> r == []
    ensures errors.Some? ==> |r| == |errors.value|
    ensures errors.Some? ==> forall i :: 0 <= i < |r| ==> r[i] == FormatError(errors.value[i])
  {
    if errors.None? || |errors.value| == 0 then []
    else seq(|errors.value|, i requires 0 <= i < |errors.value| => FormatError(errors.value[i]))
  }

  /** The `errors` the validator left, as a possibly empty list. */
  function ReportedErrors(v: AjvVerdict): seq<AjvError>
  {
    if v.errors.Some? then v.errors.value else []
  }

  /** `validateWithSchema`: the verdict, and the formatted errors only when the document is rejected. */
  function ValidateWithSchema(validator: Validator, data: Json): (r: SchemaOutcome)
    ensures r.valid == validator(data).valid
    ensures r.valid ==> r.errors == []
    ensures !r.valid ==> |r.errors| == |ReportedErrors(validator(data))|
    // a rejected document gets each reported error formatted, in the order reported
    ensures !r.valid ==> forall i :: 0 <= i < |r.errors| ==> r.errors[i] == FormatError(ReportedErrors(validator(data))[i])
    // no errors exactly when the document is accepted or the validator reported none
    ensures r.errors == [] <==> r.valid || ReportedErrors(validator(data)) == []
  {
    var verdict := validator(data);
    SchemaOutcome(verdict.valid, if verdict.valid then [] else FormatAjvErrors(verdict.errors))
  }

  /** The messages of formatted errors. */
  function Messages(errors: seq<FormattedError>): (r: seq<string>)
    ensures |r| == |errors| && forall i :: 0 <= i < |r| ==> r[i] == errors[i].message
  {
    seq(|errors|, i requires 0 <= i < |errors| => errors[i].message)
  }
}
