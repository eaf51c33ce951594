# Sitepack validators and volume tool, modelled in Dafny

A sitepack is a package directory: a manifest (`sitepack.manifest.json`), a
catalog of typed artifacts (`sitepack.catalog.json`), artifact files
(JSON documents, NDJSON record streams, asset indexes whose records point at
blobs or at ordered chunks of a blob, an object graph of object indexes and
passports), optionally encrypted-envelope headers, and optionally a
distribution as a volume set: numbered zip parts plus a descriptor,
`sitepack.volumes.json`.

The repository ships two validators, one in JavaScript (Node) and one in
PHP, and a Node volume tool. This project models all three:

- the package validator of each side: loading the manifest and catalog,
  choosing artifacts by profile, locating each artifact through the path
  guard, checking its size and its `sha256:` digest, dispatching it by media
  type to the JSON, NDJSON or asset-index checks, checking the object graph,
  and folding everything into a report whose per-artifact status and summary
  counts follow from what was reported;
- the envelope validator of each side (header parsing, schema, payload file);
- the volume-set validator of each side: the descriptor, each volume's
  file, size, digest and encryption, extraction of every part into a
  temporary directory with zip-slip containment, then the package validator
  over the extracted tree, and the merged report;
- the volume tool (`volumes-cli.js`): collecting package files under
  normalised keys, packing them into parts within a size bound, writing the
  parts and the descriptor, and extracting a volume set back;
- the two path guards (`resolveSafePath` and `SafePath::resolve`), the
  digest calculators, and the exit-code rules of the two command lines.

## How the model is built

- The file system is a value, `Env.Host`: a map from path to file or
  directory node, with flags for files whose bytes or size cannot be read.
  SHA-256, text decoding, line splitting, JSON parsing, JSON Schema
  validation, JavaScript's Unicode `toLowerCase` (PHP's `strtolower` is
  written out as ASCII lower-casing) and zip decoding are functions passed
  in with the host or as parameters: the model states what the validators
  do with their answers, not how those answers are computed.
- JSON values are the datatype `JsonDoc.Json`, with integer numbers only.
- What a validator does step by step is imperative Dafny. The reports are
  classes (`NodeReport.Report`, `PhpReport.ValidationReport`,
  `PhpReport.ArtifactResult`) whose methods carry `modifies` clauses, and the
  validators' loops are methods with loop invariants. Each such method is
  proved equal to a pure function of its inputs (the messages an artifact,
  a line, a volume or a whole run produces), and the properties the code
  promises are lemmas about those functions.
- The Node and PHP sides are separate modules wherever they differ (codes,
  trimming rules, profile fallback, gap check, directory detection); what
  they share (status derivation, sorting, line walking, object-graph rules)
  is written once and instantiated per side.
- Behaviour the code has and the model keeps: a profile-map id that the
  Node catalog lacks gives `PROFILE_ARTIFACT_MISSING` alone; an NDJSON line
  that fails its schema gives one detail (Node joins every schema message,
  PHP keeps the first); PHP raises `EMPTY_LINE` only when `warnOnEmptyLine`
  is set and otherwise skips a blank line; the PHP asset-index check has no
  chunk-gap check, only the Node one reports gaps; the PHP schema validator
  declares its document `object` under `strict_types`, so a manifest,
  catalog, JSON artifact, object index, passport, envelope header or volume
  descriptor that decodes to an array, number, string or boolean raises a
  `TypeError` that nothing catches, and the model lets those runs throw.
- The Node schema loader (`schema-loader.js`) compiles no object-index or
  object-passport schema, so `validators.objectIndex` and
  `validators.objectPassport` are `undefined`. The model keeps both
  consequences. An object-index or object-passport artifact in the catalog
  falls through the JSON table to `UNKNOWN_MEDIA_TYPE` and is never parsed
  by the artifact loop. In the object layer, an index whose artifact was
  not validated by that loop, or a parsed passport whose owning artifact
  (`passportArtifact?.id`) was not, reaches `validateWithSchema(undefined,
  ...)`; that call raises a `TypeError`, which ends `validatePackage`. A
  validated index or passport is never schema-checked, so the Node side
  never reports `OBJECT_INDEX_SCHEMA_ERROR` or
  `OBJECT_PASSPORT_SCHEMA_ERROR`.
- Sorting is a stable insertion sort, as Node's `Array.prototype.sort` and
  PHP's `usort` are both stable. PHP orders by integer keys with `<=>`. Node
  orders volumes with `a.index - b.index` over `Number(x) || 0`, so the keys
  are JavaScript numbers: `JsNumbers` models them as the extended reals, with
  `Number()` reading the string forms the language accepts (signs, decimals,
  exponents, `0x`/`0o`/`0b`, `Infinity`, surrounding white space).

## Model

| member | source | states |
|---|---|---|
| Common.LevelOf | sitepack-tools-php/src/Report/ArtifactResult.php:82-88 | the level string `error` is the error level and `warning` the warning level, and no other string is either |
| Common.DeriveStatus | sitepack-tools-php/src/Report/ArtifactResult.php:73-97 | a skipped artifact stays skipped and no other artifact becomes skipped |
| Common.DeriveStatusIdempotent | sitepack-tools-php/src/Report/ArtifactResult.php:73-97 | finalising twice changes nothing, and the final status of a non-skipped artifact depends only on its details |
| Common.DeriveStatusByCount | sitepack-tools-node/src/validator/index.js:31-45 | the final status is `error` exactly when some detail is an error, `warning` exactly when there are warnings but no errors, `ok` exactly when there are neither |
| Digest.ComputeSha256Hex | sitepack-tools-php/src/Validator/DigestCalculator.php:31-39 | succeeds exactly for a readable regular file and then returns the SHA-256 of its bytes |
| Digest.ComputeSha256 | sitepack-tools-php/src/Validator/DigestCalculator.php:16-24 | succeeds exactly when the bare hex digest does, and returns it with the `sha256:` prefix |
| Digest.ComputeSha256HexFromFiles | sitepack-tools-php/src/Validator/DigestCalculator.php:46-70 | feeding the files block by block yields the hash of their concatenation in list order, or the open/read error of the first file that cannot be read |
| Digest.EmptyListHashesEmptyInput | sitepack-tools-php/src/Validator/DigestCalculator.php:46-70 | an empty file list hashes the empty input |
| Digest.SingleFileAgrees | sitepack-tools-php/src/Validator/DigestCalculator.php:31-70 | hashing a one-file list fails exactly when `computeSha256Hex` fails and otherwise gives the same digest |
| ExitCode.ComputeExitCode | sitepack-tools-node/src/cli.js:48-56 | the exit code is 1 exactly when there are errors, or warnings in strict mode, and 0 otherwise |
| ExitCode.CommandExitCode | sitepack-tools-php/src/Command/ValidateVolumeSetCommand.php:117-128 | a usage error and nothing else gives 2; otherwise the code follows `computeExitCode` |
| ExitCode.StrictIsStricter | sitepack-tools-node/src/cli.js:48-56 | strict mode never turns a failure into success, and changes the code exactly when there are warnings but no errors |
| ExitCode.CleanReportSucceeds | sitepack-tools-node/src/cli.js:48-56 | a report with no errors and no warnings exits with 0 in either mode |
| JsonValidate.FormatError | sitepack-tools-node/src/validator/json-validate.js:5-13 | keyword, schema path and params are copied; the message starts with the instance path (or `/` when absent or empty) and ends with the error text (or `invalid`) |
| JsonValidate.FormatAjvErrors | sitepack-tools-node/src/validator/json-validate.js:1-15 | `null` gives an empty list; otherwise one formatted entry per error, in the same order |
| JsonValidate.ValidateWithSchema | sitepack-tools-node/src/validator/json-validate.js:17-23 | the verdict is the validator's; an accepted document has no errors; a rejected one has, for each reported error in order, that error formatted |
| Env.ReadJson | sitepack-tools-node/src/validator/index.js:47-54 | a file that cannot be read never parses; a readable file gives exactly what parsing its decoded text gives |
| Env.PhpReadJson | sitepack-tools-php/src/Validator/FileUtil.php:15-58 | a parsed document comes from a readable file and is never `null`; a path that is not a regular file fails with `File not found`, an unreadable file with `Failed to read file`, a decode failure with the decoder's reason, a `null` document with `Empty JSON`; any other document is the decoded value |
| Env.ReadersAgree | sitepack-tools-php/src/Validator/FileUtil.php:15-58 | over one shared text decoder and parser, the two reader wrappers give the same document whenever PHP's accepts one, and Node's accepts what PHP's rejects exactly when the document is `null` |
| Env.FileSize | sitepack-tools-php/src/Validator/VolumeSetValidator.php:141-145 | a size is given only for a regular file, and it is that file's size |
| Sorting.Insert | sitepack-tools-php/src/Validator/VolumeSetValidator.php:220-223 | inserting adds exactly one element, keeping every other one (as a multiset) |
| Sorting.SortBy | sitepack-tools-php/src/Validator/VolumeSetValidator.php:220-223 | sorting keeps the length |
| Sorting.InsertSorted | sitepack-tools-php/src/Validator/VolumeSetValidator.php:220-223 | inserting into an ordered sequence under a total preorder keeps it ordered |
| Sorting.SortBySorted | sitepack-tools-php/src/Validator/VolumeSetValidator.php:220-223 | under a total preorder the sorted result is in order |
| Sorting.SortByPermutes | sitepack-tools-php/src/Validator/VolumeSetValidator.php:220-223 | the sorted result is a permutation of the input |
| Sorting.KeyOrderIsTotal | sitepack-tools-php/src/Validator/VolumeSetValidator.php:220-223 | a comparator that compares integer keys (`<=>`, or `a - b` on integers) is a total preorder |
| Sorting.SortByKeyOrders | sitepack-tools-php/src/Validator/VolumeSetValidator.php:220-223 | sorting by an integer key leaves the keys non-decreasing across all pairs, and permutes the input |
| Sorting.KeySortedAllPairs | sitepack-tools-php/src/Validator/VolumeSetValidator.php:220-223 | ordered neighbours imply ordered pairs at any distance |
| Sorting.SortByKeepsSorted | sitepack-tools-php/src/Validator/VolumeSetValidator.php:220-223 | a sequence already in order comes back unchanged |
| Sorting.InsertPeers | sitepack-tools-php/src/Validator/VolumeSetValidator.php:220-223 | inserting an element keeps the elements tied with any given one in their order and puts the new one after them |
| Sorting.SortByStable | sitepack-tools-php/src/Validator/VolumeSetValidator.php:220-223 | the sort is stable, as `usort` (PHP 8) and `Array.prototype.sort` are: the elements tied with any given one come out in the order they went in |
| Sorting.SortedAllPairs | sitepack-tools-php/src/Validator/VolumeSetValidator.php:220-223 | a sequence sorted neighbour by neighbour under a total preorder has every pair in order |
| JsNumbers.PositiveInteger | sitepack-tools-node/src/validator/index.js:131-132 | a chunk index passes exactly when `Number(chunk.index)` is a finite integer of at least 1, and then it is that integer |
| JsNumbers.OrZero | sitepack-tools-node/src/volumes-cli.js:385 | `Number(x)`, or 0 in its place when it is `NaN`, keeps every number except `NaN` |
| JsNumbers.MayPrecedeIsAtMost | sitepack-tools-node/src/volumes-cli.js:388 | the comparator `a.index - b.index` lets `a` precede `b` exactly when `a` is at most `b` in the extended reals, infinities included |
| JsNumbers.DifferenceOrderIsTotal | sitepack-tools-node/src/volumes-cli.js:388 | that comparator is a total preorder over numbers that are not `NaN` |
| JsNumbers.SortByDifferenceOrders | sitepack-tools-node/src/validator/index.js:1098 | sorting by the difference of keys that are never `NaN` leaves every pair in order, permutes the input, and keeps tied entries in their input order |
| JsNumbers.DigitsRead | sitepack-tools-node/src/volumes-cli.js:385 | a string of decimal digits reads as its decimal value |
| JsNumbers.SignRead | sitepack-tools-node/src/volumes-cli.js:385 | a leading `+` leaves a decimal literal's value alone and a leading `-` negates it |
| JsNumbers.IntRoundTrip | sitepack-tools-node/src/volumes-cli.js:385 | an integer written in decimal reads back as itself, so a volume index written by creation is read back unchanged |
| JsNumbers.ExponentRead | sitepack-tools-node/src/volumes-cli.js:385 | digits followed by `e` and an exponent read as the digits scaled by that power of ten |
| JsNumbers.FractionRead | sitepack-tools-node/src/volumes-cli.js:385 | digits, a dot and digits read as the decimal fraction they spell |
| JsNumbers.RadixRead | sitepack-tools-node/src/validator/index.js:131 | a `0x`, `0o` or `0b` literal reads as its value in base 16, 8 or 2 |
| PathSafe.ResolveSafePath | sitepack-tools-node/src/validator/path-safe.js:3-27 | the checks run in source order (not a string, null byte, absolute, `..` segment, outside the root) and the first that fails names the code; a path is accepted exactly when every check passes, and then resolves to the base followed by its non-empty, non-`.` segments |
| PathSafe.NoTraversalWalk | sitepack-tools-node/src/validator/path-safe.js:19-22 | without a `..` segment the resolved path is the base plus the kept segments, and the relative path starts with `..` exactly when the first kept segment does, and is never absolute |
| PathSafe.EmptyPathIsBase | sitepack-tools-node/src/validator/path-safe.js:3-27 | the empty path is accepted and names the base directory itself |
| PathSafe.DotDotNameOutsideRoot | sitepack-tools-node/src/validator/path-safe.js:19-24 | a single name that begins with `..` but is not `..` passes the traversal check and is refused as outside the root |
| PathSafe.DotDotFooOutsideRoot | sitepack-tools-node/src/validator/path-safe.js:19-24 | `..foo` is refused with `PATH_OUTSIDE_ROOT` |
| PathSafe.IgnoredSegment | sitepack-tools-node/src/validator/path-safe.js:3-27 | `x/./y` and `x//y` resolve, or are refused, exactly as `x/y` is |
| PathSafe.SameChecksSameResult | sitepack-tools-node/src/validator/path-safe.js:3-27 | two paths that agree on every check and walk to the same place get the same result |
| SafePath.Error | sitepack-tools-php/src/Validator/SafePath.php:123-131 | a failure carries no path, the given code and the given message |
| SafePath.ToSlashes | sitepack-tools-php/src/Validator/SafePath.php:90-92 | every separator becomes `/` and every other character is kept |
| SafePath.Normalized | sitepack-tools-php/src/Validator/SafePath.php:90-116 | a normalised path never ends with a separator |
| SafePath.NormalizePath | sitepack-tools-php/src/Validator/SafePath.php:90-116 | the segment loop (push names, skip empty and `.`, pop on `..`) computes the normalised path |
| SafePath.Resolve | sitepack-tools-php/src/Validator/SafePath.php:14-53 | the checks run in source order (empty, null byte, absolute, `..`) with code `INVALID_PATH`; success is exactly passing those four checks, since the containment test cannot fail for a canonical base; the result is the base followed by the kept segments |
| SafePath.NormalizedBase | sitepack-tools-php/src/Validator/SafePath.php:90-116 | a canonical base normalises to its own spelling |
| SafePath.CombinedNormalized | sitepack-tools-php/src/Validator/SafePath.php:35-45 | without `..`, the base joined to a relative path normalises to the base plus the relative path's kept segments |
| SafePath.Contained | sitepack-tools-php/src/Validator/SafePath.php:35-47 | for a path that passed the four checks the combined path is the base plus the kept segments, and the containment test accepts it |
| SafePath.ResolvedWithinBase | sitepack-tools-php/src/Validator/SafePath.php:74-84 | a successful result is the base itself or lies under `base/` |
| SafePath.NormalizeIgnoresSegment | sitepack-tools-php/src/Validator/SafePath.php:90-116 | an empty or `.` segment does not change the normalised path |
| NodeReport.ArtifactEntry.constructor | sitepack-tools-node/src/validator/index.js:734-744 | a new entry keeps the catalog id, keeps media type, path and digest only when truthy, keeps the expected size only when it is a number, and starts `ok` with no details and nothing measured |
| NodeReport.Report.constructor | sitepack-tools-node/src/validator/report.js:4-27 | a new report is started at the given time, not finished, with every counter zero and no artifacts or messages |
| NodeReport.Bump | sitepack-tools-node/src/validator/index.js:13-20 | one item adds one to a level's tally exactly when it has that level, and nothing otherwise |
| NodeReport.AddMessage | sitepack-tools-node/src/validator/index.js:13-20 | the message is appended and its level tallied, so the tallies beyond the listed messages stay fixed; nothing else changes |
| NodeReport.AddArtifactDetail | sitepack-tools-node/src/validator/index.js:22-29 | the detail is appended to the entry and its level tallied in the report summary; the entry's other fields are untouched |
| NodeReport.AddMessages | sitepack-tools-node/src/validator/index.js:13-20 | adding messages in turn appends them all and raises each tally by the number of messages of that level |
| NodeReport.AddArtifactDetails | sitepack-tools-node/src/validator/index.js:22-29 | adding details in turn appends them all to the entry and raises each tally by the number of details of that level |
| NodeReport.FinalizeArtifactStatus | sitepack-tools-node/src/validator/index.js:31-45 | the entry's status becomes the derived status of its details (skipped stays skipped); nothing else changes |
| NodeReport.FinalizeReport | sitepack-tools-node/src/validator/report.js:29-32 | the report is stamped finished at the given time and nothing else changes |
| PhpReport.ArtifactResult.constructor | sitepack-tools-php/src/Report/ArtifactResult.php:36-51 | a new artifact result carries the given identity and expectations, nothing measured, no details and status `ok` |
| PhpReport.ArtifactResult.AddDetail | sitepack-tools-php/src/Report/ArtifactResult.php:60-68 | the detail is appended and nothing else changes |
| PhpReport.ArtifactResult.FinalizeStatus | sitepack-tools-php/src/Report/ArtifactResult.php:73-97 | the status becomes the derived status of the details (skipped stays skipped); the details are untouched |
| PhpReport.ValidationReport.constructor | sitepack-tools-php/src/Report/ValidationReport.php:34-52 | a new report is started at the given time, not finished, every counter zero, nothing listed |
| PhpReport.ValidationReport.AddMessage | sitepack-tools-php/src/Report/ValidationReport.php:60-64 | the message is appended and `error`/`warning` tallied, so the tallies beyond the messages stay fixed; nothing else changes |
| PhpReport.ValidationReport.IncrementLevel | sitepack-tools-php/src/Report/ValidationReport.php:232-242 | `error` and `warning` raise their own counter by one; any other level changes nothing |
| PhpReport.ValidationReport.AddArtifact | sitepack-tools-php/src/Report/ValidationReport.php:70-73 | the artifact is appended as it stands and no counter moves |
| PhpReport.ValidationReport.SetArtifactsTotal | sitepack-tools-php/src/Report/ValidationReport.php:79-82 | only the total changes, to the given count |
| PhpReport.ValidationReport.IncrementArtifactsValidated | sitepack-tools-php/src/Report/ValidationReport.php:88-91 | only the validated counter changes, by the given count |
| PhpReport.ValidationReport.IncrementArtifactsSkipped | sitepack-tools-php/src/Report/ValidationReport.php:97-100 | only the skipped counter changes, by the given count |
| PhpReport.ValidationReport.IncrementNdjsonLinesValidated | sitepack-tools-php/src/Report/ValidationReport.php:106-109 | only the NDJSON line counter changes, by the given count |
| PhpReport.ValidationReport.IncrementError | sitepack-tools-php/src/Report/ValidationReport.php:114-117 | the error counter and the errors beyond the messages both rise by one; nothing else changes |
| PhpReport.ValidationReport.IncrementWarning | sitepack-tools-php/src/Report/ValidationReport.php:122-125 | the warning counter and the warnings beyond the messages both rise by one; nothing else changes |
| PhpReport.ValidationReport.MarkFinished | sitepack-tools-php/src/Report/ValidationReport.php:130-133 | the report is stamped finished at the given time and nothing else changes |
| PhpReport.ValidationReport.SetTarget | sitepack-tools-php/src/Report/ValidationReport.php:140-144 | only the target type and path change |
| PhpReport.ValidationReport.GetErrorCount | sitepack-tools-php/src/Report/ValidationReport.php:151-154 | returns the error counter |
| PhpReport.ValidationReport.GetWarningCount | sitepack-tools-php/src/Report/ValidationReport.php:159-162 | returns the warning counter |
| PhpReport.AddErrors | sitepack-tools-php/src/Report/ValidationReport.php:60-64 | error messages added in turn are appended in order and each raises the error counter by one |
| ProfileNode.ChooseProfile | sitepack-tools-node/src/validator/index.js:56-98 | the profile map is used exactly when a profile is named and the map gives it an array, and then selects that array; otherwise the manifest's artifacts are selected; there is no complaint exactly when no profile is named, the flat list declares it, or the map was used; every complaint is an error with the code for the case |
| ProfileNode.SelectArtifactsForProfile | sitepack-tools-node/src/validator/index.js:56-98 | returns the chosen selection and adds the complaint, if any, to the report as error messages; no other part of the report changes |
| ProfileNode.FlatListSelectsManifest | sitepack-tools-node/src/validator/index.js:62-72 | with a flat `profiles` list the selection does not depend on the profile named: it is always the manifest's artifacts |
| ProfilePhp.Resolve | sitepack-tools-php/src/Validator/PackageValidator.php:571-637 | a usage error comes exactly with a complaint and selects nothing; there is none exactly when the manifest lists the profile or maps it to an array; a listed profile selects the manifest's string artifact ids, a mapped one the string items of its array |
| ProfilePhp.CollectStrings | sitepack-tools-php/src/Validator/PackageValidator.php:625-630 | the loop collects exactly the string items, in order |
| ProfilePhp.ResolveProfileSelection | sitepack-tools-php/src/Validator/PackageValidator.php:571-637 | returns the resolved selection; a usage error adds exactly one `PROFILE_NOT_FOUND` error message and otherwise the report is untouched |
| NdjsonNode.HookDetail | sitepack-tools-node/src/validator/ndjson-validate.js:42-49 | a hook item keeps its own level, code and message when present and non-empty, falls back to `warning`, `NDJSON_RECORD_WARNING` and `NDJSON record warning` otherwise, and always carries the current line |
| NdjsonNode.HookItems | sitepack-tools-node/src/validator/ndjson-validate.js:39-41 | no hook, or a hook answer that is not an array, contributes no items |
| NdjsonNode.HookDetails | sitepack-tools-node/src/validator/ndjson-validate.js:39-51 | one detail per hook item, in order, all on the current line |
| NdjsonNode.LineDetails | sitepack-tools-node/src/validator/ndjson-validate.js:14-63 | a blank line gives exactly one `NDJSON_EMPTY_LINE` warning; a line that does not parse gives exactly one `NDJSON_PARSE_ERROR`; a parsed record gives the hook details first, then one `NDJSON_SCHEMA_ERROR` exactly when the schema rejects it; every detail is on this line |
| NdjsonNode.ValidateNdjson | sitepack-tools-node/src/validator/ndjson-validate.js:5-67 | the line loop computes the details and the count of the whole file as the line-by-line definition gives them |
| NdjsonNode.ValidateLine | sitepack-tools-node/src/validator/ndjson-validate.js:14-63 | one loop iteration appends exactly what its line contributes |
| NdjsonNode.PushHookDetails | sitepack-tools-node/src/validator/ndjson-validate.js:42-49 | the inner loop appends the hook details in order |
| NdjsonNode.Stamping | sitepack-tools-node/src/validator/ndjson-validate.js:12-14 | every detail a line contributes carries that line's number |
| NdjsonNode.NdjsonInFileOrder | sitepack-tools-node/src/validator/ndjson-validate.js:12-64 | lines are numbered from 1 in file order: every detail names a line of the file, line numbers never decrease along the list, and the details of line k are exactly what line k contributes |
| NdjsonNode.NdjsonCountsNonBlank | sitepack-tools-node/src/validator/ndjson-validate.js:15-25 | `linesValidated` counts exactly the non-blank lines, whether or not they parse |
| NdjsonPhp.FromHook | sitepack-tools-php/src/Validator/NdjsonValidator.php:87-94 | a hook detail keeps its level, code and message, and its own line or else the current one |
| NdjsonPhp.HookDetails | sitepack-tools-php/src/Validator/NdjsonValidator.php:85-95 | no hook gives nothing; otherwise one detail per hook detail, in order |
| NdjsonPhp.SchemaDetail | sitepack-tools-php/src/Validator/NdjsonValidator.php:98-106 | the schema failure is one `NDJSON_SCHEMA_FAILED` error on the line carrying the first schema message, or `NDJSON schema error` when there is none |
| NdjsonPhp.LineDetails | sitepack-tools-php/src/Validator/NdjsonValidator.php:48-106 | a blank line gives one `EMPTY_LINE` warning only when asked for; a line that does not decode to an object gives exactly one `NDJSON_INVALID_LINE_JSON` error; an object gives the hook details, then one schema error exactly when it is rejected |
| NdjsonPhp.ValidateFile | sitepack-tools-php/src/Validator/NdjsonValidator.php:30-113 | the line loop computes the details and the count of the whole file as the line-by-line definition gives them |
| NdjsonPhp.ValidateLine | sitepack-tools-php/src/Validator/NdjsonValidator.php:48-106 | one loop iteration appends exactly what its line contributes |
| NdjsonPhp.Stamping | sitepack-tools-php/src/Validator/NdjsonValidator.php:42-48 | when the hook leaves the line number to the validator, every detail a line contributes carries that line's number |
| NdjsonPhp.NdjsonInFileOrder | sitepack-tools-php/src/Validator/NdjsonValidator.php:42-107 | with such a hook, every detail names a line of the file, line numbers never decrease, and the details of line k are exactly what line k contributes |
| NdjsonPhp.NdjsonCountsNonBlank | sitepack-tools-php/src/Validator/NdjsonValidator.php:49-62 | `linesValidated` counts exactly the lines that are not blank after trimming, including those that fail to decode |
| NdjsonPhp.SplLines | sitepack-tools-php/src/Validator/NdjsonValidator.php:39-47 | the lines `fgets` yields with `DROP_NEW_LINE` contain no newline |
| NdjsonPhp.SplTrailingEmpty | sitepack-tools-php/src/Validator/NdjsonValidator.php:39-47 | a text that is empty or ends in a newline yields an empty last line |
| NdjsonPhp.TrailingNewlineWarns | sitepack-tools-php/src/Validator/NdjsonValidator.php:39-60 | with `warnOnEmptyLine`, such a file ends in exactly one `EMPTY_LINE` warning, on the line after its last newline |
| LineWalk.WalkNumbered | sitepack-tools-node/src/validator/ndjson-validate.js:12-14 | when each line stamps its details with its own number, the walk's details are numbered within 1..n and never go back to an earlier line |
| LineWalk.WalkProjects | sitepack-tools-node/src/validator/ndjson-validate.js:12-64 | the walk's details for line k are exactly what line k contributed |
| LineWalk.CountedLines | sitepack-tools-node/src/validator/ndjson-validate.js:25 | the walk's counter is the number of lines the counting predicate holds of |
| AssetChunks.SortedSum | sitepack-tools-node/src/validator/index.js:230-249 | sorting the collected chunks by index does not change their total size |
| AssetNode.ChunkFileChecks | sitepack-tools-node/src/validator/index.js:197-225 | a regular chunk file yields at most two findings, a size mismatch and a digest finding |
| AssetNode.StepOk | sitepack-tools-node/src/validator/index.js:120-228 | one chunk step keeps the loop invariant: assembly is possible exactly when nothing was reported, and the collected chunks have distinct indexes of at least 1, recorded as seen, each naming a regular file whose size it carries |
| AssetNode.ScanChunksOk | sitepack-tools-node/src/validator/index.js:115-228 | the whole chunk loop ends in a state that satisfies that invariant |
| AssetNode.GapFrom | sitepack-tools-node/src/validator/index.js:233-245 | finds the first position whose index is not its 1-based position, and none exactly when every index from there on matches |
| AssetNode.RecordFindings | sitepack-tools-node/src/validator/index.js:100-106 | nothing is reported unless blob checking is on and the artifact is an asset index |
| AssetNode.AsItems | sitepack-tools-node/src/validator/index.js:122-126 | one hook item per finding |
| AssetNode.ScanChunkList | sitepack-tools-node/src/validator/index.js:115-228 | the chunk loop computes the findings, the collected entries and the assembly flag the chunk-by-chunk definition gives |
| AssetNode.CheckChunkFile | sitepack-tools-node/src/validator/index.js:197-225 | the loop body's size and digest checks are those of the definition |
| AssetNode.FindGap | sitepack-tools-node/src/validator/index.js:233-245 | the gap loop stops at the first position whose index is not its 1-based position |
| AssetNode.ValidateAssetIndexRecord | sitepack-tools-node/src/validator/index.js:100-345 | the hook returns exactly the findings the record definition gives |
| AssetNode.CheckWholeAsset | sitepack-tools-node/src/validator/index.js:248-277 | the whole-asset size and digest checks, hashing through the multi-file digest, are those of the definition |
| AssetNode.FailedChunkBlocksAssembly | sitepack-tools-node/src/validator/index.js:230-248 | when any chunk failed, the record's findings are the chunk findings alone: no gap, size or digest check runs |
| AssetNode.GapIsReported | sitepack-tools-node/src/validator/index.js:233-245 | when every chunk is good but the sorted indexes are not 1..n, the only finding is one `ASSET_CHUNK_INDEX_GAP` |
| AssetNode.RunWithinRange | sitepack-tools-node/src/validator/index.js:230-245 | a sorted run numbered 1..n is made of the chunks themselves, each with an index in 1..n |
| AssetNode.AssembledAsset | sitepack-tools-node/src/validator/index.js:230-277 | an asset is assembled only from a gap-free run of distinct indexes 1..n; the size compared is the sum of all chunk sizes and the digest is taken over the chunk files in ascending index order |
| AssetPhp.ChunkFileChecks | sitepack-tools-php/src/Validator/PackageValidator.php:754-782 | a chunk whose size could be read yields at most two findings |
| AssetPhp.StepOk | sitepack-tools-php/src/Validator/PackageValidator.php:672-791 | one chunk step keeps the same loop invariant as in Node, with `filesize` failures as findings |
| AssetPhp.ScanChunksOk | sitepack-tools-php/src/Validator/PackageValidator.php:667-791 | the whole chunk loop ends in a state that satisfies the invariant |
| AssetPhp.RecordFindings | sitepack-tools-php/src/Validator/PackageValidator.php:657-660 | nothing is reported unless blob checking is on and the artifact is an asset index |
| AssetPhp.AsDetails | sitepack-tools-php/src/Validator/PackageValidator.php:673-680 | each finding becomes one error detail on the record's line, in order |
| AssetPhp.ScanChunkList | sitepack-tools-php/src/Validator/PackageValidator.php:667-791 | the chunk loop computes the findings, entries and assembly flag the definition gives |
| AssetPhp.CheckChunkFile | sitepack-tools-php/src/Validator/PackageValidator.php:754-782 | the loop body's size and digest checks are those of the definition |
| AssetPhp.SumAndPaths | sitepack-tools-php/src/Validator/PackageValidator.php:800-806 | the loop over the sorted entries sums their sizes and collects their paths in order |
| AssetPhp.CheckWholeAsset | sitepack-tools-php/src/Validator/PackageValidator.php:800-836 | the whole-asset size and digest checks are those of the definition |
| AssetPhp.CheckRecord | sitepack-tools-php/src/Validator/PackageValidator.php:657-908 | the checker closure returns exactly the findings the record definition gives |
| AssetPhp.FailedChunkBlocksAssembly | sitepack-tools-php/src/Validator/PackageValidator.php:794-836 | when any chunk failed, the findings are the chunk findings alone |
| AssetPhp.AssembledWithoutGapCheck | sitepack-tools-php/src/Validator/PackageValidator.php:794-836 | with every chunk good the asset is checked whole whatever indexes the chunks carry, gaps included: the size is the sum of all chunks, the digest runs over the chunk files in ascending index order, and every chunk takes part exactly once |
| ObjectGraph.ObjectIndexMembers | sitepack-tools-node/src/validator/index.js:356-358 | the object-index artifacts are exactly the catalog artifacts whose media type is the object-index type |
| ObjectGraph.IdentityMessages | sitepack-tools-node/src/validator/index.js:489-517 | at most three identity messages, all errors |
| ObjectGraph.IdentityChecksIndependent | sitepack-tools-node/src/validator/index.js:492-517 | each identity message is present exactly when its own condition holds (passport id against object id, passport id against `objectRef.id`, `objectRef.id` against object id), and only when the ids it compares are present |
| ObjectGraph.PassportArtifactsMessages | sitepack-tools-node/src/validator/index.js:519-536 | at most one error per entry of the passport's `artifacts` |
| ObjectGraph.PassportArtifactsReported | sitepack-tools-node/src/validator/index.js:519-536 | a passport artifact id is reported missing exactly when it is a non-blank string of the list that the catalog ids lack |
| ObjectGraph.DatasetsMessages | sitepack-tools-node/src/validator/index.js:538-562 | at most one error per dataset selector |
| ObjectGraph.DatasetsReported | sitepack-tools-node/src/validator/index.js:538-562 | a dataset id is reported missing exactly when some object selector carries it, it is non-blank, and the catalog ids lack it |
| ObjectGraph.LayerOnlyErrors | sitepack-tools-node/src/validator/index.js:375-564 | when opening an index and checking an object report only errors, the whole layer reports only errors and no warning, unless it throws |
| ObjectGraph.FlattenOrThrows | sitepack-tools-php/src/Validator/PackageValidator.php:321-564 | a loop whose steps may throw throws exactly when one of its steps does |
| ObjectGraph.StepThrows | sitepack-tools-node/src/validator/index.js:375-564 | one step that throws makes the whole loop throw |
| ObjectGraph.FlattenOrOnlyErrors | sitepack-tools-php/src/Validator/PackageValidator.php:377-563 | a loop whose every step reports errors only reports errors only |
| ObjectGraph.IndexFromOrOnlyErrors | sitepack-tools-php/src/Validator/PackageValidator.php:321-564 | an index whose opening and objects report errors only reports errors only |
| ObjectsNode.CatalogIdsMembers | sitepack-tools-node/src/validator/index.js:364-369 | the catalog ids are exactly the string ids of the catalog artifacts |
| ObjectsNode.PathOwner | sitepack-tools-node/src/validator/index.js:370-372 | the artifact owning a path is a catalog artifact with that string path (the last one, since later entries overwrite earlier ones), and none exactly when no artifact has that path |
| ObjectsNode.PassportMessages | sitepack-tools-node/src/validator/index.js:476-562 | a parsed passport throws (the `TypeError` of calling the undefined `validators.objectPassport`) exactly when its owning artifact's id was not validated by the artifact loop; otherwise it contributes only errors |
| ObjectsNode.PassportAt | sitepack-tools-node/src/validator/index.js:446-487 | a passport path throws exactly when it resolves inside the package, the file exists and parses, and its owning artifact's id was not validated; otherwise it contributes only errors |
| ObjectsNode.UnlistedPassportThrows | sitepack-tools-node/src/validator/index.js:436-487 | a passport path the catalog does not list has no owner, so when every validated artifact had an id a passport there that parses makes the layer throw |
| ObjectsNode.ObjectMessages | sitepack-tools-node/src/validator/index.js:417-563 | one object of an index contributes only errors, and throws only through its passport, so only for an object entry with string `id` and `passportPath` |
| ObjectsNode.OpenIndex | sitepack-tools-node/src/validator/index.js:375-416 | opening an index contributes only errors; an index that opens contributes no message of its own, since no schema check is ever made |
| ObjectsNode.ReadIndex | sitepack-tools-node/src/validator/index.js:389-416 | an index file throws (the `TypeError` of calling the undefined `validators.objectIndex`) exactly when it exists, parses, and its artifact's id was not validated by the artifact loop; a missing file gives `OBJECT_INDEX_MISSING`; an opened index carries its `objects` array and no message |
| ObjectsNode.LayerMessages | sitepack-tools-node/src/validator/index.js:360-362 | a catalog with no object-index artifact contributes nothing and does not throw |
| ObjectsNode.ValidateObjectsLayer | sitepack-tools-node/src/validator/index.js:347-565 | it throws exactly when the layer does; otherwise the report gains exactly the layer's messages, in order, counted by level, and its artifacts and other counters are untouched |
| ObjectsNode.CheckIndexes | sitepack-tools-node/src/validator/index.js:375-564 | the loop over the object indexes throws exactly when some index does; otherwise it appends each index's messages in turn and tallies them |
| ObjectsNode.AddOpening | sitepack-tools-node/src/validator/index.js:375-416 | an index that opened adds its opening messages and then its objects' messages, throwing when an object does; one that stopped adds only its opening messages |
| ObjectsNode.CheckObjects | sitepack-tools-node/src/validator/index.js:417-563 | the loop over one index's objects throws exactly when some object does; otherwise it appends each object's messages in turn and tallies them |
| ObjectsNode.NodeLayerOnlyErrors | sitepack-tools-node/src/validator/index.js:347-565 | every message of the layer is an error, so a layer that does not throw never adds a warning |
| ObjectsNode.PassportArtifactMissingIff | sitepack-tools-node/src/validator/index.js:519-536 | a passport artifact id is reported missing exactly when it is a non-blank string that no catalog artifact has as its id |
| ObjectsNode.DatasetMissingIff | sitepack-tools-node/src/validator/index.js:538-562 | a dataset artifact id is reported missing exactly when an object selector carries it, it is non-blank, and no catalog artifact has it as its id |
| ObjectsPhp.CatalogIdsMembers | sitepack-tools-php/src/Validator/PackageValidator.php:310-319 | the catalog ids are exactly the non-empty string ids of the catalog artifacts |
| ObjectsPhp.ListedPathsMembers | sitepack-tools-php/src/Validator/PackageValidator.php:310-319 | the listed paths are exactly the non-empty string paths of the catalog artifacts |
| ObjectsPhp.SchemaMessages | sitepack-tools-php/src/Validator/PackageValidator.php:358-367 | an accepted document gives nothing; a rejected one gives one error with the given code per schema message, carrying that message |
| ObjectsPhp.Validated | sitepack-tools-php/src/Validator/SchemaValidator.php:37 | the schema validator accepts only an object: anything else decoded throws a `TypeError`, and an object gets exactly its schema messages |
| ObjectsPhp.PassportMessages | sitepack-tools-php/src/Validator/PackageValidator.php:452-562 | a decoded passport contributes only errors, and throws exactly when it is not a JSON object, since the schema validator takes only objects |
| ObjectsPhp.ObjectMessages | sitepack-tools-php/src/Validator/PackageValidator.php:377-563 | one object of an index contributes only errors; it throws only through its passport, so never for an object that is not itself a JSON object |
| ObjectsPhp.PassportFileMessages | sitepack-tools-php/src/Validator/PackageValidator.php:431-449 | the passport file contributes only errors, and throws exactly when it is a file that decodes to something other than a JSON object |
| ObjectsPhp.ReadIndex | sitepack-tools-php/src/Validator/PackageValidator.php:341-375 | an index file that resolved throws exactly when it decodes to something other than an object; otherwise it contributes only errors |
| ObjectsPhp.OpenIndex | sitepack-tools-php/src/Validator/PackageValidator.php:321-375 | opening an index contributes only errors, unless it throws |
| ObjectsPhp.LayerMessages | sitepack-tools-php/src/Validator/PackageValidator.php:306-308 | a catalog with no object-index artifact contributes nothing and does not throw |
| ObjectsPhp.ValidateObjectsLayer | sitepack-tools-php/src/Validator/PackageValidator.php:296-565 | the layer throws exactly when its definition does; otherwise the report gains exactly the layer's messages, each counted as an error, and the warning counter and the errors beyond messages are untouched |
| ObjectsPhp.CheckIndexes | sitepack-tools-php/src/Validator/PackageValidator.php:321-564 | the loop over the object indexes throws exactly when one index does, and otherwise appends each index's messages in turn, each an error |
| ObjectsPhp.AddOpening | sitepack-tools-php/src/Validator/PackageValidator.php:321-375 | an index that opened adds its opening messages and then its objects' messages, throwing exactly when an object does; one that stopped adds only its opening messages |
| ObjectsPhp.CheckObjects | sitepack-tools-php/src/Validator/PackageValidator.php:377-563 | the loop over one index's objects throws exactly when one object does, and otherwise appends each object's messages in turn, each an error |
| ObjectsPhp.PhpLayerOnlyErrors | sitepack-tools-php/src/Validator/PackageValidator.php:296-565 | every message of the layer is an error, so a layer that does not throw never adds a warning |
| ObjectsPhp.PassportArtifactMissingIff | sitepack-tools-php/src/Validator/PackageValidator.php:504-522 | a passport artifact id is reported missing exactly when it is a string, non-blank after `trim`, and no catalog artifact has it as its id |
| ObjectsPhp.DatasetMissingIff | sitepack-tools-php/src/Validator/PackageValidator.php:530-561 | a dataset artifact id is reported missing exactly when an object selector carries it, it is non-blank, and no catalog artifact has it as its id |
| PackageNode.SchemaMessages | sitepack-tools-node/src/validator/index.js:635-644 | one error per formatted schema error, in order, all with the given code |
| PackageNode.LoadDocument | sitepack-tools-node/src/validator/index.js:617-669 | a document is loaded exactly when its file exists and parses; a missing file gives exactly the `_MISSING` error and a parse failure exactly one `_PARSE_ERROR`; a loaded document gives only `_SCHEMA_ERROR` errors, none exactly when it is accepted or no errors are reported |
| PackageNode.Load | sitepack-tools-node/src/validator/index.js:623-645 | the manifest or catalog block returns the loaded document and adds exactly its messages to the report, tallied by level |
| PackageNode.Ids | sitepack-tools-node/src/validator/index.js:675 | the catalog ids are the `id` of each catalog artifact, in order |
| PackageNode.CrossCheckReports | sitepack-tools-node/src/validator/index.js:674-693 | a manifest id the catalog lacks is named by an error, and a catalog id the manifest lacks by a warning; each message names such an id and every such id is named |
| PackageNode.CheckManifestIds | sitepack-tools-node/src/validator/index.js:678-684 | the manifest loop adds one error per manifest id the catalog lacks, and no warning |
| PackageNode.CheckCatalogIds | sitepack-tools-node/src/validator/index.js:686-692 | the catalog loop adds one warning per catalog id the manifest lacks, and no error |
| PackageNode.CrossCheckCounts | sitepack-tools-node/src/validator/index.js:678-692 | the manifest loop reports only errors and the catalog loop only warnings |
| PackageNode.DistinctMembers | sitepack-tools-node/src/validator/index.js:702-704 | iterating a `Set` built from a list visits exactly the list's elements |
| PackageNode.ProfileScopeShape | sitepack-tools-node/src/validator/index.js:695-713 | without a profile everything is kept silently; a profile without a manifest keeps everything with one `PROFILE_NO_MANIFEST` error; otherwise the profile's selection decides; choosing the scope only reports errors |
| PackageNode.Missing | sitepack-tools-node/src/validator/index.js:703-712 | the ids a mapped profile names that the catalog lacks are reported only as errors |
| PackageNode.ProfileStepReports | sitepack-tools-node/src/validator/index.js:704-711 | the loop over a mapped profile's distinct ids names exactly the ids the catalog lacks |
| PackageNode.ProfileStepNamesMissing | sitepack-tools-node/src/validator/index.js:704-711 | every error of the profile loop names a profile id the catalog lacks |
| PackageNode.ProfileStepReportsMissing | sitepack-tools-node/src/validator/index.js:704-711 | every profile id the catalog lacks is reported |
| PackageNode.ProfileMissingReported | sitepack-tools-node/src/validator/index.js:695-713 | a missing id is reported for the profile exactly when a profile and a manifest are given, the profile map was used, and the map names an id the catalog lacks; a flat list or a fallback never reports one |
| PackageNode.ApplyProfile | sitepack-tools-node/src/validator/index.js:695-713 | the profile block returns the scope's selection and adds exactly its messages to the report |
| PackageNode.ApplyChosen | sitepack-tools-node/src/validator/index.js:700-712 | with a profile and a manifest, selecting and then reporting missing ids gives the scope's selection and messages |
| PackageNode.ProfileScopeChosen | sitepack-tools-node/src/validator/index.js:700-712 | with a profile and a manifest, the scope is the chosen selection, its complaint, then the missing ids |
| PackageNode.ReportMissing | sitepack-tools-node/src/validator/index.js:703-712 | when the map was used, the report gains the errors for the ids the catalog lacks, and nothing otherwise |
| PackageNode.ReportMissingForProfile | sitepack-tools-node/src/validator/index.js:704-711 | the loop adds one error per profile id the catalog lacks, and no warning |
| PackageNode.PrepareParts | sitepack-tools-node/src/validator/index.js:617-713 | the work before the artifact loop yields the catalog artifacts, the profile's selection, and the loading, cross-check and profile messages in that order |
| PackageNode.LoadDocuments | sitepack-tools-node/src/validator/index.js:617-669 | the manifest block then the catalog block return both documents and add their messages in that order |
| PackageNode.CrossCheckIds | sitepack-tools-node/src/validator/index.js:678-692 | the two cross-check loops add their errors, then their warnings |
| PackageNode.Prelude | sitepack-tools-node/src/validator/index.js:671-713 | after loading, the cross-check then the profile block add their messages in that order and return the selection |
| PackageNode.OutcomeShape | sitepack-tools-node/src/validator/index.js:597-878 | a finished report lists the loading, cross-check and profile messages first, then the object layer's; it has one entry per catalog artifact, each validated or skipped; its tallies count every message and every detail by level; it is stamped with start and finish times |
| PackageNode.OutcomeThrows | sitepack-tools-node/src/validator/index.js:732-869 | a run throws exactly on a `null` catalog artifact, an artifact whose checks throw, or an object layer that throws after the artifact loop |
| PackageNode.Begin | sitepack-tools-node/src/validator/index.js:597-730 | a fresh report with the documents loaded, cross-checked and scoped; it throws exactly when a catalog artifact is `null` |
| PackageNode.Complete | sitepack-tools-node/src/validator/index.js:732-876 | the artifact loop, the object layer and the finish stamp give the report the definition describes, and throw exactly when an artifact's checks or the object layer do |
| PackageNode.ValidatePackage | sitepack-tools-node/src/validator/index.js:597-878 | the whole validation yields the report the definition gives, and throws exactly when the definition does |
| ArtifactsNode.Locate | sitepack-tools-node/src/validator/index.js:755-777 | an artifact path is refused exactly when the path guard refuses it, with the guard's code; it is found when it resolves to an existing path, and absent, with a `not found` message, when it resolves to nothing |
| ArtifactsNode.NotRegular | sitepack-tools-node/src/validator/index.js:779-782 | a `FILE_NOT_REGULAR` error is reported exactly when the path is not a regular file |
| ArtifactsNode.SizeDetails | sitepack-tools-node/src/validator/index.js:784-792 | a `SIZE_MISMATCH` error is reported exactly when the declared size is a number different from the measured one |
| ArtifactsNode.CheckDigest | sitepack-tools-node/src/validator/index.js:794-809 | with `--no-digest` or no declared digest nothing is done; otherwise the digest is measured exactly when the file is readable, and there is no finding exactly when the measured digest equals the declared one |
| ArtifactsNode.NdjsonValidatorFor | sitepack-tools-node/src/validator/index.js:716-721 | an NDJSON validator exists exactly for the NDJSON media types |
| ArtifactsNode.JsonValidatorFor | sitepack-tools-node/src/validator/index.js:723-728 | a JSON validator exists exactly for the capabilities and transform-plan types; the object-index and object-passport entries are undefined |
| ArtifactsNode.JsonDetails | sitepack-tools-node/src/validator/index.js:828-851 | a JSON artifact that does not parse gives one `JSON_ARTIFACT_PARSE_ERROR`; one that parses gives one `JSON_ARTIFACT_SCHEMA_ERROR` per schema error; all are errors without a line; the parse error reads `Failed to read JSON artifact: ` and the reader's reason, and each schema error carries its formatted message, in order |
| ArtifactsNode.Dispatch | sitepack-tools-node/src/validator/index.js:811-861 | the dispatch throws exactly for an unreadable NDJSON artifact; a readable NDJSON artifact gets `validateNdjson` over its lines with the asset-index hook, counting its non-blank lines; JSON and unknown types count no lines; an unknown media type, the object-index and object-passport types included, gives exactly one `UNKNOWN_MEDIA_TYPE` warning; a JSON type gives the JSON details |
| ArtifactsNode.SettleShape | sitepack-tools-node/src/validator/index.js:732-863 | an entry keeps the artifact's id, type, path, size and digest; it is skipped exactly when the profile leaves the artifact out, and then it has no details and counts no lines; otherwise its status follows its details |
| ArtifactsNode.UnlocatedStops | sitepack-tools-node/src/validator/index.js:755-777 | a refused path or a missing file gives exactly one error with the guard's code or `FILE_MISSING`, status `error`, and no measurements |
| ArtifactsNode.FoundMeasured | sitepack-tools-node/src/validator/index.js:779-861 | a found path is measured whatever its checks say: the size recorded is the file's length, or what the file system reports for a directory; the digest check runs even after a size mismatch; the details are the file, digest and dispatch details in that order |
| ArtifactsNode.RunShape | sitepack-tools-node/src/validator/index.js:732-864 | each catalog artifact contributes exactly one entry, in catalog order, and every artifact is validated or skipped |
| ArtifactsNode.RunThrows | sitepack-tools-node/src/validator/index.js:732-864 | the artifact loop throws exactly when some artifact's checks do |
| ArtifactsNode.Measure | sitepack-tools-node/src/validator/index.js:779-861 | measuring a found file records its size and digest, appends the file, digest and dispatch details in order, and tallies them |
| ArtifactsNode.Examine | sitepack-tools-node/src/validator/index.js:745-862 | checking a new entry leaves it as the definition settles it and moves the counters accordingly; it throws exactly when the definition does |
| ArtifactsNode.MarkSkipped | sitepack-tools-node/src/validator/index.js:745-750 | a skipped artifact is marked skipped and counted as skipped, and nothing is checked |
| ArtifactsNode.MarkUnlocated | sitepack-tools-node/src/validator/index.js:752-777 | an artifact whose file was not found is counted as validated, gets its one error and is finalized |
| ArtifactsNode.ExamineFound | sitepack-tools-node/src/validator/index.js:752-862 | a found file is counted as validated, measured, hashed, dispatched and finalized |
| ArtifactsNode.CheckArtifact | sitepack-tools-node/src/validator/index.js:732-863 | one loop turn pushes the settled entry and moves the counters accordingly, or throws exactly when the definition does |
| ArtifactsNode.Advance | sitepack-tools-node/src/validator/index.js:732-864 | one loop turn carries the report's tally from the first i artifacts to the first i + 1 |
| ArtifactsNode.CheckArtifacts | sitepack-tools-node/src/validator/index.js:732-864 | the artifact loop leaves the report tallied as the definition over all catalog artifacts gives, and throws exactly when the definition does |
| PackagePhp.LoadJson | sitepack-tools-php/src/Validator/PackageValidator.php:267-288 | the load throws exactly for a file that decodes to something other than an object; otherwise the document is returned exactly when it is a file that decodes; a missing file gives exactly one `MISSING_FILE` error naming the path; a decode failure exactly one `INVALID_JSON` error with the reason; a loaded document gives its schema errors, one per message |
| PackagePhp.Load | sitepack-tools-php/src/Validator/PackageValidator.php:267-288 | the load block throws exactly when the definition does; otherwise it returns the document and adds exactly its messages to the report |
| PackagePhp.Objects | sitepack-tools-php/src/Validator/PackageValidator.php:84-90 | the catalog artifacts kept are exactly the JSON objects of the list, in order |
| PackagePhp.CatalogIds | sitepack-tools-php/src/Validator/PackageValidator.php:94-97 | one id per catalog artifact: its string id, or the empty string |
| PackagePhp.CrossCheckReports | sitepack-tools-php/src/Validator/PackageValidator.php:99-110 | a manifest id the catalog lacks is named by an error, and a non-empty catalog id the manifest lacks by a warning; every message names such an id and every such id is named |
| PackagePhp.CheckManifestIds | sitepack-tools-php/src/Validator/PackageValidator.php:99-103 | the manifest loop adds one error per manifest id the catalog lacks, and no warning |
| PackagePhp.CheckCatalogIds | sitepack-tools-php/src/Validator/PackageValidator.php:105-109 | the catalog loop adds one warning per non-empty catalog id the manifest lacks, and no error |
| PackagePhp.CrossCheckCounts | sitepack-tools-php/src/Validator/PackageValidator.php:99-110 | the manifest loop reports only errors and the catalog loop only warnings |
| PackagePhp.CrossCheckIds | sitepack-tools-php/src/Validator/PackageValidator.php:99-110 | the two loops add their messages one after the other |
| PackagePhp.ProfileScopeShape | sitepack-tools-php/src/Validator/PackageValidator.php:111-116 | without a profile nothing is reported and the manifest's artifacts are selected; with one, a usage error comes with exactly one `PROFILE_NOT_FOUND` error and an empty selection, and happens exactly when the manifest neither lists nor maps the profile |
| PackagePhp.ApplyProfile | sitepack-tools-php/src/Validator/PackageValidator.php:111-116 | the profile block returns the scope's selection and usage flag and adds exactly its messages |
| PackagePhp.Locate | sitepack-tools-php/src/Validator/PackageValidator.php:151-174 | an artifact is found exactly when its path is a non-empty string the path guard accepts and names a file, and then at the guarded path; otherwise it gets one error without a line, `Missing path` when the path is absent or empty |
| PackagePhp.SizeDetails | sitepack-tools-php/src/Validator/PackageValidator.php:179-186 | a `SIZE_MISMATCH` error is reported exactly when the declared size is an integer and the measured size differs from it, an unreadable size included |
| PackagePhp.MeasuredSize | sitepack-tools-php/src/Validator/PackageValidator.php:176-177 | the recorded size is what `filesize` gives, absent when it fails |
| PackagePhp.CheckDigest | sitepack-tools-php/src/Validator/PackageValidator.php:188-203 | when digests are skipped or the declared digest is absent or empty nothing is done; otherwise the digest is measured exactly when the file is readable, and there is no `DIGEST_MISMATCH` exactly when the measured digest equals the declared one |
| PackagePhp.MapsDisjoint | sitepack-tools-php/src/Validator/PackageValidator.php:118-130 | no media type is in both the NDJSON and the JSON map |
| PackagePhp.JsonDetails | sitepack-tools-php/src/Validator/PackageValidator.php:226-238 | a JSON artifact that decodes to something other than an object throws; one that does not decode gives exactly one `INVALID_JSON` error; an accepted one gives nothing; a rejected one gives one `SCHEMA_VALIDATION_FAILED` error per schema message, in order |
| PackagePhp.Dispatch | sitepack-tools-php/src/Validator/PackageValidator.php:205-243 | the dispatch throws exactly for an unreadable NDJSON artifact or a JSON artifact that decodes to something other than an object; an NDJSON artifact gets the line checks, with empty-line warnings and the asset checker; a JSON artifact gets the JSON details and counts no lines; any other media type gets one `UNKNOWN_MEDIA_TYPE` warning |
| PackagePhp.SettleShape | sitepack-tools-php/src/Validator/PackageValidator.php:132-247 | an entry keeps the artifact's id, type, path, size and digest when they have the right type; it is skipped exactly when the profile leaves the artifact out, and then it has no details and counts no lines; otherwise its status follows its details |
| PackagePhp.UnlocatedStops | sitepack-tools-php/src/Validator/PackageValidator.php:151-174 | a missing path, a refused path or a missing file gives exactly one `INVALID_PATH` or `MISSING_FILE` error, status `error`, and no measurements |
| PackagePhp.FoundMeasured | sitepack-tools-php/src/Validator/PackageValidator.php:176-246 | a found file is measured whatever its checks say: the size is recorded, the digest check runs even after a size mismatch, and the details are the size, digest and dispatch details in that order |
| PackagePhp.RunShape | sitepack-tools-php/src/Validator/PackageValidator.php:132-247 | each catalog object contributes exactly one entry, in catalog order, and every artifact is validated or skipped |
| PackagePhp.RunThrows | sitepack-tools-php/src/Validator/PackageValidator.php:132-247 | the artifact loop throws exactly when some artifact does |
| PackagePhp.IncrementReportLevel | sitepack-tools-php/src/Validator/PackageValidator.php:916-926 | only `error` and `warning` are tallied, each on its own counter |
| PackagePhp.AddDetails | sitepack-tools-php/src/Validator/PackageValidator.php:217-225 | each detail is appended to the entry and tallied on the report by its level, in order |
| PackagePhp.MarkSkipped | sitepack-tools-php/src/Validator/PackageValidator.php:142-147 | a skipped artifact is marked skipped and counted as skipped, and nothing is checked |
| PackagePhp.MarkUnlocated | sitepack-tools-php/src/Validator/PackageValidator.php:149-174 | an artifact whose file was not found is counted as validated, gets its one error and is finalized |
| PackagePhp.Measure | sitepack-tools-php/src/Validator/PackageValidator.php:176-243 | measuring a found file records its size and digest, appends the size, digest and dispatch details in order, and tallies them |
| PackagePhp.ExamineFound | sitepack-tools-php/src/Validator/PackageValidator.php:149-245 | a found file is counted as validated, measured, hashed, dispatched and finalized |
| PackagePhp.Examine | sitepack-tools-php/src/Validator/PackageValidator.php:142-245 | checking a new entry leaves it as the definition settles it and moves the counters accordingly; it throws exactly when the definition does |
| PackagePhp.CheckArtifact | sitepack-tools-php/src/Validator/PackageValidator.php:132-247 | one loop turn adds the settled entry and moves the counters accordingly, or throws exactly when the definition does |
| PackagePhp.Advance | sitepack-tools-php/src/Validator/PackageValidator.php:132-247 | one loop turn carries the report's tally from the first i artifacts to the first i + 1 |
| PackagePhp.CheckArtifacts | sitepack-tools-php/src/Validator/PackageValidator.php:132-247 | the artifact loop leaves the report tallied as the definition over all catalog objects gives, and throws exactly when the definition does |
| PackagePhp.PrepareParts | sitepack-tools-php/src/Validator/PackageValidator.php:58-130 | the work before the artifact loop throws exactly when loading the manifest or the catalog does; otherwise it yields the catalog objects, the profile's selection and usage flag, and the loading, cross-check and profile messages in that order |
| PackagePhp.OutcomeShape | sitepack-tools-php/src/Validator/PackageValidator.php:58-262 | a finished report targets the package, lists the loading, cross-check and profile messages first, then the object layer's; it has one entry per catalog object, each validated or skipped; its tallies count every message and every detail by level |
| PackagePhp.OutcomeThrows | sitepack-tools-php/src/Validator/PackageValidator.php:132-565 | after loading, a run throws exactly when one of its artifacts does or the object layer does |
| PackagePhp.LoadDocuments | sitepack-tools-php/src/Validator/PackageValidator.php:66-92 | the manifest then the catalog are loaded, adding their messages in that order; the block throws exactly when one of the two loads does |
| PackagePhp.Prelude | sitepack-tools-php/src/Validator/PackageValidator.php:94-116 | after loading, the cross-check then the profile block add their messages in that order and return the selection and usage flag |
| PackagePhp.Begin | sitepack-tools-php/src/Validator/PackageValidator.php:58-130 | a fresh report with the documents loaded, cross-checked and scoped; throws exactly when loading does |
| PackagePhp.Complete | sitepack-tools-php/src/Validator/PackageValidator.php:132-251 | the artifact loop, the object layer and the finish stamp give the report the definition describes, and throw exactly when an artifact or the object layer does |
| PackagePhp.Validate | sitepack-tools-php/src/Validator/PackageValidator.php:58-262 | the whole validation yields the report the definition gives and the profile block's usage flag, and throws exactly when the definition does |
| EnvelopeNode.PayloadMessages | sitepack-tools-node/src/validator/index.js:928-945 | at most one error; none exactly when `payload.file` is a non-blank string the path guard accepts next to the header and that names something existing; a missing or blank name gives `ENVELOPE_PAYLOAD_FILE_MISSING`, a refused one the guard's code |
| EnvelopeNode.HeaderStops | sitepack-tools-node/src/validator/index.js:897-916 | a header that is missing or cannot be read and parsed gives exactly one error, `ENVELOPE_MISSING` or `ENVELOPE_PARSE_ERROR`, and neither the schema nor the payload is looked at |
| EnvelopeNode.ParsedHeader | sitepack-tools-node/src/validator/index.js:918-945 | a parsed header gets one `ENVELOPE_SCHEMA_ERROR` per formatted schema error, in order, followed by the payload verdict only when the payload check is asked for |
| EnvelopeNode.ReadOnlyErrors | sitepack-tools-node/src/validator/index.js:918-945 | what a parsed header adds is errors only, so the error tally rises by their number and the warning tally not at all |
| EnvelopeNode.OnlyErrors | sitepack-tools-node/src/validator/index.js:879-950 | the envelope validator only ever reports errors |
| EnvelopeNode.CheckHeader | sitepack-tools-node/src/validator/index.js:918-945 | once the header is parsed, the report gains exactly its schema and payload messages, all counted as errors |
| EnvelopeNode.CheckPayload | sitepack-tools-node/src/validator/index.js:928-945 | the payload block adds exactly the payload messages, counted as errors, and nothing else |
| EnvelopeNode.ValidateEnvelope | sitepack-tools-node/src/validator/index.js:879-950 | a fresh report targeting the envelope header lists exactly the envelope messages, counts them all as errors and no warnings, lists no artifacts, and is stamped with start and finish times |
| EnvelopePhp.CastToString | sitepack-tools-php/src/Validator/EnvelopeValidator.php:69-70 | the string cast gives the string itself for a string and throws exactly on an object |
| EnvelopePhp.PayloadMessages | sitepack-tools-php/src/Validator/EnvelopeValidator.php:68-81 | at most one error; none exactly when the name is non-empty, the path guard accepts it next to the header and it names a file; an empty name gives `MISSING_FILE`, a refused one `INVALID_PATH` with the guard's message |
| EnvelopePhp.HeaderStops | sitepack-tools-php/src/Validator/EnvelopeValidator.php:47-59 | a header that cannot be read or decoded, a missing file included, gives exactly one `INVALID_JSON` error, reading `File not found` for a missing file |
| EnvelopePhp.ParsedHeader | sitepack-tools-php/src/Validator/EnvelopeValidator.php:61-81 | a decoded header throws exactly when it is not an object or the payload check is asked for and `payload.file` cannot be cast to a string; without the payload check it gets exactly one `SCHEMA_VALIDATION_FAILED` error per schema message; with it, those errors come first |
| EnvelopePhp.OnlyErrors | sitepack-tools-php/src/Validator/EnvelopeValidator.php:44-91 | the envelope validator only ever reports errors |
| EnvelopePhp.CheckPayload | sitepack-tools-php/src/Validator/EnvelopeValidator.php:68-81 | the payload block adds exactly the payload messages, counted as errors, and nothing else |
| EnvelopePhp.Validate | sitepack-tools-php/src/Validator/EnvelopeValidator.php:44-91 | never a usage error; throws exactly when the definition does, a header that is not an object included; otherwise a report targeting the envelope lists exactly the envelope messages, all counted as errors, and is stamped finished |
| VolumesNode.ReadDescriptor | sitepack-tools-node/src/validator/index.js:972-999 | the run stops exactly when the descriptor is missing or cannot be read and parsed, with one error and no volumes; otherwise the volumes are the descriptor's `volumes` array; every message is an error |
| VolumesNode.SizeMessages | sitepack-tools-node/src/validator/index.js:1036-1040 | no complaint exactly when `size` is absent or equals the file's size; otherwise one `VOLUME_SIZE_MISMATCH` error |
| VolumesNode.DigestMessages | sitepack-tools-node/src/validator/index.js:1042-1055 | no complaint exactly when `sha256` is absent or the file is readable and its hex digest equals the declared one lower-cased by JavaScript's `toLowerCase`; an unreadable file gives `VOLUME_DIGEST_ERROR` with the read error; at most one error |
| VolumesNode.EnvelopeFileMessages | sitepack-tools-node/src/validator/index.js:1059-1072 | at most one error; none exactly when `envelopeFile` is a non-blank string the path guard accepts next to the descriptor and that names something existing |
| VolumesNode.EncryptionMessages | sitepack-tools-node/src/validator/index.js:1057-1080 | a volume draws encryption messages exactly when it is `age`-encrypted, and then the last is always `VOLUME_ENCRYPTION_UNSUPPORTED`, after at most one envelope complaint |
| VolumesNode.FileChecks | sitepack-tools-node/src/validator/index.js:1036-1080 | the size, digest and encryption checks on a regular file report errors only |
| VolumesNode.Survey | sitepack-tools-node/src/validator/index.js:1002-1087 | a volume is kept exactly when it is an object naming a non-blank file that the path guard accepts and that is a regular file; a kept volume records its numeric index (0 when absent or not a number), its resolved path and its name; a dropped one gets exactly one error |
| VolumesNode.SurveyAllOnlyErrors | sitepack-tools-node/src/validator/index.js:1002-1087 | the volume loop reports errors only |
| VolumesNode.SurveyAllEntries | sitepack-tools-node/src/validator/index.js:1002-1087 | every volume the loop keeps is a regular file inside the descriptor's directory |
| VolumesNode.UnpackEntry | sitepack-tools-node/src/validator/index.js:570-593 | an unsafe entry name gives one `VOLUME_ENTRY_PATH_UNSAFE` error and leaves the tree alone; a safe one gives no message; a safe directory entry is made at its resolved path unless a file stands there; a safe file entry is written there with its bytes unless a directory stands there or its bytes cannot be read; a failed write leaves the tree alone; nothing is removed, and the only path added or changed is where the guard put the entry |
| VolumesNode.UnpackStops | sitepack-tools-node/src/validator/index.js:567-594 | once an entry fails, the entries after it change nothing |
| VolumesNode.UnpackInside | sitepack-tools-node/src/validator/index.js:567-594 | zip-slip containment: every path that extraction adds or changes is where the path guard put one of the archive's entry names; nothing is removed; the only messages are unsafe-name errors |
| VolumesNode.ExtractAllInside | sitepack-tools-node/src/validator/index.js:1097-1107 | extracting all volumes reports errors only, removes nothing, and writes only inside the destination directory |
| VolumesNode.OrderedByIndex | sitepack-tools-node/src/validator/index.js:1083-1098 | volumes are extracted in non-decreasing order of `Number(index)` (0 when that is `NaN`), infinities included, each kept volume exactly once, tied volumes in the order they were kept |
| VolumesNode.VolumePhaseOnlyErrors | sitepack-tools-node/src/validator/index.js:972-1107 | everything the survey and extraction report is an error |
| VolumesNode.ConcludeShape | sitepack-tools-node/src/validator/index.js:1089-1136 | a run ends in one of three ways: any survey message ends it before extraction; any extraction message ends it before the package step; otherwise the result is exactly the package report, refinished, and the run throws exactly when package validation does |
| VolumesNode.VolumesOutcomeShape | sitepack-tools-node/src/validator/index.js:951-1140 | every run's outcome is the survey, then extraction of the kept volumes into the temporary directory, then the package verdict over the extracted tree, with both volume phases reporting errors only |
| VolumesNode.ExtractionStaysInTemp | sitepack-tools-node/src/validator/index.js:1095-1107 | whatever the volumes hold, extraction writes nowhere outside the fresh temporary directory |
| VolumesNode.CheckDescriptor | sitepack-tools-node/src/validator/index.js:972-999 | the descriptor block adds exactly the descriptor messages to the report's summary, and returns its volumes and whether the run stops |
| VolumesNode.CheckFile | sitepack-tools-node/src/validator/index.js:1036-1080 | the checks on a regular file add exactly their messages to the report's summary |
| VolumesNode.SurveyVolume | sitepack-tools-node/src/validator/index.js:1003-1086 | one pass of the volume loop adds exactly that volume's messages and returns its entry when it is kept |
| VolumesNode.SurveyVolumes | sitepack-tools-node/src/validator/index.js:1002-1087 | the volume loop adds exactly the survey's messages and returns exactly the kept volumes |
| VolumesNode.ExtractEntry | sitepack-tools-node/src/validator/index.js:570-593 | one entry of the archive loop changes the tree and reports exactly as the entry definition says |
| VolumesNode.ExtractArchive | sitepack-tools-node/src/validator/index.js:567-594 | opening an archive and unpacking its entries in order, stopping at the first failure, changes the tree and reports exactly as the extraction definition says |
| VolumesNode.ExtractVolumes | sitepack-tools-node/src/validator/index.js:1098-1107 | the extraction loop runs each volume in order, reports a thrown error against that volume and goes on, and changes the tree and reports exactly as the definition says |
| VolumesNode.SurveyPhase | sitepack-tools-node/src/validator/index.js:962-1087 | a fresh report targeting the volume set, holding exactly the survey's messages, and the kept volumes |
| VolumesNode.VolumePhase | sitepack-tools-node/src/validator/index.js:962-1113 | the run stops exactly when the survey or extraction counts an error, and the report is then exactly the finished volume report; otherwise the tree is the extracted one and the report holds the survey's and extraction's messages |
| VolumesNode.PackageStep | sitepack-tools-node/src/validator/index.js:1115-1134 | throws exactly when package validation does; otherwise the result is the package report with the volume messages merged in, retargeted to the volume set and refinished |
| VolumesNode.Merge | sitepack-tools-node/src/validator/index.js:1125-1134 | the volume messages are added to the package report, which is retargeted to the volume set and gets a new finish time |
| VolumesNode.ValidateVolumes | sitepack-tools-node/src/validator/index.js:951-1140 | throws exactly when the outcome definition does; otherwise the report's summary is exactly that outcome and it targets the volume-set descriptor |
| VolumesPhp.ReadDescriptor | sitepack-tools-php/src/Validator/VolumeSetValidator.php:83-116 | the run throws exactly when the descriptor decodes to something other than an object; otherwise it stops exactly when the descriptor cannot be read and decoded: `VOLUME_SET_MISSING` when it is not a file, otherwise `VOLUME_SET_PARSE_ERROR`, with no volumes; a decoded descriptor draws no message exactly when the schema passes it, and its volumes are its `volumes` array |
| VolumesPhp.SizeMessages | sitepack-tools-php/src/Validator/VolumeSetValidator.php:147-153 | no complaint exactly when `size` is not an integer or equals the measured size; otherwise one `VOLUME_SIZE_MISMATCH` error |
| VolumesPhp.DigestMessages | sitepack-tools-php/src/Validator/VolumeSetValidator.php:155-172 | no complaint exactly when `sha256` is not a string or the file is readable and its hex digest equals the lower-cased declared one; a failing digest gives `VOLUME_DIGEST_ERROR` with its message; at most one error |
| VolumesPhp.EnvelopeFileMessages | sitepack-tools-php/src/Validator/VolumeSetValidator.php:175-185 | at most one error; none exactly when `envelopeFile` is a non-blank string the path guard accepts next to the descriptor and that names a regular file; a refused one gives `INVALID_PATH` naming it |
| VolumesPhp.EncryptionMessages | sitepack-tools-php/src/Validator/VolumeSetValidator.php:174-188 | a volume draws encryption messages exactly when it is `age`-encrypted, and then the last is always `VOLUME_ENCRYPTION_UNSUPPORTED`, after at most one envelope complaint |
| VolumesPhp.FileChecks | sitepack-tools-php/src/Validator/VolumeSetValidator.php:147-188 | the size, digest and encryption checks report errors only |
| VolumesPhp.Survey | sitepack-tools-php/src/Validator/VolumeSetValidator.php:119-195 | a volume is kept exactly when it is an object naming a non-blank file that the path guard accepts and whose size can be read; a kept volume records its integer index (0 otherwise), its name and its resolved path; a dropped one gets exactly one error, `VOLUME_ENTRY_INVALID` for a non-object |
| VolumesPhp.SurveyFile | sitepack-tools-php/src/Validator/VolumeSetValidator.php:136-194 | a volume whose name resolved is kept exactly when its size can be read; a path that is not a file gives `VOLUME_FILE_MISSING`; a dropped one gets exactly one error; errors only |
| VolumesPhp.SurveyAllOnlyErrors | sitepack-tools-php/src/Validator/VolumeSetValidator.php:119-195 | the volume loop reports errors only |
| VolumesPhp.SurveyAllEntries | sitepack-tools-php/src/Validator/VolumeSetValidator.php:119-195 | every volume the loop keeps is a regular file inside the descriptor's directory |
| VolumesPhp.UnpackEntry | sitepack-tools-php/src/Validator/VolumeSetValidator.php:304-358 | an empty name is skipped silently; an unsafe name gives one `VOLUME_ENTRY_PATH_UNSAFE` error and leaves the tree alone; at most one message, and a reported entry leaves the tree alone; the only path added or changed is where the guard put the entry |
| VolumesPhp.PlaceEntry | sitepack-tools-php/src/Validator/VolumeSetValidator.php:321-358 | at most one `VOLUME_EXTRACT_ERROR`, and then the tree is unchanged; only the resolved path can change and nothing is removed; a file entry with readable bytes is written exactly when no directory stands in its place |
| VolumesPhp.UnpackInside | sitepack-tools-php/src/Validator/VolumeSetValidator.php:291-362 | zip-slip containment: every path that extraction adds or changes is where the path guard put one of the archive's entry names; nothing is removed; every message is an error, at most one per entry |
| VolumesPhp.ExtractZip | sitepack-tools-php/src/Validator/VolumeSetValidator.php:293-302 | an archive that is not a readable file or does not open gives exactly one `VOLUME_EXTRACT_ERROR` naming it, and leaves the tree alone |
| VolumesPhp.ExtractAllInside | sitepack-tools-php/src/Validator/VolumeSetValidator.php:225-227 | extracting all volumes reports errors only, removes nothing, and writes only inside the destination directory |
| VolumesPhp.OrderedByIndex | sitepack-tools-php/src/Validator/VolumeSetValidator.php:220-223 | volumes are extracted in non-decreasing index order, each kept volume exactly once, tied volumes in the order they were kept, as `usort` is stable |
| VolumesPhp.VolumePhaseOnlyErrors | sitepack-tools-php/src/Validator/VolumeSetValidator.php:83-227 | when the descriptor does not throw, everything the survey and extraction report is an error |
| VolumesPhp.ConcludeShape | sitepack-tools-php/src/Validator/VolumeSetValidator.php:197-265 | a run ends in one of four ways: any survey message ends it; a temporary directory that cannot be made ends it with `VOLUME_TEMP_DIR_ERROR`; any extraction message ends it before the package step; otherwise the result is the package report retargeted to the volume set and refinished, with the package's usage error |
| VolumesPhp.VolumesOutcomeShape | sitepack-tools-php/src/Validator/VolumeSetValidator.php:58-269 | a run throws at the descriptor exactly when it decodes to something other than an object; otherwise its outcome is the survey, then the temporary directory, then extraction of the kept volumes, then the package verdict over the extracted tree, with both volume phases reporting errors only |
| VolumesPhp.ExtractionStaysInTemp | sitepack-tools-php/src/Validator/VolumeSetValidator.php:207-227 | whatever the volumes hold, extraction writes nowhere outside the temporary directory |
| VolumesPhp.AddMessages | sitepack-tools-php/src/Validator/VolumeSetValidator.php:70-81 | each message is added to the report's summary and appended to the volume-message log, in order |
| VolumesPhp.CheckDescriptor | sitepack-tools-php/src/Validator/VolumeSetValidator.php:83-116 | the descriptor block throws exactly when the definition does; otherwise it adds exactly the descriptor messages to the report and the log, and returns its volumes and whether the run stops |
| VolumesPhp.CheckFile | sitepack-tools-php/src/Validator/VolumeSetValidator.php:147-188 | the checks on a measured file add exactly their messages to the report and the log |
| VolumesPhp.SurveyVolume | sitepack-tools-php/src/Validator/VolumeSetValidator.php:120-194 | one pass of the volume loop adds exactly that volume's messages and returns its entry when it is kept |
| VolumesPhp.SurveyVolumeFile | sitepack-tools-php/src/Validator/VolumeSetValidator.php:136-194 | the pass once the name has resolved adds exactly its messages and returns its entry when it is kept |
| VolumesPhp.SurveyVolumes | sitepack-tools-php/src/Validator/VolumeSetValidator.php:118-195 | the volume loop adds exactly the survey's messages and returns exactly the kept volumes |
| VolumesPhp.ExtractEntry | sitepack-tools-php/src/Validator/VolumeSetValidator.php:305-358 | one entry of the archive loop changes the tree and reports exactly as the entry definition says |
| VolumesPhp.WriteEntry | sitepack-tools-php/src/Validator/VolumeSetValidator.php:321-358 | the entry's pass once its name has resolved changes the tree and reports exactly as the placement definition says |
| VolumesPhp.ExtractArchive | sitepack-tools-php/src/Validator/VolumeSetValidator.php:291-362 | opening an archive and unpacking each of its entries in order changes the tree and reports exactly as the extraction definition says |
| VolumesPhp.ExtractVolumes | sitepack-tools-php/src/Validator/VolumeSetValidator.php:225-227 | the extraction loop runs each volume in order and changes the tree and reports exactly as the definition says |
| VolumesPhp.SurveyPhase | sitepack-tools-php/src/Validator/VolumeSetValidator.php:65-195 | throws exactly when the descriptor does; otherwise a fresh report targeting the volume set, holding exactly the survey's messages, the same messages in the log, and the kept volumes |
| VolumesPhp.VolumePhase | sitepack-tools-php/src/Validator/VolumeSetValidator.php:197-237 | throws exactly when the descriptor does; otherwise the run stops exactly when the survey counts an error, the temporary directory cannot be made, or extraction counts an error, and the report is then exactly the finished volume report; otherwise the tree is the extracted one and the log holds the survey's and extraction's messages, all errors |
| VolumesPhp.Merge | sitepack-tools-php/src/Validator/VolumeSetValidator.php:248-258 | the logged volume messages are added to the package report, which is retargeted to the volume set and refinished |
| VolumesPhp.PackageStep | sitepack-tools-php/src/Validator/VolumeSetValidator.php:239-265 | throws exactly when package validation does; otherwise the result is the package report with the volume messages merged in; the usage error is the package's |
| VolumesPhp.Validate | sitepack-tools-php/src/Validator/VolumeSetValidator.php:58-269 | throws exactly when the outcome definition does; otherwise the report's summary and the usage error are exactly that outcome's |
| VolumesCli.NormalizedSegments | sitepack-tools-node/src/volumes-cli.js:14-21 | for a path without `..`, the normalised key, split on `/`, names the same non-empty, non-`.` segments as the original split on both separators |
| VolumesCli.KeyNamesResolvedFile | sitepack-tools-node/src/volumes-cli.js:85-106 | for a path without backslashes that the guard accepts, the key `addPath` stores walks from the package directory to exactly the file it resolved |
| VolumesCli.BackslashKey | sitepack-tools-node/src/volumes-cli.js:14-15 | a backslash is a separator in the key: `a\\b` is stored as `a/b` |
| VolumesCli.BackslashName | sitepack-tools-node/src/volumes-cli.js:86 | the same backslash is part of a single name in the resolved path |
| VolumesCli.PathIndex.constructor | sitepack-tools-node/src/volumes-cli.js:111-140 | the path map starts empty, with no keys and no errors |
| VolumesCli.PathIndex.AddPath | sitepack-tools-node/src/volumes-cli.js:85-106 | an unsafe path records `Unsafe path` with the guard's message, a missing one `Missing file`, and a non-regular one `Not a regular file`, each naming the key and inserting nothing; a regular file is inserted under its normalised key unless the key is present (the first path wins); the index stays within the package directory |
| VolumesCli.PathIndex.Entries | sitepack-tools-node/src/volumes-cli.js:28-34 | succeeds exactly when every stored path is still a regular file; then each key, in insertion order, with its path and its size, all keys distinct |
| VolumesCli.RequiredOf | sitepack-tools-node/src/volumes-cli.js:171-177 | the required side holds only entries of the list whose key is a required name |
| VolumesCli.RemainingOf | sitepack-tools-node/src/volumes-cli.js:171-177 | the other side holds only entries of the list whose key is not a required name |
| VolumesCli.FindEntry | sitepack-tools-node/src/volumes-cli.js:190 | finds an entry of the list carrying the name, and finds nothing exactly when no entry carries it |
| VolumesCli.Partition | sitepack-tools-node/src/volumes-cli.js:171-177 | the first loop sends required entries to one side and the rest to the other, each in order |
| VolumesCli.PartitionKeepsAll | sitepack-tools-node/src/volumes-cli.js:171-177 | every entry goes to exactly one side of the partition |
| VolumesCli.MissingMeansAbsent | sitepack-tools-node/src/volumes-cli.js:179-184 | a required name is reported missing exactly when no entry carries it |
| VolumesCli.HeadIsManifestThenCatalog | sitepack-tools-node/src/volumes-cli.js:190-197 | with nothing missing, the first part opens with the first manifest entry, then the first catalog entry |
| VolumesCli.RequiredAreTheFound | sitepack-tools-node/src/volumes-cli.js:171-197 | with distinct keys, the required side is exactly the found manifest and catalog entries |
| VolumesCli.RestInCollationOrder | sitepack-tools-node/src/volumes-cli.js:203 | the other entries come in collation order, none lost or repeated |
| VolumesCli.Pack | sitepack-tools-node/src/volumes-cli.js:204-221 | the packing loop throws exactly when some entry is over the bound, naming the first; otherwise the parts hold the required entries then the rest, each part non-empty and within the bound, a part closed only where the next entry would overflow |
| VolumesCli.StartPacking | sitepack-tools-node/src/volumes-cli.js:186-197 | the packing loop starts with the required entries as its open part |
| VolumesCli.ClosePart | sitepack-tools-node/src/volumes-cli.js:209-216 | closing the open part when the next entry does not fit keeps the packing invariant |
| VolumesCli.GrowPart | sitepack-tools-node/src/volumes-cli.js:215-216 | adding an entry that fits to the open part keeps the packing invariant |
| VolumesCli.FinishPacking | sitepack-tools-node/src/volumes-cli.js:219-221 | closing the open part when the loop ends gives packed parts |
| VolumesCli.BuildVolumes | sitepack-tools-node/src/volumes-cli.js:166-224 | a missing manifest or catalog throws naming them; required files over the bound throw with their total; any other file over the bound throws naming the first; otherwise the parts hold the manifest and catalog first, then the others in collation order, every part non-empty and within the bound, a new part opened only on overflow |
| VolumesCli.NothingDroppedOrRepeated | sitepack-tools-node/src/volumes-cli.js:166-224 | with distinct keys and nothing missing, the parts hold every entry exactly once |
| VolumesCli.BaseNameOr | sitepack-tools-node/src/volumes-cli.js:244 | the base name is never empty |
| VolumesCli.PackageIdOf | sitepack-tools-node/src/volumes-cli.js:252-255 | the option wins when non-empty; the id is one of the option, the manifest's string id or the directory's name, and is empty exactly when all three are |
| VolumesCli.PartNamesDistinct | sitepack-tools-node/src/volumes-cli.js:272 | different part numbers give different file names |
| VolumesCli.OutputPathsDistinct | sitepack-tools-node/src/volumes-cli.js:273 | different plain names in one directory are different paths |
| VolumesCli.PartIsNotDescriptor | sitepack-tools-node/src/volumes-cli.js:272-299 | a part's file name never is the descriptor's name |
| VolumesCli.PartPathsDistinct | sitepack-tools-node/src/volumes-cli.js:270-299 | part paths never collide with each other nor with the descriptor's path |
| VolumesCli.WrittenParts | sitepack-tools-node/src/volumes-cli.js:283 | once written, each part's path holds that part's archive, when no two parts share a path |
| VolumesCli.WrittenElsewhere | sitepack-tools-node/src/volumes-cli.js:270-297 | writing the parts leaves every other path as it was |
| VolumesCli.WriteParts | sitepack-tools-node/src/volumes-cli.js:270-297 | succeeds exactly when every part's path is free or an overwritable file and every archive is within the bound; then each part's record holds its number, name, size and digest, and the tree has every archive written to its path |
| VolumesCli.CreateVolumes | sitepack-tools-node/src/volumes-cli.js:265-335 | succeeds exactly when the output directory is not a file, every part can be written and the descriptor does not exist unless overwriting and is not a directory; then the records are those of the parts, and the tree is the directory made, the parts written and the descriptor listing them |
| VolumesCli.WritableAfterMkdir | sitepack-tools-node/src/volumes-cli.js:265-283 | making the output directory changes no part's writability, since no part path is the directory |
| VolumesCli.CreatedParts | sitepack-tools-node/src/volumes-cli.js:270-297 | after success, part `i + 1` holds its archive of at most `maxPartSize` bytes under `<base>.part<i + 1>.sitepack`, and its record names that file, size and digest |
| VolumesCli.CreatedNothingElse | sitepack-tools-node/src/volumes-cli.js:242-335 | a successful creation leaves the output directory a directory and every path other than it, the parts and the descriptor as it was |
| VolumesCli.DescriptorListsParts | sitepack-tools-node/src/volumes-cli.js:304-326 | the descriptor lists every part once, in order, with its number, file name and the count of parts |
| VolumesCli.PlaceEntry | sitepack-tools-node/src/volumes-cli.js:341-359 | an entry is placed only when the path guard accepts its name |
| VolumesCli.PlaceEntryInside | sitepack-tools-node/src/volumes-cli.js:341-359 | a placed entry removes nothing and writes only inside the destination |
| VolumesCli.PlacedSafe | sitepack-tools-node/src/volumes-cli.js:340-345 | in an archive placed without failure, every entry had a safe name |
| VolumesCli.PlacedStopAt | sitepack-tools-node/src/volumes-cli.js:340-360 | once an entry fails, the entries after it change nothing |
| VolumesCli.PlacedInside | sitepack-tools-node/src/volumes-cli.js:337-361 | zip-slip containment: a whole archive placed without failure removes nothing and writes nothing outside the destination |
| VolumesCli.ExtractZip | sitepack-tools-node/src/volumes-cli.js:337-361 | the entry loop opens the archive and places its entries in order, as the extraction definition says |
| VolumesCli.OrderedByIndex | sitepack-tools-node/src/volumes-cli.js:383-388 | volumes are extracted in non-decreasing order of `Number(index)` (0 when that is `NaN`), infinities included, each descriptor entry exactly once, tied entries in descriptor order |
| VolumesCli.ExtractStep | sitepack-tools-node/src/volumes-cli.js:391-401 | a volume is extracted only when its `file` is a non-blank string that the guard accepts next to the descriptor and that exists |
| VolumesCli.VolumeSetEntries | sitepack-tools-node/src/volumes-cli.js:366-380 | a missing descriptor throws naming it; on success the descriptor parsed, its entries are its `volumes`, non-empty and without `null`, the output directory is empty unless overwriting, and it is not a file |
| VolumesCli.ExtractPartsStopAt | sitepack-tools-node/src/volumes-cli.js:390-402 | once a volume fails, the volumes after it change nothing |
| VolumesCli.ExtractPartsInside | sitepack-tools-node/src/volumes-cli.js:390-402 | extracted volumes remove nothing and write only inside the output directory |
| VolumesCli.ExtractVolumesInside | sitepack-tools-node/src/volumes-cli.js:363-405 | a successful extraction removes nothing and writes only inside the output directory |
| VolumesCli.ExtractVolume | sitepack-tools-node/src/volumes-cli.js:391-401 | one volume of the loop is checked and extracted as the step definition says |
| VolumesCli.ExtractVolumes | sitepack-tools-node/src/volumes-cli.js:363-405 | the checks, then the loop over the ordered volumes, as the run definition says |
| VolumesCli.RefOfItem | sitepack-tools-node/src/volumes-cli.js:319-326 | a descriptor item reads back as its part's number, as a finite JS number, and file name |
| VolumesCli.DescriptorEntries | sitepack-tools-node/src/volumes-cli.js:319-325 | the descriptor's `volumes` are exactly the items of the records |
| VolumesCli.NumberedItemsInOrder | sitepack-tools-node/src/volumes-cli.js:383-388 | items numbered `1, 2, ...` are already in extraction order |
| VolumesCli.CreatedSetExtractsInOrder | sitepack-tools-node/src/volumes-cli.js:270-388 | a descriptor written by creation is read back by extraction in the order the parts were written: part `i + 1` is visited `i`-th, under the file name it was written as |

## Left out

- Command-line option parsing, help texts, printing and the writing of report files (`writeReport`, `ReportWriter`) are not modelled; a run ends with the report in memory.
- Clocks are parameters: start and finish times are given to each run.
- Schema loading and compilation (`schema-loader.js`, the PHP `SchemaValidator`) are not part of this model; their verdicts are the schema oracle.
- JSON parsing and serialisation are oracles; numbers that are not integers are not represented.
- The zip container format is not modelled: an archive opens into a list of named entries whose bytes may be unreadable. Writing archives (`yazl`) is a function from part entries to bytes.
- `unzipper`'s directory detection is approximated: an empty entry whose name ends in a separator is a directory.
- Recursive creation of parent directories while extracting is not modelled; only the entry's own path is written.
- Operating-system error texts (`ENOENT`, `EISDIR`) are approximations of Node's messages.
- `mkdtemp`, `createTempDir`'s unique name and the removal of the temporary directory are not modelled: the temporary directory is a parameter, and it is left in the tree.
- `collectPackageFiles` and `collectAssetIndexPaths` in `volumes-cli.js` are not modelled as wholes; each `addPath` call they make is (`VolumesCli.PathIndex.AddPath`).
- The top-level composition of `createVolumes` is split: collecting keys, measuring (`PathIndex.Entries`), packing (`BuildVolumes`) and writing (`CreateVolumes`) are each modelled and proved, but not chained in one member.
- VolumesCli.CreateVolumes: says nothing about the tree after a failed run, where the parts written before the failure stay on disk. In the source, a part over the bound is found only after it is written, and the model writes it too.
- VolumesCli.CreateVolumes: `fs.mkdir(outDir, { recursive: true })` is modelled for the output directory itself only (an existing file there fails with `EEXIST`); missing ancestors are not added to the tree, and an ancestor that is a file (`ENOTDIR`) is not modelled.
- VolumesCli.PlaceEntry: states only that a placed entry had a safe name; what it writes is stated by `VolumesNode.UnpackEntry`, which it reuses.
- VolumesNode.UnpackEntry: an entry whose bytes cannot be read is modelled as a failed extraction, which `validateVolumes` reports as `VOLUME_EXTRACT_ERROR` and the volume tool as a failed extract. In the source the entry's read stream is piped to the file with an `error` listener on the write stream only (index.js:587-592, volumes-cli.js:353-358), so that read error has no listener and ends the Node process instead; the crash is not modelled.
- Locale collation (`localeCompare`) is an integer key per name; ties and locale rules are not modelled.
- Duplicate entry names inside one zip archive are taken in order, the later write winning; the archive's own handling of duplicates is not modelled.
- A base name (`--base-name`) containing separators is not modelled: part names are plain names in the output directory.
- A backslash is a separator to `normalizeRelPath` but a name character to `path.resolve` on POSIX, so the key and the resolved file can differ; `KeyNamesResolvedFile` is stated for paths without backslashes, and `BackslashKey` and `BackslashName` exhibit the difference.
- Concurrency and streaming are not modelled: files are read whole, and the block-wise PHP digest is proved equal to the hash of the concatenated bytes.
- NodeReport.AddMessage: the `context` object a message carries (`addMessage`'s fifth argument, index.js:13-14) is not modelled; a message is its level, code and text, so the paths, ids and indexes placed in contexts are not stated anywhere in the model.
- PhpReport.ValidationReport.AddMessage: likewise, the `context` array (ValidationReport.php:60-64) is not modelled.
- JsNumbers.StringToNumber: numbers are exact extended reals; rounding to 53-bit doubles, long literals overflowing to `Infinity` and `-0` are not modelled, so two literals that differ only beyond double precision read as different numbers.
- JsNumbers.PositiveInteger: exact, so an index such as `1.0000000000000001`, which JavaScript rounds to the integer 1, is refused here; and the `${index}` text of an integer of 1e21 or more, which JavaScript prints in exponent form, is not modelled.
- ArtifactsNode.NdjsonValidatorFor: the Node lookup tables are plain objects (index.js:716-728, read at 811-812), so a media type naming an `Object.prototype` member (`constructor`, `toString`, `__proto__`, ...) finds an inherited function there; the model treats such a media type as unknown, and what Node then does by calling that built-in as a validator is not modelled.
- ArtifactsNode.JsonValidatorFor: the same inherited lookup applies to the JSON table.
- Env.ReadersAgree: both sides share one text decoder and one JSON parser, so the failures only PHP's `json_decode` has are not modelled: nesting deeper than 512 (FileUtil.php:36) and bytes that are not valid UTF-8, which Node decodes to replacement characters and parses. On such a file the model gives both readers the same outcome, where PHP alone fails.
- ArtifactsNode.Dispatch: for those inherited media types the model gives `UNKNOWN_MEDIA_TYPE`, which Node does not.
