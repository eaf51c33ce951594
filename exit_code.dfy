/**
 * Model of `computeExitCode` in cli.js, and of the exit mapping of the PHP
 * commands, which first turns a usage error into 2.
 */
module ExitCode {
  /** `computeExitCode(report, strict)` over the summary's error and warning counters. */
  function ComputeExitCode(errors: int, warnings: int, strict: bool): (code: int)
    // failure exactly when there are errors, or warnings under strict
    ensures code == 1 <==> errors > 0 || (strict && warnings > 0)
    ensures code == 0 || code == 1
  {
    if errors > 0 then 1
    else if strict && warnings > 0 then 1
    else 0
  }

  /** The PHP commands: a usage error wins, then the same rule as `computeExitCode`. */
  function CommandExitCode(usageError: bool, errors: int, warnings: int, strict: bool): (code: int)
    ensures usageError <==> code == 2
    ensures !usageError ==> code == ComputeExitCode(errors, warnings, strict)
  {
    if usageError then 2
    else if errors > 0 then 1
    else if strict && warnings > 0 then 1
    else 0
  }

  /** Strict mode can only turn success into failure, never the other way round. */
  lemma StrictIsStricter(errors: int, warnings: int)
    ensures ComputeExitCode(errors, warnings, false) <= ComputeExitCode(errors, warnings, true)
    ensures ComputeExitCode(errors, warnings, true) != ComputeExitCode(errors, warnings, false) <==> errors <= 0 && warnings > 0
  {
  }

  /** A clean report (no errors, no warnings) exits with 0 whatever the mode. */
  lemma CleanReportSucceeds(strict: bool)
    ensures ComputeExitCode(0, 0, strict) == 0
  {
  }
}
