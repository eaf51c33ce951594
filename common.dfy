/**
 * Types shared by both implementations: optional values, message levels,
 * per-artifact details and report-level messages, and level tallies.
 */
module Common {

  datatype Option<T> = None | Some(value: T)

  /** The outcome of an operation that throws: the value, or the exception's message. */
  datatype Result<T> = Ok(value: T) | Failure(error: string)

  /**
   * A message level. The validators only ever emit "error" and "warning";
   * any other string a record hook hands back is kept as it is.
   */
  datatype Level = Error | Warning | Other(name: string)

  function LevelOf(name: string): (l: Level)
    ensures l == Error <==> name == "error"
    ensures l == Warning <==> name == "warning"
  {
    if name == "error" then Error else if name == "warning" then Warning else Other(name)
  }

  /** One entry of an artifact's `details` list; `line` is absent outside NDJSON checks. */
  datatype Detail = Detail(level: Level, code: string, message: string, line: Option<int>)

  /** One entry of a report's `messages` list. */
  datatype Message = Message(level: Level, code: string, message: string)

  function DetailCount(ds: seq<Detail>, l: Level): (n: nat)
    ensures n <= |ds|
  {
    if ds == [] then 0
    else DetailCount(ds[..|ds| - 1], l) + (if ds[|ds| - 1].level == l then 1 else 0)
  }

  function MessageCount(ms: seq<Message>, l: Level): (n: nat)
    ensures n <= |ms|
  {
    if ms == [] then 0
    else MessageCount(ms[..|ms| - 1], l) + (if ms[|ms| - 1].level == l then 1 else 0)
  }

  lemma {:induction false} DetailCountAppend(a: seq<Detail>, b: seq<Detail>, l: Level)
    ensures DetailCount(a + b, l) == DetailCount(a, l) + DetailCount(b, l)
    decreases |b|
  {
    if b == [] {
      assert a + b == a;
    } else {
      assert (a + b)[..|a + b| - 1] == a + b[..|b| - 1];
      DetailCountAppend(a, b[..|b| - 1], l);
    }
  }

  /** The detail tallies of three runs of details, one after the other. */
  lemma DetailCountThree(a: seq<Detail>, b: seq<Detail>, c: seq<Detail>, l: Level)
    ensures DetailCount(a + b + c, l) == DetailCount(a, l) + DetailCount(b, l) + DetailCount(c, l)
  {
    DetailCountAppend(a, b, l);
    DetailCountAppend(a + b, c, l);
  }

  lemma {:induction false} MessageCountAppend(a: seq<Message>, b: seq<Message>, l: Level)
    ensures MessageCount(a + b, l) == MessageCount(a, l) + MessageCount(b, l)
    decreases |b|
  {
    if b == [] {
      assert a + b == a;
    } else {
      assert (a + b)[..|a + b| - 1] == a + b[..|b| - 1];
      MessageCountAppend(a, b[..|b| - 1], l);
    }
  }

  /** A tally is zero exactly when no entry has that level. */
  lemma {:induction false} DetailCountZero(ds: seq<Detail>, l: Level)
    ensures DetailCount(ds, l) == 0 <==> forall i :: 0 <= i < |ds| ==> ds[i].level != l
  {
    if ds != [] {
      var init := ds[..|ds| - 1];
      DetailCountZero(init, l);
      assert forall i :: 0 <= i < |init| ==> init[i] == ds[i];
    }
  }

  lemma {:induction false} MessageCountZero(ms: seq<Message>, l: Level)
    ensures MessageCount(ms, l) == 0 <==> forall i :: 0 <= i < |ms| ==> ms[i].level != l
  {
    if ms != [] {
      var init := ms[..|ms| - 1];
      MessageCountZero(init, l);
      assert forall i :: 0 <= i < |init| ==> init[i] == ms[i];
    }
  }

  /** The outputs of `f` on each element of `xs`, concatenated in order (a loop that emits per element). */
  function Flatten<T, U>(f: T -> seq<U>, xs: seq<T>): seq<U>
  {
    if xs == [] then [] else Flatten(f, xs[..|xs| - 1]) + f(xs[|xs| - 1])
  }

  /** Flattening one more element appends its outputs. */
  lemma FlattenSnoc<T, U>(f: T -> seq<U>, xs: seq<T>, i: nat)
    requires i < |xs|
    ensures Flatten(f, xs[..i + 1]) == Flatten(f, xs[..i]) + f(xs[i])
  {
    assert xs[..i + 1][..i] == xs[..i];
  }

  /** An output of the loop is an output of one of its steps, and every step's outputs are kept. */
  lemma {:induction false} FlattenMember<T, U>(f: T -> seq<U>, xs: seq<T>, y: U)
    ensures y in Flatten(f, xs) <==> exists x :: x in xs && y in f(x)
    decreases |xs|
  {
    if xs != [] {
      var init, last := xs[..|xs| - 1], xs[|xs| - 1];
      assert xs == init + [last];
      FlattenMember(f, init, y);
      if exists x :: x in xs && y in f(x) {
        var x :| x in xs && y in f(x);
        if x != last {
          assert x in init;
        }
      }
    }
  }

  /** An artifact's status in a report. */
  datatype Status = StatusOk | StatusWarning | StatusError | StatusSkipped

  /** Some detail has level `l`. */
  predicate HasLevel(ds: seq<Detail>, l: Level)
  {
    exists i :: 0 <= i < |ds| && ds[i].level == l
  }

  /**
   * The status an artifact ends with: `skipped` stays; otherwise `error` if
   * any detail is an error, else `warning` if any is a warning, else `ok`.
   */
  function DeriveStatus(current: Status, ds: seq<Detail>): (s: Status)
    ensures current == StatusSkipped <==> s == StatusSkipped
  {
    if current == StatusSkipped then StatusSkipped
    else if HasLevel(ds, Error) then StatusError
    else if HasLevel(ds, Warning) then StatusWarning
    else StatusOk
  }

  /** Deriving twice changes nothing: the status depends only on the details. */
  lemma DeriveStatusIdempotent(current: Status, ds: seq<Detail>)
    ensures DeriveStatus(DeriveStatus(current, ds), ds) == DeriveStatus(current, ds)
    ensures current != StatusSkipped ==> forall other :: other != StatusSkipped ==> DeriveStatus(other, ds) == DeriveStatus(current, ds)
  {
  }

  /** The status agrees with the tallies: error exactly when an error was counted, warning when only warnings were. */
  lemma DeriveStatusByCount(current: Status, ds: seq<Detail>)
    requires current != StatusSkipped
    ensures DeriveStatus(current, ds) == StatusError <==> DetailCount(ds, Error) > 0
    ensures DeriveStatus(current, ds) == StatusWarning <==> DetailCount(ds, Error) == 0 && DetailCount(ds, Warning) > 0
    ensures DeriveStatus(current, ds) == StatusOk <==> DetailCount(ds, Error) == 0 && DetailCount(ds, Warning) == 0
  {
    DetailCountZero(ds, Error);
    DetailCountZero(ds, Warning);
  }

  /** Messages that all share one level count in full under it and not at all under any other. */
  lemma {:induction false} UniformCount(ms: seq<Message>, l: Level, other: Level)
    requires forall m :: m in ms ==> m.level == l
    requires other != l
    ensures MessageCount(ms, l) == |ms| && MessageCount(ms, other) == 0
  {
    if ms != [] {
      var init := ms[..|ms| - 1];
      assert forall m :: m in init ==> m in ms;
      UniformCount(init, l, other);
    }
  }
}
