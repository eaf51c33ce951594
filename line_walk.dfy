/**
 * The walk both NDJSON validators make over a file's lines: lines are
 * numbered from 1 and visited in file order, each contributing its details
 * after those of the lines before it, and some of them being counted.
 */
module LineWalk {
  import opened Common

  /** The details of the whole walk: each line's, in file order, numbered from 1. */
  function Walk(lines: seq<string>, perLine: (string, nat) -> seq<Detail>): seq<Detail>
  {
    if lines == [] then []
    else Walk(lines[..|lines| - 1], perLine) + perLine(lines[|lines| - 1], |lines|)
  }

  /** The number of lines the walk counts. */
  function Counted(lines: seq<string>, counts: string -> bool): (n: nat)
    ensures n <= |lines|
  {
    if lines == [] then 0
    else Counted(lines[..|lines| - 1], counts) + (if counts(lines[|lines| - 1]) then 1 else 0)
  }

  /** One more line of the walk: its details come after those of the lines before it. */
  lemma WalkSnoc(lines: seq<string>, perLine: (string, nat) -> seq<Detail>, i: nat)
    requires i < |lines|
    ensures Walk(lines[..i + 1], perLine) == Walk(lines[..i], perLine) + perLine(lines[i], i + 1)
  {
    assert lines[..i + 1][..i] == lines[..i];
  }

  /** One more line of the count. */
  lemma CountedSnoc(lines: seq<string>, counts: string -> bool, i: nat)
    requires i < |lines|
    ensures Counted(lines[..i + 1], counts) == Counted(lines[..i], counts) + (if counts(lines[i]) then 1 else 0)
  {
    assert lines[..i + 1][..i] == lines[..i];
  }

  /** Every detail of line `n` carries `n`. */
  ghost predicate Stamped(perLine: (string, nat) -> seq<Detail>)
  {
    forall l: string, n: nat :: forall d :: d in perLine(l, n) ==> d.line == Some(n)
  }

  lemma StampedAt(perLine: (string, nat) -> seq<Detail>, l: string, n: nat, d: Detail)
    requires Stamped(perLine) && d in perLine(l, n)
    ensures d.line == Some(n)
  {
  }

  /** The details a list holds for line `k`, in order. */
  function OnLine(ds: seq<Detail>, k: int): (r: seq<Detail>)
    ensures |r| <= |ds|
  {
    if ds == [] then []
    else OnLine(ds[..|ds| - 1], k) + (if ds[|ds| - 1].line == Some(k) then [ds[|ds| - 1]] else [])
  }

  lemma {:induction false} OnLineAppend(a: seq<Detail>, b: seq<Detail>, k: int)
    ensures OnLine(a + b, k) == OnLine(a, k) + OnLine(b, k)
    decreases |b|
  {
    if b == [] {
      assert a + b == a;
    } else {
      assert (a + b)[..|a + b| - 1] == a + b[..|b| - 1];
      OnLineAppend(a, b[..|b| - 1], k);
    }
  }

  /** A list whose entries all carry line `n` projects to itself on `n` and to nothing elsewhere. */
  lemma {:induction false} OnLineUniform(ds: seq<Detail>, n: int, k: int)
    requires forall i :: 0 <= i < |ds| ==> ds[i].line == Some(n)
    ensures OnLine(ds, k) == if k == n then ds else []
  {
    if ds != [] {
      var init, last := ds[..|ds| - 1], ds[|ds| - 1];
      assert forall i :: 0 <= i < |init| ==> init[i] == ds[i];
      OnLineUniform(init, n, k);
      if k == n {
        assert init + [last] == ds;
      }
    }
  }

  /** Every entry carries a line number between 1 and `m`. */
  predicate Numbered(ds: seq<Detail>, m: int)
  {
    forall i :: 0 <= i < |ds| ==> ds[i].line.Some? && 1 <= ds[i].line.value <= m
  }

  /** Line numbers never decrease along the list. */
  predicate Ascending(ds: seq<Detail>)
  {
    forall i, j :: 0 <= i <= j < |ds| && ds[i].line.Some? && ds[j].line.Some? ==> ds[i].line.value <= ds[j].line.value
  }

  /**
   * When every line stamps its details with its own number, the details are
   * numbered 1..|lines| and never go back to an earlier line.
   */
  lemma {:induction false} WalkNumbered(lines: seq<string>, perLine: (string, nat) -> seq<Detail>)
    requires Stamped(perLine)
    ensures Numbered(Walk(lines, perLine), |lines|)
    ensures Ascending(Walk(lines, perLine))
  {
    if lines != [] {
      var init := lines[..|lines| - 1];
      var n := |lines|;
      WalkNumbered(init, perLine);
      var prev, cur := Walk(init, perLine), perLine(lines[n - 1], n);
      var ds := prev + cur;
      assert Walk(lines, perLine) == ds;
      forall i | 0 <= i < |ds| ensures ds[i].line.Some? && 1 <= ds[i].line.value <= n
        && (i >= |prev| ==> ds[i].line.value == n)
        && (i < |prev| ==> ds[i].line.value < n)
      {
        if i < |prev| {
          assert ds[i] == prev[i];
        } else {
          assert ds[i] == cur[i - |prev|] && cur[i - |prev|] in cur;
          StampedAt(perLine, lines[n - 1], n, cur[i - |prev|]);
        }
      }
      forall i, j | 0 <= i <= j < |ds| ensures ds[i].line.value <= ds[j].line.value {
        if j < |prev| {
          assert ds[i] == prev[i] && ds[j] == prev[j];
        }
      }
    }
  }

  /** No detail of the walk carries a line after the last. */
  lemma {:induction false} WalkBelow(lines: seq<string>, perLine: (string, nat) -> seq<Detail>, k: int)
    requires Stamped(perLine)
    requires k > |lines|
    ensures forall d :: d in Walk(lines, perLine) ==> d.line != Some(k)
  {
    if lines != [] {
      var n := |lines|;
      var init := lines[..n - 1];
      WalkBelow(init, perLine, k);
      assert Walk(lines, perLine) == Walk(init, perLine) + perLine(lines[n - 1], n);
      forall d | d in perLine(lines[n - 1], n) ensures d.line != Some(k) {
        StampedAt(perLine, lines[n - 1], n, d);
      }
    }
  }

  /** Those details of line `k` are exactly what line `k` contributed. */
  lemma {:induction false} WalkProjects(lines: seq<string>, perLine: (string, nat) -> seq<Detail>, k: nat)
    requires Stamped(perLine)
    requires 1 <= k <= |lines|
    ensures OnLine(Walk(lines, perLine), k) == perLine(lines[k - 1], k)
  {
    var n := |lines|;
    var init := lines[..n - 1];
    var prev, cur := Walk(init, perLine), perLine(lines[n - 1], n);
    assert Walk(lines, perLine) == prev + cur;
    OnLineAppend(prev, cur, k);
    forall i | 0 <= i < |cur| ensures cur[i].line == Some(n) {
      StampedAt(perLine, lines[n - 1], n, cur[i]);
    }
    OnLineUniform(cur, n, k);
    if k < n {
      assert init[k - 1] == lines[k - 1];
      WalkProjects(init, perLine, k);
    } else {
      WalkBelow(init, perLine, k);
      forall i | 0 <= i < |prev| ensures prev[i].line != Some(k) {
        assert prev[i] in prev;
      }
      OnLineNone(prev, k);
    }
  }

  lemma {:induction false} OnLineNone(ds: seq<Detail>, k: int)
    requires forall i :: 0 <= i < |ds| ==> ds[i].line != Some(k)
    ensures OnLine(ds, k) == []
  {
    if ds != [] {
      var init := ds[..|ds| - 1];
      assert forall i :: 0 <= i < |init| ==> init[i] == ds[i];
      OnLineNone(init, k);
    }
  }

  /** The lines a predicate holds of, by position. */
  function Where(lines: seq<string>, counts: string -> bool): set<nat>
  {
    set i: nat | i < |lines| && counts(lines[i])
  }

  /** The count is the number of lines the predicate holds of. */
  lemma {:induction false} CountedLines(lines: seq<string>, counts: string -> bool)
    ensures Counted(lines, counts) == |Where(lines, counts)|
  {
    if lines != [] {
      var init := lines[..|lines| - 1];
      CountedLines(init, counts);
      var last := |lines| - 1;
      if counts(lines[last]) {
        assert Where(lines, counts) == Where(init, counts) + {last};
      } else {
        assert Where(lines, counts) == Where(init, counts);
      }
    }
  }
}
