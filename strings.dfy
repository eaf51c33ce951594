/**
 * String helpers shared by the Node and PHP models: prefix tests, splitting on
 * separators (both the "every separator" form of `explode` and the "runs of
 * separators" form of a `/[\\/]+/` regular-expression split), joining,
 * trimming with the two languages' whitespace sets, and decimal rendering.
 */
module Strings {

  predicate StartsWith(s: string, p: string)
  {
    |p| <= |s| && s[..|p|] == p
  }

  predicate EndsWith(s: string, p: string)
  {
    |p| <= |s| && s[|s| - |p|..] == p
  }

  /** `/` or `\`: the separators the path guards split on. */
  predicate IsSep(c: char)
  {
    c == '/' || c == '\\'
  }

  predicate IsSlash(c: char)
  {
    c == '/'
  }

  /**
   * The pieces of `s` between single separators, `explode` style:
   * "a//b" gives ["a", "", "b"] and "" gives [""].
   */
  function Pieces(s: string, sep: char -> bool): (r: seq<string>)
    ensures |r| >= 1
    decreases |s|
  {
    if s == [] then [""]
    else
      var rest := Pieces(s[1..], sep);
      if sep(s[0]) then [""] + rest else [[s[0]] + rest[0]] + rest[1..]
  }

  /** No piece contains a separator. */
  lemma {:induction false} PiecesHaveNoSep(s: string, sep: char -> bool)
    ensures forall i, k :: 0 <= i < |Pieces(s, sep)| && 0 <= k < |Pieces(s, sep)[i]| ==> !sep(Pieces(s, sep)[i][k])
    decreases |s|
  {
    if s != [] {
      PiecesHaveNoSep(s[1..], sep);
    }
  }

  /** Splitting at a separator splits the pieces: the one fact path reasoning needs. */
  lemma {:induction false} PiecesAppend(x: string, c: char, y: string, sep: char -> bool)
    requires sep(c)
    ensures Pieces(x + [c] + y, sep) == Pieces(x, sep) + Pieces(y, sep)
    decreases |x|
  {
    if x == [] {
      assert x + [c] + y == [c] + y;
      assert ([c] + y)[1..] == y;
    } else {
      PiecesAppend(x[1..], c, y, sep);
      PiecesAppendStep(x, c, y, sep);
    }
  }

  /** The step of `PiecesAppend`: one more leading character. */
  lemma PiecesAppendStep(x: string, c: char, y: string, sep: char -> bool)
    requires x != []
    requires Pieces(x[1..] + [c] + y, sep) == Pieces(x[1..], sep) + Pieces(y, sep)
    ensures Pieces(x + [c] + y, sep) == Pieces(x, sep) + Pieces(y, sep)
  {
    var s := x + [c] + y;
    assert s[0] == x[0] && s[1..] == x[1..] + [c] + y;
    var p, q := Pieces(x[1..], sep), Pieces(y, sep);
    assert Pieces(s, sep) == Cons(x[0], sep(x[0]), p + q);
    assert Pieces(x, sep) == Cons(x[0], sep(x[0]), p);
    ConsAppend(x[0], sep(x[0]), p, q);
  }

  /** How `Pieces` grows by one leading character, given the pieces of the rest. */
  function Cons(a: char, isSep: bool, rest: seq<string>): seq<string>
    requires |rest| >= 1
  {
    if isSep then [""] + rest else [[a] + rest[0]] + rest[1..]
  }

  lemma ConsAppend(a: char, isSep: bool, p: seq<string>, q: seq<string>)
    requires |p| >= 1
    ensures Cons(a, isSep, p + q) == Cons(a, isSep, p) + q
  {
    if !isSep {
      assert (p + q)[0] == p[0] && (p + q)[1..] == p[1..] + q;
    }
  }

  lemma Associative<T>(a: seq<T>, b: seq<T>, c: seq<T>)
    ensures (a + b) + c == a + (b + c)
  {
  }

  function NonEmpty(xs: seq<string>): (r: seq<string>)
    ensures forall i :: 0 <= i < |r| ==> r[i] != ""
    ensures forall s :: s in r <==> s in xs && s != ""
  {
    if xs == [] then []
    else if xs[0] == "" then NonEmpty(xs[1..])
    else [xs[0]] + NonEmpty(xs[1..])
  }

  lemma {:induction false} NonEmptyAppend(a: seq<string>, b: seq<string>)
    ensures NonEmpty(a + b) == NonEmpty(a) + NonEmpty(b)
  {
    if a == [] {
      assert a + b == b;
    } else {
      assert (a + b)[0] == a[0] && (a + b)[1..] == a[1..] + b;
      NonEmptyAppend(a[1..], b);
    }
  }

  /**
   * A split on runs of separators (`s.split(/[\\/]+/)` in JavaScript,
   * `preg_split('/[\\/]+/', s)` in PHP): interior empty pieces vanish,
   * a leading or trailing run still yields one empty piece.
   */
  function RunSplit(s: string, sep: char -> bool): (r: seq<string>)
    ensures |r| >= 1
  {
    var p := Pieces(s, sep);
    if |p| <= 1 then p else [p[0]] + NonEmpty(p[1..|p| - 1]) + [p[|p| - 1]]
  }

  /** A run split and a piece split contain the same non-empty segments. */
  lemma RunSplitMembers(s: string, sep: char -> bool, seg: string)
    requires seg != ""
    ensures seg in RunSplit(s, sep) <==> seg in Pieces(s, sep)
  {
    var p := Pieces(s, sep);
    if |p| > 1 {
      assert p == [p[0]] + p[1..|p| - 1] + [p[|p| - 1]];
    }
  }

  function Join(xs: seq<string>, sep: string): string
  {
    if xs == [] then ""
    else if |xs| == 1 then xs[0]
    else xs[0] + sep + Join(xs[1..], sep)
  }

  lemma {:induction false} JoinSnoc(xs: seq<string>, x: string, sep: string)
    requires xs != []
    ensures Join(xs + [x], sep) == Join(xs, sep) + sep + x
  {
    if |xs| == 1 {
      assert xs + [x] == [xs[0], x];
    } else {
      assert (xs + [x])[1..] == xs[1..] + [x];
      JoinSnoc(xs[1..], x, sep);
    }
  }

  lemma {:induction false} JoinAppend(a: seq<string>, b: seq<string>, sep: string)
    requires a != [] && b != []
    ensures Join(a + b, sep) == Join(a, sep) + sep + Join(b, sep)
    decreases |a|
  {
    if |a| == 1 {
      assert (a + b)[1..] == b;
    } else {
      assert (a + b)[1..] == a[1..] + b;
      JoinAppend(a[1..], b, sep);
    }
  }

  /** Splitting a join on a separator set that holds the joining `/` gives back the parts. */
  lemma {:induction false} PiecesJoin(xs: seq<string>, sep: char -> bool)
    requires xs != [] && sep('/')
    requires forall i, k :: 0 <= i < |xs| && 0 <= k < |xs[i]| ==> !sep(xs[i][k])
    ensures Pieces(Join(xs, "/"), sep) == xs
    decreases |xs|
  {
    PiecesOfName(xs[0], sep);
    if |xs| > 1 {
      PiecesJoin(xs[1..], sep);
      assert Join(xs, "/") == xs[0] + ['/'] + Join(xs[1..], "/");
      PiecesAppend(xs[0], '/', Join(xs[1..], "/"), sep);
      assert xs == [xs[0]] + xs[1..];
    }
  }

  /** Pieces of a name without separators: the name alone. */
  lemma {:induction false} PiecesOfName(n: string, sep: char -> bool)
    requires forall c :: 0 <= c < |n| ==> !sep(n[c])
    ensures Pieces(n, sep) == [n]
    decreases |n|
  {
    if n != [] {
      PiecesOfName(n[1..], sep);
      assert n == [n[0]] + n[1..];
    }
  }

  /** Splitting `x/seg/y` on a set of separators containing `/`. */
  lemma PiecesAround(x: string, seg: string, y: string, sep: char -> bool)
    requires sep('/')
    requires forall c :: 0 <= c < |seg| ==> !sep(seg[c])
    ensures Pieces(x + "/" + seg + "/" + y, sep) == Pieces(x, sep) + [seg] + Pieces(y, sep)
    ensures Pieces(x + "/" + y, sep) == Pieces(x, sep) + Pieces(y, sep)
  {
    assert x + "/" + seg + "/" + y == x + ['/'] + (seg + ['/'] + y);
    assert x + "/" + y == x + ['/'] + y;
    PiecesOfName(seg, sep);
    PiecesAppend(x, '/', seg + ['/'] + y, sep);
    PiecesAppend(seg, '/', y, sep);
    PiecesAppend(x, '/', y, sep);
  }

  /** Trimming leaves a string alone when its first character is not trimmable. */
  lemma TrimLeftNoop(s: string, p: char -> bool)
    requires s == [] || !p(s[0])
    ensures TrimLeft(s, p) == s
  {
  }

  /** Trimming leaves a string alone when its last character is not trimmable. */
  lemma TrimRightNoop(s: string, p: char -> bool)
    requires s == [] || !p(s[|s| - 1])
    ensures TrimRight(s, p) == s
  {
  }

  /** Drops leading characters satisfying `p` (PHP `ltrim($s, chars)`). */
  function TrimLeft(s: string, p: char -> bool): (r: string)
    ensures r == [] || !p(r[0])
    ensures |r| <= |s| && r == s[|s| - |r|..]
    decreases |s|
  {
    if s != [] && p(s[0]) then TrimLeft(s[1..], p) else s
  }

  /** Drops trailing characters satisfying `p` (PHP `rtrim($s, chars)`). */
  function TrimRight(s: string, p: char -> bool): (r: string)
    ensures r == [] || !p(r[|r| - 1])
    ensures |r| <= |s| && r == s[..|r|]
    decreases |s|
  {
    if s != [] && p(s[|s| - 1]) then TrimRight(s[..|s| - 1], p) else s
  }

  /** The characters PHP's `trim` removes by default: " \t\n\r\0\x0B". */
  predicate PhpSpace(c: char)
  {
    c == ' ' || c == '\t' || c == '\n' || c == '\r' || c == '\0' || c == '\U{B}'
  }

  function PhpTrim(s: string): string
  {
    TrimRight(TrimLeft(s, PhpSpace), PhpSpace)
  }

  /** White space and line terminators, as JavaScript's `String.prototype.trim` removes them. */
  predicate JsSpace(c: char)
  {
    c == '\t' || c == '\n' || c == '\U{B}' || c == '\U{C}' || c == '\r' || c == ' '
    || c == '\U{A0}' || c == '\U{1680}' || ('\U{2000}' <= c <= '\U{200A}')
    || c == '\U{2028}' || c == '\U{2029}' || c == '\U{202F}' || c == '\U{205F}'
    || c == '\U{3000}' || c == '\U{FEFF}'
  }

  /** `s.trim() === ''` in JavaScript. */
  predicate JsBlank(s: string)
  {
    forall k :: 0 <= k < |s| ==> JsSpace(s[k])
  }

  /** `trim($s) === ''` in PHP. */
  predicate PhpBlank(s: string)
  {
    forall k :: 0 <= k < |s| ==> PhpSpace(s[k])
  }

  lemma {:induction false} PhpTrimEmpty(s: string)
    ensures PhpTrim(s) == "" <==> PhpBlank(s)
    decreases |s|
  {
    if s != [] {
      if PhpSpace(s[0]) {
        PhpTrimEmpty(s[1..]);
        assert TrimLeft(s, PhpSpace) == TrimLeft(s[1..], PhpSpace);
        PhpBlankCons(s);
      } else {
        assert TrimLeft(s, PhpSpace) == s;
        TrimRightKeeps(s, PhpSpace);
      }
    }
  }

  /** A string led by a PHP space is blank exactly when the rest is. */
  lemma PhpBlankCons(s: string)
    requires s != [] && PhpSpace(s[0])
    ensures PhpBlank(s) <==> PhpBlank(s[1..])
  {
    if PhpBlank(s[1..]) {
      forall k | 0 <= k < |s| ensures PhpSpace(s[k]) {
        if k > 0 { assert s[k] == s[1..][k - 1]; }
      }
    } else {
      var k :| 0 <= k < |s[1..]| && !PhpSpace(s[1..][k]);
      assert s[k + 1] == s[1..][k];
    }
  }

  /** Trimming on the right never removes a first character that is not trimmable. */
  lemma {:induction false} TrimRightKeeps(s: string, p: char -> bool)
    requires s != [] && !p(s[0])
    ensures TrimRight(s, p) != []
    decreases |s|
  {
    if p(s[|s| - 1]) {
      assert |s| > 1;
      TrimRightKeeps(s[..|s| - 1], p);
    }
  }

  /** ASCII lower-casing, as PHP's `strtolower` does it. */
  function AsciiLower(s: string): (r: string)
    ensures |r| == |s|
  {
    if s == [] then []
    else [if 'A' <= s[0] <= 'Z' then (s[0] as int + 32) as char else s[0]] + AsciiLower(s[1..])
  }

  function DigitChar(d: nat): char
    requires d < 10
  {
    "0123456789"[d]
  }

  /** Decimal rendering without sign or leading zeros, as in `${n}` and PHP string interpolation. */
  function NatToString(n: nat): (r: string)
    ensures |r| >= 1
    decreases n
  {
    if n < 10 then [DigitChar(n)] else NatToString(n / 10) + [DigitChar(n % 10)]
  }

  function IntToString(i: int): string
  {
    if i < 0 then "-" + NatToString(-i) else NatToString(i)
  }

  /** Digits only (the strings JavaScript's `Number()` turns into a non-negative integer here). */
  predicate AllDigits(s: string)
  {
    s != [] && forall k :: 0 <= k < |s| ==> '0' <= s[k] <= '9'
  }

  function DigitsValue(s: string): nat
    requires forall k :: 0 <= k < |s| ==> '0' <= s[k] <= '9'
    decreases |s|
  {
    if s == [] then 0 else DigitsValue(s[..|s| - 1]) * 10 + (s[|s| - 1] as int - '0' as int)
  }

  /** A text built as `prefix + x + suffix` names exactly one `x`. */
  lemma Framed(prefix: string, x: string, y: string, suffix: string)
    requires prefix + x + suffix == prefix + y + suffix
    ensures x == y
  {
    assert |x| == |y|;
    assert x == (prefix + x + suffix)[|prefix|..|prefix| + |x|];
    assert y == (prefix + y + suffix)[|prefix|..|prefix| + |y|];
  }
}
