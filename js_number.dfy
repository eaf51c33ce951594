/**
 * JavaScript numbers, as far as the Node tools use them: `Number(text)`
 * (the StringNumericLiteral grammar of section 7.1.4.1.1 of ECMA-262),
 * `Number.isInteger(n) && n >= 1`, `Number(v) || 0`, and `(a, b) => a - b`
 * read as a sort comparator. A finite double is modelled by its exact
 * value: rounding to 53 bits, the overflow of a long literal to `Infinity`,
 * and the sign of zero are not modelled.
 */
module JsNumbers {
  import opened Common
  import opened Strings
  import opened Sorting

  datatype Number = NaN | NegInf | PosInf | Finite(r: real)

  /** A number `Number(v) || 0` can give: never `NaN`. */
  type Ordinal = n: Number | !n.NaN? witness Finite(0.0)

  function Pow10(e: nat): (p: nat)
    ensures p >= 1
  {
    if e == 0 then 1 else 10 * Pow10(e - 1)
  }

  /** `x` times ten to the power `e`. */
  function Scale(x: real, e: int): real
  {
    if e >= 0 then x * Pow10(e) as real else x / Pow10(-e) as real
  }

  /** Decimal digits, possibly none. */
  predicate Digits(s: string)
  {
    forall k :: 0 <= k < |s| ==> '0' <= s[k] <= '9'
  }

  /** The position of the first character satisfying `p`, or `|s|` when there is none. */
  function Find(s: string, p: char -> bool): (i: nat)
    ensures i <= |s| && (i < |s| ==> p(s[i]))
    ensures forall k :: 0 <= k < i ==> !p(s[k])
    decreases |s|
  {
    if s == [] then 0 else if p(s[0]) then 0 else 1 + Find(s[1..], p)
  }

  predicate IsDot(c: char) { c == '.' }

  predicate IsExponentMark(c: char) { c == 'e' || c == 'E' }

  /** The value of a hexadecimal digit, in either case. */
  function HexDigit(c: char): Option<nat>
  {
    if '0' <= c <= '9' then Some(c as int - '0' as int)
    else if 'a' <= c <= 'f' then Some(c as int - 'a' as int + 10)
    else if 'A' <= c <= 'F' then Some(c as int - 'A' as int + 10)
    else None
  }

  /** Every character is a digit of base `radix`. */
  predicate RadixDigits(s: string, radix: nat)
  {
    forall k :: 0 <= k < |s| ==> HexDigit(s[k]).Some? && HexDigit(s[k]).value < radix
  }

  function RadixValue(s: string, radix: nat): nat
    requires RadixDigits(s, radix)
    decreases |s|
  {
    if s == [] then 0 else RadixValue(s[..|s| - 1], radix) * radix + HexDigit(s[|s| - 1]).value
  }

  /** `0x…`, `0o…` or `0b…` (NonDecimalIntegerLiteral, no sign allowed). */
  function NonDecimal(t: string): Option<Number>
  {
    if |t| < 3 || t[0] != '0' then None
    else
      var radix := if t[1] in "xX" then 16 else if t[1] in "oO" then 8 else if t[1] in "bB" then 2 else 0;
      if radix != 0 && RadixDigits(t[2..], radix) then Some(Finite(RadixValue(t[2..], radix) as real)) else None
  }

  /** `[+-]digits` after the exponent mark (SignedInteger). */
  function SignedExponent(x: string): Option<int>
  {
    if x != [] && (x[0] == '+' || x[0] == '-') then
      if AllDigits(x[1..]) then Some(if x[0] == '-' then 0 - DigitsValue(x[1..]) else DigitsValue(x[1..]) as int) else None
    else if AllDigits(x) then Some(DigitsValue(x))
    else None
  }

  /** `digits`, `digits.`, `digits.digits` or `.digits`. */
  function Mantissa(m: string): Option<real>
  {
    var d := Find(m, IsDot);
    var whole := m[..d];
    if d == |m| then
      if AllDigits(whole) then Some(DigitsValue(whole) as real) else None
    else
      var fraction := m[d + 1..];
      if Digits(whole) && Digits(fraction) && (whole != [] || fraction != []) then Some(Decimal(whole, fraction))
      else None
  }

  /** The value `whole.fraction` spells. */
  function Decimal(whole: string, fraction: string): real
    requires Digits(whole) && Digits(fraction)
  {
    DigitsValue(whole) as real + DigitsValue(fraction) as real / Pow10(|fraction|) as real
  }

  /** StrUnsignedDecimalLiteral: `Infinity`, or a mantissa with an optional exponent. */
  function UnsignedDecimal(u: string): Option<Number>
  {
    if u == "Infinity" then Some(PosInf)
    else
      var e := Find(u, IsExponentMark);
      match Mantissa(u[..e])
      case None => None
      case Some(x) =>
        if e == |u| then Some(Finite(x))
        else
          match SignedExponent(u[e + 1..])
          case None => None
          case Some(k) => Some(Finite(Scale(x, k)))
  }

  function Negate(n: Number): Number
  {
    match n
    case NaN => NaN
    case PosInf => NegInf
    case NegInf => PosInf
    case Finite(x) => Finite(-x)
  }

  /** An optionally signed decimal literal (StrDecimalLiteral), `NaN` when the text is none. */
  function SignedDecimal(t: string): Number
  {
    if t != [] && t[0] == '+' then UnsignedOrNaN(t[1..])
    else if t != [] && t[0] == '-' then Negate(UnsignedOrNaN(t[1..]))
    else UnsignedOrNaN(t)
  }

  function UnsignedOrNaN(u: string): Number
  {
    match UnsignedDecimal(u)
    case Some(n) => n
    case None => NaN
  }

  /**
   * `Number(text)`: white space around the literal is ignored, a blank
   * text is 0, and anything outside the grammar is `NaN`.
   */
  function StringToNumber(s: string): Number
  {
    Literal(TrimRight(TrimLeft(s, JsSpace), JsSpace))
  }

  /** The trimmed text: empty is 0, then the radix forms, then the decimal ones. */
  function Literal(t: string): Number
  {
    if t == [] then Finite(0.0)
    else
      match NonDecimal(t)
      case Some(n) => n
      case None => SignedDecimal(t)
  }

  /** `Number.isInteger(n) && n >= 1`, with the integer it then is. */
  function PositiveInteger(n: Number): (r: Option<int>)
    ensures r.Some? <==> n.Finite? && n.r.Floor as real == n.r && n.r >= 1.0
    ensures r.Some? ==> r.value >= 1 && n == Finite(r.value as real)
  {
    if n.Finite? && n.r.Floor as real == n.r && n.r >= 1.0 then Some(n.r.Floor) else None
  }

  /** `n || 0`: `NaN` and zero both give zero, every other number is kept. */
  function OrZero(n: Number): (r: Ordinal)
    ensures !n.NaN? ==> r == n
  {
    if n.NaN? then Finite(0.0) else n
  }

  /** `a - b` in IEEE arithmetic: `NaN` is contagious, and opposite infinities cancel to `NaN`. */
  function Minus(a: Number, b: Number): Number
  {
    match (a, b)
    case (Finite(x), Finite(y)) => Finite(x - y)
    case (NaN, _) => NaN
    case (_, NaN) => NaN
    case (PosInf, PosInf) => NaN
    case (NegInf, NegInf) => NaN
    case (PosInf, _) => PosInf
    case (NegInf, _) => NegInf
    case (Finite(_), PosInf) => NegInf
    case (Finite(_), NegInf) => PosInf
  }

  predicate Positive(n: Number)
  {
    n.PosInf? || (n.Finite? && n.r > 0.0)
  }

  /**
   * How `Array.prototype.sort` reads the comparator `(a, b) => a - b`: `a`
   * may stay before `b` unless the difference is positive (`NaN` reads as 0).
   */
  predicate MayPrecede(a: Number, b: Number)
  {
    !Positive(Minus(a, b))
  }

  /** The order of the extended real line. */
  predicate AtMost(a: Ordinal, b: Ordinal)
  {
    a.NegInf? || b.PosInf? || (a.Finite? && b.Finite? && a.r <= b.r)
  }

  /** On numbers that are not `NaN`, the comparator `a - b` orders exactly as the extended real line does. */
  lemma MayPrecedeIsAtMost(a: Ordinal, b: Ordinal)
    ensures MayPrecede(a, b) <==> AtMost(a, b)
  {
  }

  /** The order `(x, y) => key(x) - key(y)` sorts by. */
  function ByDifference<T>(key: T -> Ordinal): (T, T) -> bool
  {
    (x: T, y: T) => MayPrecede(key(x), key(y))
  }

  /** Ordering by the difference of keys that are never `NaN` is a total preorder. */
  lemma DifferenceOrderIsTotal<T(!new)>(key: T -> Ordinal)
    ensures TotalPreorder(ByDifference(key))
  {
    forall x: T, y: T ensures ByDifference(key)(x, y) == AtMost(key(x), key(y)) {
      MayPrecedeIsAtMost(key(x), key(y));
    }
  }

  /**
   * Sorting by `key(x) - key(y)`: the keys never decrease along the result,
   * the result is a permutation of the input, and entries with tied keys
   * keep their input order.
   */
  lemma SortByDifferenceOrders<T(!new)>(xs: seq<T>, key: T -> Ordinal, e: T)
    ensures var o := SortBy(xs, ByDifference(key));
      && (forall i, j :: 0 <= i <= j < |o| ==> AtMost(key(o[i]), key(o[j])))
      && multiset(o) == multiset(xs)
      && Peers(o, ByDifference(key), e) == Peers(xs, ByDifference(key), e)
  {
    var le := ByDifference(key);
    DifferenceOrderIsTotal(key);
    SortBySorted(xs, le);
    var o := SortBy(xs, le);
    SortedAllPairs(o, le);
    forall i, j | 0 <= i <= j < |o| ensures AtMost(key(o[i]), key(o[j])) {
      MayPrecedeIsAtMost(key(o[i]), key(o[j]));
    }
    SortByPermutes(xs, le);
    SortByStable(xs, le, e);
  }

  // ---------------------------------------------------------------- the grammar, by its forms

  /** A run of decimal digits reads as its value. */
  lemma DigitsRead(t: string)
    requires AllDigits(t)
    ensures StringToNumber(t) == Finite(DigitsValue(t) as real)
  {
    DigitsReadUnsigned(t);
    if |t| >= 2 {
      assert '0' <= t[1] <= '9';
    }
    UnsignedRead(t);
  }

  /** A leading `+` changes nothing and a leading `-` negates, for any unsigned literal. */
  lemma SignRead(u: string)
    requires UnsignedDecimal(u).Some?
    ensures StringToNumber("+" + u) == UnsignedDecimal(u).value
    ensures StringToNumber("-" + u) == Negate(UnsignedDecimal(u).value)
  {
    var plus, minus := "+" + u, "-" + u;
    UnsignedEnds(u);
    TrimmedAlready(plus);
    TrimmedAlready(minus);
    assert plus[1..] == u && minus[1..] == u;
    assert NonDecimal(plus).None? && NonDecimal(minus).None?;
  }

  /** `Number(String(i)) === i` for every integer. */
  lemma IntRoundTrip(i: int)
    ensures StringToNumber(IntToString(i)) == Finite(i as real)
  {
    if i < 0 {
      var t := NatToString(-i);
      NatToStringDigits(-i);
      assert IntToString(i) == "-" + t;
      DigitsReadUnsigned(t);
      SignRead(t);
      assert Negate(Finite((-i) as real)) == Finite(i as real);
    } else {
      NatToStringDigits(i);
      assert IntToString(i) == NatToString(i);
      DigitsRead(NatToString(i));
    }
  }

  /** Digits with a decimal exponent read as their value scaled by it. */
  lemma ExponentRead(t: string, k: nat)
    requires AllDigits(t)
    ensures StringToNumber(t + "e" + NatToString(k)) == Finite(Scale(DigitsValue(t) as real, k))
  {
    var x := NatToString(k);
    NatToStringDigits(k);
    var s := t + "e" + x;
    ExponentLiteral(t, x);
    assert s[0] == t[0] && s[1] == if |t| == 1 then 'e' else t[1];
    UnsignedRead(s);
  }

  /** An unsigned literal that starts with a digit other than a radix prefix reads as its value. */
  lemma UnsignedRead(s: string)
    requires UnsignedDecimal(s).Some?
    requires s != [] && '0' <= s[0] <= '9'
    requires |s| >= 2 ==> s[1] !in "xXoObB"
    ensures StringToNumber(s) == UnsignedDecimal(s).value
  {
    UnsignedEnds(s);
    TrimmedAlready(s);
    assert NonDecimal(s).None?;
    assert SignedDecimal(s) == UnsignedOrNaN(s) by { assert s[0] != '+' && s[0] != '-'; }
  }

  /** `digits e digits` is an unsigned literal worth the first run scaled by the second. */
  lemma ExponentLiteral(t: string, x: string)
    requires AllDigits(t) && AllDigits(x)
    ensures UnsignedDecimal(t + "e" + x) == Some(Finite(Scale(DigitsValue(t) as real, DigitsValue(x))))
  {
    var s := t + "e" + x;
    assert s[0] == t[0];
    assert Find(s, IsExponentMark) == |t| by {
      FindNone(t, IsExponentMark);
      assert s == t + ("e" + x);
      FindAfter(t, "e" + x, IsExponentMark);
    }
    assert s[..|t|] == t && s[|t| + 1..] == x;
    assert s != "Infinity" by { assert s[0] != 'I'; }
    DigitsMantissa(t);
    assert SignedExponent(x) == Some(DigitsValue(x) as int) by { assert x[0] != '+' && x[0] != '-'; }
  }

  /** A run of digits is a mantissa worth its value. */
  lemma DigitsMantissa(t: string)
    requires AllDigits(t)
    ensures Mantissa(t) == Some(DigitsValue(t) as real)
  {
    assert Find(t, IsDot) == |t| by { FindNone(t, IsDot); }
    assert t[..|t|] == t;
  }

  /** Digits, a dot and possibly more digits read as the decimal fraction they spell. */
  lemma FractionRead(t: string, f: string)
    requires AllDigits(t) && Digits(f)
    ensures StringToNumber(t + "." + f) == Finite(Decimal(t, f))
  {
    var s := t + "." + f;
    FractionLiteral(t, f);
    assert s[0] == t[0];
    if |t| == 1 { assert s[1] == '.'; } else { assert s[1] == t[1]; }
    UnsignedRead(s);
  }

  lemma FractionLiteral(t: string, f: string)
    requires AllDigits(t) && Digits(f)
    ensures UnsignedDecimal(t + "." + f) == Some(Finite(Decimal(t, f)))
  {
    var s := t + "." + f;
    assert Mantissa(s) == Some(Decimal(t, f)) by {
      assert Find(s, IsDot) == |t| by {
        FindNone(t, IsDot);
        assert s == t + ("." + f);
        FindAfter(t, "." + f, IsDot);
      }
      assert s[..|t|] == t && s[|t| + 1..] == f;
    }
    assert Find(s, IsExponentMark) == |s| by {
      forall k | 0 <= k < |s| ensures !IsExponentMark(s[k]) {
        if k < |t| { assert s[k] == t[k]; } else if k > |t| { assert s[k] == f[k - |t| - 1]; }
      }
      FindNone(s, IsExponentMark);
    }
    assert s[..|s|] == s;
    assert s != "Infinity" by { assert s[0] == t[0]; }
  }


  /** Each of the radix prefixes reads the digits after it in its base. */
  lemma RadixRead(t: string, radix: nat)
    requires radix == 16 || radix == 8 || radix == 2
    requires t != [] && RadixDigits(t, radix)
    ensures var mark := if radix == 16 then "0x" else if radix == 8 then "0o" else "0b";
      StringToNumber(mark + t) == Finite(RadixValue(t, radix) as real)
  {
    var mark := if radix == 16 then "0x" else if radix == 8 then "0o" else "0b";
    var s := mark + t;
    assert s[2..] == t;
    assert HexDigit(s[|s| - 1]).Some? by { assert s[|s| - 1] == t[|t| - 1]; }
    TrimmedAlready(s);
  }

  // ---------------------------------------------------------------- helpers

  /** A text with no white space at either end is read as it stands. */
  lemma TrimmedAlready(s: string)
    requires s != [] && !JsSpace(s[0]) && !JsSpace(s[|s| - 1])
    ensures StringToNumber(s) == Literal(s)
  {
    assert TrimLeft(s, JsSpace) == s;
    assert TrimRight(s, JsSpace) == s;
  }

  lemma {:induction false} FindNone(s: string, p: char -> bool)
    requires forall k :: 0 <= k < |s| ==> !p(s[k])
    ensures Find(s, p) == |s|
    decreases |s|
  {
    if s != [] {
      FindNone(s[1..], p);
    }
  }

  lemma {:induction false} FindAfter(s: string, rest: string, p: char -> bool)
    requires Find(s, p) == |s|
    ensures Find(s + rest, p) == |s| + Find(rest, p)
    decreases |s|
  {
    if s == [] {
      assert s + rest == rest;
    } else {
      assert !p(s[0]) && (s + rest)[0] == s[0];
      assert (s + rest)[1..] == s[1..] + rest;
      FindAfter(s[1..], rest, p);
    }
  }

  /** An unsigned literal ends with a digit, a dot or the `y` of `Infinity`, never with white space. */
  lemma UnsignedEnds(u: string)
    requires UnsignedDecimal(u).Some?
    ensures u != [] && !JsSpace(u[|u| - 1])
  {
    if u != "Infinity" {
      var e := Find(u, IsExponentMark);
      MantissaEnds(u[..e]);
      if e < |u| {
        var x := u[e + 1..];
        ExponentEnds(x);
        assert u[|u| - 1] == x[|x| - 1];
      } else {
        assert u[..e] == u;
      }
    }
  }

  lemma ExponentEnds(x: string)
    requires SignedExponent(x).Some?
    ensures x != [] && '0' <= x[|x| - 1] <= '9'
  {
    if x[0] == '+' || x[0] == '-' {
      assert x[|x| - 1] == x[1..][|x| - 2];
    }
  }

  lemma MantissaEnds(m: string)
    requires Mantissa(m).Some?
    ensures m != [] && ('0' <= m[0] <= '9' || m[0] == '.') && ('0' <= m[|m| - 1] <= '9' || m[|m| - 1] == '.')
  {
    var d := Find(m, IsDot);
    if d < |m| {
      var whole, fraction := m[..d], m[d + 1..];
      if whole != [] { assert m[0] == whole[0]; }
      if fraction != [] { assert m[|m| - 1] == fraction[|fraction| - 1]; }
    } else {
      assert m[..d] == m;
    }
  }

  /** A run of digits is an unsigned literal worth its value. */
  lemma DigitsReadUnsigned(t: string)
    requires AllDigits(t)
    ensures UnsignedDecimal(t) == Some(Finite(DigitsValue(t) as real))
  {
    assert Find(t, IsExponentMark) == |t| by { FindNone(t, IsExponentMark); }
    assert Find(t, IsDot) == |t| by { FindNone(t, IsDot); }
    assert t[..|t|] == t;
  }

  /** The decimal rendering of a natural number is a run of digits worth that number. */
  lemma {:induction false} NatToStringDigits(n: nat)
    ensures AllDigits(NatToString(n)) && DigitsValue(NatToString(n)) == n
    decreases n
  {
    var s := NatToString(n);
    if n >= 10 {
      NatToStringDigits(n / 10);
      var init := NatToString(n / 10);
      assert s[..|s| - 1] == init;
    }
  }
}
