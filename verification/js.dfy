/**
 * The slice of JavaScript value semantics the bot relies on: numbers with
 * NaN, truthiness of optional strings, template-literal text, loosely typed
 * JSON-like values, `parseInt`/`parseFloat` on decimal input and ASCII
 * lower-casing.
 */
module Js {
  import opened Wrappers

  /** A JavaScript number. Finite values are exact reals: binary floating
      point rounding is not modelled. */
  datatype Number = Finite(value: real) | Infinite(negative: bool) | NaN

  /** `a * b`: NaN is absorbing, an infinity times zero is NaN, and
      otherwise an infinite factor gives an infinity of the product's sign. */
  function Mul(a: Number, b: Number): Number {
    if a.NaN? || b.NaN? then NaN
    else if a.Finite? && b.Finite? then Finite(a.value * b.value)
    else if (a.Finite? && a.value == 0.0) || (b.Finite? && b.value == 0.0) then NaN
    else Infinite(IsNegative(a) != IsNegative(b))
  }

  /** The sign of a number that is not NaN. */
  predicate IsNegative(x: Number) {
    match x
    case Finite(v) => v < 0.0
    case Infinite(neg) => neg
    case NaN => false
  }

  /** `Number.isInteger(x)`. */
  predicate IsInteger(x: Number) {
    x.Finite? && x.value == x.value.Floor as real
  }

  /** Truthiness of an optional string: `undefined` and `""` are falsy. */
  predicate Truthy(s: Option<string>) {
    s.Some? && s.value != ""
  }

  /** Truthiness of an optional boolean: only `true` is truthy. */
  predicate IsTrue(b: Option<bool>) {
    b == Some(true)
  }

  /** One part of a template literal: a constant chunk of the template, an
      interpolated string, or an interpolated number (rendered by the
      runtime's number-to-string conversion, which is left abstract). */
  datatype Piece = Lit(s: string) | Str(s: string) | Num(n: Number)

  /** Markdown text as the sequence of its template parts. */
  type Text = seq<Piece>

  /** The interpolation of an optional string: `undefined` renders as the
      word "undefined". */
  function OptPiece(o: Option<string>): Piece {
    if o.Some? then Str(o.value) else Lit("undefined")
  }

  /** `u` occurs in `t` as a contiguous run of pieces. */
  ghost predicate Contains(t: Text, u: Text) {
    exists i :: 0 <= i <= |t| - |u| && Window(t, i, |u|) == u
  }

  /** The `n` pieces of `t` starting at `i`. */
  function Window(t: Text, i: int, n: nat): Text
    requires 0 <= i <= |t| - n
  {
    t[i..i + n]
  }

  /** Every occurrence of `x` in `t` comes before every occurrence of `y`. */
  ghost predicate Precedes(t: Text, x: Piece, y: Piece) {
    forall i, j :: 0 <= i < |t| && 0 <= j < |t| && t[i] == x && t[j] == y ==> i < j
  }

  lemma ContainsAppend(a: Text, b: Text, u: Text)
    ensures Contains(a, u) ==> Contains(a + b, u)
    ensures Contains(b, u) ==> Contains(a + b, u)
  {
    if Contains(a, u) {
      var i :| 0 <= i <= |a| - |u| && Window(a, i, |u|) == u;
      assert Window(a + b, i, |u|) == u;
    }
    if Contains(b, u) {
      var i :| 0 <= i <= |b| - |u| && Window(b, i, |u|) == u;
      assert Window(a + b, |a| + i, |u|) == u;
    }
  }

  /** `x` only in the first part and `y` only in the second: `x` comes first. */
  lemma PrecedesSplit(a: Text, b: Text, x: Piece, y: Piece)
    requires x !in b && y !in a
    ensures Precedes(a + b, x, y)
  {
    var t := a + b;
    assert forall k :: 0 <= k < |a| ==> t[k] == a[k];
    assert forall k :: |a| <= k < |t| ==> t[k] == b[k - |a|];
  }

  /** A prefix mentioning neither piece keeps their order. */
  lemma PrecedesPrefix(a: Text, b: Text, x: Piece, y: Piece)
    requires x !in a && y !in a && Precedes(b, x, y)
    ensures Precedes(a + b, x, y)
  {
    var t := a + b;
    assert forall k :: 0 <= k < |a| ==> t[k] == a[k];
    assert forall k :: |a| <= k < |t| ==> t[k] == b[k - |a|];
  }

  /** The constant `name` in `t` is directly followed by `p`. */
  ghost predicate Follows(t: Text, name: string, p: Piece) {
    exists i :: 0 <= i < |t| - 1 && t[i] == Lit(name) && t[i + 1] == p
  }

  /** The loosely typed values found in message props and action contexts. */
  datatype Json =
    | JStr(s: string)
    | JNum(n: Number)
    | JBool(b: bool)
    | JUndefined
    | JObject(fields: map<string, Json>)

  /** An optional string as a property value: `undefined` when absent. */
  function OptStr(s: Option<string>): Json {
    if s.Some? then JStr(s.value) else JUndefined
  }

  // ---------------------------------------------------------------------
  // Decimal parsing

  predicate IsDigit(c: char) {
    '0' <= c <= '9'
  }

  predicate AllDigits(s: string) {
    forall i :: 0 <= i < |s| ==> IsDigit(s[i])
  }

  function DigitValue(c: char): nat
    requires IsDigit(c)
  {
    c as int - '0' as int
  }

  /** Length of the longest prefix of `s` made of decimal digits. */
  function DigitRun(s: string): (n: nat)
    ensures n <= |s|
    ensures AllDigits(s[..n])
    ensures n < |s| ==> !IsDigit(s[n])
  {
    if |s| == 0 || !IsDigit(s[0]) then 0
    else
      var n := 1 + DigitRun(s[1..]);
      assert forall i :: 1 <= i < n ==> s[..n][i] == s[1..][..n - 1][i - 1];
      n
  }

  /** The natural number a digit string denotes, most significant first. */
  function NatValue(ds: string): nat
    requires AllDigits(ds)
  {
    if |ds| == 0 then 0
    else NatValue(ds[..|ds| - 1]) * 10 + DigitValue(ds[|ds| - 1])
  }

  /** The value of the digits after a decimal point. */
  function FracValue(ds: string): real
    requires AllDigits(ds)
  {
    if |ds| == 0 then 0.0
    else (DigitValue(ds[0]) as real + FracValue(ds[1..])) / 10.0
  }

  /** The fractional digits always denote a value in [0, 1). */
  lemma {:induction false} FracValueBounds(ds: string)
    requires AllDigits(ds)
    ensures 0.0 <= FracValue(ds) < 1.0
  {
    if |ds| > 0 {
      FracValueBounds(ds[1..]);
      assert DigitValue(ds[0]) <= 9;
    }
  }

  /** The white space `parseInt` and `parseFloat` skip: the ECMAScript
      `StrWhiteSpaceChar`s, that is tab, vertical tab, form feed, the byte
      order mark, the space separators of Unicode category Zs, and the
      four line terminators. */
  predicate IsSpace(c: char) {
    || c == '\t' || c == '\n' || c == '\U{000B}' || c == '\U{000C}' || c == '\r'
    || c == ' ' || c == '\U{00A0}' || c == '\U{1680}' || ('\U{2000}' <= c <= '\U{200A}')
    || c == '\U{2028}' || c == '\U{2029}' || c == '\U{202F}' || c == '\U{205F}'
    || c == '\U{3000}' || c == '\U{FEFF}'
  }

  /** Length of the longest prefix of `s` made of white space. */
  function SpaceRun(s: string): (n: nat)
    ensures n <= |s|
    ensures forall i :: 0 <= i < n ==> IsSpace(s[i])
    ensures n < |s| ==> !IsSpace(s[n])
  {
    if |s| == 0 || !IsSpace(s[0]) then 0 else 1 + SpaceRun(s[1..])
  }

  /** `s` without its leading white space and its optional sign. */
  function Body(s: string): string {
    var t := s[SpaceRun(s)..];
    if |t| > 0 && (t[0] == '+' || t[0] == '-') then t[1..] else t
  }

  /** The sign in front of `Body(s)` is a minus. */
  predicate Negative(s: string) {
    var t := s[SpaceRun(s)..];
    |t| > 0 && t[0] == '-'
  }

  function Signed(negative: bool, x: real): real {
    if negative then -x else x
  }

  /** `parseInt(s, 10)`: after white space and an optional sign, the
      leading decimal digits; NaN when there is none. */
  function ParseInt(s: string): (r: Number)
    ensures r.NaN? <==> |Body(s)| == 0 || !IsDigit(Body(s)[0])
    ensures !r.Infinite?
    ensures r.Finite? ==> IsInteger(r)
    ensures r.Finite? && !Negative(s) ==> r.value >= 0.0
    ensures r.Finite? && Negative(s) ==> r.value <= 0.0
  {
    var b := Body(s);
    var n := DigitRun(b);
    if n == 0 then NaN
    else
      var k: int := NatValue(b[..n]);
      Finite((if Negative(s) then -k else k) as real)
  }

  /** Where the significand of a decimal literal at the start of `b` ends:
      its integer digits, then, after a point, its fraction digits. */
  function SignificandEnd(b: string): (e: nat)
    ensures DigitRun(b) <= e <= |b|
  {
    var n := DigitRun(b);
    if n < |b| && b[n] == '.' then n + 1 + DigitRun(b[n + 1..]) else n
  }

  /** The value of the significand: integer digits plus fraction digits. */
  function Significand(b: string): (x: real)
    ensures x >= 0.0
  {
    var n := DigitRun(b);
    var whole := NatValue(b[..n]) as real;
    if n < |b| && b[n] == '.' then
      var rest := b[n + 1..];
      FracValueBounds(rest[..DigitRun(rest)]);
      whole + FracValue(rest[..DigitRun(rest)])
    else whole
  }

  /** `b` starts with a significand: a digit before the point or one
      right after it. */
  predicate HasSignificand(b: string) {
    DigitRun(b) > 0 || (|b| > 1 && b[0] == '.' && IsDigit(b[1]))
  }

  /** The exponent part `e`/`E`, an optional sign and digits at the start
      of `t`; absent when `t` does not start with a complete one, in which
      case `parseFloat` stops before it. */
  function ExponentPart(t: string): Option<int> {
    if |t| == 0 || (t[0] != 'e' && t[0] != 'E') then None
    else
      var signed := |t| > 1 && (t[1] == '+' || t[1] == '-');
      var ds := if signed then t[2..] else t[1..];
      var k := DigitRun(ds);
      if k == 0 then None
      else if signed && t[1] == '-' then Some(-(NatValue(ds[..k]) as int))
      else Some(NatValue(ds[..k]) as int)
  }

  function Pow10(e: nat): (p: nat)
    ensures p >= 1
  {
    if e == 0 then 1 else 10 * Pow10(e - 1)
  }

  /** `x` times ten to the power `e`. */
  function Scale(x: real, e: int): (r: real)
    ensures x >= 0.0 ==> r >= 0.0
  {
    var p := Pow10(if e >= 0 then e else -e) as real;
    assert p >= 1.0;
    if e >= 0 then x * p else x / p
  }

  /** The text of `s` carries an exponent part after its significand. */
  predicate HasExponent(s: string) {
    var b := Body(s);
    ExponentPart(b[SignificandEnd(b)..]).Some?
  }

  const InfinityWord: string := "Infinity"

  /** `parseFloat(s)`: after white space and an optional sign, the word
      `Infinity`, or the longest decimal literal (significand with an
      optional exponent part); NaN when there is neither. */
  function ParseFloat(s: string): (r: Number)
    ensures r.Infinite? <==> InfinityWord <= Body(s)
    ensures r.NaN? <==> !(InfinityWord <= Body(s)) && !HasSignificand(Body(s))
    ensures r.Infinite? ==> r.negative == Negative(s)
    ensures r.Finite? && !Negative(s) ==> r.value >= 0.0
    ensures r.Finite? && Negative(s) ==> r.value <= 0.0
  {
    var b := Body(s);
    if InfinityWord <= b then Infinite(Negative(s))
    else if !HasSignificand(b) then NaN
    else
      var x := Significand(b);
      var e := ExponentPart(b[SignificandEnd(b)..]);
      var v := if e.Some? then Scale(x, e.value) else x;
      Finite(Signed(Negative(s), v))
  }

  /** `x` truncated toward zero, as `parseInt` cuts off a fraction. */
  function Trunc(x: real): int {
    if x >= 0.0 then x.Floor else -((-x).Floor)
  }

  /** `parseInt` truncates what `parseFloat` reads, as long as the text
      has no exponent part: whenever `parseInt` yields a number,
      `parseFloat` yields one that truncates to it. */
  lemma ParseIntTruncatesParseFloat(s: string)
    requires !HasExponent(s)
    ensures ParseInt(s).Finite? ==>
              ParseFloat(s).Finite? && ParseInt(s).value == Trunc(ParseFloat(s).value) as real
  {
    var b := Body(s);
    var n := DigitRun(b);
    if n > 0 {
      var k := NatValue(b[..n]);
      var x := Significand(b);
      assert !(InfinityWord <= b) by { assert b[0] != InfinityWord[0]; }
      assert ParseFloat(s) == Finite(Signed(Negative(s), x));
      if n < |b| && b[n] == '.' {
        var rest := b[n + 1..];
        FracValueBounds(rest[..DigitRun(rest)]);
        FloorOfWholePlusFraction(k, x - k as real);
      } else {
        FloorOfWholePlusFraction(k, 0.0);
      }
    }
  }

  lemma FloorOfWholePlusFraction(k: nat, f: real)
    requires 0.0 <= f < 1.0
    ensures (k as real + f).Floor == k
    ensures Trunc(k as real + f) == k && Trunc(-(k as real + f)) == -(k as int)
  {
  }

  /** Truncating a whole number leaves it as it is. */
  lemma TruncOfWhole(x: real)
    requires x == x.Floor as real
    ensures Trunc(x) as real == x
  {
    if x < 0.0 {
      assert -x == (-(x.Floor)) as real;
    }
  }

  /** With an exponent part the two disagree: `parseInt("2e1", 10)` stops
      at the `e` and reads 2, while `parseFloat("2e1")` reads 20. */
  lemma ExponentSplitsParsers()
    ensures ParseInt("2e1") == Finite(2.0) && ParseFloat("2e1") == Finite(20.0)
    ensures HasExponent("2e1")
  {
    var s := "2e1";
    assert SpaceRun(s) == 0 && Body(s) == s && !Negative(s);
    assert DigitRun(s[1..]) == 0;
    assert DigitRun(s) == 1;
    assert NatValue(s[..1]) == 2 by { assert s[..1][..0] == ""; }
    assert SignificandEnd(s) == 1;
    assert DigitRun(s[2..]) == 1 by { assert DigitRun(s[3..]) == 0; }
    assert NatValue(s[2..][..1]) == 1 by { assert s[2..][..1][..0] == ""; }
    assert ExponentPart(s[1..]) == Some(1);
    assert !(InfinityWord <= s) by { assert s[0] != InfinityWord[0]; }
    assert Significand(s) == 2.0;
  }

  // ---------------------------------------------------------------------
  // Lower-casing

  /** ASCII `toLowerCase` of one character. */
  function LowerChar(c: char): char {
    if 'A' <= c <= 'Z' then (c as int + 32) as char else c
  }

  predicate NoUpper(s: string) {
    forall i :: 0 <= i < |s| ==> !('A' <= s[i] <= 'Z')
  }

  /** `s.toLowerCase()` restricted to ASCII letters. */
  function ToLower(s: string): (r: string)
    ensures |r| == |s|
    ensures NoUpper(r)
    ensures forall i :: 0 <= i < |s| ==> ('A' <= s[i] <= 'Z' ==> r[i] != s[i]) && (!('A' <= s[i] <= 'Z') ==> r[i] == s[i])
    ensures forall i :: 0 <= i < |s| && 'A' <= s[i] <= 'Z' ==>
              'a' <= r[i] <= 'z' && r[i] as int - 'a' as int == s[i] as int - 'A' as int
  {
    seq(|s|, i requires 0 <= i < |s| => LowerChar(s[i]))
  }

  lemma ToLowerConcat(a: string, b: string)
    ensures ToLower(a + b) == ToLower(a) + ToLower(b)
  {
  }

  /** Lower-casing leaves a string unchanged exactly when it has no upper
      case letter. */
  lemma ToLowerIdentity(s: string)
    ensures ToLower(s) == s <==> NoUpper(s)
  {
    if ToLower(s) == s {
      assert forall i :: 0 <= i < |s| ==> ToLower(s)[i] == s[i];
    }
  }
}
