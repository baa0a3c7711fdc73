/** Number lexemes shared by the two tokenizers (src/lib.rs and src/lexer.rs):
    which characters continue a number, the maximal run they form, and the
    exact decimal value of a run that Rust's `str::parse::<f64>` accepts. */
module Lexemes {

  /** The two ways `tokenize` can stop early. `UnknownCharacter` is the
      `anyhow` error it returns; `MalformedNumber` is the panic of
      `buffer.parse::<f64>().unwrap()` on a run such as `1.2.3` or `.`. */
  datatype LexError = UnknownCharacter | MalformedNumber

  predicate IsDigit(c: char) {
    '0' <= c <= '9'
  }

  /** `'0'..='9' | '.'`: the characters a number run is made of. */
  predicate IsNumberChar(c: char) {
    IsDigit(c) || c == '.'
  }

  predicate AllNumberChars(s: string) {
    forall i | 0 <= i < |s| :: IsNumberChar(s[i])
  }

  function CountDots(s: string): nat {
    if |s| == 0 then 0 else (if s[0] == '.' then 1 else 0) + CountDots(s[1..])
  }

  predicate HasDigit(s: string) {
    |s| > 0 && (IsDigit(s[0]) || HasDigit(s[1..]))
  }

  /** A digit/dot run that parses as a decimal number: at most one dot and
      at least one digit (`5.3`, `.110` and `333.` do; `.` and `1.2.3` do not). */
  predicate IsLexeme(s: string) {
    AllNumberChars(s) && CountDots(s) <= 1 && HasDigit(s)
  }

  type Lexeme = s: string | IsLexeme(s) witness "0"

  /** Length of the longest prefix of `s` made of number characters: the
      buffer the inner `while let` loop of `tokenize` accumulates. */
  function RunLength(s: string): (n: nat)
    ensures n <= |s|
    ensures forall i | 0 <= i < n :: IsNumberChar(s[i])
    ensures n == |s| || !IsNumberChar(s[n])
  {
    if |s| == 0 || !IsNumberChar(s[0]) then 0 else 1 + RunLength(s[1..])
  }

  function DigitValue(c: char): nat
    requires IsDigit(c)
  {
    (c as int - '0' as int) as nat
  }

  /** The digits of `s` read as one natural number, dots skipped. */
  function Mantissa(s: string): nat
    requires AllNumberChars(s)
  {
    if |s| == 0 then 0
    else if s[|s| - 1] == '.' then Mantissa(s[..|s| - 1])
    else 10 * Mantissa(s[..|s| - 1]) + DigitValue(s[|s| - 1])
  }

  function Pow10(n: nat): (p: nat)
    ensures p > 0
  {
    if n == 0 then 1 else 10 * Pow10(n - 1)
  }

  /** Index of the first dot of `s`, or `|s|` when there is none. */
  function DotIndex(s: string): (d: nat)
    ensures d <= |s|
    ensures d < |s| ==> s[d] == '.'
    ensures forall i | 0 <= i < d :: s[i] != '.'
  {
    if |s| == 0 || s[0] == '.' then 0 else 1 + DotIndex(s[1..])
  }

  /** Number of digits written after the dot. */
  function FractionDigits(s: string): nat {
    var d := DotIndex(s);
    if d < |s| then |s| - d - 1 else 0
  }

  /** The exact value of a lexeme, standing for the `f64` the source obtains. */
  function Value(lex: Lexeme): real {
    Mantissa(lex) as real / Pow10(FractionDigits(lex)) as real
  }

  /** Appending a digit string multiplies the mantissa by a power of ten. */
  lemma {:induction false} MantissaAppend(a: string, b: string)
    requires AllNumberChars(a) && AllNumberChars(b) && CountDots(b) == 0
    ensures AllNumberChars(a + b)
    ensures Mantissa(a + b) == Mantissa(a) * Pow10(|b|) + Mantissa(b)
    decreases |b|
  {
    if |b| == 0 {
      assert a + b == a;
    } else {
      var b' := b[..|b| - 1];
      assert (a + b)[..|a + b| - 1] == a + b';
      assert CountDots(b) == 0;
      NoDotsMeansNoDot(b, |b| - 1);
      NoDotsPrefix(b);
      MantissaAppend(a, b');
      var d := DigitValue(b[|b| - 1]);
      assert (a + b)[|a + b| - 1] == b[|b| - 1];
      assert Mantissa(a + b) == 10 * Mantissa(a + b') + d;
      ShiftDigit(Mantissa(a), Pow10(|b'|), Mantissa(b'), d);
    }
  }

  lemma ShiftDigit(m: int, q: int, x: int, d: int)
    ensures 10 * (m * q + x) + d == m * (10 * q) + (10 * x + d)
  {
  }

  lemma {:induction false} NoDotsMeansNoDot(s: string, i: nat)
    requires CountDots(s) == 0 && i < |s|
    ensures s[i] != '.'
    decreases i
  {
    if i > 0 {
      NoDotsMeansNoDot(s[1..], i - 1);
    }
  }

  lemma {:induction false} NoDotsPrefix(s: string)
    requires |s| > 0 && CountDots(s) == 0
    ensures CountDots(s[..|s| - 1]) == 0
    decreases |s|
  {
    if |s| > 1 {
      assert s[..|s| - 1][1..] == s[1..][..|s[1..]| - 1];
      NoDotsPrefix(s[1..]);
    }
  }

  /** The value of `whole.fraction` is `whole + fraction / 10^|fraction|`:
      the decimal reading of a lexeme with a dot. */
  lemma {:induction false} DecimalSplit(whole: string, fraction: string)
    requires AllNumberChars(whole) && CountDots(whole) == 0
    requires AllNumberChars(fraction) && CountDots(fraction) == 0
    requires IsLexeme(whole + "." + fraction)
    ensures Value(whole + "." + fraction)
         == Mantissa(whole) as real + Mantissa(fraction) as real / Pow10(|fraction|) as real
  {
    var s := whole + "." + fraction;
    var p := Pow10(|fraction|);
    assert FractionDigits(s) == |fraction| by {
      DotIndexOf(whole, fraction);
    }
    assert Mantissa(s) == Mantissa(whole) * p + Mantissa(fraction) by {
      assert s == (whole + ".") + fraction;
      MantissaDot(whole);
      MantissaAppend(whole + ".", fraction);
    }
    assert Value(s) == Mantissa(s) as real / p as real;
    DivideSum(Mantissa(whole), Mantissa(fraction), p);
  }

  lemma MantissaDot(whole: string)
    requires AllNumberChars(whole)
    ensures AllNumberChars(whole + ".")
    ensures Mantissa(whole + ".") == Mantissa(whole)
  {
    assert (whole + ".")[..|whole|] == whole;
  }

  lemma DivideSum(w: nat, f: nat, p: nat)
    requires p > 0
    ensures (w * p + f) as real / p as real == w as real + f as real / p as real
  {
    assert (w * p + f) as real == w as real * p as real + f as real;
  }

  lemma {:induction false} DotIndexOf(whole: string, rest: string)
    requires CountDots(whole) == 0
    ensures DotIndex(whole + "." + rest) == |whole|
    decreases |whole|
  {
    if |whole| > 0 {
      NoDotsMeansNoDot(whole, 0);
      assert (whole + "." + rest)[1..] == whole[1..] + "." + rest;
      DotIndexOf(whole[1..], rest);
    }
  }

  /** A lexeme without a dot denotes the integer its digits spell. */
  lemma {:induction false} IntegerLexeme(lex: Lexeme)
    requires CountDots(lex) == 0
    ensures Value(lex) == Mantissa(lex) as real
  {
    if DotIndex(lex) < |lex| {
      NoDotsMeansNoDot(lex, DotIndex(lex));
    }
  }
}
