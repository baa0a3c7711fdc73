/** src/error.rs: the diagnostic that shows an expression with a caret
    under the offending token. The file is written against a richer token
    type (unary operators, modulo, exponent, an implicit multiply) than the
    one src/lib.rs defines, so that token type is given here as the render
    cases of `Error::new` name it. */
module Diagnostics {
  import opened Wrappers

  datatype Binary = Plus | Minus | Multiply | Divide | Modulo | ImplicitMultiply | Exponent

  /** `Factorial(n)` stands for `n` consecutive `!`. */
  datatype Unary = Factorial(count: nat) | Negative

  datatype Token = Number(value: real) | Binary(binaryOp: Binary) | Unary(unaryOp: Unary) | LeftParen | RightParen

  datatype ErrorKind = InvalidToken | TooManyLeftParen | TooManyRightParen | UnexpectedToken | DivisionByZero

  /** The fields of `Error`: what went wrong, the expression text, and the
      character offset the caret points at. */
  datatype Error = Error(kind: ErrorKind, expression: string, index: nat)

  /** The fixed message of each kind. */
  function Message(kind: ErrorKind): (m: string)
    ensures |m| > 0
    ensures '^' !in m
  {
    match kind
    case InvalidToken => "Invalid token"
    case TooManyLeftParen => "Too many left parentheses"
    case TooManyRightParen => "Too many right parentheses"
    case UnexpectedToken => "Unexpected token"
    case DivisionByZero => "Division by zero"
  }

  /** `n` copies of `c`: `str::repeat`. */
  function Repeat(c: char, n: nat): (r: string)
    ensures |r| == n
    ensures forall j | 0 <= j < n :: r[j] == c
  {
    if n == 0 then "" else [c] + Repeat(c, n - 1)
  }

  /** The text of one token; `show` stands for `f64::to_string`. */
  function TokenText(t: Token, show: real -> string): string {
    match t
    case Number(v) => show(v)
    case Binary(Plus) => "+"
    case Binary(Minus) => "-"
    case Binary(Multiply) => "*"
    case Binary(Divide) => "/"
    case Binary(Modulo) => "%"
    case Unary(Factorial(n)) => Repeat('!', n)
    case Binary(ImplicitMultiply) => ""
    case Binary(Exponent) => "^"
    case LeftParen => "("
    case RightParen => ")"
    case Unary(Negative) => "-"
  }

  /** The buffer the loop of `Error::new` builds: the token texts in order,
      each appended after the ones before it. */
  function Expression(ts: seq<Token>, show: real -> string): string {
    if |ts| == 0 then "" else Expression(ts[..|ts| - 1], show) + TokenText(ts[|ts| - 1], show)
  }

  /** The total length of the token texts, counted from the front. */
  function RenderedLength(ts: seq<Token>, show: real -> string): nat {
    if |ts| == 0 then 0 else |TokenText(ts[0], show)| + RenderedLength(ts[1..], show)
  }

  /** `Error::from_expression`: the error keeps the kind, the text and the
      offset it is given, and `Error::kind` gives the kind back. */
  function FromExpression(kind: ErrorKind, expression: string, index: nat): (e: Error)
    ensures Kind(e) == kind && e.expression == expression && e.index == index
  {
    Error(kind, expression, index)
  }

  /** `Error::kind`. */
  function Kind(e: Error): ErrorKind {
    e.kind
  }

  /** `Error::new`. The source asserts that `token_index` is a position of
      `tokens` and panics otherwise; that panic is `None` here. The loop
      appends each token's text to a buffer and records the buffer's length
      when it reaches `token_index`; the `unreachable!()` after the loop
      cannot happen because that position is always reached. */
  method New(kind: ErrorKind, tokens: seq<Token>, tokenIndex: nat, show: real -> string) returns (r: Option<Error>)
    ensures r.Some? <==> tokenIndex < |tokens|
    ensures r.Some? ==> r.value == FromExpression(kind, Expression(tokens, show), RenderedLength(tokens[..tokenIndex], show))
  {
    if tokenIndex >= |tokens| {
      return None;
    }
    var buffer := "";
    var stringIndex: Option<nat> := None;
    var i := 0;
    while i < |tokens|
      invariant i <= |tokens|
      invariant buffer == Expression(tokens[..i], show)
      invariant stringIndex == if tokenIndex < i then Some(|Expression(tokens[..tokenIndex], show)|) else None
    {
      if i == tokenIndex {
        stringIndex := Some(|buffer|);
      }
      assert tokens[..i + 1][..i] == tokens[..i];
      buffer := buffer + TokenText(tokens[i], show);
      i := i + 1;
    }
    assert tokens[..i] == tokens;
    ExpressionLength(tokens[..tokenIndex], show);
    r := Some(FromExpression(kind, buffer, stringIndex.value));
  }

  // ----- The expression text -----

  lemma {:induction false} RenderedLengthAppend(a: seq<Token>, b: seq<Token>, show: real -> string)
    ensures RenderedLength(a + b, show) == RenderedLength(a, show) + RenderedLength(b, show)
    decreases |a|
  {
    if |a| == 0 {
      assert a + b == b;
    } else {
      assert (a + b)[1..] == a[1..] + b;
      RenderedLengthAppend(a[1..], b, show);
    }
  }

  /** The offset `Error::new` records is the total length of the texts of
      the tokens before `token_index`. */
  lemma {:induction false} ExpressionLength(ts: seq<Token>, show: real -> string)
    ensures |Expression(ts, show)| == RenderedLength(ts, show)
    decreases |ts|
  {
    if |ts| > 0 {
      var n := |ts|;
      ExpressionLength(ts[..n - 1], show);
      RenderedLengthAppend(ts[..n - 1], [ts[n - 1]], show);
      assert ts[..n - 1] + [ts[n - 1]] == ts;
      assert RenderedLength([ts[n - 1]], show) == |TokenText(ts[n - 1], show)| + RenderedLength([], show);
    }
  }

  /** Appending one token appends its text. */
  lemma ExpressionSnoc(xs: seq<Token>, t: Token, show: real -> string)
    ensures Expression(xs + [t], show) == Expression(xs, show) + TokenText(t, show)
  {
    assert (xs + [t])[..|xs|] == xs;
  }

  /** The expression of a concatenation is the concatenation of the
      expressions. */
  lemma {:induction false} ExpressionAppend(a: seq<Token>, b: seq<Token>, show: real -> string)
    ensures Expression(a + b, show) == Expression(a, show) + Expression(b, show)
    decreases |b|
  {
    if |b| == 0 {
      assert a + b == a;
    } else {
      var init, last := b[..|b| - 1], b[|b| - 1];
      assert Expression(a + b, show) == Expression(a + init, show) + TokenText(last, show) by {
        assert a + b == (a + init) + [last];
        ExpressionSnoc(a + init, last, show);
      }
      assert Expression(b, show) == Expression(init, show) + TokenText(last, show) by {
        assert b == init + [last];
        ExpressionSnoc(init, last, show);
      }
      ExpressionAppend(a, init, show);
    }
  }

  /** The recorded offset points at the offending token: its text starts
      there in the expression. */
  lemma IndexPointsAtToken(tokens: seq<Token>, tokenIndex: nat, show: real -> string)
    requires tokenIndex < |tokens|
    ensures var text := TokenText(tokens[tokenIndex], show);
      var k := RenderedLength(tokens[..tokenIndex], show);
      k + |text| <= |Expression(tokens, show)| && Expression(tokens, show)[k..k + |text|] == text
  {
    var before, at, after := tokens[..tokenIndex], [tokens[tokenIndex]], tokens[tokenIndex + 1..];
    assert tokens == before + at + after;
    ExpressionAppend(before + at, after, show);
    ExpressionAppend(before, at, show);
    ExpressionLength(before, show);
    assert Expression(at, show) == TokenText(tokens[tokenIndex], show);
  }

  /** An implicit multiplication leaves no trace in the text. */
  lemma ImplicitMultiplyInvisible(a: seq<Token>, b: seq<Token>, show: real -> string)
    ensures Expression(a + [Binary(ImplicitMultiply)] + b, show) == Expression(a + b, show)
  {
    ExpressionAppend(a + [Binary(ImplicitMultiply)], b, show);
    ExpressionAppend(a, [Binary(ImplicitMultiply)], show);
    ExpressionAppend(a, b, show);
    assert Expression([Binary(ImplicitMultiply)], show) == "";
  }

  /** Three texts of note: a factorial of `n` is `n` exclamation marks, and a
      negation looks like a subtraction, so the text does not determine the
      tokens. */
  lemma RenderCases(n: nat, show: real -> string)
    ensures Expression([Unary(Factorial(n))], show) == Repeat('!', n)
    ensures Expression([Unary(Negative)], show) == Expression([Binary(Minus)], show) == "-"
    ensures Expression([Binary(ImplicitMultiply)], show) == Expression([], show)
  {
  }

  // ----- Where the caret goes -----

  /** The position of the first `c` in a text. */
  function FirstOf(s: string, c: char): (r: Option<nat>)
    ensures r.Some? ==> r.value < |s| && s[r.value] == c && forall j | 0 <= j < r.value :: s[j] != c
    ensures r.None? ==> forall j | 0 <= j < |s| :: s[j] != c
  {
    if |s| == 0 then None
    else if s[0] == c then Some(0)
    else
      match FirstOf(s[1..], c)
      case None => None
      case Some(k) => Some(k + 1)
  }

  /** A text whose first `c` is at `column`. */
  lemma FirstAt(s: string, c: char, column: nat)
    ensures column < |s| && s[column] == c && (forall j | 0 <= j < column :: s[j] != c)
        ==> FirstOf(s, c) == Some(column)
  {
  }

  /** The second line of the display, as written: when the message fits
      before the offset it ends right before the caret; otherwise the caret
      comes after `index + 1` spaces and the message follows it. */
  function Info(e: Error): (info: string)
    ensures var m := Message(e.kind);
      |m| <= e.index ==> |info| == e.index + 1 && info[e.index - |m|..e.index] == m
    ensures var m := Message(e.kind);
      |m| > e.index ==> |info| == e.index + 2 + |m| && info[e.index + 2..] == m
    ensures var m := Message(e.kind);
      forall j | 0 <= j < (if |m| <= e.index then e.index - |m| else e.index + 1) :: info[j] == ' '
    ensures info[if |Message(e.kind)| <= e.index then e.index else e.index + 1] == '^'
  {
    var m := Message(e.kind);
    if |m| <= e.index then Repeat(' ', e.index - |m|) + m + "^"
    else Repeat(' ', e.index + 1) + "^" + m
  }

  /** `Display::fmt`: the expression, a newline and the caret line. When the
      expression has no newline of its own, the first line is the
      expression, and on the second line the first `^` is at column `index`
      if the message fits before it and at `index + 1` if not. */
  function Display(e: Error): (r: string)
    ensures '\n' !in e.expression ==> FirstOf(r, '\n') == Some(|e.expression|) && r[..|e.expression|] == e.expression
    ensures |r| > |e.expression|
      && FirstOf(r[|e.expression| + 1..], '^') == Some(if |Message(e.kind)| <= e.index then e.index else e.index + 1)
  {
    var r := e.expression + "\n" + Info(e);
    assert r[|e.expression| + 1..] == Info(e);
    assert forall j | 0 <= j < |e.expression| :: r[j] == e.expression[j];
    CaretColumnAsWritten(e);
    FirstAt(r, '\n', |e.expression|);
    r
  }

  /** As written, the caret lands under the offending character only when
      the message fits before it; when it does not, the caret is one column
      to the right. */
  lemma CaretColumnAsWritten(e: Error)
    ensures FirstOf(Info(e), '^') == Some(if |Message(e.kind)| <= e.index then e.index else e.index + 1)
  {
    var m := Message(e.kind);
    var info := Info(e);
    if |m| <= e.index {
      var pad := Repeat(' ', e.index - |m|);
      assert info == pad + m + "^";
      forall j | 0 <= j < e.index
        ensures info[j] != '^'
      {
        if j < |pad| {
          assert info[j] == pad[j];
        } else {
          assert info[j] == m[j - |pad|];
        }
      }
      FirstAt(info, '^', e.index);
    } else {
      var pad := Repeat(' ', e.index + 1);
      assert info == pad + "^" + m;
      assert forall j | 0 <= j < e.index + 1 :: info[j] == pad[j];
      FirstAt(info, '^', e.index + 1);
    }
  }

  /** The diagnostic for `)` at offset 0: the message does not fit before
      the offset, so the caret line is a space, the caret and the message,
      and the caret sits in column 1, past the one-character expression. */
  lemma CaretMissesFirstToken(show: real -> string)
    ensures var e := FromExpression(UnexpectedToken, Expression([RightParen], show), RenderedLength([RightParen][..0], show));
      e == Error(UnexpectedToken, ")", 0) && |e.expression| == 1
      && Info(e)[0] == ' ' && FirstOf(Info(e), '^') == Some(1) && Info(e)[2..] == Message(UnexpectedToken)
  {
    assert Expression([RightParen], show) == ")" by {
      ExpressionSnoc([], RightParen, show);
    }
    assert RenderedLength([RightParen][..0], show) == 0 by {
      assert [RightParen][..0] == [];
    }
    var e := Error(UnexpectedToken, ")", 0);
    assert |Message(UnexpectedToken)| > 0;
    assert Info(e) == Repeat(' ', 1) + "^" + Message(UnexpectedToken);
    CaretColumnAsWritten(e);
  }

  /** The evidently intended caret line: the caret at column `index` in both
      layouts, so it sits under the first character of the offending token. */
  function InfoIntended(e: Error): string {
    var m := Message(e.kind);
    if |m| <= e.index then Repeat(' ', e.index - |m|) + m + "^"
    else Repeat(' ', e.index) + "^" + m
  }

  /** The corrected display: on the second line the first `^` is at column
      `index` whatever the message. */
  function DisplayIntended(e: Error): (r: string)
    ensures '\n' !in e.expression ==> FirstOf(r, '\n') == Some(|e.expression|) && r[..|e.expression|] == e.expression
    ensures |r| > |e.expression| && FirstOf(r[|e.expression| + 1..], '^') == Some(e.index)
  {
    var r := e.expression + "\n" + InfoIntended(e);
    assert r[|e.expression| + 1..] == InfoIntended(e);
    assert forall j | 0 <= j < |e.expression| :: r[j] == e.expression[j];
    CaretColumnIntended(e);
    FirstAt(r, '\n', |e.expression|);
    r
  }

  /** With the correction the caret column is the recorded offset, whatever
      the message. */
  lemma CaretColumnIntended(e: Error)
    ensures FirstOf(InfoIntended(e), '^') == Some(e.index)
  {
    var m := Message(e.kind);
    var info := InfoIntended(e);
    if |m| <= e.index {
      var pad := Repeat(' ', e.index - |m|);
      assert info == pad + m + "^";
      forall j | 0 <= j < e.index
        ensures info[j] != '^'
      {
        if j < |pad| {
          assert info[j] == pad[j];
        } else {
          assert info[j] == m[j - |pad|];
        }
      }
      FirstAt(info, '^', e.index);
    } else {
      var pad := Repeat(' ', e.index);
      assert info == pad + "^" + m;
      assert forall j | 0 <= j < e.index :: info[j] == pad[j];
      FirstAt(info, '^', e.index);
    }
  }

  /** With the correction, the caret of a diagnostic built by `Error::new`
      stands under the first character of the offending token's text. */
  lemma CaretUnderToken(kind: ErrorKind, tokens: seq<Token>, tokenIndex: nat, show: real -> string)
    requires tokenIndex < |tokens| && |TokenText(tokens[tokenIndex], show)| > 0
    ensures var e := FromExpression(kind, Expression(tokens, show), RenderedLength(tokens[..tokenIndex], show));
      FirstOf(InfoIntended(e), '^') == Some(e.index)
      && e.index < |e.expression| && e.expression[e.index] == TokenText(tokens[tokenIndex], show)[0]
  {
    var e := FromExpression(kind, Expression(tokens, show), RenderedLength(tokens[..tokenIndex], show));
    CaretColumnIntended(e);
    IndexPointsAtToken(tokens, tokenIndex, show);
    var text := TokenText(tokens[tokenIndex], show);
    assert e.expression[e.index..e.index + |text|][0] == e.expression[e.index];
  }

  /** The message identifies the kind: distinct kinds have distinct
      messages. */
  lemma MessagesDistinct(k1: ErrorKind, k2: ErrorKind)
    ensures Message(k1) == Message(k2) <==> k1 == k2
  {
  }
}
