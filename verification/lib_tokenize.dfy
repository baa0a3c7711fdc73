/** The tokenizer of src/lib.rs: `Token` and `tokenize`. */
module LibTokenize {
  import opened Wrappers
  import opened Lexemes

  /** A token of src/lib.rs. A number keeps the digit/dot run it was read
      from; its value is `Lexemes.Value` of that run. */
  datatype Token = Number(lexeme: Lexeme) | Plus | Minus | Multiply | Divide | LeftParen | RightParen

  /** The six one-character tokens. */
  function SymbolToken(c: char): Option<Token> {
    match c
    case '+' => Some(Plus)
    case '-' => Some(Minus)
    case '*' => Some(Multiply)
    case '/' => Some(Divide)
    case '(' => Some(LeftParen)
    case ')' => Some(RightParen)
    case _ => None
  }

  /** The characters `tokenize` does not reject: number characters, the six
      symbols and the space character. Tabs and newlines are not among them. */
  predicate IsAccepted(c: char) {
    IsNumberChar(c) || SymbolToken(c).Some? || c == ' '
  }

  function Prepend(t: Token, r: Result<seq<Token>, LexError>): Result<seq<Token>, LexError> {
    match r
    case Ok(ts) => Ok([t] + ts)
    case Err(e) => Err(e)
  }

  /** `tokenize`: scans left to right; a number character starts a maximal
      digit/dot run that must parse as a number, each symbol gives one token,
      a space is skipped and anything else stops the scan with an error. */
  function Tokenize(s: string): (r: Result<seq<Token>, LexError>)
    ensures r.Ok? ==> |r.value| <= |s|
    decreases |s|
  {
    if |s| == 0 then Ok([])
    else if IsNumberChar(s[0]) then
      var n := RunLength(s);
      var buffer := s[..n];
      if !IsLexeme(buffer) then Err(MalformedNumber)
      else Prepend(Number(buffer), Tokenize(s[n..]))
    else if s[0] == ' ' then Tokenize(s[1..])
    else
      match SymbolToken(s[0])
      case Some(t) => Prepend(t, Tokenize(s[1..]))
      case None => Err(UnknownCharacter)
  }

  /** The text a token was read from. */
  function Spelling(t: Token): string {
    match t
    case Number(lex) => lex
    case Plus => "+"
    case Minus => "-"
    case Multiply => "*"
    case Divide => "/"
    case LeftParen => "("
    case RightParen => ")"
  }

  function Render(ts: seq<Token>): string {
    if |ts| == 0 then "" else Spelling(ts[0]) + Render(ts[1..])
  }

  /** Where `RenderSpaced` puts spaces: `Tight` only between two numbers,
      `Padded` also between any two tokens except after `(` and before `)`,
      the way the unit tests write their expressions. */
  datatype Layout = Tight | Padded

  /** Like `Render`, with a space after the first token where the layout
      asks for one; two consecutive numbers are always separated, so that
      they are read back as two runs. */
  function RenderSpaced(ts: seq<Token>, layout: Layout): string {
    if |ts| == 0 then ""
    else Spelling(ts[0]) + (if Gap(ts, layout) then " " else "") + RenderSpaced(ts[1..], layout)
  }

  predicate NeedsSpace(ts: seq<Token>) {
    |ts| > 1 && ts[0].Number? && ts[1].Number?
  }

  predicate Gap(ts: seq<Token>, layout: Layout) {
    NeedsSpace(ts) || (layout == Padded && |ts| > 1 && ts[0] != LeftParen && ts[1] != RightParen)
  }

  /** The text with every space character removed. */
  function Squeeze(s: string): string {
    if |s| == 0 then "" else (if s[0] == ' ' then "" else [s[0]]) + Squeeze(s[1..])
  }

  function CountChar(s: string, c: char): nat {
    if |s| == 0 then 0 else (if s[0] == c then 1 else 0) + CountChar(s[1..], c)
  }

  function CountToken(ts: seq<Token>, t: Token): nat {
    if |ts| == 0 then 0 else (if ts[0] == t then 1 else 0) + CountToken(ts[1..], t)
  }

  lemma {:induction false} SqueezeAppend(a: string, b: string)
    ensures Squeeze(a + b) == Squeeze(a) + Squeeze(b)
    decreases |a|
  {
    if |a| == 0 {
      assert a + b == b;
    } else {
      assert (a + b)[0] == a[0];
      assert (a + b)[1..] == a[1..] + b;
      SqueezeAppend(a[1..], b);
    }
  }

  lemma {:induction false} SqueezeRun(a: string)
    requires AllNumberChars(a)
    ensures Squeeze(a) == a
    decreases |a|
  {
    if |a| > 0 {
      SqueezeRun(a[1..]);
    }
  }

  /** Reading the tokens back gives the input without its spaces: every
      symbol yields one token of the matching kind, every number token is
      its run, and nothing is reordered, lost or invented. */
  lemma {:induction false} TokenizeRendersInput(s: string)
    ensures Tokenize(s).Ok? ==> Render(Tokenize(s).value) == Squeeze(s)
    decreases |s|
  {
    if |s| > 0 && Tokenize(s).Ok? {
      if IsNumberChar(s[0]) {
        var n := RunLength(s);
        TokenizeRendersInput(s[n..]);
        RunStep(s);
      } else {
        TokenizeRendersInput(s[1..]);
      }
    }
  }

  /** A text that starts with a number run reads as the run's token and
      then the rest; without its spaces it is the run and then the rest
      without its spaces. */
  lemma RunStep(s: string)
    requires |s| > 0 && IsNumberChar(s[0]) && Tokenize(s).Ok?
    ensures var n := RunLength(s);
      Tokenize(s[n..]).Ok? && Render(Tokenize(s).value) == s[..n] + Render(Tokenize(s[n..]).value)
      && Squeeze(s) == s[..n] + Squeeze(s[n..])
  {
    var n := RunLength(s);
    assert Squeeze(s) == s[..n] + Squeeze(s[n..]) by {
      assert s == s[..n] + s[n..];
      SqueezeAppend(s[..n], s[n..]);
      SqueezeRun(s[..n]);
    }
  }

  lemma {:induction false} RunLengthOf(lex: string, rest: string)
    requires AllNumberChars(lex)
    requires |rest| == 0 || !IsNumberChar(rest[0])
    ensures RunLength(lex + rest) == |lex|
    decreases |lex|
  {
    if |lex| == 0 {
      assert lex + rest == rest;
    } else {
      assert (lex + rest)[1..] == lex[1..] + rest;
      RunLengthOf(lex[1..], rest);
    }
  }

  lemma {:induction false} RenderSpacedStart(ts: seq<Token>, layout: Layout)
    requires |ts| > 0 && !ts[0].Number?
    ensures |RenderSpaced(ts, layout)| > 0 && !IsNumberChar(RenderSpaced(ts, layout)[0])
    ensures RenderSpaced(ts, layout)[0] != ' '
  {
  }

  /** Tokenizing the spaced rendering of any token sequence gives that
      sequence back: number runs end exactly where the next token begins. */
  lemma {:induction false} TokenizeRoundTrip(ts: seq<Token>, layout: Layout)
    ensures Tokenize(RenderSpaced(ts, layout)) == Ok(ts)
    decreases |ts|
  {
    if |ts| > 0 {
      var first, rest := ts[0], ts[1..];
      var tail := AfterFirst(ts, layout);
      assert RenderSpaced(ts, layout) == Spelling(first) + tail;
      TokenizeRoundTrip(rest, layout);
      AfterFirstTokens(ts, layout);
      TokenizeFirst(first, tail, rest);
      assert ts == [first] + rest;
    }
  }

  /** A token's spelling followed by text that reads as `rest` (and does not
      continue a number) reads as the token followed by `rest`. */
  lemma TokenizeFirst(t: Token, tail: string, rest: seq<Token>)
    requires Tokenize(tail) == Ok(rest)
    requires t.Number? ==> |tail| == 0 || !IsNumberChar(tail[0])
    ensures Tokenize(Spelling(t) + tail) == Ok([t] + rest)
  {
    if t.Number? {
      TokenizeRun(t.lexeme, tail);
    } else {
      TokenizeSymbol(t, tail);
    }
  }

  /** The rendering of a token sequence, one token at a time. */
  lemma RenderSpacedCons(t: Token, rest: seq<Token>, layout: Layout, text: string, gap: bool)
    requires RenderSpaced(rest, layout) == text
    requires gap == Gap([t] + rest, layout)
    ensures RenderSpaced([t] + rest, layout) == Spelling(t) + (if gap then " " else "") + text
  {
    assert ([t] + rest)[1..] == rest;
  }

  /** A one-character token is read as itself, whatever follows. */
  lemma TokenizeSymbol(t: Token, tail: string)
    requires !t.Number?
    ensures Tokenize(Spelling(t) + tail) == Prepend(t, Tokenize(tail))
  {
    var s := Spelling(t) + tail;
    assert |Spelling(t)| == 1;
    assert s[0] == Spelling(t)[0] && s[1..] == tail;
  }

  /** A symbol character is read as its token, whatever follows. */
  lemma TokenizeChar(c: char, tail: string)
    requires SymbolToken(c).Some?
    ensures Tokenize([c] + tail) == Prepend(SymbolToken(c).value, Tokenize(tail))
  {
    assert ([c] + tail)[1..] == tail;
  }

  /** A space is skipped. */
  lemma TokenizeSpace(tail: string)
    ensures Tokenize(" " + tail) == Tokenize(tail)
  {
    assert (" " + tail)[1..] == tail;
  }

  /** The text after the first token's spelling. */
  function AfterFirst(ts: seq<Token>, layout: Layout): string
    requires |ts| > 0
  {
    (if Gap(ts, layout) then " " else "") + RenderSpaced(ts[1..], layout)
  }

  /** The text after the first token reads as the remaining tokens, and does
      not continue a number run. */
  lemma AfterFirstTokens(ts: seq<Token>, layout: Layout)
    requires |ts| > 0
    requires Tokenize(RenderSpaced(ts[1..], layout)) == Ok(ts[1..])
    ensures Tokenize(AfterFirst(ts, layout)) == Ok(ts[1..])
    ensures ts[0].Number? ==> |AfterFirst(ts, layout)| == 0 || !IsNumberChar(AfterFirst(ts, layout)[0])
  {
    var rest := ts[1..];
    var tail := AfterFirst(ts, layout);
    if Gap(ts, layout) {
      assert tail[0] == ' ' && !IsNumberChar(tail[0]);
      assert tail[1..] == RenderSpaced(rest, layout);
    } else {
      assert tail == RenderSpaced(rest, layout);
      if ts[0].Number? && |rest| > 0 {
        assert !rest[0].Number?;
        RenderSpacedStart(rest, layout);
      }
    }
  }

  /** A lexeme followed by text that does not continue it is read as one
      number token. */
  lemma TokenizeRun(lex: Lexeme, tail: string)
    requires |tail| == 0 || !IsNumberChar(tail[0])
    ensures Tokenize(lex + tail) == Prepend(Number(lex), Tokenize(tail))
  {
    var s := lex + tail;
    RunLengthOf(lex, tail);
    assert s[0] == lex[0];
    assert s[..|lex|] == lex;
    assert s[|lex|..] == tail;
  }

  /** `tokenize` gives no tokens and no error exactly when the text is
      blank: empty or spaces only. */
  lemma {:induction false} TokenizeBlank(s: string)
    ensures Tokenize(s) == Ok([]) <==> forall i | 0 <= i < |s| :: s[i] == ' '
    decreases |s|
  {
    if |s| > 0 && s[0] == ' ' {
      TokenizeBlank(s[1..]);
      assert forall i | 0 < i < |s| :: s[i] == s[1..][i - 1];
    }
  }

  /** A character outside the accepted set makes `tokenize` fail. */
  lemma {:induction false} TokenizeRejectsForeign(s: string, i: nat)
    requires i < |s| && !IsAccepted(s[i])
    ensures Tokenize(s).Err?
    decreases |s|
  {
    if i > 0 {
      if IsNumberChar(s[0]) {
        var n := RunLength(s);
        if IsLexeme(s[..n]) {
          TokenizeRejectsForeign(s[n..], i - n);
        }
      } else if IsAccepted(s[0]) {
        TokenizeRejectsForeign(s[1..], i - 1);
      }
    }
  }

  /** The `unknown character` error occurs only when some character is
      outside the accepted set; on accepted text the only failure left is a
      malformed number. */
  lemma {:induction false} UnknownCharacterIsForeign(s: string)
    ensures Tokenize(s) == Err(UnknownCharacter) ==> exists i | 0 <= i < |s| :: !IsAccepted(s[i])
    decreases |s|
  {
    if |s| > 0 && Tokenize(s) == Err(UnknownCharacter) {
      if IsNumberChar(s[0]) {
        var n := RunLength(s);
        UnknownCharacterIsForeign(s[n..]);
        var i :| 0 <= i < |s[n..]| && !IsAccepted(s[n..][i]);
        assert s[n + i] == s[n..][i];
      } else if IsAccepted(s[0]) {
        UnknownCharacterIsForeign(s[1..]);
        var i :| 0 <= i < |s[1..]| && !IsAccepted(s[1..][i]);
        assert s[1 + i] == s[1..][i];
      } else {
        assert !IsAccepted(s[0]);
      }
    }
  }

  /** A maximal run of number characters starts at `i` and does not read
      as a number (too many dots, or no digit). */
  predicate BadRunAt(s: string, i: nat) {
    i < |s| && IsNumberChar(s[i]) && (i == 0 || !IsNumberChar(s[i - 1]))
    && !IsLexeme(s[i..][..RunLength(s[i..])])
  }

  /** The `malformed number` error occurs only at a maximal number run that
      does not read as a number. */
  lemma {:induction false} MalformedNumberIsBadRun(s: string)
    ensures Tokenize(s) == Err(MalformedNumber) ==> exists i | 0 <= i < |s| :: BadRunAt(s, i)
    decreases |s|
  {
    if |s| > 0 && Tokenize(s) == Err(MalformedNumber) {
      if IsNumberChar(s[0]) {
        var n := RunLength(s);
        if IsLexeme(s[..n]) {
          MalformedNumberIsBadRun(s[n..]);
          var j :| 0 <= j < |s[n..]| && BadRunAt(s[n..], j);
          assert j > 0;
          assert s[n..][j..] == s[n + j..];
          assert BadRunAt(s, n + j);
        } else {
          assert s[0..] == s;
          assert BadRunAt(s, 0);
        }
      } else {
        MalformedNumberIsBadRun(s[1..]);
        var j :| 0 <= j < |s[1..]| && BadRunAt(s[1..], j);
        assert s[1..][j..] == s[1 + j..];
        assert BadRunAt(s, 1 + j);
      }
    }
  }

  /** A maximal number run that does not read as a number makes `tokenize`
      fail. */
  lemma {:induction false} BadRunFails(s: string, i: nat)
    requires BadRunAt(s, i)
    ensures Tokenize(s).Err?
    decreases |s|
  {
    if IsNumberChar(s[0]) {
      var n := RunLength(s);
      if i == 0 {
        assert s[0..] == s;
      } else if IsLexeme(s[..n]) {
        assert i > n;
        assert s[n..][i - n..] == s[i..];
        assert BadRunAt(s[n..], i - n);
        BadRunFails(s[n..], i - n);
      }
    } else if IsAccepted(s[0]) {
      assert s[1..][i - 1..] == s[i..];
      assert BadRunAt(s[1..], i - 1);
      BadRunFails(s[1..], i - 1);
    }
  }

  lemma {:induction false} CountCharAppend(a: string, b: string, c: char)
    ensures CountChar(a + b, c) == CountChar(a, c) + CountChar(b, c)
    decreases |a|
  {
    if |a| == 0 {
      assert a + b == b;
    } else {
      assert (a + b)[0] == a[0];
      assert (a + b)[1..] == a[1..] + b;
      CountCharAppend(a[1..], b, c);
    }
  }

  lemma {:induction false} CountCharSqueeze(s: string, c: char)
    requires c != ' '
    ensures CountChar(Squeeze(s), c) == CountChar(s, c)
    decreases |s|
  {
    if |s| > 0 {
      CountCharAppend(if s[0] == ' ' then "" else [s[0]], Squeeze(s[1..]), c);
      CountCharSqueeze(s[1..], c);
    }
  }

  lemma {:induction false} CountCharRun(a: string, c: char)
    requires AllNumberChars(a) && !IsNumberChar(c)
    ensures CountChar(a, c) == 0
    decreases |a|
  {
    if |a| > 0 {
      CountCharRun(a[1..], c);
    }
  }

  lemma {:induction false} CountCharRender(ts: seq<Token>, c: char)
    requires SymbolToken(c).Some?
    ensures CountChar(Render(ts), c) == CountToken(ts, SymbolToken(c).value)
    decreases |ts|
  {
    if |ts| > 0 {
      CountCharAppend(Spelling(ts[0]), Render(ts[1..]), c);
      CountCharRender(ts[1..], c);
      if ts[0].Number? {
        CountCharRun(ts[0].lexeme, c);
      }
    }
  }

  /** Each symbol character of the input yields exactly one token of the
      matching kind: e.g. there are as many `LeftParen` tokens as `(`
      characters. */
  lemma SymbolCounts(s: string, c: char)
    requires SymbolToken(c).Some?
    ensures Tokenize(s).Ok? ==> CountToken(Tokenize(s).value, SymbolToken(c).value) == CountChar(s, c)
  {
    if Tokenize(s).Ok? {
      TokenizeRendersInput(s);
      CountCharRender(Tokenize(s).value, c);
      CountCharSqueeze(s, c);
    }
  }

  lemma DecimalValues()
    ensures Value("5.3") == 5.3 && Value(".110") == 0.11 && Value("333.") == 333.0
  {
    ValueOfFivePointThree();
    ValueOfPointOneTen();
    ValueOfThreeThirtyThree();
  }

  lemma ValueOfFivePointThree()
    ensures Value("5.3") == 5.3
  {
    assert "5" + "." + "3" == "5.3";
    DecimalSplit("5", "3");
  }

  lemma ValueOfPointOneTen()
    ensures Value(".110") == 0.11
  {
    assert "" + "." + "110" == ".110";
    assert "110"[..2] == "11" && "11"[..1] == "1";
    DecimalSplit("", "110");
  }

  lemma ValueOfThreeThirtyThree()
    ensures Value("333.") == 333.0
  {
    var whole := "333";
    assert whole + "." + "" == "333.";
    assert "333."[1..] == "33." && "33."[1..] == "3." && "3."[1..] == "." && "."[1..] == "";
    assert IsLexeme(whole + "." + "");
    assert "333"[..2] == "33" && "33"[..1] == "3";
    DecimalSplit(whole, "");
  }
}
