/** src/lexer.rs against src/lib.rs: renaming `Plus` to `Binary(Plus)` and
    so on for the other three operators maps each stage of one copy onto the
    same stage of the other. */
module LexerCorrespondence {
  import opened Wrappers
  import opened Lexemes
  import LibTokenize
  import LibNormalize
  import LibExamples
  import Lexer
  import Balance
  import Insertion

  /** The renaming from the token type of src/lib.rs to that of src/lexer.rs. */
  function ToLexer(t: LibTokenize.Token): (u: Lexer.Token)
    ensures FromLexer(u) == t
    ensures u.Binary? <==> t in {LibTokenize.Plus, LibTokenize.Minus, LibTokenize.Multiply, LibTokenize.Divide}
  {
    match t
    case Number(lex) => Lexer.Number(lex)
    case Plus => Lexer.Binary(Lexer.Plus)
    case Minus => Lexer.Binary(Lexer.Minus)
    case Multiply => Lexer.Binary(Lexer.Multiply)
    case Divide => Lexer.Binary(Lexer.Divide)
    case LeftParen => Lexer.LeftParen
    case RightParen => Lexer.RightParen
  }

  function FromLexer(u: Lexer.Token): LibTokenize.Token {
    match u
    case Number(lex) => LibTokenize.Number(lex)
    case Binary(Plus) => LibTokenize.Plus
    case Binary(Minus) => LibTokenize.Minus
    case Binary(Multiply) => LibTokenize.Multiply
    case Binary(Divide) => LibTokenize.Divide
    case LeftParen => LibTokenize.LeftParen
    case RightParen => LibTokenize.RightParen
  }

  /** The renaming is one-to-one and onto: the two token types carry the
      same information. */
  lemma RenamingIsBijective(t: LibTokenize.Token, u: Lexer.Token)
    ensures FromLexer(ToLexer(t)) == t
    ensures ToLexer(FromLexer(u)) == u
    ensures ToLexer(t) == u <==> t == FromLexer(u)
  {
  }

  /** The renaming applied to every token. */
  function MapTokens(ts: seq<LibTokenize.Token>): (us: seq<Lexer.Token>)
    ensures |us| == |ts|
    ensures forall i | 0 <= i < |ts| :: us[i] == ToLexer(ts[i])
  {
    if |ts| == 0 then [] else [ToLexer(ts[0])] + MapTokens(ts[1..])
  }

  function MapResult(r: Result<seq<LibTokenize.Token>, LexError>): Result<seq<Lexer.Token>, LexError> {
    match r
    case Ok(ts) => Ok(MapTokens(ts))
    case Err(e) => Err(e)
  }

  lemma MapTokensAppend(a: seq<LibTokenize.Token>, b: seq<LibTokenize.Token>)
    ensures MapTokens(a + b) == MapTokens(a) + MapTokens(b)
  {
    var l, r := MapTokens(a + b), MapTokens(a) + MapTokens(b);
    assert forall i | 0 <= i < |l| :: l[i] == r[i];
  }

  lemma MapTokensPrefix(a: seq<LibTokenize.Token>, k: nat)
    requires k <= |a|
    ensures MapTokens(a[..k]) == MapTokens(a)[..k]
  {
    var l, r := MapTokens(a[..k]), MapTokens(a)[..k];
    assert forall i | 0 <= i < k :: l[i] == r[i];
  }

  /** Each symbol character gives the renamed token. */
  lemma SymbolCorresponds(c: char)
    ensures Lexer.SymbolToken(c).Some? <==> LibTokenize.SymbolToken(c).Some?
    ensures LibTokenize.SymbolToken(c).Some? ==> Lexer.SymbolToken(c).value == ToLexer(LibTokenize.SymbolToken(c).value)
  {
  }

  /** The two `tokenize` functions agree up to the renaming, on every text:
      they fail on the same texts with the same error, and otherwise give
      renamed token sequences. In particular they accept the same
      characters. */
  lemma {:induction false} TokenizeCorresponds(s: string)
    ensures Lexer.Tokenize(s) == MapResult(LibTokenize.Tokenize(s))
    decreases |s|
  {
    if |s| > 0 {
      if IsNumberChar(s[0]) {
        TokenizeCorresponds(s[RunLength(s)..]);
      } else {
        SymbolCorresponds(s[0]);
        TokenizeCorresponds(s[1..]);
      }
    }
  }

  /** The character sets the two copies accept are the same. */
  lemma AcceptsSameCharacters(c: char)
    ensures Lexer.IsAccepted(c) <==> LibTokenize.IsAccepted(c)
  {
    SymbolCorresponds(c);
  }

  lemma {:induction false} ScanCorresponds(ts: seq<LibTokenize.Token>, i: nat, balancer: int)
    requires i <= |ts|
    ensures Balance.Scan(MapTokens(ts), Lexer.LeftParen, Lexer.RightParen, i, balancer)
         == Balance.Scan(ts, LibTokenize.LeftParen, LibTokenize.RightParen, i, balancer)
    decreases |ts| - i
  {
    if i < |ts| {
      var b := balancer + Balance.Delta(ts[i], LibTokenize.LeftParen, LibTokenize.RightParen);
      assert Balance.Delta(MapTokens(ts)[i], Lexer.LeftParen, Lexer.RightParen) == b - balancer;
      ScanCorresponds(ts, i + 1, b);
    }
  }

  /** The second `tokenize` gives no tokens and no error exactly when the
      text is blank, as the first one does. */
  lemma LexerTokenizeBlank(s: string)
    ensures Lexer.Tokenize(s) == Ok([]) <==> forall i | 0 <= i < |s| :: s[i] == ' '
  {
    TokenizeCorresponds(s);
    LibTokenize.TokenizeBlank(s);
  }

  /** A character outside the accepted set makes the second `tokenize`
      fail, as it does the first. */
  lemma LexerRejectsForeign(s: string, i: nat)
    requires i < |s| && !Lexer.IsAccepted(s[i])
    ensures Lexer.Tokenize(s).Err?
  {
    AcceptsSameCharacters(s[i]);
    LibTokenize.TokenizeRejectsForeign(s, i);
    TokenizeCorresponds(s);
  }

  /** The two `match_parenthesis` functions give the same answer on
      corresponding tokens. */
  lemma MatchParenthesisCorresponds(ts: seq<LibTokenize.Token>)
    ensures Lexer.MatchParenthesis(MapTokens(ts)) == LibNormalize.MatchParenthesis(ts)
  {
    ScanCorresponds(ts, 0, 0);
  }

  lemma {:induction false} WrittenFlagsCorrespond(ts: seq<LibTokenize.Token>, m: nat)
    requires m <= |ts|
    ensures Insertion.WrittenFlags(MapTokens(ts), m, Lexer.RightParen, Lexer.LeftParen)
         == Insertion.WrittenFlags(ts, m, LibTokenize.RightParen, LibTokenize.LeftParen)
    decreases m
  {
    if m > 0 {
      WrittenFlagsCorrespond(ts, m - 1);
      assert Insertion.IsPairAt(MapTokens(ts), m - 1, Lexer.RightParen, Lexer.LeftParen)
         == Insertion.IsPairAt(ts, m - 1, LibTokenize.RightParen, LibTokenize.LeftParen);
    }
  }

  lemma {:induction false} WeaveCorresponds(xs: seq<LibTokenize.Token>, fs: seq<bool>)
    requires |fs| == |xs|
    ensures Insertion.Weave(MapTokens(xs), fs, Lexer.Binary(Lexer.Multiply))
         == MapTokens(Insertion.Weave(xs, fs, LibTokenize.Multiply))
    decreases |xs|
  {
    if |xs| > 0 {
      var n := |xs|;
      var prefix := Insertion.Weave(xs[..n - 1], fs[..n - 1], LibTokenize.Multiply);
      var extra: seq<LibTokenize.Token> := if fs[n - 1] then [LibTokenize.Multiply] else [];
      WeaveCorresponds(xs[..n - 1], fs[..n - 1]);
      MapTokensPrefix(xs, n - 1);
      MapTokensAppend(prefix + [xs[n - 1]], extra);
      MapTokensAppend(prefix, [xs[n - 1]]);
      assert MapTokens(extra) == if fs[n - 1] then [Lexer.Binary(Lexer.Multiply)] else [];
      assert MapTokens([xs[n - 1]]) == [MapTokens(xs)[n - 1]];
    }
  }

  /** The two `imply_multiplication` functions insert at the same places:
      the renamed output of one is the output of the other on renamed input. */
  lemma ImplyMultiplicationCorresponds(ts: seq<LibTokenize.Token>)
    requires |ts| > 0
    ensures Lexer.ImplyMultiplication(MapTokens(ts)) == MapTokens(LibNormalize.ImplyMultiplication(ts))
  {
    WrittenFlagsCorrespond(ts, |ts|);
    WeaveCorresponds(ts, Insertion.WrittenFlags(ts, |ts|, LibTokenize.RightParen, LibTokenize.LeftParen));
  }

  // ----- The unit tests of src/lexer.rs -----

  /** A text that src/lib.rs reads as `ts` is read by src/lexer.rs as the
      renamed `ts`. */
  lemma TokenizeRenamed(s: string, ts: seq<LibTokenize.Token>)
    requires LibTokenize.Tokenize(s) == Ok(ts)
    ensures Lexer.Tokenize(s) == Ok(MapTokens(ts))
  {
    TokenizeCorresponds(s);
  }

  lemma MapThree(ts: seq<LibTokenize.Token>)
    requires |ts| == 3
    ensures MapTokens(ts) == [ToLexer(ts[0]), ToLexer(ts[1]), ToLexer(ts[2])]
  {
  }

  /** The test `tokenize_works` of src/lexer.rs. */
  lemma TokenizeWorks()
    ensures Lexer.Tokenize("53+110") == Ok([Lexer.Number("53"), Lexer.Binary(Lexer.Plus), Lexer.Number("110")])
    ensures Value("53") == 53.0 && Value("110") == 110.0
  {
    LibExamples.TokenizeWorks();
    var ts := LibTokenize.Tokenize("53+110").value;
    TokenizeRenamed("53+110", ts);
    MapThree(ts);
  }

  /** The test `tokenize_decimal` of src/lexer.rs. */
  lemma TokenizeDecimal()
    ensures Lexer.Tokenize("5.3 .110 333.") == Ok([Lexer.Number("5.3"), Lexer.Number(".110"), Lexer.Number("333.")])
    ensures Value("5.3") == 5.3 && Value(".110") == 0.11 && Value("333.") == 333.0
  {
    LibExamples.TokenizeDecimal();
    var ts := LibTokenize.Tokenize("5.3 .110 333.").value;
    TokenizeRenamed("5.3 .110 333.", ts);
    MapThree(ts);
  }
}
