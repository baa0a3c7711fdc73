/** src/lexer.rs: a second copy of the first three stages of the
    pipeline, whose token type groups the four arithmetic operators under one
    `Binary` variant. Nothing in the crate refers to it. */
module Lexer {
  import opened Wrappers
  import opened Lexemes
  import Balance
  import Insertion

  datatype Operator = Plus | Minus | Multiply | Divide

  /** A token of src/lexer.rs; a number keeps the run it was read from. */
  datatype Token = Number(lexeme: Lexeme) | Binary(op: Operator) | LeftParen | RightParen

  /** The character of each operator. */
  function OperatorOf(c: char): Option<Operator> {
    match c
    case '+' => Some(Plus)
    case '-' => Some(Minus)
    case '*' => Some(Multiply)
    case '/' => Some(Divide)
    case _ => None
  }

  /** The six one-character tokens. */
  function SymbolToken(c: char): Option<Token> {
    if c == '(' then Some(LeftParen)
    else if c == ')' then Some(RightParen)
    else
      match OperatorOf(c)
      case Some(op) => Some(Binary(op))
      case None => None
  }

  predicate IsAccepted(c: char) {
    IsNumberChar(c) || SymbolToken(c).Some? || c == ' '
  }

  function Prepend(t: Token, r: Result<seq<Token>, LexError>): Result<seq<Token>, LexError> {
    match r
    case Ok(ts) => Ok([t] + ts)
    case Err(e) => Err(e)
  }

  /** `tokenize` of src/lexer.rs: the same scan as in src/lib.rs, producing
      the grouped token type. */
  function Tokenize(s: string): (r: Result<seq<Token>, LexError>)
    ensures r.Ok? ==> |r.value| <= |s|
    ensures r.Ok? && |s| > 0 && s[0] != ' ' ==> |r.value| > 0
    decreases |s|
  {
    if |s| == 0 then Ok([])
    else if IsNumberChar(s[0]) then
      var n := RunLength(s);
      var buffer := s[..n];
      if !IsLexeme(buffer) then Err(MalformedNumber)
      else Prepend(Number(buffer), Tokenize(s[n..]))
    else if s[0] == ' ' then Tokenize(s[1..])
    else
      match SymbolToken(s[0])
      case Some(t) => Prepend(t, Tokenize(s[1..]))
      case None => Err(UnknownCharacter)
  }

  /** `match_parenthesis` of src/lexer.rs. */
  function MatchParenthesis(ts: seq<Token>): Option<bool> {
    Balance.MatchParenthesis(ts, LeftParen, RightParen)
  }

  /** `imply_multiplication` of src/lexer.rs, which inserts
      `Binary(Multiply)`; like its twin it needs a non-empty input. */
  function ImplyMultiplication(ts: seq<Token>): seq<Token>
    requires |ts| > 0
  {
    Insertion.ImplyMultiplication(ts, RightParen, LeftParen, Binary(Multiply))
  }

  // ----- Properties of the copy on its own -----

  /** An operator character is read as one `Binary` token of its operator. */
  lemma OperatorCharacter(c: char, tail: string)
    requires OperatorOf(c).Some?
    ensures Tokenize([c] + tail) == Prepend(Binary(OperatorOf(c).value), Tokenize(tail))
  {
    assert ([c] + tail)[1..] == tail;
  }

  /** The three answers of the parenthesis check, over prefixes: balanced
      exactly when the tokens are nested,
      `Some(false)` exactly when some prefix closes too much, `Some(true)`
      exactly when none does and openings are left over. */
  lemma MatchParenthesisVerdicts(ts: seq<Token>)
    ensures MatchParenthesis(ts) == None <==> Balance.Nested(ts, LeftParen, RightParen)
    ensures MatchParenthesis(ts) == Some(false)
        <==> exists k | 0 <= k <= |ts| :: Balance.Depth(ts[..k], LeftParen, RightParen) < 0
    ensures MatchParenthesis(ts) == Some(true)
        <==> (forall k | 0 <= k <= |ts| :: Balance.Depth(ts[..k], LeftParen, RightParen) >= 0)
             && Balance.Depth(ts, LeftParen, RightParen) > 0
  {
    Balance.BalancedIff(ts, LeftParen, RightParen);
    Balance.TooManyCloseIff(ts, LeftParen, RightParen);
    Balance.TooManyOpenIff(ts, LeftParen, RightParen);
  }

  /** The pass only inserts: deleting the token after each flagged position
      gives the input back, and every flagged position is a `)` directly
      followed by `(` in the input. */
  lemma ImplyMultiplicationInserts(ts: seq<Token>)
    requires |ts| > 0
    ensures var fs := Insertion.WrittenFlags(ts, |ts|, RightParen, LeftParen);
      ImplyMultiplication(ts) == Insertion.Weave(ts, fs, Binary(Multiply))
      && Insertion.Unweave(ImplyMultiplication(ts), fs) == ts
      && forall j | 0 <= j < |ts| :: fs[j] ==> Insertion.IsPairAt(ts, j, RightParen, LeftParen)
  {
    var fs := Insertion.WrittenFlags(ts, |ts|, RightParen, LeftParen);
    Insertion.UnweaveWeave(ts, fs, Binary(Multiply));
    Insertion.WrittenFlagsExact(ts, RightParen, LeftParen);
  }
}
