/** `evaluate` of src/lib.rs: tokenize, reject unbalanced parentheses,
    insert the implied multiplications, parse and compute. */
module LibEvaluate {
  import opened Wrappers
  import opened Lexemes
  import opened LibTokenize
  import opened LibNormalize
  import opened LibParse
  import LibParseIntended
  import Balance
  import Insertion

  /** Why an expression has no value. `Lex` and the two parenthesis cases
      are the errors `evaluate` returns; `EmptyExpression` is the panic of
      `imply_multiplication` on no tokens; `NoValue` covers the panics of
      `parse_primary` and a zero divisor, which the source turns into an
      infinite or NaN result. */
  datatype Failure =
    | Lex(error: LexError)
    | TooManyLeftParenthesis
    | TooManyRightParenthesis
    | EmptyExpression
    | NoValue

  /** The checks `evaluate` makes before parsing, in its order. */
  function Checked(s: string): (r: Result<seq<Token>, Failure>)
    ensures r.Ok? ==> Tokenize(s) == Ok(r.value) && |r.value| > 0 && MatchParenthesis(r.value) == None
  {
    match Tokenize(s)
    case Err(e) => Err(Lex(e))
    case Ok(ts) =>
      match MatchParenthesis(ts)
      case Some(tooManyLeft) => Err(if tooManyLeft then TooManyLeftParenthesis else TooManyRightParenthesis)
      case None => if |ts| == 0 then Err(EmptyExpression) else Ok(ts)
  }

  /** The value a parse yields; tokens after the parsed expression are
      ignored, as in the source. */
  function Outcome(r: Option<(real, nat)>): Result<real, Failure> {
    match r
    case None => Err(NoValue)
    case Some((v, _)) => Ok(v)
  }

  /** `evaluate`. */
  function Evaluate(s: string): (r: Result<real, Failure>)
    ensures r.Err? && r.error.Lex? <==> Tokenize(s).Err?
    ensures r.Ok? ==> Tokenize(s).Ok? && |Tokenize(s).value| > 0 && MatchParenthesis(Tokenize(s).value) == None
  {
    match Checked(s)
    case Err(f) => Err(f)
    case Ok(ts) => Outcome(ParseExpr(ImplyMultiplication(ts), 0))
  }

  /** `evaluate` with both corrections: a `*` between every `)(` pair and
      `*`/`/` chains folded to the left. */
  function EvaluateIntended(s: string): (r: Result<real, Failure>)
    ensures r.Err? && r.error.Lex? <==> Tokenize(s).Err?
    ensures r.Ok? ==> Tokenize(s).Ok? && |Tokenize(s).value| > 0 && MatchParenthesis(Tokenize(s).value) == None
  {
    match Checked(s)
    case Err(f) => Err(f)
    case Ok(ts) => Outcome(LibParseIntended.ParseExpr(ImplyEveryPair(ts), 0))
  }

  /** A value as a result. */
  function Answer(v: Option<real>): Result<real, Failure> {
    match v
    case None => Err(NoValue)
    case Some(x) => Ok(x)
  }

  // ----- Which failure, for which text -----

  /** A character outside the accepted set makes evaluation fail in the
      tokenizer. */
  lemma ForeignCharacterFails(s: string, i: nat)
    requires i < |s| && !IsAccepted(s[i])
    ensures Evaluate(s).Err? && Evaluate(s).error.Lex?
    ensures EvaluateIntended(s).Err? && EvaluateIntended(s).error.Lex?
  {
    TokenizeRejectsForeign(s, i);
  }

  /** The unknown-character error names a real character of the text. */
  lemma UnknownCharacterIsInText(s: string)
    ensures Evaluate(s) == Err(Lex(UnknownCharacter)) ==> exists i | 0 <= i < |s| :: !IsAccepted(s[i])
  {
    UnknownCharacterIsForeign(s);
  }

  /** On text that tokenizes, the two parenthesis errors are decided by
      the characters `(` and `)` alone: too many right parentheses exactly
      when some prefix of the text closes more than it opens, too many left
      exactly when none does and the text opens more than it closes. */
  lemma ParenthesisFailures(s: string)
    requires Tokenize(s).Ok?
    ensures Evaluate(s) == Err(TooManyRightParenthesis) <==> Balance.GoesNegative(s, '(', ')')
    ensures Evaluate(s) == Err(TooManyLeftParenthesis)
        <==> !Balance.GoesNegative(s, '(', ')') && Balance.Depth(s, '(', ')') > 0
  {
    ParenthesesOfText(s);
  }

  /** On text that tokenizes, the empty-expression failure happens exactly
      when the text is all spaces. */
  lemma EmptyFailure(s: string)
    requires Tokenize(s).Ok?
    ensures Evaluate(s) == Err(EmptyExpression) <==> forall i | 0 <= i < |s| :: s[i] == ' '
  {
    if forall i | 0 <= i < |s| :: s[i] == ' ' {
      TokenizeBlank(s);
      assert MatchParenthesis([]) == None;
    } else {
      var i :| 0 <= i < |s| && s[i] != ' ';
      SqueezeKeeps(s, i);
      TokenizeRendersInput(s);
      assert Render(Tokenize(s).value) != "";
    }
  }

  /** A character other than a space survives `Squeeze`. */
  lemma {:induction false} SqueezeKeeps(s: string, i: nat)
    requires i < |s| && s[i] != ' '
    ensures Squeeze(s) != ""
    decreases i
  {
    if i > 0 && s[0] == ' ' {
      SqueezeKeeps(s[1..], i - 1);
    }
  }

  // ----- Well-formed expressions -----

  /** A token sequence that is nested, has no `)(` pair, and begins and
      ends with an operand. */
  ghost predicate WellFormed(ts: seq<Token>) {
    |ts| > 0
    && (ts[0].Number? || ts[0] == LeftParen)
    && (ts[|ts| - 1].Number? || ts[|ts| - 1] == RightParen)
    && Balance.Nested(ts, LeftParen, RightParen)
    && Insertion.PairFree(ts, RightParen, LeftParen)
  }

  /** The shape of a rendered tail: empty, or an additive operator first
      and an operand last. */
  ghost predicate WellFormedTail(ts: seq<Token>) {
    Balance.Nested(ts, LeftParen, RightParen)
    && Insertion.PairFree(ts, RightParen, LeftParen)
    && (|ts| > 0 ==> (ts[0] == Plus || ts[0] == Minus) && (ts[|ts| - 1].Number? || ts[|ts| - 1] == RightParen))
  }

  /** An operator token is nested and pair-free. */
  lemma OperatorToken(t: Token)
    requires t == Plus || t == Minus || t == Multiply || t == Divide
    ensures Balance.Nested([t], LeftParen, RightParen) && Insertion.PairFree([t], RightParen, LeftParen)
  {
    Balance.NestedNeutral(t, LeftParen, RightParen);
  }

  lemma {:induction false} SumWellFormed(e: Sum)
    ensures WellFormed(RenderSum(e))
    decreases e, 1
  {
    var rp := RenderProduct(e.first);
    var rt := RenderTail(e.rest);
    ProductWellFormed(e.first);
    TailWellFormed(e.rest);
    Balance.NestedConcat(rp, rt, LeftParen, RightParen);
    Insertion.PairFreeConcat(rp, rt, RightParen, LeftParen);
    assert RenderSum(e) == rp + rt;
  }

  lemma {:induction false} TailWellFormed(t: SumTail)
    ensures WellFormedTail(RenderTail(t))
    decreases t, 1
  {
    match t
    case End =>
      var none: seq<Token> := [];
      assert RenderTail(t) == none;
      assert Balance.Nested(none, LeftParen, RightParen) by {
        assert none[..0] == none;
      }
    case Then(op, p, next) =>
      var rp := RenderProduct(p);
      var rn := RenderTail(next);
      OperatorToken(AddToken(op));
      ProductWellFormed(p);
      TailWellFormed(next);
      Balance.NestedConcat([AddToken(op)], rp, LeftParen, RightParen);
      Insertion.PairFreeConcat([AddToken(op)], rp, RightParen, LeftParen);
      Balance.NestedConcat([AddToken(op)] + rp, rn, LeftParen, RightParen);
      Insertion.PairFreeConcat([AddToken(op)] + rp, rn, RightParen, LeftParen);
      assert RenderTail(t) == [AddToken(op)] + rp + rn;
  }

  lemma {:induction false} ProductWellFormed(p: Product)
    ensures WellFormed(RenderProduct(p))
    decreases p, 1
  {
    match p
    case Single(a) =>
      AtomWellFormed(a);
    case Apply(a, op, r) =>
      var ra := RenderAtom(a);
      var rr := RenderProduct(r);
      OperatorToken(MulToken(op));
      AtomWellFormed(a);
      ProductWellFormed(r);
      Balance.NestedConcat(ra, [MulToken(op)], LeftParen, RightParen);
      Insertion.PairFreeConcat(ra, [MulToken(op)], RightParen, LeftParen);
      Balance.NestedConcat(ra + [MulToken(op)], rr, LeftParen, RightParen);
      Insertion.PairFreeConcat(ra + [MulToken(op)], rr, RightParen, LeftParen);
      assert RenderProduct(p) == ra + [MulToken(op)] + rr;
  }

  lemma {:induction false} AtomWellFormed(a: Atom)
    ensures WellFormed(RenderAtom(a))
    decreases a, 0
  {
    match a
    case Num(lex) =>
      Balance.NestedNeutral(Number(lex), LeftParen, RightParen);
      assert RenderAtom(a) == [Number(lex)];
    case Group(s) =>
      var rs := RenderSum(s);
      SumWellFormed(s);
      Balance.NestedWrap(rs, LeftParen, RightParen);
      assert Insertion.PairFree([LeftParen], RightParen, LeftParen);
      Insertion.PairFreeConcat([LeftParen], rs, RightParen, LeftParen);
      assert Insertion.PairFree([RightParen], RightParen, LeftParen);
      Insertion.PairFreeConcat([LeftParen] + rs, [RightParen], RightParen, LeftParen);
      assert RenderAtom(a) == [LeftParen] + rs + [RightParen];
  }

  /** Text that tokenizes to the rendering of a tree evaluates to the
      tree's value: the parentheses of a rendering balance, no `)(` pair
      occurs in it so no multiplication is inserted, and the parser reads
      the tree back. */
  lemma EvaluatesTree(s: string, e: Sum)
    requires Tokenize(s) == Ok(RenderSum(e))
    ensures Evaluate(s) == Answer(EvalSum(e))
  {
    var ts := RenderSum(e);
    SumWellFormed(e);
    Balance.BalancedIff(ts, LeftParen, RightParen);
    Insertion.PairFreeUnchanged(ts, RightParen, LeftParen, Multiply);
    ParseRendering(e);
  }

  /** Every tree, written out in either layout, evaluates to its value. */
  lemma EvaluatesRendering(e: Sum, layout: Layout)
    ensures Evaluate(RenderSpaced(RenderSum(e), layout)) == Answer(EvalSum(e))
  {
    TokenizeRoundTrip(RenderSum(e), layout);
    EvaluatesTree(RenderSpaced(RenderSum(e), layout), e);
  }

  // ----- Chains of `*` and `/` -----

  /** The tokens of a chain hold no parenthesis. */
  lemma {:induction false} LinksHoldNoParenthesis(links: seq<(MulOp, Lexeme)>)
    ensures forall i | 0 <= i < |RenderLinks(links)| :: RenderLinks(links)[i] != LeftParen && RenderLinks(links)[i] != RightParen
    decreases |links|
  {
    if |links| > 0 {
      LinksHoldNoParenthesis(links[1..]);
      assert RenderLinks(links) == [MulToken(links[0].0), Number(links[0].1)] + RenderLinks(links[1..]);
    }
  }

  /** A chain passes the parenthesis check, and neither multiplication
      pass changes it. */
  lemma ChainChecked(first: Lexeme, links: seq<(MulOp, Lexeme)>)
    ensures var ts := [Number(first)] + RenderLinks(links);
      MatchParenthesis(ts) == None && ImplyMultiplication(ts) == ts && ImplyEveryPair(ts) == ts
  {
    var ts := [Number(first)] + RenderLinks(links);
    LinksHoldNoParenthesis(links);
    assert forall i | 0 <= i < |ts| :: ts[i] != LeftParen && ts[i] != RightParen by {
      forall i | 0 < i < |ts| ensures ts[i] == RenderLinks(links)[i - 1] { }
    }
    Balance.NeutralNested(ts, LeftParen, RightParen);
    Balance.BalancedIff(ts, LeftParen, RightParen);
    Insertion.PairFreeUnchanged(ts, RightParen, LeftParen, Multiply);
  }

  /** Both parsers read a whole chain: as written it nests to the right,
      corrected it folds to the left. */
  lemma ChainParsed(first: Lexeme, links: seq<(MulOp, Lexeme)>)
    ensures var ts := [Number(first)] + RenderLinks(links);
      ParseExpr(ts, 0) == At(FoldRight(Value(first), links), |ts|)
      && LibParseIntended.ParseExpr(ts, 0) == At(FoldLeft(Value(first), links), |ts|)
  {
    var ts := [Number(first)] + RenderLinks(links);
    IsAtSlice(ts, 0, ts);
    assert ts[0..|ts|] == ts;
    assert |ts| == 1 + |RenderLinks(links)|;
    ChainNestsRight(ts, 0, first, links);
    if FoldRight(Value(first), links).Some? {
      assert LibParse.TermLoop(ts, FoldRight(Value(first), links).value, |ts|) == Some((FoldRight(Value(first), links).value, |ts|));
    }
    LibParseIntended.ChainFoldsLeft(ts, 0, first, links);
    if FoldLeft(Value(first), links).Some? {
      assert LibParseIntended.TermLoop(ts, FoldLeft(Value(first), links).value, |ts|) == Some((FoldLeft(Value(first), links).value, |ts|));
    }
  }

  /** On text that reads as numbers joined by `*` and `/`, `evaluate`
      groups the chain to the right, and the corrected `evaluate` groups it
      to the left, as ordinary arithmetic does. */
  lemma EvaluatesChain(s: string, first: Lexeme, links: seq<(MulOp, Lexeme)>)
    requires Tokenize(s) == Ok([Number(first)] + RenderLinks(links))
    ensures Evaluate(s) == Answer(FoldRight(Value(first), links))
    ensures EvaluateIntended(s) == Answer(FoldLeft(Value(first), links))
  {
    ChainChecked(first, links);
    ChainParsed(first, links);
  }

  /** `8 / 4 / 2`: 4 as written, 1 when corrected. */
  lemma EightOverFourOverTwoEvaluated(s: string)
    requires Tokenize(s) == Ok([Number("8"), Divide, Number("4"), Divide, Number("2")])
    ensures Evaluate(s) == Ok(4.0)
    ensures EvaluateIntended(s) == Ok(1.0)
  {
    var ts := [Number("8"), Divide, Number("4"), Divide, Number("2")];
    assert MatchParenthesis(ts) == None;
    Insertion.PairFreeUnchanged(ts, RightParen, LeftParen, Multiply);
    LibParse.EightOverFourOverTwo();
    LibParseIntended.EightOverFourOverTwo();
  }
}
