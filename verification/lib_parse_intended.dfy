/** The evidently intended evaluator of src/lib.rs. It differs from
    `LibParse` in one place: the loop of `parse_factor` reads its right
    operand with `parse_primary`, so a chain of `*` and `/` folds to the left
    like the chain of `+` and `-` does. */
module LibParseIntended {
  import opened Wrappers
  import opened Lexemes
  import opened LibTokenize
  import opened LibParse

  function ParseExpr(ts: seq<Token>, pos: nat): (r: Option<(real, nat)>)
    requires pos <= |ts|
    ensures r.Some? ==> pos < r.value.1 <= |ts|
    decreases |ts| - pos, 5
  {
    ParseTerm(ts, pos)
  }

  function ParseTerm(ts: seq<Token>, pos: nat): (r: Option<(real, nat)>)
    requires pos <= |ts|
    ensures r.Some? ==> pos < r.value.1 <= |ts|
    decreases |ts| - pos, 4
  {
    match ParseFactor(ts, pos)
    case None => None
    case Some((sum, p)) => TermLoop(ts, sum, p)
  }

  function TermLoop(ts: seq<Token>, sum: real, pos: nat): (r: Option<(real, nat)>)
    requires pos <= |ts|
    ensures r.Some? ==> pos <= r.value.1 <= |ts|
    decreases |ts| - pos, 3
  {
    if pos < |ts| && (ts[pos] == Plus || ts[pos] == Minus) then
      match ParseFactor(ts, pos + 1)
      case None => None
      case Some((factor, p)) =>
        TermLoop(ts, if ts[pos] == Plus then sum + factor else sum - factor, p)
    else
      Some((sum, pos))
  }

  function ParseFactor(ts: seq<Token>, pos: nat): (r: Option<(real, nat)>)
    requires pos <= |ts|
    ensures r.Some? ==> pos < r.value.1 <= |ts|
    decreases |ts| - pos, 2
  {
    match ParsePrimary(ts, pos)
    case None => None
    case Some((product, p)) => FactorLoop(ts, product, p)
  }

  /** The corrected loop: the operand after `*` or `/` is one primary. */
  function FactorLoop(ts: seq<Token>, product: real, pos: nat): (r: Option<(real, nat)>)
    requires pos <= |ts|
    ensures r.Some? ==> pos <= r.value.1 <= |ts|
    decreases |ts| - pos, 1
  {
    if pos < |ts| && (ts[pos] == Multiply || ts[pos] == Divide) then
      match ParsePrimary(ts, pos + 1)
      case None => None
      case Some((operand, p)) =>
        if ts[pos] == Multiply then FactorLoop(ts, Times(product, operand), p)
        else if operand == 0.0 then None
        else FactorLoop(ts, Quotient(product, operand), p)
    else
      Some((product, pos))
  }

  function ParsePrimary(ts: seq<Token>, pos: nat): (r: Option<(real, nat)>)
    requires pos <= |ts|
    ensures r.Some? ==> pos < r.value.1 <= |ts|
    ensures pos == |ts| ==> r.None?
    ensures pos < |ts| && !ts[pos].Number? && ts[pos] != LeftParen ==> r.None?
    ensures pos < |ts| && ts[pos].Number? ==> r == Some((Value(ts[pos].lexeme), pos + 1))
    ensures pos < |ts| && ts[pos] == LeftParen && r.Some? ==> ts[r.value.1 - 1] == RightParen
    ensures pos < |ts| && ts[pos] == LeftParen ==>
      (r.Some? <==> ParseExpr(ts, pos + 1).Some? && ParseExpr(ts, pos + 1).value.1 < |ts|
                    && ts[ParseExpr(ts, pos + 1).value.1] == RightParen)
    ensures pos < |ts| && ts[pos] == LeftParen && r.Some? ==>
      r.value == (ParseExpr(ts, pos + 1).value.0, ParseExpr(ts, pos + 1).value.1 + 1)
    decreases |ts| - pos, 0
  {
    if pos == |ts| then None
    else
      match ts[pos]
      case Number(lex) => Some((Value(lex), pos + 1))
      case LeftParen =>
        (match ParseExpr(ts, pos + 1)
         case None => None
         case Some((inner, p)) => if p < |ts| && ts[p] == RightParen then Some((inner, p + 1)) else None)
      case _ => None
  }

  /** One turn of the corrected loop over a number operand. */
  lemma FactorLoopStep(ts: seq<Token>, acc: real, pos: nat, op: MulOp, lex: Lexeme)
    requires pos + 1 < |ts| && ts[pos] == MulToken(op) && ts[pos + 1] == Number(lex)
    ensures FactorLoop(ts, acc, pos)
         == if Combine(op, acc, Value(lex)).None? then None
            else FactorLoop(ts, Combine(op, acc, Value(lex)).value, pos + 2)
  {
    assert ParsePrimary(ts, pos + 1) == Some((Value(lex), pos + 2));
    if op == Mul {
      assert ts[pos] == Multiply;
    } else {
      assert ts[pos] == Divide && ts[pos] != Multiply;
    }
  }

  /** The corrected loop folds a chain of `*` and `/` to the left. */
  lemma {:induction false} FactorLoopFoldsLeft(ts: seq<Token>, acc: real, pos: nat, links: seq<(MulOp, Lexeme)>, end: nat)
    requires IsAt(ts, pos, RenderLinks(links)) && end == pos + |RenderLinks(links)| && EndsProduct(ts, end)
    ensures FactorLoop(ts, acc, pos) == At(FoldLeft(acc, links), end)
    decreases |links|
  {
    if |links| > 0 {
      var (op, lex) := links[0];
      var tail := RenderLinks(links[1..]);
      assert RenderLinks(links) == [MulToken(op)] + ([Number(lex)] + tail);
      IsAtCons(ts, pos, MulToken(op), [Number(lex)] + tail);
      IsAtCons(ts, pos + 1, Number(lex), tail);
      FactorLoopStep(ts, acc, pos, op, lex);
      if Combine(op, acc, Value(lex)).Some? {
        FactorLoopFoldsLeft(ts, Combine(op, acc, Value(lex)).value, pos + 2, links[1..], end);
      }
    }
  }

  /** Every chain of `*` and `/` between numbers is read as the left fold of
      its operators, each applied to the value so far and the next number. */
  lemma ChainFoldsLeft(ts: seq<Token>, pos: nat, first: Lexeme, links: seq<(MulOp, Lexeme)>)
    requires IsAt(ts, pos, [Number(first)] + RenderLinks(links))
    requires EndsProduct(ts, pos + 1 + |RenderLinks(links)|)
    ensures ParseFactor(ts, pos) == At(FoldLeft(Value(first), links), pos + 1 + |RenderLinks(links)|)
  {
    IsAtCons(ts, pos, Number(first), RenderLinks(links));
    FactorLoopFoldsLeft(ts, Value(first), pos + 1, links, pos + 1 + |RenderLinks(links)|);
  }

  /** `a / b / c` is `(a / b) / c`. */
  lemma DivisionFoldsLeft(a: Lexeme, b: Lexeme, c: Lexeme)
    requires Value(b) != 0.0 && Value(c) != 0.0
    ensures ParseExpr([Number(a), Divide, Number(b), Divide, Number(c)], 0)
         == Some(((Value(a) / Value(b)) / Value(c), 5))
  {
    var ts := [Number(a), Divide, Number(b), Divide, Number(c)];
    var links := [(Div, b), (Div, c)];
    assert RenderLinks(links[1..]) == [Divide, Number(c)];
    assert RenderLinks(links) == [Divide, Number(b), Divide, Number(c)];
    assert ts[0..5] == [Number(a)] + RenderLinks(links);
    IsAtSlice(ts, 0, [Number(a)] + RenderLinks(links));
    ChainFoldsLeft(ts, 0, a, links);
    var x, y, z := Value(a), Value(b), Value(c);
    assert FoldLeft(Quotient(x, y), links[1..]) == Some(Quotient(x, y) / z);
    assert ParseTerm(ts, 0) == TermLoop(ts, (x / y) / z, 5);
  }

  /** `8 / 4 / 2` is 1. */
  lemma EightOverFourOverTwo()
    ensures ParseExpr([Number("8"), Divide, Number("4"), Divide, Number("2")], 0) == Some((1.0, 5))
  {
    SmallIntegers();
    DivisionFoldsLeft("8", "4", "2");
  }

  /** A number in parentheses reads as its value, three tokens on. */
  lemma GroupOfNumber(ts: seq<Token>, pos: nat, lex: Lexeme)
    requires pos + 2 < |ts| && ts[pos] == LeftParen && ts[pos + 1] == Number(lex) && ts[pos + 2] == RightParen
    ensures ParsePrimary(ts, pos) == Some((Value(lex), pos + 3))
  {
    assert ParsePrimary(ts, pos + 1) == Some((Value(lex), pos + 2));
    assert FactorLoop(ts, Value(lex), pos + 2) == Some((Value(lex), pos + 2));
    assert ParseFactor(ts, pos + 1) == Some((Value(lex), pos + 2));
    assert TermLoop(ts, Value(lex), pos + 2) == Some((Value(lex), pos + 2));
    assert ParseTerm(ts, pos + 1) == Some((Value(lex), pos + 2));
  }

  /** `* (n)` multiplies the running product by the value of `n`. */
  lemma FactorLoopTimesGroup(ts: seq<Token>, acc: real, pos: nat, lex: Lexeme)
    requires pos + 3 < |ts| && ts[pos] == Multiply
    requires ts[pos + 1] == LeftParen && ts[pos + 2] == Number(lex) && ts[pos + 3] == RightParen
    ensures FactorLoop(ts, acc, pos) == FactorLoop(ts, acc * Value(lex), pos + 4)
  {
    GroupOfNumber(ts, pos + 1, lex);
    assert Times(acc, Value(lex)) == acc * Value(lex);
  }
}
