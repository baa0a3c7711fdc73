/** The recursive-descent evaluator of src/lib.rs: `parse_expr`,
    `parse_term`, `parse_factor` and `parse_primary`. The shared cursor
    `pos: &mut usize` becomes an explicit position passed in and returned:
    each function answers `Some((value, new position))`, or `None` where the
    source panics or divides by zero. */
module LibParse {
  import opened Wrappers
  import opened Lexemes
  import opened LibTokenize

  /** `parse_expr`: the additive level. */
  function ParseExpr(ts: seq<Token>, pos: nat): (r: Option<(real, nat)>)
    requires pos <= |ts|
    ensures r.Some? ==> pos < r.value.1 <= |ts|
    decreases |ts| - pos, 5
  {
    ParseTerm(ts, pos)
  }

  /** `parse_term`: one factor, then the `while` loop over `+` and `-`. */
  function ParseTerm(ts: seq<Token>, pos: nat): (r: Option<(real, nat)>)
    requires pos <= |ts|
    ensures r.Some? ==> pos < r.value.1 <= |ts|
    decreases |ts| - pos, 4
  {
    match ParseFactor(ts, pos)
    case None => None
    case Some((sum, p)) => TermLoop(ts, sum, p)
  }

  /** The `while` loop of `parse_term`, entered with the running `sum`: while
      the cursor is on `+` or `-`, consume it and one factor and fold it in. */
  function TermLoop(ts: seq<Token>, sum: real, pos: nat): (r: Option<(real, nat)>)
    requires pos <= |ts|
    ensures r.Some? ==> pos <= r.value.1 <= |ts|
    decreases |ts| - pos, 3
  {
    if pos < |ts| && (ts[pos] == Plus || ts[pos] == Minus) then
      match ParseFactor(ts, pos + 1)
      case None => None
      case Some((factor, p)) =>
        TermLoop(ts, if ts[pos] == Plus then sum + factor else sum - factor, p)
    else
      Some((sum, pos))
  }

  /** `parse_factor`: one primary, then the `while` loop over `*` and `/`. */
  function ParseFactor(ts: seq<Token>, pos: nat): (r: Option<(real, nat)>)
    requires pos <= |ts|
    ensures r.Some? ==> pos < r.value.1 <= |ts|
    decreases |ts| - pos, 2
  {
    match ParsePrimary(ts, pos)
    case None => None
    case Some((product, p)) => FactorLoop(ts, product, p)
  }

  /** The `while` loop of `parse_factor`. Its right operand is read by a
      recursive `parse_factor`, not `parse_primary`, so a chain of `*` and
      `/` groups to the right. A zero divisor gives infinity or NaN in the
      source; here it is a failure. */
  function FactorLoop(ts: seq<Token>, product: real, pos: nat): (r: Option<(real, nat)>)
    requires pos <= |ts|
    ensures r.Some? ==> pos <= r.value.1 <= |ts|
    decreases |ts| - pos, 1
  {
    if pos < |ts| && (ts[pos] == Multiply || ts[pos] == Divide) then
      match ParseFactor(ts, pos + 1)
      case None => None
      case Some((operand, p)) =>
        if ts[pos] == Multiply then FactorLoop(ts, Times(product, operand), p)
        else if operand == 0.0 then None
        else FactorLoop(ts, Quotient(product, operand), p)
    else
      Some((product, pos))
  }

  /** Real multiplication, named so that the solver treats the product as a
      term rather than reasoning about it nonlinearly. */
  function Times(x: real, y: real): real { x * y }

  /** Real division by a non-zero divisor, named for the same reason. */
  function Quotient(x: real, y: real): real
    requires y != 0.0
  {
    x / y
  }

  /** `parse_primary`: a number, or a parenthesised expression. It fails
      (panics in the source) when the cursor is past the end, when the token
      is neither a number nor `(`, and when the `)` is missing. */
  function ParsePrimary(ts: seq<Token>, pos: nat): (r: Option<(real, nat)>)
    requires pos <= |ts|
    ensures r.Some? ==> pos < r.value.1 <= |ts|
    ensures pos == |ts| ==> r.None?
    ensures pos < |ts| && !ts[pos].Number? && ts[pos] != LeftParen ==> r.None?
    ensures pos < |ts| && ts[pos].Number? ==> r == Some((Value(ts[pos].lexeme), pos + 1))
    ensures pos < |ts| && ts[pos] == LeftParen && r.Some? ==> ts[r.value.1 - 1] == RightParen
    ensures pos < |ts| && ts[pos] == LeftParen ==>
      (r.Some? <==> ParseExpr(ts, pos + 1).Some? && ParseExpr(ts, pos + 1).value.1 < |ts|
                    && ts[ParseExpr(ts, pos + 1).value.1] == RightParen)
    ensures pos < |ts| && ts[pos] == LeftParen && r.Some? ==>
      r.value == (ParseExpr(ts, pos + 1).value.0, ParseExpr(ts, pos + 1).value.1 + 1)
    decreases |ts| - pos, 0
  {
    if pos == |ts| then None
    else
      match ts[pos]
      case Number(lex) => Some((Value(lex), pos + 1))
      case LeftParen =>
        (match ParseExpr(ts, pos + 1)
         case None => None
         case Some((inner, p)) => if p < |ts| && ts[p] == RightParen then Some((inner, p + 1)) else None)
      case _ => None
  }

  // ----- An independent reference: expression trees of the grammar -----

  datatype AddOp = Add | Sub
  datatype MulOp = Mul | Div

  /** A sum is a product followed by a chain of `+`/`-` products. */
  datatype Sum = Sum(first: Product, rest: SumTail)
  datatype SumTail = End | Then(op: AddOp, operand: Product, next: SumTail)
  /** A product is an atom, possibly applied to a nested product on its right. */
  datatype Product = Single(atom: Atom) | Apply(left: Atom, op: MulOp, right: Product)
  datatype Atom = Num(lexeme: Lexeme) | Group(inner: Sum)

  /** One `*` or `/` step; a zero divisor has no value. */
  function Combine(op: MulOp, x: real, y: real): Option<real> {
    if op == Mul then Some(Times(x, y)) else if y == 0.0 then None else Some(Quotient(x, y))
  }

  /** One `+` or `-` step. */
  function Accumulate(op: AddOp, x: real, y: real): real {
    if op == Add then x + y else x - y
  }

  function AddToken(op: AddOp): Token {
    if op == Add then Plus else Minus
  }

  function MulToken(op: MulOp): Token {
    if op == Mul then Multiply else Divide
  }

  function RenderSum(e: Sum): seq<Token> {
    RenderProduct(e.first) + RenderTail(e.rest)
  }

  function RenderTail(t: SumTail): seq<Token> {
    match t
    case End => []
    case Then(op, p, next) => [AddToken(op)] + RenderProduct(p) + RenderTail(next)
  }

  function RenderProduct(p: Product): seq<Token> {
    match p
    case Single(a) => RenderAtom(a)
    case Apply(a, op, r) => RenderAtom(a) + [MulToken(op)] + RenderProduct(r)
  }

  function RenderAtom(a: Atom): seq<Token> {
    match a
    case Num(lex) => [Number(lex)]
    case Group(s) => [LeftParen] + RenderSum(s) + [RightParen]
  }

  /** The value of a tree: sums fold to the left, a product applies its
      atom to the value of the product on its right, and dividing by zero
      has no value. */
  function EvalSum(e: Sum): Option<real>
    decreases e
  {
    match EvalProduct(e.first)
    case None => None
    case Some(v) => EvalTail(v, e.rest)
  }

  function EvalTail(acc: real, t: SumTail): Option<real>
    decreases t
  {
    match t
    case End => Some(acc)
    case Then(op, p, next) =>
      match EvalProduct(p)
      case None => None
      case Some(v) => EvalTail(Accumulate(op, acc, v), next)
  }

  function EvalProduct(p: Product): Option<real>
    decreases p
  {
    match p
    case Single(a) => EvalAtom(a)
    case Apply(a, op, r) =>
      if EvalAtom(a).None? || EvalProduct(r).None? then None
      else Combine(op, EvalAtom(a).value, EvalProduct(r).value)
  }

  function EvalAtom(a: Atom): Option<real>
    decreases a
  {
    match a
    case Num(lex) => Some(Value(lex))
    case Group(s) => EvalSum(s)
  }

  /** A value paired with the cursor position after it. */
  function At(v: Option<real>, pos: nat): Option<(real, nat)> {
    match v
    case None => None
    case Some(x) => Some((x, pos))
  }

  /** `part` occurs in `ts` at `pos`, read token by token. */
  predicate IsAt(ts: seq<Token>, pos: nat, part: seq<Token>)
    decreases |part|
  {
    pos + |part| <= |ts| && (|part| == 0 || (ts[pos] == part[0] && IsAt(ts, pos + 1, part[1..])))
  }

  /** `IsAt` is the slice of `ts` at `pos` being `part`. */
  lemma {:induction false} IsAtSlice(ts: seq<Token>, pos: nat, part: seq<Token>)
    ensures IsAt(ts, pos, part) <==> pos + |part| <= |ts| && ts[pos..pos + |part|] == part
    decreases |part|
  {
    if |part| > 0 && pos + |part| <= |ts| {
      IsAtSlice(ts, pos + 1, part[1..]);
      var s := ts[pos..pos + |part|];
      assert s == [ts[pos]] + ts[pos + 1..pos + |part|];
      if s == part {
        assert ts[pos + 1..pos + 1 + |part[1..]|] == part[1..];
      }
    }
  }

  /** At `k` the multiplicative loop stops: no `*` or `/` there. */
  predicate EndsProduct(ts: seq<Token>, k: nat) {
    k >= |ts| || (ts[k] != Multiply && ts[k] != Divide)
  }

  /** At `k` both loops stop: no binary operator there. */
  predicate EndsSum(ts: seq<Token>, k: nat) {
    EndsProduct(ts, k) && (k >= |ts| || (ts[k] != Plus && ts[k] != Minus))
  }

  lemma IsAtSplit(ts: seq<Token>, pos: nat, a: seq<Token>, b: seq<Token>)
    requires IsAt(ts, pos, a + b)
    ensures IsAt(ts, pos, a) && IsAt(ts, pos + |a|, b)
  {
    IsAtSlice(ts, pos, a + b);
    IsAtSlice(ts, pos, a);
    IsAtSlice(ts, pos + |a|, b);
    assert ts[pos..pos + |a|] == (a + b)[..|a|];
    assert ts[pos + |a|..pos + |a| + |b|] == (a + b)[|a|..];
  }

  lemma IsAtCons(ts: seq<Token>, pos: nat, x: Token, a: seq<Token>)
    requires IsAt(ts, pos, [x] + a)
    ensures pos < |ts| && ts[pos] == x && IsAt(ts, pos + 1, a)
  {
    assert ([x] + a)[1..] == a;
  }

  lemma IsAtHead(ts: seq<Token>, pos: nat, a: seq<Token>)
    requires IsAt(ts, pos, a) && |a| > 0
    ensures ts[pos] == a[0]
  {
  }

  /** Parsing the rendering of a tree, followed by anything that is not a
      binary operator, consumes exactly that rendering and yields the tree's
      value: the parser evaluates the grammar's trees correctly. */
  lemma ParseSumSound(ts: seq<Token>, pos: nat, e: Sum)
    requires IsAt(ts, pos, RenderSum(e)) && EndsSum(ts, pos + |RenderSum(e)|)
    ensures ParseExpr(ts, pos) == At(EvalSum(e), pos + |RenderSum(e)|)
  {
    SumSound(ts, pos, e, pos + |RenderSum(e)|);
  }

  // The proof follows the tree. Each lemma is told where the rendering ends
  // (`end`), so that the facts about that position pass from lemma to lemma
  // unchanged.

  lemma {:induction false} SumSound(ts: seq<Token>, pos: nat, e: Sum, end: nat)
    requires IsAt(ts, pos, RenderSum(e)) && end == pos + |RenderSum(e)| && EndsSum(ts, end)
    ensures ParseExpr(ts, pos) == At(EvalSum(e), end)
    decreases |RenderSum(e)|, 3
  {
    var rp := RenderProduct(e.first);
    var rt := RenderTail(e.rest);
    var mid := pos + |rp|;
    assert RenderSum(e) == rp + rt;
    IsAtSplit(ts, pos, rp, rt);
    TailStartEndsProduct(ts, mid, e.rest, end);
    ProductSound(ts, pos, e.first, mid);
    match EvalProduct(e.first)
    case None =>
    case Some(v) =>
      TailSound(ts, mid, v, e.rest, end);
      assert ParseTerm(ts, pos) == TermLoop(ts, v, mid);
  }

  /** Where a tail begins, the multiplicative loop stops. */
  lemma TailStartEndsProduct(ts: seq<Token>, pos: nat, t: SumTail, end: nat)
    requires IsAt(ts, pos, RenderTail(t)) && end == pos + |RenderTail(t)| && EndsSum(ts, end)
    ensures EndsProduct(ts, pos)
  {
    if t.Then? {
      IsAtHead(ts, pos, RenderTail(t));
    }
  }

  lemma {:induction false} TailSound(ts: seq<Token>, pos: nat, acc: real, t: SumTail, end: nat)
    requires IsAt(ts, pos, RenderTail(t)) && end == pos + |RenderTail(t)| && EndsSum(ts, end)
    ensures TermLoop(ts, acc, pos) == At(EvalTail(acc, t), end)
    decreases |RenderTail(t)|, 2
  {
    match t
    case End =>
    case Then(op, p, next) =>
      var mid := ThenShape(ts, pos, op, p, next, end);
      match EvalProduct(p)
      case None =>
        TermLoopStops(ts, acc, pos, op);
      case Some(v) =>
        TermLoopStep(ts, acc, pos, op, v, mid);
        TailSound(ts, mid, Accumulate(op, acc, v), next, end);
  }

  /** The rendering of a non-empty tail read by the parser: its operator,
      then a product whose value the multiplicative loop computes, then the
      rest of the tail from `mid` on. */
  lemma ThenShape(ts: seq<Token>, pos: nat, op: AddOp, p: Product, next: SumTail, end: nat) returns (mid: nat)
    requires IsAt(ts, pos, RenderTail(Then(op, p, next))) && end == pos + |RenderTail(Then(op, p, next))|
    requires EndsSum(ts, end)
    ensures pos < |ts| && ts[pos] == AddToken(op)
    ensures ParseFactor(ts, pos + 1) == At(EvalProduct(p), mid)
    ensures IsAt(ts, mid, RenderTail(next)) && end == mid + |RenderTail(next)|
    ensures |RenderTail(next)| < |RenderTail(Then(op, p, next))|
    decreases |RenderTail(Then(op, p, next))|, 1
  {
    var rp := RenderProduct(p);
    var rn := RenderTail(next);
    assert RenderTail(Then(op, p, next)) == [AddToken(op)] + (rp + rn);
    IsAtCons(ts, pos, AddToken(op), rp + rn);
    IsAtSplit(ts, pos + 1, rp, rn);
    mid := pos + 1 + |rp|;
    TailStartEndsProduct(ts, mid, next, end);
    ProductSound(ts, pos + 1, p, mid);
  }

  /** One turn of the additive loop on an operator token whose factor parses. */
  lemma TermLoopStep(ts: seq<Token>, acc: real, pos: nat, op: AddOp, v: real, p: nat)
    requires pos < |ts| && ts[pos] == AddToken(op)
    requires ParseFactor(ts, pos + 1) == Some((v, p))
    ensures TermLoop(ts, acc, pos) == TermLoop(ts, Accumulate(op, acc, v), p)
  {
    assert ts[pos] == Plus <==> op == Add;
  }

  /** The additive loop fails with the factor after its operator. */
  lemma TermLoopStops(ts: seq<Token>, acc: real, pos: nat, op: AddOp)
    requires pos < |ts| && ts[pos] == AddToken(op)
    requires ParseFactor(ts, pos + 1) == None
    ensures TermLoop(ts, acc, pos) == None
  {
    assert ts[pos] == Plus || ts[pos] == Minus;
  }

  /** One turn of the multiplicative loop on an operator token whose factor parses. */
  lemma FactorLoopStep(ts: seq<Token>, acc: real, pos: nat, op: MulOp, v: real, p: nat)
    requires pos < |ts| && ts[pos] == MulToken(op)
    requires ParseFactor(ts, pos + 1) == Some((v, p))
    ensures FactorLoop(ts, acc, pos)
         == if Combine(op, acc, v).None? then None else FactorLoop(ts, Combine(op, acc, v).value, p)
  {
    if op == Mul {
      assert ts[pos] == Multiply;
    } else {
      assert ts[pos] == Divide && ts[pos] != Multiply;
      if v == 0.0 {
        assert FactorLoop(ts, acc, pos) == None;
      } else {
        assert FactorLoop(ts, acc, pos) == FactorLoop(ts, Quotient(acc, v), p);
      }
    }
  }

  lemma {:induction false} ProductSound(ts: seq<Token>, pos: nat, p: Product, end: nat)
    requires IsAt(ts, pos, RenderProduct(p)) && end == pos + |RenderProduct(p)| && EndsProduct(ts, end)
    ensures ParseFactor(ts, pos) == At(EvalProduct(p), end)
    decreases |RenderProduct(p)|, 1
  {
    match p
    case Single(a) =>
      AtomSound(ts, pos, a, end);
      SingleEndsFactor(ts, pos, EvalAtom(a), end);
    case Apply(a, op, r) =>
      var mid := ApplyShape(ts, pos, a, op, r, end);
      AtomSound(ts, pos, a, mid);
      ProductSound(ts, mid + 1, r, end);
      ApplySound(ts, pos, EvalAtom(a), mid, op, EvalProduct(r), end);
  }

  /** A lone primary followed by no `*` or `/` is a whole factor. */
  lemma SingleEndsFactor(ts: seq<Token>, pos: nat, x: Option<real>, end: nat)
    requires pos < end <= |ts| && EndsProduct(ts, end)
    requires ParsePrimary(ts, pos) == At(x, end)
    ensures ParseFactor(ts, pos) == At(x, end)
  {
  }

  /** How the rendering of an applied product lies in the token sequence:
      the atom up to `mid`, the operator at `mid`, the product after it. */
  lemma ApplyShape(ts: seq<Token>, pos: nat, a: Atom, op: MulOp, r: Product, end: nat) returns (mid: nat)
    requires IsAt(ts, pos, RenderProduct(Apply(a, op, r))) && end == pos + |RenderProduct(Apply(a, op, r))|
    ensures IsAt(ts, pos, RenderAtom(a)) && mid == pos + |RenderAtom(a)|
    ensures mid < |ts| && ts[mid] == MulToken(op)
    ensures IsAt(ts, mid + 1, RenderProduct(r)) && end == mid + 1 + |RenderProduct(r)|
    ensures |RenderAtom(a)| < |RenderProduct(Apply(a, op, r))|
    ensures |RenderProduct(r)| < |RenderProduct(Apply(a, op, r))|
  {
    var ra := RenderAtom(a);
    var rr := RenderProduct(r);
    assert RenderProduct(Apply(a, op, r)) == ra + ([MulToken(op)] + rr);
    IsAtSplit(ts, pos, ra, [MulToken(op)] + rr);
    mid := pos + |ra|;
    IsAtCons(ts, mid, MulToken(op), rr);
  }

  /** The multiplicative loop after an atom: the operator at `mid`, then the
      factor up to `end`. */
  lemma ApplySound(ts: seq<Token>, pos: nat, x: Option<real>, mid: nat, op: MulOp, y: Option<real>, end: nat)
    requires pos < mid < end <= |ts| && ts[mid] == MulToken(op)
    requires ParsePrimary(ts, pos) == At(x, mid)
    requires ParseFactor(ts, mid + 1) == At(y, end)
    requires EndsProduct(ts, end)
    ensures ParseFactor(ts, pos) == if x.None? || y.None? then None else At(Combine(op, x.value, y.value), end)
  {
    if x.Some? {
      assert ParseFactor(ts, pos) == FactorLoop(ts, x.value, mid);
      if y.Some? {
        FactorLoopStep(ts, x.value, mid, op, y.value, end);
      } else {
        assert ts[mid] == Multiply || ts[mid] == Divide;
      }
    }
  }

  lemma {:induction false} AtomSound(ts: seq<Token>, pos: nat, a: Atom, end: nat)
    requires IsAt(ts, pos, RenderAtom(a)) && end == pos + |RenderAtom(a)|
    ensures ParsePrimary(ts, pos) == At(EvalAtom(a), end)
    decreases |RenderAtom(a)|, 0
  {
    match a
    case Num(lex) =>
      IsAtCons(ts, pos, Number(lex), []);
    case Group(s) =>
      var rs := RenderSum(s);
      assert RenderAtom(a) == [LeftParen] + (rs + [RightParen]);
      IsAtCons(ts, pos, LeftParen, rs + [RightParen]);
      IsAtSplit(ts, pos + 1, rs, [RightParen]);
      var close := pos + 1 + |rs|;
      IsAtCons(ts, close, RightParen, []);
      SumSound(ts, pos + 1, s, close);
  }

  /** The whole token sequence of a tree evaluates to the tree's value. */
  lemma ParseRendering(e: Sum)
    ensures ParseExpr(RenderSum(e), 0) == At(EvalSum(e), |RenderSum(e)|)
  {
    var ts := RenderSum(e);
    assert ts[0..|ts|] == ts;
    IsAtSlice(ts, 0, ts);
    ParseSumSound(ts, 0, e);
  }

  /** `a - b - c` is `(a - b) - c`: the additive chain folds to the left. */
  lemma SubtractionFoldsLeft(a: Lexeme, b: Lexeme, c: Lexeme)
    ensures ParseExpr([Number(a), Minus, Number(b), Minus, Number(c)], 0)
         == Some(((Value(a) - Value(b)) - Value(c), 5))
  {
    var e := Sum(Single(Num(a)), Then(Sub, Single(Num(b)), Then(Sub, Single(Num(c)), End)));
    assert RenderProduct(Single(Num(c))) == [Number(c)];
    assert RenderProduct(Single(Num(b))) == [Number(b)];
    assert RenderProduct(Single(Num(a))) == [Number(a)];
    assert RenderTail(End) == [];
    assert RenderTail(Then(Sub, Single(Num(c)), End)) == [Minus, Number(c)];
    assert RenderTail(e.rest) == [Minus, Number(b), Minus, Number(c)];
    assert RenderSum(e) == [Number(a), Minus, Number(b), Minus, Number(c)];
    var x, y, z := Value(a), Value(b), Value(c);
    assert EvalAtom(Num(c)) == Some(z) && EvalProduct(Single(Num(c))) == Some(z);
    assert EvalAtom(Num(b)) == Some(y) && EvalProduct(Single(Num(b))) == Some(y);
    assert EvalAtom(Num(a)) == Some(x) && EvalProduct(Single(Num(a))) == Some(x);
    assert EvalTail((x - y) - z, End) == Some((x - y) - z);
    assert EvalTail(x - y, Then(Sub, Single(Num(c)), End)) == Some((x - y) - z);
    assert EvalTail(x, e.rest) == Some((x - y) - z);
    assert EvalSum(e) == Some((x - y) - z);
    ParseRendering(e);
  }

  /** `a / b / c` is `a / (b / c)`: the right operand of `/` is a whole
      factor, so the multiplicative chain groups to the right. */
  lemma DivisionNestsRight(a: Lexeme, b: Lexeme, c: Lexeme)
    requires Value(b) != 0.0 && Value(c) != 0.0
    ensures ParseExpr([Number(a), Divide, Number(b), Divide, Number(c)], 0)
         == Some((Value(a) / (Value(b) / Value(c)), 5))
  {
    var e := Sum(Apply(Num(a), Div, Apply(Num(b), Div, Single(Num(c)))), End);
    assert RenderProduct(Single(Num(c))) == [Number(c)];
    assert RenderAtom(Num(b)) == [Number(b)];
    assert RenderAtom(Num(a)) == [Number(a)];
    assert RenderTail(End) == [];
    assert RenderProduct(Apply(Num(b), Div, Single(Num(c)))) == [Number(b), Divide, Number(c)];
    assert RenderProduct(e.first) == [Number(a), Divide, Number(b), Divide, Number(c)];
    assert RenderSum(e) == [Number(a), Divide, Number(b), Divide, Number(c)];
    var x, y, z := Value(a), Value(b), Value(c);
    assert EvalAtom(Num(c)) == Some(z) && EvalProduct(Single(Num(c))) == Some(z);
    assert EvalAtom(Num(b)) == Some(y) && EvalAtom(Num(a)) == Some(x);
    assert Quotient(y, z) != 0.0;
    assert EvalProduct(Apply(Num(b), Div, Single(Num(c)))) == Some(Quotient(y, z));
    assert EvalProduct(e.first) == Some(Quotient(x, Quotient(y, z)));
    assert EvalSum(e) == Some(x / (y / z));
    ParseRendering(e);
  }

  // ----- Flat chains of `*` and `/` between numbers -----

  /** The tokens of `op1 n1 op2 n2 ...` after a leading number. */
  function RenderLinks(links: seq<(MulOp, Lexeme)>): seq<Token> {
    if |links| == 0 then []
    else [MulToken(links[0].0), Number(links[0].1)] + RenderLinks(links[1..])
  }

  /** `x op1 (n1 op2 (n2 ...))`: the chain grouped to the right. */
  function FoldRight(x: real, links: seq<(MulOp, Lexeme)>): Option<real>
    decreases |links|
  {
    if |links| == 0 then Some(x)
    else
      match FoldRight(Value(links[0].1), links[1..])
      case None => None
      case Some(y) => Combine(links[0].0, x, y)
  }

  /** `((x op1 n1) op2 n2) ...`: the chain folded to the left, as arithmetic
      convention reads it. */
  function FoldLeft(x: real, links: seq<(MulOp, Lexeme)>): Option<real>
    decreases |links|
  {
    if |links| == 0 then Some(x)
    else
      match Combine(links[0].0, x, Value(links[0].1))
      case None => None
      case Some(y) => FoldLeft(y, links[1..])
  }

  /** The right-nested tree of a chain. */
  function ChainTree(first: Lexeme, links: seq<(MulOp, Lexeme)>): Product
    decreases |links|
  {
    if |links| == 0 then Single(Num(first))
    else Apply(Num(first), links[0].0, ChainTree(links[0].1, links[1..]))
  }

  lemma {:induction false} ChainTreeShape(first: Lexeme, links: seq<(MulOp, Lexeme)>)
    ensures RenderProduct(ChainTree(first, links)) == [Number(first)] + RenderLinks(links)
    ensures EvalProduct(ChainTree(first, links)) == FoldRight(Value(first), links)
    decreases |links|
  {
    if |links| > 0 {
      ChainTreeShape(links[0].1, links[1..]);
      assert RenderAtom(Num(first)) == [Number(first)];
    }
  }

  /** Every chain of `*` and `/` between numbers groups to the right: the
      right operand of each operator is the value of the whole rest of the
      chain. */
  lemma ChainNestsRight(ts: seq<Token>, pos: nat, first: Lexeme, links: seq<(MulOp, Lexeme)>)
    requires IsAt(ts, pos, [Number(first)] + RenderLinks(links))
    requires EndsProduct(ts, pos + 1 + |RenderLinks(links)|)
    ensures ParseFactor(ts, pos) == At(FoldRight(Value(first), links), pos + 1 + |RenderLinks(links)|)
  {
    ChainTreeShape(first, links);
    ProductSound(ts, pos, ChainTree(first, links), pos + 1 + |RenderLinks(links)|);
  }

  /** The source's `8 / 4 / 2` is 4: `8 / (4 / 2)`. */
  lemma EightOverFourOverTwo()
    ensures ParseExpr([Number("8"), Divide, Number("4"), Divide, Number("2")], 0) == Some((4.0, 5))
  {
    SmallIntegers();
    DivisionNestsRight("8", "4", "2");
  }

  /** The values of the one-digit lexemes used in the examples. */
  lemma SmallIntegers()
    ensures Value("1") == 1.0 && Value("2") == 2.0 && Value("3") == 3.0 && Value("4") == 4.0
    ensures Value("5") == 5.0 && Value("6") == 6.0 && Value("8") == 8.0
  {
    IntegerLexeme("1");
    IntegerLexeme("2");
    IntegerLexeme("3");
    IntegerLexeme("4");
    IntegerLexeme("5");
    IntegerLexeme("6");
    IntegerLexeme("8");
  }
}
