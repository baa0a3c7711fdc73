/** The unit tests of src/lib.rs and further worked examples, stated as
    facts about the model of `evaluate`.

    Each example text is handled in small steps: a lemma reads the text one
    token at a time from the back, a second one states that the text is the
    concatenation those steps built, a third builds the expression tree and
    computes its value, and the example itself only puts them together.
    The solver cannot take a whole literal text in one step, so the steps
    keep each proof small. */
module LibExamples {
  import opened Wrappers
  import opened Lexemes
  import opened LibTokenize
  import opened LibNormalize
  import opened LibParse
  import opened LibEvaluate
  import LibParseIntended
  import Balance
  import Insertion


  lemma ValueOf53()
    ensures Value("53") == 53.0
  {
    assert "53"[..1] == "5";
    assert Mantissa("5") == 5;
    assert Mantissa("53") == 53;
    IntegerLexeme("53");
  }

  lemma ValueOf110()
    ensures Value("110") == 110.0
  {
    assert "110"[..2] == "11";
    assert "110"[..1] == "1";
    assert Mantissa("1") == 1;
    assert Mantissa("11") == 11;
    assert Mantissa("110") == 110;
    IntegerLexeme("110");
  }

  /** `53+110`, read one token at a time from the back. */
  lemma WorksTokens(tail: string, rest: seq<Token>) returns (s: string, ts: seq<Token>)
    requires Tokenize(tail) == Ok(rest)
    requires |tail| == 0 || !IsNumberChar(tail[0])
    ensures Tokenize(s) == Ok(ts)
    ensures ts == [Number("53")] + ([Plus] + ([Number("110")] + rest))
    ensures s == "53" + (['+'] + ("110" + tail))
  {
    var s0, r0 := tail, rest;
    var s1 := "110" + s0;
    TokenizeRun("110", s0);
    var r1 := [Number("110")] + r0;
    assert Tokenize(s1) == Ok(r1);
    var s2 := ['+'] + s1;
    TokenizeChar('+', s1);
    var r2 := [Plus] + r1;
    assert Tokenize(s2) == Ok(r2);
    var s3 := "53" + s2;
    TokenizeRun("53", s2);
    var r3 := [Number("53")] + r2;
    assert Tokenize(s3) == Ok(r3);
    s, ts := s3, r3;
  }

  lemma WorksText()
    ensures "53+110" == "53" + (['+'] + ("110" + ""))
  {
  }

  lemma WorksList()
    ensures [Number("53"), Plus, Number("110")] == [Number("53")] + ([Plus] + ([Number("110")] + []))
  {
  }

  /** The unit test `tokenize_works`: `53+110` is the number 53, a plus sign and the number 110. */
  lemma TokenizeWorks()
    ensures Tokenize("53+110") == Ok([Number("53"), Plus, Number("110")])
    ensures Value("53") == 53.0 && Value("110") == 110.0
  {
    var none: seq<Token> := [];
    var s1, t1 := WorksTokens("", none);
    WorksText();
    WorksList();
    ValueOf53();
    ValueOf110();
  }

  /** `5.3 .110 333.`, read one token at a time from the back, in 2 parts. */
  lemma DecimalTokens1(tail: string, rest: seq<Token>) returns (s: string, ts: seq<Token>)
    requires Tokenize(tail) == Ok(rest)
    requires |tail| == 0 || !IsNumberChar(tail[0])
    ensures Tokenize(s) == Ok(ts)
    ensures |s| > 0 && !IsNumberChar(s[0])
    ensures ts == [Number("333.")] + rest
    ensures s == " " + ("333." + tail)
  {
    var s0, r0 := tail, rest;
    var s1 := "333." + s0;
    TokenizeRun("333.", s0);
    var r1 := [Number("333.")] + r0;
    assert Tokenize(s1) == Ok(r1);
    var s2 := " " + s1;
    TokenizeSpace(s1);
    assert Tokenize(s2) == Ok(r1);
    s, ts := s2, r1;
  }

  lemma DecimalTokens2(tail: string, rest: seq<Token>) returns (s: string, ts: seq<Token>)
    requires Tokenize(tail) == Ok(rest)
    requires |tail| == 0 || !IsNumberChar(tail[0])
    ensures Tokenize(s) == Ok(ts)
    ensures ts == [Number("5.3")] + ([Number(".110")] + rest)
    ensures s == "5.3" + (" " + (".110" + tail))
  {
    var s0, r0 := tail, rest;
    var s1 := ".110" + s0;
    TokenizeRun(".110", s0);
    var r1 := [Number(".110")] + r0;
    assert Tokenize(s1) == Ok(r1);
    var s2 := " " + s1;
    TokenizeSpace(s1);
    assert Tokenize(s2) == Ok(r1);
    var s3 := "5.3" + s2;
    TokenizeRun("5.3", s2);
    var r3 := [Number("5.3")] + r1;
    assert Tokenize(s3) == Ok(r3);
    s, ts := s3, r3;
  }

  lemma DecimalText()
    ensures "5.3 .110 333." == "5.3" + (" " + (".110" + (" " + ("333." + ""))))
  {
  }

  lemma DecimalList()
    ensures [Number("5.3"), Number(".110"), Number("333.")] == [Number("5.3")] + ([Number(".110")] + ([Number("333.")] + []))
  {
  }

  /** The unit test `tokenize_decimal`: the runs `5.3`, `.110` and `333.` are three numbers. */
  lemma TokenizeDecimal()
    ensures Tokenize("5.3 .110 333.") == Ok([Number("5.3"), Number(".110"), Number("333.")])
    ensures Value("5.3") == 5.3 && Value(".110") == 0.11 && Value("333.") == 333.0
  {
    var none: seq<Token> := [];
    var s1, t1 := DecimalTokens1("", none);
    var s2, t2 := DecimalTokens2(s1, t1);
    DecimalText();
    DecimalList();
    DecimalValues();
  }

  /** `30 + 13 * 3`, read one token at a time from the back, in 3 parts. */
  lemma PrecedenceTokens1(tail: string, rest: seq<Token>) returns (s: string, ts: seq<Token>)
    requires Tokenize(tail) == Ok(rest)
    requires |tail| == 0 || !IsNumberChar(tail[0])
    ensures Tokenize(s) == Ok(ts)
    ensures |s| > 0 && !IsNumberChar(s[0])
    ensures ts == [Multiply] + ([Number("3")] + rest)
    ensures s == ['*'] + (" " + ("3" + tail))
  {
    var s0, r0 := tail, rest;
    var s1 := "3" + s0;
    TokenizeRun("3", s0);
    var r1 := [Number("3")] + r0;
    assert Tokenize(s1) == Ok(r1);
    var s2 := " " + s1;
    TokenizeSpace(s1);
    assert Tokenize(s2) == Ok(r1);
    var s3 := ['*'] + s2;
    TokenizeChar('*', s2);
    var r3 := [Multiply] + r1;
    assert Tokenize(s3) == Ok(r3);
    s, ts := s3, r3;
  }

  lemma PrecedenceTokens2(tail: string, rest: seq<Token>) returns (s: string, ts: seq<Token>)
    requires Tokenize(tail) == Ok(rest)
    requires |tail| == 0 || !IsNumberChar(tail[0])
    ensures Tokenize(s) == Ok(ts)
    ensures |s| > 0 && !IsNumberChar(s[0])
    ensures ts == [Number("13")] + rest
    ensures s == " " + ("13" + (" " + tail))
  {
    var s0, r0 := tail, rest;
    var s1 := " " + s0;
    TokenizeSpace(s0);
    assert Tokenize(s1) == Ok(r0);
    var s2 := "13" + s1;
    TokenizeRun("13", s1);
    var r2 := [Number("13")] + r0;
    assert Tokenize(s2) == Ok(r2);
    var s3 := " " + s2;
    TokenizeSpace(s2);
    assert Tokenize(s3) == Ok(r2);
    s, ts := s3, r2;
  }

  lemma PrecedenceTokens3(tail: string, rest: seq<Token>) returns (s: string, ts: seq<Token>)
    requires Tokenize(tail) == Ok(rest)
    requires |tail| == 0 || !IsNumberChar(tail[0])
    ensures Tokenize(s) == Ok(ts)
    ensures ts == [Number("30")] + ([Plus] + rest)
    ensures s == "30" + (" " + (['+'] + tail))
  {
    var s0, r0 := tail, rest;
    var s1 := ['+'] + s0;
    TokenizeChar('+', s0);
    var r1 := [Plus] + r0;
    assert Tokenize(s1) == Ok(r1);
    var s2 := " " + s1;
    TokenizeSpace(s1);
    assert Tokenize(s2) == Ok(r1);
    var s3 := "30" + s2;
    TokenizeRun("30", s2);
    var r3 := [Number("30")] + r1;
    assert Tokenize(s3) == Ok(r3);
    s, ts := s3, r3;
  }

  lemma PrecedenceText()
    ensures "30 + 13 * 3" == "30" + (" " + (['+'] + (" " + ("13" + (" " + (['*'] + (" " + ("3" + ""))))))))
  {
  }

  lemma ValueOf3()
    ensures Value("3") == 3.0
  {
    assert Mantissa("3") == 3;
    IntegerLexeme("3");
  }

  lemma ValueOf13()
    ensures Value("13") == 13.0
  {
    assert "13"[..1] == "1";
    assert Mantissa("1") == 1;
    assert Mantissa("13") == 13;
    IntegerLexeme("13");
  }

  lemma ValueOf30()
    ensures Value("30") == 30.0
  {
    assert "30"[..1] == "3";
    assert Mantissa("3") == 3;
    assert Mantissa("30") == 30;
    IntegerLexeme("30");
  }

  lemma PrecedenceRender() returns (e: Sum)
    ensures e == Sum(Single(Num("30")), Then(Add, Apply(Num("13"), Mul, Single(Num("3"))), End))
    ensures RenderSum(e) == [Number("30")] + ([Plus] + ([Number("13")] + ([Multiply] + ([Number("3")] + []))))
  {
    var a1 := Num("30");
    assert RenderAtom(a1) == [Number("30")] + [];
    var p2 := Single(a1);
    assert RenderProduct(p2) == [Number("30")] + [];
    var a3 := Num("13");
    assert RenderAtom(a3) == [Number("13")] + [];
    var a4 := Num("3");
    assert RenderAtom(a4) == [Number("3")] + [];
    var p5 := Single(a4);
    assert RenderProduct(p5) == [Number("3")] + [];
    var p6 := Apply(a3, Mul, p5);
    assert RenderProduct(p6) == [Number("13")] + ([Multiply] + ([Number("3")] + []));
    var t7: SumTail := End;
    assert RenderTail(t7) == [];
    var t8 := Then(Add, p6, t7);
    assert RenderTail(t8) == [Plus] + ([Number("13")] + ([Multiply] + ([Number("3")] + [])));
    var e9 := Sum(p2, t8);
    assert RenderSum(e9) == [Number("30")] + ([Plus] + ([Number("13")] + ([Multiply] + ([Number("3")] + []))));
    e := e9;
  }

  lemma PrecedenceValue(e: Sum)
    requires e == Sum(Single(Num("30")), Then(Add, Apply(Num("13"), Mul, Single(Num("3"))), End))
    ensures EvalSum(e) == Some(69.0)
  {
    ValueOf3();
    ValueOf13();
    ValueOf30();
    var a1 := Num("30");
    assert EvalAtom(a1) == Some(30.0);
    var p2 := Single(a1);
    assert EvalProduct(p2) == Some(30.0);
    var a3 := Num("13");
    assert EvalAtom(a3) == Some(13.0);
    var a4 := Num("3");
    assert EvalAtom(a4) == Some(3.0);
    var p5 := Single(a4);
    assert EvalProduct(p5) == Some(3.0);
    var p6 := Apply(a3, Mul, p5);
    assert EvalProduct(p6) == Some(39.0);
    var t7: SumTail := End;
    var t8 := Then(Add, p6, t7);
    var e9 := Sum(p2, t8);
    assert EvalTail(69.0, t7) == Some(69.0);
    assert EvalTail(30.0, t8) == Some(69.0);
    assert EvalSum(e9) == Some(69.0);
    assert e == e9;
  }

  lemma PrecedenceTree() returns (e: Sum)
    ensures RenderSum(e) == [Number("30")] + ([Plus] + ([Number("13")] + ([Multiply] + ([Number("3")] + []))))
    ensures EvalSum(e) == Some(69.0)
  {
    e := PrecedenceRender();
    PrecedenceValue(e);
  }

  lemma PrecedenceLexed()
    ensures Tokenize("30 + 13 * 3") == Ok([Number("30")] + ([Plus] + ([Number("13")] + ([Multiply] + ([Number("3")] + [])))))
  {
    var none: seq<Token> := [];
    var s1, t1 := PrecedenceTokens1("", none);
    var s2, t2 := PrecedenceTokens2(s1, t1);
    var s3, t3 := PrecedenceTokens3(s2, t2);
    PrecedenceText();
  }

  /** From the unit test `parsing_works`: `30 + 13 * 3` is 69. */
  lemma ParsingWorksPrecedence()
    ensures Evaluate("30 + 13 * 3") == Ok(69.0)
  {
    PrecedenceLexed();
    var e := PrecedenceTree();
    EvaluatesTree("30 + 13 * 3", e);
  }

  /** `30 + (8 + 5) * 3`, read one token at a time from the back, in 5 parts. */
  lemma GroupTimesTokens1(tail: string, rest: seq<Token>) returns (s: string, ts: seq<Token>)
    requires Tokenize(tail) == Ok(rest)
    requires |tail| == 0 || !IsNumberChar(tail[0])
    ensures Tokenize(s) == Ok(ts)
    ensures |s| > 0 && !IsNumberChar(s[0])
    ensures ts == [Number("3")] + rest
    ensures s == " " + ("3" + tail)
  {
    var s0, r0 := tail, rest;
    var s1 := "3" + s0;
    TokenizeRun("3", s0);
    var r1 := [Number("3")] + r0;
    assert Tokenize(s1) == Ok(r1);
    var s2 := " " + s1;
    TokenizeSpace(s1);
    assert Tokenize(s2) == Ok(r1);
    s, ts := s2, r1;
  }

  lemma GroupTimesTokens2(tail: string, rest: seq<Token>) returns (s: string, ts: seq<Token>)
    requires Tokenize(tail) == Ok(rest)
    requires |tail| == 0 || !IsNumberChar(tail[0])
    ensures Tokenize(s) == Ok(ts)
    ensures |s| > 0 && !IsNumberChar(s[0])
    ensures ts == [RightParen] + ([Multiply] + rest)
    ensures s == [')'] + (" " + (['*'] + tail))
  {
    var s0, r0 := tail, rest;
    var s1 := ['*'] + s0;
    TokenizeChar('*', s0);
    var r1 := [Multiply] + r0;
    assert Tokenize(s1) == Ok(r1);
    var s2 := " " + s1;
    TokenizeSpace(s1);
    assert Tokenize(s2) == Ok(r1);
    var s3 := [')'] + s2;
    TokenizeChar(')', s2);
    var r3 := [RightParen] + r1;
    assert Tokenize(s3) == Ok(r3);
    s, ts := s3, r3;
  }

  lemma GroupTimesTokens3(tail: string, rest: seq<Token>) returns (s: string, ts: seq<Token>)
    requires Tokenize(tail) == Ok(rest)
    requires |tail| == 0 || !IsNumberChar(tail[0])
    ensures Tokenize(s) == Ok(ts)
    ensures |s| > 0 && !IsNumberChar(s[0])
    ensures ts == [Plus] + ([Number("5")] + rest)
    ensures s == " " + (['+'] + (" " + ("5" + tail)))
  {
    var s0, r0 := tail, rest;
    var s1 := "5" + s0;
    TokenizeRun("5", s0);
    var r1 := [Number("5")] + r0;
    assert Tokenize(s1) == Ok(r1);
    var s2 := " " + s1;
    TokenizeSpace(s1);
    assert Tokenize(s2) == Ok(r1);
    var s3 := ['+'] + s2;
    TokenizeChar('+', s2);
    var r3 := [Plus] + r1;
    assert Tokenize(s3) == Ok(r3);
    var s4 := " " + s3;
    TokenizeSpace(s3);
    assert Tokenize(s4) == Ok(r3);
    s, ts := s4, r3;
  }

  lemma GroupTimesTokens4(tail: string, rest: seq<Token>) returns (s: string, ts: seq<Token>)
    requires Tokenize(tail) == Ok(rest)
    requires |tail| == 0 || !IsNumberChar(tail[0])
    ensures Tokenize(s) == Ok(ts)
    ensures |s| > 0 && !IsNumberChar(s[0])
    ensures ts == [LeftParen] + ([Number("8")] + rest)
    ensures s == " " + (['('] + ("8" + tail))
  {
    var s0, r0 := tail, rest;
    var s1 := "8" + s0;
    TokenizeRun("8", s0);
    var r1 := [Number("8")] + r0;
    assert Tokenize(s1) == Ok(r1);
    var s2 := ['('] + s1;
    TokenizeChar('(', s1);
    var r2 := [LeftParen] + r1;
    assert Tokenize(s2) == Ok(r2);
    var s3 := " " + s2;
    TokenizeSpace(s2);
    assert Tokenize(s3) == Ok(r2);
    s, ts := s3, r2;
  }

  lemma GroupTimesTokens5(tail: string, rest: seq<Token>) returns (s: string, ts: seq<Token>)
    requires Tokenize(tail) == Ok(rest)
    requires |tail| == 0 || !IsNumberChar(tail[0])
    ensures Tokenize(s) == Ok(ts)
    ensures ts == [Number("30")] + ([Plus] + rest)
    ensures s == "30" + (" " + (['+'] + tail))
  {
    var s0, r0 := tail, rest;
    var s1 := ['+'] + s0;
    TokenizeChar('+', s0);
    var r1 := [Plus] + r0;
    assert Tokenize(s1) == Ok(r1);
    var s2 := " " + s1;
    TokenizeSpace(s1);
    assert Tokenize(s2) == Ok(r1);
    var s3 := "30" + s2;
    TokenizeRun("30", s2);
    var r3 := [Number("30")] + r1;
    assert Tokenize(s3) == Ok(r3);
    s, ts := s3, r3;
  }

  lemma GroupTimesText()
    ensures "30 + (8 + 5) * 3" == "30" + (" " + (['+'] + (" " + (['('] + ("8" + (" " + (['+'] + (" " + ("5" + ([')'] + (" " + (['*'] + (" " + ("3" + ""))))))))))))))
  {
  }

  lemma ValueOf5()
    ensures Value("5") == 5.0
  {
    assert Mantissa("5") == 5;
    IntegerLexeme("5");
  }

  lemma ValueOf8()
    ensures Value("8") == 8.0
  {
    assert Mantissa("8") == 8;
    IntegerLexeme("8");
  }

  lemma GroupTimesRender() returns (e: Sum)
    ensures e == Sum(Single(Num("30")), Then(Add, Apply(Group(Sum(Single(Num("8")), Then(Add, Single(Num("5")), End))), Mul, Single(Num("3"))), End))
    ensures RenderSum(e) == [Number("30")] + ([Plus] + ([LeftParen] + ([Number("8")] + ([Plus] + ([Number("5")] + ([RightParen] + ([Multiply] + ([Number("3")] + []))))))))
  {
    var a1 := Num("30");
    assert RenderAtom(a1) == [Number("30")] + [];
    var p2 := Single(a1);
    assert RenderProduct(p2) == [Number("30")] + [];
    var a3 := Num("8");
    assert RenderAtom(a3) == [Number("8")] + [];
    var p4 := Single(a3);
    assert RenderProduct(p4) == [Number("8")] + [];
    var a5 := Num("5");
    assert RenderAtom(a5) == [Number("5")] + [];
    var p6 := Single(a5);
    assert RenderProduct(p6) == [Number("5")] + [];
    var t7: SumTail := End;
    assert RenderTail(t7) == [];
    var t8 := Then(Add, p6, t7);
    assert RenderTail(t8) == [Plus] + ([Number("5")] + []);
    var e9 := Sum(p4, t8);
    assert RenderSum(e9) == [Number("8")] + ([Plus] + ([Number("5")] + []));
    var a10 := Group(e9);
    assert RenderAtom(a10) == [LeftParen] + ([Number("8")] + ([Plus] + ([Number("5")] + ([RightParen] + []))));
    var a11 := Num("3");
    assert RenderAtom(a11) == [Number("3")] + [];
    var p12 := Single(a11);
    assert RenderProduct(p12) == [Number("3")] + [];
    var p13 := Apply(a10, Mul, p12);
    assert RenderProduct(p13) == [LeftParen] + ([Number("8")] + ([Plus] + ([Number("5")] + ([RightParen] + ([Multiply] + ([Number("3")] + []))))));
    var t14: SumTail := End;
    assert RenderTail(t14) == [];
    var t15 := Then(Add, p13, t14);
    assert RenderTail(t15) == [Plus] + ([LeftParen] + ([Number("8")] + ([Plus] + ([Number("5")] + ([RightParen] + ([Multiply] + ([Number("3")] + [])))))));
    var e16 := Sum(p2, t15);
    assert RenderSum(e16) == [Number("30")] + ([Plus] + ([LeftParen] + ([Number("8")] + ([Plus] + ([Number("5")] + ([RightParen] + ([Multiply] + ([Number("3")] + []))))))));
    e := e16;
  }

  lemma GroupTimesValue(e: Sum)
    requires e == Sum(Single(Num("30")), Then(Add, Apply(Group(Sum(Single(Num("8")), Then(Add, Single(Num("5")), End))), Mul, Single(Num("3"))), End))
    ensures EvalSum(e) == Some(69.0)
  {
    ValueOf3();
    ValueOf5();
    ValueOf8();
    ValueOf30();
    var a1 := Num("30");
    assert EvalAtom(a1) == Some(30.0);
    var p2 := Single(a1);
    assert EvalProduct(p2) == Some(30.0);
    var a3 := Num("8");
    assert EvalAtom(a3) == Some(8.0);
    var p4 := Single(a3);
    assert EvalProduct(p4) == Some(8.0);
    var a5 := Num("5");
    assert EvalAtom(a5) == Some(5.0);
    var p6 := Single(a5);
    assert EvalProduct(p6) == Some(5.0);
    var t7: SumTail := End;
    var t8 := Then(Add, p6, t7);
    var e9 := Sum(p4, t8);
    assert EvalTail(13.0, t7) == Some(13.0);
    assert EvalTail(8.0, t8) == Some(13.0);
    assert EvalSum(e9) == Some(13.0);
    var a10 := Group(e9);
    assert EvalAtom(a10) == Some(13.0);
    var a11 := Num("3");
    assert EvalAtom(a11) == Some(3.0);
    var p12 := Single(a11);
    assert EvalProduct(p12) == Some(3.0);
    var p13 := Apply(a10, Mul, p12);
    assert EvalProduct(p13) == Some(39.0);
    var t14: SumTail := End;
    var t15 := Then(Add, p13, t14);
    var e16 := Sum(p2, t15);
    assert EvalTail(69.0, t14) == Some(69.0);
    assert EvalTail(30.0, t15) == Some(69.0);
    assert EvalSum(e16) == Some(69.0);
    assert e == e16;
  }

  lemma GroupTimesTree() returns (e: Sum)
    ensures RenderSum(e) == [Number("30")] + ([Plus] + ([LeftParen] + ([Number("8")] + ([Plus] + ([Number("5")] + ([RightParen] + ([Multiply] + ([Number("3")] + []))))))))
    ensures EvalSum(e) == Some(69.0)
  {
    e := GroupTimesRender();
    GroupTimesValue(e);
  }

  lemma GroupTimesLexed()
    ensures Tokenize("30 + (8 + 5) * 3") == Ok([Number("30")] + ([Plus] + ([LeftParen] + ([Number("8")] + ([Plus] + ([Number("5")] + ([RightParen] + ([Multiply] + ([Number("3")] + [])))))))))
  {
    var none: seq<Token> := [];
    var s1, t1 := GroupTimesTokens1("", none);
    var s2, t2 := GroupTimesTokens2(s1, t1);
    var s3, t3 := GroupTimesTokens3(s2, t2);
    var s4, t4 := GroupTimesTokens4(s3, t3);
    var s5, t5 := GroupTimesTokens5(s4, t4);
    GroupTimesText();
  }

  /** From `parsing_works`: `30 + (8 + 5) * 3` is 69. */
  lemma ParsingWorksGroupTimes()
    ensures Evaluate("30 + (8 + 5) * 3") == Ok(69.0)
  {
    GroupTimesLexed();
    var e := GroupTimesTree();
    EvaluatesTree("30 + (8 + 5) * 3", e);
  }

  /** `10 / 2`, read one token at a time from the back, in 2 parts. */
  lemma DivisionTokens1(tail: string, rest: seq<Token>) returns (s: string, ts: seq<Token>)
    requires Tokenize(tail) == Ok(rest)
    requires |tail| == 0 || !IsNumberChar(tail[0])
    ensures Tokenize(s) == Ok(ts)
    ensures |s| > 0 && !IsNumberChar(s[0])
    ensures ts == [Number("2")] + rest
    ensures s == " " + ("2" + tail)
  {
    var s0, r0 := tail, rest;
    var s1 := "2" + s0;
    TokenizeRun("2", s0);
    var r1 := [Number("2")] + r0;
    assert Tokenize(s1) == Ok(r1);
    var s2 := " " + s1;
    TokenizeSpace(s1);
    assert Tokenize(s2) == Ok(r1);
    s, ts := s2, r1;
  }

  lemma DivisionTokens2(tail: string, rest: seq<Token>) returns (s: string, ts: seq<Token>)
    requires Tokenize(tail) == Ok(rest)
    requires |tail| == 0 || !IsNumberChar(tail[0])
    ensures Tokenize(s) == Ok(ts)
    ensures ts == [Number("10")] + ([Divide] + rest)
    ensures s == "10" + (" " + (['/'] + tail))
  {
    var s0, r0 := tail, rest;
    var s1 := ['/'] + s0;
    TokenizeChar('/', s0);
    var r1 := [Divide] + r0;
    assert Tokenize(s1) == Ok(r1);
    var s2 := " " + s1;
    TokenizeSpace(s1);
    assert Tokenize(s2) == Ok(r1);
    var s3 := "10" + s2;
    TokenizeRun("10", s2);
    var r3 := [Number("10")] + r1;
    assert Tokenize(s3) == Ok(r3);
    s, ts := s3, r3;
  }

  lemma DivisionText()
    ensures "10 / 2" == "10" + (" " + (['/'] + (" " + ("2" + ""))))
  {
  }

  lemma ValueOf2()
    ensures Value("2") == 2.0
  {
    assert Mantissa("2") == 2;
    IntegerLexeme("2");
  }

  lemma ValueOf10()
    ensures Value("10") == 10.0
  {
    assert "10"[..1] == "1";
    assert Mantissa("1") == 1;
    assert Mantissa("10") == 10;
    IntegerLexeme("10");
  }

  lemma DivisionRender() returns (e: Sum)
    ensures e == Sum(Apply(Num("10"), Div, Single(Num("2"))), End)
    ensures RenderSum(e) == [Number("10")] + ([Divide] + ([Number("2")] + []))
  {
    var a1 := Num("10");
    assert RenderAtom(a1) == [Number("10")] + [];
    var a2 := Num("2");
    assert RenderAtom(a2) == [Number("2")] + [];
    var p3 := Single(a2);
    assert RenderProduct(p3) == [Number("2")] + [];
    var p4 := Apply(a1, Div, p3);
    assert RenderProduct(p4) == [Number("10")] + ([Divide] + ([Number("2")] + []));
    var t5: SumTail := End;
    assert RenderTail(t5) == [];
    var e6 := Sum(p4, t5);
    assert RenderSum(e6) == [Number("10")] + ([Divide] + ([Number("2")] + []));
    e := e6;
  }

  lemma DivisionValue(e: Sum)
    requires e == Sum(Apply(Num("10"), Div, Single(Num("2"))), End)
    ensures EvalSum(e) == Some(5.0)
  {
    ValueOf2();
    ValueOf10();
    var a1 := Num("10");
    assert EvalAtom(a1) == Some(10.0);
    var a2 := Num("2");
    assert EvalAtom(a2) == Some(2.0);
    var p3 := Single(a2);
    assert EvalProduct(p3) == Some(2.0);
    var p4 := Apply(a1, Div, p3);
    assert EvalProduct(p4) == Some(5.0);
    var t5: SumTail := End;
    var e6 := Sum(p4, t5);
    assert EvalTail(5.0, t5) == Some(5.0);
    assert EvalSum(e6) == Some(5.0);
    assert e == e6;
  }

  lemma DivisionTree() returns (e: Sum)
    ensures RenderSum(e) == [Number("10")] + ([Divide] + ([Number("2")] + []))
    ensures EvalSum(e) == Some(5.0)
  {
    e := DivisionRender();
    DivisionValue(e);
  }

  lemma DivisionLexed()
    ensures Tokenize("10 / 2") == Ok([Number("10")] + ([Divide] + ([Number("2")] + [])))
  {
    var none: seq<Token> := [];
    var s1, t1 := DivisionTokens1("", none);
    var s2, t2 := DivisionTokens2(s1, t1);
    DivisionText();
  }

  /** From `parsing_works`: `10 / 2` is 5. */
  lemma ParsingWorksDivision()
    ensures Evaluate("10 / 2") == Ok(5.0)
  {
    DivisionLexed();
    var e := DivisionTree();
    EvaluatesTree("10 / 2", e);
  }

  /** `(4 + 6) * 2 - 5`, read one token at a time from the back, in 5 parts. */
  lemma MixedTokens1(tail: string, rest: seq<Token>) returns (s: string, ts: seq<Token>)
    requires Tokenize(tail) == Ok(rest)
    requires |tail| == 0 || !IsNumberChar(tail[0])
    ensures Tokenize(s) == Ok(ts)
    ensures |s| > 0 && !IsNumberChar(s[0])
    ensures ts == [Minus] + ([Number("5")] + rest)
    ensures s == ['-'] + (" " + ("5" + tail))
  {
    var s0, r0 := tail, rest;
    var s1 := "5" + s0;
    TokenizeRun("5", s0);
    var r1 := [Number("5")] + r0;
    assert Tokenize(s1) == Ok(r1);
    var s2 := " " + s1;
    TokenizeSpace(s1);
    assert Tokenize(s2) == Ok(r1);
    var s3 := ['-'] + s2;
    TokenizeChar('-', s2);
    var r3 := [Minus] + r1;
    assert Tokenize(s3) == Ok(r3);
    s, ts := s3, r3;
  }

  lemma MixedTokens2(tail: string, rest: seq<Token>) returns (s: string, ts: seq<Token>)
    requires Tokenize(tail) == Ok(rest)
    requires |tail| == 0 || !IsNumberChar(tail[0])
    ensures Tokenize(s) == Ok(ts)
    ensures |s| > 0 && !IsNumberChar(s[0])
    ensures ts == [Number("2")] + rest
    ensures s == " " + ("2" + (" " + tail))
  {
    var s0, r0 := tail, rest;
    var s1 := " " + s0;
    TokenizeSpace(s0);
    assert Tokenize(s1) == Ok(r0);
    var s2 := "2" + s1;
    TokenizeRun("2", s1);
    var r2 := [Number("2")] + r0;
    assert Tokenize(s2) == Ok(r2);
    var s3 := " " + s2;
    TokenizeSpace(s2);
    assert Tokenize(s3) == Ok(r2);
    s, ts := s3, r2;
  }

  lemma MixedTokens3(tail: string, rest: seq<Token>) returns (s: string, ts: seq<Token>)
    requires Tokenize(tail) == Ok(rest)
    requires |tail| == 0 || !IsNumberChar(tail[0])
    ensures Tokenize(s) == Ok(ts)
    ensures |s| > 0 && !IsNumberChar(s[0])
    ensures ts == [RightParen] + ([Multiply] + rest)
    ensures s == [')'] + (" " + (['*'] + tail))
  {
    var s0, r0 := tail, rest;
    var s1 := ['*'] + s0;
    TokenizeChar('*', s0);
    var r1 := [Multiply] + r0;
    assert Tokenize(s1) == Ok(r1);
    var s2 := " " + s1;
    TokenizeSpace(s1);
    assert Tokenize(s2) == Ok(r1);
    var s3 := [')'] + s2;
    TokenizeChar(')', s2);
    var r3 := [RightParen] + r1;
    assert Tokenize(s3) == Ok(r3);
    s, ts := s3, r3;
  }

  lemma MixedTokens4(tail: string, rest: seq<Token>) returns (s: string, ts: seq<Token>)
    requires Tokenize(tail) == Ok(rest)
    requires |tail| == 0 || !IsNumberChar(tail[0])
    ensures Tokenize(s) == Ok(ts)
    ensures |s| > 0 && !IsNumberChar(s[0])
    ensures ts == [Plus] + ([Number("6")] + rest)
    ensures s == ['+'] + (" " + ("6" + tail))
  {
    var s0, r0 := tail, rest;
    var s1 := "6" + s0;
    TokenizeRun("6", s0);
    var r1 := [Number("6")] + r0;
    assert Tokenize(s1) == Ok(r1);
    var s2 := " " + s1;
    TokenizeSpace(s1);
    assert Tokenize(s2) == Ok(r1);
    var s3 := ['+'] + s2;
    TokenizeChar('+', s2);
    var r3 := [Plus] + r1;
    assert Tokenize(s3) == Ok(r3);
    s, ts := s3, r3;
  }

  lemma MixedTokens5(tail: string, rest: seq<Token>) returns (s: string, ts: seq<Token>)
    requires Tokenize(tail) == Ok(rest)
    requires |tail| == 0 || !IsNumberChar(tail[0])
    ensures Tokenize(s) == Ok(ts)
    ensures |s| > 0 && !IsNumberChar(s[0])
    ensures ts == [LeftParen] + ([Number("4")] + rest)
    ensures s == ['('] + ("4" + (" " + tail))
  {
    var s0, r0 := tail, rest;
    var s1 := " " + s0;
    TokenizeSpace(s0);
    assert Tokenize(s1) == Ok(r0);
    var s2 := "4" + s1;
    TokenizeRun("4", s1);
    var r2 := [Number("4")] + r0;
    assert Tokenize(s2) == Ok(r2);
    var s3 := ['('] + s2;
    TokenizeChar('(', s2);
    var r3 := [LeftParen] + r2;
    assert Tokenize(s3) == Ok(r3);
    s, ts := s3, r3;
  }

  lemma MixedText()
    ensures "(4 + 6) * 2 - 5" == ['('] + ("4" + (" " + (['+'] + (" " + ("6" + ([')'] + (" " + (['*'] + (" " + ("2" + (" " + (['-'] + (" " + ("5" + ""))))))))))))))
  {
  }

  lemma ValueOf4()
    ensures Value("4") == 4.0
  {
    assert Mantissa("4") == 4;
    IntegerLexeme("4");
  }

  lemma ValueOf6()
    ensures Value("6") == 6.0
  {
    assert Mantissa("6") == 6;
    IntegerLexeme("6");
  }

  lemma MixedRender() returns (e: Sum)
    ensures e == Sum(Apply(Group(Sum(Single(Num("4")), Then(Add, Single(Num("6")), End))), Mul, Single(Num("2"))), Then(Sub, Single(Num("5")), End))
    ensures RenderSum(e) == [LeftParen] + ([Number("4")] + ([Plus] + ([Number("6")] + ([RightParen] + ([Multiply] + ([Number("2")] + ([Minus] + ([Number("5")] + []))))))))
  {
    var a1 := Num("4");
    assert RenderAtom(a1) == [Number("4")] + [];
    var p2 := Single(a1);
    assert RenderProduct(p2) == [Number("4")] + [];
    var a3 := Num("6");
    assert RenderAtom(a3) == [Number("6")] + [];
    var p4 := Single(a3);
    assert RenderProduct(p4) == [Number("6")] + [];
    var t5: SumTail := End;
    assert RenderTail(t5) == [];
    var t6 := Then(Add, p4, t5);
    assert RenderTail(t6) == [Plus] + ([Number("6")] + []);
    var e7 := Sum(p2, t6);
    assert RenderSum(e7) == [Number("4")] + ([Plus] + ([Number("6")] + []));
    var a8 := Group(e7);
    assert RenderAtom(a8) == [LeftParen] + ([Number("4")] + ([Plus] + ([Number("6")] + ([RightParen] + []))));
    var a9 := Num("2");
    assert RenderAtom(a9) == [Number("2")] + [];
    var p10 := Single(a9);
    assert RenderProduct(p10) == [Number("2")] + [];
    var p11 := Apply(a8, Mul, p10);
    assert RenderProduct(p11) == [LeftParen] + ([Number("4")] + ([Plus] + ([Number("6")] + ([RightParen] + ([Multiply] + ([Number("2")] + []))))));
    var a12 := Num("5");
    assert RenderAtom(a12) == [Number("5")] + [];
    var p13 := Single(a12);
    assert RenderProduct(p13) == [Number("5")] + [];
    var t14: SumTail := End;
    assert RenderTail(t14) == [];
    var t15 := Then(Sub, p13, t14);
    assert RenderTail(t15) == [Minus] + ([Number("5")] + []);
    var e16 := Sum(p11, t15);
    assert RenderSum(e16) == [LeftParen] + ([Number("4")] + ([Plus] + ([Number("6")] + ([RightParen] + ([Multiply] + ([Number("2")] + ([Minus] + ([Number("5")] + []))))))));
    e := e16;
  }

  lemma MixedValue(e: Sum)
    requires e == Sum(Apply(Group(Sum(Single(Num("4")), Then(Add, Single(Num("6")), End))), Mul, Single(Num("2"))), Then(Sub, Single(Num("5")), End))
    ensures EvalSum(e) == Some(15.0)
  {
    ValueOf2();
    ValueOf4();
    ValueOf5();
    ValueOf6();
    var a1 := Num("4");
    assert EvalAtom(a1) == Some(4.0);
    var p2 := Single(a1);
    assert EvalProduct(p2) == Some(4.0);
    var a3 := Num("6");
    assert EvalAtom(a3) == Some(6.0);
    var p4 := Single(a3);
    assert EvalProduct(p4) == Some(6.0);
    var t5: SumTail := End;
    var t6 := Then(Add, p4, t5);
    var e7 := Sum(p2, t6);
    assert EvalTail(10.0, t5) == Some(10.0);
    assert EvalTail(4.0, t6) == Some(10.0);
    assert EvalSum(e7) == Some(10.0);
    var a8 := Group(e7);
    assert EvalAtom(a8) == Some(10.0);
    var a9 := Num("2");
    assert EvalAtom(a9) == Some(2.0);
    var p10 := Single(a9);
    assert EvalProduct(p10) == Some(2.0);
    var p11 := Apply(a8, Mul, p10);
    assert EvalProduct(p11) == Some(20.0);
    var a12 := Num("5");
    assert EvalAtom(a12) == Some(5.0);
    var p13 := Single(a12);
    assert EvalProduct(p13) == Some(5.0);
    var t14: SumTail := End;
    var t15 := Then(Sub, p13, t14);
    var e16 := Sum(p11, t15);
    assert EvalTail(15.0, t14) == Some(15.0);
    assert EvalTail(20.0, t15) == Some(15.0);
    assert EvalSum(e16) == Some(15.0);
    assert e == e16;
  }

  lemma MixedTree() returns (e: Sum)
    ensures RenderSum(e) == [LeftParen] + ([Number("4")] + ([Plus] + ([Number("6")] + ([RightParen] + ([Multiply] + ([Number("2")] + ([Minus] + ([Number("5")] + []))))))))
    ensures EvalSum(e) == Some(15.0)
  {
    e := MixedRender();
    MixedValue(e);
  }

  lemma MixedLexed()
    ensures Tokenize("(4 + 6) * 2 - 5") == Ok([LeftParen] + ([Number("4")] + ([Plus] + ([Number("6")] + ([RightParen] + ([Multiply] + ([Number("2")] + ([Minus] + ([Number("5")] + [])))))))))
  {
    var none: seq<Token> := [];
    var s1, t1 := MixedTokens1("", none);
    var s2, t2 := MixedTokens2(s1, t1);
    var s3, t3 := MixedTokens3(s2, t2);
    var s4, t4 := MixedTokens4(s3, t3);
    var s5, t5 := MixedTokens5(s4, t4);
    MixedText();
  }

  /** From `parsing_works`: `(4 + 6) * 2 - 5` is 15. */
  lemma ParsingWorksMixed()
    ensures Evaluate("(4 + 6) * 2 - 5") == Ok(15.0)
  {
    MixedLexed();
    var e := MixedTree();
    EvaluatesTree("(4 + 6) * 2 - 5", e);
  }

  /** `2 * (3 + 4) / 2`, read one token at a time from the back, in 5 parts. */
  lemma TimesOverTokens1(tail: string, rest: seq<Token>) returns (s: string, ts: seq<Token>)
    requires Tokenize(tail) == Ok(rest)
    requires |tail| == 0 || !IsNumberChar(tail[0])
    ensures Tokenize(s) == Ok(ts)
    ensures |s| > 0 && !IsNumberChar(s[0])
    ensures ts == [Number("2")] + rest
    ensures s == " " + ("2" + tail)
  {
    var s0, r0 := tail, rest;
    var s1 := "2" + s0;
    TokenizeRun("2", s0);
    var r1 := [Number("2")] + r0;
    assert Tokenize(s1) == Ok(r1);
    var s2 := " " + s1;
    TokenizeSpace(s1);
    assert Tokenize(s2) == Ok(r1);
    s, ts := s2, r1;
  }

  lemma TimesOverTokens2(tail: string, rest: seq<Token>) returns (s: string, ts: seq<Token>)
    requires Tokenize(tail) == Ok(rest)
    requires |tail| == 0 || !IsNumberChar(tail[0])
    ensures Tokenize(s) == Ok(ts)
    ensures |s| > 0 && !IsNumberChar(s[0])
    ensures ts == [RightParen] + ([Divide] + rest)
    ensures s == [')'] + (" " + (['/'] + tail))
  {
    var s0, r0 := tail, rest;
    var s1 := ['/'] + s0;
    TokenizeChar('/', s0);
    var r1 := [Divide] + r0;
    assert Tokenize(s1) == Ok(r1);
    var s2 := " " + s1;
    TokenizeSpace(s1);
    assert Tokenize(s2) == Ok(r1);
    var s3 := [')'] + s2;
    TokenizeChar(')', s2);
    var r3 := [RightParen] + r1;
    assert Tokenize(s3) == Ok(r3);
    s, ts := s3, r3;
  }

  lemma TimesOverTokens3(tail: string, rest: seq<Token>) returns (s: string, ts: seq<Token>)
    requires Tokenize(tail) == Ok(rest)
    requires |tail| == 0 || !IsNumberChar(tail[0])
    ensures Tokenize(s) == Ok(ts)
    ensures |s| > 0 && !IsNumberChar(s[0])
    ensures ts == [Plus] + ([Number("4")] + rest)
    ensures s == " " + (['+'] + (" " + ("4" + tail)))
  {
    var s0, r0 := tail, rest;
    var s1 := "4" + s0;
    TokenizeRun("4", s0);
    var r1 := [Number("4")] + r0;
    assert Tokenize(s1) == Ok(r1);
    var s2 := " " + s1;
    TokenizeSpace(s1);
    assert Tokenize(s2) == Ok(r1);
    var s3 := ['+'] + s2;
    TokenizeChar('+', s2);
    var r3 := [Plus] + r1;
    assert Tokenize(s3) == Ok(r3);
    var s4 := " " + s3;
    TokenizeSpace(s3);
    assert Tokenize(s4) == Ok(r3);
    s, ts := s4, r3;
  }

  lemma TimesOverTokens4(tail: string, rest: seq<Token>) returns (s: string, ts: seq<Token>)
    requires Tokenize(tail) == Ok(rest)
    requires |tail| == 0 || !IsNumberChar(tail[0])
    ensures Tokenize(s) == Ok(ts)
    ensures |s| > 0 && !IsNumberChar(s[0])
    ensures ts == [LeftParen] + ([Number("3")] + rest)
    ensures s == " " + (['('] + ("3" + tail))
  {
    var s0, r0 := tail, rest;
    var s1 := "3" + s0;
    TokenizeRun("3", s0);
    var r1 := [Number("3")] + r0;
    assert Tokenize(s1) == Ok(r1);
    var s2 := ['('] + s1;
    TokenizeChar('(', s1);
    var r2 := [LeftParen] + r1;
    assert Tokenize(s2) == Ok(r2);
    var s3 := " " + s2;
    TokenizeSpace(s2);
    assert Tokenize(s3) == Ok(r2);
    s, ts := s3, r2;
  }

  lemma TimesOverTokens5(tail: string, rest: seq<Token>) returns (s: string, ts: seq<Token>)
    requires Tokenize(tail) == Ok(rest)
    requires |tail| == 0 || !IsNumberChar(tail[0])
    ensures Tokenize(s) == Ok(ts)
    ensures ts == [Number("2")] + ([Multiply] + rest)
    ensures s == "2" + (" " + (['*'] + tail))
  {
    var s0, r0 := tail, rest;
    var s1 := ['*'] + s0;
    TokenizeChar('*', s0);
    var r1 := [Multiply] + r0;
    assert Tokenize(s1) == Ok(r1);
    var s2 := " " + s1;
    TokenizeSpace(s1);
    assert Tokenize(s2) == Ok(r1);
    var s3 := "2" + s2;
    TokenizeRun("2", s2);
    var r3 := [Number("2")] + r1;
    assert Tokenize(s3) == Ok(r3);
    s, ts := s3, r3;
  }

  lemma TimesOverText()
    ensures "2 * (3 + 4) / 2" == "2" + (" " + (['*'] + (" " + (['('] + ("3" + (" " + (['+'] + (" " + ("4" + ([')'] + (" " + (['/'] + (" " + ("2" + ""))))))))))))))
  {
  }

  lemma TimesOverRender() returns (e: Sum)
    ensures e == Sum(Apply(Num("2"), Mul, Apply(Group(Sum(Single(Num("3")), Then(Add, Single(Num("4")), End))), Div, Single(Num("2")))), End)
    ensures RenderSum(e) == [Number("2")] + ([Multiply] + ([LeftParen] + ([Number("3")] + ([Plus] + ([Number("4")] + ([RightParen] + ([Divide] + ([Number("2")] + []))))))))
  {
    var a1 := Num("2");
    assert RenderAtom(a1) == [Number("2")] + [];
    var a2 := Num("3");
    assert RenderAtom(a2) == [Number("3")] + [];
    var p3 := Single(a2);
    assert RenderProduct(p3) == [Number("3")] + [];
    var a4 := Num("4");
    assert RenderAtom(a4) == [Number("4")] + [];
    var p5 := Single(a4);
    assert RenderProduct(p5) == [Number("4")] + [];
    var t6: SumTail := End;
    assert RenderTail(t6) == [];
    var t7 := Then(Add, p5, t6);
    assert RenderTail(t7) == [Plus] + ([Number("4")] + []);
    var e8 := Sum(p3, t7);
    assert RenderSum(e8) == [Number("3")] + ([Plus] + ([Number("4")] + []));
    var a9 := Group(e8);
    assert RenderAtom(a9) == [LeftParen] + ([Number("3")] + ([Plus] + ([Number("4")] + ([RightParen] + []))));
    var a10 := Num("2");
    assert RenderAtom(a10) == [Number("2")] + [];
    var p11 := Single(a10);
    assert RenderProduct(p11) == [Number("2")] + [];
    var p12 := Apply(a9, Div, p11);
    assert RenderProduct(p12) == [LeftParen] + ([Number("3")] + ([Plus] + ([Number("4")] + ([RightParen] + ([Divide] + ([Number("2")] + []))))));
    var p13 := Apply(a1, Mul, p12);
    assert RenderProduct(p13) == [Number("2")] + ([Multiply] + ([LeftParen] + ([Number("3")] + ([Plus] + ([Number("4")] + ([RightParen] + ([Divide] + ([Number("2")] + []))))))));
    var t14: SumTail := End;
    assert RenderTail(t14) == [];
    var e15 := Sum(p13, t14);
    assert RenderSum(e15) == [Number("2")] + ([Multiply] + ([LeftParen] + ([Number("3")] + ([Plus] + ([Number("4")] + ([RightParen] + ([Divide] + ([Number("2")] + []))))))));
    e := e15;
  }

  lemma TimesOverValue(e: Sum)
    requires e == Sum(Apply(Num("2"), Mul, Apply(Group(Sum(Single(Num("3")), Then(Add, Single(Num("4")), End))), Div, Single(Num("2")))), End)
    ensures EvalSum(e) == Some(7.0)
  {
    ValueOf2();
    ValueOf3();
    ValueOf4();
    var a1 := Num("2");
    assert EvalAtom(a1) == Some(2.0);
    var a2 := Num("3");
    assert EvalAtom(a2) == Some(3.0);
    var p3 := Single(a2);
    assert EvalProduct(p3) == Some(3.0);
    var a4 := Num("4");
    assert EvalAtom(a4) == Some(4.0);
    var p5 := Single(a4);
    assert EvalProduct(p5) == Some(4.0);
    var t6: SumTail := End;
    var t7 := Then(Add, p5, t6);
    var e8 := Sum(p3, t7);
    assert EvalTail(7.0, t6) == Some(7.0);
    assert EvalTail(3.0, t7) == Some(7.0);
    assert EvalSum(e8) == Some(7.0);
    var a9 := Group(e8);
    assert EvalAtom(a9) == Some(7.0);
    var a10 := Num("2");
    assert EvalAtom(a10) == Some(2.0);
    var p11 := Single(a10);
    assert EvalProduct(p11) == Some(2.0);
    var p12 := Apply(a9, Div, p11);
    assert EvalProduct(p12) == Some(3.5);
    var p13 := Apply(a1, Mul, p12);
    assert EvalProduct(p13) == Some(7.0);
    var t14: SumTail := End;
    var e15 := Sum(p13, t14);
    assert EvalTail(7.0, t14) == Some(7.0);
    assert EvalSum(e15) == Some(7.0);
    assert e == e15;
  }

  lemma TimesOverTree() returns (e: Sum)
    ensures RenderSum(e) == [Number("2")] + ([Multiply] + ([LeftParen] + ([Number("3")] + ([Plus] + ([Number("4")] + ([RightParen] + ([Divide] + ([Number("2")] + []))))))))
    ensures EvalSum(e) == Some(7.0)
  {
    e := TimesOverRender();
    TimesOverValue(e);
  }

  lemma TimesOverLexed()
    ensures Tokenize("2 * (3 + 4) / 2") == Ok([Number("2")] + ([Multiply] + ([LeftParen] + ([Number("3")] + ([Plus] + ([Number("4")] + ([RightParen] + ([Divide] + ([Number("2")] + [])))))))))
  {
    var none: seq<Token> := [];
    var s1, t1 := TimesOverTokens1("", none);
    var s2, t2 := TimesOverTokens2(s1, t1);
    var s3, t3 := TimesOverTokens3(s2, t2);
    var s4, t4 := TimesOverTokens4(s3, t3);
    var s5, t5 := TimesOverTokens5(s4, t4);
    TimesOverText();
  }

  /** From `parsing_works`: `2 * (3 + 4) / 2` is 7; the right operand of `*` is `(3 + 4) / 2`. */
  lemma ParsingWorksTimesOver()
    ensures Evaluate("2 * (3 + 4) / 2") == Ok(7.0)
  {
    TimesOverLexed();
    var e := TimesOverTree();
    EvaluatesTree("2 * (3 + 4) / 2", e);
  }

  /** `1 + 2 + 3 + 4 + 5`, read one token at a time from the back, in 5 parts. */
  lemma SumChainTokens1(tail: string, rest: seq<Token>) returns (s: string, ts: seq<Token>)
    requires Tokenize(tail) == Ok(rest)
    requires |tail| == 0 || !IsNumberChar(tail[0])
    ensures Tokenize(s) == Ok(ts)
    ensures |s| > 0 && !IsNumberChar(s[0])
    ensures ts == [Plus] + ([Number("5")] + rest)
    ensures s == " " + (['+'] + (" " + ("5" + tail)))
  {
    var s0, r0 := tail, rest;
    var s1 := "5" + s0;
    TokenizeRun("5", s0);
    var r1 := [Number("5")] + r0;
    assert Tokenize(s1) == Ok(r1);
    var s2 := " " + s1;
    TokenizeSpace(s1);
    assert Tokenize(s2) == Ok(r1);
    var s3 := ['+'] + s2;
    TokenizeChar('+', s2);
    var r3 := [Plus] + r1;
    assert Tokenize(s3) == Ok(r3);
    var s4 := " " + s3;
    TokenizeSpace(s3);
    assert Tokenize(s4) == Ok(r3);
    s, ts := s4, r3;
  }

  lemma SumChainTokens2(tail: string, rest: seq<Token>) returns (s: string, ts: seq<Token>)
    requires Tokenize(tail) == Ok(rest)
    requires |tail| == 0 || !IsNumberChar(tail[0])
    ensures Tokenize(s) == Ok(ts)
    ensures |s| > 0 && !IsNumberChar(s[0])
    ensures ts == [Plus] + ([Number("4")] + rest)
    ensures s == " " + (['+'] + (" " + ("4" + tail)))
  {
    var s0, r0 := tail, rest;
    var s1 := "4" + s0;
    TokenizeRun("4", s0);
    var r1 := [Number("4")] + r0;
    assert Tokenize(s1) == Ok(r1);
    var s2 := " " + s1;
    TokenizeSpace(s1);
    assert Tokenize(s2) == Ok(r1);
    var s3 := ['+'] + s2;
    TokenizeChar('+', s2);
    var r3 := [Plus] + r1;
    assert Tokenize(s3) == Ok(r3);
    var s4 := " " + s3;
    TokenizeSpace(s3);
    assert Tokenize(s4) == Ok(r3);
    s, ts := s4, r3;
  }

  lemma SumChainTokens3(tail: string, rest: seq<Token>) returns (s: string, ts: seq<Token>)
    requires Tokenize(tail) == Ok(rest)
    requires |tail| == 0 || !IsNumberChar(tail[0])
    ensures Tokenize(s) == Ok(ts)
    ensures |s| > 0 && !IsNumberChar(s[0])
    ensures ts == [Plus] + ([Number("3")] + rest)
    ensures s == ['+'] + (" " + ("3" + tail))
  {
    var s0, r0 := tail, rest;
    var s1 := "3" + s0;
    TokenizeRun("3", s0);
    var r1 := [Number("3")] + r0;
    assert Tokenize(s1) == Ok(r1);
    var s2 := " " + s1;
    TokenizeSpace(s1);
    assert Tokenize(s2) == Ok(r1);
    var s3 := ['+'] + s2;
    TokenizeChar('+', s2);
    var r3 := [Plus] + r1;
    assert Tokenize(s3) == Ok(r3);
    s, ts := s3, r3;
  }

  lemma SumChainTokens4(tail: string, rest: seq<Token>) returns (s: string, ts: seq<Token>)
    requires Tokenize(tail) == Ok(rest)
    requires |tail| == 0 || !IsNumberChar(tail[0])
    ensures Tokenize(s) == Ok(ts)
    ensures |s| > 0 && !IsNumberChar(s[0])
    ensures ts == [Number("2")] + rest
    ensures s == " " + ("2" + (" " + tail))
  {
    var s0, r0 := tail, rest;
    var s1 := " " + s0;
    TokenizeSpace(s0);
    assert Tokenize(s1) == Ok(r0);
    var s2 := "2" + s1;
    TokenizeRun("2", s1);
    var r2 := [Number("2")] + r0;
    assert Tokenize(s2) == Ok(r2);
    var s3 := " " + s2;
    TokenizeSpace(s2);
    assert Tokenize(s3) == Ok(r2);
    s, ts := s3, r2;
  }

  lemma SumChainTokens5(tail: string, rest: seq<Token>) returns (s: string, ts: seq<Token>)
    requires Tokenize(tail) == Ok(rest)
    requires |tail| == 0 || !IsNumberChar(tail[0])
    ensures Tokenize(s) == Ok(ts)
    ensures ts == [Number("1")] + ([Plus] + rest)
    ensures s == "1" + (" " + (['+'] + tail))
  {
    var s0, r0 := tail, rest;
    var s1 := ['+'] + s0;
    TokenizeChar('+', s0);
    var r1 := [Plus] + r0;
    assert Tokenize(s1) == Ok(r1);
    var s2 := " " + s1;
    TokenizeSpace(s1);
    assert Tokenize(s2) == Ok(r1);
    var s3 := "1" + s2;
    TokenizeRun("1", s2);
    var r3 := [Number("1")] + r1;
    assert Tokenize(s3) == Ok(r3);
    s, ts := s3, r3;
  }

  lemma SumChainText()
    ensures "1 + 2 + 3 + 4 + 5" == "1" + (" " + (['+'] + (" " + ("2" + (" " + (['+'] + (" " + ("3" + (" " + (['+'] + (" " + ("4" + (" " + (['+'] + (" " + ("5" + ""))))))))))))))))
  {
  }

  lemma ValueOf1()
    ensures Value("1") == 1.0
  {
    assert Mantissa("1") == 1;
    IntegerLexeme("1");
  }

  lemma SumChainRender() returns (e: Sum)
    ensures e == Sum(Single(Num("1")), Then(Add, Single(Num("2")), Then(Add, Single(Num("3")), Then(Add, Single(Num("4")), Then(Add, Single(Num("5")), End)))))
    ensures RenderSum(e) == [Number("1")] + ([Plus] + ([Number("2")] + ([Plus] + ([Number("3")] + ([Plus] + ([Number("4")] + ([Plus] + ([Number("5")] + []))))))))
  {
    var a1 := Num("1");
    assert RenderAtom(a1) == [Number("1")] + [];
    var p2 := Single(a1);
    assert RenderProduct(p2) == [Number("1")] + [];
    var a3 := Num("2");
    assert RenderAtom(a3) == [Number("2")] + [];
    var p4 := Single(a3);
    assert RenderProduct(p4) == [Number("2")] + [];
    var a5 := Num("3");
    assert RenderAtom(a5) == [Number("3")] + [];
    var p6 := Single(a5);
    assert RenderProduct(p6) == [Number("3")] + [];
    var a7 := Num("4");
    assert RenderAtom(a7) == [Number("4")] + [];
    var p8 := Single(a7);
    assert RenderProduct(p8) == [Number("4")] + [];
    var a9 := Num("5");
    assert RenderAtom(a9) == [Number("5")] + [];
    var p10 := Single(a9);
    assert RenderProduct(p10) == [Number("5")] + [];
    var t11: SumTail := End;
    assert RenderTail(t11) == [];
    var t12 := Then(Add, p10, t11);
    assert RenderTail(t12) == [Plus] + ([Number("5")] + []);
    var t13 := Then(Add, p8, t12);
    assert RenderTail(t13) == [Plus] + ([Number("4")] + ([Plus] + ([Number("5")] + [])));
    var t14 := Then(Add, p6, t13);
    assert RenderTail(t14) == [Plus] + ([Number("3")] + ([Plus] + ([Number("4")] + ([Plus] + ([Number("5")] + [])))));
    var t15 := Then(Add, p4, t14);
    assert RenderTail(t15) == [Plus] + ([Number("2")] + ([Plus] + ([Number("3")] + ([Plus] + ([Number("4")] + ([Plus] + ([Number("5")] + [])))))));
    var e16 := Sum(p2, t15);
    assert RenderSum(e16) == [Number("1")] + ([Plus] + ([Number("2")] + ([Plus] + ([Number("3")] + ([Plus] + ([Number("4")] + ([Plus] + ([Number("5")] + []))))))));
    e := e16;
  }

  lemma SumChainValue(e: Sum)
    requires e == Sum(Single(Num("1")), Then(Add, Single(Num("2")), Then(Add, Single(Num("3")), Then(Add, Single(Num("4")), Then(Add, Single(Num("5")), End)))))
    ensures EvalSum(e) == Some(15.0)
  {
    ValueOf1();
    ValueOf2();
    ValueOf3();
    ValueOf4();
    ValueOf5();
    var a1 := Num("1");
    assert EvalAtom(a1) == Some(1.0);
    var p2 := Single(a1);
    assert EvalProduct(p2) == Some(1.0);
    var a3 := Num("2");
    assert EvalAtom(a3) == Some(2.0);
    var p4 := Single(a3);
    assert EvalProduct(p4) == Some(2.0);
    var a5 := Num("3");
    assert EvalAtom(a5) == Some(3.0);
    var p6 := Single(a5);
    assert EvalProduct(p6) == Some(3.0);
    var a7 := Num("4");
    assert EvalAtom(a7) == Some(4.0);
    var p8 := Single(a7);
    assert EvalProduct(p8) == Some(4.0);
    var a9 := Num("5");
    assert EvalAtom(a9) == Some(5.0);
    var p10 := Single(a9);
    assert EvalProduct(p10) == Some(5.0);
    var t11: SumTail := End;
    var t12 := Then(Add, p10, t11);
    var t13 := Then(Add, p8, t12);
    var t14 := Then(Add, p6, t13);
    var t15 := Then(Add, p4, t14);
    var e16 := Sum(p2, t15);
    assert EvalTail(15.0, t11) == Some(15.0);
    assert EvalTail(10.0, t12) == Some(15.0);
    assert EvalTail(6.0, t13) == Some(15.0);
    assert EvalTail(3.0, t14) == Some(15.0);
    assert EvalTail(1.0, t15) == Some(15.0);
    assert EvalSum(e16) == Some(15.0);
    assert e == e16;
  }

  lemma SumChainTree() returns (e: Sum)
    ensures RenderSum(e) == [Number("1")] + ([Plus] + ([Number("2")] + ([Plus] + ([Number("3")] + ([Plus] + ([Number("4")] + ([Plus] + ([Number("5")] + []))))))))
    ensures EvalSum(e) == Some(15.0)
  {
    e := SumChainRender();
    SumChainValue(e);
  }

  lemma SumChainLexed()
    ensures Tokenize("1 + 2 + 3 + 4 + 5") == Ok([Number("1")] + ([Plus] + ([Number("2")] + ([Plus] + ([Number("3")] + ([Plus] + ([Number("4")] + ([Plus] + ([Number("5")] + [])))))))))
  {
    var none: seq<Token> := [];
    var s1, t1 := SumChainTokens1("", none);
    var s2, t2 := SumChainTokens2(s1, t1);
    var s3, t3 := SumChainTokens3(s2, t2);
    var s4, t4 := SumChainTokens4(s3, t3);
    var s5, t5 := SumChainTokens5(s4, t4);
    SumChainText();
  }

  /** From `parsing_works`: `1 + 2 + 3 + 4 + 5` is 15. */
  lemma ParsingWorksSumChain()
    ensures Evaluate("1 + 2 + 3 + 4 + 5") == Ok(15.0)
  {
    SumChainLexed();
    var e := SumChainTree();
    EvaluatesTree("1 + 2 + 3 + 4 + 5", e);
  }

  /** `(5 - 2) * (12 / 2)`, read one token at a time from the back, in 6 parts. */
  lemma TwoGroupsTokens1(tail: string, rest: seq<Token>) returns (s: string, ts: seq<Token>)
    requires Tokenize(tail) == Ok(rest)
    requires |tail| == 0 || !IsNumberChar(tail[0])
    ensures Tokenize(s) == Ok(ts)
    ensures |s| > 0 && !IsNumberChar(s[0])
    ensures ts == [RightParen] + rest
    ensures s == [')'] + tail
  {
    var s0, r0 := tail, rest;
    var s1 := [')'] + s0;
    TokenizeChar(')', s0);
    var r1 := [RightParen] + r0;
    assert Tokenize(s1) == Ok(r1);
    s, ts := s1, r1;
  }

  lemma TwoGroupsTokens2(tail: string, rest: seq<Token>) returns (s: string, ts: seq<Token>)
    requires Tokenize(tail) == Ok(rest)
    requires |tail| == 0 || !IsNumberChar(tail[0])
    ensures Tokenize(s) == Ok(ts)
    ensures |s| > 0 && !IsNumberChar(s[0])
    ensures ts == [Divide] + ([Number("2")] + rest)
    ensures s == " " + (['/'] + (" " + ("2" + tail)))
  {
    var s0, r0 := tail, rest;
    var s1 := "2" + s0;
    TokenizeRun("2", s0);
    var r1 := [Number("2")] + r0;
    assert Tokenize(s1) == Ok(r1);
    var s2 := " " + s1;
    TokenizeSpace(s1);
    assert Tokenize(s2) == Ok(r1);
    var s3 := ['/'] + s2;
    TokenizeChar('/', s2);
    var r3 := [Divide] + r1;
    assert Tokenize(s3) == Ok(r3);
    var s4 := " " + s3;
    TokenizeSpace(s3);
    assert Tokenize(s4) == Ok(r3);
    s, ts := s4, r3;
  }

  lemma TwoGroupsTokens3(tail: string, rest: seq<Token>) returns (s: string, ts: seq<Token>)
    requires Tokenize(tail) == Ok(rest)
    requires |tail| == 0 || !IsNumberChar(tail[0])
    ensures Tokenize(s) == Ok(ts)
    ensures |s| > 0 && !IsNumberChar(s[0])
    ensures ts == [LeftParen] + ([Number("12")] + rest)
    ensures s == " " + (['('] + ("12" + tail))
  {
    var s0, r0 := tail, rest;
    var s1 := "12" + s0;
    TokenizeRun("12", s0);
    var r1 := [Number("12")] + r0;
    assert Tokenize(s1) == Ok(r1);
    var s2 := ['('] + s1;
    TokenizeChar('(', s1);
    var r2 := [LeftParen] + r1;
    assert Tokenize(s2) == Ok(r2);
    var s3 := " " + s2;
    TokenizeSpace(s2);
    assert Tokenize(s3) == Ok(r2);
    s, ts := s3, r2;
  }

  lemma TwoGroupsTokens4(tail: string, rest: seq<Token>) returns (s: string, ts: seq<Token>)
    requires Tokenize(tail) == Ok(rest)
    requires |tail| == 0 || !IsNumberChar(tail[0])
    ensures Tokenize(s) == Ok(ts)
    ensures |s| > 0 && !IsNumberChar(s[0])
    ensures ts == [RightParen] + ([Multiply] + rest)
    ensures s == [')'] + (" " + (['*'] + tail))
  {
    var s0, r0 := tail, rest;
    var s1 := ['*'] + s0;
    TokenizeChar('*', s0);
    var r1 := [Multiply] + r0;
    assert Tokenize(s1) == Ok(r1);
    var s2 := " " + s1;
    TokenizeSpace(s1);
    assert Tokenize(s2) == Ok(r1);
    var s3 := [')'] + s2;
    TokenizeChar(')', s2);
    var r3 := [RightParen] + r1;
    assert Tokenize(s3) == Ok(r3);
    s, ts := s3, r3;
  }

  lemma TwoGroupsTokens5(tail: string, rest: seq<Token>) returns (s: string, ts: seq<Token>)
    requires Tokenize(tail) == Ok(rest)
    requires |tail| == 0 || !IsNumberChar(tail[0])
    ensures Tokenize(s) == Ok(ts)
    ensures |s| > 0 && !IsNumberChar(s[0])
    ensures ts == [Minus] + ([Number("2")] + rest)
    ensures s == ['-'] + (" " + ("2" + tail))
  {
    var s0, r0 := tail, rest;
    var s1 := "2" + s0;
    TokenizeRun("2", s0);
    var r1 := [Number("2")] + r0;
    assert Tokenize(s1) == Ok(r1);
    var s2 := " " + s1;
    TokenizeSpace(s1);
    assert Tokenize(s2) == Ok(r1);
    var s3 := ['-'] + s2;
    TokenizeChar('-', s2);
    var r3 := [Minus] + r1;
    assert Tokenize(s3) == Ok(r3);
    s, ts := s3, r3;
  }

  lemma TwoGroupsTokens6(tail: string, rest: seq<Token>) returns (s: string, ts: seq<Token>)
    requires Tokenize(tail) == Ok(rest)
    requires |tail| == 0 || !IsNumberChar(tail[0])
    ensures Tokenize(s) == Ok(ts)
    ensures |s| > 0 && !IsNumberChar(s[0])
    ensures ts == [LeftParen] + ([Number("5")] + rest)
    ensures s == ['('] + ("5" + (" " + tail))
  {
    var s0, r0 := tail, rest;
    var s1 := " " + s0;
    TokenizeSpace(s0);
    assert Tokenize(s1) == Ok(r0);
    var s2 := "5" + s1;
    TokenizeRun("5", s1);
    var r2 := [Number("5")] + r0;
    assert Tokenize(s2) == Ok(r2);
    var s3 := ['('] + s2;
    TokenizeChar('(', s2);
    var r3 := [LeftParen] + r2;
    assert Tokenize(s3) == Ok(r3);
    s, ts := s3, r3;
  }

  lemma TwoGroupsText()
    ensures "(5 - 2) * (12 / 2)" == ['('] + ("5" + (" " + (['-'] + (" " + ("2" + ([')'] + (" " + (['*'] + (" " + (['('] + ("12" + (" " + (['/'] + (" " + ("2" + ([')'] + ""))))))))))))))))
  {
  }

  lemma TwoGroupsPart17(a8: Atom, p16: Product) returns (p17: Product)
    requires RenderAtom(a8) == [LeftParen] + ([Number("5")] + ([Minus] + ([Number("2")] + ([RightParen] + []))))
    requires RenderProduct(p16) == [LeftParen] + ([Number("12")] + ([Divide] + ([Number("2")] + ([RightParen] + []))))
    ensures p17 == Apply(a8, Mul, p16)
    ensures RenderProduct(p17) == [LeftParen] + ([Number("5")] + ([Minus] + ([Number("2")] + ([RightParen] + ([Multiply] + ([LeftParen] + ([Number("12")] + ([Divide] + ([Number("2")] + ([RightParen] + []))))))))))
  {
    p17 := Apply(a8, Mul, p16);
  }

  lemma TwoGroupsPart19(p17: Product, t18: SumTail) returns (e19: Sum)
    requires RenderProduct(p17) == [LeftParen] + ([Number("5")] + ([Minus] + ([Number("2")] + ([RightParen] + ([Multiply] + ([LeftParen] + ([Number("12")] + ([Divide] + ([Number("2")] + ([RightParen] + []))))))))))
    requires RenderTail(t18) == []
    ensures e19 == Sum(p17, t18)
    ensures RenderSum(e19) == [LeftParen] + ([Number("5")] + ([Minus] + ([Number("2")] + ([RightParen] + ([Multiply] + ([LeftParen] + ([Number("12")] + ([Divide] + ([Number("2")] + ([RightParen] + []))))))))))
  {
    e19 := Sum(p17, t18);
  }

  lemma ValueOf12()
    ensures Value("12") == 12.0
  {
    assert "12"[..1] == "1";
    assert Mantissa("1") == 1;
    assert Mantissa("12") == 12;
    IntegerLexeme("12");
  }

  lemma TwoGroupsRender() returns (e: Sum)
    ensures e == Sum(Apply(Group(Sum(Single(Num("5")), Then(Sub, Single(Num("2")), End))), Mul, Single(Group(Sum(Apply(Num("12"), Div, Single(Num("2"))), End)))), End)
    ensures RenderSum(e) == [LeftParen] + ([Number("5")] + ([Minus] + ([Number("2")] + ([RightParen] + ([Multiply] + ([LeftParen] + ([Number("12")] + ([Divide] + ([Number("2")] + ([RightParen] + []))))))))))
  {
    var a1 := Num("5");
    assert RenderAtom(a1) == [Number("5")] + [];
    var p2 := Single(a1);
    assert RenderProduct(p2) == [Number("5")] + [];
    var a3 := Num("2");
    assert RenderAtom(a3) == [Number("2")] + [];
    var p4 := Single(a3);
    assert RenderProduct(p4) == [Number("2")] + [];
    var t5: SumTail := End;
    assert RenderTail(t5) == [];
    var t6 := Then(Sub, p4, t5);
    assert RenderTail(t6) == [Minus] + ([Number("2")] + []);
    var e7 := Sum(p2, t6);
    assert RenderSum(e7) == [Number("5")] + ([Minus] + ([Number("2")] + []));
    var a8 := Group(e7);
    assert RenderAtom(a8) == [LeftParen] + ([Number("5")] + ([Minus] + ([Number("2")] + ([RightParen] + []))));
    var a9 := Num("12");
    assert RenderAtom(a9) == [Number("12")] + [];
    var a10 := Num("2");
    assert RenderAtom(a10) == [Number("2")] + [];
    var p11 := Single(a10);
    assert RenderProduct(p11) == [Number("2")] + [];
    var p12 := Apply(a9, Div, p11);
    assert RenderProduct(p12) == [Number("12")] + ([Divide] + ([Number("2")] + []));
    var t13: SumTail := End;
    assert RenderTail(t13) == [];
    var e14 := Sum(p12, t13);
    assert RenderSum(e14) == [Number("12")] + ([Divide] + ([Number("2")] + []));
    var a15 := Group(e14);
    assert RenderAtom(a15) == [LeftParen] + ([Number("12")] + ([Divide] + ([Number("2")] + ([RightParen] + []))));
    var p16 := Single(a15);
    assert RenderProduct(p16) == [LeftParen] + ([Number("12")] + ([Divide] + ([Number("2")] + ([RightParen] + []))));
    var p17 := TwoGroupsPart17(a8, p16);
    var t18: SumTail := End;
    assert RenderTail(t18) == [];
    var e19 := TwoGroupsPart19(p17, t18);
    e := e19;
  }

  lemma TwoGroupsValue(e: Sum)
    requires e == Sum(Apply(Group(Sum(Single(Num("5")), Then(Sub, Single(Num("2")), End))), Mul, Single(Group(Sum(Apply(Num("12"), Div, Single(Num("2"))), End)))), End)
    ensures EvalSum(e) == Some(18.0)
  {
    ValueOf2();
    ValueOf5();
    ValueOf12();
    var a1 := Num("5");
    assert EvalAtom(a1) == Some(5.0);
    var p2 := Single(a1);
    assert EvalProduct(p2) == Some(5.0);
    var a3 := Num("2");
    assert EvalAtom(a3) == Some(2.0);
    var p4 := Single(a3);
    assert EvalProduct(p4) == Some(2.0);
    var t5: SumTail := End;
    var t6 := Then(Sub, p4, t5);
    var e7 := Sum(p2, t6);
    assert EvalTail(3.0, t5) == Some(3.0);
    assert EvalTail(5.0, t6) == Some(3.0);
    assert EvalSum(e7) == Some(3.0);
    var a8 := Group(e7);
    assert EvalAtom(a8) == Some(3.0);
    var a9 := Num("12");
    assert EvalAtom(a9) == Some(12.0);
    var a10 := Num("2");
    assert EvalAtom(a10) == Some(2.0);
    var p11 := Single(a10);
    assert EvalProduct(p11) == Some(2.0);
    var p12 := Apply(a9, Div, p11);
    assert EvalProduct(p12) == Some(6.0);
    var t13: SumTail := End;
    var e14 := Sum(p12, t13);
    assert EvalTail(6.0, t13) == Some(6.0);
    assert EvalSum(e14) == Some(6.0);
    var a15 := Group(e14);
    assert EvalAtom(a15) == Some(6.0);
    var p16 := Single(a15);
    assert EvalProduct(p16) == Some(6.0);
    var p17 := Apply(a8, Mul, p16);
    assert EvalProduct(p17) == Some(18.0);
    var t18: SumTail := End;
    var e19 := Sum(p17, t18);
    assert EvalTail(18.0, t18) == Some(18.0);
    assert EvalSum(e19) == Some(18.0);
    assert e == e19;
  }

  lemma TwoGroupsTree() returns (e: Sum)
    ensures RenderSum(e) == [LeftParen] + ([Number("5")] + ([Minus] + ([Number("2")] + ([RightParen] + ([Multiply] + ([LeftParen] + ([Number("12")] + ([Divide] + ([Number("2")] + ([RightParen] + []))))))))))
    ensures EvalSum(e) == Some(18.0)
  {
    e := TwoGroupsRender();
    TwoGroupsValue(e);
  }

  lemma TwoGroupsLexed()
    ensures Tokenize("(5 - 2) * (12 / 2)") == Ok([LeftParen] + ([Number("5")] + ([Minus] + ([Number("2")] + ([RightParen] + ([Multiply] + ([LeftParen] + ([Number("12")] + ([Divide] + ([Number("2")] + ([RightParen] + [])))))))))))
  {
    var none: seq<Token> := [];
    var s1, t1 := TwoGroupsTokens1("", none);
    var s2, t2 := TwoGroupsTokens2(s1, t1);
    var s3, t3 := TwoGroupsTokens3(s2, t2);
    var s4, t4 := TwoGroupsTokens4(s3, t3);
    var s5, t5 := TwoGroupsTokens5(s4, t4);
    var s6, t6 := TwoGroupsTokens6(s5, t5);
    TwoGroupsText();
  }

  /** From `parsing_works`: `(5 - 2) * (12 / 2)` is 18. */
  lemma ParsingWorksTwoGroups()
    ensures Evaluate("(5 - 2) * (12 / 2)") == Ok(18.0)
  {
    TwoGroupsLexed();
    var e := TwoGroupsTree();
    EvaluatesTree("(5 - 2) * (12 / 2)", e);
  }

  /** `(1)*(2)*(3)*(4)*(5)`, read one token at a time from the back, in 6 parts. */
  lemma ExplicitGroupsTokens1(tail: string, rest: seq<Token>) returns (s: string, ts: seq<Token>)
    requires Tokenize(tail) == Ok(rest)
    requires |tail| == 0 || !IsNumberChar(tail[0])
    ensures Tokenize(s) == Ok(ts)
    ensures |s| > 0 && !IsNumberChar(s[0])
    ensures ts == [RightParen] + rest
    ensures s == [')'] + tail
  {
    var s0, r0 := tail, rest;
    var s1 := [')'] + s0;
    TokenizeChar(')', s0);
    var r1 := [RightParen] + r0;
    assert Tokenize(s1) == Ok(r1);
    s, ts := s1, r1;
  }

  lemma ExplicitGroupsTokens2(tail: string, rest: seq<Token>) returns (s: string, ts: seq<Token>)
    requires Tokenize(tail) == Ok(rest)
    requires |tail| == 0 || !IsNumberChar(tail[0])
    ensures Tokenize(s) == Ok(ts)
    ensures |s| > 0 && !IsNumberChar(s[0])
    ensures ts == [RightParen] + ([Multiply] + ([LeftParen] + ([Number("5")] + rest)))
    ensures s == [')'] + (['*'] + (['('] + ("5" + tail)))
  {
    var s0, r0 := tail, rest;
    var s1 := "5" + s0;
    TokenizeRun("5", s0);
    var r1 := [Number("5")] + r0;
    assert Tokenize(s1) == Ok(r1);
    var s2 := ['('] + s1;
    TokenizeChar('(', s1);
    var r2 := [LeftParen] + r1;
    assert Tokenize(s2) == Ok(r2);
    var s3 := ['*'] + s2;
    TokenizeChar('*', s2);
    var r3 := [Multiply] + r2;
    assert Tokenize(s3) == Ok(r3);
    var s4 := [')'] + s3;
    TokenizeChar(')', s3);
    var r4 := [RightParen] + r3;
    assert Tokenize(s4) == Ok(r4);
    s, ts := s4, r4;
  }

  lemma ExplicitGroupsTokens3(tail: string, rest: seq<Token>) returns (s: string, ts: seq<Token>)
    requires Tokenize(tail) == Ok(rest)
    requires |tail| == 0 || !IsNumberChar(tail[0])
    ensures Tokenize(s) == Ok(ts)
    ensures |s| > 0 && !IsNumberChar(s[0])
    ensures ts == [RightParen] + ([Multiply] + ([LeftParen] + ([Number("4")] + rest)))
    ensures s == [')'] + (['*'] + (['('] + ("4" + tail)))
  {
    var s0, r0 := tail, rest;
    var s1 := "4" + s0;
    TokenizeRun("4", s0);
    var r1 := [Number("4")] + r0;
    assert Tokenize(s1) == Ok(r1);
    var s2 := ['('] + s1;
    TokenizeChar('(', s1);
    var r2 := [LeftParen] + r1;
    assert Tokenize(s2) == Ok(r2);
    var s3 := ['*'] + s2;
    TokenizeChar('*', s2);
    var r3 := [Multiply] + r2;
    assert Tokenize(s3) == Ok(r3);
    var s4 := [')'] + s3;
    TokenizeChar(')', s3);
    var r4 := [RightParen] + r3;
    assert Tokenize(s4) == Ok(r4);
    s, ts := s4, r4;
  }

  lemma ExplicitGroupsTokens4(tail: string, rest: seq<Token>) returns (s: string, ts: seq<Token>)
    requires Tokenize(tail) == Ok(rest)
    requires |tail| == 0 || !IsNumberChar(tail[0])
    ensures Tokenize(s) == Ok(ts)
    ensures |s| > 0 && !IsNumberChar(s[0])
    ensures ts == [RightParen] + ([Multiply] + ([LeftParen] + ([Number("3")] + rest)))
    ensures s == [')'] + (['*'] + (['('] + ("3" + tail)))
  {
    var s0, r0 := tail, rest;
    var s1 := "3" + s0;
    TokenizeRun("3", s0);
    var r1 := [Number("3")] + r0;
    assert Tokenize(s1) == Ok(r1);
    var s2 := ['('] + s1;
    TokenizeChar('(', s1);
    var r2 := [LeftParen] + r1;
    assert Tokenize(s2) == Ok(r2);
    var s3 := ['*'] + s2;
    TokenizeChar('*', s2);
    var r3 := [Multiply] + r2;
    assert Tokenize(s3) == Ok(r3);
    var s4 := [')'] + s3;
    TokenizeChar(')', s3);
    var r4 := [RightParen] + r3;
    assert Tokenize(s4) == Ok(r4);
    s, ts := s4, r4;
  }

  lemma ExplicitGroupsTokens5(tail: string, rest: seq<Token>) returns (s: string, ts: seq<Token>)
    requires Tokenize(tail) == Ok(rest)
    requires |tail| == 0 || !IsNumberChar(tail[0])
    ensures Tokenize(s) == Ok(ts)
    ensures |s| > 0 && !IsNumberChar(s[0])
    ensures ts == [Multiply] + ([LeftParen] + ([Number("2")] + rest))
    ensures s == ['*'] + (['('] + ("2" + tail))
  {
    var s0, r0 := tail, rest;
    var s1 := "2" + s0;
    TokenizeRun("2", s0);
    var r1 := [Number("2")] + r0;
    assert Tokenize(s1) == Ok(r1);
    var s2 := ['('] + s1;
    TokenizeChar('(', s1);
    var r2 := [LeftParen] + r1;
    assert Tokenize(s2) == Ok(r2);
    var s3 := ['*'] + s2;
    TokenizeChar('*', s2);
    var r3 := [Multiply] + r2;
    assert Tokenize(s3) == Ok(r3);
    s, ts := s3, r3;
  }

  lemma ExplicitGroupsTokens6(tail: string, rest: seq<Token>) returns (s: string, ts: seq<Token>)
    requires Tokenize(tail) == Ok(rest)
    requires |tail| == 0 || !IsNumberChar(tail[0])
    ensures Tokenize(s) == Ok(ts)
    ensures |s| > 0 && !IsNumberChar(s[0])
    ensures ts == [LeftParen] + ([Number("1")] + ([RightParen] + rest))
    ensures s == ['('] + ("1" + ([')'] + tail))
  {
    var s0, r0 := tail, rest;
    var s1 := [')'] + s0;
    TokenizeChar(')', s0);
    var r1 := [RightParen] + r0;
    assert Tokenize(s1) == Ok(r1);
    var s2 := "1" + s1;
    TokenizeRun("1", s1);
    var r2 := [Number("1")] + r1;
    assert Tokenize(s2) == Ok(r2);
    var s3 := ['('] + s2;
    TokenizeChar('(', s2);
    var r3 := [LeftParen] + r2;
    assert Tokenize(s3) == Ok(r3);
    s, ts := s3, r3;
  }

  lemma ExplicitGroupsText()
    ensures "(1)*(2)*(3)*(4)*(5)" == ['('] + ("1" + ([')'] + (['*'] + (['('] + ("2" + ([')'] + (['*'] + (['('] + ("3" + ([')'] + (['*'] + (['('] + ("4" + ([')'] + (['*'] + (['('] + ("5" + ([')'] + ""))))))))))))))))))
  {
  }

  lemma ExplicitGroupsPart28(a15: Atom, p27: Product) returns (p28: Product)
    requires RenderAtom(a15) == [LeftParen] + ([Number("3")] + ([RightParen] + []))
    requires RenderProduct(p27) == [LeftParen] + ([Number("4")] + ([RightParen] + ([Multiply] + ([LeftParen] + ([Number("5")] + ([RightParen] + []))))))
    ensures p28 == Apply(a15, Mul, p27)
    ensures RenderProduct(p28) == [LeftParen] + ([Number("3")] + ([RightParen] + ([Multiply] + ([LeftParen] + ([Number("4")] + ([RightParen] + ([Multiply] + ([LeftParen] + ([Number("5")] + ([RightParen] + []))))))))))
  {
    p28 := Apply(a15, Mul, p27);
  }

  lemma ExplicitGroupsPart29(a10: Atom, p28: Product) returns (p29: Product)
    requires RenderAtom(a10) == [LeftParen] + ([Number("2")] + ([RightParen] + []))
    requires RenderProduct(p28) == [LeftParen] + ([Number("3")] + ([RightParen] + ([Multiply] + ([LeftParen] + ([Number("4")] + ([RightParen] + ([Multiply] + ([LeftParen] + ([Number("5")] + ([RightParen] + []))))))))))
    ensures p29 == Apply(a10, Mul, p28)
    ensures RenderProduct(p29) == [LeftParen] + ([Number("2")] + ([RightParen] + ([Multiply] + ([LeftParen] + ([Number("3")] + ([RightParen] + ([Multiply] + ([LeftParen] + ([Number("4")] + ([RightParen] + ([Multiply] + ([LeftParen] + ([Number("5")] + ([RightParen] + []))))))))))))))
  {
    p29 := Apply(a10, Mul, p28);
  }

  lemma ExplicitGroupsPart30(a5: Atom, p29: Product) returns (p30: Product)
    requires RenderAtom(a5) == [LeftParen] + ([Number("1")] + ([RightParen] + []))
    requires RenderProduct(p29) == [LeftParen] + ([Number("2")] + ([RightParen] + ([Multiply] + ([LeftParen] + ([Number("3")] + ([RightParen] + ([Multiply] + ([LeftParen] + ([Number("4")] + ([RightParen] + ([Multiply] + ([LeftParen] + ([Number("5")] + ([RightParen] + []))))))))))))))
    ensures p30 == Apply(a5, Mul, p29)
    ensures RenderProduct(p30) == [LeftParen] + ([Number("1")] + ([RightParen] + ([Multiply] + ([LeftParen] + ([Number("2")] + ([RightParen] + ([Multiply] + ([LeftParen] + ([Number("3")] + ([RightParen] + ([Multiply] + ([LeftParen] + ([Number("4")] + ([RightParen] + ([Multiply] + ([LeftParen] + ([Number("5")] + ([RightParen] + []))))))))))))))))))
  {
    p30 := Apply(a5, Mul, p29);
  }

  lemma ExplicitGroupsPart32(p30: Product, t31: SumTail) returns (e32: Sum)
    requires RenderProduct(p30) == [LeftParen] + ([Number("1")] + ([RightParen] + ([Multiply] + ([LeftParen] + ([Number("2")] + ([RightParen] + ([Multiply] + ([LeftParen] + ([Number("3")] + ([RightParen] + ([Multiply] + ([LeftParen] + ([Number("4")] + ([RightParen] + ([Multiply] + ([LeftParen] + ([Number("5")] + ([RightParen] + []))))))))))))))))))
    requires RenderTail(t31) == []
    ensures e32 == Sum(p30, t31)
    ensures RenderSum(e32) == [LeftParen] + ([Number("1")] + ([RightParen] + ([Multiply] + ([LeftParen] + ([Number("2")] + ([RightParen] + ([Multiply] + ([LeftParen] + ([Number("3")] + ([RightParen] + ([Multiply] + ([LeftParen] + ([Number("4")] + ([RightParen] + ([Multiply] + ([LeftParen] + ([Number("5")] + ([RightParen] + []))))))))))))))))))
  {
    e32 := Sum(p30, t31);
  }

  lemma ExplicitGroupsRender() returns (e: Sum)
    ensures e == Sum(Apply(Group(Sum(Single(Num("1")), End)), Mul, Apply(Group(Sum(Single(Num("2")), End)), Mul, Apply(Group(Sum(Single(Num("3")), End)), Mul, Apply(Group(Sum(Single(Num("4")), End)), Mul, Single(Group(Sum(Single(Num("5")), End))))))), End)
    ensures RenderSum(e) == [LeftParen] + ([Number("1")] + ([RightParen] + ([Multiply] + ([LeftParen] + ([Number("2")] + ([RightParen] + ([Multiply] + ([LeftParen] + ([Number("3")] + ([RightParen] + ([Multiply] + ([LeftParen] + ([Number("4")] + ([RightParen] + ([Multiply] + ([LeftParen] + ([Number("5")] + ([RightParen] + []))))))))))))))))))
  {
    var a1 := Num("1");
    assert RenderAtom(a1) == [Number("1")] + [];
    var p2 := Single(a1);
    assert RenderProduct(p2) == [Number("1")] + [];
    var t3: SumTail := End;
    assert RenderTail(t3) == [];
    var e4 := Sum(p2, t3);
    assert RenderSum(e4) == [Number("1")] + [];
    var a5 := Group(e4);
    assert RenderAtom(a5) == [LeftParen] + ([Number("1")] + ([RightParen] + []));
    var a6 := Num("2");
    assert RenderAtom(a6) == [Number("2")] + [];
    var p7 := Single(a6);
    assert RenderProduct(p7) == [Number("2")] + [];
    var t8: SumTail := End;
    assert RenderTail(t8) == [];
    var e9 := Sum(p7, t8);
    assert RenderSum(e9) == [Number("2")] + [];
    var a10 := Group(e9);
    assert RenderAtom(a10) == [LeftParen] + ([Number("2")] + ([RightParen] + []));
    var a11 := Num("3");
    assert RenderAtom(a11) == [Number("3")] + [];
    var p12 := Single(a11);
    assert RenderProduct(p12) == [Number("3")] + [];
    var t13: SumTail := End;
    assert RenderTail(t13) == [];
    var e14 := Sum(p12, t13);
    assert RenderSum(e14) == [Number("3")] + [];
    var a15 := Group(e14);
    assert RenderAtom(a15) == [LeftParen] + ([Number("3")] + ([RightParen] + []));
    var a16 := Num("4");
    assert RenderAtom(a16) == [Number("4")] + [];
    var p17 := Single(a16);
    assert RenderProduct(p17) == [Number("4")] + [];
    var t18: SumTail := End;
    assert RenderTail(t18) == [];
    var e19 := Sum(p17, t18);
    assert RenderSum(e19) == [Number("4")] + [];
    var a20 := Group(e19);
    assert RenderAtom(a20) == [LeftParen] + ([Number("4")] + ([RightParen] + []));
    var a21 := Num("5");
    assert RenderAtom(a21) == [Number("5")] + [];
    var p22 := Single(a21);
    assert RenderProduct(p22) == [Number("5")] + [];
    var t23: SumTail := End;
    assert RenderTail(t23) == [];
    var e24 := Sum(p22, t23);
    assert RenderSum(e24) == [Number("5")] + [];
    var a25 := Group(e24);
    assert RenderAtom(a25) == [LeftParen] + ([Number("5")] + ([RightParen] + []));
    var p26 := Single(a25);
    assert RenderProduct(p26) == [LeftParen] + ([Number("5")] + ([RightParen] + []));
    var p27 := Apply(a20, Mul, p26);
    assert RenderProduct(p27) == [LeftParen] + ([Number("4")] + ([RightParen] + ([Multiply] + ([LeftParen] + ([Number("5")] + ([RightParen] + []))))));
    var p28 := ExplicitGroupsPart28(a15, p27);
    var p29 := ExplicitGroupsPart29(a10, p28);
    var p30 := ExplicitGroupsPart30(a5, p29);
    var t31: SumTail := End;
    assert RenderTail(t31) == [];
    var e32 := ExplicitGroupsPart32(p30, t31);
    e := e32;
  }

  lemma ExplicitGroupsValue(e: Sum)
    requires e == Sum(Apply(Group(Sum(Single(Num("1")), End)), Mul, Apply(Group(Sum(Single(Num("2")), End)), Mul, Apply(Group(Sum(Single(Num("3")), End)), Mul, Apply(Group(Sum(Single(Num("4")), End)), Mul, Single(Group(Sum(Single(Num("5")), End))))))), End)
    ensures EvalSum(e) == Some(120.0)
  {
    ValueOf1();
    ValueOf2();
    ValueOf3();
    ValueOf4();
    ValueOf5();
    var a1 := Num("1");
    assert EvalAtom(a1) == Some(1.0);
    var p2 := Single(a1);
    assert EvalProduct(p2) == Some(1.0);
    var t3: SumTail := End;
    var e4 := Sum(p2, t3);
    assert EvalTail(1.0, t3) == Some(1.0);
    assert EvalSum(e4) == Some(1.0);
    var a5 := Group(e4);
    assert EvalAtom(a5) == Some(1.0);
    var a6 := Num("2");
    assert EvalAtom(a6) == Some(2.0);
    var p7 := Single(a6);
    assert EvalProduct(p7) == Some(2.0);
    var t8: SumTail := End;
    var e9 := Sum(p7, t8);
    assert EvalTail(2.0, t8) == Some(2.0);
    assert EvalSum(e9) == Some(2.0);
    var a10 := Group(e9);
    assert EvalAtom(a10) == Some(2.0);
    var a11 := Num("3");
    assert EvalAtom(a11) == Some(3.0);
    var p12 := Single(a11);
    assert EvalProduct(p12) == Some(3.0);
    var t13: SumTail := End;
    var e14 := Sum(p12, t13);
    assert EvalTail(3.0, t13) == Some(3.0);
    assert EvalSum(e14) == Some(3.0);
    var a15 := Group(e14);
    assert EvalAtom(a15) == Some(3.0);
    var a16 := Num("4");
    assert EvalAtom(a16) == Some(4.0);
    var p17 := Single(a16);
    assert EvalProduct(p17) == Some(4.0);
    var t18: SumTail := End;
    var e19 := Sum(p17, t18);
    assert EvalTail(4.0, t18) == Some(4.0);
    assert EvalSum(e19) == Some(4.0);
    var a20 := Group(e19);
    assert EvalAtom(a20) == Some(4.0);
    var a21 := Num("5");
    assert EvalAtom(a21) == Some(5.0);
    var p22 := Single(a21);
    assert EvalProduct(p22) == Some(5.0);
    var t23: SumTail := End;
    var e24 := Sum(p22, t23);
    assert EvalTail(5.0, t23) == Some(5.0);
    assert EvalSum(e24) == Some(5.0);
    var a25 := Group(e24);
    assert EvalAtom(a25) == Some(5.0);
    var p26 := Single(a25);
    assert EvalProduct(p26) == Some(5.0);
    var p27 := Apply(a20, Mul, p26);
    assert EvalProduct(p27) == Some(20.0);
    var p28 := Apply(a15, Mul, p27);
    assert EvalProduct(p28) == Some(60.0);
    var p29 := Apply(a10, Mul, p28);
    assert EvalProduct(p29) == Some(120.0);
    var p30 := Apply(a5, Mul, p29);
    assert EvalProduct(p30) == Some(120.0);
    var t31: SumTail := End;
    var e32 := Sum(p30, t31);
    assert EvalTail(120.0, t31) == Some(120.0);
    assert EvalSum(e32) == Some(120.0);
    assert e == e32;
  }

  lemma ExplicitGroupsTree() returns (e: Sum)
    ensures RenderSum(e) == [LeftParen] + ([Number("1")] + ([RightParen] + ([Multiply] + ([LeftParen] + ([Number("2")] + ([RightParen] + ([Multiply] + ([LeftParen] + ([Number("3")] + ([RightParen] + ([Multiply] + ([LeftParen] + ([Number("4")] + ([RightParen] + ([Multiply] + ([LeftParen] + ([Number("5")] + ([RightParen] + []))))))))))))))))))
    ensures EvalSum(e) == Some(120.0)
  {
    e := ExplicitGroupsRender();
    ExplicitGroupsValue(e);
  }

  lemma ExplicitGroupsLexed()
    ensures Tokenize("(1)*(2)*(3)*(4)*(5)") == Ok([LeftParen] + ([Number("1")] + ([RightParen] + ([Multiply] + ([LeftParen] + ([Number("2")] + ([RightParen] + ([Multiply] + ([LeftParen] + ([Number("3")] + ([RightParen] + ([Multiply] + ([LeftParen] + ([Number("4")] + ([RightParen] + ([Multiply] + ([LeftParen] + ([Number("5")] + ([RightParen] + [])))))))))))))))))))
  {
    var none: seq<Token> := [];
    var s1, t1 := ExplicitGroupsTokens1("", none);
    var s2, t2 := ExplicitGroupsTokens2(s1, t1);
    var s3, t3 := ExplicitGroupsTokens3(s2, t2);
    var s4, t4 := ExplicitGroupsTokens4(s3, t3);
    var s5, t5 := ExplicitGroupsTokens5(s4, t4);
    var s6, t6 := ExplicitGroupsTokens6(s5, t5);
    ExplicitGroupsText();
  }

  /** With the multiplications written out, `(1)*(2)*(3)*(4)*(5)` is 120. */
  lemma ExplicitFiveGroups()
    ensures Evaluate("(1)*(2)*(3)*(4)*(5)") == Ok(120.0)
  {
    ExplicitGroupsLexed();
    var e := ExplicitGroupsTree();
    EvaluatesTree("(1)*(2)*(3)*(4)*(5)", e);
  }

  /** `(30)(2)`, read one token at a time from the back, in 2 parts. */
  lemma ImpliedTokens1(tail: string, rest: seq<Token>) returns (s: string, ts: seq<Token>)
    requires Tokenize(tail) == Ok(rest)
    requires |tail| == 0 || !IsNumberChar(tail[0])
    ensures Tokenize(s) == Ok(ts)
    ensures |s| > 0 && !IsNumberChar(s[0])
    ensures ts == [LeftParen] + ([Number("2")] + ([RightParen] + rest))
    ensures s == ['('] + ("2" + ([')'] + tail))
  {
    var s0, r0 := tail, rest;
    var s1 := [')'] + s0;
    TokenizeChar(')', s0);
    var r1 := [RightParen] + r0;
    assert Tokenize(s1) == Ok(r1);
    var s2 := "2" + s1;
    TokenizeRun("2", s1);
    var r2 := [Number("2")] + r1;
    assert Tokenize(s2) == Ok(r2);
    var s3 := ['('] + s2;
    TokenizeChar('(', s2);
    var r3 := [LeftParen] + r2;
    assert Tokenize(s3) == Ok(r3);
    s, ts := s3, r3;
  }

  lemma ImpliedTokens2(tail: string, rest: seq<Token>) returns (s: string, ts: seq<Token>)
    requires Tokenize(tail) == Ok(rest)
    requires |tail| == 0 || !IsNumberChar(tail[0])
    ensures Tokenize(s) == Ok(ts)
    ensures |s| > 0 && !IsNumberChar(s[0])
    ensures ts == [LeftParen] + ([Number("30")] + ([RightParen] + rest))
    ensures s == ['('] + ("30" + ([')'] + tail))
  {
    var s0, r0 := tail, rest;
    var s1 := [')'] + s0;
    TokenizeChar(')', s0);
    var r1 := [RightParen] + r0;
    assert Tokenize(s1) == Ok(r1);
    var s2 := "30" + s1;
    TokenizeRun("30", s1);
    var r2 := [Number("30")] + r1;
    assert Tokenize(s2) == Ok(r2);
    var s3 := ['('] + s2;
    TokenizeChar('(', s2);
    var r3 := [LeftParen] + r2;
    assert Tokenize(s3) == Ok(r3);
    s, ts := s3, r3;
  }

  lemma ImpliedText()
    ensures "(30)(2)" == ['('] + ("30" + ([')'] + (['('] + ("2" + ([')'] + "")))))
  {
  }

  lemma ImpliedBalanced(ts: seq<Token>)
    requires ts == [LeftParen] + ([Number("30")] + ([RightParen] + ([LeftParen] + ([Number("2")] + ([RightParen] + [])))))
    ensures MatchParenthesis(ts) == None
  {
    assert Balance.Scan(ts, LeftParen, RightParen, 6, 0) == None;
    assert Balance.Scan(ts, LeftParen, RightParen, 5, 1) == None;
    assert Balance.Scan(ts, LeftParen, RightParen, 4, 1) == None;
    assert Balance.Scan(ts, LeftParen, RightParen, 3, 0) == None;
    assert Balance.Scan(ts, LeftParen, RightParen, 2, 1) == None;
    assert Balance.Scan(ts, LeftParen, RightParen, 1, 1) == None;
    assert Balance.Scan(ts, LeftParen, RightParen, 0, 0) == None;
  }

  lemma ImpliedLoop1(cur: seq<Token>) returns (next: seq<Token>)
    requires cur == [LeftParen] + ([Number("30")] + ([RightParen] + ([LeftParen] + ([Number("2")] + ([RightParen] + [])))))
    ensures |next| == 6
    ensures Insertion.ImplyLoop(cur, 0, 5, RightParen, LeftParen, Multiply)
         == Insertion.ImplyLoop(next, 2, 5, RightParen, LeftParen, Multiply)
    ensures next == [LeftParen] + ([Number("30")] + ([RightParen] + ([LeftParen] + ([Number("2")] + ([RightParen] + [])))))
  {
    var u1 := [LeftParen] + ([Number("30")] + ([RightParen] + ([LeftParen] + ([Number("2")] + ([RightParen] + [])))));
    assert Insertion.Step(cur, 0, RightParen, LeftParen, Multiply) == u1;
    var u2 := [LeftParen] + ([Number("30")] + ([RightParen] + ([LeftParen] + ([Number("2")] + ([RightParen] + [])))));
    assert Insertion.Step(u1, 1, RightParen, LeftParen, Multiply) == u2;
    assert Insertion.ImplyLoop(u1, 1, 5, RightParen, LeftParen, Multiply) == Insertion.ImplyLoop(u2, 2, 5, RightParen, LeftParen, Multiply);
    assert Insertion.ImplyLoop(cur, 0, 5, RightParen, LeftParen, Multiply) == Insertion.ImplyLoop(u2, 2, 5, RightParen, LeftParen, Multiply);
    next := u2;
  }

  lemma ImpliedLoop2(cur: seq<Token>) returns (next: seq<Token>)
    requires cur == [LeftParen] + ([Number("30")] + ([RightParen] + ([LeftParen] + ([Number("2")] + ([RightParen] + [])))))
    ensures |next| == 7
    ensures Insertion.ImplyLoop(cur, 2, 5, RightParen, LeftParen, Multiply)
         == Insertion.ImplyLoop(next, 4, 5, RightParen, LeftParen, Multiply)
    ensures next == [LeftParen] + ([Number("30")] + ([RightParen] + ([Multiply] + ([LeftParen] + ([Number("2")] + ([RightParen] + []))))))
  {
    var u3 := [LeftParen] + ([Number("30")] + ([RightParen] + ([Multiply] + ([LeftParen] + ([Number("2")] + ([RightParen] + []))))));
    assert Insertion.Step(cur, 2, RightParen, LeftParen, Multiply) == u3;
    var u4 := [LeftParen] + ([Number("30")] + ([RightParen] + ([Multiply] + ([LeftParen] + ([Number("2")] + ([RightParen] + []))))));
    assert Insertion.Step(u3, 3, RightParen, LeftParen, Multiply) == u4;
    assert Insertion.ImplyLoop(u3, 3, 5, RightParen, LeftParen, Multiply) == Insertion.ImplyLoop(u4, 4, 5, RightParen, LeftParen, Multiply);
    assert Insertion.ImplyLoop(cur, 2, 5, RightParen, LeftParen, Multiply) == Insertion.ImplyLoop(u4, 4, 5, RightParen, LeftParen, Multiply);
    next := u4;
  }

  lemma ImpliedLoop3(cur: seq<Token>) returns (next: seq<Token>)
    requires cur == [LeftParen] + ([Number("30")] + ([RightParen] + ([Multiply] + ([LeftParen] + ([Number("2")] + ([RightParen] + []))))))
    ensures |next| == 7
    ensures Insertion.ImplyLoop(cur, 4, 5, RightParen, LeftParen, Multiply)
         == Insertion.ImplyLoop(next, 5, 5, RightParen, LeftParen, Multiply)
    ensures next == [LeftParen] + ([Number("30")] + ([RightParen] + ([Multiply] + ([LeftParen] + ([Number("2")] + ([RightParen] + []))))))
  {
    var u5 := [LeftParen] + ([Number("30")] + ([RightParen] + ([Multiply] + ([LeftParen] + ([Number("2")] + ([RightParen] + []))))));
    assert Insertion.Step(cur, 4, RightParen, LeftParen, Multiply) == u5;
    assert Insertion.ImplyLoop(cur, 4, 5, RightParen, LeftParen, Multiply) == Insertion.ImplyLoop(u5, 5, 5, RightParen, LeftParen, Multiply);
    next := u5;
  }

  lemma ImpliedInsert(ts: seq<Token>) returns (implied: seq<Token>)
    requires ts == [LeftParen] + ([Number("30")] + ([RightParen] + ([LeftParen] + ([Number("2")] + ([RightParen] + [])))))
    ensures MatchParenthesis(ts) == None
    ensures ImplyMultiplication(ts) == implied
    ensures implied == [LeftParen] + ([Number("30")] + ([RightParen] + ([Multiply] + ([LeftParen] + ([Number("2")] + ([RightParen] + []))))))
  {
    ImpliedBalanced(ts);
    var c1 := ImpliedLoop1(ts);
    var c2 := ImpliedLoop2(c1);
    var c3 := ImpliedLoop3(c2);
    assert Insertion.ImplyLoop(c3, 5, 5, RightParen, LeftParen, Multiply) == c3;
    implied := c3;
  }

  lemma ImpliedRender() returns (e: Sum)
    ensures e == Sum(Apply(Group(Sum(Single(Num("30")), End)), Mul, Single(Group(Sum(Single(Num("2")), End)))), End)
    ensures RenderSum(e) == [LeftParen] + ([Number("30")] + ([RightParen] + ([Multiply] + ([LeftParen] + ([Number("2")] + ([RightParen] + []))))))
  {
    var a1 := Num("30");
    assert RenderAtom(a1) == [Number("30")] + [];
    var p2 := Single(a1);
    assert RenderProduct(p2) == [Number("30")] + [];
    var t3: SumTail := End;
    assert RenderTail(t3) == [];
    var e4 := Sum(p2, t3);
    assert RenderSum(e4) == [Number("30")] + [];
    var a5 := Group(e4);
    assert RenderAtom(a5) == [LeftParen] + ([Number("30")] + ([RightParen] + []));
    var a6 := Num("2");
    assert RenderAtom(a6) == [Number("2")] + [];
    var p7 := Single(a6);
    assert RenderProduct(p7) == [Number("2")] + [];
    var t8: SumTail := End;
    assert RenderTail(t8) == [];
    var e9 := Sum(p7, t8);
    assert RenderSum(e9) == [Number("2")] + [];
    var a10 := Group(e9);
    assert RenderAtom(a10) == [LeftParen] + ([Number("2")] + ([RightParen] + []));
    var p11 := Single(a10);
    assert RenderProduct(p11) == [LeftParen] + ([Number("2")] + ([RightParen] + []));
    var p12 := Apply(a5, Mul, p11);
    assert RenderProduct(p12) == [LeftParen] + ([Number("30")] + ([RightParen] + ([Multiply] + ([LeftParen] + ([Number("2")] + ([RightParen] + []))))));
    var t13: SumTail := End;
    assert RenderTail(t13) == [];
    var e14 := Sum(p12, t13);
    assert RenderSum(e14) == [LeftParen] + ([Number("30")] + ([RightParen] + ([Multiply] + ([LeftParen] + ([Number("2")] + ([RightParen] + []))))));
    e := e14;
  }

  lemma ImpliedValue(e: Sum)
    requires e == Sum(Apply(Group(Sum(Single(Num("30")), End)), Mul, Single(Group(Sum(Single(Num("2")), End)))), End)
    ensures EvalSum(e) == Some(60.0)
  {
    ValueOf2();
    ValueOf30();
    var a1 := Num("30");
    assert EvalAtom(a1) == Some(30.0);
    var p2 := Single(a1);
    assert EvalProduct(p2) == Some(30.0);
    var t3: SumTail := End;
    var e4 := Sum(p2, t3);
    assert EvalTail(30.0, t3) == Some(30.0);
    assert EvalSum(e4) == Some(30.0);
    var a5 := Group(e4);
    assert EvalAtom(a5) == Some(30.0);
    var a6 := Num("2");
    assert EvalAtom(a6) == Some(2.0);
    var p7 := Single(a6);
    assert EvalProduct(p7) == Some(2.0);
    var t8: SumTail := End;
    var e9 := Sum(p7, t8);
    assert EvalTail(2.0, t8) == Some(2.0);
    assert EvalSum(e9) == Some(2.0);
    var a10 := Group(e9);
    assert EvalAtom(a10) == Some(2.0);
    var p11 := Single(a10);
    assert EvalProduct(p11) == Some(2.0);
    var p12 := Apply(a5, Mul, p11);
    assert EvalProduct(p12) == Some(60.0);
    var t13: SumTail := End;
    var e14 := Sum(p12, t13);
    assert EvalTail(60.0, t13) == Some(60.0);
    assert EvalSum(e14) == Some(60.0);
    assert e == e14;
  }

  lemma ImpliedTree() returns (e: Sum)
    ensures RenderSum(e) == [LeftParen] + ([Number("30")] + ([RightParen] + ([Multiply] + ([LeftParen] + ([Number("2")] + ([RightParen] + []))))))
    ensures EvalSum(e) == Some(60.0)
  {
    e := ImpliedRender();
    ImpliedValue(e);
  }

  lemma ImpliedLexed()
    ensures Tokenize("(30)(2)") == Ok([LeftParen] + ([Number("30")] + ([RightParen] + ([LeftParen] + ([Number("2")] + ([RightParen] + []))))))
  {
    var none: seq<Token> := [];
    var s1, t1 := ImpliedTokens1("", none);
    var s2, t2 := ImpliedTokens2(s1, t1);
    ImpliedText();
  }

  /** From `parsing_works`: `(30)(2)` is 60, through the implied multiplication. */
  lemma ParsingWorksImplied()
    ensures Evaluate("(30)(2)") == Ok(60.0)
  {
    ImpliedLexed();
    var implied := ImpliedInsert([LeftParen] + ([Number("30")] + ([RightParen] + ([LeftParen] + ([Number("2")] + ([RightParen] + []))))));
    ImpliedParsed(implied);
  }

  lemma ImpliedParsed(implied: seq<Token>)
    requires implied == [LeftParen] + ([Number("30")] + ([RightParen] + ([Multiply] + ([LeftParen] + ([Number("2")] + ([RightParen] + []))))))
    ensures Outcome(ParseExpr(implied, 0)) == Ok(60.0)
  {
    var e := ImpliedTree();
    ParseRendering(e);
  }

  /** `(1)(2)(3)(4)(5)`, read one token at a time from the back, in 5 parts. */
  lemma FiveGroupsTokens1(tail: string, rest: seq<Token>) returns (s: string, ts: seq<Token>)
    requires Tokenize(tail) == Ok(rest)
    requires |tail| == 0 || !IsNumberChar(tail[0])
    ensures Tokenize(s) == Ok(ts)
    ensures |s| > 0 && !IsNumberChar(s[0])
    ensures ts == [LeftParen] + ([Number("5")] + ([RightParen] + rest))
    ensures s == ['('] + ("5" + ([')'] + tail))
  {
    var s0, r0 := tail, rest;
    var s1 := [')'] + s0;
    TokenizeChar(')', s0);
    var r1 := [RightParen] + r0;
    assert Tokenize(s1) == Ok(r1);
    var s2 := "5" + s1;
    TokenizeRun("5", s1);
    var r2 := [Number("5")] + r1;
    assert Tokenize(s2) == Ok(r2);
    var s3 := ['('] + s2;
    TokenizeChar('(', s2);
    var r3 := [LeftParen] + r2;
    assert Tokenize(s3) == Ok(r3);
    s, ts := s3, r3;
  }

  lemma FiveGroupsTokens2(tail: string, rest: seq<Token>) returns (s: string, ts: seq<Token>)
    requires Tokenize(tail) == Ok(rest)
    requires |tail| == 0 || !IsNumberChar(tail[0])
    ensures Tokenize(s) == Ok(ts)
    ensures |s| > 0 && !IsNumberChar(s[0])
    ensures ts == [LeftParen] + ([Number("4")] + ([RightParen] + rest))
    ensures s == ['('] + ("4" + ([')'] + tail))
  {
    var s0, r0 := tail, rest;
    var s1 := [')'] + s0;
    TokenizeChar(')', s0);
    var r1 := [RightParen] + r0;
    assert Tokenize(s1) == Ok(r1);
    var s2 := "4" + s1;
    TokenizeRun("4", s1);
    var r2 := [Number("4")] + r1;
    assert Tokenize(s2) == Ok(r2);
    var s3 := ['('] + s2;
    TokenizeChar('(', s2);
    var r3 := [LeftParen] + r2;
    assert Tokenize(s3) == Ok(r3);
    s, ts := s3, r3;
  }

  lemma FiveGroupsTokens3(tail: string, rest: seq<Token>) returns (s: string, ts: seq<Token>)
    requires Tokenize(tail) == Ok(rest)
    requires |tail| == 0 || !IsNumberChar(tail[0])
    ensures Tokenize(s) == Ok(ts)
    ensures |s| > 0 && !IsNumberChar(s[0])
    ensures ts == [LeftParen] + ([Number("3")] + ([RightParen] + rest))
    ensures s == ['('] + ("3" + ([')'] + tail))
  {
    var s0, r0 := tail, rest;
    var s1 := [')'] + s0;
    TokenizeChar(')', s0);
    var r1 := [RightParen] + r0;
    assert Tokenize(s1) == Ok(r1);
    var s2 := "3" + s1;
    TokenizeRun("3", s1);
    var r2 := [Number("3")] + r1;
    assert Tokenize(s2) == Ok(r2);
    var s3 := ['('] + s2;
    TokenizeChar('(', s2);
    var r3 := [LeftParen] + r2;
    assert Tokenize(s3) == Ok(r3);
    s, ts := s3, r3;
  }

  lemma FiveGroupsTokens4(tail: string, rest: seq<Token>) returns (s: string, ts: seq<Token>)
    requires Tokenize(tail) == Ok(rest)
    requires |tail| == 0 || !IsNumberChar(tail[0])
    ensures Tokenize(s) == Ok(ts)
    ensures |s| > 0 && !IsNumberChar(s[0])
    ensures ts == [LeftParen] + ([Number("2")] + ([RightParen] + rest))
    ensures s == ['('] + ("2" + ([')'] + tail))
  {
    var s0, r0 := tail, rest;
    var s1 := [')'] + s0;
    TokenizeChar(')', s0);
    var r1 := [RightParen] + r0;
    assert Tokenize(s1) == Ok(r1);
    var s2 := "2" + s1;
    TokenizeRun("2", s1);
    var r2 := [Number("2")] + r1;
    assert Tokenize(s2) == Ok(r2);
    var s3 := ['('] + s2;
    TokenizeChar('(', s2);
    var r3 := [LeftParen] + r2;
    assert Tokenize(s3) == Ok(r3);
    s, ts := s3, r3;
  }

  lemma FiveGroupsTokens5(tail: string, rest: seq<Token>) returns (s: string, ts: seq<Token>)
    requires Tokenize(tail) == Ok(rest)
    requires |tail| == 0 || !IsNumberChar(tail[0])
    ensures Tokenize(s) == Ok(ts)
    ensures |s| > 0 && !IsNumberChar(s[0])
    ensures ts == [LeftParen] + ([Number("1")] + ([RightParen] + rest))
    ensures s == ['('] + ("1" + ([')'] + tail))
  {
    var s0, r0 := tail, rest;
    var s1 := [')'] + s0;
    TokenizeChar(')', s0);
    var r1 := [RightParen] + r0;
    assert Tokenize(s1) == Ok(r1);
    var s2 := "1" + s1;
    TokenizeRun("1", s1);
    var r2 := [Number("1")] + r1;
    assert Tokenize(s2) == Ok(r2);
    var s3 := ['('] + s2;
    TokenizeChar('(', s2);
    var r3 := [LeftParen] + r2;
    assert Tokenize(s3) == Ok(r3);
    s, ts := s3, r3;
  }

  lemma FiveGroupsText()
    ensures "(1)(2)(3)(4)(5)" == ['('] + ("1" + ([')'] + (['('] + ("2" + ([')'] + (['('] + ("3" + ([')'] + (['('] + ("4" + ([')'] + (['('] + ("5" + ([')'] + ""))))))))))))))
  {
  }

  lemma FiveGroupsBalanced(ts: seq<Token>)
    requires ts == [LeftParen] + ([Number("1")] + ([RightParen] + ([LeftParen] + ([Number("2")] + ([RightParen] + ([LeftParen] + ([Number("3")] + ([RightParen] + ([LeftParen] + ([Number("4")] + ([RightParen] + ([LeftParen] + ([Number("5")] + ([RightParen] + []))))))))))))))
    ensures MatchParenthesis(ts) == None
  {
    assert Balance.Scan(ts, LeftParen, RightParen, 15, 0) == None;
    assert Balance.Scan(ts, LeftParen, RightParen, 14, 1) == None;
    assert Balance.Scan(ts, LeftParen, RightParen, 13, 1) == None;
    assert Balance.Scan(ts, LeftParen, RightParen, 12, 0) == None;
    assert Balance.Scan(ts, LeftParen, RightParen, 11, 1) == None;
    assert Balance.Scan(ts, LeftParen, RightParen, 10, 1) == None;
    assert Balance.Scan(ts, LeftParen, RightParen, 9, 0) == None;
    assert Balance.Scan(ts, LeftParen, RightParen, 8, 1) == None;
    assert Balance.Scan(ts, LeftParen, RightParen, 7, 1) == None;
    assert Balance.Scan(ts, LeftParen, RightParen, 6, 0) == None;
    assert Balance.Scan(ts, LeftParen, RightParen, 5, 1) == None;
    assert Balance.Scan(ts, LeftParen, RightParen, 4, 1) == None;
    assert Balance.Scan(ts, LeftParen, RightParen, 3, 0) == None;
    assert Balance.Scan(ts, LeftParen, RightParen, 2, 1) == None;
    assert Balance.Scan(ts, LeftParen, RightParen, 1, 1) == None;
    assert Balance.Scan(ts, LeftParen, RightParen, 0, 0) == None;
  }

  lemma FiveGroupsLoop1(cur: seq<Token>) returns (next: seq<Token>)
    requires cur == [LeftParen] + ([Number("1")] + ([RightParen] + ([LeftParen] + ([Number("2")] + ([RightParen] + ([LeftParen] + ([Number("3")] + ([RightParen] + ([LeftParen] + ([Number("4")] + ([RightParen] + ([LeftParen] + ([Number("5")] + ([RightParen] + []))))))))))))))
    ensures |next| == 15
    ensures Insertion.ImplyLoop(cur, 0, 14, RightParen, LeftParen, Multiply)
         == Insertion.ImplyLoop(next, 2, 14, RightParen, LeftParen, Multiply)
    ensures next == [LeftParen] + ([Number("1")] + ([RightParen] + ([LeftParen] + ([Number("2")] + ([RightParen] + ([LeftParen] + ([Number("3")] + ([RightParen] + ([LeftParen] + ([Number("4")] + ([RightParen] + ([LeftParen] + ([Number("5")] + ([RightParen] + []))))))))))))))
  {
    var u1 := [LeftParen] + ([Number("1")] + ([RightParen] + ([LeftParen] + ([Number("2")] + ([RightParen] + ([LeftParen] + ([Number("3")] + ([RightParen] + ([LeftParen] + ([Number("4")] + ([RightParen] + ([LeftParen] + ([Number("5")] + ([RightParen] + []))))))))))))));
    assert Insertion.Step(cur, 0, RightParen, LeftParen, Multiply) == u1;
    var u2 := [LeftParen] + ([Number("1")] + ([RightParen] + ([LeftParen] + ([Number("2")] + ([RightParen] + ([LeftParen] + ([Number("3")] + ([RightParen] + ([LeftParen] + ([Number("4")] + ([RightParen] + ([LeftParen] + ([Number("5")] + ([RightParen] + []))))))))))))));
    assert Insertion.Step(u1, 1, RightParen, LeftParen, Multiply) == u2;
    assert Insertion.ImplyLoop(u1, 1, 14, RightParen, LeftParen, Multiply) == Insertion.ImplyLoop(u2, 2, 14, RightParen, LeftParen, Multiply);
    assert Insertion.ImplyLoop(cur, 0, 14, RightParen, LeftParen, Multiply) == Insertion.ImplyLoop(u2, 2, 14, RightParen, LeftParen, Multiply);
    next := u2;
  }

  lemma FiveGroupsLoop2(cur: seq<Token>) returns (next: seq<Token>)
    requires cur == [LeftParen] + ([Number("1")] + ([RightParen] + ([LeftParen] + ([Number("2")] + ([RightParen] + ([LeftParen] + ([Number("3")] + ([RightParen] + ([LeftParen] + ([Number("4")] + ([RightParen] + ([LeftParen] + ([Number("5")] + ([RightParen] + []))))))))))))))
    ensures |next| == 16
    ensures Insertion.ImplyLoop(cur, 2, 14, RightParen, LeftParen, Multiply)
         == Insertion.ImplyLoop(next, 4, 14, RightParen, LeftParen, Multiply)
    ensures next == [LeftParen] + ([Number("1")] + ([RightParen] + ([Multiply] + ([LeftParen] + ([Number("2")] + ([RightParen] + ([LeftParen] + ([Number("3")] + ([RightParen] + ([LeftParen] + ([Number("4")] + ([RightParen] + ([LeftParen] + ([Number("5")] + ([RightParen] + [])))))))))))))))
  {
    var u3 := [LeftParen] + ([Number("1")] + ([RightParen] + ([Multiply] + ([LeftParen] + ([Number("2")] + ([RightParen] + ([LeftParen] + ([Number("3")] + ([RightParen] + ([LeftParen] + ([Number("4")] + ([RightParen] + ([LeftParen] + ([Number("5")] + ([RightParen] + [])))))))))))))));
    assert Insertion.Step(cur, 2, RightParen, LeftParen, Multiply) == u3;
    var u4 := [LeftParen] + ([Number("1")] + ([RightParen] + ([Multiply] + ([LeftParen] + ([Number("2")] + ([RightParen] + ([LeftParen] + ([Number("3")] + ([RightParen] + ([LeftParen] + ([Number("4")] + ([RightParen] + ([LeftParen] + ([Number("5")] + ([RightParen] + [])))))))))))))));
    assert Insertion.Step(u3, 3, RightParen, LeftParen, Multiply) == u4;
    assert Insertion.ImplyLoop(u3, 3, 14, RightParen, LeftParen, Multiply) == Insertion.ImplyLoop(u4, 4, 14, RightParen, LeftParen, Multiply);
    assert Insertion.ImplyLoop(cur, 2, 14, RightParen, LeftParen, Multiply) == Insertion.ImplyLoop(u4, 4, 14, RightParen, LeftParen, Multiply);
    next := u4;
  }

  lemma FiveGroupsLoop3(cur: seq<Token>) returns (next: seq<Token>)
    requires cur == [LeftParen] + ([Number("1")] + ([RightParen] + ([Multiply] + ([LeftParen] + ([Number("2")] + ([RightParen] + ([LeftParen] + ([Number("3")] + ([RightParen] + ([LeftParen] + ([Number("4")] + ([RightParen] + ([LeftParen] + ([Number("5")] + ([RightParen] + [])))))))))))))))
    ensures |next| == 16
    ensures Insertion.ImplyLoop(cur, 4, 14, RightParen, LeftParen, Multiply)
         == Insertion.ImplyLoop(next, 6, 14, RightParen, LeftParen, Multiply)
    ensures next == [LeftParen] + ([Number("1")] + ([RightParen] + ([Multiply] + ([LeftParen] + ([Number("2")] + ([RightParen] + ([LeftParen] + ([Number("3")] + ([RightParen] + ([LeftParen] + ([Number("4")] + ([RightParen] + ([LeftParen] + ([Number("5")] + ([RightParen] + [])))))))))))))))
  {
    var u5 := [LeftParen] + ([Number("1")] + ([RightParen] + ([Multiply] + ([LeftParen] + ([Number("2")] + ([RightParen] + ([LeftParen] + ([Number("3")] + ([RightParen] + ([LeftParen] + ([Number("4")] + ([RightParen] + ([LeftParen] + ([Number("5")] + ([RightParen] + [])))))))))))))));
    assert Insertion.Step(cur, 4, RightParen, LeftParen, Multiply) == u5;
    var u6 := [LeftParen] + ([Number("1")] + ([RightParen] + ([Multiply] + ([LeftParen] + ([Number("2")] + ([RightParen] + ([LeftParen] + ([Number("3")] + ([RightParen] + ([LeftParen] + ([Number("4")] + ([RightParen] + ([LeftParen] + ([Number("5")] + ([RightParen] + [])))))))))))))));
    assert Insertion.Step(u5, 5, RightParen, LeftParen, Multiply) == u6;
    assert Insertion.ImplyLoop(u5, 5, 14, RightParen, LeftParen, Multiply) == Insertion.ImplyLoop(u6, 6, 14, RightParen, LeftParen, Multiply);
    assert Insertion.ImplyLoop(cur, 4, 14, RightParen, LeftParen, Multiply) == Insertion.ImplyLoop(u6, 6, 14, RightParen, LeftParen, Multiply);
    next := u6;
  }

  lemma FiveGroupsLoop4(cur: seq<Token>) returns (next: seq<Token>)
    requires cur == [LeftParen] + ([Number("1")] + ([RightParen] + ([Multiply] + ([LeftParen] + ([Number("2")] + ([RightParen] + ([LeftParen] + ([Number("3")] + ([RightParen] + ([LeftParen] + ([Number("4")] + ([RightParen] + ([LeftParen] + ([Number("5")] + ([RightParen] + [])))))))))))))))
    ensures |next| == 17
    ensures Insertion.ImplyLoop(cur, 6, 14, RightParen, LeftParen, Multiply)
         == Insertion.ImplyLoop(next, 8, 14, RightParen, LeftParen, Multiply)
    ensures next == [LeftParen] + ([Number("1")] + ([RightParen] + ([Multiply] + ([LeftParen] + ([Number("2")] + ([RightParen] + ([Multiply] + ([LeftParen] + ([Number("3")] + ([RightParen] + ([LeftParen] + ([Number("4")] + ([RightParen] + ([LeftParen] + ([Number("5")] + ([RightParen] + []))))))))))))))))
  {
    var u7 := [LeftParen] + ([Number("1")] + ([RightParen] + ([Multiply] + ([LeftParen] + ([Number("2")] + ([RightParen] + ([Multiply] + ([LeftParen] + ([Number("3")] + ([RightParen] + ([LeftParen] + ([Number("4")] + ([RightParen] + ([LeftParen] + ([Number("5")] + ([RightParen] + []))))))))))))))));
    assert Insertion.Step(cur, 6, RightParen, LeftParen, Multiply) == u7;
    var u8 := [LeftParen] + ([Number("1")] + ([RightParen] + ([Multiply] + ([LeftParen] + ([Number("2")] + ([RightParen] + ([Multiply] + ([LeftParen] + ([Number("3")] + ([RightParen] + ([LeftParen] + ([Number("4")] + ([RightParen] + ([LeftParen] + ([Number("5")] + ([RightParen] + []))))))))))))))));
    assert Insertion.Step(u7, 7, RightParen, LeftParen, Multiply) == u8;
    assert Insertion.ImplyLoop(u7, 7, 14, RightParen, LeftParen, Multiply) == Insertion.ImplyLoop(u8, 8, 14, RightParen, LeftParen, Multiply);
    assert Insertion.ImplyLoop(cur, 6, 14, RightParen, LeftParen, Multiply) == Insertion.ImplyLoop(u8, 8, 14, RightParen, LeftParen, Multiply);
    next := u8;
  }

  lemma FiveGroupsLoop5(cur: seq<Token>) returns (next: seq<Token>)
    requires cur == [LeftParen] + ([Number("1")] + ([RightParen] + ([Multiply] + ([LeftParen] + ([Number("2")] + ([RightParen] + ([Multiply] + ([LeftParen] + ([Number("3")] + ([RightParen] + ([LeftParen] + ([Number("4")] + ([RightParen] + ([LeftParen] + ([Number("5")] + ([RightParen] + []))))))))))))))))
    ensures |next| == 17
    ensures Insertion.ImplyLoop(cur, 8, 14, RightParen, LeftParen, Multiply)
         == Insertion.ImplyLoop(next, 10, 14, RightParen, LeftParen, Multiply)
    ensures next == [LeftParen] + ([Number("1")] + ([RightParen] + ([Multiply] + ([LeftParen] + ([Number("2")] + ([RightParen] + ([Multiply] + ([LeftParen] + ([Number("3")] + ([RightParen] + ([LeftParen] + ([Number("4")] + ([RightParen] + ([LeftParen] + ([Number("5")] + ([RightParen] + []))))))))))))))))
  {
    var u9 := [LeftParen] + ([Number("1")] + ([RightParen] + ([Multiply] + ([LeftParen] + ([Number("2")] + ([RightParen] + ([Multiply] + ([LeftParen] + ([Number("3")] + ([RightParen] + ([LeftParen] + ([Number("4")] + ([RightParen] + ([LeftParen] + ([Number("5")] + ([RightParen] + []))))))))))))))));
    assert Insertion.Step(cur, 8, RightParen, LeftParen, Multiply) == u9;
    var u10 := [LeftParen] + ([Number("1")] + ([RightParen] + ([Multiply] + ([LeftParen] + ([Number("2")] + ([RightParen] + ([Multiply] + ([LeftParen] + ([Number("3")] + ([RightParen] + ([LeftParen] + ([Number("4")] + ([RightParen] + ([LeftParen] + ([Number("5")] + ([RightParen] + []))))))))))))))));
    assert Insertion.Step(u9, 9, RightParen, LeftParen, Multiply) == u10;
    assert Insertion.ImplyLoop(u9, 9, 14, RightParen, LeftParen, Multiply) == Insertion.ImplyLoop(u10, 10, 14, RightParen, LeftParen, Multiply);
    assert Insertion.ImplyLoop(cur, 8, 14, RightParen, LeftParen, Multiply) == Insertion.ImplyLoop(u10, 10, 14, RightParen, LeftParen, Multiply);
    next := u10;
  }

  lemma FiveGroupsLoop6(cur: seq<Token>) returns (next: seq<Token>)
    requires cur == [LeftParen] + ([Number("1")] + ([RightParen] + ([Multiply] + ([LeftParen] + ([Number("2")] + ([RightParen] + ([Multiply] + ([LeftParen] + ([Number("3")] + ([RightParen] + ([LeftParen] + ([Number("4")] + ([RightParen] + ([LeftParen] + ([Number("5")] + ([RightParen] + []))))))))))))))))
    ensures |next| == 18
    ensures Insertion.ImplyLoop(cur, 10, 14, RightParen, LeftParen, Multiply)
         == Insertion.ImplyLoop(next, 12, 14, RightParen, LeftParen, Multiply)
    ensures next == [LeftParen] + ([Number("1")] + ([RightParen] + ([Multiply] + ([LeftParen] + ([Number("2")] + ([RightParen] + ([Multiply] + ([LeftParen] + ([Number("3")] + ([RightParen] + ([Multiply] + ([LeftParen] + ([Number("4")] + ([RightParen] + ([LeftParen] + ([Number("5")] + ([RightParen] + [])))))))))))))))))
  {
    var u11 := [LeftParen] + ([Number("1")] + ([RightParen] + ([Multiply] + ([LeftParen] + ([Number("2")] + ([RightParen] + ([Multiply] + ([LeftParen] + ([Number("3")] + ([RightParen] + ([Multiply] + ([LeftParen] + ([Number("4")] + ([RightParen] + ([LeftParen] + ([Number("5")] + ([RightParen] + [])))))))))))))))));
    assert Insertion.Step(cur, 10, RightParen, LeftParen, Multiply) == u11;
    var u12 := [LeftParen] + ([Number("1")] + ([RightParen] + ([Multiply] + ([LeftParen] + ([Number("2")] + ([RightParen] + ([Multiply] + ([LeftParen] + ([Number("3")] + ([RightParen] + ([Multiply] + ([LeftParen] + ([Number("4")] + ([RightParen] + ([LeftParen] + ([Number("5")] + ([RightParen] + [])))))))))))))))));
    assert Insertion.Step(u11, 11, RightParen, LeftParen, Multiply) == u12;
    assert Insertion.ImplyLoop(u11, 11, 14, RightParen, LeftParen, Multiply) == Insertion.ImplyLoop(u12, 12, 14, RightParen, LeftParen, Multiply);
    assert Insertion.ImplyLoop(cur, 10, 14, RightParen, LeftParen, Multiply) == Insertion.ImplyLoop(u12, 12, 14, RightParen, LeftParen, Multiply);
    next := u12;
  }

  lemma FiveGroupsLoop7(cur: seq<Token>) returns (next: seq<Token>)
    requires cur == [LeftParen] + ([Number("1")] + ([RightParen] + ([Multiply] + ([LeftParen] + ([Number("2")] + ([RightParen] + ([Multiply] + ([LeftParen] + ([Number("3")] + ([RightParen] + ([Multiply] + ([LeftParen] + ([Number("4")] + ([RightParen] + ([LeftParen] + ([Number("5")] + ([RightParen] + [])))))))))))))))))
    ensures |next| == 18
    ensures Insertion.ImplyLoop(cur, 12, 14, RightParen, LeftParen, Multiply)
         == Insertion.ImplyLoop(next, 14, 14, RightParen, LeftParen, Multiply)
    ensures next == [LeftParen] + ([Number("1")] + ([RightParen] + ([Multiply] + ([LeftParen] + ([Number("2")] + ([RightParen] + ([Multiply] + ([LeftParen] + ([Number("3")] + ([RightParen] + ([Multiply] + ([LeftParen] + ([Number("4")] + ([RightParen] + ([LeftParen] + ([Number("5")] + ([RightParen] + [])))))))))))))))))
  {
    var u13 := [LeftParen] + ([Number("1")] + ([RightParen] + ([Multiply] + ([LeftParen] + ([Number("2")] + ([RightParen] + ([Multiply] + ([LeftParen] + ([Number("3")] + ([RightParen] + ([Multiply] + ([LeftParen] + ([Number("4")] + ([RightParen] + ([LeftParen] + ([Number("5")] + ([RightParen] + [])))))))))))))))));
    assert Insertion.Step(cur, 12, RightParen, LeftParen, Multiply) == u13;
    var u14 := [LeftParen] + ([Number("1")] + ([RightParen] + ([Multiply] + ([LeftParen] + ([Number("2")] + ([RightParen] + ([Multiply] + ([LeftParen] + ([Number("3")] + ([RightParen] + ([Multiply] + ([LeftParen] + ([Number("4")] + ([RightParen] + ([LeftParen] + ([Number("5")] + ([RightParen] + [])))))))))))))))));
    assert Insertion.Step(u13, 13, RightParen, LeftParen, Multiply) == u14;
    assert Insertion.ImplyLoop(u13, 13, 14, RightParen, LeftParen, Multiply) == Insertion.ImplyLoop(u14, 14, 14, RightParen, LeftParen, Multiply);
    assert Insertion.ImplyLoop(cur, 12, 14, RightParen, LeftParen, Multiply) == Insertion.ImplyLoop(u14, 14, 14, RightParen, LeftParen, Multiply);
    next := u14;
  }

  lemma FiveGroupsInsert(ts: seq<Token>) returns (implied: seq<Token>)
    requires ts == [LeftParen] + ([Number("1")] + ([RightParen] + ([LeftParen] + ([Number("2")] + ([RightParen] + ([LeftParen] + ([Number("3")] + ([RightParen] + ([LeftParen] + ([Number("4")] + ([RightParen] + ([LeftParen] + ([Number("5")] + ([RightParen] + []))))))))))))))
    ensures MatchParenthesis(ts) == None
    ensures ImplyMultiplication(ts) == implied
    ensures implied == [LeftParen] + ([Number("1")] + ([RightParen] + ([Multiply] + ([LeftParen] + ([Number("2")] + ([RightParen] + ([Multiply] + ([LeftParen] + ([Number("3")] + ([RightParen] + ([Multiply] + ([LeftParen] + ([Number("4")] + ([RightParen] + ([LeftParen] + ([Number("5")] + ([RightParen] + [])))))))))))))))))
  {
    FiveGroupsBalanced(ts);
    var c1 := FiveGroupsLoop1(ts);
    var c2 := FiveGroupsLoop2(c1);
    var c3 := FiveGroupsLoop3(c2);
    var c4 := FiveGroupsLoop4(c3);
    var c5 := FiveGroupsLoop5(c4);
    var c6 := FiveGroupsLoop6(c5);
    var c7 := FiveGroupsLoop7(c6);
    assert Insertion.ImplyLoop(c7, 14, 14, RightParen, LeftParen, Multiply) == c7;
    implied := c7;
  }

  lemma FiveGroupsPart23(a10: Atom, p22: Product) returns (p23: Product)
    requires RenderAtom(a10) == [LeftParen] + ([Number("2")] + ([RightParen] + []))
    requires RenderProduct(p22) == [LeftParen] + ([Number("3")] + ([RightParen] + ([Multiply] + ([LeftParen] + ([Number("4")] + ([RightParen] + []))))))
    ensures p23 == Apply(a10, Mul, p22)
    ensures RenderProduct(p23) == [LeftParen] + ([Number("2")] + ([RightParen] + ([Multiply] + ([LeftParen] + ([Number("3")] + ([RightParen] + ([Multiply] + ([LeftParen] + ([Number("4")] + ([RightParen] + []))))))))))
  {
    p23 := Apply(a10, Mul, p22);
  }

  lemma FiveGroupsPart24(a5: Atom, p23: Product) returns (p24: Product)
    requires RenderAtom(a5) == [LeftParen] + ([Number("1")] + ([RightParen] + []))
    requires RenderProduct(p23) == [LeftParen] + ([Number("2")] + ([RightParen] + ([Multiply] + ([LeftParen] + ([Number("3")] + ([RightParen] + ([Multiply] + ([LeftParen] + ([Number("4")] + ([RightParen] + []))))))))))
    ensures p24 == Apply(a5, Mul, p23)
    ensures RenderProduct(p24) == [LeftParen] + ([Number("1")] + ([RightParen] + ([Multiply] + ([LeftParen] + ([Number("2")] + ([RightParen] + ([Multiply] + ([LeftParen] + ([Number("3")] + ([RightParen] + ([Multiply] + ([LeftParen] + ([Number("4")] + ([RightParen] + []))))))))))))))
  {
    p24 := Apply(a5, Mul, p23);
  }

  lemma FiveGroupsPart26(p24: Product, t25: SumTail) returns (e26: Sum)
    requires RenderProduct(p24) == [LeftParen] + ([Number("1")] + ([RightParen] + ([Multiply] + ([LeftParen] + ([Number("2")] + ([RightParen] + ([Multiply] + ([LeftParen] + ([Number("3")] + ([RightParen] + ([Multiply] + ([LeftParen] + ([Number("4")] + ([RightParen] + []))))))))))))))
    requires RenderTail(t25) == []
    ensures e26 == Sum(p24, t25)
    ensures RenderSum(e26) == [LeftParen] + ([Number("1")] + ([RightParen] + ([Multiply] + ([LeftParen] + ([Number("2")] + ([RightParen] + ([Multiply] + ([LeftParen] + ([Number("3")] + ([RightParen] + ([Multiply] + ([LeftParen] + ([Number("4")] + ([RightParen] + []))))))))))))))
  {
    e26 := Sum(p24, t25);
  }

  lemma FiveGroupsRender() returns (e: Sum)
    ensures e == Sum(Apply(Group(Sum(Single(Num("1")), End)), Mul, Apply(Group(Sum(Single(Num("2")), End)), Mul, Apply(Group(Sum(Single(Num("3")), End)), Mul, Single(Group(Sum(Single(Num("4")), End)))))), End)
    ensures RenderSum(e) == [LeftParen] + ([Number("1")] + ([RightParen] + ([Multiply] + ([LeftParen] + ([Number("2")] + ([RightParen] + ([Multiply] + ([LeftParen] + ([Number("3")] + ([RightParen] + ([Multiply] + ([LeftParen] + ([Number("4")] + ([RightParen] + []))))))))))))))
  {
    var a1 := Num("1");
    assert RenderAtom(a1) == [Number("1")] + [];
    var p2 := Single(a1);
    assert RenderProduct(p2) == [Number("1")] + [];
    var t3: SumTail := End;
    assert RenderTail(t3) == [];
    var e4 := Sum(p2, t3);
    assert RenderSum(e4) == [Number("1")] + [];
    var a5 := Group(e4);
    assert RenderAtom(a5) == [LeftParen] + ([Number("1")] + ([RightParen] + []));
    var a6 := Num("2");
    assert RenderAtom(a6) == [Number("2")] + [];
    var p7 := Single(a6);
    assert RenderProduct(p7) == [Number("2")] + [];
    var t8: SumTail := End;
    assert RenderTail(t8) == [];
    var e9 := Sum(p7, t8);
    assert RenderSum(e9) == [Number("2")] + [];
    var a10 := Group(e9);
    assert RenderAtom(a10) == [LeftParen] + ([Number("2")] + ([RightParen] + []));
    var a11 := Num("3");
    assert RenderAtom(a11) == [Number("3")] + [];
    var p12 := Single(a11);
    assert RenderProduct(p12) == [Number("3")] + [];
    var t13: SumTail := End;
    assert RenderTail(t13) == [];
    var e14 := Sum(p12, t13);
    assert RenderSum(e14) == [Number("3")] + [];
    var a15 := Group(e14);
    assert RenderAtom(a15) == [LeftParen] + ([Number("3")] + ([RightParen] + []));
    var a16 := Num("4");
    assert RenderAtom(a16) == [Number("4")] + [];
    var p17 := Single(a16);
    assert RenderProduct(p17) == [Number("4")] + [];
    var t18: SumTail := End;
    assert RenderTail(t18) == [];
    var e19 := Sum(p17, t18);
    assert RenderSum(e19) == [Number("4")] + [];
    var a20 := Group(e19);
    assert RenderAtom(a20) == [LeftParen] + ([Number("4")] + ([RightParen] + []));
    var p21 := Single(a20);
    assert RenderProduct(p21) == [LeftParen] + ([Number("4")] + ([RightParen] + []));
    var p22 := Apply(a15, Mul, p21);
    assert RenderProduct(p22) == [LeftParen] + ([Number("3")] + ([RightParen] + ([Multiply] + ([LeftParen] + ([Number("4")] + ([RightParen] + []))))));
    var p23 := FiveGroupsPart23(a10, p22);
    var p24 := FiveGroupsPart24(a5, p23);
    var t25: SumTail := End;
    assert RenderTail(t25) == [];
    var e26 := FiveGroupsPart26(p24, t25);
    e := e26;
  }

  lemma FiveGroupsValue(e: Sum)
    requires e == Sum(Apply(Group(Sum(Single(Num("1")), End)), Mul, Apply(Group(Sum(Single(Num("2")), End)), Mul, Apply(Group(Sum(Single(Num("3")), End)), Mul, Single(Group(Sum(Single(Num("4")), End)))))), End)
    ensures EvalSum(e) == Some(24.0)
  {
    ValueOf1();
    ValueOf2();
    ValueOf3();
    ValueOf4();
    var a1 := Num("1");
    assert EvalAtom(a1) == Some(1.0);
    var p2 := Single(a1);
    assert EvalProduct(p2) == Some(1.0);
    var t3: SumTail := End;
    var e4 := Sum(p2, t3);
    assert EvalTail(1.0, t3) == Some(1.0);
    assert EvalSum(e4) == Some(1.0);
    var a5 := Group(e4);
    assert EvalAtom(a5) == Some(1.0);
    var a6 := Num("2");
    assert EvalAtom(a6) == Some(2.0);
    var p7 := Single(a6);
    assert EvalProduct(p7) == Some(2.0);
    var t8: SumTail := End;
    var e9 := Sum(p7, t8);
    assert EvalTail(2.0, t8) == Some(2.0);
    assert EvalSum(e9) == Some(2.0);
    var a10 := Group(e9);
    assert EvalAtom(a10) == Some(2.0);
    var a11 := Num("3");
    assert EvalAtom(a11) == Some(3.0);
    var p12 := Single(a11);
    assert EvalProduct(p12) == Some(3.0);
    var t13: SumTail := End;
    var e14 := Sum(p12, t13);
    assert EvalTail(3.0, t13) == Some(3.0);
    assert EvalSum(e14) == Some(3.0);
    var a15 := Group(e14);
    assert EvalAtom(a15) == Some(3.0);
    var a16 := Num("4");
    assert EvalAtom(a16) == Some(4.0);
    var p17 := Single(a16);
    assert EvalProduct(p17) == Some(4.0);
    var t18: SumTail := End;
    var e19 := Sum(p17, t18);
    assert EvalTail(4.0, t18) == Some(4.0);
    assert EvalSum(e19) == Some(4.0);
    var a20 := Group(e19);
    assert EvalAtom(a20) == Some(4.0);
    var p21 := Single(a20);
    assert EvalProduct(p21) == Some(4.0);
    var p22 := Apply(a15, Mul, p21);
    assert EvalProduct(p22) == Some(12.0);
    var p23 := Apply(a10, Mul, p22);
    assert EvalProduct(p23) == Some(24.0);
    var p24 := Apply(a5, Mul, p23);
    assert EvalProduct(p24) == Some(24.0);
    var t25: SumTail := End;
    var e26 := Sum(p24, t25);
    assert EvalTail(24.0, t25) == Some(24.0);
    assert EvalSum(e26) == Some(24.0);
    assert e == e26;
  }

  lemma FiveGroupsTree() returns (e: Sum)
    ensures RenderSum(e) == [LeftParen] + ([Number("1")] + ([RightParen] + ([Multiply] + ([LeftParen] + ([Number("2")] + ([RightParen] + ([Multiply] + ([LeftParen] + ([Number("3")] + ([RightParen] + ([Multiply] + ([LeftParen] + ([Number("4")] + ([RightParen] + []))))))))))))))
    ensures EvalSum(e) == Some(24.0)
  {
    e := FiveGroupsRender();
    FiveGroupsValue(e);
  }

  lemma FiveGroupsLexed()
    ensures Tokenize("(1)(2)(3)(4)(5)") == Ok([LeftParen] + ([Number("1")] + ([RightParen] + ([LeftParen] + ([Number("2")] + ([RightParen] + ([LeftParen] + ([Number("3")] + ([RightParen] + ([LeftParen] + ([Number("4")] + ([RightParen] + ([LeftParen] + ([Number("5")] + ([RightParen] + [])))))))))))))))
  {
    var none: seq<Token> := [];
    var s1, t1 := FiveGroupsTokens1("", none);
    var s2, t2 := FiveGroupsTokens2(s1, t1);
    var s3, t3 := FiveGroupsTokens3(s2, t2);
    var s4, t4 := FiveGroupsTokens4(s3, t3);
    var s5, t5 := FiveGroupsTokens5(s4, t4);
    FiveGroupsText();
  }

  /** Five groups side by side: the last `)(` pair gets no `*`, the parse stops before `(5)`, and the value is 24 instead of 120. */
  lemma FiveGroupsAsWritten()
    ensures Evaluate("(1)(2)(3)(4)(5)") == Ok(24.0)
  {
    FiveGroupsLexed();
    var implied := FiveGroupsInsert([LeftParen] + ([Number("1")] + ([RightParen] + ([LeftParen] + ([Number("2")] + ([RightParen] + ([LeftParen] + ([Number("3")] + ([RightParen] + ([LeftParen] + ([Number("4")] + ([RightParen] + ([LeftParen] + ([Number("5")] + ([RightParen] + [])))))))))))))));
    FiveGroupsParsed(implied);
  }

  /** Corrected, `(1)(2)(3)(4)(5)` gets a `*` between every pair and evaluates to 120. */
  lemma FiveGroupsIntended()
    ensures EvaluateIntended("(1)(2)(3)(4)(5)") == Ok(120.0)
  {
    FiveGroupsLexed();
    var ts := [LeftParen] + ([Number("1")] + ([RightParen] + ([LeftParen] + ([Number("2")] + ([RightParen] + ([LeftParen] + ([Number("3")] + ([RightParen] + ([LeftParen] + ([Number("4")] + ([RightParen] + ([LeftParen] + ([Number("5")] + ([RightParen] + []))))))))))))));
    FiveGroupsBalanced(ts);
    FiveGroupsSide(ts);
    FiveGroupsFlags();
    FiveGroupsWeave();
    var e := Bracketed("1") + [Multiply] + Bracketed("2") + [Multiply] + Bracketed("3") + [Multiply] + Bracketed("4") + [Multiply] + Bracketed("5");
    FiveGroupsShape1(e);
    FiveGroupsShape2(e);
    FiveGroupsShape3(e);
    FiveGroupsShape4(e);
    FiveGroupsShape5(e);
    GroupsTimesParse(e);
  }

  /** A number in parentheses. */
  function Bracketed(lex: Lexeme): seq<Token> {
    [LeftParen, Number(lex), RightParen]
  }

  /** The flags of a group followed by another one, and of the last group. */
  function On(): seq<bool> { [false, false, true] }
  function Off(): seq<bool> { [false, false, false] }

  lemma FiveGroupsSide(ts: seq<Token>)
    requires ts == [LeftParen] + ([Number("1")] + ([RightParen] + ([LeftParen] + ([Number("2")] + ([RightParen] + ([LeftParen] + ([Number("3")] + ([RightParen] + ([LeftParen] + ([Number("4")] + ([RightParen] + ([LeftParen] + ([Number("5")] + ([RightParen] + []))))))))))))))
    ensures ts == Bracketed("1") + Bracketed("2") + Bracketed("3") + Bracketed("4") + Bracketed("5")
  {
  }

  /** The corrected pass flags the `)` of every group but the last. */
  lemma FiveGroupsFlags()
    ensures Insertion.PairFlags(Bracketed("1") + Bracketed("2") + Bracketed("3") + Bracketed("4") + Bracketed("5"), RightParen, LeftParen) == On() + On() + On() + On() + Off()
  {
    var ts := Bracketed("1") + Bracketed("2") + Bracketed("3") + Bracketed("4") + Bracketed("5");
    var fs := Insertion.PairFlags(ts, RightParen, LeftParen);
    forall j | 0 <= j < 15
      ensures fs[j] == (On() + On() + On() + On() + Off())[j]
    {
    }
  }

  /** Weaving one group with the flag of its last token. */
  lemma WeaveGroup(lex: Lexeme, flag: bool)
    ensures Insertion.Weave(Bracketed(lex), [false, false, flag], Multiply) == Bracketed(lex) + (if flag then [Multiply] else [])
  {
    var g := Bracketed(lex);
    assert g[..2] == [LeftParen, Number(lex)] && g[..1] == [LeftParen];
    assert [false, false, flag][..2] == [false, false] && [false, false][..1] == [false];
    assert Insertion.Weave([LeftParen, Number(lex)], [false, false], Multiply) == [LeftParen, Number(lex)];
  }

  /** Weaving one more group onto an already woven prefix. */
  lemma WeaveMoreGroup(xs: seq<Token>, fs: seq<bool>, r: seq<Token>, lex: Lexeme, flag: bool)
    requires |fs| == |xs| && Insertion.Weave(xs, fs, Multiply) == r
    ensures Insertion.Weave(xs + Bracketed(lex), fs + [false, false, flag], Multiply)
         == r + Bracketed(lex) + (if flag then [Multiply] else [])
  {
    Insertion.WeaveAppend(xs, fs, Bracketed(lex), [false, false, flag], Multiply);
    WeaveGroup(lex, flag);
  }

  lemma FiveGroupsWeave()
    ensures Insertion.Weave(Bracketed("1") + Bracketed("2") + Bracketed("3") + Bracketed("4") + Bracketed("5"), On() + On() + On() + On() + Off(), Multiply) == Bracketed("1") + [Multiply] + Bracketed("2") + [Multiply] + Bracketed("3") + [Multiply] + Bracketed("4") + [Multiply] + Bracketed("5")
  {
    var none: seq<Token> := [];
    var noFlags: seq<bool> := [];
    assert Insertion.Weave(none, noFlags, Multiply) == none;
    WeaveMoreGroup(none, noFlags, none, "1", true);
    assert none + Bracketed("1") == Bracketed("1") && noFlags + On() == On();
    WeaveMoreGroup(Bracketed("1"), On(), Bracketed("1") + [Multiply], "2", true);
    WeaveMoreGroup(Bracketed("1") + Bracketed("2"), On() + On(), Bracketed("1") + [Multiply] + Bracketed("2") + [Multiply], "3", true);
    WeaveMoreGroup(Bracketed("1") + Bracketed("2") + Bracketed("3"), On() + On() + On(),
      Bracketed("1") + [Multiply] + Bracketed("2") + [Multiply] + Bracketed("3") + [Multiply], "4", true);
    WeaveMoreGroup(Bracketed("1") + Bracketed("2") + Bracketed("3") + Bracketed("4"), On() + On() + On() + On(),
      Bracketed("1") + [Multiply] + Bracketed("2") + [Multiply] + Bracketed("3") + [Multiply] + Bracketed("4") + [Multiply], "5", false);
  }

  lemma FiveGroupsShape1(e: seq<Token>)
    requires e == Bracketed("1") + [Multiply] + Bracketed("2") + [Multiply] + Bracketed("3") + [Multiply] + Bracketed("4") + [Multiply] + Bracketed("5")
    ensures |e| == 19
    ensures e[0] == LeftParen && e[1] == Number("1") && e[2] == RightParen && e[3] == Multiply
  {
  }

  lemma FiveGroupsShape2(e: seq<Token>)
    requires e == Bracketed("1") + [Multiply] + Bracketed("2") + [Multiply] + Bracketed("3") + [Multiply] + Bracketed("4") + [Multiply] + Bracketed("5")
    ensures e[4] == LeftParen && e[5] == Number("2") && e[6] == RightParen && e[7] == Multiply
  {
  }

  lemma FiveGroupsShape3(e: seq<Token>)
    requires e == Bracketed("1") + [Multiply] + Bracketed("2") + [Multiply] + Bracketed("3") + [Multiply] + Bracketed("4") + [Multiply] + Bracketed("5")
    ensures e[8] == LeftParen && e[9] == Number("3") && e[10] == RightParen && e[11] == Multiply
  {
  }

  lemma FiveGroupsShape4(e: seq<Token>)
    requires e == Bracketed("1") + [Multiply] + Bracketed("2") + [Multiply] + Bracketed("3") + [Multiply] + Bracketed("4") + [Multiply] + Bracketed("5")
    ensures e[12] == LeftParen && e[13] == Number("4") && e[14] == RightParen && e[15] == Multiply
  {
  }

  lemma FiveGroupsShape5(e: seq<Token>)
    requires e == Bracketed("1") + [Multiply] + Bracketed("2") + [Multiply] + Bracketed("3") + [Multiply] + Bracketed("4") + [Multiply] + Bracketed("5")
    ensures e[16] == LeftParen && e[17] == Number("5") && e[18] == RightParen
  {
  }

  lemma GroupsTimesParse(e: seq<Token>)
    requires |e| == 19
    requires e[0] == LeftParen && e[1] == Number("1") && e[2] == RightParen && e[3] == Multiply
    requires e[4] == LeftParen && e[5] == Number("2") && e[6] == RightParen && e[7] == Multiply
    requires e[8] == LeftParen && e[9] == Number("3") && e[10] == RightParen && e[11] == Multiply
    requires e[12] == LeftParen && e[13] == Number("4") && e[14] == RightParen && e[15] == Multiply
    requires e[16] == LeftParen && e[17] == Number("5") && e[18] == RightParen
    ensures LibParseIntended.ParseExpr(e, 0) == Some((120.0, 19))
  {
    SmallIntegers();
    LibParseIntended.GroupOfNumber(e, 0, "1");
    LibParseIntended.FactorLoopTimesGroup(e, 1.0, 3, "2");
    LibParseIntended.FactorLoopTimesGroup(e, 2.0, 7, "3");
    LibParseIntended.FactorLoopTimesGroup(e, 6.0, 11, "4");
    LibParseIntended.FactorLoopTimesGroup(e, 24.0, 15, "5");
    assert LibParseIntended.FactorLoop(e, 120.0, 19) == Some((120.0, 19));
    assert LibParseIntended.ParseFactor(e, 0) == Some((120.0, 19));
    assert LibParseIntended.TermLoop(e, 120.0, 19) == Some((120.0, 19));
  }

  lemma FiveGroupsPrefix(implied: seq<Token>, part: seq<Token>)
    requires implied == [LeftParen] + ([Number("1")] + ([RightParen] + ([Multiply] + ([LeftParen] + ([Number("2")] + ([RightParen] + ([Multiply] + ([LeftParen] + ([Number("3")] + ([RightParen] + ([Multiply] + ([LeftParen] + ([Number("4")] + ([RightParen] + ([LeftParen] + ([Number("5")] + ([RightParen] + [])))))))))))))))))
    requires part == [LeftParen] + ([Number("1")] + ([RightParen] + ([Multiply] + ([LeftParen] + ([Number("2")] + ([RightParen] + ([Multiply] + ([LeftParen] + ([Number("3")] + ([RightParen] + ([Multiply] + ([LeftParen] + ([Number("4")] + ([RightParen] + []))))))))))))))
    ensures IsAt(implied, 0, part) && EndsSum(implied, |part|)
  {
    assert implied[0..15] == part;
    IsAtSlice(implied, 0, part);
  }

  lemma FiveGroupsParsed(implied: seq<Token>)
    requires implied == [LeftParen] + ([Number("1")] + ([RightParen] + ([Multiply] + ([LeftParen] + ([Number("2")] + ([RightParen] + ([Multiply] + ([LeftParen] + ([Number("3")] + ([RightParen] + ([Multiply] + ([LeftParen] + ([Number("4")] + ([RightParen] + ([LeftParen] + ([Number("5")] + ([RightParen] + [])))))))))))))))))
    ensures Outcome(ParseExpr(implied, 0)) == Ok(24.0)
  {
    var e := FiveGroupsTree();
    FiveGroupsPrefix(implied, RenderSum(e));
    ParseSumSound(implied, 0, e);
  }

}
