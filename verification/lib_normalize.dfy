/** The two normalisation passes of src/lib.rs on its token type:
    `match_parenthesis` and `imply_multiplication`. */
module LibNormalize {
  import opened Wrappers
  import opened Lexemes
  import opened LibTokenize
  import Balance
  import Insertion

  /** `match_parenthesis` of src/lib.rs. */
  function MatchParenthesis(ts: seq<Token>): Option<bool> {
    Balance.MatchParenthesis(ts, LeftParen, RightParen)
  }

  /** `imply_multiplication` of src/lib.rs, which needs a non-empty input. */
  function ImplyMultiplication(ts: seq<Token>): seq<Token>
    requires |ts| > 0
  {
    Insertion.ImplyMultiplication(ts, RightParen, LeftParen, Multiply)
  }

  /** The evidently intended pass: `Multiply` between every `)(`. */
  function ImplyEveryPair(ts: seq<Token>): seq<Token> {
    Insertion.ImplyEveryPair(ts, RightParen, LeftParen, Multiply)
  }

  /** The parenthesis check can be read off the text: on tokenized input it
      answers exactly as the same counter run over the characters `(` and `)`
      of the text, so its three answers are the three prefix conditions on
      the text. */
  lemma ParenthesesOfText(s: string)
    requires Tokenize(s).Ok?
    ensures MatchParenthesis(Tokenize(s).value) == Balance.MatchParenthesis(s, '(', ')')
    ensures MatchParenthesis(Tokenize(s).value) == Balance.Verdict(s, '(', ')')
  {
    var ts := Tokenize(s).value;
    Balance.ScanIsScanRest(ts, LeftParen, RightParen, 0, 0);
    Balance.ScanIsScanRest(s, '(', ')', 0, 0);
    assert ts[0..] == ts && s[0..] == s;
    ScanRestOfText(s, 0);
  }

  lemma {:induction false} ScanRestOfText(s: string, balancer: int)
    requires Tokenize(s).Ok? && balancer >= 0
    ensures Balance.ScanRest(Tokenize(s).value, LeftParen, RightParen, balancer)
         == Balance.ScanRest(s, '(', ')', balancer)
    decreases |s|
  {
    if |s| > 0 {
      var ts := Tokenize(s).value;
      if IsNumberChar(s[0]) {
        var n := RunLength(s);
        Balance.ScanRestSkips(s, n, '(', ')', balancer);
        ScanRestOfText(s[n..], balancer);
        assert ts[1..] == Tokenize(s[n..]).value;
      } else if s[0] == ' ' {
        ScanRestOfText(s[1..], balancer);
      } else {
        var b := balancer + Balance.Delta(s[0], '(', ')');
        assert Balance.Delta(ts[0], LeftParen, RightParen) == Balance.Delta(s[0], '(', ')');
        if b >= 0 {
          ScanRestOfText(s[1..], b);
          assert ts[1..] == Tokenize(s[1..]).value;
        }
      }
    }
  }

  /** The unit test of `match_parenthesis`: `()`, `(()` and `())`. */
  lemma MatchParenthesisWorks()
    ensures MatchParenthesis([LeftParen, RightParen]) == None
    ensures MatchParenthesis([LeftParen, LeftParen, RightParen]) == Some(true)
    ensures MatchParenthesis([LeftParen, RightParen, RightParen]) == Some(false)
  {
  }

  /** The unit test of `imply_multiplication`: `()()` becomes `()*()`. */
  lemma ImplyMultiplicationWorks()
    ensures ImplyMultiplication([LeftParen, RightParen, LeftParen, RightParen])
         == [LeftParen, RightParen, Multiply, LeftParen, RightParen]
  {
    assert Insertion.Step([LeftParen, RightParen, LeftParen, RightParen], 0, RightParen, LeftParen, Multiply) == [LeftParen, RightParen, LeftParen, RightParen];
    assert Insertion.Step([LeftParen, RightParen, LeftParen, RightParen], 1, RightParen, LeftParen, Multiply) == [LeftParen, RightParen, Multiply, LeftParen, RightParen];
    assert Insertion.Step([LeftParen, RightParen, Multiply, LeftParen, RightParen], 2, RightParen, LeftParen, Multiply) == [LeftParen, RightParen, Multiply, LeftParen, RightParen];
    assert Insertion.ImplyLoop([LeftParen, RightParen, Multiply, LeftParen, RightParen], 3, 3, RightParen, LeftParen, Multiply) == [LeftParen, RightParen, Multiply, LeftParen, RightParen];
    assert Insertion.ImplyLoop([LeftParen, RightParen, Multiply, LeftParen, RightParen], 2, 3, RightParen, LeftParen, Multiply) == [LeftParen, RightParen, Multiply, LeftParen, RightParen];
    assert Insertion.ImplyLoop([LeftParen, RightParen, LeftParen, RightParen], 1, 3, RightParen, LeftParen, Multiply) == [LeftParen, RightParen, Multiply, LeftParen, RightParen];
    assert Insertion.ImplyLoop([LeftParen, RightParen, LeftParen, RightParen], 0, 3, RightParen, LeftParen, Multiply) == [LeftParen, RightParen, Multiply, LeftParen, RightParen];
  }

  /** With the scan bound fixed at the original length, `()()()()` keeps its
      last `)(` pair: the pass yields `()*()*()()`. */
  lemma ImplyMultiplicationMissesLastPair()
    ensures var out := ImplyMultiplication([LeftParen, RightParen, LeftParen, RightParen, LeftParen, RightParen, LeftParen, RightParen]);
      out == [LeftParen, RightParen, Multiply, LeftParen, RightParen, Multiply, LeftParen, RightParen, LeftParen, RightParen]
      && Insertion.IsPairAt(out, 7, RightParen, LeftParen)
  {
    WrittenFlagsOfFourGroups();
    WeaveMissingLastPair();
  }

  /** The pass flags the first two pairs of `()()()()`; the third, at
      position 5, is met at scan index 7, past the bound 6. */
  lemma WrittenFlagsOfFourGroups()
    ensures Insertion.WrittenFlags([LeftParen, RightParen, LeftParen, RightParen, LeftParen, RightParen, LeftParen, RightParen], 8, RightParen, LeftParen) == [false, true, false, true, false, false, false, false]
  {
    var x: seq<Token> := [LeftParen, RightParen, LeftParen, RightParen, LeftParen, RightParen, LeftParen, RightParen];
    assert Insertion.WrittenFlags(x, 1, RightParen, LeftParen) == [false];
    assert Insertion.WrittenFlags(x, 2, RightParen, LeftParen) == [false, true];
    assert Insertion.WrittenFlags(x, 3, RightParen, LeftParen) == [false, true, false];
    assert Insertion.WrittenFlags(x, 4, RightParen, LeftParen) == [false, true, false, true];
    assert Insertion.WrittenFlags(x, 5, RightParen, LeftParen) == [false, true, false, true, false];
    assert Insertion.WrittenFlags(x, 6, RightParen, LeftParen) == [false, true, false, true, false, false];
    assert Insertion.WrittenFlags(x, 7, RightParen, LeftParen) == [false, true, false, true, false, false, false];
    assert Insertion.WrittenFlags(x, 8, RightParen, LeftParen) == [false, true, false, true, false, false, false, false];
  }

  lemma WeaveMissingLastPair()
    ensures Insertion.Weave([LeftParen, RightParen, LeftParen, RightParen, LeftParen, RightParen, LeftParen, RightParen], [false, true, false, true, false, false, false, false], Multiply)
         == [LeftParen, RightParen, Multiply, LeftParen, RightParen, Multiply, LeftParen, RightParen, LeftParen, RightParen]
  {
    WeaveOfTwoGroups();
    assert [LeftParen, RightParen, LeftParen, RightParen, LeftParen][..4] == [LeftParen, RightParen, LeftParen, RightParen] && [false, true, false, true, false][..4] == [false, true, false, true];
    assert Insertion.Weave([LeftParen, RightParen, LeftParen, RightParen, LeftParen], [false, true, false, true, false], Multiply) == [LeftParen, RightParen, Multiply, LeftParen, RightParen, Multiply, LeftParen];
    assert [LeftParen, RightParen, LeftParen, RightParen, LeftParen, RightParen][..5] == [LeftParen, RightParen, LeftParen, RightParen, LeftParen] && [false, true, false, true, false, false][..5] == [false, true, false, true, false];
    assert Insertion.Weave([LeftParen, RightParen, LeftParen, RightParen, LeftParen, RightParen], [false, true, false, true, false, false], Multiply) == [LeftParen, RightParen, Multiply, LeftParen, RightParen, Multiply, LeftParen, RightParen];
    assert [LeftParen, RightParen, LeftParen, RightParen, LeftParen, RightParen, LeftParen][..6] == [LeftParen, RightParen, LeftParen, RightParen, LeftParen, RightParen] && [false, true, false, true, false, false, false][..6] == [false, true, false, true, false, false];
    assert Insertion.Weave([LeftParen, RightParen, LeftParen, RightParen, LeftParen, RightParen, LeftParen], [false, true, false, true, false, false, false], Multiply) == [LeftParen, RightParen, Multiply, LeftParen, RightParen, Multiply, LeftParen, RightParen, LeftParen];
    assert [LeftParen, RightParen, LeftParen, RightParen, LeftParen, RightParen, LeftParen, RightParen][..7] == [LeftParen, RightParen, LeftParen, RightParen, LeftParen, RightParen, LeftParen] && [false, true, false, true, false, false, false, false][..7] == [false, true, false, true, false, false, false];
    assert Insertion.Weave([LeftParen, RightParen, LeftParen, RightParen, LeftParen, RightParen, LeftParen, RightParen], [false, true, false, true, false, false, false, false], Multiply) == [LeftParen, RightParen, Multiply, LeftParen, RightParen, Multiply, LeftParen, RightParen, LeftParen, RightParen];
  }

  /** The intended pass separates all three pairs of `()()()()`. */
  lemma ImplyEveryPairSeparatesAll()
    ensures ImplyEveryPair([LeftParen, RightParen, LeftParen, RightParen, LeftParen, RightParen, LeftParen, RightParen])
         == [LeftParen, RightParen, Multiply, LeftParen, RightParen, Multiply, LeftParen, RightParen, Multiply, LeftParen, RightParen]
  {
    var x: seq<Token> := [LeftParen, RightParen, LeftParen, RightParen, LeftParen, RightParen, LeftParen, RightParen];
    var fs := Insertion.PairFlags(x, RightParen, LeftParen);
    assert fs == [false, true, false, true, false, true, false, false] by {
      forall j | 0 <= j < 8
        ensures fs[j] == [false, true, false, true, false, true, false, false][j]
      {
      }
    }
    WeaveOfFourGroups();
  }

  lemma WeaveOfTwoGroups()
    ensures Insertion.Weave([LeftParen, RightParen, LeftParen, RightParen], [false, true, false, true], Multiply)
         == [LeftParen, RightParen, Multiply, LeftParen, RightParen, Multiply]
  {
    assert Insertion.Weave([LeftParen], [false], Multiply) == [LeftParen];
    assert [LeftParen, RightParen][..1] == [LeftParen] && [false, true][..1] == [false];
    assert Insertion.Weave([LeftParen, RightParen], [false, true], Multiply) == [LeftParen, RightParen, Multiply];
    assert [LeftParen, RightParen, LeftParen][..2] == [LeftParen, RightParen] && [false, true, false][..2] == [false, true];
    assert Insertion.Weave([LeftParen, RightParen, LeftParen], [false, true, false], Multiply) == [LeftParen, RightParen, Multiply, LeftParen];
    assert [LeftParen, RightParen, LeftParen, RightParen][..3] == [LeftParen, RightParen, LeftParen] && [false, true, false, true][..3] == [false, true, false];
  }

  lemma WeaveOfFourGroups()
    ensures Insertion.Weave([LeftParen, RightParen, LeftParen, RightParen, LeftParen, RightParen, LeftParen, RightParen], [false, true, false, true, false, true, false, false], Multiply)
         == [LeftParen, RightParen, Multiply, LeftParen, RightParen, Multiply, LeftParen, RightParen, Multiply, LeftParen, RightParen]
  {
    WeaveOfTwoGroups();
    assert [LeftParen, RightParen, LeftParen, RightParen, LeftParen][..4] == [LeftParen, RightParen, LeftParen, RightParen] && [false, true, false, true, false][..4] == [false, true, false, true];
    assert Insertion.Weave([LeftParen, RightParen, LeftParen, RightParen, LeftParen], [false, true, false, true, false], Multiply) == [LeftParen, RightParen, Multiply, LeftParen, RightParen, Multiply, LeftParen];
    assert [LeftParen, RightParen, LeftParen, RightParen, LeftParen, RightParen][..5] == [LeftParen, RightParen, LeftParen, RightParen, LeftParen] && [false, true, false, true, false, true][..5] == [false, true, false, true, false];
    assert Insertion.Weave([LeftParen, RightParen, LeftParen, RightParen, LeftParen, RightParen], [false, true, false, true, false, true], Multiply) == [LeftParen, RightParen, Multiply, LeftParen, RightParen, Multiply, LeftParen, RightParen, Multiply];
    assert [LeftParen, RightParen, LeftParen, RightParen, LeftParen, RightParen, LeftParen][..6] == [LeftParen, RightParen, LeftParen, RightParen, LeftParen, RightParen] && [false, true, false, true, false, true, false][..6] == [false, true, false, true, false, true];
    assert Insertion.Weave([LeftParen, RightParen, LeftParen, RightParen, LeftParen, RightParen, LeftParen], [false, true, false, true, false, true, false], Multiply) == [LeftParen, RightParen, Multiply, LeftParen, RightParen, Multiply, LeftParen, RightParen, Multiply, LeftParen];
    assert [LeftParen, RightParen, LeftParen, RightParen, LeftParen, RightParen, LeftParen, RightParen][..7] == [LeftParen, RightParen, LeftParen, RightParen, LeftParen, RightParen, LeftParen] && [false, true, false, true, false, true, false, false][..7] == [false, true, false, true, false, true, false];
    assert Insertion.Weave([LeftParen, RightParen, LeftParen, RightParen, LeftParen, RightParen, LeftParen, RightParen], [false, true, false, true, false, true, false, false], Multiply) == [LeftParen, RightParen, Multiply, LeftParen, RightParen, Multiply, LeftParen, RightParen, Multiply, LeftParen, RightParen];
  }
}
