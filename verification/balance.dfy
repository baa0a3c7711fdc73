/** The parenthesis-balance check `match_parenthesis`, which src/lib.rs and
    src/lexer.rs implement with the same loop. It is written once here,
    over any token type, with the opening and closing tokens as parameters. */
module Balance {
  import opened Wrappers

  /** What one token does to the `balancer` counter: +1 for an opening
      token, -1 for a closing one, 0 otherwise. The opening test comes
      first, as in the source's `if let ... else if let`. */
  function Delta<T(==)>(t: T, open: T, close: T): int {
    if t == open then 1 else if t == close then -1 else 0
  }

  /** Net depth of a token sequence: openings minus closings. */
  function Depth<T(==)>(ts: seq<T>, open: T, close: T): int {
    if |ts| == 0 then 0 else Depth(ts[..|ts| - 1], open, close) + Delta(ts[|ts| - 1], open, close)
  }

  /** The `for` loop of `match_parenthesis` from token `i` on, with the
      current value of `balancer`: it stops with `Some(false)` as soon as
      the counter drops below zero, and otherwise reports at the end. */
  function Scan<T(==)>(ts: seq<T>, open: T, close: T, i: nat, balancer: int): Option<bool>
    requires i <= |ts|
    decreases |ts| - i
  {
    if i == |ts| then
      if balancer > 0 then Some(true) else None
    else
      var b := balancer + Delta(ts[i], open, close);
      if b < 0 then Some(false) else Scan(ts, open, close, i + 1, b)
  }

  /** `None` when balanced, `Some(true)` when an opening token is left over,
      `Some(false)` when a closing token comes too early. */
  function MatchParenthesis<T(==)>(ts: seq<T>, open: T, close: T): (r: Option<bool>)
    ensures r == Verdict(ts, open, close)
  {
    ScanMeetsVerdict(ts, open, close, 0, 0);
    Scan(ts, open, close, 0, 0)
  }

  /** Some prefix closes more than it opens. */
  ghost predicate GoesNegative<T>(ts: seq<T>, open: T, close: T) {
    exists k | 0 <= k <= |ts| :: Depth(ts[..k], open, close) < 0
  }

  /** The three-way answer, stated over prefixes instead of a running counter. */
  ghost function Verdict<T>(ts: seq<T>, open: T, close: T): Option<bool> {
    if GoesNegative(ts, open, close) then Some(false)
    else if Depth(ts, open, close) > 0 then Some(true)
    else None
  }

  lemma {:induction false} ScanMeetsVerdict<T>(ts: seq<T>, open: T, close: T, i: nat, balancer: int)
    requires i <= |ts|
    requires balancer == Depth(ts[..i], open, close)
    requires forall k | 0 <= k <= i :: Depth(ts[..k], open, close) >= 0
    ensures Scan(ts, open, close, i, balancer) == Verdict(ts, open, close)
    decreases |ts| - i
  {
    if i == |ts| {
      assert ts[..i] == ts;
    } else {
      assert ts[..i + 1][..i] == ts[..i];
      var b := balancer + Delta(ts[i], open, close);
      assert Depth(ts[..i + 1], open, close) == b;
      if b < 0 {
        assert GoesNegative(ts, open, close);
      } else {
        ScanMeetsVerdict(ts, open, close, i + 1, b);
      }
    }
  }

  /** Properly nested: no prefix closes more than it opens, and the whole
      sequence closes everything it opens. */
  ghost predicate Nested<T>(ts: seq<T>, open: T, close: T) {
    Depth(ts, open, close) == 0 && forall k | 0 <= k <= |ts| :: Depth(ts[..k], open, close) >= 0
  }

  /** Balanced (`None`) exactly when the sequence is nested: no prefix goes
      below zero and the totals agree. */
  lemma BalancedIff<T>(ts: seq<T>, open: T, close: T)
    ensures MatchParenthesis(ts, open, close) == None <==> Nested(ts, open, close)
  {
    assert ts[..|ts|] == ts;
  }

  /** `Some(false)` exactly when some prefix has more closings than openings. */
  lemma TooManyCloseIff<T>(ts: seq<T>, open: T, close: T)
    ensures MatchParenthesis(ts, open, close) == Some(false)
        <==> exists k | 0 <= k <= |ts| :: Depth(ts[..k], open, close) < 0
  {
  }

  /** `Some(true)` exactly when no prefix goes negative and openings are left over. */
  lemma TooManyOpenIff<T>(ts: seq<T>, open: T, close: T)
    ensures MatchParenthesis(ts, open, close) == Some(true)
        <==> (forall k | 0 <= k <= |ts| :: Depth(ts[..k], open, close) >= 0)
             && Depth(ts, open, close) > 0
  {
    assert ts[..|ts|] == ts;
  }

  /** The same loop read on the remaining tokens instead of an index. */
  function ScanRest<T(==)>(ts: seq<T>, open: T, close: T, balancer: int): Option<bool>
    decreases |ts|
  {
    if |ts| == 0 then
      if balancer > 0 then Some(true) else None
    else
      var b := balancer + Delta(ts[0], open, close);
      if b < 0 then Some(false) else ScanRest(ts[1..], open, close, b)
  }

  lemma {:induction false} ScanIsScanRest<T>(ts: seq<T>, open: T, close: T, i: nat, balancer: int)
    requires i <= |ts|
    ensures Scan(ts, open, close, i, balancer) == ScanRest(ts[i..], open, close, balancer)
    decreases |ts| - i
  {
    if i < |ts| {
      assert ts[i..][0] == ts[i];
      assert ts[i..][1..] == ts[i + 1..];
      ScanIsScanRest(ts, open, close, i + 1, balancer + Delta(ts[i], open, close));
    }
  }

  /** Tokens that are neither opening nor closing do not affect the
      answer once the counter is non-negative. */
  lemma {:induction false} ScanRestSkips<T>(ts: seq<T>, n: nat, open: T, close: T, balancer: int)
    requires n <= |ts| && balancer >= 0
    requires forall i | 0 <= i < n :: Delta(ts[i], open, close) == 0
    ensures ScanRest(ts, open, close, balancer) == ScanRest(ts[n..], open, close, balancer)
    decreases n
  {
    if n > 0 {
      assert ts[1..][n - 1..] == ts[n..];
      ScanRestSkips(ts[1..], n - 1, open, close, balancer);
    }
  }


  lemma {:induction false} DepthAppend<T>(a: seq<T>, b: seq<T>, open: T, close: T)
    ensures Depth(a + b, open, close) == Depth(a, open, close) + Depth(b, open, close)
    decreases |b|
  {
    if |b| == 0 {
      assert a + b == a;
    } else {
      assert (a + b)[..|a + b| - 1] == a + b[..|b| - 1];
      DepthAppend(a, b[..|b| - 1], open, close);
    }
  }

  /** Nested sequences stay nested when put side by side. */
  lemma NestedConcat<T>(a: seq<T>, b: seq<T>, open: T, close: T)
    requires Nested(a, open, close) && Nested(b, open, close)
    ensures Nested(a + b, open, close)
  {
    DepthAppend(a, b, open, close);
    forall k | 0 <= k <= |a + b|
      ensures Depth((a + b)[..k], open, close) >= 0
    {
      if k <= |a| {
        assert (a + b)[..k] == a[..k];
      } else {
        assert (a + b)[..k] == a + b[..k - |a|];
        DepthAppend(a, b[..k - |a|], open, close);
      }
    }
  }

  /** A nested sequence between an opening and a closing token is nested. */
  lemma NestedWrap<T>(a: seq<T>, open: T, close: T)
    requires open != close && Nested(a, open, close)
    ensures Nested([open] + a + [close], open, close)
  {
    var w := [open] + a + [close];
    DepthAppend([open], a, open, close);
    DepthAppend([open] + a, [close], open, close);
    assert Depth([open], open, close) == 1 by {
      assert [open][..0] == [];
    }
    assert Depth([close], open, close) == -1 by {
      assert [close][..0] == [];
    }
    forall k | 0 <= k <= |w|
      ensures Depth(w[..k], open, close) >= 0
    {
      if k == 0 {
        assert w[..k] == [];
      } else if k <= |a| + 1 {
        assert w[..k] == [open] + a[..k - 1];
        DepthAppend([open], a[..k - 1], open, close);
      } else {
        assert w[..k] == w;
      }
    }
  }

  /** A single token that neither opens nor closes is nested. */
  lemma NestedNeutral<T>(t: T, open: T, close: T)
    requires t != open && t != close
    ensures Nested([t], open, close)
  {
    assert [t][..0] == [];
    assert [t][..1] == [t];
  }

  /** A sequence with neither bracket is properly nested. */
  lemma {:induction false} NeutralNested<T>(ts: seq<T>, open: T, close: T)
    requires forall i | 0 <= i < |ts| :: ts[i] != open && ts[i] != close
    ensures Nested(ts, open, close)
    decreases |ts|
  {
    if |ts| > 0 {
      var init, last := ts[..|ts| - 1], ts[|ts| - 1];
      NeutralNested(init, open, close);
      NestedNeutral(last, open, close);
      NestedConcat(init, [last], open, close);
      assert init + [last] == ts;
    }
  }
}
