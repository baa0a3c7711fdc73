/** The implicit-multiplication pass `imply_multiplication`, which
    src/lib.rs and src/lexer.rs implement with the same loop. It is written
    once here, over any token type, with the closing token, the opening
    token and the inserted multiply token as parameters.

    The result is described by "weaving": the input with an extra token
    placed directly after each position whose flag is set. */
module Insertion {

  /** Number of set flags. */
  function CountTrue(fs: seq<bool>): nat {
    if |fs| == 0 then 0 else CountTrue(fs[..|fs| - 1]) + (if fs[|fs| - 1] then 1 else 0)
  }

  /** `xs` with `ins` placed directly after every position whose flag is set. */
  function Weave<T>(xs: seq<T>, fs: seq<bool>, ins: T): (ys: seq<T>)
    requires |fs| == |xs|
    ensures |ys| == |xs| + CountTrue(fs)
  {
    if |xs| == 0 then []
    else Weave(xs[..|xs| - 1], fs[..|fs| - 1], ins) + [xs[|xs| - 1]] + (if fs[|fs| - 1] then [ins] else [])
  }

  /** Weaving distributes over concatenation. */
  lemma {:induction false} WeaveAppend<T>(a: seq<T>, fa: seq<bool>, b: seq<T>, fb: seq<bool>, ins: T)
    requires |fa| == |a| && |fb| == |b|
    ensures Weave(a + b, fa + fb, ins) == Weave(a, fa, ins) + Weave(b, fb, ins)
    decreases |b|
  {
    if |b| == 0 {
      assert a + b == a && fa + fb == fa;
    } else {
      var n := |b| - 1;
      WeaveAppend(a, fa, b[..n], fb[..n], ins);
      assert (a + b)[..|a + b| - 1] == a + b[..n];
      assert (fa + fb)[..|fa + fb| - 1] == fa + fb[..n];
    }
  }

  /** Deletes, from a woven sequence, the token after each flagged position. */
  function Unweave<T>(ys: seq<T>, fs: seq<bool>): (xs: seq<T>)
    requires |ys| == |fs| + CountTrue(fs)
    ensures |xs| == |fs|
  {
    if |fs| == 0 then []
    else
      var k := if fs[|fs| - 1] then 2 else 1;
      Unweave(ys[..|ys| - k], fs[..|fs| - 1]) + [ys[|ys| - k]]
  }

  /** Deleting the inserted tokens gives back the input. */
  lemma {:induction false} UnweaveWeave<T>(xs: seq<T>, fs: seq<bool>, ins: T)
    requires |fs| == |xs|
    ensures Unweave(Weave(xs, fs, ins), fs) == xs
    decreases |xs|
  {
    if |xs| > 0 {
      var n := |xs|;
      var xs', fs' := xs[..n - 1], fs[..n - 1];
      var prefix := Weave(xs', fs', ins);
      var last := [xs[n - 1]] + (if fs[n - 1] then [ins] else []);
      var ys := prefix + last;
      assert Weave(xs, fs, ins) == ys;
      assert ys[..|ys| - |last|] == prefix;
      assert ys[|ys| - |last|] == xs[n - 1];
      assert Unweave(ys, fs) == Unweave(prefix, fs') + [xs[n - 1]];
      UnweaveWeave(xs', fs', ins);
      assert xs == xs' + [xs[n - 1]];
    }
  }

  /** With no flag set, weaving inserts nothing. */
  lemma {:induction false} WeaveNoFlags<T>(xs: seq<T>, fs: seq<bool>, ins: T)
    requires |fs| == |xs|
    requires forall j | 0 <= j < |fs| :: !fs[j]
    ensures Weave(xs, fs, ins) == xs
    decreases |xs|
  {
    if |xs| > 0 {
      WeaveNoFlags(xs[..|xs| - 1], fs[..|fs| - 1], ins);
      assert xs == xs[..|xs| - 1] + [xs[|xs| - 1]];
    }
  }

  /** A closing token directly followed by an opening token at `j`. */
  predicate IsPairAt<T(==)>(s: seq<T>, j: int, close: T, open: T) {
    0 <= j && j + 1 < |s| && s[j] == close && s[j + 1] == open
  }

  /** One iteration of the loop at `index`: insert `mul` after a
      closing token that is followed by an opening token. */
  function Step<T(==)>(cur: seq<T>, index: nat, close: T, open: T, mul: T): seq<T>
    requires index + 1 < |cur|
  {
    if cur[index] == close && cur[index + 1] == open then cur[..index + 1] + [mul] + cur[index + 1..]
    else cur
  }

  /** The loop `for index in 0..last` over the growing sequence `cur`: the
      bound `last` was fixed from the length of the input before any insertion. */
  function ImplyLoop<T(==)>(cur: seq<T>, index: nat, last: nat, close: T, open: T, mul: T): seq<T>
    requires index <= last < |cur|
    decreases last - index
  {
    if index == last then cur
    else ImplyLoop(Step(cur, index, close, open, mul), index + 1, last, close, open, mul)
  }

  /** Which positions of `input` receive a `mul` after them, as the loop
      finds them: position `j` is a pair, and the scan index at which the
      loop meets it, `j` plus the insertions made before it, is still
      within the bound `|input| - 2`. */
  function WrittenFlags<T(==)>(input: seq<T>, m: nat, close: T, open: T): (fs: seq<bool>)
    requires m <= |input|
    ensures |fs| == m
  {
    if m == 0 then []
    else
      var f := WrittenFlags(input, m - 1, close, open);
      f + [IsPairAt(input, m - 1, close, open) && m - 1 + CountTrue(f) <= |input| - 2]
  }

  /** The flags of a longer prefix extend those of a shorter one. */
  lemma {:induction false} WrittenFlagsPrefix<T>(input: seq<T>, m: nat, k: nat, close: T, open: T)
    requires k <= m <= |input|
    ensures WrittenFlags(input, m, close, open)[..k] == WrittenFlags(input, k, close, open)
    decreases m
  {
    if k < m {
      var f := WrittenFlags(input, m - 1, close, open);
      assert WrittenFlags(input, m, close, open)[..k] == f[..k];
      WrittenFlagsPrefix(input, m - 1, k, close, open);
    }
  }

  /** Exactly the positions the loop reaches within its bound, among the
      pair positions, are flagged: in particular only pair positions are. */
  lemma {:induction false} WrittenFlagsExact<T>(input: seq<T>, close: T, open: T)
    ensures var fs := WrittenFlags(input, |input|, close, open);
      forall j | 0 <= j < |input| ::
        fs[j] == (IsPairAt(input, j, close, open) && j + CountTrue(fs[..j]) <= |input| - 2)
  {
    var fs := WrittenFlags(input, |input|, close, open);
    forall j | 0 <= j < |input|
      ensures fs[j] == (IsPairAt(input, j, close, open) && j + CountTrue(fs[..j]) <= |input| - 2)
    {
      WrittenFlagsPrefix(input, |input|, j + 1, close, open);
      WrittenFlagsPrefix(input, |input|, j, close, open);
      assert fs[..j + 1][..j] == fs[..j];
    }
  }

  /** The pass as written: a non-empty input is scanned with the bound fixed
      at its original length (the source computes `len() - 1`, which
      underflows on an empty vector). */
  function ImplyMultiplication<T(==)>(ts: seq<T>, close: T, open: T, mul: T): (r: seq<T>)
    requires |ts| > 0
    requires mul != close
    ensures r == Weave(ts, WrittenFlags(ts, |ts|, close, open), mul)
  {
    ImplyLoopWeaves(ts, ts, 0, 0, close, open, mul);
    ImplyLoop(ts, 0, |ts| - 1, close, open, mul)
  }

  /** Loop invariant of the pass: the first `m` input tokens have been
      decided and woven, and the index points either at input token `m` or,
      right after an insertion, at the inserted token. */
  lemma {:induction false} ImplyLoopWeaves<T>(input: seq<T>, cur: seq<T>, index: nat, m: nat,
                                                  close: T, open: T, mul: T)
    requires |input| > 0 && mul != close
    requires m <= |input|
    requires cur == Weave(input[..m], WrittenFlags(input, m, close, open), mul) + input[m..]
    requires var f := WrittenFlags(input, m, close, open);
      index == m + CountTrue(f) || (m > 0 && f[m - 1] && index + 1 == m + CountTrue(f))
    requires index <= |input| - 1
    ensures ImplyLoop(cur, index, |input| - 1, close, open, mul)
         == Weave(input, WrittenFlags(input, |input|, close, open), mul)
    decreases |input| - 1 - index
  {
    var f := WrittenFlags(input, m, close, open);
    if index == |input| - 1 {
      TailUnflagged(input, m, close, open, mul);
    } else if index == m + CountTrue(f) {
      var next := Step(cur, index, close, open, mul);
      StepOnInput(input, cur, index, m, close, open, mul);
      ImplyLoopWeaves(input, next, index + 1, m + 1, close, open, mul);
    } else {
      // The index sits on the token just inserted: this iteration changes nothing.
      StepOnInserted(input, cur, index, m, close, open, mul);
      ImplyLoopWeaves(input, cur, index + 1, m, close, open, mul);
    }
  }

  lemma {:induction false} StepOnInserted<T>(input: seq<T>, cur: seq<T>, index: nat, m: nat, close: T, open: T, mul: T)
    requires mul != close
    requires 0 < m <= |input|
    requires cur == Weave(input[..m], WrittenFlags(input, m, close, open), mul) + input[m..]
    requires var f := WrittenFlags(input, m, close, open);
      f[m - 1] && index + 1 == m + CountTrue(f)
    requires index + 1 < |cur|
    ensures Step(cur, index, close, open, mul) == cur
  {
    var f := WrittenFlags(input, m, close, open);
    var woven := Weave(input[..m], f, mul);
    assert woven[|woven| - 1] == mul;
    assert cur[index] == mul;
  }

  lemma {:induction false} StepOnInput<T>(input: seq<T>, cur: seq<T>, index: nat, m: nat, close: T, open: T, mul: T)
    requires m < |input|
    requires cur == Weave(input[..m], WrittenFlags(input, m, close, open), mul) + input[m..]
    requires index == m + CountTrue(WrittenFlags(input, m, close, open))
    requires index < |input| - 1
    ensures index + 1 < |cur|
    ensures Step(cur, index, close, open, mul)
         == Weave(input[..m + 1], WrittenFlags(input, m + 1, close, open), mul) + input[m + 1..]
    ensures var f' := WrittenFlags(input, m + 1, close, open);
      index + 1 == m + 1 + CountTrue(f') || (f'[m] && index + 2 == m + 1 + CountTrue(f'))
  {
    var f := WrittenFlags(input, m, close, open);
    var woven := Weave(input[..m], f, mul);
    assert cur[index] == input[m] && cur[index + 1] == input[m + 1];
    var b := IsPairAt(input, m, close, open);
    var f' := WrittenFlags(input, m + 1, close, open);
    assert f' == f + [b];
    assert f'[..m] == f;
    assert input[..m + 1][..m] == input[..m];
    var woven' := Weave(input[..m + 1], f', mul);
    assert woven' == woven + [input[m]] + (if b then [mul] else []);
    assert input[m..] == [input[m]] + input[m + 1..];
    if b {
      assert cur[..index + 1] == woven + [input[m]];
      assert cur[index + 1..] == input[m + 1..];
    }
  }

  /** Once the scan bound is reached, no later position is flagged, so the
      rest of the input is already in place. */
  lemma {:induction false} TailUnflagged<T>(input: seq<T>, m: nat, close: T, open: T, mul: T)
    requires m <= |input|
    requires m + CountTrue(WrittenFlags(input, m, close, open)) >= |input| - 1
    ensures Weave(input[..m], WrittenFlags(input, m, close, open), mul) + input[m..]
         == Weave(input, WrittenFlags(input, |input|, close, open), mul)
    decreases |input| - m
  {
    if m == |input| {
      assert input[..m] == input;
    } else {
      var f := WrittenFlags(input, m, close, open);
      var f' := WrittenFlags(input, m + 1, close, open);
      assert f'[..m] == f;
      assert !f'[m];
      assert f' == f + [false];
      assert input[..m + 1][..m] == input[..m];
      assert input[m..] == [input[m]] + input[m + 1..];
      TailUnflagged(input, m + 1, close, open, mul);
    }
  }

  /** The flags of the evidently intended pass: every pair position. */
  function PairFlags<T(==)>(input: seq<T>, close: T, open: T): (fs: seq<bool>)
    ensures |fs| == |input|
  {
    seq(|input|, j requires 0 <= j < |input| => IsPairAt(input, j, close, open))
  }

  /** The evidently intended pass: a `mul` between every adjacent
      closing/opening pair, however many insertions precede it. */
  function ImplyEveryPair<T(==)>(input: seq<T>, close: T, open: T, mul: T): (r: seq<T>)
    requires mul != close && mul != open
    ensures |r| == |input| + CountTrue(PairFlags(input, close, open))
    ensures Unweave(r, PairFlags(input, close, open)) == input
    ensures forall j :: !IsPairAt(r, j, close, open)
    ensures r == Weave(input, PairFlags(input, close, open), mul)
  {
    var fs := PairFlags(input, close, open);
    UnweaveWeave(input, fs, mul);
    WeaveSeparatesPairs(input, fs, close, open, mul);
    Weave(input, fs, mul)
  }

  /** Weaving with every pair flagged leaves no closing token directly
      before an opening token. */
  lemma {:induction false} WeaveSeparatesPairs<T>(xs: seq<T>, fs: seq<bool>, close: T, open: T, mul: T)
    requires |fs| == |xs|
    requires mul != close && mul != open
    requires forall j | 0 <= j < |xs| :: IsPairAt(xs, j, close, open) ==> fs[j]
    ensures forall j :: !IsPairAt(Weave(xs, fs, mul), j, close, open)
    decreases |xs|
  {
    if |xs| > 0 {
      var n := |xs|;
      var xs' := xs[..n - 1];
      var fs' := fs[..n - 1];
      forall j | 0 <= j < |xs'| && IsPairAt(xs', j, close, open)
        ensures fs'[j]
      {
        assert IsPairAt(xs, j, close, open);
      }
      WeaveSeparatesPairs(xs', fs', close, open, mul);
      var w' := Weave(xs', fs', mul);
      var w := Weave(xs, fs, mul);
      assert w == w' + [xs[n - 1]] + (if fs[n - 1] then [mul] else []);
      forall j | 0 <= j < |w| - 1
        ensures !IsPairAt(w, j, close, open)
      {
        if j + 1 < |w'| {
          assert !IsPairAt(w', j, close, open);
          assert w[j] == w'[j] && w[j + 1] == w'[j + 1];
        } else if j + 1 == |w'| {
          // the junction between the woven prefix and the last input token
          assert w[j + 1] == xs[n - 1];
          if fs'[n - 2] {
            assert w[j] == mul;
          } else {
            assert w[j] == xs[n - 2];
            assert !IsPairAt(xs, n - 2, close, open);
          }
        } else {
          assert w[j + 1] == mul;
        }
      }
    }
  }

  /** The intended pass is idempotent: a second run inserts nothing. */
  lemma {:induction false} ImplyEveryPairIdempotent<T>(input: seq<T>, close: T, open: T, mul: T)
    requires mul != close && mul != open
    ensures var once := ImplyEveryPair(input, close, open, mul);
      ImplyEveryPair(once, close, open, mul) == once
  {
    var once := ImplyEveryPair(input, close, open, mul);
    var fs := PairFlags(once, close, open);
    assert forall j | 0 <= j < |fs| :: !fs[j];
    WeaveNoFlags(once, fs, mul);
  }

  /** No closing token directly before an opening token. */
  ghost predicate PairFree<T>(s: seq<T>, close: T, open: T) {
    forall j :: !IsPairAt(s, j, close, open)
  }

  /** Both passes leave a pair-free sequence as it is. */
  lemma PairFreeUnchanged<T>(ts: seq<T>, close: T, open: T, mul: T)
    requires |ts| > 0 && mul != close && mul != open
    requires PairFree(ts, close, open)
    ensures ImplyMultiplication(ts, close, open, mul) == ts
    ensures ImplyEveryPair(ts, close, open, mul) == ts
  {
    WrittenFlagsExact(ts, close, open);
    var fs := WrittenFlags(ts, |ts|, close, open);
    assert forall j | 0 <= j < |fs| :: !fs[j];
    WeaveNoFlags(ts, fs, mul);
    var pf := PairFlags(ts, close, open);
    assert forall j | 0 <= j < |pf| :: !pf[j];
    WeaveNoFlags(ts, pf, mul);
  }

  /** Joining two pair-free sequences makes a pair only at the seam. */
  lemma PairFreeConcat<T>(a: seq<T>, b: seq<T>, close: T, open: T)
    requires PairFree(a, close, open) && PairFree(b, close, open)
    requires |a| == 0 || |b| == 0 || a[|a| - 1] != close || b[0] != open
    ensures PairFree(a + b, close, open)
  {
    forall j | 0 <= j < |a + b| - 1
      ensures !IsPairAt(a + b, j, close, open)
    {
      if j + 1 < |a| {
        assert !IsPairAt(a, j, close, open);
      } else if j + 1 > |a| {
        assert !IsPairAt(b, j - |a|, close, open);
      }
    }
  }
}
