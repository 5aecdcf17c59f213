/** Facts about sequences that several models share. */
module Sequences {

  /** x is y with some elements left out: pos names the ones that stayed. */
  predicate Embeds<T(==)>(x: seq<T>, y: seq<T>, pos: seq<nat>) {
    && |pos| == |x|
    && (forall i, j | 0 <= i < j < |pos| :: pos[i] < pos[j])
    && (forall i | 0 <= i < |pos| :: pos[i] < |y| && x[i] == y[pos[i]])
  }

  ghost predicate Subsequence<T>(x: seq<T>, y: seq<T>) {
    exists pos: seq<nat> :: Embeds(x, y, pos)
  }

  lemma EmptySubsequence<T>(y: seq<T>)
    ensures Subsequence([], y)
  {
    assert Embeds([], y, []);
  }

  /** The same element may be appended to both. */
  lemma AppendToBoth<T>(x: seq<T>, y: seq<T>, e: T)
    requires Subsequence(x, y)
    ensures Subsequence(x + [e], y + [e])
  {
    var pos: seq<nat> :| Embeds(x, y, pos);
    assert Embeds(x + [e], y + [e], pos + [|y|]);
  }

  lemma AppendToLonger<T>(x: seq<T>, y: seq<T>, e: T)
    requires Subsequence(x, y)
    ensures Subsequence(x, y + [e])
  {
    var pos: seq<nat> :| Embeds(x, y, pos);
    assert Embeds(x, y + [e], pos);
  }

  /** A subsequence of full length leaves nothing out. */
  lemma FullSubsequence<T>(x: seq<T>, y: seq<T>)
    requires Subsequence(x, y) && |x| == |y|
    ensures x == y
  {
    var pos: seq<nat> :| Embeds(x, y, pos);
    PositionsGrow(pos, |x|);
    forall i | 0 <= i < |x| ensures x[i] == y[i] {
      PositionsGrow(pos, i + 1);
      PositionsStopAt(pos, |y|, i);
    }
  }

  lemma {:induction false} PositionsGrow(pos: seq<nat>, n: nat)
    requires n <= |pos| && forall i, j | 0 <= i < j < |pos| :: pos[i] < pos[j]
    ensures n > 0 ==> pos[n - 1] >= n - 1
  {
    if n > 1 {
      PositionsGrow(pos, n - 1);
    }
  }

  lemma {:induction false} PositionsStopAt(pos: seq<nat>, len: nat, i: nat)
    requires i < |pos| == len && (forall i, j | 0 <= i < j < |pos| :: pos[i] < pos[j])
    requires forall i | 0 <= i < |pos| :: pos[i] < len
    ensures pos[i] <= i
    decreases len - i
  {
    if i + 1 < len {
      PositionsStopAt(pos, len, i + 1);
    }
  }

  // ----- Sums -----

  function Sum<T>(f: T -> nat, s: seq<T>): nat {
    if s == [] then 0 else Sum(f, s[..|s| - 1]) + f(s[|s| - 1])
  }

  lemma {:induction false} SumUpdate<T>(f: T -> nat, s: seq<T>, p: nat, x: T)
    requires p < |s|
    ensures Sum(f, s[p := x]) + f(s[p]) == Sum(f, s) + f(x)
  {
    var n := |s| - 1;
    if p == n {
      assert s[p := x][..n] == s[..n];
    } else {
      assert s[p := x][..n] == s[..n][p := x];
      SumUpdate(f, s[..n], p, x);
    }
  }

  lemma {:induction false} SumBounds<T>(f: T -> nat, s: seq<T>, max: nat)
    requires forall i | 0 <= i < |s| :: f(s[i]) <= max
    ensures Sum(f, s) <= |s| * max
    ensures (forall i | 0 <= i < |s| :: f(s[i]) == max) ==> Sum(f, s) == |s| * max
  {
    if s != [] {
      SumBounds(f, s[..|s| - 1], max);
      assert |s| * max == (|s| - 1) * max + max;
    }
  }

  lemma {:induction false} SumAtLeast<T>(f: T -> nat, s: seq<T>, p: nat)
    requires p < |s|
    ensures f(s[p]) <= Sum(f, s)
  {
    if p < |s| - 1 {
      SumAtLeast(f, s[..|s| - 1], p);
    }
  }
}
