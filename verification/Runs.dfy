/** Runs of a system under a schedule, for any step function.

    A step function says what one scheduling decision does to the state; a decision that cannot be
    carried out leaves the state as it is.  So every interleaving is the run of some schedule. */
module Runs {

  function Run<S, K>(step: (S, K) -> S, s: S, sched: seq<K>): S {
    if sched == [] then s
    else step(Run(step, s, sched[..|sched| - 1]), sched[|sched| - 1])
  }

  lemma RunSnoc<S, K>(step: (S, K) -> S, s: S, sched: seq<K>, k: K)
    ensures Run(step, s, sched + [k]) == step(Run(step, s, sched), k)
  {
    assert (sched + [k])[..|sched|] == sched;
  }

  lemma RunOne<S, K>(step: (S, K) -> S, s: S, k: K)
    ensures Run(step, s, [k]) == step(s, k)
  {
    assert [k] == [] + [k];
    RunSnoc(step, s, [], k);
  }

  lemma {:induction false} RunAppend<S, K>(step: (S, K) -> S, s: S, first: seq<K>, rest: seq<K>)
    ensures Run(step, s, first + rest) == Run(step, Run(step, s, first), rest)
  {
    if rest == [] {
      assert first + rest == first;
    } else {
      var n := |rest| - 1;
      RunAppend(step, s, first, rest[..n]);
      assert first + rest == first + rest[..n] + [rest[n]];
      RunSnoc(step, s, first + rest[..n], rest[n]);
    }
  }

  // ----- Invariants -----

  ghost predicate Kept<S(!new), K(!new)>(step: (S, K) -> S, inv: S -> bool) {
    forall s, k :: inv(s) ==> inv(step(s, k))
  }

  lemma {:induction false} KeptInRun<S(!new), K(!new)>(step: (S, K) -> S, inv: S -> bool, s: S, sched: seq<K>)
    requires Kept(step, inv) && inv(s)
    ensures inv(Run(step, s, sched))
  {
    if sched != [] {
      KeptInRun(step, inv, s, sched[..|sched| - 1]);
    }
  }

  // ----- Termination under fair scheduling -----

  /** A step that changes anything brings the system closer to its end. */
  ghost predicate Descends<S(!new), K(!new)>(step: (S, K) -> S, inv: S -> bool, measure: S -> nat) {
    forall s, k :: inv(s) && step(s, k) != s ==> measure(step(s, k)) < measure(s)
  }

  /** Some decision lets actor w run, and whatever the details of it, w changes the state. */
  ghost predicate CanMove<S, K(!new), W(!new)>(step: (S, K) -> S, who: K -> W, s: S, w: W) {
    (exists k :: who(k) == w) && forall k :: who(k) == w ==> step(s, k) != s
  }

  /** Until the end, some actor can move; and at the end nobody can. */
  ghost predicate LiveUntil<S(!new), K(!new), W(!new)>(
    step: (S, K) -> S, who: K -> W, inv: S -> bool, final: S -> bool, actors: set<W>)
  {
    && (forall s :: inv(s) && !final(s) ==> exists w :: w in actors && CanMove(step, who, s, w))
    && (forall s, k :: inv(s) && final(s) ==> step(s, k) == s)
  }

  ghost predicate HasTurn<K, W>(who: K -> W, sched: seq<K>, w: W) {
    exists i :: 0 <= i < |sched| && who(sched[i]) == w
  }

  /** Every actor gets a turn. */
  ghost predicate Round<K, W>(who: K -> W, actors: set<W>, sched: seq<K>) {
    forall w | w in actors :: HasTurn(who, sched, w)
  }

  function Flatten<K>(rounds: seq<seq<K>>): seq<K> {
    if rounds == [] then [] else Flatten(rounds[..|rounds| - 1]) + rounds[|rounds| - 1]
  }

  lemma {:induction false} FlattenStarts<K>(rounds: seq<seq<K>>)
    requires rounds != []
    ensures rounds[0] <= Flatten(rounds)
  {
    if |rounds| > 1 {
      FlattenStarts(rounds[..|rounds| - 1]);
    }
  }

  lemma {:induction false} FlattenAll<K>(rounds: seq<seq<K>>, p: K -> bool)
    requires forall i, j | 0 <= i < |rounds| && 0 <= j < |rounds[i]| :: p(rounds[i][j])
    ensures forall j | 0 <= j < |Flatten(rounds)| :: p(Flatten(rounds)[j])
  {
    if rounds != [] {
      FlattenAll(rounds[..|rounds| - 1], p);
    }
  }

  /** Step functions that agree on the decisions taken lead to the same state. */
  lemma {:induction false} SameRun<S(!new), K>(step: (S, K) -> S, other: (S, K) -> S, s: S, sched: seq<K>)
    requires forall t: S, i: int | 0 <= i < |sched| :: step(t, sched[i]) == other(t, sched[i])
    ensures Run(step, s, sched) == Run(other, s, sched)
  {
    if sched != [] {
      var n := |sched| - 1;
      forall t: S, i: int | 0 <= i < n ensures step(t, sched[..n][i]) == other(t, sched[..n][i]) {
        assert sched[..n][i] == sched[i];
      }
      SameRun(step, other, s, sched[..n]);
    }
  }

  /** The measure never grows along a run, and it falls when an actor that can move has its turn. */
  lemma {:induction false} TurnDescends<S(!new), K(!new), W(!new)>(
    step: (S, K) -> S, who: K -> W, inv: S -> bool, measure: S -> nat, s: S, sched: seq<K>, w: W)
    requires Kept(step, inv) && Descends(step, inv, measure) && inv(s) && CanMove(step, who, s, w)
    ensures Run(step, s, sched) == s || measure(Run(step, s, sched)) < measure(s)
    ensures HasTurn(who, sched, w) ==> Run(step, s, sched) != s
  {
    if sched != [] {
      var n := |sched| - 1;
      TurnDescends(step, who, inv, measure, s, sched[..n], w);
      KeptInRun(step, inv, s, sched[..n]);
      if HasTurn(who, sched, w) && who(sched[n]) != w {
        var i :| 0 <= i < |sched| && who(sched[i]) == w;
        assert who(sched[..n][i]) == w;
      }
    }
  }

  lemma {:induction false} FinalStays<S(!new), K(!new)>(step: (S, K) -> S, s: S, sched: seq<K>)
    requires forall k :: step(s, k) == s
    ensures Run(step, s, sched) == s
  {
    if sched != [] {
      FinalStays(step, s, sched[..|sched| - 1]);
    }
  }

  lemma {:induction false} RoundsDescend<S(!new), K(!new), W(!new)>(
    step: (S, K) -> S, who: K -> W, inv: S -> bool, final: S -> bool, measure: S -> nat, actors: set<W>,
    s: S, rounds: seq<seq<K>>)
    requires Kept(step, inv) && Descends(step, inv, measure) && LiveUntil(step, who, inv, final, actors) && inv(s)
    requires forall i | 0 <= i < |rounds| :: Round(who, actors, rounds[i])
    ensures var e := Run(step, s, Flatten(rounds));
            inv(e) && (final(e) || measure(e) + |rounds| <= measure(s))
  {
    KeptInRun(step, inv, s, Flatten(rounds));
    if rounds != [] {
      var n := |rounds| - 1;
      RoundsDescend(step, who, inv, final, measure, actors, s, rounds[..n]);
      var mid := Run(step, s, Flatten(rounds[..n]));
      RunAppend(step, s, Flatten(rounds[..n]), rounds[n]);
      if final(mid) {
        FinalStays(step, mid, rounds[n]);
      } else {
        var w :| w in actors && CanMove(step, who, mid, w);
        assert Round(who, actors, rounds[n]) && HasTurn(who, rounds[n], w);
        TurnDescends(step, who, inv, measure, mid, rounds[n], w);
      }
    }
  }

  /** However the actors are interleaved: once each has had measure(s) turns, the end is reached. */
  lemma FairRunsEnd<S(!new), K(!new), W(!new)>(
    step: (S, K) -> S, who: K -> W, inv: S -> bool, final: S -> bool, measure: S -> nat, actors: set<W>,
    s: S, rounds: seq<seq<K>>)
    requires Kept(step, inv) && Descends(step, inv, measure) && LiveUntil(step, who, inv, final, actors) && inv(s)
    requires forall i | 0 <= i < |rounds| :: Round(who, actors, rounds[i])
    requires |rounds| >= measure(s)
    ensures inv(Run(step, s, Flatten(rounds))) && final(Run(step, s, Flatten(rounds)))
  {
    RoundsDescend(step, who, inv, final, measure, actors, s, rounds);
  }
}
