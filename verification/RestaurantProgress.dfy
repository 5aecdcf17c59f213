/** The restaurant never deadlocks, and every critical section is short. */
module RestaurantProgress {
  import Runs
  import opened Restaurant
  import opened RestaurantInvariant

  /** Process p can execute its next statement: it is not at a sem_wait on 0. */
  predicate Enabled(c: Config, s: State, p: nat) {
    p < |s.procs| && (s.procs[p].pc.Wait? ==> s.trays.At(s.procs[p].pc.d).sem > 0)
  }

  /** An upper bound on the statements process p executes before it is back at the head of its loop. */
  function Rank(c: Config, role: Role, pr: Proc): nat {
    var n := pr.cnt.At(pr.pc.d);
    var rest := if role.Hybrid? && pr.pc.d.Vegan? then pr.cnt.nonVegan + 5 else 0;
    match pr.pc
    case Wait(d) => if pr.pc == Start(role) then 0 else 2 * c.cap + 13
    case ReadCount(d) => 2 * c.cap + if d.Vegan? then 12 else 11
    case Retry(d) => if d.Vegan? then 2 else 1
    case PutItem(_) => 3
    case PutCount(_) => 2
    case Pick(_) => n + 5 + rest
    case Shift(_) => (if pr.idx < n then n - pr.idx else 0) + 4 + rest
    case Clear(_) => 3 + rest
    case Drop(_) => 2 + rest
    case Post(_) => 1 + rest
  }

  /** Process p is at the head of its loop. */
  predicate Home(c: Config, s: State, p: nat) {
    p < |s.procs| && p < |c.roles| && s.procs[p].pc == Start(c.roles[p])
  }

  /** Before the counts have been used, the bound is a constant of the statement. */
  lemma RankFallsEarly(c: Config, role: Role, p: nat, pr: Proc, ts: Two<Tray>, now: int)
    requires Knows(c, role, pr, ts)
    requires pr.pc != Start(role) && (pr.pc.Wait? ==> ts.At(pr.pc.d).sem > 0)
    requires pr.pc.Wait? || pr.pc.ReadCount? || pr.pc.Retry?
    ensures Rank(c, role, Exec(c, role, p, pr, ts.At(pr.pc.d), now).0) < Rank(c, role, pr)
  {
    if pr.pc.ReadCount? {
      assert Holds(role, pr.pc, pr.pc.d) && Phase(c, role, pr, ts.At(pr.pc.d), pr.pc.d);
      if role.Hybrid? && pr.pc.d.NonVegan? {
        assert Holds(role, pr.pc, Vegan) && Phase(c, role, pr, ts.At(Vegan), Vegan);
      }
    }
  }

  lemma RankFallsLate(c: Config, role: Role, p: nat, pr: Proc, t: Tray, now: int)
    requires RoleOk(role, pr.pc) && Fits(pr, t) && Phase(c, role, pr, t, pr.pc.d)
    requires !pr.pc.Wait? && !pr.pc.ReadCount? && !pr.pc.Retry?
    ensures Rank(c, role, Exec(c, role, p, pr, t, now).0) < Rank(c, role, pr)
  {
  }

  lemma RankFalls(c: Config, role: Role, p: nat, pr: Proc, ts: Two<Tray>, now: int)
    requires Knows(c, role, pr, ts) && Fits(pr, ts.At(pr.pc.d))
    requires pr.pc != Start(role) && (pr.pc.Wait? ==> ts.At(pr.pc.d).sem > 0)
    ensures Rank(c, role, Exec(c, role, p, pr, ts.At(pr.pc.d), now).0) < Rank(c, role, pr)
  {
    if pr.pc.Wait? || pr.pc.ReadCount? || pr.pc.Retry? {
      RankFallsEarly(c, role, p, pr, ts, now);
    } else {
      assert Holds(role, pr.pc, pr.pc.d);
      RankFallsLate(c, role, p, pr, ts.At(pr.pc.d), now);
    }
  }

  lemma StepRank(c: Config, s: State, k: Tick)
    requires Inv(c, s) && Enabled(c, s, k.pid) && !Home(c, s, k.pid)
    ensures Rank(c, c.roles[k.pid], Step(c, s, k).procs[k.pid]) < Rank(c, c.roles[k.pid], s.procs[k.pid])
  {
    KnowsAt(c, s, k.pid);
    RankFalls(c, c.roles[k.pid], k.pid, s.procs[k.pid], s.trays, k.now);
  }

  // ----- Bounded critical sections -----

  /** How many of the ticks of sched let process p execute a statement. */
  ghost function OwnSteps(c: Config, s: State, p: nat, sched: seq<Tick>): nat {
    if sched == [] then 0
    else
      var n := |sched| - 1;
      OwnSteps(c, s, p, sched[..n]) + if sched[n].pid == p && Enabled(c, Run(c, s, sched[..n]), p) then 1 else 0
  }

  /** Process p does not come home between the first and the last state of the run. */
  ghost predicate Away(c: Config, s: State, p: nat, sched: seq<Tick>) {
    !Home(c, Run(c, s, sched), p) && (sched != [] ==> Away(c, s, p, sched[..|sched| - 1]))
  }

  /** However the others are interleaved, a process that has entered a critical section executes at
      most 2 * cap + 13 statements before it has posted everything it holds. */
  lemma {:induction false} SectionIsBounded(c: Config, s: State, p: nat, sched: seq<Tick>)
    requires Inv(c, s) && p < |s.procs| && Away(c, s, p, sched)
    ensures |Run(c, s, sched).procs| == |s.procs|
    ensures OwnSteps(c, s, p, sched) + Rank(c, c.roles[p], Run(c, s, sched).procs[p]) <= Rank(c, c.roles[p], s.procs[p])
    ensures Rank(c, c.roles[p], s.procs[p]) <= 2 * c.cap + 13
  {
    RankBound(c, s, p);
    if sched != [] {
      var n := |sched| - 1;
      RunKeepsInv(c, s, sched[..n]);
      SectionIsBounded(c, s, p, sched[..n]);
      var mid := Run(c, s, sched[..n]);
      if sched[n].pid == p && Enabled(c, mid, p) {
        StepRank(c, mid, sched[n]);
      }
    }
  }

  lemma RankBound(c: Config, s: State, p: nat)
    requires Inv(c, s) && p < |s.procs|
    ensures Rank(c, c.roles[p], s.procs[p]) <= 2 * c.cap + 13
  {
    KnowsAt(c, s, p);
    var pr := s.procs[p];
    if !pr.pc.Wait? {
      assert Phase(c, c.roles[p], pr, s.trays.At(pr.pc.d), pr.pc.d);
      if c.roles[p].Hybrid? {
        assert Holds(c.roles[p], pr.pc, NonVegan) && Phase(c, c.roles[p], pr, s.trays.At(NonVegan), NonVegan);
      }
    }
  }

  // ----- No deadlock -----

  /** Following the holders from a process that waits leads, in at most two steps, to one that can
      run: whoever holds the non-vegan tray never waits. */
  lemma HoldersLeadOut(c: Config, s: State, p: nat)
    requires Inv(c, s) && p < |s.procs| && !Enabled(c, s, p)
    ensures exists q: nat :: HoldsAt(c, s, q, s.procs[p].pc.d) &&
                        (Enabled(c, s, q) || (s.procs[q].pc == Wait(NonVegan) && exists r: nat :: HoldsAt(c, s, r, NonVegan) && Enabled(c, s, r)))
  {
    var q := HolderExists(c, s, s.procs[p].pc.d);
    assert ProcInv(c, s, q);
    if !Enabled(c, s, q) {
      var r := HolderExists(c, s, NonVegan);
      assert HoldsAt(c, s, r, NonVegan) && Enabled(c, s, r) by {
        assert ProcInv(c, s, r);
      }
      assert s.procs[q].pc == Wait(NonVegan);
    }
  }

  /** A process is enabled exactly if its next statement changes the state, whatever the time is. */
  lemma EnabledIffMoves(c: Config, s: State, k: Tick)
    requires Inv(c, s)
    ensures Enabled(c, s, k.pid) <==> Step(c, s, k) != s
  {
    if k.pid < |s.procs| {
      KnowsAt(c, s, k.pid);
      if Enabled(c, s, k.pid) {
        assert Step(c, s, k).procs[k.pid] != s.procs[k.pid];
      }
    }
  }

  lemma SomeoneEnabled(c: Config, s: State) returns (p: nat)
    requires Inv(c, s) && s.procs != []
    ensures Enabled(c, s, p)
  {
    p := 0;
    if !Enabled(c, s, 0) {
      HoldersLeadOut(c, s, 0);
      p :| HoldsAt(c, s, p, s.procs[0].pc.d) &&
           (Enabled(c, s, p) || (s.procs[p].pc == Wait(NonVegan) && exists r: nat :: HoldsAt(c, s, r, NonVegan) && Enabled(c, s, r)));
      if !Enabled(c, s, p) {
        p :| HoldsAt(c, s, p, NonVegan) && Enabled(c, s, p);
      }
    }
  }

  /** No reachable state with a process in it is deadlocked: some process changes it. */
  lemma NoDeadlock(c: Config, sched: seq<Tick>) returns (p: nat)
    requires c.roles != []
    ensures p < |c.roles|
    ensures forall now :: Step(c, Run(c, Init(c), sched), Tick(p, now)) != Run(c, Init(c), sched)
  {
    InitInv(c);
    RunKeepsInv(c, Init(c), sched);
    var s := Run(c, Init(c), sched);
    p := SomeoneEnabled(c, s);
    forall now ensures Step(c, s, Tick(p, now)) != s {
      EnabledIffMoves(c, s, Tick(p, now));
    }
  }

  ghost predicate OnlyMoved(s: State, s': State, p: nat) {
    |s'.procs| == |s.procs| && forall q: nat | q < |s.procs| && q != p :: s'.procs[q] == s.procs[q]
  }

  /** A process that holds a tray and need not wait gets home on its own. */
  lemma {:induction false} Finish(c: Config, s: State, p: nat) returns (sched: seq<Tick>)
    requires Inv(c, s) && p < |s.procs| && !Home(c, s, p) && Enabled(c, s, p)
    ensures |sched| <= Rank(c, c.roles[p], s.procs[p])
    ensures OnlyMoved(s, Run(c, s, sched), p) && Home(c, Run(c, s, sched), p)
    decreases Rank(c, c.roles[p], s.procs[p])
  {
    var k := Tick(p, 0);
    var s' := Step(c, s, k);
    StepRank(c, s, k);
    StepKeepsInv(c, s, k);
    KnowsAt(c, s, p);
    if Home(c, s', p) {
      sched := [k];
      Runs.RunOne(Stepper(c), s, k);
    } else {
      var rest := Finish(c, s', p);
      sched := [k] + rest;
      Runs.RunOne(Stepper(c), s, k);
      Runs.RunAppend(Stepper(c), s, [k], rest);
    }
  }

  lemma FinishFrees(c: Config, s: State, s': State, p: nat, d: Diet)
    requires Inv(c, s) && Inv(c, s') && HoldsAt(c, s, p, d) && OnlyMoved(s, s', p) && Home(c, s', p)
    ensures s'.trays.At(d).sem == 1
  {
    HoldersAfter(c, s, s', p, d);
    forall q | q in Holders(c, s, d) ensures q == p {
      Exclusive(c, s, p, q, d);
    }
    assert Holders(c, s', d) == {};
    assert TrayInv(c, s', d);
  }

  ghost predicate WaitersStay(c: Config, s: State, s': State) {
    |s'.procs| == |s.procs| == |c.roles| && forall q: nat | q < |s.procs| && Home(c, s, q) :: s'.procs[q] == s.procs[q]
  }

  /** From every state that satisfies the invariant, either tray can be freed within
      4 * cap + 26 statements, while everyone at the head of its loop stays there. */
  lemma CanBeFreed(c: Config, s: State, d: Diet) returns (sched: seq<Tick>)
    requires Inv(c, s)
    ensures |sched| <= 4 * c.cap + 26
    ensures Run(c, s, sched).trays.At(d).sem == 1 && WaitersStay(c, s, Run(c, s, sched))
  {
    if s.trays.At(d).sem != 0 {
      assert TrayInv(c, s, d);
      sched := [];
      return;
    }
    var q := HolderExists(c, s, d);
    assert ProcInv(c, s, q);
    RankBound(c, s, q);
    if Enabled(c, s, q) {
      sched := Finish(c, s, q);
      RunKeepsInv(c, s, sched);
      FinishFrees(c, s, Run(c, s, sched), q, d);
    } else {
      var r := HolderExists(c, s, NonVegan);
      assert ProcInv(c, s, r);
      RankBound(c, s, r);
      var first := Finish(c, s, r);
      var mid := Run(c, s, first);
      RunKeepsInv(c, s, first);
      FinishFrees(c, s, mid, r, NonVegan);
      var second := Finish(c, mid, q);
      sched := first + second;
      Runs.RunAppend(Stepper(c), s, first, second);
      RunKeepsInv(c, mid, second);
      FinishFrees(c, mid, Run(c, mid, second), q, d);
    }
  }

  /** No process waits in vain: from every reachable state there is a continuation after which a
      process waiting at the head of its loop can enter. */
  lemma WaitCanEnd(c: Config, sched: seq<Tick>, p: nat) returns (more: seq<Tick>)
    requires Home(c, Run(c, Init(c), sched), p)
    ensures |more| <= 4 * c.cap + 26
    ensures var s := Run(c, Init(c), sched + more);
            Home(c, s, p) && Enabled(c, s, p) && s.procs[p] == Run(c, Init(c), sched).procs[p]
  {
    InitInv(c);
    RunKeepsInv(c, Init(c), sched);
    var s := Run(c, Init(c), sched);
    more := CanBeFreed(c, s, s.procs[p].pc.d);
    Runs.RunAppend(Stepper(c), Init(c), sched, more);
  }
}
