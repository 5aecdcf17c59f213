/** Mutual exclusion and the shape of the trays in every reachable state of the restaurant. */
module RestaurantInvariant {
  import opened Restaurant

  // ----- One process on its own -----

  predicate Knows(c: Config, role: Role, pr: Proc, ts: Two<Tray>) {
    && RoleOk(role, pr.pc)
    && (forall d: Diet | Holds(role, pr.pc, d) :: Phase(c, role, pr, ts.At(d), d))
    && (pr.pc.Wait? && ts.At(pr.pc.d).sem > 0 ==> WellFormed(c, ts.At(pr.pc.d)))
  }

  /** No statement reads or writes outside the cap + 1 slots, and count never goes below zero. */
  lemma AccessesInBounds(c: Config, role: Role, pr: Proc, ts: Two<Tray>)
    requires Knows(c, role, pr, ts)
    ensures Fits(pr, ts.At(pr.pc.d))
  {
    if !pr.pc.Wait? {
      assert Holds(role, pr.pc, pr.pc.d);
    }
  }

  /** What one statement does to the semaphore of tray e and to what its process knows. */
  ghost predicate Sound(c: Config, role: Role, pr: Proc, before: Tray, pr': Proc, after: Tray, e: Diet) {
    && RoleOk(role, pr'.pc)
    && (Holds(role, pr'.pc, e) ==> Phase(c, role, pr', after, e))
    && (Holds(role, pr.pc, e) && !Holds(role, pr'.pc, e) ==> after.sem == before.sem + 1 && WellFormed(c, after))
    && (!Holds(role, pr.pc, e) && Holds(role, pr'.pc, e) ==> before.sem > 0 && after == before.(sem := before.sem - 1))
    && (Holds(role, pr.pc, e) && Holds(role, pr'.pc, e) ==> after.sem == before.sem)
    && (!Holds(role, pr.pc, e) && !Holds(role, pr'.pc, e) ==> after == before)
  }

  lemma OwnStep(c: Config, role: Role, p: nat, pr: Proc, ts: Two<Tray>, now: int, e: Diet)
    requires Knows(c, role, pr, ts) && Fits(pr, ts.At(pr.pc.d))
    ensures var (pr', t') := Exec(c, role, p, pr, ts.At(pr.pc.d), now);
            Sound(c, role, pr, ts.At(e), pr', ts.With(pr.pc.d, t').At(e), e)
  {
    if !pr.pc.Wait? {
      assert Holds(role, pr.pc, pr.pc.d);
      assert Phase(c, role, pr, ts.At(pr.pc.d), pr.pc.d);
    }
    if e != pr.pc.d {
      OtherTray(c, role, p, pr, ts, now, e);
    } else if pr.pc.Wait? || pr.pc.ReadCount? || pr.pc.Retry? || pr.pc.Post? {
      OwnControl(c, role, p, pr, ts, now);
    } else {
      OwnWrite(c, role, p, pr, ts.At(e), now);
    }
  }

  lemma OtherTray(c: Config, role: Role, p: nat, pr: Proc, ts: Two<Tray>, now: int, e: Diet)
    requires Knows(c, role, pr, ts) && Fits(pr, ts.At(pr.pc.d)) && e != pr.pc.d
    requires !pr.pc.Wait? ==> Phase(c, role, pr, ts.At(pr.pc.d), pr.pc.d)
    ensures Sound(c, role, pr, ts.At(e), Exec(c, role, p, pr, ts.At(pr.pc.d), now).0, ts.At(e), e)
  {
    if Holds(role, pr.pc, e) {
      assert Phase(c, role, pr, ts.At(e), e);
    }
  }

  lemma OwnControl(c: Config, role: Role, p: nat, pr: Proc, ts: Two<Tray>, now: int)
    requires Knows(c, role, pr, ts)
    requires pr.pc.Wait? || pr.pc.ReadCount? || pr.pc.Retry? || pr.pc.Post?
    requires !pr.pc.Wait? ==> Phase(c, role, pr, ts.At(pr.pc.d), pr.pc.d)
    ensures var (pr', t') := Exec(c, role, p, pr, ts.At(pr.pc.d), now);
            Sound(c, role, pr, ts.At(pr.pc.d), pr', t', pr.pc.d)
  {
    if role.Hybrid? && (pr.pc == ReadCount(NonVegan) || pr.pc == Post(Vegan)) {
      var other := if pr.pc.d.Vegan? then NonVegan else Vegan;
      assert Phase(c, role, pr, ts.At(other), other);
    }
  }

  lemma OwnWrite(c: Config, role: Role, p: nat, pr: Proc, t: Tray, now: int)
    requires RoleOk(role, pr.pc) && Fits(pr, t) && Phase(c, role, pr, t, pr.pc.d)
    requires !pr.pc.Wait? && !pr.pc.ReadCount? && !pr.pc.Retry? && !pr.pc.Post?
    ensures var (pr', t') := Exec(c, role, p, pr, t, now);
            Sound(c, role, pr, t, pr', t', pr.pc.d)
  {
  }

  // ----- All processes together -----

  lemma HoldersAfter(c: Config, s: State, s': State, p: nat, e: Diet)
    requires p < |s.procs| == |s'.procs| == |c.roles|
    requires forall q: nat | q < |s.procs| && q != p :: s'.procs[q] == s.procs[q]
    ensures Holders(c, s', e) == if HoldsAt(c, s', p, e) then Holders(c, s, e) + {p} else Holders(c, s, e) - {p}
  {
    forall q: nat
      ensures q in Holders(c, s', e) <==> if HoldsAt(c, s', p, e) then q in Holders(c, s, e) + {p} else q in Holders(c, s, e) - {p}
    {
      if q != p && q < |s.procs| {
        assert s'.procs[q] == s.procs[q];
      }
    }
  }

  /** Mutual exclusion: at most one process holds a tray, and none when its semaphore is 1. */
  lemma Exclusive(c: Config, s: State, p: nat, q: nat, e: Diet)
    requires Inv(c, s) && HoldsAt(c, s, p, e)
    ensures s.trays.At(e).sem == 0
    ensures HoldsAt(c, s, q, e) ==> p == q
  {
    var h := Holders(c, s, e);
    assert p in h;
    assert TrayInv(c, s, e);
    if q in h && p != q {
      TwoMembers(h, p, q);
    }
  }

  lemma TwoMembers(h: set<nat>, p: nat, q: nat)
    requires p in h && q in h && p != q
    ensures |h| >= 2
  {
    assert |h - {p, q}| == |h| - 2;
  }

  lemma HolderExists(c: Config, s: State, d: Diet) returns (q: nat)
    requires Inv(c, s) && s.trays.At(d).sem != 1
    ensures HoldsAt(c, s, q, d)
  {
    assert TrayInv(c, s, d);
    q :| q in Holders(c, s, d);
  }

  lemma KnowsAt(c: Config, s: State, p: nat)
    requires Inv(c, s) && p < |s.procs|
    ensures Knows(c, c.roles[p], s.procs[p], s.trays)
    ensures Fits(s.procs[p], s.trays.At(s.procs[p].pc.d))
  {
    assert ProcInv(c, s, p);
    assert TrayInv(c, s, s.procs[p].pc.d);
    AccessesInBounds(c, c.roles[p], s.procs[p], s.trays);
  }

  lemma StepTray(c: Config, s: State, k: Tick, e: Diet)
    requires Inv(c, s) && k.pid < |s.procs|
    ensures TrayInv(c, Step(c, s, k), e)
  {
    var p := k.pid;
    var s' := Step(c, s, k);
    KnowsAt(c, s, p);
    OwnStep(c, c.roles[p], p, s.procs[p], s.trays, k.now, e);
    HoldersAfter(c, s, s', p, e);
    assert TrayInv(c, s, e);
    ResizeBy(Holders(c, s, e), p);
    assert p in Holders(c, s, e) <==> HoldsAt(c, s, p, e);
    TrayAfter(c, s, s', p, e);
  }

  lemma ResizeBy(h: set<nat>, p: nat)
    ensures |h + {p}| == if p in h then |h| else |h| + 1
    ensures |h - {p}| == if p in h then |h| - 1 else |h|
  {
    if p in h {
      assert h + {p} == h;
    } else {
      assert h - {p} == h;
    }
  }

  lemma TrayAfter(c: Config, s: State, s': State, p: nat, e: Diet)
    requires p < |s.procs| == |s'.procs| == |c.roles|
    requires TrayInv(c, s, e) && Sound(c, c.roles[p], s.procs[p], s.trays.At(e), s'.procs[p], s'.trays.At(e), e)
    requires |Holders(c, s', e)| ==
             |Holders(c, s, e)| + (if HoldsAt(c, s', p, e) then 1 else 0) - (if HoldsAt(c, s, p, e) then 1 else 0)
    requires HoldsAt(c, s, p, e) ==> |Holders(c, s, e)| > 0
    ensures TrayInv(c, s', e)
  {
  }

  /** A step of one process leaves every other process with what it knows. */
  lemma StepOther(c: Config, s: State, k: Tick, q: nat)
    requires Inv(c, s) && k.pid < |s.procs| && q < |s.procs|
    ensures ProcInv(c, Step(c, s, k), q)
  {
    var p := k.pid;
    var s' := Step(c, s, k);
    KnowsAt(c, s, p);
    assert ProcInv(c, s, q);
    forall e: Diet | Holds(c.roles[q], s'.procs[q].pc, e)
      ensures Phase(c, c.roles[q], s'.procs[q], s'.trays.At(e), e)
    {
      OwnStep(c, c.roles[p], p, s.procs[p], s.trays, k.now, e);
      if q != p {
        assert HoldsAt(c, s, q, e);
        Exclusive(c, s, q, p, e);
      }
    }
    if q == p {
      OwnStep(c, c.roles[p], p, s.procs[p], s.trays, k.now, Vegan);
    }
  }

  lemma StepKeepsInv(c: Config, s: State, k: Tick)
    requires Inv(c, s)
    ensures Inv(c, Step(c, s, k))
  {
    if k.pid < |s.procs| {
      StepTray(c, s, k, Vegan);
      StepTray(c, s, k, NonVegan);
      forall q: nat | q < |s.procs| ensures ProcInv(c, Step(c, s, k), q) {
        StepOther(c, s, k, q);
      }
    }
  }

  lemma InitInv(c: Config)
    ensures Inv(c, Init(c))
  {
    assert Holders(c, Init(c), Vegan) == {};
    assert Holders(c, Init(c), NonVegan) == {};
  }

  lemma {:induction false} RunKeepsInv(c: Config, s: State, sched: seq<Tick>)
    requires Inv(c, s)
    ensures Inv(c, Run(c, s, sched))
  {
    if sched != [] {
      RunKeepsInv(c, s, sched[..|sched| - 1]);
      StepKeepsInv(c, Run(c, s, sched[..|sched| - 1]), sched[|sched| - 1]);
    }
  }

  /** In every reachable state: semaphore value plus number of holders is 1; and whenever the
      semaphore is 1, count is at most cap and every slot from count through the guard is blank. */
  lemma ReachableTrays(c: Config, sched: seq<Tick>, d: Diet)
    ensures var s := Run(c, Init(c), sched);
            && s.trays.At(d).sem + |Holders(c, s, d)| == 1
            && (s.trays.At(d).sem == 1 ==> WellFormed(c, s.trays.At(d)))
  {
    InitInv(c);
    RunKeepsInv(c, Init(c), sched);
    assert TrayInv(c, Run(c, Init(c), sched), d);
  }

  // ----- The slot behind the last one -----

  /** The slots that the next statement of process p reads or writes. */
  function Touched(c: Config, p: nat, pr: Proc): set<nat> {
    var n := pr.cnt.At(pr.pc.d);
    match pr.pc
    case PutItem(_) => {n}
    case Pick(_) => if n > 0 then {Choice(c, p, pr.calls, n)} else {}
    case Shift(_) => if pr.idx < n then {pr.idx, pr.idx + 1} else {}
    case Clear(_) => {n}
    case _ => {}
  }

  /** A statement depends on no other slot, and changes no other. */
  lemma OnlyTouched(c: Config, role: Role, p: nat, pr: Proc, t: Tray, items: seq<Food>, now: int)
    requires Fits(pr, t) && |items| == |t.items|
    requires forall k | k in Touched(c, p, pr) && k < |items| :: items[k] == t.items[k]
    ensures var (pr', t') := Exec(c, role, p, pr, t, now);
            var (pr2, u) := Exec(c, role, p, pr, t.(items := items), now);
            && pr' == pr2 && |t'.items| == |t.items|
            && u == t'.(items := u.items) && |u.items| == |t.items|
            && forall k | 0 <= k < |t.items| ::
                 if k in Touched(c, p, pr) then u.items[k] == t'.items[k] else t'.items[k] == t.items[k]
  {
  }

  /** The process has found its tray full and is in the last round of its shift loop, or at the memset. */
  predicate Overruns(c: Config, pr: Proc) {
    && pr.cnt.At(pr.pc.d) == c.cap
    && (pr.pc.Clear? || (pr.pc.Shift? && pr.idx + 1 == c.cap))
  }

  lemma TouchedIff(c: Config, p: nat, role: Role, pr: Proc, t: Tray)
    requires RoleOk(role, pr.pc) && (Holds(role, pr.pc, pr.pc.d) ==> Phase(c, role, pr, t, pr.pc.d))
    ensures forall k | k in Touched(c, p, pr) :: k <= c.cap
    ensures c.cap in Touched(c, p, pr) <==> Overruns(c, pr)
    ensures Overruns(c, pr) ==> t.count == c.cap
  {
  }

  /** In every reachable state: the next statement of a process touches no slot behind the one after the
      last, and it leaves the cap declared slots exactly if the process has found its tray full and is
      in the last round of its shift loop, or at the memset. */
  lemma DeclaredSlotsLeftIff(c: Config, sched: seq<Tick>, p: nat)
    requires p < |c.roles|
    ensures var s := Run(c, Init(c), sched);
            && |s.procs| == |c.roles|
            && (forall k | k in Touched(c, p, s.procs[p]) :: k <= c.cap)
            && (c.cap in Touched(c, p, s.procs[p]) <==> Overruns(c, s.procs[p]))
            && (Overruns(c, s.procs[p]) ==> s.trays.At(s.procs[p].pc.d).count == c.cap)
  {
    InitInv(c);
    RunKeepsInv(c, Init(c), sched);
    var s := Run(c, Init(c), sched);
    KnowsAt(c, s, p);
    TouchedIff(c, p, c.roles[p], s.procs[p], s.trays.At(s.procs[p].pc.d));
  }

  /** In every reachable state, whoever holds the tray, the slot behind the last one is blank: what the
      shift loop reads there and the memset writes there is all zero. */
  lemma GuardIsBlank(c: Config, sched: seq<Tick>, d: Diet)
    ensures var t := Run(c, Init(c), sched).trays.At(d);
            |t.items| == c.cap + 1 && t.items[c.cap] == Food(0, 0, NoDish)
  {
    InitInv(c);
    RunKeepsInv(c, Init(c), sched);
    var s := Run(c, Init(c), sched);
    assert TrayInv(c, s, d);
    if s.trays.At(d).sem != 1 {
      var q := HolderExists(c, s, d);
      assert ProcInv(c, s, q);
      assert Phase(c, c.roles[q], s.procs[q], s.trays.At(d), d);
    }
  }
}
