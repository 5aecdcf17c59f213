/** Every interleaving of the restaurant's statements is a run of the atomic restaurant.

    A customer's operation takes effect when it reads its dish, a chef's when it writes the new
    count.  A hybrid's takes effect on both trays when it reads its vegan dish: it still holds both
    semaphores there, and its stream of random numbers already settles the non-vegan choice. */
module RestaurantRefinement {
  import Runs
  import opened Restaurant
  import opened RestaurantInvariant
  import opened AtomicRestaurant
  import opened Sequences

  predicate Removing(pc: Pc) {
    pc.Shift? || pc.Clear? || pc.Drop?
  }

  /** A hybrid that has taken effect but has not reached the non-vegan tray yet. */
  predicate Owes(role: Role, pc: Pc, d: Diet) {
    role.Hybrid? && d.NonVegan? && (pc == Pick(NonVegan) || pc == Post(Vegan) || (pc.d.Vegan? && Removing(pc)))
  }

  /** The dishes that will be left on tray d when its holder lets go of it. */
  ghost function Left(c: Config, role: Role, p: nat, pr: Proc, t: Tray, d: Diet): seq<Food>
    requires Holds(role, pr.pc, d) && Phase(c, role, pr, t, d)
  {
    var n := pr.cnt.At(d);
    if pr.pc.d == d && Removing(pr.pc) then
      if pr.idx < n then t.items[..pr.idx] + t.items[pr.idx + 1..n] else t.items[..n - 1]
    else if Owes(role, pr.pc, d) then RemoveAt(t.items[..n], Choice(c, p, pr.calls, n))
    else t.items[..t.count]
  }

  /** The dish the holder of tray d has taken but not yet accounted for. */
  ghost function InHand(c: Config, role: Role, p: nat, pr: Proc, t: Tray, d: Diet): seq<Receipt>
    requires Holds(role, pr.pc, d) && Phase(c, role, pr, t, d)
  {
    if pr.pc.d == d && Removing(pr.pc) then [Receipt(p, pr.item.At(d))]
    else if Owes(role, pr.pc, d) then [Receipt(p, t.items[Choice(c, p, pr.calls, pr.cnt.At(d))])]
    else []
  }

  /** A tray as it is seen when nobody holds it. */
  ghost function Resting(t: Tray): ATray
    requires t.count <= |t.items|
  {
    ATray(t.items[..t.count], t.cooked, t.taken)
  }

  /** A tray as it is seen through its holder. */
  ghost function Seen(c: Config, role: Role, p: nat, pr: Proc, t: Tray, d: Diet): ATray
    requires Holds(role, pr.pc, d) && Phase(c, role, pr, t, d)
  {
    ATray(Left(c, role, p, pr, t, d), t.cooked, t.taken + InHand(c, role, p, pr, t, d))
  }

  ghost predicate SimTray(c: Config, s: State, a: AState, d: Diet)
    requires Inv(c, s)
  {
    && (s.trays.At(d).sem == 1 ==> WellFormed(c, s.trays.At(d)) && a.At(d) == Resting(s.trays.At(d)))
    && forall p: nat | HoldsAt(c, s, p, d) :: SimHolder(c, s, a, d, p)
  }

  ghost predicate SimHolder(c: Config, s: State, a: AState, d: Diet, p: nat)
    requires Inv(c, s) && HoldsAt(c, s, p, d)
  {
    && ProcInv(c, s, p)
    && a.At(d) == Seen(c, c.roles[p], p, s.procs[p], s.trays.At(d), d)
  }

  ghost predicate Sim(c: Config, s: State, a: AState) {
    Inv(c, s) && SimTray(c, s, a, Vegan) && SimTray(c, s, a, NonVegan)
  }

  /** The atomic operation that takes effect with the next statement of process p. */
  ghost function Effect(c: Config, role: Role, p: nat, pr: Proc): Op
    requires pr.pc.Pick? ==> pr.cnt.At(pr.pc.d) > 0
    requires role.Hybrid? && pr.pc == Pick(Vegan) ==> pr.cnt.nonVegan > 0
  {
    match pr.pc
    case PutCount(d) => Cook(p, d, pr.item.At(d))
    case Pick(d) =>
      if !role.Hybrid? then Take(p, d, Choice(c, p, pr.calls, pr.cnt.At(d)))
      else if d.Vegan? then
        TakeBoth(p, Choice(c, p, pr.calls, pr.cnt.vegan), Choice(c, p, pr.calls + 1, pr.cnt.nonVegan))
      else Idle
    case _ => Idle
  }

  /** op is what takes effect with the next statement of process p. */
  ghost predicate IsEffect(c: Config, role: Role, p: nat, pr: Proc, op: Op) {
    && (pr.pc.Pick? ==> pr.cnt.At(pr.pc.d) > 0)
    && (role.Hybrid? && pr.pc == Pick(Vegan) ==> pr.cnt.nonVegan > 0)
    && op == Effect(c, role, p, pr)
  }

  /** The statements with which nothing takes effect: all but a chef's new count, a customer's pick and
      a hybrid's first pick.  Failed attempts consist of these alone. */
  predicate Silent(role: Role, pc: Pc) {
    !pc.PutCount? && (pc.Pick? ==> role.Hybrid? && pc.d.NonVegan?)
  }

  // ----- One process on its own -----

  ghost predicate SeesAll(c: Config, role: Role, p: nat, pr: Proc, ts: Two<Tray>, a: AState) {
    && Knows(c, role, pr, ts)
    && IsRole(c, p, role)
    && (forall d: Diet | Holds(role, pr.pc, d) :: Phase(c, role, pr, ts.At(d), d) && a.At(d) == Seen(c, role, p, pr, ts.At(d), d))
    && (pr.pc.Wait? && ts.At(pr.pc.d).sem > 0 ==> a.At(pr.pc.d) == Resting(ts.At(pr.pc.d)))
  }

  /** How the two views of tray e go on after one statement. */
  ghost predicate Tracks(c: Config, role: Role, p: nat, pr: Proc, pr': Proc, after: Tray, a: AState, a': AState, e: Diet) {
    && (Holds(role, pr'.pc, e) ==> Phase(c, role, pr', after, e) && a'.At(e) == Seen(c, role, p, pr', after, e))
    && (Holds(role, pr.pc, e) && !Holds(role, pr'.pc, e) ==> WellFormed(c, after) && a'.At(e) == Resting(after))
    && (!Holds(role, pr.pc, e) && !Holds(role, pr'.pc, e) ==> a'.At(e) == a.At(e))
  }

  lemma EffectDefined(c: Config, role: Role, p: nat, pr: Proc, ts: Two<Tray>, a: AState)
    requires SeesAll(c, role, p, pr, ts, a)
    ensures Fits(pr, ts.At(pr.pc.d))
    ensures pr.pc.Pick? ==> pr.cnt.At(pr.pc.d) > 0
    ensures role.Hybrid? && pr.pc == Pick(Vegan) ==> pr.cnt.nonVegan > 0
    ensures Allowed(c, a, Effect(c, role, p, pr))
  {
    AccessesInBounds(c, role, pr, ts);
    if pr.pc.Pick? || pr.pc.PutCount? {
      assert Phase(c, role, pr, ts.At(pr.pc.d), pr.pc.d);
      if role.Hybrid? {
        assert Holds(role, pr.pc, NonVegan);
        assert Phase(c, role, pr, ts.At(NonVegan), NonVegan);
      }
    }
  }

  /** Closing the gap by one slot leaves the final result the same. */
  lemma ShiftKeepsLeft(items: seq<Food>, i: nat, n: nat)
    requires i < n < |items|
    ensures items[..i] + items[i + 1..n] ==
            var items' := items[i := items[i + 1]];
            if i + 1 < n then items'[..i + 1] + items'[i + 2..n] else items'[..n - 1]
  {
  }

  lemma OwnTracks(c: Config, role: Role, p: nat, pr: Proc, ts: Two<Tray>, now: int, a: AState, e: Diet)
    requires SeesAll(c, role, p, pr, ts, a) && Fits(pr, ts.At(pr.pc.d))
    requires pr.pc.Pick? ==> pr.cnt.At(pr.pc.d) > 0
    requires role.Hybrid? && pr.pc == Pick(Vegan) ==> pr.cnt.nonVegan > 0
    requires Allowed(c, a, Effect(c, role, p, pr))
    ensures var (pr', t') := Exec(c, role, p, pr, ts.At(pr.pc.d), now);
            Tracks(c, role, p, pr, pr', ts.With(pr.pc.d, t').At(e), a, Apply(c, a, Effect(c, role, p, pr)), e)
  {
    OwnStep(c, role, p, pr, ts, now, e);
    if !pr.pc.Wait? {
      assert Holds(role, pr.pc, pr.pc.d);
      assert Phase(c, role, pr, ts.At(pr.pc.d), pr.pc.d);
    }
    if Holds(role, pr.pc, e) {
      assert Phase(c, role, pr, ts.At(e), e);
    }
    if e != pr.pc.d {
      OtherTracks(c, role, p, pr, ts, now, a, e);
    } else if pr.pc.Wait? || pr.pc.ReadCount? || pr.pc.Retry? || pr.pc.Post? {
      ControlTracks(c, role, p, pr, ts, now, a);
    } else {
      WriteTracks(c, role, p, pr, ts.At(e), now, a);
    }
  }

  lemma OtherTracks(c: Config, role: Role, p: nat, pr: Proc, ts: Two<Tray>, now: int, a: AState, e: Diet)
    requires SeesAll(c, role, p, pr, ts, a) && Fits(pr, ts.At(pr.pc.d)) && e != pr.pc.d
    requires pr.pc.Pick? ==> pr.cnt.At(pr.pc.d) > 0
    requires role.Hybrid? && pr.pc == Pick(Vegan) ==> pr.cnt.nonVegan > 0
    requires Allowed(c, a, Effect(c, role, p, pr))
    requires Holds(role, pr.pc, e) ==> Phase(c, role, pr, ts.At(e), e)
    requires Sound(c, role, pr, ts.At(e), Exec(c, role, p, pr, ts.At(pr.pc.d), now).0, ts.At(e), e)
    ensures Tracks(c, role, p, pr, Exec(c, role, p, pr, ts.At(pr.pc.d), now).0, ts.At(e), a, Apply(c, a, Effect(c, role, p, pr)), e)
  {
    var pr' := Exec(c, role, p, pr, ts.At(pr.pc.d), now).0;
    if Holds(role, pr.pc, e) {
      assert role.Hybrid? && Holds(role, pr'.pc, e);
      HybridMoves(c, p, pr, ts.At(pr.pc.d), now, e);
      OtherView(c, p, pr, pr', ts.At(e), e);
    } else {
      assert Effect(c, role, p, pr) != Idle ==> !role.Hybrid?;
    }
  }

  /** Where a hybrid that works on one tray and holds the other can go, and what stays the same. */
  ghost predicate Moves(pr: Proc, pr': Proc, e: Diet) {
    && pr'.cnt.At(e) == pr.cnt.At(e)
    && match pr.pc
       case Wait(_) => pr'.pc == pr.pc || pr'.pc == ReadCount(e)
       case ReadCount(_) => pr'.pc == ReadCount(NonVegan) || pr'.pc == Retry(Vegan) || pr'.pc == Pick(Vegan)
       case Retry(_) => pr'.pc == Retry(e)
       case Pick(d) => pr'.pc == Shift(d) && pr'.calls == pr.calls + 1
       case Post(_) => pr'.pc == Pick(e) && pr'.calls == pr.calls
       case _ => pr'.pc.d == pr.pc.d && (Removing(pr'.pc) || pr'.pc.Post?) && pr'.calls == pr.calls
  }

  lemma HybridMoves(c: Config, p: nat, pr: Proc, t: Tray, now: int, e: Diet)
    requires RoleOk(Hybrid, pr.pc) && Fits(pr, t) && e != pr.pc.d && Holds(Hybrid, pr.pc, e)
    ensures Moves(pr, Exec(c, Hybrid, p, pr, t, now).0, e)
  {
  }

  /** What a hybrid sees of the tray it is not working on changes only when it takes effect. */
  lemma OtherView(c: Config, p: nat, pr: Proc, pr': Proc, t: Tray, e: Diet)
    requires RoleOk(Hybrid, pr.pc) && e != pr.pc.d && Moves(pr, pr', e)
    requires Holds(Hybrid, pr.pc, e) && Phase(c, Hybrid, pr, t, e)
    requires pr.pc == Pick(Vegan) ==> pr.cnt.nonVegan > 0
    requires Holds(Hybrid, pr'.pc, e) && Phase(c, Hybrid, pr', t, e)
    ensures if pr.pc == Pick(Vegan) then
              && Seen(c, Hybrid, p, pr, t, e) == Resting(t)
              && Seen(c, Hybrid, p, pr', t, e) == TakeFrom(Resting(t), p, Choice(c, p, pr.calls + 1, pr.cnt.nonVegan))
            else Seen(c, Hybrid, p, pr', t, e) == Seen(c, Hybrid, p, pr, t, e)
  {
    if pr.pc == Pick(Vegan) {
      OtherViewPick(c, p, pr, pr', t);
    } else if !Owes(Hybrid, pr.pc, e) {
      assert !Owes(Hybrid, pr'.pc, e) && !Removing(pr'.pc);
    }
  }

  lemma OtherViewPick(c: Config, p: nat, pr: Proc, pr': Proc, t: Tray)
    requires pr.pc == Pick(Vegan) && pr'.pc == Shift(Vegan) && pr'.calls == pr.calls + 1
    requires pr'.cnt.nonVegan == pr.cnt.nonVegan
    requires Phase(c, Hybrid, pr, t, NonVegan) && Phase(c, Hybrid, pr', t, NonVegan)
    ensures Seen(c, Hybrid, p, pr, t, NonVegan) == Resting(t)
    ensures pr.cnt.nonVegan > 0 &&
            Seen(c, Hybrid, p, pr', t, NonVegan) == TakeFrom(Resting(t), p, Choice(c, p, pr.calls + 1, pr.cnt.nonVegan))
  {
    assert t.taken + [] == t.taken;
  }

  lemma ControlTracks(c: Config, role: Role, p: nat, pr: Proc, ts: Two<Tray>, now: int, a: AState)
    requires SeesAll(c, role, p, pr, ts, a)
    requires pr.pc.Wait? || pr.pc.ReadCount? || pr.pc.Retry? || pr.pc.Post?
    requires var (pr', t') := Exec(c, role, p, pr, ts.At(pr.pc.d), now);
             Sound(c, role, pr, ts.At(pr.pc.d), pr', t', pr.pc.d)
    ensures var (pr', t') := Exec(c, role, p, pr, ts.At(pr.pc.d), now);
            Tracks(c, role, p, pr, pr', t', a, a, pr.pc.d)
  {
  }

  lemma WriteTracks(c: Config, role: Role, p: nat, pr: Proc, t: Tray, now: int, a: AState)
    requires RoleOk(role, pr.pc) && Holds(role, pr.pc, pr.pc.d) && Phase(c, role, pr, t, pr.pc.d) && Fits(pr, t)
    requires !pr.pc.Wait? && !pr.pc.ReadCount? && !pr.pc.Retry? && !pr.pc.Post?
    requires a.At(pr.pc.d) == Seen(c, role, p, pr, t, pr.pc.d)
    requires role.Hybrid? && pr.pc == Pick(Vegan) ==> pr.cnt.nonVegan > 0
    requires Allowed(c, a, Effect(c, role, p, pr))
    requires var (pr', t') := Exec(c, role, p, pr, t, now);
             Sound(c, role, pr, t, pr', t', pr.pc.d)
    ensures var (pr', t') := Exec(c, role, p, pr, t, now);
            Tracks(c, role, p, pr, pr', t', a, Apply(c, a, Effect(c, role, p, pr)), pr.pc.d)
  {
    if pr.pc.Pick? {
      PickView(c, role, p, pr, t, now);
    } else if Removing(pr.pc) {
      RemovingView(c, role, p, pr, t, now);
    } else {
      PutView(c, role, p, pr, t, now);
    }
  }

  /** Reading the dish removes it from the view, except where a hybrid already took effect. */
  lemma PickView(c: Config, role: Role, p: nat, pr: Proc, t: Tray, now: int)
    requires RoleOk(role, pr.pc) && Holds(role, pr.pc, pr.pc.d) && Phase(c, role, pr, t, pr.pc.d) && Fits(pr, t)
    requires pr.pc.Pick?
    requires var (pr', t') := Exec(c, role, p, pr, t, now);
             Holds(role, pr'.pc, pr.pc.d) && Phase(c, role, pr', t', pr.pc.d)
    ensures var (pr', t') := Exec(c, role, p, pr, t, now);
            var d := pr.pc.d;
            var after := Seen(c, role, p, pr', t', d);
            var before := Seen(c, role, p, pr, t, d);
            if role.Hybrid? && d.NonVegan? then after == before
            else before == Resting(t) && after == TakeFrom(before, p, Choice(c, p, pr.calls, pr.cnt.At(d)))
  {
  }

  lemma PutView(c: Config, role: Role, p: nat, pr: Proc, t: Tray, now: int)
    requires RoleOk(role, pr.pc) && Holds(role, pr.pc, pr.pc.d) && Phase(c, role, pr, t, pr.pc.d) && Fits(pr, t)
    requires pr.pc.PutItem? || pr.pc.PutCount?
    requires var (pr', t') := Exec(c, role, p, pr, t, now);
             Holds(role, pr'.pc, pr.pc.d) && Phase(c, role, pr', t', pr.pc.d)
    ensures var (pr', t') := Exec(c, role, p, pr, t, now);
            var d := pr.pc.d;
            var after := Seen(c, role, p, pr', t', d);
            var before := Seen(c, role, p, pr, t, d);
            after == if pr.pc.PutCount? then
                       var food := pr.item.At(d);
                       ATray(before.content + [food], before.cooked + [food], before.taken)
                     else before
  {
    var (pr', t') := Exec(c, role, p, pr, t, now);
    var n := pr.cnt.At(pr.pc.d);
    if pr.pc.PutItem? {
      assert t'.items[..n] == t.items[..n];
    } else {
      assert t'.items[..n + 1] == t.items[..n] + [t.items[n]];
    }
  }

  /** Closing the gap, clearing the last slot and lowering the count change nothing in the view. */
  lemma RemovingView(c: Config, role: Role, p: nat, pr: Proc, t: Tray, now: int)
    requires RoleOk(role, pr.pc) && Holds(role, pr.pc, pr.pc.d) && Phase(c, role, pr, t, pr.pc.d) && Fits(pr, t)
    requires Removing(pr.pc)
    requires var (pr', t') := Exec(c, role, p, pr, t, now);
             Holds(role, pr'.pc, pr.pc.d) && Phase(c, role, pr', t', pr.pc.d)
    ensures var (pr', t') := Exec(c, role, p, pr, t, now);
            Seen(c, role, p, pr', t', pr.pc.d) == Seen(c, role, p, pr, t, pr.pc.d)
  {
    var (pr', t') := Exec(c, role, p, pr, t, now);
    var n := pr.cnt.At(pr.pc.d);
    match pr.pc
    case Shift(_) =>
      if pr.idx < n {
        ShiftKeepsLeft(t.items, pr.idx, n);
      }
    case Clear(_) => assert t'.items[..n - 1] == t.items[..n - 1];
    case Drop(_) =>
  }

  // ----- All processes together -----

  lemma SeesAllAt(c: Config, s: State, a: AState, p: nat)
    requires Sim(c, s, a) && p < |s.procs|
    ensures SeesAll(c, c.roles[p], p, s.procs[p], s.trays, a)
  {
    KnowsAt(c, s, p);
    var d := s.procs[p].pc.d;
    assert SimTray(c, s, a, d) && TrayInv(c, s, d);
    forall e: Diet | Holds(c.roles[p], s.procs[p].pc, e)
      ensures Phase(c, c.roles[p], s.procs[p], s.trays.At(e), e)
      ensures a.At(e) == Seen(c, c.roles[p], p, s.procs[p], s.trays.At(e), e)
    {
      assert HoldsAt(c, s, p, e) && SimTray(c, s, a, e);
      assert SimHolder(c, s, a, e, p);
    }
  }

  lemma StepSimTray(c: Config, s: State, a: AState, k: Tick, a': AState, e: Diet)
    requires Sim(c, s, a) && k.pid < |s.procs|
    requires Inv(c, Step(c, s, k))
    requires Sound(c, c.roles[k.pid], s.procs[k.pid], s.trays.At(e), Step(c, s, k).procs[k.pid], Step(c, s, k).trays.At(e), e)
    requires Tracks(c, c.roles[k.pid], k.pid, s.procs[k.pid], Step(c, s, k).procs[k.pid], Step(c, s, k).trays.At(e), a, a', e)
    requires forall q: nat | q < |s.procs| && q != k.pid :: Step(c, s, k).procs[q] == s.procs[q]
    ensures SimTray(c, Step(c, s, k), a', e)
  {
    var p := k.pid;
    var s' := Step(c, s, k);
    assert SimTray(c, s, a, e) && TrayInv(c, s, e) && TrayInv(c, s', e);
    if s'.trays.At(e).sem == 1 && HoldsAt(c, s', p, e) {
      Exclusive(c, s', p, p, e);
    }
    forall q: nat | HoldsAt(c, s', q, e)
      ensures SimHolder(c, s', a', e, q)
    {
      assert ProcInv(c, s', q);
      if q != p {
        assert s'.procs[q] == s.procs[q];
        assert HoldsAt(c, s, q, e);
        Exclusive(c, s, q, p, e);
        Exclusive(c, s', q, p, e);
        assert SimHolder(c, s, a, e, q);
      }
    }
  }

  lemma StepSimEach(c: Config, s: State, a: AState, k: Tick, op: Op, e: Diet)
    requires Sim(c, s, a) && k.pid < |s.procs| && Inv(c, Step(c, s, k))
    requires SeesAll(c, c.roles[k.pid], k.pid, s.procs[k.pid], s.trays, a)
    requires Fits(s.procs[k.pid], s.trays.At(s.procs[k.pid].pc.d))
    requires s.procs[k.pid].pc.Pick? ==> s.procs[k.pid].cnt.At(s.procs[k.pid].pc.d) > 0
    requires c.roles[k.pid].Hybrid? && s.procs[k.pid].pc == Pick(Vegan) ==> s.procs[k.pid].cnt.nonVegan > 0
    requires Allowed(c, a, op) && op == Effect(c, c.roles[k.pid], k.pid, s.procs[k.pid])
    ensures SimTray(c, Step(c, s, k), Apply(c, a, op), e)
  {
    var p := k.pid;
    OwnStep(c, c.roles[p], p, s.procs[p], s.trays, k.now, e);
    OwnTracks(c, c.roles[p], p, s.procs[p], s.trays, k.now, a, e);
    StepSimTray(c, s, a, k, Apply(c, a, op), e);
  }

  /** One statement is one atomic operation, the one named by Effect, or none. */
  lemma StepSimulates(c: Config, s: State, a: AState, k: Tick) returns (op: Op)
    requires Sim(c, s, a)
    ensures Allowed(c, a, op) && Sim(c, Step(c, s, k), Apply(c, a, op))
    ensures op == Idle || op.pid == k.pid
    ensures k.pid < |s.procs| ==>
              && IsEffect(c, c.roles[k.pid], k.pid, s.procs[k.pid], op)
              && (op == Idle <==> Silent(c.roles[k.pid], s.procs[k.pid].pc))
    ensures k.pid >= |s.procs| ==> op == Idle
  {
    StepKeepsInv(c, s, k);
    if k.pid >= |s.procs| {
      op := Idle;
      return;
    }
    var p := k.pid;
    SeesAllAt(c, s, a, p);
    EffectDefined(c, c.roles[p], p, s.procs[p], s.trays, a);
    op := Effect(c, c.roles[p], p, s.procs[p]);
    StepSimEach(c, s, a, k, op, Vegan);
    StepSimEach(c, s, a, k, op, NonVegan);
  }

  lemma InitSim(c: Config)
    ensures Sim(c, Init(c), EMPTY)
  {
    InitInv(c);
  }

  /** The operation that takes effect when tick k is carried out in state s. */
  ghost predicate TakesPlace(c: Config, s: State, k: Tick, op: Op) {
    && |s.procs| == |c.roles|
    && if k.pid < |s.procs| then IsEffect(c, c.roles[k.pid], k.pid, s.procs[k.pid], op) else op == Idle
  }

  ghost predicate AttributedAt(c: Config, op: Op, sched: seq<Tick>, i: nat) {
    i < |sched| && TakesPlace(c, Run(c, Init(c), sched[..i]), sched[i], op)
  }

  /** The i-th operation is the effect of the statement scheduled i-th. */
  ghost predicate Attributed(c: Config, ops: seq<Op>, sched: seq<Tick>) {
    |ops| == |sched| && forall i | 0 <= i < |ops| :: AttributedAt(c, ops[i], sched, i)
  }

  lemma AttributedStill(c: Config, op: Op, sched: seq<Tick>, n: nat, i: nat)
    requires n <= |sched| && AttributedAt(c, op, sched[..n], i)
    ensures AttributedAt(c, op, sched, i)
  {
    assert sched[..n][..i] == sched[..i];
  }

  lemma AttributedMore(c: Config, ops: seq<Op>, op: Op, sched: seq<Tick>)
    requires sched != [] && Attributed(c, ops, sched[..|sched| - 1])
    requires TakesPlace(c, Run(c, Init(c), sched[..|sched| - 1]), sched[|sched| - 1], op)
    ensures Attributed(c, ops + [op], sched)
  {
    var n := |sched| - 1;
    assert AttributedAt(c, op, sched, n);
    forall i | 0 <= i < n ensures AttributedAt(c, (ops + [op])[i], sched, i) {
      assert AttributedAt(c, ops[i], sched[..n], i);
      AttributedStill(c, ops[i], sched, n, i);
    }
  }

  /** The atomic run that a fine-grained run comes from. */
  ghost predicate Explains(c: Config, sched: seq<Tick>, ops: seq<Op>, a: AState) {
    && Attributed(c, ops, sched)
    && Leads(c, ops, a)
    && Sim(c, Run(c, Init(c), sched), a)
  }

  lemma OneMoreStep(c: Config, sched: seq<Tick>, ops: seq<Op>, a: AState) returns (op: Op, a': AState)
    requires sched != [] && Explains(c, sched[..|sched| - 1], ops, a)
    ensures Explains(c, sched, ops + [op], a')
  {
    op := StepSimulates(c, Run(c, Init(c), sched[..|sched| - 1]), a, sched[|sched| - 1]);
    a' := Apply(c, a, op);
    LeadsOn(c, ops, a, op);
    AttributedMore(c, ops, op, sched);
  }

  lemma NoStepYet(c: Config)
    ensures Explains(c, [], [], EMPTY)
  {
    InitSim(c);
  }

  lemma {:induction false} RunSimulates(c: Config, sched: seq<Tick>) returns (ops: seq<Op>, a: AState)
    ensures Explains(c, sched, ops, a)
  {
    if sched == [] {
      NoStepYet(c);
      return [], EMPTY;
    }
    var ops0, a0 := RunSimulates(c, sched[..|sched| - 1]);
    var op;
    op, a := OneMoreStep(c, sched, ops0, a0);
    ops := ops0 + [op];
  }

  /** Every interleaving refines the atomic restaurant: each statement is the atomic operation that
      Effect names for it, or nothing; and every tray that nobody holds is, dish by dish
      and receipt by receipt, the tray of the atomic run. */
  lemma Refinement(c: Config, sched: seq<Tick>)
    ensures exists ops, a ::
              && Explains(c, sched, ops, a)
              && forall d: Diet | Run(c, Init(c), sched).trays.At(d).sem == 1 ::
                   && Run(c, Init(c), sched).trays.At(d).count <= |Run(c, Init(c), sched).trays.At(d).items|
                   && a.At(d) == Resting(Run(c, Init(c), sched).trays.At(d))
  {
    var s := Run(c, Init(c), sched);
    var ops, a := RunSimulates(c, sched);
    assert Explains(c, sched, ops, a);
    assert SimTray(c, s, a, Vegan) && SimTray(c, s, a, NonVegan);
  }

  // ----- What follows for the fine-grained runs -----

  lemma GoodRun(c: Config, sched: seq<Tick>) returns (a: AState)
    ensures Sim(c, Run(c, Init(c), sched), a) && Good(c, a)
  {
    var ops;
    ops, a := RunSimulates(c, sched);
    AtomicRunsAreGood(c, ops, a);
  }

  /** In every reachable state, a tray nobody holds is an order-preserving selection of the dishes
      cooked for it; it and the dishes taken from it make up exactly what was cooked; its dishes
      are of the right diet; and the dish in slot i has an id in [i, cap). */
  lemma UnheldTray(c: Config, sched: seq<Tick>, d: Diet)
    requires Run(c, Init(c), sched).trays.At(d).sem == 1
    ensures var t := Run(c, Init(c), sched).trays.At(d);
            && t.count <= |t.items|
            && Subsequence(t.items[..t.count], t.cooked)
            && multiset(t.cooked) == multiset(t.items[..t.count]) + multiset(Foods(t.taken))
            && (forall i | 0 <= i < t.count :: i <= t.items[i].id < c.cap && OnMenu(d, t.items[i].dish))
  {
    var a := GoodRun(c, sched);
    var s := Run(c, Init(c), sched);
    assert SimTray(c, s, a, d) && GoodTray(c, a.At(d), d);
    var t := s.trays.At(d);
    forall i | 0 <= i < t.count
      ensures i <= t.items[i].id < c.cap && OnMenu(d, t.items[i].dish)
    {
      assert a.At(d).content[i] == t.items[i];
    }
  }

  /** While process p holds a tray, what it will leave behind and what is taken, with the dish it
      has in hand, still make up exactly what was cooked, in order. */
  lemma HeldTray(c: Config, sched: seq<Tick>, d: Diet, p: nat)
    requires HoldsAt(c, Run(c, Init(c), sched), p, d)
    ensures var s := Run(c, Init(c), sched);
            var t := s.trays.At(d);
            && Phase(c, c.roles[p], s.procs[p], t, d)
            && Subsequence(Left(c, c.roles[p], p, s.procs[p], t, d), t.cooked)
            && multiset(t.cooked) ==
               multiset(Left(c, c.roles[p], p, s.procs[p], t, d)) + multiset(Foods(t.taken + InHand(c, c.roles[p], p, s.procs[p], t, d)))
  {
    var a := GoodRun(c, sched);
    var s := Run(c, Init(c), sched);
    assert SimTray(c, s, a, d) && GoodTray(c, a.At(d), d);
    assert SimHolder(c, s, a, d, p);
  }

  /** A process at pc has taken a dish from tray d that the tray's receipts do not show yet. */
  predicate TakesAt(role: Role, pc: Pc, d: Diet) {
    Holds(role, pc, d) && ((pc.d == d && Removing(pc)) || Owes(role, pc, d))
  }

  ghost predicate TakesFrom(c: Config, s: State, p: nat, d: Diet) {
    p < |s.procs| && p < |c.roles| && TakesAt(c.roles[p], s.procs[p].pc, d)
  }

  lemma HandOf(c: Config, role: Role, q: nat, pr: Proc, t: Tray, d: Diet)
    requires Holds(role, pr.pc, d) && Phase(c, role, pr, t, d)
    ensures var hand := InHand(c, role, q, pr, t, d);
            if TakesAt(role, pr.pc, d) then |hand| == 1 && hand[0].pid == q else hand == []
  {
  }

  lemma HeldReceipts(c: Config, s: State, a: AState, d: Diet, q: nat, p: nat)
    requires Sim(c, s, a) && HoldsAt(c, s, q, d)
    ensures TakenBy(a.At(d).taken, p) == TakenBy(s.trays.At(d).taken, p) + if q == p && TakesFrom(c, s, q, d) then 1 else 0
  {
    assert SimTray(c, s, a, d);
    assert SimHolder(c, s, a, d, q);
    var taken, hand := s.trays.At(d).taken, InHand(c, c.roles[q], q, s.procs[q], s.trays.At(d), d);
    assert a.At(d).taken == taken + hand;
    HandOf(c, c.roles[q], q, s.procs[q], s.trays.At(d), d);
    if hand == [] {
      assert taken + hand == taken;
    } else {
      assert hand == [hand[0]];
      TakenByAppend(taken, hand[0], p);
    }
  }

  lemma ReceiptsDiffer(c: Config, s: State, a: AState, d: Diet, p: nat)
    requires Sim(c, s, a)
    ensures TakenBy(a.At(d).taken, p) == TakenBy(s.trays.At(d).taken, p) + if TakesFrom(c, s, p, d) then 1 else 0
  {
    if s.trays.At(d).sem != 1 {
      var q := HolderExists(c, s, d);
      HeldReceipts(c, s, a, d, q, p);
      if TakesFrom(c, s, p, d) {
        Exclusive(c, s, p, q, d);
      }
    } else {
      assert SimTray(c, s, a, d);
      if HoldsAt(c, s, p, d) {
        Exclusive(c, s, p, p, d);
      }
    }
  }

  /** A hybrid that has accounted for its vegan dish but not yet for its non-vegan one. */
  predicate BetweenRemovals(pc: Pc) {
    pc == Post(Vegan) || (pc.d.NonVegan? && (pc.Pick? || Removing(pc)))
  }

  lemma HandsOf(pc: Pc)
    ensures (if TakesAt(Hybrid, pc, NonVegan) then 1 else 0) ==
            (if TakesAt(Hybrid, pc, Vegan) then 1 else 0) + (if BetweenRemovals(pc) then 1 else 0)
  {
  }

  lemma PairsInState(c: Config, s: State, a: AState, p: nat)
    requires Sim(c, s, a) && IsRole(c, p, Hybrid)
    requires TakenBy(a.vegan.taken, p) == TakenBy(a.nonVegan.taken, p)
    ensures |s.procs| == |c.roles|
    ensures TakenBy(s.trays.vegan.taken, p) ==
            TakenBy(s.trays.nonVegan.taken, p) + if BetweenRemovals(s.procs[p].pc) then 1 else 0
  {
    ReceiptsDiffer(c, s, a, Vegan, p);
    ReceiptsDiffer(c, s, a, NonVegan, p);
    HandsOf(s.procs[p].pc);
  }

  /** In every reachable state a hybrid has taken as many vegan as non-vegan dishes, and one vegan
      dish more exactly while it is between the two removals. */
  lemma HybridTakesPairs(c: Config, sched: seq<Tick>, p: nat)
    requires p < |c.roles| && c.roles[p] == Hybrid
    ensures var s := Run(c, Init(c), sched);
            && |s.procs| == |c.roles|
            && TakenBy(s.trays.vegan.taken, p) ==
               TakenBy(s.trays.nonVegan.taken, p) + if BetweenRemovals(s.procs[p].pc) then 1 else 0
  {
    var a := GoodRun(c, sched);
    PairsInState(c, Run(c, Init(c), sched), a, p);
  }

  /** No customer ever takes a blank slot or a dish of the wrong diet. */
  lemma OnlyRightDishesTaken(c: Config, sched: seq<Tick>, d: Diet)
    ensures forall r | r in Run(c, Init(c), sched).trays.At(d).taken ::
              match d
              case Vegan => r.food.dish == PistachioPestoPasta || r.food.dish == AvocadoFruitSalad
              case NonVegan => r.food.dish == FettuccineChickenAlfredo || r.food.dish == GarlicSirloinSteak
  {
    var a := GoodRun(c, sched);
    var s := Run(c, Init(c), sched);
    var taken := s.trays.At(d).taken;
    assert SimTray(c, s, a, d) && GoodTray(c, a.At(d), d);
    assert taken <= a.At(d).taken by {
      if s.trays.At(d).sem != 1 {
        var q := HolderExists(c, s, d);
        assert SimHolder(c, s, a, d, q);
      }
    }
    forall r | r in taken ensures OnMenu(d, r.food.dish) {
      var i :| 0 <= i < |taken| && taken[i] == r;
      assert a.At(d).taken[i] == r;
    }
  }
}
