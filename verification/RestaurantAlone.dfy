/** What a process achieves when the others pause: the atomic operations are not only all that can
    happen, they do happen. */
module RestaurantAlone {
  import Runs
  import opened Restaurant
  import opened RestaurantInvariant
  import opened AtomicRestaurant
  import opened RestaurantRefinement
  import opened RestaurantProgress

  /** A process whose operation has taken effect and who has not come home yet. */
  predicate Past(role: Role, pc: Pc) {
    Removing(pc) || pc.Post? || (role.Hybrid? && pc == Pick(NonVegan))
  }

  /** Everything but the statement at which the operation takes effect leaves the atomic state alone. */
  lemma SilentStep(c: Config, s: State, a: AState, k: Tick)
    requires Sim(c, s, a) && k.pid < |s.procs| && Silent(c.roles[k.pid], s.procs[k.pid].pc)
    ensures Sim(c, Step(c, s, k), a)
  {
    var p := k.pid;
    StepKeepsInv(c, s, k);
    SeesAllAt(c, s, a, p);
    EffectDefined(c, c.roles[p], p, s.procs[p], s.trays, a);
    StepSimEach(c, s, a, k, Idle, Vegan);
    StepSimEach(c, s, a, k, Idle, NonVegan);
  }

  /** The calls of rand() that process p has still to make for an operation that has taken effect. */
  function Pending(c: Config, s: State, p: nat): nat
    requires p < |s.procs| && p < |c.roles|
  {
    if Owes(c.roles[p], s.procs[p].pc, NonVegan) then 1 else 0
  }

  lemma PastStays(c: Config, s: State, k: Tick)
    requires Inv(c, s) && k.pid < |s.procs| && Past(c.roles[k.pid], s.procs[k.pid].pc)
    ensures var s' := Step(c, s, k);
            && OnlyMoved(s, s', k.pid) && (Home(c, s', k.pid) || Past(c.roles[k.pid], s'.procs[k.pid].pc))
            && s'.procs[k.pid].calls + Pending(c, s', k.pid) == s.procs[k.pid].calls + Pending(c, s, k.pid)
  {
    KnowsAt(c, s, k.pid);
  }

  /** After its operation has taken effect, a process gets home on its own with nothing else happening. */
  lemma {:induction false} FinishQuietly(c: Config, s: State, a: AState, p: nat) returns (sched: seq<Tick>)
    requires Sim(c, s, a) && p < |s.procs| && Past(c.roles[p], s.procs[p].pc)
    ensures OnlyMoved(s, Run(c, s, sched), p) && Home(c, Run(c, s, sched), p) && Sim(c, Run(c, s, sched), a)
    ensures Run(c, s, sched).procs[p].calls == s.procs[p].calls + Pending(c, s, p)
    decreases Rank(c, c.roles[p], s.procs[p])
  {
    var k := Tick(p, 0);
    var s' := Step(c, s, k);
    SilentStep(c, s, a, k);
    PastStays(c, s, k);
    StepRank(c, s, k);
    Runs.RunOne(Stepper(c), s, k);
    if Home(c, s', p) {
      sched := [k];
    } else {
      var rest := FinishQuietly(c, s', a, p);
      sched := [k] + rest;
      Runs.RunAppend(Stepper(c), s, [k], rest);
    }
  }

  /** One more statement. */
  lemma Extend(c: Config, s: State, sched: seq<Tick>, k: Tick) returns (more: seq<Tick>)
    ensures more == sched + [k] && Run(c, s, more) == Step(c, Run(c, s, sched), k)
  {
    more := sched + [k];
    Runs.RunSnoc(Stepper(c), s, sched, k);
  }

  /** Both trays are free and hold something, and hybrid p is about to wait for the first. */
  ghost predicate Inviting(c: Config, s: State, a: AState, p: nat) {
    && Sim(c, s, a) && IsRole(c, p, Hybrid) && Home(c, s, p)
    && s.trays.vegan.sem == 1 && s.trays.nonVegan.sem == 1
    && s.trays.vegan.count > 0 && s.trays.nonVegan.count > 0
  }

  /** The two waits: the hybrid holds both trays, and nothing in them has changed. */
  lemma WaitTwice(c: Config, s: State, a: AState, p: nat) returns (s': State)
    requires Inviting(c, s, a, p)
    ensures s' == Step(c, Step(c, s, Tick(p, 0)), Tick(p, 0))
    ensures Sim(c, s', a) && OnlyMoved(s, s', p)
    ensures s'.procs[p] == s.procs[p].(pc := ReadCount(Vegan))
    ensures s'.trays.vegan.count == s.trays.vegan.count && s'.trays.nonVegan.count == s.trays.nonVegan.count
  {
    var k := Tick(p, 0);
    var s1 := Step(c, s, k);
    SilentStep(c, s, a, k);
    assert s1.procs[p] == s.procs[p].(pc := Wait(NonVegan)) && s1.trays == s.trays.(vegan := s.trays.vegan.(sem := 0));
    s' := Step(c, s1, k);
    SilentStep(c, s1, a, k);
  }

  lemma CountMoves(c: Config, s: State, p: nat)
    requires IsRole(c, p, Hybrid) && p < |s.procs| && s.procs[p].pc == ReadCount(Vegan)
    requires s.trays.vegan.count > 0 && s.trays.nonVegan.count > 0
    ensures var s1 := Step(c, s, Tick(p, 0));
            var s2 := Step(c, s1, Tick(p, 0));
            && |s1.procs| == |s.procs| && s1.procs[p].pc == ReadCount(NonVegan) && OnlyMoved(s, s2, p)
            && s2.procs[p].pc == Pick(Vegan) && s2.procs[p].calls == s.procs[p].calls + 1
            && s2.procs[p].cnt == Two(s.trays.vegan.count, s.trays.nonVegan.count)
  {
    assert Step(c, s, Tick(p, 0)).trays == s.trays;
  }

  /** The two counts: both are positive, so the hybrid goes on to its vegan dish. */
  lemma CountTwice(c: Config, s: State, a: AState, p: nat) returns (s': State)
    requires Sim(c, s, a) && IsRole(c, p, Hybrid) && p < |s.procs| && s.procs[p].pc == ReadCount(Vegan)
    requires s.trays.vegan.count > 0 && s.trays.nonVegan.count > 0
    ensures s' == Step(c, Step(c, s, Tick(p, 0)), Tick(p, 0))
    ensures Sim(c, s', a) && OnlyMoved(s, s', p)
    ensures s'.procs[p].pc == Pick(Vegan) && s'.procs[p].calls == s.procs[p].calls + 1
    ensures s'.procs[p].cnt == Two(s.trays.vegan.count, s.trays.nonVegan.count)
  {
    CountMoves(c, s, p);
    SilentStep(c, s, a, Tick(p, 0));
    SilentStep(c, Step(c, s, Tick(p, 0)), a, Tick(p, 0));
    s' := Step(c, Step(c, s, Tick(p, 0)), Tick(p, 0));
  }

  lemma EnterBoth(c: Config, s: State, a: AState, p: nat) returns (sched: seq<Tick>)
    requires Inviting(c, s, a, p)
    ensures var s' := Run(c, s, sched);
            && Sim(c, s', a) && OnlyMoved(s, s', p)
            && s'.procs[p].pc == Pick(Vegan) && s'.procs[p].calls == s.procs[p].calls + 1
            && s'.procs[p].cnt == Two(s.trays.vegan.count, s.trays.nonVegan.count)
  {
    var s2 := WaitTwice(c, s, a, p);
    var s4 := CountTwice(c, s2, a, p);
    sched := Extend(c, s, [], Tick(p, 0));
    sched := Extend(c, s, sched, Tick(p, 0));
    sched := Extend(c, s, sched, Tick(p, 0));
    sched := Extend(c, s, sched, Tick(p, 0));
  }

  lemma PickMoves(c: Config, s: State, p: nat)
    requires Inv(c, s) && IsRole(c, p, Hybrid) && p < |s.procs| && s.procs[p].pc == Pick(Vegan)
    ensures var s' := Step(c, s, Tick(p, 0));
            OnlyMoved(s, s', p) && s'.procs[p].pc == Shift(Vegan) && s'.procs[p].calls == s.procs[p].calls + 1
  {
    KnowsAt(c, s, p);
  }

  lemma PickDefined(c: Config, s: State, p: nat)
    requires Inv(c, s) && IsRole(c, p, Hybrid) && p < |s.procs| && s.procs[p].pc == Pick(Vegan)
    ensures 0 < s.procs[p].cnt.vegan && 0 < s.procs[p].cnt.nonVegan
  {
    KnowsAt(c, s, p);
    assert Phase(c, Hybrid, s.procs[p], s.trays.At(Vegan), Vegan);
    assert Phase(c, Hybrid, s.procs[p], s.trays.At(NonVegan), NonVegan);
  }

  /** The hybrid reads its vegan dish: from here on both dishes are its own. */
  lemma TakeEffect(c: Config, s: State, a: AState, p: nat, kv: nat, kn: nat)
    requires Sim(c, s, a) && IsRole(c, p, Hybrid) && p < |s.procs| && s.procs[p].pc == Pick(Vegan)
    requires 0 < s.procs[p].cnt.vegan && 0 < s.procs[p].cnt.nonVegan
    requires kv == Choice(c, p, s.procs[p].calls, s.procs[p].cnt.vegan)
    requires kn == Choice(c, p, s.procs[p].calls + 1, s.procs[p].cnt.nonVegan)
    ensures Allowed(c, a, TakeBoth(p, kv, kn)) && Sim(c, Step(c, s, Tick(p, 0)), Apply(c, a, TakeBoth(p, kv, kn)))
  {
    var k := Tick(p, 0);
    StepKeepsInv(c, s, k);
    SeesAllAt(c, s, a, p);
    EffectDefined(c, Hybrid, p, s.procs[p], s.trays, a);
    StepSimEach(c, s, a, k, TakeBoth(p, kv, kn), Vegan);
    StepSimEach(c, s, a, k, TakeBoth(p, kv, kn), NonVegan);
  }

  /** Coming home frees both trays and shows the atomic state in them. */
  lemma ComeHome(c: Config, s: State, a: AState, p: nat) returns (sched: seq<Tick>)
    requires Sim(c, s, a) && IsRole(c, p, Hybrid) && p < |s.procs| && s.procs[p].pc == Shift(Vegan)
    ensures var s' := Run(c, s, sched);
            && OnlyMoved(s, s', p) && Home(c, s', p) && s'.procs[p].calls == s.procs[p].calls + 1
            && s'.trays.vegan.sem == 1 && s'.trays.nonVegan.sem == 1
            && WellFormed(c, s'.trays.vegan) && WellFormed(c, s'.trays.nonVegan)
            && a == Two(Resting(s'.trays.vegan), Resting(s'.trays.nonVegan))
  {
    sched := FinishQuietly(c, s, a, p);
    var s' := Run(c, s, sched);
    assert HoldsAt(c, s, p, Vegan) && HoldsAt(c, s, p, NonVegan);
    FinishFrees(c, s, s', p, Vegan);
    FinishFrees(c, s, s', p, NonVegan);
    assert SimTray(c, s', a, Vegan) && SimTray(c, s', a, NonVegan);
  }

  lemma HybridAlone(c: Config, s: State, a: AState, p: nat) returns (sched: seq<Tick>)
    requires Inviting(c, s, a, p)
    ensures TookBoth(c, s, Run(c, s, sched), p)
  {
    assert SimTray(c, s, a, Vegan) && SimTray(c, s, a, NonVegan);
    var first := EnterBoth(c, s, a, p);
    var s1 := Run(c, s, first);
    PickDefined(c, s1, p);
    var kv := Choice(c, p, s1.procs[p].calls, s1.procs[p].cnt.vegan);
    var kn := Choice(c, p, s1.procs[p].calls + 1, s1.procs[p].cnt.nonVegan);
    TakeEffect(c, s1, a, p, kv, kn);
    PickMoves(c, s1, p);
    var both := Extend(c, s, first, Tick(p, 0));
    var rest := ComeHome(c, Run(c, s, both), Apply(c, a, TakeBoth(p, kv, kn)), p);
    sched := both + rest;
    Runs.RunAppend(Stepper(c), s, both, rest);
  }

  /** From s to s', process p has come home with one dish of each tray, and nothing else has happened:
      both trays are free again, each without exactly the dish that p's stream of random numbers names,
      and each with one more receipt; and three of the numbers are used up. */
  ghost predicate TookBoth(c: Config, s: State, s': State, p: nat) {
    var (v, n, v', n') := (s.trays.vegan, s.trays.nonVegan, s'.trays.vegan, s'.trays.nonVegan);
    && OnlyMoved(s, s', p) && Home(c, s', p) && v'.sem == 1 && n'.sem == 1
    && WellFormed(c, v) && WellFormed(c, v') && WellFormed(c, n) && WellFormed(c, n')
    && v.count > 0 && n.count > 0 && s'.procs[p].calls == s.procs[p].calls + 3
    && Resting(v') == TakeFrom(Resting(v), p, c.rand(p, s.procs[p].calls + 1) % v.count)
    && Resting(n') == TakeFrom(Resting(n), p, c.rand(p, s.procs[p].calls + 2) % n.count)
  }

  /** Process p, of the given role, is at the head of its loop, and tray d is free. */
  predicate Ready(c: Config, s: State, p: nat, role: Role, d: Diet) {
    IsRole(c, p, role) && Home(c, s, p) && s.trays.At(d).sem == 1
  }

  /** In every reachable state in which both trays are free and hold something, a hybrid at the head of
      its loop gets one dish of each when it runs alone. */
  lemma HybridGetsBoth(c: Config, sched: seq<Tick>, p: nat) returns (more: seq<Tick>)
    requires Ready(c, Run(c, Init(c), sched), p, Hybrid, Vegan) && Ready(c, Run(c, Init(c), sched), p, Hybrid, NonVegan)
    requires Run(c, Init(c), sched).trays.vegan.count > 0 && Run(c, Init(c), sched).trays.nonVegan.count > 0
    ensures TookBoth(c, Run(c, Init(c), sched), Run(c, Init(c), sched + more), p)
  {
    var _, a := RunSimulates(c, sched);
    more := HybridAlone(c, Run(c, Init(c), sched), a, p);
    Runs.RunAppend(Stepper(c), Init(c), sched, more);
  }

  // ----- A single-diet customer -----

  /** Up to the customer's pick: it holds the tray, which has not changed. */
  lemma CustomerMoves(c: Config, s: State, p: nat, d: Diet)
    requires p < |s.procs| && Ready(c, s, p, Customer(d), d) && s.trays.At(d).count > 0
    ensures var k := Tick(p, 0);
            var s1 := Step(c, s, k);
            var s2 := Step(c, s1, k);
            && OnlyMoved(s, s1, p) && s1.procs[p].pc == ReadCount(d)
            && OnlyMoved(s, s2, p) && s2.procs[p].pc == Pick(d)
            && s2.procs[p].calls == s.procs[p].calls + 1 && s2.procs[p].cnt.At(d) == s.trays.At(d).count
  {
    assert Step(c, s, Tick(p, 0)).trays.At(d) == s.trays.At(d).(sem := 0);
  }

  lemma CustomerPicks(c: Config, s: State, a: AState, p: nat, d: Diet)
    requires Sim(c, s, a) && p < |s.procs| && IsRole(c, p, Customer(d)) && s.procs[p].pc == Pick(d)
    requires s.procs[p].cnt.At(d) > 0
    ensures var op := Take(p, d, Choice(c, p, s.procs[p].calls, s.procs[p].cnt.At(d)));
            var s' := Step(c, s, Tick(p, 0));
            && Allowed(c, a, op) && Sim(c, s', Apply(c, a, op))
            && OnlyMoved(s, s', p) && s'.procs[p].pc == Shift(d)
            && s'.procs[p].cnt == s.procs[p].cnt && s'.procs[p].calls == s.procs[p].calls + 1
  {
    var op := StepSimulates(c, s, a, Tick(p, 0));
  }

  /** From s to s', process p has come home with the dish of tray d that its second next random number
      names, two numbers are used up, and nothing else has happened. */
  ghost predicate TookOne(c: Config, s: State, s': State, p: nat, d: Diet) {
    var (t, t') := (s.trays.At(d), s'.trays.At(d));
    && OnlyMoved(s, s', p) && Home(c, s', p) && t'.sem == 1
    && WellFormed(c, t) && WellFormed(c, t') && t.count > 0 && s'.procs[p].calls == s.procs[p].calls + 2
    && Resting(t') == TakeFrom(Resting(t), p, c.rand(p, s.procs[p].calls + 1) % t.count)
  }

  /** The customer has entered and picked; the result is settled. */
  lemma CustomerEnters(c: Config, s: State, a: AState, p: nat, d: Diet) returns (sched: seq<Tick>, a': AState)
    requires Sim(c, s, a) && Ready(c, s, p, Customer(d), d) && s.trays.At(d).count > 0
    ensures var s' := Run(c, s, sched);
            && Sim(c, s', a') && OnlyMoved(s, s', p) && s'.procs[p].pc == Shift(d)
            && s'.procs[p].cnt.At(d) == s.trays.At(d).count && s'.procs[p].calls == s.procs[p].calls + 2
            && WellFormed(c, s.trays.At(d)) && a.At(d) == Resting(s.trays.At(d))
            && a'.At(d) == TakeFrom(a.At(d), p, Choice(c, p, s.procs[p].calls + 1, s.trays.At(d).count))
  {
    assert SimTray(c, s, a, d);
    CustomerMoves(c, s, p, d);
    var s1 := Step(c, s, Tick(p, 0));
    SilentStep(c, s, a, Tick(p, 0));
    SilentStep(c, s1, a, Tick(p, 0));
    var s2 := Step(c, s1, Tick(p, 0));
    CustomerPicks(c, s2, a, p, d);
    a' := Apply(c, a, Take(p, d, Choice(c, p, s2.procs[p].calls, s2.procs[p].cnt.At(d))));
    sched := Extend(c, s, [], Tick(p, 0));
    sched := Extend(c, s, sched, Tick(p, 0));
    sched := Extend(c, s, sched, Tick(p, 0));
  }

  lemma CustomerFinishes(c: Config, s: State, a: AState, p: nat, d: Diet) returns (sched: seq<Tick>)
    requires Sim(c, s, a) && p < |s.procs| && IsRole(c, p, Customer(d)) && s.procs[p].pc == Shift(d)
    ensures var s' := Run(c, s, sched);
            && OnlyMoved(s, s', p) && Home(c, s', p) && s'.procs[p].calls == s.procs[p].calls
            && s'.trays.At(d).sem == 1 && WellFormed(c, s'.trays.At(d)) && a.At(d) == Resting(s'.trays.At(d))
  {
    sched := FinishQuietly(c, s, a, p);
    assert HoldsAt(c, s, p, d);
    FinishFrees(c, s, Run(c, s, sched), p, d);
    assert SimTray(c, Run(c, s, sched), a, d);
  }

  lemma CustomerAlone(c: Config, s: State, a: AState, p: nat, d: Diet) returns (sched: seq<Tick>)
    requires Sim(c, s, a) && Ready(c, s, p, Customer(d), d) && s.trays.At(d).count > 0
    ensures TookOne(c, s, Run(c, s, sched), p, d)
  {
    var first, a' := CustomerEnters(c, s, a, p, d);
    var rest := CustomerFinishes(c, Run(c, s, first), a', p, d);
    sched := first + rest;
    Runs.RunAppend(Stepper(c), s, first, rest);
  }

  /** In every reachable state in which its tray is free and holds something, a customer at the head of
      its loop gets exactly the dish its random numbers name when it runs alone. */
  lemma CustomerGetsOne(c: Config, sched: seq<Tick>, p: nat, d: Diet) returns (more: seq<Tick>)
    requires Ready(c, Run(c, Init(c), sched), p, Customer(d), d) && Run(c, Init(c), sched).trays.At(d).count > 0
    ensures TookOne(c, Run(c, Init(c), sched), Run(c, Init(c), sched + more), p, d)
  {
    var _, a := RunSimulates(c, sched);
    more := CustomerAlone(c, Run(c, Init(c), sched), a, p, d);
    Runs.RunAppend(Stepper(c), Init(c), sched, more);
  }

  // ----- A chef -----

  /** From s to s', chef p has put one fresh dish on tray d: its id is the old count, its time what time()
      said, its name the one that p's second next random number stands for.  Two numbers are used up, and
      nothing else has happened. */
  ghost predicate PutOne(c: Config, s: State, s': State, p: nat, d: Diet, now: int) {
    var (t, t') := (s.trays.At(d), s'.trays.At(d));
    && OnlyMoved(s, s', p) && Home(c, s', p) && t'.sem == 1
    && WellFormed(c, t) && WellFormed(c, t') && t.count < c.cap && s'.procs[p].calls == s.procs[p].calls + 2
    && exists dish ::
         && Resting(t') == ATray(Resting(t).content + [Food(t.count, now, dish)], t.cooked + [Food(t.count, now, dish)], t.taken)
         && dish ==
              if c.rand(p, s.procs[p].calls + 1) % 2 == 0 then (if d.Vegan? then PistachioPestoPasta else FettuccineChickenAlfredo)
              else (if d.Vegan? then AvocadoFruitSalad else GarlicSirloinSteak)
  }

  lemma ChefEnters(c: Config, s: State, p: nat, d: Diet, now: int) returns (s': State)
    requires p < |s.procs| && Ready(c, s, p, Chef(d), d) && s.trays.At(d).count < c.cap
    ensures s' == Step(c, Step(c, s, Tick(p, now)), Tick(p, now))
    ensures var n := s.trays.At(d).count;
            && OnlyMoved(s, s', p) && s'.procs[p].pc == PutItem(d) && s'.procs[p].cnt.At(d) == n
            && s'.procs[p].calls == s.procs[p].calls + 2
            && s'.procs[p].item.At(d) == Food(n, now, MenuItem(d, c.rand(p, s.procs[p].calls + 1)))
            && s'.trays.At(d) == s.trays.At(d).(sem := 0)
  {
    var s1 := Step(c, s, Tick(p, now));
    assert s1.trays.At(d) == s.trays.At(d).(sem := 0) && s1.procs[p] == s.procs[p].(pc := ReadCount(d));
    s' := Step(c, s1, Tick(p, now));
  }

  lemma ChefWrites(c: Config, s: State, p: nat, d: Diet, now: int) returns (s': State)
    requires p < |s.procs| && IsRole(c, p, Chef(d)) && s.procs[p].pc == PutItem(d)
    requires s.trays.At(d).sem == 0 && s.procs[p].cnt.At(d) == s.trays.At(d).count < |s.trays.At(d).items|
    ensures s' == Step(c, Step(c, Step(c, s, Tick(p, now)), Tick(p, now)), Tick(p, now))
    ensures var (t, food) := (s.trays.At(d), s.procs[p].item.At(d));
            && OnlyMoved(s, s', p) && Home(c, s', p) && s'.procs[p].calls == s.procs[p].calls
            && s'.trays.At(d) == Tray(1, t.count + 1, t.items[t.count := food], t.cooked + [food], t.taken)
  {
    var t, food := s.trays.At(d), s.procs[p].item.At(d);
    var s1 := Step(c, s, Tick(p, now));
    assert s1.trays.At(d) == t.(items := t.items[t.count := food]) && s1.procs[p] == s.procs[p].(pc := PutCount(d));
    var s2 := Step(c, s1, Tick(p, now));
    assert s2.procs[p] == s.procs[p].(pc := Post(d));
    s' := Step(c, s2, Tick(p, now));
  }

  lemma FiveSteps(c: Config, s: State, k: Tick) returns (sched: seq<Tick>)
    ensures Run(c, s, sched) == Step(c, Step(c, Step(c, Step(c, Step(c, s, k), k), k), k), k)
  {
    sched := Extend(c, s, [], k);
    sched := Extend(c, s, sched, k);
    sched := Extend(c, s, sched, k);
    sched := Extend(c, s, sched, k);
    sched := Extend(c, s, sched, k);
  }

  lemma PutShows(c: Config, t: Tray, t': Tray, food: Food)
    requires WellFormed(c, t) && t.count < c.cap
    requires t' == Tray(1, t.count + 1, t.items[t.count := food], t.cooked + [food], t.taken)
    ensures WellFormed(c, t') && Resting(t') == ATray(Resting(t).content + [food], t.cooked + [food], t.taken)
  {
    assert t'.items[..t'.count] == t.items[..t.count] + [food];
  }

  lemma ChefAlone(c: Config, s: State, p: nat, d: Diet, now: int) returns (sched: seq<Tick>)
    requires p < |s.procs| && Ready(c, s, p, Chef(d), d) && s.trays.At(d).count < c.cap && WellFormed(c, s.trays.At(d))
    ensures PutOne(c, s, Run(c, s, sched), p, d, now)
  {
    var s2 := ChefEnters(c, s, p, d, now);
    var s5 := ChefWrites(c, s2, p, d, now);
    sched := FiveSteps(c, s, Tick(p, now));
    PutShows(c, s.trays.At(d), s5.trays.At(d), s2.procs[p].item.At(d));
  }

  /** In every reachable state in which its tray is free and has room, a chef at the head of its loop
      puts one dish on it when it runs alone, whatever the time is. */
  lemma ChefPutsOne(c: Config, sched: seq<Tick>, p: nat, d: Diet, now: int) returns (more: seq<Tick>)
    requires Ready(c, Run(c, Init(c), sched), p, Chef(d), d) && Run(c, Init(c), sched).trays.At(d).count < c.cap
    ensures PutOne(c, Run(c, Init(c), sched), Run(c, Init(c), sched + more), p, d, now)
  {
    ReachableTrays(c, sched, d);
    more := ChefAlone(c, Run(c, Init(c), sched), p, d, now);
    Runs.RunAppend(Stepper(c), Init(c), sched, more);
  }

  // ----- A full tray -----

  /** A chef that runs alone fills its tray. */
  lemma {:induction false} CanBeFilled(c: Config, p: nat, d: Diet, n: nat) returns (sched: seq<Tick>)
    requires IsRole(c, p, Chef(d)) && n <= c.cap
    ensures var s := Run(c, Init(c), sched);
            Ready(c, s, p, Chef(d), d) && s.trays.At(d).count == n && OnlyMoved(Init(c), s, p)
  {
    if n == 0 {
      sched := [];
    } else {
      var before := CanBeFilled(c, p, d, n - 1);
      var more := ChefPutsOne(c, before, p, d, 0);
      sched := before + more;
      var t, t' := Run(c, Init(c), before).trays.At(d), Run(c, Init(c), sched).trays.At(d);
      assert |Resting(t').content| == |Resting(t).content| + 1;
    }
  }

  lemma ShiftMoves(c: Config, s: State, p: nat, d: Diet)
    requires Inv(c, s) && p < |s.procs| && IsRole(c, p, Customer(d)) && s.procs[p].pc == Shift(d)
    ensures var s' := Step(c, s, Tick(p, 0));
            && |s'.procs| == |s.procs| && s'.procs[p].cnt == s.procs[p].cnt
            && (s'.procs[p].pc == Shift(d) || s'.procs[p].pc == Clear(d))
  {
    KnowsAt(c, s, p);
  }

  /** The shift loop ends at the memset. */
  lemma {:induction false} ShiftsEnd(c: Config, s: State, p: nat, d: Diet) returns (sched: seq<Tick>)
    requires Inv(c, s) && p < |s.procs| && IsRole(c, p, Customer(d)) && s.procs[p].pc == Shift(d)
    ensures var s' := Run(c, s, sched);
            |s'.procs| == |s.procs| && s'.procs[p].pc == Clear(d) && s'.procs[p].cnt == s.procs[p].cnt
    decreases Rank(c, c.roles[p], s.procs[p])
  {
    var k := Tick(p, 0);
    var s' := Step(c, s, k);
    StepKeepsInv(c, s, k);
    ShiftMoves(c, s, p, d);
    StepRank(c, s, k);
    Runs.RunOne(Stepper(c), s, k);
    if s'.procs[p].pc == Clear(d) {
      sched := [k];
    } else {
      var rest := ShiftsEnd(c, s', p, d);
      sched := [k] + rest;
      Runs.RunAppend(Stepper(c), s, [k], rest);
    }
  }

  lemma CustomerClears(c: Config, s: State, a: AState, p: nat, d: Diet) returns (sched: seq<Tick>)
    requires Sim(c, s, a) && Ready(c, s, p, Customer(d), d) && s.trays.At(d).count > 0
    ensures var s' := Run(c, s, sched);
            p < |s'.procs| && s'.procs[p].pc == Clear(d) && s'.procs[p].cnt.At(d) == s.trays.At(d).count
  {
    var first, a' := CustomerEnters(c, s, a, p, d);
    var rest := ShiftsEnd(c, Run(c, s, first), p, d);
    sched := first + rest;
    Runs.RunAppend(Stepper(c), s, first, rest);
  }

  lemma FilledFor(c: Config, p: nat, q: nat, d: Diet) returns (sched: seq<Tick>, a: AState)
    requires c.cap > 0 && IsRole(c, p, Chef(d)) && IsRole(c, q, Customer(d))
    ensures var s := Run(c, Init(c), sched);
            Sim(c, s, a) && Ready(c, s, q, Customer(d), d) && s.trays.At(d).count == c.cap
  {
    sched := CanBeFilled(c, p, d, c.cap);
    assert Run(c, Init(c), sched).procs[q] == Init(c).procs[q];
    var ops;
    ops, a := RunSimulates(c, sched);
  }

  /** The declared slots do get left: with a chef and a customer for the same tray, however large the
      tray, there is a reachable state whose next statement writes the slot behind the last one. */
  lemma DeclaredSlotsGetLeft(c: Config, p: nat, q: nat, d: Diet) returns (sched: seq<Tick>)
    requires c.cap > 0 && IsRole(c, p, Chef(d)) && IsRole(c, q, Customer(d))
    ensures var s := Run(c, Init(c), sched);
            q < |s.procs| && s.procs[q].pc == Clear(d) && Overruns(c, s.procs[q]) && c.cap in Touched(c, q, s.procs[q])
  {
    var filled, a := FilledFor(c, p, q, d);
    var rest := CustomerClears(c, Run(c, Init(c), filled), a, q, d);
    sched := filled + rest;
    Runs.RunAppend(Stepper(c), Init(c), filled, rest);
  }
}
