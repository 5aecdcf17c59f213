/** Which random numbers decide what.  Each process has one stream of them; every operation of a chef or
    a single-diet customer uses up two, every operation of a hybrid three, and a failed attempt none. */
module RestaurantDraws {
  import Runs
  import opened Restaurant
  import opened RestaurantInvariant
  import opened AtomicRestaurant
  import opened RestaurantRefinement
  import opened RestaurantProgress

  /** How many of the operations are process p's. */
  function OpsBy(ops: seq<Op>, p: nat): nat {
    if ops == [] then 0
    else
      var op := ops[|ops| - 1];
      OpsBy(ops[..|ops| - 1], p) + if op != Idle && op.pid == p then 1 else 0
  }

  /** op is what the stream makes of its process's operation number n, the first being number 0: of the
      numbers used up by it, the first is the length of the sleep that follows, the next names the dish
      that is cooked or the slot that is emptied, and a hybrid's last the slot of the other tray. */
  predicate Drawn(c: Config, a: AState, op: Op, n: nat) {
    match op
    case Idle => true
    case Cook(p, d, food) => food.dish == MenuItem(d, c.rand(p, 2 * n + 1))
    case Take(p, d, k) => a.At(d).content != [] && k == c.rand(p, 2 * n + 1) % |a.At(d).content|
    case TakeBoth(p, kv, kn) =>
      && a.vegan.content != [] && kv == c.rand(p, 3 * n + 1) % |a.vegan.content|
      && a.nonVegan.content != [] && kn == c.rand(p, 3 * n + 2) % |a.nonVegan.content|
  }

  /** ops lead from the empty trays to a, and the streams name each of them. */
  ghost predicate DrawnRun(c: Config, ops: seq<Op>, a: AState) {
    if ops == [] then a == EMPTY
    else
      var before, op := ops[..|ops| - 1], ops[|ops| - 1];
      exists b :: DrawnRun(c, before, b) && Allowed(c, b, op) && a == Apply(c, b, op)
                  && (op == Idle || Drawn(c, b, op, OpsBy(before, op.pid)))
  }

  /** How far process p is in its stream after n operations. */
  predicate InStream(c: Config, role: Role, p: nat, pr: Proc, n: nat) {
    match role
    case Chef(d) =>
      if pr.pc.PutItem? || pr.pc.PutCount? then
        pr.calls == 2 * n + 2 && pr.item.At(d).dish == MenuItem(d, c.rand(p, 2 * n + 1))
      else pr.calls == 2 * n
    case Customer(_) => pr.calls == 2 * n + if pr.pc.Pick? then 1 else 0
    case Hybrid =>
      if pr.pc == Pick(Vegan) then pr.calls == 3 * n + 1
      else if Owes(role, pr.pc, NonVegan) then pr.calls == 3 * n - 1
      else pr.calls == 3 * n
  }

  lemma ExecStaysInStream(c: Config, role: Role, p: nat, pr: Proc, t: Tray, now: int, op: Op, n: nat)
    requires RoleOk(role, pr.pc) && Fits(pr, t) && IsEffect(c, role, p, pr, op) && InStream(c, role, p, pr, n)
    ensures InStream(c, role, p, Exec(c, role, p, pr, t, now).0, n + if op == Idle then 0 else 1)
  {
  }

  /** What a process has counted is what there is. */
  lemma CountedRight(c: Config, s: State, a: AState, p: nat)
    requires Sim(c, s, a) && p < |s.procs| && !Silent(c.roles[p], s.procs[p].pc) && s.procs[p].pc.Pick?
    ensures var pr := s.procs[p];
            && 0 < |a.At(pr.pc.d).content| == pr.cnt.At(pr.pc.d)
            && (c.roles[p].Hybrid? ==> 0 < |a.nonVegan.content| == pr.cnt.nonVegan)
  {
    var role, pr := c.roles[p], s.procs[p];
    SeesAllAt(c, s, a, p);
    assert Holds(role, pr.pc, pr.pc.d);
    assert Phase(c, role, pr, s.trays.At(pr.pc.d), pr.pc.d);
    if role.Hybrid? {
      assert Holds(role, pr.pc, NonVegan);
      assert Phase(c, role, pr, s.trays.At(NonVegan), NonVegan);
    }
  }

  lemma EffectIsDrawn(c: Config, role: Role, p: nat, pr: Proc, a: AState, op: Op, n: nat)
    requires RoleOk(role, pr.pc) && IsEffect(c, role, p, pr, op) && InStream(c, role, p, pr, n)
    requires op.Take? || op.TakeBoth? ==> 0 < |a.At(pr.pc.d).content| == pr.cnt.At(pr.pc.d)
    requires op.TakeBoth? ==> 0 < |a.nonVegan.content| == pr.cnt.nonVegan
    ensures Drawn(c, a, op, n)
  {
  }

  lemma StepDraws(c: Config, s: State, a: AState, k: Tick, op: Op, n: nat)
    requires Sim(c, s, a) && k.pid < |s.procs|
    requires IsEffect(c, c.roles[k.pid], k.pid, s.procs[k.pid], op)
    requires InStream(c, c.roles[k.pid], k.pid, s.procs[k.pid], n)
    ensures Drawn(c, a, op, n)
    ensures var s' := Step(c, s, k);
            k.pid < |s'.procs| && InStream(c, c.roles[k.pid], k.pid, s'.procs[k.pid], n + if op == Idle then 0 else 1)
  {
    var p, pr := k.pid, s.procs[k.pid];
    KnowsAt(c, s, p);
    if pr.pc.Pick? && !Silent(c.roles[p], pr.pc) {
      CountedRight(c, s, a, p);
    }
    EffectIsDrawn(c, c.roles[p], p, pr, a, op, n);
    ExecStaysInStream(c, c.roles[p], p, pr, s.trays.At(pr.pc.d), k.now, op, n);
  }

  ghost predicate AllInStream(c: Config, s: State, ops: seq<Op>) {
    && |s.procs| == |c.roles|
    && forall p: nat | p < |s.procs| :: InStream(c, c.roles[p], p, s.procs[p], OpsBy(ops, p))
  }

  lemma OpsBySnoc(ops: seq<Op>, op: Op, p: nat)
    ensures OpsBy(ops + [op], p) == OpsBy(ops, p) + if op != Idle && op.pid == p then 1 else 0
  {
    assert (ops + [op])[..|ops|] == ops;
  }

  lemma StepInStream(c: Config, s: State, a: AState, k: Tick, ops: seq<Op>, op: Op)
    requires Sim(c, s, a) && AllInStream(c, s, ops) && TakesPlace(c, s, k, op)
    requires op == Idle || op.pid == k.pid
    ensures AllInStream(c, Step(c, s, k), ops + [op])
    ensures op == Idle || Drawn(c, a, op, OpsBy(ops, op.pid))
  {
    var s' := Step(c, s, k);
    if k.pid < |s.procs| {
      StepDraws(c, s, a, k, op, OpsBy(ops, k.pid));
    }
    forall p: nat | p < |s'.procs| ensures InStream(c, c.roles[p], p, s'.procs[p], OpsBy(ops + [op], p)) {
      OpsBySnoc(ops, op, p);
      assert p != k.pid ==> s'.procs[p] == s.procs[p];
    }
  }

  lemma DrawnOn(c: Config, ops: seq<Op>, a: AState, op: Op)
    requires DrawnRun(c, ops, a) && Allowed(c, a, op) && (op == Idle || Drawn(c, a, op, OpsBy(ops, op.pid)))
    ensures DrawnRun(c, ops + [op], Apply(c, a, op))
  {
    var all := ops + [op];
    assert all[..|all| - 1] == ops;
    assert DrawnRun(c, all[..|all| - 1], a) && Allowed(c, a, all[|all| - 1]);
  }

  lemma OneMoreDrawn(c: Config, s: State, k: Tick, ops: seq<Op>, a: AState) returns (op: Op, a': AState)
    requires Sim(c, s, a) && DrawnRun(c, ops, a) && AllInStream(c, s, ops)
    ensures TakesPlace(c, s, k, op)
    ensures Allowed(c, a, op) && a' == Apply(c, a, op)
    ensures Sim(c, Step(c, s, k), a') && DrawnRun(c, ops + [op], a') && AllInStream(c, Step(c, s, k), ops + [op])
  {
    op := StepSimulates(c, s, a, k);
    a' := Apply(c, a, op);
    StepInStream(c, s, a, k, ops, op);
    DrawnOn(c, ops, a, op);
  }

  /** Every interleaving comes from an atomic run in which all choices are the streams': the operation
      number n of a process is the one its random numbers 2n and 2n+1, or 3n to 3n+2, decide, however
      often it has tried in vain before.  And a process has called rand() as often as that takes. */
  lemma {:induction false} RunsAreDrawn(c: Config, sched: seq<Tick>) returns (ops: seq<Op>, a: AState)
    ensures Explains(c, sched, ops, a) && DrawnRun(c, ops, a) && AllInStream(c, Run(c, Init(c), sched), ops)
  {
    if sched == [] {
      NoStepYet(c);
      return [], EMPTY;
    }
    var n := |sched| - 1;
    var s := Run(c, Init(c), sched[..n]);
    var ops0, a0 := RunsAreDrawn(c, sched[..n]);
    var op;
    op, a := OneMoreDrawn(c, s, sched[n], ops0, a0);
    ops := ops0 + [op];
    LeadsOn(c, ops0, a0, op);
    AttributedMore(c, ops0, op, sched);
  }

  // ----- What follows for the trays -----

  lemma ApplyCounts(c: Config, a: AState, ops: seq<Op>, op: Op, p: nat, d: Diet)
    requires Allowed(c, a, op) && (IsRole(c, p, Customer(d)) || IsRole(c, p, Hybrid))
    requires OpsBy(ops, p) == TakenBy(a.At(d).taken, p)
    ensures OpsBy(ops + [op], p) == TakenBy(Apply(c, a, op).At(d).taken, p)
  {
    OpsBySnoc(ops, op, p);
    match op
    case Take(q, e, k) => TakenByAppend(a.At(e).taken, Receipt(q, a.At(e).content[k]), p);
    case TakeBoth(q, kv, kn) =>
      TakenByAppend(a.vegan.taken, Receipt(q, a.vegan.content[kv]), p);
      TakenByAppend(a.nonVegan.taken, Receipt(q, a.nonVegan.content[kn]), p);
    case _ =>
  }

  lemma LastOp(c: Config, ops: seq<Op>, a: AState) returns (before: seq<Op>, op: Op, b: AState)
    requires Leads(c, ops, a) && ops != []
    ensures ops == before + [op] && |before| < |ops|
    ensures Leads(c, before, b) && Allowed(c, b, op) && a == Apply(c, b, op)
  {
    before, op := ops[..|ops| - 1], ops[|ops| - 1];
    b :| Leads(c, before, b) && Allowed(c, b, op) && a == Apply(c, b, op);
  }

  /** The operations of a customer are its receipts. */
  lemma {:induction false} OpsAreReceipts(c: Config, ops: seq<Op>, a: AState, p: nat, d: Diet)
    requires Leads(c, ops, a) && (IsRole(c, p, Customer(d)) || IsRole(c, p, Hybrid))
    ensures OpsBy(ops, p) == TakenBy(a.At(d).taken, p)
    decreases |ops|
  {
    if ops != [] {
      var before, op, b := LastOp(c, ops, a);
      OpsAreReceipts(c, before, b, p, d);
      ApplyCounts(c, b, before, op, p, d);
    }
  }

  /** Process p is the one chef of tray d, as in the program. */
  ghost predicate OnlyChef(c: Config, p: nat, d: Diet) {
    IsRole(c, p, Chef(d)) && forall q | IsRole(c, q, Chef(d)) :: q == p
  }

  /** The i-th dish has the name that the chef's random number 2i+1 stands for. */
  predicate CookedAsDrawn(c: Config, cooked: seq<Food>, p: nat, d: Diet) {
    forall i | 0 <= i < |cooked| :: cooked[i].dish == MenuItem(d, c.rand(p, 2 * i + 1))
  }

  lemma LastDrawn(c: Config, ops: seq<Op>, a: AState) returns (before: seq<Op>, op: Op, b: AState)
    requires DrawnRun(c, ops, a) && ops != []
    ensures ops == before + [op] && |before| < |ops|
    ensures DrawnRun(c, before, b) && Allowed(c, b, op) && a == Apply(c, b, op)
    ensures op == Idle || Drawn(c, b, op, OpsBy(before, op.pid))
  {
    before, op := ops[..|ops| - 1], ops[|ops| - 1];
    b :| DrawnRun(c, before, b) && Allowed(c, b, op) && a == Apply(c, b, op)
         && (op == Idle || Drawn(c, b, op, OpsBy(before, op.pid)));
  }

  lemma ApplyCooks(c: Config, a: AState, ops: seq<Op>, op: Op, p: nat, d: Diet)
    requires Allowed(c, a, op) && OnlyChef(c, p, d) && (op == Idle || Drawn(c, a, op, OpsBy(ops, op.pid)))
    requires |a.At(d).cooked| == OpsBy(ops, p) && CookedAsDrawn(c, a.At(d).cooked, p, d)
    ensures |Apply(c, a, op).At(d).cooked| == OpsBy(ops + [op], p)
    ensures CookedAsDrawn(c, Apply(c, a, op).At(d).cooked, p, d)
  {
    OpsBySnoc(ops, op, p);
  }

  lemma {:induction false} OneChefCooks(c: Config, ops: seq<Op>, a: AState, p: nat, d: Diet)
    requires DrawnRun(c, ops, a) && OnlyChef(c, p, d)
    ensures |a.At(d).cooked| == OpsBy(ops, p) && CookedAsDrawn(c, a.At(d).cooked, p, d)
    decreases |ops|
  {
    if ops != [] {
      var before, op, b := LastDrawn(c, ops, a);
      OneChefCooks(c, before, b, p, d);
      ApplyCooks(c, b, before, op, p, d);
    }
  }

  lemma SameCooked(c: Config, s: State, a: AState, d: Diet)
    requires Sim(c, s, a)
    ensures a.At(d).cooked == s.trays.At(d).cooked
  {
    assert SimTray(c, s, a, d);
    if s.trays.At(d).sem != 1 {
      var q := HolderExists(c, s, d);
      assert SimHolder(c, s, a, d, q);
    }
  }

  /** In every reachable state, the dishes cooked for a tray are, one after the other, those that its
      chef's stream names; and between two rounds the chef has called rand() twice for each. */
  lemma ChefFollowsStream(c: Config, sched: seq<Tick>, p: nat, d: Diet)
    requires OnlyChef(c, p, d)
    ensures var s := Run(c, Init(c), sched);
            && (forall i | 0 <= i < |s.trays.At(d).cooked| ::
                  s.trays.At(d).cooked[i].dish ==
                    if c.rand(p, 2 * i + 1) % 2 == 0 then (if d.Vegan? then PistachioPestoPasta else FettuccineChickenAlfredo)
                    else (if d.Vegan? then AvocadoFruitSalad else GarlicSirloinSteak))
            && (Home(c, s, p) ==> s.procs[p].calls == 2 * |s.trays.At(d).cooked|)
  {
    var ops, a := RunsAreDrawn(c, sched);
    OneChefCooks(c, ops, a, p, d);
    SameCooked(c, Run(c, Init(c), sched), a, d);
  }

  lemma AtHome(c: Config, s: State, p: nat, d: Diet, n: nat)
    requires Home(c, s, p) && InStream(c, c.roles[p], p, s.procs[p], n)
    ensures s.procs[p].calls == (if c.roles[p].Hybrid? then 3 else 2) * n
    ensures !TakesFrom(c, s, p, d)
  {
  }

  lemma CallsFor(c: Config, s: State, ops: seq<Op>, a: AState, p: nat, d: Diet)
    requires Sim(c, s, a) && AllInStream(c, s, ops) && Leads(c, ops, a) && Home(c, s, p)
    requires IsRole(c, p, Customer(d)) || IsRole(c, p, Hybrid)
    ensures s.procs[p].calls == (if c.roles[p].Hybrid? then 3 else 2) * TakenBy(s.trays.At(d).taken, p)
  {
    OpsAreReceipts(c, ops, a, p, d);
    ReceiptsDiffer(c, s, a, d, p);
    AtHome(c, s, p, d, OpsBy(ops, p));
  }

  /** In every reachable state, a customer at the head of its loop has called rand() twice for each dish
      it has taken, and a hybrid three times for each pair: attempts in vain use up none. */
  lemma CustomerFollowsStream(c: Config, sched: seq<Tick>, p: nat, d: Diet)
    requires IsRole(c, p, Customer(d)) || IsRole(c, p, Hybrid)
    requires Home(c, Run(c, Init(c), sched), p)
    ensures var s := Run(c, Init(c), sched);
            s.procs[p].calls == (if c.roles[p].Hybrid? then 3 else 2) * TakenBy(s.trays.At(d).taken, p)
  {
    var ops, a := RunsAreDrawn(c, sched);
    CallsFor(c, Run(c, Init(c), sched), ops, a, p, d);
  }
}
