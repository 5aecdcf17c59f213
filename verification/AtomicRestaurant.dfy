/** What the restaurant is meant to do: dishes are put down and taken in single steps, and a hybrid
    customer takes one vegan and one non-vegan dish at once. */
module AtomicRestaurant {
  import opened Restaurant
  import opened Sequences

  datatype ATray = ATray(content: seq<Food>, cooked: seq<Food>, taken: seq<Receipt>)

  type AState = Two<ATray>

  datatype Op =
    | Idle
    | Cook(pid: nat, d: Diet, food: Food)
    | Take(pid: nat, d: Diet, k: nat)
    | TakeBoth(pid: nat, kv: nat, kn: nat)

  const EMPTY: AState := Two(ATray([], [], []), ATray([], [], []))

  function RemoveAt<T>(s: seq<T>, k: nat): seq<T>
    requires k < |s|
  {
    s[..k] + s[k + 1..]
  }

  predicate IsRole(c: Config, p: nat, role: Role) {
    p < |c.roles| && c.roles[p] == role
  }

  /** Only a chef of the tray cooks, and only while there is room; only customers take, from trays
      that are not empty, and only hybrids from both. */
  predicate Allowed(c: Config, a: AState, op: Op) {
    match op
    case Idle => true
    case Cook(p, d, food) => IsRole(c, p, Chef(d)) && |a.At(d).content| < c.cap && IsFresh(d, food, |a.At(d).content|)
    case Take(p, d, k) => IsRole(c, p, Customer(d)) && k < |a.At(d).content|
    case TakeBoth(p, kv, kn) => IsRole(c, p, Hybrid) && kv < |a.vegan.content| && kn < |a.nonVegan.content|
  }

  function TakeFrom(a: ATray, p: nat, k: nat): ATray
    requires k < |a.content|
  {
    ATray(RemoveAt(a.content, k), a.cooked, a.taken + [Receipt(p, a.content[k])])
  }

  function Apply(c: Config, a: AState, op: Op): AState
    requires Allowed(c, a, op)
  {
    match op
    case Idle => a
    case Cook(_, d, food) => var t := a.At(d); a.With(d, ATray(t.content + [food], t.cooked + [food], t.taken))
    case Take(p, d, k) => a.With(d, TakeFrom(a.At(d), p, k))
    case TakeBoth(p, kv, kn) => Two(TakeFrom(a.vegan, p, kv), TakeFrom(a.nonVegan, p, kn))
  }

  /** ops lead from the empty trays to a, each allowed where it happens. */
  ghost predicate Leads(c: Config, ops: seq<Op>, a: AState) {
    if ops == [] then a == EMPTY
    else
      var op := ops[|ops| - 1];
      exists b :: Leads(c, ops[..|ops| - 1], b) && Allowed(c, b, op) && a == Apply(c, b, op)
  }

  lemma LeadsOn(c: Config, ops: seq<Op>, a: AState, op: Op)
    requires Leads(c, ops, a) && Allowed(c, a, op)
    ensures Leads(c, ops + [op], Apply(c, a, op))
  {
    var all := ops + [op];
    assert all[..|all| - 1] == ops;
    assert Leads(c, all[..|all| - 1], a) && Allowed(c, a, all[|all| - 1]);
  }

  // ----- What the atomic restaurant guarantees -----

  function Foods(taken: seq<Receipt>): seq<Food> {
    seq(|taken|, i requires 0 <= i < |taken| => taken[i].food)
  }

  predicate RightDishes(c: Config, a: ATray, d: Diet) {
    && |a.content| <= c.cap
    && (forall i | 0 <= i < |a.content| :: i <= a.content[i].id < c.cap && OnMenu(d, a.content[i].dish))
    && (forall i | 0 <= i < |a.taken| :: OnMenu(d, a.taken[i].food.dish))
  }

  predicate Conserved(a: ATray) {
    multiset(a.cooked) == multiset(a.content) + multiset(Foods(a.taken))
  }

  function TakenBy(taken: seq<Receipt>, p: nat): nat {
    if taken == [] then 0
    else TakenBy(taken[..|taken| - 1], p) + if taken[|taken| - 1].pid == p then 1 else 0
  }

  /** A hybrid customer takes as often from one tray as from the other. */
  ghost predicate Balanced(c: Config, a: AState) {
    forall p: nat :: IsRole(c, p, Hybrid) ==> TakenBy(a.vegan.taken, p) == TakenBy(a.nonVegan.taken, p)
  }

  ghost predicate GoodTray(c: Config, a: ATray, d: Diet) {
    RightDishes(c, a, d) && Conserved(a) && Subsequence(a.content, a.cooked)
  }

  ghost predicate GoodTrays(c: Config, a: AState) {
    GoodTray(c, a.vegan, Vegan) && GoodTray(c, a.nonVegan, NonVegan)
  }

  ghost predicate Good(c: Config, a: AState) {
    GoodTrays(c, a) && Balanced(c, a)
  }

  lemma TakeKeepsOrder(content: seq<Food>, cooked: seq<Food>, k: nat)
    requires Subsequence(content, cooked) && k < |content|
    ensures Subsequence(RemoveAt(content, k), cooked)
  {
    var pos: seq<nat> :| Embeds(content, cooked, pos);
    assert Embeds(RemoveAt(content, k), cooked, RemoveAt(pos, k));
  }

  lemma RemoveAtMultiset<T>(s: seq<T>, k: nat)
    requires k < |s|
    ensures multiset(s) == multiset(RemoveAt(s, k)) + multiset([s[k]])
  {
    assert s == s[..k] + [s[k]] + s[k + 1..];
  }

  lemma TakeKeepsTray(c: Config, a: ATray, d: Diet, p: nat, k: nat)
    requires k < |a.content|
    requires GoodTray(c, a, d)
    ensures GoodTray(c, TakeFrom(a, p, k), d)
  {
    TakeKeepsOrder(a.content, a.cooked, k);
    RemoveAtMultiset(a.content, k);
    var r := Receipt(p, a.content[k]);
    assert Foods(a.taken + [r]) == Foods(a.taken) + [r.food];
  }

  lemma TakenByAppend(taken: seq<Receipt>, r: Receipt, p: nat)
    ensures TakenBy(taken + [r], p) == TakenBy(taken, p) + if r.pid == p then 1 else 0
  {
    assert (taken + [r])[..|taken|] == taken;
  }

  lemma CookKeepsTray(c: Config, a: ATray, d: Diet, food: Food)
    requires GoodTray(c, a, d) && |a.content| < c.cap && IsFresh(d, food, |a.content|)
    ensures GoodTray(c, ATray(a.content + [food], a.cooked + [food], a.taken), d)
  {
    AppendToBoth(a.content, a.cooked, food);
  }

  lemma ApplyTakenBy(c: Config, a: AState, op: Op, p: nat)
    requires Allowed(c, a, op) && IsRole(c, p, Hybrid)
    requires TakenBy(a.vegan.taken, p) == TakenBy(a.nonVegan.taken, p)
    ensures TakenBy(Apply(c, a, op).vegan.taken, p) == TakenBy(Apply(c, a, op).nonVegan.taken, p)
  {
    match op
    case Take(q, d, k) => TakenByAppend(a.At(d).taken, Receipt(q, a.At(d).content[k]), p);
    case TakeBoth(q, kv, kn) =>
      TakenByAppend(a.vegan.taken, Receipt(q, a.vegan.content[kv]), p);
      TakenByAppend(a.nonVegan.taken, Receipt(q, a.nonVegan.content[kn]), p);
    case _ =>
  }

  lemma OneTrayChanged(c: Config, a: AState, d: Diet, t: ATray)
    requires GoodTrays(c, a) && GoodTray(c, t, d)
    ensures GoodTrays(c, a.With(d, t))
  {
  }

  lemma BothKeepTrays(c: Config, a: AState, p: nat, kv: nat, kn: nat)
    requires Allowed(c, a, TakeBoth(p, kv, kn)) && GoodTrays(c, a)
    ensures GoodTrays(c, Apply(c, a, TakeBoth(p, kv, kn)))
  {
    TakeKeepsTray(c, a.vegan, Vegan, p, kv);
    TakeKeepsTray(c, a.nonVegan, NonVegan, p, kn);
  }

  lemma ApplyKeepsTrays(c: Config, a: AState, op: Op)
    requires Allowed(c, a, op) && GoodTrays(c, a)
    ensures GoodTrays(c, Apply(c, a, op))
  {
    match op
    case Idle =>
    case Cook(_, d, food) =>
      var t := a.At(d);
      CookKeepsTray(c, t, d, food);
      OneTrayChanged(c, a, d, ATray(t.content + [food], t.cooked + [food], t.taken));
    case Take(p, d, k) =>
      TakeKeepsTray(c, a.At(d), d, p, k);
      OneTrayChanged(c, a, d, TakeFrom(a.At(d), p, k));
    case TakeBoth(p, kv, kn) => BothKeepTrays(c, a, p, kv, kn);
  }

  lemma ApplyKeepsGood(c: Config, a: AState, op: Op)
    requires Good(c, a) && Allowed(c, a, op)
    ensures Good(c, Apply(c, a, op))
  {
    ApplyKeepsTrays(c, a, op);
    forall p: nat | IsRole(c, p, Hybrid)
      ensures TakenBy(Apply(c, a, op).vegan.taken, p) == TakenBy(Apply(c, a, op).nonVegan.taken, p)
    {
      ApplyTakenBy(c, a, op, p);
    }
  }

  /** In every atomic run: each tray is an order-preserving selection of the dishes cooked for it,
      nothing is lost or duplicated, every dish is of the right diet, and every hybrid has taken
      as many vegan as non-vegan dishes. */
  lemma {:induction false} AtomicRunsAreGood(c: Config, ops: seq<Op>, a: AState)
    requires Leads(c, ops, a)
    ensures Good(c, a)
  {
    if ops == [] {
      EmptySubsequence<Food>([]);
    } else {
      var b :| Leads(c, ops[..|ops| - 1], b) && Allowed(c, b, ops[|ops| - 1]) && a == Apply(c, b, ops[|ops| - 1]);
      AtomicRunsAreGood(c, ops[..|ops| - 1], b);
      ApplyKeepsGood(c, b, ops[|ops| - 1]);
    }
  }
}
