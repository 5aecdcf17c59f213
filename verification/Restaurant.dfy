/** The two-tray restaurant of 10-Semaphore/main.c as a system of interleaved statements.

    Any number of chefs, single-diet customers and hybrid customers share two bounded trays, each
    guarded by one semaphore.  Every sem_wait, sem_post, array assignment and count update is a step
    of its own; computation on local variables is folded into the shared access it belongs to.
 */
module Restaurant {
  import Runs

  datatype Diet = Vegan | NonVegan

  /** One value for each of the two trays. */
  datatype Two<T> = Two(vegan: T, nonVegan: T) {
    function At(d: Diet): T {
      if d.Vegan? then vegan else nonVegan
    }

    function With(d: Diet, x: T): Two<T> {
      if d.Vegan? then Two(x, nonVegan) else Two(vegan, x)
    }
  }

  datatype Dish =
    | NoDish
    | FettuccineChickenAlfredo | GarlicSirloinSteak
    | PistachioPestoPasta | AvocadoFruitSalad

  datatype Food = Food(id: nat, time: int, dish: Dish)

  /** What memset(.., 0x00, ..) leaves in a slot. */
  const BLANK := Food(0, 0, NoDish)

  function MenuItem(d: Diet, k: nat): Dish {
    match d
    case Vegan => if k % 2 == 0 then PistachioPestoPasta else AvocadoFruitSalad
    case NonVegan => if k % 2 == 0 then FettuccineChickenAlfredo else GarlicSirloinSteak
  }

  predicate OnMenu(d: Diet, dish: Dish) {
    match d
    case Vegan => dish.PistachioPestoPasta? || dish.AvocadoFruitSalad?
    case NonVegan => dish.FettuccineChickenAlfredo? || dish.GarlicSirloinSteak?
  }

  datatype Role = Chef(d: Diet) | Customer(d: Diet) | Hybrid

  /** The number of slots, who takes part, and rand() as one fixed stream per process:
      rand(p, k) is what the k-th call made by process p returns. */
  datatype Config = Config(cap: nat, roles: seq<Role>, rand: (nat, nat) -> nat)

  /** The statement a process executes next, and the tray it works on. */
  datatype Pc =
    | Wait(d: Diet)       // sem_wait
    | ReadCount(d: Diet)  // count = buffer->count, and the test on it
    | Retry(d: Diet)      // sem_post when the tray is full or empty
    | PutItem(d: Diet)    // buffer->items[count] = food
    | PutCount(d: Diet)   // buffer->count = count + 1
    | Pick(d: Diet)       // idx = rand() % count; item = buffer->items[idx]
    | Shift(d: Diet)      // one round of the loop that closes the gap
    | Clear(d: Diet)      // memset(&buffer->items[count], 0x00, ..)
    | Drop(d: Diet)       // buffer->count = count - 1
    | Post(d: Diet)       // sem_post after a dish was put down or taken

  /** The local variables of a process; calls counts its calls of rand(). */
  datatype Proc = Proc(pc: Pc, cnt: Two<nat>, item: Two<Food>, idx: nat, calls: nat)

  /** Who took which dish. */
  datatype Receipt = Receipt(pid: nat, food: Food)

  /** A tray with its semaphore.  cooked and taken record what was put down and what was taken away,
      in order; no statement reads them. */
  datatype Tray = Tray(sem: nat, count: nat, items: seq<Food>, cooked: seq<Food>, taken: seq<Receipt>)

  datatype State = State(trays: Two<Tray>, procs: seq<Proc>)

  /** One scheduling decision: which process runs, and what time() would return. */
  datatype Tick = Tick(pid: nat, now: int)

  function Start(role: Role): Pc {
    match role
    case Chef(d) => Wait(d)
    case Customer(d) => Wait(d)
    case Hybrid => Wait(Vegan)
  }

  function FreshProc(role: Role): Proc {
    Proc(Start(role), Two(0, 0), Two(BLANK, BLANK), 0, 0)
  }

  /** Freshly created objects: semaphore 1, memory all zero.  One blank slot follows the cap
      usable ones, because the shift loop of a full tray reads it and the memset writes it. */
  function FreshTray(cap: nat): Tray {
    Tray(1, 0, seq(cap + 1, i => BLANK), [], [])
  }

  function Init(c: Config): State {
    State(Two(FreshTray(c.cap), FreshTray(c.cap)), seq(|c.roles|, i requires 0 <= i < |c.roles| => FreshProc(c.roles[i])))
  }

  /** rand() % n for the given call of process p. */
  function Choice(c: Config, p: nat, call: nat, n: nat): nat
    requires n > 0
  {
    c.rand(p, call) % n
  }

  /** The array accesses and subtractions of the next statement are defined. */
  predicate Fits(pr: Proc, t: Tray) {
    var n := pr.cnt.At(pr.pc.d);
    match pr.pc
    case PutItem(_) => n < |t.items|
    case Pick(_) => 0 < n <= |t.items|
    case Shift(_) => pr.idx < n ==> n < |t.items|
    case Clear(_) => n < |t.items|
    case Drop(_) => 0 < n
    case _ => true
  }

  /** The next statement of process p on the tray it names.  A sem_wait on 0 does not move. */
  function Exec(c: Config, role: Role, p: nat, pr: Proc, t: Tray, now: int): (Proc, Tray)
    requires Fits(pr, t)
  {
    var d := pr.pc.d;
    var n := pr.cnt.At(d);
    match pr.pc
    case Wait(_) =>
      if t.sem == 0 then (pr, t)
      else
        var next := if role.Hybrid? then (if d.Vegan? then Wait(NonVegan) else ReadCount(Vegan)) else ReadCount(d);
        (pr.(pc := next), t.(sem := t.sem - 1))
    case ReadCount(_) => (AfterCount(c, role, p, pr.(cnt := pr.cnt.With(d, t.count)), now), t)
    case Retry(_) =>
      (pr.(pc := if role.Hybrid? && d.Vegan? then Retry(NonVegan) else Start(role)), t.(sem := t.sem + 1))
    case PutItem(_) => (pr.(pc := PutCount(d)), t.(items := t.items[n := pr.item.At(d)]))
    case PutCount(_) =>
      (pr.(pc := Post(d)), t.(count := n + 1, cooked := t.cooked + [pr.item.At(d)]))
    case Pick(_) =>
      var k := Choice(c, p, pr.calls, n);
      (pr.(pc := Shift(d), idx := k, calls := pr.calls + 1, item := pr.item.With(d, t.items[k])), t)
    case Shift(_) =>
      if pr.idx < n then (pr.(idx := pr.idx + 1), t.(items := t.items[pr.idx := t.items[pr.idx + 1]]))
      else (pr.(pc := Clear(d)), t)
    case Clear(_) => (pr.(pc := Drop(d)), t.(items := t.items[n := BLANK]))
    case Drop(_) =>
      (pr.(pc := Post(d)), t.(count := n - 1, taken := t.taken + [Receipt(p, pr.item.At(d))]))
    case Post(_) =>
      (pr.(pc := if role.Hybrid? && d.Vegan? then Pick(NonVegan) else Start(role)), t.(sem := t.sem + 1))
  }

  /** The branch taken once the count of tray pr.pc.d has been read. */
  function AfterCount(c: Config, role: Role, p: nat, pr: Proc, now: int): Proc {
    var d := pr.pc.d;
    var n := pr.cnt.At(d);
    match role
    case Chef(_) =>
      if n >= c.cap then pr.(pc := Retry(d))
      else
        var food := Food(n, now, MenuItem(d, c.rand(p, pr.calls + 1)));
        pr.(pc := PutItem(d), calls := pr.calls + 2, item := pr.item.With(d, food))
    case Customer(_) =>
      if n <= 0 then pr.(pc := Retry(d)) else pr.(pc := Pick(d), calls := pr.calls + 1)
    case Hybrid =>
      if d.Vegan? then pr.(pc := ReadCount(NonVegan))
      else if pr.cnt.vegan <= 0 || pr.cnt.nonVegan <= 0 then pr.(pc := Retry(Vegan))
      else pr.(pc := Pick(Vegan), calls := pr.calls + 1)
  }

  /** One scheduling decision carried out. */
  function Step(c: Config, s: State, k: Tick): State {
    if k.pid < |s.procs| && k.pid < |c.roles| && Fits(s.procs[k.pid], s.trays.At(s.procs[k.pid].pc.d)) then
      var pr := s.procs[k.pid];
      var (pr', t') := Exec(c, c.roles[k.pid], k.pid, pr, s.trays.At(pr.pc.d), k.now);
      State(s.trays.With(pr.pc.d, t'), s.procs[k.pid := pr'])
    else s
  }

  function Stepper(c: Config): (State, Tick) -> State {
    (s, k) => Step(c, s, k)
  }

  function Run(c: Config, s: State, sched: seq<Tick>): State {
    Runs.Run(Stepper(c), s, sched)
  }

  // ----- Who holds which semaphore -----

  predicate Holds(role: Role, pc: Pc, d: Diet) {
    match role
    case Chef(e) => d == e && !pc.Wait?
    case Customer(e) => d == e && !pc.Wait?
    case Hybrid =>
      if d.NonVegan? then !pc.Wait?
      else pc == Wait(NonVegan) || pc == ReadCount(NonVegan) || (pc.d.Vegan? && !pc.Wait?)
  }

  ghost predicate HoldsAt(c: Config, s: State, p: nat, d: Diet) {
    p < |s.procs| && p < |c.roles| && Holds(c.roles[p], s.procs[p].pc, d)
  }

  ghost function Holders(c: Config, s: State, d: Diet): set<nat> {
    set p: nat | p < |s.procs| && HoldsAt(c, s, p, d)
  }

  // ----- The invariant -----

  predicate RoleOk(role: Role, pc: Pc) {
    match role
    case Chef(d) => pc.d == d && (pc.Wait? || pc.ReadCount? || pc.Retry? || pc.PutItem? || pc.PutCount? || pc.Post?)
    case Customer(d) => pc.d == d && !pc.PutItem? && !pc.PutCount?
    case Hybrid => !pc.PutItem? && !pc.PutCount?
  }

  predicate BlankFrom(items: seq<Food>, k: int) {
    forall i | 0 <= i < |items| && k <= i :: items[i] == BLANK
  }

  predicate WellFormed(c: Config, t: Tray) {
    |t.items| == c.cap + 1 && t.count <= c.cap && BlankFrom(t.items, t.count)
  }

  /** What a process holding tray d knows about it. */
  predicate Phase(c: Config, role: Role, pr: Proc, t: Tray, d: Diet) {
    var n := pr.cnt.At(d);
    && |t.items| == c.cap + 1
    && t.count <= c.cap
    && if pr.pc.d == d then
         match pr.pc
         case PutItem(_) => n == t.count < c.cap && BlankFrom(t.items, n) && IsFresh(d, pr.item.At(d), n)
         case PutCount(_) =>
           && n == t.count < c.cap && t.items[n] == pr.item.At(d) && BlankFrom(t.items, n + 1)
           && IsFresh(d, pr.item.At(d), n)
         case Pick(_) => 0 < n == t.count && BlankFrom(t.items, n)
         case Shift(_) => 0 < n == t.count && pr.idx <= n && BlankFrom(t.items, if pr.idx == n then n - 1 else n)
         case Clear(_) => 0 < n == t.count && pr.idx == n && BlankFrom(t.items, n - 1)
         case Drop(_) => 0 < n == t.count && pr.idx == n && BlankFrom(t.items, n - 1)
         case _ => BlankFrom(t.items, t.count)
       else
         && BlankFrom(t.items, t.count)
         && (d.Vegan? && pr.pc.ReadCount? ==> n == t.count)
         && (d.NonVegan? && !pr.pc.ReadCount? && !pr.pc.Retry? ==> 0 < n == t.count)
  }

  /** A dish just cooked for tray d when it held id dishes. */
  predicate IsFresh(d: Diet, food: Food, id: nat) {
    food.id == id && OnMenu(d, food.dish)
  }

  ghost predicate TrayInv(c: Config, s: State, d: Diet) {
    && s.trays.At(d).sem + |Holders(c, s, d)| == 1
    && (s.trays.At(d).sem == 1 ==> WellFormed(c, s.trays.At(d)))
  }

  predicate ProcInv(c: Config, s: State, p: nat)
    requires p < |s.procs| == |c.roles|
  {
    && RoleOk(c.roles[p], s.procs[p].pc)
    && forall d: Diet | Holds(c.roles[p], s.procs[p].pc, d) :: Phase(c, c.roles[p], s.procs[p], s.trays.At(d), d)
  }

  ghost predicate Inv(c: Config, s: State) {
    && |s.procs| == |c.roles|
    && TrayInv(c, s, Vegan)
    && TrayInv(c, s, NonVegan)
    && forall p: nat | p < |s.procs| :: ProcInv(c, s, p)
  }
}
