/** The shared memory of the restaurant, updated in place.

    FoodBuffer.TakeAt and FoodBuffer.Cook are the two critical sections written as the program writes
    them, with nothing in between; FoodBuffer.Execute and Kitchen.Execute carry out one statement of
    one process, and Kitchen.Serve carries out a whole schedule. */
module Kitchen {
  import opened Restaurant
  import opened RestaurantInvariant
  import opened AtomicRestaurant

  lemma GapClosed(before: seq<Food>, after: seq<Food>, n: nat, k: nat)
    requires k < n < |before| == |after|
    requires forall i | 0 <= i < k :: after[i] == before[i]
    requires forall i | k <= i < n :: after[i] == before[i + 1]
    ensures after[..n - 1] == RemoveAt(before[..n], k)
  {
  }

  class FoodBuffer {
    var sem: nat
    var count: nat
    const items: array<Food>
    ghost var cooked: seq<Food>
    ghost var taken: seq<Receipt>

    ghost function Contents(): Tray
      reads this, items
    {
      Tray(sem, count, items[..], cooked, taken)
    }

    constructor (cap: nat)
      ensures Contents() == FreshTray(cap)
      ensures fresh(items)
    {
      sem, count, cooked, taken := 1, 0, [], [];
      items := new Food[cap + 1](_ => BLANK);
      new;
      assert items[..] == seq(cap + 1, i => BLANK);
    }

    /** A chef's update of a tray that is not full. */
    method Cook(c: Config, d: Diet, now: int, call: nat, p: nat)
      requires WellFormed(c, Contents()) && count < c.cap
      modifies this`count, this`cooked, items
      ensures WellFormed(c, Contents()) && count == old(count) + 1 && taken == old(taken)
      ensures items[old(count)] == Food(old(count), now, MenuItem(d, c.rand(p, call)))
      ensures IsFresh(d, items[old(count)], old(count))
      ensures items[..count] == old(items[..count]) + [items[old(count)]]
      ensures cooked == old(cooked) + [items[old(count)]]
    {
      var n := count;
      var food := Food(n, now, MenuItem(d, c.rand(p, call)));
      items[n] := food;
      count := n + 1;
      cooked := cooked + [food];
      assert items[..n] == old(items[..n]);
    }

    /** The loop that closes the gap in slot k: every dish behind it moves up by one. */
    method CloseGap(k: nat, n: nat)
      requires k < n < items.Length
      modifies items
      ensures forall i | 0 <= i < k || n <= i < items.Length :: items[i] == old(items[i])
      ensures forall i | k <= i < n :: items[i] == old(items[i + 1])
    {
      var idx := k;
      while idx < n
        invariant k <= idx <= n
        invariant forall i | 0 <= i < k || idx <= i < items.Length :: items[i] == old(items[i])
        invariant forall i | k <= i < idx :: items[i] == old(items[i + 1])
      {
        items[idx] := items[idx + 1];
        idx := idx + 1;
      }
    }

    /** A customer's update of a tray that is not empty: the tray is left without exactly the dish in
        slot k, the others in their order. */
    method TakeAt(c: Config, p: nat, k: nat) returns (item: Food)
      requires WellFormed(c, Contents()) && k < count
      modifies this`count, this`taken, items
      ensures item == old(items[k])
      ensures WellFormed(c, Contents()) && count == old(count) - 1 && cooked == old(cooked)
      ensures items[..count] == RemoveAt(old(items[..count]), k)
      ensures taken == old(taken) + [Receipt(p, item)]
    {
      var n := count;
      item := items[k];
      CloseGap(k, n);
      items[n] := BLANK;
      count := n - 1;
      taken := taken + [Receipt(p, item)];
      GapClosed(old(items[..]), items[..], n, k);
      assert old(items[..])[..n] == old(items[..n]) && items[..][..n - 1] == items[..n - 1];
    }

    /** One statement of process p on this tray. */
    method Execute(c: Config, role: Role, p: nat, pr: Proc, now: int) returns (pr': Proc)
      requires Fits(pr, Contents())
      modifies this, items
      ensures (pr', Contents()) == Exec(c, role, p, pr, old(Contents()), now)
    {
      var d := pr.pc.d;
      var n := pr.cnt.At(d);
      pr' := pr;
      match pr.pc {
        case Wait(_) =>
          if sem != 0 {
            sem := sem - 1;
            pr' := pr.(pc := if role.Hybrid? then (if d.Vegan? then Wait(NonVegan) else ReadCount(Vegan)) else ReadCount(d));
          }
        case ReadCount(_) =>
          pr' := AfterCount(c, role, p, pr.(cnt := pr.cnt.With(d, count)), now);
        case Retry(_) =>
          sem := sem + 1;
          pr' := pr.(pc := if role.Hybrid? && d.Vegan? then Retry(NonVegan) else Start(role));
        case PutItem(_) =>
          items[n] := pr.item.At(d);
          pr' := pr.(pc := PutCount(d));
        case PutCount(_) =>
          count := n + 1;
          cooked := cooked + [pr.item.At(d)];
          pr' := pr.(pc := Post(d));
        case Pick(_) =>
          var k := Choice(c, p, pr.calls, n);
          pr' := pr.(pc := Shift(d), idx := k, calls := pr.calls + 1, item := pr.item.With(d, items[k]));
        case Shift(_) =>
          if pr.idx < n {
            items[pr.idx] := items[pr.idx + 1];
            pr' := pr.(idx := pr.idx + 1);
          } else {
            pr' := pr.(pc := Clear(d));
          }
        case Clear(_) =>
          items[n] := BLANK;
          pr' := pr.(pc := Drop(d));
        case Drop(_) =>
          count := n - 1;
          taken := taken + [Receipt(p, pr.item.At(d))];
          pr' := pr.(pc := Post(d));
        case Post(_) =>
          sem := sem + 1;
          pr' := pr.(pc := if role.Hybrid? && d.Vegan? then Pick(NonVegan) else Start(role));
      }
    }
  }

  class Kitchen {
    const vegan: FoodBuffer
    const nonVegan: FoodBuffer
    const procs: array<Proc>

    ghost predicate Separate() {
      vegan != nonVegan && vegan.items != nonVegan.items
    }

    ghost function Contents(): State
      reads vegan, vegan.items, nonVegan, nonVegan.items, procs
    {
      State(Two(vegan.Contents(), nonVegan.Contents()), procs[..])
    }

    constructor (c: Config)
      ensures Separate() && Contents() == Init(c)
      ensures fresh(vegan) && fresh(vegan.items) && fresh(nonVegan) && fresh(nonVegan.items) && fresh(procs)
    {
      vegan := new FoodBuffer(c.cap);
      nonVegan := new FoodBuffer(c.cap);
      procs := new Proc[|c.roles|](i requires 0 <= i < |c.roles| => FreshProc(c.roles[i]));
      new;
      assert procs[..] == Init(c).procs;
    }

    /** Process p executes its next statement. */
    method Execute(c: Config, p: nat, now: int)
      requires Separate() && Inv(c, Contents()) && p < procs.Length
      modifies vegan, vegan.items, nonVegan, nonVegan.items, procs
      ensures Contents() == Step(c, old(Contents()), Tick(p, now))
    {
      KnowsAt(c, Contents(), p);
      var pr := procs[p];
      var pr';
      if pr.pc.d.Vegan? {
        pr' := vegan.Execute(c, c.roles[p], p, pr, now);
      } else {
        pr' := nonVegan.Execute(c, c.roles[p], p, pr, now);
      }
      procs[p] := pr';
    }

    /** A whole schedule. */
    method Serve(c: Config, sched: seq<Tick>)
      requires Separate() && Inv(c, Contents())
      requires forall i | 0 <= i < |sched| :: sched[i].pid < procs.Length
      modifies vegan, vegan.items, nonVegan, nonVegan.items, procs
      ensures Contents() == Run(c, old(Contents()), sched) && Inv(c, Contents())
    {
      ghost var s := Contents();
      for i := 0 to |sched|
        invariant Inv(c, Contents()) && Contents() == Run(c, s, sched[..i])
      {
        Execute(c, sched[i].pid, sched[i].now);
        StepKeepsInv(c, Run(c, s, sched[..i]), sched[i]);
        assert sched[..i + 1][..i] == sched[..i];
      }
      assert sched[..|sched|] == sched;
    }
  }
}
