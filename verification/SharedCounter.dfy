/** The shared counter of 4-Thread/task2.c: threads that add one to it under a mutex, with the read
    and the write of each addition as separate steps, and each thread's unlocked read at the end. */
module SharedCounter {
  import Runs
  import opened Sequences

  const TWO32: nat := 0x1_0000_0000

  /** How many threads, and how often each increments. */
  datatype Config = Config(threads: nat, rounds: nat)

  datatype Pc = Lock | Read | Write | Unlock | Log | Finished

  /** done: completed rounds; tmp: the value read; logged: the value reported at the end. */
  datatype Thread = Thread(pc: Pc, done: nat, tmp: nat, logged: nat)

  datatype Owner = Free | By(p: nat)

  datatype State = State(owner: Owner, counter: nat, threads: seq<Thread>)

  function LoopHead(c: Config, done: nat): Pc {
    if done < c.rounds then Lock else Log
  }

  function Init(c: Config): State {
    State(Free, 0, seq(c.threads, _ => Thread(LoopHead(c, 0), 0, 0, 0)))
  }

  function Step(c: Config, s: State, p: nat): State {
    if p >= |s.threads| then s
    else
      var t := s.threads[p];
      match t.pc
      case Lock => if s.owner == Free then State(By(p), s.counter, s.threads[p := t.(pc := Read)]) else s
      case Read => s.(threads := s.threads[p := t.(pc := Write, tmp := s.counter)])
      case Write => s.(counter := (t.tmp + 1) % TWO32, threads := s.threads[p := t.(pc := Unlock)])
      case Unlock =>
        State(Free, s.counter, s.threads[p := t.(pc := LoopHead(c, t.done + 1), done := t.done + 1)])
      case Log => s.(threads := s.threads[p := t.(pc := Finished, logged := s.counter)])
      case Finished => s
  }

  function Stepper(c: Config): (State, nat) -> State {
    (s: State, p: nat) => Step(c, s, p)
  }

  function After(c: Config, sched: seq<nat>): State {
    Runs.Run(Stepper(c), Init(c), sched)
  }

  // ----- The invariant -----

  predicate Holds(t: Thread) {
    t.pc == Read || t.pc == Write || t.pc == Unlock
  }

  /** The increments thread t has written. */
  function Written(t: Thread): nat {
    t.done + if t.pc == Unlock then 1 else 0
  }

  function Total(s: State): nat {
    Sum(Written, s.threads)
  }

  predicate ThreadOk(c: Config, s: State, p: nat)
    requires p < |s.threads|
  {
    var t := s.threads[p];
    && (Holds(t) <==> s.owner == By(p))
    && (if t.pc == Log || t.pc == Finished then t.done == c.rounds else t.done < c.rounds)
    && (t.pc == Write ==> t.tmp == s.counter)
  }

  /** What a finished thread reported was the total, modulo 2^32, at some moment after its own work. */
  ghost predicate LogOk(c: Config, s: State, p: nat)
    requires p < |s.threads|
  {
    s.threads[p].pc == Finished ==>
      exists x: nat :: c.rounds <= x <= Total(s) && s.threads[p].logged == x % TWO32
  }

  predicate AllFinished(s: State) {
    forall p | 0 <= p < |s.threads| :: s.threads[p].pc == Finished
  }

  ghost predicate LastLogged(c: Config, s: State) {
    AllFinished(s) && s.threads != [] ==>
      exists p :: 0 <= p < |s.threads| && s.threads[p].logged == (c.threads * c.rounds) % TWO32
  }

  ghost predicate Inv(c: Config, s: State) {
    && |s.threads| == c.threads
    && (forall p: nat | p < |s.threads| :: ThreadOk(c, s, p) && LogOk(c, s, p))
    && (s.owner.By? ==> s.owner.p < |s.threads|)
    && s.counter == Total(s) % TWO32
    && LastLogged(c, s)
  }

  lemma TotalAfter(c: Config, s: State, p: nat)
    requires p < |s.threads|
    ensures var s' := Step(c, s, p);
            Total(s') == Total(s) + if s.threads[p].pc == Write then 1 else 0
  {
    var s' := Step(c, s, p);
    assert s'.threads == s.threads[p := s'.threads[p]];
    SumUpdate(Written, s.threads, p, s'.threads[p]);
  }

  lemma TotalBounds(c: Config, s: State)
    requires Inv(c, s)
    ensures Total(s) <= c.threads * c.rounds
    ensures (forall p | 0 <= p < |s.threads| :: s.threads[p].done == c.rounds) ==> Total(s) == c.threads * c.rounds
  {
    forall p | 0 <= p < |s.threads| ensures Written(s.threads[p]) <= c.rounds {
      assert ThreadOk(c, s, p);
    }
    SumBounds(Written, s.threads, c.rounds);
  }

  lemma NextCounter(total: nat)
    ensures (total % TWO32 + 1) % TWO32 == (total + 1) % TWO32
  {
  }

  lemma StepThreads(c: Config, s: State, p: nat, q: nat)
    requires Inv(c, s) && p < |s.threads| && q < |s.threads|
    ensures var s' := Step(c, s, p); |s'.threads| == |s.threads| && ThreadOk(c, s', q) && LogOk(c, s', q)
  {
    var s' := Step(c, s, p);
    assert ThreadOk(c, s, p) && ThreadOk(c, s, q) && LogOk(c, s, q);
    TotalAfter(c, s, p);
    if p == q && s.threads[p].pc == Log {
      SumAtLeast(Written, s.threads, p);
      assert c.rounds <= Total(s) <= Total(s') && s'.threads[p].logged == Total(s) % TWO32;
    } else if s'.threads[q].pc == Finished {
      var x: nat :| c.rounds <= x <= Total(s) && s.threads[q].logged == x % TWO32;
      assert c.rounds <= x <= Total(s') && s'.threads[q].logged == x % TWO32;
    }
  }

  lemma StepLast(c: Config, s: State, p: nat)
    requires Inv(c, s) && p < |s.threads|
    ensures LastLogged(c, Step(c, s, p))
  {
    var s' := Step(c, s, p);
    if AllFinished(s') {
      if s.threads[p].pc == Log {
        forall q | 0 <= q < |s.threads| ensures s.threads[q].done == c.rounds {
          assert ThreadOk(c, s, q);
          assert q != p ==> s'.threads[q] == s.threads[q];
        }
        TotalBounds(c, s);
        assert s'.threads[p].logged == (c.threads * c.rounds) % TWO32;
      } else {
        assert s'.threads[p].pc == Finished && s' == s;
      }
    }
  }

  lemma StepKeepsInv(c: Config, s: State, p: nat)
    requires Inv(c, s)
    ensures Inv(c, Step(c, s, p))
  {
    if p < |s.threads| {
      var s' := Step(c, s, p);
      forall q: nat | q < |s.threads| ensures |s'.threads| == |s.threads| && ThreadOk(c, s', q) && LogOk(c, s', q) {
        StepThreads(c, s, p, q);
      }
      assert ThreadOk(c, s, p);
      TotalAfter(c, s, p);
      NextCounter(Total(s));
      StepLast(c, s, p);
    }
  }

  lemma InitInv(c: Config)
    ensures Inv(c, Init(c))
  {
    var s := Init(c);
    forall p | 0 <= p < |s.threads| ensures Written(s.threads[p]) == 0 {
    }
    SumBounds(Written, s.threads, 0);
  }

  ghost function Invariant(c: Config): State -> bool {
    (s: State) => Inv(c, s)
  }

  lemma ReachableInv(c: Config, sched: seq<nat>)
    ensures Inv(c, After(c, sched))
  {
    InitInv(c);
    forall s, p | Invariant(c)(s) ensures Invariant(c)(Stepper(c)(s, p)) {
      StepKeepsInv(c, s, p);
    }
    Runs.KeptInRun(Stepper(c), Invariant(c), Init(c), sched);
  }

  // ----- What the program promises -----

  /** How many times a thread has written the counter. */
  ghost function Writes(c: Config, sched: seq<nat>): nat {
    if sched == [] then 0
    else
      var n := |sched| - 1;
      var s := After(c, sched[..n]);
      Writes(c, sched[..n]) + if sched[n] < |s.threads| && s.threads[sched[n]].pc == Write then 1 else 0
  }

  lemma {:induction false} TotalIsWrites(c: Config, sched: seq<nat>)
    ensures Total(After(c, sched)) == Writes(c, sched)
  {
    if sched == [] {
      SumBounds(Written, Init(c).threads, 0);
    } else {
      var n := |sched| - 1;
      TotalIsWrites(c, sched[..n]);
      if sched[n] < |After(c, sched[..n]).threads| {
        TotalAfter(c, After(c, sched[..n]), sched[n]);
      }
    }
  }

  /** No increment is lost: when the mutex is free or held, the counter is the number of increments
      written so far, modulo 2^32. */
  lemma NoLostUpdate(c: Config, sched: seq<nat>)
    ensures After(c, sched).counter == Writes(c, sched) % 0x1_0000_0000
    ensures Total(After(c, sched)) == Writes(c, sched)
  {
    ReachableInv(c, sched);
    TotalIsWrites(c, sched);
  }

  /** A thread is held up exactly at the lock, while some thread is between lock and unlock. */
  lemma HeldUpIff(c: Config, sched: seq<nat>, p: nat)
    requires p < |After(c, sched).threads| && After(c, sched).threads[p].pc != Finished
    ensures var s := After(c, sched);
            Step(c, s, p) == s <==> s.threads[p].pc == Lock && exists q: nat :: q < |s.threads| && Holds(s.threads[q])
  {
    ReachableInv(c, sched);
    var s := After(c, sched);
    if s.owner.By? {
      assert ThreadOk(c, s, s.owner.p);
    } else {
      forall q: nat | q < |s.threads| ensures !Holds(s.threads[q]) {
        assert ThreadOk(c, s, q);
      }
    }
    if Step(c, s, p) == s {
      assert Step(c, s, p).threads[p] == s.threads[p];
    }
  }

  /** Mutual exclusion. */
  lemma Exclusion(c: Config, sched: seq<nat>, p: nat, q: nat)
    requires p < |After(c, sched).threads| && q < |After(c, sched).threads|
    requires Holds(After(c, sched).threads[p]) && Holds(After(c, sched).threads[q])
    ensures p == q
  {
    ReachableInv(c, sched);
    assert ThreadOk(c, After(c, sched), p) && ThreadOk(c, After(c, sched), q);
  }

  /** After all threads have been joined, the counter is threads * rounds modulo 2^32, and some
      thread has reported exactly that. */
  lemma JoinedTotal(c: Config, sched: seq<nat>)
    requires AllFinished(After(c, sched))
    ensures After(c, sched).counter == (c.threads * c.rounds) % TWO32
    ensures c.threads > 0 ==>
              exists p :: 0 <= p < |After(c, sched).threads| && After(c, sched).threads[p].logged == (c.threads * c.rounds) % TWO32
  {
    ReachableInv(c, sched);
    var s := After(c, sched);
    forall p | 0 <= p < |s.threads| ensures s.threads[p].done == c.rounds {
      assert ThreadOk(c, s, p);
    }
    TotalBounds(c, s);
  }

  /** In the i-th step, thread p reports the value x. */
  ghost predicate LogsAt(c: Config, sched: seq<nat>, p: nat, i: nat, x: nat) {
    && i < |sched| && sched[i] == p
    && p < |After(c, sched[..i]).threads| && After(c, sched[..i]).threads[p].pc == Log
    && x == After(c, sched[..i]).counter
  }

  lemma LogsStill(c: Config, before: seq<nat>, k: nat, p: nat, i: nat, x: nat)
    requires LogsAt(c, before, p, i, x)
    ensures LogsAt(c, before + [k], p, i, x)
  {
    assert (before + [k])[..i] == before[..i];
  }

  /** What a thread has reported is the counter at the moment when it did. */
  lemma {:induction false} LoggedIsRead(c: Config, sched: seq<nat>, p: nat) returns (i: nat)
    requires p < |After(c, sched).threads| && After(c, sched).threads[p].pc == Finished
    ensures LogsAt(c, sched, p, i, After(c, sched).threads[p].logged)
  {
    if sched == [] {
      assert false;
    } else {
      var before, k := sched[..|sched| - 1], sched[|sched| - 1];
      var s := After(c, before);
      assert sched == before + [k];
      if s.threads[p].pc == Finished {
        i := LoggedIsRead(c, before, p);
        LogsStill(c, before, k, p, i, s.threads[p].logged);
      } else {
        i := |before|;
        assert sched[..i] == before;
      }
    }
  }

  /** Without overflow, every thread reports at least its own increments and at most all of them. */
  lemma LoggedRange(c: Config, sched: seq<nat>, p: nat)
    requires c.threads * c.rounds < TWO32
    requires p < |After(c, sched).threads| && After(c, sched).threads[p].pc == Finished
    ensures c.rounds <= After(c, sched).threads[p].logged <= c.threads * c.rounds
  {
    ReachableInv(c, sched);
    var s := After(c, sched);
    assert LogOk(c, s, p);
    var x: nat :| c.rounds <= x <= Total(s) && s.threads[p].logged == x % TWO32;
    TotalBounds(c, s);
  }

  // ----- Termination -----

  function Remaining(c: Config, t: Thread): nat {
    var left := if t.done < c.rounds then c.rounds - t.done else 0;
    match t.pc
    case Lock => 4 * left + 4
    case Read => 4 * left + 3
    case Write => 4 * left + 2
    case Unlock => 4 * left + 1
    case Log => 1
    case Finished => 0
  }

  function ThreadDistance(c: Config): Thread -> nat {
    (t: Thread) => Remaining(c, t)
  }

  function Distance(c: Config): State -> nat {
    (s: State) => Sum(ThreadDistance(c), s.threads)
  }

  function Ended(): State -> bool {
    (s: State) => AllFinished(s)
  }

  function Actor(): nat -> nat {
    (p: nat) => p
  }

  predicate IsThread(c: Config, p: nat) {
    p < c.threads
  }

  function Actors(c: Config): set<nat> {
    set p: nat | p < c.threads && IsThread(c, p)
  }

  lemma StepDescends(c: Config, s: State, p: nat)
    requires Inv(c, s) && Step(c, s, p) != s
    ensures Distance(c)(Step(c, s, p)) < Distance(c)(s)
  {
    var s' := Step(c, s, p);
    assert ThreadOk(c, s, p);
    assert s'.threads == s.threads[p := s'.threads[p]];
    SumUpdate(ThreadDistance(c), s.threads, p, s'.threads[p]);
  }

  /** While anyone is unfinished, the holder of the mutex can move, or else anyone unfinished can. */
  lemma SomeoneMoves(c: Config, s: State) returns (p: nat)
    requires Inv(c, s) && !AllFinished(s)
    ensures p in Actors(c) && Runs.CanMove(Stepper(c), Actor(), s, p)
  {
    if s.owner.By? {
      p := s.owner.p;
    } else {
      p :| 0 <= p < |s.threads| && s.threads[p].pc != Finished;
    }
    assert ThreadOk(c, s, p);
    assert Step(c, s, p).threads[p] != s.threads[p];
    assert Actor()(p) == p;
  }

  lemma Live(c: Config)
    ensures Runs.Kept(Stepper(c), Invariant(c)) && Runs.Descends(Stepper(c), Invariant(c), Distance(c))
    ensures Runs.LiveUntil(Stepper(c), Actor(), Invariant(c), Ended(), Actors(c))
  {
    forall s, p | Invariant(c)(s) ensures Invariant(c)(Stepper(c)(s, p)) {
      StepKeepsInv(c, s, p);
    }
    forall s, p | Invariant(c)(s) && Stepper(c)(s, p) != s ensures Distance(c)(Stepper(c)(s, p)) < Distance(c)(s) {
      StepDescends(c, s, p);
    }
    forall s | Invariant(c)(s) && !Ended()(s)
      ensures exists p :: p in Actors(c) && Runs.CanMove(Stepper(c), Actor(), s, p)
    {
      var p := SomeoneMoves(c, s);
    }
  }

  lemma InitDistance(c: Config)
    ensures Distance(c)(Init(c)) <= c.threads * (4 * c.rounds + 4)
  {
    SumBounds(ThreadDistance(c), Init(c).threads, 4 * c.rounds + 4);
  }

  /** Every fair run ends with all threads finished: the joins return. */
  lemma FairRunsTerminate(c: Config, rounds: seq<seq<nat>>)
    requires |rounds| >= c.threads * (4 * c.rounds + 4)
    requires forall i | 0 <= i < |rounds| :: Runs.Round(Actor(), Actors(c), rounds[i])
    ensures AllFinished(After(c, Runs.Flatten(rounds)))
  {
    Live(c);
    InitInv(c);
    InitDistance(c);
    Runs.FairRunsEnd(Stepper(c), Actor(), Invariant(c), Ended(), Distance(c), Actors(c), Init(c), rounds);
    assert Ended()(After(c, Runs.Flatten(rounds)));
  }

  // ----- The program, updated in place -----

  class Program {
    var owner: Owner
    var counter: nat
    const threads: array<Thread>

    ghost function Contents(): State
      reads this, threads
    {
      State(owner, counter, threads[..])
    }

    constructor (c: Config)
      ensures Contents() == Init(c) && fresh(threads)
    {
      owner, counter := Free, 0;
      threads := new Thread[c.threads](_ => Thread(LoopHead(c, 0), 0, 0, 0));
      new;
      assert threads[..] == Init(c).threads;
    }

    /** One thread's loop, uninterrupted. */
    method Entry(c: Config)
      requires owner == Free && counter < TWO32
      modifies this`owner, this`counter
      ensures owner == Free && counter == (old(counter) + c.rounds) % TWO32
    {
      var i := 0;
      while i < c.rounds
        invariant i <= c.rounds && owner == Free && counter == (old(counter) + i) % TWO32
      {
        owner := By(0);
        NextCounter(old(counter) + i);
        counter := (counter + 1) % TWO32;
        owner := Free;
        i := i + 1;
      }
    }

    /** Thread p takes its next step. */
    method Execute(c: Config, p: nat)
      requires p < threads.Length
      modifies this, threads
      ensures Contents() == Step(c, old(Contents()), p)
    {
      var t := threads[p];
      match t.pc {
        case Lock =>
          if owner == Free {
            owner := By(p);
            threads[p] := t.(pc := Read);
          }
        case Read => threads[p] := t.(pc := Write, tmp := counter);
        case Write =>
          counter := (t.tmp + 1) % TWO32;
          threads[p] := t.(pc := Unlock);
        case Unlock =>
          owner := Free;
          threads[p] := t.(pc := LoopHead(c, t.done + 1), done := t.done + 1);
        case Log => threads[p] := t.(pc := Finished, logged := counter);
        case Finished =>
      }
    }

    /** A whole schedule, from the start; join_threads returns when all threads have finished. */
    method Go(c: Config, sched: seq<nat>) returns (joined: bool)
      requires Contents() == Init(c)
      requires forall i | 0 <= i < |sched| :: sched[i] < threads.Length
      modifies this, threads
      ensures Contents() == After(c, sched)
      ensures joined <==> AllFinished(Contents())
      ensures joined ==> counter == (c.threads * c.rounds) % TWO32
    {
      for i := 0 to |sched|
        invariant Contents() == After(c, sched[..i])
      {
        Execute(c, sched[i]);
        assert sched[..i + 1] == sched[..i] + [sched[i]];
        Runs.RunSnoc(Stepper(c), Init(c), sched[..i], sched[i]);
      }
      assert sched[..|sched|] == sched;
      joined := forall p | 0 <= p < threads.Length :: threads[p].pc == Finished;
      if joined {
        JoinedTotal(c, sched);
      }
    }
  }
}
