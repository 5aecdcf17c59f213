/** The one-slot handoff of 4-Thread/task3.c: a producer and a customer that share one value under a
    mutex and a condition variable.  Every lock, unlock, wait, signal and shared access is a step. */
module Handoff {
  import Runs
  import opened Sequences

  /** How many rounds each thread makes, and the values rand() returns. */
  datatype Config = Config(rounds: nat, rand: nat -> nat)

  datatype ProducerPc = PLock | PWrite | PReady | PSignal | PUnlock | PDone

  datatype CustomerPc =
    | CLock      // pthread_mutex_lock
    | CCheck     // while(!data_ready); pthread_cond_wait releases the mutex and parks, in one step
    | CParked    // in the wait set
    | CWoken     // pthread_cond_wait has to take the mutex again before it returns
    | CTake      // log_info("Data: %d", data)
    | CClear     // data_ready = NOT_READY
    | CUnlock
    | CDone

  datatype Owner = Free | Producer | Customer

  /** made and used are the two loop counters.  produced, consumed and lost record the values written,
      reported, and overwritten before anyone reported them; no step reads them. */
  datatype State = State(
    owner: Owner, data: nat, ready: bool,
    producer: ProducerPc, made: nat, customer: CustomerPc, used: nat,
    produced: seq<nat>, consumed: seq<nat>, lost: seq<nat>)

  /** Who runs; a spurious wakeup takes the customer out of the wait set without a signal. */
  datatype Tick = Produce | Consume | Spurious

  function ProducerHead(c: Config, made: nat): ProducerPc {
    if made < c.rounds then PLock else PDone
  }

  function CustomerHead(c: Config, used: nat): CustomerPc {
    if used < c.rounds then CLock else CDone
  }

  function Init(c: Config): State {
    State(Free, 0, false, ProducerHead(c, 0), 0, CustomerHead(c, 0), 0, [], [], [])
  }

  function ProducerStep(c: Config, s: State): State {
    match s.producer
    case PLock => if s.owner == Free then s.(owner := Producer, producer := PWrite) else s
    case PWrite =>
      var v := c.rand(s.made) % 100;
      s.(data := v, producer := PReady, produced := s.produced + [v],
         lost := if s.ready then s.lost + [s.data] else s.lost)
    case PReady => s.(ready := true, producer := PSignal)
    case PSignal => s.(producer := PUnlock, customer := if s.customer == CParked then CWoken else s.customer)
    case PUnlock => s.(owner := Free, producer := ProducerHead(c, s.made + 1), made := s.made + 1)
    case PDone => s
  }

  function CustomerStep(c: Config, s: State): State {
    match s.customer
    case CLock => if s.owner == Free then s.(owner := Customer, customer := CCheck) else s
    case CCheck => if s.ready then s.(customer := CTake) else s.(owner := Free, customer := CParked)
    case CParked => s
    case CWoken => if s.owner == Free then s.(owner := Customer, customer := CCheck) else s
    case CTake => s.(customer := CClear, consumed := s.consumed + [s.data])
    case CClear => s.(ready := false, customer := CUnlock)
    case CUnlock => s.(owner := Free, customer := CustomerHead(c, s.used + 1), used := s.used + 1)
    case CDone => s
  }

  function Step(c: Config, s: State, k: Tick): State {
    match k
    case Produce => ProducerStep(c, s)
    case Consume => CustomerStep(c, s)
    case Spurious => if s.customer == CParked then s.(customer := CWoken) else s
  }

  function Stepper(c: Config): (State, Tick) -> State {
    (s: State, k: Tick) => Step(c, s, k)
  }

  function After(c: Config, sched: seq<Tick>): State {
    Runs.Run(Stepper(c), Init(c), sched)
  }

  // ----- The invariant -----

  predicate ProducerHolds(s: State) {
    s.producer != PLock && s.producer != PDone
  }

  predicate CustomerHolds(s: State) {
    s.customer == CCheck || s.customer == CTake || s.customer == CClear || s.customer == CUnlock
  }

  /** A value has been written that nobody has reported or overwritten yet. */
  predicate Pending(s: State) {
    (s.ready || s.producer == PReady) && s.customer != CClear
  }

  predicate ControlOk(c: Config, s: State) {
    && (s.owner == Producer <==> ProducerHolds(s))
    && (s.owner == Customer <==> CustomerHolds(s))
    && (s.producer == PDone <==> s.made == c.rounds) && s.made <= c.rounds
    && (s.customer == CDone <==> s.used == c.rounds) && s.used <= c.rounds
    && (s.producer == PSignal || s.producer == PUnlock ==> s.ready)
    && (s.customer == CTake || s.customer == CClear ==> s.ready)
    && (s.customer == CUnlock ==> !s.ready)
    && (s.customer == CParked && s.ready ==> s.producer == PSignal)
  }

  predicate CountsOk(s: State) {
    && |s.produced| == s.made + (if s.producer == PReady || s.producer == PSignal || s.producer == PUnlock then 1 else 0)
    && |s.consumed| == s.used + (if s.customer == CClear || s.customer == CUnlock then 1 else 0)
  }

  /** The part of the produced values that has been settled: reported or overwritten. */
  function Settled(s: State): seq<nat> {
    if Pending(s) && s.produced != [] then s.produced[..|s.produced| - 1] else s.produced
  }

  ghost predicate ValuesOk(s: State) {
    && (Pending(s) || s.customer == CClear ==> s.produced != [] && s.data == s.produced[|s.produced| - 1])
    && Subsequence(s.consumed, Settled(s))
    && multiset(Settled(s)) == multiset(s.consumed) + multiset(s.lost)
  }

  ghost predicate Inv(c: Config, s: State) {
    ControlOk(c, s) && CountsOk(s) && ValuesOk(s)
  }

  lemma SplitLast(s: seq<nat>)
    requires s != []
    ensures s == s[..|s| - 1] + [s[|s| - 1]]
  {
  }

  lemma StepKeepsControl(c: Config, s: State, k: Tick)
    requires ControlOk(c, s) && CountsOk(s)
    ensures ControlOk(c, Step(c, s, k)) && CountsOk(Step(c, s, k))
  {
  }

  /** What only moves the control along. */
  lemma SameValues(s: State, s': State)
    requires ValuesOk(s)
    requires s'.data == s.data && s'.produced == s.produced && s'.consumed == s.consumed && s'.lost == s.lost
    requires Pending(s') == Pending(s) && (s'.customer == CClear ==> s.customer == CClear)
    ensures ValuesOk(s')
  {
    assert Settled(s') == Settled(s);
  }

  lemma ProducerKeepsValues(c: Config, s: State)
    requires Inv(c, s)
    ensures ValuesOk(ProducerStep(c, s))
  {
    var s' := ProducerStep(c, s);
    if s.producer != PWrite {
      SameValues(s, s');
    } else {
      assert Settled(s') == s.produced;
      if s.ready {
        SplitLast(s.produced);
        AppendToLonger(s.consumed, Settled(s), s.data);
      }
    }
  }

  lemma TakeKeepsValues(c: Config, s: State)
    requires Inv(c, s) && s.customer == CTake
    ensures ValuesOk(CustomerStep(c, s))
  {
    SplitLast(s.produced);
    AppendToBoth(s.consumed, Settled(s), s.data);
    assert Settled(CustomerStep(c, s)) == Settled(s) + [s.data];
  }

  lemma CustomerKeepsValues(c: Config, s: State)
    requires Inv(c, s)
    ensures ValuesOk(CustomerStep(c, s))
  {
    if s.customer == CTake {
      TakeKeepsValues(c, s);
    } else {
      SameValues(s, CustomerStep(c, s));
    }
  }

  lemma StepKeepsInv(c: Config, s: State, k: Tick)
    requires Inv(c, s)
    ensures Inv(c, Step(c, s, k))
  {
    StepKeepsControl(c, s, k);
    match k
    case Produce => ProducerKeepsValues(c, s);
    case Consume => CustomerKeepsValues(c, s);
    case Spurious => assert Settled(Step(c, s, k)) == Settled(s);
  }

  ghost function Invariant(c: Config): State -> bool {
    (s: State) => Inv(c, s)
  }

  lemma Kept(c: Config)
    ensures Runs.Kept(Stepper(c), Invariant(c)) && Invariant(c)(Init(c))
  {
    EmptySubsequence<nat>([]);
    forall s, k | Invariant(c)(s) ensures Invariant(c)(Stepper(c)(s, k)) {
      StepKeepsInv(c, s, k);
    }
  }

  lemma ReachableInv(c: Config, sched: seq<Tick>)
    ensures Inv(c, After(c, sched))
  {
    Kept(c);
    Runs.KeptInRun(Stepper(c), Invariant(c), Init(c), sched);
  }

  // ----- Safety -----

  /** In every state: every value written has been reported, or overwritten, or is still there, and
      none of them twice; and what has been reported was written in that order. */
  lemma ValuesAccounted(c: Config, sched: seq<Tick>)
    ensures var s := After(c, sched);
            && multiset(s.produced) == multiset(s.consumed) + multiset(s.lost) + (if Pending(s) then multiset{s.data} else multiset{})
            && |s.produced| == |s.consumed| + |s.lost| + (if Pending(s) then 1 else 0)
            && Subsequence(s.consumed, s.produced)
  {
    ReachableInv(c, sched);
    var s := After(c, sched);
    if Pending(s) {
      SplitLast(s.produced);
      AppendToLonger(s.consumed, Settled(s), s.data);
    }
    assert |multiset(Settled(s))| == |s.consumed| + |s.lost|;
  }

  /** Mutual exclusion. */
  lemma Exclusion(c: Config, sched: seq<Tick>)
    ensures !(ProducerHolds(After(c, sched)) && CustomerHolds(After(c, sched)))
  {
    ReachableInv(c, sched);
  }

  /** No wakeup is lost: whenever the mutex is free, a customer in the wait set has nothing to take. */
  lemma NoLostWakeup(c: Config, sched: seq<Tick>)
    requires After(c, sched).owner == Free && After(c, sched).customer == CParked
    ensures !After(c, sched).ready
  {
    ReachableInv(c, sched);
  }

  /** The values written are the producer's random numbers, one for each round. */
  predicate InStream(c: Config, s: State) {
    forall i | 0 <= i < |s.produced| :: s.produced[i] == c.rand(i) % 100
  }

  lemma StepInStream(c: Config, s: State, k: Tick)
    requires ControlOk(c, s) && CountsOk(s) && InStream(c, s)
    ensures InStream(c, Step(c, s, k))
  {
  }

  /** In every state: the i-th value written is the i-th random number modulo 100. */
  lemma {:induction false} ProducedIsDrawn(c: Config, sched: seq<Tick>)
    ensures forall i | 0 <= i < |After(c, sched).produced| :: After(c, sched).produced[i] == c.rand(i) % 100
  {
    if sched != [] {
      var n := |sched| - 1;
      ProducedIsDrawn(c, sched[..n]);
      ReachableInv(c, sched[..n]);
      StepInStream(c, After(c, sched[..n]), sched[n]);
    }
  }

  lemma ProducerBlocked(c: Config, s: State)
    requires ControlOk(c, s)
    ensures ProducerStep(c, s) == s <==> s.producer == PDone || (s.producer == PLock && CustomerHolds(s))
  {
    if s.producer == PWrite {
      assert ProducerStep(c, s).producer != s.producer;
    }
  }

  lemma CustomerBlocked(c: Config, s: State)
    requires ControlOk(c, s)
    ensures CustomerStep(c, s) == s <==>
            s.customer == CDone || s.customer == CParked || ((s.customer == CLock || s.customer == CWoken) && ProducerHolds(s))
  {
    if s.customer == CTake {
      assert CustomerStep(c, s).customer != s.customer;
    }
  }

  /** A thread that has not finished is held up exactly at the mutex, while the other one has it, or in
      the wait set. */
  lemma HeldUpIff(c: Config, sched: seq<Tick>)
    ensures var s := After(c, sched);
            && (Step(c, s, Produce) == s <==> s.producer == PDone || (s.producer == PLock && CustomerHolds(s)))
            && (Step(c, s, Consume) == s <==>
                s.customer == CDone || s.customer == CParked
                || ((s.customer == CLock || s.customer == CWoken) && ProducerHolds(s)))
  {
    ReachableInv(c, sched);
    ProducerBlocked(c, After(c, sched));
    CustomerBlocked(c, After(c, sched));
  }

  /** The loop around pthread_cond_wait makes a spurious wakeup harmless: with the mutex free, the
      customer leaves the wait set, takes the mutex, finds nothing, and is back where it was. */
  lemma SpuriousIsHarmless(c: Config, sched: seq<Tick>)
    requires After(c, sched).customer == CParked && After(c, sched).owner == Free
    ensures After(c, sched + [Spurious]).customer != CParked
    ensures After(c, sched + [Spurious] + [Consume]).owner == Customer
    ensures After(c, sched + [Spurious] + [Consume] + [Consume]) == After(c, sched)
  {
    NoLostWakeup(c, sched);
    Runs.RunSnoc(Stepper(c), Init(c), sched, Spurious);
    Runs.RunSnoc(Stepper(c), Init(c), sched + [Spurious], Consume);
    Runs.RunSnoc(Stepper(c), Init(c), sched + [Spurious] + [Consume], Consume);
  }

  // ----- When a value is overwritten -----

  /** The guard of the branch in which a value gets lost. */
  predicate Overwriting(s: State) {
    s.producer == PWrite && s.ready
  }

  /** The producer is scheduled at its write while a value is still there. */
  ghost predicate Overwrites(c: Config, sched: seq<Tick>) {
    exists i :: 0 <= i < |sched| && sched[i] == Produce && Overwriting(After(c, sched[..i]))
  }

  lemma OverwritesMore(c: Config, before: seq<Tick>, k: Tick)
    ensures Overwrites(c, before + [k]) <==> Overwrites(c, before) || (k == Produce && Overwriting(After(c, before)))
  {
    var sched, n := before + [k], |before|;
    forall i | 0 <= i <= n ensures sched[..i] == before[..i] {
    }
    assert before[..n] == before && sched[n] == k;
    if Overwrites(c, before) {
      var i :| 0 <= i < n && before[i] == Produce && Overwriting(After(c, before[..i]));
      assert sched[i] == Produce && Overwriting(After(c, sched[..i]));
    }
  }

  lemma LosesIff(c: Config, s: State, k: Tick)
    ensures Step(c, s, k).lost != [] <==> s.lost != [] || (k == Produce && Overwriting(s))
  {
  }

  /** A value is lost exactly if the schedule lets the producer write while a value is still there. */
  lemma {:induction false} LostIff(c: Config, sched: seq<Tick>)
    ensures After(c, sched).lost != [] <==> Overwrites(c, sched)
  {
    if sched != [] {
      var before, k := sched[..|sched| - 1], sched[|sched| - 1];
      LostIff(c, before);
      assert sched == before + [k];
      OverwritesMore(c, before, k);
      Runs.RunSnoc(Stepper(c), Init(c), before, k);
      LosesIff(c, After(c, before), k);
    }
  }

  ghost predicate LostNeedsTwo(c: Config, s: State) {
    Inv(c, s) && (s.lost != [] ==> |s.produced| >= 2)
  }

  lemma OnlyWritesLose(c: Config, s: State, k: Tick)
    ensures |Step(c, s, k).produced| == |s.produced| + if k == Produce && s.producer == PWrite then 1 else 0
    ensures Step(c, s, k).lost == s.lost || (k == Produce && Overwriting(s))
  {
  }

  lemma OverwritingNeedsOne(s: State)
    requires ValuesOk(s) && Overwriting(s) && s.customer != CClear
    ensures s.produced != []
  {
    assert Pending(s);
  }

  lemma StepKeepsTwo(c: Config, s: State, k: Tick)
    requires Inv(c, s) && (s.lost != [] ==> |s.produced| >= 2)
    ensures Step(c, s, k).lost != [] ==> |Step(c, s, k).produced| >= 2
  {
    OnlyWritesLose(c, s, k);
    if Overwriting(s) {
      OverwritingNeedsOne(s);
    }
  }

  lemma AtMostRounds(c: Config, s: State)
    requires Inv(c, s)
    ensures |s.produced| <= c.rounds
  {
  }

  /** With a single round there is nothing to overwrite. */
  lemma OneRoundLosesNothing(c: Config, sched: seq<Tick>)
    requires c.rounds <= 1
    ensures After(c, sched).lost == []
  {
    Kept(c);
    forall s, k | LostNeedsTwo(c, s) ensures LostNeedsTwo(c, Stepper(c)(s, k)) {
      StepKeepsInv(c, s, k);
      StepKeepsTwo(c, s, k);
    }
    Runs.KeptInRun(Stepper(c), (s: State) => LostNeedsTwo(c, s), Init(c), sched);
    AtMostRounds(c, After(c, sched));
  }

  // ----- How runs end -----

  /** Neither thread can move. */
  predicate Quiet(c: Config, s: State) {
    Step(c, s, Produce) == s && Step(c, s, Consume) == s
  }

  lemma QuietMeans(c: Config, s: State)
    requires Inv(c, s) && Quiet(c, s)
    ensures s.producer == PDone && !Pending(s) && |s.produced| == c.rounds
    ensures s.customer == CDone || (s.customer == CParked && !s.ready)
    ensures s.customer == CDone <==> |s.consumed| == c.rounds
  {
    ProducerBlocked(c, s);
    CustomerBlocked(c, s);
    if s.customer == CDone {
      AllTaken(c, s);
    }
  }

  /** A finished customer has consumed as many values as there are, so none is left. */
  lemma AllTaken(c: Config, s: State)
    requires Inv(c, s) && s.customer == CDone && s.producer == PDone
    ensures !Pending(s)
  {
    assert |multiset(Settled(s))| == |s.consumed| + |s.lost|;
  }

  /** When neither thread can move, the producer has finished, and either the customer has finished
      too and has reported every random number drawn, in order, or it is parked for good, having reported
      all but the overwritten ones.  Which of the two depends only on whether the schedule overwrites. */
  lemma HowItEnds(c: Config, sched: seq<Tick>)
    requires Quiet(c, After(c, sched))
    ensures var s := After(c, sched);
            && s.producer == PDone && |s.produced| == c.rounds
            && |s.consumed| + |s.lost| == c.rounds
            && (s.customer == CDone <==> s.lost == [])
            && (s.customer == CDone <==> !Overwrites(c, sched))
            && (s.customer == CDone ==> s.consumed == s.produced == seq(c.rounds, i requires 0 <= i => c.rand(i) % 100))
            && (s.customer != CDone ==> s.customer == CParked && !s.ready)
  {
    ReachableInv(c, sched);
    QuietMeans(c, After(c, sched));
    ValuesAccounted(c, sched);
    LostIff(c, sched);
    ProducedIsDrawn(c, sched);
    if After(c, sched).customer == CDone {
      FullSubsequence(After(c, sched).consumed, After(c, sched).produced);
    }
  }

  /** Once a value has been overwritten, the customer never finishes, whatever happens next. */
  lemma OverwriteMeansHang(c: Config, sched: seq<Tick>, more: seq<Tick>)
    requires After(c, sched).lost != []
    ensures After(c, sched + more).customer != CDone && After(c, sched + more).lost != []
  {
    Runs.RunAppend(Stepper(c), Init(c), sched, more);
    Runs.KeptInRun(Stepper(c), (s: State) => s.lost != [], After(c, sched), more);
    ValuesAccounted(c, sched + more);
    ReachableInv(c, sched + more);
  }

  function ProducerOnly(n: nat): seq<Tick> {
    seq(n, _ => Produce)
  }

  lemma ProducerAhead(c: Config, n: nat)
    ensures After(c, ProducerOnly(n + 1)) == ProducerStep(c, After(c, ProducerOnly(n)))
  {
    assert ProducerOnly(n + 1) == ProducerOnly(n) + [Produce];
    Runs.RunSnoc(Stepper(c), Init(c), ProducerOnly(n), Produce);
  }

  /** It does happen: with two rounds or more, a producer that gets seven steps before the customer's
      first overwrites a value.  The one-second sleeps make this unlikely but do not exclude it. */
  lemma OverwriteHappens(c: Config)
    requires c.rounds >= 2
    ensures After(c, ProducerOnly(7)).lost == [c.rand(0) % 100]
  {
    var v := c.rand(0) % 100;
    ProducerAhead(c, 0);
    ProducerAhead(c, 1);
    assert After(c, ProducerOnly(2)) == State(Producer, v, false, PReady, 0, CLock, 0, [v], [], []);
    ProducerAhead(c, 2);
    ProducerAhead(c, 3);
    ProducerAhead(c, 4);
    assert After(c, ProducerOnly(5)) == State(Free, v, true, PLock, 1, CLock, 0, [v], [], []);
    ProducerAhead(c, 5);
    ProducerAhead(c, 6);
  }

  // ----- Termination -----

  function ProducerRank(pc: ProducerPc): nat {
    match pc
    case PLock => 5
    case PWrite => 4
    case PReady => 3
    case PSignal => 2
    case PUnlock => 1
    case PDone => 0
  }

  function CustomerRank(pc: CustomerPc): nat {
    match pc
    case CLock => 8
    case CWoken => 8
    case CCheck => 7
    case CParked => 6
    case CTake => 5
    case CClear => 4
    case CUnlock => 3
    case CDone => 0
  }

  function RoundsLeft(c: Config, n: nat): nat {
    if n < c.rounds then c.rounds - n else 0
  }

  /** A signal can set the customer back by two steps; it is paid for by the producer's own. */
  function Distance(c: Config): State -> nat {
    (s: State) => 4 * (5 * RoundsLeft(c, s.made) + ProducerRank(s.producer)) + 6 * RoundsLeft(c, s.used) + CustomerRank(s.customer)
  }

  /** Spurious wakeups ignored. */
  function SteadyStepper(c: Config): (State, Tick) -> State {
    (s: State, k: Tick) => if k == Spurious then s else Step(c, s, k)
  }

  function Ended(c: Config): State -> bool {
    (s: State) => Quiet(c, s)
  }

  function Actor(): Tick -> Tick {
    (k: Tick) => k
  }

  const ACTORS: set<Tick> := {Produce, Consume}

  lemma StepDescends(c: Config, s: State, k: Tick)
    requires Inv(c, s) && k != Spurious && Step(c, s, k) != s
    ensures Distance(c)(Step(c, s, k)) < Distance(c)(s)
  {
  }

  lemma Live(c: Config)
    ensures Runs.Kept(SteadyStepper(c), Invariant(c)) && Runs.Descends(SteadyStepper(c), Invariant(c), Distance(c))
    ensures Runs.LiveUntil(SteadyStepper(c), Actor(), Invariant(c), Ended(c), ACTORS)
  {
    forall s, k | Invariant(c)(s) ensures Invariant(c)(SteadyStepper(c)(s, k)) {
      StepKeepsInv(c, s, k);
    }
    forall s, k | Invariant(c)(s) && SteadyStepper(c)(s, k) != s
      ensures Distance(c)(SteadyStepper(c)(s, k)) < Distance(c)(s)
    {
      StepDescends(c, s, k);
    }
    forall s | Invariant(c)(s) && !Ended(c)(s)
      ensures exists w :: w in ACTORS && Runs.CanMove(SteadyStepper(c), Actor(), s, w)
    {
      var w := if Step(c, s, Produce) != s then Produce else Consume;
      assert Actor()(w) == w && SteadyStepper(c)(s, w) != s;
      assert w in ACTORS && Runs.CanMove(SteadyStepper(c), Actor(), s, w);
    }
  }

  predicate NoSpurious(sched: seq<Tick>) {
    forall i | 0 <= i < |sched| :: sched[i] != Spurious
  }

  /** Enough rounds, without spurious wakeups, in each of which both threads get a turn. */
  ghost predicate FairSteady(c: Config, rounds: seq<seq<Tick>>) {
    && |rounds| >= 26 * c.rounds + 28
    && forall i | 0 <= i < |rounds| :: Runs.Round(Actor(), ACTORS, rounds[i]) && NoSpurious(rounds[i])
  }

  lemma DistanceIsBounded(c: Config, s: State)
    requires Inv(c, s)
    ensures Distance(c)(s) <= 26 * c.rounds + 28
  {
  }

  lemma RestFrom(c: Config, s: State, rounds: seq<seq<Tick>>)
    requires Invariant(c)(s) && FairSteady(c, rounds)
    ensures Ended(c)(Runs.Run(SteadyStepper(c), s, Runs.Flatten(rounds)))
  {
    Live(c);
    DistanceIsBounded(c, s);
    Runs.FairRunsEnd(SteadyStepper(c), Actor(), Invariant(c), Ended(c), Distance(c), ACTORS, s, rounds);
  }

  lemma ComesToRest(c: Config, before: seq<Tick>, rounds: seq<seq<Tick>>)
    requires FairSteady(c, rounds)
    ensures Quiet(c, After(c, before + Runs.Flatten(rounds)))
  {
    var late := Runs.Flatten(rounds);
    ReachableInv(c, before);
    RestFrom(c, After(c, before), rounds);
    Runs.FlattenAll(rounds, (k: Tick) => k != Spurious);
    Runs.SameRun(SteadyStepper(c), Stepper(c), After(c, before), late);
    Runs.RunAppend(Stepper(c), Init(c), before, late);
  }

  /** Whatever has happened before, spurious wakeups included: a fair run without further ones comes
      to rest, with the producer finished, and with the customer finished too exactly if the schedule
      has not overwritten a value. */
  lemma FairRunsEnd(c: Config, before: seq<Tick>, rounds: seq<seq<Tick>>)
    requires FairSteady(c, rounds)
    ensures var sched := before + Runs.Flatten(rounds);
            var s := After(c, sched);
            && Quiet(c, s) && s.producer == PDone
            && (if Overwrites(c, sched) then s.customer == CParked && |s.consumed| == c.rounds - |s.lost|
                else s.customer == CDone && s.consumed == s.produced == seq(c.rounds, i requires 0 <= i => c.rand(i) % 100))
  {
    ComesToRest(c, before, rounds);
    HowItEnds(c, before + Runs.Flatten(rounds));
  }

  /** With two rounds or more, some whole fair run ends with the customer parked for good. */
  lemma FairRunHangs(c: Config) returns (rounds: seq<seq<Tick>>)
    requires c.rounds >= 2
    ensures FairSteady(c, rounds) && After(c, Runs.Flatten(rounds)).customer == CParked
  {
    var first := ProducerOnly(7) + [Consume];
    var other := [Produce, Consume];
    rounds := seq(26 * c.rounds + 28, i => if i == 0 then first else other);
    assert Runs.Round(Actor(), ACTORS, first) by {
      assert Actor()(first[0]) == Produce && Actor()(first[7]) == Consume;
    }
    assert Runs.Round(Actor(), ACTORS, other) by {
      assert Actor()(other[0]) == Produce && Actor()(other[1]) == Consume;
    }
    assert FairSteady(c, rounds);
    var sched := Runs.Flatten(rounds);
    Runs.FlattenStarts(rounds);
    assert sched == ProducerOnly(7) + sched[7..];
    OverwriteHappens(c);
    OverwriteMeansHang(c, ProducerOnly(7), sched[7..]);
    LostIff(c, sched);
    FairRunsEnd(c, [], rounds);
    assert [] + sched == sched;
  }

  /** The customer is sure to finish exactly if there is at most one round. */
  lemma AlwaysFinishesIff(c: Config)
    ensures (forall rounds | FairSteady(c, rounds) :: After(c, Runs.Flatten(rounds)).customer == CDone) <==> c.rounds <= 1
  {
    if c.rounds <= 1 {
      forall rounds | FairSteady(c, rounds) ensures After(c, Runs.Flatten(rounds)).customer == CDone {
        var sched := Runs.Flatten(rounds);
        FairRunsEnd(c, [], rounds);
        assert [] + sched == sched;
        OneRoundLosesNothing(c, sched);
        LostIff(c, sched);
      }
    } else {
      var rounds := FairRunHangs(c);
    }
  }

  /** How many decisions of a schedule change the state, and how many are spurious wakeups. */
  ghost function Moves(c: Config, sched: seq<Tick>): nat {
    if sched == [] then 0
    else
      var before := sched[..|sched| - 1];
      Moves(c, before) + if After(c, sched) != After(c, before) then 1 else 0
  }

  function Wakeups(sched: seq<Tick>): nat {
    if sched == [] then 0
    else Wakeups(sched[..|sched| - 1]) + if sched[|sched| - 1] == Spurious then 1 else 0
  }

  /** Under any schedule, fair or not, with k spurious wakeups at most 26 * rounds + 28 + 3 * k
      decisions change the state: each wakeup is paid for by three. */
  lemma {:induction false} MovesAreBounded(c: Config, sched: seq<Tick>)
    ensures Moves(c, sched) + Distance(c)(After(c, sched)) <= 26 * c.rounds + 28 + 3 * Wakeups(sched)
  {
    if sched != [] {
      var n := |sched| - 1;
      MovesAreBounded(c, sched[..n]);
      ReachableInv(c, sched[..n]);
      var s := After(c, sched[..n]);
      assert After(c, sched) == Step(c, s, sched[n]);
      if sched[n] != Spurious && Step(c, s, sched[n]) != s {
        StepDescends(c, s, sched[n]);
      }
    }
  }

  lemma MovesSnoc(c: Config, before: seq<Tick>, k: Tick)
    ensures Moves(c, before + [k]) == Moves(c, before) + if After(c, before + [k]) != After(c, before) then 1 else 0
  {
    assert (before + [k])[..|before|] == before;
  }

  /** No decision in late changes the state that before leads to. */
  ghost predicate Still(c: Config, before: seq<Tick>, late: seq<Tick>) {
    forall i | 0 <= i <= |late| :: After(c, before + late[..i]) == After(c, before)
  }

  lemma StillOn(c: Config, before: seq<Tick>, late: seq<Tick>, k: Tick)
    requires Still(c, before, late) && After(c, before + (late + [k])) == After(c, before)
    ensures Still(c, before, late + [k])
  {
    forall i | 0 <= i <= |late| + 1 ensures After(c, before + (late + [k])[..i]) == After(c, before) {
      assert i <= |late| ==> (late + [k])[..i] == late[..i];
      assert (late + [k])[..|late| + 1] == late + [k];
    }
  }

  lemma {:induction false} MovesGrow(c: Config, before: seq<Tick>, late: seq<Tick>)
    ensures Moves(c, before + late) >= Moves(c, before)
    ensures Moves(c, before + late) == Moves(c, before) ==> Still(c, before, late)
  {
    if late == [] {
      assert before + late == before;
    } else {
      var init, k := late[..|late| - 1], late[|late| - 1];
      assert late == init + [k];
      MovesGrow(c, before, init);
      assert before + (init + [k]) == (before + init) + [k];
      MovesSnoc(c, before + init, k);
      if Moves(c, before + late) == Moves(c, before) {
        assert init[..|init|] == init;
        StillOn(c, before, init, k);
      }
    }
  }

  lemma TurnMoves(c: Config, before: seq<Tick>, round: seq<Tick>, w: Tick)
    requires Step(c, After(c, before), w) != After(c, before) && w in round
    ensures !Still(c, before, round)
  {
    var i :| 0 <= i < |round| && round[i] == w;
    var upTo := before + round[..i];
    assert before + round[..i + 1] == upTo + [w];
    Runs.RunSnoc(Stepper(c), Init(c), upTo, w);
    if After(c, upTo) == After(c, before) {
      assert After(c, before + round[..i + 1]) == Step(c, After(c, upTo), w);
    }
  }

  lemma RoundMoves(c: Config, before: seq<Tick>, round: seq<Tick>)
    requires !Quiet(c, After(c, before)) && Runs.Round(Actor(), ACTORS, round)
    ensures Moves(c, before + round) > Moves(c, before)
  {
    MovesGrow(c, before, round);
    var w := if Step(c, After(c, before), Produce) != After(c, before) then Produce else Consume;
    assert w in ACTORS && Runs.HasTurn(Actor(), round, w);
    TurnMoves(c, before, round, w);
  }

  lemma {:induction false} EachRoundMoves(c: Config, rounds: seq<seq<Tick>>)
    requires forall i | 0 <= i < |rounds| :: Runs.Round(Actor(), ACTORS, rounds[i])
    requires forall i | 0 <= i < |rounds| :: !Quiet(c, After(c, Runs.Flatten(rounds[..i])))
    ensures Moves(c, Runs.Flatten(rounds)) >= |rounds|
  {
    if rounds != [] {
      var n := |rounds| - 1;
      forall i | 0 <= i < n ensures rounds[..n][..i] == rounds[..i] {
      }
      EachRoundMoves(c, rounds[..n]);
      RoundMoves(c, Runs.Flatten(rounds[..n]), rounds[n]);
    }
  }

  /** Spurious wakeups, wherever they fall, delay rest by at most three rounds each. */
  lemma RestInSpiteOfWakeups(c: Config, rounds: seq<seq<Tick>>) returns (i: nat)
    requires forall j | 0 <= j < |rounds| :: Runs.Round(Actor(), ACTORS, rounds[j])
    requires |rounds| > 26 * c.rounds + 28 + 3 * Wakeups(Runs.Flatten(rounds))
    ensures i < |rounds| && Quiet(c, After(c, Runs.Flatten(rounds[..i])))
  {
    MovesAreBounded(c, Runs.Flatten(rounds));
    if forall j | 0 <= j < |rounds| :: !Quiet(c, After(c, Runs.Flatten(rounds[..j]))) {
      EachRoundMoves(c, rounds);
      assert false;
    }
    i :| 0 <= i < |rounds| && Quiet(c, After(c, Runs.Flatten(rounds[..i])));
  }

  // ----- The program, updated in place -----

  class Program {
    var owner: Owner
    var data: nat
    var ready: bool
    var producer: ProducerPc
    var made: nat
    var customer: CustomerPc
    var used: nat
    ghost var produced: seq<nat>
    ghost var consumed: seq<nat>
    ghost var lost: seq<nat>

    ghost function Contents(): State
      reads this
    {
      State(owner, data, ready, producer, made, customer, used, produced, consumed, lost)
    }

    constructor (c: Config)
      ensures Contents() == Init(c)
    {
      owner, data, ready := Free, 0, false;
      producer, made, customer, used := ProducerHead(c, 0), 0, CustomerHead(c, 0), 0;
      produced, consumed, lost := [], [], [];
    }

    method Produce(c: Config)
      modifies this
      ensures Contents() == ProducerStep(c, old(Contents()))
    {
      match producer {
        case PLock =>
          if owner == Free {
            owner, producer := Owner.Producer, PWrite;
          }
        case PWrite =>
          if ready {
            lost := lost + [data];
          }
          data := c.rand(made) % 100;
          produced := produced + [data];
          producer := PReady;
        case PReady =>
          ready := true;
          producer := PSignal;
        case PSignal =>
          if customer == CParked {
            customer := CWoken;
          }
          producer := PUnlock;
        case PUnlock =>
          owner := Free;
          made := made + 1;
          producer := ProducerHead(c, made);
        case PDone =>
      }
    }

    method Consume(c: Config)
      modifies this
      ensures Contents() == CustomerStep(c, old(Contents()))
    {
      match customer {
        case CLock =>
          if owner == Free {
            owner, customer := Owner.Customer, CCheck;
          }
        case CCheck =>
          if ready {
            customer := CTake;
          } else {
            owner, customer := Free, CParked;
          }
        case CParked =>
        case CWoken =>
          if owner == Free {
            owner, customer := Owner.Customer, CCheck;
          }
        case CTake =>
          consumed := consumed + [data];
          customer := CClear;
        case CClear =>
          ready := false;
          customer := CUnlock;
        case CUnlock =>
          owner := Free;
          used := used + 1;
          customer := CustomerHead(c, used);
        case CDone =>
      }
    }

    /** A whole schedule, from the start. */
    method Go(c: Config, sched: seq<Tick>)
      requires Contents() == Init(c)
      modifies this
      ensures Contents() == After(c, sched)
    {
      for i := 0 to |sched|
        invariant Contents() == After(c, sched[..i])
      {
        match sched[i] {
          case Produce => Produce(c);
          case Consume => Consume(c);
          case Spurious =>
            if customer == CParked {
              customer := CWoken;
            }
        }
        assert sched[..i + 1] == sched[..i] + [sched[i]];
        Runs.RunSnoc(Stepper(c), Init(c), sched[..i], sched[i]);
      }
      assert sched[..|sched|] == sched;
    }
  }
}
