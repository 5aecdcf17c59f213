/** The readers and writers of 4-Thread/task4.c: a writer's loop counter is the shared value itself,
    and readers report that value repeatedly inside one read section. */
module ReadersWriters {
  import Runs
  import opened Sequences

  /** How many threads of each kind, how often a reader reads, and the bound of the writers' loop. */
  datatype Config = Config(readers: nat, writers: nat, loops: nat, bound: nat)

  datatype ReaderPc = RLock | RRead | RUnlock | RDone

  /** seen: what was reported; late: some writer had released the lock when this reader was admitted. */
  datatype Reader = Reader(pc: ReaderPc, seen: seq<nat>, late: bool)

  datatype WriterPc =
    | WLock
    | WInit    // data = 0
    | WTest    // data < OW_NUM_THREADS
    | WLog     // log_info(.., data)
    | WRead    // the read of ++data
    | WStore   // the write of ++data
    | WUnlock
    | WDone

  /** tmp: the value read by ++data; turns: completed rounds of the loop. */
  datatype Writer = Writer(pc: WriterPc, tmp: nat, turns: nat)

  datatype Exclusive = Nobody | By(w: nat)

  /** The lock: the readers that hold it, and the writer that holds it.  released records whether a
      writer has ever released it. */
  datatype State = State(
    sharers: set<nat>, owner: Exclusive, data: nat, released: bool, rs: seq<Reader>, ws: seq<Writer>)

  datatype Tick = ReadTick(p: nat) | WriteTick(p: nat)

  function ReaderHead(c: Config, n: nat): ReaderPc {
    if n < c.loops then RRead else RUnlock
  }

  function Init(c: Config): State {
    State({}, Nobody, 0, false, seq(c.readers, _ => Reader(RLock, [], false)), seq(c.writers, _ => Writer(WLock, 0, 0)))
  }

  function ReaderStep(c: Config, s: State, p: nat): State
    requires p < |s.rs|
  {
    var r := s.rs[p];
    match r.pc
    case RLock =>
      if s.owner == Nobody then
        s.(sharers := s.sharers + {p}, rs := s.rs[p := Reader(ReaderHead(c, 0), [], s.released)])
      else s
    case RRead =>
      s.(rs := s.rs[p := r.(pc := ReaderHead(c, |r.seen| + 1), seen := r.seen + [s.data])])
    case RUnlock => s.(sharers := s.sharers - {p}, rs := s.rs[p := r.(pc := RDone)])
    case RDone => s
  }

  function WriterStep(c: Config, s: State, p: nat): State
    requires p < |s.ws|
  {
    var w := s.ws[p];
    match w.pc
    case WLock =>
      if s.owner == Nobody && s.sharers == {} then s.(owner := By(p), ws := s.ws[p := w.(pc := WInit)]) else s
    case WInit => s.(data := 0, ws := s.ws[p := w.(pc := WTest)])
    case WTest => s.(ws := s.ws[p := w.(pc := if s.data < c.bound then WLog else WUnlock)])
    case WLog => s.(ws := s.ws[p := w.(pc := WRead)])
    case WRead => s.(ws := s.ws[p := w.(pc := WStore, tmp := s.data)])
    case WStore => s.(data := w.tmp + 1, ws := s.ws[p := w.(pc := WTest, turns := w.turns + 1)])
    case WUnlock => s.(owner := Nobody, released := true, ws := s.ws[p := w.(pc := WDone)])
    case WDone => s
  }

  function Step(c: Config, s: State, k: Tick): State {
    match k
    case ReadTick(p) => if p < |s.rs| then ReaderStep(c, s, p) else s
    case WriteTick(p) => if p < |s.ws| then WriterStep(c, s, p) else s
  }

  function Stepper(c: Config): (State, Tick) -> State {
    (s: State, k: Tick) => Step(c, s, k)
  }

  function After(c: Config, sched: seq<Tick>): State {
    Runs.Run(Stepper(c), Init(c), sched)
  }

  // ----- The invariant -----

  predicate Reading(r: Reader) {
    r.pc == RRead || r.pc == RUnlock
  }

  predicate Writing(w: Writer) {
    w.pc != WLock && w.pc != WDone
  }

  /** What a reader admitted early or late reports. */
  function Expected(c: Config, late: bool): nat {
    if late then c.bound else 0
  }

  predicate ReaderOk(c: Config, s: State, p: nat)
    requires p < |s.rs|
  {
    var r := s.rs[p];
    && (Reading(r) <==> p in s.sharers)
    && (Reading(r) ==> r.late == s.released)
    && (forall j | 0 <= j < |r.seen| :: r.seen[j] == Expected(c, r.late))
    && (r.pc == RLock ==> r.seen == [])
    && (r.pc == RRead ==> |r.seen| < c.loops)
    && (r.pc == RUnlock || r.pc == RDone ==> |r.seen| == c.loops)
  }

  predicate WriterOk(c: Config, s: State, p: nat)
    requires p < |s.ws|
  {
    var w := s.ws[p];
    && (Writing(w) <==> s.owner == By(p))
    && match w.pc
       case WLock => w.turns == 0
       case WInit => w.turns == 0
       case WTest => w.turns == s.data <= c.bound
       case WStore => w.turns == s.data == w.tmp < c.bound
       case WUnlock => w.turns == s.data == c.bound
       case WDone => w.turns == c.bound && s.released
       case _ => w.turns == s.data < c.bound
  }

  predicate LockOk(c: Config, s: State) {
    && |s.rs| == c.readers && |s.ws| == c.writers
    && (forall p | p in s.sharers :: p < |s.rs|)
    && (s.owner.By? ==> s.owner.w < |s.ws| && s.sharers == {})
    && (s.owner == Nobody ==> s.data == Expected(c, s.released))
  }

  predicate Inv(c: Config, s: State) {
    && LockOk(c, s)
    && (forall p: nat | p < |s.rs| :: ReaderOk(c, s, p))
    && (forall p: nat | p < |s.ws| :: WriterOk(c, s, p))
  }

  lemma ReaderStepSound(c: Config, s: State, p: nat)
    requires Inv(c, s) && p < |s.rs|
    ensures Inv(c, ReaderStep(c, s, p))
  {
    var s' := ReaderStep(c, s, p);
    assert ReaderOk(c, s, p);
    forall q: nat | q < |s'.rs| ensures ReaderOk(c, s', q) {
      assert ReaderOk(c, s, q);
    }
    forall q: nat | q < |s'.ws| ensures WriterOk(c, s', q) {
      assert WriterOk(c, s, q);
    }
  }

  lemma WriterStepSound(c: Config, s: State, p: nat)
    requires Inv(c, s) && p < |s.ws|
    ensures Inv(c, WriterStep(c, s, p))
  {
    var s' := WriterStep(c, s, p);
    assert WriterOk(c, s, p);
    forall q: nat | q < |s'.rs| ensures ReaderOk(c, s', q) {
      assert ReaderOk(c, s, q);
    }
    forall q: nat | q < |s'.ws| ensures WriterOk(c, s', q) {
      assert WriterOk(c, s, q);
    }
  }

  lemma StepKeepsInv(c: Config, s: State, k: Tick)
    requires Inv(c, s)
    ensures Inv(c, Step(c, s, k))
  {
    match k
    case ReadTick(p) =>
      if p < |s.rs| {
        ReaderStepSound(c, s, p);
      }
    case WriteTick(p) =>
      if p < |s.ws| {
        WriterStepSound(c, s, p);
      }
  }

  function Invariant(c: Config): State -> bool {
    (s: State) => Inv(c, s)
  }

  lemma Kept(c: Config)
    ensures Runs.Kept(Stepper(c), Invariant(c)) && Invariant(c)(Init(c))
  {
    forall s, k | Invariant(c)(s) ensures Invariant(c)(Stepper(c)(s, k)) {
      StepKeepsInv(c, s, k);
    }
  }

  lemma ReachableInv(c: Config, sched: seq<Tick>)
    ensures Inv(c, After(c, sched))
  {
    Kept(c);
    Runs.KeptInRun(Stepper(c), Invariant(c), Init(c), sched);
  }

  // ----- What the program promises -----

  /** While a writer is in its section, no reader and no other writer is. */
  lemma Exclusion(c: Config, sched: seq<Tick>, p: nat, q: nat)
    requires p < |After(c, sched).ws| && Writing(After(c, sched).ws[p])
    ensures q < |After(c, sched).rs| ==> !Reading(After(c, sched).rs[q])
    ensures q < |After(c, sched).ws| && Writing(After(c, sched).ws[q]) ==> p == q
  {
    ReachableInv(c, sched);
    var s := After(c, sched);
    assert WriterOk(c, s, p);
    if q < |s.rs| {
      assert ReaderOk(c, s, q);
    }
    if q < |s.ws| {
      assert WriterOk(c, s, q);
    }
  }

  /** A reader waits for writers only: it is held up exactly while a writer is in its section. */
  lemma ReaderHeldUpIff(c: Config, sched: seq<Tick>, p: nat)
    requires p < |After(c, sched).rs| && After(c, sched).rs[p].pc == RLock
    ensures var s := After(c, sched);
            Step(c, s, ReadTick(p)) == s <==> exists w: nat :: w < |s.ws| && Writing(s.ws[w])
  {
    ReachableInv(c, sched);
    var s := After(c, sched);
    if s.owner.By? {
      assert WriterOk(c, s, s.owner.w);
    } else {
      forall w: nat | w < |s.ws| ensures !Writing(s.ws[w]) {
        assert WriterOk(c, s, w);
      }
      assert Step(c, s, ReadTick(p)).rs[p].pc != RLock;
    }
  }

  /** A writer waits for everyone: it is held up exactly while some thread is in its section. */
  lemma WriterHeldUpIff(c: Config, sched: seq<Tick>, p: nat)
    requires p < |After(c, sched).ws| && After(c, sched).ws[p].pc == WLock
    ensures var s := After(c, sched);
            Step(c, s, WriteTick(p)) == s <==>
            (exists r: nat :: r < |s.rs| && Reading(s.rs[r])) || (exists w: nat :: w < |s.ws| && Writing(s.ws[w]))
  {
    ReachableInv(c, sched);
    var s := After(c, sched);
    if s.owner.By? {
      assert WriterOk(c, s, s.owner.w);
    } else if r :| r in s.sharers {
      assert ReaderOk(c, s, r);
    } else {
      forall w: nat | w < |s.ws| ensures !Writing(s.ws[w]) {
        assert WriterOk(c, s, w);
      }
      forall r: nat | r < |s.rs| ensures !Reading(s.rs[r]) {
        assert ReaderOk(c, s, r);
      }
      assert Step(c, s, WriteTick(p)).ws[p].pc != WLock;
    }
  }

  /** Readers share the lock: all of them can be inside at once. */
  lemma {:induction false} AllInside(c: Config, n: nat)
    requires n <= c.readers
    ensures var s := After(c, seq(n, i requires 0 <= i => ReadTick(i)));
            && s.owner == Nobody && |s.rs| == c.readers
            && (forall p | 0 <= p < n :: Reading(s.rs[p]))
            && (forall p | n <= p < c.readers :: s.rs[p].pc == RLock)
  {
    if n > 0 {
      var before := seq(n - 1, i requires 0 <= i => ReadTick(i));
      AllInside(c, n - 1);
      Runs.RunSnoc(Stepper(c), Init(c), before, ReadTick(n - 1));
      assert seq(n, i requires 0 <= i => ReadTick(i)) == before + [ReadTick(n - 1)];
    }
  }

  /** The values of data at the moments when reader p reads it. */
  ghost function Observed(c: Config, sched: seq<Tick>, p: nat): seq<nat> {
    if sched == [] then []
    else
      var n := |sched| - 1;
      var s := After(c, sched[..n]);
      Observed(c, sched[..n], p) + if sched[n] == ReadTick(p) && p < |s.rs| && s.rs[p].pc == RRead then [s.data] else []
  }

  lemma StepObserves(c: Config, s: State, k: Tick, p: nat)
    requires Inv(c, s) && p < |s.rs|
    ensures var s' := Step(c, s, k);
            && |s'.rs| == |s.rs|
            && s'.rs[p].seen == s.rs[p].seen + if k == ReadTick(p) && s.rs[p].pc == RRead then [s.data] else []
  {
    assert ReaderOk(c, s, p);
  }

  lemma {:induction false} SeenIsObserved(c: Config, sched: seq<Tick>, p: nat)
    requires p < c.readers
    ensures p < |After(c, sched).rs| && After(c, sched).rs[p].seen == Observed(c, sched, p)
  {
    if sched != [] {
      var n := |sched| - 1;
      SeenIsObserved(c, sched[..n], p);
      ReachableInv(c, sched[..n]);
      StepObserves(c, After(c, sched[..n]), sched[n], p);
    }
  }

  /** All values a reader reads in its section are equal: 0 if no writer had released the lock when
      it was admitted, and the writers' bound if one had; never anything in between.  And it reads as
      often as it should. */
  lemma StableReads(c: Config, sched: seq<Tick>, p: nat)
    requires p < |After(c, sched).rs|
    ensures var r := After(c, sched).rs[p];
            && r.seen == Observed(c, sched, p)
            && (forall j | 0 <= j < |r.seen| :: r.seen[j] == if r.late then c.bound else 0)
            && (r.pc == RDone ==> |r.seen| == c.loops)
  {
    ReachableInv(c, sched);
    assert ReaderOk(c, After(c, sched), p);
    SeenIsObserved(c, sched, p);
  }

  /** Being late is settled at admission: it is whether a writer had released by then. */
  lemma LateMeansReleased(c: Config, sched: seq<Tick>, p: nat)
    requires p < |After(c, sched).rs| && After(c, sched).rs[p].pc == RLock
    ensures var s' := After(c, sched + [ReadTick(p)]);
            p < |s'.rs| && (s'.rs[p].pc != RLock ==> s'.rs[p].late == exists w: nat :: w < |After(c, sched).ws| && After(c, sched).ws[w].pc == WDone)
  {
    ReleasedMeansDone(c, sched);
    ReachableInv(c, sched);
    Runs.RunSnoc(Stepper(c), Init(c), sched, ReadTick(p));
  }

  ghost predicate SomeWriterDone(s: State) {
    exists w: nat :: w < |s.ws| && s.ws[w].pc == WDone
  }

  lemma StepReleases(c: Config, s: State, k: Tick)
    requires s.released <==> SomeWriterDone(s)
    ensures Step(c, s, k).released <==> SomeWriterDone(Step(c, s, k))
  {
    var s' := Step(c, s, k);
    if w: nat :| w < |s.ws| && s.ws[w].pc == WDone {
      assert s'.ws[w].pc == WDone;
    } else if s'.released {
      assert s'.ws[k.p].pc == WDone;
    }
  }

  lemma {:induction false} ReleasedMeansDone(c: Config, sched: seq<Tick>)
    ensures After(c, sched).released <==> SomeWriterDone(After(c, sched))
  {
    if sched != [] {
      var n := |sched| - 1;
      ReleasedMeansDone(c, sched[..n]);
      StepReleases(c, After(c, sched[..n]), sched[n]);
    }
  }

  /** How often writer p has stored a new value of data. */
  ghost function Stores(c: Config, sched: seq<Tick>, p: nat): nat {
    if sched == [] then 0
    else
      var n := |sched| - 1;
      var s := After(c, sched[..n]);
      Stores(c, sched[..n], p) + if sched[n] == WriteTick(p) && p < |s.ws| && s.ws[p].pc == WStore then 1 else 0
  }

  lemma StepTurns(c: Config, s: State, k: Tick, p: nat)
    requires p < |s.ws|
    ensures var s' := Step(c, s, k);
            && |s'.ws| == |s.ws|
            && s'.ws[p].turns == s.ws[p].turns + if k == WriteTick(p) && s.ws[p].pc == WStore then 1 else 0
  {
  }

  lemma {:induction false} StoresAreTurns(c: Config, sched: seq<Tick>, p: nat)
    requires p < c.writers
    ensures p < |After(c, sched).ws| && After(c, sched).ws[p].turns == Stores(c, sched, p)
  {
    if sched != [] {
      var n := |sched| - 1;
      StoresAreTurns(c, sched[..n], p);
      StepTurns(c, After(c, sched[..n]), sched[n], p);
    }
  }

  /** Whatever the interleaving, a writer's loop stores exactly bound times, and leaves bound behind; in
      between, the shared value is the number of its stores so far. */
  lemma WriterTurns(c: Config, sched: seq<Tick>, p: nat)
    requires p < |After(c, sched).ws|
    ensures var s := After(c, sched);
            && s.ws[p].turns == Stores(c, sched, p) <= c.bound
            && (s.ws[p].pc == WUnlock || s.ws[p].pc == WDone ==> Stores(c, sched, p) == c.bound)
            && (s.ws[p].pc == WUnlock ==> s.data == c.bound)
            && (Writing(s.ws[p]) && s.ws[p].pc != WInit ==> s.data == Stores(c, sched, p))
  {
    ReachableInv(c, sched);
    assert WriterOk(c, After(c, sched), p);
    StoresAreTurns(c, sched, p);
  }

  // ----- Termination -----

  function ReaderDistance(c: Config): Reader -> nat {
    (r: Reader) =>
      match r.pc
      case RLock => c.loops + 3
      case RRead => (if |r.seen| < c.loops then c.loops - |r.seen| else 0) + 2
      case RUnlock => 1
      case RDone => 0
  }

  function WriterDistance(c: Config): Writer -> nat {
    (w: Writer) =>
      var left := if w.turns < c.bound then c.bound - w.turns else 0;
      match w.pc
      case WLock => 4 * left + 4
      case WInit => 4 * left + 3
      case WTest => 4 * left + 2
      case WLog => 4 * left + 1
      case WRead => 4 * left
      case WStore => 4 * left - (if left > 0 then 1 else 0)
      case WUnlock => 1
      case WDone => 0
  }

  function Distance(c: Config): State -> nat {
    (s: State) => Sum(ReaderDistance(c), s.rs) + Sum(WriterDistance(c), s.ws)
  }

  predicate AllDone(s: State) {
    && (forall p | 0 <= p < |s.rs| :: s.rs[p].pc == RDone)
    && (forall p | 0 <= p < |s.ws| :: s.ws[p].pc == WDone)
  }

  function Ended(): State -> bool {
    (s: State) => AllDone(s)
  }

  function Actor(): Tick -> Tick {
    (k: Tick) => k
  }

  predicate IsActor(c: Config, k: Tick) {
    match k
    case ReadTick(p) => p < c.readers
    case WriteTick(p) => p < c.writers
  }

  function Actors(c: Config): set<Tick> {
    (set p: nat | p < c.readers && IsActor(c, ReadTick(p)) :: ReadTick(p)) +
    (set p: nat | p < c.writers && IsActor(c, WriteTick(p)) :: WriteTick(p))
  }

  lemma ReaderDescends(c: Config, s: State, p: nat)
    requires p < |s.rs| && ReaderOk(c, s, p) && ReaderStep(c, s, p) != s
    ensures Distance(c)(ReaderStep(c, s, p)) < Distance(c)(s)
  {
    var s' := ReaderStep(c, s, p);
    assert s'.rs == s.rs[p := s'.rs[p]] && s'.ws == s.ws;
    assert ReaderDistance(c)(s'.rs[p]) < ReaderDistance(c)(s.rs[p]);
    SumUpdate(ReaderDistance(c), s.rs, p, s'.rs[p]);
  }

  lemma WriterDescends(c: Config, s: State, p: nat)
    requires p < |s.ws| && WriterOk(c, s, p) && WriterStep(c, s, p) != s
    ensures Distance(c)(WriterStep(c, s, p)) < Distance(c)(s)
  {
    var s' := WriterStep(c, s, p);
    assert s'.ws == s.ws[p := s'.ws[p]] && s'.rs == s.rs;
    assert WriterDistance(c)(s'.ws[p]) < WriterDistance(c)(s.ws[p]);
    SumUpdate(WriterDistance(c), s.ws, p, s'.ws[p]);
  }

  lemma StepDescends(c: Config, s: State, k: Tick)
    requires Inv(c, s) && Step(c, s, k) != s
    ensures Distance(c)(Step(c, s, k)) < Distance(c)(s)
  {
    match k
    case ReadTick(p) => ReaderDescends(c, s, p);
    case WriteTick(p) => WriterDescends(c, s, p);
  }

  /** A writer in its section can move; so can a reader in its; and if nobody is in, anyone can enter. */
  lemma SomeoneMoves(c: Config, s: State) returns (k: Tick)
    requires Inv(c, s) && !AllDone(s)
    ensures k in Actors(c) && Step(c, s, k) != s
  {
    if s.owner.By? {
      k := WriteTick(s.owner.w);
      assert WriterOk(c, s, s.owner.w);
    } else if s.sharers != {} {
      var p :| p in s.sharers;
      k := ReadTick(p);
      assert ReaderOk(c, s, p);
    } else if p :| 0 <= p < |s.rs| && s.rs[p].pc != RDone {
      k := ReadTick(p);
      assert ReaderOk(c, s, p);
    } else {
      var p :| 0 <= p < |s.ws| && s.ws[p].pc != WDone;
      k := WriteTick(p);
      assert WriterOk(c, s, p);
    }
    assert IsActor(c, k);
    match k
    case ReadTick(p) => assert Step(c, s, k).rs[p] != s.rs[p];
    case WriteTick(p) => assert Step(c, s, k).ws[p] != s.ws[p];
  }

  lemma Live(c: Config)
    ensures Runs.Descends(Stepper(c), Invariant(c), Distance(c))
    ensures Runs.LiveUntil(Stepper(c), Actor(), Invariant(c), Ended(), Actors(c))
  {
    forall s, k | Invariant(c)(s) && Stepper(c)(s, k) != s ensures Distance(c)(Stepper(c)(s, k)) < Distance(c)(s) {
      StepDescends(c, s, k);
    }
    forall s | Invariant(c)(s) && !Ended()(s)
      ensures exists k :: k in Actors(c) && Runs.CanMove(Stepper(c), Actor(), s, k)
    {
      var k := SomeoneMoves(c, s);
      assert Actor()(k) == k && Stepper(c)(s, k) != s;
      assert k in Actors(c) && Runs.CanMove(Stepper(c), Actor(), s, k);
    }
  }

  lemma InitDistance(c: Config)
    ensures Distance(c)(Init(c)) <= c.readers * (c.loops + 3) + c.writers * (4 * c.bound + 4)
  {
    SumBounds(ReaderDistance(c), Init(c).rs, c.loops + 3);
    SumBounds(WriterDistance(c), Init(c).ws, 4 * c.bound + 4);
  }

  /** Every fair run ends with all threads finished, and with the writers' bound as the shared value
      if there is a writer at all. */
  lemma FairRunsTerminate(c: Config, rounds: seq<seq<Tick>>)
    requires |rounds| >= c.readers * (c.loops + 3) + c.writers * (4 * c.bound + 4)
    requires forall i | 0 <= i < |rounds| :: Runs.Round(Actor(), Actors(c), rounds[i])
    ensures var s := After(c, Runs.Flatten(rounds));
            AllDone(s) && s.data == if c.writers > 0 then c.bound else 0
  {
    Kept(c);
    Live(c);
    InitDistance(c);
    Runs.FairRunsEnd(Stepper(c), Actor(), Invariant(c), Ended(), Distance(c), Actors(c), Init(c), rounds);
    var s := After(c, Runs.Flatten(rounds));
    assert Ended()(s) && Invariant(c)(s);
    forall p: nat | p < |s.ws| ensures s.owner != By(p) {
      assert WriterOk(c, s, p);
    }
    ReleasedMeansDone(c, Runs.Flatten(rounds));
    if c.writers > 0 {
      assert s.ws[0].pc == WDone;
    }
  }

  // ----- The program, updated in place -----

  class Program {
    var sharers: set<nat>
    var owner: Exclusive
    var data: nat
    var released: bool
    const rs: array<Reader>
    const ws: array<Writer>

    ghost function Contents(): State
      reads this, rs, ws
    {
      State(sharers, owner, data, released, rs[..], ws[..])
    }

    constructor (c: Config)
      ensures Contents() == Init(c) && fresh(rs) && fresh(ws)
    {
      sharers, owner, data, released := {}, Nobody, 0, false;
      rs := new Reader[c.readers](_ => Reader(RLock, [], false));
      ws := new Writer[c.writers](_ => Writer(WLock, 0, 0));
      new;
      assert rs[..] == Init(c).rs && ws[..] == Init(c).ws;
    }

    /** A writer's section, uninterrupted: the loop runs on the shared value. */
    method WriterEntry(c: Config) returns (turns: nat)
      requires owner == Nobody && sharers == {}
      modifies this`owner, this`data
      ensures owner == Nobody && data == c.bound && turns == c.bound
    {
      owner := By(0);
      data, turns := 0, 0;
      while data < c.bound
        invariant turns == data <= c.bound
      {
        data := data + 1;
        turns := turns + 1;
      }
      owner := Nobody;
    }

    /** Reader p takes its next step. */
    method Read(c: Config, p: nat)
      requires p < rs.Length
      modifies this`sharers, rs
      ensures Contents() == ReaderStep(c, old(Contents()), p)
    {
      var r := rs[p];
      match r.pc {
        case RLock =>
          if owner == Nobody {
            sharers := sharers + {p};
            rs[p] := Reader(ReaderHead(c, 0), [], released);
          }
        case RRead => rs[p] := r.(pc := ReaderHead(c, |r.seen| + 1), seen := r.seen + [data]);
        case RUnlock =>
          sharers := sharers - {p};
          rs[p] := r.(pc := RDone);
        case RDone =>
      }
    }

    /** Writer p takes its next step. */
    method Write(c: Config, p: nat)
      requires p < ws.Length
      modifies this`owner, this`data, this`released, ws
      ensures Contents() == WriterStep(c, old(Contents()), p)
    {
      var w := ws[p];
      match w.pc {
        case WLock =>
          if owner == Nobody && sharers == {} {
            owner := By(p);
            ws[p] := w.(pc := WInit);
          }
        case WInit =>
          data := 0;
          ws[p] := w.(pc := WTest);
        case WTest => ws[p] := w.(pc := if data < c.bound then WLog else WUnlock);
        case WLog => ws[p] := w.(pc := WRead);
        case WRead => ws[p] := w.(pc := WStore, tmp := data);
        case WStore =>
          data := w.tmp + 1;
          ws[p] := w.(pc := WTest, turns := w.turns + 1);
        case WUnlock =>
          owner, released := Nobody, true;
          ws[p] := w.(pc := WDone);
        case WDone =>
      }
    }

    /** A whole schedule, from the start. */
    method Go(c: Config, sched: seq<Tick>)
      requires Contents() == Init(c)
      modifies this, rs, ws
      ensures Contents() == After(c, sched)
    {
      for i := 0 to |sched|
        invariant Contents() == After(c, sched[..i])
      {
        match sched[i] {
          case ReadTick(p) =>
            if p < rs.Length {
              Read(c, p);
            }
          case WriteTick(p) =>
            if p < ws.Length {
              Write(c, p);
            }
        }
        assert sched[..i + 1] == sched[..i] + [sched[i]];
        Runs.RunSnoc(Stepper(c), Init(c), sched[..i], sched[i]);
      }
      assert sched[..|sched|] == sched;
    }
  }
}
