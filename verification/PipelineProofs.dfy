/** What the pipeline guarantees: nothing is lost, ls never loses its reader, end-of-file comes
    exactly at the end, and every fair run ends with both children reaped. */
module PipelineProofs {
  import Runs
  import opened Pipeline

  lemma ValueIn(t: Table, fd: nat, e: End)
    requires fd in t && t[fd] == e
    ensures e in t.Values
  {
  }

  lemma ParentKeepsParent(c: Config, s: State)
    requires c.Valid() && Inv(c, s)
    ensures ParentOk(c, ParentStep(c, s))
  {
    match s.parent.pc
    case CloseRead => assert WithPipe(c) - {c.r} == c.inherited[c.w := WriteEnd];
    case CloseWrite => assert c.inherited[c.w := WriteEnd] - {c.w} == c.inherited;
    case _ =>
  }

  ghost predicate RestOk(c: Config, s: State) {
    && ChildOk(c, s.parent.pc, 0, STDOUT, WriteEnd, s.ls)
    && ChildOk(c, s.parent.pc, 1, STDIN, ReadEnd, s.wc)
    && DataOk(c, s)
  }

  lemma ForkKeepsRest(c: Config, s: State)
    requires c.Valid() && Inv(c, s) && s.parent.pc.Fork?
    ensures RestOk(c, ParentStep(c, s))
  {
  }

  lemma WaitKeepsRest(c: Config, s: State)
    requires c.Valid() && Inv(c, s) && s.parent.pc.WaitFor?
    ensures RestOk(c, ParentStep(c, s))
  {
    if s.parent.pc.i < 2 {
      assert s.cid[s.parent.pc.i] == if s.parent.pc.i == 0 then Ls else Wc;
    }
  }

  lemma ParentKeepsRest(c: Config, s: State)
    requires c.Valid() && Inv(c, s)
    ensures RestOk(c, ParentStep(c, s))
  {
    if s.parent.pc.Fork? {
      ForkKeepsRest(c, s);
    } else if s.parent.pc.WaitFor? {
      WaitKeepsRest(c, s);
    }
  }

  lemma ParentKeepsInv(c: Config, s: State)
    requires c.Valid() && Inv(c, s)
    ensures Inv(c, ParentStep(c, s))
  {
    ParentKeepsParent(c, s);
    ParentKeepsRest(c, s);
  }

  lemma SetUpKeepsOk(c: Config, parent: Pc, i: nat, redirectFd: nat, end: End, pr: Proc)
    requires c.Valid() && ChildOk(c, parent, i, redirectFd, end, pr) && pr.pc != Running
    requires (redirectFd == STDOUT && end == WriteEnd) || (redirectFd == STDIN && end == ReadEnd)
    ensures ChildOk(c, parent, i, redirectFd, end, SetUp(c, redirectFd, pr))
    ensures Done(SetUp(c, redirectFd, pr)) == Done(pr)
  {
    var used := UsedFd(c, redirectFd);
    match pr.pc
    case CloseUnused => assert WithPipe(c) - {UnusedFd(c, redirectFd)} == c.inherited[used := end];
    case CloseOriginal =>
      assert c.inherited[used := end][redirectFd := end] - {used} == c.inherited[redirectFd := end];
    case _ =>
  }

  /** ls always has a reader: the parent until its cleanup, and wc from its fork on. */
  lemma LsHasReader(c: Config, s: State)
    requires c.Valid() && Inv(c, s) && s.ls.pc != Unborn && !Done(s.ls)
    ensures Open(s, ReadEnd)
  {
    if s.parent.fds == WithPipe(c) {
      ValueIn(s.parent.fds, c.r, ReadEnd);
    } else {
      ValueIn(s.wc.fds, if s.wc.pc.Exec? || s.wc.pc.Running? then STDIN else c.r, ReadEnd);
    }
  }

  /** wc finds the write end closed only after ls has exited and the parent has cleaned up. */
  lemma WriteEndClosed(c: Config, s: State)
    requires c.Valid() && Inv(c, s) && s.wc.pc == Running
    ensures Open(s, WriteEnd) <==> !(Done(s.ls) && (s.parent.pc.WaitFor? || s.parent.pc.Exited?))
  {
    if !s.parent.pc.WaitFor? && !s.parent.pc.Exited? {
      ValueIn(s.parent.fds, c.w, WriteEnd);
    } else if !Done(s.ls) {
      ValueIn(s.ls.fds, if s.ls.pc.Exec? || s.ls.pc.Running? then STDOUT else c.w, WriteEnd);
    }
  }

  lemma LsKeepsInv(c: Config, s: State, n: nat)
    requires c.Valid() && Inv(c, s)
    ensures Inv(c, LsStep(c, s, n))
  {
    if s.ls.pc != Running {
      SetUpKeepsOk(c, s.parent.pc, 0, STDOUT, WriteEnd, s.ls);
    } else {
      LsHasReader(c, s);
      if s.todo != [] && |s.pipe| < c.cap {
        var m := Chunk(n, Min(|s.todo|, c.cap - |s.pipe|));
        assert s.todo == s.todo[..m] + s.todo[m..];
      }
    }
  }

  lemma WcKeepsInv(c: Config, s: State, n: nat)
    requires c.Valid() && Inv(c, s)
    ensures Inv(c, WcStep(c, s, n))
  {
    if s.wc.pc != Running {
      SetUpKeepsOk(c, s.parent.pc, 1, STDIN, ReadEnd, s.wc);
    } else {
      WriteEndClosed(c, s);
      if s.pipe != [] {
        var m := Chunk(n, |s.pipe|);
        assert s.pipe == s.pipe[..m] + s.pipe[m..];
      }
    }
  }

  lemma StepKeepsInv(c: Config, s: State, k: Tick)
    requires c.Valid() && Inv(c, s)
    ensures Inv(c, Step(c, s, k))
  {
    match k.who
    case Parent => ParentKeepsInv(c, s);
    case Ls => LsKeepsInv(c, s, k.n);
    case Wc => WcKeepsInv(c, s, k.n);
  }

  lemma ReachableInv(c: Config, sched: seq<Tick>)
    requires c.Valid()
    ensures Inv(c, After(c, sched))
  {
    IsKept(c);
    Runs.KeptInRun(Stepper(c), Invariant(c), Init(c), sched);
  }

  // ----- Safety -----

  /** In every reachable state: what wc has read, what is in transit and what ls has yet to write
      make up the output of ls, in order; wc has seen end-of-file only if it has all of it; the pipe
      never overflows; and ls has never written without a reader. */
  lemma NothingLost(c: Config, sched: seq<Tick>)
    requires c.Valid()
    ensures var s := After(c, sched);
            && s.got + s.pipe + s.todo == c.out && s.got <= c.out
            && (s.eof ==> s.got == c.out)
            && |s.pipe| <= c.cap
            && !s.broken
  {
    ReachableInv(c, sched);
  }

  /** From its fork until its exit, ls has a reader; and while it runs its output goes to the pipe. */
  lemma ReaderThroughout(c: Config, sched: seq<Tick>)
    requires c.Valid()
    ensures var s := After(c, sched);
            && (s.ls.pc != Unborn && !Done(s.ls) ==> Open(s, ReadEnd))
            && (s.ls.pc == Running ==> STDOUT in s.ls.fds && s.ls.fds[STDOUT] == WriteEnd)
            && (s.wc.pc == Running ==> STDIN in s.wc.fds && s.wc.fds[STDIN] == ReadEnd)
  {
    ReachableInv(c, sched);
    var s := After(c, sched);
    if s.ls.pc != Unborn && !Done(s.ls) {
      LsHasReader(c, s);
    }
  }

  /** wc's next read gives end-of-file exactly when it has everything, ls is gone, and the parent
      has closed both ends. */
  lemma EndOfFileExactly(c: Config, sched: seq<Tick>, n: nat)
    requires c.Valid() && After(c, sched).wc.pc == Running
    ensures var s := After(c, sched);
            WcStep(c, s, n).eof <==> s.got == c.out && Done(s.ls) && (s.parent.pc.WaitFor? || s.parent.pc.Exited?)
  {
    ReachableInv(c, sched);
    WriteEndClosed(c, After(c, sched));
  }

  /** A write that need not wait moves as many bytes as the kernel likes, at least one and at most what
      there is room for. */
  lemma LsWritesAny(c: Config, sched: seq<Tick>, m: nat)
    requires c.Valid() && After(c, sched).ls.pc == Running
    requires 0 < m <= |After(c, sched).todo| && |After(c, sched).pipe| + m <= c.cap
    ensures var s := After(c, sched);
            After(c, sched + [Tick(Ls, m)]) == s.(pipe := s.pipe + s.todo[..m], todo := s.todo[m..])
  {
    ReachableInv(c, sched);
    LsHasReader(c, After(c, sched));
    Runs.RunSnoc(Stepper(c), Init(c), sched, Tick(Ls, m));
  }

  /** So does a read. */
  lemma WcReadsAny(c: Config, sched: seq<Tick>, m: nat)
    requires c.Valid() && After(c, sched).wc.pc == Running && 0 < m <= |After(c, sched).pipe|
    ensures var s := After(c, sched);
            After(c, sched + [Tick(Wc, m)]) == s.(got := s.got + s.pipe[..m], pipe := s.pipe[m..])
  {
    ReachableInv(c, sched);
    Runs.RunSnoc(Stepper(c), Init(c), sched, Tick(Wc, m));
  }

  lemma LsBlockedIff(c: Config, s: State, n: nat)
    requires c.Valid() && Inv(c, s) && s.ls.pc == Running
    ensures LsStep(c, s, n) == s <==> s.todo != [] && |s.pipe| == c.cap
  {
    LsHasReader(c, s);
    if s.todo != [] && |s.pipe| < c.cap {
      assert |LsStep(c, s, n).todo| < |s.todo|;
    }
  }

  lemma WcBlockedIff(c: Config, s: State, n: nat)
    requires c.Valid() && Inv(c, s) && s.wc.pc == Running
    ensures WcStep(c, s, n) == s <==> s.pipe == [] && !(Done(s.ls) && (s.parent.pc.WaitFor? || s.parent.pc.Exited?))
  {
    WriteEndClosed(c, s);
    if s.pipe != [] {
      assert |WcStep(c, s, n).pipe| < |s.pipe|;
    }
  }

  lemma ParentBlockedIff(c: Config, s: State)
    requires c.Valid() && Inv(c, s) && s.parent.pc.WaitFor?
    ensures ParentStep(c, s) == s <==>
            (s.parent.pc.i == 0 && s.ls.pc != Zombie) || (s.parent.pc.i == 1 && s.wc.pc != Zombie)
  {
    assert s.cid == [Ls, Wc];
  }

  /** Who has to wait, and for what: ls on a full pipe, wc on an empty one that somebody may still write,
      the parent for the child whose turn it is. */
  lemma HeldUpIff(c: Config, sched: seq<Tick>, n: nat)
    requires c.Valid()
    ensures var s := After(c, sched);
            && (s.ls.pc == Running ==> (Step(c, s, Tick(Ls, n)) == s <==> s.todo != [] && |s.pipe| == c.cap))
            && (s.wc.pc == Running ==>
                  (Step(c, s, Tick(Wc, n)) == s <==>
                   s.pipe == [] && !(Done(s.ls) && (s.parent.pc.WaitFor? || s.parent.pc.Exited?))))
            && (s.parent.pc.WaitFor? ==>
                  (Step(c, s, Tick(Parent, n)) == s <==>
                   (s.parent.pc.i == 0 && s.ls.pc != Zombie) || (s.parent.pc.i == 1 && s.wc.pc != Zombie)))
  {
    ReachableInv(c, sched);
    var s := After(c, sched);
    if s.ls.pc == Running {
      LsBlockedIff(c, s, n);
    }
    if s.wc.pc == Running {
      WcBlockedIff(c, s, n);
    }
    if s.parent.pc.WaitFor? {
      ParentBlockedIff(c, s);
    }
  }

  // ----- Termination -----

  function ParentRank(pc: Pc): nat {
    match pc
    case MakePipe => 10
    case Fork(i) => if i <= 2 then 9 - i else 0
    case CloseRead => 6
    case CloseWrite => 5
    case WaitFor(i) => if i <= 2 then 4 - i else 0
    case _ => 0
  }

  function ChildRank(pc: Pc): nat {
    match pc
    case Unborn => 6
    case CloseUnused => 5
    case Redirect => 4
    case CloseOriginal => 3
    case Exec => 2
    case Running => 1
    case _ => 0
  }

  function Measure(s: State): nat {
    ParentRank(s.parent.pc) + ChildRank(s.ls.pc) + ChildRank(s.wc.pc) + 2 * |s.todo| + |s.pipe|
  }

  predicate Final(s: State) {
    s.parent.pc == Exited
  }

  lemma ParentDescends(c: Config, s: State)
    requires c.Valid() && Inv(c, s)
    ensures ParentStep(c, s) == s || Measure(ParentStep(c, s)) < Measure(s)
  {
    if s.parent.pc.WaitFor? {
      WaitDescends(c, s);
    }
  }

  lemma WaitDescends(c: Config, s: State)
    requires c.Valid() && Inv(c, s) && s.parent.pc.WaitFor?
    ensures ParentStep(c, s) == s || Measure(ParentStep(c, s)) < Measure(s)
  {
    var i := s.parent.pc.i;
    if i < 2 {
      assert s.cid[i] == if i == 0 then Ls else Wc;
    }
  }

  lemma LsDescends(c: Config, s: State, n: nat)
    requires c.Valid() && Inv(c, s)
    ensures LsStep(c, s, n) == s || Measure(LsStep(c, s, n)) < Measure(s)
  {
    if s.ls.pc == Running {
      LsHasReader(c, s);
    }
  }

  lemma WcDescends(c: Config, s: State, n: nat)
    requires c.Valid() && Inv(c, s)
    ensures WcStep(c, s, n) == s || Measure(WcStep(c, s, n)) < Measure(s)
  {
  }

  lemma StepDescends(c: Config, s: State, k: Tick)
    requires c.Valid() && Inv(c, s)
    ensures Step(c, s, k) == s || Measure(Step(c, s, k)) < Measure(s)
  {
    match k.who
    case Parent => ParentDescends(c, s);
    case Ls => LsDescends(c, s, k.n);
    case Wc => WcDescends(c, s, k.n);
  }

  /** Some process can move, however few or many bytes it is allowed to. */
  lemma SomeoneMoves(c: Config, s: State) returns (who: Who)
    requires c.Valid() && Inv(c, s) && !Final(s)
    ensures forall n: nat :: Step(c, s, Tick(who, n)) != s
  {
    if !s.parent.pc.WaitFor? || s.parent.pc.i == 2 || Child(s, s.cid[s.parent.pc.i]).pc == Zombie {
      who := Parent;
    } else if s.parent.pc.i == 0 && (s.ls.pc != Running || s.todo == [] || |s.pipe| < c.cap) {
      who := Ls;
      if s.ls.pc == Running {
        LsHasReader(c, s);
        forall n: nat ensures Step(c, s, Tick(who, n)) != s {
          assert s.todo != [] && |s.pipe| < c.cap ==> |LsStep(c, s, n).todo| < |s.todo|;
        }
      }
    } else {
      who := Wc;
      if s.wc.pc == Running {
        WriteEndClosed(c, s);
        forall n: nat ensures Step(c, s, Tick(who, n)) != s {
          assert s.pipe != [] ==> |WcStep(c, s, n).pipe| < |s.pipe|;
        }
      }
    }
  }

  lemma FinalStays(c: Config, s: State, k: Tick)
    requires c.Valid() && Inv(c, s) && Final(s)
    ensures Step(c, s, k) == s
  {
  }

  const ACTORS: set<Who> := {Parent, Ls, Wc}

  function Actor(): Tick -> Who {
    (k: Tick) => k.who
  }

  function Invariant(c: Config): State -> bool {
    (s: State) => Inv(c, s)
  }

  function Ended(): State -> bool {
    (s: State) => Final(s)
  }

  function Distance(): State -> nat {
    (s: State) => Measure(s)
  }

  lemma IsKept(c: Config)
    requires c.Valid()
    ensures Runs.Kept(Stepper(c), Invariant(c)) && Runs.Descends(Stepper(c), Invariant(c), Distance())
  {
    forall s, k | Invariant(c)(s) ensures Invariant(c)(Stepper(c)(s, k)) {
      StepKeepsInv(c, s, k);
    }
    forall s, k | Invariant(c)(s) && Stepper(c)(s, k) != s ensures Distance()(Stepper(c)(s, k)) < Distance()(s) {
      StepDescends(c, s, k);
    }
  }

  lemma MoverCanMove(c: Config, s: State) returns (who: Who)
    requires c.Valid() && Inv(c, s) && !Final(s)
    ensures who in ACTORS && Runs.CanMove(Stepper(c), Actor(), s, who)
  {
    who := SomeoneMoves(c, s);
    assert Actor()(Tick(who, 0)) == who;
    forall k | Actor()(k) == who ensures Stepper(c)(s, k) != s {
      assert k == Tick(who, k.n);
    }
  }

  lemma IsLive(c: Config)
    requires c.Valid()
    ensures Runs.LiveUntil(Stepper(c), Actor(), Invariant(c), Ended(), ACTORS)
  {
    forall s | Invariant(c)(s) && !Ended()(s)
      ensures exists w :: w in ACTORS && Runs.CanMove(Stepper(c), Actor(), s, w)
    {
      var who := MoverCanMove(c, s);
    }
    forall s, k | Invariant(c)(s) && Ended()(s) ensures Stepper(c)(s, k) == s {
      FinalStays(c, s, k);
    }
  }

  /** The parent has exited, both children have been reaped, wc has read exactly what ls wrote, and
      neither end of the pipe is open anywhere. */
  predicate AllOver(c: Config, s: State) {
    && s.parent.pc == Exited && s.ls.pc == Reaped && s.wc.pc == Reaped
    && s.eof && s.got == c.out
    && !Open(s, ReadEnd) && !Open(s, WriteEnd)
  }

  lemma FinalIsAllOver(c: Config, s: State)
    requires c.Valid() && Invariant(c)(s) && Ended()(s)
    ensures AllOver(c, s)
  {
  }

  /** Every fair run ends, and ends well: once each process has had 22 + 2 * |out| turns, in any
      order and with any sizes of reads and writes. */
  lemma FairRunsTerminate(c: Config, rounds: seq<seq<Tick>>)
    requires c.Valid() && |rounds| >= 22 + 2 * |c.out|
    requires forall i | 0 <= i < |rounds| :: Runs.Round(Actor(), ACTORS, rounds[i])
    ensures AllOver(c, After(c, Runs.Flatten(rounds)))
  {
    IsKept(c);
    IsLive(c);
    assert Distance()(Init(c)) == 22 + 2 * |c.out|;
    Runs.FairRunsEnd(Stepper(c), Actor(), Invariant(c), Ended(), Distance(), ACTORS, Init(c), rounds);
    FinalIsAllOver(c, After(c, Runs.Flatten(rounds)));
  }

  /** Nothing moves any more only in the final state. */
  lemma StuckIsFinal(c: Config, sched: seq<Tick>)
    requires c.Valid()
    ensures (forall k :: Step(c, After(c, sched), k) == After(c, sched)) <==> Final(After(c, sched))
  {
    ReachableInv(c, sched);
    var s := After(c, sched);
    if Final(s) {
      forall k: Tick ensures Step(c, s, k) == s {
        FinalStays(c, s, k);
      }
    } else {
      var who := SomeoneMoves(c, s);
      assert Step(c, s, Tick(who, 0)) != s;
    }
  }
}
