/** The pipeline's processes, descriptor tables and pipe, updated in place.

    Process.ExecuteCommandWithPipe and Machine.SpawnChildren are the program's own straight-line code
    and loop, run without interruption; Machine.Execute carries out one call of one process, and
    Machine.Go a whole schedule. */
module PipeMachine {
  import opened Pipeline
  import PipelineProofs
  import Runs

  class Process {
    var pc: Pc
    var fds: Table

    function Contents(): Proc
      reads this
    {
      Proc(pc, fds)
    }

    constructor (pr: Proc)
      ensures Contents() == pr
    {
      pc, fds := pr.pc, pr.fds;
    }

    method Set(pr: Proc)
      modifies this
      ensures Contents() == pr
    {
      pc, fds := pr.pc, pr.fds;
    }

    /** Closing a descriptor that is not open changes nothing. */
    method Close(fd: nat)
      modifies this`fds
      ensures fds == old(fds) - {fd}
    {
      fds := fds - {fd};
    }

    method Dup2(from: nat, to: nat) returns (ok: bool)
      modifies this`fds
      ensures ok <==> from in old(fds)
      ensures fds == if ok then old(fds)[to := old(fds)[from]] else old(fds)
    {
      ok := from in fds;
      if ok {
        fds := fds[to := fds[from]];
      }
    }

    /** A child from its fork to execl, uninterrupted: of the pipe it keeps the one end it needs, at
        the redirected descriptor, and everything else is as it was before pipe(). */
    method ExecuteCommandWithPipe(c: Config, redirectFd: nat) returns (ok: bool)
      requires c.Valid() && (redirectFd == STDIN || redirectFd == STDOUT)
      modifies this
      ensures ok <==> UsedFd(c, redirectFd) in old(fds)
      ensures Contents().pc == if ok then Running else Zombie
      ensures !ok ==> fds == map[]
      ensures old(fds) == WithPipe(c) ==>
                ok && fds == c.inherited[redirectFd := if redirectFd == STDIN then ReadEnd else WriteEnd]
    {
      Close(if redirectFd == STDIN then c.w else c.r);
      var pipeEndToUse := if redirectFd == STDOUT then c.w else c.r;
      ok := Dup2(pipeEndToUse, redirectFd);
      if !ok {
        pc, fds := Zombie, map[];
        return;
      }
      Close(pipeEndToUse);
      pc := Running;
    }

    /** One of the calls a child makes between its fork and execl. */
    method SetUpStep(c: Config, redirectFd: nat)
      modifies this
      ensures Contents() == SetUp(c, redirectFd, old(Contents()))
    {
      match pc {
        case CloseUnused =>
          Close(UnusedFd(c, redirectFd));
          pc := Redirect;
        case Redirect =>
          var ok := Dup2(UsedFd(c, redirectFd), redirectFd);
          if ok {
            pc := CloseOriginal;
          } else {
            pc, fds := Zombie, map[];
          }
        case CloseOriginal =>
          Close(UsedFd(c, redirectFd));
          pc := Exec;
        case Exec => pc := Running;
        case _ =>
      }
    }
  }

  class Machine {
    const parent: Process
    const ls: Process
    const wc: Process
    var cid: seq<Who>
    var pipe: seq<Byte>
    var todo: seq<Byte>
    var got: seq<Byte>
    var eof: bool
    var broken: bool

    ghost predicate Separate() {
      parent != ls && parent != wc && ls != wc
    }

    function Contents(): State
      reads this, parent, ls, wc
    {
      State(parent.Contents(), ls.Contents(), wc.Contents(), cid, pipe, todo, got, eof, broken)
    }

    constructor (c: Config)
      ensures Separate() && Contents() == Init(c)
      ensures fresh(parent) && fresh(ls) && fresh(wc)
    {
      parent := new Process(Proc(MakePipe, c.inherited));
      ls := new Process(Proc(Unborn, map[]));
      wc := new Process(Proc(Unborn, map[]));
      cid, pipe, todo, got, eof, broken := [], [], c.out, [], false, false;
    }

    /** fork(): the child starts with a copy of the parent's descriptors. */
    method ForkChild(i: nat)
      requires Separate()
      modifies this`cid, ls, wc
      ensures cid == old(cid) + [Handler(i)]
      ensures ls.Contents() == if i == 0 then Proc(CloseUnused, parent.fds) else old(ls.Contents())
      ensures wc.Contents() == if i == 0 then old(wc.Contents()) else Proc(CloseUnused, parent.fds)
    {
      if i == 0 {
        ls.Set(Proc(CloseUnused, parent.fds));
      } else {
        wc.Set(Proc(CloseUnused, parent.fds));
      }
      cid := cid + [Handler(i)];
    }

    /** The parent's loop over the handlers, uninterrupted. */
    method SpawnChildren()
      requires Separate() && parent.pc == Fork(0) && cid == []
      modifies this`cid, parent`pc, ls, wc
      ensures parent.pc == Fork(2) && parent.fds == old(parent.fds) && cid == [Ls, Wc]
      ensures ls.Contents() == wc.Contents() == Proc(CloseUnused, parent.fds)
    {
      var i := 0;
      while i < 2
        invariant i <= 2 && parent.pc == Fork(i) && parent.fds == old(parent.fds) && cid == FirstChildren(i)
        invariant i > 0 ==> ls.Contents() == Proc(CloseUnused, parent.fds)
        invariant i > 1 ==> wc.Contents() == Proc(CloseUnused, parent.fds)
      {
        ForkChild(i);
        i := i + 1;
        parent.pc := Fork(i);
      }
    }

    method ExecuteParent(c: Config)
      requires Separate()
      modifies this`cid, parent, ls, wc
      ensures Contents() == ParentStep(c, old(Contents()))
    {
      match parent.pc {
        case MakePipe => parent.Set(Proc(Fork(0), parent.fds[c.r := ReadEnd][c.w := WriteEnd]));
        case Fork(i) =>
          if i < 2 {
            ForkChild(i);
            parent.pc := Fork(i + 1);
          } else {
            parent.pc := CloseRead;
          }
        case CloseRead =>
          parent.Close(c.r);
          parent.pc := CloseWrite;
        case CloseWrite =>
          parent.Close(c.w);
          parent.pc := WaitFor(0);
        case WaitFor(i) =>
          if i < |cid| {
            var child := if cid[i] == Ls then ls else wc;
            if child.pc == Zombie {
              child.pc := Reaped;
              parent.pc := WaitFor(i + 1);
            }
          } else {
            parent.Set(Proc(Exited, map[]));
          }
        case _ =>
      }
    }

    method ExecuteLs(c: Config, n: nat)
      requires Separate()
      modifies this, ls
      ensures Contents() == LsStep(c, old(Contents()), n)
    {
      if ls.pc != Running {
        ls.SetUpStep(c, STDOUT);
      } else if todo == [] {
        ls.Set(Proc(Zombie, map[]));
      } else if STDOUT !in ls.fds || ls.fds[STDOUT] != WriteEnd {
        todo := todo[Chunk(n, |todo|)..];
      } else if !Open(Contents(), ReadEnd) {
        ls.Set(Proc(Zombie, map[]));
        broken := true;
      } else if |pipe| < c.cap {
        var m := Chunk(n, Min(|todo|, c.cap - |pipe|));
        pipe, todo := pipe + todo[..m], todo[m..];
      }
    }

    method ExecuteWc(c: Config, n: nat)
      requires Separate()
      modifies this, wc
      ensures Contents() == WcStep(c, old(Contents()), n)
    {
      if wc.pc != Running {
        wc.SetUpStep(c, STDIN);
      } else if STDIN !in wc.fds || wc.fds[STDIN] != ReadEnd {
        wc.Set(Proc(Zombie, map[]));
        eof := true;
      } else if pipe != [] {
        var m := Chunk(n, |pipe|);
        got, pipe := got + pipe[..m], pipe[m..];
      } else if !Open(Contents(), WriteEnd) {
        wc.Set(Proc(Zombie, map[]));
        eof := true;
      }
    }

    /** One process makes its next call. */
    method Execute(c: Config, k: Tick)
      requires Separate()
      modifies this, parent, ls, wc
      ensures Contents() == Step(c, old(Contents()), k)
    {
      match k.who {
        case Parent => ExecuteParent(c);
        case Ls => ExecuteLs(c, k.n);
        case Wc => ExecuteWc(c, k.n);
      }
    }

    /** A whole schedule, from the start. */
    method Go(c: Config, sched: seq<Tick>)
      requires Separate() && c.Valid() && Contents() == Init(c)
      modifies this, parent, ls, wc
      ensures Contents() == After(c, sched)
      ensures got + pipe + todo == c.out && !broken && (eof ==> got == c.out)
    {
      for i := 0 to |sched|
        invariant Contents() == After(c, sched[..i])
      {
        Execute(c, sched[i]);
        assert sched[..i + 1] == sched[..i] + [sched[i]];
        Runs.RunSnoc(Stepper(c), Init(c), sched[..i], sched[i]);
      }
      assert sched[..|sched|] == sched;
      PipelineProofs.NothingLost(c, sched);
    }
  }
}
