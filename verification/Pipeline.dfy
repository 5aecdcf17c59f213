/** The pipeline of 8-Pipe/main.c: a parent forks ls and wc, which share one pipe.

    Every system call is a step of its own.  An end of the pipe is open as long as some descriptor of
    some process refers to it; reading an empty pipe gives end-of-file exactly when its write end is
    no longer open anywhere, and writing fails exactly when its read end is not. */
module Pipeline {
  import Runs

  newtype Byte = b: int | 0 <= b < 256

  const STDIN := 0
  const STDOUT := 1

  datatype End = ReadEnd | WriteEnd | Other

  /** A process's descriptors. */
  type Table = map<nat, End>

  datatype Who = Parent | Ls | Wc

  datatype Pc =
    // the parent
    | MakePipe           // pipe(pfd)
    | Fork(i: nat)       // cid[i] = fork()
    | CloseRead          // close(pfd[0])
    | CloseWrite         // close(pfd[1])
    | WaitFor(i: nat)    // waitpid(cid[i], ..)
    | Exited
    // a child
    | Unborn
    | CloseUnused        // close(pfd[redirectFd == STDIN_FILENO ? 1 : 0])
    | Redirect           // dup2(pipeEndToUse, redirectFd)
    | CloseOriginal      // close(pipeEndToUse)
    | Exec               // execl(..)
    | Running            // ls writes its output, or wc reads its input
    | Zombie             // has exited, not yet waited for
    | Reaped

  datatype Proc = Proc(pc: Pc, fds: Table)

  /** The pipe's capacity, the two descriptors pipe() returns, the bytes ls writes, and the
      descriptors open at the start. */
  datatype Config = Config(cap: nat, r: nat, w: nat, out: seq<Byte>, inherited: Table) {
    /** pipe() returns two free descriptors, and 0 and 1 are open. */
    predicate Valid() {
      && cap > 0 && r != w && r !in inherited && w !in inherited
      && STDIN in inherited && STDOUT in inherited
      && forall fd | fd in inherited :: inherited[fd] == Other
    }
  }

  /** pipe: bytes in transit; todo: what ls has still to write; got: what wc has read; eof: wc has
      seen end-of-file; broken: ls has written with no reader left. */
  datatype State = State(
    parent: Proc, ls: Proc, wc: Proc, cid: seq<Who>,
    pipe: seq<Byte>, todo: seq<Byte>, got: seq<Byte>, eof: bool, broken: bool)

  /** One scheduling decision: who runs, and how many bytes a read or write may move. */
  datatype Tick = Tick(who: Who, n: nat)

  function Init(c: Config): State {
    State(Proc(MakePipe, c.inherited), Proc(Unborn, map[]), Proc(Unborn, map[]), [], [], c.out, [], false, false)
  }

  function Min(a: nat, b: nat): nat {
    if a <= b then a else b
  }

  /** Between 1 and limit bytes, n if possible. */
  function Chunk(n: nat, limit: nat): nat {
    Min(if n == 0 then 1 else n, limit)
  }

  predicate Open(s: State, e: End) {
    e in s.parent.fds.Values || e in s.ls.fds.Values || e in s.wc.fds.Values
  }

  // ----- The parent -----

  function Child(s: State, who: Who): Proc {
    if who == Ls then s.ls else s.wc
  }

  function WithChild(s: State, who: Who, pr: Proc): State {
    if who == Ls then s.(ls := pr) else s.(wc := pr)
  }

  /** The handlers table: the first child runs ls, the second wc. */
  function Handler(i: nat): Who {
    if i == 0 then Ls else Wc
  }

  function ParentStep(c: Config, s: State): State {
    var pr := s.parent;
    match pr.pc
    case MakePipe => s.(parent := Proc(Fork(0), pr.fds[c.r := ReadEnd][c.w := WriteEnd]))
    case Fork(i) =>
      if i < 2 then
        WithChild(s, Handler(i), Proc(CloseUnused, pr.fds)).(parent := pr.(pc := Fork(i + 1)), cid := s.cid + [Handler(i)])
      else s.(parent := pr.(pc := CloseRead))
    case CloseRead => s.(parent := Proc(CloseWrite, pr.fds - {c.r}))
    case CloseWrite => s.(parent := Proc(WaitFor(0), pr.fds - {c.w}))
    case WaitFor(i) =>
      if i < |s.cid| then
        if Child(s, s.cid[i]).pc == Zombie then
          WithChild(s, s.cid[i], Child(s, s.cid[i]).(pc := Reaped)).(parent := pr.(pc := WaitFor(i + 1)))
        else s
      else s.(parent := Proc(Exited, map[]))
    case _ => s
  }

  // ----- A child -----

  function UsedFd(c: Config, redirectFd: nat): nat {
    if redirectFd == STDOUT then c.w else c.r
  }

  function UnusedFd(c: Config, redirectFd: nat): nat {
    if redirectFd == STDIN then c.w else c.r
  }

  /** From the fork to execl. */
  function SetUp(c: Config, redirectFd: nat, pr: Proc): Proc {
    match pr.pc
    case CloseUnused => Proc(Redirect, pr.fds - {UnusedFd(c, redirectFd)})
    case Redirect =>
      var used := UsedFd(c, redirectFd);
      if used in pr.fds then Proc(CloseOriginal, pr.fds[redirectFd := pr.fds[used]])
      else Proc(Zombie, map[])
    case CloseOriginal => Proc(Exec, pr.fds - {UsedFd(c, redirectFd)})
    case Exec => pr.(pc := Running)
    case _ => pr
  }

  /** ls writes to its standard output until nothing is left, then exits. */
  function LsStep(c: Config, s: State, n: nat): State {
    if s.ls.pc != Running then s.(ls := SetUp(c, STDOUT, s.ls))
    else if s.todo == [] then s.(ls := Proc(Zombie, map[]))
    else if STDOUT !in s.ls.fds || s.ls.fds[STDOUT] != WriteEnd then s.(todo := s.todo[Chunk(n, |s.todo|)..])
    else if !Open(s, ReadEnd) then s.(ls := Proc(Zombie, map[]), broken := true)
    else if |s.pipe| < c.cap then
      var m := Chunk(n, Min(|s.todo|, c.cap - |s.pipe|));
      s.(pipe := s.pipe + s.todo[..m], todo := s.todo[m..])
    else s
  }

  /** wc reads its standard input up to end-of-file, then exits. */
  function WcStep(c: Config, s: State, n: nat): State {
    if s.wc.pc != Running then s.(wc := SetUp(c, STDIN, s.wc))
    else if STDIN !in s.wc.fds || s.wc.fds[STDIN] != ReadEnd then s.(wc := Proc(Zombie, map[]), eof := true)
    else if s.pipe != [] then
      var m := Chunk(n, |s.pipe|);
      s.(got := s.got + s.pipe[..m], pipe := s.pipe[m..])
    else if Open(s, WriteEnd) then s
    else s.(wc := Proc(Zombie, map[]), eof := true)
  }

  /** One scheduling decision carried out; a call that has to block leaves the state as it is. */
  function Step(c: Config, s: State, k: Tick): State {
    match k.who
    case Parent => ParentStep(c, s)
    case Ls => LsStep(c, s, k.n)
    case Wc => WcStep(c, s, k.n)
  }

  function Stepper(c: Config): (State, Tick) -> State {
    (s, k) => Step(c, s, k)
  }

  /** The state a schedule leads to. */
  function After(c: Config, sched: seq<Tick>): State {
    Runs.Run(Stepper(c), Init(c), sched)
  }

  // ----- The invariant -----

  function WithPipe(c: Config): Table {
    c.inherited[c.r := ReadEnd][c.w := WriteEnd]
  }

  function FirstChildren(i: nat): seq<Who> {
    if i == 0 then [] else if i == 1 then [Ls] else [Ls, Wc]
  }

  predicate ParentOk(c: Config, s: State) {
    match s.parent.pc
    case MakePipe => s.parent.fds == c.inherited && s.cid == []
    case Fork(i) => i <= 2 && s.parent.fds == WithPipe(c) && s.cid == FirstChildren(i)
    case CloseRead => s.parent.fds == WithPipe(c) && s.cid == [Ls, Wc]
    case CloseWrite => s.parent.fds == c.inherited[c.w := WriteEnd] && s.cid == [Ls, Wc]
    case WaitFor(i) => i <= 2 && s.parent.fds == c.inherited && s.cid == [Ls, Wc]
    case Exited => s.parent.fds == map[] && s.cid == [Ls, Wc]
    case _ => false
  }

  /** How many children the parent has forked, and how many it has waited for. */
  function Forked(pc: Pc): nat {
    match pc
    case MakePipe => 0
    case Fork(i) => i
    case _ => 2
  }

  function Waited(pc: Pc): nat {
    match pc
    case WaitFor(i) => i
    case Exited => 2
    case _ => 0
  }

  /** The i-th child's descriptors are settled by how far it has come. */
  predicate ChildOk(c: Config, parent: Pc, i: nat, redirectFd: nat, end: End, pr: Proc) {
    && (pr.pc == Unborn <==> Forked(parent) <= i)
    && (pr.pc == Reaped <==> Waited(parent) > i)
    && match pr.pc
       case CloseUnused => pr.fds == WithPipe(c)
       case Redirect => pr.fds == c.inherited[UsedFd(c, redirectFd) := end]
       case CloseOriginal => pr.fds == c.inherited[UsedFd(c, redirectFd) := end][redirectFd := end]
       case Exec => pr.fds == c.inherited[redirectFd := end]
       case Running => pr.fds == c.inherited[redirectFd := end]
       case _ => (pr.pc == Unborn || pr.pc == Zombie || pr.pc == Reaped) && pr.fds == map[]
  }

  predicate Done(pr: Proc) {
    pr.pc == Zombie || pr.pc == Reaped
  }

  predicate DataOk(c: Config, s: State) {
    && s.got + s.pipe + s.todo == c.out
    && |s.pipe| <= c.cap
    && !s.broken
    && (Done(s.ls) ==> s.todo == [])
    && (Done(s.wc) ==> Done(s.ls) && s.pipe == [])
    && (s.eof <==> Done(s.wc))
  }

  predicate Inv(c: Config, s: State) {
    && ParentOk(c, s)
    && ChildOk(c, s.parent.pc, 0, STDOUT, WriteEnd, s.ls)
    && ChildOk(c, s.parent.pc, 1, STDIN, ReadEnd, s.wc)
    && DataOk(c, s)
  }
}
