/** The process primitives the shell calls: open, dup, close, pipe, fork,
  * spawn, close_all, wait, and the write behind fprintf.  Their implementations belong to the C library
  * and the kernel, which are not part of this model.  Each is modelled as an
  * operation on one process's state: its descriptor table, the trace of the
  * calls it has made, and how many calls of each kind it has made.  What a
  * call returns (a descriptor, a process id, or a negative error code) comes
  * from an `Os` oracle indexed by that count. */
module Sys {

  /** O_RDONLY and O_WRONLY. */
  datatype Mode = ReadOnly | WriteOnly

  /** What a descriptor refers to.  Pipes are named by the number of pipes
    * the process had created before (both processes of a fork agree on it). */
  datatype Resource =
    | File(path: string, mode: Mode)
    | PipeRead(pipe: nat)
    | PipeWrite(pipe: nat)

  type Fds = map<int, Resource>

  /** One call, with what it returned.  A spawn records the descriptor table
    * the new program starts with. */
  datatype Event =
    | Opened(path: string, mode: Mode, r: int)
    | Duped(from: int, to: int)
    | Closed(fd: int)
    | Piped(r: int, rd: int, wr: int)
    | Forked(r: int)
    | Spawned(path: string, argv: seq<string>, fds: Fds, r: int)
    | ClosedAll
    | Waited(pid: int)
    | Wrote(fd: int, text: string)

  /** pipe's return value and the two descriptors it stores in p[0] and p[1]. */
  datatype PipeReply = PipeReply(r: int, rd: int, wr: int)

  /** The replies of the n-th open, pipe, fork and spawn a process makes.
    * A fork reply of 0 means that this process is the child. */
  datatype Os = Os(open: nat -> int, pipe: nat -> PipeReply, fork: nat -> int, spawn: nat -> int)

  datatype Proc = Proc(fds: Fds, trace: seq<Event>, opens: nat, pipes: nat, forks: nat, spawns: nat)

  /** A process that has made no call yet, with the descriptor table it inherited. */
  function Start(fds: Fds): Proc {
    Proc(fds, [], 0, 0, 0, 0)
  }

  function Log(p: Proc, e: Event): Proc {
    p.(trace := p.trace + [e])
  }

  /** `open(path, mode)`: a non-negative reply is the new descriptor. */
  function Open(os: Os, p: Proc, path: string, mode: Mode): (int, Proc) {
    var r := os.open(p.opens);
    var p1 := Log(p, Opened(path, mode, r)).(opens := p.opens + 1);
    (r, if r >= 0 then p1.(fds := p1.fds[r := File(path, mode)]) else p1)
  }

  /** `dup(from, to)`: `to` refers to what `from` refers to; nothing changes
    * when `from` is not open. */
  function Dup(p: Proc, from: int, to: int): Proc {
    var p1 := Log(p, Duped(from, to));
    if from in p.fds then p1.(fds := p.fds[to := p.fds[from]]) else p1
  }

  function Close(p: Proc, fd: int): Proc {
    Log(p, Closed(fd)).(fds := p.fds - {fd})
  }

  /** `pipe(p)`: on success the read and write ends are new descriptors. */
  function Pipe(os: Os, p: Proc): (PipeReply, Proc) {
    var pr := os.pipe(p.pipes);
    var p1 := Log(p, Piped(pr.r, pr.rd, pr.wr)).(pipes := p.pipes + 1);
    (pr, if pr.r >= 0 then p1.(fds := p1.fds[pr.rd := PipeRead(p.pipes)][pr.wr := PipeWrite(p.pipes)]) else p1)
  }

  /** `fork()`: both processes go on with this state; the reply says which one this is. */
  function Fork(os: Os, p: Proc): (int, Proc) {
    var r := os.fork(p.forks);
    (r, Log(p, Forked(r)).(forks := p.forks + 1))
  }

  /** `spawn(path, argv)`: the new program inherits the current descriptor table. */
  function Spawn(os: Os, p: Proc, path: string, argv: seq<string>): (int, Proc) {
    var r := os.spawn(p.spawns);
    (r, Log(p, Spawned(path, argv, p.fds, r)).(spawns := p.spawns + 1))
  }

  function CloseAll(p: Proc): Proc {
    Log(p, ClosedAll).(fds := map[])
  }

  function Wait(p: Proc, pid: int): Proc {
    Log(p, Waited(pid))
  }

  /** `fprintf(fd, ...)`, with the text it formats. */
  function Write(p: Proc, fd: int, text: string): Proc {
    Log(p, Wrote(fd, text))
  }

  /** The shell's idiom for binding a descriptor to a fixed slot:
    * `if (fd != slot) { dup(fd, slot); close(fd); }`.  Afterwards `slot`
    * refers to what `fd` referred to, `fd` itself is closed unless it is
    * the slot, and every other descriptor is as before. */
  function MoveOnto(p: Proc, fd: int, slot: int): (q: Proc)
    ensures fd in p.fds ==> slot in q.fds && q.fds[slot] == p.fds[fd]
    ensures fd !in p.fds ==> q.fds == p.fds
    ensures fd != slot ==> fd !in q.fds
    ensures forall x :: x != fd && x != slot ==> (x in q.fds <==> x in p.fds)
    ensures forall x :: x != fd && x != slot && x in p.fds ==> q.fds[x] == p.fds[x]
    ensures q.opens == p.opens && q.pipes == p.pipes && q.forks == p.forks && q.spawns == p.spawns
    ensures q.trace == p.trace + (if fd != slot then [Duped(fd, slot), Closed(fd)] else [])
  {
    if fd != slot then Close(Dup(p, fd, slot), fd) else p
  }
}
