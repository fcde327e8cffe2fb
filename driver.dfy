/** `umain`: the shell's command-line handling and its read loop.  Each line
  * that is not a comment is echoed when `-x` is given, and then run by a
  * forked child while the shell waits for it.  As in the rest of the model,
  * a process is followed along one path: the fork's reply says whether this
  * process is the shell going on to the next line or the child running
  * `runcmd` on the current one. */
module Driver {
  import opened Lexer
  import opened Sys
  import opened Runcmd

  /** How the process that entered `umain` stops. */
  datatype Stop =
    | Usage                              // usage(): a flag other than -d, -i, -x, or too many arguments
    | OpenPanic(r: int)                  // the script file did not open
    | NotStdin(r: int)                   // the script file opened on a descriptor other than 0
    | ForkPanic(r: int)                  // fork failed
    | EndOfInput                         // readline returned NULL
    | Child(line: string)                // fork returned 0: this process is to run `line`
    | RanLine(line: string, exit: Exit)  // this process is the child that ran `line`

  datatype Ending = Ending(stop: Stop, proc: Proc)

  /** A line whose first character is `#`; the empty line is not one, since
    * its first byte is the terminating NUL. */
  predicate IsComment(line: string) {
    |line| > 0 && line[0] == '#'
  }

  /** The text `fprintf(1, "# %s\n", buf)` writes. */
  function EchoOf(line: string): string {
    "# " + line + "\n"
  }

  predicate NoNul(lines: seq<string>) {
    forall k :: 0 <= k < |lines| ==> NUL !in lines[k]
  }

  /** The read loop from the first line of `lines` on, up to the point where
    * this process stops reading: at the end of the input, on a failed fork,
    * or as the child forked for a line, which it is then to run.  The child
    * is only ever forked for a line of the input that is not a comment. */
  function Session(os: Os, echo: bool, lines: seq<string>, p: Proc): (e: Ending)
    requires NoNul(lines)
    ensures e.stop.EndOfInput? || e.stop.ForkPanic? || e.stop.Child?
    ensures e.stop.Child? ==> e.stop.line in lines && !IsComment(e.stop.line)
    decreases |lines|
  {
    if lines == [] then Ending(EndOfInput, p)
    else
      var line := lines[0];
      if IsComment(line) then Session(os, echo, lines[1..], p)
      else
        var p1 := if echo then Write(p, 1, EchoOf(line)) else p;
        var (r, p2) := Fork(os, p1);
        if r < 0 then Ending(ForkPanic(r), p2)
        else if r == 0 then Ending(Child(line), p2)
        else Session(os, echo, lines[1..], Wait(p2, r))
  }

  /** What the child then does: `runcmd` on its line, which ends it. */
  function Finish(os: Os, e: Ending): Ending
    requires e.stop.Child? ==> NUL !in e.stop.line
  {
    if e.stop.Child? then
      var o := RunLine(os, e.stop.line, e.proc);
      Ending(RanLine(e.stop.line, o.exit), o.proc)
    else e
  }

  predicate KnownFlag(f: char) {
    f == 'd' || f == 'i' || f == 'x'
  }

  predicate AllKnown(flags: seq<char>) {
    forall k :: 0 <= k < |flags| ==> KnownFlag(flags[k])
  }

  /** `umain` for the flag letters `flags`, the positional arguments left
    * after them, the lines the input holds, and the descriptors the shell
    * starts with. */
  function Shell(os: Os, flags: seq<char>, positional: seq<string>, input: seq<string>, fds: Fds): (e: Ending)
    requires NoNul(input)
    ensures e.stop.Child? ==> e.stop.line in input
  {
    var p := Start(fds);
    if !AllKnown(flags) || |positional| > 1 then Ending(Usage, p)
    else if |positional| == 1 then
      var (r, p1) := Open(os, Close(p, 0), positional[0], ReadOnly);
      if r < 0 then Ending(OpenPanic(r), p1)
      else if r != 0 then Ending(NotStdin(r), p1)
      else Session(os, 'x' in flags, input, p1)
    else Session(os, 'x' in flags, input, p)
  }

  /** The shell: the flag loop, the script file, then one line at a time.
    * The child side copies the line into a NUL-terminated buffer, as
    * readline hands it over, and runs `runcmd` on it. */
  method Umain(os: Os, flags: seq<char>, positional: seq<string>, input: seq<string>, fds: Fds) returns (end: Ending)
    requires NoNul(input)
    ensures end == Finish(os, Shell(os, flags, positional, input, fds))
  {
    var debug := 0;
    var echo := false;
    var i := 0;
    while i < |flags|
      invariant i <= |flags| && AllKnown(flags[..i])
      invariant echo <==> 'x' in flags[..i]
    {
      var f := flags[i];
      if f == 'd' {
        debug := debug + 1;
      } else if f == 'x' {
        echo := true;
      } else if f != 'i' {
        assert !KnownFlag(flags[i]);
        return Ending(Usage, Start(fds));
      }
      assert flags[..i + 1] == flags[..i] + [f];
      i := i + 1;
    }
    assert flags[..i] == flags;

    var p := Start(fds);
    if |positional| > 1 {
      return Ending(Usage, p);
    }
    if |positional| == 1 {
      var (r, p1) := Open(os, Close(p, 0), positional[0], ReadOnly);
      p := p1;
      if r < 0 {
        return Ending(OpenPanic(r), p);
      }
      if r != 0 {
        return Ending(NotStdin(r), p);
      }
    }
    ghost var goal := Session(os, echo, input, p);
    assert goal == Shell(os, flags, positional, input, fds);

    var n := 0;
    while true
      invariant n <= |input|
      invariant Session(os, echo, input[n..], p) == goal
      decreases |input| - n
    {
      if n == |input| {
        return Ending(EndOfInput, p);
      }
      var buf := input[n];
      assert input[n..][1..] == input[n + 1..];
      n := n + 1;
      if IsComment(buf) {
        continue;
      }
      if echo {
        p := Write(p, 1, EchoOf(buf));
      }
      var (r, p2) := Fork(os, p);
      p := p2;
      if r < 0 {
        return Ending(ForkPanic(r), p);
      }
      if r == 0 {
        var line := Terminate(buf);
        var out := RunCmd(os, line, p, debug);
        assert out == RunLine(os, buf, p);
        return Ending(RanLine(buf, out.exit), out.proc);
      }
      p := Wait(p, r);
    }
  }

  /** The line as `readline` hands it over: a fresh buffer holding its
    * characters and a terminating NUL. */
  method Terminate(buf: string) returns (line: array<char>)
    ensures fresh(line) && line[..] == buf + [NUL]
  {
    line := new char[|buf| + 1](k requires 0 <= k <= |buf| => if k < |buf| then buf[k] else NUL);
    assert line[..] == buf + [NUL];
  }

  // ---------------------------------------------------------------------
  // Properties of the read loop.

  /** The lines of `lines` that are not comments, in order. */
  function Uncommented(lines: seq<string>): (r: seq<string>)
    ensures forall k :: 0 <= k < |r| ==> !IsComment(r[k]) && r[k] in lines
    ensures NoNul(lines) ==> NoNul(r)
    decreases |lines|
  {
    if lines == [] then []
    else if IsComment(lines[0]) then Uncommented(lines[1..])
    else [lines[0]] + Uncommented(lines[1..])
  }

  /** Comments are skipped before anything else: the shell behaves on
    * `lines` exactly as on its lines without the comments. */
  lemma {:induction false} CommentsSkipped(os: Os, echo: bool, lines: seq<string>, p: Proc)
    requires NoNul(lines)
    ensures Session(os, echo, lines, p) == Session(os, echo, Uncommented(lines), p)
    decreases |lines|
  {
    if lines != [] {
      var u := Uncommented(lines[1..]);
      if IsComment(lines[0]) {
        CommentsSkipped(os, echo, lines[1..], p);
      } else {
        var p1 := if echo then Write(p, 1, EchoOf(lines[0])) else p;
        var (r, p2) := Fork(os, p1);
        assert ([lines[0]] + u)[1..] == u;
        if r > 0 {
          CommentsSkipped(os, echo, lines[1..], Wait(p2, r));
        }
      }
    }
  }

  /** The calls the shell makes for the comment-free lines `ls` when every
    * fork from the `n`-th on returns a child: the echo when `-x` was given,
    * the fork, and the wait for that child, line after line. */
  function ParentCalls(os: Os, echo: bool, ls: seq<string>, n: nat): seq<Event>
    decreases |ls|
  {
    if ls == [] then []
    else
      (if echo then [Wrote(1, EchoOf(ls[0]))] else [])
      + [Forked(os.fork(n)), Waited(os.fork(n))]
      + ParentCalls(os, echo, ls[1..], n + 1)
  }

  /** The `m` forks from the `n`-th on all return a child's id, so the
    * process making them is the shell each time. */
  predicate ShellSide(os: Os, n: nat, m: nat)
    decreases m
  {
    m == 0 || (os.fork(n) > 0 && ShellSide(os, n + 1, m - 1))
  }

  /** The state of the shell after the comment-free lines `ls`, all of whose
    * forks returned a child. */
  function AfterLines(os: Os, echo: bool, ls: seq<string>, p: Proc): Proc {
    p.(trace := p.trace + ParentCalls(os, echo, ls, p.forks), forks := p.forks + |ls|)
  }

  /** The shell reads to the end of its input exactly when every fork
    * returns a child, and then it has echoed, forked and waited for each
    * line that is not a comment, in order, and made no other call. */
  lemma EndOfInputWaitedForAll(os: Os, echo: bool, lines: seq<string>, p: Proc)
    requires NoNul(lines)
    ensures var u := Uncommented(lines);
      var e := Session(os, echo, lines, p);
      && (e.stop == EndOfInput <==> ShellSide(os, p.forks, |u|))
      && (e.stop == EndOfInput ==> e.proc == AfterLines(os, echo, u, p))
  {
    CommentsSkipped(os, echo, lines, p);
    ParentLoop(os, echo, Uncommented(lines), p);
  }

  lemma {:induction false} ParentLoop(os: Os, echo: bool, ls: seq<string>, p: Proc)
    requires NoNul(ls) && forall k :: 0 <= k < |ls| ==> !IsComment(ls[k])
    ensures var e := Session(os, echo, ls, p);
      && (e.stop == EndOfInput <==> ShellSide(os, p.forks, |ls|))
      && (e.stop == EndOfInput ==> e.proc == AfterLines(os, echo, ls, p))
    decreases |ls|
  {
    if ls != [] {
      var p1 := if echo then Write(p, 1, EchoOf(ls[0])) else p;
      var (r, p2) := Fork(os, p1);
      var q := Wait(p2, r);
      if r > 0 {
        assert Session(os, echo, ls, p) == Session(os, echo, ls[1..], q);
        assert ShellSide(os, p.forks, |ls|) == ShellSide(os, q.forks, |ls| - 1);
        ParentLoop(os, echo, ls[1..], q);
        AfterFirstLine(os, echo, ls, p, |ls|);
        assert ls[1..][..|ls| - 1] == ls[1..] && ls[..|ls|] == ls;
      } else {
        assert !ShellSide(os, p.forks, |ls|);
      }
    }
  }

  /** The child of the `j`-th line that is not a comment (the first fork to
    * return 0) is forked for exactly that line, with the descriptors the
    * shell had and after the shell's calls for the lines before it, and it
    * then runs `runcmd` on that line. */
  lemma ChildRunsItsLine(os: Os, echo: bool, lines: seq<string>, p: Proc, j: nat)
    requires NoNul(lines)
    requires j < |Uncommented(lines)| && os.fork(p.forks + j) == 0
    requires ShellSide(os, p.forks, j)
    ensures var u := Uncommented(lines);
      var before := AfterLines(os, echo, u[..j], p);
      var q := Fork(os, if echo then Write(before, 1, EchoOf(u[j])) else before).1;
      && q.fds == p.fds
      && Session(os, echo, lines, p) == Ending(Child(u[j]), q)
      && Finish(os, Session(os, echo, lines, p)) == Ending(RanLine(u[j], RunLine(os, u[j], q).exit), RunLine(os, u[j], q).proc)
  {
    CommentsSkipped(os, echo, lines, p);
    ChildLoop(os, echo, Uncommented(lines), p, j);
  }

  lemma ChildLoop(os: Os, echo: bool, ls: seq<string>, p: Proc, j: nat)
    requires NoNul(ls) && forall k :: 0 <= k < |ls| ==> !IsComment(ls[k])
    requires j < |ls| && os.fork(p.forks + j) == 0
    requires ShellSide(os, p.forks, j)
    ensures var before := AfterLines(os, echo, ls[..j], p);
      var q := Fork(os, if echo then Write(before, 1, EchoOf(ls[j])) else before).1;
      && q.fds == p.fds
      && Session(os, echo, ls, p) == Ending(Child(ls[j]), q)
  {
    SkipParentLines(os, echo, ls, p, j);
    var before := AfterLines(os, echo, ls[..j], p);
    var p1 := if echo then Write(before, 1, EchoOf(ls[j])) else before;
    assert before.forks == p.forks + j && before.fds == p.fds;
    assert Session(os, echo, ls[j..], before) == Ending(Child(ls[j]), Fork(os, p1).1) by {
      assert ls[j..][0] == ls[j] && !IsComment(ls[j]);
    }
  }

  /** While every fork returns a child, the shell goes through the lines one
    * after the other: after `j` of them it is in the state AfterLines
    * describes, reading the rest. */
  lemma {:induction false} SkipParentLines(os: Os, echo: bool, ls: seq<string>, p: Proc, j: nat)
    requires NoNul(ls) && forall k :: 0 <= k < |ls| ==> !IsComment(ls[k])
    requires j <= |ls| && ShellSide(os, p.forks, j)
    ensures NoNul(ls[j..])
    ensures Session(os, echo, ls, p) == Session(os, echo, ls[j..], AfterLines(os, echo, ls[..j], p))
    decreases j
  {
    if j == 0 {
      assert ls[0..] == ls;
      assert ls[..0] == [];
      assert AfterLines(os, echo, ls[..0], p) == p;
    } else {
      var p1 := if echo then Write(p, 1, EchoOf(ls[0])) else p;
      var (r, p2) := Fork(os, p1);
      var q := Wait(p2, r);
      assert Session(os, echo, ls, p) == Session(os, echo, ls[1..], q);
      assert q.forks + (j - 1) == p.forks + j;
      SkipParentLines(os, echo, ls[1..], q, j - 1);
      assert ls[1..][j - 1..] == ls[j..];
      AfterFirstLine(os, echo, ls, p, j);
    }
  }

  /** The state after the first `j` lines is the state after the last
    * `j - 1` of them, started from the shell's state once the first line's
    * child has been waited for. */
  lemma AfterFirstLine(os: Os, echo: bool, ls: seq<string>, p: Proc, j: nat)
    requires 0 < j <= |ls|
    ensures var p1 := if echo then Write(p, 1, EchoOf(ls[0])) else p;
      var (r, p2) := Fork(os, p1);
      AfterLines(os, echo, ls[1..][..j - 1], Wait(p2, r)) == AfterLines(os, echo, ls[..j], p)
  {
    var p1 := if echo then Write(p, 1, EchoOf(ls[0])) else p;
    var (r, p2) := Fork(os, p1);
    var q := Wait(p2, r);
    assert ls[1..][..j - 1] == ls[..j][1..];
    assert ParentCalls(os, echo, ls[..j], p.forks) ==
      (if echo then [Wrote(1, EchoOf(ls[0]))] else []) + [Forked(r), Waited(r)]
      + ParentCalls(os, echo, ls[1..][..j - 1], q.forks);
  }

  // ---------------------------------------------------------------------
  // Properties of the command line.

  /** usage() is called exactly when a flag other than -d, -i and -x is
    * given or more than one argument follows the flags, and it makes no
    * call at all. */
  lemma UsageRule(os: Os, flags: seq<char>, positional: seq<string>, input: seq<string>, fds: Fds)
    requires NoNul(input)
    ensures var e := Finish(os, Shell(os, flags, positional, input, fds));
      && (e.stop == Usage <==> !AllKnown(flags) || |positional| > 1)
      && (e.stop == Usage ==> e.proc == Start(fds))
  {
  }

  /** With one argument, the shell closes descriptor 0 and opens the script
    * there: it stops if the open fails or lands elsewhere, and otherwise
    * reads its lines with descriptor 0 on the script. */
  lemma ScriptOnStdin(os: Os, flags: seq<char>, script: string, input: seq<string>, fds: Fds)
    requires NoNul(input) && AllKnown(flags)
    ensures var r := os.open(0);
      var e := Shell(os, flags, [script], input, fds);
      var p := Proc(fds[0 := File(script, ReadOnly)], [Closed(0), Opened(script, ReadOnly, 0)], 1, 0, 0, 0);
      && (r < 0 ==> e.stop == OpenPanic(r))
      && (r > 0 ==> e.stop == NotStdin(r))
      && (r == 0 ==> e == Session(os, 'x' in flags, input, p))
  {
    var r := os.open(0);
    if r == 0 {
      var p1 := Open(os, Close(Start(fds), 0), script, ReadOnly).1;
      assert p1.fds == (fds - {0})[0 := File(script, ReadOnly)];
      assert p1.fds == fds[0 := File(script, ReadOnly)];
      assert p1.trace == [] + [Closed(0)] + [Opened(script, ReadOnly, 0)];
      assert p1 == Proc(fds[0 := File(script, ReadOnly)], [Closed(0), Opened(script, ReadOnly, 0)], 1, 0, 0, 0);
    }
  }
}
