/** Properties of `runcmd` (module Runcmd) that hold for every command line
  * and for every reply the system calls may give. */
module RuncmdProps {
  import opened Lexer
  import opened Sys
  import opened Runcmd

  // ---------------------------------------------------------------------
  // Words.

  predicate AllWords(toks: seq<Token>) {
    forall k :: 0 <= k < |toks| ==> toks[k].WordTok?
  }

  function Texts(toks: seq<Token>): (ws: seq<string>)
    requires AllWords(toks)
    ensures |ws| == |toks|
    ensures forall k :: 0 <= k < |toks| ==> ws[k] == toks[k].text
  {
    seq(|toks|, k requires 0 <= k < |toks| => toks[k].text)
  }

  /** Words alone form one command: they become its arguments, in order,
    * and nothing is opened, piped or forked before it runs. */
  lemma {:induction false} WordsAreArguments(os: Os, toks: seq<Token>, args: seq<string>, p: Proc)
    requires AllWords(toks) && |args| + |toks| <= MAXARGS
    ensures Collect(os, toks, args, p) == Runit(os, args + Texts(toks), p, 0)
    decreases |toks|
  {
    if toks != [] {
      assert toks[0] == WordTok(toks[0].text);
      WordsAreArguments(os, toks[1..], args + [toks[0].text], p);
      assert args + Texts(toks) == (args + [toks[0].text]) + Texts(toks[1..]);
    } else {
      assert args + Texts(toks) == args;
    }
  }

  /** A run of words that takes a command past MAXARGS arguments ends the
    * process at the first word too many, with nothing done on the way: no
    * file opened, no spawn, no wait. */
  lemma {:induction false} TooManyWords(os: Os, toks: seq<Token>, args: seq<string>, p: Proc, n: nat)
    requires |args| <= MAXARGS && n <= |toks| && AllWords(toks[..n]) && |args| + n > MAXARGS
    ensures Collect(os, toks, args, p) == Outcome(Failed(TooManyArgs), p)
    decreases n
  {
    assert toks[..n][0] == toks[0];
    if |args| < MAXARGS {
      assert toks[1..][..n - 1] == toks[..n][1..];
      TooManyWords(os, toks[1..], args + [toks[0].text], p, n - 1);
    }
  }

  /** The tokens of a list of words are words, with those texts. */
  lemma WordToksTexts(ws: seq<string>)
    ensures AllWords(WordToks(ws)) && Texts(WordToks(ws)) == ws
  {
  }

  /** A line of at most MAXARGS blank-separated words runs them as one
    * command. */
  lemma WordsLine(os: Os, ws: seq<string>, p: Proc)
    requires forall k :: 0 <= k < |ws| ==> IsWord(ws[k])
    requires |ws| <= MAXARGS
    ensures NUL !in Spaced(ws) && RunLine(os, Spaced(ws), p) == Runit(os, ws, p, 0)
  {
    SpacedTokens(ws);
    var toks := WordToks(ws);
    WordToksTexts(ws);
    WordsAreArguments(os, toks, [], p);
    assert [] + Texts(toks) == ws;
  }

  /** A line of more than MAXARGS blank-separated words ends the process
    * before anything runs. */
  lemma TooManyWordsLine(os: Os, ws: seq<string>, p: Proc)
    requires forall k :: 0 <= k < |ws| ==> IsWord(ws[k])
    requires |ws| > MAXARGS
    ensures NUL !in Spaced(ws) && RunLine(os, Spaced(ws), p) == Outcome(Failed(TooManyArgs), p)
  {
    SpacedTokens(ws);
    var toks := WordToks(ws);
    WordToksTexts(ws);
    assert toks[..|toks|] == toks;
    TooManyWords(os, toks, [], p, |toks|);
  }

  // ---------------------------------------------------------------------
  // Syntax errors.

  /** `<` or `>` without a word after it (at the end of the line, or before
    * another symbol) ends the process with nothing opened. */
  lemma RedirectNeedsWord(os: Os, op: char, rest: seq<Token>, args: seq<string>, p: Proc)
    requires |args| <= MAXARGS && (op == '<' || op == '>')
    requires rest == [] || !rest[0].WordTok?
    ensures Collect(os, [SymTok(op)] + rest, args, p) == Outcome(Failed(NotFollowedByWord(op)), p)
  {
    assert ([SymTok(op)] + rest)[1..] == rest;
  }

  /** The symbols `&`, `;`, `(` and `)` are tokens the switch has no case
    * for: the process panics as soon as it reads one. */
  lemma ReservedSymbolsPanic(os: Os, ch: char, rest: seq<Token>, args: seq<string>, p: Proc)
    requires |args| <= MAXARGS && IsSymbol(ch) && ch != '<' && ch != '>' && ch != '|'
    ensures ch == '&' || ch == ';' || ch == '(' || ch == ')'
    ensures Collect(os, [SymTok(ch)] + rest, args, p) == Outcome(Panicked(ch), p)
  {
  }

  // ---------------------------------------------------------------------
  // The order of the calls a process makes.

  /** The calls made while reading the line. */
  predicate IsSetup(e: Event) {
    e.Opened? || e.Duped? || e.Closed? || e.Piped? || e.Forked?
  }

  /** The calls after `runit`: one spawn of an absolute path with one to
    * MAXARGS arguments, then close_all, then the waits; the spawned process
    * is waited for first, and only when spawn succeeded. */
  ghost predicate RunitEvents(es: seq<Event>) {
    && 2 <= |es| <= 4
    && es[0].Spawned? && es[1] == ClosedAll
    && 1 <= |es[0].argv| <= MAXARGS && es[0].argv[0] == es[0].path
    && |es[0].path| > 0 && es[0].path[0] == '/'
    && (forall k :: 2 <= k < |es| ==> es[k].Waited?)
    && (es[0].r >= 0 ==> 3 <= |es| && es[2] == Waited(es[0].r))
    && (es[0].r < 0 ==> |es| <= 3)
  }

  /** Setup calls, followed by the calls of `runit` when the command ran
    * and by nothing otherwise. */
  ghost predicate SetupThen(es: seq<Event>, ran: bool)
    decreases |es|
  {
    if es != [] && IsSetup(es[0]) then SetupThen(es[1..], ran)
    else if ran then RunitEvents(es)
    else es == []
  }

  lemma {:induction false} SetupPrefix(xs: seq<Event>, es: seq<Event>, ran: bool)
    requires forall k :: 0 <= k < |xs| ==> IsSetup(xs[k])
    requires SetupThen(es, ran)
    ensures SetupThen(xs + es, ran)
    decreases |xs|
  {
    if xs != [] {
      assert (xs + es)[0] == xs[0] && IsSetup(xs[0]);
      assert (xs + es)[1..] == xs[1..] + es;
      SetupPrefix(xs[1..], es, ran);
      assert SetupThen(xs + es, ran) == SetupThen((xs + es)[1..], ran);
    } else {
      assert xs + es == es;
    }
  }

  /** `runit`: an empty command does nothing at all.  Otherwise the calls are
    * spawn (with the current descriptors), close_all, wait for the spawned
    * process if spawn succeeded, and then wait for the pipe's right-hand
    * side if there is one. */
  lemma RunitOrder(os: Os, args: seq<string>, p: Proc, pipeChild: int)
    requires |args| <= MAXARGS
    ensures var o := Runit(os, args, p, pipeChild);
      && p.trace <= o.proc.trace
      && (o.exit == Finished <==> |args| > 0)
      && (|args| == 0 ==> o == Outcome(EmptyCommand, p))
      && (|args| > 0 ==>
            var r := os.spawn(p.spawns);
            var path := SpawnPath(args[0]);
            o.proc.trace[|p.trace|..] ==
              [Spawned(path, [path] + args[1..], p.fds, r), ClosedAll]
              + (if r >= 0 then [Waited(r)] else [])
              + (if pipeChild != 0 then [Waited(pipeChild)] else []))
      && SetupThen(o.proc.trace[|p.trace|..], o.exit == Finished)
  {
    if |args| > 0 {
      var r := os.spawn(p.spawns);
      var path := SpawnPath(args[0]);
      var waits := (if r >= 0 then [Waited(r)] else []) + (if pipeChild != 0 then [Waited(pipeChild)] else []);
      var es := [Spawned(path, [path] + args[1..], p.fds, r), ClosedAll] + waits;
      var o := Runit(os, args, p, pipeChild);
      RunitCalls(os, args, p, pipeChild);
      assert o.proc.trace[|p.trace|..] == es;
      assert RunitEvents(es);
    }
  }

  /** The calls `runit` appends to the trace, one by one. */
  lemma RunitCalls(os: Os, args: seq<string>, p: Proc, pipeChild: int)
    requires |args| > 0
    ensures var r := os.spawn(p.spawns);
      var path := SpawnPath(args[0]);
      var o := Runit(os, args, p, pipeChild);
      && o.exit == Finished
      && o.proc.trace == p.trace
           + [Spawned(path, [path] + args[1..], p.fds, r), ClosedAll]
           + ((if r >= 0 then [Waited(r)] else []) + (if pipeChild != 0 then [Waited(pipeChild)] else []))
  {
  }

  /** The spawn `runit` makes, with the argument vector and descriptors. */
  lemma RunitSpawn(os: Os, args: seq<string>, p: Proc, pipeChild: int)
    requires |args| > 0
    ensures var o := Runit(os, args, p, pipeChild);
      && p.trace <= o.proc.trace
      && FirstSpawn(o.proc.trace[|p.trace|..]) == Some(Spawned(SpawnPath(args[0]), Argv(args), p.fds, os.spawn(p.spawns)))
  {
    RunitCalls(os, args, p, pipeChild);
    var o := Runit(os, args, p, pipeChild);
    assert o.proc.trace[|p.trace|..][0] == Spawned(SpawnPath(args[0]), Argv(args), p.fds, os.spawn(p.spawns));
  }

  /** Every process running a line makes setup calls only, and if the
    * command runs, it ends with the calls of `runit`.  In particular a
    * process spawns at most once, never before it has finished reading its
    * command, never with more than MAXARGS arguments, and never when it
    * stops with an error. */
  lemma {:induction false} TraceShape(os: Os, toks: seq<Token>, args: seq<string>, p: Proc)
    requires |args| <= MAXARGS
    ensures var o := Collect(os, toks, args, p);
      p.trace <= o.proc.trace && SetupThen(o.proc.trace[|p.trace|..], o.exit == Finished)
    decreases |toks|, 1
  {
    assert SetupThen([], false);
    if toks == [] {
      RunitOrder(os, args, p, 0);
      return;
    }
    match toks[0]
    case WordTok(w) =>
      if |args| < MAXARGS {
        TraceShape(os, toks[1..], args + [w], p);
      }
    case SymTok(ch) =>
      if ch == '<' || ch == '>' {
        RedirectShape(os, ch, toks[1..], args, p);
      } else if ch == '|' {
        PipeShape(os, toks[1..], args, p);
      }
  }

  /** The cases `<` and `>` of `TraceShape`. */
  lemma {:induction false} RedirectShape(os: Os, op: char, rest: seq<Token>, args: seq<string>, p: Proc)
    requires |args| <= MAXARGS
    ensures var o := Redirect(os, op, rest, args, p);
      p.trace <= o.proc.trace && SetupThen(o.proc.trace[|p.trace|..], o.exit == Finished)
    decreases |rest| + 1, 0
  {
    var o := Redirect(os, op, rest, args, p);
    assert SetupThen([], false);
    if rest != [] && rest[0].WordTok? {
      var (fd, p1) := Open(os, p, rest[0].text, ModeOf(op));
      if fd >= 0 {
        var p2 := MoveOnto(p1, fd, Slot(op));
        TraceShape(os, rest[1..], args, p2);
        AfterSetup(p, p2, o.proc, o.exit == Finished);
      } else {
        assert o.proc.trace[|p.trace|..] == [Opened(rest[0].text, ModeOf(op), fd)];
      }
    }
  }

  /** The case `|` of `TraceShape`. */
  lemma {:induction false} PipeShape(os: Os, rest: seq<Token>, args: seq<string>, p: Proc)
    requires |args| <= MAXARGS
    ensures var o := Split(os, rest, args, p);
      p.trace <= o.proc.trace && SetupThen(o.proc.trace[|p.trace|..], o.exit == Finished)
    decreases |rest| + 1, 0
  {
    var o := Split(os, rest, args, p);
    var (pr, p1) := Pipe(os, p);
    assert SetupThen([], false);
    SplitSides(os, rest, args, p);
    SidesAreSetup(os, p);
    if pr.r >= 0 {
      var (f, p2) := Fork(os, p1);
      if f == 0 {
        TraceShape(os, rest, [], Reader(os, p));
        AfterSetup(p, Reader(os, p), o.proc, o.exit == Finished);
      } else if f > 0 {
        RunitOrder(os, args, Writer(os, p), f);
        AfterSetup(p, Writer(os, p), o.proc, o.exit == Finished);
      } else {
        assert o.proc.trace[|p.trace|..] == [Piped(pr.r, pr.rd, pr.wr), Forked(f)];
      }
    } else {
      assert o.proc.trace[|p.trace|..] == [Piped(pr.r, pr.rd, pr.wr)];
    }
  }

  /** The process state each side of `|` goes on with after the fork: the
    * right-hand side has the pipe's read end on slot 0, the left-hand side
    * its write end on slot 1, and both have closed the other end. */
  function Reader(os: Os, p: Proc): Proc {
    var (pr, p1) := Pipe(os, p);
    Close(MoveOnto(Fork(os, p1).1, pr.rd, 0), pr.wr)
  }

  function Writer(os: Os, p: Proc): Proc {
    var (pr, p1) := Pipe(os, p);
    Close(MoveOnto(Fork(os, p1).1, pr.wr, 1), pr.rd)
  }

  /** `|` after a successful pipe and fork: the child goes on reading the
    * line with no words, the parent runs the words it has. */
  lemma SplitSides(os: Os, rest: seq<Token>, args: seq<string>, p: Proc)
    requires |args| <= MAXARGS
    ensures var r := os.pipe(p.pipes).r; var f := os.fork(p.forks);
      && (r >= 0 && f == 0 ==> Split(os, rest, args, p) == Collect(os, rest, [], Reader(os, p)))
      && (r >= 0 && f > 0 ==> Split(os, rest, args, p) == Runit(os, args, Writer(os, p), f))
  {
  }

  /** Either side of `|` after the fork: pipe, fork, dup, close and close
    * are all setup calls. */
  lemma SidesAreSetup(os: Os, p: Proc)
    ensures p.trace <= Reader(os, p).trace
    ensures forall k :: |p.trace| <= k < |Reader(os, p).trace| ==> IsSetup(Reader(os, p).trace[k])
    ensures p.trace <= Writer(os, p).trace
    ensures forall k :: |p.trace| <= k < |Writer(os, p).trace| ==> IsSetup(Writer(os, p).trace[k])
  {
  }

  /** Joining setup calls from `p` to `q` with the calls from `q` to `o`. */
  lemma AfterSetup(p: Proc, q: Proc, o: Proc, ran: bool)
    requires p.trace <= q.trace && q.trace <= o.trace
    requires forall k :: |p.trace| <= k < |q.trace| ==> IsSetup(q.trace[k])
    requires SetupThen(o.trace[|q.trace|..], ran)
    ensures p.trace <= o.trace && SetupThen(o.trace[|p.trace|..], ran)
  {
    var xs := q.trace[|p.trace|..];
    assert o.trace[|p.trace|..] == xs + o.trace[|q.trace|..];
    SetupPrefix(xs, o.trace[|q.trace|..], ran);
  }

  // ---------------------------------------------------------------------
  // Which file each standard slot refers to when the command is spawned.

  /** The first spawn among `es`. */
  function FirstSpawn(es: seq<Event>): (s: Option<Event>)
    ensures s.Some? ==> s.value.Spawned? && s.value in es
  {
    if es == [] then None
    else if es[0].Spawned? then Some(es[0])
    else FirstSpawn(es[1..])
  }

  lemma {:induction false} FirstSpawnAfterSetup(xs: seq<Event>, es: seq<Event>)
    requires forall k :: 0 <= k < |xs| ==> IsSetup(xs[k])
    ensures FirstSpawn(xs + es) == FirstSpawn(es)
    decreases |xs|
  {
    if xs != [] {
      assert (xs + es)[0] == xs[0] && IsSetup(xs[0]);
      assert (xs + es)[1..] == xs[1..] + es;
      FirstSpawnAfterSetup(xs[1..], es);
      assert !(xs + es)[0].Spawned?;
      assert FirstSpawn(xs + es) == FirstSpawn((xs + es)[1..]);
    } else {
      assert xs + es == es;
    }
  }

  /** `a` and `b` agree on standard input and standard output. */
  predicate SameStd(a: Fds, b: Fds) {
    && (0 in a <==> 0 in b) && (0 in a ==> a[0] == b[0])
    && (1 in a <==> 1 in b) && (1 in a ==> a[1] == b[1])
  }

  /** The descriptors after the redirections among `toks`, read from the
    * tokens alone: each `< w` binds slot 0 and each `> w` slot 1 to the file
    * `w`, so the last redirection of each slot wins. */
  function Bindings(fds: Fds, toks: seq<Token>): Fds
    decreases |toks|
  {
    if toks == [] then fds
    else if |toks| >= 2 && toks[0].SymTok? && (toks[0].sym == '<' || toks[0].sym == '>') && toks[1].WordTok? then
      Bindings(fds[Slot(toks[0].sym) := File(toks[1].text, ModeOf(toks[0].sym))], toks[2..])
    else Bindings(fds, toks[1..])
  }

  lemma {:induction false} BindingsRespectStd(a: Fds, b: Fds, toks: seq<Token>)
    requires SameStd(a, b)
    ensures SameStd(Bindings(a, toks), Bindings(b, toks))
    decreases |toks|
  {
    if toks == [] {
    } else if |toks| >= 2 && toks[0].SymTok? && (toks[0].sym == '<' || toks[0].sym == '>') && toks[1].WordTok? {
      var r := File(toks[1].text, ModeOf(toks[0].sym));
      BindingsRespectStd(a[Slot(toks[0].sym) := r], b[Slot(toks[0].sym) := r], toks[2..]);
    } else {
      BindingsRespectStd(a, b, toks[1..]);
    }
  }

  /** The words of a command other than the targets of its redirections,
    * in order. */
  function Words(toks: seq<Token>): seq<string>
    decreases |toks|
  {
    if toks == [] then []
    else if |toks| >= 2 && toks[0].SymTok? && (toks[0].sym == '<' || toks[0].sym == '>') && toks[1].WordTok? then
      Words(toks[2..])
    else if toks[0].WordTok? then [toks[0].text] + Words(toks[1..])
    else Words(toks[1..])
  }

  /** The argument vector spawned for the words `ws`. */
  function Argv(ws: seq<string>): seq<string>
    requires ws != []
  {
    [SpawnPath(ws[0])] + ws[1..]
  }

  /** Every open succeeds, with a descriptor other than 0 and 1 (the lowest
    * free descriptor is above them while standard input and output are
    * open). Failed opens are not covered by the lemmas that assume this. */
  ghost predicate OpensAboveStd(os: Os) {
    forall n :: os.open(n) >= 2
  }

  /** The descriptor slots of a command without `|`: when the command runs,
    * the spawned program's standard input and output are exactly what the
    * redirections of the line say, the last one of each slot winning, and
    * otherwise what the process had before. */
  lemma {:induction false} LastRedirectWins(os: Os, toks: seq<Token>, args: seq<string>, p: Proc)
    requires |args| <= MAXARGS && OpensAboveStd(os)
    requires forall k :: 0 <= k < |toks| ==> toks[k] != SymTok('|')
    ensures var o := Collect(os, toks, args, p);
      && p.trace <= o.proc.trace
      && (o.exit == Finished ==>
            var s := FirstSpawn(o.proc.trace[|p.trace|..]);
            && s.Some? && SameStd(s.value.fds, Bindings(p.fds, toks))
            && args + Words(toks) != [] && s.value.argv == Argv(args + Words(toks)))
    decreases |toks|, 1
  {
    if toks == [] {
      RunitOrder(os, args, p, 0);
      if args != [] {
        RunitSpawn(os, args, p, 0);
      }
      assert args + Words(toks) == args;
      return;
    }
    match toks[0]
    case WordTok(w) =>
      if |args| < MAXARGS {
        LastRedirectWins(os, toks[1..], args + [w], p);
        assert Words(toks) == [w] + Words(toks[1..]);
        assert Bindings(p.fds, toks) == Bindings(p.fds, toks[1..]);
        assert args + Words(toks) == (args + [w]) + Words(toks[1..]);
      }
    case SymTok(ch) =>
      if ch == '<' || ch == '>' {
        assert toks == [SymTok(ch)] + toks[1..];
        RedirectWins(os, ch, toks[1..], args, p);
      }
  }

  /** The case `<` and `>` of `LastRedirectWins`. */
  lemma {:induction false} RedirectWins(os: Os, op: char, rest: seq<Token>, args: seq<string>, p: Proc)
    requires |args| <= MAXARGS && OpensAboveStd(os) && (op == '<' || op == '>')
    requires forall k :: 0 <= k < |rest| ==> rest[k] != SymTok('|')
    ensures var o := Redirect(os, op, rest, args, p);
      && p.trace <= o.proc.trace
      && (o.exit == Finished ==>
            var s := FirstSpawn(o.proc.trace[|p.trace|..]);
            && s.Some? && SameStd(s.value.fds, Bindings(p.fds, [SymTok(op)] + rest))
            && args + Words([SymTok(op)] + rest) != [] && s.value.argv == Argv(args + Words([SymTok(op)] + rest)))
    decreases |rest| + 1, 0
  {
    if rest != [] && rest[0].WordTok? {
      var (fd, p1) := Open(os, p, rest[0].text, ModeOf(op));
      var p2 := MoveOnto(p1, fd, Slot(op));
      var bound := p.fds[Slot(op) := File(rest[0].text, ModeOf(op))];
      OpenedOnto(os, p, rest[0].text, ModeOf(op), Slot(op));
      var o := Redirect(os, op, rest, args, p);
      assert o == Collect(os, rest[1..], args, p2);
      assert ([SymTok(op)] + rest)[2..] == rest[1..];
      assert Bindings(p.fds, [SymTok(op)] + rest) == Bindings(bound, rest[1..]);
      assert Words([SymTok(op)] + rest) == Words(rest[1..]);
      LastRedirectWins(os, rest[1..], args, p2);
      BindingsRespectStd(p2.fds, bound, rest[1..]);
      SetupSkipped(p, p2, o.proc);
    }
  }

  /** A successful open moved onto a standard slot: the slot refers to the
    * file, the other standard slot is as before, and only setup calls were
    * made. */
  lemma OpenedOnto(os: Os, p: Proc, path: string, mode: Mode, slot: int)
    requires OpensAboveStd(os) && (slot == 0 || slot == 1)
    ensures var (fd, p1) := Open(os, p, path, mode);
      var p2 := MoveOnto(p1, fd, slot);
      && fd >= 2
      && SameStd(p2.fds, p.fds[slot := File(path, mode)])
      && p.trace <= p2.trace
      && forall k :: |p.trace| <= k < |p2.trace| ==> IsSetup(p2.trace[k])
  {
  }

  // ---------------------------------------------------------------------
  // The two sides of `|`.

  /** The next pipe succeeds, with two distinct descriptors other than 0
    * and 1 (the lowest free ones while standard input and output are
    * open). A failed pipe is not covered by the lemmas that assume this. */
  ghost predicate PipeAboveStd(os: Os, n: nat) {
    var pr := os.pipe(n);
    pr.r >= 0 && pr.rd >= 2 && pr.wr >= 2 && pr.rd != pr.wr
  }

  /** The right-hand side of `|` (the fork returned 0): when its command has
    * no further `|` and runs, it reads from the pipe unless it redirects
    * `<` itself, and it keeps the standard output the line had given the
    * process before the `|`. */
  lemma PipeReaderSlots(os: Os, rest: seq<Token>, args: seq<string>, p: Proc)
    requires |args| <= MAXARGS && OpensAboveStd(os) && PipeAboveStd(os, p.pipes)
    requires os.fork(p.forks) == 0
    requires forall k :: 0 <= k < |rest| ==> rest[k] != SymTok('|')
    ensures var o := Split(os, rest, args, p);
      && p.trace <= o.proc.trace
      && (o.exit == Finished ==>
            var s := FirstSpawn(o.proc.trace[|p.trace|..]);
            && s.Some? && SameStd(s.value.fds, Bindings(p.fds[0 := PipeRead(p.pipes)], rest))
            && Words(rest) != [] && s.value.argv == Argv(Words(rest)))
  {
    var o := Split(os, rest, args, p);
    var q := Reader(os, p);
    SplitSides(os, rest, args, p);
    SidesSlots(os, p);
    SidesAreSetup(os, p);
    LastRedirectWins(os, rest, [], q);
    assert [] + Words(rest) == Words(rest);
    BindingsRespectStd(q.fds, p.fds[0 := PipeRead(p.pipes)], rest);
    SetupSkipped(p, q, o.proc);
  }

  /** The left-hand side of `|` (the fork returned the child's id): it reads
    * no further token, runs the words collected so far with standard output
    * on the pipe's write end and standard input as it was, and waits for the
    * right-hand side last. */
  lemma PipeWriterSlots(os: Os, rest: seq<Token>, args: seq<string>, p: Proc)
    requires |args| <= MAXARGS && PipeAboveStd(os, p.pipes)
    requires os.fork(p.forks) > 0
    ensures Split(os, rest, args, p) == Split(os, [], args, p)
    ensures var o := Split(os, rest, args, p);
      && p.trace <= o.proc.trace
      && (o.exit == Finished <==> |args| > 0)
      && (o.exit == Finished ==>
            && o.proc.trace[|o.proc.trace| - 1] == Waited(os.fork(p.forks))
            && var s := FirstSpawn(o.proc.trace[|p.trace|..]);
               s.Some? && s.value.argv == Argv(args) && SameStd(s.value.fds, p.fds[1 := PipeWrite(p.pipes)]))
  {
    var q := Writer(os, p);
    var o := Runit(os, args, q, os.fork(p.forks));
    SplitSides(os, rest, args, p);
    SplitSides(os, [], args, p);
    SidesSlots(os, p);
    SidesAreSetup(os, p);
    RunitOrder(os, args, q, os.fork(p.forks));
    if args != [] {
      RunitSpawn(os, args, q, os.fork(p.forks));
    }
    SetupSkipped(p, q, o.proc);
  }

  /** The standard slots of the two sides of `|` after the fork, and neither
    * side keeps a pipe end open under its own descriptor. */
  lemma SidesSlots(os: Os, p: Proc)
    requires PipeAboveStd(os, p.pipes)
    ensures SameStd(Reader(os, p).fds, p.fds[0 := PipeRead(p.pipes)])
    ensures SameStd(Writer(os, p).fds, p.fds[1 := PipeWrite(p.pipes)])
    ensures var pr := os.pipe(p.pipes);
      && pr.rd !in Reader(os, p).fds && pr.wr !in Reader(os, p).fds
      && pr.rd !in Writer(os, p).fds && pr.wr !in Writer(os, p).fds
  {
  }

  /** The process that reaches the first `|` of a line.  Unless the tokens
    * before it end the process (too many words, a redirection without a
    * file name, a failed open, a reserved symbol), it arrives at the `|`
    * with the words before it collected, with the standard slots their
    * redirections bound, and having made setup calls only.  When it does
    * not arrive, its outcome is the same whatever follows the `|`. */
  lemma {:induction false} ReachPipe(os: Os, pre: seq<Token>, post: seq<Token>, args: seq<string>, p: Proc)
    returns (reached: bool, q: Proc)
    requires |args| <= MAXARGS && OpensAboveStd(os)
    requires forall k :: 0 <= k < |pre| ==> pre[k] != SymTok('|')
    ensures var o := Collect(os, pre + [SymTok('|')] + post, args, p);
      && (reached ==>
            && |args + Words(pre)| <= MAXARGS
            && o == Split(os, post, args + Words(pre), q)
            && SameStd(q.fds, Bindings(p.fds, pre))
            && q.pipes == p.pipes && q.forks == p.forks
            && p.trace <= q.trace
            && forall k :: |p.trace| <= k < |q.trace| ==> IsSetup(q.trace[k]))
      && (!reached ==>
            && (o.exit.Panicked? || (o.exit.Failed? && !o.exit.failure.PipeFailed? && !o.exit.failure.ForkFailed?))
            && forall post' :: Collect(os, pre + [SymTok('|')] + post', args, p) == o)
    decreases |pre|
  {
    var toks := pre + [SymTok('|')] + post;
    if pre == [] {
      assert toks[0] == SymTok('|') && toks[1..] == post;
      assert args + Words(pre) == args;
      return true, p;
    }
    assert toks[0] == pre[0] && toks[1..] == pre[1..] + [SymTok('|')] + post;
    match pre[0]
    case WordTok(w) =>
      if |args| == MAXARGS {
        forall post' ensures Collect(os, pre + [SymTok('|')] + post', args, p) == Outcome(Failed(TooManyArgs), p) {
          DropFirst(pre, post');
        }
        return false, p;
      }
      reached, q := ReachPipe(os, pre[1..], post, args + [w], p);
      forall post' ensures Collect(os, pre + [SymTok('|')] + post', args, p) == Collect(os, pre[1..] + [SymTok('|')] + post', args + [w], p) {
        DropFirst(pre, post');
      }
      assert Words(pre) == [w] + Words(pre[1..]);
      assert args + Words(pre) == (args + [w]) + Words(pre[1..]);
      assert Bindings(p.fds, pre) == Bindings(p.fds, pre[1..]);
    case SymTok(ch) =>
      if ch != '<' && ch != '>' {
        forall post' ensures Collect(os, pre + [SymTok('|')] + post', args, p) == Outcome(Panicked(ch), p) {
          DropFirst(pre, post');
        }
        return false, p;
      }
      if |pre| < 2 || !pre[1].WordTok? {
        assert toks[1..][0] == if |pre| < 2 then SymTok('|') else pre[1];
        forall post' ensures Collect(os, pre + [SymTok('|')] + post', args, p) == Outcome(Failed(NotFollowedByWord(ch)), p) {
          DropFirst(pre, post');
          assert (pre[1..] + [SymTok('|')] + post')[0] == if |pre| < 2 then SymTok('|') else pre[1];
        }
        return false, p;
      }
      reached, q := ReachPipeRedirect(os, ch, pre, post, args, p);
  }

  /** The case of `ReachPipe` where the line starts with `<` or `>` and a
    * file name. */
  lemma {:induction false} ReachPipeRedirect(os: Os, op: char, pre: seq<Token>, post: seq<Token>, args: seq<string>, p: Proc)
    returns (reached: bool, q: Proc)
    requires |args| <= MAXARGS && OpensAboveStd(os) && (op == '<' || op == '>')
    requires |pre| >= 2 && pre[0] == SymTok(op) && pre[1].WordTok?
    requires forall k :: 0 <= k < |pre| ==> pre[k] != SymTok('|')
    ensures var o := Collect(os, pre + [SymTok('|')] + post, args, p);
      && (reached ==>
            && |args + Words(pre)| <= MAXARGS
            && o == Split(os, post, args + Words(pre), q)
            && SameStd(q.fds, Bindings(p.fds, pre))
            && q.pipes == p.pipes && q.forks == p.forks
            && p.trace <= q.trace
            && forall k :: |p.trace| <= k < |q.trace| ==> IsSetup(q.trace[k]))
      && (!reached ==>
            && (o.exit.Panicked? || (o.exit.Failed? && !o.exit.failure.PipeFailed? && !o.exit.failure.ForkFailed?))
            && forall post' :: Collect(os, pre + [SymTok('|')] + post', args, p) == o)
    decreases |pre|, 0
  {
    var toks := pre + [SymTok('|')] + post;
    var rest := toks[1..];
    assert toks[0] == SymTok(op) && rest[0] == pre[1] && rest[1..] == pre[2..] + [SymTok('|')] + post;
    var path := pre[1].text;
    var (fd, p1) := Open(os, p, path, ModeOf(op));
    var p2 := MoveOnto(p1, fd, Slot(op));
    var bound := p.fds[Slot(op) := File(path, ModeOf(op))];
    OpenedOnto(os, p, path, ModeOf(op), Slot(op));
    assert Collect(os, toks, args, p) == Collect(os, rest[1..], args, p2);
    assert Bindings(p.fds, pre) == Bindings(bound, pre[2..]);
    assert Words(pre) == Words(pre[2..]);
    reached, q := ReachPipe(os, pre[2..], post, args, p2);
    forall post'
      ensures Collect(os, pre + [SymTok('|')] + post', args, p) == Collect(os, pre[2..] + [SymTok('|')] + post', args, p2)
    {
      DropFirst(pre, post');
      DropFirst(pre[1..], post');
      assert pre[1..][1..] == pre[2..];
    }
    if reached {
      BindingsRespectStd(p2.fds, bound, pre[2..]);
      SetupChain(p, p2, q);
    }
  }

  /** The first token of a line with a `|` after the tokens `pre`, and the
    * tokens after it. */
  lemma DropFirst(pre: seq<Token>, post: seq<Token>)
    requires pre != []
    ensures var toks := pre + [SymTok('|')] + post;
      toks[0] == pre[0] && toks[1..] == pre[1..] + [SymTok('|')] + post
  {
  }

  /** Setup calls followed by setup calls. */
  lemma SetupChain(p: Proc, q: Proc, r: Proc)
    requires p.trace <= q.trace && q.trace <= r.trace
    requires forall k :: |p.trace| <= k < |q.trace| ==> IsSetup(q.trace[k])
    requires forall k :: |q.trace| <= k < |r.trace| ==> IsSetup(r.trace[k])
    ensures p.trace <= r.trace
    ensures forall k :: |p.trace| <= k < |r.trace| ==> IsSetup(r.trace[k])
  {
    forall k | |p.trace| <= k < |q.trace|
      ensures IsSetup(r.trace[k])
    {
      assert r.trace[k] == q.trace[k];
    }
  }

  /** The right-hand side of the first `|` of a line, when its command (with
    * no further `|`) runs: standard input is the pipe unless it redirects
    * `<` itself, and standard output is what the redirections before the
    * `|` bound unless it redirects `>` itself; it runs only the words after
    * the `|`. */
  lemma RightSideInherits(os: Os, pre: seq<Token>, post: seq<Token>, args: seq<string>, p: Proc)
    requires |args| <= MAXARGS && OpensAboveStd(os) && PipeAboveStd(os, p.pipes) && os.fork(p.forks) == 0
    requires forall k :: 0 <= k < |pre| ==> pre[k] != SymTok('|')
    requires NoPipe(post)
    ensures var o := Collect(os, pre + [SymTok('|')] + post, args, p);
      && p.trace <= o.proc.trace
      && (o.exit == Finished ==>
            var s := FirstSpawn(o.proc.trace[|p.trace|..]);
            && s.Some? && SameStd(s.value.fds, Bindings(Bindings(p.fds, pre)[0 := PipeRead(p.pipes)], post))
            && Words(post) != [] && s.value.argv == Argv(Words(post)))
  {
    var toks := pre + [SymTok('|')] + post;
    var o := Collect(os, toks, args, p);
    assert p.trace <= o.proc.trace by {
      TraceShape(os, toks, args, p);
    }
    var reached, q := ReachPipe(os, pre, post, args, p);
    if reached && o.exit == Finished {
      assert o == Split(os, post, args + Words(pre), q);
      ReaderAfterPrefix(os, post, args + Words(pre), p, q, Bindings(p.fds, pre));
    }
  }

  /** `RightSideInherits` from the process `q` that reached the `|` with the
    * standard slots `fds`, after setup calls only since `p`. */
  lemma ReaderAfterPrefix(os: Os, post: seq<Token>, a: seq<string>, p: Proc, q: Proc, fds: Fds)
    requires |a| <= MAXARGS && OpensAboveStd(os) && PipeAboveStd(os, q.pipes) && os.fork(q.forks) == 0
    requires NoPipe(post)
    requires SameStd(q.fds, fds) && p.trace <= q.trace
    requires forall k :: |p.trace| <= k < |q.trace| ==> IsSetup(q.trace[k])
    ensures var o := Split(os, post, a, q);
      && p.trace <= o.proc.trace
      && (o.exit == Finished ==>
            var s := FirstSpawn(o.proc.trace[|p.trace|..]);
            && s.Some? && SameStd(s.value.fds, Bindings(fds[0 := PipeRead(q.pipes)], post))
            && Words(post) != [] && s.value.argv == Argv(Words(post)))
  {
    var o := Split(os, post, a, q);
    PipeReaderSlots(os, post, a, q);
    SetupSkipped(p, q, o.proc);
    if o.exit == Finished {
      var s := FirstSpawn(o.proc.trace[|q.trace|..]);
      BindingsRespectStd(q.fds[0 := PipeRead(q.pipes)], fds[0 := PipeRead(q.pipes)], post);
      SameStdTrans(s.value.fds, Bindings(q.fds[0 := PipeRead(q.pipes)], post), Bindings(fds[0 := PipeRead(q.pipes)], post));
    }
  }

  /** The left-hand side of the first `|` of a line, when it runs: it runs
    * the words before the `|`, with standard output on the pipe and standard
    * input what the redirections before the `|` bound, and it waits for the
    * right-hand side last. */
  lemma LeftSideKeeps(os: Os, pre: seq<Token>, post: seq<Token>, args: seq<string>, p: Proc)
    requires |args| <= MAXARGS && OpensAboveStd(os) && PipeAboveStd(os, p.pipes) && os.fork(p.forks) > 0
    requires forall k :: 0 <= k < |pre| ==> pre[k] != SymTok('|')
    ensures var o := Collect(os, pre + [SymTok('|')] + post, args, p);
      && p.trace <= o.proc.trace
      && (o.exit == Finished ==>
            && |p.trace| < |o.proc.trace| && o.proc.trace[|o.proc.trace| - 1] == Waited(os.fork(p.forks))
            && var s := FirstSpawn(o.proc.trace[|p.trace|..]);
               && s.Some? && SameStd(s.value.fds, Bindings(p.fds, pre)[1 := PipeWrite(p.pipes)])
               && args + Words(pre) != [] && s.value.argv == Argv(args + Words(pre)))
  {
    var toks := pre + [SymTok('|')] + post;
    var o := Collect(os, toks, args, p);
    assert p.trace <= o.proc.trace by {
      TraceShape(os, toks, args, p);
    }
    var reached, q := ReachPipe(os, pre, post, args, p);
    if reached && o.exit == Finished {
      assert o == Split(os, post, args + Words(pre), q);
      PipeWriterSlots(os, post, args + Words(pre), q);
      SetupSkipped(p, q, o.proc);
    }
  }

  /** No `|` among the tokens. */
  predicate NoPipe(toks: seq<Token>) {
    forall k :: 0 <= k < |toks| ==> toks[k] != SymTok('|')
  }

  lemma SameStdTrans(a: Fds, b: Fds, c: Fds)
    requires SameStd(a, b) && SameStd(b, c)
    ensures SameStd(a, c)
  {
  }

  /** Setup calls between `p` and `q` do not change which spawn comes first. */
  lemma SetupSkipped(p: Proc, q: Proc, o: Proc)
    requires p.trace <= q.trace && q.trace <= o.trace
    requires forall k :: |p.trace| <= k < |q.trace| ==> IsSetup(q.trace[k])
    ensures p.trace <= o.trace
    ensures FirstSpawn(o.trace[|p.trace|..]) == FirstSpawn(o.trace[|q.trace|..])
  {
    var es := o.trace[|q.trace|..];
    var xs := q.trace[|p.trace|..];
    assert o.trace == q.trace + es;
    assert o.trace[|p.trace|..] == xs + es;
    FirstSpawnAfterSetup(xs, es);
  }

  // ---------------------------------------------------------------------
  // Whole lines.

  /** A line of blanks runs nothing: the process returns at once. */
  lemma BlankLine(os: Os, line: string, p: Proc)
    requires forall k :: 0 <= k < |line| ==> IsWhitespace(line[k])
    ensures NUL !in line
    ensures RunLine(os, line, p) == Outcome(EmptyCommand, p)
  {
    var b := line + [NUL];
    SkipWhitespaceIs(b, 0, |line|);
    TokensSkipWhitespace(b, 0);
  }

  lemma TokensOfExample1()
    ensures Tokens("a | b < f") == [WordTok("a"), SymTok('|'), WordTok("b"), SymTok('<'), WordTok("f")]
  {
    var b := "a | b < f" + [NUL];
    assert TokensFrom(b, 9) == [];
    assert WordEnd(b, 9) == 9;
    assert TokensFrom(b, 8) == [WordTok("f")];
    assert TokensFrom(b, 7) == [WordTok("f")];
    assert TokensFrom(b, 6) == [SymTok('<'), WordTok("f")];
    assert TokensFrom(b, 5) == [SymTok('<'), WordTok("f")];
    assert WordEnd(b, 5) == 5;
    assert WordEnd(b, 4) == 5;
    assert b[4..5] == "b";
    assert TokensFrom(b, 4) == [WordTok("b"), SymTok('<'), WordTok("f")];
    assert TokensFrom(b, 3) == [WordTok("b"), SymTok('<'), WordTok("f")];
    assert TokensFrom(b, 2) == [SymTok('|'), WordTok("b"), SymTok('<'), WordTok("f")];
    assert TokensFrom(b, 1) == [SymTok('|'), WordTok("b"), SymTok('<'), WordTok("f")];
    assert WordEnd(b, 1) == 1;
    assert WordEnd(b, 0) == 1;
    assert b[0..1] == "a";
  }

  lemma TokensOfExample2()
    ensures Tokens("a > f | b") == [WordTok("a"), SymTok('>'), WordTok("f"), SymTok('|'), WordTok("b")]
  {
    var b := "a > f | b" + [NUL];
    assert TokensFrom(b, 9) == [];
    assert WordEnd(b, 9) == 9;
    assert TokensFrom(b, 8) == [WordTok("b")];
    assert TokensFrom(b, 7) == [WordTok("b")];
    assert TokensFrom(b, 6) == [SymTok('|'), WordTok("b")];
    assert TokensFrom(b, 5) == [SymTok('|'), WordTok("b")];
    assert WordEnd(b, 5) == 5;
    assert WordEnd(b, 4) == 5;
    assert b[4..5] == "f";
    assert TokensFrom(b, 4) == [WordTok("f"), SymTok('|'), WordTok("b")];
    assert TokensFrom(b, 3) == [WordTok("f"), SymTok('|'), WordTok("b")];
    assert TokensFrom(b, 2) == [SymTok('>'), WordTok("f"), SymTok('|'), WordTok("b")];
    assert TokensFrom(b, 1) == [SymTok('>'), WordTok("f"), SymTok('|'), WordTok("b")];
    assert WordEnd(b, 1) == 1;
    assert WordEnd(b, 0) == 1;
    assert b[0..1] == "a";
  }

  /** `a | b < f` reaches the `|` with the word `a` collected. */
  lemma Example1ReachesPipe(os: Os, p: Proc)
    ensures RunLine(os, "a | b < f", p) == Split(os, [WordTok("b"), SymTok('<'), WordTok("f")], ["a"], p)
  {
    TokensOfExample1();
    var toks := Tokens("a | b < f");
    assert [] + ["a"] == ["a"];
    assert Collect(os, toks, [], p) == Collect(os, toks[1..], ["a"], p);
    assert toks[1..][1..] == [WordTok("b"), SymTok('<'), WordTok("f")];
  }

  /** The right-hand side of `a | b < f` runs its command when `f` opens. */
  lemma Example1ChildRuns(os: Os, p: Proc)
    requires OpensAboveStd(os) && PipeAboveStd(os, p.pipes) && os.fork(p.forks) == 0
    ensures Split(os, [WordTok("b"), SymTok('<'), WordTok("f")], ["a"], p).exit == Finished
  {
    var rest := [WordTok("b"), SymTok('<'), WordTok("f")];
    var q := Reader(os, p);
    SplitSides(os, rest, ["a"], p);
    assert [] + ["b"] == ["b"];
    assert Collect(os, rest, [], q) == Collect(os, rest[1..], ["b"], q);
    assert rest[1..][1..] == [WordTok("f")];
    var (fd, q1) := Open(os, q, "f", ReadOnly);
    assert Collect(os, rest[1..], ["b"], q) == Collect(os, [], ["b"], MoveOnto(q1, fd, 0));
  }

  /** The right-hand side of `a | b < f`, from the process reaching `|`:
    * the child dups the pipe onto slot 0 first and handles `< f`
    * afterwards, so `b` reads from `f`. */
  lemma Example1Child(os: Os, p: Proc)
    requires OpensAboveStd(os) && PipeAboveStd(os, p.pipes) && os.fork(p.forks) == 0
    ensures var o := Split(os, [WordTok("b"), SymTok('<'), WordTok("f")], ["a"], p);
      && o.exit == Finished
      && p.trace <= o.proc.trace
      && var s := FirstSpawn(o.proc.trace[|p.trace|..]);
         s.Some? && s.value.argv == ["/b"] && 0 in s.value.fds && s.value.fds[0] == File("f", ReadOnly)
  {
    var rest := [WordTok("b"), SymTok('<'), WordTok("f")];
    Example1ChildRuns(os, p);
    PipeReaderSlots(os, rest, ["a"], p);
    assert Bindings(p.fds[0 := PipeRead(p.pipes)], rest)[0] == File("f", ReadOnly);
    assert Words(rest) == ["b"];
    assert SpawnPath("b") == "/b";
    assert Argv(["b"]) == ["/b"];
  }

  /** `a | b < f`, in the process that runs `b`: the later redirection wins
    * over the pipe, so `b` reads from `f`. */
  lemma LaterRedirectOverridesPipe(os: Os, p: Proc)
    requires OpensAboveStd(os) && PipeAboveStd(os, p.pipes) && os.fork(p.forks) == 0
    ensures var o := RunLine(os, "a | b < f", p);
      && o.exit == Finished
      && p.trace <= o.proc.trace
      && var s := FirstSpawn(o.proc.trace[|p.trace|..]);
         s.Some? && s.value.argv == ["/b"] && 0 in s.value.fds && s.value.fds[0] == File("f", ReadOnly)
  {
    Example1ReachesPipe(os, p);
    Example1Child(os, p);
  }

  /** `a > f | b` reaches the `|` with the word `a` collected and `f` opened
    * onto slot 1. */
  lemma Example2ReachesPipe(os: Os, p: Proc)
    requires OpensAboveStd(os)
    ensures var (fd, p1) := Open(os, p, "f", WriteOnly);
      RunLine(os, "a > f | b", p) == Split(os, [WordTok("b")], ["a"], MoveOnto(p1, fd, 1))
  {
    TokensOfExample2();
    var toks := Tokens("a > f | b");
    assert [] + ["a"] == ["a"];
    assert Collect(os, toks, [], p) == Collect(os, toks[1..], ["a"], p);
    assert toks[1..][1..] == [WordTok("f"), SymTok('|'), WordTok("b")];
    var (fd, p1) := Open(os, p, "f", WriteOnly);
    assert toks[1..][1..][1..] == [SymTok('|'), WordTok("b")];
    assert Collect(os, toks[1..], ["a"], p) == Collect(os, [SymTok('|'), WordTok("b")], ["a"], MoveOnto(p1, fd, 1));
  }

  /** The right-hand side of `a > f | b` runs its command. */
  lemma Example2ChildRuns(os: Os, q: Proc)
    requires PipeAboveStd(os, q.pipes) && os.fork(q.forks) == 0
    ensures Split(os, [WordTok("b")], ["a"], q).exit == Finished
  {
    var rest := [WordTok("b")];
    var c := Reader(os, q);
    SplitSides(os, rest, ["a"], q);
    assert [] + ["b"] == ["b"];
    assert Collect(os, rest, [], c) == Collect(os, [], ["b"], c);
  }

  /** The right-hand side of `a > f | b`, from the process reaching `|`:
    * it runs `b` with the pipe on slot 0 and slot 1 as it was. */
  lemma Example2Child(os: Os, q: Proc)
    requires OpensAboveStd(os) && PipeAboveStd(os, q.pipes) && os.fork(q.forks) == 0
    ensures var o := Split(os, [WordTok("b")], ["a"], q);
      && o.exit == Finished
      && q.trace <= o.proc.trace
      && var s := FirstSpawn(o.proc.trace[|q.trace|..]);
         s.Some? && s.value.argv == ["/b"] && SameStd(s.value.fds, q.fds[0 := PipeRead(q.pipes)])
  {
    var rest := [WordTok("b")];
    Example2ChildRuns(os, q);
    PipeReaderSlots(os, rest, ["a"], q);
    assert Words(rest) == ["b"];
    assert SpawnPath("b") == "/b";
    assert Argv(["b"]) == ["/b"];
    assert Bindings(q.fds[0 := PipeRead(q.pipes)], rest) == q.fds[0 := PipeRead(q.pipes)];
  }

  /** The left-hand side of `a > f | b`, from the process reaching `|`:
    * it runs `a` with the pipe's write end on slot 1. */
  lemma Example2Parent(os: Os, q: Proc)
    requires PipeAboveStd(os, q.pipes) && os.fork(q.forks) > 0
    ensures var o := Split(os, [WordTok("b")], ["a"], q);
      && o.exit == Finished
      && q.trace <= o.proc.trace
      && var s := FirstSpawn(o.proc.trace[|q.trace|..]);
         s.Some? && s.value.argv == ["/a"] && SameStd(s.value.fds, q.fds[1 := PipeWrite(q.pipes)])
  {
    PipeWriterSlots(os, [WordTok("b")], ["a"], q);
    assert SpawnPath("a") == "/a";
    assert Argv(["a"]) == ["/a"];
  }

  /** `a > f | b`: the redirection runs before the fork, so the process that
    * runs `b` inherits it and writes to `f`, while `a` writes into the
    * pipe, whose write end replaces `f` on slot 1 after the fork. */
  lemma EarlierRedirectIsInherited(os: Os, p: Proc)
    requires OpensAboveStd(os) && PipeAboveStd(os, p.pipes) && os.fork(p.forks) >= 0
    ensures var o := RunLine(os, "a > f | b", p);
      && o.exit == Finished
      && p.trace <= o.proc.trace
      && var s := FirstSpawn(o.proc.trace[|p.trace|..]);
         && s.Some? && 1 in s.value.fds
         && (os.fork(p.forks) == 0 ==>
               s.value.argv == ["/b"] && s.value.fds[1] == File("f", WriteOnly) && 0 in s.value.fds && s.value.fds[0] == PipeRead(p.pipes))
         && (os.fork(p.forks) > 0 ==>
               s.value.argv == ["/a"] && s.value.fds[1] == PipeWrite(p.pipes))
  {
    Example2ReachesPipe(os, p);
    var (fd, p1) := Open(os, p, "f", WriteOnly);
    var q := MoveOnto(p1, fd, 1);
    OpenedOnto(os, p, "f", WriteOnly, 1);
    assert q.pipes == p.pipes && q.forks == p.forks;
    var o := Split(os, [WordTok("b")], ["a"], q);
    if os.fork(p.forks) == 0 {
      Example2Child(os, q);
    } else {
      Example2Parent(os, q);
    }
    SetupSkipped(p, q, o.proc);
  }
}
