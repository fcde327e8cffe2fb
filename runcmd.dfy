/** `runcmd` of user/sh.c: parse one command line and execute it.
  *
  * `runcmd` runs in a forked child of the shell and never returns to parse
  * another line.  On `|` it forks again, and each of the two processes goes
  * on with its own copy of the parser state.  The model follows one process.
  * The reply of each fork (from the `Os` oracle) says which side that
  * process is on. */
module Runcmd {
  import opened Lexer
  import opened Sys

  /** Most words a command may have. */
  const MAXARGS: nat := 16

  /** Size of `argv0buf`. */
  const BUFSIZ: nat := 1024

  /** Why a process stops early.  Each is a message followed by `exit()`. */
  datatype Failure =
    | TooManyArgs
    | NotFollowedByWord(op: char)
    | OpenFailed(path: string, mode: Mode, r: int)
    | PipeFailed(r: int)
    | ForkFailed(r: int)

  /** How `runcmd` ends in this process.  `Panicked` is the `default` case of
    * the token switch, reached by the reserved symbols `&;()`. */
  datatype Exit =
    | Failed(failure: Failure)
    | Panicked(sym: char)
    | EmptyCommand
    | Finished

  datatype Outcome = Outcome(exit: Exit, proc: Proc)

  datatype Option<T> = None | Some(value: T)

  /** The program path handed to spawn: `argv[0]`, with a `/` put in front
    * when it has none. */
  function SpawnPath(arg0: string): (path: string)
    ensures |path| > 0 && path[0] == '/'
    ensures path == arg0 || path == "/" + arg0
    ensures path == arg0 <==> |arg0| > 0 && arg0[0] == '/'
  {
    if |arg0| > 0 && arg0[0] == '/' then arg0 else "/" + arg0
  }

  /** The label `runit`: run the collected words as a command.  `pipeChild`
    * is the process id of the right-hand side of a pipe, or 0. */
  function Runit(os: Os, args: seq<string>, p: Proc, pipeChild: int): Outcome
  {
    if |args| == 0 then Outcome(EmptyCommand, p)
    else
      var path := SpawnPath(args[0]);
      var (r, p1) := Spawn(os, p, path, [path] + args[1..]);
      var p2 := CloseAll(p1);
      var p3 := if r >= 0 then Wait(p2, r) else p2;
      var p4 := if pipeChild != 0 then Wait(p3, pipeChild) else p3;
      Outcome(Finished, p4)
  }

  /** The token loop of `runcmd` (the `while (1)` switch) from the point
    * where the words `args` have been collected and `toks` are the tokens
    * still to come. */
  function Collect(os: Os, toks: seq<Token>, args: seq<string>, p: Proc): Outcome
    requires |args| <= MAXARGS
    decreases |toks|, 1
  {
    if toks == [] then Runit(os, args, p, 0)
    else match toks[0]
      case WordTok(w) =>
        if |args| == MAXARGS then Outcome(Failed(TooManyArgs), p)
        else Collect(os, toks[1..], args + [w], p)
      case SymTok(ch) =>
        if ch == '<' || ch == '>' then Redirect(os, ch, toks[1..], args, p)
        else if ch == '|' then Split(os, toks[1..], args, p)
        else Outcome(Panicked(ch), p)
  }

  /** The descriptor slot `<` and `>` bind: standard input or standard output. */
  function Slot(op: char): int {
    if op == '<' then 0 else 1
  }

  function ModeOf(op: char): Mode {
    if op == '<' then ReadOnly else WriteOnly
  }

  /** The cases `<` and `>`: the next token must be a word, the file it names
    * is opened and moved onto the slot, and collecting goes on. */
  function Redirect(os: Os, op: char, rest: seq<Token>, args: seq<string>, p: Proc): Outcome
    requires |args| <= MAXARGS
    decreases |rest| + 1, 0
  {
    if rest == [] || !rest[0].WordTok? then Outcome(Failed(NotFollowedByWord(op)), p)
    else
      var (fd, p1) := Open(os, p, rest[0].text, ModeOf(op));
      if fd < 0 then Outcome(Failed(OpenFailed(rest[0].text, ModeOf(op), fd)), p1)
      else Collect(os, rest[1..], args, MoveOnto(p1, fd, Slot(op)))
  }

  /** The case `|`: make a pipe and fork.  The child reads from the pipe and
    * starts a new command with the tokens after `|`; the parent writes into
    * the pipe and runs the words collected so far. */
  function Split(os: Os, rest: seq<Token>, args: seq<string>, p: Proc): Outcome
    requires |args| <= MAXARGS
    decreases |rest| + 1, 0
  {
    var (pr, p1) := Pipe(os, p);
    if pr.r < 0 then Outcome(Failed(PipeFailed(pr.r)), p1)
    else
      var (f, p2) := Fork(os, p1);
      if f < 0 then Outcome(Failed(ForkFailed(f)), p2)
      else if f == 0 then Collect(os, rest, [], Close(MoveOnto(p2, pr.rd, 0), pr.wr))
      else Runit(os, args, Close(MoveOnto(p2, pr.wr, 1), pr.rd), f)
  }

  /** What `runcmd(s)` does in the process that calls it, for a line held in
    * a buffer that ends in NUL. */
  function RunLine(os: Os, line: string, p: Proc): Outcome
    requires NUL !in line
  {
    Collect(os, Tokens(line), [], p)
  }

  // ---------------------------------------------------------------------
  // The C strings `argv` points at.

  /** The first `|ptrs|` entries of `argv` point at the C strings `words`,
    * which all end before `bound`. */
  ghost predicate ArgvHolds(b: seq<char>, ptrs: seq<Ptr>, words: seq<string>, bound: nat)
  {
    && Terminated(b) && |ptrs| == |words|
    && forall k :: 0 <= k < |ptrs| ==> PointsAt(b, ptrs[k], words[k], bound)
  }

  ghost predicate PointsAt(b: seq<char>, t: Ptr, w: string, bound: nat)
    requires Terminated(b)
  {
    t.At? && t.i < |b| && t.i + |w| < bound && CStr(b, t.i) == w
  }

  /** Writing only at or after `bound` keeps every collected argument. */
  lemma ArgvSurvives(b: seq<char>, b': seq<char>, ptrs: seq<Ptr>, words: seq<string>, bound: nat, bound': nat)
    requires ArgvHolds(b, ptrs, words, bound) && Terminated(b') && bound <= bound'
    requires Agree(b, b', bound)
    ensures ArgvHolds(b', ptrs, words, bound')
  {
    forall k | 0 <= k < |ptrs|
      ensures PointsAt(b', ptrs[k], words[k], bound')
    {
      CStrFrame(b, b', ptrs[k].i, bound);
    }
  }

  /** Storing one more word pointer. */
  lemma ArgvPush(b: seq<char>, ptrs: seq<Ptr>, words: seq<string>, bound: nat, t: Ptr, w: string)
    requires ArgvHolds(b, ptrs, words, bound)
    requires t.At? && t.i < |b| && t.i + |w| < bound && CStr(b, t.i) == w
    ensures ArgvHolds(b, ptrs + [t], words + [w], bound)
  {
  }

  /** The strings of the first `|ptrs|` arguments, as spawn reads them. */
  function ArgStrings(b: seq<char>, ptrs: seq<Ptr>): (words: seq<string>)
    requires Terminated(b)
    requires forall k :: 0 <= k < |ptrs| ==> ptrs[k].At? && ptrs[k].i < |b|
    ensures |words| == |ptrs|
    ensures forall k :: 0 <= k < |ptrs| ==> words[k] == CStr(b, ptrs[k].i)
  {
    seq(|ptrs|, k requires 0 <= k < |ptrs| => CStr(b, ptrs[k].i))
  }

  // ---------------------------------------------------------------------
  // The imperative parser and executor.

  /** `runcmd(s)` for the C string at the start of `line`.  It runs the
    * tokenizer over the buffer in place, keeps word pointers in `argv`, and
    * acts on the process state `p0` through the primitives of `Sys`.  The
    * outcome is the token loop `Collect` applied to the tokens of the line. */
  method RunCmd(os: Os, line: array<char>, p0: Proc, debug: int) returns (out: Outcome)
    requires Terminated(line[..])
    modifies line
    ensures out == Collect(os, TokensFrom(old(line[..]), 0), [], p0)
  {
    var lex := new Lexer(line, debug);
    // One cell more than MAXARGS, for the terminating null pointer.
    var argv := new Ptr[MAXARGS + 1];
    var p := p0;
    var pipeChild := 0;
    var _ := lex.Bind(0);
    ghost var goal := Collect(os, lex.Rest, [], p0);
    var argc := 0;
    ghost var words: seq<string> := [];
    ghost var ptrs: seq<Ptr> := [];
    while true
      invariant lex.buf == line && lex.Valid()
      invariant argc <= MAXARGS && |words| == argc
      invariant argv[..argc] == ptrs
      invariant ArgvHolds(line[..], ptrs, words, lex.Frontier())
      invariant Collect(os, lex.Rest, words, p) == goal
      decreases |lex.Rest|
    {
      var next;
      next, argc, ptrs, words, p := Step(os, lex, argv, argc, ptrs, words, p);
      match next
      case Continue =>
      case Stop(o) => return o;
      case Run(r) => pipeChild := r; break;
    }
    out := Execute(os, line, argv, argc, words, p, pipeChild);
  }

  /** What one pass of the token switch decides: go on reading tokens, end
    * the process with an outcome, or jump to `runit` with the given
    * `pipe_child`. */
  datatype Next = Continue | Stop(out: Outcome) | Run(pipeChild: int)

  /** One pass of the `while (1)` switch of `runcmd`: fetch a token and act
    * on it.  `argv[..argc]` points at the words collected so far.  Each
    * decision agrees with the token loop `Collect` on the tokens that were
    * still to come. */
  method Step(os: Os, lex: Lexer, argv: array<Ptr>, argc: nat, ghost ptrs: seq<Ptr>, ghost words: seq<string>, p: Proc)
    returns (next: Next, argc': nat, ghost ptrs': seq<Ptr>, ghost words': seq<string>, p': Proc)
    requires lex.Valid() && argv.Length == MAXARGS + 1 && argc <= MAXARGS && |words| == argc
    requires argv[..argc] == ptrs && ArgvHolds(lex.buf[..], ptrs, words, lex.Frontier())
    modifies lex, lex.buf, argv
    ensures lex.Valid() && argc' <= MAXARGS && |words'| == argc'
    ensures argv[..argc'] == ptrs' && ArgvHolds(lex.buf[..], ptrs', words', lex.Frontier())
    ensures next.Continue? ==>
      |lex.Rest| < |old(lex.Rest)| && Collect(os, lex.Rest, words', p') == Collect(os, old(lex.Rest), words, p)
    ensures next.Stop? ==> next.out == Collect(os, old(lex.Rest), words, p)
    ensures next.Run? ==> Runit(os, words', p', next.pipeChild) == Collect(os, old(lex.Rest), words, p)
  {
    ghost var before := lex.buf[..];
    ghost var toks := lex.Rest;
    ghost var frontier := lex.Frontier();
    var c, t := lex.Fetch();
    ArgvSurvives(before, lex.buf[..], ptrs, words, frontier, lex.Frontier());
    argc', ptrs', words', p' := argc, ptrs, words, p;
    if c == Word {
      if argc == MAXARGS {
        return Stop(Outcome(Failed(TooManyArgs), p)), argc', ptrs', words', p';
      }
      ArgvPush(lex.buf[..], ptrs, words, lex.Frontier(), t, toks[0].text);
      Push(argv, argc, t);
      argc', ptrs', words' := argc + 1, ptrs + [t], words + [toks[0].text];
      next := Continue;
    } else if c == Sym('<') || c == Sym('>') {
      var stop;
      stop, p' := Redirection(os, lex, c.ch, ptrs, words, p);
      next := if stop.Some? then Stop(stop.value) else Continue;
    } else if c == Sym('|') {
      var piped := Pipe(os, p);
      var pr := piped.0;
      p' := piped.1;
      if pr.r < 0 {
        return Stop(Outcome(Failed(PipeFailed(pr.r)), p')), argc', ptrs', words', p';
      }
      var forked := Fork(os, p');
      var r := forked.0;
      p' := forked.1;
      if r < 0 {
        return Stop(Outcome(Failed(ForkFailed(r)), p')), argc', ptrs', words', p';
      }
      if r == 0 {
        // The right-hand side: read from the pipe and start a new command.
        p' := Close(MoveOnto(p', pr.rd, 0), pr.wr);
        argc', ptrs', words' := 0, [], [];
        next := Continue;
      } else {
        // The left-hand side: write into the pipe and run what was collected.
        p' := Close(MoveOnto(p', pr.wr, 1), pr.rd);
        next := Run(r);
      }
    } else if c == End {
      next := Run(0);
    } else {
      next := Stop(Outcome(Panicked(c.ch), p));
    }
  }

  /** The cases `<` and `>` once the operator has been fetched: fetch the
    * file name, open it and move it onto the slot.  `stop` says that the
    * process exits with `out`; otherwise the token loop goes on with `q`. */
  method Redirection(os: Os, lex: Lexer, op: char, ghost ptrs: seq<Ptr>, ghost words: seq<string>, p: Proc)
    returns (stop: Option<Outcome>, q: Proc)
    requires lex.Valid() && |words| <= MAXARGS
    requires ArgvHolds(lex.buf[..], ptrs, words, lex.Frontier())
    modifies lex, lex.buf
    ensures lex.Valid()
    ensures ArgvHolds(lex.buf[..], ptrs, words, lex.Frontier())
    ensures |lex.Rest| <= |old(lex.Rest)|
    ensures stop.Some? ==> stop.value == Redirect(os, op, old(lex.Rest), words, p)
    ensures stop.None? ==> Collect(os, lex.Rest, words, q) == Redirect(os, op, old(lex.Rest), words, p)
  {
    ghost var before := lex.buf[..];
    ghost var frontier := lex.Frontier();
    ghost var rest := lex.Rest;
    var c, t := lex.Fetch();
    ArgvSurvives(before, lex.buf[..], ptrs, words, frontier, lex.Frontier());
    if c != Word {
      return Some(Outcome(Failed(NotFollowedByWord(op)), p)), p;
    }
    var path := CStr(lex.buf[..], t.i);
    var mode := ModeOf(op);
    var o := Open(os, p, path, mode);
    var fd := o.0;
    q := o.1;
    if fd < 0 {
      return Some(Outcome(Failed(OpenFailed(path, mode, fd)), q)), q;
    }
    q := MoveOnto(q, fd, Slot(op));
    stop := None;
  }

  /** `argv[argc] = t`, seen as appending to the first `argc` entries. */
  method Push(argv: array<Ptr>, argc: nat, t: Ptr)
    requires argc < argv.Length
    modifies argv
    ensures argv[..argc + 1] == old(argv[..argc]) + [t]
  {
    argv[argc] := t;
    assert argv[..argc + 1] == old(argv[..argc]) + [t];
  }

  /** The code after the label `runit`: normalise `argv[0]`, terminate the
    * vector, spawn, close every descriptor, and wait for the spawned program
    * and then for the right-hand side of the pipe. */
  method Execute(os: Os, line: array<char>, argv: array<Ptr>, argc: nat, ghost words: seq<string>, p0: Proc, pipeChild: int)
    returns (out: Outcome)
    requires argc <= MAXARGS && argv.Length == MAXARGS + 1
    requires ArgvHolds(line[..], argv[..argc], words, line.Length)
    modifies argv
    ensures out == Runit(os, words, p0, pipeChild)
  {
    if argc == 0 {
      return Outcome(EmptyCommand, p0);
    }
    var args := ArgStrings(line[..], argv[..argc]);
    assert args == words;
    var path := SpawnPath(args[0]);
    argv[argc] := Null;
    var spawned := Spawn(os, p0, path, [path] + args[1..]);
    var r := spawned.0;
    var p := CloseAll(spawned.1);
    if r >= 0 {
      p := Wait(p, r);
    }
    if pipeChild != 0 {
      p := Wait(p, pipeChild);
    }
    return Outcome(Finished, p);
  }
}
