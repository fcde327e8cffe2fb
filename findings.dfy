/** Three places where `runcmd` as written does not do what its comments and
  * the rest of the code evidently intend.  Each is modelled here as written,
  * with an input that reaches it; the rest of the model uses the corrected
  * behaviour (`Runcmd.SpawnPath` and the argv array of `Runcmd.Execute`). */
module Findings {
  import opened Lexer
  import opened Sys
  import opened Runcmd
  import opened RuncmdProps

  // ---------------------------------------------------------------------
  // spawn is handed `argv0buf` even when argv[0] was not copied into it.

  /** The path `spawn(argv0buf, argv)` receives as written: `argv0buf` is
    * only filled when argv[0] does not start with '/'; otherwise it holds
    * whatever the stack held before (`stale`). */
  function SpawnPathAsWritten(arg0: string, stale: string): (path: string)
    ensures path == SpawnPath(arg0) <==> !(|arg0| > 0 && arg0[0] == '/') || stale == arg0
  {
    if |arg0| > 0 && arg0[0] == '/' then stale else "/" + arg0
  }

  /** The line `/ls` reaches `runit` with argv[0] = "/ls", and as written the
    * program spawned is whatever `argv0buf` held, not `/ls`. */
  lemma AbsoluteCommandSpawnsStaleBuffer(os: Os, p: Proc)
    ensures NUL !in "/ls" && RunLine(os, "/ls", p) == Runit(os, ["/ls"], p, 0)
    ensures SpawnPath("/ls") == "/ls"
    ensures forall stale :: stale != "/ls" ==> SpawnPathAsWritten("/ls", stale) != SpawnPath("/ls")
  {
    assert IsWord("/ls") by {
      assert forall k :: 0 <= k < 3 ==> IsWordChar("/ls"[k]);
    }
    WordLine("/ls");
    WordsAreArguments(os, [WordTok("/ls")], [], p);
    assert [] + Texts([WordTok("/ls")]) == ["/ls"];
  }

  // ---------------------------------------------------------------------
  // `argv[argc] = 0` with argc == MAXARGS.

  /** `char *argv[MAXARGS]`: the number of cells the array has as written. */
  const ArgvCellsAsWritten: nat := MAXARGS

  predicate TerminatorFits(argc: nat, cells: nat) {
    argc < cells
  }

  /** Sixteen one-letter words are accepted (the check against MAXARGS comes
    * before each word is stored) and reach `runit` with argc == 16, where
    * `argv[argc] = 0` falls outside an array of MAXARGS cells but inside one
    * of MAXARGS + 1. */
  lemma SixteenWordsOverrunArgv(os: Os, p: Proc)
    ensures var ws := seq(MAXARGS, k => "a");
      && NUL !in Spaced(ws)
      && RunLine(os, Spaced(ws), p).exit == Finished
      && RunLine(os, Spaced(ws), p) == Runit(os, ws, p, 0)
      && !TerminatorFits(|ws|, ArgvCellsAsWritten)
      && TerminatorFits(|ws|, MAXARGS + 1)
  {
    var ws := seq(MAXARGS, k => "a");
    forall k | 0 <= k < |ws| ensures IsWord(ws[k]) {
      assert ws[k] == "a";
      assert IsWordChar("a"[0]);
    }
    WordsLine(os, ws, p);
  }

  // ---------------------------------------------------------------------
  // `strcpy(argv0buf + 1, argv[0])` into BUFSIZ bytes.

  /** The bytes written into `argv0buf` for a relative argv[0]: the '/', the
    * name and its terminating NUL. */
  function Argv0BufBytes(arg0: string): nat {
    1 + |arg0| + 1
  }

  predicate FitsArgv0Buf(arg0: string) {
    Argv0BufBytes(arg0) <= BUFSIZ
  }

  /** A line that is one word of BUFSIZ - 1 letters reaches `runit` with that
    * word as argv[0], and the copy into `argv0buf` needs more than BUFSIZ
    * bytes; the corrected `SpawnPath` holds the whole name. */
  lemma LongCommandOverrunsArgv0Buf(os: Os, p: Proc)
    ensures var w := seq(BUFSIZ - 1, k => 'a');
      && NUL !in w
      && RunLine(os, w, p) == Runit(os, [w], p, 0)
      && !FitsArgv0Buf(w)
      && SpawnPath(w) == "/" + w
  {
    var w := seq(BUFSIZ - 1, k => 'a');
    assert IsWord(w) by {
      forall k | 0 <= k < |w| ensures IsWordChar(w[k]) {
        assert w[k] == 'a';
      }
    }
    WordLine(w);
    WordsAreArguments(os, [WordTok(w)], [], p);
    assert [] + Texts([WordTok(w)]) == [w];
  }
}
