# A verified model of the JOS shell (`user/sh.c`)

This project models the core of the JOS user-level shell in Dafny: the
tokenizer (`_gettoken` and `gettoken`), the command parser and executor
`runcmd`, in the version that implements redirection and pipes, and the
read loop of `umain`, with its flags, script file, comment rule and echo rule.

The model has five modules:

- `Lexer` (`lexer.dfy`) covers the token classes and a reference tokenizer.
  - `TokensFrom`/`Tokens` is the reference tokenizer: what a line means as a sequence of tokens.
  - `Scan` is the pure step function of `_gettoken`, including the NULs it writes into the line.
  - The class `Lexer` is `gettoken` with its static lookahead (`nc`, `np1`, `np2`). Its fields are an `array<char>` line that `ScanToken`, `Bind` and `Fetch` modify in place.
  - A ghost field `Rest` holds the tokens still to come. `Valid()` ties the lookahead to `Rest`.
- `Sys` (`sys.dfy`) models the process state one `runcmd` or `umain` process sees.
  - The state is a descriptor table plus the trace of system calls made.
  - The replies of `open`, `pipe`, `fork` and `spawn` come from an oracle `Os`, indexed by how many such calls were made so far.
  - A fork reply of 0 means "this process is the child". Each function describes the one process that called it.
- `Runcmd` (`runcmd.dfy`) holds the token loop and the imperative `runcmd`.
  - The pure token loop `Collect`, with `Redirect`, `Split` and `Runit`, says what `runcmd` does for a sequence of tokens.
  - The imperative `RunCmd` runs the `Lexer` over the line in place and keeps word pointers in an `argv` array. It is proved equal to `Collect` applied to the reference tokens of the line.
- `RuncmdProps` (`runcmd_props.dfy`) proves what a user of the shell relies on:
  - words become arguments, and the seventeenth word is rejected;
  - `<`/`>` need a file name, and the reserved symbols panic;
  - the order of system calls;
  - which file the spawned program sees on standard input and output;
  - both sides of a pipe.
- `Driver` (`driver.dfy`) models `umain`.
  - `Session` is the read loop up to the point where this process stops reading; `Finish` lets a forked child run its line.
  - `Shell` adds the flags and the script file; the method `Umain` is proved equal to it.
- `Findings` (`findings.dfy`) covers three defects of `runcmd` as written. See "Findings" below.

## Model

| member | source | states |
|---|---|---|
| Lexer.ClassesAreTheSets | user/sh.c:237-238 | the whitespace and symbol predicates hold exactly for the characters of WHITESPACE and SYMBOLS, and the terminating NUL is in neither class |
| Lexer.SkipWhitespace | user/sh.c:257-258 | the position where the whitespace loop stops is the first non-whitespace cell at or after the start, and every cell it passes is whitespace |
| Lexer.WordEnd | user/sh.c:273-276 | a word runs up to the first cell that is NUL, whitespace or a symbol, and every cell before it is a word character |
| Lexer.Lexer.BlankWhitespace | user/sh.c:257-258 | the loop `*s++ = 0` stops where `SkipWhitespace` says and overwrites exactly the whitespace it passes with NUL, leaving every other cell as it was |
| Lexer.Lexer.SkipWord | user/sh.c:273-276 | the word loop stops at `WordEnd` without changing the line |
| Lexer.Scan | user/sh.c:240-284 | definition: one `_gettoken` call as a pure step on the line, giving the token code, `*p1`, `*p2` and the line with the NULs the call writes; no property stated here (see `ScanToken`, `ScanMatchesReference`, `ScanWritesAhead`) |
| Lexer.TokensFrom | user/sh.c:240-300 | definition: the reference tokenization of a line from a position, independent of the pointer code; no property stated here (see `ScanMatchesReference`, `TokensWellFormed`, `Bind`) |
| Lexer.Lexer.ScanToken | user/sh.c:240-284 | `_gettoken` in place returns the same code, `*p1`, `*p2` and line contents as the step function `Scan`, for a null `s` (returns 0 and leaves the pointers and the line alone), end of line, a symbol and a word, including the debug write-and-restore of `**p2` |
| Lexer.ScanMatchesReference | user/sh.c:240-284 | one `_gettoken` at any position of a terminated line yields the first token of the reference tokenization from there, and leaves its pointers so that the next call yields the rest |
| Lexer.ScanWritesAhead | user/sh.c:254-283 | `_gettoken` only ever writes NUL, only at cells from its start up to where the next call starts, and always blanks a start cell that is not a word character |
| Lexer.ScanTerminatesWord | user/sh.c:254-268 | the call that starts right after a word NUL-terminates it: afterwards the C string at the word's start is exactly the word |
| Lexer.TokensWellFormed | user/sh.c:259-283 | every token of a line is either a non-empty word made only of word characters or one character of SYMBOLS |
| Lexer.Lexer.Bind | user/sh.c:292-295 | `gettoken(s, 0)` returns 0 and makes the pending tokens exactly the reference tokenization of the line from `s`, leaving the cells before `s` unchanged |
| Lexer.Lexer.Fetch | user/sh.c:296-299 | `gettoken(0, &t)` returns the code of the next pending token (0 once there are none) and consumes it; for a word, `t` points at a C string equal to the word, and later cells only are written |
| Lexer.FetchStep | user/sh.c:286-300 | one fetch keeps the lookahead invariant: the returned code is that of the first pending token and the new lookahead describes the remaining ones, with the word's text already terminated in the buffer |
| Lexer.SpacedTokens | user/sh.c:240-284 | a line of words, each followed by one blank, tokenizes to exactly those words in order |
| Lexer.WordLine | user/sh.c:273-283 | a line that is one word is one word token |
| Sys.MoveOnto | user/sh.c:55-58 | `if (fd != slot) { dup(fd, slot); close(fd); }` leaves `slot` referring to what `fd` referred to, `fd` closed unless it is the slot, every other descriptor and every counter as before, and logs exactly the dup and close |
| Runcmd.Collect | user/sh.c:33-166 | definition: the token loop of `runcmd` as a pure function of the tokens, the collected words and the process state; no property stated here (see `RunCmd`, `Step` and the `RuncmdProps` lemmas) |
| Runcmd.Redirect | user/sh.c:44-87 | definition: the `<` and `>` cases of the token loop; no property stated here (see `Redirection`, `RedirectNeedsWord`, `LastRedirectWins`) |
| Runcmd.Split | user/sh.c:102-128 | definition: the pipe case of the token loop, from the pipe call through the fork to either side; no property stated here (see `SplitSides`, `SidesSlots`, `PipeShape`) |
| Runcmd.Runit | user/sh.c:169-222 | definition: the code after the `runit` label; no property stated here (see `Execute`, `RunitOrder`, `RunitSpawn`) |
| Runcmd.RunLine | user/sh.c:22-222 | definition: `runcmd` on a line, the token loop applied to the reference tokens of the line from a fresh state; no property stated here (see `RunCmd`, `WordsLine`, `BlankLine`) |
| Runcmd.SpawnPath | user/sh.c:181-185 | the program path is absolute; it is argv[0] itself exactly when argv[0] starts with '/', and otherwise argv[0] with a '/' in front |
| Runcmd.RunCmd | user/sh.c:22-222 | `runcmd` over the line in place ends with the same outcome and process state as the token loop `Collect` applied to the reference tokens of the line |
| Runcmd.Step | user/sh.c:33-166 | one pass of the token switch agrees with `Collect`: a word is stored in `argv` unless MAXARGS are already there, `<`/`>` redirect, the pipe symbol pipes and forks, end of line jumps to `runit`, any other symbol panics; the collected argv pointers keep pointing at their words |
| Runcmd.Redirection | user/sh.c:44-58 | the cases `<` and `>`: fail unless the next token is a word, fail when the open fails, otherwise move the opened file onto slot 0 or 1 and go on |
| Runcmd.Push | user/sh.c:41 | `argv[argc++] = t` appends `t` to the first `argc` cells |
| Runcmd.Execute | user/sh.c:169-222 | the code after `runit`: an empty command returns; otherwise spawn the normalised path with the collected words, close everything, wait for the spawned process if spawn succeeded and then for the pipe's right-hand side |
| RuncmdProps.WordsAreArguments | user/sh.c:36-42 | tokens that are all words, up to MAXARGS in total, end up as the arguments of `runit`, in order, with no pipe child |
| RuncmdProps.TooManyWords | user/sh.c:37-40 | once a seventeenth word is reached the process exits with "too many arguments" and makes no call |
| RuncmdProps.WordsLine | user/sh.c:22-42 | a line of at most MAXARGS blank-separated words runs those words as the command |
| RuncmdProps.TooManyWordsLine | user/sh.c:37-40 | a line of more than MAXARGS words fails with "too many arguments" and spawns nothing |
| RuncmdProps.RedirectNeedsWord | user/sh.c:44-49 | `<` or `>` not followed by a word is a syntax error that makes no call |
| RuncmdProps.ReservedSymbolsPanic | user/sh.c:162-163 | the symbols `&`, `;`, `(` and `)` are the only other tokens, and each one panics |
| RuncmdProps.RunitOrder | user/sh.c:169-222 | `runit` finishes exactly when there is a word; its calls are spawn with the current descriptors, close_all, the wait for the spawned process only when spawn succeeded, then the wait for the pipe child only when there is one |
| RuncmdProps.RunitSpawn | user/sh.c:181-197 | the first spawn after `runit` gets the normalised path as argv[0] and the other words unchanged, with the descriptors as set up |
| RuncmdProps.TraceShape | user/sh.c:22-222 | every call `runcmd` makes before `runit` is an open, dup, close, pipe or fork, and the spawn-close-wait sequence comes last and only when the command was run |
| RuncmdProps.RedirectShape | user/sh.c:44-87 | the same trace shape from a `<` or `>` on |
| RuncmdProps.PipeShape | user/sh.c:102-128 | the same trace shape from a pipe symbol on, on either side of the fork |
| RuncmdProps.SplitSides | user/sh.c:102-128 | after a successful pipe and fork, the child starts a new command with no words from the token after the pipe symbol, and the parent runs its words with `pipe_child` set to the fork's reply |
| RuncmdProps.SidesSlots | user/sh.c:113-127 | the child's standard input is the pipe's read end and the parent's standard output its write end, other standard slots unchanged, and neither side keeps either pipe descriptor open |
| RuncmdProps.OpenedOnto | user/sh.c:50-58 | a successful open moved onto slot 0 or 1 binds that slot to the named file in the right mode, using setup calls only |
| RuncmdProps.LastRedirectWins | user/sh.c:44-87 | in a command without a pipe symbol, the spawned program sees on slots 0 and 1 what the last `<` and the last `>` named, and as arguments the words in order |
| RuncmdProps.RedirectWins | user/sh.c:44-87 | the same from a `<` or `>` token on |
| RuncmdProps.PipeReaderSlots | user/sh.c:113-119 | when no further pipe symbol follows, the right-hand side of a pipe starts from standard input bound to the pipe, later redirections override it, and it runs only the words after the pipe symbol |
| RuncmdProps.PipeWriterSlots | user/sh.c:120-127 | the left-hand side ignores the tokens after the pipe symbol, runs only when it has words, spawns with standard output bound to the pipe, and waits for the pipe child last |
| RuncmdProps.ReachPipe | user/sh.c:31-128 | for a line whose first pipe symbol follows tokens `pre`, the token loop either stops before the pipe symbol (a panic, or a failure that is not a pipe or fork failure) or reaches it with the words of `pre` collected, standard slots bound as the redirections of `pre` say, and setup calls only; when it stops, the outcome is the same whatever tokens follow the pipe symbol |
| RuncmdProps.RightSideInherits | user/sh.c:113-119 | when no further pipe symbol follows, the right-hand side of the first pipe symbol, when its command runs, reads the pipe unless it redirects `<` itself, keeps the standard output that the redirections before the pipe symbol bound unless it redirects `>` itself, and runs only the words after the pipe symbol |
| RuncmdProps.ReaderAfterPrefix | user/sh.c:113-119 | the same, again when no further pipe symbol follows, from the process that reached the pipe symbol with given standard slots |
| RuncmdProps.LeftSideKeeps | user/sh.c:120-127 | the left-hand side of the first pipe symbol, when it runs, spawns the words before the pipe symbol with standard output on the pipe and standard input as the redirections before it bound, and waits for the right-hand side last |
| RuncmdProps.BlankLine | user/sh.c:170-175 | an all-whitespace line makes no call at all |
| RuncmdProps.TokensOfExample1 | user/sh.c:240-300 | the line `a`, pipe symbol, `b < f` is the tokens a, pipe, b, <, f |
| RuncmdProps.TokensOfExample2 | user/sh.c:240-300 | the line `a > f`, pipe symbol, `b` is the tokens a, >, f, pipe, b |
| RuncmdProps.LaterRedirectOverridesPipe | user/sh.c:113-119 | in the line `a`, pipe symbol, `b < f`, the right-hand side runs `/b` with standard input the file `f`, not the pipe |
| RuncmdProps.EarlierRedirectIsInherited | user/sh.c:79-87 | in the line `a > f`, pipe symbol, `b`, the left-hand side runs `/a` writing into the pipe, and the right-hand side runs `/b` reading the pipe with standard output still the file `f` |
| Driver.Session | user/sh.c:342-368 | the read loop stops only at end of input, on a failed fork, or as the child forked for a line, and that line is a line of the input that is not a comment |
| Driver.Finish | user/sh.c:363-365 | definition: the child forked for a line runs `runcmd` on it and exits with that outcome; every other ending is left as it is; no property stated here (see `Umain`, `UsageRule`) |
| Driver.Shell | user/sh.c:310-368 | a child only ever runs a line of the input |
| Driver.Umain | user/sh.c:310-368 | the imperative `umain` (flag loop, script file, read loop, fork, `runcmd` in the child, `wait` in the parent) ends as `Finish(Shell(...))` |
| Driver.Terminate | user/sh.c:345 | the line handed to `runcmd` is a fresh buffer holding the line's characters and a NUL |
| Driver.Uncommented | user/sh.c:353-354 | the lines kept are input lines that are not comments |
| Driver.CommentsSkipped | user/sh.c:353-354 | dropping every comment line from the input changes nothing: no echo, no fork, no wait for a comment |
| Driver.EndOfInputWaitedForAll | user/sh.c:346-367 | the shell reaches end of input exactly when every fork made this process the parent; it has then echoed (with `-x`), forked and waited for each non-comment line in order, and made no other call |
| Driver.ParentLoop | user/sh.c:346-367 | the same for an input without comments |
| Driver.ChildRunsItsLine | user/sh.c:355-365 | the child forked for the j-th non-comment line has the shell's descriptors, follows the echo and the fork of the lines before it, and runs exactly that line |
| Driver.UsageRule | user/sh.c:317-332 | the shell stops with usage exactly when a flag other than d, i, x is given or more than one file is named, and then it has made no call |
| Driver.ScriptOnStdin | user/sh.c:333-338 | with one file named, the shell closes 0 and opens the file; it panics if the open fails or does not return 0, and otherwise reads its lines from the file, echoing when `-x` was given |
| Findings.SpawnPathAsWritten | user/sh.c:181-197 | as written, spawn receives `argv0buf`; it gets the intended path exactly when argv[0] does not start with '/' or the stale buffer happens to hold argv[0] already |
| Findings.AbsoluteCommandSpawnsStaleBuffer | user/sh.c:181-197 | the line `/ls` reaches `runit` with argv[0] = "/ls", and as written spawn gets whatever `argv0buf` held instead of `/ls` |
| Findings.SixteenWordsOverrunArgv | user/sh.c:25-41 | sixteen words pass the MAXARGS check and reach `runit`, where `argv[16] = 0` does not fit the MAXARGS cells of `argv` |
| Findings.LongCommandOverrunsArgv0Buf | user/sh.c:181-183 | a one-word line of BUFSIZ - 1 letters reaches `runit`, and copying "/" plus that word plus its NUL needs more than BUFSIZ bytes |

## Left out

- Diagnostic output: every `printf` (the debug traces, the error messages and the usage text) is left out. The exit cause is kept as a value of `Exit` instead. The `-x` echo (`fprintf(1, "# %s\n", buf)`) is kept, as a `Wrote` event.
- `exit()` and `panic()` are modelled as the outcome the function returns, not as ending the process.
- `readline`, `iscons` and the `-i` prompt are left out. The input is the sequence of lines `readline` would return, none of them holding a NUL. `-i` is accepted as a flag and has no other effect.
- `ARGBEGIN`/`ARGEND` come from `inc/args.h`, which is not part of this model. `Shell` takes the flag letters and the positional arguments that remain after the macro.
  - The source tests `argc == 1` and opens `argv[1]`. The model reads this as "one positional argument, which names the script".
- `open`, `dup`, `close`, `pipe`, `fork`, `spawn`, `close_all` and `wait` are not modelled internally. The oracle `Os` supplies their replies. The model records each call in the trace and keeps an abstract descriptor table.
  - `OpensAboveStd` assumes every `open` succeeds with a descriptor of 2 or more. `PipeAboveStd` assumes the next `pipe` succeeds with two distinct descriptors of 2 or more.
  - `user/sh.c` itself does not promise either, and each is two assumptions. That the call succeeds is one: an `open` of a missing file or a `pipe` with no free descriptors fails. That the descriptors are 2 or more is the other: it holds when the library hands out the lowest free descriptor and slots 0 and 1 are open. The library is not part of this model.
  - The lemmas about which file a slot ends up holding assume them (`LastRedirectWins`, `RedirectWins`, `OpenedOnto`, `PipeReaderSlots`, `PipeWriterSlots`, `SidesSlots`, `ReachPipe`, `RightSideInherits`, `LeftSideKeeps` and the two example lines). These lemmas say nothing about a line whose `open` or `pipe` fails.
- Concurrency between the processes of a pipeline, and what the spawned programs do, are left out. Each function describes one process, and the fork reply chooses which one.
- `strchr` is taken to be the JOS library's, which does not match the terminating NUL. The library is not part of this model. The whitespace loop at user/sh.c:257 relies on this to stop at the terminating NUL.
- `debug` is kept as a parameter. Its only effect on state, the write-and-restore of `**p2` at user/sh.c:277-282, is modelled; its output is not.
- The `#else` branches of `runcmd` (the unimplemented lab stubs) are left out.
- A pipeline whose left-hand side has no words (`| b`) follows the code. The parent reaches `runit` with `argc == 0` and returns without waiting for the right-hand side (`RuncmdProps.PipeWriterSlots`: it finishes only when it has words). This is not "a stage never exits before its downstream sibling".

## Findings

| source | as written | input that shows it | evidently intended | confidence | as-written member | corrected member |
|---|---|---|---|---|---|---|
| user/sh.c:181-197 | `argv0buf` is only filled when argv[0] lacks a leading '/', yet spawn is always given `argv0buf` | the line `/ls` | spawn the path argv[0] now names, `/ls` | high; not executed | Findings.AbsoluteCommandSpawnsStaleBuffer | Runcmd.SpawnPath |
| user/sh.c:25-41, 186 | `argv` has MAXARGS cells, but sixteen words are accepted and `argv[argc] = 0` then writes cell 16 | a line of sixteen one-letter words | room for MAXARGS words plus the terminating null pointer | high; not executed | Findings.SixteenWordsOverrunArgv | Runcmd.Execute |
| user/sh.c:4, 181-183 | `strcpy` copies a word of any length after the '/' into the BUFSIZ-byte `argv0buf` | a one-word line of 1023 letters | the normalised path holds the whole command name | medium; not executed | Findings.LongCommandOverrunsArgv0Buf | Runcmd.SpawnPath |
