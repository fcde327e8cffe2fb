/** The shell's tokenizer: `_gettoken` and `gettoken` of user/sh.c.
  *
  * The line is a NUL-terminated C string held in a character array.  Scanning
  * is destructive: separators and symbols are overwritten with NUL so that
  * every word ends up NUL-terminated in place. */
module Lexer {

  const NUL: char := '\0'

  /** WHITESPACE and SYMBOLS of user/sh.c. */
  const Whitespace: string := " \t\r\n"
  const Symbols: string := "<|>&;()"

  /* `strchr(set, ch) != 0`.  The library's strchr stops at the terminator of
     `set`, so NUL belongs to neither class. */
  predicate IsWhitespace(ch: char)
  {
    ch == ' ' || ch == '\t' || ch == '\r' || ch == '\n'
  }

  predicate IsSymbol(ch: char)
  {
    ch == '<' || ch == '|' || ch == '>' || ch == '&' || ch == ';' || ch == '(' || ch == ')'
  }

  /** The two predicates are membership in WHITESPACE and SYMBOLS. */
  lemma ClassesAreTheSets(ch: char)
    ensures IsWhitespace(ch) <==> ch in Whitespace
    ensures IsSymbol(ch) <==> ch in Symbols
    ensures !IsWhitespace(NUL) && !IsSymbol(NUL)
  {
  }

  /** A character the word loop of `_gettoken` steps over. */
  predicate IsWordChar(ch: char) { ch != NUL && !IsWhitespace(ch) && !IsSymbol(ch) }

  /** A pointer into the line buffer, or the null pointer. */
  datatype Ptr = Null | At(i: nat)

  /** What `_gettoken` returns: 0, 'w', or the symbol character itself. */
  datatype Code = End | Word | Sym(ch: char)

  /** A token as a value, independent of any buffer. */
  datatype Token = WordTok(text: string) | SymTok(sym: char)

  function CodeOf(t: Token): Code {
    match t
    case WordTok(_) => Word
    case SymTok(ch) => Sym(ch)
  }

  /** The buffer holds a C string: its last cell is the terminating NUL. */
  predicate Terminated(b: seq<char>) { |b| > 0 && b[|b| - 1] == NUL }

  /** The first position at or after `i` that is not whitespace. */
  function SkipWhitespace(b: seq<char>, i: nat): (k: nat)
    requires Terminated(b) && i < |b|
    ensures i <= k < |b| && !IsWhitespace(b[k])
    ensures forall j :: i <= j < k ==> IsWhitespace(b[j])
    decreases |b| - i
  {
    if IsWhitespace(b[i]) then SkipWhitespace(b, i + 1) else i
  }

  /** The first position at or after `i` that is whitespace, a symbol or NUL. */
  function WordEnd(b: seq<char>, i: nat): (k: nat)
    requires Terminated(b) && i < |b|
    ensures i <= k < |b| && !IsWordChar(b[k])
    ensures forall j :: i <= j < k ==> IsWordChar(b[j])
    decreases |b| - i
  {
    if IsWordChar(b[i]) then WordEnd(b, i + 1) else i
  }

  /** `b` with the cells `i .. j-1` overwritten by NUL. */
  function Blank(b: seq<char>, i: nat, j: nat): (r: seq<char>)
    ensures |r| == |b|
    ensures forall k :: 0 <= k < |b| ==> r[k] == if i <= k < j then NUL else b[k]
  {
    seq(|b|, k requires 0 <= k < |b| => if i <= k < j then NUL else b[k])
  }

  /** The string a C `char *` at position `p` denotes: the characters up to the next NUL. */
  function CStr(b: seq<char>, p: nat): string
    requires Terminated(b) && p < |b|
    decreases |b| - p
  {
    if b[p] == NUL then [] else [b[p]] + CStr(b, p + 1)
  }

  // ---------------------------------------------------------------------
  // The reference tokenizer: reads the line without changing it.

  /** The tokens of the C string that starts at `i`. */
  function TokensFrom(b: seq<char>, i: nat): seq<Token>
    requires Terminated(b) && i < |b|
    decreases |b| - i
  {
    if b[i] == NUL then []
    else if IsWhitespace(b[i]) then TokensFrom(b, i + 1)
    else if IsSymbol(b[i]) then [SymTok(b[i])] + TokensFrom(b, i + 1)
    else
      var e := WordEnd(b, i);
      [WordTok(b[i..e])] + TokensFrom(b, e)
  }

  /** The tokens of a line read by `readline` (which holds no NUL). */
  function Tokens(line: string): seq<Token>
    requires NUL !in line
  {
    TokensFrom(line + [NUL], 0)
  }

  // ---------------------------------------------------------------------
  // `_gettoken` as a function of the buffer it is given.

  /** The outcome of one `_gettoken(s, p1, p2)`: the returned code, the new
    * values of `*p1` and `*p2`, and the new buffer contents. */
  datatype Scanned = Scanned(code: Code, p1: Ptr, p2: Ptr, buf: seq<char>)

  /** `p1` and `p2` are the caller's `*p1` and `*p2` before the call: a null
    * `s` leaves them as they were. */
  function Scan(b: seq<char>, s: Ptr, p1: Ptr, p2: Ptr): Scanned
    requires Terminated(b) && (s.At? ==> s.i < |b|)
  {
    match s
    case Null => Scanned(End, p1, p2, b)
    case At(i) =>
      var k := SkipWhitespace(b, i);
      var b1 := Blank(b, i, k);
      if b[k] == NUL then Scanned(End, Null, Null, b1)
      else if IsSymbol(b[k]) then Scanned(Sym(b[k]), At(k), At(k + 1), b1[k := NUL])
      else Scanned(Word, At(k), At(WordEnd(b, k)), b1)
  }

  /** Where the next scan starts: `*p2`, or the end of the buffer once `*p2` is null. */
  function Reach(p2: Ptr, n: nat): nat {
    match p2
    case Null => n
    case At(j) => j
  }

  // ---------------------------------------------------------------------
  // Lemmas about the reference tokenizer and about Scan.

  /** The first non-whitespace position depends only on the cells from `i` on. */
  lemma SkipWhitespaceFrame(b: seq<char>, b': seq<char>, i: nat)
    requires Terminated(b) && Terminated(b') && |b| == |b'| && i < |b|
    requires forall k :: i <= k < |b| ==> b[k] == b'[k]
    ensures SkipWhitespace(b, i) == SkipWhitespace(b', i)
  {
  }

  /** The end of a word depends only on the cells from `i` on. */
  lemma WordEndFrame(b: seq<char>, b': seq<char>, i: nat)
    requires Terminated(b) && Terminated(b') && |b| == |b'| && i < |b|
    requires forall k :: i <= k < |b| ==> b[k] == b'[k]
    ensures WordEnd(b, i) == WordEnd(b', i)
  {
  }

  /** SkipWhitespace finds the first non-whitespace position. */
  lemma SkipWhitespaceIs(b: seq<char>, i: nat, k: nat)
    requires Terminated(b) && i <= k < |b| && !IsWhitespace(b[k])
    requires forall j :: i <= j < k ==> IsWhitespace(b[j])
    ensures SkipWhitespace(b, i) == k
  {
  }

  /** WordEnd finds the first position that is not a word character. */
  lemma WordEndIs(b: seq<char>, i: nat, k: nat)
    requires Terminated(b) && i <= k < |b| && !IsWordChar(b[k])
    requires forall j :: i <= j < k ==> IsWordChar(b[j])
    ensures WordEnd(b, i) == k
  {
  }

  /** The tokens from `i` depend only on the cells from `i` on. */
  lemma {:induction false} TokensFromFrame(b: seq<char>, b': seq<char>, i: nat)
    requires Terminated(b) && Terminated(b') && |b| == |b'| && i < |b|
    requires forall k :: i <= k < |b| ==> b[k] == b'[k]
    ensures TokensFrom(b, i) == TokensFrom(b', i)
    decreases |b| - i
  {
    if b[i] == NUL {
    } else if IsWhitespace(b[i]) || IsSymbol(b[i]) {
      TokensFromFrame(b, b', i + 1);
    } else {
      WordEndFrame(b, b', i);
      var e := WordEnd(b, i);
      assert b[i..e] == b'[i..e];
      TokensFromFrame(b, b', e);
    }
  }

  /** Leading whitespace contributes no token. */
  lemma {:induction false} TokensSkipWhitespace(b: seq<char>, i: nat)
    requires Terminated(b) && i < |b|
    ensures TokensFrom(b, i) == TokensFrom(b, SkipWhitespace(b, i))
    decreases |b| - i
  {
    if IsWhitespace(b[i]) {
      TokensSkipWhitespace(b, i + 1);
    }
  }

  /** A scan from a pointer agrees with the reference tokenizer: the code,
    * pointers and buffer it leaves form a lookahead state consistent with the
    * reference tokens of the C string it started on (see Lookahead). */
  lemma ScanMatchesReference(b: seq<char>, i: nat, p1: Ptr, p2: Ptr)
    requires Terminated(b) && i < |b|
    ensures var r := Scan(b, At(i), p1, p2);
      |r.buf| == |b| && Lookahead(r.buf, r.code, r.p1, r.p2, TokensFrom(b, i))
  {
    var k := SkipWhitespace(b, i);
    TokensSkipWhitespace(b, i);
    if b[k] == NUL {
      ScanEndMatches(b, i, k, p1, p2);
    } else if IsSymbol(b[k]) {
      ScanSymbolMatches(b, i, k, p1, p2);
    } else {
      ScanWordMatches(b, i, k, p1, p2);
    }
  }

  lemma ScanEndMatches(b: seq<char>, i: nat, k: nat, p1: Ptr, p2: Ptr)
    requires Terminated(b) && i < |b| && k == SkipWhitespace(b, i) && b[k] == NUL
    ensures var r := Scan(b, At(i), p1, p2);
      |r.buf| == |b| && Lookahead(r.buf, r.code, r.p1, r.p2, TokensFrom(b, k))
  {
    var r := Scan(b, At(i), p1, p2);
    assert r == Scanned(End, Null, Null, Blank(b, i, k));
    assert r.buf[|b| - 1] == NUL;
  }

  lemma ScanSymbolMatches(b: seq<char>, i: nat, k: nat, p1: Ptr, p2: Ptr)
    requires Terminated(b) && i < |b| && k == SkipWhitespace(b, i) && IsSymbol(b[k])
    ensures var r := Scan(b, At(i), p1, p2);
      |r.buf| == |b| && Lookahead(r.buf, r.code, r.p1, r.p2, TokensFrom(b, k))
  {
    var buf := Blank(b, i, k)[k := NUL];
    assert Scan(b, At(i), p1, p2) == Scanned(Sym(b[k]), At(k), At(k + 1), buf);
    assert Lookahead(buf, Sym(b[k]), At(k), At(k + 1), TokensFrom(b, k)) by {
      TokensFromSymbol(b, k);
      assert Terminated(buf) && forall j :: k + 1 <= j < |b| ==> buf[j] == b[j];
      TokensFromFrame(b, buf, k + 1);
    }
  }

  /** A symbol is a token of its own. */
  lemma TokensFromSymbol(b: seq<char>, k: nat)
    requires Terminated(b) && k < |b| && IsSymbol(b[k])
    ensures k + 1 < |b| && TokensFrom(b, k) == [SymTok(b[k])] + TokensFrom(b, k + 1)
  {
    assert b[k] != NUL && !IsWhitespace(b[k]);
  }

  lemma ScanWordMatches(b: seq<char>, i: nat, k: nat, p1: Ptr, p2: Ptr)
    requires Terminated(b) && i < |b| && k == SkipWhitespace(b, i)
    requires b[k] != NUL && !IsSymbol(b[k])
    ensures var r := Scan(b, At(i), p1, p2);
      |r.buf| == |b| && Lookahead(r.buf, r.code, r.p1, r.p2, TokensFrom(b, k))
  {
    var r := Scan(b, At(i), p1, p2);
    var e := WordEnd(b, k);
    assert r == Scanned(Word, At(k), At(e), Blank(b, i, k));
    assert Terminated(r.buf);
    assert forall j :: k <= j < |b| ==> r.buf[j] == b[j];
    assert r.buf[k..e] == b[k..e];
    TokensFromFrame(b, r.buf, e);
    assert TokensFrom(b, k) == [WordTok(b[k..e])] + TokensFrom(b, e);
  }

  /** A scan from a pointer only ever writes NUL, and only into the cells
    * from the pointer up to (not including) where the next scan starts.
    * When it starts on a word's terminator, that terminator becomes NUL and
    * the next scan starts beyond it. */
  lemma ScanWritesAhead(b: seq<char>, i: nat, p1: Ptr, p2: Ptr)
    requires Terminated(b) && i < |b|
    ensures var r := Scan(b, At(i), p1, p2);
      && |r.buf| == |b|
      && (forall k :: 0 <= k < |b| && r.buf[k] != b[k] ==> r.buf[k] == NUL && i <= k < Reach(r.p2, |b|))
      && i <= Reach(r.p2, |b|) <= |b|
      && (!IsWordChar(b[i]) ==> r.buf[i] == NUL && i < Reach(r.p2, |b|))
  {
    var r := Scan(b, At(i), p1, p2);
    var k := SkipWhitespace(b, i);
    if b[k] != NUL && !IsSymbol(b[k]) {
      assert !IsWordChar(b[i]) ==> i < k;
    }
  }

  /** The C string at `p` is the `n` characters there when the cell after them is NUL. */
  lemma {:induction false} CStrOfTerminated(b: seq<char>, p: nat, n: nat)
    requires Terminated(b) && p + n < |b|
    requires forall k :: p <= k < p + n ==> b[k] != NUL
    requires b[p + n] == NUL
    ensures CStr(b, p) == b[p..p + n]
    decreases n
  {
    if n > 0 {
      CStrOfTerminated(b, p + 1, n - 1);
      assert b[p..p + n] == [b[p]] + b[p + 1..p + n];
    }
  }

  /** `b'` is `b` with changes only at or after `bound`. */
  predicate Agree(b: seq<char>, b': seq<char>, bound: nat)
  {
    |b| == |b'| && forall k :: 0 <= k < bound && k < |b| ==> b[k] == b'[k]
  }

  /** Writes beyond a C string's terminator do not change it. */
  lemma {:induction false} CStrFrame(b: seq<char>, b': seq<char>, p: nat, bound: nat)
    requires Terminated(b) && Terminated(b') && p < |b|
    requires p + |CStr(b, p)| < bound && Agree(b, b', bound)
    ensures CStr(b', p) == CStr(b, p)
    decreases |b| - p
  {
    if b[p] != NUL {
      CStrFrame(b, b', p + 1, bound);
    }
  }

  /** Every word token is a non-empty run of word characters and every
    * symbol token is one of SYMBOLS. */
  lemma {:induction false} TokensWellFormed(b: seq<char>, i: nat)
    requires Terminated(b) && i < |b|
    ensures forall t :: t in TokensFrom(b, i) ==>
      match t
      case WordTok(w) => |w| > 0 && forall ch :: ch in w ==> IsWordChar(ch)
      case SymTok(ch) => IsSymbol(ch)
    decreases |b| - i
  {
    if b[i] == NUL {
    } else if IsWhitespace(b[i]) || IsSymbol(b[i]) {
      TokensWellFormed(b, i + 1);
    } else {
      var e := WordEnd(b, i);
      TokensWellFormed(b, e);
      forall ch | ch in b[i..e] ensures IsWordChar(ch) {
        var j :| 0 <= j < e - i && b[i..e][j] == ch;
        assert b[i + j] == ch;
      }
    }
  }

  /** A non-empty run of word characters. */
  predicate IsWord(w: string) {
    |w| > 0 && forall k :: 0 <= k < |w| ==> IsWordChar(w[k])
  }

  /** The tokens of the words `ws`, in order. */
  function WordToks(ws: seq<string>): (r: seq<Token>)
    ensures |r| == |ws| && forall k :: 0 <= k < |ws| ==> r[k] == WordTok(ws[k])
  {
    seq(|ws|, k requires 0 <= k < |ws| => WordTok(ws[k]))
  }

  /** The words `ws`, each followed by one blank. */
  function Spaced(ws: seq<string>): string {
    if ws == [] then [] else ws[0] + " " + Spaced(ws[1..])
  }

  lemma {:induction false} SpacedHasNoNul(ws: seq<string>)
    requires forall k :: 0 <= k < |ws| ==> IsWord(ws[k])
    ensures NUL !in Spaced(ws)
  {
    if ws != [] {
      SpacedHasNoNul(ws[1..]);
      assert NUL !in ws[0] by {
        forall j | 0 <= j < |ws[0]| ensures ws[0][j] != NUL {
          assert IsWordChar(ws[0][j]);
        }
      }
      assert Spaced(ws) == ws[0] + " " + Spaced(ws[1..]);
    }
  }

  lemma {:induction false} SpacedTokensFrom(b: seq<char>, i: nat, ws: seq<string>)
    requires Terminated(b) && forall k :: 0 <= k < |ws| ==> IsWord(ws[k])
    requires i < |b| && b[i..] == Spaced(ws) + [NUL]
    ensures TokensFrom(b, i) == WordToks(ws)
    decreases |ws|
  {
    if ws == [] {
      assert b[i] == NUL by {
        assert b[i] == b[i..][0];
      }
      assert TokensFrom(b, i) == [];
    } else {
      var j := i + |ws[0]| + 1;
      SpacedUnfold(ws);
      WordThenBlank(b, i, ws[0], Spaced(ws[1..]));
      assert TokensFrom(b, j) == WordToks(ws[1..]) by {
        assert forall k :: 0 <= k < |ws[1..]| ==> ws[1..][k] == ws[k + 1];
        SpacedTokensFrom(b, j, ws[1..]);
      }
      WordToksCons(ws);
    }
  }

  /** The word tokens of a non-empty list, one word at a time. */
  lemma WordToksCons(ws: seq<string>)
    requires ws != []
    ensures WordToks(ws) == [WordTok(ws[0])] + WordToks(ws[1..])
  {
    assert forall k :: 1 <= k < |ws| ==> ws[1..][k - 1] == ws[k];
  }

  /** One step of `Spaced`, with the terminator attached. */
  lemma SpacedUnfold(ws: seq<string>)
    requires ws != []
    ensures Spaced(ws) + [NUL] == ws[0] + " " + Spaced(ws[1..]) + [NUL]
  {
  }

  /** A word followed by a blank is one token. */
  lemma WordThenBlank(b: seq<char>, i: nat, w: string, tail: string)
    requires Terminated(b) && IsWord(w)
    requires i < |b| && b[i..] == w + " " + tail + [NUL]
    ensures i + |w| + 1 < |b| && b[i + |w| + 1..] == tail + [NUL]
    ensures TokensFrom(b, i) == [WordTok(w)] + TokensFrom(b, i + |w| + 1)
  {
    SliceAfter(b, i, w, tail + [NUL]);
    forall j | i <= j < i + |w| ensures IsWordChar(b[j]) {
      assert b[j] == w[j - i];
    }
    WordEndIs(b, i, i + |w|);
  }

  /** Reading a buffer whose suffix from `i` is `w`, a blank and `t`. */
  lemma SliceAfter(b: seq<char>, i: nat, w: string, t: seq<char>)
    requires i <= |b| && b[i..] == w + " " + t
    ensures i + |w| < |b| && b[i..i + |w|] == w && b[i + |w|] == ' ' && b[i + |w| + 1..] == t
  {
    var n, rest := |w|, b[i..];
    assert b[i..i + n] == rest[..n];
    assert b[i + n] == rest[n];
    assert b[i + n + 1..] == rest[n + 1..];
  }

  /** A line of words separated by blanks has those words as its tokens. */
  lemma SpacedTokens(ws: seq<string>)
    requires forall k :: 0 <= k < |ws| ==> IsWord(ws[k])
    ensures NUL !in Spaced(ws) && Tokens(Spaced(ws)) == WordToks(ws)
  {
    SpacedHasNoNul(ws);
    var b := Spaced(ws) + [NUL];
    assert b[0..] == b;
    SpacedTokensFrom(b, 0, ws);
  }

  /** A line that is one word has that word as its one token. */
  lemma WordLine(w: string)
    requires IsWord(w)
    ensures NUL !in w && Tokens(w) == [WordTok(w)]
  {
    assert NUL !in w by {
      forall j | 0 <= j < |w| ensures w[j] != NUL {
        assert IsWordChar(w[j]);
      }
    }
    var b := w + [NUL];
    WordEndIs(b, 0, |w|);
    assert b[0..|w|] == w;
    assert TokensFrom(b, |w|) == [];
    assert !IsWhitespace(b[0]) && !IsSymbol(b[0]) && b[0] != NUL;
    assert TokensFrom(b, 0) == [WordTok(b[0..|w|])] + TokensFrom(b, |w|);
  }

  /** The lookahead state of `gettoken` (`nc`, `np1`, `np2`) over buffer `b`
    * is consistent with `rest`, the tokens that the following fetches return:
    * `nc` is the code of the first of them, `np1` where it starts, and the
    * others are the reference tokens of the C string at `np2`.  At the end,
    * both pointers are null. */
  ghost predicate Lookahead(b: seq<char>, nc: Code, np1: Ptr, np2: Ptr, rest: seq<Token>) {
    && Terminated(b)
    && match nc
       case End => np1 == Null && np2 == Null && rest == []
       case Sym(ch) =>
         && np1.At? && np2 == At(np1.i + 1) && np2.i < |b| && IsSymbol(ch)
         && rest == [SymTok(ch)] + TokensFrom(b, np2.i)
       case Word =>
         && np1.At? && np2.At? && np1.i < np2.i < |b|
         && (forall k :: np1.i <= k < np2.i ==> IsWordChar(b[k]))
         && !IsWordChar(b[np2.i])
         && rest == [WordTok(b[np1.i..np2.i])] + TokensFrom(b, np2.i)
  }

  /** One `gettoken(0, &t)` on a consistent lookahead state that still holds a
    * token: the scan from `np2` leaves a consistent state for the remaining
    * tokens; it writes
    * nothing before `np2`; and the word it hands out (at the old `np1`) is by
    * then a NUL-terminated C string lying wholly before the next scan's start. */
  lemma FetchStep(b: seq<char>, nc: Code, np1: Ptr, np2: Ptr, rest: seq<Token>)
    requires Lookahead(b, nc, np1, np2, rest) && nc != End
    ensures var r := Scan(b, np2, np1, np2);
      && |r.buf| == |b|
      && rest != [] && nc == CodeOf(rest[0])
      && Lookahead(r.buf, r.code, r.p1, r.p2, rest[1..])
      && Reach(np2, |b|) <= Reach(r.p2, |b|)
      && (forall k :: 0 <= k < Reach(np2, |b|) ==> r.buf[k] == b[k])
      && (nc == Word ==>
            && np1.At? && np1.i + |rest[0].text| < Reach(r.p2, |b|)
            && CStr(r.buf, np1.i) == rest[0].text)
  {
    var r := Scan(b, np2, np1, np2);
    match nc
    case Sym(ch) =>
      assert rest[1..] == TokensFrom(b, np2.i);
      ScanWritesAhead(b, np2.i, np1, np2);
      ScanMatchesReference(b, np2.i, np1, np2);
    case Word =>
      assert rest[1..] == TokensFrom(b, np2.i);
      ScanWritesAhead(b, np2.i, np1, np2);
      ScanMatchesReference(b, np2.i, np1, np2);
      ScanTerminatesWord(b, np1.i, np2.i, np1, np2);
  }

  /** The scan that follows a word, which starts on the cell just past it,
    * leaves the word a NUL-terminated C string in place and moves the next
    * scan's start beyond that terminator. */
  lemma ScanTerminatesWord(b: seq<char>, i: nat, j: nat, p1: Ptr, p2: Ptr)
    requires Terminated(b) && i < j < |b|
    requires forall k :: i <= k < j ==> IsWordChar(b[k])
    requires !IsWordChar(b[j])
    ensures var r := Scan(b, At(j), p1, p2);
      j < Reach(r.p2, |b|) && CStr(r.buf, i) == b[i..j]
  {
    var r := Scan(b, At(j), p1, p2);
    ScanWritesAhead(b, j, p1, p2);
    assert forall k :: i <= k < j ==> r.buf[k] == b[k];
    CStrOfTerminated(r.buf, i, j - i);
    assert r.buf[i..j] == b[i..j];
  }


  // ---------------------------------------------------------------------
  // The imperative tokenizer.

  /** The static lookahead state of `gettoken` (`c`, `nc`, `np1`, `np2`)
    * together with the line buffer it scans.  `Rest` is the sequence of
    * tokens that the following fetches will return. */
  class Lexer {
    const buf: array<char>
    const debug: int
    var c: Code
    var nc: Code
    var np1: Ptr
    var np2: Ptr
    ghost var Rest: seq<Token>

    ghost predicate Valid()
      reads this, buf
    {
      Terminated(buf[..]) && Lookahead(buf[..], nc, np1, np2, Rest)
    }

    /** The first cell the next scan may write. */
    function Frontier(): nat
      reads this
    {
      Reach(np2, buf.Length)
    }

    /** The state of the statics before any call: all zero. */
    constructor (line: array<char>, debug: int)
      requires Terminated(line[..])
      ensures buf == line && this.debug == debug
      ensures Valid() && Rest == []
    {
      buf := line;
      this.debug := debug;
      c, nc := End, End;
      np1, np2 := Null, Null;
      Rest := [];
    }

    /** `_gettoken(s, &p1, &p2)`. */
    method ScanToken(s: Ptr, p1: Ptr, p2: Ptr) returns (t: Code, q1: Ptr, q2: Ptr)
      requires Terminated(buf[..]) && (s.At? ==> s.i < buf.Length)
      modifies buf
      ensures Scanned(t, q1, q2, buf[..]) == Scan(old(buf[..]), s, p1, p2)
    {
      if s == Null {
        return End, p1, p2;
      }
      ghost var b := buf[..];
      q1, q2 := Null, Null;
      var i := BlankWhitespace(s.i);
      if buf[i] == NUL {
        return End, q1, q2;
      }
      if IsSymbol(buf[i]) {
        t := Sym(buf[i]);
        q1 := At(i);
        buf[i] := NUL;
        q2 := At(i + 1);
        return;
      }
      q1 := At(i);
      i := SkipWord(i);
      q2 := At(i);
      if debug > 1 {
        // The word is terminated for the debug print, then the cell is restored.
        ghost var before := buf[..];
        var saved := buf[i];
        buf[i] := NUL;
        buf[i] := saved;
        assert buf[..] == before;
      }
      t := Word;
    }

    /** The loop that overwrites the whitespace from `i` on with NUL and
      * stops on the first other character. */
    method BlankWhitespace(i: nat) returns (k: nat)
      requires Terminated(buf[..]) && i < buf.Length
      modifies buf
      ensures k == SkipWhitespace(old(buf[..]), i) && buf[..] == Blank(old(buf[..]), i, k)
    {
      ghost var b := buf[..];
      k := i;
      while IsWhitespace(buf[k])
        invariant i <= k < buf.Length
        invariant forall j :: 0 <= j < buf.Length ==> buf[j] == if i <= j < k then NUL else b[j]
        invariant forall j :: i <= j < k ==> IsWhitespace(b[j])
        decreases buf.Length - k
      {
        buf[k] := NUL;
        k := k + 1;
      }
      SkipWhitespaceIs(b, i, k);
      assert buf[..] == Blank(b, i, k);
    }

    /** The loop that moves past the word characters from `i` on. */
    method SkipWord(i: nat) returns (k: nat)
      requires Terminated(buf[..]) && i < buf.Length
      ensures k == WordEnd(buf[..], i)
    {
      k := i;
      while buf[k] != NUL && !IsWhitespace(buf[k]) && !IsSymbol(buf[k])
        invariant i <= k < buf.Length
        invariant forall j :: i <= j < k ==> IsWordChar(buf[j])
        decreases buf.Length - k
      {
        k := k + 1;
      }
      WordEndIs(buf[..], i, k);
    }

    /** `gettoken(s, 0)`: scans the first token of the C string at `s` into
      * the lookahead and returns 0. */
    method Bind(s: nat) returns (r: Code)
      requires Valid() && s < buf.Length
      modifies this, buf
      ensures Valid() && r == End
      ensures Rest == TokensFrom(old(buf[..]), s)
      ensures Agree(old(buf[..]), buf[..], s)
    {
      ghost var b := buf[..];
      ScanMatchesReference(b, s, np1, np2);
      ScanWritesAhead(b, s, np1, np2);
      nc, np1, np2 := ScanToken(At(s), np1, np2);
      Rest := TokensFrom(b, s);
      r := End;
    }

    /** `gettoken(0, &t)`: returns the token prepared by the previous call,
      * sets `t` to where it starts, and scans the next one from `np2`.  A
      * returned word is a NUL-terminated C string at `t` by the time the call
      * returns, and it lies wholly before the first cell later scans may write. */
    method Fetch() returns (code: Code, t: Ptr)
      requires Valid()
      modifies this, buf
      ensures Valid()
      ensures old(Rest) == [] ==> code == End && Rest == []
      ensures old(Rest) != [] ==> code == CodeOf(old(Rest)[0]) && Rest == old(Rest)[1..]
      ensures code == Word ==>
        && t.At? && t.i < buf.Length
        && t.i + |old(Rest)[0].text| < Frontier()
        && CStr(buf[..], t.i) == old(Rest)[0].text
      ensures old(Frontier()) <= Frontier()
      ensures Agree(old(buf[..]), buf[..], old(Frontier()))
    {
      if nc != End {
        FetchStep(buf[..], nc, np1, np2, Rest);
      }
      c := nc;
      t := np1;
      code := c;
      nc, np1, np2 := ScanToken(np2, np1, np2);
      if Rest != [] {
        Rest := Rest[1..];
      }
    }
  }
}
