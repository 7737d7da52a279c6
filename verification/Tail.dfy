/** tail.c: how the cursor is set before the last lines of a file are shown. */
module Tail {
  import opened Bytes

  const BSIZE := 1024

  function Newlines(s: seq<byte>): nat {
    if s == [] then 0 else (if s[0] == NEWLINE then 1 else 0) + Newlines(s[1..])
  }

  lemma {:induction false} NewlinesConcat(a: seq<byte>, b: seq<byte>)
    ensures Newlines(a + b) == Newlines(a) + Newlines(b)
  {
    if a == [] {
      assert a + b == b;
    } else {
      assert (a + b)[1..] == a[1..] + b;
      NewlinesConcat(a[1..], b);
    }
  }

  lemma NewlinesFrom(s: seq<byte>, i: nat, j: nat)
    requires i <= j <= |s|
    ensures Newlines(s[i..]) == Newlines(s[i..j]) + Newlines(s[j..])
  {
    assert s[i..] == s[i..j] + s[j..];
    NewlinesConcat(s[i..j], s[j..]);
  }

  /** An open regular file: what is in it, and the cursor that lseek and read move. */
  class File {
    const content: seq<byte>
    var pos: nat

    ghost predicate Valid()
      reads this
    {
      pos <= |content|
    }

    method SeekEnd() returns (at: nat)
      modifies this
      ensures Valid() && at == pos == |content|
    {
      pos := |content|;
      at := pos;
    }

    /** lseek from the cursor: a position before the start is refused. */
    method SeekFromHere(offset: int) returns (at: int)
      requires Valid() && pos + offset <= |content|
      modifies this
      ensures Valid() && pos == if old(pos) + offset < 0 then old(pos) else old(pos) + offset
      ensures at == if old(pos) + offset < 0 then -1 else pos
    {
      if pos + offset < 0 {
        return -1;
      }
      pos := pos + offset;
      at := pos;
    }

    /** A read that brings all that was asked for, as far as the file goes. */
    method Read(buf: array<byte>, n: nat) returns (got: nat)
      requires Valid() && n <= buf.Length
      modifies this, buf
      ensures Valid() && got == (if n <= |content| - old(pos) then n else |content| - old(pos))
      ensures pos == old(pos) + got && buf[..got] == content[old(pos)..pos]
    {
      got := if n <= |content| - pos then n else |content| - pos;
      for k := 0 to got
        invariant pos == old(pos) && buf[..k] == content[pos..pos + k]
      {
        buf[k] := content[pos + k];
      }
      pos := pos + got;
    }
  }

  lemma NewlinesStep(s: seq<byte>, i: nat)
    requires i < |s|
    ensures Newlines(s[i..]) == (if s[i] == NEWLINE then 1 else 0) + Newlines(s[i + 1..])
  {
    assert s[i..][1..] == s[i + 1..];
  }

  /** The newlines at or behind a position. */
  function NewlinesAt(s: seq<byte>, i: nat): nat
    requires i <= |s|
    decreases |s| - i
  {
    if i == |s| then 0 else (if s[i] == NEWLINE then 1 else 0) + NewlinesAt(s, i + 1)
  }

  lemma {:induction false} NewlinesBehind(s: seq<byte>, i: nat)
    requires i <= |s|
    ensures NewlinesAt(s, i) == Newlines(s[i..])
    decreases |s| - i
  {
    if i == |s| {
    } else {
      NewlinesBehind(s, i + 1);
      NewlinesStep(s, i);
    }
  }

  /** The for loop over one chunk, from its end: it stops at the newline that is one too many. */
  method CountBack(buf: array<byte>, got: nat, before: nat, lines: nat) returns (found: nat, i: int)
    requires got <= buf.Length && before <= lines
    ensures -1 <= i < got
    ensures found == before + Newlines(buf[..got][i + 1..]) + (if i >= 0 then 1 else 0)
    ensures if i >= 0 then buf[i] == NEWLINE && found == lines + 1 else found <= lines
  {
    ghost var chunk := buf[..got];
    found := before;
    i := got - 1;
    while i >= 0
      invariant -1 <= i < got
      invariant found == before + NewlinesAt(chunk, i + 1) <= lines
    {
      if buf[i] == NEWLINE {
        found := found + 1;
        if found > lines {
          break;
        }
      }
      i := i - 1;
    }
    NewlinesBehind(chunk, i + 1);
  }

  /** One turn of the outer loop, from the chunk boundary `at`: the chunk before it is counted and the
      cursor put at its start. */
  method ReadChunk(file: File, buf: array<byte>, at: nat, before: nat, lines: nat)
    returns (found: nat, i: int, start: nat)
    requires file.Valid() && buf.Length == BSIZE && file.pos == at && 0 < at
    requires before == Newlines(file.content[at..]) && before <= lines
    modifies file, buf
    ensures file.Valid() && file.pos == start && start == (if at <= BSIZE then 0 else at - BSIZE)
    ensures -1 <= i < at - start
    ensures i >= 0 ==> file.content[start + i] == NEWLINE && found == lines + 1
    ensures i < 0 ==> found <= lines
    ensures found == Newlines(file.content[start + i + 1..]) + (if i >= 0 then 1 else 0)
  {
    var nextRead: int := if at < BSIZE then at else BSIZE;
    var seek := file.SeekFromHere(-nextRead);
    if seek == -1 {
      // the seek to the start that stands here is never reached: no more is asked than lies before the cursor
      assert false;
    }
    start := seek;
    var lastRead := file.Read(buf, nextRead);
    found, i := CountBack(buf, lastRead, before, lines);
    ChunkCount(file.content, start, at, i + 1);
    var back: int := lastRead;
    seek := file.SeekFromHere(-back);
  }

  lemma ChunkCount(s: seq<byte>, start: nat, at: nat, i: nat)
    requires start + i <= at <= |s|
    ensures Newlines(s[start + i..]) == Newlines(s[start..at][i..]) + Newlines(s[at..])
  {
    assert s[start..at][i..] == s[start + i..at];
    NewlinesFrom(s, start + i, at);
  }

  // ---- where the cursor ends up ----

  lemma NewlinesLater(s: seq<byte>, i: nat, j: nat)
    requires i <= j <= |s|
    ensures Newlines(s[i..]) >= Newlines(s[j..])
  {
    NewlinesFrom(s, i, j);
  }

  ghost predicate LineStart(s: seq<byte>, pos: nat)
    requires pos <= |s|
  {
    pos == 0 || s[pos - 1] == NEWLINE
  }

  /** A chunk boundary inside a line, behind which stand exactly `lines` newlines, while behind the
      next boundary, if the file goes on there, stand fewer. */
  ghost predicate CutsLine(s: seq<byte>, lines: nat, at: nat) {
    && 0 < at < |s| && (|s| - at) % BSIZE == 0 && at + BSIZE <= |s|
    && s[at - 1] != NEWLINE
    && Newlines(s[at..]) == lines
    && (at + BSIZE == |s| || Newlines(s[at + BSIZE..]) < lines)
  }

  /** A boundary that the loop passes while it still looks for lines. */
  ghost predicate Passed(s: seq<byte>, lines: nat, at: nat) {
    at <= |s| && (at == 0 || (|s| - at) % BSIZE == 0) && (at == |s| || Newlines(s[at..]) < lines)
  }

  lemma NotCutAfter(s: seq<byte>, lines: nat, at: nat, c: nat)
    requires Passed(s, lines, at) && at <= c
    ensures !CutsLine(s, lines, c)
  {
    if at < |s| && c <= |s| { NewlinesLater(s, at, c); }
  }

  lemma NotCutBefore(s: seq<byte>, lines: nat, at: nat, c: nat)
    requires c < at < |s| && (|s| - at) % BSIZE == 0 && Newlines(s[at..]) >= lines
    ensures !CutsLine(s, lines, c)
  {
    if c + BSIZE <= at { NewlinesLater(s, c + BSIZE, at); }
  }

  /** The loop stops at the newline that is one too many: the cursor is at the start of a line. */
  lemma NoCutAround(s: seq<byte>, lines: nat, at: nat, start: nat, pos: nat, c: nat)
    requires Passed(s, lines, at) && 0 < at && start == (if at <= BSIZE then 0 else at - BSIZE)
    requires start < pos <= at && Newlines(s[pos - 1..]) > lines
    ensures !CutsLine(s, lines, c)
  {
    if at <= c {
      NotCutAfter(s, lines, at, c);
    } else if c <= start {
      NewlinesLater(s, c, pos - 1);
    }
  }

  /** The loop stops at the start of a chunk, with just the newlines asked for: the cursor cuts a
      line when no line starts there, and no other boundary could have been the one. */
  lemma CutAtStart(s: seq<byte>, lines: nat, at: nat, start: nat, c: nat)
    requires Passed(s, lines, at) && 0 < at && start == (if at <= BSIZE then 0 else at - BSIZE)
    requires Newlines(s[start..]) == lines
    ensures CutsLine(s, lines, c) <==> c == start && !LineStart(s, start)
  {
    if at <= c {
      NotCutAfter(s, lines, at, c);
    } else if c < start {
      NotCutBefore(s, lines, start, c);
    }
  }

  /** The only place where the cursor may cut a line is the one where it is put. */
  ghost predicate OnlyCut(s: seq<byte>, lines: nat, pos: nat)
    requires pos <= |s|
  {
    forall c: nat :: CutsLine(s, lines, c) <==> c == pos && !LineStart(s, pos)
  }

  lemma OnlyCutAtStart(s: seq<byte>, lines: nat)
    requires Passed(s, lines, 0)
    ensures OnlyCut(s, lines, 0)
  {
    forall c: nat ensures !CutsLine(s, lines, c) { NotCutAfter(s, lines, 0, c); }
  }

  /** After the last chunk, from `start` to `at`, that was read back to position `i`. */
  lemma OnlyCutInChunk(s: seq<byte>, lines: nat, at: nat, start: nat, i: int)
    requires Passed(s, lines, at) && 0 < at && start == (if at <= BSIZE then 0 else at - BSIZE)
    requires -1 <= i < at - start && Newlines(s[start + i + 1..]) == lines
    requires i >= 0 ==> s[start + i] == NEWLINE
    ensures OnlyCut(s, lines, start + i + 1)
  {
    if i >= 0 {
      NewlinesStep(s, start + i);
      forall c: nat ensures !CutsLine(s, lines, c) { NoCutAround(s, lines, at, start, start + i + 1, c); }
    } else {
      forall c: nat ensures CutsLine(s, lines, c) <==> c == start && !LineStart(s, start) {
        CutAtStart(s, lines, at, start, c);
      }
    }
  }

  /** seek_at_last_lines: what follows the cursor holds exactly the asked number of newlines, or all
      there are. The cursor stands at the start of a line except when a chunk boundary cuts one; then
      it stands there. */
  method SeekAtLastLines(file: File, lines: nat)
    modifies file
    ensures file.Valid()
    ensures Newlines(file.content[file.pos..]) ==
              if Newlines(file.content) < lines then Newlines(file.content) else lines
    ensures LineStart(file.content, file.pos) <==> !exists c: nat :: CutsLine(file.content, lines, c)
    ensures forall c: nat :: CutsLine(file.content, lines, c) ==> file.pos == c
  {
    var buf := new byte[BSIZE];
    var found, i := 0, -1;
    var at := file.SeekEnd();
    ghost var s := file.content;
    while true
      invariant file.Valid() && file.pos == at && i == -1
      invariant found == Newlines(s[at..]) <= lines && Passed(s, lines, at)
      decreases at
    {
      if at <= 0 {
        OnlyCutAtStart(s, lines);
        break;
      }
      ghost var before := at;
      found, i, at := ReadChunk(file, buf, at, found, lines);
      if found >= lines {
        OnlyCutInChunk(s, lines, before, at, i);
        break;
      }
    }
    NewlinesFrom(s, 0, at + i + 1);
    assert s[0..] == s;
    var moved := file.SeekFromHere(i + 1);
    assert CutsLine(s, lines, file.pos) || LineStart(s, file.pos);
  }

  // ---- a file whose last line is cut ----

  lemma {:induction false} NewlinesNone(s: seq<byte>)
    requires forall i :: 0 <= i < |s| ==> s[i] != NEWLINE
    ensures Newlines(s) == 0
  {
    if s == [] {
    } else {
      NewlinesNone(s[1..]);
    }
  }

  /** The last line, of as many bytes as a chunk and one more, is shown without its first byte. */
  lemma LongLineCut(b: byte)
    requires b != NEWLINE
    ensures CutsLine(seq(BSIZE, _ => b) + [NEWLINE], 1, 1)
  {
    var line := seq(BSIZE, _ => b);
    var s := line + [NEWLINE];
    assert s[1..] == line[1..] + [NEWLINE];
    NewlinesNone(line[1..]);
    NewlinesConcat(line[1..], [NEWLINE]);
    assert s[0] == b;
    assert Newlines([NEWLINE]) == 1;
  }
}
