/** The reference reading of a byte stream: its complete lines and the bytes after the last
    newline. */
module LineSplit {
  type Byte = b: int | 0 <= b < 256

  type Bytes = seq<Byte>

  const NEWLINE: Byte := 10

  datatype Split = Split(lines: seq<Bytes>, rest: Bytes)

  /** One byte at a time: a newline completes the line, any other byte extends it. */
  function Scan(s: Bytes): Split {
    if s == [] then Split([], [])
    else
      var before, last := Scan(s[..|s| - 1]), s[|s| - 1];
      if last == NEWLINE then Split(before.lines + [before.rest], []) else Split(before.lines, before.rest + [last])
  }

  function Lines(s: Bytes): seq<Bytes> { Scan(s).lines }

  function Rest(s: Bytes): Bytes { Scan(s).rest }

  predicate Clean(line: Bytes) { NEWLINE !in line }

  predicate AllClean(lines: seq<Bytes>) { forall i | 0 <= i < |lines| :: Clean(lines[i]) }

  /** Framing: every line followed by a newline. */
  function Unlines(lines: seq<Bytes>): Bytes {
    if lines == [] then [] else Unlines(lines[..|lines| - 1]) + lines[|lines| - 1] + [NEWLINE]
  }

  /** Every line is followed by a line feed. */
  lemma Framed(lines: seq<Bytes>, line: Bytes)
    ensures Unlines([]) == [] && Unlines(lines + [line]) == Unlines(lines) + line + [10]
  {
    assert (lines + [line])[..|lines|] == lines;
  }

  /** Splitting loses nothing: framing the lines and appending the rest gives the stream back,
      and no newline is left inside a line. */
  lemma {:induction false} SplitComplete(s: Bytes)
    ensures Unlines(Lines(s)) + Rest(s) == s
    ensures AllClean(Lines(s)) && Clean(Rest(s))
    ensures (forall i | 0 <= i < |Lines(s)| :: 10 !in Lines(s)[i]) && 10 !in Rest(s)
  {
    if s != [] {
      var n := |s| - 1;
      SplitComplete(s[..n]);
      assert s == s[..n] + [s[n]];
      if s[n] == NEWLINE {
        assert Lines(s)[..|Lines(s)| - 1] == Lines(s[..n]);
      }
    }
  }

  lemma {:induction false} ScanClean(s: Bytes)
    requires Clean(s)
    ensures Scan(s) == Split([], s)
  {
    if s != [] {
      ScanClean(s[..|s| - 1]);
      assert s == s[..|s| - 1] + [s[|s| - 1]];
    }
  }

  /** Reading on from the rest is reading on from the whole. */
  lemma {:induction false} ScanAppend(a: Bytes, b: Bytes)
    ensures Lines(a + b) == Lines(a) + Lines(Rest(a) + b) && Rest(a + b) == Rest(Rest(a) + b)
  {
    if b == [] {
      assert a + b == a && Rest(a) + b == Rest(a);
      SplitComplete(a);
      ScanClean(Rest(a));
    } else {
      var n := |b| - 1;
      ScanAppend(a, b[..n]);
      assert (a + b)[..|a + b| - 1] == a + b[..n];
      assert (Rest(a) + b)[..|Rest(a) + b| - 1] == Rest(a) + b[..n];
      assert (a + b)[|a + b| - 1] == b[n] == (Rest(a) + b)[|Rest(a) + b| - 1];
    }
  }

  /** And it is the only way to split: framed clean lines are read back as they were. */
  lemma {:induction false} SplitUnique(lines: seq<Bytes>, rest: Bytes)
    requires AllClean(lines) && Clean(rest)
    ensures Scan(Unlines(lines) + rest) == Split(lines, rest)
  {
    ScanUnlines(lines);
    ScanAppend(Unlines(lines), rest);
    assert [] + rest == rest;
    ScanClean(rest);
  }

  lemma {:induction false} ScanUnlines(lines: seq<Bytes>)
    requires AllClean(lines)
    ensures Scan(Unlines(lines)) == Split(lines, [])
  {
    if lines != [] {
      var before, last := lines[..|lines| - 1], lines[|lines| - 1];
      ScanUnlines(before);
      ScanAppend(Unlines(before), last);
      assert [] + last == last;
      ScanClean(last);
      OneByte(Unlines(before) + last, NEWLINE);
      assert lines == before + [last];
    }
  }

  lemma OneByte(s: Bytes, b: Byte)
    ensures Scan(s + [b]) ==
      if b == NEWLINE then Split(Scan(s).lines + [Scan(s).rest], []) else Split(Scan(s).lines, Scan(s).rest + [b])
  {
    assert (s + [b])[..|s|] == s;
  }

  lemma LinesGrow(a: Bytes, b: Bytes)
    ensures Lines(a) <= Lines(a + b)
  {
    ScanAppend(a, b);
  }

  /* ---- the library calls on byte strings ---- */

  function Newlines(s: Bytes): nat {
    if s == [] then 0 else Newlines(s[..|s| - 1]) + if s[|s| - 1] == NEWLINE then 1 else 0
  }

  /** The index of the last newline, or -1. */
  function LastNewline(s: Bytes): (i: int)
    ensures -1 <= i < |s|
    ensures i >= 0 ==> s[i] == NEWLINE
    ensures forall k | i < k < |s| :: s[k] != NEWLINE
  {
    if s == [] then -1 else if s[|s| - 1] == NEWLINE then |s| - 1 else LastNewline(s[..|s| - 1])
  }

  /** The piece after the last newline, all of it when there is none. */
  function LastPiece(s: Bytes): Bytes { s[LastNewline(s) + 1..] }

  /** What the bytes before the last newline hold: all lines, the last of them as the rest. */
  lemma BeforeLastNewline(s: Bytes)
    requires LastNewline(s) >= 0
    ensures var complete := s[..LastNewline(s)];
      && Lines(s) == Lines(complete) + [Rest(complete)]
      && Rest(s) == s[LastNewline(s) + 1..]
  {
    var i := LastNewline(s);
    var complete, tail := s[..i], s[i + 1..];
    assert s == s[..i + 1] + tail;
    ScanAppend(s[..i + 1], tail);
    assert s[..i + 1][..i] == complete;
    assert Rest(s[..i + 1]) == [] && [] + tail == tail;
    ScanClean(tail);
  }

  lemma PiecesOfScan(s: Bytes)
    ensures Rest(s) == LastPiece(s)
    ensures LastNewline(s) < 0 <==> Lines(s) == []
  {
    if LastNewline(s) < 0 { ScanClean(s); } else { BeforeLastNewline(s); }
  }

  lemma {:induction false} CountLines(s: Bytes)
    ensures |Lines(s)| == Newlines(s)
  {
    if s != [] { CountLines(s[..|s| - 1]); }
  }

  /** What cutting at the last newline takes: the newest line is the last piece before it, the
      newlines before it count the older lines, and the rest stays. */
  lemma CutAtLastNewline(s: Bytes)
    ensures LastNewline(s) < 0 <==> Lines(s) == []
    ensures LastNewline(s) < 0 ==> Rest(s) == s
    ensures LastNewline(s) >= 0 ==>
      var complete := s[..LastNewline(s)];
      && LastPiece(complete) == Lines(s)[|Lines(s)| - 1]
      && Newlines(complete) == |Lines(s)| - 1
      && Rest(s) == s[LastNewline(s) + 1..]
  {
    hide Scan; hide LastNewline; hide LastPiece; hide Newlines; hide Lines; hide Rest;
    PiecesOfScan(s);
    if LastNewline(s) < 0 {
      NoNewline(s);
    } else {
      BeforeLastNewline(s);
      PiecesOfScan(s[..LastNewline(s)]);
      CountLines(s[..LastNewline(s)]);
    }
  }

  lemma NoNewline(s: Bytes)
    requires LastNewline(s) < 0
    ensures Rest(s) == s
  {
    ScanClean(s);
  }
}
