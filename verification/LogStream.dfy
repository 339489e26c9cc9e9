/** Byte files as sequences of lines. */
module Lines {
  newtype byte = x: int | 0 <= x < 256

  const NEWLINE: byte := 10

  /** The end of the line that starts at `a`: just after its newline, or the end of the file. */
  function NextLine(s: seq<byte>, a: nat): (end: nat)
    requires a < |s|
    ensures a < end <= |s|
    ensures forall i :: a <= i < end - 1 ==> s[i] != NEWLINE
    ensures end < |s| ==> s[end - 1] == NEWLINE
    decreases |s| - a
  {
    if s[a] == NEWLINE || a + 1 == |s| then a + 1 else NextLine(s, a + 1)
  }

  /** The lines from offset `a` on, each with its newline; the last one may lack it. */
  function LinesFrom(s: seq<byte>, a: nat): seq<seq<byte>>
    requires a <= |s|
    decreases |s| - a
  {
    if a == |s| then [] else [s[a..NextLine(s, a)]] + LinesFrom(s, NextLine(s, a))
  }

  function Concat(parts: seq<seq<byte>>): seq<byte> {
    if parts == [] then [] else Concat(parts[..|parts| - 1]) + parts[|parts| - 1]
  }

  /** Nothing, or bytes up to and including a newline. */
  predicate WholeLines(s: seq<byte>) {
    s == [] || s[|s| - 1] == NEWLINE
  }

  /** Something with a newline at most at its end. */
  predicate OneLine(s: seq<byte>) {
    s != [] && forall i :: 0 <= i < |s| - 1 ==> s[i] != NEWLINE
  }

  predicate Boundary(s: seq<byte>, o: nat) {
    o <= |s| && (o == 0 || s[o - 1] == NEWLINE)
  }

  /** What is appended to whole lines does not change them. */
  lemma {:induction false} NextLineStable(s: seq<byte>, b: seq<byte>, a: nat)
    requires a < |s| && WholeLines(s)
    ensures NextLine(s + b, a) == NextLine(s, a)
    decreases |s| - a
  {
    if s[a] != NEWLINE { NextLineStable(s, b, a + 1); }
  }

  lemma {:induction false} LinesFromAppend(s: seq<byte>, b: seq<byte>, a: nat)
    requires a <= |s| && WholeLines(s)
    ensures LinesFrom(s + b, a) == LinesFrom(s, a) + LinesFrom(s + b, |s|)
    decreases |s| - a
  {
    if a < |s| {
      NextLineStable(s, b, a);
      var end := NextLine(s, a);
      assert (s + b)[a..end] == s[a..end];
      LinesFromAppend(s, b, end);
    }
  }

  lemma WholeLinesJoin(s: seq<byte>, b: seq<byte>)
    requires WholeLines(s) && WholeLines(b)
    ensures WholeLines(s + b)
  {
    assert b == [] ==> s + b == s;
  }

  /** From an earlier offset one sees more lines, and the same ones at the end. */
  lemma {:induction false} LinesFromBoundary(s: seq<byte>, a: nat, o: nat)
    requires a <= o && Boundary(s, o)
    ensures |LinesFrom(s, o)| <= |LinesFrom(s, a)|
    ensures a < o ==> |LinesFrom(s, o)| < |LinesFrom(s, a)|
    ensures LinesFrom(s, a)[|LinesFrom(s, a)| - |LinesFrom(s, o)|..] == LinesFrom(s, o)
    decreases o - a
  {
    if a < o {
      LinesFromBoundary(s, NextLine(s, a), o);
    }
  }
}

/**
 Streaming a log that is being written (control_station_lite/agent/log_stream.py).
 */
module LogStream {
  import opened Lines
  import opened Sequences

  function Min(a: int, b: int): int { if a < b then a else b }

  /** The offset of the last `n` lines, said simply. */
  predicate StartsLastLines(s: seq<byte>, n: nat, o: nat) {
    Boundary(s, o) && |LinesFrom(s, o)| == Min(n, |LinesFrom(s, 0)|)
  }

  /** From there on one reads exactly the last `n` lines of the file, or all of them. */
  lemma LastLinesAtOffset(s: seq<byte>, n: nat, o: nat)
    requires StartsLastLines(s, n, o)
    ensures var all := LinesFrom(s, 0);
      LinesFrom(s, o) == all[|all| - Min(n, |all|)..]
  {
    LinesFromBoundary(s, 0, o);
  }

  /** There is one such offset only, so it cannot depend on how the file was read. */
  lemma OffsetUnique(s: seq<byte>, n: nat, o: nat, o': nat)
    requires StartsLastLines(s, n, o) && StartsLastLines(s, n, o')
    ensures o == o'
  {
    if o <= o' { LinesFromBoundary(s, o, o'); } else { LinesFromBoundary(s, o', o); }
  }

  /** Where the separators end: a terminator of the last line separates nothing. */
  function EffectiveEnd(s: seq<byte>): (end: nat)
    ensures end <= |s|
  {
    if s != [] && s[|s| - 1] == NEWLINE then |s| - 1 else |s|
  }

  /** How many newlines separate lines from offset `a` on. */
  function Separators(s: seq<byte>, a: nat): nat
    requires a <= EffectiveEnd(s)
    decreases EffectiveEnd(s) - a
  {
    if a == EffectiveEnd(s) then 0
    else (if s[a] == NEWLINE then 1 else 0) + Separators(s, a + 1)
  }

  lemma {:induction false} NoSeparators(s: seq<byte>, a: nat, b: nat)
    requires a <= b <= EffectiveEnd(s) && forall i :: a <= i < b ==> s[i] != NEWLINE
    ensures Separators(s, a) == Separators(s, b)
    decreases b - a
  {
    if a < b { NoSeparators(s, a + 1, b); }
  }

  /** There is one line more than there are separators. */
  lemma {:induction false} LinesBySeparators(s: seq<byte>, a: nat)
    requires a < |s|
    ensures a <= EffectiveEnd(s) && |LinesFrom(s, a)| == Separators(s, a) + 1
    decreases |s| - a
  {
    var end := NextLine(s, a);
    if end < |s| {
      LinesBySeparators(s, end);
      NoSeparators(s, a, end - 1);
    } else {
      NoSeparators(s, a, EffectiveEnd(s));
    }
  }

  lemma WholeFileWanted(s: seq<byte>, n: nat)
    requires s != [] && Separators(s, 0) < n
    ensures StartsLastLines(s, n, 0)
  {
    LinesBySeparators(s, 0);
  }

  lemma BoundaryFound(s: seq<byte>, n: nat, p: nat)
    requires n >= 1 && p < EffectiveEnd(s) && s[p] == NEWLINE && Separators(s, p) == n
    ensures StartsLastLines(s, n, p + 1)
  {
    LinesBySeparators(s, p + 1);
    LinesFromBoundary(s, 0, p + 1);
  }

  /** The backward scan, in chunks of any size. */
  method TailStartOffset(file: seq<byte>, tailLines: nat, seekChunk: nat) returns (offset: nat)
    requires tailLines >= 1 && seekChunk >= 1
    ensures StartsLastLines(file, tailLines, offset)
  {
    var newlines := 0;
    var size := |file|;
    if size == 0 {
      return 0;
    }
    var effectiveEnd := if file[size - 1] == NEWLINE then size - 1 else size;
    var pos := effectiveEnd;
    while pos > 0
      invariant 0 <= pos <= effectiveEnd
      invariant newlines == Separators(file, pos) < tailLines
    {
      var readSize := Min(seekChunk, pos);
      pos := pos - readSize;
      var buf := file[pos..pos + readSize];
      var scanLen := Min(|buf|, effectiveEnd - pos);
      for i := scanLen downto 0
        invariant scanLen == readSize && pos + readSize <= effectiveEnd
        invariant newlines == Separators(file, pos + i) < tailLines
      {
        if buf[i] == NEWLINE {
          newlines := newlines + 1;
          if newlines == tailLines {
            BoundaryFound(file, tailLines, pos + i);
            return pos + i + 1;
          }
        }
      }
    }
    WholeFileWanted(file, tailLines);
    return 0;
  }

  /** Two scans with different chunk sizes agree. */
  method ScanTwice(file: seq<byte>, tailLines: nat, seekChunk: nat, seekChunk': nat) returns (o: nat, o': nat)
    requires tailLines >= 1 && seekChunk >= 1 && seekChunk' >= 1
    ensures o == o'
  {
    o := TailStartOffset(file, tailLines, seekChunk);
    o' := TailStartOffset(file, tailLines, seekChunk');
    OffsetUnique(file, tailLines, o, o');
  }

  function ReadLine(file: seq<byte>, pos: nat): (raw: seq<byte>)
    requires pos <= |file|
    ensures raw == [] <==> pos == |file|
    ensures raw != [] ==> OneLine(raw) && pos + |raw| == NextLine(file, pos)
  {
    if pos == |file| then [] else file[pos..NextLine(file, pos)]
  }

  /** The part of the history a client asks for: all of it below zero, else the last lines. */
  function Wanted(lines: seq<seq<byte>>, tailLines: int): seq<seq<byte>> {
    if tailLines < 0 then lines else lines[|lines| - Min(tailLines, |lines|)..]
  }

  predicate AllWhole(bursts: seq<seq<byte>>) {
    forall i :: 0 <= i < |bursts| ==> WholeLines(bursts[i])
  }

  predicate StartFor(initial: seq<byte>, tailLines: int, start: nat) {
    if tailLines < 0 then start == 0
    else if tailLines == 0 then start == |initial|
    else StartsLastLines(initial, tailLines, start)
  }

  /** The file after the first `t` bursts. */
  function FileAt(initial: seq<byte>, bursts: seq<seq<byte>>, t: nat): seq<byte>
    requires t <= |bursts|
  {
    if t == 0 then initial else FileAt(initial, bursts, t - 1) + bursts[t - 1]
  }

  lemma {:induction false} FileOnlyGrows(initial: seq<byte>, bursts: seq<seq<byte>>, t: nat)
    requires t <= |bursts|
    ensures initial <= FileAt(initial, bursts, t)
    ensures WholeLines(initial) && AllWhole(bursts) ==> WholeLines(FileAt(initial, bursts, t))
  {
    if t > 0 { FileOnlyGrows(initial, bursts, t - 1); }
  }

  /** What the reader has handed out is what the file held between its start and its position. */
  ghost predicate Delivered(file: seq<byte>, start: nat, pos: nat, chunks: seq<seq<byte>>) {
    && start <= pos <= |file|
    && Concat(chunks) == file[start..pos]
    && (forall i :: 0 <= i < |chunks| ==> OneLine(chunks[i]))
  }

  /** And it consists of the lines of the file from its start. */
  ghost predicate LinesDelivered(file: seq<byte>, start: nat, pos: nat, chunks: seq<seq<byte>>) {
    start <= pos <= |file| && WholeLines(file) && LinesFrom(file, start) == chunks + LinesFrom(file, pos)
  }

  lemma FileGrew(file: seq<byte>, burst: seq<byte>, start: nat, pos: nat, chunks: seq<seq<byte>>)
    requires Delivered(file, start, pos, chunks)
    ensures Delivered(file + burst, start, pos, chunks)
  {
    SliceOfAppend(file, burst, start, pos);
  }

  lemma FileGrewByLines(file: seq<byte>, burst: seq<byte>, start: nat, pos: nat, chunks: seq<seq<byte>>)
    requires LinesDelivered(file, start, pos, chunks) && WholeLines(burst)
    ensures LinesDelivered(file + burst, start, pos, chunks)
  {
    WholeLinesJoin(file, burst);
    LinesFromAppend(file, burst, start);
    LinesFromAppend(file, burst, pos);
    JoinMore(chunks, LinesFrom(file, pos), LinesFrom(file + burst, |file|),
             LinesFrom(file, start), LinesFrom(file + burst, pos), LinesFrom(file + burst, start));
  }

  lemma ChunkRead(file: seq<byte>, start: nat, pos: nat, chunks: seq<seq<byte>>)
    requires Delivered(file, start, pos, chunks) && pos < |file|
    ensures Delivered(file, start, pos + |ReadLine(file, pos)|, chunks + [ReadLine(file, pos)])
  {
    var raw := ReadLine(file, pos);
    SlicesJoin(file, start, pos, pos + |raw|);
    assert (chunks + [raw])[..|chunks|] == chunks;
  }

  lemma ChunkReadByLines(file: seq<byte>, start: nat, pos: nat, chunks: seq<seq<byte>>)
    requires LinesDelivered(file, start, pos, chunks) && pos < |file|
    ensures LinesDelivered(file, start, pos + |ReadLine(file, pos)|, chunks + [ReadLine(file, pos)])
  {
    var raw := ReadLine(file, pos);
    Associate(chunks, [raw], LinesFrom(file, pos + |raw|));
  }

  /** `readline` and, if it returned anything, the yield. */
  method ReadOn(file: seq<byte>, ghost start: nat, pos: nat, chunks: seq<seq<byte>>, ghost whole: bool)
    returns (more: bool, pos': nat, chunks': seq<seq<byte>>)
    requires Delivered(file, start, pos, chunks) && (whole ==> LinesDelivered(file, start, pos, chunks))
    ensures more == (pos < |file|)
    ensures if more then pos < pos' else pos' == pos
    ensures Delivered(file, start, pos', chunks') && (whole ==> LinesDelivered(file, start, pos', chunks'))
  {
    more, pos', chunks' := false, pos, chunks;
    var raw := ReadLine(file, pos);
    if raw != [] {
      ChunkRead(file, start, pos, chunks);
      if whole { ChunkReadByLines(file, start, pos, chunks); }
      more, pos', chunks' := true, pos + |raw|, chunks + [raw];
    }
  }

  /** Whatever the writer has done since the reader last looked. */
  method Grow(ghost initial: seq<byte>, bursts: seq<seq<byte>>, t: nat, file: seq<byte>,
              ghost start: nat, ghost pos: nat, ghost chunks: seq<seq<byte>>, ghost whole: bool)
    returns (file': seq<byte>, t': nat)
    requires t <= |bursts| && file == FileAt(initial, bursts, t) && Delivered(file, start, pos, chunks)
    requires whole ==> AllWhole(bursts) && LinesDelivered(file, start, pos, chunks)
    ensures t' == (if t < |bursts| then t + 1 else t)
    ensures file' == FileAt(initial, bursts, t') && (t == |bursts| ==> file' == file)
    ensures Delivered(file', start, pos, chunks)
    ensures whole ==> LinesDelivered(file', start, pos, chunks)
  {
    file', t' := file, t;
    if t < |bursts| {
      FileGrew(file, bursts[t], start, pos, chunks);
      if whole {
        FileGrewByLines(file, bursts[t], start, pos, chunks);
      }
      file', t' := file + bursts[t], t + 1;
    }
  }

  lemma HistoryThenLive(initial: seq<byte>, bursts: seq<seq<byte>>, tailLines: int, start: nat, file: seq<byte>)
    requires WholeLines(initial) && initial <= file
    requires start <= |initial| && StartFor(initial, tailLines, start)
    ensures LinesFrom(file, start) == Wanted(LinesFrom(initial, 0), tailLines) + LinesFrom(file, |initial|)
  {
    assert file == initial + file[|initial|..];
    LinesFromAppend(initial, file[|initial|..], start);
    if tailLines > 0 { LastLinesAtOffset(initial, tailLines, start); }
  }

  /**
   The reader against a concurrent writer.  The file holds `initial` when it is opened.  Whenever
   the reader looks, at the file or at `is_done`, the writer may have appended another burst,
   possibly empty; `is_done` turns true at some moment after the last append, here when the bursts
   are used up.  The result is everything `readline` returned.

   No byte is lost, repeated or reordered, and the stream ends.  When the log consists of whole
   lines, the chunks are the wanted lines of the history followed by all the lines that came after.
   */
  method TailLog(initial: seq<byte>, bursts: seq<seq<byte>>, tailLines: int, seekChunk: nat)
    returns (start: nat, chunks: seq<seq<byte>>)
    requires seekChunk >= 1
    ensures start <= |initial| && StartFor(initial, tailLines, start)
    ensures initial <= FileAt(initial, bursts, |bursts|)
    ensures Concat(chunks) == FileAt(initial, bursts, |bursts|)[start..]
    ensures forall i :: 0 <= i < |chunks| ==> OneLine(chunks[i])
    ensures WholeLines(initial) && AllWhole(bursts) ==>
      chunks == Wanted(LinesFrom(initial, 0), tailLines)
                + LinesFrom(FileAt(initial, bursts, |bursts|), |initial|)
  {
    var file, t := initial, 0;
    start := 0;
    if tailLines == 0 {
      start := |file|;
    } else if tailLines > 0 {
      start := TailStartOffset(file, tailLines, seekChunk);
    }
    chunks := Follow(initial, bursts, start);
    FileOnlyGrows(initial, bursts, |bursts|);
    if WholeLines(initial) && AllWhole(bursts) {
      HistoryThenLive(initial, bursts, tailLines, start, FileAt(initial, bursts, |bursts|));
    }
  }

  /** The loop of `tail_log`, from its first position on. */
  method Follow(initial: seq<byte>, bursts: seq<seq<byte>>, start: nat)
    returns (chunks: seq<seq<byte>>)
    requires start <= |initial|
    ensures var file := FileAt(initial, bursts, |bursts|);
      && Delivered(file, start, |file|, chunks)
      && (WholeLines(initial) && AllWhole(bursts) ==> chunks == LinesFrom(file, start))
  {
    var file, t := initial, 0;
    var pos: nat := start;
    chunks := [];
    ghost var whole := WholeLines(initial) && AllWhole(bursts);
    Started(file, start);
    while true
      invariant t <= |bursts| && file == FileAt(initial, bursts, t)
      invariant Delivered(file, start, pos, chunks)
      invariant whole ==> LinesDelivered(file, start, pos, chunks)
      decreases |bursts| - t, |file| - pos
    {
      file, t := Grow(initial, bursts, t, file, start, pos, chunks, whole);
      var more;
      more, pos, chunks := ReadOn(file, start, pos, chunks, whole);
      if !more {
        file, t := Grow(initial, bursts, t, file, start, pos, chunks, whole);
        var isDone := t == |bursts|;
        if isDone {
          // the final drain: one more look after the writer is known to be gone
          more, pos, chunks := ReadOn(file, start, pos, chunks, whole);
          if !more {
            break;
          }
        }
      }
    }
    Ended(file, start, chunks);
  }

  lemma Started(file: seq<byte>, start: nat)
    requires start <= |file|
    ensures Delivered(file, start, start, [])
    ensures WholeLines(file) ==> LinesDelivered(file, start, start, [])
  {
    NothingAdded(LinesFrom(file, start));
  }

  lemma Ended(file: seq<byte>, start: nat, chunks: seq<seq<byte>>)
    ensures LinesDelivered(file, start, |file|, chunks) ==> chunks == LinesFrom(file, start)
  {
    NothingAdded(chunks);
  }
}
