/** A transcript as lines: how a file is cut at its newlines, and which lines are short enough to be read whole. */
module TranscriptLines {
  import opened Common

  const NEWLINE: Byte := 10
  const MAX_LINE_BYTES: nat := 1024 * 1024

  function Min(a: nat, b: nat): nat { if a < b then a else b }
  function Max(a: nat, b: nat): nat { if a < b then b else a }

  /** Length of the line `rest` starts with, its newline included when it has one. */
  function LineLen(rest: Bytes): (n: nat)
    ensures n <= |rest| && (rest != [] ==> n > 0)
    ensures forall i :: 0 <= i < n - 1 ==> rest[i] != NEWLINE
    ensures n < |rest| ==> n > 0 && rest[n - 1] == NEWLINE
  {
    if rest == [] then 0 else if rest[0] == NEWLINE then 1 else 1 + LineLen(rest[1..])
  }

  function Lines(rest: Bytes): seq<Bytes>
    decreases |rest|
  {
    if rest == [] then [] else [rest[..LineLen(rest)]] + Lines(rest[LineLen(rest)..])
  }

  predicate EndsWithNewline(chunk: Bytes) {
    chunk != [] && chunk[|chunk| - 1] == NEWLINE
  }

  /** More than `MAX_LINE_BYTES` bytes of content in a line of `len` bytes, its newline not counted. */
  predicate IsLong(len: nat, newline: bool) {
    len > MAX_LINE_BYTES + 1 || (len == MAX_LINE_BYTES + 1 && !newline)
  }

  predicate Fits(line: Bytes) {
    !IsLong(|line|, EndsWithNewline(line))
  }

  // ------------------------------------------------------------------
  // The lines and the file
  // ------------------------------------------------------------------

  /** A line: non-empty, and no newline before its last byte. */
  ghost predicate OneLine(line: Bytes) {
    line != [] && forall i :: 0 <= i < |line| - 1 ==> line[i] != NEWLINE
  }

  /** Only the last line may lack its newline. */
  ghost predicate WellCut(lines: seq<Bytes>) {
    lines == [] || (OneLine(lines[0]) && (|lines| > 1 ==> EndsWithNewline(lines[0])) && WellCut(lines[1..]))
  }

  lemma HeadIsOneLine(data: Bytes)
    requires data != []
    ensures var n := LineLen(data); OneLine(data[..n]) && (n < |data| ==> EndsWithNewline(data[..n]))
  {
  }

  lemma LinesStep(data: Bytes)
    requires data != []
    ensures var n := LineLen(data);
            Lines(data)[0] == data[..n] && Lines(data)[1..] == Lines(data[n..]) && (|Lines(data)| > 1 ==> n < |data|)
  {
  }

  lemma {:induction false} LinesJoin(data: Bytes)
    ensures Joined(Lines(data)) == data
    decreases |data|
  {
    if data != [] {
      var head, rest := data[..LineLen(data)], data[LineLen(data)..];
      LinesStep(data);
      LinesJoin(rest);
      assert Joined(Lines(data)) == head + rest;
    }
  }

  lemma {:induction false} LinesWellCut(data: Bytes)
    ensures WellCut(Lines(data))
    decreases |data|
  {
    if data != [] {
      HeadIsOneLine(data);
      LinesStep(data);
      LinesWellCut(data[LineLen(data)..]);
    }
  }

  /** The lines are the file, cut after each newline and nowhere else. */
  lemma LinesAreTheFile(data: Bytes)
    ensures Joined(Lines(data)) == data && WellCut(Lines(data))
  {
    LinesJoin(data);
    LinesWellCut(data);
  }

  // ------------------------------------------------------------------
  // Reading a line in pieces
  // ------------------------------------------------------------------

  /** Cutting a line before its newline leaves the rest of the same line. */
  lemma {:induction false} LineLenSplit(rest: Bytes, k: nat)
    requires k <= LineLen(rest) && (k > 0 ==> rest[k - 1] != NEWLINE)
    ensures LineLen(rest) == k + LineLen(rest[k..])
  {
    if k == 0 {
      assert rest[0..] == rest;
    } else {
      LineLenSplit(rest[1..], k - 1);
      assert rest[1..][k - 1..] == rest[k..];
    }
  }

  /** One bounded read inside a line, `done` bytes in: it stays in the line, and ends it exactly at its end. */
  lemma NextChunk(start: Bytes, done: nat, size: nat)
    requires done <= LineLen(start) && (done > 0 ==> start[done - 1] != NEWLINE) && size > 0
    ensures var n := Min(size, LineLen(start[done..]));
            && done + n <= LineLen(start)
            && (n == 0 || EndsWithNewline(start[done..][..n]) ==> done + n == LineLen(start))
            && (n > 0 && !EndsWithNewline(start[done..][..n]) ==> start[done + n - 1] != NEWLINE)
            && (EndsWithNewline(start[done..][..n]) <==>
                n > 0 && done + n == LineLen(start) && EndsWithNewline(start[..LineLen(start)]))
  {
    LineLenSplit(start, done);
    var n := Min(size, LineLen(start[done..]));
    if n > 0 {
      assert start[done..][..n][n - 1] == start[done + n - 1];
    }
  }

  /** A read of the cap and one byte shows whether the whole line fits. */
  lemma FirstChunk(rest: Bytes, line: Bytes)
    requires rest != [] && line == rest[..Min(MAX_LINE_BYTES + 1, LineLen(rest))]
    ensures line != []
    ensures |line| > MAX_LINE_BYTES && !EndsWithNewline(line) <==> !Fits(rest[..LineLen(rest)])
    ensures Fits(rest[..LineLen(rest)]) ==> line == rest[..LineLen(rest)]
    ensures !Fits(rest[..LineLen(rest)]) ==>
            LineLen(rest) == |line| + LineLen(rest[|line|..]) && |line| == MAX_LINE_BYTES + 1 &&
            rest[MAX_LINE_BYTES] != NEWLINE
  {
    if |line| > MAX_LINE_BYTES && !EndsWithNewline(line) {
      LineLenSplit(rest, |line|);
    }
  }
}
