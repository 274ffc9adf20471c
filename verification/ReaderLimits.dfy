/** Files that reach the reader's bounds, and the exact conditions for the limits its comments name. */
module ReaderLimits {
  import opened Common
  import opened TranscriptLines
  import opened ReaderPace

  // ------------------------------------------------------------------
  // Files with lines of given lengths
  // ------------------------------------------------------------------

  const SPACE: Byte := 32

  ghost predicate Lengths(lens: seq<nat>) {
    forall i :: 0 <= i < |lens| ==> lens[i] > 0
  }

  function Blank(n: nat): Bytes {
    seq(n, i => SPACE)
  }

  /** Blank lines, each as long as told, its newline included. */
  function FileOf(lens: seq<nat>): Bytes
    requires Lengths(lens)
  {
    if lens == [] then [] else Blank(lens[0] - 1) + [NEWLINE] + FileOf(lens[1..])
  }

  function AfterLens(p: Pace, lens: seq<nat>): Pace
    decreases |lens|
  {
    if lens == [] then p else AfterLens(AfterLine(p, lens[0], true), lens[1..])
  }

  lemma {:induction false} FirstLineIs(blanks: Bytes, rest: Bytes)
    requires NEWLINE !in blanks
    ensures var data, n := blanks + [NEWLINE] + rest, |blanks| + 1;
            LineLen(data) == n && data[n..] == rest && EndsWithNewline(data[..n])
    decreases |blanks|
  {
    var data := blanks + [NEWLINE] + rest;
    if blanks != [] {
      assert data[1..] == blanks[1..] + [NEWLINE] + rest;
      FirstLineIs(blanks[1..], rest);
    }
  }

  lemma FirstLineOf(lens: seq<nat>)
    requires Lengths(lens) && lens != []
    ensures var data := FileOf(lens);
            && LineLen(data) == lens[0] && data[lens[0]..] == FileOf(lens[1..])
            && EndsWithNewline(data[..lens[0]])
  {
    FirstLineIs(Blank(lens[0] - 1), FileOf(lens[1..]));
  }

  /** The reader takes such a file line by line as told. */
  lemma {:induction false} FileOfPace(p: Pace, lens: seq<nat>, most: nat)
    requires Lengths(lens) && forall i :: 0 <= i < |lens| ==> lens[i] <= most
    ensures AfterLines(p, Lines(FileOf(lens))) == AfterLens(p, lens)
    ensures forall line :: line in Lines(FileOf(lens)) ==> |line| <= most && EndsWithNewline(line)
    decreases |lens|
  {
    if lens != [] {
      var data := FileOf(lens);
      FirstLineOf(lens);
      FileOfPace(AfterLine(p, lens[0], true), lens[1..], most);
      LinesStep(data);
    }
  }

  lemma {:induction false} AfterLensAppend(p: Pace, a: seq<nat>, b: seq<nat>)
    ensures AfterLens(p, a + b) == AfterLens(AfterLens(p, a), b)
    decreases |a|
  {
    if a == [] {
      assert a + b == b;
    } else {
      assert (a + b)[1..] == a[1..] + b;
      AfterLensAppend(AfterLine(p, a[0], true), a[1..], b);
    }
  }

  // ------------------------------------------------------------------
  // The bounds are reached
  // ------------------------------------------------------------------

  /** A line that fits, when no look is due: all its bytes count. */
  lemma FittingLine(p: Pace, len: nat)
    requires !ClockDue(p.linesSeen, p.unclocked) && 0 < len <= MAX_LINE_BYTES + 1
    ensures var q := AfterLine(p, len, true);
            q.linesSeen == p.linesSeen + 1 && q.unclocked == p.unclocked + len &&
            q.meter.gapBytes == p.meter.gapBytes + len
  {
  }

  const LONG_LINE: nat := 2 * MAX_LINE_BYTES + 1

  /** A long line whose tail is one chunk: the tail is read and not counted. */
  lemma OneChunkTail(p: Pace)
    requires !ClockDue(p.linesSeen, p.unclocked)
    ensures var q := AfterLine(p, LONG_LINE, true);
            && q.linesSeen == p.linesSeen + 1 && q.unclocked == p.unclocked + MAX_LINE_BYTES + 1
            && q.meter.gapBytes == p.meter.gapBytes + LONG_LINE
  {
  }

  /** One line of one byte, then a run that ends just before the look that is due for the last line. */
  function Run(len: nat): (lens: seq<nat>)
    ensures lens == [1, len, len, len, MAX_LINE_BYTES - 5, len, MAX_LINE_BYTES + 1]
  {
    [1] + ([len] + ([len] + ([len] + ([MAX_LINE_BYTES - 5] + ([len] + [MAX_LINE_BYTES + 1])))))
  }

  lemma ConsLens(p: Pace, len: nat, rest: seq<nat>)
    ensures AfterLens(p, [len] + rest) == AfterLens(AfterLine(p, len, true), rest)
  {
    assert ([len] + rest)[1..] == rest;
  }

  lemma OneLen(p: Pace, len: nat)
    ensures AfterLens(p, [len]) == AfterLine(p, len, true)
    ensures 0 < len <= MAX_LINE_BYTES + 1 ==> AfterLens(p, [len]).meter.peakBytes >= p.meter.gapBytes + len
  {
    assert [len][1..] == [];
  }

  /** One more line of such a run, fitting or long. */
  lemma NextOfRun(p: Pace, long: bool, rest: seq<nat>) returns (q: Pace)
    requires !ClockDue(p.linesSeen, p.unclocked)
    ensures var len := if long then LONG_LINE else MAX_LINE_BYTES + 1;
            && AfterLens(p, [len] + rest) == AfterLens(q, rest)
            && q.linesSeen == p.linesSeen + 1 && q.unclocked == p.unclocked + MAX_LINE_BYTES + 1
            && q.meter.gapBytes == p.meter.gapBytes + len
  {
    var len := if long then LONG_LINE else MAX_LINE_BYTES + 1;
    q := AfterLine(p, len, true);
    ConsLens(p, len, rest);
    if long {
      OneChunkTail(p);
    } else {
      FittingLine(p, MAX_LINE_BYTES + 1);
    }
  }

  lemma FirstOfRun(rest: seq<nat>) returns (q: Pace)
    ensures AfterLens(PACE_START, [1] + rest) == AfterLens(q, rest)
    ensures q.linesSeen == 1 && q.unclocked == 1 && q.meter.gapBytes == 0
  {
    q := AfterLine(PACE_START, 1, true);
    ConsLens(PACE_START, 1, rest);
  }

  /** The first four lines of a run, and the rest of it. */
  lemma RunBegins(long: bool, rest: seq<nat>) returns (p: Pace)
    ensures var len := if long then LONG_LINE else MAX_LINE_BYTES + 1;
            AfterLens(PACE_START, [1] + ([len] + ([len] + ([len] + rest)))) == AfterLens(p, rest)
    ensures p.linesSeen == 4 && p.unclocked == 1 + 3 * (MAX_LINE_BYTES + 1)
    ensures p.meter.gapBytes == 3 * if long then LONG_LINE else MAX_LINE_BYTES + 1
  {
    var len := if long then LONG_LINE else MAX_LINE_BYTES + 1;
    p := FirstOfRun([len] + ([len] + ([len] + rest)));
    p := NextOfRun(p, long, [len] + ([len] + rest));
    p := NextOfRun(p, long, [len] + rest);
    p := NextOfRun(p, long, rest);
  }

  lemma RunReaches(long: bool)
    ensures var len := if long then LONG_LINE else MAX_LINE_BYTES + 1;
            AfterLens(PACE_START, Run(len)).meter.peakBytes >= GapBytes(long)
  {
    var len := if long then LONG_LINE else MAX_LINE_BYTES + 1;
    var p := RunBegins(long, [MAX_LINE_BYTES - 5] + ([len] + [MAX_LINE_BYTES + 1]));
    ConsLens(p, MAX_LINE_BYTES - 5, [len] + [MAX_LINE_BYTES + 1]);
    FittingLine(p, MAX_LINE_BYTES - 5);
    p := AfterLine(p, MAX_LINE_BYTES - 5, true);
    p := NextOfRun(p, long, [MAX_LINE_BYTES + 1]);
    OneLen(p, MAX_LINE_BYTES + 1);
  }

  /**
   Both bounds are reached, the smaller one by a file whose lines all fit: ten, or
   six, megabytes go by between two looks at a clock meant to be read every four.
   */
  lemma GapIsReached(long: bool)
    ensures var data := FileOf(Run(if long then LONG_LINE else MAX_LINE_BYTES + 1));
            FileMeter(data).peakBytes == GapBytes(long) && (long || forall line :: line in Lines(data) ==> Fits(line))
  {
    var len := if long then LONG_LINE else MAX_LINE_BYTES + 1;
    var data := FileOf(Run(len));
    FileOfPace(PACE_START, Run(len), len);
    RunReaches(long);
    FileIsBounded(data);
  }

  /** A line without an end, three times as long as the cap. */
  function EndlessLine(): Bytes {
    Blank(LIVE_BYTES)
  }

  lemma TwoChunks()
    ensures AfterLine(PACE_START, LIVE_BYTES, false).meter.peakLive >= LIVE_BYTES
  {
    var head := AfterHead(PACE_START, MAX_LINE_BYTES + 1).meter;
    var m1 := head.ReadTail(MAX_LINE_BYTES).Look();
    var m2 := m1.ReadTail(MAX_LINE_BYTES).Look();
    assert TailMeter(m1, MAX_LINE_BYTES, false) == TailMeter(m2, 0, false) == m2.ReadTail(0);
  }

  /** It has the reader hold its head, one chunk and the next one. */
  lemma LiveIsReached()
    ensures FileMeter(EndlessLine()).peakLive == LIVE_BYTES
  {
    var data := EndlessLine();
    assert LineLen(data) == |data| && !EndsWithNewline(data);
    assert data[..|data|] == data && data[|data|..] == [];
    var lines: seq<Bytes> := [data];
    assert Lines(data) == lines && lines[1..] == [];
    TwoChunks();
    assert AfterLines(PACE_START, lines) == AfterLine(PACE_START, LIVE_BYTES, false);
    FileIsBounded(data);
  }

  // ------------------------------------------------------------------
  // Exactly when one read's worth is held
  // ------------------------------------------------------------------

  /** The next line is built beside the one before. */
  ghost predicate OneReadHolds(before: nat, lines: seq<Bytes>)
    decreases |lines|
  {
    lines == [] || (before + |lines[0]| <= MAX_LINE_BYTES + 1 && OneReadHolds(|lines[0]|, lines[1..]))
  }

  lemma {:induction false} TailHoldsMore(m: Meter, n: nat, newline: bool)
    ensures TailMeter(m, n, newline).peakLive >= m.ReadTail(Min(MAX_LINE_BYTES, n)).peakLive
    ensures TailMeter(m, n, newline).line == m.line
    decreases n
  {
    var k := Min(MAX_LINE_BYTES, n);
    if k > 0 && !(k == n && newline) {
      TailHoldsMore(m.ReadTail(k).Look(), n - k, newline);
    }
  }

  lemma LineHolds(p: Pace, len: nat, newline: bool)
    requires p.meter.chunk == 0 && len > 0
    ensures var q := AfterLine(p, len, newline).meter;
            && q.chunk == 0 && q.line == Min(MAX_LINE_BYTES + 1, len)
            && (q.peakLive <= MAX_LINE_BYTES + 1 <==>
                p.meter.peakLive <= MAX_LINE_BYTES + 1 && p.meter.line + len <= MAX_LINE_BYTES + 1)
  {
    var k := Min(MAX_LINE_BYTES + 1, len);
    var head := AfterHead(p, k).meter;
    TailHoldsMore(head, len - k, newline);
    if len == MAX_LINE_BYTES + 1 {
      assert TailMeter(head, 0, newline) == head.ReadTail(0);
    }
  }

  lemma {:induction false} LinesHold(p: Pace, lines: seq<Bytes>)
    requires p.meter.chunk == 0 && p.meter.line <= MAX_LINE_BYTES + 1
    requires forall line :: line in lines ==> line != []
    ensures AfterLines(p, lines).meter.chunk == 0 && AfterLines(p, lines).meter.line <= MAX_LINE_BYTES + 1
    ensures AfterLines(p, lines).meter.peakLive <= MAX_LINE_BYTES + 1
       <==> p.meter.peakLive <= MAX_LINE_BYTES + 1 && OneReadHolds(p.meter.line, lines)
    decreases |lines|
  {
    if lines != [] {
      assert lines[0] in lines;
      LineHolds(p, |lines[0]|, EndsWithNewline(lines[0]));
      forall line | line in lines[1..] ensures line != [] {
        assert line in lines;
      }
      LinesHold(AfterLine(p, |lines[0]|, EndsWithNewline(lines[0])), lines[1..]);
    }
  }

  lemma {:induction false} OneReadHoldsIff(before: nat, lines: seq<Bytes>)
    ensures OneReadHolds(before, lines) <==>
            && (lines != [] ==> before + |lines[0]| <= MAX_LINE_BYTES + 1)
            && forall i :: 0 < i < |lines| ==> |lines[i - 1]| + |lines[i]| <= MAX_LINE_BYTES + 1
    decreases |lines|
  {
    if lines != [] {
      var rest := lines[1..];
      OneReadHoldsIff(|lines[0]|, rest);
      if |lines| > 1 {
        assert lines[1] == rest[0];
      }
      assert forall i :: 0 < i < |rest| ==> rest[i] == lines[i + 1] && rest[i - 1] == lines[i];
      forall i | 1 < i < |lines| && OneReadHolds(|lines[0]|, rest)
        ensures |lines[i - 1]| + |lines[i]| <= MAX_LINE_BYTES + 1
      {
        assert rest[i - 1] == lines[i] && rest[i - 2] == lines[i - 1];
      }
    }
  }

  /** No line, and no two lines in a row together, are longer than one read. */
  ghost predicate ShortAndLoose(lines: seq<Bytes>) {
    && (forall i :: 0 <= i < |lines| ==> |lines[i]| <= MAX_LINE_BYTES + 1)
    && (forall i :: 0 < i < |lines| ==> |lines[i - 1]| + |lines[i]| <= MAX_LINE_BYTES + 1)
  }

  lemma ShortAndLooseHold(lines: seq<Bytes>)
    ensures OneReadHolds(0, lines) <==> ShortAndLoose(lines)
  {
    OneReadHoldsIff(0, lines);
    forall i | 0 <= i < |lines| && OneReadHolds(0, lines) ensures |lines[i]| <= MAX_LINE_BYTES + 1 {
      assert i > 0 ==> |lines[i - 1]| + |lines[i]| <= MAX_LINE_BYTES + 1;
    }
  }

  /** Never more than one read's worth of bytes is alive exactly for files of such lines. */
  lemma HeldExactlyWhen(data: Bytes)
    ensures FileMeter(data).peakLive <= MAX_LINE_BYTES + 1 <==> ShortAndLoose(Lines(data))
  {
    LinesAreNotEmpty(data);
    LinesHold(PACE_START, Lines(data));
    ShortAndLooseHold(Lines(data));
  }

  // ------------------------------------------------------------------
  // Exactly when the byte budget of the clock is kept
  // ------------------------------------------------------------------

  ghost predicate LinesUpTo(data: Bytes, most: nat) {
    forall line :: line in Lines(data) ==> |line| <= most
  }

  /** With short lines the look every 256 lines comes before the budget is spent. */
  ghost predicate Slow(p: Pace, most: nat) {
    && p.meter.gapBytes <= p.meter.gapLines * most && p.meter.gapLines <= LinesSinceClock(p.linesSeen)
    && p.meter.peakBytes <= CLOCK_LINES * most
  }

  lemma SlowRead(m: Meter, linesSeen: nat, len: nat, most: nat)
    requires m.gapBytes <= m.gapLines * most && m.gapLines <= LinesSinceClock(linesSeen) && 0 < len <= most
    ensures m.gapBytes + len <= (m.gapLines + 1) * most <= CLOCK_LINES * most
  {
    var lines := m.gapLines + 1;
    assert lines * most == m.gapLines * most + most;
    assert lines <= CLOCK_LINES;
    assert lines * most <= CLOCK_LINES * most;
  }

  lemma LineStaysSlow(p: Pace, len: nat, newline: bool, most: nat)
    requires Slow(p, most) && 0 < len <= most <= MAX_LINE_BYTES
    ensures Slow(AfterLine(p, len, newline), most)
  {
    SlowRead(p.meter, p.linesSeen, len, most);
    if !ClockDue(p.linesSeen, p.unclocked) {
      NotDueYet(p.linesSeen, p.unclocked);
    }
  }

  lemma SlowSpendsLittle(p: Pace, most: nat)
    requires Slow(p, most)
    ensures p.meter.ReadLine(0).peakBytes <= CLOCK_LINES * most
  {
    assert p.meter.gapLines <= CLOCK_LINES;
    assert p.meter.gapLines * most <= CLOCK_LINES * most;
  }

  lemma {:induction false} LinesStaySlow(p: Pace, lines: seq<Bytes>, most: nat)
    requires Slow(p, most) && most <= MAX_LINE_BYTES
    requires forall line :: line in lines ==> line != [] && |line| <= most
    ensures Slow(AfterLines(p, lines), most)
    decreases |lines|
  {
    if lines != [] {
      assert lines[0] in lines;
      LineStaysSlow(p, |lines[0]|, EndsWithNewline(lines[0]), most);
      LinesStaySlow(AfterLine(p, |lines[0]|, EndsWithNewline(lines[0])), lines[1..], most);
    }
  }

  /** The shortest length at which 256 lines spend more than the budget. */
  const TOO_LONG: nat := 16 * 1024 + 1

  function Uniform(n: nat): seq<nat> {
    seq(n, i => TOO_LONG)
  }

  /** No look is due before 256 of them. */
  lemma UniformNotDue(n: nat)
    requires 0 < n < CLOCK_LINES
    ensures !ClockDue(n, n * TOO_LONG)
  {
  }

  /** One more such line. */
  lemma UniformStep(n: nat)
    ensures AfterLens(PACE_START, Uniform(n + 1)) == AfterLine(AfterLens(PACE_START, Uniform(n)), TOO_LONG, true)
    ensures AfterLens(PACE_START, Uniform(n + 1)).meter.peakBytes
         >= AfterLens(PACE_START, Uniform(n)).meter.gapBytes + TOO_LONG
  {
    assert Uniform(n + 1) == Uniform(n) + [TOO_LONG];
    AfterLensAppend(PACE_START, Uniform(n), [TOO_LONG]);
    OneLen(AfterLens(PACE_START, Uniform(n)), TOO_LONG);
  }

  /** After `n` of them only the first was looked at. */
  ghost predicate UniformAt(p: Pace, n: int) {
    p.linesSeen == n && p.unclocked == n * TOO_LONG && p.meter.gapBytes == (n - 1) * TOO_LONG
  }

  lemma FirstUniform()
    ensures UniformAt(AfterLine(PACE_START, TOO_LONG, true), 1)
  {
  }

  lemma UniformLine(p: Pace, n: nat)
    requires 0 < n < CLOCK_LINES
    requires UniformAt(p, n)
    ensures UniformAt(AfterLine(p, TOO_LONG, true), n + 1)
  {
    UniformNotDue(n);
    FittingLine(p, TOO_LONG);
  }

  lemma {:induction false} UniformPace(n: nat)
    requires 0 < n <= CLOCK_LINES
    ensures UniformAt(AfterLens(PACE_START, Uniform(n)), n)
  {
    UniformStep(n - 1);
    var p := AfterLens(PACE_START, Uniform(n - 1));
    if n == 1 {
      assert Uniform(0) == [] && p == PACE_START;
      FirstUniform();
    } else {
      UniformPace(n - 1);
      UniformLine(p, n - 1);
    }
  }

  /** 257 such lines spend more than the budget. */
  lemma UniformSpendsMore()
    ensures FileMeter(FileOf(Uniform(CLOCK_LINES + 1))).peakBytes > CLOCK_BYTES
    ensures LinesUpTo(FileOf(Uniform(CLOCK_LINES + 1)), TOO_LONG)
  {
    UniformPace(CLOCK_LINES);
    UniformStep(CLOCK_LINES);
    FileOfPace(PACE_START, Uniform(CLOCK_LINES + 1), TOO_LONG);
  }

  lemma ShortLinesKeepBudget(data: Bytes, most: nat)
    requires LinesUpTo(data, most) && CLOCK_LINES * most <= CLOCK_BYTES
    ensures FileMeter(data).peakBytes <= CLOCK_BYTES
  {
    LinesAreNotEmpty(data);
    LinesStaySlow(PACE_START, Lines(data), most);
    SlowSpendsLittle(AfterLines(PACE_START, Lines(data)), most);
  }

  /**
   A cap on the length of lines keeps the bytes between two looks at the clock within
   the four megabytes meant exactly when 256 lines of that length do.
   */
  lemma BudgetKeptExactlyWhen(most: nat)
    ensures (forall data :: LinesUpTo(data, most) ==> FileMeter(data).peakBytes <= CLOCK_BYTES)
       <==> CLOCK_LINES * most <= CLOCK_BYTES
  {
    if CLOCK_LINES * most <= CLOCK_BYTES {
      forall data | LinesUpTo(data, most) ensures FileMeter(data).peakBytes <= CLOCK_BYTES {
        ShortLinesKeepBudget(data, most);
      }
    } else {
      UniformSpendsMore();
      assert LinesUpTo(FileOf(Uniform(CLOCK_LINES + 1)), most);
    }
  }
}
