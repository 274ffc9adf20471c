/**
 What the bounded reader holds and lets go by, as a function of the lines of the
 file: the bytes alive at once, and the bytes and lines read between two looks at
 the clock. `TranscriptReader` proves that its loop follows this function.
 */
module ReaderPace {
  import opened Common
  import opened TranscriptLines

  const CLOCK_BYTES: nat := 4 * 1024 * 1024
  const CLOCK_LINES: nat := 256

  /** The most bytes alive at once: the line kept, the chunk kept, and the chunk being read. */
  const LIVE_BYTES: nat := 3 * MAX_LINE_BYTES + 1

  /**
   What was read since the last look at the clock, the line and the chunk still
   held, and the most ever read between two looks or alive at once.
   */
  datatype Meter = Meter(
    gapBytes: nat, gapLines: nat, peakBytes: nat, peakLines: nat,
    line: nat, chunk: nat, peakLive: nat) {

    /** The next line is built while the one before it is still held, and then takes its place. */
    function ReadLine(n: nat): Meter {
      var bytes, lines := gapBytes + n, gapLines + if n > 0 then 1 else 0;
      Meter(bytes, lines, Max(peakBytes, bytes), Max(peakLines, lines), n, chunk, Max(peakLive, line + chunk + n))
    }

    /** So is the next chunk of a tail, beside the line it belongs to. */
    function ReadTail(n: nat): Meter {
      var bytes := gapBytes + n;
      this.(gapBytes := bytes, peakBytes := Max(peakBytes, bytes), chunk := n,
            peakLive := Max(peakLive, line + chunk + n))
    }

    /** The tail is behind, and its last chunk let go. */
    function DropTail(): Meter {
      this.(chunk := 0)
    }

    function Look(): Meter {
      this.(gapBytes := 0, gapLines := 0)
    }
  }

  const METER_START := Meter(0, 0, 0, 0, 0, 0, 0)

  /** The meter, and the two counters that decide when the clock is due. */
  datatype Pace = Pace(meter: Meter, linesSeen: nat, unclocked: nat)

  const PACE_START := Pace(METER_START, 0, 0)

  predicate ClockDue(linesSeen: nat, unclocked: nat) {
    linesSeen % CLOCK_LINES == 0 || unclocked >= CLOCK_BYTES
  }

  /** The tail of a line, `n` bytes of which are still unread. */
  function TailMeter(m: Meter, n: nat, newline: bool): Meter
    decreases n
  {
    var k := Min(MAX_LINE_BYTES, n);
    var read := m.ReadTail(k);
    if k == 0 || (k == n && newline) then read else TailMeter(read.Look(), n - k, newline)
  }

  /** After the first read of a line, `k` bytes, and the look at the clock if one is due. */
  function AfterHead(p: Pace, k: nat): Pace {
    var due, read := ClockDue(p.linesSeen, p.unclocked), p.meter.ReadLine(k);
    Pace(if due then read.Look() else read, p.linesSeen + 1, (if due then 0 else p.unclocked) + k)
  }

  /** After a line of `len` bytes. */
  function AfterLine(p: Pace, len: nat, newline: bool): Pace {
    var k := Min(MAX_LINE_BYTES + 1, len);
    var head := AfterHead(p, k);
    if IsLong(len, newline) then head.(meter := TailMeter(head.meter, len - k, newline).DropTail()) else head
  }

  function AfterLines(p: Pace, lines: seq<Bytes>): Pace
    decreases |lines|
  {
    if lines == [] then p else AfterLines(AfterLine(p, |lines[0]|, EndsWithNewline(lines[0])), lines[1..])
  }

  /** The reading of a whole file: its lines, and the empty read at its end. */
  function FileMeter(data: Bytes): Meter {
    AfterLines(PACE_START, Lines(data)).meter.ReadLine(0)
  }

  // ------------------------------------------------------------------
  // Bounds for every file
  // ------------------------------------------------------------------

  /** The most bytes read between two looks at the clock, in a file that may have long lines or in one that has none. */
  function GapBytes(long: bool): nat {
    if long then 10 * MAX_LINE_BYTES else 6 * MAX_LINE_BYTES
  }

  ghost predicate Bounded(m: Meter, long: bool) {
    m.peakLive <= LIVE_BYTES && m.peakBytes <= GapBytes(long) && m.peakLines <= CLOCK_LINES
  }

  /** Lines read since the last look at the clock, at most, when `linesSeen` have been counted. */
  function LinesSinceClock(linesSeen: nat): nat {
    if linesSeen == 0 then 0 else (linesSeen - 1) % CLOCK_LINES
  }

  /** What one tail at most adds to the bytes since the last look. */
  function TailBytes(long: bool): nat {
    if long then MAX_LINE_BYTES else 0
  }

  /**
   Bytes since the last look, at most: the counted ones but the first line read
   before it, and one tail chunk for each full line head among them.
   */
  function Credit(unclocked: nat, long: bool): nat {
    if unclocked == 0 then 0 else unclocked - 1 + (unclocked - 1) / (MAX_LINE_BYTES + 1) * TailBytes(long)
  }

  /** Counting a line gives its bytes room, and a full head those of one tail chunk as well. */
  lemma CreditGrows(unclocked: nat, k: nat, long: bool)
    requires unclocked > 0 && k <= MAX_LINE_BYTES + 1
    ensures Credit(unclocked, long) + k <= Credit(unclocked + k, long)
    ensures k == MAX_LINE_BYTES + 1 ==> Credit(unclocked, long) + k + TailBytes(long) <= Credit(unclocked + k, long)
  {
    var a, b := (unclocked - 1) / (MAX_LINE_BYTES + 1), (unclocked + k - 1) / (MAX_LINE_BYTES + 1);
    assert a <= b && (k == MAX_LINE_BYTES + 1 ==> b == a + 1);
  }

  lemma CreditIsBounded(unclocked: nat, long: bool)
    requires unclocked <= CLOCK_BYTES + MAX_LINE_BYTES
    ensures Credit(unclocked, long) + MAX_LINE_BYTES + 1 <= GapBytes(long)
  {
    if unclocked > 0 {
      assert (unclocked - 1) / (MAX_LINE_BYTES + 1) <= 4;
    }
  }

  /** The pace the reader keeps at the head of its loop. */
  ghost predicate Paced(p: Pace, long: bool) {
    && p.meter.gapBytes <= Credit(p.unclocked, long) && p.unclocked <= CLOCK_BYTES + MAX_LINE_BYTES
    && p.meter.gapLines <= LinesSinceClock(p.linesSeen) && (p.linesSeen > 0 ==> p.unclocked > 0)
    && p.meter.line <= MAX_LINE_BYTES + 1 && p.meter.chunk == 0
    && Bounded(p.meter, long)
  }

  /** A head is read before the clock is looked at. */
  lemma HeadStaysBounded(p: Pace, k: nat, long: bool)
    requires Paced(p, long) && 0 < k <= MAX_LINE_BYTES + 1
    ensures Bounded(p.meter.ReadLine(k), long)
  {
    CreditIsBounded(p.unclocked, long);
    assert LinesSinceClock(p.linesSeen) < CLOCK_LINES;
  }

  /** Lines since the last look, when it is not due for the next one. */
  lemma NotDueYet(linesSeen: nat, unclocked: nat)
    requires !ClockDue(linesSeen, unclocked)
    ensures LinesSinceClock(linesSeen + 1) == LinesSinceClock(linesSeen) + 1 && unclocked < CLOCK_BYTES && linesSeen > 0
  {
  }

  /** Reading one line head keeps the pace, and leaves room for a tail behind a full one. */
  lemma HeadKeepsPace(p: Pace, k: nat, long: bool)
    requires Paced(p, long) && 0 < k <= MAX_LINE_BYTES + 1
    ensures Bounded(p.meter.ReadLine(k), long) && Paced(AfterHead(p, k), long)
    ensures k == MAX_LINE_BYTES + 1 ==>
            AfterHead(p, k).meter.gapBytes + TailBytes(long) <= Credit(AfterHead(p, k).unclocked, long)
  {
    HeadStaysBounded(p, k, long);
    if !ClockDue(p.linesSeen, p.unclocked) {
      NotDueYet(p.linesSeen, p.unclocked);
      CreditGrows(p.unclocked, k, long);
    }
  }

  /** From the start of a tail to some point in it: at most one more chunk since the last look, and no new line. */
  ghost predicate TailRead(before: Meter, after: Meter) {
    && after.gapBytes <= before.gapBytes + MAX_LINE_BYTES && after.gapLines <= before.gapLines
    && after.peakBytes <= Max(before.peakBytes, before.gapBytes + MAX_LINE_BYTES)
    && after.peakLines == before.peakLines
    && after.line == before.line && after.chunk <= MAX_LINE_BYTES
    && after.peakLive <= Max(before.peakLive, before.line + 2 * MAX_LINE_BYTES)
  }

  /** Between two chunks of a tail nothing is outstanding beyond what was when it began. */
  ghost predicate InTail(before: Meter, m: Meter) {
    TailRead(before, m) && m.gapBytes <= before.gapBytes
  }

  lemma TailChunk(before: Meter, m: Meter, n: nat)
    requires InTail(before, m) && n <= MAX_LINE_BYTES
    ensures TailRead(before, m.ReadTail(n)) && InTail(before, m.ReadTail(n).Look())
  {
  }

  lemma {:induction false} TailIsRead(before: Meter, m: Meter, n: nat, newline: bool)
    requires InTail(before, m)
    ensures TailRead(before, TailMeter(m, n, newline))
    decreases n
  {
    var k := Min(MAX_LINE_BYTES, n);
    TailChunk(before, m, k);
    if k > 0 && !(k == n && newline) {
      TailIsRead(before, m.ReadTail(k).Look(), n - k, newline);
    }
  }

  /** A tail that ends, or is given up, keeps the pace where there was room for it. */
  lemma TailKeepsPace(p: Pace, after: Meter)
    requires Paced(p, true) && p.meter.gapBytes + MAX_LINE_BYTES <= Credit(p.unclocked, true)
    requires TailRead(p.meter, after)
    ensures Paced(p.(meter := after.DropTail()), true)
  {
  }

  /** Behind the head of a long line there is room for its tail. */
  lemma LongHead(p: Pace, len: nat, newline: bool)
    requires Paced(p, true) && IsLong(len, newline)
    ensures var head := AfterHead(p, MAX_LINE_BYTES + 1);
            && Paced(head, true) && head.meter.gapBytes + MAX_LINE_BYTES <= Credit(head.unclocked, true)
            && AfterLine(p, len, newline)
            == head.(meter := TailMeter(head.meter, len - (MAX_LINE_BYTES + 1), newline).DropTail())
  {
    HeadKeepsPace(p, MAX_LINE_BYTES + 1, true);
  }

  lemma LineKeepsPace(p: Pace, len: nat, newline: bool, long: bool)
    requires Paced(p, long) && len > 0 && (IsLong(len, newline) ==> long)
    ensures Paced(AfterLine(p, len, newline), long)
  {
    if IsLong(len, newline) {
      var head, tail := AfterHead(p, MAX_LINE_BYTES + 1), len - (MAX_LINE_BYTES + 1);
      LongHead(p, len, newline);
      TailIsRead(head.meter, head.meter, tail, newline);
      TailKeepsPace(head, TailMeter(head.meter, tail, newline));
    } else {
      HeadKeepsPace(p, len, long);
    }
  }

  lemma {:induction false} LinesKeepPace(p: Pace, lines: seq<Bytes>, long: bool)
    requires Paced(p, long) && forall line :: line in lines ==> line != [] && (Fits(line) || long)
    ensures Paced(AfterLines(p, lines), long)
    decreases |lines|
  {
    if lines != [] {
      assert lines[0] in lines;
      LineKeepsPace(p, |lines[0]|, EndsWithNewline(lines[0]), long);
      forall line | line in lines[1..] ensures line != [] && (Fits(line) || long) {
        assert line in lines;
      }
      LinesKeepPace(AfterLine(p, |lines[0]|, EndsWithNewline(lines[0])), lines[1..], long);
    }
  }

  lemma {:induction false} LinesAreNotEmpty(data: Bytes)
    ensures forall line :: line in Lines(data) ==> line != []
    decreases |data|
  {
    if data != [] {
      LinesAreNotEmpty(data[LineLen(data)..]);
    }
  }

  /**
   Whatever the file holds, at most three megabytes and a byte are alive at once,
   and at most ten megabytes and 256 lines go by between two looks at the clock:
   six megabytes when every line fits.
   */
  lemma FileIsBounded(data: Bytes)
    ensures Bounded(FileMeter(data), true)
    ensures (forall line :: line in Lines(data) ==> Fits(line)) ==> Bounded(FileMeter(data), false)
  {
    LinesAreNotEmpty(data);
    LinesKeepPace(PACE_START, Lines(data), true);
    if forall line :: line in Lines(data) ==> Fits(line) {
      LinesKeepPace(PACE_START, Lines(data), false);
    }
  }
}
