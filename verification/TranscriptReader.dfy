/**
 The bounded transcript reader: newline-split lines, a cap on the size of a read,
 a raw-byte prefilter in front of the parser, and a deadline that is checked
 every so often. The file's bytes, the clock's verdicts and read faults are
 arbitrary.
 */
module TranscriptReader {
  import opened Common
  import opened Transcript
  import opened TranscriptScan
  import opened TranscriptLines
  import opened ReaderPace

  const MAX_TRANSCRIPT_BYTES: nat := 256 * 1024 * 1024

  /** `"tool_use"` and `"tool_result"`, quotes included, as bytes. */
  const USE_TOKEN: Bytes := [34, 116, 111, 111, 108, 95, 117, 115, 101, 34]
  const RESULT_TOKEN: Bytes := [34, 116, 111, 111, 108, 95, 114, 101, 115, 117, 108, 116, 34]

  // ------------------------------------------------------------------
  // The meaning: the fold over the lines
  // ------------------------------------------------------------------

  /** What the scan asks of code outside it: the JSON parser, the UTF-8 encoder and the pattern of a pack id. */
  datatype Config = Config(
    parse: Bytes -> Option<Json>,
    encode: string -> Bytes,
    packIn: Json -> Option<string>,
    includeSidechain: bool)

  /** The content blocks of one parsed entry; none when it is a sidechain entry left out. */
  function ContentOf(entry: Json, includeSidechain: bool): seq<Json> {
    if !entry.Obj? || (Get(entry.fields, "isSidechain") == Bool(true) && !includeSidechain) then []
    else
      var message := Get(entry.fields, "message");
      var content := if message.Obj? then Get(message.fields, "content") else Null;
      if content.Arr? then content.items else []
  }

  function DecodeAll(content: seq<Json>, packIn: Json -> Option<string>): seq<Event> {
    if content == [] then []
    else [if content[0].Obj? then Decode(content[0].fields, packIn) else Noise] + DecodeAll(content[1..], packIn)
  }

  function EventsOf(cfg: Config, line: Bytes): seq<Event> {
    var entry := cfg.parse(line);
    if entry.None? then [] else DecodeAll(ContentOf(entry.value, cfg.includeSidechain), cfg.packIn)
  }

  predicate Wanted(cfg: Config, pending: seq<Call>, line: Bytes) {
    || Contains(line, USE_TOKEN)
    || (Contains(line, RESULT_TOKEN) && exists i :: 0 <= i < |pending| && Contains(line, cfg.encode(pending[i].id)))
  }

  function SkipOne(s: ScanState): ScanState {
    s.(facts := s.facts.(skippedLines := s.facts.skippedLines + 1))
  }

  /**
   The simple scan: every line in turn, an over-long one only counted. With
   `prefilter`, only the wanted ones are parsed; the flag says the scan stopped
   at a retrieval.
   */
  function ScanLines(cfg: Config, s: ScanState, lines: seq<Bytes>, stop: bool, prefilter: bool): (ScanState, bool)
    decreases |lines|
  {
    if lines == [] then (s, false)
    else if !Fits(lines[0]) then ScanLines(cfg, SkipOne(s), lines[1..], stop, prefilter)
    else if prefilter && !Wanted(cfg, s.pending, lines[0]) then ScanLines(cfg, s, lines[1..], stop, prefilter)
    else
      var (t, stopped) := FoldUntil(s, EventsOf(cfg, lines[0]), stop);
      if stopped then (t, true) else ScanLines(cfg, t, lines[1..], stop, prefilter)
  }

  function FileFacts(cfg: Config, data: Bytes, stop: bool, prefilter: bool): Facts {
    Finish(ScanLines(cfg, START, Lines(data), stop, prefilter).0).facts
  }

  // ------------------------------------------------------------------
  // The file and the clock
  // ------------------------------------------------------------------

  /** What `stat` and `open` say about the named path before any byte is read. */
  datatype PathStatus =
    | NoPath
    | Missing
    | Unreadable
    | NotRegular
    | Stated(size: nat, openMissing: bool, openFails: bool)

  predicate Readable(status: PathStatus) {
    status.Stated? && status.size <= MAX_TRANSCRIPT_BYTES && !status.openMissing && !status.openFails
  }

  /** ENOENT, at `stat` or at `open`. */
  predicate NotThere(status: PathStatus) {
    status.Missing? || (status.Stated? && status.size <= MAX_TRANSCRIPT_BYTES && status.openMissing)
  }

  /**
   An open transcript and the monotonic clock. `late(k)` is the clock's k-th
   verdict on the deadline and `fault(k)` says whether the k-th read fails. The
   ghost meter measures the reading.
   */
  class Source {
    const data: Bytes
    const late: nat -> bool
    const fault: nat -> bool
    var pos: nat
    var readCalls: nat
    var ticks: nat
    ghost var meter: Meter

    ghost predicate Valid()
      reads this
    {
      pos <= |data|
    }

    /** The clock passes the deadline, or a read fails, at some point. */
    ghost predicate Trouble() {
      (exists k :: late(k)) || exists k :: fault(k)
    }

    function Rest(): Bytes
      requires pos <= |data|
      reads this
    {
      data[pos..]
    }

    constructor (data: Bytes, late: nat -> bool, fault: nat -> bool)
      ensures Valid() && Rest() == data && readCalls == ticks == 0 && meter == METER_START
      ensures this.data == data && this.late == late && this.fault == fault
    {
      this.data, this.late, this.fault := data, late, fault;
      pos, readCalls, ticks, meter := 0, 0, 0, METER_START;
    }

    /** `readline(size)`: up to and including a newline, and never more than `size` bytes. */
    method ReadLine(size: nat, ghost inTail: bool) returns (ok: bool, chunk: Bytes)
      requires Valid() && size > 0
      modifies this
      ensures Valid() && ok == !fault(old(readCalls)) && readCalls == old(readCalls) + 1 && ticks == old(ticks)
      ensures chunk == if ok then old(Rest())[..Min(size, LineLen(old(Rest())))] else []
      ensures pos == old(pos) + |chunk|
      ensures meter == if !ok then old(meter)
                       else if inTail then old(meter).ReadTail(|chunk|)
                       else old(meter).ReadLine(|chunk|)
    {
      ok := !fault(readCalls);
      readCalls := readCalls + 1;
      chunk := [];
      if ok {
        var n := Min(size, LineLen(data[pos..]));
        chunk := data[pos..][..n];
        pos := pos + n;
        meter := if inTail then meter.ReadTail(n) else meter.ReadLine(n);
      }
    }

    /** One look at the clock. */
    method PastDeadline() returns (past: bool)
      requires Valid()
      modifies this`ticks, this`meter
      ensures Valid() && past == late(old(ticks)) && ticks == old(ticks) + 1
      ensures meter == old(meter).Look()
    {
      past := late(ticks);
      ticks, meter := ticks + 1, meter.Look();
    }

    /** The last chunk of a tail is let go when the skipping returns. */
    ghost method LetGo()
      modifies this`meter
      ensures meter == old(meter).DropTail()
    {
      meter := meter.DropTail();
    }
  }

  /** Where the loop below stands in a tail, `done` bytes in. */
  ghost predicate TailAt(start: Bytes, done: nat, m0: Meter, m: Meter) {
    var n := LineLen(start);
    var newline := EndsWithNewline(start[..n]);
    && done <= n && (done > 0 ==> start[done - 1] != NEWLINE)
    && InTail(m0, m) && TailMeter(m, n - done, newline) == TailMeter(m0, n, newline)
  }

  /** One turn of it. */
  lemma TailTurn(start: Bytes, done: nat, m0: Meter, m: Meter, chunk: Bytes)
    requires TailAt(start, done, m0, m) && chunk == start[done..][..Min(MAX_LINE_BYTES, LineLen(start[done..]))]
    ensures TailRead(m0, m.ReadTail(|chunk|))
    ensures var n := LineLen(start);
            if chunk == [] || EndsWithNewline(chunk)
            then done + |chunk| == n && m.ReadTail(|chunk|) == TailMeter(m0, n, EndsWithNewline(start[..n]))
            else TailAt(start, done + |chunk|, m0, m.ReadTail(|chunk|).Look())
  {
    NextChunk(start, done, MAX_LINE_BYTES);
    LineLenSplit(start, done);
    TailChunk(m0, m, |chunk|);
  }

  /** The read that begins a turn. */
  method ReadTailChunk(source: Source, ghost start: Bytes, ghost done: nat, ghost m0: Meter)
    returns (ok: bool, chunk: Bytes)
    requires source.Valid() && done <= |start| && source.Rest() == start[done..] &&
             TailAt(start, done, m0, source.meter)
    modifies source
    ensures source.Valid() && source.pos == old(source.pos) + |chunk| && source.ticks == old(source.ticks)
    ensures TailRead(m0, source.meter) && (!ok ==> source.Trouble())
    ensures ok && (chunk == [] || EndsWithNewline(chunk)) ==>
            && done + |chunk| == LineLen(start)
            && source.meter == TailMeter(m0, LineLen(start), EndsWithNewline(start[..LineLen(start)]))
    ensures ok && !(chunk == [] || EndsWithNewline(chunk)) ==> TailAt(start, done + |chunk|, m0, source.meter.Look())
  {
    ghost var m := source.meter;
    ok, chunk := source.ReadLine(MAX_LINE_BYTES, true);
    if ok {
      TailTurn(start, done, m0, m, chunk);
    }
  }

  /**
   Reads what is left of an over-long line, one chunk after the other; false when it
   gives up. `newline` says whether the line ends with one.
   */
  method SkipRestOfLine(source: Source, ghost newline: bool) returns (ended: bool)
    requires source.Valid() && source.meter.chunk == 0
    requires newline == EndsWithNewline(source.Rest()[..LineLen(source.Rest())])
    modifies source
    ensures source.Valid()
    ensures ended ==> source.pos == old(source.pos) + LineLen(old(source.Rest()))
    ensures ended ==> source.meter == TailMeter(old(source.meter), LineLen(old(source.Rest())), newline)
    ensures !ended ==> source.Trouble() && TailRead(old(source.meter), source.meter)
  {
    ghost var start, m0 := source.Rest(), source.meter;
    ghost var done := 0;
    assert start[0..] == start;
    while true
      invariant source.Valid() && source.pos == old(source.pos) + done && done <= |start|
      invariant TailAt(start, done, m0, source.meter)
      decreases |source.data| - source.pos
    {
      assert source.Rest() == start[done..];
      var ok, chunk := ReadTailChunk(source, start, done, m0);
      if !ok {
        return false;
      }
      done := done + |chunk|;
      if chunk == [] || EndsWithNewline(chunk) {
        return true;
      }
      var past := source.PastDeadline();
      if past {
        return false;
      }
    }
  }

  lemma LastByte(rest: Bytes, n: nat)
    requires n <= |rest|
    ensures EndsWithNewline(rest[..n]) <==> n > 0 && rest[n - 1] == NEWLINE
  {
  }

  /** A line and its tail end with a newline alike. */
  lemma TailEndsAlike(rest: Bytes, k: nat)
    requires 0 < k <= LineLen(rest) && rest[k - 1] != NEWLINE && LineLen(rest) == k + LineLen(rest[k..])
    ensures var tail := rest[k..]; EndsWithNewline(tail[..LineLen(tail)]) == EndsWithNewline(rest[..LineLen(rest)])
  {
    var n := LineLen(rest);
    LastByte(rest, n);
    LastByte(rest[k..], n - k);
  }

  lemma ScanLinesStep(cfg: Config, s: ScanState, rest: Bytes, stop: bool)
    requires rest != []
    ensures var line, tail := rest[..LineLen(rest)], Lines(rest[LineLen(rest)..]);
            ScanLines(cfg, s, Lines(rest), stop, true) ==
            if !Fits(line) then ScanLines(cfg, SkipOne(s), tail, stop, true)
            else if !Wanted(cfg, s.pending, line) then ScanLines(cfg, s, tail, stop, true)
            else
              var (t, stopped) := FoldUntil(s, EventsOf(cfg, line), stop);
              if stopped then (t, true) else ScanLines(cfg, t, tail, stop, true)
  {
    assert Lines(rest)[1..] == Lines(rest[LineLen(rest)..]);
  }

  /** Folds the content blocks of one entry; `stopped` says a retrieval ended the scan. */
  method ScanContent(scan: Scan, content: seq<Json>) returns (stopped: bool)
    modifies scan
    ensures (scan.View(), stopped) == FoldUntil(old(scan.View()), DecodeAll(content, scan.packIn), scan.stopAtRetrieval)
  {
    var i := 0;
    while i < |content|
      invariant i <= |content|
      invariant FoldUntil(scan.View(), DecodeAll(content[i..], scan.packIn), scan.stopAtRetrieval)
             == FoldUntil(old(scan.View()), DecodeAll(content, scan.packIn), scan.stopAtRetrieval)
    {
      var item := content[i];
      assert DecodeAll(content[i..], scan.packIn)[1..] == DecodeAll(content[i + 1..], scan.packIn);
      if item.Obj? {
        var stop := scan.Block(item.fields);
        if stop {
          return true;
        }
      }
      i := i + 1;
    }
    return false;
  }

  /** Prefilter, parse and fold one line that fits. */
  method ScanLine(scan: Scan, cfg: Config, line: Bytes) returns (stopped: bool)
    requires scan.packIn == cfg.packIn
    modifies scan
    ensures (scan.View(), stopped) ==
            if Wanted(cfg, old(scan.pending), line)
            then FoldUntil(old(scan.View()), EventsOf(cfg, line), scan.stopAtRetrieval)
            else (old(scan.View()), false)
  {
    if !Wanted(cfg, scan.pending, line) {
      return false;
    }
    var entry := cfg.parse(line);
    if entry.None? {
      return false;
    }
    stopped := ScanContent(scan, ContentOf(entry.value, cfg.includeSidechain));
  }

  // ------------------------------------------------------------------
  // The loop
  // ------------------------------------------------------------------

  datatype Fetched = AtEnd | Line(line: Bytes) | TooLong | Unknown

  /** What was fetched from a file whose unread bytes were `rest`, and how many bytes went by. */
  ghost predicate FetchedFrom(f: Fetched, rest: Bytes, read: int) {
    match f
    case AtEnd => rest == []
    case Line(line) => rest != [] && read == LineLen(rest) && line == rest[..read] && Fits(line)
    case TooLong => rest != [] && read == LineLen(rest) && !Fits(rest[..read])
    case Unknown => true
  }

  /** The pace after the first line of `rest`. */
  ghost function AfterFirst(p: Pace, rest: Bytes): Pace {
    AfterLine(p, LineLen(rest), EndsWithNewline(rest[..LineLen(rest)]))
  }

  /** One bounded read, then a look at the clock when one is due; `alive` says neither failed. */
  method ReadOnClock(source: Source, linesSeen: nat, unclocked: nat)
    returns (alive: bool, line: Bytes, linesSeen': nat, unclocked': nat)
    requires source.Valid() && Paced(Pace(source.meter, linesSeen, unclocked), true)
    modifies source
    ensures source.Valid() && Bounded(source.meter, true)
    ensures alive ==> line == old(source.Rest())[..Min(MAX_LINE_BYTES + 1, LineLen(old(source.Rest())))]
    ensures alive ==> source.pos == old(source.pos) + |line|
    ensures alive && line == [] ==> source.meter == old(source.meter).ReadLine(0)
    ensures alive && line != [] ==>
            Pace(source.meter, linesSeen', unclocked')
              == AfterHead(Pace(old(source.meter), linesSeen, unclocked), |line|)
    ensures !alive ==> source.Trouble()
  {
    linesSeen', unclocked' := linesSeen, unclocked;
    ghost var p := Pace(source.meter, linesSeen, unclocked);
    alive, line := source.ReadLine(MAX_LINE_BYTES + 1, false);
    if !alive || line == [] {
      return;
    }
    HeadKeepsPace(p, |line|, true);
    if linesSeen % CLOCK_LINES == 0 || unclocked >= CLOCK_BYTES {
      unclocked' := 0;
      var past := source.PastDeadline();
      alive := !past;
    }
    linesSeen' := linesSeen' + 1;
    unclocked' := unclocked' + |line|;
  }

  lemma FittingPace(p: Pace, rest: Bytes)
    requires Fits(rest[..LineLen(rest)])
    ensures AfterFirst(p, rest) == AfterHead(p, LineLen(rest))
  {
  }

  /** Skips the tail of a line that does not fit, whose head has just been read at pace `head`. */
  method PassTail(source: Source, ghost rest: Bytes, ghost p: Pace, ghost head: Pace) returns (ended: bool)
    requires !Fits(rest[..LineLen(rest)]) && LineLen(rest) == MAX_LINE_BYTES + 1 + LineLen(rest[MAX_LINE_BYTES + 1..])
    requires rest[MAX_LINE_BYTES] != NEWLINE
    requires source.Valid() && source.Rest() == rest[MAX_LINE_BYTES + 1..]
    requires Paced(p, true) && head == AfterHead(p, MAX_LINE_BYTES + 1) && head.meter == source.meter
    modifies source
    ensures source.Valid() && Bounded(source.meter, true)
    ensures ended ==> source.pos == old(source.pos) + LineLen(old(source.Rest()))
    ensures ended ==> head.(meter := source.meter) == AfterFirst(p, rest)
    ensures !ended ==> source.Trouble()
  {
    ghost var newline := EndsWithNewline(rest[..LineLen(rest)]);
    LongHead(p, LineLen(rest), newline);
    TailEndsAlike(rest, MAX_LINE_BYTES + 1);
    ended := SkipRestOfLine(source, newline);
    if ended {
      TailIsRead(head.meter, head.meter, LineLen(rest) - (MAX_LINE_BYTES + 1), newline);
    }
    TailKeepsPace(head, source.meter);
    source.LetGo();
  }

  /** Fetches the next line: past the cap it is skipped. */
  method FetchLine(source: Source, linesSeen: nat, unclocked: nat)
    returns (f: Fetched, linesSeen': nat, unclocked': nat)
    requires source.Valid() && Paced(Pace(source.meter, linesSeen, unclocked), true)
    modifies source
    ensures source.Valid() && Bounded(source.meter, true)
    ensures FetchedFrom(f, old(source.Rest()), source.pos - old(source.pos))
    ensures f.AtEnd? ==> source.meter == old(source.meter).ReadLine(0)
    ensures f.Line? || f.TooLong? ==>
            Pace(source.meter, linesSeen', unclocked')
              == AfterFirst(Pace(old(source.meter), linesSeen, unclocked), old(source.Rest()))
    ensures f.Unknown? ==> source.Trouble()
  {
    ghost var rest, p := source.Rest(), Pace(source.meter, linesSeen, unclocked);
    var alive, line;
    alive, line, linesSeen', unclocked' := ReadOnClock(source, linesSeen, unclocked);
    if !alive {
      return Unknown, linesSeen', unclocked';
    }
    if line == [] {
      return AtEnd, linesSeen', unclocked';
    }
    FirstChunk(rest, line);
    f := Line(line);
    if |line| > MAX_LINE_BYTES && !EndsWithNewline(line) {
      assert source.Rest() == rest[|line|..];
      var ended := PassTail(source, rest, p, Pace(source.meter, linesSeen', unclocked'));
      f := if ended then TooLong else Unknown;
    } else {
      FittingPace(p, rest);
    }
  }

  datatype Progress = More | Done | Stopped | GaveUp

  /** One turn of the loop: what is left to scan, from the state reached, still gives the same answer. */
  ghost predicate Progressed(p: Progress, cfg: Config, stop: bool, s: ScanState, rest: Bytes, t: ScanState,
                             rest': Bytes) {
    match p
    case More => |rest'| < |rest| &&
                 ScanLines(cfg, s, Lines(rest), stop, true) == ScanLines(cfg, t, Lines(rest'), stop, true)
    case Done => rest == [] && s == t
    case Stopped => stop && ScanLines(cfg, s, Lines(rest), stop, true) == (t, true)
    case GaveUp => true
  }

  method ScanNext(source: Source, scan: Scan, cfg: Config, linesSeen: nat, unclocked: nat)
    returns (p: Progress, linesSeen': nat, unclocked': nat)
    requires source.Valid() && Paced(Pace(source.meter, linesSeen, unclocked), true) && scan.packIn == cfg.packIn
    modifies source, scan
    ensures source.Valid() && Bounded(source.meter, true)
    ensures Progressed(p, cfg, scan.stopAtRetrieval, old(scan.View()), old(source.Rest()), scan.View(), source.Rest())
    ensures p.More? ==> source.Rest() == old(source.Rest())[LineLen(old(source.Rest()))..]
    ensures p.More? ==>
            Pace(source.meter, linesSeen', unclocked')
              == AfterFirst(Pace(old(source.meter), linesSeen, unclocked), old(source.Rest()))
    ensures p.Done? ==> source.meter == old(source.meter).ReadLine(0)
    ensures p.GaveUp? ==> source.Trouble()
  {
    ghost var rest := source.Rest();
    var fetched;
    fetched, linesSeen', unclocked' := FetchLine(source, linesSeen, unclocked);
    if fetched.AtEnd? {
      p := Done;
    } else if fetched.Unknown? {
      p := GaveUp;
    } else {
      assert source.Rest() == rest[LineLen(rest)..];
      ScanLinesStep(cfg, scan.View(), rest, scan.stopAtRetrieval);
      if fetched.TooLong? {
        scan.facts := scan.facts.(skippedLines := scan.facts.skippedLines + 1);
        p := More;
      } else {
        FoldUntilWithoutStop(scan.View(), EventsOf(cfg, fetched.line));
        var stopped := ScanLine(scan, cfg, fetched.line);
        p := if stopped then Stopped else More;
      }
    }
  }

  /** The meter of what is left gives that of the file. */
  lemma AfterFirstLine(p: Pace, rest: Bytes)
    requires rest != [] && Paced(p, true)
    ensures AfterLines(p, Lines(rest)) == AfterLines(AfterFirst(p, rest), Lines(rest[LineLen(rest)..]))
    ensures Paced(AfterFirst(p, rest), true)
  {
    LinesStep(rest);
    LineKeepsPace(p, LineLen(rest), EndsWithNewline(rest[..LineLen(rest)]), true);
  }

  method ScanOpened(source: Source, cfg: Config, stop: bool) returns (r: Option<Facts>)
    requires source.Valid() && source.pos == 0
    requires source.meter == METER_START
    modifies source
    ensures r.Some? ==> r.value == FileFacts(cfg, source.data, stop, true)
    ensures !source.Trouble() ==> r.Some?
    ensures r.Some? && !stop ==> source.meter == FileMeter(source.data)
    ensures Bounded(source.meter, true)
  {
    var scan := new Scan(stop, cfg.packIn);
    var linesSeen, unclocked, progress := 0, 0, More;
    assert source.Rest() == source.data;
    ghost var whole := ScanLines(cfg, START, Lines(source.data), stop, true);
    while progress.More?
      invariant fresh(scan) && scan.packIn == cfg.packIn && scan.stopAtRetrieval == stop
      invariant source.Valid() && Bounded(source.meter, true)
      invariant progress.More? ==>
                && Paced(Pace(source.meter, linesSeen, unclocked), true)
                && ScanLines(cfg, scan.View(), Lines(source.Rest()), stop, true) == whole
                && AfterLines(Pace(source.meter, linesSeen, unclocked), Lines(source.Rest())).meter.ReadLine(0)
                  == FileMeter(source.data)
      invariant progress.Done? ==> source.meter == FileMeter(source.data)
      invariant progress.Stopped? ==> stop
      invariant progress.Done? || progress.Stopped? ==> scan.View() == whole.0
      invariant progress.GaveUp? ==> source.Trouble()
      decreases progress.More?, |source.Rest()|
    {
      if source.Rest() != [] {
        AfterFirstLine(Pace(source.meter, linesSeen, unclocked), source.Rest());
      }
      progress, linesSeen, unclocked := ScanNext(source, scan, cfg, linesSeen, unclocked);
    }
    if progress.GaveUp? {
      return None;
    }
    var facts := scan.FinishScan();
    r := Some(facts);
  }

  /**
   The whole scan. An answer is the facts of the simple scan over the file's
   lines; without a late clock or a read fault a readable file always has one, and a
   scan that reads to the end goes through the lines at the pace `FileMeter` tells.
   Whatever happens, the bytes alive at once, and the bytes and lines read between
   two looks at the clock, stay within their bounds.
   */
  method ScanTranscript(status: PathStatus, source: Source, cfg: Config, stop: bool, missingIsEmpty: bool)
    returns (r: Option<Facts>)
    requires source.Valid() && source.pos == 0
    requires source.meter == METER_START
    modifies source
    ensures Readable(status) && r.Some? ==> r.value == FileFacts(cfg, source.data, stop, true)
    ensures Readable(status) && !source.Trouble() ==> r.Some?
    ensures Readable(status) && r.Some? && !stop ==> source.meter == FileMeter(source.data)
    ensures !Readable(status) ==> r == if NotThere(status) && missingIsEmpty then Some(NO_FACTS) else None
    ensures Bounded(source.meter, true)
  {
    match status
    case NoPath => return None;
    case Missing => return if missingIsEmpty then Some(NO_FACTS) else None;
    case Unreadable => return None;
    case NotRegular => return None;
    case Stated(size, openMissing, openFails) =>
      if size > MAX_TRANSCRIPT_BYTES {
        return None;
      }
      if openMissing {
        return if missingIsEmpty then Some(NO_FACTS) else None;
      }
      if openFails {
        return None;
      }
      r := ScanOpened(source, cfg, stop);
  }
}
