/**
 What an answer of the bounded reader says about the file: it is the history of every
 block in every line that fits.
 */
module TranscriptMeaning {
  import opened Common
  import opened Transcript
  import opened TranscriptHistory
  import opened TranscriptScan
  import opened TranscriptLines
  import opened TranscriptReader

  function CountLong(lines: seq<Bytes>): nat {
    if lines == [] then 0 else (if Fits(lines[0]) then 0 else 1) + CountLong(lines[1..])
  }

  /** Every block of every line that fits, in file order. */
  function AllEvents(cfg: Config, lines: seq<Bytes>): seq<Event> {
    if lines == [] then []
    else (if Fits(lines[0]) then EventsOf(cfg, lines[0]) else []) + AllEvents(cfg, lines[1..])
  }

  // ------------------------------------------------------------------
  // The prefilter
  // ------------------------------------------------------------------

  predicate ShownEvent(cfg: Config, line: Bytes, e: Event) {
    !e.Use? && (e.Reply? ==> Contains(line, RESULT_TOKEN) && Contains(line, cfg.encode(e.id)))
  }

  /**
   The bytes of a line show what it holds: the call token, or no call at all and for
   each reply the reply token and the id as it was written. JSON leaves escaping
   optional (section 7 of RFC 8259), so this is a fact about the writer.
   */
  ghost predicate Shown(cfg: Config, line: Bytes) {
    Contains(line, USE_TOKEN) || forall e :: e in EventsOf(cfg, line) ==> ShownEvent(cfg, line, e)
  }

  lemma {:induction false} InertEvents(s: ScanState, es: seq<Event>, stop: bool)
    requires forall e :: e in es ==> !e.Use? && (e.Reply? ==> forall c :: c in s.pending ==> c.id != e.id)
    ensures FoldUntil(s, es, stop) == (s, false)
    decreases |es|
  {
    if es != [] {
      assert es[0] in es;
      assert Step(s, es[0]) == s;
      InertEvents(s, es[1..], stop);
    }
  }

  /** A line the prefilter drops would have changed nothing. */
  lemma UnwantedIsInert(cfg: Config, s: ScanState, line: Bytes, stop: bool)
    requires Shown(cfg, line) && !Wanted(cfg, s.pending, line)
    ensures FoldUntil(s, EventsOf(cfg, line), stop) == (s, false)
  {
    forall e | e in EventsOf(cfg, line)
      ensures !e.Use? && (e.Reply? ==> forall c :: c in s.pending ==> c.id != e.id)
    {
      assert ShownEvent(cfg, line, e);
      if e.Reply? {
        forall c | c in s.pending ensures c.id != e.id {
          var i :| 0 <= i < |s.pending| && s.pending[i] == c;
          assert !Contains(line, cfg.encode(s.pending[i].id));
        }
      }
    }
    InertEvents(s, EventsOf(cfg, line), stop);
  }

  /**
   Scanning only the wanted lines gives the state of scanning every line, although what
   is wanted changes on the way.
   */
  lemma {:induction false} PrefilterLosesNothing(cfg: Config, s: ScanState, lines: seq<Bytes>, stop: bool)
    requires forall line :: line in lines && Fits(line) ==> Shown(cfg, line)
    ensures ScanLines(cfg, s, lines, stop, true) == ScanLines(cfg, s, lines, stop, false)
    decreases |lines|
  {
    if lines != [] {
      var rest := lines[1..];
      if !Fits(lines[0]) {
        PrefilterLosesNothing(cfg, SkipOne(s), rest, stop);
      } else {
        var (t, stopped) := FoldUntil(s, EventsOf(cfg, lines[0]), stop);
        if !Wanted(cfg, s.pending, lines[0]) {
          UnwantedIsInert(cfg, s, lines[0], stop);
        }
        if !stopped {
          PrefilterLosesNothing(cfg, t, rest, stop);
        }
      }
    }
  }

  /** After these events the line is either wanted or changes nothing. */
  ghost predicate SafelyFiltered(cfg: Config, es: seq<Event>, line: Bytes) {
    var s := Fold(START, es);
    !Wanted(cfg, s.pending, line) ==> Fold(s, EventsOf(cfg, line)) == s
  }

  /** A call is never forgotten. */
  lemma {:induction false} CallsAreSeen(s: ScanState, es: seq<Event>, e: Event)
    requires e.Use? && (e in es || e.id in s.seen)
    ensures e.id in Fold(s, es).seen
    decreases |es|
  {
    if es != [] {
      assert e in es ==> e == es[0] || e in es[1..];
      CallsAreSeen(Step(s, es[0]), es[1..], e);
    }
  }

  /** The reply to the only waiting call settles it. */
  lemma {:induction false} ReplySettles(s: ScanState, es: seq<Event>, e: Event)
    requires e in es && e.Reply? && forall x :: x in es ==> !x.Use?
    requires e.id in s.seen && |s.pending| <= 1
    ensures Resolved(Fold(s, es), e.id)
    decreases |es|
  {
    var t := Step(s, es[0]);
    assert es[0] in es && |t.pending| <= 1 && e.id in t.seen;
    if es[0] == e {
      assert Resolved(t, e.id);
      ResolvedIsSticky(t, es[1..], e.id);
    } else {
      assert e in es[1..];
      ReplySettles(t, es[1..], e);
    }
  }

  lemma OneRetrievalWaits(id: string)
    ensures var s := Fold(START, [Use(id, PackCall)]); s.pending == [Call(id, PackCall)] && id in s.seen
  {
    var es := [Use(id, PackCall)];
    assert es[1..] == [] && es[0] == Use(id, PackCall);
    assert Fold(START, es) == Step(START, es[0]);
    assert START.pending + [Call(id, PackCall)] == [Call(id, PackCall)];
  }

  lemma HiddenReplyIsLost(cfg: Config, line: Bytes, reply: Event)
    requires !Contains(line, USE_TOKEN) && reply in EventsOf(cfg, line) && reply.Reply?
    requires forall e :: e in EventsOf(cfg, line) ==> !e.Use?
    requires !(Contains(line, RESULT_TOKEN) && Contains(line, cfg.encode(reply.id)))
    ensures !SafelyFiltered(cfg, [Use(reply.id, PackCall)], line)
  {
    var s := Fold(START, [Use(reply.id, PackCall)]);
    OneRetrievalWaits(reply.id);
    ReplySettles(s, EventsOf(cfg, line), reply);
    assert s.pending[0] in s.pending;
  }

  /** A call whose line is not wanted is lost, and so is a reply to a call that waits. */
  lemma HiddenIsLost(cfg: Config, line: Bytes) returns (es: seq<Event>)
    requires !Shown(cfg, line)
    ensures !SafelyFiltered(cfg, es, line)
  {
    var events := EventsOf(cfg, line);
    if use :| use in events && use.Use? {
      es := [];
      CallsAreSeen(START, events, use);
    } else {
      var reply :| reply in events && !ShownEvent(cfg, line, reply);
      es := [Use(reply.id, PackCall)];
      HiddenReplyIsLost(cfg, line, reply);
    }
  }

  /**
   A line is safe behind the prefilter, whatever came before it, exactly when its bytes
   show what it holds.
   */
  lemma ShownExactlyWhen(cfg: Config, line: Bytes)
    ensures Shown(cfg, line) <==> forall es :: SafelyFiltered(cfg, es, line)
  {
    if Shown(cfg, line) {
      forall es ensures SafelyFiltered(cfg, es, line) {
        var s := Fold(START, es);
        if !Wanted(cfg, s.pending, line) {
          UnwantedIsInert(cfg, s, line, false);
          FoldUntilWithoutStop(s, EventsOf(cfg, line));
        }
      }
    } else {
      var es := HiddenIsLost(cfg, line);
    }
  }

  /** The text {"message":{"content":[{"type":"tool\u005fuse","id":"u"}]}} in UTF-8. */
  const ESCAPED_LINE: Bytes :=
    [123, 34, 109, 101, 115, 115, 97, 103, 101, 34, 58, 123, 34, 99, 111, 110, 116, 101, 110, 116, 34, 58, 91]
    + [123, 34, 116, 121, 112, 101, 34, 58, 34, 116, 111, 111, 108, 92, 117, 48, 48, 53, 102, 117, 115, 101, 34, 44]
    + [34, 105, 100, 34, 58, 34, 117, 34, 125, 93, 125, 125]

  /** What it says. */
  const ESCAPED_CALL: Json :=
    Obj(map["message" := Obj(map["content" := Arr([Obj(map["type" := Str("tool_use"), "id" := Str("u")])])])])

  lemma EscapedLineHasNoToken()
    ensures NEWLINE !in ESCAPED_LINE && |ESCAPED_LINE| == 59
    ensures !Contains(ESCAPED_LINE, USE_TOKEN) && !Contains(ESCAPED_LINE, RESULT_TOKEN)
  {
    var underscore: Byte := 95;
    assert underscore !in ESCAPED_LINE;
    assert USE_TOKEN[5] == underscore && RESULT_TOKEN[5] == underscore;
    forall i | 0 <= i <= |ESCAPED_LINE|
      ensures !(USE_TOKEN <= ESCAPED_LINE[i..]) && !(RESULT_TOKEN <= ESCAPED_LINE[i..])
    {
      var from := ESCAPED_LINE[i..];
      if |from| > 5 {
        assert from[5] in ESCAPED_LINE;
      }
    }
  }

  /** What the call comes to, once its line is parsed. */
  lemma EscapedCallCounts(cfg: Config)
    requires cfg.parse(ESCAPED_LINE) == Some(ESCAPED_CALL)
    ensures EventsOf(cfg, ESCAPED_LINE) == [Use("u", OtherCall)]
    ensures FoldUntil(START, [Use("u", OtherCall)], false).0.facts.toolUses == 1
    ensures FoldUntil(START, [Use("u", OtherCall)], false).0.pending == [] &&
            !FoldUntil(START, [Use("u", OtherCall)], false).1
  {
    var content := ContentOf(ESCAPED_CALL, cfg.includeSidechain);
    var block := content[0];
    assert content == [block] && content[1..] == [];
    assert block.Obj? && Get(block.fields, "name") == Null;
    var e := Decode(block.fields, cfg.packIn);
    assert e == Use("u", OtherCall);
    assert DecodeAll(content, cfg.packIn) == [e];
    assert [e][1..] == [];
    assert FoldUntil(START, [e], false) == (Step(START, e), false);
  }

  /**
   A hidden call is lost: a file of one line that a JSON parser reads as a call, with
   an escape in its token, has one call in it and shows none through the prefilter.
   */
  lemma AnEscapedCallIsLost(cfg: Config)
    requires cfg.parse(ESCAPED_LINE) == Some(ESCAPED_CALL)
    ensures FileFacts(cfg, ESCAPED_LINE, false, false).toolUses == 1
    ensures FileFacts(cfg, ESCAPED_LINE, false, true).toolUses == 0
  {
    var line := ESCAPED_LINE;
    var lines: seq<Bytes> := [line];
    EscapedLineHasNoToken();
    EscapedCallCounts(cfg);
    assert LineLen(line) == |line|;
    assert line[..|line|] == line && line[|line|..] == [];
    assert Lines(line) == lines && lines[1..] == [];
    var t := FoldUntil(START, EventsOf(cfg, line), false).0;
    assert ScanLines(cfg, START, lines, false, false) == (t, false);
    assert ScanLines(cfg, START, lines, false, true) == (START, false);
  }

  // ------------------------------------------------------------------
  // Sidechain entries
  // ------------------------------------------------------------------

  /** The line parses to an entry of a subagent. */
  predicate IsSidechain(cfg: Config, line: Bytes) {
    var entry := cfg.parse(line);
    entry.Some? && entry.value.Obj? && Get(entry.value.fields, "isSidechain") == Bool(true)
  }

  /** The lines without those that fit and belong to a subagent. */
  function WithoutSidechain(cfg: Config, lines: seq<Bytes>): seq<Bytes> {
    if lines == [] then []
    else (if Fits(lines[0]) && IsSidechain(cfg, lines[0]) then [] else [lines[0]]) + WithoutSidechain(cfg, lines[1..])
  }

  /** A scan that leaves sidechain entries out sees nothing of them: a subagent's calls cannot satisfy its parent. */
  lemma {:induction false} SidechainIsInvisible(cfg: Config, s: ScanState, lines: seq<Bytes>, stop: bool,
                                                prefilter: bool)
    requires !cfg.includeSidechain
    ensures ScanLines(cfg, s, lines, stop, prefilter)
         == ScanLines(cfg, s, WithoutSidechain(cfg, lines), stop, prefilter)
    decreases |lines|
  {
    if lines != [] {
      var line, rest := lines[0], WithoutSidechain(cfg, lines[1..]);
      if Fits(line) && IsSidechain(cfg, line) {
        assert EventsOf(cfg, line) == [];
        SidechainIsInvisible(cfg, s, lines[1..], stop, prefilter);
        assert WithoutSidechain(cfg, lines) == rest;
      } else {
        assert WithoutSidechain(cfg, lines) == [line] + rest && ([line] + rest)[1..] == rest;
        var folded := FoldUntil(s, EventsOf(cfg, line), stop);
        var next := if !Fits(line) then SkipOne(s)
                    else if prefilter && !Wanted(cfg, s.pending, line) then s
                    else folded.0;
        SidechainIsInvisible(cfg, next, lines[1..], stop, prefilter);
      }
    }
  }

  // ------------------------------------------------------------------
  // Stopping early
  // ------------------------------------------------------------------

  lemma {:induction false} RetrievalStaysSeen(cfg: Config, s: ScanState, lines: seq<Bytes>, prefilter: bool)
    requires s.facts.retrievalCalled
    ensures ScanLines(cfg, s, lines, false, prefilter).0.facts.retrievalCalled
    decreases |lines|
  {
    if lines != [] {
      var es := EventsOf(cfg, lines[0]);
      if !Fits(lines[0]) {
        RetrievalStaysSeen(cfg, SkipOne(s), lines[1..], prefilter);
      } else if prefilter && !Wanted(cfg, s.pending, lines[0]) {
        RetrievalStaysSeen(cfg, s, lines[1..], prefilter);
      } else {
        FoldUntilWithoutStop(s, es);
        RetrievalIsSticky(s, es);
        RetrievalStaysSeen(cfg, Fold(s, es), lines[1..], prefilter);
      }
    }
  }

  lemma {:induction false} StoppedScanAgrees(cfg: Config, s: ScanState, lines: seq<Bytes>, prefilter: bool)
    ensures ScanLines(cfg, s, lines, true, prefilter).0.facts.retrievalCalled
         == ScanLines(cfg, s, lines, false, prefilter).0.facts.retrievalCalled
    decreases |lines|
  {
    if lines != [] {
      var es := EventsOf(cfg, lines[0]);
      if !Fits(lines[0]) {
        StoppedScanAgrees(cfg, SkipOne(s), lines[1..], prefilter);
      } else if prefilter && !Wanted(cfg, s.pending, lines[0]) {
        StoppedScanAgrees(cfg, s, lines[1..], prefilter);
      } else {
        FoldUntilWithoutStop(s, es);
        StoppingKeepsTheAnswer(s, es, true);
        if FoldUntil(s, es, true).1 {
          RetrievalStaysSeen(cfg, Fold(s, es), lines[1..], prefilter);
        } else {
          StoppedScanAgrees(cfg, Fold(s, es), lines[1..], prefilter);
        }
      }
    }
  }

  /** A scan that stops at the first retrieval answers the question it is asked as the full scan does. */
  lemma StopAtRetrievalIsSound(cfg: Config, data: Bytes, prefilter: bool)
    ensures FileFacts(cfg, data, true, prefilter).retrievalCalled
         == FileFacts(cfg, data, false, prefilter).retrievalCalled
  {
    StoppedScanAgrees(cfg, START, Lines(data), prefilter);
    var a := ScanLines(cfg, START, Lines(data), true, prefilter).0;
    var b := ScanLines(cfg, START, Lines(data), false, prefilter).0;
    FinishKeepsRetrieval(a.facts, a.pending);
    FinishKeepsRetrieval(b.facts, b.pending);
  }

  // ------------------------------------------------------------------
  // The answer
  // ------------------------------------------------------------------

  function Skipped(s: ScanState, n: nat): ScanState {
    s.(facts := s.facts.(skippedLines := s.facts.skippedLines + n))
  }

  lemma SettleIgnoresSkipped(s: ScanState, kind: CallKind, packId: Option<string>, n: nat)
    ensures Settle(Skipped(s, n), kind, packId) == Skipped(Settle(s, kind, packId), n)
  {
  }

  lemma ReplyIgnoresSkipped(s: ScanState, e: Event, n: nat)
    requires e.Reply?
    ensures Step(Skipped(s, n), e) == Skipped(Step(s, e), n)
  {
    var i := Find(s.pending, e.id);
    if i < |s.pending| {
      var popped := s.(pending := s.pending[..i] + s.pending[i + 1..]);
      assert Skipped(s, n).(pending := popped.pending) == Skipped(popped, n);
      SettleIgnoresSkipped(popped, s.pending[i].kind, e.packId, n);
    }
  }

  lemma StepIgnoresSkipped(s: ScanState, e: Event, n: nat)
    ensures Step(Skipped(s, n), e) == Skipped(Step(s, e), n)
  {
    if e.Reply? {
      ReplyIgnoresSkipped(s, e, n);
    }
  }

  lemma {:induction false} FoldIgnoresSkipped(s: ScanState, es: seq<Event>, n: nat)
    ensures Fold(Skipped(s, n), es) == Skipped(Fold(s, es), n)
    decreases |es|
  {
    if es != [] {
      StepIgnoresSkipped(s, es[0], n);
      FoldIgnoresSkipped(Step(s, es[0]), es[1..], n);
    }
  }

  /** The simple scan is one fold over every block, with the long lines counted beside it. */
  lemma {:induction false} ScanIsOneFold(cfg: Config, s: ScanState, lines: seq<Bytes>)
    ensures ScanLines(cfg, s, lines, false, false) == (Skipped(Fold(s, AllEvents(cfg, lines)), CountLong(lines)), false)
    decreases |lines|
  {
    if lines != [] {
      var rest := lines[1..];
      if Fits(lines[0]) {
        var es := EventsOf(cfg, lines[0]);
        FoldUntilWithoutStop(s, es);
        ScanIsOneFold(cfg, Fold(s, es), rest);
        FoldAppend(s, es, AllEvents(cfg, rest));
      } else {
        ScanIsOneFold(cfg, SkipOne(s), rest);
        assert SkipOne(s) == Skipped(s, 1);
        FoldIgnoresSkipped(s, AllEvents(cfg, rest), 1);
        assert AllEvents(cfg, lines) == AllEvents(cfg, rest);
      }
    }
  }

  lemma {:induction false} FoldKeepsSkipped(s: ScanState, es: seq<Event>)
    ensures Fold(s, es).facts.skippedLines == s.facts.skippedLines
    decreases |es|
  {
    if es != [] {
      FoldKeepsSkipped(Step(s, es[0]), es[1..]);
    }
  }

  lemma {:induction false} ScanCountsLong(cfg: Config, s: ScanState, lines: seq<Bytes>, prefilter: bool)
    ensures ScanLines(cfg, s, lines, false, prefilter).0.facts.skippedLines == s.facts.skippedLines + CountLong(lines)
    decreases |lines|
  {
    if lines != [] {
      var es := EventsOf(cfg, lines[0]);
      if !Fits(lines[0]) {
        ScanCountsLong(cfg, SkipOne(s), lines[1..], prefilter);
      } else if prefilter && !Wanted(cfg, s.pending, lines[0]) {
        ScanCountsLong(cfg, s, lines[1..], prefilter);
      } else {
        FoldUntilWithoutStop(s, es);
        FoldKeepsSkipped(s, es);
        ScanCountsLong(cfg, Fold(s, es), lines[1..], prefilter);
      }
    }
  }

  /** Whatever a file holds, the skipped lines of its facts are its over-long ones. */
  lemma SkippedAreLong(cfg: Config, data: Bytes, prefilter: bool)
    ensures FileFacts(cfg, data, false, prefilter).skippedLines == CountLong(Lines(data))
  {
    ScanCountsLong(cfg, START, Lines(data), prefilter);
    var s := ScanLines(cfg, START, Lines(data), false, prefilter).0;
    FinishKeepsRetrieval(s.facts, s.pending);
  }

  lemma {:induction false} FinishIgnoresSkipped(facts: Facts, calls: seq<Call>, n: nat)
    ensures ApplyAll(facts.(skippedLines := n), calls) == ApplyAll(facts, calls).(skippedLines := n)
    decreases |calls|
  {
    if calls != [] {
      var next := if calls[0].kind.PackCall? then facts else ApplyCall(facts, calls[0].kind);
      FinishIgnoresSkipped(next, calls[1..], n);
    }
  }

  /**
   The facts of a file whose lines show what they hold: what the history of all its
   blocks says, and the number of its over-long lines.
   */
  lemma AnswerMeansHistory(cfg: Config, data: Bytes)
    requires forall line :: line in Lines(data) && Fits(line) ==> Shown(cfg, line)
    ensures var facts, es := FileFacts(cfg, data, false, true), AllEvents(cfg, Lines(data));
            && facts.ungraded == UngradedAtEnd(es)
            && facts.toolUses == CountFirstUses(es, |es|)
            && (facts.retrievalCalled <==> RetrievalBefore(es, |es|))
            && (facts.savedTrace <==> TraceBefore(es, |es|) || TraceInFlight(es))
            && facts.skippedLines == CountLong(Lines(data))
  {
    var lines := Lines(data);
    var es := AllEvents(cfg, lines);
    PrefilterLosesNothing(cfg, START, lines, false);
    ScanIsOneFold(cfg, START, lines);
    FoldIsRun(es, |es|);
    assert es[..|es|] == es;
    var s := Run(es, |es|);
    StateMeansHistory(es, |es|);
    assert Skipped(s, CountLong(lines)).facts == s.facts.(skippedLines := CountLong(lines));
    FinishIgnoresSkipped(s.facts, s.pending, CountLong(lines));
    FactsMeanHistory(es);
  }
}
