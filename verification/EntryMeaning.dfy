/**
 What a transcript file holds: the content blocks of its entries, all of them and in
 order, and the facts a scan gives as those of these blocks.
 */
module EntryMeaning {
  import opened Common
  import opened Transcript
  import opened TranscriptScan
  import opened TranscriptLines
  import opened TranscriptReader
  import opened TranscriptMeaning
  import opened BlockMeaning

  // ------------------------------------------------------------------
  // One line
  // ------------------------------------------------------------------

  /** The entry is marked as a subagent's. */
  predicate Marked(entry: Fields) {
    "isSidechain" in entry && entry["isSidechain"] == Bool(true)
  }

  /** The entry's message has this list as its content. */
  predicate HasContent(entry: Fields, items: seq<Json>) {
    "message" in entry && entry["message"].Obj? && "content" in entry["message"].fields &&
    entry["message"].fields["content"] == Arr(items)
  }

  /** The line parses to such an entry, and it is not one the scan leaves out. */
  ghost predicate Carries(cfg: Config, line: Bytes, items: seq<Json>) {
    exists entry: Fields ::
      cfg.parse(line) == Some(Obj(entry)) && HasContent(entry, items) && (cfg.includeSidechain || !Marked(entry))
  }

  lemma CarriedIsContent(cfg: Config, line: Bytes, items: seq<Json>)
    requires Carries(cfg, line, items)
    ensures EventsOf(cfg, line) == DecodeAll(items, cfg.packIn)
  {
    assert cfg.parse(line).Some? && ContentOf(cfg.parse(line).value, cfg.includeSidechain) == items;
  }

  /** What one item of a content list stands for. */
  function EventOf(item: Json, packIn: PackReader): Event {
    if item.Obj? then Decode(item.fields, packIn) else Noise
  }

  lemma {:induction false} DecodedInOrder(items: seq<Json>, packIn: PackReader, k: nat)
    ensures |DecodeAll(items, packIn)| == |items|
    ensures k < |items| ==> DecodeAll(items, packIn)[k] == EventOf(items[k], packIn)
  {
    if items != [] {
      DecodedInOrder(items[1..], packIn, if k > 0 then k - 1 else 0);
    }
  }

  /** Such a line yields one event for each item of its content, in order. */
  lemma LineYieldsItsItems(cfg: Config, line: Bytes, items: seq<Json>, k: nat)
    requires Carries(cfg, line, items)
    ensures EventsOf(cfg, line) == DecodeAll(items, cfg.packIn) && |EventsOf(cfg, line)| == |items|
    ensures k < |items| ==> EventsOf(cfg, line)[k] == EventOf(items[k], cfg.packIn)
  {
    CarriedIsContent(cfg, line, items);
    DecodedInOrder(items, cfg.packIn, k);
  }

  /** Any other line yields none. */
  lemma OtherLinesYieldNothing(cfg: Config, line: Bytes)
    requires forall items :: !Carries(cfg, line, items)
    ensures EventsOf(cfg, line) == []
  {
    var parsed := cfg.parse(line);
    if parsed.Some? {
      var content := ContentOf(parsed.value, cfg.includeSidechain);
      if content != [] {
        assert HasContent(parsed.value.fields, content);
        assert Carries(cfg, line, content);
        assert false;
      }
    }
  }

  /** A scan that takes subagent entries in reads a marked entry as it reads the same one without the mark. */
  lemma MarkIsIgnored(cfg: Config, line: Bytes, plain: Bytes, entry: Fields, items: seq<Json>)
    requires cfg.includeSidechain
    requires cfg.parse(line) == Some(Obj(entry)) && cfg.parse(plain) == Some(Obj(entry - {"isSidechain"}))
    ensures Carries(cfg, line, items) <==> Carries(cfg, plain, items)
    ensures EventsOf(cfg, line) == EventsOf(cfg, plain)
  {
    var other := entry - {"isSidechain"};
    assert HasContent(entry, items) <==> HasContent(other, items);
    assert Get(entry, "message") == Get(other, "message");
  }

  /** One that leaves them out reads nothing of it. */
  lemma MarkIsObeyed(cfg: Config, line: Bytes, entry: Fields)
    requires !cfg.includeSidechain && cfg.parse(line) == Some(Obj(entry)) && Marked(entry)
    ensures EventsOf(cfg, line) == []
  {
    assert forall items :: !Carries(cfg, line, items);
    OtherLinesYieldNothing(cfg, line);
  }

  // ------------------------------------------------------------------
  // The whole file
  // ------------------------------------------------------------------

  /** The content of a line: what it carries if it fits, and nothing otherwise. */
  ghost predicate ContentIs(cfg: Config, line: Bytes, content: seq<Json>) {
    if Fits(line) && exists items :: Carries(cfg, line, items) then Carries(cfg, line, content) else content == []
  }

  ghost predicate ContentsOf(cfg: Config, lines: seq<Bytes>, contents: seq<seq<Json>>) {
    |contents| == |lines| && forall k :: 0 <= k < |lines| ==> ContentIs(cfg, lines[k], contents[k])
  }

  lemma ContentExists(cfg: Config, line: Bytes) returns (content: seq<Json>)
    ensures ContentIs(cfg, line, content)
  {
    content := [];
    if Fits(line) && exists items :: Carries(cfg, line, items) {
      content :| Carries(cfg, line, content);
    }
  }

  /** Every file has its contents. */
  lemma {:induction false} ContentsExist(cfg: Config, lines: seq<Bytes>) returns (contents: seq<seq<Json>>)
    ensures ContentsOf(cfg, lines, contents)
  {
    contents := [];
    if lines != [] {
      var first := ContentExists(cfg, lines[0]);
      var rest := ContentsExist(cfg, lines[1..]);
      contents := [first] + rest;
    }
  }

  lemma {:induction false} DecodedTogether(a: seq<Json>, b: seq<Json>, packIn: PackReader)
    ensures DecodeAll(a + b, packIn) == DecodeAll(a, packIn) + DecodeAll(b, packIn)
  {
    if a == [] {
      assert a + b == b;
    } else {
      assert (a + b)[0] == a[0] && (a + b)[1..] == a[1..] + b;
      DecodedTogether(a[1..], b, packIn);
    }
  }

  lemma LineIsDecoded(cfg: Config, line: Bytes, content: seq<Json>)
    requires ContentIs(cfg, line, content)
    ensures (if Fits(line) then EventsOf(cfg, line) else []) == DecodeAll(content, cfg.packIn)
  {
    if Fits(line) && exists items :: Carries(cfg, line, items) {
      LineYieldsItsItems(cfg, line, content, 0);
    } else if Fits(line) {
      OtherLinesYieldNothing(cfg, line);
    }
  }

  lemma {:induction false} EventsAreDecoded(cfg: Config, lines: seq<Bytes>, contents: seq<seq<Json>>)
    requires ContentsOf(cfg, lines, contents)
    ensures AllEvents(cfg, lines) == DecodeAll(Joined(contents), cfg.packIn)
  {
    if lines != [] {
      LineIsDecoded(cfg, lines[0], contents[0]);
      EventsAreDecoded(cfg, lines[1..], contents[1..]);
      DecodedTogether(contents[0], Joined(contents[1..]), cfg.packIn);
    }
  }

  /** The events of a file are those of all blocks of all lines that fit, one after the other. */
  lemma FileYieldsItsBlocks(cfg: Config, lines: seq<Bytes>, contents: seq<seq<Json>>, k: nat)
    requires ContentsOf(cfg, lines, contents)
    ensures |AllEvents(cfg, lines)| == |Joined(contents)|
    ensures k < |Joined(contents)| ==> AllEvents(cfg, lines)[k] == EventOf(Joined(contents)[k], cfg.packIn)
  {
    EventsAreDecoded(cfg, lines, contents);
    DecodedInOrder(Joined(contents), cfg.packIn, k);
  }

  lemma {:induction false} FoldIsAfterAll(s: ScanState, items: seq<Json>, packIn: PackReader)
    ensures Fold(s, DecodeAll(items, packIn)) == AfterAll(s, items, packIn)
    decreases |items|
  {
    if items != [] {
      var next := Step(s, EventOf(items[0], packIn));
      FoldIsAfterAll(next, items[1..], packIn);
      assert DecodeAll(items, packIn)[1..] == DecodeAll(items[1..], packIn);
    }
  }

  lemma FinishCounts(s: ScanState, n: nat)
    requires s.facts.skippedLines == 0
    ensures Finish(Skipped(s, n)).facts == Finish(s).facts.(skippedLines := n)
  {
    FinishIgnoresSkipped(s.facts, s.pending, n);
    assert Skipped(s, n).facts == s.facts.(skippedLines := n);
  }

  /**
   The facts of a file: its blocks taken in one after the other, what is in flight
   settled, and its over-long lines counted. The prefilter changes nothing where every
   line shows what it holds.
   */
  lemma FileIsItsBlocks(cfg: Config, data: Bytes, contents: seq<seq<Json>>, prefilter: bool)
    requires ContentsOf(cfg, Lines(data), contents)
    requires prefilter ==> forall line :: line in Lines(data) && Fits(line) ==> Shown(cfg, line)
    ensures FileFacts(cfg, data, false, prefilter) ==
            Finish(AfterAll(START, Joined(contents), cfg.packIn)).facts.(skippedLines := CountLong(Lines(data)))
  {
    var lines := Lines(data);
    if prefilter {
      PrefilterLosesNothing(cfg, START, lines, false);
    }
    ScanIsOneFold(cfg, START, lines);
    EventsAreDecoded(cfg, lines, contents);
    FoldIsAfterAll(START, Joined(contents), cfg.packIn);
    FoldKeepsSkipped(START, AllEvents(cfg, lines));
    FinishCounts(AfterAll(START, Joined(contents), cfg.packIn), CountLong(lines));
  }
}
