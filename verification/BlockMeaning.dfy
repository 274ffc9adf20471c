/**
 What a content block says, told from its fields: which calls count for what, what
 a reply settles, and which packs a piece of feedback grades.
 */
module BlockMeaning {
  import opened Common
  import opened Text
  import opened Transcript
  import opened TranscriptHistory
  import opened TranscriptScan

  type PackReader = Json -> Option<string>

  // ------------------------------------------------------------------
  // The fields of a block
  // ------------------------------------------------------------------

  predicate HasType(block: Fields, kind: string) {
    "type" in block && block["type"] == Str(kind)
  }

  predicate IsCall(block: Fields, id: string) {
    HasType(block, "tool_use") && "id" in block && block["id"] == Str(id)
  }

  predicate IsReply(block: Fields, id: string) {
    HasType(block, "tool_result") && "tool_use_id" in block && block["tool_use_id"] == Str(id)
  }

  predicate IsError(block: Fields) {
    "is_error" in block && block["is_error"] == Bool(true)
  }

  /** A call to this tool of this server, whose names `split` does not cut elsewhere. */
  ghost predicate Calls(block: Fields, server: string, tool: string) {
    && "name" in block && block["name"] == Str("mcp" + DUNDER + (server + DUNDER + tool))
    && NoDunder(server) && (server != [] ==> server[|server| - 1] != '_') && NoDunder(tool)
  }

  predicate OnTrellis(server: string) {
    Contains(Lower(server), "trellis")
  }

  const RETRIEVALS: seq<string> := [
    "get_context", "search", "get_objective_context", "get_task_context",
    "get_sectioned_context", "get_lessons", "get_items"]

  const NINE_TOOLS: seq<string> := RETRIEVALS + ["record_feedback", "save_experience"]

  /** Some item of the list under this key is a string with a character that is no space. */
  ghost predicate NamesOne(input: Fields, key: string) {
    key in input && input[key].Arr? &&
    exists i, j :: 0 <= i < |input[key].items| && input[key].items[i].Str? &&
      0 <= j < |input[key].items[i].s| && !IsSpace(input[key].items[i].s[j])
  }

  /** The feedback names an item, as helpful or as not. */
  ghost predicate Attributes(block: Fields) {
    "input" in block && block["input"].Obj? &&
    (NamesOne(block["input"].fields, "helpful_item_ids") || NamesOne(block["input"].fields, "unhelpful_item_ids"))
  }

  predicate NamesPack(block: Fields, pack: string) {
    "input" in block && block["input"].Obj? && "pack_id" in block["input"].fields &&
    block["input"].fields["pack_id"] == Str(pack) && pack != ""
  }

  // ------------------------------------------------------------------
  // States that blocks lead to
  // ------------------------------------------------------------------

  /** Waiting calls were seen and have different ids; ungraded packs were served and are listed once. */
  ghost predicate Sound(s: ScanState) {
    && (forall i :: 0 <= i < |s.pending| ==> s.pending[i].id in s.seen)
    && (forall i, j :: 0 <= i < j < |s.pending| ==> s.pending[i].id != s.pending[j].id)
    && Distinct(s.facts.ungraded) && forall p :: p in s.facts.ungraded ==> p in s.served
  }

  ghost function Differs(pack: string): string -> bool {
    p => p != pack
  }

  ghost function Without(packs: seq<string>, pack: string): seq<string> {
    Keep(packs, Differs(pack))
  }

  lemma {:induction false} RemoveFirstIsWithout(packs: seq<string>, pack: string)
    requires Distinct(packs)
    ensures RemoveFirst(packs, pack) == Without(packs, pack)
  {
    if packs != [] {
      if packs[0] == pack {
        assert forall p :: p in packs[1..] ==> p != pack;
        KeepAll(packs[1..], Differs(pack));
      } else {
        RemoveFirstIsWithout(packs[1..], pack);
      }
    }
  }

  lemma ApplyKeepsSound(facts: Facts, kind: CallKind)
    requires Distinct(facts.ungraded)
    ensures Distinct(ApplyCall(facts, kind).ungraded)
    ensures forall p :: p in ApplyCall(facts, kind).ungraded ==> p in facts.ungraded
  {
    if kind.FeedbackCall? && kind.attributed && kind.pack.Some? {
      RemoveFirstIsWithout(facts.ungraded, kind.pack.value);
      KeepDistinct(facts.ungraded, Differs(kind.pack.value));
      forall p ensures p in Without(facts.ungraded, kind.pack.value) ==> p in facts.ungraded {
        KeepMember(facts.ungraded, Differs(kind.pack.value), p);
      }
    }
  }

  lemma SettleKeepsSound(s: ScanState, kind: CallKind, packId: Option<string>)
    requires Sound(s)
    ensures Sound(Settle(s, kind, packId))
  {
    if !kind.PackCall? {
      ApplyKeepsSound(s.facts, kind);
    }
  }

  lemma PopKeepsSound(s: ScanState, i: nat)
    requires Sound(s) && i < |s.pending|
    ensures Sound(s.(pending := s.pending[..i] + s.pending[i + 1..]))
  {
    var rest := s.pending[..i] + s.pending[i + 1..];
    assert forall k :: 0 <= k < |rest| ==> rest[k] == if k < i then s.pending[k] else s.pending[k + 1];
  }

  lemma StepKeepsSound(s: ScanState, e: Event)
    requires Sound(s)
    ensures Sound(Step(s, e))
  {
    if e.Reply? {
      var i := Find(s.pending, e.id);
      if i < |s.pending| {
        PopKeepsSound(s, i);
        SettleKeepsSound(s.(pending := s.pending[..i] + s.pending[i + 1..]), s.pending[i].kind, e.packId);
      }
    }
  }

  /** The state after every block that is an object, in order; anything else in a content list is passed over. */
  function AfterAll(s: ScanState, items: seq<Json>, packIn: PackReader): ScanState
    decreases |items|
  {
    if items == [] then s
    else AfterAll(if items[0].Obj? then After(s, items[0].fields, packIn) else s, items[1..], packIn)
  }

  /** So every state a transcript leads to is sound. */
  lemma {:induction false} BlocksKeepSound(s: ScanState, items: seq<Json>, packIn: PackReader)
    requires Sound(s)
    ensures Sound(AfterAll(s, items, packIn))
    decreases |items|
  {
    if items != [] {
      if items[0].Obj? {
        StepKeepsSound(s, Decode(items[0].fields, packIn));
      }
      BlocksKeepSound(if items[0].Obj? then After(s, items[0].fields, packIn) else s, items[1..], packIn);
    }
  }

  // ------------------------------------------------------------------
  // Calls
  // ------------------------------------------------------------------

  lemma ToolOf(block: Fields, server: string, tool: string)
    requires Calls(block, server, tool) && OnTrellis(server)
    ensures TrellisTool(Get(block, "name")) == Some(tool)
  {
    ToolNameIsRecovered(server, tool, "mcp" + DUNDER + (server + DUNDER + tool));
  }

  /** A call that was never seen counts once. */
  ghost predicate Counts(s: ScanState, t: ScanState, id: string) {
    t.seen == s.seen + {id} && t.served == s.served && t.facts == s.facts.(toolUses := s.facts.toolUses + 1)
  }

  /** Each of the seven retrieval tools sets the flag, waits for its reply and is where a scan may stop. */
  lemma RetrievalIsSeen(s: ScanState, block: Fields, id: string, server: string, tool: string, packIn: PackReader)
    requires IsCall(block, id) && id !in s.seen && Calls(block, server, tool) && OnTrellis(server) && tool in RETRIEVALS
    ensures var t := After(s, block, packIn);
            && t.facts == s.facts.(toolUses := s.facts.toolUses + 1, retrievalCalled := true)
            && t.seen == s.seen + {id} && t.served == s.served && t.pending == s.pending + [Call(id, PackCall)]
    ensures StopsAt(s, block, packIn)
  {
    ToolOf(block, server, tool);
  }

  /** A call to any other tool of the nine waits for its reply, and only counts until then. */
  lemma FeedbackOrTraceWaits(s: ScanState, block: Fields, id: string, server: string, tool: string, packIn: PackReader)
    requires IsCall(block, id) && id !in s.seen && Calls(block, server, tool) && OnTrellis(server)
    requires tool == "record_feedback" || tool == "save_experience"
    ensures var t := After(s, block, packIn);
            && Counts(s, t, id) && |t.pending| == |s.pending| + 1 && t.pending[..|s.pending|] == s.pending
            && t.pending[|s.pending|].id == id && t.pending[|s.pending|].kind == KindOf(block)
    ensures !StopsAt(s, block, packIn)
  {
    ToolOf(block, server, tool);
  }

  lemma NineTools()
    ensures forall t :: t in PACK_TOOLS <==> t in RETRIEVALS
    ensures forall t :: t in NINE_TOOLS <==> t in RETRIEVALS || t == "record_feedback" || t == "save_experience"
  {
  }

  /** A tool of another server, or one that is none of the nine, only counts. */
  lemma OtherToolOnlyCounts(s: ScanState, block: Fields, id: string, server: string, tool: string, packIn: PackReader)
    requires IsCall(block, id) && id !in s.seen && Calls(block, server, tool)
    requires !OnTrellis(server) || tool !in NINE_TOOLS
    ensures var t := After(s, block, packIn); Counts(s, t, id) && t.pending == s.pending
    ensures !StopsAt(s, block, packIn)
  {
    ToolNameIsRecovered(server, tool, "mcp" + DUNDER + (server + DUNDER + tool));
    assert forall t :: t in PACK_TOOLS ==> t in NINE_TOOLS by {
      NineTools();
    }
    NineTools();
  }

  function JoinDunder(parts: seq<string>): string
    requires parts != []
  {
    if |parts| == 1 then parts[0] else parts[0] + DUNDER + JoinDunder(parts[1..])
  }

  lemma JoinMore(head: string, parts: seq<string>)
    requires parts != []
    ensures JoinDunder([head] + parts) == head + DUNDER + JoinDunder(parts)
  {
    assert ([head] + parts)[1..] == parts;
  }

  lemma CutAtDunder(s: string, i: nat)
    requires i < |s| && DUNDER <= s[i..]
    ensures s == s[..i] + DUNDER + s[i + 2..]
  {
    assert s[i..][..2] == DUNDER;
  }

  lemma {:induction false} SplitJoins(s: string)
    ensures JoinDunder(SplitDunder(s)) == s
    decreases |s|
  {
    var i := FirstDunder(s);
    if i < |s| {
      var head, rest := s[..i], s[i + 2..];
      SplitJoins(rest);
      JoinMore(head, SplitDunder(rest));
      CutAtDunder(s, i);
    }
  }

  /** The text ends in this tool's name, and what stands before it, if anything, ends in the separator. */
  ghost predicate EndsInTool(rest: string, tool: string) {
    rest == tool || exists before :: rest == before + DUNDER + tool
  }

  lemma {:induction false} JoinEndsInLast(parts: seq<string>)
    requires parts != []
    ensures EndsInTool(JoinDunder(parts), parts[|parts| - 1])
  {
    if |parts| > 1 {
      JoinEndsInLast(parts[1..]);
      var rest, last := JoinDunder(parts[1..]), parts[|parts| - 1];
      assert parts[1..][|parts| - 2] == last;
      if rest == last {
        assert JoinDunder(parts) == parts[0] + DUNDER + last;
      } else {
        var before :| rest == before + DUNDER + last;
        assert JoinDunder(parts) == (parts[0] + DUNDER + before) + DUNDER + last;
      }
    }
  }

  lemma JoinThird(parts: seq<string>)
    requires |parts| >= 3
    ensures JoinDunder(parts) == parts[0] + DUNDER + (parts[1] + DUNDER + JoinDunder(parts[2..]))
    ensures EndsInTool(JoinDunder(parts[2..]), parts[|parts| - 1])
  {
    JoinMore(parts[0], parts[1..]);
    JoinMore(parts[1], parts[2..]);
    JoinEndsInLast(parts[2..]);
    assert parts == [parts[0]] + parts[1..] && parts[1..] == [parts[1]] + parts[2..];
  }

  ghost predicate IsAddressed(name: string, server: string, rest: string, tool: string) {
    name == "mcp" + DUNDER + (server + DUNDER + rest) && OnTrellis(server) && EndsInTool(rest, tool)
  }

  /** A name that stands for one of the nine tools of a Trellis server. */
  ghost predicate Recognised(name: string, server: string, rest: string, tool: string) {
    tool in NINE_TOOLS && IsAddressed(name, server, rest, tool)
  }

  lemma PartsAreAddressed(name: string, parts: seq<string>)
    requires parts != [] && JoinDunder(parts) == name && ToolOfParts(parts).Some?
    ensures |parts| >= 3 && IsAddressed(name, parts[1], JoinDunder(parts[2..]), ToolOfParts(parts).value)
  {
    JoinThird(parts);
  }

  lemma ToolIsRecognised(name: string) returns (server: string, rest: string)
    requires TrellisTool(Str(name)).Some? && TrellisTool(Str(name)).value in NINE_TOOLS
    ensures Recognised(name, server, rest, TrellisTool(Str(name)).value)
  {
    var parts := SplitDunder(name);
    server, rest := parts[1], JoinDunder(parts[2..]);
    SplitJoins(name);
    PartsAreAddressed(name, parts);
  }

  /**
   A call whose name is no string, or stands for none of the nine tools of a Trellis
   server, only counts: nothing but such a name has any other effect.
   */
  lemma UnrecognisedOnlyCounts(s: ScanState, block: Fields, id: string, packIn: PackReader)
    requires IsCall(block, id) && id !in s.seen
    requires forall name, server, rest, tool ::
               "name" in block && block["name"] == Str(name) ==> !Recognised(name, server, rest, tool)
    ensures var t := After(s, block, packIn); Counts(s, t, id) && t.pending == s.pending
    ensures !StopsAt(s, block, packIn)
  {
    var v := Get(block, "name");
    NineTools();
    if v.Str? && TrellisTool(v).Some? && TrellisTool(v).value in NINE_TOOLS {
      var server, rest := ToolIsRecognised(v.s);
      assert false;
    }
    assert KindOf(block).OtherCall?;
  }

  /** A call seen before, a block of another type and a block without a string id do nothing. */
  lemma OtherBlocksDoNothing(s: ScanState, block: Fields, packIn: PackReader)
    requires (forall id :: IsCall(block, id) ==> id in s.seen)
    requires (forall id :: IsReply(block, id) ==> forall k :: 0 <= k < |s.pending| ==> s.pending[k].id != id)
    ensures After(s, block, packIn) == s && !StopsAt(s, block, packIn)
  {
    var e := Decode(block, packIn);
    if e.Use? {
      assert IsCall(block, e.id);
    } else if e.Reply? {
      assert IsReply(block, e.id);
    }
  }

  // ------------------------------------------------------------------
  // Replies
  // ------------------------------------------------------------------

  /** No object in the list is a reply to this call. */
  ghost predicate NoReplyIn(items: seq<Json>, id: string) {
    forall k :: 0 <= k < |items| && items[k].Obj? ==> !IsReply(items[k].fields, id)
  }

  lemma BlockKeepsWaiting(s: ScanState, block: Fields, c: Call, packIn: PackReader)
    requires Sound(s) && c in s.pending && !IsReply(block, c.id)
    ensures c in After(s, block, packIn).pending
  {
    var e := Decode(block, packIn);
    if e.Reply? {
      var i := Find(s.pending, e.id);
      var k :| 0 <= k < |s.pending| && s.pending[k] == c;
      if i < |s.pending| {
        var rest := s.pending[..i] + s.pending[i + 1..];
        assert k != i && rest[if k < i then k else k - 1] == c;
      }
    }
  }

  /** A call waits, whatever comes, until its reply. */
  lemma {:induction false} WaitsUntilReply(s: ScanState, items: seq<Json>, c: Call, packIn: PackReader)
    requires Sound(s) && c in s.pending && NoReplyIn(items, c.id)
    ensures c in AfterAll(s, items, packIn).pending && Sound(AfterAll(s, items, packIn))
    decreases |items|
  {
    if items != [] {
      var next := if items[0].Obj? then After(s, items[0].fields, packIn) else s;
      if items[0].Obj? {
        BlockKeepsWaiting(s, items[0].fields, c, packIn);
        StepKeepsSound(s, Decode(items[0].fields, packIn));
      }
      WaitsUntilReply(next, items[1..], c, packIn);
    }
  }

  /** A reply settles the call it names; an error settles nothing. */
  lemma ReplySettlesCall(s: ScanState, block: Fields, c: Call, packIn: PackReader)
    requires Sound(s) && c in s.pending && IsReply(block, c.id)
    ensures var t, content := After(s, block, packIn), if "content" in block then block["content"] else Null;
            && t.seen == s.seen
            && t.facts == (if IsError(block) then s.facts else Settle(s, c.kind, packIn(content)).facts)
            && t.served == (if IsError(block) then s.served else Settle(s, c.kind, packIn(content)).served)
  {
    var k :| 0 <= k < |s.pending| && s.pending[k] == c;
    var i := Find(s.pending, c.id);
    assert i == k;
  }

  /**
   A retrieval and, however much later, its reply: unless it is an error, the pack it
   names, when served for the first time, joins the end of the ungraded ones.
   */
  lemma RetrievalServes(s: ScanState, call: Fields, items: seq<Json>, reply: Fields, id: string,
                        server: string, tool: string, packIn: PackReader)
    requires Sound(s) && IsCall(call, id) && id !in s.seen && IsReply(reply, id) && NoReplyIn(items, id)
    requires Calls(call, server, tool) && OnTrellis(server) && tool in RETRIEVALS
    ensures var t := AfterAll(After(s, call, packIn), items, packIn);
            var u, named := After(t, reply, packIn), packIn(if "content" in reply then reply["content"] else Null);
            if !IsError(reply) && named.Some? && named.value !in t.served
            then && u.facts == t.facts.(ungraded := t.facts.ungraded + [named.value])
                 && u.served == t.served + {named.value}
            else u.facts == t.facts && u.served == t.served
  {
    RetrievalIsSeen(s, call, id, server, tool, packIn);
    StepKeepsSound(s, Decode(call, packIn));
    WaitsUntilReply(After(s, call, packIn), items, Call(id, PackCall), packIn);
    ReplySettlesCall(AfterAll(After(s, call, packIn), items, packIn), reply, Call(id, PackCall), packIn);
  }

  /** A trace that was saved, and whose reply is no error. */
  lemma SavedTraceIsSeen(s: ScanState, call: Fields, items: seq<Json>, reply: Fields, id: string, server: string,
                         packIn: PackReader)
    requires Sound(s) && IsCall(call, id) && id !in s.seen && IsReply(reply, id) && NoReplyIn(items, id)
    requires Calls(call, server, "save_experience") && OnTrellis(server)
    ensures var t := AfterAll(After(s, call, packIn), items, packIn);
            var u := After(t, reply, packIn);
            u.served == t.served && u.facts == if IsError(reply) then t.facts else t.facts.(savedTrace := true)
  {
    ToolOf(call, server, "save_experience");
    FeedbackOrTraceWaits(s, call, id, server, "save_experience", packIn);
    var c := Call(id, TraceCall);
    assert After(s, call, packIn).pending[|s.pending|] == c;
    StepKeepsSound(s, Decode(call, packIn));
    WaitsUntilReply(After(s, call, packIn), items, c, packIn);
    ReplySettlesCall(AfterAll(After(s, call, packIn), items, packIn), reply, c, packIn);
  }

  lemma NonBlankMeans(s: string)
    ensures NonBlank(s) <==> exists j :: 0 <= j < |s| && !IsSpace(s[j])
  {
  }

  lemma NamesItemMeans(input: Fields, key: string)
    ensures NamesItem(Get(input, key)) <==> NamesOne(input, key)
  {
    var v := Get(input, key);
    if v.Arr? {
      forall i | 0 <= i < |v.items| && v.items[i].Str?
        ensures NonBlank(v.items[i].s) <==> exists j :: 0 <= j < |v.items[i].s| && !IsSpace(v.items[i].s[j])
      {
        NonBlankMeans(v.items[i].s);
      }
    }
  }

  /** What a feedback call waits as. */
  lemma FeedbackKind(block: Fields, server: string)
    requires Calls(block, server, "record_feedback") && OnTrellis(server)
    ensures KindOf(block).FeedbackCall? && (KindOf(block).attributed <==> Attributes(block))
    ensures forall p :: KindOf(block).pack == Some(p) <==> NamesPack(block, p)
  {
    ToolOf(block, server, "record_feedback");
    if "input" in block && block["input"].Obj? {
      NamesItemMeans(block["input"].fields, "helpful_item_ids");
      NamesItemMeans(block["input"].fields, "unhelpful_item_ids");
    }
  }

  /**
   Feedback and, however much later, its reply. Unless it is an error, it grades exactly
   when it names an item: then the pack it names, or every pack when it names none,
   leaves the ungraded ones, and nothing else changes.
   */
  lemma FeedbackGrades(s: ScanState, call: Fields, items: seq<Json>, reply: Fields, id: string, server: string,
                       packIn: PackReader)
    requires Sound(s) && IsCall(call, id) && id !in s.seen && IsReply(reply, id) && NoReplyIn(items, id)
    requires Calls(call, server, "record_feedback") && OnTrellis(server)
    ensures var t := AfterAll(After(s, call, packIn), items, packIn);
            var u := After(t, reply, packIn);
            && u.served == t.served
            && (IsError(reply) || !Attributes(call) ==> u.facts == t.facts)
            && (!IsError(reply) && Attributes(call) ==>
                  && (forall p :: NamesPack(call, p) ==> u.facts == t.facts.(ungraded := Without(t.facts.ungraded, p)))
                  && ((forall p :: !NamesPack(call, p)) ==> u.facts == t.facts.(ungraded := [])))
  {
    FeedbackKind(call, server);
    FeedbackOrTraceWaits(s, call, id, server, "record_feedback", packIn);
    var c, first := Call(id, KindOf(call)), After(s, call, packIn);
    assert first.pending[|s.pending|] == c;
    StepKeepsSound(s, Decode(call, packIn));
    WaitsUntilReply(first, items, c, packIn);
    var t := AfterAll(first, items, packIn);
    ReplySettlesCall(t, reply, c, packIn);
    if KindOf(call).pack.Some? {
      RemoveFirstIsWithout(t.facts.ungraded, KindOf(call).pack.value);
    }
  }

  /** A pack that is named leaves, and the others stay in their order. */
  lemma WithoutMeans(packs: seq<string>, pack: string, p: string)
    ensures p in Without(packs, pack) <==> p in packs && p != pack
  {
    KeepMember(packs, Differs(pack), p);
  }

  /** A state that some transcript leads to. */
  lemma TranscriptsAreSound(items: seq<Json>, packIn: PackReader)
    ensures Sound(AfterAll(START, items, packIn))
  {
    BlocksKeepSound(START, items, packIn);
  }

  lemma NoMember(packs: seq<string>)
    ensures packs != [] ==> exists p :: p in packs
  {
    if packs != [] {
      assert packs[0] in packs;
    }
  }

  /** Feedback without a reply grades at the end of the transcript as if it had one, and so does a trace. */
  lemma InFlightSettles(s: ScanState, call: Fields, items: seq<Json>, id: string, server: string, tool: string,
                        packIn: PackReader)
    requires Sound(s) && IsCall(call, id) && id !in s.seen && NoReplyIn(items, id)
    requires Calls(call, server, tool) && OnTrellis(server) && (tool == "record_feedback" || tool == "save_experience")
    ensures var end := Finish(AfterAll(After(s, call, packIn), items, packIn)).facts;
            && (tool == "save_experience" ==> end.savedTrace)
            && (tool == "record_feedback" && Attributes(call) ==>
                  && (forall p :: NamesPack(call, p) ==> p !in end.ungraded)
                  && ((forall p :: !NamesPack(call, p)) ==> end.ungraded == []))
  {
    ToolOf(call, server, tool);
    FeedbackOrTraceWaits(s, call, id, server, tool, packIn);
    var c, first := Call(id, KindOf(call)), After(s, call, packIn);
    assert first.pending[|s.pending|] == c;
    StepKeepsSound(s, Decode(call, packIn));
    WaitsUntilReply(first, items, c, packIn);
    var t := AfterAll(first, items, packIn);
    ApplyAllMeans(t.facts, t.pending);
    if tool == "record_feedback" {
      FeedbackKind(call, server);
      forall p ensures p in Finish(t).facts.ungraded ==> !Grades(c.kind, p) {
        KeepMember(t.facts.ungraded, SurvivesCalls(t.pending), p);
      }
      if Attributes(call) && forall p :: !NamesPack(call, p) {
        NoMember(Finish(t).facts.ungraded);
      }
    }
  }
}
