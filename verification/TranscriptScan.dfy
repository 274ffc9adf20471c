/** The scanner of the hook engine: decoding one content block, and folding it into the facts in place. */
module TranscriptScan {
  import opened Common
  import opened Text
  import opened Transcript

  const PACK_TOOLS: set<string> := {
    "get_context", "search", "get_objective_context", "get_task_context",
    "get_sectioned_context", "get_lessons", "get_items"
  }
  const FEEDBACK_TOOL := "record_feedback"
  const TRACE_TOOL := "save_experience"

  function ToolOfParts(parts: seq<string>): Option<string> {
    if |parts| >= 3 && parts[0] == "mcp" && Contains(Lower(parts[1]), "trellis")
    then Some(parts[|parts| - 1]) else None
  }

  /** What a tool is called on its own server, if that server is one of Trellis. */
  function TrellisTool(name: Json): Option<string> {
    if name.Str? then ToolOfParts(SplitDunder(name.s)) else None
  }

  lemma ThreeSegments(server: string, tool: string)
    requires NoDunder(server) && (server != [] ==> server[|server| - 1] != '_') && NoDunder(tool)
    ensures SplitDunder("mcp" + DUNDER + (server + DUNDER + tool)) == ["mcp", server, tool]
  {
    SplitHead("mcp", server + DUNDER + tool);
    SplitHead(server, tool);
    NoDunderToFind(tool);
    assert SplitDunder(tool) == [tool];
  }

  /**
   A tool registered under a server whose name contains "trellis" is recognised
   by its bare name. The server name may not end in an underscore and neither
   name may hold a double one: `split` would cut it elsewhere.
   */
  lemma ToolNameIsRecovered(server: string, tool: string, name: string)
    requires NoDunder(server) && (server != [] ==> server[|server| - 1] != '_') && NoDunder(tool)
    requires name == "mcp" + DUNDER + (server + DUNDER + tool)
    ensures TrellisTool(Str(name)) == if Contains(Lower(server), "trellis") then Some(tool) else None
  {
    ThreeSegments(server, tool);
    var parts := SplitDunder(name);
    assert parts[0] == "mcp" && parts[1] == server && parts[2] == tool && |parts| == 3;
  }

  predicate NonBlank(s: string) {
    LeadingSpaces(s) < |s|
  }

  predicate NamesItem(value: Json) {
    value.Arr? && exists i :: 0 <= i < |value.items| && value.items[i].Str? && NonBlank(value.items[i].s)
  }

  predicate HasAttribution(input: Json) {
    input.Obj? && (NamesItem(Get(input.fields, "helpful_item_ids"))
                   || NamesItem(Get(input.fields, "unhelpful_item_ids")))
  }

  function NonEmptyString(v: Json): Option<string> {
    if v.Str? && v.s != "" then Some(v.s) else None
  }

  function KindOf(block: Fields): CallKind {
    var tool := TrellisTool(Get(block, "name"));
    if tool.None? then OtherCall
    else if tool.value in PACK_TOOLS then PackCall
    else if tool.value == FEEDBACK_TOOL then
      var input := Get(block, "input");
      FeedbackCall(if input.Obj? then NonEmptyString(Get(input.fields, "pack_id")) else None, HasAttribution(input))
    else if tool.value == TRACE_TOOL then TraceCall
    else OtherCall
  }

  /** The event one content block stands for; `packIn` reads a pack id out of a reply's content. */
  function Decode(block: Fields, packIn: Json -> Option<string>): Event {
    var kind := Get(block, "type");
    if kind == Str("tool_use") then
      var id := Get(block, "id");
      if id.Str? then Use(id.s, KindOf(block)) else Noise
    else if kind == Str("tool_result") then
      var id := Get(block, "tool_use_id");
      if id.Str? then Reply(id.s, Get(block, "is_error") == Bool(true), packIn(Get(block, "content"))) else Noise
    else Noise
  }

  /** The state after one content block. */
  function After(s: ScanState, block: Fields, packIn: Json -> Option<string>): ScanState {
    Step(s, Decode(block, packIn))
  }

  /** The block is the first sight of a call to a retrieval tool. */
  predicate StopsAt(s: ScanState, block: Fields, packIn: Json -> Option<string>) {
    StartsRetrieval(s, Decode(block, packIn))
  }

  lemma {:induction false} RemoveAbsent(u: seq<string>, p: string)
    requires p !in u
    ensures RemoveFirst(u, p) == u
  {
    if u != [] {
      RemoveAbsent(u[1..], p);
    }
  }

  class Scan {
    var facts: Facts
    var seenUseIds: set<string>
    var pending: seq<Call>
    var served: set<string>
    const stopAtRetrieval: bool
    const packIn: Json -> Option<string>

    ghost function View(): ScanState
      reads this
    {
      ScanState(facts, seenUseIds, pending, served)
    }

    constructor (stopAtRetrieval: bool, packIn: Json -> Option<string>)
      ensures View() == START
      ensures this.stopAtRetrieval == stopAtRetrieval && this.packIn == packIn
    {
      facts, seenUseIds, pending, served := NO_FACTS, {}, [], {};
      this.stopAtRetrieval, this.packIn := stopAtRetrieval, packIn;
    }

    /** Folds in one content block; `stop` says the scan can end here. */
    method Block(block: Fields) returns (stop: bool)
      modifies this
      ensures View() == After(old(View()), block, packIn)
      ensures stop == (stopAtRetrieval && StopsAt(old(View()), block, packIn))
    {
      var kind := Get(block, "type");
      stop := false;
      if kind == Str("tool_use") {
        stop := ToolUse(block);
      } else if kind == Str("tool_result") {
        ToolResult(block);
      }
    }

    method ToolUse(block: Fields) returns (stop: bool)
      requires Get(block, "type") == Str("tool_use")
      modifies this
      ensures View() == After(old(View()), block, packIn)
      ensures stop == (stopAtRetrieval && StopsAt(old(View()), block, packIn))
    {
      var id := Get(block, "id");
      if !id.Str? || id.s in seenUseIds {
        return false;
      }
      seenUseIds := seenUseIds + {id.s};
      facts := facts.(toolUses := facts.toolUses + 1);
      var kind := KindOf(block);
      if kind.PackCall? {
        facts := facts.(retrievalCalled := true);
        pending := pending + [Call(id.s, kind)];
        return stopAtRetrieval;
      }
      if kind.FeedbackCall? || kind.TraceCall? {
        pending := pending + [Call(id.s, kind)];
      }
      return false;
    }

    method ToolResult(block: Fields)
      requires Get(block, "type") == Str("tool_result")
      modifies this
      ensures View() == After(old(View()), block, packIn)
    {
      var id := Get(block, "tool_use_id");
      if !id.Str? {
        return;
      }
      var i := Find(pending, id.s);
      if i == |pending| {
        return;
      }
      var kind := pending[i].kind;
      pending := pending[..i] + pending[i + 1..];
      if Get(block, "is_error") == Bool(true) {
        return;
      }
      if kind.PackCall? {
        var packId := packIn(Get(block, "content"));
        if packId.Some? && packId.value !in served {
          served := served + {packId.value};
          facts := facts.(ungraded := facts.ungraded + [packId.value]);
        }
      } else {
        Apply(kind);
      }
    }

    method Apply(kind: CallKind)
      modifies this`facts
      ensures facts == ApplyCall(old(facts), kind)
    {
      match kind
      case TraceCall => facts := facts.(savedTrace := true);
      case FeedbackCall(pack, attributed) =>
        if !attributed {
          return;
        }
        if pack.Some? {
          if pack.value in facts.ungraded {
            facts := facts.(ungraded := RemoveFirst(facts.ungraded, pack.value));
          } else {
            RemoveAbsent(facts.ungraded, pack.value);
          }
        } else {
          facts := facts.(ungraded := []);
        }
      case _ =>
    }

    /** Settles the calls whose reply never reached the file. */
    method FinishScan() returns (result: Facts)
      modifies this
      ensures View() == Finish(old(View())) && result == facts
    {
      var i := 0;
      while i < |pending|
        invariant i <= |pending| && pending == old(pending)
        invariant seenUseIds == old(seenUseIds) && served == old(served)
        invariant ApplyAll(facts, pending[i..]) == ApplyAll(old(facts), old(pending))
      {
        if !pending[i].kind.PackCall? {
          Apply(pending[i].kind);
        }
        i := i + 1;
      }
      pending := [];
      return facts;
    }
  }
}
