/** The line parser that finds the shell commands of a workflow's `run:` steps, and a printer for it. */
module ToolPins {
  import opened Common
  import opened Text

  // ------------------------------------------------------------------
  // Lines
  // ------------------------------------------------------------------

  /** A line boundary of `str.splitlines`. */
  predicate IsBreak(c: char) {
    var n := c as int;
    10 <= n <= 13 || 28 <= n <= 30 || n == 0x85 || n == 0x2028 || n == 0x2029
  }

  function FirstBreak(s: string): (i: nat)
    ensures i <= |s| && (i < |s| ==> IsBreak(s[i]))
    ensures forall k :: 0 <= k < i ==> !IsBreak(s[k])
  {
    if s == [] then 0 else if IsBreak(s[0]) then 0 else 1 + FirstBreak(s[1..])
  }

  function SplitLines(s: string): seq<string>
    decreases |s|
  {
    var i := FirstBreak(s);
    if s == [] then []
    else if i == |s| then [s]
    else if s[i] == '\r' && i + 1 < |s| && s[i + 1] == '\n' then [s[..i]] + SplitLines(s[i + 2..])
    else [s[..i]] + SplitLines(s[i + 1..])
  }

  // ------------------------------------------------------------------
  // The two patterns
  // ------------------------------------------------------------------

  const RUN := "run:"

  function AfterDash(s: string): string {
    if s != "" && s[0] == '-' then LStrip(s[1..]) else s
  }

  /** What follows `run:` on a step line, with or without its dash. */
  function RunTail(line: string): Option<string> {
    var rest := AfterDash(LStrip(line));
    if RUN <= rest then Some(rest[|RUN|..]) else None
  }

  /** A block marker with an optional chomping sign and nothing else. */
  predicate IsBlockTail(tail: string) {
    var r := LStrip(tail);
    && r != "" && (r[0] == '|' || r[0] == '>')
    && var more := r[1..];
       LStrip(if more != "" && (more[0] == '+' || more[0] == '-') then more[1..] else more) == ""
  }

  /** The opening line of a block; its indentation is that of the line. */
  predicate OpensBlock(line: string) {
    var tail := RunTail(line);
    tail.Some? && IsBlockTail(tail.value)
  }

  /** The command of a one-line step. */
  function StepCommand(line: string): Option<string> {
    var tail := RunTail(line);
    if tail.Some? && Strip(tail.value) != "" then Some(Strip(tail.value)) else None
  }

  // ------------------------------------------------------------------
  // The parser
  // ------------------------------------------------------------------

  /** What one line adds to the commands, and the block it leaves open. */
  function Read(line: string, block: Option<nat>): (seq<string>, Option<nat>) {
    if block.Some? && Strip(line) == "" then ([], block)
    else if block.Some? && LeadingSpaces(line) > block.value then ([Strip(line)], block)
    else if OpensBlock(line) then ([], Some(LeadingSpaces(line)))
    else if StepCommand(line).Some? then ([StepCommand(line).value], None)
    else ([], None)
  }

  /** The commands of the remaining lines, inside a block of this indentation or outside any. */
  function Parse(lines: seq<string>, block: Option<nat>): seq<string>
    decreases |lines|
  {
    if lines == [] then []
    else
      var read := Read(lines[0], block);
      read.0 + Parse(lines[1..], read.1)
  }

  lemma ParseHead(line: string, rest: seq<string>, block: Option<nat>)
    ensures var read := Read(line, block); Parse([line] + rest, block) == read.0 + Parse(rest, read.1)
  {
    assert ([line] + rest)[1..] == rest;
  }

  /** Handles one line; the block variable is cleared by the first line that is not deeper. */
  method ReadLine(line: string, blockIndent: Option<nat>) returns (added: seq<string>, block: Option<nat>)
    ensures (added, block) == Read(line, blockIndent)
  {
    block := blockIndent;
    var stripped := Strip(line);
    if block.Some? {
      if stripped == "" {
        return [], block;
      }
      if LeadingSpaces(line) > block.value {
        return [stripped], block;
      }
      block := None;
    }
    if OpensBlock(line) {
      return [], Some(LeadingSpaces(line));
    }
    var command := StepCommand(line);
    return if command.Some? then [command.value] else [], block;
  }

  lemma ParseFrom(lines: seq<string>, i: nat, block: Option<nat>, before: seq<string>)
    requires i < |lines|
    ensures var read := Read(lines[i], block);
            before + Parse(lines[i..], block) == (before + read.0) + Parse(lines[i + 1..], read.1)
  {
    var line, rest := lines[i], lines[i + 1..];
    assert lines[i..] == [line] + rest;
    ParseHead(line, rest, block);
    Regroup(before, Read(line, block).0, Parse(rest, Read(line, block).1));
  }

  /** The commands under the `run:` keys, in file order. */
  method RunCommands(text: string) returns (commands: seq<string>)
    ensures commands == Parse(SplitLines(text), None)
  {
    commands := [];
    var block: Option<nat> := None;
    var lines := SplitLines(text);
    var i := 0;
    while i < |lines|
      invariant i <= |lines|
      invariant commands + Parse(lines[i..], block) == Parse(lines, None)
    {
      ParseFrom(lines, i, block, commands);
      var added;
      added, block := ReadLine(lines[i], block);
      commands := commands + added;
      i := i + 1;
    }
    assert lines[i..] == [];
  }

  // ------------------------------------------------------------------
  // The gate roster
  // ------------------------------------------------------------------

  /** A command begins with a token. */
  predicate HasToken(command: string) {
    command != "" && !IsSpace(command[0])
  }

  lemma StripHasToken(s: string)
    requires Strip(s) != ""
    ensures HasToken(Strip(s))
  {
    assert Strip(s)[0] == LStrip(s)[0];
  }

  predicate AllHaveTokens(commands: seq<string>) {
    forall i :: 0 <= i < |commands| ==> HasToken(commands[i])
  }

  lemma StepHasToken(line: string)
    requires StepCommand(line).Some?
    ensures HasToken(StepCommand(line).value)
  {
    StripHasToken(RunTail(line).value);
  }

  lemma ReadHasToken(line: string, block: Option<nat>)
    ensures AllHaveTokens(Read(line, block).0)
  {
    if block.Some? && Strip(line) == "" {
    } else if block.Some? && LeadingSpaces(line) > block.value {
      StripHasToken(line);
    } else if !OpensBlock(line) && StepCommand(line).Some? {
      StepHasToken(line);
    }
  }

  lemma TokensAppend(a: seq<string>, b: seq<string>)
    requires AllHaveTokens(a) && AllHaveTokens(b)
    ensures AllHaveTokens(a + b)
  {
  }

  /** The parser returns no blank command, so taking the first token of each never fails. */
  lemma {:induction false} EveryCommandHasAToken(lines: seq<string>, block: Option<nat>)
    ensures AllHaveTokens(Parse(lines, block))
    decreases |lines|
  {
    if lines != [] {
      var read := Read(lines[0], block);
      ReadHasToken(lines[0], block);
      EveryCommandHasAToken(lines[1..], read.1);
      TokensAppend(read.0, Parse(lines[1..], read.1));
    }
  }

  /** `command.split()[0]`. */
  function FirstToken(command: string): (token: string)
    requires HasToken(command)
    ensures token != "" && token <= command && forall i :: 0 <= i < |token| ==> !IsSpace(token[i])
    ensures |token| < |command| ==> IsSpace(command[|token|])
  {
    if |command| == 1 || IsSpace(command[1]) then command[..1] else command[..1] + FirstToken(command[1..])
  }

  const TOOLS: set<string> := {"ruff", "mypy"}

  /** The command invokes a pinned tool. */
  predicate IsGate(command: string) {
    HasToken(command) && FirstToken(command) in TOOLS
  }

  function GateCommands(commands: seq<string>): seq<string> {
    if commands == [] then [] else (if IsGate(commands[0]) then [commands[0]] else []) + GateCommands(commands[1..])
  }

  lemma GateStep(commands: seq<string>, i: nat, before: seq<string>)
    requires AllHaveTokens(commands) && i < |commands|
    ensures AllHaveTokens(commands[i..]) && AllHaveTokens(commands[i + 1..])
    ensures before + GateCommands(commands[i..]) ==
            (before + if FirstToken(commands[i]) in TOOLS then [commands[i]] else []) + GateCommands(commands[i + 1..])
  {
    assert commands[i..][0] == commands[i] && commands[i..][1..] == commands[i + 1..];
  }

  method SelectGates(commands: seq<string>) returns (gates: seq<string>)
    requires AllHaveTokens(commands)
    ensures gates == GateCommands(commands)
  {
    gates := [];
    var i := 0;
    while i < |commands|
      invariant i <= |commands| && gates + GateCommands(commands[i..]) == GateCommands(commands)
    {
      GateStep(commands, i, gates);
      gates := gates + if FirstToken(commands[i]) in TOOLS then [commands[i]] else [];
      i := i + 1;
    }
  }

  /** The commands of one workflow that invoke a pinned tool; the workflow is on the roster when there is one. */
  method GatesOf(text: string) returns (gates: seq<string>)
    ensures AllHaveTokens(Parse(SplitLines(text), None))
    ensures gates == GateCommands(Parse(SplitLines(text), None))
  {
    var commands := RunCommands(text);
    EveryCommandHasAToken(SplitLines(text), None);
    gates := SelectGates(commands);
  }

  // ------------------------------------------------------------------
  // The printer
  // ------------------------------------------------------------------

  datatype BodyLine = Command(indent: nat, text: string) | Gap(spaces: nat)

  /** One thing a workflow holds. A dash is followed by some spaces, and so is the colon. */
  datatype Item =
    | Step(indent: nat, dash: Option<nat>, gap: nat, command: string)
    | Block(indent: nat, dash: Option<nat>, gap: nat, marker: string, body: seq<BodyLine>)
    | Plain(indent: nat, text: string)
    | Blank(spaces: nat)

  /** A block marker, with or without a chomping sign. */
  predicate IsMarker(s: string) {
    && 1 <= |s| <= 2 && (s[0] == '|' || s[0] == '>')
    && (|s| == 2 ==> s[1] == '+' || s[1] == '-')
  }

  function Spaces(n: nat): (s: string)
    ensures |s| == n && forall i :: 0 <= i < n ==> s[i] == ' '
  {
    seq(n, i => ' ')
  }

  function Dashed(dash: Option<nat>, s: string): string {
    if dash.Some? then "-" + (Spaces(dash.value) + s) else s
  }

  function Header(indent: nat, dash: Option<nat>, gap: nat, content: string): string {
    Spaces(indent) + Dashed(dash, RUN + (Spaces(gap) + content))
  }

  function PrintBodyLine(line: BodyLine): string {
    match line
    case Command(indent, text) => Spaces(indent) + text
    case Gap(n) => Spaces(n)
  }

  function PrintBody(body: seq<BodyLine>): seq<string> {
    if body == [] then []
    else
      [PrintBodyLine(body[0])] + PrintBody(body[1..])
  }

  function Print(item: Item): seq<string> {
    match item
    case Step(indent, dash, gap, command) => [Header(indent, dash, gap, command)]
    case Block(indent, dash, gap, marker, body) => [Header(indent, dash, gap, marker)] + PrintBody(body)
    case Plain(indent, text) => [Spaces(indent) + text]
    case Blank(n) => [Spaces(n)]
  }

  function PrintAll(items: seq<Item>): seq<string> {
    if items == [] then [] else Print(items[0]) + PrintAll(items[1..])
  }

  function BodyCommands(body: seq<BodyLine>): seq<string> {
    if body == [] then [] else (if body[0].Command? then [body[0].text] else []) + BodyCommands(body[1..])
  }

  function CommandsOf(item: Item): seq<string> {
    match item
    case Step(_, _, _, command) => [command]
    case Block(_, _, _, _, body) => BodyCommands(body)
    case _ => []
  }

  function Commands(items: seq<Item>): seq<string> {
    if items == [] then [] else CommandsOf(items[0]) + Commands(items[1..])
  }

  /** Non-empty, with no space at either end and no line break. */
  predicate Trimmed(s: string) {
    s != "" && !IsSpace(s[0]) && !IsSpace(s[|s| - 1]) && forall i :: 0 <= i < |s| ==> !IsBreak(s[i])
  }

  predicate ValidBody(indent: nat, body: seq<BodyLine>) {
    forall i :: 0 <= i < |body| && body[i].Command? ==> body[i].indent > indent && Trimmed(body[i].text)
  }

  /**
   What the item says it is: a step is no block header, a block's body is deeper than its
   header, a plain line is neither.
   */
  predicate Valid(item: Item) {
    match item
    case Step(_, _, _, command) => Trimmed(command) && !IsMarker(command)
    case Block(indent, _, _, marker, body) => IsMarker(marker) && ValidBody(indent, body)
    case Plain(_, text) => Trimmed(text) && RunTail(text).None?
    case Blank(_) => true
  }

  /** No item that follows a block, blank lines aside, is indented deeper than the block's header. */
  predicate WellNested(items: seq<Item>, block: Option<nat>)
    decreases |items|
  {
    if items == [] then true
    else if items[0].Blank? then WellNested(items[1..], block)
    else
      && !(block.Some? && items[0].indent > block.value)
      && WellNested(items[1..], if items[0].Block? then Some(items[0].indent) else None)
  }

  // ------------------------------------------------------------------
  // How printed lines read
  // ------------------------------------------------------------------

  lemma {:induction false} LeadingOfSpaces(n: nat, s: string)
    requires s == "" || !IsSpace(s[0])
    ensures LeadingSpaces(Spaces(n) + s) == n && LStrip(Spaces(n) + s) == s
  {
    var t := Spaces(n) + s;
    if n == 0 {
      assert t == s;
    } else {
      assert t[0] == ' ' && t[1..] == Spaces(n - 1) + s;
      LeadingOfSpaces(n - 1, s);
    }
  }

  lemma StripIndented(n: nat, s: string)
    requires s != "" ==> !IsSpace(s[0]) && !IsSpace(s[|s| - 1])
    ensures Strip(Spaces(n) + s) == s && (s != "" ==> LeadingSpaces(Spaces(n) + s) == n)
  {
    LeadingOfSpaces(n, s);
  }

  lemma StripSpaces(n: nat)
    ensures Strip(Spaces(n)) == ""
  {
    StripIndented(n, "");
    assert Spaces(n) + "" == Spaces(n);
  }

  lemma DashedReads(dash: Option<nat>, s: string)
    requires s != "" && s[0] == 'r'
    ensures var d := Dashed(dash, s);
            AfterDash(d) == s && d != "" && !IsSpace(d[0]) && d[|d| - 1] == s[|s| - 1] && |d| >= |s|
  {
    if dash.Some? {
      var d := Dashed(dash, s);
      assert d[0] == '-' && d[1..] == Spaces(dash.value) + s;
      LeadingOfSpaces(dash.value, s);
    }
  }

  /** A printed header reads back: its indentation, and what follows the colon. */
  lemma HeaderReads(indent: nat, dash: Option<nat>, gap: nat, content: string)
    ensures LeadingSpaces(Header(indent, dash, gap, content)) == indent
    ensures RunTail(Header(indent, dash, gap, content)) == Some(Spaces(gap) + content)
  {
    var tail := RUN + (Spaces(gap) + content);
    assert tail[0] == 'r';
    DashedReads(dash, tail);
    LeadingOfSpaces(indent, Dashed(dash, tail));
    assert RUN <= tail && tail[|RUN|..] == Spaces(gap) + content;
  }

  lemma StripOne(s: string)
    requires s != "" ==> !IsSpace(s[|s| - 1])
    ensures LStrip(s) == "" <==> s == ""
  {
  }

  /** Among contents that do not begin or end with a space only the six markers open a block. */
  lemma MarkerTail(gap: nat, content: string)
    requires content != "" && !IsSpace(content[0]) && !IsSpace(content[|content| - 1])
    ensures IsBlockTail(Spaces(gap) + content) <==> IsMarker(content)
  {
    LeadingOfSpaces(gap, content);
    var more := content[1..];
    var last := if more != "" && (more[0] == '+' || more[0] == '-') then more[1..] else more;
    assert last != "" ==> last[|last| - 1] == content[|content| - 1];
    StripOne(last);
  }

  lemma MarkersTrimmed(marker: string)
    requires IsMarker(marker)
    ensures marker != "" && !IsSpace(marker[0]) && !IsSpace(marker[|marker| - 1]) && Trimmed(marker)
  {
  }

  lemma StepReads(indent: nat, dash: Option<nat>, gap: nat, command: string)
    requires Trimmed(command) && !IsMarker(command)
    ensures var line := Header(indent, dash, gap, command);
            !OpensBlock(line) && StepCommand(line) == Some(command) && LeadingSpaces(line) == indent
  {
    HeaderReads(indent, dash, gap, command);
    MarkerTail(gap, command);
    StripIndented(gap, command);
  }

  lemma BlockReads(indent: nat, dash: Option<nat>, gap: nat, marker: string)
    requires IsMarker(marker)
    ensures var line := Header(indent, dash, gap, marker);
            OpensBlock(line) && LeadingSpaces(line) == indent
  {
    MarkersTrimmed(marker);
    HeaderReads(indent, dash, gap, marker);
    MarkerTail(gap, marker);
  }

  /** A header is never blank, and a step's line is not its command. */
  lemma HeaderStripped(indent: nat, dash: Option<nat>, gap: nat, content: string)
    requires content != "" && !IsSpace(content[|content| - 1])
    ensures |Strip(Header(indent, dash, gap, content))| > |content|
  {
    var tail := RUN + (Spaces(gap) + content);
    assert tail[0] == 'r' && tail[|tail| - 1] == content[|content| - 1];
    DashedReads(dash, tail);
    StripIndented(indent, Dashed(dash, tail));
  }

  lemma PlainReads(indent: nat, text: string)
    requires Trimmed(text) && RunTail(text).None?
    ensures var line := Spaces(indent) + text;
            !OpensBlock(line) && StepCommand(line).None? && Strip(line) == text && LeadingSpaces(line) == indent
  {
    StripIndented(indent, text);
    LeadingOfSpaces(indent, text);
    LeadingOfSpaces(0, text);
    assert Spaces(0) + text == text;
  }

  // ------------------------------------------------------------------
  // Print, then parse
  // ------------------------------------------------------------------

  lemma BodyLineRead(line: BodyLine, block: nat)
    requires line.Command? ==> line.indent > block && Trimmed(line.text)
    ensures Read(PrintBodyLine(line), Some(block)) == (if line.Command? then [line.text] else [], Some(block))
  {
    match line
    case Command(indent, text) => StripIndented(indent, text);
    case Gap(n) => StripSpaces(n);
  }

  lemma BodyLineParses(line: BodyLine, tail: seq<string>, block: nat)
    requires line.Command? ==> line.indent > block && Trimmed(line.text)
    ensures Parse([PrintBodyLine(line)] + tail, Some(block)) ==
            (if line.Command? then [line.text] else []) + Parse(tail, Some(block))
  {
    BodyLineRead(line, block);
    ParseHead(PrintBodyLine(line), tail, Some(block));
  }

  lemma BodyUnfolds(body: seq<BodyLine>)
    requires body != []
    ensures PrintBody(body) == [PrintBodyLine(body[0])] + PrintBody(body[1..])
    ensures BodyCommands(body) == (if body[0].Command? then [body[0].text] else []) + BodyCommands(body[1..])
  {
  }

  /** Inside a block, body lines deeper than it are its commands, and blank ones are passed over. */
  lemma {:induction false} BodyParses(body: seq<BodyLine>, rest: seq<string>, block: nat)
    requires ValidBody(block, body)
    ensures Parse(PrintBody(body) + rest, Some(block)) == BodyCommands(body) + Parse(rest, Some(block))
    decreases |body|
  {
    if body == [] {
      assert PrintBody(body) + rest == rest;
    } else {
      BodyUnfolds(body);
      Regroup([PrintBodyLine(body[0])], PrintBody(body[1..]), rest);
      BodyLineParses(body[0], PrintBody(body[1..]) + rest, block);
      BodyParses(body[1..], rest, block);
      Regroup(if body[0].Command? then [body[0].text] else [], BodyCommands(body[1..]), Parse(rest, Some(block)));
    }
  }

  /** A line deeper than the open block is a command of it. */
  lemma ReadInside(line: string, block: nat)
    requires Strip(line) != "" && LeadingSpaces(line) > block
    ensures Read(line, Some(block)) == ([Strip(line)], Some(block))
  {
  }

  /** Any other line that is not blank is read on its own. */
  lemma ReadOutside(line: string, block: Option<nat>)
    requires Strip(line) != "" && (block.Some? ==> LeadingSpaces(line) <= block.value)
    ensures Read(line, block) ==
            if OpensBlock(line) then ([], Some(LeadingSpaces(line)))
            else if StepCommand(line).Some? then ([StepCommand(line).value], None)
            else ([], None)
  {
  }

  lemma ReadSplit(line: string, indent: nat, block: Option<nat>)
    requires Strip(line) != "" && LeadingSpaces(line) == indent
    ensures if block.Some? && indent > block.value
            then Read(line, block) == ([Strip(line)], block)
            else Read(line, block) ==
                 if OpensBlock(line) then ([], Some(indent))
                 else if StepCommand(line).Some? then ([StepCommand(line).value], None)
                 else ([], None)
  {
    if block.Some? && indent > block.value {
      ReadInside(line, block.value);
    } else {
      ReadOutside(line, block);
    }
  }

  /** How each kind of printed line is read, inside a block shallower than it or not. */
  lemma StepRead(item: Item, block: Option<nat>)
    requires Valid(item) && item.Step?
    ensures var line := Print(item)[0];
            if block.Some? && item.indent > block.value
            then Read(line, block) == ([Strip(line)], block) && Strip(line) != item.command
            else Read(line, block) == ([item.command], None)
  {
    StepReads(item.indent, item.dash, item.gap, item.command);
    HeaderStripped(item.indent, item.dash, item.gap, item.command);
    ReadSplit(Header(item.indent, item.dash, item.gap, item.command), item.indent, block);
  }

  lemma BlockRead(indent: nat, dash: Option<nat>, gap: nat, marker: string, block: Option<nat>)
    requires IsMarker(marker)
    ensures var line := Header(indent, dash, gap, marker);
            if block.Some? && indent > block.value
            then Read(line, block) == ([Strip(line)], block)
            else Read(line, block) == ([], Some(indent))
  {
    MarkersTrimmed(marker);
    BlockReads(indent, dash, gap, marker);
    HeaderStripped(indent, dash, gap, marker);
    ReadSplit(Header(indent, dash, gap, marker), indent, block);
  }

  lemma PlainRead(item: Item, block: Option<nat>)
    requires Valid(item) && item.Plain?
    ensures var line := Print(item)[0];
            if block.Some? && item.indent > block.value
            then Read(line, block) == ([Strip(line)], block)
            else Read(line, block) == ([], None)
  {
    PlainReads(item.indent, item.text);
    ReadSplit(Spaces(item.indent) + item.text, item.indent, block);
  }

  lemma BlockParses(line: string, body: seq<BodyLine>, rest: seq<string>, block: Option<nat>)
    ensures var read := Read(line, block);
            Parse([line] + PrintBody(body) + rest, block) == read.0 + Parse(PrintBody(body) + rest, read.1)
  {
    assert [line] + PrintBody(body) + rest == [line] + (PrintBody(body) + rest);
    ParseHead(line, PrintBody(body) + rest, block);
  }

  /** An item no deeper than the open block closes it and gives its commands. */
  lemma ItemReadRight(item: Item, rest: seq<string>, block: Option<nat>)
    requires Valid(item) && !item.Blank? && !(block.Some? && item.indent > block.value)
    ensures Parse(Print(item) + rest, block) ==
            CommandsOf(item) + Parse(rest, if item.Block? then Some(item.indent) else None)
  {
    var line := Print(item)[0];
    match item
    case Step(_, _, _, _) =>
      StepRead(item, block);
      ParseHead(line, rest, block);
    case Block(indent, dash, gap, marker, body) =>
      BlockRead(indent, dash, gap, marker, block);
      BlockParses(line, body, rest, block);
      BodyParses(body, rest, indent);
    case Plain(_, _) =>
      PlainRead(item, block);
      ParseHead(line, rest, block);
  }

  lemma SwallowedLine(line: string, added: string, rest: seq<string>, block: nat)
    requires Read(line, Some(block)) == ([added], Some(block))
    ensures Parse([line] + rest, Some(block)) == [added] + Parse(rest, Some(block))
  {
    ParseHead(line, rest, Some(block));
  }

  lemma SwallowedBlock(line: string, added: string, body: seq<BodyLine>, rest: seq<string>, block: nat)
    requires Read(line, Some(block)) == ([added], Some(block)) && ValidBody(block, body)
    ensures Parse([line] + PrintBody(body) + rest, Some(block))
         == [added] + BodyCommands(body) + Parse(rest, Some(block))
  {
    assert [line] + PrintBody(body) + rest == [line] + (PrintBody(body) + rest);
    SwallowedLine(line, added, PrintBody(body) + rest, block);
    BodyParses(body, rest, block);
    Regroup([added], BodyCommands(body), Parse(rest, Some(block)));
  }

  /** What an item deeper than the open block turns into: its first line is a command it does not have. */
  function SwallowedAs(item: Item): seq<string>
    requires !item.Blank?
  {
    [Strip(Print(item)[0])] + if item.Block? then BodyCommands(item.body) else []
  }

  lemma ItemSwallowed(item: Item, rest: seq<string>, block: nat)
    requires Valid(item) && !item.Blank? && item.indent > block
    ensures Parse(Print(item) + rest, Some(block)) == SwallowedAs(item) + Parse(rest, Some(block))
    ensures item.Step? ==> SwallowedAs(item)[0] != item.command
  {
    var line := Print(item)[0];
    if item.Block? {
      BlockRead(item.indent, item.dash, item.gap, item.marker, Some(block));
      SwallowedBlock(line, Strip(line), item.body, rest, block);
    } else {
      if item.Step? { StepRead(item, Some(block)); } else { PlainRead(item, Some(block)); }
      SwallowedLine(line, Strip(line), rest, block);
      assert SwallowedAs(item) == [Strip(line)];
    }
  }

  lemma BlankRead(spaces: nat, rest: seq<string>, block: Option<nat>)
    ensures Parse([Spaces(spaces)] + rest, block) == Parse(rest, block)
  {
    StripSpaces(spaces);
    LeadingOfSpaces(spaces, "");
    assert Spaces(spaces) + "" == Spaces(spaces);
    assert RunTail(Spaces(spaces)).None?;
    ParseHead(Spaces(spaces), rest, block);
  }

  lemma SwallowedDiffers(item: Item, parsed: seq<string>, expected: seq<string>)
    requires !item.Blank? && |parsed| >= |expected| && (item.Step? ==> SwallowedAs(item)[0] != item.command)
    ensures |SwallowedAs(item) + parsed| >= |CommandsOf(item) + expected|
    ensures SwallowedAs(item) + parsed != CommandsOf(item) + expected
  {
    assert (SwallowedAs(item) + parsed)[0] == SwallowedAs(item)[0];
    if item.Step? {
      assert (CommandsOf(item) + expected)[0] == item.command;
    }
  }

  lemma SameTail(head: seq<string>, a: seq<string>, b: seq<string>)
    ensures head + a == head + b <==> a == b
  {
    if head + a == head + b {
      assert a == (head + a)[|head|..] == (head + b)[|head|..] == b;
    }
  }

  /**
   The parser never returns fewer commands than were printed, and it reads them all right
   exactly when the items are well nested.
   */
  lemma {:induction false} ParsePrinted(items: seq<Item>, block: Option<nat>)
    requires forall i :: 0 <= i < |items| ==> Valid(items[i])
    ensures |Parse(PrintAll(items), block)| >= |Commands(items)|
    ensures Parse(PrintAll(items), block) == Commands(items) <==> WellNested(items, block)
    decreases |items|
  {
    if items != [] {
      var item, rest := items[0], PrintAll(items[1..]);
      if item.Blank? {
        BlankRead(item.spaces, rest, block);
        ParsePrinted(items[1..], block);
      } else if block.Some? && item.indent > block.value {
        ItemSwallowed(item, rest, block.value);
        ParsePrinted(items[1..], block);
        SwallowedDiffers(item, Parse(rest, block), Commands(items[1..]));
      } else {
        var next := if item.Block? then Some(item.indent) else None;
        ItemReadRight(item, rest, block);
        ParsePrinted(items[1..], next);
        SameTail(CommandsOf(item), Parse(rest, next), Commands(items[1..]));
      }
    }
  }

  // ------------------------------------------------------------------
  // Down to the text
  // ------------------------------------------------------------------

  function JoinLines(lines: seq<string>): string {
    if lines == [] then "" else lines[0] + "\n" + JoinLines(lines[1..])
  }

  predicate Unbroken(line: string) {
    forall i :: 0 <= i < |line| ==> !IsBreak(line[i])
  }

  lemma {:induction false} FirstBreakAt(line: string, rest: string)
    requires Unbroken(line)
    ensures FirstBreak(line + "\n" + rest) == |line|
  {
    var s := line + "\n" + rest;
    if line == "" {
      assert s[0] == '\n';
    } else {
      assert s[0] == line[0] && s[1..] == line[1..] + "\n" + rest;
      FirstBreakAt(line[1..], rest);
    }
  }

  lemma SplitFirst(line: string, rest: string)
    requires Unbroken(line)
    ensures SplitLines(line + "\n" + rest) == [line] + SplitLines(rest)
  {
    var s := line + "\n" + rest;
    FirstBreakAt(line, rest);
    assert s[|line|] == '\n' && s[..|line|] == line && s[|line| + 1..] == rest;
  }

  /** Splitting joined lines gives the lines back. */
  lemma {:induction false} SplitJoined(lines: seq<string>)
    requires forall i :: 0 <= i < |lines| ==> Unbroken(lines[i])
    ensures SplitLines(JoinLines(lines)) == lines
    decreases |lines|
  {
    if lines != [] {
      SplitJoined(lines[1..]);
      SplitFirst(lines[0], JoinLines(lines[1..]));
    }
  }

  lemma UnbrokenAppend(a: string, b: string)
    requires Unbroken(a) && Unbroken(b)
    ensures Unbroken(a + b)
  {
  }

  lemma HeaderUnbroken(indent: nat, dash: Option<nat>, gap: nat, content: string)
    requires Unbroken(content)
    ensures Unbroken(Header(indent, dash, gap, content))
  {
    UnbrokenAppend(Spaces(gap), content);
    UnbrokenAppend(RUN, Spaces(gap) + content);
    var tail := RUN + (Spaces(gap) + content);
    if dash.Some? {
      UnbrokenAppend(Spaces(dash.value), tail);
      UnbrokenAppend("-", Spaces(dash.value) + tail);
    }
    UnbrokenAppend(Spaces(indent), Dashed(dash, tail));
  }

  lemma {:induction false} BodyUnbroken(indent: nat, body: seq<BodyLine>)
    requires ValidBody(indent, body)
    ensures forall i :: 0 <= i < |PrintBody(body)| ==> Unbroken(PrintBody(body)[i])
    decreases |body|
  {
    if body != [] {
      BodyUnbroken(indent, body[1..]);
      match body[0]
      case Command(n, text) => UnbrokenAppend(Spaces(n), text);
      case Gap(n) =>
    }
  }

  lemma ItemUnbroken(item: Item)
    requires Valid(item)
    ensures forall i :: 0 <= i < |Print(item)| ==> Unbroken(Print(item)[i])
  {
    match item
    case Step(indent, dash, gap, command) => HeaderUnbroken(indent, dash, gap, command);
    case Block(indent, dash, gap, marker, body) =>
      MarkersTrimmed(marker);
      HeaderUnbroken(indent, dash, gap, marker);
      BodyUnbroken(indent, body);
    case Plain(indent, text) => UnbrokenAppend(Spaces(indent), text);
    case Blank(_) =>
  }

  lemma {:induction false} PrintedUnbroken(items: seq<Item>)
    requires forall i :: 0 <= i < |items| ==> Valid(items[i])
    ensures forall i :: 0 <= i < |PrintAll(items)| ==> Unbroken(PrintAll(items)[i])
    decreases |items|
  {
    if items != [] {
      ItemUnbroken(items[0]);
      PrintedUnbroken(items[1..]);
    }
  }

  /**
   Print, then parse. A workflow written with bare and keyed steps, blocks, plain
   lines and blank lines anywhere yields exactly its commands, in order, if and only
   if nothing after a block is indented deeper than the block's header.
   */
  lemma PrintThenParse(items: seq<Item>)
    requires forall i :: 0 <= i < |items| ==> Valid(items[i])
    ensures Parse(SplitLines(JoinLines(PrintAll(items))), None) == Commands(items) <==> WellNested(items, None)
  {
    PrintedUnbroken(items);
    SplitJoined(PrintAll(items));
    ParsePrinted(items, None);
  }

  /** Steps that all start at one indentation are always well nested. */
  lemma {:induction false} OneLevelIsWellNested(items: seq<Item>, level: nat, block: Option<nat>)
    requires forall i :: 0 <= i < |items| && !items[i].Blank? ==> items[i].indent == level
    requires block.Some? ==> block.value >= level
    ensures WellNested(items, block)
    decreases |items|
  {
    if items != [] {
      OneLevelIsWellNested(items[1..], level,
                           if items[0].Blank? then block else if items[0].Block? then Some(level) else None);
    }
  }

  // ------------------------------------------------------------------
  // What a block that takes too much does
  // ------------------------------------------------------------------

  /** A bare step with a block, and the next key of the same step. */
  const STEP_WITH_ENV: seq<Item> := [Block(6, Some(1), 1, "|", [Command(10, "make")]), Plain(8, "env:")]

  lemma JoinThree(a: string, b: string, c: string)
    ensures JoinLines([a, b, c]) == a + "\n" + (b + "\n" + (c + "\n"))
  {
    assert [a, b, c][1..] == [b, c] && [b, c][1..] == [c] && [c][1..] == [];
    assert JoinLines([c]) == c + "\n" + "" == c + "\n";
    assert JoinLines([b, c]) == b + "\n" + (c + "\n");
  }

  lemma HeaderText()
    ensures Header(6, Some(1), 1, "|") == "      - run: |"
  {
    assert Spaces(6) == "      " && Spaces(1) == " ";
    assert Dashed(Some(1), RUN + (Spaces(1) + "|")) == "- run: |";
  }

  lemma StepWithEnvText(items: seq<Item>)
    requires items == STEP_WITH_ENV
    ensures JoinLines(PrintAll(items)) == "      - run: |" + "\n" + ("          make" + "\n" + ("        env:" + "\n"))
  {
    var body := [Command(10, "make")];
    assert body[1..] == [] && items[1..] == [items[1]] && items[1..][1..] == [];
    assert Spaces(8) == "        " && Spaces(10) == "          ";
    assert PrintBody(body) == [Spaces(10) + "make"] + [];
    HeaderText();
    assert PrintAll(items[1..]) == Print(items[1]) + [];
    assert PrintAll(items) == [Header(6, Some(1), 1, "|"), Spaces(10) + "make", Spaces(8) + "env:"];
    assert Spaces(10) + "make" == "          make" && Spaces(8) + "env:" == "        env:";
    assert PrintAll(items) == ["      - run: |", "          make", "        env:"];
    JoinThree("      - run: |", "          make", "        env:");
  }

  lemma StepWithEnvIsValid()
    ensures Valid(STEP_WITH_ENV[0]) && Valid(STEP_WITH_ENV[1])
  {
    assert LStrip("env:") == "env:" && RunTail("env:").None?;
    assert Trimmed("make") && Trimmed("env:") && IsMarker("|");
  }

  lemma BlockThenDeeper(block: Item, key: Item)
    requires Valid(block) && Valid(key) && block.Block? && key.Plain? && key.indent > block.indent
    ensures !WellNested([block, key], None)
    ensures Parse(PrintAll([block, key]), None) == CommandsOf(block) + [key.text]
  {
    var items := [block, key];
    assert items[1..] == [key] && [key][1..] == [];
    assert PrintAll([key]) == Print(key) + [];
    ItemReadRight(block, PrintAll([key]), None);
    ItemSwallowed(key, [], block.indent);
    PlainReads(key.indent, key.text);
    assert SwallowedAs(key) == [key.text];
  }

  lemma CommandsOfTwo(block: Item, key: Item)
    requires key.Plain?
    ensures Commands([block, key]) == CommandsOf(block)
  {
    assert [block, key][1..] == [key] && [key][1..] == [];
    assert Commands([key]) == CommandsOf(key) + Commands([]);
  }

  lemma BlockThenDeeperText(items: seq<Item>, block: Item, key: Item, text: string)
    requires Valid(block) && Valid(key) && block.Block? && key.Plain? && key.indent > block.indent
    requires items == [block, key] && text == JoinLines(PrintAll(items))
    ensures (forall i :: 0 <= i < |items| ==> Valid(items[i])) && !WellNested(items, None)
    ensures Commands(items) == CommandsOf(block) && Parse(SplitLines(text), None) == CommandsOf(block) + [key.text]
  {
    PrintedUnbroken(items);
    SplitJoined(PrintAll(items));
    BlockThenDeeper(block, key);
    CommandsOfTwo(block, key);
  }

  lemma StepWithEnvMakes(block: Item, key: Item)
    requires [block, key] == STEP_WITH_ENV
    ensures block == STEP_WITH_ENV[0] && key == STEP_WITH_ENV[1] && CommandsOf(block) == ["make"]
  {
    assert [block, key][0] == block && [block, key][1] == key;
    assert block.body[1..] == [];
  }

  /**
   The block's indentation is that of its dash, so every other key of a bare step is
   deeper, and one that follows the block is taken as a command.
   */
  lemma ABlockTakesTheNextKey(items: seq<Item>, text: string)
    requires items == STEP_WITH_ENV && text == JoinLines(PrintAll(items))
    ensures text == "      - run: |" + "\n" + ("          make" + "\n" + ("        env:" + "\n"))
    ensures (forall i :: 0 <= i < |items| ==> Valid(items[i])) && !WellNested(items, None)
    ensures Commands(items) == ["make"] && Parse(SplitLines(text), None) == ["make", "env:"]
  {
    var block, key := items[0], items[1];
    assert items == [block, key];
    StepWithEnvMakes(block, key);
    StepWithEnvIsValid();
    StepWithEnvText(items);
    BlockThenDeeperText(items, block, key, text);
  }

  /** The items an open block takes for lines of its own. */
  function Swallowed(items: seq<Item>, block: Option<nat>): seq<Item>
    decreases |items|
  {
    if items == [] then []
    else if items[0].Blank? then Swallowed(items[1..], block)
    else if block.Some? && items[0].indent > block.value then [items[0]] + Swallowed(items[1..], block)
    else Swallowed(items[1..], if items[0].Block? then Some(items[0].indent) else None)
  }

  lemma {:induction false} WellNestedSwallowsNothing(items: seq<Item>, block: Option<nat>)
    ensures WellNested(items, block) <==> Swallowed(items, block) == []
    decreases |items|
  {
    if items != [] {
      if items[0].Blank? {
        WellNestedSwallowsNothing(items[1..], block);
      } else {
        WellNestedSwallowsNothing(items[1..], if items[0].Block? then Some(items[0].indent) else None);
      }
    }
  }

  /** A step that is swallowed is no command any more. */
  predicate LosesGate(item: Item) {
    item.Step? && IsGate(item.command)
  }

  /** A plain line that is swallowed becomes one. */
  predicate AddsGate(item: Item) {
    item.Plain? && IsGate(item.text)
  }

  function CountItems(items: seq<Item>, which: Item -> bool): nat {
    if items == [] then 0 else (if which(items[0]) then 1 else 0) + CountItems(items[1..], which)
  }

  lemma {:induction false} CountsNone(items: seq<Item>, which: Item -> bool)
    ensures CountItems(items, which) == 0 <==> forall i :: 0 <= i < |items| ==> !which(items[i])
  {
    if items != [] {
      var rest := items[1..];
      CountsNone(rest, which);
      if forall i :: 0 <= i < |items| ==> !which(items[i]) {
        forall i | 0 <= i < |rest| ensures !which(rest[i]) {
          assert rest[i] == items[i + 1];
        }
      }
      forall i | 0 < i < |items| && CountItems(rest, which) == 0 ensures !which(items[i]) {
        assert items[i] == rest[i - 1];
      }
    }
  }

  lemma {:induction false} GatesAppend(a: seq<string>, b: seq<string>)
    ensures GateCommands(a + b) == GateCommands(a) + GateCommands(b)
  {
    if a == [] {
      assert a + b == b;
    } else {
      assert (a + b)[0] == a[0] && (a + b)[1..] == a[1..] + b;
      GatesAppend(a[1..], b);
    }
  }

  lemma OneGate(command: string)
    ensures GateCommands([command]) == if IsGate(command) then [command] else []
  {
    assert [command][1..] == [];
  }

  /** No tool begins with a dash or with the key. */
  lemma NoToolStartsSo(s: string)
    requires s != "" && (s[0] == '-' || RUN <= s)
    ensures !IsGate(s)
  {
    if HasToken(s) {
      var token := FirstToken(s);
      assert token[0] == s[0] && (|token| > 2 ==> token[2] == s[2]);
      assert RUN <= s ==> s[2] == RUN[2];
    }
  }

  lemma HeaderIsNoGate(indent: nat, dash: Option<nat>, gap: nat, content: string)
    requires content != "" && !IsSpace(content[|content| - 1])
    ensures !IsGate(Strip(Header(indent, dash, gap, content)))
  {
    var tail := RUN + (Spaces(gap) + content);
    assert tail[0] == 'r' && tail[|tail| - 1] == content[|content| - 1];
    assert RUN <= tail;
    DashedReads(dash, tail);
    StripIndented(indent, Dashed(dash, tail));
    NoToolStartsSo(Dashed(dash, tail));
  }

  lemma GatesAfterFirst(first: string, rest: seq<string>)
    requires !IsGate(first)
    ensures GateCommands([first] + rest) == GateCommands(rest)
  {
    OneGate(first);
    GatesAppend([first], rest);
  }

  /** What one swallowed item does to the roster. */
  lemma SwallowedGates(item: Item)
    requires Valid(item) && !item.Blank?
    ensures item.Plain? ==> SwallowedAs(item) == [item.text]
    ensures !item.Plain? ==>
            GateCommands(SwallowedAs(item)) == GateCommands(if item.Block? then BodyCommands(item.body) else [])
  {
    match item
    case Step(indent, dash, gap, command) =>
      HeaderIsNoGate(indent, dash, gap, command);
      GatesAfterFirst(Strip(Print(item)[0]), []);
    case Block(indent, dash, gap, marker, body) =>
      MarkersTrimmed(marker);
      HeaderIsNoGate(indent, dash, gap, marker);
      GatesAfterFirst(Strip(Print(item)[0]), BodyCommands(body));
    case Plain(indent, text) =>
      PlainReads(indent, text);
  }

  /** What it does to the number of gates, and when it does nothing at all. */
  lemma SwallowedDelta(item: Item)
    requires Valid(item) && !item.Blank?
    ensures |GateCommands(SwallowedAs(item))| + (if LosesGate(item) then 1 else 0)
         == |GateCommands(CommandsOf(item))| + (if AddsGate(item) then 1 else 0)
    ensures !LosesGate(item) && !AddsGate(item) ==> GateCommands(SwallowedAs(item)) == GateCommands(CommandsOf(item))
  {
    SwallowedGates(item);
    if item.Step? {
      OneGate(item.command);
    } else if item.Plain? {
      OneGate(item.text);
    }
  }

  /** The gates that are read, against those there are. */
  ghost predicate RosterMoves(read: seq<string>, written: seq<string>, swallowed: seq<Item>) {
    && |read| + CountItems(swallowed, LosesGate) == |written| + CountItems(swallowed, AddsGate)
    && (CountItems(swallowed, LosesGate) == CountItems(swallowed, AddsGate) == 0 ==> read == written)
  }

  lemma RosterAfterItem(own: seq<string>, parsed: seq<string>, expected: seq<string>, rest: seq<Item>)
    requires RosterMoves(GateCommands(parsed), GateCommands(expected), rest)
    ensures RosterMoves(GateCommands(own + parsed), GateCommands(own + expected), rest)
  {
    GatesAppend(own, parsed);
    GatesAppend(own, expected);
  }

  lemma RosterAfterSwallowed(item: Item, parsed: seq<string>, expected: seq<string>, rest: seq<Item>)
    requires Valid(item) && !item.Blank? && RosterMoves(GateCommands(parsed), GateCommands(expected), rest)
    ensures RosterMoves(GateCommands(SwallowedAs(item) + parsed), GateCommands(CommandsOf(item) + expected),
                        [item] + rest)
  {
    SwallowedDelta(item);
    GatesAppend(SwallowedAs(item), parsed);
    GatesAppend(CommandsOf(item), expected);
    assert ([item] + rest)[1..] == rest;
  }

  lemma RosterWhenSwallowed(items: seq<Item>, block: nat)
    requires items != [] && Valid(items[0]) && !items[0].Blank? && items[0].indent > block
    requires RosterMoves(GateCommands(Parse(PrintAll(items[1..]), Some(block))), GateCommands(Commands(items[1..])),
                         Swallowed(items[1..], Some(block)))
    ensures RosterMoves(GateCommands(Parse(PrintAll(items), Some(block))), GateCommands(Commands(items)),
                        Swallowed(items, Some(block)))
  {
    var item, rest := items[0], PrintAll(items[1..]);
    ItemSwallowed(item, rest, block);
    RosterAfterSwallowed(item, Parse(rest, Some(block)), Commands(items[1..]), Swallowed(items[1..], Some(block)));
    assert Swallowed(items, Some(block)) == [item] + Swallowed(items[1..], Some(block));
  }

  lemma RosterWhenRead(items: seq<Item>, block: Option<nat>, next: Option<nat>)
    requires items != [] && Valid(items[0]) && !items[0].Blank? && !(block.Some? && items[0].indent > block.value)
    requires next == if items[0].Block? then Some(items[0].indent) else None
    requires RosterMoves(GateCommands(Parse(PrintAll(items[1..]), next)), GateCommands(Commands(items[1..])),
                         Swallowed(items[1..], next))
    ensures RosterMoves(GateCommands(Parse(PrintAll(items), block)), GateCommands(Commands(items)),
                        Swallowed(items, block))
  {
    var item, rest := items[0], PrintAll(items[1..]);
    ItemReadRight(item, rest, block);
    RosterAfterItem(CommandsOf(item), Parse(rest, next), Commands(items[1..]), Swallowed(items[1..], next));
    assert Swallowed(items, block) == Swallowed(items[1..], next);
  }

  lemma {:induction false} RosterOfLines(items: seq<Item>, block: Option<nat>)
    requires forall i :: 0 <= i < |items| ==> Valid(items[i])
    ensures RosterMoves(GateCommands(Parse(PrintAll(items), block)), GateCommands(Commands(items)),
                        Swallowed(items, block))
    decreases |items|
  {
    if items == [] {
      assert Parse([], block) == [];
    } else if items[0].Blank? {
      BlankRead(items[0].spaces, PrintAll(items[1..]), block);
      RosterOfLines(items[1..], block);
      assert Commands(items) == Commands(items[1..]);
    } else if block.Some? && items[0].indent > block.value {
      RosterOfLines(items[1..], block);
      RosterWhenSwallowed(items, block.value);
    } else {
      var next := if items[0].Block? then Some(items[0].indent) else None;
      RosterOfLines(items[1..], next);
      RosterWhenRead(items, block, next);
    }
  }

  /**
   Swallowed keys rarely matter to the roster. The gates that are read are as many as
   there are, less the swallowed steps that invoke a tool, plus the swallowed plain lines
   that begin with one; when swallowed items do only one of the two, the roster is right
   exactly when they do neither.
   */
  lemma RosterIsRightExactlyWhen(items: seq<Item>)
    requires forall i :: 0 <= i < |items| ==> Valid(items[i])
    ensures var read, written, swallowed := GateCommands(Parse(SplitLines(JoinLines(PrintAll(items))), None)),
                                         GateCommands(Commands(items)), Swallowed(items, None);
            var lost, added := CountItems(swallowed, LosesGate), CountItems(swallowed, AddsGate);
            |read| + lost == |written| + added && (lost == 0 || added == 0 ==> (read == written <==> lost == added))
  {
    PrintedUnbroken(items);
    SplitJoined(PrintAll(items));
    RosterOfLines(items, None);
  }

  /** In particular it is right when no swallowed item is a step, or a plain line, that begins with a tool. */
  lemma RosterSurvives(items: seq<Item>)
    requires forall i :: 0 <= i < |items| ==> Valid(items[i])
    requires forall i :: 0 <= i < |Swallowed(items, None)| ==>
               !LosesGate(Swallowed(items, None)[i]) && !AddsGate(Swallowed(items, None)[i])
    ensures GateCommands(Parse(SplitLines(JoinLines(PrintAll(items))), None)) == GateCommands(Commands(items))
  {
    CountsNone(Swallowed(items, None), LosesGate);
    CountsNone(Swallowed(items, None), AddsGate);
    RosterIsRightExactlyWhen(items);
  }

  // ------------------------------------------------------------------
  // What the patterns match
  // ------------------------------------------------------------------

  /** A line boundary, as `splitlines` takes them. */
  predicate IsLineEnd(end: string) {
    end == "\r\n" || (|end| == 1 && end[0] as int in {10, 11, 12, 13, 28, 29, 30, 0x85, 0x2028, 0x2029})
  }

  lemma {:induction false} FirstBreakIs(line: string, c: char, rest: string)
    requires Unbroken(line) && IsBreak(c)
    ensures FirstBreak(line + [c] + rest) == |line|
  {
    var s := line + [c] + rest;
    if line == "" {
      assert s[0] == c;
    } else {
      assert s[0] == line[0] && s[1..] == line[1..] + [c] + rest;
      FirstBreakIs(line[1..], c, rest);
    }
  }

  lemma EndsAtOne(line: string, c: char, rest: string)
    requires Unbroken(line) && IsBreak(c) && !(c == '\r' && rest != "" && rest[0] == '\n')
    ensures SplitLines(line + [c] + rest) == [line] + SplitLines(rest)
  {
    var s := line + [c] + rest;
    FirstBreakIs(line, c, rest);
    assert s[..|line|] == line && s[|line|] == c && s[|line| + 1..] == rest;
    assert |line| + 1 < |s| ==> s[|line| + 1] == rest[0];
  }

  lemma EndsAtTwo(line: string, rest: string)
    requires Unbroken(line)
    ensures SplitLines(line + ['\r'] + (['\n'] + rest)) == [line] + SplitLines(rest)
  {
    var s := line + ['\r'] + (['\n'] + rest);
    FirstBreakIs(line, '\r', ['\n'] + rest);
    assert s[..|line|] == line && s[|line|] == '\r';
    assert s[|line| + 1] == '\n' && s[|line| + 2..] == rest;
  }

  /** A line ends at the first boundary; a carriage return and the newline after it are one. */
  lemma LineEndsAtBoundary(line: string, end: string, rest: string)
    requires Unbroken(line) && IsLineEnd(end) && !(end == "\r" && rest != "" && rest[0] == '\n')
    ensures SplitLines(line + end + rest) == [line] + SplitLines(rest)
  {
    if end == "\r\n" {
      EndsAtTwo(line, rest);
      assert line + end + rest == line + ['\r'] + (['\n'] + rest);
    } else {
      assert end == [end[0]];
      EndsAtOne(line, end[0], rest);
    }
  }

  /** What is not a boundary is part of the line. */
  lemma {:induction false} LastLineStays(line: string)
    requires line != "" && forall i :: 0 <= i < |line| ==> !IsLineEnd([line[i]])
    ensures SplitLines(line) == [line]
  {
    forall i | 0 <= i < |line| ensures !IsBreak(line[i]) {
      assert !IsLineEnd([line[i]]);
    }
    if FirstBreak(line) < |line| {
      assert false;
    }
  }

  /** `run:` at the start of a line, whitespace and a dash with whitespace behind it aside, and what follows. */
  ghost predicate RunsWith(line: string, tail: string) {
    exists before, dash, between ::
      && AllSpaces(before) && AllSpaces(between) && (dash == "-" || (dash == "" && between == ""))
      && line == before + (dash + (between + ("run:" + tail)))
  }

  lemma LStripLeaves(s: string) returns (before: string)
    ensures s == before + LStrip(s) && AllSpaces(before)
  {
    before := s[..LeadingSpaces(s)];
  }

  lemma DashIsDropped(dash: string, between: string, key: string)
    requires AllSpaces(between) && (dash == "-" || (dash == "" && between == ""))
    requires key != "" && !IsSpace(key[0]) && key[0] != '-'
    ensures var rest := dash + (between + key); AfterDash(rest) == key && !IsSpace(rest[0])
  {
    var rest := dash + (between + key);
    LStripCuts(between, key);
    if dash == "-" {
      assert rest[0] == '-' && rest[1..] == between + key;
    } else {
      assert rest == key;
    }
  }

  lemma RunsWithIsRead(line: string, tail: string)
    requires RunsWith(line, tail)
    ensures RunTail(line) == Some(tail)
  {
    var before, dash, between :|
      && AllSpaces(before) && AllSpaces(between) && (dash == "-" || (dash == "" && between == ""))
      && line == before + (dash + (between + ("run:" + tail)));
    var key := "run:" + tail;
    var rest := dash + (between + key);
    assert key[0] == 'r' && key[..4] == RUN && key[4..] == tail;
    DashIsDropped(dash, between, key);
    LStripCuts(before, rest);
  }

  lemma RunIsRunsWith(line: string)
    requires RunTail(line).Some?
    ensures RunsWith(line, RunTail(line).value)
  {
    var before := LStripLeaves(line);
    var rest, tail := LStrip(line), RunTail(line).value;
    var key := AfterDash(rest);
    assert key == "run:" + tail;
    if rest != "" && rest[0] == '-' {
      var between := LStripLeaves(rest[1..]);
      assert rest == "-" + (between + ("run:" + tail));
      assert line == before + ("-" + (between + ("run:" + tail)));
    } else {
      assert rest == "" + ("" + ("run:" + tail));
      assert line == before + ("" + ("" + ("run:" + tail)));
    }
  }

  /** The key of a step, and what follows it. */
  lemma RunTailMeans(line: string, tail: string)
    ensures RunTail(line) == Some(tail) <==> RunsWith(line, tail)
  {
    if RunTail(line) == Some(tail) {
      RunIsRunsWith(line);
    }
    if RunsWith(line, tail) {
      RunsWithIsRead(line, tail);
    }
  }

  /** A bar or an arrow, a sign or none, and whitespace. */
  ghost predicate Marks(mark: string, sign: string, after: string) {
    && AllSpaces(after) && (mark == "|" || mark == ">") && (sign == "" || sign == "+" || sign == "-")
  }

  ghost predicate BlockMark(tail: string) {
    exists before, mark, sign, after ::
      AllSpaces(before) && Marks(mark, sign, after) && tail == before + (mark + (sign + after))
  }

  lemma BlankMeans(s: string)
    ensures LStrip(s) == "" <==> AllSpaces(s)
  {
    if AllSpaces(s) {
      LStripCuts(s, "");
      assert s + "" == s;
    }
  }

  /** The mark itself, the whitespace before it taken off. */
  predicate IsMarkAndBlank(r: string) {
    && r != "" && (r[0] == '|' || r[0] == '>')
    && LStrip(if r[1..] != "" && (r[1..][0] == '+' || r[1..][0] == '-') then r[1..][1..] else r[1..]) == ""
  }

  lemma MarkIsRead(mark: string, sign: string, after: string)
    requires Marks(mark, sign, after)
    ensures IsMarkAndBlank(mark + (sign + after))
  {
    var r := mark + (sign + after);
    assert r[0] == mark[0] && r[1..] == sign + after;
    BlankMeans(after);
    if sign != "" {
      assert (sign + after)[0] == sign[0] && (sign + after)[1..] == after;
    } else {
      assert sign + after == after && (after != "" ==> IsSpace(after[0]));
    }
  }

  lemma BlockMarkIsRead(tail: string)
    requires BlockMark(tail)
    ensures IsBlockTail(tail)
  {
    var before, mark, sign, after :|
      AllSpaces(before) && Marks(mark, sign, after) && tail == before + (mark + (sign + after));
    MarkIsRead(mark, sign, after);
    LStripCuts(before, mark + (sign + after));
  }

  lemma MarkIsMark(r: string) returns (mark: string, sign: string, after: string)
    requires IsMarkAndBlank(r)
    ensures Marks(mark, sign, after) && r == mark + (sign + after)
  {
    var more := r[1..];
    mark := r[..1];
    if more != "" && (more[0] == '+' || more[0] == '-') {
      sign, after := more[..1], more[1..];
    } else {
      sign, after := "", more;
    }
    BlankMeans(after);
    assert more == sign + after;
  }

  lemma BlockTailIsMark(tail: string)
    requires IsBlockTail(tail)
    ensures BlockMark(tail)
  {
    var before := LStripLeaves(tail);
    var mark, sign, after := MarkIsMark(LStrip(tail));
    assert Marks(mark, sign, after) && tail == before + (mark + (sign + after));
  }

  /** The mark that opens a block. */
  lemma BlockTailMeans(tail: string)
    ensures IsBlockTail(tail) <==> BlockMark(tail)
  {
    if IsBlockTail(tail) {
      BlockTailIsMark(tail);
    }
    if BlockMark(tail) {
      BlockMarkIsRead(tail);
    }
  }

  /** The command is the tool, by itself or with whitespace after it. */
  predicate Invokes(command: string, tool: string) {
    tool <= command && (|command| == |tool| || IsSpace(command[|tool|]))
  }

  lemma {:induction false} TokenIs(command: string, tool: string)
    requires HasToken(command) && tool != "" && forall i :: 0 <= i < |tool| ==> !IsSpace(tool[i])
    ensures FirstToken(command) == tool <==> Invokes(command, tool)
  {
    var token := FirstToken(command);
    if Invokes(command, tool) {
      assert |token| <= |tool| by {
        assert |tool| < |command| ==> IsSpace(command[|tool|]);
        assert forall i :: 0 <= i < |token| ==> token[i] == command[i];
      }
      assert |token| >= |tool| by {
        assert forall i :: 0 <= i < |tool| ==> tool[i] == command[i];
      }
      assert token == command[..|token|] && tool == command[..|tool|];
    }
  }

  ghost function InvokesATool(): string -> bool {
    command => Invokes(command, "ruff") || Invokes(command, "mypy")
  }

  lemma InvokedHasToken(command: string, tool: string)
    requires tool != "" && !IsSpace(tool[0])
    ensures Invokes(command, tool) ==> HasToken(command)
  {
    if Invokes(command, tool) {
      assert command[0] == tool[0];
    }
  }

  lemma GateMeans(command: string)
    ensures IsGate(command) <==> Invokes(command, "ruff") || Invokes(command, "mypy")
  {
    InvokedHasToken(command, "ruff");
    InvokedHasToken(command, "mypy");
    if HasToken(command) {
      TokenIs(command, "ruff");
      TokenIs(command, "mypy");
    }
  }

  /** The roster is the commands that invoke one of the two pinned tools, in order. */
  lemma {:induction false} GatesMean(commands: seq<string>)
    ensures GateCommands(commands) == Keep(commands, InvokesATool())
  {
    if commands != [] {
      GateMeans(commands[0]);
      GatesMean(commands[1..]);
    }
  }
}
