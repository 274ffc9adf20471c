/**
 The audit's classification of except handlers, in its two modes: only a literal
 `raise` excuses a handler, or calls that are known to raise or exit do as well.
 */
module FallbackAudit {
  import opened Common
  import opened Text
  import opened SyntaxTree
  import opened ExceptVisitor

  const EMPTY_RETURNS: set<string> := {"[]", "None", "{}", "0", "0.0", "False", "\"\"", "''", "()"}
  const LOG_METHODS: set<string> := {"debug", "info", "warning", "warn", "error", "exception", "critical"}
  const STACK_ABORT_PATHS: set<string> := {
    "sys.exit", "os._exit", "typer.Exit", "click.Abort", "click.exceptions.Abort", "pytest.exit", "pytest.fail"
  }
  const STACK_ABORT_BARE: set<string> := {"_exit"}

  datatype CatchKind = Bare | CatchException | CatchBaseException | Specific
  datatype Pattern = JustPass | ReturnEmpty | LogReturnEmpty | LogOnly | OtherBody
  datatype Bucket = Defect | Graceful | Guard | TestOnly

  datatype Remark =
    | IntentionalSwallow | SilentPass | ConventionalSignal | LogsThenEmpty | EmptyNoSignal
    | BestEffort | LikelyGuard

  /** A note for whoever reads the report: the broad-catch prefix, a default remark, or both joined. */
  datatype Note = NoNote | Broad(kind: CatchKind) | Plain(remark: Remark) | BroadAnd(kind: CatchKind, remark: Remark)

  datatype Finding = Finding(line: nat, pattern: Pattern, catches: CatchKind, functionName: Option<string>,
                             bucket: Bucket, note: Note)

  /** The file under audit: its path, and how an expression is written back as text. */
  datatype File = File(relpath: string, unparse: Ast -> string)

  // ------------------------------------------------------------------
  // Names and calls
  // ------------------------------------------------------------------

  /** A name, or an attribute chain spelled with dots. */
  function Dotted(n: Ast): Option<string> {
    match n
    case Name(id) => Some(id)
    case Attribute(base, attr) =>
      var d := Dotted(base);
      if d.Some? then Some(d.value + "." + attr) else None
    case _ => None
  }

  /** The collected parts, last first, each behind a dot. */
  function Suffix(parts: seq<string>): string {
    if parts == [] then "" else Suffix(parts[1..]) + "." + parts[0]
  }

  /** The parts reversed and joined by dots. */
  function JoinReversed(parts: seq<string>): string
    requires parts != []
  {
    if |parts| == 1 then parts[0] else JoinReversed(parts[1..]) + "." + parts[0]
  }

  lemma {:induction false} JoinReversedLast(parts: seq<string>, last: string)
    ensures JoinReversed(parts + [last]) == last + Suffix(parts)
    decreases |parts|
  {
    if parts == [] {
      assert parts + [last] == [last];
    } else {
      assert (parts + [last])[0] == parts[0] && (parts + [last])[1..] == parts[1..] + [last];
      JoinReversedLast(parts[1..], last);
      assert last + Suffix(parts[1..]) + "." + parts[0] == last + (Suffix(parts[1..]) + "." + parts[0]);
    }
  }

  lemma {:induction false} SuffixLast(parts: seq<string>, last: string)
    ensures Suffix(parts + [last]) == "." + last + Suffix(parts)
    decreases |parts|
  {
    if parts == [] {
      assert parts + [last] == [last] && [last][1..] == [];
    } else {
      assert (parts + [last])[0] == parts[0] && (parts + [last])[1..] == parts[1..] + [last];
      SuffixLast(parts[1..], last);
    }
  }

  /** Walks the attribute chain from its end, collecting the parts backwards. */
  method DottedName(node: Ast) returns (name: Option<string>)
    ensures name == Dotted(node)
  {
    var parts: seq<string> := [];
    var current := node;
    if Dotted(node).Some? {
      assert Dotted(node).value + Suffix(parts) == Dotted(node).value;
    }
    while current.Attribute?
      invariant Dotted(node) == if Dotted(current).Some? then Some(Dotted(current).value + Suffix(parts)) else None
      decreases Size(current)
    {
      SuffixLast(parts, current.attr);
      if Dotted(current.base).Some? {
        var d := Dotted(current.base).value;
        assert d + "." + current.attr + Suffix(parts) == d + ("." + current.attr + Suffix(parts));
      }
      parts := parts + [current.attr];
      current := current.base;
    }
    if current.Name? {
      JoinReversedLast(parts, current.id);
      return Some(JoinReversed(parts + [current.id]));
    }
    return None;
  }

  /** The segment after the last dot. */
  function Tail(name: string): string {
    if name == "" then "" else if '.' in name[1..] then Tail(name[1..]) else if name[0] == '.' then name[1..] else name
  }

  /** Letters, digits and the underscore; characters past ASCII count as letters. */
  predicate IsWordChar(c: char) {
    'a' <= c <= 'z' || 'A' <= c <= 'Z' || '0' <= c <= '9' || c == '_' || c as int >= 128
  }

  predicate MatchesRaise(s: string) {
    "raise_" <= s && |s| > 6 && forall i :: 6 <= i < |s| ==> IsWordChar(s[i])
  }

  /** The `raise_*` and `_raise_*` naming convention. */
  predicate IsRaiseName(s: string) {
    MatchesRaise(s) || (s != "" && s[0] == '_' && MatchesRaise(s[1..]))
  }

  predicate IsNoReturn(annotation: Option<Ast>) {
    annotation.Some? && Dotted(annotation.value).Some? &&
    var name := Dotted(annotation.value).value;
    name == "NoReturn" || (|name| >= 9 && name[|name| - 9..] == ".NoReturn")
  }

  predicate EndsInRaise(body: seq<Ast>) {
    body != [] && body[|body| - 1].Raise?
  }

  predicate IsRaisingFunction(n: Ast) {
    n.FunctionDef? && (EndsInRaise(n.body) || IsNoReturn(n.annotation) || IsRaiseName(n.name))
  }

  function RaisingHelpers(stmts: seq<Ast>): set<string> {
    set n | n in stmts && IsRaisingFunction(n) :: n.name
  }

  /** The module-level functions known to raise. */
  method BuildRaisingHelpers(stmts: seq<Ast>) returns (helpers: set<string>)
    ensures helpers == RaisingHelpers(stmts)
  {
    helpers := {};
    var i := 0;
    while i < |stmts|
      invariant i <= |stmts|
      invariant helpers == set n | n in stmts[..i] && IsRaisingFunction(n) :: n.name
    {
      assert stmts[..i + 1] == stmts[..i] + [stmts[i]];
      if IsRaisingFunction(stmts[i]) {
        helpers := helpers + {stmts[i].name};
      }
      i := i + 1;
    }
    assert stmts[..i] == stmts;
  }

  predicate IsStackAbort(call: Ast)
    requires call.Call?
  {
    var name := Dotted(call.func);
    name.Some? && (name.value in STACK_ABORT_PATHS || name.value in STACK_ABORT_BARE)
  }

  predicate IsHelperRaise(call: Ast, helpers: set<string>)
    requires call.Call?
  {
    var name := Dotted(call.func);
    name.Some? && (Tail(name.value) in helpers || IsRaiseName(Tail(name.value)))
  }

  // ------------------------------------------------------------------
  // One handler
  // ------------------------------------------------------------------

  predicate Reraises(body: seq<Ast>) {
    var below := WalkAll(body);
    exists i :: 0 <= i < |below| && below[i].Raise?
  }

  /** A recognised call that raises or leaves the process, anywhere in the body. */
  predicate CallsAway(body: seq<Ast>, helpers: set<string>) {
    var below := WalkAll(body);
    exists i :: 0 <= i < |below| && below[i].Call? && (IsStackAbort(below[i]) || IsHelperRaise(below[i], helpers))
  }

  predicate Aborts(body: seq<Ast>, helpers: set<string>, literalOnly: bool) {
    Reraises(body) || (!literalOnly && CallsAway(body, helpers))
  }

  function KindOfCatch(file: File, catches: Option<Ast>): CatchKind {
    if catches.None? then Bare
    else
      var text := file.unparse(catches.value);
      if text == "Exception" then CatchException else if text == "BaseException" then CatchBaseException else Specific
  }

  predicate IsEmptyReturn(file: File, stmt: Ast) {
    stmt.Return? && (stmt.value.None? || Strip(file.unparse(stmt.value.value)) in EMPTY_RETURNS)
  }

  predicate IsLogging(stmt: Ast) {
    stmt.ExprStmt? && stmt.expr.Call? &&
    var func := stmt.expr.func;
    if func.Attribute? then Lower(func.attr) in LOG_METHODS else func == Name("print")
  }

  predicate AllLogging(stmts: seq<Ast>) {
    forall i :: 0 <= i < |stmts| ==> IsLogging(stmts[i])
  }

  function PatternOf(file: File, body: seq<Ast>): Pattern {
    var n := |body|;
    if n == 1 && body[0].Pass? then JustPass
    else if n == 1 && IsEmptyReturn(file, body[0]) then ReturnEmpty
    else if n >= 2 && IsEmptyReturn(file, body[n - 1]) && AllLogging(body[..n - 1]) then LogReturnEmpty
    else if n > 0 && AllLogging(body) then LogOnly
    else OtherBody
  }

  predicate IsTryOrMaybe(name: Option<string>) {
    name.Some? && ("try_" <= name.value || "maybe_" <= name.value || "_try_" <= name.value || "_maybe_" <= name.value)
  }

  predicate IsTest(relpath: string) {
    Contains(relpath, "tests/") || "tests" <= relpath
  }

  /** The bucket and note of a handler that swallows; none when its body aborts. */
  function BucketFor(file: File, pattern: Pattern, kind: CatchKind, body: seq<Ast>, fn: Option<string>,
                     helpers: set<string>, literalOnly: bool)
    : (r: Option<(Bucket, Note)>)
    ensures r.None? <==> Aborts(body, helpers, literalOnly)
    ensures r.Some? ==> (r.value.0 == TestOnly <==> IsTest(file.relpath))
    ensures r.Some? && r.value.0 != TestOnly ==>
              (r.value.0 == Defect <==>
               if pattern.LogOnly? || pattern.OtherBody? then kind != Specific else !IsTryOrMaybe(fn))
    ensures r.Some? && r.value.0 != TestOnly ==> (r.value.0 == Guard <==> pattern.OtherBody? && kind == Specific)
  {
    if Aborts(body, helpers, literalOnly) then None
    else if IsTest(file.relpath) then Some((TestOnly, NoNote))
    else
      var broad := kind != Specific;
      match pattern
      case JustPass =>
        if IsTryOrMaybe(fn) then Some((Graceful, if broad then Broad(kind) else Plain(IntentionalSwallow)))
        else Some((Defect, if broad then Broad(kind) else Plain(SilentPass)))
      case ReturnEmpty =>
        if IsTryOrMaybe(fn) then Some((Graceful, if broad then Broad(kind) else Plain(ConventionalSignal)))
        else Some((Defect, if broad then BroadAnd(kind, EmptyNoSignal) else Plain(EmptyNoSignal)))
      case LogReturnEmpty =>
        if IsTryOrMaybe(fn) then Some((Graceful, if broad then Broad(kind) else Plain(ConventionalSignal)))
        else Some((Defect, if broad then BroadAnd(kind, LogsThenEmpty) else Plain(LogsThenEmpty)))
      case LogOnly => if broad then Some((Defect, Broad(kind))) else Some((Graceful, Plain(BestEffort)))
      case OtherBody => if broad then Some((Defect, Broad(kind))) else Some((Guard, Plain(LikelyGuard)))
  }

  function FindingFor(file: File, e: Entry, helpers: set<string>, literalOnly: bool): Option<Finding>
    requires e.0.ExceptHandler?
  {
    var kind, pattern := KindOfCatch(file, e.0.catches), PatternOf(file, e.0.handles);
    var verdict := BucketFor(file, pattern, kind, e.0.handles, e.1, helpers, literalOnly);
    if verdict.None? then None
    else Some(Finding(e.0.line, pattern, kind, e.1, verdict.value.0, verdict.value.1))
  }

  // ------------------------------------------------------------------
  // A file
  // ------------------------------------------------------------------

  ghost predicate AllHandlers(entries: seq<Entry>) {
    forall i :: 0 <= i < |entries| ==> entries[i].0.ExceptHandler?
  }

  /** One finding per handler that is not excused, in the order recorded. */
  function Findings(file: File, entries: seq<Entry>, helpers: set<string>, literalOnly: bool): seq<Finding>
    requires AllHandlers(entries)
  {
    if entries == [] then []
    else
      var f := FindingFor(file, entries[0], helpers, literalOnly);
      (if f.Some? then [f.value] else []) + Findings(file, entries[1..], helpers, literalOnly)
  }

  lemma RecordedAreHandlers(n: Ast, env: Option<string>)
    ensures AllHandlers(Handlers(n, env))
  {
    forall i | 0 <= i < |Handlers(n, env)| ensures Handlers(n, env)[i].0.ExceptHandler? {
      var path := RecordedOnlyThose(n, env, Handlers(n, env)[i]);
    }
  }

  lemma FindingsStep(file: File, entries: seq<Entry>, helpers: set<string>, literalOnly: bool, i: nat,
                     before: seq<Finding>)
    requires AllHandlers(entries) && i < |entries|
    ensures var f := FindingFor(file, entries[i], helpers, literalOnly);
            before + Findings(file, entries[i..], helpers, literalOnly) ==
            (before + if f.Some? then [f.value] else []) + Findings(file, entries[i + 1..], helpers, literalOnly)
  {
    assert entries[i..][0] == entries[i] && entries[i..][1..] == entries[i + 1..];
  }

  method CollectFindings(file: File, entries: seq<Entry>, helpers: set<string>, literalOnly: bool)
    returns (findings: seq<Finding>)
    requires AllHandlers(entries)
    ensures findings == Findings(file, entries, helpers, literalOnly)
  {
    findings := [];
    var i := 0;
    while i < |entries|
      invariant i <= |entries|
      invariant findings + Findings(file, entries[i..], helpers, literalOnly)
             == Findings(file, entries, helpers, literalOnly)
    {
      FindingsStep(file, entries, helpers, literalOnly, i, findings);
      var f := FindingFor(file, entries[i], helpers, literalOnly);
      findings := findings + if f.Some? then [f.value] else [];
      i := i + 1;
    }
  }

  /** Scans one parsed file. */
  method ScanFile(file: File, stmts: seq<Ast>, literalOnly: bool) returns (findings: seq<Finding>)
    ensures AllHandlers(Handlers(Module(stmts), None))
    ensures findings == Findings(file, Handlers(Module(stmts), None),
                                 if literalOnly then {} else RaisingHelpers(stmts), literalOnly)
  {
    var helpers: set<string> := {};
    if !literalOnly {
      helpers := BuildRaisingHelpers(stmts);
    }
    var visitor := new Visitor();
    visitor.Visit(Module(stmts));
    assert visitor.handlers == Handlers(Module(stmts), None);
    RecordedAreHandlers(Module(stmts), None);
    findings := CollectFindings(file, visitor.handlers, helpers, literalOnly);
  }

  // ------------------------------------------------------------------
  // The two modes
  // ------------------------------------------------------------------

  /** The entries whose body makes no recognised call. */
  function Unexcused(entries: seq<Entry>, helpers: set<string>): seq<Entry>
    requires AllHandlers(entries)
  {
    if entries == [] then []
    else (if CallsAway(entries[0].0.handles, helpers) then [] else [entries[0]]) + Unexcused(entries[1..], helpers)
  }

  lemma {:induction false} UnexcusedAreHandlers(entries: seq<Entry>, helpers: set<string>)
    requires AllHandlers(entries)
    ensures AllHandlers(Unexcused(entries, helpers))
  {
    if entries != [] {
      UnexcusedAreHandlers(entries[1..], helpers);
    }
  }

  lemma {:induction false} FindingsAppend(file: File, a: seq<Entry>, b: seq<Entry>, helpers: set<string>,
                                          literalOnly: bool)
    requires AllHandlers(a) && AllHandlers(b)
    ensures Findings(file, a + b, helpers, literalOnly)
         == Findings(file, a, helpers, literalOnly) + Findings(file, b, helpers, literalOnly)
  {
    if a == [] {
      assert a + b == b;
    } else {
      assert (a + b)[0] == a[0] && (a + b)[1..] == a[1..] + b;
      FindingsAppend(file, a[1..], b, helpers, literalOnly);
    }
  }

  /** Apart from the recognised calls the two modes judge a handler alike. */
  lemma ModesAgree(file: File, e: Entry, helpers: set<string>)
    requires e.0.ExceptHandler?
    ensures FindingFor(file, e, helpers, false) ==
            if CallsAway(e.0.handles, helpers) then None else FindingFor(file, e, {}, true)
  {
  }

  /**
   The helper-aware findings are the literal-only findings of the handlers that make
   no recognised call: same order, same bucket, pattern and note.
   */
  lemma {:induction false} AwareIsLiteralFiltered(file: File, entries: seq<Entry>, helpers: set<string>)
    requires AllHandlers(entries)
    ensures AllHandlers(Unexcused(entries, helpers))
    ensures Findings(file, entries, helpers, false) == Findings(file, Unexcused(entries, helpers), {}, true)
  {
    UnexcusedAreHandlers(entries, helpers);
    if entries != [] {
      var head := if CallsAway(entries[0].0.handles, helpers) then [] else [entries[0]];
      var rest := Unexcused(entries[1..], helpers);
      UnexcusedAreHandlers(entries[1..], helpers);
      AwareIsLiteralFiltered(file, entries[1..], helpers);
      ModesAgree(file, entries[0], helpers);
      FindingsAppend(file, head, rest, {}, true);
      assert head != [] ==> head[1..] == [];
    }
  }

  /** `a` can be got from `b` by leaving elements out. */
  predicate Subsequence(a: seq<Finding>, b: seq<Finding>)
    decreases |b|
  {
    if a == [] then true
    else if b == [] then false
    else (a[0] == b[0] && Subsequence(a[1..], b[1..])) || Subsequence(a, b[1..])
  }

  lemma {:induction false} SubsequenceKeep(x: seq<Finding>, a: seq<Finding>, b: seq<Finding>)
    requires |x| <= 1 && Subsequence(a, b)
    ensures Subsequence(x + a, x + b)
  {
    if x == [] {
      assert x + a == a && x + b == b;
    } else {
      assert (x + a)[0] == (x + b)[0] == x[0] && (x + a)[1..] == a && (x + b)[1..] == b;
    }
  }

  lemma SubsequenceDrop(x: seq<Finding>, a: seq<Finding>, b: seq<Finding>)
    requires |x| <= 1 && Subsequence(a, b)
    ensures Subsequence(a, x + b)
  {
    if x == [] {
      assert x + b == b;
    } else {
      assert (x + b)[1..] == b;
    }
  }

  lemma CallsAwayMore(body: seq<Ast>, helpers: set<string>, more: set<string>)
    requires helpers <= more && CallsAway(body, helpers)
    ensures CallsAway(body, more)
  {
    var below := WalkAll(body);
    var i :| 0 <= i < |below| && below[i].Call? && (IsStackAbort(below[i]) || IsHelperRaise(below[i], helpers));
    assert IsStackAbort(below[i]) || IsHelperRaise(below[i], more);
  }

  /** Recognising more helpers only removes findings. */
  lemma {:induction false} MoreHelpersFewerFindings(file: File, entries: seq<Entry>, helpers: set<string>,
                                                    more: set<string>)
    requires AllHandlers(entries) && helpers <= more
    ensures Subsequence(Findings(file, entries, more, false), Findings(file, entries, helpers, false))
  {
    if entries != [] {
      MoreHelpersFewerFindings(file, entries[1..], helpers, more);
      var e := entries[0];
      ModesAgree(file, e, helpers);
      ModesAgree(file, e, more);
      var f := FindingFor(file, e, helpers, false);
      var x := if f.Some? then [f.value] else [];
      if CallsAway(e.0.handles, helpers) {
        CallsAwayMore(e.0.handles, helpers, more);
      }
      var a, b := Findings(file, entries[1..], more, false), Findings(file, entries[1..], helpers, false);
      if CallsAway(e.0.handles, more) {
        SubsequenceDrop(x, a, b);
        assert [] + a == a;
      } else {
        SubsequenceKeep(x, a, b);
      }
    }
  }

  /** Turning helper awareness on for a file only removes findings. */
  lemma {:induction false} AwareOnlyRemoves(file: File, entries: seq<Entry>, helpers: set<string>)
    requires AllHandlers(entries)
    ensures Subsequence(Findings(file, entries, helpers, false), Findings(file, entries, {}, true))
  {
    if entries != [] {
      AwareOnlyRemoves(file, entries[1..], helpers);
      var e := entries[0];
      ModesAgree(file, e, helpers);
      var f := FindingFor(file, e, {}, true);
      var x := if f.Some? then [f.value] else [];
      var a, b := Findings(file, entries[1..], helpers, false), Findings(file, entries[1..], {}, true);
      if CallsAway(e.0.handles, helpers) {
        SubsequenceDrop(x, a, b);
        assert [] + a == a;
      } else {
        SubsequenceKeep(x, a, b);
      }
    }
  }
}
