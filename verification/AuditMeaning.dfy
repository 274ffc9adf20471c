/**
 What the audit's tests mean: which calls and functions abort, which bodies have which
 shape, and what a finding says of its handler.
 */
module AuditMeaning {
  import opened Common
  import opened Text
  import opened SyntaxTree
  import opened ExceptVisitor
  import opened TreeMeaning
  import opened FallbackAudit

  // ------------------------------------------------------------------
  // Names
  // ------------------------------------------------------------------

  ghost predicate NoDot(s: string) {
    '.' !in s
  }

  /** The last segment of a dotted name has no dot, and what stands before it ends in one. */
  lemma {:induction false} TailMeans(name: string)
    ensures NoDot(Tail(name)) && (Tail(name) == name || exists before :: name == before + "." + Tail(name))
  {
    if name != "" {
      var rest := name[1..];
      TailMeans(rest);
      if '.' in rest {
        if Tail(rest) == rest {
          assert false;
        }
        var before :| rest == before + "." + Tail(rest);
        assert name == ([name[0]] + before) + "." + Tail(name);
      } else if name[0] == '.' {
        assert name == "" + "." + rest;
      }
    }
  }

  ghost predicate AllWordChars(s: string) {
    forall i :: 0 <= i < |s| ==> IsWordChar(s[i])
  }

  /** `raise_` and at least one more character of a word, with or without an underscore in front. */
  ghost predicate SpellsRaise(name: string) {
    exists rest :: rest != "" && AllWordChars(rest) && (name == "raise_" + rest || name == "_raise_" + rest)
  }

  lemma MatchesRaiseMeans(s: string)
    ensures MatchesRaise(s) <==> exists rest :: rest != "" && AllWordChars(rest) && s == "raise_" + rest
  {
    if MatchesRaise(s) {
      var rest := s[6..];
      assert s == "raise_" + rest;
      assert forall i :: 0 <= i < |rest| ==> rest[i] == s[i + 6];
    }
    if rest :| rest != "" && AllWordChars(rest) && s == "raise_" + rest {
      assert s[..6] == "raise_";
      assert forall i :: 6 <= i < |s| ==> s[i] == rest[i - 6];
    }
  }

  lemma RaiseNameMeans(name: string)
    ensures IsRaiseName(name) <==> SpellsRaise(name)
  {
    MatchesRaiseMeans(name);
    if name != "" && name[0] == '_' {
      MatchesRaiseMeans(name[1..]);
      assert forall rest :: name == "_raise_" + rest ==> name[1..] == "raise_" + rest;
      assert forall rest :: name[1..] == "raise_" + rest ==> name == ['_'] + ("raise_" + rest) == "_raise_" + rest;
    }
    assert forall rest :: name == "_raise_" + rest ==> name[0] == '_';
  }

  /** The dot before a segment without dots is the last one. */
  lemma LastDot(a: string, x: string)
    requires NoDot(x)
    ensures var s := a + "." + x; s[|a|] == '.' && forall k :: |a| < k < |s| ==> s[k] != '.'
  {
    var s := a + "." + x;
    assert forall k :: |a| < k < |s| ==> s[k] == x[k - |a| - 1];
  }

  lemma SameLastSegment(a: string, x: string, b: string, y: string)
    requires NoDot(x) && NoDot(y) && a + "." + x == b + "." + y
    ensures x == y
  {
    var s := a + "." + x;
    LastDot(a, x);
    LastDot(b, y);
    assert s == b + "." + y && |a| == |b|;
    assert x == s[|a| + 1..] == y;
  }

  lemma AttributeNoReturn(base: string, attr: string)
    requires NoDot(attr)
    ensures var name := base + "." + attr;
            name == "NoReturn" || (|name| >= 9 && name[|name| - 9..] == ".NoReturn") <==> attr == "NoReturn"
  {
    var name := base + "." + attr;
    LastDot(base, attr);
    if |name| >= 9 && name[|name| - 9..] == ".NoReturn" {
      assert name == name[..|name| - 9] + "." + "NoReturn";
      SameLastSegment(base, attr, name[..|name| - 9], "NoReturn");
    }
    if attr == "NoReturn" {
      assert name[|name| - 9..] == "." + attr;
    }
  }

  /** The annotation names `NoReturn`, by itself or as the last part of a dotted name; identifiers hold no dot. */
  lemma NoReturnMeans(annotation: Option<Ast>)
    requires annotation.Some? && annotation.value.Name? ==> NoDot(annotation.value.id)
    requires annotation.Some? && annotation.value.Attribute? ==> NoDot(annotation.value.attr)
    ensures IsNoReturn(annotation) <==>
            annotation.Some? &&
            (annotation.value == Name("NoReturn")
             || (annotation.value.Attribute? && annotation.value.attr == "NoReturn"
                 && Dotted(annotation.value.base).Some?))
  {
    if annotation.Some? {
      match annotation.value
      case Name(id) =>
        assert |id| >= 9 ==> id[|id| - 9] == id[|id| - 9..][0];
        assert ".NoReturn"[0] == '.';
      case Attribute(base, attr) =>
        if Dotted(base).Some? {
          AttributeNoReturn(Dotted(base).value, attr);
        }
      case _ =>
    }
  }

  // ------------------------------------------------------------------
  // Bodies that abort
  // ------------------------------------------------------------------

  /** A call that leaves the process, by its full name. */
  ghost predicate LeavesProcess(call: Ast)
    requires call.Call?
  {
    var name := Dotted(call.func);
    name == Some("sys.exit") || name == Some("os._exit") || name == Some("typer.Exit") || name == Some("click.Abort")
    || name == Some("click.exceptions.Abort") || name == Some("pytest.exit") || name == Some("pytest.fail")
    || name == Some("_exit")
  }

  /** A call of a function known to raise, or named as one, however it is qualified. */
  ghost predicate CallsRaiser(call: Ast, helpers: set<string>)
    requires call.Call?
  {
    exists name, last ::
      && Dotted(call.func) == Some(name) && NoDot(last)
      && (name == last || exists before :: name == before + "." + last)
      && (last in helpers || SpellsRaise(last))
  }

  lemma LastSegment(name: string, last: string)
    requires NoDot(last) && (name == last || exists before :: name == before + "." + last)
    ensures Tail(name) == last
  {
    TailMeans(name);
    if name != last {
      var before :| name == before + "." + last;
      assert name[|before|] == '.';
      assert '.' in name;
      if Tail(name) == name {
        assert false;
      }
      var b :| name == b + "." + Tail(name);
      SameLastSegment(before, last, b, Tail(name));
    } else {
      forall b ensures '.' in b + "." + Tail(name) {
        assert (b + "." + Tail(name))[|b|] == '.';
      }
    }
  }

  lemma CallMeans(call: Ast, helpers: set<string>)
    requires call.Call?
    ensures IsStackAbort(call) <==> LeavesProcess(call)
    ensures IsHelperRaise(call, helpers) <==> CallsRaiser(call, helpers)
  {
    var dotted := Dotted(call.func);
    if dotted.Some? {
      var name := dotted.value;
      TailMeans(name);
      RaiseNameMeans(Tail(name));
      forall last | NoDot(last) && (name == last || exists before :: name == before + "." + last)
        ensures last == Tail(name)
      {
        LastSegment(name, last);
      }
    }
  }

  /**
   A body is excused exactly when a raise is anywhere inside it or, unless only those
   count, a call that leaves the process or calls something known to raise.
   */
  lemma AbortsExactlyWhen(body: seq<Ast>, helpers: set<string>, literalOnly: bool)
    ensures Aborts(body, helpers, literalOnly) <==>
            || (exists x :: InsideAny(x, body) && x.Raise?)
            || (!literalOnly
                && exists x :: InsideAny(x, body) && x.Call? && (LeavesProcess(x) || CallsRaiser(x, helpers)))
  {
    var below := WalkAll(body);
    forall x ensures x in below <==> InsideAny(x, body) {
      WalkAllFinds(body, x);
    }
    forall x | x in below && x.Call?
      ensures IsStackAbort(x) || IsHelperRaise(x, helpers) <==> LeavesProcess(x) || CallsRaiser(x, helpers)
    {
      CallMeans(x, helpers);
    }
    forall i | 0 <= i < |below| ensures below[i] in below {
    }
  }

  /** The functions known to raise: of the module's own level, by last statement, annotation or name. */
  lemma HelpersMean(stmts: seq<Ast>, name: string)
    ensures name in RaisingHelpers(stmts) <==>
            exists k :: 0 <= k < |stmts| && stmts[k].FunctionDef? && stmts[k].name == name &&
              ((stmts[k].body != [] && stmts[k].body[|stmts[k].body| - 1].Raise?)
               || IsNoReturn(stmts[k].annotation) || SpellsRaise(name))
  {
    RaiseNameMeans(name);
    forall k | 0 <= k < |stmts| ensures stmts[k] in stmts {
    }
  }

  // ------------------------------------------------------------------
  // The shape of a body
  // ------------------------------------------------------------------

  predicate SpellsEmpty(core: string) {
    core == "[]" || core == "None" || core == "{}" || core == "0" || core == "0.0" || core == "False"
    || core == "\"\"" || core == "''" || core == "()"
  }

  /** One of nine empty values, whitespace around it aside. */
  ghost predicate WritesEmpty(text: string) {
    exists before, core, after ::
      AllSpaces(before) && AllSpaces(after) && text == before + core + after && SpellsEmpty(core)
  }

  /** A return of nothing, or of an empty value as it is written back. */
  ghost predicate ReturnsEmpty(file: File, stmt: Ast) {
    stmt.Return? && (stmt.value.None? || WritesEmpty(file.unparse(stmt.value.value)))
  }

  lemma SpellsEmptyMeans(core: string)
    ensures SpellsEmpty(core) <==> core in EMPTY_RETURNS
    ensures SpellsEmpty(core) ==> core != "" && !IsSpace(core[0]) && !IsSpace(core[|core| - 1])
  {
  }

  lemma WritesEmptyMeans(text: string)
    ensures Strip(text) in EMPTY_RETURNS <==> WritesEmpty(text)
  {
    SpellsEmptyMeans(Strip(text));
    if SpellsEmpty(Strip(text)) {
      var before, after := StripLeaves(text);
    }
    if before, core, after :|
      AllSpaces(before) && AllSpaces(after) && text == before + core + after && SpellsEmpty(core) {
      SpellsEmptyMeans(core);
      StripCuts(before, core, after);
    }
  }

  lemma ReturnsEmptyMeans(file: File, stmt: Ast)
    ensures IsEmptyReturn(file, stmt) <==> ReturnsEmpty(file, stmt)
  {
    if stmt.Return? && stmt.value.Some? {
      WritesEmptyMeans(file.unparse(stmt.value.value));
    }
  }

  /** A statement that only calls a method named as one of seven log levels in any case, or `print`. */
  ghost predicate OnlyLogs(stmt: Ast) {
    stmt.ExprStmt? && stmt.expr.Call? &&
    ((stmt.expr.func.Attribute? &&
      var level := Lower(stmt.expr.func.attr);
      level == "debug" || level == "info" || level == "warning" || level == "warn" || level == "error"
      || level == "exception" || level == "critical")
     || stmt.expr.func == Name("print"))
  }

  ghost predicate AllOnlyLog(stmts: seq<Ast>) {
    forall i :: 0 <= i < |stmts| ==> OnlyLogs(stmts[i])
  }

  /** Each shape, told from the statements; a body has the first that fits. */
  lemma PatternMeans(file: File, body: seq<Ast>)
    ensures PatternOf(file, body) == JustPass <==> body == [Pass]
    ensures PatternOf(file, body) == ReturnEmpty <==> |body| == 1 && ReturnsEmpty(file, body[0])
    ensures PatternOf(file, body) == LogReturnEmpty <==>
            |body| >= 2 && ReturnsEmpty(file, body[|body| - 1]) && AllOnlyLog(body[..|body| - 1])
    ensures PatternOf(file, body) == LogOnly <==> body != [] && AllOnlyLog(body)
  {
    forall i | 0 <= i < |body| ensures IsEmptyReturn(file, body[i]) <==> ReturnsEmpty(file, body[i]) {
      ReturnsEmptyMeans(file, body[i]);
    }
    forall i | 0 <= i < |body| ensures IsLogging(body[i]) <==> OnlyLogs(body[i]) {
    }
    assert AllLogging(body) <==> AllOnlyLog(body);
    if |body| >= 2 {
      var front := body[..|body| - 1];
      assert forall i :: 0 <= i < |front| ==> front[i] == body[i];
      assert AllLogging(front) <==> AllOnlyLog(front);
      assert ReturnsEmpty(file, body[|body| - 1]) ==> !OnlyLogs(body[|body| - 1]);
    }
  }

  // ------------------------------------------------------------------
  // The finding
  // ------------------------------------------------------------------

  /** Named as one that is expected to come back empty-handed. */
  predicate MayFail(fn: Option<string>) {
    fn.Some? && ("try_" <= fn.value || "maybe_" <= fn.value || "_try_" <= fn.value || "_maybe_" <= fn.value)
  }

  /** What is caught, from the text of the clause. */
  predicate CatchIs(file: File, catches: Option<Ast>, kind: CatchKind) {
    match kind
    case Bare => catches.None?
    case CatchException => catches.Some? && file.unparse(catches.value) == "Exception"
    case CatchBaseException => catches.Some? && file.unparse(catches.value) == "BaseException"
    case Specific =>
      catches.Some? && file.unparse(catches.value) != "Exception" && file.unparse(catches.value) != "BaseException"
  }

  /** What a finding may say beside its bucket: a broad catch is named, and the other remarks tell buckets apart. */
  ghost predicate NoteFits(f: Finding) {
    if f.bucket == TestOnly then f.note == NoNote
    else if f.catches == Specific then
      f.note == Plain(match f.pattern
                      case JustPass => if f.bucket == Graceful then IntentionalSwallow else SilentPass
                      case ReturnEmpty => if f.bucket == Graceful then ConventionalSignal else EmptyNoSignal
                      case LogReturnEmpty => if f.bucket == Graceful then ConventionalSignal else LogsThenEmpty
                      case LogOnly => BestEffort
                      case OtherBody => LikelyGuard)
    else
      f.note == if f.bucket == Defect && f.pattern == ReturnEmpty then BroadAnd(f.catches, EmptyNoSignal)
                else if f.bucket == Defect && f.pattern == LogReturnEmpty then BroadAnd(f.catches, LogsThenEmpty)
                else Broad(f.catches)
  }

  /**
   A handler has a finding exactly when its body is not excused. The finding has its
   line and function, what it catches and the shape of its body. A file of tests has its
   own bucket. Elsewhere a silent pass or empty return is graceful where the function is
   named for it and a defect where it is not; anything else is a defect when it catches
   broadly, and otherwise graceful if it only logs and a guard if it does more.
   */
  lemma FindingMeans(file: File, e: Entry, helpers: set<string>, literalOnly: bool)
    requires e.0.ExceptHandler?
    ensures FindingFor(file, e, helpers, literalOnly).None? <==> Aborts(e.0.handles, helpers, literalOnly)
    ensures FindingFor(file, e, helpers, literalOnly).Some? ==>
              var f := FindingFor(file, e, helpers, literalOnly).value;
              && f.line == e.0.line && f.functionName == e.1
              && f.pattern == PatternOf(file, e.0.handles) && CatchIs(file, e.0.catches, f.catches)
              && NoteFits(f)
              && f.bucket ==
                 if Contains(file.relpath, "tests/") || "tests" <= file.relpath then TestOnly
                 else if f.pattern in {JustPass, ReturnEmpty, LogReturnEmpty} then
                   (if MayFail(e.1) then Graceful else Defect)
                 else if f.catches != Specific then Defect
                 else if f.pattern == LogOnly then Graceful else Guard
  {
  }
}
