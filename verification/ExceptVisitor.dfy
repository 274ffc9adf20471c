/** The visitor that records every except handler with the function around it. */
module ExceptVisitor {
  import opened Common
  import opened SyntaxTree

  /** A handler and its innermost enclosing function, if any. */
  type Entry = (Ast, Option<string>)

  /** The environment-passing definition: the enclosing function is a parameter. */
  function Handlers(n: Ast, env: Option<string>): seq<Entry>
    decreases Size(n), 1
  {
    ChildrenSmaller(n);
    match n
    case FunctionDef(name, _, _, _, _) => HandlersAll(Children(n), Some(name))
    case ExceptHandler(_, _, _) => [(n, env)] + HandlersAll(Children(n), env)
    case _ => HandlersAll(Children(n), env)
  }

  function HandlersAll(ns: seq<Ast>, env: Option<string>): seq<Entry>
    decreases SizeAll(ns), 2 + |ns|
  {
    if ns == [] then [] else Handlers(ns[0], env) + HandlersAll(ns[1..], env)
  }

  lemma VisitStep(before: seq<Entry>, ns: seq<Ast>, i: nat, env: Option<string>)
    requires i < |ns|
    ensures before + HandlersAll(ns[i..], env) == (before + Handlers(ns[i], env)) + HandlersAll(ns[i + 1..], env)
  {
    assert ns[i..][0] == ns[i] && ns[i..][1..] == ns[i + 1..];
  }

  function Top(stack: seq<string>): Option<string> {
    if stack == [] then None else Some(stack[|stack| - 1])
  }

  class Visitor {
    var handlers: seq<Entry>
    var functionStack: seq<string>

    constructor ()
      ensures handlers == [] && functionStack == []
    {
      handlers, functionStack := [], [];
    }

    /** Appends the handlers below `n`, and leaves the stack as it found it. */
    method Visit(n: Ast)
      modifies this
      ensures handlers == old(handlers) + Handlers(n, Top(old(functionStack)))
      ensures functionStack == old(functionStack)
      decreases Size(n), 1
    {
      if n.FunctionDef? {
        VisitFunction(n);
      } else if n.ExceptHandler? {
        VisitExceptHandler(n);
      } else {
        GenericVisit(n);
      }
    }

    method VisitFunction(n: Ast)
      requires n.FunctionDef?
      modifies this
      ensures handlers == old(handlers) + HandlersAll(Children(n), Some(n.name))
      ensures functionStack == old(functionStack)
      decreases Size(n), 0, 1
    {
      functionStack := functionStack + [n.name];
      GenericVisit(n);
      functionStack := functionStack[..|functionStack| - 1];
    }

    method VisitExceptHandler(n: Ast)
      requires n.ExceptHandler?
      modifies this
      ensures handlers == old(handlers) + ([(n, Top(old(functionStack)))]
                                           + HandlersAll(Children(n), Top(old(functionStack))))
      ensures functionStack == old(functionStack)
      decreases Size(n), 0, 1
    {
      handlers := handlers + [(n, Top(functionStack))];
      GenericVisit(n);
    }

    method GenericVisit(n: Ast)
      modifies this
      ensures handlers == old(handlers) + HandlersAll(Children(n), Top(old(functionStack)))
      ensures functionStack == old(functionStack)
      decreases Size(n), 0, 0
    {
      var ns := Children(n);
      var i := 0;
      ChildrenSmaller(n);
      while i < |ns|
        invariant i <= |ns| && functionStack == old(functionStack)
        invariant handlers + HandlersAll(ns[i..], Top(old(functionStack)))
               == old(handlers) + HandlersAll(ns, Top(old(functionStack)))
      {
        MemberSmaller(ns, i);
        VisitStep(handlers, ns, i, Top(functionStack));
        Visit(ns[i]);
        i := i + 1;
      }
    }
  }

  // ------------------------------------------------------------------
  // Every handler once, in pre-order
  // ------------------------------------------------------------------

  function Nodes(entries: seq<Entry>): seq<Ast> {
    if entries == [] then [] else [entries[0].0] + Nodes(entries[1..])
  }

  function OnlyHandlers(ns: seq<Ast>): seq<Ast> {
    if ns == [] then [] else (if ns[0].ExceptHandler? then [ns[0]] else []) + OnlyHandlers(ns[1..])
  }

  lemma {:induction false} NodesAppend(a: seq<Entry>, b: seq<Entry>)
    ensures Nodes(a + b) == Nodes(a) + Nodes(b)
  {
    if a == [] {
      assert a + b == b;
    } else {
      assert (a + b)[0] == a[0] && (a + b)[1..] == a[1..] + b;
      NodesAppend(a[1..], b);
    }
  }

  lemma {:induction false} OnlyHandlersAppend(a: seq<Ast>, b: seq<Ast>)
    ensures OnlyHandlers(a + b) == OnlyHandlers(a) + OnlyHandlers(b)
  {
    if a == [] {
      assert a + b == b;
    } else {
      assert (a + b)[0] == a[0] && (a + b)[1..] == a[1..] + b;
      OnlyHandlersAppend(a[1..], b);
    }
  }

  /** The recorded handlers are the handlers of the tree, each once and in pre-order. */
  lemma {:induction false} RecordedInPreOrder(n: Ast, env: Option<string>)
    ensures Nodes(Handlers(n, env)) == OnlyHandlers(Walk(n))
    decreases Size(n), 1
  {
    ChildrenSmaller(n);
    var inner := if n.FunctionDef? then Some(n.name) else env;
    RecordedInPreOrderAll(Children(n), inner);
    var below := HandlersAll(Children(n), inner);
    if n.ExceptHandler? {
      NodesAppend([(n, env)], below);
      assert [(n, env)][1..] == [];
    }
    OnlyHandlersAppend([n], WalkAll(Children(n)));
    assert [n][1..] == [];
  }

  lemma {:induction false} RecordedInPreOrderAll(ns: seq<Ast>, env: Option<string>)
    ensures Nodes(HandlersAll(ns, env)) == OnlyHandlers(WalkAll(ns))
    decreases SizeAll(ns), 2 + |ns|
  {
    if ns != [] {
      RecordedInPreOrder(ns[0], env);
      RecordedInPreOrderAll(ns[1..], env);
      NodesAppend(Handlers(ns[0], env), HandlersAll(ns[1..], env));
      OnlyHandlersAppend(Walk(ns[0]), WalkAll(ns[1..]));
    }
  }

  // ------------------------------------------------------------------
  // The innermost enclosing function
  // ------------------------------------------------------------------

  /** The path from `n` down child positions leads to `target`. */
  ghost predicate LeadsTo(n: Ast, path: seq<nat>, target: Ast)
    decreases |path|
  {
    if path == [] then n == target
    else path[0] < |Children(n)| && LeadsTo(Children(n)[path[0]], path[1..], target)
  }

  /** The names of the functions strictly above the end of a path, outermost first. */
  ghost function FunctionsAbove(n: Ast, path: seq<nat>): seq<string>
    decreases |path|
  {
    if path == [] || path[0] >= |Children(n)| then []
    else (if n.FunctionDef? then [n.name] else []) + FunctionsAbove(Children(n)[path[0]], path[1..])
  }

  /** The last function above, or the one outside. */
  ghost function Innermost(above: seq<string>, outside: Option<string>): Option<string> {
    if above == [] then outside else Some(above[|above| - 1])
  }

  lemma InnermostStep(n: Ast, path: seq<nat>, env: Option<string>)
    requires path != [] && path[0] < |Children(n)|
    ensures Innermost(FunctionsAbove(n, path), env) ==
            Innermost(FunctionsAbove(Children(n)[path[0]], path[1..]), if n.FunctionDef? then Some(n.name) else env)
  {
  }

  lemma BelowRecorded(n: Ast, env: Option<string>, e: Entry)
    requires e in HandlersAll(Children(n), if n.FunctionDef? then Some(n.name) else env)
    ensures e in Handlers(n, env)
  {
  }

  lemma {:induction false} MemberRecorded(ns: seq<Ast>, env: Option<string>, i: nat)
    requires i < |ns|
    ensures forall e :: e in Handlers(ns[i], env) ==> e in HandlersAll(ns, env)
    decreases |ns|
  {
    if i > 0 {
      MemberRecorded(ns[1..], env, i - 1);
    }
  }

  /** Each handler anywhere in the tree is recorded with the innermost function above it. */
  lemma {:induction false} RecordedWithInnermost(n: Ast, env: Option<string>, path: seq<nat>, h: Ast)
    requires LeadsTo(n, path, h) && h.ExceptHandler?
    ensures (h, Innermost(FunctionsAbove(n, path), env)) in Handlers(n, env)
    decreases |path|
  {
    if path != [] {
      var i, inner := path[0], if n.FunctionDef? then Some(n.name) else env;
      var e := (h, Innermost(FunctionsAbove(n, path), env));
      InnermostStep(n, path, env);
      RecordedWithInnermost(Children(n)[i], inner, path[1..], h);
      MemberRecorded(Children(n), inner, i);
      BelowRecorded(n, env, e);
    }
  }

  lemma {:induction false} WhichChild(ns: seq<Ast>, env: Option<string>, e: Entry) returns (i: nat)
    requires e in HandlersAll(ns, env)
    ensures i < |ns| && e in Handlers(ns[i], env)
    decreases |ns|
  {
    if e in Handlers(ns[0], env) {
      i := 0;
    } else {
      i := WhichChild(ns[1..], env, e);
      i := i + 1;
    }
  }

  /** Nothing else is recorded: every entry is a handler of the tree, with the innermost function above it. */
  lemma {:induction false} RecordedOnlyThose(n: Ast, env: Option<string>, e: Entry) returns (path: seq<nat>)
    requires e in Handlers(n, env)
    ensures LeadsTo(n, path, e.0) && e.0.ExceptHandler? && e.1 == Innermost(FunctionsAbove(n, path), env)
    decreases Size(n)
  {
    if n.ExceptHandler? && e == (n, env) {
      path := [];
    } else {
      ChildrenSmaller(n);
      var inner := if n.FunctionDef? then Some(n.name) else env;
      assert e in HandlersAll(Children(n), inner);
      var i := WhichChild(Children(n), inner, e);
      MemberSmaller(Children(n), i);
      var below := RecordedOnlyThose(Children(n)[i], inner, e);
      path := [i] + below;
      assert path[1..] == below;
    }
  }
}
