/**
 What lies below a node, field by field: the walk finds exactly that, the visitor
 records exactly the handlers of it, and both go through the fields in their order.
 */
module TreeMeaning {
  import opened Common
  import opened SyntaxTree
  import opened ExceptVisitor

  // ------------------------------------------------------------------
  // Membership
  // ------------------------------------------------------------------

  /** `x` is the node or lies in one of its fields. */
  ghost predicate Inside(x: Ast, n: Ast)
    decreases n
  {
    x == n ||
    match n
    case Module(stmts) => InsideAny(x, stmts)
    case FunctionDef(_, args, body, decorators, annotation) =>
      || InsideAny(x, args)
      || InsideAny(x, body)
      || InsideAny(x, decorators)
      || (annotation.Some? && Inside(x, annotation.value))
    case ExceptHandler(catches, handles, _) =>
      (catches.Some? && Inside(x, catches.value)) || InsideAny(x, handles)
    case Raise(parts) => InsideAny(x, parts)
    case Return(value) => value.Some? && Inside(x, value.value)
    case Pass => false
    case ExprStmt(expr) => Inside(x, expr)
    case Call(func, operands) => Inside(x, func) || InsideAny(x, operands)
    case Attribute(base, _) => Inside(x, base)
    case Name(_) => false
    case Other(children) => InsideAny(x, children)
  }

  /** Anywhere inside one of the nodes. */
  ghost predicate InsideAny(x: Ast, ns: seq<Ast>)
    decreases ns
  {
    exists i :: 0 <= i < |ns| && Inside(x, ns[i])
  }

  /**
   The entry belongs to a handler in the node. A function puts its own name on what is
   in its fields; a handler has the name around it, and passes it on.
   */
  ghost predicate RecordedIn(e: Entry, n: Ast, env: Option<string>)
    decreases n
  {
    match n
    case Module(stmts) => RecordedInAny(e, stmts, env)
    case FunctionDef(name, args, body, decorators, annotation) =>
      || RecordedInAny(e, args, Some(name))
      || RecordedInAny(e, body, Some(name))
      || RecordedInAny(e, decorators, Some(name))
      || (annotation.Some? && RecordedIn(e, annotation.value, Some(name)))
    case ExceptHandler(catches, handles, _) =>
      || e == (n, env)
      || (catches.Some? && RecordedIn(e, catches.value, env))
      || RecordedInAny(e, handles, env)
    case Raise(parts) => RecordedInAny(e, parts, env)
    case Return(value) => value.Some? && RecordedIn(e, value.value, env)
    case Pass => false
    case ExprStmt(expr) => RecordedIn(e, expr, env)
    case Call(func, operands) =>
      RecordedIn(e, func, env) || RecordedInAny(e, operands, env)
    case Attribute(base, _) => RecordedIn(e, base, env)
    case Name(_) => false
    case Other(children) => RecordedInAny(e, children, env)
  }

  ghost predicate RecordedInAny(e: Entry, ns: seq<Ast>, env: Option<string>)
    decreases ns
  {
    exists i :: 0 <= i < |ns| && RecordedIn(e, ns[i], env)
  }

  // ------------------------------------------------------------------
  // Field by field, in order
  // ------------------------------------------------------------------

  lemma {:induction false} WalkAllAppend(a: seq<Ast>, b: seq<Ast>)
    ensures WalkAll(a + b) == WalkAll(a) + WalkAll(b)
    decreases |a|
  {
    if a == [] {
      assert a + b == b;
    } else {
      assert (a + b)[0] == a[0] && (a + b)[1..] == a[1..] + b;
      WalkAllAppend(a[1..], b);
    }
  }

  lemma WalkAllOne(n: Ast)
    ensures WalkAll([n]) == Walk(n)
  {
    assert [n][1..] == [];
  }

  function WalkOptional(n: Option<Ast>): seq<Ast> {
    if n.Some? then Walk(n.value) else []
  }

  lemma WalkAllOptional(n: Option<Ast>)
    ensures WalkAll(Optional(n)) == WalkOptional(n)
  {
    if n.Some? {
      WalkAllOne(n.value);
    }
  }

  /** The walk of a node is the node, then the walks of its fields in their order. */
  lemma WalkByField(n: Ast)
    ensures match n
            case Module(stmts) => Walk(n) == [n] + WalkAll(stmts)
            case FunctionDef(_, args, body, decorators, annotation) =>
              Walk(n) == [n] + (WalkAll(args) + WalkAll(body) + WalkAll(decorators) + WalkOptional(annotation))
            case ExceptHandler(catches, handles, _) => Walk(n) == [n] + (WalkOptional(catches) + WalkAll(handles))
            case Raise(parts) => Walk(n) == [n] + WalkAll(parts)
            case Return(value) => Walk(n) == [n] + WalkOptional(value)
            case Pass => Walk(n) == [n]
            case ExprStmt(expr) => Walk(n) == [n] + Walk(expr)
            case Call(func, operands) => Walk(n) == [n] + (Walk(func) + WalkAll(operands))
            case Attribute(base, _) => Walk(n) == [n] + Walk(base)
            case Name(_) => Walk(n) == [n]
            case Other(children) => Walk(n) == [n] + WalkAll(children)
  {
    match n
    case FunctionDef(_, args, body, decorators, annotation) =>
      WalkAllAppend(args + body + decorators, Optional(annotation));
      WalkAllAppend(args + body, decorators);
      WalkAllAppend(args, body);
      WalkAllOptional(annotation);
    case ExceptHandler(catches, handles, _) =>
      WalkAllAppend(Optional(catches), handles);
      WalkAllOptional(catches);
    case Return(value) => WalkAllOptional(value);
    case ExprStmt(expr) => WalkAllOne(expr);
    case Call(func, operands) =>
      WalkAllAppend([func], operands);
      WalkAllOne(func);
    case Attribute(base, _) => WalkAllOne(base);
    case _ =>
  }

  lemma {:induction false} HandlersAllAppend(a: seq<Ast>, b: seq<Ast>, env: Option<string>)
    ensures HandlersAll(a + b, env) == HandlersAll(a, env) + HandlersAll(b, env)
    decreases |a|
  {
    if a == [] {
      assert a + b == b;
    } else {
      assert (a + b)[0] == a[0] && (a + b)[1..] == a[1..] + b;
      HandlersAllAppend(a[1..], b, env);
    }
  }

  lemma HandlersAllOne(n: Ast, env: Option<string>)
    ensures HandlersAll([n], env) == Handlers(n, env)
  {
    assert [n][1..] == [];
  }

  function HandlersOptional(n: Option<Ast>, env: Option<string>): seq<Entry> {
    if n.Some? then Handlers(n.value, env) else []
  }

  lemma HandlersAllOptional(n: Option<Ast>, env: Option<string>)
    ensures HandlersAll(Optional(n), env) == HandlersOptional(n, env)
  {
    if n.Some? {
      HandlersAllOne(n.value, env);
    }
  }

  /**
   What the visitor records of a node: for a function what it records of the arguments,
   the body, the decorators and the annotation, under the function's name; for a handler
   its own entry, and then those of its type and its body; for others those of the
   fields, in their order.
   */
  lemma HandlersByField(n: Ast, env: Option<string>)
    ensures match n
            case Module(stmts) => Handlers(n, env) == HandlersAll(stmts, env)
            case FunctionDef(name, args, body, decorators, annotation) =>
              Handlers(n, env) == HandlersAll(args, Some(name)) + HandlersAll(body, Some(name))
                                  + HandlersAll(decorators, Some(name)) + HandlersOptional(annotation, Some(name))
            case ExceptHandler(catches, handles, _) =>
              Handlers(n, env) == [(n, env)] + (HandlersOptional(catches, env) + HandlersAll(handles, env))
            case Raise(parts) => Handlers(n, env) == HandlersAll(parts, env)
            case Return(value) => Handlers(n, env) == HandlersOptional(value, env)
            case Pass => Handlers(n, env) == []
            case ExprStmt(expr) => Handlers(n, env) == Handlers(expr, env)
            case Call(func, operands) => Handlers(n, env) == Handlers(func, env) + HandlersAll(operands, env)
            case Attribute(base, _) => Handlers(n, env) == Handlers(base, env)
            case Name(_) => Handlers(n, env) == []
            case Other(children) => Handlers(n, env) == HandlersAll(children, env)
  {
    match n
    case FunctionDef(name, args, body, decorators, annotation) =>
      HandlersAllAppend(args + body + decorators, Optional(annotation), Some(name));
      HandlersAllAppend(args + body, decorators, Some(name));
      HandlersAllAppend(args, body, Some(name));
      HandlersAllOptional(annotation, Some(name));
    case ExceptHandler(catches, handles, _) =>
      HandlersAllAppend(Optional(catches), handles, env);
      HandlersAllOptional(catches, env);
    case Return(value) => HandlersAllOptional(value, env);
    case ExprStmt(expr) => HandlersAllOne(expr, env);
    case Call(func, operands) =>
      HandlersAllAppend([func], operands, env);
      HandlersAllOne(func, env);
    case Attribute(base, _) => HandlersAllOne(base, env);
    case _ =>
  }

  // ------------------------------------------------------------------
  // Exactly what is inside
  // ------------------------------------------------------------------

  lemma {:induction false} WalkAllFinds(ns: seq<Ast>, x: Ast)
    ensures x in WalkAll(ns) <==> InsideAny(x, ns)
    decreases ns, 0
  {
    if ns != [] {
      WalkFinds(ns[0], x);
      WalkAllFinds(ns[1..], x);
      assert x in WalkAll(ns) <==> x in Walk(ns[0]) || x in WalkAll(ns[1..]);
      if i :| 0 <= i < |ns[1..]| && Inside(x, ns[1..][i]) {
        assert ns[i + 1] == ns[1..][i];
      }
      if i :| 0 <= i < |ns| && Inside(x, ns[i]) {
        assert i > 0 ==> ns[1..][i - 1] == ns[i];
      }
    }
  }

  /** The walk finds what is inside the node, and nothing else. */
  lemma {:induction false} WalkFinds(n: Ast, x: Ast)
    ensures x in Walk(n) <==> Inside(x, n)
    decreases n, 1
  {
    WalkByField(n);
    match n
    case Module(stmts) => WalkAllFinds(stmts, x);
    case FunctionDef(_, args, body, decorators, annotation) =>
      WalkAllFinds(args, x);
      WalkAllFinds(body, x);
      WalkAllFinds(decorators, x);
      if annotation.Some? { WalkFinds(annotation.value, x); }
    case ExceptHandler(catches, handles, _) =>
      if catches.Some? { WalkFinds(catches.value, x); }
      WalkAllFinds(handles, x);
    case Raise(parts) => WalkAllFinds(parts, x);
    case Return(value) => if value.Some? { WalkFinds(value.value, x); }
    case ExprStmt(expr) => WalkFinds(expr, x);
    case Call(func, operands) =>
      WalkFinds(func, x);
      WalkAllFinds(operands, x);
    case Attribute(base, _) => WalkFinds(base, x);
    case Other(children) => WalkAllFinds(children, x);
    case _ =>
  }

  lemma {:induction false} HandlersAllFind(ns: seq<Ast>, env: Option<string>, e: Entry)
    ensures e in HandlersAll(ns, env) <==> RecordedInAny(e, ns, env)
    decreases ns, 0
  {
    if ns != [] {
      HandlersFind(ns[0], env, e);
      HandlersAllFind(ns[1..], env, e);
      assert e in HandlersAll(ns, env) <==> e in Handlers(ns[0], env) || e in HandlersAll(ns[1..], env);
      if i :| 0 <= i < |ns[1..]| && RecordedIn(e, ns[1..][i], env) {
        assert ns[i + 1] == ns[1..][i];
      }
      if i :| 0 <= i < |ns| && RecordedIn(e, ns[i], env) {
        assert i > 0 ==> ns[1..][i - 1] == ns[i];
      }
    }
  }

  /** The visitor records the handlers inside the node, each under the right name, and nothing else. */
  lemma {:induction false} HandlersFind(n: Ast, env: Option<string>, e: Entry)
    ensures e in Handlers(n, env) <==> RecordedIn(e, n, env)
    decreases n, 1
  {
    HandlersByField(n, env);
    match n
    case Module(stmts) => HandlersAllFind(stmts, env, e);
    case FunctionDef(name, args, body, decorators, annotation) =>
      HandlersAllFind(args, Some(name), e);
      HandlersAllFind(body, Some(name), e);
      HandlersAllFind(decorators, Some(name), e);
      if annotation.Some? { HandlersFind(annotation.value, Some(name), e); }
    case ExceptHandler(catches, handles, _) =>
      if catches.Some? { HandlersFind(catches.value, env, e); }
      HandlersAllFind(handles, env, e);
    case Raise(parts) => HandlersAllFind(parts, env, e);
    case Return(value) => if value.Some? { HandlersFind(value.value, env, e); }
    case ExprStmt(expr) => HandlersFind(expr, env, e);
    case Call(func, operands) =>
      HandlersFind(func, env, e);
      HandlersAllFind(operands, env, e);
    case Attribute(base, _) => HandlersFind(base, env, e);
    case Other(children) => HandlersAllFind(children, env, e);
    case _ =>
  }
}
