/** The syntax trees the fallback audit walks, their children in visiting order, and the nodes below one. */
module SyntaxTree {
  import opened Common

  /** Only the node kinds the audit tells apart; any other node is its children. */
  datatype Ast =
    | Module(stmts: seq<Ast>)
    | FunctionDef(name: string, args: seq<Ast>, body: seq<Ast>, decorators: seq<Ast>, annotation: Option<Ast>)
    | ExceptHandler(catches: Option<Ast>, handles: seq<Ast>, line: nat)
    | Raise(parts: seq<Ast>)
    | Return(value: Option<Ast>)
    | Pass
    | ExprStmt(expr: Ast)
    | Call(func: Ast, operands: seq<Ast>)
    | Attribute(base: Ast, attr: string)
    | Name(id: string)
    | Other(children: seq<Ast>)

  function Optional(n: Option<Ast>): seq<Ast> {
    if n.Some? then [n.value] else []
  }

  /** The children in field order, as a generic visit takes them. */
  function Children(n: Ast): seq<Ast> {
    match n
    case Module(stmts) => stmts
    case FunctionDef(_, args, body, decorators, annotation) => args + body + decorators + Optional(annotation)
    case ExceptHandler(catches, handles, _) => Optional(catches) + handles
    case Raise(parts) => parts
    case Return(value) => Optional(value)
    case Pass => []
    case ExprStmt(expr) => [expr]
    case Call(func, operands) => [func] + operands
    case Attribute(base, _) => [base]
    case Name(_) => []
    case Other(children) => children
  }

  function OptionalSize(n: Option<Ast>): nat
    decreases n, 0
  {
    match n
    case None => 0
    case Some(a) => Size(a)
  }

  function Size(n: Ast): nat
    decreases n, 1
  {
    1 + match n
        case Module(stmts) => SizeAll(stmts)
        case FunctionDef(_, args, body, decorators, annotation) =>
          SizeAll(args) + SizeAll(body) + SizeAll(decorators) + OptionalSize(annotation)
        case ExceptHandler(catches, handles, _) => OptionalSize(catches) + SizeAll(handles)
        case Raise(parts) => SizeAll(parts)
        case Return(value) => OptionalSize(value)
        case Pass => 0
        case ExprStmt(expr) => Size(expr)
        case Call(func, operands) => Size(func) + SizeAll(operands)
        case Attribute(base, _) => Size(base)
        case Name(_) => 0
        case Other(children) => SizeAll(children)
  }

  function SizeAll(ns: seq<Ast>): nat
    decreases ns, 0
  {
    if ns == [] then 0 else Size(ns[0]) + SizeAll(ns[1..])
  }

  lemma {:induction false} SizeAppend(a: seq<Ast>, b: seq<Ast>)
    ensures SizeAll(a + b) == SizeAll(a) + SizeAll(b)
    decreases |a|
  {
    if a == [] {
      assert a + b == b;
    } else {
      assert (a + b)[0] == a[0] && (a + b)[1..] == a[1..] + b;
      SizeAppend(a[1..], b);
    }
  }

  lemma OptionalSizes(n: Option<Ast>)
    ensures SizeAll(Optional(n)) == OptionalSize(n)
  {
    if n.Some? {
      assert [n.value][1..] == [];
    }
  }

  /** The children are smaller than the node, all together. */
  lemma ChildrenSmaller(n: Ast)
    ensures SizeAll(Children(n)) < Size(n)
  {
    match n
    case FunctionDef(_, args, body, decorators, annotation) =>
      SizeAppend(args + body + decorators, Optional(annotation));
      SizeAppend(args + body, decorators);
      SizeAppend(args, body);
      OptionalSizes(annotation);
    case ExceptHandler(catches, handles, _) =>
      SizeAppend(Optional(catches), handles);
      OptionalSizes(catches);
    case Return(value) => OptionalSizes(value);
    case ExprStmt(expr) => assert [expr][1..] == [];
    case Call(func, operands) =>
      SizeAppend([func], operands);
      assert [func][1..] == [];
    case Attribute(base, _) => assert [base][1..] == [];
    case _ =>
  }

  lemma {:induction false} MemberSmaller(ns: seq<Ast>, i: nat)
    requires i < |ns|
    ensures Size(ns[i]) <= SizeAll(ns)
    decreases |ns|
  {
    if i > 0 {
      MemberSmaller(ns[1..], i - 1);
    }
  }

  /** The node and everything below it, parents before children. */
  function Walk(n: Ast): seq<Ast>
    decreases Size(n), 1
  {
    ChildrenSmaller(n);
    [n] + WalkAll(Children(n))
  }

  function WalkAll(ns: seq<Ast>): seq<Ast>
    decreases SizeAll(ns), 2 + |ns|
  {
    if ns == [] then [] else Walk(ns[0]) + WalkAll(ns[1..])
  }
}
