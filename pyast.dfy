/** The subset of Python's syntax tree that feature extraction and lowering
    inspect. Trees are built by a parser outside this model; the field order
    of every constructor is the order in which Python's `ast` module lists the
    node's fields, so a walk over the children in field order is a walk in the
    order `ast.NodeVisitor.generic_visit` takes. */
module PyAst {

  /** Arithmetic operators of `ast.BinOp` and `ast.AugAssign`. `OtherOp`
      stands for every operator the lowerings do not name (`//`, `&`, `<<`, ...). */
  datatype BinOperator = Add | Sub | Mult | Div | Mod | Pow | OtherOp

  /** Comparison operators of `ast.Compare`. `OtherCmp` stands for `is`, `in`,
      `not in` and `is not`. */
  datatype CmpOperator = Eq | NotEq | Lt | LtE | Gt | GtE | OtherCmp

  /** The value of an `ast.Constant`: a string, or any other constant given by
      the text Python's `str()` renders for it (`42`, `0.1`, `True`, `None`). */
  datatype ConstValue = StrConst(s: string) | NumConst(text: string)

  datatype Node =
    | Module(body: seq<Node>)
    | FunctionDef(name: string, params: seq<string>, body: seq<Node>)
    | AsyncFunctionDef(name: string, params: seq<string>, body: seq<Node>)
    | ClassDef(name: string, body: seq<Node>)
    | For(loopVar: string, iter: Node, body: seq<Node>)
    | While(test: Node, body: seq<Node>)
    | If(test: Node, body: seq<Node>, orelse: seq<Node>)
    | Assign(target: Node, value: Node)
    | AugAssign(target: Node, op: BinOperator, value: Node)
    | Return(value: Node)
    | Expr(value: Node)
    | BinOp(left: Node, op: BinOperator, right: Node)
    | Compare(left: Node, cmp: CmpOperator, right: Node)
    | Call(func: Node, args: seq<Node>)
    | Name(id: string)
    | Attribute(value: Node, attr: string)
    | Constant(literal: ConstValue)
    | Subscript(value: Node, slice: Node)
    | JoinedStr(values: seq<Node>)
    | FormattedValue(value: Node)
    | Await(value: Node)
    | ListExpr(elts: seq<Node>)
      /** Any other node kind (`Pass`, a comprehension, `Lambda`, a bare
          `return`'s missing value, ...), with its child nodes in field order. */
    | Other(children: seq<Node>)

  /** The callee name the feature extractor reads off a call: `f` for `f(...)`,
      `m` for `x.m(...)`, and the empty string for anything else. */
  function CalleeName(func: Node): string
  {
    match func
    case Name(id) => id
    case Attribute(_, attr) => attr
    case _ => ""
  }

  /** The child nodes `ast.NodeVisitor.generic_visit` visits, in field order.
      A `for` loop's target is a plain name and contributes nothing. */
  function Children(n: Node): seq<Node>
  {
    match n
    case Module(body) => body
    case FunctionDef(_, _, body) => body
    case AsyncFunctionDef(_, _, body) => body
    case ClassDef(_, body) => body
    case For(_, iter, body) => [iter] + body
    case While(test, body) => [test] + body
    case If(test, body, orelse) => [test] + body + orelse
    case Assign(target, value) => [target, value]
    case AugAssign(target, _, value) => [target, value]
    case Return(value) => [value]
    case Expr(value) => [value]
    case BinOp(left, _, right) => [left, right]
    case Compare(left, _, right) => [left, right]
    case Call(func, args) => [func] + args
    case Name(_) => []
    case Attribute(value, _) => [value]
    case Constant(_) => []
    case Subscript(value, slice) => [value, slice]
    case JoinedStr(values) => values
    case FormattedValue(value) => [value]
    case Await(value) => [value]
    case ListExpr(elts) => elts
    case Other(children) => children
  }

  /** An expression node (as opposed to a statement or a module). */
  predicate IsExpressionKind(n: Node)
  {
    n.BinOp? || n.Compare? || n.Call? || n.Name? || n.Attribute? || n.Constant?
    || n.Subscript? || n.JoinedStr? || n.FormattedValue? || n.Await? || n.ListExpr?
  }

  /** A tree made of expression nodes only: no statement occurs in it. */
  predicate Expression(n: Node)
    decreases Size(n), 0
  {
    ChildrenSize(n);
    IsExpressionKind(n) && Expressions(Children(n))
  }

  predicate Expressions(ss: seq<Node>)
    decreases SizeList(ss), 1
  {
    ss == [] || (Expressions(ss[..|ss| - 1]) && Expression(ss[|ss| - 1]))
  }

  /** The children of a node are, together, one node smaller than it; this is
      what makes a walk over `Children` terminate. */
  lemma ChildrenSize(n: Node)
    ensures SizeList(Children(n)) + 1 == Size(n)
  {
    StatementChildrenSize(n);
    ExpressionChildrenSize(n);
  }

  lemma {:induction false} StatementChildrenSize(n: Node)
    ensures !IsExpressionKind(n) ==> SizeList(Children(n)) + 1 == Size(n)
  {
    match n
    case For(_, iter, body) => SizeListCons(iter, body);
    case While(test, body) => SizeListCons(test, body);
    case If(test, body, orelse) =>
      SizeListCons(test, body);
      SizeListConcat([test] + body, orelse);
    case Assign(target, value) => SizeListTwo(target, value);
    case AugAssign(target, _, value) => SizeListTwo(target, value);
    case Return(value) => SizeListOne(value);
    case Expr(value) => SizeListOne(value);
    case _ =>
  }

  lemma {:induction false} ExpressionChildrenSize(n: Node)
    ensures IsExpressionKind(n) ==> SizeList(Children(n)) + 1 == Size(n)
  {
    if n.BinOp? || n.Compare? || n.Subscript? {
      var (a, b) := if n.Subscript? then (n.value, n.slice) else (n.left, n.right);
      assert Children(n) == [a, b];
      SizeListTwo(a, b);
    } else if n.Call? {
      SizeListCons(n.func, n.args);
    } else if n.Attribute? || n.FormattedValue? || n.Await? {
      assert Children(n) == [n.value];
      SizeListOne(n.value);
    }
  }

  lemma SizeListOne(x: Node)
    ensures SizeList([x]) == Size(x)
  {
    assert [x][..0] == [];
  }

  lemma SizeListTwo(x: Node, y: Node)
    ensures SizeList([x, y]) == Size(x) + Size(y)
  {
    assert [x, y][..1] == [x];
    SizeListOne(x);
  }

  /** The number of nodes in a tree; the measure recursive walks decrease. */
  function Size(n: Node): (r: nat)
    ensures r >= 1
  {
    match n
    case Module(body) => 1 + SizeList(body)
    case FunctionDef(_, _, body) => 1 + SizeList(body)
    case AsyncFunctionDef(_, _, body) => 1 + SizeList(body)
    case ClassDef(_, body) => 1 + SizeList(body)
    case For(_, iter, body) => 1 + Size(iter) + SizeList(body)
    case While(test, body) => 1 + Size(test) + SizeList(body)
    case If(test, body, orelse) => 1 + Size(test) + SizeList(body) + SizeList(orelse)
    case Assign(target, value) => 1 + Size(target) + Size(value)
    case AugAssign(target, _, value) => 1 + Size(target) + Size(value)
    case Return(value) => 1 + Size(value)
    case Expr(value) => 1 + Size(value)
    case BinOp(left, _, right) => 1 + Size(left) + Size(right)
    case Compare(left, _, right) => 1 + Size(left) + Size(right)
    case Call(func, args) => 1 + Size(func) + SizeList(args)
    case Name(_) => 1
    case Attribute(value, _) => 1 + Size(value)
    case Constant(_) => 1
    case Subscript(value, slice) => 1 + Size(value) + Size(slice)
    case JoinedStr(values) => 1 + SizeList(values)
    case FormattedValue(value) => 1 + Size(value)
    case Await(value) => 1 + Size(value)
    case ListExpr(elts) => 1 + SizeList(elts)
    case Other(children) => 1 + SizeList(children)
  }

  function SizeList(ss: seq<Node>): nat
  {
    if ss == [] then 0 else SizeList(ss[..|ss| - 1]) + Size(ss[|ss| - 1])
  }

  lemma {:induction false} SizeListConcat(a: seq<Node>, b: seq<Node>)
    ensures SizeList(a + b) == SizeList(a) + SizeList(b)
  {
    if b != [] {
      assert (a + b)[..|a + b| - 1] == a + b[..|b| - 1];
      SizeListConcat(a, b[..|b| - 1]);
    } else {
      assert a + b == a;
    }
  }

  lemma SizeListCons(x: Node, ss: seq<Node>)
    ensures SizeList([x] + ss) == Size(x) + SizeList(ss)
  {
    SizeListConcat([x], ss);
    assert [x][..0] == [];
  }

  /** Every element of a list is no larger than the whole list. */
  lemma {:induction false} SizeListElement(ss: seq<Node>, i: nat)
    requires i < |ss|
    ensures Size(ss[i]) <= SizeList(ss)
  {
    if i < |ss| - 1 {
      SizeListElement(ss[..|ss| - 1], i);
    }
  }
}
