/** The C++ lowering (`CppTranspiler`, src/polyglot.py): every value is an
    `int`, every function gets a fallback `return 0;`, and the scope stack is
    never used. */
module CppLowering {
  import opened PyAst
  import opened Strings
  import opened Transpiler

  /** The operator text of `_expr`: `*`, `-` and `+` are named; every other
      operator is written `+`. */
  function Op(op: BinOperator): (r: string)
    ensures r == "*" <==> op == Mult
    ensures r == "-" <==> op == Sub
    ensures r == "+" <==> op != Mult && op != Sub
  {
    match op
    case Mult => "*"
    case Sub => "-"
    case Add => "+"
    case _ => "+"
  }

  /** `_op_cmp`: the six comparisons, `==` for the rest. */
  function Cmp(c: CmpOperator): (r: string)
    ensures r == "==" <==> c == Eq || c == OtherCmp
  {
    match c
    case Eq => "=="
    case NotEq => "!="
    case Lt => "<"
    case LtE => "<="
    case Gt => ">"
    case GtE => ">="
    case OtherCmp => "=="
  }

  /** `_expr` does not raise: every call in the expression calls a plain
      name (`node.func.id`). */
  predicate Renderable(n: Node)
    decreases Size(n), 0
  {
    match n
    case BinOp(l, _, r) => Renderable(l) && Renderable(r)
    case Compare(l, _, r) => Renderable(l) && Renderable(r)
    case Call(func, args) => func.Name? && RenderableList(args)
    case Subscript(v, slice) => Renderable(v) && Renderable(slice)
    case _ => true
  }

  predicate RenderableList(ss: seq<Node>)
    decreases SizeList(ss), 1
  {
    ss == [] || (RenderableList(ss[..|ss| - 1]) && Renderable(ss[|ss| - 1]))
  }

  lemma {:induction false} RenderableListElement(ss: seq<Node>, i: nat)
    requires RenderableList(ss) && i < |ss|
    ensures Renderable(ss[i])
  {
    if i < |ss| - 1 {
      RenderableListElement(ss[..|ss| - 1], i);
    }
  }

  /** `_expr`: names as written, constants as Python's `str()` prints them
      (strings without quotes), binary operations and comparisons without
      parentheses, calls, subscripts; everything else becomes `0`. */
  function Render(n: Node): string
    requires Renderable(n)
    decreases Size(n), 0
  {
    match n
    case Name(id) => id
    case Constant(c) => if c.StrConst? then c.s else c.text
    case BinOp(l, op, r) => Render(l) + " " + Op(op) + " " + Render(r)
    case Compare(l, c, r) => Render(l) + " " + Cmp(c) + " " + Render(r)
    case Call(func, args) => func.id + "(" + Join(", ", RenderList(args)) + ")"
    case Subscript(v, slice) => Render(v) + "[" + Render(slice) + "]"
    case _ => "0"
  }

  function RenderList(ss: seq<Node>): (r: seq<string>)
    requires RenderableList(ss)
    ensures |r| == |ss|
    decreases SizeList(ss), 1
  {
    if ss == [] then [] else RenderList(ss[..|ss| - 1]) + [Render(ss[|ss| - 1])]
  }

  /** Binary operations are written without parentheses, so a sum times a
      value and a value plus a product come out the same. */
  lemma PrecedenceIsLost(a: Node, b: Node, c: Node)
    requires Renderable(a) && Renderable(b) && Renderable(c)
    ensures Render(BinOp(BinOp(a, Add, b), Mult, c)) == Render(BinOp(a, Add, BinOp(b, Mult, c)))
  {
    var x, y, z := Render(a), Render(b), Render(c);
    var plus, times := Op(Add), Op(Mult);
    assert Render(BinOp(BinOp(a, Add, b), Mult, c)) == (x + " " + plus + " " + y) + " " + times + " " + z;
    assert Render(BinOp(a, Add, BinOp(b, Mult, c))) == x + " " + plus + " " + (y + " " + times + " " + z);
    ConcatAssoc(x, plus, y, times, z);
  }

  lemma ConcatAssoc(x: string, o: string, y: string, p: string, z: string)
    ensures (x + " " + o + " " + y) + " " + p + " " + z == x + " " + o + " " + (y + " " + p + " " + z)
  {
  }

  /** Division, modulo and power are all written as a sum. */
  lemma UnnamedOperatorsAreSums(l: Node, op: BinOperator, r: Node)
    requires Renderable(l) && Renderable(r)
    requires op != Mult && op != Sub
    ensures Render(BinOp(l, op, r)) == Render(BinOp(l, Add, r))
  {
  }

  /** The statements the lowering visits do not raise: every expression it
      renders is `Renderable`. A subscript met by a generic visit is rendered
      (and the text dropped), so it must be renderable too. */
  predicate Ok(n: Node)
    decreases Size(n), 0
  {
    match n
    case Module(body) => OkList(body)
    case FunctionDef(_, _, body) => OkList(body)
    case Return(value) => Renderable(value)
    case Assign(target, value) => Renderable(value) && (target.Subscript? ==> Renderable(target))
    case Subscript(value, slice) => Renderable(value) && Renderable(slice)
    case If(test, body, orelse) => Renderable(test) && OkList(body) && OkList(orelse)
    case _ => ChildrenSize(n); OkList(Children(n))
  }

  predicate OkList(ss: seq<Node>)
    decreases SizeList(ss), 1
  {
    ss == [] || (OkList(ss[..|ss| - 1]) && Ok(ss[|ss| - 1]))
  }

  lemma {:induction false} OkListElement(ss: seq<Node>, i: nat)
    requires OkList(ss) && i < |ss|
    ensures Ok(ss[i])
  {
    if i < |ss| - 1 {
      OkListElement(ss[..|ss| - 1], i);
    }
  }

  lemma {:induction false} OkListPrefixes(ss: seq<Node>)
    requires OkList(ss)
    ensures forall i :: 0 <= i <= |ss| ==> OkList(ss[..i])
  {
    if ss != [] {
      var t := ss[..|ss| - 1];
      OkListPrefixes(t);
      forall i | 0 <= i <= |ss|
        ensures OkList(ss[..i])
      {
        if i < |ss| {
          assert ss[..i] == t[..i];
        } else {
          assert ss[..i] == ss;
        }
      }
    }
  }

  /** The parameter list of a function header: every parameter, `self`
      included, as `int p`. */
  function ParamDecls(params: seq<string>): (r: seq<string>)
    ensures |r| == |params|
    ensures forall i :: 0 <= i < |params| ==> r[i] == "int " + params[i]
  {
    if params == [] then [] else ParamDecls(params[..|params| - 1]) + ["int " + params[|params| - 1]]
  }

  /** The lines of `main`: for each top-level definition, one demo call per
      rule its name matches. */
  function DemoCalls(ss: seq<Node>, s: TState): TState
  {
    if ss == [] then s
    else
      var s1 := DemoCalls(ss[..|ss| - 1], s);
      var c := ss[|ss| - 1];
      if c.FunctionDef? then
        var s2 := if Contains(c.name, "factorial") then Emitted(s1, "cout << \"Factorial of 5: \" << " + c.name + "(5) << endl;") else s1;
        var s3 := if Contains(c.name, "fibonacci") then Emitted(s2, "cout << \"Fibonacci of 10: \" << " + c.name + "(10) << endl;") else s2;
        if Contains(c.name, "power") then Emitted(s3, "cout << \"Power(2, 10): \" << " + c.name + "(2, 10) << endl;") else s3
      else s1
  }

  /** The five lines that open every C++ translation. */
  function Headed(s: TState): TState
  {
    var s1 := Emitted(Emitted(s, "// Transpiled to C++"), "#include <iostream>");
    Emitted(Emitted(Emitted(s1, "#include <cmath>"), "#include <vector>"), "using namespace std;")
  }

  /** What visiting `n` does to the visitor's state. */
  function Lower(n: Node, s: TState): TState
    requires Ok(n)
    decreases Size(n), 1
  {
    match n
    case Module(body) =>
      var s1 := ModuleBody(body, Headed(s));
      var s2 := DemoCalls(body, Indented(Emitted(s1, "int main() {")));
      Emitted(Dedented(Emitted(s2, "return 0;")), "}")
    case FunctionDef(name, params, body) =>
      var s1 := Emitted(s, FunctionHeader(name, params));
      var s2 := Dedented(LowerList(body, Indented(s1)));
      Emitted(Emitted(s2, "return 0; // Fallback"), "}")
    case Return(value) =>
      Emitted(s, "return " + Render(value) + ";")
    case Assign(target, value) =>
      if target.Subscript? then Emitted(s, Render(target) + " = " + Render(value) + ";")
      else if !target.Name? then Emitted(s, "// Complex assignment skipped")
      else if value.BinOp? && value.left.ListExpr? then
        Emitted(s, "vector<int> " + target.id + "(" + Render(value.right) + ", 0);")
      else Emitted(s, "int " + target.id + " = " + Render(value) + ";")
    case Subscript(_, _) => s
    case If(test, body, orelse) =>
      var s1 := Dedented(LowerList(body, Indented(Emitted(s, "if (" + Render(test) + ") {"))));
      var s2 := if orelse == [] then s1 else Dedented(LowerList(orelse, Indented(Emitted(s1, "} else {"))));
      Emitted(s2, "}")
    case _ =>
      ChildrenSize(n);
      LowerList(Children(n), s)
  }

  function LowerList(ss: seq<Node>, s: TState): TState
    requires OkList(ss)
    decreases SizeList(ss), 2
  {
    if ss == [] then s else Lower(ss[|ss| - 1], LowerList(ss[..|ss| - 1], s))
  }

  /** The shared `visit_Module` loop: each statement, then an empty line. */
  function ModuleBody(ss: seq<Node>, s: TState): TState
    requires OkList(ss)
    decreases SizeList(ss), 2
  {
    if ss == [] then s else Emitted(Lower(ss[|ss| - 1], ModuleBody(ss[..|ss| - 1], s)), "")
  }

  // ---------------------------------------------------------------------
  // What every visit preserves.

  lemma {:induction false} DemoCallsKeeps(ss: seq<Node>, s: TState)
    ensures Keeps(s, DemoCalls(ss, s))
  {
    if ss != [] {
      DemoCallsKeeps(ss[..|ss| - 1], s);
    }
  }

  /** Every visit keeps the old lines, indents its own lines at least as
      deep as the level it starts at, restores the indentation level and
      leaves the scope stack alone. */
  lemma {:induction false} LowerKeeps(n: Node, s: TState)
    requires Ok(n)
    ensures Keeps(s, Lower(n, s))
    decreases Size(n), 1
  {
    match n
    case Module(_) => ModuleKeeps(n, s);
    case FunctionDef(_, _, _) => FunctionDefKeeps(n, s);
    case Return(_) =>
    case Assign(_, _) =>
    case Subscript(_, _) =>
    case If(_, _, _) => IfKeeps(n, s);
    case _ =>
      ChildrenSize(n);
      LowerListKeeps(Children(n), s);
  }

  lemma {:induction false} ModuleKeeps(n: Node, s: TState)
    requires n.Module? && Ok(n)
    ensures Keeps(s, Lower(n, s))
    decreases Size(n), 0
  {
    var body := n.body;
    var s0 := Headed(s);
    var s1 := ModuleBody(body, s0);
    ModuleBodyKeeps(body, s0);
    var m := Indented(Emitted(s1, "int main() {"));
    DemoCallsKeeps(body, m);
    var s2 := DemoCalls(body, m);
    KeepsTrans(m, s2, Emitted(s2, "return 0;"));
    KeepsDeeper(Emitted(s1, "int main() {"), Emitted(s2, "return 0;"));
    KeepsTrans(s, s0, s1);
    KeepsTrans(s, s1, Dedented(Emitted(s2, "return 0;")));
  }

  /** A block one level deeper, after a state `e` that keeps `w`. */
  lemma BlockKeeps(w: TState, e: TState, body: seq<Node>)
    requires Keeps(w, e) && OkList(body)
    ensures Keeps(w, Dedented(LowerList(body, Indented(e))))
    decreases SizeList(body), 3
  {
    LowerListKeeps(body, Indented(e));
    KeepsDeeper(e, LowerList(body, Indented(e)));
    KeepsTrans(w, e, Dedented(LowerList(body, Indented(e))));
  }

  lemma {:induction false} FunctionDefKeeps(n: Node, s: TState)
    requires n.FunctionDef? && Ok(n)
    ensures Keeps(s, Lower(n, s))
    decreases Size(n), 0
  {
    var s1 := Emitted(s, FunctionHeader(n.name, n.params));
    BlockKeeps(s, s1, n.body);
  }

  lemma {:induction false} IfKeeps(n: Node, s: TState)
    requires n.If? && Ok(n)
    ensures Keeps(s, Lower(n, s))
    decreases Size(n), 0
  {
    var e := Emitted(s, "if (" + Render(n.test) + ") {");
    BlockKeeps(s, e, n.body);
    var s1 := Dedented(LowerList(n.body, Indented(e)));
    if n.orelse != [] {
      var e2 := Emitted(s1, "} else {");
      KeepsTrans(s, s1, e2);
      BlockKeeps(s, e2, n.orelse);
    }
  }

  lemma {:induction false} LowerListKeeps(ss: seq<Node>, s: TState)
    requires OkList(ss)
    ensures Keeps(s, LowerList(ss, s))
    decreases SizeList(ss), 2
  {
    if ss != [] {
      var t := ss[..|ss| - 1];
      LowerListKeeps(t, s);
      LowerKeeps(ss[|ss| - 1], LowerList(t, s));
      KeepsTrans(s, LowerList(t, s), LowerList(ss, s));
    }
  }

  lemma {:induction false} ModuleBodyKeeps(ss: seq<Node>, s: TState)
    requires OkList(ss)
    ensures Keeps(s, ModuleBody(ss, s))
    decreases SizeList(ss), 2
  {
    if ss != [] {
      var t := ss[..|ss| - 1];
      ModuleBodyKeeps(t, s);
      var u := Lower(ss[|ss| - 1], ModuleBody(t, s));
      LowerKeeps(ss[|ss| - 1], ModuleBody(t, s));
      KeepsTrans(s, ModuleBody(t, s), u);
      KeepsTrans(s, u, ModuleBody(ss, s));
    }
  }

  // ---------------------------------------------------------------------
  // Consequences of the lowering rules.

  /** The header line of a function. */
  function FunctionHeader(name: string, params: seq<string>): string
  {
    "int " + name + "(" + Join(", ", ParamDecls(params)) + ") {"
  }

  lemma FunctionDefUnfold(name: string, params: seq<string>, body: seq<Node>, s: TState)
    requires OkList(body)
    ensures Lower(FunctionDef(name, params, body), s)
         == Emitted(Emitted(Dedented(LowerList(body, Indented(Emitted(s, FunctionHeader(name, params))))), "return 0; // Fallback"), "}")
  {
  }

  /** Every function closes with the fallback `return 0;` and its brace, at
      the indentation of its header, whatever its body. */
  lemma FunctionEndsWithFallback(name: string, params: seq<string>, body: seq<Node>, s: TState)
    requires OkList(body)
    ensures
      var t := Lower(FunctionDef(name, params, body), s);
      |t.buffer| >= |s.buffer| + 3
      && t.buffer[|s.buffer|] == Pad(s.indent) + FunctionHeader(name, params)
      && t.buffer[|t.buffer| - 2] == Pad(s.indent) + "return 0; // Fallback"
      && t.buffer[|t.buffer| - 1] == Pad(s.indent) + "}"
  {
    var s1 := Emitted(s, FunctionHeader(name, params));
    var u := Dedented(LowerList(body, Indented(s1)));
    assert s1.buffer <= u.buffer && u.indent == s.indent by {
      LowerListKeeps(body, Indented(s1));
      KeepsDeeper(s1, LowerList(body, Indented(s1)));
    }
    FunctionDefUnfold(name, params, body, s);
    EmittedTwice(u, "return 0; // Fallback", "}");
    var t := Emitted(Emitted(u, "return 0; // Fallback"), "}");
    assert t.buffer[|s.buffer|] == u.buffer[|s.buffer|] == s1.buffer[|s.buffer|];
  }

  /** A name assigned a list times a size becomes a zero-filled vector of
      that size, whatever the list holds and whatever the operator. */
  lemma ListProductIsZeroVector(t: string, elts: seq<Node>, op: BinOperator, size: Node, s: TState)
    requires Renderable(size)
    ensures Ok(Assign(Name(t), BinOp(ListExpr(elts), op, size)))
    ensures Lower(Assign(Name(t), BinOp(ListExpr(elts), op, size)), s).buffer
         == s.buffer + [Pad(s.indent) + ("vector<int> " + t + "(" + Render(size) + ", 0);")]
  {
  }

  /** The shape of a program's output: the five header lines first, then
      the module body, then `main`, which returns 0 and whose closing
      brace is the last line. */
  lemma ModuleUnfold(body: seq<Node>, s: TState)
    requires OkList(body)
    ensures Lower(Module(body), s)
         == Emitted(Dedented(Emitted(DemoCalls(body, Indented(Emitted(ModuleBody(body, Headed(s)), "int main() {"))), "return 0;")), "}")
  {
  }

  lemma HeadedLines(s: TState)
    ensures |Headed(s).buffer| == |s.buffer| + 5
    ensures Headed(s).indent == s.indent && Headed(s).scopes == s.scopes
    ensures Headed(s).buffer[|s.buffer|] == Pad(s.indent) + "// Transpiled to C++"
    ensures Headed(s).buffer[|s.buffer| + 4] == Pad(s.indent) + "using namespace std;"
  {
  }

  /** What a module's lines look like from outside: the banner and the
      namespace line of the header, at least eight lines in all, `main`
      closed by `return 0;` and `}`, and the level and scopes restored. */
  predicate ModuleLines(s: TState, t: TState)
  {
    |t.buffer| >= |s.buffer| + 8
    && t.buffer[|s.buffer|] == Pad(s.indent) + "// Transpiled to C++"
    && t.buffer[|s.buffer| + 4] == Pad(s.indent) + "using namespace std;"
    && t.buffer[|t.buffer| - 2] == Pad(s.indent + 1) + "return 0;"
    && t.buffer[|t.buffer| - 1] == Pad(s.indent) + "}"
    && t.indent == s.indent && t.scopes == s.scopes
  }

  lemma ModuleShape(body: seq<Node>, s: TState)
    requires OkList(body)
    ensures ModuleLines(s, Lower(Module(body), s))
  {
    var s0 := Headed(s);
    var s1 := ModuleBody(body, s0);
    var m := Indented(Emitted(s1, "int main() {"));
    ModuleBodyKeeps(body, s0);
    DemoCallsKeeps(body, m);
    ModuleUnfold(body, s);
    ClosedMain(s, s1, DemoCalls(body, m));
  }

  /** The last two lines of a module close `main`, after the header. */
  lemma ClosedMain(s: TState, s1: TState, d: TState)
    requires Keeps(Headed(s), s1) && Keeps(Indented(Emitted(s1, "int main() {")), d)
    ensures ModuleLines(s, Emitted(Dedented(Emitted(d, "return 0;")), "}"))
  {
    var s0 := Headed(s);
    HeadedLines(s);
    var m := Indented(Emitted(s1, "int main() {"));
    assert s1.buffer <= m.buffer && |m.buffer| == |s1.buffer| + 1;
    PrefixTrans(s0.buffer, s1.buffer, m.buffer);
    PrefixTrans(s0.buffer, m.buffer, d.buffer);
    EmittedAcrossDedent(d, "return 0;", "}");
  }

  /** The calls `main` makes for one function: one per keyword its name
      contains (`factorial`, `fibonacci`, `power`); the rules are
      independent. */
  lemma DemoCallsPerKeyword(name: string, params: seq<string>, body: seq<Node>, s: TState)
    ensures |DemoCalls([FunctionDef(name, params, body)], s).buffer| == |s.buffer|
      + (if Contains(name, "factorial") then 1 else 0)
      + (if Contains(name, "fibonacci") then 1 else 0)
      + (if Contains(name, "power") then 1 else 0)
  {
    assert [FunctionDef(name, params, body)][..0] == [];
  }

  /** A statement whose name matches no demo-call rule. */
  predicate Unmatched(n: Node)
  {
    n.FunctionDef? ==> !Contains(n.name, "factorial") && !Contains(n.name, "fibonacci") && !Contains(n.name, "power")
  }

  /** When no function matches, `main` holds no call at all. */
  lemma {:induction false} UnmatchedGetNoCall(ss: seq<Node>, s: TState)
    requires forall i :: 0 <= i < |ss| ==> Unmatched(ss[i])
    ensures DemoCalls(ss, s) == s
  {
    if ss != [] {
      var m := |ss| - 1;
      assert forall i :: 0 <= i < m ==> ss[..m][i] == ss[i];
      UnmatchedGetNoCall(ss[..m], s);
    }
  }

  /** An expression emits nothing. */
  lemma {:induction false} ExpressionEmitsNothing(n: Node, s: TState)
    requires Expression(n) && Ok(n)
    ensures Lower(n, s) == s
    decreases Size(n), 1
  {
    if !n.Subscript? {
      ChildrenSize(n);
      ExpressionsEmitNothing(Children(n), s);
    }
  }

  lemma {:induction false} ExpressionsEmitNothing(ss: seq<Node>, s: TState)
    requires Expressions(ss) && OkList(ss)
    ensures LowerList(ss, s) == s
    decreases SizeList(ss), 2
  {
    if ss != [] {
      ExpressionsEmitNothing(ss[..|ss| - 1], s);
      ExpressionEmitsNothing(ss[|ss| - 1], s);
    }
  }

  // ---------------------------------------------------------------------
  // The visitor object.

  /** `CppTranspiler`: the shared visitor state plus the C++ handlers. */
  class CppTranspiler {
    const base: BaseTranspiler

    constructor ()
      ensures fresh(base) && base.State() == Initial
    {
      base := new BaseTranspiler();
    }

    /** `visit` on the root: the tree is lowered and the lines joined. */
    method Visit(tree: Node) returns (out: string)
      requires Ok(tree)
      modifies base
      ensures base.State() == Lower(tree, old(base.State()))
      ensures out == Output(base.State())
    {
      Dispatch(tree);
      out := base.Joined();
    }

    method Dispatch(n: Node)
      requires Ok(n)
      modifies base
      ensures base.State() == Lower(n, old(base.State()))
      decreases Size(n), 3
    {
      if n.Module? {
        VisitModule(n);
      } else if n.FunctionDef? {
        VisitFunctionDef(n);
      } else if n.Return? {
        VisitReturn(n);
      } else if n.Assign? {
        VisitAssign(n);
      } else if n.Subscript? {
        VisitSubscript(n);
      } else if n.If? {
        VisitIf(n);
      } else {
        GenericVisit(n);
      }
    }

    method VisitBody(ss: seq<Node>)
      requires OkList(ss)
      modifies base
      ensures base.State() == LowerList(ss, old(base.State()))
      decreases SizeList(ss), 4
    {
      OkListPrefixes(ss);
      var i := 0;
      while i < |ss|
        invariant 0 <= i <= |ss|
        invariant OkList(ss[..i])
        invariant base.State() == LowerList(ss[..i], old(base.State()))
      {
        SizeListElement(ss, i);
        OkListElement(ss, i);
        assert ss[..i + 1][..i] == ss[..i];
        Dispatch(ss[i]);
        i := i + 1;
      }
      assert ss[..|ss|] == ss;
    }

    method GenericVisit(n: Node)
      requires !(n.Module? || n.FunctionDef? || n.Return? || n.Assign? || n.Subscript? || n.If?)
      requires Ok(n)
      modifies base
      ensures base.State() == Lower(n, old(base.State()))
      decreases Size(n), 2
    {
      ChildrenSize(n);
      VisitBody(Children(n));
    }

    method BaseVisitModule(ss: seq<Node>)
      requires OkList(ss)
      modifies base
      ensures base.State() == ModuleBody(ss, old(base.State()))
      decreases SizeList(ss), 4
    {
      OkListPrefixes(ss);
      var i := 0;
      while i < |ss|
        invariant 0 <= i <= |ss|
        invariant OkList(ss[..i])
        invariant base.State() == ModuleBody(ss[..i], old(base.State()))
      {
        SizeListElement(ss, i);
        OkListElement(ss, i);
        assert ss[..i + 1][..i] == ss[..i];
        Dispatch(ss[i]);
        base.Emit("");
        i := i + 1;
      }
      assert ss[..|ss|] == ss;
    }

    /** `visit_Module`: the header, the shared module loop, then `main`. */
    method VisitModule(n: Node)
      requires n.Module? && Ok(n)
      modifies base
      ensures base.State() == Lower(n, old(base.State()))
      decreases Size(n), 2
    {
      ghost var start := base.State();
      EmitHeader();
      BaseVisitModule(n.body);
      ghost var s1 := base.State();
      base.Emit("int main() {");
      base.indentLevel := base.indentLevel + 1;
      ghost var s0 := base.State();
      assert s0 == Indented(Emitted(s1, "int main() {"));
      EmitDemoCalls(n.body);
      ghost var s2 := base.State();
      base.Emit("return 0;");
      base.indentLevel := base.indentLevel - 1;
      base.Emit("}");
      assert base.State() == Emitted(Dedented(Emitted(s2, "return 0;")), "}");
      ModuleUnfold(n.body, start);
    }

    /** The banner and the fixed header lines. */
    method EmitHeader()
      modifies base
      ensures base.State() == Headed(old(base.State()))
    {
      base.Emit("// Transpiled to C++");
      base.Emit("#include <iostream>");
      base.Emit("#include <cmath>");
      base.Emit("#include <vector>");
      base.Emit("using namespace std;");
    }

    /** The demo lines of `main`, one statement of the module at a time. */
    method EmitDemoCalls(ss: seq<Node>)
      modifies base
      ensures base.State() == DemoCalls(ss, old(base.State()))
    {
      var i := 0;
      while i < |ss|
        invariant 0 <= i <= |ss|
        invariant base.State() == DemoCalls(ss[..i], old(base.State()))
      {
        var child := ss[i];
        assert ss[..i + 1][..i] == ss[..i];
        if child.FunctionDef? {
          if Contains(child.name, "factorial") {
            base.Emit("cout << \"Factorial of 5: \" << " + child.name + "(5) << endl;");
          }
          if Contains(child.name, "fibonacci") {
            base.Emit("cout << \"Fibonacci of 10: \" << " + child.name + "(10) << endl;");
          }
          if Contains(child.name, "power") {
            base.Emit("cout << \"Power(2, 10): \" << " + child.name + "(2, 10) << endl;");
          }
        }
        i := i + 1;
      }
      assert ss[..|ss|] == ss;
    }

    /** `visit_FunctionDef`: an `int` function of `int` parameters, its body
        one level deeper, then the fallback return. */
    method VisitFunctionDef(n: Node)
      requires n.FunctionDef? && Ok(n)
      modifies base
      ensures base.State() == Lower(n, old(base.State()))
      decreases Size(n), 2
    {
      var args: seq<string> := [];
      var i := 0;
      while i < |n.params|
        invariant 0 <= i <= |n.params|
        invariant args == ParamDecls(n.params[..i])
      {
        assert n.params[..i + 1][..i] == n.params[..i];
        args := args + ["int " + n.params[i]];
        i := i + 1;
      }
      assert n.params[..|n.params|] == n.params;
      ghost var start := base.State();
      base.Emit("int " + n.name + "(" + Join(", ", args) + ") {");
      base.indentLevel := base.indentLevel + 1;
      assert base.State() == Indented(Emitted(start, FunctionHeader(n.name, n.params)));
      VisitBody(n.body);
      ghost var s3 := base.State();
      base.indentLevel := base.indentLevel - 1;
      base.Emit("return 0; // Fallback");
      base.Emit("}");
      assert base.State() == Emitted(Emitted(Dedented(s3), "return 0; // Fallback"), "}");
      FunctionDefUnfold(n.name, n.params, n.body, start);
    }

    method VisitReturn(n: Node)
      requires n.Return? && Ok(n)
      modifies base
      ensures base.State() == Lower(n, old(base.State()))
      decreases Size(n), 2
    {
      var val := Render(n.value);
      base.Emit("return " + val + ";");
    }

    /** `visit_Assign`: the value is rendered first; a subscript target is
        assigned, a name target declared (as a vector for a list product). */
    method VisitAssign(n: Node)
      requires n.Assign? && Ok(n)
      modifies base
      ensures base.State() == Lower(n, old(base.State()))
      decreases Size(n), 2
    {
      var val := Render(n.value);
      if n.target.Subscript? {
        var target := Render(n.target);
        base.Emit(target + " = " + val + ";");
        return;
      }
      if !n.target.Name? {
        base.Emit("// Complex assignment skipped");
        return;
      }
      var target := n.target.id;
      if n.value.BinOp? && n.value.left.ListExpr? {
        var sizeExpr := Render(n.value.right);
        base.Emit("vector<int> " + target + "(" + sizeExpr + ", 0);");
        return;
      }
      base.Emit("int " + target + " = " + val + ";");
    }

    /** `visit_Subscript`: the text is computed and dropped. */
    method VisitSubscript(n: Node)
      requires n.Subscript? && Ok(n)
      modifies base
      ensures base.State() == Lower(n, old(base.State()))
      decreases Size(n), 2
    {
      var _ := Render(n.value) + "[" + Render(n.slice) + "]";
    }

    method VisitIf(n: Node)
      requires n.If? && Ok(n)
      modifies base
      ensures base.State() == Lower(n, old(base.State()))
      decreases Size(n), 2
    {
      ghost var s0 := base.State();
      var cond := Render(n.test);
      base.Emit("if (" + cond + ") {");
      VisitBranch(n.body);
      ghost var s1 := base.State();
      assert s1 == Dedented(LowerList(n.body, Indented(Emitted(s0, "if (" + Render(n.test) + ") {"))));
      if n.orelse != [] {
        base.Emit("} else {");
        VisitBranch(n.orelse);
      }
      assert base.State() == if n.orelse == [] then s1
        else Dedented(LowerList(n.orelse, Indented(Emitted(s1, "} else {"))));
      base.Emit("}");
    }

    /** One branch of `visit_If`, one level deeper. */
    method VisitBranch(ss: seq<Node>)
      requires OkList(ss)
      modifies base
      ensures base.State() == Dedented(LowerList(ss, Indented(old(base.State()))))
      decreases SizeList(ss), 5
    {
      base.indentLevel := base.indentLevel + 1;
      VisitBody(ss);
      base.indentLevel := base.indentLevel - 1;
    }
  }
}
