/** The Go lowering (`GoTranspiler`, src/polyglot.py): asynchronous
    functions, expression statements, `range` loops and assignments have
    handlers; plain functions fall to the shared handler, which emits
    nothing, and every other statement is walked by the generic visit. */
module GoLowering {
  import opened PyAst
  import opened Strings
  import opened Transpiler

  // ---------------------------------------------------------------------
  // Expressions (`_expr`).

  /** `_expr` does not raise: the literal parts of every f-string it renders
      are strings (`fmt += val.value`). */
  predicate Renderable(n: Node)
    decreases Size(n), 0
  {
    match n
    case BinOp(l, _, r) => Renderable(l) && Renderable(r)
    case Call(func, args) => func.Name? && func.id == "print" ==> RenderableList(args)
    case JoinedStr(values) => PartsOk(values)
    case _ => true
  }

  predicate RenderableList(ss: seq<Node>)
    decreases SizeList(ss), 1
  {
    ss == [] || (RenderableList(ss[..|ss| - 1]) && Renderable(ss[|ss| - 1]))
  }

  /** The parts of an f-string: literal parts are strings, and the values
      of the placeholders are renderable. */
  predicate PartsOk(values: seq<Node>)
    decreases SizeList(values), 1
  {
    if values == [] then true
    else
      var v := values[|values| - 1];
      SizeListElement(values, |values| - 1);
      PartsOk(values[..|values| - 1])
      && (v.Constant? ==> v.literal.StrConst?)
      && (v.FormattedValue? ==> Renderable(v.value))
  }

  lemma {:induction false} RenderableListElement(ss: seq<Node>, i: nat)
    requires RenderableList(ss) && i < |ss|
    ensures Renderable(ss[i])
  {
    if i < |ss| - 1 {
      RenderableListElement(ss[..|ss| - 1], i);
    }
  }

  lemma {:induction false} RenderableListPrefixes(ss: seq<Node>)
    requires RenderableList(ss)
    ensures forall i :: 0 <= i <= |ss| ==> RenderableList(ss[..i])
  {
    if ss != [] {
      var t := ss[..|ss| - 1];
      RenderableListPrefixes(t);
      forall i | 0 <= i <= |ss|
        ensures RenderableList(ss[..i])
      {
        if i < |ss| {
          assert ss[..i] == t[..i];
        } else {
          assert ss[..i] == ss;
        }
      }
    }
  }

  /** The format string of an f-string: literal parts as they are, `%v` for
      each placeholder, other parts dropped. */
  function Format(values: seq<Node>): string
  {
    if values == [] then ""
    else
      var v := values[|values| - 1];
      Format(values[..|values| - 1])
        + (if v.Constant? && v.literal.StrConst? then v.literal.s else if v.FormattedValue? then "%v" else "")
  }

  /** The number of placeholders in an f-string. */
  function Holes(values: seq<Node>): nat
  {
    if values == [] then 0
    else Holes(values[..|values| - 1]) + (if values[|values| - 1].FormattedValue? then 1 else 0)
  }

  /** The rendered values of the placeholders, in order. */
  function FormatArgs(values: seq<Node>): seq<string>
    requires PartsOk(values)
    decreases SizeList(values), 1
  {
    if values == [] then []
    else
      var v := values[|values| - 1];
      SizeListElement(values, |values| - 1);
      FormatArgs(values[..|values| - 1]) + (if v.FormattedValue? then [Render(v.value)] else [])
  }

  /** `_expr`: constants (strings quoted), names, every binary operation as
      a sum, `print` calls (a lone f-string argument becomes `fmt.Printf`,
      anything else `fmt.Println`), f-strings; everything else, other calls
      included, is the empty string. */
  function Render(n: Node): string
    requires Renderable(n)
    decreases Size(n), 0
  {
    match n
    case Constant(c) => if c.StrConst? then "\"" + c.s + "\"" else c.text
    case Name(id) => id
    case BinOp(l, _, r) => Render(l) + " + " + Render(r)
    case Call(func, args) =>
      if func.Name? && func.id == "print" then
        if |args| == 1 && args[0].JoinedStr? then
          RenderableListElement(args, 0);
          Render(args[0])
        else "fmt.Println(" + Join(", ", RenderList(args)) + ")"
      else ""
    case JoinedStr(values) =>
      "fmt.Printf(\"" + Format(values) + "\\n\", " + Join(", ", FormatArgs(values)) + ")"
    case _ => ""
  }

  function RenderList(ss: seq<Node>): (r: seq<string>)
    requires RenderableList(ss)
    ensures |r| == |ss|
    decreases SizeList(ss), 1
  {
    if ss == [] then [] else RenderList(ss[..|ss| - 1]) + [Render(ss[|ss| - 1])]
  }

  /** One argument per placeholder. */
  lemma {:induction false} FormatArgsMatchHoles(values: seq<Node>)
    requires PartsOk(values)
    ensures |FormatArgs(values)| == Holes(values)
  {
    if values != [] {
      FormatArgsMatchHoles(values[..|values| - 1]);
    }
  }

  /** An f-string without placeholders still gets the argument separator:
      its `Printf` call ends in `\n", )`. */
  lemma StaticFStringKeepsSeparator(values: seq<Node>)
    requires PartsOk(values) && Holes(values) == 0
    ensures Renderable(JoinedStr(values))
    ensures Render(JoinedStr(values)) == "fmt.Printf(\"" + Format(values) + "\\n\", " + ")"
  {
    FormatArgsMatchHoles(values);
  }

  /** Every binary operation is written as a sum, so its text does not
      depend on the operator. */
  lemma EveryOperatorIsPlus(l: Node, op: BinOperator, other: BinOperator, r: Node)
    requires Renderable(l) && Renderable(r)
    ensures Render(BinOp(l, op, r)) == Render(l) + " + " + Render(r)
    ensures Render(BinOp(l, op, r)) == Render(BinOp(l, other, r))
  {
  }

  // ---------------------------------------------------------------------
  // Statements.

  /** `await x.sleep(...)`. */
  predicate IsSleepCall(c: Node)
  {
    c.Call? && c.func.Attribute? && c.func.attr == "sleep"
  }

  function SleepLine(arg: string): string
  {
    "time.Sleep(time.Duration(float64(time.Second) * " + arg + "))"
  }

  function RangeHeader(v: string, limit: string): string
  {
    "for " + v + " := 0; " + v + " < " + limit + "; " + v + "++ {"
  }

  /** The statements the lowering visits do not raise: a `sleep` call and a
      `range` call have a first argument, a loop over a call calls a plain
      name (`node.iter.func.id`), and every rendered expression is
      `Renderable`. The handlers for expression statements and loops do not
      descend further than they render. */
  predicate Ok(n: Node)
    decreases Size(n), 0
  {
    match n
    case Module(body) => OkList(body)
    case FunctionDef(_, _, _) => true
    case AsyncFunctionDef(_, _, body) => OkList(body)
    case Expr(value) =>
      if value.Await? then
        IsSleepCall(value.value) ==> |value.value.args| > 0 && Renderable(value.value.args[0])
      else value.Call? ==> Renderable(value)
    case For(_, iter, body) =>
      iter.Call? ==>
        iter.func.Name? && (iter.func.id == "range" ==> |iter.args| > 0 && Renderable(iter.args[0]) && OkList(body))
    case Assign(target, value) => (target.Name? || target.Attribute?) ==> Renderable(value)
    case _ => ChildrenSize(n); OkList(Children(n))
  }

  predicate OkList(ss: seq<Node>)
    decreases SizeList(ss), 1
  {
    ss == [] || (OkList(ss[..|ss| - 1]) && Ok(ss[|ss| - 1]))
  }

  lemma {:induction false} OkListElement(ss: seq<Node>, i: nat)
    requires OkList(ss) && i < |ss|
    ensures Ok(ss[i])
  {
    if i < |ss| - 1 {
      OkListElement(ss[..|ss| - 1], i);
    }
  }

  lemma {:induction false} OkListPrefixes(ss: seq<Node>)
    requires OkList(ss)
    ensures forall i :: 0 <= i <= |ss| ==> OkList(ss[..i])
  {
    if ss != [] {
      var t := ss[..|ss| - 1];
      OkListPrefixes(t);
      forall i | 0 <= i <= |ss|
        ensures OkList(ss[..i])
      {
        if i < |ss| {
          assert ss[..i] == t[..i];
        } else {
          assert ss[..i] == ss;
        }
      }
    }
  }

  lemma {:induction false} OkListConcat(a: seq<Node>, b: seq<Node>)
    ensures OkList(a + b) <==> OkList(a) && OkList(b)
  {
    if b == [] {
      assert a + b == a;
    } else {
      assert (a + b)[..|a + b| - 1] == a + b[..|b| - 1];
      OkListConcat(a, b[..|b| - 1]);
    }
  }

  /** The lines of `main`: a call of every top-level function, plain or
      asynchronous, whose name contains `log`. */
  function DemoCalls(ss: seq<Node>, s: TState): TState
  {
    if ss == [] then s
    else
      var s1 := DemoCalls(ss[..|ss| - 1], s);
      var c := ss[|ss| - 1];
      if (c.FunctionDef? || c.AsyncFunctionDef?) && Contains(c.name, "log") then Emitted(s1, c.name + "()")
      else s1
  }

  /** The five lines that open every Go translation, the last one empty. */
  function Headed(s: TState): TState
  {
    var s1 := Emitted(Emitted(s, "// Transpiled to Go"), "package main");
    Emitted(Emitted(Emitted(s1, "import \"fmt\""), "import \"time\""), "")
  }

  /** What visiting `n` does to the visitor's state. */
  function Lower(n: Node, s: TState): TState
    requires Ok(n)
    decreases Size(n), 1
  {
    match n
    case Module(body) =>
      var s1 := ModuleBody(body, Headed(s));
      var s2 := DemoCalls(body, Indented(Emitted(s1, "func main() {")));
      Emitted(Dedented(s2), "}")
    case FunctionDef(_, _, _) => s
    case AsyncFunctionDef(name, _, body) =>
      var s1 := Emitted(s, "func " + name + "() {");
      Emitted(Dedented(LowerList(body, Indented(s1))), "}")
    case Expr(value) =>
      if value.Await? then
        if IsSleepCall(value.value) then Emitted(s, SleepLine(Render(value.value.args[0]))) else s
      else if value.Call? then Emitted(s, Render(value))
      else s
    case For(v, iter, body) =>
      if iter.Call? && iter.func.id == "range" then
        var s1 := Emitted(s, RangeHeader(v, Render(iter.args[0])));
        Emitted(Dedented(LowerList(body, Indented(s1))), "}")
      else s
    case Assign(target, value) =>
      if target.Name? || target.Attribute? then
        var t := if target.Name? then target.id else target.attr;
        if t == "_" then Emitted(s, "_ = " + Render(value))
        else
          var s1 := Emitted(s, t + " := " + Render(value));
          if Contains(t, "processed") || Contains(t, "data") then Emitted(s1, "_ = " + t) else s1
      else Emitted(s, "// Complex assignment skipped")
    case _ =>
      ChildrenSize(n);
      LowerList(Children(n), s)
  }

  function LowerList(ss: seq<Node>, s: TState): TState
    requires OkList(ss)
    decreases SizeList(ss), 2
  {
    if ss == [] then s else Lower(ss[|ss| - 1], LowerList(ss[..|ss| - 1], s))
  }

  /** The shared `visit_Module` loop: each statement, then an empty line. */
  function ModuleBody(ss: seq<Node>, s: TState): TState
    requires OkList(ss)
    decreases SizeList(ss), 2
  {
    if ss == [] then s else Emitted(Lower(ss[|ss| - 1], ModuleBody(ss[..|ss| - 1], s)), "")
  }

  /** Visiting two lists in turn is visiting their concatenation. */
  lemma {:induction false} LowerListConcat(a: seq<Node>, b: seq<Node>, s: TState)
    requires OkList(a) && OkList(b)
    ensures OkList(a + b) && LowerList(a + b, s) == LowerList(b, LowerList(a, s))
  {
    OkListConcat(a, b);
    if b == [] {
      assert a + b == a;
    } else {
      assert (a + b)[..|a + b| - 1] == a + b[..|b| - 1];
      OkListConcat(a, b[..|b| - 1]);
      LowerListConcat(a, b[..|b| - 1], s);
    }
  }

  // ---------------------------------------------------------------------
  // What every visit preserves.

  lemma {:induction false} DemoCallsKeeps(ss: seq<Node>, s: TState)
    ensures Keeps(s, DemoCalls(ss, s))
  {
    if ss != [] {
      DemoCallsKeeps(ss[..|ss| - 1], s);
    }
  }

  /** Every visit keeps the old lines, indents its own lines at least as
      deep as the level it starts at, restores the indentation level and
      leaves the scope stack alone. */
  lemma {:induction false} LowerKeeps(n: Node, s: TState)
    requires Ok(n)
    ensures Keeps(s, Lower(n, s))
    decreases Size(n), 1
  {
    match n
    case Module(_) => ModuleKeeps(n, s);
    case FunctionDef(_, _, _) => ExtendsRefl(s);
    case AsyncFunctionDef(_, _, _) => AsyncKeeps(n, s);
    case Expr(_) => ExprKeeps(n, s);
    case For(_, _, _) => ForKeeps(n, s);
    case Assign(_, _) => AssignKeeps(n, s);
    case _ => GenericKeeps(n, s);
  }

  lemma {:induction false} AsyncKeeps(n: Node, s: TState)
    requires n.AsyncFunctionDef? && Ok(n)
    ensures Keeps(s, Lower(n, s))
    decreases Size(n), 0
  {
    var s1 := Emitted(s, "func " + n.name + "() {");
    assert Lower(n, s) == Emitted(Dedented(LowerList(n.body, Indented(s1))), "}");
    BlockKeeps(s, s1, n.body);
  }

  lemma {:induction false} ForKeeps(n: Node, s: TState)
    requires n.For? && Ok(n)
    ensures Keeps(s, Lower(n, s))
    decreases Size(n), 0
  {
    var iter := n.iter;
    if iter.Call? && iter.func.id == "range" {
      var s1 := Emitted(s, RangeHeader(n.loopVar, Render(iter.args[0])));
      assert Lower(n, s) == Emitted(Dedented(LowerList(n.body, Indented(s1))), "}");
      BlockKeeps(s, s1, n.body);
    } else {
      assert Lower(n, s) == s;
      ExtendsRefl(s);
    }
  }

  /** An expression statement emits at most one line. */
  lemma ExprKeeps(n: Node, s: TState)
    requires n.Expr? && Ok(n)
    ensures Keeps(s, Lower(n, s))
  {
    ExtendsRefl(s);
  }

  /** An assignment emits one or two lines. */
  lemma AssignKeeps(n: Node, s: TState)
    requires n.Assign? && Ok(n)
    ensures Keeps(s, Lower(n, s))
  {
  }

  lemma {:induction false} GenericKeeps(n: Node, s: TState)
    requires !(n.Module? || n.FunctionDef? || n.AsyncFunctionDef? || n.Expr? || n.For? || n.Assign?)
    requires Ok(n)
    ensures Keeps(s, Lower(n, s))
    decreases Size(n), 0
  {
    ChildrenSize(n);
    LowerListKeeps(Children(n), s);
  }

  lemma {:induction false} ModuleKeeps(n: Node, s: TState)
    requires n.Module? && Ok(n)
    ensures Keeps(s, Lower(n, s))
    decreases Size(n), 0
  {
    var body := n.body;
    var s0 := Headed(s);
    var s1 := ModuleBody(body, s0);
    ModuleBodyKeeps(body, s0);
    var m := Indented(Emitted(s1, "func main() {"));
    DemoCallsKeeps(body, m);
    KeepsDeeper(Emitted(s1, "func main() {"), DemoCalls(body, m));
    KeepsTrans(s, s0, s1);
    KeepsTrans(s, s1, Dedented(DemoCalls(body, m)));
  }

  lemma ModuleUnfold(body: seq<Node>, s: TState)
    requires OkList(body)
    ensures Lower(Module(body), s)
         == Emitted(Dedented(DemoCalls(body, Indented(Emitted(ModuleBody(body, Headed(s)), "func main() {")))), "}")
  {
  }

  /** The shape of a program's output: the banner and the package clause
      first, the closing brace of `main` last. */
  lemma {:induction false} ModuleShape(body: seq<Node>, s: TState)
    requires OkList(body)
    ensures
      var t := Lower(Module(body), s);
      |t.buffer| >= |s.buffer| + 7
      && t.buffer[|s.buffer|] == Pad(s.indent) + "// Transpiled to Go"
      && t.buffer[|s.buffer| + 1] == Pad(s.indent) + "package main"
      && t.buffer[|t.buffer| - 1] == Pad(s.indent) + "}"
      && t.indent == s.indent && t.scopes == s.scopes
  {
    var s0 := Headed(s);
    HeadedLines(s);
    var s1 := ModuleBody(body, s0);
    var m := Indented(Emitted(s1, "func main() {"));
    var d := DemoCalls(body, m);
    assert s0.buffer <= s1.buffer && s1.indent == s.indent && s1.scopes == s.scopes by {
      ModuleBodyKeeps(body, s0);
    }
    assert m.buffer <= d.buffer && d.indent == s.indent + 1 && d.scopes == s.scopes by {
      DemoCallsKeeps(body, m);
    }
    ModuleUnfold(body, s);
  }

  lemma HeadedLines(s: TState)
    ensures |Headed(s).buffer| == |s.buffer| + 5
    ensures Headed(s).indent == s.indent && Headed(s).scopes == s.scopes
    ensures Headed(s).buffer[|s.buffer|] == Pad(s.indent) + "// Transpiled to Go"
    ensures Headed(s).buffer[|s.buffer| + 1] == Pad(s.indent) + "package main"
  {
  }

  /** A block one level deeper after a state `e` that keeps `w`, then its
      closing brace. */
  lemma BlockKeeps(w: TState, e: TState, body: seq<Node>)
    requires Keeps(w, e) && OkList(body)
    ensures Keeps(w, Emitted(Dedented(LowerList(body, Indented(e))), "}"))
    decreases SizeList(body), 3
  {
    LowerListKeeps(body, Indented(e));
    KeepsDeeper(e, LowerList(body, Indented(e)));
    KeepsTrans(w, e, Dedented(LowerList(body, Indented(e))));
  }

  lemma {:induction false} LowerListKeeps(ss: seq<Node>, s: TState)
    requires OkList(ss)
    ensures Keeps(s, LowerList(ss, s))
    decreases SizeList(ss), 2
  {
    if ss != [] {
      var t := ss[..|ss| - 1];
      LowerListKeeps(t, s);
      LowerKeeps(ss[|ss| - 1], LowerList(t, s));
      KeepsTrans(s, LowerList(t, s), LowerList(ss, s));
    }
  }

  lemma {:induction false} ModuleBodyKeeps(ss: seq<Node>, s: TState)
    requires OkList(ss)
    ensures Keeps(s, ModuleBody(ss, s))
    decreases SizeList(ss), 2
  {
    if ss != [] {
      var t := ss[..|ss| - 1];
      ModuleBodyKeeps(t, s);
      var u := Lower(ss[|ss| - 1], ModuleBody(t, s));
      LowerKeeps(ss[|ss| - 1], ModuleBody(t, s));
      KeepsTrans(s, ModuleBody(t, s), u);
      KeepsTrans(s, u, ModuleBody(ss, s));
    }
  }

  // ---------------------------------------------------------------------
  // Consequences of the lowering rules.

  /** `main` calls a function or coroutine exactly when its name contains
      `log`. */
  lemma DemoCallIffLog(n: Node, s: TState)
    requires n.FunctionDef? || n.AsyncFunctionDef?
    ensures |DemoCalls([n], s).buffer| == |s.buffer| + (if Contains(n.name, "log") then 1 else 0)
  {
    assert [n][..0] == [];
  }

  /** When no function's name contains `log`, `main` holds no call. */
  lemma {:induction false} UnmatchedGetNoCall(ss: seq<Node>, s: TState)
    requires forall i :: 0 <= i < |ss| ==> (ss[i].FunctionDef? || ss[i].AsyncFunctionDef?) ==> !Contains(ss[i].name, "log")
    ensures DemoCalls(ss, s) == s
  {
    if ss != [] {
      var m := |ss| - 1;
      assert forall i :: 0 <= i < m ==> ss[..m][i] == ss[i];
      UnmatchedGetNoCall(ss[..m], s);
    }
  }

  /** An expression emits nothing. */
  lemma {:induction false} ExpressionEmitsNothing(n: Node, s: TState)
    requires Expression(n)
    ensures Ok(n) && Lower(n, s) == s
    decreases Size(n), 1
  {
    ChildrenSize(n);
    ExpressionsEmitNothing(Children(n), s);
  }

  lemma {:induction false} ExpressionsEmitNothing(ss: seq<Node>, s: TState)
    requires Expressions(ss)
    ensures OkList(ss) && LowerList(ss, s) == s
    decreases SizeList(ss), 2
  {
    if ss != [] {
      ExpressionsEmitNothing(ss[..|ss| - 1], s);
      ExpressionEmitsNothing(ss[|ss| - 1], s);
    }
  }

  /** There is no `if` handler: the condition is dropped and both branches
      are emitted one after the other, at the level of the `if`. */
  lemma IfIsFlattened(test: Node, body: seq<Node>, orelse: seq<Node>, s: TState)
    requires Expression(test) && OkList(body) && OkList(orelse)
    ensures Ok(If(test, body, orelse)) && OkList(body + orelse)
    ensures Lower(If(test, body, orelse), s) == LowerList(body + orelse, s)
  {
    ExpressionEmitsNothing(test, s);
    assert [test][..0] == [] && [test][0] == test;
    assert LowerList([test][..0], s) == s;
    assert OkList([test]);
    assert LowerList([test], s) == Lower(test, LowerList([test][..0], s));
    LowerListConcat([test], body, s);
    LowerListConcat([test] + body, orelse, s);
    LowerListConcat(body, orelse, s);
    assert Children(If(test, body, orelse)) == [test] + body + orelse;
  }

  /** There is no `while` handler: the condition is dropped and the body is
      emitted once, at the level of the loop. */
  lemma WhileIsFlattened(test: Node, body: seq<Node>, s: TState)
    requires Expression(test) && OkList(body)
    ensures Ok(While(test, body))
    ensures Lower(While(test, body), s) == LowerList(body, s)
  {
    ExpressionEmitsNothing(test, s);
    assert [test][..0] == [] && [test][0] == test;
    assert LowerList([test][..0], s) == s;
    assert OkList([test]);
    assert LowerList([test], s) == Lower(test, LowerList([test][..0], s));
    LowerListConcat([test], body, s);
  }

  /** A call statement of anything but `print` renders as the empty string,
      so it leaves a line holding only the indentation. */
  lemma OtherCallLeavesBlankLine(f: string, args: seq<Node>, s: TState)
    requires f != "print"
    ensures Ok(Expr(Call(Name(f), args)))
    ensures Lower(Expr(Call(Name(f), args)), s).buffer == s.buffer + [Pad(s.indent)]
  {
    assert Pad(s.indent) + "" == Pad(s.indent);
  }

  /** A `range` loop counts from zero to its first argument; a start or a
      step given as well is ignored. */
  lemma RangeUsesFirstArgument(v: string, a: Node, rest: seq<Node>, body: seq<Node>, s: TState)
    requires Renderable(a) && OkList(body)
    ensures Ok(For(v, Call(Name("range"), [a] + rest), body))
    ensures
      var t := Lower(For(v, Call(Name("range"), [a] + rest), body), s);
      |t.buffer| > |s.buffer| && t.buffer[|s.buffer|] == Pad(s.indent) + RangeHeader(v, Render(a))
  {
    var e := Emitted(s, RangeHeader(v, Render(a)));
    var u := Dedented(LowerList(body, Indented(e)));
    assert e.buffer <= u.buffer by {
      LowerListKeeps(body, Indented(e));
      KeepsDeeper(e, LowerList(body, Indented(e)));
    }
    RangeUnfold(v, a, rest, body, s);
    assert Emitted(u, "}").buffer[|s.buffer|] == e.buffer[|s.buffer|];
  }

  lemma RangeUnfold(v: string, a: Node, rest: seq<Node>, body: seq<Node>, s: TState)
    requires Renderable(a) && OkList(body)
    ensures Ok(For(v, Call(Name("range"), [a] + rest), body))
    ensures Lower(For(v, Call(Name("range"), [a] + rest), body), s)
         == Emitted(Dedented(LowerList(body, Indented(Emitted(s, RangeHeader(v, Render(a)))))), "}")
  {
    assert ([a] + rest)[0] == a;
  }

  // ---------------------------------------------------------------------
  // The visitor object.

  /** `GoTranspiler`: the shared visitor state plus the Go handlers. */
  class GoTranspiler {
    const base: BaseTranspiler

    constructor ()
      ensures fresh(base) && base.State() == Initial
    {
      base := new BaseTranspiler();
    }

    /** `visit` on the root: the tree is lowered and the lines joined. */
    method Visit(tree: Node) returns (out: string)
      requires Ok(tree)
      modifies base
      ensures base.State() == Lower(tree, old(base.State()))
      ensures out == Output(base.State())
    {
      Dispatch(tree);
      out := base.Joined();
    }

    /** The dispatch on the node kind; a plain function reaches the shared
        `visit_FunctionDef`, which does nothing. */
    method Dispatch(n: Node)
      requires Ok(n)
      modifies base
      ensures base.State() == Lower(n, old(base.State()))
      decreases Size(n), 3
    {
      if n.Module? {
        VisitModule(n);
      } else if n.FunctionDef? {
        // BaseTranspiler.visit_FunctionDef: nothing is emitted.
      } else if n.AsyncFunctionDef? {
        VisitAsyncFunctionDef(n);
      } else if n.Expr? {
        VisitExpr(n);
      } else if n.For? {
        VisitFor(n);
      } else if n.Assign? {
        VisitAssign(n);
      } else {
        GenericVisit(n);
      }
    }

    method VisitBody(ss: seq<Node>)
      requires OkList(ss)
      modifies base
      ensures base.State() == LowerList(ss, old(base.State()))
      decreases SizeList(ss), 4
    {
      OkListPrefixes(ss);
      var i := 0;
      while i < |ss|
        invariant 0 <= i <= |ss|
        invariant OkList(ss[..i])
        invariant base.State() == LowerList(ss[..i], old(base.State()))
      {
        SizeListElement(ss, i);
        OkListElement(ss, i);
        assert ss[..i + 1][..i] == ss[..i];
        Dispatch(ss[i]);
        i := i + 1;
      }
      assert ss[..|ss|] == ss;
    }

    method GenericVisit(n: Node)
      requires !(n.Module? || n.FunctionDef? || n.AsyncFunctionDef? || n.Expr? || n.For? || n.Assign?)
      requires Ok(n)
      modifies base
      ensures base.State() == Lower(n, old(base.State()))
      decreases Size(n), 2
    {
      ChildrenSize(n);
      VisitBody(Children(n));
    }

    method BaseVisitModule(ss: seq<Node>)
      requires OkList(ss)
      modifies base
      ensures base.State() == ModuleBody(ss, old(base.State()))
      decreases SizeList(ss), 4
    {
      OkListPrefixes(ss);
      var i := 0;
      while i < |ss|
        invariant 0 <= i <= |ss|
        invariant OkList(ss[..i])
        invariant base.State() == ModuleBody(ss[..i], old(base.State()))
      {
        SizeListElement(ss, i);
        OkListElement(ss, i);
        assert ss[..i + 1][..i] == ss[..i];
        Dispatch(ss[i]);
        base.Emit("");
        i := i + 1;
      }
      assert ss[..|ss|] == ss;
    }

    /** `visit_Module`: the header, the shared module loop, then `main`. */
    method VisitModule(n: Node)
      requires n.Module? && Ok(n)
      modifies base
      ensures base.State() == Lower(n, old(base.State()))
      decreases Size(n), 2
    {
      ghost var start := base.State();
      EmitHeader();
      BaseVisitModule(n.body);
      ghost var s1 := base.State();
      base.Emit("func main() {");
      base.indentLevel := base.indentLevel + 1;
      ghost var s0 := base.State();
      assert s0 == Indented(Emitted(s1, "func main() {"));
      EmitDemoCalls(n.body);
      ghost var s2 := base.State();
      base.indentLevel := base.indentLevel - 1;
      base.Emit("}");
      assert base.State() == Emitted(Dedented(s2), "}");
      ModuleUnfold(n.body, start);
    }

    /** The banner and the fixed header lines. */
    method EmitHeader()
      modifies base
      ensures base.State() == Headed(old(base.State()))
    {
      base.Emit("// Transpiled to Go");
      base.Emit("package main");
      base.Emit("import \"fmt\"");
      base.Emit("import \"time\"");
      base.Emit("");
    }

    /** The demo lines of `main`, one statement of the module at a time. */
    method EmitDemoCalls(ss: seq<Node>)
      modifies base
      ensures base.State() == DemoCalls(ss, old(base.State()))
    {
      var i := 0;
      while i < |ss|
        invariant 0 <= i <= |ss|
        invariant base.State() == DemoCalls(ss[..i], old(base.State()))
      {
        var child := ss[i];
        assert ss[..i + 1][..i] == ss[..i];
        if child.FunctionDef? || child.AsyncFunctionDef? {
          if Contains(child.name, "log") {
            base.Emit(child.name + "()");
          }
        }
        i := i + 1;
      }
      assert ss[..|ss|] == ss;
    }

    method VisitAsyncFunctionDef(n: Node)
      requires n.AsyncFunctionDef? && Ok(n)
      modifies base
      ensures base.State() == Lower(n, old(base.State()))
      decreases Size(n), 2
    {
      base.Emit("func " + n.name + "() {");
      base.indentLevel := base.indentLevel + 1;
      VisitBody(n.body);
      base.indentLevel := base.indentLevel - 1;
      base.Emit("}");
    }

    /** `visit_Expr`: an awaited `sleep` becomes `time.Sleep`, any other
        awaited value nothing, a call its rendered text. */
    method VisitExpr(n: Node)
      requires n.Expr? && Ok(n)
      modifies base
      ensures base.State() == Lower(n, old(base.State()))
      decreases Size(n), 2
    {
      if n.value.Await? {
        var call := n.value.value;
        if call.Call? && call.func.Attribute? && call.func.attr == "sleep" {
          var arg := ExprText(call.args[0]);
          base.Emit("time.Sleep(time.Duration(float64(time.Second) * " + arg + "))");
        }
      } else if n.value.Call? {
        var text := ExprText(n.value);
        base.Emit(text);
      }
    }

    /** `visit_For`: only a loop over `range(...)` is lowered, counting up
        to the first argument. */
    method VisitFor(n: Node)
      requires n.For? && Ok(n)
      modifies base
      ensures base.State() == Lower(n, old(base.State()))
      decreases Size(n), 2
    {
      var target := n.loopVar;
      if n.iter.Call? && n.iter.func.id == "range" {
        var args := n.iter.args;
        var limit := ExprText(args[0]);
        base.Emit("for " + target + " := 0; " + target + " < " + limit + "; " + target + "++ {");
        base.indentLevel := base.indentLevel + 1;
        VisitBody(n.body);
        base.indentLevel := base.indentLevel - 1;
        base.Emit("}");
      }
    }

    /** `visit_Assign`: `t := v`, kept alive with `_ = t` when the name
        mentions `processed` or `data`; an assignment to `_` stays one. */
    method VisitAssign(n: Node)
      requires n.Assign? && Ok(n)
      modifies base
      ensures base.State() == Lower(n, old(base.State()))
      decreases Size(n), 2
    {
      var target: string;
      if n.target.Name? {
        target := n.target.id;
      } else if n.target.Attribute? {
        target := n.target.attr;
      } else {
        base.Emit("// Complex assignment skipped");
        return;
      }
      var val := ExprText(n.value);
      if target == "_" {
        base.Emit("_ = " + val);
        return;
      }
      base.Emit(target + " := " + val);
      if Contains(target, "processed") || Contains(target, "data") {
        base.Emit("_ = " + target);
      }
    }

    /** `_expr`, with its loop over the parts of an f-string. */
    method ExprText(n: Node) returns (r: string)
      requires Renderable(n)
      ensures r == Render(n)
      decreases Size(n), 1
    {
      if n.Constant? {
        r := if n.literal.StrConst? then "\"" + n.literal.s + "\"" else n.literal.text;
      } else if n.Name? {
        r := n.id;
      } else if n.BinOp? {
        var a := ExprText(n.left);
        var b := ExprText(n.right);
        r := a + " + " + b;
      } else if n.Call? {
        if n.func.Name? && n.func.id == "print" {
          if |n.args| == 1 && n.args[0].JoinedStr? {
            SizeListElement(n.args, 0);
            RenderableListElement(n.args, 0);
            r := ExprText(n.args[0]);
          } else {
            var parts := ExprTexts(n.args);
            r := "fmt.Println(" + Join(", ", parts) + ")";
          }
        } else {
          r := "";
        }
      } else if n.JoinedStr? {
        var values := n.values;
        var fmt := "";
        var args: seq<string> := [];
        var i := 0;
        while i < |values|
          invariant 0 <= i <= |values|
          invariant PartsOkPrefix(values, i)
          invariant fmt == Format(values[..i])
          invariant args == FormatArgs(values[..i])
        {
          var v := values[i];
          assert values[..i + 1][..i] == values[..i];
          PartsOkStep(values, i);
          if v.Constant? {
            fmt := fmt + v.literal.s;
          } else if v.FormattedValue? {
            fmt := fmt + "%v";
            SizeListElement(values, i);
            var a := ExprText(v.value);
            args := args + [a];
          }
          i := i + 1;
        }
        assert values[..|values|] == values;
        r := "fmt.Printf(\"" + fmt + "\\n\", " + Join(", ", args) + ")";
      } else {
        r := "";
      }
    }

    /** `[self._expr(a) for a in args]`. */
    method ExprTexts(ss: seq<Node>) returns (r: seq<string>)
      requires RenderableList(ss)
      ensures r == RenderList(ss)
      decreases SizeList(ss), 2
    {
      RenderableListPrefixes(ss);
      r := [];
      var i := 0;
      while i < |ss|
        invariant 0 <= i <= |ss|
        invariant RenderableList(ss[..i])
        invariant r == RenderList(ss[..i])
      {
        assert ss[..i + 1][..i] == ss[..i];
        SizeListElement(ss, i);
        RenderableListElement(ss, i);
        var t := ExprText(ss[i]);
        r := r + [t];
        i := i + 1;
      }
      assert ss[..|ss|] == ss;
    }
  }

  /** The parts of an f-string before position `i` are well formed. */
  predicate PartsOkPrefix(values: seq<Node>, i: nat)
  {
    i <= |values| && PartsOk(values[..i])
  }

  /** Stepping over one more part of a well-formed f-string. */
  lemma PartsOkStep(values: seq<Node>, i: nat)
    requires PartsOkPrefix(values, i) && i < |values|
    requires PartsOk(values)
    ensures PartsOkPrefix(values, i + 1)
    ensures values[i].Constant? ==> values[i].literal.StrConst?
    ensures values[i].FormattedValue? ==> Renderable(values[i].value)
  {
    PartsOkElement(values, i);
    PartsOkPrefixes(values, i + 1);
  }

  lemma {:induction false} PartsOkElement(values: seq<Node>, i: nat)
    requires PartsOk(values) && i < |values|
    ensures values[i].Constant? ==> values[i].literal.StrConst?
    ensures values[i].FormattedValue? ==> Renderable(values[i].value)
  {
    if i < |values| - 1 {
      PartsOkElement(values[..|values| - 1], i);
    }
  }

  lemma {:induction false} PartsOkPrefixes(values: seq<Node>, i: nat)
    requires PartsOk(values) && i <= |values|
    ensures PartsOk(values[..i])
  {
    if i < |values| {
      assert values[..i] == values[..|values| - 1][..i];
      PartsOkPrefixes(values[..|values| - 1], i);
    } else {
      assert values[..i] == values;
    }
  }
}
