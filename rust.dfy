/** The Rust lowering (`RustTranspiler`, src/polyglot.py): the only target
    that consults the scope stack, to choose between `let mut x = v;` and
    `x = v;`. */
module RustLowering {
  import opened PyAst
  import opened Strings
  import opened Transpiler

  /** `_op`: the five arithmetic operators the lowering knows, `?` otherwise. */
  function Op(op: BinOperator): (r: string)
    ensures r == "?" <==> op == Pow || op == OtherOp
  {
    match op
    case Add => "+"
    case Sub => "-"
    case Mult => "*"
    case Div => "/"
    case Mod => "%"
    case _ => "?"
  }

  /** The comparison text of `_expr`; unlisted operators (`<=` itself, `is`,
      `in`, ...) fall back to `<=`. */
  function Cmp(c: CmpOperator): (r: string)
    ensures r == "<=" <==> c == LtE || c == OtherCmp
  {
    match c
    case NotEq => "!="
    case Eq => "=="
    case Lt => "<"
    case Gt => ">"
    case GtE => ">="
    case _ => "<="
  }

  /** `_expr`: names and numbers as written, strings re-quoted, binary
      operations parenthesised (`**` as `i32::pow`), calls of plain names,
      first comparisons; every other expression becomes `0`. */
  function Render(n: Node): string
    decreases Size(n), 0
  {
    match n
    case Name(id) => id
    case Constant(c) => if c.StrConst? then "\"" + c.s + "\"" else c.text
    case BinOp(l, op, r) =>
      if op == Pow then "i32::pow(" + Render(l) + ", " + Render(r) + " as u32)"
      else "(" + Render(l) + " " + Op(op) + " " + Render(r) + ")"
    case Call(func, args) => if func.Name? then func.id + "(" + Join(", ", RenderList(args)) + ")" else "0"
    case Compare(l, c, r) => Render(l) + " " + Cmp(c) + " " + Render(r)
    case _ => "0"
  }

  function RenderList(ss: seq<Node>): (r: seq<string>)
    ensures |r| == |ss|
    decreases SizeList(ss), 1
  {
    if ss == [] then [] else RenderList(ss[..|ss| - 1]) + [Render(ss[|ss| - 1])]
  }

  /** `_has_return` on a statement: a `return`, or an `if` with a `return`
      in either branch, at any depth of nested `if`s (and no deeper). */
  function HasReturn(n: Node): bool
    decreases Size(n), 0
  {
    match n
    case Return(_) => true
    case If(_, body, orelse) => HasReturnList(body) || HasReturnList(orelse)
    case _ => false
  }

  /** `_has_return` on a statement list. */
  function HasReturnList(ss: seq<Node>): bool
    decreases SizeList(ss), 1
  {
    ss != [] && (HasReturnList(ss[..|ss| - 1]) || HasReturn(ss[|ss| - 1]))
  }

  /** The list form is Python's `any(...)` over the elements. */
  lemma {:induction false} HasReturnListAny(ss: seq<Node>)
    ensures HasReturnList(ss) <==> exists i :: 0 <= i < |ss| && HasReturn(ss[i])
  {
    if ss != [] {
      HasReturnListAny(ss[..|ss| - 1]);
      if HasReturnList(ss[..|ss| - 1]) {
        var i :| 0 <= i < |ss| - 1 && HasReturn(ss[..|ss| - 1][i]);
        assert HasReturn(ss[i]);
      }
      if exists i :: 0 <= i < |ss| && HasReturn(ss[i]) {
        var i :| 0 <= i < |ss| && HasReturn(ss[i]);
        if i < |ss| - 1 {
          assert HasReturn(ss[..|ss| - 1][i]);
        }
      }
    }
  }

  /** The statements this lowering visits do not raise: an augmented
      assignment's target is a plain name (`node.target.id`), and a `for`
      over a call calls a plain name (`node.iter.func.id`). */
  predicate Ok(n: Node)
    decreases Size(n), 0
  {
    match n
    case Module(body) => OkList(body)
    case FunctionDef(_, _, body) => OkList(body)
    case Assign(_, _) => true
    case AugAssign(target, _, _) => target.Name?
    case Return(_) => true
    case For(_, iter, body) => iter.Call? ==> iter.func.Name? && (iter.func.id == "range" ==> OkList(body))
    case While(_, body) => OkList(body)
    case If(_, body, orelse) => OkList(body) && OkList(orelse)
    case _ => ChildrenSize(n); OkList(Children(n))
  }

  predicate OkList(ss: seq<Node>)
    decreases SizeList(ss), 1
  {
    ss == [] || (OkList(ss[..|ss| - 1]) && Ok(ss[|ss| - 1]))
  }

  lemma {:induction false} OkListElement(ss: seq<Node>, i: nat)
    requires OkList(ss) && i < |ss|
    ensures Ok(ss[i])
  {
    if i < |ss| - 1 {
      OkListElement(ss[..|ss| - 1], i);
    }
  }

  lemma {:induction false} OkListPrefixes(ss: seq<Node>)
    requires OkList(ss)
    ensures forall i :: 0 <= i <= |ss| ==> OkList(ss[..i])
  {
    if ss != [] {
      var t := ss[..|ss| - 1];
      OkListPrefixes(t);
      forall i | 0 <= i <= |ss|
        ensures OkList(ss[..i])
      {
        if i < |ss| {
          assert ss[..i] == t[..i];
        } else {
          assert ss[..i] == ss;
        }
      }
    }
  }

  /** The parameter list of a function header: `self` is dropped and every
      other parameter becomes `p: i32`. */
  function ParamDecls(params: seq<string>): (r: seq<string>)
    ensures |r| <= |params|
  {
    if params == [] then []
    else
      var last := params[|params| - 1];
      ParamDecls(params[..|params| - 1]) + (if last == "self" then [] else [last + ": i32"])
  }

  /** Every parameter but `self` is defined in the function's frame. */
  function DefineParams(params: seq<string>, s: TState): TState
  {
    if params == [] then s
    else
      var last := params[|params| - 1];
      var s1 := DefineParams(params[..|params| - 1], s);
      if last == "self" then s1 else WithVar(s1, last)
  }

  /** The target name of an assignment, for a `Name` or `Attribute` target. */
  function AssignTarget(target: Node): string
    requires target.Name? || target.Attribute?
  {
    if target.Name? then target.id else target.attr
  }

  /** The lines of the `main` function: for each top-level (non-async)
      definition, one demo call per rule its name matches. */
  function DemoCalls(ss: seq<Node>, s: TState): TState
  {
    if ss == [] then s
    else
      var s1 := DemoCalls(ss[..|ss| - 1], s);
      var c := ss[|ss| - 1];
      if c.FunctionDef? then
        var s2 := if Contains(c.name, "heavy") then Emitted(s1, "println!(\"Matrix Result: {}\", " + c.name + "());") else s1;
        var s3 := if Contains(c.name, "recursive") then Emitted(s2, "println!(\"Factorial(5): {}\", " + c.name + "(5));") else s2;
        if Contains(c.name, "collatz") then Emitted(s3, "println!(\"Collatz Sum: {}\", " + c.name + "());") else s3
      else s1
  }

  /** What visiting `n` does to the visitor's state. */
  function Lower(n: Node, s: TState): TState
    requires Ok(n)
    decreases Size(n), 1
  {
    match n
    case Module(body) =>
      var s1 := ModuleBody(body, Emitted(s, "// Transpiled to Rust"));
      var s2 := DemoCalls(body, Indented(Emitted(s1, "fn main() {")));
      Emitted(Dedented(s2), "}")
    case FunctionDef(name, params, body) =>
      var s1 := DefineParams(params, WithScope(s));
      var rtype := if HasReturnList(body) then " -> i32" else "";
      var s2 := Emitted(s1, "fn " + name + "(" + Join(", ", ParamDecls(params)) + ")" + rtype + " {");
      var s3 := LowerList(body, Indented(s2));
      WithoutScope(Emitted(Dedented(s3), "}"))
    case Assign(target, value) =>
      if target.Name? || target.Attribute? then
        var t := AssignTarget(target);
        var isDiv := value.BinOp? && value.op == Div;
        if !Defined(s.scopes, t) then
          WithVar(Emitted(s, if isDiv then "let mut " + t + " = " + Render(value) + " as i32;"
                             else "let mut " + t + " = " + Render(value) + ";"), t)
        else Emitted(s, if isDiv then t + " = " + Render(value) + " as i32;" else t + " = " + Render(value) + ";")
      else Emitted(s, "// Complex assignment skipped")
    case AugAssign(target, op, value) =>
      Emitted(s, target.id + " " + Op(op) + "= " + Render(value) + ";")
    case Return(value) =>
      Emitted(s, "return " + Render(value) + ";")
    case For(v, iter, body) =>
      var s1 := WithVar(WithScope(s), v);
      if iter.Call? && iter.func.id == "range" then
        var s3 := LowerList(body, Indented(RangeOpen(s1, v, iter.args)));
        WithoutScope(Emitted(Dedented(s3), "}"))
      else WithoutScope(s1)
    case While(test, body) =>
      var s1 := Emitted(WithScope(s), "while " + Render(test) + " {");
      var s2 := LowerList(body, Indented(s1));
      WithoutScope(Emitted(Dedented(s2), "}"))
    case If(test, body, orelse) =>
      var s1 := Indented(Emitted(s, "if " + Render(test) + " {"));
      var s2 := Dedented(WithoutScope(LowerList(body, WithScope(s1))));
      var s3 :=
        if orelse == [] then s2
        else Dedented(WithoutScope(LowerList(orelse, WithScope(Indented(Emitted(s2, "} else {"))))));
      Emitted(s3, "}")
    case _ =>
      ChildrenSize(n);
      LowerList(Children(n), s)
  }

  /** A statement list, visited in order. */
  /** The loop header `range` gets: from 0 for one argument, from the first
      for two, and no header at all for three (the step is never read). */
  function RangeOpen(s: TState, v: string, args: seq<Node>): TState
  {
    if |args| == 1 then Emitted(s, "for " + v + " in 0.." + Render(args[0]) + " {")
    else if |args| == 2 then Emitted(s, "for " + v + " in " + Render(args[0]) + ".." + Render(args[1]) + " {")
    else s
  }

  function LowerList(ss: seq<Node>, s: TState): TState
    requires OkList(ss)
    decreases SizeList(ss), 2
  {
    if ss == [] then s else Lower(ss[|ss| - 1], LowerList(ss[..|ss| - 1], s))
  }

  /** The shared `visit_Module` loop: each top-level statement followed by an
      empty line. */
  function ModuleBody(ss: seq<Node>, s: TState): TState
    requires OkList(ss)
    decreases SizeList(ss), 2
  {
    if ss == [] then s else Emitted(Lower(ss[|ss| - 1], ModuleBody(ss[..|ss| - 1], s)), "")
  }

  // ---------------------------------------------------------------------
  // What every visit preserves.

  lemma {:induction false} DefineParamsExtends(params: seq<string>, s: TState)
    ensures Extends(s, DefineParams(params, s))
  {
    if params != [] {
      var s1 := DefineParams(params[..|params| - 1], s);
      DefineParamsExtends(params[..|params| - 1], s);
      ExtendsVar(s1, params[|params| - 1]);
      ExtendsTrans(s, s1, DefineParams(params, s));
    }
  }

  lemma {:induction false} DemoCallsExtends(ss: seq<Node>, s: TState)
    ensures Extends(s, DemoCalls(ss, s))
  {
    if ss != [] {
      DemoCallsExtends(ss[..|ss| - 1], s);
    }
  }

  /** Every visit keeps the old lines, indents its own lines at least as deep
      as the level it starts at, and restores the indentation level and the
      scope-stack depth (a block's frame is popped on the way out). */
  lemma {:induction false} LowerExtends(n: Node, s: TState)
    requires Ok(n)
    ensures Extends(s, Lower(n, s))
    decreases Size(n), 1
  {
    match n
    case Module(_) => ModuleExtends(n, s);
    case FunctionDef(_, _, _) => FunctionDefExtends(n, s);
    case Assign(_, _) => AssignExtends(n, s);
    case AugAssign(_, _, _) => LineExtends(n, s);
    case Return(_) => LineExtends(n, s);
    case For(_, _, _) => ForExtends(n, s);
    case While(_, _) => WhileExtends(n, s);
    case If(_, _, _) => IfExtends(n, s);
    case _ => GenericExtends(n, s);
  }

  lemma AssignExtends(n: Node, s: TState)
    requires n.Assign?
    ensures Extends(s, Lower(n, s))
  {
    var target, value := n.target, n.value;
    if target.Name? || target.Attribute? {
      var t := AssignTarget(target);
      var isDiv := value.BinOp? && value.op == Div;
      if !Defined(s.scopes, t) {
        var line := if isDiv then "let mut " + t + " = " + Render(value) + " as i32;"
                    else "let mut " + t + " = " + Render(value) + ";";
        assert Lower(n, s) == WithVar(Emitted(s, line), t);
        ExtendsEmit(s, line);
        ExtendsVar(Emitted(s, line), t);
        ExtendsTrans(s, Emitted(s, line), Lower(n, s));
      } else {
        var line := if isDiv then t + " = " + Render(value) + " as i32;" else t + " = " + Render(value) + ";";
        assert Lower(n, s) == Emitted(s, line);
        ExtendsEmit(s, line);
      }
    } else {
      assert Lower(n, s) == Emitted(s, "// Complex assignment skipped");
      ExtendsEmit(s, "// Complex assignment skipped");
    }
  }

  lemma LineExtends(n: Node, s: TState)
    requires (n.AugAssign? && Ok(n)) || n.Return?
    ensures Extends(s, Lower(n, s))
  {
  }

  lemma {:induction false} GenericExtends(n: Node, s: TState)
    requires !(n.Module? || n.FunctionDef? || n.Assign? || n.AugAssign? || n.Return? || n.For? || n.While? || n.If?)
    requires Ok(n)
    ensures Extends(s, Lower(n, s))
    decreases Size(n), 0
  {
    ChildrenSize(n);
    LowerListExtends(Children(n), s);
  }

  lemma {:induction false} ModuleExtends(n: Node, s: TState)
    requires n.Module? && Ok(n)
    ensures Extends(s, Lower(n, s))
    decreases Size(n), 0
  {
    var body := n.body;
    var s0 := Emitted(s, "// Transpiled to Rust");
    var s1 := ModuleBody(body, s0);
    ModuleBodyExtends(body, s0);
    var m := Indented(Emitted(s1, "fn main() {"));
    DemoCallsExtends(body, m);
    ExtendsDeeper(Emitted(s1, "fn main() {"), DemoCalls(body, m));
    ExtendsTrans(s, s0, s1);
    ExtendsTrans(s, s1, Dedented(DemoCalls(body, m)));
  }

  /** A block one level deeper, in a state `s2` that extends `w`. */
  lemma BlockExtends(w: TState, s2: TState, body: seq<Node>)
    requires Extends(w, s2) && OkList(body)
    ensures Extends(w, Dedented(LowerList(body, Indented(s2))))
    ensures Extends(w, Emitted(Dedented(LowerList(body, Indented(s2))), "}"))
    decreases SizeList(body), 3
  {
    LowerListExtends(body, Indented(s2));
    ExtendsDeeper(s2, LowerList(body, Indented(s2)));
    ExtendsTrans(w, s2, Dedented(LowerList(body, Indented(s2))));
  }

  lemma {:induction false} FunctionDefExtends(n: Node, s: TState)
    requires n.FunctionDef? && Ok(n)
    ensures Extends(s, Lower(n, s))
    decreases Size(n), 0
  {
    var w := WithScope(s);
    var s1 := DefineParams(n.params, w);
    DefineParamsExtends(n.params, w);
    var rtype := if HasReturnList(n.body) then " -> i32" else "";
    var s2 := Emitted(s1, "fn " + n.name + "(" + Join(", ", ParamDecls(n.params)) + ")" + rtype + " {");
    ExtendsTrans(w, s1, s2);
    BlockExtends(w, s2, n.body);
    ExtendsScope(s, Emitted(Dedented(LowerList(n.body, Indented(s2))), "}"));
  }

  lemma {:induction false} ForExtends(n: Node, s: TState)
    requires n.For? && Ok(n)
    ensures Extends(s, Lower(n, s))
    decreases Size(n), 0
  {
    var v, iter := n.loopVar, n.iter;
    var s1 := WithVar(WithScope(s), v);
    ExtendsVar(WithScope(s), v);
    if iter.Call? && iter.func.id == "range" {
      var args := iter.args;
      var s2 :=
        if |args| == 1 then Emitted(s1, "for " + v + " in 0.." + Render(args[0]) + " {")
        else if |args| == 2 then Emitted(s1, "for " + v + " in " + Render(args[0]) + ".." + Render(args[1]) + " {")
        else s1;
      ExtendsTrans(WithScope(s), s1, s2);
      BlockExtends(WithScope(s), s2, n.body);
      ExtendsScope(s, Emitted(Dedented(LowerList(n.body, Indented(s2))), "}"));
    } else {
      ExtendsScope(s, s1);
    }
  }

  lemma {:induction false} WhileExtends(n: Node, s: TState)
    requires n.While? && Ok(n)
    ensures Extends(s, Lower(n, s))
    decreases Size(n), 0
  {
    var s1 := Emitted(WithScope(s), "while " + Render(n.test) + " {");
    BlockExtends(WithScope(s), s1, n.body);
    ExtendsScope(s, Emitted(Dedented(LowerList(n.body, Indented(s1))), "}"));
  }

  /** A branch of an `if`: one level deeper, in its own frame. */
  lemma BranchExtends(e: TState, body: seq<Node>)
    requires OkList(body)
    ensures Extends(e, Dedented(WithoutScope(LowerList(body, WithScope(Indented(e))))))
    decreases SizeList(body), 3
  {
    var s1 := Indented(e);
    LowerListExtends(body, WithScope(s1));
    ExtendsScope(s1, LowerList(body, WithScope(s1)));
    ExtendsDeeper(e, WithoutScope(LowerList(body, WithScope(s1))));
  }

  lemma {:induction false} IfExtends(n: Node, s: TState)
    requires n.If? && Ok(n)
    ensures Extends(s, Lower(n, s))
    decreases Size(n), 0
  {
    var e := Emitted(s, "if " + Render(n.test) + " {");
    BranchExtends(e, n.body);
    var s2 := Dedented(WithoutScope(LowerList(n.body, WithScope(Indented(e)))));
    ExtendsTrans(s, e, s2);
    if n.orelse != [] {
      var e2 := Emitted(s2, "} else {");
      BranchExtends(e2, n.orelse);
      ExtendsTrans(s, s2, e2);
      ExtendsTrans(s, e2, Dedented(WithoutScope(LowerList(n.orelse, WithScope(Indented(e2))))));
    }
  }

  lemma {:induction false} LowerListExtends(ss: seq<Node>, s: TState)
    requires OkList(ss)
    ensures Extends(s, LowerList(ss, s))
    decreases SizeList(ss), 2
  {
    if ss != [] {
      var s1 := LowerList(ss[..|ss| - 1], s);
      LowerListExtends(ss[..|ss| - 1], s);
      LowerExtends(ss[|ss| - 1], s1);
      ExtendsTrans(s, s1, LowerList(ss, s));
    }
  }

  lemma {:induction false} ModuleBodyExtends(ss: seq<Node>, s: TState)
    requires OkList(ss)
    ensures Extends(s, ModuleBody(ss, s))
    decreases SizeList(ss), 2
  {
    if ss != [] {
      var s1 := ModuleBody(ss[..|ss| - 1], s);
      ModuleBodyExtends(ss[..|ss| - 1], s);
      LowerExtends(ss[|ss| - 1], s1);
      ExtendsTrans(s, s1, Lower(ss[|ss| - 1], s1));
    }
  }

  // ---------------------------------------------------------------------
  // Consequences of the scope rule and of the `range` rule.

  /** Assigning a name twice declares it the first time and rebinds it the
      second: the first assignment defines the name in the top frame. */
  lemma DeclareThenRebind(s: TState, x: string, a: Node, b: Node)
    requires s.scopes != [] && !Defined(s.scopes, x)
    requires !(a.BinOp? && a.op == Div) && !(b.BinOp? && b.op == Div)
    ensures OkList([Assign(Name(x), a), Assign(Name(x), b)])
    ensures
      var t := LowerList([Assign(Name(x), a), Assign(Name(x), b)], s);
      t.buffer == s.buffer + [Pad(s.indent) + ("let mut " + x + " = " + Render(a) + ";"),
                              Pad(s.indent) + (x + " = " + Render(b) + ";")]
      && Defined(t.scopes, x)
  {
    var ss := [Assign(Name(x), a), Assign(Name(x), b)];
    assert ss[..1] == [Assign(Name(x), a)] && ss[..1][..0] == [];
    var t1 := Lower(Assign(Name(x), a), s);
    assert LowerList(ss[..1], s) == t1;
    DefineMakesDefined(Emitted(s, "let mut " + x + " = " + Render(a) + ";"), x);
    assert Defined(t1.scopes, x);
    var t2 := Lower(Assign(Name(x), b), t1);
    assert LowerList(ss, s) == t2;
  }

  /** An `if` whose branch assigns one name leaves the scope stack as it
      found it. */
  lemma IfAssignKeepsScopes(s: TState, test: Node, x: string, a: Node)
    requires s.scopes != []
    ensures Ok(If(test, [Assign(Name(x), a)], []))
    ensures Lower(If(test, [Assign(Name(x), a)], []), s).scopes == s.scopes
  {
    var branch := [Assign(Name(x), a)];
    assert branch[..0] == [];
    assert OkList(branch[..0]) && Ok(Assign(Name(x), a));
    var s1 := Indented(Emitted(s, "if " + Render(test) + " {"));
    assert LowerList(branch[..0], WithScope(s1)) == WithScope(s1);
    var inner := LowerList(branch, WithScope(s1));
    assert inner == Lower(Assign(Name(x), a), WithScope(s1));
    assert inner.scopes[..|s.scopes|] == s.scopes;
  }

  /** A name first assigned inside an `if` branch lives in that branch's
      frame, which is popped: assigning the name again after the `if`
      declares it afresh with `let mut`. */
  lemma IfBranchNamesAreForgotten(s: TState, test: Node, x: string, a: Node, b: Node)
    requires s.scopes != [] && !Defined(s.scopes, x)
    requires !(b.BinOp? && b.op == Div)
    ensures OkList([If(test, [Assign(Name(x), a)], []), Assign(Name(x), b)])
    ensures
      var t := LowerList([If(test, [Assign(Name(x), a)], []), Assign(Name(x), b)], s);
      |t.buffer| > 0 && t.buffer[|t.buffer| - 1] == Pad(s.indent) + ("let mut " + x + " = " + Render(b) + ";")
  {
    var i := If(test, [Assign(Name(x), a)], []);
    IfAssignKeepsScopes(s, test, x, a);
    var ss := [i, Assign(Name(x), b)];
    assert ss[..1] == [i] && ss[..1][..0] == [];
    assert OkList(ss[..1][..0]);
    assert OkList(ss[..1]);
    var t1 := Lower(i, s);
    LowerExtends(i, s);
    assert LowerList(ss[..1], s) == t1;
    assert LowerList(ss, s) == Lower(Assign(Name(x), b), t1);
  }

  /** A `range` loop with three arguments gets no header, yet its body and
      closing brace are emitted. */
  lemma RangeStepDropsHeader(s: TState, v: string, a: Node, b: Node, c: Node)
    ensures Ok(For(v, Call(Name("range"), [a, b, c]), []))
    ensures Lower(For(v, Call(Name("range"), [a, b, c]), []), s).buffer == s.buffer + [Pad(s.indent) + "}"]
  {
    var s1 := WithVar(WithScope(s), v);
    assert s1.buffer == s.buffer && s1.indent == s.indent;
    assert LowerList([], Indented(s1)) == Indented(s1);
    assert Lower(For(v, Call(Name("range"), [a, b, c]), []), s) == WithoutScope(Emitted(Dedented(Indented(s1)), "}"));
  }

  /** A loop over anything but `range(...)` emits nothing: not even its
      body is visited, and the state is as before. */
  lemma NonRangeLoopVanishes(s: TState, v: string, iter: Node, body: seq<Node>)
    requires !(iter.Call? && iter.func.Name? && iter.func.id == "range")
    requires iter.Call? ==> iter.func.Name?
    ensures Ok(For(v, iter, body))
    ensures Lower(For(v, iter, body), s) == s
  {
    var s1 := WithVar(WithScope(s), v);
    assert s1.scopes[..|s.scopes|] == s.scopes;
  }

  /** The shape of a program's output: the banner first, then the module
      body, then `main`, whose closing brace is the last line. */
  /** What a module's lines look like from outside: the banner first, at
      least three lines in all, `main` closed by `}` last, and the level
      and the scope depth restored. */
  predicate ModuleLines(s: TState, t: TState)
  {
    |t.buffer| >= |s.buffer| + 3
    && t.buffer[|s.buffer|] == Pad(s.indent) + "// Transpiled to Rust"
    && t.buffer[|t.buffer| - 1] == Pad(s.indent) + "}"
    && t.indent == s.indent && |t.scopes| == |s.scopes|
  }

  lemma ModuleShape(body: seq<Node>, s: TState)
    requires OkList(body)
    ensures ModuleLines(s, Lower(Module(body), s))
  {
    var s0 := Emitted(s, "// Transpiled to Rust");
    ModuleBodyExtends(body, s0);
    var s1 := ModuleBody(body, s0);
    var m := Indented(Emitted(s1, "fn main() {"));
    DemoCallsExtends(body, m);
    assert Lower(Module(body), s) == Emitted(Dedented(DemoCalls(body, m)), "}");
    ClosedMain(s, s1, DemoCalls(body, m));
  }

  /** The closing brace of `main` ends a module, after the banner. */
  lemma ClosedMain(s: TState, s1: TState, d: TState)
    requires Extends(Emitted(s, "// Transpiled to Rust"), s1) && Extends(Indented(Emitted(s1, "fn main() {")), d)
    ensures ModuleLines(s, Emitted(Dedented(d), "}"))
  {
    var s0 := Emitted(s, "// Transpiled to Rust");
    var m := Indented(Emitted(s1, "fn main() {"));
    assert s1.buffer <= m.buffer;
    PrefixTrans(s0.buffer, s1.buffer, m.buffer);
    PrefixTrans(s0.buffer, m.buffer, d.buffer);
    assert d.buffer[|s.buffer|] == s0.buffer[|s.buffer|];
  }

  /** A string constant is written between double quotes, its text
      unchanged inside them. */
  lemma StringRequoted(text: string)
    ensures
      var r := Render(Constant(StrConst(text)));
      |r| == |text| + 2 && r[0] == '"' && r[|r| - 1] == '"' && r[1..|r| - 1] == text
  {
    var r := Render(Constant(StrConst(text)));
    assert r == "\"" + text + "\"";
  }

  /** Attributes, subscripts, f-strings, awaits, lists and calls of
      anything but a plain name all degrade to `0`. */
  lemma UnhandledExpressionsAreZero(n: Node)
    requires !(n.Name? || n.Constant? || n.BinOp? || n.Compare?)
    requires n.Call? ==> !n.func.Name?
    ensures Render(n) == "0"
  {
  }

  /** Defining the parameters writes no line and keeps the level. */
  lemma {:induction false} DefineParamsSilent(params: seq<string>, s: TState)
    ensures DefineParams(params, s).buffer == s.buffer
    ensures DefineParams(params, s).indent == s.indent
  {
    if params != [] {
      DefineParamsSilent(params[..|params| - 1], s);
    }
  }

  /** The header line of a function: its name, its parameters without
      `self`, and ` -> i32` when its body returns. */
  function FunctionHeader(name: string, params: seq<string>, body: seq<Node>): string
  {
    "fn " + name + "(" + Join(", ", ParamDecls(params)) + ")" + (if HasReturnList(body) then " -> i32" else "") + " {"
  }

  lemma FunctionDefUnfold(name: string, params: seq<string>, body: seq<Node>, s: TState)
    requires OkList(body)
    ensures Lower(FunctionDef(name, params, body), s)
         == WithoutScope(Emitted(Dedented(LowerList(body, Indented(Emitted(DefineParams(params, WithScope(s)), FunctionHeader(name, params, body))))), "}"))
  {
  }

  /** `_has_return` over a body: some statement is a `return` or an `if`
      with a `return` in it. */
  lemma HasReturnListIff(body: seq<Node>)
    ensures HasReturnList(body) <==> exists i :: 0 <= i < |body| && (body[i].Return? || (body[i].If? && HasReturn(body[i])))
  {
    HasReturnListAny(body);
    if exists i :: 0 <= i < |body| && HasReturn(body[i]) {
      var i :| 0 <= i < |body| && HasReturn(body[i]);
      assert body[i].Return? || body[i].If?;
    }
  }

  /** The header declares ` -> i32` exactly when some statement of the
      body is a `return`, or an `if` with a `return` in a branch (at any
      depth of nested `if`s). */
  lemma FunctionHeaderReturnType(name: string, params: seq<string>, body: seq<Node>)
    ensures
      var header := "fn " + name + "(" + Join(", ", ParamDecls(params)) + ")";
      && (FunctionHeader(name, params, body) == header + " -> i32" + " {" || FunctionHeader(name, params, body) == header + " {")
      && (FunctionHeader(name, params, body) == header + " -> i32" + " {" <==>
          exists i :: 0 <= i < |body| && (body[i].Return? || (body[i].If? && HasReturn(body[i]))))
  {
    var header := "fn " + name + "(" + Join(", ", ParamDecls(params)) + ")";
    HasReturnListIff(body);
    if !HasReturnList(body) {
      assert |FunctionHeader(name, params, body)| != |header + " -> i32" + " {"|;
    }
  }

  /** A function's first line is its header, at the level of the
      definition, in a fresh frame holding the parameters. */
  lemma FunctionStartsWithHeader(name: string, params: seq<string>, body: seq<Node>, s: TState)
    requires OkList(body)
    ensures
      var t := Lower(FunctionDef(name, params, body), s);
      |t.buffer| > |s.buffer| && t.buffer[|s.buffer|] == Pad(s.indent) + FunctionHeader(name, params, body)
  {
    var line := FunctionHeader(name, params, body);
    var w := WithScope(s);
    var s1 := DefineParams(params, w);
    DefineParamsSilent(params, w);
    var s2 := Emitted(s1, line);
    ExtendsRefl(s2);
    BlockExtends(s2, s2, body);
    FunctionDefUnfold(name, params, body, s);
    var t := Lower(FunctionDef(name, params, body), s);
    assert t.buffer == Emitted(Dedented(LowerList(body, Indented(s2))), "}").buffer;
    assert s2.buffer[|s.buffer|] == Pad(s.indent) + line;
  }

  /** A binary operation is parenthesised, except `**`, which becomes a
      call of `i32::pow`. */
  lemma ParenthesisedUnlessPow(l: Node, op: BinOperator, r: Node)
    ensures
      var t := Render(BinOp(l, op, r));
      |t| > 0 && (t[0] == '(' <==> op != Pow) && (op != Pow ==> t[|t| - 1] == ')')
    ensures op == Pow ==> "i32::pow(" <= Render(BinOp(l, op, r))
  {
    var t := Render(BinOp(l, op, r));
    if op == Pow {
      assert t[0] == 'i';
    } else {
      assert t[0] == '(';
    }
  }

  /** A division on the right of an assignment is cast back with
      ` as i32`, whether the name is declared there or rebound. */
  lemma DivisionIsCastBack(s: TState, x: string, l: Node, r: Node)
    ensures Ok(Assign(Name(x), BinOp(l, Div, r)))
    ensures
      var t := Lower(Assign(Name(x), BinOp(l, Div, r)), s);
      var e := Render(BinOp(l, Div, r));
      && (!Defined(s.scopes, x) ==> t.buffer == s.buffer + [Pad(s.indent) + ("let mut " + x + " = " + e + " as i32;")])
      && (Defined(s.scopes, x) ==> t.buffer == s.buffer + [Pad(s.indent) + (x + " = " + e + " as i32;")])
  {
  }

  /** An assignment to anything but a name or an attribute is skipped with
      a comment, and defines nothing. */
  lemma ComplexAssignmentSkipped(s: TState, target: Node, value: Node)
    requires !(target.Name? || target.Attribute?)
    ensures Ok(Assign(target, value))
    ensures Lower(Assign(target, value), s).buffer == s.buffer + [Pad(s.indent) + "// Complex assignment skipped"]
    ensures Lower(Assign(target, value), s).scopes == s.scopes
  {
  }

  /** The lines of a `range` loop after its header, and its frame popped. */
  lemma RangeBody(s: TState, v: string, line: string, body: seq<Node>)
    requires OkList(body)
    ensures
      var s2 := Emitted(WithVar(WithScope(s), v), line);
      var t := WithoutScope(Emitted(Dedented(LowerList(body, Indented(s2))), "}"));
      |t.buffer| > |s.buffer| && t.buffer[|s.buffer|] == Pad(s.indent) + line
  {
    var s2 := Emitted(WithVar(WithScope(s), v), line);
    ExtendsRefl(s2);
    BlockExtends(s2, s2, body);
    assert s2.buffer[|s.buffer|] == Pad(s.indent) + line;
  }

  /** One step of `Lower` on a loop over `range(...)`. */
  lemma RangeUnfold(s: TState, v: string, iter: Node, body: seq<Node>)
    requires iter.Call? && iter.func.Name? && iter.func.id == "range" && OkList(body)
    ensures Ok(For(v, iter, body))
    ensures Lower(For(v, iter, body), s)
         == WithoutScope(Emitted(Dedented(LowerList(body, Indented(RangeOpen(WithVar(WithScope(s), v), v, iter.args)))), "}"))
  {
  }

  /** `range(n)` counts from 0. */
  lemma RangeFromZero(s: TState, v: string, a: Node, body: seq<Node>)
    requires OkList(body)
    ensures Ok(For(v, Call(Name("range"), [a]), body))
    ensures
      var t := Lower(For(v, Call(Name("range"), [a]), body), s);
      |t.buffer| > |s.buffer| && t.buffer[|s.buffer|] == Pad(s.indent) + ("for " + v + " in 0.." + Render(a) + " {")
  {
    var line := "for " + v + " in 0.." + Render(a) + " {";
    var s2 := Emitted(WithVar(WithScope(s), v), line);
    RangeUnfold(s, v, Call(Name("range"), [a]), body);
    assert RangeOpen(WithVar(WithScope(s), v), v, [a]) == s2;
    RangeBody(s, v, line, body);
  }

  /** `range(a, b)` counts from `a`. */
  lemma RangeFromStart(s: TState, v: string, a: Node, b: Node, body: seq<Node>)
    requires OkList(body)
    ensures Ok(For(v, Call(Name("range"), [a, b]), body))
    ensures
      var t := Lower(For(v, Call(Name("range"), [a, b]), body), s);
      |t.buffer| > |s.buffer| && t.buffer[|s.buffer|] == Pad(s.indent) + ("for " + v + " in " + Render(a) + ".." + Render(b) + " {")
  {
    var line := "for " + v + " in " + Render(a) + ".." + Render(b) + " {";
    var s2 := Emitted(WithVar(WithScope(s), v), line);
    RangeUnfold(s, v, Call(Name("range"), [a, b]), body);
    assert RangeOpen(WithVar(WithScope(s), v), v, [a, b]) == s2;
    RangeBody(s, v, line, body);
  }

  /** The calls `fn main` makes for one function: one per keyword its name
      contains (`heavy`, `recursive`, `collatz`); the rules are independent. */
  lemma DemoCallsPerKeyword(name: string, params: seq<string>, body: seq<Node>, s: TState)
    ensures |DemoCalls([FunctionDef(name, params, body)], s).buffer| == |s.buffer|
      + (if Contains(name, "heavy") then 1 else 0)
      + (if Contains(name, "recursive") then 1 else 0)
      + (if Contains(name, "collatz") then 1 else 0)
  {
    assert [FunctionDef(name, params, body)][..0] == [];
  }

  /** A statement whose name matches no demo-call rule. */
  predicate Unmatched(n: Node)
  {
    n.FunctionDef? ==> !Contains(n.name, "heavy") && !Contains(n.name, "recursive") && !Contains(n.name, "collatz")
  }

  /** When no function matches, `fn main` holds no call at all. */
  lemma {:induction false} UnmatchedGetNoCall(ss: seq<Node>, s: TState)
    requires forall i :: 0 <= i < |ss| ==> Unmatched(ss[i])
    ensures DemoCalls(ss, s) == s
  {
    if ss != [] {
      var m := |ss| - 1;
      assert forall i :: 0 <= i < m ==> ss[..m][i] == ss[i];
      UnmatchedGetNoCall(ss[..m], s);
    }
  }

  /** An expression emits nothing: no expression node has a handler, and
      the generic visit below it meets only expressions. */
  lemma {:induction false} ExpressionEmitsNothing(n: Node, s: TState)
    requires Expression(n)
    ensures Ok(n) && Lower(n, s) == s
    decreases Size(n), 1
  {
    ChildrenSize(n);
    ExpressionsEmitNothing(Children(n), s);
  }

  lemma {:induction false} ExpressionsEmitNothing(ss: seq<Node>, s: TState)
    requires Expressions(ss)
    ensures OkList(ss) && LowerList(ss, s) == s
    decreases SizeList(ss), 2
  {
    if ss != [] {
      ExpressionsEmitNothing(ss[..|ss| - 1], s);
      ExpressionEmitsNothing(ss[|ss| - 1], s);
    }
  }

  // ---------------------------------------------------------------------
  // The visitor object.

  /** `RustTranspiler`: the shared visitor state plus the Rust handlers. */
  class RustTranspiler {
    const base: BaseTranspiler

    constructor ()
      ensures fresh(base) && base.State() == Initial
    {
      base := new BaseTranspiler();
    }

    /** `visit` on the root: the tree is lowered and the lines joined. */
    method Visit(tree: Node) returns (out: string)
      requires Ok(tree)
      modifies base
      ensures base.State() == Lower(tree, old(base.State()))
      ensures out == Output(base.State())
    {
      Dispatch(tree);
      out := base.Joined();
    }

    /** The visitor's dispatch on the node kind. */
    method Dispatch(n: Node)
      requires Ok(n)
      modifies base
      ensures base.State() == Lower(n, old(base.State()))
      decreases Size(n), 3
    {
      match n
      case Module(_) => VisitModule(n);
      case FunctionDef(_, _, _) => VisitFunctionDef(n);
      case Assign(_, _) => VisitAssign(n);
      case AugAssign(_, _, _) => VisitAugAssign(n);
      case Return(_) => VisitReturn(n);
      case For(_, _, _) => VisitFor(n);
      case While(_, _) => VisitWhile(n);
      case If(_, _, _) => VisitIf(n);
      case _ => GenericVisit(n);
    }

    /** `for stmt in body: self.visit(stmt)`. */
    method VisitBody(ss: seq<Node>)
      requires OkList(ss)
      modifies base
      ensures base.State() == LowerList(ss, old(base.State()))
      decreases SizeList(ss), 4
    {
      OkListPrefixes(ss);
      var i := 0;
      while i < |ss|
        invariant 0 <= i <= |ss|
        invariant OkList(ss[..i])
        invariant base.State() == LowerList(ss[..i], old(base.State()))
      {
        SizeListElement(ss, i);
        OkListElement(ss, i);
        assert ss[..i + 1][..i] == ss[..i];
        Dispatch(ss[i]);
        i := i + 1;
      }
      assert ss[..|ss|] == ss;
    }

    /** `generic_visit`: the children in field order. */
    method GenericVisit(n: Node)
      requires !(n.Module? || n.FunctionDef? || n.Assign? || n.AugAssign? || n.Return? || n.For? || n.While? || n.If?)
      requires Ok(n)
      modifies base
      ensures base.State() == Lower(n, old(base.State()))
      decreases Size(n), 2
    {
      ChildrenSize(n);
      VisitBody(Children(n));
    }

    /** `visit_Module`: the header, the shared module loop, then `main`. */
    method VisitModule(n: Node)
      requires n.Module? && Ok(n)
      modifies base
      ensures base.State() == Lower(n, old(base.State()))
      decreases Size(n), 2
    {
      ghost var start := base.State();
      base.Emit("// Transpiled to Rust");
      ghost var sb := base.State();
      assert sb == Emitted(start, "// Transpiled to Rust");
      BaseVisitModule(n.body);
      ghost var s1 := base.State();
      base.Emit("fn main() {");
      base.indentLevel := base.indentLevel + 1;
      ghost var s0 := base.State();
      assert s0 == Indented(Emitted(s1, "fn main() {"));
      EmitDemoCalls(n.body);
      ghost var s2 := base.State();
      base.indentLevel := base.indentLevel - 1;
      base.Emit("}");
      assert base.State() == Emitted(Dedented(s2), "}");
      assert Lower(n, start) == Emitted(Dedented(DemoCalls(n.body, s0)), "}");
    }

    /** The demo lines of `main`, one statement of the module at a time. */
    method EmitDemoCalls(ss: seq<Node>)
      modifies base
      ensures base.State() == DemoCalls(ss, old(base.State()))
    {
      var i := 0;
      while i < |ss|
        invariant 0 <= i <= |ss|
        invariant base.State() == DemoCalls(ss[..i], old(base.State()))
      {
        var child := ss[i];
        assert ss[..i + 1][..i] == ss[..i];
        if child.FunctionDef? {
          if Contains(child.name, "heavy") {
            base.Emit("println!(\"Matrix Result: {}\", " + child.name + "());");
          }
          if Contains(child.name, "recursive") {
            base.Emit("println!(\"Factorial(5): {}\", " + child.name + "(5));");
          }
          if Contains(child.name, "collatz") {
            base.Emit("println!(\"Collatz Sum: {}\", " + child.name + "());");
          }
        }
        i := i + 1;
      }
      assert ss[..|ss|] == ss;
    }

    /** `BaseTranspiler.visit_Module`: each statement, then an empty line. */
    method BaseVisitModule(ss: seq<Node>)
      requires OkList(ss)
      modifies base
      ensures base.State() == ModuleBody(ss, old(base.State()))
      decreases SizeList(ss), 4
    {
      OkListPrefixes(ss);
      var i := 0;
      while i < |ss|
        invariant 0 <= i <= |ss|
        invariant OkList(ss[..i])
        invariant base.State() == ModuleBody(ss[..i], old(base.State()))
      {
        SizeListElement(ss, i);
        OkListElement(ss, i);
        assert ss[..i + 1][..i] == ss[..i];
        Dispatch(ss[i]);
        base.Emit("");
        i := i + 1;
      }
      assert ss[..|ss|] == ss;
    }

    /** `visit_FunctionDef`: a frame for the parameters, the header with
        ` -> i32` when the body returns, the body one level deeper. */
    method VisitFunctionDef(n: Node)
      requires n.FunctionDef? && Ok(n)
      modifies base
      ensures base.State() == Lower(n, old(base.State()))
      decreases Size(n), 2
    {
      ghost var start := base.State();
      base.EnterScope();
      var args := DefineParameters(n.params);
      var rtype := if HasReturnList(n.body) then " -> i32" else "";
      base.Emit("fn " + n.name + "(" + Join(", ", args) + ")" + rtype + " {");
      base.indentLevel := base.indentLevel + 1;
      ghost var s2 := base.State();
      assert s2 == Indented(Emitted(DefineParams(n.params, WithScope(start)), FunctionHeader(n.name, n.params, n.body)));
      VisitBody(n.body);
      ghost var s3 := base.State();
      base.indentLevel := base.indentLevel - 1;
      base.Emit("}");
      base.ExitScope();
      assert base.State() == WithoutScope(Emitted(Dedented(s3), "}"));
      FunctionDefUnfold(n.name, n.params, n.body, start);
    }

    /** The parameter loop of `visit_FunctionDef`: every parameter but
        `self` is declared and defined. */
    method DefineParameters(params: seq<string>) returns (args: seq<string>)
      modifies base
      ensures args == ParamDecls(params)
      ensures base.State() == DefineParams(params, old(base.State()))
    {
      args := [];
      var i := 0;
      while i < |params|
        invariant 0 <= i <= |params|
        invariant args == ParamDecls(params[..i])
        invariant base.State() == DefineParams(params[..i], old(base.State()))
      {
        var a := params[i];
        assert params[..i + 1][..i] == params[..i];
        if a != "self" {
          args := args + [a + ": i32"];
          base.DefineVar(a);
        }
        i := i + 1;
      }
      assert params[..|params|] == params;
    }

    /** `visit_Assign`: declare a name the scope chain does not know, rebind
        one it knows. */
    method VisitAssign(n: Node)
      requires n.Assign?
      modifies base
      ensures base.State() == Lower(n, old(base.State()))
      decreases Size(n), 2
    {
      var target: string;
      if n.target.Name? {
        target := n.target.id;
      } else if n.target.Attribute? {
        target := n.target.attr;
      } else {
        base.Emit("// Complex assignment skipped");
        return;
      }
      var isFloatDiv := n.value.BinOp? && n.value.op == Div;
      var val := Render(n.value);
      var defined := base.IsDefined(target);
      if !defined {
        if isFloatDiv {
          base.Emit("let mut " + target + " = " + val + " as i32;");
        } else {
          base.Emit("let mut " + target + " = " + val + ";");
        }
        base.DefineVar(target);
      } else {
        if isFloatDiv {
          base.Emit(target + " = " + val + " as i32;");
        } else {
          base.Emit(target + " = " + val + ";");
        }
      }
    }

    method VisitAugAssign(n: Node)
      requires n.AugAssign? && Ok(n)
      modifies base
      ensures base.State() == Lower(n, old(base.State()))
      decreases Size(n), 2
    {
      var target := n.target.id;
      var op := Op(n.op);
      var val := Render(n.value);
      base.Emit(target + " " + op + "= " + val + ";");
    }

    method VisitReturn(n: Node)
      requires n.Return?
      modifies base
      ensures base.State() == Lower(n, old(base.State()))
      decreases Size(n), 2
    {
      var val := Render(n.value);
      base.Emit("return " + val + ";");
    }

    /** `visit_For`: a frame holding the loop variable; only `range` loops
        are lowered, with a header for one or two arguments. */
    method VisitFor(n: Node)
      requires n.For? && Ok(n)
      modifies base
      ensures base.State() == Lower(n, old(base.State()))
      decreases Size(n), 2
    {
      ghost var start := base.State();
      base.EnterScope();
      var target := n.loopVar;
      base.DefineVar(target);
      ghost var s1 := base.State();
      assert s1 == WithVar(WithScope(start), target);
      if n.iter.Call? && n.iter.func.id == "range" {
        var args := n.iter.args;
        if |args| == 1 {
          var limit := Render(args[0]);
          base.Emit("for " + target + " in 0.." + limit + " {");
        } else if |args| == 2 {
          var start := Render(args[0]);
          var limit := Render(args[1]);
          base.Emit("for " + target + " in " + start + ".." + limit + " {");
        }
        assert base.State() == RangeOpen(s1, target, args);
        base.indentLevel := base.indentLevel + 1;
        VisitBody(n.body);
        ghost var s3 := base.State();
        base.indentLevel := base.indentLevel - 1;
        base.Emit("}");
        assert base.State() == Emitted(Dedented(s3), "}");
      }
      base.ExitScope();
    }

    method VisitWhile(n: Node)
      requires n.While? && Ok(n)
      modifies base
      ensures base.State() == Lower(n, old(base.State()))
      decreases Size(n), 2
    {
      base.EnterScope();
      var cond := Render(n.test);
      base.Emit("while " + cond + " {");
      base.indentLevel := base.indentLevel + 1;
      VisitBody(n.body);
      base.indentLevel := base.indentLevel - 1;
      base.Emit("}");
      base.ExitScope();
    }

    /** `visit_If`: each branch one level deeper in a frame of its own;
        `} else {` only when the else branch is non-empty. */
    method VisitIf(n: Node)
      requires n.If? && Ok(n)
      modifies base
      ensures base.State() == Lower(n, old(base.State()))
      decreases Size(n), 2
    {
      ghost var s0 := base.State();
      var cond := Render(n.test);
      base.Emit("if " + cond + " {");
      VisitBranch(n.body);
      ghost var s2 := base.State();
      assert s2 == Dedented(WithoutScope(LowerList(n.body, WithScope(Indented(Emitted(s0, "if " + Render(n.test) + " {"))))));
      if n.orelse != [] {
        base.Emit("} else {");
        VisitBranch(n.orelse);
      }
      assert base.State() == if n.orelse == [] then s2
        else Dedented(WithoutScope(LowerList(n.orelse, WithScope(Indented(Emitted(s2, "} else {"))))));
      base.Emit("}");
    }

    /** One branch of `visit_If`: one level deeper, in a frame of its own. */
    method VisitBranch(ss: seq<Node>)
      requires OkList(ss)
      modifies base
      ensures base.State() == Dedented(WithoutScope(LowerList(ss, WithScope(Indented(old(base.State()))))))
      decreases SizeList(ss), 5
    {
      base.indentLevel := base.indentLevel + 1;
      base.EnterScope();
      VisitBody(ss);
      base.ExitScope();
      base.indentLevel := base.indentLevel - 1;
    }
  }
}
