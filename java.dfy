/** The Java lowering (`JavaTranspiler`, src/polyglot.py): classes become
    static nested classes with a fixed set of fields, their methods become
    `String` methods (constructors get canned bodies), and `main` builds the
    demo objects of two known classes. The visitor remembers the class it is
    in (`current_class`); it is set by each class definition and never
    reset. */
module JavaLowering {
  import opened PyAst
  import opened Strings
  import opened Transpiler

  // ---------------------------------------------------------------------
  // Expressions (`_expr`).

  /** `_expr` does not raise: `str(...)` has an argument, and every part it
      renders is renderable. */
  predicate Renderable(n: Node)
    decreases Size(n), 0
  {
    match n
    case BinOp(l, _, r) => Renderable(l) && Renderable(r)
    case Compare(l, _, r) => Renderable(l) && Renderable(r)
    case Call(func, args) =>
      if func.Attribute? && func.attr == "upper" then
        assert Size(func) == 1 + Size(func.value);
        Renderable(func.value)
      else if func.Name? && func.id == "str" then |args| > 0 && (SizeListElement(args, 0); Renderable(args[0]))
      else func.Name? ==> RenderableList(args)
    case _ => true
  }

  predicate RenderableList(ss: seq<Node>)
    decreases SizeList(ss), 1
  {
    ss == [] || (RenderableList(ss[..|ss| - 1]) && Renderable(ss[|ss| - 1]))
  }

  /** The operator text: `-` for a subtraction, `+` for everything else. */
  function Op(op: BinOperator): (r: string)
    ensures r == "-" <==> op == Sub
    ensures r == "+" <==> op != Sub
  {
    if op == Sub then "-" else "+"
  }

  /** `_expr`: every attribute becomes a field of `this`, `x.upper()`
      becomes `toUpperCase`, `str(x)` becomes `String.valueOf`, calls of
      other names are kept, every comparison becomes `>=`; everything else
      is the empty string. */
  function Render(n: Node): string
    requires Renderable(n)
    decreases Size(n), 0
  {
    match n
    case BinOp(l, op, r) => Render(l) + " " + Op(op) + " " + Render(r)
    case Attribute(_, attr) => "this." + attr
    case Name(id) => id
    case Constant(c) => if c.StrConst? then "\"" + c.s + "\"" else c.text
    case Call(func, args) =>
      if func.Attribute? && func.attr == "upper" then
        assert Size(func) == 1 + Size(func.value);
        Render(func.value) + ".toUpperCase()"
      else if func.Name? && func.id == "str" then
        SizeListElement(args, 0);
        "String.valueOf(" + Render(args[0]) + ")"
      else if func.Name? then func.id + "(" + Join(", ", RenderList(args)) + ")"
      else ""
    case Compare(l, _, r) => Render(l) + " >= " + Render(r)
    case _ => ""
  }

  function RenderList(ss: seq<Node>): (r: seq<string>)
    requires RenderableList(ss)
    ensures |r| == |ss|
    decreases SizeList(ss), 1
  {
    if ss == [] then [] else RenderList(ss[..|ss| - 1]) + [Render(ss[|ss| - 1])]
  }

  /** An attribute of any object is read as a field of `this`. */
  lemma AttributeIgnoresObject(a: Node, b: Node, attr: string)
    ensures Render(Attribute(a, attr)) == Render(Attribute(b, attr)) == "this." + attr
  {
  }

  /** Every comparison is written `>=`, so its text does not depend on the
      operator. */
  lemma EveryComparisonIsAtLeast(l: Node, c: CmpOperator, other: CmpOperator, r: Node)
    requires Renderable(l) && Renderable(r)
    ensures Render(Compare(l, c, r)) == Render(l) + " >= " + Render(r)
    ensures Render(Compare(l, c, r)) == Render(Compare(l, other, r))
  {
  }

  // ---------------------------------------------------------------------
  // The visitor's state.

  /** The shared state plus `current_class`. */
  datatype JState = JState(out: TState, currentClass: string)

  function Put(s: JState, text: string): JState
  {
    s.(out := Emitted(s.out, text))
  }

  function In(s: JState): JState
  {
    s.(out := Indented(s.out))
  }

  function Out(s: JState): JState
  {
    s.(out := Dedented(s.out))
  }

  // ---------------------------------------------------------------------
  // Statements.

  /** The statements the lowering visits do not raise. */
  predicate Ok(n: Node)
    decreases Size(n), 0
  {
    match n
    case Module(body) => OkList(body)
    case ClassDef(_, body) => MethodsOk(body)
    case FunctionDef(_, _, _) => true
    case If(test, body, orelse) => Renderable(test) && OkList(body) && OkList(orelse)
    case Return(value) =>
      if IsInstanceCall(value) then |value.args| > 0 && Renderable(value.args[0])
      else Renderable(value)
    case Assign(target, value) => target.Attribute? ==> Renderable(value)
    case AugAssign(target, _, value) => target.Attribute? ==> Renderable(value)
    case _ => ChildrenSize(n); OkList(Children(n))
  }

  predicate OkList(ss: seq<Node>)
    decreases SizeList(ss), 1
  {
    ss == [] || (OkList(ss[..|ss| - 1]) && Ok(ss[|ss| - 1]))
  }

  /** The methods of a class body (its plain function definitions) do not
      raise; nothing else in the body is visited. */
  predicate MethodsOk(ss: seq<Node>)
    decreases SizeList(ss), 1
  {
    if ss == [] then true
    else
      var m := ss[|ss| - 1];
      SizeListElement(ss, |ss| - 1);
      MethodsOk(ss[..|ss| - 1]) && (m.FunctionDef? ==> OkList(m.body))
  }

  /** `return isinstance(...)`. */
  predicate IsInstanceCall(value: Node)
  {
    value.Call? && value.func.Name? && value.func.id == "isinstance"
  }

  lemma {:induction false} OkListElement(ss: seq<Node>, i: nat)
    requires OkList(ss) && i < |ss|
    ensures Ok(ss[i])
  {
    if i < |ss| - 1 {
      OkListElement(ss[..|ss| - 1], i);
    }
  }

  lemma {:induction false} OkListPrefixes(ss: seq<Node>)
    requires OkList(ss)
    ensures forall i :: 0 <= i <= |ss| ==> OkList(ss[..i])
  {
    if ss != [] {
      var t := ss[..|ss| - 1];
      OkListPrefixes(t);
      forall i | 0 <= i <= |ss|
        ensures OkList(ss[..i])
      {
        if i < |ss| {
          assert ss[..i] == t[..i];
        } else {
          assert ss[..i] == ss;
        }
      }
    }
  }

  lemma {:induction false} MethodsOkPrefixes(ss: seq<Node>)
    requires MethodsOk(ss)
    ensures forall i :: 0 <= i <= |ss| ==> MethodsOk(ss[..i])
    ensures forall i :: 0 <= i < |ss| && ss[i].FunctionDef? ==> OkList(ss[i].body)
  {
    if ss != [] {
      var t := ss[..|ss| - 1];
      MethodsOkPrefixes(t);
      forall i | 0 <= i <= |ss|
        ensures MethodsOk(ss[..i])
      {
        if i < |ss| {
          assert ss[..i] == t[..i];
        } else {
          assert ss[..i] == ss;
        }
      }
      forall i | 0 <= i < |ss| - 1 && ss[i].FunctionDef?
        ensures OkList(ss[i].body)
      {
        assert ss[i] == t[i];
      }
    }
  }

  /** A method's parameter list: `self` is dropped, a parameter whose name
      contains `amount` is an `int`, every other one a `String`. */
  function ParamDecls(params: seq<string>): (r: seq<string>)
    ensures |r| <= |params|
  {
    if params == [] then []
    else
      var a := params[|params| - 1];
      ParamDecls(params[..|params| - 1])
        + (if a == "self" then [] else [(if Contains(a, "amount") then "int" else "String") + " " + a])
  }

  /** The fields every class gets. */
  function Fields(s: JState): JState
  {
    var s1 := Put(Put(Put(s, "String id;"), "int quantity;"), "String name;");
    Put(Put(Put(s1, "int balance;"), "String status;"), "String sku;")
  }

  /** The canned body of a constructor. */
  function ConstructorBody(s: JState): JState
  {
    if s.currentClass == "BankAccount" then
      Put(Put(Put(s, "this.id = id;"), "this.balance = 1000;"), "this.status = \"Active\";")
    else Put(Put(s, "this.name = name;"), "this.status = \"Active\";")
  }

  /** The lines of `main` for the classes of the module: demo objects of
      `EnterpriseCustomerManager` and `BankAccount`. */
  function DemoCalls(ss: seq<Node>, s: JState): JState
  {
    if ss == [] then s
    else
      var s1 := DemoCalls(ss[..|ss| - 1], s);
      var c := ss[|ss| - 1];
      if c.ClassDef? then
        var s2 := if c.name == "EnterpriseCustomerManager" then ManagerDemo(s1) else s1;
        if c.name == "BankAccount" then AccountDemo(s2) else s2
      else s1
  }

  /** The two demo lines for `EnterpriseCustomerManager`. */
  function ManagerDemo(s: JState): JState
  {
    Put(Put(s, "EnterpriseCustomerManager mgr = new EnterpriseCustomerManager(\"Acme Corp\");"),
        "System.out.println(mgr.get_customer_details());")
  }

  /** The three demo lines for `BankAccount`. */
  function AccountDemo(s: JState): JState
  {
    Put(Put(Put(s, "BankAccount acc = new BankAccount(\"ACC-123\");"), "System.out.println(acc.deposit(500));"),
        "System.out.println(acc.withdraw(200));")
  }

  /** What visiting `n` does to the visitor's state. */
  function Lower(n: Node, s: JState): JState
    requires Ok(n)
    decreases Size(n), 2
  {
    match n
    case Module(body) =>
      var s1 := ModuleBody(body, In(Put(Put(s, "// Transpiled to Java"), "public class Main {")));
      var s2 := In(Put(s1, "public static void main(String[] args) {"));
      var s3 := DemoCalls(body, Put(s2, "System.out.println(\"Running Java Demo...\");"));
      Put(Out(Put(Out(s3), "}")), "}")
    case ClassDef(name, body) =>
      var s1 := Fields(In(Put(s.(currentClass := name), "static class " + name + " {")));
      Put(Out(Methods(body, s1)), "}")
    case FunctionDef(_, _, _) => s
    case If(test, body, orelse) =>
      var s1 := Out(LowerList(body, In(Put(s, "if (" + Render(test) + ") {"))));
      var s2 := if orelse == [] then s1 else Out(LowerList(orelse, In(Put(s1, "} else {"))));
      Put(s2, "}")
    case Return(value) =>
      if IsInstanceCall(value) then Put(s, "return " + Render(value.args[0]) + " instanceof String;")
      else Put(s, "return " + Render(value) + ";")
    case Assign(target, value) =>
      if target.Attribute? then Put(s, "this." + target.attr + " = " + Render(value) + ";") else s
    case AugAssign(target, op, value) =>
      if target.Attribute? then
        Put(s, "this." + target.attr + " " + (if op == Add then "+" else "-") + "= " + Render(value) + ";")
      else s
    case _ =>
      ChildrenSize(n);
      LowerList(Children(n), s)
  }

  /** `visit_Method`: a constructor gets its canned body and the name of the
      current class; any other method returns `String` (`boolean` for
      `validate`) and has its body lowered. */
  function Method(m: Node, s: JState): JState
    requires m.FunctionDef? && OkList(m.body)
    decreases Size(m), 1
  {
    var params := Join(", ", ParamDecls(m.params));
    if m.name == "__init__" then
      Put(Out(ConstructorBody(In(Put(s, "public " + s.currentClass + "(" + params + ") {")))), "}")
    else
      var rtype := if m.name == "validate" then "boolean" else "String";
      Put(Out(LowerList(m.body, In(Put(s, "public " + rtype + " " + m.name + "(" + params + ") {")))), "}")
  }

  /** The plain function definitions of a class body, each as a method. */
  function Methods(ss: seq<Node>, s: JState): JState
    requires MethodsOk(ss)
    decreases SizeList(ss), 3
  {
    if ss == [] then s
    else
      var s1 := Methods(ss[..|ss| - 1], s);
      var m := ss[|ss| - 1];
      SizeListElement(ss, |ss| - 1);
      if m.FunctionDef? then Method(m, s1) else s1
  }

  function LowerList(ss: seq<Node>, s: JState): JState
    requires OkList(ss)
    decreases SizeList(ss), 3
  {
    if ss == [] then s else Lower(ss[|ss| - 1], LowerList(ss[..|ss| - 1], s))
  }

  /** The shared `visit_Module` loop: each statement, then an empty line. */
  function ModuleBody(ss: seq<Node>, s: JState): JState
    requires OkList(ss)
    decreases SizeList(ss), 3
  {
    if ss == [] then s else Put(Lower(ss[|ss| - 1], ModuleBody(ss[..|ss| - 1], s)), "")
  }

  /** One step of `Lower` on a module and on a class. */
  lemma ModuleUnfold(body: seq<Node>, s: JState)
    requires OkList(body)
    ensures
      var s1 := ModuleBody(body, In(Put(Put(s, "// Transpiled to Java"), "public class Main {")));
      var s2 := In(Put(s1, "public static void main(String[] args) {"));
      Lower(Module(body), s) == Put(Out(Put(Out(DemoCalls(body, Put(s2, "System.out.println(\"Running Java Demo...\");"))), "}")), "}")
  {
  }

  lemma ClassUnfold(name: string, body: seq<Node>, s: JState)
    requires MethodsOk(body)
    ensures
      Lower(ClassDef(name, body), s)
        == Put(Out(Methods(body, Fields(In(Put(s.(currentClass := name), "static class " + name + " {"))))), "}")
  {
  }

  // ---------------------------------------------------------------------
  // What every visit preserves.

  /** The output of `t` keeps that of `s`; the class name may change. */
  predicate JKeeps(s: JState, t: JState)
  {
    Keeps(s.out, t.out)
  }

  lemma JKeepsTrans(a: JState, b: JState, c: JState)
    requires JKeeps(a, b) && JKeeps(b, c)
    ensures JKeeps(a, c)
  {
    KeepsTrans(a.out, b.out, c.out);
  }

  lemma JKeepsDeeper(s: JState, t: JState)
    requires JKeeps(In(s), t)
    ensures JKeeps(s, Out(t))
  {
    KeepsDeeper(s.out, t.out);
  }

  lemma JKeepsBlock(w: JState, e: JState, body: seq<Node>)
    requires JKeeps(w, e) && OkList(body)
    ensures JKeeps(w, Put(Out(LowerList(body, In(e))), "}"))
    ensures JKeeps(w, Out(LowerList(body, In(e))))
    decreases SizeList(body), 4
  {
    LowerListKeeps(body, In(e));
    JKeepsDeeper(e, LowerList(body, In(e)));
    JKeepsTrans(w, e, Out(LowerList(body, In(e))));
  }

  lemma {:induction false} DemoCallsKeeps(ss: seq<Node>, s: JState)
    ensures JKeeps(s, DemoCalls(ss, s))
  {
    if ss != [] {
      var s1 := DemoCalls(ss[..|ss| - 1], s);
      DemoCallsKeeps(ss[..|ss| - 1], s);
      var c := ss[|ss| - 1];
      if c.ClassDef? {
        var s2 := if c.name == "EnterpriseCustomerManager" then ManagerDemo(s1) else s1;
        DemoKeeps(s1);
        JKeepsTrans(s, s1, s2);
        DemoKeeps(s2);
        JKeepsTrans(s, s2, if c.name == "BankAccount" then AccountDemo(s2) else s2);
      }
    }
  }

  lemma PutKeeps(s: JState, text: string)
    ensures JKeeps(s, Put(s, text))
  {
    ExtendsEmit(s.out, text);
  }

  /** The demo lines are appended at the current level. */
  lemma DemoKeeps(s: JState)
    ensures JKeeps(s, s) && JKeeps(s, ManagerDemo(s)) && JKeeps(s, AccountDemo(s))
  {
    ExtendsRefl(s.out);
    var m := Put(s, "EnterpriseCustomerManager mgr = new EnterpriseCustomerManager(\"Acme Corp\");");
    PutKeeps(s, "EnterpriseCustomerManager mgr = new EnterpriseCustomerManager(\"Acme Corp\");");
    PutKeeps(m, "System.out.println(mgr.get_customer_details());");
    JKeepsTrans(s, m, ManagerDemo(s));
    var a := Put(s, "BankAccount acc = new BankAccount(\"ACC-123\");");
    var b := Put(a, "System.out.println(acc.deposit(500));");
    PutKeeps(s, "BankAccount acc = new BankAccount(\"ACC-123\");");
    PutKeeps(a, "System.out.println(acc.deposit(500));");
    PutKeeps(b, "System.out.println(acc.withdraw(200));");
    JKeepsTrans(s, a, b);
    JKeepsTrans(s, b, AccountDemo(s));
  }

  /** Every visit keeps the old lines, indents its own lines at least as
      deep as the level it starts at, restores the indentation level and
      leaves the scope stack alone. */
  lemma {:induction false} LowerKeeps(n: Node, s: JState)
    requires Ok(n)
    ensures JKeeps(s, Lower(n, s))
    decreases Size(n), 2
  {
    match n
    case Module(_) => ModuleKeeps(n, s);
    case ClassDef(_, _) => ClassKeeps(n, s);
    case FunctionDef(_, _, _) =>
    case If(_, _, _) => IfKeeps(n, s);
    case Return(_) =>
    case Assign(_, _) =>
    case AugAssign(_, _, _) =>
    case _ =>
      ChildrenSize(n);
      LowerListKeeps(Children(n), s);
  }

  lemma {:induction false} ModuleKeeps(n: Node, s: JState)
    requires n.Module? && Ok(n)
    ensures JKeeps(s, Lower(n, s))
    decreases Size(n), 1
  {
    var body := n.body;
    var e := Put(Put(s, "// Transpiled to Java"), "public class Main {");
    var s1 := ModuleBody(body, In(e));
    ModuleBodyKeeps(body, In(e));
    var e2 := In(Put(s1, "public static void main(String[] args) {"));
    var e3 := Put(e2, "System.out.println(\"Running Java Demo...\");");
    var s3 := DemoCalls(body, e3);
    DemoCallsKeeps(body, e3);
    JKeepsTrans(e2, e3, s3);
    JKeepsDeeper(Put(s1, "public static void main(String[] args) {"), s3);
    JKeepsTrans(In(e), s1, Out(s3));
    JKeepsDeeper(e, Put(Out(s3), "}"));
  }

  lemma {:induction false} ClassKeeps(n: Node, s: JState)
    requires n.ClassDef? && Ok(n)
    ensures JKeeps(s, Lower(n, s))
    decreases Size(n), 1
  {
    var e := In(Put(s.(currentClass := n.name), "static class " + n.name + " {"));
    var f := Fields(e);
    MethodsKeeps(n.body, f);
    JKeepsTrans(e, f, Methods(n.body, f));
    JKeepsDeeper(Put(s.(currentClass := n.name), "static class " + n.name + " {"), Methods(n.body, f));
  }

  lemma {:induction false} IfKeeps(n: Node, s: JState)
    requires n.If? && Ok(n)
    ensures JKeeps(s, Lower(n, s))
    decreases Size(n), 1
  {
    var e := Put(s, "if (" + Render(n.test) + ") {");
    JKeepsBlock(s, e, n.body);
    var s1 := Out(LowerList(n.body, In(e)));
    if n.orelse != [] {
      var e2 := Put(s1, "} else {");
      JKeepsTrans(s, s1, e2);
      JKeepsBlock(s, e2, n.orelse);
    }
  }

  lemma {:induction false} MethodKeeps(m: Node, s: JState)
    requires m.FunctionDef? && OkList(m.body)
    ensures JKeeps(s, Method(m, s))
    decreases Size(m), 1
  {
    var params := Join(", ", ParamDecls(m.params));
    if m.name != "__init__" {
      var rtype := if m.name == "validate" then "boolean" else "String";
      JKeepsBlock(s, Put(s, "public " + rtype + " " + m.name + "(" + params + ") {"), m.body);
    }
  }

  lemma {:induction false} MethodsKeeps(ss: seq<Node>, s: JState)
    requires MethodsOk(ss)
    ensures JKeeps(s, Methods(ss, s))
    decreases SizeList(ss), 3
  {
    if ss != [] {
      var t := ss[..|ss| - 1];
      MethodsKeeps(t, s);
      var m := ss[|ss| - 1];
      SizeListElement(ss, |ss| - 1);
      if m.FunctionDef? {
        MethodKeeps(m, Methods(t, s));
        JKeepsTrans(s, Methods(t, s), Methods(ss, s));
      }
    }
  }

  lemma {:induction false} LowerListKeeps(ss: seq<Node>, s: JState)
    requires OkList(ss)
    ensures JKeeps(s, LowerList(ss, s))
    decreases SizeList(ss), 3
  {
    if ss != [] {
      var t := ss[..|ss| - 1];
      LowerListKeeps(t, s);
      LowerKeeps(ss[|ss| - 1], LowerList(t, s));
      JKeepsTrans(s, LowerList(t, s), LowerList(ss, s));
    }
  }

  lemma {:induction false} ModuleBodyKeeps(ss: seq<Node>, s: JState)
    requires OkList(ss)
    ensures JKeeps(s, ModuleBody(ss, s))
    decreases SizeList(ss), 3
  {
    if ss != [] {
      var t := ss[..|ss| - 1];
      ModuleBodyKeeps(t, s);
      var u := Lower(ss[|ss| - 1], ModuleBody(t, s));
      LowerKeeps(ss[|ss| - 1], ModuleBody(t, s));
      JKeepsTrans(s, ModuleBody(t, s), u);
      JKeepsTrans(s, u, ModuleBody(ss, s));
    }
  }

  // ---------------------------------------------------------------------
  // Consequences of the lowering rules.

  /** `main` exercises a class only under one of two exact names: two
      lines for `EnterpriseCustomerManager`, three for `BankAccount`. */
  lemma DemoCallsForExactNames(name: string, body: seq<Node>, s: JState)
    ensures |DemoCalls([ClassDef(name, body)], s).out.buffer| == |s.out.buffer|
      + (if name == "EnterpriseCustomerManager" then 2 else if name == "BankAccount" then 3 else 0)
  {
    assert [ClassDef(name, body)][..0] == [];
  }

  /** When no class has one of the two names, `main` holds no call. */
  lemma {:induction false} UnmatchedGetNoCall(ss: seq<Node>, s: JState)
    requires forall i :: 0 <= i < |ss| ==> ss[i].ClassDef? ==> ss[i].name != "EnterpriseCustomerManager" && ss[i].name != "BankAccount"
    ensures DemoCalls(ss, s) == s
  {
    if ss != [] {
      var m := |ss| - 1;
      assert forall i :: 0 <= i < m ==> ss[..m][i] == ss[i];
      UnmatchedGetNoCall(ss[..m], s);
    }
  }

  /** An expression emits nothing. */
  lemma {:induction false} ExpressionEmitsNothing(n: Node, s: JState)
    requires Expression(n)
    ensures Ok(n) && Lower(n, s) == s
    decreases Size(n), 2
  {
    ChildrenSize(n);
    ExpressionsEmitNothing(Children(n), s);
  }

  lemma {:induction false} ExpressionsEmitNothing(ss: seq<Node>, s: JState)
    requires Expressions(ss)
    ensures OkList(ss) && LowerList(ss, s) == s
    decreases SizeList(ss), 3
  {
    if ss != [] {
      ExpressionsEmitNothing(ss[..|ss| - 1], s);
      ExpressionEmitsNothing(ss[|ss| - 1], s);
    }
  }

  /** Two lines, a body that keeps them, and two closing lines each one
      level shallower: the first two lines and the last are where they were
      put. */
  lemma Wrapped(s: TState, a: string, b: string, mid: TState, c: string)
    requires Emitted(Emitted(s, a), b).buffer <= mid.buffer
    ensures
      var t := Emitted(Dedented(Emitted(Dedented(mid), c)), c);
      |t.buffer| == |mid.buffer| + 2
      && t.buffer[|s.buffer|] == Pad(s.indent) + a
      && t.buffer[|s.buffer| + 1] == Pad(s.indent) + b
      && t.buffer[|t.buffer| - 1] == Pad(mid.indent - 2) + c
  {
    EmittedTwice(s, a, b);
    EmittedAcrossDedent(Dedented(mid), c, c);
  }

  /** The shape of a program's output: the banner and the wrapping class
      first, the closing brace of that class last. */
  lemma {:induction false} ModuleShape(body: seq<Node>, s: JState)
    requires OkList(body)
    ensures
      var t := Lower(Module(body), s).out;
      |t.buffer| >= |s.out.buffer| + 6
      && t.buffer[|s.out.buffer|] == Pad(s.out.indent) + "// Transpiled to Java"
      && t.buffer[|s.out.buffer| + 1] == Pad(s.out.indent) + "public class Main {"
      && t.buffer[|t.buffer| - 1] == Pad(s.out.indent) + "}"
      && t.indent == s.out.indent && t.scopes == s.out.scopes
  {
    var e := Put(Put(s, "// Transpiled to Java"), "public class Main {");
    var s1 := ModuleBody(body, In(e));
    var s2 := In(Put(s1, "public static void main(String[] args) {"));
    var s3 := Put(s2, "System.out.println(\"Running Java Demo...\");");
    var d := DemoCalls(body, s3);
    assert e.out.buffer <= s1.out.buffer && s1.out.indent == s.out.indent + 1 && s1.out.scopes == s.out.scopes by {
      ModuleBodyKeeps(body, In(e));
    }
    assert s3.out.buffer <= d.out.buffer && d.out.indent == s.out.indent + 2 && d.out.scopes == s.out.scopes by {
      DemoCallsKeeps(body, s3);
    }
    assert Lower(Module(body), s).out == Emitted(Dedented(Emitted(Dedented(d.out), "}")), "}") by {
      ModuleUnfold(body, s);
    }
    assert s1.out.buffer <= s3.out.buffer;
    PrefixTrans(e.out.buffer, s1.out.buffer, s3.out.buffer);
    PrefixTrans(e.out.buffer, s3.out.buffer, d.out.buffer);
    Wrapped(s.out, "// Transpiled to Java", "public class Main {", d.out, "}");
  }

  /** The shape of a class: its header, the six fixed fields one level
      deeper, its methods, and its closing brace last. */
  lemma {:induction false} ClassShape(name: string, body: seq<Node>, s: JState)
    requires MethodsOk(body)
    ensures
      var t := Lower(ClassDef(name, body), s);
      var k := |s.out.buffer|;
      |t.out.buffer| >= k + 8
      && t.out.buffer[k] == Pad(s.out.indent) + ("static class " + name + " {")
      && t.out.buffer[k + 1 .. k + 7]
         == seq(6, i requires 0 <= i < 6 => Pad(s.out.indent + 1) + ["String id;", "int quantity;", "String name;", "int balance;", "String status;", "String sku;"][i])
      && t.out.buffer[|t.out.buffer| - 1] == Pad(s.out.indent) + "}"
      && t.out.indent == s.out.indent && t.out.scopes == s.out.scopes
  {
    var h := Put(s.(currentClass := name), "static class " + name + " {");
    var f := Fields(In(h));
    var p := Pad(s.out.indent + 1);
    assert f.out.buffer == s.out.buffer + [Pad(s.out.indent) + ("static class " + name + " {"),
      p + "String id;", p + "int quantity;", p + "String name;", p + "int balance;", p + "String status;", p + "String sku;"];
    var m := Methods(body, f);
    assert f.out.buffer <= m.out.buffer && m.out.indent == s.out.indent + 1 && m.out.scopes == s.out.scopes by {
      MethodsKeeps(body, f);
    }
    ClassUnfold(name, body, s);
  }

  /** `current_class` is never restored: a class defined inside a method
      stays the current class after the outer class is done, so later
      constructors are named after it. */
  lemma CurrentClassLeaks(outer: string, f: string, params: seq<string>, inner: string, s: JState)
    requires f != "__init__"
    ensures Ok(ClassDef(outer, [FunctionDef(f, params, [ClassDef(inner, [])])]))
    ensures Lower(ClassDef(outer, [FunctionDef(f, params, [ClassDef(inner, [])])]), s).currentClass == inner
  {
    var c := ClassDef(inner, []);
    var m := FunctionDef(f, params, [c]);
    assert [m][..0] == [];
    assert [c][..0] == [];
    assert Ok(c);
    assert OkList([c]);
    assert MethodsOk([m]);
    var fields := Fields(In(Put(s.(currentClass := outer), "static class " + outer + " {")));
    var rtype := if f == "validate" then "boolean" else "String";
    var e := In(Put(fields, "public " + rtype + " " + f + "(" + Join(", ", ParamDecls(params)) + ") {"));
    assert LowerList([c], e) == Lower(c, e);
    assert Lower(c, e).currentClass == inner;
    assert Methods([m], fields) == Method(m, fields);
  }

  /** A constructor's body is never lowered: two constructors with the same
      parameters give the same lines, whatever their bodies. */
  lemma ConstructorIgnoresBody(params: seq<string>, b1: seq<Node>, b2: seq<Node>, s: JState)
    requires OkList(b1) && OkList(b2)
    ensures Method(FunctionDef("__init__", params, b1), s) == Method(FunctionDef("__init__", params, b2), s)
  {
  }

  /** A constructor is named after the class being visited, and a class
      definition makes its own name the class being visited. */
  lemma ConstructorTakesClassName(name: string, params: seq<string>, body: seq<Node>, s: JState)
    requires OkList(body)
    ensures
      var e := Fields(In(Put(s.(currentClass := name), "static class " + name + " {")));
      var t := Method(FunctionDef("__init__", params, body), e);
      |t.out.buffer| > |e.out.buffer|
      && t.out.buffer[|e.out.buffer|] == Pad(e.out.indent) + ("public " + name + "(" + Join(", ", ParamDecls(params)) + ") {")
  {
    var e := Fields(In(Put(s.(currentClass := name), "static class " + name + " {")));
    assert e.currentClass == name;
    var h := Put(e, "public " + name + "(" + Join(", ", ParamDecls(params)) + ") {");
    var t := Method(FunctionDef("__init__", params, body), e);
    assert h.out.buffer <= t.out.buffer by {
      assert JKeeps(In(h), ConstructorBody(In(h)));
      JKeepsDeeper(h, ConstructorBody(In(h)));
    }
  }

  /** Assignments to plain names, and function definitions outside a class,
      emit nothing. */
  lemma NamesAndFreeFunctionsVanish(x: string, v: Node, name: string, params: seq<string>, body: seq<Node>, s: JState)
    ensures Ok(Assign(Name(x), v)) && Lower(Assign(Name(x), v), s) == s
    ensures Ok(FunctionDef(name, params, body)) && Lower(FunctionDef(name, params, body), s) == s
  {
  }

  // ---------------------------------------------------------------------
  // The visitor object.

  /** `JavaTranspiler`: the shared visitor state, `current_class`, and the
      Java handlers. */
  class JavaTranspiler {
    const base: BaseTranspiler
    var currentClass: string

    function State(): JState
      reads this, base
    {
      JState(base.State(), currentClass)
    }

    constructor ()
      ensures fresh(base) && State() == JState(Initial, "")
    {
      base := new BaseTranspiler();
      currentClass := "";
    }

    /** `visit` on the root: the tree is lowered and the lines joined. */
    method Visit(tree: Node) returns (out: string)
      requires Ok(tree)
      modifies this, base
      ensures State() == Lower(tree, old(State()))
      ensures out == Output(base.State())
    {
      Dispatch(tree);
      out := base.Joined();
    }

    /** The dispatch on the node kind; a function outside a class reaches
        the shared `visit_FunctionDef`, which does nothing. */
    method Dispatch(n: Node)
      requires Ok(n)
      modifies this, base
      ensures State() == Lower(n, old(State()))
      decreases Size(n), 4
    {
      if n.Module? {
        VisitModule(n);
      } else if n.ClassDef? {
        VisitClassDef(n);
      } else if n.FunctionDef? {
        // BaseTranspiler.visit_FunctionDef: nothing is emitted.
      } else if n.If? {
        VisitIf(n);
      } else if n.Return? {
        VisitReturn(n);
      } else if n.Assign? {
        VisitAssign(n);
      } else if n.AugAssign? {
        VisitAugAssign(n);
      } else {
        GenericVisit(n);
      }
    }

    method VisitBody(ss: seq<Node>)
      requires OkList(ss)
      modifies this, base
      ensures State() == LowerList(ss, old(State()))
      decreases SizeList(ss), 5
    {
      OkListPrefixes(ss);
      var i := 0;
      while i < |ss|
        invariant 0 <= i <= |ss|
        invariant OkList(ss[..i])
        invariant State() == LowerList(ss[..i], old(State()))
      {
        SizeListElement(ss, i);
        OkListElement(ss, i);
        assert ss[..i + 1][..i] == ss[..i];
        Dispatch(ss[i]);
        i := i + 1;
      }
      assert ss[..|ss|] == ss;
    }

    method GenericVisit(n: Node)
      requires !(n.Module? || n.ClassDef? || n.FunctionDef? || n.If? || n.Return? || n.Assign? || n.AugAssign?)
      requires Ok(n)
      modifies this, base
      ensures State() == Lower(n, old(State()))
      decreases Size(n), 3
    {
      ChildrenSize(n);
      VisitBody(Children(n));
    }

    method BaseVisitModule(ss: seq<Node>)
      requires OkList(ss)
      modifies this, base
      ensures State() == ModuleBody(ss, old(State()))
      decreases SizeList(ss), 5
    {
      OkListPrefixes(ss);
      var i := 0;
      while i < |ss|
        invariant 0 <= i <= |ss|
        invariant OkList(ss[..i])
        invariant State() == ModuleBody(ss[..i], old(State()))
      {
        SizeListElement(ss, i);
        OkListElement(ss, i);
        assert ss[..i + 1][..i] == ss[..i];
        ghost var before := State();
        Dispatch(ss[i]);
        ghost var after := State();
        base.Emit("");
        assert State() == Put(after, "");
        assert ModuleBody(ss[..i + 1], old(State())) == Put(Lower(ss[i], before), "");
        i := i + 1;
      }
      assert ss[..|ss|] == ss;
    }

    /** `visit_Module`: the wrapping class, the shared module loop, then
        `main` with the demo objects of the known classes. */
    method VisitModule(n: Node)
      requires n.Module? && Ok(n)
      modifies this, base
      ensures State() == Lower(n, old(State()))
      decreases Size(n), 3
    {
      ghost var start := State();
      OpenModule();
      BaseVisitModule(n.body);
      OpenMain();
      EmitDemoCalls(n.body);
      CloseMain();
      ModuleUnfold(n.body, start);
    }

    /** The banner and the opening of the enclosing class. */
    method OpenModule()
      modifies base
      ensures State() == In(Put(Put(old(State()), "// Transpiled to Java"), "public class Main {"))
    {
      base.Emit("// Transpiled to Java");
      base.Emit("public class Main {");
      base.indentLevel := base.indentLevel + 1;
    }

    /** The opening of `main` and its first line. */
    method OpenMain()
      modifies base
      ensures State() == Put(In(Put(old(State()), "public static void main(String[] args) {")), "System.out.println(\"Running Java Demo...\");")
    {
      base.Emit("public static void main(String[] args) {");
      base.indentLevel := base.indentLevel + 1;
      base.Emit("System.out.println(\"Running Java Demo...\");");
    }

    /** The closing braces of `main` and of the enclosing class. */
    method CloseMain()
      modifies base
      ensures State() == Put(Out(Put(Out(old(State())), "}")), "}")
    {
      base.indentLevel := base.indentLevel - 1;
      base.Emit("}");
      base.indentLevel := base.indentLevel - 1;
      base.Emit("}");
    }

    /** The demo lines of `main` for the collected class definitions. */
    method EmitDemoCalls(ss: seq<Node>)
      modifies base
      ensures State() == DemoCalls(ss, old(State()))
    {
      var i := 0;
      while i < |ss|
        invariant 0 <= i <= |ss|
        invariant State() == DemoCalls(ss[..i], old(State()))
      {
        var cls := ss[i];
        assert ss[..i + 1][..i] == ss[..i];
        if cls.ClassDef? {
          if cls.name == "EnterpriseCustomerManager" {
            EmitManagerDemo();
          }
          if cls.name == "BankAccount" {
            EmitAccountDemo();
          }
        }
        i := i + 1;
      }
      assert ss[..|ss|] == ss;
    }

    method EmitManagerDemo()
      modifies base
      ensures State() == ManagerDemo(old(State()))
    {
      base.Emit("EnterpriseCustomerManager mgr = new EnterpriseCustomerManager(\"Acme Corp\");");
      base.Emit("System.out.println(mgr.get_customer_details());");
    }

    method EmitAccountDemo()
      modifies base
      ensures State() == AccountDemo(old(State()))
    {
      base.Emit("BankAccount acc = new BankAccount(\"ACC-123\");");
      base.Emit("System.out.println(acc.deposit(500));");
      base.Emit("System.out.println(acc.withdraw(200));");
    }

    /** `visit_ClassDef`: the class becomes the current one, gets the fixed
        fields, and each plain function in its body becomes a method. */
    method VisitClassDef(n: Node)
      requires n.ClassDef? && Ok(n)
      modifies this, base
      ensures State() == Lower(n, old(State()))
      decreases Size(n), 3
    {
      ghost var start := State();
      currentClass := n.name;
      base.Emit("static class " + n.name + " {");
      base.indentLevel := base.indentLevel + 1;
      ghost var e := State();
      assert e == In(Put(start.(currentClass := n.name), "static class " + n.name + " {"));
      EmitFields();
      VisitMethods(n.body);
      ghost var s1 := State();
      assert s1 == Methods(n.body, Fields(e));
      base.indentLevel := base.indentLevel - 1;
      base.Emit("}");
      assert State() == Put(Out(s1), "}");
      ClassUnfold(n.name, n.body, start);
    }

    /** The six fields every class gets. */
    method EmitFields()
      modifies base
      ensures State() == Fields(old(State()))
    {
      base.Emit("String id;");
      base.Emit("int quantity;");
      base.Emit("String name;");
      base.Emit("int balance;");
      base.Emit("String status;");
      base.Emit("String sku;");
    }

    /** The loop over a class body: each plain function definition as a
        method, everything else skipped. */
    method VisitMethods(body: seq<Node>)
      requires MethodsOk(body)
      modifies this, base
      ensures State() == Methods(body, old(State()))
      decreases SizeList(body), 4
    {
      ghost var s0 := State();
      MethodsOkPrefixes(body);
      var i := 0;
      while i < |body|
        invariant 0 <= i <= |body|
        invariant MethodsOk(body[..i])
        invariant State() == Methods(body[..i], s0)
      {
        var child := body[i];
        assert body[..i + 1][..i] == body[..i];
        SizeListElement(body, i);
        if child.FunctionDef? {
          VisitMethod(child);
        }
        i := i + 1;
      }
      assert body[..|body|] == body;
    }

    /** `visit_Method`. */
    method VisitMethod(m: Node)
      requires m.FunctionDef? && OkList(m.body)
      modifies this, base
      ensures State() == Method(m, old(State()))
      decreases Size(m), 2
    {
      var args := MethodParams(m.params);
      if m.name == "__init__" {
        VisitConstructor(m, args);
      } else {
        VisitPlainMethod(m, args);
      }
    }

    /** An `__init__`: a public constructor named after the current class. */
    method VisitConstructor(m: Node, args: seq<string>)
      requires m.FunctionDef? && OkList(m.body) && m.name == "__init__"
      requires args == ParamDecls(m.params)
      modifies base
      ensures State() == Method(m, old(State()))
    {
      ghost var start := State();
      base.Emit("public " + currentClass + "(" + Join(", ", args) + ") {");
      base.indentLevel := base.indentLevel + 1;
      ghost var e := State();
      assert e == In(Put(start, "public " + start.currentClass + "(" + Join(", ", args) + ") {"));
      EmitConstructorBody();
      base.indentLevel := base.indentLevel - 1;
      base.Emit("}");
    }

    /** The fixed assignments of a constructor's body. */
    method EmitConstructorBody()
      modifies base
      ensures State() == ConstructorBody(old(State()))
    {
      if currentClass == "BankAccount" {
        base.Emit("this.id = id;");
        base.Emit("this.balance = 1000;");
        base.Emit("this.status = \"Active\";");
      } else {
        base.Emit("this.name = name;");
        base.Emit("this.status = \"Active\";");
      }
    }

    /** Any other method: a public method returning `boolean` for
        `validate` and `String` otherwise, with its body lowered. */
    method VisitPlainMethod(m: Node, args: seq<string>)
      requires m.FunctionDef? && OkList(m.body) && m.name != "__init__"
      requires args == ParamDecls(m.params)
      modifies this, base
      ensures State() == Method(m, old(State()))
      decreases Size(m), 1
    {
      ghost var start := State();
      var rtype := "String";
      if m.name == "validate" {
        rtype := "boolean";
      }
      base.Emit("public " + rtype + " " + m.name + "(" + Join(", ", args) + ") {");
      base.indentLevel := base.indentLevel + 1;
      ghost var e := State();
      assert e == In(Put(start, "public " + rtype + " " + m.name + "(" + Join(", ", args) + ") {"));
      VisitBody(m.body);
      base.indentLevel := base.indentLevel - 1;
      base.Emit("}");
      assert State() == Put(Out(LowerList(m.body, e)), "}");
    }

    /** The parameter loop of `visit_Method`. */
    method MethodParams(params: seq<string>) returns (args: seq<string>)
      ensures args == ParamDecls(params)
    {
      args := [];
      var i := 0;
      while i < |params|
        invariant 0 <= i <= |params|
        invariant args == ParamDecls(params[..i])
      {
        var a := params[i];
        assert params[..i + 1][..i] == params[..i];
        if a != "self" {
          var typeLabel := if Contains(a, "amount") then "int" else "String";
          args := args + [typeLabel + " " + a];
        }
        i := i + 1;
      }
      assert params[..|params|] == params;
    }

    method VisitIf(n: Node)
      requires n.If? && Ok(n)
      modifies this, base
      ensures State() == Lower(n, old(State()))
      decreases Size(n), 3
    {
      ghost var s0 := State();
      var cond := Render(n.test);
      base.Emit("if (" + cond + ") {");
      base.indentLevel := base.indentLevel + 1;
      ghost var e := State();
      assert e == In(Put(s0, "if (" + cond + ") {"));
      VisitBody(n.body);
      base.indentLevel := base.indentLevel - 1;
      ghost var s1 := State();
      assert s1 == Out(LowerList(n.body, e));
      if n.orelse != [] {
        base.Emit("} else {");
        base.indentLevel := base.indentLevel + 1;
        ghost var e2 := State();
        assert e2 == In(Put(s1, "} else {"));
        VisitBody(n.orelse);
        base.indentLevel := base.indentLevel - 1;
        assert State() == Out(LowerList(n.orelse, e2));
      }
      base.Emit("}");
    }

    /** `visit_Return`: `isinstance(x, ...)` becomes `x instanceof String`. */
    method VisitReturn(n: Node)
      requires n.Return? && Ok(n)
      modifies this, base
      ensures State() == Lower(n, old(State()))
      decreases Size(n), 3
    {
      if n.value.Call? && n.value.func.Name? && n.value.func.id == "isinstance" {
        var obj := Render(n.value.args[0]);
        base.Emit("return " + obj + " instanceof String;");
        return;
      }
      var val := Render(n.value);
      base.Emit("return " + val + ";");
    }

    /** `visit_Assign`: only assignments to attributes, as fields of `this`. */
    method VisitAssign(n: Node)
      requires n.Assign? && Ok(n)
      modifies this, base
      ensures State() == Lower(n, old(State()))
      decreases Size(n), 3
    {
      if n.target.Attribute? {
        var target := "this." + n.target.attr;
        var val := Render(n.value);
        base.Emit(target + " = " + val + ";");
      }
    }

    /** `visit_AugAssign`: only attributes; `+=` for an addition, `-=` for
        every other operator. */
    method VisitAugAssign(n: Node)
      requires n.AugAssign? && Ok(n)
      modifies this, base
      ensures State() == Lower(n, old(State()))
      decreases Size(n), 3
    {
      if n.target.Attribute? {
        var targetStr := "this." + n.target.attr;
        var op := if n.op == Add then "+" else "-";
        var val := Render(n.value);
        base.Emit(targetStr + " " + op + "= " + val + ";");
      }
    }
  }
}
