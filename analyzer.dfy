/** Feature extraction (src/analyzer.py): one recursive walk over a syntax
    tree that bumps the counters of a feature record and flags naive,
    name-based recursion. */
module Analyzer {
  import opened Wrappers
  import opened PyAst

  /** The `CodeFeatures` record, fields in the source's order. */
  datatype CodeFeatures = CodeFeatures(
    mathOps: nat, ioOps: nat, loops: nat, conditionals: nat, functions: nat,
    classes: nat, asyncOps: nat, recursion: bool, stringOps: nat)

  /** A freshly constructed record: every counter zero, no recursion. */
  const Zero := CodeFeatures(0, 0, 0, 0, 0, 0, 0, false, 0)

  /** Callee names counted as I/O instead of as ordinary calls. */
  const IoNames: seq<string> := ["print", "open", "read", "write", "input"]

  /** Counter-wise sum; the recursion flags are or-ed. */
  function Plus(a: CodeFeatures, b: CodeFeatures): CodeFeatures
  {
    CodeFeatures(
      a.mathOps + b.mathOps, a.ioOps + b.ioOps, a.loops + b.loops,
      a.conditionals + b.conditionals, a.functions + b.functions,
      a.classes + b.classes, a.asyncOps + b.asyncOps,
      a.recursion || b.recursion, a.stringOps + b.stringOps)
  }

  /** `a` is below `b` in every counter, and `b` keeps `a`'s recursion flag. */
  predicate Below(a: CodeFeatures, b: CodeFeatures)
  {
    a.mathOps <= b.mathOps && a.ioOps <= b.ioOps && a.loops <= b.loops
    && a.conditionals <= b.conditionals && a.functions <= b.functions
    && a.classes <= b.classes && a.asyncOps <= b.asyncOps
    && (a.recursion ==> b.recursion) && a.stringOps <= b.stringOps
  }

  // The node kinds each handler counts.
  predicate IsBinOp(n: Node) { n.BinOp? }
  predicate IsIoCall(n: Node) { n.Call? && CalleeName(n.func) in IoNames }
  predicate IsOtherCall(n: Node) { n.Call? && CalleeName(n.func) !in IoNames }
  predicate IsLoop(n: Node) { n.For? || n.While? }
  predicate IsIf(n: Node) { n.If? }
  predicate IsClassDef(n: Node) { n.ClassDef? }
  predicate IsAsyncDef(n: Node) { n.AsyncFunctionDef? }
  predicate IsStrConstant(n: Node) { n.Constant? && n.literal.StrConst? }
  predicate IsDef(n: Node) { n.FunctionDef? || n.AsyncFunctionDef? }

  function Ind(b: bool): nat { if b then 1 else 0 }

  /** What the handler of `n`'s kind adds to the counters, before the walk
      goes on into `n`'s children (`visit_BinOp`, `visit_Call`, `visit_For`,
      `visit_While`, `visit_If`, `visit_AsyncFunctionDef`, `visit_ClassDef`,
      `visit_Constant`). */
  function Own(n: Node): CodeFeatures
  {
    CodeFeatures(
      Ind(IsBinOp(n)), Ind(IsIoCall(n)), Ind(IsLoop(n)), Ind(IsIf(n)),
      Ind(IsOtherCall(n)), Ind(IsClassDef(n)), Ind(IsAsyncDef(n)), false,
      Ind(IsStrConstant(n)))
  }

  /** The state of a walk: the record so far and `current_func_name`. */
  datatype Walker = Walker(features: CodeFeatures, current: Option<string>)

  /** A call whose callee name equals the (non-empty) current function name. */
  predicate SelfCall(func: Node, current: Option<string>)
  {
    current.Some? && current.value != "" && CalleeName(func) == current.value
  }

  /** The step a handler takes at `n` itself. */
  function Enter(n: Node, w: Walker): Walker
  {
    var f := Plus(w.features, Own(n));
    if n.Call? then w.(features := f.(recursion := f.recursion || SelfCall(n.func, w.current)))
    else w.(features := f)
  }

  /** The walk `visit` performs, as a function of the state before it: the
      handler's step, then the children in field order; a function
      definition (sync or async) makes its name current for its body and
      leaves `None` behind, whatever was current before. */
  function Walk(n: Node, w: Walker): Walker
    decreases Size(n), 0
  {
    ChildrenSize(n);
    var w1 := Enter(n, w);
    if IsDef(n) then
      var w2 := WalkList(Children(n), w1.(current := Some(n.name)));
      w2.(current := None)
    else
      WalkList(Children(n), w1)
  }

  function WalkList(ss: seq<Node>, w: Walker): Walker
    decreases SizeList(ss), 1
  {
    if ss == [] then w else Walk(ss[|ss| - 1], WalkList(ss[..|ss| - 1], w))
  }

  /** The record `analyze(tree)` returns. */
  function Features(tree: Node): CodeFeatures
  {
    Walk(tree, Walker(Zero, None)).features
  }

  // ---------------------------------------------------------------------
  // Reference definition: counters as plain node counts.

  /** The number of nodes of the tree satisfying `p`, nested ones included. */
  function Count(n: Node, p: Node -> bool): nat
    decreases Size(n), 0
  {
    ChildrenSize(n);
    Ind(p(n)) + CountList(Children(n), p)
  }

  function CountList(ss: seq<Node>, p: Node -> bool): nat
    decreases SizeList(ss), 1
  {
    if ss == [] then 0 else CountList(ss[..|ss| - 1], p) + Count(ss[|ss| - 1], p)
  }

  /** Every counter as a count of the matching nodes; no recursion. */
  function Tally(n: Node): CodeFeatures
  {
    CodeFeatures(
      Count(n, IsBinOp), Count(n, IsIoCall), Count(n, IsLoop), Count(n, IsIf),
      Count(n, IsOtherCall), Count(n, IsClassDef), Count(n, IsAsyncDef), false,
      Count(n, IsStrConstant))
  }

  function TallyList(ss: seq<Node>): CodeFeatures
  {
    CodeFeatures(
      CountList(ss, IsBinOp), CountList(ss, IsIoCall), CountList(ss, IsLoop),
      CountList(ss, IsIf), CountList(ss, IsOtherCall), CountList(ss, IsClassDef),
      CountList(ss, IsAsyncDef), false, CountList(ss, IsStrConstant))
  }

  /** The record without its recursion flag. */
  function Counters(f: CodeFeatures): CodeFeatures
  {
    f.(recursion := false)
  }

  /** Every counter the walk produces is the starting counter plus the number
      of matching nodes in the tree: BinOp nodes for `mathOps`, For and While
      nodes for `loops`, If nodes for `conditionals`, ClassDef nodes for
      `classes`, AsyncFunctionDef nodes for `asyncOps`, string constants for
      `stringOps`, and calls split by callee name into `ioOps` and
      `functions`. The order of the walk and the current function do not
      matter to any counter. */
  lemma {:induction false} WalkCounts(n: Node, w: Walker)
    ensures Counters(Walk(n, w).features) == Counters(Plus(w.features, Tally(n)))
    decreases Size(n), 0
  {
    ChildrenSize(n);
    var w1 := Enter(n, w);
    var w1' := if IsDef(n) then w1.(current := Some(n.name)) else w1;
    WalkListCounts(Children(n), w1');
  }

  lemma {:induction false} WalkListCounts(ss: seq<Node>, w: Walker)
    ensures Counters(WalkList(ss, w).features) == Counters(Plus(w.features, TallyList(ss)))
    decreases SizeList(ss), 1
  {
    if ss != [] {
      var prefix, last := ss[..|ss| - 1], ss[|ss| - 1];
      WalkListCounts(prefix, w);
      WalkCounts(last, WalkList(prefix, w));
    }
  }

  /** Each run of `analyze` yields exactly the node counts of the tree. */
  lemma {:induction false} FeaturesCount(tree: Node)
    ensures Counters(Features(tree)) == Tally(tree)
  {
    var w := Walker(Zero, None);
    WalkCounts(tree, w);
    PlusZero(Tally(tree));
  }

  lemma PlusZero(f: CodeFeatures)
    requires !f.recursion
    ensures Plus(Zero, f) == f
  {
  }

  /** Every call bumps exactly one of `ioOps` and `functions`. */
  lemma {:induction false} CallsCountedOnce(n: Node)
    ensures Count(n, IsIoCall) + Count(n, IsOtherCall) == Count(n, (m: Node) => m.Call?)
    decreases Size(n), 0
  {
    ChildrenSize(n);
    CallsCountedOnceList(Children(n));
  }

  lemma {:induction false} CallsCountedOnceList(ss: seq<Node>)
    ensures CountList(ss, IsIoCall) + CountList(ss, IsOtherCall) == CountList(ss, (m: Node) => m.Call?)
    decreases SizeList(ss), 1
  {
    if ss != [] {
      CallsCountedOnceList(ss[..|ss| - 1]);
      CallsCountedOnce(ss[|ss| - 1]);
    }
  }

  /** No counter ever decreases during a walk, and the recursion flag, once
      set, is never reset. */
  lemma WalkMonotone(n: Node, w: Walker)
    ensures Below(w.features, Walk(n, w).features)
  {
    WalkCounts(n, w);
    RecursionSticky(n, w);
  }

  lemma {:induction false} RecursionSticky(n: Node, w: Walker)
    ensures w.features.recursion ==> Walk(n, w).features.recursion
    decreases Size(n), 0
  {
    ChildrenSize(n);
    var w1 := Enter(n, w);
    var w1' := if IsDef(n) then w1.(current := Some(n.name)) else w1;
    RecursionStickyList(Children(n), w1');
  }

  lemma {:induction false} RecursionStickyList(ss: seq<Node>, w: Walker)
    ensures w.features.recursion ==> WalkList(ss, w).features.recursion
    decreases SizeList(ss), 1
  {
    if ss != [] {
      RecursionStickyList(ss[..|ss| - 1], w);
      RecursionSticky(ss[|ss| - 1], WalkList(ss[..|ss| - 1], w));
    }
  }

  // ---------------------------------------------------------------------
  // current_func_name

  /** After a walk the current function name is what it was before when the
      tree holds no function definition, and `None` otherwise: the enclosing
      definition's name is not restored. */
  lemma {:induction false} CurrentAfterWalk(n: Node, w: Walker)
    ensures Walk(n, w).current == if Count(n, IsDef) > 0 then None else w.current
    decreases Size(n), 0
  {
    ChildrenSize(n);
    var w1 := Enter(n, w);
    var w1' := if IsDef(n) then w1.(current := Some(n.name)) else w1;
    CurrentAfterWalkList(Children(n), w1');
  }

  lemma {:induction false} CurrentAfterWalkList(ss: seq<Node>, w: Walker)
    ensures WalkList(ss, w).current == if CountList(ss, IsDef) > 0 then None else w.current
    decreases SizeList(ss), 1
  {
    if ss != [] {
      CurrentAfterWalkList(ss[..|ss| - 1], w);
      CurrentAfterWalk(ss[|ss| - 1], WalkList(ss[..|ss| - 1], w));
    }
  }

  /** A call to `name` somewhere in the tree. */
  predicate IsCallTo(name: string, n: Node) { n.Call? && CalleeName(n.func) == name }

  /** A definition named `name` somewhere in the tree. */
  predicate IsDefOf(name: string, n: Node) { IsDef(n) && n.name == name }

  /** Completeness for the plain case: a walk that starts with a non-empty
      current name and meets a call to that name before any nested definition
      sets the recursion flag. */
  lemma {:induction false} SelfCallDetected(n: Node, w: Walker, f: string)
    requires w.current == Some(f) && f != ""
    requires Count(n, IsDef) == 0 && Count(n, (m: Node) => IsCallTo(f, m)) > 0
    ensures Walk(n, w).features.recursion
    decreases Size(n), 0
  {
    ChildrenSize(n);
    var w1 := Enter(n, w);
    if IsCallTo(f, n) {
      RecursionStickyList(Children(n), w1);
    } else {
      SelfCallDetectedList(Children(n), w1, f);
    }
  }

  lemma {:induction false} SelfCallDetectedList(ss: seq<Node>, w: Walker, f: string)
    requires w.current == Some(f) && f != ""
    requires CountList(ss, IsDef) == 0 && CountList(ss, (m: Node) => IsCallTo(f, m)) > 0
    ensures WalkList(ss, w).features.recursion
    decreases SizeList(ss), 1
  {
    var prefix, last := ss[..|ss| - 1], ss[|ss| - 1];
    if CountList(prefix, (m: Node) => IsCallTo(f, m)) > 0 {
      SelfCallDetectedList(prefix, w, f);
      RecursionSticky(last, WalkList(prefix, w));
    } else {
      CurrentAfterWalkList(prefix, w);
      SelfCallDetected(last, WalkList(prefix, w), f);
    }
  }

  /** A function whose body calls the function by name, with no nested
      definition, is flagged as recursive. */
  lemma DirectRecursionDetected(name: string, params: seq<string>, body: seq<Node>)
    requires name != "" && CountList(body, IsDef) == 0
    requires CountList(body, (m: Node) => IsCallTo(name, m)) > 0
    ensures Features(FunctionDef(name, params, body)).recursion
  {
    var n := FunctionDef(name, params, body);
    var w1 := Enter(n, Walker(Zero, None));
    SelfCallDetectedList(body, w1.(current := Some(name)), name);
  }

  /** The callee names of all calls in the tree. */
  function CalleeNames(n: Node): set<string>
    decreases Size(n), 0
  {
    ChildrenSize(n);
    (if n.Call? then {CalleeName(n.func)} else {}) + CalleeNamesList(Children(n))
  }

  function CalleeNamesList(ss: seq<Node>): set<string>
    decreases SizeList(ss), 1
  {
    if ss == [] then {} else CalleeNamesList(ss[..|ss| - 1]) + CalleeNames(ss[|ss| - 1])
  }

  /** The names of all function definitions (sync or async) in the tree. */
  function DefNames(n: Node): set<string>
    decreases Size(n), 0
  {
    ChildrenSize(n);
    (if IsDef(n) then {n.name} else {}) + DefNamesList(Children(n))
  }

  function DefNamesList(ss: seq<Node>): set<string>
    decreases SizeList(ss), 1
  {
    if ss == [] then {} else DefNamesList(ss[..|ss| - 1]) + DefNames(ss[|ss| - 1])
  }

  /** `f` is a non-empty name that is called in the tree and is either a
      definition in the tree or the name current when the walk began. */
  predicate Culprit(f: string, n: Node, current: Option<string>)
  {
    f != "" && f in CalleeNames(n) && (current == Some(f) || f in DefNames(n))
  }

  predicate CulpritList(f: string, ss: seq<Node>, current: Option<string>)
  {
    f != "" && f in CalleeNamesList(ss) && (current == Some(f) || f in DefNamesList(ss))
  }

  /** Soundness of the flag: a walk only sets it because of a call whose
      callee name is the name of a definition in the tree, or the name that
      was current when the walk began. */
  lemma {:induction false} RecursionNeedsNamedCall(n: Node, w: Walker)
    requires !w.features.recursion && Walk(n, w).features.recursion
    ensures exists f :: Culprit(f, n, w.current)
    decreases Size(n), 0
  {
    ChildrenSize(n);
    var w1 := Enter(n, w);
    if w1.features.recursion {
      assert Culprit(w.current.value, n, w.current);
    } else {
      var w1' := if IsDef(n) then w1.(current := Some(n.name)) else w1;
      RecursionNeedsNamedCallList(Children(n), w1');
      var f :| CulpritList(f, Children(n), w1'.current);
      assert Culprit(f, n, w.current);
    }
  }

  lemma {:induction false} RecursionNeedsNamedCallList(ss: seq<Node>, w: Walker)
    requires !w.features.recursion && WalkList(ss, w).features.recursion
    ensures exists f :: CulpritList(f, ss, w.current)
    decreases SizeList(ss), 1
  {
    var prefix, last := ss[..|ss| - 1], ss[|ss| - 1];
    var wp := WalkList(prefix, w);
    if wp.features.recursion {
      RecursionNeedsNamedCallList(prefix, w);
      var f :| CulpritList(f, prefix, w.current);
      assert CulpritList(f, ss, w.current);
    } else {
      RecursionNeedsNamedCall(last, wp);
      var f :| Culprit(f, last, wp.current);
      CurrentAfterWalkList(prefix, w);
      assert CulpritList(f, ss, w.current);
    }
  }

  /** The flag is name-based and order-dependent: a nested definition ahead
      of the self-call clears the current name, so `def f(): def g(): pass;
      f()` is not flagged. */
  lemma NestedDefHidesSelfCall(f: string, g: string)
    ensures !Features(FunctionDef(f, [], [FunctionDef(g, [], []), Expr(Call(Name(f), []))])).recursion
  {
    var d, e := FunctionDef(g, [], []), Expr(Call(Name(f), []));
    var n := FunctionDef(f, [], [d, e]);
    var w1 := Enter(n, Walker(Zero, None)).(current := Some(f));
    assert !w1.features.recursion;
    WalkPair(d, e, w1);
    WalkLeaf(d, w1);
    CallStatementWithoutCurrent(f, Walk(d, w1));
  }

  lemma CallStatementWithoutCurrent(f: string, w: Walker)
    requires !w.features.recursion && w.current == None
    ensures !Walk(Expr(Call(Name(f), [])), w).features.recursion
  {
    var c := Call(Name(f), []);
    var e := Expr(c);
    EnterUncounted(e, w);
    assert Children(e) == [c];
    WalkSingle(e, w);
    CallWithoutCurrent(f, w);
  }

  lemma CallWithoutCurrent(f: string, w: Walker)
    requires !w.features.recursion && w.current == None
    ensures !Walk(Call(Name(f), []), w).features.recursion
  {
    var c := Call(Name(f), []);
    var wc := Enter(c, w);
    assert !Own(c).recursion && !SelfCall(Name(f), None);
    assert Children(c) == [Name(f)];
    WalkSingle(c, w);
    WalkLeaf(Name(f), wc);
    EnterUncounted(Name(f), wc);
  }

  /** Nodes no handler counts leave the state alone on entry. */
  lemma EnterUncounted(n: Node, w: Walker)
    requires !(n.BinOp? || n.Call? || n.For? || n.While? || n.If? || IsDef(n) || n.ClassDef? || n.Constant?)
    ensures Enter(n, w) == w
  {
    assert Own(n) == Zero;
  }

  lemma WalkPair(a: Node, b: Node, w: Walker)
    ensures WalkList([a, b], w) == Walk(b, Walk(a, w))
  {
    assert [a, b][..1] == [a];
    assert [a][..0] == [];
    assert WalkList([a], w) == Walk(a, WalkList([], w));
  }

  lemma WalkLeaf(n: Node, w: Walker)
    requires Children(n) == []
    ensures Walk(n, w) == if IsDef(n) then Enter(n, w).(current := None) else Enter(n, w)
  {
  }

  lemma WalkSingle(n: Node, w: Walker)
    requires |Children(n)| == 1 && !IsDef(n)
    ensures Walk(n, w) == Walk(Children(n)[0], Enter(n, w))
  {
    assert Children(n)[..0] == [];
    assert Walk(n, w) == WalkList(Children(n), Enter(n, w));
  }

  // ---------------------------------------------------------------------
  // The visitor object.

  /** `FeatureAnalyzer`: a visitor holding the record being filled and the
      name of the function being walked. */
  class FeatureAnalyzer {
    var features: CodeFeatures
    var currentFuncName: Option<string>

    function State(): Walker
      reads this
    {
      Walker(features, currentFuncName)
    }

    constructor ()
      ensures features == Zero && currentFuncName == None
    {
      features := Zero;
      currentFuncName := None;
    }

    /** `analyze`: resets the record (but not the current name) and walks
        `tree`. From an idle analyzer the result is `Features(tree)`, and the
        analyzer is idle again afterwards, so analysing the same tree twice
        yields equal records. */
    method Analyze(tree: Node) returns (r: CodeFeatures)
      requires currentFuncName == None
      modifies this
      ensures r == Features(tree) && features == r
      ensures currentFuncName == None
    {
      features := Zero;
      Visit(tree);
      r := features;
      CurrentAfterWalk(tree, Walker(Zero, None));
    }

    /** `visit`: dispatch on the node kind to its handler, or to the generic
        walk over the children. */
    method Visit(n: Node)
      modifies this
      ensures State() == Walk(n, old(State()))
      decreases Size(n), 3
    {
      match n
      case BinOp(_, _, _) => VisitBinOp(n);
      case Call(_, _) => VisitCall(n);
      case For(_, _, _) => VisitLoop(n);
      case While(_, _) => VisitLoop(n);
      case If(_, _, _) => VisitIf(n);
      case AsyncFunctionDef(_, _, _) => VisitAsyncFunctionDef(n);
      case FunctionDef(_, _, _) => VisitFunctionDef(n);
      case ClassDef(_, _) => VisitClassDef(n);
      case Constant(_) => VisitConstant(n);
      case _ =>
        EnterUncounted(n, State());
        GenericVisit(n);
    }

    method VisitBinOp(n: Node)
      requires n.BinOp?
      modifies this
      ensures State() == Walk(n, old(State()))
      decreases Size(n), 2
    {
      features := features.(mathOps := features.mathOps + 1);
      GenericVisit(n);
    }

    /** `visit_Call`: an I/O name or an ordinary call, the recursion check
        against the current name, then the children. */
    method VisitCall(n: Node)
      requires n.Call?
      modifies this
      ensures State() == Walk(n, old(State()))
      decreases Size(n), 2
    {
      var name := CalleeName(n.func);
      if name in IoNames {
        features := features.(ioOps := features.ioOps + 1);
      } else {
        features := features.(functions := features.functions + 1);
      }
      if currentFuncName.Some? && currentFuncName.value != "" && name == currentFuncName.value {
        features := features.(recursion := true);
      }
      GenericVisit(n);
    }

    /** `visit_For` and `visit_While`. */
    method VisitLoop(n: Node)
      requires n.For? || n.While?
      modifies this
      ensures State() == Walk(n, old(State()))
      decreases Size(n), 2
    {
      features := features.(loops := features.loops + 1);
      GenericVisit(n);
    }

    method VisitIf(n: Node)
      requires n.If?
      modifies this
      ensures State() == Walk(n, old(State()))
      decreases Size(n), 2
    {
      features := features.(conditionals := features.conditionals + 1);
      GenericVisit(n);
    }

    /** `visit_AsyncFunctionDef`: counted, then handled as a definition. */
    method VisitAsyncFunctionDef(n: Node)
      requires n.AsyncFunctionDef?
      modifies this
      ensures State() == Walk(n, old(State()))
      decreases Size(n), 2
    {
      features := features.(asyncOps := features.asyncOps + 1);
      VisitFunctionDef(n);
    }

    /** `visit_FunctionDef`: the name is current while the body is walked and
        cleared afterwards. */
    method VisitFunctionDef(n: Node)
      requires IsDef(n)
      modifies this
      ensures State() == WalkList(Children(n), Walker(old(features), Some(n.name))).(current := None)
      decreases Size(n), 1
    {
      currentFuncName := Some(n.name);
      GenericVisit(n);
      currentFuncName := None;
    }

    method VisitClassDef(n: Node)
      requires n.ClassDef?
      modifies this
      ensures State() == Walk(n, old(State()))
      decreases Size(n), 2
    {
      features := features.(classes := features.classes + 1);
      GenericVisit(n);
    }

    /** `visit_Constant`: only string constants are counted. */
    method VisitConstant(n: Node)
      requires n.Constant?
      modifies this
      ensures State() == Walk(n, old(State()))
      decreases Size(n), 2
    {
      if n.literal.StrConst? {
        features := features.(stringOps := features.stringOps + 1);
      }
      GenericVisit(n);
    }

    /** `generic_visit`: the children in field order. */
    method GenericVisit(n: Node)
      modifies this
      ensures State() == WalkList(Children(n), old(State()))
      decreases Size(n), 0
    {
      ChildrenSize(n);
      VisitAll(Children(n));
    }

    method VisitAll(ss: seq<Node>)
      modifies this
      ensures State() == WalkList(ss, old(State()))
      decreases SizeList(ss), 4
    {
      var i := 0;
      while i < |ss|
        invariant 0 <= i <= |ss|
        invariant State() == WalkList(ss[..i], old(State()))
      {
        SizeListElement(ss, i);
        assert ss[..i + 1][..i] == ss[..i];
        Visit(ss[i]);
        i := i + 1;
      }
      assert ss[..|ss|] == ss;
    }
  }
}
