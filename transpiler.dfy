/** The state every lowering visitor shares (`BaseTranspiler`,
    src/polyglot.py): an append-only buffer of output lines, an indentation
    level, and a stack of name sets that the Rust lowering consults to choose
    between declaring and rebinding a variable. */
module Transpiler {
  import opened Strings

  /** `"    " * k`: four spaces per level, nothing for a level at or below zero. */
  function Pad(k: int): (r: string)
    ensures |r| == if k <= 0 then 0 else 4 * k
    ensures forall i :: 0 <= i < |r| ==> r[i] == ' '
  {
    if k <= 0 then "" else "    " + Pad(k - 1)
  }

  /** Deeper padding extends shallower padding. */
  lemma {:induction false} PadAdd(a: nat, b: nat)
    ensures Pad(a + b) == Pad(a) + Pad(b)
  {
    if a > 0 {
      PadAdd(a - 1, b);
    }
  }

  /** A snapshot of a visitor's state. */
  datatype TState = TState(buffer: seq<string>, indent: int, scopes: seq<set<string>>)

  /** The state of a freshly constructed visitor. */
  const Initial := TState([], 0, [{}])

  /** `emit(text)`: the text, indented by the current level, becomes the next line. */
  function Emitted(s: TState, text: string): TState
  {
    s.(buffer := s.buffer + [Pad(s.indent) + text])
  }

  function Indented(s: TState): TState
  {
    s.(indent := s.indent + 1)
  }

  function Dedented(s: TState): TState
  {
    s.(indent := s.indent - 1)
  }

  /** `enter_scope`: push an empty frame. */
  function WithScope(s: TState): TState
  {
    s.(scopes := s.scopes + [{}])
  }

  /** `exit_scope`: pop the top frame. Python raises on an empty stack; a
      visitor's stack never empties, because every lowering keeps the stack's
      depth (`Extends`, proved by `RustLowering.LowerExtends` and the
      `LowerKeeps` lemmas of the other targets), and the model leaves an
      empty stack alone. */
  function WithoutScope(s: TState): TState
  {
    if s.scopes == [] then s else s.(scopes := s.scopes[..|s.scopes| - 1])
  }

  /** `is_defined(name)`: some frame holds the name. */
  predicate Defined(scopes: seq<set<string>>, name: string)
  {
    exists i :: 0 <= i < |scopes| && name in scopes[i]
  }

  /** `define_var(name)`: add the name to the top frame only. On an empty
      stack (which does not arise) the state is left alone. */
  function WithVar(s: TState, name: string): TState
  {
    if s.scopes == [] then s
    else s.(scopes := s.scopes[..|s.scopes| - 1] + [s.scopes[|s.scopes| - 1] + {name}])
  }

  /** What `visit` returns: the lines joined with line feeds. */
  function Output(s: TState): string
  {
    Join("\n", s.buffer)
  }

  /** A pushed frame adds exactly its own names to those visible. */
  lemma DefinedPush(scopes: seq<set<string>>, top: set<string>, name: string)
    ensures Defined(scopes + [top], name) <==> Defined(scopes, name) || name in top
  {
    if name in top {
      assert (scopes + [top])[|scopes|] == top;
    }
    if Defined(scopes, name) {
      var i :| 0 <= i < |scopes| && name in scopes[i];
      assert (scopes + [top])[i] == scopes[i];
    }
  }

  /** After `define_var(name)` the name is visible, whatever else holds. */
  lemma DefineMakesDefined(s: TState, name: string)
    requires s.scopes != []
    ensures Defined(WithVar(s, name).scopes, name)
    ensures forall m :: Defined(s.scopes, m) ==> Defined(WithVar(s, name).scopes, m)
  {
    var ss := WithVar(s, name).scopes;
    assert name in ss[|ss| - 1];
    forall m | Defined(s.scopes, m)
      ensures Defined(ss, m)
    {
      var i :| 0 <= i < |s.scopes| && m in s.scopes[i];
      assert m in ss[i];
    }
  }

  /** A name defined in a frame stays visible until that frame is popped:
      pushing and filling frames above it keeps it; popping the frames above
      it keeps it. Popping the frame that holds a name hides it unless a
      lower frame also holds it. */
  lemma PopHides(s: TState, name: string)
    requires s.scopes != []
    ensures Defined(WithoutScope(s).scopes, name) <==>
      exists i :: 0 <= i < |s.scopes| - 1 && name in s.scopes[i]
  {
    var ss := WithoutScope(s).scopes;
    assert forall i :: 0 <= i < |ss| ==> ss[i] == s.scopes[i];
  }

  // ---------------------------------------------------------------------
  // What every visit of every target preserves.

  /** `line` starts with the padding of level `k`. */
  predicate IndentedBy(line: string, k: int)
  {
    Pad(k) <= line
  }

  /** `t` follows from `s` by a visit: the old lines are kept and every new
      line is indented at least as deep as `s`; the indentation level and the
      depth of the scope stack are those of `s`, the frames below the top are
      untouched, and the top frame only gains names. */
  predicate Extends(s: TState, t: TState)
  {
    && s.buffer <= t.buffer
    && (forall i :: |s.buffer| <= i < |t.buffer| ==> IndentedBy(t.buffer[i], s.indent))
    && t.indent == s.indent
    && |t.scopes| == |s.scopes|
    && (s.scopes != [] ==>
          t.scopes[..|s.scopes| - 1] == s.scopes[..|s.scopes| - 1]
          && s.scopes[|s.scopes| - 1] <= t.scopes[|s.scopes| - 1])
  }

  lemma ExtendsRefl(s: TState)
    ensures Extends(s, s)
  {
  }

  lemma ExtendsTrans(a: TState, b: TState, c: TState)
    requires Extends(a, b) && Extends(b, c)
    ensures Extends(a, c)
  {
    if a.scopes != [] {
      var k := |a.scopes| - 1;
      assert c.scopes[..k] == b.scopes[..k];
    }
  }

  /** Padding of a deeper level starts with the padding of a shallower one. */
  lemma PadPrefix(a: int, b: int)
    requires a <= b
    ensures Pad(a) <= Pad(b)
  {
  }

  /** Lines emitted one level deeper are indented at least as deep. */
  lemma ExtendsDeeper(s: TState, t: TState)
    requires Extends(Indented(s), t)
    ensures Extends(s, Dedented(t))
  {
    PadPrefix(s.indent, s.indent + 1);
  }

  lemma ExtendsScope(s: TState, t: TState)
    requires Extends(WithScope(s), t)
    ensures Extends(s, WithoutScope(t))
  {
    var k := |s.scopes|;
    assert t.scopes[..k] == (s.scopes + [{}])[..k] == s.scopes;
    if s.scopes != [] {
      assert WithoutScope(t).scopes == s.scopes;
    }
  }

  lemma ExtendsEmit(s: TState, text: string)
    ensures Extends(s, Emitted(s, text))
  {
  }

  lemma ExtendsVar(s: TState, name: string)
    ensures Extends(s, WithVar(s, name))
  {
  }

  /** `t` extends `s` and the scope stack is exactly as before. */
  predicate Keeps(s: TState, t: TState)
  {
    Extends(s, t) && t.scopes == s.scopes
  }

  lemma KeepsTrans(a: TState, b: TState, c: TState)
    requires Keeps(a, b) && Keeps(b, c)
    ensures Keeps(a, c)
  {
    ExtendsTrans(a, b, c);
  }

  lemma KeepsDeeper(s: TState, t: TState)
    requires Keeps(Indented(s), t)
    ensures Keeps(s, Dedented(t))
  {
    ExtendsDeeper(s, t);
  }

  lemma PrefixTrans(a: seq<string>, b: seq<string>, c: seq<string>)
    requires a <= b && b <= c
    ensures a <= c
  {
  }

  /** Two lines emitted at one level. */
  lemma EmittedTwice(u: TState, a: string, b: string)
    ensures
      var t := Emitted(Emitted(u, a), b);
      t.buffer == u.buffer + [Pad(u.indent) + a, Pad(u.indent) + b]
      && |t.buffer| == |u.buffer| + 2
      && t.buffer[|t.buffer| - 2] == Pad(u.indent) + a
      && t.buffer[|t.buffer| - 1] == Pad(u.indent) + b
  {
  }

  /** A line, then a line one level shallower. */
  lemma EmittedAcrossDedent(u: TState, a: string, b: string)
    ensures Emitted(Dedented(Emitted(u, a)), b).buffer == u.buffer + [Pad(u.indent) + a, Pad(u.indent - 1) + b]
  {
  }

  /** `BaseTranspiler`. */
  class BaseTranspiler {
    var buffer: seq<string>
    var indentLevel: int
    var scopeStack: seq<set<string>>

    function State(): TState
      reads this
    {
      TState(buffer, indentLevel, scopeStack)
    }

    constructor ()
      ensures State() == Initial
    {
      buffer := [];
      indentLevel := 0;
      scopeStack := [{}];
    }

    method Emit(text: string)
      modifies this
      ensures State() == Emitted(old(State()), text)
    {
      buffer := buffer + [Pad(indentLevel) + text];
    }

    method EnterScope()
      modifies this
      ensures State() == WithScope(old(State()))
    {
      scopeStack := scopeStack + [{}];
    }

    method ExitScope()
      modifies this
      ensures State() == WithoutScope(old(State()))
    {
      if scopeStack != [] {
        scopeStack := scopeStack[..|scopeStack| - 1];
      }
    }

    /** `is_defined`: the frames searched from the top of the stack down. */
    method IsDefined(name: string) returns (b: bool)
      ensures b == Defined(scopeStack, name)
    {
      var i := |scopeStack|;
      while i > 0
        invariant 0 <= i <= |scopeStack|
        invariant forall j :: i <= j < |scopeStack| ==> name !in scopeStack[j]
      {
        i := i - 1;
        if name in scopeStack[i] {
          return true;
        }
      }
      return false;
    }

    method DefineVar(name: string)
      modifies this
      ensures State() == WithVar(old(State()), name)
    {
      if scopeStack != [] {
        scopeStack := scopeStack[..|scopeStack| - 1] + [scopeStack[|scopeStack| - 1] + {name}];
      }
    }

    /** The value `visit` returns once the tree is walked. */
    method Joined() returns (r: string)
      ensures r == Output(State())
    {
      r := Join("\n", buffer);
    }
  }
}
