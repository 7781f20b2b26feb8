/** `PolyglotTranspiler.transpile` (src/polyglot.py): the target label
    picks one of the four lowering visitors, which walks the parsed tree;
    any other label yields a placeholder comment followed by the untouched
    source text. Parsing is not part of this model: the tree is given
    alongside the text it was parsed from. */
module Polyglot {
  import opened PyAst
  import opened Strings
  import opened Transpiler
  import RustLowering
  import CppLowering
  import GoLowering
  import JavaLowering

  /** The labels that have a visitor. */
  predicate Supported(lang: string)
  {
    lang == "Rust" || lang == "C++" || lang == "Go" || lang == "Java"
  }

  /** The visitor the label picks does not raise on the tree. */
  predicate Accepts(tree: Node, lang: string)
  {
    && (lang == "Rust" ==> RustLowering.Ok(tree))
    && (lang == "C++" ==> CppLowering.Ok(tree))
    && (lang == "Go" ==> GoLowering.Ok(tree))
    && (lang == "Java" ==> JavaLowering.Ok(tree))
  }

  /** The comment put in front of the source for an unsupported label. */
  function Placeholder(lang: string): string
  {
    "// Transpiler for " + lang + " not implemented properly yet.\n"
  }

  /** The first line of a lowered module for each supported label. */
  function Banner(lang: string): string
  {
    if lang == "C++" then "// Transpiled to C++"
    else if lang == "Go" then "// Transpiled to Go"
    else if lang == "Java" then "// Transpiled to Java"
    else "// Transpiled to Rust"
  }

  /** What `transpile` returns for the text `code`, parsed as `tree`. */
  function Transpile(code: string, tree: Node, lang: string): (r: string)
    requires Accepts(tree, lang)
    ensures !Supported(lang) ==> |r| == |Placeholder(lang)| + |code| && r[|Placeholder(lang)|..] == code
  {
    if lang == "Rust" then RustOutput(tree)
    else if lang == "C++" then CppOutput(tree)
    else if lang == "Go" then GoOutput(tree)
    else if lang == "Java" then JavaOutput(tree)
    else Placeholder(lang) + code
  }

  /** The joined lines of each visitor, started from an empty buffer. */
  function RustOutput(tree: Node): string
    requires RustLowering.Ok(tree)
  {
    Output(RustLowering.Lower(tree, Initial))
  }

  function CppOutput(tree: Node): string
    requires CppLowering.Ok(tree)
  {
    Output(CppLowering.Lower(tree, Initial))
  }

  function GoOutput(tree: Node): string
    requires GoLowering.Ok(tree)
  {
    Output(GoLowering.Lower(tree, Initial))
  }

  function JavaOutput(tree: Node): string
    requires JavaLowering.Ok(tree)
  {
    Output(JavaLowering.Lower(tree, JavaLowering.JState(Initial, "")).out)
  }

  /** For a supported label the result depends on the tree alone; for any
      other label it is the placeholder comment and the source text. */
  lemma TranspileDependsOnTree(c1: string, c2: string, tree: Node, lang: string)
    requires Accepts(tree, lang)
    ensures Supported(lang) ==> Transpile(c1, tree, lang) == Transpile(c2, tree, lang)
    ensures !Supported(lang) ==> (Transpile(c1, tree, lang) == Transpile(c2, tree, lang) <==> c1 == c2)
    ensures !Supported(lang) ==> Transpile(c1, tree, lang) == Placeholder(lang) + c1
  {
    if !Supported(lang) && c1 != c2 {
      var p := Placeholder(lang);
      assert Transpile(c1, tree, lang)[|p|..] == c1;
      assert Transpile(c2, tree, lang)[|p|..] == c2;
    }
  }

  /** The output of every supported target, for a whole module, starts
      with that target's banner. */
  lemma {:induction false} ModuleStartsWithBanner(code: string, body: seq<Node>, lang: string)
    requires Supported(lang) && Accepts(Module(body), lang)
    ensures Banner(lang) <= Transpile(code, Module(body), lang)
  {
    var buf: seq<string>;
    if lang == "Rust" {
      RustLowering.ModuleShape(body, Initial);
      buf := RustLowering.Lower(Module(body), Initial).buffer;
    } else if lang == "C++" {
      CppLowering.ModuleShape(body, Initial);
      buf := CppLowering.Lower(Module(body), Initial).buffer;
    } else if lang == "Go" {
      GoLowering.ModuleShape(body, Initial);
      buf := GoLowering.Lower(Module(body), Initial).buffer;
    } else {
      JavaLowering.ModuleShape(body, JavaLowering.JState(Initial, ""));
      buf := JavaLowering.Lower(Module(body), JavaLowering.JState(Initial, "")).out.buffer;
    }
    assert buf[0] == Banner(lang);
    JoinStartsWithFirst("\n", buf);
  }

  /** `transpile` itself: a fresh visitor of the chosen kind walks the tree. */
  method TranspileCode(code: string, tree: Node, lang: string) returns (r: string)
    requires Accepts(tree, lang)
    ensures r == Transpile(code, tree, lang)
  {
    if lang == "Rust" {
      r := TranspileRust(tree);
    } else if lang == "C++" {
      r := TranspileCpp(tree);
    } else if lang == "Go" {
      r := TranspileGo(tree);
    } else if lang == "Java" {
      r := TranspileJava(tree);
    } else {
      r := Placeholder(lang) + code;
    }
  }

  method TranspileRust(tree: Node) returns (r: string)
    requires RustLowering.Ok(tree)
    ensures r == RustOutput(tree)
  {
    var v := new RustLowering.RustTranspiler();
    r := v.Visit(tree);
  }

  method TranspileCpp(tree: Node) returns (r: string)
    requires CppLowering.Ok(tree)
    ensures r == CppOutput(tree)
  {
    var v := new CppLowering.CppTranspiler();
    r := v.Visit(tree);
  }

  method TranspileGo(tree: Node) returns (r: string)
    requires GoLowering.Ok(tree)
    ensures r == GoOutput(tree)
  {
    var v := new GoLowering.GoTranspiler();
    r := v.Visit(tree);
  }

  method TranspileJava(tree: Node) returns (r: string)
    requires JavaLowering.Ok(tree)
    ensures r == JavaOutput(tree)
  {
    var v := new JavaLowering.JavaTranspiler();
    r := v.Visit(tree);
  }
}
