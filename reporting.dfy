/** Two small rules of the command-line driver (main.py): the feature vector
    handed to the neural classifier when the cost model is inconclusive, and
    the name of the file each transpiled segment is written to. */
module Reporting {
  import opened Strings
  import opened Analyzer

  /** The classifier's input: the nine features in the driver's order, the
      recursion flag as 0 or 1. */
  function FallbackVector(f: CodeFeatures): (v: seq<int>)
    ensures |v| == 9
    ensures forall k :: 0 <= k < 9 ==> v[k] >= 0
    ensures v[7] <= 1
  {
    [f.mathOps, f.ioOps, f.loops, f.conditionals, f.functions, f.classes,
     f.asyncOps, if f.recursion then 1 else 0, f.stringOps]
  }

  /** The vector loses nothing: two records with the same vector are equal. */
  lemma FallbackVectorInjective(f: CodeFeatures, g: CodeFeatures)
    requires FallbackVector(f) == FallbackVector(g)
    ensures f == g
  {
    var v := FallbackVector(f);
    var w := FallbackVector(g);
    assert v[0] == w[0] && v[1] == w[1] && v[2] == w[2] && v[3] == w[3] && v[4] == w[4];
    assert v[5] == w[5] && v[6] == w[6] && v[7] == w[7] && v[8] == w[8];
  }

  /** The extension of a target's file; `txt` for any other label. */
  function Extension(lang: string): string
  {
    if lang == "Rust" then "rs"
    else if lang == "C++" then "cpp"
    else if lang == "Go" then "go"
    else if lang == "Java" then "java"
    else "txt"
  }

  /** The label in a file name: the language, with `C++` spelt `Cpp`. */
  function FileLabel(lang: string): string
  {
    if lang == "C++" then "Cpp" else lang
  }

  /** `<label>.<ext>`. */
  function Suffix(lang: string): string
  {
    FileLabel(lang) + "." + Extension(lang)
  }

  /** `segment_<i>_<label>.<ext>` for the `i`-th result. */
  function SegmentFileName(i: nat, lang: string): (r: string)
    ensures "segment_" <= r
  {
    "segment_" + NatToString(i) + "_" + Suffix(lang)
  }

  predicate AllDigits(s: string)
  {
    forall k :: 0 <= k < |s| ==> '0' <= s[k] <= '9'
  }

  /** After a fixed prefix, a run of digits ended by `_` can be read back. */
  lemma DigitsThenUnderscore(p: string, a: string, x: string, b: string, y: string)
    requires AllDigits(a) && AllDigits(b)
    requires p + a + "_" + x == p + b + "_" + y
    ensures a == b
  {
    var s := p + a + "_" + x;
    var t := p + b + "_" + y;
    assert s[|p|..][..|a|] == a && s[|p|..][|a|] == '_';
    assert t[|p|..][..|b|] == b && t[|p|..][|b|] == '_';
  }

  /** Distinct results are written to distinct files, whatever their
      languages. */
  lemma SegmentFileNamesDistinct(i: nat, j: nat, li: string, lj: string)
    requires SegmentFileName(i, li) == SegmentFileName(j, lj)
    ensures i == j
  {
    DigitsThenUnderscore("segment_", NatToString(i), Suffix(li), NatToString(j), Suffix(lj));
    NatToStringInjective(i, j);
  }

  /** The C++ file of the second result, as the driver writes it. */
  lemma CppFileName()
    ensures SegmentFileName(1, "C++") == "segment_1_Cpp.cpp"
  {
    assert NatToString(1) == "1";
  }
}
