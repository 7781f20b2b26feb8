/** The cost model and the decision (src/decision_engine.py): a fixed weight
    table, a linear suitability score per target language, the arg-max with
    ties going to table order, and a margin rule that asks for a fallback
    when the two best scores are within 0.1 of each other. Scores are exact
    reals. */
module Decision {
  import opened Wrappers
  import opened Analyzer

  /** One row of `CostModel.WEIGHTS`. */
  datatype Weights = Weights(
    math: real, io: real, loops: real, recursion: real, classes: real,
    async: real, strings: real, baseCost: real)

  /** The table's languages, in the table's (and the score dictionary's) order. */
  const Languages: seq<string> := ["Rust", "C++", "Go", "Java"]

  const Table: map<string, Weights> := map[
    "Rust" := Weights(1.0, 0.8, 1.0, 0.8, 0.1, 0.9, 0.7, 0.9),
    "C++" := Weights(1.0, 0.9, 1.0, 1.0, 0.8, 0.7, 0.6, 0.85),
    "Go" := Weights(0.7, 1.0, 0.9, 0.6, 0.2, 1.0, 0.9, 0.8),
    "Java" := Weights(0.8, 0.9, 0.8, 0.7, 2.0, 0.8, 1.0, 0.7)]

  /** One addend of the score: a feature count times its weight times the
      formula's fixed factor. */
  function Term(count: nat, weight: real, factor: real): real
  {
    count as real * weight * factor
  }

  /** `calculate_score` with the row `w`. */
  function Score(f: CodeFeatures, w: Weights): real
  {
    w.baseCost * 10.0
    + Term(f.mathOps, w.math, 2.0)
    + Term(f.ioOps, w.io, 2.0)
    + Term(f.loops, w.loops, 3.0)
    + Term(f.stringOps, w.strings, 1.5)
    + Term(f.classes, w.classes, 10.0)
    + Term(f.asyncOps, w.async, 5.0)
    + (if f.recursion then w.recursion * 15.0 else 0.0)
  }

  /** `CostModel.calculate_score(features, lang)`; the source raises on a
      language outside the table. */
  function CalculateScore(f: CodeFeatures, lang: string): real
    requires lang in Table
  {
    Score(f, Table[lang])
  }

  predicate PositiveWeights(w: Weights)
  {
    w.math > 0.0 && w.io > 0.0 && w.loops > 0.0 && w.recursion > 0.0
    && w.classes > 0.0 && w.async > 0.0 && w.strings > 0.0 && w.baseCost > 0.0
  }

  lemma TableShape()
    ensures Table.Keys == set l | l in Languages
    ensures forall lang :: lang in Table ==> PositiveWeights(Table[lang])
  {
  }

  lemma TermMonotone(a: nat, b: nat, weight: real, factor: real)
    requires a <= b && weight >= 0.0 && factor >= 0.0
    ensures 0.0 <= Term(a, weight, factor) <= Term(b, weight, factor)
  {
    assert a as real * weight <= b as real * weight;
  }

  /** Every score is at least the language's base cost times ten. */
  lemma ScoreAtLeastBase(f: CodeFeatures, lang: string)
    requires lang in Table
    ensures CalculateScore(f, lang) >= Table[lang].baseCost * 10.0
  {
    ScoreMonotone(Zero, f, lang);
  }

  /** Scores never decrease when any feature count grows or recursion
      appears. */
  lemma ScoreMonotone(f: CodeFeatures, g: CodeFeatures, lang: string)
    requires lang in Table && Below(f, g)
    ensures CalculateScore(f, lang) <= CalculateScore(g, lang)
  {
    TableShape();
    var w := Table[lang];
    TermMonotone(f.mathOps, g.mathOps, w.math, 2.0);
    TermMonotone(f.ioOps, g.ioOps, w.io, 2.0);
    TermMonotone(f.loops, g.loops, w.loops, 3.0);
    TermMonotone(f.stringOps, g.stringOps, w.strings, 1.5);
    TermMonotone(f.classes, g.classes, w.classes, 10.0);
    TermMonotone(f.asyncOps, g.asyncOps, w.async, 5.0);
  }

  /** `conditionals` and `functions` never affect a score. */
  lemma ScoreIgnoresConditionalsAndCalls(f: CodeFeatures, lang: string, c: nat, k: nat)
    requires lang in Table
    ensures CalculateScore(f.(conditionals := c, functions := k), lang) == CalculateScore(f, lang)
  {
  }

  // ---------------------------------------------------------------------
  // Python's max(...) and sorted(..., reverse=True) on the scores.

  /** `max` over a non-empty sequence: the first position holding a maximal
      value (later positions replace the candidate only when strictly
      greater). */
  function FirstMaxIndex(xs: seq<real>): (r: nat)
    requires |xs| >= 1
    ensures r < |xs|
    ensures forall j :: 0 <= j < |xs| ==> xs[j] <= xs[r]
    ensures forall j :: 0 <= j < r ==> xs[j] < xs[r]
  {
    if |xs| == 1 then 0
    else
      var k := FirstMaxIndex(xs[..|xs| - 1]);
      if xs[|xs| - 1] > xs[k] then |xs| - 1 else k
  }

  /** The largest value of a non-empty sequence. */
  function Max(xs: seq<real>): (r: real)
    requires |xs| >= 1
    ensures exists j :: 0 <= j < |xs| && xs[j] == r
    ensures forall j :: 0 <= j < |xs| ==> xs[j] <= r
  {
    xs[FirstMaxIndex(xs)]
  }

  predicate SortedDesc(s: seq<real>)
  {
    forall i, j :: 0 <= i < j < |s| ==> s[i] >= s[j]
  }

  /** Inserts `x` into a descending sequence. */
  function Insert(x: real, s: seq<real>): seq<real>
  {
    if s == [] || x >= s[0] then [x] + s else [s[0]] + Insert(x, s[1..])
  }

  /** `sorted(xs, reverse=True)`: an insertion sort into descending order. */
  function SortDesc(xs: seq<real>): (r: seq<real>)
    ensures |r| == |xs|
  {
    if xs == [] then [] else InsertLength(xs[0], SortDesc(xs[1..])); Insert(xs[0], SortDesc(xs[1..]))
  }

  lemma {:induction false} InsertLength(x: real, s: seq<real>)
    ensures |Insert(x, s)| == |s| + 1
  {
    if s != [] && x < s[0] {
      InsertLength(x, s[1..]);
    }
  }

  lemma {:induction false} InsertPermutes(x: real, s: seq<real>)
    ensures multiset(Insert(x, s)) == multiset(s) + multiset{x}
  {
    if s != [] && x < s[0] {
      InsertPermutes(x, s[1..]);
      assert s == [s[0]] + s[1..];
    }
  }

  lemma {:induction false} InsertSorted(x: real, s: seq<real>)
    requires SortedDesc(s)
    ensures SortedDesc(Insert(x, s))
    ensures Insert(x, s)[0] == x || Insert(x, s)[0] == s[0]
  {
    InsertLength(x, s);
    if s != [] && x < s[0] {
      InsertSorted(x, s[1..]);
      var t := Insert(x, s[1..]);
      InsertLength(x, s[1..]);
      assert s[0] >= t[0] by {
        if |s| > 1 { assert s[0] >= s[1]; }
      }
      assert Insert(x, s) == [s[0]] + t;
    }
  }

  /** The sort yields a descending permutation of its input. */
  lemma {:induction false} SortDescCorrect(xs: seq<real>)
    ensures SortedDesc(SortDesc(xs))
    ensures multiset(SortDesc(xs)) == multiset(xs)
  {
    if xs != [] {
      SortDescCorrect(xs[1..]);
      InsertSorted(xs[0], SortDesc(xs[1..]));
      InsertPermutes(xs[0], SortDesc(xs[1..]));
      assert xs == [xs[0]] + xs[1..];
    }
  }

  /** The head of a descending permutation of `xs` is the maximum of `xs`. */
  lemma SortedHead(s: seq<real>, xs: seq<real>)
    requires |xs| >= 1 && SortedDesc(s) && multiset(s) == multiset(xs)
    ensures |s| >= 1 && s[0] == Max(xs)
  {
    assert |multiset(s)| == |s| && |multiset(xs)| == |xs|;
    var m := Max(xs);
    var p :| 0 <= p < |xs| && xs[p] == m;
    assert m in multiset(xs);
    var i :| 0 <= i < |s| && s[i] == m;
    assert s[0] in multiset(s);
    var q :| 0 <= q < |xs| && xs[q] == s[0];
  }

  /** Two descending permutations of the same values are equal. */
  lemma {:induction false} SortedUnique(s: seq<real>, t: seq<real>)
    requires SortedDesc(s) && SortedDesc(t) && multiset(s) == multiset(t)
    ensures s == t
  {
    assert |multiset(s)| == |s| && |multiset(t)| == |t|;
    if s != [] {
      SortedHead(s, t);
      SortedHead(t, t);
      assert s == [s[0]] + s[1..] && t == [t[0]] + t[1..];
      assert multiset(s) == multiset{s[0]} + multiset(s[1..]);
      assert multiset(t) == multiset{t[0]} + multiset(t[1..]);
      assert s[0] == t[0];
      assert multiset(s[1..]) == multiset(s) - multiset{s[0]};
      assert multiset(t[1..]) == multiset(t) - multiset{t[0]};
      assert SortedDesc(s[1..]) by {
        forall i, j | 0 <= i < j < |s[1..]| ensures s[1..][i] >= s[1..][j] { assert s[i + 1] >= s[j + 1]; }
      }
      assert SortedDesc(t[1..]) by {
        forall i, j | 0 <= i < j < |t[1..]| ensures t[1..][i] >= t[1..][j] { assert t[i + 1] >= t[j + 1]; }
      }
      SortedUnique(s[1..], t[1..]);
    }
  }

  /** `xs` without position `k`. */
  function RemoveAt(xs: seq<real>, k: nat): (r: seq<real>)
    requires k < |xs|
    ensures |r| == |xs| - 1
    ensures forall i :: 0 <= i < k ==> r[i] == xs[i]
    ensures forall i :: k <= i < |r| ==> r[i] == xs[i + 1]
  {
    xs[..k] + xs[k + 1..]
  }

  /** A maximum followed by the sorted rest is a descending permutation. */
  lemma MaxThenSorted(xs: seq<real>, k: nat)
    requires k < |xs| && forall j :: 0 <= j < |xs| ==> xs[j] <= xs[k]
    ensures SortedDesc([xs[k]] + SortDesc(RemoveAt(xs, k)))
    ensures multiset([xs[k]] + SortDesc(RemoveAt(xs, k))) == multiset(xs)
  {
    var rest := RemoveAt(xs, k);
    var t := SortDesc(rest);
    SortDescCorrect(rest);
    assert xs == xs[..k] + [xs[k]] + xs[k + 1..];
    forall j | 0 <= j < |t|
      ensures xs[k] >= t[j]
    {
      assert t[j] in multiset(rest);
      var i :| 0 <= i < |rest| && rest[i] == t[j];
      if i >= k { assert rest[i] == xs[i + 1]; }
    }
  }

  /** The sorted list starts with the maximum and continues with the
      maximum of the remaining values: its first two entries are the best
      score and the runner-up. */
  lemma SortDescTopTwo(xs: seq<real>, k: nat)
    requires |xs| >= 2 && k < |xs| && forall j :: 0 <= j < |xs| ==> xs[j] <= xs[k]
    ensures SortDesc(xs)[0] == xs[k]
    ensures SortDesc(xs)[1] == Max(RemoveAt(xs, k))
  {
    var rest := RemoveAt(xs, k);
    MaxThenSorted(xs, k);
    SortDescCorrect(xs);
    SortedUnique(SortDesc(xs), [xs[k]] + SortDesc(rest));
    SortDescCorrect(rest);
    SortedHead(SortDesc(rest), rest);
  }

  /** The gap between the two first entries of the sorted list is the lead
      of the maximum at `k` over the closest other position. */
  lemma SortedGapIsLead(xs: seq<real>, k: nat)
    requires |xs| >= 2 && k < |xs| && forall j :: 0 <= j < |xs| ==> xs[j] <= xs[k]
    ensures forall j :: 0 <= j < |xs| && j != k ==> SortDesc(xs)[0] - SortDesc(xs)[1] <= xs[k] - xs[j]
    ensures exists j :: 0 <= j < |xs| && j != k && SortDesc(xs)[0] - SortDesc(xs)[1] == xs[k] - xs[j]
  {
    SortDescTopTwo(xs, k);
    var rest := RemoveAt(xs, k);
    forall j | 0 <= j < |xs| && j != k
      ensures SortDesc(xs)[1] >= xs[j]
    {
      if j < k { assert rest[j] == xs[j]; } else { assert rest[j - 1] == xs[j]; }
    }
    var i :| 0 <= i < |rest| && rest[i] == Max(rest);
    var j := if i < k then i else i + 1;
    assert rest[i] == xs[j];
  }

  // ---------------------------------------------------------------------
  // decide

  /** The score dictionary over `langs` (all in the table). */
  function ScoresOf(f: CodeFeatures, langs: seq<string>): map<string, real>
    requires forall l :: l in langs ==> l in Table
  {
    map l | l in langs :: CalculateScore(f, l)
  }

  /** The dictionary's values in insertion order. */
  function ValuesOf(f: CodeFeatures, langs: seq<string>): (r: seq<real>)
    requires forall l :: l in langs ==> l in Table
    ensures |r| == |langs|
    ensures forall k :: 0 <= k < |langs| ==> r[k] == CalculateScore(f, langs[k])
  {
    if langs == [] then [] else ValuesOf(f, langs[..|langs| - 1]) + [CalculateScore(f, langs[|langs| - 1])]
  }

  /** The scores of all four languages and their values in table order. */
  function Scores(f: CodeFeatures): map<string, real>
  {
    ScoresOf(f, Languages)
  }

  function Values(f: CodeFeatures): seq<real>
  {
    ValuesOf(f, Languages)
  }

  /** `max(scores, key=scores.get)`. */
  function Best(f: CodeFeatures): string
  {
    Languages[FirstMaxIndex(Values(f))]
  }

  /** The largest minus the second largest score. */
  function Margin(f: CodeFeatures): real
  {
    var s := SortDesc(Values(f));
    s[0] - s[1]
  }

  /** What `decide` returns: `None` to request the fallback, otherwise the
      winner and the whole score dictionary. */
  function DecisionOf(f: CodeFeatures, useNeural: bool): Option<(string, map<string, real>)>
  {
    if Margin(f) < 0.1 && useNeural then None else Some((Best(f), Scores(f)))
  }

  /** The dictionary has exactly the four languages as keys, each mapped to
      its score, and the winner holds the maximum; on a tie the language
      earliest in the table wins. */
  lemma BestIsFirstMaximum(f: CodeFeatures)
    ensures Scores(f).Keys == set l | l in Languages
    ensures forall l :: l in Languages ==> Scores(f)[l] == CalculateScore(f, l)
    ensures Best(f) in Languages
    ensures forall l :: l in Languages ==> Scores(f)[l] <= Scores(f)[Best(f)]
    ensures forall k :: 0 <= k < |Languages| && Languages[k] != Best(f) && Scores(f)[Languages[k]] == Scores(f)[Best(f)] ==>
      exists b :: 0 <= b < k && Languages[b] == Best(f)
  {
    var xs := Values(f);
    var b := FirstMaxIndex(xs);
    forall l | l in Languages
      ensures Scores(f)[l] <= Scores(f)[Best(f)]
    {
      var k :| 0 <= k < |Languages| && Languages[k] == l;
      assert xs[k] <= xs[b];
    }
    forall k | 0 <= k < |Languages| && Languages[k] != Best(f) && Scores(f)[Languages[k]] == Scores(f)[Best(f)]
      ensures exists b' :: 0 <= b' < k && Languages[b'] == Best(f)
    {
      assert xs[k] == xs[b];
      assert k != b;
      assert b < k;
    }
  }

  /** The margin is the winner's lead over the best other language. */
  lemma MarginIsLead(f: CodeFeatures)
    ensures forall l :: l in Languages && l != Best(f) ==> Margin(f) <= Scores(f)[Best(f)] - Scores(f)[l]
    ensures exists l :: l in Languages && l != Best(f) && Margin(f) == Scores(f)[Best(f)] - Scores(f)[l]
  {
    var xs := Values(f);
    var b := FirstMaxIndex(xs);
    SortedGapIsLead(xs, b);
    forall l | l in Languages && l != Best(f)
      ensures Margin(f) <= Scores(f)[Best(f)] - Scores(f)[l]
    {
      var k :| 0 <= k < |Languages| && Languages[k] == l;
      assert xs[k] == Scores(f)[l];
    }
    var j :| 0 <= j < |xs| && j != b && SortDesc(xs)[0] - SortDesc(xs)[1] == xs[b] - xs[j];
    assert Languages[j] != Languages[b];
    assert xs[j] == Scores(f)[Languages[j]];
  }

  /** `decide` returns `None` exactly when the fallback is enabled and some
      other language scores within 0.1 of the winner. */
  lemma DecideNoneIff(f: CodeFeatures, useNeural: bool)
    ensures DecisionOf(f, useNeural).None? <==>
      useNeural && exists l :: l in Languages && l != Best(f) && Scores(f)[Best(f)] - Scores(f)[l] < 0.1
  {
    MarginIsLead(f);
  }

  /** Without the fallback a winner is always returned, with the full score
      dictionary. */
  lemma DecideWithoutFallback(f: CodeFeatures)
    ensures DecisionOf(f, false) == Some((Best(f), Scores(f)))
  {
  }

  /** An exact tie for first place with the fallback enabled yields `None`. */
  lemma TieRequestsFallback(f: CodeFeatures, l: string)
    requires l in Languages && l != Best(f) && Scores(f)[l] == Scores(f)[Best(f)]
    ensures DecisionOf(f, true) == None
  {
    DecideNoneIff(f, true);
  }

  // ---------------------------------------------------------------------
  // Worked vectors.

  /** One class and nothing else: Java 27, C++ 16.5, Rust 10, Go 10; Java is
      the clear winner. */
  lemma OneClassPicksJava()
    ensures Values(Zero.(classes := 1)) == [10.0, 16.5, 10.0, 27.0]
    ensures DecisionOf(Zero.(classes := 1), true) == Some(("Java", Scores(Zero.(classes := 1))))
  {
    var f := Zero.(classes := 1);
    assert Values(f) == [10.0, 16.5, 10.0, 27.0];
    SortDescTopTwo(Values(f), 3);
    assert RemoveAt(Values(f), 3) == [10.0, 16.5, 10.0];
  }

  /** One operator and three loops: Rust 20 > C++ 19.5 > Go 17.5 > Java 15.8,
      a margin of 0.5. */
  lemma ArithmeticLoopsPickRust()
    ensures Values(Zero.(mathOps := 1, loops := 3)) == [20.0, 19.5, 17.5, 15.8]
    ensures Margin(Zero.(mathOps := 1, loops := 3)) == 0.5
    ensures Best(Zero.(mathOps := 1, loops := 3)) == "Rust"
  {
    var f := Zero.(mathOps := 1, loops := 3);
    assert Values(f) == [20.0, 19.5, 17.5, 15.8];
    SortDescTopTwo(Values(f), 0);
    assert RemoveAt(Values(f), 0) == [19.5, 17.5, 15.8];
  }

  /** The empty record: Rust 9 against C++ 8.5. */
  lemma EmptyRecordScores()
    ensures Values(Zero) == [9.0, 8.5, 8.0, 7.0]
  {
  }

  lemma EmptyRecordPicksRust()
    ensures Margin(Zero) == 0.5 && DecisionOf(Zero, true) == Some(("Rust", Scores(Zero)))
  {
    EmptyRecordScores();
    SortDescTopTwo(Values(Zero), 0);
    assert RemoveAt(Values(Zero), 0) == [8.5, 8.0, 7.0];
  }

  /** `DecisionEngine`: remembers whether the fallback is enabled. */
  class DecisionEngine {
    const useNeural: bool

    constructor (useNeuralFallback: bool)
      ensures useNeural == useNeuralFallback
    {
      useNeural := useNeuralFallback;
    }

    /** `decide`: fills the score dictionary in table order, then takes the
        arg-max and the margin. The dictionary's values in insertion order
        are kept alongside it, as Python's ordered `dict` does. */
    method Decide(f: CodeFeatures) returns (r: Option<(string, map<string, real>)>)
      ensures r == DecisionOf(f, useNeural)
    {
      var scores: map<string, real> := map[];
      var values: seq<real> := [];
      var i := 0;
      while i < |Languages|
        invariant 0 <= i <= |Languages|
        invariant scores == ScoresOf(f, Languages[..i])
        invariant values == ValuesOf(f, Languages[..i])
      {
        var lang := Languages[i];
        assert Languages[..i + 1] == Languages[..i] + [lang];
        scores := scores[lang := CalculateScore(f, lang)];
        values := values + [CalculateScore(f, lang)];
        i := i + 1;
      }
      assert Languages[..i] == Languages;
      var best := Languages[FirstMaxIndex(values)];
      var sorted := SortDesc(values);
      var margin := sorted[0] - sorted[1];
      if margin < 0.1 && useNeural {
        return None;
      }
      return Some((best, scores));
    }
  }
}
