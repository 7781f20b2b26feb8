/** `SplitterOrchestrator.process_module` (src/splitter.py): the segments
    of a module go through each strategy in turn, every segment of one
    stage's output being handed to the next strategy, and the last stage's
    output is balanced once by the comfort pass. The neural strategy's
    verdict comes from a randomly initialised network; it is a parameter
    here, any function from a segment to its pieces. */
module Splitter {
  import opened Segments
  import opened Markers
  import opened Heuristic
  import opened Comfort

  /** A strategy: marker splitting, heuristic tagging with its two bounds,
      or the neural strategy. */
  datatype Strategy = MarkerSplit | HeuristicSplit(maxLines: int, threshold: real) | NeuralSplit

  /** The order `SplitterOrchestrator` builds, with the heuristic's defaults. */
  const DefaultStrategies: seq<Strategy> := [MarkerSplit, HeuristicSplit(20, 50.0), NeuralSplit]

  /** What one strategy's `apply` returns for one segment. */
  function Pieces(st: Strategy, seg: Segment, neural: Segment -> seq<Segment>): seq<Segment>
  {
    match st
    case MarkerSplit => Split(seg)
    case HeuristicSplit(maxLines, threshold) => [Tagged(maxLines, threshold, seg)]
    case NeuralSplit => neural(seg)
  }

  /** One stage: the pieces of every segment, in order. */
  function Stage(st: Strategy, segs: seq<Segment>, neural: Segment -> seq<Segment>): seq<Segment>
  {
    if segs == [] then []
    else Stage(st, segs[..|segs| - 1], neural) + Pieces(st, segs[|segs| - 1], neural)
  }

  /** The stages in the order of `strategies`. */
  function Pipeline(sts: seq<Strategy>, segs: seq<Segment>, neural: Segment -> seq<Segment>): seq<Segment>
  {
    if sts == [] then segs
    else Stage(sts[|sts| - 1], Pipeline(sts[..|sts| - 1], segs, neural), neural)
  }

  /** The segments `process_module` leaves in the module. */
  function Processed(sts: seq<Strategy>, minLines: int, maxLines: int, segs: seq<Segment>, neural: Segment -> seq<Segment>): seq<Segment>
  {
    Balanced(Pipeline(sts, segs, neural), minLines, maxLines)
  }

  /** The pieces of each segment, one list per segment. */
  function PiecesEach(st: Strategy, segs: seq<Segment>, neural: Segment -> seq<Segment>): (r: seq<seq<Segment>>)
    ensures |r| == |segs|
    ensures forall i :: 0 <= i < |segs| ==> r[i] == Pieces(st, segs[i], neural)
  {
    seq(|segs|, i requires 0 <= i < |segs| => Pieces(st, segs[i], neural))
  }

  /** A stage concatenates the segments' pieces in the segments' order. */
  lemma {:induction false} StageIsConcatenation(st: Strategy, segs: seq<Segment>, neural: Segment -> seq<Segment>)
    ensures Stage(st, segs, neural) == Flatten(PiecesEach(st, segs, neural))
  {
    if segs != [] {
      var m := |segs| - 1;
      StageIsConcatenation(st, segs[..m], neural);
      assert PiecesEach(st, segs, neural)[..m] == PiecesEach(st, segs[..m], neural);
    }
  }

  /** A stage over two lists is the two stages one after the other. */
  lemma {:induction false} StageConcat(st: Strategy, a: seq<Segment>, b: seq<Segment>, neural: Segment -> seq<Segment>)
    ensures Stage(st, a + b, neural) == Stage(st, a, neural) + Stage(st, b, neural)
  {
    if b == [] {
      assert a + b == a;
    } else {
      var m := |b| - 1;
      var ab := a + b;
      assert ab[..|ab| - 1] == a + b[..m] && ab[|ab| - 1] == b[m];
      calc {
        Stage(st, ab, neural);
        Stage(st, ab[..|ab| - 1], neural) + Pieces(st, ab[|ab| - 1], neural);
        Stage(st, a + b[..m], neural) + Pieces(st, b[m], neural);
        { StageConcat(st, a, b[..m], neural); }
        Stage(st, a, neural) + Stage(st, b[..m], neural) + Pieces(st, b[m], neural);
        Stage(st, a, neural) + Stage(st, b, neural);
      }
    }
  }

  /** The default order: markers first, then the heuristic with bounds 20
      and 50, then the neural strategy, the comfort pass last of all. */
  lemma DefaultOrder(segs: seq<Segment>, neural: Segment -> seq<Segment>)
    ensures Processed(DefaultStrategies, 5, 50, segs, neural)
      == Balanced(Stage(NeuralSplit, Stage(HeuristicSplit(20, 50.0), Stage(MarkerSplit, segs, neural), neural), neural), 5, 50)
  {
    var d := DefaultStrategies;
    var m := Stage(MarkerSplit, segs, neural);
    assert d[..2][..1] == [MarkerSplit] && [MarkerSplit][..0] == [];
    assert Pipeline([MarkerSplit], segs, neural) == m;
    assert d[..2] == [MarkerSplit, HeuristicSplit(20, 50.0)];
    assert Pipeline(d[..2], segs, neural) == Stage(HeuristicSplit(20, 50.0), m, neural);
  }

  /** The heuristic stage yields one segment per segment, each the same but
      for its tags. */
  lemma {:induction false} HeuristicStageTagsOnly(maxLines: int, threshold: real, segs: seq<Segment>, neural: Segment -> seq<Segment>)
    ensures
      var r := Stage(HeuristicSplit(maxLines, threshold), segs, neural);
      && |r| == |segs|
      && forall i :: 0 <= i < |segs| ==> r[i] == Tagged(maxLines, threshold, segs[i]) && r[i].(tags := segs[i].tags) == segs[i]
  {
    if segs != [] {
      var m := |segs| - 1;
      HeuristicStageTagsOnly(maxLines, threshold, segs[..m], neural);
      var r := Stage(HeuristicSplit(maxLines, threshold), segs, neural);
      forall i | 0 <= i < |segs|
        ensures r[i] == Tagged(maxLines, threshold, segs[i])
      {
        if i < m {
          assert segs[..m][i] == segs[i];
        }
      }
    }
  }

  /** The marker stage leaves a list with no marker in it unchanged. */
  lemma {:induction false} MarkerStageUnmarked(segs: seq<Segment>, neural: Segment -> seq<Segment>)
    requires forall i :: 0 <= i < |segs| ==> !IsMarker(segs[i].code)
    ensures Stage(MarkerSplit, segs, neural) == segs
  {
    if segs != [] {
      var m := |segs| - 1;
      MarkerStageUnmarked(segs[..m], neural);
      assert segs[..m] + [segs[m]] == segs;
    }
  }

  /** A pipeline over a longer strategy list runs the shorter one first. */
  lemma PipelineSnoc(sts: seq<Strategy>, st: Strategy, segs: seq<Segment>, neural: Segment -> seq<Segment>)
    ensures Pipeline(sts + [st], segs, neural) == Stage(st, Pipeline(sts, segs, neural), neural)
  {
    assert (sts + [st])[..|sts|] == sts;
  }

  /** `SplitterOrchestrator`: the default strategies and a comfort pass with
      its default bounds. */
  class SplitterOrchestrator {
    const strategies: seq<Strategy>
    const comfort: ComfortBalancer
    /** The neural strategy's `apply`. */
    const neural: Segment -> seq<Segment>

    constructor (neural: Segment -> seq<Segment>)
      ensures strategies == DefaultStrategies
      ensures comfort.minLines == 5 && comfort.maxLines == 50
      ensures this.neural == neural
    {
      strategies := DefaultStrategies;
      comfort := new ComfortBalancer();
      this.neural := neural;
    }

    /** One strategy's `apply` on one segment. */
    method ApplyStrategy(st: Strategy, seg: Segment) returns (r: seq<Segment>)
      ensures r == Pieces(st, seg, neural)
    {
      match st
      case MarkerSplit =>
        r := Markers.Apply(seg);
      case HeuristicSplit(maxLines, threshold) =>
        var h := new HeuristicStrategy(maxLines, threshold);
        r := h.Apply(seg);
      case NeuralSplit =>
        r := neural(seg);
    }

    /** The inner loop of `process_module`: one strategy over every segment. */
    method RunStage(strategy: Strategy, currentSegments: seq<Segment>) returns (newSegments: seq<Segment>)
      ensures newSegments == Stage(strategy, currentSegments, neural)
    {
      newSegments := [];
      var i := 0;
      while i < |currentSegments|
        invariant 0 <= i <= |currentSegments|
        invariant newSegments == Stage(strategy, currentSegments[..i], neural)
      {
        var result := ApplyStrategy(strategy, currentSegments[i]);
        assert currentSegments[..i + 1][..i] == currentSegments[..i];
        newSegments := newSegments + result;
        i := i + 1;
      }
      assert currentSegments[..i] == currentSegments;
    }

    /** `process_module`: only the module's segments change, and the same
        module is returned. */
    method ProcessModule(parsedModule: ParsedModule) returns (r: ParsedModule)
      modifies parsedModule
      ensures r == parsedModule
      ensures parsedModule.segments == Processed(strategies, comfort.minLines, comfort.maxLines, old(parsedModule.segments), neural)
    {
      var currentSegments := parsedModule.segments;
      var s := 0;
      while s < |strategies|
        invariant 0 <= s <= |strategies|
        invariant currentSegments == Pipeline(strategies[..s], old(parsedModule.segments), neural)
      {
        var strategy := strategies[s];
        var newSegments := RunStage(strategy, currentSegments);
        PipelineSnoc(strategies[..s], strategy, old(parsedModule.segments), neural);
        assert strategies[..s] + [strategy] == strategies[..s + 1];
        currentSegments := newSegments;
        s := s + 1;
      }
      assert strategies[..s] == strategies;
      var finalSegments := comfort.Balance(currentSegments);
      parsedModule.segments := finalSegments;
      return parsedModule;
    }
  }
}
