/** `HeuristicStrategy.apply` (src/strategies/heuristic.py): a segment that
    is too long or too complex and comes from a definition is meant to be
    split; what the code actually does is tag a too-complex definition
    `complex` and hand the segment back as the only piece. */
module Heuristic {
  import opened Wrappers
  import opened PyAst
  import opened Segments

  /** The node is a function, coroutine or class definition. */
  predicate IsDefinition(node: Option<Node>)
  {
    node.Some? && (node.value.FunctionDef? || node.value.AsyncFunctionDef? || node.value.ClassDef?)
  }

  /** The segment `apply` hands back: only its tags can differ, by one
      `complex` at the end, and that happens exactly for a definition whose
      complexity is above the threshold. The line bound never matters. */
  function Tagged(maxLines: int, threshold: real, seg: Segment): (r: Segment)
    ensures r.(tags := seg.tags) == seg
    ensures r.tags == seg.tags || r.tags == seg.tags + ["complex"]
    ensures r.tags == seg.tags + ["complex"] <==> IsDefinition(seg.node) && seg.complexity > threshold
  {
    if Span(seg) <= maxLines && seg.complexity <= threshold then seg
    else if !IsDefinition(seg.node) then seg
    else if seg.complexity > threshold then seg.(tags := seg.tags + ["complex"])
    else seg
  }

  /** Applying the strategy again tags the segment again: it is not
      idempotent. */
  lemma TagsAgain(maxLines: int, threshold: real, seg: Segment)
    requires IsDefinition(seg.node) && seg.complexity > threshold
    ensures Tagged(maxLines, threshold, Tagged(maxLines, threshold, seg)).tags == seg.tags + ["complex", "complex"]
  {
    var once := Tagged(maxLines, threshold, seg);
    assert once.node == seg.node && once.complexity == seg.complexity;
  }

  /** A segment the strategy leaves alone stays alone: once nothing was
      added, applying it again adds nothing. */
  lemma UntaggedStable(maxLines: int, threshold: real, seg: Segment)
    requires Tagged(maxLines, threshold, seg) == seg
    ensures Tagged(maxLines, threshold, Tagged(maxLines, threshold, seg)) == seg
  {
  }

  /** `HeuristicStrategy`, with its default bounds of 20 lines and a
      complexity of 50. */
  class HeuristicStrategy {
    const maxLines: int
    const complexityThreshold: real

    constructor (maxLines: int := 20, complexityThreshold: real := 50.0)
      ensures this.maxLines == maxLines && this.complexityThreshold == complexityThreshold
    {
      this.maxLines := maxLines;
      this.complexityThreshold := complexityThreshold;
    }

    /** `apply`: always one piece, the segment itself, possibly tagged. */
    method Apply(segment: Segment) returns (r: seq<Segment>)
      ensures r == [Tagged(maxLines, complexityThreshold, segment)]
    {
      var lineCount := segment.endLine - segment.startLine + 1;
      if lineCount <= maxLines && segment.complexity <= complexityThreshold {
        return [segment];
      }
      if segment.node.None? || !(segment.node.value.FunctionDef? || segment.node.value.AsyncFunctionDef? || segment.node.value.ClassDef?) {
        return [segment];
      }
      // The walk over the definition's body gathers its statements and
      // reads their end lines, but what it gathers is never used.
      var body := segment.node.value.body;
      var currentBodySubset: seq<Node> := [];
      var idx := 0;
      while idx < |body|
        invariant 0 <= idx <= |body|
        invariant currentBodySubset == body[..idx]
      {
        currentBodySubset := currentBodySubset + [body[idx]];
        idx := idx + 1;
      }
      var result := segment;
      if segment.complexity > complexityThreshold {
        result := result.(tags := result.tags + ["complex"]);
      }
      return [result];
    }
  }
}
