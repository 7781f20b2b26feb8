/** The records the splitter works on (src/parser.py): a contiguous segment
    of source code and a parsed module holding its segments. */
module Segments {
  import opened Wrappers
  import opened PyAst

  /** `SourceSegment`: an id, the code, its first and last line, the
      definition node it came from (if any), tags, and a complexity score
      (a real number here; the source uses a float). */
  datatype Segment = Segment(
    id: string, code: string, startLine: int, endLine: int,
    node: Option<Node>, tags: seq<string>, complexity: real)

  /** A segment made by a strategy or the balancer: no node and the
      default complexity. */
  function Fresh(id: string, code: string, startLine: int, endLine: int, tags: seq<string>): (r: Segment)
    ensures r.node == None && r.complexity == 0.0
  {
    Segment(id, code, startLine, endLine, None, tags, 0.0)
  }

  /** The number of lines a segment claims: `end_line - start_line + 1`. */
  function Span(s: Segment): int
  {
    s.endLine - s.startLine + 1
  }

  /** The elements of a list of lists, in order. */
  function Flatten<T>(gs: seq<seq<T>>): (r: seq<T>)
    ensures gs == [] ==> r == []
  {
    if gs == [] then [] else Flatten(gs[..|gs| - 1]) + gs[|gs| - 1]
  }

  lemma {:induction false} FlattenConcat<T>(a: seq<seq<T>>, b: seq<seq<T>>)
    ensures Flatten(a + b) == Flatten(a) + Flatten(b)
  {
    if b != [] {
      assert (a + b)[..|a + b| - 1] == a + b[..|b| - 1];
      FlattenConcat(a, b[..|b| - 1]);
    } else {
      assert a + b == a;
    }
  }

  /** `ParsedModule`: the path and text of a file and its current list of
      segments, which the splitter replaces. */
  class ParsedModule {
    const path: string
    const source: string
    var segments: seq<Segment>

    constructor (path: string, source: string, segments: seq<Segment>)
      ensures this.path == path && this.source == source && this.segments == segments
    {
      this.path := path;
      this.source := source;
      this.segments := segments;
    }
  }
}
