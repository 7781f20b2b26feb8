/** `ComfortBalancer.balance` (src/comfort.py): one pass over the segments
    that merges short neighbours. A segment shorter than the minimum is held
    back as a buffer; following segments are merged into the buffer while
    the buffer's span plus theirs stays within the maximum; a merge that
    would exceed it flushes the buffer. */
module Comfort {
  import opened Wrappers
  import opened Strings
  import opened Segments

  /** Two segments merged: ids joined by `_`, codes by a line feed, the
      first one's start and the second one's end, both tag lists and
      `balanced_merge`. */
  function Merge(b: Segment, s: Segment): Segment
  {
    Fresh(b.id + "_" + s.id, b.code + "\n" + s.code, b.startLine, s.endLine, b.tags + s.tags + ["balanced_merge"])
  }

  /** A run of segments merged left to right; a single segment stays as it is. */
  function MergeAll(g: seq<Segment>): Segment
    requires g != []
  {
    if |g| == 1 then g[0] else Merge(MergeAll(g[..|g| - 1]), g[|g| - 1])
  }

  /** The runs of the balancer after some prefix of the input: the runs
      already emitted, and the run merged into the pending buffer (empty
      when there is no buffer). */
  datatype Grouping = Grouping(done: seq<seq<Segment>>, pending: seq<Segment>)

  predicate NonEmpty(gs: seq<seq<Segment>>)
  {
    forall i :: 0 <= i < |gs| ==> gs[i] != []
  }

  /** One iteration of the loop of `balance`, on runs of segments. */
  function Step(g: Grouping, seg: Segment, minLines: int, maxLines: int): (r: Grouping)
    requires NonEmpty(g.done)
    ensures NonEmpty(r.done)
  {
    if g.pending != [] && Span(MergeAll(g.pending)) + Span(seg) <= maxLines then
      Grouping(g.done, g.pending + [seg])
    else
      var done := if g.pending != [] then g.done + [g.pending] else g.done;
      if Span(seg) < minLines then Grouping(done, [seg]) else Grouping(done + [[seg]], [])
  }

  /** The loop of `balance`, on runs of segments. */
  function Group(segs: seq<Segment>, minLines: int, maxLines: int): (r: Grouping)
    ensures NonEmpty(r.done)
  {
    if segs == [] then Grouping([], [])
    else Step(Group(segs[..|segs| - 1], minLines, maxLines), segs[|segs| - 1], minLines, maxLines)
  }

  /** The runs `balance` emits, a pending buffer included. */
  function Runs(segs: seq<Segment>, minLines: int, maxLines: int): (r: seq<seq<Segment>>)
    ensures NonEmpty(r)
  {
    var g := Group(segs, minLines, maxLines);
    if g.pending == [] then g.done else g.done + [g.pending]
  }

  function MergeEach(gs: seq<seq<Segment>>): (r: seq<Segment>)
    requires NonEmpty(gs)
    ensures |r| == |gs|
  {
    if gs == [] then [] else MergeEach(gs[..|gs| - 1]) + [MergeAll(gs[|gs| - 1])]
  }

  lemma MergeEachSnoc(gs: seq<seq<Segment>>, g: seq<Segment>)
    requires NonEmpty(gs) && g != []
    ensures NonEmpty(gs + [g]) && MergeEach(gs + [g]) == MergeEach(gs) + [MergeAll(g)]
  {
    assert (gs + [g])[..|gs|] == gs;
  }

  /** What `balance` returns: each run merged into one segment. */
  function Balanced(segs: seq<Segment>, minLines: int, maxLines: int): seq<Segment>
  {
    MergeEach(Runs(segs, minLines, maxLines))
  }

  // ---------------------------------------------------------------------
  // The runs partition the input.

  lemma FlattenSnoc(gs: seq<seq<Segment>>, g: seq<Segment>)
    ensures Flatten(gs + [g]) == Flatten(gs) + g
  {
    assert (gs + [g])[..|gs|] == gs;
  }

  lemma {:induction false} GroupCovers(segs: seq<Segment>, minLines: int, maxLines: int)
    ensures var g := Group(segs, minLines, maxLines); Flatten(g.done) + g.pending == segs
  {
    if segs != [] {
      var t := segs[..|segs| - 1];
      GroupCovers(t, minLines, maxLines);
      var g := Group(t, minLines, maxLines);
      var seg := segs[|segs| - 1];
      assert segs == t + [seg];
      var r := Step(g, seg, minLines, maxLines);
      assert Group(segs, minLines, maxLines) == r;
      if g.pending != [] && Span(MergeAll(g.pending)) + Span(seg) <= maxLines {
        assert r == Grouping(g.done, g.pending + [seg]);
      } else {
        var done := if g.pending != [] then g.done + [g.pending] else g.done;
        assert Flatten(done) == Flatten(g.done) + g.pending by {
          FlattenSnoc(g.done, g.pending);
        }
        if Span(seg) < minLines {
          assert r == Grouping(done, [seg]);
        } else {
          assert r == Grouping(done + [[seg]], []);
          FlattenSnoc(done, [seg]);
        }
      }
    }
  }

  lemma {:induction false} FlattenAtLeast(gs: seq<seq<Segment>>)
    requires NonEmpty(gs)
    ensures |Flatten(gs)| >= |gs|
  {
    if gs != [] {
      FlattenAtLeast(gs[..|gs| - 1]);
    }
  }

  /** The input, cut into non-empty contiguous runs in order: every segment
      lands in exactly one run, so the output is never longer than the
      input, and an empty input gives an empty output. */
  lemma RunsPartition(segs: seq<Segment>, minLines: int, maxLines: int)
    ensures Flatten(Runs(segs, minLines, maxLines)) == segs
    ensures |Balanced(segs, minLines, maxLines)| == |Runs(segs, minLines, maxLines)| <= |segs|
    ensures segs == [] <==> Balanced(segs, minLines, maxLines) == []
  {
    var g := Group(segs, minLines, maxLines);
    GroupCovers(segs, minLines, maxLines);
    if g.pending != [] {
      assert Flatten(g.done + [g.pending]) == Flatten(g.done) + g.pending by {
        assert (g.done + [g.pending])[..|g.done|] == g.done;
      }
    }
    FlattenAtLeast(Runs(segs, minLines, maxLines));
  }

  // ---------------------------------------------------------------------
  // What a merged run looks like.

  function Ids(g: seq<Segment>): (r: seq<string>)
    ensures |r| == |g|
  {
    if g == [] then [] else Ids(g[..|g| - 1]) + [g[|g| - 1].id]
  }

  function Codes(g: seq<Segment>): (r: seq<string>)
    ensures |r| == |g|
  {
    if g == [] then [] else Codes(g[..|g| - 1]) + [g[|g| - 1].code]
  }

  /** A merged run keeps the first segment's start and the last one's end;
      its id and code are those of the run joined by `_` and by line feeds;
      a run of two or more has no node, complexity 0 and `balanced_merge`
      as its last tag. */
  lemma {:induction false} MergeAllShape(g: seq<Segment>)
    requires g != []
    ensures MergeAll(g).startLine == g[0].startLine && MergeAll(g).endLine == g[|g| - 1].endLine
    ensures MergeAll(g).id == Join("_", Ids(g)) && MergeAll(g).code == Join("\n", Codes(g))
    ensures |g| == 1 ==> MergeAll(g) == g[0]
    ensures |g| >= 2 ==>
      MergeAll(g).node == None && MergeAll(g).complexity == 0.0
      && |MergeAll(g).tags| > 0 && MergeAll(g).tags[|MergeAll(g).tags| - 1] == "balanced_merge"
  {
    if |g| > 1 {
      var t := g[..|g| - 1];
      MergeAllShape(t);
      assert t[0] == g[0];
      JoinSnoc("_", Ids(t), g[|g| - 1].id);
      JoinSnoc("\n", Codes(t), g[|g| - 1].code);
    } else {
      assert Ids(g) == [g[0].id] by {
        assert g[..0] == [];
      }
      assert Codes(g) == [g[0].code] by {
        assert g[..0] == [];
      }
    }
  }

  // ---------------------------------------------------------------------
  // The merge rule.

  /** Inside a run every merge was allowed: the span of what was merged so
      far plus the next segment's span is within the maximum; and a run of
      two or more started at a segment shorter than the minimum. */
  predicate RunOk(g: seq<Segment>, minLines: int, maxLines: int)
  {
    && g != []
    && (|g| >= 2 ==> Span(g[0]) < minLines)
    && forall j :: 1 <= j < |g| ==> Span(MergeAll(g[..j])) + Span(g[j]) <= maxLines
  }

  /** Between runs: a run that started as a buffer ended because merging
      the next segment would have exceeded the maximum. */
  predicate Boundary(g: seq<Segment>, h: seq<Segment>, minLines: int, maxLines: int)
    requires g != [] && h != []
  {
    Span(g[0]) < minLines ==> Span(MergeAll(g)) + Span(h[0]) > maxLines
  }

  predicate WellGrouped(gs: seq<seq<Segment>>, minLines: int, maxLines: int)
  {
    && (forall i :: 0 <= i < |gs| ==> RunOk(gs[i], minLines, maxLines))
    && (forall i :: 0 <= i < |gs| - 1 ==> Boundary(gs[i], gs[i + 1], minLines, maxLines))
  }

  /** What the loop keeps between iterations. */
  predicate GroupInv(g: Grouping, minLines: int, maxLines: int)
  {
    && WellGrouped(if g.pending == [] then g.done else g.done + [g.pending], minLines, maxLines)
    && (g.pending != [] ==> Span(g.pending[0]) < minLines)
    && (g.pending == [] && g.done != [] ==> Span(g.done[|g.done| - 1][0]) >= minLines)
  }

  lemma RunGrows(g: seq<Segment>, seg: Segment, minLines: int, maxLines: int)
    requires RunOk(g, minLines, maxLines) && Span(g[0]) < minLines
    requires Span(MergeAll(g)) + Span(seg) <= maxLines
    ensures RunOk(g + [seg], minLines, maxLines)
  {
    var h := g + [seg];
    forall j | 1 <= j < |h|
      ensures Span(MergeAll(h[..j])) + Span(h[j]) <= maxLines
    {
      if j < |g| {
        assert h[..j] == g[..j];
      } else {
        assert h[..j] == g;
      }
    }
  }

  lemma WellGroupedSnoc(gs: seq<seq<Segment>>, h: seq<Segment>, minLines: int, maxLines: int)
    requires WellGrouped(gs, minLines, maxLines) && RunOk(h, minLines, maxLines)
    requires gs != [] ==> Boundary(gs[|gs| - 1], h, minLines, maxLines)
    ensures WellGrouped(gs + [h], minLines, maxLines)
  {
    var r := gs + [h];
    assert forall i :: 0 <= i < |gs| ==> r[i] == gs[i];
  }

  lemma {:induction false} GroupKeepsInv(segs: seq<Segment>, minLines: int, maxLines: int)
    ensures GroupInv(Group(segs, minLines, maxLines), minLines, maxLines)
  {
    if segs != [] {
      var t := segs[..|segs| - 1];
      GroupKeepsInv(t, minLines, maxLines);
      var g := Group(t, minLines, maxLines);
      var seg := segs[|segs| - 1];
      if g.pending != [] && Span(MergeAll(g.pending)) + Span(seg) <= maxLines {
        assert (g.done + [g.pending])[..|g.done|] == g.done;
        assert (g.done + [g.pending])[|g.done|] == g.pending;
        RunGrows(g.pending, seg, minLines, maxLines);
        var p := g.pending + [seg];
        if g.done != [] {
          assert Boundary(g.done[|g.done| - 1], g.pending, minLines, maxLines);
        }
        WellGroupedSnoc(g.done, p, minLines, maxLines);
      } else {
        var done := if g.pending != [] then g.done + [g.pending] else g.done;
        assert WellGrouped(done, minLines, maxLines);
        assert RunOk([seg], minLines, maxLines);
        if g.pending != [] {
          assert done[|done| - 1] == g.pending;
        }
        if Span(seg) < minLines {
          WellGroupedSnoc(done, [seg], minLines, maxLines);
        } else {
          WellGroupedSnoc(done, [seg], minLines, maxLines);
        }
      }
    }
  }

  /** The runs follow the merge rule exactly: inside a run every merge was
      allowed, only a segment shorter than the minimum starts a run of two
      or more, and a buffered run ends only where the next merge would
      exceed the maximum. */
  lemma RunsWellGrouped(segs: seq<Segment>, minLines: int, maxLines: int)
    ensures WellGrouped(Runs(segs, minLines, maxLines), minLines, maxLines)
  {
    GroupKeepsInv(segs, minLines, maxLines);
  }

  // ---------------------------------------------------------------------
  // The balancer object.

  /** The loop's variables hold the runs: the emitted segments are the
      merged emitted runs, and the buffer is the merged pending run. */
  predicate Tracks(balanced: seq<Segment>, buffer: Option<Segment>, g: Grouping)
  {
    && NonEmpty(g.done)
    && balanced == MergeEach(g.done)
    && (buffer.None? <==> g.pending == [])
    && (buffer.Some? ==> buffer.value == MergeAll(g.pending))
  }

  /** `ComfortBalancer`, with its default bounds of 5 and 50 lines. */
  class ComfortBalancer {
    const minLines: int
    const maxLines: int

    constructor (minLines: int := 5, maxLines: int := 50)
      ensures this.minLines == minLines && this.maxLines == maxLines
    {
      this.minLines := minLines;
      this.maxLines := maxLines;
    }

    /** `balance`. */
    method Balance(segments: seq<Segment>) returns (balanced: seq<Segment>)
      ensures balanced == Balanced(segments, minLines, maxLines)
    {
      if segments == [] {
        return [];
      }
      balanced := [];
      var buffer: Option<Segment> := None;
      var i := 0;
      while i < |segments|
        invariant 0 <= i <= |segments|
        invariant Tracks(balanced, buffer, Group(segments[..i], minLines, maxLines))
      {
        var seg := segments[i];
        ghost var g := Group(segments[..i], minLines, maxLines);
        ghost var r := Step(g, seg, minLines, maxLines);
        assert Group(segments[..i + 1], minLines, maxLines) == r by {
          assert segments[..i + 1][..i] == segments[..i];
        }
        var segLines := seg.endLine - seg.startLine + 1;
        if buffer.Some? {
          var b := buffer.value;
          var bufferLines := b.endLine - b.startLine + 1;
          if bufferLines + segLines <= maxLines {
            buffer := Some(Fresh(b.id + "_" + seg.id, b.code + "\n" + seg.code, b.startLine, seg.endLine, b.tags + seg.tags + ["balanced_merge"]));
            assert r == Grouping(g.done, g.pending + [seg]);
            assert buffer.value == MergeAll(g.pending + [seg]) by {
              assert (g.pending + [seg])[..|g.pending|] == g.pending;
            }
            i := i + 1;
            continue;
          } else {
            MergeEachSnoc(g.done, g.pending);
            balanced := balanced + [b];
            buffer := None;
          }
        }
        ghost var done := if g.pending != [] then g.done + [g.pending] else g.done;
        assert balanced == MergeEach(done);
        if segLines < minLines {
          assert r == Grouping(done, [seg]);
          buffer := Some(seg);
        } else {
          assert r == Grouping(done + [[seg]], []);
          MergeEachSnoc(done, [seg]);
          balanced := balanced + [seg];
        }
        i := i + 1;
      }
      assert segments[..|segments|] == segments;
      ghost var g := Group(segments, minLines, maxLines);
      if buffer.Some? {
        MergeEachSnoc(g.done, g.pending);
        balanced := balanced + [buffer.value];
      }
    }
  }
}
