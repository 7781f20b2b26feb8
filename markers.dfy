/** `MarkerStrategy.apply` (src/strategies/markers.py): a segment whose code
    contains `# SPLIT` is cut at every line containing it. The marker lines
    are dropped, the runs of lines between them become new segments, and
    empty runs produce nothing. */
module Markers {
  import opened Strings
  import opened Segments

  predicate IsMarker(line: string)
  {
    Contains(line, "# SPLIT")
  }

  /** The lines that are not marker lines, in order. */
  function NonMarkers(lines: seq<string>): (r: seq<string>)
    ensures |r| <= |lines|
  {
    if lines == [] then []
    else NonMarkers(lines[..|lines| - 1]) + (if IsMarker(lines[|lines| - 1]) then [] else [lines[|lines| - 1]])
  }

  /** The loop's state after `n` lines: the closed chunks with their
      start lines, the open chunk and its start line. */
  datatype Scan = Scan(chunks: seq<seq<string>>, starts: seq<int>, chunk: seq<string>, start: int)

  /** The loop of `apply` over the first `n` lines. */
  function ScanLines(seg: Segment, lines: seq<string>, n: nat): (r: Scan)
    requires n <= |lines|
    ensures |r.chunks| == |r.starts|
  {
    if n == 0 then Scan([], [], [], seg.startLine)
    else
      var st := ScanLines(seg, lines, n - 1);
      if IsMarker(lines[n - 1]) then
        if st.chunk != [] then Scan(st.chunks + [st.chunk], st.starts + [st.start], [], seg.startLine + n)
        else st.(chunk := [], start := seg.startLine + n)
      else st.(chunk := st.chunk + [lines[n - 1]])
  }

  /** A chunk closed by a marker line. */
  function Explicit(seg: Segment, k: nat, chunk: seq<string>, start: int): Segment
  {
    Fresh(seg.id + "_p" + NatToString(k), Join("\n", chunk), start, start + |chunk| - 1, ["explicit_split"])
  }

  /** The chunk left open at the end. */
  function Remainder(seg: Segment, k: nat, chunk: seq<string>, start: int): Segment
  {
    Fresh(seg.id + "_p" + NatToString(k), Join("\n", chunk), start, seg.endLine, ["remainder"])
  }

  function Explicits(seg: Segment, chunks: seq<seq<string>>, starts: seq<int>): (r: seq<Segment>)
    requires |chunks| == |starts|
    ensures |r| == |chunks|
  {
    if chunks == [] then []
    else
      var k := |chunks| - 1;
      Explicits(seg, chunks[..k], starts[..k]) + [Explicit(seg, k, chunks[k], starts[k])]
  }

  /** The state after all lines of a segment. */
  function Final(seg: Segment): Scan
  {
    var lines := SplitLines(seg.code);
    ScanLines(seg, lines, |lines|)
  }

  /** What `apply` returns. */
  function Split(seg: Segment): seq<Segment>
  {
    if !IsMarker(seg.code) then [seg]
    else
      var st := Final(seg);
      Explicits(seg, st.chunks, st.starts)
        + (if st.chunk != [] then [Remainder(seg, |st.chunks|, st.chunk, st.start)] else [])
  }

  /** Every chunk of the segment, the open one included, and where each starts. */
  function Chunks(seg: Segment): seq<seq<string>>
  {
    var st := Final(seg);
    if st.chunk != [] then st.chunks + [st.chunk] else st.chunks
  }

  function Starts(seg: Segment): seq<int>
  {
    var st := Final(seg);
    if st.chunk != [] then st.starts + [st.start] else st.starts
  }

  // ---------------------------------------------------------------------
  // The chunks are the maximal runs of lines between markers.

  /** `c` is the run of lines `[p, e)`: no marker among them, and at the
      start of the lines or just after a marker. */
  predicate Run(lines: seq<string>, p: int, c: seq<string>, e: int)
  {
    && 0 <= p && p + |c| == e <= |lines|
    && lines[p..e] == c
    && (forall j :: p <= j < e ==> !IsMarker(lines[j]))
    && (p == 0 || IsMarker(lines[p - 1]))
  }

  /** A non-empty run that ends at a marker or at the last line. */
  predicate MaximalRun(lines: seq<string>, p: int, c: seq<string>)
  {
    c != [] && Run(lines, p, c, p + |c|) && (p + |c| == |lines| || IsMarker(lines[p + |c|]))
  }

  /** Every chunk is a maximal run at its start line less `base`. */
  predicate AllMaximal(lines: seq<string>, base: int, chunks: seq<seq<string>>, starts: seq<int>)
    requires |chunks| == |starts|
  {
    forall k {:trigger starts[k]} :: 0 <= k < |chunks| ==> MaximalRun(lines, starts[k] - base, chunks[k])
  }

  lemma AllMaximalSnoc(lines: seq<string>, base: int, chunks: seq<seq<string>>, starts: seq<int>, c: seq<string>, p: int)
    requires |chunks| == |starts| && AllMaximal(lines, base, chunks, starts)
    requires MaximalRun(lines, p - base, c)
    ensures AllMaximal(lines, base, chunks + [c], starts + [p])
  {
    var cs := chunks + [c];
    var ps := starts + [p];
    forall k | 0 <= k < |cs|
      ensures MaximalRun(lines, ps[k] - base, cs[k])
    {
      if k < |chunks| {
        assert cs[k] == chunks[k] && ps[k] == starts[k];
      }
    }
  }

  predicate ScanInv(seg: Segment, lines: seq<string>, n: nat, st: Scan)
    requires n <= |lines|
  {
    && |st.chunks| == |st.starts|
    && Flatten(st.chunks) + st.chunk == NonMarkers(lines[..n])
    && AllMaximal(lines, seg.startLine, st.chunks, st.starts)
    && Run(lines, st.start - seg.startLine, st.chunk, n)
  }

  /** A marker line closes the open chunk, if any, and opens an empty one
      after it. */
  lemma ScanStepMarker(seg: Segment, lines: seq<string>, n: nat, st: Scan)
    requires 0 < n <= |lines| && IsMarker(lines[n - 1])
    requires ScanInv(seg, lines, n - 1, st)
    ensures ScanInv(seg, lines, n, if st.chunk != [] then Scan(st.chunks + [st.chunk], st.starts + [st.start], [], seg.startLine + n)
                                   else st.(chunk := [], start := seg.startLine + n))
  {
    assert lines[..n] == lines[..n - 1] + [lines[n - 1]];
    assert lines[..n][..n - 1] == lines[..n - 1];
    assert NonMarkers(lines[..n]) == NonMarkers(lines[..n - 1]);
    if st.chunk != [] {
      var r := Scan(st.chunks + [st.chunk], st.starts + [st.start], [], seg.startLine + n);
      assert Flatten(r.chunks) == Flatten(st.chunks) + st.chunk by {
        assert r.chunks[..|st.chunks|] == st.chunks;
      }
      AllMaximalSnoc(lines, seg.startLine, st.chunks, st.starts, st.chunk, st.start);
    }
  }

  /** Any other line joins the open chunk. */
  lemma ScanStepLine(seg: Segment, lines: seq<string>, n: nat, st: Scan)
    requires 0 < n <= |lines| && !IsMarker(lines[n - 1])
    requires ScanInv(seg, lines, n - 1, st)
    ensures ScanInv(seg, lines, n, st.(chunk := st.chunk + [lines[n - 1]]))
  {
    var line := lines[n - 1];
    var q := st.start - seg.startLine;
    var c := st.chunk + [line];
    assert Flatten(st.chunks) + c == NonMarkers(lines[..n]) by {
      assert lines[..n] == lines[..n - 1] + [line];
      assert lines[..n][..n - 1] == lines[..n - 1];
      assert NonMarkers(lines[..n]) == NonMarkers(lines[..n - 1]) + [line];
      assert Flatten(st.chunks) + c == (Flatten(st.chunks) + st.chunk) + [line];
    }
    assert Run(lines, q, c, n) by {
      assert lines[q..n] == lines[q..n - 1] + [line];
      assert forall j :: q <= j < n ==> !IsMarker(lines[j]);
    }
  }

  lemma {:induction false} ScanKeepsInv(seg: Segment, lines: seq<string>, n: nat)
    requires n <= |lines|
    ensures ScanInv(seg, lines, n, ScanLines(seg, lines, n))
  {
    if n > 0 {
      ScanKeepsInv(seg, lines, n - 1);
      ScanStep(seg, lines, n);
    }
  }

  /** One line of the loop keeps the invariant. */
  lemma ScanStep(seg: Segment, lines: seq<string>, n: nat)
    requires 0 < n <= |lines|
    requires ScanInv(seg, lines, n - 1, ScanLines(seg, lines, n - 1))
    ensures ScanInv(seg, lines, n, ScanLines(seg, lines, n))
  {
    var st := ScanLines(seg, lines, n - 1);
    if IsMarker(lines[n - 1]) {
      ScanStepMarker(seg, lines, n, st);
    } else {
      ScanStepLine(seg, lines, n, st);
    }
  }

  /** The pieces are the maximal non-empty runs of non-marker lines, in
      order: together they are exactly the lines without the marker lines,
      and each starts at the segment's first line number plus its position
      among the lines. */
  lemma {:induction false} ChunksAreRuns(seg: Segment)
    ensures
      var lines := SplitLines(seg.code);
      var cs := Chunks(seg);
      var ps := Starts(seg);
      && |cs| == |ps|
      && Flatten(cs) == NonMarkers(lines)
      && AllMaximal(lines, seg.startLine, cs, ps)
  {
    var lines := SplitLines(seg.code);
    ScanKeepsInv(seg, lines, |lines|);
    var st := Final(seg);
    assert lines[..|lines|] == lines;
    if st.chunk != [] {
      var cs := st.chunks + [st.chunk];
      assert Flatten(cs) == Flatten(st.chunks) + st.chunk by {
        assert cs[..|st.chunks|] == st.chunks;
      }
      AllMaximalSnoc(lines, seg.startLine, st.chunks, st.starts, st.chunk, st.start);
    } else {
      assert Flatten(st.chunks) + [] == Flatten(st.chunks);
    }
  }

  lemma {:induction false} ExplicitsAt(seg: Segment, chunks: seq<seq<string>>, starts: seq<int>, k: nat)
    requires |chunks| == |starts| && k < |chunks|
    ensures Explicits(seg, chunks, starts)[k] == Explicit(seg, k, chunks[k], starts[k])
  {
    var m := |chunks| - 1;
    if k < m {
      ExplicitsAt(seg, chunks[..m], starts[..m], k);
    }
  }

  lemma ExplicitsSnoc(seg: Segment, chunks: seq<seq<string>>, starts: seq<int>, c: seq<string>, p: int)
    requires |chunks| == |starts|
    ensures Explicits(seg, chunks + [c], starts + [p]) == Explicits(seg, chunks, starts) + [Explicit(seg, |chunks|, c, p)]
  {
    assert (chunks + [c])[..|chunks|] == chunks;
    assert (starts + [p])[..|starts|] == starts;
  }

  /** The pieces, one per chunk, in order: the `k`-th is named
      `<id>_p<k>` and holds its chunk's lines joined by line feeds,
      from its chunk's start line; a piece closed by a marker ends after
      its own lines and is tagged `explicit_split`, the piece left open at
      the end ends where the segment ends and is tagged `remainder`. */
  lemma PiecesShape(seg: Segment)
    requires IsMarker(seg.code)
    ensures
      var r := Split(seg);
      var cs := Chunks(seg);
      var ps := Starts(seg);
      && |r| == |cs| == |ps|
      && forall k :: 0 <= k < |r| ==>
        && r[k].id == seg.id + "_p" + NatToString(k)
        && r[k].code == Join("\n", cs[k])
        && r[k].startLine == ps[k]
        && r[k].node.None? && r[k].complexity == 0.0
        && ((r[k].tags == ["explicit_split"] && r[k].endLine == ps[k] + |cs[k]| - 1)
            || (k == |r| - 1 && r[k].tags == ["remainder"] && r[k].endLine == seg.endLine))
  {
    var st := Final(seg);
    var r := Split(seg);
    var ex := Explicits(seg, st.chunks, st.starts);
    forall k | 0 <= k < |ex|
      ensures ex[k] == Explicit(seg, k, st.chunks[k], st.starts[k])
    {
      ExplicitsAt(seg, st.chunks, st.starts, k);
    }
    if st.chunk != [] {
      assert r == ex + [Remainder(seg, |st.chunks|, st.chunk, st.start)];
    } else {
      assert r == ex;
    }
  }

  /** The last piece is a remainder exactly when the last line is not a
      marker line. */
  lemma RemainderIffNoTrailingMarker(seg: Segment)
    requires IsMarker(seg.code)
    ensures
      var r := Split(seg);
      var lines := SplitLines(seg.code);
      (r != [] && r[|r| - 1].tags == ["remainder"]) <==> (lines != [] && !IsMarker(lines[|lines| - 1]))
  {
    var lines := SplitLines(seg.code);
    var st := Final(seg);
    ScanKeepsInv(seg, lines, |lines|);
    PiecesShape(seg);
    if lines != [] {
      var n := |lines|;
      var prev := ScanLines(seg, lines, n - 1);
      if IsMarker(lines[n - 1]) {
        assert st.chunk == [];
      } else {
        assert st.chunk == prev.chunk + [lines[n - 1]];
      }
    }
    var ex := Explicits(seg, st.chunks, st.starts);
    if st.chunk == [] && ex != [] {
      ExplicitsAt(seg, st.chunks, st.starts, |ex| - 1);
    }
  }

  /** The piece ids differ from one another. */
  lemma PieceIdsDistinct(seg: Segment, j: nat, k: nat)
    requires IsMarker(seg.code)
    requires j < |Split(seg)| && k < |Split(seg)| && Split(seg)[j].id == Split(seg)[k].id
    ensures j == k
  {
    PiecesShape(seg);
    var pre := seg.id + "_p";
    assert (pre + NatToString(j))[|pre|..] == NatToString(j);
    assert (pre + NatToString(k))[|pre|..] == NatToString(k);
    NatToStringInjective(j, k);
  }

  /** A segment whose lines are all marker lines gives no pieces. */
  lemma OnlyMarkersGiveNothing(seg: Segment)
    requires IsMarker(seg.code)
    requires forall i :: 0 <= i < |SplitLines(seg.code)| ==> IsMarker(SplitLines(seg.code)[i])
    ensures Split(seg) == []
  {
    var lines := SplitLines(seg.code);
    AllMarkersNoChunk(seg, lines, |lines|);
  }

  lemma {:induction false} AllMarkersNoChunk(seg: Segment, lines: seq<string>, n: nat)
    requires n <= |lines|
    requires forall i :: 0 <= i < |lines| ==> IsMarker(lines[i])
    ensures ScanLines(seg, lines, n).chunks == [] && ScanLines(seg, lines, n).chunk == []
  {
    if n > 0 {
      AllMarkersNoChunk(seg, lines, n - 1);
    }
  }

  /** `apply`. */
  method Apply(seg: Segment) returns (newSegments: seq<Segment>)
    ensures newSegments == Split(seg)
  {
    if !Contains(seg.code, "# SPLIT") {
      return [seg];
    }
    var lines := SplitLines(seg.code);
    newSegments := [];
    var currentChunk: seq<string> := [];
    var startLine := seg.startLine;
    var i := 0;
    while i < |lines|
      invariant 0 <= i <= |lines|
      invariant ScanLines(seg, lines, i).chunk == currentChunk
      invariant ScanLines(seg, lines, i).start == startLine
      invariant newSegments == Explicits(seg, ScanLines(seg, lines, i).chunks, ScanLines(seg, lines, i).starts)
    {
      var line := lines[i];
      ghost var st := ScanLines(seg, lines, i);
      ghost var nx := ScanLines(seg, lines, i + 1);
      if Contains(line, "# SPLIT") {
        if currentChunk != [] {
          assert nx == Scan(st.chunks + [st.chunk], st.starts + [st.start], [], seg.startLine + i + 1);
          ExplicitsSnoc(seg, st.chunks, st.starts, st.chunk, st.start);
          var codeStr := Join("\n", currentChunk);
          newSegments := newSegments + [Fresh(seg.id + "_p" + NatToString(|newSegments|), codeStr, startLine, startLine + |currentChunk| - 1, ["explicit_split"])];
          currentChunk := [];
        } else {
          assert nx == st.(start := seg.startLine + i + 1);
        }
        startLine := seg.startLine + i + 1;
      } else {
        assert nx == st.(chunk := st.chunk + [line]);
        currentChunk := currentChunk + [line];
      }
      i := i + 1;
    }
    assert ScanLines(seg, lines, i) == Final(seg);
    if currentChunk != [] {
      var codeStr := Join("\n", currentChunk);
      newSegments := newSegments + [Fresh(seg.id + "_p" + NatToString(|newSegments|), codeStr, startLine, seg.endLine, ["remainder"])];
    }
  }
}
