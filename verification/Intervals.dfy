/** Subtracting known gaps from a range: clip, sort, merge, subtract. */
module Intervals {
  import opened Common
  import opened Sorting

  /** A half-open interval. */
  datatype Span = Span(start: int, end: int)

  datatype GapRow = GapRow(start: int, end: int)
  /** A known gap, never empty. */
  type Gap = g: GapRow | g.start < g.end witness GapRow(0, 1)

  predicate SpanLeq(a: Span, b: Span) { a.start < b.start || (a.start == b.start && a.end <= b.end) }

  predicate Within(t: int, s: Span) { s.start <= t < s.end }

  predicate InAny(t: int, ss: seq<Span>) { exists i :: 0 <= i < |ss| && Within(t, ss[i]) }

  predicate InGap(t: int, gs: seq<Gap>) { exists i :: 0 <= i < |gs| && gs[i].start <= t < gs[i].end }

  // -------------------------------------------------------------------- operations

  function Clip(start: int, end: int, gs: seq<Gap>): seq<Span>
    decreases |gs|
  {
    if gs == [] then []
    else
      var n := |gs| - 1;
      var g := gs[n];
      Clip(start, end, gs[..n])
      + (if g.end > start && g.start < end then [Span(Max(start, g.start), Min(end, g.end))] else [])
  }

  function MergeOne(merged: seq<Span>, g: Span): seq<Span> {
    var n := |merged| - 1;
    if g.start >= g.end then merged
    else if merged != [] && g.start <= merged[n].end
      then merged[..n] + [Span(merged[n].start, Max(merged[n].end, g.end))]
    else merged + [g]
  }

  function Merge(gs: seq<Span>): seq<Span>
    decreases |gs|
  {
    if gs == [] then [] else MergeOne(Merge(gs[..|gs| - 1]), gs[|gs| - 1])
  }

  /** How far the merged gaps reach, from the start of the range. */
  function Cursor(start: int, ms: seq<Span>): int
    decreases |ms|
  {
    if ms == [] then start else Max(Cursor(start, ms[..|ms| - 1]), ms[|ms| - 1].end)
  }

  /** The open spans before the last merged gap. */
  function Between(start: int, ms: seq<Span>): seq<Span>
    decreases |ms|
  {
    if ms == [] then []
    else
      var n := |ms| - 1;
      var cursor := Cursor(start, ms[..n]);
      Between(start, ms[..n]) + (if cursor < ms[n].start then [Span(cursor, ms[n].start)] else [])
  }

  function Subtract(start: int, end: int, gs: seq<Gap>): seq<Span> {
    var merged := Merge(Sort(Clip(start, end, gs), SpanLeq));
    var cursor := Cursor(start, merged);
    Between(start, merged) + (if cursor < end then [Span(cursor, end)] else [])
  }

  // ------------------------------------------------------------------------- loops

  method SubtractGaps(start: int, end: int, gaps: seq<Gap>) returns (result: seq<Span>)
    ensures result == Subtract(start, end, gaps)
  {
    hide Clip, Merge, Cursor, Between, Sort;
    var clipped := ClipGaps(start, end, gaps);
    var merged := MergeSpans(Sort(clipped, SpanLeq));
    var cursor;
    cursor, result := OpenSpans(start, merged);
    if cursor < end {
      result := result + [Span(cursor, end)];
    } else {
      assert result + [] == result;
    }
  }

  method ClipGaps(start: int, end: int, gaps: seq<Gap>) returns (clipped: seq<Span>)
    ensures clipped == Clip(start, end, gaps)
  {
    clipped := [];
    for i := 0 to |gaps|
      invariant clipped == Clip(start, end, gaps[..i])
    {
      assert gaps[..i + 1][..i] == gaps[..i];
      var gap := gaps[i];
      if gap.end > start && gap.start < end {
        clipped := clipped + [Span(Max(start, gap.start), Min(end, gap.end))];
      } else {
        assert clipped + [] == clipped;
      }
    }
    assert gaps[..|gaps|] == gaps;
  }

  method MergeSpans(clipped: seq<Span>) returns (merged: seq<Span>)
    ensures merged == Merge(clipped)
  {
    merged := [];
    for i := 0 to |clipped|
      invariant merged == Merge(clipped[..i])
    {
      assert clipped[..i + 1][..i] == clipped[..i];
      var g := clipped[i];
      if g.start < g.end {
        var n := |merged| - 1;
        if merged != [] && g.start <= merged[n].end {
          merged := merged[..n] + [Span(merged[n].start, Max(merged[n].end, g.end))];
        } else {
          merged := merged + [g];
        }
      }
    }
    assert clipped[..|clipped|] == clipped;
  }

  method OpenSpans(start: int, merged: seq<Span>) returns (cursor: int, result: seq<Span>)
    ensures cursor == Cursor(start, merged) && result == Between(start, merged)
  {
    cursor, result := start, [];
    for i := 0 to |merged|
      invariant cursor == Cursor(start, merged[..i]) && result == Between(start, merged[..i])
    {
      assert merged[..i + 1][..i] == merged[..i];
      if cursor < merged[i].start {
        result := result + [Span(cursor, merged[i].start)];
      } else {
        assert result + [] == result;
      }
      cursor := Max(cursor, merged[i].end);
    }
    assert merged[..|merged|] == merged;
  }

  // --------------------------------------------------------------------- meaning

  /** Non-empty spans, in order, with room between neighbours. */
  predicate Separated(ss: seq<Span>) {
    && (forall i :: 0 <= i < |ss| ==> ss[i].start < ss[i].end)
    && (forall i, j :: 0 <= i < j < |ss| ==> ss[i].end < ss[j].start)
  }

  predicate Inside(ss: seq<Span>, start: int, end: int) {
    forall i :: 0 <= i < |ss| ==> start <= ss[i].start && ss[i].end <= end
  }

  lemma InAppend(t: int, ss: seq<Span>, s: Span)
    ensures InAny(t, ss + [s]) <==> InAny(t, ss) || Within(t, s)
  {
    var all := ss + [s];
    if InAny(t, ss) {
      var i :| 0 <= i < |ss| && Within(t, ss[i]);
      assert Within(t, all[i]);
    }
    if Within(t, s) { assert Within(t, all[|ss|]); }
  }

  lemma {:induction false} ClipMeans(start: int, end: int, gs: seq<Gap>, t: int)
    requires start <= t < end
    ensures InAny(t, Clip(start, end, gs)) <==> InGap(t, gs)
    decreases |gs|
  {
    if gs != [] {
      var n := |gs| - 1;
      var g := gs[n];
      ClipMeans(start, end, gs[..n], t);
      InAppend(t, Clip(start, end, gs[..n]), Span(Max(start, g.start), Min(end, g.end)));
      assert Clip(start, end, gs[..n]) + [] == Clip(start, end, gs[..n]);
      if InGap(t, gs[..n]) {
        var i :| 0 <= i < n && gs[..n][i].start <= t < gs[..n][i].end;
        assert gs[i].start <= t < gs[i].end;
      }
      if InGap(t, gs) {
        var i :| 0 <= i < |gs| && gs[i].start <= t < gs[i].end;
        if i < n { assert gs[..n][i].start <= t < gs[..n][i].end; }
      }
    }
  }

  lemma {:induction false} ClipInside(start: int, end: int, gs: seq<Gap>)
    ensures Inside(Clip(start, end, gs), start, end)
    decreases |gs|
  {
    if gs != [] { ClipInside(start, end, gs[..|gs| - 1]); }
  }

  lemma SortKeepsSpans(ss: seq<Span>, start: int, end: int, t: int)
    requires Inside(ss, start, end)
    ensures InAny(t, Sort(ss, SpanLeq)) <==> InAny(t, ss)
    ensures Inside(Sort(ss, SpanLeq), start, end)
  {
    var sorted := Sort(ss, SpanLeq);
    assert forall s :: s in multiset(ss) <==> s in multiset(sorted);
    assert forall i :: 0 <= i < |ss| ==> ss[i] in multiset(ss);
    assert forall i :: 0 <= i < |sorted| ==> sorted[i] in multiset(sorted);
    assert forall s :: s in multiset(ss) ==> s in ss;
    assert forall s :: s in multiset(sorted) ==> s in sorted;
  }

  lemma SpanOrderIsTotal()
    ensures TotalOrder<Span>(SpanLeq)
  {
  }

  predicate StartsAscend(ss: seq<Span>) { forall i, j :: 0 <= i < j < |ss| ==> ss[i].start <= ss[j].start }

  /** Merging keeps exactly the points, and leaves room between what remains. */
  lemma {:induction false} MergeMeans(gs: seq<Span>, start: int, end: int, t: int)
    requires StartsAscend(gs) && Inside(gs, start, end)
    ensures InAny(t, Merge(gs)) <==> InAny(t, gs)
    ensures Separated(Merge(gs)) && Inside(Merge(gs), start, end)
    ensures gs != [] ==> forall i :: 0 <= i < |Merge(gs)| ==> Merge(gs)[i].start <= gs[|gs| - 1].start
    decreases |gs|
  {
    if gs != [] {
      var n := |gs| - 1;
      MergeMeans(gs[..n], start, end, t);
      assert gs == gs[..n] + [gs[n]];
      InAppend(t, gs[..n], gs[n]);
      MergeOneMeans(Merge(gs[..n]), gs[n], start, end, t);
    }
  }

  lemma MergeOneMeans(ms: seq<Span>, g: Span, start: int, end: int, t: int)
    requires Separated(ms) && Inside(ms, start, end) && start <= g.start && g.end <= end
    requires forall i :: 0 <= i < |ms| ==> ms[i].start <= g.start
    ensures var r := MergeOne(ms, g);
            && (InAny(t, r) <==> InAny(t, ms) || Within(t, g))
            && Separated(r) && Inside(r, start, end) && forall i :: 0 <= i < |r| ==> r[i].start <= g.start
  {
    MergeOneShape(ms, g, start, end);
    MergeOnePoints(ms, g, t);
  }

  lemma MergeOneShape(ms: seq<Span>, g: Span, start: int, end: int)
    requires Separated(ms) && Inside(ms, start, end) && start <= g.start && g.end <= end
    requires forall i :: 0 <= i < |ms| ==> ms[i].start <= g.start
    ensures var r := MergeOne(ms, g);
            Separated(r) && Inside(r, start, end) && forall i :: 0 <= i < |r| ==> r[i].start <= g.start
  {
    var n := |ms| - 1;
    if g.start < g.end && ms != [] && g.start > ms[n].end {
      forall i | 0 <= i <= n ensures ms[i].end < g.start {
        if i < n { assert ms[i].end < ms[n].start; }
      }
    }
  }

  lemma MergeOnePoints(ms: seq<Span>, g: Span, t: int)
    requires forall i :: 0 <= i < |ms| ==> ms[i].start <= g.start
    ensures InAny(t, MergeOne(ms, g)) <==> InAny(t, ms) || Within(t, g)
  {
    hide InAny;
    var n := |ms| - 1;
    InAppend(t, ms, g);
    if g.start < g.end && ms != [] && g.start <= ms[n].end {
      InAppend(t, ms[..n], Span(ms[n].start, Max(ms[n].end, g.end)));
      InAppend(t, ms[..n], ms[n]);
      assert ms == ms[..n] + [ms[n]];
    }
  }

  lemma {:induction false} CursorBounds(start: int, ms: seq<Span>)
    ensures Cursor(start, ms) >= start && forall i :: 0 <= i < |ms| ==> ms[i].end <= Cursor(start, ms)
    decreases |ms|
  {
    if ms != [] { CursorBounds(start, ms[..|ms| - 1]); }
  }

  lemma {:induction false} CursorInside(start: int, ms: seq<Span>, end: int)
    requires start <= end && Inside(ms, start, end)
    ensures Cursor(start, ms) <= end
    decreases |ms|
  {
    if ms != [] { CursorInside(start, ms[..|ms| - 1], end); }
  }

  lemma {:induction false} CursorIsLast(start: int, ms: seq<Span>, x: int)
    requires start <= x && forall i :: 0 <= i < |ms| ==> ms[i].end < x
    ensures Cursor(start, ms) <= x && (start < x ==> Cursor(start, ms) < x)
    decreases |ms|
  {
    if ms != [] { CursorIsLast(start, ms[..|ms| - 1], x); }
  }

  lemma {:induction false} BetweenShape(start: int, end: int, ms: seq<Span>)
    requires Separated(ms) && Inside(ms, start, end)
    ensures Separated(Between(start, ms)) && Inside(Between(start, ms), start, end)
    ensures forall i :: 0 <= i < |Between(start, ms)| ==> Between(start, ms)[i].end < Cursor(start, ms)
    decreases |ms|
  {
    hide Cursor, Separated, Inside;
    if ms == [] {
      NothingIsSeparated(start, end);
    } else {
      var n := |ms| - 1;
      var cursor := Cursor(start, ms[..n]);
      LastGapIsAfter(start, end, ms);
      BetweenShape(start, end, ms[..n]);
      AppendSeparated(Between(start, ms[..n]), Span(cursor, ms[n].start), start, end, cursor);
      assert Between(start, ms[..n]) + [] == Between(start, ms[..n]);
      CursorGrows(start, ms);
    }
  }

  lemma NothingIsSeparated(start: int, end: int)
    ensures Separated([]) && Inside([], start, end)
  {
  }

  lemma CursorGrows(start: int, ms: seq<Span>)
    requires ms != []
    ensures Cursor(start, ms) == Max(Cursor(start, ms[..|ms| - 1]), ms[|ms| - 1].end)
  {
  }

  lemma AppendSeparated(ss: seq<Span>, s: Span, start: int, end: int, cursor: int)
    requires Separated(ss) && Inside(ss, start, end) && forall i :: 0 <= i < |ss| ==> ss[i].end < cursor
    requires start <= cursor == s.start && s.end <= end
    ensures s.start < s.end ==> Separated(ss + [s]) && Inside(ss + [s], start, end)
  {
  }

  /** Before the cursor, the open spans are exactly the points outside every merged gap. */
  lemma {:induction false} BetweenMeans(start: int, end: int, ms: seq<Span>, t: int)
    requires Separated(ms) && Inside(ms, start, end)
    ensures start <= t < Cursor(start, ms) ==> (InAny(t, Between(start, ms)) <==> !InAny(t, ms))
    ensures InAny(t, Between(start, ms)) ==> start <= t < Cursor(start, ms)
    decreases |ms|
  {
    hide InAny, Separated, Inside;
    if ms == [] {
      NoSpans(t);
    } else {
      var n := |ms| - 1;
      var before := ms[..n];
      LastGapIsAfter(start, end, ms);
      BetweenMeans(start, end, before, t);
      assert ms == before + [ms[n]];
      InAppend(t, before, ms[n]);
      InAppend(t, Between(start, before), Span(Cursor(start, before), ms[n].start));
      assert Between(start, before) + [] == Between(start, before);
      GapsEndByCursor(start, before, t);
    }
  }

  lemma NoSpans(t: int)
    ensures !InAny(t, [])
  {
  }

  lemma LastGapIsAfter(start: int, end: int, ms: seq<Span>)
    requires Separated(ms) && Inside(ms, start, end) && ms != []
    ensures var n := |ms| - 1;
            && Separated(ms[..n]) && Inside(ms[..n], start, end)
            && start <= Cursor(start, ms[..n]) <= ms[n].start < ms[n].end <= end
  {
    var n := |ms| - 1;
    CursorBounds(start, ms[..n]);
    CursorIsLast(start, ms[..n], ms[n].start);
  }

  lemma GapsEndByCursor(start: int, ms: seq<Span>, t: int)
    ensures InAny(t, ms) ==> t < Cursor(start, ms)
  {
    CursorBounds(start, ms);
  }

  /** Subtraction: in-range, ordered, apart, and containing exactly the points outside every gap. */
  lemma SubtractMeans(start: int, end: int, gs: seq<Gap>, t: int)
    requires start < end
    ensures start <= t < end ==> (InAny(t, Subtract(start, end, gs)) <==> !InGap(t, gs))
    ensures Separated(Subtract(start, end, gs)) && Inside(Subtract(start, end, gs), start, end)
  {
    hide Merge, Between, Cursor, Sort, Clip;
    var clipped := Clip(start, end, gs);
    ClipInside(start, end, gs);
    if start <= t < end { ClipMeans(start, end, gs, t); }
    SortKeepsSpans(clipped, start, end, t);
    SpanOrderIsTotal();
    SortIsOrdered(clipped, SpanLeq);
    var sorted := Sort(clipped, SpanLeq);
    MergeMeans(sorted, start, end, t);
    var merged := Merge(sorted);
    BetweenMeans(start, end, merged, t);
    BetweenShape(start, end, merged);
    GapsEndByCursor(start, merged, t);
    CursorBounds(start, merged);
    CursorInside(start, merged, end);
    var cursor := Cursor(start, merged);
    InAppend(t, Between(start, merged), Span(cursor, end));
    assert Between(start, merged) + [] == Between(start, merged);
  }

  predicate Overlaps(g: Gap, a: int, b: int) { g.start < b && a < g.end }

  predicate Clear(gs: seq<Gap>, a: int, b: int) { forall i :: 0 <= i < |gs| ==> !Overlaps(gs[i], a, b) }

  predicate Covers(s: Span, a: int, b: int) { s.start <= a && b <= s.end }

  predicate CoveredBy(ss: seq<Span>, a: int, b: int) { exists i :: 0 <= i < |ss| && Covers(ss[i], a, b) }

  lemma PointsOfSubtract(start: int, end: int, gs: seq<Gap>)
    requires start < end
    ensures forall t :: start <= t < end ==> (InAny(t, Subtract(start, end, gs)) <==> !InGap(t, gs))
    ensures Separated(Subtract(start, end, gs)) && Inside(Subtract(start, end, gs), start, end)
  {
    hide Subtract, InAny, InGap, Separated, Inside;
    forall t | start <= t < end ensures InAny(t, Subtract(start, end, gs)) <==> !InGap(t, gs) {
      SubtractMeans(start, end, gs, t);
    }
    SubtractMeans(start, end, gs, start);
  }

  /** One span covers an interval exactly when the interval is in range and meets no gap,
      however the gaps overlap and in whatever order they are listed. */
  lemma CoveredExactly(start: int, end: int, gs: seq<Gap>, a: int, b: int)
    requires start < end && a < b
    ensures CoveredBy(Subtract(start, end, gs), a, b) <==> start <= a && b <= end && Clear(gs, a, b)
  {
    hide Subtract;
    var spans := Subtract(start, end, gs);
    PointsOfSubtract(start, end, gs);
    if CoveredBy(spans, a, b) {
      var i :| 0 <= i < |spans| && Covers(spans[i], a, b);
      forall k | 0 <= k < |gs| ensures !Overlaps(gs[k], a, b) {
        var t := Max(a, gs[k].start);
        if t < b {
          assert Within(t, spans[i]);
          assert InAny(t, spans) && !InGap(t, gs);
        }
      }
    }
    if start <= a && b <= end && Clear(gs, a, b) {
      ClearPoint(gs, a, b, a);
      assert InAny(a, spans);
      var i :| 0 <= i < |spans| && Within(a, spans[i]);
      EndIsOutside(spans, i);
      ClearPoint(gs, a, b, spans[i].end);
      assert b <= spans[i].end;
      assert Covers(spans[i], a, b);
    }
  }

  lemma ClearPoint(gs: seq<Gap>, a: int, b: int, t: int)
    requires Clear(gs, a, b)
    ensures a <= t < b ==> !InGap(t, gs)
  {
    forall i | 0 <= i < |gs| && a <= t < b ensures !(gs[i].start <= t < gs[i].end) { assert !Overlaps(gs[i], a, b); }
  }

  lemma EndIsOutside(ss: seq<Span>, i: nat)
    requires Separated(ss) && i < |ss|
    ensures !InAny(ss[i].end, ss)
  {
    forall j | 0 <= j < |ss| ensures !Within(ss[i].end, ss[j]) {
      if j < i { assert ss[j].end < ss[i].start; }
    }
  }
}
