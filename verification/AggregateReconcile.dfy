/** Bars of different intervals agree: what fine bars say adds up to what coarse bars say. */
module AggregateReconcile {
  import opened Common
  import opened Aggregate

  // ------------------------------------------------------------------- merging bars

  /** A fine candle joined to the coarse candle before it. */
  function Join(c: Candle, f: Candle): Candle {
    c.(high := Max(c.high, f.high), low := Min(c.low, f.low), close := f.close,
       volume := c.volume + f.volume, count := c.count + f.count)
  }

  function TakeCandle(cs: seq<Candle>, f: Candle, n: int): seq<Candle>
    requires n > 0
  {
    var start := BucketStart(f.start, n);
    var k := |cs| - 1;
    if cs == [] || cs[k].start != start || cs[k].end != start + n then cs + [f.(start := start, end := start + n)]
    else cs[..k] + [Join(cs[k], f)]
  }

  /** Fine candles merged into buckets of width n. */
  function MergeCandles(fs: seq<Candle>, n: int): seq<Candle>
    requires n > 0
    decreases |fs|
  {
    if fs == [] then [] else TakeCandle(MergeCandles(fs[..|fs| - 1], n), fs[|fs| - 1], n)
  }

  lemma TakeAppend(fs: seq<Candle>, f: Candle, n: int)
    requires n > 0
    ensures MergeCandles(fs + [f], n) == TakeCandle(MergeCandles(fs, n), f, n)
  {
    assert (fs + [f])[..|fs|] == fs;
  }

  /** The coarse interval is a whole number of fine intervals. */
  predicate Divides(n: int, w: int) { n > 0 && w > 0 && w % n == 0 }

  lemma Nested(ts: int, n: int, w: int)
    requires Divides(n, w)
    ensures BucketStart(BucketStart(ts, n), w) == BucketStart(ts, w)
    ensures BucketStart(ts, w) <= BucketStart(ts, n) && BucketStart(ts, n) + n <= BucketStart(ts, w) + w
  {
    var k := w / n;
    assert w == n * k;
    if k <= 0 {
      Multiples(n, k, 0);
      assert false;
    }
    BucketsNest(ts, n, k);
  }

  /** A first trade taken as a one-trade candle, or taken directly. */
  lemma TakeFirst(cs: seq<Candle>, t: Trade, n: int, w: int)
    requires Divides(n, w)
    ensures var s := BucketStart(t.ts, n);
            TakeCandle(cs, FirstTrade(s, s + n, t), w) == TakeTrade(cs, t, w)
  {
    hide BucketStart;
    Nested(t.ts, n, w);
  }

  lemma TakeLast(cs: seq<Candle>, f: Candle, n: int)
    requires n > 0
    ensures var r := TakeCandle(cs, f, n);
            && r != [] && r[|r| - 1].start == BucketStart(f.start, n)
            && r[|r| - 1].end == BucketStart(f.start, n) + n
  {
  }

  /** A later trade of the same fine bucket: extending the fine candle or the coarse one. */
  lemma TakeMore(cs: seq<Candle>, f: Candle, t: Trade, n: int, w: int)
    requires Divides(n, w) && f.start == BucketStart(t.ts, n)
    ensures TakeCandle(cs, AddTrade(f, t), w) == TakeTrade(TakeCandle(cs, f, w), t, w)
  {
    hide BucketStart;
    Nested(t.ts, n, w);
    TakeLast(cs, f, w);
    var start := BucketStart(t.ts, w);
    var i := |cs| - 1;
    if cs == [] || cs[i].start != start || cs[i].end != start + w {
      assert (cs + [f.(start := start, end := start + w)])[..|cs|] == cs;
    } else {
      assert (cs[..i] + [Join(cs[i], f)])[..i] == cs[..i];
      assert Join(cs[i], AddTrade(f, t)) == AddTrade(Join(cs[i], f), t);
    }
  }

  /** Every candle sits in the bucket of its own start. */
  lemma {:induction false} CandlesAligned(ts: seq<Trade>, n: int, i: nat)
    requires n > 0 && i < |Candles(ts, n)|
    ensures var c := Candles(ts, n)[i];
            c.end == c.start + n && exists t :: c.start == BucketStart(t, n)
    decreases |ts|
  {
    var k := |ts| - 1;
    var before := Candles(ts[..k], n);
    assert BucketStart(ts[k].ts, n) == BucketStart(ts[k].ts, n);
    if i < |before| { CandlesAligned(ts[..k], n, i); }
  }

  /** Merging the fine bars of any trades gives exactly their directly aggregated coarse bars. */
  lemma {:induction false} FineBarsMergeToCoarse(ts: seq<Trade>, n: int, w: int)
    requires Divides(n, w)
    ensures MergeCandles(Candles(ts, n), w) == Candles(ts, w)
    decreases |ts|
  {
    if ts != [] {
      var m := |ts| - 1;
      FineBarsMergeToCoarse(ts[..m], n, w);
      MergeStep(Candles(ts[..m], n), ts[m], n, w);
    }
  }

  lemma MergeStep(fine: seq<Candle>, t: Trade, n: int, w: int)
    requires Divides(n, w)
    ensures MergeCandles(TakeTrade(fine, t, n), w) == TakeTrade(MergeCandles(fine, w), t, w)
  {
    hide BucketStart, TakeCandle, MergeCandles, FirstTrade, AddTrade;
    var s := BucketStart(t.ts, n);
    var j := |fine| - 1;
    if fine == [] || fine[j].start != s || fine[j].end != s + n {
      TakeAppend(fine, FirstTrade(s, s + n, t), w);
      TakeFirst(MergeCandles(fine, w), t, n, w);
    } else {
      var f := fine[j];
      assert fine == fine[..j] + [f];
      TakeAppend(fine[..j], f, w);
      TakeAppend(fine[..j], AddTrade(f, t), w);
      TakeMore(MergeCandles(fine[..j], w), f, t, n, w);
    }
  }

  // ------------------------------------------------------------------- conservation

  function Volume(c: Candle): int { c.volume }
  function Count(c: Candle): int { c.count }
  function Quantity(t: Trade): int { t.quantity }

  lemma SumReplaceLast(cs: seq<Candle>, f: Candle -> int, c: Candle)
    requires cs != []
    ensures SumOf(cs[..|cs| - 1] + [c], f) == SumOf(cs, f) - f(cs[|cs| - 1]) + f(c)
  {
    SumAppend(cs[..|cs| - 1], f, c);
  }

  /** No quantity and no trade is lost or invented. */
  lemma {:induction false} VolumeIsConserved(ts: seq<Trade>, n: int)
    requires n > 0
    ensures SumOf(Candles(ts, n), Volume) == SumOf(ts, Quantity)
    ensures SumOf(Candles(ts, n), Count) == |ts|
    decreases |ts|
  {
    hide TakeTrade;
    if ts != [] {
      var m := |ts| - 1;
      VolumeIsConserved(ts[..m], n);
      TakeTradeCounts(Candles(ts[..m], n), ts[m], n);
    }
  }

  lemma TakeTradeCounts(cs: seq<Candle>, t: Trade, n: int)
    requires n > 0
    ensures SumOf(TakeTrade(cs, t, n), Volume) == SumOf(cs, Volume) + t.quantity
    ensures SumOf(TakeTrade(cs, t, n), Count) == SumOf(cs, Count) + 1
  {
    hide BucketStart, SumOf;
    var s := BucketStart(t.ts, n);
    SumAppend(cs, Volume, FirstTrade(s, s + n, t));
    SumAppend(cs, Count, FirstTrade(s, s + n, t));
    if cs != [] {
      SumReplaceLast(cs, Volume, AddTrade(cs[|cs| - 1], t));
      SumReplaceLast(cs, Count, AddTrade(cs[|cs| - 1], t));
    }
  }

  // ------------------------------------------------------- one candle per bucket

  /** The trades of one bucket. */
  function InBucket(ts: seq<Trade>, n: int, start: int): seq<Trade>
    requires n > 0
    decreases |ts|
  {
    if ts == [] then []
    else
      var k := |ts| - 1;
      InBucket(ts[..k], n, start) + (if BucketStart(ts[k].ts, n) == start then [ts[k]] else [])
  }

  /** One candle over a non-empty list of trades: first, highest, lowest, last, total, number. */
  function Summary(ts: seq<Trade>, start: int, end: int): Candle
    requires ts != []
    decreases |ts|
  {
    var k := |ts| - 1;
    if k == 0 then FirstTrade(start, end, ts[0]) else AddTrade(Summary(ts[..k], start, end), ts[k])
  }

  lemma {:induction false} SummaryMeans(ts: seq<Trade>, start: int, end: int)
    requires ts != []
    ensures var c := Summary(ts, start, end);
            && c.open == ts[0].price && c.close == ts[|ts| - 1].price && c.count == |ts|
            && c.start == start && c.end == end && c.volume == SumOf(ts, Quantity)
            && (forall i :: 0 <= i < |ts| ==> c.low <= ts[i].price <= c.high)
            && (exists i :: 0 <= i < |ts| && ts[i].price == c.high)
            && (exists i :: 0 <= i < |ts| && ts[i].price == c.low)
    decreases |ts|
  {
    var k := |ts| - 1;
    if k == 0 {
      assert ts[..0] == [];
      assert ts[0].price == Summary(ts, start, end).high;
    } else {
      SummaryMeans(ts[..k], start, end);
      var b := Summary(ts[..k], start, end);
      var i :| 0 <= i < k && ts[..k][i].price == b.high;
      var j :| 0 <= j < k && ts[..k][j].price == b.low;
      assert ts[i].price == b.high && ts[j].price == b.low;
      assert ts[k].price == ts[k].price;
      assert forall m :: 0 <= m < k ==> ts[m] == ts[..k][m];
    }
  }

  predicate StartsAscend(cs: seq<Candle>) {
    forall i, j :: 0 <= i < j < |cs| ==> cs[i].start < cs[j].start
  }

  lemma BucketsAscend(a: int, b: int, n: int)
    requires n > 0 && a <= b
    ensures BucketStart(a, n) <= BucketStart(b, n)
  {
    assert a / n <= b / n by { if a / n > b / n { Multiples(n, b / n + 1, a / n); assert false; } }
    Multiples(n, a / n, b / n);
  }

  /** Of ordered trades, the candles are the non-empty buckets in order, each summing up its own trades. */
  lemma {:induction false} CandlesAreBuckets(ts: seq<Trade>, n: int)
    requires n > 0 && Ordered(ts)
    ensures StartsAscend(Candles(ts, n))
    ensures forall i :: 0 <= i < |Candles(ts, n)| ==> IsBucket(Candles(ts, n)[i], ts, n)
    ensures ts != [] ==> Candles(ts, n) != []
                         && Candles(ts, n)[|Candles(ts, n)| - 1].start == BucketStart(ts[|ts| - 1].ts, n)
    decreases |ts|
  {
    hide BucketStart, IsBucket, Candles;
    if ts == [] {
      NoCandles(n);
    } else {
      var m := |ts| - 1;
      var cs := Candles(ts[..m], n);
      assert Ordered(ts[..m]);
      CandlesAreBuckets(ts[..m], n);
      if m > 0 { BucketsAscend(ts[m - 1].ts, ts[m].ts, n); }
      BucketStep(ts, n, cs);
    }
  }

  lemma NoCandles(n: int)
    requires n > 0
    ensures Candles([], n) == []
  {
  }

  lemma BucketStep(ts: seq<Trade>, n: int, cs: seq<Candle>)
    requires n > 0 && ts != [] && Ordered(ts) && cs == Candles(ts[..|ts| - 1], n)
    requires StartsAscend(cs) && forall i :: 0 <= i < |cs| ==> IsBucket(cs[i], ts[..|ts| - 1], n)
    requires |ts| > 1 ==> cs != [] && cs[|cs| - 1].start == BucketStart(ts[|ts| - 2].ts, n) <= BucketStart(ts[|ts| - 1].ts, n)
    ensures var r := Candles(ts, n);
            && StartsAscend(r) && (forall i :: 0 <= i < |r| ==> IsBucket(r[i], ts, n))
            && r != [] && r[|r| - 1].start == BucketStart(ts[|ts| - 1].ts, n)
  {
    hide BucketStart, IsBucket, Candles;
    var m := |ts| - 1;
    var s := BucketStart(ts[m].ts, n);
    var k := |cs| - 1;
    NextCandles(ts, n);
    if m == 0 {
      assert ts[..m] == [];
      NoCandles(n);
    }
    if cs != [] { EndsWhereItShould(cs[k], ts[..m], n); }
    forall i | 0 <= i < |cs| && cs[i].start != s ensures IsBucket(cs[i], ts, n) { OldBucket(ts, n, cs[i]); }
    if cs == [] || cs[k].start != s {
      NewBucket(ts, n, cs);
    } else {
      SameBucket(ts, n, cs);
    }
  }

  lemma NextCandles(ts: seq<Trade>, n: int)
    requires n > 0 && ts != []
    ensures Candles(ts, n) == TakeTrade(Candles(ts[..|ts| - 1], n), ts[|ts| - 1], n)
  {
  }

  lemma {:induction false} SummaryEnds(ts: seq<Trade>, start: int, end: int)
    requires ts != []
    ensures Summary(ts, start, end).start == start && Summary(ts, start, end).end == end
    decreases |ts|
  {
    if |ts| > 1 { SummaryEnds(ts[..|ts| - 1], start, end); }
  }

  lemma EndsWhereItShould(c: Candle, ts: seq<Trade>, n: int)
    requires n > 0 && IsBucket(c, ts, n)
    ensures c.end == c.start + n
  {
    SummaryEnds(InBucket(ts, n, c.start), c.start, c.start + n);
  }

  lemma OldBucket(ts: seq<Trade>, n: int, c: Candle)
    requires n > 0 && ts != [] && c.start != BucketStart(ts[|ts| - 1].ts, n) && IsBucket(c, ts[..|ts| - 1], n)
    ensures IsBucket(c, ts, n)
  {
    assert InBucket(ts, n, c.start) == InBucket(ts[..|ts| - 1], n, c.start);
  }

  /** The candle sums up exactly the trades of its bucket. */
  predicate IsBucket(c: Candle, ts: seq<Trade>, n: int)
    requires n > 0
  {
    var mine := InBucket(ts, n, c.start);
    mine != [] && c == Summary(mine, c.start, c.start + n)
  }

  lemma {:induction false} EmptyLater(ts: seq<Trade>, n: int, start: int)
    requires n > 0 && forall i :: 0 <= i < |ts| ==> BucketStart(ts[i].ts, n) < start
    ensures InBucket(ts, n, start) == []
    decreases |ts|
  {
    hide BucketStart;
    if ts != [] { EmptyLater(ts[..|ts| - 1], n, start); }
  }

  lemma NewBucket(ts: seq<Trade>, n: int, cs: seq<Candle>)
    requires n > 0 && ts != [] && Ordered(ts) && cs == Candles(ts[..|ts| - 1], n)
    requires |ts| == 1 || BucketStart(ts[|ts| - 2].ts, n) < BucketStart(ts[|ts| - 1].ts, n)
    ensures var s := BucketStart(ts[|ts| - 1].ts, n);
            IsBucket(FirstTrade(s, s + n, ts[|ts| - 1]), ts, n)
  {
    var m := |ts| - 1;
    var s := BucketStart(ts[m].ts, n);
    forall i | 0 <= i < m ensures BucketStart(ts[..m][i].ts, n) < s {
      BucketsAscend(ts[i].ts, ts[m - 1].ts, n);
    }
    EmptyLater(ts[..m], n, s);
    assert InBucket(ts, n, s) == [ts[m]];
  }

  lemma SameBucket(ts: seq<Trade>, n: int, cs: seq<Candle>)
    requires n > 0 && ts != [] && cs == Candles(ts[..|ts| - 1], n) && cs != []
    requires IsBucket(cs[|cs| - 1], ts[..|ts| - 1], n) && cs[|cs| - 1].start == BucketStart(ts[|ts| - 1].ts, n)
    ensures IsBucket(AddTrade(cs[|cs| - 1], ts[|ts| - 1]), ts, n)
  {
    hide BucketStart;
    var m := |ts| - 1;
    var c := cs[|cs| - 1];
    var mine := InBucket(ts[..m], n, c.start);
    assert InBucket(ts, n, c.start) == mine + [ts[m]];
    assert (mine + [ts[m]])[..|mine|] == mine;
  }

  // ------------------------------------------------------------------- completeness

  lemma CompleteMeans(c: Candle, coverageEnd: int, gs: seq<KnownGap>)
    ensures BarOf(c, coverageEnd, gs).complete <==> c.end <= coverageEnd && !MeetsGap(gs, c.start, c.end)
  {
  }

  /** A complete coarse bar has only complete fine bars. */
  lemma CompleteCoarseHasCompleteFine(ts: seq<Trade>, n: int, w: int, coverageEnd: int, gs: seq<KnownGap>, i: nat, j: nat)
    requires Divides(n, w)
    requires i < |Bars(ts, n, coverageEnd, gs)| && j < |Bars(ts, w, coverageEnd, gs)|
    requires var fine, coarse := Bars(ts, n, coverageEnd, gs)[i], Bars(ts, w, coverageEnd, gs)[j];
             BucketStart(fine.candle.start, w) == coarse.candle.start && coarse.complete
    ensures Bars(ts, n, coverageEnd, gs)[i].complete
  {
    hide Candles, MeetsGap, BucketStart;
    var f, c := Candles(ts, n)[i], Candles(ts, w)[j];
    CandlesAligned(ts, n, i);
    CandlesAligned(ts, w, j);
    var t :| f.start == BucketStart(t, n);
    Nested(t, n, w);
    CompleteMeans(f, coverageEnd, gs);
    CompleteMeans(c, coverageEnd, gs);
    NarrowMeetsFewer(gs, f.start, f.end, c.start, c.end);
  }

  lemma NarrowMeetsFewer(gs: seq<KnownGap>, a: int, b: int, c: int, d: int)
    requires c <= a && b <= d
    ensures MeetsGap(gs, a, b) ==> MeetsGap(gs, c, d)
  {
    if MeetsGap(gs, a, b) {
      var i :| 0 <= i < |gs| && Overlaps(gs[i], a, b);
      assert Overlaps(gs[i], c, d);
    }
  }

  /** The fine bucket number k of a coarse one lies within coverage and meets no gap. */
  predicate Clean(start: int, n: int, coverageEnd: int, gs: seq<KnownGap>, k: nat) {
    start + k * n + n <= coverageEnd && !MeetsGap(gs, start + k * n, start + k * n + n)
  }

  lemma FineFits(k: nat, n: int, m: int)
    requires n > 0 && k < m
    ensures 0 <= k * n && k * n + n <= m * n
  {
    assert m * n == k * n + n + (m - k - 1) * n;
    assert (m - k - 1) * n >= 0;
  }

  /** The fine bucket that a gap inside the coarse one meets. */
  lemma GapHitsFine(g: KnownGap, start: int, n: int, m: int) returns (k: nat)
    requires n > 0 && m > 0 && Overlaps(g, start, start + m * n)
    ensures k < m && Overlaps(g, start + k * n, start + k * n + n)
  {
    var x := Max(g.start, start) - start;
    k := x / n;
    assert k * n <= x < k * n + n;
    FineFits(0, n, m);
    assert k >= m ==> k * n == m * n + (k - m) * n && (k - m) * n >= 0;
  }

  /** A coarse bar is complete exactly when all its fine buckets are clean, with or without trades. */
  lemma CompleteCoarseExactly(ts: seq<Trade>, n: int, w: int, coverageEnd: int, gs: seq<KnownGap>, j: nat)
    requires Divides(n, w) && j < |Bars(ts, w, coverageEnd, gs)|
    ensures var coarse := Bars(ts, w, coverageEnd, gs)[j];
            coarse.complete <==> forall k: nat :: k < w / n ==> Clean(coarse.candle.start, n, coverageEnd, gs, k)
  {
    hide Candles, BucketStart, MeetsGap, Clean;
    CandlesAligned(ts, w, j);
    var c := Candles(ts, w)[j];
    CompleteMeans(c, coverageEnd, gs);
    var m := w / n;
    assert m * n == w && m >= 1;
    if c.end <= coverageEnd && !MeetsGap(gs, c.start, c.end) { CoarseCleans(c.start, n, m, coverageEnd, gs); }
    if forall k: nat :: k < m ==> Clean(c.start, n, coverageEnd, gs, k) { FineCleans(c.start, n, m, coverageEnd, gs); }
  }

  lemma CoarseCleans(start: int, n: int, m: int, coverageEnd: int, gs: seq<KnownGap>)
    requires n > 0 && start + m * n <= coverageEnd && !MeetsGap(gs, start, start + m * n)
    ensures forall k: nat :: k < m ==> Clean(start, n, coverageEnd, gs, k)
  {
    hide MeetsGap;
    forall k: nat | k < m ensures Clean(start, n, coverageEnd, gs, k) {
      FineFits(k, n, m);
      NarrowMeetsFewer(gs, start + k * n, start + k * n + n, start, start + m * n);
    }
  }

  lemma FineCleans(start: int, n: int, m: int, coverageEnd: int, gs: seq<KnownGap>)
    requires n > 0 && m > 0 && forall k: nat :: k < m ==> Clean(start, n, coverageEnd, gs, k)
    ensures start + m * n <= coverageEnd && !MeetsGap(gs, start, start + m * n)
  {
    assert Clean(start, n, coverageEnd, gs, m - 1) && (m - 1) * n + n == m * n;
    if MeetsGap(gs, start, start + m * n) { GapIsUnclean(start, n, m, coverageEnd, gs); }
  }

  lemma GapIsUnclean(start: int, n: int, m: int, coverageEnd: int, gs: seq<KnownGap>)
    requires n > 0 && m > 0 && MeetsGap(gs, start, start + m * n)
    ensures exists k: nat :: k < m && !Clean(start, n, coverageEnd, gs, k)
  {
    var i :| 0 <= i < |gs| && Overlaps(gs[i], start, start + m * n);
    var k := GapHitsFine(gs[i], start, n, m);
    assert !Clean(start, n, coverageEnd, gs, k);
  }

  /** Complete fine bars are not enough: a gap may lie in a fine bucket without trades. */
  lemma GapBetweenBars()
    ensures var ts: seq<Trade> := [TradeRow(0, 1, 1)];
            var gs: seq<KnownGap> := [GapRow(1, 2)];
            var (fine, coarse) := (Bars(ts, 1, 2, gs), Bars(ts, 2, 2, gs));
            |fine| == |coarse| == 1 && fine[0].complete && !coarse[0].complete
  {
    var ts: seq<Trade> := [TradeRow(0, 1, 1)];
    var gs: seq<KnownGap> := [GapRow(1, 2)];
    assert ts[..0] == [];
    assert Candles(ts, 1) == [FirstTrade(0, 1, ts[0])] && Candles(ts, 2) == [FirstTrade(0, 2, ts[0])];
    assert Overlaps(gs[0], 0, 2);
  }
}
