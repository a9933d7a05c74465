/** Trade-to-bar aggregation over fixed UTC intervals. */
module Aggregate {
  import opened Common

  datatype TradeRow = TradeRow(ts: int, price: int, quantity: int)
  type Trade = t: TradeRow | t.price > 0 && t.quantity > 0 witness TradeRow(0, 1, 1)

  datatype GapRow = GapRow(start: int, end: int)
  type KnownGap = g: GapRow | g.start < g.end witness GapRow(0, 1)

  /** Open, high, low, close, volume and count of one bucket. */
  datatype Candle = Candle(start: int, end: int, open: int, high: int, low: int, close: int, volume: int, count: int)

  datatype Flag = IncompleteCoverage | GapInBucket

  datatype Bar = Bar(candle: Candle, complete: bool, flags: seq<Flag>)

  datatype AggregateError = TradesOutOfOrder

  /** The start of the bucket of width n that contains ts. */
  function BucketStart(ts: int, n: int): int
    requires n > 0
  {
    (ts / n) * n
  }

  function FirstTrade(start: int, end: int, t: Trade): Candle {
    Candle(start, end, t.price, t.price, t.price, t.price, t.quantity, 1)
  }

  function AddTrade(c: Candle, t: Trade): Candle {
    c.(high := Max(c.high, t.price), low := Min(c.low, t.price), close := t.price,
       volume := c.volume + t.quantity, count := c.count + 1)
  }

  function TakeTrade(cs: seq<Candle>, t: Trade, n: int): seq<Candle>
    requires n > 0
  {
    var start := BucketStart(t.ts, n);
    var k := |cs| - 1;
    if cs == [] || cs[k].start != start || cs[k].end != start + n then cs + [FirstTrade(start, start + n, t)]
    else cs[..k] + [AddTrade(cs[k], t)]
  }

  function Candles(ts: seq<Trade>, n: int): seq<Candle>
    requires n > 0
    decreases |ts|
  {
    if ts == [] then [] else TakeTrade(Candles(ts[..|ts| - 1], n), ts[|ts| - 1], n)
  }

  predicate Ordered(ts: seq<Trade>) {
    forall i, j :: 0 <= i < j < |ts| ==> ts[i].ts <= ts[j].ts
  }

  predicate Overlaps(g: KnownGap, start: int, end: int) { g.start < end && start < g.end }

  predicate MeetsGap(gs: seq<KnownGap>, start: int, end: int) {
    exists i :: 0 <= i < |gs| && Overlaps(gs[i], start, end)
  }

  function FlagsOf(c: Candle, coverageEnd: int, gs: seq<KnownGap>): seq<Flag> {
    (if c.end > coverageEnd then [IncompleteCoverage] else [])
    + (if MeetsGap(gs, c.start, c.end) then [GapInBucket] else [])
  }

  function BarOf(c: Candle, coverageEnd: int, gs: seq<KnownGap>): Bar {
    var flags := FlagsOf(c, coverageEnd, gs);
    Bar(c, flags == [], flags)
  }

  function Bars(ts: seq<Trade>, n: int, coverageEnd: int, gs: seq<KnownGap>): (bars: seq<Bar>)
    requires n > 0
    ensures |bars| == |Candles(ts, n)| && forall i :: 0 <= i < |bars| ==> bars[i].candle == Candles(ts, n)[i]
  {
    var cs := Candles(ts, n);
    seq(|cs|, i requires 0 <= i < |cs| => BarOf(cs[i], coverageEnd, gs))
  }

  // -------------------------------------------------------------------------- loop

  lemma {:induction false} OutOfOrder(ts: seq<Trade>, i: nat)
    requires 0 < i < |ts| && ts[i].ts < ts[i - 1].ts
    ensures !Ordered(ts)
  {
  }

  /** One pass over the trades, keeping the current candle at the end of the list. */
  method BuildCandles(trades: seq<Trade>, n: int) returns (r: Result<seq<Candle>, AggregateError>)
    requires n > 0
    ensures r.Ok? <==> Ordered(trades)
    ensures r.Ok? ==> r.value == Candles(trades, n)
  {
    hide BucketStart, Ordered;
    var mutable: seq<Candle> := [];
    var previous: Option<int> := None;
    NothingIsOrdered();
    for i := 0 to |trades|
      invariant Ordered(trades[..i]) && previous == if i == 0 then None else Some(trades[i - 1].ts)
      invariant mutable == Candles(trades[..i], n)
    {
      var trade := trades[i];
      if previous.Some? && trade.ts < previous.value {
        OutOfOrder(trades, i);
        return Err(TradesOutOfOrder);
      }
      OrderedGrows(trades, i);
      previous := Some(trade.ts);
      assert trades[..i + 1][..i] == trades[..i];
      var start := BucketStart(trade.ts, n);
      var k := |mutable| - 1;
      if mutable == [] || mutable[k].start != start || mutable[k].end != start + n {
        mutable := mutable + [FirstTrade(start, start + n, trade)];
      } else {
        mutable := mutable[..k] + [AddTrade(mutable[k], trade)];
      }
    }
    assert trades[..|trades|] == trades;
    return Ok(mutable);
  }

  lemma NothingIsOrdered()
    ensures Ordered([])
  {
  }

  method AggregateTrades(trades: seq<Trade>, n: int, coverageEnd: int, gaps: seq<KnownGap>)
    returns (r: Result<seq<Bar>, AggregateError>)
    requires n > 0
    ensures r.Ok? <==> Ordered(trades)
    ensures r.Ok? ==> r.value == Bars(trades, n, coverageEnd, gaps)
  {
    hide Candles, Ordered;
    var candles := BuildCandles(trades, n);
    if candles.Err? { return Err(candles.error); }
    var bars: seq<Bar> := [];
    for i := 0 to |candles.value|
      invariant bars == Bars(trades, n, coverageEnd, gaps)[..i]
    {
      var source := candles.value[i];
      var flags: seq<Flag> := [];
      if source.end > coverageEnd { flags := flags + [IncompleteCoverage]; }
      if MeetsGap(gaps, source.start, source.end) { flags := flags + [GapInBucket]; }
      assert flags == FlagsOf(source, coverageEnd, gaps);
      bars := bars + [Bar(source, flags == [], flags)];
    }
    return Ok(bars);
  }

  lemma OrderedGrows(ts: seq<Trade>, i: nat)
    requires i < |ts| && Ordered(ts[..i]) && (i > 0 ==> ts[i - 1].ts <= ts[i].ts)
    ensures Ordered(ts[..i + 1])
  {
    var before, all := ts[..i], ts[..i + 1];
    forall j, k | 0 <= j < k < |all| ensures all[j].ts <= all[k].ts {
      if k < i { assert before[j].ts <= before[k].ts; }
      else if j < i - 1 { assert before[j].ts <= before[i - 1].ts; }
    }
  }

  // -------------------------------------------------------------------- arithmetic

  lemma Multiples(d: int, a: int, b: int)
    requires d > 0 && a <= b
    ensures d * a <= d * b
  {
  }

  lemma Division(x: int, d: int, q: int, r: int)
    requires d > 0 && 0 <= r < d && x == d * q + r
    ensures x / d == q
  {
    var p := x / d;
    assert x == d * p + x % d;
    if p < q {
      Multiples(d, p + 1, q);
      assert false;
    }
    if q < p {
      Multiples(d, q + 1, p);
      assert false;
    }
  }

  /** A fine bucket lies in one coarse bucket: that of any of its instants. */
  lemma BucketsNest(ts: int, n: int, k: int)
    requires n > 0 && k > 0
    ensures n * k > 0
    ensures BucketStart(BucketStart(ts, n), n * k) == BucketStart(ts, n * k)
    ensures BucketStart(ts, n * k) <= BucketStart(ts, n) && BucketStart(ts, n) + n <= BucketStart(ts, n * k) + n * k
  {
    var q, s := ts / n, BucketStart(ts, n);
    SplitQuotient(n, k, q);
    InOneBucket(s, ts - s, n, n * k, q / k, n * (q % k));
  }

  /** An instant less than n after the start of a fine bucket shares its coarse bucket. */
  lemma InOneBucket(s: int, r: int, n: int, w: int, a: int, offset: int)
    requires n > 0 && w > 0 && 0 <= r < n && 0 <= offset && offset + n <= w && s == w * a + offset
    ensures BucketStart(s, w) == w * a && BucketStart(s + r, w) == w * a
  {
    Division(s, w, a, offset);
    Division(s + r, w, a, offset + r);
  }

  lemma SplitQuotient(n: int, k: int, q: int)
    requires n > 0 && k > 0
    ensures var w, b := n * k, q % k;
            w > 0 && n * q == w * (q / k) + n * b && 0 <= n * b && n * b + n <= w
  {
    var a, b := q / k, q % k;
    Multiples(n, 0, b);
    Multiples(n, b + 1, k);
    Multiples(n, 1, k);
    calc {
      n * q;
      n * (k * a + b);
      n * (k * a) + n * b;
      { Regroup(n, k, a); }
      (n * k) * a + n * b;
    }
  }

  lemma Regroup(x: int, y: int, z: int)
    ensures x * (y * z) == (x * y) * z
  {
  }
}
