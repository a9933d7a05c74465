/** Decoding inverts encoding, and accepts nothing but encodings. */
module CodecProofs {
  import opened Common
  import opened Numeric
  import opened Bytes
  import opened Canonical
  import opened Orders
  import opened FacadeTypes
  import opened Codec

  // ------------------------------------------------------------------ primitives

  lemma U64Back(v: u64, rest: Bytes)
    ensures GetU64(PutU64(v, rest)) == Ok((v, rest))
  {
    U64RoundTrip(v);
    assert PutU64(v, rest)[..8] == U64Bytes(v) && PutU64(v, rest)[8..] == rest;
  }

  lemma I64Back(v: i64, rest: Bytes)
    ensures GetI64(PutI64(v, rest)) == Ok((v, rest))
  {
    I64RoundTrip(v);
    assert PutI64(v, rest)[..8] == I64Bytes(v) && PutI64(v, rest)[8..] == rest;
  }

  lemma TextBack(v: Text, rest: Bytes)
    requires TextFits(v)
    ensures GetText(PutText(v, rest)) == Ok((v, rest))
  {
    U64Back(|v|, v + rest);
    assert (v + rest)[..|v|] == v && (v + rest)[|v|..] == rest;
  }

  lemma BoolBack(v: bool, rest: Bytes)
    ensures GetBool(PutBool(v, rest)) == Ok((v, rest))
  {
    U64Back(if v then 1 else 0, rest);
  }

  lemma U64Exact(bs: Bytes)
    requires GetU64(bs).Ok?
    ensures bs == PutU64(GetU64(bs).value.0, GetU64(bs).value.1)
  {
    U64Canonical(bs[..8]);
    assert bs == bs[..8] + bs[8..];
  }

  lemma I64Exact(bs: Bytes)
    requires GetI64(bs).Ok?
    ensures bs == PutI64(GetI64(bs).value.0, GetI64(bs).value.1)
  {
    I64Canonical(bs[..8]);
    assert bs == bs[..8] + bs[8..];
  }

  lemma TextExact(bs: Bytes)
    requires GetText(bs).Ok?
    ensures TextFits(GetText(bs).value.0)
    ensures bs == PutText(GetText(bs).value.0, GetText(bs).value.1)
  {
    hide U64Bytes, FromU64Bytes, ValidUtf8;
    U64Exact(bs);
    var (n, r) := GetU64(bs).value;
    assert r == r[..n] + r[n..];
  }

  lemma BoolExact(bs: Bytes)
    requires GetBool(bs).Ok?
    ensures bs == PutBool(GetBool(bs).value.0, GetBool(bs).value.1)
  {
    U64Exact(bs);
  }

  lemma LabelIsText(s: string)
    requires |s| <= MAX_TEXT_BYTES
    ensures TextFits(Label(s))
  {
    AsciiIsUtf8(Label(s));
  }

  /** Words of one length that differ in some letter are different labels. */
  lemma LabelsDiffer(s: string, t: string, i: nat)
    requires i < |s| == |t| && (s[i] as int) % 128 != (t[i] as int) % 128
    ensures Label(s) != Label(t)
  {
    assert Label(s)[i] != Label(t)[i];
  }

  // ------------------------------------------------------------------ composites

  lemma KindBack(k: OrderKind, rest: Bytes)
    ensures GetKind(PutKind(k, rest)) == Ok((k, rest))
  {
    match k {
      case Market =>
        LabelIsText("MARKET");
        TextBack(Label("MARKET"), rest);
      case Limit(l) =>
        LabelIsText("LIMIT");
        TextBack(Label("LIMIT"), PutI64(l, rest));
        I64Back(l, rest);
      case StopMarket(s) =>
        LabelIsText("STOP_MARKET");
        TextBack(Label("STOP_MARKET"), PutI64(s, rest));
        I64Back(s, rest);
      case StopLimit(s, l) =>
        LabelIsText("STOP_LIMIT");
        TextBack(Label("STOP_LIMIT"), PutI64(s, PutI64(l, rest)));
        I64Back(s, PutI64(l, rest));
        I64Back(l, rest);
    }
  }

  lemma KindExact(bs: Bytes)
    requires GetKind(bs).Ok?
    ensures bs == PutKind(GetKind(bs).value.0, GetKind(bs).value.1)
  {
    TextExact(bs);
    var (t, r) := GetText(bs).value;
    if t != Label("MARKET") {
      I64Exact(r);
      if t != Label("LIMIT") && t != Label("STOP_MARKET") { I64Exact(GetI64(r).value.1); }
    }
  }

  lemma SideBack(s: Side, rest: Bytes)
    ensures GetSide(PutText(SideLabel(s), rest)) == Ok((s, rest))
  {
    LabelIsText("BUY");
    LabelIsText("SELL");
    TextBack(SideLabel(s), rest);
  }

  lemma TifBack(t: TimeInForce, rest: Bytes)
    ensures GetTif(PutText(TifLabel(t), rest)) == Ok((t, rest))
  {
    LabelIsText("GTC");
    LabelIsText("IOC");
    LabelIsText("FOK");
    TextBack(TifLabel(t), rest);
    LabelsDiffer("GTC", "IOC", 0);
    LabelsDiffer("GTC", "FOK", 0);
    LabelsDiffer("IOC", "FOK", 0);
  }

  lemma NewOrderBack(r: NewOrder, rest: Bytes)
    requires TextFits(r.clientOrderId) && TextFits(r.instrumentId)
    ensures GetNewOrder(PutNewOrder(r, rest)) == Ok((r, rest))
  {
    var b9 := PutU64(r.submittedAt, rest);
    var b8 := PutBool(r.marketableOnly, b9);
    var b7 := PutBool(r.postOnly, b8);
    var b6 := PutBool(r.reduceOnly, b7);
    var b5 := PutText(TifLabel(r.timeInForce), b6);
    var b4 := PutKind(r.kind, b5);
    var b3 := PutU64(r.quantity, b4);
    var b2 := PutText(SideLabel(r.side), b3);
    var b1 := PutText(r.instrumentId, b2);
    TextBack(r.clientOrderId, b1);
    TextBack(r.instrumentId, b2);
    SideBack(r.side, b3);
    U64Back(r.quantity, b4);
    KindBack(r.kind, b5);
    TifBack(r.timeInForce, b6);
    BoolBack(r.reduceOnly, b7);
    BoolBack(r.postOnly, b8);
    BoolBack(r.marketableOnly, b9);
    U64Back(r.submittedAt, rest);
  }

  lemma SideExact(bs: Bytes)
    requires GetSide(bs).Ok?
    ensures bs == PutText(SideLabel(GetSide(bs).value.0), GetSide(bs).value.1)
  {
    TextExact(bs);
  }

  lemma TifExact(bs: Bytes)
    requires GetTif(bs).Ok?
    ensures bs == PutText(TifLabel(GetTif(bs).value.0), GetTif(bs).value.1)
  {
    TextExact(bs);
  }

  lemma NewOrderExact(bs: Bytes)
    requires GetNewOrder(bs).Ok?
    ensures var (r, rest) := GetNewOrder(bs).value;
            TextFits(r.clientOrderId) && TextFits(r.instrumentId) && bs == PutNewOrder(r, rest)
  {
    var r1 := GetText(bs).value.1;
    var r2 := GetText(r1).value.1;
    var r3 := GetSide(r2).value.1;
    var r4 := GetU64(r3).value.1;
    var r5 := GetKind(r4).value.1;
    var r6 := GetTif(r5).value.1;
    var r7 := GetBool(r6).value.1;
    var r8 := GetBool(r7).value.1;
    var r9 := GetBool(r8).value.1;
    TextExact(bs);
    TextExact(r1);
    SideExact(r2);
    U64Exact(r3);
    KindExact(r4);
    TifExact(r5);
    BoolExact(r6);
    BoolExact(r7);
    BoolExact(r8);
    U64Exact(r9);
  }

  lemma OptionalBack(v: Option<u64>, rest: Bytes)
    ensures GetOptional(PutOptional(v, rest)) == Ok((v, rest))
  {
    BoolBack(v.Some?, if v.Some? then PutU64(v.value, rest) else rest);
    if v.Some? { U64Back(v.value, rest); }
  }

  lemma OptionalExact(bs: Bytes)
    requires GetOptional(bs).Ok?
    ensures bs == PutOptional(GetOptional(bs).value.0, GetOptional(bs).value.1)
  {
    BoolExact(bs);
    var (present, r) := GetBool(bs).value;
    if present { U64Exact(r); }
  }

  lemma QuoteBack(q: Option<TopOfBook>, rest: Bytes)
    requires QuoteFits(q)
    ensures GetQuote(PutQuote(q, rest)) == Ok((q, rest))
  {
    BoolBack(q.Some?, if q.Some? then PutI64(q.value.bid, PutI64(q.value.ask, rest)) else rest);
    if q.Some? {
      I64Back(q.value.bid, PutI64(q.value.ask, rest));
      I64Back(q.value.ask, rest);
    }
  }

  lemma QuoteExact(bs: Bytes)
    requires GetQuote(bs).Ok?
    ensures QuoteFits(GetQuote(bs).value.0) && bs == PutQuote(GetQuote(bs).value.0, GetQuote(bs).value.1)
  {
    BoolExact(bs);
    var (present, r) := GetBool(bs).value;
    if present {
      I64Exact(r);
      I64Exact(GetI64(r).value.1);
    }
  }

  lemma BookSideBack(s: BookSide, rest: Bytes)
    ensures GetBookSide(PutText(BookSideLabel(s), rest)) == Ok((s, rest))
  {
    LabelIsText("BID");
    LabelIsText("ASK");
    TextBack(BookSideLabel(s), rest);
    LabelsDiffer("BID", "ASK", 0);
  }

  lemma PolicyBack(p: IntrabarPolicy, rest: Bytes)
    ensures GetPolicy(PutPolicy(p, rest)) == Ok((p, rest))
  {
    LabelIsText("PESSIMISTIC");
    LabelIsText("OPTIMISTIC");
    LabelIsText("SEEDED");
    match p {
      case Pessimistic => TextBack(Label("PESSIMISTIC"), rest);
      case Optimistic => TextBack(Label("OPTIMISTIC"), rest);
      case Seeded(seed) =>
        TextBack(Label("SEEDED"), PutU64(seed, rest));
        U64Back(seed, rest);
    }
  }

  lemma PolicyExact(bs: Bytes)
    requires GetPolicy(bs).Ok?
    ensures bs == PutPolicy(GetPolicy(bs).value.0, GetPolicy(bs).value.1)
  {
    TextExact(bs);
    var (t, r) := GetText(bs).value;
    if t != Label("PESSIMISTIC") && t != Label("OPTIMISTIC") { U64Exact(r); }
  }

  lemma BarBack(b: Bar, rest: Bytes)
    ensures GetBar(PutBar(b, rest)) == Ok((b, rest))
  {
    var b5 := PutU64(b.baseVolume, rest);
    var b4 := PutI64(b.close, b5);
    var b3 := PutI64(b.low, b4);
    var b2 := PutI64(b.high, b3);
    var b1 := PutI64(b.open, b2);
    U64Back(b.eventSeq, b1);
    I64Back(b.open, b2);
    I64Back(b.high, b3);
    I64Back(b.low, b4);
    I64Back(b.close, b5);
    U64Back(b.baseVolume, rest);
  }

  lemma BarExact(bs: Bytes)
    requires GetBar(bs).Ok?
    ensures bs == PutBar(GetBar(bs).value.0, GetBar(bs).value.1)
  {
    var r1 := GetU64(bs).value.1;
    var r2 := GetI64(r1).value.1;
    var r3 := GetI64(r2).value.1;
    var r4 := GetI64(r3).value.1;
    var r5 := GetI64(r4).value.1;
    U64Exact(bs);
    I64Exact(r1);
    I64Exact(r2);
    I64Exact(r3);
    I64Exact(r4);
    U64Exact(r5);
  }

  lemma BboBack(q: BboQuote, rest: Bytes)
    ensures GetBbo(PutBbo(q, rest)) == Ok((q, rest))
  {
    var b5 := PutU64(q.askSize, rest);
    var b4 := PutI64(q.ask, b5);
    var b3 := PutU64(q.bidSize, b4);
    var b2 := PutI64(q.bid, b3);
    var b1 := PutI64(q.eventTime, b2);
    U64Back(q.eventSeq, b1);
    I64Back(q.eventTime, b2);
    I64Back(q.bid, b3);
    U64Back(q.bidSize, b4);
    I64Back(q.ask, b5);
    U64Back(q.askSize, rest);
  }

  lemma BboExact(bs: Bytes)
    requires GetBbo(bs).Ok?
    ensures bs == PutBbo(GetBbo(bs).value.0, GetBbo(bs).value.1)
  {
    var r1 := GetU64(bs).value.1;
    var r2 := GetI64(r1).value.1;
    var r3 := GetI64(r2).value.1;
    var r4 := GetU64(r3).value.1;
    var r5 := GetI64(r4).value.1;
    U64Exact(bs);
    I64Exact(r1);
    I64Exact(r2);
    U64Exact(r3);
    I64Exact(r4);
    U64Exact(r5);
  }

  lemma TradeBack(t: TradePrint, rest: Bytes)
    ensures GetTrade(PutTrade(t, rest)) == Ok((t, rest))
  {
    var b3 := PutU64(t.quantity, rest);
    var b2 := PutI64(t.price, b3);
    var b1 := PutI64(t.eventTime, b2);
    U64Back(t.eventSeq, b1);
    I64Back(t.eventTime, b2);
    I64Back(t.price, b3);
    U64Back(t.quantity, rest);
  }

  lemma TradeExact(bs: Bytes)
    requires GetTrade(bs).Ok?
    ensures bs == PutTrade(GetTrade(bs).value.0, GetTrade(bs).value.1)
  {
    var r1 := GetU64(bs).value.1;
    var r2 := GetI64(r1).value.1;
    var r3 := GetI64(r2).value.1;
    U64Exact(bs);
    I64Exact(r1);
    I64Exact(r2);
    U64Exact(r3);
  }

  lemma F1ConfigBack(c: F1Config, rest: Bytes)
    ensures GetF1Config(PutF1Config(c, rest)) == Ok((c, rest))
  {
    var b3 := PutOptional(c.maxMakerFill, rest);
    var b2 := PutOptional(c.maxTakerFill, b3);
    var b1 := PutU64(c.maxTradeAge, b2);
    U64Back(c.maxQuoteAge, b1);
    U64Back(c.maxTradeAge, b2);
    OptionalBack(c.maxTakerFill, b3);
    OptionalBack(c.maxMakerFill, rest);
  }

  lemma F1ConfigExact(bs: Bytes)
    requires GetF1Config(bs).Ok?
    ensures bs == PutF1Config(GetF1Config(bs).value.0, GetF1Config(bs).value.1)
  {
    var r1 := GetU64(bs).value.1;
    var r2 := GetU64(r1).value.1;
    var r3 := GetOptional(r2).value.1;
    U64Exact(bs);
    U64Exact(r1);
    OptionalExact(r2);
    OptionalExact(r3);
  }

  lemma {:induction false} LevelItemsBack(ls: seq<DepthLevel>, rest: Bytes)
    ensures GetLevelItems(PutLevelItems(ls, rest), |ls|) == Ok((ls, rest))
    decreases |ls|
  {
    if ls != [] {
      var b2 := PutLevelItems(ls[1..], rest);
      I64Back(ls[0].price, PutU64(ls[0].quantity, b2));
      U64Back(ls[0].quantity, b2);
      LevelItemsBack(ls[1..], rest);
      assert [DepthLevel(ls[0].price, ls[0].quantity)] + ls[1..] == ls;
    }
  }

  lemma {:induction false} LevelItemsExact(bs: Bytes, n: nat)
    requires GetLevelItems(bs, n).Ok?
    ensures var (ls, rest) := GetLevelItems(bs, n).value; |ls| == n && bs == PutLevelItems(ls, rest)
    decreases n
  {
    if n > 0 {
      var r1 := GetI64(bs).value.1;
      var r2 := GetU64(r1).value.1;
      I64Exact(bs);
      U64Exact(r1);
      LevelItemsExact(r2, n - 1);
      var ls := GetLevelItems(bs, n).value.0;
      assert ls[1..] == GetLevelItems(r2, n - 1).value.0;
    }
  }

  lemma LevelsBack(ls: seq<DepthLevel>, rest: Bytes)
    requires |ls| <= MAX_DEPTH_LEVELS
    ensures GetLevels(PutLevels(ls, rest)) == Ok((ls, rest))
  {
    U64Back(|ls|, PutLevelItems(ls, rest));
    LevelItemsBack(ls, rest);
  }

  lemma LevelsExact(bs: Bytes)
    requires GetLevels(bs).Ok?
    ensures var (ls, rest) := GetLevels(bs).value; |ls| <= MAX_DEPTH_LEVELS && bs == PutLevels(ls, rest)
  {
    U64Exact(bs);
    var (n, r) := GetU64(bs).value;
    LevelItemsExact(r, n);
  }

  lemma BookSideExact(bs: Bytes)
    requires GetBookSide(bs).Ok?
    ensures bs == PutText(BookSideLabel(GetBookSide(bs).value.0), GetBookSide(bs).value.1)
  {
    TextExact(bs);
  }

  // ---------------------------------------------------------------------- inputs

  lemma SubmitInputBack(x: FacadeInput)
    requires x.SubmitInput? && InLimits(x)
    ensures GetSubmit(PutInput(x)) == Ok((x, []))
  {
    var b1 := PutQuote(x.quote, []);
    NewOrderBack(x.request, b1);
    QuoteBack(x.quote, []);
  }

  lemma SubmitInputExact(bs: Bytes)
    requires GetSubmit(bs).Ok? && GetSubmit(bs).value.1 == []
    ensures var x := GetSubmit(bs).value.0; x.SubmitInput? && InLimits(x) && bs == PutInput(x)
  {
    var r1 := GetNewOrder(bs).value.1;
    NewOrderExact(bs);
    QuoteExact(r1);
  }

  lemma CancelInputBack(x: FacadeInput)
    requires x.CancelInput? && InLimits(x)
    ensures GetCancel(PutInput(x)) == Ok((x, []))
  {
    U64Back(x.orderId, []);
  }

  lemma CancelInputExact(bs: Bytes)
    requires GetCancel(bs).Ok? && GetCancel(bs).value.1 == []
    ensures var x := GetCancel(bs).value.0; x.CancelInput? && InLimits(x) && bs == PutInput(x)
  {
    U64Exact(bs);
  }

  lemma ReplaceInputBack(x: FacadeInput)
    requires x.ReplaceInput? && InLimits(x)
    ensures GetReplace(PutInput(x)) == Ok((x, []))
  {
    var b3 := PutQuote(x.quote, []);
    var b2 := PutKind(x.replacement.kind, b3);
    var b1 := PutU64(x.replacement.quantity, b2);
    U64Back(x.orderId, b1);
    U64Back(x.replacement.quantity, b2);
    KindBack(x.replacement.kind, b3);
    QuoteBack(x.quote, []);
  }

  lemma ReplaceInputExact(bs: Bytes)
    requires GetReplace(bs).Ok? && GetReplace(bs).value.1 == []
    ensures var x := GetReplace(bs).value.0; x.ReplaceInput? && InLimits(x) && bs == PutInput(x)
  {
    var r1 := GetU64(bs).value.1;
    var r2 := GetU64(r1).value.1;
    var r3 := GetKind(r2).value.1;
    U64Exact(bs);
    U64Exact(r1);
    KindExact(r2);
    QuoteExact(r3);
  }

  lemma F0InputBack(x: FacadeInput)
    requires x.F0Input? && InLimits(x)
    ensures GetF0(PutInput(x)) == Ok((x, []))
  {
    var b3 := PutU64(x.f0.marketSlippage, []);
    var b2 := PutPolicy(x.f0.policy, b3);
    var b1 := PutBar(x.bar, b2);
    U64Back(x.orderId, b1);
    BarBack(x.bar, b2);
    PolicyBack(x.f0.policy, b3);
    U64Back(x.f0.marketSlippage, []);
  }

  lemma F0InputExact(bs: Bytes)
    requires GetF0(bs).Ok? && GetF0(bs).value.1 == []
    ensures var x := GetF0(bs).value.0; x.F0Input? && InLimits(x) && bs == PutInput(x)
  {
    var r1 := GetU64(bs).value.1;
    var r2 := GetBar(r1).value.1;
    var r3 := GetPolicy(r2).value.1;
    U64Exact(bs);
    BarExact(r1);
    PolicyExact(r2);
    U64Exact(r3);
  }

  lemma F1QuoteInputBack(x: FacadeInput)
    requires x.F1QuoteInput? && InLimits(x)
    ensures GetF1Quote(PutInput(x)) == Ok((x, []))
  {
    var b2 := PutF1Config(x.f1, []);
    var b1 := PutBbo(x.bbo, b2);
    U64Back(x.orderId, b1);
    BboBack(x.bbo, b2);
    F1ConfigBack(x.f1, []);
  }

  lemma F1QuoteInputExact(bs: Bytes)
    requires GetF1Quote(bs).Ok? && GetF1Quote(bs).value.1 == []
    ensures var x := GetF1Quote(bs).value.0; x.F1QuoteInput? && InLimits(x) && bs == PutInput(x)
  {
    var r1 := GetU64(bs).value.1;
    var r2 := GetBbo(r1).value.1;
    U64Exact(bs);
    BboExact(r1);
    F1ConfigExact(r2);
  }

  lemma F1TradeInputBack(x: FacadeInput)
    requires x.F1TradeInput? && InLimits(x)
    ensures GetF1Trade(PutInput(x)) == Ok((x, []))
  {
    var b4 := PutF1Config(x.f1, []);
    var b3 := PutU64(x.displayedAhead, b4);
    var b2 := PutU64(x.eligibleAfter, b3);
    var b1 := PutTrade(x.trade, b2);
    U64Back(x.orderId, b1);
    TradeBack(x.trade, b2);
    U64Back(x.eligibleAfter, b3);
    U64Back(x.displayedAhead, b4);
    F1ConfigBack(x.f1, []);
  }

  lemma F1TradeInputExact(bs: Bytes)
    requires GetF1Trade(bs).Ok? && GetF1Trade(bs).value.1 == []
    ensures var x := GetF1Trade(bs).value.0; x.F1TradeInput? && InLimits(x) && bs == PutInput(x)
  {
    var r1 := GetU64(bs).value.1;
    var r2 := GetTrade(r1).value.1;
    var r3 := GetU64(r2).value.1;
    var r4 := GetU64(r3).value.1;
    U64Exact(bs);
    TradeExact(r1);
    U64Exact(r2);
    U64Exact(r3);
    F1ConfigExact(r4);
  }

  lemma SnapshotInputBack(x: FacadeInput)
    requires x.F2SnapshotInput? && InLimits(x)
    ensures GetSnapshot(PutInput(x)) == Ok((x, []))
  {
    var b2 := PutLevels(x.snapshot.asks, []);
    var b1 := PutLevels(x.snapshot.bids, b2);
    U64Back(x.snapshot.sequence, b1);
    LevelsBack(x.snapshot.bids, b2);
    LevelsBack(x.snapshot.asks, []);
  }

  lemma SnapshotInputExact(bs: Bytes)
    requires GetSnapshot(bs).Ok? && GetSnapshot(bs).value.1 == []
    ensures var x := GetSnapshot(bs).value.0; x.F2SnapshotInput? && InLimits(x) && bs == PutInput(x)
  {
    var r1 := GetU64(bs).value.1;
    var r2 := GetLevels(r1).value.1;
    U64Exact(bs);
    LevelsExact(r1);
    LevelsExact(r2);
  }

  lemma DeltaInputBack(x: FacadeInput)
    requires x.F2DeltaInput? && InLimits(x)
    ensures GetDelta(PutInput(x)) == Ok((x, []))
  {
    var b4 := PutU64(x.delta.quantity, []);
    var b3 := PutI64(x.delta.price, b4);
    var b2 := PutText(BookSideLabel(x.delta.side), b3);
    var b1 := PutU64(x.delta.sequence, b2);
    U64Back(x.delta.previousSequence, b1);
    U64Back(x.delta.sequence, b2);
    BookSideBack(x.delta.side, b3);
    I64Back(x.delta.price, b4);
    U64Back(x.delta.quantity, []);
  }

  lemma DeltaInputExact(bs: Bytes)
    requires GetDelta(bs).Ok? && GetDelta(bs).value.1 == []
    ensures var x := GetDelta(bs).value.0; x.F2DeltaInput? && InLimits(x) && bs == PutInput(x)
  {
    var r1 := GetU64(bs).value.1;
    var r2 := GetU64(r1).value.1;
    var r3 := GetBookSide(r2).value.1;
    var r4 := GetI64(r3).value.1;
    U64Exact(bs);
    U64Exact(r1);
    BookSideExact(r2);
    I64Exact(r3);
    U64Exact(r4);
  }

  lemma F2ExecuteInputBack(x: FacadeInput)
    requires x.F2ExecuteInput? && InLimits(x)
    ensures GetF2Execute(PutInput(x)) == Ok((x, []))
  {
    var b2 := PutOptional(x.sweep.maxQuantity, []);
    var b1 := PutU64(x.sweep.maxLevels, b2);
    U64Back(x.orderId, b1);
    U64Back(x.sweep.maxLevels, b2);
    OptionalBack(x.sweep.maxQuantity, []);
  }

  lemma F2ExecuteInputExact(bs: Bytes)
    requires GetF2Execute(bs).Ok? && GetF2Execute(bs).value.1 == []
    ensures var x := GetF2Execute(bs).value.0; x.F2ExecuteInput? && InLimits(x) && bs == PutInput(x)
  {
    var r1 := GetU64(bs).value.1;
    var r2 := GetU64(r1).value.1;
    U64Exact(bs);
    U64Exact(r1);
    OptionalExact(r2);
  }

  lemma LeverageInputBack(x: FacadeInput)
    requires x.LeverageInput? && InLimits(x)
    ensures GetLeverage(PutInput(x)) == Ok((x, []))
  {
    var b2 := PutI64(x.mark, []);
    var b1 := PutI64(x.equity, b2);
    U64Back(x.leverage, b1);
    I64Back(x.equity, b2);
    I64Back(x.mark, []);
  }

  lemma LeverageInputExact(bs: Bytes)
    requires GetLeverage(bs).Ok? && GetLeverage(bs).value.1 == []
    ensures var x := GetLeverage(bs).value.0; x.LeverageInput? && InLimits(x) && bs == PutInput(x)
  {
    var r1 := GetU64(bs).value.1;
    var r2 := GetI64(r1).value.1;
    U64Exact(bs);
    I64Exact(r1);
    I64Exact(r2);
  }

  lemma RiskInputBack(x: FacadeInput)
    requires x.RiskInput? && InLimits(x)
    ensures GetRisk(PutInput(x)) == Ok((x, []))
  {
    var b1 := PutI64(x.mark, []);
    I64Back(x.equity, b1);
    I64Back(x.mark, []);
  }

  lemma RiskInputExact(bs: Bytes)
    requires GetRisk(bs).Ok? && GetRisk(bs).value.1 == []
    ensures var x := GetRisk(bs).value.0; x.RiskInput? && InLimits(x) && bs == PutInput(x)
  {
    var r1 := GetI64(bs).value.1;
    I64Exact(bs);
    I64Exact(r1);
  }

  lemma FundingInputBack(x: FacadeInput)
    requires x.FundingInput? && InLimits(x)
    ensures GetFunding(PutInput(x)) == Ok((x, []))
  {
    var b2 := PutI64(x.cashDelta, []);
    var b1 := PutText(x.id.eventId, b2);
    TextBack(x.id.source, b1);
    TextBack(x.id.eventId, b2);
    I64Back(x.cashDelta, []);
  }

  lemma FundingInputExact(bs: Bytes)
    requires GetFunding(bs).Ok? && GetFunding(bs).value.1 == []
    ensures var x := GetFunding(bs).value.0; x.FundingInput? && InLimits(x) && bs == PutInput(x)
  {
    var r1 := GetText(bs).value.1;
    var r2 := GetText(r1).value.1;
    TextExact(bs);
    TextExact(r1);
    I64Exact(r2);
  }

  /** The twelve kind labels are pairwise different. */
  lemma KindsDiffer()
    ensures Label("ORDER_SUBMIT_V1") != Label("ORDER_CANCEL_V1")
    ensures Label("ORDER_SUBMIT_V1") != Label("ECON_FUNDING_V1")
    ensures Label("ORDER_CANCEL_V1") != Label("ECON_FUNDING_V1")
    ensures Label("ORDER_REPLACE_V1") != Label("RISK_EVALUATE_V1")
    ensures Label("EXECUTE_F1_QUOTE_V1") != Label("EXECUTE_F1_TRADE_V1")
  {
    LabelsDiffer("ORDER_SUBMIT_V1", "ORDER_CANCEL_V1", 6);
    LabelsDiffer("ORDER_SUBMIT_V1", "ECON_FUNDING_V1", 0);
    LabelsDiffer("ORDER_CANCEL_V1", "ECON_FUNDING_V1", 0);
    LabelsDiffer("ORDER_REPLACE_V1", "RISK_EVALUATE_V1", 0);
    LabelsDiffer("EXECUTE_F1_QUOTE_V1", "EXECUTE_F1_TRADE_V1", 11);
  }

  /** The reader that an input's own kind selects. */
  ghost function ReaderFor(x: FacadeInput, bs: Bytes): Parse<FacadeInput> {
    match x
    case SubmitInput(_, _) => GetSubmit(bs)
    case CancelInput(_) => GetCancel(bs)
    case ReplaceInput(_, _, _) => GetReplace(bs)
    case F0Input(_, _, _) => GetF0(bs)
    case F1QuoteInput(_, _, _) => GetF1Quote(bs)
    case F1TradeInput(_, _, _, _, _) => GetF1Trade(bs)
    case F2SnapshotInput(_) => GetSnapshot(bs)
    case F2DeltaInput(_) => GetDelta(bs)
    case F2ExecuteInput(_, _) => GetF2Execute(bs)
    case LeverageInput(_, _, _) => GetLeverage(bs)
    case RiskInput(_, _) => GetRisk(bs)
    case FundingInput(_, _) => GetFunding(bs)
  }

  lemma KindSelectsReader(x: FacadeInput, bs: Bytes)
    ensures GetInput(KindOf(x), bs) == ReaderFor(x, bs)
  {
    hide Label, GetSubmit, GetCancel, GetReplace, GetF0, GetF1Quote, GetF1Trade, GetSnapshot, GetDelta, GetF2Execute, GetLeverage, GetRisk, GetFunding;
    KindsDiffer();
  }

  lemma InputBack(x: FacadeInput)
    requires InLimits(x)
    ensures GetInput(KindOf(x), PutInput(x)) == Ok((x, []))
  {
    hide GetSubmit, GetCancel, GetReplace, GetF0, GetF1Quote, GetF1Trade, GetSnapshot, GetDelta, GetF2Execute, GetLeverage, GetRisk, GetFunding, PutInput, GetInput, InLimits;
    KindSelectsReader(x, PutInput(x));
    assert ReaderFor(x, PutInput(x)) == Ok((x, [])) by {
      match x {
        case SubmitInput(_, _) => SubmitInputBack(x);
        case CancelInput(_) => CancelInputBack(x);
        case ReplaceInput(_, _, _) => ReplaceInputBack(x);
        case F0Input(_, _, _) => F0InputBack(x);
        case F1QuoteInput(_, _, _) => F1QuoteInputBack(x);
        case F1TradeInput(_, _, _, _, _) => F1TradeInputBack(x);
        case F2SnapshotInput(_) => SnapshotInputBack(x);
        case F2DeltaInput(_) => DeltaInputBack(x);
        case F2ExecuteInput(_, _) => F2ExecuteInputBack(x);
        case LeverageInput(_, _, _) => LeverageInputBack(x);
        case RiskInput(_, _) => RiskInputBack(x);
        case FundingInput(_, _) => FundingInputBack(x);
      }
    }
  }

  lemma InputExact(kind: Text, bs: Bytes)
    requires GetInput(kind, bs).Ok? && GetInput(kind, bs).value.1 == []
    ensures var x := GetInput(kind, bs).value.0; InLimits(x) && kind == KindOf(x) && bs == PutInput(x)
  {
    if kind == Label("ORDER_SUBMIT_V1") {
      SubmitInputExact(bs);
    } else if kind == Label("ORDER_CANCEL_V1") {
      CancelInputExact(bs);
    } else if kind == Label("ORDER_REPLACE_V1") {
      ReplaceInputExact(bs);
    } else if kind == Label("EXECUTE_F0_BAR_V1") {
      F0InputExact(bs);
    } else if kind == Label("EXECUTE_F1_QUOTE_V1") {
      F1QuoteInputExact(bs);
    } else if kind == Label("EXECUTE_F1_TRADE_V1") {
      F1TradeInputExact(bs);
    } else if kind == Label("F2_SNAPSHOT_V1") {
      SnapshotInputExact(bs);
    } else if kind == Label("F2_DELTA_V1") {
      DeltaInputExact(bs);
    } else if kind == Label("EXECUTE_F2_V1") {
      F2ExecuteInputExact(bs);
    } else if kind == Label("RISK_SET_LEVERAGE_V1") {
      LeverageInputExact(bs);
    } else if kind == Label("RISK_EVALUATE_V1") {
      RiskInputExact(bs);
    } else {
      FundingInputExact(bs);
    }
  }

  /** Every in-limit input survives encoding and decoding. */
  lemma DecodeInvertsEncode(x: FacadeInput)
    requires InLimits(x)
    ensures Decode(KindOf(x), Encode(x)) == Ok(x)
  {
    InputBack(x);
    assert Encode(x)[|PAYLOAD_TAG|..] == PutInput(x);
  }

  /** The decoder accepts exactly the encodings: one byte string per input, under its own kind. */
  lemma DecodeAcceptsOnlyEncodings(kind: Text, bs: Bytes)
    requires Decode(kind, bs).Ok?
    ensures var x := Decode(kind, bs).value; InLimits(x) && kind == KindOf(x) && bs == Encode(x)
  {
    InputExact(kind, bs[|PAYLOAD_TAG|..]);
    assert bs == PAYLOAD_TAG + bs[|PAYLOAD_TAG|..];
  }
}
