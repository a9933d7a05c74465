/** The facade payload codec: a bijection between in-limit inputs and the bytes it accepts. */
module Codec {
  import opened Common
  import opened Numeric
  import opened Bytes
  import opened Canonical
  import opened Orders
  import opened FacadeTypes

  const MAX_TEXT_BYTES := 4096
  const MAX_DEPTH_LEVELS := 100_000

  /** "TRL-FACADE-PAYLOAD-v1" and a zero byte. */
  const PAYLOAD_TAG: Bytes := Label("TRL-FACADE-PAYLOAD-v1") + [0]

  function KindOf(x: FacadeInput): Text {
    match x
    case SubmitInput(_, _) => Label("ORDER_SUBMIT_V1")
    case CancelInput(_) => Label("ORDER_CANCEL_V1")
    case ReplaceInput(_, _, _) => Label("ORDER_REPLACE_V1")
    case F0Input(_, _, _) => Label("EXECUTE_F0_BAR_V1")
    case F1QuoteInput(_, _, _) => Label("EXECUTE_F1_QUOTE_V1")
    case F1TradeInput(_, _, _, _, _) => Label("EXECUTE_F1_TRADE_V1")
    case F2SnapshotInput(_) => Label("F2_SNAPSHOT_V1")
    case F2DeltaInput(_) => Label("F2_DELTA_V1")
    case F2ExecuteInput(_, _) => Label("EXECUTE_F2_V1")
    case LeverageInput(_, _, _) => Label("RISK_SET_LEVERAGE_V1")
    case RiskInput(_, _) => Label("RISK_EVALUATE_V1")
    case FundingInput(_, _) => Label("ECON_FUNDING_V1")
  }

  // ------------------------------------------------------------------ limits

  predicate TextFits(t: Text) { |t| <= MAX_TEXT_BYTES && ValidUtf8(t) }

  predicate QuoteFits(q: Option<TopOfBook>) {
    q.Some? ==> MakeTopOfBook(q.value.bid, q.value.ask).Ok?
  }

  /** What the reader is prepared to accept back. */
  predicate InLimits(x: FacadeInput) {
    match x
    case SubmitInput(r, q) => TextFits(r.clientOrderId) && TextFits(r.instrumentId) && QuoteFits(q)
    case ReplaceInput(_, _, q) => QuoteFits(q)
    case F2SnapshotInput(s) => |s.bids| <= MAX_DEPTH_LEVELS && |s.asks| <= MAX_DEPTH_LEVELS
    case LeverageInput(l, _, _) => 0 <= l <= 255
    case FundingInput(id, _) => TextFits(id.source) && TextFits(id.eventId) && id.source != [] && id.eventId != []
    case _ => true
  }

  // ------------------------------------------------------------------- writing

  function PutText(t: Text, rest: Bytes): Bytes
    requires |t| <= U64_MAX
  {
    PutBytes(t, rest)
  }

  function SideLabel(s: Side): Text { if s.Buy? then Label("BUY") else Label("SELL") }

  function TifLabel(t: TimeInForce): Text {
    match t case Gtc => Label("GTC") case Ioc => Label("IOC") case Fok => Label("FOK")
  }

  function BookSideLabel(s: BookSide): Text { if s.BidSide? then Label("BID") else Label("ASK") }

  function PutOptional(q: Option<u64>, rest: Bytes): Bytes {
    PutBool(q.Some?, if q.Some? then PutU64(q.value, rest) else rest)
  }

  function PutQuote(q: Option<TopOfBook>, rest: Bytes): Bytes {
    PutBool(q.Some?, if q.Some? then PutI64(q.value.bid, PutI64(q.value.ask, rest)) else rest)
  }

  function PutKind(k: OrderKind, rest: Bytes): Bytes {
    match k
    case Market => PutText(Label("MARKET"), rest)
    case Limit(l) => PutText(Label("LIMIT"), PutI64(l, rest))
    case StopMarket(s) => PutText(Label("STOP_MARKET"), PutI64(s, rest))
    case StopLimit(s, l) => PutText(Label("STOP_LIMIT"), PutI64(s, PutI64(l, rest)))
  }

  function PutNewOrder(r: NewOrder, rest: Bytes): Bytes
    requires TextFits(r.clientOrderId) && TextFits(r.instrumentId)
  {
    PutText(r.clientOrderId, PutText(r.instrumentId, PutText(SideLabel(r.side), PutU64(r.quantity,
      PutKind(r.kind, PutText(TifLabel(r.timeInForce), PutBool(r.reduceOnly, PutBool(r.postOnly,
        PutBool(r.marketableOnly, PutU64(r.submittedAt, rest))))))))))
  }

  function PutBar(b: Bar, rest: Bytes): Bytes {
    PutU64(b.eventSeq, PutI64(b.open, PutI64(b.high, PutI64(b.low, PutI64(b.close, PutU64(b.baseVolume, rest))))))
  }

  function PutPolicy(p: IntrabarPolicy, rest: Bytes): Bytes {
    match p
    case Pessimistic => PutText(Label("PESSIMISTIC"), rest)
    case Optimistic => PutText(Label("OPTIMISTIC"), rest)
    case Seeded(seed) => PutText(Label("SEEDED"), PutU64(seed, rest))
  }

  function PutBbo(q: BboQuote, rest: Bytes): Bytes {
    PutU64(q.eventSeq, PutI64(q.eventTime, PutI64(q.bid, PutU64(q.bidSize, PutI64(q.ask, PutU64(q.askSize, rest))))))
  }

  function PutTrade(t: TradePrint, rest: Bytes): Bytes {
    PutU64(t.eventSeq, PutI64(t.eventTime, PutI64(t.price, PutU64(t.quantity, rest))))
  }

  function PutF1Config(c: F1Config, rest: Bytes): Bytes {
    PutU64(c.maxQuoteAge, PutU64(c.maxTradeAge, PutOptional(c.maxTakerFill, PutOptional(c.maxMakerFill, rest))))
  }

  function PutLevelItems(ls: seq<DepthLevel>, rest: Bytes): Bytes {
    if ls == [] then rest else PutI64(ls[0].price, PutU64(ls[0].quantity, PutLevelItems(ls[1..], rest)))
  }

  function PutLevels(ls: seq<DepthLevel>, rest: Bytes): Bytes
    requires |ls| <= MAX_DEPTH_LEVELS
  {
    PutU64(|ls|, PutLevelItems(ls, rest))
  }

  function PutInput(x: FacadeInput): Bytes
    requires InLimits(x)
  {
    match x
    case SubmitInput(r, q) => PutNewOrder(r, PutQuote(q, []))
    case CancelInput(id) => PutU64(id, [])
    case ReplaceInput(id, r, q) => PutU64(id, PutU64(r.quantity, PutKind(r.kind, PutQuote(q, []))))
    case F0Input(id, b, c) => PutU64(id, PutBar(b, PutPolicy(c.policy, PutU64(c.marketSlippage, []))))
    case F1QuoteInput(id, q, c) => PutU64(id, PutBbo(q, PutF1Config(c, [])))
    case F1TradeInput(id, t, e, d, c) => PutU64(id, PutTrade(t, PutU64(e, PutU64(d, PutF1Config(c, [])))))
    case F2SnapshotInput(s) => PutU64(s.sequence, PutLevels(s.bids, PutLevels(s.asks, [])))
    case F2DeltaInput(d) =>
      PutU64(d.previousSequence, PutU64(d.sequence, PutText(BookSideLabel(d.side), PutI64(d.price, PutU64(d.quantity, [])))))
    case F2ExecuteInput(id, c) => PutU64(id, PutU64(c.maxLevels, PutOptional(c.maxQuantity, [])))
    case LeverageInput(l, e, m) => PutU64(l, PutI64(e, PutI64(m, [])))
    case RiskInput(e, m) => PutI64(e, PutI64(m, []))
    case FundingInput(id, c) => PutText(id.source, PutText(id.eventId, PutI64(c, [])))
  }

  function Encode(x: FacadeInput): Bytes
    requires InLimits(x)
  {
    PAYLOAD_TAG + PutInput(x)
  }

  // ------------------------------------------------------------------- reading

  type Parse<T> = Result<(T, Bytes), ErrorCode>

  function GetU64(bs: Bytes): Parse<u64> {
    if |bs| < 8 then Err(InvalidPayload) else Ok((FromU64Bytes(bs[..8]), bs[8..]))
  }

  function GetI64(bs: Bytes): Parse<i64> {
    if |bs| < 8 then Err(InvalidPayload) else Ok((FromI64Bytes(bs[..8]), bs[8..]))
  }

  function GetBool(bs: Bytes): Parse<bool> {
    var (v, r) :- GetU64(bs);
    if v > 1 then Err(InvalidPayload) else Ok((v == 1, r))
  }

  function GetText(bs: Bytes): Parse<Text> {
    var (n, r) :- GetU64(bs);
    if n > MAX_TEXT_BYTES || n > |r| || !ValidUtf8(r[..n]) then Err(InvalidPayload) else Ok((r[..n], r[n..]))
  }

  function GetSide(bs: Bytes): Parse<Side> {
    var (t, r) :- GetText(bs);
    if t == Label("BUY") then Ok((Buy, r)) else if t == Label("SELL") then Ok((Sell, r)) else Err(InvalidPayload)
  }

  function GetTif(bs: Bytes): Parse<TimeInForce> {
    var (t, r) :- GetText(bs);
    if t == Label("GTC") then Ok((Gtc, r)) else if t == Label("IOC") then Ok((Ioc, r))
    else if t == Label("FOK") then Ok((Fok, r)) else Err(InvalidPayload)
  }

  function GetBookSide(bs: Bytes): Parse<BookSide> {
    var (t, r) :- GetText(bs);
    if t == Label("BID") then Ok((BidSide, r)) else if t == Label("ASK") then Ok((AskSide, r)) else Err(InvalidPayload)
  }

  function GetOptional(bs: Bytes): Parse<Option<u64>> {
    var (present, r) :- GetBool(bs);
    if !present then Ok((None, r))
    else
      var (v, r2) :- GetU64(r);
      Ok((Some(v), r2))
  }

  function GetQuote(bs: Bytes): Parse<Option<TopOfBook>> {
    var (present, r) :- GetBool(bs);
    if !present then Ok((None, r))
    else
      var (bid, r2) :- GetI64(r);
      var (ask, r3) :- GetI64(r2);
      var top := MakeTopOfBook(bid, ask);
      if top.Err? then Err(InvalidPayload) else Ok((Some(top.value), r3))
  }

  function GetKind(bs: Bytes): Parse<OrderKind> {
    var (t, r) :- GetText(bs);
    if t == Label("MARKET") then Ok((Market, r))
    else if t == Label("LIMIT") then
      var (l, r2) :- GetI64(r);
      Ok((Limit(l), r2))
    else if t == Label("STOP_MARKET") then
      var (s, r2) :- GetI64(r);
      Ok((StopMarket(s), r2))
    else if t == Label("STOP_LIMIT") then
      var (s, r2) :- GetI64(r);
      var (l, r3) :- GetI64(r2);
      Ok((StopLimit(s, l), r3))
    else Err(InvalidPayload)
  }

  function GetNewOrder(bs: Bytes): Parse<NewOrder> {
    var (client, r1) :- GetText(bs);
    var (instrument, r2) :- GetText(r1);
    var (side, r3) :- GetSide(r2);
    var (quantity, r4) :- GetU64(r3);
    var (kind, r5) :- GetKind(r4);
    var (tif, r6) :- GetTif(r5);
    var (reduceOnly, r7) :- GetBool(r6);
    var (postOnly, r8) :- GetBool(r7);
    var (marketableOnly, r9) :- GetBool(r8);
    var (submitted, r10) :- GetU64(r9);
    Ok((NewOrder(client, instrument, side, quantity, kind, tif, reduceOnly, postOnly, marketableOnly, submitted), r10))
  }

  function GetBar(bs: Bytes): Parse<Bar> {
    var (s, r1) :- GetU64(bs);
    var (o, r2) :- GetI64(r1);
    var (h, r3) :- GetI64(r2);
    var (l, r4) :- GetI64(r3);
    var (c, r5) :- GetI64(r4);
    var (v, r6) :- GetU64(r5);
    Ok((Bar(s, o, h, l, c, v), r6))
  }

  function GetPolicy(bs: Bytes): Parse<IntrabarPolicy> {
    var (t, r) :- GetText(bs);
    if t == Label("PESSIMISTIC") then Ok((Pessimistic, r))
    else if t == Label("OPTIMISTIC") then Ok((Optimistic, r))
    else if t == Label("SEEDED") then
      var (seed, r2) :- GetU64(r);
      Ok((Seeded(seed), r2))
    else Err(InvalidPayload)
  }

  function GetBbo(bs: Bytes): Parse<BboQuote> {
    var (s, r1) :- GetU64(bs);
    var (t, r2) :- GetI64(r1);
    var (b, r3) :- GetI64(r2);
    var (bn, r4) :- GetU64(r3);
    var (a, r5) :- GetI64(r4);
    var (an, r6) :- GetU64(r5);
    Ok((BboQuote(s, t, b, bn, a, an), r6))
  }

  function GetTrade(bs: Bytes): Parse<TradePrint> {
    var (s, r1) :- GetU64(bs);
    var (t, r2) :- GetI64(r1);
    var (p, r3) :- GetI64(r2);
    var (q, r4) :- GetU64(r3);
    Ok((TradePrint(s, t, p, q), r4))
  }

  function GetF1Config(bs: Bytes): Parse<F1Config> {
    var (q, r1) :- GetU64(bs);
    var (t, r2) :- GetU64(r1);
    var (taker, r3) :- GetOptional(r2);
    var (maker, r4) :- GetOptional(r3);
    Ok((F1Config(q, t, taker, maker), r4))
  }

  function GetLevelItems(bs: Bytes, n: nat): Parse<seq<DepthLevel>>
    decreases n
  {
    if n == 0 then Ok(([], bs))
    else
      var (p, r1) :- GetI64(bs);
      var (q, r2) :- GetU64(r1);
      var (ls, r3) :- GetLevelItems(r2, n - 1);
      Ok(([DepthLevel(p, q)] + ls, r3))
  }

  function GetLevels(bs: Bytes): Parse<seq<DepthLevel>> {
    var (n, r) :- GetU64(bs);
    if n > MAX_DEPTH_LEVELS then Err(InvalidPayload) else GetLevelItems(r, n)
  }

  function GetSubmit(bs: Bytes): Parse<FacadeInput> {
    var (o, r1) :- GetNewOrder(bs);
    var (q, r2) :- GetQuote(r1);
    Ok((SubmitInput(o, q), r2))
  }

  function GetCancel(bs: Bytes): Parse<FacadeInput> {
    var (id, r1) :- GetU64(bs);
    Ok((CancelInput(id), r1))
  }

  function GetReplace(bs: Bytes): Parse<FacadeInput> {
    var (id, r1) :- GetU64(bs);
    var (n, r2) :- GetU64(r1);
    var (k, r3) :- GetKind(r2);
    var (q, r4) :- GetQuote(r3);
    Ok((ReplaceInput(id, ReplaceOrder(n, k), q), r4))
  }

  function GetF0(bs: Bytes): Parse<FacadeInput> {
    var (id, r1) :- GetU64(bs);
    var (b, r2) :- GetBar(r1);
    var (p, r3) :- GetPolicy(r2);
    var (s, r4) :- GetU64(r3);
    Ok((F0Input(id, b, F0Config(p, s)), r4))
  }

  function GetF1Quote(bs: Bytes): Parse<FacadeInput> {
    var (id, r1) :- GetU64(bs);
    var (q, r2) :- GetBbo(r1);
    var (c, r3) :- GetF1Config(r2);
    Ok((F1QuoteInput(id, q, c), r3))
  }

  function GetF1Trade(bs: Bytes): Parse<FacadeInput> {
    var (id, r1) :- GetU64(bs);
    var (t, r2) :- GetTrade(r1);
    var (e, r3) :- GetU64(r2);
    var (d, r4) :- GetU64(r3);
    var (c, r5) :- GetF1Config(r4);
    Ok((F1TradeInput(id, t, e, d, c), r5))
  }

  function GetSnapshot(bs: Bytes): Parse<FacadeInput> {
    var (s, r1) :- GetU64(bs);
    var (b, r2) :- GetLevels(r1);
    var (a, r3) :- GetLevels(r2);
    Ok((F2SnapshotInput(L2Snapshot(s, b, a)), r3))
  }

  function GetDelta(bs: Bytes): Parse<FacadeInput> {
    var (p, r1) :- GetU64(bs);
    var (s, r2) :- GetU64(r1);
    var (side, r3) :- GetBookSide(r2);
    var (price, r4) :- GetI64(r3);
    var (q, r5) :- GetU64(r4);
    Ok((F2DeltaInput(L2Delta(p, s, side, price, q)), r5))
  }

  function GetF2Execute(bs: Bytes): Parse<FacadeInput> {
    var (id, r1) :- GetU64(bs);
    var (n, r2) :- GetU64(r1);
    var (q, r3) :- GetOptional(r2);
    Ok((F2ExecuteInput(id, SweepConfig(n, q)), r3))
  }

  function GetLeverage(bs: Bytes): Parse<FacadeInput> {
    var (l, r1) :- GetU64(bs);
    if l > 255 then Err(InvalidPayload)
    else
      var (e, r2) :- GetI64(r1);
      var (m, r3) :- GetI64(r2);
      Ok((LeverageInput(l, e, m), r3))
  }

  function GetRisk(bs: Bytes): Parse<FacadeInput> {
    var (e, r1) :- GetI64(bs);
    var (m, r2) :- GetI64(r1);
    Ok((RiskInput(e, m), r2))
  }

  function GetFunding(bs: Bytes): Parse<FacadeInput> {
    var (source, r1) :- GetText(bs);
    var (event, r2) :- GetText(r1);
    if source == [] || event == [] then Err(EconomicsTransition)
    else
      var (c, r3) :- GetI64(r2);
      Ok((FundingInput(ScheduledId(source, event), c), r3))
  }

  function GetInput(kind: Text, bs: Bytes): Parse<FacadeInput> {
    if kind == Label("ORDER_SUBMIT_V1") then GetSubmit(bs)
    else if kind == Label("ORDER_CANCEL_V1") then GetCancel(bs)
    else if kind == Label("ORDER_REPLACE_V1") then GetReplace(bs)
    else if kind == Label("EXECUTE_F0_BAR_V1") then GetF0(bs)
    else if kind == Label("EXECUTE_F1_QUOTE_V1") then GetF1Quote(bs)
    else if kind == Label("EXECUTE_F1_TRADE_V1") then GetF1Trade(bs)
    else if kind == Label("F2_SNAPSHOT_V1") then GetSnapshot(bs)
    else if kind == Label("F2_DELTA_V1") then GetDelta(bs)
    else if kind == Label("EXECUTE_F2_V1") then GetF2Execute(bs)
    else if kind == Label("RISK_SET_LEVERAGE_V1") then GetLeverage(bs)
    else if kind == Label("RISK_EVALUATE_V1") then GetRisk(bs)
    else if kind == Label("ECON_FUNDING_V1") then GetFunding(bs)
    else Err(UnsupportedInputKind)
  }

  function Decode(kind: Text, bs: Bytes): Result<FacadeInput, ErrorCode> {
    if !(PAYLOAD_TAG <= bs) then Err(InvalidPayload)
    else
      var (x, r) :- GetInput(kind, bs[|PAYLOAD_TAG|..]);
      if r != [] then Err(InvalidPayload) else Ok(x)
  }
}
