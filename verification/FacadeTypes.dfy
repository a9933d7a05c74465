/** Inputs, market data and error codes of the simulator facade. */
module FacadeTypes {
  import opened Common
  import opened Numeric
  import opened Bytes
  import opened Orders

  datatype Bar = Bar(eventSeq: u64, open: i64, high: i64, low: i64, close: i64, baseVolume: u64)
  datatype IntrabarPolicy = Pessimistic | Optimistic | Seeded(seed: u64)
  datatype F0Config = F0Config(policy: IntrabarPolicy, marketSlippage: u64)

  datatype BboQuote = BboQuote(eventSeq: u64, eventTime: i64, bid: i64, bidSize: u64, ask: i64, askSize: u64)
  datatype TradePrint = TradePrint(eventSeq: u64, eventTime: i64, price: i64, quantity: u64)
  datatype F1Config = F1Config(
    maxQuoteAge: u64, maxTradeAge: u64, maxTakerFill: Option<u64>, maxMakerFill: Option<u64>)

  datatype DepthLevel = DepthLevel(price: i64, quantity: u64)
  datatype BookSide = BidSide | AskSide
  datatype L2Snapshot = L2Snapshot(sequence: u64, bids: seq<DepthLevel>, asks: seq<DepthLevel>)
  datatype L2Delta = L2Delta(previousSequence: u64, sequence: u64, side: BookSide, price: i64, quantity: u64)
  datatype SweepConfig = SweepConfig(maxLevels: u64, maxQuantity: Option<u64>)

  /** Source and upstream identity of a scheduled cash flow; both non-empty. */
  datatype ScheduledId = ScheduledId(source: Text, eventId: Text)

  datatype FacadeInput =
    | SubmitInput(request: NewOrder, quote: Option<TopOfBook>)
    | CancelInput(orderId: u64)
    | ReplaceInput(orderId: u64, replacement: ReplaceOrder, quote: Option<TopOfBook>)
    | F0Input(orderId: u64, bar: Bar, f0: F0Config)
    | F1QuoteInput(orderId: u64, bbo: BboQuote, f1: F1Config)
    | F1TradeInput(orderId: u64, trade: TradePrint, eligibleAfter: u64, displayedAhead: u64, f1: F1Config)
    | F2SnapshotInput(snapshot: L2Snapshot)
    | F2DeltaInput(delta: L2Delta)
    | F2ExecuteInput(orderId: u64, sweep: SweepConfig)
    | LeverageInput(leverage: int, equity: i64, mark: i64)
    | RiskInput(equity: i64, mark: i64)
    | FundingInput(id: ScheduledId, cashDelta: i64)

  datatype ErrorCode =
    | UnsupportedApiVersion | UnsupportedSnapshotVersion | InvalidConfiguration | SessionMismatch
    | LogicalTimeRegression | UnsupportedInputKind | InvalidPayload | UnsupportedExecutionTier
    | ExecutionTierMismatch | UnsupportedOrderCombination | InstrumentMismatch
    | MarketSequenceRegression | UnknownOrderCode | KernelTransition | OrderTransition
    | PositionAccounting | LedgerTransition | EconomicsTransition | RiskTransition
    | F0Execution | F1Execution | F2Execution | InvalidSnapshot | CounterOverflowCode
}
