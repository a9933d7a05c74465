# Verified model of the trading replay system

A Dafny 4.11 model of the deterministic trading simulator and of the event-sourced session layer around it, with
proofs of what the system is for. `dafny verify dfyconfig.toml` checks the whole project.

| part of the system | modules |
|---|---|
| practice engine (Go) | Practice, PracticeSession, PracticeLookahead, PracticeInvariants, PracticeMargin, PracticeDrawdown, PracticeIntents |
| simulator core (Rust): numbers, orders, positions, risk, ledger, economics, F0 and F1 execution | Numeric, Orders, OrderInvariants, OrderHistory, Positions, PositionValue, Risk, Ledger, Economics, Execution |
| simulator facade (Rust) | FacadeTypes, Facade, FacadeObject, FacadeAccounting, FacadeExposure, FacadeRestore, FacadeWitnesses |
| input codec, canonical encoding, kernel hash chain (Rust) | Canonical, Codec, CodecProofs, CodecReader, Kernel |
| proof bundle: independent verifier (Rust) and builder (Python) | Sorting, WireText, Bundle, BundleText, BundleVerifier, BundleBinding, ProofBuilder |
| sessions and accepted commands (Python) | Sessions, SessionInvariants, SessionHistory, SessionService |
| replay coordinator and checkpoints (Python) | Replay, ReplayProtocol, ReplayRecovery, ReplayService, ReplayWitnesses |
| coverage catalog (Python) | Intervals, Catalog, SessionEligibility |
| trade-to-bar aggregation (Python) | Aggregate, AggregateReconcile |

Each component has value-level functions that say what an operation does, an object or a loop method in the form of
the source that is proved to do exactly that, and lemmas about the functions that state what the component promises.

The main results:

- **Practice engine.** No lookahead (`NoLookahead`); the books of every reachable session (`EverySessionKeeps`); an
  order never liquidates the account that places it (`PlayerOrderNeverLiquidates`) unless prices are low
  (`FloorIsNeeded`, `CheapPathCounterexample`); exactly what a close-out adds to the reported drawdown
  (`CloseOutExactly`); close flattens and reverse flips (`CloseFlattens`, `ReverseFlips`).
- **Facade.** Every reachable account adds up (`EveryFacadeIsAccounted`); failed inputs change nothing; a restored
  snapshot is indistinguishable from the original (`RestoredIsBisimilar`), and exactly when a restore succeeds
  (`RestoreSucceedsExactly`); exactly when reduce-only orders stay within a moving position (`RunKeepsCover`,
  `ReduceOnlyIsSafe`).
- **Margin.** Reservation is sound for every partial fill (`ReservationIsSound`); the pre-trade check grants exactly
  the largest affordable quantity (`PrecheckFill`).
- **Positions and orders.** Value is conserved up to an exactly bounded drift (`ValueIsConserved`, `DriftIsBounded`);
  reduce-only orders never overcommit at a fixed position (`ReduceOnlyNeverOvercommits`); orders only ever move
  forward (`RunGrows`).
- **Codec.** Encoding and decoding are inverse bijections (`DecodeInvertsEncode`, `DecodeAcceptsOnlyEncodings`).
- **Proof bundle.** Every proof the builder produces is accepted (`BuildProof`, `BuiltIsAccepted`); the result hash
  binds everything but manifest order and posting order, in both directions (`ResultHashBinds`, `ResultTextBinds`).
- **Sessions.** Each version is consumed exactly once (`EveryVersionConsumedOnce`); history is append-only
  (`RunExtends`); retries are free for ever (`RetryConsumesNothing`).
- **Replay.** Under any interleaving and any crash every checkpoint is the fold of the inputs up to its version's time
  (`EveryCheckpointIsTheFold`), for every batch size (`RunUntil`); exactly when an undisturbed visit reaches its
  target (`RecoveryWorksExactly`), and when a checkpoint is called corrupt (`CorruptExactly`).
- **Catalog and bars.** Eligibility is exactly range, gaps, policy and revocation (`EligibleExactly`,
  `WindowsExactly`), and committed sessions are covered (`CommittedIsCovered`); bars of different intervals reconcile (`FineBarsMergeToCoarse`, `CandlesAreBuckets`).

Conventions:

- Text is its UTF-8 bytes. Python compares strings by code point and Rust by byte; on well-formed UTF-8 these are the
  same order, so both sides use one bytewise order.
- The hash is a parameter. Binding results assume it has no collision, and no zero value, on the finitely many
  messages that the two bundles themselves hash; nothing is assumed of it elsewhere except where a lemma says so.
- Rust's checked arithmetic becomes success or error at 64 and 128 bits; Go's and Python's integers are unbounded.
- Values that exist in memory have lengths that fit 64 bits; the types `Blob`, `List` and `InputEnvelope` say so.
- One database transaction is one atomic step. The simulator and the source behind the replay coordinator are
  parameters: a transition function and a list of inputs served in pages.

Where the code and its own description differ, the model follows the code:

- The facade caps reduce-only quantity when an order is submitted or replaced, not when it fills, so a reduce-only
  fill can grow or flip a position that moved meanwhile (`ReduceOnlyCanFlip`). It cannot while no ordinary fill takes
  more of the position than the live reduce-only orders leave (`RunKeepsCover`, `ReduceOnlyIsSafe`), and one fill is
  harmless exactly under `FillReducesExactly`. The practice engine caps at the fill (`ReduceOnlyNeverOpens`).
- Ledger restoration adds balances in account order with 64-bit checks, so a balanced but extreme ledger is refused
  (`RestoreLedger` and `RestoreSucceedsExactly` give the exact condition, `ReachableSnapshotIsRefused` a run).
- The practice engine updates the maximum drawdown before the liquidation fill, so after a liquidation the real
  drawdown can exceed the reported one (`DrawdownIsUnderstated`); `CloseOutExactly` says when.
- A player order can liquidate its own account when the mark is low (`CheapPathCounterexample` from commands at 508,
  `FloorIsNeeded` from a state of the invariant at 399,997); from 400,000 on it cannot. The built-in path stays above
  6,300,000.
- A checkpoint of a simulator that has consumed nothing is refused by a database constraint
  (apps/api/src/trading_replay_api/db/schema.py, line 84), although the coordinator tries to save it. A session whose
  frontier precedes every input is therefore never advanced, on any retry (`UnfedSessionIsStuck`);
  `RecoveryWorksExactly` gives the exact condition.
- The coordinator calls a checkpoint ahead of the session corrupt; when another coordinator advances between its read
  of the session and its read of the checkpoint, sound data gets that verdict (`OvertakenCallsItCorrupt`,
  `SpuriousCorruption`). Without another writer it never does (`CorruptExactly`).

## Model

The table lists 142 results first; the 78 rows marked "refines:" at its end say that an object or loop in the form of the source does exactly what the value-level functions of the results say.

| member | source | states |
|---|---|---|
| `PracticeLookahead.StepIgnoresFuture` | internal/practice/model.go:190-343 | one command gives the same new state and the same answer on any two paths that agree up to where the cursor ends |
| `PracticeLookahead.NoLookahead` | internal/practice/model.go:190-343 | two sessions whose paths agree through index k give identical snapshots and errors for every command sequence that keeps the cursor at or below k |
| `PracticeInvariants.FillIsRecorded` | internal/practice/model.go:461-519 | after a fill, position and fees moved by exactly what the order records, the order is closed and consistent, and a basis exists exactly when the position is not flat |
| `PracticeInvariants.ReduceOnlyNeverOpens` | internal/practice/model.go:461-477 | a reduce-only fill never increases the position and never flips its sign |
| `PracticeInvariants.LiquidateIsFlat` | internal/practice/model.go:578-600 | liquidation ends flat |
| `PracticeInvariants.StepKeeps` | internal/practice/model.go:243-343 | every command keeps the session invariant |
| `PracticeInvariants.EverySessionKeeps` | internal/practice/model.go:175-343 | in every reachable session: filled plus remaining is the quantity, position and fees are recomputable from the order log, active or completed means flat or above maintenance with drawdown within its maximum, completed or liquidated means nothing works, liquidated means flat |
| `PracticeMargin.ReductionStaysSolvent` | internal/practice/model.go:461-519 | with the mark at least 400,000 cents, paying spread, fee and truncation to reduce a solvent position leaves it solvent |
| `PracticeMargin.TakerFillStaysSolvent` | internal/practice/model.go:461-519 | the same for every taker fill that the margin check lets through |
| `PracticeMargin.PlayerOrderNeverLiquidates` | internal/practice/model.go:260-317 | on an active session whose mark is at least 400,000 cents no order ends in liquidation; the built-in path never falls below 6,300,000 |
| `PracticeMargin.PracticeOrdersNeverLiquidate` | internal/practice/model.go:260-317 | on the built-in path, in every reachable active session, no order ends in liquidation |
| `PracticeMargin.CheapPathCounterexample` | internal/practice/model.go:566-600 | on a cheap path, which is no built-in fixture, commands reach a session whose next reducing order liquidates its own account |
| `PracticeMargin.FloorIsNeeded` | internal/practice/model.go:461-519 | three cents below the floor a session that meets the invariant is liquidated by its own sale of a thousandth |
| `PracticeDrawdown.CloseOutExactly` | internal/practice/model.go:578-600 | a close-out lowers equity by the half spread with its truncations and the fee, all fixed by position, entry and mark; the reported drawdown covers the real one afterwards exactly when it had room for that cost before |
| `PracticeDrawdown.CloseOutCosts` | internal/practice/model.go:461-519 | the cost of a close-out is never a gain where the exit price is not negative, and is a loss from four thousandths on |
| `PracticeDrawdown.WorstPointIsUnderstated` | internal/practice/model.go:566-600 | a session closed out at its worst point reports a drawdown too small by exactly that cost |
| `PracticeDrawdown.DrawdownIsUnderstated` | internal/practice/model.go:566-600 | such a session exists on the built-in path: short 7.3 at fifty times leverage, hold ten prices |
| `PracticeIntents.CloseFlattens` | internal/practice/model.go:351-374 | a close at market flattens any open position, at any mark and however little equity is left, and leaves a flat account untouched |
| `PracticeIntents.ReverseFlips` | internal/practice/model.go:351-374 | a reverse at market ends with exactly the requested quantity on the other side, or is refused whole |
| `Numeric.RoundDivMeaning` | crates/sim-core/src/numeric/mod.rs:187-216 | each rounding mode returns the integer it promises: toward zero, away from zero, floor, ceiling, or nearest with ties away from zero |
| `Numeric.NotionalExactly` | crates/sim-core/src/numeric/mod.rs:250-288 | at any price and rounding, a notional is the exactly rounded product at the settlement scale when that fits 64 bits and an overflow otherwise; no intermediate step fails first |
| `Numeric.NotionalSucceeds` | crates/sim-core/src/numeric/mod.rs:250-288 | for positive prices the checked notional fails exactly when the exact value leaves 64 bits |
| `Numeric.NotionalMonotone` | crates/sim-core/src/numeric/mod.rs:250-288 | a larger quantity never has a smaller rounded-up notional |
| `Numeric.NotionalSubadditive` | crates/sim-core/src/numeric/mod.rs:250-288 | splitting a quantity never lowers the sum of rounded-up notionals |
| `OrderInvariants.StepKeepsLifecycle` | crates/sim-core/src/orders/mod.rs:345-633 | submit, cancel, replace, fill, immediate execution and stop trigger keep identities, statuses, kinds and fill counts consistent |
| `OrderInvariants.EveryRunIsConsistent` | crates/sim-core/src/orders/mod.rs:345-773 | over every run of order operations: status matches kind and fills, fill-or-kill orders are filled not at all or completely, executable post-only orders are limits |
| `OrderInvariants.ReduceOnlyAcceptsTheMost` | crates/sim-core/src/orders/mod.rs:708-742 | a reduce-only request is refused exactly when its side has no room left, and otherwise accepted for the largest quantity that fits the request and the unreserved position |
| `OrderInvariants.StepWithinExposure` | crates/sim-core/src/orders/mod.rs:345-633 | at a fixed position every operation keeps live reduce-only quantity within the position |
| `OrderInvariants.ReduceOnlyNeverOvercommits` | crates/sim-core/src/orders/mod.rs:708-742 | over every run at a fixed position, live reduce-only remaining on the reducing side never exceeds the absolute position, and is zero on the other side |
| `OrderHistory.StepGrows` | crates/sim-core/src/orders/mod.rs:345-633 | every operation leaves or advances each order: identity kept, fills and revision never lower, terms changed only by replacement or stop conversion, terminal orders frozen |
| `OrderHistory.RunGrows` | crates/sim-core/src/orders/mod.rs:345-633 | over every run no order disappears, changes identity, loses a fill, or moves after it ended |
| `Positions.FillAccounts` | crates/sim-core/src/positions/mod.rs:136-249 | a fill moves the signed quantity by exactly itself, splits into at most two legs, and realizes exactly what its legs report |
| `PositionValue.DriftIsBounded` | crates/sim-core/src/positions/mod.rs:261-282 | only same-side adds create drift; it is the dropped remainder of the average, below the new absolute quantity, positive for longs and negative for shorts |
| `PositionValue.FillConserves` | crates/sim-core/src/positions/mod.rs:136-249 | at zero scales one fill changes realized plus marked value by its own value at the mark plus its drift |
| `PositionValue.ValueIsConserved` | crates/sim-core/src/positions/mod.rs:136-318 | over any fill sequence at zero scales, realized plus marked P&L is the multiplier times the sum of signed fill times mark minus price, plus the accumulated drift |
| `Risk.InitialMarginExact` | crates/sim-core/src/risk/mod.rs:425-442 | the initial margin is the ceiling of the ceiling, and fails exactly when the notional leaves 64 bits |
| `Risk.MarginSubadditive` | crates/sim-core/src/risk/mod.rs:425-442 | margin of a whole never exceeds the margins of its parts, despite both ceilings |
| `Risk.ExposureIsReserved` | crates/sim-core/src/risk/mod.rs:499-532 | no partial execution of the live orders can leave more exposure than held plus reserved |
| `Risk.ReservationIsSound` | crates/sim-core/src/risk/mod.rs:292-330 | if the snapshot shows non-negative available margin, then after any partial fills of the live non-reduce-only orders the resulting position is still covered by equity |
| `Risk.MaxAffordable` | crates/sim-core/src/risk/mod.rs:534-569 | the binary search terminates, cannot fail, and returns the largest affordable additional quantity, or zero when even the base is not affordable |
| `Risk.PrecheckFill` | crates/sim-core/src/risk/mod.rs:341-419 | accepts the whole closing leg plus exactly the largest affordable opening quantity; answers exactly when inputs are valid and the full request can be priced |
| `Risk.LeverageChangeIsCovered` | crates/sim-core/src/risk/mod.rs:214-238 | a leverage change is granted exactly when the snapshot at the new leverage leaves a non-negative balance, and changes the leverage alone |
| `Risk.LeverageChangeIsSound` | crates/sim-core/src/risk/mod.rs:214-238 | after a granted change every partial fill of the live orders is still covered at the new leverage |
| `Ledger.RecordBalances` | crates/sim-core/src/ledger/mod.rs:189-232 | a recorded transaction balances, moves each account by the sum of its postings and leaves the total unchanged |
| `Ledger.RestoreLedger` | crates/sim-core/src/ledger/mod.rs:134-155 | a ledger restores from its own snapshot exactly when the running sums fit 64 bits and the books balance, losing only its history |
| `Economics.CashFlowEffect` | crates/sim-core/src/economics/mod.rs:454-481 | a cash flow moves cash by the amount, one named account by its negative, and nothing else |
| `Economics.TotalPostedInsert` | crates/sim-core/src/economics/mod.rs:337-364 | a new scheduled identity adds its own amount to the total posted once |
| `Execution.BarEffect` | crates/sim-core/src/execution/f0/mod.rs:156-279 | a bar execution changes only its order, fills what it reports, keeps the life cycle, has a price whenever it fills, and leaves a closed order alone |
| `Execution.QuoteEffect` | crates/sim-core/src/execution/f1/mod.rs:267-360 | the same for a quote execution |
| `Execution.TradeEffect` | crates/sim-core/src/execution/f1/mod.rs:371-449 | the same for a resting order reached by a trade print |
| `Execution.TakeEffect` | crates/sim-core/src/execution/f1/mod.rs:514-534 | taking displayed size changes one order only and fills what its time in force allows of the size on offer |
| `FacadeAccounting.DispatchConserves` | crates/sim-core/src/facade/handlers.rs:40-582 | every handler keeps position equal to order fills, the ledger total, and the P&L, funding and fee accounts |
| `FacadeAccounting.ApplyConserves` | crates/sim-core/src/facade/mod.rs:175-220 | every input is fully accounted for, and a refused one changes nothing |
| `FacadeAccounting.RunIsAccounted` | crates/sim-core/src/facade/mod.rs:175-220 | the same over every run, whatever is refused on the way |
| `FacadeAccounting.EveryFacadeIsAccounted` | crates/sim-core/src/facade/handlers.rs:446-582 | in every reachable F0/F1 state position is initial plus bought minus sold over all orders, balances sum to zero, RealizedPnl moved by minus the realized P&L, Funding by minus the posted total, fees by the reported fees, and cash by the rest |
| `FacadeExposure.PlannedIsTaken` | crates/sim-core/src/execution/f1/mod.rs:514-534 | a market event fills an order not at all or by what its time in force takes of the size on offer; the position has no part in it |
| `FacadeExposure.DispatchSettles` | crates/sim-core/src/facade/handlers.rs:163-306 | a handled market event records that quantity in its order and moves the position by exactly it |
| `FacadeExposure.FillReducesExactly` | crates/sim-core/src/facade/handlers.rs:471-545 | an accepted fill neither grows nor flips the position exactly when its order is on the reducing side and the quantity is at most the position, all known before the call |
| `FacadeExposure.DispatchKeepsCover` | crates/sim-core/src/facade/handlers.rs:40-306 | from a state whose position covers its live reduce-only orders, a handled input leaves one exactly when it is not an ordinary reducing fill larger than what those orders leave unreserved |
| `FacadeExposure.RunKeepsCover` | crates/sim-core/src/facade/mod.rs:175-220 | a run is covered throughout exactly when it starts covered and no accepted input undercuts |
| `FacadeExposure.ReduceOnlyIsSafe` | crates/sim-core/src/orders/mod.rs:708-742 | in every run that is never undercut no reduce-only fill grows or flips the position |
| `FacadeExposure.NewIsCovered` | crates/sim-core/src/facade/mod.rs:42-60 | every new facade starts covered |
| `FacadeWitnesses.ReduceOnlyCanFlip` | crates/sim-core/src/facade/handlers.rs:163-206 | otherwise it can: long ten with a reduce-only sell of ten, an ordinary sell of ten flattens, then the reduce-only order opens a short of ten |
| `FacadeRestore.StepAlike` | crates/sim-core/src/facade/mod.rs:175-220 | two facades that differ only in ledger history answer every input alike and stay so |
| `FacadeRestore.RunsAlike` | crates/sim-core/src/facade/mod.rs:175-220 | the same over every input sequence |
| `FacadeRestore.RestoredIsBisimilar` | crates/sim-core/src/facade/mod.rs:67-126 | whenever a snapshot restores, the restored facade gives the same events, errors and snapshots as the original for every later input sequence |
| `FacadeRestore.RestoreSucceedsExactly` | crates/sim-core/src/facade/mod.rs:67-108 | the snapshot of a reachable state restores exactly when the running balance sums fit 64 bits, and otherwise fails as an invalid snapshot |
| `FacadeRestore.RunKeepsContinuable` | crates/sim-core/src/facade/mod.rs:67-126 | every run keeps the conditions a snapshot must meet |
| `FacadeRestore.NewIsContinuable` | crates/sim-core/src/facade/mod.rs:42-60 | a new facade meets the conditions a snapshot must meet |
| `FacadeWitnesses.ReachableSnapshotIsRefused` | crates/sim-core/src/ledger/mod.rs:134-155 | a facade that restores takes one funding payment and then no longer does, its books still in balance |
| `CodecProofs.DecodeInvertsEncode` | crates/sim-core/src/facade/codec.rs:55-154 | decoding the encoding of any in-limit input returns that input |
| `CodecProofs.DecodeAcceptsOnlyEncodings` | crates/sim-core/src/facade/codec.rs:175-274 | whatever decode accepts is byte for byte the encoding of the value it returns, under that value’s own kind |
| `CodecProofs.LevelsExact` | crates/sim-core/src/facade/codec.rs:430-451 | a depth list is read back exactly, and only within its limit |
| `Canonical.U64Canonical` | crates/sim-core/src/hash/mod.rs:144-146 | every eight bytes are the encoding of exactly one unsigned number |
| `Canonical.I64Canonical` | crates/sim-core/src/hash/mod.rs:149-151 | every eight bytes are the encoding of exactly one signed number |
| `Canonical.BytesPrefix` | crates/sim-core/src/hash/mod.rs:157-161 | two length-prefixed fields that start equal byte streams are equal, and so are the rests |
| `Kernel.BatchesCompose` | crates/sim-core/src/kernel/mod.rs:244-254 | splitting an input stream into batches changes neither events, errors nor the chain head |
| `Sorting.SortForgetsOrderOnly` | crates/sim-cli/src/ledger.rs:138-140 | sorting postings or hashes yields equal lists exactly for equal multisets |
| `WireText.DecimalU64Exact` | crates/sim-cli/src/bundle.rs:333-359 | each unsigned value has exactly one accepted spelling |
| `WireText.DecimalI64Exact` | crates/sim-cli/src/bundle.rs:340-377 | each signed value has exactly one accepted spelling |
| `WireText.HexExact` | crates/sim-cli/src/bundle.rs:379-400 | hexadecimal decoding accepts exactly the lowercase rendering of its result |
| `WireText.HashTextExact` | crates/sim-cli/src/bundle.rs:316-331 | a hash has exactly one accepted spelling, of 64 lowercase digits |
| `WireText.HexAllSort` | apps/api/src/trading_replay_api/results/service.py:412-412 | sorting hexadecimal texts sorts the bytes they denote |
| `BundleText.ReadExact` | crates/sim-cli/src/bundle.rs:66-103 | a bundle is read exactly when it is the canonical text of a bundle with non-empty names, and then to that bundle |
| `Bundle.ReplayFollowsChain` | crates/sim-cli/src/lib.rs:241-295 | replay succeeds exactly when every input is in sequence and declares the event of the hash chain, and ends at the chain head |
| `Bundle.LedgerIsSound` | crates/sim-cli/src/ledger.rs:56-128 | the ledger scan passes exactly ledgers with unique identifiers, ordered events, two or more postings and zero sums per currency |
| `Bundle.AcceptsExactlyAuthentic` | crates/sim-cli/src/lib.rs:183-239 | the verifier accepts exactly the bundles whose claims follow from their contents, and reports their own head and result |
| `BundleVerifier.AcceptedLedgerConserves` | crates/sim-cli/src/ledger.rs:56-98 | an accepted ledger creates no money: all postings of every currency sum to zero |
| `BundleBinding.InputInjective` | crates/sim-core/src/kernel/mod.rs:27-37 | two inputs with one canonical encoding are one input |
| `BundleBinding.EventInjective` | crates/sim-core/src/kernel/mod.rs:210-219 | an event encoding determines prior hash, numbers, input and payload hash |
| `BundleBinding.LedgerBinds` | crates/sim-cli/src/ledger.rs:130-147 | two ledgers have one encoding exactly when they differ in posting order at most |
| `BundleBinding.ManifestsBind` | crates/sim-cli/src/bundle.rs:106-116 | two manifest lists have one encoding exactly when they differ in order at most |
| `BundleBinding.StatesInjective` | crates/sim-cli/src/bundle.rs:118-127 | two state lists with one encoding are one list |
| `BundleBinding.ResultInjective` | crates/sim-cli/src/bundle.rs:129-150 | the result encoding determines all it is made of |
| `BundleBinding.HeadBindsInputs` | crates/sim-core/src/kernel/mod.rs:180-236 | without collisions or zero hashes among the messages hashed, equal chain heads mean equal input histories, of whatever lengths |
| `BundleBinding.ResultHashBinds` | crates/sim-cli/src/lib.rs:183-239 | for accepted bundles and a hash without collisions on their messages, result hashes are equal exactly when session, inputs, events, states and metrics are equal, manifests up to order and ledgers up to posting order |
| `BundleBinding.ResultTextBinds` | crates/sim-cli/src/bundle.rs:66-103 | the same for exchanged text: one result hash admits one spelling of everything but those two orders |
| `ProofBuilder.InputLayoutsAgree` | apps/api/src/trading_replay_api/results/service.py:398-407 | builder and kernel lay an input out identically |
| `ProofBuilder.EventLayoutsAgree` | apps/api/src/trading_replay_api/results/service.py:372-381 | builder and kernel lay an event out identically |
| `ProofBuilder.KernelEvents` | apps/api/src/trading_replay_api/results/service.py:357-395 | the loop fails exactly on foreign or non-contiguous inputs and otherwise declares the kernel’s own chain and head |
| `ProofBuilder.ManifestCommitment` | apps/api/src/trading_replay_api/results/service.py:410-416 | fails exactly on malformed hashes and otherwise computes the verifier’s manifest commitment, although it sorts text and the verifier sorts bytes |
| `ProofBuilder.StateHashCommitment` | apps/api/src/trading_replay_api/results/service.py:419-429 | fails exactly when sequences do not ascend and otherwise computes the verifier’s commitment |
| `ProofBuilder.LedgerCommitment` | apps/api/src/trading_replay_api/results/service.py:432-456 | fails exactly on ledgers the verifier would refuse and otherwise computes the verifier’s commitment |
| `ProofBuilder.RequireBalanced` | apps/api/src/trading_replay_api/results/service.py:459-464 | true exactly when every currency of the transaction sums to zero |
| `ProofBuilder.ResultCommitment` | apps/api/src/trading_replay_api/results/service.py:467-485 | computes the verifier’s result commitment from section hashes in text |
| `ProofBuilder.BuiltIsAccepted` | apps/api/src/trading_replay_api/results/service.py:324-354 | the proof of consistent evidence reads back to the same values and is accepted with the same head and result hash |
| `ProofBuilder.BuildProof` | apps/api/src/trading_replay_api/results/service.py:324-354 | the builder fails exactly on inconsistent evidence; every proof it produces is accepted by the verifier |
| `SessionInvariants.StepKeeps` | apps/api/src/trading_replay_api/sessions/service.py:133-355 | every transaction keeps all sessions healthy |
| `SessionInvariants.EveryVersionConsumedOnce` | apps/api/src/trading_replay_api/sessions/service.py:573-616 | in every reachable store each version below the current one was consumed by exactly one lifecycle event or one command, and no other version by any |
| `SessionInvariants.CompletedAtPlayEnd` | apps/api/src/trading_replay_api/sessions/service.py:246-284 | in every reachable store a completed session can be read and its frontier is exactly the committed end |
| `SessionInvariants.HealthyReads` | apps/api/src/trading_replay_api/sessions/service.py:455-531 | a reachable session can always be materialized |
| `SessionHistory.StepExtends` | apps/api/src/trading_replay_api/sessions/service.py:133-355 | no transaction rewrites anything: logs are extended, setups kept, time and version never decrease, completed sessions never move |
| `SessionHistory.RunExtends` | apps/api/src/trading_replay_api/sessions/service.py:133-355 | the same over every run |
| `SessionHistory.RetryConsumesNothing` | apps/api/src/trading_replay_api/commands/store.py:72-84 | after acceptance, the same command is answered the same way at any later time, whatever happened in between, and changes nothing |
| `SessionHistory.PastTimeIsSettled` | apps/api/src/trading_replay_api/sessions/service.py:200-244 | the logical time of a version already reached never changes |
| `Replay.RunIsFold` | apps/api/src/trading_replay_api/replay/service.py:157-201 | a run from nothing over an ordered source is the fold of exactly the inputs up to its target |
| `Replay.ResumeIsRun` | apps/api/src/trading_replay_api/replay/service.py:131-155 | resuming from the checkpoint of an earlier run gives exactly the result, or the error, of running from nothing |
| `ReplayProtocol.RecoverIsRight` | apps/api/src/trading_replay_api/replay/service.py:131-155 | recovery lands on the run from nothing, whichever checkpoint it started from |
| `ReplayProtocol.ActKeeps` | apps/api/src/trading_replay_api/replay/service.py:80-129 | every database step of any coordinator, any other writer and any crash keeps all checkpoints right |
| `ReplayProtocol.EveryCheckpointIsTheFold` | apps/api/src/trading_replay_api/replay/service.py:80-129 | over every interleaving and crash, each persisted checkpoint is the fold of exactly the inputs up to its session version’s logical time |
| `ReplayRecovery.SaveNeverConflicts` | apps/api/src/trading_replay_api/replay/store.py:50-100 | saving the right checkpoint never conflicts with one already stored |
| `ReplayRecovery.LatestIsNotAhead` | apps/api/src/trading_replay_api/replay/store.py:31-48 | within one state the latest checkpoint is never ahead of the session |
| `ReplayRecovery.CorruptExactly` | apps/api/src/trading_replay_api/replay/service.py:131-155 | a coordinator calls a checkpoint corrupt exactly when the latest one lies after the frontier it read, and then the session has moved on since: alone it never does |
| `ReplayWitnesses.OvertakenCallsItCorrupt` | apps/api/src/trading_replay_api/replay/service.py:60-92 | whenever another coordinator completes an advance between the two reads, the first one calls the new, sound checkpoint corrupt |
| `ReplayWitnesses.SpuriousCorruption` | apps/api/src/trading_replay_api/replay/service.py:60-92 | such an interleaving starts from the empty world |
| `ReplayRecovery.RecoveryWorksExactly` | apps/api/src/trading_replay_api/replay/service.py:45-129 | after any history, one undisturbed visit reaches its target and persists the checkpoint of that target exactly when the run to the target succeeds and the simulator starts past version zero or the source has an input at or before the frontier; otherwise the session does not move, and without such an input no checkpoint is written either |
| `ReplayWitnesses.UnfedSessionIsStuck` | apps/api/src/trading_replay_api/replay/service.py:96-101 | from the empty world, over an empty source, a started session is not advanced by a visit although the run itself succeeds |
| `ReplayService.AnswerIsHonest` | apps/api/src/trading_replay_api/replay/service.py:45-129 | a visit answers with success exactly when it reaches its target, with that target’s checkpoint, and an unfed frontier is answered with the refused save |
| `Intervals.MergeMeans` | apps/api/src/trading_replay_api/catalog/service.py:216-223 | merging keeps exactly the points covered and leaves room between what remains |
| `Intervals.SubtractMeans` | apps/api/src/trading_replay_api/catalog/service.py:205-233 | the result is in range, ordered, apart, and contains exactly the instants outside every gap, for any overlapping or unsorted gaps |
| `Intervals.CoveredExactly` | apps/api/src/trading_replay_api/catalog/service.py:205-233 | one span covers an interval exactly when the interval is in range and meets no gap |
| `Catalog.EligibleExactly` | apps/api/src/trading_replay_api/catalog/service.py:125-147 | a manifest is listed exactly when its quality and policy allow it, it is not revoked, and the whole interval from warm-up to end is in its range and clear of every gap |
| `Catalog.WindowsExactly` | apps/api/src/trading_replay_api/catalog/service.py:149-172 | the windows list exactly the play starts at which the manifest would be listed as eligible |
| `SessionEligibility.CommittedIsCovered` | apps/api/src/trading_replay_api/sessions/service.py:92-118 | against the catalog’s own list, a committed session pins a manifest that was eligible and has every instant from warm-up to end of play; a request is refused for its manifest exactly when none of that hash is eligible |
| `Aggregate.BucketsNest` | workers/ingest/src/trading_replay_ingest/calendars/__init__.py:158-161 | a fine bucket lies inside one coarse bucket, that of any of its instants, also before the epoch |
| `AggregateReconcile.FineBarsMergeToCoarse` | workers/ingest/src/trading_replay_ingest/aggregate/__init__.py:121-130 | when the fine interval divides the coarse one, merging the fine bars gives exactly the directly aggregated coarse bars |
| `AggregateReconcile.VolumeIsConserved` | workers/ingest/src/trading_replay_ingest/aggregate/__init__.py:87-92 | volumes add up to the traded quantity and counts to the number of trades |
| `AggregateReconcile.CandlesAreBuckets` | workers/ingest/src/trading_replay_ingest/aggregate/__init__.py:121-130 | of ordered trades, the bars are the non-empty buckets in order, each summing up exactly its own trades |
| `AggregateReconcile.SummaryMeans` | workers/ingest/src/trading_replay_ingest/aggregate/__init__.py:63-92 | a bar’s open, close, high, low, volume and count are the first, last, highest and lowest price, total and number of its trades |
| `AggregateReconcile.CompleteCoarseHasCompleteFine` | workers/ingest/src/trading_replay_ingest/aggregate/__init__.py:132-155 | a complete coarse bar has only complete fine bars |
| `AggregateReconcile.CompleteCoarseExactly` | workers/ingest/src/trading_replay_ingest/aggregate/__init__.py:132-155 | a coarse bar is complete exactly when every fine bucket in it, traded or not, is covered and meets no gap |
| `AggregateReconcile.GapBetweenBars` | workers/ingest/src/trading_replay_ingest/aggregate/__init__.py:132-155 | complete fine bars alone are not enough: a gap may lie in a bucket without trades |
| `PracticeSession.Session.constructor` | internal/practice/model.go:175-188 | refines: a new session holds the account constants, the given path and no orders |
| `PracticeSession.Session.GetSnapshot` | internal/practice/model.go:190-241 | refines: the view shows exactly the prices revealed so far and the orders newest first, with equity, margins and liquidation price of the current mark |
| `PracticeSession.Session.SetLeverageTo` | internal/practice/model.go:243-258 | refines: sets the leverage, or restores the old one when available margin would turn negative; every refusal leaves the session as it was |
| `PracticeSession.Session.Submit` | internal/practice/model.go:260-319 | refines: the mutating order entry produces the state and answer of the order specification |
| `PracticeSession.Session.AdvanceBy` | internal/practice/model.go:321-349 | refines: the reveal loop produces the state and answer of advancing step by step, stopping when the session ends |
| `PracticeSession.Session.ProcessWorkingOrders` | internal/practice/model.go:438-459 | refines: the loop over working orders visits each once, in order, including the effect of earlier fills |
| `PracticeSession.Session.Fill` | internal/practice/model.go:461-519 | refines: in-place fill of one order: capped when reduce-only, refused on margin, else booked into position, fees and order |
| `PracticeSession.Session.ApplyRisk` | internal/practice/model.go:566-600 | refines: peak, drawdown and forced close-out after every price or fill |
| `PracticeSession.Session.CloseOut` | internal/practice/model.go:578-600 | refines: liquidation cancels what works, appends a system order for the whole position and fills it |
| `PracticeSession.Session.CloseOrder` | internal/practice/model.go:618-628 | refines: rejecting or cancelling rewrites the status and reason of one order only |
| `PracticeSession.Session.CancelAll` | internal/practice/model.go:630-636 | refines: exactly the working orders become cancelled, everything else is untouched |
| `Risk.ComputeExpansion` | crates/sim-core/src/risk/mod.rs:499-532 | refines: the loop reserves the larger of buy and sell expansion after crediting the closing side once, or reports overflow |
| `Ledger.Ledger.RecordTransaction` | crates/sim-core/src/ledger/mod.rs:189-232 | refines: the posting loop commits balances, history and identifier together, or nothing at all |
| `FacadeObject.SimulatorFacade.Clone` | crates/sim-core/src/facade/mod.rs:192-192 | refines: the working copy starts equal to the facade |
| `FacadeObject.SimulatorFacade.Apply` | crates/sim-core/src/facade/mod.rs:175-220 | refines: clone, kernel step, dispatch, commit: the result is the specified transition, and every error leaves the facade unchanged |
| `FacadeObject.SimulatorFacade.Dispatch` | crates/sim-core/src/facade/handlers.rs:40-101 | refines: each decoded input reaches its own handler; F2 inputs are refused on tiers F0 and F1 |
| `FacadeObject.SimulatorFacade.ReconcileExecution` | crates/sim-core/src/facade/handlers.rs:471-545 | refines: the fill loop books position, realized P&L and fee of every fill in order and reports them |
| `FacadeObject.SimulatorFacade.ReconcileOne` | crates/sim-core/src/facade/handlers.rs:497-539 | refines: one fill: position first, then each leg, then the fee |
| `FacadeObject.SimulatorFacade.PostRealizedPnl` | crates/sim-core/src/facade/handlers.rs:547-582 | refines: each leg with a non-zero result is posted against cash and reported |
| `FacadeObject.SimulatorFacade.HandleSubmit` | crates/sim-core/src/facade/handlers.rs:103-123 | refines: submission is checked against instrument and market frontier and inserts one order |
| `FacadeObject.SimulatorFacade.HandleCancel` | crates/sim-core/src/facade/handlers.rs:125-138 | refines: cancels one order in place |
| `FacadeObject.SimulatorFacade.HandleReplace` | crates/sim-core/src/facade/handlers.rs:140-161 | refines: replaces one order in place |
| `FacadeObject.SimulatorFacade.HandleF0` | crates/sim-core/src/facade/handlers.rs:163-206 | refines: advances the market frontier, executes one bar, reconciles its fill |
| `FacadeObject.SimulatorFacade.HandleF1Quote` | crates/sim-core/src/facade/handlers.rs:208-249 | refines: the same for a quote, with the role the execution reports |
| `FacadeObject.SimulatorFacade.HandleF1Trade` | crates/sim-core/src/facade/handlers.rs:251-306 | refines: the same for a print reaching a resting good-till-cancelled limit |
| `FacadeObject.SimulatorFacade.HandleLeverage` | crates/sim-core/src/facade/handlers.rs:386-415 | refines: changes leverage only when equity covers the new requirement |
| `FacadeObject.SimulatorFacade.HandleRisk` | crates/sim-core/src/facade/handlers.rs:417-444 | refines: evaluates liquidation from the current margin snapshot |
| `FacadeObject.SimulatorFacade.HandleFunding` | crates/sim-core/src/facade/handlers.rs:446-469 | refines: posts a scheduled flow once per identity |
| `CodecReader.PayloadReader.constructor` | crates/sim-core/src/facade/codec.rs:482-490 | refines: a reader starts behind the payload tag |
| `CodecReader.PayloadReader.Take` | crates/sim-core/src/facade/codec.rs:525-536 | refines: returns the next bytes and moves past them, or fails without moving |
| `CodecReader.PayloadReader.U64` | crates/sim-core/src/facade/codec.rs:492-497 | refines: reads one big-endian unsigned number |
| `CodecReader.PayloadReader.I64` | crates/sim-core/src/facade/codec.rs:499-504 | refines: reads one two’s-complement number |
| `CodecReader.PayloadReader.Boolean` | crates/sim-core/src/facade/codec.rs:506-512 | refines: reads 0 or 1 and nothing else |
| `CodecReader.PayloadReader.TextField` | crates/sim-core/src/facade/codec.rs:514-523 | refines: reads a length-prefixed UTF-8 text within the limit |
| `CodecReader.PayloadReader.OptionalQuantity` | crates/sim-core/src/facade/codec.rs:460-466 | refines: reads a presence flag and, if set, a quantity |
| `CodecReader.PayloadReader.Levels` | crates/sim-core/src/facade/codec.rs:438-451 | refines: the loop reads exactly the declared number of levels |
| `CodecReader.PayloadReader.Finish` | crates/sim-core/src/facade/codec.rs:538-543 | refines: succeeds exactly when nothing is left over |
| `CodecReader.WriteLevels` | crates/sim-core/src/facade/codec.rs:430-436 | refines: the writer loop appends count and levels |
| `Canonical.CanonicalWriter.Blob` | crates/sim-core/src/hash/mod.rs:157-161 | refines: appends the length and then the bytes |
| `Kernel.Kernel.Apply` | crates/sim-core/src/kernel/mod.rs:180-236 | refines: advances three counters and the head together, or reports why not and changes nothing |
| `Kernel.Kernel.ApplyBatch` | crates/sim-core/src/kernel/mod.rs:244-254 | refines: the loop stops at the first error, keeping what was applied before it |
| `WireText.ReadHex` | crates/sim-cli/src/bundle.rs:379-392 | refines: the decoding loop |
| `WireText.WriteHex` | crates/sim-core/src/hash/mod.rs:117-123 | refines: the rendering loop |
| `BundleVerifier.ManifestCommitmentOf` | crates/sim-cli/src/bundle.rs:106-116 | refines: the writer loop hashes the sorted manifest list |
| `BundleVerifier.StateHashCommitment` | crates/sim-cli/src/bundle.rs:118-127 | refines: the writer loop hashes the state list |
| `BundleVerifier.LedgerCommitmentOf` | crates/sim-cli/src/ledger.rs:130-147 | refines: the nested writer loops hash the ledger with sorted postings |
| `BundleVerifier.ResultCommitmentOf` | crates/sim-cli/src/bundle.rs:129-150 | refines: hashes session, four commitments and metrics |
| `BundleVerifier.VerifyStateHashes` | crates/sim-cli/src/bundle.rs:152-175 | refines: reports the first state hash out of order, then a wrong commitment |
| `BundleVerifier.ReplayKernel` | crates/sim-cli/src/lib.rs:241-295 | refines: the replay loop reports the first input that does not reproduce, with the count and head so far |
| `BundleVerifier.ValidateTransactionShape` | crates/sim-cli/src/ledger.rs:100-128 | refines: checks posting count, identifier and order against what was seen |
| `BundleVerifier.VerifyLedger` | crates/sim-cli/src/ledger.rs:56-98 | refines: the nested loops report the first bad transaction, else the exact balance of every account mentioned and of no other |
| `BundleVerifier.VerifyBundle` | crates/sim-cli/src/lib.rs:183-239 | refines: the sequence of checks yields the specified report |
| `ProofBuilder.ChainLink` | apps/api/src/trading_replay_api/results/service.py:368-393 | refines: one link hashes payload and event as the kernel does |
| `SessionService.SessionService.constructor` | apps/api/src/trading_replay_api/sessions/service.py:33-39 | refines: the tables start empty |
| `SessionService.MaterializeFromRow` | apps/api/src/trading_replay_api/sessions/service.py:455-531 | refines: the loop over events yields the pinned setup, frontier and parent, or reports a log that cannot be |
| `SessionService.SessionService.CreateSession` | apps/api/src/trading_replay_api/sessions/service.py:41-68 | refines: a new session starts at version zero; an existing one is refused |
| `SessionService.SessionService.CommitSetup` | apps/api/src/trading_replay_api/sessions/service.py:75-164 | refines: pins one eligible setup and moves to version plus one, or changes nothing |
| `SessionService.SessionService.TransitionStatus` | apps/api/src/trading_replay_api/sessions/service.py:357-391 | refines: start, resume and pause append one event and one version, or change nothing |
| `SessionService.SessionService.AdvanceTo` | apps/api/src/trading_replay_api/sessions/service.py:200-244 | refines: moves the frontier forward within the committed end, or changes nothing |
| `SessionService.SessionService.CompleteSession` | apps/api/src/trading_replay_api/sessions/service.py:246-284 | refines: completes only at the committed end |
| `SessionService.SessionService.ForkSession` | apps/api/src/trading_replay_api/sessions/service.py:286-355 | refines: creates a child at version one with the parent’s setup and frontier; the parent is untouched |
| `SessionService.SessionService.AcceptCommand` | apps/api/src/trading_replay_api/commands/store.py:34-148 | refines: accepts once per key, answers exact retries, refuses everything else without effect |
| `Replay.ConsumeBatch` | apps/api/src/trading_replay_api/replay/service.py:187-197 | refines: the inner loop consumes a page input by input, stopping at the first bad one |
| `Replay.RunUntil` | apps/api/src/trading_replay_api/replay/service.py:157-201 | refines: the paged loop terminates and its result does not depend on the batch size |
| `ReplayService.CheckpointStore.LoadLatest` | apps/api/src/trading_replay_api/replay/store.py:31-48 | refines: returns the checkpoint of the highest session version |
| `ReplayService.CheckpointStore.SaveCheckpoint` | apps/api/src/trading_replay_api/replay/store.py:50-100 | refines: inserts, accepts an exact retry, refuses a conflict or a pristine simulator |
| `ReplayService.ReplayCoordinator.Begin` | apps/api/src/trading_replay_api/replay/service.py:60-78 | refines: enters only a running session at the expected version with a target ahead and within its end |
| `ReplayService.ReplayCoordinator.RecoverCurrentFrontier` | apps/api/src/trading_replay_api/replay/service.py:131-155 | refines: recovers at the session’s own frontier |
| `ReplayService.ReplayCoordinator.Finish` | apps/api/src/trading_replay_api/replay/service.py:105-129 | refines: runs, advances the session, saves again, in that order, and returns what was applied |
| `ReplayService.ReplayCoordinator.AdvanceTo` | apps/api/src/trading_replay_api/replay/service.py:45-129 | refines: an undisturbed call takes exactly the five protocol steps, whatever the batch size, and returns the checkpoint, both input counts or the error they lead to |
| `Intervals.SubtractGaps` | apps/api/src/trading_replay_api/catalog/service.py:205-233 | refines: the clip, merge and subtract loops compute the specified spans |
| `Catalog.CoverageCatalog.Register` | apps/api/src/trading_replay_api/catalog/service.py:36-50 | refines: inserts once, ignores an exact retry, refuses changed facts |
| `Catalog.CoverageCatalog.Revoke` | apps/api/src/trading_replay_api/catalog/service.py:52-70 | refines: records one revocation fact per known manifest and never rewrites it or the manifest; an unknown manifest, a malformed fact and a changed fact are each refused under their own error |
| `Catalog.CoverageCatalog.ListSegments` | apps/api/src/trading_replay_api/catalog/service.py:89-123 | refines: the loops list the segments of every contributing manifest |
| `Catalog.CoverageCatalog.ListEligibleSetups` | apps/api/src/trading_replay_api/catalog/service.py:125-147 | refines: the loop lists the specified setups |
| `Catalog.CoverageCatalog.ListEligibleWindows` | apps/api/src/trading_replay_api/catalog/service.py:149-172 | refines: the loop lists the specified windows |
| `Aggregate.BuildCandles` | workers/ingest/src/trading_replay_ingest/aggregate/__init__.py:116-130 | refines: the first loop fails exactly on unordered trades and otherwise builds the candles |
| `Aggregate.AggregateTrades` | workers/ingest/src/trading_replay_ingest/aggregate/__init__.py:103-156 | refines: both loops: candles with their completeness flags |

## Left out

- Facade tier F2: depth books and sweep execution; only the record shapes the codec needs are modelled, and F2 inputs are refused as the F0 and F1 tiers refuse them.
- SHA-256 itself (FIPS 180-4, section 6.2): an uninterpreted function parameter.
- The JSON reader of the verifier (RFC 8259): the model starts from a record whose required fields are present and of the right JSON type.
- Human-readable messages, and the JSON rendering of reports and inspections.
- SQL, locking and isolation details beyond one atomic step per transaction.
- Authentication, credential storage, sealing and request signing.
- Commitment draws, market paging, HTTP routers, servers, the web interface and generated code.
- Session calendars with time zones, halts and daylight saving; only fixed intervals on the continuous UTC calendar are aggregated.
- Borrow charges, dividends, settlements and splits: each posts like funding and would add members of the same shape.
- Beginning and completing a liquidation in the risk state: two flag changes no facade input reaches.
- The hash chain and identifiers of lifecycle events: the session model keeps event numbers, versions and payloads.
- Shape checks on identifiers (length, whitespace, control characters) in the session and command services.
- 64-bit overflow in plain Go arithmetic, and the 32-bit overflow of a facade event ordinal.
- Aliasing of slices and clones in Go and Rust: objects hold values and reassign them. Order, position and economics operations are modelled on values that the facade object reassigns, not as objects of their own.
- The facade codec beyond its reader primitives and level loops: composed on values rather than on the moving buffer.
- Sources that break their own paging contract: the pager returns consecutive inputs up to the requested time and limit; inputs themselves may be wrong, and are then refused.
- Results that facade and session operations return besides state, events and error codes, such as the materialized record after a transition.
- FacadeRestore.RestoredIsBisimilar: states the case of a successful restore; FacadeRestore.RestoreSucceedsExactly says when that is.
- OrderInvariants.ReduceOnlyNeverOvercommits: holds at a fixed position only, because the facade does not cap again at the fill; FacadeExposure.RunKeepsCover and FacadeExposure.ReduceOnlyIsSafe treat the moving one.
- AggregateReconcile.CompleteCoarseHasCompleteFine: one direction; AggregateReconcile.CompleteCoarseExactly is the exact form.
- PracticeMargin.FloorIsNeeded: shows a state of the invariant, not a run of commands; below the floor the outcome depends on how position and mark divide, so the floor is a bound and not a sharp threshold.
