# Verification of the market-making services

A Dafny model of four state machines and one number type of the repository, with proofs about every
input, every run and every reachable state. `dafny verify dfyconfig.toml` checks all of it.

| part | files |
|---|---|
| CLMM swap quoting and tick-array discovery | `TickWalk`, `WalkTheorems`, `TickArrays`, `QuoteSwap`, `Discovery` |
| fixed-point prices and decimals | `MachineInts`, `Prices`, `PriceText`, `Decimals` |
| pricing engine and published cache | `Instruments`, `Engine`, `EngineClass`, `NonInterference`, `CacheAgreement`, `Pipelines`, `Runs`, `Schedule`, `EngineRuns`, `PriceLaws`, `Registry` |
| transaction submission | `Submission` |
| ephemeral users | `MintPairs`, `UserFlows`, `UserCommand` |

## How the parts are modelled

**Swap quoting.** `TickWalk.Walk` is the simple form: one flat sequence of initialised ticks, the
nearest one ahead, one step, again. `QuoteSwap.QuoteSwap` is the loop of the client: a queue of tick
arrays, the array in hand, the flag that says whether the tick lies in it, the list of arrays used.
Its contract, `MeetsWalk`, ties the two together. The Raydium functions (`tick_math`, `compute_swap`)
are fields of `Library`; `LibraryContract` is all that is assumed of them: prices increase with the
tick, the tick of a price is the floor, a step stays between price and target, takes no more than
what is left, and takes all of it when it stops short. `TickWalk.ContractCanBeMet` shows the
hypotheses can hold together. The look-ups inside one array and in the bitmap are given by what they
return. A pool's bitmap may mark an array that holds no initialised tick; where the exact bitmap
matters, `BitmapIsExact` is stated as a condition. Supplied arrays are the pool's own (`Genuine`), and
the start price lies in the start tick's range (`Consistent`).

**Numbers.** `Price` is a 128-bit mantissa and a 32-bit exponent; truncating division, checked bounds
and digit strings are written out. The release profile keeps overflow checks on
(`Cargo.toml`), so an overflowing `i32` subtraction in a rescale is the result `Panic`. `Decimal`
operations are arbitrary partial functions (`Numerics`); a theorem that needs exact results says
`Exact(num)`. Generators (GBM, noise, beta) are deterministic steps on their own opaque state.

**Engine.** `Engine.RunTape` is the meaning of a tape of handled events; `EngineClass.Engine` and
`EngineClass.AppState` are the mutable engine and cache, each method proved against it. On the clock
the interval and the next due time are `i64`s and an overflow aborts the engine: `Engine.Handled` says
how far a run gets, `RunTape` of that prefix is what the engine does, and what a theorem says of all
tapes it says of every such prefix.

**Submission.** `Rpc` answers as an arbitrary function of the call number: replies get lost, sent bytes
may or may not arrive, transactions land at any time. The ledger executes a signature once. A reported
status is the ledger's. `Rpc.moments` records ledger and clock as they stand after each call, so that what
the confirmation answers can be stated from them. Signing is a function of instructions, signers and
blockhash. The poll interval must be positive.

**Users.** `Env` behaves arbitrarily at every call and keeps every state the world has been in. A
transaction that ended in an error may have landed, may never land, or may still land later;
`unsettled` holds the users for which that is open, and their holdings may then change at any call.
At line 376 of the orchestrator `recovery_path` is used outside the loop that binds it (line 292); the
model removes the file of the user at hand.

## Where the code does not meet the plain property, and exactly when it does

- The cache misses a price that evaluates for a basket without legs: no event ever evaluates it
  (`EmptyBasketIsMissed`). `CacheAgreesWithRecompute` has the condition: the instrument uses a feed.
- A printed price parses back only inside the exponent range and when the printed integer fits;
  scientific notation never parses (`RoundTrip`, `ScientificIsRejected`).
- `(tick_ms as i64) * 1000` is a positive pause exactly up to `i64::MAX / 1000` milliseconds. From
  9,223,372,036,854,776 ms on, which fits an `i64` and is accepted, the product overflows and the
  engine aborts (`OverflowingInterval`); for the largest values the cast wraps to a small negative
  number and the pause is not positive, −1000 µs for the largest (`WrappedInterval`). `IntervalCases`
  has the exact ranges.
- One such instrument stops the whole engine at the first clock event (`OneOverflowStopsAll`), so other
  instruments' outputs end there too. With a clock in range every event is handled exactly when every
  interval fits (`HandlesAllWhen`), and up to the abort nothing interferes (`OutputIsOwnUntilAbort`).
- A complete reclaim leaves the user with nothing exactly when it held no account of a third mint
  (`ReclaimEmptiesWhen`); a reward account of the pool is one, and `ThirdMintStays` shows such a reclaim.

## Model

| member | source | states |
|---|---|---|
| `TickWalk.Nearest` | crates/raydium-clmm-client/src/quote.rs:63-97 | the tick found is ahead (inclusive downwards, exclusive upwards), in the list, and no other is nearer; none is found only if none is ahead |
| `TickWalk.TargetIsAhead` | crates/raydium-clmm-client/src/quote.rs:104-115 | from an unfinished state the step target lies between the price and the limit, in the swap's direction |
| `TickWalk.AdvanceKeeps` | crates/raydium-clmm-client/src/quote.rs:104-176 | one pass books the step, keeps price and tick consistent, moves only towards the limit, and either crosses the tick or ends the walk |
| `WalkTheorems.NetAtTick` | crates/raydium-clmm-client/src/quote.rs:153-170 | crossing one tick changes the liquidity sum by that tick's net and nothing else |
| `WalkTheorems.AdvanceKeepsLiquidity` | crates/raydium-clmm-client/src/quote.rs:151-176 | one pass, crossing or not, keeps active liquidity equal to the sum of nets at or below the tick |
| `WalkTheorems.LiquidityAtEveryHead` | crates/raydium-clmm-client/src/quote.rs:151-176 | at every loop head of every walk, one that fails later included, active liquidity is that sum |
| `WalkTheorems.SwapConservation` | crates/raydium-clmm-client/src/quote.rs:54-152 | consumed and calculated amounts are the sums over the steps, exact-in and exact-out; the price moves one way and never past the limit; a walk ends only with nothing left, at the limit, or at an extreme tick |
| `WalkTheorems.VisitedInOrder` | crates/raydium-clmm-client/src/quote.rs:63-97 | visited ticks are initialised ticks ahead of the start, strictly in swap order, none twice |
| `WalkTheorems.NoTickSkipped` | crates/raydium-clmm-client/src/quote.rs:63-97 | every tick that was ahead at the start and no longer is at the end has been visited |
| `WalkTheorems.LimitNeedsManyTicks` | crates/raydium-clmm-client/src/quote.rs:54-178 | a walk takes no more passes than there are ticks ahead, so the pass limit needs more ticks than passes |
| `WalkTheorems.EveryPassIsRight` | crates/raydium-clmm-client/src/quote.rs:62-178 | every pass of every walk asks the library for the step from its head price to the nearest tick ahead or the limit, with liquidity equal to the sum of nets at or below the head tick, the amount left and the fee settings of the order; amounts, price, tick and liquidity then follow the answer; the walk ends only when the loop condition fails |
| `WalkTheorems.FailureHasCause` | crates/raydium-clmm-client/src/quote.rs:62-178 | a walk that fails does so in the pass from its last head state, for the cause its error names: no tick ahead, limit orders on the nearest, the step asked for refused, its amounts or the crossing overflowing; or it has made all its passes |
| `TickArrays.NextStart` | crates/raydium-clmm-client/src/quote.rs:79-91 | the next array of the bitmap is the nearest initialised one strictly beyond, or there is none |
| `TickArrays.NearestInArray` | crates/raydium-clmm-client/src/quote.rs:63-73 | the tick found inside the array in hand is the nearest of the whole pool |
| `TickArrays.FirstIsNearest` | crates/raydium-clmm-client/src/quote.rs:75-97 | the first tick of an array that lies wholly ahead is the nearest of the whole pool |
| `TickArrays.UsedUp` | crates/raydium-clmm-client/src/quote.rs:63-78 | when the array in hand yields nothing, no tick ahead lies in it or before the next array |
| `TickArrays.NextArrayAhead` | crates/raydium-clmm-client/src/quote.rs:79-95 | a freshly taken array lies wholly ahead of the tick, with no tick between |
| `TickArrays.PositionedAtStart` | crates/raydium-clmm-client/src/quote.rs:33-53 | the first array is the right one to search, also when it does not contain the current tick |
| `TickArrays.PositionedAfterCrossing` | crates/raydium-clmm-client/src/quote.rs:153-176 | after a crossing the array in hand is still the right one, at its lower edge too |
| `QuoteSwap.FindNext` | crates/raydium-clmm-client/src/quote.rs:63-97 | its result is the function `Find` of the cursor; the array look-ups, jumps and queue together find the pool's nearest tick and record the arrays entered; each failure has its exact cause |
| `QuoteSwap.MoveOn` | crates/raydium-clmm-client/src/quote.rs:62-176 | the loop body keeps the loop invariant or answers as the walk requires |
| `QuoteSwap.Traverse` | crates/raydium-clmm-client/src/quote.rs:54-179 | the whole loop answers as the flat walk requires |
| `QuoteSwap.QuoteSwap` | crates/raydium-clmm-client/src/quote.rs:16-179 | its result is the function `QuoteOver` of its inputs; an Ok quote is the flat walk's amount and the arrays it passes, a prefix of the supplied and of the discovered ones; when the bitmap marks only arrays that hold a tick, it is given whenever the walk ends inside the supplied arrays, and with all arrays supplied errors agree too; arrays on the route never give the order error; errors that are not about the arrays are the walk's |
| `QuoteSwap.LimitUnreachable` | crates/raydium-clmm-client/src/quote.rs:54-178 | with at most 63 initialised ticks ahead the traversal-limit error cannot occur |
| `QuoteSwap.QuoteIsAccountedFor` | crates/raydium-clmm-client/src/quote.rs:16-179 | for a pool with right initial liquidity: every step is the one the library gives for the head price, the active liquidity and what is left; amounts are the step sums, liquidity is right at every head, ticks are visited in order and none is skipped; the arrays used are the first one and exactly those that hold a visited tick |
| `QuoteSwap.QuoteErrorHasCause` | crates/raydium-clmm-client/src/quote.rs:16-179 | an error of the flat walk a quote follows has the cause `FailureHasCause` gives it |
| `TickArrays.DiscoverStep` | crates/raydium-clmm-client/src/lib.rs:1529-1570 | one more discovered start is the next array after the last, or discovery has ended |
| `TickArrays.DiscoverPrefix` | crates/raydium-clmm-client/src/lib.rs:1529-1570 | a shorter discovery is a prefix of a longer one and, when it stops early, the whole of it |
| `Discovery.DiscoverStarts` | crates/raydium-clmm-client/src/lib.rs:1529-1550 | the bitmap loop yields the route from the first array, at most the discovery limit |
| `Discovery.LoadSwapTickArrays` | crates/raydium-clmm-client/src/lib.rs:1529-1570 | succeeds exactly when there is a first array, the fetch answers and every account on the route exists, decodes, and names this pool and its start; then arrays and keys are the route in order; otherwise the error is that of the first account that is missing or does not fit |
| `Discovery.LoadFailsUnless` | crates/raydium-clmm-client/src/lib.rs:1529-1570 | a load has at most one reason to fail, and none exactly when it succeeds |
| `Discovery.LoadedOnRoute` | crates/raydium-clmm-client/src/lib.rs:1529-1570 | loaded arrays are the pool's own and a prefix of the route, and the whole route if discovery stopped below the limit |
| `QuoteSwap.MoreArraysSameQuote` | crates/raydium-clmm-client/src/lib.rs:648-676 | an Ok quote is unchanged when more arrays are supplied behind, for every pool, bitmap and array list |
| `QuoteSwap.LoopWithMore` | crates/raydium-clmm-client/src/quote.rs:54-179 | the loop from any state: success on a queue is the same success on a longer queue |
| `Discovery.QuoteOverLoadedArrays` | crates/raydium-clmm-client/src/lib.rs:648-676 | the answer exactly, from the load, the quote over the loaded arrays and the limit of six; the traversal-order and unfetched-array errors cannot occur; an Ok quote is the walk's, made over exactly the fetched accounts of the route, and stays the same with any more arrays; with an exact bitmap a route read to its end is quoted exactly as the walk goes |
| `Prices.Pow10Fits` | crates/mtm-math/src/lib.rs:116-118 | a power of ten fits an `i128` exactly up to 38 |
| `Prices.RescaleSucceedsWhen` | crates/mtm-math/src/lib.rs:86-101 | the exact condition for a rescale to succeed |
| `Prices.RescaleUpThenBack` | crates/mtm-math/src/lib.rs:86-101 | to a finer exponent and back is the identity |
| `Prices.RescaleDownInSteps` | crates/mtm-math/src/lib.rs:86-101 | successive down-scales equal the direct one whenever that succeeds |
| `Prices.RescaleLoss` | crates/mtm-math/src/lib.rs:86-101 | a down-scale loses less than one new unit, toward zero, for both signs |
| `Prices.RescaleIs` | crates/mtm-math/src/lib.rs:86-101 | the rescaled mantissa: times the power of ten to a finer exponent, divided by it and truncated to a coarser one |
| `Prices.BpsTruncates` | crates/mtm-math/src/lib.rs:103-113 | the scaled mantissa is within one unit of the exact product, on the side of zero |
| `Prices.BpsSucceedsWhen` | crates/mtm-math/src/lib.rs:103-113 | the exact condition for scaling by basis points to succeed |
| `PriceText.FractionRoundTrip` | crates/mtm-math/src/lib.rs:120-154 | exponents −38 to −1: parsing the text returns mantissa and exponent, minimum mantissa and values below one included |
| `PriceText.IntegerRoundTrip` | crates/mtm-math/src/lib.rs:120-154 | every `i128` integer parses back |
| `PriceText.ScientificIsRejected` | crates/mtm-math/src/lib.rs:120-154 | the scientific form never parses |
| `PriceText.RoundTrip` | crates/mtm-math/src/lib.rs:120-154 | what parsing a printed price gives, for every price: the same price, the same value at exponent 0, or a parse error, each exactly when |
| `PriceText.ParseThenPrint` | crates/mtm-math/src/lib.rs:120-154 | a parsed text printed and parsed again is the same price exactly up to 38 decimals |
| `PriceText.ReadsAsWritten` | crates/mtm-math/src/lib.rs:143-154 | an optional sign, digits and perhaps a dot and digits are read as the number the digits spell, with one decimal per digit behind the dot; it fails only without any digit or if the number does not fit |
| `PriceText.PrintsAs` | crates/mtm-math/src/lib.rs:203-214 | the printed forms the repository's tests expect |
| `Decimals.ComputeToDecimal` | crates/mtm-math/src/lib.rs:48-59 | the loop of checked multiplications gives mantissa times the power of ten, or fails exactly when that does not fit |
| `Decimals.ToDecimalIsExact` | crates/mtm-math/src/lib.rs:48-59 | a price has a decimal exactly when it has at most 28 decimals and its digits fit 96 bits, and the decimal is exactly what it stands for |
| `Decimals.FromDecimalSucceedsWhen` | crates/mtm-math/src/lib.rs:61-73 | a decimal is quantised exactly when the exponent is within 28 of zero, the shift goes through and the rounded mantissa fits; the result is the rounded shift |
| `Decimals.RoundIsNearest` | crates/mtm-math/src/lib.rs:61-73 | rounding is to the nearest integer, ties to even |
| `Decimals.DecimalRoundTrip` | crates/mtm-math/src/lib.rs:48-73 | with exact arithmetic a converted price converts back unchanged or reports overflow |
| `Decimals.QuantisationError` | crates/mtm-math/src/lib.rs:61-73 | for every exponent a successful conversion is off by at most half a unit and has the asked exponent |
| `Instruments.Older` | services/oracle/src/pricing/mod.rs:542-547 | the result is one of the two times, none only if both are absent, and no later than either present one |
| `Instruments.MaxConf` | services/oracle/src/pricing/mod.rs:549-551 | the largest present ratio, none exactly when all are absent |
| `Instruments.ComputeBase` | services/oracle/src/pricing/mod.rs:377-466 | the leg loop with its early exits computes `EvalBase`, whose meaning the laws of `PriceLaws` give |
| `Instruments.ComputeTransform` | services/oracle/src/pricing/mod.rs:468-540 | the loop that pops the lag buffer serves the last ripe sample and keeps the rest |
| `Instruments.ComputeStages` | services/oracle/src/pricing/mod.rs:344-352 | the loop over the transforms, with its early end, runs the specified pipeline |
| `Instruments.StagesSplit` | services/oracle/src/pricing/mod.rs:344-352 | cut the transform list anywhere: a front that yields nothing leaves every later stage untouched, otherwise the rest runs on what it yields |
| `Instruments.ComputeEval` | services/oracle/src/pricing/mod.rs:344-375 | one evaluation: new state and published point |
| `PriceLaws.AggregateLaw` | services/oracle/src/pricing/mod.rs:282-289 | an aggregate observation is worth its price, and its ratio times the price is the confidence; used exactly when the price has a decimal |
| `PriceLaws.TopOfBookLaw` | services/oracle/src/pricing/mod.rs:290-297 | a top of book is worth the middle of its sides, and its ratio times that is half their distance; the exact condition for it to be used |
| `PriceLaws.TradeLaw` | services/oracle/src/pricing/mod.rs:298 | a trade is worth its price, without a ratio |
| `PriceLaws.LatestIsLastSeen` | services/oracle/src/pricing/mod.rs:300-313 | after any tape the engine knows a feed exactly if the tape has an observation of it that reduces, and then it knows the last one: value, ratio, publish time, slot and source |
| `PriceLaws.RegistryKnowsTheLast` | services/oracle/src/pricing/mod.rs:300-313 | so it is for every accepted registry |
| `PriceLaws.UnderlyingLaw` | services/oracle/src/pricing/mod.rs:383-393 | an underlying price is the feed's latest, with all that came with it, and there is one exactly if the feed is known |
| `PriceLaws.CrossLaw` | services/oracle/src/pricing/mod.rs:394-405 | a cross price times the quote is the base; larger ratio, earlier publish time, no slot, the base's source; the exact condition for it |
| `PriceLaws.BasketLaw` | services/oracle/src/pricing/mod.rs:406-434 | a basket price is the weighted sum of all legs times the factor it has or now gets, which times the sum is the target; largest ratio and earliest time over the legs |
| `PriceLaws.BasketPricesWhen` | services/oracle/src/pricing/mod.rs:406-434 | the exact condition for a basket to have a price |
| `PriceLaws.PegLaw` | services/oracle/src/pricing/mod.rs:435-442 | a peg is its target, published now |
| `PriceLaws.GbmLaw` | services/oracle/src/pricing/mod.rs:443-465 | a generator's price and confidence are those of its draw, which moves its state on in any case |
| `PriceLaws.ScaleLaw` | services/oracle/src/pricing/mod.rs:470-474 | value times factor plus offset, and nothing else changes; the exact condition |
| `PriceLaws.InvertLaw` | services/oracle/src/pricing/mod.rs:475-479 | times the value it is 1, and nothing else changes; the exact condition |
| `PriceLaws.NoiseLaw` | services/oracle/src/pricing/mod.rs:511-540 | value times the factor drawn now, and the generator moves on in any case |
| `PriceLaws.PublishLaw` | services/oracle/src/pricing/mod.rs:353-374 | a point is published exactly when the value fits the exponent; price and confidence are within half a unit of value and of value times ratio; symbol, times, slot and source |
| `PriceLaws.CachedIsTheLast` | services/oracle/src/pricing/mod.rs:281-375 | for every registry and tape: an instrument that republishes a feed is cached with exactly the last observation of that feed |
| `PriceLaws.CachedCrossIsTheLastRatio` | services/oracle/src/pricing/mod.rs:281-405 | for every registry and tape: the cached price of a plain cross is the last base over the last quote observed, to within half a unit |
| `Engine.BuildIsValid` | services/oracle/src/pricing/mod.rs:124-279 | every index of an accepted registry names an instrument |
| `NonInterference.BuildIsFresh` | services/oracle/src/pricing/mod.rs:124-279 | an accepted registry has one instrument per configuration, unique symbols, and no prices yet |
| `Registry.InstrumentIsBuilt` | services/oracle/src/pricing/mod.rs:139-258 | an instrument is built exactly when its feeds are known and its numbers parse, and then field by field as configured: symbol or mint, exponent, feeds in their roles, legs, rebase target, generator pause of at least 250 ms, lags in microseconds |
| `Registry.RegistryIsBuilt` | services/oracle/src/pricing/mod.rs:124-279 | the engine accepts exactly the configurations in which every instrument is good and no symbol is given twice, and builds each as configured, in order, without prices |
| `Registry.IndexedAsConfigured` | services/oracle/src/pricing/mod.rs:250-258 | an observation visits an instrument once for every mention of the feed in its configuration; the clock visits it once if it is a generator or a peg, and otherwise not |
| `Registry.OutputInOrder` | services/oracle/src/pricing/mod.rs:315-340 | in any run the points of one event come in the order in which their instruments are registered |
| `EngineClass.Engine.FromConfig` | services/oracle/src/pricing/mod.rs:124-279 | builds the specified engine or fails with the first error |
| `EngineClass.Engine.VisitAll` | services/oracle/src/pricing/mod.rs:300-341 | the evaluation loop updates exactly the visited instruments and emits their points in order, or aborts exactly when a turn on the clock overflows |
| `EngineClass.Engine.OnUnderlying` | services/oracle/src/pricing/mod.rs:281-322 | new state and output of one underlying tick, the rejected one included |
| `EngineClass.Engine.OnTick` | services/oracle/src/pricing/mod.rs:324-341 | new state and output of one clock event; aborts exactly when the schedule of a due instrument overflows |
| `EngineClass.AppState.Update` | services/oracle/src/state.rs:32-41 | the map changes at the point's symbol only |
| `EngineClass.AppState.Get` | services/oracle/src/state.rs:43-45 | the stored point, none exactly when there is none |
| `EngineClass.Run` | services/oracle/src/pricing/mod.rs:555-578 | over any tape it handles exactly the events before the first abort, and the cache is what those emitted |
| `NonInterference.BatchProjects` | services/oracle/src/pricing/mod.rs:300-341 | a batch of evaluations seen from one instrument is as many evaluations of it as it is listed |
| `NonInterference.ReactProjects` | services/oracle/src/pricing/mod.rs:281-342 | one event acts on an instrument as on an engine that holds it alone |
| `NonInterference.RunProjects` | services/oracle/src/pricing/mod.rs:123-342 | so does any tape |
| `NonInterference.BuildProjects` | services/oracle/src/pricing/mod.rs:124-279 | building a registry gives each instrument the state and index it gets alone |
| `NonInterference.OutputIsOwn` | services/oracle/src/pricing/mod.rs:123-342 | for any registry and tape, an instrument's outputs are those of an engine built with it alone |
| `CacheAgreement.EvalTwice` | services/oracle/src/pricing/mod.rs:344-466 | evaluating again at another time gives the same quote and changes nothing |
| `CacheAgreement.EvalReads` | services/oracle/src/pricing/mod.rs:377-466 | an evaluation depends on the feeds it is indexed under and on no other |
| `CacheAgreement.SoloRun` | services/oracle/src/pricing/mod.rs:281-375 | after any tape the newest emitted point is the quote of evaluating now, if that succeeds |
| `CacheAgreement.PublishedIsNewest` | services/oracle/src/state.rs:32-45 | the cache holds exactly the newest emitted point of each symbol |
| `CacheAgreement.CacheAgreesWithRecompute` | services/oracle/src/pricing/mod.rs:281-375 | in every reachable state, when recomputing succeeds, the cache holds exactly that quote if and only if the instrument uses a feed |
| `CacheAgreement.EmptyBasketIsMissed` | services/oracle/src/pricing/mod.rs:406-434 | the accepted registry for which the cache misses a price |
| `Pipelines.LagIsHistoryLookup` | services/oracle/src/pricing/mod.rs:496-510 | for non-decreasing clocks the buffer is the history newer than now − lag, and the newest served sample is the newest one that is not |
| `Pipelines.StagesCompose` | services/oracle/src/pricing/mod.rs:344-352 | a pipeline fed sample by sample is its stages fed stream by stream |
| `Pipelines.LagStageOrder` | services/oracle/src/pricing/mod.rs:496-510 | for any clock a lag stage emits samples that entered, whole but for the derived mark, in order, each at least its lag after it entered, and holds the rest |
| `Pipelines.PlainStageOrder` | services/oracle/src/pricing/mod.rs:468-540 | every other stage emits for each sample, at the moment it enters, exactly what it yields for it in the state the earlier samples left it in, and nothing else |
| `Pipelines.PipelineOrder` | services/oracle/src/pricing/mod.rs:344-352 | through any transform list and any clock: an in-order, duplicate-free part of the input, each emission what the stages one after another make of the sample it comes from, at least the sum of all lags later |
| `Pipelines.EmissionKeeps` | services/oracle/src/pricing/mod.rs:344-352 | whatever the stages, an emission keeps the confidence, publish time, slot and source of its sample, and comes at least the sum of all lags after it |
| `Pipelines.EmissionIsMapped` | services/oracle/src/pricing/mod.rs:468-540 | without noise the emitted context is the composition of the stages applied to the sample's, whenever it comes |
| `Pipelines.NoiseMultiplies` | services/oracle/src/pricing/mod.rs:511-540 | a noise stage multiplies the value by the factor drawn when the sample enters, from the state the earlier samples left the generator in |
| `Pipelines.PipeSplit` | services/oracle/src/pricing/mod.rs:344-352 | a pipeline cut in two: the back is fed with what the front emits |
| `Runs.RunsArePipelines` | services/oracle/src/pricing/mod.rs:344-375 | the points of any run are the published pipeline output over its base prices |
| `Runs.FactorIsFirst` | services/oracle/src/pricing/mod.rs:406-434 | after any run the rebase factor is that of the first evaluation that could compute it |
| `Runs.FactorWrittenOnce` | services/oracle/src/pricing/mod.rs:406-434 | a written factor never changes |
| `Runs.BasketFollowsFirstSum` | services/oracle/src/pricing/mod.rs:406-434 | with exact arithmetic value times first sum is target times current sum, and the first value is the target |
| `Schedule.IntervalCases` | services/oracle/src/pricing/mod.rs:324-341 | for every accepted `tick_ms`: the exact ranges in which the pause is positive, not positive, or an abort, and its length where it is positive |
| `Schedule.PauseIsInterval` | services/oracle/src/pricing/mod.rs:324-341 | the pause of a configured instrument: one second for a peg, its milliseconds but at least 250 for a generator |
| `Schedule.WrappedInterval` | services/oracle/src/pricing/mod.rs:324-341 | the largest `u64` gives −1000 µs |
| `Schedule.OverflowingInterval` | services/oracle/src/pricing/mod.rs:324-341 | an accepted configuration below `i64::MAX` whose interval overflows |
| `Schedule.ClockStep` | services/oracle/src/pricing/mod.rs:324-341 | a clock-driven instrument ignores ticks, is evaluated only at its turn, and is due again one interval later |
| `Schedule.EvaluationsAreSpaced` | services/oracle/src/pricing/mod.rs:324-341 | in any registry and run, consecutive evaluations are at least the interval apart, and an instrument whose interval overflows has none |
| `Schedule.EvaluationCount` | services/oracle/src/pricing/mod.rs:324-341 | in any run of an accepted registry an instrument with a positive interval is evaluated at most 1 + (last − first) / interval times |
| `Schedule.EvaluatedWhenDue` | services/oracle/src/pricing/mod.rs:324-341 | the evaluation times of a peg or generator in any run, exactly: each clock event from zero on that comes at least one pause after the last evaluation |
| `Schedule.FeedsNeverAdvanceTheClocked` | services/oracle/src/pricing/mod.rs:251-258 | no underlying tick ever changes a clock-driven instrument |
| `Schedule.StopsForCause` | services/oracle/src/pricing/mod.rs:324-341 | a run that does not handle all events stops at one that aborts the engine |
| `Schedule.OutputIsOwnUntilAbort` | services/oracle/src/pricing/mod.rs:123-342 | aborts included: as far as the engine gets, an instrument's outputs are those of an engine built with it alone, which gets at least as far |
| `Schedule.OneOverflowStopsAll` | services/oracle/src/pricing/mod.rs:324-341 | an instrument whose interval overflows stops the whole engine at the first clock event |
| `Schedule.HandlesAllWhen` | services/oracle/src/pricing/mod.rs:324-341 | with a clock in range, every event is handled if and only if every interval of the registry fits |
| `EngineRuns.EngineRunIsEvals` | services/oracle/src/pricing/mod.rs:281-375 | for every registry and tape, an instrument's outputs and state are those of evaluating it at the calls the tape makes, one after another |
| `EngineRuns.EngineRunIsPipeline` | services/oracle/src/pricing/mod.rs:281-375 | so in every engine run its outputs are the published pipeline output over its base prices, and its base and stages are left as those calls leave them |
| `EngineRuns.EngineRunKeepsOrder` | services/oracle/src/pricing/mod.rs:344-352 | in every engine run the outputs are published, in order and without duplicates, from what the stages make of base prices at least the sum of all lags earlier |
| `EngineRuns.EngineLagLooksUp` | services/oracle/src/pricing/mod.rs:496-510 | in every engine run whose clock does not go back, a lag stage anywhere in the list is a look-up in the history of what the stages before it emit |
| `EngineRuns.EngineFactorIsFirst` | services/oracle/src/pricing/mod.rs:406-434 | after every engine run the rebase factor is that of the first call it could be computed at |
| `EngineRuns.EngineBasketFollows` | services/oracle/src/pricing/mod.rs:406-434 | in every engine run, with exact arithmetic, each base price of a rebased basket times the first weighted sum is the target times the weighted sum at its call, and the first is the target |
| `EngineRuns.StageKeepsClock` | services/oracle/src/pricing/mod.rs:468-540 | samples in the order of the clock leave every stage in that order |
| `Submission.LandingIsOnce` | crates/mtm-chain/src/lib.rs:156-190 | whatever arrives, in any order and number, nothing executes twice and the ledger only grows |
| `Submission.AtMostOnce` | crates/mtm-chain/src/lib.rs:156-190 | on such a ledger each signature counts at most one execution |
| `Submission.LandsWhen` | crates/mtm-chain/src/lib.rs:156-190 | a signature is on the ledger afterwards exactly if it was, or one of its arrivals had reached a validator |
| `Submission.CollectSigners` | crates/mtm-chain/src/lib.rs:126-136 | payer first, every asked signer once, no other, in the order of `Collected` |
| `Submission.CollectedOnce` | crates/mtm-chain/src/lib.rs:126-136 | the specified list has the payer first, every asked signer once, and no other |
| `Submission.SendLoop` | crates/mtm-chain/src/lib.rs:156-190 | the same bytes, at least once and at most max(1, attempts) times, in that many calls and pauses of growing length; all replies but the last were transport errors and the last one decides the result |
| `Submission.PollOnce` | crates/mtm-chain/src/lib.rs:193-237 | one pass gives an answer exactly when the status call fails, reports an error or the asked commitment, or the height call fails, is past the last valid height, or comes after the deadline; otherwise none |
| `Submission.ConfirmLoop` | crates/mtm-chain/src/lib.rs:192-238 | the answer exactly: every pass but the last was undecided, and the last one gives Ok, Execution or the ambiguous reason from its calls, the ledger and the clock; Ok and Execution are what the ledger holds; at most one pass starts after the deadline |
| `Submission.DecidedExactlyWhen` | crates/mtm-chain/src/lib.rs:202-217 | Ok exactly when the last status is reported without error at the asked commitment, Execution exactly when it is reported with an error; no earlier status was either |
| `Submission.AnswerIsDetermined` | crates/mtm-chain/src/lib.rs:192-238 | behaviours, ledgers and clock determine the answer and the number of passes |
| `Submission.Prepare` | crates/mtm-chain/src/lib.rs:105-154 | nothing is sent; exactly when each error is given; the transaction is the asked one with the budget in front and the blockhash of the first reply, signed over those bytes, with that reply's last valid height and the simulated units of the second |
| `Submission.PreparationIsDetermined` | crates/mtm-chain/src/lib.rs:105-154 | the two replies determine whether and how the preparation ends |
| `Submission.Submit` | crates/mtm-chain/src/lib.rs:105-239 | what was prepared from the first two replies is sent a bounded number of times, or nothing exactly for the four early errors with their exact causes; a rejection or another signature ends it, otherwise the answer is exactly that of the confirmation; Ok and Execution are what the ledger holds; no signature executes twice; the calls after the send loop are those of a bounded number of passes |
| `MintPairs.UniqueMints` | services/raydium-clmm-orchestrator/src/main.rs:640-646 | the sorted distinct mints, refused exactly when fewer than two differ |
| `MintPairs.UnorderedPairs` | services/raydium-clmm-orchestrator/src/main.rs:648-656 | every unordered pair of distinct mints exactly once, n(n−1)/2 in all |
| `UserFlows.ConfinedIsSafe` | services/raydium-clmm-orchestrator/src/main.rs:284-387 | a change confined to a user whose file is on disk keeps everyone recoverable |
| `UserFlows.FileChangeIsSafe` | services/raydium-clmm-orchestrator/src/main.rs:290-306 | so does a file change for a user that can hold nothing |
| `UserFlows.Env.SaveRecoveryFile` | services/raydium-clmm-orchestrator/src/main.rs:290-303 | creating then writing the key file: only that file changes; it succeeds exactly when both calls do and there was no file, and then the file is complete |
| `UserFlows.Env.TransferLamports` | services/raydium-clmm-orchestrator/src/main.rs:511-536 | succeeds exactly when the amount is positive, the balances cover amount and fee, and it is confirmed; then the amount moved and the faucet paid exactly the fee of that call |
| `UserFlows.Env.ReturnTokenBalance` | services/raydium-clmm-orchestrator/src/main.rs:450-509 | the whole balance goes to the faucet and the account is closed, at exactly the fee of that call and the rent of a new account, or there was none, or the call failed |
| `UserFlows.ReturnMoves` | services/raydium-clmm-orchestrator/src/main.rs:450-509 | a return conserves tokens and rent between user and faucet, at the stated cost |
| `UserFlows.ReclaimAddsUp` | services/raydium-clmm-orchestrator/src/main.rs:422-448 | two returns and the lamport transfer add up: both balances, the rents and all lamports are the faucet's, less exactly what the calls cost, and no one else moved |
| `UserFlows.ReclaimEmptiesWhen` | services/raydium-clmm-orchestrator/src/main.rs:422-448 | a complete reclaim leaves the user with nothing exactly when it held no third mint's account |
| `UserFlows.Env.ReclaimUserFunds` | services/raydium-clmm-orchestrator/src/main.rs:422-448 | changes stay with user and faucet at every step; it succeeds exactly when each of its calls goes through; success leaves a user that has nothing in doubt with no lamports and neither mint, and, when nobody is in doubt, gives the faucet all of it less exactly the cost of these calls |
| `UserFlows.ThirdMintStays` | services/raydium-clmm-orchestrator/src/main.rs:422-448 | a complete reclaim after which the user still has an account of a third mint |
| `UserCommand.FundOne` | services/raydium-clmm-orchestrator/src/main.rs:290-330 | the key is on disk before lamports move, under any failure; success costs the faucet the amount and exactly the fee of the transfer |
| `UserCommand.FundAll` | services/raydium-clmm-orchestrator/src/main.rs:290-330 | the funding loop, failed or not: which keys are saved and still on disk; on failure either the next key could not be saved, or the transfer failed and one reclaim was tried for each user funded before, in order; success costs the faucet the amounts and exactly the fees of the transfers |
| `UserCommand.ReclaimFunded` | services/raydium-clmm-orchestrator/src/main.rs:313-326 | after a failed funding a reclaim is tried once for every funded user, in order, whatever fails; no file is removed, and whoever was reclaimed with nothing in doubt holds none of it |
| `UserCommand.FinishOne` | services/raydium-clmm-orchestrator/src/main.rs:331-386 | flow, reclaim, removal in that order; a file goes only after both succeeded; a user not finished has nothing, flow and reclaim, or all three with a failed removal behind it; the reclaim is complete, at exactly the cost of its calls, and nothing else touches the faucet |
| `UserCommand.FlowAndReclaim` | services/raydium-clmm-orchestrator/src/main.rs:331-374 | unless the call before the flow fails, the flow and then the reclaim are tried, whatever becomes of the flow; each succeeds exactly when its calls do; no file changes |
| `UserCommand.FinishAll` | services/raydium-clmm-orchestrator/src/main.rs:331-386 | the loop, failed or not: some first users are finished with flow, reclaim and removal successful in that order; the one it ends at has had its reclaim tried if its flow was; all others are on disk, and the faucet got exactly what the recoveries brought, less exactly what their calls cost |
| `UserCommand.ExecuteUserFlows` | services/raydium-clmm-orchestrator/src/main.rs:250-393 | at every state of every run whoever may hold lamports or tokens has its file on disk; every run, failed or not, is exactly keys saved in order, users finished in order, and then what its failure calls for, the recovery attempts included; it keeps all other saved files; from the start over the funded state to the state after the last finished user, all states of the run, the faucet's lamports and tokens balance exactly against the amounts, the fees of the calls made and the complete reclaims; it succeeds exactly if no call fails, and then every user was funded with the amount, ran, was reclaimed and holds nothing of it |
| `UserCommand.BankedOneMore` | services/raydium-clmm-orchestrator/src/main.rs:422-448 | one more complete reclaim keeps the faucet's books: lamports, rents and the tokens of every mint |

## Left out

- Submit: SubmissionRejected says nothing about landing, because an earlier attempt may have had a lost reply; a zero poll interval is excluded, because the number of passes then depends on the clock alone.
- CacheAgreesWithRecompute: time of receipt is not compared, and Lag, Noise and Beta pipelines and clock-driven instruments are excluded, because evaluating those again is meant to differ.
- BasketFollowsFirstSum: for exact arithmetic only; with rounding the product of value and sum is not exact.
- LagIsHistoryLookup: for clocks that do not go back; PipelineOrder covers all clocks.
- ReclaimUserFunds: what the faucet gets is stated for runs without unsettled transactions; with one outstanding the faucet's holdings may change at any moment, and only what leaves the user is stated.
- RunUserFlow: which tokens a flow moves between user and pool is not tracked, only that it touches the user's holding.
- ExecuteUserFlows: reads of balances are truthful, keys are fresh, and directory creation and printing are not modelled.
- QuoteSwap: the look-ups inside one array and in the bitmap, and the library's tick and swap arithmetic, are not part of this model; they enter by what they return.
- LoadSwapTickArrays: addresses are an arbitrary function of the start; program-address derivation and account decoding are not part of this model.
- The tail of `swap`: slippage, thresholds and the balance check are short expressions; the balance check also compares amounts of two tokens.
- Position quotes, liquidity decrease, reward accounts, pool addresses and raw amounts in the client: pure expressions without state.
- Token-2022 transfer fees: the formulas are not in the repository.
- Overflow of the lag cutoff and of the noise stage's elapsed time: both need a clock before the year 1970, and are unbounded integers here.
- LibraryContract: that a step takes no more than what is left, and all of it when it stops short, counts input and fee together in both fee modes; for pools that take the fee from the output this is a hypothesis about the library, and nothing is claimed about how it charges there.
- The numeric content of GBM, noise and beta, and the conversions from and to floating point: only determinism and their own state are kept.
- The `ema` and quantity fields of price points, the broadcast to subscribers, and the mint-to-symbol look-up: carried along or sent out without effect on prices.
- The cause of a configuration error in the text of a decimal: a decimal is given as parsed or not.
- The other submission path in `tx.rs`: it refreshes the blockhash at each attempt and promises no single execution.
- Feed tasks, RPC and HTTP clients, routes, configuration loading, reports and deployment scripts: input and output only.
