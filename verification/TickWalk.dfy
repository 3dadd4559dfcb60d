/** One swap step, and the plain walk over a flat sequence of initialised ticks.

    The Raydium library (tick and swap mathematics) is not part of this model: its functions are the
    fields of `Library`, and `LibraryContract` lists what the quote loop relies on. */
module TickWalk {
  import opened Wrappers
  import opened MachineInts

  datatype Tick = Tick(index: int, liquidityNet: int, hasLimitOrders: bool)

  datatype SwapState = SwapState(remaining: int, calculated: int, price: int, tick: int, liquidity: int)

  /** What stays fixed during one quote. */
  datatype Order = Order(zeroForOne: bool, exactIn: bool, feeRate: nat, feeOnInput: bool)

  datatype StepRequest = StepRequest(price: int, target: int, liquidity: int, remaining: int, order: Order)

  datatype Step = Step(priceNext: int, amountIn: int, amountOut: int, fee: int)

  datatype Library = Library(
    minTick: int,
    maxTick: int,
    priceAt: int -> int,
    tickAt: int -> int,
    compute: StepRequest -> Option<Step>)

  datatype QuoteError =
    | ZeroAmount
    | NoInitializedArray
    | NoArraySupplied
    | WrongOrder
    | ArraysExhausted
    | NeedsAnotherArray
    | EmptyArray
    | LimitOrders
    | StepFailed
    | AmountOverflow
    | AmountUnderflow
    | LiquidityOverflow
    | TraversalLimit

  /** The order does not want prices past this one. */
  function PriceLimit(lib: Library, order: Order): int {
    if order.zeroForOne then lib.priceAt(lib.minTick) + 1 else lib.priceAt(lib.maxTick) - 1
  }

  /** `a` is at or beyond `b` in the direction of the swap. */
  predicate AtOrBeyond(order: Order, a: int, b: int) {
    if order.zeroForOne then a <= b else b <= a
  }

  function Consumed(order: Order, step: Step): int {
    if order.exactIn then step.amountIn + step.fee else step.amountOut
  }

  function Produced(order: Order, step: Step): int {
    if order.exactIn then step.amountOut else step.amountIn + step.fee
  }

  // ---------------------------------------------------------------- library hypotheses

  ghost predicate PricesIncrease(lib: Library) {
    && lib.minTick + 1 < lib.maxTick
    && forall a, b :: lib.minTick <= a < b <= lib.maxTick ==> lib.priceAt(a) < lib.priceAt(b)
  }

  ghost predicate TickAtIsFloor(lib: Library) {
    forall p :: lib.priceAt(lib.minTick) <= p < lib.priceAt(lib.maxTick) ==>
      var t := lib.tickAt(p);
      lib.minTick <= t < lib.maxTick && lib.priceAt(t) <= p < lib.priceAt(t + 1)
  }

  /** A step stays between the price and the target, never takes more than is left, and takes all
      that is left when it stops short of the target. */
  predicate StepFits(q: StepRequest, s: Step) {
    && AtOrBeyond(q.order, q.target, s.priceNext) && AtOrBeyond(q.order, s.priceNext, q.price)
    && s.amountIn >= 0 && s.amountOut >= 0 && s.fee >= 0
    && Consumed(q.order, s) <= q.remaining
    && (s.priceNext != q.target ==> Consumed(q.order, s) == q.remaining)
  }

  ghost predicate StepContract(lib: Library) {
    forall q: StepRequest :: q.remaining > 0 && AtOrBeyond(q.order, q.target, q.price) && lib.compute(q).Some? ==>
      StepFits(q, lib.compute(q).value)
  }

  ghost predicate LibraryContract(lib: Library) {
    PricesIncrease(lib) && TickAtIsFloor(lib) && StepContract(lib)
  }

  /** The hypotheses can be met together. */
  lemma ContractCanBeMet() returns (lib: Library)
    ensures LibraryContract(lib)
  {
    hide AtOrBeyond, StepFits;
    lib := Library(-2, 2, (t: int) => t, (p: int) => p, (q: StepRequest) => StandStill(q));
    forall q: StepRequest | q.remaining > 0 && AtOrBeyond(q.order, q.target, q.price)
      ensures StandStill(q).Some? && StepFits(q, StandStill(q).value)
    {
      StandStillFits(q);
    }
  }

  /** A step that takes everything without moving the price. */
  function StandStill(q: StepRequest): Option<Step> { Some(Step(q.price, q.remaining, q.remaining, 0)) }

  lemma StandStillFits(q: StepRequest)
    requires q.remaining > 0 && AtOrBeyond(q.order, q.target, q.price)
    ensures StandStill(q).Some? && StepFits(q, StandStill(q).value)
  {
  }

  /** The price lies in the current tick's range; its upper end is included because a downward
      crossing leaves the price on the tick above. */
  ghost predicate Consistent(lib: Library, s: SwapState) {
    && lib.priceAt(lib.minTick) <= s.price < lib.priceAt(lib.maxTick)
    && (lib.minTick < s.tick < lib.maxTick ==> lib.priceAt(s.tick) <= s.price <= lib.priceAt(s.tick + 1))
  }

  // ---------------------------------------------------------------- one pass of the loop

  predicate Finished(lib: Library, order: Order, s: SwapState) {
    || s.remaining == 0
    || s.price == PriceLimit(lib, order)
    || s.tick >= lib.maxTick
    || s.tick <= lib.minTick
  }

  function Clamp(x: int, lo: int, hi: int): int {
    if x < lo then lo else if x > hi then hi else x
  }

  function AddDelta(liquidity: int, delta: int): Option<int> {
    if 0 <= liquidity + delta <= U128_MAX then Some(liquidity + delta) else None
  }

  function Target(lib: Library, order: Order, priceNext: int): int {
    var limit := PriceLimit(lib, order);
    if (order.zeroForOne && priceNext < limit) || (!order.zeroForOne && priceNext > limit) then limit else priceNext
  }

  datatype Hop = Hop(tick: Tick, step: Step, after: SwapState)

  /** The amounts after a step, with the source's checked additions and subtractions. */
  function Settle(order: Order, s: SwapState, step: Step): Result<SwapState, QuoteError> {
    if step.amountIn + step.fee > U64_MAX then Failure(AmountOverflow)
    else if s.remaining < Consumed(order, step) then Failure(AmountUnderflow)
    else if s.calculated + Produced(order, step) > U64_MAX then Failure(AmountOverflow)
    else Success(s.(remaining := s.remaining - Consumed(order, step),
                    calculated := s.calculated + Produced(order, step)))
  }

  /** Price, tick and liquidity after a step towards `t`. */
  function Arrive(lib: Library, order: Order, s: SwapState, t: Tick, price: int): Result<SwapState, QuoteError> {
    var tickNext := Clamp(t.index, lib.minTick, lib.maxTick);
    if price == lib.priceAt(tickNext) then
      if order.zeroForOne && t.liquidityNet == I128_MIN then Failure(LiquidityOverflow)
      else
        var delta := if order.zeroForOne then -t.liquidityNet else t.liquidityNet;
        match AddDelta(s.liquidity, delta)
        case None => Failure(LiquidityOverflow)
        case Some(l) =>
          Success(s.(price := price, liquidity := l,
                     tick := if order.zeroForOne then tickNext - 1 else tickNext))
    else if price != s.price then Success(s.(price := price, tick := lib.tickAt(price)))
    else Success(s)
  }

  function Advance(lib: Library, order: Order, s: SwapState, t: Tick): Result<Hop, QuoteError> {
    if t.hasLimitOrders then Failure(LimitOrders)
    else
      var target := Target(lib, order, lib.priceAt(Clamp(t.index, lib.minTick, lib.maxTick)));
      match lib.compute(StepRequest(s.price, target, s.liquidity, s.remaining, order))
      case None => Failure(StepFailed)
      case Some(step) =>
        match Settle(order, s, step)
        case Failure(e) => Failure(e)
        case Success(paid) =>
          match Arrive(lib, order, paid, t, step.priceNext)
          case Failure(e) => Failure(e)
          case Success(after) => Success(Hop(t, step, after))
  }

  // ---------------------------------------------------------------- the flat walk

  /** An initialised tick at `index` can still be crossed from `tick`: downward swaps include the
      current tick, upward swaps exclude it. */
  predicate Ahead(order: Order, index: int, tick: int) {
    if order.zeroForOne then index <= tick else tick < index
  }

  ghost predicate IsNearest(ticks: seq<Tick>, order: Order, tick: int, t: Tick) {
    && t in ticks && Ahead(order, t.index, tick)
    && forall u :: u in ticks && Ahead(order, u.index, tick) ==> AtOrBeyond(order, u.index, t.index)
  }

  function Nearest(ticks: seq<Tick>, order: Order, tick: int): (r: Option<Tick>)
    ensures r.Some? ==> IsNearest(ticks, order, tick, r.value)
    ensures r.None? ==> forall u :: u in ticks ==> !Ahead(order, u.index, tick)
  {
    if ticks == [] then None
    else
      var rest := Nearest(ticks[1..], order, tick);
      assert forall u :: u in ticks <==> u == ticks[0] || u in ticks[1..];
      if !Ahead(order, ticks[0].index, tick) then rest
      else if rest.Some? && AtOrBeyond(order, ticks[0].index, rest.value.index) then rest
      else Some(ticks[0])
  }

  predicate DistinctTicks(ticks: seq<Tick>) {
    forall i, j :: 0 <= i < j < |ticks| ==> ticks[i].index != ticks[j].index
  }

  lemma {:induction false} NearestIsUnique(ticks: seq<Tick>, order: Order, tick: int, t: Tick)
    requires DistinctTicks(ticks) && IsNearest(ticks, order, tick, t)
    ensures Nearest(ticks, order, tick) == Some(t)
  {
    var r := Nearest(ticks, order, tick);
    assert r.Some? && r.value.index == t.index;
    var i, j :| 0 <= i < |ticks| && 0 <= j < |ticks| && ticks[i] == t && ticks[j] == r.value;
  }

  datatype WalkResult = Ended(final: SwapState, hops: seq<Hop>) | Failed(error: QuoteError)

  /** The plain walk: go to the nearest tick still ahead until finished, at most `fuel` loop heads. */
  function Walk(lib: Library, order: Order, ticks: seq<Tick>, s: SwapState, fuel: nat): WalkResult
    decreases fuel
  {
    if fuel == 0 then Failed(TraversalLimit)
    else if Finished(lib, order, s) then Ended(s, [])
    else
      match Nearest(ticks, order, s.tick)
      case None => Failed(ArraysExhausted)
      case Some(t) =>
        match Advance(lib, order, s, t)
        case Failure(e) => Failed(e)
        case Success(hop) => After(hop, Walk(lib, order, ticks, hop.after, fuel - 1))
  }

  function After(hop: Hop, w: WalkResult): WalkResult {
    match w
    case Failed(e) => Failed(e)
    case Ended(final, hops) => Ended(final, [hop] + hops)
  }

  // ---------------------------------------------------------------- what one step keeps

  /** The step reached `t` itself. */
  predicate Crossed(lib: Library, order: Order, t: Tick, after: SwapState) {
    && lib.minTick <= t.index <= lib.maxTick
    && after.price == lib.priceAt(t.index)
    && after.tick == (if order.zeroForOne then t.index - 1 else t.index)
  }

  lemma PriceOrder(lib: Library, a: int, b: int)
    requires PricesIncrease(lib) && lib.minTick <= a <= b <= lib.maxTick
    ensures lib.priceAt(a) <= lib.priceAt(b)
    ensures a < b ==> lib.priceAt(a) < lib.priceAt(b)
  {
  }

  /** From a consistent, unfinished state the target of the next step is ahead of the price. */
  lemma TargetIsAhead(lib: Library, order: Order, s: SwapState, t: Tick)
    requires LibraryContract(lib) && Consistent(lib, s) && !Finished(lib, order, s)
    requires Ahead(order, t.index, s.tick)
    ensures var tickNext := Clamp(t.index, lib.minTick, lib.maxTick);
            && (if order.zeroForOne then tickNext <= s.tick else s.tick < tickNext)
            && AtOrBeyond(order, lib.priceAt(tickNext), s.price)
            && AtOrBeyond(order, Target(lib, order, lib.priceAt(tickNext)), s.price)
            && AtOrBeyond(order, PriceLimit(lib, order), Target(lib, order, lib.priceAt(tickNext)))
            && AtOrBeyond(order, PriceLimit(lib, order), s.price)
  {
    var tickNext := Clamp(t.index, lib.minTick, lib.maxTick);
    PriceOrder(lib, lib.minTick, s.tick);
    if order.zeroForOne {
      PriceOrder(lib, tickNext, s.tick);
    } else {
      PriceOrder(lib, s.tick + 1, tickNext);
    }
  }

  /** The amounts of one step, as the loop books them. */
  predicate Booked(order: Order, s: SwapState, hop: Hop) {
    && hop.after.remaining == s.remaining - Consumed(order, hop.step)
    && hop.after.calculated == s.calculated + Produced(order, hop.step)
    && 0 <= hop.after.remaining <= s.remaining
    && s.calculated <= hop.after.calculated <= U64_MAX
  }

  /** The tick after a step that stopped before `t`: still between `t` and where it was. */
  predicate StoppedShort(order: Order, s: SwapState, t: Tick, after: SwapState) {
    && after.liquidity == s.liquidity
    && if order.zeroForOne then t.index <= after.tick <= s.tick else s.tick <= after.tick < t.index
  }

  /** What a pass that goes through asked of the library and did with the answer. */
  lemma AdvanceShape(lib: Library, order: Order, s: SwapState, t: Tick)
    requires StepContract(lib) && s.remaining > 0 && s.calculated >= 0
    requires AtOrBeyond(order, Target(lib, order, lib.priceAt(Clamp(t.index, lib.minTick, lib.maxTick))), s.price)
    requires Advance(lib, order, s, t).Success?
    ensures var hop := Advance(lib, order, s, t).value;
            var target := Target(lib, order, lib.priceAt(Clamp(t.index, lib.minTick, lib.maxTick)));
            && hop.tick == t && !t.hasLimitOrders && Booked(order, s, hop)
            && hop.after.price == hop.step.priceNext
            && AtOrBeyond(order, hop.after.price, s.price) && AtOrBeyond(order, target, hop.after.price)
            && (hop.after.price != target ==> hop.after.remaining == 0)
            && (if hop.after.price == lib.priceAt(Clamp(t.index, lib.minTick, lib.maxTick))
                then hop.after.liquidity == s.liquidity + (if order.zeroForOne then -t.liquidityNet else t.liquidityNet)
                     && hop.after.tick == Clamp(t.index, lib.minTick, lib.maxTick) - (if order.zeroForOne then 1 else 0)
                else hop.after.liquidity == s.liquidity
                     && hop.after.tick == if hop.after.price != s.price then lib.tickAt(hop.after.price) else s.tick)
  {
    var target := Target(lib, order, lib.priceAt(Clamp(t.index, lib.minTick, lib.maxTick)));
    var q := StepRequest(s.price, target, s.liquidity, s.remaining, order);
    var step := lib.compute(q).value;
    hide Clamp, Target;
    assert Advance(lib, order, s, t).value.step == step;
  }

  /** One pass of the loop: it books what the step moved, keeps the price consistent, moves only
      towards the limit, and either crosses `t` or is the last pass. */
  lemma AdvanceKeeps(lib: Library, order: Order, s: SwapState, t: Tick)
    requires LibraryContract(lib) && Consistent(lib, s) && !Finished(lib, order, s)
    requires s.remaining >= 0 && s.calculated >= 0
    requires Ahead(order, t.index, s.tick)
    requires Advance(lib, order, s, t).Success?
    ensures var hop := Advance(lib, order, s, t).value;
            && hop.tick == t && !t.hasLimitOrders && Booked(order, s, hop)
            && Consistent(lib, hop.after)
            && AtOrBeyond(order, hop.after.price, s.price)
            && AtOrBeyond(order, PriceLimit(lib, order), hop.after.price)
            && if Crossed(lib, order, t, hop.after)
               then hop.after.liquidity == s.liquidity + (if order.zeroForOne then -t.liquidityNet else t.liquidityNet)
               else StoppedShort(order, s, t, hop.after) && Finished(lib, order, hop.after)
  {
    TargetIsAhead(lib, order, s, t);
    AdvanceShape(lib, order, s, t);
    hide Advance;
    var tickNext := Clamp(t.index, lib.minTick, lib.maxTick);
    var after := Advance(lib, order, s, t).value.after;
    if after.price == lib.priceAt(tickNext) {
      PriceOrder(lib, lib.minTick, lib.minTick + 1);
      PriceOrder(lib, lib.minTick + 1, lib.maxTick);
      CrossingIsInRange(lib, order, t, after.price);
    } else {
      ShortStop(lib, order, s, t, after);
    }
  }

  /** A price strictly inside the limits is never that of an extreme tick in the swap's direction. */
  lemma CrossingIsInRange(lib: Library, order: Order, t: Tick, price: int)
    requires PricesIncrease(lib)
    requires price == lib.priceAt(Clamp(t.index, lib.minTick, lib.maxTick))
    requires AtOrBeyond(order, PriceLimit(lib, order), price)
    ensures if order.zeroForOne then lib.minTick < Clamp(t.index, lib.minTick, lib.maxTick)
            else Clamp(t.index, lib.minTick, lib.maxTick) < lib.maxTick
  {
  }

  lemma ShortStop(lib: Library, order: Order, s: SwapState, t: Tick, after: SwapState)
    requires LibraryContract(lib) && Consistent(lib, s) && !Finished(lib, order, s)
    requires Ahead(order, t.index, s.tick)
    requires var priceNext := lib.priceAt(Clamp(t.index, lib.minTick, lib.maxTick));
             && after.price != priceNext && AtOrBeyond(order, priceNext, after.price)
             && AtOrBeyond(order, after.price, s.price)
             && AtOrBeyond(order, PriceLimit(lib, order), after.price)
    requires after.liquidity == s.liquidity
    requires after.tick == if after.price != s.price then lib.tickAt(after.price) else s.tick
    ensures Consistent(lib, after) && StoppedShort(order, s, t, after)
  {
    TargetIsAhead(lib, order, s, t);
    var tickNext := Clamp(t.index, lib.minTick, lib.maxTick);
    PriceOrder(lib, lib.minTick, lib.minTick + 1);
    PriceOrder(lib, lib.minTick + 1, lib.maxTick);
    if after.price != s.price {
      var x := lib.tickAt(after.price);
      assert lib.priceAt(x) <= after.price < lib.priceAt(x + 1);
      if order.zeroForOne {
        if x < tickNext { PriceOrder(lib, x + 1, tickNext); }
        if s.tick < x { PriceOrder(lib, s.tick + 1, x); }
      } else {
        if x < s.tick { PriceOrder(lib, x + 1, s.tick); }
        if tickNext <= x { PriceOrder(lib, tickNext, x); }
      }
    }
  }
}
