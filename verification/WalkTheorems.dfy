/** What every walk keeps: amounts, price, active liquidity, and the ticks it visits. */
module WalkTheorems {
  import opened Wrappers
  import opened MachineInts
  import opened TickWalk

  // ---------------------------------------------------------------- active liquidity

  /** The sum of `liquidityNet` over all initialised ticks at or below `x`. */
  function NetAtOrBelow(ticks: seq<Tick>, x: int): int {
    if ticks == [] then 0
    else (if ticks[0].index <= x then ticks[0].liquidityNet else 0) + NetAtOrBelow(ticks[1..], x)
  }

  lemma {:induction false} NetAcrossGap(ticks: seq<Tick>, x: int, y: int)
    requires x <= y && forall t :: t in ticks ==> !(x < t.index <= y)
    ensures NetAtOrBelow(ticks, x) == NetAtOrBelow(ticks, y)
  {
    if ticks != [] {
      assert ticks[0] in ticks;
      NetAcrossGap(ticks[1..], x, y);
    }
  }

  lemma {:induction false} NetAtTick(ticks: seq<Tick>, t: Tick)
    requires DistinctTicks(ticks) && t in ticks
    ensures NetAtOrBelow(ticks, t.index) == NetAtOrBelow(ticks, t.index - 1) + t.liquidityNet
  {
    if ticks[0] == t {
      NetAcrossGap(ticks[1..], t.index - 1, t.index);
    } else {
      assert ticks[0].index != t.index;
      NetAtTick(ticks[1..], t);
    }
  }

  predicate LiquidityMatches(ticks: seq<Tick>, s: SwapState) {
    s.liquidity == NetAtOrBelow(ticks, s.tick)
  }

  /** What holds at every loop head. */
  ghost predicate HeadInvariant(lib: Library, ticks: seq<Tick>, s: SwapState) {
    && Consistent(lib, s)
    && 0 <= s.remaining && 0 <= s.calculated
    && LiquidityMatches(ticks, s)
  }

  lemma {:induction false} AdvanceKeepsLiquidity(lib: Library, order: Order, ticks: seq<Tick>, s: SwapState, t: Tick)
    requires LibraryContract(lib) && DistinctTicks(ticks) && HeadInvariant(lib, ticks, s)
    requires !Finished(lib, order, s) && Nearest(ticks, order, s.tick) == Some(t)
    requires Advance(lib, order, s, t).Success?
    ensures HeadInvariant(lib, ticks, Advance(lib, order, s, t).value.after)
  {
    AdvanceKeeps(lib, order, s, t);
    var after := Advance(lib, order, s, t).value.after;
    if Crossed(lib, order, t, after) {
      NetAtTick(ticks, t);
      if order.zeroForOne {
        NetAcrossGap(ticks, t.index, s.tick);
      } else {
        NetAcrossGap(ticks, s.tick, t.index - 1);
      }
    } else if order.zeroForOne {
      NetAcrossGap(ticks, after.tick, s.tick);
    } else {
      NetAcrossGap(ticks, s.tick, after.tick);
    }
  }

  /** The states at the heads of the loop, whether the walk ends or fails. */
  function Heads(lib: Library, order: Order, ticks: seq<Tick>, s: SwapState, fuel: nat): seq<SwapState>
    decreases fuel
  {
    if fuel == 0 then []
    else if Finished(lib, order, s) then [s]
    else
      match Nearest(ticks, order, s.tick)
      case None => [s]
      case Some(t) =>
        match Advance(lib, order, s, t)
        case Failure(_) => [s]
        case Success(hop) => [s] + Heads(lib, order, ticks, hop.after, fuel - 1)
  }

  /** At every loop head of every walk, one that fails later included, the active liquidity is the sum of
      `liquidityNet` over the ticks at or below the current one. */
  lemma {:induction false} LiquidityAtEveryHead(lib: Library, order: Order, ticks: seq<Tick>, s: SwapState, fuel: nat)
    requires LibraryContract(lib) && DistinctTicks(ticks) && HeadInvariant(lib, ticks, s)
    ensures forall h :: h in Heads(lib, order, ticks, s, fuel) ==> HeadInvariant(lib, ticks, h)
    ensures var w := Walk(lib, order, ticks, s, fuel);
            w.Ended? ==> HeadInvariant(lib, ticks, w.final)
                         && forall h :: h in w.hops ==> HeadInvariant(lib, ticks, h.after)
    decreases fuel
  {
    hide Advance, Nearest, HeadInvariant;
    if fuel > 0 && !Finished(lib, order, s) && Nearest(ticks, order, s.tick).Some? {
      var t := Nearest(ticks, order, s.tick).value;
      if Advance(lib, order, s, t).Success? {
        AdvanceKeepsLiquidity(lib, order, ticks, s, t);
        LiquidityAtEveryHead(lib, order, ticks, Advance(lib, order, s, t).value.after, fuel - 1);
      }
    }
  }

  // ---------------------------------------------------------------- what the library is asked, and when a walk fails

  /** The index of the next tick, cut off at the ends of the tick range. */
  function NextIndex(lib: Library, t: Tick): int {
    if t.index < lib.minTick then lib.minTick else if t.index > lib.maxTick then lib.maxTick else t.index
  }

  /** The step a head state asks for on the way to `t`: from its price, towards the tick or the limit,
      whichever comes first, with the sum of the nets at or below its tick, for what remains. */
  function Asked(lib: Library, order: Order, ticks: seq<Tick>, h: SwapState, t: Tick): StepRequest {
    var lowest, highest := lib.priceAt(lib.minTick) + 1, lib.priceAt(lib.maxTick) - 1;
    var next := lib.priceAt(NextIndex(lib, t));
    var target := if order.zeroForOne then (if next < lowest then lowest else next)
                  else if next > highest then highest else next;
    StepRequest(h.price, target, NetAtOrBelow(ticks, h.tick), h.remaining, order)
  }

  /** Something is left to swap, the price is not at the limit, and the tick is not at an extreme. */
  predicate GoesOn(lib: Library, order: Order, h: SwapState) {
    && h.remaining != 0 && lib.minTick < h.tick < lib.maxTick
    && h.price != (if order.zeroForOne then lib.priceAt(lib.minTick) + 1 else lib.priceAt(lib.maxTick) - 1)
  }

  function Taken(order: Order, step: Step): int {
    if order.exactIn then step.amountIn + step.fee else step.amountOut
  }

  function Given(order: Order, step: Step): int {
    if order.exactIn then step.amountOut else step.amountIn + step.fee
  }

  predicate StepBooks(order: Order, h: SwapState, step: Step) {
    step.amountIn + step.fee <= U64_MAX && h.calculated + Given(order, step) <= U64_MAX
  }

  /** Crossing `t` overflows: the negated net or the new liquidity does not fit. */
  predicate CrossingOverflows(order: Order, ticks: seq<Tick>, h: SwapState, t: Tick) {
    var liquidity := NetAtOrBelow(ticks, h.tick) + (if order.zeroForOne then -t.liquidityNet else t.liquidityNet);
    (order.zeroForOne && t.liquidityNet == I128_MIN) || liquidity < 0 || liquidity > U128_MAX
  }

  /** One pass, from its head state: the nearest tick, the library's answer to exactly that question, and
      the state after it. */
  ghost predicate PassIs(lib: Library, order: Order, ticks: seq<Tick>, h: SwapState, hop: Hop) {
    var t, step, after := hop.tick, hop.step, hop.after;
    var next := lib.priceAt(NextIndex(lib, t));
    && GoesOn(lib, order, h)
    && IsNearest(ticks, order, h.tick, t) && !t.hasLimitOrders
    && lib.compute(Asked(lib, order, ticks, h, t)) == Some(step)
    && StepBooks(order, h, step)
    && after.remaining == h.remaining - Taken(order, step) && after.calculated == h.calculated + Given(order, step)
    && after.price == step.priceNext
    && after.liquidity == NetAtOrBelow(ticks, after.tick)
    && (step.priceNext == next ==> !CrossingOverflows(order, ticks, h, t))
    && after.tick == if step.priceNext == next then NextIndex(lib, t) - (if order.zeroForOne then 1 else 0)
                     else if step.priceNext != h.price then lib.tickAt(step.priceNext) else h.tick
  }

  lemma {:induction false} OnePass(lib: Library, order: Order, ticks: seq<Tick>, h: SwapState, t: Tick)
    requires LibraryContract(lib) && DistinctTicks(ticks) && HeadInvariant(lib, ticks, h)
    requires !Finished(lib, order, h) && Nearest(ticks, order, h.tick) == Some(t)
    requires Advance(lib, order, h, t).Success?
    ensures PassIs(lib, order, ticks, h, Advance(lib, order, h, t).value)
  {
    hide LibraryContract, NetAtOrBelow, DistinctTicks;
    AdvanceKeepsLiquidity(lib, order, ticks, h, t);
  }

  /** The head state of pass `k` of a walk from `s`. */
  function HeadOf(s: SwapState, hops: seq<Hop>, k: nat): SwapState
    requires k < |hops|
  {
    if k == 0 then s else hops[k - 1].after
  }

  /** Every pass of every walk asks the library for the step from its head state with the active
      liquidity, and does with the answer what it says. */
  lemma {:induction false} EveryPassIsRight(lib: Library, order: Order, ticks: seq<Tick>, s: SwapState, fuel: nat)
    requires LibraryContract(lib) && DistinctTicks(ticks) && HeadInvariant(lib, ticks, s)
    requires Walk(lib, order, ticks, s, fuel).Ended?
    ensures var hops := Walk(lib, order, ticks, s, fuel).hops;
            forall k :: 0 <= k < |hops| ==> PassIs(lib, order, ticks, HeadOf(s, hops, k), hops[k])
    ensures var w := Walk(lib, order, ticks, s, fuel);
            w.final == (if w.hops == [] then s else w.hops[|w.hops| - 1].after) && !GoesOn(lib, order, w.final)
    decreases fuel
  {
    hide Advance, Nearest, PassIs, HeadInvariant, LibraryContract;
    if !Finished(lib, order, s) {
      var t := Nearest(ticks, order, s.tick).value;
      var hop := Advance(lib, order, s, t).value;
      OnePass(lib, order, ticks, s, t);
      AdvanceKeepsLiquidity(lib, order, ticks, s, t);
      EveryPassIsRight(lib, order, ticks, hop.after, fuel - 1);
      var hops, rest := Walk(lib, order, ticks, s, fuel).hops, Walk(lib, order, ticks, hop.after, fuel - 1).hops;
      forall k | 0 <= k < |hops|
        ensures PassIs(lib, order, ticks, HeadOf(s, hops, k), hops[k])
      {
        if k > 0 {
          assert hops[k] == rest[k - 1] && HeadOf(s, hops, k) == HeadOf(hop.after, rest, k - 1);
        }
      }
    }
  }

  /** Why a pass from the head state `h` fails. */
  ghost predicate Cause(lib: Library, order: Order, ticks: seq<Tick>, h: SwapState, e: QuoteError) {
    && GoesOn(lib, order, h)
    && if e == ArraysExhausted then forall u :: u in ticks ==> !Ahead(order, u.index, h.tick)
       else exists t :: IsNearest(ticks, order, h.tick, t) && StepCause(lib, order, ticks, h, t, e)
  }

  predicate StepCause(lib: Library, order: Order, ticks: seq<Tick>, h: SwapState, t: Tick, e: QuoteError) {
    var answer := lib.compute(Asked(lib, order, ticks, h, t));
    match e
    case LimitOrders => t.hasLimitOrders
    case StepFailed => !t.hasLimitOrders && answer.None?
    case AmountOverflow => !t.hasLimitOrders && answer.Some? && !StepBooks(order, h, answer.value)
    case LiquidityOverflow =>
      && !t.hasLimitOrders && answer.Some? && answer.value.priceNext == lib.priceAt(NextIndex(lib, t))
      && CrossingOverflows(order, ticks, h, t)
    case _ => false
  }

  lemma {:induction false} OneFailure(lib: Library, order: Order, ticks: seq<Tick>, h: SwapState, t: Tick)
    requires LibraryContract(lib) && DistinctTicks(ticks) && HeadInvariant(lib, ticks, h)
    requires !Finished(lib, order, h) && Nearest(ticks, order, h.tick) == Some(t)
    requires Advance(lib, order, h, t).Failure?
    ensures Cause(lib, order, ticks, h, Advance(lib, order, h, t).error)
  {
    var e := Advance(lib, order, h, t).error;
    TargetIsAhead(lib, order, h, t);
    hide NetAtOrBelow, DistinctTicks, PricesIncrease, TickAtIsFloor;
    assert IsNearest(ticks, order, h.tick, t);
    assert StepCause(lib, order, ticks, h, t, e);
  }

  /** A walk fails in the pass from its last head state, for the cause its error names; or it has made
      all its passes. */
  lemma {:induction false} FailureHasCause(lib: Library, order: Order, ticks: seq<Tick>, s: SwapState, fuel: nat)
    requires LibraryContract(lib) && DistinctTicks(ticks) && HeadInvariant(lib, ticks, s)
    requires Walk(lib, order, ticks, s, fuel).Failed?
    ensures var e, heads := Walk(lib, order, ticks, s, fuel).error, Heads(lib, order, ticks, s, fuel);
            if e == TraversalLimit then |heads| == fuel
            else heads != [] && Cause(lib, order, ticks, heads[|heads| - 1], e)
    decreases fuel
  {
    hide Advance, Nearest, Cause, HeadInvariant, LibraryContract;
    if fuel > 0 {
      var r := Nearest(ticks, order, s.tick);
      if r.None? {
        NoTickLeft(lib, order, ticks, s);
      } else if Advance(lib, order, s, r.value).Failure? {
        StepErrors(lib, order, s, r.value);
        OneFailure(lib, order, ticks, s, r.value);
      } else {
        AdvanceKeepsLiquidity(lib, order, ticks, s, r.value);
        FailureHasCause(lib, order, ticks, Advance(lib, order, s, r.value).value.after, fuel - 1);
      }
    }
  }

  lemma {:induction false} NoTickLeft(lib: Library, order: Order, ticks: seq<Tick>, h: SwapState)
    requires !Finished(lib, order, h) && Nearest(ticks, order, h.tick).None?
    ensures Cause(lib, order, ticks, h, ArraysExhausted)
  {
  }

  // ---------------------------------------------------------------- conservation and exit

  function SumIn(hops: seq<Hop>): int {
    if hops == [] then 0 else hops[0].step.amountIn + hops[0].step.fee + SumIn(hops[1..])
  }

  function SumOut(hops: seq<Hop>): int {
    if hops == [] then 0 else hops[0].step.amountOut + SumOut(hops[1..])
  }

  /** Nothing is lost between the steps and the totals; the price moves only in the swap's
      direction, never past the limit; and the walk ends only for one of the three reasons. */
  lemma {:induction false} SwapConservation(lib: Library, order: Order, ticks: seq<Tick>, s: SwapState, fuel: nat)
    requires LibraryContract(lib) && Consistent(lib, s) && 0 <= s.remaining && 0 <= s.calculated
    requires Walk(lib, order, ticks, s, fuel).Ended?
    ensures var w := Walk(lib, order, ticks, s, fuel);
            && s.remaining - w.final.remaining == (if order.exactIn then SumIn(w.hops) else SumOut(w.hops))
            && w.final.calculated - s.calculated == (if order.exactIn then SumOut(w.hops) else SumIn(w.hops))
            && 0 <= w.final.remaining <= s.remaining
            && AtOrBeyond(order, w.final.price, s.price)
            && (w.final.price == s.price || AtOrBeyond(order, PriceLimit(lib, order), w.final.price))
            && (w.final.remaining == 0 || w.final.price == PriceLimit(lib, order)
                || w.final.tick >= lib.maxTick || w.final.tick <= lib.minTick)
    decreases fuel
  {
    hide Advance, Nearest;
    if !Finished(lib, order, s) {
      var t := Nearest(ticks, order, s.tick).value;
      AdvanceKeeps(lib, order, s, t);
      var hop := Advance(lib, order, s, t).value;
      SwapConservation(lib, order, ticks, hop.after, fuel - 1);
      var rest := Walk(lib, order, ticks, hop.after, fuel - 1).hops;
      assert ([hop] + rest)[1..] == rest;
    }
  }

  // ---------------------------------------------------------------- the ticks visited

  predicate InSwapOrder(order: Order, hops: seq<Hop>) {
    forall i, j :: 0 <= i < j < |hops| ==>
      AtOrBeyond(order, hops[j].tick.index, hops[i].tick.index) && hops[i].tick.index != hops[j].tick.index
  }

  /** The visited ticks are ticks of the pool that were ahead at the start, and they run strictly in
      the swap's direction, so none is visited twice. */
  lemma {:induction false} VisitedInOrder(lib: Library, order: Order, ticks: seq<Tick>, s: SwapState, fuel: nat)
    requires LibraryContract(lib) && Consistent(lib, s) && 0 <= s.remaining && 0 <= s.calculated
    requires Walk(lib, order, ticks, s, fuel).Ended?
    ensures var w := Walk(lib, order, ticks, s, fuel);
            && (forall h :: h in w.hops ==> h.tick in ticks && Ahead(order, h.tick.index, s.tick))
            && InSwapOrder(order, w.hops)
            && (if order.zeroForOne then w.final.tick <= s.tick else s.tick <= w.final.tick)
    decreases fuel
  {
    hide Advance, Nearest;
    if !Finished(lib, order, s) {
      var t := Nearest(ticks, order, s.tick).value;
      AdvanceKeeps(lib, order, s, t);
      var hop := Advance(lib, order, s, t).value;
      VisitedInOrder(lib, order, ticks, hop.after, fuel - 1);
      var rest := Walk(lib, order, ticks, hop.after, fuel - 1).hops;
      if !Crossed(lib, order, t, hop.after) {
        assert rest == [];
      }
      Prefixed(order, hop, rest);
    }
  }

  lemma Prefixed(order: Order, hop: Hop, rest: seq<Hop>)
    requires InSwapOrder(order, rest)
    requires forall h :: h in rest ==>
               AtOrBeyond(order, h.tick.index, hop.tick.index) && h.tick.index != hop.tick.index
    ensures InSwapOrder(order, [hop] + rest)
  {
    var all := [hop] + rest;
    forall i, j | 0 <= i < j < |all|
      ensures AtOrBeyond(order, all[j].tick.index, all[i].tick.index) && all[i].tick.index != all[j].tick.index
    {
      assert all[j] == rest[j - 1] && all[j] in rest;
      if i > 0 { assert all[i] == rest[i - 1]; }
    }
  }

  /** Every tick that was ahead at the start and no longer is at the end has been visited. */
  lemma {:induction false} NoTickSkipped(lib: Library, order: Order, ticks: seq<Tick>, s: SwapState, fuel: nat, u: Tick)
    requires LibraryContract(lib) && DistinctTicks(ticks) && Consistent(lib, s) && 0 <= s.remaining && 0 <= s.calculated
    requires Walk(lib, order, ticks, s, fuel).Ended?
    requires u in ticks && Ahead(order, u.index, s.tick)
    requires !Ahead(order, u.index, Walk(lib, order, ticks, s, fuel).final.tick)
    ensures exists h :: h in Walk(lib, order, ticks, s, fuel).hops && h.tick == u
    decreases fuel
  {
    hide Advance, Nearest;
    var t := Nearest(ticks, order, s.tick).value;
    AdvanceKeeps(lib, order, s, t);
    var hop := Advance(lib, order, s, t).value;
    var w := Walk(lib, order, ticks, s, fuel);
    assert w.hops[0] == hop && hop in w.hops;
    if u != t {
      var i, j :| 0 <= i < |ticks| && 0 <= j < |ticks| && ticks[i] == t && ticks[j] == u;
      assert u.index != t.index;
      NoTickSkipped(lib, order, ticks, hop.after, fuel - 1, u);
      var h :| h in Walk(lib, order, ticks, hop.after, fuel - 1).hops && h.tick == u;
      assert h in w.hops;
    }
  }

  // ---------------------------------------------------------------- the traversal limit

  function CountAhead(ticks: seq<Tick>, order: Order, tick: int): nat {
    if ticks == [] then 0
    else (if Ahead(order, ticks[0].index, tick) then 1 else 0) + CountAhead(ticks[1..], order, tick)
  }

  lemma {:induction false} FewerAhead(ticks: seq<Tick>, order: Order, tick: int, tick': int, t: Tick)
    requires forall u :: u in ticks && Ahead(order, u.index, tick') ==> Ahead(order, u.index, tick)
    ensures CountAhead(ticks, order, tick') <= CountAhead(ticks, order, tick)
    ensures t in ticks && Ahead(order, t.index, tick) && !Ahead(order, t.index, tick') ==>
              CountAhead(ticks, order, tick') < CountAhead(ticks, order, tick)
  {
    if ticks != [] {
      assert ticks[0] in ticks;
      FewerAhead(ticks[1..], order, tick, tick', t);
    }
  }

  lemma StepErrors(lib: Library, order: Order, s: SwapState, t: Tick)
    ensures Advance(lib, order, s, t) != Failure(TraversalLimit)
  {
  }

  /** Every pass that does not end the walk crosses a further tick, so the 64-pass limit can only be
      hit with at least 64 initialised ticks ahead. */
  lemma {:induction false} LimitNeedsManyTicks(lib: Library, order: Order, ticks: seq<Tick>, s: SwapState, fuel: nat)
    requires LibraryContract(lib) && Consistent(lib, s) && 0 <= s.remaining && 0 <= s.calculated
    requires CountAhead(ticks, order, s.tick) < fuel
    ensures Walk(lib, order, ticks, s, fuel) != Failed(TraversalLimit)
    ensures Walk(lib, order, ticks, s, fuel).Ended? ==>
              |Walk(lib, order, ticks, s, fuel).hops| <= CountAhead(ticks, order, s.tick)
    decreases fuel
  {
    hide Advance, Nearest;
    if !Finished(lib, order, s) {
      var r := Nearest(ticks, order, s.tick);
      if r.Some? {
        var t := r.value;
        FewerAhead(ticks, order, s.tick, if order.zeroForOne then t.index - 1 else t.index, t);
        StepErrors(lib, order, s, t);
        if Advance(lib, order, s, t).Success? {
          AdvanceKeeps(lib, order, s, t);
          var after := Advance(lib, order, s, t).value.after;
          if Crossed(lib, order, t, after) {
            LimitNeedsManyTicks(lib, order, ticks, after, fuel - 1);
          }
        }
      }
    }
  }
}
