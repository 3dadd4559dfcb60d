/** What observations, base prices, transform stages and published points mean, in terms of the numbers
    they are computed from. */
module PriceLaws {
  import opened Wrappers
  import opened MachineInts
  import opened Prices
  import opened Decimals
  import opened Instruments
  import opened Engine
  import opened NonInterference
  import opened CacheAgreement
  import opened Runs

  // ---------------------------------------------------------------- observations

  /** A price that is there and has a decimal. */
  predicate Readable(p: Option<Price>) { p.Some? && ToDecimal(p.value).Some? }

  lemma ReduceAggregate(num: Numerics, price: Price, conf: Option<Price>)
    ensures var v := ToDecimal(price);
            Reduce(num, Aggregate(price, conf)) ==
              if v.None? then None
              else Some(Reduced(v.value, if Readable(conf) then num.div(ToDecimal(conf.value).value, v.value)
                else None))
  {
    hide ToDecimal;
  }

  /** An aggregate is worth its price; its ratio is the confidence over the price. */
  lemma AggregateLaw(num: Numerics, price: Price, conf: Option<Price>)
    requires Exact(num)
    ensures var r := Reduce(num, Aggregate(price, conf));
            && (r.Some? <==> ToDecimal(price).Some?)
            && (r.Some? ==>
                  && r.value.value == Worth(price)
                  && (r.value.confRatio.Some? <==> Readable(conf) && num.div(Worth(conf.value), Worth(price)).Some?)
                  && (r.value.confRatio.Some? ==> r.value.confRatio.value * Worth(price) == Worth(conf.value)))
  {
    hide ToDecimal, Worth, Reduce, Exact;
    ReduceAggregate(num, price, conf);
    ToDecimalIsExact(price);
    if Readable(conf) {
      ToDecimalIsExact(conf.value);
      if num.div(Worth(conf.value), Worth(price)).Some? {
        Divides(num, Worth(conf.value), Worth(price));
      }
    }
  }

  lemma ReduceTopOfBook(num: Numerics, bid: Price, ask: Price)
    ensures var r := Reduce(num, TopOfBook(bid, ask));
            if ToDecimal(bid).None? || ToDecimal(ask).None? then r.None?
            else
              var b, a := ToDecimal(bid).value, ToDecimal(ask).value;
              var mid := if num.add(b, a).None? then None else num.div(num.add(b, a).value, 2.0);
              var half := if num.sub(a, b).None? then None else num.div(AbsReal(num.sub(a, b).value), 2.0);
              r == if mid.None? || half.None? then None else Some(Reduced(mid.value, num.div(half.value, mid.value)))
  {
    hide ToDecimal, AbsReal;
  }

  /** The distance of the two sides of a book. */
  function Spread(bid: Price, ask: Price): (s: real)
    ensures s >= 0.0
  {
    if Worth(bid) <= Worth(ask) then Worth(ask) - Worth(bid) else Worth(bid) - Worth(ask)
  }

  /** A top of book is used exactly when both sides have decimals and the sums and halves go through. It is
      worth the middle of its two sides; its ratio is half their distance over that. */
  lemma TopOfBookLaw(num: Numerics, bid: Price, ask: Price)
    requires Exact(num)
    ensures var r := Reduce(num, TopOfBook(bid, ask));
            && (r.Some? <==>
                  && ToDecimal(bid).Some? && ToDecimal(ask).Some?
                  && num.add(Worth(bid), Worth(ask)).Some? && num.div(Worth(bid) + Worth(ask), 2.0).Some?
                  && num.sub(Worth(ask), Worth(bid)).Some? && num.div(Spread(bid, ask), 2.0).Some?)
            && (r.Some? ==>
                  && r.value.value * 2.0 == Worth(bid) + Worth(ask)
                  && (r.value.confRatio.Some? <==> num.div(Spread(bid, ask) / 2.0, r.value.value).Some?)
                  && (r.value.confRatio.Some? ==> r.value.confRatio.value * r.value.value == Spread(bid, ask) / 2.0))
  {
    hide ToDecimal, Worth, Reduce, Exact;
    ReduceTopOfBook(num, bid, ask);
    ToDecimalIsExact(bid);
    ToDecimalIsExact(ask);
    var b, a := Worth(bid), Worth(ask);
    AddsAndSubtracts(num, b, a);
    AddsAndSubtracts(num, a, b);
    if num.sub(a, b).Some? { assert AbsReal(num.sub(a, b).value) == Spread(bid, ask); }
    if num.div(b + a, 2.0).Some? { Divides(num, b + a, 2.0); }
    if num.div(Spread(bid, ask), 2.0).Some? {
      Divides(num, Spread(bid, ask), 2.0);
      var r := Reduce(num, TopOfBook(bid, ask));
      if r.Some? && r.value.confRatio.Some? {
        Divides(num, Spread(bid, ask) / 2.0, r.value.value);
      }
    }
  }

  /** A trade is worth its price and says nothing about confidence. */
  lemma TradeLaw(num: Numerics, price: Price)
    ensures var r := Reduce(num, Trade(price));
            && (r.Some? <==> ToDecimal(price).Some?)
            && (r.Some? ==> r.value.value == Worth(price) && r.value.confRatio.None?)
  {
    ToDecimalIsExact(price);
    hide ToDecimal, Worth;
  }

  // ---------------------------------------------------------------- the latest observation

  /** The last observation of a feed on a tape that reduces to a value. */
  function LastSeen(num: Numerics, tape: seq<Event>, feed: Symbol): Option<Snapshot> {
    if tape == [] then None
    else
      match tape[|tape| - 1]
      case Clock(_) => LastSeen(num, tape[..|tape| - 1], feed)
      case Observed(point, _) =>
        if point.symbol == feed && Reduce(num, point.data).Some? then
          var r := Reduce(num, point.data).value;
          Some(Snapshot(r.value, r.confRatio, point.publishTime, point.slot, point.source))
        else LastSeen(num, tape[..|tape| - 1], feed)
  }

  /** After any tape the engine knows a feed exactly if the tape has an observation of it that reduces,
      and then it knows the last one: value, ratio, publish time, slot and source. */
  lemma {:induction false} LatestIsLastSeen(num: Numerics, st: EngineState, tape: seq<Event>, feed: Symbol)
    requires Valid(st) && st.latest == map[]
    ensures var latest := RunTape(num, st, tape).state.latest;
            LastSeen(num, tape, feed) == if feed in latest then Some(latest[feed]) else None
    decreases |tape|
  {
    hide Reduce, VisitAll;
    if tape != [] {
      LatestIsLastSeen(num, st, tape[..|tape| - 1], feed);
    }
  }

  /** So it is for every accepted registry. */
  lemma {:induction false} RegistryKnowsTheLast(num: Numerics, cfgs: seq<InstrumentConfig>, known: set<Symbol>,
                                                tape: seq<Event>, feed: Symbol)
    requires Build(cfgs, known).Success? && Valid(Build(cfgs, known).value)
    ensures var latest := RunTape(num, Build(cfgs, known).value, tape).state.latest;
            LastSeen(num, tape, feed) == if feed in latest then Some(latest[feed]) else None
  {
    BuildIsFresh(cfgs, known);
    LatestIsLastSeen(num, Build(cfgs, known).value, tape, feed);
  }

  // ---------------------------------------------------------------- base prices

  /** The largest of the ratios that are there. */
  predicate LargestOf(r: Option<real>, ratios: seq<Option<real>>) {
    if r.None? then forall i :: 0 <= i < |ratios| ==> ratios[i].None?
    else r in ratios && forall i :: 0 <= i < |ratios| && ratios[i].Some? ==> ratios[i].value <= r.value
  }

  /** The earliest of the times that are there. */
  predicate EarliestOf(t: Option<int>, times: seq<Option<int>>) {
    if t.None? then forall i :: 0 <= i < |times| ==> times[i].None?
    else t in times && forall i :: 0 <= i < |times| && times[i].Some? ==> t.value <= times[i].value
  }

  /** An underlying price is the feed's latest one, with all that came with it. */
  lemma UnderlyingLaw(num: Numerics, feed: Symbol, latest: Latest, now: int)
    ensures var e := EvalBase(num, Underlying(feed), latest, now);
            && e.base == Underlying(feed) && (e.ctx.Some? <==> feed in latest)
            && (e.ctx.Some? ==>
                  var c, s := e.ctx.value, latest[feed];
                  && c.value == s.value && c.confRatio == s.confRatio && c.publishTime == s.publishTime
                  && c.slot == s.slot && c.source == s.source && !c.derived)
  {
  }

  /** A cross price times the quote's price is the base's price; it has the larger ratio, the earlier
      publish time, no slot and the source of its base. */
  lemma CrossLaw(num: Numerics, base: Symbol, quote: Symbol, latest: Latest, now: int)
    requires Exact(num)
    ensures var e := EvalBase(num, Cross(base, quote), latest, now);
            && e.base == Cross(base, quote)
            && (e.ctx.Some? <==>
                  && base in latest && quote in latest
                  && num.div(latest[base].value, latest[quote].value).Some?)
            && (e.ctx.Some? ==>
                  var c, b, q := e.ctx.value, latest[base], latest[quote];
                  && c.value * q.value == b.value && q.value != 0.0
                  && LargestOf(c.confRatio, [b.confRatio, q.confRatio])
                  && EarliestOf(c.publishTime, [b.publishTime, q.publishTime])
                  && c.slot.None? && c.source == b.source && c.derived)
  {
    var e := EvalBase(num, Cross(base, quote), latest, now);
    if e.ctx.Some? {
      Divides(num, latest[base].value, latest[quote].value);
      var times := [latest[base].publishTime, latest[quote].publishTime];
      assert times[0] in times && times[1] in times;
    }
  }

  /** A peg is its target, published now. */
  lemma PegLaw(num: Numerics, target: real, latest: Latest, now: int)
    ensures var e := EvalBase(num, Peg(target), latest, now);
            e.base == Peg(target) && e.ctx == Some(EvalCtx(target, None, Some(now), None, Derived, true))
  {
  }

  /** A generator's price and confidence are those of its draw, which moves its state on in any case. */
  lemma GbmLaw(num: Numerics, tickMs: nat, gen: GenState, latest: Latest, now: int)
    ensures var e := EvalBase(num, Gbm(tickMs, gen), latest, now);
            var draw := num.gbm(gen);
            && e.base == Gbm(tickMs, draw.next)
            && (e.ctx.Some? <==> draw.value.Some? && draw.conf.Some?)
            && (e.ctx.Some? ==> e.ctx.value == EvalCtx(draw.value.value, draw.conf, Some(now), None, Derived, true))
  {
  }

  function RatiosOf(legs: seq<Leg>, latest: Latest): (r: seq<Option<real>>)
    requires forall k :: 0 <= k < |legs| ==> legs[k].feed in latest
    ensures |r| == |legs| && forall k :: 0 <= k < |legs| ==> r[k] == latest[legs[k].feed].confRatio
  {
    seq(|legs|, k requires 0 <= k < |legs| => latest[legs[k].feed].confRatio)
  }

  function TimesOf(legs: seq<Leg>, latest: Latest): (t: seq<Option<int>>)
    requires forall k :: 0 <= k < |legs| ==> legs[k].feed in latest
    ensures |t| == |legs| && forall k :: 0 <= k < |legs| ==> t[k] == latest[legs[k].feed].publishTime
  {
    seq(|legs|, k requires 0 <= k < |legs| => latest[legs[k].feed].publishTime)
  }

  lemma EarliestOneMore(t: Option<int>, times: seq<Option<int>>, more: Option<int>)
    requires EarliestOf(t, times)
    ensures EarliestOf(Older(t, more), times + [more])
  {
    var all := times + [more];
    assert all[|times|] == more;
    if t.Some? {
      var i :| 0 <= i < |times| && times[i] == t;
      assert all[i] == t;
    }
  }

  lemma {:induction false} LegsMean(num: Numerics, legs: seq<Leg>, latest: Latest)
    requires SumLegs(num, legs, latest).Some?
    ensures forall k :: 0 <= k < |legs| ==> legs[k].feed in latest
    ensures SumLegs(num, legs, latest).value.ratios == RatiosOf(legs, latest)
    ensures EarliestOf(SumLegs(num, legs, latest).value.publishTime, TimesOf(legs, latest))
    decreases |legs|
  {
    if legs != [] {
      var front, last := legs[..|legs| - 1], legs[|legs| - 1];
      LegsMean(num, front, latest);
      assert forall k :: 0 <= k < |legs| ==> legs[k] == (if k < |front| then front[k] else last);
      hide EarliestOf, Older;
      var total := SumLegs(num, front, latest).value;
      EarliestOneMore(total.publishTime, TimesOf(front, latest), latest[last.feed].publishTime);
      assert TimesOf(legs, latest) == TimesOf(front, latest) + [latest[last.feed].publishTime];
      assert RatiosOf(legs, latest) == RatiosOf(front, latest) + [latest[last.feed].confRatio];
    }
  }

  /** One more leg: its product and the sum with what is there go through. */
  predicate LegAdds(num: Numerics, sum: real, value: real, weight: real) {
    var product := num.mul(value, weight);
    product.Some? && num.add(sum, product.value).Some?
  }

  /** Every leg's feed has a price, and every product and partial sum goes through. */
  predicate LegsAddUp(num: Numerics, legs: seq<Leg>, latest: Latest) {
    && (forall k :: 0 <= k < |legs| ==> legs[k].feed in latest)
    && forall k :: 0 <= k < |legs| ==>
         LegAdds(num, WeightedSum(legs[..k], latest), latest[legs[k].feed].value, legs[k].weight)
  }

  lemma {:induction false} SumLegsWhen(num: Numerics, legs: seq<Leg>, latest: Latest)
    requires Exact(num)
    ensures SumLegs(num, legs, latest).Some? <==> LegsAddUp(num, legs, latest)
    decreases |legs|
  {
    hide Exact, WeightedSum, LegAdds, AddLeg;
    if legs != [] {
      var n := |legs| - 1;
      var front := legs[..n];
      SumLegsWhen(num, front, latest);
      assert forall k :: 0 <= k <= n ==> legs[..k] == front[..k];
      assert forall k :: 0 <= k < n ==> legs[k] == front[k];
      assert front[..n] == front;
      if SumLegs(num, front, latest).Some? {
        SumIsExact(num, front, latest);
        LastLegAdds(num, SumLegs(num, front, latest).value, legs[n], latest);
      }
    }
  }

  lemma LastLegAdds(num: Numerics, total: LegTotal, leg: Leg, latest: Latest)
    ensures AddLeg(num, total, leg, latest).Some? <==>
              leg.feed in latest && LegAdds(num, total.sum, latest[leg.feed].value, leg.weight)
  {
  }

  /** Exactly when a basket has a price. */
  lemma {:induction false} BasketPricesWhen(num: Numerics, legs: seq<Leg>, rebase: Option<real>, factor: Option<real>,
                                            latest: Latest, now: int)
    requires Exact(num)
    ensures EvalBase(num, Basket(legs, rebase, factor), latest, now).ctx.Some? <==>
              && LegsAddUp(num, legs, latest)
              && var sum := WeightedSum(legs, latest);
                 var f := if factor.Some? then factor else if rebase.None? then Some(1.0)
                   else num.div(rebase.value, sum);
                 f.Some? && num.mul(sum, f.value).Some?
  {
    hide Exact, WeightedSum, SumLegs, LegsAddUp, MaxConf;
    SumLegsWhen(num, legs, latest);
    if SumLegs(num, legs, latest).Some? { SumIsExact(num, legs, latest); }
  }

  lemma {:induction false} EvalBasketIs(num: Numerics, legs: seq<Leg>, rebase: Option<real>, factor: Option<real>,
                                        latest: Latest, now: int)
    requires EvalBase(num, Basket(legs, rebase, factor), latest, now).ctx.Some?
    ensures SumLegs(num, legs, latest).Some?
    ensures var total := SumLegs(num, legs, latest).value;
            var f := NextFactor(num, rebase, factor, total.sum);
            && f.Some? && num.mul(total.sum, f.value).Some?
            && EvalBase(num, Basket(legs, rebase, factor), latest, now) ==
                 BaseEval(Basket(legs, rebase, f),
                   Some(EvalCtx(num.mul(total.sum, f.value).value, MaxConf(total.ratios),
                                                                total.publishTime, None, Derived, true)))
  {
    hide SumLegs, NextFactor, MaxConf;
  }

  /** A basket price is the weighted sum of its legs times its factor: the one it has, or the one it now
      gets, which is the target over the sum, or 1 without a target. Ratio and time are the largest and
      the earliest over all legs. */
  lemma {:induction false} BasketLaw(num: Numerics, legs: seq<Leg>, rebase: Option<real>, factor: Option<real>,
                                     latest: Latest, now: int)
    requires Exact(num) && EvalBase(num, Basket(legs, rebase, factor), latest, now).ctx.Some?
    ensures forall k :: 0 <= k < |legs| ==> legs[k].feed in latest
    ensures var e := EvalBase(num, Basket(legs, rebase, factor), latest, now);
            var c, sum := e.ctx.value, WeightedSum(legs, latest);
            && e.base.Basket? && e.base.legs == legs && e.base.rebase == rebase && e.base.factor.Some?
            && c.value == sum * e.base.factor.value
            && (factor.Some? ==> e.base.factor == factor)
            && (factor.None? && rebase.None? ==> e.base.factor == Some(1.0))
            && (factor.None? && rebase.Some? ==> e.base.factor.value * sum == rebase.value)
            && LargestOf(c.confRatio, RatiosOf(legs, latest))
            && EarliestOf(c.publishTime, TimesOf(legs, latest))
            && c.slot.None? && c.source == Derived && c.derived
  {
    hide EvalBase, SumLegs, EarliestOf, WeightedSum, Exact;
    EvalBasketIs(num, legs, rebase, factor, latest, now);
    LegsMean(num, legs, latest);
    SumIsExact(num, legs, latest);
    var sum := WeightedSum(legs, latest);
    var f := NextFactor(num, rebase, factor, sum).value;
    Multiplies(num, sum, f);
    if factor.None? && rebase.Some? {
      Divides(num, rebase.value, sum);
    }
  }

  // ---------------------------------------------------------------- stages

  /** Only the value has changed, and the point is marked as derived. */
  predicate OnlyValue(y: EvalCtx, x: EvalCtx) {
    && y.confRatio == x.confRatio && y.publishTime == x.publishTime && y.slot == x.slot && y.source == x.source
    && y.derived
  }

  /** Scale: times the factor, plus the offset. */
  lemma ScaleLaw(num: Numerics, factor: real, offset: real, ctx: EvalCtx, now: int)
    requires Exact(num)
    ensures var e := ApplyTransform(num, Scale(factor, offset), ctx, now);
            && e.stage == Scale(factor, offset)
            && (e.ctx.Some? <==> num.mul(ctx.value, factor).Some? && num.add(ctx.value * factor, offset).Some?)
            && (e.ctx.Some? ==> e.ctx.value.value == ctx.value * factor + offset && OnlyValue(e.ctx.value, ctx))
  {
    hide Exact;
    if num.mul(ctx.value, factor).Some? {
      Multiplies(num, ctx.value, factor);
      var m := num.mul(ctx.value, factor).value;
      assert m == ctx.value * factor;
      AddsAndSubtracts(num, m, offset);
    }
  }

  /** Invert: times the value it is 1. */
  lemma InvertLaw(num: Numerics, ctx: EvalCtx, now: int)
    requires Exact(num)
    ensures var e := ApplyTransform(num, Invert, ctx, now);
            && e.stage == Invert && (e.ctx.Some? <==> num.div(1.0, ctx.value).Some?)
            && (e.ctx.Some? ==> e.ctx.value.value * ctx.value == 1.0 && OnlyValue(e.ctx.value, ctx))
  {
    if num.div(1.0, ctx.value).Some? { Divides(num, 1.0, ctx.value); }
  }

  /** Beta: what the function of its parameters makes of the value. */
  lemma BetaLaw(num: Numerics, params: GenState, ctx: EvalCtx, now: int)
    ensures var e := ApplyTransform(num, Beta(params), ctx, now);
            && e.stage == Beta(params) && (e.ctx.Some? <==> num.beta(params, ctx.value).Some?)
            && (e.ctx.Some? ==> Some(e.ctx.value.value) == num.beta(params, ctx.value) && OnlyValue(e.ctx.value, ctx))
  {
  }

  /** Noise: times the factor drawn now; the draw moves the generator on in any case. */
  lemma NoiseLaw(num: Numerics, gen: GenState, ctx: EvalCtx, now: int)
    requires Exact(num)
    ensures var e := ApplyTransform(num, Noise(gen), ctx, now);
            var draw := num.noise(gen, now);
            && e.stage == Noise(draw.next)
            && (e.ctx.Some? <==> draw.factor.Some? && num.mul(ctx.value, draw.factor.value).Some?)
            && (e.ctx.Some? ==> e.ctx.value.value == ctx.value * draw.factor.value && OnlyValue(e.ctx.value, ctx))
  {
    var draw := num.noise(gen, now);
    if draw.factor.Some? { assert ExactOn(num, ctx.value, draw.factor.value); }
  }

  // ---------------------------------------------------------------- published points

  /** `p` is the multiple of `10^expo` nearest to `x`, to within half of it. */
  predicate Nearest10(p: Price, expo: int, x: real) {
    && p.expo == expo
    && if expo <= 0 then -0.5 <= x * Pow10(-expo) as real - p.mantissa as real <= 0.5
       else -0.5 * Pow10(expo) as real <= x - Worth(p) <= 0.5 * Pow10(expo) as real
  }

  /** A confidence that is there is the value times the ratio, to within half a unit. */
  predicate NearestConf(conf: Option<Price>, expo: int, value: real, ratio: Option<real>) {
    conf.Some? ==> ratio.Some? && Nearest10(conf.value, expo, Confidence(value, ratio.value))
  }

  /** The confidence that a ratio of a value stands for. */
  function Confidence(value: real, ratio: real): real { value * ratio }

  lemma MulIsConfidence(num: Numerics, value: real, ratio: real)
    requires Exact(num) && num.mul(value, ratio).Some?
    ensures num.mul(value, ratio).value == Confidence(value, ratio)
  {
    Multiplies(num, value, ratio);
  }

  /** The value fits the instrument's exponent. */
  predicate Quantises(num: Numerics, x: real, expo: int) {
    -28 <= expo <= 28 && Shifted(num, x, expo).Some? && FitsI128(RoundHalfEven(Shifted(num, x, expo).value))
  }

  /** What `Publish` does for one number: the nearest multiple of the unit, exactly when that fits. */
  lemma QuantisedLaw(num: Numerics, x: real, expo: int)
    requires Exact(num)
    ensures FromDecimal(num, x, expo).Success? <==> Quantises(num, x, expo)
    ensures FromDecimal(num, x, expo).Success? ==> Nearest10(FromDecimal(num, x, expo).value, expo, x)
  {
    hide FromDecimal, Pow10, Worth, Exact, Shifted, RoundHalfEven, FitsI128;
    FromDecimalSucceedsWhen(num, x, expo);
    if FromDecimal(num, x, expo).Success? {
      QuantisationError(num, x, expo);
    }
  }

  lemma PublishIs(num: Numerics, inst: Instrument, ctx: EvalCtx, now: int)
    ensures var price := FromDecimal(num, ctx.value, inst.expo);
            var product := if ctx.confRatio.None? then None else num.mul(ctx.value, ctx.confRatio.value);
            var conf := if product.None? then None
                        else match FromDecimal(num, product.value, inst.expo)
                             case Failure(_) => None
                             case Success(p) => Some(p);
            Publish(num, inst, ctx, now) ==
              if price.Failure? then None
              else Some(PricePoint(inst.symbol, Aggregate(price.value, conf), ctx.publishTime, now, ctx.slot,
                                   if ctx.derived then Derived else ctx.source))
  {
    hide FromDecimal;
  }

  /** A published point has the instrument's symbol and exponent; its price is the value and its
      confidence the value times the ratio, each to within half a unit. */
  lemma PublishLaw(num: Numerics, inst: Instrument, ctx: EvalCtx, now: int)
    requires Exact(num)
    ensures var p := Publish(num, inst, ctx, now);
            && (p.Some? <==> Quantises(num, ctx.value, inst.expo))
            && (p.Some? ==>
                  && p.value.symbol == inst.symbol && p.value.data.Aggregate?
                  && Nearest10(p.value.data.price, inst.expo, ctx.value)
                  && (p.value.data.conf.Some? <==>
                        && ctx.confRatio.Some? && num.mul(ctx.value, ctx.confRatio.value).Some?
                        && Quantises(num, Confidence(ctx.value, ctx.confRatio.value), inst.expo))
                  && NearestConf(p.value.data.conf, inst.expo, ctx.value, ctx.confRatio)
                  && p.value.publishTime == ctx.publishTime && p.value.receivedAt == now && p.value.slot == ctx.slot
                  && p.value.source == if ctx.derived then Derived else ctx.source)
  {
    hide Publish, FromDecimal, Quantises, Nearest10, Exact, Confidence;
    PublishIs(num, inst, ctx, now);
    QuantisedLaw(num, ctx.value, inst.expo);
    if ctx.confRatio.Some? && num.mul(ctx.value, ctx.confRatio.value).Some? {
      MulIsConfidence(num, ctx.value, ctx.confRatio.value);
      QuantisedLaw(num, Confidence(ctx.value, ctx.confRatio.value), inst.expo);
    }
  }

  // ---------------------------------------------------------------- from the tape to the cache

  /** An evaluation without transforms publishes the base price. */
  lemma PlainEval(num: Numerics, inst: Instrument, latest: Latest, now: int)
    requires inst.transforms == []
    ensures var b := EvalBase(num, inst.base, latest, now);
            Eval(num, inst, latest, now).point == if b.ctx.None? then None else Publish(num, inst, b.ctx.value, now)
  {
    var b := EvalBase(num, inst.base, latest, now);
    if b.ctx.Some? { NoStages(num, b.ctx.value, now); }
  }

  /** A point that quotes one feed: its value, ratio, publish time, slot and source. */
  predicate Quotes(point: PricePoint, s: Snapshot, expo: int) {
    && point.data.Aggregate? && Nearest10(point.data.price, expo, s.value)
    && NearestConf(point.data.conf, expo, s.value, s.confRatio)
    && point.publishTime == s.publishTime && point.slot == s.slot && point.source == s.source
  }

  /** A point that quotes one feed over another, as old as the older of the two. */
  predicate QuotesRatio(point: PricePoint, b: Snapshot, q: Snapshot, expo: int) {
    && point.data.Aggregate? && q.value != 0.0 && Nearest10(point.data.price, expo, b.value / q.value)
    && EarliestOf(point.publishTime, [b.publishTime, q.publishTime]) && point.slot.None? && point.source == Derived
  }

  lemma EvalQuotes(num: Numerics, inst: Instrument, feed: Symbol, latest: Latest, now: int)
    requires Exact(num) && inst.base == Underlying(feed) && inst.transforms == []
    requires feed in latest && Quantises(num, latest[feed].value, inst.expo)
    ensures var p := Eval(num, inst, latest, now).point;
            p.Some? && Quotes(p.value, latest[feed], inst.expo)
  {
    hide Exact, Quantises, Nearest10, NearestConf, Publish, Eval;
    PlainEval(num, inst, latest, now);
    var s := latest[feed];
    var ctx := EvalCtx(s.value, s.confRatio, s.publishTime, s.slot, s.source, false);
    PublishLaw(num, inst, ctx, now);
  }

  lemma EvalQuotesRatio(num: Numerics, inst: Instrument, base: Symbol, quote: Symbol, latest: Latest,
                                           now: int)
    requires Exact(num) && inst.base == Cross(base, quote) && inst.transforms == []
    requires base in latest && quote in latest
    requires var v := num.div(latest[base].value, latest[quote].value); v.Some? && Quantises(num, v.value, inst.expo)
    ensures var p := Eval(num, inst, latest, now).point;
            p.Some? && QuotesRatio(p.value, latest[base], latest[quote], inst.expo)
  {
    hide Exact, Quantises, Nearest10, EarliestOf, LargestOf, Publish, Eval;
    PlainEval(num, inst, latest, now);
    CrossLaw(num, base, quote, latest, now);
    var v := num.div(latest[base].value, latest[quote].value).value;
    Divides(num, latest[base].value, latest[quote].value);
    Ratio(v, latest[base].value, latest[quote].value);
    PublishLaw(num, inst, EvalBase(num, inst.base, latest, now).ctx.value, now);
  }

  lemma Ratio(v: real, b: real, q: real)
    requires q != 0.0 && v * q == b
    ensures v == b / q
  {
  }

  /** An instrument priced from one or two feeds, without transforms. */
  predicate Plain(inst: Instrument) { (inst.base.Underlying? || inst.base.Cross?) && inst.transforms == [] }

  predicate SamePlain(a: Instrument, b: Instrument) { Plain(b) && a == b.(nextDue := a.nextDue) }

  lemma VisitKeepsPlain(num: Numerics, inst: Instrument, latest: Latest, now: int, clocked: bool)
    requires Plain(inst)
    ensures SamePlain(Visit(num, inst, latest, now, clocked).inst, inst)
  {
    hide Publish, NextDue;
    var b := EvalBase(num, inst.base, latest, now);
    if b.ctx.Some? { NoStages(num, b.ctx.value, now); }
  }

  lemma {:induction false} BatchKeepsPlain(num: Numerics, insts: seq<Instrument>, idxs: seq<nat>, i: nat,
                                           latest: Latest,
                                           now: int, clocked: bool)
    requires ValidIndices(insts, idxs) && i < |insts| && Plain(insts[i])
    ensures SamePlain(VisitAll(num, insts, idxs, latest, now, clocked).insts[i], insts[i])
    decreases |idxs|
  {
    hide Visit;
    if idxs != [] {
      var front := idxs[..|idxs| - 1];
      BatchKeepsPlain(num, insts, front, i, latest, now, clocked);
      VisitKeepsPlain(num, VisitAll(num, insts, front, latest, now, clocked).insts[i], latest, now, clocked);
    }
  }

  /** A plain instrument keeps its configuration through any run. */
  lemma {:induction false} RunKeepsPlain(num: Numerics, st: EngineState, i: nat, tape: seq<Event>)
    requires Valid(st) && i < |st.instruments| && Plain(st.instruments[i])
    ensures var insts := RunTape(num, st, tape).state.instruments;
            i < |insts| && SamePlain(insts[i], st.instruments[i])
    decreases |tape|
  {
    hide VisitAll, Reduce;
    if tape != [] {
      var front, e := tape[..|tape| - 1], tape[|tape| - 1];
      RunKeepsPlain(num, st, i, front);
      ReactKeepsPlain(num, RunTape(num, st, front).state, i, e);
    }
  }

  lemma ReactKeepsPlain(num: Numerics, st: EngineState, i: nat, e: Event)
    requires Valid(st) && i < |st.instruments| && Plain(st.instruments[i])
    ensures var insts := React(num, st, e).state.instruments;
            i < |insts| && SamePlain(insts[i], st.instruments[i])
  {
    hide VisitAll, Reduce;
    var latest := React(num, st, e).state.latest;
    var idxs := if e.Clock? then st.timed else IndicesFor(st, e.point.symbol);
    BatchKeepsPlain(num, st.instruments, idxs, i, latest, e.now, e.Clock?);
  }

  /** The newest point of a plain instrument is what evaluating it on the last observations gives. */
  lemma {:induction false} CachedIsCurrent(num: Numerics, cfgs: seq<InstrumentConfig>, known: set<Symbol>, i: nat,
                                           tape: seq<Event>)
    requires Build(cfgs, known).Success? && i < |cfgs|
    requires Valid(Build(cfgs, known).value) && i < |Build(cfgs, known).value.instruments|
    requires Plain(Build(cfgs, known).value.instruments[i])
    ensures var inst := Build(cfgs, known).value.instruments[i];
            var run := RunTape(num, Build(cfgs, known).value, tape);
            var prices := Published(map[], run.out);
            var quote := Eval(num, inst, run.state.latest, 0).point;
            quote.Some? ==> inst.symbol in prices && SameQuote(prices[inst.symbol], quote.value)
  {
    hide Build, RunTape, Published, Eval, EvalBase;
    var start := Build(cfgs, known).value;
    var run := RunTape(num, start, tape);
    CacheAgreesWithRecompute(num, cfgs, known, i, tape, 0);
    RunKeepsPlain(num, start, i, tape);
    DueIsNotRead(num, start.instruments[i], run.state.instruments[i].nextDue, run.state.latest);
  }

  lemma DueIsNotRead(num: Numerics, inst: Instrument, due: int, latest: Latest)
    ensures Eval(num, inst.(nextDue := due), latest, 0).point == Eval(num, inst, latest, 0).point
  {
    PublishSame(num, inst, inst.(nextDue := due));
  }

  /** For every accepted registry and tape: once a feed's last observation fits the exponent, the cache
      quotes exactly that observation for an instrument that republishes the feed. */
  lemma {:induction false} CachedIsTheLast(num: Numerics, cfgs: seq<InstrumentConfig>, known: set<Symbol>, i: nat,
                                           tape: seq<Event>, feed: Symbol)
    requires Exact(num) && Build(cfgs, known).Success? && i < |cfgs|
    requires Valid(Build(cfgs, known).value) && i < |Build(cfgs, known).value.instruments|
    requires Build(cfgs, known).value.instruments[i].base == Underlying(feed)
    requires Build(cfgs, known).value.instruments[i].transforms == []
    ensures var inst := Build(cfgs, known).value.instruments[i];
            var prices := Published(map[], RunTape(num, Build(cfgs, known).value, tape).out);
            var last := LastSeen(num, tape, feed);
            last.Some? && Quantises(num, last.value.value, inst.expo) ==>
              inst.symbol in prices && Quotes(prices[inst.symbol], last.value, inst.expo)
  {
    hide Build, RunTape, Published, Eval, Exact, Quantises, Nearest10, LastSeen;
    var start := Build(cfgs, known).value;
    var inst, last := start.instruments[i], LastSeen(num, tape, feed);
    RegistryKnowsTheLast(num, cfgs, known, tape, feed);
    CachedIsCurrent(num, cfgs, known, i, tape);
    if last.Some? && Quantises(num, last.value.value, inst.expo) {
      EvalQuotes(num, inst, feed, RunTape(num, start, tape).state.latest, 0);
    }
  }

  /** For every accepted registry and tape: when a plain cross price can be computed, the cache holds it,
      and it is the last observed base value over the last observed quote value, to within half a unit. */
  lemma {:induction false} CachedCrossIsTheLastRatio(num: Numerics, cfgs: seq<InstrumentConfig>, known: set<Symbol>,
                                                     i: nat, tape: seq<Event>, base: Symbol, quote: Symbol)
    requires Exact(num) && Build(cfgs, known).Success? && i < |cfgs|
    requires Valid(Build(cfgs, known).value) && i < |Build(cfgs, known).value.instruments|
    requires Build(cfgs, known).value.instruments[i].base == Cross(base, quote)
    requires Build(cfgs, known).value.instruments[i].transforms == []
    ensures var inst := Build(cfgs, known).value.instruments[i];
            var prices := Published(map[], RunTape(num, Build(cfgs, known).value, tape).out);
            var b, q := LastSeen(num, tape, base), LastSeen(num, tape, quote);
            b.Some? && q.Some? && num.div(b.value.value, q.value.value).Some?
            && Quantises(num, num.div(b.value.value, q.value.value).value, inst.expo) ==>
              inst.symbol in prices && QuotesRatio(prices[inst.symbol], b.value, q.value, inst.expo)
  {
    hide Build, RunTape, Published, Eval, Exact, Quantises, Nearest10, EarliestOf, LastSeen;
    var start := Build(cfgs, known).value;
    var inst := start.instruments[i];
    var b, q := LastSeen(num, tape, base), LastSeen(num, tape, quote);
    RegistryKnowsTheLast(num, cfgs, known, tape, base);
    RegistryKnowsTheLast(num, cfgs, known, tape, quote);
    CachedIsCurrent(num, cfgs, known, i, tape);
    if b.Some? && q.Some? && num.div(b.value.value, q.value.value).Some?
       && Quantises(num, num.div(b.value.value, q.value.value).value, inst.expo)
    {
      EvalQuotesRatio(num, inst, base, quote, RunTape(num, start, tape).state.latest, 0);
    }
  }
}
