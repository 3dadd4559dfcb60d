/** One instrument: its base price, its transform pipeline, and their evaluation. */
module Instruments {
  import opened Wrappers
  import opened MachineInts
  import opened Prices
  import opened Decimals

  type Symbol = string

  datatype Source = PythHermes | PythLazer | Binance | Coinbase | Kraken | Okx | CoinGecko | Derived

  datatype PriceData =
    | Aggregate(price: Price, conf: Option<Price>)
    | TopOfBook(bid: Price, ask: Price)
    | Trade(price: Price)

  datatype PricePoint = PricePoint(
    symbol: Symbol,
    data: PriceData,
    publishTime: Option<int>,
    receivedAt: int,
    slot: Option<nat>,
    source: Source)

  /** The last observation of an underlying feed, reduced to a value. */
  datatype Snapshot = Snapshot(
    value: real,
    confRatio: Option<real>,
    publishTime: Option<int>,
    slot: Option<nat>,
    source: Source)

  type Latest = map<Symbol, Snapshot>

  datatype EvalCtx = EvalCtx(
    value: real,
    confRatio: Option<real>,
    publishTime: Option<int>,
    slot: Option<nat>,
    source: Source,
    derived: bool)

  datatype Leg = Leg(feed: Symbol, weight: real)

  datatype Base =
    | Underlying(feed: Symbol)
    | Cross(base: Symbol, quote: Symbol)
    | Basket(legs: seq<Leg>, rebase: Option<real>, factor: Option<real>)
    | Peg(target: real)
    | Gbm(tickMs: nat, gen: GenState)

  datatype LagSample = LagSample(at: int, ctx: EvalCtx)

  datatype Transform =
    | Scale(factor: real, offset: real)
    | Invert
    | Beta(params: GenState)
    | Lag(us: nat, buf: seq<LagSample>)
    | Noise(gen: GenState)

  datatype Instrument = Instrument(
    symbol: Symbol,
    expo: int,
    base: Base,
    transforms: seq<Transform>,
    nextDue: int)

  // ---------------------------------------------------------------- small pure parts

  /** The older of two times; an absent time does not count. */
  function Older(a: Option<int>, b: Option<int>): (r: Option<int>)
    ensures r.None? <==> a.None? && b.None?
    ensures r.Some? ==> (r == a || r == b)
    ensures r.Some? && a.Some? ==> r.value <= a.value
    ensures r.Some? && b.Some? ==> r.value <= b.value
  {
    if a.Some? && b.Some? then (if b.value < a.value then b else a)
    else if b.None? then a else b
  }

  function MaxConf(ratios: seq<Option<real>>): (r: Option<real>)
    ensures r.None? <==> forall i :: 0 <= i < |ratios| ==> ratios[i].None?
    ensures r.Some? ==> r in ratios
    ensures r.Some? ==> forall i :: 0 <= i < |ratios| && ratios[i].Some? ==> ratios[i].value <= r.value
  {
    if ratios == [] then None
    else
      var rest := MaxConf(ratios[1..]);
      if ratios[0].None? then rest
      else if rest.Some? && rest.value >= ratios[0].value then rest
      else ratios[0]
  }

  function AndThen<A, B>(a: Option<A>, f: A -> Option<B>): Option<B> {
    match a
    case None => None
    case Some(x) => f(x)
  }

  // ---------------------------------------------------------------- the base price

  datatype BaseEval = BaseEval(base: Base, ctx: Option<EvalCtx>)

  datatype LegTotal = LegTotal(sum: real, ratios: seq<Option<real>>, publishTime: Option<int>)

  /** The weighted sum over all legs; `None` when a feed is missing or an operation fails. */
  function SumLegs(num: Numerics, legs: seq<Leg>, latest: Latest): Option<LegTotal> {
    if legs == [] then Some(LegTotal(0.0, [], None))
    else
      match SumLegs(num, legs[..|legs| - 1], latest)
      case None => None
      case Some(total) => AddLeg(num, total, legs[|legs| - 1], latest)
  }

  function AddLeg(num: Numerics, total: LegTotal, leg: Leg, latest: Latest): Option<LegTotal> {
    if leg.feed !in latest then None
    else
      var snap := latest[leg.feed];
      match AndThen(num.mul(snap.value, leg.weight), (w: real) => num.add(total.sum, w))
      case None => None
      case Some(sum) => Some(LegTotal(sum, total.ratios + [snap.confRatio], Older(total.publishTime, snap.publishTime)))
  }

  /** The rebase factor after this evaluation: written once, on the first sum it can be computed from. */
  function NextFactor(num: Numerics, rebase: Option<real>, factor: Option<real>, sum: real): Option<real> {
    if factor.Some? then factor
    else
      match rebase
      case None => Some(1.0)
      case Some(target) => num.div(target, sum)
  }

  function EvalBasket(num: Numerics, b: Base, latest: Latest): BaseEval
    requires b.Basket?
  {
    match SumLegs(num, b.legs, latest)
    case None => BaseEval(b, None)
    case Some(total) =>
      match NextFactor(num, b.rebase, b.factor, total.sum)
      case None => BaseEval(b, None)
      case Some(f) =>
        BaseEval(b.(factor := Some(f)),
                 match num.mul(total.sum, f)
                 case None => None
                 case Some(v) => Some(EvalCtx(v, MaxConf(total.ratios), total.publishTime, None, Derived, true)))
  }

  function EvalBase(num: Numerics, b: Base, latest: Latest, now: int): BaseEval {
    match b
    case Underlying(feed) =>
      if feed !in latest then BaseEval(b, None)
      else
        var s := latest[feed];
        BaseEval(b, Some(EvalCtx(s.value, s.confRatio, s.publishTime, s.slot, s.source, false)))
    case Cross(base, quote) =>
      if base !in latest || quote !in latest then BaseEval(b, None)
      else
        var x, y := latest[base], latest[quote];
        BaseEval(b, match num.div(x.value, y.value)
                    case None => None
                    case Some(v) => Some(EvalCtx(v, MaxConf([x.confRatio, y.confRatio]),
                                                 Older(x.publishTime, y.publishTime), None, x.source, true)))
    case Basket(_, _, _) => EvalBasket(num, b, latest)
    case Peg(target) => BaseEval(b, Some(EvalCtx(target, None, Some(now), None, Derived, true)))
    case Gbm(_, gen) =>
      var draw := num.gbm(gen);
      BaseEval(b.(gen := draw.next),
               if draw.value.None? || draw.conf.None? then None
               else Some(EvalCtx(draw.value.value, draw.conf, Some(now), None, Derived, true)))
  }

  /** `eval_base`, with its loop over the basket legs. */
  method ComputeBase(num: Numerics, b: Base, latest: Latest, now: int) returns (r: BaseEval)
    ensures r == EvalBase(num, b, latest, now)
  {
    if !b.Basket? {
      return EvalBase(num, b, latest, now);
    }
    hide SumLegs, AddLeg, MaxConf;
    NoLegs(num, latest);
    var total := LegTotal(0.0, [], None);
    for i := 0 to |b.legs|
      invariant SumLegs(num, b.legs[..i], latest) == Some(total)
    {
      OneMoreLeg(num, b.legs, latest, i);
      var added := AddLeg(num, total, b.legs[i], latest);
      if added.None? {
        LegsFail(num, b.legs, latest, i + 1);
        return BaseEval(b, None);
      }
      total := added.value;
    }
    assert b.legs[..|b.legs|] == b.legs;
    var factor := b.factor;
    if factor.None? {
      match b.rebase {
        case None => factor := Some(1.0);
        case Some(target) => {
          factor := num.div(target, total.sum);
          if factor.None? { return BaseEval(b, None); }
        }
      }
    }
    var value := num.mul(total.sum, factor.value);
    if value.None? { return BaseEval(b.(factor := factor), None); }
    return BaseEval(b.(factor := factor),
                    Some(EvalCtx(value.value, MaxConf(total.ratios), total.publishTime, None, Derived, true)));
  }

  lemma {:induction false} NoLegs(num: Numerics, latest: Latest)
    ensures SumLegs(num, [], latest) == Some(LegTotal(0.0, [], None))
  {
  }

  lemma {:induction false} OneMoreLeg(num: Numerics, legs: seq<Leg>, latest: Latest, i: nat)
    requires i < |legs|
    ensures SumLegs(num, legs[..i + 1], latest)
         == match SumLegs(num, legs[..i], latest) case None => None case Some(total) => AddLeg(num, total, legs[i],
           latest)
  {
    assert legs[..i + 1][..i] == legs[..i];
  }

  lemma {:induction false} LegsFail(num: Numerics, legs: seq<Leg>, latest: Latest, i: nat)
    requires i <= |legs| && SumLegs(num, legs[..i], latest).None?
    ensures SumLegs(num, legs, latest).None?
    decreases |legs| - i
  {
    if i < |legs| {
      assert legs[..i + 1][..i] == legs[..i];
      LegsFail(num, legs, latest, i + 1);
    } else {
      assert legs[..i] == legs;
    }
  }

  // ---------------------------------------------------------------- one transform stage

  datatype StageEval = StageEval(stage: Transform, ctx: Option<EvalCtx>)

  /** How many samples at the front of the buffer are old enough to serve. */
  function Ripe(buf: seq<LagSample>, cutoff: int): (n: nat)
    ensures n <= |buf|
  {
    if buf == [] || buf[0].at > cutoff then 0 else 1 + Ripe(buf[1..], cutoff)
  }

  function Rederived(ctx: EvalCtx, value: real): EvalCtx { ctx.(value := value, derived := true) }

  function ApplyLag(us: nat, buf: seq<LagSample>, ctx: EvalCtx, now: int): StageEval {
    var pushed := buf + [LagSample(now, ctx)];
    var n := Ripe(pushed, now - us);
    StageEval(Lag(us, pushed[n..]), if n == 0 then None else Some(pushed[n - 1].ctx.(derived := true)))
  }

  function ApplyTransform(num: Numerics, t: Transform, ctx: EvalCtx, now: int): StageEval {
    match t
    case Scale(factor, offset) =>
      StageEval(t, match AndThen(num.mul(ctx.value, factor), (v: real) => num.add(v, offset))
                   case None => None
                   case Some(v) => Some(Rederived(ctx, v)))
    case Invert =>
      StageEval(t, match num.div(1.0, ctx.value) case None => None case Some(v) => Some(Rederived(ctx, v)))
    case Beta(params) =>
      StageEval(t, match num.beta(params, ctx.value) case None => None case Some(v) => Some(Rederived(ctx, v)))
    case Lag(us, buf) => ApplyLag(us, buf, ctx, now)
    case Noise(gen) =>
      var draw := num.noise(gen, now);
      StageEval(Noise(draw.next),
                match AndThen(draw.factor, (f: real) => num.mul(ctx.value, f))
                case None => None
                case Some(v) => Some(Rederived(ctx, v)))
  }

  /** `apply_transform`, with the loop that pops the lag buffer. */
  method ComputeTransform(num: Numerics, t: Transform, ctx: EvalCtx, now: int) returns (r: StageEval)
    ensures r == ApplyTransform(num, t, ctx, now)
  {
    if !t.Lag? {
      return ApplyTransform(num, t, ctx, now);
    }
    var pushed := t.buf + [LagSample(now, ctx)];
    var buf := pushed;
    var cutoff := now - t.us;
    var chosen: Option<LagSample> := None;
    ghost var n := 0;
    while buf != [] && buf[0].at <= cutoff
      invariant n <= |pushed| && buf == pushed[n..]
      invariant Ripe(pushed, cutoff) == n + Ripe(buf, cutoff)
      invariant chosen == if n == 0 then None else Some(pushed[n - 1])
      decreases |buf|
    {
      chosen, buf := Some(buf[0]), buf[1..];
      n := n + 1;
    }
    match chosen {
      case None => return StageEval(Lag(t.us, buf), None);
      case Some(sample) => return StageEval(Lag(t.us, buf), Some(sample.ctx.(derived := true)));
    }
  }

  // ---------------------------------------------------------------- the pipeline

  datatype PipeEval = PipeEval(stages: seq<Transform>, ctx: Option<EvalCtx>)

  /** The stages in order; the first one that yields nothing ends the evaluation, and the stages
      behind it are not touched. */
  function RunStages(num: Numerics, stages: seq<Transform>, ctx: EvalCtx, now: int): (r: PipeEval)
    ensures |r.stages| == |stages|
  {
    if stages == [] then PipeEval([], Some(ctx))
    else
      var first := ApplyTransform(num, stages[0], ctx, now);
      match first.ctx
      case None => PipeEval([first.stage] + stages[1..], None)
      case Some(c) =>
        var rest := RunStages(num, stages[1..], c, now);
        PipeEval([first.stage] + rest.stages, rest.ctx)
  }

  datatype Evaluated = Evaluated(inst: Instrument, point: Option<PricePoint>)

  function Publish(num: Numerics, inst: Instrument, ctx: EvalCtx, now: int): Option<PricePoint> {
    match FromDecimal(num, ctx.value, inst.expo)
    case Failure(_) => None
    case Success(price) =>
      var conf := match AndThen(ctx.confRatio, (r: real) => num.mul(ctx.value, r))
                  case None => None
                  case Some(c) => match FromDecimal(num, c,
                    inst.expo) case Failure(_) => None case Success(p) => Some(p);
      Some(PricePoint(inst.symbol, Aggregate(price, conf), ctx.publishTime, now, ctx.slot,
                      if ctx.derived then Derived else ctx.source))
  }

  function Eval(num: Numerics, inst: Instrument, latest: Latest, now: int): Evaluated {
    var b := EvalBase(num, inst.base, latest, now);
    match b.ctx
    case None => Evaluated(inst.(base := b.base), None)
    case Some(ctx) =>
      var pipe := RunStages(num, inst.transforms, ctx, now);
      var inst' := inst.(base := b.base, transforms := pipe.stages);
      Evaluated(inst', match pipe.ctx case None => None case Some(c) => Publish(num, inst, c, now))
  }

  function Behind(done: seq<Transform>, rest: PipeEval): PipeEval { PipeEval(done + rest.stages, rest.ctx) }

  lemma {:induction false} StageStep(num: Numerics, done: seq<Transform>, stages: seq<Transform>, ctx: EvalCtx,
                                     now: int)
    requires stages != []
    ensures var first := ApplyTransform(num, stages[0], ctx, now);
            Behind(done, RunStages(num, stages, ctx, now)) ==
              if first.ctx.None? then PipeEval(done + [first.stage] + stages[1..], None)
              else Behind(done + [first.stage], RunStages(num, stages[1..], first.ctx.value, now))
  {
    var first := ApplyTransform(num, stages[0], ctx, now);
    hide ApplyTransform;
    if first.ctx.Some? {
      var rest := RunStages(num, stages[1..], first.ctx.value, now).stages;
      assert done + ([first.stage] + rest) == done + [first.stage] + rest;
    } else {
      assert done + ([first.stage] + stages[1..]) == done + [first.stage] + stages[1..];
    }
  }

  /** Cut a pipeline anywhere: when the front yields nothing, the stages behind it are left as they
      were; otherwise they are run on what the front yields. */
  lemma {:induction false} StagesSplit(num: Numerics, stages: seq<Transform>, k: nat, ctx: EvalCtx, now: int)
    requires k <= |stages|
    ensures var front := RunStages(num, stages[..k], ctx, now);
            RunStages(num, stages, ctx, now) ==
              if front.ctx.None? then PipeEval(front.stages + stages[k..], None)
              else Behind(front.stages, RunStages(num, stages[k..], front.ctx.value, now))
    decreases k
  {
    if k == 0 {
      NoStages(num, ctx, now);
      assert stages[..0] == [] && stages[0..] == stages;
      assert [] + RunStages(num, stages, ctx, now).stages == RunStages(num, stages, ctx, now).stages;
    } else {
      hide ApplyTransform, RunStages;
      var first := ApplyTransform(num, stages[0], ctx, now);
      assert stages[..k][0] == stages[0] && stages[..k][1..] == stages[1..][..k - 1];
      assert stages[1..][k - 1..] == stages[k..];
      FirstStage(num, stages, ctx, now);
      FirstStage(num, stages[..k], ctx, now);
      if first.ctx.Some? {
        StagesSplit(num, stages[1..], k - 1, first.ctx.value, now);
        var front := RunStages(num, stages[1..][..k - 1], first.ctx.value, now);
        if front.ctx.Some? {
          Regroup(first.stage, front.stages, RunStages(num, stages[k..], front.ctx.value, now).stages);
        } else {
          Regroup(first.stage, front.stages, stages[k..]);
        }
      } else {
        assert [first.stage] + stages[1..] == [first.stage] + stages[..k][1..] + stages[k..];
      }
    }
  }

  lemma {:induction false} FirstStage(num: Numerics, stages: seq<Transform>, ctx: EvalCtx, now: int)
    requires stages != []
    ensures var first := ApplyTransform(num, stages[0], ctx, now);
            RunStages(num, stages, ctx, now) ==
              if first.ctx.None? then PipeEval([first.stage] + stages[1..], None)
              else Behind([first.stage], RunStages(num, stages[1..], first.ctx.value, now))
  {
  }

  lemma Regroup(t: Transform, a: seq<Transform>, b: seq<Transform>)
    ensures [t] + (a + b) == [t] + a + b
  {
  }

  /** The loop of `eval` over the transforms. */
  method ComputeStages(num: Numerics, stages: seq<Transform>, start: EvalCtx, now: int) returns (r: PipeEval)
    ensures r == RunStages(num, stages, start, now)
  {
    var ctx := start;
    var done: seq<Transform> := [];
    ghost var whole := RunStages(num, stages, start, now);
    assert [] + whole.stages == whole.stages;
    assert stages[0..] == stages;
    hide RunStages, ApplyTransform;
    for i := 0 to |stages|
      invariant whole == Behind(done, RunStages(num, stages[i..], ctx, now))
    {
      StageStep(num, done, stages[i..], ctx, now);
      assert stages[i..][1..] == stages[i + 1..];
      var stage := ComputeTransform(num, stages[i], ctx, now);
      done := done + [stage.stage];
      if stage.ctx.None? {
        return PipeEval(done + stages[i + 1..], None);
      }
      ctx := stage.ctx.value;
    }
    NoStages(num, ctx, now);
    assert stages[|stages|..] == [] && done + [] == done;
    return PipeEval(done, Some(ctx));
  }

  lemma {:induction false} NoStages(num: Numerics, ctx: EvalCtx, now: int)
    ensures RunStages(num, [], ctx, now) == PipeEval([], Some(ctx))
  {
  }

  method ComputeEval(num: Numerics, inst: Instrument, latest: Latest, now: int) returns (r: Evaluated)
    ensures r == Eval(num, inst, latest, now)
  {
    var b := ComputeBase(num, inst.base, latest, now);
    if b.ctx.None? {
      return Evaluated(inst.(base := b.base), None);
    }
    var pipe := ComputeStages(num, inst.transforms, b.ctx.value, now);
    var inst' := inst.(base := b.base, transforms := pipe.stages);
    if pipe.ctx.None? {
      return Evaluated(inst', None);
    }
    return Evaluated(inst', Publish(num, inst, pipe.ctx.value, now));
  }
}
