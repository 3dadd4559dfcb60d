/** Runs of one instrument: its pipeline, its basket factor, and its schedule. */
module Runs {
  import opened Wrappers
  import opened MachineInts
  import opened Decimals
  import opened Instruments
  import opened Engine
  import opened NonInterference
  import opened Pipelines

  // ---------------------------------------------------------------- evaluations are a pipeline over base prices

  datatype Call = Call(latest: Latest, now: int)

  datatype EvalRun = EvalRun(inst: Instrument, points: seq<PricePoint>)

  /** An instrument evaluated again and again. */
  function RunEvals(num: Numerics, inst: Instrument, calls: seq<Call>): EvalRun {
    if calls == [] then EvalRun(inst, [])
    else
      var before := RunEvals(num, inst, calls[..|calls| - 1]);
      var call := calls[|calls| - 1];
      var e := Eval(num, before.inst, call.latest, call.now);
      EvalRun(e.inst, before.points + OutOf(e.point))
  }

  datatype BaseRun = BaseRun(base: Base, prices: seq<LagSample>)

  /** The base prices the same calls produce, with the time of each. */
  function RunBase(num: Numerics, b: Base, calls: seq<Call>): BaseRun {
    if calls == [] then BaseRun(b, [])
    else
      var before := RunBase(num, b, calls[..|calls| - 1]);
      var call := calls[|calls| - 1];
      var e := EvalBase(num, before.base, call.latest, call.now);
      BaseRun(e.base, before.prices + Emitted(call.now, e.ctx))
  }

  function PublishEach(num: Numerics, inst: Instrument, xs: seq<LagSample>): seq<PricePoint> {
    if xs == [] then []
    else PublishEach(num, inst, xs[..|xs| - 1]) + OutOf(Publish(num, inst, xs[|xs| - 1].ctx, xs[|xs| - 1].at))
  }

  lemma {:induction false} PublishOneMore(num: Numerics, inst: Instrument, xs: seq<LagSample>, x: LagSample)
    ensures PublishEach(num, inst, xs + [x]) == PublishEach(num, inst, xs) + OutOf(Publish(num, inst, x.ctx, x.at))
  {
    assert (xs + [x])[..|xs|] == xs;
  }

  lemma {:induction false} RunPipeStep(num: Numerics, stages: seq<Transform>, xs: seq<LagSample>, x: LagSample)
    ensures var before := RunPipe(num, stages, xs);
            var e := RunStages(num, before.stages, x.ctx, x.at);
            RunPipe(num, stages, xs + [x]) == PipeTrace(e.stages, before.outs + Emitted(x.at, e.ctx))
  {
    assert (xs + [x])[..|xs|] == xs;
  }

  /** The points of a run are the published output of the pipeline over the base prices. */
  ghost predicate RunIsPipe(num: Numerics, inst: Instrument, calls: seq<Call>) {
    var run, base := RunEvals(num, inst, calls), RunBase(num, inst.base, calls);
    var pipe := RunPipe(num, inst.transforms, base.prices);
    && run.inst == inst.(base := base.base, transforms := pipe.stages)
    && run.points == PublishEach(num, inst, pipe.outs)
  }

  lemma RunIsPipeStep(num: Numerics, inst: Instrument, front: seq<Call>, call: Call)
    requires RunIsPipe(num, inst, front)
    ensures RunIsPipe(num, inst, front + [call])
  {
    hide EvalBase, RunStages, RunPipe, Publish, PublishEach;
    var calls := front + [call];
    assert calls[..|calls| - 1] == front;
    var run, base := RunEvals(num, inst, front), RunBase(num, inst.base, front);
    var pipe := RunPipe(num, inst.transforms, base.prices);
    var e := EvalBase(num, base.base, call.latest, call.now);
    if e.ctx.None? {
      assert run.points + [] == run.points && base.prices + [] == base.prices;
    } else {
      var x := LagSample(call.now, e.ctx.value);
      RunPipeStep(num, inst.transforms, base.prices, x);
      var p := RunStages(num, pipe.stages, x.ctx, x.at);
      PublishSame(num, run.inst, inst);
      if p.ctx.Some? {
        PublishOneMore(num, inst, pipe.outs, LagSample(x.at, p.ctx.value));
      } else {
        assert run.points + [] == run.points && pipe.outs + [] == pipe.outs;
      }
    }
  }

  lemma PublishSame(num: Numerics, a: Instrument, b: Instrument)
    requires a.symbol == b.symbol && a.expo == b.expo
    ensures forall ctx, now :: Publish(num, a, ctx, now) == Publish(num, b, ctx, now)
  {
  }

  lemma RunsArePipelines(num: Numerics, inst: Instrument, calls: seq<Call>)
    ensures RunIsPipe(num, inst, calls)
    decreases |calls|
  {
    hide RunIsPipe;
    if calls == [] {
      NoCalls(num, inst);
    } else {
      var front, call := calls[..|calls| - 1], calls[|calls| - 1];
      RunsArePipelines(num, inst, front);
      assert calls == front + [call];
      RunIsPipeStep(num, inst, front, call);
    }
  }

  lemma NoCalls(num: Numerics, inst: Instrument)
    ensures RunIsPipe(num, inst, [])
  {
  }

  // ---------------------------------------------------------------- the basket factor

  /** The exact weighted sum of the legs. */
  function WeightedSum(legs: seq<Leg>, latest: Latest): real
    requires forall k :: 0 <= k < |legs| ==> legs[k].feed in latest
  {
    if legs == [] then 0.0
    else WeightedSum(legs[..|legs| - 1], latest) + latest[legs[|legs| - 1].feed].value * legs[|legs| - 1].weight
  }

  lemma {:induction false} SumIsExact(num: Numerics, legs: seq<Leg>, latest: Latest)
    requires Exact(num) && SumLegs(num, legs, latest).Some?
    ensures forall k :: 0 <= k < |legs| ==> legs[k].feed in latest
    ensures SumLegs(num, legs, latest).value.sum == WeightedSum(legs, latest)
    decreases |legs|
  {
    if legs != [] {
      var front, last := legs[..|legs| - 1], legs[|legs| - 1];
      SumIsExact(num, front, latest);
      var total, snap := SumLegs(num, front, latest).value, latest[last.feed];
      assert ExactOn(num, snap.value, last.weight) && ExactOn(num, total.sum, num.mul(snap.value, last.weight).value);
      assert forall k :: 0 <= k < |legs| ==> legs[k] == (if k < |front| then front[k] else last);
    }
  }

  /** The first evaluation at which the rebase factor can be computed. */
  function FirstRebase(num: Numerics, legs: seq<Leg>, target: real, calls: seq<Call>): (r: Option<nat>)
    ensures r.Some? ==> r.value < |calls| && Rebases(num, legs, target, calls[r.value].latest)
  {
    if calls == [] then None
    else
      var before := FirstRebase(num, legs, target, calls[..|calls| - 1]);
      if before.Some? then before
      else if Rebases(num, legs, target, calls[|calls| - 1].latest) then Some(|calls| - 1)
      else None
  }

  predicate Rebases(num: Numerics, legs: seq<Leg>, target: real, latest: Latest) {
    SumLegs(num, legs, latest).Some? && num.div(target, SumLegs(num, legs, latest).value.sum).Some?
  }

  /** After any run of evaluations, failed and partial ones included, the factor is the one of the
      first evaluation that could compute it. */
  lemma {:induction false} FactorIsFirst(num: Numerics, legs: seq<Leg>, target: real, calls: seq<Call>)
    ensures var b := RunBase(num, Basket(legs, Some(target), None), calls).base;
            b == Basket(legs, Some(target),
                        match FirstRebase(num, legs, target, calls)
                        case None => None
                        case Some(j) => num.div(target, SumLegs(num, legs, calls[j].latest).value.sum))
    decreases |calls|
  {
    if calls != [] {
      hide SumLegs;
      FactorIsFirst(num, legs, target, calls[..|calls| - 1]);
    }
  }

  /** Once written, the factor never changes. */
  lemma {:induction false} FactorWrittenOnce(num: Numerics, b: Base, calls: seq<Call>)
    requires b.Basket? && b.factor.Some?
    ensures RunBase(num, b, calls).base == b
    decreases |calls|
  {
    if calls != [] {
      hide SumLegs;
      FactorWrittenOnce(num, b, calls[..|calls| - 1]);
    }
  }

  lemma Proportional(num: Numerics, target: real, first: real, now: real)
    requires Exact(num) && num.div(target, first).Some? && num.mul(now, num.div(target, first).value).Some?
    ensures var value := num.mul(now, num.div(target, first).value).value;
            value * first == target * now && (now == first ==> value == target)
  {
    var factor := num.div(target, first).value;
    assert ExactOn(num, target, first) && ExactOn(num, now, factor);
    Fraction(num.mul(now, factor).value, factor, target, first, now);
  }

  lemma Fraction(value: real, factor: real, target: real, first: real, now: real)
    requires first != 0.0 && factor == target / first && value == now * factor
    ensures value * first == target * now
    ensures now == first ==> value == target
  {
    assert factor * first == target;
    assert value * first == now * (factor * first);
  }

  /** With exact arithmetic a rebased basket starts at its target, and every later value times the
      first weighted sum is the target times the weighted sum of the moment. */
  lemma {:induction false} BasketFollowsFirstSum(num: Numerics, legs: seq<Leg>, target: real, calls: seq<Call>,
                                                 call: Call)
    requires Exact(num)
    requires EvalBase(num, RunBase(num, Basket(legs, Some(target), None), calls).base, call.latest, call.now).ctx.Some?
    ensures var base := RunBase(num, Basket(legs, Some(target), None), calls).base;
            var value := EvalBase(num, base, call.latest, call.now).ctx.value.value;
            var first := FirstRebase(num, legs, target, calls + [call]);
            && first.Some?
            && var l0 := (calls + [call])[first.value].latest;
               && (forall k :: 0 <= k < |legs| ==> legs[k].feed in l0 && legs[k].feed in call.latest)
               && value * WeightedSum(legs, l0) == target * WeightedSum(legs, call.latest)
               && (first.value == |calls| ==> value == target)
  {
    hide SumLegs, WeightedSum, ExactOn;
    var all := calls + [call];
    assert all[..|all| - 1] == calls;
    FactorIsFirst(num, legs, target, calls);
    FactorIsFirst(num, legs, target, all);
    var l0 := all[FirstRebase(num, legs, target, all).value].latest;
    SumIsExact(num, legs, l0);
    SumIsExact(num, legs, call.latest);
    Proportional(num, target, SumLegs(num, legs, l0).value.sum, SumLegs(num, legs, call.latest).value.sum);
  }
}
