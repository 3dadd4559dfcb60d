/** What the runs of a whole engine are to one of its instruments: evaluations at the calls the tape
    makes, and so a pipeline over base prices. */
module EngineRuns {
  import opened Wrappers
  import opened Decimals
  import opened Instruments
  import opened Engine
  import opened NonInterference
  import opened Pipelines
  import opened Runs
  import opened Schedule

  // ---------------------------------------------------------------- the calls of a tape

  function Times(call: Call, n: nat): (calls: seq<Call>)
    ensures |calls| == n && forall k :: 0 <= k < n ==> calls[k] == call
  {
    seq(n, k => call)
  }

  /** The evaluations of instrument `i` that one event causes: one for each mention of the feed, or the
      instrument's turn on the clock. */
  function CallsBy(num: Numerics, st: EngineState, i: nat, e: Event): seq<Call>
    requires Valid(st)
  {
    match e
    case Clock(now) => if Turns(st, i, e) then [Call(st.latest, now)] else []
    case Observed(point, now) =>
      if Reduce(num, point.data).None? then []
      else Times(Call(React(num, st, e).state.latest, now), Hits(IndicesFor(st, point.symbol), i))
  }

  function CallsOf(num: Numerics, st: EngineState, i: nat, tape: seq<Event>): seq<Call>
    requires Valid(st)
  {
    if tape == [] then []
    else
      var front := tape[..|tape| - 1];
      CallsOf(num, st, i, front) + CallsBy(num, RunTape(num, st, front).state, i, tape[|tape| - 1])
  }

  // ---------------------------------------------------------------- evaluations, one after another

  lemma {:induction false} RunEvalsStep(num: Numerics, inst: Instrument, front: seq<Call>, call: Call)
    ensures var before := RunEvals(num, inst, front);
            var e := Eval(num, before.inst, call.latest, call.now);
            RunEvals(num, inst, front + [call]) == EvalRun(e.inst, before.points + OutOf(e.point))
  {
    hide Eval;
    assert (front + [call])[..|front|] == front;
  }

  lemma {:induction false} NoEvals(num: Numerics, inst: Instrument)
    ensures RunEvals(num, inst, []) == EvalRun(inst, [])
  {
  }

  lemma {:induction false} RunEvalsAppend(num: Numerics, inst: Instrument, a: seq<Call>, b: seq<Call>)
    ensures var first := RunEvals(num, inst, a);
            var rest := RunEvals(num, first.inst, b);
            RunEvals(num, inst, a + b) == EvalRun(rest.inst, first.points + rest.points)
    decreases |b|
  {
    hide RunEvals, Eval;
    var first := RunEvals(num, inst, a);
    if b == [] {
      NoEvals(num, first.inst);
      assert a + b == a && first.points + [] == first.points;
    } else {
      var front, call := b[..|b| - 1], b[|b| - 1];
      assert b == front + [call] && a + b == (a + front) + [call];
      RunEvalsAppend(num, inst, a, front);
      RunEvalsStep(num, inst, a + front, call);
      RunEvalsStep(num, first.inst, front, call);
    }
  }

  /** An evaluation neither reads nor writes the schedule. */
  lemma EvalWithDue(num: Numerics, inst: Instrument, due: int, latest: Latest, now: int)
    ensures var e := Eval(num, inst, latest, now);
            Eval(num, inst.(nextDue := due), latest, now) == Evaluated(e.inst.(nextDue := due), e.point)
  {
    PublishSame(num, inst, inst.(nextDue := due));
  }

  lemma {:induction false} RunEvalsWithDue(num: Numerics, inst: Instrument, due: int, calls: seq<Call>)
    ensures var run := RunEvals(num, inst, calls);
            RunEvals(num, inst.(nextDue := due), calls) == EvalRun(run.inst.(nextDue := due), run.points)
    decreases |calls|
  {
    hide Eval;
    if calls != [] {
      var front, call := calls[..|calls| - 1], calls[|calls| - 1];
      RunEvalsWithDue(num, inst, due, front);
      EvalWithDue(num, RunEvals(num, inst, front).inst, due, call.latest, call.now);
    }
  }

  /** Repeated visits are repeated evaluations. */
  lemma {:induction false} VisitsAreEvals(num: Numerics, inst: Instrument, n: nat, latest: Latest, now: int)
    ensures var run := RunEvals(num, inst, Times(Call(latest, now), n));
            VisitAll(num, [inst], Solo(n), latest, now, false) == Batch([run.inst], run.points)
    decreases n
  {
    hide Eval;
    if n == 0 {
      assert Solo(0) == [] && Times(Call(latest, now), 0) == [];
    } else {
      VisitsAreEvals(num, inst, n - 1, latest, now);
      SoloStep(num, inst, n - 1, latest, now, false);
      assert Times(Call(latest, now), n)[..n - 1] == Times(Call(latest, now), n - 1);
    }
  }

  // ---------------------------------------------------------------- the engine of one instrument

  lemma {:induction false} AllZero(idxs: seq<nat>)
    requires forall k :: 0 <= k < |idxs| ==> idxs[k] == 0
    ensures idxs == Solo(|idxs|) && Hits(idxs, 0) == |idxs|
    decreases |idxs|
  {
    if idxs != [] { AllZero(idxs[..|idxs| - 1]); }
  }

  /** What the engine of one instrument has emitted and holds, up to when it is next due. */
  ghost predicate RunsAs(num: Numerics, r: Reply, evals: EvalRun) {
    && |r.state.instruments| == 1 && Valid(r.state) && (r.state.timed == [] || r.state.timed == [0])
    && r.out == evals.points
    && r.state.instruments[0] == evals.inst.(nextDue := r.state.instruments[0].nextDue)
  }

  lemma {:induction false} FeedStep(num: Numerics, r: Reply, evals: EvalRun, e: Event)
    requires RunsAs(num, r, evals) && e.Observed?
    ensures var after := React(num, r.state, e);
            var more := RunEvals(num, evals.inst, CallsBy(num, r.state, 0, e));
            RunsAs(num, Reply(after.state, r.out + after.out), EvalRun(more.inst, evals.points + more.points))
  {
    hide Eval, Solo, Times;
    var st, inst := r.state, r.state.instruments[0];
    assert st.instruments == [inst];
    if Reduce(num, e.point.data).None? {
      assert r.out + [] == r.out;
    } else {
      var idxs := IndicesFor(st, e.point.symbol);
      AllZero(idxs);
      var call := Call(React(num, st, e).state.latest, e.now);
      VisitsAreEvals(num, inst, |idxs|, call.latest, call.now);
      RunEvalsWithDue(num, evals.inst, inst.nextDue, Times(call, |idxs|));
    }
  }

  lemma {:induction false} TickStep(num: Numerics, r: Reply, evals: EvalRun, e: Event)
    requires RunsAs(num, r, evals) && e.Clock?
    ensures var after := React(num, r.state, e);
            var more := RunEvals(num, evals.inst, CallsBy(num, r.state, 0, e));
            RunsAs(num, Reply(after.state, r.out + after.out), EvalRun(more.inst, evals.points + more.points))
  {
    hide Eval;
    var st, inst := r.state, r.state.instruments[0];
    assert st.instruments == [inst] && [0][..0] == [];
    assert VisitAll(num, [inst], [], st.latest, e.now, true) == Batch([inst], []);
    if Turns(st, 0, e) {
      assert st.timed == [0];
      var due := NextDue(inst.base, e.now).value;
      var call := Call(st.latest, e.now);
      assert [call][..0] == [];
      EvalWithDue(num, evals.inst, inst.nextDue, st.latest, e.now);
      EvalWithDue(num, evals.inst, due, st.latest, e.now);
      assert inst.(nextDue := due) == evals.inst.(nextDue := due);
    } else {
      assert st.timed == [0] ==> 0 in st.timed;
      assert r.out + [] == r.out && evals.points + [] == evals.points;
    }
  }

  lemma {:induction false} SoloRunIsEvals(num: Numerics, inst: Instrument, tape: seq<Event>)
    requires Valid(SoloState(inst))
    ensures RunsAs(num, RunTape(num, SoloState(inst), tape),
            RunEvals(num, inst, CallsOf(num, SoloState(inst), 0, tape)))
    decreases |tape|
  {
    hide React, RunsAs, CallsBy;
    if tape == [] {
      SoloStarts(num, inst);
    } else {
      var front, e := tape[..|tape| - 1], tape[|tape| - 1];
      SoloRunIsEvals(num, inst, front);
      var r, calls := RunTape(num, SoloState(inst), front), CallsOf(num, SoloState(inst), 0, front);
      RunEvalsAppend(num, inst, calls, CallsBy(num, r.state, 0, e));
      if e.Clock? {
        TickStep(num, r, RunEvals(num, inst, calls), e);
      } else {
        FeedStep(num, r, RunEvals(num, inst, calls), e);
      }
    }
  }

  lemma SoloStarts(num: Numerics, inst: Instrument)
    requires Valid(SoloState(inst))
    ensures RunsAs(num, Reply(SoloState(inst), []), EvalRun(inst, []))
  {
    SoloStateIs(inst, "");
  }

  // ---------------------------------------------------------------- an instrument of a registry

  lemma SameCallsBy(num: Numerics, full: EngineState, solo: EngineState, i: nat, e: Event)
    requires Shadows(full, solo, i)
    ensures CallsBy(num, full, i, e) == CallsBy(num, solo, 0, e)
  {
    SameClock(full, solo, i);
    if e.Observed? {
      assert IndicesFor(solo, e.point.symbol) == Solo(Hits(IndicesFor(full, e.point.symbol), i));
      AllZero(IndicesFor(solo, e.point.symbol));
    }
  }

  lemma {:induction false} SameCalls(num: Numerics, full: EngineState, solo: EngineState, i: nat, tape: seq<Event>)
    requires Shadows(full, solo, i)
    ensures CallsOf(num, full, i, tape) == CallsOf(num, solo, 0, tape)
    decreases |tape|
  {
    hide React, CallsBy;
    if tape != [] {
      var front := tape[..|tape| - 1];
      SameCalls(num, full, solo, i, front);
      RunProjects(num, full, solo, i, front);
      SameCallsBy(num, RunTape(num, full, front).state, RunTape(num, solo, front).state, i, tape[|tape| - 1]);
    }
  }

  /** For every registry and tape, an instrument's outputs and state are those of evaluating it at the
      calls the tape makes, one after another; only when it is next due is not an evaluation's doing. */
  lemma {:induction false} EngineRunIsEvals(num: Numerics, cfgs: seq<InstrumentConfig>, known: set<Symbol>, i: nat,
                                            tape: seq<Event>)
    requires Build(cfgs, known).Success? && i < |cfgs|
    ensures Valid(Build(cfgs, known).value) && |Build(cfgs, known).value.instruments| == |cfgs|
    ensures var start := Build(cfgs, known).value;
            var run := RunTape(num, start, tape);
            var evals := RunEvals(num, start.instruments[i], CallsOf(num, start, i, tape));
            && |run.state.instruments| == |cfgs|
            && OfSymbol(run.out, start.instruments[i].symbol) == evals.points
            && run.state.instruments[i] == evals.inst.(nextDue := run.state.instruments[i].nextDue)
  {
    hide Build, React;
    BuildIsFresh(cfgs, known);
    BuildProjects(cfgs, known, i);
    var start := Build(cfgs, known).value;
    var solo := SoloState(start.instruments[i]);
    RunProjects(num, start, solo, i, tape);
    RunKeepsSchedule(num, start, tape);
    SameCalls(num, start, solo, i, tape);
    SoloRunIsEvals(num, start.instruments[i], tape);
  }

  /** So they are the published output of the instrument's pipeline over the base prices at those calls,
      and its base is left as those calls leave it. */
  lemma {:induction false} EngineRunIsPipeline(num: Numerics, cfgs: seq<InstrumentConfig>, known: set<Symbol>, i: nat,
                                               tape: seq<Event>)
    requires Build(cfgs, known).Success? && i < |cfgs|
    ensures Valid(Build(cfgs, known).value) && |Build(cfgs, known).value.instruments| == |cfgs|
    ensures var start := Build(cfgs, known).value;
            var run := RunTape(num, start, tape);
            var inst := start.instruments[i];
            var base := RunBase(num, inst.base, CallsOf(num, start, i, tape));
            var pipe := RunPipe(num, inst.transforms, base.prices);
            && |run.state.instruments| == |cfgs|
            && OfSymbol(run.out, inst.symbol) == PublishEach(num, inst, pipe.outs)
            && run.state.instruments[i].base == base.base
            && run.state.instruments[i].transforms == pipe.stages
  {
    hide Build, React, RunPipe, RunBase, PublishEach, RunEvals, CallsOf;
    EngineRunIsEvals(num, cfgs, known, i, tape);
    var start := Build(cfgs, known).value;
    RunsArePipelines(num, start.instruments[i], CallsOf(num, start, i, tape));
  }

  /** In any engine run an instrument's outputs are published from an in-order, duplicate-free part of
      its base prices: what the stages make of each, at least the sum of all lags later. */
  lemma EngineRunKeepsOrder(num: Numerics, cfgs: seq<InstrumentConfig>, known: set<Symbol>, i: nat, tape: seq<Event>)
    returns (outs: seq<LagSample>, src: seq<nat>)
    requires Build(cfgs, known).Success? && i < |cfgs|
    ensures Valid(Build(cfgs, known).value) && |Build(cfgs, known).value.instruments| == |cfgs|
    ensures var start := Build(cfgs, known).value;
            var inst := start.instruments[i];
            var prices := RunBase(num, inst.base, CallsOf(num, start, i, tape)).prices;
            && OfSymbol(RunTape(num, start, tape).out, inst.symbol) == PublishEach(num, inst, outs)
            && PipeFrom(num, inst.transforms, prices, outs, src) && Emissions(num, inst.transforms, prices, outs, src)
  {
    hide Build, RunTape, RunPipe, RunBase, PublishEach, CallsOf, PipeFrom, Emissions;
    EngineRunIsPipeline(num, cfgs, known, i, tape);
    StagesStartUnused(cfgs, known, i);
    var start := Build(cfgs, known).value;
    var inst := start.instruments[i];
    var prices := RunBase(num, inst.base, CallsOf(num, start, i, tape)).prices;
    outs := RunPipe(num, inst.transforms, prices).outs;
    src := PipelineOrder(num, inst.transforms, prices);
  }

  lemma {:induction false} StagesStartUnused(cfgs: seq<InstrumentConfig>, known: set<Symbol>, i: nat)
    requires Build(cfgs, known).Success? && i < |Build(cfgs, known).value.instruments|
    ensures var stages := Build(cfgs, known).value.instruments[i].transforms;
            forall k :: 0 <= k < |stages| ==> Unused(stages[k])
    decreases |cfgs|
  {
    if cfgs != [] {
      if i < |Build(cfgs, known).value.instruments| - 1 {
        StagesStartUnused(cfgs[..|cfgs| - 1], known, i);
      } else {
        BuiltUnused(cfgs[|cfgs| - 1].transforms);
      }
    }
  }

  lemma {:induction false} BuiltUnused(cfgs: seq<TransformConfig>)
    requires BuildTransforms(cfgs).Success?
    ensures var stages := BuildTransforms(cfgs).value; forall k :: 0 <= k < |stages| ==> Unused(stages[k])
  {
    if cfgs != [] {
      BuiltUnused(cfgs[1..]);
    }
  }

  /** The rebase factor after any engine run is that of the first call it could be computed at. */
  lemma {:induction false} EngineFactorIsFirst(num: Numerics, cfgs: seq<InstrumentConfig>, known: set<Symbol>, i: nat,
                                               tape: seq<Event>,
                                               legs: seq<Leg>, target: real)
    requires Build(cfgs, known).Success? && i < |cfgs|
    requires Valid(Build(cfgs, known).value) && |Build(cfgs, known).value.instruments| == |cfgs|
    requires Build(cfgs, known).value.instruments[i].base == Basket(legs, Some(target), None)
    ensures var start := Build(cfgs, known).value;
            var run := RunTape(num, start, tape);
            var calls := CallsOf(num, start, i, tape);
            && |run.state.instruments| == |cfgs|
            && run.state.instruments[i].base == Basket(legs, Some(target),
                 match FirstRebase(num, legs, target, calls)
                 case None => None
                 case Some(j) => num.div(target, SumLegs(num, legs, calls[j].latest).value.sum))
  {
    hide Build, RunTape, RunPipe, PublishEach, CallsOf, RunBase, SumLegs;
    EngineRunIsPipeline(num, cfgs, known, i, tape);
    FactorIsFirst(num, legs, target, CallsOf(num, Build(cfgs, known).value, i, tape));
  }

  // ---------------------------------------------------------------- the clock of the samples

  predicate TapeInOrder(tape: seq<Event>) {
    forall a, b :: 0 <= a < b < |tape| ==> tape[a].now <= tape[b].now
  }

  predicate CallsInOrder(calls: seq<Call>) {
    forall a, b :: 0 <= a < b < |calls| ==> calls[a].now <= calls[b].now
  }

  lemma {:induction false} CallsFollowTape(num: Numerics, st: EngineState, i: nat, tape: seq<Event>)
    requires Valid(st) && TapeInOrder(tape)
    ensures CallsInOrder(CallsOf(num, st, i, tape))
    ensures forall k :: 0 <= k < |CallsOf(num, st, i, tape)| ==>
              tape != [] && CallsOf(num, st, i, tape)[k].now <= tape[|tape| - 1].now
    decreases |tape|
  {
    hide React;
    if tape != [] {
      var front, e := tape[..|tape| - 1], tape[|tape| - 1];
      CallsFollowTape(num, st, i, front);
      var old', new' := CallsOf(num, st, i, front), CallsBy(num, RunTape(num, st, front).state, i, e);
      assert forall k :: 0 <= k < |new'| ==> new'[k].now == e.now;
      assert front != [] ==> front[|front| - 1].now <= e.now
        by { if front != [] { assert front[|front| - 1] == tape[|front| - 1]; } }
    }
  }

  lemma {:induction false} PricesFollowCalls(num: Numerics, b: Base, calls: seq<Call>)
    requires CallsInOrder(calls)
    ensures var prices := RunBase(num, b, calls).prices;
            && ClockNeverGoesBack(prices)
            && forall k :: 0 <= k < |prices| ==> calls != [] && prices[k].at <= calls[|calls| - 1].now
    decreases |calls|
  {
    hide EvalBase;
    if calls != [] {
      var front := calls[..|calls| - 1];
      PricesFollowCalls(num, b, front);
      assert front != [] ==> front[|front| - 1] == calls[|front| - 1];
    }
  }

  /** What a stage emits is in the order of the clock when what enters it is. */
  lemma {:induction false} StageKeepsClock(num: Numerics, t: Transform, xs: seq<LagSample>)
    requires ClockNeverGoesBack(xs)
    ensures var outs := RunStage(num, t, xs).outs;
            && ClockNeverGoesBack(outs)
            && forall k :: 0 <= k < |outs| ==> xs != [] && outs[k].at <= xs[|xs| - 1].at
    decreases |xs|
  {
    hide ApplyTransform, ClockNeverGoesBack, RunStage;
    if xs == [] {
      NothingIn(num, t);
    } else {
      var front, x := xs[..|xs| - 1], xs[|xs| - 1];
      assert xs == front + [x];
      ClockPrefix(front, x);
      RunStageStep(num, t, front, x);
      StageKeepsClock(num, t, front);
      var outs := RunStage(num, t, front).outs;
      var e := ApplyTransform(num, RunStage(num, t, front).stage, x.ctx, x.at);
      if e.ctx.Some? {
        OneLater(outs, LagSample(x.at, e.ctx.value));
      } else {
        assert outs + [] == outs;
      }
    }
  }

  lemma {:induction false} NothingIn(num: Numerics, t: Transform)
    ensures RunStage(num, t, []) == StageTrace(t, []) && ClockNeverGoesBack([])
  {
  }

  lemma OneLater(xs: seq<LagSample>, x: LagSample)
    requires ClockNeverGoesBack(xs) && forall k :: 0 <= k < |xs| ==> xs[k].at <= x.at
    ensures ClockNeverGoesBack(xs + [x])
  {
  }

  lemma {:induction false} PipeKeepsClock(num: Numerics, stages: seq<Transform>, xs: seq<LagSample>)
    requires ClockNeverGoesBack(xs)
    ensures ClockNeverGoesBack(RunPipe(num, stages, xs).outs)
    decreases |stages|
  {
    hide RunPipe, RunStage, ClockNeverGoesBack;
    if stages == [] {
      NoStagesPass(num, xs);
    } else {
      StagesCompose(num, stages, xs);
      StageKeepsClock(num, stages[0], xs);
      PipeKeepsClock(num, stages[1..], RunStage(num, stages[0], xs).outs);
    }
  }

  /** With a clock that does not go back, a lag stage looks up the history of what the stages before it
      emit, wherever it stands among an instrument's transforms, in every engine run. */
  lemma {:induction false} EngineLagLooksUp(num: Numerics, cfgs: seq<InstrumentConfig>, known: set<Symbol>, i: nat,
                                            tape: seq<Event>,
                         k: nat, us: nat)
    requires Build(cfgs, known).Success? && i < |cfgs| && TapeInOrder(tape)
    requires Valid(Build(cfgs, known).value) && |Build(cfgs, known).value.instruments| == |cfgs|
    requires k < |Build(cfgs, known).value.instruments[i].transforms|
    requires Build(cfgs, known).value.instruments[i].transforms[k] == Lag(us, [])
    ensures var start := Build(cfgs, known).value;
            var inst := start.instruments[i];
            var prices := RunBase(num, inst.base, CallsOf(num, start, i, tape)).prices;
            var history := RunPipe(num, inst.transforms[..k], prices).outs;
            var run := RunTape(num, start, tape);
            && |run.state.instruments| == |cfgs| && k < |run.state.instruments[i].transforms|
            && run.state.instruments[i].transforms[k] == RunStage(num, Lag(us, []), history).stage
            && (history != [] ==> LooksUpHistory(num, us, history))
  {
    hide Build, RunTape, RunPipe, RunStage, RunBase, PublishEach, CallsOf, LooksUpHistory;
    var start := Build(cfgs, known).value;
    var inst := start.instruments[i];
    var stages, calls := inst.transforms, CallsOf(num, start, i, tape);
    var prices := RunBase(num, inst.base, calls).prices;
    var history := RunPipe(num, stages[..k], prices).outs;
    CallsFollowTape(num, start, i, tape);
    PricesFollowCalls(num, inst.base, calls);
    EngineRunIsPipeline(num, cfgs, known, i, tape);
    PipeSplit(num, stages, k, prices);
    PipeKeepsClock(num, stages[..k], prices);
    StagesCompose(num, stages[k..], history);
    if history != [] {
      LagIsHistoryLookup(num, us, history);
    }
  }

  // ---------------------------------------------------------------- the basket law

  lemma {:induction false} SamePrefix(num: Numerics, legs: seq<Leg>, target: real, calls: seq<Call>, n: nat)
    requires n <= |calls| && FirstRebase(num, legs, target, calls[..n]).Some?
    ensures FirstRebase(num, legs, target, calls) == FirstRebase(num, legs, target, calls[..n])
    decreases |calls|
  {
    hide Rebases;
    if n < |calls| {
      assert calls[..|calls| - 1][..n] == calls[..n];
      SamePrefix(num, legs, target, calls[..|calls| - 1], n);
    } else {
      assert calls[..n] == calls;
    }
  }

  /** One base price of a rebased basket against the first call that could set its factor: value times
      the first weighted sum is the target times the weighted sum of the moment. */
  ghost predicate FollowsFirst(legs: seq<Leg>, target: real, price: LagSample, now: Call, first: Call) {
    && price.at == now.now
    && (forall k :: 0 <= k < |legs| ==> legs[k].feed in first.latest && legs[k].feed in now.latest)
    && price.ctx.value * WeightedSum(legs, first.latest) == target * WeightedSum(legs, now.latest)
  }

  /** Each base price belongs to a call, in order; the first to the call that set the factor, at which it
      is the target. */
  ghost predicate BasketLaw(num: Numerics, legs: seq<Leg>, target: real, calls: seq<Call>, prices: seq<LagSample>,
                            at: seq<nat>) {
    && |at| == |prices| && Increasing(at)
    && forall k :: 0 <= k < |prices| ==>
         && at[k] < |calls|
         && LawAt(num, legs, target, calls, prices[k], at[k])
  }

  ghost predicate LawAt(num: Numerics, legs: seq<Leg>, target: real, calls: seq<Call>, price: LagSample, n: nat)
    requires n < |calls|
  {
    var first := FirstRebase(num, legs, target, calls);
    && first.Some? && first.value <= n
    && FollowsFirst(legs, target, price, calls[n], calls[first.value])
    && (n == first.value ==> price.ctx.value == target)
  }

  lemma BasketLawLonger(num: Numerics, legs: seq<Leg>, target: real, front: seq<Call>, call: Call,
                        prices: seq<LagSample>, at: seq<nat>)
    requires BasketLaw(num, legs, target, front, prices, at)
    ensures BasketLaw(num, legs, target, front + [call], prices, at)
  {
    hide FirstRebase, FollowsFirst;
    var calls := front + [call];
    assert calls[..|front|] == front;
    if prices != [] {
      assert LawAt(num, legs, target, front, prices[0], at[0]);
      SamePrefix(num, legs, target, calls, |front|);
    }
    forall k | 0 <= k < |prices|
      ensures LawAt(num, legs, target, calls, prices[k], at[k])
    {
      assert LawAt(num, legs, target, front, prices[k], at[k]);
    }
  }

  lemma {:induction false} LawAtTheEnd(num: Numerics, legs: seq<Leg>, target: real, front: seq<Call>, call: Call,
                                       value: EvalCtx)
    requires Exact(num)
    requires EvalBase(num, RunBase(num, Basket(legs, Some(target), None), front).base, call.latest, call.now).ctx
             == Some(value)
    ensures LawAt(num, legs, target, front + [call], LagSample(call.now, value), |front|)
  {
    hide FirstRebase, EvalBase, RunBase, WeightedSum, Exact;
    BasketFollowsFirstSum(num, legs, target, front, call);
  }

  lemma BasketLawOneMore(num: Numerics, legs: seq<Leg>, target: real, calls: seq<Call>, prices: seq<LagSample>,
                         at: seq<nat>,
                         price: LagSample, n: nat)
    requires BasketLaw(num, legs, target, calls, prices, at) && n < |calls| && LawAt(num, legs, target, calls, price, n)
    requires forall k :: 0 <= k < |at| ==> at[k] < n
    ensures BasketLaw(num, legs, target, calls, prices + [price], at + [n])
  {
    hide LawAt;
  }

  lemma BasketPrices(num: Numerics, legs: seq<Leg>, target: real, calls: seq<Call>) returns (at: seq<nat>)
    requires Exact(num)
    ensures BasketLaw(num, legs, target, calls, RunBase(num, Basket(legs, Some(target), None), calls).prices, at)
    ensures forall k :: 0 <= k < |at| ==> at[k] < |calls|
    decreases |calls|
  {
    at := [];
    if calls != [] {
      hide BasketLaw, LawAt, EvalBase, Exact;
      var front, call := calls[..|calls| - 1], calls[|calls| - 1];
      var b := Basket(legs, Some(target), None);
      at := BasketPrices(num, legs, target, front);
      assert calls == front + [call];
      var before := RunBase(num, b, front);
      BasketLawLonger(num, legs, target, front, call, before.prices, at);
      var e := EvalBase(num, before.base, call.latest, call.now);
      if e.ctx.Some? {
        LawAtTheEnd(num, legs, target, front, call, e.ctx.value);
        BasketLawOneMore(num, legs, target, calls, before.prices, at, LagSample(call.now, e.ctx.value), |front|);
        at := at + [|front|];
      } else {
        assert before.prices + [] == before.prices;
      }
    }
  }

  /** In any engine run, with exact arithmetic, a rebased basket's base prices start at the target and
      follow the weighted sum from there, across failed and partial evaluations. */
  lemma EngineBasketFollows(num: Numerics, cfgs: seq<InstrumentConfig>, known: set<Symbol>, i: nat, tape: seq<Event>,
                            legs: seq<Leg>, target: real)
    returns (at: seq<nat>)
    requires Exact(num) && Build(cfgs, known).Success? && i < |cfgs|
    requires Valid(Build(cfgs, known).value) && |Build(cfgs, known).value.instruments| == |cfgs|
    requires Build(cfgs, known).value.instruments[i].base == Basket(legs, Some(target), None)
    ensures var start := Build(cfgs, known).value;
            var inst := start.instruments[i];
            var calls := CallsOf(num, start, i, tape);
            var prices := RunBase(num, inst.base, calls).prices;
            && BasketLaw(num, legs, target, calls, prices, at)
            && OfSymbol(RunTape(num, start, tape).out, inst.symbol)
               == PublishEach(num, inst, RunPipe(num, inst.transforms, prices).outs)
  {
    hide Build, RunTape, RunPipe, RunBase, PublishEach, CallsOf, BasketLaw, Exact;
    EngineRunIsPipeline(num, cfgs, known, i, tape);
    at := BasketPrices(num, legs, target, CallsOf(num, Build(cfgs, known).value, i, tape));
  }
}
