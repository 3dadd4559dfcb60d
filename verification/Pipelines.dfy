/** What comes out of a lag buffer and out of a whole transform list, over any run of samples. */
module Pipelines {
  import opened Wrappers
  import opened Decimals
  import opened Instruments

  // ---------------------------------------------------------------- samples through one stage

  datatype StageTrace = StageTrace(stage: Transform, outs: seq<LagSample>)

  function Emitted(at: int, ctx: Option<EvalCtx>): seq<LagSample> {
    if ctx.None? then [] else [LagSample(at, ctx.value)]
  }

  /** One stage fed with a stream of timed samples. */
  function RunStage(num: Numerics, t: Transform, xs: seq<LagSample>): StageTrace {
    if xs == [] then StageTrace(t, [])
    else
      var before := RunStage(num, t, xs[..|xs| - 1]);
      var x := xs[|xs| - 1];
      var e := ApplyTransform(num, before.stage, x.ctx, x.at);
      StageTrace(e.stage, before.outs + Emitted(x.at, e.ctx))
  }

  // ---------------------------------------------------------------- the lag buffer against the full history

  predicate ClockNeverGoesBack(history: seq<LagSample>) {
    forall i, j :: 0 <= i < j < |history| ==> history[i].at <= history[j].at
  }

  /** The last sample a stage has served so far. */
  function NewestServed(outs: seq<LagSample>): Option<EvalCtx> {
    if outs == [] then None else Some(outs[|outs| - 1].ctx)
  }

  /** `history[..k]` are exactly the samples at or before `cutoff`. */
  predicate SplitsAt(history: seq<LagSample>, k: nat, cutoff: int) {
    && k <= |history|
    && (forall i :: 0 <= i < k ==> history[i].at <= cutoff)
    && (forall i :: k <= i < |history| ==> history[i].at > cutoff)
  }

  lemma {:induction false} RipeAfter(samples: seq<LagSample>, k: nat, cutoff: int)
    requires k <= |samples| && forall i :: 0 <= i < k ==> samples[i].at <= cutoff
    ensures Ripe(samples, cutoff) == k + Ripe(samples[k..], cutoff)
    decreases k
  {
    if k == 0 {
      assert samples[0..] == samples;
    } else {
      RipeAfter(samples[1..], k - 1, cutoff);
      assert samples[1..][k - 1..] == samples[k..];
    }
  }

  lemma {:induction false} RipeIsFront(samples: seq<LagSample>, cutoff: int)
    ensures var n := Ripe(samples, cutoff);
            && (forall i :: 0 <= i < n ==> samples[i].at <= cutoff)
            && (n < |samples| ==> samples[n].at > cutoff)
  {
    if samples != [] { RipeIsFront(samples[1..], cutoff); }
  }

  lemma {:induction false} LastRipe(samples: seq<LagSample>, cutoff: int)
    requires Ripe(samples, cutoff) > 0
    ensures samples[Ripe(samples, cutoff) - 1].at <= cutoff
  {
    RipeIsFront(samples, cutoff);
  }

  lemma {:induction false} RipeSplits(history: seq<LagSample>, cutoff: int)
    requires ClockNeverGoesBack(history)
    ensures SplitsAt(history, Ripe(history, cutoff), cutoff)
  {
    RipeIsFront(history, cutoff);
  }

  lemma DropThenAppend(front: seq<LagSample>, x: LagSample, k: nat)
    requires k <= |front|
    ensures front[k..] + [x] == (front + [x])[k..]
  {
  }

  lemma DropTwice(s: seq<LagSample>, k: nat, m: nat)
    requires k + m <= |s|
    ensures s[k..][m..] == s[k + m..]
  {
  }

  /** One push: the buffer `xs[k..]` drops its ripe front, and the last one dropped is served. */
  lemma LagPush(us: nat, front: seq<LagSample>, x: LagSample, k: nat) returns (m: nat)
    requires k <= |front|
    ensures var xs := front + [x];
            var e := ApplyLag(us, front[k..], x.ctx, x.at);
            && m == Ripe(xs[k..], x.at - us) && k + m <= |xs|
            && e.stage == Lag(us, xs[k + m..])
            && e.ctx == (if m == 0 then None else Some(xs[k + m - 1].ctx.(derived := true)))
            && (m > 0 ==> xs[k + m - 1].at + us <= x.at)
  {
    hide Ripe;
    var xs := front + [x];
    DropThenAppend(front, x, k);
    m := Ripe(xs[k..], x.at - us);
    DropTwice(xs, k, m);
    assert [LagSample(x.at, x.ctx)] == [x];
    if m > 0 {
      LastRipe(xs[k..], x.at - us);
      assert xs[k..][m - 1] == xs[k + m - 1];
    }
  }

  lemma ClockPrefix(front: seq<LagSample>, x: LagSample)
    requires ClockNeverGoesBack(front + [x])
    ensures ClockNeverGoesBack(front) && (front != [] ==> front[|front| - 1].at <= x.at)
  {
    var all := front + [x];
    assert forall i :: 0 <= i < |front| ==> all[i] == front[i];
    if front != [] { assert all[|front| - 1].at <= all[|front|].at; }
  }

  /** After the whole history a lag stage, empty at first, holds the part of it newer than `now - lag`,
      and the newest sample it has served is the newest one that is not. */
  predicate LooksUpHistory(num: Numerics, us: nat, history: seq<LagSample>)
    requires history != []
  {
    var cutoff := history[|history| - 1].at - us;
    var k := Ripe(history, cutoff);
    var run := RunStage(num, Lag(us, []), history);
    && SplitsAt(history, k, cutoff)
    && run.stage == Lag(us, history[k..])
    && NewestServed(run.outs) == if k == 0 then None else Some(history[k - 1].ctx.(derived := true))
  }

  /** A stage that holds `front[k..]` looks up the history once one more sample has entered, if all it has
      dropped is old enough by then. */
  lemma {:induction false} LookUpStep(num: Numerics, us: nat, front: seq<LagSample>, x: LagSample, k: nat)
    requires ClockNeverGoesBack(front + [x]) && k <= |front|
    requires RunStage(num, Lag(us, []), front).stage == Lag(us, front[k..])
    requires NewestServed(RunStage(num, Lag(us, []), front).outs) == if k == 0 then None
             else Some(front[k - 1].ctx.(derived := true))
    requires forall i :: 0 <= i < k ==> front[i].at <= x.at - us
    ensures LooksUpHistory(num, us, front + [x])
  {
    hide Ripe, ClockNeverGoesBack, RunStage, SplitsAt;
    var history := front + [x];
    RipeSplits(history, x.at - us);
    var m := LagStagePush(num, us, front, x, k);
    RipeAfter(history, k, x.at - us);
  }

  lemma LookUpContinues(num: Numerics, us: nat, front: seq<LagSample>, x: LagSample)
    requires ClockNeverGoesBack(front + [x]) && front != [] && LooksUpHistory(num, us, front)
    ensures LooksUpHistory(num, us, front + [x])
  {
    hide Ripe, ClockNeverGoesBack, RunStage;
    ClockPrefix(front, x);
    LookUpStep(num, us, front, x, Ripe(front, front[|front| - 1].at - us));
  }

  lemma LookUpStarts(num: Numerics, us: nat, x: LagSample)
    ensures LooksUpHistory(num, us, [x])
  {
    hide LooksUpHistory, RunStage;
    BeforeTheFirst(num, us, x);
    assert [] + [x] == [x];
    LookUpStep(num, us, [], x, 0);
  }

  lemma {:induction false} BeforeTheFirst(num: Numerics, us: nat, x: LagSample)
    ensures ClockNeverGoesBack([x]) && RunStage(num, Lag(us, []), []) == StageTrace(Lag(us, []), [])
  {
  }

  /** A lag stage is a look-up in the full history, as long as the clock does not go back. */
  lemma LagIsHistoryLookup(num: Numerics, us: nat, history: seq<LagSample>)
    requires history != [] && ClockNeverGoesBack(history)
    ensures LooksUpHistory(num, us, history)
    decreases |history|
  {
    hide LooksUpHistory, ClockNeverGoesBack;
    var front, x := history[..|history| - 1], history[|history| - 1];
    assert history == front + [x];
    if front == [] {
      LookUpStarts(num, us, x);
      assert history == [x];
    } else {
      ClockPrefix(front, x);
      LagIsHistoryLookup(num, us, front);
      LookUpContinues(num, us, front, x);
    }
  }

  // ---------------------------------------------------------------- samples through the pipeline

  datatype PipeTrace = PipeTrace(stages: seq<Transform>, outs: seq<LagSample>)

  /** The whole pipeline fed with the stream, one sample at a time, as `eval` does. */
  function RunPipe(num: Numerics, stages: seq<Transform>, xs: seq<LagSample>): (r: PipeTrace)
    ensures |r.stages| == |stages|
  {
    if xs == [] then PipeTrace(stages, [])
    else
      var before := RunPipe(num, stages, xs[..|xs| - 1]);
      var x := xs[|xs| - 1];
      var e := RunStages(num, before.stages, x.ctx, x.at);
      PipeTrace(e.stages, before.outs + Emitted(x.at, e.ctx))
  }

  /** Feeding samples through all stages one by one is the same as feeding the whole stream through
      the first stage and what it emits through the rest: a later stage sees, and is changed by,
      only what the stages before it emit. */
  lemma {:induction false} StagesCompose(num: Numerics, stages: seq<Transform>, xs: seq<LagSample>)
    requires stages != []
    ensures var first := RunStage(num, stages[0], xs);
            var rest := RunPipe(num, stages[1..], first.outs);
            RunPipe(num, stages, xs) == PipeTrace([first.stage] + rest.stages, rest.outs)
    decreases |xs|
  {
    hide ApplyTransform;
    if xs == [] {
      assert stages == [stages[0]] + stages[1..];
    } else {
      var x := xs[|xs| - 1];
      StagesCompose(num, stages, xs[..|xs| - 1]);
      var first := RunStage(num, stages[0], xs[..|xs| - 1]);
      var rest := RunPipe(num, stages[1..], first.outs);
      var all := [first.stage] + rest.stages;
      assert all[0] == first.stage && all[1..] == rest.stages;
      var e := ApplyTransform(num, first.stage, x.ctx, x.at);
      if e.ctx.None? {
        assert first.outs + [] == first.outs && rest.outs + [] == rest.outs;
      } else {
        var fed := first.outs + [LagSample(x.at, e.ctx.value)];
        assert fed[..|fed| - 1] == first.outs;
      }
    }
  }

  // ---------------------------------------------------------------- what becomes of a sample

  /** Everything but the value and the derived mark is taken over unchanged. */
  predicate Carries(y: EvalCtx, x: EvalCtx) {
    y.confRatio == x.confRatio && y.publishTime == x.publishTime && y.slot == x.slot && y.source == x.source
  }

  predicate Increasing(src: seq<nat>) {
    forall i, j :: 0 <= i < j < |src| ==> src[i] < src[j]
  }

  function DelayOf(t: Transform): nat { if t.Lag? then t.us else 0 }

  function TotalDelay(stages: seq<Transform>): nat {
    if stages == [] then 0 else DelayOf(stages[0]) + TotalDelay(stages[1..])
  }

  /** As configured: no lag stage holds a sample yet. */
  predicate Unused(t: Transform) { t.Lag? ==> t.buf == [] }

  /** What a stage yields for sample `j` of a stream, in the state the samples before it left it in. */
  function YieldAt(num: Numerics, t: Transform, xs: seq<LagSample>, j: nat): Option<EvalCtx>
    requires j < |xs|
  {
    ApplyTransform(num, RunStage(num, t, xs[..j]).stage, xs[j].ctx, xs[j].at).ctx
  }

  /** Sample `j` of the stream leaves the stage as `y`: a lag keeps all of it and holds it back; every
      other stage emits what it yields for it, at the moment it enters. */
  predicate Gives(num: Numerics, t: Transform, xs: seq<LagSample>, j: nat, y: LagSample) {
    && j < |xs|
    && if t.Lag? then y.ctx == xs[j].ctx.(derived := true) && y.at >= xs[j].at + t.us
       else y.at == xs[j].at && YieldAt(num, t, xs, j) == Some(y.ctx)
  }

  /** `ys[k]` is what becomes of `xs[src[k]]`, in order and without repetition. */
  predicate StageFrom(num: Numerics, t: Transform, xs: seq<LagSample>, ys: seq<LagSample>, src: seq<nat>) {
    && |src| == |ys| && Increasing(src)
    && forall k :: 0 <= k < |src| ==> Gives(num, t, xs, src[k], ys[k])
  }

  /** Sample `j` of the stream leaves the pipeline as `y`: the first stage gives it as some sample of its
      own output, and the rest makes `y` of that. */
  ghost predicate Becomes(num: Numerics, stages: seq<Transform>, xs: seq<LagSample>, j: nat, y: LagSample)
    decreases |stages|
  {
    if stages == [] then j < |xs| && y == xs[j]
    else
      var ys := RunStage(num, stages[0], xs).outs;
      exists i: nat :: i < |ys| && Gives(num, stages[0], xs, j, ys[i]) && Becomes(num, stages[1..], ys, i, y)
  }

  /** `ys[k]` is what becomes of `xs[src[k]]` in the whole pipeline, in order and without repetition. */
  ghost predicate PipeFrom(num: Numerics, stages: seq<Transform>, xs: seq<LagSample>, ys: seq<LagSample>,
                           src: seq<nat>) {
    && |src| == |ys| && Increasing(src)
    && forall k :: 0 <= k < |src| ==> Becomes(num, stages, xs, src[k], ys[k])
  }

  lemma GivesInLonger(num: Numerics, t: Transform, front: seq<LagSample>, x: LagSample, j: nat, y: LagSample)
    requires Gives(num, t, front, j, y)
    ensures Gives(num, t, front + [x], j, y)
  {
    hide RunStage, ApplyTransform;
    assert (front + [x])[..j] == front[..j];
  }

  lemma LongerInput(num: Numerics, t: Transform, ys: seq<LagSample>, front: seq<LagSample>, x: LagSample, src: seq<nat>)
    requires StageFrom(num, t, front, ys, src)
    ensures StageFrom(num, t, front + [x], ys, src)
  {
    hide Gives;
    forall k | 0 <= k < |src|
      ensures Gives(num, t, front + [x], src[k], ys[k])
    {
      GivesInLonger(num, t, front, x, src[k], ys[k]);
    }
  }

  lemma OneMore(num: Numerics, t: Transform, ys: seq<LagSample>, xs: seq<LagSample>, src: seq<nat>, y: LagSample,
                j: nat)
    requires StageFrom(num, t, xs, ys, src) && forall k :: 0 <= k < |src| ==> src[k] < j
    requires Gives(num, t, xs, j, y)
    ensures StageFrom(num, t, xs, ys + [y], src + [j])
  {
    hide Gives;
  }

  /** A plain stage emits exactly what it yields, sample by sample, at the moment each enters. */
  lemma PlainStageOrder(num: Numerics, t: Transform, xs: seq<LagSample>) returns (src: seq<nat>)
    requires !t.Lag?
    ensures StageFrom(num, t, xs, RunStage(num, t, xs).outs, src)
    ensures forall k :: 0 <= k < |src| ==> src[k] < |xs|
    ensures forall j :: 0 <= j < |xs| ==> (j in src <==> YieldAt(num, t, xs, j).Some?)
    decreases |xs|
  {
    src := [];
    if xs != [] {
      var front, x := xs[..|xs| - 1], xs[|xs| - 1];
      src := PlainStageOrder(num, t, front);
      hide RunStage, ApplyTransform, StageFrom;
      var before := RunStage(num, t, front);
      var e := ApplyTransform(num, before.stage, x.ctx, x.at);
      assert xs == front + [x];
      RunStageStep(num, t, front, x);
      LongerInput(num, t, before.outs, front, x, src);
      forall j | 0 <= j < |front|
        ensures YieldAt(num, t, xs, j) == YieldAt(num, t, front, j)
      {
        assert xs[..j] == front[..j];
      }
      if e.ctx.Some? {
        OneMore(num, t, before.outs, xs, src, LagSample(x.at, e.ctx.value), |front|);
        src := src + [|front|];
      } else {
        assert before.outs + [] == before.outs;
      }
    }
  }

  lemma PlainCarries(num: Numerics, t: Transform, ctx: EvalCtx, now: int)
    requires !t.Lag?
    ensures var e := ApplyTransform(num, t, ctx, now);
            !e.stage.Lag? && (e.ctx.Some? ==> Carries(e.ctx.value, ctx))
  {
  }

  lemma {:induction false} RunStageStep(num: Numerics, t: Transform, front: seq<LagSample>, x: LagSample)
    ensures var before := RunStage(num, t, front);
            var e := ApplyTransform(num, before.stage, x.ctx, x.at);
            RunStage(num, t, front + [x]) == StageTrace(e.stage, before.outs + Emitted(x.at, e.ctx))
  {
    assert (front + [x])[..|front|] == front;
  }

  /** The state of a lag stage after a stream, and where its emissions come from. */
  ghost predicate LagOrder(num: Numerics, us: nat, xs: seq<LagSample>, src: seq<nat>, taken: nat) {
    var r := RunStage(num, Lag(us, []), xs);
    && taken <= |xs| && r.stage == Lag(us, xs[taken..])
    && (forall k :: 0 <= k < |src| ==> src[k] < taken)
    && StageFrom(num, Lag(us, []), xs, r.outs, src)
  }

  /** What one more sample makes a lag stage hold and emit. */
  lemma LagStagePush(num: Numerics, us: nat, front: seq<LagSample>, x: LagSample, taken: nat) returns (m: nat)
    requires taken <= |front| && RunStage(num, Lag(us, []), front).stage == Lag(us, front[taken..])
    ensures var xs := front + [x];
            var outs := RunStage(num, Lag(us, []), front).outs;
            && taken + m <= |xs| && m == Ripe(xs[taken..], x.at - us)
            && (m > 0 ==> xs[taken + m - 1].at + us <= x.at)
            && RunStage(num, Lag(us, []), xs) ==
                 StageTrace(Lag(us, xs[taken + m..]),
                            if m == 0 then outs else outs + [LagSample(x.at, xs[taken + m - 1].ctx.(derived := true))])
  {
    hide RunStage, ApplyLag, Ripe;
    RunStageStep(num, Lag(us, []), front, x);
    m := LagPush(us, front, x, taken);
    var outs := RunStage(num, Lag(us, []), front).outs;
    assert outs + [] == outs;
  }

  lemma LagOrderContinues(num: Numerics, us: nat, front: seq<LagSample>, x: LagSample, src: seq<nat>, taken: nat)
    returns (src': seq<nat>, taken': nat)
    requires LagOrder(num, us, front, src, taken)
    ensures LagOrder(num, us, front + [x], src', taken')
  {
    hide RunStage, StageFrom, YieldAt;
    var outs := RunStage(num, Lag(us, []), front).outs;
    var m := LagStagePush(num, us, front, x, taken);
    LongerInput(num, Lag(us, []), outs, front, x, src);
    src', taken' := src, taken + m;
    if m > 0 {
      var xs, j := front + [x], taken + m - 1;
      OneMore(num, Lag(us, []), outs, xs, src, LagSample(x.at, xs[j].ctx.(derived := true)), j);
      src' := src + [j];
    }
  }

  /** A lag stage emits samples that entered, whole but for the derived mark, in order, each at least
      its lag later. */
  lemma LagStageOrder(num: Numerics, us: nat, xs: seq<LagSample>) returns (src: seq<nat>, taken: nat)
    ensures LagOrder(num, us, xs, src, taken)
    decreases |xs|
  {
    if xs == [] {
      src, taken := [], 0;
    } else {
      var front, x := xs[..|xs| - 1], xs[|xs| - 1];
      src, taken := LagStageOrder(num, us, front);
      hide LagOrder;
      assert xs == front + [x];
      src, taken := LagOrderContinues(num, us, front, x, src, taken);
    }
  }

  lemma StageOrder(num: Numerics, t: Transform, xs: seq<LagSample>) returns (src: seq<nat>)
    requires Unused(t)
    ensures StageFrom(num, t, xs, RunStage(num, t, xs).outs, src)
  {
    hide StageFrom, RunStage;
    if t.Lag? {
      var taken;
      src, taken := LagStageOrder(num, t.us, xs);
    } else {
      src := PlainStageOrder(num, t, xs);
    }
  }

  lemma Through(num: Numerics, stages: seq<Transform>, xs: seq<LagSample>, zs: seq<LagSample>, a: seq<nat>, b: seq<nat>)
    returns (c: seq<nat>)
    requires stages != [] && StageFrom(num, stages[0], xs, RunStage(num, stages[0], xs).outs, a)
    requires PipeFrom(num, stages[1..], RunStage(num, stages[0], xs).outs, zs, b)
    requires forall k :: 0 <= k < |b| ==> b[k] < |a|
    ensures PipeFrom(num, stages, xs, zs, c)
  {
    hide RunStage, Gives;
    c := seq(|b|, k requires 0 <= k < |b| => a[b[k]]);
    var ys := RunStage(num, stages[0], xs).outs;
    forall k | 0 <= k < |c|
      ensures Becomes(num, stages, xs, c[k], zs[k])
    {
      assert Gives(num, stages[0], xs, a[b[k]], ys[b[k]]) && Becomes(num, stages[1..], ys, b[k], zs[k]);
    }
  }

  lemma {:induction false} BecomesInRange(num: Numerics, stages: seq<Transform>, xs: seq<LagSample>, j: nat,
                                          y: LagSample)
    requires Becomes(num, stages, xs, j, y)
    ensures j < |xs|
  {
  }

  /** Through any transform list, what is emitted is an in-order, duplicate-free part of what entered,
      and each emission is what the stages, one after another, make of the sample it comes from. */
  lemma PipelineOrder(num: Numerics, stages: seq<Transform>, xs: seq<LagSample>) returns (src: seq<nat>)
    requires forall k :: 0 <= k < |stages| ==> Unused(stages[k])
    ensures PipeFrom(num, stages, xs, RunPipe(num, stages, xs).outs, src)
    ensures Emissions(num, stages, xs, RunPipe(num, stages, xs).outs, src)
  {
    src := PipelineSources(num, stages, xs);
    hide RunPipe;
    EmissionsOf(num, stages, xs, RunPipe(num, stages, xs).outs, src);
  }

  lemma PipelineSources(num: Numerics, stages: seq<Transform>, xs: seq<LagSample>) returns (src: seq<nat>)
    requires forall k :: 0 <= k < |stages| ==> Unused(stages[k])
    ensures PipeFrom(num, stages, xs, RunPipe(num, stages, xs).outs, src)
    decreases |stages|
  {
    hide RunPipe, RunStage, StageFrom, Becomes;
    if stages == [] {
      src := PassThrough(num, xs);
    } else {
      var first := RunStage(num, stages[0], xs).outs;
      var a := StageOrder(num, stages[0], xs);
      var b := PipelineSources(num, stages[1..], first);
      StagesCompose(num, stages, xs);
      InRange(num, stages[1..], first, RunPipe(num, stages[1..], first).outs, b);
      SourcesMatch(num, stages[0], xs, a);
      src := Through(num, stages, xs, RunPipe(num, stages[1..], first).outs, a, b);
    }
  }

  lemma {:induction false} SourcesMatch(num: Numerics, t: Transform, xs: seq<LagSample>, a: seq<nat>)
    requires StageFrom(num, t, xs, RunStage(num, t, xs).outs, a)
    ensures |a| == |RunStage(num, t, xs).outs|
  {
  }

  lemma InRange(num: Numerics, stages: seq<Transform>, xs: seq<LagSample>, ys: seq<LagSample>, src: seq<nat>)
    requires PipeFrom(num, stages, xs, ys, src)
    ensures forall k :: 0 <= k < |src| ==> src[k] < |xs|
  {
    hide Becomes;
    forall k | 0 <= k < |src|
      ensures src[k] < |xs|
    {
      BecomesInRange(num, stages, xs, src[k], ys[k]);
    }
  }

  lemma PassThrough(num: Numerics, xs: seq<LagSample>) returns (src: seq<nat>)
    ensures PipeFrom(num, [], xs, RunPipe(num, [], xs).outs, src)
  {
    NoStagesPass(num, xs);
    hide RunPipe;
    src := seq(|xs|, k => k);
  }

  // ---------------------------------------------------------------- what that means for the emission

  /** A stage never changes its kind. */
  lemma {:induction false} KindStays(num: Numerics, t: Transform, xs: seq<LagSample>)
    ensures RunStage(num, t, xs).stage.Lag? == t.Lag? && RunStage(num, t, xs).stage.Noise? == t.Noise?
    ensures !t.Lag? && !t.Noise? ==> RunStage(num, t, xs).stage == t
    decreases |xs|
  {
    if xs != [] { KindStays(num, t, xs[..|xs| - 1]); }
  }

  /** Whatever the stages, an emission keeps the confidence, publish time, slot and source of its sample
      and comes at least the sum of all lags after it. */
  lemma {:induction false} EmissionKeeps(num: Numerics, stages: seq<Transform>, xs: seq<LagSample>, j: nat,
                                         y: LagSample)
    requires Becomes(num, stages, xs, j, y)
    ensures j < |xs| && Carries(y.ctx, xs[j].ctx) && y.at >= xs[j].at + TotalDelay(stages)
    decreases |stages|
  {
    hide RunStage, ApplyTransform;
    if stages != [] {
      var ys := RunStage(num, stages[0], xs).outs;
      var i: nat :| i < |ys| && Gives(num, stages[0], xs, j, ys[i]) && Becomes(num, stages[1..], ys, i, y);
      EmissionKeeps(num, stages[1..], ys, i, y);
      if !stages[0].Lag? {
        KindStays(num, stages[0], xs[..j]);
        PlainCarries(num, RunStage(num, stages[0], xs[..j]).stage, xs[j].ctx, xs[j].at);
      }
    }
  }

  /** What a stage without a generator makes of a sample, whenever it comes. */
  function MapOf(num: Numerics, t: Transform, ctx: EvalCtx): Option<EvalCtx> {
    if t.Lag? then Some(ctx.(derived := true)) else ApplyTransform(num, t, ctx, 0).ctx
  }

  function Mapped(num: Numerics, stages: seq<Transform>, ctx: EvalCtx): Option<EvalCtx> {
    if stages == [] then Some(ctx)
    else match MapOf(num, stages[0], ctx) case None => None case Some(c) => Mapped(num, stages[1..], c)
  }

  /** Without noise stages an emission is the composition of the stages applied to its sample, lags
      delaying it and nothing more. */
  lemma {:induction false} EmissionIsMapped(num: Numerics, stages: seq<Transform>, xs: seq<LagSample>, j: nat,
                                            y: LagSample)
    requires Becomes(num, stages, xs, j, y) && forall k :: 0 <= k < |stages| ==> !stages[k].Noise?
    ensures j < |xs| && Mapped(num, stages, xs[j].ctx) == Some(y.ctx)
    decreases |stages|
  {
    hide RunStage, ApplyTransform;
    if stages != [] {
      var ys := RunStage(num, stages[0], xs).outs;
      var i: nat :| i < |ys| && Gives(num, stages[0], xs, j, ys[i]) && Becomes(num, stages[1..], ys, i, y);
      EmissionIsMapped(num, stages[1..], ys, i, y);
      if !stages[0].Lag? {
        KindStays(num, stages[0], xs[..j]);
        AnyTime(num, stages[0], xs[j].ctx, xs[j].at);
      }
    }
  }

  /** Each emission keeps what its sample carries, comes at least the sum of all lags after it, and,
      without noise, is the composition of the stages applied to it. */
  predicate Emissions(num: Numerics, stages: seq<Transform>, xs: seq<LagSample>, ys: seq<LagSample>, src: seq<nat>) {
    && |src| == |ys| && Increasing(src)
    && forall k :: 0 <= k < |src| ==>
         && src[k] < |xs| && Carries(ys[k].ctx, xs[src[k]].ctx) && ys[k].at >= xs[src[k]].at + TotalDelay(stages)
         && ((forall m :: 0 <= m < |stages| ==> !stages[m].Noise?)
            ==> Mapped(num, stages, xs[src[k]].ctx) == Some(ys[k].ctx))
  }

  lemma EmissionsOf(num: Numerics, stages: seq<Transform>, xs: seq<LagSample>, ys: seq<LagSample>, src: seq<nat>)
    requires PipeFrom(num, stages, xs, ys, src)
    ensures Emissions(num, stages, xs, ys, src)
  {
    hide Becomes, Mapped, TotalDelay, Carries;
    forall k | 0 <= k < |src|
      ensures src[k] < |xs| && Carries(ys[k].ctx, xs[src[k]].ctx) && ys[k].at >= xs[src[k]].at + TotalDelay(stages)
      ensures (forall m :: 0 <= m < |stages| ==> !stages[m].Noise?)
              ==> Mapped(num, stages, xs[src[k]].ctx) == Some(ys[k].ctx)
    {
      EmissionKeeps(num, stages, xs, src[k], ys[k]);
      if forall m :: 0 <= m < |stages| ==> !stages[m].Noise? {
        EmissionIsMapped(num, stages, xs, src[k], ys[k]);
      }
    }
  }

  /** A pipeline cut in two: the back is fed with what the front emits. */
  lemma {:induction false} PipeSplit(num: Numerics, stages: seq<Transform>, k: nat, xs: seq<LagSample>)
    requires k <= |stages|
    ensures var front := RunPipe(num, stages[..k], xs);
            var back := RunPipe(num, stages[k..], front.outs);
            RunPipe(num, stages, xs) == PipeTrace(front.stages + back.stages, back.outs)
    decreases k
  {
    hide RunPipe, RunStage;
    if k == 0 {
      NoStagesPass(num, xs);
      assert stages[..0] == [] && stages[0..] == stages;
      assert [] + RunPipe(num, stages, xs).stages == RunPipe(num, stages, xs).stages;
    } else {
      StagesCompose(num, stages, xs);
      StagesCompose(num, stages[..k], xs);
      assert stages[..k][0] == stages[0] && stages[..k][1..] == stages[1..][..k - 1]
        && stages[1..][k - 1..] == stages[k..];
      var first := RunStage(num, stages[0], xs);
      PipeSplit(num, stages[1..], k - 1, first.outs);
      var front := RunPipe(num, stages[1..][..k - 1], first.outs);
      var back := RunPipe(num, stages[k..], front.outs);
      assert [first.stage] + (front.stages + back.stages) == [first.stage] + front.stages + back.stages;
    }
  }

  lemma AnyTime(num: Numerics, t: Transform, ctx: EvalCtx, now: int)
    requires !t.Lag? && !t.Noise?
    ensures ApplyTransform(num, t, ctx, now).ctx == ApplyTransform(num, t, ctx, 0).ctx
  {
  }

  /** The state of a noise generator after `n` samples of a stream have reached its stage. */
  function GenAfter(num: Numerics, gen: GenState, xs: seq<LagSample>, n: nat): GenState
    requires n <= |xs|
  {
    if n == 0 then gen else num.noise(GenAfter(num, gen, xs, n - 1), xs[n - 1].at).next
  }

  lemma {:induction false} GenIs(num: Numerics, gen: GenState, xs: seq<LagSample>, n: nat)
    requires n <= |xs|
    ensures RunStage(num, Noise(gen), xs[..n]).stage == Noise(GenAfter(num, gen, xs, n))
    decreases n
  {
    if n > 0 {
      GenIs(num, gen, xs, n - 1);
      assert xs[..n][..n - 1] == xs[..n - 1];
    }
  }

  /** Through a noise stage a sample's value is multiplied by the factor drawn when it enters, from the
      state the samples before it left the generator in. */
  lemma {:induction false} NoiseMultiplies(num: Numerics, gen: GenState, xs: seq<LagSample>, j: nat, y: LagSample)
    requires Gives(num, Noise(gen), xs, j, y)
    ensures j < |xs| && y.at == xs[j].at
    ensures var factor := num.noise(GenAfter(num, gen, xs, j), xs[j].at).factor;
            factor.Some? && num.mul(xs[j].ctx.value, factor.value) == Some(y.ctx.value)
  {
    GenIs(num, gen, xs, j);
  }

  lemma {:induction false} NoStagesPass(num: Numerics, xs: seq<LagSample>)
    ensures RunPipe(num, [], xs) == PipeTrace([], xs)
    decreases |xs|
  {
    hide RunStages;
    if xs != [] {
      var front, x := xs[..|xs| - 1], xs[|xs| - 1];
      NoStagesPass(num, front);
      NoStages(num, x.ctx, x.at);
      assert xs == front + [x] && [LagSample(x.at, x.ctx)] == [x];
    }
  }
}
