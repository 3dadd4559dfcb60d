/** The published cache agrees with evaluating an instrument from scratch. */
module CacheAgreement {
  import opened Wrappers
  import opened Decimals
  import opened Instruments
  import opened Engine
  import opened NonInterference

  /** Same price, confidence, publish time, slot and source; only the time of receipt may differ. */
  predicate SameQuote(a: PricePoint, b: PricePoint) {
    a.(receivedAt := 0) == b.(receivedAt := 0)
  }

  predicate SameQuotes(a: Option<PricePoint>, b: Option<PricePoint>) {
    a.Some? == b.Some? && (a.Some? ==> SameQuote(a.value, b.value))
  }

  predicate Stateless(t: Transform) { t.Scale? || t.Invert? }

  /** Priced from feeds, with transforms that keep no state. */
  predicate Recomputable(inst: Instrument) {
    && !ClockDriven(inst.base)
    && forall k :: 0 <= k < |inst.transforms| ==> Stateless(inst.transforms[k])
  }

  // ---------------------------------------------------------------- evaluating twice

  lemma {:induction false} StatelessStages(num: Numerics, stages: seq<Transform>, ctx: EvalCtx, now: int, now': int)
    requires forall k :: 0 <= k < |stages| ==> Stateless(stages[k])
    ensures RunStages(num, stages, ctx, now).stages == stages
    ensures RunStages(num, stages, ctx, now) == RunStages(num, stages, ctx, now')
    decreases |stages|
  {
    if stages != [] {
      var first := ApplyTransform(num, stages[0], ctx, now);
      assert first == ApplyTransform(num, stages[0], ctx, now') && first.stage == stages[0];
      if first.ctx.Some? {
        StatelessStages(num, stages[1..], first.ctx.value, now, now');
      }
      assert stages == [stages[0]] + stages[1..];
    }
  }

  lemma BaseTwice(num: Numerics, b: Base, latest: Latest, now: int, now': int)
    requires !ClockDriven(b)
    ensures var e := EvalBase(num, b, latest, now);
            !ClockDriven(e.base) && FeedsUsed(e.base) == FeedsUsed(b)
            && EvalBase(num, e.base, latest, now') == e
  {
  }

  /** Evaluating again at another time gives the same quote and changes nothing. */
  lemma EvalTwice(num: Numerics, inst: Instrument, latest: Latest, now: int, now': int)
    requires Recomputable(inst)
    ensures var e := Eval(num, inst, latest, now);
            && Recomputable(e.inst) && FeedsUsed(e.inst.base) == FeedsUsed(inst.base)
            && Eval(num, e.inst, latest, now').inst == e.inst
            && SameQuotes(Eval(num, e.inst, latest, now').point, e.point)
  {
    BaseTwice(num, inst.base, latest, now, now');
    var b := EvalBase(num, inst.base, latest, now);
    hide EvalBase, RunStages, FromDecimal;
    if b.ctx.Some? {
      StatelessStages(num, inst.transforms, b.ctx.value, now, now');
    }
  }

  // ---------------------------------------------------------------- what an evaluation reads

  lemma {:induction false} LegsRead(num: Numerics, legs: seq<Leg>, latest: Latest, latest': Latest)
    requires forall k :: 0 <= k < |legs| ==> SameAt(latest, latest', legs[k].feed)
    ensures SumLegs(num, legs, latest) == SumLegs(num, legs, latest')
    decreases |legs|
  {
    if legs != [] { LegsRead(num, legs[..|legs| - 1], latest, latest'); }
  }

  predicate SameAt(a: Latest, b: Latest, feed: Symbol) {
    (feed in a <==> feed in b) && (feed in a ==> a[feed] == b[feed])
  }

  /** An evaluation depends on the feeds it uses and on no other. */
  lemma EvalReads(num: Numerics, inst: Instrument, latest: Latest, latest': Latest, now: int)
    requires !ClockDriven(inst.base)
    requires forall k :: 0 <= k < |FeedsUsed(inst.base)| ==> SameAt(latest, latest', FeedsUsed(inst.base)[k])
    ensures Eval(num, inst, latest, now) == Eval(num, inst, latest', now)
  {
    var b := inst.base;
    var feeds := FeedsUsed(b);
    hide SumLegs;
    if b.Basket? {
      forall k | 0 <= k < |b.legs|
        ensures SameAt(latest, latest', b.legs[k].feed)
      {
        assert feeds[k] == b.legs[k].feed;
      }
      LegsRead(num, b.legs, latest, latest');
    } else {
      assert SameAt(latest, latest', feeds[0]);
      assert b.Cross? ==> SameAt(latest, latest', feeds[1]);
    }
    assert EvalBase(num, b, latest, now) == EvalBase(num, b, latest', now);
  }

  lemma {:induction false} CountZero(feeds: seq<Symbol>, f: Symbol)
    ensures Count(feeds, f) == 0 <==> f !in feeds
    decreases |feeds|
  {
    if feeds != [] {
      CountZero(feeds[..|feeds| - 1], f);
      assert feeds == feeds[..|feeds| - 1] + [feeds[|feeds| - 1]];
    }
  }

  // ---------------------------------------------------------------- one instrument on its own

  /** If evaluating now succeeds, the newest emitted point is that quote. */
  ghost predicate NewestIsCurrent(num: Numerics, inst: Instrument, latest: Latest, out: seq<PricePoint>) {
    forall now :: Eval(num, inst, latest, now).point.Some? ==>
      out != [] && SameQuotes(Eval(num, inst, latest, now).point, Some(out[|out| - 1]))
  }

  /** What every reachable state of the single-instrument engine keeps. */
  ghost predicate SoloInvariant(num: Numerics, r: Reply, feeds: seq<Symbol>) {
    && |r.state.instruments| == 1
    && Recomputable(r.state.instruments[0])
    && FeedsUsed(r.state.instruments[0].base) == feeds
    && r.state.timed == []
    && (forall f :: IndicesFor(r.state, f) == Solo(Count(feeds, f)))
    && (feeds != [] ==> NewestIsCurrent(num, r.state.instruments[0], r.state.latest, r.out))
  }

  /** Any positive number of visits leaves the instrument as one evaluation does, and the newest
      point emitted by them, if any, is the quote of that evaluation. */
  lemma {:induction false} SoloVisits(num: Numerics, inst: Instrument, n: nat, latest: Latest, now: int)
    requires Recomputable(inst) && n > 0
    ensures var b := VisitAll(num, [inst], Solo(n), latest, now, false);
            var e := Eval(num, inst, latest, now);
            && b.insts == [e.inst]
            && (e.point.Some? ==> b.out != [] && SameQuotes(Some(b.out[|b.out| - 1]), e.point))
    decreases n
  {
    SoloStep(num, inst, n - 1, latest, now, false);
    assert Solo(0) == [];
    if n > 1 {
      SoloVisits(num, inst, n - 1, latest, now);
      EvalTwice(num, inst, latest, now, now);
    }
  }

  lemma CurrentAfterEval(num: Numerics, inst: Instrument, latest: Latest, now: int, before: seq<PricePoint>,
                         out: seq<PricePoint>)
    requires Recomputable(inst)
    requires var e := Eval(num, inst, latest, now);
             e.point.Some? ==> out != [] && SameQuotes(Some(out[|out| - 1]), e.point)
    ensures NewestIsCurrent(num, Eval(num, inst, latest, now).inst, latest, before + out)
  {
    var e := Eval(num, inst, latest, now);
    forall later | Eval(num, e.inst, latest, later).point.Some?
      ensures before + out != []
              && SameQuotes(Eval(num, e.inst, latest, later).point, Some((before + out)[|before + out| - 1]))
    {
      EvalTwice(num, inst, latest, now, later);
    }
  }

  lemma CurrentAfterOtherFeed(num: Numerics, inst: Instrument, latest: Latest, latest': Latest, out: seq<PricePoint>)
    requires !ClockDriven(inst.base) && NewestIsCurrent(num, inst, latest, out)
    requires forall k :: 0 <= k < |FeedsUsed(inst.base)| ==> SameAt(latest, latest', FeedsUsed(inst.base)[k])
    ensures NewestIsCurrent(num, inst, latest', out)
  {
    forall now | Eval(num, inst, latest', now).point.Some?
      ensures out != [] && SameQuotes(Eval(num, inst, latest', now).point, Some(out[|out| - 1]))
    {
      EvalReads(num, inst, latest, latest', now);
    }
  }

  lemma SoloReact(num: Numerics, r: Reply, feeds: seq<Symbol>, e: Event)
    requires Valid(r.state) && SoloInvariant(num, r, feeds)
    ensures var after := React(num, r.state, e);
            SoloInvariant(num, Reply(after.state, r.out + after.out), feeds)
  {
    hide Eval, Solo;
    var st := r.state;
    var inst := st.instruments[0];
    assert st.instruments == [inst];
    var after := React(num, st, e);
    if e.Clock? || Reduce(num, e.point.data).None? {
      assert after.state == st && r.out + after.out == r.out by { EmptySolo(num, st, e); }
    } else {
      var latest, n := after.state.latest, Count(feeds, e.point.symbol);
      CountZero(feeds, e.point.symbol);
      assert IndicesFor(st, e.point.symbol) == Solo(n);
      forall f
        ensures IndicesFor(after.state, f) == Solo(Count(feeds, f))
      {
        assert IndicesFor(st, f) == Solo(Count(feeds, f));
      }
      if n == 0 {
        SoloNone(num, inst, latest, e.now);
        assert r.out + after.out == r.out;
        if feeds != [] { CurrentAfterOtherFeed(num, inst, st.latest, latest, r.out); }
      } else {
        SoloVisits(num, inst, n, latest, e.now);
        EvalTwice(num, inst, latest, e.now, e.now);
        CurrentAfterEval(num, inst, latest, e.now, r.out, after.out);
      }
    }
  }

  lemma EmptySolo(num: Numerics, st: EngineState, e: Event)
    requires Valid(st) && st.timed == [] && (e.Clock? || Reduce(num, e.point.data).None?)
    ensures React(num, st, e) == Reply(st, [])
  {
  }

  lemma {:induction false} SoloNone(num: Numerics, inst: Instrument, latest: Latest, now: int)
    ensures VisitAll(num, [inst], Solo(0), latest, now, false) == Batch([inst], [])
  {
  }

  lemma NothingKnownYet(num: Numerics, inst: Instrument, now: int)
    requires !ClockDriven(inst.base) && FeedsUsed(inst.base) != []
    ensures Eval(num, inst, map[], now).point.None?
  {
  }

  lemma {:induction false} SoloRun(num: Numerics, inst: Instrument, tape: seq<Event>)
    requires Recomputable(inst) && Valid(SoloState(inst))
    ensures SoloInvariant(num, RunTape(num, SoloState(inst), tape), FeedsUsed(inst.base))
    decreases |tape|
  {
    if tape == [] {
      forall f
        ensures IndicesFor(SoloState(inst), f) == Solo(Count(FeedsUsed(inst.base), f))
      {
        SoloStateIs(inst, f);
      }
      SoloStateIs(inst, "");
      if FeedsUsed(inst.base) != [] {
        forall now
          ensures Eval(num, inst, map[], now).point.None?
        {
          NothingKnownYet(num, inst, now);
        }
      }
    } else {
      var front := tape[..|tape| - 1];
      SoloRun(num, inst, front);
      SoloReact(num, RunTape(num, SoloState(inst), front), FeedsUsed(inst.base), tape[|tape| - 1]);
    }
  }

  // ---------------------------------------------------------------- the cache

  lemma {:induction false} PublishedIsNewest(out: seq<PricePoint>, s: Symbol)
    ensures var prices := Published(map[], out);
            && (s in prices <==> OfSymbol(out, s) != [])
            && (s in prices ==> prices[s] == OfSymbol(out, s)[|OfSymbol(out, s)| - 1])
    decreases |out|
  {
    if out != [] { PublishedIsNewest(out[..|out| - 1], s); }
  }

  /** In every reachable state, for each instrument priced from feeds with only scale and invert
      transforms: if evaluating it against the latest prices succeeds, the cache holds exactly that
      quote — if and only if the instrument uses a feed at all. (A basket without legs evaluates to
      its empty sum, but no event ever evaluates it.) */
  lemma {:induction false} CacheAgreesWithRecompute(num: Numerics, cfgs: seq<InstrumentConfig>, known: set<Symbol>,
                                                    i: nat, tape: seq<Event>, now: int)
    requires Build(cfgs, known).Success? && i < |cfgs|
    requires Valid(Build(cfgs, known).value) && i < |Build(cfgs, known).value.instruments|
    requires Recomputable(Build(cfgs, known).value.instruments[i])
    ensures var start := Build(cfgs, known).value;
            var run := RunTape(num, start, tape);
            && i < |run.state.instruments|
            && var inst := run.state.instruments[i];
               var prices := Published(map[], run.out);
               var quote := Eval(num, inst, run.state.latest, now).point;
               quote.Some? ==>
                 (inst.symbol in prices && SameQuote(prices[inst.symbol], quote.value)
                  <==> FeedsUsed(start.instruments[i].base) != [])
  {
    hide Eval, FeedsUsed, Recomputable;
    var start := Build(cfgs, known).value;
    BuildProjects(cfgs, known, i);
    var inst0 := start.instruments[i];
    var solo := SoloState(inst0);
    RunProjects(num, start, solo, i, tape);
    SoloRun(num, inst0, tape);
    var run, own := RunTape(num, start, tape), RunTape(num, solo, tape);
    PublishedIsNewest(run.out, inst0.symbol);
    if FeedsUsed(inst0.base) == [] {
      NeverVisited(num, inst0, tape);
    }
  }

  /** Without feeds and off the clock, nothing is ever emitted. */
  lemma {:induction false} NeverVisited(num: Numerics, inst: Instrument, tape: seq<Event>)
    requires Recomputable(inst) && FeedsUsed(inst.base) == [] && Valid(SoloState(inst))
    ensures RunTape(num, SoloState(inst), tape).out == []
    decreases |tape|
  {
    if tape != [] {
      var front, e := tape[..|tape| - 1], tape[|tape| - 1];
      NeverVisited(num, inst, front);
      SoloRun(num, inst, front);
      var r := RunTape(num, SoloState(inst), front);
      if e.Clock? || Reduce(num, e.point.data).None? {
        EmptySolo(num, r.state, e);
      } else {
        assert IndicesFor(r.state, e.point.symbol) == Solo(Count([], e.point.symbol)) == [];
      }
    }
  }

  /** A registry the engine accepts in which the cache misses a price that evaluates. */
  lemma {:induction false} EmptyBasketIsMissed(num: Numerics, tape: seq<Event>)
    requires num.mul(0.0, 1.0) == Some(0.0)
    ensures var cfg := InstrumentConfig(Some("tEMPTY"), None, 0, BasketConfig([], None), []);
            && Build([cfg], {}).Success? && Valid(Build([cfg], {}).value)
            && var run := RunTape(num, Build([cfg], {}).value, tape);
               && |run.state.instruments| == 1
               && Eval(num, run.state.instruments[0], run.state.latest, 0).point.Some?
               && "tEMPTY" !in Published(map[], run.out)
  {
    var cfg := InstrumentConfig(Some("tEMPTY"), None, 0, BasketConfig([], None), []);
    assert [cfg][..0] == [] && Build([], {}) == Success(EMPTY);
    var inst := Instrument("tEMPTY", 0, Basket([], None, None), [], 0);
    assert BuildInstrument(cfg, {}) == Success(inst);
    assert Build([cfg], {}) == Success(SoloState(inst));
    BuildIsValid([cfg], {});
    NeverVisited(num, inst, tape);
    EmptyBasketStays(num, inst, tape);
    EmptyBasketEvaluates(num, inst, RunTape(num, SoloState(inst), tape).state.latest);
  }

  lemma EmptyBasketEvaluates(num: Numerics, inst: Instrument, latest: Latest)
    requires inst.base == Basket([], None, None) && inst.transforms == [] && inst.expo == 0
    requires num.mul(0.0, 1.0) == Some(0.0)
    ensures Eval(num, inst, latest, 0).point.Some?
  {
    assert RoundHalfEven(0.0) == 0;
  }

  lemma {:induction false} EmptyBasketStays(num: Numerics, inst: Instrument, tape: seq<Event>)
    requires Recomputable(inst) && FeedsUsed(inst.base) == [] && Valid(SoloState(inst))
    ensures RunTape(num, SoloState(inst), tape).state.instruments == [inst]
    decreases |tape|
  {
    if tape == [] {
      SoloStateIs(inst, "");
    } else {
      var front, e := tape[..|tape| - 1], tape[|tape| - 1];
      EmptyBasketStays(num, inst, front);
      SoloRun(num, inst, front);
      var r := RunTape(num, SoloState(inst), front);
      if e.Clock? || Reduce(num, e.point.data).None? {
        EmptySolo(num, r.state, e);
      } else {
        assert IndicesFor(r.state, e.point.symbol) == Solo(Count([], e.point.symbol)) == [];
      }
    }
  }
}
