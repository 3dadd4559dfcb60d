/** The clock: how often an instrument is evaluated, and what an overflow in its schedule does. */
module Schedule {
  import opened Wrappers
  import opened MachineInts
  import opened Decimals
  import opened Instruments
  import opened Engine
  import opened NonInterference
  import opened Registry

  // ---------------------------------------------------------------- the interval

  /** The pause a configured `tick_ms` comes to: positive exactly up to `i64::MAX / 1000`; zero or
      negative exactly when the cast wraps and the product still fits; otherwise the engine aborts. */
  lemma IntervalCases(tickMs: nat, gen: GenState)
    requires ENGINE_TICK_MS <= tickMs <= U64_MAX
    ensures var i := Interval(Gbm(tickMs, gen));
            && (i.Some? && i.value > 0 <==> tickMs <= I64_MAX / 1000)
            && (i.Some? && i.value <= 0 <==> tickMs >= U64_MAX + 1 - (I64_MAX + 1) / 1000)
            && (i.None? <==> I64_MAX / 1000 < tickMs < U64_MAX + 1 - (I64_MAX + 1) / 1000)
            && (i.Some? && i.value > 0 ==> i.value == 1000 * tickMs)
  {
  }

  /** A configured pause that fits: one second for a peg; for a generator its milliseconds, but at least 250. */
  predicate HasPause(cfg: BaseConfig) { cfg.PegConfig? || (cfg.GbmConfig? && cfg.tickMs <= 9_223_372_036_854_775) }

  function PauseOf(cfg: BaseConfig): int
    requires HasPause(cfg)
  {
    if cfg.PegConfig? then 1_000_000 else if cfg.tickMs < 250 then 250_000 else cfg.tickMs * 1000
  }

  lemma PauseIsInterval(b: Base, cfg: BaseConfig)
    requires BaseIs(b, cfg) && HasPause(cfg)
    ensures ClockDriven(b) && Interval(b) == Some(PauseOf(cfg))
  {
  }

  /** The wrapped cast at work: the largest `u64` gives a negative pause. */
  lemma WrappedInterval(gen: GenState)
    ensures Interval(Gbm(U64_MAX, gen)) == Some(-1000)
  {
  }

  /** Accepted, and it fits an `i64`: the first value whose product does not. */
  lemma {:induction false} OverflowingInterval(cfg: InstrumentConfig, gen: GenState, known: set<Symbol>)
    requires cfg == InstrumentConfig(Some("tGBM"), None, 0, GbmConfig(Some(gen), 9_223_372_036_854_776), [])
    ensures Build([cfg], known).Success? && |Build([cfg], known).value.instruments| == 1
    ensures Interval(Build([cfg], known).value.instruments[0].base).None?
  {
    assert [cfg][..0] == [] && Build([], known) == Success(EMPTY);
  }

  // ---------------------------------------------------------------- evaluation times

  /** The times at which instrument `i` is evaluated by the clock. */
  function EvalTimes(num: Numerics, st: EngineState, i: nat, tape: seq<Event>): seq<int>
    requires Valid(st) && i < |st.instruments|
  {
    if tape == [] then []
    else
      var front, e := tape[..|tape| - 1], tape[|tape| - 1];
      EvalTimes(num, st, i, front) + (if Turns(RunTape(num, st, front).state, i, e) then [e.now] else [])
  }

  /** The event evaluates instrument `i` on the clock. */
  predicate Turns(st: EngineState, i: nat, e: Event) {
    && e.Clock? && i < |st.instruments| && i in st.timed
    && st.instruments[i].nextDue <= e.now && NextDue(st.instruments[i].base, e.now).Some?
  }

  /** An evaluation never changes the schedule. */
  lemma EvalKeepsSchedule(num: Numerics, inst: Instrument, latest: Latest, now: int)
    ensures var e := Eval(num, inst, latest, now).inst;
            && e.nextDue == inst.nextDue && Interval(e.base) == Interval(inst.base)
            && ClockDriven(e.base) == ClockDriven(inst.base) && FeedsUsed(e.base) == FeedsUsed(inst.base)
  {
  }

  /** What a clock-driven instrument's own engine keeps: no feed reaches it. */
  predicate OnClockOnly(st: EngineState, interval: Option<int>) {
    && |st.instruments| == 1 && ClockDriven(st.instruments[0].base) && Interval(st.instruments[0].base) == interval
    && st.timed == [0] && st.byFeed == map[]
  }

  lemma SoloOnClock(inst: Instrument)
    requires ClockDriven(inst.base)
    ensures OnClockOnly(SoloState(inst), Interval(inst.base))
  {
    SoloStateIs(inst, "");
  }

  /** Clock-driven and feed-driven are disjoint: an underlying tick never advances such an instrument;
      a clock event evaluates it when due and then books the next turn one interval later. */
  lemma ClockStep(num: Numerics, st: EngineState, e: Event, interval: Option<int>)
    requires Valid(st) && OnClockOnly(st, interval)
    ensures var after := React(num, st, e).state;
            && OnClockOnly(after, interval)
            && (e.Observed? ==> after.instruments == st.instruments && React(num, st, e).out == [])
            && (!Turns(st, 0, e) ==> after.instruments == st.instruments)
            && (Turns(st, 0, e) ==> interval.Some? && after.instruments[0].nextDue == e.now + interval.value)
  {
    var inst := st.instruments[0];
    assert st.instruments == [inst];
    if e.Clock? {
      assert [0][..0] == [];
      if Turns(st, 0, e) {
        EvalKeepsSchedule(num, inst.(nextDue := NextDue(inst.base, e.now).value), st.latest, e.now);
      }
      hide Eval;
      assert VisitAll(num, [inst], [], st.latest, e.now, true) == Batch([inst], []);
    }
  }

  predicate Gap(times: seq<int>, k: nat, interval: int)
    requires k + 1 < |times|
  {
    times[k + 1] - times[k] >= interval
  }

  predicate Gaps(times: seq<int>, interval: int) {
    forall k: nat :: k + 1 < |times| ==> Gap(times, k, interval)
  }

  /** The gaps are at least the interval, and the next turn is one interval after the last one; with an
      interval that overflows there is no turn at all. */
  predicate Spaced(times: seq<int>, interval: Option<int>, nextDue: int) {
    match interval
    case None => times == []
    case Some(us) => Gaps(times, us) && (times != [] ==> nextDue == times[|times| - 1] + us)
  }

  lemma SpacedOneMore(times: seq<int>, us: int, nextDue: int, t: int)
    requires Spaced(times, Some(us), nextDue) && t >= nextDue
    ensures Spaced(times + [t], Some(us), t + us)
  {
    var all := times + [t];
    forall k: nat | k + 1 < |all|
      ensures Gap(all, k, us)
    {
      if k + 1 < |times| { assert Gap(times, k, us); }
    }
  }

  lemma {:induction false} SoloSpacing(num: Numerics, inst: Instrument, tape: seq<Event>)
    requires ClockDriven(inst.base) && Valid(SoloState(inst)) && |SoloState(inst).instruments| == 1
    ensures var st := RunTape(num, SoloState(inst), tape).state;
            && OnClockOnly(st, Interval(inst.base))
            && Spaced(EvalTimes(num, SoloState(inst), 0, tape), Interval(inst.base), st.instruments[0].nextDue)
            && (Interval(inst.base).None? ==> st.instruments == [inst])
    decreases |tape|
  {
    hide React, ClockDriven, Interval, Spaced, Turns;
    if tape == [] {
      SoloOnClock(inst);
      NothingYet(Interval(inst.base), inst.nextDue);
      SoloStateIs(inst, "");
    } else {
      var front, e := tape[..|tape| - 1], tape[|tape| - 1];
      SoloSpacing(num, inst, front);
      var st, times := RunTape(num, SoloState(inst), front).state, EvalTimes(num, SoloState(inst), 0, front);
      ClockStep(num, st, e, Interval(inst.base));
      if Turns(st, 0, e) {
        DueWhenItTurns(st, e);
        SpacedOneMore(times, Interval(inst.base).value, st.instruments[0].nextDue, e.now);
      } else {
        assert times + [] == times;
      }
    }
  }

  lemma DueWhenItTurns(st: EngineState, e: Event)
    requires Turns(st, 0, e)
    ensures e.Clock? && |st.instruments| > 0 && e.now >= st.instruments[0].nextDue
  {
  }

  lemma NothingYet(interval: Option<int>, nextDue: int)
    ensures Spaced([], interval, nextDue)
  {
  }

  lemma {:induction false} HitsMember(idxs: seq<nat>, i: nat)
    ensures i in idxs <==> Hits(idxs, i) > 0
    decreases |idxs|
  {
    if idxs != [] {
      HitsMember(idxs[..|idxs| - 1], i);
      assert idxs == idxs[..|idxs| - 1] + [idxs[|idxs| - 1]];
    }
  }

  /** An instrument is on the clock of its own engine when it is on that of the registry. */
  lemma SameClock(full: EngineState, solo: EngineState, i: nat)
    requires Shadows(full, solo, i)
    ensures 0 in solo.timed <==> i in full.timed
    ensures forall e :: Turns(full, i, e) <==> Turns(solo, 0, e)
  {
    HitsMember(full.timed, i);
    if Hits(full.timed, i) > 0 { assert solo.timed[0] == 0; }
  }

  /** The clock treats an instrument in a registry as it treats it alone. */
  lemma {:induction false} SameTimes(num: Numerics, full: EngineState, solo: EngineState, i: nat, tape: seq<Event>)
    requires Shadows(full, solo, i)
    ensures EvalTimes(num, full, i, tape) == EvalTimes(num, solo, 0, tape)
    decreases |tape|
  {
    hide Turns, React;
    if tape != [] {
      var front := tape[..|tape| - 1];
      SameTimes(num, full, solo, i, front);
      RunProjects(num, full, solo, i, front);
      SameClock(RunTape(num, full, front).state, RunTape(num, solo, front).state, i);
    }
  }

  /** Consecutive evaluations of a clock-driven instrument are at least its interval apart; when the
      interval overflows there are none. */
  lemma {:induction false} EvaluationsAreSpaced(num: Numerics, cfgs: seq<InstrumentConfig>, known: set<Symbol>,
                                                i: nat, tape: seq<Event>)
    requires Build(cfgs, known).Success? && Valid(Build(cfgs, known).value)
             && i < |Build(cfgs, known).value.instruments|
    requires ClockDriven(Build(cfgs, known).value.instruments[i].base)
    ensures var st := Build(cfgs, known).value;
            match Interval(st.instruments[i].base)
            case None => EvalTimes(num, st, i, tape) == []
            case Some(us) => Gaps(EvalTimes(num, st, i, tape), us)
  {
    var st := Build(cfgs, known).value;
    BuildIsFresh(cfgs, known);
    BuildProjects(cfgs, known, i);
    var inst := st.instruments[i];
    SameTimes(num, st, SoloState(inst), i, tape);
    SoloSpacing(num, inst, tape);
  }

  /** When something that is due at zero, and then a pause after each time it was evaluated, is evaluated:
      at every clock event that finds it due, unless booking the next turn would overflow. */
  function WhenDue(tape: seq<Event>, pause: int): seq<int> {
    if tape == [] then []
    else
      var before, e := WhenDue(tape[..|tape| - 1], pause), tape[|tape| - 1];
      if e.Clock? && e.now >= DueAfter(before, pause) && FitsI64(e.now + pause) then before + [e.now] else before
  }

  function DueAfter(times: seq<int>, pause: int): int {
    if times == [] then 0 else times[|times| - 1] + pause
  }

  lemma {:induction false} SoloWhenDue(num: Numerics, inst: Instrument, pause: int, tape: seq<Event>)
    requires ClockDriven(inst.base) && Interval(inst.base) == Some(pause) && inst.nextDue == 0
    requires Valid(SoloState(inst)) && |SoloState(inst).instruments| == 1
    ensures var st := RunTape(num, SoloState(inst), tape).state;
            && OnClockOnly(st, Some(pause))
            && EvalTimes(num, SoloState(inst), 0, tape) == WhenDue(tape, pause)
            && st.instruments[0].nextDue == DueAfter(WhenDue(tape, pause), pause)
    decreases |tape|
  {
    hide React, ClockDriven, Interval;
    if tape == [] {
      SoloOnClock(inst);
      SoloStateIs(inst, "");
    } else {
      var front, e := tape[..|tape| - 1], tape[|tape| - 1];
      SoloWhenDue(num, inst, pause, front);
      var st := RunTape(num, SoloState(inst), front).state;
      ClockStep(num, st, e, Some(pause));
      TurnsWhen(st, e, pause);
    }
  }

  lemma TurnsWhen(st: EngineState, e: Event, pause: int)
    requires OnClockOnly(st, Some(pause))
    ensures Turns(st, 0, e) <==> e.Clock? && e.now >= st.instruments[0].nextDue && FitsI64(e.now + pause)
  {
  }

  /** In any run of an accepted registry a peg is evaluated at the first clock event and then at each one
      that comes at least a second after the last; a generator likewise after its own pause. */
  lemma {:induction false} EvaluatedWhenDue(num: Numerics, cfgs: seq<InstrumentConfig>, known: set<Symbol>, i: nat,
                                            tape: seq<Event>)
    requires Build(cfgs, known).Success? && i < |cfgs| && HasPause(cfgs[i].base)
    ensures Valid(Build(cfgs, known).value) && i < |Build(cfgs, known).value.instruments|
    ensures EvalTimes(num, Build(cfgs, known).value, i, tape) == WhenDue(tape, PauseOf(cfgs[i].base))
  {
    hide Build, EvalTimes, WhenDue, RunTape, InstrumentIs, ClockDriven, Interval;
    BuildIsFresh(cfgs, known);
    BuildProjects(cfgs, known, i);
    RegistryIsBuilt(cfgs, known);
    var inst := Build(cfgs, known).value.instruments[i];
    PauseOfBuilt(inst, cfgs[i]);
    SameTimes(num, Build(cfgs, known).value, SoloState(inst), i, tape);
    SoloWhenDue(num, inst, PauseOf(cfgs[i].base), tape);
  }

  lemma PauseOfBuilt(inst: Instrument, cfg: InstrumentConfig)
    requires InstrumentIs(inst, cfg) && HasPause(cfg.base)
    ensures ClockDriven(inst.base) && Interval(inst.base) == Some(PauseOf(cfg.base)) && inst.nextDue == 0
  {
    PauseIsInterval(inst.base, cfg.base);
  }

  predicate CountBound(times: seq<int>, interval: int)
    requires interval > 0
  {
    times != [] ==> |times| <= 1 + (times[|times| - 1] - times[0]) / interval
  }

  /** In any run of an accepted registry a clock-driven instrument whose interval is positive is
      evaluated at most `1 + (last - first) / interval` times. */
  lemma {:induction false} EvaluationCount(num: Numerics, cfgs: seq<InstrumentConfig>, known: set<Symbol>, i: nat,
                                           tape: seq<Event>)
    requires Build(cfgs, known).Success? && Valid(Build(cfgs, known).value)
             && i < |Build(cfgs, known).value.instruments|
    requires ClockDriven(Build(cfgs, known).value.instruments[i].base)
    requires var interval := Interval(Build(cfgs, known).value.instruments[i].base);
             interval.Some? && interval.value > 0
    ensures var st := Build(cfgs, known).value;
            var times := EvalTimes(num, st, i, tape);
            CountBound(times, Interval(st.instruments[i].base).value)
  {
    hide *;
    var st := Build(cfgs, known).value;
    EvaluationsAreSpaced(num, cfgs, known, i, tape);
    CountOf(EvalTimes(num, st, i, tape), Interval(st.instruments[i].base).value);
  }

  lemma CountOf(times: seq<int>, interval: int)
    requires interval > 0 && Gaps(times, interval)
    ensures CountBound(times, interval)
  {
    if times != [] {
      SpanCovers(times, interval);
      QuotientBound(|times| - 1, times[|times| - 1] - times[0], interval);
    }
  }

  lemma SpanCovers(times: seq<int>, interval: int)
    requires times != [] && interval > 0 && Gaps(times, interval)
    ensures (|times| - 1) * interval <= times[|times| - 1] - times[0]
    decreases |times|
  {
    if |times| > 1 {
      var front := times[..|times| - 1];
      assert forall k: nat :: k + 1 < |front| ==> Gap(times, k, interval) ==> Gap(front, k, interval);
      SpanCovers(front, interval);
      assert Gap(times, |times| - 2, interval);
      assert (|times| - 1) * interval == (|times| - 2) * interval + interval;
    }
  }

  lemma QuotientBound(n: int, span: int, d: int)
    requires d > 0 && n * d <= span
    ensures n <= span / d
  {
    Below(n, span / d + 1, d);
  }

  lemma Below(a: int, b: int, d: int)
    requires d > 0 && a * d < b * d
    ensures a < b
  {
    if a >= b {
      Grows(a, b, d);
    }
  }

  lemma Grows(a: int, b: int, d: int)
    requires d > 0 && a >= b
    ensures a * d >= b * d
  {
    assert a * d == b * d + (a - b) * d;
  }

  /** No underlying tick ever advances a clock-driven instrument, whatever happened before. */
  lemma {:induction false} FeedsNeverAdvanceTheClocked(num: Numerics, cfgs: seq<InstrumentConfig>, known: set<Symbol>,
                                                       i: nat, tape: seq<Event>, e: Event)
    requires Build(cfgs, known).Success? && Valid(Build(cfgs, known).value)
             && i < |Build(cfgs, known).value.instruments|
    requires ClockDriven(Build(cfgs, known).value.instruments[i].base) && e.Observed?
    ensures var st := RunTape(num, Build(cfgs, known).value, tape).state;
            && i < |st.instruments| == |React(num, st, e).state.instruments|
            && React(num, st, e).state.instruments[i] == st.instruments[i]
  {
    hide React, ClockDriven, Interval, Spaced, Build;
    var start := Build(cfgs, known).value;
    BuildIsFresh(cfgs, known);
    BuildProjects(cfgs, known, i);
    var inst := start.instruments[i];
    RunProjects(num, start, SoloState(inst), i, tape);
    SoloSpacing(num, inst, tape);
    var st, own := RunTape(num, start, tape).state, RunTape(num, SoloState(inst), tape).state;
    ReactProjects(num, st, own, i, e);
    ClockStep(num, own, e, Interval(inst.base));
    ReactKeepsCount(num, st, e);
    assert own.instruments[0] == st.instruments[i];
    assert React(num, own, e).state.instruments[0] == React(num, st, e).state.instruments[i];
  }

  lemma ReactKeepsCount(num: Numerics, st: EngineState, e: Event)
    requires Valid(st)
    ensures |React(num, st, e).state.instruments| == |st.instruments|
  {
  }

  // ---------------------------------------------------------------- an overflow ends the run

  /** Nothing is handled after the event that aborts the engine. */
  lemma {:induction false} StopsThere(num: Numerics, st: EngineState, tape: seq<Event>, k: nat)
    requires Valid(st) && k < |tape| && Aborts(RunTape(num, st, tape[..k]).state, tape[k])
    ensures Handled(num, st, tape) <= k
    ensures Handled(num, st, tape[..k]) == k ==> Handled(num, st, tape) == k
    decreases |tape|
  {
    var front := tape[..|tape| - 1];
    if k < |front| {
      assert front[..k] == tape[..k];
      StopsThere(num, st, front, k);
    } else {
      assert front == tape[..k];
    }
  }

  /** The event a run stops at is one that aborts the engine. */
  lemma {:induction false} StopsForCause(num: Numerics, st: EngineState, tape: seq<Event>)
    requires Valid(st) && Handled(num, st, tape) < |tape|
    ensures var n := Handled(num, st, tape); Aborts(RunTape(num, st, tape[..n]).state, tape[n])
    decreases |tape|
  {
    var front := tape[..|tape| - 1];
    if Handled(num, st, front) < |front| {
      StopsForCause(num, st, front);
      assert front[..Handled(num, st, front)] == tape[..Handled(num, st, front)];
    } else {
      assert front == tape[..|front|];
    }
  }

  /** An engine of one instrument aborts only where the registry does. */
  lemma AbortIsShared(full: EngineState, solo: EngineState, i: nat, e: Event)
    requires Shadows(full, solo, i) && Aborts(solo, e)
    ensures Aborts(full, e)
  {
    SameClock(full, solo, i);
    var k :| 0 <= k < |solo.timed| && Overflows(solo.instruments[solo.timed[k]], e.now);
    assert solo.timed[k] == 0;
    var j :| 0 <= j < |full.timed| && full.timed[j] == i;
    assert Overflows(full.instruments[full.timed[j]], e.now);
  }

  lemma {:induction false} SoloGetsAsFar(num: Numerics, full: EngineState, solo: EngineState, i: nat, tape: seq<Event>)
    requires Shadows(full, solo, i)
    ensures Handled(num, full, tape) <= Handled(num, solo, tape)
  {
    var n := Handled(num, solo, tape);
    if n < |tape| {
      StopsForCause(num, solo, tape);
      RunProjects(num, full, solo, i, tape[..n]);
      AbortIsShared(RunTape(num, full, tape[..n]).state, RunTape(num, solo, tape[..n]).state, i, tape[n]);
      StopsThere(num, full, tape, n);
    }
  }

  /** Non-interference, aborts included: as far as the engine gets, an instrument's outputs are those of
      an engine built with it alone, and that engine gets at least as far. */
  lemma {:induction false} OutputIsOwnUntilAbort(num: Numerics, cfgs: seq<InstrumentConfig>, known: set<Symbol>,
                                                 i: nat, tape: seq<Event>)
    requires Build(cfgs, known).Success? && i < |cfgs|
    ensures Build([cfgs[i]], known).Success?
    ensures Valid(Build(cfgs, known).value) && Valid(Build([cfgs[i]], known).value)
    ensures var full, solo := Build(cfgs, known).value, Build([cfgs[i]], known).value;
            var n := Handled(num, full, tape);
            && |full.instruments| == |cfgs|
            && n <= Handled(num, solo, tape)
            && OfSymbol(RunTape(num, full, tape[..n]).out, full.instruments[i].symbol)
               == RunTape(num, solo, tape[..n]).out
  {
    BuildProjects(cfgs, known, i);
    var full, solo := Build(cfgs, known).value, Build([cfgs[i]], known).value;
    SoloGetsAsFar(num, full, solo, i, tape);
    OutputIsOwn(num, cfgs, known, i, tape[..Handled(num, full, tape)]);
  }

  // ---------------------------------------------------------------- when every event is handled

  /** Every interval of the registry fits. */
  predicate IntervalsFit(insts: seq<Instrument>) {
    forall i :: 0 <= i < |insts| && ClockDriven(insts[i].base) ==> Interval(insts[i].base).Some?
  }

  /** The clock is past zero and far enough from the end of its range for the intervals that fit. */
  predicate ClockInRange(insts: seq<Instrument>, e: Event) {
    e.Clock? ==>
      && e.now >= 0
      && forall i :: 0 <= i < |insts| && Interval(insts[i].base).Some? ==> NextDue(insts[i].base, e.now).Some?
  }

  /** One instrument that overflows stops the whole engine at the first clock event. */
  lemma {:induction false} OneOverflowStopsAll(num: Numerics, cfgs: seq<InstrumentConfig>, known: set<Symbol>, i: nat,
                                               tape: seq<Event>, k: nat)
    requires Build(cfgs, known).Success? && Valid(Build(cfgs, known).value)
             && i < |Build(cfgs, known).value.instruments|
    requires ClockDriven(Build(cfgs, known).value.instruments[i].base)
             && Interval(Build(cfgs, known).value.instruments[i].base).None?
    requires k < |tape| && tape[k].Clock? && tape[k].now >= 0
    ensures Handled(num, Build(cfgs, known).value, tape) <= k
  {
    hide Build, React, Interval;
    var full := Build(cfgs, known).value;
    BuildIsFresh(cfgs, known);
    BuildProjects(cfgs, known, i);
    StartsDue(cfgs, known, i);
    var inst := full.instruments[i];
    SoloSpacing(num, inst, tape[..k]);
    RunProjects(num, full, SoloState(inst), i, tape[..k]);
    var own := RunTape(num, SoloState(inst), tape[..k]).state;
    assert own.instruments == [inst] && own.timed == [0];
    assert Overflows(own.instruments[own.timed[0]], tape[k].now);
    AbortIsShared(RunTape(num, full, tape[..k]).state, own, i, tape[k]);
    StopsThere(num, full, tape, k);
  }

  lemma {:induction false} StartsDue(cfgs: seq<InstrumentConfig>, known: set<Symbol>, i: nat)
    requires Build(cfgs, known).Success? && i < |Build(cfgs, known).value.instruments|
    ensures Build(cfgs, known).value.instruments[i].nextDue == 0
    decreases |cfgs|
  {
    if cfgs != [] && i < |Build(cfgs, known).value.instruments| - 1 {
      StartsDue(cfgs[..|cfgs| - 1], known, i);
    }
  }

  lemma {:induction false} TimedAreClockDriven(cfgs: seq<InstrumentConfig>, known: set<Symbol>)
    requires Build(cfgs, known).Success? && Valid(Build(cfgs, known).value)
    ensures var st := Build(cfgs, known).value;
            forall k :: 0 <= k < |st.timed| ==> ClockDriven(st.instruments[st.timed[k]].base)
    decreases |cfgs|
  {
    if cfgs != [] {
      BuildIsValid(cfgs[..|cfgs| - 1], known);
      TimedAreClockDriven(cfgs[..|cfgs| - 1], known);
    }
  }

  /** Same intervals, same place on the clock. */
  predicate SameSchedule(a: seq<Instrument>, b: seq<Instrument>) {
    |a| == |b| && forall i :: 0 <= i < |a| ==> Interval(a[i].base) == Interval(b[i].base)
  }

  lemma {:induction false} BatchKeepsSchedule(num: Numerics, insts: seq<Instrument>, idxs: seq<nat>, latest: Latest,
                                              now: int, clocked: bool)
    requires ValidIndices(insts, idxs)
    ensures SameSchedule(insts, VisitAll(num, insts, idxs, latest, now, clocked).insts)
    decreases |idxs|
  {
    hide Eval, Interval;
    if idxs != [] {
      var before := VisitAll(num, insts, idxs[..|idxs| - 1], latest, now, clocked);
      BatchKeepsSchedule(num, insts, idxs[..|idxs| - 1], latest, now, clocked);
      VisitKeepsSchedule(num, before.insts[idxs[|idxs| - 1]], latest, now, clocked);
    }
  }

  lemma VisitKeepsSchedule(num: Numerics, inst: Instrument, latest: Latest, now: int, clocked: bool)
    ensures Interval(Visit(num, inst, latest, now, clocked).inst.base) == Interval(inst.base)
  {
  }

  lemma {:induction false} RunKeepsSchedule(num: Numerics, st: EngineState, tape: seq<Event>)
    requires Valid(st)
    ensures var after := RunTape(num, st, tape).state;
            after.timed == st.timed && SameSchedule(st.instruments, after.instruments)
    decreases |tape|
  {
    if tape != [] {
      var before, e := RunTape(num, st, tape[..|tape| - 1]).state, tape[|tape| - 1];
      RunKeepsSchedule(num, st, tape[..|tape| - 1]);
      hide VisitAll, Interval;
      var latest := React(num, before, e).state.latest;
      var idxs := if e.Clock? then before.timed else IndicesFor(before, e.point.symbol);
      BatchKeepsSchedule(num, before.instruments, idxs, latest, e.now, e.Clock?);
    }
  }

  /** With a clock in range the engine handles every event of a tape that has a clock event if and only
      if every interval of the registry fits. */
  lemma {:induction false} HandlesAllWhen(num: Numerics, cfgs: seq<InstrumentConfig>, known: set<Symbol>,
                                          tape: seq<Event>)
    requires Build(cfgs, known).Success? && Valid(Build(cfgs, known).value)
    requires forall k :: 0 <= k < |tape| ==> ClockInRange(Build(cfgs, known).value.instruments, tape[k])
    requires exists k :: 0 <= k < |tape| && tape[k].Clock?
    ensures Handled(num, Build(cfgs, known).value, tape) == |tape|
            <==> IntervalsFit(Build(cfgs, known).value.instruments)
  {
    hide Build, RunTape, Handled, Interval, NextDue;
    var st := Build(cfgs, known).value;
    var n := Handled(num, st, tape);
    if !IntervalsFit(st.instruments) {
      var i :| 0 <= i < |st.instruments| && ClockDriven(st.instruments[i].base)
        && Interval(st.instruments[i].base).None?;
      var k :| 0 <= k < |tape| && tape[k].Clock?;
      assert ClockInRange(st.instruments, tape[k]);
      OneOverflowStopsAll(num, cfgs, known, i, tape, k);
    } else if n < |tape| {
      StopsForCause(num, st, tape);
      RunKeepsSchedule(num, st, tape[..n]);
      TimedAreClockDriven(cfgs, known);
      var after := RunTape(num, st, tape[..n]).state;
      var k :| 0 <= k < |after.timed| && Overflows(after.instruments[after.timed[k]], tape[n].now);
      NoOverflow(st, after, after.timed[k], tape[n]);
    }
  }

  lemma NoOverflow(st: EngineState, after: EngineState, i: nat, e: Event)
    requires SameSchedule(st.instruments, after.instruments) && i < |after.instruments|
    requires IntervalsFit(st.instruments) && ClockDriven(st.instruments[i].base)
    requires e.Clock? && ClockInRange(st.instruments, e)
    ensures !Overflows(after.instruments[i], e.now)
  {
    assert NextDue(st.instruments[i].base, e.now).Some?;
  }
}
