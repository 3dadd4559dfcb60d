/** An instrument's output does not depend on the other instruments of the registry. */
module NonInterference {
  import opened Wrappers
  import opened Decimals
  import opened Instruments
  import opened Engine

  // ---------------------------------------------------------------- projections

  /** The emitted points of one symbol, in order. */
  function OfSymbol(out: seq<PricePoint>, s: Symbol): seq<PricePoint> {
    if out == [] then []
    else OfSymbol(out[..|out| - 1], s) + (if out[|out| - 1].symbol == s then [out[|out| - 1]] else [])
  }

  lemma {:induction false} OfSymbolAppend(a: seq<PricePoint>, b: seq<PricePoint>, s: Symbol)
    ensures OfSymbol(a + b, s) == OfSymbol(a, s) + OfSymbol(b, s)
    decreases |b|
  {
    if b == [] {
      assert a + b == a;
    } else {
      var ab := a + b;
      assert ab[..|ab| - 1] == a + b[..|b| - 1];
      OfSymbolAppend(a, b[..|b| - 1], s);
    }
  }

  function Hits(idxs: seq<nat>, i: nat): nat {
    if idxs == [] then 0 else Hits(idxs[..|idxs| - 1], i) + (if idxs[|idxs| - 1] == i then 1 else 0)
  }

  function Count(feeds: seq<Symbol>, f: Symbol): nat {
    if feeds == [] then 0 else Count(feeds[..|feeds| - 1], f) + (if feeds[|feeds| - 1] == f then 1 else 0)
  }

  /** The index list of an engine whose only instrument is visited `n` times. */
  function Solo(n: nat): (idxs: seq<nat>)
    ensures |idxs| == n && forall k :: 0 <= k < n ==> idxs[k] == 0
  {
    seq(n, k => 0)
  }

  predicate UniqueSymbols(insts: seq<Instrument>) {
    forall a, b :: 0 <= a < b < |insts| ==> insts[a].symbol != insts[b].symbol
  }

  predicate SameSymbols(a: seq<Instrument>, b: seq<Instrument>) {
    |a| == |b| && forall k :: 0 <= k < |a| ==> a[k].symbol == b[k].symbol
  }

  // ---------------------------------------------------------------- one visit, one batch

  lemma VisitKeepsIdentity(num: Numerics, inst: Instrument, latest: Latest, now: int, clocked: bool)
    ensures var e := Visit(num, inst, latest, now, clocked);
            && e.inst.symbol == inst.symbol && e.inst.expo == inst.expo
            && (e.point.Some? ==> e.point.value.symbol == inst.symbol)
  {
  }

  /** One more visit, seen from instrument `i`: its own visit, or nothing at all. */
  lemma BatchStep(num: Numerics, insts: seq<Instrument>, before: Batch, idx: nat, i: nat, latest: Latest, now: int,
                  clocked: bool)
    requires UniqueSymbols(insts) && SameSymbols(before.insts, insts) && idx < |insts| && i < |insts|
    ensures var e := Visit(num, before.insts[idx], latest, now, clocked);
            var s := insts[i].symbol;
            && SameSymbols(before.insts[idx := e.inst], insts)
            && OfSymbol(before.out + OutOf(e.point), s)
               == OfSymbol(before.out, s) + (if idx == i then OutOf(e.point) else [])
  {
    hide Visit;
    var e := Visit(num, before.insts[idx], latest, now, clocked);
    VisitKeepsIdentity(num, before.insts[idx], latest, now, clocked);
    OfSymbolAppend(before.out, OutOf(e.point), insts[i].symbol);
    OfOne(e.point, insts[i].symbol);
    if idx != i {
      assert insts[idx].symbol != insts[i].symbol;
    }
  }

  /** One more visit in an engine of one instrument. */
  lemma {:induction false} SoloStep(num: Numerics, inst: Instrument, n: nat, latest: Latest, now: int, clocked: bool)
    ensures var before := VisitAll(num, [inst], Solo(n), latest, now, clocked);
            var e := Visit(num, before.insts[0], latest, now, clocked);
            VisitAll(num, [inst], Solo(n + 1), latest, now, clocked) == Batch([e.inst], before.out + OutOf(e.point))
  {
    hide Visit;
    assert Solo(n + 1)[..n] == Solo(n);
  }

  lemma {:induction false} BatchProjects(num: Numerics, insts: seq<Instrument>, idxs: seq<nat>, i: nat,
                                         latest: Latest, now: int, clocked: bool)
    requires ValidIndices(insts, idxs) && i < |insts| && UniqueSymbols(insts)
    ensures var full := VisitAll(num, insts, idxs, latest, now, clocked);
            var solo := VisitAll(num, [insts[i]], Solo(Hits(idxs, i)), latest, now, clocked);
            && SameSymbols(full.insts, insts)
            && solo.insts == [full.insts[i]]
            && OfSymbol(full.out, insts[i].symbol) == solo.out
    decreases |idxs|
  {
    hide Visit, Solo, OfSymbol, UniqueSymbols;
    if idxs == [] {
      assert OfSymbol([], insts[i].symbol) == [] by { NothingEmitted(insts[i].symbol); }
    } else {
      var front, idx := idxs[..|idxs| - 1], idxs[|idxs| - 1];
      BatchProjects(num, insts, front, i, latest, now, clocked);
      var before := VisitAll(num, insts, front, latest, now, clocked);
      BatchStep(num, insts, before, idx, i, latest, now, clocked);
      if idx == i {
        SoloStep(num, insts[i], Hits(front, i), latest, now, clocked);
      }
    }
  }

  lemma {:induction false} NothingEmitted(s: Symbol)
    ensures OfSymbol([], s) == []
  {
  }

  lemma {:induction false} OfOne(p: Option<PricePoint>, s: Symbol)
    ensures OfSymbol(OutOf(p), s) == if p.Some? && p.value.symbol == s then OutOf(p) else []
  {
    if p.Some? { assert [p.value][..0] == []; }
  }

  // ---------------------------------------------------------------- the two engines side by side

  /** `solo` is what `full` looks like to instrument `i`. */
  ghost predicate Shadows(full: EngineState, solo: EngineState, i: nat) {
    && i < |full.instruments|
    && Valid(full) && Valid(solo)
    && UniqueSymbols(full.instruments)
    && solo.instruments == [full.instruments[i]]
    && solo.latest == full.latest
    && solo.timed == Solo(Hits(full.timed, i))
    && forall f :: IndicesFor(solo, f) == Solo(Hits(IndicesFor(full, f), i))
  }

  lemma StaysShadowed(full: EngineState, solo: EngineState, i: nat, insts: seq<Instrument>, own: seq<Instrument>,
                      latest: Latest)
    requires Shadows(full, solo, i) && SameSymbols(insts, full.instruments) && own == [insts[i]]
    ensures Shadows(full.(instruments := insts, latest := latest), solo.(instruments := own, latest := latest), i)
  {
    var full', solo' := full.(instruments := insts, latest := latest), solo.(instruments := own, latest := latest);
    forall f
      ensures IndicesFor(solo', f) == Solo(Hits(IndicesFor(full', f), i))
    {
      assert IndicesFor(solo, f) == Solo(Hits(IndicesFor(full, f), i));
    }
  }

  lemma ReactProjects(num: Numerics, full: EngineState, solo: EngineState, i: nat, e: Event)
    requires Shadows(full, solo, i)
    ensures Shadows(React(num, full, e).state, React(num, solo, e).state, i)
    ensures OfSymbol(React(num, full, e).out, full.instruments[i].symbol) == React(num, solo, e).out
    ensures React(num, full, e).state.instruments[i].symbol == full.instruments[i].symbol
  {
    hide VisitAll, Hits, Solo;
    var now := e.now;
    var clocked := e.Clock?;
    if clocked || Reduce(num, e.point.data).Some? {
      var latest := React(num, full, e).state.latest;
      assert latest == React(num, solo, e).state.latest;
      var idxs := if clocked then full.timed else IndicesFor(full, e.point.symbol);
      BatchProjects(num, full.instruments, idxs, i, latest, now, clocked);
      var a := VisitAll(num, full.instruments, idxs, latest, now, clocked);
      var b := VisitAll(num, solo.instruments, Solo(Hits(idxs, i)), latest, now, clocked);
      StaysShadowed(full, solo, i, a.insts, b.insts, latest);
      assert full.(latest := full.latest) == full && solo.(latest := solo.latest) == solo;
    }
  }

  lemma {:induction false} RunProjects(num: Numerics, full: EngineState, solo: EngineState, i: nat, tape: seq<Event>)
    requires Shadows(full, solo, i)
    ensures Shadows(RunTape(num, full, tape).state, RunTape(num, solo, tape).state, i)
    ensures OfSymbol(RunTape(num, full, tape).out, full.instruments[i].symbol) == RunTape(num, solo, tape).out
    ensures RunTape(num, full, tape).state.instruments[i].symbol == full.instruments[i].symbol
    decreases |tape|
  {
    if tape != [] {
      var front, last := tape[..|tape| - 1], tape[|tape| - 1];
      RunProjects(num, full, solo, i, front);
      var a, b := RunTape(num, full, front), RunTape(num, solo, front);
      ReactProjects(num, a.state, b.state, i, last);
      OfSymbolAppend(a.out, React(num, a.state, last).out, full.instruments[i].symbol);
    }
  }

  // ---------------------------------------------------------------- both engines are built alike

  function At(m: map<Symbol, seq<nat>>, f: Symbol): seq<nat> { if f in m then m[f] else [] }

  lemma {:induction false} IndexHits(m: map<Symbol, seq<nat>>, feeds: seq<Symbol>, idx: nat, i: nat, f: Symbol)
    ensures Hits(At(IndexFeeds(m, feeds, idx), f), i) == Hits(At(m, f), i) + (if idx == i then Count(feeds, f) else 0)
    decreases |feeds|
  {
    if feeds != [] {
      var front := feeds[..|feeds| - 1];
      IndexHits(m, front, idx, i, f);
      var prev := At(IndexFeeds(m, front, idx), f);
      assert (prev + [idx])[..|prev + [idx]| - 1] == prev;
    }
  }

  lemma {:induction false} SoloIndex(feeds: seq<Symbol>, f: Symbol)
    ensures At(IndexFeeds(map[], feeds, 0), f) == Solo(Count(feeds, f))
    decreases |feeds|
  {
    if feeds != [] {
      SoloIndex(feeds[..|feeds| - 1], f);
    }
  }

  lemma {:induction false} NoHits(idxs: seq<nat>, i: nat)
    requires forall k :: 0 <= k < |idxs| ==> idxs[k] < i
    ensures Hits(idxs, i) == 0
    decreases |idxs|
  {
    if idxs != [] { NoHits(idxs[..|idxs| - 1], i); }
  }

  lemma {:induction false} HitsOfLast(idxs: seq<nat>, idx: nat, i: nat)
    ensures Hits(idxs + [idx], i) == Hits(idxs, i) + (if idx == i then 1 else 0)
  {
    assert (idxs + [idx])[..|idxs + [idx]| - 1] == idxs;
  }

  /** The engine of one instrument. */
  function SoloState(inst: Instrument): EngineState { Register(EMPTY, inst) }

  lemma {:induction false} SoloStateIs(inst: Instrument, f: Symbol)
    ensures SoloState(inst).instruments == [inst]
    ensures SoloState(inst).timed == (if ClockDriven(inst.base) then [0] else [])
    ensures IndicesFor(SoloState(inst), f) == Solo(Count(FeedsUsed(inst.base), f))
  {
    SoloIndex(FeedsUsed(inst.base), f);
    assert [] + [inst] == [inst];
  }

  lemma NewestIsShadowed(st: EngineState, inst: Instrument)
    requires Valid(st) && UniqueSymbols(st.instruments) && !HasSymbol(st.instruments, inst.symbol) && st.latest == map[]
    ensures Shadows(Register(st, inst), SoloState(inst), |st.instruments|)
  {
    var full, solo, i := Register(st, inst), SoloState(inst), |st.instruments|;
    RegisterIsValid(st, inst);
    RegisterIsValid(EMPTY, inst);
    NoHits(st.timed, i);
    HitsOfLast(st.timed, i, i);
    SoloStateIs(inst, "");
    assert Solo(1) == [0] && Solo(0) == [];
    forall f
      ensures IndicesFor(solo, f) == Solo(Hits(IndicesFor(full, f), i))
    {
      SoloStateIs(inst, f);
      IndexHits(st.byFeed, FeedsUsed(inst.base), i, i, f);
      NoHits(At(st.byFeed, f), i);
    }
  }

  lemma OlderStaysShadowed(st: EngineState, solo: EngineState, i: nat, inst: Instrument)
    requires Shadows(st, solo, i) && !HasSymbol(st.instruments, inst.symbol)
    ensures Shadows(Register(st, inst), solo, i)
  {
    var full, idx := Register(st, inst), |st.instruments|;
    RegisterIsValid(st, inst);
    HitsOfLast(st.timed, idx, i);
    forall f
      ensures IndicesFor(solo, f) == Solo(Hits(IndicesFor(full, f), i))
    {
      IndexHits(st.byFeed, FeedsUsed(inst.base), idx, i, f);
      assert IndicesFor(solo, f) == Solo(Hits(IndicesFor(st, f), i));
    }
  }

  /** The registry as built: no prices yet, and symbols are unique. */
  lemma {:induction false} BuildIsFresh(cfgs: seq<InstrumentConfig>, known: set<Symbol>)
    requires Build(cfgs, known).Success?
    ensures var st := Build(cfgs, known).value;
            Valid(st) && UniqueSymbols(st.instruments) && st.latest == map[] && |st.instruments| == |cfgs|
    decreases |cfgs|
  {
    BuildIsValid(cfgs, known);
    if cfgs != [] {
      BuildIsFresh(cfgs[..|cfgs| - 1], known);
    }
  }

  /** Each configured instrument builds on its own to what it is in the registry. */
  lemma {:induction false} BuildProjects(cfgs: seq<InstrumentConfig>, known: set<Symbol>, i: nat)
    requires Build(cfgs, known).Success? && i < |cfgs|
    ensures Build([cfgs[i]], known).Success?
    ensures |Build(cfgs, known).value.instruments| == |cfgs|
    ensures Build([cfgs[i]], known).value == SoloState(Build(cfgs, known).value.instruments[i])
    ensures Shadows(Build(cfgs, known).value, Build([cfgs[i]], known).value, i)
    decreases |cfgs|
  {
    var front, last := cfgs[..|cfgs| - 1], cfgs[|cfgs| - 1];
    BuildIsFresh(cfgs, known);
    BuildIsFresh(front, known);
    var st := Build(front, known).value;
    var inst := BuildInstrument(last, known).value;
    assert [cfgs[i]][..0] == [] && Build([], known) == Success(EMPTY);
    if i == |cfgs| - 1 {
      NewestIsShadowed(st, inst);
    } else {
      BuildProjects(front, known, i);
      OlderStaysShadowed(st, Build([cfgs[i]], known).value, i, inst);
    }
  }

  /** For any registry and any tape of events, the points emitted for one instrument are those of an
      engine built with that instrument alone. */
  lemma {:induction false} OutputIsOwn(num: Numerics, cfgs: seq<InstrumentConfig>, known: set<Symbol>, i: nat,
                                       tape: seq<Event>)
    requires Build(cfgs, known).Success? && i < |cfgs|
    ensures Build([cfgs[i]], known).Success?
    ensures Valid(Build(cfgs, known).value) && Valid(Build([cfgs[i]], known).value)
    ensures var full, solo := Build(cfgs, known).value, Build([cfgs[i]], known).value;
            && |full.instruments| == |cfgs|
            && OfSymbol(RunTape(num, full, tape).out, full.instruments[i].symbol) == RunTape(num, solo, tape).out
  {
    BuildProjects(cfgs, known, i);
    RunProjects(num, Build(cfgs, known).value, Build([cfgs[i]], known).value, i, tape);
  }
}
