/** The engine, the cache and the service loop as the program runs them: objects updated in place. */
module EngineClass {
  import opened Wrappers
  import opened MachineInts
  import opened Decimals
  import opened Instruments
  import Spec = Engine
  import Schedule

  class Engine {
    var instruments: seq<Instrument>
    var byFeed: map<Symbol, seq<nat>>
    var timed: seq<nat>
    var latest: Latest

    function State(): Spec.EngineState
      reads this
    {
      Spec.EngineState(instruments, byFeed, timed, latest)
    }

    ghost predicate Valid()
      reads this
    {
      Spec.Valid(State())
    }

    constructor (st: Spec.EngineState)
      ensures State() == st
    {
      instruments, byFeed, timed, latest := st.instruments, st.byFeed, st.timed, st.latest;
    }

    static method FromConfig(cfgs: seq<Spec.InstrumentConfig>, known: set<Symbol>)
      returns (r: Result<Engine, Spec.ConfigError>)
      ensures match Spec.Build(cfgs, known)
              case Failure(e) => r == Failure(e)
              case Success(st) => r.Success? && fresh(r.value) && r.value.State() == st && r.value.Valid()
    {
      hide Spec.BuildInstrument, Spec.Valid;
      var engine := new Engine(Spec.EMPTY);
      var seen: set<Symbol> := {};
      for i := 0 to |cfgs|
        invariant Spec.Build(cfgs[..i], known) == Success(engine.State())
        invariant forall s :: s in seen <==> Spec.HasSymbol(engine.instruments, s)
      {
        ghost var before := engine.State();
        assert cfgs[..i + 1][..i] == cfgs[..i];
        var symbol := Spec.ResolvedSymbol(cfgs[i]);
        if symbol.Some? && symbol.value in seen {
          BuildFails(cfgs, known, i + 1);
          return Failure(Spec.DuplicateSymbol);
        }
        var built := Spec.BuildInstrument(cfgs[i], known);
        if built.Failure? {
          BuildFails(cfgs, known, i + 1);
          return Failure(built.error);
        }
        var inst := built.value;
        var idx := |engine.instruments|;
        seen := seen + {inst.symbol};
        if Spec.ClockDriven(inst.base) {
          engine.timed := engine.timed + [idx];
        }
        engine.byFeed := AddToIndex(engine.byFeed, Spec.FeedsUsed(inst.base), idx);
        engine.instruments := engine.instruments + [inst];
        assert engine.State() == Spec.Register(before, inst);
        forall s
          ensures s in seen <==> Spec.HasSymbol(engine.instruments, s)
        {
          SymbolsAfter(before.instruments, inst, s);
        }
      }
      assert cfgs[..|cfgs|] == cfgs;
      Spec.BuildIsValid(cfgs, known);
      return Success(engine);
    }

    /** Every feed used by the new instrument gets its index, once for each mention. */
    static method AddToIndex(byFeed: map<Symbol, seq<nat>>, feeds: seq<Symbol>, idx: nat)
      returns (index: map<Symbol, seq<nat>>)
      ensures index == Spec.IndexFeeds(byFeed, feeds, idx)
    {
      index := byFeed;
      for k := 0 to |feeds|
        invariant index == Spec.IndexFeeds(byFeed, feeds[..k], idx)
      {
        assert feeds[..k + 1][..k] == feeds[..k];
        index := index[feeds[k] := (if feeds[k] in index then index[feeds[k]] else []) + [idx]];
      }
      assert feeds[..|feeds|] == feeds;
    }

    /** The instruments at `idxs` are evaluated in turn, in place; `None` when an overflow aborts it. */
    method VisitAll(num: Numerics, idxs: seq<nat>, now: int, clocked: bool) returns (r: Option<seq<PricePoint>>)
      requires Spec.ValidIndices(instruments, idxs)
      modifies this`instruments
      ensures r.None? <==> clocked && Spec.AbortsOn(old(instruments), idxs, now)
      ensures r.Some? ==>
                Spec.Batch(instruments, r.value) == Spec.VisitAll(num, old(instruments), idxs, latest, now, clocked)
    {
      hide Eval, Spec.NextDue;
      var out: seq<PricePoint> := [];
      for i := 0 to |idxs|
        invariant |instruments| == |old(instruments)|
        invariant Spec.ValidIndices(old(instruments), idxs[..i])
        invariant Spec.Batch(instruments, out) == Spec.VisitAll(num, old(instruments), idxs[..i], latest, now, clocked)
        invariant clocked ==> forall k :: 0 <= k < i ==> !Spec.Overflows(old(instruments)[idxs[k]], now)
        invariant clocked ==> forall j :: 0 <= j < |instruments| ==> SameTurn(old(instruments)[j], instruments[j], now)
      {
        assert idxs[..i + 1][..i] == idxs[..i];
        var idx := idxs[i];
        var inst := instruments[idx];
        if clocked && now < inst.nextDue {
          assert instruments[idx := inst] == instruments && out + [] == out;
          continue;
        }
        if clocked {
          assert SameTurn(old(instruments)[idx], inst, now);
          var due := Spec.NextDue(inst.base, now);
          if due.None? {
            return None;
          }
          inst := inst.(nextDue := due.value);
        }
        var e := ComputeEval(num, inst, latest, now);
        EvalKeepsBase(num, inst, latest, now);
        instruments := instruments[idx := e.inst];
        if e.point.Some? {
          out := out + [e.point.value];
        } else {
          assert out + [] == out;
        }
      }
      assert idxs[..|idxs|] == idxs;
      return Some(out);
    }

    method OnUnderlying(num: Numerics, point: PricePoint, now: int) returns (out: seq<PricePoint>)
      requires Valid()
      modifies this
      ensures Valid() && Spec.Reply(State(), out) == Spec.OnUnderlying(num, old(State()), point, now)
    {
      out := [];
      var reduced := Spec.Reduce(num, point.data);
      if reduced.None? {
        return [];
      }
      var x := reduced.value;
      latest := latest[point.symbol := Snapshot(x.value, x.confRatio, point.publishTime, point.slot, point.source)];
      if point.symbol !in byFeed {
        return [];
      }
      var batch := VisitAll(num, byFeed[point.symbol], now, false);
      out := batch.value;
    }

    method OnTick(num: Numerics, now: int) returns (r: Option<seq<PricePoint>>)
      requires Valid()
      modifies this
      ensures r.None? <==> Spec.Aborts(old(State()), Spec.Clock(now))
      ensures r.Some? ==> Valid() && Spec.Reply(State(), r.value) == Spec.OnTick(num, old(State()), now)
    {
      r := VisitAll(num, timed, now, true);
    }
  }

  /** An instrument that has had its turn, or not yet, overflows at its next turn as it would have at
      the first; one that overflows is left as it is. */
  predicate SameTurn(before: Instrument, after: Instrument, now: int) {
    && Spec.NextDue(after.base, now) == Spec.NextDue(before.base, now)
    && (Spec.NextDue(before.base, now).None? ==> after == before)
  }

  lemma EvalKeepsBase(num: Numerics, inst: Instrument, latest: Latest, now: int)
    ensures Spec.NextDue(Eval(num, inst, latest, now).inst.base, now) == Spec.NextDue(inst.base, now)
  {
  }

  lemma SymbolsAfter(insts: seq<Instrument>, inst: Instrument, s: Symbol)
    ensures Spec.HasSymbol(insts + [inst], s) <==> Spec.HasSymbol(insts, s) || s == inst.symbol
  {
    var all := insts + [inst];
    if Spec.HasSymbol(insts, s) {
      var i :| 0 <= i < |insts| && insts[i].symbol == s;
      assert all[i].symbol == s;
    }
    assert all[|insts|] == inst;
  }

  lemma {:induction false} BuildFails(cfgs: seq<Spec.InstrumentConfig>, known: set<Symbol>, i: nat)
    requires i <= |cfgs| && Spec.Build(cfgs[..i], known).Failure?
    ensures Spec.Build(cfgs, known) == Spec.Build(cfgs[..i], known)
    decreases |cfgs| - i
  {
    if i < |cfgs| {
      assert cfgs[..i + 1][..i] == cfgs[..i];
      BuildFails(cfgs, known, i + 1);
    } else {
      assert cfgs[..i] == cfgs;
    }
  }

  /** The published prices, the newest of each symbol. */
  class AppState {
    var prices: map<Symbol, PricePoint>

    constructor ()
      ensures prices == map[]
    {
      prices := map[];
    }

    method Update(point: PricePoint)
      modifies this
      ensures prices == old(prices)[point.symbol := point]
    {
      prices := prices[point.symbol := point];
    }

    method Get(symbol: Symbol) returns (r: Option<PricePoint>)
      ensures r == if symbol in prices then Some(prices[symbol]) else None
    {
      if symbol in prices {
        return Some(prices[symbol]);
      }
      return None;
    }
  }

  method PublishAll(app: AppState, out: seq<PricePoint>)
    modifies app
    ensures app.prices == Spec.Published(old(app.prices), out)
  {
    for i := 0 to |out|
      invariant app.prices == Spec.Published(old(app.prices), out[..i])
    {
      assert out[..i + 1][..i] == out[..i];
      app.Update(out[i]);
    }
    assert out[..|out|] == out;
  }

  lemma {:induction false} PublishedAppend(prices: map<Symbol, PricePoint>, a: seq<PricePoint>, b: seq<PricePoint>)
    ensures Spec.Published(prices, a + b) == Spec.Published(Spec.Published(prices, a), b)
    decreases |b|
  {
    if b == [] {
      assert a + b == a;
    } else {
      var ab := a + b;
      assert ab[..|ab| - 1] == a + b[..|b| - 1];
      PublishedAppend(prices, a, b[..|b| - 1]);
    }
  }

  /** The engine over a tape of events, as far as it gets: what the cache holds afterwards is what the
      handled events emitted. */
  method Run(num: Numerics, engine: Engine, app: AppState, tape: seq<Spec.Event>) returns (handled: nat)
    requires engine.Valid()
    modifies engine, app
    ensures handled == Spec.Handled(num, old(engine.State()), tape)
    ensures var run := Spec.RunTape(num, old(engine.State()), tape[..handled]);
            && app.prices == Spec.Published(old(app.prices), run.out)
            && (handled == |tape| ==> engine.Valid() && engine.State() == run.state)
  {
    ghost var start := engine.State();
    ghost var emitted: seq<PricePoint> := [];
    for i := 0 to |tape|
      invariant engine.Valid() && Spec.Handled(num, start, tape[..i]) == i
      invariant Spec.Reply(engine.State(), emitted) == Spec.RunTape(num, start, tape[..i])
      invariant app.prices == Spec.Published(old(app.prices), emitted)
    {
      assert tape[..i + 1][..i] == tape[..i];
      var out: seq<PricePoint>;
      match tape[i] {
        case Observed(point, now) => out := engine.OnUnderlying(num, point, now);
        case Clock(now) => {
          var r := engine.OnTick(num, now);
          if r.None? {
            Schedule.StopsThere(num, start, tape, i);
            return i;
          }
          out := r.value;
        }
      }
      PublishAll(app, out);
      PublishedAppend(old(app.prices), emitted, out);
      emitted := emitted + out;
    }
    assert tape[..|tape|] == tape;
    return |tape|;
  }
}
