/** What an accepted configuration is built into, field by field, and which configurations are accepted. */
module Registry {
  import opened Wrappers
  import opened MachineInts
  import opened Decimals
  import opened Instruments
  import opened Engine
  import opened NonInterference

  // ---------------------------------------------------------------- one instrument

  /** What the configuration asks of a base price: its feeds are known and its numbers are numbers. */
  predicate GoodBase(cfg: BaseConfig, known: set<Symbol>) {
    match cfg
    case UnderlyingConfig(feed) => feed in known
    case CrossConfig(base, quote) => base in known && quote in known
    case BasketConfig(legs, rebase) =>
      && (forall k :: 0 <= k < |legs| ==> legs[k].feed in known && legs[k].weight.Some?)
      && (rebase.Some? ==> rebase.value.Some?)
    case PegConfig(target) => target.Some?
    case GbmConfig(gen, _) => gen.Some?
  }

  /** A transform's numbers are numbers, and a lag fits 64 bits in microseconds. */
  predicate GoodTransform(cfg: TransformConfig) {
    match cfg
    case ScaleConfig(factor, offset) => factor.Some? && (offset.Some? ==> offset.value.Some?)
    case InvertConfig => true
    case BetaConfig(params) => params.Some?
    case LagConfig(ms) => ms * 1000 <= 0x7FFF_FFFF_FFFF_FFFF
    case NoiseConfig(_) => true
  }

  predicate GoodInstrument(cfg: InstrumentConfig, known: set<Symbol>) {
    && (cfg.symbol.Some? || cfg.mint.Some?) && GoodBase(cfg.base, known)
    && forall k :: 0 <= k < |cfg.transforms| ==> GoodTransform(cfg.transforms[k])
  }

  /** The built base price: feeds in their roles, legs in order, no factor yet, and a generator that
      is not due more often than four times a second. */
  predicate BaseIs(b: Base, cfg: BaseConfig) {
    match cfg
    case UnderlyingConfig(feed) => b == Underlying(feed)
    case CrossConfig(base, quote) => b.Cross? && b.base == base && b.quote == quote
    case BasketConfig(legs, rebase) =>
      && b.Basket? && |b.legs| == |legs| && b.factor.None?
      && (forall k :: 0 <= k < |legs| ==> b.legs[k].feed == legs[k].feed && Some(b.legs[k].weight) == legs[k].weight)
      && (if rebase.None? then b.rebase.None? else b.rebase.Some? && rebase.value == b.rebase)
    case PegConfig(target) => b.Peg? && target == Some(b.target)
    case GbmConfig(gen, tickMs) =>
      b.Gbm? && gen == Some(b.gen) && b.tickMs >= 250 && b.tickMs >= tickMs && (b.tickMs == tickMs || b.tickMs == 250)
  }

  /** The built stage: a missing offset is zero, a lag counts in microseconds and has an empty buffer. */
  predicate StageIs(t: Transform, cfg: TransformConfig) {
    match cfg
    case ScaleConfig(factor, offset) =>
      t.Scale? && factor == Some(t.factor) && (if offset.None? then t.offset == 0.0 else offset.value == Some(t.offset))
    case InvertConfig => t.Invert?
    case BetaConfig(params) => t.Beta? && params == Some(t.params)
    case LagConfig(ms) => t.Lag? && t.us == 1000 * ms && t.buf == []
    case NoiseConfig(gen) => t.Noise? && t.gen == gen
  }

  predicate InstrumentIs(inst: Instrument, cfg: InstrumentConfig) {
    && (if cfg.symbol.Some? then Some(inst.symbol) == cfg.symbol else Some(inst.symbol) == cfg.mint)
    && inst.expo == cfg.expo && inst.nextDue == 0
    && BaseIs(inst.base, cfg.base)
    && |inst.transforms| == |cfg.transforms|
    && forall k :: 0 <= k < |cfg.transforms| ==> StageIs(inst.transforms[k], cfg.transforms[k])
  }

  lemma {:induction false} LegsAre(legs: seq<LegConfig>, known: set<Symbol>)
    ensures var r := BuildLegs(legs, known);
            && (r.Success? <==> forall k :: 0 <= k < |legs| ==> legs[k].feed in known && legs[k].weight.Some?)
            && (r.Success? ==>
                  && |r.value| == |legs|
                  && forall k :: 0 <= k < |legs| ==>
                       r.value[k].feed == legs[k].feed && Some(r.value[k].weight) == legs[k].weight)
    decreases |legs|
  {
    if legs != [] {
      var front := legs[..|legs| - 1];
      LegsAre(front, known);
      assert forall k :: 0 <= k < |legs| ==> legs[k] == (if k < |front| then front[k] else legs[|front|]);
    }
  }

  lemma BaseIsBuilt(cfg: BaseConfig, known: set<Symbol>)
    ensures var r := BuildBase(cfg, known);
            (r.Success? <==> GoodBase(cfg, known)) && (r.Success? ==> BaseIs(r.value, cfg))
  {
    if cfg.BasketConfig? { LegsAre(cfg.legs, known); }
    hide BuildLegs;
  }

  lemma StageIsBuilt(cfg: TransformConfig)
    ensures var r := BuildTransform(cfg);
            (r.Success? <==> GoodTransform(cfg)) && (r.Success? ==> StageIs(r.value, cfg))
  {
  }

  lemma {:induction false} StagesAreBuilt(cfgs: seq<TransformConfig>)
    ensures var r := BuildTransforms(cfgs);
            && (r.Success? <==> forall k :: 0 <= k < |cfgs| ==> GoodTransform(cfgs[k]))
            && (r.Success? ==>
                  |r.value| == |cfgs| && forall k :: 0 <= k < |cfgs| ==> StageIs(r.value[k], cfgs[k]))
  {
    hide BuildTransform, GoodTransform, StageIs;
    if cfgs != [] {
      StageIsBuilt(cfgs[0]);
      StagesAreBuilt(cfgs[1..]);
      assert forall k :: 0 <= k < |cfgs| ==> cfgs[k] == (if k == 0 then cfgs[0] else cfgs[1..][k - 1]);
    }
  }

  /** An instrument is built exactly when its configuration is good, and then as configured. */
  lemma InstrumentIsBuilt(cfg: InstrumentConfig, known: set<Symbol>)
    ensures var r := BuildInstrument(cfg, known);
            (r.Success? <==> GoodInstrument(cfg, known)) && (r.Success? ==> InstrumentIs(r.value, cfg))
  {
    hide BuildBase, BuildTransforms, GoodBase, BaseIs, GoodTransform, StageIs;
    BaseIsBuilt(cfg.base, known);
    StagesAreBuilt(cfg.transforms);
  }

  // ---------------------------------------------------------------- the registry

  /** The symbols two configurations resolve to differ. */
  predicate Apart(a: InstrumentConfig, b: InstrumentConfig) {
    (if a.symbol.Some? then a.symbol else a.mint) != (if b.symbol.Some? then b.symbol else b.mint)
  }

  /** Every instrument is good and no symbol is given twice. */
  predicate GoodRegistry(cfgs: seq<InstrumentConfig>, known: set<Symbol>) {
    && (forall i :: 0 <= i < |cfgs| ==> GoodInstrument(cfgs[i], known))
    && forall i, j :: 0 <= i < j < |cfgs| ==> Apart(cfgs[i], cfgs[j])
  }

  predicate AllAre(insts: seq<Instrument>, cfgs: seq<InstrumentConfig>) {
    |insts| == |cfgs| && forall i :: 0 <= i < |cfgs| ==> InstrumentIs(insts[i], cfgs[i])
  }

  lemma SymbolTaken(insts: seq<Instrument>, cfgs: seq<InstrumentConfig>, last: InstrumentConfig)
    requires AllAre(insts, cfgs) && ResolvedSymbol(last).Some?
    ensures HasSymbol(insts, ResolvedSymbol(last).value) <==> exists i :: 0 <= i < |cfgs| && !Apart(cfgs[i], last)
  {
    forall i | 0 <= i < |cfgs|
      ensures insts[i].symbol == ResolvedSymbol(last).value <==> !Apart(cfgs[i], last)
    {
      assert InstrumentIs(insts[i], cfgs[i]);
    }
  }

  lemma OneMoreGood(front: seq<InstrumentConfig>, last: InstrumentConfig, known: set<Symbol>)
    ensures GoodRegistry(front + [last], known) <==>
              && GoodRegistry(front, known) && GoodInstrument(last, known)
              && !exists i :: 0 <= i < |front| && !Apart(front[i], last)
  {
    hide GoodInstrument, Apart;
    var all := front + [last];
    assert all[|front|] == last && forall i :: 0 <= i < |front| ==> all[i] == front[i];
    if GoodRegistry(all, known) {
      forall i, j | 0 <= i < j < |front| ensures Apart(front[i], front[j]) { assert Apart(all[i], all[j]); }
      forall i | 0 <= i < |front| ensures Apart(front[i], last) { assert Apart(all[i], all[|front|]); }
      forall i | 0 <= i < |front| ensures GoodInstrument(front[i], known) { assert GoodInstrument(all[i], known); }
      assert GoodInstrument(all[|front|], known);
    }
  }

  /** The engine accepts exactly the good configurations, and builds each instrument as configured, in
      order, without any price yet. */
  lemma {:induction false} RegistryIsBuilt(cfgs: seq<InstrumentConfig>, known: set<Symbol>)
    ensures Build(cfgs, known).Success? <==> GoodRegistry(cfgs, known)
    ensures Build(cfgs, known).Success? ==>
              AllAre(Build(cfgs, known).value.instruments, cfgs) && Build(cfgs, known).value.latest == map[]
    decreases |cfgs|
  {
    hide BuildInstrument, GoodInstrument, InstrumentIs, GoodRegistry, Apart, HasSymbol, IndexFeeds;
    if cfgs == [] {
      NoneGood(known);
    } else {
      var front, last := cfgs[..|cfgs| - 1], cfgs[|cfgs| - 1];
      assert cfgs == front + [last];
      RegistryIsBuilt(front, known);
      OneMoreGood(front, last, known);
      InstrumentIsBuilt(last, known);
      if Build(front, known).Success? && GoodInstrument(last, known) {
        HasAName(last, known);
        SymbolTaken(Build(front, known).value.instruments, front, last);
      }
    }
  }

  lemma NoneGood(known: set<Symbol>)
    ensures GoodRegistry([], known)
  {
  }

  lemma HasAName(cfg: InstrumentConfig, known: set<Symbol>)
    requires GoodInstrument(cfg, known)
    ensures ResolvedSymbol(cfg).Some?
  {
  }

  // ---------------------------------------------------------------- the index

  function MentionsIn(legs: seq<LegConfig>, feed: Symbol): nat {
    if legs == [] then 0
    else MentionsIn(legs[..|legs| - 1], feed) + (if legs[|legs| - 1].feed == feed then 1 else 0)
  }

  /** How often a configured base price mentions a feed. */
  function Mentions(cfg: BaseConfig, feed: Symbol): nat {
    match cfg
    case UnderlyingConfig(f) => if f == feed then 1 else 0
    case CrossConfig(base, quote) => (if base == feed then 1 else 0) + (if quote == feed then 1 else 0)
    case BasketConfig(legs, _) => MentionsIn(legs, feed)
    case PegConfig(_) => 0
    case GbmConfig(_, _) => 0
  }

  lemma {:induction false} CountOfOne(a: Symbol, feed: Symbol)
    ensures Count([a], feed) == if a == feed then 1 else 0
  {
    assert [a][..0] == [];
    assert Count([], feed) == 0;
  }

  lemma {:induction false} CountOfTwo(a: Symbol, b: Symbol, feed: Symbol)
    ensures Count([a, b], feed) == (if a == feed then 1 else 0) + (if b == feed then 1 else 0)
  {
    assert [a, b][..1] == [a];
    CountOfOne(a, feed);
  }

  lemma {:induction false} CountOfLegs(legs: seq<Leg>, cfgs: seq<LegConfig>, feeds: seq<Symbol>, feed: Symbol)
    requires |legs| == |cfgs| == |feeds|
    requires forall k :: 0 <= k < |legs| ==> legs[k].feed == cfgs[k].feed && feeds[k] == legs[k].feed
    ensures Count(feeds, feed) == MentionsIn(cfgs, feed)
    decreases |legs|
  {
    if legs != [] {
      var n := |legs| - 1;
      CountOfLegs(legs[..n], cfgs[..n], feeds[..n], feed);
    }
  }

  lemma {:induction false} CountIsMentions(b: Base, cfg: BaseConfig, feed: Symbol)
    requires BaseIs(b, cfg)
    ensures Count(FeedsUsed(b), feed) == Mentions(cfg, feed)
  {
    hide Count, MentionsIn;
    match cfg {
      case UnderlyingConfig(f) => CountOfOne(f, feed);
      case CrossConfig(base, quote) => CountOfTwo(base, quote, feed);
      case BasketConfig(legs, _) => CountOfLegs(b.legs, legs, FeedsUsed(b), feed);
      case _ => CountOfNone(feed);
    }
  }

  lemma {:induction false} CountOfNone(feed: Symbol)
    ensures Count([], feed) == 0
  {
  }

  /** An observation of a feed visits an instrument once for every time its configuration mentions the
      feed, and the clock visits it exactly if it is a generator or a peg: once. */
  lemma {:induction false} IndexedAsConfigured(cfgs: seq<InstrumentConfig>, known: set<Symbol>, i: nat, feed: Symbol)
    requires Build(cfgs, known).Success? && i < |cfgs|
    ensures var st := Build(cfgs, known).value;
            && Hits(IndicesFor(st, feed), i) == Mentions(cfgs[i].base, feed)
            && Hits(st.timed, i) == if cfgs[i].base.PegConfig? || cfgs[i].base.GbmConfig? then 1 else 0
  {
    hide Build, Hits, IndicesFor, Mentions, Count, FeedsUsed, BaseIs;
    RegistryIsBuilt(cfgs, known);
    BuildProjects(cfgs, known, i);
    var st := Build(cfgs, known).value;
    var inst := st.instruments[i];
    assert InstrumentIs(inst, cfgs[i]);
    SoloStateIs(inst, feed);
    CountIsMentions(inst.base, cfgs[i].base, feed);
    SameKind(inst.base, cfgs[i].base);
    SameSolo(Hits(IndicesFor(st, feed), i), Count(FeedsUsed(inst.base), feed));
    SameSolo(Hits(st.timed, i), if ClockDriven(inst.base) then 1 else 0);
  }

  lemma SameKind(b: Base, cfg: BaseConfig)
    requires BaseIs(b, cfg)
    ensures ClockDriven(b) <==> cfg.PegConfig? || cfg.GbmConfig?
  {
  }

  lemma SameSolo(m: nat, n: nat)
    ensures Solo(m) == Solo(n) ==> m == n
    ensures Solo(0) == [] && Solo(1) == [0]
  {
    assert |Solo(m)| == m && |Solo(n)| == n;
  }

  // ---------------------------------------------------------------- the order of the output

  predicate Ascending(idxs: seq<nat>) { forall a, b :: 0 <= a < b < |idxs| ==> idxs[a] <= idxs[b] }

  predicate InFront(idxs: seq<nat>, n: nat) { forall k :: 0 <= k < |idxs| ==> idxs[k] < n }

  predicate IndexAscends(byFeed: map<Symbol, seq<nat>>, n: nat) {
    forall f :: f in byFeed ==> Ascending(byFeed[f]) && InFront(byFeed[f], n)
  }

  lemma {:induction false} FeedsAscend(byFeed: map<Symbol, seq<nat>>, feeds: seq<Symbol>, n: nat)
    requires IndexAscends(byFeed, n)
    ensures IndexAscends(IndexFeeds(byFeed, feeds, n), n + 1)
    decreases |feeds|
  {
    if feeds != [] {
      FeedsAscend(byFeed, feeds[..|feeds| - 1], n);
    }
  }

  /** Whatever an index list names, it names in the order of registration. */
  lemma {:induction false} BuiltAscending(cfgs: seq<InstrumentConfig>, known: set<Symbol>)
    requires Build(cfgs, known).Success?
    ensures var st := Build(cfgs, known).value;
            |st.instruments| == |cfgs| && Ascending(st.timed) && InFront(st.timed, |cfgs|)
            && IndexAscends(st.byFeed, |cfgs|)
    decreases |cfgs|
  {
    hide BuildInstrument;
    if cfgs != [] {
      var front, last := cfgs[..|cfgs| - 1], cfgs[|cfgs| - 1];
      BuiltAscending(front, known);
      FeedsAscend(Build(front, known).value.byFeed, FeedsUsed(BuildInstrument(last, known).value.base), |front|);
    }
  }

  /** The points were emitted by these instruments, in the order of registration. */
  predicate EmittedBy(out: seq<PricePoint>, own: seq<nat>, insts: seq<Instrument>) {
    && |own| == |out| && Ascending(own)
    && forall k :: 0 <= k < |out| ==> own[k] < |insts| && out[k].symbol == insts[own[k]].symbol
  }

  lemma BatchInOrder(num: Numerics, insts: seq<Instrument>, idxs: seq<nat>, latest: Latest, now: int,
                                        clocked: bool) returns (own: seq<nat>)
    requires ValidIndices(insts, idxs) && Ascending(idxs) && UniqueSymbols(insts)
    ensures EmittedBy(VisitAll(num, insts, idxs, latest, now, clocked).out, own, insts)
    ensures forall k :: 0 <= k < |own| ==> own[k] in idxs
    decreases |idxs|
  {
    hide Visit, EmittedBy, UniqueSymbols, OfSymbol, Hits, Solo;
    own := [];
    NothingEmittedBy(insts);
    if idxs != [] {
      var front, idx := idxs[..|idxs| - 1], idxs[|idxs| - 1];
      own := BatchInOrder(num, insts, front, latest, now, clocked);
      var before := VisitAll(num, insts, front, latest, now, clocked);
      BatchProjects(num, insts, front, idx, latest, now, clocked);
      VisitKeepsIdentity(num, before.insts[idx], latest, now, clocked);
      var point := Visit(num, before.insts[idx], latest, now, clocked).point;
      assert forall k :: 0 <= k < |own| ==> own[k] in front && own[k] <= idx;
      if point.Some? {
        EmittedOneMore(before.out, own, insts, point.value, idx);
        own := own + [idx];
      } else {
        assert before.out + OutOf(point) == before.out;
      }
    }
  }

  lemma NothingEmittedBy(insts: seq<Instrument>)
    ensures EmittedBy([], [], insts)
  {
  }

  lemma EmittedOneMore(out: seq<PricePoint>, own: seq<nat>, insts: seq<Instrument>, p: PricePoint, idx: nat)
    requires EmittedBy(out, own, insts) && idx < |insts| && p.symbol == insts[idx].symbol
    requires forall k :: 0 <= k < |own| ==> own[k] <= idx
    ensures EmittedBy(out + [p], own + [idx], insts)
  {
  }

  /** One event's points come in the order in which their instruments are registered. */
  lemma OutputInOrder(num: Numerics, cfgs: seq<InstrumentConfig>, known: set<Symbol>,
                                         tape: seq<Event>, e: Event) returns (own: seq<nat>)
    requires Build(cfgs, known).Success? && Valid(Build(cfgs, known).value)
    ensures var start := Build(cfgs, known).value;
            EmittedBy(React(num, RunTape(num, start, tape).state, e).out, own, start.instruments)
  {
    hide VisitAll, Build, Reduce;
    var start := Build(cfgs, known).value;
    BuildIsFresh(cfgs, known);
    BuiltAscending(cfgs, known);
    RunKeepsIndex(num, start, tape);
    var st := RunTape(num, start, tape).state;
    var idxs := if e.Clock? then st.timed else IndicesFor(st, e.point.symbol);
    own := [];
    if e.Clock? || Reduce(num, e.point.data).Some? {
      own := BatchInOrder(num, st.instruments, idxs, React(num, st, e).state.latest, e.now, e.Clock?);
    }
  }

  lemma SameUnique(a: seq<Instrument>, b: seq<Instrument>)
    requires SameSymbols(a, b) && UniqueSymbols(b)
    ensures UniqueSymbols(a)
  {
  }

  lemma {:induction false} RunKeepsIndex(num: Numerics, st: EngineState, tape: seq<Event>)
    requires Valid(st) && UniqueSymbols(st.instruments)
    ensures var end := RunTape(num, st, tape).state;
            && end.byFeed == st.byFeed && end.timed == st.timed
            && SameSymbols(end.instruments, st.instruments) && UniqueSymbols(end.instruments)
    decreases |tape|
  {
    hide VisitAll, Reduce, UniqueSymbols;
    if tape != [] {
      var front, e := tape[..|tape| - 1], tape[|tape| - 1];
      RunKeepsIndex(num, st, front);
      ReactKeepsIndex(num, RunTape(num, st, front).state, e);
      SameUnique(RunTape(num, st, tape).state.instruments, st.instruments);
    }
  }

  lemma ReactKeepsIndex(num: Numerics, st: EngineState, e: Event)
    requires Valid(st) && UniqueSymbols(st.instruments)
    ensures var end := React(num, st, e).state;
            end.byFeed == st.byFeed && end.timed == st.timed && SameSymbols(end.instruments, st.instruments)
  {
    hide VisitAll, Reduce, UniqueSymbols;
    var idxs := if e.Clock? then st.timed else IndicesFor(st, e.point.symbol);
    var latest := React(num, st, e).state.latest;
    if st.instruments != [] {
      BatchProjects(num, st.instruments, idxs, 0, latest, e.now, e.Clock?);
    }
  }
}
