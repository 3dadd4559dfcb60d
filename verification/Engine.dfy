/** The pricing engine: the registry, its dependency index, the clock, and the published cache. */
module Engine {
  import opened Wrappers
  import opened MachineInts
  import opened Decimals
  import opened Instruments

  const ENGINE_TICK_MS := 250

  // ---------------------------------------------------------------- configuration

  /** A decimal in the configuration text; `None` when the text is not one. */
  type DecimalText = Option<real>

  datatype LegConfig = LegConfig(feed: Symbol, weight: DecimalText)

  datatype BaseConfig =
    | UnderlyingConfig(feed: Symbol)
    | CrossConfig(base: Symbol, quote: Symbol)
    | BasketConfig(legs: seq<LegConfig>, rebase: Option<DecimalText>)
    | PegConfig(target: DecimalText)
    | GbmConfig(gen: Option<GenState>, tickMs: nat)

  datatype TransformConfig =
    | ScaleConfig(factor: DecimalText, offset: Option<DecimalText>)
    | InvertConfig
    | BetaConfig(params: Option<GenState>)
    | LagConfig(ms: nat)
    | NoiseConfig(gen: GenState)

  datatype InstrumentConfig = InstrumentConfig(
    symbol: Option<Symbol>,
    mint: Option<Symbol>,
    expo: int,
    base: BaseConfig,
    transforms: seq<TransformConfig>)

  datatype ConfigError = NeedsSymbol | DuplicateSymbol | UnknownFeed | BadDecimal | LagTooLarge

  function ResolvedSymbol(cfg: InstrumentConfig): Option<Symbol> {
    if cfg.symbol.Some? then cfg.symbol else cfg.mint
  }

  function BuildLegs(legs: seq<LegConfig>, known: set<Symbol>): Result<seq<Leg>, ConfigError> {
    if legs == [] then Success([])
    else
      match BuildLegs(legs[..|legs| - 1], known)
      case Failure(e) => Failure(e)
      case Success(built) =>
        var leg := legs[|legs| - 1];
        if leg.feed !in known then Failure(UnknownFeed)
        else if leg.weight.None? then Failure(BadDecimal)
        else Success(built + [Leg(leg.feed, leg.weight.value)])
  }

  function BuildBase(cfg: BaseConfig, known: set<Symbol>): Result<Base, ConfigError> {
    match cfg
    case UnderlyingConfig(feed) => if feed in known then Success(Underlying(feed)) else Failure(UnknownFeed)
    case CrossConfig(base, quote) =>
      if base in known && quote in known then Success(Cross(base, quote)) else Failure(UnknownFeed)
    case BasketConfig(legs, rebase) =>
      (match BuildLegs(legs, known)
       case Failure(e) => Failure(e)
       case Success(built) =>
         if rebase == Some(None) then Failure(BadDecimal)
         else Success(Basket(built, if rebase.None? then None else rebase.value, None)))
    case PegConfig(target) => if target.None? then Failure(BadDecimal) else Success(Peg(target.value))
    case GbmConfig(gen, tickMs) =>
      if gen.None? then Failure(BadDecimal)
      else Success(Gbm(if tickMs < ENGINE_TICK_MS then ENGINE_TICK_MS else tickMs, gen.value))
  }

  function BuildTransform(cfg: TransformConfig): Result<Transform, ConfigError> {
    match cfg
    case ScaleConfig(factor, offset) =>
      if factor.None? || offset == Some(None) then Failure(BadDecimal)
      else Success(Scale(factor.value, if offset.None? then 0.0 else offset.value.value))
    case InvertConfig => Success(Invert)
    case BetaConfig(params) => if params.None? then Failure(BadDecimal) else Success(Beta(params.value))
    case LagConfig(ms) => if ms * 1000 > I64_MAX then Failure(LagTooLarge) else Success(Lag(ms * 1000, []))
    case NoiseConfig(gen) => Success(Noise(gen))
  }

  function BuildTransforms(cfgs: seq<TransformConfig>): Result<seq<Transform>, ConfigError> {
    if cfgs == [] then Success([])
    else
      match BuildTransform(cfgs[0])
      case Failure(e) => Failure(e)
      case Success(t) =>
        match BuildTransforms(cfgs[1..])
        case Failure(e) => Failure(e)
        case Success(rest) => Success([t] + rest)
  }

  /** The feeds whose ticks re-evaluate an instrument, in registration order and with repetitions. */
  function FeedsUsed(b: Base): seq<Symbol> {
    match b
    case Underlying(feed) => [feed]
    case Cross(base, quote) => [base, quote]
    case Basket(legs, _, _) => seq(|legs|, i requires 0 <= i < |legs| => legs[i].feed)
    case Peg(_) => []
    case Gbm(_, _) => []
  }

  predicate ClockDriven(b: Base) { b.Gbm? || b.Peg? }

  // ---------------------------------------------------------------- the engine's state

  datatype EngineState = EngineState(
    instruments: seq<Instrument>,
    byFeed: map<Symbol, seq<nat>>,
    timed: seq<nat>,
    latest: Latest)

  const EMPTY := EngineState([], map[], [], map[])

  function IndicesFor(st: EngineState, feed: Symbol): seq<nat> {
    if feed in st.byFeed then st.byFeed[feed] else []
  }

  predicate ValidIndices(insts: seq<Instrument>, idxs: seq<nat>) {
    forall k :: 0 <= k < |idxs| ==> idxs[k] < |insts|
  }

  predicate Valid(st: EngineState) {
    && ValidIndices(st.instruments, st.timed)
    && ValidIndex(st.instruments, st.byFeed)
  }

  predicate ValidIndex(insts: seq<Instrument>, byFeed: map<Symbol, seq<nat>>) {
    forall f :: f in byFeed ==> ValidIndices(insts, byFeed[f])
  }

  function IndexFeeds(byFeed: map<Symbol, seq<nat>>, feeds: seq<Symbol>, idx: nat): map<Symbol, seq<nat>> {
    if feeds == [] then byFeed
    else
      var m := IndexFeeds(byFeed, feeds[..|feeds| - 1], idx);
      var feed := feeds[|feeds| - 1];
      m[feed := (if feed in m then m[feed] else []) + [idx]]
  }

  /** The runtime of one configured instrument, apart from the others. */
  function BuildInstrument(cfg: InstrumentConfig, known: set<Symbol>): Result<Instrument, ConfigError> {
    match ResolvedSymbol(cfg)
    case None => Failure(NeedsSymbol)
    case Some(symbol) =>
      match BuildBase(cfg.base, known)
      case Failure(e) => Failure(e)
      case Success(base) =>
        match BuildTransforms(cfg.transforms)
        case Failure(e) => Failure(e)
        case Success(transforms) => Success(Instrument(symbol, cfg.expo, base, transforms, 0))
  }

  predicate HasSymbol(insts: seq<Instrument>, symbol: Symbol) {
    exists i :: 0 <= i < |insts| && insts[i].symbol == symbol
  }

  function Register(st: EngineState, inst: Instrument): EngineState {
    var idx := |st.instruments|;
    st.(instruments := st.instruments + [inst],
        timed := if ClockDriven(inst.base) then st.timed + [idx] else st.timed,
        byFeed := IndexFeeds(st.byFeed, FeedsUsed(inst.base), idx))
  }

  function AddInstrument(st: EngineState, cfg: InstrumentConfig, known: set<Symbol>): Result<EngineState, ConfigError> {
    var symbol := ResolvedSymbol(cfg);
    if symbol.Some? && HasSymbol(st.instruments, symbol.value) then Failure(DuplicateSymbol)
    else
      match BuildInstrument(cfg, known)
      case Failure(e) => Failure(e)
      case Success(inst) => Success(Register(st, inst))
  }

  function Build(cfgs: seq<InstrumentConfig>, known: set<Symbol>): Result<EngineState, ConfigError> {
    if cfgs == [] then Success(EMPTY)
    else
      match Build(cfgs[..|cfgs| - 1], known)
      case Failure(e) => Failure(e)
      case Success(st) => AddInstrument(st, cfgs[|cfgs| - 1], known)
  }

  // ---------------------------------------------------------------- events

  datatype Reduced = Reduced(value: real, confRatio: Option<real>)

  function AbsReal(x: real): real { if x < 0.0 then -x else x }

  /** An observation reduced to a value and a confidence ratio. */
  function Reduce(num: Numerics, data: PriceData): Option<Reduced> {
    match data
    case Aggregate(price, conf) =>
      (match ToDecimal(price)
       case None => None
       case Some(value) =>
         Some(Reduced(value, AndThen(AndThen(conf, ToDecimal), (c: real) => num.div(c, value)))))
    case TopOfBook(bid, ask) =>
      (match (ToDecimal(bid), ToDecimal(ask))
       case (Some(b), Some(a)) =>
         (match (AndThen(num.add(b, a), (s: real) => num.div(s, 2.0)),
                 AndThen(num.sub(a, b), (s: real) => num.div(AbsReal(s), 2.0)))
          case (Some(mid), Some(half)) => Some(Reduced(mid, num.div(half, mid)))
          case (_, _) => None)
       case (_, _) => None)
    case Trade(price) =>
      (match ToDecimal(price) case None => None case Some(value) => Some(Reduced(value, None)))
  }

  /** The pause before a clock-driven instrument is evaluated again, in microseconds; `None` when the
      multiplication overflows, which aborts the engine. */
  function Interval(b: Base): Option<int> {
    match b
    case Gbm(tickMs, _) => if FitsI64(CastI64(tickMs) * 1000) then Some(CastI64(tickMs) * 1000) else None
    case _ => Some(ENGINE_TICK_MS * 1000 * 4)
  }

  /** When an instrument evaluated at `now` is due again; `None` when this overflows. */
  function NextDue(b: Base, now: int): Option<int> {
    match Interval(b)
    case None => None
    case Some(us) => if FitsI64(now + us) then Some(now + us) else None
  }

  /** One instrument's turn: on the clock it waits until it is due. A turn that overflows evaluates
      nothing; it ends the run (see `Handled`). */
  function Visit(num: Numerics, inst: Instrument, latest: Latest, now: int, clocked: bool): Evaluated {
    if !clocked then Eval(num, inst, latest, now)
    else if now < inst.nextDue then Evaluated(inst, None)
    else
      match NextDue(inst.base, now)
      case None => Evaluated(inst, None)
      case Some(due) => Eval(num, inst.(nextDue := due), latest, now)
  }

  /** The clock's turn of this instrument overflows. */
  predicate Overflows(inst: Instrument, now: int) { inst.nextDue <= now && NextDue(inst.base, now).None? }

  predicate AbortsOn(insts: seq<Instrument>, idxs: seq<nat>, now: int)
    requires ValidIndices(insts, idxs)
  {
    exists k :: 0 <= k < |idxs| && Overflows(insts[idxs[k]], now)
  }

  datatype Batch = Batch(insts: seq<Instrument>, out: seq<PricePoint>)

  function OutOf(p: Option<PricePoint>): seq<PricePoint> { if p.None? then [] else [p.value] }

  /** The instruments at `idxs` in turn, each on the state the previous ones left. */
  function VisitAll(num: Numerics, insts: seq<Instrument>, idxs: seq<nat>, latest: Latest, now: int,
                    clocked: bool): (b: Batch)
    requires ValidIndices(insts, idxs)
    ensures |b.insts| == |insts|
    decreases |idxs|
  {
    if idxs == [] then Batch(insts, [])
    else
      var before := VisitAll(num, insts, idxs[..|idxs| - 1], latest, now, clocked);
      var idx := idxs[|idxs| - 1];
      var e := Visit(num, before.insts[idx], latest, now, clocked);
      Batch(before.insts[idx := e.inst], before.out + OutOf(e.point))
  }

  datatype Reply = Reply(state: EngineState, out: seq<PricePoint>)

  function OnUnderlying(num: Numerics, st: EngineState, point: PricePoint, now: int): (r: Reply)
    requires Valid(st)
    ensures Valid(r.state)
  {
    match Reduce(num, point.data)
    case None => Reply(st, [])
    case Some(x) =>
      var latest := st.latest[point.symbol := Snapshot(x.value, x.confRatio, point.publishTime, point.slot,
        point.source)];
      var b := VisitAll(num, st.instruments, IndicesFor(st, point.symbol), latest, now, false);
      Reply(st.(instruments := b.insts, latest := latest), b.out)
  }

  function OnTick(num: Numerics, st: EngineState, now: int): (r: Reply)
    requires Valid(st)
    ensures Valid(r.state)
  {
    var b := VisitAll(num, st.instruments, st.timed, st.latest, now, true);
    Reply(st.(instruments := b.insts), b.out)
  }

  datatype Event = Observed(point: PricePoint, now: int) | Clock(now: int)

  function React(num: Numerics, st: EngineState, e: Event): (r: Reply)
    requires Valid(st)
    ensures Valid(r.state)
  {
    match e
    case Observed(point, now) => OnUnderlying(num, st, point, now)
    case Clock(now) => OnTick(num, st, now)
  }

  /** The event at which an overflow aborts the engine. */
  predicate Aborts(st: EngineState, e: Event)
    requires Valid(st)
  {
    e.Clock? && AbortsOn(st.instruments, st.timed, e.now)
  }

  /** How many events of the tape are handled: all of them, or those before the one that aborts the
      engine. Its own output is lost, and nothing comes after it. */
  function Handled(num: Numerics, st: EngineState, tape: seq<Event>): (n: nat)
    requires Valid(st)
    ensures n <= |tape|
  {
    if tape == [] then 0
    else
      var front := tape[..|tape| - 1];
      var n := Handled(num, st, front);
      if n < |front| || Aborts(RunTape(num, st, front).state, tape[|tape| - 1]) then n else |tape|
  }

  /** A run of handled events: the state after them and everything emitted on the way. */
  function RunTape(num: Numerics, st: EngineState, tape: seq<Event>): (r: Reply)
    requires Valid(st)
    ensures Valid(r.state)
  {
    if tape == [] then Reply(st, [])
    else
      var before := RunTape(num, st, tape[..|tape| - 1]);
      var last := React(num, before.state, tape[|tape| - 1]);
      Reply(last.state, before.out + last.out)
  }

  /** The published cache: the newest point of each symbol. */
  function Published(prices: map<Symbol, PricePoint>, out: seq<PricePoint>): map<Symbol, PricePoint> {
    if out == [] then prices
    else Published(prices, out[..|out| - 1])[out[|out| - 1].symbol := out[|out| - 1]]
  }

  // ---------------------------------------------------------------- a built engine is valid

  lemma {:induction false} IndexFeedsValid(insts: seq<Instrument>, byFeed: map<Symbol, seq<nat>>, feeds: seq<Symbol>,
                                           idx: nat)
    requires idx < |insts| && ValidIndex(insts, byFeed)
    ensures ValidIndex(insts, IndexFeeds(byFeed, feeds, idx))
    decreases |feeds|
  {
    if feeds != [] {
      IndexFeedsValid(insts, byFeed, feeds[..|feeds| - 1], idx);
      var prev, m := IndexFeeds(byFeed, feeds[..|feeds| - 1], idx), IndexFeeds(byFeed, feeds, idx);
      forall f | f in m
        ensures ValidIndices(insts, m[f])
      {
        assert f in prev ==> ValidIndices(insts, prev[f]);
      }
    }
  }

  lemma {:induction false} BuildIsValid(cfgs: seq<InstrumentConfig>, known: set<Symbol>)
    requires Build(cfgs, known).Success?
    ensures Valid(Build(cfgs, known).value)
    decreases |cfgs|
  {
    if cfgs != [] {
      BuildIsValid(cfgs[..|cfgs| - 1], known);
      var st := Build(cfgs[..|cfgs| - 1], known).value;
      var inst := BuildInstrument(cfgs[|cfgs| - 1], known).value;
      RegisterIsValid(st, inst);
    }
  }

  lemma RegisterIsValid(st: EngineState, inst: Instrument)
    requires Valid(st)
    ensures Valid(Register(st, inst))
  {
    var insts := st.instruments + [inst];
    IndexFeedsValid(insts, st.byFeed, FeedsUsed(inst.base), |st.instruments|);
  }
}
